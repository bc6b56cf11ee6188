# SuiteQL extension: OAuth 2.0 engine, redirect server, accounts and history views

This project models the core of a VS Code extension that runs SuiteQL queries against NetSuite. The model is written in Dafny, and its properties are proved.

**Request engine (`auth/oauth2.js`).** `sendRequestWithOauth2` first checks two guards: an account must be selected, and it must have OAuth 2.0 credentials. It then takes one of three routes:
- use the stored access token while it is valid;
- refresh the token inline when it has expired;
- run the interactive authorization-code flow.

Every route ends in the retry ladder of `makeSuiteQLCall`:
1. a first request;
2. on a token error (a 401, or a body whose `error.message` is truthy and whose `error.code` is `INVALID_LOGIN_ATTEMPT` or `INVALID_SESSION`), one refresh-token grant and, when it yields a token, one retry;
3. otherwise one interactive re-authorization and one final request.

**Redirect server (`auth/oauthRedirectServer.js`).** A local listener that checks the anti-CSRF `state`, hands the authorization code over, and shuts itself down on a request or when its timer fires.

**Extension state.**
- The stored account list, with its `auth.json` fallback (`utils/authManager.js`).
- The account picker: save, use, edit, delete (`commands/chooseAccount.js`).
- The per-account query history shown in two webviews (`extension.js`).

**How the model is built.**
- Each network exchange is a scripted reply. The clock is a parameter `now`. The state token is computed from given random bytes. Whether the browser opens is a given answer.
- JavaScript's `undefined` is `None`.
- Truthiness, `||`, optional chaining, strict equality, `Object.keys`, `findIndex` and `splice` are written out as functions.
- Each operation has a pure specification function over the stored account list. Examples: `OAuth2.SendSpec`, `OAuth2.LadderSpec`, `OAuth2.FlowSpec`, `OAuth2.RefreshSpec`, `ChooseAccount.ChooseSpec`.
- Each specification function returns the outcome, the outbound calls in order, and the list left in storage.
- The extension context is the class `Memento.Context`: its fields are the globalState account list and selection, the workspaceState histories, and the `auth.json` read. The source's step-by-step code is modelled by module-level methods that take a `Context` and update its fields. Each method is proved to agree with its specification function.
- The redirect server and the view provider are classes whose methods update their fields as the source does.

Behaviour the model keeps as the code has it, although a reader might expect otherwise:
- A failed inline refresh throws (`auth/oauth2.js:227-235`). It does not fall back to authorization.
- The refresh inside the ladder stores only the new access token (`auth/oauth2.js:64-69`). It does not store the refresh token or the expiry.
- A browser that fails to open rejects the flow (`auth/oauth2.js:280-281`).
- A mismatched `state` is logged as a potential CSRF attack, but it only shows a page and shuts the server down (`auth/oauthRedirectServer.js:19-23`). It does not reject the flow; the flow ends only when the timer fires. `OAuth2.MismatchedStateTimesOut` shows this.
- The timer is 10 000 ms as written (`auth/oauthRedirectServer.js:51`), not the 60 seconds its comments and its warning name (`auth/oauthRedirectServer.js:44`, `auth/oauthRedirectServer.js:46`).

## Model

| member | source | states |
|---|---|---|
| Json.Or | auth/oauth2.js:193 | `v \|\| fallback` is `v` exactly when `v` is truthy, the fallback otherwise |
| Json.Lookup | extension.js:158 | member lookup finds nothing iff no member has that name, otherwise the value of a member with that name |
| Json.Keys | extension.js:155 | `Object.keys` of an object has one key per member; a non-object has none |
| Json.KeysOrder | extension.js:155 | the keys are the member names with their repetitions; the array-index names (canonical decimal integers below 2^32 - 1) come first in ascending numeric order, and the other names follow in written order |
| Json.KeysListIndicesFirst | extension.js:155 | a first row written `{"b": 1, "1": 2}` gives the headers "1", "b" |
| Accounts.IndexWhere | auth/oauth2.js:65 | `findIndex` by strict equality: -1 iff no entry matches, otherwise a matching position with no match before it |
| Accounts.FindWhere | auth/oauth2.js:9 | `find` returns nothing iff no entry matches, otherwise the first matching entry, the one at the position `findIndex` reports |
| Accounts.SaveById | auth/oauth2.js:321-327 | saving by id does nothing iff no entry has the id, otherwise replaces the first entry with that id |
| Accounts.SaveByIdOnlyTouchesMatch | auth/oauth2.js:247-252 | saving by id keeps the length and every entry with another id, and a later lookup by that id finds the saved entry |
| Memento.HistoryKey | extension.js:60-61 | the history key is `suiteql.history.` followed by the selected id (`undefined` when unset) |
| Memento.HistoryKeysDistinct | extension.js:61 | two different account ids never share a history key |
| AuthManager.Loaded | utils/authManager.js:4-17 | a non-empty stored list is returned as it is; an empty one is replaced by the parsed `auth.json` account, or stays empty |
| AuthManager.LoadedIsStable | utils/authManager.js:6-12 | loading after a load changes nothing: the fallback written back is non-empty |
| AuthManager.LoadAccounts | utils/authManager.js:4-17 | returns the loaded list and writes it back to the store |
| AuthManager.SaveAccounts | utils/authManager.js:19-21 | replaces the stored list wholesale |
| AuthManager.GetCurrentAccount | utils/authManager.js:23-27 | as written: undefined iff there are no accounts; the first account whose `account` field equals the selection, else the first account |
| AuthManager.GetCurrentAccountById | utils/authManager.js:23-27 | corrected: the first account whose `id` equals the selection, else the first account; undefined iff there are none |
| AuthManager.GetCurrentAccountIgnoresSelectedId | utils/authManager.js:26 | with accounts "a" and "b" and "b" selected, the lookup as written returns "a"; the lookup by id returns "b" |
| RedirectServer.Cleared | auth/oauthRedirectServer.js:30 | `clearTimeout` cancels the timer at the handle and no other |
| RedirectServer.Server.constructor | auth/oauthRedirectServer.js:4-5 | no server, no timer, no callback invoked |
| RedirectServer.Server.Start | auth/oauthRedirectServer.js:7-9 | a new server replaces the module reference; an open one is counted orphaned, so every server started is closed, open or orphaned |
| RedirectServer.Server.ListenReady | auth/oauthRedirectServer.js:41-52 | the timer is armed only when the listen callback runs, with the 10 000 ms delay and the `onTimeout` of this start |
| RedirectServer.Server.Shutdown | auth/oauthRedirectServer.js:55-62 | closes the referenced server at most once; a second call closes nothing |
| RedirectServer.Server.Request | auth/oauthRedirectServer.js:10-37 | checks error, then state, then code. An error or a wrong state shuts down with no callback and the timer armed. A code is passed to `onCodeReceived` once, then the timer is cleared and the server shut down. A non-callable `onCodeReceived` throws before both. No code clears the timer and shuts down |
| RedirectServer.Server.TimerFires | auth/oauthRedirectServer.js:45-51 | a pending timer calls its captured `onTimeout` with no argument when it is a function, then shuts down; a cleared timer does nothing |
| OAuth2.ExpiryAfter | auth/oauth2.js:245 | the expiry is `now + expires_in * 1000`, or NaN without `expires_in` |
| OAuth2.ExpiryAfterExpires | auth/oauth2.js:203 | an expiry set from a reply is reached exactly when the clock passes `now + expires_in * 1000`; without `expires_in` (NaN) or at a stamp of 0 the token never counts as expired |
| OAuth2.IsExpired | auth/oauth2.js:203 | `expiresAt && Date.now() >= expiresAt`: an unset, zero or NaN stamp is falsy; its consequences are stated by `OAuth2.ExpiryAfterExpires` and `OAuth2.ChooseRoute` |
| OAuth2.ChooseRoute | auth/oauth2.js:202-261 | the stored token is used iff present and not expired; inline refresh iff a refresh token is present and the token expired; otherwise the interactive flow. A token with no expiry is always used |
| OAuth2.HasOAuth2Credentials | auth/oauth2.js:12 | all three of redirect URI, consumer key and consumer secret must be truthy; `OAuth2.SendChecksBeforeNetwork` states that a request without them fails before any call |
| OAuth2.ClassifyFailure | auth/oauth2.js:98-115 | a token error iff status 401, or a truthy `error.message` with one of the two invalid-session codes; the message is `error.message` when truthy, else the raw text |
| OAuth2.Normalize | auth/oauth2.js:193 | `items \|\| data \|\| []`: always truthy, `items` when truthy, else `data` when truthy, else `[]` |
| OAuth2.RefreshSpec | auth/oauth2.js:16-74 | the reference model of `refreshAccessToken`: its outcome and the stored list; `OAuth2.RefreshReturnsReplyToken` and the lemmas below state its properties |
| OAuth2.Parsed | auth/oauth2.js:184-195 | a 2xx body that does not parse fails for its stage; a `null` body throws a TypeError; any other body succeeds with `raw` the parsed body and `data` normalised from it |
| OAuth2.RefreshAccessToken | auth/oauth2.js:16-74 | agrees with `RefreshSpec`: transport error, non-2xx, bad JSON or no `access_token` return null and store nothing; a `null` body throws; success rewrites the access token of the entry with that id |
| OAuth2.RefreshReturnsReplyToken | auth/oauth2.js:28-73 | a token is returned exactly when the reply is 2xx and parses to an object with a truthy `access_token`, and it is that `access_token`; a `null` body throws; every other reply returns null |
| OAuth2.RefreshFailureKeepsStore | auth/oauth2.js:38-61 | a refresh that yields no token leaves the store as it was |
| OAuth2.RefreshOnlySetsAccessToken | auth/oauth2.js:63-69 | a successful refresh stores the loaded list with the returned token written into the first entry with the account's id, and nothing else changed; with no such entry the loaded list is stored as it is |
| OAuth2.RefreshedEntryStaysExpired | auth/oauth2.js:64-69 | after the ladder's refresh the entry is still expired, so the next request refreshes inline again |
| OAuth2.Hex | auth/oauth2.js:268 | the state token has two lower-case hex digits per random byte |
| OAuth2.HexRoundTrip | auth/oauth2.js:268 | hex decoding recovers the random bytes, so different bytes give different states |
| OAuth2.AuthorizeUrlFor | auth/oauth2.js:269-276 | the authorize URL has host `<account>.app.netsuite.com`, path `/app/login/oauth2/authorize.nl` and exactly five parameters in order: redirect_uri, client_id, response_type=code, the scope, state |
| OAuth2.FlowSpec | auth/oauth2.js:267-351 | the reference model of `startOAuthFlow`: its outcome, the account after it, its calls and the stored list; the flow lemmas below state its properties |
| OAuth2.StartOAuthFlow | auth/oauth2.js:267-351 | agrees with `FlowSpec` in outcome, updated account, calls and store |
| OAuth2.FlowOpensAuthorizeUrl | auth/oauth2.js:268-281 | the flow's first call opens the authorize URL, whose state is 32 hex digits |
| OAuth2.FlowOverwritesTokens | auth/oauth2.js:313-333 | a resolved flow took a 2xx object reply. It overwrites access token, refresh token (even with undefined) and expiry, stores the account under its id, and resolves with the access token |
| OAuth2.FlowFailureSavesNothing | auth/oauth2.js:303-349 | a rejected or unsettled flow stores nothing; a timeout exchanges no code; no handler leaves it pending |
| OAuth2.FlowCallBounds | auth/oauth2.js:267-351 | a flow opens the browser once, exchanges at most one code and makes no SuiteQL request |
| OAuth2.ReauthSpec | auth/oauth2.js:150-176 | every result of the third rung is normalised |
| OAuth2.RefreshRetrySpec | auth/oauth2.js:119-148 | every result of the second rung is normalised |
| OAuth2.LadderSpec | auth/oauth2.js:77-196 | every result of the ladder is normalised |
| OAuth2.MakeSuiteQLCall | auth/oauth2.js:77-196 | agrees with `LadderSpec` in outcome, calls and store |
| OAuth2.ReauthCallBounds | auth/oauth2.js:152-163 | the third rung adds one flow and at most one request after the calls before it |
| OAuth2.ReauthFinalFailureThrows | auth/oauth2.js:152-164 | once re-authorization gives a token, a non-2xx final reply throws with its text after exactly the flow's calls and one request, whatever calls came before |
| OAuth2.RefreshRetryCallBounds | auth/oauth2.js:121-148 | the second rung adds one refresh grant, at most two requests and at most one flow |
| OAuth2.LadderCallBounds | auth/oauth2.js:77-196 | a ladder starts with the request for its token and makes at most three requests, one refresh grant, one flow and one code exchange |
| OAuth2.LadderStopsWithoutTokenError | auth/oauth2.js:179-195 | a 2xx first reply or a non-token failure ends the ladder after one call, storing nothing; a bad 2xx body fails without retry |
| OAuth2.LadderRetriesOnlyWithRefreshedToken | auth/oauth2.js:119-151 | after a token error the refresh follows. A retry uses only a refreshed token; with no token the flow follows. A successful retry ends the ladder after three calls |
| OAuth2.LadderReauthorizesOnce | auth/oauth2.js:128-163 | 401, refresh, 401 again: exactly one flow, then at most one request |
| OAuth2.LadderFinalFailureThrows | auth/oauth2.js:98-164 | after a token error (by status or by code), on either way into the third rung (no refreshed token, or a refreshed retry that failed), a failed final request after re-authorization throws with its text |
| OAuth2.InlineRefreshed | auth/oauth2.js:240-245 | the inline refresh sets the access token, replaces the refresh token only when one is returned, and sets the expiry |
| OAuth2.InlineRefreshSpec | auth/oauth2.js:209-256 | the inline route starts with the refresh grant and every result it returns is normalised |
| OAuth2.InteractiveSpec | auth/oauth2.js:258-261 | the interactive route starts by opening the browser and every result it returns is normalised |
| OAuth2.SendSpec | auth/oauth2.js:6-261 | every result a request returns is normalised |
| OAuth2.SendRequestWithOAuth2 | auth/oauth2.js:6-261 | agrees with `SendSpec` in outcome, calls and store |
| OAuth2.SendChecksBeforeNetwork | auth/oauth2.js:7-14 | no selected account, or missing credentials, fails before any call |
| OAuth2.SendUsesValidTokenDirectly | auth/oauth2.js:202-207 | a valid token is sent in the first call, with no refresh before it |
| OAuth2.SendInlineRefresh | auth/oauth2.js:209-256 | a non-2xx inline refresh throws after one call and stores nothing. A good one is followed by a request with the new token. On a 2xx reply the refreshed account is what is stored |
| OAuth2.InlineRefreshCallBounds | auth/oauth2.js:209-256 | the inline route makes at most three requests, two refresh grants, one flow and one code exchange |
| OAuth2.InteractiveCallBounds | auth/oauth2.js:258-261 | the interactive route makes at most three requests, one refresh grant, two flows and two code exchanges |
| OAuth2.SendCallBounds | auth/oauth2.js:6-261 | a request makes at most three SuiteQL requests, two refresh grants, two browser opens and two code exchanges |
| OAuth2.RedirectAsWired | auth/oauth2.js:284 | with the arguments as passed, a valid redirect throws after the success page; the timer then runs the code handler without the code, and the server is closed |
| OAuth2.RedirectAsIntended | auth/oauthRedirectServer.js:7-37 | with the arguments in the parameters' order, the code handler receives the code once and the server is closed |
| OAuth2.MismatchedStateTimesOut | auth/oauthRedirectServer.js:19-23 | a redirect with another state gets the mismatch page and the flow ends in its timeout handler |
| ChooseAccount.Upserted | commands/chooseAccount.js:39-43 | saving replaces the first entry with the same id and keeps the rest, or appends; a lookup by that id then finds the saved account |
| ChooseAccount.UpsertedIdempotent | commands/chooseAccount.js:39-43 | saving the same account twice gives the list saving it once gives |
| ChooseAccount.HandleSave | commands/chooseAccount.js:38-52 | stores the upserted loaded list and selects the saved id; reports whether an entry was replaced |
| ChooseAccount.SavedAccountIsSelected | commands/chooseAccount.js:45-46 | after a save, the lookup by the selected id finds the saved account |
| ChooseAccount.PickFor | commands/chooseAccount.js:60-64 | a pick shows `displayName \|\| account`, marked active iff its id is the selection, with the url and id |
| ChooseAccount.Picks | commands/chooseAccount.js:60-65 | one pick per account in order, then the add pick |
| ChooseAccount.StartsAddFlow | commands/chooseAccount.js:69 | a caption starting with the plus sign starts the add flow; `ChooseAccount.AddPickOpensEmptyForm` states that the add pick does |
| ChooseAccount.ChooseSpec | commands/chooseAccount.js:57-114 | the reference model of `chooseAccount`: the effect, the accounts, the selection and the histories after the picker; the picker lemmas below state its properties |
| ChooseAccount.Remaining | commands/chooseAccount.js:105 | `filter` by id: the result holds exactly the accounts with another id, is unchanged when none has the id, and keeps or drops a single account by its id |
| ChooseAccount.RemainingConcat | commands/chooseAccount.js:105 | filtering a concatenation is concatenating the filtered parts, so the accounts kept are in their order and with their repetitions |
| ChooseAccount.ChooseAccount | commands/chooseAccount.js:57-114 | agrees with `ChooseSpec` in effect, accounts, selection and history |
| ChooseAccount.AddPickOpensEmptyForm | commands/chooseAccount.js:70-73 | the add pick opens the empty form and changes nothing |
| ChooseAccount.UseSelectsPickedAccount | commands/chooseAccount.js:83-84 | using an account selects its id and changes neither the account list nor the histories; the lookup by id then finds it |
| ChooseAccount.DeleteRemovesAccountAndHistory | commands/chooseAccount.js:104-108 | a confirmed deletion stores the filtered list (exactly the accounts with another id, in order) and drops that id's history; the selection and other histories are kept |
| ChooseAccount.DeletingSelectedAccountKeepsSelection | commands/chooseAccount.js:104-111 | deleting the selected account keeps the selection, so while other accounts remain the next request fails with "No account selected." before any call |
| ChooseAccount.DeletingLastAccountReloadsFile | commands/chooseAccount.js:104-106 | deleting the last account stores an empty list; when `auth.json` holds the deleted account the next load brings it back, so the next request finds it again: without credentials it fails for that reason, with them it makes calls |
| Extension.EscapeLt | extension.js:144 | the escaped query has no `<` and grows by three characters per `<`; a single `<` becomes `&lt;` and any other single character is kept |
| Extension.EscapeLtConcat | extension.js:144 | escaping a concatenation is concatenating the escaped parts, so every character other than `<` is kept in place |
| Extension.EscapeLtRoundTrip | extension.js:144 | a query without `&` reads back exactly as typed |
| Extension.CellOf | extension.js:158 | a cell is blank iff the row has no such member or it is null |
| Extension.TableOf | extension.js:150-161 | a non-array or empty result has no table. A null first row throws, and so does a null row when there are headers. Otherwise the headers are the first row's keys, with one cell per header in every row |
| Extension.RenderEntry | extension.js:143-179 | the query is shown without `<`. A truthy error shows the error. An error with an empty message throws, and so does a `null` result. A result shows `data` and the table of `data \|\| result` |
| Extension.RenderHistory | extension.js:143-180 | the page renders iff every entry renders, one view per entry in order |
| Extension.SpliceStart | extension.js:84 | `splice` starts at the index, counted from the end when negative, clamped to the list |
| Extension.SpliceOne | extension.js:84 | removes the entry at the start position, a multiset difference of that one entry; nothing at the end of the list |
| Extension.DeletingBrokenEntryRestoresRendering | extension.js:80-87 | deleting the only entry that cannot render lets the page render again |
| Extension.ViewProvider.constructor | extension.js:15-19 | no view attached |
| Extension.ViewProvider.PostMessageAll | extension.js:89-107 | each present view receives the message; a view that throws is dropped and the other is still tried |
| Extension.ViewProvider.Render | extension.js:109-132 | renders the selected account's history once. When that throws, no view is touched. Otherwise each present view gets the page, and a view that throws is dropped |
| Extension.ViewProvider.ResolveWebviewView | extension.js:21-24 | the side panel is attached before the render, so it stays attached when the render throws, and then nothing else changes; otherwise the render's effect on both views, with the side panel present |
| Extension.ViewProvider.SetTabPanel | extension.js:40-43 | the tab is attached before the render, so it stays attached when the render throws, and then nothing else changes; otherwise the render's effect on both views, with the tab present |
| Extension.ViewProvider.HandleQuery | extension.js:59-78 | "loading" goes to the present views, the entry is appended to the selected account's history and the page rendered; "showResults" follows only if the render did not throw. Each touch may drop a view on its own, and a throwing render leaves the pages as they were |
| Extension.ViewProvider.HandleDelete | extension.js:80-87 | one entry is spliced out of the selected account's history and the page re-rendered; a throwing render leaves the views and pages as they were, and no message is posted |
| Extension.AppendKeepsOtherHistories | extension.js:72-74 | appending to one account's history leaves every other account's history unchanged |
| Extension.BrokenEntryBreaksLaterRenders | extension.js:147-150 | once an entry cannot render, no later render of that page succeeds, whatever is appended |

## Left out

**Outside the model**
- Network, browser and files. `fetch`, `open`, the express listener, `fs` and the VS Code message and dialog calls are oracles or are not modelled. Only their results enter the model.
- Webview posts during the flow. The `stopLoading` posts made during the flow are not modelled.
- HTML. The HTML templates and the nonce are not modelled. The escaped query and the derived table stand for the page.
- Encoding. Base64 Basic credentials and URL encoding of the query string are not modelled.
- Raw randomness. `crypto.randomBytes` is given as bytes.
- Time. One `now` serves a whole request; the clock's advance between steps is not modelled.
- JSON values.
  - Numbers are integers: floating point is left out.
  - Token replies are `null` or an object with string tokens and an integer `expires_in`. Bodies whose fields have other types, or that are other JSON values, are left out. In particular a `null` `expires_in`, which JavaScript turns into an expiry of `now + 0` that is reached at once, is not modelled.
  - Duplicate member names are not folded as `JSON.parse` would fold them: `Json.Lookup` takes the first value where `JSON.parse` keeps the last, and `Json.Keys` lists a repeated name once per occurrence.
  - `auth.json` parsing to `null` or to a non-object is left out.
- Table rows. `Object.keys` of a first row that is an array or a string, and cells of array or string rows, are treated as having no members.
- Redirect requests. A request reaching a server that was orphaned by a later start is not modelled, nor are a port already in use and repeated query parameters.
- Stored objects. Values returned by the VS Code stores are modelled as copies, so aliasing between a stored list and a loaded one is not modelled.
- Other files.
  - `utils/suiteqlRequest.js` is not part of this model: the history views take its result or its error message as given.
  - `commands/openEditor.js`, `commands/runQuery.js`, the restlet example and `extension.original.backup.js` are not part of this model.
  - The account-form webview, the accounts-config panel and the focus command after "Use" are not modelled.
- `Extension.ViewProvider.HandleDelete`: the index is taken as an integer, as the delete button sends it; other message values are not modelled.
- `OAuth2.FlowSpec`: which handler the redirect server calls first is a parameter. `OAuth2.RedirectAsWired`, `OAuth2.RedirectAsIntended` and `OAuth2.MismatchedStateTimesOut` connect it to `RedirectServer.Server`.

## Findings

| source | as written | input that shows it | evidently intended | confidence | as-written member | corrected member |
|---|---|---|---|---|---|---|
| utils/authManager.js:26 | the current account is looked up by its `account` field, while the selection is stored as an `id` (commands/chooseAccount.js:46, 84) | accounts "a" (account "111") and "b" (account "222"), selection "b": returns "a" | look the selection up by `id` | high, not executed | AuthManager.GetCurrentAccountIgnoresSelectedId | AuthManager.GetCurrentAccountById |
| auth/oauth2.js:284 | `startRedirectServer(state, context, onCode, onTimeout)` shifts the handlers: the context becomes `onCodeReceived` and the code handler becomes `onTimeout` (auth/oauthRedirectServer.js:7) | any valid redirect (matching state, code "c"): the call on the context throws, the timer stays armed, and 10 s later the code handler runs with no code | `startRedirectServer(state, onCode, onTimeout)` | high, not executed | OAuth2.RedirectAsWired | OAuth2.RedirectAsIntended |
