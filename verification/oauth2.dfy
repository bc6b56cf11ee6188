/** The OAuth 2.0 credential and retry engine behind a SuiteQL query.

    The network, the browser, the random source and the clock are oracles:
    every HTTP exchange takes its reply from a script, `now` is a parameter
    and the state token is computed from given random bytes. Each operation
    is specified by a pure function over the stored account list (the `...Spec`
    functions below, which also return the outbound calls in order) and
    modelled imperatively by a method on the extension `Context` that is
    proved to agree with it. */
module OAuth2 {
  import opened Json
  import opened Accounts
  import opened Memento
  import opened AuthManager
  import RedirectServer

  // ---------------------------------------------------------------------------
  // Oracle replies

  /** A SuiteQL `fetch`: a transport error, or a status, the body text and
      `JSON.parse(text)` (None when it throws). */
  datatype Reply = NetworkError | Reply(status: int, text: string, json: Option<Value>)

  /** The token endpoint's JSON body: `null`, or an object with the three
      fields the code reads (None when absent). */
  datatype TokenJson =
    | TokenNull
    | TokenObject(accessToken: Option<string>, refreshToken: Option<string>, expiresIn: Option<int>)

  /** A token endpoint `fetch`; `json` is None when the body does not parse. */
  datatype TokenReply = TokenNetworkError | TokenReply(status: int, text: string, json: Option<TokenJson>)

  /** `res.ok` */
  predicate IsOk(status: int) {
    200 <= status <= 299
  }

  // ---------------------------------------------------------------------------
  // Outbound calls, in the order they are issued

  datatype AuthorizeUrl = AuthorizeUrl(host: string, path: string, params: seq<(string, string)>)

  datatype Call =
    | SuiteQL(bearer: Option<string>)                          // POST account.url, `Bearer ${token}`
    | RefreshGrant(refreshToken: Option<string>)               // token endpoint, grant_type=refresh_token
    | OpenBrowser(url: AuthorizeUrl)                           // open(authorizeUrl)
    | CodeGrant(code: Option<string>, redirectUri: Option<string>) // token endpoint, grant_type=authorization_code

  datatype Kind = SuiteQLKind | RefreshKind | BrowserKind | CodeKind

  function KindOf(c: Call): Kind {
    match c
    case SuiteQL(_) => SuiteQLKind
    case RefreshGrant(_) => RefreshKind
    case OpenBrowser(_) => BrowserKind
    case CodeGrant(_, _) => CodeKind
  }

  /** How many calls of one kind a trace holds. */
  function Count(calls: seq<Call>, k: Kind): nat {
    if calls == [] then 0
    else (if KindOf(calls[0]) == k then 1 else 0) + Count(calls[1..], k)
  }

  lemma {:induction false} CountConcat(a: seq<Call>, b: seq<Call>, k: Kind)
    ensures Count(a + b, k) == Count(a, k) + Count(b, k)
  {
    if a == [] {
      assert a + b == b;
    } else {
      assert (a + b)[0] == a[0];
      assert (a + b)[1..] == a[1..] + b;
      CountConcat(a[1..], b, k);
    }
  }

  /** Appending one call adds one to its own kind's count only. */
  lemma CountSnoc(a: seq<Call>, c: Call, k: Kind)
    ensures Count(a + [c], k) == Count(a, k) + (if KindOf(c) == k then 1 else 0)
  {
    CountConcat(a, [c], k);
    assert [c][1..] == [];
  }

  // ---------------------------------------------------------------------------
  // Errors and results

  /** Which of the three SuiteQL parses failed; each has its own message. */
  datatype Stage = First | Retry | Final

  /** The message of a failed SuiteQL reply: `error.message` from the body, or the raw text. */
  datatype Message = RawText(text: string) | ErrorMessage(message: Value)

  /** Every way a request ends in a thrown error. */
  datatype Error =
    | NoAccountSelected               // "No account selected."
    | MissingCredentials              // "Account missing OAuth 2.0 credentials."
    | FetchFailed                     // a transport error thrown by fetch, not caught
    | NotValidJson(stage: Stage)      // "SuiteQL [retry |final ]response was not valid JSON."
    | PropertyOfNull                  // TypeError: a JSON `null` body was read as an object
    | RequestFailed(message: Message) // "SuiteQL request failed: <message>"
    | ReauthFailed                    // "OAuth re-authentication failed."
    | FailedAfterReauth(text: string) // "SuiteQL request failed after re-auth: <text>"
    | RefreshRequestFailed            // "Refresh token request failed."
    | RefreshBodyNotJson              // `res.json()` rejected on the inline refresh
    | BrowserOpenFailed               // `open(authorizeUrl)` rejected
    | FlowTimedOut                    // "OAuth flow timed out. Please try again."
    | TokenExchangeFailed             // "Token exchange failed."
    | TokenExchangeError              // the code exchange threw (transport, body, null)

  /** `{ raw, data }` */
  datatype QueryResult = QueryResult(raw: Value, data: Value)

  /** A request resolves, rejects, or stays pending forever (an authorization
      flow whose promise nothing settles). */
  datatype Outcome = Done(result: QueryResult) | Failed(error: Error) | Pending

  /** What a request did: how it ended, the calls it issued, the stored account list after it. */
  datatype Run = Run(outcome: Outcome, calls: seq<Call>, stored: seq<Account>)

  function Prepend(calls: seq<Call>, r: Run): Run {
    Run(r.outcome, calls + r.calls, r.stored)
  }

  // ---------------------------------------------------------------------------
  // Expiry and the choice of route

  /** `account.expiresAt && Date.now() >= account.expiresAt`: a zero or NaN
      stamp is falsy, so it never counts as expired. */
  predicate IsExpired(a: Account, now: int) {
    match a.expiresAt
    case At(ms) => ms != 0 && now >= ms
    case _ => false
  }

  /** `Date.now() + (tokenData.expires_in * 1000)` */
  function ExpiryAfter(now: int, expiresIn: Option<int>): (s: Stamp)
    ensures expiresIn.Some? ==> s == At(now + 1000 * expiresIn.value)
    ensures expiresIn.None? ==> s == NaN
  {
    match expiresIn
    case Some(seconds) => At(now + seconds * 1000)
    case None => NaN
  }

  /** A stamp set from a token reply expires once the clock reaches it; a
      reply without `expires_in` leaves NaN, which never expires, and a
      stamp that works out to 0 never expires either. */
  lemma ExpiryAfterExpires(a: Account, issued: int, expiresIn: Option<int>, now: int)
    ensures IsExpired(a.(expiresAt := ExpiryAfter(issued, expiresIn)), now) <==>
      expiresIn.Some? && issued + 1000 * expiresIn.value != 0 && now >= issued + 1000 * expiresIn.value
  {
  }

  datatype Route = UseStoredToken | InlineRefresh | Interactive

  /** The three routes of `sendRequestWithOauth2`. */
  function ChooseRoute(a: Account, now: int): (r: Route)
    ensures r == UseStoredToken <==> Present(a.accessToken) && !IsExpired(a, now)
    ensures r == InlineRefresh <==> Present(a.refreshToken) && IsExpired(a, now)
    ensures r == Interactive <==>
      !(Present(a.accessToken) && !IsExpired(a, now)) && !(Present(a.refreshToken) && IsExpired(a, now))
    // a token without an expiry is always used as it is
    ensures Present(a.accessToken) && a.expiresAt.Unset? ==> r == UseStoredToken
    // with neither a token nor an expiry the interactive flow runs, refresh token or not
    ensures !Present(a.accessToken) && a.expiresAt.Unset? ==> r == Interactive
  {
    var expired := IsExpired(a, now);
    if Present(a.accessToken) && !expired then UseStoredToken
    else if Present(a.refreshToken) && expired then InlineRefresh
    else Interactive
  }

  predicate HasOAuth2Credentials(a: Account) {
    Present(a.redirectUri) && Present(a.consumerKey) && Present(a.consumerSecret)
  }

  // ---------------------------------------------------------------------------
  // Reading SuiteQL replies

  /** `json?.error?.<k>` */
  function ErrorMember(json: Option<Value>, k: string): Option<Value> {
    Member(Member(json, "error"), k)
  }

  predicate IsTokenErrorCode(code: Option<Value>) {
    code == Some(Str("INVALID_LOGIN_ATTEMPT")) || code == Some(Str("INVALID_SESSION"))
  }

  /** A failed SuiteQL reply: whether it signals a bad token, and its message. */
  datatype Failure = Failure(tokenError: bool, message: Message)

  /** The classification of a non-2xx SuiteQL reply. The error code is only
      consulted when the body also carries a truthy `error.message`. */
  function ClassifyFailure(status: int, text: string, json: Option<Value>): (f: Failure)
    ensures f.tokenError <==>
      status == 401 || (Truthy(ErrorMember(json, "message")) && IsTokenErrorCode(ErrorMember(json, "code")))
    ensures Truthy(ErrorMember(json, "message")) ==> f.message == ErrorMessage(ErrorMember(json, "message").value)
    // without error.message the raw text is the message and only a 401 is a token error
    ensures !Truthy(ErrorMember(json, "message")) ==> f.message == RawText(text) && (f.tokenError <==> status == 401)
  {
    var message := ErrorMember(json, "message");
    var byCode := Truthy(message) && IsTokenErrorCode(ErrorMember(json, "code"));
    Failure(byCode || status == 401, if Truthy(message) then ErrorMessage(message.value) else RawText(text))
  }

  /** `raw.items || raw.data || []` */
  function Normalize(raw: Value): (data: Value)
    requires raw != Null
    ensures Truthy(Some(data))
    ensures Truthy(Member(Some(raw), "items")) ==> Some(data) == Member(Some(raw), "items")
    ensures !Truthy(Member(Some(raw), "items")) && Truthy(Member(Some(raw), "data")) ==>
      Some(data) == Member(Some(raw), "data")
    ensures !Truthy(Member(Some(raw), "items")) && !Truthy(Member(Some(raw), "data")) ==> data == Arr([])
  {
    Or(Member(Some(raw), "items"), Or(Member(Some(raw), "data"), Arr([])))
  }

  /** A result is `{ raw, data: raw.items || raw.data || [] }` for a non-null `raw`. */
  predicate Normalized(o: Outcome) {
    o.Done? ==> o.result.raw != Null && o.result.data == Normalize(o.result.raw)
  }

  /** A 2xx SuiteQL reply: parse, then normalise. */
  function Parsed(json: Option<Value>, stage: Stage): (o: Outcome)
    ensures Normalized(o)
    ensures o.Done? <==> json.Some? && json.value != Null
    ensures json.None? ==> o == Failed(NotValidJson(stage))
    ensures json == Some(Null) ==> o == Failed(PropertyOfNull)
    ensures o.Done? ==> o.result.raw == json.value
  {
    match json
    case None => Failed(NotValidJson(stage))
    case Some(Null) => Failed(PropertyOfNull)
    case Some(raw) => Done(QueryResult(raw, Normalize(raw)))
  }

  // ---------------------------------------------------------------------------
  // refreshAccessToken

  /** What `refreshAccessToken` returns: a token, `null`, or a thrown TypeError
      (reading `access_token` of a `null` body), which its caller catches. */
  datatype RefreshOutcome = Refreshed(token: string) | NullToken | Threw

  datatype RefreshRun = RefreshRun(outcome: RefreshOutcome, stored: seq<Account>)

  /** The refresh-token grant of `refreshAccessToken`: every failure returns
      without touching the store; on success the list is reloaded and only
      `accessToken` of the entry with the account's id is rewritten. */
  function RefreshSpec(stored: seq<Account>, file: AuthFile, account: Account, reply: TokenReply): RefreshRun {
    match reply
    case TokenNetworkError => RefreshRun(NullToken, stored)
    case TokenReply(status, _, json) =>
      if !IsOk(status) then RefreshRun(NullToken, stored)
      else match json
        case None => RefreshRun(NullToken, stored)
        case Some(TokenNull) => RefreshRun(Threw, stored)
        case Some(TokenObject(token, _, _)) =>
          if !Present(token) then RefreshRun(NullToken, stored)
          else
            var accounts := Loaded(stored, file);
            var i := IndexWhere(accounts, Id, account.id);
            RefreshRun(Refreshed(token.value),
                       if i == -1 then accounts else accounts[i := accounts[i].(accessToken := token)])
  }

  method RefreshAccessToken(ctx: Context, account: Account, reply: TokenReply) returns (r: RefreshOutcome)
    modifies ctx`accounts
    ensures RefreshRun(r, ctx.accounts) == RefreshSpec(old(ctx.accounts), ctx.file, account, reply)
  {
    if reply.TokenNetworkError? {
      return NullToken;
    }
    if !IsOk(reply.status) {
      return NullToken;
    }
    if reply.json.None? {
      return NullToken;
    }
    var json := reply.json.value;
    if json.TokenNull? {
      return Threw;
    }
    if !Present(json.accessToken) {
      return NullToken;
    }
    var accounts := LoadAccounts(ctx);
    var idx := IndexWhere(accounts, Id, account.id);
    if idx != -1 {
      accounts := accounts[idx := accounts[idx].(accessToken := json.accessToken)];
      SaveAccounts(ctx, accounts);
    }
    r := Refreshed(json.accessToken.value);
  }

  /** The refresh gives a token exactly when the reply is 2xx and its body
      parses to an object with a truthy `access_token`, and that token is the
      one returned; a `null` body throws, every other failure returns `null`. */
  lemma RefreshReturnsReplyToken(stored: seq<Account>, file: AuthFile, account: Account, reply: TokenReply)
    ensures var r := RefreshSpec(stored, file, account, reply);
      (r.outcome.Refreshed? <==>
        reply.TokenReply? && IsOk(reply.status) && reply.json.Some? && reply.json.value.TokenObject? &&
        Present(reply.json.value.accessToken)) &&
      (r.outcome.Refreshed? ==> r.outcome.token == reply.json.value.accessToken.value) &&
      (r.outcome == Threw <==> reply.TokenReply? && IsOk(reply.status) && reply.json == Some(TokenNull))
  {
  }

  /** A refresh that yields no token leaves the stored list as it was. */
  lemma RefreshFailureKeepsStore(stored: seq<Account>, file: AuthFile, account: Account, reply: TokenReply)
    requires !RefreshSpec(stored, file, account, reply).outcome.Refreshed?
    ensures RefreshSpec(stored, file, account, reply).stored == stored
    ensures reply.TokenReply? && IsOk(reply.status) && reply.json.Some? && reply.json.value.TokenObject? ==>
      !Present(reply.json.value.accessToken)
  {
  }

  /** A successful refresh writes the returned token into the store in one
      place only: the first entry with the account's id gets the new access
      token, its refresh token and expiry stay as they were, and every other
      entry is kept; with no entry of that id the loaded list is stored as it is. */
  lemma RefreshOnlySetsAccessToken(stored: seq<Account>, file: AuthFile, account: Account, reply: TokenReply)
    requires RefreshSpec(stored, file, account, reply).outcome.Refreshed?
    ensures var r := RefreshSpec(stored, file, account, reply);
      var before := Loaded(stored, file);
      var i := IndexWhere(before, Id, account.id);
      (i != -1 ==> r.stored == before[i := before[i].(accessToken := Some(r.outcome.token))]) &&
      (i == -1 ==> r.stored == before)
    ensures var r := RefreshSpec(stored, file, account, reply);
      var before := Loaded(stored, file);
      |r.stored| == |before| &&
      forall j :: 0 <= j < |before| ==>
        r.stored[j] == before[j] ||
        (before[j].id == account.id && r.stored[j] == before[j].(accessToken := Some(r.outcome.token)))
  {
  }

  /** Because only the access token is rewritten, an entry that was expired
      with a refresh token is still expired afterwards: the next request on
      it takes the inline refresh route again. */
  lemma RefreshedEntryStaysExpired(stored: seq<Account>, file: AuthFile, account: Account, reply: TokenReply, now: int)
    requires RefreshSpec(stored, file, account, reply).outcome.Refreshed?
    requires var i := IndexWhere(Loaded(stored, file), Id, account.id);
      i != -1 && Present(Loaded(stored, file)[i].refreshToken) && IsExpired(Loaded(stored, file)[i], now)
    ensures var i := IndexWhere(Loaded(stored, file), Id, account.id);
      ChooseRoute(RefreshSpec(stored, file, account, reply).stored[i], now) == InlineRefresh
  {
    var i := IndexWhere(Loaded(stored, file), Id, account.id);
    var e := RefreshSpec(stored, file, account, reply).stored[i];
    assert e == Loaded(stored, file)[i].(accessToken := e.accessToken);
    assert IsExpired(e, now);
  }

  // ---------------------------------------------------------------------------
  // startOAuthFlow

  /** One byte from the random source. */
  newtype Byte = x: int | 0 <= x < 256

  predicate IsHexDigit(c: char) {
    '0' <= c <= '9' || 'a' <= c <= 'f'
  }

  function DigitValue(c: char): (n: int)
    requires IsHexDigit(c)
    ensures 0 <= n < 16
  {
    if c <= '9' then c as int - '0' as int else c as int - 'a' as int + 10
  }

  /** The lower-case hex digit for a nibble; reading it back gives the nibble. */
  function HexDigit(n: int): (c: char)
    requires 0 <= n < 16
    ensures IsHexDigit(c) && DigitValue(c) == n
  {
    if n < 10 then ('0' as int + n) as char else ('a' as int + n - 10) as char
  }

  /** `Buffer.toString('hex')`: two lower-case digits per byte, high nibble first. */
  function Hex(bytes: seq<Byte>): (s: string)
    ensures |s| == 2 * |bytes|
    ensures forall i :: 0 <= i < |s| ==> IsHexDigit(s[i])
  {
    if bytes == [] then ""
    else [HexDigit(bytes[0] as int / 16), HexDigit(bytes[0] as int % 16)] + Hex(bytes[1..])
  }

  /** Reading hex digits back into bytes. */
  function Unhex(s: string): seq<Byte>
    requires |s| % 2 == 0
    requires forall i :: 0 <= i < |s| ==> IsHexDigit(s[i])
  {
    if s == [] then []
    else [(DigitValue(s[0]) * 16 + DigitValue(s[1])) as Byte] + Unhex(s[2..])
  }

  /** Hex encoding loses nothing: distinct random bytes give distinct state tokens. */
  lemma {:induction false} HexRoundTrip(bytes: seq<Byte>)
    ensures Unhex(Hex(bytes)) == bytes
  {
    if bytes != [] {
      var b := bytes[0] as int;
      var s := Hex(bytes);
      assert s == [HexDigit(b / 16), HexDigit(b % 16)] + Hex(bytes[1..]);
      assert s[0] == HexDigit(b / 16) && s[1] == HexDigit(b % 16) && s[2..] == Hex(bytes[1..]);
      assert DigitValue(HexDigit(b / 16)) == b / 16;
      assert DigitValue(HexDigit(b % 16)) == b % 16;
      assert (b / 16) * 16 + b % 16 == b;
      HexRoundTrip(bytes[1..]);
      assert Unhex(s) == [b as Byte] + Unhex(s[2..]);
    }
  }

  const Scope := "rest_webservices restlets"

  /** The authorize URL: exactly five query parameters, in this order. */
  function AuthorizeUrlFor(a: Account, state: string): (u: AuthorizeUrl)
    ensures u.host == Shown(a.account) + ".app.netsuite.com"
    ensures u.path == "/app/login/oauth2/authorize.nl"
    ensures |u.params| == 5
    ensures u.params[0] == ("redirect_uri", Shown(a.redirectUri))
    ensures u.params[1] == ("client_id", Shown(a.consumerKey))
    ensures u.params[2] == ("response_type", "code")
    ensures u.params[3] == ("scope", Scope)
    ensures u.params[4] == ("state", state)
  {
    AuthorizeUrl(
      Shown(a.account) + ".app.netsuite.com",
      "/app/login/oauth2/authorize.nl",
      [("redirect_uri", Shown(a.redirectUri)), ("client_id", Shown(a.consumerKey)),
       ("response_type", "code"), ("scope", Scope), ("state", state)])
  }

  /** Which handler of the flow's promise the redirect server called first:
      the code handler (with its argument), the timeout handler, or neither. */
  datatype Redirect = CodeHandlerRan(code: Option<string>) | TimeoutHandlerRan | NoHandlerRan

  /** The redirect outcome a server's invocation log gives the flow. */
  function RedirectOf(invoked: seq<RedirectServer.Invocation>): Redirect {
    if invoked == [] then NoHandlerRan
    else match invoked[0].callee
      case CodeHandler => CodeHandlerRan(invoked[0].argument)
      case TimeoutHandler => TimeoutHandlerRan
      case NotAFunction => NoHandlerRan
  }

  /** The oracles of one authorization flow. */
  datatype FlowScript = FlowScript(randomBytes: seq<Byte>, browserOpens: bool, redirect: Redirect, exchange: TokenReply)

  datatype FlowOutcome = Resolved(token: Option<string>) | Rejected(error: Error) | NeverSettles

  /** A flow's outcome, the account object after it, its calls and the stored list after it. */
  datatype FlowRun = FlowRun(outcome: FlowOutcome, account: Account, calls: seq<Call>, stored: seq<Account>)

  /** `startOAuthFlow`: open the authorize URL, wait for the redirect server
      to call a handler, exchange the code, and overwrite all three token
      fields of the account before saving it by id. */
  function FlowSpec(stored: seq<Account>, file: AuthFile, account: Account, s: FlowScript, now: int): FlowRun {
    var browser := [OpenBrowser(AuthorizeUrlFor(account, Hex(s.randomBytes)))];
    if !s.browserOpens then FlowRun(Rejected(BrowserOpenFailed), account, browser, stored)
    else match s.redirect
      case NoHandlerRan => FlowRun(NeverSettles, account, browser, stored)
      case TimeoutHandlerRan => FlowRun(Rejected(FlowTimedOut), account, browser, stored)
      case CodeHandlerRan(code) =>
        var calls := browser + [CodeGrant(code, account.redirectUri)];
        match s.exchange
        case TokenNetworkError => FlowRun(Rejected(TokenExchangeError), account, calls, stored)
        case TokenReply(status, _, json) =>
          if !IsOk(status) then FlowRun(Rejected(TokenExchangeFailed), account, calls, stored)
          else match json
            case None => FlowRun(Rejected(TokenExchangeError), account, calls, stored)
            case Some(TokenNull) => FlowRun(Rejected(TokenExchangeError), account, calls, stored)
            case Some(TokenObject(accessToken, refreshToken, expiresIn)) =>
              var updated := account.(accessToken := accessToken, refreshToken := refreshToken,
                                      expiresAt := ExpiryAfter(now, expiresIn));
              var accounts := Loaded(stored, file);
              var saved := SaveById(accounts, updated);
              FlowRun(Resolved(accessToken), updated, calls, if saved.Some? then saved.value else accounts)
  }

  method StartOAuthFlow(ctx: Context, account: Account, s: FlowScript, now: int)
    returns (outcome: FlowOutcome, updated: Account, calls: seq<Call>)
    modifies ctx`accounts
    ensures FlowRun(outcome, updated, calls, ctx.accounts) == FlowSpec(old(ctx.accounts), ctx.file, account, s, now)
  {
    var state := Hex(s.randomBytes);
    var url := AuthorizeUrlFor(account, state);
    calls := [OpenBrowser(url)];
    updated := account;
    if !s.browserOpens {
      return Rejected(BrowserOpenFailed), updated, calls;
    }
    match s.redirect {
      case NoHandlerRan =>
        return NeverSettles, updated, calls;
      case TimeoutHandlerRan =>
        return Rejected(FlowTimedOut), updated, calls;
      case CodeHandlerRan(code) =>
        calls := calls + [CodeGrant(code, account.redirectUri)];
        var res := s.exchange;
        if res.TokenNetworkError? {
          return Rejected(TokenExchangeError), updated, calls;
        }
        if !IsOk(res.status) {
          return Rejected(TokenExchangeFailed), updated, calls;
        }
        if res.json.None? || res.json.value.TokenNull? {
          return Rejected(TokenExchangeError), updated, calls;
        }
        var tokenData := res.json.value;
        updated := updated.(accessToken := tokenData.accessToken);
        updated := updated.(refreshToken := tokenData.refreshToken);
        updated := updated.(expiresAt := ExpiryAfter(now, tokenData.expiresIn));
        var accounts := LoadAccounts(ctx);
        var index := IndexWhere(accounts, Id, updated.id);
        if index != -1 {
          accounts := accounts[index := updated];
          SaveAccounts(ctx, accounts);
        }
        outcome := Resolved(updated.accessToken);
    }
  }

  /** The flow first opens the authorize URL carrying the state token, which
      is 32 hex digits when the random source gives 16 bytes. */
  lemma FlowOpensAuthorizeUrl(stored: seq<Account>, file: AuthFile, account: Account, s: FlowScript, now: int)
    requires |s.randomBytes| == 16
    ensures var r := FlowSpec(stored, file, account, s, now);
      |r.calls| > 0 && r.calls[0] == OpenBrowser(AuthorizeUrlFor(account, Hex(s.randomBytes))) &&
      r.calls[0].url.params[4].0 == "state" && |r.calls[0].url.params[4].1| == 32
  {
  }

  /** A resolved flow overwrites all three token fields, a missing refresh
      token included, and stores the account under its id. */
  lemma FlowOverwritesTokens(stored: seq<Account>, file: AuthFile, account: Account, s: FlowScript, now: int)
    requires FlowSpec(stored, file, account, s, now).outcome.Resolved?
    ensures var r := FlowSpec(stored, file, account, s, now);
      var body := s.exchange.json.value;
      s.exchange.TokenReply? && IsOk(s.exchange.status) && body.TokenObject? &&
      r.outcome.token == body.accessToken &&
      r.account == account.(accessToken := body.accessToken, refreshToken := body.refreshToken,
                            expiresAt := ExpiryAfter(now, body.expiresIn)) &&
      r.calls == [OpenBrowser(AuthorizeUrlFor(account, Hex(s.randomBytes))), CodeGrant(s.redirect.code, account.redirectUri)] &&
      (IndexWhere(Loaded(stored, file), Id, account.id) != -1 ==>
        FindWhere(r.stored, Id, account.id) == Some(r.account))
  {
    var r := FlowSpec(stored, file, account, s, now);
    var accounts := Loaded(stored, file);
    if IndexWhere(accounts, Id, account.id) != -1 {
      assert IndexWhere(accounts, Id, r.account.id) != -1;
      SaveByIdOnlyTouchesMatch(accounts, r.account);
    }
  }

  /** A timeout, a browser that does not open, or a failed exchange rejects
      the flow and saves nothing; when no handler runs, the flow never settles. */
  lemma FlowFailureSavesNothing(stored: seq<Account>, file: AuthFile, account: Account, s: FlowScript, now: int)
    requires !FlowSpec(stored, file, account, s, now).outcome.Resolved?
    ensures var r := FlowSpec(stored, file, account, s, now);
      r.stored == stored && r.account == account &&
      (s.browserOpens && s.redirect.TimeoutHandlerRan? ==> r.outcome == Rejected(FlowTimedOut) && Count(r.calls, CodeKind) == 0) &&
      (s.browserOpens && s.redirect.NoHandlerRan? ==> r.outcome == NeverSettles)
  {
  }

  // ---------------------------------------------------------------------------
  // makeSuiteQLCall: the retry ladder

  /** The replies the ladder may consume, one per stage. */
  datatype LadderScript = LadderScript(first: Reply, refresh: TokenReply, retry: Reply, reauth: FlowScript, final: Reply)

  /** Third rung: re-authorize interactively, then one final request. */
  function ReauthSpec(stored: seq<Account>, file: AuthFile, account: Account, s: LadderScript, now: int, calls: seq<Call>): (r: Run)
    ensures Normalized(r.outcome)
  {
    var flow := FlowSpec(stored, file, account, s.reauth, now);
    var c := calls + flow.calls;
    match flow.outcome
    case NeverSettles => Run(Pending, c, flow.stored)
    case Rejected(e) => Run(Failed(e), c, flow.stored)
    case Resolved(token) =>
      if !Present(token) then Run(Failed(ReauthFailed), c, flow.stored)
      else
        var c' := c + [SuiteQL(token)];
        match s.final
        case NetworkError => Run(Failed(FetchFailed), c', flow.stored)
        case Reply(status, text, json) =>
          if !IsOk(status) then Run(Failed(FailedAfterReauth(text)), c', flow.stored)
          else Run(Parsed(json, Final), c', flow.stored)
  }

  /** Second rung, after a token error: one refresh grant and, when it
      gives a token, one retry with it; otherwise the third rung. */
  function RefreshRetrySpec(stored: seq<Account>, file: AuthFile, account: Account, s: LadderScript, now: int, calls: seq<Call>): (r: Run)
    ensures Normalized(r.outcome)
  {
    var c2 := calls + [RefreshGrant(account.refreshToken)];
    var refresh := RefreshSpec(stored, file, account, s.refresh);
    if !refresh.outcome.Refreshed? then ReauthSpec(refresh.stored, file, account, s, now, c2)
    else
      var c3 := c2 + [SuiteQL(Some(refresh.outcome.token))];
      match s.retry
      case NetworkError => Run(Failed(FetchFailed), c3, refresh.stored)
      case Reply(status, _, json) =>
        if IsOk(status) then Run(Parsed(json, Retry), c3, refresh.stored)
        else ReauthSpec(refresh.stored, file, account, s, now, c3)
  }

  /** `makeSuiteQLCall(token)`: the first request; a reply that fails with a
      token error climbs to the second rung, any other reply is final. */
  function LadderSpec(stored: seq<Account>, file: AuthFile, account: Account, token: Option<string>, s: LadderScript, now: int): (r: Run)
    ensures Normalized(r.outcome)
  {
    var c1 := [SuiteQL(token)];
    match s.first
    case NetworkError => Run(Failed(FetchFailed), c1, stored)
    case Reply(status, text, json) =>
      if IsOk(status) then Run(Parsed(json, First), c1, stored)
      else if !ClassifyFailure(status, text, json).tokenError then
        Run(Failed(RequestFailed(ClassifyFailure(status, text, json).message)), c1, stored)
      else RefreshRetrySpec(stored, file, account, s, now, c1)
  }

  method MakeSuiteQLCall(ctx: Context, account: Account, accessToken: Option<string>, s: LadderScript, now: int)
    returns (outcome: Outcome, calls: seq<Call>)
    modifies ctx`accounts
    ensures Run(outcome, calls, ctx.accounts) == LadderSpec(old(ctx.accounts), ctx.file, account, accessToken, s, now)
  {
    // first attempt
    calls := [SuiteQL(accessToken)];
    var res := s.first;
    if res.NetworkError? {
      return Failed(FetchFailed), calls;
    }
    if IsOk(res.status) {
      return Parsed(res.json, First), calls;
    }
    var failure := ClassifyFailure(res.status, res.text, res.json);
    if !failure.tokenError {
      return Failed(RequestFailed(failure.message)), calls;
    }
    // refresh, then retry once with the refreshed token
    calls := calls + [RefreshGrant(account.refreshToken)];
    var refreshedToken := RefreshAccessToken(ctx, account, s.refresh);
    if refreshedToken.Refreshed? {
      calls := calls + [SuiteQL(Some(refreshedToken.token))];
      res := s.retry;
      if res.NetworkError? {
        return Failed(FetchFailed), calls;
      }
      if IsOk(res.status) {
        return Parsed(res.json, Retry), calls;
      }
    }
    // re-authorize interactively, then the final attempt
    var flow, _, flowCalls := StartOAuthFlow(ctx, account, s.reauth, now);
    calls := calls + flowCalls;
    if flow.NeverSettles? {
      return Pending, calls;
    }
    if flow.Rejected? {
      return Failed(flow.error), calls;
    }
    var newAccessToken := flow.token;
    if !Present(newAccessToken) {
      return Failed(ReauthFailed), calls;
    }
    calls := calls + [SuiteQL(newAccessToken)];
    res := s.final;
    if res.NetworkError? {
      return Failed(FetchFailed), calls;
    }
    if !IsOk(res.status) {
      return Failed(FailedAfterReauth(res.text)), calls;
    }
    outcome := Parsed(res.json, Final);
  }

  lemma FlowCallBounds(stored: seq<Account>, file: AuthFile, account: Account, s: FlowScript, now: int)
    ensures var r := FlowSpec(stored, file, account, s, now);
      Count(r.calls, SuiteQLKind) == 0 && Count(r.calls, RefreshKind) == 0 &&
      Count(r.calls, BrowserKind) == 1 && Count(r.calls, CodeKind) <= 1 &&
      r.calls[0].OpenBrowser?
  {
    var r := FlowSpec(stored, file, account, s, now);
    var open := OpenBrowser(AuthorizeUrlFor(account, Hex(s.randomBytes)));
    assert [open] == [] + [open];
    forall k: Kind ensures Count([open], k) == (if KindOf(open) == k then 1 else 0) {
      CountSnoc([], open, k);
    }
    if r.calls != [open] {
      var grant := CodeGrant(s.redirect.code, account.redirectUri);
      assert r.calls == [open] + [grant];
      forall k: Kind ensures Count(r.calls, k) == Count([open], k) + (if KindOf(grant) == k then 1 else 0) {
        CountSnoc([open], grant, k);
      }
    }
  }

  /** The third rung's calls: the calls before it, the flow's, and the final request when the flow gave a token. */
  lemma ReauthCalls(stored: seq<Account>, file: AuthFile, account: Account, s: LadderScript, now: int, calls: seq<Call>)
    ensures var r := ReauthSpec(stored, file, account, s, now, calls);
      var flow := FlowSpec(stored, file, account, s.reauth, now);
      r.calls == calls + flow.calls ||
      (flow.outcome.Resolved? && r.calls == calls + flow.calls + [SuiteQL(flow.outcome.token)])
  {
  }

  /** The third rung adds one flow and at most one request to the calls before it. */
  lemma ReauthCallBounds(stored: seq<Account>, file: AuthFile, account: Account, s: LadderScript, now: int, calls: seq<Call>)
    ensures var r := ReauthSpec(stored, file, account, s, now, calls);
      |r.calls| > |calls| && r.calls[..|calls|] == calls &&
      Count(r.calls, SuiteQLKind) <= Count(calls, SuiteQLKind) + 1 &&
      Count(r.calls, RefreshKind) == Count(calls, RefreshKind) &&
      Count(r.calls, BrowserKind) == Count(calls, BrowserKind) + 1 &&
      Count(r.calls, CodeKind) <= Count(calls, CodeKind) + 1
  {
    var rc := ReauthSpec(stored, file, account, s, now, calls).calls;
    var flow := FlowSpec(stored, file, account, s.reauth, now);
    ReauthCalls(stored, file, account, s, now, calls);
    FlowCallBounds(stored, file, account, s.reauth, now);
    var c := calls + flow.calls;
    assert c[..|calls|] == calls;
    forall k: Kind ensures Count(c, k) == Count(calls, k) + Count(flow.calls, k) {
      CountConcat(calls, flow.calls, k);
    }
    if rc != c {
      var final := SuiteQL(flow.outcome.token);
      assert rc == c + [final];
      assert (c + [final])[..|calls|] == calls;
      forall k: Kind ensures Count(c + [final], k) == Count(c, k) + (if KindOf(final) == k then 1 else 0) {
        CountSnoc(c, final, k);
      }
    }
  }

  /** The second rung adds one refresh grant, at most two requests and at most one flow. */
  lemma RefreshRetryCallBounds(stored: seq<Account>, file: AuthFile, account: Account, s: LadderScript, now: int, calls: seq<Call>)
    ensures var r := RefreshRetrySpec(stored, file, account, s, now, calls);
      |r.calls| > |calls| + 1 && r.calls[..|calls| + 1] == calls + [RefreshGrant(account.refreshToken)] &&
      Count(r.calls, SuiteQLKind) <= Count(calls, SuiteQLKind) + 2 &&
      Count(r.calls, RefreshKind) == Count(calls, RefreshKind) + 1 &&
      Count(r.calls, BrowserKind) <= Count(calls, BrowserKind) + 1 &&
      Count(r.calls, CodeKind) <= Count(calls, CodeKind) + 1
  {
    var grant := RefreshGrant(account.refreshToken);
    var c2 := calls + [grant];
    forall k: Kind ensures Count(c2, k) == Count(calls, k) + (if KindOf(grant) == k then 1 else 0) {
      CountSnoc(calls, grant, k);
    }
    var refresh := RefreshSpec(stored, file, account, s.refresh);
    if !refresh.outcome.Refreshed? {
      ReauthCallBounds(refresh.stored, file, account, s, now, c2);
    } else {
      var retry := SuiteQL(Some(refresh.outcome.token));
      var c3 := c2 + [retry];
      assert c3[..|calls| + 1] == c2;
      forall k: Kind ensures Count(c3, k) == Count(c2, k) + (if KindOf(retry) == k then 1 else 0) {
        CountSnoc(c2, retry, k);
      }
      if s.retry.Reply? && !IsOk(s.retry.status) {
        ReauthCallBounds(refresh.stored, file, account, s, now, c3);
        var r := ReauthSpec(refresh.stored, file, account, s, now, c3);
        assert r.calls[..|calls| + 1] == r.calls[..|c3|][..|calls| + 1];
      }
    }
  }

  /** One ladder makes at most three SuiteQL requests, one refresh grant and
      one interactive flow, and always starts with the request it was given
      the token for. */
  lemma LadderCallBounds(stored: seq<Account>, file: AuthFile, account: Account, token: Option<string>, s: LadderScript, now: int)
    ensures var r := LadderSpec(stored, file, account, token, s, now);
      |r.calls| > 0 && r.calls[0] == SuiteQL(token) &&
      Count(r.calls, SuiteQLKind) <= 3 && Count(r.calls, RefreshKind) <= 1 &&
      Count(r.calls, BrowserKind) <= 1 && Count(r.calls, CodeKind) <= 1
  {
    var c1 := [SuiteQL(token)];
    assert c1 == [] + c1;
    forall k: Kind ensures Count(c1, k) == (if KindOf(SuiteQL(token)) == k then 1 else 0) {
      CountSnoc([], SuiteQL(token), k);
    }
    if s.first.Reply? && !IsOk(s.first.status) && ClassifyFailure(s.first.status, s.first.text, s.first.json).tokenError {
      RefreshRetryCallBounds(stored, file, account, s, now, c1);
      var r := RefreshRetrySpec(stored, file, account, s, now, c1);
      assert r.calls[0] == r.calls[..2][0];
    }
  }

  /** The first reply decides alone when it succeeds, does not parse, or
      fails for a reason other than the token: no retry follows. */
  lemma LadderStopsWithoutTokenError(stored: seq<Account>, file: AuthFile, account: Account, token: Option<string>, s: LadderScript, now: int)
    requires s.first.Reply?
    requires IsOk(s.first.status) || !ClassifyFailure(s.first.status, s.first.text, s.first.json).tokenError
    ensures var r := LadderSpec(stored, file, account, token, s, now);
      r.calls == [SuiteQL(token)] && r.stored == stored &&
      (IsOk(s.first.status) ==> r.outcome == Parsed(s.first.json, First)) &&
      (IsOk(s.first.status) && s.first.json.None? ==> r.outcome == Failed(NotValidJson(First))) &&
      (!IsOk(s.first.status) ==>
        r.outcome == Failed(RequestFailed(ClassifyFailure(s.first.status, s.first.text, s.first.json).message)))
  {
  }

  /** After a token error the ladder refreshes; it retries only with a
      refreshed token, and a successful retry returns without re-authorizing. */
  lemma LadderRetriesOnlyWithRefreshedToken(stored: seq<Account>, file: AuthFile, account: Account, token: Option<string>, s: LadderScript, now: int)
    requires s.first.Reply? && !IsOk(s.first.status)
    requires ClassifyFailure(s.first.status, s.first.text, s.first.json).tokenError
    ensures var r := LadderSpec(stored, file, account, token, s, now);
      var refresh := RefreshSpec(stored, file, account, s.refresh);
      |r.calls| >= 3 && r.calls[..2] == [SuiteQL(token), RefreshGrant(account.refreshToken)] &&
      (refresh.outcome.Refreshed? ==> r.calls[2] == SuiteQL(Some(refresh.outcome.token))) &&
      (!refresh.outcome.Refreshed? ==> r.calls[2].OpenBrowser?) &&
      (refresh.outcome.Refreshed? && s.retry.Reply? && IsOk(s.retry.status) ==>
        r.outcome == Parsed(s.retry.json, Retry) && |r.calls| == 3)
  {
    var c1 := [SuiteQL(token)];
    var c2 := c1 + [RefreshGrant(account.refreshToken)];
    RefreshRetryCallBounds(stored, file, account, s, now, c1);
    var refresh := RefreshSpec(stored, file, account, s.refresh);
    var r := LadderSpec(stored, file, account, token, s, now);
    if refresh.outcome.Refreshed? {
      var c3 := c2 + [SuiteQL(Some(refresh.outcome.token))];
      if s.retry.Reply? && !IsOk(s.retry.status) {
        ReauthCallBounds(refresh.stored, file, account, s, now, c3);
        assert r.calls[2] == r.calls[..3][2];
      }
    } else {
      var flow := FlowSpec(refresh.stored, file, account, s.reauth, now);
      FlowCallBounds(refresh.stored, file, account, s.reauth, now);
      assert r.calls[..|c2| + |flow.calls|] == c2 + flow.calls;
      assert r.calls[2] == (c2 + flow.calls)[2] == flow.calls[0];
    }
  }

  /** A token error, a refresh that gives a token, and a retry that fails
      again: exactly one interactive flow, after which at most one request is
      made and nothing else. */
  lemma LadderReauthorizesOnce(stored: seq<Account>, file: AuthFile, account: Account, token: Option<string>, s: LadderScript, now: int)
    requires s.first.Reply? && s.first.status == 401
    requires RefreshSpec(stored, file, account, s.refresh).outcome.Refreshed?
    requires s.retry.Reply? && s.retry.status == 401
    ensures var r := LadderSpec(stored, file, account, token, s, now);
      var refresh := RefreshSpec(stored, file, account, s.refresh);
      var flow := FlowSpec(refresh.stored, file, account, s.reauth, now);
      var before := [SuiteQL(token), RefreshGrant(account.refreshToken), SuiteQL(Some(refresh.outcome.token))];
      (r.calls == before + flow.calls || r.calls == before + flow.calls + [SuiteQL(flow.outcome.token)]) &&
      Count(r.calls, BrowserKind) == 1 && Count(r.calls, SuiteQLKind) <= 3
  {
    var c1 := [SuiteQL(token)];
    assert LadderSpec(stored, file, account, token, s, now) == RefreshRetrySpec(stored, file, account, s, now, c1);
    var refresh := RefreshSpec(stored, file, account, s.refresh);
    var before := [SuiteQL(token), RefreshGrant(account.refreshToken), SuiteQL(Some(refresh.outcome.token))];
    assert c1 + [RefreshGrant(account.refreshToken)] + [SuiteQL(Some(refresh.outcome.token))] == before;
    assert RefreshRetrySpec(stored, file, account, s, now, c1) == ReauthSpec(refresh.stored, file, account, s, now, before);
    ReauthCallBounds(refresh.stored, file, account, s, now, before);
    LadderCallBounds(stored, file, account, token, s, now);
    assert Count(before, BrowserKind) == 0 by {
      assert before[1..][1..][1..] == [];
    }
  }

  /** Once the third rung's flow gives a token, a non-2xx final reply throws
      with its text, whatever calls came before. */
  lemma ReauthFinalFailureThrows(stored: seq<Account>, file: AuthFile, account: Account, s: LadderScript, now: int, calls: seq<Call>)
    requires var flow := FlowSpec(stored, file, account, s.reauth, now);
      flow.outcome.Resolved? && Present(flow.outcome.token)
    requires s.final.Reply? && !IsOk(s.final.status)
    ensures var r := ReauthSpec(stored, file, account, s, now, calls);
      r.outcome == Failed(FailedAfterReauth(s.final.text)) &&
      r.calls == calls + FlowSpec(stored, file, account, s.reauth, now).calls +
                 [SuiteQL(FlowSpec(stored, file, account, s.reauth, now).outcome.token)]
  {
  }

  /** After re-authorization the final reply is terminal: a failure throws
      with its text. This holds on both ways into the third rung, a refresh
      without a token or a refreshed retry that failed, and for a token
      error signalled by the status or by the error code. */
  lemma LadderFinalFailureThrows(stored: seq<Account>, file: AuthFile, account: Account, token: Option<string>, s: LadderScript, now: int)
    requires s.first.Reply? && !IsOk(s.first.status)
    requires ClassifyFailure(s.first.status, s.first.text, s.first.json).tokenError
    requires var refresh := RefreshSpec(stored, file, account, s.refresh);
      !refresh.outcome.Refreshed? || (s.retry.Reply? && !IsOk(s.retry.status))
    requires var flow := FlowSpec(RefreshSpec(stored, file, account, s.refresh).stored, file, account, s.reauth, now);
      flow.outcome.Resolved? && Present(flow.outcome.token)
    requires s.final.Reply? && !IsOk(s.final.status)
    ensures LadderSpec(stored, file, account, token, s, now).outcome == Failed(FailedAfterReauth(s.final.text))
  {
    var c1 := [SuiteQL(token)];
    var c2 := c1 + [RefreshGrant(account.refreshToken)];
    var refresh := RefreshSpec(stored, file, account, s.refresh);
    assert LadderSpec(stored, file, account, token, s, now) == RefreshRetrySpec(stored, file, account, s, now, c1);
    if refresh.outcome.Refreshed? {
      var c3 := c2 + [SuiteQL(Some(refresh.outcome.token))];
      ReauthFinalFailureThrows(refresh.stored, file, account, s, now, c3);
    } else {
      ReauthFinalFailureThrows(refresh.stored, file, account, s, now, c2);
    }
  }

  // ---------------------------------------------------------------------------
  // sendRequestWithOauth2

  /** All the oracles of one request: the inline refresh reply, the flow run
      when there is no usable token, and the ladder's replies. */
  datatype Script = Script(inline: TokenReply, login: FlowScript, ladder: LadderScript)

  /** The account after a successful inline refresh: new access token, the
      refresh token replaced only when the reply carries one, new expiry. */
  function InlineRefreshed(a: Account, body: TokenJson, now: int): (r: Account)
    requires body.TokenObject?
    ensures r.accessToken == body.accessToken
    ensures r.refreshToken == if Present(body.refreshToken) then body.refreshToken else a.refreshToken
    ensures r.expiresAt == ExpiryAfter(now, body.expiresIn)
    ensures r == a.(accessToken := r.accessToken, refreshToken := r.refreshToken, expiresAt := r.expiresAt)
  {
    var r := a.(accessToken := body.accessToken);
    var r := if Present(body.refreshToken) then r.(refreshToken := body.refreshToken) else r;
    r.(expiresAt := ExpiryAfter(now, body.expiresIn))
  }

  /** The inline refresh of an expired token: its failures throw, with no
      fallback to the other routes; its success is saved by id before the
      ladder runs with the new token. */
  function InlineRefreshSpec(accounts: seq<Account>, file: AuthFile, account: Account, s: Script, now: int): (r: Run)
    ensures Normalized(r.outcome)
    ensures |r.calls| > 0 && r.calls[0] == RefreshGrant(account.refreshToken)
  {
    var c := [RefreshGrant(account.refreshToken)];
    match s.inline
    case TokenNetworkError => Run(Failed(FetchFailed), c, accounts)
    case TokenReply(status, _, json) =>
      if !IsOk(status) then Run(Failed(RefreshRequestFailed), c, accounts)
      else if json.None? then Run(Failed(RefreshBodyNotJson), c, accounts)
      else if json.value.TokenNull? then Run(Failed(PropertyOfNull), c, accounts)
      else
        var updated := InlineRefreshed(account, json.value, now);
        var saved := SaveById(accounts, updated);
        var after := if saved.Some? then saved.value else accounts;
        Prepend(c, LadderSpec(after, file, updated, updated.accessToken, s.ladder, now))
  }

  /** No usable token: the interactive flow, then the ladder with the token it gave. */
  function InteractiveSpec(accounts: seq<Account>, file: AuthFile, account: Account, s: Script, now: int): (r: Run)
    ensures Normalized(r.outcome)
    ensures |r.calls| > 0 && r.calls[0].OpenBrowser?
  {
    var flow := FlowSpec(accounts, file, account, s.login, now);
    match flow.outcome
    case NeverSettles => Run(Pending, flow.calls, flow.stored)
    case Rejected(e) => Run(Failed(e), flow.calls, flow.stored)
    case Resolved(token) => Prepend(flow.calls, LadderSpec(flow.stored, file, flow.account, token, s.ladder, now))
  }

  /** `sendRequestWithOauth2`: the guards, then one of the three routes. */
  function SendSpec(stored: seq<Account>, file: AuthFile, current: Option<string>, now: int, s: Script): (r: Run)
    ensures Normalized(r.outcome)
  {
    var accounts := Loaded(stored, file);
    var i := IndexWhere(accounts, Id, current);
    if i == -1 then Run(Failed(NoAccountSelected), [], accounts)
    else if !HasOAuth2Credentials(accounts[i]) then Run(Failed(MissingCredentials), [], accounts)
    else match ChooseRoute(accounts[i], now)
      case UseStoredToken => LadderSpec(accounts, file, accounts[i], accounts[i].accessToken, s.ladder, now)
      case InlineRefresh => InlineRefreshSpec(accounts, file, accounts[i], s, now)
      case Interactive => InteractiveSpec(accounts, file, accounts[i], s, now)
  }

  method SendRequestWithOAuth2(ctx: Context, now: int, s: Script) returns (outcome: Outcome, calls: seq<Call>)
    modifies ctx`accounts
    ensures Run(outcome, calls, ctx.accounts) == SendSpec(old(ctx.accounts), ctx.file, ctx.current, now, s)
  {
    var currentId := ctx.current;
    var accounts := LoadAccounts(ctx);
    var idx := IndexWhere(accounts, Id, currentId);
    if idx == -1 {
      return Failed(NoAccountSelected), [];
    }
    var account := accounts[idx];
    if !HasOAuth2Credentials(account) {
      return Failed(MissingCredentials), [];
    }

    // use the stored token while it is valid
    var isExpired := IsExpired(account, now);
    if Present(account.accessToken) && !isExpired {
      outcome, calls := MakeSuiteQLCall(ctx, account, account.accessToken, s.ladder, now);
      return;
    }

    // the token expired: refresh it inline, without any fallback
    if Present(account.refreshToken) && isExpired {
      calls := [RefreshGrant(account.refreshToken)];
      var res := s.inline;
      if res.TokenNetworkError? {
        return Failed(FetchFailed), calls;
      }
      if !IsOk(res.status) {
        return Failed(RefreshRequestFailed), calls;
      }
      if res.json.None? {
        return Failed(RefreshBodyNotJson), calls;
      }
      var tokenData := res.json.value;
      if tokenData.TokenNull? {
        return Failed(PropertyOfNull), calls;
      }
      account := InlineRefreshed(account, tokenData, now);
      var index := IndexWhere(accounts, Id, account.id);
      if index != -1 {
        accounts := accounts[index := account];
        SaveAccounts(ctx, accounts);
      }
      var ladderCalls;
      outcome, ladderCalls := MakeSuiteQLCall(ctx, account, account.accessToken, s.ladder, now);
      calls := calls + ladderCalls;
      return;
    }

    // no usable token: authorize interactively first
    var flow, updated, flowCalls := StartOAuthFlow(ctx, account, s.login, now);
    calls := flowCalls;
    if flow.NeverSettles? {
      return Pending, calls;
    }
    if flow.Rejected? {
      return Failed(flow.error), calls;
    }
    var ladderCalls;
    outcome, ladderCalls := MakeSuiteQLCall(ctx, updated, flow.token, s.ladder, now);
    calls := calls + ladderCalls;
  }

  /** Without a selected account, or without OAuth 2.0 credentials, the
      request fails before any call is made. */
  lemma SendChecksBeforeNetwork(stored: seq<Account>, file: AuthFile, current: Option<string>, now: int, s: Script)
    ensures var accounts := Loaded(stored, file);
      var r := SendSpec(stored, file, current, now, s);
      (FindWhere(accounts, Id, current).None? ==> r.outcome == Failed(NoAccountSelected) && r.calls == []) &&
      (FindWhere(accounts, Id, current).Some? && !HasOAuth2Credentials(FindWhere(accounts, Id, current).value) ==>
        r.outcome == Failed(MissingCredentials) && r.calls == [])
  {
  }

  /** A valid stored token is used for the first request, with nothing before it. */
  lemma SendUsesValidTokenDirectly(stored: seq<Account>, file: AuthFile, current: Option<string>, now: int, s: Script)
    requires var a := FindWhere(Loaded(stored, file), Id, current);
      a.Some? && HasOAuth2Credentials(a.value) && Present(a.value.accessToken) && !IsExpired(a.value, now)
    ensures var a := FindWhere(Loaded(stored, file), Id, current).value;
      var r := SendSpec(stored, file, current, now, s);
      |r.calls| > 0 && r.calls[0] == SuiteQL(a.accessToken) && Count(r.calls, RefreshKind) <= 1
  {
    var accounts := Loaded(stored, file);
    var a := accounts[IndexWhere(accounts, Id, current)];
    LadderCallBounds(accounts, file, a, a.accessToken, s.ladder, now);
  }

  /** The inline refresh: a reply that is not 2xx throws with no fallback
      and saves nothing; a good one is followed directly by a request with
      the new token, and the stored entry is the refreshed account. */
  lemma SendInlineRefresh(stored: seq<Account>, file: AuthFile, current: Option<string>, now: int, s: Script)
    requires var a := FindWhere(Loaded(stored, file), Id, current);
      a.Some? && HasOAuth2Credentials(a.value) && ChooseRoute(a.value, now) == InlineRefresh
    requires s.inline.TokenReply?
    ensures var a := FindWhere(Loaded(stored, file), Id, current).value;
      var r := SendSpec(stored, file, current, now, s);
      (!IsOk(s.inline.status) ==>
        r.outcome == Failed(RefreshRequestFailed) && r.calls == [RefreshGrant(a.refreshToken)] &&
        r.stored == Loaded(stored, file)) &&
      (IsOk(s.inline.status) && s.inline.json.Some? && s.inline.json.value.TokenObject? ==>
        var updated := InlineRefreshed(a, s.inline.json.value, now);
        |r.calls| >= 2 && r.calls[..2] == [RefreshGrant(a.refreshToken), SuiteQL(updated.accessToken)] &&
        (s.ladder.first.Reply? && IsOk(s.ladder.first.status) ==>
          r.calls == [RefreshGrant(a.refreshToken), SuiteQL(updated.accessToken)] &&
          FindWhere(r.stored, Id, current) == Some(updated)))
  {
    var accounts := Loaded(stored, file);
    var a := accounts[IndexWhere(accounts, Id, current)];
    if IsOk(s.inline.status) && s.inline.json.Some? && s.inline.json.value.TokenObject? {
      var updated := InlineRefreshed(a, s.inline.json.value, now);
      assert updated.id == a.id == current;
      SaveByIdOnlyTouchesMatch(accounts, updated);
      var after := SaveById(accounts, updated).value;
      LadderCallBounds(after, file, updated, updated.accessToken, s.ladder, now);
    }
  }

  /** The inline refresh path: one refresh grant, then the ladder. */
  lemma InlineRefreshCallBounds(accounts: seq<Account>, file: AuthFile, account: Account, s: Script, now: int)
    ensures var r := InlineRefreshSpec(accounts, file, account, s, now);
      Count(r.calls, SuiteQLKind) <= 3 && Count(r.calls, RefreshKind) <= 2 &&
      Count(r.calls, BrowserKind) <= 1 && Count(r.calls, CodeKind) <= 1
  {
    var grant := [RefreshGrant(account.refreshToken)];
    assert grant == [] + grant;
    forall k: Kind ensures Count(grant, k) == (if KindOf(grant[0]) == k then 1 else 0) {
      CountSnoc([], grant[0], k);
    }
    if s.inline.TokenReply? && IsOk(s.inline.status) && s.inline.json.Some? && s.inline.json.value.TokenObject? {
      var updated := InlineRefreshed(account, s.inline.json.value, now);
      var saved := SaveById(accounts, updated);
      var after := if saved.Some? then saved.value else accounts;
      var ladder := LadderSpec(after, file, updated, updated.accessToken, s.ladder, now);
      assert InlineRefreshSpec(accounts, file, account, s, now).calls == grant + ladder.calls;
      LadderCallBounds(after, file, updated, updated.accessToken, s.ladder, now);
      forall k: Kind ensures Count(grant + ladder.calls, k) == Count(grant, k) + Count(ladder.calls, k) {
        CountConcat(grant, ladder.calls, k);
      }
    }
  }

  /** The interactive path: one flow, then the ladder. */
  lemma InteractiveCallBounds(accounts: seq<Account>, file: AuthFile, account: Account, s: Script, now: int)
    ensures var r := InteractiveSpec(accounts, file, account, s, now);
      Count(r.calls, SuiteQLKind) <= 3 && Count(r.calls, RefreshKind) <= 1 &&
      Count(r.calls, BrowserKind) <= 2 && Count(r.calls, CodeKind) <= 2
  {
    var flow := FlowSpec(accounts, file, account, s.login, now);
    FlowCallBounds(accounts, file, account, s.login, now);
    if flow.outcome.Resolved? {
      var ladder := LadderSpec(flow.stored, file, flow.account, flow.outcome.token, s.ladder, now);
      assert InteractiveSpec(accounts, file, account, s, now).calls == flow.calls + ladder.calls;
      LadderCallBounds(flow.stored, file, flow.account, flow.outcome.token, s.ladder, now);
      forall k: Kind ensures Count(flow.calls + ladder.calls, k) == Count(flow.calls, k) + Count(ladder.calls, k) {
        CountConcat(flow.calls, ladder.calls, k);
      }
    }
  }

  /** One request makes at most three SuiteQL requests, two refresh grants
      (inline and in the ladder) and two interactive flows (before the ladder
      and in it). */
  lemma SendCallBounds(stored: seq<Account>, file: AuthFile, current: Option<string>, now: int, s: Script)
    ensures var r := SendSpec(stored, file, current, now, s);
      Count(r.calls, SuiteQLKind) <= 3 && Count(r.calls, RefreshKind) <= 2 &&
      Count(r.calls, BrowserKind) <= 2 && Count(r.calls, CodeKind) <= 2
  {
    var accounts := Loaded(stored, file);
    var i := IndexWhere(accounts, Id, current);
    if i != -1 && HasOAuth2Credentials(accounts[i]) {
      var account := accounts[i];
      match ChooseRoute(account, now)
      case UseStoredToken =>
        LadderCallBounds(accounts, file, account, account.accessToken, s.ladder, now);
      case InlineRefresh =>
        InlineRefreshCallBounds(accounts, file, account, s, now);
      case Interactive =>
        InteractiveCallBounds(accounts, file, account, s, now);
    }
  }

  // ---------------------------------------------------------------------------
  // How startOAuthFlow hands its handlers to the redirect server

  /** The call as written, `startRedirectServer(state, context, onCode, onTimeout)`,
      binds by position to `(expectedState, onCodeReceived, onTimeout)`: the
      context object lands in `onCodeReceived` and the code handler in
      `onTimeout`; the timeout handler is dropped. A valid redirect then sends
      the success page, throws calling the context, leaves the timer armed and
      the server open; when the timer fires the code handler runs WITHOUT the
      code, and the server is closed. */
  method RedirectAsWired(state: string, code: string) returns (h: RedirectServer.Handled, redirect: Redirect, open: bool)
    requires code != ""
    ensures h == RedirectServer.SentThenThrew(RedirectServer.AuthorizationSuccessful)
    ensures redirect == CodeHandlerRan(None)
    ensures !open
  {
    var server := new RedirectServer.Server();
    server.Start(state, RedirectServer.NotAFunction, RedirectServer.CodeHandler);
    server.ListenReady();
    h := server.Request(Some(code), Some(state), None);
    server.TimerFires(0);
    redirect := RedirectOf(server.invoked);
    open := server.server;
  }

  /** The intended binding, `(state, onCode, onTimeout)`: the code handler
      receives the code, the timer is cleared so its later firing does
      nothing, and the server is closed. */
  method RedirectAsIntended(state: string, code: string) returns (h: RedirectServer.Handled, redirect: Redirect, open: bool)
    requires code != ""
    ensures h == RedirectServer.Sent(RedirectServer.AuthorizationSuccessful)
    ensures redirect == CodeHandlerRan(Some(code))
    ensures !open
  {
    var server := new RedirectServer.Server();
    server.Start(state, RedirectServer.CodeHandler, RedirectServer.TimeoutHandler);
    server.ListenReady();
    h := server.Request(Some(code), Some(state), None);
    server.TimerFires(0);
    redirect := RedirectOf(server.invoked);
    open := server.server;
  }

  /** With the intended binding, a redirect carrying another state is
      rejected and no code reaches the flow: the timer is still armed, so the
      flow ends in its timeout handler and exchanges no code. */
  method MismatchedStateTimesOut(state: string, other: string, code: string)
    returns (h: RedirectServer.Handled, redirect: Redirect)
    requires other != state
    ensures h == RedirectServer.Sent(RedirectServer.StateMismatch)
    ensures redirect == TimeoutHandlerRan
  {
    var server := new RedirectServer.Server();
    server.Start(state, RedirectServer.CodeHandler, RedirectServer.TimeoutHandler);
    server.ListenReady();
    h := server.Request(Some(code), Some(other), None);
    server.TimerFires(0);
    redirect := RedirectOf(server.invoked);
  }
}
