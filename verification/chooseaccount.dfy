/** The account picker: saving an account from the account form, listing
    the accounts, and using, editing or deleting the one picked. The two
    quick picks and the confirmation dialog are the user's answers, given
    as parameters. */
module ChooseAccount {
  import opened Json
  import opened Accounts
  import opened Memento
  import opened AuthManager
  import OAuth2

  // ---------------------------------------------------------------------------
  // handleSave

  /** The list after saving `data`: it replaces the first entry with the same
      id, or is appended when there is none. */
  function Upserted(accounts: seq<Account>, data: Account): (r: seq<Account>)
    ensures FindWhere(r, Id, data.id) == Some(data)
    ensures IndexWhere(accounts, Id, data.id) != -1 ==>
      |r| == |accounts| && r[IndexWhere(accounts, Id, data.id)] == data &&
      forall j :: 0 <= j < |accounts| && j != IndexWhere(accounts, Id, data.id) ==> r[j] == accounts[j]
    ensures IndexWhere(accounts, Id, data.id) == -1 ==> r == accounts + [data]
  {
    var saved := SaveById(accounts, data);
    if saved.Some? then
      SaveByIdOnlyTouchesMatch(accounts, data);
      saved.value
    else
      var r := accounts + [data];
      assert FieldOf(r[|accounts|], Id) == data.id;
      var k := IndexWhere(r, Id, data.id);
      assert k != -1 && !(k < |accounts|);
      r
  }

  /** Saving the same account twice is saving it once. */
  lemma UpsertedIdempotent(accounts: seq<Account>, data: Account)
    ensures Upserted(Upserted(accounts, data), data) == Upserted(accounts, data)
  {
    var r := Upserted(accounts, data);
    var k := IndexWhere(r, Id, data.id);
    assert k != -1 && r[k] == data;
    assert r[k := data] == r;
  }

  /** `handleSave(data)`: load, replace or append by id, save, and select the
      saved account by its id. `updated` tells which ("Updated" or "Added"). */
  method HandleSave(ctx: Context, data: Account) returns (updated: bool)
    modifies ctx`accounts, ctx`current
    ensures ctx.accounts == Upserted(Loaded(old(ctx.accounts), ctx.file), data)
    ensures ctx.current == data.id
    ensures updated <==> exists j :: 0 <= j < |Loaded(old(ctx.accounts), ctx.file)| && Loaded(old(ctx.accounts), ctx.file)[j].id == data.id
  {
    var accounts := LoadAccounts(ctx);
    var idx := IndexWhere(accounts, Id, data.id);
    if idx > -1 {
      accounts := accounts[idx := data];
    } else {
      accounts := accounts + [data];
    }
    SaveAccounts(ctx, accounts);
    ctx.current := data.id;
    updated := idx > -1;
  }

  /** After a save, the selected account is the one just saved, whatever was
      stored before. */
  lemma SavedAccountIsSelected(stored: seq<Account>, file: AuthFile, data: Account)
    ensures var r := Upserted(Loaded(stored, file), data);
      GetCurrentAccountById(r, data.id) == Some(data) &&
      |r| > 0 && Loaded(r, file) == r
  {
    var r := Upserted(Loaded(stored, file), data);
    assert FindWhere(r, Id, data.id) == Some(data);
  }

  // ---------------------------------------------------------------------------
  // chooseAccount

  /** One quick-pick item. */
  datatype Pick = Pick(caption: string, description: Option<string>, id: Option<string>)

  const ActiveMark := " ✔️ Active"

  /** The pick that starts the add-account form; it carries no id. */
  const AddPick := Pick("➕ Set up new account", Some(""), None)

  /** `a.displayName || a.account` as a template string shows it. */
  function AccountName(a: Account): string {
    if Present(a.displayName) then a.displayName.value else Shown(a.account)
  }

  function PickFor(a: Account, currentId: Option<string>): (p: Pick)
    ensures p.id == a.id && p.description == a.url
    ensures a.id == currentId ==> p.caption == AccountName(a) + ActiveMark
    ensures a.id != currentId ==> p.caption == AccountName(a)
  {
    Pick(AccountName(a) + (if a.id == currentId then ActiveMark else ""), a.url, a.id)
  }

  /** One pick per account, in order, marking the selected one, then the add pick. */
  function Picks(accounts: seq<Account>, currentId: Option<string>): (ps: seq<Pick>)
    ensures |ps| == |accounts| + 1
    ensures forall i :: 0 <= i < |accounts| ==> ps[i] == PickFor(accounts[i], currentId)
    ensures ps[|accounts|] == AddPick
  {
    seq(|accounts|, i requires 0 <= i < |accounts| => PickFor(accounts[i], currentId)) + [AddPick]
  }

  /** `caption.startsWith('➕')` */
  predicate StartsAddFlow(caption: string) {
    |caption| > 0 && caption[0] == '➕'
  }

  /** `accounts.filter(a => a.id !== id)` */
  function Remaining(accounts: seq<Account>, id: Option<string>): (r: seq<Account>)
    ensures |r| <= |accounts|
    ensures forall a :: a in r <==> a in accounts && a.id != id
    ensures (forall j :: 0 <= j < |accounts| ==> accounts[j].id != id) ==> r == accounts
    ensures |accounts| == 1 ==> r == (if accounts[0].id != id then accounts else [])
  {
    if accounts == [] then []
    else if accounts[0].id != id then [accounts[0]] + Remaining(accounts[1..], id)
    else Remaining(accounts[1..], id)
  }

  /** The filter works account by account: with the single-account case
      above, the accounts kept are exactly those with another id, in their
      order and with their repetitions. */
  lemma {:induction false} RemainingConcat(a: seq<Account>, b: seq<Account>, id: Option<string>)
    ensures Remaining(a + b, id) == Remaining(a, id) + Remaining(b, id)
  {
    if a == [] {
      assert a + b == b;
    } else {
      assert (a + b)[0] == a[0];
      assert (a + b)[1..] == a[1..] + b;
      RemainingConcat(a[1..], b, id);
    }
  }

  /** The second quick pick. */
  datatype Action = Use | Edit | Delete

  /** What the picker leaves on screen. */
  datatype Effect =
    | NoEffect                                  // a pick dismissed, or a deletion not confirmed
    | ShowAccountForm(existing: Option<Account>) // the add form (None) or the edit form
    | Rendered                                  // the views re-rendered

  /** The stores after the picker, and what it showed. */
  datatype Chosen = Chosen(effect: Effect, accounts: seq<Account>, current: Option<string>, history: map<string, seq<Entry>>)

  /** `chooseAccount`: `pick` is the index of the chosen item (None when
      dismissed), `action` the second answer, `confirmed` the answer to the
      deletion dialog. */
  function ChooseSpec(stored: seq<Account>, file: AuthFile, current: Option<string>, history: map<string, seq<Entry>>,
                      pick: Option<nat>, action: Option<Action>, confirmed: bool): Chosen
    requires pick.Some? ==> pick.value <= |Loaded(stored, file)|
  {
    var accounts := Loaded(stored, file);
    if pick.None? then Chosen(NoEffect, accounts, current, history)
    else
      var choice := Picks(accounts, current)[pick.value];
      if StartsAddFlow(choice.caption) then Chosen(ShowAccountForm(None), accounts, current, history)
      else if action.None? then Chosen(NoEffect, accounts, current, history)
      else match action.value
        case Use => Chosen(Rendered, accounts, choice.id, history)
        case Edit => Chosen(ShowAccountForm(FindWhere(accounts, Id, choice.id)), accounts, current, history)
        case Delete =>
          if !confirmed then Chosen(NoEffect, accounts, current, history)
          else Chosen(Rendered, Remaining(accounts, choice.id), current, history - {HistoryKey(choice.id)})
  }

  method ChooseAccount(ctx: Context, pick: Option<nat>, action: Option<Action>, confirmed: bool) returns (effect: Effect)
    requires pick.Some? ==> pick.value <= |Loaded(ctx.accounts, ctx.file)|
    modifies ctx`accounts, ctx`current, ctx`history
    ensures Chosen(effect, ctx.accounts, ctx.current, ctx.history) ==
      ChooseSpec(old(ctx.accounts), ctx.file, old(ctx.current), old(ctx.history), pick, action, confirmed)
  {
    var accounts := LoadAccounts(ctx);
    var currentId := ctx.current;
    var picks := Picks(accounts, currentId);
    if pick.None? {
      return NoEffect;
    }
    var choice := picks[pick.value];
    if StartsAddFlow(choice.caption) {
      return ShowAccountForm(None);
    }
    if action.None? {
      return NoEffect;
    }
    match action.value {
      case Use =>
        ctx.current := choice.id;
        effect := Rendered;
      case Edit =>
        var accountToEdit := FindWhere(accounts, Id, choice.id);
        effect := ShowAccountForm(accountToEdit);
      case Delete =>
        effect := NoEffect;
        if confirmed {
          var remaining := Remaining(accounts, choice.id);
          SaveAccounts(ctx, remaining);
          ctx.history := ctx.history - {HistoryKey(choice.id)};
          effect := Rendered;
        }
    }
  }

  /** The add pick always opens the empty account form and changes nothing. */
  lemma AddPickOpensEmptyForm(stored: seq<Account>, file: AuthFile, current: Option<string>, history: map<string, seq<Entry>>,
                              action: Option<Action>, confirmed: bool)
    ensures var accounts := Loaded(stored, file);
      ChooseSpec(stored, file, current, history, Some(|accounts|), action, confirmed) ==
      Chosen(ShowAccountForm(None), accounts, current, history)
  {
    assert StartsAddFlow(AddPick.caption);
  }

  /** Using an account selects it by id: the lookup by id then finds it. */
  lemma UseSelectsPickedAccount(stored: seq<Account>, file: AuthFile, current: Option<string>, history: map<string, seq<Entry>>, i: nat)
    requires i < |Loaded(stored, file)|
    requires !StartsAddFlow(Picks(Loaded(stored, file), current)[i].caption)
    ensures var c := ChooseSpec(stored, file, current, history, Some(i), Some(Use), false);
      c.effect == Rendered && c.current == Loaded(stored, file)[i].id &&
      c.accounts == Loaded(stored, file) && c.history == history &&
      GetCurrentAccountById(c.accounts, c.current).Some? &&
      GetCurrentAccountById(c.accounts, c.current).value.id == Loaded(stored, file)[i].id
  {
    var accounts := Loaded(stored, file);
    assert accounts[i].id == Loaded(stored, file)[i].id;
  }

  /** A confirmed deletion stores the filtered list (every account with the
      picked id removed, the others kept in order, see `RemainingConcat`),
      drops that id's history, and leaves the selection and every other
      account's history as they were. */
  lemma DeleteRemovesAccountAndHistory(stored: seq<Account>, file: AuthFile, current: Option<string>, history: map<string, seq<Entry>>,
                                       i: nat, other: string)
    requires i < |Loaded(stored, file)|
    requires !StartsAddFlow(Picks(Loaded(stored, file), current)[i].caption)
    requires Loaded(stored, file)[i].id != Some(other)
    // an account without an id shares its history key with the id "undefined"
    requires Loaded(stored, file)[i].id.None? ==> other != "undefined"
    ensures var id := Loaded(stored, file)[i].id;
      var c := ChooseSpec(stored, file, current, history, Some(i), Some(Delete), true);
      c.effect == Rendered && c.current == current &&
      c.accounts == Remaining(Loaded(stored, file), id) &&
      (forall a :: a in c.accounts <==> a in Loaded(stored, file) && a.id != id) &&
      HistoryAt(c.history, HistoryKey(id)) == [] &&
      HistoryAt(c.history, HistoryKey(Some(other))) == HistoryAt(history, HistoryKey(Some(other)))
  {
    var id := Loaded(stored, file)[i].id;
    if id.None? {
      assert HistoryKey(id) == HistoryPrefix + "undefined";
      HistoryKeysDistinct("undefined", other);
    } else {
      HistoryKeysDistinct(id.value, other);
    }
  }

  /** Deleting the selected account leaves the selection pointing at the
      deleted id: while other accounts remain, the next request fails with
      "No account selected." before any call. */
  lemma DeletingSelectedAccountKeepsSelection(stored: seq<Account>, file: AuthFile, history: map<string, seq<Entry>>,
                                              i: nat, now: int, s: OAuth2.Script)
    requires i < |Loaded(stored, file)|
    requires !StartsAddFlow(Picks(Loaded(stored, file), Loaded(stored, file)[i].id)[i].caption)
    requires Remaining(Loaded(stored, file), Loaded(stored, file)[i].id) != []
    ensures var current := Loaded(stored, file)[i].id;
      var c := ChooseSpec(stored, file, current, history, Some(i), Some(Delete), true);
      c.current == current &&
      OAuth2.SendSpec(c.accounts, file, c.current, now, s) == OAuth2.Run(OAuth2.Failed(OAuth2.NoAccountSelected), [], c.accounts)
  {
    var current := Loaded(stored, file)[i].id;
    var c := ChooseSpec(stored, file, current, history, Some(i), Some(Delete), true);
    assert c.accounts == Remaining(Loaded(stored, file), current);
    assert forall j :: 0 <= j < |c.accounts| ==> c.accounts[j] in c.accounts;
    assert IndexWhere(c.accounts, Id, current) == -1;
  }

  /** Deleting the last account stores an empty list, and the next load falls
      back to `auth.json` again. When the file holds the deleted account, the
      next request finds it: without credentials it fails for that reason,
      with them it goes on to the network. */
  lemma DeletingLastAccountReloadsFile(stored: seq<Account>, file: AuthFile, history: map<string, seq<Entry>>,
                                       i: nat, now: int, s: OAuth2.Script)
    requires i < |Loaded(stored, file)|
    requires !StartsAddFlow(Picks(Loaded(stored, file), Loaded(stored, file)[i].id)[i].caption)
    requires Remaining(Loaded(stored, file), Loaded(stored, file)[i].id) == []
    requires file.Parsed? && file.account.id == Loaded(stored, file)[i].id
    ensures var current := Loaded(stored, file)[i].id;
      var c := ChooseSpec(stored, file, current, history, Some(i), Some(Delete), true);
      var r := OAuth2.SendSpec(c.accounts, file, c.current, now, s);
      c.accounts == [] && c.current == current &&
      FindWhere(Loaded(c.accounts, file), Id, c.current) == Some(file.account) &&
      (!OAuth2.HasOAuth2Credentials(file.account) ==> r.outcome == OAuth2.Failed(OAuth2.MissingCredentials)) &&
      (OAuth2.HasOAuth2Credentials(file.account) ==> |r.calls| > 0)
  {
    var current := Loaded(stored, file)[i].id;
    var a := file.account;
    assert Loaded([], file) == [a];
    assert FieldOf([a][0], Id) == current;
    assert IndexWhere([a], Id, current) == 0;
    if OAuth2.HasOAuth2Credentials(a) && OAuth2.ChooseRoute(a, now) == OAuth2.UseStoredToken {
      OAuth2.LadderCallBounds([a], file, a, a.accessToken, s.ladder, now);
    }
  }
}
