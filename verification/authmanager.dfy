/** Loading, saving and looking up the stored accounts. */
module AuthManager {
  import opened Json
  import opened Accounts
  import opened Memento

  /** The list `loadAccounts` returns for a stored list and the `auth.json` read:
      the stored list when it has entries, otherwise the parsed file as the
      only account, otherwise nothing. */
  function Loaded(stored: seq<Account>, file: AuthFile): (accounts: seq<Account>)
    ensures |stored| > 0 ==> accounts == stored
    ensures |stored| == 0 && file.Parsed? ==> accounts == [file.account]
    ensures |stored| == 0 && !file.Parsed? ==> accounts == []
  {
    var accounts := stored;
    if |accounts| == 0 && file.Parsed? then [file.account] else accounts
  }

  /** Loading twice gives what loading once gave: the fallback written back
      is a non-empty list, so the next load returns it unchanged. */
  lemma LoadedIsStable(stored: seq<Account>, file: AuthFile)
    ensures Loaded(Loaded(stored, file), file) == Loaded(stored, file)
  {
  }

  /** `loadAccounts(context)`: when the store is empty and `auth.json`
      parses, the one-account list is written back before it is returned. */
  method LoadAccounts(ctx: Context) returns (accounts: seq<Account>)
    modifies ctx`accounts
    ensures accounts == Loaded(old(ctx.accounts), ctx.file)
    ensures ctx.accounts == accounts
  {
    accounts := ctx.accounts;
    if |accounts| == 0 {
      if ctx.file.Parsed? {
        accounts := [ctx.file.account];
        ctx.accounts := accounts;
      }
    }
  }

  /** `saveAccounts(context, accounts)` replaces the stored list wholesale. */
  method SaveAccounts(ctx: Context, accounts: seq<Account>)
    modifies ctx`accounts
    ensures ctx.accounts == accounts
  {
    ctx.accounts := accounts;
  }

  /** `getCurrentAccount(context)` as written: the first stored account whose
      `account` field (the NetSuite account id) equals the stored selection,
      otherwise the first stored account, `undefined` when there is none.
      The store is read directly, without the `auth.json` fallback. */
  function GetCurrentAccount(accounts: seq<Account>, current: Option<string>): (r: Option<Account>)
    ensures r.None? <==> |accounts| == 0
    ensures IndexWhere(accounts, Tenant, current) != -1 ==>
      r == Some(accounts[IndexWhere(accounts, Tenant, current)]) && r.value.account == current
    ensures IndexWhere(accounts, Tenant, current) == -1 && |accounts| > 0 ==> r == Some(accounts[0])
  {
    var found := FindWhere(accounts, Tenant, current);
    if found.Some? then found
    else if |accounts| > 0 then Some(accounts[0])
    else None
  }

  /** The lookup the rest of the extension assumes: the selection holds an
      account's `id`, so the current account is the first one with that id,
      falling back to the first account as the original does. */
  function GetCurrentAccountById(accounts: seq<Account>, current: Option<string>): (r: Option<Account>)
    ensures r.None? <==> |accounts| == 0
    ensures (exists j :: 0 <= j < |accounts| && accounts[j].id == current) ==>
      r.Some? && r.value.id == current && r == Some(accounts[IndexWhere(accounts, Id, current)])
    ensures (forall j :: 0 <= j < |accounts| ==> accounts[j].id != current) && |accounts| > 0 ==>
      r == Some(accounts[0])
  {
    var found := FindWhere(accounts, Id, current);
    if found.Some? then found
    else if |accounts| > 0 then Some(accounts[0])
    else None
  }

  /** With the selection stored as an id, the as-written lookup returns the
      wrong account: two accounts "a" (NetSuite account "111") and "b"
      (NetSuite account "222"), "b" selected, yield account "a". */
  lemma GetCurrentAccountIgnoresSelectedId()
    ensures
      var a := Account(Some("a"), Some("111"), None, None, None, None, None, None, None, Unset);
      var b := Account(Some("b"), Some("222"), None, None, None, None, None, None, None, Unset);
      GetCurrentAccount([a, b], Some("b")) == Some(a) &&
      GetCurrentAccountById([a, b], Some("b")) == Some(b)
  {
    var a := Account(Some("a"), Some("111"), None, None, None, None, None, None, None, Unset);
    var b := Account(Some("b"), Some("222"), None, None, None, None, None, None, None, Unset);
    assert FieldOf(a, Tenant) != Some("b") && FieldOf(b, Tenant) != Some("b");
    assert IndexWhere([a, b], Tenant, Some("b")) == -1;
    assert FieldOf([a, b][1], Id) == Some("b");
  }
}
