/** The account record the extension stores, and the two by-field searches
    (`find` / `findIndex`) every read-modify-write of the stored list uses. */
module Accounts {
  import opened Json

  /** `expiresAt`: absent, a millisecond timestamp, or `NaN` (what
      `Date.now() + undefined * 1000` yields when a token reply has no `expires_in`). */
  datatype Stamp = Unset | At(ms: int) | NaN

  /** One configured NetSuite account. Every field may be `undefined`;
      `account` is the NetSuite account id used in host names, `id` the
      extension's own key for the record. */
  datatype Account = Account(
    id: Option<string>,
    account: Option<string>,
    displayName: Option<string>,
    url: Option<string>,
    redirectUri: Option<string>,
    consumerKey: Option<string>,
    consumerSecret: Option<string>,
    accessToken: Option<string>,
    refreshToken: Option<string>,
    expiresAt: Stamp)

  /** The two fields accounts are looked up by. */
  datatype Field = Id | Tenant

  function FieldOf(a: Account, f: Field): Option<string> {
    match f
    case Id => a.id
    case Tenant => a.account
  }

  /** `accounts.findIndex(a => a.<f> === v)`: the first position whose field
      equals `v` (strict equality, so `undefined` matches `undefined`), or -1. */
  function IndexWhere(accounts: seq<Account>, f: Field, v: Option<string>): (i: int)
    ensures -1 <= i < |accounts|
    ensures i == -1 <==> forall j :: 0 <= j < |accounts| ==> FieldOf(accounts[j], f) != v
    ensures 0 <= i ==> FieldOf(accounts[i], f) == v
    ensures forall j :: 0 <= j < i ==> FieldOf(accounts[j], f) != v
  {
    if |accounts| == 0 then -1
    else if FieldOf(accounts[0], f) == v then 0
    else
      var i := IndexWhere(accounts[1..], f, v);
      if i == -1 then -1 else i + 1
  }

  /** `accounts.find(a => a.<f> === v)` */
  function FindWhere(accounts: seq<Account>, f: Field, v: Option<string>): (r: Option<Account>)
    ensures r.None? <==> forall j :: 0 <= j < |accounts| ==> FieldOf(accounts[j], f) != v
    ensures r.Some? ==> r.value in accounts && FieldOf(r.value, f) == v
    // the first match: the entry at the position findIndex reports
    ensures r.Some? ==> r == Some(accounts[IndexWhere(accounts, f, v)])
  {
    var i := IndexWhere(accounts, f, v);
    if i == -1 then None else Some(accounts[i])
  }

  /** `const idx = accounts.findIndex(acc => acc.id === entry.id); if (idx !== -1) accounts[idx] = entry;`
      None when no entry has that id, in which case nothing is saved. */
  function SaveById(accounts: seq<Account>, entry: Account): (r: Option<seq<Account>>)
    ensures r.None? <==> forall j :: 0 <= j < |accounts| ==> accounts[j].id != entry.id
    ensures r.Some? ==>
      exists i :: 0 <= i < |accounts| && accounts[i].id == entry.id &&
        (forall j :: 0 <= j < i ==> accounts[j].id != entry.id) &&
        r.value == accounts[i := entry]
  {
    var i := IndexWhere(accounts, Id, entry.id);
    if i == -1 then None else Some(accounts[i := entry])
  }

  /** Saving by id changes nothing but the first entry with that id: every
      other entry, the length and the order stay as they were. */
  lemma SaveByIdOnlyTouchesMatch(accounts: seq<Account>, entry: Account)
    requires SaveById(accounts, entry).Some?
    ensures |SaveById(accounts, entry).value| == |accounts|
    ensures forall j :: 0 <= j < |accounts| && accounts[j].id != entry.id ==>
      SaveById(accounts, entry).value[j] == accounts[j]
    ensures FindWhere(SaveById(accounts, entry).value, Id, entry.id) == Some(entry)
  {
    var i := IndexWhere(accounts, Id, entry.id);
    var r := accounts[i := entry];
    assert SaveById(accounts, entry).value == r;
    assert FieldOf(r[i], Id) == entry.id;
    assert forall j :: 0 <= j < i ==> FieldOf(r[j], Id) != entry.id;
    var k := IndexWhere(r, Id, entry.id);
    assert k != -1 && !(k < i) && !(i < k);
  }
}
