/** The extension's persistent state as VS Code keeps it: `globalState`
    (the account list and the current selection), `workspaceState` (one
    query history per account) and the optional `auth.json` beside the
    extension. */
module Memento {
  import opened Json
  import opened Accounts

  /** `auth.json` in the extension directory, as `loadAccounts` reads it. */
  datatype AuthFile = Missing | Unparsable | Parsed(account: Account)

  /** What a query produced: `entry.result` or `entry.error` (an error's `message`). */
  datatype EntryOutcome = Result(value: Value) | Error(message: string)

  /** One history entry `{ query, result }` or `{ query, error }`. */
  datatype Entry = Entry(query: Option<string>, outcome: EntryOutcome)

  const HistoryPrefix := "suiteql.history."

  /** `suiteql.history.${currentId}`; an unset selection gives "...undefined". */
  function HistoryKey(current: Option<string>): (key: string)
    ensures |key| >= |HistoryPrefix| && key[..|HistoryPrefix|] == HistoryPrefix
    ensures key[|HistoryPrefix|..] == Shown(current)
  {
    HistoryPrefix + Shown(current)
  }

  /** Two different account ids never share a history key. */
  lemma HistoryKeysDistinct(a: string, b: string)
    requires a != b
    ensures HistoryKey(Some(a)) != HistoryKey(Some(b))
  {
    assert HistoryKey(Some(a))[|HistoryPrefix|..] == a;
    assert HistoryKey(Some(b))[|HistoryPrefix|..] == b;
  }

  /** `workspaceState.get(key, [])` */
  function HistoryAt(history: map<string, seq<Entry>>, key: string): seq<Entry> {
    if key in history then history[key] else []
  }

  /** The extension context's stores. */
  class Context {
    /** globalState `suiteql.accounts` (the default `[]` when unset) */
    var accounts: seq<Account>
    /** globalState `suiteql.current`: the selected account's id */
    var current: Option<string>
    /** workspaceState `suiteql.history.<id>` entries */
    var history: map<string, seq<Entry>>
    /** `<extensionPath>/auth.json` */
    const file: AuthFile

    constructor (accounts: seq<Account>, current: Option<string>, history: map<string, seq<Entry>>, file: AuthFile)
      ensures this.accounts == accounts && this.current == current
      ensures this.history == history && this.file == file
    {
      this.accounts := accounts;
      this.current := current;
      this.history := history;
      this.file := file;
    }
  }
}
