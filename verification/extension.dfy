/** The query history views: the side panel and the editor tab show the
    selected account's history, rendered from the same entries; running a
    query appends to it, the delete button removes one entry. A webview that
    throws when touched is dropped. The query itself and which webviews throw
    are given as parameters. */
module Extension {
  import opened Json
  import opened Memento

  // ---------------------------------------------------------------------------
  // Escaping the query text

  function CountChar(s: string, c: char): nat {
    if s == [] then 0 else (if s[0] == c then 1 else 0) + CountChar(s[1..], c)
  }

  /** `.replace(/</g, '&lt;')` */
  function EscapeLt(s: string): (r: string)
    ensures forall i :: 0 <= i < |r| ==> r[i] != '<'
    ensures |r| == |s| + 3 * CountChar(s, '<')
    ensures |s| == 1 ==> r == (if s[0] == '<' then "&lt;" else s)
  {
    if s == [] then ""
    else if s[0] == '<' then "&lt;" + EscapeLt(s[1..])
    else [s[0]] + EscapeLt(s[1..])
  }

  /** Escaping works character by character: with the single-character case
      above, every character other than `<` is kept as it is, in place. */
  lemma {:induction false} EscapeLtConcat(a: string, b: string)
    ensures EscapeLt(a + b) == EscapeLt(a) + EscapeLt(b)
  {
    if a == [] {
      assert a + b == b;
    } else {
      assert (a + b)[0] == a[0];
      assert (a + b)[1..] == a[1..] + b;
      EscapeLtConcat(a[1..], b);
    }
  }

  /** What a browser shows for escaped text: each `&lt;` read back as `<`. */
  function UnescapeLt(s: string): string {
    if s == [] then ""
    else if |s| >= 4 && s[..4] == "&lt;" then "<" + UnescapeLt(s[4..])
    else [s[0]] + UnescapeLt(s[1..])
  }

  /** A query without `&` is shown exactly as typed. */
  lemma {:induction false} EscapeLtRoundTrip(s: string)
    requires forall i :: 0 <= i < |s| ==> s[i] != '&'
    ensures UnescapeLt(EscapeLt(s)) == s
  {
    if s != [] {
      EscapeLtRoundTrip(s[1..]);
      var e := EscapeLt(s);
      if s[0] == '<' {
        assert e[..4] == "&lt;" && e[4..] == EscapeLt(s[1..]);
      } else {
        assert e[0] == s[0] && e[1..] == EscapeLt(s[1..]);
      }
    }
  }

  // ---------------------------------------------------------------------------
  // Rendering one entry

  /** A table cell: `r[h] != null ? r[h] : ''`. */
  datatype Cell = Blank | CellValue(v: Value)

  datatype TableView = NoResults | Table(headers: seq<string>, rows: seq<seq<Cell>>)

  datatype Body =
    | ErrorBody(message: string)                     // "Error: <message>"
    | ResultBody(json: Option<Value>, table: TableView) // `JSON.stringify(entry.result.data)` and the table

  /** An entry as shown: the escaped query and its body. */
  datatype EntryView = EntryView(query: string, body: Body)

  /** `r[h]` for a row that is not null: a member of an object; anything else has no such member. */
  function CellOf(row: Value, h: string): (c: Cell)
    requires row != Null
    ensures c == Blank <==> !row.Obj? || Lookup(row.members, h).None? || Lookup(row.members, h) == Some(Null)
  {
    if row.Obj? then
      match Lookup(row.members, h)
      case None => Blank
      case Some(Null) => Blank
      case Some(v) => CellValue(v)
    else Blank
  }

  /** The table of a result: headers are the first row's keys and there is one
      cell per header in every row. None when it throws: `Object.keys(null)`
      on a null first row, or `null[h]` for a null row when there are headers. */
  function TableOf(raw: Value): (t: Option<TableView>)
    ensures !raw.Arr? || raw.elems == [] ==> t == Some(NoResults)
    ensures raw.Arr? && raw.elems != [] ==>
      (t.None? <==> raw.elems[0] == Null ||
                    (Keys(raw.elems[0]) != [] && exists j :: 0 <= j < |raw.elems| && raw.elems[j] == Null))
    ensures t.Some? && raw.Arr? && raw.elems != [] ==>
      t.value.Table? && t.value.headers == Keys(raw.elems[0]) && |t.value.rows| == |raw.elems| &&
      forall j :: 0 <= j < |raw.elems| ==>
        |t.value.rows[j]| == |t.value.headers| &&
        forall k :: 0 <= k < |t.value.headers| ==> raw.elems[j] != Null && t.value.rows[j][k] == CellOf(raw.elems[j], t.value.headers[k])
  {
    if !raw.Arr? || raw.elems == [] then Some(NoResults)
    else
      var rows := raw.elems;
      if rows[0] == Null then None
      else
        var hdrs := Keys(rows[0]);
        if hdrs != [] && exists j :: 0 <= j < |rows| && rows[j] == Null then None
        else if hdrs == [] then Some(Table([], seq(|rows|, j => [])))
        else Some(Table(hdrs, seq(|rows|, j requires 0 <= j < |rows| && rows[j] != Null =>
                                   seq(|hdrs|, k requires 0 <= k < |hdrs| => CellOf(rows[j], hdrs[k])))))
  }

  /** One entry of `_getHtml`; None when rendering it throws: an error entry
      whose message is empty falls through to the result branch, which has no
      result, and a `null` result has no `data`. */
  function RenderEntry(e: Entry): (r: Option<EntryView>)
    ensures r.Some? ==> forall i :: 0 <= i < |r.value.query| ==> r.value.query[i] != '<'
    ensures e.outcome.Error? ==> (r.Some? <==> e.outcome.message != "")
    ensures e.outcome.Error? && r.Some? ==> r.value.body == ErrorBody(e.outcome.message)
    ensures e.outcome == Result(Null) ==> r.None?
    ensures e.outcome.Result? && r.Some? ==>
      (r.value.body.ResultBody? &&
       r.value.body.json == Member(Some(e.outcome.value), "data") &&
       Some(r.value.body.table) == TableOf(Or(Member(Some(e.outcome.value), "data"), e.outcome.value)))
  {
    var q := EscapeLt(if e.query.Some? then e.query.value else "");
    match e.outcome
    case Error(message) =>
      if message != "" then Some(EntryView(q, ErrorBody(message))) else None
    case Result(result) =>
      if result == Null then None
      else
        var raw := Or(Member(Some(result), "data"), result);
        var table := TableOf(raw);
        if table.None? then None else Some(EntryView(q, ResultBody(Member(Some(result), "data"), table.value)))
  }

  /** The whole page: every entry in order, or None when any entry throws. */
  function RenderHistory(history: seq<Entry>): (r: Option<seq<EntryView>>)
    ensures r.Some? <==> forall i :: 0 <= i < |history| ==> RenderEntry(history[i]).Some?
    ensures r.Some? ==>
      (|r.value| == |history| &&
       forall i :: 0 <= i < |history| ==> r.value[i] == RenderEntry(history[i]).value)
  {
    if history == [] then Some([])
    else
      var first := RenderEntry(history[0]);
      var rest := RenderHistory(history[1..]);
      if first.None? || rest.None? then None else Some([first.value] + rest.value)
  }

  // ---------------------------------------------------------------------------
  // history.splice(index, 1)

  /** The position `splice` starts at: negative indices count from the end,
      and are clamped at 0; large ones at the length. */
  function SpliceStart(index: int, len: nat): (k: nat)
    ensures k <= len
    ensures 0 <= index <= len ==> k == index
    ensures index > len ==> k == len
    ensures index < 0 && len + index >= 0 ==> k == len + index
    ensures len + index < 0 ==> k == 0
  {
    if index < 0 then (if len + index < 0 then 0 else len + index)
    else if index > len then len
    else index
  }

  /** `s.splice(index, 1)` on a copy: the entry at the start position is
      removed, when there is one. */
  function SpliceOne<T>(s: seq<T>, index: int): (r: seq<T>)
    ensures var k := SpliceStart(index, |s|);
      (k < |s| ==> r == s[..k] + s[k + 1..] && multiset(r) + multiset{s[k]} == multiset(s)) &&
      (k == |s| ==> r == s)
  {
    var k := SpliceStart(index, |s|);
    if k < |s| then
      assert s == s[..k] + [s[k]] + s[k + 1..];
      s[..k] + s[k + 1..]
    else s
  }

  /** Deleting the one entry that cannot be rendered makes the page render again. */
  lemma DeletingBrokenEntryRestoresRendering(history: seq<Entry>, k: nat)
    requires k < |history|
    requires forall i :: 0 <= i < |history| && i != k ==> RenderEntry(history[i]).Some?
    ensures RenderHistory(SpliceOne(history, k)).Some?
  {
    var r := SpliceOne(history, k);
    forall i | 0 <= i < |r| ensures RenderEntry(r[i]).Some? {
      if i < k {
        assert r[i] == history[i];
      } else {
        assert r[i] == history[i + 1];
      }
    }
  }

  // ---------------------------------------------------------------------------
  // The view provider

  /** The messages posted to the webviews. */
  datatype Message = Loading | ShowResults

  /** Which of the two webviews throw when touched. */
  datatype Faults = Faults(side: bool, tab: bool)

  /** The page `_render` would show for the selected account. */
  function CurrentPage(ctx: Context): Option<seq<EntryView>>
    reads ctx
  {
    RenderHistory(HistoryAt(ctx.history, HistoryKey(ctx.current)))
  }

  class ViewProvider {
    const ctx: Context
    /** `sidePanelView` / `tabPanelView` are non-null */
    var sidePanelView: bool
    var tabPanelView: bool
    /** the last page each webview was given, and the messages posted to it */
    var sidePage: seq<EntryView>
    var tabPage: seq<EntryView>
    var sideMessages: seq<Message>
    var tabMessages: seq<Message>

    constructor (ctx: Context)
      ensures this.ctx == ctx && !sidePanelView && !tabPanelView
      ensures sidePage == [] && tabPage == [] && sideMessages == [] && tabMessages == []
    {
      this.ctx := ctx;
      sidePanelView, tabPanelView := false, false;
      sidePage, tabPage := [], [];
      sideMessages, tabMessages := [], [];
    }

    /** `_postMessageAll(msg)`: each present view gets the message; one that
        throws is dropped, and the other is still tried. */
    method PostMessageAll(msg: Message, faults: Faults)
      modifies this
      ensures sidePanelView == (old(sidePanelView) && !faults.side)
      ensures tabPanelView == (old(tabPanelView) && !faults.tab)
      ensures sideMessages == old(sideMessages) + (if sidePanelView then [msg] else [])
      ensures tabMessages == old(tabMessages) + (if tabPanelView then [msg] else [])
      ensures sidePage == old(sidePage) && tabPage == old(tabPage)
    {
      if sidePanelView {
        if faults.side {
          sidePanelView := false;
        } else {
          sideMessages := sideMessages + [msg];
        }
      }
      if tabPanelView {
        if faults.tab {
          tabPanelView := false;
        } else {
          tabMessages := tabMessages + [msg];
        }
      }
    }

    /** `_render()`: the selected account's history is rendered once and the
        same page given to each present view; a view that throws is dropped.
        When rendering throws, no view is touched and `threw` is set. */
    method Render(faults: Faults) returns (threw: bool)
      modifies this
      ensures threw <==> CurrentPage(ctx).None?
      ensures threw ==> sidePanelView == old(sidePanelView) && tabPanelView == old(tabPanelView) &&
                        sidePage == old(sidePage) && tabPage == old(tabPage)
      ensures !threw ==> sidePanelView == (old(sidePanelView) && !faults.side) &&
                         tabPanelView == (old(tabPanelView) && !faults.tab) &&
                         sidePage == (if sidePanelView then CurrentPage(ctx).value else old(sidePage)) &&
                         tabPage == (if tabPanelView then CurrentPage(ctx).value else old(tabPage))
      ensures sideMessages == old(sideMessages) && tabMessages == old(tabMessages)
    {
      var currentId := ctx.current;
      var history := HistoryAt(ctx.history, HistoryKey(currentId));
      var html := RenderHistory(history);
      if html.None? {
        return true;
      }
      threw := false;
      if sidePanelView {
        if faults.side {
          sidePanelView := false;
        } else {
          sidePage := html.value;
        }
      }
      if tabPanelView {
        if faults.tab {
          tabPanelView := false;
        } else {
          tabPage := html.value;
        }
      }
    }

    /** `resolveWebviewView`: the side panel is attached before it is
        rendered, so it stays attached when rendering throws. */
    method ResolveWebviewView(faults: Faults) returns (threw: bool)
      modifies this
      ensures threw <==> CurrentPage(ctx).None?
      ensures threw ==> sidePanelView && tabPanelView == old(tabPanelView) &&
                        sidePage == old(sidePage) && tabPage == old(tabPage)
      ensures !threw ==> sidePanelView == !faults.side &&
                         tabPanelView == (old(tabPanelView) && !faults.tab) &&
                         sidePage == (if sidePanelView then CurrentPage(ctx).value else old(sidePage)) &&
                         tabPage == (if tabPanelView then CurrentPage(ctx).value else old(tabPage))
      ensures tabMessages == old(tabMessages) && sideMessages == old(sideMessages)
    {
      sidePanelView := true;
      threw := Render(faults);
    }

    /** `setTabPanel`: the editor tab is attached before it is rendered, so
        it stays attached when rendering throws. */
    method SetTabPanel(faults: Faults) returns (threw: bool)
      modifies this
      ensures threw <==> CurrentPage(ctx).None?
      ensures threw ==> tabPanelView && sidePanelView == old(sidePanelView) &&
                        sidePage == old(sidePage) && tabPage == old(tabPage)
      ensures !threw ==> tabPanelView == !faults.tab &&
                         sidePanelView == (old(sidePanelView) && !faults.side) &&
                         sidePage == (if sidePanelView then CurrentPage(ctx).value else old(sidePage)) &&
                         tabPage == (if tabPanelView then CurrentPage(ctx).value else old(tabPage))
      ensures tabMessages == old(tabMessages) && sideMessages == old(sideMessages)
    {
      tabPanelView := true;
      threw := Render(faults);
    }

    /** `_handleQuery(query)`: "loading" to every view, the entry (its result
        or its error message) appended to the selected account's history,
        a render, then "showResults" unless the render threw. Each of the
        three touches has its own faults: a view may take "loading" and then
        throw on the page. */
    method HandleQuery(query: Option<string>, outcome: EntryOutcome, atLoading: Faults, atRender: Faults, atShow: Faults)
      returns (threw: bool)
      modifies this, ctx`history
      ensures var key := HistoryKey(ctx.current);
        ctx.history == old(ctx.history)[key := HistoryAt(old(ctx.history), key) + [Entry(query, outcome)]]
      ensures threw <==> CurrentPage(ctx).None?
      // the views left after "loading"; a render that throws touches nothing more
      ensures threw ==> sidePanelView == (old(sidePanelView) && !atLoading.side) &&
                        tabPanelView == (old(tabPanelView) && !atLoading.tab) &&
                        sidePage == old(sidePage) && tabPage == old(tabPage)
      ensures !threw ==>
        sidePanelView == (old(sidePanelView) && !atLoading.side && !atRender.side && !atShow.side) &&
        tabPanelView == (old(tabPanelView) && !atLoading.tab && !atRender.tab && !atShow.tab) &&
        sidePage == (if old(sidePanelView) && !atLoading.side && !atRender.side then CurrentPage(ctx).value else old(sidePage)) &&
        tabPage == (if old(tabPanelView) && !atLoading.tab && !atRender.tab then CurrentPage(ctx).value else old(tabPage))
      ensures sideMessages == old(sideMessages) +
        (if old(sidePanelView) && !atLoading.side then [Loading] else []) +
        (if !threw && sidePanelView then [ShowResults] else [])
      ensures tabMessages == old(tabMessages) +
        (if old(tabPanelView) && !atLoading.tab then [Loading] else []) +
        (if !threw && tabPanelView then [ShowResults] else [])
    {
      var currentId := ctx.current;
      var key := HistoryKey(currentId);
      var entry := Entry(query, outcome);
      PostMessageAll(Loading, atLoading);
      var history := HistoryAt(ctx.history, key);
      history := history + [entry];
      ctx.history := ctx.history[key := history];
      threw := Render(atRender);
      if !threw {
        PostMessageAll(ShowResults, atShow);
      }
    }

    /** `_handleDelete(index)`: one entry spliced out of the selected
        account's history, then a render. */
    method HandleDelete(index: int, faults: Faults) returns (threw: bool)
      modifies this, ctx`history
      ensures var key := HistoryKey(ctx.current);
        ctx.history == old(ctx.history)[key := SpliceOne(HistoryAt(old(ctx.history), key), index)]
      ensures threw <==> CurrentPage(ctx).None?
      ensures threw ==> sidePanelView == old(sidePanelView) && tabPanelView == old(tabPanelView) &&
                        sidePage == old(sidePage) && tabPage == old(tabPage)
      ensures !threw ==> sidePanelView == (old(sidePanelView) && !faults.side) &&
                         tabPanelView == (old(tabPanelView) && !faults.tab) &&
                         sidePage == (if sidePanelView then CurrentPage(ctx).value else old(sidePage)) &&
                         tabPage == (if tabPanelView then CurrentPage(ctx).value else old(tabPage))
      ensures sideMessages == old(sideMessages) && tabMessages == old(tabMessages)
    {
      var currentId := ctx.current;
      var key := HistoryKey(currentId);
      var history := HistoryAt(ctx.history, key);
      history := SpliceOne(history, index);
      ctx.history := ctx.history[key := history];
      threw := Render(faults);
    }
  }

  /** Appending to one account's history leaves every other account's history as it was. */
  lemma AppendKeepsOtherHistories(history: map<string, seq<Entry>>, a: string, b: string, e: Entry)
    requires a != b
    ensures var key := HistoryKey(Some(a));
      HistoryAt(history[key := HistoryAt(history, key) + [e]], HistoryKey(Some(b))) == HistoryAt(history, HistoryKey(Some(b)))
  {
    HistoryKeysDistinct(a, b);
  }

  /** An entry that cannot be rendered breaks every later render of that
      account's page, whatever is appended after it. */
  lemma BrokenEntryBreaksLaterRenders(history: seq<Entry>, k: nat, more: seq<Entry>)
    requires k < |history| && RenderEntry(history[k]).None?
    ensures RenderHistory(history + more).None?
  {
    assert (history + more)[k] == history[k];
  }
}
