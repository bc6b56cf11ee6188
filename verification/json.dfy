/** Values as `JSON.parse` yields them, and the few JavaScript operators the
    extension applies to them: truthiness, `||`, member access and `Object.keys`. */
module Json {

  /** `None` stands for JavaScript's `undefined`. */
  datatype Option<+T> = None | Some(value: T)

  /** A parsed JSON value. Numbers are integers here; an object keeps its
      members in the order they were written. */
  datatype Value =
    | Null
    | Bool(b: bool)
    | Num(n: int)
    | Str(s: string)
    | Arr(elems: seq<Value>)
    | Obj(members: seq<(string, Value)>)

  /** JavaScript truthiness of a value that may be `undefined`. */
  predicate Truthy(v: Option<Value>) {
    match v
    case None => false
    case Some(Null) => false
    case Some(Bool(b)) => b
    case Some(Num(n)) => n != 0
    case Some(Str(s)) => s != ""
    case Some(_) => true
  }

  /** `v || fallback` */
  function Or(v: Option<Value>, fallback: Value): (r: Value)
    ensures Truthy(v) ==> Some(r) == v
    ensures !Truthy(v) ==> r == fallback
  {
    if Truthy(v) then v.value else fallback
  }

  /** Truthiness of a string field that may be `undefined`. */
  predicate Present(s: Option<string>) {
    s.Some? && s.value != ""
  }

  /** A string field as a template literal shows it (`${x}`). */
  function Shown(s: Option<string>): string {
    match s
    case Some(t) => t
    case None => "undefined"
  }

  /** The value of the first member named `k`. */
  function Lookup(members: seq<(string, Value)>, k: string): (r: Option<Value>)
    ensures r.None? <==> forall i :: 0 <= i < |members| ==> members[i].0 != k
    ensures r.Some? ==> exists i :: 0 <= i < |members| && members[i] == (k, r.value)
  {
    if |members| == 0 then None
    else if members[0].0 == k then Some(members[0].1)
    else Lookup(members[1..], k)
  }

  /** `v?.[k]`: only objects have members; anything else, and `undefined`, gives `undefined`. */
  function Member(v: Option<Value>, k: string): Option<Value> {
    match v
    case Some(Obj(members)) => Lookup(members, k)
    case _ => None
  }

  // ---------------------------------------------------------------------------
  // Object.keys: array-index names first, in ascending numeric order, then
  // every other name in the order it was written

  predicate IsDigits(k: string) {
    forall i :: 0 <= i < |k| ==> '0' <= k[i] <= '9'
  }

  /** The number a string of decimal digits denotes. */
  function DecimalValue(k: string): nat
    requires IsDigits(k)
  {
    if k == [] then 0 else DecimalValue(k[..|k| - 1]) * 10 + (k[|k| - 1] as int - '0' as int)
  }

  /** An array index: the canonical decimal form (no sign, no leading zero)
      of an integer below 2^32 - 1. */
  predicate IsIndexKey(k: string) {
    |k| > 0 && IsDigits(k) && (k[0] == '0' ==> |k| == 1) && DecimalValue(k) < 0xFFFF_FFFF
  }

  /** Array-index names in ascending numeric order. */
  predicate Ascending(ks: seq<string>) {
    (forall i :: 0 <= i < |ks| ==> IsIndexKey(ks[i])) &&
    forall i :: 0 <= i < |ks| - 1 ==> DecimalValue(ks[i]) <= DecimalValue(ks[i + 1])
  }

  /** The member names, in the order written. */
  function Names(members: seq<(string, Value)>): (ns: seq<string>)
    ensures |ns| == |members| && forall i :: 0 <= i < |ns| ==> ns[i] == members[i].0
  {
    seq(|members|, i requires 0 <= i < |members| => members[i].0)
  }

  /** The names that are (`index`) or are not (`!index`) array indices, in their order. */
  function NamesWhere(ns: seq<string>, index: bool): (r: seq<string>)
    ensures forall i :: 0 <= i < |r| ==> IsIndexKey(r[i]) == index
    ensures |ns| == 1 ==> r == (if IsIndexKey(ns[0]) == index then ns else [])
  {
    if ns == [] then []
    else (if IsIndexKey(ns[0]) == index then [ns[0]] else []) + NamesWhere(ns[1..], index)
  }

  /** Splitting keeps order and repetitions: filtering a concatenation is
      concatenating the filtered parts. */
  lemma {:induction false} NamesWhereConcat(a: seq<string>, b: seq<string>, index: bool)
    ensures NamesWhere(a + b, index) == NamesWhere(a, index) + NamesWhere(b, index)
  {
    if a == [] {
      assert a + b == b;
    } else {
      assert (a + b)[0] == a[0];
      assert (a + b)[1..] == a[1..] + b;
      NamesWhereConcat(a[1..], b, index);
    }
  }

  /** Every name lands in exactly one of the two parts. */
  lemma {:induction false} NamesWherePartition(ns: seq<string>)
    ensures multiset(NamesWhere(ns, true)) + multiset(NamesWhere(ns, false)) == multiset(ns)
  {
    if ns != [] {
      NamesWherePartition(ns[1..]);
      assert ns == [ns[0]] + ns[1..];
    }
  }

  /** Inserts an array index into an ascending list of them. */
  function InsertIndex(k: string, ks: seq<string>): (r: seq<string>)
    requires IsIndexKey(k) && Ascending(ks)
    ensures Ascending(r)
    ensures multiset(r) == multiset(ks) + multiset{k}
    ensures |r| > 0 && (r[0] == k || (|ks| > 0 && r[0] == ks[0]))
  {
    if ks == [] || DecimalValue(k) <= DecimalValue(ks[0]) then [k] + ks
    else
      var rest := InsertIndex(k, ks[1..]);
      assert ks == [ks[0]] + ks[1..];
      assert multiset([ks[0]] + rest) == multiset{ks[0]} + multiset(rest);
      [ks[0]] + rest
  }

  /** Array-index names sorted by their numeric value. */
  function SortIndices(ks: seq<string>): (r: seq<string>)
    requires forall i :: 0 <= i < |ks| ==> IsIndexKey(ks[i])
    ensures Ascending(r)
    ensures multiset(r) == multiset(ks)
  {
    if ks == [] then []
    else
      assert ks == [ks[0]] + ks[1..];
      InsertIndex(ks[0], SortIndices(ks[1..]))
  }

  /** `Object.keys(v)` of a non-null value: the array-index names sorted
      numerically, then the other names in the order written (see `KeysOrder`). */
  function Keys(v: Value): (ks: seq<string>)
    ensures !v.Obj? ==> ks == []
    ensures v.Obj? ==> |ks| == |v.members|
  {
    match v
    case Obj(members) =>
      var ns := Names(members);
      NamesWherePartition(ns);
      var indices := SortIndices(NamesWhere(ns, true));
      assert |multiset(indices + NamesWhere(ns, false))| == |multiset(ns)|;
      indices + NamesWhere(ns, false)
    case _ => []
  }

  /** The keys are the member names, each as often as it is written; the
      array indices come first in ascending order, and the other names
      follow in their written order. */
  lemma KeysOrder(members: seq<(string, Value)>)
    ensures var ks := Keys(Obj(members));
      var n := |NamesWhere(Names(members), true)|;
      multiset(ks) == multiset(Names(members)) &&
      n <= |ks| && Ascending(ks[..n]) && ks[n..] == NamesWhere(Names(members), false)
  {
    var ns := Names(members);
    NamesWherePartition(ns);
    var indices := SortIndices(NamesWhere(ns, true));
    assert |indices| == |NamesWhere(ns, true)| by {
      assert |multiset(indices)| == |multiset(NamesWhere(ns, true))|;
    }
    var ks := indices + NamesWhere(ns, false);
    assert Keys(Obj(members)) == ks;
    assert ks[..|indices|] == indices && ks[|indices|..] == NamesWhere(ns, false);
  }

  /** A first row written `{"b": 1, "1": 2}` has the headers "1", "b". */
  lemma KeysListIndicesFirst()
    ensures Keys(Obj([("b", Num(1)), ("1", Num(2))])) == ["1", "b"]
  {
    var ns := Names([("b", Num(1)), ("1", Num(2))]);
    assert ns == ["b"] + ["1"];
    assert "1"[..0] == [];
    assert DecimalValue("1") == 1;
    assert IsIndexKey("1");
    assert !IsDigits("b") by { assert !('0' <= "b"[0] <= '9'); }
    NamesWhereConcat(["b"], ["1"], true);
    NamesWhereConcat(["b"], ["1"], false);
    assert NamesWhere(ns, true) == ["1"];
    assert NamesWhere(ns, false) == ["b"];
    assert SortIndices([]) == [];
    assert SortIndices(["1"]) == ["1"];
  }
}
