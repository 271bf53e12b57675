/** JSON-like values and Python's insertion-ordered dictionaries.

    A dictionary is an association list whose keys are kept in insertion
    order; assigning to a key that is already present replaces its value in
    place, assigning to a new key appends it. This is the behaviour of
    `d[k] = v`, `d.update(...)` and the display `{**a, **b}`. */
module Json {
  import opened Wrappers

  datatype Value =
    | Null
    | Bool(b: bool)
    | Num(n: real)
    | Str(s: string)
    | Arr(items: seq<Value>)
    | Obj(fields: seq<(string, Value)>)

  type Dict = seq<(string, Value)>

  /** Python truthiness (`if v:`): `None`, `False`, zero and empty
      containers are false. */
  predicate Truthy(v: Value) {
    match v
    case Null => false
    case Bool(b) => b
    case Num(n) => n != 0.0
    case Str(s) => s != ""
    case Arr(items) => items != []
    case Obj(fields) => fields != []
  }

  /** `k in d`. */
  predicate HasKey(d: Dict, k: string) {
    exists i :: 0 <= i < |d| && d[i].0 == k
  }

  /** No key occurs twice: every Python dict has this shape. */
  predicate UniqueKeys(d: Dict) {
    forall i, j :: 0 <= i < j < |d| ==> d[i].0 != d[j].0
  }

  /** The position of the first entry with key `k`. */
  function IndexOf(d: Dict, k: string): (r: Option<nat>)
    ensures r.Some? ==> r.value < |d| && d[r.value].0 == k
    ensures r.Some? ==> forall j :: 0 <= j < r.value ==> d[j].0 != k
    ensures r.None? <==> !HasKey(d, k)
  {
    if |d| == 0 then None
    else if d[0].0 == k then Some(0)
    else match IndexOf(d[1..], k)
      case None =>
        assert forall j :: 1 <= j < |d| ==> d[j] == d[1..][j - 1];
        None
      case Some(i) => Some(i + 1)
  }

  /** The first position holding `k` is the one `IndexOf` reports. */
  lemma IndexOfFirst(d: Dict, k: string, j: nat)
    requires j < |d| && d[j].0 == k
    requires forall i :: 0 <= i < j ==> d[i].0 != k
    ensures IndexOf(d, k) == Some(j)
  {
    var r := IndexOf(d, k);
    assert r.Some?;
    if r.value < j {
    } else if r.value > j {
    }
  }

  /** `d.get(k)`: the value stored under `k`, if any. */
  function Get(d: Dict, k: string): (r: Option<Value>)
    ensures r.None? <==> !HasKey(d, k)
    ensures r.Some? ==> (k, r.value) in d
  {
    match IndexOf(d, k)
    case None => None
    case Some(i) => Some(d[i].1)
  }

  /** Two dictionaries that hold `k` at the same positions, with the same
      values there, store the same value under it. */
  lemma GetFrame(d: Dict, e: Dict, k: string)
    requires |d| == |e|
    requires forall j :: 0 <= j < |d| ==> (d[j].0 == k <==> e[j].0 == k)
    requires forall j :: 0 <= j < |d| && d[j].0 == k ==> d[j] == e[j]
    ensures Get(d, k) == Get(e, k)
  {
    var a := IndexOf(d, k);
    if a.Some? {
      IndexOfFirst(e, k, a.value);
    } else {
      assert !HasKey(e, k);
    }
  }

  /** `d[k] = v`. */
  function Set(d: Dict, k: string, v: Value): (r: Dict)
    ensures Get(r, k) == Some(v)
    ensures forall k' :: k' != k ==> Get(r, k') == Get(d, k')
    ensures HasKey(d, k) ==> |r| == |d|
    ensures !HasKey(d, k) ==> |r| == |d| + 1 && r[|d|] == (k, v)
    ensures forall i :: 0 <= i < |d| ==> r[i].0 == d[i].0
    ensures forall k' :: HasKey(r, k') <==> HasKey(d, k') || k' == k
    ensures UniqueKeys(d) ==> UniqueKeys(r)
  {
    match IndexOf(d, k)
    case Some(i) =>
      var r := d[i := (k, v)];
      IndexOfFirst(r, k, i);
      forall k' | k' != k ensures Get(r, k') == Get(d, k') {
        GetFrame(d, r, k');
      }
      assert forall k' :: HasKey(r, k') <==> HasKey(d, k') by {
        forall k' ensures HasKey(r, k') <==> HasKey(d, k') {
          if HasKey(d, k') { var j :| 0 <= j < |d| && d[j].0 == k'; assert r[j].0 == k'; }
          if HasKey(r, k') { var j :| 0 <= j < |r| && r[j].0 == k'; assert d[j].0 == k'; }
        }
      }
      r
    case None =>
      var r := d + [(k, v)];
      IndexOfFirst(r, k, |d|);
      forall k' | k' != k ensures Get(r, k') == Get(d, k') {
        var a := IndexOf(d, k');
        if a.Some? {
          IndexOfFirst(r, k', a.value);
        } else {
          assert !HasKey(r, k');
        }
      }
      assert forall k' :: HasKey(r, k') <==> HasKey(d, k') || k' == k by {
        forall k' ensures HasKey(r, k') <==> HasKey(d, k') || k' == k {
          if HasKey(d, k') { var j :| 0 <= j < |d| && d[j].0 == k'; assert r[j].0 == k'; }
          if k' == k { assert r[|d|].0 == k'; }
        }
      }
      r
  }

  /** `{**a, **b}`: the entries of `b` assigned one by one, in order, onto `a`.
      The keys of `a` keep their positions; new keys follow them. */
  function Merge(a: Dict, b: Dict): (r: Dict)
    ensures forall k :: HasKey(r, k) <==> HasKey(a, k) || HasKey(b, k)
    ensures |a| <= |r| && forall i :: 0 <= i < |a| ==> r[i].0 == a[i].0
    ensures UniqueKeys(a) ==> UniqueKeys(r)
    decreases |b|
  {
    if |b| == 0 then a
    else
      var a' := Set(a, b[0].0, b[0].1);
      var r := Merge(a', b[1..]);
      HasKeyTail(b);
      r
  }

  /** A key of `b` is its first key or a key of the rest. */
  lemma HasKeyTail(b: Dict)
    requires |b| > 0
    ensures forall k :: HasKey(b, k) <==> k == b[0].0 || HasKey(b[1..], k)
  {
    forall k ensures HasKey(b, k) <==> k == b[0].0 || HasKey(b[1..], k) {
      if HasKey(b, k) && k != b[0].0 { var j :| 0 <= j < |b| && b[j].0 == k; assert b[1..][j - 1].0 == k; }
      if HasKey(b[1..], k) { var j :| 0 <= j < |b| - 1 && b[1..][j].0 == k; assert b[j + 1].0 == k; }
    }
  }

  /** In `{**a, **b}` the value under a key comes from `b` when `b` has
      that key, and from `a` otherwise. */
  lemma {:induction false} MergeGet(a: Dict, b: Dict, k: string)
    requires UniqueKeys(b)
    ensures Get(Merge(a, b), k) == if HasKey(b, k) then Get(b, k) else Get(a, k)
    decreases |b|
  {
    if |b| > 0 {
      var a' := Set(a, b[0].0, b[0].1);
      HasKeyTail(b);
      assert UniqueKeys(b[1..]);
      MergeGet(a', b[1..], k);
      if k == b[0].0 {
        assert !HasKey(b[1..], k);
        IndexOfFirst(b, k, 0);
      } else if HasKey(b[1..], k) {
        var j := IndexOf(b[1..], k).value;
        IndexOfFirst(b, k, j + 1);
      }
    }
  }
}
