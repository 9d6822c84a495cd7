/** Python dictionaries with string keys as the pipeline uses them: an
    ordered list of (key, value) entries, because iteration follows
    insertion order. Assigning to an existing key keeps its position; a new
    key is appended. */
module Dicts {
  import opened Outcomes

  type Dict = seq<(string, string)>

  function Keys(d: Dict): (ks: seq<string>)
    ensures |ks| == |d|
    ensures forall i :: 0 <= i < |d| ==> ks[i] == d[i].0
  {
    if d == [] then [] else [d[0].0] + Keys(d[1..])
  }

  /** `d.get(k)`. */
  function Lookup(d: Dict, k: string): (r: Option<string>)
    ensures r.Some? <==> k in Keys(d)
  {
    if d == [] then None else if d[0].0 == k then Some(d[0].1) else Lookup(d[1..], k)
  }

  lemma {:induction false} LookupAppend(d: Dict, k: string, v: string, j: string)
    ensures Lookup(d + [(k, v)], j) == if j in Keys(d) then Lookup(d, j) else if j == k then Some(v) else None
  {
    if d != [] {
      assert (d + [(k, v)])[1..] == d[1..] + [(k, v)];
      LookupAppend(d[1..], k, v, j);
      assert j in Keys(d) <==> j == d[0].0 || j in Keys(d[1..]);
    }
  }

  /** `d[k] = v`. */
  function SetItem(d: Dict, k: string, v: string): (r: Dict)
    ensures Keys(r) == if k in Keys(d) then Keys(d) else Keys(d) + [k]
    ensures Lookup(r, k) == Some(v)
    ensures forall j :: j != k ==> Lookup(r, j) == Lookup(d, j)
  {
    if d == [] then [(k, v)]
    else if d[0].0 == k then [(k, v)] + d[1..]
    else
      var r := [d[0]] + SetItem(d[1..], k, v);
      assert r[1..] == SetItem(d[1..], k, v);
      assert Keys(d) == [d[0].0] + Keys(d[1..]);
      r
  }

  /** `d.setdefault(k, v)`: `d` gains `(k, v)` only when `k` is absent. */
  function SetDefault(d: Dict, k: string, v: string): (r: Dict)
    ensures Keys(r) == if k in Keys(d) then Keys(d) else Keys(d) + [k]
    ensures Lookup(r, k) == if k in Keys(d) then Lookup(d, k) else Some(v)
    ensures forall j :: j != k ==> Lookup(r, j) == Lookup(d, j)
  {
    if k in Keys(d) then d
    else
      var r := d + [(k, v)];
      forall j ensures Lookup(r, j) == if j in Keys(d) then Lookup(d, j) else if j == k then Some(v) else None {
        LookupAppend(d, k, v, j);
      }
      r
  }

  /** Setting a new key and then defaulting another new one appends
      both, in that order. */
  lemma SetThenDefault(d: Dict, x: string, u: string, y: string, v: string)
    requires x !in Keys(d) && y !in Keys(d) && y != x
    ensures var r := SetDefault(SetItem(d, x, u), y, v);
      Keys(r) == Keys(d) + [x, y] && Lookup(r, x) == Some(u) && Lookup(r, y) == Some(v)
      && forall k :: k != x && k != y ==> Lookup(r, k) == Lookup(d, k)
  {
    var e := SetItem(d, x, u);
    assert y !in Keys(e) by {
      assert Keys(e) == Keys(d) + [x];
    }
    assert Keys(d) + [x] + [y] == Keys(d) + [x, y];
  }
}
