/**
 * Python dictionaries whose iteration order matters, as sequences of
 * key/value pairs in insertion order with distinct keys, and the running
 * decimal totals kept in plain dictionaries.
 */
module Dicts {
  import opened Wrappers

  /** The keys of `d`, in insertion order: `list(d.keys())`. */
  function Keys<K, V>(d: seq<(K, V)>): (ks: seq<K>)
    ensures |ks| == |d| && forall i :: 0 <= i < |d| ==> ks[i] == d[i].0
  {
    seq(|d|, i requires 0 <= i < |d| => d[i].0)
  }

  predicate Distinct<K(==)>(ks: seq<K>) {
    forall i, j :: 0 <= i < j < |ks| ==> ks[i] != ks[j]
  }

  /** `d.get(k)`. */
  function Get<K(==), V>(d: seq<(K, V)>, k: K): (r: Option<V>)
    ensures r.None? <==> k !in Keys(d)
    decreases |d|
  {
    if d == [] then None
    else if d[0].0 == k then Some(d[0].1)
    else
      assert Keys(d) == [d[0].0] + Keys(d[1..]);
      Get(d[1..], k)
  }

  /** With distinct keys, looking up the key at position `i` finds the value at position `i`. */
  lemma {:induction false} GetAt<K, V>(d: seq<(K, V)>, i: int)
    requires Distinct(Keys(d)) && 0 <= i < |d|
    ensures Get(d, d[i].0) == Some(d[i].1)
    decreases |d|
  {
    if i > 0 {
      assert d[0].0 != d[i].0 by { assert Keys(d)[0] != Keys(d)[i]; }
      assert Keys(d[1..]) == Keys(d)[1..];
      GetAt(d[1..], i - 1);
    }
  }

  /** `d[k] = v`: an existing key keeps its place and takes the new value; a new key goes last. */
  function Put<K(==, !new), V>(d: seq<(K, V)>, k: K, v: V): (r: seq<(K, V)>)
    requires Distinct(Keys(d))
    ensures Distinct(Keys(r))
    ensures k in Keys(d) ==> |r| == |d| && Keys(r) == Keys(d)
    ensures k !in Keys(d) ==> Keys(r) == Keys(d) + [k] && r == d + [(k, v)]
    ensures Get(r, k) == Some(v)
    ensures forall j :: j != k ==> Get(r, j) == Get(d, j)
  {
    if k in Keys(d) then
      var r := seq(|d|, i requires 0 <= i < |d| => if d[i].0 == k then (k, v) else d[i]);
      assert Keys(r) == Keys(d);
      PutLookup(d, k, v, r);
      r
    else
      var r := d + [(k, v)];
      assert Keys(r) == Keys(d) + [k];
      PutLookup(d, k, v, r);
      r
  }

  lemma PutLookup<K(!new), V>(d: seq<(K, V)>, k: K, v: V, r: seq<(K, V)>)
    requires Distinct(Keys(d)) && Distinct(Keys(r))
    requires (|r| == |d| && k in Keys(d)) || (|r| == |d| + 1 && r[|d|] == (k, v) && k !in Keys(d))
    requires forall i :: 0 <= i < |d| ==> r[i] == if d[i].0 == k then (k, v) else d[i]
    ensures Get(r, k) == Some(v)
    ensures forall j :: j != k ==> Get(r, j) == Get(d, j)
  {
    if |r| == |d| {
      var i :| 0 <= i < |d| && Keys(d)[i] == k;
      assert r[i] == (k, v);
      GetAt(r, i);
    } else {
      GetAt(r, |d|);
    }
    forall j | j != k ensures Get(r, j) == Get(d, j) {
      PutLookupOther(d, k, v, r, j);
    }
  }

  lemma PutLookupOther<K, V>(d: seq<(K, V)>, k: K, v: V, r: seq<(K, V)>, j: K)
    requires Distinct(Keys(d)) && Distinct(Keys(r)) && j != k
    requires |r| == |d| || (|r| == |d| + 1 && r[|d|] == (k, v))
    requires forall i :: 0 <= i < |d| ==> r[i] == if d[i].0 == k then (k, v) else d[i]
    ensures Get(r, j) == Get(d, j)
  {
    if j in Keys(d) {
      var i :| 0 <= i < |d| && Keys(d)[i] == j;
      assert r[i] == d[i];
      GetAt(d, i);
      GetAt(r, i);
    } else {
      forall i | 0 <= i < |r| ensures Keys(r)[i] != j {
        if i < |d| { assert Keys(d)[i] != j; }
      }
    }
  }

  /** Writing to the key at position `i` replaces that entry's value and leaves every other entry as it was. */
  lemma PutAt<K(!new), V>(d: seq<(K, V)>, i: int, v: V)
    requires Distinct(Keys(d)) && 0 <= i < |d|
    ensures |Put(d, d[i].0, v)| == |d|
    ensures forall j :: 0 <= j < |d| ==> Put(d, d[i].0, v)[j] == if j == i then (d[i].0, v) else d[j]
  {
    assert d[i].0 in Keys(d) by { assert Keys(d)[i] == d[i].0; }
    forall j | 0 <= j < |d| && j != i ensures d[j].0 != d[i].0 {
      assert Keys(d)[j] != Keys(d)[i];
    }
  }

  /** Writing the next entry of a dictionary with distinct keys onto its prefix extends the prefix by that entry. */
  lemma PutNext<K(!new), V>(target: seq<(K, V)>, i: int)
    requires Distinct(Keys(target)) && 0 <= i < |target|
    ensures Distinct(Keys(target[..i]))
    ensures target[..i + 1] == target[..i] + [target[i]]
    ensures Put(target[..i], target[i].0, target[i].1) == target[..i + 1]
  {
    var pre := target[..i];
    assert Keys(pre) == Keys(target)[..i];
    forall j | 0 <= j < i ensures Keys(pre)[j] != target[i].0 {
      assert Keys(target)[j] != Keys(target)[i];
    }
  }

  /** `sum(d.values())` for decimal values. */
  function SumValues<K>(d: seq<(K, real)>): real
    decreases |d|
  {
    if d == [] then 0.0 else SumValues(d[..|d| - 1]) + d[|d| - 1].1
  }

  /** Appending an entry adds its value to the sum. */
  lemma SumValuesSnoc<K>(d: seq<(K, real)>, e: (K, real))
    ensures SumValues(d + [e]) == SumValues(d) + e.1
  {
    assert (d + [e])[..|d|] == d;
  }

  /** `totals[k] = totals.get(k, Decimal("0")) + x`. */
  function AddTo<K>(totals: map<K, real>, k: K, x: real): (r: map<K, real>)
    ensures k in r && r[k] == (if k in totals then totals[k] else 0.0) + x
    ensures r.Keys == totals.Keys + {k}
    ensures forall j :: j in totals && j != k ==> r[j] == totals[j]
  {
    totals[k := (if k in totals then totals[k] else 0.0) + x]
  }
}
