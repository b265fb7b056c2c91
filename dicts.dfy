/** Python's dict as the source uses it: key/value pairs in a fixed
    order, with assignment replacing the value of a present key in place
    and appending a new key at the end. The order is insertion order; the
    Python 2 interpreter the source targets iterates in hash-table order
    instead, so where the source depends on iteration order (the first of
    several equal maxima) the model fixes one of the orders the interpreter
    could produce, not necessarily its own. */
module Dicts {
  import opened Wrappers

  type Dict<K, V> = seq<(K, V)>

  ghost predicate DistinctKeys<K, V>(d: Dict<K, V>) {
    forall i, j :: 0 <= i < j < |d| ==> d[i].0 != d[j].0
  }

  function Keys<K, V>(d: Dict<K, V>): seq<K> {
    seq(|d|, i requires 0 <= i < |d| => d[i].0)
  }

  /** `d.values()` */
  function Values<K, V>(d: Dict<K, V>): seq<V> {
    seq(|d|, i requires 0 <= i < |d| => d[i].1)
  }

  predicate HasKey<K(==), V>(d: Dict<K, V>, k: K) {
    exists i :: 0 <= i < |d| && d[i].0 == k
  }

  /** Position of the first entry for `k`, or `|d|` when there is none. */
  function IndexOf<K(==), V>(d: Dict<K, V>, k: K): (i: nat)
    ensures i <= |d|
    ensures i < |d| ==> d[i].0 == k
    ensures forall j :: 0 <= j < i ==> d[j].0 != k
  {
    if d == [] then 0 else if d[0].0 == k then 0 else 1 + IndexOf(d[1..], k)
  }

  /** `d.get(k)`, with None for an absent key. */
  function Get<K(==), V>(d: Dict<K, V>, k: K): (r: Option<V>)
    ensures r.Some? <==> HasKey(d, k)
    ensures r.Some? ==> (k, r.value) in d
  {
    var i := IndexOf(d, k);
    if i < |d| then Some(d[i].1) else None
  }

  /** `d[k] = v` */
  function Set<K(==), V>(d: Dict<K, V>, k: K, v: V): (r: Dict<K, V>)
    ensures HasKey(d, k) ==> |r| == |d|
    ensures !HasKey(d, k) ==> |r| == |d| + 1 && r[|d|] == (k, v)
  {
    var i := IndexOf(d, k);
    if i < |d| then d[i := (k, v)] else d + [(k, v)]
  }

  /** Assignment replaces the first entry for `k`, if any, and leaves every
      other entry where it was. */
  lemma SetAt<K, V>(d: Dict<K, V>, k: K, v: V)
    ensures forall i :: 0 <= i < |d| ==> Set(d, k, v)[i] == if d[i].0 == k && i == IndexOf(d, k) then (k, v) else d[i]
  {
  }

  lemma {:induction false} IndexOfFirst<K, V>(d: Dict<K, V>, k: K, i: nat)
    requires i <= |d| && (i < |d| ==> d[i].0 == k)
    requires forall j :: 0 <= j < i ==> d[j].0 != k
    ensures IndexOf(d, k) == i
  {
    if d != [] && d[0].0 != k {
      IndexOfFirst(d[1..], k, i - 1);
    }
  }

  /** Reading back what was just written, and nothing else moves. */
  lemma GetSet<K, V>(d: Dict<K, V>, k: K, v: V, j: K)
    ensures Get(Set(d, k, v), j) == if j == k then Some(v) else Get(d, j)
  {
    var r := Set(d, k, v);
    var i := IndexOf(d, k);
    var ij := IndexOf(d, j);
    SetAt(d, k, v);
    if j == k {
      IndexOfFirst(r, k, i);
    } else {
      assert forall t :: 0 <= t < |d| ==> r[t].0 == d[t].0;
      IndexOfFirst(r, j, if ij < |d| then ij else |r|);
    }
  }

  /** Assignment keeps the keys distinct, and keeps the key order: an existing
      key stays where it was, a new key goes at the end. */
  lemma SetKeys<K, V>(d: Dict<K, V>, k: K, v: V)
    requires DistinctKeys(d)
    ensures DistinctKeys(Set(d, k, v))
    ensures Keys(Set(d, k, v)) == if HasKey(d, k) then Keys(d) else Keys(d) + [k]
  {
    var r := Set(d, k, v);
    SetAt(d, k, v);
    assert forall t :: 0 <= t < |d| ==> r[t].0 == d[t].0;
  }
}
