/** The account states the two timing simulators keep in their blocks
    (`update_state`, `get_state`), and Python's `dict.get`, which both of
    them also use on their own bookkeeping dictionaries. */
module StateMaps {

  /** `d.get(k, default)` */
  function Lookup<K, V>(d: map<K, V>, k: K, default: V): (r: V)
    ensures k in d ==> r == d[k]
    ensures k !in d ==> r == default
  {
    if k in d then d[k] else default
  }

  /** `update_state(s, k, v)`: a fresh copy of `s` in which `k` maps to
      `v`. Maps are values here, so the copy the source makes by hand is
      what `s[k := v]` already is, and `s` stays as it was. */
  function UpdateState<K, V>(s: map<K, V>, k: K, v: V): (r: map<K, V>)
    ensures r.Keys == s.Keys + {k}
    ensures r[k] == v
    ensures forall j :: j in s && j != k ==> r[j] == s[j]
  {
    s[k := v]
  }

  /** Reading a key back after `update_state` gives the value written there,
      and any other key reads as before, whether it was present or not. */
  lemma LookupUpdate<K, V>(s: map<K, V>, k: K, v: V, j: K, default: V)
    ensures Lookup(UpdateState(s, k, v), j, default) == if j == k then v else Lookup(s, j, default)
  {
  }
}
