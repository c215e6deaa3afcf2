/** Python dictionaries whose iteration order matters: a map together with the order in
    which its keys were first inserted. Assigning to an existing key keeps its place;
    assigning to a new key appends it, as CPython's `dict` does. */
module Dicts {

  datatype Dict<K(==), V> = Dict(order: seq<K>, m: map<K, V>)

  predicate Distinct<K(==)>(s: seq<K>)
  {
    forall i, j :: 0 <= i < j < |s| ==> s[i] != s[j]
  }

  /** The dict invariant: every key once in the order, and the order lists the map's keys. */
  predicate Wf<K(==), V>(d: Dict<K, V>)
  {
    && Distinct(d.order)
    && (forall k | k in d.m :: k in d.order)
    && (forall i | 0 <= i < |d.order| :: d.order[i] in d.m)
  }

  function Empty<K(==), V>(): (r: Dict<K, V>)
    ensures Wf(r) && r.order == [] && r.m == map[]
  {
    Dict([], map[])
  }

  /** `d[k] = v`. */
  function Put<K(==), V>(d: Dict<K, V>, k: K, v: V): (r: Dict<K, V>)
    ensures Wf(d) ==> Wf(r)
    ensures r.m == d.m[k := v]
    ensures k in d.m ==> r.order == d.order
    ensures k !in d.m ==> r.order == d.order + [k]
  {
    if k in d.m then Dict(d.order, d.m[k := v]) else Dict(d.order + [k], d.m[k := v])
  }

  /** A key missing from a well-formed dict's order is missing from the dict. */
  lemma NotInOrder<K, V>(d: Dict<K, V>, k: K)
    requires Wf(d) && k !in d.order
    ensures k !in d.m
  {
  }

  /** A non-empty list is its prefix followed by its last element. */
  lemma PrefixAndLast<K>(s: seq<K>)
    requires |s| > 0
    ensures s[..|s| - 1] + [s[|s| - 1]] == s
  {
  }

  /** A list's first `n` elements are its first `n - 1` followed by element `n - 1`. */
  lemma PrefixStep<K>(s: seq<K>, n: nat)
    requires 0 < n <= |s|
    ensures s[..n] == s[..n - 1] + [s[n - 1]]
  {
    PrefixAndLast(s[..n]);
  }

  /** In a list without repeats, no element occurs before its own position. */
  lemma NotBefore<K>(s: seq<K>, n: nat)
    requires Distinct(s) && 0 < n <= |s|
    ensures s[n - 1] !in s[..n - 1]
  {
  }
}
