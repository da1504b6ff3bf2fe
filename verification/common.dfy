/** Failure-carrying result types shared by every model. */
module Common {
  datatype Option<+T> = None | Some(value: T)

  datatype Result<+T, +E> = Ok(value: T) | Err(error: E)

  /** No two keys of `m` carry the same value: what a unique column means. */
  ghost predicate Injective<K, V>(m: map<K, V>) {
    forall j, k :: j in m && k in m && m[j] == m[k] ==> j == k
  }

  /** The key a `SELECT ... WHERE column = v` on a unique column finds. */
  ghost function Lookup<K, V>(m: map<K, V>, v: V): (r: Option<K>)
    ensures r.Some? ==> r.value in m && m[r.value] == v
    ensures r.None? ==> forall k :: k in m ==> m[k] != v
  {
    if k :| k in m && m[k] == v then
      var k :| k in m && m[k] == v;
      Some(k)
    else
      None
  }

  lemma LookupUnique<K, V>(m: map<K, V>, k: K)
    requires Injective(m) && k in m
    ensures Lookup(m, m[k]) == Some(k)
  {
  }
}
