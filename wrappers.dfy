/** The optional value returned by a partial lookup. */
module Wrappers {

  datatype Option<+T> = None | Some(value: T)

  /** Looks `k` up in `m`: absence is `None`, never a default value. */
  function Lookup<K, V>(m: map<K, V>, k: K): (r: Option<V>)
    ensures r.Some? <==> k in m
    ensures r.Some? ==> r.value == m[k]
  {
    if k in m then Some(m[k]) else None
  }
}
