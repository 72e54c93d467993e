/** An optional value: a header, cookie or option that may be absent. */
module Optional {

  datatype Option<+T> = None | Some(value: T)

  /** Looks a key up in a map, None when the key is missing. */
  function Lookup<K, V>(m: map<K, V>, k: K): (r: Option<V>)
    ensures r.Some? <==> k in m
    ensures r.Some? ==> r.value == m[k]
  {
    if k in m then Some(m[k]) else None
  }
}
