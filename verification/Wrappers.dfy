// Values shared by every part: optional values, results, and maps read and written one
// key at a time.
module Wrappers {
  datatype Option<+T> = None | Some(value: T)

  datatype Result<+T, +E> = Ok(value: T) | Err(error: E)

  function Lookup<K, V>(m: map<K, V>, k: K): Option<V> { if k in m then Some(m[k]) else None }

  function Put<K, V>(m: map<K, V>, k: K, v: Option<V>): map<K, V>
  {
    match v
    case None => m - {k}
    case Some(x) => m[k := x]
  }
}
