/** Option and Result, the two shapes every JavaScript "maybe undefined" and
    "may throw" is modelled with. */
module Wrappers {

  datatype Option<+T> = None | Some(value: T) {
    function GetOr(default: T): T {
      match this
      case Some(v) => v
      case None => default
    }
  }

  /** `Err` stands for a thrown `Error`; the handlers never return a value
      and throw at the same time. */
  datatype Result<+T, +E> = Ok(value: T) | Err(error: E)

  /** The value a JavaScript object key holds, or `undefined` (None). */
  function Lookup<K, V>(m: map<K, V>, k: K): Option<V> {
    if k in m then Some(m[k]) else None
  }
}
