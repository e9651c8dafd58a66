/** Option and Result, the two shapes the configuration code passes values around in. */
module Wrappers {

  /** Rust's `Option<T>`. */
  datatype Option<+T> = None | Some(value: T) {

    /** `Option::unwrap_or`: the carried value, or `default` when there is none. */
    function UnwrapOr(default: T): (r: T)
      ensures Some? ==> r == value
      ensures None? ==> r == default
    {
      match this
      case Some(v) => v
      case None => default
    }

    /** `Option::and_then`: feed the carried value to `f`, or stay `None`. */
    function AndThen<U>(f: T -> Option<U>): (r: Option<U>)
      ensures None? ==> r == None
      ensures Some? ==> r == f(value)
    {
      match this
      case Some(v) => f(v)
      case None => None
    }
  }

  /** The outcome of a store operation: the value, or the fatal error it would have panicked with. */
  datatype Result<+T, +E> = Success(value: T) | Failure(error: E)

  /** `HashMap::get`: the entry for `key`, if any. */
  function Lookup<K, V>(m: map<K, V>, key: K): (r: Option<V>)
    ensures r.Some? <==> key in m
    ensures r.Some? ==> r.value == m[key]
  {
    if key in m then Some(m[key]) else None
  }
}
