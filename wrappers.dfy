/** Optional values and the "look up a key, fall back to a default" pattern that
    every rule access of the pricing engine goes through. */
module Wrappers {

  /** A JSON value that may be absent. */
  datatype Option<+T> = None | Some(value: T) {

    /** The value if present, otherwise `default` (Python's `d.get(key, default)`). */
    function GetOr(default: T): (r: T)
      ensures Some? ==> r == value
      ensures None? ==> r == default
    {
      match this
      case Some(v) => v
      case None => default
    }
  }

  /** Defaulted lookup in a JSON object: `m.get(k, d)`. */
  function Lookup<K, V>(m: map<K, V>, k: K, d: V): (r: V)
    ensures k in m ==> r == m[k]
    ensures k !in m ==> r == d
  {
    if k in m then m[k] else d
  }

  function Abs(x: real): (r: real)
    ensures r >= 0.0
    ensures r == x || r == -x
  {
    if x < 0.0 then -x else x
  }

  function Min(x: real, y: real): (r: real)
    ensures r <= x && r <= y
    ensures r == x || r == y
  {
    if x <= y then x else y
  }

  function Max(x: real, y: real): (r: real)
    ensures r >= x && r >= y
    ensures r == x || r == y
  {
    if x >= y then x else y
  }
}
