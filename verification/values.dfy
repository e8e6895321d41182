/** Small value types shared by the whole model: optional values standing in
    for JavaScript's `undefined`, a success/error result standing in for a
    thrown exception, and the truthiness tests the source applies to them. */
module Values {

  /** `None` is a field that is absent or `undefined`. */
  datatype Option<+T> = None | Some(value: T) {

    /** The value, or `default` when absent. */
    function GetOr(default: T): (r: T)
      ensures Some? ==> r == value
      ensures None? ==> r == default
    {
      match this
      case Some(v) => v
      case None => default
    }
  }

  /** The value stored under `k`, or `None` when there is none. */
  function Lookup<K, V>(m: map<K, V>, k: K): (r: Option<V>)
    ensures r.Some? <==> k in m
    ensures r.Some? ==> r.value == m[k]
  {
    if k in m then Some(m[k]) else None
  }

  /** A computation that either returns a value or throws `error`. */
  datatype Result<+T, +E> = Ok(value: T) | Err(error: E)

  /** JavaScript truthiness of an optional string: `undefined` and `''` are falsy. */
  predicate TruthyString(s: Option<string>)
  {
    s.Some? && s.value != ""
  }

  /** JavaScript truthiness of an optional integer: `undefined` and `0` are falsy. */
  predicate TruthyInt(n: Option<int>)
  {
    n.Some? && n.value != 0
  }

  /** JavaScript truthiness of an optional boolean. */
  predicate TruthyBool(b: Option<bool>)
  {
    b == Some(true)
  }

  /** The idiom `x ? x : undefined` on a string: a falsy value becomes `undefined`. */
  function StringOrUndefined(s: Option<string>): (r: Option<string>)
    ensures r.Some? <==> TruthyString(s)
    ensures r.Some? ==> r == s
  {
    if TruthyString(s) then s else None
  }

  /** The idiom `x ? x : undefined` on a number. */
  function IntOrUndefined(n: Option<int>): (r: Option<int>)
    ensures r.Some? <==> TruthyInt(n)
    ensures r.Some? ==> r == n
  {
    if TruthyInt(n) then n else None
  }
}
