/** Python values as the server receives them in JSON bodies and keeps them in the
    session, reduced to what the server's code distinguishes. */
module PyValues {
  import opened Wrappers

  /** `None`, a boolean, a string, or any other value (a number, a list, a dict) with its
      truthiness. */
  datatype Value = Null | Bool(b: bool) | Str(s: string) | Other(truthy: bool)

  /** `d.get(key)`: `None` when the key is absent. */
  function Get(d: map<string, Value>, key: string): (r: Option<Value>)
    ensures r.Some? <==> key in d
    ensures r.Some? ==> r.value == d[key]
  {
    if key in d then Some(d[key]) else None
  }

  /** `d.get(key) is None`: the key is absent or holds `None`. */
  predicate IsNone(v: Option<Value>)
  {
    v.None? || v.value == Null
  }

  /** Python truthiness of `d.get(key)`. */
  predicate Truthy(v: Option<Value>)
  {
    match v
    case None => false
    case Some(Null) => false
    case Some(Bool(b)) => b
    case Some(Str(s)) => s != []
    case Some(Other(t)) => t
  }
}
