/** The loosely typed values that the operations copy from their input dictionaries into
    their output dictionaries, and the two pieces of Python semantics the operations rely on:
    truthiness and `d[key]` on a dictionary. */
module Values {
  import opened Wrappers

  /** A JSON-like Python value. Floats are not modelled. */
  datatype Value =
    | Null
    | Bool(b: bool)
    | Int(i: int)
    | Str(s: string)
    | List(items: seq<Value>)
    | Dict(entries: map<string, Value>)

  /** The `[]` default of `d.get(key, [])`. */
  const EmptyList: Value := List([])

  /** The `{}` default of `d.get(key, {})`. */
  const EmptyDict: Value := Dict(map[])

  /** `d.get(key)` without a default: a missing key reads as `None`. */
  function OrNull(o: Option<Value>): Value {
    o.GetOr(Null)
  }

  /** Python's truth test: `None`, `False`, `0`, `""`, `[]` and `{}` are false. */
  predicate Truthy(v: Value) {
    match v
    case Null => false
    case Bool(b) => b
    case Int(i) => i != 0
    case Str(s) => s != ""
    case List(items) => items != []
    case Dict(entries) => entries != map[]
  }

  /** The exception `d[key]` raises when `key` is not in `d`. */
  datatype KeyError = KeyError(key: string)

  /** `d[key]`: raises `KeyError(key)` when the key is absent. */
  function Lookup(d: map<string, Value>, key: string): (r: Result<Value, KeyError>)
    ensures r.Success? <==> key in d
    ensures r.Success? ==> r.value == d[key]
    ensures r.Failure? ==> r.error == KeyError(key)
  {
    if key in d then Success(d[key]) else Failure(KeyError(key))
  }
}
