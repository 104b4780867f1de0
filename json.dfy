/** JSON documents as a response's `json()` hands them to the client. */
module Json {

  /** A parsed JSON value. Integers and floats stay apart, as Python's
      `json` module keeps them apart; floats are modelled as reals. */
  datatype Value =
    | Null
    | Bool(b: bool)
    | Int(i: int)
    | Float(r: real)
    | Str(s: string)
    | Arr(items: seq<Value>)
    | Obj(fields: map<string, Value>)

  /** A JSON object: the response body the client reads with `data.get`. */
  type Object = map<string, Value>

  /** `d.get(key)`: the value under `key`, or `None` when the key is absent. */
  function Get(d: Object, key: string): Value
  {
    if key in d then d[key] else Null
  }

  /** Python truthiness of a JSON value, as `if error_type:` tests it. */
  predicate Truthy(v: Value)
  {
    match v
    case Null => false
    case Bool(b) => b
    case Int(i) => i != 0
    case Float(r) => r != 0.0
    case Str(s) => s != ""
    case Arr(items) => items != []
    case Obj(fields) => fields != map[]
  }
}
