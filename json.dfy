/** Decoded JSON values, in the shape Python's `json` module gives them to the handler. */
module Json {

  /** A JSON document after decoding: objects become dicts, integral literals `int`,
      other numeric literals `float`, `true`/`false` the `bool` values. */
  datatype Value =
    | Null
    | Bool(b: bool)
    | Int(i: int)
    | Float(x: real)
    | Str(s: string)
    | Array(items: seq<Value>)
    | Object(fields: map<string, Value>)

  /** Python's name for the type of a decoded value, as exception messages quote it. */
  function TypeName(v: Value): string {
    match v
    case Null => "NoneType"
    case Bool(_) => "bool"
    case Int(_) => "int"
    case Float(_) => "float"
    case Str(_) => "str"
    case Array(_) => "list"
    case Object(_) => "dict"
  }

  /** Whether Python can evaluate `v <= 0`: `bool` is a subtype of `int`, and `float`
      compares with `int`; every other decoded type raises `TypeError`. */
  predicate IsNumber(v: Value) {
    v.Bool? || v.Int? || v.Float?
  }

  /** The number a comparable value stands for (`True` is 1, `False` is 0). */
  function Numeric(v: Value): real
    requires IsNumber(v)
  {
    match v
    case Bool(b) => if b then 1.0 else 0.0
    case Int(i) => i as real
    case Float(x) => x
  }
}
