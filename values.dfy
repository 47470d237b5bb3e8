/** The values that node configurations and service payloads carry, with the
    truthiness rules of the two languages the system is written in: the
    browser client (JavaScript) and the server services (Python). */
module Values {

  datatype Option<T> = None | Some(value: T) {
    function GetOr(default: T): T {
      match this
      case Some(v) => v
      case None => default
    }
  }

  datatype Result<T, E> = Ok(value: T) | Err(error: E)

  /** A field of a JSON-like object. Numbers are split into integers and
      exact reals (no floating-point rounding); a browser File object is kept
      by its name only; a nested object is a map from its keys. */
  datatype Value =
    | Null
    | Bool(b: bool)
    | Int(i: int)
    | Real(r: real)
    | Str(s: string)
    | List(items: seq<Value>)
    | File(name: string)
    | Obj(fields: map<string, Value>)

  /** A JSON object of fields: a node's configuration (`node.data.config` in
      the client), or the `node["data"]` dictionary the server reads. */
  type Config = map<string, Value>

  /** JavaScript's ToBoolean: objects (arrays, files) are always truthy. */
  predicate JsTruthy(v: Value) {
    match v
    case Null => false
    case Bool(b) => b
    case Int(i) => i != 0
    case Real(r) => r != 0.0
    case Str(s) => s != ""
    case List(_) => true
    case File(_) => true
    case Obj(_) => true
  }

  /** Python's truth value: an empty list or dictionary is false. */
  predicate PyTruthy(v: Value) {
    match v
    case Null => false
    case Bool(b) => b
    case Int(i) => i != 0
    case Real(r) => r != 0.0
    case Str(s) => s != ""
    case List(items) => items != []
    case File(_) => true
    case Obj(fields) => fields != map[]
  }

  /** Python's `d.get(key)` used as a condition: a missing key reads as None. */
  predicate PyGetTruthy(c: Config, key: string) {
    key in c && PyTruthy(c[key])
  }

  /** JavaScript's `config.key || fallback`: a missing key reads as undefined. */
  function JsOr(c: Config, key: string, fallback: Value): Value
  {
    if key in c && JsTruthy(c[key]) then c[key] else fallback
  }

  /** JavaScript's `config.key ?? fallback`: only a missing key or null falls back. */
  function JsNullish(c: Config, key: string, fallback: Value): Value
  {
    if key in c && c[key] != Null then c[key] else fallback
  }
}
