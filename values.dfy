/** Option and Result, the two failure-carrying wrappers the model uses. */
module Wrappers {
  datatype Option<+T> = None | Some(value: T) {
    function GetOr(default: T): T {
      match this
      case Some(v) => v
      case None => default
    }
  }

  datatype Result<+T, +E> = Ok(value: T) | Err(error: E)
}

/**
 * The values a stored document or a request body can hold, and the few
 * Python behaviours on them that the backend relies on: `str()` of a value,
 * truthiness, and whether a value answers `isoformat()`.
 */
module Values {
  /** A date, datetime or time value: anything that has `isoformat()`. */
  datatype Temporal = Temporal(epochMicros: int)

  /** A decoded JSON / BSON value. Integers and floats are both `Num`. */
  datatype Value =
    | Null
    | Bool(b: bool)
    | Num(r: real)
    | Str(s: string)
    | ObjId(bytes: seq<bv8>)
    | Time(t: Temporal)
    | List(items: seq<Value>)
    | Dict(fields: map<string, Value>)

  /** A document: a key-to-value mapping, as stored and as sent over the wire. */
  type Doc = map<string, Value>

  /**
   * The textual renderings that belong to foreign libraries: `str()` of a value
   * whose text Python or bson decides (numbers, ObjectIds, containers, dates),
   * and `isoformat()` of a date/time value. They are kept uninterpreted: every
   * property below holds for any choice of these two functions.
   */
  datatype Render = Render(text: Value -> string, iso: Temporal -> string)

  /** Python's `str(v)`: fixed for text, None and booleans, foreign otherwise. */
  function PyStr(render: Render, v: Value): string {
    match v
    case Str(s) => s
    case Null => "None"
    case Bool(b) => if b then "True" else "False"
    case _ => render.text(v)
  }

  /** Python truthiness: None, False, zero and empty containers are falsy. */
  predicate Truthy(v: Value) {
    match v
    case Null => false
    case Bool(b) => b
    case Num(r) => r != 0.0
    case Str(s) => s != ""
    case List(xs) => xs != []
    case Dict(m) => m != map[]
    case ObjId(_) => true
    case Time(_) => true
  }

  /** `hasattr(v, "isoformat")`: only date/time values have it. */
  predicate HasIsoformat(v: Value) {
    v.Time?
  }

  /** Python's `d.get(key, default)`: the default is used only when the key is absent. */
  function Get(d: Doc, key: string, default: Value): Value {
    if key in d then d[key] else default
  }

  /** Python's `a or b` on values. */
  function Or(a: Value, b: Value): Value {
    if Truthy(a) then a else b
  }
}
