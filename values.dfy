/** JSON-like values as they arrive in a request body and as documents sit in the store. */
module Values {

  datatype Option<T> = None | Some(value: T)

  /** A value in a request body or a stored document. `Undefined` is a key the body
      does not carry; `Num` holds any JSON number; `Date` is a timestamp the gateway
      writes itself (the seed document's `created_at`). */
  datatype Value =
    | Undefined
    | Null
    | Bool(b: bool)
    | Num(x: real)
    | Str(s: string)
    | Arr(items: seq<Value>)
    | Obj(fields: map<string, Value>)
    | Date(millis: int)

  /** An opaque document: a mapping from field name to value. */
  type Document = map<string, Value>

  /** An object of named fields, as the handlers assemble them for validation. */
  type Payload = map<string, Value>

  /** Reading a key of an object: an absent key reads as `undefined`. */
  function Get(p: Payload, key: string): Value {
    if key in p then p[key] else Undefined
  }

  /** A number with no fractional part (`Number.isInteger`). */
  predicate IsInteger(x: real) {
    x.Floor as real == x
  }

  /** JavaScript truthiness (`if (v)`): everything but undefined, null, false, 0 and "". */
  predicate Truthy(v: Value) {
    match v
    case Undefined => false
    case Null => false
    case Bool(b) => b
    case Num(x) => x != 0.0
    case Str(s) => s != ""
    case _ => true
  }
}
