/** Decoded JSON values as Python's json module hands them out, with the two
    pieces of Python semantics the label program relies on: truthiness and
    str(). */
module Json {

  /** A decoded JSON document.  Python ints and floats are kept apart because
      str() prints them differently; floats are modelled as reals. */
  datatype Value =
    | Null
    | Bool(b: bool)
    | Int(i: int)
    | Float(x: real)
    | Str(s: string)
    | Array(elems: seq<Value>)
    | Object(fields: map<string, Value>)

  /** bool(v) in Python: None, False, zero and empty containers are false. */
  predicate Truthy(v: Value) {
    match v
    case Null => false
    case Bool(b) => b
    case Int(i) => i != 0
    case Float(x) => x != 0.0
    case Str(s) => s != ""
    case Array(a) => a != []
    case Object(m) => m != map[]
  }

  /** str(v) in Python, as an f-string placeholder renders it.  Strings,
      None and booleans are rendered exactly; numbers and containers go
      through the formatter `other`, which stands for Python's float and
      repr printing. */
  function Show(v: Value, other: Value -> string): string {
    match v
    case Str(s) => s
    case Null => "None"
    case Bool(b) => if b then "True" else "False"
    case _ => other(v)
  }
}
