/**
 * JavaScript values as far as the engine handles them: it passes them around,
 * compares a working directory against a string and enumerates an object's keys.
 * Objects are their own enumerable properties; host objects (a Module, the
 * `require` closure, an error) are opaque.
 */
module JsValues {

  datatype Value =
    | Undefined
    | Null
    | Bool(b: bool)
    | Num(n: real)
    | Str(s: string)
    | Obj(props: map<string, Value>)
    | Host(name: string)

  /** `obj[k]` on an object given by its properties: `undefined` for a missing key. */
  function Property(obj: map<string, Value>, k: string): (v: Value)
    ensures k !in obj ==> v == Undefined
    ensures k in obj ==> v == obj[k]
  {
    if k in obj then obj[k] else Undefined
  }

  /** The key/value pairs a `for (k in v)` loop visits; none for `undefined`, `null`, booleans and numbers. */
  function EnumerableProps(v: Value): map<string, Value> {
    if v.Obj? then v.props else map[]
  }
}
