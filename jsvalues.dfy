/**
 * The slice of JavaScript's value model the normaliser depends on: numbers
 * that may be NaN, truthiness (which drives every "fill only while unset"
 * decision), `a || b`, and `angular.extend`'s shallow copy of fields.
 */
module JsValues {

  /** A JavaScript number as produced by unary `+`; infinities are not modelled. */
  datatype JsNumber = NaN | Finite(value: real)

  /** A JSON-like JavaScript value; `Undefined` also stands for a missing field. */
  datatype Value =
    | Undefined
    | Null
    | Bool(b: bool)
    | Number(n: JsNumber)
    | Str(s: string)
    | Object(fields: map<string, Value>)

  /** JavaScript truthiness: `undefined`, `null`, `false`, `0`, `NaN` and `""` are falsy. */
  predicate Truthy(v: Value)
  {
    match v
    case Undefined => false
    case Null => false
    case Bool(b) => b
    case Number(n) => n.Finite? && n.value != 0.0
    case Str(s) => s != ""
    case Object(_) => true
  }

  /** JavaScript's `a || b`. */
  function Or(a: Value, b: Value): Value
  {
    if Truthy(a) then a else b
  }

  /**
   * `angular.extend(dst, src)`: every own field of `src` is copied onto
   * `dst`, overriding what was there; nothing is copied deeply.
   */
  function Extend(dst: map<string, Value>, src: map<string, Value>): (r: map<string, Value>)
    ensures r.Keys == dst.Keys + src.Keys
    ensures forall k :: k in src ==> r[k] == src[k]
    ensures forall k :: k in dst && k !in src ==> r[k] == dst[k]
  {
    dst + src
  }
}
