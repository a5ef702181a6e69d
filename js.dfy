/**
 * The few JavaScript value semantics the analyser relies on: truthiness,
 * the `||` operator and strict equality, over the primitive values that
 * the upstream review payloads carry.
 */
module Js {

  /** A primitive JavaScript value. `Num` is a finite number. */
  datatype JsValue =
    | Undefined
    | Null
    | Bool(b: bool)
    | Num(x: real)
    | PosInfinity
    | NegInfinity
    | NaN
    | Str(s: string)

  /** JavaScript truthiness (ToBoolean). */
  predicate Truthy(v: JsValue)
  {
    match v
    case Undefined => false
    case Null => false
    case Bool(b) => b
    case Num(x) => x != 0.0
    case PosInfinity => true
    case NegInfinity => true
    case NaN => false
    case Str(s) => s != ""
  }

  /** `a || b`: the first operand when it is truthy, otherwise the second. */
  function Or(a: JsValue, b: JsValue): (r: JsValue)
    ensures Truthy(r) <==> Truthy(a) || Truthy(b)
    ensures Truthy(a) ==> r == a
  {
    if Truthy(a) then a else b
  }

  /** `a === b` on primitives: NaN equals nothing, everything else compares by value. */
  predicate StrictEquals(a: JsValue, b: JsValue)
  {
    a != NaN && a == b
  }

  /** `typeof v === 'number' && Number.isFinite(v)`. */
  predicate IsFiniteNumber(v: JsValue)
  {
    v.Num?
  }

  /** A JSON object, as its members. */
  type JsObject = map<string, JsValue>

  /** `o.name`: a missing member reads as `undefined`. */
  function Member(o: JsObject, name: string): JsValue
  {
    if name in o then o[name] else Undefined
  }
}
