/**
 * The handful of JavaScript value rules the 3D widget code relies on:
 * truthiness (used by every `a || b` default and `if (x)` guard) and the
 * dynamic values stored in a three.js `userData` bag.
 */
module JsValues {
  import opened Wrappers

  /** A value stored in `userData` or read from a loosely typed settings object. */
  datatype JsValue =
    | Undefined
    | Null
    | Bool(b: bool)
    | Num(n: real)
    | Str(s: string)
    | Handle(h: nat)  // an object reference (a material, a body, ...)

  /** JavaScript truthiness; numbers are finite reals here, so NaN does not occur. */
  predicate Truthy(v: JsValue)
  {
    match v
    case Undefined => false
    case Null => false
    case Bool(b) => b
    case Num(n) => n != 0.0
    case Str(s) => s != ""
    case Handle(_) => true
  }

  /** A nullable string field is truthy iff it is present and not empty. */
  predicate TruthyStr(o: Option<string>)
  {
    o.Some? && o.value != ""
  }

  /** `a || b` on numbers: `a` unless it is 0 (or absent). */
  function OrNum(a: Option<real>, b: real): real
  {
    if a.Some? && a.value != 0.0 then a.value else b
  }

  /** `userData[key]`, which reads `undefined` for a missing key. */
  function Get(userData: map<string, JsValue>, key: string): JsValue
  {
    if key in userData then userData[key] else Undefined
  }
}
