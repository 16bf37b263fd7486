/**
 * The JavaScript values that flow through the scraper's plain objects, with the
 * truthiness that the `||` defaults of the source test.
 */
module Js {

  /** A JavaScript value as it appears in the scraper's records. Numbers are exact
      reals; NaN and floating-point rounding are outside the model. */
  datatype JsValue = Undefined | Null | Bool(b: bool) | Num(n: real) | Str(s: string)

  /** A plain JavaScript object: property names to values. */
  type Object = map<string, JsValue>

  /** JavaScript truthiness (`!!v`). */
  predicate Truthy(v: JsValue) {
    match v
    case Undefined => false
    case Null => false
    case Bool(b) => b
    case Num(n) => n != 0.0
    case Str(s) => s != ""
  }

  /** `v || d`. */
  function Or(v: JsValue, d: JsValue): (r: JsValue)
    ensures Truthy(v) ==> r == v
    ensures !Truthy(v) ==> r == d
  {
    if Truthy(v) then v else d
  }

  /** Property access `o.k`: a missing property reads as `undefined`. */
  function Get(o: Object, k: string): (v: JsValue)
    ensures k !in o ==> v == Undefined
    ensures k in o ==> v == o[k]
  {
    if k in o then o[k] else Undefined
  }

  /** Object spread `{...a, ...b}`: the properties of `b` override those of `a`. */
  function Spread(a: Object, b: Object): (r: Object)
    ensures r.Keys == a.Keys + b.Keys
    ensures forall k :: k in b ==> r[k] == b[k]
    ensures forall k :: k in a && k !in b ==> r[k] == a[k]
  {
    a + b
  }
}
