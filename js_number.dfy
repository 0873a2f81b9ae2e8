/**
 * The part of JavaScript number arithmetic that the storefront's money rules
 * depend on, for integer amounts: a value is an integer or `NaN`, which is what
 * `undefined * n` gives when a cart line carries no price.
 */
module JsNumber {

  datatype Num = Num(v: int) | NaN

  function Add(a: Num, b: Num): Num {
    if a.Num? && b.Num? then Num(a.v + b.v) else NaN
  }

  function Sub(a: Num, b: Num): Num {
    if a.Num? && b.Num? then Num(a.v - b.v) else NaN
  }

  function Mul(a: Num, b: Num): Num {
    if a.Num? && b.Num? then Num(a.v * b.v) else NaN
  }

  /** `a > k`: every comparison with `NaN` is false. */
  predicate Gt(a: Num, k: int) {
    a.Num? && a.v > k
  }
}
