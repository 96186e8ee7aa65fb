/**
  JavaScript numbers as the route generator uses them: a finite value or NaN.
  Reading a missing array element or an absent option gives `undefined`, which
  arithmetic turns into NaN and every ordered comparison treats as false.
  Values are exact reals: IEEE rounding and infinities are not modelled.
*/
module JsNumber {

  datatype Num = Fin(r: real) | NaN

  function Add(a: Num, b: Num): Num {
    if a.Fin? && b.Fin? then Fin(a.r + b.r) else NaN
  }

  function Sub(a: Num, b: Num): Num {
    if a.Fin? && b.Fin? then Fin(a.r - b.r) else NaN
  }

  function Mul(a: Num, b: Num): Num {
    if a.Fin? && b.Fin? then Fin(a.r * b.r) else NaN
  }

  /** Division by a non-zero constant, the only division the source performs. */
  function Div(a: Num, d: real): Num
    requires d != 0.0
  {
    if a.Fin? then Fin(a.r / d) else NaN
  }

  /** `a < b`: false as soon as either side is NaN. */
  predicate Less(a: Num, b: Num) {
    a.Fin? && b.Fin? && a.r < b.r
  }

  /** `a <= b`: false as soon as either side is NaN. */
  predicate AtMost(a: Num, b: Num) {
    a.Fin? && b.Fin? && a.r <= b.r
  }

  /** JavaScript truthiness of a number: neither 0 nor NaN. */
  predicate Truthy(a: Num) {
    a.Fin? && a.r != 0.0
  }

  /** `p[i]` on a JavaScript array of numbers: `undefined` (NaN) past its end. */
  function Get(p: seq<Num>, i: nat): Num {
    if i < |p| then p[i] else NaN
  }
}
