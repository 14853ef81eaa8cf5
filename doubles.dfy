/**
 * Java's `double` as far as the transit driver depends on it: a finite value,
 * NaN, or one of the two infinities. Finite values are exact reals (rounding
 * is not modelled); the special values follow IEEE 754 arithmetic and ordering.
 */
module Doubles {

  datatype Double = Finite(v: real) | NaN | Infinity(positive: bool)

  const NEGATIVE_INFINITY: Double := Infinity(false)

  predicate IsNaN(d: Double) { d.NaN? }

  predicate IsInfinite(d: Double) { d.Infinity? }

  function Negate(a: Double): Double {
    match a
    case Finite(x) => Finite(-x)
    case NaN => NaN
    case Infinity(p) => Infinity(!p)
  }

  /** IEEE addition: NaN absorbs, opposite infinities give NaN. */
  function Add(a: Double, b: Double): (r: Double)
    ensures r.Finite? <==> a.Finite? && b.Finite?
    ensures r.Finite? ==> r.v == a.v + b.v
  {
    if a.NaN? || b.NaN? then NaN
    else if a.Finite? && b.Finite? then Finite(a.v + b.v)
    else if a.Finite? then b
    else if b.Finite? then a
    else if a.positive == b.positive then a
    else NaN
  }

  /** IEEE subtraction, `a - b == a + (-b)`. */
  function Sub(a: Double, b: Double): (r: Double)
    ensures r.Finite? <==> a.Finite? && b.Finite?
    ensures r.Finite? ==> r.v == a.v - b.v
  {
    Add(a, Negate(b))
  }

  /** IEEE `<`: false whenever either side is NaN. */
  predicate Less(a: Double, b: Double) {
    if a.NaN? || b.NaN? then false
    else if a.Finite? && b.Finite? then a.v < b.v
    else if a.Finite? then b.positive
    else if b.Finite? then !a.positive
    else !a.positive && b.positive
  }
}
