/**
  The JavaScript number values that matter to the model: a finite value, an
  infinity, or NaN, with the truthiness that `Number(x) || fallback` tests.
 */
module Js {

  datatype Number = Finite(value: real) | Infinite(negative: bool) | NaN

  /** A number is falsy exactly when it is NaN or zero (either sign of zero is the real 0). */
  predicate Truthy(n: Number)
  {
    !n.NaN? && n != Finite(0.0)
  }

  /** `n || fallback` on numbers. */
  function OrElse(n: Number, fallback: Number): Number
  {
    if Truthy(n) then n else fallback
  }

  /** `n + 1`: infinities and NaN absorb the increment. */
  function Inc(n: Number): Number
  {
    match n
    case Finite(v) => Finite(v + 1.0)
    case _ => n
  }
}
