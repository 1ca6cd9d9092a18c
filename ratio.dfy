/**
 * Division of two finite float64 values as Go evaluates it, over exact reals.
 * A non-zero divisor gives the exact quotient; a zero divisor gives +Inf, -Inf
 * or NaN according to the sign of the dividend (IEEE 754), and every ordered
 * comparison with NaN is false. The simulation divides by `lastBuyPrice`
 * (zero before the first purchase) and by `reserves` (zero after reserves
 * are spent) without a guard, so both quotients go through `Div`.
 */
module Ratio {

  datatype Quotient = Finite(value: real) | PosInf | NegInf | NaN {

    /** The Go comparison `q > c`. */
    predicate Greater(c: real) {
      match this
      case Finite(v) => v > c
      case PosInf => true
      case NegInf => false
      case NaN => false
    }

    /** The Go comparison `q < c`. */
    predicate Less(c: real) {
      match this
      case Finite(v) => v < c
      case PosInf => false
      case NegInf => true
      case NaN => false
    }
  }

  /** The Go expression `num / den` on float64 operands. */
  function Div(num: real, den: real): (q: Quotient)
    ensures q.Finite? <==> den != 0.0
    ensures q.Finite? ==> q.value * den == num
    ensures den == 0.0 ==> (q.PosInf? <==> num > 0.0) && (q.NegInf? <==> num < 0.0)
  {
    if den != 0.0 then Finite(num / den)
    else if num > 0.0 then PosInf
    else if num < 0.0 then NegInf
    else NaN
  }
}
