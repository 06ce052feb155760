/** JavaScript Number values as the workout form produces them: the unary `+`
    applied to an input's text yields a finite number, NaN or an infinity.
    Only the operations the workout core applies to them are modelled. */
module JsNumbers {

  datatype Num = Finite(value: real) | NaN | PosInfinity | NegInfinity

  /** Number.isFinite */
  predicate IsFinite(x: Num) {
    x.Finite?
  }

  /** The comparison `x > 0`: false for NaN and -Infinity, true for +Infinity. */
  predicate GreaterThanZero(x: Num) {
    match x
    case Finite(v) => v > 0.0
    case PosInfinity => true
    case _ => false
  }

  /** `x + 1`: NaN and the infinities absorb the increment. */
  function PlusOne(x: Num): Num {
    match x
    case Finite(v) => Finite(v + 1.0)
    case _ => x
  }
}
