/** The f64 values the order book works with.

    Finite values are exact reals, so rounding is not modelled, and -0.0 is the
    same value as 0.0. Comparison follows IEEE 754: NaN compares with nothing.
 */
module Floats {

  datatype F64 = NaN | NegInf | Fin(v: real) | PosInf

  const ZERO := Fin(0.0)

  /** The IEEE `<`. */
  predicate Lt(a: F64, b: F64) {
    match a
    case NaN => false
    case NegInf => b.Fin? || b.PosInf?
    case Fin(x) => b.PosInf? || (b.Fin? && x < b.v)
    case PosInf => false
  }

  /** The IEEE `>=`: false as soon as one operand is NaN. */
  predicate Ge(a: F64, b: F64) {
    !a.NaN? && !b.NaN? && !Lt(a, b)
  }

  function Sub(a: F64, b: F64): F64 {
    if a.NaN? || b.NaN? then NaN
    else if a.Fin? && b.Fin? then Fin(a.v - b.v)
    else if a == b then NaN
    else if a.PosInf? || b.NegInf? then PosInf
    else NegInf
  }
}
