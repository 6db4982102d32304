// Go's float32 and float64 where only order and finiteness matter.
module Floats {
  datatype Float = NaN | NegInf | Fin(value: real) | PosInf {
    predicate Finite() { Fin? }
  }

  // The `<` of the language: false whenever a NaN is involved.
  predicate Less(a: Float, b: Float) {
    match (a, b)
    case (NaN, _) => false
    case (_, NaN) => false
    case (Fin(x), Fin(y)) => x < y
    case (NegInf, NegInf) => false
    case (NegInf, _) => true
    case (_, PosInf) => a != PosInf
    case (_, _) => false
  }

  predicate Same(a: Float, b: Float) {
    a != NaN && a == b
  }
}
