/** Python's floats, rounding apart: what a JSON document can hold for a number with a point. */
module Numbers {

  datatype Number = Finite(value: real) | PosInf | NegInf | NaN

  /** The `<` of floats: false whenever a side is not a number. */
  predicate Less(x: Number, y: Number) {
    match (x, y)
    case (Finite(a), Finite(b)) => a < b
    case (NegInf, Finite(_)) => true
    case (NegInf, PosInf) => true
    case (Finite(_), PosInf) => true
    case _ => false
  }
}
