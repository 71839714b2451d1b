/** The number syntax and arithmetic the calculator relies on.
    The source parses tokens with the standard float parser (`isNum`,
    `toFloat`) and computes with float64 operators; the model leaves both
    abstract: `V` is the value type and an `Arithmetic<V>` supplies the
    parser and the four operators. */
module Numeric {
  datatype Arithmetic<!V> = Arithmetic(
    isNum: string -> bool,    // `isNum`: the float parser accepts the token
    toFloat: string -> V,     // `toFloat`: the value of a numeric token
    zero: V,                  // the value `0` that a lone token must differ from
    add: (V, V) -> V,
    sub: (V, V) -> V,
    mul: (V, V) -> V,
    div: (V, V) -> V)

  /** The facts about the float parser that the calculator depends on:
      the empty token and the four operator symbols are not numbers. */
  predicate Sound<V>(ar: Arithmetic<V>) {
    && !ar.isNum("")
    && !ar.isNum("+") && !ar.isNum("-") && !ar.isNum("*") && !ar.isNum("/")
  }
}
