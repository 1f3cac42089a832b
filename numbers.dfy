/** The firmware's `float` values, kept abstract: a finite value is a real number, and
    IEEE division by zero yields an infinity or NaN. Parsing (`atof`, `String::toFloat`)
    and two-decimal formatting (`String(x, 2)`) are library routines that this model
    receives as functions rather than re-implementing. */
module Numbers {

  datatype Float = Finite(v: real) | Infinite(positive: bool) | NaN

  /** The library's number routines, as the model sees them. */
  datatype Numerics = Numerics(
    atof: string -> real,     // `atof` / `String::toFloat`
    fixed2: Float -> string   // `String(x, 2)`
  )

  /** IEEE quotient `x / y` of two finite floats (rounding is not modelled). */
  function Divide(x: real, y: real): (q: Float)
    ensures q.Finite? <==> y != 0.0
    ensures q.Finite? ==> q.v * y == x
    ensures q.NaN? <==> x == 0.0 && y == 0.0
    ensures q.Infinite? ==> q.positive == (x > 0.0)
  {
    if y != 0.0 then Finite(x / y)
    else if x == 0.0 then NaN
    else Infinite(x > 0.0)
  }
}
