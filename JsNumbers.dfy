/**
 * The few JavaScript value shapes the bubble chart's data shaping can produce.
 * Ordinary numbers are modelled as mathematical reals; `Number` is used only
 * where the code can yield a non-finite value.
 */
module JsNumbers {

  /** An optional value: `None` stands for `null`/`undefined`. */
  datatype Option<+T> = None | Some(value: T)

  /** A JavaScript number, restricted to the shapes the model needs. */
  datatype Number = Finite(value: real) | PosInf | NegInf | NaN

  /** Larger of two reals, as `Math.max` of two finite numbers. */
  function Max(a: real, b: real): (r: real)
    ensures r >= a && r >= b
    ensures r == a || r == b
  {
    if a >= b then a else b
  }

  /** Smaller of two reals, as `Math.min` of two finite numbers. */
  function Min(a: real, b: real): (r: real)
    ensures r <= a && r <= b
    ensures r == a || r == b
  {
    if a <= b then a else b
  }

  /**
   * `a / d` where `d` is the positive zero that `max - min` gives for
   * `max == min`: an infinity of the sign of `a`, or NaN for `0 / 0`.
   */
  function DivideByZero(a: real): (r: Number)
    ensures r.NaN? <==> a == 0.0
    ensures r == PosInf <==> a > 0.0
    ensures r == NegInf <==> a < 0.0
  {
    if a > 0.0 then PosInf else if a < 0.0 then NegInf else NaN
  }

  /** `n * b` for a finite `b`: an infinity times zero is NaN, otherwise signs multiply. */
  function Times(n: Number, b: real): (r: Number)
    ensures n.Finite? ==> r == Finite(n.value * b)
    ensures n.NaN? ==> r.NaN?
    ensures (n.PosInf? || n.NegInf?) ==> (r.NaN? <==> b == 0.0)
    ensures (n.PosInf? || n.NegInf?) && b != 0.0 ==> (r.PosInf? <==> (n.PosInf? <==> b > 0.0))
    ensures (n.PosInf? || n.NegInf?) && b != 0.0 ==> r.PosInf? || r.NegInf?
  {
    match n
    case Finite(_) => Finite(n.value * b)
    case NaN => NaN
    case PosInf => if b > 0.0 then PosInf else if b < 0.0 then NegInf else NaN
    case NegInf => if b > 0.0 then NegInf else if b < 0.0 then PosInf else NaN
  }

  /** `a + n` for a finite `a`: infinities and NaN absorb it. */
  function Plus(a: real, n: Number): (r: Number)
    ensures n.Finite? ==> r == Finite(a + n.value)
    ensures !n.Finite? ==> r == n
  {
    match n
    case Finite(v) => Finite(a + v)
    case _ => n
  }
}
