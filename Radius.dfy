/**
 * The bubble radius mapper (`getRadius` of the Bubble chart type).
 *
 * A point's size is mapped linearly from the series' size range
 * `[min, max]` onto the configured radius range `[lo, hi]`
 * (`bubbleMinRadius`, `bubbleMaxRadius`), rounded with `Math.round`,
 * forced odd by adding one when even, and offset by one half pixel.
 * There is no guard for `min == max`: the division is then by zero, and
 * the result is an infinity, or NaN when the size is `min` or the two radii
 * are equal.
 */
module Radius {
  import opened JsNumbers

  /** `Math.round`: the nearest integer, ties rounded up. */
  function JsRound(v: real): (r: int)
    ensures r as real - 0.5 <= v < r as real + 0.5
  {
    (v + 0.5).Floor
  }

  /** The linear map of `size` from `[min, max]` onto `[lo, hi]`, before rounding. */
  function Interpolate(size: real, min: real, max: real, lo: real, hi: real): (v: real)
    requires min != max
    ensures size == min ==> v == lo
    ensures size == max ==> v == hi
    ensures (v - lo) * (max - min) == (hi - lo) * (size - min)
    ensures min < max && lo <= hi && min <= size <= max ==> lo <= v <= hi
  {
    var slope := (hi - lo) / (max - min);
    assert slope * (max - min) == hi - lo;
    if min < max && lo <= hi && min <= size <= max then
      QuotientNonNegative(hi - lo, max - min);
      ScaleMonotone(slope, 0.0, size - min);
      ScaleMonotone(slope, size - min, max - min);
      lo + slope * (size - min)
    else
      lo + slope * (size - min)
  }

  /** A non-negative real over a positive one is non-negative. */
  lemma QuotientNonNegative(a: real, b: real)
    requires 0.0 <= a && 0.0 < b
    ensures 0.0 <= a / b
  {
  }

  /** Multiplying by a non-negative real keeps an order. */
  lemma ScaleMonotone(c: real, x: real, y: real)
    requires 0.0 <= c && x <= y
    ensures c * x <= c * y
  {
    assert c * y - c * x == c * (y - x);
    assert 0.0 <= c * (y - x);
  }

  /** The rounded radius `r` that the quantiser starts from. */
  function RoundedRadius(size: real, min: real, max: real, lo: real, hi: real): (r: int)
    requires min != max
    ensures r as real - 0.5 <= Interpolate(size, min, max, lo, hi) < r as real + 0.5
  {
    JsRound(Interpolate(size, min, max, lo, hi))
  }

  /** Odd-forcing: an even integer is moved up by one, an odd one is kept. */
  function OddUp(r: int): (k: int)
    ensures k % 2 == 1
    ensures r <= k <= r + 1
    ensures k == r <==> r % 2 == 1
  {
    if r % 2 == 0 then r + 1 else r
  }

  /** A value of the form `k + 0.5` with `k` an odd integer. */
  predicate OddPlusHalf(v: real)
  {
    var k := (v - 0.5).Floor;
    v == k as real + 0.5 && k % 2 == 1
  }

  /** The quantisation step applied to the rounded radius. */
  function Quantise(r: int): (q: real)
    ensures OddPlusHalf(q)
    ensures r as real + 0.5 <= q <= r as real + 1.5
    ensures q == r as real + 0.5 <==> r % 2 == 1
  {
    0.5 + OddUp(r) as real
  }

  /**
   * `getRadius(size, min, max)` when `min == max`. The span divided by the
   * zero width is an infinity (NaN for a zero span), multiplied by
   * `size - min` and added to `lo`. `Math.round`, the parity test (an
   * infinity or NaN modulo 2 is NaN, never 0) and the `0.5 +` keep that
   * non-finite value as it is.
   */
  function DegenerateRadius(size: real, min: real, lo: real, hi: real): (r: Number)
    ensures !r.Finite?
    ensures r.NaN? <==> size == min || lo == hi
    ensures !r.NaN? ==> (r == PosInf <==> (size > min <==> hi > lo))
  {
    Plus(lo, Times(DivideByZero(hi - lo), size - min))
  }

  /**
   * `getRadius(size, min, max)` with `bubbleMinRadius == lo` and
   * `bubbleMaxRadius == hi`. It is finite exactly when the size range is
   * proper; then it is an odd integer plus one half, at most one pixel above
   * the rounded linear map. For `min == max` it is NaN when `size == min` or
   * `lo == hi`, and otherwise `Infinity` or `-Infinity` by the signs of
   * `size - min` and `hi - lo`.
   */
  function GetRadius(size: real, min: real, max: real, lo: real, hi: real): (r: Number)
    ensures r.Finite? <==> min != max
    ensures min == max ==> (r.NaN? <==> size == min || lo == hi)
    ensures min == max && size != min && lo != hi ==>
      (r == PosInf || r == NegInf) && (r == PosInf <==> (size > min <==> hi > lo))
    ensures r.Finite? ==> OddPlusHalf(r.value)
    ensures r.Finite? ==>
      var q := RoundedRadius(size, min, max, lo, hi);
      q as real + 0.5 <= r.value <= q as real + 1.5 &&
      (r.value == q as real + 0.5 <==> q % 2 == 1)
  {
    if min == max then DegenerateRadius(size, min, lo, hi)
    else Finite(Quantise(RoundedRadius(size, min, max, lo, hi)))
  }

  /**
   * With all sizes equal to 2 and the default radii, a size of 3 gets
   * `Infinity`, a size of 1 gets `-Infinity` and the size 2 itself NaN.
   */
  lemma DegenerateRangeExample()
    ensures GetRadius(3.0, 2.0, 2.0, DefaultMinRadius, DefaultMaxRadius) == PosInf
    ensures GetRadius(1.0, 2.0, 2.0, DefaultMinRadius, DefaultMaxRadius) == NegInf
    ensures GetRadius(2.0, 2.0, 2.0, DefaultMinRadius, DefaultMaxRadius) == NaN
  {
  }

  /** `Math.round` is monotone. */
  lemma JsRoundMonotone(u: real, v: real)
    requires u <= v
    ensures JsRound(u) <= JsRound(v)
  {
  }

  /** `Math.round` keeps an integer. */
  lemma JsRoundInteger(n: int)
    ensures JsRound(n as real) == n
  {
  }

  /** Odd-forcing is monotone. */
  lemma OddUpMonotone(a: int, b: int)
    requires a <= b
    ensures OddUp(a) <= OddUp(b)
  {
  }

  /** For a proper size range and `lo <= hi` the linear map is non-decreasing. */
  lemma InterpolateMonotone(s1: real, s2: real, min: real, max: real, lo: real, hi: real)
    requires min < max && lo <= hi && s1 <= s2
    ensures Interpolate(s1, min, max, lo, hi) <= Interpolate(s2, min, max, lo, hi)
  {
    var slope := (hi - lo) / (max - min);
    var d1, d2 := s1 - min, s2 - min;
    QuotientNonNegative(hi - lo, max - min);
    ScaleMonotone(slope, d1, d2);
    var p1, p2 := slope * d1, slope * d2;
    assert p1 <= p2;
    assert Interpolate(s1, min, max, lo, hi) == lo + p1;
    assert Interpolate(s2, min, max, lo, hi) == lo + p2;
  }

  /** `getRadius` is monotone non-decreasing in `size` for `min < max` and `lo <= hi`. */
  lemma GetRadiusMonotone(s1: real, s2: real, min: real, max: real, lo: real, hi: real)
    requires min < max && lo <= hi && s1 <= s2
    ensures GetRadius(s1, min, max, lo, hi).Finite?
    ensures GetRadius(s1, min, max, lo, hi).value <= GetRadius(s2, min, max, lo, hi).value
  {
    InterpolateMonotone(s1, s2, min, max, lo, hi);
    JsRoundMonotone(Interpolate(s1, min, max, lo, hi), Interpolate(s2, min, max, lo, hi));
    OddUpMonotone(RoundedRadius(s1, min, max, lo, hi), RoundedRadius(s2, min, max, lo, hi));
  }

  /** The smallest size is mapped onto the rounded minimum radius. */
  lemma RoundedAtMin(min: real, max: real, lo: real, hi: real)
    requires min != max
    ensures RoundedRadius(min, min, max, lo, hi) == JsRound(lo)
  {
  }

  /** The largest size is mapped onto the rounded maximum radius. */
  lemma RoundedAtMax(min: real, max: real, lo: real, hi: real)
    requires min != max
    ensures RoundedRadius(max, min, max, lo, hi) == JsRound(hi)
  {
  }

  /**
   * Every size within the series range gets a radius between the quantised
   * ends: no less than `round(lo) + 0.5` and no more than `round(hi) + 1.5`.
   */
  lemma GetRadiusBounds(size: real, min: real, max: real, lo: real, hi: real)
    requires min <= size <= max && min < max && lo <= hi
    ensures GetRadius(size, min, max, lo, hi).Finite?
    ensures JsRound(lo) as real + 0.5 <= GetRadius(size, min, max, lo, hi).value
    ensures GetRadius(size, min, max, lo, hi).value <= JsRound(hi) as real + 1.5
  {
    GetRadiusMonotone(min, size, min, max, lo, hi);
    GetRadiusMonotone(size, max, min, max, lo, hi);
    RoundedAtMin(min, max, lo, hi);
    RoundedAtMax(min, max, lo, hi);
  }

  /** The configured defaults: `bubbleMinRadius` 5 and `bubbleMaxRadius` 30. */
  const DefaultMinRadius: real := 5.0
  const DefaultMaxRadius: real := 30.0

  /** With the defaults the smallest bubble has radius 5.5 and the largest 31.5. */
  lemma DefaultEndpoints(min: real, max: real)
    requires min < max
    ensures GetRadius(min, min, max, DefaultMinRadius, DefaultMaxRadius) == Finite(5.5)
    ensures GetRadius(max, min, max, DefaultMinRadius, DefaultMaxRadius) == Finite(31.5)
  {
  }

  /**
   * Sizes 2, 4 and 6 with the default radii: the ends get 5.5 and 31.5, the
   * middle 17.5 rounds to 18, is forced to 19 and becomes 19.5.
   */
  lemma ThreeSizesExample()
    ensures GetRadius(2.0, 2.0, 6.0, DefaultMinRadius, DefaultMaxRadius) == Finite(5.5)
    ensures GetRadius(4.0, 2.0, 6.0, DefaultMinRadius, DefaultMaxRadius) == Finite(19.5)
    ensures GetRadius(6.0, 2.0, 6.0, DefaultMinRadius, DefaultMaxRadius) == Finite(31.5)
  {
  }

  /**
   * Reversed radii are accepted: with `bubbleMinRadius` 30 and
   * `bubbleMaxRadius` 5 the smaller size gets the larger radius.
   */
  lemma ReversedRadiiExample()
    ensures GetRadius(1.0, 1.0, 2.0, 30.0, 5.0) == Finite(31.5)
    ensures GetRadius(2.0, 1.0, 2.0, 30.0, 5.0) == Finite(5.5)
  {
  }
}
