/**
 * The series size range `minR`/`maxR`: `Math.min` and `Math.max` applied to
 * every point's size. Both fold from the identity of their operation, so an
 * empty series gives `Infinity` and `-Infinity`.
 */
module SizeRange {
  import opened JsNumbers

  /** `Math.max.apply(Math, xs)`: `-Infinity` for no arguments, otherwise the largest. */
  function JsMax(xs: seq<real>): (r: Number)
    ensures r == NegInf <==> xs == []
    ensures r != NegInf ==> r.Finite? && r.value in xs
    ensures r.Finite? ==> forall i :: 0 <= i < |xs| ==> xs[i] <= r.value
  {
    if xs == [] then NegInf
    else
      var init := xs[..|xs| - 1];
      var m := JsMax(init);
      var last := xs[|xs| - 1];
      assert xs == init + [last];
      assert forall i :: 0 <= i < |init| ==> xs[i] == init[i];
      if m == NegInf then Finite(last) else Finite(Max(m.value, last))
  }

  /** `Math.min.apply(Math, xs)`: `Infinity` for no arguments, otherwise the smallest. */
  function JsMin(xs: seq<real>): (r: Number)
    ensures r == PosInf <==> xs == []
    ensures r != PosInf ==> r.Finite? && r.value in xs
    ensures r.Finite? ==> forall i :: 0 <= i < |xs| ==> r.value <= xs[i]
  {
    if xs == [] then PosInf
    else
      var init := xs[..|xs| - 1];
      var m := JsMin(init);
      var last := xs[|xs| - 1];
      assert xs == init + [last];
      assert forall i :: 0 <= i < |init| ==> xs[i] == init[i];
      if m == PosInf then Finite(last) else Finite(Min(m.value, last))
  }

  /**
   * For a non-empty series both bounds are finite, every size lies between
   * them and each bound is attained by some size.
   */
  lemma RangeOfSeries(xs: seq<real>)
    requires xs != []
    ensures JsMin(xs).Finite? && JsMax(xs).Finite?
    ensures JsMin(xs).value <= JsMax(xs).value
    ensures forall i :: 0 <= i < |xs| ==> JsMin(xs).value <= xs[i] <= JsMax(xs).value
    ensures exists i :: 0 <= i < |xs| && xs[i] == JsMin(xs).value
    ensures exists j :: 0 <= j < |xs| && xs[j] == JsMax(xs).value
  {
  }

  /** A series whose sizes are all equal has `minR == maxR`. */
  lemma ConstantSeries(xs: seq<real>, c: real)
    requires xs != [] && forall i :: 0 <= i < |xs| ==> xs[i] == c
    ensures JsMin(xs) == JsMax(xs) == Finite(c)
  {
  }
}
