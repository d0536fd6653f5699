/**
 * The Bubble chart type: building the dataset from the input points,
 * handing the category labels to the scale, placing the bubbles, collecting
 * their values for the scale's range, and computing each valued bubble's
 * transition target on every frame.
 *
 * The scale (`calculateX`, `calculateY`, `endPoint`), its construction and
 * its own update, and the shape primitive's `transition` are outside code:
 * they appear here as function values that the chart is given.
 */
module Chart {
  import opened JsNumbers
  import Radius
  import SizeRange
  import Categories

  /** An input point: category value `x`, plotted value `y` (possibly missing) and size `r`. */
  datatype Point = Point(x: real, y: Option<real>, r: real)

  /** The chart options the core reads. */
  datatype Options<L> = Options(bubbleMinRadius: real, bubbleMaxRadius: real, labelFn: real -> L)

  /** The defaults: radii 5 to 30 and the identity label. */
  function DefaultOptions(): (o: Options<real>)
    ensures o.bubbleMinRadius == Radius.DefaultMinRadius
    ensures o.bubbleMaxRadius == Radius.DefaultMaxRadius
    ensures forall v :: o.labelFn(v) == v
  {
    Options(5.0, 30.0, v => v)
  }

  /** The animated attributes of a bubble. */
  datatype Attrs = Attrs(x: real, y: real, radius: Number)

  /**
   * A bubble: its value and size, its current attributes (`None` before it
   * is placed) and the snapshot last taken by `save()` (`None` before the
   * first one).
   */
  datatype Bubble = Bubble(value: Option<real>, size: real, pos: Option<Attrs>, saved: Option<Attrs>)
  {
    /** `hasValue()`: the bubble has a plotted value. */
    predicate HasValue()
      ensures HasValue() <==> value != None
    {
      value.Some?
    }

    /** `save()`: the current attributes become the transition baseline. */
    function Save(): (b: Bubble)
      ensures b.saved == pos
      ensures b.value == value && b.size == size && b.pos == pos
    {
      this.(saved := pos)
    }
  }

  /** A bubble for point `p` placed at `start` and saved there. */
  function Placed(p: Point, start: Attrs): (b: Bubble)
    ensures b.value == p.y && b.size == p.r && b.pos == b.saved == Some(start)
  {
    Bubble(p.y, p.r, Some(start), Some(start))
  }

  /** The pixel mapping a built scale provides. */
  datatype Scale = Scale(calculateX: int -> real, calculateY: real -> real, endPoint: real)

  /** Where a bubble starts: its insertion index on the x scale, the scale's end point, the minimum radius. */
  function Start(s: Scale, index: nat, minRadius: real): (a: Attrs)
    ensures a.x == s.calculateX(index) && a.y == s.endPoint
    ensures a.radius == Finite(minRadius)
  {
    Attrs(s.calculateX(index), s.endPoint, Finite(minRadius))
  }

  /**
   * What the chart passes to the scale's constructor: the category labels,
   * their number, and the bubble values that `calculateYRange` gets from
   * `dataTotal()` to fit the y range.
   */
  datatype ScaleOptions<L> = ScaleOptions(xLabels: seq<L>, valuesCount: nat, values: seq<Option<real>>)

  function XValues(points: seq<Point>): (xs: seq<real>)
    ensures |xs| == |points| && forall i :: 0 <= i < |points| ==> xs[i] == points[i].x
  {
    seq(|points|, i requires 0 <= i < |points| => points[i].x)
  }

  function YValues(points: seq<Point>): (ys: seq<Option<real>>)
    ensures |ys| == |points| && forall i :: 0 <= i < |points| ==> ys[i] == points[i].y
  {
    seq(|points|, i requires 0 <= i < |points| => points[i].y)
  }

  function Sizes(points: seq<Point>): (rs: seq<real>)
    ensures |rs| == |points| && forall i :: 0 <= i < |points| ==> rs[i] == points[i].r
  {
    seq(|points|, i requires 0 <= i < |points| => points[i].r)
  }

  /**
   * `ease || 1`: every falsy easing (`undefined`, `null`, and also `0`)
   * becomes 1; any other value is kept. The result is never 0.
   */
  function EasingDecimal(ease: Option<real>): (e: real)
    ensures e != 0.0
    ensures ease == None || ease == Some(0.0) ==> e == 1.0
    ensures ease.Some? && ease.value != 0.0 ==> e == ease.value
  {
    if ease.None? || ease.value == 0.0 then 1.0 else ease.value
  }

  /** The values of a run of bubbles, in order. */
  function Values(bs: seq<Bubble>): (vs: seq<Option<real>>)
    ensures |vs| == |bs| && forall i :: 0 <= i < |bs| ==> vs[i] == bs[i].value
  {
    seq(|bs|, i requires 0 <= i < |bs| => bs[i].value)
  }

  /** The first loop of `initialize`: one bubble per point, in input order, not yet placed. */
  method NewBubbles(points: seq<Point>) returns (a: array<Bubble>)
    ensures fresh(a) && a.Length == |points|
    ensures forall k :: 0 <= k < a.Length ==> a[k] == Bubble(points[k].y, points[k].r, None, None)
  {
    a := new Bubble[|points|];
    var i := 0;
    while i < |points|
      invariant 0 <= i <= |points|
      invariant forall k :: 0 <= k < i ==> a[k] == Bubble(points[k].y, points[k].r, None, None)
    {
      a[i] := Bubble(points[i].y, points[i].r, None, None);
      i := i + 1;
    }
  }

  /**
   * The second loop of `initialize`: every bubble is put at its start
   * attributes and saved there.
   */
  method PlaceBubbles(a: array<Bubble>, s: Scale, minRadius: real)
    modifies a
    ensures forall k :: 0 <= k < a.Length ==>
      a[k] == old(a[k]).(pos := Some(Start(s, k, minRadius))).Save()
  {
    var i := 0;
    while i < a.Length
      invariant 0 <= i <= a.Length
      invariant forall k :: 0 <= k < i ==> a[k] == old(a[k]).(pos := Some(Start(s, k, minRadius))).Save()
      invariant forall k :: i <= k < a.Length ==> a[k] == old(a[k])
    {
      a[i] := a[i].(pos := Some(Start(s, i, minRadius)));
      a[i] := a[i].Save();
      i := i + 1;
    }
  }

  class BubbleChart<L> {
    const options: Options<L>
    /** `dataset.bubbles`, one per input point. */
    const bubbles: array<Bubble>
    /** `dataset.minR` and `dataset.maxR`. */
    const minR: Number
    const maxR: Number
    /** The shape primitive's `transition(target, ease)`, from the saved baseline. */
    const transition: (Attrs, Attrs, real) -> Attrs
    var scale: Scale
    /** The sizes of the input points, in order. */
    ghost const sizes: seq<real>

    ghost predicate Valid()
      reads this, bubbles
    {
      && |sizes| == bubbles.Length
      && minR == SizeRange.JsMin(sizes)
      && maxR == SizeRange.JsMax(sizes)
      && (bubbles.Length > 0 ==> minR.Finite? && maxR.Finite?)
      && forall i :: 0 <= i < bubbles.Length ==>
           bubbles[i].size == sizes[i] && bubbles[i].pos.Some? && bubbles[i].saved.Some?
    }

    /** The radius a bubble of the given size is sent to: `getRadius(size, minR, maxR)`. */
    function TargetRadius(size: real): (r: Number)
      reads this
      requires minR.Finite? && maxR.Finite?
      ensures r.Finite? <==> minR != maxR
      ensures r.Finite? ==> Radius.OddPlusHalf(r.value)
      ensures minR == maxR ==> (r.NaN? <==> size == minR.value || options.bubbleMinRadius == options.bubbleMaxRadius)
    {
      Radius.GetRadius(size, minR.value, maxR.value, options.bubbleMinRadius, options.bubbleMaxRadius)
    }

    /** The transition target of the valued bubble `b` at insertion index `index`. */
    function Target(b: Bubble, index: nat): (t: Attrs)
      reads this
      requires b.HasValue() && minR.Finite? && maxR.Finite?
      ensures t.x == scale.calculateX(index) && t.y == scale.calculateY(b.value.value)
      ensures t.radius == TargetRadius(b.size)
    {
      Attrs(scale.calculateX(index), scale.calculateY(b.value.value), TargetRadius(b.size))
    }

    /**
     * One bubble after a frame: a valued bubble moves from its saved baseline
     * toward its target with easing `e`, any other bubble is left as it is.
     */
    function Drawn(b: Bubble, index: nat, e: real): (d: Bubble)
      reads this
      requires minR.Finite? && maxR.Finite? && b.saved.Some?
      ensures d.value == b.value && d.size == b.size && d.saved == b.saved
      ensures !b.HasValue() ==> d == b
      ensures b.HasValue() ==> d.pos == Some(transition(b.saved.value, Target(b, index), e))
    {
      if b.HasValue() then b.(pos := Some(transition(b.saved.value, Target(b, index), e))) else b
    }

    /**
     * `initialize`: the size range over all points, one bubble per point in
     * input order, the scale built from the category labels and from the
     * values `dataTotal()` then reports, and every bubble placed at its
     * insertion index on the scale's end point with the minimum radius, then
     * saved.
     */
    constructor (points: seq<Point>, options: Options<L>,
                 makeScale: ScaleOptions<L> -> Scale,
                 transition: (Attrs, Attrs, real) -> Attrs)
      ensures Valid()
      ensures fresh(bubbles)
      ensures this.options == options && this.transition == transition
      ensures sizes == Sizes(points)
      ensures minR == SizeRange.JsMin(Sizes(points)) && maxR == SizeRange.JsMax(Sizes(points))
      ensures
        var labels := Categories.Labels(XValues(points), options.labelFn);
        scale == makeScale(ScaleOptions(labels, |labels|, YValues(points)))
      ensures bubbles.Length == |points|
      ensures forall i :: 0 <= i < |points| ==>
        bubbles[i] == Placed(points[i], Start(scale, i, options.bubbleMinRadius))
    {
      var a := NewBubbles(points);
      this.options := options;
      this.transition := transition;
      bubbles := a;
      maxR := SizeRange.JsMax(Sizes(points));
      minR := SizeRange.JsMin(Sizes(points));
      sizes := Sizes(points);
      new;
      var labels := Categories.Labels(XValues(points), options.labelFn);
      var values := DataTotal();
      assert values == YValues(points);
      scale := makeScale(ScaleOptions(labels, |labels|, values));
      PlaceBubbles(bubbles, scale, options.bubbleMinRadius);
    }

    /** `dataTotal()`: the value of every bubble, valued or not, in order. */
    method DataTotal() returns (values: seq<Option<real>>)
      ensures values == Values(bubbles[..])
    {
      values := [];
      var i := 0;
      while i < bubbles.Length
        invariant 0 <= i <= bubbles.Length
        invariant |values| == i
        invariant forall k :: 0 <= k < i ==> values[k] == bubbles[k].value
      {
        values := values + [bubbles[i].value];
        i := i + 1;
      }
    }

    /**
     * `draw(ease)`: every bubble with a value is moved by `transition` from
     * its saved baseline toward its target (its insertion index on the x
     * scale, its value on the y scale, `getRadius` of its size) with the
     * easing `ease || 1`; every other bubble is left as it was.
     */
    method Draw(ease: Option<real>)
      requires Valid()
      modifies bubbles
      ensures Valid()
      ensures forall i :: 0 <= i < bubbles.Length ==>
        bubbles[i] == Drawn(old(bubbles[i]), i, EasingDecimal(ease))
      ensures forall i :: 0 <= i < bubbles.Length && !old(bubbles[i]).HasValue() ==>
        bubbles[i] == old(bubbles[i])
    {
      var e := EasingDecimal(ease);
      var i := 0;
      while i < bubbles.Length
        invariant 0 <= i <= bubbles.Length
        invariant forall k :: 0 <= k < i ==> bubbles[k] == Drawn(old(bubbles[k]), k, e)
        invariant forall k :: i <= k < bubbles.Length ==> bubbles[k] == old(bubbles[k])
      {
        bubbles[i] := Drawn(bubbles[i], i, e);
        i := i + 1;
      }
    }

    /**
     * `update()`: the scale updates itself, refitting its y range to the
     * values `dataTotal()` reports (`rescale`, outside code), and every
     * bubble saves its current attributes as the new transition baseline.
     */
    method Update(rescale: (Scale, seq<Option<real>>) -> Scale)
      requires Valid()
      modifies this, bubbles
      ensures Valid()
      ensures scale == rescale(old(scale), Values(old(bubbles[..])))
      ensures forall i :: 0 <= i < bubbles.Length ==> bubbles[i] == old(bubbles[i]).Save()
    {
      var values := DataTotal();
      scale := rescale(scale, values);
      var i := 0;
      while i < bubbles.Length
        invariant 0 <= i <= bubbles.Length
        invariant scale == rescale(old(scale), values)
        invariant forall k :: 0 <= k < i ==> bubbles[k] == old(bubbles[k]).Save()
        invariant forall k :: i <= k < bubbles.Length ==> bubbles[k] == old(bubbles[k])
      {
        bubbles[i] := bubbles[i].Save();
        i := i + 1;
      }
      assert values == Values(old(bubbles[..]));
    }

    /**
     * The radius target of a valued bubble is NaN exactly when all sizes are
     * equal (`minR == maxR`). Otherwise, with `bubbleMinRadius <=
     * bubbleMaxRadius`, it is an odd integer plus one half between
     * `round(bubbleMinRadius) + 0.5` and `round(bubbleMaxRadius) + 1.5`.
     */
    lemma TargetRadiusRange(i: nat)
      requires Valid() && i < bubbles.Length
      ensures minR.Finite? && maxR.Finite?
      ensures TargetRadius(bubbles[i].size).NaN? <==> minR == maxR
      ensures minR != maxR && options.bubbleMinRadius <= options.bubbleMaxRadius ==>
        var r := TargetRadius(bubbles[i].size);
        && r.Finite?
        && Radius.OddPlusHalf(r.value)
        && Radius.JsRound(options.bubbleMinRadius) as real + 0.5 <= r.value
        && r.value <= Radius.JsRound(options.bubbleMaxRadius) as real + 1.5
    {
      SizeRange.RangeOfSeries(sizes);
      if minR != maxR && options.bubbleMinRadius <= options.bubbleMaxRadius {
        Radius.GetRadiusBounds(bubbles[i].size, minR.value, maxR.value,
                               options.bubbleMinRadius, options.bubbleMaxRadius);
      }
    }

    /** Bubbles of larger size never get a smaller radius target. */
    lemma TargetRadiusMonotone(i: nat, j: nat)
      requires Valid() && i < bubbles.Length && j < bubbles.Length
      requires bubbles[i].size <= bubbles[j].size
      requires minR != maxR && options.bubbleMinRadius <= options.bubbleMaxRadius
      ensures minR.Finite? && maxR.Finite?
      ensures TargetRadius(bubbles[i].size).Finite? && TargetRadius(bubbles[j].size).Finite?
      ensures TargetRadius(bubbles[i].size).value <= TargetRadius(bubbles[j].size).value
    {
      SizeRange.RangeOfSeries(sizes);
      Radius.GetRadiusMonotone(bubbles[i].size, bubbles[j].size, minR.value, maxR.value,
                               options.bubbleMinRadius, options.bubbleMaxRadius);
    }
  }
}
