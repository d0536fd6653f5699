# Bubble chart data shaping, modelled in Dafny

This project models the data-shaping core of the Bubble chart type of a
Chart.js fork (`src/Chart.Bubble.js`). The chart takes a list of points
`{x, y, r}`. It computes the series size range `minR`/`maxR`. It builds one
bubble per point with `value = y` and `size = r`. It hands the sorted,
de-duplicated, label-mapped x values to a category scale. It places every
bubble at its insertion index on the scale's end point. On every frame it
sends each bubble that has a value toward a target whose radius comes from
the radius mapper `getRadius`. The scale also receives, through
`dataTotal()`, the values of all bubbles, from which it fits its y range.

Modules:

- `JsNumbers` (JsNumbers.dfy): `Option` for values that may be
  `null`/`undefined`, and `Number` for the places where the code yields
  `Infinity`, `-Infinity` or `NaN`.
- `Radius` (Radius.dfy): `getRadius` in two stages. The linear map and
  `Math.round` work over `real`; odd-forcing and the half-pixel offset work
  over `int`. The module proves monotonicity, the bounds, the end points and
  the parity of the result.
- `SizeRange` (SizeRange.dfy): `Math.max`/`Math.min` over all point sizes.
- `Categories` (Categories.dfy): the `unique` / `sort` / `map(label)`
  pipeline that produces the category labels. The module proves that the
  domain is strictly ascending, that it holds exactly the input's values,
  that it is unique, and that its length equals the number of distinct x
  values.
- `Chart` (Chart.dfy): the class `BubbleChart` holding `dataset.bubbles`
  (an array of bubble values), `minR`, `maxR` and the scale. Its constructor
  is `initialize`. It has `DataTotal` (`dataTotal`), `Draw` (`draw`) and
  `Update` (`update`).

Outside code appears as function values that the chart is given:

- the scale's `calculateX`, `calculateY` and `endPoint`;
- the construction of a `Chart.Scale` from its options (the category labels,
  their number, and the bubble values `dataTotal()` reports);
- the scale's own `update()`, which refits to the bubble values;
- the shape primitive's `transition` from its saved baseline.

Numbers (x, y, sizes, radii, pixels) are mathematical reals. `parseFloat`
and IEEE rounding are abstracted away.

Behaviours of the code that the model keeps as written:

- `getRadius` has no guard for `min == max`. The division at line 32 is by
  zero. The span over the zero width is `Infinity` or `-Infinity` (NaN when
  the two radii are equal). Times `size - min` it stays infinite, except that
  infinity times zero is NaN. `Math.round`, the parity test and the `0.5 +`
  keep a non-finite value. So `Radius.GetRadius` is finite exactly when
  `min != max`. For `min == max` it is NaN when `size == min` or the radii
  are equal, and `Infinity` or `-Infinity` otherwise. Every size of a chart
  lies in `[minR, maxR]`, so when all sizes are equal (a single-point series,
  say) every drawn bubble gets the radius NaN.
- Bubbles are placed and targeted at `calculateX(index)`, where `index` is
  the insertion index (lines 66 and 154), not the index of the bubble's
  category. With x values `[2, 1]` the domain is `[1, 2]`. The bubble with
  x = 2 is placed at `calculateX(0)`, the slot of the category 1.
- `Math.round` rounds ties up (`floor(v + 1/2)`), not half to even.
- `ease || 1` also replaces an easing of `0` by `1`.

## Model

| member | source | states |
|---|---|---|
| `JsNumbers.DivideByZero` | src/Chart.Bubble.js:32 | definition: `span/(max-min)` with a zero width is `Infinity` for a positive span, `-Infinity` for a negative one and NaN for a zero one |
| `JsNumbers.Times` | src/Chart.Bubble.js:32 | definition: an infinity times `size - min` is NaN exactly when `size == min`, and otherwise an infinity whose sign is the product of the signs |
| `JsNumbers.Plus` | src/Chart.Bubble.js:32 | definition: adding `bubbleMinRadius` keeps an infinity or NaN as it is |
| `Radius.Interpolate` | src/Chart.Bubble.js:31-32 | the map is linear: `(v - bubbleMinRadius) * (max - min) == span * (size - min)`; it sends `min` to `bubbleMinRadius` and `max` to `bubbleMaxRadius`, and for `min < max` and `bubbleMinRadius <= bubbleMaxRadius` keeps every size in `[min, max]` within the radius range |
| `Radius.RoundedRadius` | src/Chart.Bubble.js:32 | `r` is the nearest integer to the linear map, ties rounded up |
| `Radius.DegenerateRadius` | src/Chart.Bubble.js:30-35 | for `min == max` the result is never finite; it is NaN exactly when `size == min` or the radii are equal, and otherwise `Infinity` exactly when `size - min` and `bubbleMaxRadius - bubbleMinRadius` have the same sign |
| `Radius.DegenerateRangeExample` | src/Chart.Bubble.js:30-35 | with all sizes 2 and the default radii, size 3 gets `Infinity`, size 1 gets `-Infinity` and size 2 NaN |
| `Radius.JsRound` | src/Chart.Bubble.js:32 | `Math.round(v)` is the integer `r` with `r - 0.5 <= v < r + 0.5` (nearest integer, ties up) |
| `Radius.JsRoundMonotone` | src/Chart.Bubble.js:32 | rounding is monotone |
| `Radius.JsRoundInteger` | src/Chart.Bubble.js:32 | rounding keeps an integer |
| `Radius.OddUp` | src/Chart.Bubble.js:34 | odd-forcing gives an odd integer in `[r, r+1]`, equal to `r` exactly when `r` is odd |
| `Radius.OddUpMonotone` | src/Chart.Bubble.js:34 | odd-forcing is monotone |
| `Radius.Quantise` | src/Chart.Bubble.js:34 | the quantised radius is an odd integer plus 0.5, lies in `[r+0.5, r+1.5]`, and equals `r+0.5` exactly when `r` is odd |
| `Radius.GetRadius` | src/Chart.Bubble.js:30-35 | `getRadius` is finite exactly when `min != max`; for `min == max` it is NaN exactly when `size == min` or the radii are equal, and otherwise `Infinity` or `-Infinity` by the signs of `size - min` and the span; a finite result is an odd integer plus 0.5, within one pixel above the rounded linear map, and equal to `r+0.5` exactly when the rounded value `r` is odd |
| `Radius.InterpolateMonotone` | src/Chart.Bubble.js:31-32 | for `min < max` and `bubbleMinRadius <= bubbleMaxRadius` the linear map is non-decreasing in `size` |
| `Radius.GetRadiusMonotone` | src/Chart.Bubble.js:31-34 | under the same conditions `getRadius` is finite and non-decreasing in `size` |
| `Radius.RoundedAtMin` | src/Chart.Bubble.js:32 | `size == min` rounds to `round(bubbleMinRadius)` |
| `Radius.RoundedAtMax` | src/Chart.Bubble.js:32 | `size == max` rounds to `round(bubbleMaxRadius)` |
| `Radius.GetRadiusBounds` | src/Chart.Bubble.js:30-35 | for `min < max` and `bubbleMinRadius <= bubbleMaxRadius`, every size in `[min, max]` gets a radius in `[round(bubbleMinRadius)+0.5, round(bubbleMaxRadius)+1.5]` |
| `Radius.DefaultEndpoints` | src/Chart.Bubble.js:12-13 | for `min < max`, with the default radii 5 and 30 the smallest size gets 5.5 and the largest 31.5 |
| `Radius.ThreeSizesExample` | src/Chart.Bubble.js:30-35 | sizes 2, 4 and 6 with the defaults get 5.5, 19.5 and 31.5 |
| `Radius.ReversedRadiiExample` | src/Chart.Bubble.js:30-35 | with radii 30 and 5 (reversed) the sizes 1 and 2 of the range 1..2 get 31.5 and 5.5: the map is then decreasing |
| `SizeRange.JsMax` | src/Chart.Bubble.js:41 | `maxR` is `-Infinity` exactly for no points; otherwise it is one of the sizes and no size exceeds it |
| `SizeRange.JsMin` | src/Chart.Bubble.js:42 | `minR` is `Infinity` exactly for no points; otherwise it is one of the sizes and no size is below it |
| `SizeRange.RangeOfSeries` | src/Chart.Bubble.js:41-42 | for a non-empty series both bounds are finite, `minR <= r <= maxR` for every point, and both bounds are attained |
| `SizeRange.ConstantSeries` | src/Chart.Bubble.js:41-42 | a series whose sizes are all equal (a single point, say) has `minR == maxR`, the degenerate case of `getRadius` |
| `Categories.Unique` | src/Chart.Bubble.js:57 | uniquing keeps exactly the input's values, each once, and never lengthens the list |
| `Categories.Insert` | src/Chart.Bubble.js:59-60 | insertion adds exactly one element to the multiset |
| `Categories.InsertElements` | src/Chart.Bubble.js:59-60 | the inserted list holds the new value and the old values, nothing else |
| `Categories.InsertSorted` | src/Chart.Bubble.js:59-60 | insertion keeps a list ascending, and strictly ascending when the value is new |
| `Categories.SortAscending` | src/Chart.Bubble.js:59-60 | the numeric sort returns an ascending permutation of its input, strictly ascending when the input has no duplicates |
| `Categories.Labels` | src/Chart.Bubble.js:56-62 | definition: the labels handed to the scale are `label` applied to each domain value, in domain order |
| `Categories.Domain` | src/Chart.Bubble.js:57-60 | the category domain is strictly ascending, holds exactly the set of input x values, and has at most one entry per point |
| `Categories.AscendingUnique` | src/Chart.Bubble.js:59-60 | two strictly ascending lists with the same values are equal |
| `Categories.DomainIsCanonical` | src/Chart.Bubble.js:57-60 | the domain is the one strictly ascending enumeration of the distinct x values |
| `Categories.DistinctCount` | src/Chart.Bubble.js:57 | a list without duplicates has as many entries as distinct values |
| `Categories.CategoryCount` | src/Chart.Bubble.js:106 | `valuesCount`, the number of labels, equals the number of distinct x values and is at most the number of points |
| `Categories.RepeatedCategoryExample` | src/Chart.Bubble.js:56-62 | x values `[1, 1, 2]` give the two categories `[1, 2]` |
| `Categories.SwappedOrderExample` | src/Chart.Bubble.js:56-66 | x values `[2, 1]` give the domain `[1, 2]`, so the first domain entry is not the first point's x value |
| `Chart.DefaultOptions` | src/Chart.Bubble.js:8-16 | the defaults are radii 5 and 30 and the identity label |
| `Chart.EasingDecimal` | src/Chart.Bubble.js:143 | `ease or 1` is 1 for a missing easing and for 0, keeps every other value, and is never 0 |
| `Chart.Bubble.HasValue` | src/Chart.Bubble.js:151 | definition: `hasValue()` holds exactly when the bubble's value is present |
| `Chart.Bubble.Save` | src/Chart.Bubble.js:71 | definition: `save()` makes the current attributes the baseline and changes nothing else |
| `Chart.Start` | src/Chart.Bubble.js:65-69 | definition: a bubble starts at `calculateX(index)` of its insertion index, at the scale's `endPoint`, with radius `bubbleMinRadius` |
| `Chart.Placed` | src/Chart.Bubble.js:45-52 | definition: a placed bubble keeps its point's `y` as value and `r` as size, and its current and saved attributes are its start |
| `Chart.NewBubbles` | src/Chart.Bubble.js:45-52 | one bubble per point, in input order, with `value == y` and `size == r` |
| `Chart.PlaceBubbles` | src/Chart.Bubble.js:64-72 | every bubble is put at `(calculateX(index), endPoint, bubbleMinRadius)` and saved there |
| `Chart.BubbleChart.TargetRadius` | src/Chart.Bubble.js:155 | the radius target is finite exactly when `minR != maxR`, and then an odd integer plus 0.5; for `minR == maxR` it is NaN exactly when the size is `minR` or the radii are equal |
| `Chart.BubbleChart.Target` | src/Chart.Bubble.js:152-156 | definition: the target is `(calculateX(index), calculateY(value), getRadius(size, minR, maxR))` |
| `Chart.BubbleChart.Drawn` | src/Chart.Bubble.js:150-160 | a bubble without a value is unchanged; a valued one gets `transition(saved, target, ease)` as its attributes; value, size and baseline never change |
| `Chart.BubbleChart.constructor` | src/Chart.Bubble.js:21-75 | `minR`/`maxR` are the min/max of all sizes; there is one bubble per point in order, with value `y` and size `r`, placed and saved at its insertion-index start; the scale is built from the category labels, with `valuesCount` equal to their number, and from the values `dataTotal()` reports, which are the points' `y` in order |
| `Chart.BubbleChart.DataTotal` | src/Chart.Bubble.js:88-95 | `dataTotal()` returns every bubble's value, in bubble order |
| `Chart.BubbleChart.Draw` | src/Chart.Bubble.js:142-160 | each bubble with a value is transitioned from its baseline toward `(calculateX(index), calculateY(value), getRadius(size, minR, maxR))` with easing `ease or 1`; every other bubble is unchanged |
| `Chart.BubbleChart.Update` | src/Chart.Bubble.js:76-84 | the scale is refitted to the bubble values `dataTotal()` reports, and every bubble saves its current attributes |
| `Chart.BubbleChart.TargetRadiusRange` | src/Chart.Bubble.js:155 | a valued bubble's radius target is NaN exactly when `minR == maxR` (every size then equals `minR`); otherwise, with `bubbleMinRadius <= bubbleMaxRadius`, it is an odd integer plus 0.5 between `round(bubbleMinRadius)+0.5` and `round(bubbleMaxRadius)+1.5` |
| `Chart.BubbleChart.TargetRadiusMonotone` | src/Chart.Bubble.js:155 | for `minR != maxR` and `bubbleMinRadius <= bubbleMaxRadius`, a bubble of greater size never gets a smaller radius target |

## Left out

- Canvas work is not modelled: `clear()`, the drawing context, `bubble.draw()`, `scale.draw(easingDecimal)`, and stroke/fill colours and widths. These calls only render.
- `render()` (the end of `initialize` and `update`) is outside code. It schedules the animation frames that call `draw(ease)`; `Draw` models one such frame.
- `Chart.Scale` internals are parameters, not models: `calculateX`, `calculateY`, `endPoint`, the scale's update, and `helpers.calculateScaleRange`. They live in outside code and work on floating-point pixels. The model hands the scale the values `dataTotal()` reports when it is built or updated. In the code the scale calls `dataTotal()` back through `calculateYRange` whenever it refits; bubble values never change after `initialize`, so every such call reports the same values.
- The shape primitive's `transition` interpolation and `save()` snapshot are outside code. `transition` is a given function of baseline, target and easing. `save()` copies the current attributes; other properties are not modelled.
- `reflow`, the font, the grid-line options and `xLabelBoundsOnly` are only passed on to the scale, so they are not modelled.
- `parseFloat`, NaN inputs and IEEE overflow are not modelled. x values, values and sizes are reals, and a missing value is `None`.
- `helpers.unique` is defined outside this file. It is modelled as keeping the first occurrence of each value. Because the result is sorted next, `Categories.DomainIsCanonical` shows that its order does not matter.
- `Array.prototype.sort` is modelled as insertion sort. `Categories.DomainIsCanonical` shows that any correct ascending sort gives the same domain.
- The `label` option is any function applied to each domain value. `map` also passes the index and the array to it; the model passes only the value.
- The selection-area, hover and corner-delete interaction is not in this file and is not modelled.
- `Radius.GetRadiusMonotone`, `Radius.GetRadiusBounds`, `Chart.BubbleChart.TargetRadiusRange` (its bounds clause) and `Chart.BubbleChart.TargetRadiusMonotone`: require `bubbleMinRadius <= bubbleMaxRadius`. The source does not check this, and with reversed radii the map is non-increasing, so a larger bubble gets a smaller radius. They also require `min < max`; for `min == max` the radius is NaN or an infinity, as `Radius.GetRadius` states.
