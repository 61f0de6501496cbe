# Bar chart geometry

A Dafny model of the geometry of the animated bar chart in `js/index.js`. It covers the `BarChart` state and its fluent setters, and the default placement functions `_baseLeft` and `_baseHeight`. It also covers the numbers `redraw` computes for each datum: the bar's `top`, `left`, `width` and `height`.

- `extrema.dfy` (module `Extrema`): the minimum and maximum of a non-empty sequence, as underscore's `_.min`/`_.max` return them for an array of numbers.
- `chart.dfy` (module `Chart`): the chart state as an immutable record, and the constructor. Each setter returns the updated record, so `c.withWidth(a).withHeight(b)` becomes `WithHeight(WithWidth(c, a), b)`. Also here: the effective bounds, where the optional scale override is applied.
- `geometry.dfy` (module `Geometry`): `BaseLeft`, `BaseHeight` and the bar `redraw` styles for each datum, with lemmas on horizontal spacing, the height map, and where bars lie.
- `scenario.dfy` (module `Scenario`): the usage example at the bottom of `js/index.js`, worked out bar by bar.

How JavaScript values are modelled:

- Numbers are Dafny `real`.
- `undefined` is `None` of an `Option`.
- The truthiness of `useCustomScale` is a `bool`.
- For empty data, underscore's `_.min`/`_.max` return `Infinity`/`-Infinity`, which are not usable bounds. The derived `minY`/`maxY` are `None` in that case. `withData` itself accepts any data.
- `_baseLeft` divides by the bar count, and `_baseHeight` by the span of the effective bounds. In JavaScript, dividing by zero or using an undefined field gives `NaN` or `Infinity`. In the model these cases are preconditions instead:
  - `HasHorizontalScale`: the width is set and the bar count is set and non-zero.
  - `HasVerticalScale`: the height and both effective bounds are set, and the bounds differ.

The constructor stores `opts.data` but derives neither `numBars` nor `minY`/`maxY` from it (js/index.js:11, compare 34-40). So a chart built with data in its options has no horizontal scale until `withData` is called. `Chart.ConstructorDerivesNothing` states this, and the model keeps it as the source has it.

The predicate `Chart.Consistent` says the derived fields agree with the stored data. The constructor establishes it, and every setter preserves it, as long as the caller does not change the data array after passing it (see "## Left out").

## Model

| member | source | states |
|---|---|---|
| Extrema.Min | js/index.js:37 | the result is an element of the data and no element is smaller |
| Extrema.Max | js/index.js:38 | the result is an element of the data and no element is larger |
| Extrema.MinIsUnique | js/index.js:37 | an element no larger than any other is exactly what `_.min` returns |
| Extrema.MaxIsUnique | js/index.js:38 | an element no smaller than any other is exactly what `_.max` returns |
| Extrema.MinAtMostMax | js/index.js:37-38 | for non-empty data the derived minimum never exceeds the derived maximum |
| Chart.Lowest | js/index.js:37 | there is a lower bound exactly when the data is non-empty, and it is an element no larger than any other |
| Chart.Highest | js/index.js:38 | there is an upper bound exactly when the data is non-empty, and it is an element no smaller than any other |
| Chart.New | js/index.js:5-18 | the constructor copies width, height, data and the opt-in flag, and builds the scale from `opts.minY`/`opts.maxY`; it derives no bar count or bounds, so the state starts consistent |
| Chart.WithWidth | js/index.js:26-29 | the width becomes the argument, undefined when none is passed; every other field is unchanged; consistency is preserved |
| Chart.WithHeight | js/index.js:30-33 | the height becomes the argument, undefined when none is passed; every other field is unchanged; consistency is preserved |
| Chart.WithScale | js/index.js:41-44 | the whole scale object is replaced; every other field is unchanged; consistency is preserved |
| Chart.WithData | js/index.js:34-40 | the data is stored and `numBars` is its length; for non-empty data `minY` and `maxY` are elements of it with every datum between them; the other settings are unchanged |
| Chart.EffectiveMin | js/index.js:73-77 | the custom lower bound is used exactly when the chart opted in and that bound is defined; otherwise the derived minimum |
| Chart.EffectiveMax | js/index.js:73-78 | the custom upper bound is used exactly when the chart opted in and that bound is defined; otherwise the derived maximum |
| Chart.WithDataForgetsEarlierData | js/index.js:34-40 | a second `withData` leaves no trace of the first |
| Chart.SettersOverwriteAndCommute | js/index.js:26-44 | setting the width twice keeps the later value; setters of different fields can be applied in either order |
| Chart.ScaleIgnoredWithoutOptIn | js/index.js:77-78 | without the opt-in flag, any scale object leaves the effective bounds equal to the derived ones |
| Chart.OverridesAreIndependent | js/index.js:77-78 | the custom maximum never affects the lower bound, and the custom minimum never affects the upper bound |
| Chart.DerivedBoundsOrdered | js/index.js:37-38 | without the custom scale, distinct derived bounds are in order: the effective minimum lies strictly below the effective maximum |
| Chart.ConstructorDerivesNothing | js/index.js:5-18 | data passed to the constructor leaves `numBars` undefined; only `withData` sets it |
| Geometry.BaseLeft | js/index.js:69-71 | the left edge times the bar count equals the index times the width |
| Geometry.BaseHeight | js/index.js:72-81 | the height times the span of the effective bounds equals the datum's distance above the effective minimum times the chart height |
| Geometry.BarAt | js/index.js:60-62 | the bar's top plus its height is the chart height, so it stands on the bottom edge; its left is `_baseLeft`, its height `_baseHeight`, its width 10 |
| Geometry.Redraw | js/index.js:57-62 | one bar per datum, in data order; each bar is the one placed for that datum and index, and stands on the bottom edge |
| Geometry.FirstBarAtLeftEdge | js/index.js:70 | bar 0 starts at the left edge |
| Geometry.LeftIgnoresDatum | js/index.js:69-71 | the left edge depends on the index only, not on the datum |
| Geometry.LeftIsIndexTimesPitch | js/index.js:70 | bar `i` starts `i` pitches from the left edge, one pitch being the width divided by the bar count |
| Geometry.UniformSpacing | js/index.js:70 | neighbouring bars are exactly one pitch apart |
| Geometry.LeftWithinWidth | js/index.js:70 | with a positive width, every bar index below the bar count starts at or right of the left edge and strictly left of the right edge |
| Geometry.LeftStrictlyIncreasing | js/index.js:70 | with a positive width, a larger index gives a strictly larger left edge |
| Geometry.HeightEndpoints | js/index.js:80 | the effective minimum maps to height 0 and the effective maximum to the full chart height |
| Geometry.HeightIsProportional | js/index.js:80 | the value lying the fraction `t` of the way from the effective minimum to the effective maximum gets `t` times the chart height |
| Geometry.HeightIgnoresIndex | js/index.js:72-81 | the height depends on the datum only, not on the index |
| Geometry.HeightMonotonic | js/index.js:80 | with the effective bounds in order and a non-negative chart height, a larger datum never gets a shorter bar |
| Geometry.HeightWithinBounds | js/index.js:80 | any value between the effective bounds gets a height between 0 and the chart height |
| Geometry.DataHeightsWithinChart | js/index.js:73-80 | without the custom scale, every datum's bar height lies between 0 and the chart height |
| Geometry.LargerDatumHigherTop | js/index.js:60-62 | a larger datum gives a bar whose top is no lower |
| Geometry.BarsInsideChart | js/index.js:57-62 | without the custom scale, every bar starts inside the width and its top and height lie within the chart height |
| Geometry.SettersTouchOneAxis | js/index.js:26-33 | changing the width leaves every bar height unchanged; changing the height leaves every left edge unchanged |
| Scenario.ExampleBounds | js/index.js:91 | data starting 1, 12 and lying between them has derived bounds 1 and 12 |
| Scenario.SetUpExample | js/index.js:88-91 | the example's setter chain builds a 700 x 500 chart with 7 bars and derived bounds 1 and 12 |
| Scenario.CustomScaleBar | js/index.js:88-91 | under the custom scale 0 to 20 on the 700 x 500 chart with 7 bars, datum `y` at index `i` gets height `25y`, top `500 - 25y`, left `100i` |
| Scenario.RunExample | js/index.js:88-91 | the example draws exactly the seven bars listed; the datum 12 gets height 300, not the full 500, because the custom bounds 0 and 20 override the derived 1 and 12 |
| Scenario.RunExampleWithoutCustomScale | js/index.js:88-91 | the same chart without opting in: the datum 1 gets height 0 and the datum 12 the full height 500, whatever the scale object holds |

## Left out

- `withContainer`, `resizeContainer` and the jQuery `$container` handle (js/index.js:7-8, 21-25, 46-50): these only style the DOM.
- The d3 selection in `redraw` (js/index.js:53-64) is left out: element creation, the fixed style strings (`steelblue`, `position: absolute`), and d3's enter-only join, which appends only elements beyond those already present. `Geometry.Redraw` gives the numbers for every datum, as on a first draw into an empty container.
- The pluggable `opts._left`/`opts._height` hooks (js/index.js:12-13): only the default `_baseLeft`/`_baseHeight` are modelled.
- Division by zero: all effective bounds equal, `numBars == 0`, or an undefined width, height or bound. In JavaScript these give `NaN` or `Infinity`; the model makes them preconditions of `Geometry.BaseLeft` and `Geometry.BaseHeight`.
- Chart.Lowest: for empty data underscore's `_.min` returns `Infinity`; the model records no bound (`None`) instead of an infinite one.
- Chart.Highest: for empty data underscore's `_.max` returns `-Infinity`; the model records no bound (`None`) instead of an infinite one.
- IEEE floating point: rounding, `NaN` and the infinities are not modelled; numbers are exact reals.
- A scale property set to `null` rather than `undefined` passes the `!== undefined` test in JavaScript and then counts as 0. The model's scale bounds are only defined (`Some`) or undefined (`None`).
- `example/createJson.js`: a Node script that reads a file, splits and parses it, and writes JSON. It is only file I/O and float parsing.
- No policy for degenerate bounds (such as drawing every bar at height 0 when all values are equal) is invented: the code divides by zero there, so the model has preconditions.
- Chart.WithData: the data array is stored by reference (js/index.js:35) and `numBars`, `minY` and `maxY` are derived from it once (js/index.js:36-38), while `redraw` reads it again (js/index.js:57). The model treats the data as a value the caller never changes after passing it. If the caller changes the array afterwards, the program draws with stale `numBars`/`minY`/`maxY`, so `Chart.Consistent`, `Geometry.DataHeightsWithinChart` and `Geometry.BarsInsideChart` need not hold for it.
- Chart.WithScale: the scale object is also stored by reference (js/index.js:42) and read on every height computation (js/index.js:77-78). The model treats it as a value the caller never changes after passing it.
- Chart.WithData: only array data is modelled. The doc comment at js/index.js:3 describes `data` as an object mapping labels to numbers. The code does not handle that shape: `.length` (js/index.js:36) is undefined for such an object, so `numBars` is undefined and `_baseLeft` gives `NaN`, while `_.min`/`_.max` (js/index.js:37-38) still return the extremes of its values. The model follows the code's array use.
- Chart.WithData: `withData()` without an argument throws when reading `.length` of `undefined` (js/index.js:36). The model's `WithData` always receives a sequence.
- Chart.WithScale: `withScale()` without an argument stores `undefined`, and a later height computation with `useCustomScale` set throws when reading `this.scale.minY` (js/index.js:77). The model's `WithScale` always receives a `Scale`, whose bounds may each be undefined.
- Geometry.Redraw: `redraw` on a chart with no data (for example `new BarChart().redraw()`) passes `undefined` to d3's `data` (js/index.js:57), which throws. The model requires the data to be set (`Geometry.CanRedraw`) instead of modelling the throw.
