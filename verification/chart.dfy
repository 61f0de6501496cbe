/**
 The state of a `BarChart` and its fluent setters (js/index.js, lines 5-44).

 JavaScript's `undefined` is `None`. The setters return the updated state
 instead of mutating `this`; chaining `c.withWidth(a).withHeight(b)` becomes
 `WithHeight(WithWidth(c, a), b)`.
 */
module Chart {
  import Extrema

  datatype Option<T> = None | Some(value: T)

  /** The user-supplied `scale` object: either bound may be left undefined. */
  datatype Scale = Scale(minY: Option<real>, maxY: Option<real>)

  /** The options object handed to the constructor (the container and the plotting hooks are not modelled). */
  datatype Options = Options(
    width: Option<real>,
    height: Option<real>,
    data: Option<seq<real>>,
    minY: Option<real>,
    maxY: Option<real>,
    useCustomScale: bool)

  /** The options a chart gets when none are passed: every property undefined, so `useCustomScale` is falsy. */
  const NoOptions := Options(None, None, None, None, None, false)

  /**
   The chart state. `numBars`, `minY` and `maxY` are derived by `WithData`;
   `minY`/`maxY` are `None` until then, and also when the data is empty
   (underscore returns the infinities there, which are no usable bound).
   */
  datatype Chart = Chart(
    width: Option<real>,
    height: Option<real>,
    data: Option<seq<real>>,
    scale: Scale,
    useCustomScale: bool,
    numBars: Option<nat>,
    minY: Option<real>,
    maxY: Option<real>)

  /** The least value of `d`, if `d` has one. */
  function Lowest(d: seq<real>): (r: Option<real>)
    ensures r.None? <==> |d| == 0
    ensures r.Some? ==> r.value in d && forall k :: 0 <= k < |d| ==> r.value <= d[k]
  {
    if |d| == 0 then None else Some(Extrema.Min(d))
  }

  /** The greatest value of `d`, if `d` has one. */
  function Highest(d: seq<real>): (r: Option<real>)
    ensures r.None? <==> |d| == 0
    ensures r.Some? ==> r.value in d && forall k :: 0 <= k < |d| ==> d[k] <= r.value
  {
    if |d| == 0 then None else Some(Extrema.Max(d))
  }

  /**
   The derived fields agree with the data they were derived from: either
   nothing has been derived yet, or `numBars` is the length of the data and
   `minY`/`maxY` are its extremes.
   */
  predicate Consistent(c: Chart)
  {
    match c.numBars
    case None => c.minY.None? && c.maxY.None?
    case Some(n) =>
      && c.data.Some?
      && n == |c.data.value|
      && c.minY == Lowest(c.data.value)
      && c.maxY == Highest(c.data.value)
  }

  /**
   `new BarChart(opts)`: copies the options; the scale bounds come from
   `opts.minY`/`opts.maxY`. Nothing is derived from `opts.data`.
   */
  function New(opts: Options): (c: Chart)
    ensures c.width == opts.width && c.height == opts.height && c.data == opts.data
    ensures c.scale == Scale(opts.minY, opts.maxY)
    ensures c.useCustomScale == opts.useCustomScale
    ensures c.numBars.None? && c.minY.None? && c.maxY.None?
    ensures Consistent(c)
  {
    Chart(opts.width, opts.height, opts.data, Scale(opts.minY, opts.maxY), opts.useCustomScale, None, None, None)
  }

  /** `withWidth`: sets the width, possibly to undefined when called without an argument, and nothing else. */
  function WithWidth(c: Chart, width: Option<real>): (r: Chart)
    ensures r.width == width
    ensures r.(width := c.width) == c
    ensures Consistent(c) ==> Consistent(r)
  {
    c.(width := width)
  }

  /** `withHeight`: sets the height, possibly to undefined when called without an argument, and nothing else. */
  function WithHeight(c: Chart, height: Option<real>): (r: Chart)
    ensures r.height == height
    ensures r.(height := c.height) == c
    ensures Consistent(c) ==> Consistent(r)
  {
    c.(height := height)
  }

  /** `withScale`: replaces the whole scale object and nothing else. */
  function WithScale(c: Chart, scale: Scale): (r: Chart)
    ensures r.scale == scale
    ensures r.(scale := c.scale) == c
    ensures Consistent(c) ==> Consistent(r)
  {
    c.(scale := scale)
  }

  /**
   `withData`: stores the data and derives the bar count and the data's
   minimum and maximum. Width, height and scale settings are untouched.
   */
  function WithData(c: Chart, d: seq<real>): (r: Chart)
    ensures r.data == Some(d) && r.numBars == Some(|d|)
    ensures |d| == 0 ==> r.minY.None? && r.maxY.None?
    ensures |d| > 0 ==>
              && r.minY.Some? && r.maxY.Some?
              && r.minY.value in d && r.maxY.value in d
              && forall k :: 0 <= k < |d| ==> r.minY.value <= d[k] <= r.maxY.value
    ensures r.width == c.width && r.height == c.height
    ensures r.scale == c.scale && r.useCustomScale == c.useCustomScale
    ensures Consistent(r)
  {
    c.(data := Some(d), numBars := Some(|d|), minY := Lowest(d), maxY := Highest(d))
  }

  /** The lower bound the heights are measured from: the custom one when opted in and defined, else the data's. */
  function EffectiveMin(c: Chart): (lo: Option<real>)
    ensures c.useCustomScale && c.scale.minY.Some? ==> lo == c.scale.minY
    ensures !(c.useCustomScale && c.scale.minY.Some?) ==> lo == c.minY
  {
    if c.useCustomScale && c.scale.minY.Some? then c.scale.minY else c.minY
  }

  /** The upper bound of the heights, chosen like `EffectiveMin` but independently of it. */
  function EffectiveMax(c: Chart): (hi: Option<real>)
    ensures c.useCustomScale && c.scale.maxY.Some? ==> hi == c.scale.maxY
    ensures !(c.useCustomScale && c.scale.maxY.Some?) ==> hi == c.maxY
  {
    if c.useCustomScale && c.scale.maxY.Some? then c.scale.maxY else c.maxY
  }

  /** Only the latest data counts: a second `withData` leaves no trace of the first. */
  lemma WithDataForgetsEarlierData(c: Chart, d1: seq<real>, d2: seq<real>)
    ensures WithData(WithData(c, d1), d2) == WithData(c, d2)
  {
  }

  /** Setting the same field twice keeps the later value; setting different fields commutes. */
  lemma SettersOverwriteAndCommute(c: Chart, w1: Option<real>, w2: Option<real>, h: Option<real>, s: Scale, d: seq<real>)
    ensures WithWidth(WithWidth(c, w1), w2) == WithWidth(c, w2)
    ensures WithWidth(WithHeight(c, h), w1) == WithHeight(WithWidth(c, w1), h)
    ensures WithScale(WithData(c, d), s) == WithData(WithScale(c, s), d)
  {
  }

  /** Without the opt-in flag the scale object, whatever it holds, has no effect on the bounds used. */
  lemma ScaleIgnoredWithoutOptIn(c: Chart, s: Scale)
    requires !c.useCustomScale
    ensures EffectiveMin(WithScale(c, s)) == c.minY
    ensures EffectiveMax(WithScale(c, s)) == c.maxY
  {
  }

  /** The two bounds are overridden independently: the custom maximum never affects the lower bound, and vice versa. */
  lemma OverridesAreIndependent(c: Chart, m: Option<real>)
    ensures EffectiveMin(c.(scale := c.scale.(maxY := m))) == EffectiveMin(c)
    ensures EffectiveMax(c.(scale := c.scale.(minY := m))) == EffectiveMax(c)
  {
  }

  /**
   Without the custom scale the derived bounds are never inverted: a chart
   whose data has distinct extremes has its effective minimum strictly below
   its effective maximum.
   */
  lemma DerivedBoundsOrdered(c: Chart)
    requires Consistent(c) && !c.useCustomScale
    requires EffectiveMin(c).Some? && EffectiveMax(c).Some?
    requires EffectiveMin(c).value != EffectiveMax(c).value
    ensures EffectiveMin(c).value < EffectiveMax(c).value
  {
    Extrema.MinAtMostMax(c.data.value);
  }

  /** A chart built with data in its options cannot place bars yet: `numBars` stays undefined until `withData`. */
  lemma ConstructorDerivesNothing(opts: Options)
    requires opts.data.Some?
    ensures New(opts).numBars.None?
    ensures WithData(New(opts), opts.data.value).numBars == Some(|opts.data.value|)
  {
  }
}
