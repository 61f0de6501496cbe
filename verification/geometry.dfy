/**
 Where each bar goes: the default placement functions `_baseLeft` and
 `_baseHeight` (js/index.js, lines 67-81) and the numbers `redraw` computes
 for every datum (lines 57-62).

 Both placement functions divide: `_baseLeft` by the bar count and
 `_baseHeight` by the span of the effective bounds. Where the source would
 produce NaN or Infinity (an undefined field, no bars, an empty span) the
 model has a precondition instead.
 */
module Geometry {
  import opened Chart

  /** The fixed width every bar gets, in pixels. */
  const BarWidth: real := 10.0

  /** One bar as `redraw` styles it: all values in pixels, `top` measured down from the top edge. */
  datatype Bar = Bar(top: real, left: real, width: real, height: real)

  /** `_baseLeft` is defined: the width and a non-zero bar count are known. */
  predicate HasHorizontalScale(c: Chart)
  {
    c.width.Some? && c.numBars.Some? && c.numBars.value != 0
  }

  /** `_baseHeight` is defined: the height and both effective bounds are known, and the bounds differ. */
  predicate HasVerticalScale(c: Chart)
  {
    && c.height.Some?
    && EffectiveMin(c).Some?
    && EffectiveMax(c).Some?
    && EffectiveMin(c).value != EffectiveMax(c).value
  }

  predicate Drawable(c: Chart)
  {
    HasHorizontalScale(c) && HasVerticalScale(c)
  }

  /** The horizontal distance between the left edges of neighbouring bars. */
  function Pitch(c: Chart): real
    requires HasHorizontalScale(c)
  {
    c.width.value / c.numBars.value as real
  }

  /**
   `_baseLeft(x, i)`: bar `i` starts at the fraction `i / numBars` of the
   width. Stated without division: `left * numBars == i * width`, which fixes
   `left` because `numBars` is not zero.
   */
  function BaseLeft(c: Chart, x: real, i: nat): (left: real)
    requires HasHorizontalScale(c)
    ensures left * c.numBars.value as real == i as real * c.width.value
  {
    (i as real / c.numBars.value as real) * c.width.value
  }

  /**
   `_baseHeight(y, i)`: `y` is mapped linearly from the effective bounds
   onto `[0, height]`. Stated without division:
   `h * (hi - lo) == (y - lo) * height`, which fixes `h` because `hi != lo`.
   */
  function BaseHeight(c: Chart, y: real, i: nat): (h: real)
    requires HasVerticalScale(c)
    ensures h * (EffectiveMax(c).value - EffectiveMin(c).value) == (y - EffectiveMin(c).value) * c.height.value
  {
    var lo := EffectiveMin(c).value;
    var hi := EffectiveMax(c).value;
    (y - lo) / (hi - lo) * c.height.value
  }

  /** The bar `redraw` draws for datum `y` at index `i`. */
  function BarAt(c: Chart, y: real, i: nat): (b: Bar)
    requires Drawable(c)
    ensures b.top + b.height == c.height.value
    ensures b.left == BaseLeft(c, y, i) && b.height == BaseHeight(c, y, i)
    ensures b.width == BarWidth
  {
    var h := BaseHeight(c, y, i);
    Bar(c.height.value - h, BaseLeft(c, y, i), BarWidth, h)
  }

  /** `redraw` can compute every bar: the data is set, and if there is any, both placement functions are defined. */
  predicate CanRedraw(c: Chart)
  {
    c.data.Some? && (|c.data.value| > 0 ==> Drawable(c))
  }

  /**
   The numbers `redraw` computes: one bar per datum, in data order, each
   standing on the bottom edge of the chart.
   */
  method Redraw(c: Chart) returns (bars: seq<Bar>)
    requires CanRedraw(c)
    ensures |bars| == |c.data.value|
    ensures forall i :: 0 <= i < |bars| ==> bars[i] == BarAt(c, c.data.value[i], i)
    ensures forall i :: 0 <= i < |bars| ==> bars[i].top + bars[i].height == c.height.value
  {
    var d := c.data.value;
    bars := [];
    var i := 0;
    while i < |d|
      invariant 0 <= i <= |d|
      invariant |bars| == i
      invariant forall j :: 0 <= j < i ==> bars[j] == BarAt(c, d[j], j)
    {
      bars := bars + [BarAt(c, d[i], i)];
      i := i + 1;
    }
  }

  // ----- Horizontal placement -----

  /** The first bar starts at the left edge. */
  lemma FirstBarAtLeftEdge(c: Chart, x: real)
    requires HasHorizontalScale(c)
    ensures BaseLeft(c, x, 0) == 0.0
  {
  }

  /** The horizontal position depends on the index only, never on the datum. */
  lemma LeftIgnoresDatum(c: Chart, x1: real, x2: real, i: nat)
    requires HasHorizontalScale(c)
    ensures BaseLeft(c, x1, i) == BaseLeft(c, x2, i)
  {
  }

  /** Bar `i` starts `i` pitches from the left edge. */
  lemma LeftIsIndexTimesPitch(c: Chart, x: real, i: nat)
    requires HasHorizontalScale(c)
    ensures BaseLeft(c, x, i) == i as real * Pitch(c)
  {
  }

  /** Neighbouring bars are exactly one pitch apart: the bars are spaced uniformly. */
  lemma UniformSpacing(c: Chart, x: real, y: real, i: nat)
    requires HasHorizontalScale(c)
    ensures BaseLeft(c, y, i + 1) - BaseLeft(c, x, i) == Pitch(c)
  {
  }

  /** With a positive width, every bar of the chart starts inside it: at or right of the left edge, left of the right edge. */
  lemma LeftWithinWidth(c: Chart, x: real, i: nat)
    requires HasHorizontalScale(c) && c.width.value > 0.0
    requires i < c.numBars.value
    ensures 0.0 <= BaseLeft(c, x, i) < c.width.value
  {
    var n := c.numBars.value as real;
    var w := c.width.value;
    LeftIsIndexTimesPitch(c, x, i);
    assert Pitch(c) > 0.0;
    assert Pitch(c) * n == w;
    assert i as real * Pitch(c) < n * Pitch(c) by {
      assert (n - i as real) * Pitch(c) > 0.0;
    }
  }

  /** With a positive width, bars further right in the data are further right on the chart. */
  lemma LeftStrictlyIncreasing(c: Chart, x: real, y: real, i: nat, j: nat)
    requires HasHorizontalScale(c) && c.width.value > 0.0
    requires i < j
    ensures BaseLeft(c, x, i) < BaseLeft(c, y, j)
  {
    LeftIsIndexTimesPitch(c, x, i);
    LeftIsIndexTimesPitch(c, y, j);
    assert Pitch(c) > 0.0;
    assert (j as real - i as real) * Pitch(c) > 0.0;
  }

  // ----- Vertical placement -----

  /** The effective minimum gets a zero-height bar, the effective maximum a full-height one. */
  lemma HeightEndpoints(c: Chart, i: nat)
    requires HasVerticalScale(c)
    ensures BaseHeight(c, EffectiveMin(c).value, i) == 0.0
    ensures BaseHeight(c, EffectiveMax(c).value, i) == c.height.value
  {
  }

  /**
   The height map is the linear interpolation between the bounds: the value
   lying the fraction `t` of the way from the effective minimum to the
   effective maximum gets the fraction `t` of the full height.
   */
  lemma HeightIsProportional(c: Chart, t: real, i: nat)
    requires HasVerticalScale(c)
    ensures
      var lo := EffectiveMin(c).value;
      var hi := EffectiveMax(c).value;
      BaseHeight(c, lo + t * (hi - lo), i) == t * c.height.value
  {
  }

  /** The height depends on the datum only, never on the index. */
  lemma HeightIgnoresIndex(c: Chart, y: real, i: nat, j: nat)
    requires HasVerticalScale(c)
    ensures BaseHeight(c, y, i) == BaseHeight(c, y, j)
  {
  }

  /** With the bounds in order and a non-negative height, larger data get taller bars. */
  lemma HeightMonotonic(c: Chart, y1: real, y2: real, i: nat, j: nat)
    requires HasVerticalScale(c)
    requires EffectiveMin(c).value < EffectiveMax(c).value && c.height.value >= 0.0
    requires y1 <= y2
    ensures BaseHeight(c, y1, i) <= BaseHeight(c, y2, j)
  {
    var lo := EffectiveMin(c).value;
    var hi := EffectiveMax(c).value;
    var h := c.height.value;
    assert BaseHeight(c, y2, j) - BaseHeight(c, y1, i) == (y2 - y1) / (hi - lo) * h;
    assert (y2 - y1) / (hi - lo) >= 0.0;
  }

  /** Any value between the effective bounds gets a height between zero and the full height. */
  lemma HeightWithinBounds(c: Chart, y: real, i: nat)
    requires HasVerticalScale(c) && c.height.value >= 0.0
    requires EffectiveMin(c).value <= y <= EffectiveMax(c).value
    ensures 0.0 <= BaseHeight(c, y, i) <= c.height.value
  {
    HeightEndpoints(c, i);
    HeightMonotonic(c, EffectiveMin(c).value, y, i, i);
    HeightMonotonic(c, y, EffectiveMax(c).value, i, i);
  }

  /**
   Without the custom scale the bounds are the data's own minimum and
   maximum, so every datum's bar is between zero and the full height.
   */
  lemma DataHeightsWithinChart(c: Chart, k: nat)
    requires Consistent(c) && HasVerticalScale(c) && !c.useCustomScale
    requires c.height.value >= 0.0
    requires c.data.Some? && k < |c.data.value|
    ensures 0.0 <= BaseHeight(c, c.data.value[k], k) <= c.height.value
  {
    DerivedBoundsOrdered(c);
    HeightWithinBounds(c, c.data.value[k], k);
  }

  // ----- The bars -----

  /** A larger datum gives a bar reaching higher: its `top` is no lower. */
  lemma LargerDatumHigherTop(c: Chart, y1: real, y2: real, i: nat, j: nat)
    requires Drawable(c)
    requires EffectiveMin(c).value < EffectiveMax(c).value && c.height.value >= 0.0
    requires y1 <= y2
    ensures BarAt(c, y2, j).top <= BarAt(c, y1, i).top
  {
  }

  /**
   For a chart whose data was set by `withData` and which uses no custom
   scale, every bar lies inside the `width` x `height` box: it starts inside
   the width, and both its top and its bottom are within the height.
   */
  lemma BarsInsideChart(c: Chart, k: nat)
    requires Consistent(c) && Drawable(c) && !c.useCustomScale
    requires c.width.value > 0.0 && c.height.value >= 0.0
    requires c.data.Some? && k < |c.data.value|
    ensures var b := BarAt(c, c.data.value[k], k);
      && 0.0 <= b.left < c.width.value
      && 0.0 <= b.top <= c.height.value
      && 0.0 <= b.height <= c.height.value
  {
    DataHeightsWithinChart(c, k);
    LeftWithinWidth(c, c.data.value[k], k);
  }

  /** Changing the width moves bars sideways only; changing the height leaves horizontal positions alone. */
  lemma SettersTouchOneAxis(c: Chart, w: Option<real>, h: Option<real>, y: real, i: nat)
    requires Drawable(c)
    ensures BaseHeight(WithWidth(c, w), y, i) == BaseHeight(c, y, i)
    ensures BaseLeft(WithHeight(c, h), y, i) == BaseLeft(c, y, i)
  {
  }
}
