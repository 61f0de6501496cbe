/**
 The usage example at the bottom of js/index.js (lines 88-91): a 700 x 500
 chart opted into the custom scale, given the data `[1, 12, 4, 7, 5, 6, 7]`
 and the scale `{minY: 0, maxY: 20}`.
 */
module Scenario {
  import opened Chart
  import opened Geometry
  import Extrema

  const Data: seq<real> := [1.0, 12.0, 4.0, 7.0, 5.0, 6.0, 7.0]

  /**
   The setter chain of the example and the state it builds: `withData`
   derives the data's own bounds, 1 and 12, and the chart is 700 x 500.
   */
  method SetUpExample(useCustomScale: bool, scale: Scale) returns (c: Chart)
    ensures c.width == Some(700.0) && c.height == Some(500.0)
    ensures c.data == Some(Data) && c.numBars == Some(7)
    ensures c.minY == Some(1.0) && c.maxY == Some(12.0)
    ensures c.scale == scale && c.useCustomScale == useCustomScale
  {
    c := New(NoOptions.(useCustomScale := useCustomScale));
    c := WithWidth(c, Some(700.0));
    c := WithHeight(c, Some(500.0));
    ExampleBounds(Data);
    c := WithData(c, Data);
    c := WithScale(c, scale);
  }

  /** Data such as the example's, starting 1, 12 and lying between the two, has 1 and 12 as its extremes. */
  lemma ExampleBounds(d: seq<real>)
    requires |d| > 1 && d[0] == 1.0 && d[1] == 12.0
    requires forall k :: 0 <= k < |d| ==> 1.0 <= d[k] <= 12.0
    ensures Lowest(d) == Some(1.0) && Highest(d) == Some(12.0)
  {
    Extrema.MinIsUnique(d, 1.0);
    Extrema.MaxIsUnique(d, 12.0);
  }

  /**
   Running the example: the custom bounds 0 and 20 replace the derived 1 and
   12, so the datum 12 gets a bar of height 300 rather than the full 500; the
   bars are 100 pixels apart.
   */
  method RunExample() returns (bars: seq<Bar>)
    ensures bars == [
      Bar(475.0, 0.0, 10.0, 25.0),
      Bar(200.0, 100.0, 10.0, 300.0),
      Bar(400.0, 200.0, 10.0, 100.0),
      Bar(325.0, 300.0, 10.0, 175.0),
      Bar(375.0, 400.0, 10.0, 125.0),
      Bar(350.0, 500.0, 10.0, 150.0),
      Bar(325.0, 600.0, 10.0, 175.0)]
  {
    var c := SetUpExample(true, Scale(Some(0.0), Some(20.0)));
    assert EffectiveMin(c) == Some(0.0) && EffectiveMax(c) == Some(20.0);
    CustomScaleBar(c, 1.0, 0);
    CustomScaleBar(c, 12.0, 1);
    CustomScaleBar(c, 4.0, 2);
    CustomScaleBar(c, 7.0, 3);
    CustomScaleBar(c, 5.0, 4);
    CustomScaleBar(c, 6.0, 5);
    CustomScaleBar(c, 7.0, 6);
    bars := Redraw(c);
  }

  /** In the example with the custom scale, datum `y` at index `i` gets the height `25 * y` and the left edge `100 * i`. */
  lemma CustomScaleBar(c: Chart, y: real, i: nat)
    requires c.width == Some(700.0) && c.height == Some(500.0) && c.numBars == Some(7)
    requires EffectiveMin(c) == Some(0.0) && EffectiveMax(c) == Some(20.0)
    ensures Drawable(c)
    ensures BarAt(c, y, i) == Bar(500.0 - 25.0 * y, 100.0 * i as real, 10.0, 25.0 * y)
  {
  }

  /**
   The same chart without opting in to the custom scale: the bounds are the
   data's own, so the smallest datum gets no height and the largest the full
   height, whatever the scale object says.
   */
  method RunExampleWithoutCustomScale(scale: Scale) returns (bars: seq<Bar>)
    ensures |bars| == 7
    ensures bars[0] == Bar(500.0, 0.0, 10.0, 0.0)
    ensures bars[1] == Bar(0.0, 100.0, 10.0, 500.0)
  {
    var c := SetUpExample(false, scale);
    assert EffectiveMin(c) == Some(1.0) && EffectiveMax(c) == Some(12.0);
    HeightEndpoints(c, 0);
    HeightEndpoints(c, 1);
    FirstBarAtLeftEdge(c, 1.0);
    assert BaseLeft(c, 12.0, 1) * 7.0 == 700.0;
    bars := Redraw(c);
  }
}
