/**
 * Value types shared by the plot components: the `PlotPoint` record and the
 * shapes of the `sizes`, `padding`, `scale` and `range` props, plus the
 * rounding the plot surface applies (`Math.round`).
 * Numbers are modelled as reals; floating point is not modelled.
 */
module Geometry {

  /** A point in data-domain units (`PlotPoint`). */
  datatype Point = Point(x: real, y: real)

  /** The drawable pixel area (`sizes`). */
  datatype Sizes = Sizes(height: real, width: real)

  /** Pixels reserved for the axis labels (`padding`). */
  datatype Padding = Padding(left: real, bottom: real)

  /** Pixels per domain unit, per axis (`scale`). */
  datatype Scale = Scale(x: real, y: real)

  /** A domain interval `[lo, hi]`, the source's two-element array. */
  datatype Interval = Interval(lo: real, hi: real)

  /** The domain intervals of both axes (`range`). */
  datatype Range = Range(x: Interval, y: Interval)

  predicate IsInteger(v: real) {
    v.Floor as real == v
  }

  /** `Math.round`: the integer nearest to `v`, halves rounded up. */
  function Round(v: real): (r: int)
    ensures r as real - 0.5 <= v < r as real + 0.5
    ensures IsInteger(v) ==> r as real == v
  {
    var r := (v + 0.5).Floor;
    assert r as real <= v + 0.5 < r as real + 1.0;
    assert IsInteger(v) ==> r == v.Floor by {
      if IsInteger(v) {
        var d := r - v.Floor;
        assert -0.5 < d as real <= 0.5;
      }
    }
    r
  }
}
