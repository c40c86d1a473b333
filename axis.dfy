/**
 * The axis (`Axis`): publishes the scale and range of its orientation to the
 * plot surface and lays out its ticks by repeatedly applying the tick
 * traveler from offset 0 while the offset stays below `max - min`.
 * Labels are kept as values of the label renderer's result type `L`.
 */
module AxisComponent {
  import opened Geometry
  import PlotComponent

  /** The `position` prop; any value other than the two known ones renders and sets nothing. */
  datatype Position = Bottom | Left | Other(name: string)

  datatype AxisProps<L> = AxisProps(
    max: real,
    min: real,
    padding: Padding,
    position: Position,
    renderLabel: real -> L,
    scale: Scale,
    sizes: Sizes,
    range: Range,
    tickSpan: real,
    tickTravaler: (real, real) -> real)

  /** The `defaultProps`. */
  function DefaultRenderLabel(value: real): real { value }
  const DefaultTickSpan: real := 10.0
  function DefaultTickTravaler(current: real, tickSpan: real): real { current + tickSpan }

  /** One of the compared props, as `getProps` lists them. */
  datatype PropValue =
    | SizesValue(sizes: Sizes)
    | NumberValue(n: real)
    | PositionValue(position: Position)
    | PaddingValue(padding: Padding)
    | RangeValue(range: Range)

  /** `getProps`: the props named by `KEYS_FOR_UPDATES`, in that order. */
  function GetProps<L>(p: AxisProps<L>): seq<PropValue> {
    [SizesValue(p.sizes), NumberValue(p.max), NumberValue(p.min),
     PositionValue(p.position), PaddingValue(p.padding), RangeValue(p.range)]
  }

  /** `zip(...).some(x => !equals(...x))`. */
  predicate SomeDiffers(xs: seq<PropValue>, ys: seq<PropValue>)
    requires |xs| == |ys|
  {
    exists i :: 0 <= i < |xs| && xs[i] != ys[i]
  }

  /**
   * `checkPropsUpdate`: true exactly when one of sizes, max, min, position,
   * padding or range differs.
   */
  function CheckPropsUpdate<L>(a: AxisProps<L>, b: AxisProps<L>): (changed: bool)
    ensures changed <==>
      a.sizes != b.sizes || a.max != b.max || a.min != b.min ||
      a.position != b.position || a.padding != b.padding || a.range != b.range
  {
    var xs, ys := GetProps(a), GetProps(b);
    assert a.sizes != b.sizes ==> xs[0] != ys[0];
    assert a.max != b.max ==> xs[1] != ys[1];
    assert a.min != b.min ==> xs[2] != ys[2];
    assert a.position != b.position ==> xs[3] != ys[3];
    assert a.padding != b.padding ==> xs[4] != ys[4];
    assert a.range != b.range ==> xs[5] != ys[5];
    SomeDiffers(xs, ys)
  }

  /** Changing only scale, renderLabel, tickSpan or tickTravaler does not update the axis. */
  lemma UpdateIgnoresPresentationProps<L>(p: AxisProps<L>, scale: Scale, renderLabel: real -> L,
                                          tickSpan: real, tickTravaler: (real, real) -> real)
    ensures !CheckPropsUpdate(p.(scale := scale, renderLabel := renderLabel, tickSpan := tickSpan,
                                 tickTravaler := tickTravaler), p)
  {
  }

  /**
   * The traveler moves every offset in `[0, extent)` forward by at least
   * `step`, so the tick loop ends. The default traveler does so with
   * `step == tickSpan` for any positive span.
   */
  ghost predicate Advances(travel: (real, real) -> real, span: real, extent: real, step: real) {
    step > 0.0 && forall c: real :: 0.0 <= c < extent ==> travel(c, span) >= c + step
  }

  /**
   * The offsets the tick loop visits from `pos` on: none when `pos` already
   * reaches `extent`, otherwise `pos` first, and every one in `[pos, extent)`.
   */
  function PositionsFrom(travel: (real, real) -> real, span: real, extent: real, ghost step: real,
                         pos: real): (s: seq<real>)
    requires Advances(travel, span, extent, step) && pos >= 0.0
    decreases (extent - pos) / step
    ensures s == [] <==> pos >= extent
    ensures s != [] ==> s[0] == pos
    ensures forall k :: 0 <= k < |s| ==> pos <= s[k] < extent
  {
    if pos < extent then
      var next := travel(pos, span);
      DecreasesByOne(extent, pos, next, step);
      [pos] + PositionsFrom(travel, span, extent, step, next)
    else []
  }

  lemma DecreasesByOne(extent: real, pos: real, next: real, step: real)
    requires step > 0.0 && pos < extent && next >= pos + step
    ensures (extent - next) / step <= (extent - pos) / step - 1.0
    ensures (extent - pos) / step >= 0.0
  {
    var q1, q2 := (extent - pos) / step, (extent - next) / step;
    assert q1 * step == extent - pos;
    assert q2 * step == extent - next;
    assert (q1 - q2 - 1.0) * step == next - pos - step;
    PositiveFactor(q1 - q2 - 1.0, step);
    PositiveFactor(q1, step);
  }

  lemma PositiveFactor(x: real, s: real)
    requires s > 0.0 && x * s >= 0.0
    ensures x >= 0.0
  {
  }

  /**
   * The offsets of an axis's ticks: those of the loop `while (pos < max - min)`,
   * starting at 0 (not at `min`); there are none when `max <= min`.
   */
  function TickPositions<L>(p: AxisProps<L>, ghost step: real): (s: seq<real>)
    requires Advances(p.tickTravaler, p.tickSpan, p.max - p.min, step)
    ensures s == [] <==> p.max <= p.min
    ensures s != [] ==> s[0] == 0.0
    ensures forall k :: 0 <= k < |s| ==> 0.0 <= s[k] < p.max - p.min
  {
    PositionsFrom(p.tickTravaler, p.tickSpan, p.max - p.min, step, 0.0)
  }

  /**
   * Consecutive visited offsets are linked by the traveler, and the traveler
   * takes the last one to `extent` or beyond, which is where the loop stops.
   */
  lemma {:induction false} PositionsShape(travel: (real, real) -> real, span: real, extent: real,
                                          step: real, pos: real)
    requires Advances(travel, span, extent, step) && pos >= 0.0
    decreases (extent - pos) / step
    ensures var s := PositionsFrom(travel, span, extent, step, pos);
      && (s != [] ==> travel(s[|s| - 1], span) >= extent)
      && (forall k :: 0 <= k < |s| - 1 ==> s[k + 1] == travel(s[k], span))
  {
    if pos < extent {
      var next := travel(pos, span);
      DecreasesByOne(extent, pos, next, step);
      PositionsShape(travel, span, extent, step, next);
      var s := PositionsFrom(travel, span, extent, step, pos);
      assert s == [pos] + PositionsFrom(travel, span, extent, step, next);
    }
  }

  /** The default traveler advances by the span, for any positive span. */
  lemma DefaultAdvances(span: real, extent: real)
    requires span > 0.0
    ensures Advances(DefaultTickTravaler, span, extent, span)
  {
  }

  /** With the default traveler the offsets are `pos, pos + s, pos + 2s, ...`, all below `extent`. */
  lemma {:induction false} DefaultPositions(span: real, extent: real, pos: real)
    requires span > 0.0 && pos >= 0.0
    decreases (extent - pos) / span
    ensures Advances(DefaultTickTravaler, span, extent, span)
    ensures var s := PositionsFrom(DefaultTickTravaler, span, extent, span, pos);
      && (forall k :: 0 <= k < |s| ==> s[k] == pos + k as real * span && s[k] < extent)
      && pos + |s| as real * span >= extent
  {
    DefaultAdvances(span, extent);
    if pos < extent {
      var next := pos + span;
      DecreasesByOne(extent, pos, next, span);
      DefaultPositions(span, extent, next);
      var s := PositionsFrom(DefaultTickTravaler, span, extent, span, pos);
      var t := PositionsFrom(DefaultTickTravaler, span, extent, span, next);
      assert s == [pos] + t;
      ConsOffsets(pos, span, t);
      Distrib(|t|, span);
    }
  }

  /** Putting `pos` in front of the evenly spaced offsets from `pos + span` keeps them evenly spaced. */
  lemma ConsOffsets(pos: real, span: real, t: seq<real>)
    requires forall k :: 0 <= k < |t| ==> t[k] == pos + span + k as real * span
    ensures forall k :: 0 <= k < |t| + 1 ==> ([pos] + t)[k] == pos + k as real * span
  {
    forall k | 0 < k < |t| + 1 ensures ([pos] + t)[k] == pos + k as real * span {
      assert ([pos] + t)[k] == t[k - 1];
      Distrib(k - 1, span);
    }
  }

  lemma Distrib(k: nat, span: real)
    ensures (k + 1) as real * span == k as real * span + span
  {
  }

  /** The bottom axis of the `Plot` story (min 10, max 50, default span): offsets 0, 10, 20, 30. */
  lemma StoryBottomAxisPositions()
    ensures Advances(DefaultTickTravaler, DefaultTickSpan, 50.0 - 10.0, DefaultTickSpan)
    ensures PositionsFrom(DefaultTickTravaler, DefaultTickSpan, 50.0 - 10.0, DefaultTickSpan, 0.0)
            == [0.0, 10.0, 20.0, 30.0]
  {
    var t, e := DefaultTickTravaler, 40.0;
    DefaultAdvances(10.0, e);
    assert PositionsFrom(t, 10.0, e, 10.0, 40.0) == [];
    assert PositionsFrom(t, 10.0, e, 10.0, 30.0) == [30.0];
    assert PositionsFrom(t, 10.0, e, 10.0, 20.0) == [20.0, 30.0];
    assert PositionsFrom(t, 10.0, e, 10.0, 10.0) == [10.0, 20.0, 30.0];
  }

  /**
   * The story's bottom axis keeps the default label renderer, so its labels
   * read 0, 10, 20, 30: the offsets from `min`, not the domain values 10 to 40.
   */
  lemma StoryBottomAxisLabels(p: AxisProps<real>)
    requires p.min == 10.0 && p.max == 50.0
    requires p.renderLabel == DefaultRenderLabel
    requires p.tickSpan == DefaultTickSpan && p.tickTravaler == DefaultTickTravaler
    ensures Advances(p.tickTravaler, p.tickSpan, p.max - p.min, DefaultTickSpan)
    ensures var ticks := TickPositions(p, DefaultTickSpan);
      |ticks| == 4 && forall k :: 0 <= k < 4 ==> BottomTickAt(p, ticks[k]).text == 10.0 * k as real
  {
    StoryBottomAxisPositions();
  }

  /** A tick of the bottom axis: label text at `(x, y)`. */
  datatype BottomTick<L> = BottomTick(pos: real, x: real, y: real, text: L)

  /** A tick of the left axis: label text at `(labelX, y)` and a grid line from `gridFromX` to `gridToX`. */
  datatype LeftTick<L> = LeftTick(pos: real, labelX: real, y: real, text: L, gridFromX: real, gridToX: real)

  /** What `_renderAxis` draws. */
  datatype AxisView<L> = BottomAxis(bottom: seq<BottomTick<L>>) | LeftAxis(left: seq<LeftTick<L>>) | Nothing

  /**
   * The bottom tick at offset `pos`: its label is `renderLabel(pos)`, drawn
   * 25 below the plotting area, at the x that the scale maps `pos` to.
   */
  function BottomTickAt<L>(p: AxisProps<L>, pos: real): (t: BottomTick<L>)
    ensures t.pos == pos && t.text == p.renderLabel(pos)
    ensures t.y == p.sizes.height - p.padding.bottom + 25.0
    ensures p.scale.x != 0.0 ==> (t.x - p.padding.left) / p.scale.x == pos
  {
    BottomTick(pos, pos * p.scale.x + p.padding.left, p.sizes.height - p.padding.bottom + 25.0,
               p.renderLabel(pos))
  }

  /**
   * The left tick at offset `pos`: its label is `renderLabel(pos)`, drawn 10
   * left of the plotting area, at the y that the scale maps `pos` to, with a
   * grid line from the plotting area's left edge to the full width.
   */
  function LeftTickAt<L>(p: AxisProps<L>, pos: real): (t: LeftTick<L>)
    ensures t.pos == pos && t.text == p.renderLabel(pos)
    ensures t.labelX == p.padding.left - 10.0
    ensures t.gridFromX == p.padding.left && t.gridToX == p.sizes.width
    ensures p.scale.y != 0.0 ==> (p.sizes.height - p.padding.bottom - t.y) / p.scale.y == pos
  {
    var y := p.sizes.height - p.padding.bottom - pos * p.scale.y;
    LeftTick(pos, p.padding.left - 10.0, y, p.renderLabel(pos), p.padding.left, p.sizes.width)
  }

  /** `_renderBottomAxis`: one tick per visited offset, in order. */
  method RenderBottomAxis<L>(p: AxisProps<L>, ghost step: real) returns (ticks: seq<BottomTick<L>>)
    requires Advances(p.tickTravaler, p.tickSpan, p.max - p.min, step)
    ensures |ticks| == |TickPositions(p, step)|
    ensures forall k :: 0 <= k < |ticks| ==> ticks[k] == BottomTickAt(p, TickPositions(p, step)[k])
  {
    ghost var all := TickPositions(p, step);
    ticks := [];
    var pos := 0.0;
    while pos < p.max - p.min
      invariant pos >= 0.0
      invariant |ticks| <= |all| && all[|ticks|..] == PositionsFrom(p.tickTravaler, p.tickSpan, p.max - p.min, step, pos)
      invariant forall k :: 0 <= k < |ticks| ==> ticks[k] == BottomTickAt(p, all[k])
      decreases (p.max - p.min - pos) / step
    {
      var next := p.tickTravaler(pos, p.tickSpan);
      DecreasesByOne(p.max - p.min, pos, next, step);
      assert all[|ticks|..] == [pos] + PositionsFrom(p.tickTravaler, p.tickSpan, p.max - p.min, step, next);
      assert all[|ticks| + 1..] == all[|ticks|..][1..];
      ticks := ticks + [BottomTickAt(p, pos)];
      pos := next;
    }
  }

  /** `_renderLeftAxis`: one tick and grid line per visited offset, in order. */
  method RenderLeftAxis<L>(p: AxisProps<L>, ghost step: real) returns (ticks: seq<LeftTick<L>>)
    requires Advances(p.tickTravaler, p.tickSpan, p.max - p.min, step)
    ensures |ticks| == |TickPositions(p, step)|
    ensures forall k :: 0 <= k < |ticks| ==> ticks[k] == LeftTickAt(p, TickPositions(p, step)[k])
  {
    ghost var all := TickPositions(p, step);
    ticks := [];
    var pos := 0.0;
    while pos < p.max - p.min
      invariant pos >= 0.0
      invariant |ticks| <= |all| && all[|ticks|..] == PositionsFrom(p.tickTravaler, p.tickSpan, p.max - p.min, step, pos)
      invariant forall k :: 0 <= k < |ticks| ==> ticks[k] == LeftTickAt(p, all[k])
      decreases (p.max - p.min - pos) / step
    {
      var next := p.tickTravaler(pos, p.tickSpan);
      DecreasesByOne(p.max - p.min, pos, next, step);
      assert all[|ticks|..] == [pos] + PositionsFrom(p.tickTravaler, p.tickSpan, p.max - p.min, step, next);
      assert all[|ticks| + 1..] == all[|ticks|..][1..];
      ticks := ticks + [LeftTickAt(p, pos)];
      pos := next;
    }
  }

  /** `_renderAxis`: dispatch on the position. */
  method RenderAxis<L>(p: AxisProps<L>, ghost step: real) returns (view: AxisView<L>)
    requires p.position.Bottom? || p.position.Left? ==> Advances(p.tickTravaler, p.tickSpan, p.max - p.min, step)
    ensures p.position.Other? <==> view.Nothing?
    ensures p.position.Bottom? ==> view.BottomAxis? && |view.bottom| == |TickPositions(p, step)|
    ensures p.position.Left? ==> view.LeftAxis? && |view.left| == |TickPositions(p, step)|
    ensures view.BottomAxis? ==>
      forall k :: 0 <= k < |view.bottom| ==> view.bottom[k] == BottomTickAt(p, TickPositions(p, step)[k])
    ensures view.LeftAxis? ==>
      forall k :: 0 <= k < |view.left| ==> view.left[k] == LeftTickAt(p, TickPositions(p, step)[k])
  {
    match p.position
    case Bottom =>
      var ticks := RenderBottomAxis(p, step);
      view := BottomAxis(ticks);
    case Left =>
      var ticks := RenderLeftAxis(p, step);
      view := LeftAxis(ticks);
    case Other(_) =>
      view := Nothing;
  }

  /** The scale can be computed: the positions that set it divide by `max - min`. */
  predicate ScaleDefined<L>(p: AxisProps<L>) {
    p.position.Other? || p.min != p.max
  }

  /** `_setScale`: publishes this orientation's scale and range to the plot surface. */
  method SetScale<L>(p: AxisProps<L>, plot: PlotComponent.Plot)
    requires ScaleDefined(p)
    modifies plot`scaleX, plot`scaleY, plot`rangeX, plot`rangeY
    ensures p.position.Bottom? ==>
      && plot.scaleX == (p.sizes.width - p.padding.left) / (p.max - p.min)
      && plot.rangeX == Interval(p.min, p.max)
      && plot.scaleY == old(plot.scaleY) && plot.rangeY == old(plot.rangeY)
    ensures p.position.Left? ==>
      && plot.scaleY == (p.sizes.height - p.padding.bottom) / (p.max - p.min)
      && plot.rangeY == Interval(p.min, p.max)
      && plot.scaleX == old(plot.scaleX) && plot.rangeX == old(plot.rangeX)
    ensures p.position.Other? ==>
      && plot.scaleX == old(plot.scaleX) && plot.rangeX == old(plot.rangeX)
      && plot.scaleY == old(plot.scaleY) && plot.rangeY == old(plot.rangeY)
  {
    match p.position
    case Bottom =>
      plot.SetXScale((p.sizes.width - p.padding.left) / (p.max - p.min));
      plot.SetXRange(Interval(p.min, p.max));
    case Left =>
      plot.SetYScale((p.sizes.height - p.padding.bottom) / (p.max - p.min));
      plot.SetYRange(Interval(p.min, p.max));
    case Other(_) =>
  }

  /** `componentWillMount`. */
  method Mount<L>(p: AxisProps<L>, plot: PlotComponent.Plot)
    requires ScaleDefined(p)
    modifies plot`scaleX, plot`scaleY, plot`rangeX, plot`rangeY
    ensures p.position.Bottom? ==>
      && plot.scaleX == (p.sizes.width - p.padding.left) / (p.max - p.min)
      && plot.rangeX == Interval(p.min, p.max)
      && plot.scaleY == old(plot.scaleY) && plot.rangeY == old(plot.rangeY)
    ensures p.position.Left? ==>
      && plot.scaleY == (p.sizes.height - p.padding.bottom) / (p.max - p.min)
      && plot.rangeY == Interval(p.min, p.max)
      && plot.scaleX == old(plot.scaleX) && plot.rangeX == old(plot.rangeX)
    ensures p.position.Other? ==>
      && plot.scaleX == old(plot.scaleX) && plot.rangeX == old(plot.rangeX)
      && plot.scaleY == old(plot.scaleY) && plot.rangeY == old(plot.rangeY)
  {
    SetScale(p, plot);
  }

  /**
   * A props change: `shouldComponentUpdate(next)` and, when it answers true,
   * `componentDidUpdate`, which publishes the scale and range again.
   */
  method Update<L>(current: AxisProps<L>, next: AxisProps<L>, plot: PlotComponent.Plot) returns (updated: bool)
    requires ScaleDefined(next)
    modifies plot`scaleX, plot`scaleY, plot`rangeX, plot`rangeY
    ensures updated == CheckPropsUpdate(next, current)
    ensures !updated ==>
      && plot.scaleX == old(plot.scaleX) && plot.rangeX == old(plot.rangeX)
      && plot.scaleY == old(plot.scaleY) && plot.rangeY == old(plot.rangeY)
    ensures updated && next.position.Bottom? ==>
      plot.scaleX == (next.sizes.width - next.padding.left) / (next.max - next.min)
      && plot.rangeX == Interval(next.min, next.max)
      && plot.scaleY == old(plot.scaleY) && plot.rangeY == old(plot.rangeY)
    ensures updated && next.position.Left? ==>
      plot.scaleY == (next.sizes.height - next.padding.bottom) / (next.max - next.min)
      && plot.rangeY == Interval(next.min, next.max)
      && plot.scaleX == old(plot.scaleX) && plot.rangeX == old(plot.rangeX)
    ensures updated && next.position.Other? ==>
      && plot.scaleX == old(plot.scaleX) && plot.rangeX == old(plot.rangeX)
      && plot.scaleY == old(plot.scaleY) && plot.rangeY == old(plot.rangeY)
  {
    updated := CheckPropsUpdate(next, current);
    if updated {
      SetScale(next, plot);
    }
  }
}
