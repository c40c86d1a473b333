/**
 * A data series (`Line`): projects its points to a path, clips it to the
 * plotting area and keeps exactly one registration of its points in the
 * plot surface's registry across mount, update and unmount.
 */
module LineComponent {
  import opened Wrappers
  import opened Geometry
  import JsMap
  import PlotComponent

  datatype LineProps = LineProps(
    points: seq<Point>,
    scale: Scale,
    sizes: Sizes,
    color: string,
    id: Option<string>,
    padding: Padding,
    range: Range)

  /** `defaultProps`. */
  const DefaultColor: string := "red"
  const DefaultPadding: Padding := Padding(0.0, 0.0)
  const DefaultScale: Scale := Scale(1.0, 1.0)

  /**
   * The props a `Line` element ends up with: each missing prop takes its
   * default value. `scale` and `padding` given by the plot's context count
   * as present.
   */
  function ResolveProps(points: seq<Point>, color: Option<string>, id: Option<string>,
                        scale: Option<Scale>, sizes: Sizes, padding: Option<Padding>, range: Range): (p: LineProps)
    ensures p.points == points && p.id == id && p.sizes == sizes && p.range == range
    ensures p.color == (if color.Some? then color.value else "red")
    ensures p.scale == (if scale.Some? then scale.value else Scale(1.0, 1.0))
    ensures p.padding == (if padding.Some? then padding.value else Padding(0.0, 0.0))
  {
    LineProps(points,
              if scale.Some? then scale.value else DefaultScale,
              sizes,
              if color.Some? then color.value else DefaultColor,
              id,
              if padding.Some? then padding.value else DefaultPadding,
              range)
  }

  /**
   * Props of a line inside a plot surface, for an element that passes none
   * of sizes, scale, padding or range itself: those four come from the
   * surface's context.
   */
  function PropsInPlot(points: seq<Point>, color: Option<string>, id: Option<string>,
                       ctx: PlotComponent.Context): (p: LineProps)
    ensures p.scale == ctx.scale && p.sizes == ctx.sizes && p.padding == ctx.padding && p.range == ctx.range
    ensures p.points == points && p.id == id
    ensures p.color == (if color.Some? then color.value else DefaultColor)
  {
    ResolveProps(points, color, id, Some(ctx.scale), ctx.sizes, Some(ctx.padding), ctx.range)
  }

  /** One path command: move to the first vertex, then line to each next one. */
  datatype Command = M | L
  datatype PathCommand = PathCommand(command: Command, x: real, y: real)

  /**
   * `pointToPath`: the pixel position of a domain point, with `M` at index 0
   * and `L` elsewhere; on each axis with a nonzero scale the domain
   * coordinate can be read back from the pixel one.
   */
  function PointToPath(p: LineProps, point: Point, i: nat): (c: PathCommand)
    ensures c.command == M <==> i == 0
    ensures p.scale.x != 0.0 ==> (c.x - p.padding.left) / p.scale.x + p.range.x.lo == point.x
    ensures p.scale.y != 0.0 ==> (p.sizes.height - p.padding.bottom - c.y) / p.scale.y + p.range.y.lo == point.y
  {
    PathCommand(if i == 0 then M else L,
                (point.x - p.range.x.lo) * p.scale.x + p.padding.left,
                p.sizes.height - (point.y - p.range.y.lo) * p.scale.y - p.padding.bottom)
  }

  /** `_getDirection`: one command per point, in point order. */
  function GetDirection(p: LineProps): (path: seq<PathCommand>)
    ensures |path| == |p.points|
    ensures forall i :: 0 <= i < |path| ==> path[i] == PointToPath(p, p.points[i], i)
  {
    seq(|p.points|, i requires 0 <= i < |p.points| => PointToPath(p, p.points[i], i))
  }

  /** The path starts with `M` and only there; an empty series gives an empty path. */
  lemma PathShape(p: LineProps)
    ensures GetDirection(p) == [] <==> p.points == []
    ensures forall i :: 0 <= i < |GetDirection(p)| ==> (GetDirection(p)[i].command == M <==> i == 0)
  {
  }

  /** The domain point a pixel position comes from: the inverse of the projection. */
  function Unproject(p: LineProps, x: real, y: real): Point
    requires p.scale.x != 0.0 && p.scale.y != 0.0
  {
    Point((x - p.padding.left) / p.scale.x + p.range.x.lo,
          (p.sizes.height - p.padding.bottom - y) / p.scale.y + p.range.y.lo)
  }

  /** With nonzero scales the projection loses nothing: it can be undone. */
  lemma UnprojectInverts(p: LineProps, point: Point, i: nat)
    requires p.scale.x != 0.0 && p.scale.y != 0.0
    ensures var c := PointToPath(p, point, i); Unproject(p, c.x, c.y) == point
  {
    var c := PointToPath(p, point, i);
    assert (c.x - p.padding.left) / p.scale.x == point.x - p.range.x.lo;
    assert (p.sizes.height - p.padding.bottom - c.y) / p.scale.y == point.y - p.range.y.lo;
  }

  /**
   * A line drawn inside a plot surface places each vertex where the surface
   * draws the hover marker's dot for that point.
   */
  lemma VertexIsMarkerEnd(plot: PlotComponent.Plot, color: Option<string>, id: Option<string>,
                          points: seq<Point>, i: nat)
    requires i < |points|
    requires plot.activePointInfo.Some? && plot.activePointInfo.value.point == points[i]
    ensures var c := GetDirection(PropsInPlot(points, color, id, plot.ChildContext()))[i];
            var m := plot.RenderPointer().value;
            c.x == m.endX && c.y == m.endY
  {
  }

  /** The `clipPath` rectangle: the plotting area right of the left padding and above the bottom one. */
  datatype ClipRect = ClipRect(x: real, y: real, width: real, height: real)

  /**
   * The clip rectangle spans from the left padding to the right edge and
   * from the top down to the bottom padding line.
   */
  function Clip(p: LineProps): (r: ClipRect)
    ensures r.x == p.padding.left && r.x + r.width == p.sizes.width
    ensures r.y == 0.0 && r.y + r.height == p.sizes.height - p.padding.bottom
  {
    ClipRect(p.padding.left, 0.0, p.sizes.width - p.padding.left, p.sizes.height - p.padding.bottom)
  }

  predicate InClip(r: ClipRect, x: real, y: real) {
    r.x <= x <= r.x + r.width && r.y <= y <= r.y + r.height
  }

  /**
   * One coordinate: a value of `[lo, hi]` scaled by `extent / (hi - lo)`
   * lands in `[0, extent]`.
   */
  lemma ScaledInto(v: real, lo: real, hi: real, extent: real)
    requires lo <= v <= hi && lo < hi && 0.0 <= extent
    ensures 0.0 <= (v - lo) * (extent / (hi - lo)) <= extent
  {
    var s := extent / (hi - lo);
    assert s * (hi - lo) == extent;
    NonnegativeQuotient(extent, hi - lo);
    NonnegativeProduct(v - lo, s);
    NonnegativeProduct(hi - v, s);
    assert (hi - lo) * s - (v - lo) * s == (hi - v) * s;
  }

  lemma NonnegativeQuotient(a: real, d: real)
    requires a >= 0.0 && d > 0.0
    ensures a / d >= 0.0
  {
  }

  lemma NonnegativeProduct(a: real, b: real)
    requires a >= 0.0 && b >= 0.0
    ensures a * b >= 0.0
  {
  }

  /**
   * With the scales the axes publish for the domains in `range`, every
   * point of those domains is drawn inside the clip rectangle.
   */
  lemma DomainInsideClip(p: LineProps, point: Point, i: nat)
    requires p.range.x.lo < p.range.x.hi && p.range.y.lo < p.range.y.hi
    requires p.padding.left <= p.sizes.width && p.padding.bottom <= p.sizes.height
    requires p.scale.x == (p.sizes.width - p.padding.left) / (p.range.x.hi - p.range.x.lo)
    requires p.scale.y == (p.sizes.height - p.padding.bottom) / (p.range.y.hi - p.range.y.lo)
    requires p.range.x.lo <= point.x <= p.range.x.hi && p.range.y.lo <= point.y <= p.range.y.hi
    ensures var c := PointToPath(p, point, i); InClip(Clip(p), c.x, c.y)
  {
    ScaledInto(point.x, p.range.x.lo, p.range.x.hi, p.sizes.width - p.padding.left);
    ScaledInto(point.y, p.range.y.lo, p.range.y.hi, p.sizes.height - p.padding.bottom);
  }

  /** One of the compared props, as `getProps` lists them. */
  datatype PropValue =
    | PointsValue(points: seq<Point>)
    | ScaleValue(scale: Scale)
    | SizesValue(sizes: Sizes)
    | ColorValue(color: string)
    | IdValue(id: Option<string>)
    | PaddingValue(padding: Padding)
    | RangeValue(range: Range)

  /** `getProps`: the props named by `KEYS_FOR_UPDATES`, in that order. */
  function GetProps(p: LineProps): seq<PropValue> {
    [PointsValue(p.points), ScaleValue(p.scale), SizesValue(p.sizes), ColorValue(p.color),
     IdValue(p.id), PaddingValue(p.padding), RangeValue(p.range)]
  }

  predicate SomeDiffers(xs: seq<PropValue>, ys: seq<PropValue>)
    requires |xs| == |ys|
  {
    exists i :: 0 <= i < |xs| && xs[i] != ys[i]
  }

  /** `checkPropsUpdate`: true exactly when some compared prop differs, that is, when the props differ. */
  function CheckPropsUpdate(a: LineProps, b: LineProps): (changed: bool)
    ensures changed <==>
      a.points != b.points || a.scale != b.scale || a.sizes != b.sizes || a.color != b.color ||
      a.id != b.id || a.padding != b.padding || a.range != b.range
    ensures changed <==> a != b
  {
    var xs, ys := GetProps(a), GetProps(b);
    assert a.points != b.points ==> xs[0] != ys[0];
    assert a.scale != b.scale ==> xs[1] != ys[1];
    assert a.sizes != b.sizes ==> xs[2] != ys[2];
    assert a.color != b.color ==> xs[3] != ys[3];
    assert a.id != b.id ==> xs[4] != ys[4];
    assert a.padding != b.padding ==> xs[5] != ys[5];
    assert a.range != b.range ==> xs[6] != ys[6];
    SomeDiffers(xs, ys)
  }

  /** A hexadecimal digit, as `Number.prototype.toString(16)` writes it (lower case). */
  function HexDigit(d: nat): (c: char)
    requires d < 16
    ensures IsHexDigit(c) && DigitValue(c) == d
  {
    if d < 10 then (48 + d) as char else (87 + d) as char
  }

  predicate IsHexDigit(c: char) {
    '0' <= c <= '9' || 'a' <= c <= 'f'
  }

  function DigitValue(c: char): nat
    requires IsHexDigit(c)
  {
    if c <= '9' then c as int - 48 else c as int - 87
  }

  /** `n.toString(16)` for a non-negative integer. */
  function ToHex(n: nat): (s: string)
    ensures |s| >= 1
    ensures forall i :: 0 <= i < |s| ==> IsHexDigit(s[i])
  {
    if n < 16 then [HexDigit(n)] else ToHex(n / 16) + [HexDigit(n % 16)]
  }

  /** The value a string of hexadecimal digits denotes. */
  function FromHex(s: string): nat
    requires forall i :: 0 <= i < |s| ==> IsHexDigit(s[i])
  {
    if s == [] then 0 else FromHex(s[..|s| - 1]) * 16 + DigitValue(s[|s| - 1])
  }

  /** Reading a generated id back gives the counter value it was made from. */
  lemma {:induction false} HexRoundTrip(n: nat)
    ensures FromHex(ToHex(n)) == n
  {
    if n >= 16 {
      HexRoundTrip(n / 16);
      var s := ToHex(n);
      assert s[..|s| - 1] == ToHex(n / 16);
    }
  }

  /** Different counter values give different ids. */
  lemma ToHexInjective(a: nat, b: nat)
    ensures ToHex(a) == ToHex(b) <==> a == b
  {
    HexRoundTrip(a);
    HexRoundTrip(b);
  }

  /** The module-level `GlobalId`, shared by every `Line`. */
  class IdCounter {
    var next: nat

    constructor ()
      ensures next == 0
    {
      next := 0;
    }

    /** `(GlobalId++).toString(16)`. */
    method Fresh() returns (id: string)
      modifies this
      ensures id == ToHex(old(next)) && next == old(next) + 1
    {
      id := ToHex(next);
      next := next + 1;
    }
  }

  /** JavaScript truthiness of the optional `id` prop: present and non-empty. */
  predicate Truthy(id: Option<string>) {
    id.Some? && id.value != ""
  }

  /**
   * Two lines given the same explicit id share one registry entry: the first
   * line's release, called after the second has registered, removes the
   * second line's points and color (a release deletes by key).
   */
  lemma StaleReleaseRemovesNewer(points: seq<(string, seq<Point>)>, colors: seq<(string, string)>, id: string,
                                 first: seq<Point>, second: seq<Point>, c1: string, c2: string)
    requires JsMap.DistinctKeys(points) && JsMap.DistinctKeys(colors)
    ensures JsMap.Get(JsMap.Delete(JsMap.Set(JsMap.Set(points, id, first), id, second), id), id) == None
    ensures JsMap.Get(JsMap.Delete(JsMap.Set(JsMap.Set(colors, id, c1), id, c2), id), id) == None
  {
    JsMap.SetKeys(points, id, first);
    JsMap.SetKeys(JsMap.Set(points, id, first), id, second);
    JsMap.DeleteGet(JsMap.Set(JsMap.Set(points, id, first), id, second), id);
    JsMap.SetKeys(colors, id, c1);
    JsMap.SetKeys(JsMap.Set(colors, id, c1), id, c2);
    JsMap.DeleteGet(JsMap.Set(JsMap.Set(colors, id, c1), id, c2), id);
  }

  /** The map after the release `flush` (if any) has run. */
  function Released<V>(m: seq<(string, V)>, flush: Option<PlotComponent.Release>): seq<(string, V)> {
    if flush.Some? then JsMap.Delete(m, flush.value.id) else m
  }

  /** Whether `flush` is a release of the key `k`. */
  predicate Releases(flush: Option<PlotComponent.Release>, k: string) {
    flush.Some? && flush.value.id == k
  }

  class Line {
    var props: LineProps
    /** `_id`. */
    var id: string
    /** `_flush`: the release of the live registration, if any. */
    var flush: Option<PlotComponent.Release>

    /** A new instance takes the next default id. */
    constructor (props: LineProps, counter: IdCounter)
      modifies counter
      ensures this.props == props && flush == None
      ensures id == ToHex(old(counter.next)) && counter.next == old(counter.next) + 1
    {
      var generated := counter.Fresh();
      this.props := props;
      id := generated;
      flush := None;
    }

    /** `_registerPoints`: registers under the current id and keeps the release. */
    method RegisterPoints(plot: PlotComponent.Plot)
      requires plot.Valid()
      modifies this`flush, plot`points, plot`colors
      ensures plot.Valid()
      ensures plot.points == JsMap.Set(old(plot.points), id, props.points)
      ensures plot.colors == JsMap.Set(old(plot.colors), id, props.color)
      ensures JsMap.Get(plot.points, id) == Some(props.points) && JsMap.Get(plot.colors, id) == Some(props.color)
      ensures forall k :: k != id ==>
        JsMap.Get(plot.points, k) == JsMap.Get(old(plot.points), k) &&
        JsMap.Get(plot.colors, k) == JsMap.Get(old(plot.colors), k)
      ensures flush == Some(PlotComponent.Release(id))
    {
      var release := plot.RegisterPoints(id, props.points, props.color);
      flush := Some(release);
    }

    /** `componentDidMount`: a truthy `id` prop replaces the default id, then the points are registered. */
    method ComponentDidMount(plot: PlotComponent.Plot)
      requires plot.Valid()
      modifies this`id, this`flush, plot`points, plot`colors
      ensures plot.Valid()
      ensures id == (if Truthy(props.id) then props.id.value else old(id))
      ensures plot.points == JsMap.Set(old(plot.points), id, props.points)
      ensures plot.colors == JsMap.Set(old(plot.colors), id, props.color)
      ensures JsMap.Get(plot.points, id) == Some(props.points)
      ensures flush == Some(PlotComponent.Release(id))
    {
      if Truthy(props.id) {
        id := props.id.value;
      }
      RegisterPoints(plot);
    }

    /**
     * `componentDidUpdate(prev)`: a truthy `id` prop that differs from the
     * previous one replaces the id; when the points deep-differ, the live
     * registration is released and the points are registered again.
     */
    method ComponentDidUpdate(prev: LineProps, plot: PlotComponent.Plot)
      requires plot.Valid()
      modifies this`id, this`flush, plot`points, plot`colors
      ensures plot.Valid()
      ensures id == (if Truthy(props.id) && props.id != prev.id then props.id.value else old(id))
      ensures props.points == prev.points ==>
        plot.points == old(plot.points) && plot.colors == old(plot.colors) && flush == old(flush)
      ensures props.points != prev.points ==>
        && plot.points == JsMap.Set(Released(old(plot.points), old(flush)), id, props.points)
        && plot.colors == JsMap.Set(Released(old(plot.colors), old(flush)), id, props.color)
        && JsMap.Get(plot.points, id) == Some(props.points)
        && JsMap.Get(plot.colors, id) == Some(props.color)
        && flush == Some(PlotComponent.Release(id))
      ensures forall k :: k != id && !Releases(old(flush), k) ==>
        JsMap.Get(plot.points, k) == JsMap.Get(old(plot.points), k) &&
        JsMap.Get(plot.colors, k) == JsMap.Get(old(plot.colors), k)
    {
      if Truthy(props.id) && props.id != prev.id {
        id := props.id.value;
      }
      if props.points != prev.points {
        if flush.Some? {
          plot.Flush(flush.value);
        }
        RegisterPoints(plot);
      }
    }

    /** `componentWillUnmount`: calls the live release, if any (it is not cleared). */
    method ComponentWillUnmount(plot: PlotComponent.Plot)
      requires plot.Valid()
      modifies plot`points, plot`colors
      ensures plot.Valid()
      ensures flush.Some? ==>
        && plot.points == JsMap.Delete(old(plot.points), flush.value.id)
        && plot.colors == JsMap.Delete(old(plot.colors), flush.value.id)
        && JsMap.Get(plot.points, flush.value.id) == None
      ensures flush.None? ==> plot.points == old(plot.points) && plot.colors == old(plot.colors)
    {
      if flush.Some? {
        plot.Flush(flush.value);
      }
    }

    /**
     * New props arrive: `shouldComponentUpdate(next)` decides whether
     * `componentDidUpdate` runs; the props are replaced either way.
     */
    method Receive(next: LineProps, plot: PlotComponent.Plot) returns (updated: bool)
      requires plot.Valid()
      modifies this`props, this`id, this`flush, plot`points, plot`colors
      ensures plot.Valid()
      ensures props == next
      ensures updated == CheckPropsUpdate(old(props), next)
      ensures !updated ==>
        id == old(id) && flush == old(flush) && plot.points == old(plot.points) && plot.colors == old(plot.colors)
      ensures updated ==> id == (if Truthy(next.id) && next.id != old(props.id) then next.id.value else old(id))
      ensures next.points == old(props.points) ==>
        plot.points == old(plot.points) && plot.colors == old(plot.colors) && flush == old(flush)
      ensures next.points != old(props.points) ==>
        && updated
        && plot.points == JsMap.Set(Released(old(plot.points), old(flush)), id, next.points)
        && plot.colors == JsMap.Set(Released(old(plot.colors), old(flush)), id, next.color)
        && JsMap.Get(plot.points, id) == Some(next.points)
        && JsMap.Get(plot.colors, id) == Some(next.color)
        && flush == Some(PlotComponent.Release(id))
      ensures forall k :: k != id && !Releases(old(flush), k) ==>
        JsMap.Get(plot.points, k) == JsMap.Get(old(plot.points), k) &&
        JsMap.Get(plot.colors, k) == JsMap.Get(old(plot.colors), k)
    {
      var prev := props;
      updated := CheckPropsUpdate(prev, next);
      props := next;
      if updated {
        ComponentDidUpdate(prev, plot);
      }
    }
  }

  /**
   * A line mounted with an explicit id keeps one live registration: after
   * mounting, its release names its id and the registry holds its points there.
   */
  method MountScenario(counter: IdCounter, plot: PlotComponent.Plot, props: LineProps) returns (line: Line)
    requires plot.Valid() && Truthy(props.id)
    modifies counter, plot`points, plot`colors
    ensures plot.Valid()
    ensures line.id == props.id.value && line.flush == Some(PlotComponent.Release(props.id.value))
    ensures JsMap.Get(plot.points, props.id.value) == Some(props.points)
    ensures JsMap.Get(plot.colors, props.id.value) == Some(props.color)
  {
    line := new Line(props, counter);
    line.ComponentDidMount(plot);
    JsMap.SetGet(old(plot.colors), line.id, props.color);
  }
}
