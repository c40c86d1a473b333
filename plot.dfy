/**
 * The plot surface (`Plot`): the shared scale/range state written by the
 * axes, the point registry (`_points` and `_colors`, two ECMAScript maps) that
 * lines register into, the nearest-point search and the pointer handlers.
 */
module PlotComponent {
  import opened Wrappers
  import opened Geometry
  import JsMap

  /** `{ id, point }`: a registered point tagged with its series id. */
  datatype PointInfo = PointInfo(id: string, point: Point)

  /** The bounding client rectangle of the surface's DOM node. */
  datatype Rect = Rect(left: real, right: real, top: real, bottom: real)

  /** The arguments of the `onPointHover` callback. */
  datatype HoverEvent = HoverEvent(id: string, point: Point, clientX: real, clientY: real)

  /** The release closure returned by `_registerPoints`: it captures only the id. */
  datatype Release = Release(id: string)

  /** What `getChildContext` hands to the axes and lines (the setters aside). */
  datatype Context = Context(sizes: Sizes, scale: Scale, padding: Padding, range: Range)

  /** The hover marker of `_renderPointer`: a dashed line from `start` to `end` and a dot at `end`. */
  datatype Marker = Marker(startX: real, startY: real, endX: real, endY: real, fill: Option<string>)

  const DefaultHeight: real := 400.0
  const DefaultWidth: real := 600.0
  const DefaultPaddingLeft: real := 50.0
  const DefaultPaddingBottom: real := 35.0

  /**
   * `getDistanceBetweenPoints` without the square root: the square root is
   * monotone, so comparing squared distances gives the same answers.
   */
  function Distance2(p1: Point, p2: Point): (d: real)
  {
    var dx, dy := p1.x - p2.x, p1.y - p2.y;
    dx * dx + dy * dy
  }

  /** The (squared) distance is never negative, is symmetric and is zero from a point to itself. */
  lemma Distance2Facts(p1: Point, p2: Point)
    ensures Distance2(p1, p2) >= 0.0
    ensures Distance2(p1, p2) == Distance2(p2, p1)
    ensures Distance2(p1, p1) == 0.0
  {
    var dx, dy := p1.x - p2.x, p1.y - p2.y;
    assert Distance2(p2, p1) == (-dx) * (-dx) + (-dy) * (-dy);
    assert dx * dx >= 0.0 && dy * dy >= 0.0;
  }

  /** The points of one series, tagged with its id, in array order. */
  function Tag(id: string, points: seq<Point>): (r: seq<PointInfo>)
    ensures |r| == |points|
    ensures forall i :: 0 <= i < |points| ==> r[i] == PointInfo(id, points[i])
  {
    if points == [] then [] else Tag(id, points[..|points| - 1]) + [PointInfo(id, points[|points| - 1])]
  }

  /** Every registered point, in the order the nested `forEach` meets them. */
  function Flatten(m: seq<(string, seq<Point>)>): seq<PointInfo>
  {
    if m == [] then [] else Flatten(m[..|m| - 1]) + Tag(m[|m| - 1].0, m[|m| - 1].1)
  }

  /**
   * The result of `getClosestPoint` after the points `f` have been visited:
   * a later point replaces the current result only when strictly closer.
   */
  function Nearest(f: seq<PointInfo>, target: Point): (r: Option<PointInfo>)
    ensures r.None? <==> f == []
    ensures r.Some? ==> r.value in f
  {
    if f == [] then None
    else
      var best := Nearest(f[..|f| - 1], target);
      var c := f[|f| - 1];
      if best.None? || Distance2(target, c.point) < Distance2(target, best.value.point)
      then Some(c) else best
  }

  /**
   * The nearest point is the FIRST point (in visiting order) at minimum
   * distance: none is closer, and every earlier one is strictly farther.
   */
  lemma {:induction false} NearestIsFirstMinimum(f: seq<PointInfo>, target: Point) returns (k: nat)
    requires f != []
    ensures k < |f| && Nearest(f, target) == Some(f[k])
    ensures forall j :: 0 <= j < |f| ==> Distance2(target, f[k].point) <= Distance2(target, f[j].point)
    ensures forall j :: 0 <= j < k ==> Distance2(target, f[k].point) < Distance2(target, f[j].point)
  {
    var init := f[..|f| - 1];
    var c := f[|f| - 1];
    if init == [] {
      k := 0;
    } else {
      var k0 := NearestIsFirstMinimum(init, target);
      if Distance2(target, c.point) < Distance2(target, init[k0].point) {
        k := |f| - 1;
      } else {
        k := k0;
      }
    }
  }

  /** When the target itself is registered, the search returns a point at distance zero. */
  lemma NearestFindsRegisteredTarget(f: seq<PointInfo>, target: Point, i: nat)
    requires i < |f| && f[i].point == target
    ensures Nearest(f, target).Some? && Distance2(target, Nearest(f, target).value.point) == 0.0
  {
    var k := NearestIsFirstMinimum(f, target);
    assert Distance2(target, f[k].point) <= Distance2(target, f[i].point);
    Distance2Facts(target, f[k].point);
  }

  /** One more visited point: it replaces the result only when strictly closer. */
  lemma NearestSnoc(f: seq<PointInfo>, c: PointInfo, target: Point)
    ensures Nearest(f + [c], target) ==
      if Nearest(f, target).None? || Distance2(target, c.point) < Distance2(target, Nearest(f, target).value.point)
      then Some(c) else Nearest(f, target)
  {
    assert (f + [c])[..|f + [c]| - 1] == f;
  }

  lemma TagSnoc(id: string, points: seq<Point>, j: nat)
    requires j < |points|
    ensures Tag(id, points[..j + 1]) == Tag(id, points[..j]) + [PointInfo(id, points[j])]
  {
    assert points[..j + 1][..j] == points[..j];
  }

  lemma SeenSnoc(visited: seq<PointInfo>, id: string, points: seq<Point>, j: nat)
    requires j < |points|
    ensures visited + Tag(id, points[..j + 1]) == visited + Tag(id, points[..j]) + [PointInfo(id, points[j])]
  {
    TagSnoc(id, points, j);
  }

  lemma FlattenSnoc(m: seq<(string, seq<Point>)>, e: (string, seq<Point>))
    ensures Flatten(m + [e]) == Flatten(m) + Tag(e.0, e.1)
  {
    assert (m + [e])[..|m + [e]| - 1] == m;
  }

  /** No point is visited exactly when every registered series is empty. */
  lemma {:induction false} FlattenEmpty(m: seq<(string, seq<Point>)>)
    ensures Flatten(m) == [] <==> forall i :: 0 <= i < |m| ==> m[i].1 == []
  {
    if m != [] {
      FlattenEmpty(m[..|m| - 1]);
      assert forall i :: 0 <= i < |m| - 1 ==> m[..|m| - 1][i] == m[i];
    }
  }

  /** Every visited point belongs to the series stored under its id. */
  lemma {:induction false} FlattenMember(m: seq<(string, seq<Point>)>, c: PointInfo)
    requires JsMap.DistinctKeys(m)
    requires c in Flatten(m)
    ensures JsMap.Get(m, c.id).Some? && c.point in JsMap.Get(m, c.id).value
  {
    var init, e := m[..|m| - 1], m[|m| - 1];
    assert Flatten(m) == Flatten(init) + Tag(e.0, e.1);
    if c in Tag(e.0, e.1) {
      var i :| 0 <= i < |e.1| && Tag(e.0, e.1)[i] == c;
      GetDistinct(m, |m| - 1);
    } else {
      assert JsMap.DistinctKeys(init);
      FlattenMember(init, c);
      var i :| 0 <= i < |init| && JsMap.Keys(init)[i] == c.id;
      GetDistinct(init, i);
      assert m[i] == init[i];
      GetDistinct(m, i);
    }
  }

  lemma {:induction false} GetDistinct<V>(m: seq<(string, V)>, i: nat)
    requires JsMap.DistinctKeys(m) && i < |m|
    ensures JsMap.Get(m, m[i].0) == Some(m[i].1)
  {
    if i > 0 {
      GetDistinct(m[1..], i - 1);
    }
  }

  /** The position in `Flatten(m)` of point `j` of the series at entry `i`. */
  function FlatIndex(m: seq<(string, seq<Point>)>, i: nat, j: nat): nat
    requires i <= |m|
  {
    |Flatten(m[..i])| + j
  }

  /** Every registered point is visited, at its `FlatIndex`. */
  lemma {:induction false} FlattenComplete(m: seq<(string, seq<Point>)>, i: nat, j: nat)
    requires i < |m| && j < |m[i].1|
    ensures FlatIndex(m, i, j) < |Flatten(m)|
    ensures Flatten(m)[FlatIndex(m, i, j)] == PointInfo(m[i].0, m[i].1[j])
  {
    var init, e := m[..|m| - 1], m[|m| - 1];
    assert Flatten(m) == Flatten(init) + Tag(e.0, e.1);
    if i == |m| - 1 {
      assert m[..i] == init;
    } else {
      FlattenComplete(init, i, j);
      assert init[..i] == m[..i];
    }
  }

  /** Every visited point is some registered point, at its `FlatIndex`. */
  lemma {:induction false} FlattenLocate(m: seq<(string, seq<Point>)>, k: nat) returns (i: nat, j: nat)
    requires k < |Flatten(m)|
    ensures i < |m| && j < |m[i].1| && k == FlatIndex(m, i, j)
    ensures Flatten(m)[k] == PointInfo(m[i].0, m[i].1[j])
  {
    var init, e := m[..|m| - 1], m[|m| - 1];
    assert Flatten(m) == Flatten(init) + Tag(e.0, e.1);
    if k < |Flatten(init)| {
      i, j := FlattenLocate(init, k);
      assert init[..i] == m[..i];
    } else {
      i, j := |m| - 1, k - |Flatten(init)|;
      assert m[..i] == init;
    }
  }

  /** A longer prefix of the map visits at least as many points. */
  lemma {:induction false} FlattenPrefixGrows(m: seq<(string, seq<Point>)>, i: nat, i': nat)
    requires i <= i' <= |m|
    ensures |Flatten(m[..i])| <= |Flatten(m[..i'])|
    decreases i' - i
  {
    if i < i' {
      FlattenPrefixGrows(m, i + 1, i');
      assert m[..i + 1] == m[..i] + [m[i]];
      FlattenSnoc(m[..i], m[i]);
    }
  }

  /** Visiting order is map order, then array order within a series. */
  lemma FlatIndexOrder(m: seq<(string, seq<Point>)>, i: nat, j: nat, i': nat, j': nat)
    requires i < |m| && j < |m[i].1| && i' < |m| && j' < |m[i'].1|
    requires i < i' || (i == i' && j < j')
    ensures FlatIndex(m, i, j) < FlatIndex(m, i', j')
  {
    if i < i' {
      assert m[..i + 1] == m[..i] + [m[i]];
      FlattenSnoc(m[..i], m[i]);
      FlattenPrefixGrows(m, i + 1, i');
    }
  }

  /**
   * Over the registry itself: the search returns the registered point at
   * entry `i`, index `j`, that is no farther than any registered point and
   * strictly closer than every point before it in map order, then array order.
   */
  lemma ClosestRegistered(m: seq<(string, seq<Point>)>, target: Point) returns (i: nat, j: nat)
    requires Flatten(m) != []
    ensures i < |m| && j < |m[i].1|
    ensures Nearest(Flatten(m), target) == Some(PointInfo(m[i].0, m[i].1[j]))
    ensures forall i', j' :: 0 <= i' < |m| && 0 <= j' < |m[i'].1| ==>
              Distance2(target, m[i].1[j]) <= Distance2(target, m[i'].1[j'])
    ensures forall i', j' :: 0 <= i' < |m| && 0 <= j' < |m[i'].1| && (i' < i || (i' == i && j' < j)) ==>
              Distance2(target, m[i].1[j]) < Distance2(target, m[i'].1[j'])
  {
    var f := Flatten(m);
    var k := NearestIsFirstMinimum(f, target);
    i, j := FlattenLocate(m, k);
    forall i', j' | 0 <= i' < |m| && 0 <= j' < |m[i'].1|
      ensures Distance2(target, m[i].1[j]) <= Distance2(target, m[i'].1[j'])
    {
      FlattenComplete(m, i', j');
    }
    forall i', j' | 0 <= i' < |m| && 0 <= j' < |m[i'].1| && (i' < i || (i' == i && j' < j))
      ensures Distance2(target, m[i].1[j]) < Distance2(target, m[i'].1[j'])
    {
      FlattenComplete(m, i', j');
      FlatIndexOrder(m, i', j', i, j);
    }
  }

  /** The search result is as near the target as any point stored under any key. */
  lemma NearestBeatsRegistered(m: seq<(string, seq<Point>)>, target: Point, id: string, p: Point)
    requires JsMap.Get(m, id).Some? && p in JsMap.Get(m, id).value
    ensures Nearest(Flatten(m), target).Some?
    ensures Distance2(target, Nearest(Flatten(m), target).value.point) <= Distance2(target, p)
  {
    var pts := JsMap.Get(m, id).value;
    var i' :| 0 <= i' < |m| && m[i'] == (id, pts);
    var j' :| 0 <= j' < |pts| && pts[j'] == p;
    FlattenComplete(m, i', j');
    var i, j := ClosestRegistered(m, target);
  }

  /**
   * `getClosestPoint`: visits the series in map order and each series in
   * array order, keeping the first point at the smallest distance seen.
   */
  method GetClosestPoint(target: Point, pointsMap: seq<(string, seq<Point>)>) returns (result: Option<PointInfo>)
    ensures result == Nearest(Flatten(pointsMap), target)
  {
    result := None;
    var minDistance: real := 0.0;  // stands for `Infinity` until a result exists
    var i := 0;
    while i < |pointsMap|
      invariant 0 <= i <= |pointsMap|
      invariant result == Nearest(Flatten(pointsMap[..i]), target)
      invariant result.Some? ==> minDistance == Distance2(target, result.value.point)
    {
      var (id, points) := pointsMap[i];
      result, minDistance := VisitSeries(target, id, points, Flatten(pointsMap[..i]), result, minDistance);
      assert pointsMap[..i + 1] == pointsMap[..i] + [(id, points)];
      FlattenSnoc(pointsMap[..i], (id, points));
      i := i + 1;
    }
    assert pointsMap[..i] == pointsMap;
  }

  /** The inner `points.forEach` of `getClosestPoint`, after the points `visited`. */
  method VisitSeries(target: Point, id: string, points: seq<Point>, ghost visited: seq<PointInfo>,
                     result0: Option<PointInfo>, minDistance0: real)
    returns (result: Option<PointInfo>, minDistance: real)
    requires result0 == Nearest(visited, target)
    requires result0.Some? ==> minDistance0 == Distance2(target, result0.value.point)
    ensures result == Nearest(visited + Tag(id, points), target)
    ensures result.Some? ==> minDistance == Distance2(target, result.value.point)
  {
    result, minDistance := result0, minDistance0;
    ghost var seen := visited;
    var j := 0;
    while j < |points|
      invariant 0 <= j <= |points|
      invariant seen == visited + Tag(id, points[..j])
      invariant result == Nearest(seen, target)
      invariant result.Some? ==> minDistance == Distance2(target, result.value.point)
    {
      var c := PointInfo(id, points[j]);
      result, minDistance := VisitPoint(target, c, seen, result, minDistance);
      SeenSnoc(visited, id, points, j);
      seen := seen + [c];
      j := j + 1;
    }
    assert points[..j] == points;
  }

  /** The inner callback's body: one point against the running result and distance. */
  method VisitPoint(target: Point, c: PointInfo, ghost before: seq<PointInfo>,
                    result0: Option<PointInfo>, minDistance0: real)
    returns (result: Option<PointInfo>, minDistance: real)
    requires result0 == Nearest(before, target)
    requires result0.Some? ==> minDistance0 == Distance2(target, result0.value.point)
    ensures result == Nearest(before + [c], target)
    ensures result.Some? ==> minDistance == Distance2(target, result.value.point)
  {
    NearestSnoc(before, c, target);
    result, minDistance := result0, minDistance0;
    var distance := Distance2(target, c.point);
    if result.None? || distance < minDistance {
      minDistance := distance;
      result := Some(c);
    }
  }

  /** The domain point under the pointer, as `_handleMouseMove` computes it. */
  function ToDomain(clientX: real, clientY: real, rect: Rect, paddingLeft: real, paddingBottom: real,
                    scaleX: real, scaleY: real, rangeX: Interval, rangeY: Interval): (p: Point)
    requires scaleX != 0.0 && scaleY != 0.0
    ensures IsInteger(p.x) && IsInteger(p.y)
  {
    Point(Round((clientX - rect.left - paddingLeft) / scaleX + rangeX.lo) as real,
          Round((rect.bottom - clientY - paddingBottom) / scaleY + rangeY.lo) as real)
  }

  /** `pointClientOffset`: the client position of a domain point. */
  function ToClient(point: Point, rect: Rect, paddingLeft: real, paddingBottom: real,
                    scaleX: real, scaleY: real, rangeX: Interval, rangeY: Interval): (c: (real, real))
    ensures scaleX != 0.0 ==> (c.0 - rect.left - paddingLeft) / scaleX + rangeX.lo == point.x
    ensures scaleY != 0.0 ==> (rect.bottom - c.1 - paddingBottom) / scaleY + rangeY.lo == point.y
  {
    (rect.left + paddingLeft + (point.x - rangeX.lo) * scaleX,
     rect.bottom - paddingBottom - (point.y - rangeY.lo) * scaleY)
  }

  /**
   * Converting the reported client position back to the domain gives the
   * matched point again, for a point with integer coordinates.
   */
  lemma ClientRoundTrip(point: Point, rect: Rect, paddingLeft: real, paddingBottom: real,
                        scaleX: real, scaleY: real, rangeX: Interval, rangeY: Interval)
    requires scaleX != 0.0 && scaleY != 0.0
    requires IsInteger(point.x) && IsInteger(point.y)
    ensures var c := ToClient(point, rect, paddingLeft, paddingBottom, scaleX, scaleY, rangeX, rangeY);
            ToDomain(c.0, c.1, rect, paddingLeft, paddingBottom, scaleX, scaleY, rangeX, rangeY) == point
  {
    var c := ToClient(point, rect, paddingLeft, paddingBottom, scaleX, scaleY, rangeX, rangeY);
    var u := (point.x - rangeX.lo) * scaleX;
    var w := (point.y - rangeY.lo) * scaleY;
    assert c.0 - rect.left - paddingLeft == u;
    assert rect.bottom - c.1 - paddingBottom == w;
    assert u / scaleX == point.x - rangeX.lo;
    assert w / scaleY == point.y - rangeY.lo;
  }

  /** For any point, the round trip is off by at most half a domain unit on each axis. */
  lemma ClientRoundTripWithinHalf(point: Point, rect: Rect, paddingLeft: real, paddingBottom: real,
                                  scaleX: real, scaleY: real, rangeX: Interval, rangeY: Interval)
    requires scaleX != 0.0 && scaleY != 0.0
    ensures var c := ToClient(point, rect, paddingLeft, paddingBottom, scaleX, scaleY, rangeX, rangeY);
            var p := ToDomain(c.0, c.1, rect, paddingLeft, paddingBottom, scaleX, scaleY, rangeX, rangeY);
            -0.5 < p.x - point.x <= 0.5 && -0.5 < p.y - point.y <= 0.5
  {
    var c := ToClient(point, rect, paddingLeft, paddingBottom, scaleX, scaleY, rangeX, rangeY);
    var u := (point.x - rangeX.lo) * scaleX;
    var w := (point.y - rangeY.lo) * scaleY;
    assert c.0 - rect.left - paddingLeft == u;
    assert rect.bottom - c.1 - paddingBottom == w;
    assert u / scaleX == point.x - rangeX.lo;
    assert w / scaleY == point.y - rangeY.lo;
  }

  /** A leave event strictly inside the rectangle is a spurious one from a child. */
  predicate StrictlyInside(clientX: real, clientY: real, rect: Rect) {
    rect.left < clientX < rect.right && rect.top < clientY < rect.bottom
  }

  class Plot {
    const height: real
    const width: real
    const paddingLeft: real
    const paddingBottom: real
    /** Whether the `onPointHover` / `onMouseLeave` props were supplied. */
    const hasPointHover: bool
    const hasMouseLeave: bool

    var scaleX: real
    var scaleY: real
    var activePointInfo: Option<PointInfo>
    var rangeX: Interval
    var rangeY: Interval

    /** `_points` and `_colors`, entries in iteration order. */
    var points: seq<(string, seq<Point>)>
    var colors: seq<(string, string)>

    /** The two maps always hold the same keys, in the same order, once each. */
    ghost predicate Valid()
      reads this`points, this`colors
    {
      JsMap.DistinctKeys(points) && JsMap.Keys(points) == JsMap.Keys(colors)
    }

    constructor (height: real, width: real, paddingLeft: real, paddingBottom: real,
                 hasPointHover: bool, hasMouseLeave: bool)
      ensures Valid()
      ensures this.height == height && this.width == width
      ensures this.paddingLeft == paddingLeft && this.paddingBottom == paddingBottom
      ensures this.hasPointHover == hasPointHover && this.hasMouseLeave == hasMouseLeave
      ensures scaleX == 1.0 && scaleY == 1.0 && activePointInfo == None
      ensures rangeX == Interval(0.0, 0.0) && rangeY == Interval(0.0, 0.0)
      ensures points == [] && colors == []
    {
      this.height, this.width := height, width;
      this.paddingLeft, this.paddingBottom := paddingLeft, paddingBottom;
      this.hasPointHover, this.hasMouseLeave := hasPointHover, hasMouseLeave;
      scaleX, scaleY := 1.0, 1.0;
      activePointInfo := None;
      rangeX, rangeY := Interval(0.0, 0.0), Interval(0.0, 0.0);
      points, colors := [], [];
    }

    /** A surface built from `defaultProps`. */
    constructor WithDefaults(hasPointHover: bool, hasMouseLeave: bool)
      ensures Valid()
      ensures height == DefaultHeight && width == DefaultWidth
      ensures paddingLeft == DefaultPaddingLeft && paddingBottom == DefaultPaddingBottom
      ensures this.hasPointHover == hasPointHover && this.hasMouseLeave == hasMouseLeave
      ensures scaleX == 1.0 && scaleY == 1.0 && activePointInfo == None
      ensures rangeX == Interval(0.0, 0.0) && rangeY == Interval(0.0, 0.0)
      ensures points == [] && colors == []
    {
      height, width := DefaultHeight, DefaultWidth;
      paddingLeft, paddingBottom := DefaultPaddingLeft, DefaultPaddingBottom;
      this.hasPointHover, this.hasMouseLeave := hasPointHover, hasMouseLeave;
      scaleX, scaleY := 1.0, 1.0;
      activePointInfo := None;
      rangeX, rangeY := Interval(0.0, 0.0), Interval(0.0, 0.0);
      points, colors := [], [];
    }

    /** `getChildContext`, without the setters and `registerPoints`. */
    function ChildContext(): (ctx: Context)
      reads this
      ensures ctx.sizes.height == height && ctx.sizes.width == width
      ensures ctx.scale.x == scaleX && ctx.scale.y == scaleY
      ensures ctx.padding.left == paddingLeft && ctx.padding.bottom == paddingBottom
      ensures ctx.range.x == rangeX && ctx.range.y == rangeY
    {
      Context(Sizes(height, width), Scale(scaleX, scaleY), Padding(paddingLeft, paddingBottom),
              Range(rangeX, rangeY))
    }

    method SetXScale(s: real)
      modifies this`scaleX
      ensures scaleX == s
    {
      scaleX := s;
    }

    method SetYScale(s: real)
      modifies this`scaleY
      ensures scaleY == s
    {
      scaleY := s;
    }

    method SetXRange(r: Interval)
      modifies this`rangeX
      ensures rangeX == r
    {
      rangeX := r;
    }

    method SetYRange(r: Interval)
      modifies this`rangeY
      ensures rangeY == r
    {
      rangeY := r;
    }

    /** `_registerPoints`: sets the id in both maps and returns its release. */
    method RegisterPoints(id: string, pts: seq<Point>, color: string) returns (release: Release)
      requires Valid()
      modifies this`points, this`colors
      ensures Valid()
      ensures points == JsMap.Set(old(points), id, pts)
      ensures colors == JsMap.Set(old(colors), id, color)
      ensures JsMap.Get(points, id) == Some(pts) && JsMap.Get(colors, id) == Some(color)
      ensures forall k :: k != id ==> JsMap.Get(points, k) == JsMap.Get(old(points), k)
      ensures forall k :: k != id ==> JsMap.Get(colors, k) == JsMap.Get(old(colors), k)
      ensures release == Release(id)
    {
      JsMap.SetKeys(points, id, pts);
      JsMap.SetKeys(colors, id, color);
      JsMap.SetGet(points, id, pts);
      JsMap.SetGet(colors, id, color);
      points := JsMap.Set(points, id, pts);
      colors := JsMap.Set(colors, id, color);
      release := Release(id);
    }

    /** Calling a release closure: deletes its id from both maps, by key. */
    method Flush(release: Release)
      requires Valid()
      modifies this`points, this`colors
      ensures Valid()
      ensures points == JsMap.Delete(old(points), release.id)
      ensures colors == JsMap.Delete(old(colors), release.id)
      ensures JsMap.Get(points, release.id) == None && JsMap.Get(colors, release.id) == None
      ensures forall k :: k != release.id ==> JsMap.Get(points, k) == JsMap.Get(old(points), k)
      ensures forall k :: k != release.id ==> JsMap.Get(colors, k) == JsMap.Get(old(colors), k)
    {
      JsMap.DeleteKeys(points, release.id);
      JsMap.DeleteGet(points, release.id);
      JsMap.DeleteKeys(colors, release.id);
      JsMap.DeleteGet(colors, release.id);
      points := JsMap.Delete(points, release.id);
      colors := JsMap.Delete(colors, release.id);
    }

    /**
     * `_handleMouseMove`. `node` is the bounding rectangle of the DOM node,
     * `None` while there is no node. The result is the `onPointHover` call.
     */
    method HandleMouseMove(clientX: real, clientY: real, node: Option<Rect>) returns (hover: Option<HoverEvent>)
      requires node.Some? && hasPointHover ==> scaleX != 0.0 && scaleY != 0.0
      modifies this`activePointInfo
      ensures node.None? || !hasPointHover ==> activePointInfo == old(activePointInfo) && hover == None
      ensures node.Some? && hasPointHover ==>
        var target := ToDomain(clientX, clientY, node.value, paddingLeft, paddingBottom,
                               scaleX, scaleY, rangeX, rangeY);
        && activePointInfo == Nearest(Flatten(points), target)
        && (activePointInfo.None? ==> hover == None)
        && (activePointInfo.Some? ==>
              var c := ToClient(activePointInfo.value.point, node.value, paddingLeft, paddingBottom,
                                scaleX, scaleY, rangeX, rangeY);
              hover == Some(HoverEvent(activePointInfo.value.id, activePointInfo.value.point, c.0, c.1)))
    {
      hover := None;
      if node.None? {
        return;
      }
      if !hasPointHover {
        return;
      }
      var rect := node.value;
      var target := ToDomain(clientX, clientY, rect, paddingLeft, paddingBottom,
                             scaleX, scaleY, rangeX, rangeY);
      var closest := GetClosestPoint(target, points);
      activePointInfo := closest;
      if closest.Some? {
        var c := ToClient(closest.value.point, rect, paddingLeft, paddingBottom,
                          scaleX, scaleY, rangeX, rangeY);
        hover := Some(HoverEvent(closest.value.id, closest.value.point, c.0, c.1));
      }
    }

    /**
     * `_handleMouseLeave`; `left` says whether `onMouseLeave` was called.
     */
    method HandleMouseLeave(clientX: real, clientY: real, node: Option<Rect>) returns (left: bool)
      modifies this`activePointInfo
      ensures node.Some? && StrictlyInside(clientX, clientY, node.value) ==>
                activePointInfo == old(activePointInfo) && !left
      ensures !(node.Some? && StrictlyInside(clientX, clientY, node.value)) ==>
                activePointInfo == None && left == hasMouseLeave
    {
      if node.Some? && StrictlyInside(clientX, clientY, node.value) {
        return false;
      }
      activePointInfo := None;
      left := hasMouseLeave;
    }

    /** `_renderPointer`: the marker for the active point, if any. */
    function RenderPointer(): (m: Option<Marker>)
      reads this
      ensures m.None? <==> activePointInfo.None?
      ensures m.Some? ==>
        && m.value.startX == m.value.endX
        && m.value.startY == height - paddingBottom
        && m.value.fill == JsMap.Get(colors, activePointInfo.value.id)
    {
      match activePointInfo
      case None => None
      case Some(info) =>
        var x := (info.point.x - rangeX.lo) * scaleX + paddingLeft;
        Some(Marker(x, height - paddingBottom, x,
                    height - paddingBottom - (info.point.y - rangeY.lo) * scaleY,
                    JsMap.Get(colors, info.id)))
    }

    /**
     * After a hover has set the active point, it is as near the target as
     * every point registered under any id.
     */
    lemma ActivePointIsClosest(target: Point, id: string, p: Point)
      requires activePointInfo == Nearest(Flatten(points), target)
      requires JsMap.Get(points, id).Some? && p in JsMap.Get(points, id).value
      ensures activePointInfo.Some?
      ensures Distance2(target, activePointInfo.value.point) <= Distance2(target, p)
    {
      NearestBeatsRegistered(points, target, id, p);
    }

    /**
     * The position reported to `onPointHover` is where the marker's dot is
     * drawn, offset by the rectangle's corner (for a rectangle as tall as the plot).
     */
    lemma HoverPositionIsMarker(rect: Rect)
      requires activePointInfo.Some?
      requires rect.bottom - rect.top == height
      ensures var c := ToClient(activePointInfo.value.point, rect, paddingLeft, paddingBottom,
                                scaleX, scaleY, rangeX, rangeY);
              var m := RenderPointer().value;
              c.0 == rect.left + m.endX && c.1 == rect.top + m.endY && m.startX == m.endX
    {
    }
  }

  /** A hover scenario: A = [(0,5), (10,10)], B = [(0,20)], target (1,6). */
  lemma NearestHoverScenario()
    ensures Nearest(Flatten([("A", [Point(0.0, 5.0), Point(10.0, 10.0)]), ("B", [Point(0.0, 20.0)])]),
                    Point(1.0, 6.0)) == Some(PointInfo("A", Point(0.0, 5.0)))
  {
    var m := [("A", [Point(0.0, 5.0), Point(10.0, 10.0)]), ("B", [Point(0.0, 20.0)])];
    FlattenSnoc([], m[0]);
    assert [m[0]] + [m[1]] == m;
    FlattenSnoc([m[0]], m[1]);
    var f := Flatten(m);
    assert f == [PointInfo("A", Point(0.0, 5.0)), PointInfo("A", Point(10.0, 10.0)), PointInfo("B", Point(0.0, 20.0))];
    assert f[..2][..1] == [f[0]];
    assert f[..1][..0] == [];
  }
}
