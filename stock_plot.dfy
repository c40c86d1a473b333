/**
 * The stock chart (`StockPlot`): turns series of daily values into plot
 * points, folds their extent into padded axis domains, and on hover looks
 * the hovered day up again to show its value and the change since the
 * previous entry of the same series. Dates are day numbers.
 */
module StockPlotComponent {
  import opened Wrappers
  import opened Geometry
  import PlotComponent
  import LineComponent

  /** A `StockInfo`, with its date as a day number. */
  datatype StockInfo = StockInfo(day: int, value: real)

  /** A number that may be one of JavaScript's infinities (the fold's starting values). */
  datatype Extended = NegInfinity | Finite(v: real) | PosInfinity

  predicate Below(v: real, e: Extended) {
    match e
    case NegInfinity => false
    case Finite(w) => v < w
    case PosInfinity => true
  }

  predicate Above(v: real, e: Extended) {
    match e
    case NegInfinity => true
    case Finite(w) => v > w
    case PosInfinity => false
  }

  /** Adding a finite number leaves an infinity as it is. */
  function Plus(e: Extended, d: real): Extended {
    match e
    case Finite(w) => Finite(w + d)
    case _ => e
  }

  datatype Bounds = Bounds(minX: Extended, maxX: Extended, minY: Extended, maxY: Extended)

  /** `minX = Infinity`, `maxX = -Infinity`, and the same for y. */
  const Initial: Bounds := Bounds(PosInfinity, NegInfinity, PosInfinity, NegInfinity)

  /**
   * The four conditional updates made for each point: afterwards the bounds
   * take `p` in, and each bound either stays or becomes `p`'s coordinate.
   */
  function Step(b: Bounds, p: Point): (r: Bounds)
    ensures !Below(p.x, r.minX) && !Above(p.x, r.maxX) && !Below(p.y, r.minY) && !Above(p.y, r.maxY)
    ensures r.minX == b.minX || r.minX == Finite(p.x)
    ensures r.maxX == b.maxX || r.maxX == Finite(p.x)
    ensures r.minY == b.minY || r.minY == Finite(p.y)
    ensures r.maxY == b.maxY || r.maxY == Finite(p.y)
  {
    Bounds(if Below(p.x, b.minX) then Finite(p.x) else b.minX,
           if Above(p.x, b.maxX) then Finite(p.x) else b.maxX,
           if Below(p.y, b.minY) then Finite(p.y) else b.minY,
           if Above(p.y, b.maxY) then Finite(p.y) else b.maxY)
  }

  /** The bounds after visiting `pts` in order: all four are finite exactly when there is a point. */
  function Extent(pts: seq<Point>): (r: Bounds)
    ensures pts == [] ==> r == Initial
    ensures pts != [] ==> r.minX.Finite? && r.maxX.Finite? && r.minY.Finite? && r.maxY.Finite?
  {
    if pts == [] then Initial else Step(Extent(pts[..|pts| - 1]), pts[|pts| - 1])
  }

  /** The point drawn for an entry: its day against its value. */
  function ToPoint(d: StockInfo): Point {
    Point(d.day as real, d.value)
  }

  function ToPoints(line: seq<StockInfo>): (pts: seq<Point>)
    ensures |pts| == |line|
    ensures forall j :: 0 <= j < |line| ==> pts[j] == ToPoint(line[j])
  {
    seq(|line|, j requires 0 <= j < |line| => ToPoint(line[j]))
  }

  /** All points of all lines, series after series. */
  function Concat(lines: seq<seq<Point>>): seq<Point> {
    if lines == [] then [] else Concat(lines[..|lines| - 1]) + lines[|lines| - 1]
  }

  /** Every bound is finite and every point of `pts` lies within them. */
  predicate Bounded(b: Bounds, pts: seq<Point>) {
    && b.minX.Finite? && b.maxX.Finite? && b.minY.Finite? && b.maxY.Finite?
    && forall p :: p in pts ==> b.minX.v <= p.x <= b.maxX.v && b.minY.v <= p.y <= b.maxY.v
  }

  /** Each finite bound is the coordinate of some point of `pts`. */
  predicate Reached(b: Bounds, pts: seq<Point>)
    requires b.minX.Finite? && b.maxX.Finite? && b.minY.Finite? && b.maxY.Finite?
  {
    && (exists p :: p in pts && p.x == b.minX.v) && (exists p :: p in pts && p.x == b.maxX.v)
    && (exists p :: p in pts && p.y == b.minY.v) && (exists p :: p in pts && p.y == b.maxY.v)
  }

  /**
   * The fold is exact: with no points every bound is still infinite; with
   * points, every bound is finite, bounds every point and is reached by one.
   */
  lemma {:induction false} ExtentCorrect(pts: seq<Point>)
    ensures pts == [] ==> Extent(pts) == Initial
    ensures pts != [] ==> Bounded(Extent(pts), pts) && Reached(Extent(pts), pts)
  {
    if pts != [] {
      var init, last := pts[..|pts| - 1], pts[|pts| - 1];
      assert pts == init + [last];
      ExtentCorrect(init);
      if init != [] {
        StepStaysBounded(Extent(init), init, last);
        StepStaysReached(Extent(init), init, last);
      }
    }
  }

  lemma StepStaysBounded(b: Bounds, init: seq<Point>, last: Point)
    requires Bounded(b, init)
    ensures Bounded(Step(b, last), init + [last])
  {
    var r := Step(b, last);
    forall p | p in init + [last] ensures r.minX.v <= p.x <= r.maxX.v && r.minY.v <= p.y <= r.maxY.v {
      if p != last {
        assert p in init;
      }
    }
  }

  lemma StepStaysReached(b: Bounds, init: seq<Point>, last: Point)
    requires Bounded(b, init) && Reached(b, init)
    ensures Reached(Step(b, last), init + [last])
  {
    var r, pts := Step(b, last), init + [last];
    assert last in pts;
    if r.minX == b.minX {
      var w :| w in init && w.x == b.minX.v;
      assert w in pts;
    }
    if r.maxX == b.maxX {
      var w :| w in init && w.x == b.maxX.v;
      assert w in pts;
    }
    if r.minY == b.minY {
      var w :| w in init && w.y == b.minY.v;
      assert w in pts;
    }
    if r.maxY == b.maxY {
      var w :| w in init && w.y == b.maxY.v;
      assert w in pts;
    }
  }

  /**
   * The loop of `render`: builds one line of points per series and folds
   * every point into the bounds.
   */
  method PrepareLines(data: seq<seq<StockInfo>>) returns (lines: seq<seq<Point>>, bounds: Bounds)
    ensures |lines| == |data|
    ensures forall i :: 0 <= i < |data| ==> lines[i] == ToPoints(data[i])
    ensures bounds == Extent(Concat(lines))
  {
    lines := [];
    bounds := Initial;
    for i := 0 to |data|
      invariant |lines| == i
      invariant forall k :: 0 <= k < i ==> lines[k] == ToPoints(data[k])
      invariant bounds == Extent(Concat(lines))
    {
      var points: seq<Point> := [];
      ghost var before := Concat(lines);
      assert before + points == before;
      for j := 0 to |data[i]|
        invariant points == ToPoints(data[i][..j])
        invariant bounds == Extent(before + points)
      {
        var point := ToPoint(data[i][j]);
        bounds := Step(bounds, point);
        FoldOnePoint(before, points, point);
        ToPointsSnoc(data[i], j);
        points := points + [point];
      }
      assert data[i][..|data[i]|] == data[i];
      assert (lines + [points])[..|lines|] == lines;
      lines := lines + [points];
    }
  }

  /** Folding one more point into the bounds of `before + points`. */
  lemma FoldOnePoint(before: seq<Point>, points: seq<Point>, point: Point)
    ensures Extent(before + (points + [point])) == Step(Extent(before + points), point)
  {
    assert before + (points + [point]) == before + points + [point];
    assert (before + points + [point])[..|before + points|] == before + points;
  }

  lemma ToPointsSnoc(line: seq<StockInfo>, j: nat)
    requires j < |line|
    ensures ToPoints(line[..j + 1]) == ToPoints(line[..j]) + [ToPoint(line[j])]
  {
  }

  /** The x domain: padded by 20 days on each side; an infinite bound stays infinite. */
  function XDomain(b: Bounds): (r: (Extended, Extended))
    ensures (r.0.Finite? <==> b.minX.Finite?) && (r.1.Finite? <==> b.maxX.Finite?)
    ensures b.minX.Finite? ==> b.minX.v - r.0.v == 20.0
    ensures b.maxX.Finite? ==> r.1.v - b.maxX.v == 20.0
  {
    (Plus(b.minX, -20.0), Plus(b.maxX, 20.0))
  }

  /** The y domain: padded by 5 below and 10 above; an infinite bound stays infinite. */
  function YDomain(b: Bounds): (r: (Extended, Extended))
    ensures (r.0.Finite? <==> b.minY.Finite?) && (r.1.Finite? <==> b.maxY.Finite?)
    ensures b.minY.Finite? ==> b.minY.v - r.0.v == 5.0
    ensures b.maxY.Finite? ==> r.1.v - b.maxY.v == 10.0
  {
    (Plus(b.minY, -5.0), Plus(b.maxY, 10.0))
  }

  /**
   * With at least one point both domains are proper intervals that contain
   * every point strictly inside, so the axes can set their scales; with no
   * point they stay empty (from +infinity down to -infinity).
   */
  lemma DomainsContainPoints(pts: seq<Point>)
    ensures pts == [] ==>
      XDomain(Extent(pts)) == (PosInfinity, NegInfinity) && YDomain(Extent(pts)) == (PosInfinity, NegInfinity)
    ensures pts != [] ==>
      var x, y := XDomain(Extent(pts)), YDomain(Extent(pts));
      && x.0.Finite? && x.1.Finite? && y.0.Finite? && y.1.Finite?
      && x.0.v < x.1.v && y.0.v < y.1.v
      && (forall p :: p in pts ==> x.0.v < p.x < x.1.v && y.0.v < p.y < y.1.v)
  {
    ExtentCorrect(pts);
  }

  /** `COLORS`. */
  const Colors: seq<string> := ["#3F51B5", "#2196F3", "#0097A7", "#F44336", "#E91E63", "#9C27B0", "#673AB7"]

  /** `COLORS[i]`: undefined past the palette. */
  function PaletteColor(i: nat): (c: Option<string>)
    ensures c.Some? <==> i < 7
  {
    if i < |Colors| then Some(Colors[i]) else None
  }

  /**
   * The color series `i` is drawn with inside any plot surface: the palette
   * entry, or the line's default once the palette runs out.
   */
  lemma SeriesColor(i: nat, points: seq<Point>, ctx: PlotComponent.Context)
    ensures var p := LineComponent.PropsInPlot(points, PaletteColor(i), None, ctx);
            (i < 7 ==> p.color == Colors[i]) && (i >= 7 ==> p.color == "red")
  {
  }

  /** A hovered point matches an entry with the same day. */
  predicate SameDay(d: StockInfo, point: Point) {
    d.day as real == point.x
  }

  /** The first index of `line` whose day is the hovered one (what `some` stops at). */
  function FirstMatch(line: seq<StockInfo>, point: Point): (r: Option<nat>)
    ensures r.Some? ==> r.value < |line| && SameDay(line[r.value], point)
                        && forall j :: 0 <= j < r.value ==> !SameDay(line[j], point)
    ensures r.None? ==> forall j :: 0 <= j < |line| ==> !SameDay(line[j], point)
  {
    if line == [] then None
    else if SameDay(line[0], point) then Some(0)
    else match FirstMatch(line[1..], point)
      case None => None
      case Some(j) => Some(j + 1)
  }

  /** The matching entry and `line[i - 1]`, which is absent at index 0. */
  datatype Found = Found(series: nat, index: nat, data: StockInfo, previous: Option<StockInfo>)

  /** The lookup of `_renderInfo`: the first series with a match, and its first match. */
  function Find(data: seq<seq<StockInfo>>, point: Point, from: nat): (r: Option<Found>)
    requires from <= |data|
    decreases |data| - from
    ensures r.Some? ==>
      && from <= r.value.series < |data| && r.value.index < |data[r.value.series]|
      && r.value.data == data[r.value.series][r.value.index] && SameDay(r.value.data, point)
  {
    if from == |data| then None
    else match FirstMatch(data[from], point)
      case Some(i) => Some(Found(from, i, data[from][i], if i > 0 then Some(data[from][i - 1]) else None))
      case None => Find(data, point, from + 1)
  }

  /**
   * The lookup finds an entry exactly when some entry has the hovered day;
   * the one it finds is the first in series order and then in array order.
   */
  lemma {:induction false} FindCorrect(data: seq<seq<StockInfo>>, point: Point, from: nat)
    requires from <= |data|
    decreases |data| - from
    ensures var r := Find(data, point, from);
      && (r.None? <==> forall s, j :: from <= s < |data| && 0 <= j < |data[s]| ==> !SameDay(data[s][j], point))
      && (r.Some? ==>
            && from <= r.value.series < |data| && r.value.index < |data[r.value.series]|
            && r.value.data == data[r.value.series][r.value.index] && SameDay(r.value.data, point)
            && (forall s, j :: from <= s < r.value.series && 0 <= j < |data[s]| ==> !SameDay(data[s][j], point))
            && (forall j :: 0 <= j < r.value.index ==> !SameDay(data[r.value.series][j], point))
            && (r.value.previous.Some? <==> r.value.index > 0)
            && (r.value.index > 0 ==> r.value.previous == Some(data[r.value.series][r.value.index - 1])))
  {
    if from < |data| && FirstMatch(data[from], point).None? {
      FindCorrect(data, point, from + 1);
    }
  }

  /**
   * Hovering a drawn point always finds an entry of that day, though the
   * lookup ignores which series was hovered: an earlier series with the same
   * day wins.
   */
  lemma HoveredPointIsFound(data: seq<seq<StockInfo>>, s: nat, j: nat)
    requires s < |data| && j < |data[s]|
    ensures var r := Find(data, ToPoint(data[s][j]), 0);
            r.Some? && r.value.data.day == data[s][j].day && r.value.series <= s
  {
    var point := ToPoint(data[s][j]);
    FindCorrect(data, point, 0);
    var r := Find(data, point, 0);
    assert SameDay(data[s][j], point);
  }

  /** `line.some(...)`: the index the callback first answers true for. */
  method SearchLine(line: seq<StockInfo>, point: Point) returns (r: Option<nat>)
    ensures r == FirstMatch(line, point)
  {
    var i := 0;
    while i < |line|
      invariant 0 <= i <= |line|
      invariant forall j :: 0 <= j < i ==> !SameDay(line[j], point)
    {
      if SameDay(line[i], point) {
        FirstMatchIsFirst(line, point, i);
        return Some(i);
      }
      i := i + 1;
    }
    FirstMatchNone(line, point);
    r := None;
  }

  lemma {:induction false} FirstMatchIsFirst(line: seq<StockInfo>, point: Point, i: nat)
    requires i < |line| && SameDay(line[i], point)
    requires forall j :: 0 <= j < i ==> !SameDay(line[j], point)
    ensures FirstMatch(line, point) == Some(i)
  {
    if i > 0 {
      FirstMatchIsFirst(line[1..], point, i - 1);
    }
  }

  lemma FirstMatchNone(line: seq<StockInfo>, point: Point)
    requires forall j :: 0 <= j < |line| ==> !SameDay(line[j], point)
    ensures FirstMatch(line, point) == None
  {
  }

  /** The `for…of` loop of `_renderInfo`, which breaks at the first series with a match. */
  method Lookup(data: seq<seq<StockInfo>>, point: Point) returns (r: Option<Found>)
    ensures r == Find(data, point, 0)
  {
    r := None;
    var s := 0;
    while s < |data|
      invariant 0 <= s <= |data|
      invariant Find(data, point, 0) == Find(data, point, s)
    {
      var i := SearchLine(data[s], point);
      if i.Some? {
        var k := i.value;
        r := Some(Found(s, k, data[s][k], if k > 0 then Some(data[s][k - 1]) else None));
        break;
      }
      s := s + 1;
    }
  }

  /** `state.info`. */
  datatype Info = Info(id: string, point: Point, clientX: real, clientY: real)

  /** The change shown next to the value; the positive style is for `diff > 0` only. */
  datatype Delta = Delta(diff: real, positive: bool)

  /** What `_renderInfo` shows. */
  datatype InfoView = NoInfo | NotFound | Popup(top: real, left: real, data: StockInfo, delta: Option<Delta>)

  function DeltaOf(f: Found): (d: Option<Delta>)
    ensures d.Some? <==> f.previous.Some?
    ensures d.Some? ==> d.value.diff == f.data.value - f.previous.value.value
                        && (d.value.positive <==> f.data.value > f.previous.value.value)
  {
    match f.previous
    case None => None
    case Some(prev) =>
      var diff := f.data.value - prev.value;
      Some(Delta(diff, diff > 0.0))
  }

  /**
   * The popup (or nothing) for a state and data set: nothing without info,
   * otherwise a popup 50 above and 56 left of the pointer showing an entry
   * of the hovered day, or null when no entry has that day.
   */
  function InfoViewOf(info: Option<Info>, data: seq<seq<StockInfo>>): (v: InfoView)
    ensures info.None? <==> v.NoInfo?
    ensures v.Popup? ==>
      && v.top == info.value.clientY - 50.0 && v.left == info.value.clientX - 56.0
      && SameDay(v.data, info.value.point)
  {
    match info
    case None => NoInfo
    case Some(i) =>
      match Find(data, i.point, 0)
      case None => NotFound
      case Some(f) => Popup(i.clientY - 50.0, i.clientX - 56.0, f.data, DeltaOf(f))
  }

  /**
   * The popup appears exactly when some entry has the hovered day, placed
   * 50 above and 56 left of the pointer; it shows a change exactly when the
   * entry is not the first of its series.
   */
  lemma InfoViewCases(info: Option<Info>, data: seq<seq<StockInfo>>)
    ensures info.None? <==> InfoViewOf(info, data).NoInfo?
    ensures info.Some? ==>
      (InfoViewOf(info, data).NotFound? <==>
         forall s, j :: 0 <= s < |data| && 0 <= j < |data[s]| ==> !SameDay(data[s][j], info.value.point))
    ensures InfoViewOf(info, data).Popup? ==>
      var v := InfoViewOf(info, data);
      var f := Find(data, info.value.point, 0).value;
      && v.top == info.value.clientY - 50.0 && v.left == info.value.clientX - 56.0
      && SameDay(v.data, info.value.point)
      && (v.delta.Some? <==> f.index > 0)
      && (v.delta.Some? ==> f.series < |data| && 0 < f.index < |data[f.series]|
                            && v.delta.value.diff == v.data.value - data[f.series][f.index - 1].value)
  {
    if info.Some? {
      FindCorrect(data, info.value.point, 0);
    }
  }

  class StockPlot {
    const data: seq<seq<StockInfo>>
    const width: real
    const height: real
    var info: Option<Info>

    constructor (data: seq<seq<StockInfo>>, width: real, height: real)
      ensures this.data == data && this.width == width && this.height == height && info == None
    {
      this.data, this.width, this.height := data, width, height;
      info := None;
    }

    /** A chart built from `defaultProps`: 800 by 400. */
    constructor WithDefaults(data: seq<seq<StockInfo>>)
      ensures this.data == data && width == 800.0 && height == 400.0 && info == None
    {
      this.data, width, height := data, 800.0, 400.0;
      info := None;
    }

    /** `_handlePointHover`: remembers the hovered point and the pointer position. */
    method HandlePointHover(id: string, point: Point, clientX: real, clientY: real)
      modifies this`info
      ensures info == Some(Info(id, point, clientX, clientY))
    {
      info := Some(Info(id, point, clientX, clientY));
    }

    /** `_handleMouseLeave`. */
    method HandleMouseLeave()
      modifies this`info
      ensures info == None
    {
      info := None;
    }

    /** `_renderInfo`. */
    method RenderInfo() returns (view: InfoView)
      ensures view == InfoViewOf(info, data)
    {
      if info.None? {
        return NoInfo;
      }
      var found := Lookup(data, info.value.point);
      if found.None? {
        return NotFound;
      }
      var f := found.value;
      var delta: Option<Delta> := None;
      if f.previous.Some? {
        var diff := f.data.value - f.previous.value.value;
        delta := Some(Delta(diff, diff > 0.0));
      }
      view := Popup(info.value.clientY - 50.0, info.value.clientX - 56.0, f.data, delta);
    }

    /**
     * What `render` hands to the plot surface: one `Line` element per series
     * (its points and its `COLORS[i]`) and both axis domains.
     */
    method Render() returns (lines: seq<LineElement>, x: (Extended, Extended), y: (Extended, Extended))
      ensures |lines| == |data|
      ensures forall i :: 0 <= i < |data| ==> lines[i] == LineElement(ToPoints(data[i]), PaletteColor(i))
      ensures x == XDomain(Extent(Concat(ToAllPoints(data))))
      ensures y == YDomain(Extent(Concat(ToAllPoints(data))))
    {
      var pointLines, bounds := PrepareLines(data);
      assert pointLines == ToAllPoints(data);
      x, y := XDomain(bounds), YDomain(bounds);
      lines := seq(|pointLines|, i requires 0 <= i < |pointLines| => LineElement(pointLines[i], PaletteColor(i)));
    }
  }

  /** A `Line` element as `render` writes it: points and color, no explicit id. */
  datatype LineElement = LineElement(points: seq<Point>, color: Option<string>)

  function ToAllPoints(data: seq<seq<StockInfo>>): (lines: seq<seq<Point>>)
    ensures |lines| == |data|
    ensures forall i :: 0 <= i < |data| ==> lines[i] == ToPoints(data[i])
  {
    seq(|data|, i requires 0 <= i < |data| => ToPoints(data[i]))
  }
}
