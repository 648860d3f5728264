/**
 * What `render` (src/render.rs) draws, as functions of its inputs: the range
 * repair, the data-to-canvas map, the tick marks, the legend, the per-plot
 * shapes and the order in which all of them are emitted.
 */
module Layout {
  import opened Points
  import opened Arith
  import Splot
  import Poloto

  /** Horizontal margin around the plot area. */
  const PADDING: real := 150.0
  /** Vertical margin around the plot area. */
  const PADDING_Y: real := 100.0
  /** Tick counts `render` asks the step finder for. */
  const IDEAL_X_STEPS: nat := 9
  const IDEAL_Y_STEPS: nat := 10
  /** Vertical distance between two legend entries. */
  const SPACING: real := PADDING / 3.0

  /**
   * The values `render` takes from outside: the canvas size, the palette size
   * and the degenerate-range threshold (in the source a tiny positive constant).
   */
  datatype Config = Config(width: real, height: real, numColors: nat, epsilon: real) {
    predicate Valid() {
      width > 2.0 * PADDING && height > 2.0 * PADDING_Y && numColors > 0 && 0.0 < epsilon <= 1.0
    }
  }

  // ---------------------------------------------------------------------------
  // Range repair and the data-to-canvas map.

  /** render.rs:62-73: an axis narrower than `eps` becomes `[lo - 1, lo + 1]`. */
  function RepairAxis(lo: real, hi: real, eps: real): (r: (real, real))
    ensures Abs(hi - lo) >= eps ==> r == (lo, hi)
    ensures Abs(hi - lo) < eps ==> r.1 - r.0 == 2.0 && r.0 + 1.0 == lo
  {
    if Abs(hi - lo) < eps then (lo - 1.0, lo + 1.0) else (lo, hi)
  }

  /** After the repair the axis has a positive length, so its scale is defined. */
  lemma RepairAxisPositive(lo: real, hi: real, eps: real)
    requires lo <= hi && eps > 0.0
    ensures RepairAxis(lo, hi, eps).0 < RepairAxis(lo, hi, eps).1
  {
  }

  /** With a threshold no wider than the repaired range, repairing twice changes nothing. */
  lemma RepairAxisIdempotent(lo: real, hi: real, eps: real)
    requires eps <= 2.0
    ensures RepairAxis(RepairAxis(lo, hi, eps).0, RepairAxis(lo, hi, eps).1, eps) == RepairAxis(lo, hi, eps)
  {
  }

  function Repair(b: Splot.Bounds, eps: real): Splot.Bounds {
    var (miny, maxy) := RepairAxis(b.miny, b.maxy, eps);
    var (minx, maxx) := RepairAxis(b.minx, b.maxx, eps);
    Splot.Bounds(minx, maxx, miny, maxy)
  }

  /** Both axes have a positive length. */
  predicate Proper(b: Splot.Bounds) {
    b.minx < b.maxx && b.miny < b.maxy
  }

  /** The box of any non-empty point set is proper once repaired. */
  lemma RepairProper(pts: seq<Point>, eps: real)
    requires pts != [] && eps > 0.0
    ensures Splot.BoundsOf(pts).Some?
    ensures Proper(Repair(Splot.BoundsOf(pts).value, eps))
  {
    Splot.BoundsOfTight(pts);
    var b := Splot.BoundsOf(pts).value;
    assert pts[0] in pts;
    RepairAxisPositive(b.minx, b.maxx, eps);
    RepairAxisPositive(b.miny, b.maxy, eps);
  }

  /** render.rs:75: canvas units per data unit along x. */
  function ScaleX(cfg: Config, b: Splot.Bounds): (s: real)
    requires cfg.Valid() && Proper(b)
    ensures s > 0.0
  {
    DivPos(cfg.width - PADDING * 2.0, b.maxx - b.minx);
    (cfg.width - PADDING * 2.0) / (b.maxx - b.minx)
  }

  /** render.rs:76: canvas units per data unit along y. */
  function ScaleY(cfg: Config, b: Splot.Bounds): (s: real)
    requires cfg.Valid() && Proper(b)
    ensures s > 0.0
  {
    DivPos(cfg.height - PADDING_Y * 2.0, b.maxy - b.miny);
    (cfg.height - PADDING_Y * 2.0) / (b.maxy - b.miny)
  }

  /** render.rs:257. */
  function MapX(cfg: Config, b: Splot.Bounds, x: real): real
    requires cfg.Valid() && Proper(b)
  {
    PADDING + (x - b.minx) * ScaleX(cfg, b)
  }

  /** render.rs:258: the y axis is flipped, larger values are drawn higher. */
  function MapY(cfg: Config, b: Splot.Bounds, y: real): real
    requires cfg.Valid() && Proper(b)
  {
    cfg.height - PADDING_Y - (y - b.miny) * ScaleY(cfg, b)
  }

  function MapPoint(cfg: Config, b: Splot.Bounds, p: Point): Point
    requires cfg.Valid() && Proper(b)
  {
    Point(MapX(cfg, b, p.x), MapY(cfg, b, p.y))
  }

  /** render.rs:255-260: the plot's points, mapped one by one. */
  function MapAll(cfg: Config, b: Splot.Bounds, pts: seq<Point>): seq<Point>
    requires cfg.Valid() && Proper(b)
  {
    seq(|pts|, k requires 0 <= k < |pts| => MapPoint(cfg, b, pts[k]))
  }

  /** Each scale times the data span it was computed from gives back the canvas length. */
  lemma ScaleSpan(cfg: Config, b: Splot.Bounds)
    requires cfg.Valid() && Proper(b)
    ensures (b.maxx - b.minx) * ScaleX(cfg, b) == cfg.width - PADDING * 2.0
    ensures (b.maxy - b.miny) * ScaleY(cfg, b) == cfg.height - PADDING_Y * 2.0
  {
    DivMul(cfg.width - PADDING * 2.0, b.maxx - b.minx);
    DivMul(cfg.height - PADDING_Y * 2.0, b.maxy - b.miny);
  }

  /** The left edge of the box lands on the left edge of the plot area. */
  lemma MapNearX(cfg: Config, b: Splot.Bounds, x: real)
    requires cfg.Valid() && Proper(b) && x == b.minx
    ensures MapX(cfg, b, x) == PADDING
  {
    assert MapX(cfg, b, x) == PADDING + (x - b.minx) * ScaleX(cfg, b);
    ZeroMul(x - b.minx, ScaleX(cfg, b));
  }

  /** The bottom of the box lands on the bottom edge of the plot area. */
  lemma MapNearY(cfg: Config, b: Splot.Bounds, y: real)
    requires cfg.Valid() && Proper(b) && y == b.miny
    ensures MapY(cfg, b, y) == cfg.height - PADDING_Y
  {
    assert MapY(cfg, b, y) == cfg.height - PADDING_Y - (y - b.miny) * ScaleY(cfg, b);
    ZeroMul(y - b.miny, ScaleY(cfg, b));
  }

  /** The right edge of the box lands on the right edge of the plot area. */
  lemma MapFarX(cfg: Config, b: Splot.Bounds)
    requires cfg.Valid() && Proper(b)
    ensures MapX(cfg, b, b.maxx) == cfg.width - PADDING
  {
    assert MapX(cfg, b, b.maxx) == PADDING + (b.maxx - b.minx) * ScaleX(cfg, b);
    ScaleSpan(cfg, b);
  }

  /** The top of the box lands on the top edge of the plot area. */
  lemma MapFarY(cfg: Config, b: Splot.Bounds)
    requires cfg.Valid() && Proper(b)
    ensures MapY(cfg, b, b.maxy) == PADDING_Y
  {
    assert MapY(cfg, b, b.maxy) == cfg.height - PADDING_Y - (b.maxy - b.miny) * ScaleY(cfg, b);
    ScaleSpan(cfg, b);
  }

  /** The corners of the box land on the corners of the plot area. */
  lemma MapCorners(cfg: Config, b: Splot.Bounds)
    requires cfg.Valid() && Proper(b)
    ensures MapX(cfg, b, b.minx) == PADDING
    ensures MapX(cfg, b, b.maxx) == cfg.width - PADDING
    ensures MapY(cfg, b, b.miny) == cfg.height - PADDING_Y
    ensures MapY(cfg, b, b.maxy) == PADDING_Y
  {
    MapNearX(cfg, b, b.minx);
    MapNearY(cfg, b, b.miny);
    MapFarX(cfg, b);
    MapFarY(cfg, b);
  }

  /** The map is strictly increasing in x and strictly decreasing in y. */
  lemma MapMonotone(cfg: Config, b: Splot.Bounds, u: real, v: real)
    requires cfg.Valid() && Proper(b) && u < v
    ensures MapX(cfg, b, u) < MapX(cfg, b, v)
    ensures MapY(cfg, b, u) > MapY(cfg, b, v)
  {
    MulLess(u - b.minx, v - b.minx, ScaleX(cfg, b));
    MulLess(u - b.miny, v - b.miny, ScaleY(cfg, b));
    assert (u - b.miny) * ScaleY(cfg, b) < (v - b.miny) * ScaleY(cfg, b);
    assert MapY(cfg, b, u) == cfg.height - PADDING_Y - (u - b.miny) * ScaleY(cfg, b);
    assert MapY(cfg, b, v) == cfg.height - PADDING_Y - (v - b.miny) * ScaleY(cfg, b);
  }

  /** A point of the box is drawn inside the plot area. */
  lemma MapInside(cfg: Config, b: Splot.Bounds, p: Point)
    requires cfg.Valid() && Proper(b)
    requires b.minx <= p.x <= b.maxx && b.miny <= p.y <= b.maxy
    ensures PADDING <= MapPoint(cfg, b, p).x <= cfg.width - PADDING
    ensures PADDING_Y <= MapPoint(cfg, b, p).y <= cfg.height - PADDING_Y
  {
    MapCorners(cfg, b);
    if b.minx < p.x {
      MapMonotone(cfg, b, b.minx, p.x);
    }
    if p.x < b.maxx {
      MapMonotone(cfg, b, p.x, b.maxx);
    }
    if b.miny < p.y {
      MapMonotone(cfg, b, b.miny, p.y);
    }
    if p.y < b.maxy {
      MapMonotone(cfg, b, p.y, b.maxy);
    }
  }

  // ---------------------------------------------------------------------------
  // What is drawn.

  /** The `class` attribute of an element, or its absence. */
  datatype Class = Background | AxisLines | Stroke(color: nat) | Fill(color: nat) | Unclassed

  datatype Axis = X | Y

  /** Text content; numbers stay numbers, as their formatting is not modelled. */
  datatype Label =
    | OffsetBase(axis: Axis, base: real)
    | TickValue(prefix: string, value: real, step: real)
    | PlotName(name: string)
    | Title(text: string)
    | XName(text: string)
    | YName(text: string)

  /** Path commands: move to, line to, close. */
  datatype Cmd = M(x: real, y: real) | L(x: real, y: real) | Z

  /**
   * One SVG element as the sink receives it. A `g` group is written as its
   * opening and closing tags, so that its children stream in between.
   */
  datatype Elem =
    | Rect(cls: Class, x: real, y: real, width: real, height: real, corner: real)
    | Segment(cls: Class, x1: real, y1: real, x2: real, y2: real)
    | Circle(cls: Class, cx: real, cy: real, r: real)
    | Polyline(cls: Class, points: seq<Point>)
    | Path(cls: Class, cmds: seq<Cmd>)
    | GroupStart(cls: Class)
    | GroupEnd
    | Text(x: real, y: real, content: Label)

  /** render.rs:41-48. */
  function BackgroundRect(cfg: Config): Elem {
    Rect(Background, 0.0, 0.0, cfg.width, cfg.height, 0.0)
  }

  // ---------------------------------------------------------------------------
  // Ticks.

  type TickCount = n: nat | 1 <= n witness 1

  /** What the step finder returns: how many ticks, their spacing and the first tick. */
  datatype TickSet = TickSet(num: TickCount, step: real, start: real)

  /** render.rs:99 and 156: the value of the last tick. */
  function LastTick(ts: TickSet): real {
    ts.start + (ts.num - 1) as real * ts.step
  }

  /** render.rs:116 and 174: the label prefix once the offset note is shown. */
  function Prefix(axis: Axis, offset: bool): string {
    if !offset then "" else if axis == X then "j+" else "k+"
  }

  /** render.rs:116-118 and 174-176: the value labels count from. */
  function LabelBase(ts: TickSet, offset: bool): real {
    if offset then 0.0 else ts.start
  }

  /** render.rs:123-125 and 181-183: the canvas coordinate of tick `a`. */
  function TickPos(cfg: Config, b: Splot.Bounds, axis: Axis, ts: TickSet, a: nat): real
    requires cfg.Valid() && Proper(b)
  {
    match axis
    case X => (ts.start - b.minx + a as real * ts.step) * ScaleX(cfg, b) + PADDING
    case Y => cfg.height - (ts.start - b.miny + a as real * ts.step) * ScaleY(cfg, b) - PADDING_Y
  }

  /** render.rs:127-134 and 185-192: the short mark on the axis. */
  function TickMark(cfg: Config, axis: Axis, pos: real): Elem {
    match axis
    case X => Segment(AxisLines, pos, cfg.height - PADDING_Y, pos, cfg.height - PADDING_Y * 0.95)
    case Y => Segment(AxisLines, PADDING, pos, PADDING * 0.96, pos)
  }

  /** render.rs:136-148 and 194-206: the value beside the mark. */
  function TickText(cfg: Config, axis: Axis, pos: real, content: Label): Elem {
    match axis
    case X => Text(pos, cfg.height - PADDING_Y + PADDING_Y * 0.3, content)
    case Y => Text(PADDING - PADDING * 0.1, pos, content)
  }

  /** render.rs:144-146 and 202-204: the label of tick `a`. */
  function TickLabel(axis: Axis, ts: TickSet, offset: bool, a: nat): (l: Label)
    ensures offset ==> l == TickValue(if axis == X then "j+" else "k+", a as real * ts.step, ts.step)
    ensures !offset ==> l == TickValue("", ts.start + a as real * ts.step, ts.step)
  {
    TickValue(Prefix(axis, offset), a as real * ts.step + LabelBase(ts, offset), ts.step)
  }

  /** The mark and the label of tick `a`. */
  function TickPair(cfg: Config, b: Splot.Bounds, axis: Axis, ts: TickSet, offset: bool, a: nat): seq<Elem>
    requires cfg.Valid() && Proper(b)
  {
    var pos := TickPos(cfg, b, axis, ts, a);
    [TickMark(cfg, axis, pos),
     TickText(cfg, axis, pos, TickLabel(axis, ts, offset, a))]
  }

  /** The first `n` iterations of the tick loop. */
  function Ticks(cfg: Config, b: Splot.Bounds, axis: Axis, ts: TickSet, offset: bool, n: nat): seq<Elem>
    requires cfg.Valid() && Proper(b)
  {
    if n == 0 then [] else Ticks(cfg, b, axis, ts, offset, n - 1) + TickPair(cfg, b, axis, ts, offset, n - 1)
  }

  /** render.rs:102-114 and 159-172: the "Where j = " / "Where k = " note. */
  function OffsetNote(cfg: Config, axis: Axis, ts: TickSet): Elem {
    match axis
    case X => Text(cfg.width * 0.55, PADDING_Y * 0.7, OffsetBase(X, ts.start))
    case Y => Text(PADDING, PADDING_Y * 0.7, OffsetBase(Y, ts.start))
  }

  /** render.rs:95-150 and 152-208: one axis' note and ticks. */
  function AxisElems(cfg: Config, b: Splot.Bounds, axis: Axis, ts: TickSet, offset: bool): seq<Elem>
    requires cfg.Valid() && Proper(b)
  {
    (if offset then [OffsetNote(cfg, axis, ts)] else []) + Ticks(cfg, b, axis, ts, offset, ts.num)
  }

  /** Tick `a` sits where the map sends the data value `start + a * step`. */
  lemma TickOnMap(cfg: Config, b: Splot.Bounds, axis: Axis, ts: TickSet, a: nat)
    requires cfg.Valid() && Proper(b)
    ensures axis == X ==> TickPos(cfg, b, axis, ts, a) == MapX(cfg, b, ts.start + a as real * ts.step)
    ensures axis == Y ==> TickPos(cfg, b, axis, ts, a) == MapY(cfg, b, ts.start + a as real * ts.step)
  {
    assert ts.start - b.minx + a as real * ts.step == ts.start + a as real * ts.step - b.minx;
    assert ts.start - b.miny + a as real * ts.step == ts.start + a as real * ts.step - b.miny;
  }

  /**
   * The loop emits exactly `n` mark/label pairs, mark first; labels carry the
   * prefix and count from the base.
   */
  lemma {:induction false} TicksShape(cfg: Config, b: Splot.Bounds, axis: Axis, ts: TickSet, offset: bool, n: nat)
    requires cfg.Valid() && Proper(b)
    ensures |Ticks(cfg, b, axis, ts, offset, n)| == 2 * n
    ensures forall a :: 0 <= a < n ==>
      Ticks(cfg, b, axis, ts, offset, n)[2 * a] == TickMark(cfg, axis, TickPos(cfg, b, axis, ts, a))
    ensures forall a :: 0 <= a < n ==>
      Ticks(cfg, b, axis, ts, offset, n)[2 * a + 1]
        == TickText(cfg, axis, TickPos(cfg, b, axis, ts, a), TickLabel(axis, ts, offset, a))
  {
    if n > 0 {
      TicksShape(cfg, b, axis, ts, offset, n - 1);
      var prev := Ticks(cfg, b, axis, ts, offset, n - 1);
      var all := Ticks(cfg, b, axis, ts, offset, n);
      assert all == prev + TickPair(cfg, b, axis, ts, offset, n - 1);
      forall a | 0 <= a < n - 1
        ensures all[2 * a] == prev[2 * a] && all[2 * a + 1] == prev[2 * a + 1]
      {
      }
    }
  }

  /**
   * An axis gets exactly `num` tick pairs, preceded by one note exactly when
   * the offset form is used.
   */
  lemma AxisElemsShape(cfg: Config, b: Splot.Bounds, axis: Axis, ts: TickSet, offset: bool)
    requires cfg.Valid() && Proper(b)
    ensures |AxisElems(cfg, b, axis, ts, offset)| == 2 * ts.num + (if offset then 1 else 0)
    ensures offset ==> AxisElems(cfg, b, axis, ts, offset)[0] == OffsetNote(cfg, axis, ts)
    ensures !offset ==> AxisElems(cfg, b, axis, ts, offset) == Ticks(cfg, b, axis, ts, offset, ts.num)
  {
    TicksShape(cfg, b, axis, ts, offset, ts.num);
  }

  // ---------------------------------------------------------------------------
  // Legend.

  /** render.rs:221: plot `i` takes palette entry `i % NUM_COLORS`. */
  function ColorIndex(cfg: Config, i: nat): (c: nat)
    requires cfg.numColors > 0
    ensures c < cfg.numColors
  {
    i % cfg.numColors
  }

  /** Colours repeat with period `NUM_COLORS`; the first `NUM_COLORS` plots take their own index. */
  lemma ColorCycle(cfg: Config, i: nat)
    requires cfg.numColors > 0
    ensures ColorIndex(cfg, i + cfg.numColors) == ColorIndex(cfg, i)
    ensures i < cfg.numColors ==> ColorIndex(cfg, i) == i
  {
    var n := cfg.numColors;
    assert i == (i / n) * n + i % n;
    assert i + n == (i / n + 1) * n + i % n;
    ModUnique(i + n, n, i / n + 1, i % n);
    if i < n {
      ModUnique(i, n, 0, i);
    }
  }

  /** render.rs:228-247: the legend text of plot `i`, one `SPACING` below the previous one. */
  function LegendText(cfg: Config, i: nat, name: string): Elem {
    Text(cfg.width - PADDING / 1.2, PADDING_Y + i as real * SPACING, PlotName(name))
  }

  /** render.rs:250-251: where the swatch of plot `i` starts. */
  function LegendX1(cfg: Config): real {
    cfg.width - PADDING / 1.2 + PADDING / 30.0
  }

  function LegendY1(i: nat): real {
    PADDING_Y - PADDING / 8.0 + i as real * SPACING
  }

  /** render.rs:266-273, 290-295, 312-320, 347-355: the legend sample of each plot kind. */
  function Swatch(cfg: Config, kind: Poloto.PlotType, color: nat, i: nat): Elem {
    var x1 := LegendX1(cfg);
    var y1 := LegendY1(i);
    match kind
    case Line => Segment(Stroke(color), x1, y1, x1 + PADDING / 3.0, y1)
    case Scatter => Circle(Fill(color), x1 + PADDING / 30.0, y1, PADDING / 30.0)
    case Histo => Rect(Fill(color), x1, y1 - PADDING / 30.0, PADDING / 3.0, PADDING / 20.0, PADDING / 30.0)
    case LineFill => Rect(Fill(color), x1, y1 - PADDING / 30.0, PADDING / 3.0, PADDING / 20.0, PADDING / 30.0)
  }

  /** render.rs:243-245: a name exists when writing it produced at least one byte. */
  function NameExists(name: string): (e: bool)
    ensures e <==> name != []
  {
    Utf8Len(name) != 0
  }

  // ---------------------------------------------------------------------------
  // Shapes.

  /** render.rs:301-306: one circle per point. */
  function Circles(pts: seq<Point>): seq<Elem> {
    seq(|pts|, k requires 0 <= k < |pts| => Circle(Unclassed, pts[k].x, pts[k].y, PADDING / 30.0))
  }

  /** render.rs:329-337: the bar from the previous point `last` up to the next point `p`. */
  function HistoBar(cfg: Config, last: Point, p: Point): Elem {
    Rect(Unclassed, last.x, last.y, Max(PADDING * 0.02, (p.x - last.x) - PADDING * 0.02), cfg.height - PADDING_Y - last.y, 0.0)
  }

  /** render.rs:326-340: each point but the last starts a bar reaching to its successor. */
  function HistoBars(cfg: Config, pts: seq<Point>): seq<Elem> {
    if |pts| < 2 then []
    else seq(|pts| - 1, k requires 0 <= k < |pts| - 1 => HistoBar(cfg, pts[k], pts[k + 1]))
  }

  /** render.rs:361-368: down to the baseline, along the points, back to the baseline, closed. */
  function FillCmds(cfg: Config, pts: seq<Point>): seq<Cmd> {
    [M(PADDING, cfg.height - PADDING_Y)]
      + seq(|pts|, k requires 0 <= k < |pts| => L(pts[k].x, pts[k].y))
      + [L(cfg.width - PADDING, cfg.height - PADDING_Y), Z]
  }

  /** render.rs:262-372: the plot itself, given its mapped points. */
  function Shape(cfg: Config, kind: Poloto.PlotType, color: nat, pts: seq<Point>): seq<Elem> {
    match kind
    case Line => [Polyline(Stroke(color), pts)]
    case Scatter => [GroupStart(Fill(color))] + Circles(pts) + [GroupEnd]
    case Histo => [GroupStart(Fill(color))] + HistoBars(cfg, pts) + [GroupEnd]
    case LineFill => [Path(Fill(color), FillCmds(cfg, pts))]
  }

  /** A plot as `render` consumes it: its name, its kind and its finite points. */
  datatype PlotData = PlotData(name: string, plotType: Poloto.PlotType, points: seq<Point>)

  /** render.rs:223-371: the legend entry and the shape of plot `i`. */
  function PlotElems(cfg: Config, b: Splot.Bounds, i: nat, plot: PlotData): seq<Elem>
    requires cfg.Valid() && Proper(b)
  {
    var color := ColorIndex(cfg, i);
    [LegendText(cfg, i, plot.name)]
      + (if NameExists(plot.name) then [Swatch(cfg, plot.plotType, color, i)] else [])
      + Shape(cfg, plot.plotType, color, MapAll(cfg, b, plot.points))
  }

  /** The first `n` iterations of the per-plot loop. */
  function PlotsUpTo(cfg: Config, b: Splot.Bounds, plots: seq<PlotData>, n: nat): seq<Elem>
    requires cfg.Valid() && Proper(b) && n <= |plots|
  {
    if n == 0 then [] else PlotsUpTo(cfg, b, plots, n - 1) + PlotElems(cfg, b, n - 1, plots[n - 1])
  }

  /**
   * A plot as the builders of lib.rs hand it to `render`: the caller's points
   * pass the finiteness filter of lib.rs:71 and become plain coordinates.
   */
  function PlotDataOf(name: string, kind: Poloto.PlotType, raw: seq<RawPoint>): (d: PlotData)
    ensures d.name == name && d.plotType == kind
    ensures |d.points| == |Poloto.FiniteOnly(raw)| <= |raw|
    ensures forall k :: 0 <= k < |d.points| ==>
      Poloto.FiniteOnly(raw)[k] == RawPoint(Num(d.points[k].x), Num(d.points[k].y))
  {
    PlotData(name, kind, Poloto.Values(Poloto.FiniteOnly(raw)))
  }

  /** A plot whose points are all finite is drawn from exactly those points, in order. */
  lemma PlotDataOfFinite(name: string, kind: Poloto.PlotType, raw: seq<RawPoint>)
    requires forall k :: 0 <= k < |raw| ==> raw[k].IsFinite()
    ensures |PlotDataOf(name, kind, raw).points| == |raw|
    ensures forall k :: 0 <= k < |raw| ==>
      raw[k] == RawPoint(Num(PlotDataOf(name, kind, raw).points[k].x), Num(PlotDataOf(name, kind, raw).points[k].y))
  {
    Poloto.FiniteOnlyKeepsFinite(raw);
  }

  /** render.rs:52: every plot's points, one plot after the other. */
  function AllPoints(plots: seq<PlotData>): seq<Point> {
    if plots == [] then [] else AllPoints(plots[..|plots| - 1]) + plots[|plots| - 1].points
  }

  /** The title and the two axis names, as the source's `Names` writes them. */
  datatype Names = Names(title: string, xname: string, yname: string)

  /** render.rs:375-419. */
  function Labels(cfg: Config, names: Names): seq<Elem> {
    [Text(cfg.width / 2.0, PADDING / 4.0, Title(names.title)),
     Text(cfg.width / 2.0, cfg.height - PADDING / 8.0, XName(names.xname)),
     Text(PADDING / 4.0, cfg.height / 2.0, YName(names.yname))]
  }

  /** render.rs:421-431: the two axis lines as one path. */
  function AxisPath(cfg: Config): Elem {
    Path(AxisLines, [M(PADDING, PADDING_Y), L(PADDING, cfg.height - PADDING_Y), L(cfg.width - PADDING, cfg.height - PADDING_Y)])
  }

  // ---------------------------------------------------------------------------
  // The whole document.

  /** render.rs:51-73: the box of all points, repaired. */
  function Frame(cfg: Config, plots: seq<PlotData>): (b: Splot.Bounds)
    requires cfg.Valid() && AllPoints(plots) != []
    ensures Proper(b)
  {
    RepairProper(AllPoints(plots), cfg.epsilon);
    Repair(Splot.BoundsOf(AllPoints(plots)).value, cfg.epsilon)
  }

  /** What `render` returns and the elements it wrote before returning. */
  datatype Output = Output(result: Fmt<()>, elems: seq<Elem>)

  /**
   * `render` (render.rs:26-434) after the header. `goodStep` and `useOffset`
   * stand for the step finder and the offset decision of the `util` module.
   */
  function Document(cfg: Config, plots: seq<PlotData>, names: Names,
                    goodStep: (nat, real, real) -> TickSet,
                    useOffset: (real, real, real) -> Fmt<bool>): Output
    requires cfg.Valid()
  {
    var bg := [BackgroundRect(cfg)];
    var pts := AllPoints(plots);
    if pts == [] then Output(Ok(()), bg)
    else
      var b := Frame(cfg, plots);
      var xs := goodStep(IDEAL_X_STEPS, b.minx, b.maxx);
      var ys := goodStep(IDEAL_Y_STEPS, b.miny, b.maxy);
      match useOffset(xs.start, LastTick(xs), xs.step)
      case Error => Output(Error, bg)
      case Ok(xoff) =>
        var xe := AxisElems(cfg, b, X, xs, xoff);
        match useOffset(ys.start, LastTick(ys), ys.step)
        case Error => Output(Error, bg + xe)
        case Ok(yoff) =>
          Output(Ok(()), bg + xe + AxisElems(cfg, b, Y, ys, yoff) + PlotsUpTo(cfg, b, plots, |plots|)
                           + Labels(cfg, names) + [AxisPath(cfg)])
  }

  // ---------------------------------------------------------------------------
  // Properties of the shapes and of the document.

  /** The repaired box contains the box it came from. */
  lemma RepairWidens(b: Splot.Bounds, eps: real)
    requires b.minx <= b.maxx && b.miny <= b.maxy && eps <= 1.0
    ensures var r := Repair(b, eps);
      r.minx <= b.minx && b.maxx <= r.maxx && r.miny <= b.miny && b.maxy <= r.maxy
  {
  }

  /** Each point of plot `i` is one of the points the bounds were taken over. */
  lemma {:induction false} InAllPoints(plots: seq<PlotData>, i: nat, k: nat)
    requires i < |plots| && k < |plots[i].points|
    ensures plots[i].points[k] in AllPoints(plots)
  {
    var last := |plots| - 1;
    assert AllPoints(plots) == AllPoints(plots[..last]) + plots[last].points;
    if i < last {
      InAllPoints(plots[..last], i, k);
    } else {
      assert plots[i].points[k] in plots[last].points;
    }
  }

  /** Every point of every plot is drawn inside the plot area. */
  lemma PointDrawnInside(cfg: Config, plots: seq<PlotData>, i: nat, k: nat)
    requires cfg.Valid() && i < |plots| && k < |plots[i].points|
    ensures AllPoints(plots) != []
    ensures var q := MapPoint(cfg, Frame(cfg, plots), plots[i].points[k]);
      PADDING <= q.x <= cfg.width - PADDING && PADDING_Y <= q.y <= cfg.height - PADDING_Y
  {
    var pts := AllPoints(plots);
    InAllPoints(plots, i, k);
    RepairProper(pts, cfg.epsilon);
    Splot.BoundsOfTight(pts);
    var raw := Splot.BoundsOf(pts).value;
    RepairWidens(raw, cfg.epsilon);
    MapInside(cfg, Repair(raw, cfg.epsilon), plots[i].points[k]);
  }

  /**
   * Histogram bars: one fewer than the points; bar `k` starts at mapped
   * point `k`, is at least `0.02 * PADDING` wide and, for points inside the
   * box, reaches down to the x axis with a non-negative height.
   */
  lemma HistoBarsShape(cfg: Config, b: Splot.Bounds, pts: seq<Point>)
    requires cfg.Valid() && Proper(b)
    requires forall k :: 0 <= k < |pts| ==> b.minx <= pts[k].x <= b.maxx && b.miny <= pts[k].y <= b.maxy
    ensures |HistoBars(cfg, MapAll(cfg, b, pts))| == if |pts| < 2 then 0 else |pts| - 1
    ensures forall k :: 0 <= k < |HistoBars(cfg, MapAll(cfg, b, pts))| ==>
      var bar := HistoBars(cfg, MapAll(cfg, b, pts))[k];
      && bar.Rect?
      && bar.x == MapX(cfg, b, pts[k].x) && bar.y == MapY(cfg, b, pts[k].y)
      && bar.width >= PADDING * 0.02
      && bar.height >= 0.0 && bar.y + bar.height == cfg.height - PADDING_Y
    ensures forall k :: 0 <= k < |HistoBars(cfg, MapAll(cfg, b, pts))| ==>
      HistoBars(cfg, MapAll(cfg, b, pts))[k].width
        == Max(PADDING * 0.02, (MapX(cfg, b, pts[k + 1].x) - MapX(cfg, b, pts[k].x)) - PADDING * 0.02)
  {
    forall k | 0 <= k < |HistoBars(cfg, MapAll(cfg, b, pts))|
      ensures HistoBars(cfg, MapAll(cfg, b, pts))[k].width
        == Max(PADDING * 0.02, (MapX(cfg, b, pts[k + 1].x) - MapX(cfg, b, pts[k].x)) - PADDING * 0.02)
    {
      HistoBarWidth(cfg, b, pts, k);
    }
    forall k | 0 <= k < |pts| {
      MapInside(cfg, b, pts[k]);
    }
  }

  /**
   * render.rs:332-336: bar `k` is as wide as the gap to the next mapped point,
   * less `0.02 * PADDING`, but never narrower than `0.02 * PADDING`.
   */
  lemma HistoBarWidth(cfg: Config, b: Splot.Bounds, pts: seq<Point>, k: nat)
    requires cfg.Valid() && Proper(b) && k + 1 < |pts|
    ensures HistoBars(cfg, MapAll(cfg, b, pts))[k].width
      == Max(PADDING * 0.02, (MapX(cfg, b, pts[k + 1].x) - MapX(cfg, b, pts[k].x)) - PADDING * 0.02)
  {
    var m := MapAll(cfg, b, pts);
    assert m[k] == MapPoint(cfg, b, pts[k]);
    assert m[k + 1] == MapPoint(cfg, b, pts[k + 1]);
    assert HistoBars(cfg, m)[k] == HistoBar(cfg, m[k], m[k + 1]);
  }

  /** Scatter: one circle of radius `PADDING / 30` per point, centred where the map sends that point. */
  lemma CirclesShape(cfg: Config, b: Splot.Bounds, pts: seq<Point>)
    requires cfg.Valid() && Proper(b)
    ensures |Circles(MapAll(cfg, b, pts))| == |pts|
    ensures forall k :: 0 <= k < |pts| ==>
      Circles(MapAll(cfg, b, pts))[k] == Circle(Unclassed, MapX(cfg, b, pts[k].x), MapY(cfg, b, pts[k].y), PADDING / 30.0)
  {
  }

  /** The filled path: `n + 3` commands, starting and ending on the x axis, through every point in order. */
  lemma FillCmdsShape(cfg: Config, pts: seq<Point>)
    ensures |FillCmds(cfg, pts)| == |pts| + 3
    ensures FillCmds(cfg, pts)[0] == M(PADDING, cfg.height - PADDING_Y)
    ensures forall k :: 0 <= k < |pts| ==> FillCmds(cfg, pts)[k + 1] == L(pts[k].x, pts[k].y)
    ensures FillCmds(cfg, pts)[|pts| + 1] == L(cfg.width - PADDING, cfg.height - PADDING_Y)
    ensures FillCmds(cfg, pts)[|pts| + 2] == Z
  {
  }

  lemma AppendAssoc<T>(a: seq<T>, b: seq<T>, c: seq<T>)
    ensures a + b + c == a + (b + c)
  {
  }

  /** Text elements that carry a plot's name. */
  predicate IsLegendText(e: Elem) {
    e.Text? && e.content.PlotName?
  }

  /** The legend texts among `es`, in order. */
  function LegendTexts(es: seq<Elem>): seq<Elem> {
    if es == [] then []
    else LegendTexts(es[..|es| - 1]) + (if IsLegendText(es[|es| - 1]) then [es[|es| - 1]] else [])
  }

  lemma {:induction false} LegendTextsConcat(a: seq<Elem>, b: seq<Elem>)
    ensures LegendTexts(a + b) == LegendTexts(a) + LegendTexts(b)
    decreases |b|
  {
    if b == [] {
      assert a + b == a;
    } else {
      var b' := b[..|b| - 1];
      assert (a + b)[..|a + b| - 1] == a + b';
      LegendTextsConcat(a, b');
    }
  }

  lemma {:induction false} NoLegendTexts(es: seq<Elem>)
    requires forall k :: 0 <= k < |es| ==> !IsLegendText(es[k])
    ensures LegendTexts(es) == []
  {
    if es != [] {
      NoLegendTexts(es[..|es| - 1]);
    }
  }

  /** A plot contributes exactly one legend text, its own, first; a swatch follows exactly when it has a name. */
  lemma PlotElemsShape(cfg: Config, b: Splot.Bounds, i: nat, plot: PlotData)
    requires cfg.Valid() && Proper(b)
    ensures PlotElems(cfg, b, i, plot)[0] == LegendText(cfg, i, plot.name)
    ensures |PlotElems(cfg, b, i, plot)| == (if plot.name != [] then 2 else 1) + |Shape(cfg, plot.plotType, ColorIndex(cfg, i), MapAll(cfg, b, plot.points))|
    ensures plot.name != [] <==> PlotElems(cfg, b, i, plot)[1..|PlotElems(cfg, b, i, plot)| - |Shape(cfg, plot.plotType, ColorIndex(cfg, i), MapAll(cfg, b, plot.points))|] == [Swatch(cfg, plot.plotType, ColorIndex(cfg, i), i)]
  {
    var color := ColorIndex(cfg, i);
    var swatch := if NameExists(plot.name) then [Swatch(cfg, plot.plotType, color, i)] else [];
    var shape := Shape(cfg, plot.plotType, color, MapAll(cfg, b, plot.points));
    assert PlotElems(cfg, b, i, plot) == [LegendText(cfg, i, plot.name)] + swatch + shape;
  }

  /** A plot's shape holds no legend text. */
  lemma ShapeNoLegend(cfg: Config, kind: Poloto.PlotType, color: nat, pts: seq<Point>)
    ensures forall k :: 0 <= k < |Shape(cfg, kind, color, pts)| ==> !IsLegendText(Shape(cfg, kind, color, pts)[k])
  {
    var s := Shape(cfg, kind, color, pts);
    match kind
    case Line =>
    case LineFill =>
    case Scatter =>
      assert s == [GroupStart(Fill(color))] + Circles(pts) + [GroupEnd];
    case Histo =>
      assert s == [GroupStart(Fill(color))] + HistoBars(cfg, pts) + [GroupEnd];
  }

  /** After the legend text, a plot writes no legend text: its swatch and its shape hold none. */
  lemma SwatchShapeNoLegend(cfg: Config, kind: Poloto.PlotType, color: nat, i: nat, named: bool, pts: seq<Point>)
    ensures LegendTexts((if named then [Swatch(cfg, kind, color, i)] else []) + Shape(cfg, kind, color, pts)) == []
  {
    var rest := (if named then [Swatch(cfg, kind, color, i)] else []) + Shape(cfg, kind, color, pts);
    ShapeNoLegend(cfg, kind, color, pts);
    assert forall k :: 0 <= k < |rest| ==> !IsLegendText(rest[k]);
    NoLegendTexts(rest);
  }

  /** The only legend text a plot writes is its own. */
  lemma PlotElemsLegend(cfg: Config, b: Splot.Bounds, i: nat, plot: PlotData)
    requires cfg.Valid() && Proper(b)
    ensures LegendTexts(PlotElems(cfg, b, i, plot)) == [LegendText(cfg, i, plot.name)]
  {
    var color := ColorIndex(cfg, i);
    var swatch := if NameExists(plot.name) then [Swatch(cfg, plot.plotType, color, i)] else [];
    var shape := Shape(cfg, plot.plotType, color, MapAll(cfg, b, plot.points));
    var head := [LegendText(cfg, i, plot.name)];
    SwatchShapeNoLegend(cfg, plot.plotType, color, i, NameExists(plot.name), MapAll(cfg, b, plot.points));
    LegendTextsConcat(head, swatch + shape);
    assert LegendTexts(head) == head by {
      assert head[..0] == [];
    }
    AppendAssoc(head, swatch, shape);
  }

  /** The legend texts of the first `n` plots, as the source places them. */
  function LegendsUpTo(cfg: Config, plots: seq<PlotData>, n: nat): (r: seq<Elem>)
    requires n <= |plots|
    ensures |r| == n
    ensures forall i :: 0 <= i < n ==> r[i] == LegendText(cfg, i, plots[i].name)
  {
    if n == 0 then [] else LegendsUpTo(cfg, plots, n - 1) + [LegendText(cfg, n - 1, plots[n - 1].name)]
  }

  /**
   * The legend texts of the first `n` plots, in order: plot `i`'s text sits
   * at `PADDING_Y + i * SPACING`, whatever the other plots are called.
   */
  lemma {:induction false} PlotsLegends(cfg: Config, b: Splot.Bounds, plots: seq<PlotData>, n: nat)
    requires cfg.Valid() && Proper(b) && n <= |plots|
    ensures LegendTexts(PlotsUpTo(cfg, b, plots, n)) == LegendsUpTo(cfg, plots, n)
  {
    if n > 0 {
      var prev := PlotsUpTo(cfg, b, plots, n - 1);
      var last := PlotElems(cfg, b, n - 1, plots[n - 1]);
      PlotsLegends(cfg, b, plots, n - 1);
      PlotElemsLegend(cfg, b, n - 1, plots[n - 1]);
      assert PlotsUpTo(cfg, b, plots, n) == prev + last;
      LegendTextsConcat(prev, last);
    }
  }

  /** Tick marks, tick labels and offset notes. */
  predicate IsAxisElem(e: Elem) {
    (e.Segment? && e.cls == AxisLines) || (e.Text? && (e.content.TickValue? || e.content.OffsetBase?))
  }

  lemma AxisElemsOnly(cfg: Config, b: Splot.Bounds, axis: Axis, ts: TickSet, offset: bool)
    requires cfg.Valid() && Proper(b)
    ensures forall k :: 0 <= k < |AxisElems(cfg, b, axis, ts, offset)| ==> IsAxisElem(AxisElems(cfg, b, axis, ts, offset)[k])
  {
    TicksShape(cfg, b, axis, ts, offset, ts.num);
    var ticks := Ticks(cfg, b, axis, ts, offset, ts.num);
    forall k | 0 <= k < |ticks| ensures IsAxisElem(ticks[k]) {
      var a := k / 2;
      if k == 2 * a {
        assert ticks[2 * a] == TickMark(cfg, axis, TickPos(cfg, b, axis, ts, a));
      } else {
        assert k == 2 * a + 1;
        assert ticks[2 * a + 1] == TickText(cfg, axis, TickPos(cfg, b, axis, ts, a), TickLabel(axis, ts, offset, a));
      }
    }
    var note := if offset then [OffsetNote(cfg, axis, ts)] else [];
    assert AxisElems(cfg, b, axis, ts, offset) == note + ticks;
  }

  /** With no point in any plot, `render` draws the background only and succeeds, and only then. */
  lemma DocumentEmpty(cfg: Config, plots: seq<PlotData>, names: Names,
                      goodStep: (nat, real, real) -> TickSet,
                      useOffset: (real, real, real) -> Fmt<bool>)
    requires cfg.Valid()
    ensures Document(cfg, plots, names, goodStep, useOffset) == Output(Ok(()), [BackgroundRect(cfg)])
      <==> AllPoints(plots) == []
  {
  }

  /** The background and the axes hold no legend text. */
  lemma AxesNoLegend(cfg: Config, b: Splot.Bounds, xs: TickSet, xoff: bool, ys: TickSet, yoff: bool)
    requires cfg.Valid() && Proper(b)
    ensures LegendTexts([BackgroundRect(cfg)] + AxisElems(cfg, b, X, xs, xoff) + AxisElems(cfg, b, Y, ys, yoff)) == []
  {
    var xe := AxisElems(cfg, b, X, xs, xoff);
    var ye := AxisElems(cfg, b, Y, ys, yoff);
    AxisElemsOnly(cfg, b, X, xs, xoff);
    AxisElemsOnly(cfg, b, Y, ys, yoff);
    var front := [BackgroundRect(cfg)] + xe + ye;
    forall k | 0 <= k < |front| ensures !IsLegendText(front[k]) {
      if 1 <= k < 1 + |xe| {
        assert front[k] == xe[k - 1];
      } else if 1 + |xe| <= k {
        assert front[k] == ye[k - 1 - |xe|];
      }
    }
    NoLegendTexts(front);
  }

  lemma LabelsNoLegend(cfg: Config, names: Names)
    ensures LegendTexts(Labels(cfg, names) + [AxisPath(cfg)]) == []
  {
    NoLegendTexts(Labels(cfg, names) + [AxisPath(cfg)]);
  }

  /** Elements without legend texts on either side leave the legend texts in between alone. */
  lemma LegendTextsAround(a: seq<Elem>, m: seq<Elem>, c: seq<Elem>)
    requires LegendTexts(a) == [] && LegendTexts(c) == []
    ensures LegendTexts(a + m + c) == LegendTexts(m)
  {
    LegendTextsConcat(a, m);
    LegendTextsConcat(a + m, c);
  }

  /** Framed by elements without legend texts, the plots' legend texts are all there is. */
  lemma PlotsBetween(cfg: Config, b: Splot.Bounds, plots: seq<PlotData>, front: seq<Elem>, tail: seq<Elem>)
    requires cfg.Valid() && Proper(b)
    requires LegendTexts(front) == [] && LegendTexts(tail) == []
    ensures LegendTexts(front + PlotsUpTo(cfg, b, plots, |plots|) + tail) == LegendsUpTo(cfg, plots, |plots|)
  {
    PlotsLegends(cfg, b, plots, |plots|);
    LegendTextsAround(front, PlotsUpTo(cfg, b, plots, |plots|), tail);
  }

  /**
   * A successful render of some points starts with the background, ends with
   * the axis path, and carries one legend text per plot, in plot order.
   */
  lemma DocumentOk(cfg: Config, plots: seq<PlotData>, names: Names,
                   goodStep: (nat, real, real) -> TickSet,
                   useOffset: (real, real, real) -> Fmt<bool>)
    requires cfg.Valid() && AllPoints(plots) != []
    requires Document(cfg, plots, names, goodStep, useOffset).result.Ok?
    ensures var es := Document(cfg, plots, names, goodStep, useOffset).elems;
      && es[0] == BackgroundRect(cfg)
      && es[|es| - 1] == AxisPath(cfg)
      && LegendTexts(es) == LegendsUpTo(cfg, plots, |plots|)
  {
    var b := Frame(cfg, plots);
    var xs := goodStep(IDEAL_X_STEPS, b.minx, b.maxx);
    var ys := goodStep(IDEAL_Y_STEPS, b.miny, b.maxy);
    var xoff := useOffset(xs.start, LastTick(xs), xs.step).value;
    var yoff := useOffset(ys.start, LastTick(ys), ys.step).value;
    AxesNoLegend(cfg, b, xs, xoff, ys, yoff);
    LabelsNoLegend(cfg, names);
    var front := [BackgroundRect(cfg)] + AxisElems(cfg, b, X, xs, xoff) + AxisElems(cfg, b, Y, ys, yoff);
    var tail := Labels(cfg, names) + [AxisPath(cfg)];
    PlotsBetween(cfg, b, plots, front, tail);
    var es := Document(cfg, plots, names, goodStep, useOffset).elems;
    var pe := PlotsUpTo(cfg, b, plots, |plots|);
    assert es == front + pe + Labels(cfg, names) + [AxisPath(cfg)];
    AppendAssoc(front + pe, Labels(cfg, names), [AxisPath(cfg)]);
    assert es[0] == BackgroundRect(cfg);
    assert es[|es| - 1] == AxisPath(cfg);
  }

  /**
   * A failing offset decision aborts the render: after the background only
   * tick marks, tick labels and offset notes were written, with no plot, no
   * legend and no axis path.
   */
  lemma DocumentError(cfg: Config, plots: seq<PlotData>, names: Names,
                      goodStep: (nat, real, real) -> TickSet,
                      useOffset: (real, real, real) -> Fmt<bool>)
    requires cfg.Valid()
    requires Document(cfg, plots, names, goodStep, useOffset).result.Error?
    ensures var es := Document(cfg, plots, names, goodStep, useOffset).elems;
      && es[0] == BackgroundRect(cfg)
      && forall k :: 1 <= k < |es| ==> IsAxisElem(es[k])
  {
    var b := Frame(cfg, plots);
    var xs := goodStep(IDEAL_X_STEPS, b.minx, b.maxx);
    var bg := [BackgroundRect(cfg)];
    match useOffset(xs.start, LastTick(xs), xs.step)
    case Error =>
      assert Document(cfg, plots, names, goodStep, useOffset).elems == bg;
    case Ok(xoff) =>
      AxisElemsOnly(cfg, b, X, xs, xoff);
      assert Document(cfg, plots, names, goodStep, useOffset).elems == bg + AxisElems(cfg, b, X, xs, xoff);
  }
}
