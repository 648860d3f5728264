/**
 * The imperative half of `render` (src/render.rs): the byte-counting writer
 * wrapper, and an element sink that receives the document one element at a
 * time while the tick loops, the per-plot loop and the shape loops run.
 * Each emitting method is specified by the `Layout` function it produces.
 */
module Render {
  import opened Points
  import Splot
  import Poloto
  import opened Layout

  /** A text writer that either takes every string or refuses every string. */
  class TextSink {
    var text: string
    const broken: bool

    constructor (broken: bool)
      ensures text == [] && this.broken == broken
    {
      text := [];
      this.broken := broken;
    }

    /** `fmt::Write::write_str`. */
    method WriteStr(s: string) returns (r: Fmt<()>)
      modifies this
      ensures broken ==> r == Error && text == old(text)
      ensures !broken ==> r == Ok(()) && text == old(text) + s
    {
      if broken {
        r := Error;
      } else {
        text := text + s;
        r := Ok(());
      }
    }
  }

  /** render.rs:4-22: forwards every write to `inner` and counts the bytes it was asked to write. */
  class WriteCounter {
    const inner: TextSink
    var counter: nat
    /** Everything this counter was asked to write, whether `inner` took it or not. */
    ghost var requested: string

    ghost predicate Valid()
      reads this
    {
      counter == Utf8Len(requested)
    }

    /** `WriteCounter::new`. */
    constructor (inner: TextSink)
      ensures this.inner == inner && requested == [] && counter == 0 && Valid()
    {
      this.inner := inner;
      counter := 0;
      requested := [];
    }

    /** `get_counter`: zero exactly while nothing was asked to be written. */
    function GetCounter(): (n: nat)
      reads this
      requires Valid()
      ensures n == 0 <==> requested == []
      ensures |requested| <= n <= 4 * |requested|
    {
      counter
    }

    /** `write_str`: counts `s` even when the inner writer fails, and passes its result on. */
    method WriteStr(s: string) returns (r: Fmt<()>)
      requires Valid()
      modifies this, inner
      ensures Valid()
      ensures requested == old(requested) + s
      ensures counter == old(counter) + Utf8Len(s)
      ensures r == (if inner.broken then Error else Ok(()))
      ensures inner.text == if inner.broken then old(inner.text) else old(inner.text) + s
    {
      r := inner.WriteStr(s);
      counter := counter + Utf8Len(s);
      Utf8LenConcat(requested, s);
      requested := requested + s;
    }
  }

  /** render.rs:227-245: a name exists when writing it through a counter produced a byte. */
  method WriteName(name: string) returns (nameExists: bool)
    ensures nameExists == NameExists(name)
    ensures nameExists <==> name != []
  {
    var text := new TextSink(false);
    var c := new WriteCounter(text);
    var _ := c.WriteStr(name);
    nameExists := true;
    if c.GetCounter() == 0 {
      nameExists := false;
    }
  }

  /** The element sink `render` writes to, after the header. */
  class Svg {
    var elems: seq<Elem>

    constructor ()
      ensures elems == []
    {
      elems := [];
    }

    method Emit(e: Elem)
      modifies this
      ensures elems == old(elems) + [e]
    {
      elems := elems + [e];
    }

    /** render.rs:122-149 and 180-207: `for a in 0..num`, a mark and a label per tick. */
    method EmitTicks(cfg: Config, b: Splot.Bounds, axis: Axis, ts: TickSet, offset: bool)
      requires cfg.Valid() && Proper(b)
      modifies this
      ensures elems == old(elems) + Ticks(cfg, b, axis, ts, offset, ts.num)
    {
      for a := 0 to ts.num
        invariant elems == old(elems) + Ticks(cfg, b, axis, ts, offset, a)
      {
        var pos := TickPos(cfg, b, axis, ts, a);
        Emit(TickMark(cfg, axis, pos));
        Emit(TickText(cfg, axis, pos, TickLabel(axis, ts, offset, a)));
      }
    }

    /**
     * render.rs:97-149 and 154-207: ask whether to count from an offset; on
     * an error write nothing more, else the optional note and the ticks.
     */
    method EmitAxis(cfg: Config, b: Splot.Bounds, axis: Axis, ts: TickSet,
                    useOffset: (real, real, real) -> Fmt<bool>) returns (r: Fmt<bool>)
      requires cfg.Valid() && Proper(b)
      modifies this
      ensures r == useOffset(ts.start, LastTick(ts), ts.step)
      ensures r.Error? ==> elems == old(elems)
      ensures r.Ok? ==> elems == old(elems) + AxisElems(cfg, b, axis, ts, r.value)
    {
      r := useOffset(ts.start, LastTick(ts), ts.step);
      if r.Ok? {
        if r.value {
          Emit(OffsetNote(cfg, axis, ts));
        }
        EmitTicks(cfg, b, axis, ts, r.value);
      }
    }

    /** render.rs:276-286: a polyline through the mapped points, in order. */
    method EmitLine(cfg: Config, b: Splot.Bounds, color: nat, pts: seq<Point>)
      requires cfg.Valid() && Proper(b)
      modifies this
      ensures elems == old(elems) + Shape(cfg, Poloto.PlotType.Line, color, MapAll(cfg, b, pts))
    {
      var ps: seq<Point> := [];
      for k := 0 to |pts|
        invariant ps == MapAll(cfg, b, pts)[..k]
      {
        ps := ps + [MapPoint(cfg, b, pts[k])];
      }
      assert ps == MapAll(cfg, b, pts);
      Emit(Polyline(Stroke(color), ps));
    }

    /** render.rs:298-308: a group holding one circle per mapped point. */
    method EmitScatter(cfg: Config, b: Splot.Bounds, color: nat, pts: seq<Point>)
      requires cfg.Valid() && Proper(b)
      modifies this
      ensures elems == old(elems) + Shape(cfg, Poloto.PlotType.Scatter, color, MapAll(cfg, b, pts))
    {
      Emit(GroupStart(Fill(color)));
      ghost var start := elems;
      ghost var circles := Circles(MapAll(cfg, b, pts));
      for k := 0 to |pts|
        invariant elems == start + circles[..k]
      {
        var q := MapPoint(cfg, b, pts[k]);
        Emit(Circle(Unclassed, q.x, q.y, PADDING / 30.0));
        assert circles[..k + 1] == circles[..k] + [circles[k]];
      }
      Emit(GroupEnd);
    }

    /** render.rs:323-343: a group of bars, each drawn once the next point shows its width. */
    method EmitHisto(cfg: Config, b: Splot.Bounds, color: nat, pts: seq<Point>)
      requires cfg.Valid() && Proper(b)
      modifies this
      ensures elems == old(elems) + Shape(cfg, Poloto.PlotType.Histo, color, MapAll(cfg, b, pts))
    {
      Emit(GroupStart(Fill(color)));
      ghost var start := elems;
      ghost var mapped := MapAll(cfg, b, pts);
      ghost var bars := HistoBars(cfg, mapped);
      var last: Option<Point> := None;
      for k := 0 to |pts|
        invariant k == 0 ==> last == None
        invariant k > 0 ==> last == Some(mapped[k - 1])
        invariant elems == start + bars[..if k == 0 then 0 else k - 1]
      {
        var q := MapPoint(cfg, b, pts[k]);
        if last.Some? {
          Emit(HistoBar(cfg, last.value, q));
          assert bars[..k] == bars[..k - 1] + [bars[k - 1]];
        }
        last := Some(q);
      }
      assert bars[..if |pts| == 0 then 0 else |pts| - 1] == bars;
      Emit(GroupEnd);
    }

    /** render.rs:357-370: one closed path from the baseline, through the mapped points, back to the baseline. */
    method EmitLineFill(cfg: Config, b: Splot.Bounds, color: nat, pts: seq<Point>)
      requires cfg.Valid() && Proper(b)
      modifies this
      ensures elems == old(elems) + Shape(cfg, Poloto.PlotType.LineFill, color, MapAll(cfg, b, pts))
    {
      ghost var cmdsSpec := FillCmds(cfg, MapAll(cfg, b, pts));
      var cmds := [M(PADDING, cfg.height - PADDING_Y)];
      for k := 0 to |pts|
        invariant cmds == cmdsSpec[..k + 1]
      {
        var q := MapPoint(cfg, b, pts[k]);
        cmds := cmds + [L(q.x, q.y)];
        assert cmdsSpec[..k + 2] == cmdsSpec[..k + 1] + [cmdsSpec[k + 1]];
      }
      cmds := cmds + [L(cfg.width - PADDING, cfg.height - PADDING_Y)];
      cmds := cmds + [Z];
      assert cmds == cmdsSpec;
      Emit(Path(Fill(color), cmds));
    }

    /** render.rs:262-371: the shape of one plot, by kind. */
    method EmitShape(cfg: Config, b: Splot.Bounds, kind: Poloto.PlotType, color: nat, pts: seq<Point>)
      requires cfg.Valid() && Proper(b)
      modifies this
      ensures elems == old(elems) + Shape(cfg, kind, color, MapAll(cfg, b, pts))
    {
      match kind
      case Line => EmitLine(cfg, b, color, pts);
      case Scatter => EmitScatter(cfg, b, color, pts);
      case Histo => EmitHisto(cfg, b, color, pts);
      case LineFill => EmitLineFill(cfg, b, color, pts);
    }

    /** render.rs:223-371: one turn of the per-plot loop: legend text, swatch if named, shape. */
    method EmitPlot(cfg: Config, b: Splot.Bounds, i: nat, plot: PlotData)
      requires cfg.Valid() && Proper(b)
      modifies this
      ensures elems == old(elems) + PlotElems(cfg, b, i, plot)
    {
      var color := i % cfg.numColors;
      var head := [LegendText(cfg, i, plot.name)];
      Emit(LegendText(cfg, i, plot.name));
      var nameExists := WriteName(plot.name);
      var swatch := if nameExists then [Swatch(cfg, plot.plotType, color, i)] else [];
      if nameExists {
        Emit(Swatch(cfg, plot.plotType, color, i));
      }
      assert elems == old(elems) + head + swatch;
      EmitShape(cfg, b, plot.plotType, color, plot.points);
      ghost var shape := Shape(cfg, plot.plotType, color, MapAll(cfg, b, plot.points));
      AppendAssoc(old(elems) + head, swatch, shape);
      AppendAssoc(old(elems), head, swatch + shape);
      AppendAssoc(head, swatch, shape);
    }

    /** render.rs:211-373: the plots in the order they were added, plot `i` with index `i`. */
    method EmitPlots(cfg: Config, b: Splot.Bounds, plots: seq<PlotData>)
      requires cfg.Valid() && Proper(b)
      modifies this
      ensures elems == old(elems) + PlotsUpTo(cfg, b, plots, |plots|)
    {
      for i := 0 to |plots|
        invariant elems == old(elems) + PlotsUpTo(cfg, b, plots, i)
      {
        EmitPlot(cfg, b, i, plots[i]);
        AppendAssoc(old(elems), PlotsUpTo(cfg, b, plots, i), PlotElems(cfg, b, i, plots[i]));
      }
    }

    /** render.rs:375-431: title, axis names, then the axis lines. */
    method EmitLabels(cfg: Config, names: Names)
      modifies this
      ensures elems == old(elems) + Labels(cfg, names) + [AxisPath(cfg)]
    {
      var ls := Labels(cfg, names);
      Emit(ls[0]);
      Emit(ls[1]);
      Emit(ls[2]);
      Emit(AxisPath(cfg));
    }

    /**
     * `render` (render.rs:26-434) after the header: background, bounds,
     * repair, both axes, the plots, the labels and the axis lines, stopping
     * at the first failing offset decision.
     */
    method Render(cfg: Config, plots: seq<PlotData>, names: Names,
                  goodStep: (nat, real, real) -> TickSet,
                  useOffset: (real, real, real) -> Fmt<bool>) returns (r: Fmt<()>)
      requires cfg.Valid()
      modifies this
      ensures r == Document(cfg, plots, names, goodStep, useOffset).result
      ensures elems == old(elems) + Document(cfg, plots, names, goodStep, useOffset).elems
    {
      ghost var doc := Document(cfg, plots, names, goodStep, useOffset);
      var bg := [BackgroundRect(cfg)];
      Emit(BackgroundRect(cfg));
      var found := Splot.FindBounds(AllPoints(plots));
      if found.None? {
        assert doc == Output(Ok(()), bg);
        return Ok(());
      }
      var b := Repair(found.value, cfg.epsilon);
      assert b == Frame(cfg, plots);
      var xs := goodStep(IDEAL_X_STEPS, b.minx, b.maxx);
      var ys := goodStep(IDEAL_Y_STEPS, b.miny, b.maxy);
      var xoff := EmitAxis(cfg, b, X, xs, useOffset);
      if xoff.Error? {
        assert doc == Output(Error, bg);
        return Error;
      }
      var xe := AxisElems(cfg, b, X, xs, xoff.value);
      AppendAssoc(old(elems), bg, xe);
      var yoff := EmitAxis(cfg, b, Y, ys, useOffset);
      if yoff.Error? {
        assert doc == Output(Error, bg + xe);
        return Error;
      }
      var ye := AxisElems(cfg, b, Y, ys, yoff.value);
      AppendAssoc(old(elems), bg + xe, ye);
      var pe := PlotsUpTo(cfg, b, plots, |plots|);
      EmitPlots(cfg, b, plots);
      AppendAssoc(old(elems), bg + xe + ye, pe);
      EmitLabels(cfg, names);
      AppendAssoc(old(elems), bg + xe + ye + pe, Labels(cfg, names));
      AppendAssoc(old(elems), bg + xe + ye + pe + Labels(cfg, names), [AxisPath(cfg)]);
      assert doc == Output(Ok(()), bg + xe + ye + pe + Labels(cfg, names) + [AxisPath(cfg)]);
      r := Ok(());
    }
  }
}
