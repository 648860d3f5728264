/**
 * The `poloto` library entry file (src/lib.rs): plot kinds, the take-once
 * wrapper that drops non-finite points, and the `Plotter` builder.
 */
module Poloto {
  import opened Points

  /** How a plot is drawn. */
  datatype PlotType = Scatter | Line | Histo | LineFill

  // ---------------------------------------------------------------------------
  // The finiteness filter.

  /** `filter(|[x, y]| !(x.is_nan() || ... ))`: the finite points, in order. */
  function FiniteOnly(s: seq<RawPoint>): (r: seq<RawPoint>)
    ensures |r| <= |s|
    ensures forall k :: 0 <= k < |r| ==> r[k].IsFinite()
  {
    if s == [] then []
    else if s[0].IsFinite() then [s[0]] + FiniteOnly(s[1..])
    else FiniteOnly(s[1..])
  }

  /** The finite points as plain coordinates. */
  function Values(s: seq<RawPoint>): (r: seq<Point>)
    requires forall k :: 0 <= k < |s| ==> s[k].IsFinite()
    ensures |r| == |s|
    ensures forall k :: 0 <= k < |s| ==> Num(r[k].x) == s[k].x && Num(r[k].y) == s[k].y
  {
    if s == [] then [] else [s[0].Value()] + Values(s[1..])
  }

  /** `idx` picks, in increasing order, positions of `s` holding the elements of `r`. */
  ghost predicate Embeds(r: seq<RawPoint>, s: seq<RawPoint>, idx: seq<nat>) {
    && |idx| == |r|
    && (forall k :: 0 <= k < |idx| ==> idx[k] < |s| && s[idx[k]] == r[k])
    && (forall k, l :: 0 <= k < l < |idx| ==> idx[k] < idx[l])
  }

  ghost predicate IsSubsequence(r: seq<RawPoint>, s: seq<RawPoint>) {
    exists idx :: Embeds(r, s, idx)
  }

  function Shift(idx: seq<nat>): (r: seq<nat>)
    ensures |r| == |idx|
    ensures forall k :: 0 <= k < |idx| ==> r[k] == idx[k] + 1
  {
    if idx == [] then [] else [idx[0] + 1] + Shift(idx[1..])
  }

  /** The filter keeps an order-preserving selection of its input. */
  lemma {:induction false} FiniteOnlySubsequence(s: seq<RawPoint>)
    ensures IsSubsequence(FiniteOnly(s), s)
  {
    if s == [] {
      assert Embeds([], [], []);
    } else {
      FiniteOnlySubsequence(s[1..]);
      var idx :| Embeds(FiniteOnly(s[1..]), s[1..], idx);
      if s[0].IsFinite() {
        assert Embeds(FiniteOnly(s), s, [0] + Shift(idx));
      } else {
        assert Embeds(FiniteOnly(s), s, Shift(idx));
      }
    }
  }

  /** Each finite point is kept as often as it occurs; no other point is kept. */
  lemma {:induction false} FiniteOnlyCounts(s: seq<RawPoint>, p: RawPoint)
    ensures multiset(FiniteOnly(s))[p] == if p.IsFinite() then multiset(s)[p] else 0
  {
    if s != [] {
      FiniteOnlyCounts(s[1..], p);
      assert s == [s[0]] + s[1..];
    }
  }

  /** Filtering distributes over concatenation. */
  lemma {:induction false} FiniteOnlyConcat(a: seq<RawPoint>, b: seq<RawPoint>)
    ensures FiniteOnly(a + b) == FiniteOnly(a) + FiniteOnly(b)
  {
    if a == [] {
      assert a + b == b;
    } else {
      assert (a + b)[0] == a[0];
      assert (a + b)[1..] == a[1..] + b;
      FiniteOnlyConcat(a[1..], b);
    }
  }

  /** A sequence of finite points passes the filter unchanged. */
  lemma {:induction false} FiniteOnlyKeepsFinite(s: seq<RawPoint>)
    requires forall k :: 0 <= k < |s| ==> s[k].IsFinite()
    ensures FiniteOnly(s) == s
  {
    if s != [] {
      FiniteOnlyKeepsFinite(s[1..]);
    }
  }

  /** The filter is idempotent. */
  lemma FiniteOnlyIdempotent(s: seq<RawPoint>)
    ensures FiniteOnly(FiniteOnly(s)) == FiniteOnly(s)
  {
    FiniteOnlyKeepsFinite(FiniteOnly(s));
  }

  // ---------------------------------------------------------------------------
  // The wrapper and the builder.

  /** lib.rs's `Wrapper`: the caller's points, held until they are taken once. */
  class Wrapper {
    var source: Option<seq<RawPoint>>

    constructor (points: seq<RawPoint>)
      ensures source == Some(points)
    {
      source := Some(points);
    }

    /** `into_iter`: takes the points, leaving nothing behind, and yields the finite ones. */
    method IntoIter() returns (pts: seq<RawPoint>)
      requires source.Some?
      modifies this
      ensures source == None
      ensures pts == FiniteOnly(old(source.value))
    {
      pts := FiniteOnly(source.value);
      source := None;
    }
  }

  datatype Plot = Plot(name: string, plotType: PlotType, plots: Wrapper)

  /** `Plotter`: three names and the plots in the order they were added. */
  class Plotter {
    var title: string
    var xname: string
    var yname: string
    var plots: seq<Plot>

    /** `Plotter::new`. */
    constructor (title: string, xname: string, yname: string)
      ensures this.title == title && this.xname == xname && this.yname == yname
      ensures plots == []
    {
      this.title := title;
      this.xname := xname;
      this.yname := yname;
      plots := [];
    }

    /** `line`. */
    method Line(name: string, points: seq<RawPoint>)
      modifies this
      ensures title == old(title) && xname == old(xname) && yname == old(yname)
      ensures |plots| == |old(plots)| + 1 && plots[..|old(plots)|] == old(plots)
      ensures plots[|old(plots)|].name == name && plots[|old(plots)|].plotType == PlotType.Line
      ensures fresh(plots[|old(plots)|].plots) && plots[|old(plots)|].plots.source == Some(points)
    {
      var w := new Wrapper(points);
      plots := plots + [Plot(name, PlotType.Line, w)];
    }

    /** `line_fill`. */
    method LineFill(name: string, points: seq<RawPoint>)
      modifies this
      ensures title == old(title) && xname == old(xname) && yname == old(yname)
      ensures |plots| == |old(plots)| + 1 && plots[..|old(plots)|] == old(plots)
      ensures plots[|old(plots)|].name == name && plots[|old(plots)|].plotType == PlotType.LineFill
      ensures fresh(plots[|old(plots)|].plots) && plots[|old(plots)|].plots.source == Some(points)
    {
      var w := new Wrapper(points);
      plots := plots + [Plot(name, PlotType.LineFill, w)];
    }

    /** `scatter`. */
    method Scatter(name: string, points: seq<RawPoint>)
      modifies this
      ensures title == old(title) && xname == old(xname) && yname == old(yname)
      ensures |plots| == |old(plots)| + 1 && plots[..|old(plots)|] == old(plots)
      ensures plots[|old(plots)|].name == name && plots[|old(plots)|].plotType == PlotType.Scatter
      ensures fresh(plots[|old(plots)|].plots) && plots[|old(plots)|].plots.source == Some(points)
    {
      var w := new Wrapper(points);
      plots := plots + [Plot(name, PlotType.Scatter, w)];
    }

    /** `histogram`. */
    method Histogram(name: string, points: seq<RawPoint>)
      modifies this
      ensures title == old(title) && xname == old(xname) && yname == old(yname)
      ensures |plots| == |old(plots)| + 1 && plots[..|old(plots)|] == old(plots)
      ensures plots[|old(plots)|].name == name && plots[|old(plots)|].plotType == PlotType.Histo
      ensures fresh(plots[|old(plots)|].plots) && plots[|old(plots)|].plots.source == Some(points)
    {
      var w := new Wrapper(points);
      plots := plots + [Plot(name, PlotType.Histo, w)];
    }
  }
}
