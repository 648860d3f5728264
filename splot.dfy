/**
 * The earlier `splot` entry file (src/main.rs): bounds discovery, the
 * "nice step" tick calculation, the take-once point wrapper and the `Splot`
 * builder.
 */
module Splot {
  import opened Points
  import opened Arith

  /** The `[minx, maxx, miny, maxy]` array that `find_bounds` fills. */
  datatype Bounds = Bounds(minx: real, maxx: real, miny: real, maxy: real)

  /** The array the first point seeds: `[x, x, y, y]`. */
  function Seed(p: Point): Bounds {
    Bounds(p.x, p.x, p.y, p.y)
  }

  /**
   * One step of the fold: each axis either lowers its minimum or, failing
   * that, raises its maximum.
   */
  function Widen(b: Bounds, p: Point): Bounds {
    var (minx, maxx) :=
      if p.x < b.minx then (p.x, b.maxx)
      else if p.x > b.maxx then (b.minx, p.x)
      else (b.minx, b.maxx);
    var (miny, maxy) :=
      if p.y < b.miny then (p.y, b.maxy)
      else if p.y > b.maxy then (b.miny, p.y)
      else (b.miny, b.maxy);
    Bounds(minx, maxx, miny, maxy)
  }

  /** The fold over the points after the first, in order. */
  function Fold(b: Bounds, s: seq<Point>): Bounds
    decreases |s|
  {
    if s == [] then b else Widen(Fold(b, s[..|s| - 1]), s[|s| - 1])
  }

  /** What `find_bounds` returns for a point stream. */
  function BoundsOf(pts: seq<Point>): Option<Bounds> {
    if pts == [] then None else Some(Fold(Seed(pts[0]), pts[1..]))
  }

  /** Every point lies inside the box. */
  ghost predicate Encloses(b: Bounds, pts: seq<Point>) {
    forall q :: q in pts ==> b.minx <= q.x <= b.maxx && b.miny <= q.y <= b.maxy
  }

  /** Each of the four bounds is a coordinate of some point. */
  ghost predicate Attained(b: Bounds, pts: seq<Point>) {
    && (exists q :: q in pts && q.x == b.minx)
    && (exists q :: q in pts && q.x == b.maxx)
    && (exists q :: q in pts && q.y == b.miny)
    && (exists q :: q in pts && q.y == b.maxy)
  }

  ghost predicate Tight(b: Bounds, pts: seq<Point>) {
    Encloses(b, pts) && Attained(b, pts)
  }

  lemma WidenTight(b: Bounds, s: seq<Point>, p: Point)
    requires Tight(b, s)
    ensures Tight(Widen(b, p), s + [p])
  {
    var s' := s + [p];
    assert p in s';
    forall q | q in s ensures q in s' { }
  }

  lemma {:induction false} FoldTight(pts: seq<Point>, k: nat)
    requires 1 <= k <= |pts|
    ensures Tight(Fold(Seed(pts[0]), pts[1..k]), pts[..k])
  {
    if k == 1 {
      assert pts[1..k] == [];
      assert pts[..k] == [pts[0]];
    } else {
      FoldTight(pts, k - 1);
      var s := pts[1..k];
      assert s[..|s| - 1] == pts[1..k - 1];
      assert s[|s| - 1] == pts[k - 1];
      assert pts[..k] == pts[..k - 1] + [pts[k - 1]];
      WidenTight(Fold(Seed(pts[0]), pts[1..k - 1]), pts[..k - 1], pts[k - 1]);
    }
  }

  /**
   * `find_bounds` yields nothing exactly for an empty stream, and otherwise
   * the smallest box around the points, each side touching a point.
   */
  lemma BoundsOfTight(pts: seq<Point>)
    ensures BoundsOf(pts).None? <==> pts == []
    ensures BoundsOf(pts).Some? ==> Tight(BoundsOf(pts).value, pts)
  {
    if pts != [] {
      FoldTight(pts, |pts|);
      assert pts[1..|pts|] == pts[1..];
      assert pts[..|pts|] == pts;
    }
  }

  /** The tight box is unique: any box enclosing the points and touching them is the one found. */
  lemma BoundsOfUnique(pts: seq<Point>, b: Bounds)
    requires Tight(b, pts)
    ensures BoundsOf(pts) == Some(b)
  {
    var q :| q in pts && q.x == b.minx;
    BoundsOfTight(pts);
    var r := BoundsOf(pts).value;
    var q1 :| q1 in pts && q1.x == r.minx;
    var q2 :| q2 in pts && q2.x == b.maxx;
    var q3 :| q3 in pts && q3.x == r.maxx;
    var q4 :| q4 in pts && q4.y == b.miny;
    var q5 :| q5 in pts && q5.y == r.miny;
    var q6 :| q6 in pts && q6.y == b.maxy;
    var q7 :| q7 in pts && q7.y == r.maxy;
  }

  /** `find_bounds` (main.rs:238-259): the fold keeps the four bounds in local slots. */
  method FindBounds(pts: seq<Point>) returns (r: Option<Bounds>)
    ensures r == BoundsOf(pts)
    ensures r.None? <==> pts == []
    ensures r.Some? ==> Encloses(r.value, pts) && Attained(r.value, pts)
  {
    if pts == [] {
      return None;
    }
    var minx, maxx, miny, maxy := pts[0].x, pts[0].x, pts[0].y, pts[0].y;
    var k := 1;
    while k < |pts|
      invariant 1 <= k <= |pts|
      invariant Bounds(minx, maxx, miny, maxy) == Fold(Seed(pts[0]), pts[1..k])
    {
      var p := pts[k];
      if p.x < minx {
        minx := p.x;
      } else if p.x > maxx {
        maxx := p.x;
      }
      if p.y < miny {
        miny := p.y;
      } else if p.y > maxy {
        maxy := p.y;
      }
      assert pts[1..k + 1][..k - 1] == pts[1..k];
      k := k + 1;
    }
    assert pts[1..k] == pts[1..];
    r := Some(Bounds(minx, maxx, miny, maxy));
    BoundsOfTight(pts);
  }

  // ---------------------------------------------------------------------------
  // The "nice step" calculation.

  /** The candidate normalised steps, in the order they are tried. */
  const GOOD_STEPS: seq<real> := [1.0, 2.0, 5.0, 10.0]

  /** `iter().find(|a| **a > v)`: the first element strictly greater than `v`. */
  function FirstGreater(s: seq<real>, v: real): (r: Option<real>)
    ensures r.None? <==> forall j :: 0 <= j < |s| ==> s[j] <= v
    ensures r.Some? ==>
      exists i :: 0 <= i < |s| && s[i] == r.value && v < r.value && forall j :: 0 <= j < i ==> s[j] <= v
  {
    if s == [] then None
    else if s[0] > v then Some(s[0])
    else
      var r := FirstGreater(s[1..], v);
      assert forall j :: 1 <= j < |s| ==> s[j] == s[1..][j - 1];
      r
  }

  /**
   * main.rs:198 derives `step_power` as `10^(-floor(log10|rough|))`. The model
   * takes the step power itself as an input and asks only that it bring the
   * rough step into [1, 10). Any positive factor doing so is accepted, powers
   * of ten or not, so the step is `good / stepPower` for that factor.
   */
  predicate Normalizes(rough: real, stepPower: real) {
    1.0 <= Abs(rough * stepPower) < 10.0
  }

  /** Rounding toward zero, as a float-to-integer step of the source. */
  function Trunc(q: real): int {
    if q >= 0.0 then q.Floor else -((-q).Floor)
  }

  /** `q as usize`: truncation, saturating at zero for negative values. */
  function AsUsize(q: real): nat {
    if q < 0.0 then 0 else q.Floor
  }

  /** Float `%`: the remainder of truncated division, with the sign of `a`. */
  function FRem(a: real, b: real): real
    requires b != 0.0
  {
    a - b * Trunc(a / b) as real
  }

  function Ceil(q: real): int {
    -((-q).Floor)
  }

  /** `(tick count, step power, step)` as `find_good_step` returns it. */
  datatype GoodStep = GoodStep(count: nat, stepPower: real, step: real)

  /**
   * `good` is the first of `GOOD_STEPS` strictly greater than the normalised
   * rough step `norm`.
   */
  predicate FirstGoodAbove(norm: real, good: real) {
    exists i :: 0 <= i < |GOOD_STEPS| && GOOD_STEPS[i] == good && norm < good
      && forall j :: 0 <= j < i ==> GOOD_STEPS[j] <= norm
  }

  /** main.rs:203-206: the search that cannot fail, as the last candidate is 10. */
  function ChooseGood(norm: real): (good: real)
    requires norm < 10.0
    ensures norm < good && FirstGoodAbove(norm, good)
  {
    assert GOOD_STEPS[3] == 10.0;
    FirstGreater(GOOD_STEPS, norm).value
  }

  /** main.rs:195: the rough step, the range split into `numSteps - 1` intervals. */
  function RoughStep(numSteps: nat, range: real): real
    requires numSteps >= 2
  {
    range / (numSteps - 1) as real
  }

  /** main.rs:197-208: the good normalised step scaled back by the step power. */
  function ScaledStep(rough: real, stepPower: real): (step: real)
    requires stepPower > 0.0 && Normalizes(rough, stepPower)
    ensures step > 0.0 && step * stepPower == ChooseGood(rough * stepPower)
  {
    var good := ChooseGood(rough * stepPower);
    DivMul(good, stepPower);
    DivPos(good, stepPower);
    good / stepPower
  }

  /**
   * `find_good_step` (main.rs:192-217), given the step power the source
   * derives with `log10` and `powf`.
   */
  function FindGoodStep(numSteps: nat, range: real, stepPower: real): (r: GoodStep)
    requires numSteps >= 2 && stepPower > 0.0
    requires Normalizes(RoughStep(numSteps, range), stepPower)
    ensures r.stepPower == stepPower && r.step > 0.0
    ensures r.step * stepPower == ChooseGood(RoughStep(numSteps, range) * stepPower)
  {
    var step := ScaledStep(RoughStep(numSteps, range), stepPower);
    GoodStep(StepsToCover(range, step) + 1, stepPower, step)
  }

  /**
   * Scaled back by the step power, the chosen step is the first good step
   * above the normalised rough step.
   */
  lemma GoodStepIsFirstAbove(numSteps: nat, range: real, stepPower: real)
    requires numSteps >= 2 && stepPower > 0.0
    requires Normalizes(RoughStep(numSteps, range), stepPower)
    ensures FirstGoodAbove(RoughStep(numSteps, range) * stepPower, FindGoodStep(numSteps, range, stepPower).step * stepPower)
  {
  }

  /** main.rs:210-214: whole steps in the range, plus one for a remainder. */
  function StepsToCover(range: real, step: real): nat
    requires step != 0.0
  {
    var q := range / step;
    if FRem(range, step) != 0.0 then AsUsize(q) + 1 else AsUsize(q)
  }

  /** If `a / b` is below `c`, then `a / c` is below `b`. */
  lemma DivSwapLess(a: real, b: real, c: real)
    requires b > 0.0 && c > 0.0 && a / b < c
    ensures a / c < b
  {
    DivMul(a, b);
    MulLess(a / b, c, b);
    DivMul(a, c);
    if a / c >= b {
      MulLe(b, a / c, c);
      assert false;
    }
  }

  /** The ceiling lies in `[q, q + 1)`. */
  lemma CeilBounds(q: real)
    ensures q <= Ceil(q) as real < q + 1.0
  {}

  /** For a non-negative quotient, the remainder vanishes exactly when the quotient is whole. */
  lemma FRemZero(a: real, b: real)
    requires b > 0.0 && a >= 0.0
    ensures FRem(a, b) == 0.0 <==> (a / b).Floor as real == a / b
  {
    var q := a / b;
    assert a == b * q;
    assert FRem(a, b) == b * (q - q.Floor as real);
  }

  /** For a positive range, the steps needed are `ceil(range / step)`: enough, and not one too many. */
  lemma {:induction false} StepsToCoverCeil(range: real, step: real)
    requires range > 0.0 && step > 0.0
    ensures StepsToCover(range, step) == Ceil(range / step) >= 1
    ensures StepsToCover(range, step) as real * step >= range
    ensures StepsToCover(range, step) as real * step < range + step
  {
    FRemZero(range, step);
    CeilBounds(range / step);
    assert StepsToCover(range, step) == Ceil(range / step);
    DivMul(range, step);
    MulLe(range / step, StepsToCover(range, step) as real, step);
    MulLess(StepsToCover(range, step) as real, range / step + 1.0, step);
    assert (range / step + 1.0) * step == (range / step) * step + step;
  }

  lemma ScaledStepAbove(rough: real, stepPower: real)
    requires stepPower > 0.0 && Normalizes(rough, stepPower)
    ensures ScaledStep(rough, stepPower) > rough
  {
    if ScaledStep(rough, stepPower) <= rough {
      MulLe(ScaledStep(rough, stepPower), rough, stepPower);
      assert false;
    }
  }

  /** The chosen step is strictly coarser than the rough step. */
  lemma GoodStepAboveRough(numSteps: nat, range: real, stepPower: real)
    requires numSteps >= 2 && stepPower > 0.0
    requires Normalizes(RoughStep(numSteps, range), stepPower)
    ensures FindGoodStep(numSteps, range, stepPower).step > RoughStep(numSteps, range)
  {
    ScaledStepAbove(RoughStep(numSteps, range), stepPower);
  }

  /**
   * For a positive range the tick count is `ceil(range / step) + 1`: the
   * ticks cover the range without a spare interval, and there are between 2
   * and `numSteps` of them.
   */
  lemma {:induction false} GoodStepCovers(numSteps: nat, range: real, stepPower: real)
    requires numSteps >= 2 && stepPower > 0.0 && range > 0.0
    requires Normalizes(RoughStep(numSteps, range), stepPower)
    ensures FindGoodStep(numSteps, range, stepPower).count == Ceil(range / FindGoodStep(numSteps, range, stepPower).step) + 1
    ensures FindGoodStep(numSteps, range, stepPower).count - 1 == StepsToCover(range, FindGoodStep(numSteps, range, stepPower).step)
    ensures 2 <= FindGoodStep(numSteps, range, stepPower).count <= numSteps
  {
    GoodStepAboveRough(numSteps, range, stepPower);
    StepsToCoverCeil(range, FindGoodStep(numSteps, range, stepPower).step);
    DivSwapLess(range, (numSteps - 1) as real, FindGoodStep(numSteps, range, stepPower).step);
    CeilBounds(range / FindGoodStep(numSteps, range, stepPower).step);
  }

  // ---------------------------------------------------------------------------
  // Point producers and the builder.

  /**
   * main.rs's `Wrapper`: holds a cloneable point iterator until it is taken.
   * Its points are not filtered.
   */
  class Wrapper {
    var source: Option<seq<RawPoint>>

    constructor (points: seq<RawPoint>)
      ensures source == Some(points)
    {
      source := Some(points);
    }

    /** `ref_iter`: a clone of the held iterator; panics once it was taken. */
    method RefIter() returns (pts: seq<RawPoint>)
      requires source.Some?
      ensures pts == source.value
    {
      pts := source.value;
    }

    /** `into_iter`: takes the held iterator, so any later call panics. */
    method IntoIter() returns (pts: seq<RawPoint>)
      requires source.Some?
      modifies this
      ensures source == None
      ensures pts == old(source.value)
    {
      pts := source.value;
      source := None;
    }
  }

  datatype Plot = Plot(name: string, plots: Wrapper)

  /** The `Splot` builder: three names and the plots in the order they were added. */
  class Splot {
    var title: string
    var xname: string
    var yname: string
    var plots: seq<Plot>

    constructor (title: string, xname: string, yname: string)
      ensures this.title == title && this.xname == xname && this.yname == yname
      ensures plots == []
    {
      this.title := title;
      this.xname := xname;
      this.yname := yname;
      plots := [];
    }

    /** `lines`: appends one plot, wrapping its points, at the end. */
    method Lines(name: string, points: seq<RawPoint>)
      modifies this
      ensures title == old(title) && xname == old(xname) && yname == old(yname)
      ensures |plots| == |old(plots)| + 1 && plots[..|old(plots)|] == old(plots)
      ensures plots[|old(plots)|].name == name
      ensures fresh(plots[|old(plots)|].plots) && plots[|old(plots)|].plots.source == Some(points)
    {
      var w := new Wrapper(points);
      plots := plots + [Plot(name, w)];
    }
  }
}
