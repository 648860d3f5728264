# poloto / splot layout engine in Dafny

This project models the core of the `poloto` SVG plotting library and of its predecessor, the `splot` binary:

- how the bounding box of all points is found;
- how a degenerate axis range is repaired;
- how data coordinates are mapped onto the canvas;
- how the "nice" tick step is chosen;
- how tick marks, legend entries and the four plot shapes (line, scatter, histogram, filled line) are emitted, and in which order;
- the byte-counting writer that decides whether a plot has a name;
- the builders that collect plots, and the filter that drops non-finite points.

Modules, one per source file or concern:

- `Points` (`points.dfy`): shared value types.
  - A coordinate is `Float = Num(real) | NaN | Inf(sign)`, which gives "finite" a concrete meaning.
  - Also: points, `fmt::Result` as `Fmt`, and the UTF-8 byte length of a string.
- `Splot` (`splot.dfy`): `src/main.rs`.
  - `find_bounds` as a loop proved against a fold.
  - `find_good_step` as functions.
  - The cloneable, take-once `Wrapper` and the `Splot` builder as classes.
- `Poloto` (`poloto.dfy`): `src/lib.rs`.
  - The finiteness filter.
  - The take-once `Wrapper`.
  - `PlotType` and the `Plotter` builder.
- `Layout` (`layout.dfy`): the pure half of `render` in `src/render.rs`.
  - Range repair, scales and the point map.
  - What each tick, legend entry and shape looks like.
  - `Document`: the full list of elements `render` writes after the header, and its result. It is the specification of the imperative half.
- `Render` (`render.dfy`): the imperative half of `src/render.rs`.
  - `WriteCounter` over an inner writer.
  - An `Svg` sink class holding `seq<Elem>`, whose methods run the tick loops, the per-plot loop and the shape loops.
  - The `histogram` loop keeps the previous point in `last`.
  - `Svg.Render` is proved to append exactly `Document(...).elems` and to return `Document(...).result`.

`render` is given these things from outside:

- a `Config`:
  - canvas width and height, with `width > 300` and `height > 200` (twice the two paddings);
  - palette size `NUM_COLORS > 0`;
  - the repair threshold `EPSILON`, in `(0, 1]`;
- the plots, as name, kind and finite points;
- the three names;
- two functions standing for the `util` module: the step finder `goodStep` and the offset decision `useOffset`. Only `useOffset` can fail.

`Frame` is the repaired bounding box of all points that `render` draws in.

## Model

| member | source | states |
|---|---|---|
| Points.Utf8Len | src/render.rs:19 | `s.len()` counts 1 to 4 bytes per character, and is zero exactly for the empty string |
| Points.Utf8LenConcat | src/render.rs:17-21 | the byte length of `a + b` is the sum of the byte lengths, so successive counts add up |
| Splot.WidenTight | src/main.rs:242-253 | one fold step keeps the box enclosing all points seen so far, with every side touching one of them |
| Splot.FoldTight | src/main.rs:240-255 | after seeding with the first point and folding in the next ones, the box is tight around that prefix |
| Splot.BoundsOfTight | src/main.rs:238-259 | `find_bounds` returns `None` exactly for an empty stream; otherwise every point lies inside the box and each bound is a coordinate of some point |
| Splot.BoundsOfUnique | src/main.rs:241-255 | any box that encloses the points and touches them on all four sides is the one `find_bounds` returns |
| Splot.FindBounds | src/main.rs:238-259 | the loop over the four slots yields the fold's box; `None` iff the stream is empty; the box encloses every point and each bound is attained |
| Splot.FirstGreater | src/main.rs:203 | `find` yields the first element strictly greater than the value, and nothing exactly when no element is greater |
| Splot.ChooseGood | src/main.rs:202-203 | for a normalised step below 10 the search cannot fail; the choice is the first of 1, 2, 5, 10 strictly above it |
| Splot.ScaledStep | src/main.rs:207 | the step is positive, and step times step power is the chosen good step |
| Splot.FindGoodStep | src/main.rs:192-217 | for any positive step power that brings the rough step into `[1, 10)`, the result keeps that step power; its step is positive and equals the chosen good step divided by it |
| Splot.GoodStepIsFirstAbove | src/main.rs:199-207 | scaled by the step power, the returned step is the first of 1, 2, 5, 10 strictly above the normalised rough step |
| Splot.FRemZero | src/main.rs:210 | for a non-negative range and positive step, `range % step == 0` exactly when `range / step` is whole |
| Splot.StepsToCoverCeil | src/main.rs:210-214 | for a positive range the step count is `ceil(range / step)`, at least 1; that many steps reach the range, and one step fewer falls short of it |
| Splot.ScaledStepAbove | src/main.rs:197-207 | the good step is strictly larger than the rough step |
| Splot.GoodStepAboveRough | src/main.rs:196-207 | `find_good_step`'s step is strictly larger than `range / (num_steps - 1)` |
| Splot.GoodStepCovers | src/main.rs:196-216 | for a positive range the tick count is `ceil(range / step) + 1` and lies between 2 and `num_steps` |
| Splot.Wrapper.constructor | src/main.rs:66 | a new wrapper holds the caller's iterator |
| Splot.Wrapper.RefIter | src/main.rs:11-13 | `ref_iter` yields a copy of the held points and leaves the wrapper unchanged; it panics once they were taken |
| Splot.Wrapper.IntoIter | src/main.rs:16-18 | `into_iter` yields the held points unfiltered and leaves nothing behind |
| Splot.Splot.constructor | src/main.rs:59-61 | `new` stores the three names and starts with no plots |
| Splot.Splot.Lines | src/main.rs:64-67 | `lines` appends exactly one plot at the end, with the given name and a fresh wrapper around the points; earlier plots and the names are unchanged |
| Poloto.FiniteOnly | src/lib.rs:71 | the filter never lengthens its input and keeps only points with no NaN or infinite coordinate |
| Poloto.Values | src/lib.rs:65-72 | finite points become plain coordinates one for one, keeping their values |
| Poloto.FiniteOnlySubsequence | src/lib.rs:65-73 | the filtered points are an order-preserving subsequence of the input |
| Poloto.FiniteOnlyCounts | src/lib.rs:71 | each finite point is kept exactly as often as it occurs, and no other point is kept |
| Poloto.FiniteOnlyConcat | src/lib.rs:71 | filtering a concatenation concatenates the filtered parts |
| Poloto.FiniteOnlyKeepsFinite | src/lib.rs:71 | input with only finite points passes unchanged |
| Poloto.FiniteOnlyIdempotent | src/lib.rs:71 | filtering twice is filtering once |
| Poloto.Wrapper.constructor | src/lib.rs:155 | a new wrapper holds the caller's points |
| Poloto.Wrapper.IntoIter | src/lib.rs:65-73 | `into_iter` takes the points, leaving `None`, so a second call panics; it yields exactly the finite points, in order |
| Poloto.Plotter.constructor | src/lib.rs:128-136 | `Plotter::new` stores title, x name and y name, and starts with no plots |
| Poloto.Plotter.Line | src/lib.rs:151-157 | appends one `Line` plot with the given name and a fresh wrapper around the points; earlier plots and the names are unchanged |
| Poloto.Plotter.LineFill | src/lib.rs:172-182 | appends one `LineFill` plot, otherwise as `line` |
| Poloto.Plotter.Scatter | src/lib.rs:197-207 | appends one `Scatter` plot, otherwise as `line` |
| Poloto.Plotter.Histogram | src/lib.rs:223-233 | appends one `Histo` plot, otherwise as `line` |
| Layout.PlotDataOf | src/lib.rs:65-73 | the plot `render` draws keeps the builder's name and kind, and its points are exactly the finite points the wrapper yields, in order, with their values |
| Layout.PlotDataOfFinite | src/lib.rs:71 | when all of the caller's points are finite, the plot is drawn from exactly those points, one for one |
| Layout.RepairAxis | src/render.rs:62-73 | an axis at least `EPSILON` wide is kept; a narrower one becomes `[min - 1, min + 1]` |
| Layout.RepairAxisPositive | src/render.rs:62-76 | after the repair every axis has a positive length, so the scale division is defined |
| Layout.RepairAxisIdempotent | src/render.rs:62-73 | with a threshold of at most 2, the width of a repaired axis, repairing a repaired axis changes nothing |
| Layout.RepairWidens | src/render.rs:62-73 | the repaired box contains the box found |
| Layout.RepairProper | src/render.rs:51-76 | a non-empty point set has a box, and both its axes are positive after the repair |
| Layout.Frame | src/render.rs:51-76 | the box `render` draws in has positive width and height |
| Layout.ScaleX | src/render.rs:75 | the x scale is positive |
| Layout.ScaleY | src/render.rs:76 | the y scale is positive |
| Layout.ScaleSpan | src/render.rs:75-76 | `(maxx - minx) * scalex` is `width - 2 * padding` and `(maxy - miny) * scaley` is `height - 2 * paddingy`: each scale stretches the repaired data span over exactly the plot area |
| Layout.MapNearX | src/render.rs:257 | `minx` is drawn at `padding` |
| Layout.MapNearY | src/render.rs:258 | `miny` is drawn at `height - paddingy` |
| Layout.MapFarX | src/render.rs:257 | `maxx` is drawn at `width - padding` |
| Layout.MapFarY | src/render.rs:258 | `maxy` is drawn at `paddingy` |
| Layout.MapCorners | src/render.rs:255-260 | the four sides of the box land on the four edges of the plot area |
| Layout.MapMonotone | src/render.rs:255-260 | the map is strictly increasing in x and strictly decreasing in y |
| Layout.MapInside | src/render.rs:255-260 | a point of the box is drawn inside the plot area |
| Layout.InAllPoints | src/render.rs:52 | every point of every plot is among the points the bounds are taken over |
| Layout.PointDrawnInside | src/render.rs:51-260 | every point of every plot is drawn inside the plot area |
| Layout.TickLabel | src/render.rs:116-146 | with the offset form, tick `a` is labelled `j+`/`k+` and `a * step`; without it, no prefix and `start + a * step` |
| Layout.TickOnMap | src/render.rs:123-125 | tick `a` is drawn where the map sends the data value `start + a * step` |
| Layout.TicksShape | src/render.rs:122-149 | `n` loop turns emit exactly `2n` elements: a mark then a label for each tick, in order |
| Layout.AxisElemsShape | src/render.rs:97-149 | an axis gets exactly `num` tick pairs, preceded by exactly one "Where j/k =" note when the offset form is used, and by nothing otherwise |
| Layout.AxisElemsOnly | src/render.rs:95-208 | an axis writes only tick marks, tick labels and offset notes |
| Layout.ColorIndex | src/render.rs:221 | the colour index is below `NUM_COLORS` |
| Layout.ColorCycle | src/render.rs:221 | colours repeat with period `NUM_COLORS`, and the first `NUM_COLORS` plots take their own index |
| Layout.NameExists | src/render.rs:243-245 | a name exists exactly when it is non-empty |
| Layout.HistoBarsShape | src/render.rs:326-340 | `n` points give `max(n - 1, 0)` bars; bar `k` starts at mapped point `k`, has width `max(0.02 * padding, (x_{k+1} - x_k) - 0.02 * padding)` over the mapped x of points `k` and `k + 1`, and reaches down to the x axis |
| Layout.HistoBarWidth | src/render.rs:332-336 | the width of bar `k` is the gap from mapped point `k` to mapped point `k + 1`, less `0.02 * padding`, but at least `0.02 * padding` |
| Layout.CirclesShape | src/render.rs:301-306 | scatter draws one circle of radius `padding / 30` per point, at the mapped point |
| Layout.FillCmdsShape | src/render.rs:361-368 | the filled path is `M` on the baseline, one `L` per mapped point in order, `L` back to the baseline, then `Z`: `n + 3` commands |
| Layout.PlotElemsShape | src/render.rs:223-371 | a plot writes its legend text first, then a swatch exactly when its name is non-empty, then its shape |
| Layout.ShapeNoLegend | src/render.rs:262-371 | a shape holds no legend text |
| Layout.SwatchShapeNoLegend | src/render.rs:262-371 | after its legend text, a plot writes no further legend text |
| Layout.PlotElemsLegend | src/render.rs:223-251 | the only legend text a plot writes is its own |
| Layout.LegendsUpTo | src/render.rs:228-235 | legend text `i` names plot `i` and sits at `paddingy + i * spacing` |
| Layout.PlotsLegends | src/render.rs:211-251 | the per-plot loop writes one legend text per plot, in plot order, each at its own index's height whatever the other names are |
| Layout.AxesNoLegend | src/render.rs:41-208 | the background and both axes hold no legend text |
| Layout.LabelsNoLegend | src/render.rs:375-431 | the title, the axis names and the axis lines hold no legend text |
| Layout.PlotsBetween | src/render.rs:211-431 | between elements without legend texts, the plots' legend texts are all there is |
| Layout.DocumentEmpty | src/render.rs:41-57 | `render` writes only the background rectangle and succeeds exactly when no plot has a point |
| Layout.DocumentOk | src/render.rs:26-434 | a successful render of some points starts with the background, ends with the axis lines, and holds one legend text per plot, in plot order |
| Layout.DocumentError | src/render.rs:97-177 | when an offset decision fails, only the background and tick marks, tick labels and offset notes were written |
| Render.TextSink.WriteStr | src/render.rs:18 | the inner writer either appends the string and succeeds, or fails and keeps its text |
| Render.WriteCounter.constructor | src/render.rs:9-11 | a new counter wraps the writer and starts at 0 |
| Render.WriteCounter.GetCounter | src/render.rs:12-14 | the count is zero exactly when nothing was written, and lies between the characters written and four times that |
| Render.WriteCounter.WriteStr | src/render.rs:17-21 | `write_str` grows the count by exactly `s.len()` even when the inner write fails, and returns the inner result unchanged |
| Render.WriteName | src/render.rs:227-245 | writing the name through a fresh counter finds it exists exactly when it is non-empty |
| Render.Svg.EmitTicks | src/render.rs:122-149 | the tick loop appends exactly the mark/label pairs of `Ticks` |
| Render.Svg.EmitAxis | src/render.rs:95-150 | returns the offset decision; on an error it writes nothing, otherwise the optional note and the ticks |
| Render.Svg.EmitLine | src/render.rs:276-286 | the point loop builds a polyline through exactly the mapped points, in order |
| Render.Svg.EmitScatter | src/render.rs:298-308 | a group with exactly one circle per mapped point |
| Render.Svg.EmitHisto | src/render.rs:323-343 | the loop with `last` writes one bar per point after the first, each spanning from the previous point |
| Render.Svg.EmitLineFill | src/render.rs:357-370 | the path-command loop builds exactly the filled path |
| Render.Svg.EmitShape | src/render.rs:262-372 | dispatches on the plot kind to the matching shape |
| Render.Svg.EmitPlot | src/render.rs:223-372 | one turn of the plot loop: legend text, swatch exactly when the counted name is non-empty, then the shape |
| Render.Svg.EmitPlots | src/render.rs:211-373 | the plot loop appends every plot's elements, plot `i` with index `i` |
| Render.Svg.EmitLabels | src/render.rs:375-431 | title, x name, y name, then the axis lines |
| Render.Svg.Render | src/render.rs:26-434 | `render` after the header appends exactly `Document`'s elements and returns its result, stopping at the first failing offset decision |

## Left out

- Rounding and overflow: `f32` and `f64` rounding, and the exact value `f64::MIN_POSITIVE * 10` of `EPSILON`, are not modelled. Coordinates are exact reals, and `EPSILON` is a parameter in `(0, 1]`.
- Splot.FindGoodStep: the source derives the step power as `10^(-floor(log10 |rough|))`. The model takes the step power as an input instead, because `log10` and `powf` are not modelled.
  - Any positive step power with `1 <= |rough * step_power| < 10` is accepted, whether or not it is a power of ten. For example, with a rough step of 0.3, a step power of 5 gives a step of 0.4, where the source's power of 10 gives 0.5.
  - So the model proves `step * step_power` is one of 1, 2, 5 and 10. It does not prove that the step has the form `m * 10^k`.
  - The middle result is this step power itself, not its `log10`.
  - A zero range makes the source compute NaN and then panic on `unwrap`; this case is excluded by that requirement.
- The `util` module is not part of this model: `find_good_step`, `determine_if_should_use_strat` and `interval_float` are in it. The first two are function parameters of `Document` and `Svg.Render`. Tick values are kept as numbers rather than formatted text.
- Writer failures: `render` passes element and attribute write errors on through `?`, and these are not modelled. The sink never fails. Only the offset decision's error, which aborts `render` with nothing written after it, is modelled.
- The header and CSS writer (`names.write_header`), the `tagger` element writers, SVG attribute text, font sizes and the y-name rotation are not modelled. Elements are abstract `Elem` values.
- The plot interface of `src/render.rs` (`iter_first`, `iter_second`, `write_name`) comes from another version of the library than `src/lib.rs`. Plots therefore enter `render` as name, kind and already filtered points.
  - Both passes over a plot see the same points.
  - `Layout.PlotDataOf` builds that form from a name, a kind and the caller's points through the `src/lib.rs:71` filter. Taking the points out of a `Poloto.Plot`'s wrapper through the trait object is not modelled.
- `WIDTH`, `HEIGHT` and `NUM_COLORS` are not part of the shown sources, so they are `Config` parameters.
  - The library documentation says colours repeat after 6 plots, while `src/main.rs:49` sizes a palette of 10. The palette size therefore stays a parameter.
- Render.WriteCounter.WriteStr: the counter is an unbounded natural, so the `usize` overflow of `counter += s.len()` is not modelled.
- Layout.DocumentOk: the legend order is stated, but the relative order of the title and axis-name texts is not; it follows from `Document` itself.
- Element order: the axis lines are written last, after the titles, as `src/render.rs:421-431` does.
- Not modelled: `Splot::render` with its document building and file saving, `main`, `Plotter::render` and `render_with_elements` (thin wrappers whose call signature does not match `render`), and the examples.
