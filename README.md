# Funnel chart geometry, modelled in Dafny

This project models the geometry engine of a small SVG funnel chart. A funnel
is a sequence of steps. Each step is split into weighted segments, for example
hot and bad leads.

The engine works in three stages:

1. **Step layout.** Each step's segment totals become stacked, contiguous
   vertical bands `{top, bottom}` in [0, 1]. The column is inset by
   `padding = (1 - total / maxSize) / 2`, so a step smaller than the
   reference maximum sits centred.
2. **Connectors.** A connector is one cubic Bezier curve from one step's
   band boundary to the next step's. Its control points are pushed
   horizontally by `125 * ratio` output units, at 1000 output units per
   normalised unit.
3. **Outlines.** The `Funnel` object builds one closed outline per segment
   index. The top boundary is traced left to right with the positive
   ratio. The bottom boundary is traced right to left with the negated
   ratio.

Numbers are exact `real`s. A connector is a record of four points, not SVG
path text. An outline (`Path`) is a sequence of connectors. In the SVG text,
each connector is reached by a straight line from the previous connector's
end, and the first one by a move.

Modules:

- `Wrappers` (`wrappers.dfy`): `Option` and `Result`.
- `Layout` (`layout.dfy`):
  - `applyPaddingToPosition` as `ApplyPadding`;
  - the segment-total fold as `SumTotals`;
  - `calculateFunnelStepYPositions` as the method
    `CalculateFunnelStepYPositions`. Its loop threads the running share
    `acc` as the source's `map` does. It is proved equal to the
    specification function `StepYPositions`, and the layout properties are
    proved as lemmas about that function.
- `Curves` (`curves.dfy`): `createBeizerSVGPath` as `CreateBezierConnector`.
- `FunnelChart` (`funnel.dfy`):
  - the class `Funnel` with its fields `padX`/`padY`, `ratio`, `steps`,
    `maxFunnelTotal` and `positions`;
  - its methods `Dimensions`, `Data` and `DrawPaths`. `DrawPaths` fills an
    array of outlines in place. Its two loops are `AppendTopEdges` and
    `AppendBottomEdges`;
  - the specification of one outline (`SegmentPath`) and the lemmas about it.
- `Sample` (`sample.dfy`): the repository's sample funnel, with concrete
  layouts computed by the model.

Preconditions and error paths:

- **Division by zero.** In the source a layout that divides by zero gives
  NaN or Infinity. The model returns `Failure(DivisionByZero)` instead.
  This happens exactly when the step's total is zero and either the step
  has segments or `maxSize` is omitted or zero. An empty step against a
  non-zero maximum divides nothing by zero. The source then yields padding
  1/2 and no bands, and so does the model.
- **Segment counts.** For each step `x`, `drawPaths` loops over step `x`'s
  own segment count. It uses that index on the neighbouring step `x + 1` (or
  `x - 1`), and on the outlines, which are sized from step 0. `DrawPaths`
  therefore requires every step to have as many segments as the first
  (`Aligned`). It also requires that `Dimensions` has set the ratio.

Three facts about the code are worth stating:

- **Second sample step.** Its first band ends at 685/1390 ≈ 0.493, which the
  lemma `SecondSampleStepLayout` proves.
- **Zero-total step.** The code reports no error for it. A step with segments
  yields NaN bands. An empty step against a non-zero maximum is not a zero
  division; against an omitted or zero maximum its padding is `0 / 0`.
- **Mismatched segment counts.** The code has no check for them, but it does
  not go on silently either. When two neighbouring steps differ in segment
  count, `drawPaths` reads `.top` or `.bottom` of `undefined` (Funnel.js:79
  or :92) and throws a `TypeError`. For two or more steps, `Aligned` is
  therefore exactly the set of inputs on which `drawPaths` does not throw,
  and the model makes it a precondition.

## Model

| member | source | states |
|---|---|---|
| `Layout.ApplyPadding` | Funnel.js:8-10 | maps a position into the padded column: 0 goes to `padding` and 1 to `1 - padding` |
| `Layout.PaddingAffine` | Funnel.js:8-10 | the padding map preserves weighted averages, so it is affine |
| `Layout.PaddingDifference` | Funnel.js:8-10 | distances between positions are scaled by `1 - 2 * padding` |
| `Layout.PaddingSymmetric` | Funnel.js:8-10 | mirroring a position about one half mirrors its image, which is what centres the column |
| `Layout.PaddingMonotone` | Funnel.js:8-10 | with a padding of at most 1/2 the map is non-decreasing |
| `Layout.SumTotals` | Funnel.js:16 | the left fold of the segment totals; one segment totals its own total |
| `Layout.SumPrefixStep` | Funnel.js:16 | the left fold of totals grows by each next segment's total |
| `Layout.PrefixSumMonotone` | Funnel.js:16 | prefix sums of non-negative totals are non-negative and non-decreasing |
| `Layout.Reference` | Funnel.js:17 | `maxSize` or else `total`: an omitted maximum and a zero maximum both give the step's own total, a non-zero maximum gives itself, and a zero reference implies a zero total |
| `Layout.DividesByZero` | Funnel.js:17-21 | the source divides by zero exactly when the step totals zero and either has a segment or has no non-zero maximum |
| `Layout.StepYPositions` | Funnel.js:14-27 | the layout of one step as a value, with the padding `Padding(total, reference)` = `(1 - total / reference) / 2` of line 17: it fails only for a zero total, and otherwise reports the summed total and one band per segment |
| `Layout.CalculateFunnelStepYPositions` | Funnel.js:14-27 | the loop threading `acc` computes exactly the specified layout, including the division-by-zero failure |
| `Layout.ShareStep` | Funnel.js:20-22 | adding a segment's `total / stepTotal` to `acc` yields the share through that segment |
| `Layout.LayoutShape` | Funnel.js:16-21 | the layout fails exactly when the step totals zero and either has a segment or has no non-zero maximum (omitted or zero) |
| `Layout.OmittedMaximumIsOwnTotal` | Funnel.js:11-17 | omitting the maximum lays a step out exactly as against its own total |
| `Layout.LayoutContiguous` | Funnel.js:19-24 | each band's bottom is the next band's top |
| `Layout.LayoutCentred` | Funnel.js:17-24 | the first band starts at `padding`, the last ends at `1 - padding`, and the two sum to 1 |
| `Layout.PaddedHeight` | Funnel.js:17-23 | an unpadded height `t / total`, once padded against `reference`, becomes `t / reference` |
| `Layout.LayoutHeight` | Funnel.js:17-23 | each band is `o.total / reference` tall, where the reference is `maxSize` or else `total` |
| `Layout.LayoutColumnHeight` | Funnel.js:14-24 | the whole column is `total / reference` tall |
| `Layout.LayoutSelfReference` | Funnel.js:12-17 | a step with a non-zero total that is its own reference lays out successfully, with padding 0 and bands spanning exactly [0, 1] |
| `Layout.SelfReferenceCases` | Funnel.js:17 | an omitted maximum, a zero maximum and the step's own total all make the step its own reference |
| `Layout.BandsWithinColumn` | Funnel.js:57-62 | when the first step is the largest, as `data` assumes, every step's bands lie in order within [0, 1] |
| `Layout.ShareBounds` | Funnel.js:19-23 | with non-negative totals, the running shares before and through a segment lie in order within [0, 1] |
| `Layout.BandWithinPadding` | Funnel.js:8-10 | ordered positions in [0, 1] map to ordered positions in `[padding, 1 - padding]` |
| `Layout.LayoutOrdered` | Funnel.js:16-24 | with non-negative totals and maximum, every band is ordered and lies in `[padding, 1 - padding]` |
| `Curves.CreateBezierConnector` | Funnel.js:2-6 | the curve runs from `1000*p1` to `1000*p2`; its control points share the ends' heights and are pushed `125*ratio` forward from the start and back from the end |
| `Curves.ConnectorReversal` | Funnel.js:2-5 | the connector from `p2` to `p1` with the ratio negated is the connector from `p1` to `p2` traced backwards |
| `Curves.ControlPointsBetween` | Funnel.js:2-5 | when the horizontal gap is at least `250*ratio` and the ratio is non-negative, the control points lie in order between the ends |
| `FunnelChart.ViewBoxFor` | Funnel.js:42-47 | the viewBox has equal margins on both sides of the drawing: `1000*(w/h)*padX` horizontally and `1000*padY` vertically |
| `FunnelChart.ViewBoxContainsDrawing` | Funnel.js:42-47 | with non-negative padding and aspect, the drawing `[0, 1000*w/h] x [0, 1000]` lies inside the viewBox |
| `FunnelChart.TopEdgeAt` | Funnel.js:72-81 | after `m` steps of the first loop, a segment's outline holds `m` connectors, the `k`-th joining step `k` to step `k+1` |
| `FunnelChart.BottomEdgeAt` | Funnel.js:85-94 | after `m` steps of the second loop, the `j`-th bottom connector starts at step `n-1-j` |
| `FunnelChart.SegmentPathTopAt` | Funnel.js:71-95 | an outline has `2(n-1)` connectors; the `k`-th is the top connector from step `k` |
| `FunnelChart.SegmentPathBottomAt` | Funnel.js:71-95 | the connector at `2(n-1) - x` is the bottom connector leaving step `x` |
| `FunnelChart.SegmentPathShape` | Funnel.js:71-95 | an outline is `n-1` forward top connectors followed by `n-1` backward bottom connectors; a single step gives an empty outline |
| `FunnelChart.TopConnector` | Funnel.js:74-80 | a top connector goes from x = `StepX(k)` = `k/(n-1)*ratio` to `StepX(k+1)` = `(k+1)/(n-1)*ratio` along the tops, with the controls pushed `+125*ratio` |
| `FunnelChart.BottomConnector` | Funnel.js:87-93 | a bottom connector goes from x = `StepX(x)` = `x/(n-1)*ratio` back to `StepX(x-1)` = `(x-1)/(n-1)*ratio` along the bottoms, with the controls pushed `-125*ratio` |
| `FunnelChart.TopEdge` | Funnel.js:72-81 | the first `m` iterations of the top loop give a segment `m` connectors |
| `FunnelChart.BottomEdge` | Funnel.js:85-94 | the first `m` iterations of the bottom loop give a segment `m` connectors |
| `FunnelChart.SegmentPath` | Funnel.js:71-95 | a segment's whole outline, its top edge then its bottom edge, holds `2(n-1)` connectors and is empty for a single step |
| `FunnelChart.SegmentPathChained` | Funnel.js:72-95 | within each half of an outline, each connector starts where the previous one ended |
| `FunnelChart.SegmentPathCloses` | Funnel.js:72-95 | the top edge runs from x = 0 to x = `1000*ratio` and the bottom edge returns from `1000*ratio` to 0, at the first and last steps' tops and bottoms |
| `FunnelChart.BottomReversedIsTop` | Funnel.js:85-93 | with contiguous bands, a segment's bottom connector traced backwards is the next segment's top connector |
| `FunnelChart.AdjacentOutlinesShareBoundary` | Funnel.js:71-95 | neighbouring outlines share their boundary curve exactly, so there is no gap between bands (that they do not overlap is `LayoutOrdered`, for non-negative totals) |
| `FunnelChart.LoadedContiguous` | Funnel.js:52-65 | layouts loaded by `data` are contiguous; they are also aligned when the steps have equal segment counts |
| `FunnelChart.FirstStepUnpadded` | Funnel.js:57-62 | laid out against its own total, the first step has padding 0 |
| `FunnelChart.ColumnHeightRelativeToFirst` | Funnel.js:60-62 | each step's column is its total over the first step's total tall |
| `FunnelChart.Funnel.constructor` | Funnel.js:30-40 | the padding is 0.05 on both axes; no ratio, steps or positions are set yet |
| `FunnelChart.Funnel.Dimensions` | Funnel.js:42-50 | sets `ratio` to `w / h` and yields the viewBox, changing nothing else |
| `FunnelChart.Funnel.Data` | Funnel.js:52-65 | an empty input returns the error and changes no field; otherwise it stores the steps and the first step's total, and lays out every step against that total with the first unpadded |
| `FunnelChart.Funnel.DrawPaths` | Funnel.js:67-95 | returns one outline per segment of the first step, each exactly the specified `SegmentPath` |
| `FunnelChart.AppendTopEdges` | Funnel.js:71-82 | the first nested loop appends to every segment's outline its whole top edge |
| `FunnelChart.AppendBottomEdges` | Funnel.js:84-95 | the second nested loop appends to every segment's outline its whole bottom edge |
| `Sample.SumOfTwo` | Funnel.js:16 | the fold of a two-segment step is the sum of its two totals |
| `Sample.TwoSegmentLayout` | Funnel.js:14-27 | the closed-form bands of any two-segment step with a non-zero total, against a non-zero maximum |
| `Sample.FirstSampleStepLayout` | sample-data.js:2-8 | the first sample step has padding 0 and bands `[0, 946/1390]` and `[946/1390, 1]` |
| `Sample.SecondSampleStepLayout` | sample-data.js:9-15 | the second sample step has padding 499/1390 and bands split at 685/1390 |
| `Sample.OneSegmentLayout` | Funnel.js:14-27 | a single segment of non-zero total laid out against its own total has padding 0 and the one band [0, 1] |
| `Sample.SingleSegmentFillsColumn` | Funnel.js:14-27 | one segment of 100 against a maximum of 100 spans [0, 1] with padding 0 |
| `Sample.ZeroTotalStepFails` | Funnel.js:16-21 | a one-segment step of total zero fails against 1390 |
| `Sample.EmptyStepCollapses` | Funnel.js:16-24 | an empty step against a non-zero maximum has padding 1/2 and no bands |
| `Sample.SaleColumnHeight` | sample-data.js:24-32 | the last sample step's column is 147/1390 of the full height |
| `Sample.SampleStepsLayOut` | sample-data.js:1-33 | every sample step lays out against 1390 without dividing by zero |

## Left out

- Rendering through the DOM and SVG is not modelled. This covers
  `createElementNS`, `setAttribute`, `appendChild`, `insertBefore` and the
  `svg` field. `Dimensions` returns the viewBox and `DrawPaths` returns the
  outlines instead of attaching them.
- `drawLines` and `drawLabels` are not modelled. Divider lines, percentage
  labels and label backgrounds need text measurement by the browser
  (`getBBox`) and number formatting (`toFixed`).
- SVG path text is not modelled, including the rewrite of the leading `L`
  into `M`. An outline is a sequence of connectors, and the implicit
  straight line before each connector is not represented.
- The colour palette and its lookup are styling only and are not modelled.
- IEEE-754 rounding is not modelled: all arithmetic is exact over the reals.
  Equalities such as `top[0] + bottom[last] == 1` hold only over exact reals.
- `CalculateFunnelStepYPositions` returns a failure where the source returns
  NaN or Infinity.
- `Data` stops at the first step whose layout would divide by zero, leaving
  `positions` unchanged. The source instead stores NaN-laden layouts.
- `Data` returns the error `NotStepArray` rather than the source's message
  string "Steps data should be an array of objects."; the text is not modelled.
- `Data` treats "not an array of objects" as "empty". The typed input is
  always a sequence of steps, so a non-array, a `null` first element or a
  step without `data` cannot arise. An empty array, where `steps[0]` is
  `undefined`, is the case the model keeps.
- `Dimensions` requires `h != 0`. The source divides by zero there and
  stores an infinite or NaN ratio.
- `DrawPaths` requires data to be loaded and a ratio to be set. Before
  then, the source throws or draws NaN coordinates from undefined fields.
- `index.js` is wiring only and is not modelled. It creates the chart,
  calls `dimensions(2.5, 1)`, `data` and `draw`.
