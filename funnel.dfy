/**
  The funnel chart itself: the viewport, the per-step layouts of the
  loaded data, and one closed band per segment index, its top boundary
  traced left to right and its bottom boundary right to left.
 */
module FunnelChart {
  import opened Wrappers
  import opened Layout
  import opened Curves

  /** The outline of one band. Each connector is reached by a straight line
      from the previous connector's end; the first is reached by a move. */
  type Path = seq<Connector>

  /** The visible region, in output units. */
  datatype ViewBox = ViewBox(x: real, y: real, width: real, height: real)

  /** Why loading the step data failed. */
  datatype DataError =
    | NotStepArray          // the input is not an array of step objects
    | InvalidStep(index: nat)  // the layout of this step divides by zero

  // ---------------------------------------------------------------------
  // dimensions
  // ---------------------------------------------------------------------

  /** The viewport for a drawing `1000 * w / h` wide and 1000 high, grown by
      the padding fractions on every side. */
  function ViewBoxFor(w: real, h: real, padX: real, padY: real): (vb: ViewBox)
    requires h != 0.0
    ensures -vb.x == 1000.0 * (w / h) * padX && -vb.y == 1000.0 * padY
    ensures vb.x + vb.width - 1000.0 * (w / h) == -vb.x
    ensures vb.y + vb.height - 1000.0 == -vb.y
  {
    var x := -(w / h) * padX * 1000.0;
    var y := -padY * 1000.0;
    var width := (w / h) * 1000.0 * (1.0 + padX * 2.0);
    var height := 1000.0 * (1.0 + padY * 2.0);
    ViewBox(x, y, width, height)
  }

  /** With non-negative padding and aspect the drawing lies inside the viewport. */
  lemma ViewBoxContainsDrawing(w: real, h: real, padX: real, padY: real)
    requires h != 0.0 && w / h >= 0.0 && padX >= 0.0 && padY >= 0.0
    ensures var vb := ViewBoxFor(w, h, padX, padY);
      vb.x <= 0.0 && 1000.0 * (w / h) <= vb.x + vb.width &&
      vb.y <= 0.0 && 1000.0 <= vb.y + vb.height
  {
    var a := w / h;
    assert 0.0 <= a * padX;
  }

  // ---------------------------------------------------------------------
  // the path specification
  // ---------------------------------------------------------------------

  /** Every step has as many segments as the first. */
  predicate Aligned(positions: seq<StepLayout>)
  {
    |positions| > 0 &&
    forall i :: 0 <= i < |positions| ==> |positions[i].relativeY| == |positions[0].relativeY|
  }

  function SegmentCount(positions: seq<StepLayout>): nat
    requires |positions| > 0
  {
    |positions[0].relativeY|
  }

  /** The horizontal position of step `k` of `n`, the last at `ratio`. */
  function StepX(k: int, n: nat, ratio: real): real
    requires n >= 2
  {
    (k as real) / ((n - 1) as real) * ratio
  }

  /** The top boundary of segment `y`, going forward with the positive
      ratio from step `k` to step `k + 1` along the tops. */
  function TopConnector(positions: seq<StepLayout>, ratio: real, y: nat, k: nat): (c: Connector)
    requires Aligned(positions) && y < SegmentCount(positions) && k + 1 < |positions|
    ensures var n := |positions|;
      c.start == Point(1000.0 * StepX(k, n, ratio), 1000.0 * positions[k].relativeY[y].top) &&
      c.end == Point(1000.0 * StepX(k + 1, n, ratio), 1000.0 * positions[k + 1].relativeY[y].top) &&
      c.c1.x == c.start.x + 125.0 * ratio && c.c2.x == c.end.x - 125.0 * ratio
  {
    var n := |positions|;
    CreateBezierConnector(
      Point(StepX(k, n, ratio), positions[k].relativeY[y].top),
      Point(StepX(k + 1, n, ratio), positions[k + 1].relativeY[y].top),
      ratio)
  }

  /** The bottom boundary of segment `y`, going backward with the negated
      ratio from step `x` to step `x - 1` along the bottoms. */
  function BottomConnector(positions: seq<StepLayout>, ratio: real, y: nat, x: nat): (c: Connector)
    requires Aligned(positions) && y < SegmentCount(positions) && 1 <= x < |positions|
    ensures var n := |positions|;
      c.start == Point(1000.0 * StepX(x, n, ratio), 1000.0 * positions[x].relativeY[y].bottom) &&
      c.end == Point(1000.0 * StepX(x - 1, n, ratio), 1000.0 * positions[x - 1].relativeY[y].bottom) &&
      c.c1.x == c.start.x - 125.0 * ratio && c.c2.x == c.end.x + 125.0 * ratio
  {
    var n := |positions|;
    CreateBezierConnector(
      Point(StepX(x, n, ratio), positions[x].relativeY[y].bottom),
      Point(StepX(x - 1, n, ratio), positions[x - 1].relativeY[y].bottom),
      -ratio)
  }

  /** The first `m` top connectors of segment `y`, leftmost first. */
  function TopEdge(positions: seq<StepLayout>, ratio: real, y: nat, m: nat): (p: Path)
    requires Aligned(positions) && y < SegmentCount(positions) && m < |positions|
    ensures |p| == m
  {
    if m == 0 then []
    else TopEdge(positions, ratio, y, m - 1) + [TopConnector(positions, ratio, y, m - 1)]
  }

  /** The first `m` bottom connectors of segment `y`, rightmost first. */
  function BottomEdge(positions: seq<StepLayout>, ratio: real, y: nat, m: nat): (p: Path)
    requires Aligned(positions) && y < SegmentCount(positions) && m < |positions|
    ensures |p| == m
  {
    if m == 0 then []
    else BottomEdge(positions, ratio, y, m - 1) + [BottomConnector(positions, ratio, y, |positions| - m)]
  }

  /** The closed outline of segment `y`: its whole top edge, then its whole bottom edge. */
  function SegmentPath(positions: seq<StepLayout>, ratio: real, y: nat): (p: Path)
    requires Aligned(positions) && y < SegmentCount(positions)
    ensures |p| == 2 * (|positions| - 1)
    ensures |positions| == 1 ==> p == []
  {
    var n := |positions|;
    TopEdge(positions, ratio, y, n - 1) + BottomEdge(positions, ratio, y, n - 1)
  }

  lemma {:induction false} TopEdgeAt(positions: seq<StepLayout>, ratio: real, y: nat, m: nat, k: nat)
    requires Aligned(positions) && y < SegmentCount(positions) && k < m < |positions|
    ensures |TopEdge(positions, ratio, y, m)| == m
    ensures TopEdge(positions, ratio, y, m)[k] == TopConnector(positions, ratio, y, k)
  {
    if k < m - 1 {
      TopEdgeAt(positions, ratio, y, m - 1, k);
    } else if m > 1 {
      TopEdgeAt(positions, ratio, y, m - 1, 0);
    }
  }

  lemma {:induction false} BottomEdgeAt(positions: seq<StepLayout>, ratio: real, y: nat, m: nat, j: nat)
    requires Aligned(positions) && y < SegmentCount(positions) && j < m < |positions|
    ensures |BottomEdge(positions, ratio, y, m)| == m
    ensures BottomEdge(positions, ratio, y, m)[j] == BottomConnector(positions, ratio, y, |positions| - 1 - j)
  {
    if j < m - 1 {
      BottomEdgeAt(positions, ratio, y, m - 1, j);
    } else if m > 1 {
      BottomEdgeAt(positions, ratio, y, m - 1, 0);
    }
  }

  lemma SegmentPathTopAt(positions: seq<StepLayout>, ratio: real, y: nat, k: nat)
    requires Aligned(positions) && y < SegmentCount(positions) && k + 1 < |positions|
    ensures |SegmentPath(positions, ratio, y)| == 2 * (|positions| - 1)
    ensures SegmentPath(positions, ratio, y)[k] == TopConnector(positions, ratio, y, k)
  {
    var n := |positions|;
    TopEdgeAt(positions, ratio, y, n - 1, k);
    BottomEdgeAt(positions, ratio, y, n - 1, 0);
  }

  lemma SegmentPathBottomAt(positions: seq<StepLayout>, ratio: real, y: nat, x: nat)
    requires Aligned(positions) && y < SegmentCount(positions) && 1 <= x < |positions|
    ensures |SegmentPath(positions, ratio, y)| == 2 * (|positions| - 1)
    ensures SegmentPath(positions, ratio, y)[2 * (|positions| - 1) - x] == BottomConnector(positions, ratio, y, x)
  {
    var n := |positions|;
    TopEdgeAt(positions, ratio, y, n - 1, 0);
    BottomEdgeAt(positions, ratio, y, n - 1, n - 1 - x);
  }

  /** A band's outline has one forward connector per gap between steps along
      the tops, leftmost first, then one backward connector per gap along the
      bottoms, rightmost first. One step gives no outline. */
  lemma SegmentPathShape(positions: seq<StepLayout>, ratio: real, y: nat)
    requires Aligned(positions) && y < SegmentCount(positions)
    ensures var n, path := |positions|, SegmentPath(positions, ratio, y);
      |path| == 2 * (n - 1) &&
      (n == 1 ==> path == []) &&
      (forall k :: 0 <= k < n - 1 ==> path[k] == TopConnector(positions, ratio, y, k)) &&
      (forall x :: 1 <= x < n ==> path[2 * (n - 1) - x] == BottomConnector(positions, ratio, y, x))
  {
    var n, path := |positions|, SegmentPath(positions, ratio, y);
    if n > 1 {
      forall k | 0 <= k < n - 1
        ensures |path| == 2 * (n - 1) && path[k] == TopConnector(positions, ratio, y, k)
      {
        SegmentPathTopAt(positions, ratio, y, k);
      }
      forall x | 1 <= x < n
        ensures path[2 * (n - 1) - x] == BottomConnector(positions, ratio, y, x)
      {
        SegmentPathBottomAt(positions, ratio, y, x);
      }
      SegmentPathTopAt(positions, ratio, y, 0);
    }
  }

  /** Within each half of an outline, every connector starts where the
      previous one ended. */
  lemma SegmentPathChained(positions: seq<StepLayout>, ratio: real, y: nat, i: nat)
    requires Aligned(positions) && y < SegmentCount(positions)
    requires i + 1 < 2 * (|positions| - 1) && i != |positions| - 2
    ensures |SegmentPath(positions, ratio, y)| == 2 * (|positions| - 1)
    ensures SegmentPath(positions, ratio, y)[i].end == SegmentPath(positions, ratio, y)[i + 1].start
  {
    var n, path := |positions|, SegmentPath(positions, ratio, y);
    SegmentPathShape(positions, ratio, y);
    if i < n - 2 {
      assert path[i] == TopConnector(positions, ratio, y, i);
      assert path[i + 1] == TopConnector(positions, ratio, y, i + 1);
    } else {
      var x := 2 * (n - 1) - i;
      assert path[i] == BottomConnector(positions, ratio, y, x);
      assert path[i + 1] == BottomConnector(positions, ratio, y, x - 1);
    }
  }

  /** The top edge runs from x = 0 to x = ratio (in output units) along the
      segment's tops; the bottom edge comes back from x = ratio to x = 0
      along its bottoms, so the outline closes at both sides. */
  lemma SegmentPathCloses(positions: seq<StepLayout>, ratio: real, y: nat)
    requires Aligned(positions) && y < SegmentCount(positions) && |positions| >= 2
    ensures var n, path := |positions|, SegmentPath(positions, ratio, y);
      |path| == 2 * (n - 1) &&
      path[0].start == Point(0.0, 1000.0 * positions[0].relativeY[y].top) &&
      path[n - 2].end == Point(1000.0 * ratio, 1000.0 * positions[n - 1].relativeY[y].top) &&
      path[n - 1].start == Point(1000.0 * ratio, 1000.0 * positions[n - 1].relativeY[y].bottom) &&
      path[2 * (n - 1) - 1].end == Point(0.0, 1000.0 * positions[0].relativeY[y].bottom)
  {
    var n, path := |positions|, SegmentPath(positions, ratio, y);
    SegmentPathShape(positions, ratio, y);
    assert path[0] == TopConnector(positions, ratio, y, 0);
    assert path[n - 2] == TopConnector(positions, ratio, y, n - 2);
    assert path[n - 1] == BottomConnector(positions, ratio, y, n - 1);
    assert path[2 * (n - 1) - 1] == BottomConnector(positions, ratio, y, 1);
    assert StepX(n - 1, n, ratio) == ratio;
    assert StepX(0, n, ratio) == 0.0;
  }

  /** Every segment's bands in every step are contiguous. */
  predicate Contiguous(positions: seq<StepLayout>)
  {
    forall x, y :: 0 <= x < |positions| && 0 <= y < |positions[x].relativeY| - 1 ==>
      positions[x].relativeY[y].bottom == positions[x].relativeY[y + 1].top
  }

  /** Where bands are contiguous, the bottom connector of segment `y` traced
      backwards is the top connector of segment `y + 1`. */
  lemma BottomReversedIsTop(positions: seq<StepLayout>, ratio: real, y: nat, x: nat)
    requires Aligned(positions) && Contiguous(positions) && y + 1 < SegmentCount(positions)
    requires 1 <= x < |positions|
    ensures Reversed(BottomConnector(positions, ratio, y, x)) == TopConnector(positions, ratio, y + 1, x - 1)
  {
    var n := |positions|;
    assert positions[x].relativeY[y].bottom == positions[x].relativeY[y + 1].top;
    assert positions[x - 1].relativeY[y].bottom == positions[x - 1].relativeY[y + 1].top;
    var p1 := Point(StepX(x - 1, n, ratio), positions[x - 1].relativeY[y].bottom);
    var p2 := Point(StepX(x, n, ratio), positions[x].relativeY[y].bottom);
    ConnectorReversal(p1, p2, ratio);
    ReversedInvolution(CreateBezierConnector(p1, p2, ratio));
  }

  /** Neighbouring bands share their boundary exactly: the bottom edge of
      segment `y`, traced backwards, is the top edge of segment `y + 1`. */
  lemma AdjacentOutlinesShareBoundary(positions: seq<StepLayout>, ratio: real, y: nat, x: nat)
    requires Aligned(positions) && Contiguous(positions) && y + 1 < SegmentCount(positions)
    requires 1 <= x < |positions|
    ensures var n := |positions|;
      |SegmentPath(positions, ratio, y)| == |SegmentPath(positions, ratio, y + 1)| == 2 * (n - 1) &&
      Reversed(SegmentPath(positions, ratio, y)[2 * (n - 1) - x]) == SegmentPath(positions, ratio, y + 1)[x - 1]
  {
    SegmentPathBottomAt(positions, ratio, y, x);
    SegmentPathTopAt(positions, ratio, y + 1, x - 1);
    BottomReversedIsTop(positions, ratio, y, x);
  }

  // ---------------------------------------------------------------------
  // loaded data
  // ---------------------------------------------------------------------

  /** `positions` holds the layout of every step against the reference `total`. */
  predicate Loaded(steps: seq<Step>, total: real, positions: seq<StepLayout>)
  {
    |positions| == |steps| &&
    forall i :: 0 <= i < |steps| ==> StepYPositions(steps[i].data, Some(total)) == Success(positions[i])
  }

  /** Loaded layouts are contiguous, and aligned when the steps are. */
  lemma LoadedContiguous(steps: seq<Step>, total: real, positions: seq<StepLayout>)
    requires Loaded(steps, total, positions)
    ensures Contiguous(positions)
    ensures |steps| > 0 && (forall i :: 0 <= i < |steps| ==> |steps[i].data| == |steps[0].data|) ==>
      Aligned(positions)
  {
    forall x, y | 0 <= x < |positions| && 0 <= y < |positions[x].relativeY| - 1
      ensures positions[x].relativeY[y].bottom == positions[x].relativeY[y + 1].top
    {
      LayoutContiguous(steps[x].data, Some(total), y);
    }
  }

  /** Against the first step's own total, the first step has no padding. */
  lemma FirstStepUnpadded(steps: seq<Step>, positions: seq<StepLayout>)
    requires |steps| > 0 && Loaded(steps, SumTotals(steps[0].data), positions)
    ensures positions[0].padding == 0.0
  {
    var data := steps[0].data;
    assert StepYPositions(data, Some(SumTotals(data))).Success?;
    assert SumTotals(data) != 0.0;
    SelfReferenceCases(data, Some(SumTotals(data)));
    LayoutSelfReference(data, Some(SumTotals(data)));
  }

  /** Each step's column is as tall as its total relative to the first's. */
  lemma ColumnHeightRelativeToFirst(steps: seq<Step>, positions: seq<StepLayout>, i: nat)
    requires |steps| > 0 && Loaded(steps, SumTotals(steps[0].data), positions)
    requires i < |steps| && |steps[i].data| > 0
    ensures var column := positions[i].relativeY;
      SumTotals(steps[0].data) != 0.0 &&
      column[|column| - 1].bottom - column[0].top == SumTotals(steps[i].data) / SumTotals(steps[0].data)
  {
    var total := SumTotals(steps[0].data);
    FirstStepUnpadded(steps, positions);
    assert total != 0.0;
    LayoutColumnHeight(steps[i].data, Some(total));
  }

  // ---------------------------------------------------------------------
  // the chart object
  // ---------------------------------------------------------------------

  class Funnel {
    /** Horizontal and vertical padding of the viewport, as fractions. */
    var padX: real
    var padY: real
    /** Width over height of the drawing; unset until `Dimensions` runs. */
    var ratio: Option<real>
    var steps: seq<Step>
    /** The first step's total, the reference for every step. */
    var maxFunnelTotal: real
    /** One layout per step; empty until `Data` succeeds. */
    var positions: seq<StepLayout>

    constructor ()
      ensures padX == 0.05 && padY == 0.05
      ensures ratio == None && steps == [] && maxFunnelTotal == 0.0 && positions == []
    {
      padX, padY := 0.05, 0.05;
      ratio := None;
      steps := [];
      maxFunnelTotal := 0.0;
      positions := [];
    }

    /** Sets the aspect ratio and yields the viewport for it. */
    method Dimensions(w: real, h: real) returns (vb: ViewBox)
      requires h != 0.0
      modifies this`ratio
      ensures ratio == Some(w / h)
      ensures vb == ViewBoxFor(w, h, padX, padY)
    {
      vb := ViewBoxFor(w, h, padX, padY);
      ratio := Some(w / h);
    }

    /** Loads the steps and lays each out against the first step's total. */
    method Data(newSteps: seq<Step>) returns (err: Option<DataError>)
      modifies this`steps, this`maxFunnelTotal, this`positions
      ensures err == Some(NotStepArray) <==> |newSteps| == 0
      ensures |newSteps| == 0 ==>
        steps == old(steps) && maxFunnelTotal == old(maxFunnelTotal) && positions == old(positions)
      ensures |newSteps| > 0 ==> steps == newSteps && maxFunnelTotal == SumTotals(newSteps[0].data)
      ensures err == None ==>
        Loaded(newSteps, maxFunnelTotal, positions) && positions[0].padding == 0.0
      ensures err.Some? && err.value.InvalidStep? ==>
        var i := err.value.index;
        i < |newSteps| && positions == old(positions) &&
        StepYPositions(newSteps[i].data, Some(maxFunnelTotal)).Failure? &&
        forall k :: 0 <= k < i ==> StepYPositions(newSteps[k].data, Some(maxFunnelTotal)).Success?
    {
      if |newSteps| == 0 {
        return Some(NotStepArray);
      }
      steps := newSteps;
      var total := SumTotals(newSteps[0].data);
      maxFunnelTotal := total;
      var yPositions: seq<StepLayout> := [];
      var i := 0;
      while i < |newSteps|
        invariant 0 <= i <= |newSteps|
        invariant |yPositions| == i
        invariant forall k :: 0 <= k < i ==> StepYPositions(newSteps[k].data, Some(total)) == Success(yPositions[k])
        invariant positions == old(positions)
        invariant steps == newSteps && maxFunnelTotal == total
      {
        var r := CalculateFunnelStepYPositions(newSteps[i], Some(total));
        if r.Failure? {
          return Some(InvalidStep(i));
        }
        yPositions := yPositions + [r.value];
        i := i + 1;
      }
      positions := yPositions;
      FirstStepUnpadded(newSteps, positions);
      err := None;
    }

    /** Builds the outline of every segment index: forward connectors along
        the tops, then backward connectors along the bottoms. */
    method DrawPaths() returns (paths: seq<Path>)
      requires Aligned(positions) && ratio.Some?
      ensures |paths| == SegmentCount(positions)
      ensures forall y :: 0 <= y < |paths| ==> paths[y] == SegmentPath(positions, ratio.value, y)
    {
      var acc := new Path[|positions[0].relativeY|](_ => []);
      AppendTopEdges(positions, ratio.value, acc);
      AppendBottomEdges(positions, ratio.value, acc);
      paths := acc[..];
    }
  }

  /** The first loop of `drawPaths`: for each gap between steps, from the
      left, appends to every segment's outline the connector along its tops. */
  method AppendTopEdges(positions: seq<StepLayout>, r: real, acc: array<Path>)
    requires Aligned(positions) && acc.Length == SegmentCount(positions)
    requires forall y :: 0 <= y < acc.Length ==> acc[y] == []
    modifies acc
    ensures forall y :: 0 <= y < acc.Length ==> acc[y] == TopEdge(positions, r, y, |positions| - 1)
  {
    var n, s := |positions|, acc.Length;
    var x := 0;
    while x < n - 1
      invariant 0 <= x <= n - 1
      invariant forall y :: 0 <= y < s ==> acc[y] == TopEdge(positions, r, y, x)
    {
      var y := 0;
      while y < |positions[x].relativeY|
        invariant 0 <= y <= s
        invariant forall j :: 0 <= j < y ==> acc[j] == TopEdge(positions, r, j, x + 1)
        invariant forall j :: y <= j < s ==> acc[j] == TopEdge(positions, r, j, x)
      {
        var c := CreateBezierConnector(
          Point(StepX(x, n, r), positions[x].relativeY[y].top),
          Point(StepX(x + 1, n, r), positions[x + 1].relativeY[y].top),
          r);
        assert TopEdge(positions, r, y, x + 1) == TopEdge(positions, r, y, x) + [c];
        acc[y] := acc[y] + [c];
        y := y + 1;
      }
      x := x + 1;
    }
  }

  /** The second loop of `drawPaths`: for each gap between steps, from the
      right, appends to every segment's outline the connector back along its
      bottoms, with the ratio negated. */
  method AppendBottomEdges(positions: seq<StepLayout>, r: real, acc: array<Path>)
    requires Aligned(positions) && acc.Length == SegmentCount(positions)
    modifies acc
    ensures forall y :: 0 <= y < acc.Length ==>
      acc[y] == old(acc[y]) + BottomEdge(positions, r, y, |positions| - 1)
  {
    var n, s := |positions|, acc.Length;
    var x := n - 1;
    while x >= 1
      invariant 0 <= x <= n - 1
      invariant forall y :: 0 <= y < s ==> acc[y] == old(acc[y]) + BottomEdge(positions, r, y, n - 1 - x)
    {
      var y := 0;
      while y < |positions[x].relativeY|
        invariant 0 <= y <= s
        invariant forall j :: 0 <= j < y ==> acc[j] == old(acc[j]) + BottomEdge(positions, r, j, n - x)
        invariant forall j :: y <= j < s ==> acc[j] == old(acc[j]) + BottomEdge(positions, r, j, n - 1 - x)
      {
        var c := CreateBezierConnector(
          Point(StepX(x, n, r), positions[x].relativeY[y].bottom),
          Point(StepX(x - 1, n, r), positions[x - 1].relativeY[y].bottom),
          -r);
        assert BottomEdge(positions, r, y, n - x) == BottomEdge(positions, r, y, n - 1 - x) + [c];
        acc[y] := acc[y] + [c];
        y := y + 1;
      }
      x := x - 1;
    }
  }
}
