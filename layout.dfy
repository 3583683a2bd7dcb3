/**
  The layout engine of the funnel chart: a step's segment totals and a
  reference maximum become stacked vertical bands in [0, 1], the whole
  column inset by a padding so that a smaller step sits centred.
 */
module Layout {
  import opened Wrappers

  /** One weighted part of a step (`{ total, name }`). */
  datatype Segment = Segment(total: real, name: string)

  /** One stage of the funnel: its name, its segments in order, and the
      two display switches (`lines`, `labels`; false only when set so). */
  datatype Step = Step(step: string, data: seq<Segment>, lines: bool, labels: bool)

  /** The vertical extent of one segment inside its step's column. */
  datatype Band = Band(top: real, bottom: real)

  /** What the layout of one step yields: `{ total, padding, relativeY }`. */
  datatype StepLayout = StepLayout(total: real, padding: real, relativeY: seq<Band>)

  /** The layout divides by zero (the source produces NaN or Infinity). */
  datatype LayoutError = DivisionByZero

  // ---------------------------------------------------------------------
  // applyPaddingToPosition
  // ---------------------------------------------------------------------

  /** Maps a position of the unpadded column [0, 1] into [padding, 1 - padding]. */
  function ApplyPadding(value: real, padding: real): (r: real)
    ensures value == 0.0 ==> r == padding
    ensures value == 1.0 ==> r == 1.0 - padding
  {
    value * (1.0 - padding * 2.0) + padding
  }

  /** The map is affine: it preserves weighted averages of positions. */
  lemma PaddingAffine(u: real, v: real, t: real, padding: real)
    ensures ApplyPadding(t * u + (1.0 - t) * v, padding)
         == t * ApplyPadding(u, padding) + (1.0 - t) * ApplyPadding(v, padding)
  {
    var k := 1.0 - padding * 2.0;
    calc {
      ApplyPadding(t * u + (1.0 - t) * v, padding);
      (t * u + (1.0 - t) * v) * k + padding;
      t * (u * k) + (1.0 - t) * (v * k) + (t + (1.0 - t)) * padding;
      t * (u * k + padding) + (1.0 - t) * (v * k + padding);
    }
  }

  /** Distances between positions are scaled by `1 - 2 * padding`. */
  lemma PaddingDifference(u: real, v: real, padding: real)
    ensures ApplyPadding(v, padding) - ApplyPadding(u, padding) == (v - u) * (1.0 - 2.0 * padding)
  {
  }

  /** Mirroring a position about the middle of the column mirrors its image. */
  lemma PaddingSymmetric(v: real, padding: real)
    ensures ApplyPadding(1.0 - v, padding) == 1.0 - ApplyPadding(v, padding)
  {
  }

  /** With a padding of at most one half the map is non-decreasing. */
  lemma PaddingMonotone(u: real, v: real, padding: real)
    requires padding <= 0.5 && u <= v
    ensures ApplyPadding(u, padding) <= ApplyPadding(v, padding)
  {
    PaddingDifference(u, v, padding);
    var k := 1.0 - 2.0 * padding;
    assert 0.0 <= v - u && 0.0 <= k;
    assert 0.0 <= (v - u) * k;
  }

  // ---------------------------------------------------------------------
  // totals and the reference maximum
  // ---------------------------------------------------------------------

  /** `data.reduce((a, b) => a + b.total, 0)`: a left fold over the totals. */
  function SumTotals(data: seq<Segment>): (r: real)
    ensures |data| == 1 ==> r == data[0].total
  {
    if |data| == 0 then 0.0 else SumTotals(data[..|data| - 1]) + data[|data| - 1].total
  }

  predicate NonNegative(data: seq<Segment>)
  {
    forall i :: 0 <= i < |data| ==> data[i].total >= 0.0
  }

  /** Extending a prefix by one segment adds that segment's total. */
  lemma SumPrefixStep(data: seq<Segment>, i: nat)
    requires i < |data|
    ensures SumTotals(data[..i + 1]) == SumTotals(data[..i]) + data[i].total
  {
    assert data[..i + 1][..i] == data[..i];
  }

  /** Prefix sums of non-negative totals are non-negative and grow. */
  lemma {:induction false} PrefixSumMonotone(data: seq<Segment>, i: nat, j: nat)
    requires NonNegative(data) && i <= j <= |data|
    ensures 0.0 <= SumTotals(data[..i]) <= SumTotals(data[..j])
  {
    if j == 0 {
      assert data[..0] == [];
    } else if i == j {
      PrefixSumMonotone(data, i - 1, j - 1);
      SumPrefixStep(data, j - 1);
    } else {
      PrefixSumMonotone(data, i, j - 1);
      SumPrefixStep(data, j - 1);
    }
  }

  /** `maxSize || total`: an omitted or zero maximum falls back to the step's own total. */
  function Reference(maxSize: Option<real>, total: real): (r: real)
    ensures maxSize.None? ==> r == total
    ensures maxSize.Some? && maxSize.value != 0.0 ==> r == maxSize.value
    ensures maxSize == Some(0.0) ==> r == total
    ensures r == 0.0 ==> total == 0.0
  {
    if maxSize.Some? && maxSize.value != 0.0 then maxSize.value else total
  }

  /** The source divides by zero exactly when the reference is zero, or when
      some segment's total is divided by a zero step total. */
  predicate DividesByZero(data: seq<Segment>, maxSize: Option<real>): (b: bool)
    ensures b <==> SumTotals(data) == 0.0 && (|data| > 0 || maxSize == None || maxSize == Some(0.0))
  {
    var total := SumTotals(data);
    Reference(maxSize, total) == 0.0 || (total == 0.0 && |data| > 0)
  }

  // ---------------------------------------------------------------------
  // calculateFunnelStepYPositions
  // ---------------------------------------------------------------------

  /** The fraction of the step's total held by its first `i` segments. */
  function Share(data: seq<Segment>, i: nat, total: real): real
    requires i <= |data| && total != 0.0
  {
    SumTotals(data[..i]) / total
  }

  /** The band of segment `i`: its unpadded extent is the shares before and
      through it, moved into the padded column. */
  function BandAt(data: seq<Segment>, i: nat, total: real, padding: real): Band
    requires i < |data| && total != 0.0
  {
    Band(ApplyPadding(Share(data, i, total), padding), ApplyPadding(Share(data, i + 1, total), padding))
  }

  function Padding(total: real, reference: real): real
    requires reference != 0.0
  {
    (1.0 - total / reference) / 2.0
  }

  /** The layout of one step, as a value. */
  function StepYPositions(data: seq<Segment>, maxSize: Option<real>): (r: Result<StepLayout, LayoutError>)
    ensures r.Failure? ==> SumTotals(data) == 0.0
    ensures r.Success? ==> r.value.total == SumTotals(data) && |r.value.relativeY| == |data|
  {
    var total := SumTotals(data);
    var reference := Reference(maxSize, total);
    if DividesByZero(data, maxSize) then Failure(DivisionByZero)
    else
      var padding := Padding(total, reference);
      Success(StepLayout(total, padding,
        seq(|data|, i requires 0 <= i < |data| => BandAt(data, i, total, padding))))
  }

  /** Runs the layout as the source does: the segments are mapped in order,
      threading the running share `acc` from one to the next. */
  method CalculateFunnelStepYPositions(step: Step, maxSize: Option<real>)
    returns (r: Result<StepLayout, LayoutError>)
    ensures r == StepYPositions(step.data, maxSize)
  {
    var data := step.data;
    var total := SumTotals(data);
    var reference := Reference(maxSize, total);
    if reference == 0.0 || (total == 0.0 && |data| > 0) {
      return Failure(DivisionByZero);
    }
    var padding := (1.0 - total / reference) / 2.0;
    var acc := 0.0;
    var relativeY: seq<Band> := [];
    var i := 0;
    while i < |data|
      invariant 0 <= i <= |data|
      invariant |relativeY| == i
      invariant i == 0 ==> acc == 0.0
      invariant i > 0 ==> acc == Share(data, i, total)
      invariant forall k :: 0 <= k < i ==> relativeY[k] == BandAt(data, k, total, padding)
    {
      var y := data[i].total / total;
      ShareStep(data, i, total);
      assert i == 0 ==> acc == Share(data, i, total) by {
        assert data[..0] == [];
      }
      acc := acc + y;
      assert acc - y == Share(data, i, total);
      relativeY := relativeY + [Band(ApplyPadding(acc - y, padding), ApplyPadding(acc, padding))];
      i := i + 1;
    }
    assert relativeY == seq(|data|, k requires 0 <= k < |data| => BandAt(data, k, total, padding));
    r := Success(StepLayout(total, padding, relativeY));
  }

  /** The share through segment `i` is the share before it plus its own. */
  lemma ShareStep(data: seq<Segment>, i: nat, total: real)
    requires i < |data| && total != 0.0
    ensures Share(data, i + 1, total) == Share(data, i, total) + data[i].total / total
  {
    SumPrefixStep(data, i);
    var s, t := SumTotals(data[..i]), data[i].total;
    assert (s + t) / total == s / total + t / total;
  }

  // ---------------------------------------------------------------------
  // properties of the layout
  // ---------------------------------------------------------------------

  /** The layout fails exactly when the step totals zero and either has a
      segment to divide or no non-zero maximum to fall back on. */
  lemma LayoutShape(data: seq<Segment>, maxSize: Option<real>)
    ensures StepYPositions(data, maxSize).Failure? <==>
      SumTotals(data) == 0.0 && (|data| > 0 || maxSize == None || maxSize == Some(0.0))
  {
  }

  /** Omitting the maximum lays a step out exactly as against its own total. */
  lemma OmittedMaximumIsOwnTotal(data: seq<Segment>)
    ensures StepYPositions(data, None) == StepYPositions(data, Some(SumTotals(data)))
  {
  }

  /** Bands are contiguous: each band ends where the next begins. */
  lemma LayoutContiguous(data: seq<Segment>, maxSize: Option<real>, i: nat)
    requires StepYPositions(data, maxSize).Success? && i + 1 < |data|
    ensures StepYPositions(data, maxSize).value.relativeY[i].bottom
         == StepYPositions(data, maxSize).value.relativeY[i + 1].top
  {
  }

  /** The column starts at the padding and ends at one minus the padding, so
      it is centred on one half. */
  lemma LayoutCentred(data: seq<Segment>, maxSize: Option<real>)
    requires StepYPositions(data, maxSize).Success? && |data| > 0
    ensures var l := StepYPositions(data, maxSize).value;
      l.relativeY[0].top == l.padding &&
      l.relativeY[|data| - 1].bottom == 1.0 - l.padding &&
      l.relativeY[0].top + l.relativeY[|data| - 1].bottom == 1.0
  {
    var l := StepYPositions(data, maxSize).value;
    var total := SumTotals(data);
    assert data[..0] == [];
    assert data[..|data|] == data;
    assert Share(data, |data|, total) == 1.0;
  }

  /** A non-zero number divided by itself is one. */
  lemma SelfRatio(t: real)
    requires t != 0.0
    ensures t / t == 1.0
  {
    assert (t / t) * t == t;
  }

  /** `(t / a) * (a / b) == t / b` for non-zero `a` and `b`. */
  lemma CancelRatio(t: real, a: real, b: real)
    requires a != 0.0 && b != 0.0
    ensures (t / a) * (a / b) == t / b
  {
    var u, v := t / a, a / b;
    assert u * a == t;
    assert v * b == a;
    assert (u * v) * b == u * a;
  }

  /** A band whose unpadded height is `t / total` is `t / reference` tall
      once padded for a step of that total. */
  lemma PaddedHeight(a: real, b: real, t: real, total: real, reference: real)
    requires total != 0.0 && reference != 0.0 && b - a == t / total
    ensures ApplyPadding(b, Padding(total, reference)) - ApplyPadding(a, Padding(total, reference)) == t / reference
  {
    var padding := Padding(total, reference);
    PaddingDifference(a, b, padding);
    assert 1.0 - 2.0 * padding == total / reference;
    CancelRatio(t, total, reference);
  }

  /** Each band is as tall as its segment's share of the reference maximum. */
  lemma LayoutHeight(data: seq<Segment>, maxSize: Option<real>, i: nat)
    requires StepYPositions(data, maxSize).Success? && i < |data|
    ensures var band := StepYPositions(data, maxSize).value.relativeY[i];
      band.bottom - band.top == data[i].total / Reference(maxSize, SumTotals(data))
  {
    var l := StepYPositions(data, maxSize).value;
    var total := SumTotals(data);
    var reference := Reference(maxSize, total);
    var a, b := Share(data, i, total), Share(data, i + 1, total);
    ShareStep(data, i, total);
    assert l.relativeY[i] == Band(ApplyPadding(a, l.padding), ApplyPadding(b, l.padding));
    PaddedHeight(a, b, data[i].total, total, reference);
  }

  /** The whole column is as tall as the step's share of the reference maximum. */
  lemma LayoutColumnHeight(data: seq<Segment>, maxSize: Option<real>)
    requires StepYPositions(data, maxSize).Success? && |data| > 0
    ensures var l := StepYPositions(data, maxSize).value;
      l.relativeY[|data| - 1].bottom - l.relativeY[0].top == SumTotals(data) / Reference(maxSize, SumTotals(data))
  {
    LayoutCentred(data, maxSize);
  }

  /** A step with a non-zero total that is its own reference (an omitted or
      zero maximum, or its own total) is laid out without padding, its bands
      spanning exactly [0, 1]. */
  lemma LayoutSelfReference(data: seq<Segment>, maxSize: Option<real>)
    requires SumTotals(data) != 0.0 && Reference(maxSize, SumTotals(data)) == SumTotals(data)
    ensures StepYPositions(data, maxSize).Success? && |data| > 0
    ensures var l := StepYPositions(data, maxSize).value;
      l.padding == 0.0 && l.relativeY[0].top == 0.0 && l.relativeY[|data| - 1].bottom == 1.0
  {
    var total := SumTotals(data);
    assert data == [] ==> total == 0.0;
    SelfRatio(total);
    assert Padding(total, total) == 0.0;
    LayoutCentred(data, maxSize);
  }

  /** An omitted maximum, a zero maximum and the step's own total all make
      the step its own reference. */
  lemma SelfReferenceCases(data: seq<Segment>, maxSize: Option<real>)
    requires maxSize == None || maxSize == Some(0.0) || maxSize == Some(SumTotals(data))
    ensures Reference(maxSize, SumTotals(data)) == SumTotals(data)
  {
  }

  /** With non-negative totals and a positive maximum, every band is ordered
      and lies inside the padded column. */
  lemma LayoutOrdered(data: seq<Segment>, maxSize: Option<real>, i: nat)
    requires NonNegative(data) && (maxSize.Some? ==> maxSize.value >= 0.0)
    requires StepYPositions(data, maxSize).Success? && i < |data|
    ensures var l := StepYPositions(data, maxSize).value;
      l.padding <= l.relativeY[i].top <= l.relativeY[i].bottom <= 1.0 - l.padding
  {
    var l := StepYPositions(data, maxSize).value;
    var total := SumTotals(data);
    var reference := Reference(maxSize, total);
    assert data[..|data|] == data;
    PrefixSumMonotone(data, 0, |data|);
    assert total > 0.0 && reference > 0.0;
    ShareBounds(data, i, total);
    assert l.padding <= 0.5 by {
      DivideMonotone(0.0, total, reference);
    }
    BandWithinPadding(Share(data, i, total), Share(data, i + 1, total), l.padding);
  }

  /** When the step is no larger than the maximum it is laid out against
      (the first step being the largest), every band lies in order within
      the unit column [0, 1]. */
  lemma BandsWithinColumn(data: seq<Segment>, m: real, i: nat)
    requires NonNegative(data) && m >= SumTotals(data) && i < |data|
    requires StepYPositions(data, Some(m)).Success?
    ensures var band := StepYPositions(data, Some(m)).value.relativeY[i];
      0.0 <= band.top <= band.bottom <= 1.0
  {
    var l := StepYPositions(data, Some(m)).value;
    var total := SumTotals(data);
    assert data[..|data|] == data;
    PrefixSumMonotone(data, 0, |data|);
    assert total > 0.0;
    FractionBounds(total, m, m);
    assert 0.0 <= l.padding <= 0.5;
    ShareBounds(data, i, total);
    assert l.relativeY[i] == BandAt(data, i, total, l.padding);
    BandWithinPadding(Share(data, i, total), Share(data, i + 1, total), l.padding);
  }

  /** The shares before and through a segment lie in order within [0, 1]. */
  lemma ShareBounds(data: seq<Segment>, i: nat, total: real)
    requires NonNegative(data) && i < |data| && total == SumTotals(data) && total > 0.0
    ensures 0.0 <= Share(data, i, total) <= Share(data, i + 1, total) <= 1.0
  {
    assert data[..|data|] == data;
    PrefixSumMonotone(data, i, i + 1);
    PrefixSumMonotone(data, i + 1, |data|);
    FractionBounds(SumTotals(data[..i]), SumTotals(data[..i + 1]), total);
  }

  /** Ordered parts of a positive whole are ordered fractions of it. */
  lemma FractionBounds(x: real, y: real, d: real)
    requires 0.0 <= x <= y <= d && d > 0.0
    ensures 0.0 <= x / d <= y / d <= 1.0
  {
    DivideMonotone(x, y, d);
    DivideMonotone(y, d, d);
    assert d / d == 1.0;
  }

  /** Ordered positions in [0, 1] stay ordered within [padding, 1 - padding]. */
  lemma BandWithinPadding(a: real, b: real, padding: real)
    requires 0.0 <= a <= b <= 1.0 && padding <= 0.5
    ensures padding <= ApplyPadding(a, padding) <= ApplyPadding(b, padding) <= 1.0 - padding
  {
    assert ApplyPadding(0.0, padding) == padding && ApplyPadding(1.0, padding) == 1.0 - padding;
    PaddingMonotone(0.0, a, padding);
    PaddingMonotone(a, b, padding);
    PaddingMonotone(b, 1.0, padding);
  }

  /** Division by a positive number keeps order and sign. */
  lemma DivideMonotone(x: real, y: real, d: real)
    requires 0.0 <= x <= y && d > 0.0
    ensures 0.0 <= x / d <= y / d
  {
    assert (y / d - x / d) * d == y - x;
  }
}
