/**
  The sample funnel shipped with the chart (leads, opportunities, wins,
  sales, each split into hot and bad leads), and what the model computes
  for it.
 */
module Sample {
  import opened Wrappers
  import opened Layout

  const LeadsCreated: Step :=
    Step("Leads Created", [Segment(946.0, "Hot Leads"), Segment(444.0, "Bad Leads")], true, true)
  const LeadToOpportunity: Step :=
    Step("Lead to Opportunity Conversion", [Segment(186.0, "Hot Leads"), Segment(206.0, "Bad Leads")], true, true)
  const OpportunityToWin: Step :=
    Step("Opportunity to Win Conversion", [Segment(56.0, "Hot Leads"), Segment(91.0, "Bad Leads")], true, false)
  const SaleStep: Step :=
    Step("Sale", [Segment(56.0, "Hot Leads"), Segment(91.0, "Bad Leads")], false, false)

  const SampleSteps: seq<Step> := [LeadsCreated, LeadToOpportunity, OpportunityToWin, SaleStep]

  /** The total of a two-segment step. */
  lemma SumOfTwo(a: Segment, b: Segment)
    ensures SumTotals([a, b]) == a.total + b.total
  {
    assert [a, b][..1] == [a];
    assert [a][..0] == [];
    assert SumTotals([a]) == a.total;
  }

  /** The bands of a two-segment step with non-zero total `t` against `m`. */
  lemma TwoSegmentLayout(a: Segment, b: Segment, m: real)
    requires a.total + b.total != 0.0 && m != 0.0
    ensures var t, p := a.total + b.total, Padding(a.total + b.total, m);
      StepYPositions([a, b], Some(m)) == Success(StepLayout(t, p,
        [Band(ApplyPadding(0.0, p), ApplyPadding(a.total / t, p)),
         Band(ApplyPadding(a.total / t, p), ApplyPadding(1.0, p))]))
  {
    var data := [a, b];
    var t := a.total + b.total;
    SumOfTwo(a, b);
    assert data[..0] == [] && data[..1] == [a] && data[..2] == data;
    assert [a][..0] == [];
    assert Share(data, 0, t) == 0.0;
    assert Share(data, 1, t) == a.total / t;
    SelfRatio(t);
    assert Share(data, 2, t) == 1.0;
    var l := StepYPositions(data, Some(m)).value;
    assert l.relativeY == [BandAt(data, 0, t, l.padding), BandAt(data, 1, t, l.padding)];
  }

  /** The first step is its own reference: no padding, bands split at 946/1390. */
  lemma FirstSampleStepLayout()
    ensures StepYPositions(LeadsCreated.data, Some(1390.0))
         == Success(StepLayout(1390.0, 0.0, [Band(0.0, 946.0 / 1390.0), Band(946.0 / 1390.0, 1.0)]))
  {
    TwoSegmentLayout(Segment(946.0, "Hot Leads"), Segment(444.0, "Bad Leads"), 1390.0);
  }

  /** The second step, 392 against 1390, is inset by 499/1390 on each side. */
  lemma SecondSampleStepLayout()
    ensures StepYPositions(LeadToOpportunity.data, Some(1390.0))
         == Success(StepLayout(392.0, 499.0 / 1390.0,
              [Band(499.0 / 1390.0, 685.0 / 1390.0), Band(685.0 / 1390.0, 891.0 / 1390.0)]))
  {
    TwoSegmentLayout(Segment(186.0, "Hot Leads"), Segment(206.0, "Bad Leads"), 1390.0);
    var p := Padding(392.0, 1390.0);
    assert p == 499.0 / 1390.0;
    assert ApplyPadding(186.0 / 392.0, p) == 685.0 / 1390.0;
  }

  /** A single segment laid out against its own non-zero total fills the column. */
  lemma OneSegmentLayout(a: Segment)
    requires a.total != 0.0
    ensures StepYPositions([a], Some(a.total)) == Success(StepLayout(a.total, 0.0, [Band(0.0, 1.0)]))
  {
    var data := [a];
    assert SumTotals(data) == a.total;
    LayoutSelfReference(data, Some(a.total));
    var l := StepYPositions(data, Some(a.total)).value;
    assert l.relativeY == [Band(0.0, 1.0)];
  }

  /** A single segment of 100 against a maximum of 100 fills the column. */
  lemma SingleSegmentFillsColumn()
    ensures StepYPositions([Segment(100.0, "All")], Some(100.0))
         == Success(StepLayout(100.0, 0.0, [Band(0.0, 1.0)]))
  {
    OneSegmentLayout(Segment(100.0, "All"));
  }

  /** A one-segment step of total zero cannot be laid out against 1390: its
      segment's share divides by the zero total. */
  lemma ZeroTotalStepFails()
    ensures StepYPositions([Segment(0.0, "None")], Some(1390.0)) == Failure(DivisionByZero)
  {
    var data := [Segment(0.0, "None")];
    assert data[..0] == [];
  }

  /** An empty step against a non-zero maximum divides nothing by zero: it is
      a column of height zero in the middle. */
  lemma EmptyStepCollapses()
    ensures StepYPositions([], Some(1390.0)) == Success(StepLayout(0.0, 0.5, []))
  {
    var l := StepYPositions([], Some(1390.0)).value;
    assert l.relativeY == [];
  }

  /** The last step's column is 147/1390 of the first's height. The Sale
      step sets `lines` to false, so no conversion label is drawn for it;
      the third step, with the same total, is the one labelled 11%. */
  lemma SaleColumnHeight()
    ensures StepYPositions(SaleStep.data, Some(1390.0)).Success?
    ensures var column := StepYPositions(SaleStep.data, Some(1390.0)).value.relativeY;
      |column| == 2 && column[1].bottom - column[0].top == 147.0 / 1390.0
  {
    var data := SaleStep.data;
    SumOfTwo(data[0], data[1]);
    assert data == [data[0], data[1]];
    LayoutShape(data, Some(1390.0));
    LayoutColumnHeight(data, Some(1390.0));
  }

  /** Every sample step can be laid out against the first step's total. */
  lemma SampleStepsLayOut(i: nat)
    requires i < |SampleSteps|
    ensures StepYPositions(SampleSteps[i].data, Some(1390.0)).Success?
  {
    var data := SampleSteps[i].data;
    SumOfTwo(data[0], data[1]);
    assert data == [data[0], data[1]];
  }
}
