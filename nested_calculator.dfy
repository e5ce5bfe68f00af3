/** The calculator component under src/components/CommissionCalculator/: the
    allocation runs inside a simulated API call, only revenue above zero is
    accepted, and a loading flag is raised for the duration of a request. */
module NestedCalculator {
  import opened Wrappers
  import opened Decimal
  import opened Commission

  /** Range label: `£{min}+` for the unbounded band, `£{min} - £{max}` otherwise. */
  function RangeLabel(b: Band): (r: string)
    ensures |r| > 1 && r[0] == '£'
    ensures b.max.Unbounded? <==> r[|r| - 1] == '+'
  {
    match b.max
    case Unbounded => "£" + Digits(b.min) + "+"
    case Bounded(m) => "£" + Digits(b.min) + " - £" + Digits(m)
  }

  /** Recovers the edges of a band from its range label. */
  function ParseRangeLabel(range: string): Option<(nat, Bound)> {
    if |range| == 0 || range[0] != '£' then None
    else
      var lo := TakeDigits(range[1..]);
      var rest := range[1 + |lo|..];
      if lo == [] then None
      else if rest == "+" then Some((ParseDigits(lo), Unbounded))
      else if |rest| > 4 && rest[..4] == " - £" && AllDigits(rest[4..]) then
        Some((ParseDigits(lo), Bounded(ParseDigits(rest[4..]))))
      else None
  }

  /** A range label determines the band edges it was made from. */
  lemma RangeLabelRoundTrip(b: Band)
    ensures ParseRangeLabel(RangeLabel(b)) == Some((b.min, b.max))
  {
    match b.max {
      case Unbounded =>
        ReadNumberAfter('£', b.min, "+");
      case Bounded(m) =>
        var tail := " - £" + Digits(m);
        ReadNumberAfter('£', b.min, tail);
        assert RangeLabel(b) == ['£'] + Digits(b.min) + tail;
        assert tail[..4] == " - £" && tail[4..] == Digits(m);
        ParseDigitsOfDigits(m);
    }
  }

  /** Rows are keyed by their range label; on a valid table the labels of one breakdown are all different. */
  lemma BreakdownRangesDistinct(revenue: real, bands: seq<Band>)
    requires ValidTable(bands)
    ensures var rows := Allocation(revenue, bands, RangeLabel).breakdown;
      forall i, j :: 0 <= i < j < |rows| ==> rows[i].range != rows[j].range
  {
    var s := Shares(revenue, bands);
    var rows := Allocation(revenue, bands, RangeLabel).breakdown;
    ChainMinsIncrease(bands);
    SharesFollowBands(revenue, bands);
    forall i, j | 0 <= i < j < |rows| ensures rows[i].range != rows[j].range {
      assert rows[i].range == RangeLabel(bands[i]) && rows[j].range == RangeLabel(bands[j]);
      RangeLabelRoundTrip(bands[i]);
      RangeLabelRoundTrip(bands[j]);
    }
  }

  /** The labels of the standard table. */
  lemma StandardRangeLabels()
    ensures RangeLabel(StandardBands[0]) == "£0 - £5000"
    ensures RangeLabel(StandardBands[4]) == "£20000+"
  {
    StandardEdgeDigits();
    assert StandardBands[0] == Band(0, Bounded(5000), 0.0);
    assert StandardBands[4] == Band(20000, Unbounded, 0.25);
  }

  /** Revenue up to 5000 earns nothing and yields the single row for `£0 - £5000`. */
  lemma LowRevenueResult(revenue: real)
    requires revenue <= 5000.0
    ensures Allocation(revenue, StandardBands, RangeLabel) == CommissionTotal(0.0, [Row("£0 - £5000", 0.0, 0.0)])
  {
    LowRevenueEarnsNothing(revenue);
    StandardRangeLabels();
  }

  /** The body of the simulated API call: walks the bands in order, giving each
      `min(remaining, max - min)` of the revenue, and stops after the band that
      leaves nothing. */
  method SimulateApiCall(revenue: real, bands: seq<Band>) returns (result: CommissionTotal)
    ensures result == Allocation(revenue, bands, RangeLabel)
    ensures result.totalCommission == SumAmounts(result.breakdown)
  {
    result := AllocateBands(revenue, bands, RangeLabel);
  }

  /** Accepted revenue: a number (not NaN) strictly greater than zero. */
  predicate AcceptsRevenue(revenueValue: Option<real>) {
    revenueValue.Some? && revenueValue.value > 0.0
  }

  /** The component's state: the last result shown and the loading flag. */
  class Widget {
    var commissionTotal: Option<CommissionTotal>
    var loading: bool

    constructor ()
      ensures commissionTotal == None && !loading
    {
      commissionTotal := None;
      loading := false;
    }

    /** `revenueValue` is the parsed input field, `None` when it is not a number. */
    method CalculateCommission(revenueValue: Option<real>)
      modifies this
      ensures !loading
      ensures AcceptsRevenue(revenueValue) ==>
        commissionTotal == Some(Allocation(revenueValue.value, StandardBands, RangeLabel))
      ensures !AcceptsRevenue(revenueValue) ==> commissionTotal == old(commissionTotal)
    {
      loading := true;
      if AcceptsRevenue(revenueValue) {
        var result := SimulateApiCall(revenueValue.value, StandardBands);
        commissionTotal := Some(result);
        loading := false;
      } else {
        loading := false;
      }
    }

    method ResetValues()
      modifies this
      ensures commissionTotal == None && loading == old(loading)
    {
      commissionTotal := None;
    }
  }
}
