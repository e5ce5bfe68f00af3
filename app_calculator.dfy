/** The calculator component in src/components/CommissionCalculator.tsx, the one
    the application mounts: the allocation runs directly in the click handler,
    revenue of zero or more is accepted, and other input is silently ignored. */
module AppCalculator {
  import opened Wrappers
  import opened Decimal
  import opened Commission

  /** Range label: `£{min} - {max}`, with `The Moon` as the upper edge of the
      unbounded band and no `£` before the upper edge. */
  function MoonLabel(b: Band): (r: string)
    ensures r == ['£'] + Digits(b.min) + (" - " + UpperEdge(b))
  {
    (if b.min == 0 then "£0" else "£" + Digits(b.min))
    + " - "
    + UpperEdge(b)
  }

  /** Recovers the edges of a band from its range label. */
  function ParseMoonLabel(range: string): Option<(nat, Bound)> {
    if |range| == 0 || range[0] != '£' then None
    else
      var lo := TakeDigits(range[1..]);
      var rest := range[1 + |lo|..];
      if lo == [] || |rest| < 3 || rest[..3] != " - " then None
      else
        var hi := rest[3..];
        if hi == "The Moon" then Some((ParseDigits(lo), Unbounded))
        else if hi != [] && AllDigits(hi) then Some((ParseDigits(lo), Bounded(ParseDigits(hi))))
        else None
  }

  /** The text after ` - `: `The Moon` for the unbounded band, else the digits of `max`. */
  function UpperEdge(b: Band): (r: string)
    ensures b.max.Unbounded? <==> r == "The Moon"
    ensures b.max.Bounded? ==> AllDigits(r) && ParseDigits(r) == b.max.limit
  {
    match b.max
    case Unbounded => "The Moon"
    case Bounded(m) =>
      ParseDigitsOfDigits(m);
      assert Digits(m)[0] != "The Moon"[0];
      Digits(m)
  }

  /** A range label determines the band edges it was made from. */
  lemma MoonLabelRoundTrip(b: Band)
    ensures ParseMoonLabel(MoonLabel(b)) == Some((b.min, b.max))
  {
    var hi := UpperEdge(b);
    var tail := " - " + hi;
    ReadNumberAfter('£', b.min, tail);
    assert tail[..3] == " - " && tail[3..] == hi;
  }

  /** The labels of the standard table. */
  lemma StandardMoonLabels()
    ensures MoonLabel(StandardBands[0]) == "£0 - 5000"
    ensures MoonLabel(StandardBands[4]) == "£20000 - The Moon"
  {
    StandardEdgeDigits();
    assert StandardBands[0] == Band(0, Bounded(5000), 0.0);
    assert StandardBands[4] == Band(20000, Unbounded, 0.25);
  }

  /** Revenue from 0 to 5000 earns nothing and yields the single zero row for `£0 - 5000`. */
  lemma LowRevenueResult(revenue: real)
    requires 0.0 <= revenue <= 5000.0
    ensures Allocation(revenue, StandardBands, MoonLabel) == CommissionTotal(0.0, [Row("£0 - 5000", 0.0, 0.0)])
  {
    LowRevenueEarnsNothing(revenue);
    StandardMoonLabels();
  }

  /** The allocation loop of the click handler: adds each band's commission to
      the total, pushes its row, takes its share off the revenue and stops after
      the band that leaves nothing. */
  method Allocate(revenueValue: real, bands: seq<Band>) returns (result: CommissionTotal)
    ensures result == Allocation(revenueValue, bands, MoonLabel)
    ensures result.totalCommission == SumAmounts(result.breakdown)
  {
    result := AllocateBands(revenueValue, bands, MoonLabel);
  }

  /** Accepted revenue: a number (not NaN) that is zero or more. */
  predicate AcceptsRevenue(revenueValue: Option<real>) {
    revenueValue.Some? && revenueValue.value >= 0.0
  }

  /** The component's state: the last result shown. */
  class Widget {
    var commissionTotal: Option<CommissionTotal>

    constructor ()
      ensures commissionTotal == None
    {
      commissionTotal := None;
    }

    /** `revenueValue` is the parsed input field, `None` when it is not a number.
        Rejected input leaves the shown result as it was. */
    method CalculateCommission(revenueValue: Option<real>)
      modifies this
      ensures AcceptsRevenue(revenueValue) ==>
        commissionTotal == Some(Allocation(revenueValue.value, StandardBands, MoonLabel))
      ensures !AcceptsRevenue(revenueValue) ==> commissionTotal == old(commissionTotal)
    {
      if AcceptsRevenue(revenueValue) {
        var result := Allocate(revenueValue.value, StandardBands);
        commissionTotal := Some(result);
      }
    }

    method ResetValues()
      modifies this
      ensures commissionTotal == None
    {
      commissionTotal := None;
    }
  }
}
