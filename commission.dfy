/** The progressive-band commission allocator shared by both calculator
    components: the band table, the step-by-step allocation as a recursive
    specification, and what it guarantees. */
module Commission {

  /** The upper edge of a band; the last band of a table has no upper edge. */
  datatype Bound = Bounded(limit: nat) | Unbounded

  /** A band `{min, max, rate}`: revenue between `min` and `max` earns `rate`. */
  datatype Band = Band(min: nat, max: Bound, rate: real)

  /** How much revenue the allocator put into one band. */
  datatype Share = Share(band: Band, taken: real)

  /** One breakdown row: the range label that `rangeOf` gives, the band's rate and the commission earned in the band. */
  datatype Row = Row(range: string, rate: real, amount: real)

  /** The result the components store and display. */
  datatype CommissionTotal = CommissionTotal(totalCommission: real, breakdown: seq<Row>)

  /** The five-band table both components hard-code. */
  const StandardBands: seq<Band> := [
    Band(0, Bounded(5000), 0.0),
    Band(5000, Bounded(10000), 0.1),
    Band(10000, Bounded(15000), 0.15),
    Band(15000, Bounded(20000), 0.2),
    Band(20000, Unbounded, 0.25)
  ]

  function Min(x: real, y: real): real {
    if x <= y then x else y
  }

  /** `Math.min(remaining, max - min)`; with `max = Infinity` the width is infinite and the whole remainder is taken. */
  function Portion(remaining: real, b: Band): (p: real)
    ensures b.max.Unbounded? ==> p == remaining
    ensures b.max.Bounded? ==> var width := (b.max.limit - b.min) as real;
      p <= remaining && p <= width && (p == remaining || p == width)
  {
    match b.max
    case Unbounded => remaining
    case Bounded(m) => Min(remaining, (m - b.min) as real)
  }

  /** `bandAmount * rate`: the commission a band earns on its share. */
  function Earned(s: Share): real {
    s.taken * s.band.rate
  }

  /** The shares the allocation loop produces for `remaining` revenue over `bands`:
      each band in order takes its portion, and the walk stops after the first
      band that leaves nothing (`remaining <= 0`), that band included. */
  function Shares(remaining: real, bands: seq<Band>): (s: seq<Share>)
    ensures |s| <= |bands|
    ensures bands != [] ==> |s| >= 1
    decreases |bands|
  {
    if bands == [] then []
    else
      var a := Portion(remaining, bands[0]);
      if remaining - a <= 0.0 then [Share(bands[0], a)]
      else [Share(bands[0], a)] + Shares(remaining - a, bands[1..])
  }

  /** Total revenue put into the shares. */
  function Allocated(s: seq<Share>): real {
    if s == [] then 0.0 else s[0].taken + Allocated(s[1..])
  }

  /** Total commission earned by the shares. */
  function TotalOf(s: seq<Share>): real {
    if s == [] then 0.0 else Earned(s[0]) + TotalOf(s[1..])
  }

  function RowOf(s: Share, rangeOf: Band -> string): Row {
    Row(rangeOf(s.band), s.band.rate, Earned(s))
  }

  /** The breakdown rows of the shares, labelled by the component's rangeOf format. */
  function Breakdown(s: seq<Share>, rangeOf: Band -> string): (rows: seq<Row>)
    ensures |rows| == |s|
  {
    seq(|s|, i requires 0 <= i < |s| => RowOf(s[i], rangeOf))
  }

  function SumAmounts(rows: seq<Row>): real {
    if rows == [] then 0.0 else rows[0].amount + SumAmounts(rows[1..])
  }

  /** What one run of the allocation loop returns for `revenue`. */
  function Allocation(revenue: real, bands: seq<Band>, rangeOf: Band -> string): CommissionTotal {
    var s := Shares(revenue, bands);
    CommissionTotal(TotalOf(s), Breakdown(s, rangeOf))
  }

  // ---------------------------------------------------------------------------
  // Well-formed band tables

  /** Every band has a non-negative rate and a non-negative width. */
  predicate NonNegative(bands: seq<Band>) {
    forall i :: 0 <= i < |bands| ==>
      bands[i].rate >= 0.0 && (bands[i].max.Bounded? ==> bands[i].min <= bands[i].max.limit)
  }

  /** A non-empty run of contiguous, non-empty bands with non-negative rates whose last band is unbounded. */
  predicate Chain(bands: seq<Band>) {
    && |bands| > 0
    && (forall i :: 0 <= i < |bands| ==>
          bands[i].rate >= 0.0 && (bands[i].max.Bounded? ==> bands[i].min < bands[i].max.limit))
    && (forall i :: 0 <= i < |bands| - 1 ==> bands[i].max == Bounded(bands[i + 1].min))
    && bands[|bands| - 1].max == Unbounded
  }

  /** A band table as the components use it: a chain starting at 0. */
  predicate ValidTable(bands: seq<Band>) {
    Chain(bands) && bands[0].min == 0
  }

  lemma StandardBandsValid()
    ensures ValidTable(StandardBands)
  {
  }

  /** In a chain the lower edges strictly increase, so no band appears twice. */
  lemma {:induction false} ChainMinsIncrease(bands: seq<Band>)
    requires Chain(bands)
    ensures forall i, j :: 0 <= i < j < |bands| ==> bands[i].min < bands[j].min
  {
    if |bands| > 1 {
      var tail := bands[1..];
      assert Chain(tail);
      ChainMinsIncrease(tail);
      assert bands[0].min < bands[1].min;
      forall i, j | 0 <= i < j < |bands| ensures bands[i].min < bands[j].min {
        if i > 0 {
          assert bands[i] == tail[i - 1] && bands[j] == tail[j - 1];
        } else if j > 1 {
          assert bands[1] == tail[0] && bands[j] == tail[j - 1];
        }
      }
    }
  }

  // ---------------------------------------------------------------------------
  // What one run of the loop produces

  lemma SharesUnfold(remaining: real, bands: seq<Band>)
    requires bands != []
    ensures var a := Portion(remaining, bands[0]);
      Shares(remaining, bands)
      == [Share(bands[0], a)] + (if remaining - a <= 0.0 then [] else Shares(remaining - a, bands[1..]))
  {
  }

  lemma TotalUnfold(remaining: real, bands: seq<Band>)
    requires bands != []
    ensures var a := Portion(remaining, bands[0]);
      TotalOf(Shares(remaining, bands))
      == a * bands[0].rate + (if remaining - a <= 0.0 then 0.0 else TotalOf(Shares(remaining - a, bands[1..])))
  {
    SharesUnfold(remaining, bands);
    var a := Portion(remaining, bands[0]);
    var t := if remaining - a <= 0.0 then [] else Shares(remaining - a, bands[1..]);
    assert ([Share(bands[0], a)] + t)[1..] == t;
  }

  lemma AllocatedUnfold(remaining: real, bands: seq<Band>)
    requires bands != []
    ensures var a := Portion(remaining, bands[0]);
      Allocated(Shares(remaining, bands))
      == a + (if remaining - a <= 0.0 then 0.0 else Allocated(Shares(remaining - a, bands[1..])))
  {
    SharesUnfold(remaining, bands);
    var a := Portion(remaining, bands[0]);
    var t := if remaining - a <= 0.0 then [] else Shares(remaining - a, bands[1..]);
    assert ([Share(bands[0], a)] + t)[1..] == t;
  }

  /** One turn of the allocation loop over band `i`: the share it takes is the next one the specification lists. */
  lemma LoopStep(revenue: real, bands: seq<Band>, i: nat, remaining: real, taken: seq<Share>, share: Share)
    requires i < |bands| && share == Share(bands[i], Portion(remaining, bands[i]))
    requires taken + Shares(remaining, bands[i..]) == Shares(revenue, bands)
    ensures remaining - share.taken <= 0.0 ==> taken + [share] == Shares(revenue, bands)
    ensures remaining - share.taken > 0.0 ==>
      (taken + [share]) + Shares(remaining - share.taken, bands[i + 1..]) == Shares(revenue, bands)
  {
    var later := if remaining - share.taken <= 0.0 then [] else Shares(remaining - share.taken, bands[i + 1..]);
    assert Shares(remaining, bands[i..]) == [share] + later by {
      SharesUnfold(remaining, bands[i..]);
      assert bands[i..][1..] == bands[i + 1..];
    }
    assert (taken + [share]) + later == Shares(revenue, bands);
  }

  /** The shares follow the table in order, one per band, from the first band on. */
  lemma {:induction false} SharesFollowBands(revenue: real, bands: seq<Band>)
    ensures var s := Shares(revenue, bands);
      forall i :: 0 <= i < |s| ==> s[i].band == bands[i]
    decreases |bands|
  {
    if bands != [] {
      var a := Portion(revenue, bands[0]);
      SharesUnfold(revenue, bands);
      if revenue - a > 0.0 {
        var s := Shares(revenue, bands);
        var t := Shares(revenue - a, bands[1..]);
        SharesFollowBands(revenue - a, bands[1..]);
        forall i | 1 <= i < |s| ensures s[i].band == bands[i] {
          assert s[i] == t[i - 1] && bands[i] == bands[1..][i - 1];
        }
      }
    }
  }

  lemma AllocatedPrefix(h: Share, t: seq<Share>, i: nat)
    requires i <= |t|
    ensures Allocated(([h] + t)[..i + 1]) == h.taken + Allocated(t[..i])
  {
    assert ([h] + t)[..i + 1] == [h] + t[..i];
  }

  lemma {:induction false} TakenAt(revenue: real, bands: seq<Band>, i: nat)
    requires i < |Shares(revenue, bands)|
    ensures var s := Shares(revenue, bands);
      s[i].taken == Portion(revenue - Allocated(s[..i]), bands[i])
    decreases i
  {
    var s := Shares(revenue, bands);
    var a := Portion(revenue, bands[0]);
    if i == 0 {
      assert s[..0] == [];
      SharesUnfold(revenue, bands);
    } else {
      var t := Shares(revenue - a, bands[1..]);
      assert s == [Share(bands[0], a)] + t by {
        SharesUnfold(revenue, bands);
      }
      TakenAt(revenue - a, bands[1..], i - 1);
      assert Allocated(s[..i]) == a + Allocated(t[..i - 1]) by {
        AllocatedPrefix(s[0], t, i - 1);
        assert s[..i] == ([s[0]] + t)[..(i - 1) + 1];
      }
      assert s[i] == t[i - 1] && bands[i] == bands[1..][i - 1];
    }
  }

  /** Band `i` receives `min(remaining, max - min)` of what the bands before it left over. */
  lemma SharesAllocation(revenue: real, bands: seq<Band>)
    ensures var s := Shares(revenue, bands);
      forall i :: 0 <= i < |s| ==> s[i].taken == Portion(revenue - Allocated(s[..i]), bands[i])
  {
    var s := Shares(revenue, bands);
    forall i | 0 <= i < |s| ensures s[i].taken == Portion(revenue - Allocated(s[..i]), bands[i]) {
      TakenAt(revenue, bands, i);
    }
  }

  lemma {:induction false} ContinuesAt(revenue: real, bands: seq<Band>, i: nat)
    requires 1 <= i < |Shares(revenue, bands)|
    ensures revenue - Allocated(Shares(revenue, bands)[..i]) > 0.0
    decreases i
  {
    var s := Shares(revenue, bands);
    var a := Portion(revenue, bands[0]);
    var t := Shares(revenue - a, bands[1..]);
    assert revenue - a > 0.0 && s == [Share(bands[0], a)] + t by {
      SharesUnfold(revenue, bands);
    }
    assert Allocated(s[..i]) == a + Allocated(t[..i - 1]) by {
      AllocatedPrefix(s[0], t, i - 1);
      assert s[..i] == ([s[0]] + t)[..(i - 1) + 1];
    }
    if i == 1 {
      assert t[..0] == [];
    } else {
      ContinuesAt(revenue - a, bands[1..], i - 1);
    }
  }

  lemma {:induction false} StopsWhenExhausted(revenue: real, bands: seq<Band>)
    ensures |Shares(revenue, bands)| < |bands| ==> revenue - Allocated(Shares(revenue, bands)) <= 0.0
    decreases |bands|
  {
    if bands != [] {
      var a := Portion(revenue, bands[0]);
      SharesUnfold(revenue, bands);
      AllocatedUnfold(revenue, bands);
      if revenue - a > 0.0 {
        StopsWhenExhausted(revenue - a, bands[1..]);
      }
    }
  }

  /** The walk goes on while revenue remains and stops at the first band that exhausts it. */
  lemma SharesStopEarly(revenue: real, bands: seq<Band>)
    ensures var s := Shares(revenue, bands);
      && (forall i :: 1 <= i < |s| ==> revenue - Allocated(s[..i]) > 0.0)
      && (|s| < |bands| ==> revenue - Allocated(s) <= 0.0)
  {
    var s := Shares(revenue, bands);
    forall i | 1 <= i < |s| ensures revenue - Allocated(s[..i]) > 0.0 {
      ContinuesAt(revenue, bands, i);
    }
    StopsWhenExhausted(revenue, bands);
  }

  lemma {:induction false} NonNegativeAt(revenue: real, bands: seq<Band>, i: nat)
    requires revenue >= 0.0 && NonNegative(bands)
    requires i <= |Shares(revenue, bands)|
    ensures var s := Shares(revenue, bands);
      Allocated(s[..i]) <= revenue && (i < |s| ==> s[i].taken >= 0.0)
    decreases i
  {
    var s := Shares(revenue, bands);
    if bands == [] {
      assert s[..i] == [];
    } else {
      var a := Portion(revenue, bands[0]);
      assert 0.0 <= a <= revenue;
      if i == 0 {
        assert s[..0] == [];
        SharesUnfold(revenue, bands);
      } else if revenue - a <= 0.0 {
        assert s == [Share(bands[0], a)] by {
          SharesUnfold(revenue, bands);
        }
        assert s[..i] == s;
      } else {
        var t := Shares(revenue - a, bands[1..]);
        assert s == [Share(bands[0], a)] + t by {
          SharesUnfold(revenue, bands);
        }
        assert NonNegative(bands[1..]);
        NonNegativeAt(revenue - a, bands[1..], i - 1);
        assert Allocated(s[..i]) == a + Allocated(t[..i - 1]) by {
          AllocatedPrefix(s[0], t, i - 1);
          assert s[..i] == ([s[0]] + t)[..(i - 1) + 1];
        }
        if i < |s| {
          assert s[i] == t[i - 1];
        }
      }
    }
  }

  /** For non-negative revenue no band takes a negative amount and `remaining` never drops below zero. */
  lemma RemainingNonNegative(revenue: real, bands: seq<Band>)
    requires revenue >= 0.0 && NonNegative(bands)
    ensures var s := Shares(revenue, bands);
      && (forall i :: 0 <= i < |s| ==> s[i].taken >= 0.0)
      && (forall i :: 0 <= i <= |s| ==> Allocated(s[..i]) <= revenue)
  {
    var s := Shares(revenue, bands);
    forall i | 0 <= i <= |s| ensures Allocated(s[..i]) <= revenue && (i < |s| ==> s[i].taken >= 0.0) {
      NonNegativeAt(revenue, bands, i);
    }
  }

  /** With an unbounded last band, the shares add up exactly to the revenue,
      so `remaining` ends at exactly zero. */
  lemma {:induction false} AllocatedSumsToRevenue(revenue: real, bands: seq<Band>)
    requires bands != [] && bands[|bands| - 1].max == Unbounded
    ensures Allocated(Shares(revenue, bands)) == revenue
    decreases |bands|
  {
    var a := Portion(revenue, bands[0]);
    AllocatedUnfold(revenue, bands);
    if revenue - a > 0.0 {
      assert |bands| > 1;
      AllocatedSumsToRevenue(revenue - a, bands[1..]);
    }
  }

  lemma {:induction false} TotalOfSnoc(s: seq<Share>, x: Share)
    ensures TotalOf(s + [x]) == TotalOf(s) + Earned(x)
  {
    if s != [] {
      assert (s + [x])[1..] == s[1..] + [x];
      TotalOfSnoc(s[1..], x);
    }
  }

  lemma BreakdownSnoc(s: seq<Share>, x: Share, rangeOf: Band -> string)
    ensures Breakdown(s + [x], rangeOf) == Breakdown(s, rangeOf) + [RowOf(x, rangeOf)]
  {
    assert forall i :: 0 <= i < |s| ==> (s + [x])[i] == s[i];
  }

  /** The reported total is the sum of the breakdown's amounts. */
  lemma {:induction false} BreakdownSumsToTotal(s: seq<Share>, rangeOf: Band -> string)
    ensures SumAmounts(Breakdown(s, rangeOf)) == TotalOf(s)
  {
    if s != [] {
      assert Breakdown(s, rangeOf)[1..] == Breakdown(s[1..], rangeOf);
      BreakdownSumsToTotal(s[1..], rangeOf);
    }
  }

  // ---------------------------------------------------------------------------
  // The loop itself

  /** The allocation loop both components run, with the component's range-label
      format as a parameter: for each band in order it takes
      `min(remaining, max - min)` of the revenue, adds that times the rate to the
      total, pushes the band's row, takes the share off the revenue, and stops
      after the band that leaves nothing. */
  method AllocateBands(revenue: real, bands: seq<Band>, rangeOf: Band -> string) returns (result: CommissionTotal)
    ensures result == Allocation(revenue, bands, rangeOf)
    ensures result.totalCommission == SumAmounts(result.breakdown)
  {
    var totalCommission := 0.0;
    var breakdown: seq<Row> := [];
    var remaining := revenue;
    ghost var taken: seq<Share> := [];
    var i := 0;
    assert bands[0..] == bands;
    while i < |bands|
      invariant 0 <= i <= |bands|
      invariant taken + Shares(remaining, bands[i..]) == Shares(revenue, bands)
      invariant totalCommission == TotalOf(taken)
      invariant breakdown == Breakdown(taken, rangeOf)
    {
      var commissionBand := bands[i];
      var bandAmount := Portion(remaining, commissionBand);
      var share := Share(commissionBand, bandAmount);
      var bandCommission := Earned(share);
      LoopStep(revenue, bands, i, remaining, taken, share);
      TotalOfSnoc(taken, share);
      BreakdownSnoc(taken, share, rangeOf);
      breakdown := breakdown + [Row(rangeOf(commissionBand), commissionBand.rate, bandCommission)];
      totalCommission := totalCommission + bandCommission;
      taken := taken + [share];
      remaining := remaining - bandAmount;
      if remaining <= 0.0 {
        break;
      }
      i := i + 1;
    }
    assert taken == Shares(revenue, bands) by {
      if i == |bands| {
        assert bands[i..] == [];
      }
    }
    result := CommissionTotal(totalCommission, breakdown);
    BreakdownSumsToTotal(taken, rangeOf);
  }

  // ---------------------------------------------------------------------------
  // An independent definition: commission as a sum over bands

  /** How much of `revenue` lies inside band `b`. */
  function BandPortion(revenue: real, b: Band): real {
    if revenue <= b.min as real then 0.0
    else match b.max
      case Unbounded => revenue - b.min as real
      case Bounded(m) => if revenue >= m as real then (m - b.min) as real else revenue - b.min as real
  }

  /** Progressive commission: every band charges its rate on the part of the revenue inside it. */
  function Reference(revenue: real, bands: seq<Band>): real {
    if bands == [] then 0.0 else BandPortion(revenue, bands[0]) * bands[0].rate + Reference(revenue, bands[1..])
  }

  lemma {:induction false} ReferenceZeroBelow(revenue: real, bands: seq<Band>)
    requires Chain(bands) && revenue <= bands[0].min as real
    ensures Reference(revenue, bands) == 0.0
    decreases |bands|
  {
    if |bands| > 1 {
      assert Chain(bands[1..]);
      ReferenceZeroBelow(revenue, bands[1..]);
    }
  }

  /** Above a band's lower edge, the loop's portion of what remains is the part of the revenue inside the band. */
  lemma PortionInsideBand(revenue: real, b: Band)
    requires revenue >= b.min as real
    requires b.max.Bounded? ==> b.min <= b.max.limit
    ensures Portion(revenue - b.min as real, b) == BandPortion(revenue, b)
  {
  }

  lemma {:induction false} ChainAgreesWithReference(revenue: real, bands: seq<Band>)
    requires Chain(bands) && revenue >= bands[0].min as real
    ensures TotalOf(Shares(revenue - bands[0].min as real, bands)) == Reference(revenue, bands)
    decreases |bands|
  {
    var b := bands[0];
    var rem := revenue - b.min as real;
    var a := Portion(rem, b);
    TotalUnfold(rem, bands);
    PortionInsideBand(revenue, b);
    var rest := if rem - a <= 0.0 then 0.0 else TotalOf(Shares(rem - a, bands[1..]));
    assert rest == Reference(revenue, bands[1..]) by {
      if |bands| > 1 {
        var tail := bands[1..];
        assert b.max == Bounded(tail[0].min);
        assert Chain(tail);
        if rem - a <= 0.0 {
          ReferenceZeroBelow(revenue, tail);
        } else {
          ChainAgreesWithReference(revenue, tail);
        }
      }
    }
  }

  /** On a valid table the loop's total is the progressive commission of the revenue. */
  lemma TotalMatchesReference(revenue: real, bands: seq<Band>)
    requires ValidTable(bands) && revenue >= 0.0
    ensures TotalOf(Shares(revenue, bands)) == Reference(revenue, bands)
  {
    ChainAgreesWithReference(revenue, bands);
  }

  // ---------------------------------------------------------------------------
  // Monotonicity

  lemma MulMonotone(x: real, y: real, r: real)
    requires x <= y && r >= 0.0
    ensures x * r <= y * r
  {
  }

  lemma {:induction false} TotalNonNegative(revenue: real, bands: seq<Band>)
    requires revenue >= 0.0 && NonNegative(bands)
    ensures TotalOf(Shares(revenue, bands)) >= 0.0
    decreases |bands|
  {
    if bands != [] {
      var a := Portion(revenue, bands[0]);
      TotalUnfold(revenue, bands);
      MulMonotone(0.0, a, bands[0].rate);
      if revenue - a > 0.0 {
        TotalNonNegative(revenue - a, bands[1..]);
      }
    }
  }

  /** With non-negative rates, raising the revenue never lowers the total commission. */
  lemma {:induction false} TotalMonotone(r1: real, r2: real, bands: seq<Band>)
    requires NonNegative(bands) && r1 <= r2
    ensures TotalOf(Shares(r1, bands)) <= TotalOf(Shares(r2, bands))
    decreases |bands|
  {
    if bands != [] {
      var b := bands[0];
      var a1, a2 := Portion(r1, b), Portion(r2, b);
      TotalUnfold(r1, bands);
      TotalUnfold(r2, bands);
      MulMonotone(a1, a2, b.rate);
      if r1 - a1 <= 0.0 {
        if r2 - a2 > 0.0 {
          TotalNonNegative(r2 - a2, bands[1..]);
        }
      } else {
        TotalMonotone(r1 - a1, r2 - a2, bands[1..]);
      }
    }
  }

  // ---------------------------------------------------------------------------
  // The standard table

  /** Revenue up to 5000 stays inside the first band: one share and no commission. */
  lemma LowRevenueEarnsNothing(revenue: real)
    requires revenue <= 5000.0
    ensures Shares(revenue, StandardBands) == [Share(StandardBands[0], revenue)]
    ensures TotalOf(Shares(revenue, StandardBands)) == 0.0
  {
    SharesUnfold(revenue, StandardBands);
  }

  /** Worked values: 7000 earns 200, 12000 earns 800, 25000 earns 3500. */
  lemma WorkedValues()
    ensures TotalOf(Shares(7000.0, StandardBands)) == 200.0
    ensures TotalOf(Shares(12000.0, StandardBands)) == 800.0
    ensures TotalOf(Shares(25000.0, StandardBands)) == 3500.0
  {
    StandardBandsValid();
    TotalMatchesReference(7000.0, StandardBands);
    TotalMatchesReference(12000.0, StandardBands);
    TotalMatchesReference(25000.0, StandardBands);
  }
}
