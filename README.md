# Progressive-band commission calculator, modelled in Dafny

The repository is a small React app that works out the commission owed on a
revenue figure. It uses a fixed table of five contiguous bands:

| min | max | rate |
|---|---|---|
| 0 | 5000 | 0% |
| 5000 | 10000 | 10% |
| 10000 | 15000 | 15% |
| 15000 | 20000 | 20% |
| 20000 | unbounded | 25% |

The calculator walks the bands in order. It gives each band
`min(remaining, max - min)` of the revenue and adds that amount times the
band's rate to the total. It pushes one breakdown row per band: range label,
rate and commission. It takes the band's share off the remaining revenue and
stops after the first band that leaves nothing. The repository has two copies
of this allocator. They differ only in their input guard and in how they
format the range label.

The project has these files:

- `commission.dfy` (module `Commission`) is shared by both copies. It holds the
  band table (`StandardBands`) and the bands (`Band`, with an upper edge that is
  `Bounded(limit)` or `Unbounded` instead of `Infinity`). `Shares` is a
  recursive specification of what the loop allocates. The module also holds
  the totals and rows derived from it, and the lemmas about them. `Reference`
  is an independent definition: the usual "each band charges its rate on the
  part of the revenue inside it". It is proved equal to the loop's total on
  every valid table. The loop itself is the method `AllocateBands`, written
  once and parameterised by the function that formats a band's range label.
- `nested_calculator.dfy` (module `NestedCalculator`) models
  `src/components/CommissionCalculator/CommissionCalculator.tsx`. `SimulateApiCall`
  is `simulateAPICall`: the shared loop with the `£min+` /
  `£min - £max` labels. The component state (`Widget`) holds the stored
  result and the `loading` flag. Only revenue `> 0` is accepted.
- `app_calculator.dfy` (module `AppCalculator`) models
  `src/components/CommissionCalculator.tsx`, the copy that `App.tsx` mounts.
  The loop sits inline in the click handler; here it is the method `Allocate`
  (the shared loop with this file's labels), which `Widget.CalculateCommission`
  calls. Its labels are `£min - max`, with
  `The Moon` as the unbounded edge. Revenue `>= 0` is accepted, and other input
  is ignored with no else branch.
- `decimal.dfy` (module `Decimal`) renders and parses the decimal text of band
  edges, as `${n}` does for a non-negative integer.
- `wrappers.dfy` (module `Wrappers`) defines `Option`.

The loop is a method with loop invariants. It is proved to return exactly
`Commission.Allocation(revenue, bands, label)` for whichever label format it is
given, and to report a total equal to the sum of its rows.

Money and rates are exact `real`s. The parsed input field is an
`Option<real>`, where `None` stands for a value that is not a number
(`isNaN`).

Worked values for the standard table (`Commission.WorkedValues`):

- 7000 earns 2000 · 10% = 200.
- 12000 earns 5000 · 10% + 2000 · 15% = 800.
- 25000 earns 5000 · 10% + 5000 · 15% + 5000 · 20% + 5000 · 25% = 3500.

## Model

| member | source | states |
|---|---|---|
| `Commission.StandardBands` | src/components/CommissionCalculator/CommissionCalculator.tsx:15-21 | The table both components hard-code: edges 0, 5000, 10000, 15000, 20000 and an unbounded last band, with rates 0, 0.1, 0.15, 0.2 and 0.25 (`StandardBandsValid` proves it a valid table). |
| `Commission.Portion` | src/components/CommissionCalculator/CommissionCalculator.tsx:30-33 | `Math.min(revenue, max - min)`: an unbounded band takes the whole remainder; a bounded band takes the remainder or the band's width, whichever is smaller. |
| `Commission.Earned` | src/components/CommissionCalculator/CommissionCalculator.tsx:34 | `bandCommission`, the band's share times its rate. |
| `Commission.RowOf` | src/components/CommissionCalculator/CommissionCalculator.tsx:41-45 | The pushed row: the range label of the band, its rate and `bandCommission`. |
| `Commission.Shares` | src/components/CommissionCalculator/CommissionCalculator.tsx:29-53 | The loop visits at least one band when the table is non-empty, and never more bands than the table has. |
| `Commission.SharesFollowBands` | src/components/CommissionCalculator/CommissionCalculator.tsx:29 | Row `i` of the breakdown belongs to band `i`: the breakdown is an in-order prefix of the table, and each band appears at most once. |
| `Commission.SharesAllocation` | src/components/CommissionCalculator/CommissionCalculator.tsx:30-34 | Band `i` receives `min(remaining, max - min)` of whatever the earlier bands left, and the whole remainder if it is unbounded. |
| `Commission.SharesStopEarly` | src/components/CommissionCalculator/CommissionCalculator.tsx:48-52 | Revenue still remains after every row but the last. If the walk ends before the table does, nothing remains: the last row is the band that exhausted the revenue. |
| `Commission.RemainingNonNegative` | src/components/CommissionCalculator/CommissionCalculator.tsx:30-48 | For revenue >= 0 and bands of non-negative width, no band takes a negative amount and `remaining` never drops below zero. |
| `Commission.AllocatedSumsToRevenue` | src/components/CommissionCalculator.tsx:35-50 | For any revenue and a table whose last band is unbounded, the amounts allocated add up exactly to the revenue, so `revenueValue` ends at 0. |
| `Commission.AllocateBands` | src/components/CommissionCalculator/CommissionCalculator.tsx:24-55 | The band loop, with its early `break`, returns exactly the allocation `Shares` specifies, rows labelled by the given format, and a total equal to the sum of its rows' amounts. |
| `Commission.TakenAt` | src/components/CommissionCalculator/CommissionCalculator.tsx:30-34 | Share `i` is `min(remaining, max - min)` of what shares `0..i-1` left, and the whole remainder for an unbounded band. |
| `Commission.ContinuesAt` | src/components/CommissionCalculator/CommissionCalculator.tsx:48-52 | Before row `i` (for `i >= 1`), the earlier rows have not used up the revenue. |
| `Commission.StopsWhenExhausted` | src/components/CommissionCalculator/CommissionCalculator.tsx:48-52 | If the walk ends before the table does, the rows taken have used up the revenue. |
| `Commission.NonNegativeAt` | src/components/CommissionCalculator/CommissionCalculator.tsx:30-48 | For revenue >= 0 and bands of non-negative width, share `i` is non-negative and leaves a non-negative remainder. |
| `Commission.PortionInsideBand` | src/components/CommissionCalculator/CommissionCalculator.tsx:30-34 | Giving a band `min(remaining, max - min)` of the revenue above its lower edge is the same as taking the part of the revenue inside that band. |
| `Commission.BreakdownSumsToTotal` | src/components/CommissionCalculator/CommissionCalculator.tsx:41-47 | `totalCommission` equals the sum of the breakdown rows' `amount` fields. |
| `Commission.TotalOfSnoc` | src/components/CommissionCalculator.tsx:39-40 | Adding one band's commission to the running total gives the total of the shares taken so far plus that band. |
| `Commission.BreakdownSnoc` | src/components/CommissionCalculator.tsx:41-49 | Pushing a band's row extends the breakdown by exactly that band's row. |
| `Commission.LoopStep` | src/components/CommissionCalculator/CommissionCalculator.tsx:29-53 | One turn of the loop over band `i` takes the next share the specification lists. If that turn exhausts the revenue, the shares taken so far are the whole allocation. |
| `Commission.ChainMinsIncrease` | src/components/CommissionCalculator/CommissionCalculator.tsx:15-21 | In a contiguous table of non-empty bands, the lower edges strictly increase. |
| `Commission.StandardBandsValid` | src/components/CommissionCalculator/CommissionCalculator.tsx:15-21 | The five-band table starts at 0, is contiguous, has non-empty bands and non-negative rates, and ends in the one unbounded band. |
| `Commission.ReferenceZeroBelow` | src/components/CommissionCalculator/CommissionCalculator.tsx:15-21 | Revenue at or below a chain's first edge earns nothing under the band-by-band definition. |
| `Commission.ChainAgreesWithReference` | src/components/CommissionCalculator/CommissionCalculator.tsx:29-53 | On any chain starting at `m`, the loop's total for revenue `r - m` equals the band-by-band commission of `r`. |
| `Commission.TotalMatchesReference` | src/components/CommissionCalculator/CommissionCalculator.tsx:29-53 | On every valid table and revenue >= 0, the loop's total is the progressive commission: each band charges its rate on the part of the revenue inside it. |
| `Commission.TotalNonNegative` | src/components/CommissionCalculator/CommissionCalculator.tsx:34 | With non-negative rates and widths, revenue >= 0 never earns a negative total. |
| `Commission.TotalMonotone` | src/components/CommissionCalculator/CommissionCalculator.tsx:29-53 | With non-negative rates and widths, raising the revenue never lowers the total commission. |
| `Commission.LowRevenueEarnsNothing` | src/components/CommissionCalculator/CommissionCalculator.tsx:16 | On the standard table, revenue up to 5000 yields one share, for the first band, and zero commission. |
| `Commission.WorkedValues` | src/components/CommissionCalculator.tsx:14-20 | On the standard table, 7000 earns 200, 12000 earns 800 and 25000 earns 3500. |
| `Decimal.Digits` | src/components/CommissionCalculator/CommissionCalculator.tsx:38-39 | A band edge renders as a non-empty run of digits with no leading zero. |
| `Decimal.ParseDigitsOfDigits` | src/components/CommissionCalculator/CommissionCalculator.tsx:38-39 | Reading back the rendered digits of an edge gives the edge. |
| `Decimal.TakeDigits` | src/components/CommissionCalculator/CommissionCalculator.tsx:38-39 | Finds the longest run of digits at the front of a label. |
| `Decimal.TakeDigitsBeforeNonDigit` | src/components/CommissionCalculator/CommissionCalculator.tsx:38-39 | The digits of an edge followed by a non-digit are recovered exactly. |
| `Decimal.ReadNumberAfter` | src/components/CommissionCalculator/CommissionCalculator.tsx:38-39 | In a label made of one character, an edge's digits and a tail starting with a non-digit, the digits are found exactly, parse back to the edge, and are followed by the tail. |
| `Decimal.StandardEdgeDigits` | src/components/CommissionCalculator/CommissionCalculator.tsx:16-20 | The edges 0, 5000 and 20000 render as `0`, `5000` and `20000`. |
| `NestedCalculator.RangeLabel` | src/components/CommissionCalculator/CommissionCalculator.tsx:36-39 | The label `£{min}+` or `£{min} - £{max}`: it starts with `£` and ends in `+` exactly when the band is unbounded (`RangeLabelRoundTrip` pins the rest). |
| `NestedCalculator.AcceptsRevenue` | src/components/CommissionCalculator/CommissionCalculator.tsx:71 | The guard `!isNaN(revenueValue) && revenueValue > 0`: a number strictly above zero. |
| `NestedCalculator.RangeLabelRoundTrip` | src/components/CommissionCalculator/CommissionCalculator.tsx:36-39 | A label is `£{min}+` for the unbounded band and `£{min} - £{max}` otherwise. The band's edges can be parsed back from it. |
| `NestedCalculator.BreakdownRangesDistinct` | src/components/CommissionCalculator/CommissionCalculator.tsx:132-133 | On a valid table, the row labels of one breakdown are pairwise distinct, so the rows' `key={band.range}` never collide. |
| `NestedCalculator.StandardRangeLabels` | src/components/CommissionCalculator/CommissionCalculator.tsx:36-39 | The standard table's labels include `£0 - £5000` for the first band and `£20000+` for the last. |
| `NestedCalculator.LowRevenueResult` | src/components/CommissionCalculator/CommissionCalculator.test.tsx:15-18 | Revenue up to 5000 (1000 in the test) gives total 0 and exactly one row: `£0 - £5000`, rate 0, amount 0. |
| `NestedCalculator.SimulateApiCall` | src/components/CommissionCalculator/CommissionCalculator.tsx:23-58 | The loop returns exactly the specified allocation, with rows labelled by `RangeLabel`, and its total is the sum of its rows' amounts. |
| `NestedCalculator.Widget.constructor` | src/components/CommissionCalculator/CommissionCalculator.tsx:62-64 | A new component shows no result and is not loading. |
| `NestedCalculator.Widget.CalculateCommission` | src/components/CommissionCalculator/CommissionCalculator.tsx:66-86 | A number > 0 replaces the stored result with the allocation on the standard table. NaN, 0 and negative input leave the stored result as it was. Either way, `loading` ends false. |
| `NestedCalculator.Widget.ResetValues` | src/components/CommissionCalculator/CommissionCalculator.tsx:88-91 | Reset clears the stored result and leaves `loading` alone. |
| `AppCalculator.MoonLabelRoundTrip` | src/components/CommissionCalculator.tsx:42-46 | A label is `£0` or `£{min}`, then ` - `, then `The Moon` for the unbounded band or the bare `max` otherwise. The band's edges can be parsed back from it. |
| `AppCalculator.MoonLabel` | src/components/CommissionCalculator.tsx:42-46 | Every label, including the `min === 0` case that writes `£0`, is `£` followed by the lower edge's digits, ` - ` and the upper edge's text. |
| `AppCalculator.UpperEdge` | src/components/CommissionCalculator.tsx:45 | The upper edge's text is `The Moon` exactly when the band is unbounded; otherwise it is the digits of `max`, which parse back to `max`. |
| `AppCalculator.AcceptsRevenue` | src/components/CommissionCalculator.tsx:30 | The guard `!isNaN(revenueValue) && revenueValue >= 0`: a number of zero or more. |
| `AppCalculator.StandardMoonLabels` | src/components/CommissionCalculator.tsx:42-46 | The standard table's labels include `£0 - 5000` for the first band and `£20000 - The Moon` for the last. |
| `AppCalculator.LowRevenueResult` | src/components/CommissionCalculator.tsx:30-54 | Revenue from 0 to 5000, including 0 (which this guard admits), gives total 0 and exactly one zero row, `£0 - 5000`. |
| `AppCalculator.Allocate` | src/components/CommissionCalculator.tsx:31-55 | The handler's loop builds exactly the specified allocation, with rows labelled by `MoonLabel`, and its total is the sum of its rows' amounts. |
| `AppCalculator.Widget.constructor` | src/components/CommissionCalculator.tsx:24-25 | A new component shows no result. |
| `AppCalculator.Widget.CalculateCommission` | src/components/CommissionCalculator.tsx:27-59 | A number >= 0 stores the allocation on the standard table. NaN and negative input change nothing. |
| `AppCalculator.Widget.ResetValues` | src/components/CommissionCalculator.tsx:61-64 | Reset clears the stored result. |

## Left out

- Floating point: amounts and rates are exact reals. IEEE-754 rounding of `bandAmount * rate` and of the running total is not modelled.
- Non-finite revenue: `Number("Infinity")` passes both guards, and the loop then yields `NaN`/`Infinity` arithmetic. The model's revenue is always a finite real.
- Parsing: `Number(revenue)` and `isNaN` are a foreign library. The calculators take the parsed value as an `Option<real>`, with `None` for NaN.
- Formatting: the rate string `${rate * 100}%` and `toFixed(2)` are floating-point formatting. A row keeps the band's numeric rate and the exact amount.
- Band edges are natural numbers. Negative or fractional edges, and the exponent notation JavaScript uses for numbers of 1e21 and above, are not modelled.
- The asynchronous boundary (`setTimeout`, `Promise`, `await`) and the `try/catch` with `console.error`: the allocation body cannot throw, so it is modelled as a synchronous call. `loading` is modelled only at the start and end of a request, not as seen by a render during the delay.
- UI: JSX rendering, the revenue text field (which `resetValues` also clears), button `disabled` logic and CSS are not modelled.
- `src/App.tsx` only mounts the component. It is not part of this model.
