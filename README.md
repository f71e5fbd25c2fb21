# Techno-economic calculator: projection engine and reverse pricing

This project models the computational core of a techno-economic dashboard for a
subscription service. A `Scenario` carries growth and discount rates, entered in percent
and stored as fractions. `FinancialInputs` carries the starting subscriber count, the
subscription and pay-per-use fees, base OPEX, CAPEX, the projection horizon in years and
the share of subscribers on the subscription plan. From these the `TEACalculator` projects
year-indexed series: subscribers, OPEX, revenue and its two streams, profit and cumulative
cash flow. It also derives three summary metrics: NPV, ROI (infinite when CAPEX is not
positive) and the break-even year (`-1` when it is not reached). Reverse pricing computes,
per year, the fee each subscriber must pay to cover OPEX plus an evenly amortised share of
CAPEX, with an optional margin.

Files:

- `numeric.dfy` (module `Numeric`): exact powers, left-to-right sums, truncation toward zero
  (Python's `int()` on a float), and the compounding series shared by subscribers and OPEX.
- `calculations.dfy` (module `Calculations`): `Scenario`, `FinancialInputs`, the calculator
  and its projections and metrics, each series as a specification function plus, where the
  source builds it with a loop, a method proved equal to that function.
- `reverse_pricing.dfy` (module `ReversePricing`): `calculate_min_fee_per_user`.

Modelling choices:

- Amounts are Dafny `real`, so every identity is exact; subscriber counts are `int`.
- `TEACalculator` never changes its fields after construction, so it is the datatype
  `Calculator`. `Scenario` and `FinancialInputs` are datatypes too. `FinancialInputs` keeps
  the source's defaults: CAPEX 0, 5 years, subscription ratio 1.
- Every series has `max(years, 1)` entries (`SeriesLength`): the source starts each list with
  one element and appends one for each of `range(1, years)`.
- Subscribers are compounded on the untruncated value and each entry is truncated once, at
  the end. A reading in which the count is truncated every year disagrees with the code. On
  the worked scenario (100 subscribers, 20 % growth) the code yields 207 in year five;
  truncating every year would give 206. The model follows the code (`ExampleProjection`).
- ROI is infinite whenever CAPEX is not positive. This includes negative CAPEX, not only
  CAPEX equal to zero.
- NPV is defined only for a discount rate other than -100 %. At exactly that rate the
  source divides by zero and raises an error. Any other rate, including one below -100 %,
  is accepted as the source accepts it.
- Revenue splits subscribers fractionally (`count * ratio` and `count * (1 - ratio)`), as
  the engine does; nothing is truncated.

## Model

| member | source | states |
|---|---|---|
| Calculations.NewScenario | calculations.py:6-10 | each stored rate times 100 is the percentage given, so the percent-to-fraction conversion happens exactly once |
| Calculations.PercentRoundTrip | calculations.py:8-10 | writing a scenario's rates back as percentages (rate * 100) reproduces the percentages it was built from |
| Calculations.SeriesLength | calculations.py:36-37 | a projected series has `years` entries, and exactly one when `years` is below 1 |
| Calculations.ProjectSubscribers | calculations.py:35-39 | the appending loop, with truncation of every entry afterwards, yields exactly the truncated compounded series |
| Calculations.SubscribersStart | calculations.py:36-39 | the subscriber series has max(years, 1) entries and entry 0 is the starting count |
| Calculations.SubscribersClosedForm | calculations.py:35-39 | entry i is trunc(start * (1+g)^i): compounding happens without intermediate truncation |
| Calculations.SubscribersWithoutGrowth | calculations.py:35-39 | with zero growth every entry equals the starting count |
| Calculations.SubscribersNonDecreasing | calculations.py:35-39 | with a non-negative start and non-negative growth, a later year never has fewer subscribers |
| Calculations.ProjectOpex | calculations.py:41-45 | the appending loop yields exactly the compounded OPEX series |
| Calculations.OpexRecurrence | calculations.py:41-45 | OPEX has max(years, 1) entries, entry 0 is base OPEX and each entry is the previous one times (1+g) |
| Calculations.OpexWithoutGrowth | calculations.py:41-45 | with zero growth OPEX is the base in every year |
| Calculations.OpexNonDecreasing | calculations.py:41-45 | with non-negative base and growth OPEX never decreases |
| Calculations.UsersSplitExactly | calculations.py:50-55 | the fractional split into subscription and pay-per-use users adds back to the subscriber count |
| Calculations.ProjectRevenue | calculations.py:47-58 | revenue has one entry per subscriber entry, each the count's subscription users times the subscription fee plus its pay-per-use users times the pay-per-use fee |
| Calculations.ProjectRevenueBreakdown | calculations.py:60-73 | the two streams have the subscriber series' length, are each plan's users times its fee, and add up to total revenue year by year |
| Calculations.RevenueAllSubscription | calculations.py:47-58 | with subscription ratio 1, revenue is subscribers times the subscription fee |
| Calculations.Profit | calculations.py:75-78 | profit has the length of both revenue and OPEX, max(years, 1), and is revenue minus OPEX year by year |
| Calculations.CalculateCumulativeCashFlow | calculations.py:80-88 | the running-total loop yields cf[i] = -capex + profit[0] + ... + profit[i] |
| Calculations.CashFlowRunningSum | calculations.py:80-88 | cash flow has the profit's length, starts at profit[0] - capex, adds one year's profit per step and ends at total profit minus CAPEX |
| Calculations.Npv | calculations.py:90-93 | NPV (the discounted sum of profits, no CAPEX term) is defined for any rate other than -1, the one rate where the source divides by zero; with a one-year horizon it is the single profit divided once by (1+dr), so the first year is discounted once, not zero times |
| Numeric.DiscountedSumAppend | calculations.py:93 | adding year k (1-based) adds its amount divided by (1+dr)^k, so exponents start at 1 |
| Calculations.NpvWithoutDiscount | calculations.py:90-93 | at a zero discount rate NPV equals the plain sum of profits, with no CAPEX term |
| Calculations.NpvIgnoresCapex | calculations.py:90-93 | NPV is the same whatever the CAPEX |
| Calculations.Roi | calculations.py:95-97 | ROI is infinite exactly when CAPEX is not positive; otherwise ratio * capex = total profit - capex |
| Calculations.RoiMatchesCashFlow | calculations.py:80-97 | for positive CAPEX, ROI times CAPEX is the last cumulative cash-flow entry |
| Calculations.BreakevenWhenRoiNonNegative | calculations.py:80-104 | a non-negative finite ROI implies some cumulative cash-flow entry is non-negative, so break-even is reached |
| Calculations.CalculateBreakevenYear | calculations.py:99-104 | returns -1 iff every cumulative cash-flow entry is negative; otherwise the 1-based year k of the first entry >= 0 (zero counts), all earlier entries being negative |
| Calculations.ExampleProjection | calculations.py:35-104 | the worked scenario gives subscribers [100,120,144,172,207], OPEX [10000,...,14641], revenue = subscribers * 100, a cash flow that stays negative and ROI -16751/30000 |
| Numeric.Trunc | calculations.py:39 | int() truncates toward zero: the result lies within one of x, on x's side of zero |
| Numeric.CompoundedClosedForm | calculations.py:37-38 | the appended series start, start*(1+g), ... has entry i equal to start * (1+g)^i |
| ReversePricing.AmortizedCapex | reverse_pricing.py:25 | one share per OPEX year; inside a positive window each share times the window is CAPEX, outside it (and for a window <= 0) the share is 0 |
| ReversePricing.AmortizationCoversCapex | reverse_pricing.py:25 | when 0 < window <= number of years, the shares sum to exactly CAPEX |
| ReversePricing.TotalRequired | reverse_pricing.py:26 | one cost per year both series cover (the shorter length, as zip gives), each being that year's OPEX plus its CAPEX share |
| ReversePricing.TotalRequiredPrefixSum | reverse_pricing.py:26 | over equally long series, the first k costs sum to the first k OPEX values plus the first k CAPEX shares |
| ReversePricing.TotalRequiredCoversCapex | reverse_pricing.py:25-26 | when 0 < window <= number of years, the costs to recover over the horizon are total OPEX plus exactly CAPEX |
| ReversePricing.AtLeastOne | reverse_pricing.py:30 | the divisor max(users, 1) is the count itself when that is positive and exactly 1 when it is zero or negative |
| ReversePricing.YearFee | reverse_pricing.py:30-31 | a year's fee times max(users, 1) is the year's cost times (1 + margin) |
| ReversePricing.RequiredFees | reverse_pricing.py:25-34 | there are min(len(subscribers), len(opex)) fees, and fee[i] * max(subs[i], 1) = (opex[i] + amortised[i]) * (1 + margin) |
| ReversePricing.CalculateMinFeePerUser | reverse_pricing.py:4-34 | the zipping loop yields exactly the required fees |
| ReversePricing.NoSubscribersPaysWholeCost | reverse_pricing.py:30-31 | a year with at most one subscriber (zero and negative counts included) is charged its whole cost times (1 + margin), so nothing divides by zero |
| ReversePricing.NoWindowCoversOpexOnly | reverse_pricing.py:25-31 | with an amortisation window <= 0, fees cover OPEX plus margin only |
| ReversePricing.FeeExamples | reverse_pricing.py:25-32 | subscribers [10] and OPEX [100] give [10.0]; adding CAPEX 50 amortised over one year gives [15.0] |

## Left out

- IEEE-754 floating point: amounts are exact reals, so rounding differences between the
  source's floats and the model are not captured.
- NPV at a discount rate of exactly -100 %: the source raises a division-by-zero error;
  `Calculations.Npv` requires the rate to differ from -1 instead of modelling the exception.
- Python's float infinity for ROI is the `Infinite` constructor of `ReturnOnInvestment`.
- The scenario's name is carried but plays no part in any computation.
- The dashboard pages, charts, JSON configuration files and validation scripts are not part
  of this model. This includes the pages' own integer-truncated revenue split and their
  inline `opex / max(subscribers, 1)` fee, and the save path that does not write the
  subscription ratio.
