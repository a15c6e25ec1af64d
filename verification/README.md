# Home-purchase calculation engine, modelled in Dafny

This project models the pure calculation core of a home-purchase planning tool for Australian buyers:

- **Mortgage**: the level monthly repayment of an annuity loan.
- **Property costs**: the point-in-time cost snapshot of a purchase:
  - deposits and fees;
  - first-home grant and stamp-duty concession;
  - the loan and its loan-to-value ratio;
  - duty after concession;
  - the upfront cash needed;
  - the five-part monthly cost.
- **Forecast**: the year-by-year forecast of property value, loan balance, equity, cumulative cost and net position. The loan is re-amortised each year over the years left in the forecast horizon (not the loan term), and the rate steps up from year 2.
- **Sensitivity**: the preset "what-if" scenarios and the custom scenario. The custom scenario rescales duty and drops first-home benefits when the price rises.
- **Cost of living**: commute cost and time (drive, transit or a mix), living expenses and all-in monthly cost, and the comparison of two locations.
- **Defaults**: the constant tables the calculations read: jurisdictions, fallback first-home benefits, milestone years and scenario presets.

JavaScript numbers are modelled as mathematical `real`s and `Math.pow` as the recursive `Numeric.Pow`.

Every function is total over its numeric domain except where the source divides by something that can be zero. There the model states the divisor's non-zero-ness as a precondition:

- `Mortgage.PaymentDefined`: a positive principal needs a term of at least one year and a rate other than −2400 % a year, where `1 + r/1200 = −1` and so `(1 + r/1200)^(12n) = 1`.
- `Forecast.ForecastDefined` carries the same condition for the forecast's rates.
- `Sensitivity.CustomDefined` adds a non-zero new price for the custom scenario, and a non-zero base price when the price offset is non-zero.

These preconditions exclude every case where the source returns `Infinity` or `NaN`. `ForecastDefined` also excludes a few cases where the source would not divide at all (see "## Left out").

Modules, one per source file:

| module | file | models |
|---|---|---|
| `Numeric` | numeric.dfy | `Math.pow`, `Math.max(0, ·)`, `Math.min`, `Math.abs` and the facts about powers the proofs need |
| `Types` | types.dfy | the record shapes: `PropertyCosts`, `ForecastRow`, `ScenarioResult`, `CostOfLivingResult`, `LocationSummary`, `LocationComparisonResult`, `StateBenefits`, `AustralianState`, `TransportMode` |
| `Defaults` | defaults.dfy | `STATES`, `FALLBACK_BENEFITS`, `MILESTONE_YEARS`, `SCENARIOS` |
| `Mortgage` | mortgage.dfy | `calculateMonthlyPayment`, with a month-by-month reference balance `Outstanding` |
| `PropertyCostModel` | property_costs.dfy | `getStateBenefits`, `calculatePropertyCosts` |
| `Forecast` | forecast.dfy | `calculateForecast`, with reference definitions `Compound` (value growth) and `OnStraightLine` (zero-rate balance) |
| `Sensitivity` | sensitivity.dfy | `calculateScenario`, `calculateCustomScenario` |
| `CostOfLiving` | cost_of_living.dfy | `calculateTransportCost`, `calculateCommuteHours`, `calculateCostOfLiving`, `calculateLocationComparison` |

Behaviour of the code that the model makes explicit:

- **Positive-rate loans are never repaid within the horizon.**
  - The forecast charges simple annual interest (`balance × rate / 100`, `forecast.ts:49`). It repays twelve months of an annuity that compounds monthly and is re-amortised over the years left (`forecast.ts:38-46`).
  - Twelve such payments minus the annual interest are always strictly less than the balance (`Forecast.ResidualAfterYear`). This holds even in the final year, when the annuity covers a single year.
  - So with a positive loan and positive rates, every row, the last included, keeps a positive balance (`Forecast.PositiveRateLeavesResidual`).
  - For a non-negative loan at a zero rate with no rate bump, the balance falls on a straight line and is exactly 0 in the final year (`Forecast.ZeroRateStraightLine`, `Forecast.ZeroRateRepaid`).
  - At a non-negative rate, from a non-negative balance, the balance never rises (`Forecast.BalanceNonIncreasing`). An unclamped negative scenario loan, by contrast, rises to 0 in year 1.
- **The commute cost of 15 km, five days a week, driving at 0.85 a km with free parking is exactly 552.5 a month.** The formula is 15 × 2 × 0.85 × 5 × 52/12 (`CostOfLiving.CommuteCostExample`).
- **Scenario loans are not clamped.**
  - `calculateScenario` and `calculateCustomScenario` compute the loan as `newPrice − deposit + lmi` with no `Math.max(0, ·)`, unlike `calculatePropertyCosts`.
  - When the deposit exceeds the new price by more than the mortgage insurance, the loan is negative and its repayment is 0 (`Sensitivity.ScenarioLoanUnclamped`, `Sensitivity.CustomLoanUnclamped`, both stated for zero insurance).
  - So the zero-perturbation scenario's snapshot equals the base exactly when the deposit does not exceed the price (`Sensitivity.ScenarioZeroIsNoOp`). Above that, the snapshot's `totalLoan` differs from the base's clamped loan.

## Model

Source paths are relative to the repository root.

| member | source | states |
|---|---|---|
| Numeric.Max0 | frontend/src/lib/calculations/propertyCosts.ts:52 | `Math.max(0, x)` is never negative, is at least `x`, and is either 0 or `x` |
| Numeric.Min | frontend/src/lib/calculations/forecast.ts:50 | `Math.min(a, b)` is at most both arguments and equals one of them |
| Numeric.Abs | frontend/src/lib/calculations/costOfLiving.ts:219 | `Math.abs(x)` is non-negative and is `x` or `−x` |
| Defaults.States | frontend/src/constants/defaults.ts:85 | the jurisdiction list has eight entries, contains every jurisdiction and repeats none |
| Defaults.FallbackBenefits | frontend/src/constants/defaults.ts:87-96 | the static benefits table has an entry for every jurisdiction, and every grant and concession in it is non-negative |
| Defaults.MilestoneYears | frontend/src/constants/defaults.ts:98 | the milestone years are seven strictly increasing years within 1..30, ending at the 30-year horizon |
| Defaults.ScenarioPresets | frontend/src/constants/defaults.ts:101-111 | there are nine presets; the first is the unperturbed "Current" case, and no preset lowers the price or the rate |
| Mortgage.MonthlyPayment | frontend/src/lib/calculations/mortgage.ts:1-7 | a non-positive principal costs nothing; at a zero rate, the payment times the number of months is exactly the principal |
| Mortgage.DenominatorNonZero | frontend/src/lib/calculations/mortgage.ts:6 | the annuity's denominator `(1+r)^n − 1` is non-zero for every non-zero rate other than −2400 % and every term of at least a year |
| Mortgage.PaymentAmortises | frontend/src/lib/calculations/mortgage.ts:1-7 | paying the computed amount every month for the whole term, with interest compounded monthly, leaves a balance of exactly 0 |
| Mortgage.OutstandingClosedForm | frontend/src/lib/calculations/mortgage.ts:6 | the month-by-month balance after `k` payments matches the closed form `P(1+r)^k − pmt((1+r)^k − 1)/r` the annuity formula is derived from |
| Mortgage.PaymentExceedsInterest | frontend/src/lib/calculations/mortgage.ts:6 | at a positive rate the payment is more than the first month's interest, so the loan amortises |
| Mortgage.PaymentPositive | frontend/src/lib/calculations/mortgage.ts:2-6 | a positive principal at a non-negative rate has a positive payment |
| Mortgage.PaymentLinear | frontend/src/lib/calculations/mortgage.ts:5-6 | the payment is proportional to the principal |
| Mortgage.PaymentMonotone | frontend/src/lib/calculations/mortgage.ts:1-7 | at a non-negative rate, a larger principal never has a smaller payment |
| PropertyCostModel.GetStateBenefits | frontend/src/lib/calculations/propertyCosts.ts:5-13 | a buyer who is not a first-home buyer gets nothing; otherwise the live table is used when supplied, else the fallback table, and a jurisdiction missing from the chosen table gets nothing |
| PropertyCostModel.FallbackBenefitsNonNegative | frontend/src/lib/calculations/propertyCosts.ts:10-12 | without a live table the benefits looked up are never negative |
| PropertyCostModel.CalculatePropertyCosts | frontend/src/lib/calculations/propertyCosts.ts:43-97 | inputs are copied through unchanged; the deposit, fees and yearly bills are summed or spread over months; benefits apply exactly to first-home buyers; the snapshot satisfies `Consistent`, which ties together the loan (clamped base loan plus insurance, LVR 0 for a zero price), the upfront cash (duty after concession never negative) and the monthly total with its annual equivalent |
| PropertyCostModel.DepositCoversPrice | frontend/src/lib/calculations/propertyCosts.ts:52-59 | a deposit covering the price, with no mortgage insurance, leaves no loan, no repayment and an LVR of 0 |
| PropertyCostModel.LvrWithinHundred | frontend/src/lib/calculations/propertyCosts.ts:52-54 | with non-negative deposits, a positive price and no insurance, the LVR lies within 0..100 |
| PropertyCostModel.BenefitsOnlyReduceUpfront | frontend/src/lib/calculations/propertyCosts.ts:49-65 | non-negative first-home benefits never raise the upfront cash and leave the monthly total unchanged |
| PropertyCostModel.UpfrontCanBeNegative | frontend/src/lib/calculations/propertyCosts.ts:57 | the upfront cash is not clamped: a grant larger than deposit, duty and fees together makes it negative |
| Forecast.ReamortisedMatchesMortgage | frontend/src/lib/calculations/forecast.ts:37-47 | the forecast's inline re-amortised payment over the remaining years is the same as the mortgage module's payment for that balance and term |
| Forecast.LoanYearStep | frontend/src/lib/calculations/forecast.ts:32-55 | a repaid loan stays at zero with no interest or principal; otherwise the interest is simple annual interest on the opening balance, the principal never exceeds the balance, the principal is twelve payments of the balance re-amortised over the years left (the mortgage payment for that balance and term) less the interest, capped at the balance, the balance falls by exactly the principal, and it is never negative |
| Forecast.CalculateForecast | frontend/src/lib/calculations/forecast.ts:3-79 | one row per year `0..years`, numbered by position; row 0 is the purchase itself (price, loan, upfront cash); in every row equity is value minus balance and net position is value minus cumulative cost; no balance after row 0 is negative |
| Forecast.RowsStep | frontend/src/lib/calculations/forecast.ts:24-76 | every row of a partial forecast is the yearly step applied to the row before it |
| Forecast.ForecastStep | frontend/src/lib/calculations/forecast.ts:24-76 | every row after the first is the yearly step applied to the previous row |
| Forecast.LoanColumnsStep | frontend/src/lib/calculations/forecast.ts:36-55 | each row's balance, principal and interest are one loan year from the previous balance, at that year's rate, over the years that remain |
| Forecast.RateSchedule | frontend/src/lib/calculations/forecast.ts:26-28 | year 1 uses the purchase rate and every later year uses that rate plus the bump |
| Forecast.CompoundClosedForm | frontend/src/lib/calculations/forecast.ts:30 | growing a value `n` times by `growth` % gives `price · (1 + growth/100)^n` |
| Forecast.ValueCompounds | frontend/src/lib/calculations/forecast.ts:30 | the property value in year `i` is the price compounded `i` times at the growth rate |
| Forecast.CumulativeCostStep | frontend/src/lib/calculations/forecast.ts:59-61 | each year adds principal plus interest plus the non-mortgage running costs to the cumulative cost |
| Forecast.InertOnceRepaid | frontend/src/lib/calculations/forecast.ts:36-55 | once a balance reaches zero, every later row has zero balance, principal and interest |
| Forecast.NoLoanNoLoanColumns | frontend/src/lib/calculations/forecast.ts:16-55 | without a loan, no year has any balance, principal or interest |
| Forecast.PrincipalWithinBalance | frontend/src/lib/calculations/forecast.ts:49-54 | at a non-negative rate the principal repaid in a year lies between 0 and the opening balance |
| Forecast.BalanceNonIncreasing | frontend/src/lib/calculations/forecast.ts:49-54 | at a non-negative rate, from a non-negative balance, the loan balance never rises from one year to the next |
| Forecast.PrincipalTelescopes | frontend/src/lib/calculations/forecast.ts:49-54 | for a non-negative loan, the principal repaid over the first `k` years is exactly the loan minus the balance in year `k` |
| Forecast.ResidualAfterYear | frontend/src/lib/calculations/forecast.ts:44-54 | at a positive rate one year of payments leaves a positive balance, because twelve monthly-compounded payments minus simple annual interest fall short of the balance |
| Forecast.PositiveRateLeavesResidual | frontend/src/lib/calculations/forecast.ts:24-76 | with a positive loan and positive rates, every row, the last one included, has a positive balance |
| Forecast.ZeroRateYear | frontend/src/lib/calculations/forecast.ts:41-54 | at a zero rate a year repays exactly one remaining year's share of the balance |
| Forecast.ZeroRateStraightLine | frontend/src/lib/calculations/forecast.ts:24-76 | for a non-negative loan at a zero rate, with no bump, the balance in year `i` is the loan scaled by `(years − i)/years` |
| Forecast.ZeroRateRepaid | frontend/src/lib/calculations/forecast.ts:24-76 | for a non-negative loan at a zero rate, with no bump, the loan is exactly repaid in the final year |
| Forecast.ZeroLoanInvariant | frontend/src/lib/calculations/propertyCosts.ts:52-59 | a deposit covering the price with no mortgage insurance gives no loan, no repayment and a zero balance in every forecast row |
| Sensitivity.ScenarioCosts | frontend/src/lib/calculations/sensitivity.ts:12-32 | the preset scenario's snapshot moves the price and rate by the offsets, takes the unclamped loan, moves the upfront cash by exactly the price offset, and keeps every other figure of the base: deposit, base loan, LVR, fees, insurance, benefits, duty, name, jurisdiction, maintenance percentage, council and water rates and the other running costs; the payment, maintenance and monthly total are recomputed for the new loan, rate and price |
| Sensitivity.ScenarioMonthlyConsistent | frontend/src/lib/calculations/sensitivity.ts:16-29 | the scenario snapshot's monthly figures are consistent with its own loan, rate and price |
| Sensitivity.CalculateScenario | frontend/src/lib/calculations/sensitivity.ts:5-44 | the result reports the offsets, the scenario's monthly total, the base upfront cash plus the price offset, and the net position in year 10 of a 30-year forecast of the scenario |
| Sensitivity.ScenarioZeroIsNoOp | frontend/src/lib/calculations/sensitivity.ts:5-44 | with no offsets and a deposit not above the price, the scenario snapshot is the base itself, so its monthly total, upfront cash and 10-year net position are the base's |
| Sensitivity.ScenarioLoanUnclamped | frontend/src/lib/calculations/sensitivity.ts:14-16 | with zero mortgage insurance, a deposit larger than the new price gives a negative scenario loan and a zero repayment |
| Sensitivity.PriceAddRaisesMonthly | frontend/src/lib/calculations/sensitivity.ts:12-19 | at an unchanged non-negative rate, raising the price never lowers the monthly total below the base's |
| Sensitivity.MaintenanceMonotone | frontend/src/lib/calculations/sensitivity.ts:17 | at a non-negative maintenance percentage, a higher price never has a lower maintenance allowance |
| Sensitivity.CustomScenarioCosts | frontend/src/lib/calculations/sensitivity.ts:53-93 | the custom snapshot moves price and rate; any price rise forfeits both grant and concession whatever its size, otherwise they are kept; a changed price scales duty in proportion (`newDuty · oldPrice = newPrice · oldDuty`), an unchanged price keeps it; benefits, duty after concession and upfront cash obey the snapshot rules; the base loan is `newPrice − deposit` with no clamp and the LVR is taken to the new price; the payment, maintenance and monthly total are recomputed; deposit, fees, insurance, name, jurisdiction, maintenance percentage, council and water rates and other running costs are the base's |
| Sensitivity.ScaledDutyProportional | frontend/src/lib/calculations/sensitivity.ts:56-58 | a non-zero price change scales the duty so that new duty × old price equals new price × old duty |
| Sensitivity.CustomLoanUnclamped | frontend/src/lib/calculations/sensitivity.ts:67-71 | with no insurance and a deposit above a positive new price, the custom base loan, total loan and LVR are negative and the repayment is 0 |
| Sensitivity.CalculateCustomScenario | frontend/src/lib/calculations/sensitivity.ts:46-107 | the result carries the base and the custom snapshot, each with its 30-year forecast at the given growth and rate bump, and the three differences are scenario minus base |
| Sensitivity.CustomScenarioConsistent | frontend/src/lib/calculations/sensitivity.ts:53-93 | from a consistent base, with a positive new price not below the deposit, the custom snapshot is itself consistent in loan, upfront and monthly figures |
| Sensitivity.CustomZeroIsNoOp | frontend/src/lib/calculations/sensitivity.ts:46-107 | with no offsets, a positive price and a deposit not above it, the custom snapshot is the base and all three differences are zero |
| Sensitivity.CustomUpfrontJump | frontend/src/lib/calculations/sensitivity.ts:56-65 | any price rise raises the upfront cash by at least the forfeited grant |
| Sensitivity.ScaledDutyGrows | frontend/src/lib/calculations/sensitivity.ts:56-58 | duty scaled by a rising price is never less than the original duty |
| Sensitivity.PresetMatchesCustomMonthly | frontend/src/lib/calculations/sensitivity.ts:12-74 | for the same offsets, the preset and custom scenarios agree on loan, repayment and monthly total (they can differ in upfront and duty figures and in base loan and LVR) |
| CostOfLiving.TransportCost | frontend/src/lib/calculations/costOfLiving.ts:14-33 | driving costs a return trip's fuel plus a day's parking for every commuting day, at 52/12 weeks a month; transit is the pass; the mix is the pass plus driving on at most three days |
| CostOfLiving.DrivingCostPerDay | frontend/src/lib/calculations/costOfLiving.ts:19-21 | fuel plus parking is the number of days times the month's weeks times one day's return fuel and parking |
| CostOfLiving.CommuteHours | frontend/src/lib/calculations/costOfLiving.ts:35-40 | weekly hours are two trips' minutes on every commuting day, divided by 60; a year is 52 weeks and ten years is 520 weeks |
| CostOfLiving.CalculateCostOfLiving | frontend/src/lib/calculations/costOfLiving.ts:71-125 | the partner's commute is counted exactly when there is a partner with a positive distance; transport covers both commutes; the all-in total adds living expenses and the property; annual and ten-year figures are 12 and 120 months; commute distances and hours are the primary's |
| CostOfLiving.Summary | frontend/src/lib/calculations/costOfLiving.ts:193-211 | a location's summary carries its label, property cost and living expenses, the transport cost of its commute and that commute's yearly hours; its monthly total is property plus transport plus living, and its annual total is twelve of those |
| CostOfLiving.CalculateLocationComparison | frontend/src/lib/calculations/costOfLiving.ts:159-225 | A is costed from its snapshot and B from the shared loan settings; each keeps its label and the yearly hours of its own commute, so the commute-time difference is B's hours minus A's; each annual total is twelve monthly totals; the savings are the size of the gap between the totals; the cheaper option is "same" exactly when the gap is under one dollar, otherwise the location with the smaller total |
| CostOfLiving.CommuteCostExample | frontend/src/lib/calculations/costOfLiving.ts:14-22 | 15 km, five days a week, driving at 0.85 a km with no parking costs exactly 552.5 a month |
| CostOfLiving.MixDominatesTransit | frontend/src/lib/calculations/costOfLiving.ts:24-32 | with non-negative costs, the mix never costs less than transit alone |
| CostOfLiving.MixCapsDrivingDays | frontend/src/lib/calculations/costOfLiving.ts:28-32 | the mix drives on at most three days: above three commuting days it costs the same as exactly three; at three or fewer it is transit plus driving every day |
| CostOfLiving.PartnerIgnoredWithoutCommute | frontend/src/lib/calculations/costOfLiving.ts:84-96 | without a partner, or with no positive partner distance, the partner's commute settings do not change the result |
| CostOfLiving.LocationBMatchesCostModel | frontend/src/lib/calculations/costOfLiving.ts:173-178 | location B's monthly property cost is the monthly total of a full cost snapshot with the same price, deposits, insurance, loan settings and running costs |
| CostOfLiving.LocationAMatchesCostOfLiving | frontend/src/lib/calculations/costOfLiving.ts:161-200 | for a household with no partner commute, location A's monthly total and yearly commute hours are the all-in total and commute hours the cost-of-living calculation gives for the same home, commute and living expenses |
| CostOfLiving.ComparisonIgnoresStampDuty | frontend/src/lib/calculations/costOfLiving.ts:159-225 | the comparison's stamp duty input has no effect on the result |

## Left out

- IEEE-754 behaviour is not modelled: rounding, `NaN` and `Infinity`. Numbers are exact reals. Each division the source can perform by zero is a precondition instead (`PaymentDefined`, `ForecastDefined`, `CustomDefined`, the non-zero new price of the custom scenario).
- Forecast.ForecastDefined: requires the base rate, and for horizons of two years or more the bumped rate, to differ from −2400 %. It does so even when there is no loan or the loan is already repaid, where the source never computes a payment (`forecast.ts:36`). This is a slight over-requirement, kept so that the precondition does not depend on the balances.
- Loan terms and forecast horizons are natural numbers. Fractional and negative terms are not modelled, nor are `years × 12` months that are not whole.
- The default arguments of `calculateForecast` (30 years, 5 % growth, 0.5 % bump) are not modelled: callers in the model always pass all arguments.
- The `?? 0` fallback in `calculateScenario`'s year-10 net position is not modelled. The forecast always has 31 rows, so row 10 always exists.
- `growthOverride` of the scenario presets is data only: no calculation reads it, so the model keeps it in `Defaults.Preset` and nothing uses it.
- `DEFAULT_INPUTS` and `CHART_KEY_YEARS` in the defaults file are not read by any calculation and are not modelled.
- The benefits lookup's network fetch and caching are not modelled: the live table is an optional parameter of `GetStateBenefits`. Also not modelled, being outside the calculation core:
  - the reactive store and hooks;
  - the PDF report and number formatting;
  - the backend.
- Mortgage.MonthlyPayment: the repayment on 500 000 at 6 % over 30 years (about 2997.75) is not evaluated. `1.005^360` as an exact rational is far too large to compute during verification. Monotonicity of the payment in the rate is not stated either.
- Sensitivity.PriceAddRaisesMonthly: proved only when the deposit does not exceed the base price. Above that, the unclamped scenario loan can be negative where the base loan is clamped to zero.
