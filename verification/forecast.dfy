/**
 * The yearly forecast: row 0 is seeded from a cost snapshot and every later
 * row is derived from the row before it. Each year the rate follows a
 * one-step schedule, the property value compounds, and the remaining
 * balance is re-amortised over what is left of the forecast horizon.
 */
module Forecast {
  import opened Numeric
  import opened Types
  import opened Mortgage
  import PropertyCostModel

  /**
   * The forecast divides by the annuity denominator at the year-1 rate and,
   * from year 2 on, at the bumped rate; both must avoid -2400% (see
   * `Mortgage.PaymentDefined`).
   */
  predicate ForecastDefined(baseRate: real, rateBump: real, years: nat)
  {
    baseRate != -2400.0 && (years >= 2 ==> baseRate + rateBump != -2400.0)
  }

  /** The rate in effect in forecast year `year` (1-based): a one-time step after year 1. */
  function EffectiveRate(baseRate: real, rateBump: real, year: nat): real
    requires year >= 1
  {
    if year == 1 then baseRate else baseRate + rateBump
  }

  /** Row 0, taken straight from the snapshot. */
  function SeedRow(c: PropertyCosts): ForecastRow
  {
    ForecastRow(
      year := 0,
      interestRate := c.interestRate,
      propertyValue := c.purchasePrice,
      loanBalance := c.totalLoan,
      equity := c.purchasePrice - c.totalLoan,
      principalPaid := 0.0,
      interestPaid := 0.0,
      cumulativeCost := c.upfrontCashNeeded,
      netPosition := c.purchasePrice - c.upfrontCashNeeded
    )
  }

  /**
   * The monthly payment of one forecast year, written out in the forecast
   * itself: the balance spread evenly over the remaining months at a zero
   * rate, the annuity formula otherwise.
   */
  function ReamortisedPayment(balance: real, rate: real, remainingYears: nat): real
    requires remainingYears >= 1 && rate != -2400.0
  {
    var monthlyRate := MonthlyRate(rate);
    var remainingMonths := remainingYears * 12;
    if monthlyRate == 0.0 then balance / (remainingMonths as real)
    else
      DenominatorNonZero(rate, remainingYears);
      Annuity(balance, monthlyRate, remainingMonths)
  }

  /** For a positive balance the forecast's own payment is exactly the mortgage payment. */
  lemma ReamortisedMatchesMortgage(balance: real, rate: real, remainingYears: nat)
    requires balance > 0.0 && remainingYears >= 1 && rate != -2400.0
    ensures ReamortisedPayment(balance, rate, remainingYears) == MonthlyPayment(balance, rate, remainingYears)
  {
  }

  /** The loan columns of one forecast year. */
  datatype LoanYear = LoanYear(principalPaid: real, interestPaid: real, loanBalance: real)

  /**
   * One year of the loan: simple annual interest on the opening balance,
   * principal equal to a year of payments less that interest (never more
   * than the balance), and nothing at all once the balance is gone.
   */
  function LoanYearStep(prevBalance: real, rate: real, remainingYears: nat): (ly: LoanYear)
    requires remainingYears >= 1 && rate != -2400.0
    ensures ly.loanBalance >= 0.0
    ensures prevBalance <= 0.0 ==> ly == LoanYear(0.0, 0.0, 0.0)
    ensures prevBalance > 0.0 ==>
      && ly.interestPaid == prevBalance * rate / 100.0
      && ly.principalPaid <= prevBalance
      && ly.loanBalance == prevBalance - ly.principalPaid
    // a year repays twelve payments of a loan re-amortised over the years left, less the year's interest
    ensures prevBalance > 0.0 ==>
      ly.principalPaid == Min(prevBalance, MonthlyPayment(prevBalance, rate, remainingYears) * 12.0 - ly.interestPaid)
  {
    if prevBalance > 0.0 then
      ReamortisedMatchesMortgage(prevBalance, rate, remainingYears);
      var monthlyPmt := ReamortisedPayment(prevBalance, rate, remainingYears);
      var annualInterest := prevBalance * rate / 100.0;
      var annualPrincipal := Min(prevBalance, monthlyPmt * 12.0 - annualInterest);
      LoanYear(annualPrincipal, annualInterest, Max0(prevBalance - annualPrincipal))
    else
      LoanYear(0.0, 0.0, 0.0)
  }

  /** `calculateForecast`'s loop body: row `year` from row `year - 1`. */
  function Step(c: PropertyCosts, years: nat, growth: real, rateBump: real, year: nat, prev: ForecastRow): ForecastRow
    requires 1 <= year <= years && ForecastDefined(c.interestRate, rateBump, years)
  {
    var rate := EffectiveRate(c.interestRate, rateBump, year);
    var propertyValue := Grow(prev.propertyValue, growth);
    var loan := LoanYearStep(prev.loanBalance, rate, years - year + 1);
    var equity := propertyValue - loan.loanBalance;
    var annualCost := loan.principalPaid + loan.interestPaid + c.annualCosts - c.monthlyMortgage * 12.0;
    var cumulativeCost := prev.cumulativeCost + annualCost;
    ForecastRow(
      year := year,
      interestRate := rate,
      propertyValue := propertyValue,
      loanBalance := loan.loanBalance,
      equity := equity,
      principalPaid := loan.principalPaid,
      interestPaid := loan.interestPaid,
      cumulativeCost := cumulativeCost,
      netPosition := propertyValue - cumulativeCost
    )
  }

  /** Rows 0..k of a forecast over `years` years. */
  function Rows(c: PropertyCosts, years: nat, growth: real, rateBump: real, k: nat): (rows: seq<ForecastRow>)
    requires k <= years && ForecastDefined(c.interestRate, rateBump, years)
    ensures |rows| == k + 1
    ensures rows[0] == SeedRow(c)
    ensures forall i :: 0 <= i < |rows| ==> rows[i].year == i
    ensures forall i :: 0 <= i < |rows| ==>
      rows[i].equity == rows[i].propertyValue - rows[i].loanBalance &&
      rows[i].netPosition == rows[i].propertyValue - rows[i].cumulativeCost
    ensures forall i :: 1 <= i < |rows| ==> rows[i].loanBalance >= 0.0
    decreases k
  {
    if k == 0 then [SeedRow(c)]
    else
      var prev := Rows(c, years, growth, rateBump, k - 1);
      prev + [Step(c, years, growth, rateBump, k, prev[k - 1])]
  }

  /** `calculateForecast(propertyCosts, years, propertyGrowthRate, rateIncreaseYear2)`. */
  function CalculateForecast(c: PropertyCosts, years: nat, growth: real, rateBump: real): (rows: seq<ForecastRow>)
    requires ForecastDefined(c.interestRate, rateBump, years)
    ensures |rows| == years + 1
    ensures forall i :: 0 <= i < |rows| ==> rows[i].year == i
    // row 0 is the purchase itself
    ensures rows[0].interestRate == c.interestRate
    ensures rows[0].propertyValue == c.purchasePrice && rows[0].loanBalance == c.totalLoan
    ensures rows[0].principalPaid == 0.0 && rows[0].interestPaid == 0.0
    ensures rows[0].cumulativeCost == c.upfrontCashNeeded
    ensures rows[0].netPosition == c.purchasePrice - c.upfrontCashNeeded
    // identities that hold in every row
    ensures forall i :: 0 <= i < |rows| ==>
      rows[i].equity == rows[i].propertyValue - rows[i].loanBalance &&
      rows[i].netPosition == rows[i].propertyValue - rows[i].cumulativeCost
    ensures forall i :: 1 <= i < |rows| ==> rows[i].loanBalance >= 0.0
  {
    Rows(c, years, growth, rateBump, years)
  }

  /** Row `i` of the first `k + 1` rows is the loop body applied to row `i - 1`. */
  lemma {:induction false} RowsStep(c: PropertyCosts, years: nat, growth: real, rateBump: real, k: nat, i: nat)
    requires k <= years && ForecastDefined(c.interestRate, rateBump, years) && 1 <= i <= k
    ensures var rows := Rows(c, years, growth, rateBump, k);
      rows[i] == Step(c, years, growth, rateBump, i, rows[i - 1])
  {
    if i < k {
      RowsStep(c, years, growth, rateBump, k - 1, i);
      var prev := Rows(c, years, growth, rateBump, k - 1);
      assert Rows(c, years, growth, rateBump, k) == prev + [Step(c, years, growth, rateBump, k, prev[k - 1])];
    }
  }

  /** Every later row depends only on the row before it and the snapshot. */
  lemma ForecastStep(c: PropertyCosts, years: nat, growth: real, rateBump: real, i: nat)
    requires ForecastDefined(c.interestRate, rateBump, years) && 1 <= i <= years
    ensures var rows := CalculateForecast(c, years, growth, rateBump);
      rows[i] == Step(c, years, growth, rateBump, i, rows[i - 1])
  {
    RowsStep(c, years, growth, rateBump, years, i);
  }

  /** Every row after row 0 carries the year-1 rate in year 1 and the bumped rate afterwards. */
  lemma RateSchedule(c: PropertyCosts, years: nat, growth: real, rateBump: real, i: nat)
    requires ForecastDefined(c.interestRate, rateBump, years) && 1 <= i <= years
    ensures CalculateForecast(c, years, growth, rateBump)[i].interestRate
         == (if i == 1 then c.interestRate else c.interestRate + rateBump)
  {
    var rows := CalculateForecast(c, years, growth, rateBump);
    ForecastStep(c, years, growth, rateBump, i);
  }

  /** One year of capital growth at `growth` percent. */
  function Grow(value: real, growth: real): real
  {
    value * (1.0 + growth / 100.0)
  }

  /** The price after `n` years of growth, year by year: the reference for the value column. */
  function Compound(price: real, growth: real, n: nat): real
  {
    if n == 0 then price else Grow(Compound(price, growth, n - 1), growth)
  }

  /** Compounding year by year is the closed form price * (1 + growth/100)^n. */
  lemma {:induction false} CompoundClosedForm(price: real, growth: real, n: nat)
    ensures Compound(price, growth, n) == price * Pow(1.0 + growth / 100.0, n)
  {
    if n > 0 {
      CompoundClosedForm(price, growth, n - 1);
      var x := 1.0 + growth / 100.0;
      var prev := Compound(price, growth, n - 1);
      assert Compound(price, growth, n) == prev * x;
      assert Pow(x, n) == x * Pow(x, n - 1);
      CompoundOnce(price, Pow(x, n - 1), x, prev, Compound(price, growth, n), Pow(x, n));
    }
  }

  /** One year of compounding on the closed form, with the power abstracted. */
  lemma CompoundOnce(price: real, p: real, x: real, prevValue: real, value: real, p': real)
    requires prevValue == price * p && value == prevValue * x && p' == x * p
    ensures value == price * p'
  {
  }

  /** The value column compounds from the purchase price: row i holds i years of growth. */
  lemma {:induction false} ValueCompounds(c: PropertyCosts, years: nat, growth: real, rateBump: real, i: nat)
    requires ForecastDefined(c.interestRate, rateBump, years) && i <= years
    ensures CalculateForecast(c, years, growth, rateBump)[i].propertyValue == Compound(c.purchasePrice, growth, i)
  {
    if i > 0 {
      ValueCompounds(c, years, growth, rateBump, i - 1);
      ForecastStep(c, years, growth, rateBump, i);
    }
  }

  /**
   * Each year's cost is the debt actually serviced plus the snapshot's
   * non-mortgage running costs, accumulated on top of the previous row.
   */
  lemma CumulativeCostStep(c: PropertyCosts, years: nat, growth: real, rateBump: real, i: nat)
    requires ForecastDefined(c.interestRate, rateBump, years) && 1 <= i <= years
    ensures var rows := CalculateForecast(c, years, growth, rateBump);
      rows[i].cumulativeCost == rows[i - 1].cumulativeCost + rows[i].principalPaid + rows[i].interestPaid
                                + c.annualCosts - 12.0 * c.monthlyMortgage
  {
    var rows := CalculateForecast(c, years, growth, rateBump);
    ForecastStep(c, years, growth, rateBump, i);
  }

  /** A repaid loan stays repaid: once a row's balance is 0 (or below), every later row has zero loan columns. */
  lemma {:induction false} InertOnceRepaid(c: PropertyCosts, years: nat, growth: real, rateBump: real, i: nat, j: nat)
    requires ForecastDefined(c.interestRate, rateBump, years)
    requires i < j <= years
    requires CalculateForecast(c, years, growth, rateBump)[i].loanBalance <= 0.0
    ensures var row := CalculateForecast(c, years, growth, rateBump)[j];
      row.loanBalance == 0.0 && row.principalPaid == 0.0 && row.interestPaid == 0.0
  {
    var rows := CalculateForecast(c, years, growth, rateBump);
    if j > i + 1 {
      InertOnceRepaid(c, years, growth, rateBump, i, j - 1);
    }
    ForecastStep(c, years, growth, rateBump, j);
  }

  /** A snapshot with no loan has zero loan columns in every later row. */
  lemma NoLoanNoLoanColumns(c: PropertyCosts, years: nat, growth: real, rateBump: real, j: nat)
    requires ForecastDefined(c.interestRate, rateBump, years)
    requires c.totalLoan <= 0.0 && 1 <= j <= years
    ensures var row := CalculateForecast(c, years, growth, rateBump)[j];
      row.loanBalance == 0.0 && row.principalPaid == 0.0 && row.interestPaid == 0.0
  {
    InertOnceRepaid(c, years, growth, rateBump, 0, j);
  }

  /** The loan columns of row `i` are one `LoanYearStep` from row `i - 1`. */
  lemma LoanColumnsStep(c: PropertyCosts, years: nat, growth: real, rateBump: real, i: nat)
    requires ForecastDefined(c.interestRate, rateBump, years) && 1 <= i <= years
    ensures var rows := CalculateForecast(c, years, growth, rateBump);
      var ly := LoanYearStep(rows[i - 1].loanBalance, EffectiveRate(c.interestRate, rateBump, i), years - i + 1);
      rows[i].loanBalance == ly.loanBalance && rows[i].principalPaid == ly.principalPaid && rows[i].interestPaid == ly.interestPaid
  {
    ForecastStep(c, years, growth, rateBump, i);
  }

  /** At a non-negative rate a year's principal lies between 0 and the opening balance. */
  lemma PrincipalWithinBalance(prevBalance: real, rate: real, remainingYears: nat)
    requires remainingYears >= 1 && rate >= 0.0 && prevBalance > 0.0
    ensures 0.0 <= LoanYearStep(prevBalance, rate, remainingYears).principalPaid <= prevBalance
  {
    var pmt := ReamortisedPayment(prevBalance, rate, remainingYears);
    ReamortisedMatchesMortgage(prevBalance, rate, remainingYears);
    var r := MonthlyRate(rate);
    assert prevBalance * rate / 100.0 == 12.0 * (prevBalance * r);
    if rate > 0.0 {
      PaymentExceedsInterest(prevBalance, rate, remainingYears);
    } else {
      PaymentPositive(prevBalance, rate, remainingYears);
    }
  }

  /** With a non-negative rate in year `i`, the balance does not grow that year. */
  lemma BalanceNonIncreasing(c: PropertyCosts, years: nat, growth: real, rateBump: real, i: nat)
    requires ForecastDefined(c.interestRate, rateBump, years) && 1 <= i <= years
    requires EffectiveRate(c.interestRate, rateBump, i) >= 0.0
    requires CalculateForecast(c, years, growth, rateBump)[i - 1].loanBalance >= 0.0
    ensures var rows := CalculateForecast(c, years, growth, rateBump);
      0.0 <= rows[i].principalPaid && rows[i].loanBalance <= rows[i - 1].loanBalance
  {
    var rows := CalculateForecast(c, years, growth, rateBump);
    ForecastStep(c, years, growth, rateBump, i);
    if rows[i - 1].loanBalance > 0.0 {
      PrincipalWithinBalance(rows[i - 1].loanBalance, EffectiveRate(c.interestRate, rateBump, i), years - i + 1);
    }
  }

  /** The principal paid in rows 1..k. */
  function TotalPrincipal(rows: seq<ForecastRow>, k: nat): real
    requires k < |rows|
  {
    if k == 0 then 0.0 else TotalPrincipal(rows, k - 1) + rows[k].principalPaid
  }

  /**
   * Principal payments add up to the reduction of the loan: the principal
   * paid in rows 1..k is the initial loan less the balance in row k.
   */
  lemma {:induction false} PrincipalTelescopes(c: PropertyCosts, years: nat, growth: real, rateBump: real, k: nat)
    requires ForecastDefined(c.interestRate, rateBump, years) && k <= years
    requires c.totalLoan >= 0.0
    ensures var rows := CalculateForecast(c, years, growth, rateBump);
      TotalPrincipal(rows, k) == c.totalLoan - rows[k].loanBalance
  {
    var rows := CalculateForecast(c, years, growth, rateBump);
    if k > 0 {
      PrincipalTelescopes(c, years, growth, rateBump, k - 1);
      ForecastStep(c, years, growth, rateBump, k);
    }
  }

  /**
   * At a positive rate a year never clears a positive balance: interest is
   * charged once a year on the opening balance while the payment is the
   * monthly-compounding annuity, so a year of payments less that interest
   * is strictly less than the balance, even in the last year of the term.
   */
  lemma ResidualAfterYear(prevBalance: real, rate: real, remainingYears: nat)
    requires prevBalance > 0.0 && rate > 0.0 && remainingYears >= 1
    ensures LoanYearStep(prevBalance, rate, remainingYears).loanBalance > 0.0
  {
    var r := MonthlyRate(rate);
    var n := remainingYears * 12;
    var pmt := ReamortisedPayment(prevBalance, rate, remainingYears);
    DenominatorNonZero(rate, remainingYears);
    AnnuityIdentity(prevBalance, r, n);
    // (1 + r)^n > 1 + n r >= 1 + 12 r
    Bernoulli(r, n);
    MulLeftMono(r, n as real, 12.0);
    ResidualBound(prevBalance, r, pmt, Pow(1.0 + r, n));
    assert prevBalance * rate / 100.0 == 12.0 * (prevBalance * r);
  }

  /** A year of annuity payments less twelve months of interest is 12 P r / (x - 1), below P when x - 1 > 12 r. */
  lemma ResidualBound(p: real, r: real, pmt: real, x: real)
    requires p > 0.0 && r > 0.0 && x - 1.0 > 12.0 * r
    requires pmt * (x - 1.0) == p * r * x
    ensures 12.0 * pmt - 12.0 * (p * r) < p
  {
    var q := 12.0 * pmt - 12.0 * (p * r);
    ResidualArith(pmt, p, r, x);
    MulLeftStrict(p, x - 1.0, 12.0 * r);
    assert p * (12.0 * r) == 12.0 * p * r;
    ProductCancel(p, q, x - 1.0);
  }

  /** The annuity identity, rearranged for a year of payments net of interest. */
  lemma ResidualArith(pmt: real, p: real, r: real, x: real)
    requires pmt * (x - 1.0) == p * r * x
    ensures (12.0 * pmt - 12.0 * (p * r)) * (x - 1.0) == 12.0 * p * r
  {
    assert (12.0 * pmt - 12.0 * (p * r)) * (x - 1.0) == 12.0 * (pmt * (x - 1.0)) - 12.0 * (p * r) * (x - 1.0);
  }

  /**
   * With a positive loan and a positive rate in every year, no row of the
   * forecast has a zero balance: the loan is never fully repaid within the
   * horizon, the final row included.
   */
  lemma {:induction false} PositiveRateLeavesResidual(c: PropertyCosts, years: nat, growth: real, rateBump: real, i: nat)
    requires c.interestRate > 0.0 && c.interestRate + rateBump > 0.0
    requires c.totalLoan > 0.0 && i <= years
    ensures CalculateForecast(c, years, growth, rateBump)[i].loanBalance > 0.0
  {
    if i > 0 {
      PositiveRateLeavesResidual(c, years, growth, rateBump, i - 1);
      ForecastStep(c, years, growth, rateBump, i);
      var rows := CalculateForecast(c, years, growth, rateBump);
      ResidualAfterYear(rows[i - 1].loanBalance, EffectiveRate(c.interestRate, rateBump, i), years - i + 1);
    }
  }

  /** At a zero rate a year repays an equal share of what is left: one remaining year in `remainingYears`. */
  lemma ZeroRateYear(prevBalance: real, rate: real, remainingYears: nat)
    requires rate == 0.0 && remainingYears >= 1 && prevBalance >= 0.0
    ensures LoanYearStep(prevBalance, rate, remainingYears).loanBalance * (remainingYears as real)
         == prevBalance * ((remainingYears - 1) as real)
  {
    if prevBalance > 0.0 {
      var m := (remainingYears * 12) as real;
      var pmt := prevBalance / m;
      assert ReamortisedPayment(prevBalance, rate, remainingYears) == pmt;
      StraightLineYear(prevBalance, pmt, remainingYears as real);
    }
  }

  /** A year of straight-line payments is the balance divided by the years left. */
  lemma StraightLineYear(p: real, pmt: real, rem: real)
    requires rem >= 1.0 && p > 0.0 && pmt == p / (rem * 12.0)
    ensures pmt * 12.0 <= p
    ensures (p - pmt * 12.0) * rem == p * (rem - 1.0)
  {
    assert pmt * (rem * 12.0) == p;
    assert pmt * 12.0 * rem == p;
    MulLeftMono(pmt * 12.0, rem, 1.0);
  }

  /** The straight-line invariant carried from one year to the next. */
  lemma StraightLineStep(newBalance: real, prevBalance: real, loan: real, rem: real, horizon: real)
    requires rem > 0.0
    requires newBalance * rem == prevBalance * (rem - 1.0)
    requires prevBalance * horizon == loan * rem
    ensures newBalance * horizon == loan * (rem - 1.0)
  {
    assert (newBalance * horizon) * rem == (newBalance * rem) * horizon;
    assert (loan * (rem - 1.0)) * rem == (loan * rem) * (rem - 1.0);
    assert (newBalance * horizon) * rem == (loan * (rem - 1.0)) * rem;
    MulCancel(newBalance * horizon, loan * (rem - 1.0), rem);
  }

  lemma MulCancel(a: real, b: real, c: real)
    requires c > 0.0 && a * c == b * c
    ensures a == b
  {
    if a < b {
      MulLeftStrict(c, b, a);
    } else if a > b {
      MulLeftStrict(c, a, b);
    }
  }

  /**
   * `balance` is what is left of `loan` after `i` of `years` equal yearly
   * shares: balance * years == loan * (years - i).
   */
  ghost predicate OnStraightLine(balance: real, loan: real, years: nat, i: nat)
  {
    balance * (years as real) == loan * ((years - i) as real)
  }

  /**
   * At a zero rate the balance falls in a straight line: after `i` of
   * `years` years, `(years - i) / years` of the loan is left.
   */
  lemma {:induction false} ZeroRateStraightLine(c: PropertyCosts, years: nat, growth: real, i: nat)
    requires c.interestRate == 0.0 && c.totalLoan >= 0.0 && i <= years
    ensures OnStraightLine(CalculateForecast(c, years, growth, 0.0)[i].loanBalance, c.totalLoan, years, i)
  {
    if i > 0 {
      ZeroRateStraightLine(c, years, growth, i - 1);
      ZeroRateRow(c, years, growth, i);
    } else {
      StraightLineStart(CalculateForecast(c, years, growth, 0.0)[0].loanBalance, c.totalLoan, years, i);
    }
  }

  /** At a zero rate, row `i` keeps the straight-line invariant of row `i - 1`. */
  lemma ZeroRateRow(c: PropertyCosts, years: nat, growth: real, i: nat)
    requires c.interestRate == 0.0 && c.totalLoan >= 0.0 && 1 <= i <= years
    requires OnStraightLine(CalculateForecast(c, years, growth, 0.0)[i - 1].loanBalance, c.totalLoan, years, i - 1)
    ensures OnStraightLine(CalculateForecast(c, years, growth, 0.0)[i].loanBalance, c.totalLoan, years, i)
  {
    LoanColumnsStep(c, years, growth, 0.0, i);
    var rows := CalculateForecast(c, years, growth, 0.0);
    ZeroRateYearKeeps(rows[i].loanBalance, rows[i - 1].loanBalance, c.totalLoan, EffectiveRate(c.interestRate, 0.0, i), years, i);
  }

  /** One zero-rate year of `LoanYearStep` keeps the straight-line invariant. */
  lemma ZeroRateYearKeeps(newBalance: real, prevBalance: real, loan: real, rate: real, years: nat, i: nat)
    requires 1 <= i <= years && rate == 0.0 && prevBalance >= 0.0
    requires newBalance == LoanYearStep(prevBalance, rate, years - i + 1).loanBalance
    requires OnStraightLine(prevBalance, loan, years, i - 1)
    ensures OnStraightLine(newBalance, loan, years, i)
  {
    ZeroRateYear(prevBalance, rate, years - i + 1);
    StraightLineBridge(newBalance, prevBalance, loan, years, i);
  }

  /** The straight-line invariant holds at the start, where nothing has been repaid. */
  lemma StraightLineStart(balance: real, loan: real, years: nat, i: nat)
    requires i == 0 && balance == loan
    ensures OnStraightLine(balance, loan, years, i)
  {
  }

  /** `StraightLineStep` with the year counts as naturals. */
  lemma StraightLineBridge(newBalance: real, prevBalance: real, loan: real, years: nat, i: nat)
    requires 1 <= i <= years
    requires newBalance * ((years - i + 1) as real) == prevBalance * ((years - i + 1 - 1) as real)
    requires OnStraightLine(prevBalance, loan, years, i - 1)
    ensures OnStraightLine(newBalance, loan, years, i)
  {
    var rem := (years - i + 1) as real;
    assert (years - i + 1 - 1) as real == rem - 1.0 == (years - i) as real;
    assert (years - (i - 1)) as real == rem;
    StraightLineStep(newBalance, prevBalance, loan, rem, years as real);
  }

  /** At a zero rate the loan is repaid exactly by the final row. */
  lemma ZeroRateRepaid(c: PropertyCosts, years: nat, growth: real)
    requires c.interestRate == 0.0 && c.totalLoan >= 0.0 && years >= 1
    ensures CalculateForecast(c, years, growth, 0.0)[years].loanBalance == 0.0
  {
    ZeroRateStraightLine(c, years, growth, years);
    var b := CalculateForecast(c, years, growth, 0.0)[years].loanBalance;
    assert b * (years as real) == 0.0;
  }

  /**
   * A deposit that covers the price with no mortgage insurance leaves no
   * loan, no repayment, and a zero balance in every row of the forecast.
   */
  lemma ZeroLoanInvariant(input: PropertyCostModel.PropertyCostsInput, years: nat, growth: real, rateBump: real, j: nat)
    requires input.yourDeposit + input.partnerDeposit >= input.purchasePrice && input.lmi == 0.0
    requires ForecastDefined(input.interestRate, rateBump, years) && j <= years
    ensures PaymentDefined(PropertyCostModel.InputLoan(input), input.interestRate, input.loanTerm)
    ensures var c := PropertyCostModel.CalculatePropertyCosts(input);
      && c.totalLoan == 0.0 && c.monthlyMortgage == 0.0
      && CalculateForecast(c, years, growth, rateBump)[j].loanBalance == 0.0
  {
    PropertyCostModel.DepositCoversPrice(input);
    var c := PropertyCostModel.CalculatePropertyCosts(input);
    if j >= 1 {
      NoLoanNoLoanColumns(c, years, growth, rateBump, j);
    }
  }
}
