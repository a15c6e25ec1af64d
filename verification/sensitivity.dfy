/**
 * What-if analysis on a cost snapshot: a preset perturbation of price and
 * rate that keeps every other figure of the snapshot, and a custom
 * perturbation that also rescales stamp duty and withdraws first-home
 * benefits when the price rises. Both run a 30-year forecast and report
 * the net position at year 10.
 */
module Sensitivity {
  import opened Numeric
  import opened Types
  import opened Mortgage
  import opened Forecast
  import opened PropertyCostModel

  /** Both what-if calculations forecast 30 years and read the net position of year 10. */
  const Horizon: nat := 30
  const ReportYear: nat := 10

  /** The perturbed loan: the new price less the deposit plus insurance, with no clamp at zero. */
  function PerturbedLoan(base: PropertyCosts, priceAdd: real): real
  {
    base.purchasePrice + priceAdd - base.totalDeposit + base.lmi
  }

  /** The inputs on which a preset perturbation is a number: its payment and its forecast are defined. */
  predicate ScenarioDefined(base: PropertyCosts, priceAdd: real, rateAdd: real, rateBump: real)
  {
    && PaymentDefined(PerturbedLoan(base, priceAdd), base.interestRate + rateAdd, base.loanTerm)
    && ForecastDefined(base.interestRate + rateAdd, rateBump, Horizon)
  }

  /** The snapshot a preset perturbation forecasts: price, rate, loan and monthly figures change, nothing else. */
  function ScenarioCosts(base: PropertyCosts, priceAdd: real, rateAdd: real): (s: PropertyCosts)
    requires PaymentDefined(PerturbedLoan(base, priceAdd), base.interestRate + rateAdd, base.loanTerm)
    ensures s.purchasePrice == base.purchasePrice + priceAdd
    ensures s.interestRate == base.interestRate + rateAdd
    ensures s.totalLoan == base.purchasePrice + priceAdd - base.totalDeposit + base.lmi
    ensures s.upfrontCashNeeded == base.upfrontCashNeeded + priceAdd
    // the deposit, fees, benefits, duty and the other running costs are the base's
    ensures s.totalDeposit == base.totalDeposit && s.baseLoan == base.baseLoan && s.lvr == base.lvr
    ensures s.firstHomeGrant == base.firstHomeGrant && s.stampDutyConcession == base.stampDutyConcession
    ensures s.stampDutyBefore == base.stampDutyBefore && s.stampDutyAfter == base.stampDutyAfter
    ensures s.monthlyRates == base.monthlyRates && s.monthlyStrata == base.monthlyStrata
    ensures s.monthlyInsurance == base.monthlyInsurance && s.loanTerm == base.loanTerm
    ensures s.otherUpfront == base.otherUpfront && s.lmi == base.lmi && s.totalBenefits == base.totalBenefits
    // every other figure is copied from the base snapshot
    ensures s.propertyName == base.propertyName && s.state == base.state
    ensures s.maintenancePercent == base.maintenancePercent
    ensures s.councilRates == base.councilRates && s.waterRates == base.waterRates
    // the monthly figures are recomputed for the new loan, rate and price
    ensures s.monthlyMortgage == MonthlyPayment(s.totalLoan, s.interestRate, s.loanTerm)
    ensures s.monthlyMaintenance == MonthlyMaintenance(s.purchasePrice, s.maintenancePercent)
    ensures s.totalMonthly == s.monthlyMortgage + s.monthlyRates + s.monthlyStrata + s.monthlyInsurance + s.monthlyMaintenance
    ensures s.annualCosts == 12.0 * s.totalMonthly
  {
    var newPrice := base.purchasePrice + priceAdd;
    var newRate := base.interestRate + rateAdd;
    var loanAmount := newPrice - base.totalDeposit + base.lmi;
    var monthlyPmt := MonthlyPayment(loanAmount, newRate, base.loanTerm);
    var monthlyMaintenance := MonthlyMaintenance(newPrice, base.maintenancePercent);
    var totalMonthly := monthlyPmt + base.monthlyRates + base.monthlyStrata + base.monthlyInsurance + monthlyMaintenance;
    base.(
      purchasePrice := newPrice,
      totalLoan := loanAmount,
      monthlyMortgage := monthlyPmt,
      monthlyMaintenance := monthlyMaintenance,
      totalMonthly := totalMonthly,
      annualCosts := totalMonthly * 12.0,
      interestRate := newRate,
      upfrontCashNeeded := base.upfrontCashNeeded + priceAdd
    )
  }

  /** `calculateScenario`: the headline figures of a preset perturbation. */
  function CalculateScenario(base: PropertyCosts, priceAdd: real, rateAdd: real, growth: real, rateBump: real): (r: ScenarioResult)
    requires ScenarioDefined(base, priceAdd, rateAdd, rateBump)
    ensures r.name == "" && r.priceAdd == priceAdd && r.rateAdd == rateAdd
    ensures r.upfrontCash == base.upfrontCashNeeded + priceAdd
    ensures r.totalMonthly == ScenarioCosts(base, priceAdd, rateAdd).totalMonthly
    ensures r.netPosition10yr == CalculateForecast(ScenarioCosts(base, priceAdd, rateAdd), Horizon, growth, rateBump)[ReportYear].netPosition
  {
    var s := ScenarioCosts(base, priceAdd, rateAdd);
    var fc := CalculateForecast(s, Horizon, growth, rateBump);
    ScenarioResult(
      name := "",
      priceAdd := priceAdd,
      rateAdd := rateAdd,
      totalMonthly := s.totalMonthly,
      upfrontCash := s.upfrontCashNeeded,
      netPosition10yr := fc[ReportYear].netPosition
    )
  }

  /**
   * A preset perturbation keeps the snapshot's monthly invariants: its
   * payment is the mortgage payment on the perturbed loan at the perturbed
   * rate, and its totals add up.
   */
  lemma ScenarioMonthlyConsistent(base: PropertyCosts, priceAdd: real, rateAdd: real)
    requires MonthlyConsistent(base)
    requires PaymentDefined(PerturbedLoan(base, priceAdd), base.interestRate + rateAdd, base.loanTerm)
    ensures MonthlyConsistent(ScenarioCosts(base, priceAdd, rateAdd))
  {
  }

  /**
   * The unperturbed preset reproduces a consistent snapshot whose deposit
   * does not exceed the price: same snapshot, same monthly total, same
   * upfront cash, same year-10 net position.
   */
  lemma ScenarioZeroIsNoOp(base: PropertyCosts, growth: real, rateBump: real)
    requires Consistent(base) && base.totalDeposit <= base.purchasePrice
    requires ForecastDefined(base.interestRate, rateBump, Horizon)
    ensures ScenarioDefined(base, 0.0, 0.0, rateBump)
    ensures ScenarioCosts(base, 0.0, 0.0) == base
    ensures var r := CalculateScenario(base, 0.0, 0.0, growth, rateBump);
      && r.totalMonthly == base.totalMonthly
      && r.upfrontCash == base.upfrontCashNeeded
      && r.netPosition10yr == CalculateForecast(base, Horizon, growth, rateBump)[ReportYear].netPosition
  {
    assert ScenarioCosts(base, 0.0, 0.0) == base;
  }

  /**
   * The preset loan is not clamped: when the deposit exceeds the new price
   * and there is no insurance, the scenario carries a negative loan (which
   * the payment treats as no loan), unlike the snapshot built from inputs.
   */
  lemma ScenarioLoanUnclamped(base: PropertyCosts, priceAdd: real, rateAdd: real)
    requires base.lmi == 0.0 && base.totalDeposit > base.purchasePrice + priceAdd
    ensures PaymentDefined(PerturbedLoan(base, priceAdd), base.interestRate + rateAdd, base.loanTerm)
    ensures ScenarioCosts(base, priceAdd, rateAdd).totalLoan < 0.0
    ensures ScenarioCosts(base, priceAdd, rateAdd).monthlyMortgage == 0.0
  {
  }

  /**
   * At an unchanged, non-negative rate a dearer house never lowers the
   * monthly total, as long as the base deposit did not exceed the price
   * and the maintenance percentage is non-negative.
   */
  lemma PriceAddRaisesMonthly(base: PropertyCosts, priceAdd: real)
    requires Consistent(base) && base.totalDeposit <= base.purchasePrice
    requires priceAdd >= 0.0 && base.interestRate >= 0.0 && base.loanTerm >= 1 && base.maintenancePercent >= 0.0
    ensures PaymentDefined(PerturbedLoan(base, priceAdd), base.interestRate, base.loanTerm)
    ensures ScenarioCosts(base, priceAdd, 0.0).totalMonthly >= base.totalMonthly
  {
    var s := ScenarioCosts(base, priceAdd, 0.0);
    PaymentMonotone(base.totalLoan, s.totalLoan, base.interestRate, base.loanTerm);
    MaintenanceMonotone(base.purchasePrice, s.purchasePrice, base.maintenancePercent);
  }

  /** The maintenance allowance grows with the price when the percentage is non-negative. */
  lemma MaintenanceMonotone(p1: real, p2: real, pct: real)
    requires p1 <= p2 && pct >= 0.0
    ensures MonthlyMaintenance(p1, pct) <= MonthlyMaintenance(p2, pct)
  {
    MulLeftMono(pct, p2, p1);
    assert p1 * pct <= p2 * pct;
  }

  /** The inputs on which a custom perturbation is a number. */
  predicate CustomDefined(base: PropertyCosts, priceIncrease: real, rateIncrease: real, rateBump: real)
  {
    // the duty is rescaled by newPrice / oldPrice, and the ratio is reported as totalLoan / newPrice
    && (priceIncrease != 0.0 ==> base.purchasePrice != 0.0)
    && base.purchasePrice + priceIncrease != 0.0
    && PaymentDefined(PerturbedLoan(base, priceIncrease), base.interestRate + rateIncrease, base.loanTerm)
    && ForecastDefined(base.interestRate, rateBump, Horizon)
    && ForecastDefined(base.interestRate + rateIncrease, rateBump, Horizon)
  }

  /** Stamp duty in proportion to the price, and unchanged when the price is. */
  function ScaledStampDuty(base: PropertyCosts, priceIncrease: real): real
    requires priceIncrease != 0.0 ==> base.purchasePrice != 0.0
  {
    if priceIncrease == 0.0 then base.stampDutyBefore
    else ((base.purchasePrice + priceIncrease) / base.purchasePrice) * base.stampDutyBefore
  }

  /** A changed price scales the duty so that it stands to the new price as the old duty to the old price. */
  lemma ScaledDutyProportional(base: PropertyCosts, priceIncrease: real)
    requires priceIncrease != 0.0 ==> base.purchasePrice != 0.0
    ensures priceIncrease != 0.0 ==>
      ScaledStampDuty(base, priceIncrease) * base.purchasePrice == (base.purchasePrice + priceIncrease) * base.stampDutyBefore
  {
    if priceIncrease != 0.0 {
      var price, newPrice, duty := base.purchasePrice, base.purchasePrice + priceIncrease, base.stampDutyBefore;
      DivMul(newPrice, price);
      assert ((newPrice / price) * duty) * price == ((newPrice / price) * price) * duty;
    }
  }

  /**
   * The snapshot of a custom perturbation: a rise in price rescales duty and
   * forfeits the grant and the concession; the loan, its ratio, the upfront
   * cash and the monthly figures are recomputed.
   */
  function CustomScenarioCosts(base: PropertyCosts, priceIncrease: real, rateIncrease: real): (s: PropertyCosts)
    requires priceIncrease != 0.0 ==> base.purchasePrice != 0.0
    requires base.purchasePrice + priceIncrease != 0.0
    requires PaymentDefined(PerturbedLoan(base, priceIncrease), base.interestRate + rateIncrease, base.loanTerm)
    ensures s.purchasePrice == base.purchasePrice + priceIncrease
    ensures s.interestRate == base.interestRate + rateIncrease
    // first-home benefits survive only when the price does not rise
    ensures priceIncrease > 0.0 ==> s.firstHomeGrant == 0.0 && s.stampDutyConcession == 0.0
    ensures priceIncrease <= 0.0 ==>
      s.firstHomeGrant == base.firstHomeGrant && s.stampDutyConcession == base.stampDutyConcession
    // the deposit, fees and the other running costs are the base's
    ensures s.totalDeposit == base.totalDeposit && s.otherUpfront == base.otherUpfront && s.lmi == base.lmi
    ensures s.monthlyRates == base.monthlyRates && s.monthlyStrata == base.monthlyStrata
    ensures s.monthlyInsurance == base.monthlyInsurance && s.loanTerm == base.loanTerm
    // every other figure is copied from the base snapshot
    ensures s.propertyName == base.propertyName && s.state == base.state
    ensures s.maintenancePercent == base.maintenancePercent
    ensures s.councilRates == base.councilRates && s.waterRates == base.waterRates
    // duty in proportion to the price, and unchanged when the price is
    ensures priceIncrease == 0.0 ==> s.stampDutyBefore == base.stampDutyBefore
    ensures priceIncrease != 0.0 ==> s.stampDutyBefore * base.purchasePrice == s.purchasePrice * base.stampDutyBefore
    // benefits, duty after concession and upfront cash follow the rules of a snapshot built from inputs
    ensures UpfrontConsistent(s)
    // the loan is not clamped at zero, and its ratio is always taken to the new price
    ensures s.baseLoan == s.purchasePrice - s.totalDeposit && s.totalLoan == s.baseLoan + s.lmi
    ensures s.lvr == (s.totalLoan / s.purchasePrice) * 100.0
    // the monthly figures are recomputed for the new loan, rate and price
    ensures s.monthlyMortgage == MonthlyPayment(s.totalLoan, s.interestRate, s.loanTerm)
    ensures s.monthlyMaintenance == MonthlyMaintenance(s.purchasePrice, s.maintenancePercent)
    ensures s.totalMonthly == s.monthlyMortgage + s.monthlyRates + s.monthlyStrata + s.monthlyInsurance + s.monthlyMaintenance
    ensures s.annualCosts == 12.0 * s.totalMonthly
  {
    var newPrice := base.purchasePrice + priceIncrease;
    ScaledDutyProportional(base, priceIncrease);
    var scaledStamp := ScaledStampDuty(base, priceIncrease);
    var stampConcession := if priceIncrease > 0.0 then 0.0 else base.stampDutyConcession;
    var grantToUse := if priceIncrease > 0.0 then 0.0 else base.firstHomeGrant;
    var stampAfterConcession := Max0(scaledStamp - stampConcession);
    var upfrontNeeded := base.totalDeposit + stampAfterConcession + base.otherUpfront - grantToUse;
    var baseLoan := newPrice - base.totalDeposit;
    var totalLoan := baseLoan + base.lmi;
    var newRate := base.interestRate + rateIncrease;
    var monthlyPmt := MonthlyPayment(totalLoan, newRate, base.loanTerm);
    var monthlyMaintenance := MonthlyMaintenance(newPrice, base.maintenancePercent);
    var totalMonthly := monthlyPmt + base.monthlyRates + base.monthlyStrata + base.monthlyInsurance + monthlyMaintenance;
    base.(
      purchasePrice := newPrice,
      baseLoan := baseLoan,
      totalLoan := totalLoan,
      lvr := (totalLoan / newPrice) * 100.0,
      stampDutyBefore := scaledStamp,
      stampDutyAfter := stampAfterConcession,
      stampDutyConcession := stampConcession,
      firstHomeGrant := grantToUse,
      totalBenefits := grantToUse + stampConcession,
      upfrontCashNeeded := upfrontNeeded,
      monthlyMortgage := monthlyPmt,
      monthlyMaintenance := monthlyMaintenance,
      totalMonthly := totalMonthly,
      annualCosts := totalMonthly * 12.0,
      interestRate := newRate
    )
  }

  /** The result of `calculateCustomScenario`. */
  datatype CustomScenarioResult = CustomScenarioResult(
    base: PropertyCosts,
    scenario: PropertyCosts,
    baseForecast: seq<ForecastRow>,
    scenarioForecast: seq<ForecastRow>,
    monthlyDiff: real,
    upfrontDiff: real,
    netPosition10yrDiff: real
  )

  /** `calculateCustomScenario`: both snapshots, both 30-year forecasts and three differences. */
  function CalculateCustomScenario(base: PropertyCosts, priceIncrease: real, rateIncrease: real, growth: real, rateBump: real): (r: CustomScenarioResult)
    requires CustomDefined(base, priceIncrease, rateIncrease, rateBump)
    ensures r.base == base && r.scenario == CustomScenarioCosts(base, priceIncrease, rateIncrease)
    ensures r.baseForecast == CalculateForecast(base, Horizon, growth, rateBump)
    ensures r.scenarioForecast == CalculateForecast(r.scenario, Horizon, growth, rateBump)
    ensures |r.baseForecast| == Horizon + 1 && |r.scenarioForecast| == Horizon + 1
    ensures r.monthlyDiff == r.scenario.totalMonthly - base.totalMonthly
    ensures r.upfrontDiff == r.scenario.upfrontCashNeeded - base.upfrontCashNeeded
    ensures r.netPosition10yrDiff == r.scenarioForecast[ReportYear].netPosition - r.baseForecast[ReportYear].netPosition
  {
    var s := CustomScenarioCosts(base, priceIncrease, rateIncrease);
    var baseFc := CalculateForecast(base, Horizon, growth, rateBump);
    var scenarioFc := CalculateForecast(s, Horizon, growth, rateBump);
    CustomScenarioResult(
      base := base,
      scenario := s,
      baseForecast := baseFc,
      scenarioForecast := scenarioFc,
      monthlyDiff := s.totalMonthly - base.totalMonthly,
      upfrontDiff := s.upfrontCashNeeded - base.upfrontCashNeeded,
      netPosition10yrDiff := scenarioFc[ReportYear].netPosition - baseFc[ReportYear].netPosition
    )
  }

  /**
   * A custom perturbation to a price that is positive and covers the
   * deposit yields a snapshot with every invariant of one built from
   * inputs, given a consistent base.
   */
  lemma CustomScenarioConsistent(base: PropertyCosts, priceIncrease: real, rateIncrease: real)
    requires Consistent(base)
    requires priceIncrease != 0.0 ==> base.purchasePrice != 0.0
    requires base.purchasePrice + priceIncrease > 0.0
    requires base.purchasePrice + priceIncrease >= base.totalDeposit
    requires PaymentDefined(PerturbedLoan(base, priceIncrease), base.interestRate + rateIncrease, base.loanTerm)
    ensures Consistent(CustomScenarioCosts(base, priceIncrease, rateIncrease))
  {
  }

  /**
   * The unperturbed custom scenario of a consistent snapshot with a
   * positive price covering the deposit is the snapshot itself, so all
   * three differences are zero.
   */
  lemma CustomZeroIsNoOp(base: PropertyCosts, growth: real, rateBump: real)
    requires Consistent(base) && base.purchasePrice > 0.0 && base.totalDeposit <= base.purchasePrice
    requires ForecastDefined(base.interestRate, rateBump, Horizon)
    ensures CustomDefined(base, 0.0, 0.0, rateBump)
    ensures CustomScenarioCosts(base, 0.0, 0.0) == base
    ensures var r := CalculateCustomScenario(base, 0.0, 0.0, growth, rateBump);
      r.monthlyDiff == 0.0 && r.upfrontDiff == 0.0 && r.netPosition10yrDiff == 0.0
  {
    assert CustomScenarioCosts(base, 0.0, 0.0) == base;
  }

  /**
   * Any rise in price forfeits the first-home benefits: with a positive
   * base price, non-negative duty and non-negative benefits, the upfront
   * cash rises by at least the grant that is lost.
   */
  lemma CustomUpfrontJump(base: PropertyCosts, priceIncrease: real, rateIncrease: real)
    requires UpfrontConsistent(base)
    requires priceIncrease > 0.0 && base.purchasePrice > 0.0
    requires base.stampDutyBefore >= 0.0 && base.stampDutyConcession >= 0.0
    requires PaymentDefined(PerturbedLoan(base, priceIncrease), base.interestRate + rateIncrease, base.loanTerm)
    ensures CustomScenarioCosts(base, priceIncrease, rateIncrease).upfrontCashNeeded
         >= base.upfrontCashNeeded + base.firstHomeGrant
  {
    ScaledDutyGrows(base.purchasePrice, priceIncrease, base.stampDutyBefore);
    var s := CustomScenarioCosts(base, priceIncrease, rateIncrease);
    assert s.stampDutyBefore == ScaledStampDuty(base, priceIncrease) >= base.stampDutyBefore;
    assert s.stampDutyConcession == 0.0 && s.stampDutyAfter == Max0(s.stampDutyBefore);
    assert s.stampDutyAfter >= base.stampDutyBefore >= base.stampDutyAfter;
  }

  /** Duty scaled to a dearer price is at least the original duty. */
  lemma ScaledDutyGrows(price: real, increase: real, duty: real)
    requires price > 0.0 && increase > 0.0 && duty >= 0.0
    ensures ((price + increase) / price) * duty >= duty
  {
    var q := (price + increase) / price;
    DivMul(price + increase, price);
    if q <= 1.0 {
      MulLeftMono(price, 1.0, q);
    }
    MulLeftMono(duty, q, 1.0);
  }

  /**
   * The custom loan is not clamped either: a deposit above a positive new
   * price, with no insurance, gives a negative base loan, a negative
   * loan-to-value ratio and no repayment.
   */
  lemma CustomLoanUnclamped(base: PropertyCosts, priceIncrease: real, rateIncrease: real)
    requires priceIncrease != 0.0 ==> base.purchasePrice != 0.0
    requires base.lmi == 0.0 && base.totalDeposit > base.purchasePrice + priceIncrease > 0.0
    ensures PaymentDefined(PerturbedLoan(base, priceIncrease), base.interestRate + rateIncrease, base.loanTerm)
    ensures var s := CustomScenarioCosts(base, priceIncrease, rateIncrease);
      s.baseLoan < 0.0 && s.totalLoan < 0.0 && s.lvr < 0.0 && s.monthlyMortgage == 0.0
  {
    var s := CustomScenarioCosts(base, priceIncrease, rateIncrease);
    NegativeRatio(s.totalLoan, s.purchasePrice);
  }

  lemma NegativeRatio(a: real, b: real)
    requires a < 0.0 && b > 0.0
    ensures (a / b) * 100.0 < 0.0
  {
  }

  /**
   * The preset and the custom perturbation agree on the loan, the payment
   * and the monthly total. They differ in the upfront and duty figures, and
   * in the base loan and loan-to-value ratio, which the preset keeps from
   * the base snapshot and the custom path recomputes.
   */
  lemma PresetMatchesCustomMonthly(base: PropertyCosts, priceAdd: real, rateAdd: real)
    requires priceAdd != 0.0 ==> base.purchasePrice != 0.0
    requires base.purchasePrice + priceAdd != 0.0
    requires PaymentDefined(PerturbedLoan(base, priceAdd), base.interestRate + rateAdd, base.loanTerm)
    ensures ScenarioCosts(base, priceAdd, rateAdd).totalMonthly == CustomScenarioCosts(base, priceAdd, rateAdd).totalMonthly
    ensures ScenarioCosts(base, priceAdd, rateAdd).monthlyMortgage == CustomScenarioCosts(base, priceAdd, rateAdd).monthlyMortgage
    ensures ScenarioCosts(base, priceAdd, rateAdd).totalLoan == CustomScenarioCosts(base, priceAdd, rateAdd).totalLoan
  {
  }
}
