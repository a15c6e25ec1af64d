/**
 * The point-in-time cost snapshot of a purchase: deposits and fees,
 * first-home benefits, the loan and its loan-to-value ratio, duty after
 * concession, the upfront cash needed and the five-part monthly cost.
 */
module PropertyCostModel {
  import opened Numeric
  import opened Types
  import opened Mortgage
  import Defaults

  /**
   * `getStateBenefits`: nothing for a buyer who is not a first-home buyer;
   * otherwise the jurisdiction's entry in the live table when one is
   * supplied, else in the static fallback table, and nothing when the
   * chosen table has no entry for the jurisdiction.
   */
  function GetStateBenefits(
    state: AustralianState,
    isFirstHome: bool,
    liveBenefits: Option<map<AustralianState, StateBenefits>>
  ): (b: StateBenefits)
    ensures !isFirstHome ==> b == NoBenefits
    ensures isFirstHome && liveBenefits.None? ==> b == Defaults.FallbackBenefits()[state]
    ensures isFirstHome && liveBenefits.Some? ==>
      b == (if state in liveBenefits.value then liveBenefits.value[state] else NoBenefits)
  {
    if !isFirstHome then NoBenefits
    else
      var source := if liveBenefits.Some? then liveBenefits.value else Defaults.FallbackBenefits();
      if state in source then source[state] else NoBenefits
  }

  /** Without a live table, a first-home buyer's benefits are never negative. */
  lemma FallbackBenefitsNonNegative(state: AustralianState, isFirstHome: bool)
    ensures GetStateBenefits(state, isFirstHome, None).grant >= 0.0
    ensures GetStateBenefits(state, isFirstHome, None).stampDutyConcession >= 0.0
  {
  }

  /** `PropertyCostsInput`: the purchase, loan and fee figures the snapshot is built from. */
  datatype PropertyCostsInput = PropertyCostsInput(
    propertyName: Option<string>,
    purchasePrice: real,
    stampDuty: real,
    lmi: real,
    state: AustralianState,
    isFirstHome: bool,
    firstHomeGrant: real,
    stampDutyConcession: real,
    yourDeposit: real,
    partnerDeposit: real,
    interestRate: real,
    loanTerm: nat,
    councilRates: real,
    waterRates: real,
    strataFees: real,
    insurance: real,
    maintenancePercent: real,
    legalFees: real,
    inspection: real,
    loanApplication: real,
    valuation: real,
    mortgageReg: real,
    titleFees: real,
    moving: real,
    repairs: real
  )

  /** The sum of the eight one-off acquisition fees. */
  function OtherUpfront(input: PropertyCostsInput): real
  {
    input.legalFees + input.inspection + input.loanApplication + input.valuation +
    input.mortgageReg + input.titleFees + input.moving + input.repairs
  }

  /** The loan the snapshot will carry: the clamped base loan plus mortgage insurance. */
  function InputLoan(input: PropertyCostsInput): real
  {
    Max0(input.purchasePrice - (input.yourDeposit + input.partnerDeposit)) + input.lmi
  }

  /** The maintenance allowance per month: a percentage of the price, spread over twelve months. */
  function MonthlyMaintenance(price: real, maintenancePercent: real): real
  {
    (price * maintenancePercent / 100.0) / 12.0
  }

  /** Loan figures: the base loan is the price not covered by the deposit, never negative. */
  ghost predicate LoanConsistent(c: PropertyCosts)
  {
    && c.baseLoan == Max0(c.purchasePrice - c.totalDeposit)
    && c.totalLoan == c.baseLoan + c.lmi
    && c.lvr == (if c.purchasePrice > 0.0 then (c.totalLoan / c.purchasePrice) * 100.0 else 0.0)
  }

  /** Upfront figures: benefits, duty after concession and the cash needed on the day. */
  ghost predicate UpfrontConsistent(c: PropertyCosts)
  {
    && c.totalBenefits == c.firstHomeGrant + c.stampDutyConcession
    && c.stampDutyAfter == Max0(c.stampDutyBefore - c.stampDutyConcession)
    && c.upfrontCashNeeded == c.totalDeposit + c.stampDutyAfter + c.otherUpfront - c.firstHomeGrant
  }

  /** Monthly figures: the five parts, their total and its annual equivalent. */
  ghost predicate MonthlyConsistent(c: PropertyCosts)
  {
    && PaymentDefined(c.totalLoan, c.interestRate, c.loanTerm)
    && c.monthlyMortgage == MonthlyPayment(c.totalLoan, c.interestRate, c.loanTerm)
    && c.monthlyRates * 12.0 == c.councilRates + c.waterRates
    && c.monthlyMaintenance == MonthlyMaintenance(c.purchasePrice, c.maintenancePercent)
    && c.totalMonthly == c.monthlyMortgage + c.monthlyRates + c.monthlyStrata + c.monthlyInsurance + c.monthlyMaintenance
    && c.annualCosts == 12.0 * c.totalMonthly
  }

  /** The invariants every snapshot built from an input satisfies. */
  ghost predicate Consistent(c: PropertyCosts)
  {
    LoanConsistent(c) && UpfrontConsistent(c) && MonthlyConsistent(c)
  }

  /** `calculatePropertyCosts`. */
  function CalculatePropertyCosts(input: PropertyCostsInput): (c: PropertyCosts)
    requires PaymentDefined(InputLoan(input), input.interestRate, input.loanTerm)
    // inputs carried through unchanged
    ensures c.propertyName == (if input.propertyName.Some? then input.propertyName.value else "Property")
    ensures c.state == input.state && c.purchasePrice == input.purchasePrice && c.lmi == input.lmi
    ensures c.stampDutyBefore == input.stampDuty && c.interestRate == input.interestRate
    ensures c.loanTerm == input.loanTerm && c.maintenancePercent == input.maintenancePercent
    ensures c.councilRates == input.councilRates && c.waterRates == input.waterRates
    // sums of the inputs
    ensures c.totalDeposit == input.yourDeposit + input.partnerDeposit
    ensures c.otherUpfront == OtherUpfront(input)
    ensures c.monthlyStrata * 12.0 == input.strataFees && c.monthlyInsurance * 12.0 == input.insurance
    // first-home benefits apply only to a first-home buyer
    ensures input.isFirstHome ==> c.firstHomeGrant == input.firstHomeGrant && c.stampDutyConcession == input.stampDutyConcession
    ensures !input.isFirstHome ==> c.firstHomeGrant == 0.0 && c.stampDutyConcession == 0.0
    ensures Consistent(c)
  {
    var totalDeposit := input.yourDeposit + input.partnerDeposit;
    var otherUpfront := OtherUpfront(input);

    var grant := if input.isFirstHome then input.firstHomeGrant else 0.0;
    var concession := if input.isFirstHome then input.stampDutyConcession else 0.0;

    var baseLoan := Max0(input.purchasePrice - totalDeposit);
    var totalLoan := baseLoan + input.lmi;
    var lvr := if input.purchasePrice > 0.0 then (totalLoan / input.purchasePrice) * 100.0 else 0.0;

    var stampDutyAfter := Max0(input.stampDuty - concession);
    var upfrontCashNeeded := totalDeposit + stampDutyAfter + otherUpfront - grant;

    var monthlyMortgage := MonthlyPayment(totalLoan, input.interestRate, input.loanTerm);
    var monthlyRates := (input.councilRates + input.waterRates) / 12.0;
    var monthlyStrata := input.strataFees / 12.0;
    var monthlyInsurance := input.insurance / 12.0;
    var monthlyMaintenance := MonthlyMaintenance(input.purchasePrice, input.maintenancePercent);

    var totalMonthly := monthlyMortgage + monthlyRates + monthlyStrata + monthlyInsurance + monthlyMaintenance;
    var annualCosts := totalMonthly * 12.0;

    PropertyCosts(
      propertyName := if input.propertyName.Some? then input.propertyName.value else "Property",
      state := input.state,
      purchasePrice := input.purchasePrice,
      totalDeposit := totalDeposit,
      baseLoan := baseLoan,
      lmi := input.lmi,
      totalLoan := totalLoan,
      lvr := lvr,
      firstHomeGrant := grant,
      stampDutyConcession := concession,
      totalBenefits := grant + concession,
      stampDutyBefore := input.stampDuty,
      stampDutyAfter := stampDutyAfter,
      otherUpfront := otherUpfront,
      upfrontCashNeeded := upfrontCashNeeded,
      monthlyMortgage := monthlyMortgage,
      monthlyRates := monthlyRates,
      monthlyStrata := monthlyStrata,
      monthlyInsurance := monthlyInsurance,
      monthlyMaintenance := monthlyMaintenance,
      totalMonthly := totalMonthly,
      annualCosts := annualCosts,
      interestRate := input.interestRate,
      loanTerm := input.loanTerm,
      maintenancePercent := input.maintenancePercent,
      councilRates := input.councilRates,
      waterRates := input.waterRates
    )
  }

  /**
   * A deposit that covers the price, with no mortgage insurance, leaves no
   * loan, no repayment and a loan-to-value ratio of zero.
   */
  lemma DepositCoversPrice(input: PropertyCostsInput)
    requires input.yourDeposit + input.partnerDeposit >= input.purchasePrice && input.lmi == 0.0
    ensures PaymentDefined(InputLoan(input), input.interestRate, input.loanTerm)
    ensures CalculatePropertyCosts(input).totalLoan == 0.0
    ensures CalculatePropertyCosts(input).monthlyMortgage == 0.0
    ensures CalculatePropertyCosts(input).lvr == 0.0
  {
  }

  /**
   * With non-negative deposits, a positive price and no mortgage insurance,
   * the loan never exceeds the price: the loan-to-value ratio lies in 0..100.
   */
  lemma LvrWithinHundred(input: PropertyCostsInput)
    requires PaymentDefined(InputLoan(input), input.interestRate, input.loanTerm)
    requires input.purchasePrice > 0.0 && input.lmi == 0.0
    requires input.yourDeposit >= 0.0 && input.partnerDeposit >= 0.0
    ensures 0.0 <= CalculatePropertyCosts(input).lvr <= 100.0
  {
    var c := CalculatePropertyCosts(input);
    assert 0.0 <= c.totalLoan <= c.purchasePrice;
    DivAtMostOne(c.totalLoan, c.purchasePrice);
  }

  lemma DivAtMostOne(a: real, b: real)
    requires b > 0.0 && 0.0 <= a <= b
    ensures 0.0 <= a / b <= 1.0
  {
  }

  /**
   * Non-negative first-home benefits never raise the upfront cash, and
   * being a first-home buyer changes no monthly figure.
   */
  lemma BenefitsOnlyReduceUpfront(input: PropertyCostsInput)
    requires PaymentDefined(InputLoan(input), input.interestRate, input.loanTerm)
    requires input.firstHomeGrant >= 0.0 && input.stampDutyConcession >= 0.0
    ensures CalculatePropertyCosts(input.(isFirstHome := true)).upfrontCashNeeded
         <= CalculatePropertyCosts(input.(isFirstHome := false)).upfrontCashNeeded
    ensures CalculatePropertyCosts(input.(isFirstHome := true)).totalMonthly
         == CalculatePropertyCosts(input.(isFirstHome := false)).totalMonthly
  {
  }

  /**
   * The upfront cash is not clamped: a first-home grant larger than the
   * deposit, the duty and the fees together makes it negative.
   */
  lemma UpfrontCanBeNegative(input: PropertyCostsInput)
    requires PaymentDefined(InputLoan(input), input.interestRate, input.loanTerm)
    requires input.isFirstHome && input.stampDuty >= 0.0 && input.stampDutyConcession >= 0.0
    requires input.firstHomeGrant > input.yourDeposit + input.partnerDeposit + input.stampDuty + OtherUpfront(input)
    ensures CalculatePropertyCosts(input).upfrontCashNeeded < 0.0
  {
  }
}
