/**
 * The record shapes the calculation engine consumes and produces, one
 * datatype per interface of the front end's shared type definitions.
 * Every amount of money, rate and percentage is a `real`; a loan term is a
 * whole number of years.
 */
module Types {

  datatype Option<T> = None | Some(value: T)

  /** The closed set of eight Australian jurisdictions. */
  datatype AustralianState = NSW | VIC | QLD | WA | SA | TAS | ACT | NT

  /** First-home-buyer benefits of one jurisdiction. */
  datatype StateBenefits = StateBenefits(grant: real, stampDutyConcession: real)

  const NoBenefits: StateBenefits := StateBenefits(0.0, 0.0)

  datatype TransportMode = Drive | Transit | Mix

  /** The point-in-time cost snapshot of one purchase. */
  datatype PropertyCosts = PropertyCosts(
    propertyName: string,
    state: AustralianState,
    purchasePrice: real,

    totalDeposit: real,
    baseLoan: real,
    lmi: real,
    totalLoan: real,
    lvr: real,

    firstHomeGrant: real,
    stampDutyConcession: real,
    totalBenefits: real,

    stampDutyBefore: real,
    stampDutyAfter: real,
    otherUpfront: real,
    upfrontCashNeeded: real,

    monthlyMortgage: real,
    monthlyRates: real,
    monthlyStrata: real,
    monthlyInsurance: real,
    monthlyMaintenance: real,
    totalMonthly: real,

    annualCosts: real,
    interestRate: real,
    loanTerm: nat,
    maintenancePercent: real,
    councilRates: real,
    waterRates: real
  )

  /** One year of the amortisation forecast. */
  datatype ForecastRow = ForecastRow(
    year: nat,
    interestRate: real,
    propertyValue: real,
    loanBalance: real,
    equity: real,
    principalPaid: real,
    interestPaid: real,
    cumulativeCost: real,
    netPosition: real
  )

  /** A preset perturbation and its headline figures. */
  datatype ScenarioResult = ScenarioResult(
    name: string,
    priceAdd: real,
    rateAdd: real,
    totalMonthly: real,
    upfrontCash: real,
    netPosition10yr: real
  )

  datatype CostOfLivingResult = CostOfLivingResult(
    dailyCommuteKm: real,
    dailyCommuteMinutes: real,
    weeklyCommuteHours: real,
    monthlyTransportCost: real,
    annualTransportCost: real,
    monthlyLivingExpenses: real,
    totalMonthlyCostOfLiving: real,
    totalMonthlyAllIn: real,
    annualAllIn: real,
    tenYearAllIn: real,
    annualCommuteHours: real,
    tenYearCommuteHours: real,
    partnerMonthlyTransportCost: real,
    partnerAnnualCommuteHours: real
  )

  datatype LocationSummary = LocationSummary(
    locationLabel: string,
    monthlyProperty: real,
    monthlyTransport: real,
    monthlyLiving: real,
    monthlyTotal: real,
    annualTotal: real,
    commuteHoursPerYear: real
  )

  /** `'A' | 'B' | 'same'`. */
  datatype CheaperOption = A | B | Same

  datatype LocationComparisonResult = LocationComparisonResult(
    propertyA: LocationSummary,
    propertyB: LocationSummary,
    monthlySavings: real,
    annualSavings: real,
    tenYearSavings: real,
    commuteTimeDiffHoursPerYear: real,
    cheaperOption: CheaperOption
  )
}
