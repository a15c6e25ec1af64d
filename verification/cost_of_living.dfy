/**
 * The cost-of-living overlay: the monthly cost and the hours of a commute
 * by car, by public transport or by a mix of the two, the all-in monthly
 * cost of living in a property, and a side-by-side comparison of two
 * locations with a one-dollar band inside which neither is cheaper.
 */
module CostOfLiving {
  import opened Numeric
  import opened Types
  import opened Mortgage
  import PropertyCostModel

  /** The month is 52/12 weeks long. */
  const WeeksPerMonth: real := 52.0 / 12.0

  /** Under the mix mode at most this many days a week are driven. */
  const MixDriveDays: real := 3.0

  /** Two locations whose monthly totals differ by less than this are the same. */
  const SameBand: real := 1.0

  /** One commute: a one-way trip, its frequency and mode, and the prices of driving and of a pass. */
  datatype CommuteInput = CommuteInput(
    distanceKm: real,
    durationMinutes: real,
    daysPerWeek: real,
    mode: TransportMode,
    carCostPerKm: real,
    parkingDaily: real,
    monthlyTransitPass: real
  )

  /** Fuel for a return trip plus a day's parking, on `days` days a week, over a month. */
  function DrivingCost(c: CommuteInput, days: real): real
  {
    var fuelCost := c.distanceKm * 2.0 * c.carCostPerKm * days * WeeksPerMonth;
    var parking := c.parkingDaily * days * WeeksPerMonth;
    fuelCost + parking
  }

  /**
   * `calculateTransportCost`: the monthly cost of a commute. Driving costs
   * every commuting day; public transport costs the flat pass; the mix
   * costs the pass plus driving on at most three days a week.
   */
  function TransportCost(c: CommuteInput): (cost: real)
    // a driven day costs a return trip's fuel and a day's parking, 52/12 times a month per weekday
    ensures c.mode == Drive ==>
      cost == c.daysPerWeek * WeeksPerMonth * (2.0 * c.distanceKm * c.carCostPerKm + c.parkingDaily)
    ensures c.mode == Transit ==> cost == c.monthlyTransitPass
    ensures c.mode == Mix ==>
      cost == c.monthlyTransitPass + Min(MixDriveDays, c.daysPerWeek) * WeeksPerMonth * (2.0 * c.distanceKm * c.carCostPerKm + c.parkingDaily)
  {
    match c.mode
    case Drive => DrivingCostPerDay(c, c.daysPerWeek); DrivingCost(c, c.daysPerWeek)
    case Transit => c.monthlyTransitPass
    case Mix =>
      var driveDays := Min(MixDriveDays, c.daysPerWeek);
      DrivingCostPerDay(c, driveDays);
      c.monthlyTransitPass + DrivingCost(c, driveDays)
  }

  /** The driving cost is the number of driven days times the cost of one day's return trip. */
  lemma DrivingCostPerDay(c: CommuteInput, days: real)
    ensures DrivingCost(c, days) == days * WeeksPerMonth * (2.0 * c.distanceKm * c.carCostPerKm + c.parkingDaily)
  {
    var w := WeeksPerMonth;
    assert c.distanceKm * 2.0 * c.carCostPerKm * days * w == days * w * (2.0 * c.distanceKm * c.carCostPerKm);
    assert c.parkingDaily * days * w == days * w * c.parkingDaily;
  }

  /** The hours a commute takes per week, per year and over ten years. */
  datatype CommuteTime = CommuteTime(weeklyHours: real, annualHours: real, tenYearHours: real)

  /** `calculateCommuteHours`: a return trip on every commuting day, 52 weeks a year. */
  function CommuteHours(durationMinutes: real, daysPerWeek: real): (t: CommuteTime)
    ensures t.weeklyHours * 60.0 == 2.0 * durationMinutes * daysPerWeek
    ensures t.annualHours == 52.0 * t.weeklyHours
    ensures t.tenYearHours == 520.0 * t.weeklyHours
  {
    var dailyMinutes := durationMinutes * 2.0;
    var weeklyHours := (dailyMinutes * daysPerWeek) / 60.0;
    var annualHours := weeklyHours * 52.0;
    CommuteTime(weeklyHours, annualHours, annualHours * 10.0)
  }

  /** `CostOfLivingInput`: both commutes, seven expense categories and the property's monthly cost. */
  datatype CostOfLivingInput = CostOfLivingInput(
    commuteDistanceKm: real,
    commuteDurationMinutes: real,
    commuteDaysPerWeek: real,
    transportMode: TransportMode,
    carCostPerKm: real,
    carParkingDaily: real,
    monthlyTransitPass: real,
    hasPartner: bool,
    partnerCommuteDistanceKm: real,
    partnerCommuteDurationMinutes: real,
    partnerTransportMode: TransportMode,
    monthlyGroceries: real,
    monthlyDiningOut: real,
    monthlyUtilities: real,
    monthlyInternet: real,
    monthlySubscriptions: real,
    monthlyHealthInsurance: real,
    monthlyOtherExpenses: real,
    totalMonthlyPropertyCost: real
  )

  /** The primary commute. */
  function PrimaryCommute(input: CostOfLivingInput): CommuteInput
  {
    CommuteInput(input.commuteDistanceKm, input.commuteDurationMinutes, input.commuteDaysPerWeek,
      input.transportMode, input.carCostPerKm, input.carParkingDaily, input.monthlyTransitPass)
  }

  /** The partner's commute: their own trip and mode, on the primary's days and at the primary's prices. */
  function PartnerCommute(input: CostOfLivingInput): CommuteInput
  {
    CommuteInput(input.partnerCommuteDistanceKm, input.partnerCommuteDurationMinutes, input.commuteDaysPerWeek,
      input.partnerTransportMode, input.carCostPerKm, input.carParkingDaily, input.monthlyTransitPass)
  }

  /** A partner's commute is counted only when there is a partner with a commute of positive length. */
  predicate PartnerCommutes(input: CostOfLivingInput)
  {
    input.hasPartner && input.partnerCommuteDistanceKm > 0.0
  }

  /** The seven monthly expense categories. */
  function LivingExpenses(input: CostOfLivingInput): real
  {
    input.monthlyGroceries + input.monthlyDiningOut + input.monthlyUtilities +
    input.monthlyInternet + input.monthlySubscriptions + input.monthlyHealthInsurance +
    input.monthlyOtherExpenses
  }

  /** `calculateCostOfLiving`. */
  function CalculateCostOfLiving(input: CostOfLivingInput): (r: CostOfLivingResult)
    // the partner's commute is counted exactly when they have one
    ensures PartnerCommutes(input) ==>
      && r.partnerMonthlyTransportCost == TransportCost(PartnerCommute(input))
      && r.partnerAnnualCommuteHours == CommuteHours(input.partnerCommuteDurationMinutes, input.commuteDaysPerWeek).annualHours
    ensures !PartnerCommutes(input) ==> r.partnerMonthlyTransportCost == 0.0 && r.partnerAnnualCommuteHours == 0.0
    // transport covers both commutes; the all-in total adds living expenses and the property
    ensures r.monthlyTransportCost == TransportCost(PrimaryCommute(input)) + r.partnerMonthlyTransportCost
    ensures r.monthlyLivingExpenses == LivingExpenses(input)
    ensures r.totalMonthlyCostOfLiving == r.monthlyTransportCost + r.monthlyLivingExpenses
    ensures r.totalMonthlyAllIn == input.totalMonthlyPropertyCost + r.totalMonthlyCostOfLiving
    ensures r.annualTransportCost == 12.0 * r.monthlyTransportCost
    ensures r.annualAllIn == 12.0 * r.totalMonthlyAllIn && r.tenYearAllIn == 120.0 * r.totalMonthlyAllIn
    // commute figures are the primary's alone
    ensures r.dailyCommuteKm == 2.0 * input.commuteDistanceKm
    ensures r.dailyCommuteMinutes == 2.0 * input.commuteDurationMinutes
    ensures r.weeklyCommuteHours * 60.0 == r.dailyCommuteMinutes * input.commuteDaysPerWeek
    ensures r.annualCommuteHours == 52.0 * r.weeklyCommuteHours
    ensures r.tenYearCommuteHours == 10.0 * r.annualCommuteHours
  {
    var monthlyTransportCost := TransportCost(PrimaryCommute(input));
    var partnerMonthlyTransportCost := if PartnerCommutes(input) then TransportCost(PartnerCommute(input)) else 0.0;
    var partnerAnnualCommuteHours :=
      if PartnerCommutes(input) then CommuteHours(input.partnerCommuteDurationMinutes, input.commuteDaysPerWeek).annualHours
      else 0.0;
    var monthlyLivingExpenses := LivingExpenses(input);
    var totalTransport := monthlyTransportCost + partnerMonthlyTransportCost;
    var totalMonthlyCostOfLiving := totalTransport + monthlyLivingExpenses;
    var totalMonthlyAllIn := input.totalMonthlyPropertyCost + totalMonthlyCostOfLiving;
    var commuteTime := CommuteHours(input.commuteDurationMinutes, input.commuteDaysPerWeek);
    CostOfLivingResult(
      dailyCommuteKm := input.commuteDistanceKm * 2.0,
      dailyCommuteMinutes := input.commuteDurationMinutes * 2.0,
      weeklyCommuteHours := commuteTime.weeklyHours,
      monthlyTransportCost := totalTransport,
      annualTransportCost := totalTransport * 12.0,
      monthlyLivingExpenses := monthlyLivingExpenses,
      totalMonthlyCostOfLiving := totalMonthlyCostOfLiving,
      totalMonthlyAllIn := totalMonthlyAllIn,
      annualAllIn := totalMonthlyAllIn * 12.0,
      tenYearAllIn := totalMonthlyAllIn * 12.0 * 10.0,
      annualCommuteHours := commuteTime.annualHours,
      tenYearCommuteHours := commuteTime.tenYearHours,
      partnerMonthlyTransportCost := partnerMonthlyTransportCost,
      partnerAnnualCommuteHours := partnerAnnualCommuteHours
    )
  }

  /** `LocationComparisonInput`: location A's snapshot and commute, location B's price and commute, shared loan settings. */
  datatype LocationComparisonInput = LocationComparisonInput(
    labelA: string,
    propertyCostsA: PropertyCosts,
    commuteDistanceKmA: real,
    commuteDurationMinutesA: real,
    commuteDaysPerWeek: real,
    transportMode: TransportMode,
    carCostPerKm: real,
    carParkingDaily: real,
    monthlyTransitPass: real,
    monthlyLivingExpenses: real,
    labelB: string,
    comparisonPurchasePrice: real,
    comparisonStampDuty: real,
    commuteDistanceKmB: real,
    commuteDurationMinutesB: real,
    interestRate: real,
    loanTerm: nat,
    yourDeposit: real,
    partnerDeposit: real,
    lmi: real,
    monthlyRates: real,
    monthlyStrata: real,
    monthlyInsurance: real,
    maintenancePercent: real
  )

  /** Location B's loan: the price not covered by the deposit, never negative, plus insurance. */
  function LoanB(input: LocationComparisonInput): real
  {
    Max0(input.comparisonPurchasePrice - (input.yourDeposit + input.partnerDeposit)) + input.lmi
  }

  /** Location B's monthly property cost: repayment, rates, strata, insurance and maintenance. */
  function MonthlyPropertyB(input: LocationComparisonInput): real
    requires PaymentDefined(LoanB(input), input.interestRate, input.loanTerm)
  {
    var mortgageB := MonthlyPayment(LoanB(input), input.interestRate, input.loanTerm);
    var maintenanceB := PropertyCostModel.MonthlyMaintenance(input.comparisonPurchasePrice, input.maintenancePercent);
    mortgageB + input.monthlyRates + input.monthlyStrata + input.monthlyInsurance + maintenanceB
  }

  /** A location's commute, with the shared frequency, mode and prices. */
  function LocationCommute(input: LocationComparisonInput, distanceKm: real, durationMinutes: real): CommuteInput
  {
    CommuteInput(distanceKm, durationMinutes, input.commuteDaysPerWeek, input.transportMode,
      input.carCostPerKm, input.carParkingDaily, input.monthlyTransitPass)
  }

  /** One location's summary from its property cost, its commute and the shared living expenses. */
  function Summary(name: string, monthlyProperty: real, commute: CommuteInput, living: real): (s: LocationSummary)
    ensures s.locationLabel == name && s.monthlyProperty == monthlyProperty && s.monthlyLiving == living
    ensures s.monthlyTransport == TransportCost(commute)
    ensures s.commuteHoursPerYear == CommuteHours(commute.durationMinutes, commute.daysPerWeek).annualHours
    ensures s.monthlyTotal == s.monthlyProperty + s.monthlyTransport + s.monthlyLiving
    ensures s.annualTotal == 12.0 * s.monthlyTotal
  {
    var transport := TransportCost(commute);
    LocationSummary(
      locationLabel := name,
      monthlyProperty := monthlyProperty,
      monthlyTransport := transport,
      monthlyLiving := living,
      monthlyTotal := monthlyProperty + transport + living,
      annualTotal := (monthlyProperty + transport + living) * 12.0,
      commuteHoursPerYear := CommuteHours(commute.durationMinutes, commute.daysPerWeek).annualHours
    )
  }

  /** `calculateLocationComparison`. */
  function CalculateLocationComparison(input: LocationComparisonInput): (r: LocationComparisonResult)
    requires PaymentDefined(LoanB(input), input.interestRate, input.loanTerm)
    // A is costed from its snapshot, B from the shared loan settings; both share living expenses
    ensures r.propertyA.monthlyProperty == input.propertyCostsA.totalMonthly
    ensures r.propertyB.monthlyProperty == MonthlyPropertyB(input)
    ensures r.propertyA.monthlyTransport == TransportCost(LocationCommute(input, input.commuteDistanceKmA, input.commuteDurationMinutesA))
    ensures r.propertyB.monthlyTransport == TransportCost(LocationCommute(input, input.commuteDistanceKmB, input.commuteDurationMinutesB))
    ensures r.propertyA.monthlyLiving == input.monthlyLivingExpenses == r.propertyB.monthlyLiving
    ensures r.propertyA.locationLabel == input.labelA && r.propertyB.locationLabel == input.labelB
    // each location's yearly commute hours, at the shared number of days a week
    ensures r.propertyA.commuteHoursPerYear == CommuteHours(input.commuteDurationMinutesA, input.commuteDaysPerWeek).annualHours
    ensures r.propertyB.commuteHoursPerYear == CommuteHours(input.commuteDurationMinutesB, input.commuteDaysPerWeek).annualHours
    ensures r.propertyA.monthlyTotal == r.propertyA.monthlyProperty + r.propertyA.monthlyTransport + r.propertyA.monthlyLiving
    ensures r.propertyB.monthlyTotal == r.propertyB.monthlyProperty + r.propertyB.monthlyTransport + r.propertyB.monthlyLiving
    ensures r.propertyA.annualTotal == 12.0 * r.propertyA.monthlyTotal && r.propertyB.annualTotal == 12.0 * r.propertyB.monthlyTotal
    // the savings are the size of the gap, whichever way it goes
    ensures r.monthlySavings >= 0.0
    ensures r.monthlySavings == r.propertyA.monthlyTotal - r.propertyB.monthlyTotal
         || r.monthlySavings == r.propertyB.monthlyTotal - r.propertyA.monthlyTotal
    ensures r.annualSavings == 12.0 * r.monthlySavings && r.tenYearSavings == 120.0 * r.monthlySavings
    ensures r.commuteTimeDiffHoursPerYear == r.propertyB.commuteHoursPerYear - r.propertyA.commuteHoursPerYear
    // the cheaper location, with a one-dollar band of indifference
    ensures r.cheaperOption == Same <==> r.monthlySavings < SameBand
    ensures r.cheaperOption == B <==> r.propertyA.monthlyTotal - r.propertyB.monthlyTotal >= SameBand
    ensures r.cheaperOption == A <==> r.propertyB.monthlyTotal - r.propertyA.monthlyTotal >= SameBand
  {
    var living := input.monthlyLivingExpenses;
    var propA := Summary(input.labelA, input.propertyCostsA.totalMonthly,
      LocationCommute(input, input.commuteDistanceKmA, input.commuteDurationMinutesA), living);
    var propB := Summary(input.labelB, MonthlyPropertyB(input),
      LocationCommute(input, input.commuteDistanceKmB, input.commuteDurationMinutesB), living);
    var monthlySavings := propA.monthlyTotal - propB.monthlyTotal;
    var cheaperOption := if Abs(monthlySavings) < SameBand then Same else if monthlySavings > 0.0 then B else A;
    LocationComparisonResult(
      propertyA := propA,
      propertyB := propB,
      monthlySavings := Abs(monthlySavings),
      annualSavings := Abs(monthlySavings) * 12.0,
      tenYearSavings := Abs(monthlySavings) * 12.0 * 10.0,
      commuteTimeDiffHoursPerYear := propB.commuteHoursPerYear - propA.commuteHoursPerYear,
      cheaperOption := cheaperOption
    )
  }

  /**
   * The worked example: 15 km each way, five days a week by car at 0.85 a
   * kilometre with free parking costs exactly 552.50 a month.
   */
  lemma CommuteCostExample()
    ensures TransportCost(CommuteInput(15.0, 0.0, 5.0, Drive, 0.85, 0.0, 0.0)) == 552.5
  {
    assert 5.0 * WeeksPerMonth * (2.0 * 15.0 * 0.85 + 0.0) == 552.5;
  }

  /** With non-negative driving prices and days, the mix never costs less than the pass alone. */
  lemma MixDominatesTransit(c: CommuteInput)
    requires c.distanceKm >= 0.0 && c.carCostPerKm >= 0.0 && c.parkingDaily >= 0.0 && c.daysPerWeek >= 0.0
    ensures TransportCost(c.(mode := Mix)) >= TransportCost(c.(mode := Transit))
  {
    var perDay := 2.0 * c.distanceKm * c.carCostPerKm + c.parkingDaily;
    MulLeftMono(2.0 * c.distanceKm, c.carCostPerKm, 0.0);
    var d := Min(MixDriveDays, c.daysPerWeek) * WeeksPerMonth;
    MulLeftMono(d, perDay, 0.0);
  }

  /**
   * The mix drives at most three days: from three commuting days a week on,
   * more days change nothing; up to three, it is the pass plus driving
   * every day.
   */
  lemma MixCapsDrivingDays(c: CommuteInput)
    requires c.mode == Mix
    ensures c.daysPerWeek >= MixDriveDays ==> TransportCost(c) == TransportCost(c.(daysPerWeek := MixDriveDays))
    ensures c.daysPerWeek <= MixDriveDays ==>
      TransportCost(c) == TransportCost(c.(mode := Transit)) + TransportCost(c.(mode := Drive))
  {
  }

  /** Without a partner commute, nothing about the partner's trip affects the result. */
  lemma PartnerIgnoredWithoutCommute(input: CostOfLivingInput, distanceKm: real, durationMinutes: real, mode: TransportMode)
    requires !input.hasPartner || (input.partnerCommuteDistanceKm <= 0.0 && distanceKm <= 0.0)
    ensures CalculateCostOfLiving(input)
         == CalculateCostOfLiving(input.(partnerCommuteDistanceKm := distanceKm,
                                         partnerCommuteDurationMinutes := durationMinutes,
                                         partnerTransportMode := mode))
  {
  }

  /**
   * Location B is costed as the snapshot model would cost a purchase at B's
   * price with the shared loan settings, given yearly rates, strata and
   * insurance that are twelve times the monthly figures.
   */
  lemma LocationBMatchesCostModel(input: LocationComparisonInput, pci: PropertyCostModel.PropertyCostsInput)
    requires pci.purchasePrice == input.comparisonPurchasePrice && pci.lmi == input.lmi
    requires pci.yourDeposit == input.yourDeposit && pci.partnerDeposit == input.partnerDeposit
    requires pci.interestRate == input.interestRate && pci.loanTerm == input.loanTerm
    requires pci.maintenancePercent == input.maintenancePercent
    requires pci.councilRates + pci.waterRates == 12.0 * input.monthlyRates
    requires pci.strataFees == 12.0 * input.monthlyStrata && pci.insurance == 12.0 * input.monthlyInsurance
    requires PaymentDefined(LoanB(input), input.interestRate, input.loanTerm)
    ensures PaymentDefined(PropertyCostModel.InputLoan(pci), pci.interestRate, pci.loanTerm)
    ensures CalculateLocationComparison(input).propertyB.monthlyProperty
         == PropertyCostModel.CalculatePropertyCosts(pci).totalMonthly
  {
    var c := PropertyCostModel.CalculatePropertyCosts(pci);
    assert c.totalLoan == LoanB(input);
    assert c.monthlyRates == input.monthlyRates;
    assert c.monthlyStrata == input.monthlyStrata && c.monthlyInsurance == input.monthlyInsurance;
  }

  /** B's stamp duty is collected but not used: the comparison does not depend on it. */
  lemma ComparisonIgnoresStampDuty(input: LocationComparisonInput, duty: real)
    requires PaymentDefined(LoanB(input), input.interestRate, input.loanTerm)
    ensures CalculateLocationComparison(input) == CalculateLocationComparison(input.(comparisonStampDuty := duty))
  {
    assert LoanB(input) == LoanB(input.(comparisonStampDuty := duty));
  }

  /**
   * The comparison costs location A exactly as the cost-of-living
   * calculation costs the same home and commute for a household with no
   * partner commute: the same all-in monthly total and the same yearly
   * commute hours.
   */
  lemma LocationAMatchesCostOfLiving(input: LocationComparisonInput, col: CostOfLivingInput)
    requires PaymentDefined(LoanB(input), input.interestRate, input.loanTerm)
    requires !PartnerCommutes(col)
    requires col.totalMonthlyPropertyCost == input.propertyCostsA.totalMonthly
    requires PrimaryCommute(col) == LocationCommute(input, input.commuteDistanceKmA, input.commuteDurationMinutesA)
    requires LivingExpenses(col) == input.monthlyLivingExpenses
    ensures CalculateLocationComparison(input).propertyA.monthlyTotal == CalculateCostOfLiving(col).totalMonthlyAllIn
    ensures CalculateLocationComparison(input).propertyA.commuteHoursPerYear == CalculateCostOfLiving(col).annualCommuteHours
  {
  }
}
