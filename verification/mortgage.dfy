/**
 * The monthly repayment of a principal-and-interest loan: the annuity
 * formula with a guard for a non-positive principal and a straight-line
 * branch for a zero rate.
 */
module Mortgage {
  import opened Numeric

  /** The monthly rate as a fraction: an annual percentage divided by 100, then by 12. */
  function MonthlyRate(annualRate: real): real
  {
    annualRate / 100.0 / 12.0
  }

  /**
   * The inputs on which the payment is a number. A positive principal needs
   * a term of at least a year (a zero term divides by zero months) and an
   * annual rate other than -2400%: that is the one non-zero rate whose
   * monthly growth factor is -1, so that (1 + r)^(12 n) == 1 and the
   * annuity denominator vanishes.
   */
  predicate PaymentDefined(principal: real, annualRate: real, years: nat)
  {
    principal <= 0.0 || (years >= 1 && annualRate != -2400.0)
  }

  /** Away from a zero rate and from -2400%, the annuity denominator is non-zero. */
  lemma DenominatorNonZero(annualRate: real, years: nat)
    requires years >= 1 && annualRate != 0.0 && annualRate != -2400.0
    ensures Pow(1.0 + MonthlyRate(annualRate), years * 12) != 1.0
  {
    var x := 1.0 + MonthlyRate(annualRate);
    assert x != 1.0 && x != -1.0;
    assert 2 * (6 * years) == years * 12;
    PowEvenNotOne(x, 6 * years);
  }

  /** The annuity expression `P * (r * (1 + r)^n) / ((1 + r)^n - 1)`. */
  function Annuity(principal: real, r: real, n: nat): real
    requires Pow(1.0 + r, n) != 1.0
  {
    principal * (r * Pow(1.0 + r, n)) / (Pow(1.0 + r, n) - 1.0)
  }

  /** `calculateMonthlyPayment(principal, annualRate, years)`. */
  function MonthlyPayment(principal: real, annualRate: real, years: nat): (pmt: real)
    requires PaymentDefined(principal, annualRate, years)
    ensures principal <= 0.0 ==> pmt == 0.0
    ensures principal > 0.0 && annualRate == 0.0 ==> pmt * ((years * 12) as real) == principal
  {
    if principal <= 0.0 then 0.0
    else
      var r := MonthlyRate(annualRate);
      var n := years * 12;
      if r == 0.0 then principal / (n as real)
      else
        DenominatorNonZero(annualRate, years);
        Annuity(principal, r, n)
  }

  /**
   * The loan balance after `k` monthly instalments of `payment`: each month
   * the balance accrues interest at `r` and then the instalment is repaid.
   * This is the independent meaning of an amortising payment.
   */
  function Outstanding(principal: real, r: real, payment: real, k: nat): real
  {
    if k == 0 then principal
    else Outstanding(principal, r, payment, k - 1) * (1.0 + r) - payment
  }

  lemma DivMul(a: real, b: real)
    requires b != 0.0
    ensures (a / b) * b == a
  {
  }

  /** The annuity payment times the denominator is the numerator. */
  lemma AnnuityIdentity(principal: real, r: real, n: nat)
    requires Pow(1.0 + r, n) != 1.0
    ensures Annuity(principal, r, n) * (Pow(1.0 + r, n) - 1.0) == principal * r * Pow(1.0 + r, n)
  {
    DivMul(principal * (r * Pow(1.0 + r, n)), Pow(1.0 + r, n) - 1.0);
  }

  /** One month of the closed form, with the earlier balance and power abstracted. */
  lemma OutstandingStep(p: real, r: real, payment: real, b: real, x: real, b': real, x': real)
    requires b * r == p * r * x - payment * (x - 1.0)
    requires b' == b * (1.0 + r) - payment && x' == (1.0 + r) * x
    ensures b' * r == p * r * x' - payment * (x' - 1.0)
  {
    assert b' * r == (1.0 + r) * (b * r) - payment * r;
  }

  /** Closed form of the balance: B_k r = P r (1 + r)^k - pmt ((1 + r)^k - 1). */
  lemma {:induction false} OutstandingClosedForm(principal: real, r: real, payment: real, k: nat)
    ensures Outstanding(principal, r, payment, k) * r
         == principal * r * Pow(1.0 + r, k) - payment * (Pow(1.0 + r, k) - 1.0)
  {
    if k > 0 {
      OutstandingClosedForm(principal, r, payment, k - 1);
      OutstandingStep(principal, r, payment,
        Outstanding(principal, r, payment, k - 1), Pow(1.0 + r, k - 1),
        Outstanding(principal, r, payment, k), Pow(1.0 + r, k));
    }
  }

  /** With no interest, every instalment comes straight off the balance. */
  lemma {:induction false} OutstandingZeroRate(principal: real, payment: real, k: nat)
    ensures Outstanding(principal, 0.0, payment, k) == principal - (k as real) * payment
  {
    if k > 0 {
      OutstandingZeroRate(principal, payment, k - 1);
    }
  }

  /**
   * The payment repays the loan: after `years * 12` instalments of
   * `MonthlyPayment` at the monthly rate, nothing is outstanding.
   */
  lemma PaymentAmortises(principal: real, annualRate: real, years: nat)
    requires principal > 0.0 && PaymentDefined(principal, annualRate, years)
    ensures Outstanding(principal, MonthlyRate(annualRate), MonthlyPayment(principal, annualRate, years), years * 12) == 0.0
  {
    var r := MonthlyRate(annualRate);
    var n := years * 12;
    var pmt := MonthlyPayment(principal, annualRate, years);
    if r == 0.0 {
      OutstandingZeroRate(principal, pmt, n);
      assert annualRate == 0.0;
    } else {
      DenominatorNonZero(annualRate, years);
      AnnuityIdentity(principal, r, n);
      OutstandingClosedForm(principal, r, pmt, n);
      var b := Outstanding(principal, r, pmt, n);
      assert b * r == 0.0;
    }
  }

  /**
   * At a positive rate the payment is strictly more than the first month's
   * interest, so every instalment reduces the principal.
   */
  lemma PaymentExceedsInterest(principal: real, annualRate: real, years: nat)
    requires principal > 0.0 && annualRate > 0.0 && years >= 1
    ensures MonthlyPayment(principal, annualRate, years) > principal * MonthlyRate(annualRate)
  {
    var r := MonthlyRate(annualRate);
    var n := years * 12;
    var x := Pow(1.0 + r, n);
    PowAboveOne(1.0 + r, n);
    DenominatorNonZero(annualRate, years);
    AnnuityIdentity(principal, r, n);
    var pmt := MonthlyPayment(principal, annualRate, years);
    var pr := principal * r;
    assert pr > 0.0;
    assert pmt * (x - 1.0) == pr * x;
    assert pr * x > pr * (x - 1.0);
    ProductCancel(pmt, pr, x - 1.0);
  }

  lemma ProductCancel(a: real, b: real, c: real)
    requires c > 0.0 && a * c > b * c
    ensures a > b
  {
    if a <= b {
      MulLeftMono(c, b, a);
    }
  }

  /** A positive loan at a non-negative rate has a positive payment. */
  lemma PaymentPositive(principal: real, annualRate: real, years: nat)
    requires principal > 0.0 && annualRate >= 0.0 && years >= 1
    ensures MonthlyPayment(principal, annualRate, years) > 0.0
  {
    if annualRate > 0.0 {
      PaymentExceedsInterest(principal, annualRate, years);
      assert principal * MonthlyRate(annualRate) > 0.0;
    }
  }

  /** The payment is linear in the principal: it scales the payment on one dollar. */
  lemma PaymentLinear(principal: real, annualRate: real, years: nat)
    requires principal > 0.0 && PaymentDefined(principal, annualRate, years)
    ensures MonthlyPayment(principal, annualRate, years) == principal * MonthlyPayment(1.0, annualRate, years)
  {
    var r := MonthlyRate(annualRate);
    if r != 0.0 {
      DenominatorNonZero(annualRate, years);
      var x := Pow(1.0 + r, years * 12);
      assert principal * (r * x) / (x - 1.0) == principal * (1.0 * (r * x) / (x - 1.0));
    }
  }

  /** At a non-negative rate, a larger principal never has a smaller payment. */
  lemma PaymentMonotone(p1: real, p2: real, annualRate: real, years: nat)
    requires p1 <= p2 && annualRate >= 0.0 && years >= 1
    ensures MonthlyPayment(p1, annualRate, years) <= MonthlyPayment(p2, annualRate, years)
  {
    if p1 > 0.0 {
      PaymentLinear(p1, annualRate, years);
      PaymentLinear(p2, annualRate, years);
      PaymentPositive(1.0, annualRate, years);
      MulLeftMono(MonthlyPayment(1.0, annualRate, years), p2, p1);
    } else if p2 > 0.0 {
      PaymentPositive(p2, annualRate, years);
    }
  }
}
