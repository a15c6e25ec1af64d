/**
 * Real-number helpers shared by the calculation engine: the JavaScript
 * `Math.pow`, `Math.max(0, x)`, `Math.min` and `Math.abs` it relies on,
 * modelled over exact reals, and the facts about powers that the
 * amortisation proofs need.
 */
module Numeric {

  /** `Math.pow(x, n)` for a whole exponent `n`. */
  function Pow(x: real, n: nat): real
  {
    if n == 0 then 1.0 else x * Pow(x, n - 1)
  }

  /** `Math.max(0, x)`. */
  function Max0(x: real): (r: real)
    ensures r >= 0.0 && r >= x
    ensures r == 0.0 || r == x
  {
    if x > 0.0 then x else 0.0
  }

  /** `Math.min(a, b)`. */
  function Min(a: real, b: real): (r: real)
    ensures r <= a && r <= b
    ensures r == a || r == b
  {
    if a <= b then a else b
  }

  /** `Math.abs(x)`. */
  function Abs(x: real): (r: real)
    ensures r >= 0.0
    ensures r == x || r == -x
  {
    if x < 0.0 then -x else x
  }

  lemma {:induction false} PowNonNegative(x: real, n: nat)
    requires x >= 0.0
    ensures Pow(x, n) >= 0.0
  {
    if n > 0 {
      PowNonNegative(x, n - 1);
    }
  }

  /** A base above one raised to a positive power stays above one. */
  lemma {:induction false} PowAboveOne(x: real, n: nat)
    requires x > 1.0 && n >= 1
    ensures Pow(x, n) > 1.0
  {
    if n > 1 {
      PowAboveOne(x, n - 1);
      assert x * Pow(x, n - 1) > 1.0 * Pow(x, n - 1);
    }
  }

  /** A base in [0, 1) raised to a positive power stays below one. */
  lemma {:induction false} PowBelowOne(x: real, n: nat)
    requires 0.0 <= x < 1.0 && n >= 1
    ensures Pow(x, n) < 1.0
  {
    if n > 1 {
      PowBelowOne(x, n - 1);
      PowNonNegative(x, n - 1);
      assert x * Pow(x, n - 1) <= x * 1.0;
    }
  }

  /** An even power is a power of the square. */
  lemma {:induction false} PowEven(x: real, m: nat)
    ensures Pow(x, 2 * m) == Pow(x * x, m)
  {
    if m > 0 {
      PowEven(x, m - 1);
      assert Pow(x, 2 * m) == x * (x * Pow(x, 2 * (m - 1)));
    }
  }

  /**
   * An even positive power of `x` equals one only when `x` is 1 or -1;
   * this is what keeps the annuity formula's denominator non-zero.
   */
  lemma PowEvenNotOne(x: real, m: nat)
    requires m >= 1 && x != 1.0 && x != -1.0
    ensures Pow(x, 2 * m) != 1.0
  {
    PowEven(x, m);
    var y := x * x;
    assert y >= 0.0;
    assert y - 1.0 == (x - 1.0) * (x + 1.0);
    if y > 1.0 {
      PowAboveOne(y, m);
    } else {
      PowBelowOne(y, m);
    }
  }

  /** Multiplying a strict inequality by a positive factor keeps it strict. */
  lemma MulLeftStrict(c: real, a: real, b: real)
    requires c > 0.0 && a > b
    ensures c * a > c * b
  {
    assert c * a - c * b == c * (a - b);
  }

  /** Multiplying by a non-negative factor keeps a non-strict inequality. */
  lemma MulLeftMono(c: real, a: real, b: real)
    requires c >= 0.0 && a >= b
    ensures c * a >= c * b
  {
    assert c * a - c * b == c * (a - b);
  }

  /** One inductive step of Bernoulli's inequality, with the power abstracted as `p`. */
  lemma BernoulliStep(r: real, k: real, p: real)
    requires r >= 0.0 && k >= 0.0 && p >= 1.0 + k * r
    ensures (1.0 + r) * p >= 1.0 + (k + 1.0) * r + k * r * r
    ensures k * r * r >= 0.0
  {
    MulLeftMono(1.0 + r, p, 1.0 + k * r);
    MulLeftMono(k, r, 0.0);
    MulLeftMono(k * r, r, 0.0);
    assert (1.0 + r) * (1.0 + k * r) == 1.0 + (k + 1.0) * r + k * r * r;
  }

  /** Bernoulli's inequality: (1 + r)^n >= 1 + n r for r >= 0. */
  lemma {:induction false} BernoulliWeak(r: real, n: nat)
    requires r >= 0.0
    ensures Pow(1.0 + r, n) >= 1.0 + (n as real) * r
  {
    if n > 0 {
      BernoulliWeak(r, n - 1);
      var k := (n - 1) as real;
      BernoulliStep(r, k, Pow(1.0 + r, n - 1));
      assert n as real == k + 1.0;
    }
  }

  /** Bernoulli's inequality, strict form: (1 + r)^n > 1 + n r for r > 0, n >= 2. */
  lemma Bernoulli(r: real, n: nat)
    requires r > 0.0 && n >= 2
    ensures Pow(1.0 + r, n) > 1.0 + (n as real) * r
  {
    BernoulliWeak(r, n - 1);
    BernoulliStrictStep(r, (n - 1) as real, Pow(1.0 + r, n - 1), Pow(1.0 + r, n));
    assert n as real == (n - 1) as real + 1.0;
  }

  /** The strict inductive step, with the powers abstracted: from 1 + k r to 1 + (k + 1) r. */
  lemma BernoulliStrictStep(r: real, k: real, p: real, p': real)
    requires r > 0.0 && k >= 1.0 && p >= 1.0 + k * r && p' == (1.0 + r) * p
    ensures p' > 1.0 + (k + 1.0) * r
  {
    BernoulliStep(r, k, p);
    MulLeftStrict(k, r, 0.0);
    MulLeftStrict(k * r, r, 0.0);
  }
}
