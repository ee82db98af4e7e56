/**
 * Integer powers of reals and the period discounting applied to base investment costs:
 * a cost quoted at the starting period 2018 is divided by (1 + rate)^(t - 2018) at period t.
 */
module Discounting {
  import opened Common

  const DiscountRate: real := 0.045
  const StartingTimePeriod: Period := 2018

  const DevRateConvCHP: real := 0.0
  const DevRateConvHP: real := 0.01
  const DevRateConvP2G: real := 0.079
  const DevRateStorageElec: real := 0.05
  const DevRateStorageGas: real := 0.0
  const DevRateStorageHeat: real := 0.016
  const DevRateSupplySolar: real := 0.05
  const DevRateSupplyWind: real := 0.022

  /** b raised to the natural power n. */
  function Pow(b: real, n: nat): (r: real)
    ensures b > 0.0 ==> r > 0.0
    ensures b >= 1.0 ==> r >= 1.0
    decreases n
  {
    if n == 0 then 1.0
    else
      var rest := Pow(b, n - 1);
      assert b >= 1.0 ==> b * rest >= rest;
      b * rest
  }

  /**
   * The base cost seen from period t: base / (1 + rate)^(t - 2018). A period before 2018
   * gives a negative exponent, taken as multiplication by the reciprocal power.
   */
  function Discounted(base: real, rate: real, t: Period): real
    requires rate > -1.0
  {
    if t >= StartingTimePeriod then base / Pow(1.0 + rate, t - StartingTimePeriod)
    else base * Pow(1.0 + rate, StartingTimePeriod - t)
  }

  /** The exponent is zero at the starting period, so the discounted cost is the base cost. */
  lemma DiscountedAtStart(base: real, rate: real)
    requires rate > -1.0
    ensures Discounted(base, rate, StartingTimePeriod) == base
  {
  }

  /** From 2018 on, multiplying back by the growth factor recovers the base cost. */
  lemma DiscountedRoundTrip(base: real, rate: real, t: Period)
    requires rate > -1.0 && t >= StartingTimePeriod
    ensures Discounted(base, rate, t) * Pow(1.0 + rate, t - StartingTimePeriod) == base
  {
  }

  /** One unfolding step of Pow. */
  lemma PowStep(b: real, n: nat)
    requires n >= 1
    ensures Pow(b, n) == b * Pow(b, n - 1)
  {
  }

  /** Multiplying by a non-negative factor keeps a non-strict order. */
  lemma MulMonotone(a: real, x: real, y: real)
    requires a >= 0.0 && x <= y
    ensures a * x <= a * y && x * a <= y * a
  {
    assert a * y - a * x == a * (y - x);
  }

  /** Multiplying by a positive factor keeps a strict order. */
  lemma MulStrict(a: real, x: real, y: real)
    requires a > 0.0 && x < y
    ensures a * x < a * y && x * a < y * a
  {
    assert a * y - a * x == a * (y - x);
  }

  /** Dividing a non-negative quantity by a larger positive divisor does not give more. */
  lemma DivideByLarger(x: real, p: real, q: real)
    requires x >= 0.0 && 0.0 < p <= q
    ensures x / q <= x / p
  {
    var a, c := x / q, x / p;
    assert a * q == x && c * p == x;
    assert a >= 0.0;
    MulMonotone(a, p, q);
  }

  /** Dividing a positive quantity by a strictly larger positive divisor gives strictly less. */
  lemma DivideByStrictlyLarger(x: real, p: real, q: real)
    requires x > 0.0 && 0.0 < p < q
    ensures x / q < x / p
  {
    var a, c := x / q, x / p;
    assert a * q == x && c * p == x;
    assert a > 0.0;
    MulStrict(a, p, q);
  }

  /** With a factor of at least 1, a larger exponent gives a larger power. */
  lemma {:induction false} PowMonotoneExponent(b: real, m: nat, n: nat)
    requires b >= 1.0 && m <= n
    ensures Pow(b, m) <= Pow(b, n)
    decreases n - m
  {
    if m < n {
      PowMonotoneExponent(b, m, n - 1);
      var p := Pow(b, n - 1);
      PowStep(b, n);
      MulMonotone(p, 1.0, b);
      assert p * 1.0 <= p * b;
    }
  }

  /** With a positive exponent, a strictly larger positive factor gives a strictly larger power. */
  lemma {:induction false} PowStrictBase(a: real, b: real, n: nat)
    requires 0.0 < a < b && n >= 1
    ensures Pow(a, n) < Pow(b, n)
    decreases n
  {
    var pa, pb := Pow(a, n - 1), Pow(b, n - 1);
    PowStep(a, n);
    PowStep(b, n);
    if n == 1 {
      assert pa == 1.0 && pb == 1.0;
    } else {
      PowStrictBase(a, b, n - 1);
      assert pa > 0.0;
      MulStrict(pa, a, b);
      MulStrict(b, pa, pb);
      calc {
        Pow(a, n);
      ==
        a * pa;
      <
        b * pa;
      <
        b * pb;
      ==
        Pow(b, n);
      }
    }
  }

  /** From 2018 on, a non-negative cost with a non-negative rate never rises in later periods. */
  lemma DiscountedNonIncreasing(base: real, rate: real, t: Period, u: Period)
    requires base >= 0.0 && rate >= 0.0
    requires StartingTimePeriod <= t <= u
    ensures Discounted(base, rate, u) <= Discounted(base, rate, t)
  {
    PowMonotoneExponent(1.0 + rate, t - StartingTimePeriod, u - StartingTimePeriod);
    DivideByLarger(base, Pow(1.0 + rate, t - StartingTimePeriod), Pow(1.0 + rate, u - StartingTimePeriod));
  }

  /** After 2018 a positive cost discounted at a strictly higher rate is strictly lower. */
  lemma DiscountedStrictInRate(base: real, low: real, high: real, t: Period)
    requires base > 0.0 && 0.0 <= low < high
    requires t > StartingTimePeriod
    ensures Discounted(base, high, t) < Discounted(base, low, t)
  {
    var n := t - StartingTimePeriod;
    var pl, ph := Pow(1.0 + low, n), Pow(1.0 + high, n);
    PowStrictBase(1.0 + low, 1.0 + high, n);
    DivideByStrictlyLarger(base, pl, ph);
  }
}
