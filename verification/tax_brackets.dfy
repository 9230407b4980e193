/**
 * Panama's 2025 individual income tax (ISR) bracket table, applied to an
 * annual amount:
 *
 *   up to 11 000            no tax                       marginal rate 0
 *   11 000 to 50 000        15% of the excess over 11 000 marginal rate 15
 *   above 50 000            5 850 plus 25% of the excess  marginal rate 25
 *
 * The payroll engine uses this table on the annualised salary; the freelance
 * solver carries its own copy of it (FreelanceRate.ProgressiveIncomeTax),
 * which is proved equal to this one.
 */
module TaxBrackets {

  const ExemptThreshold: real := 11000.0
  const UpperThreshold: real := 50000.0

  /** The annual income tax on annual income a. */
  function AnnualIncomeTax(a: real): (t: real)
    ensures t >= 0.0
    ensures t == 0.0 <==> a <= ExemptThreshold
    ensures a >= 0.0 ==> t <= 0.25 * a
  {
    if a > ExemptThreshold then
      if a <= UpperThreshold then (a - ExemptThreshold) * 0.15
      else (UpperThreshold - ExemptThreshold) * 0.15 + (a - UpperThreshold) * 0.25
    else 0.0
  }

  /** The bracket's marginal rate, in percent, reported for annual income a. */
  function MarginalRate(a: real): (r: real)
    ensures r == 0.0 || r == 15.0 || r == 25.0
    ensures r == 0.0 <==> a <= ExemptThreshold
    ensures r == 25.0 <==> a > UpperThreshold
  {
    if a > ExemptThreshold then
      if a <= UpperThreshold then 15.0 else 25.0
    else 0.0
  }

  function Max(x: real, y: real): real { if x < y then y else x }
  function Min(x: real, y: real): real { if x < y then x else y }

  /**
   * Reference definition: the tax as the sum of what each bracket's slice of
   * the income pays.
   */
  function SliceTax(a: real): real
  {
    0.15 * Max(0.0, Min(a, UpperThreshold) - ExemptThreshold)
    + 0.25 * Max(0.0, a - UpperThreshold)
  }

  lemma AnnualIncomeTaxIsSliceSum(a: real)
    ensures AnnualIncomeTax(a) == SliceTax(a)
  {
  }

  /** The two formulas meet at both thresholds: the tax is continuous there. */
  lemma AnnualIncomeTaxAtThresholds()
    ensures AnnualIncomeTax(ExemptThreshold) == 0.0
    ensures AnnualIncomeTax(UpperThreshold) == 5850.0
    ensures AnnualIncomeTax(UpperThreshold + 0.01) == 5850.0 + 0.01 * 0.25
    ensures AnnualIncomeTax(ExemptThreshold + 0.01) == 0.01 * 0.15
    ensures MarginalRate(ExemptThreshold + 0.01) == 15.0
    ensures MarginalRate(UpperThreshold + 0.01) == 25.0
  {
  }

  /**
   * The tax never decreases as income rises, and never rises by more than
   * 25% of the extra income (so it is continuous everywhere).
   */
  lemma AnnualIncomeTaxGrowth(a: real, b: real)
    requires a <= b
    ensures 0.0 <= AnnualIncomeTax(b) - AnnualIncomeTax(a) <= 0.25 * (b - a)
  {
  }

  /**
   * The reported rate is the slope of the tax: between two incomes that are
   * reported with the same rate, the tax grows by exactly that percentage.
   */
  lemma MarginalRateIsSlope(a: real, b: real)
    requires a <= b && MarginalRate(a) == MarginalRate(b)
    ensures AnnualIncomeTax(b) - AnnualIncomeTax(a) == MarginalRate(b) / 100.0 * (b - a)
  {
  }
}
