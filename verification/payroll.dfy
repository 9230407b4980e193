/**
 * The payroll deduction engine: from a birth date, a monthly gross salary
 * and the worker class, the monthly social-security (CSS) contribution,
 * income tax (ISR) and education insurance, and the net salary.
 */
module Payroll {
  import opened TaxBrackets
  import FixedPoint

  /** A calendar date; the time of day and the time zone are not modelled. */
  datatype Date = Date(year: int, month: int, day: int)

  /** Lexicographic order on (year, month, day). */
  predicate OnOrAfter(d: Date, e: Date)
  {
    d.year > e.year
    || (d.year == e.year && (d.month > e.month || (d.month == e.month && d.day >= e.day)))
  }

  /** Workers born on or after this date contribute to CSS (Law 51 of 2005). */
  const CssEligibilityDate: Date := Date(1972, 1, 1)

  datatype DeductionInputs = DeductionInputs(birthDate: Date, monthlySalary: real, isIndependent: bool)

  datatype DeductionResult = DeductionResult(
    isCSSEligible: bool,
    cssAmount: real,
    cssRate: real,
    incomeTaxAmount: real,
    incomeTaxRate: real,
    educationAmount: real,
    educationRate: real,
    totalDeductions: real,
    netSalary: real)

  /** The monthly deductions; amounts are per month, rates are percentages. */
  function CalculateDeductions(inputs: DeductionInputs): (r: DeductionResult)
    ensures r.isCSSEligible <==> OnOrAfter(inputs.birthDate, CssEligibilityDate)
    ensures r.cssRate == (if inputs.isIndependent then 9.36 else 9.75)
    ensures !r.isCSSEligible ==> r.cssAmount == 0.0
    ensures r.isCSSEligible && inputs.isIndependent ==> r.cssAmount == inputs.monthlySalary * 0.0936
    ensures r.isCSSEligible && !inputs.isIndependent ==> r.cssAmount == inputs.monthlySalary * 0.0975
    ensures r.incomeTaxAmount == AnnualIncomeTax(12.0 * inputs.monthlySalary) / 12.0
    ensures r.incomeTaxRate == MarginalRate(12.0 * inputs.monthlySalary)
    ensures r.educationRate == 1.25
    ensures r.educationAmount == inputs.monthlySalary * 0.0125
    ensures r.totalDeductions == r.cssAmount + r.incomeTaxAmount + r.educationAmount
    ensures r.netSalary == inputs.monthlySalary - r.totalDeductions
    ensures inputs.monthlySalary >= 0.0 ==>
      0.0 <= r.totalDeductions <= 0.36 * inputs.monthlySalary
  {
    var isCSSEligible := OnOrAfter(inputs.birthDate, CssEligibilityDate);
    var annualSalary := inputs.monthlySalary * 12.0;
    var cssRate := if inputs.isIndependent then 9.36 else 9.75;
    var cssAmount :=
      if !isCSSEligible then 0.0
      else if inputs.isIndependent then inputs.monthlySalary * 9.36 / 100.0
      else inputs.monthlySalary * 9.75 / 100.0;
    var incomeTaxAmount :=
      if annualSalary > ExemptThreshold then
        if annualSalary <= UpperThreshold then (annualSalary - ExemptThreshold) * 0.15
        else (UpperThreshold - ExemptThreshold) * 0.15 + (annualSalary - UpperThreshold) * 0.25
      else 0.0;
    var incomeTaxRate :=
      if annualSalary > ExemptThreshold then
        if annualSalary <= UpperThreshold then 15.0 else 25.0
      else 0.0;
    var monthlyIncomeTax := incomeTaxAmount / 12.0;
    var educationRate := 1.25;
    var educationAmount := inputs.monthlySalary * 1.25 / 100.0;
    var totalDeductions := cssAmount + monthlyIncomeTax + educationAmount;
    DeductionResult(isCSSEligible, cssAmount, cssRate, monthlyIncomeTax, incomeTaxRate,
                    educationAmount, educationRate, totalDeductions,
                    inputs.monthlySalary - totalDeductions)
  }

  /**
   * The freelancer variant: the same computation with the independent CSS
   * rate fixed, whatever the isIndependent flag says.
   */
  function CalculateFreelancerDeductions(inputs: DeductionInputs): (r: DeductionResult)
    ensures r.cssRate == 9.36
  {
    var isCSSEligible := OnOrAfter(inputs.birthDate, CssEligibilityDate);
    var annualSalary := inputs.monthlySalary * 12.0;
    var cssRate := 9.36;
    var cssAmount := if isCSSEligible then inputs.monthlySalary * 9.36 / 100.0 else 0.0;
    var incomeTaxAmount :=
      if annualSalary > ExemptThreshold then
        if annualSalary <= UpperThreshold then (annualSalary - ExemptThreshold) * 0.15
        else (UpperThreshold - ExemptThreshold) * 0.15 + (annualSalary - UpperThreshold) * 0.25
      else 0.0;
    var incomeTaxRate :=
      if annualSalary > ExemptThreshold then
        if annualSalary <= UpperThreshold then 15.0 else 25.0
      else 0.0;
    var monthlyIncomeTax := incomeTaxAmount / 12.0;
    var educationRate := 1.25;
    var educationAmount := inputs.monthlySalary * 1.25 / 100.0;
    var totalDeductions := cssAmount + monthlyIncomeTax + educationAmount;
    DeductionResult(isCSSEligible, cssAmount, cssRate, monthlyIncomeTax, incomeTaxRate,
                    educationAmount, educationRate, totalDeductions,
                    inputs.monthlySalary - totalDeductions)
  }

  /** The freelancer variant is the general engine run for an independent worker. */
  lemma FreelancerDeductionsAreIndependentDeductions(inputs: DeductionInputs)
    ensures CalculateFreelancerDeductions(inputs)
         == CalculateDeductions(inputs.(isIndependent := true))
  {
  }

  /** The net salary at monthly gross m. */
  function NetSalary(birthDate: Date, m: real, isIndependent: bool): real
  {
    CalculateDeductions(DeductionInputs(birthDate, m, isIndependent)).netSalary
  }

  /** Workers born before 1972 pay no CSS, whatever their class; the rate is still reported. */
  lemma IneligibleWorkersPayNoCss(inputs: DeductionInputs)
    requires !OnOrAfter(inputs.birthDate, CssEligibilityDate)
    ensures !CalculateDeductions(inputs).isCSSEligible
    ensures CalculateDeductions(inputs).cssAmount == 0.0
    ensures CalculateDeductions(inputs).cssRate == (if inputs.isIndependent then 9.36 else 9.75)
  {
  }

  /** The eligibility boundary falls exactly between 31 December 1971 and 1 January 1972. */
  lemma EligibilityBoundary(m: real, isIndependent: bool)
    ensures CalculateDeductions(DeductionInputs(Date(1972, 1, 1), m, isIndependent)).isCSSEligible
    ensures !CalculateDeductions(DeductionInputs(Date(1971, 12, 31), m, isIndependent)).isCSSEligible
  {
  }

  /** Employee and independent born 1980 earning 1 000 a month. */
  lemma WorkedExamples()
    ensures CalculateDeductions(DeductionInputs(Date(1980, 1, 1), 1000.0, false))
         == DeductionResult(true, 97.5, 9.75, 12.5, 15.0, 12.5, 1.25, 122.5, 877.5)
    ensures CalculateDeductions(DeductionInputs(Date(1980, 1, 1), 1000.0, true))
         == DeductionResult(true, 93.6, 9.36, 12.5, 15.0, 12.5, 1.25, 118.6, 881.4)
  {
  }

  /**
   * Between any two salaries x and y the net salary moves in the same
   * direction as the gross, by at least 64% and at most 100% of the change
   * in gross: the deductions together never take more than 36% of a raise
   * (9.75% CSS, 25% top ISR bracket, 1.25% education).
   */
  lemma NetSalarySlope(birthDate: Date, isIndependent: bool, x: real, y: real)
    ensures FixedPoint.SlopeBetween(x, y, NetSalary(birthDate, x, isIndependent),
                                    NetSalary(birthDate, y, isIndependent))
  {
    if x <= y {
      AnnualIncomeTaxGrowth(12.0 * x, 12.0 * y);
    } else {
      AnnualIncomeTaxGrowth(12.0 * y, 12.0 * x);
    }
  }

  /** Raising the gross salary never lowers the net salary. */
  lemma NetSalaryMonotone(birthDate: Date, isIndependent: bool, x: real, y: real)
    requires x <= y
    ensures NetSalary(birthDate, x, isIndependent) <= NetSalary(birthDate, y, isIndependent)
  {
    NetSalarySlope(birthDate, isIndependent, x, y);
  }

  /** No salary, no deductions. */
  lemma NetSalaryAtZero(birthDate: Date, isIndependent: bool)
    ensures NetSalary(birthDate, 0.0, isIndependent) == 0.0
  {
  }
}
