/**
 * The freelance hourly-rate calculator: from a desired net annual income,
 * six monthly business expenses, three tax and contribution rates and a
 * working schedule, the gross annual income to bill and the hourly rate.
 *
 * The gross income is found by a bounded search of at most 50 passes,
 * `gross += factor * (annualIncome - net(gross))`, where the net income
 * is the gross minus the expenses minus the taxes on what is left.
 */
module FreelanceRate {
  import opened FixedPoint
  import TaxBrackets

  datatype FreelanceInputs = FreelanceInputs(
    annualIncome: real,        // desired net annual income
    officeRent: real,          // the six monthly expenses, all deductible
    equipment: real,
    insurance: real,
    marketing: real,
    training: real,
    otherExpenses: real,
    incomeTax: real,           // percent; exactly 15 or 25 selects the bracket table
    socialSecurity: real,      // percent of taxable income
    educationInsurance: real,  // percent of taxable income
    hoursPerWeek: real,
    weeksPerYear: real,
    vacationDays: real)

  datatype FreelanceResult = FreelanceResult(
    hourlyRate: real,
    grossAnnualIncome: real,
    annualExpenses: real,
    annualTaxes: real,
    netAnnualIncome: real,
    billableHours: real,
    taxableIncome: real,
    taxSavingsFromExpenses: real)

  const SeedMargin: real := 10000.0
  const Tolerance: real := 0.01
  const ClampMargin: real := 1000.0

  /** Desired incomes up to this size are reached within the 50 passes. */
  const ConvergenceCeiling: real := 1000000000000.0

  /** The calculator's own copy of the income tax bracket table. */
  function ProgressiveIncomeTax(taxableIncome: real): (t: real)
    ensures t == TaxBrackets.AnnualIncomeTax(taxableIncome)
  {
    if taxableIncome <= 11000.0 then 0.0
    else if taxableIncome <= 50000.0 then (taxableIncome - 11000.0) * 0.15
    else (50000.0 - 11000.0) * 0.15 + (taxableIncome - 50000.0) * 0.25
  }

  /** The configured income tax rate selects the bracket table only when it is exactly 15 or 25. */
  predicate UsesBracketTable(inputs: FreelanceInputs)
  {
    inputs.incomeTax == 15.0 || inputs.incomeTax == 25.0
  }

  /** The income tax part of the annual taxes. */
  function IncomeTaxAmount(inputs: FreelanceInputs, taxableIncome: real): real
  {
    if UsesBracketTable(inputs) then ProgressiveIncomeTax(taxableIncome)
    else FlatIncomeTax(inputs.incomeTax, taxableIncome)
  }

  /** The configured rate, in percent, on the part of the income above 11 000. */
  function FlatIncomeTax(rate: real, taxableIncome: real): real
  {
    if taxableIncome > 11000.0 then (taxableIncome - 11000.0) * (rate / 100.0) else 0.0
  }

  /**
   * All annual taxes on a taxable income: income tax, plus social security
   * and education insurance as flat shares of the taxable income.
   */
  function TotalTaxes(inputs: FreelanceInputs, taxableIncome: real): real
  {
    IncomeTaxAmount(inputs, taxableIncome) + Contributions(inputs, taxableIncome)
  }

  /** Social security and education insurance, both flat shares of the taxable income. */
  function Contributions(inputs: FreelanceInputs, taxableIncome: real): real
  {
    var cssAmount := taxableIncome * (inputs.socialSecurity / 100.0);
    var educationAmount := taxableIncome * (inputs.educationInsurance / 100.0);
    cssAmount + educationAmount
  }

  /** What is left of a taxable income after the taxes on it. */
  function NetIncome(inputs: FreelanceInputs, taxableIncome: real): real
  {
    taxableIncome - TotalTaxes(inputs, taxableIncome)
  }

  /**
   * The correction factor for a pass. Only 1.35 and 1.2 ever occur: the
   * factor 1.1 meant for differences under 10 sits behind the test for
   * differences under 100, which has already caught them.
   */
  function AdjustmentFactor(difference: real): (f: real)
    ensures f == 1.35 || f == 1.2
    ensures f == 1.2 <==> Abs(difference) < 100.0
  {
    if Abs(difference) < 100.0 then 1.2
    else if Abs(difference) < 10.0 then 1.1
    else 1.35
  }

  /** Math.round(x * 100) / 100: to the nearest cent, halves rounded up. */
  function RoundToCent(x: real): (r: real)
    ensures x - 0.005 < r <= x + 0.005
    ensures (r * 100.0).Floor as real == r * 100.0
  {
    (x * 100.0 + 0.5).Floor as real / 100.0
  }

  /** The hourly rate, guarded against a schedule with no billable hours. */
  function HourlyRate(grossAnnualIncome: real, billableHours: real): (h: real)
    ensures billableHours > 0.0 ==> h * billableHours == grossAnnualIncome
    ensures billableHours <= 0.0 ==> h == 0.0
  {
    if billableHours > 0.0 then grossAnnualIncome / billableHours else 0.0
  }

  /** All three rates are at least zero. */
  predicate NonNegativeRates(inputs: FreelanceInputs)
  {
    inputs.incomeTax >= 0.0 && inputs.socialSecurity >= 0.0 && inputs.educationInsurance >= 0.0
  }

  /**
   * The rates for which the convergence of the search is proved: an income
   * tax rate of at most 25% (either mode) and contributions of at most 11%
   * together. The calculator's defaults (15, 7.25, 1.25) and its "without
   * deductions" run (0, 0, 0) are in this range.
   */
  predicate RatesInModelledRange(inputs: FreelanceInputs)
  {
    NonNegativeRates(inputs)
    && inputs.incomeTax <= 25.0
    && inputs.socialSecurity + inputs.educationInsurance <= 11.0
  }

  /** The desired incomes for which the convergence of the search is proved. */
  predicate WithinConvergenceRange(inputs: FreelanceInputs)
  {
    RatesInModelledRange(inputs) && 10000.0 <= inputs.annualIncome <= ConvergenceCeiling
  }

  /**
   * What holds at the top of every pass: the first pass is at the seed,
   * later ones never below the expenses; within the convergence range the
   * search has halved its gap at every pass, which leaves passes to spare.
   */
  ghost predicate SolverInvariant(inputs: FreelanceInputs, annualExpenses: real, gross: real, iterations: nat)
  {
    && (iterations == 0 ==> gross == inputs.annualIncome + annualExpenses + SeedMargin)
    && (iterations > 0 ==> gross >= annualExpenses)
    && (WithinConvergenceRange(inputs) ==>
          OnTrack(inputs.annualIncome, gross - annualExpenses,
                  NetIncome(inputs, gross - annualExpenses), iterations, ConvergenceCeiling)
          && iterations < MaxIterations)
  }

  /**
   * `exit` and `adjustments` report how the search ended and how many times
   * it moved the gross income (a clamped move included).
   */
  method CalculateFreelanceRate(inputs: FreelanceInputs)
    returns (r: FreelanceResult, exit: Exit, adjustments: nat)
    ensures r.annualExpenses
         == 12.0 * (inputs.officeRent + inputs.equipment + inputs.insurance
                    + inputs.marketing + inputs.training + inputs.otherExpenses)
    ensures r.billableHours
         == inputs.hoursPerWeek * inputs.weeksPerYear - (inputs.vacationDays / 5.0) * inputs.hoursPerWeek
    ensures r.taxableIncome == r.grossAnnualIncome - r.annualExpenses
    ensures r.annualTaxes == TotalTaxes(inputs, r.taxableIncome)
    ensures r.netAnnualIncome == RoundToCent(r.taxableIncome - r.annualTaxes)
    ensures r.taxSavingsFromExpenses == TotalTaxes(inputs, r.grossAnnualIncome) - r.annualTaxes
    ensures r.hourlyRate == HourlyRate(r.grossAnnualIncome, r.billableHours)
    ensures adjustments <= MaxIterations
    ensures exit == Exhausted ==> adjustments == MaxIterations
    ensures exit == Converged ==> Abs(inputs.annualIncome - (r.taxableIncome - r.annualTaxes)) < Tolerance
    ensures exit == Clamped ==> r.taxableIncome == ClampMargin && adjustments > 0
    ensures adjustments == 0 ==> r.taxableIncome == inputs.annualIncome + SeedMargin
    ensures adjustments > 0 ==> r.taxableIncome >= 0.0
    ensures WithinConvergenceRange(inputs) ==> exit == Converged
    ensures NonNegativeRates(inputs) && r.annualExpenses >= 0.0 ==> r.taxSavingsFromExpenses >= 0.0
  {
    var monthlyExpenses := inputs.officeRent + inputs.equipment + inputs.insurance
                           + inputs.marketing + inputs.training + inputs.otherExpenses;
    var annualExpenses := monthlyExpenses * 12.0;

    var totalHoursPerYear := inputs.hoursPerWeek * inputs.weeksPerYear;
    var vacationHours := (inputs.vacationDays / 5.0) * inputs.hoursPerWeek;
    var billableHours := totalHoursPerYear - vacationHours;

    var grossAnnualIncome := inputs.annualIncome + annualExpenses + SeedMargin;
    var iterations := 0;
    exit := Exhausted;
    FirstPass(inputs, annualExpenses);
    while iterations < MaxIterations
      invariant 0 <= iterations <= MaxIterations
      invariant SolverInvariant(inputs, annualExpenses, grossAnnualIncome, iterations)
    {
      var taxableIncome := grossAnnualIncome - annualExpenses;
      var totalTaxes := TotalTaxes(inputs, taxableIncome);
      var netIncome := grossAnnualIncome - annualExpenses - totalTaxes;
      var difference := inputs.annualIncome - netIncome;
      if Abs(difference) < Tolerance {
        exit := Converged;
        break;
      }
      var adjustmentFactor := AdjustmentFactor(difference);
      ghost var previous := grossAnnualIncome;
      grossAnnualIncome := grossAnnualIncome + difference * adjustmentFactor;
      Pass(inputs, annualExpenses, previous, grossAnnualIncome, adjustmentFactor, iterations);
      if grossAnnualIncome < annualExpenses {
        grossAnnualIncome := annualExpenses + ClampMargin;
        exit := Clamped;
        break;
      }
      iterations := iterations + 1;
    }
    adjustments := if exit == Clamped then iterations + 1 else iterations;

    var finalTaxableIncome := grossAnnualIncome - annualExpenses;
    var annualTaxes := TotalTaxes(inputs, finalTaxableIncome);
    var actualNetIncome := grossAnnualIncome - annualExpenses - annualTaxes;
    var adjustedNetIncome := RoundToCent(actualNetIncome);

    var taxesWithoutExpenses := TotalTaxes(inputs, grossAnnualIncome);
    var taxSavingsFromExpenses := taxesWithoutExpenses - annualTaxes;
    if NonNegativeRates(inputs) && annualExpenses >= 0.0 {
      TotalTaxesMonotone(inputs, finalTaxableIncome, grossAnnualIncome);
    }

    var hourlyRate := HourlyRate(grossAnnualIncome, billableHours);

    r := FreelanceResult(hourlyRate, grossAnnualIncome, annualExpenses, annualTaxes,
                         adjustedNetIncome, billableHours, finalTaxableIncome, taxSavingsFromExpenses);
  }

  /** The seed keeps the invariant. */
  lemma FirstPass(inputs: FreelanceInputs, annualExpenses: real)
    ensures SolverInvariant(inputs, annualExpenses, inputs.annualIncome + annualExpenses + SeedMargin, 0)
  {
    if WithinConvergenceRange(inputs) {
      var x := inputs.annualIncome + SeedMargin;
      TotalTaxesGrowth(inputs, 0.0, x);
      assert TotalTaxes(inputs, 0.0) == 0.0;
      assert inputs.annualIncome + annualExpenses + SeedMargin - annualExpenses == x;
    }
  }

  /**
   * One pass that did not meet the tolerance, from gross g to g': within
   * the convergence range it keeps the search on track and never goes
   * below the expenses.
   */
  lemma Pass(inputs: FreelanceInputs, annualExpenses: real, g: real, g': real,
             factor: real, iterations: nat)
    requires iterations < MaxIterations
    requires SolverInvariant(inputs, annualExpenses, g, iterations)
    requires factor == 1.2 || factor == 1.35
    requires Abs(inputs.annualIncome - NetIncome(inputs, g - annualExpenses)) >= Tolerance
    requires g' == g + (inputs.annualIncome - NetIncome(inputs, g - annualExpenses)) * factor
    ensures WithinConvergenceRange(inputs) ==> g' >= annualExpenses
    ensures g' >= annualExpenses ==> SolverInvariant(inputs, annualExpenses, g', iterations + 1)
  {
    if WithinConvergenceRange(inputs) {
      var x, x' := g - annualExpenses, g' - annualExpenses;
      NetIncomeSlope(inputs, x, x');
      PassKeepsTrack(inputs.annualIncome, factor, Tolerance, ConvergenceCeiling,
                     x, NetIncome(inputs, x), x', NetIncome(inputs, x'), iterations);
    }
  }

  /** Flat income tax at a rate of q percent grows by at most q% of the extra income. */
  lemma FlatTaxGrowth(rate: real, x: real, y: real)
    requires 0.0 <= rate && x <= y
    ensures 0.0 <= FlatIncomeTax(rate, y) - FlatIncomeTax(rate, x) <= rate / 100.0 * (y - x)
  {
    var q := rate / 100.0;
    if x > 11000.0 {
      assert (y - 11000.0) * q - (x - 11000.0) * q == q * (y - x);
      MulNonNegative(q, y - x);
    } else if y > 11000.0 {
      MulNonNegative(q, y - 11000.0);
      MulNonNegative(q, 11000.0 - x);
      assert q * (y - x) - (y - 11000.0) * q == q * (11000.0 - x);
    } else {
      MulNonNegative(q, y - x);
    }
  }

  lemma RateBelowQuarter(rate: real, d: real)
    requires 0.0 <= rate <= 25.0 && d >= 0.0
    ensures rate / 100.0 * d <= 0.25 * d
  {
    MulLeft(rate / 100.0, 0.25, d);
  }

  lemma MulNonNegative(a: real, b: real)
    requires a >= 0.0 && b >= 0.0
    ensures a * b >= 0.0
  {
  }

  /** Income tax never decreases with income when the configured rate is not negative. */
  lemma IncomeTaxGrowth(inputs: FreelanceInputs, x: real, y: real)
    requires inputs.incomeTax >= 0.0 && x <= y
    ensures 0.0 <= IncomeTaxAmount(inputs, y) - IncomeTaxAmount(inputs, x)
    ensures inputs.incomeTax <= 25.0 ==>
      IncomeTaxAmount(inputs, y) - IncomeTaxAmount(inputs, x) <= 0.25 * (y - x)
  {
    if UsesBracketTable(inputs) {
      TaxBrackets.AnnualIncomeTaxGrowth(x, y);
    } else {
      FlatTaxGrowth(inputs.incomeTax, x, y);
      if inputs.incomeTax <= 25.0 {
        var bound := inputs.incomeTax / 100.0 * (y - x);
        RateBelowQuarter(inputs.incomeTax, y - x);
        assert bound <= 0.25 * (y - x);
        assert FlatIncomeTax(inputs.incomeTax, y) - FlatIncomeTax(inputs.incomeTax, x) <= bound;
      }
    }
  }

  /** The two contributions together grow by their combined rate. */
  lemma ContributionGrowth(inputs: FreelanceInputs, x: real, y: real)
    requires inputs.socialSecurity >= 0.0 && inputs.educationInsurance >= 0.0 && x <= y
    ensures 0.0 <= Contributions(inputs, y) - Contributions(inputs, x)
    ensures inputs.socialSecurity + inputs.educationInsurance <= 11.0 ==>
      Contributions(inputs, y) - Contributions(inputs, x) <= 0.11 * (y - x)
  {
    var k := inputs.socialSecurity / 100.0 + inputs.educationInsurance / 100.0;
    assert y * (inputs.socialSecurity / 100.0) + y * (inputs.educationInsurance / 100.0)
           - (x * (inputs.socialSecurity / 100.0) + x * (inputs.educationInsurance / 100.0))
           == k * (y - x);
    MulNonNegative(k, y - x);
    if inputs.socialSecurity + inputs.educationInsurance <= 11.0 {
      MulLeft(k, 0.11, y - x);
    }
  }

  /** The contributions grow by exactly their combined rate of any change in income. */
  lemma ContributionRate(inputs: FreelanceInputs, x: real, y: real)
    ensures Contributions(inputs, y) - Contributions(inputs, x)
         == (inputs.socialSecurity / 100.0 + inputs.educationInsurance / 100.0) * (y - x)
  {
  }

  /**
   * With no negative rate, a larger taxable income is never taxed less;
   * this is why deducting expenses never costs tax.
   */
  lemma TotalTaxesMonotone(inputs: FreelanceInputs, x: real, y: real)
    requires NonNegativeRates(inputs) && x <= y
    ensures TotalTaxes(inputs, x) <= TotalTaxes(inputs, y)
  {
    IncomeTaxGrowth(inputs, x, y);
    ContributionGrowth(inputs, x, y);
  }

  /**
   * Within the modelled rates the taxes take at most 36% of any extra
   * taxable income (25% income tax, 11% contributions).
   */
  lemma TotalTaxesGrowth(inputs: FreelanceInputs, x: real, y: real)
    requires RatesInModelledRange(inputs) && x <= y
    ensures 0.0 <= TotalTaxes(inputs, y) - TotalTaxes(inputs, x) <= 0.36 * (y - x)
  {
    IncomeTaxGrowth(inputs, x, y);
    ContributionGrowth(inputs, x, y);
  }

  /** Hence the net income moves with the taxable income, by 64% to 100% of each change. */
  lemma NetIncomeSlope(inputs: FreelanceInputs, x: real, y: real)
    requires RatesInModelledRange(inputs)
    ensures SlopeBetween(x, y, NetIncome(inputs, x), NetIncome(inputs, y))
  {
    if x <= y {
      TotalTaxesGrowth(inputs, x, y);
    } else {
      TotalTaxesGrowth(inputs, y, x);
    }
  }

  /** Rounding an amount already in whole cents leaves it unchanged. */
  lemma RoundToCentIdempotent(x: real)
    ensures RoundToCent(RoundToCent(x)) == RoundToCent(x)
  {
    var r := RoundToCent(x);
    var n := (r * 100.0).Floor;
    assert r * 100.0 == n as real;
    assert (r * 100.0 + 0.5).Floor == n;
  }

  /**
   * The exact-match rule for the bracket table makes the tax jump when the
   * configured rate moves off 15: on 100 000 of taxable income a configured
   * rate of 16% costs less income tax than one of 15%.
   */
  lemma ConfiguredRateIsNotMonotone(inputs: FreelanceInputs)
    requires inputs.incomeTax == 15.0
    ensures IncomeTaxAmount(inputs.(incomeTax := 16.0), 100000.0) < IncomeTaxAmount(inputs, 100000.0)
  {
  }
}
