/**
 * The gross-salary estimator: given a desired monthly net salary, search
 * for the gross salary that the payroll engine turns into it, by at most
 * 50 corrective passes of `gross += 1.2 * (target - net)`.
 */
module GrossEstimator {
  import opened FixedPoint
  import opened Payroll

  datatype EstimationInputs = EstimationInputs(birthDate: Date, targetNetSalary: real, isIndependent: bool)

  /** The payroll result at the estimated gross, together with that gross. */
  datatype EstimationResult = EstimationResult(deductions: DeductionResult, estimatedGrossSalary: real)

  const AdjustmentFactor: real := 1.2
  const Tolerance: real := 1.0

  /** Targets up to this size are reached within the 50 passes. */
  const ConvergenceCeiling: real := 1000000000000.0

  /**
   * What holds at the top of every pass: a negative target is still at its
   * first pass; a non-negative one is at a safe estimate; a target within
   * the ceiling has had its gap halved at every pass so far, which leaves
   * passes to spare.
   */
  ghost predicate PassInvariant(inputs: EstimationInputs, m: real, iterations: nat)
  {
    var target := inputs.targetNetSalary;
    && (target < 0.0 ==> iterations == 0 && m == target)
    && (target >= 0.0 ==> Safe(m, target - NetSalary(inputs.birthDate, m, inputs.isIndependent)))
    && (0.0 <= target <= ConvergenceCeiling ==>
          OnTrack(target, m, NetSalary(inputs.birthDate, m, inputs.isIndependent),
                  iterations, ConvergenceCeiling)
          && iterations < MaxIterations)
  }

  /**
   * `exit` and `adjustments` report how the loop ended and how many times
   * it moved the estimate (a clamped move included).
   */
  method CalculateEstimatedGrossSalary(inputs: EstimationInputs)
    returns (r: EstimationResult, exit: Exit, adjustments: nat)
    ensures r.deductions
         == CalculateDeductions(DeductionInputs(inputs.birthDate, r.estimatedGrossSalary, inputs.isIndependent))
    ensures adjustments <= MaxIterations
    ensures exit == Exhausted ==> adjustments == MaxIterations
    ensures exit == Converged ==> Abs(inputs.targetNetSalary - r.deductions.netSalary) < Tolerance
    ensures exit == Clamped ==> r.estimatedGrossSalary == 0.0 && adjustments > 0
    ensures inputs.targetNetSalary >= 0.0 ==> exit != Clamped && r.estimatedGrossSalary >= 0.0
    ensures 0.0 <= inputs.targetNetSalary <= ConvergenceCeiling ==> exit == Converged
    ensures inputs.targetNetSalary < 0.0 ==>
      (exit == Converged && adjustments == 0 && r.estimatedGrossSalary == inputs.targetNetSalary)
      || (exit == Clamped && adjustments == 1)
  {
    var target := inputs.targetNetSalary;
    var estimatedGrossSalary := target;
    var iterations := 0;
    exit := Exhausted;
    FirstPass(inputs);
    while iterations < MaxIterations
      invariant 0 <= iterations <= MaxIterations
      invariant PassInvariant(inputs, estimatedGrossSalary, iterations)
    {
      var testResults := CalculateDeductions(
        DeductionInputs(inputs.birthDate, estimatedGrossSalary, inputs.isIndependent));
      var difference := target - testResults.netSalary;
      if Abs(difference) < 1.0 {
        return EstimationResult(testResults, estimatedGrossSalary), Converged, iterations;
      }
      ghost var previous := estimatedGrossSalary;
      estimatedGrossSalary := estimatedGrossSalary + difference * AdjustmentFactor;
      Pass(inputs, previous, estimatedGrossSalary, iterations);
      if estimatedGrossSalary < 0.0 {
        estimatedGrossSalary := 0.0;
        exit := Clamped;
        break;
      }
      iterations := iterations + 1;
    }
    adjustments := if exit == Clamped then iterations + 1 else iterations;
    var finalResults := CalculateDeductions(
      DeductionInputs(inputs.birthDate, estimatedGrossSalary, inputs.isIndependent));
    r := EstimationResult(finalResults, estimatedGrossSalary);
  }

  /**
   * The first estimate is the target itself; for a non-negative target it
   * falls short by the deductions at that salary, at most 36% of it.
   */
  lemma FirstPass(inputs: EstimationInputs)
    ensures PassInvariant(inputs, inputs.targetNetSalary, 0)
    ensures inputs.targetNetSalary >= 0.0 ==>
      var target := inputs.targetNetSalary;
      0.0 <= target - NetSalary(inputs.birthDate, target, inputs.isIndependent) <= 0.36 * target
  {
    var target := inputs.targetNetSalary;
    if target >= 0.0 {
      var d := CalculateDeductions(DeductionInputs(inputs.birthDate, target, inputs.isIndependent));
      assert 0.0 <= target - NetSalary(inputs.birthDate, target, inputs.isIndependent) == d.totalDeductions <= 0.36 * target;
    }
  }

  /**
   * One pass that did not meet the tolerance, from m to m': a negative
   * target is driven below zero (and is clamped); any other keeps the
   * invariant.
   */
  lemma Pass(inputs: EstimationInputs, m: real, m': real, iterations: nat)
    requires iterations < MaxIterations
    requires PassInvariant(inputs, m, iterations)
    requires Abs(inputs.targetNetSalary - NetSalary(inputs.birthDate, m, inputs.isIndependent)) >= Tolerance
    requires m' == m + 1.2 * (inputs.targetNetSalary - NetSalary(inputs.birthDate, m, inputs.isIndependent))
    ensures inputs.targetNetSalary < 0.0 ==> m' < 0.0
    ensures inputs.targetNetSalary >= 0.0 ==> m' >= 0.0
    ensures m' >= 0.0 ==> PassInvariant(inputs, m', iterations + 1)
  {
    var target := inputs.targetNetSalary;
    if target < 0.0 {
      NegativeTargetOvershoots(inputs);
    } else {
      NetSalarySlope(inputs.birthDate, inputs.isIndependent, m, m');
      StepHalvesGap(target, 1.2, m, NetSalary(inputs.birthDate, m, inputs.isIndependent),
                    m', NetSalary(inputs.birthDate, m', inputs.isIndependent));
      if target <= ConvergenceCeiling {
        PassKeepsTrack(target, 1.2, Tolerance, ConvergenceCeiling,
                       m, NetSalary(inputs.birthDate, m, inputs.isIndependent),
                       m', NetSalary(inputs.birthDate, m', inputs.isIndependent), iterations);
      }
    }
  }

  /**
   * A negative target is never below the net salary it names as a gross,
   * so correcting from there only lowers the estimate.
   */
  lemma NegativeTargetOvershoots(inputs: EstimationInputs)
    requires inputs.targetNetSalary < 0.0
    ensures inputs.targetNetSalary - NetSalary(inputs.birthDate, inputs.targetNetSalary, inputs.isIndependent) <= 0.0
  {
    NetSalaryAtZero(inputs.birthDate, inputs.isIndependent);
    NetSalarySlope(inputs.birthDate, inputs.isIndependent, inputs.targetNetSalary, 0.0);
  }
}
