# Panama freelance and payroll calculator: the calculation core in Dafny

This project models the calculation library of the Panama freelance-rate and
payroll calculator. That library is `client/src/lib/calculations.ts`, and it
does four things:

- **Payroll deductions** (`calculateDeductions`, `calculateFreelancerDeductions`).
  - Input: a birth date, a monthly gross salary and the worker class (employee or independent).
  - Output: the monthly social-security contribution (CSS), the income tax (ISR), the education insurance and the net salary.
  - CSS is 9.75 % for employees and 9.36 % for independents. It applies only to workers born on or after 1 January 1972.
  - ISR uses the 2025 bracket table on the annualised salary: 0 up to 11 000, 15 % up to 50 000, 25 % above that.
  - Education insurance is 1.25 %.
- **Gross-salary estimation** (`calculateEstimatedGrossSalary`).
  - It searches for the gross salary whose net salary is a given target.
  - It runs at most 50 passes of `gross += 1.2 * (target - net(gross))`.
  - It stops when the gap is under 1. A negative estimate is clamped to 0.
- **Freelance rate** (`calculateFreelanceRate`).
  - Input: a desired net annual income, six monthly deductible expenses, three configured rates and a working schedule.
  - It searches for the gross annual income to bill, with at most 50 passes at factor 1.35 or 1.2 and a tolerance of 0.01.
  - It also reports the taxes, the net income rounded to the cent, the tax saved by deducting expenses, and the hourly rate.
- **Shared pieces.**
  - The income tax of the freelance solver is the bracket table when the configured rate is exactly 15 or 25. Otherwise it is a flat rate on the excess over 11 000.
  - Social security and education insurance are flat shares of the taxable income.

Modules:

- `TaxBrackets` (tax_brackets.dfy): the ISR bracket table and its properties.
- `Payroll` (payroll.dfy): the two deduction functions. They are pure, so they are Dafny functions with lemmas.
- `GrossEstimator` (gross_estimator.dfy): the estimator loop, as a `method` with a `while` loop and invariants.
- `FreelanceRate` (freelance_rate.dfy): the freelance solver. The method keeps the source's loop; its inner helpers are functions.
- `FixedPoint` (fixed_point.dfy): the convergence argument shared by the two solvers.

The main theorem behind the solvers (`FixedPoint.StepHalvesGap`):

- The net amount grows with the gross amount at a slope between 0.64 and 1.
  - The deductions never take more than 36 % of a raise: 25 % top bracket plus 9.75 % CSS plus 1.25 % education, or 25 % plus 11 % of contributions in the freelance case.
- Under that slope, a correction by 1.2 or 1.35 of the gap at least halves the gap.
- It also keeps a safe iterate safe. An iterate is safe when it is non-negative and, if it has overshot the target, lies at least twice the overshoot above zero. A safe iterate is therefore never sent below zero. (A merely non-negative iterate can be: for an eligible employee with target 0, the estimate 100 has net 89 and moves to −6.8.)

The consequences:

- The estimator reaches its tolerance within the 50 passes for every target from 0 to 10^12. A negative target is returned at once when its first gap is under 1, and is otherwise clamped to 0 after one adjustment.
- The freelance solver reaches its tolerance within the 50 passes for every desired income from 10 000 to 10^12, within the modelled rates.
- The estimator never clamps a non-negative target.

Both solver methods return two extra out-parameters that the source does not have:

- `exit`: whether the loop converged, clamped or ran out of passes.
- `adjustments`: how many times the estimate moved.

They exist only so that the contracts can say how the loop ended.

Numbers are exact reals. Birth dates are (year, month, day) triples compared lexicographically.

## Model

| member | source | states |
|---|---|---|
| TaxBrackets.AnnualIncomeTax | client/src/lib/calculations.ts:205-216 | The ISR on an annual income is never negative. It is zero exactly when the income is at most 11 000. On a non-negative income it is at most 25 % of that income. |
| TaxBrackets.MarginalRate | client/src/lib/calculations.ts:206-216 | The reported rate is 0, 15 or 25. It is 0 exactly when the income is at most 11 000, and 25 exactly when the income is above 50 000. |
| TaxBrackets.AnnualIncomeTaxIsSliceSum | client/src/lib/calculations.ts:208-215 | The nested-branch formula equals the independent definition: 15 % of the slice between 11 000 and 50 000 plus 25 % of the slice above 50 000. |
| TaxBrackets.AnnualIncomeTaxAtThresholds | client/src/lib/calculations.ts:208-215 | At both thresholds the two formulas meet: the tax is 0 at 11 000 and 5 850 at 50 000. Just past each threshold the marginal rate takes over. |
| TaxBrackets.AnnualIncomeTaxGrowth | client/src/lib/calculations.ts:208-215 | Between any two incomes a ≤ b, the tax grows by at least 0 and at most 25 % of b − a. |
| TaxBrackets.MarginalRateIsSlope | client/src/lib/calculations.ts:206-216 | Between two incomes that report the same rate, the tax grows by exactly that percentage of the difference. |
| Payroll.CalculateDeductions | client/src/lib/calculations.ts:178-242 | The worker is CSS-eligible exactly when born on or after 1972-01-01. The CSS rate is 9.36 for independents and 9.75 otherwise. CSS is zero when ineligible and the rate times the salary otherwise. The monthly ISR is the annual bracket tax on 12 × salary, divided by 12, with its marginal rate. Education is 1.25 % of the salary. The total is the sum of the three, and net = salary − total. On a non-negative salary the total lies between 0 and 36 % of the salary. |
| Payroll.CalculateFreelancerDeductions | client/src/lib/calculations.ts:309-360 | The CSS rate is always 9.36, whatever the worker-class flag says. |
| Payroll.FreelancerDeductionsAreIndependentDeductions | client/src/lib/calculations.ts:309-360 | The freelancer function gives exactly the general function's result for an independent worker, on every input. |
| Payroll.IneligibleWorkersPayNoCss | client/src/lib/calculations.ts:183-202 | A worker born before 1972 is not eligible and pays no CSS. The class's CSS rate is still reported. |
| Payroll.EligibilityBoundary | client/src/lib/calculations.ts:183-184 | Someone born on 1972-01-01 is eligible. Someone born on 1971-12-31 is not. |
| Payroll.WorkedExamples | client/src/lib/calculations.ts:178-242 | For a 1 000 monthly salary, born 1980: an employee gets the full record with net 877.5, and an independent gets net 881.4. |
| Payroll.NetSalarySlope | client/src/lib/calculations.ts:226-229 | Between any two salaries, the net salary changes in the same direction by between 64 % and 100 % of the change in gross. |
| Payroll.NetSalaryMonotone | client/src/lib/calculations.ts:226-229 | A higher gross salary never gives a lower net salary. |
| Payroll.NetSalaryAtZero | client/src/lib/calculations.ts:226-229 | A zero salary has a zero net salary. |
| GrossEstimator.CalculateEstimatedGrossSalary | client/src/lib/calculations.ts:251-306 | The returned deductions are those of the returned gross. On convergence the net salary is within 1 of the target. A clamp leaves gross 0. At most 50 adjustments are made. A non-negative target is never clamped and gives a non-negative gross. A target between 0 and 10^12 always converges. A negative target is returned unchanged or clamped after one adjustment. |
| GrossEstimator.FirstPass | client/src/lib/calculations.ts:258-261 | The initial estimate (the target itself) satisfies the loop invariant. For a non-negative target it falls short by at most 36 % of the target. |
| GrossEstimator.Pass | client/src/lib/calculations.ts:264-292 | A pass that missed the tolerance sends a non-negative target's estimate to a non-negative one, which again satisfies the loop invariant: the estimate stays safe, and for a target up to 10^12 the gap halves. It drives a negative target's estimate below zero. |
| GrossEstimator.NegativeTargetOvershoots | client/src/lib/calculations.ts:259-290 | For a negative target, the first gap is not positive, so the first adjustment moves the estimate further below zero. |
| FixedPoint.Abs | client/src/lib/calculations.ts:127 | The absolute value is non-negative, equals x or −x, and is below 1 exactly when −1 < x < 1. |
| FixedPoint.StepHalvesGap | client/src/lib/calculations.ts:133-140 | When the net value has slope between 0.64 and 1, a correction by 1.2 or 1.35 of the gap keeps the iterate safe (non-negative) and at least halves the gap. |
| FixedPoint.PassKeepsTrack | client/src/lib/calculations.ts:119-149 | A pass that missed the tolerance keeps the halving bound. When the ceiling is below tolerance × 2^49, that pass was not among the last, so the search converges within the 50 passes (2^49 is computed through the exponent law 2^(a+b) = 2^a × 2^b). |
| FreelanceRate.ProgressiveIncomeTax | client/src/lib/calculations.ts:79-87 | The freelance solver's own copy of the bracket table equals the payroll table on every income. |
| FreelanceRate.AdjustmentFactor | client/src/lib/calculations.ts:133-138 | The factor is 1.35 or 1.2, and it is 1.2 exactly when the gap is under 100. The 1.1 branch can never be taken. |
| FreelanceRate.RoundToCent | client/src/lib/calculations.ts:157 | The rounded value lies in (x − 0.005, x + 0.005] and is a whole number of cents. |
| FreelanceRate.RoundToCentIdempotent | client/src/lib/calculations.ts:157 | Rounding an already-rounded amount changes nothing. |
| FreelanceRate.HourlyRate | client/src/lib/calculations.ts:164 | With positive billable hours, rate × hours = gross. Otherwise the rate is 0. |
| FreelanceRate.CalculateFreelanceRate | client/src/lib/calculations.ts:52-176 | The outputs are as follows. Expenses are 12 times the six monthly expenses. Billable hours are weeks × hours minus vacation days / 5 × hours. Taxable income is gross minus expenses, and the taxes are those of the taxable income. Net income is taxable minus taxes, rounded to the cent. The savings are the taxes on the gross minus the taxes on the taxable income. The hourly rate is gross over hours. On convergence the unrounded net is within 0.01 of the desired income. A clamp leaves taxable income 1 000. At most 50 adjustments are made. With rates in the modelled range and a desired income from 10 000 to 10^12, the search always converges. With non-negative rates and expenses, the savings are never negative. |
| FreelanceRate.FirstPass | client/src/lib/calculations.ts:115 | The seed (desired income + expenses + 10 000) satisfies the solver invariant. |
| FreelanceRate.Pass | client/src/lib/calculations.ts:119-149 | Within the convergence range, a pass that missed the tolerance halves the gap and never takes the gross below the expenses, so the clamp is never reached. |
| FreelanceRate.FlatTaxGrowth | client/src/lib/calculations.ts:100-103 | The flat income tax at a rate of q % grows by between 0 and q % of any increase in income. |
| FreelanceRate.IncomeTaxGrowth | client/src/lib/calculations.ts:94-104 | In either mode, with a non-negative configured rate, the income tax never decreases with income. With a rate of at most 25 it grows by at most 25 % of the increase. |
| FreelanceRate.ContributionRate | client/src/lib/calculations.ts:106-107 | Between any two incomes, social security plus education change by exactly (ss + edu) % of the change in income. |
| FreelanceRate.ContributionGrowth | client/src/lib/calculations.ts:106-107 | With non-negative rates, the contributions never decrease with income. With a combined rate of at most 11 they grow by at most 11 % of the increase. |
| FreelanceRate.TotalTaxesMonotone | client/src/lib/calculations.ts:90-109 | With non-negative rates, more taxable income is never taxed less. So deducting expenses never raises the taxes (lines 160-161). |
| FreelanceRate.TotalTaxesGrowth | client/src/lib/calculations.ts:90-109 | Within the modelled rates, the taxes take between 0 and 36 % of any extra taxable income. |
| FreelanceRate.NetIncomeSlope | client/src/lib/calculations.ts:120-122 | Within the modelled rates, the net income moves with the taxable income by 64 % to 100 % of each change. |
| FreelanceRate.ConfiguredRateIsNotMonotone | client/src/lib/calculations.ts:96-104 | The exact-match test for 15 and 25 makes the income tax jump. On 100 000 of taxable income, a configured rate of 16 is taxed less than a rate of 15 (flat 14 240 against bracket 18 350). |

## Left out

- Binary floating point: all amounts are exact reals. IEEE-754 rounding of the intermediate products, and the effect it has on where the solvers stop, is not modelled. `RoundToCent` models `Math.round(x * 100) / 100` as round-half-up on the exact value.
- `Date` values: birth dates are calendar triples. JavaScript compares instants, and `new Date('1972-01-01')` is midnight UTC. In a time zone east of UTC, a birth date of 1 January 1972 entered at local midnight falls before that instant. The model decides eligibility on the calendar date alone. The application itself builds birth dates from a `YYYY-MM-DD` date input and from the saved ISO string (deductions-calculator.tsx, lines 22 and 217). Both are parsed as midnight UTC, so on that path the comparison agrees with the calendar date.
- The default `isIndependent = false` of the deduction and estimation inputs: the flag is a required field here. Callers that omit it correspond to passing `false`.
- The `isCSSEligible` computed at lines 255-256 of the estimator: it is never used there, so it is not modelled.
- `formatCurrency` and `formatNumber` (lines 244-249 and 362-364): they are locale-dependent string formatting, and the model has no locale data.
- The user interface, form handling, local storage and export code of the application: they are not part of the calculation core.
- GrossEstimator.CalculateEstimatedGrossSalary: convergence is proved only for targets from 0 to 10^12. Beyond that the contract states only what holds for every pass.
- FreelanceRate.CalculateFreelanceRate: convergence is proved only for rates in the modelled range and desired incomes from 10 000 to 10^12.
  - The modelled range is an income tax rate of at most 25 and contributions of at most 11 together; the defaults and the "without deductions" run are inside it.
  - Outside that range the contract states only the output relations, the bounds on the number of adjustments and what the exit kind implies.
