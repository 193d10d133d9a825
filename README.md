# Final-grade calculator, modelled in Dafny

This project models a small final-grade calculator. A student holds up to ten
evaluations, each a grade with a percentage weight, and a flag saying whether
the minimum attendance was reached. The final grade is computed in these steps:

- take the weighted average of the evaluations, renormalised so that the
  weights count as if they added up to 100;
- deduct 2 points when the minimum attendance was not met;
- add 1 point when the teaching staff agreed on extra points for the academic
  year asked for;
- floor the result at 0, with no upper cap.

The calculator also produces a detailed report of the calculation.

Modules, one per source file, plus `Errors` (the shared failures) and
`Scenarios` (the test flows):

- `Errors` (`errors.dfy`): the failures and the `Result`/`Outcome` wrappers.
  Every failure the original raises on purpose is a `ValueError`. The model
  tells them apart by the message each is raised with.
- `Evaluations` (`evaluation.dfy`): the (grade, weight) value, the guarded
  constructor `NewEvaluation` and the weighted contribution. The subset type
  `ValidEvaluation` holds exactly the values that constructor can produce. In
  the original every `Evaluation` object has passed that constructor's checks,
  so a student holds only `ValidEvaluation`s.
- `Students` (`student.dfy`): the `Student` class. It has a `seq` of
  valid evaluations that `AddEvaluation` appends to in place (`modifies this`), the
  capacity invariant `Valid()` and the total weight `SumWeights`. Callers set
  the attendance flag by assigning the field directly, as in the original.
- `AttendancePolicies` (`attendance_policy.dfy`): the fixed penalty.
- `ExtraPointsPolicies` (`extra_points_policy.dfy`): the per-year table
  (`seq<bool>`), with range-guarded lookups.
- `GradeCalculators` (`grade_calculator.dfy`): `CalculateFinalGrade` and
  `GetCalculationDetails` as functions that read the student and cannot modify
  it. The report is a datatype that contains the calculation.
- `Scenarios` (`scenarios.dfy`): client methods that build students through
  the constructor and `AddEvaluation`, as the test suite does, and state the
  figures the calculator must give for them.

Grades and weights are exact `real`s.

## Model

| member | source | states |
|---|---|---|
| `Evaluations.NewEvaluation` | src/models/evaluation.py:15-32 | a negative grade fails first; a weight below 0 or above 100 fails; it succeeds exactly when grade >= 0 and 0 <= weight <= 100 (both bounds accepted), and then stores grade and weight unchanged |
| `Evaluations.WeightedGrade` | src/models/evaluation.py:34-41 | 100 times the contribution is grade times weight; a zero grade or zero weight contributes 0; for a valid evaluation the contribution lies between 0 and the grade |
| `Students.Student.constructor` | src/models/student.py:21-30 | a new student has the given id, no evaluations, attendance flag false, and satisfies the capacity invariant |
| `Students.Student.AddEvaluation` | src/models/student.py:42-46 | fails with the capacity error when 10 evaluations are already held and leaves the list unchanged; otherwise appends at the end; id and attendance flag never change; the invariant "at most 10 evaluations" is preserved; the total weight grows by exactly the new weight |
| `Students.SumWeights` | src/models/student.py:48-55 | the total weight (`Student.GetTotalWeight` returns it for the student's list): the in-order sum of the weights, 0 for an empty list; its laws are `SumWeightsConcat`, `ScaledSums`, `SumWeightsBounds` and `SumWeightsZeroIff` below |
| `Students.SumWeightsConcat` | src/models/student.py:48-55 | the total weight of two lists joined is the sum of their totals |
| `Students.ScaledSums` | src/models/student.py:55 | multiplying every weight by k multiplies the total weight by k |
| `Students.SumWeightsBounds` | src/models/student.py:48-55 | for valid evaluations the total weight lies between 0 and 100 times their count |
| `Students.SumWeightsZeroIff` | src/models/student.py:48-55 | for valid evaluations the total weight is 0 exactly when every weight is 0 |
| `Students.TotalWeightOfStudent` | src/models/student.py:48-55 | for every student the total weight lies between 0 and 100 times the number of evaluations held (so at most 1000 under the capacity invariant), and it is 0 exactly when every held weight is 0 |
| `AttendancePolicies.CalculatePenalty` | src/policies/attendance_policy.py:14-29 | the penalty is 0 exactly when attendance was reached and 2.0 exactly when it was not, so it always lies in [0, 2.0] |
| `AttendancePolicies.IsAttendanceValid` | src/policies/attendance_policy.py:31-42 | returns the attendance flag unchanged |
| `AttendancePolicies.PenaltyWaivedIffAttendanceValid` | src/policies/attendance_policy.py:16-42 | the two queries agree: no penalty exactly when attendance is valid |
| `ExtraPointsPolicies.IsExtraPointsActive` | src/policies/extra_points_policy.py:48-60 | false for a year below 0 or past the table; the table entry otherwise |
| `ExtraPointsPolicies.GetExtraPointsForYear` | src/policies/extra_points_policy.py:17-46 | 0 for a year outside the table (not an error); 1.0 for a year whose entry is true; 0 for one whose entry is false |
| `ExtraPointsPolicies.ExtraPointsMatchActivity` | src/policies/extra_points_policy.py:41-60 | the bonus is 1.0 exactly when the year is reported active and 0 otherwise |
| `GradeCalculators.WeightedSum` | src/calculator/grade_calculator.py:63 | the in-order sum of the weighted grades, 0 for an empty list; it equals the sum of grade times weight divided by 100 by `WeightedSumScalesProducts` below |
| `GradeCalculators.WeightedSumScalesProducts` | src/calculator/grade_calculator.py:63 | the sum of the weighted grades is the sum of grade times weight divided by 100 |
| `GradeCalculators.ProductsBounds` | src/calculator/grade_calculator.py:63 | for valid evaluations with grades at most `top`, the sum of grade times weight lies between 0 and `top` times the total weight |
| `GradeCalculators.Renormalise` | src/calculator/grade_calculator.py:64 | the renormalised average times the total weight is 100 times the weighted sum, for any non-zero total |
| `GradeCalculators.CalculateFinalGrade` | src/calculator/grade_calculator.py:33-85 | fails with "no evaluations" exactly for an empty list; fails with "zero total weight" exactly when a non-empty list has total weight 0; no other failure; on success, average times total weight equals the sum of grade times weight (renormalisation to 100, for any non-zero total); the penalty follows the attendance flag; the bonus is 1.0 exactly when the policy is active for the year (so 0 out of range); the final grade is at least 0 and at least average - penalty + bonus, and equals one of the two |
| `GradeCalculators.ZeroTotalWeightIffWeightless` | src/calculator/grade_calculator.py:55-60 | for every student, the calculation fails with "zero total weight" exactly when the student holds at least one evaluation and every weight is 0 |
| `GradeCalculators.FullWeightAverageIsWeightedSum` | src/calculator/grade_calculator.py:58-64 | when the weights add up to exactly 100 the calculation succeeds and the average is the plain sum of the weighted grades |
| `GradeCalculators.AverageWithinGradeRange` | src/calculator/grade_calculator.py:58-78 | for every student whose calculation succeeds, the average lies between 0 and the highest grade held, and the final grade exceeds that grade by at most the 1.0 bonus |
| `GradeCalculators.AverageBounds` | src/calculator/grade_calculator.py:62-64 | the renormalised average of valid evaluations with a non-zero total weight lies between 0 and their highest grade |
| `GradeCalculators.ScaledWeightedSum` | src/calculator/grade_calculator.py:63 | multiplying every weight by k multiplies the sum of the weighted grades by k |
| `GradeCalculators.ScaledAverage` | src/calculator/grade_calculator.py:62-64 | multiplying every weight by a positive factor keeps the total weight non-zero and leaves the renormalised average unchanged |
| `GradeCalculators.RenormalisationIgnoresScale` | src/calculator/grade_calculator.py:58-78 | multiplying every weight by the same positive factor changes neither the outcome nor any figure: a total weight above or below 100 is renormalised, not rejected or clamped |
| `GradeCalculators.CalculationIsDeterministic` | src/calculator/grade_calculator.py:55-85 | two students with the same evaluations and attendance flag get the same result from the same calculator and year, whatever their ids |
| `GradeCalculators.GetCalculationDetails` | src/calculator/grade_calculator.py:87-118 | fails exactly when the calculation fails, with the same error; on success reports the student id, the number of evaluations, one line per evaluation in order (grade, weight, and a contribution that is grade times weight over 100), the total weight, the attendance flag, whether the bonus is active for the year, and the calculation itself |
| `Scenarios.TenthAdditionSucceedsEleventhFails` | tests/test_student.py:29-39 | on a new student the tenth addition succeeds and the eleventh fails with the capacity error |
| `Scenarios.WeightedAverageScenario` | tests/test_grade_calculator.py:17-35 | grades 15/18/16 at weights 30/40/30, attendance met, no bonus: average 16.5, final 16.5 |
| `Scenarios.PenaltyScenario` | tests/test_grade_calculator.py:56-74 | grades 15/18 at 50/50 without attendance: average 16.5, penalty 2.0, final 14.5 |
| `Scenarios.ExtraPointsScenario` | tests/test_grade_calculator.py:80-97 | grade 14 at weight 100 with the year-0 bonus active: bonus 1.0, final 15.0 |
| `Scenarios.FloorScenario` | tests/test_grade_calculator.py:178-190 | grade 1 at weight 100 without attendance: final 0, not -1 |
| `Scenarios.OutOfRangeYearScenario` | tests/test_grade_calculator.py:192-204 | year 5 on a one-year table grants no bonus and is not an error |
| `Scenarios.FailureScenarios` | tests/test_grade_calculator.py:140-163 | no evaluations gives the "no evaluations" error; a single evaluation of weight 0 gives the "zero total weight" error |
| `Scenarios.PartialWeightScenario` | src/calculator/grade_calculator.py:58-64 | a single grade 16 at weight 50 is renormalised to an average of 16 |
| `Scenarios.NoUpperCapScenario` | src/calculator/grade_calculator.py:75-78 | grade 20 at weight 100 plus the bonus gives a final grade of 21: there is no upper cap |
| `Scenarios.DetailsScenario` | tests/test_grade_calculator.py:235-256 | the report of a two-evaluation student has the id, count 2, two lines, attendance true, policy active, and the figures 16.5 / 0 / 1.0 / 17.5 |

## Left out

- `GradeCalculators.CalculateFinalGrade`: the four figures are exact reals and are not rounded to two decimals. The original rounds binary floats half-to-even (src/calculator/grade_calculator.py:80-85), and the model does not reproduce float rounding. Nor does it reproduce float underflow: a total weight above 0 but below about 2.5e-322 (one evaluation of weight 5e-324, which the guards of src/models/evaluation.py:26-29 accept) passes the zero test at src/calculator/grade_calculator.py:59, but `total_weight / 100` then rounds to 0.0 and line 64 raises `ZeroDivisionError`, which is not a `ValueError`. In the model that total is non-zero and the calculation succeeds.
- `GradeCalculators.GetCalculationDetails`: the weighted grade of each line and the total weight are likewise exact, not rounded (src/calculator/grade_calculator.py:108,112).
- Floating point in general: grades and weights are exact `real`s. So the model does not capture float error such as 0.1 + 0.2 != 0.3, or a weight sum that misses 100 by an ulp. Reals have no NaN and no infinity either. The guards of the evaluation constructor (src/models/evaluation.py:26-29) let a NaN grade or weight through, because every comparison with NaN is false, and they let an infinite grade through. The calculation then yields a NaN average with a final grade of 0.0 (`max(0.0, nan)`, src/calculator/grade_calculator.py:78), or an infinite one. The model has no such inputs.
- The run-time check that the extra-points table is a list (src/policies/extra_points_policy.py:27-28) has no counterpart. A `seq<bool>` cannot be anything else.
- `src/main.py`, the interactive prompt loop, is not part of this model. It is input/output only.
- The `__repr__` methods are string formatting only.
- The detailed report is a datatype that contains the calculation. The original merges two dictionaries instead, and the key names are not modelled.
- The calculator constructor and the policy constructors are the datatype constructors: they store their arguments unchanged and check nothing that the types do not already guarantee.
- `ExtraPointsPolicies.ExtraPointsPolicy`: the original constructor (src/policies/extra_points_policy.py:29) keeps a reference to the caller's list, so a later change to that list changes the policy's answers. The model holds the table as an immutable `seq<bool>` value, so this aliasing is not modelled.
- Dynamic typing (passing an object that is not a `Student` or an `Evaluation`) cannot happen with Dafny's types.
- A Python caller could reassign an `Evaluation`'s fields after construction. The model's evaluations are immutable values, which matches how the original is used.
