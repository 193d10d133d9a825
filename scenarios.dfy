/** Client code that builds students the way callers do (constructor,
    AddEvaluation, direct assignment of the attendance flag) and states the
    figures the calculator must produce for them. */
module Scenarios {
  import opened Errors
  import opened Evaluations
  import opened Students
  import opened AttendancePolicies
  import opened ExtraPointsPolicies
  import opened GradeCalculators

  /** Ten additions fill a new student; the eleventh is refused and leaves
      the ten evaluations in place. */
  method TenthAdditionSucceedsEleventhFails(e: ValidEvaluation) returns (tenth: Outcome, eleventh: Outcome)
    ensures tenth == Pass
    ensures eleventh == Fail(TooManyEvaluations)
  {
    var student := new Student("ST003");
    tenth := Fail(TooManyEvaluations);
    var i := 0;
    while i < MAX_EVALUATIONS
      invariant 0 <= i <= MAX_EVALUATIONS
      invariant |student.evaluations| == i && student.Valid()
      invariant i > 0 ==> tenth == Pass
    {
      tenth := student.AddEvaluation(e);
      i := i + 1;
    }
    ghost var held := student.evaluations;
    assert |held| == MAX_EVALUATIONS;
    eleventh := student.AddEvaluation(e);
    assert student.evaluations == held;
  }

  /** Weights 30/40/30 on grades 15/18/16, attendance met, no bonus. */
  method WeightedAverageScenario() returns (r: Result<GradeResult>)
    ensures r == Ok(GradeResult(16.5, 0.0, 0.0, 16.5))
  {
    var student := new Student("ST001");
    var e1, e2, e3 := NewEvaluation(15.0, 30.0).value, NewEvaluation(18.0, 40.0).value, NewEvaluation(16.0, 30.0).value;
    var _ := student.AddEvaluation(e1);
    var _ := student.AddEvaluation(e2);
    var _ := student.AddEvaluation(e3);
    student.hasReachedMinimumClasses := true;
    assert student.evaluations == [e1, e2, e3];
    assert [e1, e2, e3][..2] == [e1, e2] && [e1, e2][..1] == [e1] && [e1][..0] == [];
    assert SumWeights(student.evaluations) == 100.0;
    assert WeightedGrade(e1) == 4.5 && WeightedGrade(e2) == 7.2 && WeightedGrade(e3) == 4.8;
    assert WeightedSum([e1]) == 4.5;
    assert WeightedSum([e1, e2]) == 11.7;
    assert WeightedSum(student.evaluations) == 16.5;
    var calculator := GradeCalculator(AttendancePolicy, ExtraPointsPolicy([false]));
    r := CalculateFinalGrade(calculator, student, 0);
  }

  /** Attendance not met: the penalty of 2 is deducted. */
  method PenaltyScenario() returns (r: Result<GradeResult>)
    ensures r == Ok(GradeResult(16.5, 2.0, 0.0, 14.5))
  {
    var student := new Student("ST003");
    var e1, e2 := NewEvaluation(15.0, 50.0).value, NewEvaluation(18.0, 50.0).value;
    var _ := student.AddEvaluation(e1);
    var _ := student.AddEvaluation(e2);
    student.hasReachedMinimumClasses := false;
    assert student.evaluations == [e1, e2];
    assert [e1, e2][..1] == [e1] && [e1][..0] == [];
    assert WeightedGrade(e1) == 7.5 && WeightedGrade(e2) == 9.0;
    assert WeightedSum([e1]) == 7.5;
    var calculator := GradeCalculator(AttendancePolicy, ExtraPointsPolicy([false]));
    r := CalculateFinalGrade(calculator, student, 0);
  }

  /** The bonus of year 0 is active: one point is added. */
  method ExtraPointsScenario() returns (r: Result<GradeResult>)
    ensures r == Ok(GradeResult(14.0, 0.0, 1.0, 15.0))
  {
    var student := new Student("ST004");
    var e := NewEvaluation(14.0, 100.0).value;
    var _ := student.AddEvaluation(e);
    assert student.evaluations == [e] && [e][..0] == [];
    assert WeightedGrade(e) == e.grade;
    assert SumWeights(student.evaluations) == e.weight && WeightedSum(student.evaluations) == e.grade;
    student.hasReachedMinimumClasses := true;
    var calculator := GradeCalculator(AttendancePolicy, ExtraPointsPolicy([true, false]));
    r := CalculateFinalGrade(calculator, student, 0);
  }

  /** A penalty larger than the average gives 0, not a negative grade. */
  method FloorScenario() returns (r: Result<GradeResult>)
    ensures r == Ok(GradeResult(1.0, 2.0, 0.0, 0.0))
  {
    var student := new Student("ST010");
    var e := NewEvaluation(1.0, 100.0).value;
    var _ := student.AddEvaluation(e);
    assert student.evaluations == [e] && [e][..0] == [];
    assert WeightedGrade(e) == e.grade;
    assert SumWeights(student.evaluations) == e.weight && WeightedSum(student.evaluations) == e.grade;
    student.hasReachedMinimumClasses := false;
    var calculator := GradeCalculator(AttendancePolicy, ExtraPointsPolicy([false]));
    r := CalculateFinalGrade(calculator, student, 0);
  }

  /** A year outside the table grants nothing, and is not an error. */
  method OutOfRangeYearScenario() returns (r: Result<GradeResult>)
    ensures r == Ok(GradeResult(15.0, 0.0, 0.0, 15.0))
  {
    var student := new Student("ST011");
    var e := NewEvaluation(15.0, 100.0).value;
    var _ := student.AddEvaluation(e);
    assert student.evaluations == [e] && [e][..0] == [];
    assert WeightedGrade(e) == e.grade;
    assert SumWeights(student.evaluations) == e.weight && WeightedSum(student.evaluations) == e.grade;
    student.hasReachedMinimumClasses := true;
    var calculator := GradeCalculator(AttendancePolicy, ExtraPointsPolicy([true]));
    r := CalculateFinalGrade(calculator, student, 5);
  }

  /** Weights adding up to 50 are renormalised, not rejected: a single
      grade of 16 at weight 50 averages 16. */
  method PartialWeightScenario() returns (r: Result<GradeResult>)
    ensures r == Ok(GradeResult(16.0, 0.0, 0.0, 16.0))
  {
    var student := new Student("ST015");
    var e := NewEvaluation(16.0, 50.0).value;
    var _ := student.AddEvaluation(e);
    assert student.evaluations == [e] && [e][..0] == [];
    assert WeightedGrade(e) == 8.0;
    assert SumWeights(student.evaluations) == 50.0 && WeightedSum(student.evaluations) == 8.0;
    student.hasReachedMinimumClasses := true;
    var calculator := GradeCalculator(AttendancePolicy, ExtraPointsPolicy([false]));
    r := CalculateFinalGrade(calculator, student, 0);
  }

  /** There is no upper cap: a top grade of 20 plus the bonus gives 21. */
  method NoUpperCapScenario() returns (r: Result<GradeResult>)
    ensures r == Ok(GradeResult(20.0, 0.0, 1.0, 21.0))
  {
    var student := new Student("ST016");
    var e := NewEvaluation(20.0, 100.0).value;
    var _ := student.AddEvaluation(e);
    assert student.evaluations == [e] && [e][..0] == [];
    assert WeightedGrade(e) == e.grade;
    assert SumWeights(student.evaluations) == e.weight && WeightedSum(student.evaluations) == e.grade;
    student.hasReachedMinimumClasses := true;
    var calculator := GradeCalculator(AttendancePolicy, ExtraPointsPolicy([true]));
    r := CalculateFinalGrade(calculator, student, 0);
  }

  /** The two failures: no evaluations, and evaluations whose weights are all zero. */
  method FailureScenarios() returns (empty: Result<GradeResult>, weightless: Result<GradeResult>)
    ensures empty == Err(NoEvaluations)
    ensures weightless == Err(ZeroTotalWeight)
  {
    var calculator := GradeCalculator(AttendancePolicy, ExtraPointsPolicy([false]));
    var first := new Student("ST007");
    first.hasReachedMinimumClasses := true;
    empty := CalculateFinalGrade(calculator, first, 0);
    var second := new Student("ST008");
    var e := NewEvaluation(15.0, 0.0).value;
    var _ := second.AddEvaluation(e);
    assert second.evaluations == [e] && [e][..0] == [];
    second.hasReachedMinimumClasses := true;
    weightless := CalculateFinalGrade(calculator, second, 0);
  }

  /** The detailed report of a two-evaluation student with an active bonus. */
  method DetailsScenario() returns (r: Result<CalculationDetails>)
    ensures r.Ok?
    ensures r.value.studentId == "ST014"
    ensures r.value.numberOfEvaluations == 2 && |r.value.evaluations| == 2
    ensures r.value.hasReachedMinimumClasses && r.value.extraPointsPolicyActive
    ensures r.value.calculation == GradeResult(16.5, 0.0, 1.0, 17.5)
  {
    var student := new Student("ST014");
    var e1, e2 := NewEvaluation(15.0, 50.0).value, NewEvaluation(18.0, 50.0).value;
    var _ := student.AddEvaluation(e1);
    var _ := student.AddEvaluation(e2);
    student.hasReachedMinimumClasses := true;
    assert student.evaluations == [e1, e2];
    assert [e1, e2][..1] == [e1] && [e1][..0] == [];
    assert WeightedGrade(e1) == 7.5 && WeightedGrade(e2) == 9.0;
    assert WeightedSum([e1]) == 7.5;
    var calculator := GradeCalculator(AttendancePolicy, ExtraPointsPolicy([true]));
    r := GetCalculationDetails(calculator, student, 0);
  }
}
