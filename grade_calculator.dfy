/** The final-grade calculation: a renormalised weighted average, minus the
    attendance penalty, plus the year's extra points, floored at zero. */
module GradeCalculators {
  import opened Errors
  import opened Evaluations
  import opened Students
  import opened AttendancePolicies
  import opened ExtraPointsPolicies

  /** The four figures of a calculation. The original rounds each to two
      decimals for display; here they are exact. */
  datatype GradeResult = GradeResult(
    weightedAverage: real,
    attendancePenalty: real,
    extraPoints: real,
    finalGrade: real)

  /** One line of the detailed report. */
  datatype EvaluationDetail = EvaluationDetail(grade: real, weight: real, weightedGrade: real)

  /** The detailed report; it contains the calculation it reports on. */
  datatype CalculationDetails = CalculationDetails(
    studentId: string,
    numberOfEvaluations: nat,
    evaluations: seq<EvaluationDetail>,
    totalWeight: real,
    hasReachedMinimumClasses: bool,
    extraPointsPolicyActive: bool,
    calculation: GradeResult)

  /** The calculator and its two read-only collaborators. */
  datatype GradeCalculator = GradeCalculator(
    attendancePolicy: AttendancePolicy,
    extraPointsPolicy: ExtraPointsPolicy)

  /** The sum of the weighted grades, in order. */
  function WeightedSum(s: seq<Evaluation>): real
  {
    if s == [] then 0.0 else WeightedSum(s[..|s| - 1]) + WeightedGrade(s[|s| - 1])
  }

  /** Reference definition: the sum of grade times weight, without the
      division by 100. */
  function GradeWeightProducts(s: seq<Evaluation>): real
  {
    if s == [] then 0.0 else GradeWeightProducts(s[..|s| - 1]) + s[|s| - 1].grade * s[|s| - 1].weight
  }

  /** The weighted sum is the reference sum scaled down by 100. */
  lemma {:induction false} WeightedSumScalesProducts(s: seq<Evaluation>)
    ensures 100.0 * WeightedSum(s) == GradeWeightProducts(s)
  {
    if s != [] {
      WeightedSumScalesProducts(s[..|s| - 1]);
      Distribute(100.0, WeightedSum(s[..|s| - 1]), WeightedGrade(s[|s| - 1]));
    }
  }

  /** With valid evaluations whose grades are at most `top`, the reference sum
      lies between 0 and `top` times the total weight. */
  lemma {:induction false} ProductsBounds(s: seq<Evaluation>, top: real)
    requires AllValid(s)
    requires forall i :: 0 <= i < |s| ==> s[i].grade <= top
    ensures 0.0 <= GradeWeightProducts(s)
    ensures GradeWeightProducts(s) <= top * SumWeights(s)
  {
    if s != [] {
      var init, e := s[..|s| - 1], s[|s| - 1];
      assert forall i :: 0 <= i < |init| ==> init[i] == s[i];
      ProductsBounds(init, top);
      assert IsValid(e) && e.grade <= top;
      ProductBetween(e.grade, e.weight, top);
      Distribute(top, SumWeights(init), e.weight);
    }
  }

  /** The weighted sum scaled to what it would be if the weights added up
      to exactly 100. */
  function Renormalise(weightedSum: real, totalWeight: real): (average: real)
    requires totalWeight != 0.0
    ensures average * totalWeight == 100.0 * weightedSum
  {
    weightedSum / (totalWeight / 100.0)
  }

  /** The final grade of `student` for the year at index `academicYear`. */
  function CalculateFinalGrade(calculator: GradeCalculator, student: Student, academicYear: int := 0): (r: Result<GradeResult>)
    reads student
    ensures r == Err(NoEvaluations) <==> |student.evaluations| == 0
    ensures r == Err(ZeroTotalWeight) <==> |student.evaluations| > 0 && SumWeights(student.evaluations) == 0.0
    ensures r.Err? ==> r.error == NoEvaluations || r.error == ZeroTotalWeight
    ensures r.Ok? ==>
      var res := r.value;
      // the average renormalises the weights to a total of 100
      && res.weightedAverage * SumWeights(student.evaluations) == GradeWeightProducts(student.evaluations)
      && res.attendancePenalty == (if student.hasReachedMinimumClasses then 0.0 else PENALTY_NO_ATTENDANCE)
      && res.extraPoints == (if IsExtraPointsActive(calculator.extraPointsPolicy, academicYear) then EXTRA_POINTS_AMOUNT else 0.0)
      // floored at zero, never capped
      && res.finalGrade >= 0.0
      && res.finalGrade >= res.weightedAverage - res.attendancePenalty + res.extraPoints
      && (res.finalGrade == 0.0 || res.finalGrade == res.weightedAverage - res.attendancePenalty + res.extraPoints)
  {
    if |student.evaluations| == 0 then Err(NoEvaluations)
    else
      var totalWeight := student.GetTotalWeight();
      if totalWeight == 0.0 then Err(ZeroTotalWeight)
      else
        var weightedSum := WeightedSum(student.evaluations);
        var weightedAverage := Renormalise(weightedSum, totalWeight);
        var attendancePenalty := CalculatePenalty(student.hasReachedMinimumClasses);
        var extraPoints := GetExtraPointsForYear(calculator.extraPointsPolicy, academicYear);
        var finalGrade := weightedAverage - attendancePenalty + extraPoints;
        AverageTimesTotal(student.evaluations);
        ExtraPointsMatchActivity(calculator.extraPointsPolicy, academicYear);
        Ok(GradeResult(weightedAverage, attendancePenalty, extraPoints,
                       if 0.0 < finalGrade then finalGrade else 0.0))
  }

  /** When the weights add up to exactly 100 the average is the plain
      weighted sum. */
  lemma FullWeightAverageIsWeightedSum(calculator: GradeCalculator, student: Student, academicYear: int)
    requires |student.evaluations| > 0 && SumWeights(student.evaluations) == 100.0
    ensures CalculateFinalGrade(calculator, student, academicYear).Ok?
    ensures CalculateFinalGrade(calculator, student, academicYear).value.weightedAverage == WeightedSum(student.evaluations)
  {
  }

  /** A student's calculation fails for zero total weight exactly when it
      has evaluations and every one of them weighs 0. */
  lemma ZeroTotalWeightIffWeightless(calculator: GradeCalculator, student: Student, academicYear: int)
    ensures CalculateFinalGrade(calculator, student, academicYear) == Err(ZeroTotalWeight)
        <==> |student.evaluations| > 0 && forall i :: 0 <= i < |student.evaluations| ==> student.evaluations[i].weight == 0.0
  {
    SumWeightsZeroIff(student.evaluations);
  }

  /** The average lies between 0 and the highest grade,
      and the final grade exceeds it by at most the extra points. */
  lemma {:induction false} AverageWithinGradeRange(calculator: GradeCalculator, student: Student, academicYear: int, top: real)
    requires forall i :: 0 <= i < |student.evaluations| ==> student.evaluations[i].grade <= top
    requires CalculateFinalGrade(calculator, student, academicYear).Ok?
    ensures 0.0 <= CalculateFinalGrade(calculator, student, academicYear).value.weightedAverage <= top
    ensures CalculateFinalGrade(calculator, student, academicYear).value.finalGrade <= top + EXTRA_POINTS_AMOUNT
  {
    var s := student.evaluations;
    AverageBounds(s, top);
    assert CalculateFinalGrade(calculator, student, academicYear).value.weightedAverage
        == Renormalise(WeightedSum(s), SumWeights(s));
  }

  /** The renormalised average of a list of valid evaluations with some
      weight lies between 0 and its highest grade. */
  lemma AverageBounds(s: seq<Evaluation>, top: real)
    requires AllValid(s) && SumWeights(s) != 0.0
    requires forall i :: 0 <= i < |s| ==> s[i].grade <= top
    ensures 0.0 <= top
    ensures 0.0 <= Renormalise(WeightedSum(s), SumWeights(s)) <= top
  {
    var w, p, a := SumWeights(s), GradeWeightProducts(s), Renormalise(WeightedSum(s), SumWeights(s));
    ProductsBounds(s, top);
    SumWeightsBounds(s);
    AverageTimesTotal(s);
    QuotientBounds(a, w, p, top);
    assert IsValid(s[0]) && s[0].grade <= top;
  }


  lemma {:induction false} ScaledWeightedSum(s: seq<Evaluation>, t: seq<Evaluation>, k: real)
    requires ScaledWeights(s, t, k)
    ensures WeightedSum(t) == k * WeightedSum(s)
  {
    if s != [] {
      var n := |s| - 1;
      var si, ti, sn, tn := s[..n], t[..n], s[n], t[n];
      ScaledPrefix(s, t, k, n);
      ScaledWeightedSum(si, ti, k);
      assert WeightedGrade(tn) == k * WeightedGrade(sn) by {
        assert tn.grade == sn.grade && tn.weight == k * sn.weight;
        ScaleWeighted(sn.grade, sn.weight, k);
      }
      Distribute(k, WeightedSum(si), WeightedGrade(sn));
    }
  }

  /** Renormalisation: multiplying every weight by the same positive factor
      changes neither the outcome nor the figures, so a total weight other
      than 100 counts as if it were 100. */
  lemma RenormalisationIgnoresScale(calculator: GradeCalculator, s1: Student, s2: Student, academicYear: int, k: real)
    requires k > 0.0
    requires ScaledWeights(s1.evaluations, s2.evaluations, k)
    requires s1.hasReachedMinimumClasses == s2.hasReachedMinimumClasses
    ensures CalculateFinalGrade(calculator, s1, academicYear) == CalculateFinalGrade(calculator, s2, academicYear)
  {
    var e1, e2 := s1.evaluations, s2.evaluations;
    ScaledSums(e1, e2, k);
    if |e1| > 0 && SumWeights(e1) != 0.0 {
      ScaledAverage(e1, e2, k);
    }
  }

  /** The renormalised average of a list equals that of its scaled copy. */
  lemma ScaledAverage(s: seq<Evaluation>, t: seq<Evaluation>, k: real)
    requires k > 0.0 && ScaledWeights(s, t, k) && SumWeights(s) != 0.0
    ensures SumWeights(t) != 0.0
    ensures Renormalise(WeightedSum(t), SumWeights(t)) == Renormalise(WeightedSum(s), SumWeights(s))
  {
    var x, w, x2, w2 := WeightedSum(s), SumWeights(s), WeightedSum(t), SumWeights(t);
    ScaledSums(s, t, k);
    ScaledWeightedSum(s, t, k);
    ScaledQuotient(x, w, x2, w2, k);
  }

  /** The calculation depends only on the evaluations, the attendance flag,
      the policies and the year: two students that agree on those get the
      same result, whatever their identifiers. */
  lemma CalculationIsDeterministic(calculator: GradeCalculator, s1: Student, s2: Student, academicYear: int)
    requires s1.evaluations == s2.evaluations
    requires s1.hasReachedMinimumClasses == s2.hasReachedMinimumClasses
    ensures CalculateFinalGrade(calculator, s1, academicYear) == CalculateFinalGrade(calculator, s2, academicYear)
  {
  }

  /** The detailed report; failures of the calculation pass through unchanged. */
  function GetCalculationDetails(calculator: GradeCalculator, student: Student, academicYear: int := 0): (r: Result<CalculationDetails>)
    reads student
    ensures r.Err? <==> CalculateFinalGrade(calculator, student, academicYear).Err?
    ensures r.Err? ==> r.error == CalculateFinalGrade(calculator, student, academicYear).error
    ensures r.Ok? ==>
      var d := r.value;
      && d.studentId == student.studentId
      && d.numberOfEvaluations == |student.evaluations| == |d.evaluations|
      && (forall i :: 0 <= i < |d.evaluations| ==>
            && d.evaluations[i].grade == student.evaluations[i].grade
            && d.evaluations[i].weight == student.evaluations[i].weight
            && 100.0 * d.evaluations[i].weightedGrade == student.evaluations[i].grade * student.evaluations[i].weight)
      && d.totalWeight == SumWeights(student.evaluations)
      && d.hasReachedMinimumClasses == student.hasReachedMinimumClasses
      && d.extraPointsPolicyActive == IsExtraPointsActive(calculator.extraPointsPolicy, academicYear)
      && d.calculation == CalculateFinalGrade(calculator, student, academicYear).value
  {
    var calculation := CalculateFinalGrade(calculator, student, academicYear);
    if calculation.Err? then Err(calculation.error)
    else
      var evals := student.evaluations;
      Ok(CalculationDetails(
        student.studentId,
        |evals|,
        seq(|evals|, i requires 0 <= i < |evals| =>
          EvaluationDetail(evals[i].grade, evals[i].weight, WeightedGrade(evals[i]))),
        student.GetTotalWeight(),
        student.hasReachedMinimumClasses,
        IsExtraPointsActive(calculator.extraPointsPolicy, academicYear),
        calculation.value))
  }

  // Steps of real arithmetic the solver does not find on its own.

  /** If a * w == p with w > 0 and 0 <= p <= top * w, then 0 <= a <= top. */
  lemma QuotientBounds(a: real, w: real, p: real, top: real)
    requires w > 0.0 && a * w == p && 0.0 <= p <= top * w
    ensures 0.0 <= a <= top
  {
  }

  lemma ProductBetween(g: real, w: real, top: real)
    requires 0.0 <= g <= top && 0.0 <= w
    ensures 0.0 <= g * w <= top * w
  {
  }

  /** The renormalised average times the total weight is the sum of grade
      times weight. */
  lemma AverageTimesTotal(s: seq<Evaluation>)
    requires SumWeights(s) != 0.0
    ensures Renormalise(WeightedSum(s), SumWeights(s)) * SumWeights(s) == GradeWeightProducts(s)
  {
    WeightedSumScalesProducts(s);
  }

  lemma ScaleWeighted(g: real, w: real, k: real)
    ensures g * ((k * w) / 100.0) == k * (g * (w / 100.0))
  {
  }

  /** Scaling both the weighted sum and the total weight leaves the
      renormalised average unchanged. */
  lemma ScaledQuotient(x: real, w: real, x2: real, w2: real, k: real)
    requires w != 0.0 && k != 0.0 && x2 == k * x && w2 == k * w
    ensures w2 != 0.0 && Renormalise(x2, w2) == Renormalise(x, w)
  {
  }
}
