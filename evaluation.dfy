/** A single graded item: the grade obtained and its weight in percentage points. */
module Evaluations {
  import opened Errors

  datatype Evaluation = Evaluation(grade: real, weight: real)

  /** What construction guarantees: a non-negative grade and a weight in [0, 100]. */
  predicate IsValid(e: Evaluation) {
    e.grade >= 0.0 && 0.0 <= e.weight <= 100.0
  }

  /** The evaluations the guarded constructor can produce. Only these can
      be handed to a student. */
  type ValidEvaluation = e: Evaluation | IsValid(e) witness Evaluation(0.0, 0.0)

  predicate AllValid(s: seq<Evaluation>) {
    forall i :: 0 <= i < |s| ==> IsValid(s[i])
  }

  /** The guarded constructor: the grade is checked first, then the weight;
      both bounds of the weight are inclusive. */
  function NewEvaluation(grade: real, weight: real): (r: Result<ValidEvaluation>)
    ensures grade < 0.0 ==> r == Err(NegativeGrade)
    ensures grade >= 0.0 && (weight < 0.0 || weight > 100.0) ==> r == Err(WeightOutOfRange)
    ensures r.Ok? <==> grade >= 0.0 && 0.0 <= weight <= 100.0
    ensures r.Ok? ==> r.value.grade == grade && r.value.weight == weight
  {
    if grade < 0.0 then Err(NegativeGrade)
    else if weight < 0.0 || weight > 100.0 then Err(WeightOutOfRange)
    else Ok(Evaluation(grade, weight))
  }

  /** The contribution of one evaluation to the final grade. */
  function WeightedGrade(e: Evaluation): (r: real)
    ensures 100.0 * r == e.grade * e.weight
    ensures e.grade == 0.0 || e.weight == 0.0 ==> r == 0.0
    ensures IsValid(e) ==> 0.0 <= r <= e.grade
  {
    e.grade * (e.weight / 100.0)
  }
}
