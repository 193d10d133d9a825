/** A student: an identifier, a bounded list of evaluations kept in insertion
    order, and the flag saying whether the minimum attendance was reached. */
module Students {
  import opened Errors
  import opened Evaluations

  /** The largest number of evaluations a student may hold. */
  const MAX_EVALUATIONS: nat := 10

  /** The sum of the weights, in order; zero for no evaluations. */
  function SumWeights(s: seq<Evaluation>): real
  {
    if s == [] then 0.0 else SumWeights(s[..|s| - 1]) + s[|s| - 1].weight
  }

  lemma {:induction false} SumWeightsConcat(a: seq<Evaluation>, b: seq<Evaluation>)
    ensures SumWeights(a + b) == SumWeights(a) + SumWeights(b)
  {
    if b == [] {
      assert a + b == a;
    } else {
      assert (a + b)[..|a + b| - 1] == a + b[..|b| - 1];
      SumWeightsConcat(a, b[..|b| - 1]);
    }
  }

  /** `t` is `s` with every weight multiplied by `k`. */
  predicate ScaledWeights(s: seq<Evaluation>, t: seq<Evaluation>, k: real) {
    && |s| == |t|
    && forall i :: 0 <= i < |s| ==> t[i].grade == s[i].grade && t[i].weight == k * s[i].weight
  }

  lemma ScaledPrefix(s: seq<Evaluation>, t: seq<Evaluation>, k: real, n: nat)
    requires ScaledWeights(s, t, k) && n <= |s|
    ensures ScaledWeights(s[..n], t[..n], k)
  {
  }

  /** Multiplying every weight by `k` multiplies the total weight by `k`. */
  lemma {:induction false} ScaledSums(s: seq<Evaluation>, t: seq<Evaluation>, k: real)
    requires ScaledWeights(s, t, k)
    ensures SumWeights(t) == k * SumWeights(s)
  {
    if s != [] {
      var n := |s| - 1;
      var si, ti, sn, tn := s[..n], t[..n], s[n], t[n];
      ScaledPrefix(s, t, k, n);
      ScaledSums(si, ti, k);
      assert tn.weight == k * sn.weight;
      Distribute(k, SumWeights(si), sn.weight);
    }
  }

  /** Valid weights add up to between 0 and 100 per evaluation. */
  lemma {:induction false} SumWeightsBounds(s: seq<Evaluation>)
    requires AllValid(s)
    ensures 0.0 <= SumWeights(s) <= 100.0 * |s| as real
  {
    if s != [] {
      var init := s[..|s| - 1];
      assert AllValid(init) by {
        forall i | 0 <= i < |init| ensures IsValid(init[i]) {
          assert init[i] == s[i];
        }
      }
      SumWeightsBounds(init);
      assert IsValid(s[|s| - 1]);
    }
  }

  /** With valid weights, the total is zero exactly when every weight is zero. */
  lemma {:induction false} SumWeightsZeroIff(s: seq<Evaluation>)
    requires AllValid(s)
    ensures SumWeights(s) == 0.0 <==> forall i :: 0 <= i < |s| ==> s[i].weight == 0.0
  {
    if s != [] {
      var init := s[..|s| - 1];
      assert AllValid(init) by {
        forall i | 0 <= i < |init| ensures IsValid(init[i]) {
          assert init[i] == s[i];
        }
      }
      SumWeightsZeroIff(init);
      SumWeightsBounds(init);
      assert IsValid(s[|s| - 1]);
      if SumWeights(s) == 0.0 {
        forall i | 0 <= i < |s| ensures s[i].weight == 0.0 {
          if i < |s| - 1 {
            assert init[i] == s[i];
          }
        }
      }
    }
  }

  lemma Distribute(k: real, x: real, y: real)
    ensures k * x + k * y == k * (x + y)
  {
  }

  class Student {
    var studentId: string
    var evaluations: seq<ValidEvaluation>
    var hasReachedMinimumClasses: bool

    /** The capacity invariant. */
    ghost predicate Valid()
      reads this
    {
      |evaluations| <= MAX_EVALUATIONS
    }

    constructor (studentId: string)
      ensures this.studentId == studentId
      ensures evaluations == [] && !hasReachedMinimumClasses
      ensures Valid()
    {
      this.studentId := studentId;
      evaluations := [];
      hasReachedMinimumClasses := false;
    }

    /** Appends at the end unless the student already holds the maximum
        number of evaluations, in which case nothing changes. */
    method AddEvaluation(e: ValidEvaluation) returns (r: Outcome)
      modifies this
      ensures r == if old(|evaluations|) >= MAX_EVALUATIONS then Fail(TooManyEvaluations) else Pass
      ensures evaluations == if r.Pass? then old(evaluations) + [e] else old(evaluations)
      ensures studentId == old(studentId)
      ensures hasReachedMinimumClasses == old(hasReachedMinimumClasses)
      ensures old(Valid()) ==> Valid()
      ensures GetTotalWeight() == old(GetTotalWeight()) + if r.Pass? then e.weight else 0.0
    {
      if |evaluations| >= MAX_EVALUATIONS {
        return Fail(TooManyEvaluations);
      }
      evaluations := evaluations + [e];
      assert evaluations[..|evaluations| - 1] == old(evaluations);
      r := Pass;
    }

    function GetTotalWeight(): real
      reads this
    {
      SumWeights(evaluations)
    }
  }

  /** What a student's total weight can be: between 0 and 100 per
      evaluation, so at most 1000 for a student within capacity, and 0
      exactly when every weight is 0. */
  lemma TotalWeightOfStudent(student: Student)
    ensures 0.0 <= student.GetTotalWeight() <= 100.0 * |student.evaluations| as real
    ensures student.Valid() ==> student.GetTotalWeight() <= 100.0 * MAX_EVALUATIONS as real
    ensures student.GetTotalWeight() == 0.0 <==> forall i :: 0 <= i < |student.evaluations| ==> student.evaluations[i].weight == 0.0
  {
    SumWeightsBounds(student.evaluations);
    SumWeightsZeroIff(student.evaluations);
  }
}
