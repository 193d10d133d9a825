/** Failures raised by the grade calculator and the wrappers that carry them.
    Every failure of the original is a ValueError; the variants below tell
    apart the messages it is raised with. */
module Errors {

  datatype Error =
    | NegativeGrade       // an evaluation with a grade below zero
    | WeightOutOfRange    // an evaluation whose weight is outside [0, 100]
    | TooManyEvaluations  // a student that already holds the maximum number of evaluations
    | NoEvaluations       // a final grade asked for a student without evaluations
    | ZeroTotalWeight     // a final grade asked for evaluations whose weights add up to zero

  /** The value of an operation that may raise. */
  datatype Result<+T> = Ok(value: T) | Err(error: Error)

  /** The outcome of an operation that returns nothing but may raise. */
  datatype Outcome = Pass | Fail(error: Error)
}
