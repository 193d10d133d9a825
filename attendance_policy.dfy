/** The minimum-attendance rule: a fixed deduction when it was not met. */
module AttendancePolicies {

  /** Points deducted when the minimum attendance was not reached. */
  const PENALTY_NO_ATTENDANCE: real := 2.0

  /** The policy holds no data; the calculator keeps one as a collaborator. */
  datatype AttendancePolicy = AttendancePolicy

  function CalculatePenalty(hasReachedMinimumClasses: bool): (r: real)
    ensures r == 0.0 <==> hasReachedMinimumClasses
    ensures r == PENALTY_NO_ATTENDANCE <==> !hasReachedMinimumClasses
    ensures 0.0 <= r <= PENALTY_NO_ATTENDANCE
  {
    if hasReachedMinimumClasses then 0.0 else PENALTY_NO_ATTENDANCE
  }

  function IsAttendanceValid(hasReachedMinimumClasses: bool): (r: bool)
    ensures r == hasReachedMinimumClasses
  {
    hasReachedMinimumClasses
  }

  /** The two queries agree: no penalty exactly when attendance is valid. */
  lemma PenaltyWaivedIffAttendanceValid(hasReachedMinimumClasses: bool)
    ensures CalculatePenalty(hasReachedMinimumClasses) == 0.0 <==> IsAttendanceValid(hasReachedMinimumClasses)
  {
  }
}
