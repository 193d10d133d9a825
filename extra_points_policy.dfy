/** The bonus agreed by the teaching staff, one entry per academic year
    (0-based). The original rejects a table that is not a list at run time;
    a `seq<bool>` cannot be anything else, so that check has no counterpart. */
module ExtraPointsPolicies {

  /** Points granted for a year whose entry is true. */
  const EXTRA_POINTS_AMOUNT: real := 1.0

  datatype ExtraPointsPolicy = ExtraPointsPolicy(allYearsTeachers: seq<bool>)

  /** An index outside the table is not an error: it reads as "inactive". */
  function IsExtraPointsActive(p: ExtraPointsPolicy, academicYear: int): (r: bool)
    ensures academicYear < 0 || academicYear >= |p.allYearsTeachers| ==> !r
    ensures 0 <= academicYear < |p.allYearsTeachers| ==> r == p.allYearsTeachers[academicYear]
  {
    if academicYear < 0 || academicYear >= |p.allYearsTeachers| then false
    else p.allYearsTeachers[academicYear]
  }

  function GetExtraPointsForYear(p: ExtraPointsPolicy, academicYear: int): (r: real)
    ensures academicYear < 0 || academicYear >= |p.allYearsTeachers| ==> r == 0.0
    ensures 0 <= academicYear < |p.allYearsTeachers| && p.allYearsTeachers[academicYear] ==> r == EXTRA_POINTS_AMOUNT
    ensures 0 <= academicYear < |p.allYearsTeachers| && !p.allYearsTeachers[academicYear] ==> r == 0.0
  {
    if academicYear < 0 || academicYear >= |p.allYearsTeachers| then 0.0
    else if p.allYearsTeachers[academicYear] then EXTRA_POINTS_AMOUNT
    else 0.0
  }

  /** The bonus is granted exactly for the years the policy reports as active. */
  lemma ExtraPointsMatchActivity(p: ExtraPointsPolicy, academicYear: int)
    ensures GetExtraPointsForYear(p, academicYear) == if IsExtraPointsActive(p, academicYear) then EXTRA_POINTS_AMOUNT else 0.0
    ensures GetExtraPointsForYear(p, academicYear) == 0.0 || GetExtraPointsForYear(p, academicYear) == EXTRA_POINTS_AMOUNT
  {
  }

}
