/**
 * Grade categories and graded entries.
 *
 * In the Go program a grade category is a named integer type whose three
 * valid values are the constants Assignment, Exam and Essay; any other
 * integer converts to the type as well (a caller may write GradeType(123)),
 * and such a value is "invalid": it has the empty string as its name and
 * the calculator refuses to store entries tagged with it.
 */
module GradeTypes {

  /** The category tag: any integer, as with Go's `type GradeType int`. */
  newtype GradeType = int

  /** The three valid categories, numbered as Go's `iota` numbers them. */
  const Assignment: GradeType := 0
  const Exam: GradeType := 1
  const Essay: GradeType := 2

  /** A category is valid when it is one of the three named constants. */
  predicate IsValid(t: GradeType) {
    t == Assignment || t == Exam || t == Essay
  }

  /** The lowercase name of a category; the empty string for an invalid one. */
  function String(t: GradeType): (s: string)
    ensures t == Assignment <==> s == "assignment"
    ensures t == Exam <==> s == "exam"
    ensures t == Essay <==> s == "essay"
    ensures !IsValid(t) <==> s == ""
  {
    if t == Assignment then "assignment"
    else if t == Exam then "exam"
    else if t == Essay then "essay"
    else ""
  }

  /** Distinct valid categories have distinct names, so a name identifies its category. */
  lemma StringInjective(t: GradeType, u: GradeType)
    requires IsValid(t) && String(t) == String(u)
    ensures t == u
  {
  }

  /** One graded item: a name (only stored), a score and its category. */
  datatype Grade = Grade(name: string, grade: int, gradeType: GradeType)
}
