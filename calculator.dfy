/**
 * The grade calculator: a collector that keeps the entries of each
 * category in their own append-only sequence, in insertion order, and
 * reads its numerical and letter grade off those sequences.
 */
module Calculator {
  import opened GradeTypes
  import opened Scoring

  class GradeCalculator {
    var assignments: seq<Grade>
    var exams: seq<Grade>
    var essays: seq<Grade>

    /** Each sequence holds only entries of its own category. */
    predicate Valid()
      reads this
    {
      (forall g :: g in assignments ==> g.gradeType == Assignment) &&
      (forall g :: g in exams ==> g.gradeType == Exam) &&
      (forall g :: g in essays ==> g.gradeType == Essay)
    }

    /** Go's `NewGradeCalculator`: a calculator with no entries. */
    constructor ()
      ensures assignments == [] && exams == [] && essays == []
      ensures Valid()
    {
      assignments, exams, essays := [], [], [];
    }

    /**
     * Appends the entry to the sequence of its category; an entry whose
     * category is invalid is dropped without a trace.
     */
    method AddGrade(name: string, grade: int, gradeType: GradeType)
      modifies this
      ensures var g := Grade(name, grade, gradeType);
        assignments == (if gradeType == Assignment then old(assignments) + [g] else old(assignments)) &&
        exams == (if gradeType == Exam then old(exams) + [g] else old(exams)) &&
        essays == (if gradeType == Essay then old(essays) + [g] else old(essays))
      ensures !IsValid(gradeType) ==>
        assignments == old(assignments) && exams == old(exams) && essays == old(essays)
      ensures old(Valid()) ==> Valid()
    {
      var g := Grade(name, grade, gradeType);
      if gradeType == Assignment {
        assignments := assignments + [g];
      } else if gradeType == Exam {
        exams := exams + [g];
      } else if gradeType == Essay {
        essays := essays + [g];
      }
    }

    /** Go's `calculateNumericalGrade`: the weighted grade of the three category averages. */
    function CalculateNumericalGrade(): (n: int)
      reads this
      ensures var w := AssignmentWeight * Average(assignments) + ExamWeight * Average(exams) +
                       EssayWeight * Average(essays);
        (w >= 0 ==> WeightScale * n <= w < WeightScale * (n + 1)) &&
        (w < 0 ==> WeightScale * (n - 1) < w <= WeightScale * n)
    {
      WeightedGrade(Average(assignments), Average(exams), Average(essays))
    }

    /** Go's `GetFinalGrade`: the letter for the current numerical grade. */
    function GetFinalGrade(): (letter: string)
      reads this
      ensures letter in {"A", "B", "C", "D", "F"}
      ensures letter == "A" <==> CalculateNumericalGrade() >= 90
      ensures letter == "B" <==> 80 <= CalculateNumericalGrade() < 90
      ensures letter == "C" <==> 70 <= CalculateNumericalGrade() < 80
      ensures letter == "D" <==> 60 <= CalculateNumericalGrade() < 70
      ensures letter == "F" <==> CalculateNumericalGrade() < 60
    {
      Letter(CalculateNumericalGrade())
    }
  }

  /** Go's `makeUniformGC`: one entry of score g in each category. */
  method MakeUniformGC(g: int) returns (gc: GradeCalculator)
    ensures fresh(gc) && gc.Valid()
    ensures gc.assignments == [Grade("a", g, Assignment)]
    ensures gc.exams == [Grade("e", g, Exam)]
    ensures gc.essays == [Grade("s", g, Essay)]
    ensures gc.CalculateNumericalGrade() == g
    ensures gc.GetFinalGrade() == Letter(g)
  {
    gc := new GradeCalculator();
    gc.AddGrade("a", g, Assignment);
    gc.AddGrade("e", g, Exam);
    gc.AddGrade("s", g, Essay);
    UniformNumericalGrade(gc, g);
  }

  /** With every category non-empty and every score g, the numerical grade is g. */
  lemma UniformNumericalGrade(gc: GradeCalculator, g: int)
    requires gc.assignments != [] && gc.exams != [] && gc.essays != []
    requires ScoresWithin(gc.assignments, g, g)
    requires ScoresWithin(gc.exams, g, g)
    requires ScoresWithin(gc.essays, g, g)
    ensures gc.CalculateNumericalGrade() == g
  {
    AverageUniform(gc.assignments, g);
    AverageUniform(gc.exams, g);
    AverageUniform(gc.essays, g);
    WeightedGradeUniform(g);
  }

  /**
   * Scores in a range that contains 0 give a numerical grade in that range,
   * whichever categories are empty (an empty category averages 0).
   */
  lemma NumericalGradeWithin(gc: GradeCalculator, lo: int, hi: int)
    requires lo <= 0 <= hi
    requires ScoresWithin(gc.assignments, lo, hi)
    requires ScoresWithin(gc.exams, lo, hi)
    requires ScoresWithin(gc.essays, lo, hi)
    ensures lo <= gc.CalculateNumericalGrade() <= hi
  {
    if gc.assignments != [] {
      AverageBounds(gc.assignments, lo, hi);
    }
    if gc.exams != [] {
      AverageBounds(gc.exams, lo, hi);
    }
    if gc.essays != [] {
      AverageBounds(gc.essays, lo, hi);
    }
    WeightedGradeBounds(Average(gc.assignments), Average(gc.exams), Average(gc.essays), lo, hi);
  }

  /** With every category non-empty, scores in any range [lo, hi] give a numerical grade in it. */
  lemma FilledNumericalGradeWithin(gc: GradeCalculator, lo: int, hi: int)
    requires gc.assignments != [] && gc.exams != [] && gc.essays != []
    requires ScoresWithin(gc.assignments, lo, hi)
    requires ScoresWithin(gc.exams, lo, hi)
    requires ScoresWithin(gc.essays, lo, hi)
    ensures lo <= gc.CalculateNumericalGrade() <= hi
  {
    AverageBounds(gc.assignments, lo, hi);
    AverageBounds(gc.exams, lo, hi);
    AverageBounds(gc.essays, lo, hi);
    WeightedGradeBounds(Average(gc.assignments), Average(gc.exams), Average(gc.essays), lo, hi);
  }

  /** A calculator without entries has numerical grade 0 and letter "F". */
  lemma NoGrades(gc: GradeCalculator)
    requires gc.assignments == [] && gc.exams == [] && gc.essays == []
    ensures gc.CalculateNumericalGrade() == 0
    ensures gc.GetFinalGrade() == "F"
  {
  }
}
