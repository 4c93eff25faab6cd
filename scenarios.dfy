/**
 * The Go test suite replayed against the model: each method below follows
 * one test function and asserts what that test checks (one extra case is
 * marked where it occurs).
 */
module Scenarios {
  import opened GradeTypes
  import opened Scoring
  import opened Calculator

  method GradeTypeStringCases() {
    assert String(Assignment) == "assignment";
    assert String(Exam) == "exam";
    assert String(Essay) == "essay";
    assert String(123 as GradeType) == "";
  }

  method ComputeAverageEmptyAndNonEmpty() {
    var avg := ComputeAverage([]);
    assert avg == 0;
    var grades := [Grade("g1", 90, Assignment), Grade("g2", 100, Assignment)];
    assert Sum(grades) == 190 by {
      assert grades[..1] == [grades[0]];
      SumOfOne(grades[0]);
    }
    avg := ComputeAverage(grades);
    assert avg == 95;
    // Extra case, not in the Go test: an average with a remainder truncates.
    var mixed := [Grade("g1", 89, Assignment), Grade("g2", 90, Assignment), Grade("g3", 90, Assignment)];
    assert Sum(mixed) == 269 by {
      assert mixed[..2] == [mixed[0], mixed[1]] && mixed[..2][..1] == [mixed[0]];
      SumOfOne(mixed[0]);
    }
    avg := ComputeAverage(mixed);
    assert avg == 89;
  }

  method NewGradeCalculatorAndAddGradeSlices() {
    var gc := new GradeCalculator();
    gc.AddGrade("ass", 77, Assignment);
    gc.AddGrade("exam1", 88, Exam);
    gc.AddGrade("essay1", 99, Essay);
    assert |gc.assignments| == 1 && |gc.exams| == 1 && |gc.essays| == 1;
    var gc2 := new GradeCalculator();
    gc2.AddGrade("bad", 50, 99 as GradeType);
    assert |gc2.assignments| == 0 && |gc2.exams| == 0 && |gc2.essays| == 0;
  }

  method CalculateNumericalGradeRoundingDown() {
    var gc := new GradeCalculator();
    gc.AddGrade("a1", 89, Assignment);
    gc.AddGrade("e1", 90, Exam);
    gc.AddGrade("s1", 90, Essay);
    assert gc.assignments == [Grade("a1", 89, Assignment)];
    assert gc.exams == [Grade("e1", 90, Exam)];
    assert gc.essays == [Grade("s1", 90, Essay)];
    AverageOfOne(gc.assignments[0]);
    AverageOfOne(gc.exams[0]);
    AverageOfOne(gc.essays[0]);
    assert WeightedGrade(89, 90, 90) == 89;
    assert gc.CalculateNumericalGrade() == 89;
    assert gc.GetFinalGrade() == "B";
  }

  method GetFinalGradeBoundaries() {
    var gc := MakeUniformGC(90);
    assert gc.GetFinalGrade() == "A";
    gc := MakeUniformGC(95);
    assert gc.GetFinalGrade() == "A";
    gc := MakeUniformGC(89);
    assert gc.GetFinalGrade() == "B";
    gc := MakeUniformGC(80);
    assert gc.GetFinalGrade() == "B";
    gc := MakeUniformGC(79);
    assert gc.GetFinalGrade() == "C";
    gc := MakeUniformGC(70);
    assert gc.GetFinalGrade() == "C";
    gc := MakeUniformGC(69);
    assert gc.GetFinalGrade() == "D";
    gc := MakeUniformGC(60);
    assert gc.GetFinalGrade() == "D";
    gc := MakeUniformGC(59);
    assert gc.GetFinalGrade() == "F";
    gc := MakeUniformGC(0);
    assert gc.GetFinalGrade() == "F";
  }

  method NoGradesReturnsF() {
    var gc := new GradeCalculator();
    assert gc.GetFinalGrade() == "F";
  }
}
