/**
 * The scoring pipeline: the integer average of one category, the weighted
 * numerical grade of three category averages, and the letter for a
 * numerical grade.
 *
 * Go's integer division truncates toward zero, and so does Go's conversion
 * of a float64 to an int; Dafny's `/` is Euclidean, so the truncating
 * division is written out as TruncDiv and used wherever Go divides.
 */
module Scoring {
  import opened GradeTypes

  function Abs(x: int): (m: nat) {
    if x < 0 then -x else x
  }

  /**
   * Integer division rounding toward zero, as Go's `/` on ints: the
   * remainder `a - q * b` is smaller than the divisor in magnitude and has
   * the sign of the dividend.
   */
  function TruncDiv(a: int, b: int): (q: int)
    requires b != 0
    ensures Abs(a - q * b) < Abs(b)
    ensures a >= 0 ==> a - q * b >= 0
    ensures a < 0 ==> a - q * b <= 0
  {
    if a >= 0 then
      assert a == b * (a / b) + a % b;
      a / b
    else
      assert -a == b * ((-a) / b) + (-a) % b;
      -((-a) / b)
  }

  /** The remainder conditions of TruncDiv determine the quotient. */
  lemma TruncDivUnique(a: int, b: int, q: int)
    requires b != 0
    requires Abs(a - q * b) < Abs(b)
    requires a >= 0 ==> a - q * b >= 0
    requires a < 0 ==> a - q * b <= 0
    ensures q == TruncDiv(a, b)
  {
    var t := TruncDiv(a, b);
    var d := t - q;
    assert (a - q * b) - (a - t * b) == d * b;
    if d != 0 {
      MulAbsAtLeast(d, b);
    }
  }

  /** A non-zero multiple of b is at least b in magnitude. */
  lemma MulAbsAtLeast(d: int, b: int)
    requires d != 0
    ensures Abs(d * b) >= Abs(b)
  {
    var ad, ab := Abs(d), Abs(b);
    assert Abs(d * b) == ad * ab by {
      if d < 0 && b < 0 {
        assert d * b == (-d) * (-b);
      } else if d < 0 {
        assert d * b == -((-d) * b);
      } else if b < 0 {
        assert d * b == -(d * (-b));
      }
    }
    assert ad * ab == (ad - 1) * ab + ab;
    assert (ad - 1) * ab >= 0;
  }

  /** Dividing an exact multiple leaves no remainder. */
  lemma TruncDivExact(k: int, b: int)
    requires b != 0
    ensures TruncDiv(k * b, b) == k
  {
    TruncDivUnique(k * b, b, k);
  }

  /** A positive multiple of a positive b is at least b. */
  lemma MulAtLeast(d: int, b: int)
    requires d >= 1 && b > 0
    ensures d * b >= b
  {
    assert d * b == (d - 1) * b + b;
  }

  /** For a positive divisor the quotient has the sign of the dividend. */
  lemma TruncDivSign(a: int, b: int)
    requires b > 0
    ensures a >= 0 ==> TruncDiv(a, b) >= 0
    ensures a < 0 ==> TruncDiv(a, b) <= 0
  {
    var q := TruncDiv(a, b);
    if a >= 0 && q < 0 {
      assert (-q) * b == -(q * b);
      MulAtLeast(-q, b);
    } else if a < 0 && q > 0 {
      MulAtLeast(q, b);
    }
  }

  /** For a positive divisor, TruncDiv is monotone in the dividend. */
  lemma TruncDivMonotone(a1: int, a2: int, b: int)
    requires a1 <= a2 && b > 0
    ensures TruncDiv(a1, b) <= TruncDiv(a2, b)
  {
    var q1, q2 := TruncDiv(a1, b), TruncDiv(a2, b);
    if a1 < 0 <= a2 {
      TruncDivSign(a1, b);
      TruncDivSign(a2, b);
    } else if q1 > q2 {
      var r1, r2 := a1 - q1 * b, a2 - q2 * b;
      assert -b < r2 - r1 < b;
      assert (q1 - q2) * b == q1 * b - q2 * b;
      MulAtLeast(q1 - q2, b);
    }
  }

  /** The sum of the scores of a sequence of grades. */
  function Sum(grades: seq<Grade>): (total: int) {
    if grades == [] then 0 else Sum(grades[..|grades| - 1]) + grades[|grades| - 1].grade
  }

  /** The sum of a single entry is its score. */
  lemma SumOfOne(g: Grade)
    ensures Sum([g]) == g.grade
  {
    assert [g][..0] == [];
  }

  /** Sum distributes over concatenation. */
  lemma {:induction false} SumAppend(xs: seq<Grade>, ys: seq<Grade>)
    ensures Sum(xs + ys) == Sum(xs) + Sum(ys)
  {
    if ys == [] {
      assert xs + ys == xs;
    } else {
      assert (xs + ys)[..|xs + ys| - 1] == xs + ys[..|ys| - 1];
      SumAppend(xs, ys[..|ys| - 1]);
    }
  }

  /**
   * The average of a category: 0 for no grades (no division by zero),
   * otherwise the sum divided by the count, rounded toward zero.
   */
  function Average(grades: seq<Grade>): (avg: int)
    ensures grades == [] ==> avg == 0
    ensures grades != [] && Sum(grades) >= 0 ==>
      avg * |grades| <= Sum(grades) < (avg + 1) * |grades|
    ensures grades != [] && Sum(grades) < 0 ==>
      (avg - 1) * |grades| < Sum(grades) <= avg * |grades|
  {
    if grades == [] then 0 else TruncDiv(Sum(grades), |grades|)
  }

  /** Go's `computeAverage`: one pass summing the scores, then one division. */
  method ComputeAverage(grades: seq<Grade>) returns (avg: int)
    ensures avg == Average(grades)
  {
    if |grades| == 0 {
      return 0;
    }
    var total := 0;
    var i := 0;
    while i < |grades|
      invariant 0 <= i <= |grades|
      invariant total == Sum(grades[..i])
    {
      assert grades[..i + 1] == grades[..i] + [grades[i]];
      SumAppend(grades[..i], [grades[i]]);
      SumOfOne(grades[i]);
      total := total + grades[i].grade;
      i := i + 1;
    }
    assert grades[..i] == grades;
    avg := TruncDiv(total, |grades|);
  }

  /** Every score of the sequence lies in [lo, hi]. */
  predicate ScoresWithin(grades: seq<Grade>, lo: int, hi: int) {
    forall i :: 0 <= i < |grades| ==> lo <= grades[i].grade <= hi
  }

  /** If every score lies in [lo, hi], the sum lies in [n * lo, n * hi]. */
  lemma {:induction false} SumBounds(grades: seq<Grade>, lo: int, hi: int)
    requires ScoresWithin(grades, lo, hi)
    ensures |grades| * lo <= Sum(grades) <= |grades| * hi
  {
    if grades != [] {
      var n := |grades|;
      SumBounds(grades[..n - 1], lo, hi);
      assert n * lo == (n - 1) * lo + lo;
      assert n * hi == (n - 1) * hi + hi;
    }
  }

  /** The average of scores that all lie in [lo, hi] lies in [lo, hi] too. */
  lemma AverageBounds(grades: seq<Grade>, lo: int, hi: int)
    requires grades != []
    requires ScoresWithin(grades, lo, hi)
    ensures lo <= Average(grades) <= hi
  {
    var n := |grades|;
    SumBounds(grades, lo, hi);
    assert n * lo == lo * n && n * hi == hi * n;
    TruncDivMonotone(lo * n, Sum(grades), n);
    TruncDivMonotone(Sum(grades), hi * n, n);
    TruncDivExact(lo, n);
    TruncDivExact(hi, n);
  }

  /** A category whose every score is g averages exactly g. */
  lemma AverageUniform(grades: seq<Grade>, g: int)
    requires grades != []
    requires ScoresWithin(grades, g, g)
    ensures Average(grades) == g
  {
    AverageBounds(grades, g, g);
  }

  /** A category with a single entry averages that entry's score. */
  lemma AverageOfOne(g: Grade)
    ensures Average([g]) == g.grade
  {
    AverageUniform([g], g.grade);
  }

  /** The fixed weights, in tenths: 30% assignments, 40% exams, 30% essays. */
  const AssignmentWeight: int := 3
  const ExamWeight: int := 4
  const EssayWeight: int := 3
  const WeightScale: int := 10

  /**
   * The weighted numerical grade of three category averages,
   * 0.3 * a + 0.4 * e + 0.3 * s truncated toward zero, in exact arithmetic.
   */
  function WeightedGrade(a: int, e: int, s: int): (n: int)
    ensures var w := AssignmentWeight * a + ExamWeight * e + EssayWeight * s;
      (w >= 0 ==> WeightScale * n <= w < WeightScale * (n + 1)) &&
      (w < 0 ==> WeightScale * (n - 1) < w <= WeightScale * n)
  {
    TruncDiv(AssignmentWeight * a + ExamWeight * e + EssayWeight * s, WeightScale)
  }

  /** Weights that sum to the scale: averages inside [lo, hi] give a grade inside [lo, hi]. */
  lemma WeightedGradeBounds(a: int, e: int, s: int, lo: int, hi: int)
    requires lo <= a <= hi && lo <= e <= hi && lo <= s <= hi
    ensures lo <= WeightedGrade(a, e, s) <= hi
  {
  }

  /** Three equal averages g give the numerical grade g. */
  lemma WeightedGradeUniform(g: int)
    ensures WeightedGrade(g, g, g) == g
  {
    WeightedGradeBounds(g, g, g, g, g);
  }

  /** Raising any category average never lowers the numerical grade. */
  lemma WeightedGradeMonotone(a: int, e: int, s: int, a': int, e': int, s': int)
    requires a <= a' && e <= e' && s <= s'
    ensures WeightedGrade(a, e, s) <= WeightedGrade(a', e', s')
  {
  }

  /**
   * The letter for a numerical grade, by inclusive lower bounds 90, 80, 70
   * and 60, checked from the highest down; "F" below 60.
   */
  function Letter(n: int): (l: string)
    ensures l in {"A", "B", "C", "D", "F"}
    ensures l == "A" <==> 90 <= n
    ensures l == "B" <==> 80 <= n < 90
    ensures l == "C" <==> 70 <= n < 80
    ensures l == "D" <==> 60 <= n < 70
    ensures l == "F" <==> n < 60
  {
    if n >= 90 then "A"
    else if n >= 80 then "B"
    else if n >= 70 then "C"
    else if n >= 60 then "D"
    else "F"
  }

  /** The order of the letters, "F" lowest. */
  function Rank(l: string): (rank: int) {
    if l == "A" then 4
    else if l == "B" then 3
    else if l == "C" then 2
    else if l == "D" then 1
    else 0
  }

  /** A higher numerical grade never earns a lower letter. */
  lemma LetterMonotone(n: int, m: int)
    requires n <= m
    ensures Rank(Letter(n)) <= Rank(Letter(m))
  {
  }
}
