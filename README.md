# Grade calculator, modelled in Dafny

The Go package `esepunittests` computes a course grade. It has three parts:

- **Categories.** A grade category (`GradeType`) is an integer type. Its three valid values are `Assignment`, `Exam` and `Essay`. `String()` returns the lowercase name of a valid category and `""` for any other value.
- **Collecting entries.** A `GradeCalculator` keeps one append-only sequence of `Grade{Name, Grade, Type}` entries per category. `AddGrade` appends an entry to the sequence of its category. If the category is invalid, it drops the entry and reports nothing.
- **Scoring.** `computeAverage` gives the integer average of one category, and 0 when the category is empty. `calculateNumericalGrade` combines the three averages with fixed weights and truncates the result. The model takes the weights to be 30/40/30; see "Weights" below. `GetFinalGrade` maps that number to a letter with the inclusive lower bounds 90/80/70/60, and gives "F" below 60.

The repository's implementation file is not part of this model. The behaviour modelled here is what `grade-calculator/grade_calculator_test.go` exercises, plus the model's own assumption about the weights, which the tests leave open.

Files:

- `grade_type.dfy` (module `GradeTypes`): `GradeType` is a `newtype` over `int`, so out-of-range values such as `123 as GradeType` exist, as they do in Go. This module also holds `String` and the `Grade` record.
- `scoring.dfy` (module `Scoring`): Go's truncating integer division (`TruncDiv`), the score sum, the spec function `Average`, and the loop method `ComputeAverage` proved equal to `Average`. It also holds the weighted grade with its weights as named constants, the letter table, and their lemmas.
- `calculator.dfy` (module `Calculator`): the class `GradeCalculator`. It has the three `seq<Grade>` fields, the constructor (Go's `NewGradeCalculator`) and `AddGrade` (`modifies this`). Its functions `CalculateNumericalGrade` and `GetFinalGrade` read the current fields. The module also has `MakeUniformGC` and lemmas about calculator states.
- `scenarios.dfy` (module `Scenarios`): one client method per Go test function. Each asserts what that test checks. One extra case, noted in the file, goes beyond the Go test.

Choices worth knowing:

- **Division.** Go's `/` on integers and its `int(float64)` conversion both truncate toward zero. Dafny's `/` is Euclidean. So every division goes through `TruncDiv`, and scores may be any integer, negative ones included.
- **Weights.** The tests do not fix the weights, and they do not fix whether the weighted sum is computed in `float64`. The 89/90/90 → 89 case also holds under other weights, such as 50/35/15 (89.5 truncates to 89). Every uniform case holds for any weights that sum to 1. The model assumes 30/40/30 weights, in exact arithmetic: `WeightedGrade(a, e, s)` is `(3a + 4e + 3s) / 10`, truncated toward zero.
- **Category numbers.** The test file does not show the values of the three constants. They are taken as Go's `iota` numbering: `Assignment = 0`, `Exam = 1`, `Essay = 2`. Only their distinctness matters, and any other value is invalid.

## Model

| member | source | states |
|---|---|---|
| `GradeTypes.String` | grade-calculator/grade_calculator_test.go:13-26 | Assignment, Exam and Essay map to "assignment", "exam" and "essay", each in both directions. The result is "" exactly when the category is not one of the three. |
| `GradeTypes.StringInjective` | grade-calculator/grade_calculator_test.go:14-19 | Two categories with the same non-empty name are the same category, so the name identifies a valid category. |
| `Scoring.TruncDiv` | grade-calculator/grade_calculator_test.go:33-39 | Go's integer division: the remainder is smaller than the divisor in magnitude and has the sign of the dividend. |
| `Scoring.TruncDivUnique` | grade-calculator/grade_calculator_test.go:33-39 | Those remainder conditions determine the quotient uniquely. |
| `Scoring.SumAppend` | grade-calculator/grade_calculator_test.go:28-39 | The score sum of two concatenated sequences is the sum of their sums. `ComputeAverage` uses it to show that adding one more score extends the running total. |
| `Scoring.Average` | grade-calculator/grade_calculator_test.go:28-39 | An empty sequence averages 0. Otherwise, for a non-negative sum, avg·n ≤ sum < (avg+1)·n, which is integer division rounded down. For a negative sum, (avg−1)·n < sum ≤ avg·n, which is rounded toward zero. |
| `Scoring.ComputeAverage` | grade-calculator/grade_calculator_test.go:28-39 | The single-pass summing loop, followed by one division, returns exactly `Average` of the input, including 0 for the empty input. |
| `Scoring.SumBounds` | grade-calculator/grade_calculator_test.go:33-39 | If every score lies in [lo, hi], the sum of n scores lies in [n·lo, n·hi]. |
| `Scoring.AverageBounds` | grade-calculator/grade_calculator_test.go:28-39 | The average of a non-empty sequence whose scores lie in [lo, hi] also lies in [lo, hi]. |
| `Scoring.AverageUniform` | grade-calculator/grade_calculator_test.go:5-11 | A non-empty category whose scores all equal g averages exactly g. |
| `Scoring.SumOfOne` | grade-calculator/grade_calculator_test.go:69-77 | The sum of a single entry is its score. |
| `Scoring.AverageOfOne` | grade-calculator/grade_calculator_test.go:69-77 | A category with one entry averages that entry's score. |
| `Scoring.WeightedGrade` | grade-calculator/grade_calculator_test.go:69-77 | With w = 3a + 4e + 3s: for w ≥ 0, 10·n ≤ w < 10·(n+1); for w < 0, 10·(n−1) < w ≤ 10·n. This is the weighted sum truncated, not rounded. |
| `Scoring.WeightedGradeBounds` | grade-calculator/grade_calculator_test.go:69-77 | Because the weights sum to the scale, category averages in [lo, hi] give a numerical grade in [lo, hi]. |
| `Scoring.WeightedGradeUniform` | grade-calculator/grade_calculator_test.go:84-108 | Three equal averages g give the numerical grade g. |
| `Scoring.WeightedGradeMonotone` | grade-calculator/grade_calculator_test.go:69-81 | Raising any category average never lowers the numerical grade. |
| `Scoring.Letter` | grade-calculator/grade_calculator_test.go:84-108 | The letter is one of A, B, C, D, F. It is A exactly for n ≥ 90, B exactly for 80–89, C exactly for 70–79, D exactly for 60–69 and F exactly below 60. |
| `Scoring.LetterMonotone` | grade-calculator/grade_calculator_test.go:84-108 | A higher numerical grade never earns a lower letter. |
| `Calculator.GradeCalculator.constructor` | grade-calculator/grade_calculator_test.go:42-46 | A new calculator has three empty sequences and satisfies the category invariant. |
| `Calculator.GradeCalculator.AddGrade` | grade-calculator/grade_calculator_test.go:42-67 | A valid category appends the entry to its own sequence and leaves the other two unchanged. An invalid category leaves all three unchanged. The invariant "each sequence holds only its own category" is preserved. |
| `Calculator.GradeCalculator.CalculateNumericalGrade` | grade-calculator/grade_calculator_test.go:69-77 | With w = 3·avg(assignments) + 4·avg(exams) + 3·avg(essays) over the current entries: for w ≥ 0, 10·n ≤ w < 10·(n+1); for w < 0, 10·(n−1) < w ≤ 10·n. This is the weighted sum of the three category averages, truncated. An empty category still counts, with average 0. |
| `Calculator.GradeCalculator.GetFinalGrade` | grade-calculator/grade_calculator_test.go:79-116 | The final grade is always one of "A", "B", "C", "D", "F". With n the current numerical grade, it is "A" exactly when n ≥ 90, "B" exactly for 80–89, "C" exactly for 70–79, "D" exactly for 60–69 and "F" exactly when n < 60. |
| `Calculator.MakeUniformGC` | grade-calculator/grade_calculator_test.go:5-11 | The helper leaves exactly one entry of score g in each category. Its numerical grade is g and its letter is `Letter(g)`. |
| `Calculator.UniformNumericalGrade` | grade-calculator/grade_calculator_test.go:84-108 | With every category non-empty and every score g, the calculator's numerical grade is g. |
| `Calculator.NumericalGradeWithin` | grade-calculator/grade_calculator_test.go:69-77 | Scores in a range that contains 0, such as 0–100, give a numerical grade in that range, even when some categories are empty (an empty category counts as 0). |
| `Calculator.FilledNumericalGradeWithin` | grade-calculator/grade_calculator_test.go:69-77 | With all three categories non-empty, scores in any range [lo, hi] (for example 60–100) give a numerical grade in [lo, hi]. |
| `Calculator.NoGrades` | grade-calculator/grade_calculator_test.go:110-116 | A calculator with no entries has numerical grade 0 and letter "F". |

`GradeCalculator.Valid` says that each sequence holds only entries of its own category. The constructor establishes it, `AddGrade` preserves it and `MakeUniformGC` ensures it. It is a proved invariant only: no scoring contract depends on it, because the scores are averaged per sequence whatever their tags.

The methods in `Scenarios` replay the test functions at lines 13-116. `ComputeAverageEmptyAndNonEmpty` also checks one extra case, [89, 90, 90] → 89, which the Go test does not check. The methods check the 89/90/90 → 89 → "B" truncation case, the ten boundary cases and the empty calculator.

## Left out

- Weights and floating point: the 30/40/30 weights are assumed, not fixed by the tests (see "Weights" above). The implementation may compute the weighted sum in `float64`; the model uses exact arithmetic, i.e. `(3a + 4e + 3s)` truncated by 10. If the sum is evaluated as `a*0.30 + e*0.40 + s*0.30`, the two differ for some scores. For example, with averages (0, 1, 12), `12*0.30` is 3.5999999999999996 in float64, so the float sum is 3.9999999999999996 and truncates to 3, while `WeightedGrade(0, 1, 12)` is 4. The uniform cases and 89/90/90 give the same result both ways, so every tested case agrees.
- Machine integers: Go's `int` is 64 bits wide, and the model's integers are unbounded. Overflow of a score sum is not modelled.
- The Go testing harness: `t.Fatalf`, and the iteration order of the `cases` map in the `GradeType` string test. These are test plumbing.
- The `gc == nil` check after `NewGradeCalculator`: a Dafny constructor always yields a fresh non-null object.
- `Name` validation: names are only stored, and no tested result depends on a name.
- The values of `Assignment`, `Exam` and `Essay` are assumed to be 0, 1 and 2. The source file defining them is not part of this model.
