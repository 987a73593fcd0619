/**
 * `calculateScore` of `shared/src/utils/score.ts`: count the answers and the correct ones,
 * weigh both by the points per question and express the score as a percentage.
 *
 * JavaScript numbers are exact reals here. The percentage is the one value that can be
 * NaN: with answers and zero points per question the source divides 0 by 0.
 */
module Score {
  import opened Wrappers
  import opened Primitives
  import opened AttemptSchema

  /** A JavaScript number that is either finite or NaN. */
  datatype Percentage = Finite(value: real) | NaN

  /** `ScoreBreakdown` */
  datatype ScoreBreakdown = ScoreBreakdown(
    totalQuestions: nat,
    correctAnswers: nat,
    score: real,
    maxScore: real,
    percentage: Percentage)

  /** `answers.filter(answer => answer.isCorrect)` */
  function CorrectOnes(answers: seq<Answer>): (r: seq<Answer>)
    ensures |r| <= |answers|
    ensures forall k :: 0 <= k < |r| ==> r[k].isCorrect
  {
    if answers == [] then []
    else
      var rest := CorrectOnes(answers[1..]);
      if answers[0].isCorrect then [answers[0]] + rest else rest
  }

  /**
   * The filter keeps exactly the correct answers, each as often as it occurs:
   * an answer is kept if and only if it occurs and is correct.
   */
  lemma {:induction false} CorrectOnesIsFilter(answers: seq<Answer>)
    ensures forall a :: a in CorrectOnes(answers) <==> a in answers && a.isCorrect
    ensures forall a: Answer :: a.isCorrect ==> multiset(CorrectOnes(answers))[a] == multiset(answers)[a]
    ensures forall a: Answer :: !a.isCorrect ==> multiset(CorrectOnes(answers))[a] == 0
  {
    if answers != [] {
      CorrectOnesIsFilter(answers[1..]);
      assert answers == [answers[0]] + answers[1..];
    }
  }

  /** Filtering distributes over concatenation. */
  lemma {:induction false} CorrectOnesAppend(s: seq<Answer>, t: seq<Answer>)
    ensures CorrectOnes(s + t) == CorrectOnes(s) + CorrectOnes(t)
  {
    if s == [] {
      assert s + t == t;
    } else {
      assert (s + t)[1..] == s[1..] + t;
      CorrectOnesAppend(s[1..], t);
    }
  }

  /** `calculateScore(answers, pointsPerQuestion = 1)` */
  function CalculateScore(answers: seq<Answer>, pointsPerQuestion: real := 1.0): (b: ScoreBreakdown)
    ensures b.totalQuestions == |answers|
    ensures b.correctAnswers <= b.totalQuestions
  {
    var totalQuestions := |answers|;
    var correctAnswers := |CorrectOnes(answers)|;
    var score := correctAnswers as real * pointsPerQuestion;
    var maxScore := totalQuestions as real * pointsPerQuestion;
    // With answers, maxScore is 0 only for zero points, and then score is 0 too: 0 / 0.
    var percentage :=
      if totalQuestions == 0 then Finite(0.0)
      else if maxScore == 0.0 then NaN
      else Finite(score / maxScore * 100.0);
    ScoreBreakdown(totalQuestions, correctAnswers, score, maxScore, percentage)
  }

  /* ---------------------------------------------------------------------------
   * Properties
   * ------------------------------------------------------------------------- */

  /**
   * `correctAnswers` counts exactly the answers marked correct, and the score and the
   * maximum are those counts weighed by the points; for non-negative points the score
   * never exceeds the maximum.
   */
  lemma ScoreIsWeightedCount(answers: seq<Answer>, points: real)
    ensures CalculateScore(answers, points).correctAnswers == |CorrectOnes(answers)|
    ensures CalculateScore(answers, points).score == CalculateScore(answers, points).correctAnswers as real * points
    ensures CalculateScore(answers, points).maxScore == |answers| as real * points
    ensures points >= 0.0 ==> 0.0 <= CalculateScore(answers, points).score <= CalculateScore(answers, points).maxScore
  {
    var b := CalculateScore(answers, points);
    if points >= 0.0 {
      assert b.correctAnswers as real <= b.totalQuestions as real;
      MultiplyMonotone(b.correctAnswers as real, b.totalQuestions as real, points);
    }
  }

  lemma MultiplyMonotone(x: real, y: real, p: real)
    requires 0.0 <= x <= y && p >= 0.0
    ensures 0.0 <= x * p <= y * p
  {
  }

  /** No answers: all five fields are 0, whatever the points. */
  lemma EmptyAnswers(points: real)
    ensures CalculateScore([], points) == ScoreBreakdown(0, 0, 0.0, 0.0, Finite(0.0))
  {
  }

  /**
   * With answers and non-zero points the percentage is the share of correct answers,
   * independent of the points, and lies in [0, 100].
   */
  lemma PercentageIsShareOfCorrect(answers: seq<Answer>, points: real)
    requires |answers| > 0 && points != 0.0
    ensures CalculateScore(answers, points).percentage
         == Finite(CalculateScore(answers, points).correctAnswers as real / |answers| as real * 100.0)
    ensures 0.0 <= CalculateScore(answers, points).percentage.value <= 100.0
  {
    var b := CalculateScore(answers, points);
    var c, n := b.correctAnswers as real, |answers| as real;
    assert b.maxScore != 0.0;
    calc {
      b.score / b.maxScore;
      (c * points) / (n * points);
      c / n;
    }
    assert c / n <= 1.0;
  }

  /** The percentage is NaN exactly when there are answers and the points are zero. */
  lemma PercentageIsNaN(answers: seq<Answer>, points: real)
    ensures CalculateScore(answers, points).percentage.NaN? <==> |answers| > 0 && points == 0.0
  {
    if |answers| > 0 && points != 0.0 {
      assert |answers| as real * points != 0.0;
    }
  }

  /**
   * One more answer adds one question, and one correct answer exactly when it is correct;
   * score and maximum grow by the points accordingly.
   */
  lemma AppendAnswer(answers: seq<Answer>, a: Answer, points: real)
    ensures CalculateScore(answers + [a], points).totalQuestions == CalculateScore(answers, points).totalQuestions + 1
    ensures CalculateScore(answers + [a], points).correctAnswers
         == CalculateScore(answers, points).correctAnswers + (if a.isCorrect then 1 else 0)
    ensures CalculateScore(answers + [a], points).maxScore == CalculateScore(answers, points).maxScore + points
  {
    var before, after := CalculateScore(answers, points), CalculateScore(answers + [a], points);
    assert after.correctAnswers == before.correctAnswers + (if a.isCorrect then 1 else 0) by {
      CorrectOnesAppend(answers, [a]);
      assert CorrectOnes([a]) == if a.isCorrect then [a] else [];
    }
    assert after.maxScore == before.maxScore + points by {
      var n := |answers| as real;
      assert |answers + [a]| as real == n + 1.0;
      assert (n + 1.0) * points == n * points + points;
    }
  }

  /**
   * A score computed with a natural number of points is a legal `Attempt.score`:
   * a non-negative integer, which may be stored on any valid attempt.
   */
  lemma ScoreFitsAttempt(answers: seq<Answer>, points: nat, attempt: Attempt, isDateTime: DateTimeCheck)
    requires ValidAttempt(attempt, isDateTime)
    ensures IsNonNegativeInt(CalculateScore(answers, points as real).score)
    ensures ValidAttempt(attempt.(score := Some(CalculateScore(answers, points as real).score)), isDateTime)
  {
    WholeScores(answers, points);
  }

  /**
   * With a natural number of points, score and maximum are whole numbers, and the maximum
   * is positive when there are answers and the points are positive.
   */
  lemma WholeScores(answers: seq<Answer>, points: nat)
    ensures IsNonNegativeInt(CalculateScore(answers, points as real).score)
    ensures IsNonNegativeInt(CalculateScore(answers, points as real).maxScore)
    ensures |answers| > 0 && points > 0 ==> IsPositiveInt(CalculateScore(answers, points as real).maxScore)
  {
    var b := CalculateScore(answers, points as real);
    assert b.score == (b.correctAnswers * points) as real;
    assert b.maxScore == (|answers| * points) as real;
    if |answers| > 0 && points > 0 {
      assert |answers| * points >= points;
    }
  }

  /* ---------------------------------------------------------------------------
   * Concrete vectors
   * ------------------------------------------------------------------------- */

  /** The decimal digits of `n`, as a template literal prints it. */
  function DecimalString(n: nat): (s: string)
    ensures |s| > 0
    ensures forall k :: 0 <= k < |s| ==> '0' <= s[k] <= '9'
  {
    var digit := [(('0' as int) + n % 10) as char];
    if n < 10 then digit else DecimalString(n / 10) + digit
  }

  /**
   * `total` answers to questions `q1`, `q2`, ..., of which the first `correctCount` are
   * correct; `answeredAt(index)` is the timestamp of the answer at `index`.
   */
  function SampleAnswers(correctCount: nat, total: nat, answeredAt: nat -> string): (s: seq<Answer>)
    ensures |s| == total
    ensures forall k :: 0 <= k < total ==> s[k].isCorrect == (k < correctCount)
  {
    seq(total, index requires 0 <= index => Answer("q" + DecimalString(index + 1), "opt", index < correctCount, answeredAt(index)))
  }

  /** When exactly the first `c` answers are correct, `min(c, |s|)` of them are. */
  lemma {:induction false} CorrectPrefixCount(s: seq<Answer>, c: nat)
    requires forall k :: 0 <= k < |s| ==> s[k].isCorrect == (k < c)
    ensures |CorrectOnes(s)| == if c < |s| then c else |s|
  {
    if s != [] {
      var rest := s[1..];
      if c == 0 {
        CorrectPrefixCount(rest, 0);
      } else {
        CorrectPrefixCount(rest, c - 1);
      }
    }
  }

  /** 3 correct of 5 with the default point gives {5, 3, 3, 5, 60}. */
  lemma DefaultPointsVector(answeredAt: nat -> string)
    ensures CalculateScore(SampleAnswers(3, 5, answeredAt)) == ScoreBreakdown(5, 3, 3.0, 5.0, Finite(60.0))
  {
    CorrectPrefixCount(SampleAnswers(3, 5, answeredAt), 3);
  }

  /** 4 correct of 8 with 2 points each gives {8, 4, 8, 16, 50}. */
  lemma CustomPointsVector(answeredAt: nat -> string)
    ensures CalculateScore(SampleAnswers(4, 8, answeredAt), 2.0) == ScoreBreakdown(8, 4, 8.0, 16.0, Finite(50.0))
  {
    CorrectPrefixCount(SampleAnswers(4, 8, answeredAt), 4);
  }
}
