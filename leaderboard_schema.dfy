/**
 * The leaderboard records of `shared/src/schemas/leaderboard.ts`: the global leaderboard
 * and the per-quiz leaderboard, each a list of entries and a generation time.
 *
 * Nothing in the repository builds or ranks these lists; only their shapes exist, so
 * the model states what an entry and a list must satisfy and how a score breakdown
 * fits a per-quiz entry.
 */
module LeaderboardSchema {
  import opened Primitives
  import Score
  import AttemptSchema

  /** `LeaderboardEntrySchema` */
  datatype LeaderboardEntry = LeaderboardEntry(
    username: string,
    totalScore: real,
    quizzesCompleted: real,
    averageScore: real,
    rank: real)

  predicate ValidLeaderboardEntry(e: LeaderboardEntry) {
    && IsNonNegativeInt(e.totalScore)
    && IsNonNegativeInt(e.quizzesCompleted)
    && e.averageScore >= 0.0
    && IsPositiveInt(e.rank)
  }

  /** `LeaderboardSchema` */
  datatype Leaderboard = Leaderboard(entries: seq<LeaderboardEntry>, generatedAt: string)

  predicate ValidLeaderboard(l: Leaderboard, isDateTime: DateTimeCheck) {
    (forall i :: 0 <= i < |l.entries| ==> ValidLeaderboardEntry(l.entries[i])) && isDateTime(l.generatedAt)
  }

  /** `QuizLeaderboardEntrySchema` */
  datatype QuizLeaderboardEntry = QuizLeaderboardEntry(
    username: string,
    score: real,
    maxScore: real,
    percentage: real,
    completedAt: string,
    rank: real)

  predicate ValidQuizLeaderboardEntry(e: QuizLeaderboardEntry, isDateTime: DateTimeCheck) {
    && IsNonNegativeInt(e.score)
    && IsPositiveInt(e.maxScore)
    && e.percentage >= 0.0
    && isDateTime(e.completedAt)
    && IsPositiveInt(e.rank)
  }

  /** `QuizLeaderboardSchema` */
  datatype QuizLeaderboard = QuizLeaderboard(
    quizId: string,
    quizTitle: string,
    entries: seq<QuizLeaderboardEntry>,
    generatedAt: string)

  predicate ValidQuizLeaderboard(l: QuizLeaderboard, isDateTime: DateTimeCheck) {
    && (forall i :: 0 <= i < |l.entries| ==> ValidQuizLeaderboardEntry(l.entries[i], isDateTime))
    && isDateTime(l.generatedAt)
  }

  /* ---------------------------------------------------------------------------
   * Properties
   * ------------------------------------------------------------------------- */

  /**
   * The lists carry no ordering and no uniqueness: any rearrangement of valid entries,
   * repeated ranks and repeated usernames included, forms a valid leaderboard.
   */
  lemma EntriesUnordered(l: Leaderboard, entries: seq<LeaderboardEntry>, isDateTime: DateTimeCheck)
    requires ValidLeaderboard(l, isDateTime)
    requires forall e :: e in entries ==> e in l.entries
    ensures ValidLeaderboard(l.(entries := entries), isDateTime)
  {
    forall i | 0 <= i < |entries|
      ensures ValidLeaderboardEntry(entries[i])
    {
      assert entries[i] in l.entries;
    }
  }

  /** The same for the per-quiz leaderboard. */
  lemma QuizEntriesUnordered(l: QuizLeaderboard, entries: seq<QuizLeaderboardEntry>, isDateTime: DateTimeCheck)
    requires ValidQuizLeaderboard(l, isDateTime)
    requires forall e :: e in entries ==> e in l.entries
    ensures ValidQuizLeaderboard(l.(entries := entries), isDateTime)
  {
    forall i | 0 <= i < |entries|
      ensures ValidQuizLeaderboardEntry(entries[i], isDateTime)
    {
      assert entries[i] in l.entries;
    }
  }

  /**
   * Totals and ranks must be whole numbers while the average and the percentage need not:
   * a fractional average or percentage is accepted, a fractional total, score or rank is not.
   */
  lemma OnlyCountsAreWhole(e: LeaderboardEntry, q: QuizLeaderboardEntry, isDateTime: DateTimeCheck)
    requires ValidLeaderboardEntry(e) && ValidQuizLeaderboardEntry(q, isDateTime)
    ensures ValidLeaderboardEntry(e.(averageScore := 2.5))
    ensures !ValidLeaderboardEntry(e.(totalScore := 2.5)) && !ValidLeaderboardEntry(e.(rank := 1.5))
    ensures ValidQuizLeaderboardEntry(q.(percentage := 62.5), isDateTime)
    ensures !ValidQuizLeaderboardEntry(q.(score := 0.5), isDateTime)
    ensures !ValidQuizLeaderboardEntry(q.(rank := 0.0), isDateTime)
  {
    assert (2.5).Floor == 2 && (1.5).Floor == 1 && (0.5).Floor == 0;
  }

  /** A per-quiz entry holding the score, maximum and percentage of a breakdown. */
  function EntryOf(username: string, b: Score.ScoreBreakdown, completedAt: string, rank: nat): QuizLeaderboardEntry
    requires b.percentage.Finite?
  {
    QuizLeaderboardEntry(username, b.score, b.maxScore, b.percentage.value, completedAt, rank as real)
  }

  /**
   * A breakdown computed with a positive natural number of points over at least one answer
   * fits a per-quiz entry of positive rank.
   */
  lemma BreakdownFitsQuizEntry(answers: seq<AttemptSchema.Answer>, points: nat, username: string, completedAt: string, rank: nat, isDateTime: DateTimeCheck)
    requires |answers| > 0 && points > 0 && rank > 0 && isDateTime(completedAt)
    ensures Score.CalculateScore(answers, points as real).percentage.Finite?
    ensures ValidQuizLeaderboardEntry(EntryOf(username, Score.CalculateScore(answers, points as real), completedAt, rank), isDateTime)
  {
    var b := Score.CalculateScore(answers, points as real);
    assert b.percentage.Finite? && b.percentage.value >= 0.0 by {
      Score.PercentageIsShareOfCorrect(answers, points as real);
    }
    Score.WholeScores(answers, points);
  }

  /** The breakdown of no answers has maximum 0, so it never fits a per-quiz entry. */
  lemma EmptyBreakdownNeverFits(points: real, username: string, completedAt: string, rank: nat, isDateTime: DateTimeCheck)
    ensures !ValidQuizLeaderboardEntry(EntryOf(username, Score.CalculateScore([], points), completedAt, rank), isDateTime)
  {
    Score.EmptyAnswers(points);
  }
}
