/**
 * The quiz records of `shared/src/schemas/quiz.ts`: an option, a question, the metadata,
 * a quiz and the summary listed without questions, each with the predicate stating what
 * the Zod schema accepts.
 *
 * The schema's `Option` record is `QuestionOption` here, so that it does not clash with
 * the optional-value type.
 */
module QuizSchema {
  import opened Wrappers
  import opened Primitives

  /** `OptionSchema` */
  datatype QuestionOption = QuestionOption(id: string, text: string)

  /** `QuestionSchema`; `explanation` and `conceptExplanation` are optional. */
  datatype Question = Question(
    id: string,
    text: string,
    options: seq<QuestionOption>,
    correctOptionId: string,
    explanation: Option<string>,
    conceptExplanation: Option<string>)

  /** `options: z.array(OptionSchema).min(2)`: the only refinement on a question. */
  predicate ValidQuestion(q: Question) {
    |q.options| >= 2
  }

  /* ---------------------------------------------------------------------------
   * Metadata
   * ------------------------------------------------------------------------- */

  /** `z.enum(['beginner', 'intermediate', 'advanced'])` */
  datatype Difficulty = Beginner | Intermediate | Advanced

  function DifficultyName(d: Difficulty): string {
    match d
    case Beginner => "beginner"
    case Intermediate => "intermediate"
    case Advanced => "advanced"
  }

  function ParseDifficulty(name: string): (r: Option<Difficulty>)
    ensures r.Some? ==> DifficultyName(r.value) == name
  {
    if name == "beginner" then Some(Beginner)
    else if name == "intermediate" then Some(Intermediate)
    else if name == "advanced" then Some(Advanced)
    else None
  }

  /** The enum accepts a name exactly when it is the name of a difficulty. */
  lemma DifficultyRoundTrip(d: Difficulty, name: string)
    ensures ParseDifficulty(DifficultyName(d)) == Some(d)
    ensures ParseDifficulty(name).Some? <==> exists e :: DifficultyName(e) == name
  {
    if exists e :: DifficultyName(e) == name {
      var e :| DifficultyName(e) == name;
      assert ParseDifficulty(DifficultyName(e)) == Some(e);
    }
  }

  /** `QuizMetadataSchema`; `estimatedMinutes` is a JSON number. */
  datatype QuizMetadata = QuizMetadata(difficulty: string, estimatedMinutes: real, tags: seq<string>)

  predicate ValidMetadata(m: QuizMetadata) {
    ParseDifficulty(m.difficulty).Some? && IsPositiveInt(m.estimatedMinutes)
  }

  /** Zero, negative and fractional durations are rejected. */
  lemma EstimatedMinutesPositiveInt(m: QuizMetadata)
    requires ParseDifficulty(m.difficulty).Some?
    ensures ValidMetadata(m) <==> m.estimatedMinutes >= 1.0 && m.estimatedMinutes.Floor as real == m.estimatedMinutes
  {
  }

  /* ---------------------------------------------------------------------------
   * Quiz and summary
   * ------------------------------------------------------------------------- */

  /** `QuizSchema` */
  datatype Quiz = Quiz(
    id: string,
    title: string,
    description: string,
    questions: seq<Question>,
    metadata: QuizMetadata,
    createdAt: string,
    updatedAt: string)

  predicate ValidQuiz(q: Quiz, isDateTime: DateTimeCheck) {
    && |q.questions| >= 1
    && (forall i :: 0 <= i < |q.questions| ==> ValidQuestion(q.questions[i]))
    && ValidMetadata(q.metadata)
    && isDateTime(q.createdAt)
    && isDateTime(q.updatedAt)
  }

  /** `QuizSummarySchema`; `questionCount` is a JSON number. */
  datatype QuizSummary = QuizSummary(
    id: string,
    title: string,
    description: string,
    metadata: QuizMetadata,
    questionCount: real)

  predicate ValidQuizSummary(s: QuizSummary) {
    ValidMetadata(s.metadata) && IsNonNegativeInt(s.questionCount)
  }

  /* ---------------------------------------------------------------------------
   * What the schema does not check
   * ------------------------------------------------------------------------- */

  /** Dropping the optional explanations keeps a question valid. */
  lemma ExplanationsOptional(q: Question)
    requires ValidQuestion(q)
    ensures ValidQuestion(q.(explanation := None, conceptExplanation := None))
  {
  }

  /**
   * A question is checked only for its number of options: the correct option id need not
   * name one of the options, and option ids need not be distinct.
   */
  lemma CorrectOptionUnchecked(q: Question, correctOptionId: string)
    requires |q.options| >= 2
    requires forall k :: 0 <= k < |q.options| ==> q.options[k].id != correctOptionId
    ensures ValidQuestion(q.(correctOptionId := correctOptionId))
    ensures ValidQuestion(q.(options := [q.options[0], q.options[0]]))
  {
  }

  /** Question ids within a quiz need not be distinct: a valid question may be repeated. */
  lemma DuplicateQuestionsAccepted(q: Quiz, isDateTime: DateTimeCheck)
    requires ValidQuiz(q, isDateTime)
    ensures ValidQuiz(q.(questions := q.questions + [q.questions[0]]), isDateTime)
  {
    var qs := q.questions + [q.questions[0]];
    assert forall i :: 0 <= i < |qs| ==> qs[i] == q.questions[0] || qs[i] in q.questions;
  }

  /** A quiz without questions, or with a question of fewer than two options, is rejected. */
  lemma TooSmallRejected(q: Quiz, isDateTime: DateTimeCheck, i: nat)
    requires q.questions == [] || (i < |q.questions| && |q.questions[i].options| < 2)
    ensures !ValidQuiz(q, isDateTime)
  {
  }
}
