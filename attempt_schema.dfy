/**
 * The attempt records of `shared/src/schemas/attempt.ts`: an answer, the two enums,
 * an attempt and the map of active attempts, each as a datatype and a validity predicate
 * that states what the Zod schema accepts.
 *
 * Field types are those the schema demands (a string, a boolean, an array), so the
 * predicates only state the refinements on top of them: enum membership, integrality,
 * sign and the datetime format.
 */
module AttemptSchema {
  import opened Wrappers
  import opened Primitives

  /** `AnswerSchema` */
  datatype Answer = Answer(questionId: string, selectedOptionId: string, isCorrect: bool, answeredAt: string)

  predicate ValidAnswer(a: Answer, isDateTime: DateTimeCheck) {
    isDateTime(a.answeredAt)
  }

  /* ---------------------------------------------------------------------------
   * Enums
   * ------------------------------------------------------------------------- */

  /** `AttemptStatusSchema`: `z.enum(['active', 'completed'])` */
  datatype AttemptStatus = Active | Completed

  function StatusName(s: AttemptStatus): string {
    match s
    case Active => "active"
    case Completed => "completed"
  }

  function ParseStatus(name: string): (r: Option<AttemptStatus>)
    ensures r.Some? ==> StatusName(r.value) == name
  {
    if name == "active" then Some(Active)
    else if name == "completed" then Some(Completed)
    else None
  }

  /** The enum accepts a name exactly when it is the name of a status. */
  lemma StatusRoundTrip(s: AttemptStatus, name: string)
    ensures ParseStatus(StatusName(s)) == Some(s)
    ensures ParseStatus(name).Some? <==> exists t :: StatusName(t) == name
  {
    if exists t :: StatusName(t) == name {
      var t :| StatusName(t) == name;
      assert ParseStatus(StatusName(t)) == Some(t);
    }
  }

  /** `QuizModeSchema`: `z.enum(['normal', 'learn'])` */
  datatype QuizMode = Normal | Learn

  function ModeName(m: QuizMode): string {
    match m
    case Normal => "normal"
    case Learn => "learn"
  }

  function ParseMode(name: string): (r: Option<QuizMode>)
    ensures r.Some? ==> ModeName(r.value) == name
  {
    if name == "normal" then Some(Normal)
    else if name == "learn" then Some(Learn)
    else None
  }

  /** The enum accepts a name exactly when it is the name of a mode. */
  lemma ModeRoundTrip(m: QuizMode, name: string)
    ensures ParseMode(ModeName(m)) == Some(m)
    ensures ParseMode(name).Some? <==> exists n :: ModeName(n) == name
  {
    if exists n :: ModeName(n) == name {
      var n :| ModeName(n) == name;
      assert ParseMode(ModeName(n)) == Some(n);
    }
  }

  /* ---------------------------------------------------------------------------
   * Attempt
   * ------------------------------------------------------------------------- */

  /**
   * `AttemptSchema`. `status` and `mode` are the strings the schema receives;
   * `completedAt` and `score` are optional; `score` is a JSON number.
   */
  datatype Attempt = Attempt(
    id: string,
    quizId: string,
    userId: string,
    status: string,
    answers: seq<Answer>,
    questionOrder: seq<string>,
    mode: string,
    startedAt: string,
    completedAt: Option<string>,
    score: Option<real>)

  /** `completedAt: z.string().datetime().optional()` */
  predicate ValidCompletedAt(completedAt: Option<string>, isDateTime: DateTimeCheck) {
    completedAt.Some? ==> isDateTime(completedAt.value)
  }

  /** `score: z.number().int().nonnegative().optional()` */
  predicate ValidScore(score: Option<real>) {
    score.Some? ==> IsNonNegativeInt(score.value)
  }

  predicate ValidAttempt(a: Attempt, isDateTime: DateTimeCheck) {
    && ParseStatus(a.status).Some?
    && (forall i :: 0 <= i < |a.answers| ==> ValidAnswer(a.answers[i], isDateTime))
    && ParseMode(a.mode).Some?
    && isDateTime(a.startedAt)
    && ValidCompletedAt(a.completedAt, isDateTime)
    && ValidScore(a.score)
  }

  /**
   * The schema ties neither `score` nor `completedAt` to `status`: a valid attempt stays
   * valid under either status, with or without a score and a completion time.
   */
  lemma StatusIndependentOfScore(a: Attempt, isDateTime: DateTimeCheck, s: AttemptStatus)
    requires ValidAttempt(a, isDateTime)
    ensures ValidAttempt(a.(status := StatusName(s)), isDateTime)
    ensures ValidAttempt(a.(completedAt := None, score := None), isDateTime)
  {
    StatusRoundTrip(s, StatusName(s));
  }

  /** An `active` attempt that already carries a score and a completion time is accepted. */
  lemma ActiveAttemptWithScore(isDateTime: DateTimeCheck, stamp: string, score: nat)
    requires isDateTime(stamp)
    ensures ValidAttempt(Attempt("a1", "quiz-1", "ada", "active", [], [], "normal", stamp, Some(stamp), Some(score as real)), isDateTime)
  {
  }

  /** Any status name other than the two is rejected, whatever the other fields. */
  lemma UnknownStatusRejected(a: Attempt, isDateTime: DateTimeCheck)
    requires a.status != "active" && a.status != "completed"
    ensures !ValidAttempt(a, isDateTime)
  {
  }

  /* ---------------------------------------------------------------------------
   * Active attempts
   * ------------------------------------------------------------------------- */

  /** `ActiveAttemptsMapSchema`: a record from quiz id to attempt. */
  type ActiveAttemptsMap = map<string, Attempt>

  predicate ValidActiveAttemptsMap(m: ActiveAttemptsMap, isDateTime: DateTimeCheck) {
    forall quizId :: quizId in m ==> ValidAttempt(m[quizId], isDateTime)
  }

  /** Every attempt is filed under its own quiz id, as the map's documentation intends. */
  predicate KeyedByQuizId(m: ActiveAttemptsMap) {
    forall quizId :: quizId in m ==> m[quizId].quizId == quizId
  }

  /**
   * A map filed by quiz id holds at most one attempt per quiz: two keys whose attempts
   * name the same quiz are the same key.
   */
  lemma OneAttemptPerQuiz(m: ActiveAttemptsMap, k1: string, k2: string)
    requires KeyedByQuizId(m)
    requires k1 in m && k2 in m && m[k1].quizId == m[k2].quizId
    ensures k1 == k2
  {
  }

  /**
   * The schema checks only the attempts: an attempt may be filed under another quiz's id,
   * and a completed attempt may sit in the map of active attempts.
   */
  lemma MapSchemaChecksOnlyValues(m: ActiveAttemptsMap, key: string, a: Attempt, isDateTime: DateTimeCheck)
    requires ValidActiveAttemptsMap(m, isDateTime) && ValidAttempt(a, isDateTime)
    ensures ValidActiveAttemptsMap(m[key := a], isDateTime)
    ensures ValidActiveAttemptsMap(m[key := a.(status := "completed")], isDateTime)
  {
    StatusIndependentOfScore(a, isDateTime, Completed);
  }
}
