/**
 * The pure parts of `backend/src/services/quiz.service.ts`: which directory entries are
 * quiz files, the projection of quizzes to summaries, and how the outcome of reading,
 * decoding and validating a file becomes the result of `getQuizById` and
 * `getAllQuizzes`.
 *
 * The file system and `JSON.parse` are not modelled: reading a directory is a `Listing`
 * and loading one file is a `LoadOutcome`, both given as parameters.
 */
module QuizService {
  import opened Wrappers
  import opened Primitives
  import opened QuizSchema

  /* ---------------------------------------------------------------------------
   * Quiz files
   * ------------------------------------------------------------------------- */

  const JsonExtension: string := ".json"

  /** `s.endsWith(suffix)` */
  predicate EndsWith(s: string, suffix: string) {
    |suffix| <= |s| && s[|s| - |suffix|..] == suffix
  }

  /** `files.filter((f) => f.endsWith('.json'))` */
  function JsonFiles(files: seq<string>): (r: seq<string>)
    ensures |r| <= |files|
    ensures forall k :: 0 <= k < |r| ==> EndsWith(r[k], JsonExtension)
  {
    if files == [] then []
    else
      var rest := JsonFiles(files[1..]);
      if EndsWith(files[0], JsonExtension) then [files[0]] + rest else rest
  }

  /** A name is selected exactly when it is listed and ends in `.json`. */
  lemma {:induction false} JsonFilesSelects(files: seq<string>)
    ensures forall f :: f in JsonFiles(files) <==> f in files && EndsWith(f, JsonExtension)
  {
    if files != [] {
      JsonFilesSelects(files[1..]);
      assert files == [files[0]] + files[1..];
    }
  }

  /** The filter keeps the listing's order: it distributes over concatenation. */
  lemma {:induction false} JsonFilesAppend(files: seq<string>, more: seq<string>)
    ensures JsonFiles(files + more) == JsonFiles(files) + JsonFiles(more)
  {
    if files == [] {
      assert files + more == more;
    } else {
      assert (files + more)[1..] == files[1..] + more;
      JsonFilesAppend(files[1..], more);
    }
  }

  /** A listing of quiz files only is kept whole. */
  lemma {:induction false} JsonFilesKeepsQuizFiles(files: seq<string>)
    requires forall k :: 0 <= k < |files| ==> EndsWith(files[k], JsonExtension)
    ensures JsonFiles(files) == files
  {
    if files != [] {
      JsonFilesKeepsQuizFiles(files[1..]);
    }
  }

  /** `${quizId}.json`: the file `getQuizById` reads. */
  function QuizFileName(quizId: string): (name: string)
    ensures EndsWith(name, JsonExtension)
    ensures |name| == |quizId| + |JsonExtension| && name[..|quizId|] == quizId
  {
    quizId + JsonExtension
  }

  /** The file read by id is one that the listing of all quizzes selects. */
  lemma QuizFileIsListed(quizId: string, files: seq<string>)
    requires QuizFileName(quizId) in files
    ensures QuizFileName(quizId) in JsonFiles(files)
  {
    JsonFilesSelects(files);
  }

  /* ---------------------------------------------------------------------------
   * Summaries
   * ------------------------------------------------------------------------- */

  /** The summary of one quiz: its listing fields and its number of questions. */
  function Summarize(q: Quiz): QuizSummary {
    QuizSummary(q.id, q.title, q.description, q.metadata, |q.questions| as real)
  }

  /** `quizzes.map(({ id, title, description, metadata, questions }) => ...)` */
  function QuizSummaries(quizzes: seq<Quiz>): (r: seq<QuizSummary>)
    ensures |r| == |quizzes|
  {
    seq(|quizzes|, k requires 0 <= k < |quizzes| => Summarize(quizzes[k]))
  }

  /**
   * One summary per quiz, in the same order, copying `id`, `title`, `description` and
   * `metadata` and counting the questions.
   */
  lemma SummariesCopyFields(quizzes: seq<Quiz>, k: nat)
    requires k < |quizzes|
    ensures QuizSummaries(quizzes)[k].id == quizzes[k].id
    ensures QuizSummaries(quizzes)[k].title == quizzes[k].title
    ensures QuizSummaries(quizzes)[k].description == quizzes[k].description
    ensures QuizSummaries(quizzes)[k].metadata == quizzes[k].metadata
    ensures QuizSummaries(quizzes)[k].questionCount == |quizzes[k].questions| as real
  {
  }

  /** The summary of a valid quiz is a valid summary that counts at least one question. */
  lemma SummaryOfValidQuiz(q: Quiz, isDateTime: DateTimeCheck)
    requires ValidQuiz(q, isDateTime)
    ensures ValidQuizSummary(Summarize(q))
    ensures Summarize(q).questionCount >= 1.0
  {
    NaturalIsNonNegativeInt(|q.questions|);
  }

  /* ---------------------------------------------------------------------------
   * Loading one file
   * ------------------------------------------------------------------------- */

  /**
   * What reading and decoding one file gave: a read error with its error code, text that
   * is not JSON, JSON without the shape of a quiz, or a quiz-shaped value still to be
   * checked against the schema's refinements.
   */
  datatype LoadOutcome = ReadFailed(code: string) | NotJson | WrongShape | Decoded(candidate: Quiz)

  /** The error a load throws. */
  datatype LoadError = ReadError(code: string) | SyntaxError | ValidationError

  /** `readFile`, `JSON.parse` and `QuizSchema.parse` in sequence. */
  function LoadQuiz(outcome: LoadOutcome, isDateTime: DateTimeCheck): (r: Result<Quiz, LoadError>)
    ensures r.Success? ==> ValidQuiz(r.value, isDateTime)
  {
    match outcome
    case ReadFailed(code) => Failure(ReadError(code))
    case NotJson => Failure(SyntaxError)
    case WrongShape => Failure(ValidationError)
    case Decoded(candidate) =>
      if ValidQuiz(candidate, isDateTime) then Success(candidate) else Failure(ValidationError)
  }

  /** What `getQuizById` resolves to: a quiz, `null`, or a rethrown error. */
  datatype ByIdResult = Found(quiz: Quiz) | Null | Thrown(error: LoadError)

  const MissingFileCode: string := "ENOENT"

  /** `getQuizById(quizId)` over the outcome of loading `${quizId}.json`. */
  function GetQuizById(outcome: LoadOutcome, isDateTime: DateTimeCheck): ByIdResult {
    match LoadQuiz(outcome, isDateTime)
    case Success(q) => Found(q)
    case Failure(e) => if e == ReadError(MissingFileCode) then Null else Thrown(e)
  }

  /**
   * `null` exactly for a missing file; every other failure is rethrown; otherwise the
   * decoded quiz, which is valid, is returned unchanged.
   */
  lemma GetQuizByIdOutcomes(outcome: LoadOutcome, isDateTime: DateTimeCheck)
    ensures GetQuizById(outcome, isDateTime).Null? <==> outcome == ReadFailed(MissingFileCode)
    ensures GetQuizById(outcome, isDateTime).Found?
        <==> outcome.Decoded? && ValidQuiz(outcome.candidate, isDateTime)
    ensures GetQuizById(outcome, isDateTime).Found?
        ==> GetQuizById(outcome, isDateTime).quiz == outcome.candidate
    ensures GetQuizById(outcome, isDateTime).Thrown?
        <==> outcome != ReadFailed(MissingFileCode) && LoadQuiz(outcome, isDateTime).Failure?
    ensures outcome.ReadFailed? && outcome.code != MissingFileCode
        ==> GetQuizById(outcome, isDateTime) == Thrown(ReadError(outcome.code))
  {
  }

  /* ---------------------------------------------------------------------------
   * Loading every file
   * ------------------------------------------------------------------------- */

  /** What `readdir` gave: an error, or the names in the directory. */
  datatype Listing = ReadDirFailed(code: string) | Listed(files: seq<string>)

  /** `Promise.all` over the loads: every quiz in order, or nothing if any load throws. */
  function LoadAll(files: seq<string>, load: string -> LoadOutcome, isDateTime: DateTimeCheck): (r: Option<seq<Quiz>>)
    ensures r.Some? ==> |r.value| == |files|
  {
    if files == [] then Some([])
    else
      match LoadQuiz(load(files[0]), isDateTime)
      case Failure(_) => None
      case Success(q) =>
        match LoadAll(files[1..], load, isDateTime)
        case None => None
        case Some(qs) => Some([q] + qs)
  }

  /** Whether every file loads. */
  predicate AllLoad(files: seq<string>, load: string -> LoadOutcome, isDateTime: DateTimeCheck) {
    forall k :: 0 <= k < |files| ==> LoadQuiz(load(files[k]), isDateTime).Success?
  }

  /**
   * The loads succeed together exactly when each succeeds, and the k-th quiz is then the
   * one loaded from the k-th file.
   */
  lemma {:induction false} LoadAllIsEachLoad(files: seq<string>, load: string -> LoadOutcome, isDateTime: DateTimeCheck)
    ensures LoadAll(files, load, isDateTime).Some? <==> AllLoad(files, load, isDateTime)
    ensures LoadAll(files, load, isDateTime).Some? ==>
      forall k :: 0 <= k < |files| ==>
        LoadAll(files, load, isDateTime).value[k] == LoadQuiz(load(files[k]), isDateTime).value
  {
    if files != [] {
      var rest := files[1..];
      LoadAllIsEachLoad(rest, load, isDateTime);
      assert forall k :: 1 <= k < |files| ==> files[k] == rest[k - 1];
      if AllLoad(files, load, isDateTime) {
        assert AllLoad(rest, load, isDateTime);
      }
    }
  }

  /** `getAllQuizzes()`: any error while listing or loading yields the empty list. */
  function GetAllQuizzes(listing: Listing, load: string -> LoadOutcome, isDateTime: DateTimeCheck): seq<Quiz> {
    match listing
    case ReadDirFailed(_) => []
    case Listed(files) =>
      match LoadAll(JsonFiles(files), load, isDateTime)
      case None => []
      case Some(quizzes) => quizzes
  }

  /** `getQuizSummaries()` */
  function GetQuizSummaries(listing: Listing, load: string -> LoadOutcome, isDateTime: DateTimeCheck): seq<QuizSummary> {
    QuizSummaries(GetAllQuizzes(listing, load, isDateTime))
  }

  /**
   * Every quiz returned is valid; when every quiz file loads, one quiz per quiz file comes
   * back in listing order, and when any of them fails, none does.
   */
  lemma GetAllQuizzesOutcomes(listing: Listing, load: string -> LoadOutcome, isDateTime: DateTimeCheck)
    ensures forall k :: 0 <= k < |GetAllQuizzes(listing, load, isDateTime)| ==>
      ValidQuiz(GetAllQuizzes(listing, load, isDateTime)[k], isDateTime)
    ensures listing.ReadDirFailed? ==> GetAllQuizzes(listing, load, isDateTime) == []
    ensures listing.Listed? && !AllLoad(JsonFiles(listing.files), load, isDateTime)
        ==> GetAllQuizzes(listing, load, isDateTime) == []
    ensures listing.Listed? && AllLoad(JsonFiles(listing.files), load, isDateTime) ==>
      var json := JsonFiles(listing.files);
      |GetAllQuizzes(listing, load, isDateTime)| == |json|
      && forall k :: 0 <= k < |json| ==>
        GetAllQuizzes(listing, load, isDateTime)[k] == LoadQuiz(load(json[k]), isDateTime).value
  {
    if listing.Listed? {
      LoadAllIsEachLoad(JsonFiles(listing.files), load, isDateTime);
    }
  }

  /**
   * Every summary served is valid and counts at least one question, and there is one per
   * quiz returned.
   */
  lemma GetQuizSummariesValid(listing: Listing, load: string -> LoadOutcome, isDateTime: DateTimeCheck)
    ensures |GetQuizSummaries(listing, load, isDateTime)| == |GetAllQuizzes(listing, load, isDateTime)|
    ensures forall k :: 0 <= k < |GetQuizSummaries(listing, load, isDateTime)| ==>
      ValidQuizSummary(GetQuizSummaries(listing, load, isDateTime)[k])
      && GetQuizSummaries(listing, load, isDateTime)[k].questionCount >= 1.0
  {
    var quizzes := GetAllQuizzes(listing, load, isDateTime);
    GetAllQuizzesOutcomes(listing, load, isDateTime);
    forall k | 0 <= k < |quizzes|
      ensures ValidQuizSummary(QuizSummaries(quizzes)[k]) && QuizSummaries(quizzes)[k].questionCount >= 1.0
    {
      SummaryOfValidQuiz(quizzes[k], isDateTime);
    }
  }
}
