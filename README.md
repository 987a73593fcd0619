# quiz-experience: shuffle, score and schemas in Dafny

This project models the logic in the `shared` package of the quiz-experience application:

- the seeded question shuffle: a mulberry32 generator driving a descending Fisher–Yates shuffle over a copy of the question ids;
- the score calculator, which turns a list of answers into a score breakdown;
- the Zod schemas for quizzes, attempts, leaderboards and sessions;
- the pure parts of the backend quiz service:
  - the `.json` file filter;
  - the projection of quizzes to summaries;
  - how a failed or successful file load becomes the result of `getQuizById` and `getAllQuizzes`.

Modules, one per source file:

| module | source |
|---|---|
| `Shuffle` (`shuffle.dfy`) | `shared/src/utils/shuffle.ts` |
| `Score` (`score.dfy`) | `shared/src/utils/score.ts` |
| `AttemptSchema` (`attempt_schema.dfy`) | `shared/src/schemas/attempt.ts` |
| `QuizSchema` (`quiz_schema.dfy`) | `shared/src/schemas/quiz.ts` |
| `LeaderboardSchema` (`leaderboard_schema.dfy`) | `shared/src/schemas/leaderboard.ts` |
| `SessionSchema` (`session_schema.dfy`) | `shared/src/schemas/session.ts` |
| `QuizService` (`quiz_service.dfy`) | `backend/src/services/quiz.service.ts` |
| `Primitives` (`primitives.dfy`) | the number refinements and the datetime check the schemas share |
| `Wrappers` (`wrappers.dfy`) | `Option` and `Result` |

The shuffle is imperative, as in the source:

- The generator closure is the class `Mulberry32`. Its one field is the captured `seed`, as a `bv32`.
- `ShuffleQuestionOrder` copies the ids into a fresh array and swaps in place from the last index down to 1.
- Both are proved against the sequence function `Shuffled`, whose properties are lemmas: permutation, the short-input case, seed normalisation, and the concrete orders for the test seeds.

The generator's JavaScript arithmetic is exactly 32-bit wrapping arithmetic: `Math.imul`, `^`, `|`, `>>>`, and an addition whose result every later operator passes through ToInt32. So `bv32` models it without loss. `random()` is a 32-bit numerator `u` over 2^32. `Draw` computes `Math.floor(random() * (i + 1))` on integers, and `DrawIsFloor` proves that it equals the floor of the exact real product.

The score calculator and the schemas are pure functions and predicates. JSON numbers are exact reals, and `z.number().int()` means that the real is whole. The datetime format check of `z.string().datetime()` is a parameter of every predicate that uses it, so each property holds for any such check.

Some behaviours one might expect of the application are not what its code does, and the model follows the code:

- A string seed is not the sum of its code points. `shared/src/utils/shuffle.ts:18` sums `charCodeAt(0)` over `Array.from(seed)`, which gives the high surrogate for a character beyond U+FFFF. `CharCode` models that.
- The doc comment at `shared/src/schemas/attempt.ts:30-38` describes active and completed attempts, but the schema at lines 39-50 does not tie `completedAt` or `score` to `status`. `AttemptSchema.StatusIndependentOfScore` and `AttemptSchema.ActiveAttemptWithScore` state this.
- `pointsPerQuestion` at `shared/src/utils/score.ts:11` accepts any number. With answers and zero points the percentage is 0/0, which is NaN. `Score.PercentageIsNaN` states when this happens.
- The rules in that doc comment (one active attempt per quiz and user, immutable completed attempts) and any leaderboard ranking are not implemented by any code; only the record shapes exist, and those are what is modelled.

## Model

| member | source | states |
|---|---|---|
| Shuffle.Advance | shared/src/utils/shuffle.ts:6 | defines one `seed += 0x6d2b79f5`, wrapping modulo 2^32 as every later bitwise use of `seed` does |
| Shuffle.Temper | shared/src/utils/shuffle.ts:7-10 | defines the mixing of an advanced state: `Math.imul`, `^`, `|` and `>>>` on 32-bit words |
| Shuffle.AdvancedBy | shared/src/utils/shuffle.ts:6 | defines the generator state after `n` calls of the closure |
| Shuffle.Output | shared/src/utils/shuffle.ts:10 | the tempered state read as an unsigned 32-bit integer is below 2^32 |
| Shuffle.Fraction | shared/src/utils/shuffle.ts:10 | `u / 2^32` for a 32-bit numerator lies in [0, 1) |
| Shuffle.Mulberry32.constructor | shared/src/utils/shuffle.ts:3-4 | the closure starts with the seed it is given |
| Shuffle.Mulberry32.Random | shared/src/utils/shuffle.ts:5-11 | one call adds 0x6d2b79f5 to the state with wrap-around, returns the tempered numerator of the new state, and its value `u / 2^32` lies in [0, 1) |
| Shuffle.Draw | shared/src/utils/shuffle.ts:22 | the drawn index is at most `i`, so every swap is in bounds |
| Shuffle.DrawIsFloor | shared/src/utils/shuffle.ts:22 | flooring `random() * (i + 1)` as an exact real gives exactly the integer draw `u * (i + 1) div 2^32` |
| Shuffle.CharCode | shared/src/utils/shuffle.ts:18 | `charCodeAt(0)` of a character is below 0x10000, and is the code point itself for characters below U+10000 |
| Shuffle.CodeSum | shared/src/utils/shuffle.ts:18 | defines the `reduce` that adds up `charCodeAt(0)` over `Array.from(seed)`, from the left, starting at 0 |
| Shuffle.SeedNumber | shared/src/utils/shuffle.ts:18-19 | defines the seed the generator starts from: a number seed as given, a string seed as its code sum, both reduced modulo 2^32 |
| Shuffle.CodeSumOfPermutation | shared/src/utils/shuffle.ts:18 | two strings with the same characters, in any order, have the same code sum |
| Shuffle.Swap | shared/src/utils/shuffle.ts:28-29 | exchanging two positions keeps the length |
| Shuffle.SwapPermutes | shared/src/utils/shuffle.ts:23-29 | a swap puts each of the two elements at the other's position and keeps the multiset |
| Shuffle.Numerators | shared/src/utils/shuffle.ts:5-11 | the next `n` generator outputs from a state: `n` numerators, each below 2^32 |
| Shuffle.SwapDown | shared/src/utils/shuffle.ts:21-30 | defines the loop from index `i` down to 1 on a sequence: each step draws `j` from the next numerator and swaps positions `i` and `j` |
| Shuffle.Shuffled | shared/src/utils/shuffle.ts:14-33 | defines what `shuffleQuestionOrder` returns: the ids themselves for zero or one id, otherwise `SwapDown` from the last index over the numerators of the normalised seed |
| Shuffle.SwapDownPermutes | shared/src/utils/shuffle.ts:21-30 | the loop from index `i` down to 1 keeps the length and the multiset |
| Shuffle.SwapDownStep | shared/src/utils/shuffle.ts:21-30 | one iteration (advance, draw, swap) leaves the remaining iterations with the same final result |
| Shuffle.ShuffledIsPermutation | shared/src/utils/shuffle.ts:15-30 | the result has the length and the multiset of the input ids |
| Shuffle.ShortInputUnchanged | shared/src/utils/shuffle.ts:15-16 | zero or one id comes back unchanged whatever the seed |
| Shuffle.AnagramSeedsAgree | shared/src/utils/shuffle.ts:18 | string seeds that are rearrangements of each other give the same order |
| Shuffle.StringSeedIsItsCodeSum | shared/src/utils/shuffle.ts:18 | a string seed gives the same order as the number seed equal to its code sum |
| Shuffle.CopyOf | shared/src/utils/shuffle.ts:15 | `[...ids]` is a fresh array with the same elements |
| Shuffle.Exchange | shared/src/utils/shuffle.ts:23-29 | the array after the exchange is the swapped sequence of the array before |
| Shuffle.ShuffleQuestionOrder | shared/src/utils/shuffle.ts:14-33 | returns a fresh array holding `Shuffled(ids, seed)` and leaves the input array unchanged |
| Shuffle.SwapFromEnd | shared/src/utils/shuffle.ts:21-30 | the in-place loop from the last index down to 1 leaves the array equal to `SwapDown` of its old contents over the generator's next numerators, and the generator advanced once per index from the last down to 1 |
| Shuffle.ShuffleTwice | shared/src/utils/shuffle.test.ts:8-12 | two calls with the same ids and seed return equal orders, each a permutation of the ids |
| Shuffle.SeedOneSum | shared/src/utils/shuffle.test.ts:9 | the code sum of 'seed-1' is 511 |
| Shuffle.SeedASum | shared/src/utils/shuffle.test.ts:17 | the code sum of 'seed-A' is 527 |
| Shuffle.SeedBSum | shared/src/utils/shuffle.test.ts:18 | the code sum of 'seed-B' is 528 |
| Shuffle.StateOneDraws | shared/src/utils/shuffle.ts:3-12 | the generator started at 511 yields numerators whose draws for indices 4, 3, 2, 1 are 2, 1, 1, 0 |
| Shuffle.StateADraws | shared/src/utils/shuffle.ts:3-12 | the generator started at 527 yields numerators whose draws for indices 4, 3, 2, 1 are 3, 1, 1, 1 |
| Shuffle.StateBDraws | shared/src/utils/shuffle.ts:3-12 | the generator started at 528 yields numerators whose draws for indices 4, 3, 2, 1 are 2, 0, 2, 0 |
| Shuffle.StateOneVector | shared/src/utils/shuffle.ts:21-30 | from generator state 511, five ids come out in the order 5, 1, 4, 2, 3 |
| Shuffle.StateAVector | shared/src/utils/shuffle.ts:21-30 | from generator state 527, five ids come out in the order 1, 3, 5, 2, 4 |
| Shuffle.StateBVector | shared/src/utils/shuffle.ts:21-30 | from generator state 528, five ids come out in the order 2, 4, 5, 1, 3 |
| Shuffle.SumOneVector | shared/src/utils/shuffle.ts:14-33 | any string seed summing to 511 orders five ids as 5, 1, 4, 2, 3 |
| Shuffle.SumAVector | shared/src/utils/shuffle.ts:14-33 | any string seed summing to 527 orders five ids as 1, 3, 5, 2, 4 |
| Shuffle.SumBVector | shared/src/utils/shuffle.ts:14-33 | any string seed summing to 528 orders five ids as 2, 4, 5, 1, 3 |
| Shuffle.SeedOneVector | shared/src/utils/shuffle.test.ts:8-14 | 'seed-1' orders five ids as 5, 1, 4, 2, 3, which differs from the input when the first and last ids differ |
| Shuffle.SeedAAndSeedBDiffer | shared/src/utils/shuffle.test.ts:16-21 | 'seed-A' and 'seed-B' give different orders of five ids whose first two differ |
| Score.CorrectOnes | shared/src/utils/score.ts:13 | the filter returns no more answers than it gets, all of them correct |
| Score.CorrectOnesIsFilter | shared/src/utils/score.ts:13 | an answer is kept exactly when it occurs and is correct, and each correct answer as often as it occurs |
| Score.CorrectOnesAppend | shared/src/utils/score.ts:13 | the filter distributes over concatenation |
| Score.CalculateScore | shared/src/utils/score.ts:11-25 | `totalQuestions` is the number of answers and `correctAnswers` never exceeds it |
| Score.ScoreIsWeightedCount | shared/src/utils/score.ts:13-15 | `correctAnswers` counts the correct answers; score and maximum are the two counts times the points, and score <= maximum for non-negative points |
| Score.EmptyAnswers | shared/src/utils/score.ts:16 | no answers give all five fields 0, whatever the points |
| Score.PercentageIsShareOfCorrect | shared/src/utils/score.ts:16 | with answers and non-zero points the percentage is correct/total * 100, whatever the points, and lies in [0, 100] |
| Score.PercentageIsNaN | shared/src/utils/score.ts:16 | the percentage is NaN exactly when there are answers and the points are 0 |
| Score.AppendAnswer | shared/src/utils/score.ts:12-15 | one more answer adds 1 to the total, 1 to the correct count exactly when it is correct, and the points to the maximum |
| Score.ScoreFitsAttempt | shared/src/schemas/attempt.ts:49 | a score computed with natural points is a non-negative integer and may be stored on any valid attempt |
| Score.WholeScores | shared/src/utils/score.ts:14-15 | with natural points, score and maximum are whole numbers, and the maximum is positive when there are answers and the points are positive |
| Score.SampleAnswers | shared/src/utils/score.test.ts:6-12 | the test's sample answers: `total` answers of which exactly the first `correctCount` are correct |
| Score.DefaultPointsVector | shared/src/utils/score.test.ts:25-35 | 3 correct of 5 with the default point give {5, 3, 3, 5, 60} |
| Score.CustomPointsVector | shared/src/utils/score.test.ts:37-47 | 4 correct of 8 with 2 points each give {8, 4, 8, 16, 50} |
| AttemptSchema.ValidAnswer | shared/src/schemas/attempt.ts:7-12 | defines `AnswerSchema`: `answeredAt` passes the datetime check, the other fields only have their types |
| AttemptSchema.ParseStatus | shared/src/schemas/attempt.ts:19 | a status that parses is named by the accepted string |
| AttemptSchema.StatusRoundTrip | shared/src/schemas/attempt.ts:19 | the status enum accepts exactly 'active' and 'completed', and parsing a status's name gives it back |
| AttemptSchema.ParseMode | shared/src/schemas/attempt.ts:26 | a mode that parses is named by the accepted string |
| AttemptSchema.ModeRoundTrip | shared/src/schemas/attempt.ts:26 | the mode enum accepts exactly 'normal' and 'learn', and parsing a mode's name gives it back |
| AttemptSchema.ValidAttempt | shared/src/schemas/attempt.ts:39-50 | defines `AttemptSchema`: a status and a mode from their enums, valid answers, datetime `startedAt` and optional `completedAt`, an optional non-negative whole `score` |
| AttemptSchema.StatusIndependentOfScore | shared/src/schemas/attempt.ts:39-50 | a valid attempt stays valid under either status, and with `completedAt` and `score` both absent |
| AttemptSchema.ActiveAttemptWithScore | shared/src/schemas/attempt.ts:39-50 | an active attempt carrying a score and a completion time is accepted |
| AttemptSchema.UnknownStatusRejected | shared/src/schemas/attempt.ts:43 | any status other than the two names is rejected |
| AttemptSchema.ValidActiveAttemptsMap | shared/src/schemas/attempt.ts:58 | defines `ActiveAttemptsMapSchema`: every value of the map is a valid attempt |
| AttemptSchema.OneAttemptPerQuiz | shared/src/schemas/attempt.ts:54-58 | a map filed by quiz id holds at most one attempt per quiz |
| AttemptSchema.MapSchemaChecksOnlyValues | shared/src/schemas/attempt.ts:58 | the map schema checks only values: any key and a completed attempt are accepted |
| QuizSchema.ValidQuestion | shared/src/schemas/quiz.ts:16-23 | defines `QuestionSchema`: at least two options |
| QuizSchema.ValidMetadata | shared/src/schemas/quiz.ts:30-34 | defines `QuizMetadataSchema`: a difficulty from the enum and a positive whole `estimatedMinutes` |
| QuizSchema.ValidQuiz | shared/src/schemas/quiz.ts:41-49 | defines `QuizSchema`: at least one question, every question valid, valid metadata, datetime `createdAt` and `updatedAt` |
| QuizSchema.ValidQuizSummary | shared/src/schemas/quiz.ts:56-62 | defines `QuizSummarySchema`: valid metadata and a non-negative whole `questionCount` |
| QuizSchema.ParseDifficulty | shared/src/schemas/quiz.ts:31 | a difficulty that parses is named by the accepted string |
| QuizSchema.DifficultyRoundTrip | shared/src/schemas/quiz.ts:31 | the difficulty enum accepts exactly 'beginner', 'intermediate' and 'advanced' |
| QuizSchema.EstimatedMinutesPositiveInt | shared/src/schemas/quiz.ts:32 | metadata is valid exactly when `estimatedMinutes` is a whole number of at least 1 |
| QuizSchema.ExplanationsOptional | shared/src/schemas/quiz.ts:21-22 | dropping both explanations keeps a question valid |
| QuizSchema.CorrectOptionUnchecked | shared/src/schemas/quiz.ts:16-23 | a correct option id naming no option, and repeated option ids, are accepted |
| QuizSchema.DuplicateQuestionsAccepted | shared/src/schemas/quiz.ts:41-49 | repeating a question of a valid quiz keeps it valid |
| QuizSchema.TooSmallRejected | shared/src/schemas/quiz.ts:41-49 | a quiz without questions, or with a question of fewer than two options, is rejected |
| LeaderboardSchema.ValidLeaderboardEntry | shared/src/schemas/leaderboard.ts:7-13 | defines `LeaderboardEntrySchema`: non-negative whole totals, a non-negative average, a positive whole rank |
| LeaderboardSchema.ValidLeaderboard | shared/src/schemas/leaderboard.ts:20-23 | defines `LeaderboardSchema`: every entry valid and a datetime `generatedAt` |
| LeaderboardSchema.ValidQuizLeaderboardEntry | shared/src/schemas/leaderboard.ts:30-37 | defines `QuizLeaderboardEntrySchema`: a non-negative whole score, a positive whole maximum, a non-negative percentage, a datetime `completedAt`, a positive whole rank |
| LeaderboardSchema.ValidQuizLeaderboard | shared/src/schemas/leaderboard.ts:44-49 | defines `QuizLeaderboardSchema`: every entry valid and a datetime `generatedAt` |
| LeaderboardSchema.EntriesUnordered | shared/src/schemas/leaderboard.ts:20-23 | any list of entries drawn from a valid leaderboard, in any order and with repeats, is valid |
| LeaderboardSchema.QuizEntriesUnordered | shared/src/schemas/leaderboard.ts:44-49 | the same for the per-quiz leaderboard |
| LeaderboardSchema.OnlyCountsAreWhole | shared/src/schemas/leaderboard.ts:7-37 | a fractional average or percentage is accepted; a fractional total, score or rank and a zero rank are rejected |
| LeaderboardSchema.BreakdownFitsQuizEntry | shared/src/schemas/leaderboard.ts:30-37 | a breakdown of at least one answer with positive natural points has a finite percentage and forms a valid per-quiz entry |
| LeaderboardSchema.EmptyBreakdownNeverFits | shared/src/schemas/leaderboard.ts:33 | the breakdown of no answers has maximum 0 and never forms a valid per-quiz entry |
| SessionSchema.ValidSession | shared/src/schemas/session.ts:7-10 | defines `SessionSchema`: a non-empty username and a datetime `loginTime` |
| SessionSchema.UsernameIssues | shared/src/schemas/session.ts:8 | defines the issue for the username field: "Required" when missing, "Username is required" when empty, none otherwise |
| SessionSchema.LoginTimeIssues | shared/src/schemas/session.ts:9 | defines the issue for the login time field: "Required" when missing, "Invalid datetime" when the check fails, none otherwise |
| SessionSchema.ParseSession | shared/src/schemas/session.ts:7-10 | a failed parse reports one or two issues |
| SessionSchema.ParseAcceptsExactlyValid | shared/src/schemas/session.ts:7-10 | parsing succeeds exactly when both fields are present and valid, and returns them unchanged |
| SessionSchema.ParseRoundTrip | shared/src/schemas/session.ts:7-10 | a valid session parses back to itself and an invalid one fails |
| SessionSchema.EmptyUsernameMessage | shared/src/schemas/session.ts:8 | an empty username is reported as 'Username is required' |
| SessionSchema.MissingFieldsRequired | shared/src/schemas/session.ts:7-10 | missing fields are each reported as 'Required' |
| SessionSchema.IssuesNameFailingFields | shared/src/schemas/session.ts:8-9 | a failure reports a field exactly when it is missing or fails its check |
| QuizService.EndsWith | backend/src/services/quiz.service.ts:16 | defines `String.prototype.endsWith`: the suffix is the last characters of the string |
| QuizService.JsonFiles | backend/src/services/quiz.service.ts:16 | the filter keeps no more names than it gets, all ending in `.json` |
| QuizService.JsonFilesSelects | backend/src/services/quiz.service.ts:16 | a name is selected exactly when it is listed and ends in `.json` |
| QuizService.JsonFilesAppend | backend/src/services/quiz.service.ts:16 | the filter keeps the listing's order: it distributes over concatenation |
| QuizService.JsonFilesKeepsQuizFiles | backend/src/services/quiz.service.ts:16 | a listing of `.json` names only is kept whole |
| QuizService.QuizFileName | backend/src/services/quiz.service.ts:52 | the file read by id is the id followed by `.json` |
| QuizService.QuizFileIsListed | backend/src/services/quiz.service.ts:52 | the file read by id is one the listing filter selects |
| QuizService.Summarize | backend/src/services/quiz.service.ts:38-44 | defines one summary: id, title, description and metadata copied, `questionCount` the number of questions |
| QuizService.QuizSummaries | backend/src/services/quiz.service.ts:38-44 | one summary per quiz |
| QuizService.SummariesCopyFields | backend/src/services/quiz.service.ts:38-44 | the k-th summary copies id, title, description and metadata of the k-th quiz and counts its questions |
| QuizService.SummaryOfValidQuiz | backend/src/services/quiz.service.ts:38-44 | the summary of a valid quiz is valid and counts at least one question |
| QuizService.LoadQuiz | backend/src/services/quiz.service.ts:53-55 | a quiz that loads satisfies the quiz schema |
| QuizService.GetQuizById | backend/src/services/quiz.service.ts:50-62 | defines `getQuizById`: the outcome of loading `${quizId}.json` mapped to the quiz, to null for a missing file, or to the rethrown error |
| QuizService.GetQuizByIdOutcomes | backend/src/services/quiz.service.ts:50-62 | null exactly for a missing file, every other failure rethrown, otherwise the valid decoded quiz unchanged |
| QuizService.LoadAll | backend/src/services/quiz.service.ts:18-24 | when all loads succeed there is one quiz per file |
| QuizService.LoadAllIsEachLoad | backend/src/services/quiz.service.ts:18-24 | the loads succeed together exactly when each does, and the k-th quiz is the one loaded from the k-th file |
| QuizService.GetAllQuizzes | backend/src/services/quiz.service.ts:13-31 | defines `getAllQuizzes`: the quizzes loaded from the listing's `.json` files, or the empty list when the listing or any load fails |
| QuizService.GetQuizSummaries | backend/src/services/quiz.service.ts:36-45 | defines `getQuizSummaries`: the summaries of what `getAllQuizzes` returns |
| QuizService.GetAllQuizzesOutcomes | backend/src/services/quiz.service.ts:13-31 | every quiz returned is valid; any listing or load failure gives the empty list; otherwise one quiz per `.json` file in listing order |
| QuizService.GetQuizSummariesValid | backend/src/services/quiz.service.ts:36-45 | one summary per quiz returned, each valid and counting at least one question |

## Left out

- Floating point: JavaScript numbers are exact reals. `percentage` is not rounded as IEEE doubles would round it, and a non-finite `pointsPerQuestion` (NaN or ±Infinity), which with at least one answer makes the percentage NaN as well, cannot be expressed. The generator's `seed += 0x6d2b79f5` is a double addition, which the model treats as exact. The draw `random() * (i + 1)` at `shared/src/utils/shuffle.ts:22` is a double product too, and `Draw` agrees with `Math.floor` of it only while u·(i+1) < 2^53, which holds for up to 2^21 ids. Beyond that, a product u·(i+1) = k·2^32 − 1 with k > 2^21 rounds up to k·2^32, so the source draws k where `Draw` gives k − 1.
- Shuffle.SeedNumber: a number seed n is an integer reduced modulo 2^32. This agrees with the source only while every value n + k·0x6d2b79f5 that the generator's state reaches during the shuffle (k up to the number of ids minus one) lies within ±2^53. Beyond that the double addition rounds and the order differs from the model's: for n = 2^53 − 1 the second call already rounds. A seed below 2^32 in magnitude, such as 42 or the code sum of any string shorter than 65,537 characters, stays exact for up to about 4.9 million ids. Fractional and non-finite number seeds are not modelled.
- Shuffle.ShuffleQuestionOrder: the ids are strings, so the `undefined` guard at `shared/src/utils/shuffle.ts:26` never fires in the model. An array with holes (such as `new Array<string>(3)`) or with `undefined` elements, where the guard skips the swap but still consumes a draw, is not modelled.
- SessionSchema.ParseSession: the messages "Required" and "Invalid datetime", and reporting the issues in field order, are Zod 3's defaults. They are not written in `shared/src/schemas/session.ts`, and another Zod major version may word or shape these issues differently.
- Shuffle.CharCode: a string is a sequence of Unicode scalar values, so lone surrogates in a string seed cannot be expressed.
- The format check behind `z.string().datetime()` is a parameter, not an ISO-8601 parser.
- Zod's treatment of values of the wrong JSON type, and its stripping of unknown keys, are not modelled: each record holds fields of the declared types. For the session, only missing fields and failed refinements are modelled.
- File-system calls, `JSON.parse` and `console.error` in the quiz service: reading and decoding one file is an abstract `LoadOutcome`, and reading the directory is an abstract `Listing`. The quiz directory path and path joining are not modelled, so neither is a quiz id containing path separators.
- QuizService.GetAllQuizzes: `Promise.all` is modelled as loading the files in order and failing if any load fails. Which error is logged when several fail is not modelled, since the result is the empty list either way.
- The attempt lifecycle (start, answer, complete, immutability of completed attempts), enforcing one active attempt per user and quiz, and leaderboard aggregation and ranking: no code implements them. Only their records are modelled.
- The HTTP application, routes, middleware and frontend pages: they only forward to the modelled functions or render.
