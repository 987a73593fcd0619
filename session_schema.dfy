/**
 * `SessionSchema` of `shared/src/schemas/session.ts`: a logged-in user is a non-empty
 * username and a login datetime.
 *
 * Parsing is modelled as Zod performs it on an object whose fields may be missing: every
 * field is checked and every failing field contributes one issue, with the message the
 * schema or Zod gives it. Values of a type other than string are not modelled.
 */
module SessionSchema {
  import opened Wrappers
  import opened Primitives

  /** A parsed session. */
  datatype Session = Session(username: string, loginTime: string)

  /** The object handed to the schema: either field may be absent. */
  datatype SessionInput = SessionInput(username: Option<string>, loginTime: Option<string>)

  /** One reported problem: the field it concerns and its message. */
  datatype Issue = Issue(path: string, message: string)

  const RequiredMessage: string := "Required"
  const UsernameMessage: string := "Username is required"
  const DateTimeMessage: string := "Invalid datetime"

  /** `username: z.string().min(1, 'Username is required')` and `loginTime: z.string().datetime()` */
  predicate ValidSession(s: Session, isDateTime: DateTimeCheck) {
    |s.username| >= 1 && isDateTime(s.loginTime)
  }

  function UsernameIssues(username: Option<string>): (issues: seq<Issue>)
    ensures |issues| <= 1
  {
    match username
    case None => [Issue("username", RequiredMessage)]
    case Some(u) => if |u| < 1 then [Issue("username", UsernameMessage)] else []
  }

  function LoginTimeIssues(loginTime: Option<string>, isDateTime: DateTimeCheck): (issues: seq<Issue>)
    ensures |issues| <= 1
  {
    match loginTime
    case None => [Issue("loginTime", RequiredMessage)]
    case Some(t) => if !isDateTime(t) then [Issue("loginTime", DateTimeMessage)] else []
  }

  /** `SessionSchema.safeParse(input)`: the session, or every issue found. */
  function ParseSession(input: SessionInput, isDateTime: DateTimeCheck): (r: Result<Session, seq<Issue>>)
    ensures r.Failure? ==> 1 <= |r.error| <= 2
  {
    var issues := UsernameIssues(input.username) + LoginTimeIssues(input.loginTime, isDateTime);
    if issues == [] then Success(Session(input.username.value, input.loginTime.value))
    else Failure(issues)
  }

  /** What a session looks like before parsing: both fields present. */
  function AsInput(s: Session): SessionInput {
    SessionInput(Some(s.username), Some(s.loginTime))
  }

  /* ---------------------------------------------------------------------------
   * Properties
   * ------------------------------------------------------------------------- */

  /**
   * Parsing succeeds exactly when both fields are present and form a valid session, and
   * then returns those fields unchanged.
   */
  lemma ParseAcceptsExactlyValid(input: SessionInput, isDateTime: DateTimeCheck)
    ensures ParseSession(input, isDateTime).Success?
        <==> input.username.Some? && input.loginTime.Some?
             && ValidSession(Session(input.username.value, input.loginTime.value), isDateTime)
    ensures ParseSession(input, isDateTime).Success?
        ==> ParseSession(input, isDateTime).value == Session(input.username.value, input.loginTime.value)
  {
  }

  /** A valid session survives the round trip through its input form. */
  lemma ParseRoundTrip(s: Session, isDateTime: DateTimeCheck)
    ensures ValidSession(s, isDateTime) ==> ParseSession(AsInput(s), isDateTime) == Success(s)
    ensures !ValidSession(s, isDateTime) ==> ParseSession(AsInput(s), isDateTime).Failure?
  {
  }

  /** An empty username is reported with the schema's own message. */
  lemma EmptyUsernameMessage(loginTime: Option<string>, isDateTime: DateTimeCheck)
    ensures ParseSession(SessionInput(Some(""), loginTime), isDateTime).Failure?
    ensures ParseSession(SessionInput(Some(""), loginTime), isDateTime).error[0] == Issue("username", UsernameMessage)
  {
  }

  /** Each missing field is reported as required, and both are reported when both are missing. */
  lemma MissingFieldsRequired(isDateTime: DateTimeCheck)
    ensures ParseSession(SessionInput(None, None), isDateTime)
         == Failure([Issue("username", RequiredMessage), Issue("loginTime", RequiredMessage)])
  {
    assert [Issue("username", RequiredMessage)] + [Issue("loginTime", RequiredMessage)]
        == [Issue("username", RequiredMessage), Issue("loginTime", RequiredMessage)];
  }

  /** Whether some issue concerns the field `path`. */
  predicate Reports(issues: seq<Issue>, path: string) {
    exists k :: 0 <= k < |issues| && issues[k].path == path
  }

  /** A failure reports a field exactly when that field is missing or fails its check. */
  lemma IssuesNameFailingFields(input: SessionInput, isDateTime: DateTimeCheck)
    requires ParseSession(input, isDateTime).Failure?
    ensures Reports(ParseSession(input, isDateTime).error, "username")
        <==> input.username.None? || input.username == Some("")
    ensures Reports(ParseSession(input, isDateTime).error, "loginTime")
        <==> input.loginTime.None? || !isDateTime(input.loginTime.value)
  {
    var issues := ParseSession(input, isDateTime).error;
    var u, t := UsernameIssues(input.username), LoginTimeIssues(input.loginTime, isDateTime);
    assert issues == u + t;
    if input.username.None? || input.username == Some("") {
      assert issues[0].path == "username";
    }
    if input.loginTime.None? || !isDateTime(input.loginTime.value) {
      assert issues[|u|].path == "loginTime";
    }
  }
}
