/**
 * The submission controller: one POST of the profile per attempt, with two
 * observable cells, `isSubmitting` and `submitError`. There is no success
 * flag: a successful attempt only leaves `submitError` empty.
 *
 * The POST's result is an input. `Start` is the part of an attempt before
 * the request is awaited, `Settle` the part after it (the `catch` and the
 * `finally`); `SubmitForm` is a whole attempt.
 */
module FormSubmission {
  import opened JsValues
  import opened FormSchema
  import opened Endpoints

  const SubmitFallback := "Failed to submit form"

  /** A value reaching the `catch` clause: an `Error` with its message, or any other value. */
  datatype Caught = ErrorObject(message: string) | OtherValue

  /**
   * How the POST ends: a 2xx response, a non-2xx response whose JSON body has
   * an optional `message`, or a thrown failure (of `fetch`, of parsing the
   * body of a non-2xx response, or of reading `message` from a `null` body,
   * whose `TypeError` reaches the `catch` as an `Error`).
   */
  datatype Response = Ok | NotOk(message: Option<string>) | Thrown(error: Caught)

  datatype SubmissionState = SubmissionState(
    isSubmitting: bool,
    submitError: Option<string>,
    requests: seq<HttpRequest>)

  function Initial(): SubmissionState {
    SubmissionState(false, None, [])
  }

  /**
   * What reaches the `catch` clause: nothing for a 2xx response; for a non-2xx
   * response the `Error` thrown with the body's message or the fallback; a
   * thrown failure as it is.
   */
  function CaughtFrom(r: Response): (c: Option<Caught>)
    ensures c.Some? <==> !r.Ok?
    ensures r.NotOk? ==> c.Some? && c.value.ErrorObject? && c.value.message != ""
  {
    match r
    case Ok => None
    case NotOk(message) => Some(ErrorObject(OrElse(message, SubmitFallback)))
    case Thrown(e) => Some(e)
  }

  /** `error instanceof Error ? error.message : "Failed to submit form"`. */
  function CatchMessage(e: Caught): (m: string)
    ensures m == "" ==> e == ErrorObject("")
    ensures e.ErrorObject? ==> m == e.message
    ensures e.OtherValue? ==> m == SubmitFallback
  {
    match e
    case ErrorObject(message) => message
    case OtherValue => SubmitFallback
  }

  /** Before the request is awaited: the flags are set and the one POST is sent. */
  function AfterStart(s: SubmissionState, d: FormData): (t: SubmissionState)
    ensures t.isSubmitting && t.submitError == None
    ensures t.requests == s.requests + [ProfilePost(d)]
  {
    s.(isSubmitting := true, submitError := None, requests := s.requests + [ProfilePost(d)])
  }

  /** After the request: the `catch` sets the error, the `finally` clears `isSubmitting`. */
  function AfterSettle(s: SubmissionState, r: Response): (t: SubmissionState)
    ensures !t.isSubmitting && t.requests == s.requests
    ensures r.Ok? ==> t.submitError == s.submitError
    ensures !r.Ok? ==> t.submitError.Some?
  {
    var caught := CaughtFrom(r);
    s.(submitError := if caught.Some? then Some(CatchMessage(caught.value)) else s.submitError,
       isSubmitting := false)
  }

  /** One whole call of `submitForm`. */
  function Attempt(s: SubmissionState, d: FormData, r: Response): (t: SubmissionState)
    ensures !t.isSubmitting && t.requests == s.requests + [ProfilePost(d)]
    ensures t.submitError.None? <==> r.Ok?
  {
    AfterSettle(AfterStart(s, d), r)
  }

  /** An attempt in progress has always cleared the previous attempt's error. */
  predicate SubmissionInvariant(s: SubmissionState) {
    s.isSubmitting ==> s.submitError.None?
  }

  lemma StartPreservesInvariant(s: SubmissionState, d: FormData)
    ensures SubmissionInvariant(AfterStart(s, d))
  {
  }

  lemma SettlePreservesInvariant(s: SubmissionState, r: Response)
    ensures SubmissionInvariant(AfterSettle(s, r))
  {
  }

  /** A 2xx response ends an attempt in progress with no error, since starting it cleared the error. */
  lemma SettleOkLeavesNoError(s: SubmissionState)
    requires SubmissionInvariant(s) && s.isSubmitting
    ensures AfterSettle(s, Ok) == s.(isSubmitting := false)
    ensures AfterSettle(s, Ok).submitError == None
  {
  }

  /** Starting an attempt raises `isSubmitting`, clears the error and sends one POST of the data. */
  lemma StartSendsOnePost(s: SubmissionState, d: FormData)
    ensures var t := AfterStart(s, d);
      t.isSubmitting && t.submitError == None
      && |t.requests| == |s.requests| + 1 && t.requests[..|s.requests|] == s.requests
      && ProfileOfBody(t.requests[|s.requests|].body) == Some(d)
      && t.requests[|s.requests|].url == ProfileDetailsUrl
  {
    var t := AfterStart(s, d);
    assert t.requests[..|s.requests|] == s.requests;
  }

  /**
   * After a whole attempt: `isSubmitting` is false; exactly one request was
   * added, the POST of the data; the error is empty exactly for a 2xx
   * response; a non-2xx response shows its body's message, or the fallback
   * when that is absent or empty; a thrown `Error` shows its own message and
   * any other thrown value the fallback.
   */
  lemma AttemptOutcome(s: SubmissionState, d: FormData, r: Response)
    ensures var t := Attempt(s, d, r);
      !t.isSubmitting
      && t.requests == s.requests + [ProfilePost(d)]
      && (t.submitError.None? <==> r.Ok?)
      && (r.NotOk? && Truthy(r.message) ==> t.submitError == r.message)
      && (r.NotOk? && !Truthy(r.message) ==> t.submitError == Some(SubmitFallback))
      && (r.Thrown? && r.error.ErrorObject? ==> t.submitError == Some(r.error.message))
      && (r == Thrown(OtherValue) ==> t.submitError == Some(SubmitFallback))
  {
  }

  /** A failed attempt's error never survives the next attempt that succeeds. */
  lemma SuccessClearsEarlierError(s: SubmissionState, d1: FormData, r1: Response, d2: FormData)
    ensures var t := Attempt(Attempt(s, d1, r1), d2, Ok);
      t.submitError == None && t.requests == s.requests + [ProfilePost(d1), ProfilePost(d2)]
  {
    assert s.requests + [ProfilePost(d1)] + [ProfilePost(d2)] == s.requests + [ProfilePost(d1), ProfilePost(d2)];
  }

  /**
   * The form's submission test: one POST to the profile endpoint, as JSON,
   * with the four fields in order; a 2xx response leaves no error.
   */
  lemma SubmitScenario()
    ensures var t := Attempt(Initial(), FormData("John", "Doe", "+13062776103", "123456789"), Ok);
      t.requests == [Post("https://fe-hometask-api.qa.vault.tryvault.com/profile-details",
                          "application/json",
                          [("firstName", "John"), ("lastName", "Doe"),
                           ("phone", "+13062776103"), ("corporationNumber", "123456789")])]
      && t.submitError == None && !t.isSubmitting
  {
    UrlExamples();
  }

  /** The hook as an object whose two cells its methods overwrite; `requests` records every POST. */
  class SubmissionController {
    var isSubmitting: bool
    var submitError: Option<string>
    var requests: seq<HttpRequest>

    function State(): SubmissionState
      reads this
    {
      SubmissionState(isSubmitting, submitError, requests)
    }

    predicate Valid()
      reads this
    {
      SubmissionInvariant(State())
    }

    constructor ()
      ensures State() == Initial() && Valid()
    {
      isSubmitting, submitError, requests := false, None, [];
    }

    /** The start of `submitForm`, up to the awaited POST. */
    method Start(d: FormData)
      modifies this
      ensures Valid()
      ensures State() == AfterStart(old(State()), d)
    {
      isSubmitting := true;
      submitError := None;
      requests := requests + [Post(ProfileDetailsUrl, JsonContentType, ProfileBody(d))];
    }

    /** The rest of `submitForm`, once the POST has ended with `r`. */
    method Settle(r: Response)
      modifies this
      ensures Valid()
      ensures State() == AfterSettle(old(State()), r)
    {
      var caught: Option<Caught> := None;
      match r {
        case Ok =>
        case NotOk(message) =>
          caught := Some(ErrorObject(OrElse(message, SubmitFallback)));
        case Thrown(e) =>
          caught := Some(e);
      }
      if caught.Some? {
        submitError := Some(if caught.value.ErrorObject? then caught.value.message else SubmitFallback);
      }
      isSubmitting := false;
    }

    /** `submitForm(d)` whose POST ends with `r`. */
    method SubmitForm(d: FormData, r: Response)
      modifies this
      ensures Valid()
      ensures State() == Attempt(old(State()), d, r)
    {
      Start(d);
      Settle(r);
    }
  }
}
