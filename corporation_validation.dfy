/**
 * The remote corporation-number check: a debounced lookup driven by the
 * field's value and its touched flag, with two observable cells,
 * `isValidating` and `validationError`.
 *
 * Time and the network are events here: the debounce timer firing and a
 * lookup's answer arriving are method calls, and the outcome of a lookup is
 * an input. The pure functions below give the new state for each event; the
 * class `CorporationValidator` performs the same updates step by step and is
 * proved to agree with them.
 */
module CorporationValidation {
  import opened JsValues
  import opened Endpoints

  const LookupLength: nat := 9
  const InvalidFallback := "Invalid Corporation Number"
  const LookupFailed := "Failed to validate corporation number"

  /**
   * How a lookup ends: a body `{ valid: true }`, a body whose `valid` is falsy
   * (with its optional `message`), or a thrown failure: of `fetch`, of
   * parsing the body, or of reading `valid` from a `null` body. The HTTP
   * status is never looked at: any parsed body other than `null` is one of
   * the first two.
   */
  datatype Outcome = Valid | Invalid(message: Option<string>) | Failure

  /**
   * The hook's state: the effect's dependencies as last rendered, the two
   * state cells, the number whose debounce timer is set (at most one),
   * the numbers whose lookups are awaiting an answer, and every request sent.
   */
  datatype ValidationState = ValidationState(
    number: string,
    touched: bool,
    isValidating: bool,
    validationError: Option<string>,
    pending: Option<string>,
    inFlight: seq<string>,
    requests: seq<HttpRequest>)

  /** The effect's gate: only a non-empty, nine-character, touched number is looked up. */
  predicate ShouldCheck(number: string, touched: bool) {
    !(number == "" || |number| != LookupLength || !touched)
  }

  /** The gate looks only at the length and the touched flag, never at the characters. */
  lemma ShouldCheckIff(number: string, touched: bool)
    ensures ShouldCheck(number, touched) <==> touched && |number| == LookupLength
  {
  }

  /** What the hook keeps true between events. */
  predicate ValidationInvariant(s: ValidationState) {
    (s.pending.Some? ==> s.pending.value == s.number && ShouldCheck(s.number, s.touched))
    && (s.isValidating ==> |s.inFlight| > 0)
    && (s.validationError.Some? ==> s.validationError.value != "")
    && (forall i :: 0 <= i < |s.inFlight| ==> |s.inFlight[i]| == LookupLength)
  }

  /** The effect body, run after the previous run's cleanup has cleared the timer. */
  function RunEffect(s: ValidationState): (r: ValidationState)
    requires s.pending.None?
    ensures r.pending.Some? <==> ShouldCheck(s.number, s.touched)
    ensures r.pending.Some? ==> r.pending.value == s.number && r.validationError == s.validationError
    ensures r.pending.None? ==> r.validationError == None
    ensures r.number == s.number && r.touched == s.touched && r.isValidating == s.isValidating
    ensures r.inFlight == s.inFlight && r.requests == s.requests
  {
    if !ShouldCheck(s.number, s.touched) then s.(validationError := None)
    else s.(pending := Some(s.number))
  }

  /** The first render: both cells at their initial values, then the effect runs. */
  function Mount(number: string, touched: bool): ValidationState {
    RunEffect(ValidationState(number, touched, false, None, None, [], []))
  }

  /**
   * A render with the given dependencies: unchanged dependencies do nothing;
   * otherwise the pending timer is cleared and the effect runs again.
   */
  function AfterInput(s: ValidationState, number: string, touched: bool): (r: ValidationState)
    ensures r.number == number && r.touched == touched
    ensures r.isValidating == s.isValidating && r.inFlight == s.inFlight && r.requests == s.requests
    ensures ValidationInvariant(s) ==> r.pending.None? || r.pending == Some(number)
  {
    if number == s.number && touched == s.touched then s
    else RunEffect(s.(number := number, touched := touched, pending := None))
  }

  /** The debounce timer fires: the lookup starts and its GET is sent. */
  function AfterTimer(s: ValidationState): (r: ValidationState)
    requires s.pending.Some?
    ensures r.isValidating && r.validationError == None && r.pending == None
    ensures |r.requests| == |s.requests| + 1 && r.requests[..|s.requests|] == s.requests
    ensures LookupNumber(r.requests[|s.requests|].url) == s.pending
    ensures r.number == s.number && r.touched == s.touched && r.inFlight == s.inFlight + [s.pending.value]
  {
    LookupUrlRoundTrip(s.pending.value);
    assert (s.requests + [Get(CorporationLookupUrl(s.pending.value))])[..|s.requests|] == s.requests;
    var n := s.pending.value;
    s.(isValidating := true, validationError := None, pending := None,
       inFlight := s.inFlight + [n], requests := s.requests + [Get(CorporationLookupUrl(n))])
  }

  /** The error cell after a lookup ends with `outcome`, given its value just before. */
  function ErrorAfter(outcome: Outcome, current: Option<string>): (e: Option<string>)
    ensures outcome.Valid? ==> e == current
    ensures !outcome.Valid? ==> e.Some? && e.value != ""
    ensures outcome.Invalid? && Truthy(outcome.message) ==> e == outcome.message
  {
    match outcome
    case Valid => current
    case Invalid(message) => Some(OrElse(message, InvalidFallback))
    case Failure => Some(LookupFailed)
  }

  /** The `i`-th awaited lookup ends with `outcome`. */
  function AfterResponse(s: ValidationState, i: nat, outcome: Outcome): (r: ValidationState)
    requires i < |s.inFlight|
    ensures !r.isValidating && |r.inFlight| == |s.inFlight| - 1
    ensures r.pending == s.pending && r.requests == s.requests
    ensures r.number == s.number && r.touched == s.touched
  {
    s.(validationError := ErrorAfter(outcome, s.validationError), isValidating := false,
       inFlight := s.inFlight[..i] + s.inFlight[i + 1..])
  }

  /** Unmounting runs the last cleanup: the pending timer is cleared. */
  function AfterUnmount(s: ValidationState): (r: ValidationState)
    ensures r.pending.None?
    ensures r.isValidating == s.isValidating && r.validationError == s.validationError
    ensures r.inFlight == s.inFlight && r.requests == s.requests
  {
    s.(pending := None)
  }

  lemma MountEstablishesInvariant(number: string, touched: bool)
    ensures ValidationInvariant(Mount(number, touched))
  {
  }

  lemma InputPreservesInvariant(s: ValidationState, number: string, touched: bool)
    requires ValidationInvariant(s)
    ensures ValidationInvariant(AfterInput(s, number, touched))
  {
  }

  lemma TimerPreservesInvariant(s: ValidationState)
    requires ValidationInvariant(s) && s.pending.Some?
    ensures ValidationInvariant(AfterTimer(s))
  {
  }

  lemma ResponsePreservesInvariant(s: ValidationState, i: nat, outcome: Outcome)
    requires ValidationInvariant(s) && i < |s.inFlight|
    ensures ValidationInvariant(AfterResponse(s, i, outcome))
  {
    var t := AfterResponse(s, i, outcome);
    forall j | 0 <= j < |t.inFlight|
      ensures |t.inFlight[j]| == LookupLength
    {
      if j < i {
        assert t.inFlight[j] == s.inFlight[j];
      } else {
        assert t.inFlight[j] == s.inFlight[j + 1];
      }
    }
  }

  /**
   * When the new input fails the gate, the error is cleared, no lookup is
   * pending or sent, and `isValidating` keeps its value.
   */
  lemma GateClosedClearsError(s: ValidationState, number: string, touched: bool)
    requires number != s.number || touched != s.touched
    requires !ShouldCheck(number, touched)
    ensures var t := AfterInput(s, number, touched);
      t.validationError == None && t.pending == None
      && t.isValidating == s.isValidating
      && t.requests == s.requests && t.inFlight == s.inFlight
  {
  }

  /**
   * When the new input passes the gate, the previous timer is replaced by one
   * for the new number; nothing is sent yet and both cells keep their values.
   */
  lemma GateOpenSchedules(s: ValidationState, number: string, touched: bool)
    requires number != s.number || touched != s.touched
    requires ShouldCheck(number, touched)
    ensures var t := AfterInput(s, number, touched);
      t.pending == Some(number)
      && t.validationError == s.validationError && t.isValidating == s.isValidating
      && t.requests == s.requests && t.inFlight == s.inFlight
  {
  }

  /** Nine characters that are not digits still schedule a lookup once touched. */
  lemma NonDigitNumberIsLookedUp(s: ValidationState)
    requires s.number != "abcdefghi" || !s.touched
    ensures AfterInput(s, "abcdefghi", true).pending == Some("abcdefghi")
  {
  }

  /**
   * When the timer fires, `isValidating` becomes true, the error is cleared
   * and exactly one GET is sent, for the current number, which has nine characters.
   */
  lemma CheckStarts(s: ValidationState)
    requires ValidationInvariant(s) && s.pending.Some?
    ensures var t := AfterTimer(s);
      t.isValidating && t.validationError == None && t.pending == None
      && t.requests == s.requests + [Get(CorporationLookupUrl(s.number))]
      && t.inFlight == s.inFlight + [s.number]
      && |s.number| == LookupLength
  {
  }

  /**
   * After any answer `isValidating` is false. A falsy `valid` shows the
   * service's message, or the fallback when it is absent or empty; a failure
   * shows the failure message; `valid: true` leaves the error as it was.
   */
  lemma ResponseOutcomes(s: ValidationState, i: nat, outcome: Outcome)
    requires i < |s.inFlight|
    ensures var t := AfterResponse(s, i, outcome);
      !t.isValidating
      && |t.inFlight| == |s.inFlight| - 1
      && (outcome.Valid? ==> t.validationError == s.validationError)
      && (outcome.Invalid? && Truthy(outcome.message) ==> t.validationError == outcome.message)
      && (outcome.Invalid? && !Truthy(outcome.message) ==> t.validationError == Some(InvalidFallback))
      && (outcome.Failure? ==> t.validationError == Some(LookupFailed))
      && t.pending == s.pending && t.requests == s.requests
  {
  }

  /** A run of renders with no timer firing in between. */
  function Inputs(s: ValidationState, edits: seq<(string, bool)>): ValidationState
    decreases |edits|
  {
    if edits == [] then s else Inputs(AfterInput(s, edits[0].0, edits[0].1), edits[1..])
  }

  /**
   * Debounce: a burst of edits sends nothing and leaves at most one lookup
   * pending, for the last value; when its timer fires, exactly one request is
   * sent, for that value.
   */
  lemma {:induction false} DebounceBurst(s: ValidationState, edits: seq<(string, bool)>)
    requires ValidationInvariant(s)
    requires edits != []
    decreases |edits|
    ensures var t := Inputs(s, edits);
      var last := edits[|edits| - 1];
      ValidationInvariant(t)
      && t.requests == s.requests && t.inFlight == s.inFlight && t.isValidating == s.isValidating
      && t.number == last.0 && t.touched == last.1
      && (t.pending.None? || t.pending == Some(last.0))
      && (t.pending.Some? ==> AfterTimer(t).requests == s.requests + [Get(CorporationLookupUrl(last.0))])
  {
    var s1 := AfterInput(s, edits[0].0, edits[0].1);
    InputPreservesInvariant(s, edits[0].0, edits[0].1);
    if |edits| > 1 {
      DebounceBurst(s1, edits[1..]);
      assert edits[1..][|edits[1..]| - 1] == edits[|edits| - 1];
    } else {
      assert Inputs(s1, edits[1..]) == s1;
    }
  }

  /**
   * The form's lookup test: the number is typed, the field is blurred, the
   * timer fires and the service answers `valid: false` with a message; the
   * field then shows that message, `isValidating` is false, and exactly one
   * GET was sent, to the expected URL.
   */
  lemma LookupScenario()
    ensures var s0 := Mount("", false);
      var s1 := AfterInput(s0, "123456789", false);
      var s2 := AfterInput(s1, "123456789", true);
      s2.pending.Some? &&
      var s3 := AfterTimer(s2);
      |s3.inFlight| == 1 &&
      var s4 := AfterResponse(s3, 0, Invalid(Some("Invalid corporation number")));
      s4.validationError == Some("Invalid corporation number")
      && !s4.isValidating
      && s4.requests == [Get("https://fe-hometask-api.qa.vault.tryvault.com/corporation-number/123456789")]
  {
    UrlExamples();
  }

  /**
   * A lookup already sent is not cancelled by a later edit: its answer still
   * sets the error, even after the field was cut to a length that clears it.
   */
  lemma StaleAnswerStillShown()
    ensures var s1 := AfterTimer(Mount("123456789", true));
      var s2 := AfterInput(s1, "1234", true);
      s2.validationError == None && s2.isValidating &&
      var s3 := AfterResponse(s2, 0, Invalid(None));
      s3.validationError == Some(InvalidFallback) && s3.number == "1234"
  {
  }

  /** The hook as an object whose fields its event methods overwrite. */
  class CorporationValidator {
    var number: string
    var touched: bool
    var isValidating: bool
    var validationError: Option<string>
    var pending: Option<string>
    var inFlight: seq<string>
    var requests: seq<HttpRequest>

    function State(): ValidationState
      reads this
    {
      ValidationState(number, touched, isValidating, validationError, pending, inFlight, requests)
    }

    predicate Valid()
      reads this
    {
      ValidationInvariant(State())
    }

    /** The first render with the given dependencies. */
    constructor (number: string, touched: bool)
      ensures State() == Mount(number, touched) && Valid()
    {
      this.number, this.touched := number, touched;
      isValidating, validationError := false, None;
      pending, inFlight, requests := None, [], [];
      new;
      Effect();
    }

    /** The effect body; the previous run's cleanup has cleared the timer. */
    method Effect()
      requires pending.None?
      modifies this
      ensures State() == RunEffect(old(State()))
    {
      if number == "" || |number| != LookupLength || !touched {
        validationError := None;
        return;
      }
      pending := Some(number);
    }

    /** A render with the field's current value and touched flag. */
    method InputChanged(number: string, touched: bool)
      requires Valid()
      modifies this
      ensures Valid()
      ensures State() == AfterInput(old(State()), number, touched)
    {
      if number == this.number && touched == this.touched {
        return;
      }
      pending := None;
      this.number, this.touched := number, touched;
      Effect();
    }

    /** The debounce timer fires and the lookup starts. */
    method TimerFired()
      requires Valid() && pending.Some?
      modifies this
      ensures Valid()
      ensures State() == AfterTimer(old(State()))
    {
      var n := pending.value;
      pending := None;
      isValidating := true;
      validationError := None;
      requests := requests + [Get(CorporationLookupUrl(n))];
      inFlight := inFlight + [n];
    }

    /** The `i`-th awaited lookup ends with `outcome`. */
    method ResponseArrived(i: nat, outcome: Outcome)
      requires Valid() && i < |inFlight|
      modifies this
      ensures Valid()
      ensures State() == AfterResponse(old(State()), i, outcome)
    {
      ResponsePreservesInvariant(State(), i, outcome);
      match outcome {
        case Valid =>
        case Invalid(message) =>
          validationError := Some(OrElse(message, InvalidFallback));
        case Failure =>
          validationError := Some(LookupFailed);
      }
      isValidating := false;
      inFlight := inFlight[..i] + inFlight[i + 1..];
    }

    /** The component unmounts: the pending timer is cleared. */
    method Unmount()
      requires Valid()
      modifies this
      ensures Valid()
      ensures State() == AfterUnmount(old(State()))
    {
      pending := None;
    }
  }
}
