# Onboarding form — a Dafny model

This project models the logic of a client-side onboarding form that collects
a first name, a last name, a Canadian phone number and a corporation number.
It models three parts:

- the synchronous field rules, including the Canadian phone predicate;
- the debounced remote lookup of the corporation number, with its two cells
  `isValidating` and `validationError`;
- the submission controller, with its two cells `isSubmitting` and
  `submitError`, and the wiring that gates a submit on both.

Timers, `fetch` and its answers are events and inputs. The debounce timer
firing, a lookup's answer arriving and the POST's result are method calls or
parameters. Every request the code would send is appended to a `requests`
log, so "exactly one request, with this URL and body" can be stated.

Modules, one per file:

- `JsValues` (`js_values.dfy`): nullable strings, JavaScript truthiness and `a || fallback`.
- `FormSchema` (`form_schema.dfy`): whitespace stripping, the phone pattern `^\+1[2-9]\d{9}$` as a
  sequence of single-character atoms with an anchored matcher, and the per-field rules.
- `Endpoints` (`endpoints.dfy`): the base URL, the lookup URL, the profile POST and its ordered JSON body.
- `CorporationValidation` (`corporation_validation.dfy`): pure step functions for each event
  (render, timer, answer, unmount), the invariant they keep, and the class `CorporationValidator`.
  The class's methods overwrite its fields step by step and are proved equal to the step functions.
- `FormSubmission` (`form_submission.dfy`): the same pattern for `submitForm`. It is split into `Start`
  (before the awaited POST) and `Settle` (the `catch` and `finally`).
- `OnboardingForm` (`onboarding_form.dfy`): the submit gate, the corporation field's error
  precedence, the disabled condition, and the class `Form` that holds both hooks.

Choices made where JavaScript semantics matter:

- Strings are `seq<char>` (Unicode scalar values). JavaScript's `length` counts UTF-16 code units,
  so the 50- and 9-character limits are the same only for characters of the Basic Multilingual Plane.
- `\s` is the ECMAScript set written out in `FormSchema.IsWhitespace`: tab, line feed, vertical tab,
  form feed, carriage return, space, U+00A0, U+1680, U+2000–U+200A, U+2028, U+2029, U+202F, U+205F,
  U+3000 and U+FEFF. `\d` is the ASCII digits.
- When a field breaks several rules, the message shown is the first broken rule in schema
  declaration order (required, then length, then format). The code does not pin this. The
  library's order decides it, and the tests only check `"12345"`, whose only broken rule is the
  length rule.

Behaviour of the code worth knowing, all of it modelled as written:

- The lookup never reads `response.ok` (src/hooks/useCorporationValidation.ts:22-29). A non-2xx
  answer with a JSON body is read like any other body. A body without a truthy `valid` shows its
  `message`, or "Invalid Corporation Number" when that is absent or empty. Only a thrown failure of
  `fetch`, of parsing, or of reading `valid` from a `null` body shows "Failed to validate
  corporation number". Likewise, for a non-2xx submit whose body is `null`, reading `message`
  throws a `TypeError`, and that error's message becomes `submitError`.
- A lookup already sent is never cancelled or ignored: the effect's cleanup at
  src/hooks/useCorporationValidation.ts:39 only clears the debounce timer. A late answer still sets
  the error and clears `isValidating`, even after the field has changed.
  `CorporationValidation.StaleAnswerStillShown` exhibits this.
- `useFormSubmission` returns no `isSuccess` (src/hooks/useFormSubmission.ts:42). The success
  message and the `reset()` at src/components/OnboardingForm.tsx:71-75 and :93-97 therefore never
  run. They are not modelled.
- A thrown `Error` whose message is empty sets `submitError` to `""`: the code uses
  `error.message` without a fallback.
- The corporation field's blur handler at src/components/OnboardingForm.tsx:148 replaces the one
  the form library installs through `register` at :143. It validates the field but does not mark
  it touched, and nothing else in the source marks it touched. `Form.BlurCorporationNumber` models
  that handler as written. The touched flag stays an input of `Form.Change`; see "## Left out".
- The form library keeps a schema error for a field only once that field has been validated: by a
  change of its value, by its blur handler, or by a submit. `Form` tracks this with
  `corporationValidated`, so a fresh form shows no error under the corporation field.

## Model

| member | source | states |
|---|---|---|
| `JsValues.OrElse` | src/hooks/useCorporationValidation.ts:28 | a nullable string with a fallback (JavaScript's or-operator) is never empty when the fallback is not, and is the fallback unless the string is truthy |
| `FormSchema.StripWhitespace` | src/components/OnboardingForm.tsx:20 | removing whitespace leaves no whitespace and never lengthens the string |
| `FormSchema.StripConcat` | src/components/OnboardingForm.tsx:20 | stripping distributes over concatenation |
| `FormSchema.StripAllWhitespace` | src/components/OnboardingForm.tsx:20 | a string of whitespace strips to the empty string |
| `FormSchema.StripNoWhitespace` | src/components/OnboardingForm.tsx:20 | a string without whitespace is unchanged by stripping |
| `FormSchema.Repeat` | src/components/OnboardingForm.tsx:21 | `k{n}` is `n` copies of the atom `k` |
| `FormSchema.MatchHereIff` | src/components/OnboardingForm.tsx:21-22 | an anchored match of single-character atoms holds iff the string has one character per atom, each in its atom's class |
| `FormSchema.PhoneValidIff` | src/components/OnboardingForm.tsx:19-23 | a phone is valid iff, whitespace removed, it is `+`, `1`, a digit 2–9 and nine ASCII digits: twelve characters |
| `FormSchema.PhoneWhitespaceInsensitive` | src/components/OnboardingForm.tsx:20 | inserting whitespace anywhere does not change phone validity |
| `FormSchema.PhoneOfShapeIsValid` | src/components/OnboardingForm.tsx:21 | every twelve-character string of the pattern's shape is accepted |
| `FormSchema.PhoneRejectsMissingCountryCode` | src/__tests__/OnboardingForm.test.tsx:43-51 | `"1234567890"` is rejected |
| `FormSchema.PhoneAcceptsCanadianNumber` | src/__tests__/OnboardingForm.test.tsx:53-61 | `"+13062776103"` is accepted |
| `FormSchema.IsValidCanadianPhone` | src/components/OnboardingForm.tsx:19-23 | a valid phone is non-empty and strips to twelve characters; `PhoneValidIff` gives both directions of the pattern |
| `FormSchema.FirstNameError` | src/components/OnboardingForm.tsx:27-30 | the message is one of the field's two messages; `FirstNameRule` says which one and when |
| `FormSchema.LastNameError` | src/components/OnboardingForm.tsx:31-34 | the message is one of the field's two messages; `LastNameRule` says which one and when |
| `FormSchema.PhoneError` | src/components/OnboardingForm.tsx:35-42 | the message is "required" or the "+1" message; `PhoneRule` says which one and when |
| `FormSchema.CorporationNumberError` | src/components/OnboardingForm.tsx:43-47 | the message is one of the three messages of the field; `CorporationNumberRule` says which one and when |
| `FormSchema.Validate` | src/components/OnboardingForm.tsx:26-48 | every message the schema gives is a non-empty string; `ValidateAccepts` says when there is none |
| `FormSchema.FirstNameRule` | src/components/OnboardingForm.tsx:27-30 | no error iff 1..50 characters; empty gives "First name is required"; over 50 gives the "50 characters or less" message |
| `FormSchema.LastNameRule` | src/components/OnboardingForm.tsx:31-34 | the same three facts for the last name and its messages |
| `FormSchema.PhoneRule` | src/components/OnboardingForm.tsx:35-42 | no error iff the phone is valid; empty gives "Phone number is required"; otherwise an invalid phone gives the "+1" message |
| `FormSchema.CorporationNumberRule` | src/components/OnboardingForm.tsx:43-47 | no error iff exactly nine ASCII digits; empty gives "required"; any other length gives "must be exactly 9 digits"; nine non-digits give "only digits" |
| `FormSchema.ValidateAccepts` | src/components/OnboardingForm.tsx:26-48 | the schema reports no error iff all four field conditions hold |
| `FormSchema.EmptyFieldsReported` | src/components/OnboardingForm.tsx:26-48 | each empty field is reported with its own "required" message |
| `FormSchema.FirstNameExample` | src/__tests__/OnboardingForm.test.tsx:27-37 | an empty first name gives "First name is required" |
| `FormSchema.PhoneErrorExamples` | src/__tests__/OnboardingForm.test.tsx:40-62 | the tested phones give the "+1" message and no error respectively |
| `FormSchema.CorporationNumberExamples` | src/__tests__/OnboardingForm.test.tsx:64-74 | `"12345"` gives "must be exactly 9 digits"; `"123456789"` gives no error |
| `Endpoints.CorporationLookupUrl` | src/hooks/useCorporationValidation.ts:22-24 | the lookup URL starts with the base and `/corporation-number/` and is exactly as long as that prefix plus the number |
| `Endpoints.LookupUrlRoundTrip` | src/hooks/useCorporationValidation.ts:22-24 | the number is embedded verbatim: it reads back from the URL |
| `Endpoints.LookupUrlInjective` | src/hooks/useCorporationValidation.ts:22-24 | different numbers are looked up at different URLs |
| `Endpoints.ProfileBody` | src/hooks/useFormSubmission.ts:14-22 | the body has four members keyed firstName, lastName, phone, corporationNumber in that order |
| `Endpoints.ProfileBodyRoundTrip` | src/hooks/useFormSubmission.ts:14-22 | reading the body back gives the submitted data unchanged |
| `Endpoints.ProfilePost` | src/hooks/useFormSubmission.ts:14-22 | the submission is a POST to `/profile-details` with JSON content type whose body reads back as the data |
| `Endpoints.UrlExamples` | src/__tests__/OnboardingForm.test.tsx:126-149 | the two URLs are the ones the tests expect |
| `CorporationValidation.RunEffect` | src/hooks/useCorporationValidation.ts:11-16 | the effect sets a timer for the current number iff the gate passes, otherwise clears the error; it sends nothing and leaves `isValidating` alone |
| `CorporationValidation.AfterInput` | src/hooks/useCorporationValidation.ts:38-40 | a render records the new dependencies, sends nothing, keeps `isValidating` and in-flight lookups, and leaves at most a timer for the new number |
| `CorporationValidation.AfterTimer` | src/hooks/useCorporationValidation.ts:17-24 | the timer firing sets `isValidating`, clears the error, marks the pending number in flight and appends one GET whose URL reads back as it; the dependencies are unchanged |
| `CorporationValidation.ErrorAfter` | src/hooks/useCorporationValidation.ts:27-32 | `valid: true` keeps the error; any other outcome sets a non-empty one, the service's message when it is truthy |
| `CorporationValidation.AfterResponse` | src/hooks/useCorporationValidation.ts:27-35 | an answer clears `isValidating`, retires one awaited lookup, and sends nothing |
| `CorporationValidation.AfterUnmount` | src/hooks/useCorporationValidation.ts:39 | unmounting clears the timer; lookups already sent stay awaited and both cells keep their values |
| `CorporationValidation.ShouldCheckIff` | src/hooks/useCorporationValidation.ts:12 | a lookup is scheduled iff the field is touched and has nine characters; the characters themselves are not examined |
| `CorporationValidation.MountEstablishesInvariant` | src/hooks/useCorporationValidation.ts:8-16 | the first render establishes the invariant (pending lookup is for the current input, `isValidating` only with a lookup awaiting, error never empty, awaited numbers have nine characters) |
| `CorporationValidation.InputPreservesInvariant` | src/hooks/useCorporationValidation.ts:11-40 | a render keeps the invariant |
| `CorporationValidation.TimerPreservesInvariant` | src/hooks/useCorporationValidation.ts:17-24 | starting a lookup keeps the invariant |
| `CorporationValidation.ResponsePreservesInvariant` | src/hooks/useCorporationValidation.ts:27-35 | any answer keeps the invariant |
| `CorporationValidation.GateClosedClearsError` | src/hooks/useCorporationValidation.ts:12-15 | when the gate fails: error cleared, nothing pending or sent, `isValidating` unchanged |
| `CorporationValidation.GateOpenSchedules` | src/hooks/useCorporationValidation.ts:38-39 | when the gate passes: the old timer is replaced by one for the new number, nothing is sent, both cells unchanged |
| `CorporationValidation.NonDigitNumberIsLookedUp` | src/hooks/useCorporationValidation.ts:12 | a touched nine-letter value still schedules a lookup |
| `CorporationValidation.CheckStarts` | src/hooks/useCorporationValidation.ts:17-24 | when the timer fires, `isValidating` becomes true, the error is cleared and one GET for the current nine-character number is sent |
| `CorporationValidation.ResponseOutcomes` | src/hooks/useCorporationValidation.ts:27-35 | after any answer `isValidating` is false; a falsy `valid` shows the message or "Invalid Corporation Number"; a failure shows "Failed to validate corporation number"; `valid: true` leaves the error |
| `CorporationValidation.DebounceBurst` | src/hooks/useCorporationValidation.ts:38-40 | a burst of edits sends nothing, leaves at most one lookup pending, for the last value, and its firing sends exactly one GET for that value |
| `CorporationValidation.LookupScenario` | src/__tests__/OnboardingForm.test.tsx:76-96 | at the hook level, with the touched flag supplied as true after the blur; then timer and `valid: false` answer: the field shows the service's message, `isValidating` is false, one GET was sent to the expected URL |
| `CorporationValidation.StaleAnswerStillShown` | src/hooks/useCorporationValidation.ts:27-39 | an answer to a lookup sent before the field was shortened still sets the error |
| `CorporationValidation.CorporationValidator.constructor` | src/hooks/useCorporationValidation.ts:8-16 | the first render: both cells initial, then the effect runs |
| `CorporationValidation.CorporationValidator.Effect` | src/hooks/useCorporationValidation.ts:12-15 | the effect body clears the error or sets the timer, per the gate |
| `CorporationValidation.CorporationValidator.InputChanged` | src/hooks/useCorporationValidation.ts:38-40 | unchanged dependencies do nothing; otherwise the timer is cleared and the effect runs |
| `CorporationValidation.CorporationValidator.TimerFired` | src/hooks/useCorporationValidation.ts:17-24 | the state after the timer fires equals `AfterTimer`, and the invariant holds |
| `CorporationValidation.CorporationValidator.ResponseArrived` | src/hooks/useCorporationValidation.ts:27-35 | the state after an answer equals `AfterResponse`, and the invariant holds |
| `CorporationValidation.CorporationValidator.Unmount` | src/hooks/useCorporationValidation.ts:39 | unmounting clears the pending timer only |
| `FormSubmission.CaughtFrom` | src/hooks/useFormSubmission.ts:25-32 | something reaches the `catch` iff the response was not 2xx; for a non-2xx response it is an `Error` with a non-empty message |
| `FormSubmission.CatchMessage` | src/hooks/useFormSubmission.ts:34-36 | an `Error` gives its own message; any other thrown value gives "Failed to submit form"; the message is empty only for an `Error` whose message is empty |
| `FormSubmission.AfterStart` | src/hooks/useFormSubmission.ts:10-22 | starting sets `isSubmitting`, clears the error and appends the one POST of the data |
| `FormSubmission.AfterSettle` | src/hooks/useFormSubmission.ts:25-39 | settling clears `isSubmitting`, sends nothing, keeps the error on a 2xx response and sets one otherwise |
| `FormSubmission.Attempt` | src/hooks/useFormSubmission.ts:9-40 | a whole call ends with `isSubmitting` false, exactly one POST added, and no error iff the response was 2xx |
| `FormSubmission.SettleOkLeavesNoError` | src/hooks/useFormSubmission.ts:10-11 | given the invariant, a 2xx response ends an attempt in progress with no error |
| `FormSubmission.StartPreservesInvariant` | src/hooks/useFormSubmission.ts:10-11 | while an attempt is in progress the error is empty |
| `FormSubmission.SettlePreservesInvariant` | src/hooks/useFormSubmission.ts:37-39 | settling an attempt keeps that invariant |
| `FormSubmission.StartSendsOnePost` | src/hooks/useFormSubmission.ts:10-22 | starting sets `isSubmitting`, clears the error and appends exactly one POST of the data |
| `FormSubmission.AttemptOutcome` | src/hooks/useFormSubmission.ts:9-40 | after an attempt `isSubmitting` is false and one POST was added; the error is empty iff the response was 2xx; a non-2xx response shows its message or "Failed to submit form"; a thrown `Error` shows its message, any other thrown value the fallback |
| `FormSubmission.SuccessClearsEarlierError` | src/hooks/useFormSubmission.ts:11 | a successful attempt clears the error of an earlier failed one |
| `FormSubmission.SubmitScenario` | src/__tests__/OnboardingForm.test.tsx:98-149 | submitting the tested values sends one JSON POST with the four fields in order and leaves no error |
| `FormSubmission.SubmissionController.constructor` | src/hooks/useFormSubmission.ts:6-7 | both cells start cleared, nothing sent |
| `FormSubmission.SubmissionController.Start` | src/hooks/useFormSubmission.ts:10-22 | the state after the start of `submitForm` equals `AfterStart` |
| `FormSubmission.SubmissionController.Settle` | src/hooks/useFormSubmission.ts:25-39 | the state after the `catch` and `finally` equals `AfterSettle` |
| `FormSubmission.SubmissionController.SubmitForm` | src/hooks/useFormSubmission.ts:9-40 | a whole call equals `Attempt` and keeps the invariant |
| `OnboardingForm.SubmitAllowed` | src/components/OnboardingForm.tsx:78 | the guard passes iff no lookup runs and the lookup error is null or empty |
| `OnboardingForm.SubmitGate` | src/components/OnboardingForm.tsx:77-82 | a submit that goes through has a valid phone, a nine-character number and no lookup running; `SubmitGateOutcome` gives both directions |
| `OnboardingForm.AfterSubmit` | src/components/OnboardingForm.tsx:77-82 | a submit either changes nothing or adds exactly one POST of the values; during a lookup it changes nothing |
| `OnboardingForm.CorporationFieldError` | src/components/OnboardingForm.tsx:138 | a truthy schema error is shown, otherwise the lookup error; the field shows an error iff either one is truthy |
| `OnboardingForm.SubmitDisabled` | src/components/OnboardingForm.tsx:157 | the button is disabled while submitting and while a lookup runs |
| `OnboardingForm.FreshFormShowsNoCorporationError` | src/components/OnboardingForm.tsx:63-66 | on a fresh form the corporation field shows no error |
| `OnboardingForm.SubmitAllowedIff` | src/components/OnboardingForm.tsx:78 | given the lookup invariant, the guard passes iff no lookup runs and no lookup error is set |
| `OnboardingForm.SubmitGateOutcome` | src/components/OnboardingForm.tsx:77-82 | a submit goes through iff all fields are valid, no lookup runs and no lookup error is set; then exactly one POST is sent, otherwise nothing changes |
| `OnboardingForm.SubmitWhileValidatingIsWithheld` | src/components/OnboardingForm.tsx:78-80 | a submit during a lookup sends nothing and raises no error |
| `OnboardingForm.CorporationFieldErrorPrecedence` | src/components/OnboardingForm.tsx:138 | the schema error is shown when present, else the lookup error; a wrong length always shows the length message |
| `OnboardingForm.SubmitButtonDuringAttempt` | src/components/OnboardingForm.tsx:157 | the button is disabled while an attempt runs; afterwards it is disabled iff a lookup runs |
| `OnboardingForm.Form.constructor` | src/components/OnboardingForm.tsx:51-69 | the form starts empty and untouched, with both hooks in their initial states |
| `OnboardingForm.Form.Change` | src/components/OnboardingForm.tsx:63-66 | a render passes the corporation field's value and touched flag to the lookup hook, marks the field validated when its value changed, and leaves the submission state alone |
| `OnboardingForm.Form.BlurCorporationNumber` | src/components/OnboardingForm.tsx:84-86 | the blur handler validates the field and leaves its touched flag and all values unchanged |
| `OnboardingForm.Form.Submit` | src/components/OnboardingForm.tsx:77-82 | a submit validates every field, and the submission state after it equals `AfterSubmit` |
| `OnboardingForm.Form.ShownCorporationError` | src/components/OnboardingForm.tsx:138 | before the field is validated it shows only the lookup's error; afterwards its schema error if any, else the lookup's error |
| `OnboardingForm.Form.SubmitButtonDisabled` | src/components/OnboardingForm.tsx:157 | the rendered button is disabled while submitting and while a lookup runs |

## Left out

- `fetch`, `setTimeout` and `clearTimeout`: answers and timer firings are inputs and method calls.
  The 500 ms delay and wall-clock time are not modelled, only the order of events.
- `console.log` and `console.error` calls.
- `JSON.stringify` and `response.json()`: bodies are modelled as an ordered list of string members.
  Responses are modelled as the parsed outcomes `Outcome` and `Response`.
- The internals of react-hook-form and yup: `register`, `trigger`, `touchedFields`, and how the
  resolver gathers errors. "Touched" is a boolean input of `Form.Change`.
- Whether the assembled form ever marks the corporation field touched: its blur handler replaces the
  library's and does not (see above), so with the code as written the form plausibly never schedules
  a lookup. The lookup model, `CorporationValidation.LookupScenario` included, describes the hook
  for whatever touched flag it is given, not what the assembled form produces.
- Which of several broken rules yup reports first: the model takes declaration order (see above).
- Success handling: the form reads an `isSuccess` that the submission hook does not return, so the
  success message and `reset()` never happen. No success state is modelled.
- Presentation: `FormField.tsx`, `App.tsx` and the CSS. Their tests assert behaviour those files
  do not implement.
- UTF-16 string semantics: lengths count characters, not UTF-16 code units (see above).
- Running several `submitForm` calls at once: `Form.Submit` runs a whole attempt as one step.
  The split `Start`/`Settle` methods allow interleaving but nothing is proved about it.
