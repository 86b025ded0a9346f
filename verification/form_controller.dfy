/**
 The state of the contact form and the two event handlers that change it:
 typing into an input, and submitting. Each handler is one atomic
 transition. Submitting is split at its single `await`. Before it, the
 handler validates and either stops or sends. After it, the handler records
 the outcome of the request. The request itself is an outcome given as input.
 */
module FormController {
  import opened FieldPatterns
  import opened LeadForm

  /** The banner the form shows under its heading. */
  datatype Status = Idle | Success | Error

  /** Everything the handlers read or write: the input values, the recorded
      errors, the loading flag that disables the submit button, and the banner. */
  datatype FormState = FormState(data: FormData, errors: FormErrors, submitting: bool, status: Status)

  /** The state when the page mounts. */
  const Initial := FormState(EmptyForm, map[], false, Idle)

  /** `handleInputChange`: the input named `f` now holds `v`. Its error is
      dropped when it holds a truthy (non-empty) message. */
  function InputChange(s: FormState, f: Field, v: string): (s': FormState)
    ensures s'.data.Get(f) == v
    ensures forall g :: g != f ==> s'.data.Get(g) == s.data.Get(g)
    ensures f in s'.errors <==> f in s.errors && s.errors[f] == ""
    ensures forall g :: g != f ==> (g in s'.errors <==> g in s.errors)
    ensures forall g :: g in s'.errors ==> s'.errors[g] == s.errors[g]
    ensures s'.submitting == s.submitting && s'.status == s.status
  {
    var errors := if f in s.errors && s.errors[f] != "" then s.errors - {f} else s.errors;
    s.(data := s.data.With(f, v), errors := errors)
  }

  /** What the webhook call came to: a 2xx response, or anything else
      (another status or a thrown network error). */
  datatype Outcome = Delivered | Failed

  /** The first half of `handleSubmit`: either it returns early, or it posts
      `payload` and waits with the state `state`. */
  datatype Attempt = Blocked(state: FormState) | Sent(state: FormState, payload: FormData)

  /** `handleSubmit` up to the `await`. Validation runs and records its errors
      on both paths. A failing form sends nothing and leaves the flag and the
      banner alone. A passing form is sent as it stands, with the flag raised
      and the banner back to idle. The loading flag is not consulted. */
  function BeginSubmit(s: FormState): (a: Attempt)
    ensures a.Sent? <==> Acceptable(s.data)
    ensures a.state.data == s.data
    ensures a.state.errors == Validate(s.data).errors
    ensures a.Blocked? ==> a.state.errors != map[]
    ensures a.Blocked? ==> a.state.submitting == s.submitting && a.state.status == s.status
    ensures a.Sent? ==> a.payload == s.data && a.state.errors == map[]
    ensures a.Sent? ==> a.state.submitting && a.state.status == Idle
  {
    var v := Validate(s.data);
    if !v.valid then
      Blocked(s.(errors := v.errors))
    else
      Sent(s.(errors := v.errors, submitting := true, status := Idle), s.data)
  }

  /** `handleSubmit` after the `await`, applied to whatever the state is by
      then. Delivery shows success and empties every input. Failure shows the
      error banner and keeps the inputs for a retry. The `finally` lowers the
      loading flag on both paths. */
  function FinishSubmit(s: FormState, o: Outcome): (s': FormState)
    ensures !s'.submitting
    ensures s'.errors == s.errors
    ensures o == Delivered ==> s'.status == Success && s'.data == EmptyForm
    ensures o == Failed ==> s'.status == Error && s'.data == s.data
  {
    match o
    case Delivered => s.(status := Success, data := EmptyForm, submitting := false)
    case Failed => s.(status := Error, submitting := false)
  }

  /** The whole of `handleSubmit` as one step, the request coming back with `o`. */
  function HandleSubmit(s: FormState, o: Outcome): (s': FormState)
    ensures !Acceptable(s.data) ==> s' == s.(errors := Validate(s.data).errors)
    ensures Acceptable(s.data) ==> !s'.submitting && s'.errors == map[]
    ensures Acceptable(s.data) && o == Delivered ==> s'.status == Success && s'.data == EmptyForm
    ensures Acceptable(s.data) && o == Failed ==> s'.status == Error && s'.data == s.data
  {
    match BeginSubmit(s)
    case Blocked(t) => t
    case Sent(t, _) => FinishSubmit(t, o)
  }

  /** A state between two events: no request in flight, and every recorded
      error is a message the validator gives that field. */
  ghost predicate Settled(s: FormState) {
    && !s.submitting
    && forall f :: f in s.errors ==> s.errors[f] in MessagesFor(f)
  }

  /** The page mounts settled. */
  lemma InitialSettled()
    ensures Settled(Initial)
  {
  }

  /** Typing keeps a settled form settled. */
  lemma InputChangeKeepsSettled(s: FormState, f: Field, v: string)
    requires Settled(s)
    ensures Settled(InputChange(s, f, v))
  {
  }

  /** A whole submission keeps a settled form settled, whatever the outcome. */
  lemma HandleSubmitKeepsSettled(s: FormState, o: Outcome)
    requires Settled(s)
    ensures Settled(HandleSubmit(s, o))
  {
    ValidateMessagesBelong(s.data);
  }

  /** In a settled form, typing into an input clears its error exactly when it
      has one, and touches no other error. */
  lemma TypingClearsError(s: FormState, f: Field, v: string)
    requires Settled(s)
    ensures f !in InputChange(s, f, v).errors
    ensures InputChange(s, f, v).errors == s.errors - {f}
  {
  }

  /** No request is issued while the form is invalid, whatever the loading flag says. */
  lemma InvalidFormSendsNothing(s: FormState)
    requires !Acceptable(s.data)
    ensures BeginSubmit(s).Blocked?
    ensures BeginSubmit(s).state.submitting == s.submitting
    ensures BeginSubmit(s).state.status == s.status
  {
  }

  /** Nothing deduplicates: submitting again while the first request is still
      pending sends the same values a second time. */
  lemma SecondSubmitWhilePending(s: FormState)
    requires Acceptable(s.data)
    ensures BeginSubmit(BeginSubmit(s).state).Sent?
    ensures BeginSubmit(BeginSubmit(s).state).payload == BeginSubmit(s).payload
  {
  }

  /** Typing while the request is pending: the request carries the values of
      submit time, a delivery empties the inputs including what was typed since,
      and a failure keeps what was typed. */
  lemma TypingWhilePending(s: FormState, f: Field, v: string)
    requires Acceptable(s.data)
    ensures BeginSubmit(s).payload == s.data
    ensures FinishSubmit(InputChange(BeginSubmit(s).state, f, v), Delivered).data == EmptyForm
    ensures FinishSubmit(InputChange(BeginSubmit(s).state, f, v), Failed).data.Get(f) == v
  {
  }

  /** After a failed delivery the inputs are intact, so submitting again sends
      exactly what was sent before. */
  lemma RetryAfterFailureResends(s: FormState)
    requires Acceptable(s.data)
    ensures HandleSubmit(s, Failed).status == Error
    ensures BeginSubmit(HandleSubmit(s, Failed)).Sent?
    ensures BeginSubmit(HandleSubmit(s, Failed)).payload == BeginSubmit(s).payload
  {
  }

  /** After a delivery the inputs are empty, so submitting again is blocked
      with the four required messages. */
  lemma SubmitAfterDeliveryBlocked(s: FormState, o: Outcome)
    requires Acceptable(s.data)
    ensures BeginSubmit(HandleSubmit(s, Delivered)).Blocked?
    ensures HandleSubmit(HandleSubmit(s, Delivered), o).errors ==
      map[Name := NameRequired, Email := EmailRequired, Phone := PhoneRequired, Company := CompanyRequired]
  {
  }

  /** A value that starts with an ASCII letter or digit is not blank. */
  lemma FilledIn(s: string)
    requires |s| > 0 && ('A' <= s[0] <= 'Z' || 'a' <= s[0] <= 'z' || '0' <= s[0] <= '9')
    ensures !JsText.AllWhitespace(s)
  {
    assert !JsText.IsWhitespace(s[0]);
  }

  /** A non-empty run of decimal digits passes the phone expression. */
  lemma DigitsArePhone(s: string)
    requires |s| > 0 && forall i :: 0 <= i < |s| ==> '0' <= s[i] <= '9'
    ensures PhoneShape(s)
  {
  }

  /** The example lead: name, email, phone and company filled in, no message. */
  const ExampleLead := FormData("Ana", "ana@x.com", "11999999999", "Acme", "")

  /** The example lead's address passes the email expression. */
  lemma ExampleAddress()
    ensures EmailShape(ExampleLead.email)
  {
    ShapeSplitsAtFirstAt(ExampleLead.email, "ana", "x", "com");
    FirstAtSplitIffShape(ExampleLead.email);
  }

  /** The contact fields of the example lead are filled in, with a
      well-formed email and a digits-only phone. */
  lemma ExampleLeadAcceptable()
    ensures Acceptable(ExampleLead)
  {
    FilledIn(ExampleLead.name);
    FilledIn(ExampleLead.email);
    FilledIn(ExampleLead.phone);
    FilledIn(ExampleLead.company);
    ExampleAddress();
    DigitsArePhone(ExampleLead.phone);
  }

  /** The example lead, delivered: the success banner and five empty inputs. */
  lemma DeliveredLeadScenario()
    ensures HandleSubmit(Initial.(data := ExampleLead), Delivered) == FormState(EmptyForm, map[], false, Success)
  {
    ExampleLeadAcceptable();
  }

  /** The example lead with the email `"bad"`. */
  const BadEmailLead := ExampleLead.(email := "bad")

  /** Submitting the example lead with the email `"bad"`: the handler returns
      before sending, and only the email input shows an error, the format
      message. */
  lemma BadEmailScenario(o: Outcome)
    ensures BeginSubmit(Initial.(data := BadEmailLead)).Blocked?
    ensures HandleSubmit(Initial.(data := BadEmailLead), o).errors == map[Email := EmailInvalid]
  {
    FilledIn(BadEmailLead.name);
    FilledIn(BadEmailLead.email);
    FilledIn(BadEmailLead.phone);
    FilledIn(BadEmailLead.company);
    NoAtIsNoEmail(BadEmailLead.email);
    DigitsArePhone(BadEmailLead.phone);
    OnlyEmailRejected(BadEmailLead);
  }
}
