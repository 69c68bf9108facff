/** The contact form (src/components/Contact.tsx) as an event-driven state
    machine. Submission is simulated: a first timer (1500 ms) reports
    success and clears the fields, and a second timer (5000 ms), scheduled
    by the first, removes the message. Timers are events here; the state
    counts the callbacks that are scheduled and not yet run. */
module ContactForm {
  import opened Wrappers

  const SuccessMessage: string := "Your message has been sent successfully!"

  /** Delays of the two simulated timers, in milliseconds. Time is not
      modelled: each timer is the event that its callback runs. */
  const SubmitDelayMs: nat := 1500
  const ClearDelayMs: nat := 5000

  /** The `name` attributes of the form's inputs. */
  datatype Field = Name | Email | Subject | Message

  datatype FormData = FormData(name: string, email: string, subject: string, message: string)

  datatype SubmissionResult = SubmissionResult(success: bool, message: string)

  /** Component state plus the number of pending callbacks of each timer. */
  datatype State = State(
    form: FormData,
    isSubmitting: bool,
    result: Option<SubmissionResult>,
    pendingSubmit: nat,
    pendingClear: nat)

  datatype Event =
    | Change(field: Field, value: string)  // an input's change event
    | Submit                               // the form's submit event
    | SubmitTimerFires                     // the SubmitDelayMs callback runs
    | ClearTimerFires                      // the ClearDelayMs callback runs

  const EmptyForm: FormData := FormData("", "", "", "")

  const Init: State := State(EmptyForm, false, None, 0, 0)

  function Get(f: FormData, field: Field): string
  {
    match field
    case Name => f.name
    case Email => f.email
    case Subject => f.subject
    case Message => f.message
  }

  /** `setFormData(prev => ({ ...prev, [name]: value }))`. */
  function HandleChange(f: FormData, field: Field, value: string): (r: FormData)
    ensures Get(r, field) == value
    ensures forall g :: g != field ==> Get(r, g) == Get(f, g)
  {
    match field
    case Name => f.(name := value)
    case Email => f.(email := value)
    case Subject => f.(subject := value)
    case Message => f.(message := value)
  }

  /** All four inputs carry `required`, so the browser only lets the form
      submit when none is empty. */
  predicate AllRequiredFilled(f: FormData)
  {
    f.name != "" && f.email != "" && f.subject != "" && f.message != ""
  }

  /** The submit button is `disabled` while a submission is in flight. */
  predicate SubmitEnabled(s: State)
  {
    !s.isSubmitting && AllRequiredFilled(s.form)
  }

  /** `handleSubmit`: raise the flag and schedule the first timer. */
  function HandleSubmit(s: State): State
  {
    s.(isSubmitting := true, pendingSubmit := s.pendingSubmit + 1)
  }

  /** The 1500 ms callback: lower the flag, report success, reset the form
      and schedule the second timer. */
  function OnSubmitTimer(s: State): State
    requires s.pendingSubmit > 0
  {
    State(EmptyForm, false, Some(SubmissionResult(true, SuccessMessage)),
          s.pendingSubmit - 1, s.pendingClear + 1)
  }

  /** The 5000 ms callback: remove the message. */
  function OnClearTimer(s: State): State
    requires s.pendingClear > 0
  {
    s.(result := None, pendingClear := s.pendingClear - 1)
  }

  /** One event. A submit the browser blocks, and a timer event with no
      callback scheduled, leave the state as it is. */
  function Step(s: State, e: Event): State
  {
    match e
    case Change(field, value) => s.(form := HandleChange(s.form, field, value))
    case Submit => if SubmitEnabled(s) then HandleSubmit(s) else s
    case SubmitTimerFires => if s.pendingSubmit > 0 then OnSubmitTimer(s) else s
    case ClearTimerFires => if s.pendingClear > 0 then OnClearTimer(s) else s
  }

  function Run(s: State, events: seq<Event>): State
    decreases |events|
  {
    if |events| == 0 then s else Run(Step(s, events[0]), events[1..])
  }

  /** What every reachable state satisfies: the flag is up exactly while the
      first timer is pending, at most one such callback is ever pending, and
      a shown result is the success message with its clear timer pending. */
  predicate Valid(s: State)
  {
    && (s.isSubmitting <==> s.pendingSubmit == 1)
    && s.pendingSubmit <= 1
    && (s.result.Some? ==> s.result.value == SubmissionResult(true, SuccessMessage) && s.pendingClear > 0)
  }

  /** The three phases the form shows. */
  datatype Phase = Idle | Submitting | Settled

  function PhaseOf(s: State): Phase
  {
    if s.isSubmitting then Submitting
    else if s.result.Some? then Settled
    else Idle
  }

  lemma InitValid()
    ensures Valid(Init)
    ensures Init.form == EmptyForm && !Init.isSubmitting && Init.result.None?
  {
  }

  lemma StepValid(s: State, e: Event)
    requires Valid(s)
    ensures Valid(Step(s, e))
  {
  }

  lemma {:induction false} RunValid(s: State, events: seq<Event>)
    requires Valid(s)
    ensures Valid(Run(s, events))
    decreases |events|
  {
    if |events| > 0 {
      StepValid(s, events[0]);
      RunValid(Step(s, events[0]), events[1..]);
    }
  }

  /** No sequence of events ever shows a failure result. */
  lemma NeverFails(events: seq<Event>)
    ensures Run(Init, events).result.None? || Run(Init, events).result.value.success
  {
    RunValid(Init, events);
  }

  /** A change event writes the named field and no other. */
  lemma ChangeTouchesOneField(s: State, field: Field, value: string)
    ensures Get(Step(s, Change(field, value)).form, field) == value
    ensures forall g :: g != field ==> Get(Step(s, Change(field, value)).form, g) == Get(s.form, g)
    ensures Step(s, Change(field, value)).isSubmitting == s.isSubmitting
    ensures Step(s, Change(field, value)).result == s.result
  {
  }

  /** Submit does nothing while a submission is in flight or a required
      field is empty. */
  lemma SubmitGuard(s: State)
    requires s.isSubmitting || Get(s.form, Name) == "" || Get(s.form, Email) == ""
          || Get(s.form, Subject) == "" || Get(s.form, Message) == ""
    ensures Step(s, Submit) == s
  {
  }

  /** An accepted submit raises the flag and keeps the fields and the
      result as they were. */
  lemma SubmitKeepsFields(s: State)
    requires SubmitEnabled(s)
    ensures Step(s, Submit).isSubmitting
    ensures Step(s, Submit).form == s.form
    ensures Step(s, Submit).result == s.result
  {
  }

  /** The first timer ends the submission, reports success and empties
      every field. */
  lemma SubmitTimerSettles(s: State)
    requires s.pendingSubmit > 0
    ensures !Step(s, SubmitTimerFires).isSubmitting
    ensures Step(s, SubmitTimerFires).result == Some(SubmissionResult(true, SuccessMessage))
    ensures forall g :: Get(Step(s, SubmitTimerFires).form, g) == ""
  {
  }

  /** The second timer removes the result and changes nothing the user
      sees besides. */
  lemma ClearTimerOnlyClears(s: State)
    requires s.pendingClear > 0
    ensures Step(s, ClearTimerFires).result.None?
    ensures Step(s, ClearTimerFires).form == s.form
    ensures Step(s, ClearTimerFires).isSubmitting == s.isSubmitting
    ensures Step(s, ClearTimerFires).pendingSubmit == s.pendingSubmit
    ensures Step(s, ClearTimerFires).pendingClear == s.pendingClear - 1
  {
  }

  /** From a reachable state, each event moves the visible phase along
      idle -> submitting -> settled -> idle, or leaves it; the one extra
      edge is settled -> submitting, since the button is enabled again
      while the message is still shown. */
  lemma PhaseTransitions(s: State, e: Event)
    requires Valid(s)
    ensures var p, q := PhaseOf(s), PhaseOf(Step(s, e));
      || p == q
      || (p == Idle && q == Submitting)
      || (p == Submitting && q == Settled)
      || (p == Settled && q == Idle)
      || (p == Settled && q == Submitting)
  {
  }

  /** A complete round: fill all four fields, submit, let both timers run.
      The form passes through submitting and settled and ends idle with
      every field empty. */
  lemma HappyPath(name: string, email: string, subject: string, message: string)
    requires name != "" && email != "" && subject != "" && message != ""
    ensures var filled := Run(Init, [Change(Name, name), Change(Email, email), Change(Subject, subject), Change(Message, message)]);
      && PhaseOf(Step(filled, Submit)) == Submitting
      && Step(filled, Submit).form == filled.form
      && PhaseOf(Step(Step(filled, Submit), SubmitTimerFires)) == Settled
      && Step(Step(filled, Submit), SubmitTimerFires).form == EmptyForm
      && Step(Step(Step(filled, Submit), SubmitTimerFires), ClearTimerFires) == Init
  {
    var evs := [Change(Name, name), Change(Email, email), Change(Subject, subject), Change(Message, message)];
    var s1 := Step(Init, evs[0]);
    var s2 := Step(s1, evs[1]);
    var s3 := Step(s2, evs[2]);
    var s4 := Step(s3, evs[3]);
    assert Run(s4, []) == s4;
    assert Run(s3, [evs[3]]) == s4;
    assert evs[2..][1..] == [evs[3]];
    assert Run(s2, evs[2..]) == s4;
    assert evs[1..][1..] == evs[2..];
    assert Run(s1, evs[1..]) == s4;
    assert Run(Init, evs) == s4;
    assert s4.form == FormData(name, email, subject, message);
  }
}
