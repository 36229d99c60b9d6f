/** The contact section: a four-field form whose submit handler validates,
    marks the form as submitting and schedules a 2000 ms completion timer;
    the completion timer marks success, clears every field, emits a toast
    and schedules a 3000 ms timer that clears the success flag. */
module Contact {
  import opened Reveal

  /** The `name` attribute of each input the change handler serves. */
  datatype Field = Name | Email | Subject | Message

  /** The `formData` state record. */
  datatype FormData = FormData(name: string, email: string, subject: string, message: string)
  {
    function Get(f: Field): string
    {
      match f
      case Name => name
      case Email => email
      case Subject => subject
      case Message => message
    }

    /** `{ ...prev, [name]: value }`: the named field takes the new value,
        the other three keep theirs. */
    function With(f: Field, value: string): (d: FormData)
      ensures d.Get(f) == value
      ensures forall g :: g != f ==> d.Get(g) == Get(g)
    {
      match f
      case Name => this.(name := value)
      case Email => this.(email := value)
      case Subject => this.(subject := value)
      case Message => this.(message := value)
    }
  }

  const EmptyForm: FormData := FormData("", "", "", "")

  /** The submit guard `!name || !email || !message`: emptiness only, no
      trimming, and the subject is never looked at. */
  predicate MissingRequired(d: FormData)
  {
    d.name == "" || d.email == "" || d.message == ""
  }

  /** A notification handed to the toast service. */
  datatype Toast = Toast(title: string, description: string, destructive: bool)

  const MissingFieldsToast: Toast :=
    Toast("Missing fields", "Please fill in all required fields.", true)
  const SentToast: Toast :=
    Toast("Message sent successfully!", "Thank you for reaching out. I'll get back to you soon.", false)

  /** A `setTimeout` callback that has been scheduled and has not run yet:
      the simulated send completing (scheduled 2000 ms after a submit) or
      the success state being cleared (3000 ms after a completion). */
  datatype Timer = Completion | SuccessReset

  /** Everything the form's handlers read or write. `pending` holds the
      scheduled timers; `toasts` is the log of notifications emitted. */
  datatype FormState = FormState(
    data: FormData,
    isSubmitting: bool,
    isSuccess: bool,
    pending: multiset<Timer>,
    toasts: seq<Toast>)

  const Initial: FormState := FormState(EmptyForm, false, false, multiset{}, [])

  /** The four kinds of event that drive the form. */
  datatype Event =
    | Input(field: Field, value: string)
    | FormSubmit
    | CompletionDue
    | ResetDue

  /** A timer can only fire while it is pending; user events can always
      happen. */
  predicate CanHappen(s: FormState, e: Event)
  {
    match e
    case CompletionDue => Completion in s.pending
    case ResetDue => SuccessReset in s.pending
    case _ => true
  }

  /** The effect of one event. */
  function Step(s: FormState, e: Event): FormState
    requires CanHappen(s, e)
  {
    match e
    case Input(f, v) =>
      s.(data := s.data.With(f, v))
    case FormSubmit =>
      if MissingRequired(s.data) then
        s.(toasts := s.toasts + [MissingFieldsToast])
      else
        s.(isSubmitting := true, pending := s.pending + multiset{Completion})
    case CompletionDue =>
      FormState(EmptyForm, false, true,
                s.pending - multiset{Completion} + multiset{SuccessReset},
                s.toasts + [SentToast])
    case ResetDue =>
      s.(isSuccess := false, pending := s.pending - multiset{SuccessReset})
  }

  /** Whether every event of `events` can happen in turn, starting from `s`. */
  predicate Possible(s: FormState, events: seq<Event>)
    decreases |events|
  {
    events == [] || (CanHappen(s, events[0]) && Possible(Step(s, events[0]), events[1..]))
  }

  /** The state after `events`. */
  function Run(s: FormState, events: seq<Event>): FormState
    requires Possible(s, events)
    decreases |events|
  {
    if events == [] then s else Run(Step(s, events[0]), events[1..])
  }

  /** Every raised flag has a pending timer that will lower it: submitting
      waits on a completion timer, success on a reset timer. */
  predicate Consistent(s: FormState)
  {
    (s.isSubmitting ==> Completion in s.pending) &&
    (s.isSuccess ==> SuccessReset in s.pending)
  }

  /** The submit button's label: submitting wins over success. */
  function SubmitLabel(isSubmitting: bool, isSuccess: bool): string
  {
    if isSubmitting then "Sending..." else if isSuccess then "Sent!" else "Send Message"
  }

  // ---------------------------------------------------------------- steps

  /** A change event writes exactly the named field and nothing else. */
  lemma InputWritesOneField(s: FormState, f: Field, v: string)
    ensures Step(s, Input(f, v)).data.Get(f) == v
    ensures forall g :: g != f ==> Step(s, Input(f, v)).data.Get(g) == s.data.Get(g)
    ensures Step(s, Input(f, v)).(data := s.data) == s
  {
  }

  /** A submit with a required field empty emits one "Missing fields" toast
      and changes nothing else; a complete submit enters submitting with the
      fields untouched and exactly one more completion timer. */
  lemma SubmitOutcomes(s: FormState)
    ensures MissingRequired(s.data) ==>
      Step(s, FormSubmit).toasts == s.toasts + [MissingFieldsToast] &&
      Step(s, FormSubmit).(toasts := s.toasts) == s
    ensures !MissingRequired(s.data) ==>
      Step(s, FormSubmit).isSubmitting &&
      Step(s, FormSubmit).pending == s.pending + multiset{Completion} &&
      Step(s, FormSubmit).(isSubmitting := s.isSubmitting, pending := s.pending) == s
  {
  }

  /** The subject never decides whether a submit goes through. */
  lemma SubjectNotRequired(s: FormState, subject: string)
    ensures MissingRequired(s.data.With(Subject, subject)) == MissingRequired(s.data)
  {
  }

  /** The submitting flag only goes up on a submit whose required fields are
      all non-empty. */
  lemma SubmittingOnlyAfterCompleteSubmit(s: FormState, e: Event)
    requires CanHappen(s, e)
    requires !s.isSubmitting && Step(s, e).isSubmitting
    ensures e == FormSubmit && !MissingRequired(s.data)
  {
  }

  /** The completion timer ends submitting, enters success, clears all four
      fields, emits the success toast and trades itself for one reset
      timer; the reset timer only lowers the success flag. */
  lemma TimerOutcomes(s: FormState)
    ensures Completion in s.pending ==>
      var t := Step(s, CompletionDue);
      !t.isSubmitting && t.isSuccess && t.data == EmptyForm &&
      (forall f :: t.data.Get(f) == "") &&
      t.toasts == s.toasts + [SentToast] &&
      t.pending[Completion] == s.pending[Completion] - 1 &&
      t.pending[SuccessReset] == s.pending[SuccessReset] + 1
    ensures SuccessReset in s.pending ==>
      var t := Step(s, ResetDue);
      !t.isSuccess && t.data == s.data && t.isSubmitting == s.isSubmitting &&
      t.toasts == s.toasts &&
      t.pending[SuccessReset] == s.pending[SuccessReset] - 1 &&
      t.pending[Completion] == s.pending[Completion]
  {
  }

  /** The fields are emptied when success is entered, never when it ends. */
  lemma FieldsClearedOnEnteringSuccess(s: FormState, e: Event)
    requires CanHappen(s, e)
    requires !e.Input?
    requires Step(s, e).data != s.data
    ensures e == CompletionDue && Step(s, e).data == EmptyForm && Step(s, e).isSuccess
  {
  }

  /** The label shows "Sending..." whenever submitting, "Sent!" only on
      success without a submission in flight, and "Send Message" otherwise. */
  lemma LabelRule(isSubmitting: bool, isSuccess: bool)
    ensures SubmitLabel(isSubmitting, isSuccess) == "Sending..." <==> isSubmitting
    ensures SubmitLabel(isSubmitting, isSuccess) == "Sent!" <==> !isSubmitting && isSuccess
    ensures SubmitLabel(isSubmitting, isSuccess) == "Send Message" <==> !isSubmitting && !isSuccess
  {
  }

  // --------------------------------------------------------------- traces

  /** Each event keeps every raised flag backed by a pending timer. */
  lemma StepKeepsConsistent(s: FormState, e: Event)
    requires Consistent(s) && CanHappen(s, e)
    ensures Consistent(Step(s, e))
  {
  }

  lemma {:induction false} RunKeepsConsistent(s: FormState, events: seq<Event>)
    requires Consistent(s) && Possible(s, events)
    ensures Consistent(Run(s, events))
    decreases |events|
  {
    if events != [] {
      StepKeepsConsistent(s, events[0]);
      RunKeepsConsistent(Step(s, events[0]), events[1..]);
    }
  }

  /** With no timer left pending, whatever happened since mount, the form is
      neither submitting nor showing success: no flag is ever stuck. */
  lemma QuiescentFormIsIdle(events: seq<Event>)
    requires Possible(Initial, events)
    requires Run(Initial, events).pending == multiset{}
    ensures !Run(Initial, events).isSubmitting && !Run(Initial, events).isSuccess
  {
    RunKeepsConsistent(Initial, events);
  }

  /** Timer events that fire every pending timer, completions first. */
  function Drain(s: FormState): seq<Event>
    decreases 2 * s.pending[Completion] + s.pending[SuccessReset]
  {
    if Completion in s.pending then [CompletionDue] + Drain(Step(s, CompletionDue))
    else if SuccessReset in s.pending then [ResetDue] + Drain(Step(s, ResetDue))
    else []
  }

  /** Letting the timers run out, with no user event in between, always
      brings a consistent form back to idle with nothing scheduled; user
      input typed meanwhile is kept unless a completion clears it. */
  lemma {:induction false} DrainReturnsToIdle(s: FormState)
    requires Consistent(s)
    ensures Possible(s, Drain(s))
    ensures var t := Run(s, Drain(s));
      t.pending == multiset{} && !t.isSubmitting && !t.isSuccess
    ensures Completion !in s.pending ==> Run(s, Drain(s)).data == s.data
    decreases 2 * s.pending[Completion] + s.pending[SuccessReset]
  {
    if Completion in s.pending {
      StepKeepsConsistent(s, CompletionDue);
      DrainReturnsToIdle(Step(s, CompletionDue));
      assert Drain(s)[1..] == Drain(Step(s, CompletionDue));
    } else if SuccessReset in s.pending {
      StepKeepsConsistent(s, ResetDue);
      DrainReturnsToIdle(Step(s, ResetDue));
      assert Drain(s)[1..] == Drain(Step(s, ResetDue));
    } else {
      forall t: Timer ensures s.pending[t] == multiset{}[t] {
        assert t == Completion || t == SuccessReset;
      }
      assert s.pending == multiset{};
    }
  }

  /** A user who only submits through the enabled button (never while
      submitting) has at most one completion timer in flight, and the
      submitting flag says exactly whether it is. */
  predicate OneInFlight(s: FormState)
  {
    s.pending[Completion] <= 1 && (s.isSubmitting <==> s.pending[Completion] == 1)
  }

  /** Every submit of `events` happens while the button is enabled, that
      is, while no submission is in flight (the button's `disabled` is the
      submitting flag). */
  predicate ThroughButton(s: FormState, events: seq<Event>)
    requires Possible(s, events)
    decreases |events|
  {
    events == [] ||
    ((events[0] == FormSubmit ==> !s.isSubmitting) &&
     ThroughButton(Step(s, events[0]), events[1..]))
  }

  lemma {:induction false} ButtonSubmitsKeepOneInFlight(s: FormState, events: seq<Event>)
    requires OneInFlight(s) && Possible(s, events) && ThroughButton(s, events)
    ensures OneInFlight(Run(s, events))
    decreases |events|
  {
    if events != [] {
      var t := Step(s, events[0]);
      assert OneInFlight(t);
      ButtonSubmitsKeepOneInFlight(t, events[1..]);
    }
  }

  // ------------------------------------------------------------ scenarios

  /** Alice leaves the email empty: the submit is refused with one toast. */
  lemma ScenarioMissingEmail()
    ensures var s := Initial.(data := FormData("Alice", "", "", "Hi"));
      Step(s, FormSubmit) == s.(toasts := [MissingFieldsToast])
  {
  }

  /** Alice fills name, email and message: submitting, then success with
      every field cleared, then idle again. */
  lemma ScenarioSuccessfulSubmit()
    ensures var s0 := Initial.(data := FormData("Alice", "a@x.com", "", "Hi"));
      var s1 := Step(s0, FormSubmit);
      s1.isSubmitting && !s1.isSuccess && s1.pending == multiset{Completion} &&
      var s2 := Step(s1, CompletionDue);
      !s2.isSubmitting && s2.isSuccess && s2.data == EmptyForm &&
      s2.pending == multiset{SuccessReset} &&
      var s3 := Step(s2, ResetDue);
      s3 == Initial.(toasts := [SentToast])
  {
    var s0 := Initial.(data := FormData("Alice", "a@x.com", "", "Hi"));
    var s1 := Step(s0, FormSubmit);
    assert s1.pending == multiset{Completion};
    var s2 := Step(s1, CompletionDue);
    assert s2.pending == multiset{SuccessReset};
  }

  /** The button stays enabled during the success window, so a second
      message can be typed and sent then: both flags are up at once and the label
      shows "Sending...". When that second completion fires before the
      first reset timer, the earlier reset lowers the success flag of the
      later success while the later reset is still pending. */
  lemma ScenarioSubmitDuringSuccess()
    ensures var s0 := Initial.(data := FormData("A", "a@x.com", "", "Hi"));
      var s2 := Step(Step(s0, FormSubmit), CompletionDue);
      var s3 := Step(Step(Step(s2, Input(Name, "B")), Input(Email, "b@x.com")), Input(Message, "Yo"));
      !s3.isSubmitting &&
      var s4 := Step(s3, FormSubmit);
      s4.isSubmitting && s4.isSuccess && SubmitLabel(s4.isSubmitting, s4.isSuccess) == "Sending..." &&
      var s5 := Step(s4, CompletionDue);
      s5.isSuccess && s5.pending[SuccessReset] == 2 &&
      var s6 := Step(s5, ResetDue);
      !s6.isSuccess && SuccessReset in s6.pending
  {
    var s0 := Initial.(data := FormData("A", "a@x.com", "", "Hi"));
    var s1 := Step(s0, FormSubmit);
    assert s1.pending == multiset{Completion};
    var s2 := Step(s1, CompletionDue);
    assert s2.pending == multiset{SuccessReset};
    var s3 := Step(Step(Step(s2, Input(Name, "B")), Input(Email, "b@x.com")), Input(Message, "Yo"));
    assert s3.data == FormData("B", "b@x.com", "", "Yo") && s3.pending == s2.pending;
    var s4 := Step(s3, FormSubmit);
    assert s4.pending == multiset{SuccessReset, Completion};
    var s5 := Step(s4, CompletionDue);
    assert s5.pending == multiset{SuccessReset, SuccessReset};
  }

  // -------------------------------------------------------------- section

  /** The mounted contact section: its form state cells and its reveal
      latch (`threshold: 0.2`). */
  class ContactSection {
    var data: FormData
    var isSubmitting: bool
    var isSuccess: bool
    var pending: multiset<Timer>
    var toasts: seq<Toast>
    const latch: RevealLatch

    function State(): FormState
      reads this
    {
      FormState(data, isSubmitting, isSuccess, pending, toasts)
    }

    ghost predicate Valid()
      reads this
    {
      Consistent(State())
    }

    constructor ()
      ensures State() == Initial && Valid()
      ensures fresh(latch) && latch.thresholdPercent == 20
      ensures !latch.isVisible && !latch.observing
    {
      data := EmptyForm;
      isSubmitting := false;
      isSuccess := false;
      pending := multiset{};
      toasts := [];
      latch := new RevealLatch(20);
    }

    /** `handleInputChange`. */
    method Change(f: Field, value: string)
      requires Valid()
      modifies this
      ensures Valid()
      ensures State() == Step(old(State()), Input(f, value))
      ensures data.Get(f) == value
      ensures forall g :: g != f ==> data.Get(g) == old(data.Get(g))
      ensures isSubmitting == old(isSubmitting) && isSuccess == old(isSuccess)
      ensures pending == old(pending) && toasts == old(toasts)
    {
      data := data.With(f, value);
    }

    /** `handleSubmit`. It has no guard of its own against a second call. */
    method Submit()
      requires Valid()
      modifies this
      ensures Valid()
      ensures State() == Step(old(State()), FormSubmit)
      ensures data == old(data) && isSuccess == old(isSuccess)
      ensures MissingRequired(data) ==>
        toasts == old(toasts) + [MissingFieldsToast] &&
        isSubmitting == old(isSubmitting) && pending == old(pending)
      ensures !MissingRequired(data) ==>
        toasts == old(toasts) && isSubmitting &&
        pending == old(pending) + multiset{Completion}
    {
      if data.name == "" || data.email == "" || data.message == "" {
        toasts := toasts + [MissingFieldsToast];
        return;
      }
      isSubmitting := true;
      pending := pending + multiset{Completion};
    }

    /** The 2000 ms completion callback. */
    method CompletionFires()
      requires Valid() && Completion in pending
      modifies this
      ensures Valid()
      ensures State() == Step(old(State()), CompletionDue)
      ensures !isSubmitting && isSuccess && data == EmptyForm
      ensures toasts == old(toasts) + [SentToast]
      ensures pending == old(pending) - multiset{Completion} + multiset{SuccessReset}
    {
      pending := pending - multiset{Completion};
      isSubmitting := false;
      isSuccess := true;
      toasts := toasts + [SentToast];
      data := FormData("", "", "", "");
      pending := pending + multiset{SuccessReset};
    }

    /** The 3000 ms success-reset callback. */
    method ResetFires()
      requires Valid() && SuccessReset in pending
      modifies this
      ensures Valid()
      ensures State() == Step(old(State()), ResetDue)
      ensures !isSuccess
      ensures data == old(data) && isSubmitting == old(isSubmitting) && toasts == old(toasts)
      ensures pending == old(pending) - multiset{SuccessReset}
    {
      pending := pending - multiset{SuccessReset};
      isSuccess := false;
    }

    /** The submit button as rendered: its label and whether it is
        disabled. */
    function Button(): (b: (string, bool))
      reads this
      ensures b.1 <==> isSubmitting
      ensures b.0 == "Sending..." <==> isSubmitting
      ensures b.0 == "Sent!" <==> !isSubmitting && isSuccess
      ensures b.0 == "Send Message" <==> !isSubmitting && !isSuccess
    {
      (SubmitLabel(isSubmitting, isSuccess), isSubmitting)
    }

    /** The revealed blocks: heading, intro, the information column, the
        three contact cards (`0.6 + index * 0.1` s), the quick-contact box
        and the form card. */
    function Blocks(): (r: seq<Rendered>)
      reads this, latch
      ensures |r| == 8
      ensures forall i :: 0 <= i < |r| ==> (r[i].cls == HiddenClass <==> !latch.isVisible)
    {
      RenderRevealsIffVisible(latch.isVisible, ContactBlocks);
      Render(latch.isVisible, ContactBlocks)
    }
  }

  const ContactBlocks: seq<Block> :=
    [ Block("heading", "animate-fade-in-up", 0),
      Block("intro", "animate-fade-in-up", 2),
      Block("info", "animate-slide-in-left", 4) ] +
    Staggered(["Email", "Phone", "Location"], "animate-bounce-in", 6) +
    [ Block("quick-contact", "animate-scale-in", 9),
      Block("form", "animate-slide-in-right", 6) ]
}
