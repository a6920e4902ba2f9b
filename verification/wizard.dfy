/**
 The wizard controller: its state, the closed set of events the step views
 and the webhook request can raise, one reducer `Step` that applies an
 event, and `Offered`, which says which events the view on screen renders
 and enables. Traces of offered events from the initial state keep the
 invariant `Inv`, which is what makes every submitted payload complete.
 */
module Wizard {
  import opened Form
  import opened Navigation
  import opened Gates
  import opened Payload
  import opened Submission
  import MultiSelect

  datatype State = State(step: int, form: FormData, isSubmitting: bool, isSubmitted: bool)

  const Init: State := State(1, Empty, false, false)

  datatype Event =
    | Next
    | Back
    | Skip
    | Select(single: SingleField, value: string)
    | ToggleChoice(list: ListField, value: string)
    | Edit(text: TextField, value: string)
    | PressSubmit(callback: CallbackOutcome)
    | FetchSettled(fetch: FetchOutcome)

  /** Events raised by the user on a step view, as opposed to the submit
      button and the settling request. */
  predicate IsFormEvent(e: Event)
  {
    !e.PressSubmit? && !e.FetchSettled?
  }

  datatype Transition = Transition(next: State, effects: seq<Effect>)

  /** The one reducer. A single choice writes its field and advances at once
      (the source advances 300 ms later); a toggle, an edit and the moves
      change one thing each; Submit runs the handler up to its `await`, and
      the settling request runs the rest. */
  function Step(p: Props, s: State, e: Event): (t: Transition)
    ensures InRange(s.step) ==> InRange(t.next.step)
    ensures IsFormEvent(e) ==> t.effects == []
    ensures IsFormEvent(e) ==> t.next.isSubmitting == s.isSubmitting && t.next.isSubmitted == s.isSubmitted
    ensures !IsFormEvent(e) ==> t.next.step == s.step && t.next.form == s.form
    ensures e.Next? || e.Skip? ==> t.next.form == s.form && t.next.step == GoNext(s.step)
    ensures e.Back? ==> t.next.form == s.form && t.next.step == GoBack(s.step)
    ensures e.Select? ==> GetSingle(t.next.form, e.single) == Some(e.value)
                          && OthersUnchanged(s.form, t.next.form, Single(e.single))
                          && t.next.step == GoNext(s.step)
    ensures e.ToggleChoice? ==> GetList(t.next.form, e.list) == MultiSelect.Toggle(GetList(s.form, e.list), e.value)
                                && OthersUnchanged(s.form, t.next.form, List(e.list))
                                && t.next.step == s.step
    ensures e.Edit? ==> GetText(t.next.form, e.text) == e.value
                        && OthersUnchanged(s.form, t.next.form, Text(e.text))
                        && t.next.step == s.step
    ensures e.FetchSettled? ==> !t.next.isSubmitting
                                && (t.next.isSubmitted <==> s.isSubmitted || e.fetch.Responded?)
    ensures s.isSubmitted ==> t.next.isSubmitted
  {
    match e
    case Next => Transition(s.(step := GoNext(s.step)), [])
    case Back => Transition(s.(step := GoBack(s.step)), [])
    case Skip => Transition(s.(step := GoNext(s.step)), [])
    case Select(f, v) => Transition(s.(form := SetSingle(s.form, f, v), step := GoNext(s.step)), [])
    case ToggleChoice(f, v) =>
      Transition(s.(form := SetList(s.form, f, MultiSelect.Toggle(GetList(s.form, f), v))), [])
    case Edit(f, v) => Transition(s.(form := SetText(s.form, f, v)), [])
    case PressSubmit(cb) =>
      var b := Begin(p, s.form, cb);
      if b.AwaitingFetch? then Transition(s.(isSubmitting := true), b.effects)
      else Transition(s.(isSubmitting := false, isSubmitted := s.isSubmitted || b.submitted), b.effects)
    case FetchSettled(f) =>
      var r := Settle(f);
      Transition(s.(isSubmitting := false, isSubmitted := s.isSubmitted || r.submitted), r.effects)
  }

  // The option values each choice view renders.
  const IndustryOptions: seq<string> := ["yes", "no"]
  const BusinessTypeOptions: seq<string> :=
    ["Insurance Agency/Brokerage", "Independent Agent", "Insurance Carrier", "Other"]
  const InsuranceLineOptions: seq<string> :=
    ["Life", "Health", "Property & Casualty", "Medicare", "Commercial", "Other"]
  const ImprovementOptions: seq<string> := ["leads", "sales", "quality", "digital"]
  const LeadGenerationOptions: seq<string> :=
    ["outbound", "buying", "social", "google", "referrals", "seo", "traditional", "organic", "networking"]

  function SingleOptions(f: SingleField): seq<string>
  {
    match f
    case InsuranceIndustry => IndustryOptions
    case BusinessType => BusinessTypeOptions
  }

  function ListOptions(f: ListField): seq<string>
  {
    match f
    case InsuranceLines => InsuranceLineOptions
    case Improvements => ImprovementOptions
    case LeadGeneration => LeadGenerationOptions
  }

  /** The step whose view writes a field. */
  function SingleStep(f: SingleField): int
  {
    match f
    case InsuranceIndustry => 1
    case BusinessType => 2
  }

  function ListStep(f: ListField): int
  {
    match f
    case InsuranceLines => 3
    case Improvements => 4
    case LeadGeneration => 6
  }

  function TextStep(f: TextField): int
  {
    match f
    case AnnualRevenue => 5
    case Website => 7
    case FirstName => 8
    case LastName => 8
    case Email => 8
    case Phone => 8
  }

  /** The events the screen offers: nothing once the success screen shows;
      otherwise the controls of the current step's view, with Next and Submit
      only when their gates enable them, and the settling of a request that
      is in flight. */
  predicate Offered(p: Props, s: State, e: Event)
  {
    !s.isSubmitted &&
    match e
    case Select(f, v) => s.step == SingleStep(f) && v in SingleOptions(f)
    case ToggleChoice(f, v) => s.step == ListStep(f) && v in ListOptions(f)
    case Edit(f, _) => s.step == TextStep(f)
    case Back => 2 <= s.step <= 7
    case Skip => 5 <= s.step <= 7
    case Next => NextEnabled(s.step, s.form)
    case PressSubmit(_) => s.step == 8 && SubmitEnabled(s.form, s.isSubmitting)
    case FetchSettled(_) => s.isSubmitting
  }

  /** Every element of `xs` is one of `opts`, and none twice. */
  predicate ChosenFrom(xs: seq<string>, opts: seq<string>)
  {
    MultiSelect.NoDup(xs) && forall x :: x in xs ==> x in opts
  }

  /** What holds in every state the screen can reach. */
  predicate Inv(p: Props, s: State)
  {
    && InRange(s.step)
    && (s.form.insuranceIndustry.Some? ==> s.form.insuranceIndustry.value in IndustryOptions)
    && (s.form.businessType.Some? ==> s.form.businessType.value in BusinessTypeOptions)
    && (s.step >= 2 ==> s.form.insuranceIndustry.Some?)
    && (s.step >= 3 ==> s.form.businessType.Some?)
    && ChosenFrom(s.form.insuranceLines, InsuranceLineOptions)
    && ChosenFrom(s.form.improvements, ImprovementOptions)
    && ChosenFrom(s.form.leadGeneration, LeadGenerationOptions)
    && (s.step >= 4 ==> |s.form.insuranceLines| > 0)
    && (s.step >= 5 ==> |s.form.improvements| > 0)
    && (s.isSubmitting ==> s.step == TotalSteps && HasWebhook(p) && !s.isSubmitted)
    && (s.isSubmitted ==> s.step == TotalSteps)
  }

  lemma InitInv(p: Props)
    ensures Inv(p, Init)
  {
  }

  /** Every offered event keeps the invariant. */
  lemma {:induction false} StepKeepsInv(p: Props, s: State, e: Event)
    requires Inv(p, s) && Offered(p, s, e)
    ensures Inv(p, Step(p, s, e).next)
  {
  }

  /** Applies events in order, collecting their effects. */
  function Run(p: Props, s: State, es: seq<Event>): (t: Transition)
    ensures InRange(s.step) ==> InRange(t.next.step)
    ensures s.isSubmitted ==> t.next.isSubmitted
    decreases |es|
  {
    if es == [] then Transition(s, [])
    else
      var t0 := Step(p, s, es[0]);
      var t1 := Run(p, t0.next, es[1..]);
      Transition(t1.next, t0.effects + t1.effects)
  }

  /** Each event of `es` is offered in the state it is applied to. */
  predicate Valid(p: Props, s: State, es: seq<Event>)
    decreases |es|
  {
    es == [] || (Offered(p, s, es[0]) && Valid(p, Step(p, s, es[0]).next, es[1..]))
  }

  /** The step only goes down through Back, which steps 1 and 8 do not
      offer. */
  lemma OnlyBackGoesBack(p: Props, s: State, e: Event)
    requires Inv(p, s) && Offered(p, s, e)
    requires Step(p, s, e).next.step < s.step
    ensures e == Back && 2 <= s.step <= 7
  {
  }

  /** Once on the contact step, every offered event stays there. */
  lemma ContactStepIsLast(p: Props, s: State, e: Event)
    requires Inv(p, s) && Offered(p, s, e) && s.step == TotalSteps
    ensures Step(p, s, e).next.step == TotalSteps
  {
  }

  /** Every state reachable through offered events satisfies the invariant. */
  lemma {:induction false} RunKeepsInv(p: Props, s: State, es: seq<Event>)
    requires Inv(p, s) && Valid(p, s, es)
    ensures Inv(p, Run(p, s, es).next)
    decreases |es|
  {
    if es != [] {
      StepKeepsInv(p, s, es[0]);
      RunKeepsInv(p, Step(p, s, es[0]).next, es[1..]);
    }
  }

  lemma ReachableInv(p: Props, es: seq<Event>)
    requires Valid(p, Init, es)
    ensures Inv(p, Run(p, Init, es).next)
  {
    RunKeepsInv(p, Init, es);
  }

  /** A body the webhook receives is complete: contact fields present, both
      single choices made, at least one insurance line and improvement. */
  predicate Complete(b: Payload)
  {
    && b.firstName != "" && b.lastName != "" && b.email != "" && b.phone != ""
    && |b.customFields| == 7
    && b.customFields[0].value.Some? && b.customFields[1].value.Some?
    && b.customFields[2].value != Some("") && b.customFields[3].value != Some("")
  }

  lemma OptionsArePlain()
    ensures AllPlain(InsuranceLineOptions) && AllPlain(ImprovementOptions) && AllPlain(LeadGenerationOptions)
  {
  }

  lemma {:induction false} ChosenFromPlain(xs: seq<string>, opts: seq<string>)
    requires ChosenFrom(xs, opts) && AllPlain(opts)
    ensures AllPlain(xs)
  {
    forall i | 0 <= i < |xs|
      ensures Plain(xs[i])
    {
      assert xs[i] in xs;
      var j :| 0 <= j < |opts| && opts[j] == xs[i];
    }
  }

  /** A request sent from a reachable state carries a complete body from
      which the list answers can be read back. */
  lemma {:induction false} PostedBodyComplete(p: Props, s: State, e: Event)
    requires Inv(p, s) && Offered(p, s, e)
    ensures forall x :: x in Step(p, s, e).effects && x.PostJson? ==>
              && x == PostJson(p.webhookUrl, Build(s.form))
              && Complete(x.body)
              && SplitJoined(x.body.customFields[2].value.value) == s.form.insuranceLines
              && SplitJoined(x.body.customFields[3].value.value) == s.form.improvements
              && var v := x.body.customFields[5].value.value;
                 (if v == LeadGenerationDefault then [] else SplitJoined(v)) == s.form.leadGeneration
  {
    if e.PressSubmit? {
      var b := Begin(p, s.form, e.callback);
      if b.AwaitingFetch? {
        OptionsArePlain();
        ChosenFromPlain(s.form.insuranceLines, InsuranceLineOptions);
        ChosenFromPlain(s.form.improvements, ImprovementOptions);
        ChosenFromPlain(s.form.leadGeneration, LeadGenerationOptions);
        assert LeadGenerationDefault !in LeadGenerationOptions;
        assert LeadGenerationDefault !in s.form.leadGeneration;
        ListAnswersRecoverable(s.form);
        var body := Build(s.form);
        assert Join(s.form.insuranceLines) != "" by {
          assert SplitJoined(body.customFields[2].value.value) == s.form.insuranceLines;
        }
        assert Join(s.form.improvements) != "" by {
          assert SplitJoined(body.customFields[3].value.value) == s.form.improvements;
        }
        assert forall x :: x in b.effects && x.PostJson? ==> x == PostJson(p.webhookUrl, body) by {
          var called := if p.hasCallback then [InvokeCallback(s.form)] else [];
          assert b.effects == called + [PostJson(p.webhookUrl, body)];
        }
      }
    }
  }

  /** While a request is in flight, nothing the screen offers sends another. */
  lemma NoSecondPostInFlight(p: Props, s: State, e: Event)
    requires Inv(p, s) && s.isSubmitting && Offered(p, s, e)
    ensures forall x :: x in Step(p, s, e).effects ==> !x.PostJson?
  {
  }

  /** Pressing Submit and, if a request was sent, letting it settle, is the
      whole submit handler: same effects, same outcome, and the submitting
      flag is down again on every path. */
  lemma {:induction false} SubmitMatchesHandler(p: Props, s: State, cb: CallbackOutcome, f: FetchOutcome)
    requires Inv(p, s) && Offered(p, s, PressSubmit(cb))
    ensures var t1 := Step(p, s, PressSubmit(cb));
            var t := if t1.next.isSubmitting then Run(p, s, [PressSubmit(cb), FetchSettled(f)]) else t1;
            && !t.next.isSubmitting
            && t.next.isSubmitted == HandleSubmit(p, s.form, cb, f).submitted
            && t.effects == HandleSubmit(p, s.form, cb, f).effects
            && t.next.step == s.step && t.next.form == s.form
  {
    var t1 := Step(p, s, PressSubmit(cb));
    if t1.next.isSubmitting {
      var es := [PressSubmit(cb), FetchSettled(f)];
      assert es[1..] == [FetchSettled(f)];
      var t2 := Step(p, t1.next, FetchSettled(f));
      assert Run(p, t1.next, es[1..]) == Transition(t2.next, t2.effects + []);
    }
  }

  /** A typed answer survives a skip: the step advances and the payload
      carries what was typed. */
  lemma TypedThenSkipped(p: Props, s: State, v: string)
    requires s.step == 5 && v != ""
    ensures var s' := Step(p, Step(p, s, Edit(AnnualRevenue, v)).next, Skip).next;
            s'.step == 6 && Build(s'.form).customFields[4].value == Some(v)
  {
  }
}
