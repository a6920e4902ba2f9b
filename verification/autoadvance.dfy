/**
 The delayed advance after a single choice. The source schedules
 `setTimeout(goNext, 300)` on every click, and `goNext` advances whatever
 step is showing when the timer fires. The choice buttons stay on screen
 until the first timer fires, so two clicks within 300 ms schedule two
 advances and the second one skips the next step, leaving its answer unset.
 `FireAllAsWritten` models that; `FireAllCorrected` lets a timer advance
 only from the step its click was made on, which is what the reducer
 `Wizard.Step` does by advancing at once.
 */
module AutoAdvance {
  import opened Form
  import opened Navigation
  import Wizard
  import Submission

  /** The screen while auto-advance timers are pending: `pending` holds, oldest
      first, the step each pending timer was scheduled from. */
  datatype Screen = Screen(step: int, form: FormData, pending: seq<int>)

  /** A click on a choice: the field is written at once, the advance is
      scheduled. */
  function Click(sc: Screen, f: SingleField, v: string): (r: Screen)
    ensures GetSingle(r.form, f) == Some(v) && OthersUnchanged(sc.form, r.form, Single(f))
    ensures r.step == sc.step && r.pending == sc.pending + [sc.step]
  {
    Screen(sc.step, SetSingle(sc.form, f, v), sc.pending + [sc.step])
  }

  /** Several clicks on the same view before any timer fires. */
  function Clicks(sc: Screen, f: SingleField, vs: seq<string>): (r: Screen)
    requires vs != []
    ensures r.step == sc.step
    ensures r.pending == sc.pending + seq(|vs|, _ => sc.step)
    ensures r.form == SetSingle(sc.form, f, vs[|vs| - 1])
    decreases |vs|
  {
    if |vs| == 1 then Click(sc, f, vs[0])
    else
      var r := Clicks(Click(sc, f, vs[0]), f, vs[1..]);
      assert sc.pending + [sc.step] + seq(|vs| - 1, _ => sc.step) == sc.pending + seq(|vs|, _ => sc.step);
      SetSingleLastWins(sc.form, f, vs[0], vs[|vs| - 1]);
      r
  }

  /** As written: every pending timer runs `goNext`, oldest first. */
  function FireAllAsWritten(sc: Screen): (r: Screen)
    ensures r.pending == [] && r.form == sc.form
    decreases |sc.pending|
  {
    if sc.pending == [] then sc
    else FireAllAsWritten(Screen(GoNext(sc.step), sc.form, sc.pending[1..]))
  }

  /** Corrected: a timer advances only if the step it was scheduled from is
      still showing. */
  function FireAllCorrected(sc: Screen): (r: Screen)
    ensures r.pending == [] && r.form == sc.form
    decreases |sc.pending|
  {
    if sc.pending == [] then sc
    else
      var origin := sc.pending[0];
      FireAllCorrected(Screen(if sc.step == origin then GoNext(origin) else sc.step, sc.form, sc.pending[1..]))
  }

  /** As written, the timers advance once each: n pending timers are n forward
      moves. */
  lemma {:induction false} AsWrittenAdvancesPerTimer(sc: Screen)
    ensures FireAllAsWritten(sc).step == Moves(sc.step, seq(|sc.pending|, _ => true))
    decreases |sc.pending|
  {
    if sc.pending != [] {
      assert seq(|sc.pending|, _ => true)[1..] == seq(|sc.pending| - 1, _ => true);
      AsWrittenAdvancesPerTimer(Screen(GoNext(sc.step), sc.form, sc.pending[1..]));
    }
  }

  /** The discrepancy: answering "yes" then "no" on step 1 within 300 ms lands
      on step 3 without a business type ever being chosen. */
  lemma DoubleClickSkipsStep()
    ensures var sc := FireAllAsWritten(Clicks(Screen(1, Empty, []), InsuranceIndustry, ["yes", "no"]));
            sc.step == 3 && sc.form.businessType == None
            && !Wizard.Inv(Submission.Props(false, ""), Wizard.State(sc.step, sc.form, false, false))
  {
    var sc := Clicks(Screen(1, Empty, []), InsuranceIndustry, ["yes", "no"]);
    AsWrittenAdvancesPerTimer(sc);
    ForwardReachesLast(1, 2);
  }

  /** Once the step has moved past `origin`, timers from `origin` do nothing. */
  lemma {:induction false} StaleTimersIgnored(st: int, form: FormData, origin: int, n: nat)
    requires st == GoNext(origin)
    ensures FireAllCorrected(Screen(st, form, seq(n, _ => origin))).step == st
    decreases n
  {
    if n > 0 {
      assert seq(n, _ => origin)[1..] == seq(n - 1, _ => origin);
      StaleTimersIgnored(st, form, origin, n - 1);
    }
  }

  /** Corrected: any burst of clicks on a choice advances exactly one step and
      keeps the last answer, which is the reducer's single immediate advance. */
  lemma CorrectedAdvancesOnce(p: Submission.Props, s: Wizard.State, f: SingleField, vs: seq<string>)
    requires vs != []
    ensures var sc := FireAllCorrected(Clicks(Screen(s.step, s.form, []), f, vs));
            var t := Wizard.Step(p, s, Wizard.Select(f, vs[|vs| - 1])).next;
            sc.step == GoNext(s.step) == t.step && sc.form == t.form
  {
    var sc := Clicks(Screen(s.step, s.form, []), f, vs);
    assert sc.pending == seq(|vs|, _ => s.step);
    assert sc.pending[1..] == seq(|vs| - 1, _ => s.step);
    StaleTimersIgnored(GoNext(s.step), sc.form, s.step, |vs| - 1);
  }
}
