/** Where the three threads can be relative to one another, in every run. */
module LifecycleControl {
  import opened Lifecycle

  predicate PastReturn(l: Loop) {
    l.Reporting? || l.DrainTop? || l.DrainTake? || l.DrainApply? || l.DrainWait? || l.LoopDone?
    || l.PanicSend? || l.PanicClose? || l.PanicTake?
    || (l.Settling? && (l.after.DrainAgain? || l.after.DrainOver? || l.after.PanicClosed?))
  }

  predicate InPanic(l: Loop) {
    l.PanicNote? || l.PanicSend? || l.PanicClose? || l.PanicTake?
    || (l.Settling? && (l.after.Unwound? || l.after.PanicClosed?))
  }

  predicate SeenClosed(l: Loop) {
    l.LoopDone? || l.PanicTake?
    || ((l.DrainTake? || l.DrainApply?) && l.sawClosed)
    || (l.Settling? && (l.after.DrainOver? || l.after.PanicClosed?))
  }

  predicate Swept(l: Loop) {
    l.LoopDone? || (l.DrainApply? && l.sawClosed)
    || (l.Settling? && (l.after.DrainOver? || l.after.PanicClosed?))
  }

  predicate PastSession(c: Composer) {
    c.CloseFlag? || c.CloseTake? || c.CloseSettle? || c.JoinLoop? || c.ComposerDone?
  }

  predicate PastClose(c: Composer) {
    c.CloseTake? || c.CloseSettle? || c.JoinLoop? || c.ComposerDone?
  }

  /** Where the composer and the session can be relative to one another. */
  ghost predicate Outer(s: State) {
    && (s.unmounted <==> !s.composer.AwaitTrigger? && !s.composer.Unmounting?)
    && (!s.composer.AwaitTrigger? || s.triggers > 0 || s.session.Sending? || s.session.SessionDone? ==> s.stop)
    && (!s.session.Serving? ==> s.live == {} && s.dirty == 0)
    && (PastSession(s.composer) ==> s.session.SessionDone?)
    && (PastClose(s.composer) ==> s.closed)
    && (s.closed && !s.panicked ==> PastClose(s.composer))
  }

  /** Where the loop can be. */
  ghost predicate Inner(s: State) {
    && (PastReturn(s.loop) ==> s.stop)
    && (InPanic(s.loop) ==> s.panicked)
    && (s.panicked ==> InPanic(s.loop) || s.loop.LoopDone?)
    && (SeenClosed(s.loop) ==> s.closed)
    && (Swept(s.loop) ==> s.deferred == [] && s.pending == [])
    && (s.loop.Applying? ==> s.deferred == [])
  }

  ghost predicate Control(s: State) {
    Outer(s) && Inner(s)
  }

  // ---- steps

  lemma ServingMeansOpen(s: State)
    requires Outer(s) && s.session.Serving?
    ensures s.closed ==> s.panicked
  {
  }

  lemma SubmitControl(s: State)
    requires Control(s) && s.session.Serving?
    ensures Control(Submit(s))
  {
  }

  lemma FlushControl(s: State)
    requires Control(Submit(s)) && s.session.Serving? && s.dirty > 0
    ensures Control(SessionStep(s, Flush))
  {
  }

  lemma SessionControl(s: State, a: SessionAct)
    requires Control(s) && SessionCan(s, a) && !a.Operate? && !a.Flush?
    ensures Control(SessionStep(s, a))
  {
  }

  lemma ComposerControl(s: State, a: ComposerAct)
    requires Control(s) && ComposerCan(s, a) && !a.CompleteStray?
    requires a.TakeStrays? ==> s.deferred == [] && s.pending == []
    ensures Control(ComposerStep(s, a))
  {
  }

  lemma PassControl(s: State, a: PassAct)
    requires Control(s) && PassCan(s, a)
    ensures Control(PassStep(s, a))
  {
  }

  lemma SweepControl(s: State, a: DrainAct)
    requires Control(s) && DrainCan(s, a) && (a.DrainTakes? || a.DrainApplies? || a.DrainFails?)
    ensures Control(DrainStep(s, a))
  {
  }

  lemma DrainControl(s: State, a: DrainAct)
    requires Control(s) && DrainCan(s, a)
    ensures Control(DrainStep(s, a))
  {
    if a.DrainTakes? || a.DrainApplies? || a.DrainFails? {
      SweepControl(s, a);
    }
  }

  lemma SettleControl(s: State, a: SettleAct)
    requires Control(s) && SettleCan(s, a)
    requires a.CompleteHead? ==> s.session.Serving?
    ensures Control(SettleStep(s, a))
  {
  }

  // ---- what stays: the latch, and the loop's return

  predicate Late(s: State) {
    PastReturn(s.loop) || s.panicked
  }

  /** What later states keep of `s`. */
  ghost predicate Stays(s: State, t: State) {
    (s.stop ==> t.stop) && (s.unmounted ==> t.unmounted) && (Late(s) ==> Late(t))
  }

  /** What every thread but the composer leaves alone. */
  ghost predicate Apart(s: State, t: State) {
    t.composer == s.composer && t.unmounted == s.unmounted
  }

  lemma SubmitStays(s: State, t: State)
    requires t == Submit(s)
    ensures t.stop == s.stop && t.loop == s.loop && t.panicked == s.panicked && t.how == s.how
    ensures Apart(s, t)
  {
  }

  lemma SessionStays(s: State, a: SessionAct)
    requires SessionCan(s, a)
    ensures Apart(s, SessionStep(s, a)) && Stays(s, SessionStep(s, a)) && SessionStep(s, a).how == s.how
  {
    if a.Operate? || a.Flush? {
      SubmitStays(s, Submit(s));
    }
  }

  lemma ComposerStays(s: State, a: ComposerAct)
    requires ComposerCan(s, a)
    ensures Stays(s, ComposerStep(s, a)) && ComposerStep(s, a).how == s.how
    ensures a.Trip? ==> Apart(s, ComposerStep(s, a))
  {
  }

  lemma PassStays(s: State, a: PassAct)
    requires PassCan(s, a)
    ensures Apart(s, PassStep(s, a)) && Stays(s, PassStep(s, a))
  {
  }

  lemma DrainStays(s: State, a: DrainAct)
    requires DrainCan(s, a)
    ensures Apart(s, DrainStep(s, a)) && Stays(s, DrainStep(s, a))
  {
  }

  lemma SettleStays(s: State, a: SettleAct)
    requires SettleCan(s, a)
    ensures Apart(s, SettleStep(s, a)) && Stays(s, SettleStep(s, a)) && SettleStep(s, a).how == s.how
  {
  }

  lemma StepStays(s: State, a: Act)
    requires Can(s, a)
    ensures Stays(s, Step(s, a))
    ensures !a.ByComposer? || a.composer.Trip? ==> Apart(s, Step(s, a))
  {
    match a {
      case BySession(b) => SessionStays(s, b);
      case ByPass(b) => PassStays(s, b);
      case ByDrain(b) => DrainStays(s, b);
      case BySettle(b) => SettleStays(s, b);
      case ByComposer(b) => ComposerStays(s, b);
    }
  }

  lemma {:induction false} RunStays(states: seq<State>, acts: seq<Act>, i: nat, j: nat)
    requires Run(states, acts) && i <= j < |states|
    ensures Stays(states[i], states[j])
  {
    if i < j {
      RunStays(states, acts, i, j - 1);
      var a := acts[j - 1];
      assert Moves(states[j - 1], a, states[j]);
      StepStays(states[j - 1], a);
    }
  }

  // ---- the drain's decisions

  ghost predicate DrainDecided(s: State, r: Req) {
    r in s.how && s.how[r].drained
  }

  lemma PassDecides(s: State, a: PassAct, r: Req)
    requires PassCan(s, a) && DrainDecided(PassStep(s, a), r)
    ensures DrainDecided(s, r)
  {
  }

  /** Only the drain makes the drain's decisions. */
  lemma DrainedBy(s: State, a: Act, r: Req)
    requires Can(s, a) && DrainDecided(Step(s, a), r)
    ensures DrainDecided(s, r) || Late(s)
  {
    match a {
      case BySession(b) => SessionStays(s, b);
      case ByPass(b) => PassDecides(s, b, r);
      case ByDrain(b) =>
      case BySettle(b) => SettleStays(s, b);
      case ByComposer(b) => ComposerStays(s, b);
    }
  }

  /** A decision the drain made was made after the loop's return. */
  lemma {:induction false} DrainDecidesLate(states: seq<State>, acts: seq<Act>, i: nat, r: Req)
    requires Run(states, acts) && i < |states| && DrainDecided(states[i], r)
    ensures Late(states[i])
  {
    if i > 0 {
      var s, a := states[i - 1], acts[i - 1];
      assert Moves(s, a, states[i]);
      DrainedBy(s, a, r);
      if DrainDecided(s, r) {
        DrainDecidesLate(states, acts, i - 1, r);
      }
      StepStays(s, a);
    }
  }
}
