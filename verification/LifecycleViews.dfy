/** What each step does to the books. */
module LifecycleViews {
  import opened Lifecycle
  import opened LifecycleControl
  import opened LifecycleBooks

  lemma RefusedView(s: State, a: Answer)
    requires if s.closed then a == Shutdown else |s.live| >= s.limit && a == Saturated
    ensures View(Submit(s)) == RefusedBooks(View(s), a)
  {
  }

  lemma AdmittedView(s: State)
    requires !s.closed && |s.live| < s.limit
    ensures View(Submit(s)) == AdmittedBooks(View(s))
  {
    assert Todo(s.loop) + Queued(Submit(s)) == View(s).upcoming + [s.next];
  }

  lemma SubmitView(s: State)
    requires s.closed ==> s.panicked
    requires Balanced(View(s))
    ensures Balanced(View(Submit(s)))
  {
    if s.closed {
      RefusedView(s, Shutdown);
      Refuse(View(s), Shutdown);
    } else if |s.live| >= s.limit {
      RefusedView(s, Saturated);
      Refuse(View(s), Saturated);
    } else {
      AdmittedView(s);
      Admit(View(s));
    }
  }

  lemma SessionView(s: State, a: SessionAct)
    requires SessionCan(s, a)
    ensures View(SessionStep(s, a)) == if a.Operate? || a.Flush? then View(Submit(s)) else View(s)
  {
  }

  /** The session join bounds every submitter, so the close finds no stray. */
  lemma NoStrays(s: State)
    requires Outer(s) && Accounted(View(s)) && PastSession(s.composer)
    ensures s.deferred == [] && s.pending == [] && ComposerOwed(s.composer) == []
  {
    NothingHeld(View(s));
    assert Queued(s) == [];
  }

  lemma ComposerView(s: State, a: ComposerAct)
    requires Outer(s) && Accounted(View(s)) && ComposerCan(s, a)
    ensures !a.CompleteStray?
    ensures View(ComposerStep(s, a)) == View(s)
    ensures a.TakeStrays? ==> s.deferred == [] && s.pending == []
  {
    if PastSession(s.composer) {
      NoStrays(s);
    }
  }

  lemma TakenView(s: State, l: Loop)
    requires Todo(s.loop) == [] && LoopOwed(s.loop) == [] && Todo(l) == Queued(s) && LoopOwed(l) == []
    ensures View(Drained(s).(loop := l)) == View(s)
  {
    var t := Drained(s).(loop := l);
    assert Todo(s.loop) + Queued(s) == Queued(s);
    assert Todo(t.loop) + Queued(t) == Queued(s);
  }

  predicate Quiet(a: PassAct) {
    !a.Apply? && !a.Defer? && !a.TakeBatch?
  }

  lemma PassView(s: State, a: PassAct)
    requires PassCan(s, a) && Quiet(a)
    ensures View(PassStep(s, a)) == View(s)
  {
  }

  lemma DrainView(s: State, a: DrainAct)
    requires DrainCan(s, a) && !a.DrainTakes? && !a.DrainApplies? && !a.DrainFails?
    ensures View(DrainStep(s, a)) == View(s)
  {
  }

  lemma DrainTakesView(s: State)
    requires DrainCan(s, DrainTakes)
    ensures View(DrainStep(s, DrainTakes)) == View(s)
  {
    if Queued(s) != [] {
      TakenView(s, DrainApply([], Queued(s), s.loop.sawClosed));
    }
  }

  /** Deciding the first held entry `r`, whichever of the two sweeps holds it. */
  lemma DecideView(s: State, drained: bool, l: Loop, r: Req, a: Answer)
    requires Todo(s.loop) != [] && r == Todo(s.loop)[0]
    requires Todo(l) == Todo(s.loop)[1..] && LoopOwed(l) == LoopOwed(s.loop) + [Verdict(r, a)]
    ensures View(s).upcoming != [] && View(s).upcoming[0] == r
    ensures View(Decide(s, r, drained).(loop := l)) == DecidedBooks(View(s), r, drained, a)
  {
    assert View(s).upcoming[1..] == Todo(s.loop)[1..] + Queued(s);
  }

  lemma DecideKeeps(s: State, drained: bool, l: Loop, r: Req, a: Answer)
    requires Todo(s.loop) != [] && r == Todo(s.loop)[0] && Balanced(View(s))
    requires Todo(l) == Todo(s.loop)[1..] && LoopOwed(l) == LoopOwed(s.loop) + [Verdict(r, a)]
    requires a == Outcome(Finding(s, r)) && (Finding(s, r) == Lacking ==> drained)
    ensures Balanced(View(Decide(s, r, drained).(loop := l)))
  {
    DecideView(s, drained, l, r, a);
    DecideNext(View(s), drained, a);
  }

  lemma ApplyView(s: State)
    requires PassCan(s, Apply) && Balanced(View(s))
    ensures Balanced(View(PassStep(s, Apply)))
  {
    var r := s.loop.todo[0];
    var a := Outcome(Finding(s, r));
    DecideKeeps(s, false, Applying(s.loop.done + [Verdict(r, a)], s.loop.todo[1..]), r, a);
  }

  function SweptLoop(s: State): Loop
    requires s.loop.DrainApply? && s.loop.todo != []
  {
    var r := s.loop.todo[0];
    DrainApply(s.loop.done + [Verdict(r, Outcome(Finding(s, r)))], s.loop.todo[1..], s.loop.sawClosed)
  }

  lemma SweepStep(s: State, d: DrainAct)
    requires DrainCan(s, d) && (d.DrainApplies? || d.DrainFails?)
    ensures DrainStep(s, d) == Decide(s, s.loop.todo[0], true).(loop := SweptLoop(s))
  {
  }

  lemma SweepView(s: State, d: DrainAct)
    requires DrainCan(s, d) && (d.DrainApplies? || d.DrainFails?) && Balanced(View(s))
    ensures Balanced(View(DrainStep(s, d)))
  {
    SweepStep(s, d);
    DecideKeeps(s, true, SweptLoop(s), s.loop.todo[0], Outcome(Finding(s, s.loop.todo[0])));
  }

  lemma DeferView(s: State)
    requires PassCan(s, Defer) && s.deferred == []
    ensures View(PassStep(s, Defer)) == View(s).(evaluations := s.evaluations + 1)
  {
    var t := PassStep(s, Defer);
    assert Todo(t.loop) + Queued(t) == Todo(s.loop) + Queued(s);
  }

  lemma HoldView(s: State, b: Books, c: Books)
    requires PassCan(s, Defer) && s.deferred == [] && b == View(s) && Balanced(b) && c == View(PassStep(s, Defer))
    ensures Balanced(c)
  {
    DeferView(s);
    Evaluated(b);
  }

  lemma CompleteView(s: State)
    requires SettleCan(s, CompleteHead)
    ensures View(s).owed != [] && View(SettleStep(s, CompleteHead)) == CompletedBooks(View(s))
  {
  }

  lemma SettleView(s: State, a: SettleAct)
    requires SettleCan(s, a) && (a.EndSettle? || a.NotePanic? || a.SendPanic? || a.ClosePanic?)
    ensures View(SettleStep(s, a)) == View(s)
  {
  }

  lemma PanicView(s: State)
    requires SettleCan(s, Panic)
    ensures View(s).upcoming == Todo(s.loop) + Queued(s)
    ensures View(SettleStep(s, Panic)) == AbandonedBooks(View(s), Todo(s.loop), Queued(s), FailedClosed)
  {
    var b, t := View(s), SettleStep(s, Panic);
    assert LoopOwed(t.loop) == b.owed + All(Todo(s.loop), FailedClosed);
    assert View(t).upcoming == Queued(s);
  }

  lemma TakePanicView(s: State)
    requires SettleCan(s, TakePanic) && s.panicked
    ensures View(s).upcoming == Queued(s) + []
    ensures View(SettleStep(s, TakePanic)) == AbandonedBooks(View(s), Queued(s), [], Shutdown)
  {
    var b, t := View(s), SettleStep(s, TakePanic);
    assert b.owed + All(Queued(s), Shutdown) == All(Queued(s), Shutdown);
    assert View(t).upcoming == [];
  }
}
