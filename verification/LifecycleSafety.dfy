/** What every interleaving of session, loop and composer keeps. */
module LifecycleSafety {
  import opened Lifecycle
  import opened LifecycleControl
  import opened LifecycleBooks
  import opened LifecycleViews

  ghost predicate Inv(s: State) {
    Control(s) && Balanced(View(s))
  }

  // ---- steps

  lemma SubmitKeeps(s: State)
    requires Inv(s) && s.session.Serving?
    ensures Inv(Submit(s))
  {
    SubmitControl(s);
    ServingMeansOpen(s);
    SubmitView(s);
  }

  lemma SessionKeeps(s: State, a: SessionAct)
    requires Inv(s) && SessionCan(s, a)
    ensures Inv(SessionStep(s, a))
  {
    SessionView(s, a);
    if a.Operate? {
      SubmitKeeps(s);
    } else if a.Flush? {
      SubmitKeeps(s);
      FlushControl(s);
    } else {
      SessionControl(s, a);
    }
  }

  lemma ComposerKeeps(s: State, a: ComposerAct)
    requires Inv(s) && ComposerCan(s, a)
    ensures Inv(ComposerStep(s, a))
  {
    ComposerView(s, a);
    ComposerControl(s, a);
  }

  lemma PassBalanced(s: State, a: PassAct)
    requires Inner(s) && Balanced(View(s)) && PassCan(s, a)
    ensures Balanced(View(PassStep(s, a)))
  {
    if a.Apply? {
      ApplyView(s);
    } else if a.Defer? {
      HoldView(s, View(s), View(PassStep(s, Defer)));
    } else if a.TakeBatch? {
      TakenView(s, Applying([], Queued(s)));
    } else {
      PassView(s, a);
    }
  }

  lemma PassKeeps(s: State, a: PassAct)
    requires Inv(s) && PassCan(s, a)
    ensures Inv(PassStep(s, a))
  {
    PassControl(s, a);
    PassBalanced(s, a);
  }

  lemma DrainBalanced(s: State, a: DrainAct)
    requires Balanced(View(s)) && DrainCan(s, a)
    ensures Balanced(View(DrainStep(s, a)))
  {
    if a.DrainTakes? {
      DrainTakesView(s);
    } else if a.DrainApplies? || a.DrainFails? {
      SweepView(s, a);
    } else {
      DrainView(s, a);
    }
  }

  lemma DrainKeeps(s: State, a: DrainAct)
    requires Inv(s) && DrainCan(s, a)
    ensures Inv(DrainStep(s, a))
  {
    DrainControl(s, a);
    DrainBalanced(s, a);
  }

  lemma OwingMeansServing(s: State)
    requires Outer(s) && Accounted(View(s)) && LoopOwed(s.loop) != []
    ensures s.session.Serving?
  {
    if s.live == {} {
      NothingHeld(View(s));
    }
  }

  lemma SettleBalanced(s: State, a: SettleAct)
    requires Inner(s) && Balanced(View(s)) && SettleCan(s, a)
    ensures Balanced(View(SettleStep(s, a)))
  {
    if a.CompleteHead? {
      CompleteView(s);
      CompleteFirst(View(s));
    } else if a.Panic? {
      PanicView(s);
      Abandon(View(s), Todo(s.loop), Queued(s), FailedClosed);
    } else if a.TakePanic? {
      TakePanicView(s);
      Abandon(View(s), Queued(s), [], Shutdown);
    } else {
      SettleView(s, a);
    }
  }

  lemma SettleKeeps(s: State, a: SettleAct)
    requires Inv(s) && SettleCan(s, a)
    ensures Inv(SettleStep(s, a))
  {
    if a.CompleteHead? {
      OwingMeansServing(s);
    }
    SettleControl(s, a);
    SettleBalanced(s, a);
  }

  // ---- runs

  lemma StepKeeps(s: State, a: Act)
    requires Inv(s) && Can(s, a)
    ensures Inv(Step(s, a))
  {
    match a {
      case BySession(b) => SessionKeeps(s, b);
      case ByPass(b) => PassKeeps(s, b);
      case ByDrain(b) => DrainKeeps(s, b);
      case BySettle(b) => SettleKeeps(s, b);
      case ByComposer(b) => ComposerKeeps(s, b);
    }
  }

  lemma StartKeeps(limit: nat, evaluate: (nat, Req) -> Evaluation)
    ensures Inv(Start(limit, evaluate))
  {
    assert View(Start(limit, evaluate)).upcoming == [];
  }

  /** Every state of every run keeps its accounts. */
  lemma {:induction false} RunKeeps(states: seq<State>, acts: seq<Act>, i: nat)
    requires Run(states, acts) && i < |states|
    ensures Inv(states[i])
  {
    if i == 0 {
      StartKeeps(states[0].limit, states[0].evaluate);
    } else {
      RunKeeps(states, acts, i - 1);
      var a := acts[i - 1];
      StepKeeps(states[i - 1], a);
    }
  }

  /** Unmount-time commits are never lost to the shutdown. Without a loop panic no
      submission is ever answered `Shutdown`. Every admitted one that hears its answer was
      decided, and hears what that came to: applied exactly when it ran, and refused over
      missing content exactly when the drain after the loop's return met it so. */
  lemma ShutdownPreserves(states: seq<State>, acts: seq<Act>, i: nat, r: Req)
    requires Run(states, acts) && i < |states| && !states[i].panicked
    requires r in states[i].answers && states[i].answers[r] != Saturated
    ensures var s := states[i];
            && s.answers[r] != Shutdown
            && r in s.log && r in s.how
            && var e := s.evaluate(s.how[r].at, r);
            && s.answers[r] == Outcome(e)
            && (s.answers[r] == Applied <==> e == Ran)
            && (e == Lacking ==> s.how[r].drained)
  {
    RunKeeps(states, acts, i);
    assert Explains(View(states[i]), r, states[i].answers[r]);
  }

  lemma LogIsOrdered(s: State, k: nat, r: Req)
    requires Inv(s) && k < |s.log|
    ensures forall j :: k < j < |s.log| ==> s.log[k] < s.log[j]
    ensures r in s.pending || r in s.deferred ==> s.log[k] < r
  {
    var line := s.log + View(s).upcoming;
    assert forall j | 0 <= j < |s.log| :: line[j] == s.log[j];
    if r in s.pending || r in s.deferred {
      assert r in View(s).upcoming;
      var j :| 0 <= j < |View(s).upcoming| && View(s).upcoming[j] == r;
      assert line[|s.log| + j] == r;
    }
  }

  /** Mutations take effect in submission order across batches, deferrals and the
      teardown drain, and every undecided one is later than every decided one. */
  lemma MutationsStayOrdered(states: seq<State>, acts: seq<Act>, i: nat, k: nat, r: Req)
    requires Run(states, acts) && i < |states| && k < |states[i].log|
    ensures forall j :: k < j < |states[i].log| ==> states[i].log[k] < states[i].log[j]
    ensures r in states[i].pending || r in states[i].deferred ==> states[i].log[k] < r
  {
    RunKeeps(states, acts, i);
    LogIsOrdered(states[i], k, r);
  }

  /** When all three threads are joined every submitter has its answer. */
  lemma NobodyStranded(states: seq<State>, acts: seq<Act>, i: nat, r: Req)
    requires Run(states, acts) && i < |states| && Finished(states[i])
    ensures states[i].live == {}
    ensures r < states[i].next ==> r in states[i].answers
  {
    RunKeeps(states, acts, i);
  }

  // ---- progress

  /** The drain has nothing to do and admission is open. */
  predicate Resting(s: State) {
    && (s.loop.DrainTop? || s.loop.DrainTake? || s.loop.DrainWait?)
    && Queued(s) == [] && !s.closed
  }

  /** A turn of the resting drain: poll, look, park. */
  predicate Idle(s: State, a: Act) {
    Resting(s) && a.ByDrain? && (a.drain.DrainPolls? || a.drain.CheckClosed? || a.drain.DrainTakes?)
  }

  /** Steps that need nothing from outside: no new work, no signal, no fault, no session
      ending of its own accord; and that are more than a turn of the resting drain. */
  predicate Helpful(s: State, a: Act) {
    match a
    case BySession(b) => b.NoteEnded? || b.SendEnded? || (s.unmounted && (b.Flush? || b.End?))
    case ByPass(_) => true
    case ByDrain(_) => !Idle(s, a)
    case BySettle(b) => !b.Panic?
    case ByComposer(b) => !b.Trip?
  }

  /** What the loop thread can do when it is neither resting nor done. */
  function LoopChoice(s: State): Act {
    match s.loop
    case LoopTop => ByPass(CheckStop)
    case Passing => ByPass(TakeBatch)
    case Applying(_, todo) =>
      ByPass(if todo == [] then EndBatch else if Finding(s, todo[0]) == Lacking then Defer else Apply)
    case Settling(owed, _) => BySettle(if owed == [] then EndSettle(false) else CompleteHead)
    case Idling => ByPass(Wake)
    case Returning => ByPass(NoteReturned)
    case Reporting => ByDrain(SendReturned)
    case DrainTop => ByDrain(CheckClosed)
    case DrainTake(_) => ByDrain(DrainTakes)
    case DrainApply(_, todo, _) =>
      ByDrain(if todo == [] then DrainEnds else if Finding(s, todo[0]) == Lacking then DrainFails else DrainApplies)
    case DrainWait => ByDrain(DrainWakes)
    case PanicNote => BySettle(NotePanic)
    case PanicSend => BySettle(SendPanic)
    case PanicClose => BySettle(ClosePanic)
    case PanicTake => BySettle(TakePanic)
    case LoopDone => ByPass(CheckStop)
  }

  /** What the composer does next. */
  function ComposerChoice(c: Composer): ComposerAct {
    match c
    case AwaitTrigger => Trigger
    case Unmounting => Unmount
    case JoinSession => ReapSession
    case CloseFlag => Close
    case CloseTake => TakeStrays
    case CloseSettle(_) => Closed
    case JoinLoop => ReapLoop
    case ComposerDone => ReapLoop
  }

  /** The three threads, and the signal handler's own step. */
  datatype Thread = SessionThread | LoopThread | ComposerThread | Signal

  function ThreadOf(a: Act): Thread {
    match a
    case BySession(_) => SessionThread
    case ByPass(_) => LoopThread
    case ByDrain(_) => LoopThread
    case BySettle(_) => LoopThread
    case ByComposer(b) => if b.Trip? then Signal else ComposerThread
  }

  /** Whose turn it is: the composer's up to the unmount, then the loop's while it has
      anything to do, then the session's until it is done. */
  function Owner(s: State): Thread {
    if !s.unmounted then ComposerThread
    else if !s.loop.LoopDone? && !Resting(s) then LoopThread
    else if !s.session.SessionDone? then SessionThread
    else ComposerThread
  }

  /** The loop is done or resting: nobody is blocked. */
  lemma ParkedMeansIdle(s: State)
    requires Control(s) && Accounted(View(s))
    requires s.loop.LoopDone? || Resting(s)
    ensures s.live == {}
  {
    if !s.session.Serving? {
      return;
    }
    assert View(s).upcoming == [] && View(s).owed == [] && View(s).strays == [];
    assert |multiset(s.live)| == |s.live|;
  }

  lemma LoopHelps(s: State)
    requires !s.loop.LoopDone? && !Resting(s)
    ensures Can(s, LoopChoice(s)) && Helpful(s, LoopChoice(s))
  {
  }

  lemma Helper(s: State) returns (a: Act)
    requires Inv(s) && !Finished(s)
    ensures Can(s, a) && Helpful(s, a)
    ensures s.unmounted ==> ThreadOf(a) == Owner(s)
  {
    if !s.loop.LoopDone? && !Resting(s) {
      LoopHelps(s);
      return LoopChoice(s);
    }
    // The loop has reported, so the latch is set and the composer can go on to unmount.
    if !s.unmounted {
      return ByComposer(ComposerChoice(s.composer));
    }
    ParkedMeansIdle(s);
    match s.session {
      case Serving => return BySession(if s.dirty > 0 then Flush else End);
      case Ending => return BySession(NoteEnded);
      case Sending => return BySession(SendEnded);
      case SessionDone =>
        NothingHeld(View(s));
        a := ByComposer(ComposerChoice(s.composer));
    }
  }

  /** The threads never wait on one another for good: short of all three being done,
      some thread can take a step that needs nothing from outside, with or without a
      loop panic. */
  lemma NeverStuck(states: seq<State>, acts: seq<Act>, i: nat)
    requires Run(states, acts) && i < |states| && !Finished(states[i])
    ensures exists a :: Can(states[i], a) && Helpful(states[i], a)
  {
    RunKeeps(states, acts, i);
    var a := Helper(states[i]);
  }

  lemma WayToUnmount(s: State)
    requires Outer(s) && s.stop && !s.unmounted
    ensures Can(s, ByComposer(ComposerChoice(s.composer)))
  {
  }

  /** The lead-in to the teardown: once the latch is set, the session has noted its end, or
      the loop is past its return or has reported its panic, the composer's next step is
      enabled in every later state until the unmount. */
  lemma TeardownBegins(states: seq<State>, acts: seq<Act>, i: nat, j: nat)
    requires Run(states, acts) && i <= j < |states|
    requires states[i].stop || PastReturn(states[i].loop) || states[i].session.Sending? || states[i].session.SessionDone?
    ensures states[j].stop
    ensures states[j].unmounted || Can(states[j], ByComposer(ComposerChoice(states[j].composer)))
  {
    RunKeeps(states, acts, i);
    RunStays(states, acts, i, j);
    RunKeeps(states, acts, j);
    if !states[j].unmounted {
      WayToUnmount(states[j]);
    }
  }
}
