/** Once the latch is set, every fair schedule of the three threads ends. */
module LifecycleTermination {
  import opened Lifecycle
  import opened LifecycleBooks
  import opened LifecycleControl
  import opened LifecycleSafety
  import opened Schedule

  /** Composer steps ahead of the unmount. */
  function Lead(c: Composer): nat {
    match c
    case AwaitTrigger => 2
    case Unmounting => 1
    case _ => 0
  }

  /** Passes ahead of the loop's return; with the stop latch set there is at most one. */
  function PassesLeft(l: Loop): nat {
    if l.Passing? then 6
    else if l.Applying? then 5
    else if l.Settling? && l.after.PassEnd? then 4
    else if l.Idling? then 3
    else if l.LoopTop? then 2
    else if l.Returning? then 1
    else 0
  }

  /** The loop's position past its return. A drain resting on an empty open queue is
      lowest wherever it is; queued work or a close raises it again. */
  function Position(l: Loop, work: bool, closed: bool): nat {
    match l
    case Reporting => 10
    case DrainApply(_, _, _) => 9
    case Settling(_, after) =>
      (match after
       case PassEnd => 0
       case DrainAgain => 8
       case DrainOver => 8
       case Unwound => 30
       case PanicClosed => 5)
    case DrainTop => if work || closed then 2 else 0
    case DrainTake(saw) => if work || (closed && saw) then 1 else if closed then 4 else 0
    case DrainWait => if work || closed then 3 else 0
    case PanicNote => 25
    case PanicSend => 20
    case PanicClose => 15
    case PanicTake => 10
    case _ => 0
  }

  function Held(l: Loop): nat {
    match l
    case Applying(done, todo) => 10 * |done| + 20 * |todo|
    case DrainApply(done, todo, _) => 10 * |done| + 20 * |todo|
    case Settling(owed, _) => 10 * |owed|
    case _ => 0
  }

  function ComposerLeft(c: Composer): nat {
    match c
    case AwaitTrigger => 80
    case Unmounting => 70
    case JoinSession => 60
    case CloseFlag => 50
    case CloseTake => 40
    case CloseSettle(owed) => 30 + 10 * |owed|
    case JoinLoop => 20
    case ComposerDone => 0
  }

  function SessionLeft(s: Session): nat {
    match s
    case Serving => 30
    case Ending => 20
    case Sending => 10
    case SessionDone => 0
  }

  function Weight(s: State): nat {
    40 * s.dirty + 30 * |Queued(s)| + Held(s.loop) + Position(s.loop, Queued(s) != [], s.closed)
    + ComposerLeft(s.composer) + SessionLeft(s.session)
  }

  function PanicsLeft(s: State): nat {
    if s.panicked then 0 else 1
  }

  /** Lexicographically: a panic still possible, passes ahead, then the weighted
      count of everything outstanding. */
  predicate Lower(t: State, s: State) {
    || PanicsLeft(t) < PanicsLeft(s)
    || (PanicsLeft(t) == PanicsLeft(s) && PassesLeft(t.loop) < PassesLeft(s.loop))
    || (PanicsLeft(t) == PanicsLeft(s) && PassesLeft(t.loop) == PassesLeft(s.loop) && Weight(t) < Weight(s))
  }

  predicate Level(t: State, s: State) {
    PanicsLeft(t) == PanicsLeft(s) && PassesLeft(t.loop) == PassesLeft(s.loop) && Weight(t) == Weight(s)
  }

  // ---- past the unmount

  lemma FlushLowers(s: State)
    requires Control(s) && SessionCan(s, Flush)
    ensures Lower(SessionStep(s, Flush), s)
  {
    if !s.closed && |s.live| < s.limit {
      assert |Queued(Submit(s))| == |Queued(s)| + 1;
    }
  }

  lemma SessionLowers(s: State, a: SessionAct)
    requires Control(s) && s.unmounted && SessionCan(s, a)
    ensures Lower(SessionStep(s, a), s)
  {
    if a.Flush? {
      FlushLowers(s);
    }
  }

  lemma ComposerLowers(s: State, a: ComposerAct)
    requires Control(s) && s.unmounted && ComposerCan(s, a)
    ensures Lower(ComposerStep(s, a), s)
  {
  }

  lemma PassLowers(s: State, a: PassAct)
    requires s.stop && PassCan(s, a)
    ensures Lower(PassStep(s, a), s)
  {
  }

  lemma DrainTakesLowers(s: State)
    requires Control(s) && DrainCan(s, DrainTakes) && !Resting(s)
    ensures Lower(DrainStep(s, DrainTakes), s)
  {
    assert Queued(Drained(s)) == [];
  }

  lemma DrainLowers(s: State, a: DrainAct)
    requires Control(s) && DrainCan(s, a) && !Idle(s, ByDrain(a))
    ensures Lower(DrainStep(s, a), s)
  {
    if a.DrainTakes? {
      DrainTakesLowers(s);
    }
  }

  /** A turn of the resting drain neither raises nor lowers the rank, and leaves it resting. */
  lemma IdleIsLevel(s: State, a: Act)
    requires Control(s) && Can(s, a) && Idle(s, a)
    ensures Level(Step(s, a), s)
    ensures Resting(Step(s, a))
  {
  }

  lemma TakePanicLowers(s: State)
    requires SettleCan(s, TakePanic)
    ensures Lower(SettleStep(s, TakePanic), s)
  {
    assert Queued(Drained(s)) == [];
    assert |All(Queued(s), Shutdown)| == |Queued(s)|;
  }

  lemma SettleLowers(s: State, a: SettleAct)
    requires Control(s) && s.stop && SettleCan(s, a)
    ensures Lower(SettleStep(s, a), s)
  {
    if a.TakePanic? {
      TakePanicLowers(s);
    } else if a.CompleteHead? {
      assert |s.loop.owed[1..]| == |s.loop.owed| - 1;
    }
  }

  /** After the unmount every step of every thread, a loop panic included, lowers the
      rank, except a turn of the resting drain. */
  lemma StepLowers(s: State, a: Act)
    requires Control(s) && s.unmounted && Can(s, a) && !Idle(s, a)
    ensures Lower(Step(s, a), s)
  {
    match a {
      case BySession(b) => SessionLowers(s, b);
      case ByPass(b) => PassLowers(s, b);
      case ByDrain(b) => DrainLowers(s, b);
      case BySettle(b) => SettleLowers(s, b);
      case ByComposer(b) => ComposerLowers(s, b);
    }
  }

  // ---- the whole teardown

  /** Until the unmount only the composer's own steps count. */
  function RankOf(s: State): Rank {
    if s.unmounted then Rank(0, PanicsLeft(s), PassesLeft(s.loop), Weight(s)) else Rank(Lead(s.composer), 0, 0, 0)
  }

  /** A step towards the end: until the unmount the composer's next one, afterwards any but
      a turn of the resting drain. */
  predicate Useful(s: State, a: Act) {
    Can(s, a) && if s.unmounted then !Idle(s, a) else a.ByComposer? && !a.composer.Trip?
  }

  /** There always is one, of the thread whose turn it is. */
  lemma UsefulStep(s: State) returns (a: Act)
    requires Inv(s) && s.stop && !Finished(s)
    ensures Useful(s, a) && ThreadOf(a) == Owner(s)
  {
    if s.unmounted {
      a := Helper(s);
    } else {
      WayToUnmount(s);
      a := ByComposer(ComposerChoice(s.composer));
    }
  }

  lemma LeadLowers(s: State, a: ComposerAct)
    requires Outer(s) && !s.unmounted && ComposerCan(s, a) && !a.Trip?
    ensures Less(RankOf(ComposerStep(s, a)), RankOf(s))
  {
  }

  /** Useful steps lower the rank and no step raises it. */
  lemma StepRanks(s: State, a: Act)
    requires Control(s) && s.stop && Can(s, a)
    ensures !Less(RankOf(s), RankOf(Step(s, a)))
    ensures Useful(s, a) ==> Less(RankOf(Step(s, a)), RankOf(s))
  {
    if s.unmounted {
      StepStays(s, a);
      if Idle(s, a) {
        IdleIsLevel(s, a);
      } else {
        StepLowers(s, a);
      }
    } else if a.ByComposer? && !a.composer.Trip? {
      LeadLowers(s, a.composer);
    } else {
      StepStays(s, a);
    }
  }

  /** Joined: nobody is blocked, and short of a panic every admitted request hears what
      deciding it came to. */
  ghost predicate CleanlyDown(s: State) {
    && Finished(s)
    && s.live == {}
    && (forall r: Req :: r < s.next ==> r in s.answers)
    && (!s.panicked ==> forall r :: r in s.answers && s.answers[r] != Saturated ==> Explains(View(s), r, s.answers[r]))
  }

  lemma FinishedIsClean(s: State)
    requires Inv(s) && Finished(s)
    ensures CleanlyDown(s)
  {
  }

  /** A scheduler may look at the whole state and the time. */
  type Scheduler = (nat, State) -> Act

  /** What it runs next: its choice, if that is enabled. */
  function Next(scheduler: Scheduler, now: nat, s: State): State {
    var a := scheduler(now, s);
    if Can(s, a) then Step(s, a) else s
  }

  function Turns(scheduler: Scheduler): (nat, State) -> State {
    (now: nat, s: State) => Next(scheduler, now, s)
  }

  function UsefulTurns(scheduler: Scheduler): (nat, State) -> bool {
    (now: nat, s: State) => Useful(s, scheduler(now, s))
  }

  /** The schedule does not run new work for ever ahead of the composer's unmount, nor the
      resting drain's turns for ever after it. */
  ghost predicate FairFrom(s: State, scheduler: Scheduler) {
    Fair(s, Turns(scheduler), UsefulTurns(scheduler), Finished, 0)
  }

  ghost predicate Good(s: State) {
    Inv(s) && s.stop
  }

  lemma NextKeeps(scheduler: Scheduler, now: nat, s: State)
    requires Good(s)
    ensures Good(Next(scheduler, now, s)) && !Less(RankOf(s), RankOf(Next(scheduler, now, s)))
    ensures Useful(s, scheduler(now, s)) ==> Less(RankOf(Next(scheduler, now, s)), RankOf(s))
  {
    var a := scheduler(now, s);
    if Can(s, a) {
      StepKeeps(s, a);
      StepStays(s, a);
      StepRanks(s, a);
    }
  }

  lemma ScheduleIsRanked(scheduler: Scheduler, good: State -> bool)
    requires good == ((s: State) => Good(s))
    ensures Ranked(Turns(scheduler), good, RankOf, UsefulTurns(scheduler))
  {
    forall k: nat, s: State | good(s)
      ensures good(Turns(scheduler)(k, s)) && !Less(RankOf(s), RankOf(Turns(scheduler)(k, s)))
      ensures UsefulTurns(scheduler)(k, s) ==> Less(RankOf(Turns(scheduler)(k, s)), RankOf(s))
    {
      NextKeeps(scheduler, k, s);
    }
  }

  /** From every reachable state with the latch set, under every fair scheduler, all three
      threads are joined after finitely many steps, with every submitter answered. */
  lemma TeardownTerminates(states: seq<State>, acts: seq<Act>, i: nat, scheduler: Scheduler)
    requires Run(states, acts) && i < |states| && states[i].stop && FairFrom(states[i], scheduler)
    ensures exists n: nat :: CleanlyDown(Follow(states[i], Turns(scheduler), 0, n))
  {
    RunKeeps(states, acts, i);
    var good := (s: State) => Good(s);
    ScheduleIsRanked(scheduler, good);
    var n := FairFinishes(states[i], Turns(scheduler), good, RankOf, UsefulTurns(scheduler), Finished, 0);
    FinishedIsClean(Follow(states[i], Turns(scheduler), 0, n));
  }

  ghost function Pick(s: State): Act {
    if exists a :: Useful(s, a) then var a :| Useful(s, a); a else ByPass(CheckStop)
  }

  lemma PickIsUseful(s: State)
    requires Good(s) && !Finished(s)
    ensures Useful(s, Pick(s))
  {
    var a := UsefulStep(s);
  }

  ghost function Picks(): Scheduler {
    (now: nat, s: State) => Pick(s)
  }

  /** Fair schedulers exist: one that always runs a useful step. */
  lemma FairSchedulerExists(s: State)
    requires Good(s)
    ensures FairFrom(s, Picks())
  {
    var good := (t: State) => Good(t);
    ScheduleIsRanked(Picks(), good);
    forall k: nat, t: State | good(t) && !Finished(t) ensures UsefulTurns(Picks())(k, t) {
      PickIsUseful(t);
    }
    BusyIsFair(s, Turns(Picks()), good, RankOf, UsefulTurns(Picks()), Finished, 0);
  }

  // ---- weak fairness

  ghost predicate Enabled(s: State, t: Thread) {
    exists a :: ThreadOf(a) == t && Can(s, a)
  }

  ghost function EnabledThreads(): (State, Thread) -> bool {
    (s: State, t: Thread) => Enabled(s, t)
  }

  function ThreadTurns(scheduler: Scheduler): (nat, State, Thread) -> bool {
    (now: nat, s: State, t: Thread) => Can(s, scheduler(now, s)) && ThreadOf(scheduler(now, s)) == t
  }

  /** No thread that can always take a step is passed over for ever. */
  ghost predicate WeaklyFairFrom(s: State, scheduler: Scheduler) {
    WeaklyFair(s, Turns(scheduler), EnabledThreads(), ThreadTurns(scheduler), 0)
  }

  lemma OwnerIsEnabled(s: State)
    requires Good(s) && !Finished(s)
    ensures Enabled(s, Owner(s))
  {
    var a := UsefulStep(s);
    assert ThreadOf(a) == Owner(s) && Can(s, a);
  }

  lemma OwnerIsUseful(s: State, a: Act)
    requires Can(s, a) && ThreadOf(a) == Owner(s)
    ensures Useful(s, a)
  {
  }

  /** Any other step leaves it that thread's turn. */
  lemma OwnerStays(s: State, a: Act)
    requires Control(s) && s.stop && Can(s, a) && !Useful(s, a)
    ensures Owner(Step(s, a)) == Owner(s)
  {
    if s.unmounted {
      IdleIsLevel(s, a);
    } else {
      StepStays(s, a);
    }
  }

  lemma ThreadsOwe(scheduler: Scheduler, good: State -> bool)
    requires good == ((s: State) => Good(s))
    ensures Owed(Turns(scheduler), good, UsefulTurns(scheduler), Finished, EnabledThreads(), ThreadTurns(scheduler), Owner)
  {
    forall s: State | good(s) && !Finished(s) ensures EnabledThreads()(s, Owner(s)) {
      OwnerIsEnabled(s);
    }
    forall k: nat, s: State | good(s) && !Finished(s)
      ensures ThreadTurns(scheduler)(k, s, Owner(s)) ==> UsefulTurns(scheduler)(k, s)
      ensures !UsefulTurns(scheduler)(k, s) ==> Owner(Turns(scheduler)(k, s)) == Owner(s)
    {
      var a := scheduler(k, s);
      if Can(s, a) {
        if !Useful(s, a) {
          OwnerStays(s, a);
        }
        if ThreadOf(a) == Owner(s) {
          OwnerIsUseful(s, a);
        }
      }
    }
  }

  lemma {:induction false} FinishedForGood(s: State, scheduler: Scheduler, n: nat, m: nat)
    requires Good(s) && Finished(Follow(s, Turns(scheduler), 0, n)) && Good(Follow(s, Turns(scheduler), 0, n)) && n <= m
    ensures Follow(s, Turns(scheduler), 0, m) == Follow(s, Turns(scheduler), 0, n)
    decreases m
  {
    if m > n {
      FinishedForGood(s, scheduler, n, m - 1);
      FollowOnce(s, Turns(scheduler), 0, m - 1);
      NothingEnabled(Follow(s, Turns(scheduler), 0, m - 1));
    }
  }

  lemma NothingEnabled(s: State)
    requires Finished(s) && s.stop
    ensures forall a :: !Can(s, a)
  {
  }

  /** Weak fairness of each thread is exactly what the teardown needs. */
  lemma WeakFairnessIsEnough(s: State, scheduler: Scheduler)
    requires Good(s)
    ensures WeaklyFairFrom(s, scheduler) <==> FairFrom(s, scheduler)
  {
    var good := (t: State) => Good(t);
    ScheduleIsRanked(scheduler, good);
    if WeaklyFairFrom(s, scheduler) {
      ThreadsOwe(scheduler, good);
      WeaklyFairIsFair(s, Turns(scheduler), good, RankOf, UsefulTurns(scheduler), Finished, EnabledThreads(),
                       ThreadTurns(scheduler), Owner, 0);
    }
    if FairFrom(s, scheduler) {
      var n := FairFinishes(s, Turns(scheduler), good, RankOf, UsefulTurns(scheduler), Finished, 0);
      forall m: nat, t: Thread | n <= m ensures !EnabledThreads()(Follow(s, Turns(scheduler), 0, m), t) {
        FinishedForGood(s, scheduler, n, m);
        NothingEnabled(Follow(s, Turns(scheduler), 0, m));
      }
      EndingIsWeaklyFair(s, Turns(scheduler), EnabledThreads(), ThreadTurns(scheduler), 0, n);
    }
  }

  /** From every reachable state with the latch set, if no thread that can always run is
      passed over for ever, all three are joined and every submitter is answered. */
  lemma ThreadsAreJoined(states: seq<State>, acts: seq<Act>, i: nat, scheduler: Scheduler)
    requires Run(states, acts) && i < |states| && states[i].stop && WeaklyFairFrom(states[i], scheduler)
    ensures exists n: nat :: CleanlyDown(Follow(states[i], Turns(scheduler), 0, n))
  {
    RunKeeps(states, acts, i);
    WeakFairnessIsEnough(states[i], scheduler);
    TeardownTerminates(states, acts, i, scheduler);
  }

  /** A signal alone sets the latch. */
  lemma LatchIsReached(limit: nat, evaluate: (nat, Req) -> Evaluation) returns (states: seq<State>, acts: seq<Act>)
    ensures Run(states, acts) && states[|acts|].stop
    ensures states[|acts|].limit == limit && states[|acts|].evaluate == evaluate
  {
    var s0 := Start(limit, evaluate);
    assert Moves(s0, ByComposer(Trip), s0.(stop := true));
    states, acts := [s0, s0.(stop := true)], [ByComposer(Trip)];
  }
}
