/** The shutdown protocol: the presentation session, the supervised loop thread and
    the composer over one mutation queue and one stop latch. */
module Lifecycle {
  type Req = nat

  /** What evaluating a queued entry comes to: it ran and recorded its own outcome, its
      wait had expired, it lacks content with no head to pin, or it lacks content. */
  datatype Evaluation = Ran | Expired | Unpinned | Lacking

  /** What a blocked submitter hears. `Applied` is the outcome the mutation itself
      recorded, `FailedClosed` the engine error of a guard or of missing content. */
  datatype Answer = Applied | TimedOut | FailedClosed | Saturated | Shutdown

  /** The answer an evaluation records; content still missing is only ever recorded by
      the drain after the loop's return. */
  function Outcome(e: Evaluation): Answer {
    match e
    case Ran => Applied
    case Expired => TimedOut
    case Unpinned => FailedClosed
    case Lacking => FailedClosed
  }

  /** Which evaluation decided a request, and whether the drain made it. */
  datatype Decision = Decision(at: nat, drained: bool)

  datatype Verdict = Verdict(req: Req, answer: Answer)

  /** Where the loop goes once the batch it holds is completed. */
  datatype After = PassEnd | DrainAgain | DrainOver | Unwound | PanicClosed

  datatype Loop =
    | LoopTop
    | Passing
    | Applying(done: seq<Verdict>, todo: seq<Req>)
    | Settling(owed: seq<Verdict>, after: After)
    | Idling
    | Returning
    | Reporting
    | DrainTop
    | DrainTake(sawClosed: bool)
    | DrainApply(done: seq<Verdict>, todo: seq<Req>, sawClosed: bool)
    | DrainWait
    | PanicNote
    | PanicSend
    | PanicClose
    | PanicTake
    | LoopDone

  datatype Session = Serving | Ending | Sending | SessionDone

  datatype Composer =
    | AwaitTrigger
    | Unmounting
    | JoinSession
    | CloseFlag
    | CloseTake
    | CloseSettle(owed: seq<Verdict>)
    | JoinLoop
    | ComposerDone

  /** `evaluate` answers the run's k-th evaluation of a request, and `evaluations` counts
      them. `live` are the admitted requests whose caller is still blocked, `log` the
      requests the loop decided, in order, and `how` it did; `dirty` the handles an
      unmount commits. */
  datatype State = State(
    limit: nat,
    evaluate: (nat, Req) -> Evaluation,
    evaluations: nat,
    stop: bool,
    triggers: nat,
    closed: bool,
    pending: seq<Req>,
    deferred: seq<Req>,
    live: set<Req>,
    next: Req,
    answers: map<Req, Answer>,
    log: seq<Req>,
    how: map<Req, Decision>,
    dirty: nat,
    unmounted: bool,
    panicked: bool,
    session: Session,
    loop: Loop,
    composer: Composer)

  function Start(limit: nat, evaluate: (nat, Req) -> Evaluation): State {
    State(limit, evaluate, 0, false, 0, false, [], [], {}, 0, map[], [], map[], 0, false, false,
          Serving, LoopTop, AwaitTrigger)
  }

  // ---- the queue's critical sections

  function Submit(s: State): State {
    if s.closed then
      s.(next := s.next + 1, answers := s.answers[s.next := Shutdown])
    else if |s.live| >= s.limit then
      s.(next := s.next + 1, answers := s.answers[s.next := Saturated])
    else
      s.(next := s.next + 1, live := s.live + {s.next}, pending := s.pending + [s.next])
  }

  /** Held entries retry ahead of new submissions. */
  function Queued(s: State): seq<Req> {
    s.deferred + s.pending
  }

  function Drained(s: State): State {
    s.(deferred := [], pending := [])
  }

  function Complete(s: State, v: Verdict): State {
    s.(live := s.live - {v.req}, answers := s.answers[v.req := v.answer])
  }

  function All(reqs: seq<Req>, answer: Answer): (vs: seq<Verdict>)
    ensures |vs| == |reqs|
  {
    if reqs == [] then [] else [Verdict(reqs[0], answer)] + All(reqs[1..], answer)
  }

  function Reqs(vs: seq<Verdict>): (reqs: seq<Req>)
    ensures |reqs| == |vs|
  {
    if vs == [] then [] else [vs[0].req] + Reqs(vs[1..])
  }

  // ---- the session thread

  datatype SessionAct = Operate | Buffer | Flush | End | NoteEnded | SendEnded

  predicate SessionCan(s: State, a: SessionAct) {
    match a
    case Operate => s.session == Serving && !s.unmounted
    case Buffer => s.session == Serving && !s.unmounted
    case Flush => s.session == Serving && s.dirty > 0
    // The session returns only with no call blocked and destroy's commits made.
    case End => s.session == Serving && s.dirty == 0 && s.live == {}
    case NoteEnded => s.session == Ending
    case SendEnded => s.session == Sending
  }

  function SessionStep(s: State, a: SessionAct): State
    requires SessionCan(s, a)
  {
    match a
    case Operate => Submit(s)
    case Buffer => s.(dirty := s.dirty + 1)
    case Flush => Submit(s).(dirty := s.dirty - 1)
    case End => s.(session := Ending)
    case NoteEnded => s.(stop := true, session := Sending)
    case SendEnded => s.(triggers := s.triggers + 1, session := SessionDone)
  }

  // ---- the loop thread

  /** What the next evaluation of a request comes to. */
  function Finding(s: State, r: Req): Evaluation {
    s.evaluate(s.evaluations, r)
  }

  /** The loop decides `r`, the first entry it holds. */
  function Decide(s: State, r: Req, drained: bool): State {
    s.(log := s.log + [r], how := s.how[r := Decision(s.evaluations, drained)], evaluations := s.evaluations + 1)
  }

  /** The loop body, up to its return. */
  datatype PassAct = CheckStop | PassRetry | PassAbort | TakeBatch | Apply | Defer | EndBatch | Wake | NoteReturned

  predicate PassCan(s: State, a: PassAct) {
    match a
    case CheckStop => s.loop.LoopTop?
    case PassRetry => s.loop.Passing?
    case PassAbort => s.loop.Passing?
    case TakeBatch => s.loop.Passing?
    case Apply => s.loop.Applying? && s.loop.todo != [] && Finding(s, s.loop.todo[0]) != Lacking
    case Defer => s.loop.Applying? && s.loop.todo != [] && Finding(s, s.loop.todo[0]) == Lacking
    case EndBatch => s.loop.Applying? && s.loop.todo == []
    case Wake => s.loop.Idling?
    case NoteReturned => s.loop.Returning?
  }

  function PassStep(s: State, a: PassAct): State
    requires PassCan(s, a)
  {
    match a
    case CheckStop => s.(loop := if s.stop then Returning else Passing)
    case PassRetry => s.(loop := Idling)
    case PassAbort => s.(loop := Returning)
    case TakeBatch => Drained(s).(loop := Applying([], Queued(s)))
    case Apply =>
      var r := s.loop.todo[0];
      Decide(s, r, false).(
        loop := Applying(s.loop.done + [Verdict(r, Outcome(Finding(s, r)))], s.loop.todo[1..]))
    case Defer =>
      // The held entry and everything after it go back, in order.
      s.(evaluations := s.evaluations + 1, deferred := s.deferred + s.loop.todo, loop := Settling(s.loop.done, PassEnd))
    case EndBatch => s.(loop := Settling(s.loop.done, PassEnd))
    case Wake => s.(loop := if s.stop then Returning else LoopTop)
    case NoteReturned => s.(stop := true, loop := Reporting)
  }

  /** The report and the drain after the return. */
  datatype DrainAct =
    SendReturned | CheckClosed | DrainTakes | DrainApplies | DrainFails | DrainEnds | DrainWakes | DrainPolls

  predicate DrainCan(s: State, a: DrainAct) {
    match a
    case SendReturned => s.loop.Reporting?
    case CheckClosed => s.loop.DrainTop?
    case DrainTakes => s.loop.DrainTake?
    case DrainApplies => s.loop.DrainApply? && s.loop.todo != [] && Finding(s, s.loop.todo[0]) != Lacking
    case DrainFails => s.loop.DrainApply? && s.loop.todo != [] && Finding(s, s.loop.todo[0]) == Lacking
    case DrainEnds => s.loop.DrainApply? && s.loop.todo == []
    case DrainWakes => s.loop.DrainWait? && (s.closed || Queued(s) != [])
    // The parked drain looks again every quarter second.
    case DrainPolls => s.loop.DrainWait?
  }

  function DrainStep(s: State, a: DrainAct): State
    requires DrainCan(s, a)
  {
    match a
    case SendReturned => s.(triggers := s.triggers + 1, loop := DrainTop)
    case CheckClosed => s.(loop := DrainTake(s.closed))
    case DrainTakes =>
      if Queued(s) == [] then s.(loop := if s.loop.sawClosed then LoopDone else DrainWait)
      else Drained(s).(loop := DrainApply([], Queued(s), s.loop.sawClosed))
    case DrainApplies =>
      var r := s.loop.todo[0];
      Decide(s, r, true).(
        loop := DrainApply(s.loop.done + [Verdict(r, Outcome(Finding(s, r)))], s.loop.todo[1..], s.loop.sawClosed))
    case DrainFails =>
      // Nothing fetches after the return: an entry that would hold fails closed.
      var r := s.loop.todo[0];
      Decide(s, r, true).(
        loop := DrainApply(s.loop.done + [Verdict(r, FailedClosed)], s.loop.todo[1..], s.loop.sawClosed))
    case DrainEnds => s.(loop := Settling(s.loop.done, if s.loop.sawClosed then DrainOver else DrainAgain))
    case DrainWakes => s.(loop := DrainTop)
    case DrainPolls => s.(loop := DrainTop)
  }

  /** Completing a batch, and a panic with its recovery. */
  datatype SettleAct = CompleteHead | EndSettle(abort: bool) | Panic | NotePanic | SendPanic | ClosePanic | TakePanic

  /** Inside the caught region: the loop body and the drain. */
  predicate Caught(l: Loop) {
    l.LoopTop? || l.Passing? || l.Applying? || l.Idling? || l.Returning? || l.Reporting?
    || l.DrainTop? || l.DrainTake? || l.DrainApply? || l.DrainWait?
  }

  /** What a taken batch owes when it unwinds: recorded results, else the engine error. */
  function Unwinding(l: Loop): seq<Verdict> {
    if l.Applying? || l.DrainApply? then l.done + All(l.todo, FailedClosed) else []
  }

  predicate SettleCan(s: State, a: SettleAct) {
    match a
    case CompleteHead => s.loop.Settling? && s.loop.owed != []
    case EndSettle(_) => s.loop.Settling? && s.loop.owed == []
    case Panic => Caught(s.loop)
    case NotePanic => s.loop.PanicNote?
    case SendPanic => s.loop.PanicSend?
    case ClosePanic => s.loop.PanicClose?
    case TakePanic => s.loop.PanicTake?
  }

  function SettleStep(s: State, a: SettleAct): State
    requires SettleCan(s, a)
  {
    match a
    case CompleteHead => Complete(s, s.loop.owed[0]).(loop := Settling(s.loop.owed[1..], s.loop.after))
    case EndSettle(abort) =>
      s.(loop := match s.loop.after
                 case PassEnd => if abort then Returning else Idling
                 case DrainAgain => DrainTop
                 case DrainOver => LoopDone
                 case Unwound => PanicNote
                 case PanicClosed => LoopDone)
    case Panic => s.(panicked := true, loop := Settling(Unwinding(s.loop), Unwound))
    case NotePanic => s.(stop := true, loop := PanicSend)
    case SendPanic => s.(triggers := s.triggers + 1, loop := PanicClose)
    case ClosePanic => s.(closed := true, loop := PanicTake)
    case TakePanic => Drained(s).(loop := Settling(All(Queued(s), Shutdown), PanicClosed))
  }

  // ---- the composer thread

  datatype ComposerAct = Trip | Trigger | Unmount | ReapSession | Close | TakeStrays | CompleteStray | Closed | ReapLoop

  predicate ComposerCan(s: State, a: ComposerAct) {
    match a
    // A signal handler may trip the latch at any time.
    case Trip => !s.stop
    case Trigger => s.composer.AwaitTrigger? && (s.stop || s.triggers > 0)
    case Unmount => s.composer.Unmounting?
    case ReapSession => s.composer.JoinSession? && s.session == SessionDone
    case Close => s.composer.CloseFlag?
    case TakeStrays => s.composer.CloseTake?
    case CompleteStray => s.composer.CloseSettle? && s.composer.owed != []
    case Closed => s.composer.CloseSettle? && s.composer.owed == []
    case ReapLoop => s.composer.JoinLoop? && s.loop.LoopDone?
  }

  function ComposerStep(s: State, a: ComposerAct): State
    requires ComposerCan(s, a)
  {
    match a
    case Trip => s.(stop := true)
    case Trigger => s.(composer := Unmounting)
    case Unmount => s.(unmounted := true, composer := JoinSession)
    case ReapSession => s.(composer := CloseFlag)
    case Close => s.(closed := true, composer := CloseTake)
    case TakeStrays => Drained(s).(composer := CloseSettle(All(Queued(s), Shutdown)))
    case CompleteStray => Complete(s, s.composer.owed[0]).(composer := CloseSettle(s.composer.owed[1..]))
    case Closed => s.(composer := JoinLoop)
    case ReapLoop => s.(composer := ComposerDone)
  }

  // ---- the system

  /** The loop thread's steps come in three groups. */
  datatype Act =
    | BySession(session: SessionAct)
    | ByPass(pass: PassAct)
    | ByDrain(drain: DrainAct)
    | BySettle(settle: SettleAct)
    | ByComposer(composer: ComposerAct)

  predicate Can(s: State, a: Act) {
    match a
    case BySession(b) => SessionCan(s, b)
    case ByPass(b) => PassCan(s, b)
    case ByDrain(b) => DrainCan(s, b)
    case BySettle(b) => SettleCan(s, b)
    case ByComposer(b) => ComposerCan(s, b)
  }

  function Step(s: State, a: Act): State
    requires Can(s, a)
  {
    match a
    case BySession(b) => SessionStep(s, b)
    case ByPass(b) => PassStep(s, b)
    case ByDrain(b) => DrainStep(s, b)
    case BySettle(b) => SettleStep(s, b)
    case ByComposer(b) => ComposerStep(s, b)
  }

  ghost predicate Moves(s: State, a: Act, t: State) {
    Can(s, a) && Step(s, a) == t
  }

  /** A run: the states that `acts` lead through from a start. */
  ghost predicate Run(states: seq<State>, acts: seq<Act>) {
    && |states| == |acts| + 1
    && states[0] == Start(states[0].limit, states[0].evaluate)
    && forall i {:trigger acts[i]} :: 0 <= i < |acts| ==> Moves(states[i], acts[i], states[i + 1])
  }

  predicate Finished(s: State) {
    s.session.SessionDone? && s.loop.LoopDone? && s.composer.ComposerDone?
  }
}
