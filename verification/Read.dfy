/** Mount-free reads: demand-driven opens and windowed reads over a view whose answers
    change while the loop repairs and fetches behind it. */
module Read {
  import opened Identity
  import opened RepairQueue
  import opened Want

  type Byte = n: nat | n < 256

  const READ_WINDOW: nat := 128 * 1024
  /** Milliseconds between probes, and how long a reported repair stays fresh. */
  const POLL: nat := 50
  const REPAIR_TTL: nat := 30000

  datatype ViewError =
    | NotMaterialized(content: ContentId)
    | Rejected(content: ContentId, kind: ObjectKind)
    | Lost(content: ContentId, kind: ObjectKind)
    | Unavailable(content: ContentId)
    | Corrupt
    | NotAFile
    | OtherError(code: nat)

  datatype Answer = Served(bytes: seq<Byte>) | Failed(error: ViewError)

  datatype ReadError =
    | View(error: ViewError)
    | Timeout(content: ContentId)
    | Terminal(error: ViewError)
    | Demand(cause: WantError)

  datatype Result = Ok(bytes: seq<Byte>) | Err(error: ReadError)

  /** The view operation demand is retried for. */
  datatype Op = Open | Window(offset: nat, len: nat)

  // ---- repairs reported recently

  type Seen = map<ContentId, nat>

  predicate Fresh(seen: Seen, c: ContentId, now: nat) {
    c in seen && now - seen[c] < REPAIR_TTL
  }

  /** Stale entries go whenever one is recorded. */
  function Recorded(seen: Seen, c: ContentId, now: nat): Seen {
    (map x | x in seen && now - seen[x] < REPAIR_TTL :: seen[x])[c := now]
  }

  datatype Note = Note(content: ContentId, at: nat)

  function Replayed(log: seq<Note>): Seen {
    if log == [] then map[]
    else Recorded(Replayed(log[..|log| - 1]), log[|log| - 1].content, log[|log| - 1].at)
  }

  predicate InOrder(log: seq<Note>, now: nat) {
    (forall i, j :: 0 <= i < j < |log| ==> log[i].at <= log[j].at) && forall i :: 0 <= i < |log| ==> log[i].at <= now
  }

  lemma {:induction false} ReplayedAt(log: seq<Note>, c: ContentId, now: nat)
    requires InOrder(log, now)
    ensures c in Replayed(log) ==> Note(c, Replayed(log)[c]) in log
    ensures forall i :: 0 <= i < |log| && log[i].content == c && now - log[i].at < REPAIR_TTL ==>
                          c in Replayed(log) && log[i].at <= Replayed(log)[c]
  {
    if log != [] {
      var front, last := log[..|log| - 1], log[|log| - 1];
      assert forall n :: n in front ==> n in log;
      assert last in log;
      ReplayedAt(front, c, now);
      forall i | 0 <= i < |log| && log[i].content == c && now - log[i].at < REPAIR_TTL
        ensures c in Replayed(log) && log[i].at <= Replayed(log)[c]
      {
        if i < |front| {
          assert front[i] == log[i];
          assert last.at - Replayed(front)[c] < REPAIR_TTL;
        }
      }
    }
  }

  /** The lazily pruned map answers like the full log of observations. */
  lemma {:induction false} RecencyIsExact(log: seq<Note>, c: ContentId, now: nat)
    requires InOrder(log, now)
    ensures Fresh(Replayed(log), c, now) <==>
            exists i :: 0 <= i < |log| && log[i].content == c && now - log[i].at < REPAIR_TTL
  {
    ReplayedAt(log, c, now);
    if Fresh(Replayed(log), c, now) {
      var i :| 0 <= i < |log| && log[i] == Note(c, Replayed(log)[c]);
    }
  }

  // ---- the reader's shared state

  /** Demand wiring and repair queues are optional. */
  datatype Desk = Desk(
    wants: Option<Registry>,
    quarantine: Option<set<Report>>,
    scrub: Option<set<Report>>,
    rejections: Seen,
    losses: Seen)

  function Submitted(q: Option<set<Report>>, r: Report): Option<set<Report>> {
    if q.Some? then Some(q.value + {r}) else None
  }

  /** A repair reported moments ago through a queue somebody drains. */
  predicate InRepair(d: Desk, c: ContentId, now: nat) {
    (d.quarantine.Some? && Fresh(d.rejections, c, now)) || (d.scrub.Some? && Fresh(d.losses, c, now))
  }

  /** First touch: observed-invalid bytes are named to the loop and become a wait. */
  function Entered(d: Desk, now: nat, a: Answer): (Desk, Answer) {
    match a
    case Failed(Rejected(c, kind)) =>
      if d.quarantine.Some? && d.wants.Some? then
        (d.(quarantine := Submitted(d.quarantine, Report(c, kind)), rejections := Recorded(d.rejections, c, now)),
         Failed(NotMaterialized(c)))
      else (d, a)
    case Failed(Lost(c, kind)) =>
      if d.scrub.Some? && d.wants.Some? then
        (d.(scrub := Submitted(d.scrub, Report(c, kind)), losses := Recorded(d.losses, c, now)), Failed(NotMaterialized(c)))
      else (d, a)
    case Failed(Unavailable(c)) => (d, if d.wants.Some? && InRepair(d, c, now) then Failed(NotMaterialized(c)) else a)
    case _ => (d, a)
  }

  function Reopened(d: Desk, limit: nat, c: ContentId): Desk {
    if d.wants.Some? then d.(wants := Some(Noted(d.wants.value, limit, c))) else d
  }

  /** One poll's effect on the shared state. */
  function Probed(d: Desk, limit: nat, now: nat, a: Answer): Desk {
    match a
    case Failed(Unavailable(c)) => Reopened(d, limit, c)
    case Failed(Rejected(c, kind)) =>
      d.(quarantine := Submitted(d.quarantine, Report(c, kind)), rejections := Recorded(d.rejections, c, now))
    case Failed(Lost(c, kind)) =>
      d.(scrub := Submitted(d.scrub, Report(c, kind)), losses := Recorded(d.losses, c, now))
    case _ => d
  }

  /** Whether it ends the wait: served, or a terminal verdict with no repair in flight. */
  predicate Settles(d: Desk, now: nat, a: Answer) {
    match a
    case Served(_) => true
    case Failed(Corrupt) => true
    case Failed(Unavailable(c)) => !Fresh(d.rejections, c, now) && !Fresh(d.losses, c, now)
    case _ => false
  }

  /** A wait can end on such an answer. */
  predicate Ends(a: Answer) {
    a.Served? || IsTerminal(a.error)
  }

  /** Demand is wired and the content is not there yet. */
  predicate Waits(d: Desk, first: Answer) {
    d.wants.Some? && first.Failed? && first.error.NotMaterialized?
  }

  predicate IsTerminal(e: ViewError) {
    e.Unavailable? || e.Corrupt?
  }

  /** The first answer when no wait is due. */
  function FirstTouch(wired: bool, a: Answer): Result {
    match a
    case Served(bytes) => Ok(bytes)
    case Failed(e) => Err(if e == Corrupt || (wired && e.Unavailable?) then Terminal(e) else View(e))
  }

  /** The answer after a wait. */
  function Retried(a: Answer): Result {
    match a
    case Served(bytes) => Ok(bytes)
    case Failed(e) => Err(if IsTerminal(e) then Terminal(e) else View(e))
  }

  // ---- what a read may do to the shared state

  /** From `d` to `e`: wiring and waiters as before, admissions untouched, queues and notes
      only grown, and nothing newly pending that nobody waits for. */
  ghost predicate Follows(d: Desk, e: Desk) {
    && d.wants.Some? == e.wants.Some?
    && d.quarantine.Some? == e.quarantine.Some? && d.scrub.Some? == e.scrub.Some?
    && (d.quarantine.Some? ==> d.quarantine.value <= e.quarantine.value)
    && (d.scrub.Some? ==> d.scrub.value <= e.scrub.value)
    && (d.wants.Some? ==> Quiet(d.wants.value, e.wants.value))
  }

  predicate Quiet(s: Registry, t: Registry) {
    && t.waiting == s.waiting && s.pending <= t.pending <= s.pending + s.waiting.Keys
    && t.admitted == s.admitted && t.unowned == s.unowned
    && s.reopenNotes <= t.reopenNotes
  }

  lemma FollowsChains(d: Desk, e: Desk, f: Desk)
    requires Follows(d, e) && Follows(e, f)
    ensures Follows(d, f)
  {
  }

  ghost predicate Sound(limit: nat, d: Desk) {
    d.wants.Some? ==> Valid(d.wants.value, limit)
  }

  lemma EnteredFollows(d: Desk, now: nat, a: Answer)
    ensures Follows(d, Entered(d, now, a).0)
    ensures Entered(d, now, a).0.wants == d.wants
    ensures Entered(d, now, a).1.Served? <==> a.Served?
    ensures a.Served? ==> Entered(d, now, a) == (d, a)
  {
  }

  lemma ProbedFollows(limit: nat, d: Desk, now: nat, a: Answer)
    requires Sound(limit, d)
    ensures Follows(d, Probed(d, limit, now, a)) && Sound(limit, Probed(d, limit, now, a))
    ensures d.wants.Some? ==> Probed(d, limit, now, a).wants.value.pending == d.wants.value.pending
  {
    if a.Failed? && a.error.Unavailable? && d.wants.Some? {
      NoteKeepsValid(d.wants.value, limit, a.error.content);
    }
  }

  /** Attaching and leaving around any amount of probing. */
  lemma Balanced(s: Registry, limit: nat, c: ContentId, t: Registry)
    requires Valid(s, limit) && Registered(s, limit, c).Some?
    requires Quiet(Registered(s, limit, c).value, t) && t.pending == Registered(s, limit, c).value.pending
    ensures Quiet(s, Released(t, c)) && Released(t, c).pending <= s.pending + {c}
    ensures c !in s.waiting ==> Released(t, c).pending == s.pending
  {
    var u := Registered(s, limit, c).value;
    RegisteredThenReleased(s, limit, c, u);
    assert Released(t, c).pending == Released(u, c).pending;
    assert Released(t, c).waiting == s.waiting;
  }

  // ---- the program

  /** The view as time goes on: its answer at each step, and how long each step takes. */
  datatype Timeline = Timeline(answers: (nat, Op) -> Answer, lag: nat -> nat)

  function AnswerAt(v: Timeline, step: nat, op: Op): Answer {
    v.answers(step, op)
  }

  function LagAt(v: Timeline, step: nat): nat {
    v.lag(step)
  }

  class World {
    const line: Timeline
    var step: nat
    var now: nat

    method Ask(op: Op) returns (a: Answer)
      modifies this
      ensures a == AnswerAt(line, old(step), op)
      ensures step == old(step) + 1 && now == old(now) + LagAt(line, old(step))
    {
      a := AnswerAt(line, step, op);
      step, now := step + 1, now + LagAt(line, step);
    }

    method Sleep()
      modifies this
      ensures step == old(step) + 1 && now == old(now) + POLL + LagAt(line, old(step))
    {
      step, now := step + 1, now + POLL + LagAt(line, step);
    }
  }

  ghost predicate Given(v: Timeline, from: nat, to: nat, op: Op, bytes: seq<Byte>) {
    exists k :: from <= k < to && AnswerAt(v, k, op) == Served(bytes)
  }

  // ---- how a wait goes

  /** When the `j`-th probe of a wait begun at step `from` and time `start` is answered: a
      probe and a sleep take a step each. */
  function ProbeTime(v: Timeline, from: nat, start: nat, j: nat): nat {
    if j == 0 then start + LagAt(v, from) else ProbeTime(v, from, start, j - 1) + Turn(v, from + 2 * j - 1)
  }

  /** The sleep at that step and the probe after it. */
  function Turn(v: Timeline, step: nat): nat {
    POLL + LagAt(v, step) + LagAt(v, step + 1)
  }

  function ProbeAnswer(v: Timeline, from: nat, op: Op, j: nat): Answer {
    AnswerAt(v, from + 2 * j, op)
  }

  predicate Invalid(a: Answer, c: ContentId) {
    a.Failed? && (a.error.Rejected? || a.error.Lost?) && a.error.content == c
  }

  /** A repair of `c` was reported before the wait, or by one of its first `n` probes. */
  predicate Reported(v: Timeline, d: Desk, from: nat, op: Op, n: nat, c: ContentId) {
    || c in d.rejections || c in d.losses
    || exists j {:trigger Invalid(ProbeAnswer(v, from, op, j), c)} :: 0 <= j < n && Invalid(ProbeAnswer(v, from, op, j), c)
  }

  /** An answer that leaves the wait open: nothing served, not corrupt, and unavailable only
      over a reported repair. */
  predicate LeavesOpen(v: Timeline, d: Desk, from: nat, op: Op, j: nat) {
    var a := ProbeAnswer(v, from, op, j);
    a.Failed? && a.error != Corrupt && (a.error.Unavailable? ==> Reported(v, d, from, op, j, a.error.content))
  }

  /** The first `n` probes left the wait open, each before the deadline. */
  ghost predicate StillOpen(v: Timeline, d: Desk, from: nat, start: nat, op: Op, timeout: nat, n: nat) {
    n > 0 ==>
      && LeavesOpen(v, d, from, op, n - 1) && ProbeTime(v, from, start, n - 1) < start + timeout
      && StillOpen(v, d, from, start, op, timeout, n - 1)
  }

  /** No probe but the last is served, and none comes at or past the deadline. */
  lemma {:induction false} OpenThroughout(v: Timeline, d: Desk, from: nat, start: nat, op: Op, timeout: nat, n: nat, j: nat)
    requires StillOpen(v, d, from, start, op, timeout, n) && j < n
    ensures LeavesOpen(v, d, from, op, j) && ProbeTime(v, from, start, j) < start + timeout
  {
    if j < n - 1 {
      OpenThroughout(v, d, from, start, op, timeout, n - 1, j);
    }
  }

  /** Everything on the desk's repair maps was reported. */
  ghost predicate Traced(v: Timeline, d: Desk, from: nat, op: Op, n: nat, e: Desk) {
    forall c :: c in e.rejections || c in e.losses ==> Reported(v, d, from, op, n, c)
  }

  lemma TracedProbe(v: Timeline, d: Desk, from: nat, op: Op, n: nat, e: Desk, limit: nat, now: nat)
    requires Traced(v, d, from, op, n, e)
    ensures Traced(v, d, from, op, n + 1, Probed(e, limit, now, ProbeAnswer(v, from, op, n)))
    ensures !Settles(Probed(e, limit, now, ProbeAnswer(v, from, op, n)), now, ProbeAnswer(v, from, op, n)) ==>
              LeavesOpen(v, d, from, op, n)
  {
    var a := ProbeAnswer(v, from, op, n);
    var f := Probed(e, limit, now, a);
    forall c | c in f.rejections || c in f.losses ensures Reported(v, d, from, op, n + 1, c) {
      if c in e.rejections || c in e.losses {
        assert Reported(v, d, from, op, n, c);
      } else {
        assert Invalid(ProbeAnswer(v, from, op, n), c);
      }
    }
  }

  /** After `n` open probes the desk is `e` and the clock about to reach the next. */
  ghost predicate Ongoing(v: Timeline, d: Desk, from: nat, start: nat, op: Op, timeout: nat, n: nat, e: Desk, now: nat) {
    && StillOpen(v, d, from, start, op, timeout, n) && Traced(v, d, from, op, n, e)
    && now + LagAt(v, from + 2 * n) == ProbeTime(v, from, start, n) && now >= start
  }

  lemma NextProbe(v: Timeline, from: nat, start: nat, n: nat)
    ensures ProbeTime(v, from, start, n + 1)
            == ProbeTime(v, from, start, n) + POLL + LagAt(v, from + 2 * n + 1) + LagAt(v, from + 2 * (n + 1))
  {
    assert from + 2 * (n + 1) - 1 == from + 2 * n + 1;
  }

  /** The next probe ends the wait, one way or the other, or leaves it open. */
  lemma OngoingProbe(v: Timeline, d: Desk, from: nat, start: nat, op: Op, timeout: nat, n: nat, e: Desk, now: nat,
                     limit: nat, f: Desk, later: nat)
    requires Ongoing(v, d, from, start, op, timeout, n, e, now) && later == now + LagAt(v, from + 2 * n)
    requires f == Probed(e, limit, later, ProbeAnswer(v, from, op, n))
    ensures later == ProbeTime(v, from, start, n) && later >= start
    ensures var done := Settles(f, later, ProbeAnswer(v, from, op, n));
            if done || later - start >= timeout then WaitRan(v, d, from, start, op, timeout, n, done)
            else Ongoing(v, d, from, start, op, timeout, n + 1, f, later + POLL + LagAt(v, from + 2 * n + 1))
  {
    TracedProbe(v, d, from, op, n, e, limit, later);
    if Settles(f, later, ProbeAnswer(v, from, op, n)) {
      assert Ends(ProbeAnswer(v, from, op, n));
    } else if later - start < timeout {
      NextProbe(v, from, start, n);
    }
  }

  /** A wait of `n + 1` probes begun at `from`: all but the last left it open in time; the last
      settled it, or did not and came at or past the deadline. */
  ghost predicate WaitRan(v: Timeline, d: Desk, from: nat, start: nat, op: Op, timeout: nat, n: nat, settled: bool) {
    && StillOpen(v, d, from, start, op, timeout, n)
    && (if settled then Ends(ProbeAnswer(v, from, op, n))
        else LeavesOpen(v, d, from, op, n) && ProbeTime(v, from, start, n) >= start + timeout)
  }

  /** Once everything is served, a wait ends and the next answer is content. */
  lemma ServedSettles(v: Timeline, d: Desk, from: nat, start: nat, op: Op, timeout: nat, n: nat, settled: bool)
    requires from > 0 && ServedAfter(v, op, from - 1) && WaitRan(v, d, from, start, op, timeout, n, settled)
    ensures settled && Retried(AnswerAt(v, from + 2 * n + 1, op)).Ok?
  {
    assert ProbeAnswer(v, from, op, n).Served?;
  }

  /** What a demanded operation returns after its wait for `c`. */
  ghost predicate Waited(v: Timeline, d: Desk, limit: nat, timeout: nat, c: ContentId, op: Op, r: Result,
                         from: nat, start: nat, n: nat)
    requires d.wants.Some?
  {
    if Registered(d.wants.value, limit, c) == None then r == Err(Demand(SaturatedError))
    else
      && WaitRan(v, d, from, start, op, timeout, n, r != Err(Timeout(c)))
      && (r != Err(Timeout(c)) ==> r == Retried(AnswerAt(v, from + 2 * n + 1, op)))
  }

  /** The content a first answer makes the reader wait for. */
  predicate Demanded(d: Desk, a: Answer) {
    && d.wants.Some? && a.Failed?
    && (a.error.NotMaterialized? || (a.error.Rejected? && d.quarantine.Some?) || (a.error.Lost? && d.scrub.Some?))
  }

  /** Served whenever asked, or at every later asking once it was demanded. */
  ghost predicate Arrives(v: Timeline, d: Desk, op: Op) {
    forall k: nat :: AnswerAt(v, k, op).Served? || (Demanded(d, AnswerAt(v, k, op)) && ServedAfter(v, op, k))
  }

  ghost predicate ServedAfter(v: Timeline, op: Op, k: nat) {
    forall j: nat :: k < j ==> AnswerAt(v, j, op).Served?
  }

  /** The registry has room even with every identity that is waited for pending. */
  ghost predicate Roomy(d: Desk, limit: nat) {
    d.wants.Some? ==> HasRoom(d.wants.value, limit)
  }

  ghost predicate HasRoom(s: Registry, limit: nat) {
    |s.pending + s.waiting.Keys| + |s.admitted| < limit
  }

  lemma RoomyRegisters(d: Desk, limit: nat, c: ContentId)
    requires d.wants.Some? && Roomy(d, limit)
    ensures Registered(d.wants.value, limit, c).Some?
  {
    SubsetSize(d.wants.value.pending, d.wants.value.pending + d.wants.value.waiting.Keys);
  }

  lemma RoomIsKept(d: Desk, e: Desk, limit: nat)
    requires Follows(d, e)
    ensures Roomy(d, limit) ==> Roomy(e, limit)
  {
    if d.wants.Some? {
      SubsetSize(e.wants.value.pending + e.wants.value.waiting.Keys, d.wants.value.pending + d.wants.value.waiting.Keys);
    }
  }

  /** Why an operation failed: refused or expired demand, or an answer the view gave. */
  ghost predicate Failure(v: Timeline, wired: bool, from: nat, to: nat, op: Op, r: Result) {
    && r.Err?
    && match r.error
       case Timeout(c) => wired && Names(AnswerAt(v, from, op), c)
       case Demand(cause) => wired && cause == SaturatedError
       case _ => exists k :: from <= k < to && GaveUp(wired, AnswerAt(v, k, op), r)
  }

  predicate Names(a: Answer, c: ContentId) {
    a.Failed? && !a.error.Corrupt? && !a.error.NotAFile? && !a.error.OtherError? && a.error.content == c
  }

  predicate GaveUp(wired: bool, a: Answer, r: Result) {
    r == FirstTouch(wired, a) || (wired && r == Retried(a))
  }

  lemma FirstFails(v: Timeline, wired: bool, from: nat, to: nat, op: Op, r: Result)
    requires from < to && r == FirstTouch(wired, AnswerAt(v, from, op))
    ensures r.Err? ==> Failure(v, wired, from, to, op, r)
    ensures r.Ok? ==> Given(v, from, to, op, r.bytes)
  {
    if r.Err? {
      assert GaveUp(wired, AnswerAt(v, from, op), r);
    }
  }

  /** However a wait on the first answer comes out. */
  ghost predicate Outcome(v: Timeline, from: nat, to: nat, op: Op, r: Result, c: ContentId) {
    r == Err(Timeout(c)) || r == Err(Demand(SaturatedError)) || (from < to && r == Retried(AnswerAt(v, to - 1, op)))
  }

  lemma WaitFails(v: Timeline, d: Desk, now: nat, from: nat, to: nat, op: Op, r: Result, c: ContentId)
    requires d.wants.Some? && Entered(d, now, AnswerAt(v, from, op)).1 == Failed(NotMaterialized(c))
    requires Outcome(v, from + 1, to, op, r, c)
    ensures r.Err? ==> Failure(v, true, from, to, op, r)
    ensures r.Ok? ==> Given(v, from, to, op, r.bytes)
  {
    if r.Err? && r.error != Timeout(c) && r.error != Demand(SaturatedError) {
      assert GaveUp(true, AnswerAt(v, to - 1, op), r);
    }
  }

  /** A demanded operation begun at desk `d` and step `from`, first answered at time `at`, that
      came out as `r` at desk `e` and step `to`, after `n` probes that left its wait open. */
  ghost predicate Came(v: Timeline, limit: nat, timeout: nat, op: Op, d: Desk, from: nat, at: nat,
                       r: Result, e: Desk, to: nat, n: nat)
  {
    var a := AnswerAt(v, from, op);
    var (entered, first) := Entered(d, at, a);
    && from < to
    // Unless it must wait, the result is the view's first answer.
    && (if !Waits(d, first) then to == from + 1 && r == FirstTouch(d.wants.Some?, a)
        else Waited(v, entered, limit, timeout, first.error.content, op, r, from + 1, at, n))
    // Only what the view served is returned, and a failure is the view's or the demand's.
    && (if r.Ok? then Given(v, from, to, op, r.bytes) else Failure(v, d.wants.Some?, from, to, op, r))
    // Unwired, nothing is recorded or submitted; a served answer changes nothing.
    && (d.wants == None || a.Served? ==> e == d)
    && Named(d, a, e)
  }

  /** Observed-invalid bytes are named before anything else. */
  predicate Named(d: Desk, a: Answer, e: Desk) {
    match a
    case Failed(Rejected(c, kind)) =>
      d.wants.Some? && e.quarantine.Some? ==> Report(c, kind) in e.quarantine.value
    case Failed(Lost(c, kind)) =>
      d.wants.Some? && e.scrub.Some? ==> Report(c, kind) in e.scrub.value
    case _ => true
  }

  lemma NamedFirst(d: Desk, now: nat, a: Answer, e: Desk)
    requires Follows(Entered(d, now, a).0, e)
    ensures Named(d, a, e)
  {
  }

  lemma CameAfterWait(v: Timeline, limit: nat, timeout: nat, op: Op, d: Desk, from: nat, at: nat,
                      r: Result, e: Desk, to: nat, n: nat, entered: Desk, c: ContentId)
    requires Entered(d, at, AnswerAt(v, from, op)).0 == entered
    requires Entered(d, at, AnswerAt(v, from, op)).1 == Failed(NotMaterialized(c))
    requires d.wants.Some? && from < to && Follows(entered, e)
    requires Waited(v, entered, limit, timeout, c, op, r, from + 1, at, n) && Outcome(v, from + 1, to, op, r, c)
    ensures Came(v, limit, timeout, op, d, from, at, r, e, to, n)
  {
    WaitFails(v, d, at, from, to, op, r, c);
    NamedFirst(d, at, AnswerAt(v, from, op), e);
  }

  lemma CameAtOnce(v: Timeline, limit: nat, timeout: nat, op: Op, d: Desk, from: nat, at: nat,
                   r: Result, e: Desk, n: nat, first: Answer)
    requires first == Entered(d, at, AnswerAt(v, from, op)).1 && !Waits(d, first) && r == FirstTouch(d.wants.Some?, first)
    requires e == if first.Failed? && first.error.Unavailable? then Reopened(d, limit, first.error.content) else d
    ensures Came(v, limit, timeout, op, d, from, at, r, e, from + 1, n)
  {
    FirstFails(v, d.wants.Some?, from, from + 1, op, r);
  }

  /** What arrives once it is demanded is returned, if there is room to demand it. */
  lemma ArrivalIsReturned(v: Timeline, limit: nat, timeout: nat, op: Op, d: Desk, from: nat, at: nat,
                          r: Result, e: Desk, to: nat, n: nat)
    requires Came(v, limit, timeout, op, d, from, at, r, e, to, n)
    requires Arrives(v, d, op) && Roomy(d, limit)
    ensures r.Ok?
  {
    var (entered, first) := Entered(d, at, AnswerAt(v, from, op));
    if Waits(d, first) {
      assert ServedAfter(v, op, from);
      RoomyRegisters(entered, limit, first.error.content);
      ServedSettles(v, entered, from + 1, at, op, timeout, n, r != Err(Timeout(first.error.content)));
    }
  }

  class LiveReader {
    var desk: Desk
    const limit: nat
    const timeout: nat
    /** The largest length the address space can hold. */
    const addressable: nat

    /** Probe the operation once; the result says whether the wait is over. */
    method Probe(w: World, op: Op) returns (done: bool)
      requires Sound(limit, desk)
      modifies this, w
      ensures Sound(limit, desk) && Follows(old(desk), desk)
      ensures old(desk).wants.Some? ==> desk.wants.value.pending == old(desk).wants.value.pending
      ensures w.step == old(w.step) + 1 && w.now == old(w.now) + LagAt(w.line, old(w.step))
      ensures desk == Probed(old(desk), limit, w.now, AnswerAt(w.line, old(w.step), op))
      ensures done <==> Settles(desk, w.now, AnswerAt(w.line, old(w.step), op))
    {
      var a := w.Ask(op);
      ProbedFollows(limit, desk, w.now, a);
      desk := Probed(desk, limit, w.now, a);
      done := Settles(desk, w.now, a);
    }

    /** Register, poll until settled or expired, and always leave. `n` probes left it open. */
    method WaitForMaterialization(w: World, op: Op, content: ContentId) returns (r: Option<WantError>, ghost n: nat)
      requires Sound(limit, desk) && desk.wants.Some?
      modifies this, w
      ensures Sound(limit, desk) && Follows(old(desk), desk)
      ensures desk.wants.value.pending <= old(desk).wants.value.pending + {content}
      ensures content !in old(desk).wants.value.waiting ==> desk.wants.value.pending == old(desk).wants.value.pending
      ensures r == Some(SaturatedError) <==> Registered(old(desk).wants.value, limit, content) == None
      ensures r == Some(SaturatedError) ==> desk == old(desk) && w.step == old(w.step) && w.now == old(w.now)
      ensures r != Some(SaturatedError) ==>
                && w.step == old(w.step) + 2 * n + 1 && w.now == ProbeTime(w.line, old(w.step), old(w.now), n)
                && WaitRan(w.line, old(desk), old(w.step), old(w.now), op, timeout, n, r == None)
    {
      var before := desk.wants.value;
      var registered := Registered(before, limit, content);
      n := 0;
      if registered == None {
        return Some(SaturatedError), 0;
      }
      RegisterKeepsValid(before, limit, content);
      desk := desk.(wants := registered);
      ghost var mid := desk;
      assert Follows(mid, mid);
      var settled;
      settled, n := PollUntil(w, op, old(desk), mid);
      Leave(content, before, mid, old(desk));
      r := if settled then None else Some(TimedOut);
    }

    /** Probe and sleep until a probe ends the wait. */
    method PollUntil(w: World, op: Op, ghost d: Desk, ghost mid: Desk) returns (settled: bool, ghost n: nat)
      requires Sound(limit, desk) && Follows(mid, desk) && desk == mid && mid.wants.Some?
      requires d.rejections == mid.rejections && d.losses == mid.losses
      modifies this, w
      ensures Sound(limit, desk) && Follows(mid, desk) && desk.wants.value.pending == mid.wants.value.pending
      ensures w.step == old(w.step) + 2 * n + 1 && w.now == ProbeTime(w.line, old(w.step), old(w.now), n)
      ensures WaitRan(w.line, d, old(w.step), old(w.now), op, timeout, n, settled)
    {
      n := 0;
      ghost var from := w.step;
      var started := w.now;
      while true
        invariant Sound(limit, desk) && Follows(mid, desk)
        invariant desk.wants.value.pending == mid.wants.value.pending
        invariant w.step == from + 2 * n
        invariant Ongoing(w.line, d, from, started, op, timeout, n, desk, w.now)
        decreases started + timeout - w.now
      {
        var over := Poll(w, op, started, d, mid, from, n);
        if over.Some? {
          return over.value, n;
        }
        n := n + 1;
      }
    }

    /** One probe; unless it ends the wait, sleep. */
    method Poll(w: World, op: Op, started: nat, ghost d: Desk, ghost mid: Desk, ghost from: nat, ghost n: nat)
      returns (over: Option<bool>)
      requires Sound(limit, desk) && Follows(mid, desk) && mid.wants.Some?
      requires desk.wants.value.pending == mid.wants.value.pending
      requires w.step == from + 2 * n && Ongoing(w.line, d, from, started, op, timeout, n, desk, w.now)
      modifies this, w
      ensures Sound(limit, desk) && Follows(mid, desk)
      ensures desk.wants.value.pending == mid.wants.value.pending
      ensures over.Some? ==>
                && w.step == from + 2 * n + 1 && w.now == ProbeTime(w.line, from, started, n)
                && WaitRan(w.line, d, from, started, op, timeout, n, over.value)
      ensures over == None ==>
                && w.step == from + 2 * (n + 1) && old(w.now) < w.now && old(w.now) < started + timeout
                && Ongoing(w.line, d, from, started, op, timeout, n + 1, desk, w.now)
    {
      ghost var earlier, now := desk, w.now;
      var done := Probe(w, op);
      FollowsChains(mid, earlier, desk);
      OngoingProbe(w.line, d, from, started, op, timeout, n, earlier, now, limit, desk, w.now);
      if done || w.now - started >= timeout {
        return Some(done);
      }
      w.Sleep();
      over := None;
    }

    method Leave(content: ContentId, ghost before: Registry, ghost mid: Desk, ghost start: Desk)
      requires Sound(limit, desk) && Follows(mid, desk) && start.wants == Some(before)
      requires Valid(before, limit) && Registered(before, limit, content).Some?
      requires mid == start.(wants := Registered(before, limit, content))
      requires desk.wants.value.pending == mid.wants.value.pending
      modifies this
      ensures Sound(limit, desk) && Follows(start, desk)
      ensures desk.wants.value.pending <= before.pending + {content}
      ensures content !in before.waiting ==> desk.wants.value.pending == before.pending
      ensures desk.rejections == old(desk).rejections && desk.losses == old(desk).losses
    {
      ReleaseKeepsValid(desk.wants.value, limit, content);
      Balanced(before, limit, content, desk.wants.value);
      desk := desk.(wants := Some(Released(desk.wants.value, content)));
    }

    /** An open or a windowed read: first touch, then at most one bounded wait. `at` is when
        the view first answered, `n` how many probes left the wait open. */
    method WithDemand(w: World, op: Op) returns (r: Result, ghost at: nat, ghost n: nat)
      requires Sound(limit, desk)
      modifies this, w
      ensures Sound(limit, desk) && Follows(old(desk), desk)
      ensures at == old(w.now) + LagAt(w.line, old(w.step))
      ensures Came(w.line, limit, timeout, op, old(desk), old(w.step), at, r, desk, w.step, n)
    {
      ghost var from, d := w.step, desk;
      var a := w.Ask(op);
      at, n := w.now, 0;
      EnteredFollows(desk, w.now, a);
      var entered, first := Entered(desk, w.now, a).0, Entered(desk, w.now, a).1;
      desk := entered;
      if Waits(desk, first) {
        r, n := AfterWait(w, op, first.error.content);
        CameAfterWait(w.line, limit, timeout, op, d, from, at, r, desk, w.step, n, entered, first.error.content);
      } else {
        NoteTouch(first);
        r := FirstTouch(desk.wants.Some?, first);
        CameAtOnce(w.line, limit, timeout, op, d, from, at, r, desk, n, first);
      }
      FollowsChains(d, entered, desk);
    }

    /** An unavailable verdict leaves a note for the loop to reopen the content. */
    method NoteTouch(first: Answer)
      requires Sound(limit, desk)
      modifies this
      ensures Sound(limit, desk) && Follows(old(desk), desk)
      ensures desk == if first.Failed? && first.error.Unavailable? then Reopened(old(desk), limit, first.error.content)
                      else old(desk)
    {
      if desk.wants.Some? && first.Failed? && first.error.Unavailable? {
        NoteKeepsValid(desk.wants.value, limit, first.error.content);
        desk := Reopened(desk, limit, first.error.content);
      }
    }

    /** Wait, then ask once more. */
    method AfterWait(w: World, op: Op, content: ContentId) returns (r: Result, ghost n: nat)
      requires Sound(limit, desk) && desk.wants.Some?
      modifies this, w
      ensures Sound(limit, desk) && Follows(old(desk), desk) && w.step >= old(w.step)
      ensures Waited(w.line, old(desk), limit, timeout, content, op, r, old(w.step), old(w.now), n)
      ensures Outcome(w.line, old(w.step), w.step, op, r, content)
    {
      var waited;
      waited, n := WaitForMaterialization(w, op, content);
      match waited {
        case None =>
          var again := w.Ask(op);
          r := Retried(again);
        case Some(TimedOut) => r := Err(Timeout(content));
        case Some(cause) => r := Err(Demand(cause));
      }
    }
  }

  // ---- whole files

  /** What a lookup found. */
  datatype Found = File(size: nat) | NonFile | Absent(error: ViewError)

  /** Every window served is a beginning of that window of `data`. */
  ghost predicate Faithful(v: Timeline, data: seq<Byte>) {
    forall k, offset, len :: AnswerAt(v, k, Window(offset, len)).Served? ==>
                               WindowOf(data, offset, len, AnswerAt(v, k, Window(offset, len)).bytes)
  }

  predicate WindowOf(data: seq<Byte>, offset: nat, len: nat, bytes: seq<Byte>) {
    |bytes| <= len && (bytes != [] ==> offset + |bytes| <= |data| && bytes == data[offset..offset + |bytes|])
  }

  function Min(a: nat, b: nat): nat {
    if a < b then a else b
  }

  lemma GivenWindow(v: Timeline, data: seq<Byte>, from: nat, to: nat, offset: nat, len: nat, bytes: seq<Byte>)
    requires Faithful(v, data) && Given(v, from, to, Window(offset, len), bytes)
    ensures WindowOf(data, offset, len, bytes)
  {
    var k :| from <= k < to && AnswerAt(v, k, Window(offset, len)) == Served(bytes);
  }

  lemma Extend(data: seq<Byte>, offset: nat, bytes: seq<Byte>, chunk: seq<Byte>)
    requires offset + |chunk| <= |data| && bytes == data[..offset] && chunk == data[offset..offset + |chunk|]
    ensures bytes + chunk == data[..offset + |chunk|]
  {
  }

  /** Every window asked for inside the file is served, and none comes back empty. */
  ghost predicate Serves(v: Timeline, size: nat) {
    forall k: nat, offset: nat, len: nat :: offset < size && 0 < len ==>
                               && AnswerAt(v, k, Window(offset, len)).Served?
                               && AnswerAt(v, k, Window(offset, len)).bytes != []
  }

  /** Every window asked for inside the file arrives once demanded, and none comes back empty. */
  ghost predicate Delivers(v: Timeline, d: Desk, size: nat) {
    && (forall offset: nat, len: nat :: offset < size && 0 < len ==> Arrives(v, d, Window(offset, len)))
    && (forall k: nat, offset: nat, len: nat :: offset < size && 0 < len ==> AnswerAt(v, k, Window(offset, len)) != Served([]))
  }

  lemma DeliversOn(v: Timeline, d: Desk, e: Desk, size: nat)
    requires Follows(d, e) && Delivers(v, d, size)
    ensures Delivers(v, e, size)
  {
    forall offset: nat, len: nat | offset < size && 0 < len ensures Arrives(v, e, Window(offset, len)) {
      ArrivesOn(v, d, e, Window(offset, len));
    }
  }

  lemma ArrivesOn(v: Timeline, d: Desk, e: Desk, op: Op)
    requires Follows(d, e) && Arrives(v, d, op)
    ensures Arrives(v, e, op)
  {
  }

  /** Why a read stopped at the window at `at`, asked for at step `since`. */
  ghost predicate Stopped(v: Timeline, wired: bool, since: nat, to: nat, op: Op, r: Result) {
    Failure(v, wired, since, to, op, r) || (Given(v, since, to, op, []) && r == Err(View(Corrupt)))
  }

  /** Every window is served, or there is room to demand those that are not. */
  ghost predicate Readable(v: Timeline, d: Desk, limit: nat, size: nat) {
    Serves(v, size) || (Delivers(v, d, size) && Roomy(d, limit))
  }

  /** A read begun at `start` and now at `d`. */
  ghost predicate Reading(v: Timeline, limit: nat, size: nat, start: Desk, d: Desk) {
    Sound(limit, d) && Follows(start, d) && (Readable(v, start, limit, size) ==> Readable(v, d, limit, size))
  }

  lemma ReadingOn(v: Timeline, limit: nat, size: nat, start: Desk, d: Desk, e: Desk)
    requires Reading(v, limit, size, start, d) && Sound(limit, e) && Follows(d, e)
    ensures Reading(v, limit, size, start, e)
  {
    FollowsChains(start, d, e);
    RoomIsKept(d, e, limit);
    if Delivers(v, d, size) {
      DeliversOn(v, d, e, size);
    }
  }

  lemma ReadableReturns(v: Timeline, limit: nat, size: nat, timeout: nat, offset: nat, len: nat,
                        d: Desk, from: nat, at: nat, r: Result, e: Desk, to: nat, n: nat)
    requires Readable(v, d, limit, size) && offset < size && 0 < len
    requires Came(v, limit, timeout, Window(offset, len), d, from, at, r, e, to, n)
    ensures r.Ok?
  {
    if Serves(v, size) {
      assert AnswerAt(v, from, Window(offset, len)).Served?;
    } else {
      ArrivalIsReturned(v, limit, timeout, Window(offset, len), d, from, at, r, e, to, n);
    }
  }

  lemma OpensReturns(v: Timeline, limit: nat, timeout: nat, d: Desk, from: nat, at: nat, r: Result, e: Desk, to: nat, n: nat)
    requires Opens(v, d, limit) && Came(v, limit, timeout, Open, d, from, at, r, e, to, n)
    ensures r.Ok?
  {
    if !AnswerAt(v, from, Open).Served? {
      ArrivalIsReturned(v, limit, timeout, Open, d, from, at, r, e, to, n);
    }
  }

  /** One window, which must not come back empty. */
  method ReadWindow(reader: LiveReader, w: World, size: nat, offset: nat, window: nat, ghost data: seq<Byte>, ghost start: Desk)
    returns (r: Result)
    requires Reading(w.line, reader.limit, size, start, reader.desk) && offset < size && 0 < window
    modifies reader, w
    ensures Reading(w.line, reader.limit, size, start, reader.desk) && w.step > old(w.step)
    ensures r.Ok? ==> r.bytes != [] && (Faithful(w.line, data) ==> WindowOf(data, offset, window, r.bytes))
    ensures r.Err? ==> Stopped(w.line, start.wants.Some?, old(w.step), w.step, Window(offset, window), r)
    ensures Readable(w.line, start, reader.limit, size) ==> r.Ok?
  {
    ghost var from, when, n := w.step, 0, 0;
    r, when, n := reader.WithDemand(w, Window(offset, window));
    ReadingOn(w.line, reader.limit, size, start, old(reader.desk), reader.desk);
    if Readable(w.line, start, reader.limit, size) {
      ReadableReturns(w.line, reader.limit, size, reader.timeout, offset, window,
                      old(reader.desk), from, when, r, reader.desk, w.step, n);
    }
    if r.Ok? {
      if Faithful(w.line, data) {
        GivenWindow(w.line, data, from, w.step, offset, window, r.bytes);
      }
      if r.bytes == [] {
        NotServing(w.line, start, size, from, w.step, offset, window);
        r := Err(View(Corrupt));
      }
    }
  }

  lemma NotServing(v: Timeline, d: Desk, size: nat, from: nat, to: nat, offset: nat, len: nat)
    requires Given(v, from, to, Window(offset, len), []) && offset < size && 0 < len
    ensures !Serves(v, size) && !Delivers(v, d, size)
  {
    var k :| from <= k < to && AnswerAt(v, k, Window(offset, len)) == Served([]);
  }

  /** The declared size in windows, however short each one comes back. A failed read stopped at
      the window at `at`, asked for at step `since`. */
  method ReadWindows(reader: LiveReader, w: World, size: nat, ghost data: seq<Byte>, ghost start: Desk)
    returns (r: Result, ghost at: nat, ghost since: nat)
    requires Reading(w.line, reader.limit, size, start, reader.desk)
    modifies reader, w
    ensures Sound(reader.limit, reader.desk) && Follows(start, reader.desk) && w.step >= old(w.step)
    // Success is the file's beginning, whole.
    ensures Faithful(w.line, data) && r.Ok? ==> size <= |data| && r.bytes == data[..size]
    // A view that serves every window is read to the end; with room for demand, so is one
    // whose windows arrive when demanded.
    ensures size <= reader.addressable && Readable(w.line, start, reader.limit, size) ==> r.Ok?
    // Failure is a size past the address space, an empty window, or the window's own failure.
    ensures size > reader.addressable ==> r == Err(View(Corrupt))
    ensures r.Err? && size <= reader.addressable ==>
              && at < size && old(w.step) <= since
              && Stopped(w.line, start.wants.Some?, since, w.step, Window(at, Min(size - at, READ_WINDOW)), r)
  {
    var bytes := [];
    var offset := 0;
    at, since := 0, w.step;
    while offset < size
      invariant Reading(w.line, reader.limit, size, start, reader.desk) && w.step >= old(w.step)
      invariant size > reader.addressable ==> offset == 0
      invariant Faithful(w.line, data) ==> offset <= size && offset <= |data| && bytes == data[..offset]
      decreases size - offset
    {
      if size - offset > reader.addressable {
        return Err(View(Corrupt)), at, since;
      }
      var window := Min(size - offset, READ_WINDOW);
      at, since := offset, w.step;
      var chunk := ReadWindow(reader, w, size, offset, window, data, start);
      if chunk.Err? {
        return chunk, at, since;
      }
      if Faithful(w.line, data) {
        Extend(data, offset, bytes, chunk.bytes);
      }
      offset := offset + |chunk.bytes|;
      bytes := bytes + chunk.bytes;
    }
    r := Ok(bytes);
  }

  /** The open is served whenever asked, or arrives and there is room to demand it. */
  ghost predicate Opens(v: Timeline, d: Desk, limit: nat) {
    (forall k: nat :: AnswerAt(v, k, Open).Served?) || (Arrives(v, d, Open) && Roomy(d, limit))
  }

  /** How opening and reading a file of that size can end, from step `from` to step `to`: whole,
      stopped at the open, or stopped at the window at `at`, asked for at step `since`. */
  ghost predicate Ended(v: Timeline, d: Desk, limit: nat, addressable: nat, size: nat, data: seq<Byte>,
                        from: nat, to: nat, r: Result, opening: bool, at: nat, since: nat)
  {
    && (r.Ok? && Faithful(v, data) ==> size <= |data| && r.bytes == data[..size])
    && (size <= addressable && Opens(v, d, limit) && Readable(v, d, limit, size) ==> r.Ok?)
    && (r.Err? ==>
          if opening then Failure(v, d.wants.Some?, from, to, Open, r)
          else if size > addressable then r == Err(View(Corrupt))
          else at < size && from <= since && Stopped(v, d.wants.Some?, since, to, Window(at, Min(size - at, READ_WINDOW)), r))
  }

  method OpenAndRead(reader: LiveReader, w: World, size: nat, ghost data: seq<Byte>)
    returns (r: Result, ghost opening: bool, ghost at: nat, ghost since: nat)
    requires Sound(reader.limit, reader.desk)
    modifies reader, w
    ensures Sound(reader.limit, reader.desk) && Follows(old(reader.desk), reader.desk)
    ensures Ended(w.line, old(reader.desk), reader.limit, reader.addressable, size, data,
                  old(w.step), w.step, r, opening, at, since)
  {
    opening, at, since := true, 0, 0;
    ghost var start, when, n := reader.desk, 0, 0;
    assert Follows(start, start);
    r, when, n := reader.WithDemand(w, Open);
    if Opens(w.line, start, reader.limit) {
      OpensReturns(w.line, reader.limit, reader.timeout, start, old(w.step), when, r, reader.desk, w.step, n);
    }
    if r.Ok? {
      opening := false;
      ReadingOn(w.line, reader.limit, size, start, start, reader.desk);
      r, at, since := ReadWindows(reader, w, size, data, start);
    }
  }

  /** Look up, open, read. */
  method ReadFile(reader: LiveReader, w: World, found: Found, ghost data: seq<Byte>)
    returns (r: Result, ghost opening: bool, ghost at: nat, ghost since: nat)
    requires Sound(reader.limit, reader.desk)
    modifies reader, w
    ensures Sound(reader.limit, reader.desk) && Follows(old(reader.desk), reader.desk)
    ensures match found
            case Absent(e) => r == Err(View(e)) && w.step == old(w.step)
            case NonFile =>
              var a := AnswerAt(w.line, old(w.step), Open);
              r == Err(View(if a.Failed? then a.error else NotAFile))
            case File(size) =>
              Ended(w.line, old(reader.desk), reader.limit, reader.addressable, size, data,
                    old(w.step), w.step, r, opening, at, since)
  {
    opening, at, since := false, 0, 0;
    match found {
      case Absent(e) => r := Err(View(e));
      case NonFile =>
        var a := w.Ask(Open);
        r := Err(View(if a.Failed? then a.error else NotAFile));
      case File(size) =>
        r, opening, at, since := OpenAndRead(reader, w, size, data);
    }
  }
}
