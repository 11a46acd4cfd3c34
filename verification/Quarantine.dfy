/** Rejected-representation repair as a machine of atomic effects, with readers,
    fetches, bit rot and crashes between any two of them. */
module Quarantine {
  import opened Identity
  import opened RepairQueue
  import opened SyncEngine

  /** Stored bytes under an identity's name; `valid` when they hash back to it. */
  datatype Blob = Blob(size: nat, valid: bool)

  datatype Phase =
    | Idle
    | Taking(cap: nat, batch: seq<Report>)
    | Committing(batch: seq<Report>)
    | Discarding(batch: seq<Report>, at: nat)

  /** `emitted` and `discarded` record the drains' reports so far, `removed` the
      identities a drain unlinked whose name was not written again. */
  datatype State = State(
    queue: set<Report>,
    claims: set<ContentId>,
    policy: map<ContentId, Materialization>,
    store: map<ContentId, Blob>,
    retained: nat,
    emitted: seq<Report>,
    discarded: nat,
    removed: set<ContentId>,
    phase: Phase)

  datatype Act =
    // Readers, fetches and the disk.
    | Submit(r: Report)
    | Land(c: ContentId, size: nat)
    | Rot(c: ContentId, size: nat)
    | Vanish(c: ContentId)
    | Claim(c: ContentId)
    // The drain.
    | Begin(cap: nat)
    | Pop
    | Gathered
    | Clear
    | ClearFails
    | Discard
    | DiscardFails
    | Finish
    | Abort
    // The process dies; the accountant is reseeded from the store.
    | Crash(seed: nat)

  function Contents(batch: seq<Report>): set<ContentId> {
    set r | r in batch :: r.content
  }

  predicate Can(s: State, a: Act) {
    match a
    case Submit(_) => true
    case Land(_, _) => true
    case Rot(c, _) => c in s.store
    case Vanish(_) => true
    // Only the loop commits facts, and not while it drains; a claim follows its bytes.
    case Claim(c) => s.phase.Idle? && c in s.store
    case Begin(_) => s.phase.Idle?
    case Pop => s.phase.Taking? && |s.phase.batch| < s.phase.cap && s.queue != {}
    case Gathered => s.phase.Taking? && (|s.phase.batch| >= s.phase.cap || s.queue == {})
    case Clear => s.phase.Committing?
    case ClearFails => s.phase.Committing?
    case Discard => s.phase.Discarding? && s.phase.at < |s.phase.batch|
    case DiscardFails => s.phase.Discarding? && s.phase.at < |s.phase.batch|
    case Finish => s.phase.Discarding? && s.phase.at >= |s.phase.batch|
    case Abort => s.phase.Discarding?
    case Crash(_) => true
  }

  /** Verify, then delete: absent and healed bytes are left alone. */
  function Discarded(s: State, c: ContentId): State {
    if c in s.store && !s.store[c].valid then
      var size := s.store[c].size;
      s.(store := s.store - {c}, removed := s.removed + {c}, discarded := s.discarded + size,
         retained := TakenOff(s.retained, size))
    else s
  }

  function Step(s: State, a: Act): State
    requires Can(s, a)
  {
    match a
    case Submit(r) => s.(queue := s.queue + {r})
    case Land(c, size) => s.(store := s.store[c := Blob(size, true)], removed := s.removed - {c})
    case Rot(c, size) => s.(store := s.store[c := Blob(size, false)])
    case Vanish(c) => s.(store := s.store - {c})
    case Claim(c) => s.(claims := s.claims + {c})
    case Begin(cap) => s.(phase := Taking(cap, []))
    case Pop =>
      var r := First(s.queue);
      s.(queue := s.queue - {r}, emitted := s.emitted + [r], phase := Taking(s.phase.cap, s.phase.batch + [r]))
    case Gathered => s.(phase := if s.phase.batch == [] then Idle else Committing(s.phase.batch))
    case Clear => s.(claims := s.claims - Contents(s.phase.batch), phase := Discarding(s.phase.batch, 0))
    case ClearFails => s.(phase := Idle)
    case Discard => Discarded(s, s.phase.batch[s.phase.at].content).(phase := s.phase.(at := s.phase.at + 1))
    case DiscardFails => s.(phase := s.phase.(at := s.phase.at + 1))
    case Finish => s.(phase := Idle)
    case Abort => s.(phase := Idle)
    case Crash(seed) => s.(queue := {}, retained := seed, phase := Idle)
  }

  function Run(s: State, acts: seq<Act>): State {
    if acts == [] then s
    else
      var p := Run(s, acts[..|acts| - 1]);
      if Can(p, acts[|acts| - 1]) then Step(p, acts[|acts| - 1]) else p
  }

  function Fresh(claims: set<ContentId>, policy: map<ContentId, Materialization>, store: map<ContentId, Blob>, retained: nat): State {
    State({}, claims, policy, store, retained, [], 0, {}, Idle)
  }

  function Batch(p: Phase): seq<Report> {
    if p.Idle? then [] else p.batch
  }

  /** Diagnostic before delete, claim before bytes. */
  ghost predicate Ordered(s: State) {
    && (forall r :: r in Batch(s.phase) ==> r in s.emitted)
    && (s.phase.Discarding? ==> forall r :: r in s.phase.batch ==> r.content !in s.claims)
    && (forall c :: c in s.removed ==> c in Contents(s.emitted))
    && s.removed !! s.claims
    && s.removed !! s.store.Keys
  }

  lemma DiscardOrdered(s: State)
    requires Ordered(s) && Can(s, Discard)
    ensures Ordered(Step(s, Discard))
  {
    var r := s.phase.batch[s.phase.at];
    assert r in s.phase.batch && r in s.emitted;
  }

  lemma PopOrdered(s: State)
    requires Ordered(s) && Can(s, Pop)
    ensures Ordered(Step(s, Pop))
  {
    var r, t := First(s.queue), Step(s, Pop);
    assert forall x :: x in s.emitted ==> x in t.emitted;
    assert forall x :: x in t.phase.batch ==> x in s.phase.batch || x == r;
    assert forall c :: c in Contents(s.emitted) ==> c in Contents(t.emitted);
  }

  lemma StepOrdered(s: State, a: Act)
    requires Ordered(s) && Can(s, a)
    ensures Ordered(Step(s, a))
  {
    match a {
      case Pop => PopOrdered(s);
      case Discard => DiscardOrdered(s);
      case Clear =>
        assert forall r :: r in s.phase.batch ==> r.content in Contents(s.phase.batch);
      case _ =>
    }
  }

  /** At every prefix of every run, crashes and aborts included: what a drain removed
      was reported first, carries no claim, and is gone from the store. */
  lemma {:induction false} EveryPrefixIsOrdered(s: State, acts: seq<Act>)
    requires s == Fresh(s.claims, s.policy, s.store, s.retained)
    ensures Ordered(Run(s, acts))
    ensures Run(s, acts).policy == s.policy
  {
    if acts != [] {
      EveryPrefixIsOrdered(s, acts[..|acts| - 1]);
      var p := Run(s, acts[..|acts| - 1]);
      if Can(p, acts[|acts| - 1]) {
        StepOrdered(p, acts[|acts| - 1]);
      }
    }
  }

  /** Bytes leave by the drain's own hand only when they fail verification at that
      moment, were reported, and are already unclaimed; the accountant loses exactly
      their size unless it holds less. */
  lemma RemovalIsJustified(s: State, acts: seq<Act>, a: Act, c: ContentId)
    requires s == Fresh(s.claims, s.policy, s.store, s.retained)
    requires var p := Run(s, acts);
             && Can(p, a) && !a.Land? && !a.Rot? && !a.Vanish?
             && c in p.store && (c !in Step(p, a).store || Step(p, a).store[c] != p.store[c])
    ensures var p := Run(s, acts);
            && a.Discard? && !p.store[c].valid
            && c in Contents(p.emitted) && c !in p.claims
            && c !in Step(p, a).store && c in Step(p, a).removed
            && Step(p, a).discarded == p.discarded + p.store[c].size
            && (Step(p, a).retained == p.retained - p.store[c].size <==> p.store[c].size <= p.retained)
  {
    EveryPrefixIsOrdered(s, acts);
    var p := Run(s, acts);
    var r := p.phase.batch[p.phase.at];
    assert r in p.phase.batch && r in p.emitted;
  }

  // ---- successive drains

  /** What `j` drains emit when nothing is submitted meanwhile. */
  function EmittedOver(q: set<Report>, cap: nat, j: nat): seq<Report>
    decreases j
  {
    if j == 0 then []
    else Popped(q, cap) + EmittedOver(q - Elements(Popped(q, cap)), cap, j - 1)
  }

  lemma {:induction false} DrainsChain(q: set<Report>, cap: nat, j: nat)
    ensures EmittedOver(q, cap, j) == Popped(q, j * cap)
    decreases j
  {
    if j != 0 {
      var left := q - Elements(Popped(q, cap));
      DrainsChain(left, cap, j - 1);
      assert j * cap == cap + (j - 1) * cap;
      PoppedSplits(q, cap, (j - 1) * cap);
    }
  }

  /** Enough drains emit every queued report exactly once; fewer emit only queued
      reports, none twice, and exactly as many as their caps add up to. */
  lemma DrainsEmitOnce(q: set<Report>, cap: nat, j: nat)
    ensures NoDuplicates(EmittedOver(q, cap, j))
    ensures Elements(EmittedOver(q, cap, j)) <= q
    ensures |EmittedOver(q, cap, j)| == if j * cap < |q| then j * cap else |q|
    ensures |q| <= j * cap ==> Elements(EmittedOver(q, cap, j)) == q
  {
    DrainsChain(q, cap, j);
    PoppedCount(q, j * cap);
    DistinctCount(EmittedOver(q, cap, j));
    if |q| <= j * cap {
      assert q == Elements(EmittedOver(q, cap, j)) + (q - Elements(EmittedOver(q, cap, j)));
    }
  }

  // ---- the drain itself

  datatype DiscardOutcome = Removed(bytes: nat) | Absent | NowValid | Fault

  class Store {
    var blobs: map<ContentId, Blob>

    /** Unlink a rejected representation after confirming it still fails verification. */
    method DiscardRejected(c: ContentId, fault: bool) returns (r: DiscardOutcome)
      modifies this
      ensures fault ==> r == Fault && blobs == old(blobs)
      ensures !fault && c !in old(blobs) ==> r == Absent && blobs == old(blobs)
      ensures !fault && c in old(blobs) && old(blobs)[c].valid ==> r == NowValid && blobs == old(blobs)
      ensures !fault && c in old(blobs) && !old(blobs)[c].valid ==>
                r == Removed(old(blobs)[c].size) && blobs == old(blobs) - {c}
    {
      if fault {
        return Fault;
      }
      if c !in blobs {
        return Absent;
      }
      if blobs[c].valid {
        return NowValid;
      }
      r := Removed(blobs[c].size);
      blobs := blobs - {c};
    }
  }

  datatype QuarantineReport = QuarantineReport(observed: nat, claimsCleared: nat, bytesDiscarded: nat, failures: nat)

  lemma RunLast(s: State, acts: seq<Act>, front: seq<Act>, a: Act)
    requires acts == front + [a]
    ensures Run(s, acts) == if Can(Run(s, front), a) then Step(Run(s, front), a) else Run(s, front)
  {
    assert acts[..|acts| - 1] == front;
  }

  lemma Extend(s: State, acts: seq<Act>, a: Act)
    requires Can(Run(s, acts), a)
    ensures Run(s, acts + [a]) == Step(Run(s, acts), a)
  {
    RunLast(s, acts + [a], acts, a);
  }

  predicate Drains(a: Act) {
    a.Begin? || a.Pop? || a.Gathered? || a.Clear? || a.ClearFails? || a.Discard? || a.DiscardFails? || a.Finish?
  }

  predicate OnlyDrains(acts: seq<Act>) {
    forall a :: a in acts ==> Drains(a)
  }

  /** A drain's own acts lead from `s` to `t`. */
  ghost predicate Drained(s: State, t: State) {
    exists acts :: OnlyDrains(acts) && Run(s, acts) == t
  }

  lemma DrainedAtFirst(s: State)
    ensures Drained(s, s)
  {
    assert OnlyDrains([]) && Run(s, []) == s;
  }

  lemma DrainedOn(s: State, t: State, a: Act)
    requires Drained(s, t) && Can(t, a) && Drains(a)
    ensures Drained(s, Step(t, a))
  {
    var acts :| OnlyDrains(acts) && Run(s, acts) == t;
    Extend(s, acts, a);
    assert OnlyDrains(acts + [a]);
  }

  lemma StepAccounts(s: State, a: Act)
    requires Can(s, a) && Drains(a)
    ensures Step(s, a).discarded >= s.discarded
    ensures Step(s, a).retained == TakenOff(s.retained, Step(s, a).discarded - s.discarded)
  {
  }

  /** Over a drain the accountant drops by exactly the bytes discarded, down to zero. */
  lemma {:induction false} DrainAccounts(s: State, acts: seq<Act>)
    requires OnlyDrains(acts)
    ensures Run(s, acts).discarded >= s.discarded
    ensures Run(s, acts).retained == TakenOff(s.retained, Run(s, acts).discarded - s.discarded)
  {
    if acts != [] {
      var front, a := acts[..|acts| - 1], acts[|acts| - 1];
      assert forall x :: x in front ==> x in acts;
      assert a in acts;
      DrainAccounts(s, front);
      if Can(Run(s, front), a) {
        StepAccounts(Run(s, front), a);
      }
    }
  }

  lemma NextPopped(all: set<Report>, cap: nat, left: set<Report>, batch: seq<Report>)
    requires |batch| < cap && left != {} && Popped(all, cap) == batch + Popped(left, cap - |batch|)
    ensures Popped(all, cap) == (batch + [First(left)]) + Popped(left - {First(left)}, cap - |batch| - 1)
  {
    assert batch + ([First(left)] + Popped(left - {First(left)}, cap - |batch| - 1))
        == (batch + [First(left)]) + Popped(left - {First(left)}, cap - |batch| - 1);
  }

  /** The state while `batch` is being gathered and `left` is still queued. */
  function Gathering(s: State, left: set<Report>, cap: nat, batch: seq<Report>): State {
    s.(queue := left, emitted := s.emitted + batch, phase := Taking(cap, batch))
  }

  lemma PopNext(s: State, left: set<Report>, cap: nat, batch: seq<Report>)
    requires left != {} && |batch| < cap && left == s.queue - Elements(batch)
    ensures Can(Gathering(s, left, cap, batch), Pop)
    ensures Step(Gathering(s, left, cap, batch), Pop) == Gathering(s, left - {First(left)}, cap, batch + [First(left)])
    ensures left - {First(left)} == s.queue - Elements(batch + [First(left)])
  {
    Associate(s.emitted, batch, [First(left)]);
    ElementsConcat(batch, [First(left)]);
  }

  /** `batch` is gathered, `left` still queued, and the machine has come along to `t`. */
  ghost predicate Gathers(s: State, cap: nat, left: set<Report>, batch: seq<Report>, t: State) {
    && |batch| <= cap && left == s.queue - Elements(batch)
    && Popped(s.queue, cap) == batch + Popped(left, cap - |batch|)
    && t == Gathering(s, left, cap, batch) && Drained(s, t)
  }

  lemma GatherBegins(s: State, cap: nat)
    requires s.phase == Idle
    ensures Gathers(s, cap, s.queue, [], Step(s, Begin(cap)))
  {
    DrainedAtFirst(s);
    DrainedOn(s, s, Begin(cap));
  }

  lemma GatherNext(s: State, cap: nat, left: set<Report>, batch: seq<Report>, t: State)
    requires Gathers(s, cap, left, batch, t) && |batch| < cap && left != {}
    ensures Gathers(s, cap, left - {First(left)}, batch + [First(left)], Step(t, Pop))
  {
    NextPopped(s.queue, cap, left, batch);
    PopNext(s, left, cap, batch);
    DrainedOn(s, t, Pop);
  }

  lemma GatherEnds(s: State, cap: nat, left: set<Report>, batch: seq<Report>, t: State)
    requires Gathers(s, cap, left, batch, t) && (|batch| == cap || left == {})
    ensures batch == Popped(s.queue, cap) && Drained(s, Step(t, Gathered))
    ensures Step(t, Gathered)
         == s.(queue := left, emitted := s.emitted + batch, phase := if batch == [] then Idle else Committing(batch))
  {
    DrainedOn(s, t, Gathered);
  }

  /** Phase one: pop and emit, each report before anything else happens to it. */
  method Gather(queue: Queue, cap: nat, ghost s: State) returns (batch: seq<Report>, ghost t: State)
    requires s.phase == Idle && s.queue == queue.state
    modifies queue
    ensures batch == Popped(s.queue, cap) && queue.state == s.queue - Elements(batch)
    ensures t == s.(queue := queue.state, emitted := s.emitted + batch, phase := if batch == [] then Idle else Committing(batch))
    ensures Drained(s, t)
  {
    batch, t := [], Step(s, Begin(cap));
    GatherBegins(s, cap);
    while |batch| < cap && queue.state != {}
      invariant Gathers(s, cap, queue.state, batch, t)
      decreases cap - |batch|
    {
      GatherNext(s, cap, queue.state, batch, t);
      var r := queue.Pop();
      batch, t := batch + [r.value], Step(t, Pop);
    }
    GatherEnds(s, cap, queue.state, batch, t);
    t := Step(t, Gathered);
  }

  /** The identities the first `n` discards remove: invalid bytes, deleted without a fault. */
  function Doomed(blobs: map<ContentId, Blob>, batch: seq<Report>, faults: nat -> bool, n: nat): set<ContentId>
    requires n <= |batch|
  {
    set i | 0 <= i < n && !faults(i) && batch[i].content in blobs && !blobs[batch[i].content].valid :: batch[i].content
  }

  function Cleaned(blobs: map<ContentId, Blob>, c: ContentId, fault: bool): map<ContentId, Blob> {
    if !fault && c in blobs && !blobs[c].valid then blobs - {c} else blobs
  }

  lemma DoomedNext(blobs: map<ContentId, Blob>, batch: seq<Report>, faults: nat -> bool, n: nat, left: map<ContentId, Blob>)
    requires n < |batch| && left == blobs - Doomed(blobs, batch, faults, n)
    ensures Cleaned(left, batch[n].content, faults(n)) == blobs - Doomed(blobs, batch, faults, n + 1)
  {
    var c := batch[n].content;
    assert Doomed(blobs, batch, faults, n + 1)
        == Doomed(blobs, batch, faults, n) + (if !faults(n) && c in blobs && !blobs[c].valid then {c} else {});
  }

  /** How many of the first `n` discards hit a fault. */
  function FaultsIn(faults: nat -> bool, n: nat): nat {
    if n == 0 then 0 else FaultsIn(faults, n - 1) + if faults(n - 1) then 1 else 0
  }

  method DiscardOne(store: Store, retained: Accountant, c: ContentId, fault: bool, ghost s: State)
    returns (bytes: nat, failed: bool, ghost a: Act)
    requires s.phase.Discarding? && s.phase.at < |s.phase.batch| && s.phase.batch[s.phase.at].content == c
    requires s.store == store.blobs && s.retained == retained.count
    modifies store, retained
    ensures failed == fault && store.blobs == Cleaned(old(store.blobs), c, fault)
    ensures Can(s, a) && Drains(a)
    ensures var t := Step(s, a);
            && t.phase == Discarding(s.phase.batch, s.phase.at + 1)
            && t.store == store.blobs && t.retained == retained.count && t.discarded == s.discarded + bytes
            && t == s.(store := t.store, retained := t.retained, discarded := t.discarded, removed := t.removed, phase := t.phase)
  {
    bytes, failed := 0, false;
    var outcome := store.DiscardRejected(c, fault);
    match outcome {
      case Removed(size) =>
        bytes := size;
        retained.Subtract(size);
      case Absent =>
      case NowValid =>
      case Fault => failed := true;
    }
    a := if failed then DiscardFails else Discard;
  }

  /** `i` discards from `m` on, the machine has come along to `t`. */
  ghost predicate Discards(s: State, m: State, batch: seq<Report>, faults: nat -> bool, i: nat, t: State) {
    && i <= |batch| && Drained(s, t) && t.phase == Discarding(batch, i)
    && t == m.(store := t.store, retained := t.retained, discarded := t.discarded, removed := t.removed, phase := t.phase)
    && t.store == m.store - Doomed(m.store, batch, faults, i)
  }

  lemma DiscardNext(s: State, m: State, batch: seq<Report>, faults: nat -> bool, i: nat, t: State, a: Act, u: State)
    requires Discards(s, m, batch, faults, i, t) && i < |batch| && Can(t, a) && Drains(a) && u == Step(t, a)
    requires u.phase == Discarding(batch, i + 1) && u.store == Cleaned(t.store, batch[i].content, faults(i))
    requires u == t.(store := u.store, retained := u.retained, discarded := u.discarded, removed := u.removed, phase := u.phase)
    ensures Discards(s, m, batch, faults, i + 1, u)
  {
    DrainedOn(s, t, a);
    DoomedNext(m.store, batch, faults, i, t.store);
  }

  /** Phase three: verify-then-delete one by one; a bad file never blocks the rest. */
  method DiscardAll(store: Store, retained: Accountant, batch: seq<Report>, faults: nat -> bool, ghost s: State, ghost m: State)
    returns (bytes: nat, failures: nat, ghost t: State)
    requires m.phase == Discarding(batch, 0) && m.store == store.blobs && m.retained == retained.count && Drained(s, m)
    modifies store, retained
    ensures Drained(s, t)
    ensures t.store == store.blobs && t.retained == retained.count && t.discarded == m.discarded + bytes
    ensures t == m.(store := t.store, retained := t.retained, discarded := t.discarded, removed := t.removed, phase := Idle)
    ensures store.blobs == old(store.blobs) - Doomed(old(store.blobs), batch, faults, |batch|)
    ensures failures == FaultsIn(faults, |batch|)
  {
    bytes, failures, t := 0, 0, m;
    for i := 0 to |batch|
      invariant Discards(s, m, batch, faults, i, t)
      invariant t.store == store.blobs && t.retained == retained.count && t.discarded == m.discarded + bytes
      invariant failures == FaultsIn(faults, i)
    {
      ghost var a;
      var size, failed;
      size, failed, a := DiscardOne(store, retained, batch[i].content, faults(i), t);
      bytes := bytes + size;
      failures := failures + if failed then 1 else 0;
      DiscardNext(s, m, batch, faults, i, t, a, Step(t, a));
      t := Step(t, a);
    }
    DrainedOn(s, t, Finish);
    t := Step(t, Finish);
  }

  /** Phase two: the claims go in one commit, or the drain aborts with all of them. */
  method ClearClaims(engine: Engine, batch: seq<Report>, disk: Disk, ghost s: State)
    returns (r: Outcome<nat>, ghost act: Act)
    requires s.phase == Committing(batch) && s.claims == engine.claims
    modifies engine
    ensures engine.policy == old(engine.policy) && Can(s, act) && Drains(act)
    ensures Step(s, act).claims == engine.claims
    ensures r == Failed <==> disk.Fails(Contents(batch) * s.claims != {})
    ensures r.Done? ==> act == Clear && r.value == |Contents(batch) * s.claims|
    ensures r == Failed ==> act == ClearFails && engine.claims == s.claims
  {
    var ids := seq(|batch|, i requires 0 <= i < |batch| => batch[i].content);
    ContentsOf(batch, ids);
    r := engine.RecordObjectsRemoved(ids, disk);
    act := if r == Failed then ClearFails else Clear;
    assert s.claims - (Contents(batch) * s.claims) == s.claims - Contents(batch);
    assert Contents(batch) * s.claims == {} ==> s.claims - Contents(batch) == s.claims;
  }

  /** Emit, clear the claims in one commit, then delete. The effects are a run of the
      machine, so every order it keeps holds of this drain cut off anywhere. */
  method DrainQuarantine(queue: Queue, store: Store, retained: Accountant, engine: Engine, cap: nat,
                         disk: Disk, faults: nat -> bool)
    returns (r: Outcome<QuarantineReport>, emitted: seq<Report>, ghost acts: seq<Act>)
    modifies queue, store, retained, engine
    ensures emitted == Popped(old(queue.state), cap) && queue.state == old(queue.state) - Elements(emitted)
    // It fails exactly when the commit does, and then nothing was cleared or deleted.
    ensures r == Failed <==> emitted != [] && disk.Fails(Contents(emitted) * old(engine.claims) != {})
    ensures r == Failed ==> engine.claims == old(engine.claims) && store.blobs == old(store.blobs)
    // Otherwise every claim is gone, and every invalid file met without a fault.
    ensures r.Done? ==> engine.claims == old(engine.claims) - Contents(emitted)
    ensures r.Done? ==> store.blobs == old(store.blobs) - Doomed(old(store.blobs), emitted, faults, |emitted|)
    ensures r.Done? ==> r.value.failures == FaultsIn(faults, |emitted|)
    ensures retained.count == TakenOff(old(retained.count), if r.Done? then r.value.bytesDiscarded else 0)
    ensures OnlyDrains(acts)
    ensures var s := State(old(queue.state), old(engine.claims), old(engine.policy), old(store.blobs),
                           old(retained.count), [], 0, {}, Idle);
            var t := Run(s, acts);
            && t.phase == Idle && t.emitted == emitted
            && t.queue == queue.state && t.claims == engine.claims && t.policy == engine.policy
            && t.store == store.blobs && t.retained == retained.count
            && (r.Done? ==> r.value.observed == |emitted| && r.value.bytesDiscarded == t.discarded
                            && r.value.claimsCleared == |Contents(emitted) * s.claims|)
  {
    ghost var s := State(queue.state, engine.claims, engine.policy, store.blobs, retained.count, [], 0, {}, Idle);
    ghost var t;
    emitted, t := Gather(queue, cap, s);
    assert [] + emitted == emitted;
    if emitted == [] {
      assert Contents(emitted) * s.claims == {};
      acts := ActsOf(s, t);
      return Done(QuarantineReport(0, 0, 0, 0)), emitted, acts;
    }
    ghost var act;
    var cleared;
    cleared, act := ClearClaims(engine, emitted, disk, t);
    DrainedOn(s, t, act);
    t := Step(t, act);
    if cleared == Failed {
      acts := ActsOf(s, t);
      return Failed, emitted, acts;
    }
    var bytes, failures;
    bytes, failures, t := DiscardAll(store, retained, emitted, faults, s, t);
    acts := ActsOf(s, t);
    r := Done(QuarantineReport(|emitted|, cleared.value, bytes, failures));
  }

  /** The acts of a drain, and what they took off the accountant. */
  lemma ActsOf(s: State, t: State) returns (acts: seq<Act>)
    requires Drained(s, t)
    ensures OnlyDrains(acts) && Run(s, acts) == t
    ensures t.discarded >= s.discarded && t.retained == TakenOff(s.retained, t.discarded - s.discarded)
  {
    acts :| OnlyDrains(acts) && Run(s, acts) == t;
    DrainAccounts(s, acts);
  }

  lemma ContentsOf(batch: seq<Report>, ids: seq<ContentId>)
    requires |ids| == |batch| && forall i :: 0 <= i < |ids| ==> ids[i] == batch[i].content
    ensures Elements(ids) == Contents(batch)
  {
    forall c | c in Contents(batch)
      ensures c in Elements(ids)
    {
      var r :| r in batch && r.content == c;
      var i :| 0 <= i < |batch| && batch[i] == r;
      assert ids[i] == c;
    }
  }
}
