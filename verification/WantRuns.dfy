/** Every interleaving of waiting readers, the loop's admission and its sweeps
    over one demand registry. */
module WantRuns {
  import opened Identity
  import opened Want

  /** The loop's admission: peeked demand, of which a prefix is durably committed. */
  datatype Phase = Idle | Admitting(peeked: seq<ContentId>, done: nat)

  /** `calls` are the readers inside a bounded wait and what each polls for;
      `stale` those whose fetch was retired under them; `cached` the identities with
      a committed `Cached` fact. */
  datatype System = System(
    reg: Registry,
    calls: map<nat, ContentId>,
    stale: set<nat>,
    next: nat,
    cached: set<ContentId>,
    phase: Phase)

  const START := System(EMPTY, map[], {}, 0, {}, Idle)

  datatype Action =
    | Enter(c: ContentId)
    | Leave(k: nat)
    | Demand(c: ContentId)
    | Peek
    | Commit
    | Mark
    | Retire(settled: set<ContentId>)
    | Note(c: ContentId)
    | TakeNotes

  function Polling(calls: map<nat, ContentId>, c: ContentId): set<nat> {
    set k | k in calls && calls[k] == c
  }

  /** One critical section; an action that is not possible changes nothing. */
  function Step(s: System, limit: nat, a: Action): System {
    match a
    case Enter(c) =>
      // Registration comes first: past the bound the call returns at once.
      (match Registered(s.reg, limit, c)
       case None => s
       case Some(reg) => s.(reg := reg, calls := s.calls[s.next := c], next := s.next + 1))
    case Leave(k) =>
      // Success and expiry both release exactly once.
      if k in s.calls then
        s.(reg := Released(s.reg, s.calls[k]), calls := s.calls - {k}, stale := s.stale - {k})
      else s
    case Demand(c) =>
      (match RegisteredUnowned(s.reg, limit, c)
       case None => s
       case Some((reg, _)) => s.(reg := reg))
    case Peek =>
      if s.phase == Idle then s.(phase := Admitting(Enumerate(s.reg.pending), 0)) else s
    case Commit =>
      if s.phase.Admitting? && s.phase.done < |s.phase.peeked| then
        s.(cached := s.cached + {s.phase.peeked[s.phase.done]}, phase := s.phase.(done := s.phase.done + 1))
      else s
    case Mark =>
      // Reached on completion, at the per-pass cap, and on a failed commit alike.
      if s.phase.Admitting? && s.phase.done <= |s.phase.peeked| then
        s.(reg := Marked(s.reg, Elements(s.phase.peeked[..s.phase.done])), phase := Idle)
      else s
    case Retire(settled) =>
      s.(reg := Retired(s.reg, settled * s.reg.admitted),
         stale := s.stale + set k | k in s.calls && s.calls[k] in settled * s.reg.admitted)
    case Note(c) => s.(reg := Noted(s.reg, limit, c))
    case TakeNotes => s.(reg := s.reg.(reopenNotes := {}))
  }

  function Run(s: System, limit: nat, actions: seq<Action>): System {
    if actions == [] then s else Step(Run(s, limit, actions[..|actions| - 1]), limit, actions[|actions| - 1])
  }

  /** The stored count of each identity is the number of calls polling for it. */
  ghost predicate Conserved(s: System) {
    forall c: ContentId :: Waiters(s.reg, c) == |Polling(s.calls, c)|
  }

  /** Demand a reader waits on stays tracked until the loop retires it. */
  ghost predicate Obliged(s: System) {
    forall k :: k in s.calls && k !in s.stale ==> Outstanding(s.reg, s.calls[k])
  }

  /** Only durably committed demand holds an in-flight mark. */
  ghost predicate Durable(s: System) {
    && s.reg.admitted <= s.cached
    && (s.phase.Admitting? ==> s.phase.done <= |s.phase.peeked| && Elements(s.phase.peeked[..s.phase.done]) <= s.cached)
  }

  ghost predicate Sound(s: System, limit: nat) {
    && Valid(s.reg, limit)
    && (forall k :: k in s.calls ==> k < s.next)
    && Conserved(s)
    && Obliged(s)
    && Durable(s)
  }

  lemma PollingEnter(calls: map<nat, ContentId>, k: nat, c: ContentId, x: ContentId)
    requires k !in calls
    ensures |Polling(calls[k := c], x)| == |Polling(calls, x)| + if x == c then 1 else 0
  {
    assert Polling(calls[k := c], x) == if x == c then Polling(calls, c) + {k} else Polling(calls, x);
  }

  lemma PollingLeave(calls: map<nat, ContentId>, k: nat, x: ContentId)
    requires k in calls
    ensures |Polling(calls - {k}, x)| == |Polling(calls, x)| - if x == calls[k] then 1 else 0
  {
    assert Polling(calls - {k}, x) == if x == calls[k] then Polling(calls, x) - {k} else Polling(calls, x);
  }

  lemma EnterSound(s: System, limit: nat, c: ContentId)
    requires Sound(s, limit)
    ensures Sound(Step(s, limit, Enter(c)), limit)
  {
    if Registered(s.reg, limit, c).Some? {
      RegisterKeepsValid(s.reg, limit, c);
      forall x: ContentId
        ensures Waiters(Step(s, limit, Enter(c)).reg, x) == |Polling(Step(s, limit, Enter(c)).calls, x)|
      {
        PollingEnter(s.calls, s.next, c, x);
      }
    }
  }

  /** Two calls polling for one identity count as two. */
  lemma OthersPoll(calls: map<nat, ContentId>, j: nat, k: nat)
    requires j in calls && k in calls && j != k && calls[j] == calls[k]
    ensures |Polling(calls, calls[k])| >= 2
  {
    SubsetSize({j, k}, Polling(calls, calls[k]));
  }

  lemma LeaveObliged(s: System, limit: nat, k: nat)
    requires Sound(s, limit) && k in s.calls
    ensures Obliged(Step(s, limit, Leave(k)))
  {
    var t := Step(s, limit, Leave(k));
    forall j | j in t.calls && j !in t.stale
      ensures Outstanding(t.reg, t.calls[j])
    {
      if s.calls[j] == s.calls[k] {
        OthersPoll(s.calls, j, k);
      }
    }
  }

  lemma LeaveSound(s: System, limit: nat, k: nat)
    requires Sound(s, limit) && k in s.calls
    ensures Sound(Step(s, limit, Leave(k)), limit)
  {
    ReleaseKeepsValid(s.reg, limit, s.calls[k]);
    LeaveObliged(s, limit, k);
    forall x: ContentId
      ensures Waiters(Step(s, limit, Leave(k)).reg, x) == |Polling(s.calls - {k}, x)|
    {
      PollingLeave(s.calls, k, x);
      assert k in Polling(s.calls, s.calls[k]);
    }
  }

  lemma MarkSound(s: System, limit: nat)
    requires Sound(s, limit)
    ensures Sound(Step(s, limit, Mark), limit)
  {
    if s.phase.Admitting? {
      var committed := Elements(s.phase.peeked[..s.phase.done]);
      MarkKeepsValid(s.reg, limit, committed);
      assert forall c :: Outstanding(s.reg, c) ==> Outstanding(Marked(s.reg, committed), c);
    }
  }

  lemma CommitSound(s: System, limit: nat)
    requires Sound(s, limit)
    ensures Sound(Step(s, limit, Commit), limit)
  {
    if s.phase.Admitting? && s.phase.done < |s.phase.peeked| {
      PrefixElements(s.phase.peeked, s.phase.done);
    }
  }

  lemma StepSound(s: System, limit: nat, a: Action)
    requires Sound(s, limit)
    ensures Sound(Step(s, limit, a), limit)
  {
    match a {
      case Enter(c) => EnterSound(s, limit, c);
      case Leave(k) => if k in s.calls { LeaveSound(s, limit, k); }
      case Demand(c) =>
        if RegisteredUnowned(s.reg, limit, c).Some? { RegisterUnownedKeepsValid(s.reg, limit, c); }
      case Peek => assert Elements(Enumerate(s.reg.pending)[..0]) == {};
      case Commit => CommitSound(s, limit);
      case Mark => MarkSound(s, limit);
      case Retire(settled) => RetireKeepsValid(s.reg, limit, settled * s.reg.admitted);
      case Note(c) => NoteKeepsValid(s.reg, limit, c);
      case TakeNotes => NoteKeepsValid(s.reg, limit, 0);
    }
  }

  /** In every interleaving, of any length: the registry invariant, one stored
      waiter per polling call, no untracked live demand, no undurable in-flight mark. */
  lemma {:induction false} RunsAreSound(limit: nat, actions: seq<Action>)
    ensures Sound(Run(START, limit, actions), limit)
  {
    if actions == [] {
      assert forall c: ContentId :: Polling(START.calls, c) == {};
    } else {
      RunsAreSound(limit, actions[..|actions| - 1]);
      StepSound(Run(START, limit, actions[..|actions| - 1]), limit, actions[|actions| - 1]);
    }
  }

  /** Once every call has returned nothing waits and only loop demand is pending. */
  lemma QuietRegistry(limit: nat, actions: seq<Action>)
    requires Run(START, limit, actions).calls == map[]
    ensures Run(START, limit, actions).reg.waiting == map[]
    ensures Run(START, limit, actions).reg.pending == Run(START, limit, actions).reg.unowned
  {
    RunsAreSound(limit, actions);
    var s := Run(START, limit, actions);
    forall c: ContentId
      ensures c !in s.reg.waiting
    {
      assert Polling(s.calls, c) == {};
      assert Waiters(s.reg, c) == 0;
    }
  }

  /** An in-flight mark appears only at a mark step, only for an identity committed
      since the peek, still pending, and still wanted by a polling call or the loop. */
  lemma AdmissionIsAtomic(limit: nat, actions: seq<Action>, a: Action, c: ContentId)
    requires var s := Run(START, limit, actions);
             c !in s.reg.admitted && c in Step(s, limit, a).reg.admitted
    ensures var s := Run(START, limit, actions);
            && a == Mark && s.phase.Admitting? && s.phase.done <= |s.phase.peeked|
            && c in s.phase.peeked[..s.phase.done]
            && c in s.cached && c in s.reg.pending
            && (c in s.reg.unowned || exists k :: k in s.calls && s.calls[k] == c)
  {
    RunsAreSound(limit, actions);
    var s := Run(START, limit, actions);
    assert c in Elements(s.phase.peeked[..s.phase.done]);
    if c !in s.reg.unowned {
      assert Waiters(s.reg, c) > 0;
      assert |Polling(s.calls, c)| > 0;
      var k :| k in Polling(s.calls, c);
      assert k in s.calls && s.calls[k] == c;
    }
  }

  /** A mark leaves every pending identity outside the committed prefix pending, and
      gives an identity whose last waiter left since the peek no slot. */
  lemma MarkIsExact(limit: nat, actions: seq<Action>, c: ContentId)
    requires var s := Run(START, limit, actions);
             s.phase.Admitting? && s.phase.done <= |s.phase.peeked| && c !in s.reg.admitted
    ensures var s := Run(START, limit, actions);
            var t := Step(s, limit, Mark);
            var committed := c in s.phase.peeked[..s.phase.done];
            && (c in t.reg.pending <==> c in s.reg.pending && !committed)
            && (c in t.reg.admitted <==> c in s.reg.pending && committed)
  {
    var s := Run(START, limit, actions);
    assert c in s.phase.peeked[..s.phase.done] <==> c in Elements(s.phase.peeked[..s.phase.done]);
  }

  /** A leaving call, whether served or timed out, removes no admitted mark and no
      loop demand; it removes pending demand exactly when it was the only caller. */
  lemma LeaveIsNarrow(limit: nat, actions: seq<Action>, k: nat, c: ContentId)
    requires k in Run(START, limit, actions).calls
    ensures var s := Run(START, limit, actions);
            var t := Step(s, limit, Leave(k));
            && t.reg.admitted == s.reg.admitted && t.reg.unowned == s.reg.unowned && t.cached == s.cached
            && (c in t.reg.pending <==>
                  c in s.reg.pending && !(c == s.calls[k] && Polling(s.calls, c) == {k} && c !in s.reg.unowned))
  {
    RunsAreSound(limit, actions);
    var s := Run(START, limit, actions);
    var x := s.calls[k];
    assert k in Polling(s.calls, x);
    assert Waiters(s.reg, x) == |Polling(s.calls, x)|;
    assert Polling(s.calls, x) == {k} <==> |Polling(s.calls, x)| == 1 by {
      if |Polling(s.calls, x)| == 1 {
        assert |Polling(s.calls, x) - {k}| == 0;
      }
    }
  }

  lemma RunSnoc(s: System, limit: nat, actions: seq<Action>, a: Action)
    ensures Run(s, limit, actions + [a]) == Step(Run(s, limit, actions), limit, a)
  {
    assert (actions + [a])[..|actions|] == actions;
  }

  function Commits(n: nat): seq<Action> {
    if n == 0 then [] else Commits(n - 1) + [Commit]
  }

  /** The admission of `ids` with `n` of them durable. */
  function Admitted(s: System, ids: seq<ContentId>, n: nat): System
    requires n <= |ids|
  {
    s.(cached := s.cached + Elements(ids[..n]), phase := Admitting(ids, n))
  }

  lemma PeekAdmits(s: System, limit: nat, ids: seq<ContentId>)
    requires s.phase == Idle && ids == Enumerate(s.reg.pending)
    ensures Step(s, limit, Peek) == Admitted(s, ids, 0)
  {
    assert Elements(ids[..0]) == {};
  }

  lemma CommitNext(s: System, limit: nat, ids: seq<ContentId>, n: nat)
    requires n < |ids|
    ensures Step(Admitted(s, ids, n), limit, Commit) == Admitted(s, ids, n + 1)
  {
    PrefixElements(ids, n);
  }

  lemma OneMoreCommit(t: System, limit: nat, n: nat, u: System)
    requires Run(t, limit, Commits(n)) == u
    ensures Run(t, limit, Commits(n + 1)) == Step(u, limit, Commit)
  {
    RunSnoc(t, limit, Commits(n), Commit);
  }

  lemma {:induction false} CommitsLead(t: System, limit: nat, n: nat, states: seq<System>)
    requires n < |states| && states[0] == t
    requires forall k {:trigger states[k]} :: 0 <= k < n ==> Step(states[k], limit, Commit) == states[k + 1]
    ensures Run(t, limit, Commits(n)) == states[n]
  {
    if n > 0 {
      CommitsLead(t, limit, n - 1, states);
      OneMoreCommit(t, limit, n - 1, states[n - 1]);
    }
  }

  lemma CommitsRun(s: System, limit: nat, ids: seq<ContentId>, n: nat, t: System)
    requires n <= |ids| && t == Admitted(s, ids, 0)
    ensures Run(t, limit, Commits(n)) == Admitted(s, ids, n)
  {
    var states := seq(n + 1, k requires 0 <= k <= n => Admitted(s, ids, k));
    forall k | 0 <= k < n ensures Step(states[k], limit, Commit) == states[k + 1] {
      CommitNext(s, limit, ids, k);
    }
    CommitsLead(t, limit, n, states);
  }

  lemma MarkCommitted(s: System, limit: nat, ids: seq<ContentId>, n: nat)
    requires s.phase == Idle && n <= |ids|
    ensures Step(Admitted(s, ids, n), limit, Mark)
         == s.(reg := Marked(s.reg, Elements(ids[..n])), cached := s.cached + Elements(ids[..n]))
  {
  }

  /** Unless something comes between, the loop's admission is a peek, the commits it makes
      and a mark. */
  lemma AdmissionIsARun(s: System, limit: nat, cap: nat, commits: nat -> bool, ids: seq<ContentId>, n: nat)
    requires s.phase == Idle && ids == Enumerate(s.reg.pending)
    requires n == CommitsMade(commits, 0, if cap < |ids| then cap else |ids|)
    ensures Step(Run(Step(s, limit, Peek), limit, Commits(n)), limit, Mark)
         == s.(reg := Marked(s.reg, Elements(ids[..n])), cached := s.cached + Elements(ids[..n]))
  {
    PeekAdmits(s, limit, ids);
    CommitsRun(s, limit, ids, n, Step(s, limit, Peek));
    MarkCommitted(s, limit, ids, n);
  }

  lemma PeekOne(c: ContentId)
    ensures Run(START, 1, [Enter(c)] + [Peek])
         == System(Registry({c}, {}, map[c := 1], {}, {}), map[0 := c], {}, 1, {}, Admitting([c], 0))
  {
    RunSnoc(START, 1, [], Enter(c));
    assert [] + [Enter(c)] == [Enter(c)];
    RunSnoc(START, 1, [Enter(c)], Peek);
    assert {} + {c} == {c};
    var peeked := Enumerate({c});
    assert peeked[0] in Elements(peeked);
    assert peeked == [c];
  }

  lemma CommitOne(c: ContentId)
    ensures Run(START, 1, [Enter(c)] + [Peek] + [Commit])
         == System(Registry({c}, {}, map[c := 1], {}, {}), map[0 := c], {}, 1, {c}, Admitting([c], 1))
  {
    PeekOne(c);
    RunSnoc(START, 1, [Enter(c)] + [Peek], Commit);
    assert {} + {c} == {c};
  }

  lemma MarkOne(c: ContentId)
    ensures Run(START, 1, [Enter(c)] + [Peek] + [Commit] + [Mark]).reg == Registry({}, {c}, map[c := 1], {}, {})
  {
    CommitOne(c);
    RunSnoc(START, 1, [Enter(c)] + [Peek] + [Commit], Mark);
    assert [c][..1] == [c];
    assert Elements([c]) == {c};
    assert {c} - {c} == {} && {c} * {c} == {c};
  }

  /** The registry's comment that waiters sit only on tracked identities fails on a
      five-action run: a settled fetch is retired under its waiter. */
  lemma WaiterOutlivesFetch(c: ContentId)
    ensures var s := Run(START, 1, [Enter(c)] + [Peek] + [Commit] + [Mark] + [Retire({c})]);
            c in s.reg.waiting && !Outstanding(s.reg, c)
  {
    MarkOne(c);
    RunSnoc(START, 1, [Enter(c)] + [Peek] + [Commit] + [Mark], Retire({c}));
  }
}
