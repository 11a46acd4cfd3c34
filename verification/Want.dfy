/** The demand registry: what readers and the loop want fetched, and who waits. */
module Want {
  import opened Identity

  datatype Registry = Registry(
    pending: set<ContentId>,
    admitted: set<ContentId>,
    waiting: map<ContentId, nat>,
    unowned: set<ContentId>,
    reopenNotes: set<ContentId>)

  const EMPTY := Registry({}, {}, map[], {}, {})

  predicate Outstanding(s: Registry, c: ContentId) {
    c in s.pending || c in s.admitted
  }

  predicate Saturated(s: Registry, limit: nat) {
    |s.pending| + |s.admitted| >= limit
  }

  function Waiters(s: Registry, c: ContentId): nat {
    if c in s.waiting then s.waiting[c] else 0
  }

  /** A waiter attaches; `None` is the refusal past the bound. */
  function Registered(s: Registry, limit: nat, c: ContentId): Option<Registry> {
    if !Outstanding(s, c) && Saturated(s, limit) then None
    else Some(s.(pending := if Outstanding(s, c) then s.pending else s.pending + {c},
                 waiting := s.waiting[c := Waiters(s, c) + 1]))
  }

  /** Loop demand with no waiter; the flag says whether it is newly pending. */
  function RegisteredUnowned(s: Registry, limit: nat, c: ContentId): Option<(Registry, bool)> {
    if Outstanding(s, c) then Some((s, false))
    else if Saturated(s, limit) then None
    else Some((s.(pending := s.pending + {c}, unowned := s.unowned + {c}), true))
  }

  /** One waiter leaves; the last one takes an unadmitted, ownerful demand along. */
  function Released(s: Registry, c: ContentId): Registry {
    if c !in s.waiting then s
    else if s.waiting[c] > 1 then s.(waiting := s.waiting[c := s.waiting[c] - 1])
    else s.(waiting := s.waiting - {c},
            pending := if c in s.unowned then s.pending else s.pending - {c})
  }

  /** The durably committed identities still pending become admitted. */
  function Marked(s: Registry, committed: set<ContentId>): Registry {
    s.(pending := s.pending - committed,
       admitted := s.admitted + (s.pending * committed),
       unowned := s.unowned - committed)
  }

  function Retired(s: Registry, settled: set<ContentId>): Registry {
    s.(admitted := s.admitted - settled)
  }

  function Noted(s: Registry, limit: nat, c: ContentId): Registry {
    if |s.reopenNotes| >= limit then s else s.(reopenNotes := s.reopenNotes + {c})
  }

  ghost predicate Bounded(s: Registry, limit: nat) {
    |s.pending| + |s.admitted| <= limit && |s.reopenNotes| <= limit
  }

  ghost predicate Shaped(s: Registry) {
    && s.pending !! s.admitted
    && s.unowned <= s.pending
    && (forall c :: c in s.pending && c !in s.unowned ==> c in s.waiting)
    && (forall c :: c in s.waiting ==> s.waiting[c] > 0)
  }

  /** What every operation keeps. */
  ghost predicate Valid(s: Registry, limit: nat) {
    Shaped(s) && Bounded(s, limit)
  }

  lemma AddedSize<T>(a: set<T>, x: T)
    ensures |a + {x}| <= |a| + 1
  {
  }

  lemma SubsetSize<T>(a: set<T>, b: set<T>)
    requires a <= b
    ensures |a| <= |b|
  {
    assert b == a + (b - a);
  }

  lemma RegisterKeepsValid(s: Registry, limit: nat, c: ContentId)
    requires Valid(s, limit) && Registered(s, limit, c).Some?
    ensures Valid(Registered(s, limit, c).value, limit)
  {
    AddedSize(s.pending, c);
  }

  lemma RegisterUnownedKeepsValid(s: Registry, limit: nat, c: ContentId)
    requires Valid(s, limit) && RegisteredUnowned(s, limit, c).Some?
    ensures Valid(RegisteredUnowned(s, limit, c).value.0, limit)
  {
    AddedSize(s.pending, c);
  }

  lemma ReleaseKeepsShape(s: Registry, c: ContentId)
    requires Shaped(s)
    ensures Shaped(Released(s, c)) && Released(s, c).pending <= s.pending
  {
  }

  lemma ReleaseKeepsValid(s: Registry, limit: nat, c: ContentId)
    requires Valid(s, limit)
    ensures Valid(Released(s, c), limit)
  {
    ReleaseKeepsShape(s, c);
    SubsetSize(Released(s, c).pending, s.pending);
  }

  lemma MarkKeepsValid(s: Registry, limit: nat, committed: set<ContentId>)
    requires Valid(s, limit)
    ensures Valid(Marked(s, committed), limit)
  {
    var moved := s.pending * committed;
    assert s.pending == (s.pending - committed) + moved;
    assert |s.pending| == |s.pending - committed| + |moved|;
    assert |s.admitted + moved| == |s.admitted| + |moved|;
  }

  lemma RetireKeepsValid(s: Registry, limit: nat, settled: set<ContentId>)
    requires Valid(s, limit)
    ensures Valid(Retired(s, settled), limit)
  {
    SubsetSize(s.admitted - settled, s.admitted);
  }

  lemma NoteKeepsValid(s: Registry, limit: nat, c: ContentId)
    requires Valid(s, limit)
    ensures Valid(Noted(s, limit, c), limit)
    ensures Valid(s.(reopenNotes := {}), limit)
  {
    AddedSize(s.reopenNotes, c);
  }

  lemma RegisteredThenReleased(s: Registry, limit: nat, c: ContentId, t: Registry)
    requires Shaped(s) && Registered(s, limit, c) == Some(t)
    ensures Released(t, c).waiting == s.waiting
    ensures Released(t, c) == s.(pending := Released(t, c).pending)
    ensures Released(t, c).pending == s.pending <==> Outstanding(s, c) || c !in s.waiting
  {
  }

  /** Registering and releasing cancel exactly when the identity was outstanding
      or had no waiter left over from a retired fetch. */
  lemma ReleaseUndoesRegister(s: Registry, limit: nat, c: ContentId)
    requires Valid(s, limit) && Registered(s, limit, c).Some?
    ensures Released(Registered(s, limit, c).value, c) == s <==> Outstanding(s, c) || c !in s.waiting
  {
    RegisteredThenReleased(s, limit, c, Registered(s, limit, c).value);
  }

  /** Waiters only on tracked identities. The registry's own comment claims this
      of every state, but it does not hold of every state. */
  ghost predicate Tracked(s: Registry) {
    forall c :: c in s.waiting ==> Outstanding(s, c)
  }

  /** Of all operations only a retirement can break it, and it does exactly when
      it retires an identity somebody still waits for. */
  lemma RetireKeepsTracked(s: Registry, limit: nat, settled: set<ContentId>)
    requires Valid(s, limit) && Tracked(s) && settled <= s.admitted
    ensures Tracked(Retired(s, settled)) <==> forall c :: c in settled ==> c !in s.waiting
  {
    if c :| c in settled && c in s.waiting {
      assert c !in s.pending;
      assert !Outstanding(Retired(s, settled), c);
    }
  }

  lemma RegisterKeepsTracked(s: Registry, limit: nat, c: ContentId)
    requires Tracked(s)
    ensures Registered(s, limit, c).Some? ==> Tracked(Registered(s, limit, c).value)
    ensures RegisteredUnowned(s, limit, c).Some? ==> Tracked(RegisteredUnowned(s, limit, c).value.0)
  {
  }

  lemma ReleaseKeepsTracked(s: Registry, c: ContentId)
    requires Tracked(s)
    ensures Tracked(Released(s, c))
  {
    var t := Released(s, c);
    forall x | x in t.waiting ensures Outstanding(t, x) {
      assert x in s.waiting && Outstanding(s, x);
    }
  }

  lemma MarkKeepsTracked(s: Registry, committed: set<ContentId>)
    requires Tracked(s)
    ensures Tracked(Marked(s, committed))
  {
    var t := Marked(s, committed);
    forall x | x in t.waiting ensures Outstanding(t, x) {
      assert Outstanding(s, x);
    }
  }

  lemma OthersKeepTracked(s: Registry, limit: nat, c: ContentId, committed: set<ContentId>)
    requires Valid(s, limit) && Tracked(s)
    ensures Registered(s, limit, c).Some? ==> Tracked(Registered(s, limit, c).value)
    ensures RegisteredUnowned(s, limit, c).Some? ==> Tracked(RegisteredUnowned(s, limit, c).value.0)
    ensures Tracked(Released(s, c))
    ensures Tracked(Marked(s, committed))
    ensures Tracked(Noted(s, limit, c))
  {
    RegisterKeepsTracked(s, limit, c);
    ReleaseKeepsTracked(s, c);
    MarkKeepsTracked(s, committed);
  }

  lemma MarkedNone(s: Registry, committed: seq<ContentId>)
    ensures Marked(s, Elements(committed[..0])) == s
  {
    var t := Marked(s, Elements(committed[..0]));
    assert t.pending == s.pending && t.admitted == s.admitted && t.unowned == s.unowned;
  }

  /** Marking one more identity extends the batch by it. */
  lemma MarkedOneMore(s: Registry, done: set<ContentId>, c: ContentId)
    ensures Marked(Marked(s, done), {c}) == Marked(s, done + {c})
  {
    var a, b := Marked(Marked(s, done), {c}), Marked(s, done + {c});
    assert a.pending == b.pending;
    assert a.admitted == b.admitted;
    assert a.unowned == b.unowned;
  }

  datatype WantError = SaturatedError | TimedOut

  /** The shared registry; every method is one critical section. */
  class WantRegistry {
    var state: Registry
    const limit: nat

    constructor (limit: nat)
      ensures this.limit == limit && state == EMPTY && Valid(state, limit)
    {
      this.limit := limit;
      state := EMPTY;
    }

    method Register(c: ContentId) returns (ok: bool)
      requires Valid(state, limit)
      modifies this
      ensures Valid(state, limit)
      ensures ok <==> Registered(old(state), limit, c).Some?
      ensures ok ==> state == Registered(old(state), limit, c).value
      ensures !ok ==> state == old(state)
    {
      var outstanding := c in state.pending || c in state.admitted;
      if !outstanding && |state.pending| + |state.admitted| >= limit {
        return false;
      }
      RegisterKeepsValid(state, limit, c);
      if !outstanding {
        state := state.(pending := state.pending + {c});
      }
      state := state.(waiting := state.waiting[c := Waiters(state, c) + 1]);
      ok := true;
    }

    method RegisterUnowned(c: ContentId) returns (r: Option<bool>)
      requires Valid(state, limit)
      modifies this
      ensures Valid(state, limit)
      ensures match RegisteredUnowned(old(state), limit, c)
              case None => r == None && state == old(state)
              case Some((after, newly)) => r == Some(newly) && state == after
    {
      if c in state.pending || c in state.admitted {
        return Some(false);
      }
      if |state.pending| + |state.admitted| >= limit {
        return None;
      }
      RegisterUnownedKeepsValid(state, limit, c);
      state := state.(pending := state.pending + {c}, unowned := state.unowned + {c});
      r := Some(true);
    }

    method Release(c: ContentId)
      requires Valid(state, limit)
      modifies this
      ensures Valid(state, limit)
      ensures state == Released(old(state), c)
    {
      ReleaseKeepsValid(state, limit, c);
      if c in state.waiting {
        var left := state.waiting[c] - 1;
        if left == 0 {
          state := state.(waiting := state.waiting - {c});
          if c !in state.unowned {
            state := state.(pending := state.pending - {c});
          }
        } else {
          state := state.(waiting := state.waiting[c := left]);
        }
      }
    }

    method PeekPending() returns (ids: seq<ContentId>)
      ensures StrictlyIncreasing(ids) && Elements(ids) == state.pending
    {
      ids := Enumerate(state.pending);
    }

    method MarkOne(c: ContentId)
      modifies this
      ensures state == Marked(old(state), {c})
    {
      if c in state.pending {
        state := state.(pending := state.pending - {c}, admitted := state.admitted + {c});
      }
      state := state.(unowned := state.unowned - {c});
      assert state.pending == old(state).pending - {c};
      assert state.admitted == old(state).admitted + (old(state).pending * {c});
    }

    method MarkAdmitted(committed: seq<ContentId>)
      requires Valid(state, limit)
      modifies this
      ensures Valid(state, limit)
      ensures state == Marked(old(state), Elements(committed))
    {
      MarkedNone(state, committed);
      for i := 0 to |committed|
        invariant state == Marked(old(state), Elements(committed[..i]))
      {
        MarkedOneMore(old(state), Elements(committed[..i]), committed[i]);
        MarkOne(committed[i]);
        PrefixElements(committed, i);
      }
      assert committed[..|committed|] == committed;
      MarkKeepsValid(old(state), limit, Elements(committed));
    }

    method RetireWhere(settled: (ContentId, nat) -> bool)
      requires Valid(state, limit)
      modifies this
      ensures Valid(state, limit)
      ensures state == Retired(old(state), set c | c in old(state).admitted && settled(c, Waiters(old(state), c)))
    {
      var retired := set c | c in state.admitted && settled(c, Waiters(state, c));
      RetireKeepsValid(state, limit, retired);
      state := state.(admitted := state.admitted - retired);
    }

    method NoteReopenDemand(c: ContentId)
      requires Valid(state, limit)
      modifies this
      ensures Valid(state, limit)
      ensures state == Noted(old(state), limit, c)
    {
      NoteKeepsValid(state, limit, c);
      if |state.reopenNotes| < limit {
        state := state.(reopenNotes := state.reopenNotes + {c});
      }
    }

    method TakeReopenNotes() returns (ids: seq<ContentId>)
      requires Valid(state, limit)
      modifies this
      ensures Valid(state, limit)
      ensures StrictlyIncreasing(ids) && Elements(ids) == old(state).reopenNotes
      ensures state == old(state).(reopenNotes := {})
    {
      NoteKeepsValid(state, limit, 0);
      ids := Enumerate(state.reopenNotes);
      state := state.(reopenNotes := {});
    }
  }

  // ---- the loop's admission

  /** The first of the commits `i` to `take` that fails, or `take`. */
  function CommitsMade(commits: nat -> bool, i: nat, take: nat): (n: nat)
    requires i <= take
    ensures i <= n <= take
    decreases take - i
  {
    if i < take && commits(i) then CommitsMade(commits, i + 1, take) else i
  }

  /** Commit one by one, up to a failure. */
  method CommitPrefix(pending: seq<ContentId>, take: nat, commits: nat -> bool) returns (admitted: seq<ContentId>)
    requires take <= |pending|
    ensures admitted == pending[..CommitsMade(commits, 0, take)]
  {
    admitted := [];
    for i := 0 to take
      invariant admitted == pending[..i]
      invariant CommitsMade(commits, 0, take) == CommitsMade(commits, i, take)
    {
      if !commits(i) {
        return;
      }
      admitted := admitted + [pending[i]];
    }
  }

  /** Commit at most `cap` pending demands, in identity order, and mark exactly those made
      durable; the failing one and everything after it stay pending. */
  method AdmitWants(registry: WantRegistry, cap: nat, commits: nat -> bool) returns (r: Option<seq<ContentId>>)
    requires Valid(registry.state, registry.limit)
    modifies registry
    ensures Valid(registry.state, registry.limit)
    ensures var pending := Enumerate(old(registry.state).pending);
            var take := if cap < |pending| then cap else |pending|;
            var n := CommitsMade(commits, 0, take);
            && registry.state == Marked(old(registry.state), Elements(pending[..n]))
            && r == if n < take then None else Some(pending[..n])
  {
    var pending := registry.PeekPending();
    EnumerationUnique(pending, Enumerate(registry.state.pending));
    var take := if cap < |pending| then cap else |pending|;
    var admitted := CommitPrefix(pending, take, commits);
    registry.MarkAdmitted(admitted);
    r := if |admitted| < take then None else Some(admitted);
  }

  /** The `n` a capped admission takes of the demands registered in that order. */
  function TakenOf(order: seq<ContentId>, n: nat): set<ContentId>
    requires NoDuplicates(order) && n <= |order|
  {
    DistinctCount(order);
    Elements(Enumerate(Elements(order))[..n])
  }

  lemma TakenAreLeast(ids: seq<ContentId>, n: nat, c: ContentId, d: ContentId)
    requires StrictlyIncreasing(ids) && n <= |ids| && c in ids[..n] && d in ids && d !in ids[..n]
    ensures c < d
  {
    var i :| 0 <= i < n && ids[i] == c;
    var j :| 0 <= j < |ids| && ids[j] == d;
  }

  lemma IncreasingIsDistinct(ids: seq<ContentId>, n: nat)
    requires StrictlyIncreasing(ids) && n <= |ids|
    ensures NoDuplicates(ids[..n]) && |Elements(ids[..n])| == n
  {
    DistinctCount(ids[..n]);
  }

  /** `n` identities below all the others are the least `n`. */
  lemma LeastAreOld(ids: seq<ContentId>, n: nat, earlier: set<ContentId>)
    requires StrictlyIncreasing(ids) && n <= |ids| && |earlier| == n && earlier <= Elements(ids)
    requires forall c, d :: c in earlier && d in ids && d !in earlier ==> c < d
    ensures Elements(ids[..n]) == earlier
  {
    IncreasingIsDistinct(ids, n);
    forall x | x in ids[..n] ensures x in earlier {
      if x !in earlier {
        var k :| 0 <= k < n && ids[k] == x;
        forall c | c in earlier ensures c in ids[..k] {
          assert c < x;
          var i :| 0 <= i < |ids| && ids[i] == c;
          assert ids[..k][i] == c;
        }
        IncreasingIsDistinct(ids, k);
        SubsetSize(earlier, Elements(ids[..k]));
      }
    }
    SubsetSameSize(Elements(ids[..n]), earlier);
  }

  /** A capped admission takes the oldest demands exactly when each of them has a smaller
      identity than every later one. */
  lemma OldestFirstExactly(order: seq<ContentId>, n: nat)
    requires NoDuplicates(order) && n <= |order|
    ensures TakenOf(order, n) == Elements(order[..n]) <==> forall i, j :: 0 <= i < n <= j < |order| ==> order[i] < order[j]
  {
    DistinctCount(order);
    var ids := Enumerate(Elements(order));
    if TakenOf(order, n) == Elements(order[..n]) {
      forall i, j | 0 <= i < n <= j < |order| ensures order[i] < order[j] {
        assert order[i] in Elements(order[..n]) && order[j] in Elements(ids);
        assert order[j] !in Elements(order[..n]);
        TakenAreLeast(ids, n, order[i], order[j]);
      }
    }
    if forall i, j :: 0 <= i < n <= j < |order| ==> order[i] < order[j] {
      assert NoDuplicates(order[..n]);
      DistinctCount(order[..n]);
      forall c, d | c in Elements(order[..n]) && d in ids && d !in Elements(order[..n]) ensures c < d {
        var i :| 0 <= i < n && order[i] == c;
        assert d in Elements(order) && d !in order[..n];
        var j :| 0 <= j < |order| && order[j] == d;
      }
      LeastAreOld(ids, n, Elements(order[..n]));
    }
  }

  /** The demand registered first can be the one a cap leaves waiting. */
  lemma OldestCanWait()
    ensures var s := Registered(EMPTY, 2, 9).value;
            var t := Registered(s, 2, 4).value;
            s.pending == {9} && t.pending == {9, 4} && Enumerate(t.pending)[..1] == [4]
  {
  }
}
