/** Following a deterministic schedule until a rank runs out. */
module Schedule {
  datatype Rank = Rank(lead: nat, panics: nat, passes: nat, weight: nat)

  predicate Less(x: Rank, y: Rank) {
    || x.lead < y.lead
    || (x.lead == y.lead && x.panics < y.panics)
    || (x.lead == y.lead && x.panics == y.panics && x.passes < y.passes)
    || (x.lead == y.lead && x.panics == y.panics && x.passes == y.passes && x.weight < y.weight)
  }

  function Follow<S>(s: S, next: (nat, S) -> S, now: nat, n: nat): S
    decreases n
  {
    if n == 0 then s else Follow(next(now, s), next, now + 1, n - 1)
  }

  lemma {:induction false} FollowSplits<S>(s: S, next: (nat, S) -> S, now: nat, m: nat, k: nat)
    ensures Follow(s, next, now, m + k) == Follow(Follow(s, next, now, m), next, now + m, k)
    decreases m
  {
    if m > 0 {
      FollowSplits(next(now, s), next, now + 1, m - 1, k);
    }
  }

  /** A system under a schedule: what its states keep, the rank no turn raises, and the
      turns that lower it. */
  ghost predicate Ranked<S(!new)>(next: (nat, S) -> S, good: S -> bool, rank: S -> Rank, useful: (nat, S) -> bool) {
    && (forall k: nat, s: S {:trigger next(k, s)} :: good(s) ==> good(next(k, s)) && !Less(rank(s), rank(next(k, s))))
    && (forall k: nat, s: S {:trigger next(k, s)} :: good(s) && useful(k, s) ==> Less(rank(next(k, s)), rank(s)))
  }

  /** At turn `m` the run is over or a useful step is run. */
  ghost predicate Works<S>(s: S, next: (nat, S) -> S, useful: (nat, S) -> bool, done: S -> bool, now: nat, m: nat) {
    done(Follow(s, next, now, m)) || useful(now + m, Follow(s, next, now, m))
  }

  ghost predicate WorksAgain<S>(s: S, next: (nat, S) -> S, useful: (nat, S) -> bool, done: S -> bool, now: nat, n: nat) {
    exists m: nat :: n <= m && Works(s, next, useful, done, now, m)
  }

  /** The schedule does not run other steps for ever. */
  ghost predicate Fair<S>(s: S, next: (nat, S) -> S, useful: (nat, S) -> bool, done: S -> bool, now: nat) {
    forall n: nat :: WorksAgain(s, next, useful, done, now, n)
  }

  lemma FairLater<S>(s: S, next: (nat, S) -> S, useful: (nat, S) -> bool, done: S -> bool, now: nat, m: nat, t: S, later: nat)
    requires Fair(s, next, useful, done, now) && t == Follow(s, next, now, m) && later == now + m
    ensures Fair(t, next, useful, done, later)
  {
    forall n: nat ensures WorksAgain(t, next, useful, done, later, n) {
      assert WorksAgain(s, next, useful, done, now, n + m);
      var k: nat :| n + m <= k && Works(s, next, useful, done, now, k);
      FollowSplits(s, next, now, m, k - m);
      assert Works(t, next, useful, done, later, k - m);
    }
  }

  lemma {:induction false} FollowKeeps<S(!new)>(s: S, next: (nat, S) -> S, good: S -> bool, rank: S -> Rank,
                                                useful: (nat, S) -> bool, now: nat, m: nat)
    requires Ranked(next, good, rank, useful) && good(s)
    ensures good(Follow(s, next, now, m)) && !Less(rank(s), rank(Follow(s, next, now, m)))
    decreases m
  {
    if m > 0 {
      FollowKeeps(next(now, s), next, good, rank, useful, now + 1, m - 1);
    }
  }

  /** Up to the next useful turn and over it. */
  lemma Advance<S(!new)>(s: S, next: (nat, S) -> S, good: S -> bool, rank: S -> Rank, useful: (nat, S) -> bool,
                         done: S -> bool, now: nat)
    returns (m: nat)
    requires Ranked(next, good, rank, useful) && good(s) && Fair(s, next, useful, done, now)
    ensures good(Follow(s, next, now, m))
    ensures done(Follow(s, next, now, m)) || Less(rank(Follow(s, next, now, m)), rank(s))
  {
    assert WorksAgain(s, next, useful, done, now, 0);
    m :| Works(s, next, useful, done, now, m);
    var t := Follow(s, next, now, m);
    FollowKeeps(s, next, good, rank, useful, now, m);
    if !done(t) {
      FollowSplits(s, next, now, m, 1);
      assert Follow(t, next, now + m, 1) == next(now + m, t);
      m := m + 1;
    }
  }

  /** Under a fair schedule a ranked system is done after finitely many turns. */
  lemma {:induction false} FairFinishes<S(!new)>(s: S, next: (nat, S) -> S, good: S -> bool, rank: S -> Rank,
                                                 useful: (nat, S) -> bool, done: S -> bool, now: nat)
    returns (n: nat)
    requires Ranked(next, good, rank, useful) && good(s) && Fair(s, next, useful, done, now)
    ensures good(Follow(s, next, now, n)) && done(Follow(s, next, now, n))
    decreases rank(s).lead, rank(s).panics, rank(s).passes, rank(s).weight
  {
    var m := Advance(s, next, good, rank, useful, done, now);
    var t := Follow(s, next, now, m);
    if done(t) {
      n := m;
    } else {
      FairLater(s, next, useful, done, now, m, t, now + m);
      var k := FairFinishes(t, next, good, rank, useful, done, now + m);
      FollowSplits(s, next, now, m, k);
      n := m + k;
    }
  }

  /** A schedule whose every turn is useful until the run is over is fair. */
  lemma BusyIsFair<S(!new)>(s: S, next: (nat, S) -> S, good: S -> bool, rank: S -> Rank, useful: (nat, S) -> bool,
                            done: S -> bool, now: nat)
    requires Ranked(next, good, rank, useful) && good(s)
    requires forall k: nat, t: S :: good(t) && !done(t) ==> useful(k, t)
    ensures Fair(s, next, useful, done, now)
  {
    forall n: nat ensures WorksAgain(s, next, useful, done, now, n) {
      FollowKeeps(s, next, good, rank, useful, now, n);
      assert Works(s, next, useful, done, now, n);
    }
  }

  // ---- weak fairness, thread by thread

  /** At turn `m` the thread has nothing to run, or runs. */
  ghost predicate Yields<S, T>(s: S, next: (nat, S) -> S, enabled: (S, T) -> bool, runs: (nat, S, T) -> bool,
                               now: nat, t: T, m: nat)
  {
    enabled(Follow(s, next, now, m), t) ==> runs(now + m, Follow(s, next, now, m), t)
  }

  ghost predicate YieldsAgain<S, T>(s: S, next: (nat, S) -> S, enabled: (S, T) -> bool, runs: (nat, S, T) -> bool,
                                    now: nat, t: T, n: nat)
  {
    exists m: nat :: n <= m && Yields(s, next, enabled, runs, now, t, m)
  }

  /** No thread that can always run is passed over for ever. */
  ghost predicate WeaklyFair<S, T(!new)>(s: S, next: (nat, S) -> S, enabled: (S, T) -> bool, runs: (nat, S, T) -> bool,
                                         now: nat)
  {
    forall t: T, n: nat :: YieldsAgain(s, next, enabled, runs, now, t, n)
  }

  /** Some thread owes the next useful step: it can run, whatever it runs is useful, and it
      goes on owing one until a useful step is run. */
  ghost predicate Owed<S(!new), T>(next: (nat, S) -> S, good: S -> bool, useful: (nat, S) -> bool, done: S -> bool,
                                   enabled: (S, T) -> bool, runs: (nat, S, T) -> bool, owner: S -> T) {
    && (forall s: S {:trigger owner(s)} :: good(s) && !done(s) ==> enabled(s, owner(s)))
    && (forall k: nat, s: S {:trigger next(k, s)} :: good(s) && !done(s) && runs(k, s, owner(s)) ==> useful(k, s))
    && (forall k: nat, s: S {:trigger next(k, s)} :: good(s) && !done(s) && !useful(k, s) ==>
          done(next(k, s)) || owner(next(k, s)) == owner(s))
  }

  lemma FollowOnce<S>(s: S, next: (nat, S) -> S, now: nat, m: nat)
    ensures Follow(s, next, now, m + 1) == next(now + m, Follow(s, next, now, m))
  {
    FollowSplits(s, next, now, m, 1);
  }

  /** From turn `n` to the turn its thread yields, a useful step is run or the run is over. */
  lemma {:induction false} WorksBy<S(!new), T>(s: S, next: (nat, S) -> S, good: S -> bool, rank: S -> Rank, useful: (nat, S) -> bool,
                                               done: S -> bool, enabled: (S, T) -> bool, runs: (nat, S, T) -> bool, owner: S -> T,
                                               now: nat, n: nat, m: nat)
    requires Ranked(next, good, rank, useful) && good(s) && Owed(next, good, useful, done, enabled, runs, owner)
    requires n <= m && Yields(s, next, enabled, runs, now, owner(Follow(s, next, now, n)), m)
    ensures WorksAgain(s, next, useful, done, now, n)
    decreases m - n
  {
    var t := Follow(s, next, now, n);
    FollowKeeps(s, next, good, rank, useful, now, n);
    var u := next(now + n, t);
    if done(t) || useful(now + n, t) {
      assert Works(s, next, useful, done, now, n);
    } else {
      assert enabled(t, owner(t));
      FollowOnce(s, next, now, n);
      if done(u) {
        assert Works(s, next, useful, done, now, n + 1);
      } else {
        WorksBy(s, next, good, rank, useful, done, enabled, runs, owner, now, n + 1, m);
        var k: nat :| n + 1 <= k && Works(s, next, useful, done, now, k);
      }
    }
  }

  lemma WeaklyFairIsFair<S(!new), T(!new)>(s: S, next: (nat, S) -> S, good: S -> bool, rank: S -> Rank, useful: (nat, S) -> bool,
                                           done: S -> bool, enabled: (S, T) -> bool, runs: (nat, S, T) -> bool, owner: S -> T,
                                           now: nat)
    requires Ranked(next, good, rank, useful) && good(s) && Owed(next, good, useful, done, enabled, runs, owner)
    requires WeaklyFair(s, next, enabled, runs, now)
    ensures Fair(s, next, useful, done, now)
  {
    forall n: nat ensures WorksAgain(s, next, useful, done, now, n) {
      var t := owner(Follow(s, next, now, n));
      assert YieldsAgain(s, next, enabled, runs, now, t, n);
      var m: nat :| n <= m && Yields(s, next, enabled, runs, now, t, m);
      WorksBy(s, next, good, rank, useful, done, enabled, runs, owner, now, n, m);
    }
  }

  /** A schedule that ends where no thread can run is weakly fair. */
  lemma EndingIsWeaklyFair<S(!new), T(!new)>(s: S, next: (nat, S) -> S, enabled: (S, T) -> bool, runs: (nat, S, T) -> bool,
                                             now: nat, end: nat)
    requires forall m: nat, t: T :: end <= m ==> !enabled(Follow(s, next, now, m), t)
    ensures WeaklyFair(s, next, enabled, runs, now)
  {
    forall t: T, n: nat ensures YieldsAgain(s, next, enabled, runs, now, t, n) {
      assert Yields(s, next, enabled, runs, now, t, if n < end then end else n);
    }
  }
}
