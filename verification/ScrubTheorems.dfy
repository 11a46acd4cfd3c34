/** What repeated scrub passes guarantee: convergence on a quiet store, and
    fairness while the claim set changes under the walk. */
module ScrubTheorems {
  import opened Identity
  import opened RepairQueue
  import opened Sweep
  import opened Scrub

  /** Walked claims the store did not report absent. */
  function Survivors(stat: ContentId -> Stat, s: seq<ContentId>): seq<ContentId> {
    if s == [] then []
    else
      var front := Survivors(stat, s[..|s| - 1]);
      if stat(s[|s| - 1]) == Absent then front else front + [s[|s| - 1]]
  }

  function Lost(stat: ContentId -> Stat, ids: set<ContentId>): set<ContentId> {
    set c | c in ids && stat(c) == Absent
  }

  lemma {:induction false} SurvivorElements(stat: ContentId -> Stat, s: seq<ContentId>)
    ensures Elements(Survivors(stat, s)) == Elements(s) - Lost(stat, Elements(s))
  {
    if s != [] {
      var front, c := s[..|s| - 1], s[|s| - 1];
      SurvivorElements(stat, front);
      assert s == front + [c];
      ElementsConcat(front, [c]);
      ElementsConcat(Survivors(stat, front), [c]);
      assert Elements([c]) == {c};
    }
  }

  lemma {:induction false} SurvivorsApproach(stat: ContentId -> Stat, s: seq<ContentId>, cursor: Option<ContentId>)
    requires Approaching(s, cursor)
    ensures Approaching(Survivors(stat, s), cursor)
  {
    if s != [] {
      var front, c := s[..|s| - 1], s[|s| - 1];
      SurvivorsApproach(stat, front, cursor);
      SurvivorElements(stat, front);
      var kept := Survivors(stat, front);
      forall i | 0 <= i < |kept|
        ensures Distance(cursor, kept[i]) < Distance(cursor, c)
      {
        assert kept[i] in Elements(kept);
        assert kept[i] in Elements(front);
        var j :| 0 <= j < |front| && front[j] == kept[i];
        assert s[j] == kept[i] && s[|s| - 1] == c;
      }
    }
  }

  lemma SurvivorsFacts(stat: ContentId -> Stat, s: seq<ContentId>, cursor: Option<ContentId>)
    requires Approaching(s, cursor)
    ensures Approaching(Survivors(stat, s), cursor)
    ensures Elements(Survivors(stat, s)) == Elements(s) - Lost(stat, Elements(s))
  {
    SurvivorElements(stat, s);
    SurvivorsApproach(stat, s, cursor);
  }

  lemma {:induction false} LossesFacts(kinds: ContentId -> Option<ObjectKind>, stat: ContentId -> Stat, probed: seq<ContentId>)
    ensures |Losses(kinds, stat, probed)| <= |probed|
    ensures Missing(stat, Losses(kinds, stat, probed)) == Lost(stat, Elements(probed))
  {
    if probed == [] {
      assert Losses(kinds, stat, probed) == [];
    } else {
      var front, c := probed[..|probed| - 1], probed[|probed| - 1];
      LossesFacts(kinds, stat, front);
      assert probed == front + [c];
      ElementsConcat(front, [c]);
      MissingConcat(stat, Losses(kinds, stat, front), [Observe(kinds, c)]);
      assert Observe(kinds, c).content == c;
    }
  }

  lemma MissingByElements(stat: ContentId -> Stat, a: seq<Report>, b: seq<Report>)
    requires Elements(a) == Elements(b)
    ensures Missing(stat, a) == Missing(stat, b)
  {
    forall r | r in a ensures r in b { assert r in Elements(a); }
    forall r | r in b ensures r in a { assert r in Elements(b); }
  }

  lemma {:induction false} ElementsAtMost<T>(s: seq<T>)
    ensures |Elements(s)| <= |s|
  {
    if s != [] {
      ElementsAtMost(s[1..]);
      assert s == [s[0]] + s[1..];
      assert Elements(s) == {s[0]} + Elements(s[1..]);
    }
  }

  /** A drain whose cap covers the queue empties it. */
  lemma DrainsWhole(q: set<Report>, cap: nat)
    requires |q| <= cap
    ensures Elements(Popped(q, cap)) == q
  {
    PoppedCount(q, cap);
    DistinctCount(Popped(q, cap));
    SubsetSameSize(Elements(Popped(q, cap)), q);
  }

  /** From an empty queue, a pass unclaims exactly the absent claims it walked,
      leaves the queue empty, and puts the walked survivors behind the unwalked. */
  lemma PassAdvances(s: State, kinds: ContentId -> Option<ObjectKind>, stat: ContentId -> Stat, budget: nat)
    requires s.queue == {} && budget >= 1
    ensures var walked := Probed(s.claims, s.cursor, budget);
            var next := Pass(s, kinds, stat, budget);
            && next.queue == {}
            && next.claims == s.claims - Lost(stat, Elements(walked))
            && Order(next.claims, next.cursor)
            == Order(s.claims, s.cursor)[|walked|..] + Survivors(stat, walked)
  {
    var order := Order(s.claims, s.cursor);
    var walked := Probed(s.claims, s.cursor, budget);
    var losses := Losses(kinds, stat, walked);
    var queue := s.queue + Elements(losses);
    assert queue == Elements(losses);
    LossesFacts(kinds, stat, walked);
    ElementsAtMost(losses);
    DrainsWhole(queue, budget);
    MissingByElements(stat, Popped(queue, budget), losses);
    PassOrder(s.claims, s.cursor, stat, budget);
  }

  lemma SplitDistinct(order: seq<ContentId>, m: nat)
    requires NoDuplicates(order) && m <= |order|
    ensures Elements(order) == Elements(order[..m]) + Elements(order[m..])
    ensures Elements(order[..m]) !! Elements(order[m..])
  {
    assert order == order[..m] + order[m..];
    ElementsConcat(order[..m], order[m..]);
  }

  lemma WithoutLost(order: seq<ContentId>, m: nat, stat: ContentId -> Stat)
    requires NoDuplicates(order) && m <= |order|
    ensures Elements(order) - Lost(stat, Elements(order[..m]))
         == Elements(order[m..]) + (Elements(order[..m]) - Lost(stat, Elements(order[..m])))
  {
    SplitDistinct(order, m);
  }

  lemma PassOrder(claims: set<ContentId>, cursor: Option<ContentId>, stat: ContentId -> Stat, budget: nat)
    requires budget >= 1
    ensures var walked := Probed(claims, cursor, budget);
            Order(claims - Lost(stat, Elements(walked)), Last(walked, cursor))
            == Order(claims, cursor)[|walked|..] + Survivors(stat, walked)
  {
    var order := Order(claims, cursor);
    var walked := Probed(claims, cursor, budget);
    var m := |walked|;
    OrderFacts(claims, cursor);
    if claims == {} {
      assert order == [] && walked == [];
      assert claims - Lost(stat, Elements(walked)) == claims;
    } else {
      assert 1 <= m;
      SurvivorsFacts(stat, walked, cursor);
      ApproachingDistinct(order, cursor);
      WithoutLost(order, m, stat);
      AdvancedOrder(claims, cursor, m, Survivors(stat, walked), claims - Lost(stat, Elements(walked)));
    }
  }

  ghost function Passes(s: State, kinds: ContentId -> Option<ObjectKind>, stat: ContentId -> Stat, budget: nat, j: nat): State
    decreases j
  {
    if j == 0 then s else Passes(Pass(s, kinds, stat, budget), kinds, stat, budget, j - 1)
  }

  /** Dropping `m` from the front of a round and what is behind it. */
  lemma DropFront(ahead: seq<ContentId>, behind: seq<ContentId>, m: nat) returns (left: seq<ContentId>, rest: seq<ContentId>)
    requires m <= |ahead| + |behind|
    ensures (ahead + behind)[m..] == left + rest
    ensures |left| == if |ahead| < m then 0 else |ahead| - m
    ensures Elements(rest) <= Elements(behind)
  {
    if m <= |ahead| {
      left, rest := ahead[m..], behind;
    } else {
      left, rest := [], behind[m - |ahead|..];
    }
  }

  /** One pass of a round: part of what lies ahead is walked and its survivors
      join what is behind. */
  lemma RoundStep(s: State, kinds: ContentId -> Option<ObjectKind>, stat: ContentId -> Stat, budget: nat,
                  ahead: seq<ContentId>, behind: seq<ContentId>)
    returns (ahead': seq<ContentId>, behind': seq<ContentId>)
    requires s.queue == {} && budget >= 1
    requires Order(s.claims, s.cursor) == ahead + behind
    requires Lost(stat, Elements(behind)) == {}
    ensures var next := Pass(s, kinds, stat, budget);
            next.queue == {} && Order(next.claims, next.cursor) == ahead' + behind'
    ensures Lost(stat, Elements(behind')) == {}
    ensures |ahead'| == if |ahead| < budget then 0 else |ahead| - budget
  {
    PassAdvances(s, kinds, stat, budget);
    OrderFacts(s.claims, s.cursor);
    var walked := Probed(s.claims, s.cursor, budget);
    SurvivorsFacts(stat, walked, s.cursor);
    var kept, rest := Survivors(stat, walked), [];
    ahead', rest := DropFront(ahead, behind, |walked|);
    behind' := rest + kept;
    ElementsConcat(rest, kept);
    Associate(ahead', rest, kept);
  }

  /** A pass keeps the set of claims a converged scrub would leave. */
  lemma PassKeepsTarget(s: State, kinds: ContentId -> Option<ObjectKind>, stat: ContentId -> Stat, budget: nat)
    requires s.queue == {} && budget >= 1
    ensures var next := Pass(s, kinds, stat, budget);
            next.claims - Lost(stat, next.claims) == s.claims - Lost(stat, s.claims)
  {
    PassAdvances(s, kinds, stat, budget);
    WalkIsExact(s.claims, s.cursor, budget);
  }

  /** The induction: what is left of the first round, ahead of what already survived it. */
  lemma {:induction false} RoundCompletes(s: State, kinds: ContentId -> Option<ObjectKind>, stat: ContentId -> Stat,
                                          budget: nat, j: nat, ahead: seq<ContentId>, behind: seq<ContentId>)
    requires s.queue == {} && budget >= 1
    requires Order(s.claims, s.cursor) == ahead + behind
    requires Lost(stat, Elements(behind)) == {}
    requires |ahead| <= j * budget
    ensures Passes(s, kinds, stat, budget, j).claims == s.claims - Lost(stat, s.claims)
    ensures Passes(s, kinds, stat, budget, j).queue == {}
    decreases j
  {
    if j == 0 {
      OrderFacts(s.claims, s.cursor);
      assert ahead + behind == behind;
    } else {
      var next := Pass(s, kinds, stat, budget);
      var ahead', behind' := RoundStep(s, kinds, stat, budget, ahead, behind);
      assert (j - 1) * budget == j * budget - budget;
      RoundCompletes(next, kinds, stat, budget, j - 1, ahead', behind');
      PassKeepsTarget(s, kinds, stat, budget);
    }
  }

  /** From any cursor and an empty queue, on a store that answers every query the
      same way, passes covering the initial claim count leave exactly the claims
      whose bytes are not absent: every lost claim is cleared and no held one is. */
  lemma ScrubConverges(s: State, kinds: ContentId -> Option<ObjectKind>, stat: ContentId -> Stat, budget: nat, j: nat)
    requires s.queue == {} && budget >= 1
    requires |s.claims| <= j * budget
    ensures Passes(s, kinds, stat, budget, j).claims == set c | c in s.claims && stat(c) != Absent
    ensures Passes(s, kinds, stat, budget, j).queue == {}
  {
    OrderFacts(s.claims, s.cursor);
    var order := Order(s.claims, s.cursor);
    assert order == order + [];
    RoundCompletes(s, kinds, stat, budget, j, order, []);
  }

  /** A walk stats distinct claims, and exactly as many as its budget allows. */
  lemma WalkIsExact(claims: set<ContentId>, cursor: Option<ContentId>, budget: nat)
    ensures NoDuplicates(Probed(claims, cursor, budget))
    ensures Elements(Probed(claims, cursor, budget)) <= claims
    ensures |Probed(claims, cursor, budget)| == Min(|claims|, budget)
  {
    OrderFacts(claims, cursor);
    var order := Order(claims, cursor);
    ApproachingDistinct(order, cursor);
    assert forall x | x in Probed(claims, cursor, budget) :: x in order;
  }

  /** A walk that does not stat a standing claim moves the cursor strictly closer to it. */
  lemma WalkApproaches(claims: set<ContentId>, cursor: Option<ContentId>, budget: nat, t: ContentId)
    requires t in claims && budget >= 1
    requires t !in Probed(claims, cursor, budget)
    ensures Distance(Last(Probed(claims, cursor, budget), cursor), t) < Distance(cursor, t)
  {
    OrderFacts(claims, cursor);
    var order := Order(claims, cursor);
    var m := |Probed(claims, cursor, budget)|;
    assert order == order[..m] + order[m..];
    assert t in Elements(order);
    WalkedCloser(order, cursor, m, t);
  }

  /** Cursors and statted claims over a run of walks with arbitrary claim sets. */
  ghost function CursorAfter(rounds: seq<(set<ContentId>, nat)>, cursor: Option<ContentId>): Option<ContentId> {
    if rounds == [] then cursor
    else CursorAfter(rounds[1..], Last(Probed(rounds[0].0, cursor, rounds[0].1), cursor))
  }

  ghost predicate StattedIn(rounds: seq<(set<ContentId>, nat)>, cursor: Option<ContentId>, t: ContentId) {
    exists i :: 0 <= i < |rounds|
             && t in Probed(rounds[i].0, CursorAfter(rounds[..i], cursor), rounds[i].1)
  }

  lemma StattedLater(rounds: seq<(set<ContentId>, nat)>, cursor: Option<ContentId>, t: ContentId)
    requires rounds != []
    requires StattedIn(rounds[1..], Last(Probed(rounds[0].0, cursor, rounds[0].1), cursor), t)
    ensures StattedIn(rounds, cursor, t)
  {
    var cursor' := Last(Probed(rounds[0].0, cursor, rounds[0].1), cursor);
    var rest := rounds[1..];
    var i :| 0 <= i < |rest| && t in Probed(rest[i].0, CursorAfter(rest[..i], cursor'), rest[i].1);
    assert rounds[..i + 1][1..] == rest[..i];
    assert CursorAfter(rounds[..i + 1], cursor) == CursorAfter(rest[..i], cursor');
    assert t in Probed(rounds[i + 1].0, CursorAfter(rounds[..i + 1], cursor), rounds[i + 1].1);
  }

  /** However the claim set and the budget change from walk to walk, a claim that
      stands throughout is statted within its distance from the cursor. */
  lemma {:induction false} ScrubIsFair(rounds: seq<(set<ContentId>, nat)>, cursor: Option<ContentId>, t: ContentId)
    requires forall i :: 0 <= i < |rounds| ==> t in rounds[i].0 && rounds[i].1 >= 1
    requires |rounds| > Distance(cursor, t)
    ensures StattedIn(rounds, cursor, t)
  {
    var walked := Probed(rounds[0].0, cursor, rounds[0].1);
    if t in walked {
      assert rounds[..0] == [];
      assert t in Probed(rounds[0].0, CursorAfter(rounds[..0], cursor), rounds[0].1);
    } else {
      WalkApproaches(rounds[0].0, cursor, rounds[0].1, t);
      var cursor' := Last(walked, cursor);
      var rest := rounds[1..];
      ScrubIsFair(rest, cursor', t);
      StattedLater(rounds, cursor, t);
    }
  }
}
