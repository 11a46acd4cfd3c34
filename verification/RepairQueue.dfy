/** The detector-to-loop channel both repair drains consume. The loss queue and
    the rejection queue are the same ordered set: one report per identity and
    kind, taken smallest first. */
module RepairQueue {
  import opened Identity

  /** One observed fault: claimed bytes found absent, or bytes that no longer
      hash back to their address. */
  datatype Report = Report(content: ContentId, kind: ObjectKind)

  /** Identity bytes first, kind byte as the tie break. */
  function Rank(r: Report): nat {
    4 * r.content + r.kind.Byte()
  }

  lemma RankInjective(a: Report, b: Report)
    requires Rank(a) == Rank(b)
    ensures a == b
  {
    assert a.content == b.content && a.kind.Byte() == b.kind.Byte();
  }

  lemma {:induction false} FirstExists(q: set<Report>) returns (r: Report)
    requires q != {}
    ensures r in q && forall x | x in q :: Rank(r) <= Rank(x)
  {
    var x :| x in q;
    var rest := q - {x};
    assert q == rest + {x};
    if rest == {} {
      r := x;
    } else {
      var n := FirstExists(rest);
      r := if Rank(x) < Rank(n) then x else n;
    }
  }

  function First(q: set<Report>): (r: Report)
    requires q != {}
    ensures r in q && forall x | x in q :: Rank(r) <= Rank(x)
  {
    assert exists r :: r in q && forall x | x in q :: Rank(r) <= Rank(x) by {
      var r := FirstExists(q);
    }
    assert forall a, b | a in q && b in q && Rank(a) == Rank(b) :: a == b by {
      forall a, b | a in q && b in q && Rank(a) == Rank(b) ensures a == b { RankInjective(a, b); }
    }
    var r :| r in q && forall x | x in q :: Rank(r) <= Rank(x);
    r
  }

  /** The reports `n` consecutive pops take. */
  function Popped(q: set<Report>, n: nat): seq<Report> {
    if n == 0 || q == {} then [] else [First(q)] + Popped(q - {First(q)}, n - 1)
  }

  /** A drain takes distinct queued reports: all of them, or exactly its cap. */
  lemma {:induction false} PoppedCount(q: set<Report>, n: nat)
    ensures Elements(Popped(q, n)) <= q
    ensures NoDuplicates(Popped(q, n))
    ensures |Popped(q, n)| == if n < |q| then n else |q|
  {
    if n != 0 && q != {} {
      var r := First(q);
      PoppedCount(q - {r}, n - 1);
      assert r !in Elements(Popped(q - {r}, n - 1));
    }
  }

  lemma PoppedFirst(q: set<Report>, n: nat, r: Report, rest: set<Report>)
    requires n > 0 && q != {} && r == First(q) && rest == q - {r}
    ensures Popped(q, n) == [r] + Popped(rest, n - 1)
  {
  }

  /** Draining in two goes takes the same reports as one longer drain. */
  lemma {:induction false} PoppedSplits(q: set<Report>, n: nat, m: nat)
    ensures Popped(q, n + m) == Popped(q, n) + Popped(q - Elements(Popped(q, n)), m)
  {
    if n == 0 || q == {} {
      assert q - Elements(Popped(q, n)) == q;
    } else {
      var r := First(q);
      PoppedSplits(q - {r}, n - 1, m);
      PoppedJoin(q, r, q - {r}, n, m, Popped(q - {r}, n - 1));
    }
  }

  lemma PoppedJoin(q: set<Report>, r: Report, left: set<Report>, n: nat, m: nat, rest: seq<Report>)
    requires n > 0 && q != {} && r == First(q) && left == q - {r} && rest == Popped(left, n - 1)
    requires Popped(left, n - 1 + m) == rest + Popped(left - Elements(rest), m)
    ensures Popped(q, n + m) == Popped(q, n) + Popped(q - Elements(Popped(q, n)), m)
  {
    PoppedFirst(q, n, r, left);
    PoppedFirst(q, n + m, r, left);
    WithoutFirst(q, r, rest);
    Associate([r], rest, Popped(left - Elements(rest), m));
  }

  lemma WithoutFirst(q: set<Report>, r: Report, rest: seq<Report>)
    ensures q - Elements([r] + rest) == (q - {r}) - Elements(rest)
  {
    ElementsConcat([r], rest);
    assert Elements([r]) == {r};
  }

  class Queue {
    var state: set<Report>

    constructor ()
      ensures state == {}
    {
      state := {};
    }

    /** Idempotent per report: duplicates collapse. */
    method Submit(r: Report)
      modifies this
      ensures state == old(state) + {r}
    {
      state := state + {r};
    }

    method Pop() returns (r: Option<Report>)
      modifies this
      ensures old(state) == {} ==> r == None && state == {}
      ensures old(state) != {} ==> r == Some(First(old(state))) && state == old(state) - {First(old(state))}
    {
      if state == {} {
        r := None;
      } else {
        var first := First(state);
        state := state - {first};
        r := Some(first);
      }
    }

    /** The first phase of both drains: pop and emit, at most `cap` times. */
    method TakeBatch(cap: nat) returns (batch: seq<Report>)
      modifies this
      ensures batch == Popped(old(state), cap)
      ensures state == old(state) - Elements(batch)
    {
      batch := [];
      while |batch| < cap
        invariant |batch| <= cap
        invariant state == old(state) - Elements(batch)
        invariant Popped(old(state), cap) == batch + Popped(state, cap - |batch|)
      {
        var r := Pop();
        if r == None {
          assert Popped(state, cap - |batch|) == [];
          return;
        }
        assert Popped(old(state), cap) == (batch + [r.value]) + Popped(state, cap - |batch| - 1);
        batch := batch + [r.value];
      }
    }
  }
}
