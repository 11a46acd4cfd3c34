/** The vault role's capped sweep for chunks still to fetch. */
module PolicySweep {
  import opened Identity
  import opened Namespace
  import opened SyncEngine
  import opened PolicyWalk

  predicate Unheld(policy: map<ContentId, Materialization>, claims: set<ContentId>, c: ContentId) {
    PolicyOf(policy, c) != Pinned && c !in claims
  }

  /** Everything a complete sweep owes: unpinned, unclaimed, at a legal depth. */
  function Owed(policy: map<ContentId, Materialization>, claims: set<ContentId>, chunks: set<ContentId>): set<ContentId> {
    set c | c in chunks && Unheld(policy, claims, c)
  }

  /** Every directory at a legal depth lists. */
  predicate Listable(n: Node, depth: nat)
    decreases n
  {
    depth <= MAX_PATH_DEPTH && n.Dir? ==> n.listing.Entries? && ListableAll(n.listing.entries, depth + 1)
  }

  predicate ListableAll(es: seq<Entry>, depth: nat)
    decreases es
  {
    es == [] || (Listable(es[|es| - 1].node, depth) && ListableAll(es[..|es| - 1], depth))
  }

  /** One file's chunks; the flag says the cap was full before the last of them. */
  function TakeChunks(policy: map<ContentId, Materialization>, claims: set<ContentId>, cap: nat,
                      chunks: seq<ContentId>, out: seq<ContentId>): (seq<ContentId>, bool)
    decreases |chunks|
  {
    if chunks == [] then (out, false)
    else if |out| >= cap then (out, true)
    else
      TakeChunks(policy, claims, cap, chunks[1..],
                 if Unheld(policy, claims, chunks[0]) && chunks[0] !in out then out + [chunks[0]] else out)
  }

  /** Visits in order, stopping the moment the cap is full. */
  function Swept(policy: map<ContentId, Materialization>, claims: set<ContentId>, cap: nat,
                 items: seq<Item>, out: seq<ContentId>): Result<(seq<ContentId>, bool)>
    decreases |items|
  {
    if items == [] then Ok((out, true))
    else if |out| >= cap then Ok((out, false))
    else if items[0].depth > MAX_PATH_DEPTH then Swept(policy, claims, cap, items[1..], out)
    else match items[0].node
      case File(chunks) =>
        var (next, full) := TakeChunks(policy, claims, cap, chunks, out);
        if full then Ok((next, false)) else Swept(policy, claims, cap, items[1..], next)
      case Dir(Unlistable) => Err(ViewFailed(items[0].at))
      case _ => Swept(policy, claims, cap, items[1..], out)
  }

  method TakeFile(policy: map<ContentId, Materialization>, claims: set<ContentId>, cap: nat,
                  chunks: seq<ContentId>, before: seq<ContentId>)
    returns (out: seq<ContentId>, full: bool)
    ensures (out, full) == TakeChunks(policy, claims, cap, chunks, before)
  {
    out := before;
    var i := 0;
    while i < |chunks|
      invariant i <= |chunks|
      invariant TakeChunks(policy, claims, cap, chunks, before) == TakeChunks(policy, claims, cap, chunks[i..], out)
    {
      if |out| >= cap {
        return out, true;
      }
      assert chunks[i..][1..] == chunks[i + 1..];
      if Unheld(policy, claims, chunks[i]) && chunks[i] !in out {
        out := out + [chunks[i]];
      }
      i := i + 1;
    }
    full := false;
  }

  /** Reachable identities a vault still has to fetch, at most `cap`, and whether the
      walk ran to its end. */
  method UnheldWantCandidates(path: string, root: Option<Node>, policy: map<ContentId, Materialization>,
                              claims: set<ContentId>, cap: nat)
    returns (r: Result<(seq<ContentId>, bool)>)
    ensures root == None ==> r == Err(ViewFailed(path))
    ensures root.Some? ==> r == Swept(policy, claims, cap, Visits(Item(path, root.value, 0)), [])
  {
    if root == None {
      return Err(ViewFailed(path));
    }
    var out: seq<ContentId> := [];
    var stack := [Item(path, root.value, 0)];
    RemainingOne(stack[0]);
    while stack != []
      invariant Swept(policy, claims, cap, Visits(Item(path, root.value, 0)), [])
             == Swept(policy, claims, cap, Remaining(stack), out)
      decreases |Remaining(stack)|
    {
      var rest, top := stack[..|stack| - 1], stack[|stack| - 1];
      assert stack == rest + [top];
      PopVisits(rest, top);
      assert Remaining(stack)[1..] == Remaining(rest + Children(top));
      if |out| >= cap {
        return Ok((out, false));
      }
      stack := rest;
      if top.depth > MAX_PATH_DEPTH {
        // An illegal path is skipped with its subtree; siblings go on.
        assert rest + Children(top) == rest;
        continue;
      }
      match top.node {
        case File(chunks) =>
          assert rest + Children(top) == rest;
          var full;
          out, full := TakeFile(policy, claims, cap, chunks, out);
          if full {
            return Ok((out, false));
          }
        case Dir(Entries(_)) => stack := rest + Children(top);
        case Dir(Unlistable) => return Err(ViewFailed(top.at));
        case Symlink => assert rest + Children(top) == rest;
        case Conflict(_) => assert rest + Children(top) == rest;
      }
    }
    r := Ok((out, true));
  }

  // ---- exactness

  /** Chunks of the files at a legal depth among some visits. */
  function LegalChunks(items: seq<Item>): set<ContentId>
    decreases |items|
  {
    if items == [] then {}
    else
      (if items[0].depth <= MAX_PATH_DEPTH && items[0].node.File? then Elements(items[0].node.chunks) else {})
      + LegalChunks(items[1..])
  }

  lemma {:induction false} LegalConcat(a: seq<Item>, b: seq<Item>)
    ensures LegalChunks(a + b) == LegalChunks(a) + LegalChunks(b)
    decreases |a|
  {
    if a == [] {
      assert a + b == b;
    } else {
      assert (a + b)[1..] == a[1..] + b;
      LegalConcat(a[1..], b);
    }
  }

  lemma {:induction false} LegalVisits(i: Item)
    ensures LegalChunks(Visits(i)) == Chunks(i.node, i.depth)
    decreases i.node, 1
  {
    var below := Below(i);
    assert ([i] + below)[1..] == below;
    if Opens(i) {
      LegalVisitsAll(i.at, i.node.listing.entries, i.depth + 1);
    }
  }

  lemma {:induction false} LegalVisitsAll(at: string, es: seq<Entry>, depth: nat)
    ensures LegalChunks(VisitsAll(at, es, depth)) == ChunksAll(es, depth)
    decreases es, 0
  {
    if es != [] {
      var front, last := es[..|es| - 1], es[|es| - 1];
      var top := Item(Child(at, last.name), last.node, depth);
      LegalVisits(top);
      LegalVisitsAll(at, front, depth);
      LegalConcat(Visits(top), VisitsAll(at, front, depth));
    }
  }

  predicate Barred(items: seq<Item>) {
    exists i :: i in items && i.depth <= MAX_PATH_DEPTH && i.node == Dir(Unlistable)
  }

  /** Nothing doubled, nothing undemanded, never past the cap. */
  predicate Sober(policy: map<ContentId, Materialization>, claims: set<ContentId>, cap: nat, out: seq<ContentId>) {
    NoDuplicates(out) && |out| <= cap && forall c :: c in out ==> Unheld(policy, claims, c)
  }

  lemma {:induction false} TakeChunksExact(policy: map<ContentId, Materialization>, claims: set<ContentId>, cap: nat,
                                           chunks: seq<ContentId>, out: seq<ContentId>)
    requires Sober(policy, claims, cap, out)
    ensures var (next, full) := TakeChunks(policy, claims, cap, chunks, out);
            && Sober(policy, claims, cap, next)
            && Elements(next) <= Elements(out) + Elements(chunks)
            && (full ==> |next| == cap)
            && (!full ==> Elements(next) == Elements(out) + Owed(policy, claims, Elements(chunks)))
    decreases |chunks|
  {
    if chunks == [] {
      assert Owed(policy, claims, Elements(chunks)) == {};
    } else if |out| < cap {
      var c := chunks[0];
      var next := if Unheld(policy, claims, c) && c !in out then out + [c] else out;
      assert chunks == [c] + chunks[1..];
      ElementsConcat([c], chunks[1..]);
      ElementsConcat(out, [c]);
      TakeChunksExact(policy, claims, cap, chunks[1..], next);
    }
  }

  lemma OwedUnion(policy: map<ContentId, Materialization>, claims: set<ContentId>, a: set<ContentId>, b: set<ContentId>)
    ensures Owed(policy, claims, a + b) == Owed(policy, claims, a) + Owed(policy, claims, b)
  {
  }

  /** Over any visits: the sweep fails only at an unlistable directory, and otherwise
      returns either all that is owed, or exactly a full cap of it. */
  lemma {:induction false} SweptExact(policy: map<ContentId, Materialization>, claims: set<ContentId>, cap: nat,
                                      items: seq<Item>, out: seq<ContentId>)
    requires Sober(policy, claims, cap, out)
    ensures var r := Swept(policy, claims, cap, items, out);
            && (r.Err? ==> Barred(items))
            && (r.Ok? ==>
                  && Sober(policy, claims, cap, r.value.0)
                  && Elements(r.value.0) <= Elements(out) + LegalChunks(items)
                  && (!r.value.1 ==> |r.value.0| == cap)
                  && (r.value.1 ==> Elements(r.value.0) == Elements(out) + Owed(policy, claims, LegalChunks(items))))
    decreases |items|
  {
    if items == [] {
      assert Owed(policy, claims, LegalChunks(items)) == {};
    } else if |out| < cap {
      var i, rest := items[0], items[1..];
      if i.depth <= MAX_PATH_DEPTH && i.node.File? {
        TakeChunksExact(policy, claims, cap, i.node.chunks, out);
        var (next, full) := TakeChunks(policy, claims, cap, i.node.chunks, out);
        OwedUnion(policy, claims, Elements(i.node.chunks), LegalChunks(rest));
        if !full {
          SweptExact(policy, claims, cap, rest, next);
        }
      } else {
        assert LegalChunks(items) == LegalChunks(rest);
        SweptExact(policy, claims, cap, rest, out);
      }
      assert Barred(rest) ==> Barred(items);
    }
  }

  lemma {:induction false} ListableVisits(i: Item)
    requires Listable(i.node, i.depth)
    ensures !Barred(Visits(i))
    decreases i.node, 1
  {
    if Opens(i) {
      ListableVisitsAll(i.at, i.node.listing.entries, i.depth + 1);
    }
    assert forall x :: x in Visits(i) ==> x == i || x in Below(i);
  }

  lemma {:induction false} ListableVisitsAll(at: string, es: seq<Entry>, depth: nat)
    requires ListableAll(es, depth)
    ensures !Barred(VisitsAll(at, es, depth))
    decreases es, 0
  {
    if es != [] {
      var front, last := es[..|es| - 1], es[|es| - 1];
      ListableVisits(Item(Child(at, last.name), last.node, depth));
      ListableVisitsAll(at, front, depth);
    }
  }

  /** On a listable tree a sweep never fails. On any tree one that succeeds returns owed
      chunks, each once and at most `cap`: every one if it completed, else exactly `cap`. */
  lemma SweepIsExact(path: string, root: Node, policy: map<ContentId, Materialization>, claims: set<ContentId>, cap: nat)
    ensures var r := Swept(policy, claims, cap, Visits(Item(path, root, 0)), []);
            var owed := Owed(policy, claims, Chunks(root, 0));
            && (Listable(root, 0) ==> r.Ok?)
            && (r.Ok? ==>
                  && NoDuplicates(r.value.0) && Elements(r.value.0) <= owed && |r.value.0| <= cap
                  && (if r.value.1 then Elements(r.value.0) == owed else |r.value.0| == cap))
  {
    var i := Item(path, root, 0);
    if Listable(root, 0) {
      ListableVisits(i);
    }
    LegalVisits(i);
    SweptExact(policy, claims, cap, Visits(i), []);
  }

  // ---- convergence

  function SweepOf(path: string, root: Node, policy: map<ContentId, Materialization>, claims: set<ContentId>, cap: nat): (seq<ContentId>, bool) {
    match Swept(policy, claims, cap, Visits(Item(path, root, 0)), [])
    case Ok(r) => r
    case Err(_) => ([], false)
  }

  /** The claims after `k` sweeps when everything each returns becomes local. */
  function ClaimsAfter(path: string, root: Node, policy: map<ContentId, Materialization>, claims: set<ContentId>, cap: nat, k: nat): set<ContentId>
    decreases k
  {
    if k == 0 then claims
    else
      ClaimsAfter(path, root, policy, claims + Elements(SweepOf(path, root, policy, claims, cap).0), cap, k - 1)
  }

  predicate Completes(path: string, root: Node, policy: map<ContentId, Materialization>, claims: set<ContentId>, cap: nat) {
    SweepOf(path, root, policy, claims, cap).1
  }

  lemma OwedAfter(policy: map<ContentId, Materialization>, claims: set<ContentId>, chunks: set<ContentId>, out: seq<ContentId>)
    requires NoDuplicates(out) && Elements(out) <= Owed(policy, claims, chunks)
    ensures |Owed(policy, claims + Elements(out), chunks)| + |out| == |Owed(policy, claims, chunks)|
  {
    var owed := Owed(policy, claims, chunks);
    DistinctCount(out);
    assert Owed(policy, claims + Elements(out), chunks) == owed - Elements(out);
    assert owed == (owed - Elements(out)) + Elements(out);
  }

  /** An incomplete sweep pays off exactly its cap. */
  lemma SweepPays(path: string, root: Node, policy: map<ContentId, Materialization>, claims: set<ContentId>, cap: nat)
    returns (later: set<ContentId>)
    requires Listable(root, 0) && !Completes(path, root, policy, claims, cap)
    ensures |Owed(policy, later, Chunks(root, 0))| + cap == |Owed(policy, claims, Chunks(root, 0))|
    ensures forall k: nat {:trigger ClaimsAfter(path, root, policy, later, cap, k)} ::
              ClaimsAfter(path, root, policy, claims, cap, k + 1) == ClaimsAfter(path, root, policy, later, cap, k)
  {
    SweepIsExact(path, root, policy, claims, cap);
    var out := SweepOf(path, root, policy, claims, cap).0;
    OwedAfter(policy, claims, Chunks(root, 0), out);
    later := claims + Elements(out);
  }

  /** With `u` chunks owed, at most u / cap sweeps come before one that completes. */
  lemma {:induction false} SweepsConverge(path: string, root: Node, policy: map<ContentId, Materialization>,
                                          claims: set<ContentId>, cap: nat)
    returns (k: nat)
    requires Listable(root, 0) && cap >= 1
    ensures k * cap <= |Owed(policy, claims, Chunks(root, 0))|
    ensures Completes(path, root, policy, ClaimsAfter(path, root, policy, claims, cap, k), cap)
    decreases |Owed(policy, claims, Chunks(root, 0))|
  {
    if Completes(path, root, policy, claims, cap) {
      k := 0;
    } else {
      var later := SweepPays(path, root, policy, claims, cap);
      var m := SweepsConverge(path, root, policy, later, cap);
      k := m + 1;
      assert k * cap == m * cap + cap;
    }
  }
}
