/** The link-graph checks: which workspace members a crate reaches through production
    edges, a shortest witness for each forbidden one, and the packages they declare. */
module LinkGraph {
  /** A crate name. */
  datatype Name = Name(text: string)

  /** The empty name, which also marks the root's missing parent. */
  const NONE := Name("")

  /** One member's production edges; `workspace` in iteration order. */
  datatype MemberEdges = MemberEdges(workspace: seq<Name>, external: set<Name>)

  type Graph = map<Name, MemberEdges>

  predicate Edge(g: Graph, u: Name, v: Name) {
    u in g && v in g[u].workspace
  }

  predicate Path(g: Graph, p: seq<Name>) {
    p != [] && forall i :: 0 <= i < |p| - 1 ==> Edge(g, p[i], p[i + 1])
  }

  predicate Joins(g: Graph, a: Name, b: Name, p: seq<Name>) {
    Path(g, p) && p[0] == a && p[|p| - 1] == b
  }

  ghost predicate Reaches(g: Graph, a: Name, b: Name) {
    exists p :: Joins(g, a, b, p)
  }

  ghost predicate Shortest(g: Graph, a: Name, b: Name, p: seq<Name>) {
    Joins(g, a, b, p) && forall q :: Joins(g, a, b, q) ==> |p| <= |q|
  }

  /** `all` holds the member and every edge's target. */
  ghost predicate Spans(g: Graph, member: Name, all: set<Name>) {
    member in all && forall u, v :: Edge(g, u, v) ==> v in all
  }

  lemma Span(g: Graph, member: Name) returns (all: set<Name>)
    ensures Spans(g, member, all)
  {
    all := {member} + set u, v | u in g && v in g[u].workspace :: v;
  }

  function Successors(g: Graph, u: Name): (r: seq<Name>)
    ensures forall v :: v in r <==> Edge(g, u, v)
  {
    if u in g then g[u].workspace else []
  }

  lemma ReachesSelf(g: Graph, a: Name)
    ensures Reaches(g, a, a)
  {
    assert Joins(g, a, a, [a]);
  }

  lemma ReachesNext(g: Graph, a: Name, u: Name, v: Name)
    requires Reaches(g, a, u) && Edge(g, u, v)
    ensures Reaches(g, a, v)
  {
    var p :| Joins(g, a, u, p);
    assert Joins(g, a, v, p + [v]);
  }

  /** A set holding the start and closed under edges holds everything reached. */
  lemma {:induction false} ClosedHolds(g: Graph, s: set<Name>, p: seq<Name>)
    requires Path(g, p) && p[0] in s
    requires forall u, v :: u in s && Edge(g, u, v) ==> v in s
    ensures p[|p| - 1] in s
  {
    if |p| > 1 {
      assert Edge(g, p[0], p[1]);
      ClosedHolds(g, s, p[1..]);
    }
  }

  // ---- the closure

  ghost predicate Frontier(g: Graph, member: Name, all: set<Name>, seen: set<Name>, stack: seq<Name>) {
    && (member in seen || member in stack)
    && (forall n :: n in seen || n in stack ==> n in all && Reaches(g, member, n))
    && (forall u, v :: u in seen && Edge(g, u, v) ==> v in seen || v in stack)
  }

  lemma Visit(g: Graph, member: Name, all: set<Name>, seen: set<Name>, rest: seq<Name>, current: Name)
    requires Spans(g, member, all) && Frontier(g, member, all, seen, rest + [current])
    ensures current in seen ==> Frontier(g, member, all, seen, rest)
    ensures current !in seen ==> Frontier(g, member, all, seen + {current}, rest + Successors(g, current))
    ensures current !in seen ==> |all - (seen + {current})| < |all - seen|
  {
    var stack := rest + [current];
    assert forall n :: n in stack <==> n in rest || n == current;
    if current !in seen {
      var next := Successors(g, current);
      forall v | v in next ensures v in all && Reaches(g, member, v) {
        ReachesNext(g, member, current, v);
      }
      assert forall n :: n in rest + next <==> n in rest || n in next;
      assert current in all - seen;
      Shrinks(all - (seen + {current}), all - seen);
    }
  }

  /** Depth-first over workspace edges: seen is exactly the reachable set. */
  method Closure(member: Name, g: Graph) returns (seen: set<Name>)
    ensures forall n :: n in seen <==> Reaches(g, member, n)
  {
    ghost var all := Span(g, member);
    seen := {};
    var stack := [member];
    ReachesSelf(g, member);
    while stack != []
      invariant Frontier(g, member, all, seen, stack)
      decreases |all - seen|, |stack|
    {
      var rest, current := stack[..|stack| - 1], stack[|stack| - 1];
      assert stack == rest + [current];
      Visit(g, member, all, seen, rest, current);
      if current in seen {
        stack := rest;
      } else {
        seen, stack := seen + {current}, rest + Successors(g, current);
      }
    }
    forall n | Reaches(g, member, n) ensures n in seen {
      var p :| Joins(g, member, n, p);
      ClosedHolds(g, seen, p);
    }
  }

  lemma Shrinks(a: set<Name>, b: set<Name>)
    requires a < b
    ensures |a| < |b|
  {
    assert b == a + (b - a);
    assert |b - a| > 0;
  }

  // ---- the breadth-first tree

  /** Every discovered name but the root hangs one level below its parent; the root's
      parent is the empty name. */
  ghost predicate Tree(g: Graph, member: Name, parent: map<Name, Name>, dist: map<Name, nat>) {
    && parent.Keys == dist.Keys
    && member in dist && dist[member] == 0 && parent[member] == NONE
    && forall n {:trigger parent[n]} :: n in dist && n != member ==>
      parent[n] in dist && Edge(g, parent[n], n) && dist[n] == dist[parent[n]] + 1
  }

  /** The queue holds the last two levels in order; all else is settled. */
  ghost predicate Levels(g: Graph, dist: map<Name, nat>, queue: seq<Name>) {
    && (forall i :: 0 <= i < |queue| ==> queue[i] in dist)
    && (forall i, j :: 0 <= i < j < |queue| ==> dist[queue[i]] <= dist[queue[j]])
    && (queue != [] ==> forall n :: n in dist ==> dist[n] <= dist[queue[0]] + 1)
    && (forall u, v :: u in dist && u !in queue && Edge(g, u, v) ==> v in dist && dist[v] <= dist[u] + 1)
  }

  /** The same while `current` is being expanded: the levels ... */
  ghost predicate Ordered(dist: map<Name, nat>, queue: seq<Name>, current: Name) {
    && current in dist
    && (forall i :: 0 <= i < |queue| ==> queue[i] in dist && dist[current] <= dist[queue[i]])
    && (forall i, j :: 0 <= i < j < |queue| ==> dist[queue[i]] <= dist[queue[j]])
    && (forall n :: n in dist ==> dist[n] <= dist[current] + 1)
  }

  /** ... and what is settled, past the first `done` successors of `current`. */
  ghost predicate Settled(g: Graph, dist: map<Name, nat>, queue: seq<Name>, current: Name, done: nat) {
    && (forall u, v :: u in dist && u != current && u !in queue && Edge(g, u, v) ==> v in dist && dist[v] <= dist[u] + 1)
    && (forall i :: 0 <= i < done <= |Successors(g, current)| ==> Successors(g, current)[i] in dist)
  }

  /** Discovery only adds: old levels stay and new names are queued behind the old ones. */
  ghost predicate Grown(dist0: map<Name, nat>, queue0: seq<Name>, dist: map<Name, nat>, queue: seq<Name>) {
    && (forall n :: n in dist0 ==> n in dist && dist[n] == dist0[n])
    && (forall n :: n in dist && n !in dist0 ==> n in queue)
    && queue0 <= queue
    && (|queue| > |queue0| ==> dist.Keys != dist0.Keys)
  }

  lemma GrowTree(g: Graph, member: Name, parent: map<Name, Name>, dist: map<Name, nat>, current: Name, v: Name)
    requires Tree(g, member, parent, dist) && current in dist && v !in dist && Edge(g, current, v)
    ensures Tree(g, member, parent[v := current], dist[v := dist[current] + 1])
  {
  }

  lemma GrowOrdered(dist: map<Name, nat>, queue: seq<Name>, current: Name, v: Name)
    requires Ordered(dist, queue, current) && v !in dist
    ensures Ordered(dist[v := dist[current] + 1], queue + [v], current)
  {
    var dist', queue' := dist[v := dist[current] + 1], queue + [v];
    forall i | 0 <= i < |queue'| ensures queue'[i] in dist' && dist'[current] <= dist'[queue'[i]] {
      assert queue'[i] == if i < |queue| then queue[i] else v;
    }
    forall i, j | 0 <= i < j < |queue'| ensures dist'[queue'[i]] <= dist'[queue'[j]] {
      assert queue'[i] == queue[i];
      assert queue'[j] == if j < |queue| then queue[j] else v;
    }
  }

  lemma GrowSettled(g: Graph, dist: map<Name, nat>, queue: seq<Name>, current: Name, done: nat, d: nat)
    requires done < |Successors(g, current)| && Settled(g, dist, queue, current, done)
    requires Successors(g, current)[done] !in dist
    ensures var v := Successors(g, current)[done];
            Settled(g, dist[v := d], queue + [v], current, done + 1)
  {
    var v := Successors(g, current)[done];
    assert v in queue + [v];
    assert forall u :: u in queue ==> u in queue + [v];
  }

  lemma SkipSettled(g: Graph, dist: map<Name, nat>, queue: seq<Name>, current: Name, done: nat)
    requires done < |Successors(g, current)| && Successors(g, current)[done] in dist
    requires Settled(g, dist, queue, current, done)
    ensures Settled(g, dist, queue, current, done + 1)
  {
  }

  lemma GrowGrown(dist0: map<Name, nat>, queue0: seq<Name>, dist: map<Name, nat>, queue: seq<Name>, v: Name, d: nat)
    requires Grown(dist0, queue0, dist, queue) && v !in dist
    ensures Grown(dist0, queue0, dist[v := d], queue + [v])
  {
    assert v in dist[v := d].Keys && v !in dist0.Keys;
    assert forall n :: n in queue + [v] <==> n in queue || n == v;
  }

  /** The search state, with the level each name was discovered at. */
  datatype Search = Search(parent: map<Name, Name>, queue: seq<Name>, dist: map<Name, nat>)

  function Level(dist: map<Name, nat>, n: Name): nat {
    if n in dist then dist[n] else 0
  }

  ghost function Offer(s: Search, current: Name, v: Name): Search {
    if v in s.parent then s
    else Search(s.parent[v := current], s.queue + [v], s.dist[v := Level(s.dist, current) + 1])
  }

  /** `b` after the first `done` successors of `current` were offered. */
  ghost function Offered(g: Graph, b: Search, current: Name, done: nat): Search
    requires done <= |Successors(g, current)|
  {
    if done == 0 then b else Offer(Offered(g, b, current, done - 1), current, Successors(g, current)[done - 1])
  }

  lemma {:induction false} OfferedHolds(g: Graph, b: Search, current: Name, done: nat)
    requires current in b.dist && done <= |Successors(g, current)|
    ensures current in Offered(g, b, current, done).dist
  {
    if done > 0 {
      OfferedHolds(g, b, current, done - 1);
    }
  }

  lemma {:induction false} OfferedKeys(g: Graph, b: Search, current: Name, done: nat, n: Name)
    requires current in b.dist && done <= |Successors(g, current)|
    requires b.parent.Keys == b.dist.Keys
    ensures n in Offered(g, b, current, done).parent <==> n in Offered(g, b, current, done).dist
  {
    if done > 0 {
      OfferedKeys(g, b, current, done - 1, n);
    } else {
      assert n in b.parent.Keys <==> n in b.dist.Keys;
    }
  }

  lemma OfferTree(g: Graph, member: Name, s: Search, current: Name, v: Name)
    requires Tree(g, member, s.parent, s.dist) && current in s.dist && Edge(g, current, v)
    ensures var t := Offer(s, current, v);
            Tree(g, member, t.parent, t.dist) && current in t.dist
  {
    assert v in s.parent.Keys <==> v in s.dist.Keys;
    if v !in s.dist {
      GrowTree(g, member, s.parent, s.dist, current, v);
    }
  }

  lemma {:induction false} OfferedTree(g: Graph, member: Name, b: Search, current: Name, done: nat)
    requires current in b.dist && done <= |Successors(g, current)|
    requires Tree(g, member, b.parent, b.dist)
    ensures var s := Offered(g, b, current, done);
            Tree(g, member, s.parent, s.dist) && current in s.dist
  {
    if done > 0 {
      OfferedTree(g, member, b, current, done - 1);
      assert Edge(g, current, Successors(g, current)[done - 1]);
      OfferTree(g, member, Offered(g, b, current, done - 1), current, Successors(g, current)[done - 1]);
    }
  }

  lemma {:induction false} OfferedOrdered(g: Graph, b: Search, current: Name, done: nat)
    requires done <= |Successors(g, current)|
    requires b.parent.Keys == b.dist.Keys && Ordered(b.dist, b.queue, current)
    ensures Ordered(Offered(g, b, current, done).dist, Offered(g, b, current, done).queue, current)
  {
    if done > 0 {
      var s, v := Offered(g, b, current, done - 1), Successors(g, current)[done - 1];
      OfferedOrdered(g, b, current, done - 1);
      OfferedKeys(g, b, current, done - 1, v);
      if v !in s.dist {
        GrowOrdered(s.dist, s.queue, current, v);
      }
    }
  }

  lemma OfferSettled(g: Graph, s: Search, current: Name, done: nat, v: Name)
    requires done < |Successors(g, current)| && v == Successors(g, current)[done]
    requires v in s.parent <==> v in s.dist
    requires Settled(g, s.dist, s.queue, current, done)
    ensures Settled(g, Offer(s, current, v).dist, Offer(s, current, v).queue, current, done + 1)
  {
    if v in s.dist {
      SkipSettled(g, s.dist, s.queue, current, done);
    } else {
      GrowSettled(g, s.dist, s.queue, current, done, Level(s.dist, current) + 1);
    }
  }

  lemma {:induction false} OfferedSettled(g: Graph, b: Search, current: Name, done: nat)
    requires current in b.dist && done <= |Successors(g, current)|
    requires b.parent.Keys == b.dist.Keys && Settled(g, b.dist, b.queue, current, 0)
    ensures Settled(g, Offered(g, b, current, done).dist, Offered(g, b, current, done).queue, current, done)
  {
    if done > 0 {
      var s, v := Offered(g, b, current, done - 1), Successors(g, current)[done - 1];
      OfferedSettled(g, b, current, done - 1);
      OfferedKeys(g, b, current, done - 1, v);
      OfferSettled(g, s, current, done - 1, v);
    }
  }

  lemma {:induction false} OfferedGrown(g: Graph, b: Search, current: Name, done: nat)
    requires current in b.dist && done <= |Successors(g, current)|
    requires b.parent.Keys == b.dist.Keys
    ensures Grown(b.dist, b.queue, Offered(g, b, current, done).dist, Offered(g, b, current, done).queue)
  {
    if done > 0 {
      var s, v := Offered(g, b, current, done - 1), Successors(g, current)[done - 1];
      OfferedGrown(g, b, current, done - 1);
      OfferedHolds(g, b, current, done - 1);
      OfferedKeys(g, b, current, done - 1, v);
      if v !in s.dist {
        GrowGrown(b.dist, b.queue, s.dist, s.queue, v, s.dist[current] + 1);
      }
    }
  }

  /** Add the undiscovered successors of `current`, in order. */
  method Expand(g: Graph, current: Name, parent0: map<Name, Name>, queue0: seq<Name>, ghost dist0: map<Name, nat>)
    returns (parent: map<Name, Name>, queue: seq<Name>, ghost dist: map<Name, nat>)
    ensures Search(parent, queue, dist) == Offered(g, Search(parent0, queue0, dist0), current, |Successors(g, current)|)
  {
    parent, queue, dist := parent0, queue0, dist0;
    var next := Successors(g, current);
    for i := 0 to |next|
      invariant Search(parent, queue, dist) == Offered(g, Search(parent0, queue0, dist0), current, i)
    {
      if next[i] !in parent {
        parent := parent[next[i] := current];
        queue := queue + [next[i]];
        dist := dist[next[i] := Level(dist, current) + 1];
      }
    }
  }

  lemma StartExpanding(g: Graph, dist: map<Name, nat>, queue: seq<Name>, current: Name)
    requires Levels(g, dist, [current] + queue)
    ensures Ordered(dist, queue, current) && Settled(g, dist, queue, current, 0)
  {
    var all := [current] + queue;
    assert all[0] == current;
    forall i | 0 <= i < |queue| ensures queue[i] in dist && dist[current] <= dist[queue[i]] {
      assert all[i + 1] == queue[i];
    }
    forall i, j | 0 <= i < j < |queue| ensures dist[queue[i]] <= dist[queue[j]] {
      assert all[i + 1] == queue[i] && all[j + 1] == queue[j];
    }
  }

  lemma DoneExpanding(g: Graph, dist: map<Name, nat>, queue: seq<Name>, current: Name)
    requires Ordered(dist, queue, current) && Settled(g, dist, queue, current, |Successors(g, current)|)
    ensures Levels(g, dist, queue)
  {
    var next := Successors(g, current);
    forall v | Edge(g, current, v) ensures v in dist {
      assert v in next;
      var i :| 0 <= i < |next| && next[i] == v;
    }
  }

  /** Expanding the front of the queue keeps the tree and its levels. */
  lemma ExpandKeeps(g: Graph, member: Name, b: Search, current: Name)
    requires Tree(g, member, b.parent, b.dist)
    requires Levels(g, b.dist, [current] + b.queue)
    ensures current in b.dist
    ensures var s := Offered(g, b, current, |Successors(g, current)|);
            && Tree(g, member, s.parent, s.dist)
            && Levels(g, s.dist, s.queue) && Grown(b.dist, b.queue, s.dist, s.queue)
  {
    StartExpanding(g, b.dist, b.queue, current);
    var n := |Successors(g, current)|;
    OfferedTree(g, member, b, current, n);
    OfferedOrdered(g, b, current, n);
    OfferedSettled(g, b, current, n);
    OfferedGrown(g, b, current, n);
    var s := Offered(g, b, current, n);
    DoneExpanding(g, s.dist, s.queue, current);
  }

  // ---- what the tree proves

  /** Along any path from the root, names nearer than the queue's front are settled. */
  lemma {:induction false} PathIsDiscovered(g: Graph, member: Name, dist: map<Name, nat>, queue: seq<Name>, p: seq<Name>)
    requires member in dist && dist[member] == 0 && Levels(g, dist, queue)
    requires Path(g, p) && p[0] == member
    requires queue == [] || |p| <= dist[queue[0]] + 1
    ensures p[|p| - 1] in dist && dist[p[|p| - 1]] <= |p| - 1
  {
    if |p| > 1 {
      var front := p[..|p| - 1];
      assert Path(g, front);
      PathIsDiscovered(g, member, dist, queue, front);
      var u, v := p[|p| - 2], p[|p| - 1];
      assert front[|front| - 1] == u;
      assert Edge(g, u, v);
    }
  }

  /** The tree path down to `n`, `level` steps long. */
  ghost function Chain(parent: map<Name, Name>, level: nat, n: Name): (p: seq<Name>)
    ensures p != [] && p[|p| - 1] == n
  {
    if level == 0 || n !in parent then [n] else Chain(parent, level - 1, parent[n]) + [n]
  }

  lemma {:induction false} ChainJoins(g: Graph, member: Name, parent: map<Name, Name>, dist: map<Name, nat>, n: Name)
    requires Tree(g, member, parent, dist) && n in dist
    ensures Joins(g, member, n, Chain(parent, dist[n], n))
    ensures |Chain(parent, dist[n], n)| == dist[n] + 1
    decreases dist[n]
  {
    if n != member {
      assert n in parent by { assert n in parent.Keys; }
      ChainJoins(g, member, parent, dist, parent[n]);
      Extend(g, member, parent[n], n, Chain(parent, dist[parent[n]], parent[n]));
    }
  }

  lemma Extend(g: Graph, a: Name, u: Name, v: Name, p: seq<Name>)
    requires Joins(g, a, u, p) && Edge(g, u, v)
    ensures Joins(g, a, v, p + [v])
  {
  }

  /** The name at the front of the queue is as near as its level says. */
  lemma FrontIsShortest(g: Graph, member: Name, parent: map<Name, Name>, dist: map<Name, nat>, queue: seq<Name>)
    requires Tree(g, member, parent, dist) && Levels(g, dist, queue) && queue != []
    ensures Shortest(g, member, queue[0], Chain(parent, dist[queue[0]], queue[0]))
  {
    var t := queue[0];
    ChainJoins(g, member, parent, dist, t);
    forall q | Joins(g, member, t, q) ensures dist[t] + 1 <= |q| {
      if |q| < dist[t] + 1 {
        PathIsDiscovered(g, member, dist, queue, q);
      }
    }
  }

  // ---- reading the path back

  /** What reading parents back to an empty name keeps of a path: everything after the
      last empty name before the end. */
  function Clip(p: seq<Name>): seq<Name>
    requires p != []
  {
    if |p| == 1 || p[|p| - 2] == NONE then [p[|p| - 1]] else Clip(p[..|p| - 1]) + [p[|p| - 1]]
  }

  lemma ClipSnoc(c: seq<Name>, n: Name)
    requires c != []
    ensures Clip(c + [n]) == if c[|c| - 1] == NONE then [n] else Clip(c) + [n]
  {
    var p := c + [n];
    assert |p| - 1 == |c| && p[..|c|] == c && p[|c|] == n && p[|p| - 2] == c[|c| - 1];
  }

  function Reversed(s: seq<Name>): seq<Name> {
    if s == [] then [] else Reversed(s[1..]) + [s[0]]
  }

  /** Parents lead from `n` to a name without one in at most `level` steps. */
  ghost predicate Rooted(parent: map<Name, Name>, level: nat, n: Name) {
    n in parent && (parent[n] == NONE || (level > 0 && Rooted(parent, level - 1, parent[n])))
  }

  /** The names met on the way. */
  ghost function Back(parent: map<Name, Name>, level: nat, n: Name): seq<Name> {
    [n] + if level == 0 || n !in parent || parent[n] == NONE then [] else Back(parent, level - 1, parent[n])
  }

  lemma {:induction false} TreeRoots(g: Graph, member: Name, parent: map<Name, Name>, dist: map<Name, nat>, n: Name)
    requires Tree(g, member, parent, dist) && n in dist
    ensures Rooted(parent, dist[n], n)
    decreases dist[n]
  {
    assert n in parent by { assert n in parent.Keys; }
    if n != member {
      TreeRoots(g, member, parent, dist, parent[n]);
    }
  }

  /** The names kept of the tree path, first to last. */
  ghost function Kept(parent: map<Name, Name>, level: nat, n: Name): seq<Name> {
    if level == 0 || n !in parent || parent[n] == NONE then [n] else Kept(parent, level - 1, parent[n]) + [n]
  }

  lemma {:induction false} BackIsKept(parent: map<Name, Name>, level: nat, n: Name)
    ensures Reversed(Back(parent, level, n)) == Kept(parent, level, n)
  {
    if level == 0 || n !in parent || parent[n] == NONE {
      ReversedOne(n);
      assert [n] + [] == [n];
    } else {
      BackIsKept(parent, level - 1, parent[n]);
      ReversedCons(n, Back(parent, level - 1, parent[n]));
    }
  }

  lemma {:induction false} ClipIsKept(parent: map<Name, Name>, level: nat, n: Name)
    requires Rooted(parent, level, n)
    ensures Clip(Chain(parent, level, n)) == Kept(parent, level, n)
  {
    if level > 0 {
      ClipSnoc(Chain(parent, level - 1, parent[n]), n);
      if parent[n] != NONE {
        ClipIsKept(parent, level - 1, parent[n]);
      }
    }
  }

  lemma ReversedOne(n: Name)
    ensures Reversed([n]) == [n]
  {
    ReversedCons(n, []);
    assert [n] + [] == [n];
  }

  lemma ReversedCons(n: Name, rest: seq<Name>)
    ensures Reversed([n] + rest) == Reversed(rest) + [n]
  {
    assert ([n] + rest)[1..] == rest;
  }

  /** Follow parents from the target, then reverse. */
  method Retrace(target: Name, parent: map<Name, Name>, ghost level: nat) returns (path: seq<Name>)
    requires Rooted(parent, level, target)
    ensures path == Reversed(Back(parent, level, target))
  {
    var back, last := [target], target;
    ghost var front, left := [], level;
    while parent[last] != NONE
      invariant Rooted(parent, left, last)
      invariant Back(parent, level, target) == front + Back(parent, left, last)
      invariant back == front + [last]
      decreases left
    {
      Regroup(front, last, Back(parent, left - 1, parent[last]));
      front, left := back, left - 1;
      last := parent[last];
      back := back + [last];
    }
    assert Back(parent, left, last) == [last];
    path := Reversed(back);
  }

  lemma Regroup<T>(a: seq<T>, x: T, b: seq<T>)
    ensures a + ([x] + b) == (a + [x]) + b
  {
  }

  // ---- the search

  /** The search state after `k` names were taken from the queue. */
  ghost function After(g: Graph, member: Name, k: nat): Search {
    if k == 0 then Search(map[member := NONE], [member], map[member := 0])
    else
      var s := After(g, member, k - 1);
      if s.queue == [] then s
      else Offered(g, s.(queue := s.queue[1..]), s.queue[0], |Successors(g, s.queue[0])|)
  }

  lemma {:induction false} AfterIsSound(g: Graph, member: Name, k: nat)
    ensures var s := After(g, member, k);
            Tree(g, member, s.parent, s.dist) && Levels(g, s.dist, s.queue)
  {
    if k > 0 {
      var s := After(g, member, k - 1);
      AfterIsSound(g, member, k - 1);
      if s.queue != [] {
        assert s.queue == [s.queue[0]] + s.queue[1..];
        ExpandKeeps(g, member, s.(queue := s.queue[1..]), s.queue[0]);
      }
    }
  }

  lemma AfterGrows(g: Graph, member: Name, k: nat)
    requires After(g, member, k).queue != []
    ensures var s, t := After(g, member, k), After(g, member, k + 1);
            Grown(s.dist, s.queue[1..], t.dist, t.queue)
  {
    var s := After(g, member, k);
    AfterIsSound(g, member, k);
    assert s.queue == [s.queue[0]] + s.queue[1..];
    ExpandKeeps(g, member, s.(queue := s.queue[1..]), s.queue[0]);
    AfterIsSound(g, member, k + 1);
  }

  lemma TreeSpanned(g: Graph, member: Name, all: set<Name>, parent: map<Name, Name>, dist: map<Name, nat>)
    requires Spans(g, member, all) && Tree(g, member, parent, dist)
    ensures dist.Keys <= all
  {
    forall n | n in dist.Keys ensures n in all {
      if n != member {
        assert n in parent.Keys;
        assert Edge(g, parent[n], n);
      }
    }
  }

  lemma AfterSpanned(g: Graph, member: Name, all: set<Name>, k: nat)
    requires Spans(g, member, all)
    ensures After(g, member, k).dist.Keys <= all
  {
    var s := After(g, member, k);
    AfterIsSound(g, member, k);
    TreeSpanned(g, member, all, s.parent, s.dist);
  }

  lemma GrownKeys(dist0: map<Name, nat>, queue0: seq<Name>, dist: map<Name, nat>, queue: seq<Name>)
    requires Grown(dist0, queue0, dist, queue)
    ensures dist0.Keys <= dist.Keys
    ensures dist0.Keys == dist.Keys ==> |queue| <= |queue0|
  {
  }

  lemma KeysCount(a: map<Name, nat>, b: map<Name, nat>, all: set<Name>)
    requires a.Keys <= b.Keys <= all
    ensures |a| <= |b| <= |all|
    ensures |a| == |b| ==> a.Keys == b.Keys
  {
    Subset(a.Keys, b.Keys);
    Subset(b.Keys, all);
  }

  lemma Subset(a: set<Name>, b: set<Name>)
    requires a <= b
    ensures |a| <= |b|
    ensures |a| == |b| ==> a == b
  {
    if a != b {
      Shrinks(a, b);
    }
  }

  /** Each step discovers names or shortens the queue. */
  lemma Progress(g: Graph, member: Name, all: set<Name>, k: nat, s: Search, t: Search)
    requires Spans(g, member, all) && s == After(g, member, k) && t == After(g, member, k + 1) && s.queue != []
    ensures |s.dist| <= |t.dist| <= |all|
    ensures |s.dist| == |t.dist| ==> |t.queue| < |s.queue|
  {
    AfterGrows(g, member, k);
    GrownKeys(s.dist, s.queue[1..], t.dist, t.queue);
    AfterSpanned(g, member, all, k + 1);
    KeysCount(s.dist, t.dist, all);
  }

  /** The target was not among the first `k` names taken. */
  ghost predicate Passed(g: Graph, member: Name, target: Name, k: nat) {
    k == 0 || (Passed(g, member, target, k - 1)
               && var q := After(g, member, k - 1).queue; q != [] && q[0] != target)
  }

  lemma {:induction false} StillQueued(g: Graph, member: Name, target: Name, k: nat)
    requires Passed(g, member, target, k)
    ensures target in After(g, member, k).dist ==> target in After(g, member, k).queue
  {
    if k > 0 {
      StillQueued(g, member, target, k - 1);
      AfterGrows(g, member, k - 1);
      var s, t := After(g, member, k - 1), After(g, member, k);
      assert s.queue == [s.queue[0]] + s.queue[1..];
      assert s.queue[1..] == t.queue[..|s.queue| - 1];
    }
  }

  lemma FoundIsShortest(g: Graph, member: Name, s: Search, t: Name, k: nat) returns (p: seq<Name>)
    requires s == After(g, member, k) && s.queue != [] && s.queue[0] == t
    ensures t in s.dist && Rooted(s.parent, s.dist[t], t)
    ensures p != [] && Shortest(g, member, t, p) && Reversed(Back(s.parent, s.dist[t], t)) == Clip(p)
  {
    AfterIsSound(g, member, k);
    FrontIsShortest(g, member, s.parent, s.dist, s.queue);
    TreeRoots(g, member, s.parent, s.dist, t);
    BackIsKept(s.parent, s.dist[t], t);
    ClipIsKept(s.parent, s.dist[t], t);
    p := Chain(s.parent, s.dist[t], t);
  }

  lemma ExhaustedIsUnreached(g: Graph, member: Name, target: Name, k: nat)
    requires Passed(g, member, target, k) && After(g, member, k).queue == []
    ensures !Reaches(g, member, target)
  {
    var s := After(g, member, k);
    AfterIsSound(g, member, k);
    StillQueued(g, member, target, k);
    forall p | Joins(g, member, target, p) ensures false {
      PathIsDiscovered(g, member, s.dist, s.queue, p);
    }
  }

  /** One turn of the search that did not find its target. */
  lemma Advance(g: Graph, member: Name, all: set<Name>, target: Name, k: nat, s: Search, t: Search)
    requires Spans(g, member, all)
    requires s == After(g, member, k) && Passed(g, member, target, k)
    requires s.queue != [] && s.queue[0] != target
    requires t == Offered(g, Search(s.parent, s.queue[1..], s.dist), s.queue[0], |Successors(g, s.queue[0])|)
    ensures t == After(g, member, k + 1) && Passed(g, member, target, k + 1)
    ensures |s.dist| <= |t.dist| <= |all|
    ensures |s.dist| == |t.dist| ==> |t.queue| < |s.queue|
  {
    Progress(g, member, all, k, s, t);
  }

  lemma Begin(g: Graph, member: Name, target: Name) returns (s: Search, k: nat)
    ensures s == After(g, member, k) && Passed(g, member, target, k)
    ensures s.parent == map[member := NONE] && s.queue == [member]
  {
    k := 0;
    s := After(g, member, k);
  }

  /** One turn that does not find the target. */
  method Turn(g: Graph, member: Name, ghost all: set<Name>, target: Name, parent0: map<Name, Name>, queue0: seq<Name>,
              ghost s: Search, ghost k: nat)
    returns (parent: map<Name, Name>, queue: seq<Name>, ghost t: Search)
    requires Spans(g, member, all) && s == After(g, member, k) && Passed(g, member, target, k)
    requires parent0 == s.parent && queue0 == s.queue && queue0 != [] && queue0[0] != target
    ensures t == After(g, member, k + 1) && Passed(g, member, target, k + 1)
    ensures parent == t.parent && queue == t.queue
    ensures |s.dist| <= |t.dist| <= |all|
    ensures |s.dist| == |t.dist| ==> |queue| < |queue0|
  {
    ghost var dist;
    parent, queue, dist := Expand(g, queue0[0], parent0, queue0[1..], s.dist);
    t := Search(parent, queue, dist);
    Advance(g, member, all, target, k, s, t);
  }

  /** Take names from the queue until the target comes up or none is left. */
  method BreadthFirst(member: Name, target: Name, g: Graph)
    returns (found: bool, parent: map<Name, Name>, ghost s: Search, ghost k: nat)
    ensures s == After(g, member, k) && parent == s.parent
    ensures found ==> s.queue != [] && s.queue[0] == target
    ensures found <==> Reaches(g, member, target)
  {
    var queue := [member];
    parent := map[member := NONE];
    s, k := Begin(g, member, target);
    ghost var all := Span(g, member);
    while queue != []
      invariant s == After(g, member, k) && Passed(g, member, target, k)
      invariant parent == s.parent && queue == s.queue
      decreases |all| - |s.dist|, |queue|
    {
      if queue[0] == target {
        ghost var p := FoundIsShortest(g, member, s, target, k);
        found := true;
        return;
      }
      parent, queue, s := Turn(g, member, all, target, parent, queue, s, k);
      k := k + 1;
    }
    ExhaustedIsUnreached(g, member, target, k);
    found := false;
  }

  /** Breadth-first to the target: nothing when it is out of reach, otherwise a shortest
      path clipped at empty names. */
  method WitnessPath(member: Name, target: Name, g: Graph) returns (path: seq<Name>)
    ensures path == [] ==> !Reaches(g, member, target)
    ensures path != [] ==> exists p :: Shortest(g, member, target, p) && path == Clip(p)
  {
    var found, parent, s, k := BreadthFirst(member, target, g);
    if found {
      ghost var p := FoundIsShortest(g, member, s, target, k);
      ClipKeepsEnd(p);
      path := Retrace(target, parent, s.dist[target]);
    } else {
      path := [];
    }
  }

  lemma {:induction false} ClipKeepsEnd(p: seq<Name>)
    requires p != []
    ensures Clip(p) != []
    ensures Clip(p) == p <==> NONE !in p[..|p| - 1]
  {
    if |p| > 1 && p[|p| - 2] != NONE {
      var front := p[..|p| - 1];
      ClipKeepsEnd(front);
      assert p == front + [p[|p| - 1]];
      assert front == front[..|front| - 1] + [p[|p| - 2]];
    }
  }

  // ---- when the reported path is whole

  /** A shortest path never comes back to its start. */
  lemma ShortestLeaves(g: Graph, a: Name, b: Name, p: seq<Name>, i: nat)
    requires Shortest(g, a, b, p) && 0 < i < |p|
    ensures p[i] != a
  {
    if p[i] == a {
      assert Joins(g, a, b, p[i..]);
    }
  }

  /** What clipping drops ends in an empty name. */
  lemma {:induction false} ClipDrops(p: seq<Name>) returns (i: nat)
    requires p != []
    ensures i < |p| && Clip(p) == p[i..] && (i > 0 ==> p[i - 1] == NONE)
  {
    if |p| == 1 || p[|p| - 2] == NONE {
      i := |p| - 1;
    } else {
      i := ClipDrops(p[..|p| - 1]);
      SuffixSnoc(p, i);
    }
  }

  lemma SuffixSnoc<T>(p: seq<T>, i: nat)
    requires i < |p| - 1
    ensures p[i..] == p[..|p| - 1][i..] + [p[|p| - 1]]
  {
  }

  /** The witness runs from the member exactly when no empty name comes before its end. */
  lemma WitnessIsWhole(g: Graph, member: Name, target: Name, p: seq<Name>)
    requires Shortest(g, member, target, p)
    ensures Joins(g, member, target, Clip(p)) <==> NONE !in p[..|p| - 1]
    ensures NONE !in p[..|p| - 1] ==> Clip(p) == p
  {
    ClipKeepsEnd(p);
    var i := ClipDrops(p);
    if i > 0 {
      ShortestLeaves(g, member, target, p, i);
      assert p[i..][0] == p[i];
    } else {
      assert p[0..] == p;
    }
  }

  /** Resolved workspace edges carry real names, so only an empty member's witness to
      another crate is cut short. */
  lemma NamedWitness(g: Graph, member: Name, target: Name, p: seq<Name>)
    requires forall u, v :: Edge(g, u, v) ==> v != NONE
    requires Shortest(g, member, target, p)
    ensures Joins(g, member, target, Clip(p)) <==> member != NONE || target == NONE
  {
    WitnessIsWhole(g, member, target, p);
    forall i | 0 < i < |p| ensures p[i] != NONE { assert Edge(g, p[i - 1], p[i]); }
    if member == NONE && target != NONE {
      assert p[..|p| - 1][0] == NONE;
    } else if member == NONE {
      assert |p| == 1;
    }
  }

  /** The empty member: its witness to a direct dependency does not name it. */
  lemma EmptyMemberIsDropped(target: Name, p: seq<Name>)
    requires target != NONE
    requires Shortest(map[NONE := MemberEdges([target], {})], NONE, target, p)
    ensures Clip(p) == [target]
  {
    var g := map[NONE := MemberEdges([target], {})];
    assert Joins(g, NONE, target, [NONE, target]);
    assert p == [NONE, target];
  }

  // ---- the two checks

  /** A forbidden member with its witness, or forbidden packages with who declares them. */
  datatype Violation = ReachesHost(host: Name, via: seq<Name>) | Links(hits: set<(Name, Name)>)

  ghost predicate Declares(g: Graph, member: Name, banned: Name -> bool, reached: Name, package: Name) {
    Reaches(g, member, reached) && reached in g && package in g[reached].external && banned(package)
  }

  /** Each report names a forbidden member truly reached, by its witness, or exactly the
      forbidden packages declared in the closure. */
  ghost predicate True(g: Graph, member: Name, hosts: seq<Name>, banned: Name -> bool, v: Violation) {
    match v
    case ReachesHost(host, via) =>
      host in hosts && exists p :: Shortest(g, member, host, p) && via == Clip(p)
    case Links(hits) =>
      hits != {} && forall m, x :: (m, x) in hits <==> Declares(g, member, banned, m, x)
  }

  ghost predicate Clean(g: Graph, member: Name, hosts: seq<Name>, banned: Name -> bool) {
    && (forall h :: h in hosts ==> !Reaches(g, member, h))
    && (forall m, x :: !Declares(g, member, banned, m, x))
  }

  predicate HostReported(violations: seq<Violation>, host: Name) {
    exists i :: 0 <= i < |violations| && violations[i].ReachesHost? && violations[i].host == host
  }

  predicate LinksReported(violations: seq<Violation>) {
    exists i :: 0 <= i < |violations| && violations[i].Links?
  }

  /** Every forbidden member reached is reported, and the forbidden packages if there is one. */
  ghost predicate Complete(g: Graph, member: Name, hosts: seq<Name>, banned: Name -> bool, violations: seq<Violation>) {
    && (forall h :: h in hosts && Reaches(g, member, h) ==> HostReported(violations, h))
    && (forall m, x :: Declares(g, member, banned, m, x) ==> LinksReported(violations))
  }

  lemma ReportedStays(violations: seq<Violation>, v: Violation, host: Name)
    ensures HostReported(violations, host) ==> HostReported(violations + [v], host)
    ensures v.ReachesHost? ==> HostReported(violations + [v], v.host)
    ensures v.Links? ==> LinksReported(violations + [v])
  {
    var more := violations + [v];
    assert more[|violations|] == v;
    if HostReported(violations, host) {
      var i :| 0 <= i < |violations| && violations[i].ReachesHost? && violations[i].host == host;
      assert more[i] == violations[i];
    }
  }

  method CheckHosts(member: Name, g: Graph, hosts: seq<Name>, seen: set<Name>, ghost banned: Name -> bool)
    returns (violations: seq<Violation>)
    requires forall n :: n in seen <==> Reaches(g, member, n)
    ensures forall v :: v in violations ==> v.ReachesHost? && True(g, member, hosts, banned, v)
    ensures forall h :: h in hosts && Reaches(g, member, h) ==> HostReported(violations, h)
  {
    violations := [];
    for i := 0 to |hosts|
      invariant forall v :: v in violations ==> v.ReachesHost? && True(g, member, hosts, banned, v)
      invariant forall j :: 0 <= j < i && hosts[j] in seen ==> HostReported(violations, hosts[j])
    {
      var host := hosts[i];
      if host in seen {
        var via := WitnessPath(member, host, g);
        var v := ReachesHost(host, via);
        assert True(g, member, hosts, banned, v);
        forall j | 0 <= j < |hosts| ensures HostReported(violations, hosts[j]) ==> HostReported(violations + [v], hosts[j]) {
          ReportedStays(violations, v, hosts[j]);
        }
        ReportedStays(violations, v, host);
        violations := violations + [v];
      }
    }
  }

  lemma CleanIff(g: Graph, member: Name, hosts: seq<Name>, banned: Name -> bool, violations: seq<Violation>)
    requires forall v :: v in violations ==> True(g, member, hosts, banned, v)
    requires Complete(g, member, hosts, banned, violations)
    ensures violations == [] <==> Clean(g, member, hosts, banned)
  {
    if violations != [] {
      var v := violations[0];
      assert True(g, member, hosts, banned, v);
      match v {
        case ReachesHost(host, via) =>
          var p :| Shortest(g, member, host, p) && via == Clip(p);
          assert Reaches(g, member, host);
        case Links(hits) =>
          var hit :| hit in hits;
          assert Declares(g, member, banned, hit.0, hit.1);
      }
    }
  }

  method Check(member: Name, g: Graph, hosts: seq<Name>, banned: Name -> bool) returns (violations: seq<Violation>)
    ensures forall v :: v in violations ==> True(g, member, hosts, banned, v)
    ensures Complete(g, member, hosts, banned, violations)
    ensures violations == [] <==> Clean(g, member, hosts, banned)
  {
    var seen := Closure(member, g);
    violations := CheckHosts(member, g, hosts, seen, banned);
    var hits := set m, x | m in seen && m in g && x in g[m].external && banned(x) :: (m, x);
    forall m, x ensures (m, x) in hits <==> Declares(g, member, banned, m, x) {}
    if hits != {} {
      var v := Links(hits);
      assert True(g, member, hosts, banned, v);
      forall h | h in hosts ensures HostReported(violations, h) ==> HostReported(violations + [v], h) {
        ReportedStays(violations, v, h);
      }
      ReportedStays(violations, v, member);
      violations := violations + [v];
    }
    CleanIff(g, member, hosts, banned, violations);
  }

  predicate StartsWith(s: string, prefix: string) {
    prefix <= s
  }

  function Iroh(): Name -> bool {
    (n: Name) => StartsWith(n.text, "iroh")
  }

  function Presentation(): Name -> bool {
    (n: Name) => n.text in ["fuser", "libc", "clap"]
  }

  const VIEW_HOSTS := [Name("wyrd-sync")]

  method CheckLinkGraph(member: Name, g: Graph) returns (violations: seq<Violation>)
    ensures violations == [] <==> Clean(g, member, VIEW_HOSTS, Iroh())
    ensures forall v :: v in violations ==> True(g, member, VIEW_HOSTS, Iroh(), v)
    ensures Complete(g, member, VIEW_HOSTS, Iroh(), violations)
  {
    violations := Check(member, g, VIEW_HOSTS, Iroh());
  }

  const CONSUMER_HOSTS := [Name("wyrd-daemon"), Name("wyrd-cli"), Name("wyrd-contracts")]

  method CheckConsumerLinkGraph(member: Name, g: Graph) returns (violations: seq<Violation>)
    ensures violations == [] <==> Clean(g, member, CONSUMER_HOSTS, Presentation())
    ensures forall v :: v in violations ==> True(g, member, CONSUMER_HOSTS, Presentation(), v)
    ensures Complete(g, member, CONSUMER_HOSTS, Presentation(), violations)
  {
    violations := Check(member, g, CONSUMER_HOSTS, Presentation());
  }
}
