/** The namespace the policy commands walk, and what a subtree contains. */
module Namespace {
  import opened Identity

  const MAX_PATH_DEPTH: nat := 256

  /** What the view resolves a path to. A merged directory lists like a plain one. */
  datatype Node =
    | File(chunks: seq<ContentId>)
    | Dir(listing: Listing)
    | Symlink
    | Conflict(versions: nat)

  /** What listing a directory answers. */
  datatype Listing = Entries(entries: seq<Entry>) | Unlistable

  datatype Entry = Entry(name: string, node: Node)

  function Child(at: string, name: string): string {
    if at == "" then name else at + "/" + name
  }

  // ---- what a subtree contains, by structure

  /** A walk from `depth` meets no conflict, no unlistable directory, nothing too deep. */
  predicate Walkable(n: Node, depth: nat)
    decreases n
  {
    && depth <= MAX_PATH_DEPTH
    && !n.Conflict?
    && (n.Dir? ==> n.listing.Entries? && WalkableAll(n.listing.entries, depth + 1))
  }

  predicate WalkableAll(es: seq<Entry>, depth: nat)
    decreases es
  {
    es == [] || (Walkable(es[|es| - 1].node, depth) && WalkableAll(es[..|es| - 1], depth))
  }

  /** Every chunk of every file at a legal depth. */
  function Chunks(n: Node, depth: nat): set<ContentId>
    decreases n
  {
    if depth > MAX_PATH_DEPTH then {}
    else match n
      case File(chunks) => Elements(chunks)
      case Dir(Entries(es)) => ChunksAll(es, depth + 1)
      case _ => {}
  }

  function ChunksAll(es: seq<Entry>, depth: nat): set<ContentId>
    decreases es
  {
    if es == [] then {} else Chunks(es[|es| - 1].node, depth) + ChunksAll(es[..|es| - 1], depth)
  }

  /** Files, directories and links of a subtree. */
  datatype Tally = Tally(files: nat, dirs: nat, links: nat) {
    function Plus(o: Tally): Tally {
      Tally(files + o.files, dirs + o.dirs, links + o.links)
    }
  }

  const NOTHING := Tally(0, 0, 0)

  function Count(n: Node): Tally
    decreases n
  {
    match n
    case File(_) => Tally(1, 0, 0)
    case Dir(Entries(es)) => Tally(0, 1, 0).Plus(CountAll(es))
    case Dir(Unlistable) => Tally(0, 1, 0)
    case Symlink => Tally(0, 0, 1)
    case Conflict(_) => NOTHING
  }

  function CountAll(es: seq<Entry>): Tally
    decreases es
  {
    if es == [] then NOTHING else Count(es[|es| - 1].node).Plus(CountAll(es[..|es| - 1]))
  }

  // ---- the order in which a stack visits a subtree

  datatype Item = Item(at: string, node: Node, depth: nat)

  predicate Opens(i: Item) {
    i.depth <= MAX_PATH_DEPTH && i.node.Dir? && i.node.listing.Entries?
  }

  /** What visiting an item pushes, in listing order. */
  function Pushed(at: string, es: seq<Entry>, depth: nat): (items: seq<Item>)
    ensures |items| == |es|
    decreases es
  {
    if es == [] then []
    else Pushed(at, es[..|es| - 1], depth) + [Item(Child(at, es[|es| - 1].name), es[|es| - 1].node, depth)]
  }

  function Children(i: Item): seq<Item> {
    if Opens(i) then Pushed(i.at, i.node.listing.entries, i.depth + 1) else []
  }

  /** An item, then what its visit leads to, last entry first. */
  function Visits(i: Item): seq<Item>
    decreases i.node, 2
  {
    [i] + Below(i)
  }

  function Below(i: Item): seq<Item>
    decreases i.node, 1
  {
    if Opens(i) then VisitsAll(i.at, i.node.listing.entries, i.depth + 1) else []
  }

  function VisitsAll(at: string, es: seq<Entry>, depth: nat): seq<Item>
    decreases es, 0
  {
    if es == [] then []
    else Visits(Item(Child(at, es[|es| - 1].name), es[|es| - 1].node, depth)) + VisitsAll(at, es[..|es| - 1], depth)
  }

  /** What is left to visit when a stack holds these items, top last. */
  function Remaining(stack: seq<Item>): seq<Item> {
    if stack == [] then [] else Visits(stack[|stack| - 1]) + Remaining(stack[..|stack| - 1])
  }

  lemma RemainingSnoc(rest: seq<Item>, top: Item)
    ensures Remaining(rest + [top]) == Visits(top) + Remaining(rest)
  {
    var stack := rest + [top];
    assert stack[..|stack| - 1] == rest;
  }

  lemma {:induction false} RemainingPushed(rest: seq<Item>, at: string, es: seq<Entry>, depth: nat)
    ensures Remaining(rest + Pushed(at, es, depth)) == VisitsAll(at, es, depth) + Remaining(rest)
    decreases es
  {
    if es == [] {
      assert rest + Pushed(at, es, depth) == rest;
    } else {
      var front, last := es[..|es| - 1], es[|es| - 1];
      var top := Item(Child(at, last.name), last.node, depth);
      RemainingPushed(rest, at, front, depth);
      Associate(rest, Pushed(at, front, depth), [top]);
      RemainingSnoc(rest + Pushed(at, front, depth), top);
      Associate(Visits(top), VisitsAll(at, front, depth), Remaining(rest));
    }
  }

  lemma RemainingChildren(rest: seq<Item>, top: Item)
    ensures Remaining(rest + Children(top)) == Below(top) + Remaining(rest)
  {
    if Opens(top) {
      RemainingPushed(rest, top.at, top.node.listing.entries, top.depth + 1);
    } else {
      assert rest + Children(top) == rest;
    }
  }

  /** Popping the top visits it and leaves its children on the stack. */
  lemma PopVisits(rest: seq<Item>, top: Item)
    ensures Remaining(rest + [top]) == [top] + Remaining(rest + Children(top))
  {
    RemainingSnoc(rest, top);
    RemainingChildren(rest, top);
    Associate([top], Below(top), Remaining(rest));
  }

  lemma RemainingOne(i: Item)
    ensures Remaining([i]) == Visits(i)
  {
    assert [i][..0] == [];
    assert Remaining([]) == [];
  }
}
