/** The explicit-stack walks of the policy commands, against the tree they walk. */
module PolicyWalk {
  import opened Identity
  import opened Namespace
  import opened PathOrder
  import opened SyncEngine

  datatype PolicyError =
    | ViewFailed(path: string)
    | Conflicted(path: string, versions: nat)
    | PinnedPresent(path: string, pinned: nat)
    | TooDeep(path: string)
    | EngineFailed

  datatype Result<+T> = Ok(value: T) | Err(error: PolicyError)

  // ---- collecting a subtree's content

  datatype Content = Content(chunks: set<ContentId>, tally: Tally)

  const EMPTY := Content({}, NOTHING)

  function Offence(i: Item): Option<PolicyError> {
    if i.depth > MAX_PATH_DEPTH then Some(TooDeep(i.at))
    else match i.node
      case Conflict(versions) => Some(Conflicted(i.at, versions))
      case Dir(Unlistable) => Some(ViewFailed(i.at))
      case _ => None
  }

  function Absorb(c: Content, i: Item): Content {
    match i.node
    case File(chunks) => Content(c.chunks + Elements(chunks), c.tally.Plus(Tally(1, 0, 0)))
    case Dir(_) => c.(tally := c.tally.Plus(Tally(0, 1, 0)))
    case Symlink => c.(tally := c.tally.Plus(Tally(0, 0, 1)))
    case Conflict(_) => c
  }

  /** Visiting in order stops at the first offence. */
  function Collected(c: Content, items: seq<Item>): Result<Content>
    decreases |items|
  {
    if items == [] then Ok(c)
    else match Offence(items[0])
      case Some(e) => Err(e)
      case None => Collected(Absorb(c, items[0]), items[1..])
  }

  /** The first offence in visit order is `e`. */
  ghost predicate StopsOn(items: seq<Item>, e: PolicyError) {
    exists k :: 0 <= k < |items| && Offence(items[k]) == Some(e) && forall j :: 0 <= j < k ==> Offence(items[j]) == None
  }

  lemma {:induction false} CollectStopsFirst(c: Content, items: seq<Item>)
    ensures Collected(c, items).Err? ==> StopsOn(items, Collected(c, items).error)
    decreases |items|
  {
    if items != [] {
      if Offence(items[0]) == None {
        CollectStopsFirst(Absorb(c, items[0]), items[1..]);
        if Collected(c, items).Err? {
          var e := Collected(c, items).error;
          var rest := items[1..];
          var k :| 0 <= k < |rest| && Offence(rest[k]) == Some(e) && forall j :: 0 <= j < k ==> Offence(rest[j]) == None;
          assert forall j :: 0 < j < |items| ==> items[j] == rest[j - 1];
          assert Offence(items[k + 1]) == Some(e);
        }
      } else {
        assert Offence(items[0]).Some?;
      }
    }
  }

  /** Every chunk under a path, sorted and once each, with the walk's counts. */
  method CollectSubtree(path: string, root: Option<Node>) returns (r: Result<(seq<ContentId>, Tally)>)
    ensures root == None ==> r == Err(ViewFailed(path))
    ensures root.Some? ==>
              match Collected(EMPTY, Visits(Item(path, root.value, 0)))
              case Err(e) => r == Err(e)
              case Ok(content) => r == Ok((Enumerate(content.chunks), content.tally))
  {
    if root == None {
      return Err(ViewFailed(path));
    }
    var collected := EMPTY;
    var stack := [Item(path, root.value, 0)];
    RemainingOne(stack[0]);
    while stack != []
      invariant Collected(EMPTY, Visits(Item(path, root.value, 0))) == Collected(collected, Remaining(stack))
      decreases |Remaining(stack)|
    {
      var rest, top := stack[..|stack| - 1], stack[|stack| - 1];
      assert stack == rest + [top];
      PopVisits(rest, top);
      if top.depth > MAX_PATH_DEPTH {
        return Err(TooDeep(top.at));
      }
      match top.node {
        case File(_) =>
        case Symlink =>
        case Dir(Entries(_)) =>
        case Dir(Unlistable) => return Err(ViewFailed(top.at));
        case Conflict(versions) => return Err(Conflicted(top.at, versions));
      }
      assert Remaining(stack)[1..] == Remaining(rest + Children(top));
      collected := Absorb(collected, top);
      stack := rest + Children(top);
    }
    r := Ok((Enumerate(collected.chunks), collected.tally));
  }

  function Add(c: Content, chunks: set<ContentId>, tally: Tally): Content {
    Content(c.chunks + chunks, c.tally.Plus(tally))
  }

  lemma AddNoChunks(c: Content, t: Tally)
    ensures Add(c, {}, t) == Content(c.chunks, c.tally.Plus(t))
  {
    assert c.chunks + {} == c.chunks;
  }

  lemma AddTwice(c: Content, a: set<ContentId>, b: set<ContentId>, s: Tally, t: Tally)
    ensures Add(Add(c, a, s), b, t) == Add(c, a + b, s.Plus(t))
  {
    assert (c.chunks + a) + b == c.chunks + (a + b);
  }

  lemma AddToEmpty(a: set<ContentId>, t: Tally)
    ensures Add(EMPTY, a, t) == Content(a, t)
  {
    assert {} + a == a;
  }

  /** Past an inoffensive item with nothing below it. */
  lemma CollectLeaf(c: Content, i: Item, rest: seq<Item>)
    requires Offence(i) == None && !Opens(i)
    ensures Collected(c, [i] + rest) == Collected(Add(c, Chunks(i.node, i.depth), Count(i.node)), rest)
  {
    assert ([i] + rest)[1..] == rest;
    if i.node.Symlink? {
      AddNoChunks(c, Count(i.node));
    }
  }

  /** A subtree is absorbed as a whole exactly when it is walkable. */
  lemma {:induction false} CollectVisits(c: Content, i: Item, rest: seq<Item>)
    ensures Walkable(i.node, i.depth) ==>
              Collected(c, Visits(i) + rest) == Collected(Add(c, Chunks(i.node, i.depth), Count(i.node)), rest)
    ensures !Walkable(i.node, i.depth) ==> Collected(c, Visits(i) + rest).Err?
    decreases i.node, 1
  {
    var below := Below(i);
    var items := ([i] + below) + rest;
    assert items[0] == i && items[1..] == below + rest;
    if Offence(i) == None {
      if Opens(i) {
        CollectVisitsAll(Absorb(c, i), i.at, i.node.listing.entries, i.depth + 1, rest);
      } else {
        assert below == [];
        assert items == [i] + rest;
        CollectLeaf(c, i, rest);
      }
    }
  }

  lemma {:induction false} CollectVisitsAll(c: Content, at: string, es: seq<Entry>, depth: nat, rest: seq<Item>)
    ensures WalkableAll(es, depth) ==>
              Collected(c, VisitsAll(at, es, depth) + rest) == Collected(Add(c, ChunksAll(es, depth), CountAll(es)), rest)
    ensures !WalkableAll(es, depth) ==> Collected(c, VisitsAll(at, es, depth) + rest).Err?
    decreases es, 0
  {
    if es == [] {
      assert VisitsAll(at, es, depth) + rest == rest;
      AddNoChunks(c, NOTHING);
    } else {
      var front, last := es[..|es| - 1], es[|es| - 1];
      var top := Item(Child(at, last.name), last.node, depth);
      var later := VisitsAll(at, front, depth) + rest;
      assert VisitsAll(at, es, depth) + rest == Visits(top) + later;
      CollectVisits(c, top, later);
      CollectVisitsAll(Add(c, Chunks(last.node, depth), Count(last.node)), at, front, depth, rest);
      AddTwice(c, Chunks(last.node, depth), ChunksAll(front, depth), Count(last.node), CountAll(front));
    }
  }

  lemma CollectItem(i: Item)
    ensures Walkable(i.node, i.depth) ==>
              Collected(EMPTY, Visits(i)) == Ok(Content(Chunks(i.node, i.depth), Count(i.node)))
    ensures !Walkable(i.node, i.depth) ==> Collected(EMPTY, Visits(i)).Err?
  {
    CollectVisits(EMPTY, i, []);
    assert Visits(i) + [] == Visits(i);
    AddToEmpty(Chunks(i.node, i.depth), Count(i.node));
  }

  /** The walk succeeds exactly on a subtree with no conflict, no unlistable directory
      and nothing past the depth bound, and then yields all its chunks and its counts. */
  lemma CollectIsExact(path: string, root: Node)
    ensures Collected(EMPTY, Visits(Item(path, root, 0))).Ok? <==> Walkable(root, 0)
    ensures Walkable(root, 0) ==>
              Collected(EMPTY, Visits(Item(path, root, 0))) == Ok(Content(Chunks(root, 0), Count(root)))
  {
    CollectItem(Item(path, root, 0));
  }

  // ---- the residency census

  datatype Role = Mirror | Vault

  predicate Promised(policy: map<ContentId, Materialization>, role: Role, c: ContentId) {
    PolicyOf(policy, c) == Pinned || role == Vault
  }

  /** One file's row: its chunks, the promised ones, whether the file is promised and
      whether it is fully local. */
  datatype Row = Row(path: string, chunks: seq<ContentId>, pinned: seq<ContentId>, promised: bool, present: bool)

  function PromisedOf(policy: map<ContentId, Materialization>, role: Role, chunks: seq<ContentId>): (r: seq<ContentId>)
    ensures |r| <= |chunks|
  {
    if chunks == [] then []
    else
      var front, c := PromisedOf(policy, role, chunks[..|chunks| - 1]), chunks[|chunks| - 1];
      if Promised(policy, role, c) then front + [c] else front
  }

  method ClassifyFile(policy: map<ContentId, Materialization>, claims: set<ContentId>, role: Role, at: string, chunks: seq<ContentId>)
    returns (row: Row)
    ensures row.path == at && row.chunks == chunks && row.pinned == PromisedOf(policy, role, chunks)
    ensures row.promised <==> forall c :: c in chunks ==> Promised(policy, role, c)
    ensures row.present <==> forall c :: c in chunks ==> c in claims
  {
    var pinned, present := [], true;
    for i := 0 to |chunks|
      invariant pinned == PromisedOf(policy, role, chunks[..i])
      invariant present <==> forall c :: c in chunks[..i] ==> c in claims
    {
      var id := chunks[i];
      assert chunks[..i + 1] == chunks[..i] + [id];
      assert chunks[..i + 1][..i] == chunks[..i];
      if Promised(policy, role, id) {
        pinned := pinned + [id];
      }
      if id !in claims {
        present := false;
      }
    }
    assert chunks[..|chunks|] == chunks;
    PromisedLength(policy, role, chunks);
    row := Row(at, chunks, pinned, |pinned| == |chunks|, present);
  }

  /** Counting promised chunks decides whether all are: an empty file is promised. */
  lemma {:induction false} PromisedLength(policy: map<ContentId, Materialization>, role: Role, chunks: seq<ContentId>)
    ensures |PromisedOf(policy, role, chunks)| == |chunks| <==> forall c :: c in chunks ==> Promised(policy, role, c)
  {
    if chunks != [] {
      var front, c := chunks[..|chunks| - 1], chunks[|chunks| - 1];
      PromisedLength(policy, role, front);
      assert chunks == front + [c];
    }
  }

  /** What a census walk meets: files in walk order, conflicted paths, and counts. */
  datatype Survey = Survey(files: seq<Item>, conflicts: seq<string>, dirs: nat, links: nat)

  const UNSEEN := Survey([], [], 0, 0)

  /** A conflict costs the census a row, not the report. */
  function Obstacle(i: Item): Option<PolicyError> {
    if i.depth > MAX_PATH_DEPTH then Some(TooDeep(i.at))
    else if i.node == Dir(Unlistable) then Some(ViewFailed(i.at))
    else None
  }

  function Record(v: Survey, i: Item): Survey {
    match i.node
    case File(_) => v.(files := v.files + [i])
    case Dir(_) => v.(dirs := v.dirs + 1)
    case Symlink => v.(links := v.links + 1)
    case Conflict(_) => v.(conflicts := v.conflicts + [i.at])
  }

  function Surveyed(v: Survey, items: seq<Item>): Result<Survey>
    decreases |items|
  {
    if items == [] then Ok(v)
    else match Obstacle(items[0])
      case Some(e) => Err(e)
      case None => Surveyed(Record(v, items[0]), items[1..])
  }

  datatype Census = Census(rows: seq<Row>, conflicts: seq<string>, dirs: nat, links: nat)

  ghost predicate RowFor(policy: map<ContentId, Materialization>, claims: set<ContentId>, role: Role, i: Item, row: Row) {
    && i.node.File? && row.path == i.at && row.chunks == i.node.chunks
    && row.pinned == PromisedOf(policy, role, row.chunks)
    && (row.promised <==> forall c :: c in row.chunks ==> Promised(policy, role, c))
    && (row.present <==> forall c :: c in row.chunks ==> c in claims)
  }

  ghost predicate Reports(policy: map<ContentId, Materialization>, claims: set<ContentId>, role: Role, v: Survey, n: Census) {
    && n.conflicts == v.conflicts && n.dirs == v.dirs && n.links == v.links
    && |n.rows| == |v.files|
    && forall k :: 0 <= k < |n.rows| ==> RowFor(policy, claims, role, v.files[k], n.rows[k])
  }

  /** One visited item into the report. */
  method RecordItem(policy: map<ContentId, Materialization>, claims: set<ContentId>, role: Role, n: Census, i: Item, ghost v: Survey)
    returns (m: Census)
    requires Reports(policy, claims, role, v, n)
    ensures Reports(policy, claims, role, Record(v, i), m)
  {
    match i.node {
      case File(chunks) =>
        var row := ClassifyFile(policy, claims, role, i.at, chunks);
        m := n.(rows := n.rows + [row]);
      case Dir(_) => m := n.(dirs := n.dirs + 1);
      case Symlink => m := n.(links := n.links + 1);
      case Conflict(_) => m := n.(conflicts := n.conflicts + [i.at]);
    }
  }

  // ---- the rows by path

  predicate Ordered(rows: seq<Row>) {
    forall i, j :: 0 <= i < j < |rows| ==> AtMost(rows[i].path, rows[j].path)
  }

  /** The rows of one path, in their order. */
  function At(rows: seq<Row>, path: string): seq<Row> {
    if rows == [] then []
    else At(rows[..|rows| - 1], path) + if rows[|rows| - 1].path == path then [rows[|rows| - 1]] else []
  }

  lemma AtSnoc(rows: seq<Row>, row: Row, path: string)
    ensures At(rows + [row], path) == At(rows, path) + if row.path == path then [row] else []
  {
    assert (rows + [row])[..|rows|] == rows;
  }

  /** In path order, and otherwise in the order they had. */
  ghost predicate ByPath(rows: seq<Row>, sorted: seq<Row>) {
    Ordered(sorted) && forall path :: At(sorted, path) == At(rows, path)
  }

  function Placed(rows: seq<Row>, row: Row): seq<Row> {
    if rows == [] || AtMost(rows[|rows| - 1].path, row.path) then rows + [row]
    else Placed(rows[..|rows| - 1], row) + [rows[|rows| - 1]]
  }

  function SortedByPath(rows: seq<Row>): seq<Row> {
    if rows == [] then [] else Placed(SortedByPath(rows[..|rows| - 1]), rows[|rows| - 1])
  }

  lemma {:induction false} PlacedHolds(rows: seq<Row>, row: Row, x: Row)
    ensures x in Placed(rows, row) <==> x in rows || x == row
  {
    if rows != [] {
      assert rows == rows[..|rows| - 1] + [rows[|rows| - 1]];
      PlacedHolds(rows[..|rows| - 1], row, x);
    }
  }

  lemma {:induction false} PlacedAt(rows: seq<Row>, row: Row, path: string)
    ensures At(Placed(rows, row), path) == At(rows, path) + if row.path == path then [row] else []
  {
    if rows == [] || AtMost(rows[|rows| - 1].path, row.path) {
      AtSnoc(rows, row, path);
    } else {
      var front, last := rows[..|rows| - 1], rows[|rows| - 1];
      PlacedAt(front, row, path);
      AtSnoc(Placed(front, row), last, path);
      AtMostItself(row.path);
    }
  }

  lemma OrderedSnoc(rows: seq<Row>, row: Row)
    requires Ordered(rows) && forall x :: x in rows ==> AtMost(x.path, row.path)
    ensures Ordered(rows + [row])
  {
  }

  lemma UpToLast(rows: seq<Row>, x: Row)
    requires Ordered(rows) && x in rows
    ensures AtMost(x.path, rows[|rows| - 1].path)
  {
    AtMostItself(x.path);
  }

  lemma {:induction false} PlacedIsOrdered(rows: seq<Row>, row: Row)
    requires Ordered(rows)
    ensures Ordered(Placed(rows, row))
  {
    if rows == [] || AtMost(rows[|rows| - 1].path, row.path) {
      forall x | x in rows ensures AtMost(x.path, row.path) {
        UpToLast(rows, x);
        AtMostChains(x.path, rows[|rows| - 1].path, row.path);
      }
      OrderedSnoc(rows, row);
    } else {
      var front, last := rows[..|rows| - 1], rows[|rows| - 1];
      PlacedIsOrdered(front, row);
      AtMostIsTotal(row.path, last.path);
      forall x | x in Placed(front, row) ensures AtMost(x.path, last.path) {
        PlacedHolds(front, row, x);
        if x in front {
          UpToLast(rows, x);
        }
      }
      OrderedSnoc(Placed(front, row), last);
    }
  }

  lemma {:induction false} SortIsByPath(rows: seq<Row>)
    ensures ByPath(rows, SortedByPath(rows))
  {
    if rows != [] {
      var front, last := rows[..|rows| - 1], rows[|rows| - 1];
      SortIsByPath(front);
      PlacedIsOrdered(SortedByPath(front), last);
      forall path ensures At(SortedByPath(rows), path) == At(rows, path) {
        PlacedAt(SortedByPath(front), last, path);
      }
    }
  }

  lemma {:induction false} InAt(rows: seq<Row>, row: Row, path: string)
    ensures row in At(rows, path) <==> row in rows && row.path == path
  {
    if rows != [] {
      InAt(rows[..|rows| - 1], row, path);
      assert rows == rows[..|rows| - 1] + [rows[|rows| - 1]];
    }
  }

  /** Sorting neither adds nor loses a row. */
  lemma SortKeepsRows(rows: seq<Row>, sorted: seq<Row>, row: Row)
    requires ByPath(rows, sorted)
    ensures row in sorted <==> row in rows
  {
    InAt(rows, row, row.path);
    InAt(sorted, row, row.path);
  }

  /** Walk a path and classify every reachable file against one snapshot; `walked` are the
      rows as the walk met them. */
  method ResidencyCensus(path: string, root: Option<Node>, policy: map<ContentId, Materialization>,
                         claims: set<ContentId>, role: Role)
    returns (r: Result<Census>, ghost walked: seq<Row>)
    ensures root == None ==> r == Err(ViewFailed(path))
    ensures root.Some? ==>
              match Surveyed(UNSEEN, Visits(Item(path, root.value, 0)))
              case Err(e) => r == Err(e)
              case Ok(v) => r.Ok? && Reports(policy, claims, role, v, r.value.(rows := walked)) && ByPath(walked, r.value.rows)
  {
    walked := [];
    if root == None {
      return Err(ViewFailed(path)), walked;
    }
    var census := Census([], [], 0, 0);
    ghost var seen := UNSEEN;
    var stack := [Item(path, root.value, 0)];
    RemainingOne(stack[0]);
    while stack != []
      invariant Surveyed(UNSEEN, Visits(Item(path, root.value, 0))) == Surveyed(seen, Remaining(stack))
      invariant Reports(policy, claims, role, seen, census)
      decreases |Remaining(stack)|
    {
      var rest, top := stack[..|stack| - 1], stack[|stack| - 1];
      assert stack == rest + [top];
      PopVisits(rest, top);
      if top.depth > MAX_PATH_DEPTH {
        return Err(TooDeep(top.at)), walked;
      }
      if top.node == Dir(Unlistable) {
        return Err(ViewFailed(top.at)), walked;
      }
      census := RecordItem(policy, claims, role, census, top, seen);
      assert Remaining(stack)[1..] == Remaining(rest + Children(top));
      seen := Record(seen, top);
      stack := rest + Children(top);
    }
    walked := census.rows;
    SortIsByPath(walked);
    r := Ok(census.(rows := SortedByPath(census.rows)));
  }

  function FileChunks(files: seq<Item>): set<ContentId> {
    if files == [] then {}
    else
      FileChunks(files[..|files| - 1])
      + if files[|files| - 1].node.File? then Elements(files[|files| - 1].node.chunks) else {}
  }

  predicate Agree(c: Content, v: Survey) {
    c.chunks == FileChunks(v.files) && c.tally == Tally(|v.files|, v.dirs, v.links)
  }

  lemma RecordAgrees(c: Content, v: Survey, i: Item)
    requires Agree(c, v) && Offence(i) == None
    ensures Obstacle(i) == None && Agree(Absorb(c, i), Record(v, i)) && Record(v, i).conflicts == v.conflicts
  {
    assert (v.files + [i])[..|v.files|] == v.files;
  }

  /** Over the same visits, a collect that succeeds and a census agree throughout. */
  lemma {:induction false} SurveyAgrees(c: Content, v: Survey, items: seq<Item>)
    requires Agree(c, v) && Collected(c, items).Ok?
    ensures Surveyed(v, items).Ok?
    ensures Agree(Collected(c, items).value, Surveyed(v, items).value)
    ensures Surveyed(v, items).value.conflicts == v.conflicts
    decreases |items|
  {
    if items != [] {
      RecordAgrees(c, v, items[0]);
      SurveyAgrees(Absorb(c, items[0]), Record(v, items[0]), items[1..]);
    }
  }

  /** Whenever a subtree can be collected its census reports no conflict, the same
      counts, and files whose chunks are exactly the collected ones. */
  lemma CensusMatchesCollect(path: string, root: Node)
    requires Walkable(root, 0)
    ensures Surveyed(UNSEEN, Visits(Item(path, root, 0))).Ok?
    ensures var v := Surveyed(UNSEEN, Visits(Item(path, root, 0))).value;
            && v.conflicts == []
            && FileChunks(v.files) == Chunks(root, 0)
            && Tally(|v.files|, v.dirs, v.links) == Count(root)
  {
    CollectIsExact(path, root);
    SurveyAgrees(EMPTY, UNSEEN, Visits(Item(path, root, 0)));
  }
}
