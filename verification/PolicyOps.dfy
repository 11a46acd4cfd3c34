/** Pin, unpin and evict over subtrees that may overlap and share chunks. */
module PolicyOps {
  import opened Identity
  import opened Namespace
  import opened SyncEngine
  import opened PolicyWalk

  type Policy = map<ContentId, Materialization>

  datatype Kind = Pin | Unpin | Evict

  /** One operation on a subtree, and how the durable log fares under it. */
  datatype Op = Op(kind: Kind, root: Node, disk: Disk)

  function Target(kind: Kind): Materialization {
    match kind
    case Pin => Pinned
    case Unpin => Cached
    case Evict => RemoteOnly
  }

  /** An unpin moves only what is pinned; the others move whatever is not there yet. */
  predicate Moves(policy: Policy, kind: Kind, c: ContentId) {
    if kind == Unpin then PolicyOf(policy, c) == Pinned else PolicyOf(policy, c) != Target(kind)
  }

  function Moved(policy: Policy, kind: Kind, chunks: set<ContentId>): set<ContentId> {
    set c | c in chunks && Moves(policy, kind, c)
  }

  function PinnedIn(policy: Policy, chunks: set<ContentId>): set<ContentId> {
    Moved(policy, Unpin, chunks)
  }

  /** Only an evict refuses, and only for a pinned chunk. */
  predicate Refused(policy: Policy, kind: Kind, chunks: set<ContentId>) {
    kind == Evict && PinnedIn(policy, chunks) != {}
  }

  function Set(policy: Policy, moved: set<ContentId>, to: Materialization): Policy {
    policy + (map c | c in moved :: to)
  }

  function Applied(policy: Policy, op: Op): Policy {
    var chunks := Chunks(op.root, 0);
    if !Walkable(op.root, 0) || op.disk != Healthy || Refused(policy, op.kind, chunks) then policy
    else Set(policy, Moved(policy, op.kind, chunks), Target(op.kind))
  }

  function Run(policy: Policy, ops: seq<Op>): Policy {
    if ops == [] then policy else Applied(Run(policy, ops[..|ops| - 1]), ops[|ops| - 1])
  }

  datatype Report = Report(tally: Tally, changed: nat, already: nat)

  lemma Snoc(ids: seq<ContentId>, c: ContentId)
    requires NoDuplicates(ids) && c !in ids
    ensures NoDuplicates(ids + [c])
  {
  }

  /** The chunks an operation's filter keeps. */
  method Select(policy: Policy, chunks: seq<ContentId>, kind: Kind) returns (ids: seq<ContentId>)
    requires NoDuplicates(chunks)
    ensures NoDuplicates(ids) && |ids| <= |chunks|
    ensures forall c :: c in ids <==> c in chunks && Moves(policy, kind, c)
  {
    ids := [];
    for i := 0 to |chunks|
      invariant NoDuplicates(ids) && |ids| <= i
      invariant forall c :: c in ids <==> c in chunks[..i] && Moves(policy, kind, c)
    {
      var c := chunks[i];
      assert chunks[..i + 1] == chunks[..i] + [c];
      assert c !in chunks[..i];
      if Moves(policy, kind, c) {
        Snoc(ids, c);
        ids := ids + [c];
      }
    }
    assert chunks[..|chunks|] == chunks;
  }

  lemma SelectedIs(policy: Policy, kind: Kind, chunks: seq<ContentId>, all: set<ContentId>, ids: seq<ContentId>)
    requires Elements(chunks) == all
    requires NoDuplicates(ids)
    requires forall c :: c in ids <==> c in chunks && Moves(policy, kind, c)
    ensures Elements(ids) == Moved(policy, kind, all)
    ensures |ids| == |Moved(policy, kind, all)|
    ensures Transitions(policy, Elements(ids), Target(kind)) == Elements(ids)
  {
    DistinctCount(ids);
    forall c ensures c in Elements(ids) <==> c in Moved(policy, kind, all) {
      assert c in chunks <==> c in Elements(chunks);
      assert c in ids <==> c in Elements(ids);
    }
  }

  lemma SetNothing(policy: Policy, to: Materialization)
    ensures Set(policy, {}, to) == policy
  {
  }

  lemma Complement(all: set<ContentId>, part: set<ContentId>)
    requires part <= all
    ensures |all - part| == |all| - |part|
  {
    assert all * part == part;
  }

  /** What an operation over the chunks `all` reports: moved and left-alone split them. */
  function Decision(policy: Policy, path: string, kind: Kind, all: set<ContentId>, tally: Tally, disk: Disk)
    : Result<Report>
  {
    var moved := Moved(policy, kind, all);
    if disk == Unreadable then Err(EngineFailed)
    else if Refused(policy, kind, all) then Err(PinnedPresent(path, |PinnedIn(policy, all)|))
    else if moved != {} && disk == Unwritable then Err(EngineFailed)
    else Ok(Report(tally, |moved|, |all - moved|))
  }

  /** How many of the chunks are pinned. */
  method CountPinned(policy: Policy, chunks: seq<ContentId>) returns (n: nat)
    requires NoDuplicates(chunks)
    ensures n == |PinnedIn(policy, Elements(chunks))|
  {
    var pinned := Select(policy, chunks, Unpin);
    SelectedIs(policy, Unpin, chunks, Elements(chunks), pinned);
    n := |pinned|;
  }

  /** Commit what the operation moves, once. */
  method Move(engine: Engine, kind: Kind, chunks: seq<ContentId>, tally: Tally, disk: Disk) returns (r: Result<Report>)
    requires NoDuplicates(chunks) && disk != Unreadable
    modifies engine
    ensures engine.claims == old(engine.claims)
    ensures var all := Elements(chunks);
            var moved := Moved(old(engine.policy), kind, all);
            if moved != {} && disk == Unwritable then
              r == Err(EngineFailed) && engine.policy == old(engine.policy) && engine.revision == old(engine.revision)
            else
              && r == Ok(Report(tally, |moved|, |all - moved|))
              && engine.policy == Set(old(engine.policy), moved, Target(kind))
              && engine.revision == old(engine.revision) + (if moved == {} then 0 else 1)
  {
    var changes := Select(engine.policy, chunks, kind);
    SelectedIs(engine.policy, kind, chunks, Elements(chunks), changes);
    SetNothing(engine.policy, Target(kind));
    DistinctCount(chunks);
    Complement(Elements(chunks), Elements(changes));
    var committed := engine.SetMaterializations(changes, Target(kind), disk);
    if committed == Failed {
      return Err(EngineFailed);
    }
    r := Ok(Report(tally, committed.value, |chunks| - |changes|));
  }

  /** Decide over the whole collected set, then commit once. */
  method Commit(engine: Engine, path: string, kind: Kind, chunks: seq<ContentId>, tally: Tally, disk: Disk)
    returns (r: Result<Report>)
    requires NoDuplicates(chunks)
    modifies engine
    ensures engine.claims == old(engine.claims)
    ensures r == Decision(old(engine.policy), path, kind, Elements(chunks), tally, disk)
    ensures r.Ok? ==>
              && engine.policy == Set(old(engine.policy), Moved(old(engine.policy), kind, Elements(chunks)), Target(kind))
              && engine.revision == old(engine.revision) + (if r.value.changed == 0 then 0 else 1)
    ensures r.Err? ==> engine.policy == old(engine.policy) && engine.revision == old(engine.revision)
  {
    if disk == Unreadable {
      return Err(EngineFailed);
    }
    if kind == Evict {
      var pinned := CountPinned(engine.policy, chunks);
      if pinned > 0 {
        return Err(PinnedPresent(path, pinned));
      }
    }
    r := Move(engine, kind, chunks, tally, disk);
  }

  method Gather(path: string, root: Node) returns (r: Result<(seq<ContentId>, Tally)>)
    ensures r.Ok? <==> Walkable(root, 0)
    ensures r.Err? ==> StopsOn(Visits(Item(path, root, 0)), r.error)
    ensures r.Ok? ==> NoDuplicates(r.value.0) && Elements(r.value.0) == Chunks(root, 0) && r.value.1 == Count(root)
  {
    CollectIsExact(path, root);
    CollectStopsFirst(EMPTY, Visits(Item(path, root, 0)));
    r := CollectSubtree(path, Some(root));
  }

  /** pin_subtree, unpin_subtree and evict_subtree. */
  method Operate(engine: Engine, path: string, op: Op) returns (r: Result<Report>)
    modifies engine
    ensures engine.claims == old(engine.claims)
    ensures !Walkable(op.root, 0) ==> r.Err? && StopsOn(Visits(Item(path, op.root, 0)), r.error)
    ensures Walkable(op.root, 0) ==>
              r == Decision(old(engine.policy), path, op.kind, Chunks(op.root, 0), Count(op.root), op.disk)
    ensures r.Ok? ==>
              && engine.policy == Applied(old(engine.policy), op)
              && engine.revision == old(engine.revision) + (if r.value.changed == 0 then 0 else 1)
    ensures r.Err? ==> engine.policy == old(engine.policy) && engine.revision == old(engine.revision)
  {
    var collected := Gather(path, op.root);
    if collected.Err? {
      return Err(collected.error);
    }
    r := Commit(engine, path, op.kind, collected.value.0, collected.value.1, op.disk);
  }

  // ---- the algebra of the operations

  /** The operation reaches the identity: a walkable subtree holds it and the log is healthy. */
  predicate Touches(op: Op, c: ContentId) {
    Walkable(op.root, 0) && op.disk == Healthy && c in Chunks(op.root, 0)
  }

  /** What an operation leaves for one identity. */
  lemma AppliedAt(policy: Policy, op: Op, c: ContentId)
    ensures PolicyOf(Applied(policy, op), c) ==
            if Touches(op, c)
               && !Refused(policy, op.kind, Chunks(op.root, 0)) && Moves(policy, op.kind, c)
            then Target(op.kind) else PolicyOf(policy, c)
  {
  }

  /** A pin leaves every chunk of a walkable subtree pinned, and pinning again commits nothing. */
  lemma PinSettles(policy: Policy, root: Node, path: string, disk: Disk)
    requires Walkable(root, 0) && disk != Unreadable
    ensures var after := Applied(policy, Op(Pin, root, Healthy));
            && (forall c | c in Chunks(root, 0) :: PolicyOf(after, c) == Pinned)
            && Decision(after, path, Pin, Chunks(root, 0), Count(root), disk)
               == Ok(Report(Count(root), 0, |Chunks(root, 0)|))
  {
    var chunks := Chunks(root, 0);
    var after := Applied(policy, Op(Pin, root, Healthy));
    forall c | c in chunks ensures PolicyOf(after, c) == Pinned { AppliedAt(policy, Op(Pin, root, Healthy), c); }
    assert Moved(after, Pin, chunks) == {};
    assert chunks - {} == chunks;
  }

  /** An unpin clears the way: the evict that follows succeeds and leaves every chunk remote. */
  lemma UnpinThenEvict(policy: Policy, root: Node, path: string)
    requires Walkable(root, 0)
    ensures var unpinned := Applied(policy, Op(Unpin, root, Healthy));
            var evicted := Applied(unpinned, Op(Evict, root, Healthy));
            && Decision(unpinned, path, Evict, Chunks(root, 0), Count(root), Healthy).Ok?
            && (forall c | c in Chunks(root, 0) :: PolicyOf(evicted, c) == RemoteOnly)
  {
    var chunks := Chunks(root, 0);
    var unpinned := Applied(policy, Op(Unpin, root, Healthy));
    forall c | c in chunks ensures PolicyOf(unpinned, c) != Pinned { AppliedAt(policy, Op(Unpin, root, Healthy), c); }
    assert PinnedIn(unpinned, chunks) == {};
    forall c | c in chunks ensures PolicyOf(Applied(unpinned, Op(Evict, root, Healthy)), c) == RemoteOnly {
      AppliedAt(unpinned, Op(Evict, root, Healthy), c);
    }
  }

  lemma {:induction false} FileChunksHold(files: seq<Item>, k: nat, c: ContentId)
    requires k < |files| && files[k].node.File? && c in files[k].node.chunks
    ensures c in FileChunks(files)
  {
    if k < |files| - 1 {
      FileChunksHold(files[..|files| - 1], k, c);
    }
  }

  /** Every census row of a pinned subtree is promised, whatever the role. */
  lemma PinnedRowsArePromised(policy: Policy, claims: set<ContentId>, role: Role, v: Survey, n: Census)
    requires Reports(policy, claims, role, v, n)
    requires forall c | c in FileChunks(v.files) :: PolicyOf(policy, c) == Pinned
    ensures forall k | 0 <= k < |n.rows| :: n.rows[k].promised
  {
    forall k | 0 <= k < |n.rows| ensures n.rows[k].promised {
      assert RowFor(policy, claims, role, v.files[k], n.rows[k]);
      forall c | c in n.rows[k].chunks ensures Promised(policy, role, c) { FileChunksHold(v.files, k, c); }
    }
  }

  lemma PinIsReported(path: string, policy: Policy, claims: set<ContentId>, role: Role, root: Node, n: Census, walked: seq<Row>)
    requires Walkable(root, 0)
    requires Surveyed(UNSEEN, Visits(Item(path, root, 0))).Ok?
    requires Reports(Applied(policy, Op(Pin, root, Healthy)), claims, role, Surveyed(UNSEEN, Visits(Item(path, root, 0))).value,
                     n.(rows := walked))
    requires ByPath(walked, n.rows)
    ensures n.conflicts == [] && forall row | row in n.rows :: row.promised
  {
    var v := Surveyed(UNSEEN, Visits(Item(path, root, 0))).value;
    CensusMatchesCollect(path, root);
    PinSettles(policy, root, path, Healthy);
    PinnedRowsArePromised(Applied(policy, Op(Pin, root, Healthy)), claims, role, v, n.(rows := walked));
    forall row | row in n.rows ensures row.promised {
      SortKeepsRows(walked, n.rows, row);
    }
  }

  // ---- runs

  /** The last pin or unpin to reach an identity decides; evicts and failed commits never do. */
  predicate LastWord(ops: seq<Op>, c: ContentId, initially: bool) {
    if ops == [] then initially
    else
      var last := ops[|ops| - 1];
      if last.kind != Evict && Touches(last, c) then last.kind == Pin
      else LastWord(ops[..|ops| - 1], c, initially)
  }

  /** Over every run of pins, unpins and evicts on overlapping subtrees. */
  lemma {:induction false} PinsOutlastEvicts(policy: Policy, ops: seq<Op>, c: ContentId)
    ensures PolicyOf(Run(policy, ops), c) == Pinned <==> LastWord(ops, c, PolicyOf(policy, c) == Pinned)
  {
    if ops != [] {
      var before, last := ops[..|ops| - 1], ops[|ops| - 1];
      PinsOutlastEvicts(policy, before, c);
      LastStep(Run(policy, before), last, c);
    }
  }

  /** An identity under none of a run's subtrees never moves. */
  lemma {:induction false} OutsideIsUntouched(policy: Policy, ops: seq<Op>, c: ContentId)
    requires forall i :: 0 <= i < |ops| ==> c !in Chunks(ops[i].root, 0)
    ensures PolicyOf(Run(policy, ops), c) == PolicyOf(policy, c)
  {
    if ops != [] {
      OutsideIsUntouched(policy, ops[..|ops| - 1], c);
      AppliedAt(Run(policy, ops[..|ops| - 1]), ops[|ops| - 1], c);
    }
  }

  lemma LastStep(policy: Policy, op: Op, c: ContentId)
    ensures PolicyOf(Applied(policy, op), c) == Pinned <==>
            if op.kind != Evict && Touches(op, c) then op.kind == Pin else PolicyOf(policy, c) == Pinned
  {
    AppliedAt(policy, op, c);
    if op.kind == Evict && Touches(op, c) && PolicyOf(policy, c) == Pinned {
      assert c in PinnedIn(policy, Chunks(op.root, 0));
    }
  }
}
