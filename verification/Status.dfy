/** Sync status as a member sees it and as a vault does: peer handles, pending counts,
    the durable backlog and convergence. */
module Status {
  import opened Identity

  /** One obligation: what is owed, and to whom. */
  datatype Pair = Pair(item: Id32, recipient: DeviceId)

  /** One obligation class; `queued` in iteration order. */
  datatype Outbox = Outbox(queued: seq<Pair>, delivered: set<Pair>, reconciled: set<Pair>)

  /** What reconciliation still misses, counted per artifact. */
  datatype Gaps = Gaps(snapshots: nat, bodies: nat, manifests: nat, objects: nat)

  datatype RuntimeState = RuntimeState(
    announcements: Outbox, transitions: Outbox, capabilities: Outbox, carries: nat, gaps: Gaps)

  datatype Classification = Eligible | CanonicalHistory | Superseded | Stranded | Voided | Pending | Rejected

  datatype HeadClasses = HeadClasses(
    eligible: nat, canonicalHistory: nat, superseded: nat, stranded: nat, voided: nat, pending: nat, rejected: nat)

  datatype PeerHandle = PeerHandle(handle: nat, peer: DeviceId, pending: nat)

  datatype QueueDepth = QueueDepth(outbox: nat, carries: nat, fetch: nat) {
    function Total(): nat {
      outbox + fetch
    }

    predicate IsEmpty() {
      Total() == 0
    }
  }

  datatype SyncStatus = SyncStatus(
    obligations: seq<Pair>, classes: HeadClasses, peers: seq<PeerHandle>, queue: QueueDepth, converged: bool)

  datatype VaultStatus = VaultStatus(queue: QueueDepth, backlogEmpty: bool)

  // ---- obligations still owed

  predicate Owed(o: Outbox, p: Pair) {
    p !in o.delivered && p !in o.reconciled
  }

  function OwedOf(o: Outbox, pairs: seq<Pair>): seq<Pair> {
    if pairs == [] then []
    else
      var front, last := OwedOf(o, pairs[..|pairs| - 1]), pairs[|pairs| - 1];
      if Owed(o, last) then front + [last] else front
  }

  /** The itemized list. */
  method PendingPairs(o: Outbox) returns (r: seq<Pair>)
    ensures r == OwedOf(o, o.queued)
  {
    r := [];
    for i := 0 to |o.queued|
      invariant r == OwedOf(o, o.queued[..i])
    {
      assert o.queued[..i + 1][..i] == o.queued[..i];
      if Owed(o, o.queued[i]) {
        r := r + [o.queued[i]];
      }
    }
    assert o.queued[..|o.queued|] == o.queued;
  }

  /** The same difference counted in place, without building the pairs. */
  method PendingCount(o: Outbox) returns (n: nat)
    ensures n == |OwedOf(o, o.queued)|
  {
    n := 0;
    for i := 0 to |o.queued|
      invariant n == |OwedOf(o, o.queued[..i])|
    {
      assert o.queued[..i + 1][..i] == o.queued[..i];
      if Owed(o, o.queued[i]) {
        n := n + 1;
      }
    }
    assert o.queued[..|o.queued|] == o.queued;
  }

  function Obligations(s: RuntimeState): seq<Pair> {
    OwedOf(s.announcements, s.announcements.queued)
    + OwedOf(s.transitions, s.transitions.queued)
    + OwedOf(s.capabilities, s.capabilities.queued)
  }

  function Recipients(pairs: seq<Pair>): seq<DeviceId> {
    seq(|pairs|, i requires 0 <= i < |pairs| => pairs[i].recipient)
  }

  // ---- counting

  function Count<T(==)>(s: seq<T>, x: T): nat {
    if s == [] then 0 else Count(s[..|s| - 1], x) + if s[|s| - 1] == x then 1 else 0
  }

  method CountOf<T(==)>(s: seq<T>, x: T) returns (n: nat)
    ensures n == Count(s, x)
  {
    n := 0;
    for i := 0 to |s|
      invariant n == Count(s[..i], x)
    {
      assert s[..i + 1][..i] == s[..i];
      if s[i] == x {
        n := n + 1;
      }
    }
    assert s[..|s|] == s;
  }

  /** The counts of every listed value, added up. */
  function Counts<T(==)>(values: seq<T>, s: seq<T>): nat {
    if values == [] then 0 else Counts(values[..|values| - 1], s) + Count(s, values[|values| - 1])
  }

  lemma {:induction false} CountsSnoc<T>(values: seq<T>, s: seq<T>, x: T)
    ensures Counts(values, s + [x]) == Counts(values, s) + Count(values, x)
  {
    assert (s + [x])[..|s|] == s;
    if values != [] {
      CountsSnoc(values[..|values| - 1], s, x);
    }
  }

  lemma {:induction false} CountDistinct<T>(values: seq<T>, x: T)
    requires NoDuplicates(values)
    ensures Count(values, x) == if x in values then 1 else 0
  {
    if values != [] {
      var front := values[..|values| - 1];
      CountDistinct(front, x);
      assert values == front + [values[|values| - 1]];
    }
  }

  lemma {:induction false} CountsNothing<T>(values: seq<T>)
    ensures Counts(values, []) == 0
  {
    if values != [] {
      CountsNothing(values[..|values| - 1]);
    }
  }

  /** Counting a list by distinct values that cover it counts every entry once. */
  lemma {:induction false} CountsCover<T>(values: seq<T>, s: seq<T>)
    requires NoDuplicates(values) && forall x :: x in s ==> x in values
    ensures Counts(values, s) == |s|
  {
    if s == [] {
      CountsNothing(values);
    } else {
      var front, x := s[..|s| - 1], s[|s| - 1];
      assert s == front + [x];
      CountsCover(values, front);
      CountsSnoc(values, front, x);
      CountDistinct(values, x);
    }
  }

  // ---- peers

  predicate Named(peers: seq<PeerHandle>, x: DeviceId) {
    exists i :: 0 <= i < |peers| && peers[i].peer == x
  }

  /** The peer lines: strict byte order, numbered from 1, one for each identity the status
      carries, with what is pending for it. */
  ghost predicate PeerTable(peers: seq<PeerHandle>, recipients: seq<DeviceId>, authors: seq<DeviceId>) {
    && (forall i, j :: 0 <= i < j < |peers| ==> peers[i].peer < peers[j].peer)
    && (forall i :: 0 <= i < |peers| ==> peers[i].handle == i + 1 && peers[i].pending == Count(recipients, peers[i].peer))
    && (forall x :: Named(peers, x) <==> x in recipients || x in authors)
  }

  method Carried(recipients: seq<DeviceId>, authors: seq<DeviceId>) returns (known: set<DeviceId>)
    ensures known == Elements(recipients) + Elements(authors)
  {
    known := {};
    for i := 0 to |recipients|
      invariant known == Elements(recipients[..i])
    {
      PrefixElements(recipients, i);
      known := known + {recipients[i]};
    }
    assert recipients[..|recipients|] == recipients;
    for i := 0 to |authors|
      invariant known == Elements(recipients) + Elements(authors[..i])
    {
      PrefixElements(authors, i);
      known := known + {authors[i]};
    }
    assert authors[..|authors|] == authors;
  }

  /** One line per identity, in order. */
  method NumberPeers(ids: seq<DeviceId>, recipients: seq<DeviceId>) returns (peers: seq<PeerHandle>)
    ensures |peers| == |ids|
    ensures forall i :: 0 <= i < |ids| ==> peers[i] == PeerHandle(i + 1, ids[i], Count(recipients, ids[i]))
  {
    peers := [];
    for i := 0 to |ids|
      invariant |peers| == i
      invariant forall k :: 0 <= k < i ==> peers[k] == PeerHandle(k + 1, ids[k], Count(recipients, ids[k]))
    {
      var pending := CountOf(recipients, ids[i]);
      peers := peers + [PeerHandle(i + 1, ids[i], pending)];
    }
  }

  lemma TableOf(ids: seq<DeviceId>, recipients: seq<DeviceId>, authors: seq<DeviceId>, peers: seq<PeerHandle>)
    requires StrictlyIncreasing(ids) && Elements(ids) == Elements(recipients) + Elements(authors)
    requires |peers| == |ids|
    requires forall i :: 0 <= i < |ids| ==> peers[i] == PeerHandle(i + 1, ids[i], Count(recipients, ids[i]))
    ensures PeerTable(peers, recipients, authors)
  {
    forall x ensures Named(peers, x) <==> x in recipients || x in authors {
      assert x in ids <==> x in Elements(ids);
      assert x in Elements(recipients) + Elements(authors) <==> x in recipients || x in authors;
      if x in ids {
        var i :| 0 <= i < |ids| && ids[i] == x;
        assert peers[i].peer == x;
      }
    }
  }

  method BuildPeers(recipients: seq<DeviceId>, authors: seq<DeviceId>) returns (peers: seq<PeerHandle>)
    ensures PeerTable(peers, recipients, authors)
  {
    var known := Carried(recipients, authors);
    var ids := Enumerate(known);
    peers := NumberPeers(ids, recipients);
    TableOf(ids, recipients, authors, peers);
  }

  /** The first handle naming `peer`, or 0. */
  function PeerHandleOf(peers: seq<PeerHandle>, peer: DeviceId): nat {
    if peers == [] then 0
    else if peers[0].peer == peer then peers[0].handle
    else PeerHandleOf(peers[1..], peer)
  }

  function PendingTotal(peers: seq<PeerHandle>): nat {
    if peers == [] then 0 else PendingTotal(peers[..|peers| - 1]) + peers[|peers| - 1].pending
  }

  function Ids(peers: seq<PeerHandle>): (r: seq<DeviceId>)
    ensures |r| == |peers| && forall i :: 0 <= i < |r| ==> r[i] == peers[i].peer
  {
    if peers == [] then [] else Ids(peers[..|peers| - 1]) + [peers[|peers| - 1].peer]
  }

  lemma {:induction false} PendingIsCounts(peers: seq<PeerHandle>, recipients: seq<DeviceId>)
    requires forall i :: 0 <= i < |peers| ==> peers[i].pending == Count(recipients, peers[i].peer)
    ensures PendingTotal(peers) == Counts(Ids(peers), recipients)
  {
    if peers != [] {
      var front := peers[..|peers| - 1];
      PendingIsCounts(front, recipients);
      assert Ids(peers)[..|peers| - 1] == Ids(front);
    }
  }

  lemma {:induction false} HandleFinds(peers: seq<PeerHandle>, peer: DeviceId)
    requires forall i :: 0 <= i < |peers| ==> peers[i].handle > 0
    ensures PeerHandleOf(peers, peer) == 0 ==> forall i :: 0 <= i < |peers| ==> peers[i].peer != peer
    ensures PeerHandleOf(peers, peer) != 0 ==>
              exists i :: 0 <= i < |peers| && peers[i].peer == peer && peers[i].handle == PeerHandleOf(peers, peer)
  {
    if peers != [] && peers[0].peer != peer {
      HandleFinds(peers[1..], peer);
      if PeerHandleOf(peers, peer) != 0 {
        var i :| 0 <= i < |peers[1..]| && peers[1..][i].peer == peer && peers[1..][i].handle == PeerHandleOf(peers, peer);
        assert peers[i + 1] == peers[1..][i];
      } else {
        forall i | 0 <= i < |peers| ensures peers[i].peer != peer {
          assert i > 0 ==> peers[i] == peers[1..][i - 1];
        }
      }
    }
  }

  /** Handles: an identity the status carries has one, no other does, and the handle leads
      back to it. */
  lemma HandlesAreExact(peers: seq<PeerHandle>, recipients: seq<DeviceId>, authors: seq<DeviceId>, peer: DeviceId)
    requires PeerTable(peers, recipients, authors)
    ensures PeerHandleOf(peers, peer) != 0 <==> peer in recipients || peer in authors
    ensures PeerHandleOf(peers, peer) != 0 ==>
              PeerHandleOf(peers, peer) <= |peers| && peers[PeerHandleOf(peers, peer) - 1].peer == peer
  {
    HandleFinds(peers, peer);
    assert Named(peers, peer) <==> peer in recipients || peer in authors;
  }

  /** The pending counts of the peer lines add up to every obligation listed. */
  lemma PeersAccountForAll(peers: seq<PeerHandle>, recipients: seq<DeviceId>, authors: seq<DeviceId>)
    requires PeerTable(peers, recipients, authors)
    ensures PendingTotal(peers) == |recipients|
  {
    PendingIsCounts(peers, recipients);
    forall x | x in recipients ensures x in Ids(peers) {
      assert Named(peers, x);
      var i :| 0 <= i < |peers| && peers[i].peer == x;
      assert Ids(peers)[i] == x;
    }
    CountsCover(Ids(peers), recipients);
  }

  // ---- the two projections

  function Fetch(g: Gaps): nat {
    g.snapshots + g.bodies + g.manifests + g.objects
  }

  function Depth(owed: nat, carries: nat, g: Gaps): QueueDepth {
    QueueDepth(owed + carries, carries, Fetch(g))
  }

  function Backlog(s: RuntimeState): QueueDepth {
    Depth(|Obligations(s)|, s.carries, s.gaps)
  }

  function Classes(heads: seq<Classification>): HeadClasses {
    HeadClasses(
      Count(heads, Eligible), Count(heads, CanonicalHistory), Count(heads, Superseded), Count(heads, Stranded),
      Count(heads, Voided), Count(heads, Pending), Count(heads, Rejected))
  }

  method ClassifyHeads(heads: seq<Classification>) returns (classes: HeadClasses)
    ensures classes == Classes(heads)
  {
    classes := HeadClasses(0, 0, 0, 0, 0, 0, 0);
    for i := 0 to |heads|
      invariant classes == Classes(heads[..i])
    {
      assert heads[..i + 1][..i] == heads[..i];
      match heads[i] {
        case Eligible => classes := classes.(eligible := classes.eligible + 1);
        case CanonicalHistory => classes := classes.(canonicalHistory := classes.canonicalHistory + 1);
        case Superseded => classes := classes.(superseded := classes.superseded + 1);
        case Stranded => classes := classes.(stranded := classes.stranded + 1);
        case Voided => classes := classes.(voided := classes.voided + 1);
        case Pending => classes := classes.(pending := classes.pending + 1);
        case Rejected => classes := classes.(rejected := classes.rejected + 1);
      }
    }
    assert heads[..|heads|] == heads;
  }

  predicate NothingLeft(s: RuntimeState) {
    Obligations(s) == [] && s.carries == 0 && s.gaps == Gaps(0, 0, 0, 0)
  }

  lemma NoGaps(g: Gaps)
    ensures Fetch(g) == 0 <==> g == Gaps(0, 0, 0, 0)
  {
  }

  lemma EmptyQueue(owed: nat, carries: nat, g: Gaps)
    ensures Depth(owed, carries, g).IsEmpty() <==>
            owed == 0 && carries == 0 && g == Gaps(0, 0, 0, 0)
  {
    NoGaps(g);
  }

  lemma Lengths<T>(a: seq<T>, b: seq<T>, c: seq<T>)
    ensures |a + b + c| == |a| + |b| + |c|
  {
  }

  method Itemize(s: RuntimeState) returns (r: seq<Pair>)
    ensures r == Obligations(s)
  {
    var announcements := PendingPairs(s.announcements);
    var transitions := PendingPairs(s.transitions);
    var capabilities := PendingPairs(s.capabilities);
    r := announcements + transitions + capabilities;
  }

  /** The backlog both projections report, from the number of obligations alone. */
  method MeasureBacklog(s: RuntimeState, owed: nat) returns (queue: QueueDepth)
    requires owed == |Obligations(s)|
    ensures queue == Backlog(s)
    ensures queue.IsEmpty() <==> NothingLeft(s)
  {
    queue := Depth(owed, s.carries, s.gaps);
    EmptyQueue(owed, s.carries, s.gaps);
  }

  method HeadsSettled(heads: seq<Classification>) returns (classes: HeadClasses, settled: bool)
    ensures classes == Classes(heads)
    ensures settled <==> Pending !in heads && Rejected !in heads
  {
    classes := ClassifyHeads(heads);
    NoneCounted(heads, Pending);
    NoneCounted(heads, Rejected);
    settled := classes.pending == 0 && classes.rejected == 0;
  }

  /** The member's projection. */
  method Observe(s: RuntimeState, authors: seq<DeviceId>, heads: seq<Classification>) returns (r: SyncStatus)
    ensures r.obligations == Obligations(s)
    ensures PeerTable(r.peers, Recipients(r.obligations), authors)
    ensures r.queue == Backlog(s) && r.classes == Classes(heads)
    ensures r.converged <==> NothingLeft(s) && Pending !in heads && Rejected !in heads
  {
    var obligations := Itemize(s);
    var classes, settled := HeadsSettled(heads);
    var peers := BuildPeers(Recipients(obligations), authors);
    var queue := MeasureBacklog(s, |obligations|);
    r := SyncStatus(obligations, classes, peers, queue, queue.IsEmpty() && settled);
  }

  lemma {:induction false} NoneCounted<T>(s: seq<T>, x: T)
    ensures Count(s, x) == 0 <==> x !in s
  {
    if s != [] {
      NoneCounted(s[..|s| - 1], x);
      assert s == s[..|s| - 1] + [s[|s| - 1]];
    }
  }

  method CountObligations(s: RuntimeState) returns (n: nat)
    ensures n == |Obligations(s)|
  {
    var announcements := PendingCount(s.announcements);
    var transitions := PendingCount(s.transitions);
    var capabilities := PendingCount(s.capabilities);
    Lengths(OwedOf(s.announcements, s.announcements.queued), OwedOf(s.transitions, s.transitions.queued),
            OwedOf(s.capabilities, s.capabilities.queued));
    n := announcements + transitions + capabilities;
  }

  /** The vault's projection reads counts only, and agrees with the member's. */
  method ObserveVault(s: RuntimeState) returns (r: VaultStatus)
    ensures r.queue == Backlog(s)
    ensures r.backlogEmpty <==> NothingLeft(s)
  {
    var owed := CountObligations(s);
    var queue := MeasureBacklog(s, owed);
    r := VaultStatus(queue, queue.IsEmpty());
  }

  /** Every head is in exactly one class. */
  lemma ClassesPartition(heads: seq<Classification>)
    ensures var c := Classes(heads);
            c.eligible + c.canonicalHistory + c.superseded + c.stranded + c.voided + c.pending + c.rejected == |heads|
  {
    if heads != [] {
      var front, last := heads[..|heads| - 1], heads[|heads| - 1];
      ClassesPartition(front);
      match last {
        case Eligible =>
        case CanonicalHistory =>
        case Superseded =>
        case Stranded =>
        case Voided =>
        case Pending =>
        case Rejected =>
      }
    }
  }
}
