/** Out-of-band loss repair: the bounded presence walk and the drain that unclaims
    what the store no longer holds. */
module Scrub {
  import opened Identity
  import opened RepairQueue
  import opened Sweep
  import SyncEngine

  /** What the store answers to a presence query. */
  datatype Stat = Present | Absent | Unreadable

  function Min(a: nat, b: nat): nat {
    if a < b then a else b
  }

  function Last(s: seq<ContentId>, cursor: Option<ContentId>): Option<ContentId> {
    if s == [] then cursor else Some(s[|s| - 1])
  }

  /** The diagnostic for one miss; an unnamed claim falls back to the chunk domain. */
  function Observe(kinds: ContentId -> Option<ObjectKind>, c: ContentId): Report {
    match kinds(c)
    case Some(kind) => Report(c, kind)
    case None => Report(c, Chunk)
  }

  function Losses(kinds: ContentId -> Option<ObjectKind>, stat: ContentId -> Stat, probed: seq<ContentId>): seq<Report> {
    if probed == [] then []
    else
      var front := Losses(kinds, stat, probed[..|probed| - 1]);
      var c := probed[|probed| - 1];
      if stat(c) == Absent then front + [Observe(kinds, c)] else front
  }

  function Unreadables(stat: ContentId -> Stat, probed: seq<ContentId>): nat {
    if probed == [] then 0
    else
      Unreadables(stat, probed[..|probed| - 1]) + if stat(probed[|probed| - 1]) == Unreadable then 1 else 0
  }

  /** The claims one walk stats. */
  ghost function Probed(claims: set<ContentId>, cursor: Option<ContentId>, budget: nat): seq<ContentId> {
    var order := Order(claims, cursor);
    order[..Min(budget, |order|)]
  }

  /** The stat loop over one chained rotation. */
  method ProbeChain(chained: seq<ContentId>, kinds: ContentId -> Option<ObjectKind>, stat: ContentId -> Stat,
                    cursor: Option<ContentId>, maxProbes: nat)
    returns (probed: seq<ContentId>, observations: seq<Report>, failures: nat, cursor': Option<ContentId>)
    ensures probed == chained[..Min(maxProbes, |chained|)]
    ensures observations == Losses(kinds, stat, probed)
    ensures failures == Unreadables(stat, probed)
    ensures cursor' == Last(probed, cursor)
  {
    probed, observations, failures, cursor' := [], [], 0, cursor;
    var probes := 0;
    while probes < |chained|
      invariant probes <= |chained| && probes <= maxProbes
      invariant probed == chained[..probes]
      invariant observations == Losses(kinds, stat, probed)
      invariant failures == Unreadables(stat, probed)
      invariant cursor' == Last(probed, cursor)
    {
      if probes >= maxProbes {
        // The cursor stays behind this claim, so the next walk stats it.
        break;
      }
      var claim := chained[probes];
      match stat(claim) {
        case Present =>
        case Absent => observations := observations + [Observe(kinds, claim)];
        case Unreadable => failures := failures + 1;
      }
      assert (probed + [claim])[..|probed|] == probed;
      probed := probed + [claim];
      cursor' := Some(claim);
      probes := probes + 1;
    }
  }

  /** Re-stat claims past the cursor, wrapping once, at most `maxProbes` of them. */
  method ProbePresence(claims: set<ContentId>, kinds: ContentId -> Option<ObjectKind>, stat: ContentId -> Stat,
                       cursor: Option<ContentId>, maxProbes: nat)
    returns (probed: seq<ContentId>, observations: seq<Report>, failures: nat, cursor': Option<ContentId>)
    ensures probed == Probed(claims, cursor, maxProbes)
    ensures observations == Losses(kinds, stat, probed)
    ensures failures == Unreadables(stat, probed)
    ensures cursor' == Last(probed, cursor)
  {
    OrderIsRotation(claims, cursor);
    var sorted := Enumerate(claims);
    if sorted == [] || maxProbes == 0 {
      return [], [], 0, cursor;
    }
    var start := PartitionPoint(sorted, cursor);
    probed, observations, failures, cursor' :=
      ProbeChain(sorted[start..] + sorted[..start], kinds, stat, cursor, maxProbes);
  }

  datatype ScrubReport = ScrubReport(observed: nat, claimsCleared: nat, bytesSubtracted: nat, failures: nat)

  /** Identities of a batch the store does not hold at the re-check. */
  function Missing(stat: ContentId -> Stat, batch: seq<Report>): set<ContentId> {
    set r | r in batch && stat(r.content) == Absent :: r.content
  }

  lemma MissingConcat(stat: ContentId -> Stat, a: seq<Report>, b: seq<Report>)
    ensures Missing(stat, a + b) == Missing(stat, a) + Missing(stat, b)
  {
    forall r | r in a + b ensures r in a || r in b { }
    forall r | r in a || r in b ensures r in a + b { }
  }

  function Unconfirmed(stat: ContentId -> Stat, batch: seq<Report>): nat {
    if batch == [] then 0
    else
      Unconfirmed(stat, batch[..|batch| - 1]) + if stat(batch[|batch| - 1].content) == Unreadable then 1 else 0
  }

  /** The re-check phase: healed bytes keep their claim, unreadable ones are counted. */
  method Recheck(stat: ContentId -> Stat, batch: seq<Report>) returns (missing: seq<ContentId>, failures: nat)
    ensures Elements(missing) == Missing(stat, batch)
    ensures failures == Unconfirmed(stat, batch)
  {
    missing, failures := [], 0;
    for i := 0 to |batch|
      invariant Elements(missing) == Missing(stat, batch[..i])
      invariant failures == Unconfirmed(stat, batch[..i])
    {
      var content := batch[i].content;
      assert batch[..i + 1] == batch[..i] + [batch[i]];
      assert batch[..i + 1][..i] == batch[..i];
      MissingConcat(stat, batch[..i], [batch[i]]);
      ElementsConcat(missing, [content]);
      match stat(content) {
        case Present =>
        case Absent => missing := missing + [content];
        case Unreadable => failures := failures + 1;
      }
    }
    assert batch[..|batch|] == batch;
  }

  /** What the drain's one commit and its bookkeeping leave, over the identities found missing. */
  method ClearMissing(engine: SyncEngine.Engine, retained: SyncEngine.Accountant?, missing: seq<ContentId>, disk: SyncEngine.Disk)
    returns (r: SyncEngine.Outcome<(nat, nat)>)
    modifies engine, retained
    ensures engine.policy == old(engine.policy)
    ensures var cleared := Elements(missing) * old(engine.claims);
            if disk.Fails(cleared != {}) then
              && r == SyncEngine.Failed && engine.claims == old(engine.claims) && engine.revision == old(engine.revision)
              && (retained != null ==> retained.count == old(retained.count))
            else
              && r == SyncEngine.Done((|cleared|, SyncEngine.Weight(engine.sizes, cleared)))
              && engine.claims == old(engine.claims) - cleared
              && engine.revision == old(engine.revision) + (if cleared == {} then 0 else 1)
              && (retained != null ==> retained.count == SyncEngine.TakenOff(old(retained.count), r.value.1))
  {
    r := engine.RecordMissingObjects(missing, disk);
    if r.Done? && r.value.1 > 0 && retained != null {
      retained.Subtract(r.value.1);
    }
  }

  /** Emit, re-check, clear: at most `cap` reports. A failed commit drops the popped
      reports with every claim still standing; with nothing missing the log is not read. */
  method DrainScrub(queue: Queue, engine: SyncEngine.Engine, retained: SyncEngine.Accountant?,
                    stat: ContentId -> Stat, cap: nat, disk: SyncEngine.Disk)
    returns (r: SyncEngine.Outcome<ScrubReport>, emitted: seq<Report>)
    modifies queue, engine, retained
    ensures emitted == Popped(old(queue.state), cap)
    ensures queue.state == old(queue.state) - Elements(emitted)
    ensures engine.policy == old(engine.policy)
    ensures var missing := Missing(stat, emitted);
            var cleared := missing * old(engine.claims);
            if missing != {} && disk.Fails(cleared != {}) then
              && r == SyncEngine.Failed && engine.claims == old(engine.claims) && engine.revision == old(engine.revision)
              && (retained != null ==> retained.count == old(retained.count))
            else
              && r == SyncEngine.Done(ScrubReport(|emitted|, |cleared|, SyncEngine.Weight(engine.sizes, cleared),
                                                  Unconfirmed(stat, emitted)))
              && engine.claims == old(engine.claims) - cleared
              && engine.revision == old(engine.revision) + (if cleared == {} then 0 else 1)
              && (retained != null ==> retained.count == SyncEngine.TakenOff(old(retained.count), r.value.bytesSubtracted))
  {
    emitted := queue.TakeBatch(cap);
    NothingCleared(engine.sizes, stat, emitted, engine.claims);
    if emitted == [] {
      return SyncEngine.Done(ScrubReport(0, 0, 0, 0)), emitted;
    }
    var missing, failures := Recheck(stat, emitted);
    if missing == [] {
      return SyncEngine.Done(ScrubReport(|emitted|, 0, 0, failures)), emitted;
    }
    assert missing[0] in Elements(missing);
    var committed := ClearMissing(engine, retained, missing, disk);
    if committed == SyncEngine.Failed {
      return SyncEngine.Failed, emitted;
    }
    r := SyncEngine.Done(ScrubReport(|emitted|, committed.value.0, committed.value.1, failures));
  }

  lemma NothingCleared(sizes: map<ContentId, nat>, stat: ContentId -> Stat, emitted: seq<Report>, claims: set<ContentId>)
    ensures SyncEngine.Weight(sizes, {}) == 0
    ensures emitted == [] ==> Missing(stat, emitted) == {} && Unconfirmed(stat, emitted) == 0
    ensures {} * claims == {} && claims - {} == claims
  {
  }

  /** One pass's scrub half as a function of the runtime state. */
  datatype State = State(claims: set<ContentId>, queue: set<Report>, cursor: Option<ContentId>)

  /** A pass that walks a snapshot of the claims, which may have moved on since, and whose
      drain looks again: `stat` answers the walk and `again` the re-check. */
  ghost function PassOver(s: State, snapshot: set<ContentId>, kinds: ContentId -> Option<ObjectKind>,
                          stat: ContentId -> Stat, again: ContentId -> Stat, budget: nat): State
  {
    var probed := Probed(snapshot, s.cursor, budget);
    var queue := s.queue + Elements(Losses(kinds, stat, probed));
    var batch := Popped(queue, budget);
    State(s.claims - Missing(again, batch), queue - Elements(batch), Last(probed, s.cursor))
  }

  /** A pass over the claims as they stand, with nothing healed or lost in between. */
  ghost function Pass(s: State, kinds: ContentId -> Option<ObjectKind>, stat: ContentId -> Stat, budget: nat): State {
    PassOver(s, s.claims, kinds, stat, stat, budget)
  }

  method SubmitAll(queue: Queue, losses: seq<Report>)
    modifies queue
    ensures queue.state == old(queue.state) + Elements(losses)
  {
    for i := 0 to |losses|
      invariant queue.state == old(queue.state) + Elements(losses[..i])
    {
      assert losses[..i + 1] == losses[..i] + [losses[i]];
      queue.Submit(losses[i]);
    }
    assert losses[..|losses|] == losses;
  }

  lemma OnlyMissingGo(claims: set<ContentId>, again: ContentId -> Stat, emitted: seq<Report>)
    ensures claims - (Missing(again, emitted) * claims) == claims - Missing(again, emitted)
    ensures forall c :: c in claims && again(c) != Absent ==> c in claims - Missing(again, emitted)
  {
  }

  /** The loop's scrub half: walk, submit what was missed, drain under the same budget. A
      failed commit costs the reports it popped, never a claim. */
  method ScrubPass(queue: Queue, engine: SyncEngine.Engine, retained: SyncEngine.Accountant?, snapshot: set<ContentId>,
                   kinds: ContentId -> Option<ObjectKind>, stat: ContentId -> Stat, again: ContentId -> Stat,
                   cursor: Option<ContentId>, budget: nat, disk: SyncEngine.Disk)
    returns (cursor': Option<ContentId>, emitted: seq<Report>, ok: bool)
    modifies queue, engine, retained
    ensures var next := PassOver(State(old(engine.claims), old(queue.state), cursor), snapshot, kinds, stat, again, budget);
            && queue.state == next.queue && cursor' == next.cursor
            && engine.claims == if ok then next.claims else old(engine.claims)
    // It clears nothing exactly when there is something to clear and its commit fails.
    ensures var missing := Missing(again, emitted);
            ok <==> missing == {} || !disk.Fails(missing * old(engine.claims) != {})
    // Bytes that were back at the re-check keep their claim.
    ensures forall c :: c in old(engine.claims) && again(c) != Absent ==> c in engine.claims
    ensures engine.policy == old(engine.policy)
  {
    var probed, losses, failures;
    probed, losses, failures, cursor' := ProbePresence(snapshot, kinds, stat, cursor, budget);
    SubmitAll(queue, losses);
    var report;
    report, emitted := DrainScrub(queue, engine, retained, again, budget, disk);
    ok := report.Done?;
    OnlyMissingGo(old(engine.claims), again, emitted);
  }
}
