/** What the sync engine offers the runtime: possession claims, residency policy
    and atomic batch commits. A commit may fail, and then changes nothing. */
module SyncEngine {
  import opened Identity

  datatype Materialization = RemoteOnly | Cached | Pinned

  datatype Outcome<+T> = Done(value: T) | Failed

  /** How the durable log fares: a rebuild precedes every decision, a commit follows one
      that changes something. */
  datatype Disk = Healthy | Unreadable | Unwritable {
    predicate Fails(commits: bool) {
      this == Unreadable || (this == Unwritable && commits)
    }
  }

  function Sum(sizes: map<ContentId, nat>, ids: seq<ContentId>): nat {
    if ids == [] then 0
    else (if ids[0] in sizes then sizes[ids[0]] else 0) + Sum(sizes, ids[1..])
  }

  /** Manifest-recorded bytes of a set of identities; unnamed ones weigh nothing. */
  function Weight(sizes: map<ContentId, nat>, ids: set<ContentId>): nat {
    Sum(sizes, Enumerate(ids))
  }

  function PolicyOf(policy: map<ContentId, Materialization>, id: ContentId): Materialization {
    if id in policy then policy[id] else RemoteOnly
  }

  /** The batch that survives the engine's no-op filter. */
  function Transitions(policy: map<ContentId, Materialization>, ids: set<ContentId>, to: Materialization): set<ContentId> {
    set id | id in ids && PolicyOf(policy, id) != to
  }

  class Engine {
    /** Identities the durable log records as locally held. */
    var claims: set<ContentId>
    var policy: map<ContentId, Materialization>
    const sizes: map<ContentId, nat>
    /** Durable commits so far. */
    var revision: nat

    constructor (claims: set<ContentId>, policy: map<ContentId, Materialization>, sizes: map<ContentId, nat>)
      ensures this.claims == claims && this.policy == policy && this.sizes == sizes && revision == 0
    {
      this.claims, this.policy, this.sizes, revision := claims, policy, sizes, 0;
    }

    /** Clear claims in one commit; already-absent claims commit nothing. */
    method RecordObjectsRemoved(contents: seq<ContentId>, disk: Disk) returns (r: Outcome<nat>)
      modifies this
      ensures policy == old(policy)
      ensures var held := Elements(contents) * old(claims);
              if disk.Fails(held != {}) then r == Failed && claims == old(claims) && revision == old(revision)
              else
                && r == Done(|held|) && claims == old(claims) - held
                && revision == old(revision) + (if held == {} then 0 else 1)
    {
      if disk == Unreadable {
        return Failed;
      }
      var held := Elements(contents) * claims;
      if held == {} {
        return Done(0);
      }
      if disk == Unwritable {
        return Failed;
      }
      claims, revision := claims - held, revision + 1;
      r := Done(|held|);
    }

    /** The scrub's writer: the same commit, plus the bytes to take off the accountant. */
    method RecordMissingObjects(contents: seq<ContentId>, disk: Disk) returns (r: Outcome<(nat, nat)>)
      modifies this
      ensures policy == old(policy)
      ensures var held := Elements(contents) * old(claims);
              if disk.Fails(held != {}) then r == Failed && claims == old(claims) && revision == old(revision)
              else
                && r == Done((|held|, Weight(sizes, held))) && claims == old(claims) - held
                && revision == old(revision) + (if held == {} then 0 else 1)
    {
      var held := Elements(contents) * claims;
      var removed := RecordObjectsRemoved(contents, disk);
      if removed == Failed {
        return Failed;
      }
      r := Done((removed.value, Weight(sizes, held)));
    }

    /** Set one residency policy for many identities in one commit; identities
        already there commit nothing. */
    method SetMaterializations(ids: seq<ContentId>, to: Materialization, disk: Disk) returns (r: Outcome<nat>)
      modifies this
      ensures claims == old(claims)
      ensures var moved := Transitions(old(policy), Elements(ids), to);
              if disk.Fails(moved != {}) then r == Failed && policy == old(policy) && revision == old(revision)
              else if moved == {} then r == Done(0) && policy == old(policy) && revision == old(revision)
              else
                r == Done(|moved|) && policy == old(policy) + (map id | id in moved :: to) && revision == old(revision) + 1
    {
      if disk == Unreadable {
        return Failed;
      }
      var moved := Transitions(policy, Elements(ids), to);
      if moved == {} {
        return Done(0);
      }
      if disk == Unwritable {
        return Failed;
      }
      policy, revision := policy + (map id | id in moved :: to), revision + 1;
      r := Done(|moved|);
    }
  }

  /** What a saturating counter holds after `bytes` are taken off. */
  function TakenOff(count: nat, bytes: nat): nat {
    if bytes < count then count - bytes else 0
  }

  /** The retained-byte counter: removals saturate at zero. */
  class Accountant {
    var count: nat

    constructor (count: nat)
      ensures this.count == count
    {
      this.count := count;
    }

    method Subtract(bytes: nat)
      modifies this
      ensures count == TakenOff(old(count), bytes)
    {
      count := if bytes < count then count - bytes else 0;
    }
  }
}
