/** The session's write budget: per-handle images and fold leases under one running total
    of machine words. */
module Budget {
  const WORD: nat := 0x1_0000_0000_0000_0000

  type Usize = n: nat | n < WORD

  type HandleId = nat
  type LeaseId = nat

  datatype Limits = Limits(perHandle: Usize, aggregate: Usize, dirtyHandles: Usize)

  /** Production bounds. */
  const V0 := Limits(64 * 1024 * 1024, 256 * 1024 * 1024, 64)

  datatype BudgetError = Handle | Aggregate | DirtyHandles

  datatype Verdict = Granted | Refused(why: BudgetError)

  /** `lengths` and `total` are the locked state; `leases` are the live fold leases. */
  datatype Ledger = Ledger(lengths: map<HandleId, Usize>, total: Usize, leases: map<LeaseId, Usize>)

  const CLEAN := Ledger(map[], 0, map[])

  // ---- word arithmetic

  function Wrapped(n: int): Usize {
    n % WORD
  }

  function SaturatingAdd(a: Usize, b: Usize): Usize {
    if a + b < WORD then a + b else WORD - 1
  }

  function SaturatingSub(a: Usize, b: Usize): Usize {
    if b <= a then a - b else 0
  }

  // ---- operations

  function Held(s: Ledger, h: HandleId): Usize {
    if h in s.lengths then s.lengths[h] else 0
  }

  /** The total a reservation would leave, in machine arithmetic. */
  function Adjusted(s: Ledger, h: HandleId, length: Usize): Usize {
    Wrapped(s.total - Held(s, h) + length)
  }

  function ReserveVerdict(l: Limits, s: Ledger, h: HandleId, length: Usize): Verdict {
    if length > l.perHandle then Refused(Handle)
    else if h !in s.lengths && |s.lengths| >= l.dirtyHandles then Refused(DirtyHandles)
    else if Adjusted(s, h, length) > l.aggregate then Refused(Aggregate)
    else Granted
  }

  function Reserved(s: Ledger, h: HandleId, length: Usize): Ledger {
    s.(lengths := s.lengths[h := length], total := Adjusted(s, h, length))
  }

  function Released(s: Ledger, h: HandleId): Ledger {
    if h in s.lengths then s.(lengths := s.lengths - {h}, total := SaturatingSub(s.total, s.lengths[h])) else s
  }

  function FoldVerdict(l: Limits, s: Ledger, bytes: Usize): Verdict {
    if SaturatingAdd(s.total, bytes) > l.aggregate then Refused(Aggregate) else Granted
  }

  function Leased(s: Ledger, id: LeaseId, bytes: Usize): Ledger {
    s.(leases := s.leases[id := bytes], total := SaturatingAdd(s.total, bytes))
  }

  function Dropped(s: Ledger, id: LeaseId): Ledger
    requires id in s.leases
  {
    s.(leases := s.leases - {id}, total := SaturatingSub(s.total, s.leases[id]))
  }

  // ---- what the total stands for

  ghost function Bytes(m: map<nat, Usize>): nat
    decreases |m|
  {
    if m == map[] then 0
    else
      var k :| k in m;
      assert |m - {k}| < |m| by { Smaller(m, k); }
      m[k] + Bytes(m - {k})
  }

  lemma Smaller(m: map<nat, Usize>, k: nat)
    requires k in m
    ensures |m - {k}| == |m| - 1
  {
    assert (m - {k}).Keys == m.Keys - {k};
    assert |m.Keys - {k}| == |m.Keys| - 1;
  }

  lemma {:induction false} BytesOf(m: map<nat, Usize>, k: nat)
    requires k in m
    ensures Bytes(m) == m[k] + Bytes(m - {k})
    decreases |m|
  {
    var j :| j in m && Bytes(m) == m[j] + Bytes(m - {j});
    if j != k {
      Smaller(m, j);
      Smaller(m, k);
      BytesOf(m - {j}, k);
      BytesOf(m - {k}, j);
      assert m - {j} - {k} == m - {k} - {j};
    }
  }

  lemma BytesPut(m: map<nat, Usize>, k: nat, v: Usize)
    ensures Bytes(m[k := v]) == Bytes(m) - (if k in m then m[k] else 0) + v
  {
    BytesOf(m[k := v], k);
    assert m[k := v] - {k} == m - {k};
    if k in m {
      BytesOf(m, k);
    } else {
      assert m - {k} == m;
    }
  }

  lemma PutSize(m: map<nat, Usize>, k: nat, v: Usize)
    ensures |m[k := v]| == if k in m then |m| else |m| + 1
  {
    assert m[k := v].Keys == m.Keys + {k};
    if k in m {
      assert m.Keys + {k} == m.Keys;
    }
  }

  ghost predicate Conserved(l: Limits, s: Ledger) {
    && s.total == Bytes(s.lengths) + Bytes(s.leases) <= l.aggregate
    && (forall h | h in s.lengths :: s.lengths[h] <= l.perHandle)
    && |s.lengths| <= l.dirtyHandles
  }

  /** The limits under which no word operation can lose a byte. */
  predicate Fits(l: Limits) {
    && l.aggregate < WORD - 1
    && (l.dirtyHandles == 0 || l.aggregate + l.perHandle < WORD)
  }

  /** A bare subtraction never underflows and what is added back never overflows. */
  lemma ReserveIsExact(l: Limits, s: Ledger, h: HandleId, length: Usize)
    requires Fits(l) && Conserved(l, s) && length <= l.perHandle
    requires h in s.lengths || |s.lengths| < l.dirtyHandles
    ensures Held(s, h) <= s.total
    ensures Adjusted(s, h, length) == s.total - Held(s, h) + length
            == Bytes(s.lengths[h := length]) + Bytes(s.leases)
  {
    BytesPut(s.lengths, h, length);
    if h in s.lengths {
      BytesOf(s.lengths, h);
      assert s.lengths != map[];
      assert |s.lengths| > 0;
    }
    Unwrapped(s.total - Held(s, h) + length);
  }

  lemma Unwrapped(n: int)
    requires 0 <= n < WORD
    ensures Wrapped(n) == n
  {
  }

  lemma ReserveConserves(l: Limits, s: Ledger, h: HandleId, length: Usize)
    requires Fits(l) && Conserved(l, s)
    requires ReserveVerdict(l, s, h, length) == Granted
    ensures Conserved(l, Reserved(s, h, length))
  {
    ReserveIsExact(l, s, h, length);
    PutSize(s.lengths, h, length);
  }

  lemma ReleaseConserves(l: Limits, s: Ledger, h: HandleId)
    requires Conserved(l, s)
    ensures Conserved(l, Released(s, h))
    ensures h in s.lengths ==> s.lengths[h] <= s.total
  {
    if h in s.lengths {
      BytesOf(s.lengths, h);
      Smaller(s.lengths, h);
    }
  }

  lemma LeaseConserves(l: Limits, s: Ledger, id: LeaseId, bytes: Usize)
    requires Fits(l) && Conserved(l, s) && id !in s.leases
    requires FoldVerdict(l, s, bytes) == Granted
    ensures s.total + bytes < WORD
    ensures Conserved(l, Leased(s, id, bytes))
  {
    BytesPut(s.leases, id, bytes);
  }

  lemma DropConserves(l: Limits, s: Ledger, id: LeaseId)
    requires Conserved(l, s) && id in s.leases
    ensures s.leases[id] <= s.total
    ensures Conserved(l, Dropped(s, id))
  {
    BytesOf(s.leases, id);
  }

  // ---- the shared object

  class WriteBudget {
    const limits: Limits
    var lengths: map<HandleId, Usize>
    var total: Usize
    /** Leases handed out and not yet dropped; their owners hold the bytes. */
    ghost var leases: map<LeaseId, Usize>

    ghost function State(): Ledger
      reads this
    {
      Ledger(lengths, total, leases)
    }

    constructor WithLimits(limits: Limits)
      ensures this.limits == limits && State() == CLEAN
    {
      this.limits := limits;
      lengths, total, leases := map[], 0, map[];
    }

    method Reserve(handle: HandleId, newLength: Usize) returns (r: Verdict)
      modifies this
      ensures r == ReserveVerdict(limits, old(State()), handle, newLength)
      ensures State() == if r == Granted then Reserved(old(State()), handle, newLength) else old(State())
      ensures Fits(limits) && old(Conserved(limits, State())) ==> Conserved(limits, State())
    {
      if newLength > limits.perHandle {
        return Refused(Handle);
      }
      var held: Usize := if handle in lengths then lengths[handle] else 0;
      if handle !in lengths && |lengths| >= limits.dirtyHandles {
        return Refused(DirtyHandles);
      }
      var adjusted := Wrapped(total - held + newLength);
      if adjusted > limits.aggregate {
        return Refused(Aggregate);
      }
      if Fits(limits) && Conserved(limits, State()) {
        ReserveConserves(limits, State(), handle, newLength);
      }
      lengths, total := lengths[handle := newLength], adjusted;
      r := Granted;
    }

    /** Idempotent: a clean handle has nothing to give back. */
    method Release(handle: HandleId)
      modifies this
      ensures State() == Released(old(State()), handle)
      ensures old(Conserved(limits, State())) ==> Conserved(limits, State())
    {
      if Conserved(limits, State()) {
        ReleaseConserves(limits, State(), handle);
      }
      if handle in lengths {
        lengths, total := lengths - {handle}, SaturatingSub(total, lengths[handle]);
      }
    }

    /** A granted lease is a new object, so its identity is not yet live. */
    method ReserveFold(ghost id: LeaseId, bytes: Usize) returns (r: Verdict)
      requires id !in leases
      modifies this
      ensures r == FoldVerdict(limits, old(State()), bytes)
      ensures State() == if r == Granted then Leased(old(State()), id, bytes) else old(State())
      ensures Fits(limits) && old(Conserved(limits, State())) ==> Conserved(limits, State())
    {
      var adjusted := SaturatingAdd(total, bytes);
      if adjusted > limits.aggregate {
        return Refused(Aggregate);
      }
      if Fits(limits) && Conserved(limits, State()) {
        LeaseConserves(limits, State(), id, bytes);
      }
      total, leases := adjusted, leases[id := bytes];
      r := Granted;
    }

    /** Dropping a lease gives back the bytes it was made with. */
    method ReleaseFold(ghost id: LeaseId, bytes: Usize)
      requires id in leases && leases[id] == bytes
      modifies this
      ensures State() == Dropped(old(State()), id)
      ensures old(Conserved(limits, State())) ==> Conserved(limits, State())
    {
      if Conserved(limits, State()) {
        DropConserves(limits, State(), id);
      }
      total, leases := SaturatingSub(total, bytes), leases - {id};
    }
  }

  // ---- runs

  datatype Act =
    | Reserve(h: HandleId, length: Usize)
    | Release(h: HandleId)
    | Lease(id: LeaseId, bytes: Usize)
    | Drop(id: LeaseId)

  function Step(l: Limits, s: Ledger, a: Act): Ledger {
    match a
    case Reserve(h, length) => if ReserveVerdict(l, s, h, length) == Granted then Reserved(s, h, length) else s
    case Release(h) => Released(s, h)
    case Lease(id, bytes) => if id !in s.leases && FoldVerdict(l, s, bytes) == Granted then Leased(s, id, bytes) else s
    case Drop(id) => if id in s.leases then Dropped(s, id) else s
  }

  function Run(l: Limits, acts: seq<Act>): Ledger {
    if acts == [] then CLEAN else Step(l, Run(l, acts[..|acts| - 1]), acts[|acts| - 1])
  }

  lemma {:induction false} RunsConserve(l: Limits, acts: seq<Act>)
    requires Fits(l)
    ensures Conserved(l, Run(l, acts))
  {
    if acts != [] {
      var s := Run(l, acts[..|acts| - 1]);
      RunsConserve(l, acts[..|acts| - 1]);
      match acts[|acts| - 1]
      case Reserve(h, length) =>
        if ReserveVerdict(l, s, h, length) == Granted { ReserveConserves(l, s, h, length); }
      case Release(h) => ReleaseConserves(l, s, h);
      case Lease(id, bytes) =>
        if id !in s.leases && FoldVerdict(l, s, bytes) == Granted { LeaseConserves(l, s, id, bytes); }
      case Drop(id) => if id in s.leases { DropConserves(l, s, id); }
    }
  }

  lemma RunOne(l: Limits, a: Act)
    ensures Run(l, [a]) == Step(l, CLEAN, a)
  {
    assert [a][..0] == [];
    assert Run(l, []) == CLEAN;
  }

  lemma RunTwo(l: Limits, a: Act, b: Act)
    ensures Run(l, [a, b]) == Step(l, Step(l, CLEAN, a), b)
  {
    RunOne(l, a);
    assert [a, b][..1] == [a];
  }

  lemma BytesOne(k: nat, v: Usize)
    ensures Bytes(map[k := v]) == v
  {
    BytesOf(map[k := v], k);
    assert map[k := v] - {k} == map[];
  }

  lemma BytesTwo(v: Usize, w: Usize)
    ensures Bytes(map[0 := v, 1 := w]) == v + w
  {
    BytesOf(map[0 := v, 1 := w], 0);
    assert map[0 := v, 1 := w] - {0} == map[1 := w];
    BytesOne(1, w);
  }

  /** At the largest aggregate two leases saturate the total and a byte goes missing. */
  lemma SaturationLosesBytes(l: Limits)
    requires l.aggregate == WORD - 1
    ensures !Conserved(l, Run(l, [Lease(0, WORD - 1), Lease(1, 1)]))
  {
    RunTwo(l, Lease(0, WORD - 1), Lease(1, 1));
    var s := Step(l, CLEAN, Lease(0, WORD - 1));
    assert s == Ledger(map[], WORD - 1, map[0 := WORD - 1]);
    var t := Step(l, s, Lease(1, 1));
    assert t == Ledger(map[], WORD - 1, map[0 := WORD - 1, 1 := 1]);
    BytesTwo(WORD - 1, 1);
  }

  /** When the two bounds together exceed a word, a reservation wraps past the aggregate. */
  lemma WrapLosesBytes(l: Limits)
    requires l.dirtyHandles > 0 && l.aggregate + l.perHandle >= WORD
    ensures !Conserved(l, Run(l, [Lease(0, l.aggregate), Reserve(0, l.perHandle)]))
  {
    var a, b := Lease(0, l.aggregate), Reserve(0, l.perHandle);
    RunTwo(l, a, b);
    var s := Step(l, CLEAN, a);
    assert s == Ledger(map[], l.aggregate, map[0 := l.aggregate]);
    Rewrapped(l.aggregate + l.perHandle);
    assert Adjusted(s, 0, l.perHandle) == l.aggregate + l.perHandle - WORD < l.aggregate;
    assert |s.lengths| == 0;
    var t := Step(l, s, b);
    assert t == Reserved(s, 0, l.perHandle);
    assert t.leases == map[0 := l.aggregate];
    BytesOne(0, l.aggregate);
  }

  lemma Rewrapped(n: int)
    requires WORD <= n < 2 * WORD
    ensures Wrapped(n) == n - WORD
  {
  }

  /** Conservation over every run holds for exactly the limits that fit. */
  lemma ConservationIsExact(l: Limits)
    ensures (forall acts :: Conserved(l, Run(l, acts))) <==> Fits(l)
  {
    if Fits(l) {
      forall acts ensures Conserved(l, Run(l, acts)) { RunsConserve(l, acts); }
    } else if l.aggregate == WORD - 1 {
      SaturationLosesBytes(l);
    } else {
      WrapLosesBytes(l);
    }
  }

  /** The production bounds fit. */
  lemma ProductionFits(acts: seq<Act>)
    ensures Conserved(V0, Run(V0, acts))
  {
    RunsConserve(V0, acts);
  }

  // ---- what a caller sees

  /** On every run a reservation is granted exactly when the three inequalities would hold
      of the true byte counts afterwards. */
  lemma GrantIsExact(l: Limits, acts: seq<Act>, h: HandleId, length: Usize)
    requires Fits(l)
    ensures var s := Run(l, acts);
            ReserveVerdict(l, s, h, length) == Granted <==>
            && length <= l.perHandle
            && |s.lengths[h := length]| <= l.dirtyHandles
            && Bytes(s.lengths[h := length]) + Bytes(s.leases) <= l.aggregate
  {
    var s := Run(l, acts);
    RunsConserve(l, acts);
    PutSize(s.lengths, h, length);
    if length <= l.perHandle && (h in s.lengths || |s.lengths| < l.dirtyHandles) {
      ReserveIsExact(l, s, h, length);
    }
  }

  lemma FoldGrantIsExact(l: Limits, acts: seq<Act>, bytes: Usize)
    requires Fits(l)
    ensures var s := Run(l, acts);
            FoldVerdict(l, s, bytes) == Granted <==> Bytes(s.lengths) + Bytes(s.leases) + bytes <= l.aggregate
  {
    RunsConserve(l, acts);
  }

  /** Shrinking a budgeted handle is never refused and frees exactly the difference. */
  lemma ShrinkIsGranted(l: Limits, acts: seq<Act>, h: HandleId, length: Usize)
    requires Fits(l)
    requires h in Run(l, acts).lengths && length <= Run(l, acts).lengths[h]
    ensures ReserveVerdict(l, Run(l, acts), h, length) == Granted
    ensures Reserved(Run(l, acts), h, length).total == Run(l, acts).total - (Run(l, acts).lengths[h] - length)
  {
    RunsConserve(l, acts);
    ReserveIsExact(l, Run(l, acts), h, length);
  }

  /** A release undoes a clean handle's reservation; a drop undoes its lease. */
  lemma ReleaseUndoes(l: Limits, acts: seq<Act>, h: HandleId, length: Usize)
    requires Fits(l) && h !in Run(l, acts).lengths
    ensures Run(l, acts + [Reserve(h, length), Release(h)]) == Run(l, acts)
  {
    var s := Run(l, acts);
    RunsConserve(l, acts);
    var mid := acts + [Reserve(h, length)];
    var all := acts + [Reserve(h, length), Release(h)];
    assert mid[..|mid| - 1] == acts && all[..|all| - 1] == mid;
    if ReserveVerdict(l, s, h, length) == Granted {
      ReserveIsExact(l, s, h, length);
      assert s.lengths[h := length] - {h} == s.lengths;
    } else {
      assert Run(l, mid) == s;
    }
  }
}
