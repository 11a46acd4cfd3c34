/** The loop's pacing signal. */
module Wake {
  import opened Identity

  datatype Reason = Signal | Timeout | Stop

  /** What happened to a waiting loop between two of its checks. */
  datatype Slice = Slice(slept: nat, poked: bool, stopped: bool)

  /** The state one check sees: time since the wait began, the flag and the latch. */
  datatype Moment = Moment(elapsed: nat, pending: bool, stopped: bool)

  function At(start: Moment, env: nat -> Slice, k: nat): Moment {
    if k == 0 then start
    else
      var m := At(start, env, k - 1);
      var e := env(k - 1);
      Moment(m.elapsed + e.slept, m.pending || e.poked, m.stopped || e.stopped)
  }

  /** What a check decides: stop first, then a poke, then the deadline. */
  function Verdict(m: Moment, timeout: nat): Option<Reason> {
    if m.stopped then Some(Stop)
    else if m.pending then Some(Signal)
    else if m.elapsed >= timeout then Some(Timeout)
    else None
  }

  class WakeSignal {
    var pending: bool

    constructor ()
      ensures !pending
    {
      pending := false;
    }

    method Wake()
      modifies this
      ensures pending
    {
      pending := true;
    }

    /** Wait until poked, stopped or due. The answer is the verdict of the first
        check that has one; a poke is consumed exactly when it is the answer. Checks may
        follow one another in no time, `still` many of them at most. */
    method Wait(stopped: bool, timeout: nat, env: nat -> Slice, ghost still: nat -> nat) returns (r: Reason, ghost checks: nat)
      requires forall k: nat :: env(k).slept > 0 || still(k + 1) < still(k)
      modifies this
      ensures Verdict(At(Moment(0, old(pending), stopped), env, checks), timeout) == Some(r)
      ensures forall k :: 0 <= k < checks ==> Verdict(At(Moment(0, old(pending), stopped), env, k), timeout) == None
      ensures pending == (At(Moment(0, old(pending), stopped), env, checks).pending && r != Signal)
    {
      ghost var start := Moment(0, pending, stopped);
      var now, stop, k := 0, stopped, 0;
      checks := 0;
      while true
        invariant k == checks
        invariant At(start, env, k) == Moment(now, pending, stop)
        invariant forall j :: 0 <= j < k ==> Verdict(At(start, env, j), timeout) == None
        decreases if now < timeout then timeout - now else 0, still(k)
      {
        if stop {
          return Stop, checks;
        }
        if pending {
          pending := false;
          return Signal, checks;
        }
        if now >= timeout {
          return Timeout, checks;
        }
        var e := env(k);
        now, stop := now + e.slept, stop || e.stopped;
        if e.poked {
          Wake();
        }
        k, checks := k + 1, checks + 1;
      }
    }
  }

  // ---- producers against one loop

  datatype Loop = Heading | Passing | Waiting | Stopped

  /** `published` work exists, `poked` work was announced after being published, and
      `examined` work was in sight of a pass. */
  datatype State = State(flag: bool, stop: bool, published: set<nat>, poked: set<nat>, examined: set<nat>, loop: Loop)

  datatype Act = Publish(w: nat) | Poke(w: nat) | Trip | Examine | EndPass | Check(due: bool)

  predicate IsLoop(a: Act) {
    a.Examine? || a.EndPass? || a.Check?
  }

  predicate Can(s: State, a: Act) {
    match a
    case Publish(_) => true
    case Poke(w) => w in s.published
    case Trip => true
    case Examine => s.loop.Heading?
    case EndPass => s.loop.Passing?
    case Check(_) => s.loop.Waiting?
  }

  function Step(s: State, a: Act): State
    requires Can(s, a)
  {
    match a
    case Publish(w) => s.(published := s.published + {w})
    case Poke(w) => s.(poked := s.poked + {w}, flag := true)
    case Trip => s.(stop := true)
    case Examine => if s.stop then s.(loop := Stopped) else s.(loop := Passing, examined := s.examined + s.published)
    case EndPass => s.(loop := Waiting)
    case Check(due) =>
      (match Verdict(Moment(if due then 1 else 0, s.flag, s.stop), 1)
       case None => s
       case Some(Stop) => s.(loop := Stopped)
       case Some(Signal) => s.(flag := false, loop := Heading)
       case Some(Timeout) => s.(loop := Heading))
  }

  function Start(): State {
    State(false, false, {}, {}, {}, Heading)
  }

  function Run(s: State, acts: seq<Act>): State {
    if acts == [] then s
    else
      var p := Run(s, acts[..|acts| - 1]);
      if Can(p, acts[|acts| - 1]) then Step(p, acts[|acts| - 1]) else p
  }

  /** Announced work the loop has not seen keeps the flag up or the loop on its way. */
  ghost predicate NothingLost(s: State) {
    && s.poked <= s.published
    && (s.poked <= s.examined || s.flag || s.loop.Heading? || s.loop.Stopped?)
    && (s.loop.Stopped? ==> s.stop)
  }

  lemma {:induction false} NoLostWakeup(acts: seq<Act>)
    ensures NothingLost(Run(Start(), acts))
  {
    if acts != [] {
      NoLostWakeup(acts[..|acts| - 1]);
    }
  }

  /** Loop steps still needed before a given announced item is seen. */
  function Lag(s: State, w: nat): nat {
    if w in s.examined || s.loop.Stopped? then 0
    else match s.loop
      case Heading => 1
      case Waiting => 2
      case Passing => 3
      case Stopped => 0
  }

  function LoopSteps(acts: seq<Act>): nat {
    if acts == [] then 0 else LoopSteps(acts[1..]) + if IsLoop(acts[0]) then 1 else 0
  }

  ghost predicate Legal(s: State, acts: seq<Act>)
    decreases |acts|
  {
    acts != [] ==> Can(s, acts[0]) && Legal(Step(s, acts[0]), acts[1..])
  }

  function After(s: State, acts: seq<Act>): State
    requires Legal(s, acts)
    decreases |acts|
  {
    if acts == [] then s else After(Step(s, acts[0]), acts[1..])
  }

  /** Announced work is seen within three loop steps, however the producers and the
      deadline interleave with them, unless the loop stops. */
  lemma {:induction false} PokesArePrompt(s: State, acts: seq<Act>, w: nat)
    requires NothingLost(s) && w in s.poked && Legal(s, acts)
    requires LoopSteps(acts) >= Lag(s, w)
    ensures w in After(s, acts).examined || After(s, acts).loop.Stopped?
    decreases |acts|
  {
    if acts != [] {
      var t := Step(s, acts[0]);
      assert NothingLost(t);
      assert Lag(t, w) == 0 || Lag(t, w) + (if IsLoop(acts[0]) then 1 else 0) <= Lag(s, w);
      PokesArePrompt(t, acts[1..], w);
    }
  }
}
