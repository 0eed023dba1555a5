/** start() on a closed pool: the promise to parked acquires survives it if and only if nothing is
    resident. The last release of a condemned entry frees a slot and wakes nobody. */
module ProtocolStarts {
  import opened Counting
  import opened PoolModel
  import opened PoolInvariant
  import opened PoolBulk
  import opened MutexModel
  import opened AwaitModel
  import opened Protocol
  import opened ProtocolMutex
  import opened ProtocolPhases
  import opened ProtocolCounts
  import opened ProtocolInvariant
  import opened ProtocolSteps
  import opened ProtocolBase
  import opened ProtocolCapacity
  import opened ProtocolWakeups
  import opened ProtocolTheorems
  import opened ProtocolShutdown
  import opened ProtocolHazards

  // --- runs, piece by piece ---

  /** These safe and careful steps lead from s to t. */
  ghost predicate Goes(cfg: Config, s: State, steps: seq<Step>, t: State) {
    SafeRun(cfg, s, steps) && Run(cfg, s, steps) && CarefulRun(cfg, s, steps) && End(cfg, s, steps) == t
  }

  lemma GoesOne(cfg: Config, s: State, step: Step)
    requires Enabled(s, step) && Safe(s, step) && Careful(cfg, s, step)
    ensures Goes(cfg, s, [step], Apply(cfg, s, step))
  {
    hide Enabled, Safe, Careful, Apply;
    OneStep(cfg, s, step);
    assert CarefulRun(cfg, Apply(cfg, s, step), [step][1..]);
  }

  lemma {:induction false} GoesThen(cfg: Config, s: State, xs: seq<Step>, t: State, ys: seq<Step>, u: State)
    requires Goes(cfg, s, xs, t) && Goes(cfg, t, ys, u)
    ensures Goes(cfg, s, xs + ys, u)
    decreases |xs|
  {
    hide Enabled, Safe, Careful, Apply;
    if xs == [] {
      assert xs + ys == ys;
    } else {
      assert (xs + ys)[1..] == xs[1..] + ys;
      GoesThen(cfg, Apply(cfg, s, xs[0]), xs[1..], t, ys, u);
    }
  }

  lemma GoesInv(cfg: Config, s: State, steps: seq<Step>, t: State)
    requires Inv(cfg, s) && Goes(cfg, s, steps, t)
    ensures Inv(cfg, t)
  {
    hide Inv;
    RunKeeps(cfg, s, steps);
  }

  // --- a condemned entry among the live ones ---

  /** The pool is open, no entry is idle, the entry of k is condemned, and the gate has not overrun. */
  predicate Tight(cfg: Config, p: Pool, k: Key) {
    && Wf(p) && !p.closed && p.idle == [] && cfg.max >= 1 && |p.entries| + p.reserved <= cfg.max
    && k in p.entries && p.table[p.entries[k]].condemned
  }

  ghost predicate Holding(cfg: Config, s: State, k: Key) { Inv(cfg, s) && Tight(cfg, s.pool, k) }

  /** No acquire is about to check out the entry of k. */
  predicate NoneResolved(s: State, k: Key) {
    k in s.pool.entries && forall a :: 0 <= a < |s.acqs| ==> s.acqs[a].phase != Resolved(s.pool.entries[k])
  }

  /** With nothing to evict, the gate grants a free slot, refuses, or parks. */
  lemma SlotTight(cfg: Config, p: Pool, k: Key)
    requires Tight(cfg, p, k)
    ensures var q := SlotStep(p, cfg).0; Tight(cfg, q, k) && q.entries == p.entries && q.table == p.table
    ensures var (q, r) := SlotStep(p, cfg);
      (q.log == p.log && q.queue == p.queue) || (r.ParkedAs? && q.log == p.log + [Waiting])
    ensures |p.entries| + p.reserved < cfg.max ==> SlotStep(p, cfg) == (p.(reserved := p.reserved + 1), Granted)
    ensures |p.entries| + p.reserved == cfg.max && p.queue == [] && cfg.maxWaiters != Some(0) ==>
      SlotStep(p, cfg) == (Park(p), ParkedAs(|p.log|))
  {
  }

  /** After its turn at the gate an acquire is not coming any more, and nobody else is. */
  lemma GateComing(log: seq<WaiterState>, log': seq<WaiterState>, acqs: seq<Acq>, a: nat, x: Acq)
    requires a < |acqs| && (log' == log || log' == log + [Waiting])
    requires WokenIn(log)(acqs[a]) || acqs[a].phase.Replacing?
    requires !x.phase.Replacing? && (x.phase.Parked? ==> x.phase.w >= |log|)
    ensures Coming(log', acqs[a := x]) == Coming(log, acqs) - 1
  {
    ComingMoved(log, acqs, a, x);
    ComingSame(log, log', acqs[a := x]);
  }

  /** A turn at the gate of acquire a, which was coming. */
  lemma GateStep1(cfg: Config, s: State, a: nat, z: Pool, k: Key)
    requires Tight(cfg, s.pool, k) && At(s, a) && AtGate(s.pool, z, s.acqs[a]) && NoneResolved(s, k)
    requires WokenIn(s.pool.log)(s.acqs[a]) || s.acqs[a].phase.Replacing?
    ensures Wf(z) && var t := MoveGate(s, a, AfterSlot(SlotStep(z, cfg)));
      Tight(cfg, t.pool, k) && NoneResolved(t, k) && Coming(t.pool.log, t.acqs) == Coming(s.pool.log, s.acqs) - 1
  {
    var x := s.acqs[a].(phase := AfterSlot(SlotStep(z, cfg)).1);
    assert Tight(cfg, z, k);
    SlotTight(cfg, z, k);
    SlotGated(z, cfg);
    GateIs(cfg, s, a, z, x);
    hide SlotStep, Tight;
    GateComing(s.pool.log, SlotStep(z, cfg).0.log, s.acqs, a, x);
  }

  // --- nobody is coming any more ---

  lemma WokenGoes(cfg: Config, s: State, a: nat, k: Key)
    requires Ready(s) && Tight(cfg, s.pool, k) && NoneResolved(s, k) && At(s, a) && WokenIn(s.pool.log)(s.acqs[a])
    ensures Enabled(s, Resumed(a)) && Safe(s, Resumed(a)) && Careful(cfg, s, Resumed(a))
    ensures var t := Apply(cfg, s, Resumed(a));
      Tight(cfg, t.pool, k) && NoneResolved(t, k) && Coming(t.pool.log, t.acqs) == Coming(s.pool.log, s.acqs) - 1
  {
    hide SlotStep, Tight, NoneResolved, Wf, CellsWf;
    NoMiss(s.pool);
    GateStep1(cfg, s, a, s.pool, k);
  }

  lemma NoMiss(p: Pool)
    ensures p.(counters := p.counters.(misses := p.counters.misses + 0)) == p
  {
  }

  /** The disposal of the entry that an acquire replaces is over, or ends now. */
  lemma ReplacedEntryEnds(cfg: Config, s: State, a: nat, k: Key) returns (steps: seq<Step>, t: State)
    requires Holding(cfg, s, k) && NoneResolved(s, k) && At(s, a) && s.acqs[a].phase.Replacing?
    ensures Goes(cfg, s, steps, t) && Holding(cfg, t, k) && NoneResolved(t, k) && t.acqs == s.acqs
    ensures Coming(t.pool.log, t.acqs) == Coming(s.pool.log, s.acqs)
    ensures Enabled(t, Replaced(a)) && s.acqs[a].key !in t.pool.entries && s.acqs[a].key !in t.pool.orphans
  {
    hide Inv, Tight, NoneResolved, Wf, CellsWf, Droppable, EndDisposal, FinishDispose;
    ReplacingIs(cfg, s, a);
    var e := s.acqs[a].phase.e;
    if s.pool.table[e].life.Disposed? {
      steps, t := [], s;
    } else {
      steps, t := [DisposeDone(e)], Apply(cfg, s, DisposeDone(e));
      DisposeLeaves(cfg, s, e, k);
      StepKeeps(cfg, s, DisposeDone(e));
      hide Careful, Apply;
      GoesOne(cfg, s, DisposeDone(e));
      ReplacingIs(cfg, t, a);
    }
  }

  lemma ReplacingIs(cfg: Config, s: State, a: nat)
    requires Inv(cfg, s) && At(s, a) && s.acqs[a].phase.Replacing?
    ensures Ready(s) && s.acqs[a].phase.e < |s.pool.table| && !s.pool.table[s.acqs[a].phase.e].life.Live?
    ensures s.acqs[a].key !in s.pool.entries && s.acqs[a].key !in s.pool.orphans
  {
    About(cfg, s, a);
  }

  lemma DisposeLeaves(cfg: Config, s: State, e: nat, k: Key)
    requires Tight(cfg, s.pool, k) && NoneResolved(s, k) && Enabled(s, DisposeDone(e))
    ensures Careful(cfg, s, DisposeDone(e)) && Safe(s, DisposeDone(e))
    ensures var t := Apply(cfg, s, DisposeDone(e));
      && Tight(cfg, t.pool, k) && NoneResolved(t, k) && t.acqs == s.acqs && t.pool.log == s.pool.log && t.mx == s.mx
      && e < |t.pool.table| && t.pool.table[e].life.Disposed? && Wf(t.pool)
  {
    hide Droppable, EndDisposal;
  }

  lemma ReplacedGoes(cfg: Config, s: State, a: nat, k: Key)
    requires Tight(cfg, s.pool, k) && NoneResolved(s, k) && Enabled(s, Replaced(a))
    requires s.acqs[a].key !in s.pool.entries && s.acqs[a].key !in s.pool.orphans
    ensures Safe(s, Replaced(a)) && Careful(cfg, s, Replaced(a))
    ensures var t := Apply(cfg, s, Replaced(a));
      Tight(cfg, t.pool, k) && NoneResolved(t, k) && Coming(t.pool.log, t.acqs) == Coming(s.pool.log, s.acqs) - 1
  {
    TightOpen(cfg, s.pool, k);
    ReplacedPhase(s, a);
    hide SlotStep, Tight, NoneResolved, Wf, CellsWf, MoveGate, Enabled, Apply;
    var z := s.pool.(counters := s.pool.counters.(misses := s.pool.counters.misses + 1));
    ReplacedIs(cfg, s, a, z);
    GateStep1(cfg, s, a, z, k);
  }

  lemma ReplacedPhase(s: State, a: nat)
    requires Enabled(s, Replaced(a))
    ensures At(s, a) && s.acqs[a].phase.Replacing?
  {
  }

  lemma ReplacedIs(cfg: Config, s: State, a: nat, z: Pool)
    requires Enabled(s, Replaced(a)) && !s.pool.closed && Wf(s.pool)
    requires s.acqs[a].key !in s.pool.entries && s.acqs[a].key !in s.pool.orphans
    requires z == s.pool.(counters := s.pool.counters.(misses := s.pool.counters.misses + 1))
    ensures Wf(z) && Apply(cfg, s, Replaced(a)) == MoveGate(s, a, AfterSlot(SlotStep(z, cfg)))
  {
    MissForm(cfg, s.pool, s.acqs[a].key);
    WfCounters(s.pool, z);
    hide SlotStep, ObtainMiss, MoveGate, Wf, CellsWf;
  }

  /** obtain of a key that is not resident goes straight for a slot. */
  lemma MissForm(cfg: Config, p: Pool, l: Key)
    requires Wf(p) && l !in p.entries && l !in p.orphans && !p.closed
    ensures ObtainMiss(p, cfg, l) ==
      AfterSlot(SlotStep(p.(counters := p.counters.(misses := p.counters.misses + 1)), cfg))
    ensures ObtainStart(p, cfg, l) == ObtainMiss(p, cfg, l)
  {
    hide SlotStep;
  }

  lemma TightOpen(cfg: Config, p: Pool, k: Key)
    requires Tight(cfg, p, k)
    ensures !p.closed && Wf(p)
  {
  }

  lemma {:induction false} Quiesce(cfg: Config, s: State, k: Key) returns (steps: seq<Step>, t: State)
    requires Holding(cfg, s, k) && NoneResolved(s, k)
    ensures Goes(cfg, s, steps, t) && Holding(cfg, t, k) && NoneResolved(t, k) && Coming(t.pool.log, t.acqs) == 0
    decreases Coming(s.pool.log, s.acqs)
  {
    hide Inv, Tight, NoneResolved, Enabled, Apply, Safe, Careful, Wf, CellsWf;
    if Coming(s.pool.log, s.acqs) == 0 {
      steps, t := [], s;
    } else if Count(s.acqs, WokenIn(s.pool.log)) > 0 {
      PoolAlive(cfg, s);
      var a := CountWitness(s.acqs, WokenIn(s.pool.log));
      WokenGoes(cfg, s, a, k);
      steps, t := QuiesceBy(cfg, s, k, Resumed(a));
    } else {
      var a := CountWitness(s.acqs, IsReplacing());
      var xs, u := ReplacedEntryEnds(cfg, s, a, k);
      ReplacedGoes(cfg, u, a, k);
      var ys, v := QuiesceBy(cfg, u, k, Replaced(a));
      GoesThen(cfg, s, xs, u, ys, v);
      steps, t := xs + ys, v;
    }
  }

  lemma {:induction false} QuiesceBy(cfg: Config, s: State, k: Key, step: Step) returns (steps: seq<Step>, t: State)
    requires Holding(cfg, s, k) && Enabled(s, step) && Safe(s, step) && Careful(cfg, s, step)
    requires var u := Apply(cfg, s, step);
      Tight(cfg, u.pool, k) && NoneResolved(u, k) && Coming(u.pool.log, u.acqs) == Coming(s.pool.log, s.acqs) - 1
    ensures Goes(cfg, s, steps, t) && Holding(cfg, t, k) && NoneResolved(t, k) && Coming(t.pool.log, t.acqs) == 0
    decreases Coming(s.pool.log, s.acqs), 0
  {
    hide Inv, Tight, NoneResolved, Enabled, Apply, Safe, Careful;
    var u := Apply(cfg, s, step);
    StepKeeps(cfg, s, step);
    GoesOne(cfg, s, step);
    var ys, v := Quiesce(cfg, u, k);
    GoesThen(cfg, s, [step], u, ys, v);
    steps, t := [step] + ys, v;
  }

  // --- the pool is full, and somebody waits ---

  /** No acquire in flight or to come can be mistaken for this key's. */
  predicate IsFreshKey(s: State, l: Key) { l !in s.pool.entries && l !in s.pool.orphans && l !in s.mx.current }

  /** What an acquire of a new key goes through. */
  function Asking(p: Pool, l: Key): Pool {
    var q := IncPending(p, l);
    q.(counters := q.counters.(misses := q.counters.misses + 1))
  }

  lemma AskingTight(cfg: Config, p: Pool, k: Key, l: Key)
    requires Tight(cfg, p, k)
    ensures Tight(cfg, Asking(p, l), k) && Asking(p, l).table == p.table && Asking(p, l).entries == p.entries
    ensures Asking(p, l).log == p.log && Asking(p, l).queue == p.queue && Asking(p, l).reserved == p.reserved
  {
  }

  /** A new key comes to the gate and gets what the gate says. */
  lemma NewKeyGoes(cfg: Config, s: State, l: Key) returns (t: State, x: Acq)
    requires Inv(cfg, s) && !s.pool.closed && IsFreshKey(s, l)
    ensures Wf(Asking(s.pool, l)) && Goes(cfg, s, [Call(l), Begin(|s.acqs|)], t)
    ensures t.pool == SlotStep(Asking(s.pool, l), cfg).0 && t.acqs == s.acqs + [x]
    ensures x.key == l && x.phase == AfterSlot(SlotStep(Asking(s.pool, l), cfg)).1
  {
    hide Inv, SlotStep;
    PoolAlive(cfg, s);
    var c := |s.mx.cells|;
    var a := |s.acqs|;
    var u := Apply(cfg, s, Call(l));
    NewCall(cfg, s, l);
    hide Wf, CellsWf, IsFreshKey, Enter;
    StepKeeps(cfg, s, Call(l));
    PoolAlive(cfg, u);
    x := Acq(l, c, AfterSlot(SlotStep(Asking(s.pool, l), cfg)).1);
    NewBegin(cfg, s, u, l, c);
    t := Apply(cfg, u, Begin(a));
    hide Enabled, Apply, Safe, Careful;
    GoesOne(cfg, s, Call(l));
    GoesOne(cfg, u, Begin(a));
    GoesThen(cfg, s, [Call(l)], u, [Begin(a)], t);
    assert [Call(l)] + [Begin(a)] == [Call(l), Begin(a)];
  }

  lemma NewCall(cfg: Config, s: State, l: Key)
    requires Ready(s) && IsFreshKey(s, l) && !s.pool.closed
    ensures Enabled(s, Call(l)) && Safe(s, Call(l)) && Careful(cfg, s, Call(l))
    ensures var u := Apply(cfg, s, Call(l));
      && u.pool == IncPending(s.pool, l) && u.acqs == s.acqs + [Acq(l, |s.mx.cells|, Queued)] && !u.pool.closed
      && |u.mx.cells| == |s.mx.cells| + 1 && u.mx.cells[|s.mx.cells|].queue == [|s.acqs|] && u.owner == s.owner
  {
  }

  lemma NewBegin(cfg: Config, s: State, u: State, l: Key, c: nat)
    requires Ready(u) && u.pool == IncPending(s.pool, l) && u.acqs == s.acqs + [Acq(l, c, Queued)] && !u.pool.closed
    requires c < |u.mx.cells| && u.mx.cells[c].queue == [|s.acqs|] && l !in s.pool.entries && l !in s.pool.orphans
    ensures Wf(Asking(s.pool, l))
    ensures Enabled(u, Begin(|s.acqs|)) && Safe(u, Begin(|s.acqs|)) && Careful(cfg, u, Begin(|s.acqs|))
    ensures var t := Apply(cfg, u, Begin(|s.acqs|));
      && t.pool == SlotStep(Asking(s.pool, l), cfg).0
      && t.acqs == s.acqs + [Acq(l, c, AfterSlot(SlotStep(Asking(s.pool, l), cfg)).1)]
  {
    hide SlotStep;
    assert Asking(s.pool, l) == u.pool.(counters := u.pool.counters.(misses := u.pool.counters.misses + 1));
  }

  lemma FreshKeyExists(s: State) returns (l: Key)
    ensures IsFreshKey(s, l)
  {
    l := FreshKey(s.pool.entries.Keys + s.pool.orphans.Keys + s.mx.current.Keys);
  }

  /** New keys take the slots that are left, one by one; then one more parks. */
  lemma {:induction false} FillUp(cfg: Config, s: State, k: Key) returns (steps: seq<Step>, t: State)
    requires Holding(cfg, s, k) && NoneResolved(s, k) && Coming(s.pool.log, s.acqs) == 0
    requires cfg.maxWaiters != Some(0)
    ensures Goes(cfg, s, steps, t) && Holding(cfg, t, k) && NoneResolved(t, k) && Coming(t.pool.log, t.acqs) == 0
    ensures |t.pool.entries| + t.pool.reserved == cfg.max && t.pool.queue != []
    decreases cfg.max - |s.pool.entries| - s.pool.reserved, if s.pool.queue == [] then 1 else 0
  {
    if |s.pool.entries| + s.pool.reserved == cfg.max && s.pool.queue != [] {
      steps, t := [], s;
    } else {
      var l := FreshKeyExists(s);
      var a := |s.acqs|;
      var u, x := NewKeyGoes(cfg, s, l);
      NewKeyHolds(cfg, s, u, x, k, l);
      hide Inv, Tight, NoneResolved, SlotStep, Goes;
      GoesInv(cfg, s, [Call(l), Begin(a)], u);
      var ys, v := FillUp(cfg, u, k);
      GoesThen(cfg, s, [Call(l), Begin(a)], u, ys, v);
      steps, t := [Call(l), Begin(a)] + ys, v;
    }
  }

  lemma NewKeyHolds(cfg: Config, s: State, u: State, x: Acq, k: Key, l: Key)
    requires Tight(cfg, s.pool, k) && NoneResolved(s, k) && Coming(s.pool.log, s.acqs) == 0
    requires Wf(Asking(s.pool, l)) && u.pool == SlotStep(Asking(s.pool, l), cfg).0 && u.acqs == s.acqs + [x]
    requires x.phase == AfterSlot(SlotStep(Asking(s.pool, l), cfg)).1 && cfg.maxWaiters != Some(0)
    requires |s.pool.entries| + s.pool.reserved < cfg.max || s.pool.queue == []
    ensures Tight(cfg, u.pool, k) && NoneResolved(u, k) && Coming(u.pool.log, u.acqs) == 0
    ensures u.pool.entries == s.pool.entries
    ensures if |s.pool.entries| + s.pool.reserved < cfg.max
            then u.pool.reserved == s.pool.reserved + 1 && u.pool.queue == s.pool.queue
            else u.pool.reserved == s.pool.reserved && u.pool.queue != []
  {
    AskingTight(cfg, s.pool, k, l);
    var z := Asking(s.pool, l);
    SlotTight(cfg, z, k);
    SlotGated(z, cfg);
    hide SlotStep, Asking;
    ComingSame(s.pool.log, u.pool.log, s.acqs);
    CountAppend(s.acqs, x, WokenIn(u.pool.log));
    CountAppend(s.acqs, x, IsReplacing());
  }

  // --- the condemned entry is released ---

  ghost predicate Brim(cfg: Config, s: State, k: Key) {
    && Holding(cfg, s, k) && NoneResolved(s, k) && Coming(s.pool.log, s.acqs) == 0
    && |s.pool.entries| + s.pool.reserved == cfg.max && s.pool.queue != []
  }

  /** With an empty idle list, every live entry is held. */
  lemma AllAreHeld(p: Pool, now: int)
    requires PoolInv(p, now) && p.idle == []
    ensures Wf(p) && forall l :: l in p.entries ==> p.table[p.entries[l]].refCount > 0
    ensures forall l :: l in p.entries ==> p.table[p.entries[l]].key == l && p.table[p.entries[l]].life.Live?
  {
    ResidentsLive(p, now);
  }

  lemma SomeHandle(cfg: Config, s: State, k: Key) returns (a: nat)
    requires Holding(cfg, s, k)
    ensures Wf(s.pool) && s.pool.table[s.pool.entries[k]].refCount > 0 && s.pool.table[s.pool.entries[k]].life.Live?
    ensures Enabled(s, Release(a)) && s.acqs[a].phase == Done(s.pool.entries[k], false)
  {
    AllAreHeld(s.pool, s.now);
    PoolAlive(cfg, s);
    var e := s.pool.entries[k];
    assert s.pool.table[e].refCount == Count(s.acqs, Holds(e));
    a := CountWitness(s.acqs, Holds(e));
  }

  lemma SharedLeaves(cfg: Config, s: State, a: nat, k: Key)
    requires Tight(cfg, s.pool, k) && NoneResolved(s, k) && Enabled(s, Release(a))
    requires s.acqs[a].phase == Done(s.pool.entries[k], false)
    requires s.pool.table[s.pool.entries[k]].refCount > 1 && s.pool.table[s.pool.entries[k]].life.Live?
    ensures Safe(s, Release(a)) && Careful(cfg, s, Release(a))
    ensures var t := Apply(cfg, s, Release(a));
      && Tight(cfg, t.pool, k) && NoneResolved(t, k) && Coming(t.pool.log, t.acqs) == Coming(s.pool.log, s.acqs)
      && t.pool.entries == s.pool.entries && t.pool.reserved == s.pool.reserved && t.pool.queue == s.pool.queue
      && t.pool.table[t.pool.entries[k]].refCount == s.pool.table[s.pool.entries[k]].refCount - 1
  {
    var e := s.pool.entries[k];
    assert ReleaseEntry(s.pool, e, s.now) == DropShared(s.pool, e);
    ComingMoved(s.pool.log, s.acqs, a, s.acqs[a].(phase := Done(e, true)));
  }

  lemma CondemnedForm(p: Pool, e: nat, now: int)
    requires Wf(p) && IsLive(p, e) && p.table[e].life.Live? && p.table[e].refCount == 1 && p.table[e].condemned
    ensures var q := ReleaseEntry(p, e, now);
      && q.entries == p.entries - {p.table[e].key} && |q.table| == |p.table| && q.reserved == p.reserved
      && q.log == p.log && q.queue == p.queue && q.closed == p.closed && q.pending == p.pending
    ensures forall x :: 0 <= x < |p.table| && x != e ==> ReleaseEntry(p, e, now).table[x] == p.table[x]
  {
  }

  /** The last release takes the entry away: a free slot, and nobody is woken. */
  lemma LastLeaves(cfg: Config, s: State, a: nat, k: Key)
    requires Brim(cfg, s, k) && Enabled(s, Release(a)) && s.acqs[a].phase == Done(s.pool.entries[k], false)
    requires Wf(s.pool) && s.pool.table[s.pool.entries[k]].refCount == 1
    ensures Safe(s, Release(a)) && Careful(cfg, s, Release(a))
    ensures !WakeInv(cfg, Apply(cfg, s, Release(a)).pool, Apply(cfg, s, Release(a)).acqs)
  {
    hide Avail, ReleaseEntry, CellsWf, MutexInv, PhaseInv, CountInv, WaiterInv, BreakerInv, DrainInv, PoolInv;
    AllAreHeld(s.pool, s.now);
    hide Inv;
    var p, e := s.pool, s.pool.entries[k];
    CondemnedForm(p, e, s.now);
    LastFrees(cfg, p, ReleaseEntry(p, e, s.now), k);
    ComingMoved(p.log, s.acqs, a, s.acqs[a].(phase := Done(e, true)));
  }

  lemma LastFrees(cfg: Config, p: Pool, q: Pool, k: Key)
    requires Wf(p) && k in p.entries && |p.entries| + p.reserved == cfg.max
    requires forall l :: l in p.entries ==> p.table[p.entries[l]].refCount > 0 && p.table[p.entries[l]].key == l
    requires q.entries == p.entries - {k} && |q.table| == |p.table| && q.reserved == p.reserved
    requires forall x :: 0 <= x < |p.table| && x != p.entries[k] ==> q.table[x] == p.table[x]
    ensures Wf(q) ==> Slack(cfg, q) == 1
  {
    MapMinus(p.entries, k);
    if Wf(q) {
      assert Avail(q) == {} by {
        forall l | l in q.entries ensures q.table[q.entries[l]].refCount > 0 {
          assert q.entries[l] == p.entries[l];
        }
      }
    }
  }

  lemma {:induction false} Forget(cfg: Config, s: State, k: Key) returns (steps: seq<Step>, t: State)
    requires Brim(cfg, s, k) && Wf(s.pool)
    ensures Goes(cfg, s, steps, t) && !WakeInv(cfg, t.pool, t.acqs)
    decreases s.pool.table[s.pool.entries[k]].refCount
  {
    var a := SomeHandle(cfg, s, k);
    var u := Apply(cfg, s, Release(a));
    if s.pool.table[s.pool.entries[k]].refCount == 1 {
      LastLeaves(cfg, s, a, k);
      hide Inv, Enabled, Safe, Careful, WakeInv, Apply;
      GoesOne(cfg, s, Release(a));
      steps, t := [Release(a)], u;
    } else {
      SharedLeaves(cfg, s, a, k);
      hide Inv, Enabled, Safe, Careful, WakeInv, NoneResolved, Apply;
      StepKeeps(cfg, s, Release(a));
      GoesOne(cfg, s, Release(a));
      var ys, v := Forget(cfg, u, k);
      GoesThen(cfg, s, [Release(a)], u, ys, v);
      steps, t := [Release(a)] + ys, v;
    }
  }

  /** From a condemned live entry that nobody is about to check out. */
  lemma HeldIsForgotten(cfg: Config, s: State, k: Key) returns (steps: seq<Step>, t: State)
    requires Holding(cfg, s, k) && NoneResolved(s, k) && cfg.maxWaiters != Some(0)
    ensures Goes(cfg, s, steps, t) && !WakeInv(cfg, t.pool, t.acqs)
  {
    var xs, u := Quiesce(cfg, s, k);
    var ys, v := FillUp(cfg, u, k);
    TightOpen(cfg, v.pool, k);
    var zs, w := Forget(cfg, v, k);
    hide Inv, Tight, NoneResolved, WakeInv, Wf;
    GoesThen(cfg, s, xs, u, ys, v);
    GoesThen(cfg, s, xs + ys, v, zs, w);
    steps, t := xs + ys + zs, w;
  }

  // --- an acquire of the key is about to check it out ---

  /** Its checkout is out of the way first. */
  lemma CheckoutGoes(cfg: Config, s: State, k: Key) returns (steps: seq<Step>, t: State)
    requires Holding(cfg, s, k)
    ensures Goes(cfg, s, steps, t) && Holding(cfg, t, k) && NoneResolved(t, k)
  {
    if NoneResolved(s, k) {
      steps, t := [], s;
    } else {
      var a :| 0 <= a < |s.acqs| && s.acqs[a].phase == Resolved(s.pool.entries[k]);
      CheckoutLeaves(cfg, s, a, k);
      steps, t := [Finish(a)], Apply(cfg, s, Finish(a));
      hide Inv, Enabled, Safe, Careful, Apply, Tight, NoneResolved;
      StepKeeps(cfg, s, Finish(a));
      GoesOne(cfg, s, Finish(a));
    }
  }

  lemma CheckoutLeaves(cfg: Config, s: State, a: nat, k: Key)
    requires Holding(cfg, s, k) && At(s, a) && s.acqs[a].phase == Resolved(s.pool.entries[k])
    ensures Enabled(s, Finish(a)) && Safe(s, Finish(a)) && Careful(cfg, s, Finish(a))
    ensures Tight(cfg, Apply(cfg, s, Finish(a)).pool, k) && NoneResolved(Apply(cfg, s, Finish(a)), k)
  {
    hide Inv, Tight, Harmless, FinishOk, Wf, Enabled, Apply;
    TightIs(cfg, s.pool, k);
    CheckoutReady(cfg, s, a);
    OnlyOneResolved(cfg, s, a, k);
    ResolvedEnds(cfg, s, a);
    HeldTight(cfg, s.pool, k, s.acqs[a].key);
  }

  lemma CheckoutReady(cfg: Config, s: State, a: nat)
    requires Inv(cfg, s) && At(s, a) && s.acqs[a].phase.Resolved? && s.pool.idle == []
    ensures Enabled(s, Finish(a)) && Safe(s, Finish(a)) && Careful(cfg, s, Finish(a))
    ensures Wf(s.pool) && forall l :: l in s.pool.entries ==> s.pool.table[s.pool.entries[l]].refCount > 0
  {
    About(cfg, s, a);
    AllAreHeld(s.pool, s.now);
    hide Inv, PoolInv, Harmless, Wf, CellsWf;
    HeadFinishes(s, a);
    NotThrown(cfg, s, a);
  }

  lemma TightIs(cfg: Config, p: Pool, k: Key)
    requires Tight(cfg, p, k)
    ensures Wf(p) && p.idle == [] && k in p.entries && p.entries[k] < |p.table|
  {
  }

  /** A second holder of the condemned entry. */
  lemma HeldTight(cfg: Config, p: Pool, k: Key, l: Key)
    requires Tight(cfg, p, k) && p.table[p.entries[k]].refCount > 0
    ensures Tight(cfg, FinishOk(p, p.entries[k], l), k) && FinishOk(p, p.entries[k], l).entries == p.entries
  {
    hide FinishOk;
    HeldCheckout(p, p.entries[k], l);
  }

  lemma HeadFinishes(s: State, a: nat)
    requires Wf(s.pool) && CellsWf(s.mx) && IsHead(s.mx, s.acqs, a)
    requires s.acqs[a].phase.Resolved? && s.acqs[a].phase.e < |s.pool.table|
    ensures Enabled(s, Finish(a))
  {
    hide Wf, CellsWf;
  }

  lemma ResolvedEnds(cfg: Config, s: State, a: nat)
    requires Enabled(s, Finish(a)) && s.acqs[a].phase.Resolved?
    ensures var t, e := Apply(cfg, s, Finish(a)), s.acqs[a].phase.e;
      t.pool == FinishOk(s.pool, e, s.acqs[a].key) && t.acqs == s.acqs[a := s.acqs[a].(phase := Done(e, false))]
  {
    hide Settled, FinishOk;
  }

  lemma NotThrown(cfg: Config, s: State, a: nat)
    requires At(s, a) && Wf(s.pool) && !Threw(s.acqs[a])
    ensures Harmless(cfg, s, a)
  {
  }

  /** The checkout of an entry that is held already. */
  lemma HeldCheckout(p: Pool, e: nat, k: Key)
    requires Wf(p) && e < |p.table| && p.table[e].refCount > 0
    ensures FinishOk(p, e, k) == p.(pending := FinishOk(p, e, k).pending, counters := FinishOk(p, e, k).counters,
                                    table := p.table[e := p.table[e].(refCount := p.table[e].refCount + 1)])
  {
  }

  lemma OnlyOneResolved(cfg: Config, s: State, a: nat, k: Key)
    requires Inv(cfg, s) && At(s, a) && k in s.pool.entries && s.acqs[a].phase == Resolved(s.pool.entries[k])
    ensures forall b :: 0 <= b < |s.acqs| && s.acqs[b].phase == s.acqs[a].phase ==> b == a
  {
    hide PoolInv, CountInv, WaiterInv, BreakerInv, DrainInv;
    forall b | 0 <= b < |s.acqs| && s.acqs[b].phase == s.acqs[a].phase ensures b == a {
      assert PhaseOk(s.pool, s.acqs[a]) && PhaseOk(s.pool, s.acqs[b]);
      Exclusion(s.mx, s.acqs, a, b);
    }
  }

  lemma CondemnedIsForgotten(cfg: Config, s: State, k: Key) returns (steps: seq<Step>, t: State)
    requires Holding(cfg, s, k) && cfg.maxWaiters != Some(0)
    ensures Goes(cfg, s, steps, t) && !WakeInv(cfg, t.pool, t.acqs)
  {
    var xs, u := CheckoutGoes(cfg, s, k);
    var ys, v := HeldIsForgotten(cfg, u, k);
    hide Inv, Tight, NoneResolved, WakeInv;
    GoesThen(cfg, s, xs, u, ys, v);
    steps, t := xs + ys, v;
  }

  // --- an orphan is resurrected first ---

  /** The pool is open, nobody is parked, no entry is idle, and the orphan of k is within the ceiling. */
  predicate Orphaning(cfg: Config, p: Pool, k: Key) {
    && Wf(p) && !p.closed && p.idle == [] && p.queue == [] && cfg.max >= 1
    && |p.entries| + |p.orphans| + p.reserved <= cfg.max && k in p.orphans
  }

  lemma OrphanIs(cfg: Config, s: State, k: Key)
    requires Inv(cfg, s) && k in s.pool.orphans
    ensures Wf(s.pool) && CellsWf(s.mx) && k !in s.pool.entries
    ensures var r := s.pool.table[s.pool.orphans[k]]; r.life.Live? && r.condemned && r.refCount > 0
  {
    PoolAlive(cfg, s);
    ResidentsLive(s.pool, s.now);
    hide Inv, PoolInv;
  }

  /** An acquire of k that begins now resurrects it. */
  lemma ReviveGoes(cfg: Config, s: State, h: nat, k: Key)
    requires Ready(s) && Orphaning(cfg, s.pool, k) && IsHead(s.mx, s.acqs, h) && s.acqs[h].key == k
    requires s.acqs[h].phase.Queued? && k !in s.pool.entries
    requires var r := s.pool.table[s.pool.orphans[k]]; r.life.Live? && r.condemned
    ensures Enabled(s, Begin(h)) && Safe(s, Begin(h)) && Careful(cfg, s, Begin(h))
    ensures Tight(cfg, Apply(cfg, s, Begin(h)).pool, k)
  {
    var r := (Resurrected(s.pool, k), Resolved(s.pool.orphans[k]));
    ReviveForm(cfg, s.pool, k);
    hide ObtainStart, Tight, Orphaning, CellsWf;
    MovedGate(s, h, r);
  }

  lemma ReviveForm(cfg: Config, p: Pool, k: Key)
    requires Orphaning(cfg, p, k) && k !in p.entries
    requires var r := p.table[p.orphans[k]]; r.life.Live? && r.condemned
    ensures ObtainStart(p, cfg, k) == (Resurrected(p, k), Resolved(p.orphans[k])) && Tight(cfg, Resurrected(p, k), k)
  {
    hide SlotStep;
    ResurrectWeight(p, k);
  }

  /** One before it ends first. */
  lemma EndGoes(cfg: Config, s: State, h: nat, b: nat, k: Key)
    requires Ready(s) && Orphaning(cfg, s.pool, k) && IsHead(s.mx, s.acqs, h) && s.acqs[h].key == k
    requires s.acqs[h].phase.Resolved? || s.acqs[h].phase.Rejected?
    requires s.acqs[h].phase.Resolved? ==>
      s.acqs[h].phase.e < |s.pool.table| && s.pool.table[s.acqs[h].phase.e].refCount > 0
    requires At(s, b) && s.acqs[b].phase.Queued? && s.acqs[b].key == k
    ensures Enabled(s, Finish(h)) && Safe(s, Finish(h)) && Careful(cfg, s, Finish(h))
    ensures var t := Apply(cfg, s, Finish(h));
      && Orphaning(cfg, t.pool, k) && At(t, b) && t.acqs[b] == s.acqs[b]
      && Count(t.acqs, ActiveOn(k)) == Count(s.acqs, ActiveOn(k)) - 1
  {
    OrphaningIs(cfg, s.pool, k);
    CalmEnd(cfg, s, h);
    hide Harmless, CellsWf, FinishOk, DecPending, Orphaning;
    assert Enabled(s, Finish(h));
    var x := s.acqs[h];
    if x.phase.Resolved? {
      ResolvedEnds(cfg, s, h);
      CountUpdate(s.acqs, h, x.(phase := Done(x.phase.e, false)), ActiveOn(k));
      OrphaningEnds(cfg, s.pool, k, x.phase.e);
    } else {
      RejectedEnds(cfg, s, h);
      CountUpdate(s.acqs, h, x.(phase := Failed(x.phase.error)), ActiveOn(k));
      OrphaningLeft(cfg, s.pool, k);
    }
  }

  lemma OrphaningKey(cfg: Config, p: Pool, k: Key)
    requires Orphaning(cfg, p, k)
    ensures k in p.orphans
  {
  }

  lemma OrphaningIs(cfg: Config, p: Pool, k: Key)
    requires Orphaning(cfg, p, k)
    ensures Wf(p) && p.queue == []
  {
  }

  lemma OrphaningEnds(cfg: Config, p: Pool, k: Key, e: nat)
    requires Orphaning(cfg, p, k) && e < |p.table| && p.table[e].refCount > 0
    ensures Orphaning(cfg, FinishOk(p, e, k), k)
  {
    hide FinishOk;
    HeldCheckout(p, e, k);
  }

  lemma OrphaningLeft(cfg: Config, p: Pool, k: Key)
    requires Orphaning(cfg, p, k)
    ensures Orphaning(cfg, DecPending(p, k), k)
  {
    PendingForm(p, k);
    hide DecPending;
  }

  lemma RejectedEnds(cfg: Config, s: State, a: nat)
    requires Enabled(s, Finish(a)) && s.acqs[a].phase.Rejected?
    ensures var t, error := Apply(cfg, s, Finish(a)), s.acqs[a].phase.error;
      t.pool == DecPending(s.pool, s.acqs[a].key) && t.acqs == s.acqs[a := s.acqs[a].(phase := Failed(error))]
  {
    hide Settled, DecPending;
  }

  /** While nobody is parked, whoever leaves does no harm. */
  lemma CalmEnd(cfg: Config, s: State, a: nat)
    requires At(s, a) && Wf(s.pool) && s.pool.queue == []
    ensures Harmless(cfg, s, a)
  {
  }

  /** An acquire inside obtain of an orphaned key is at its end. */
  lemma EndsSoon(cfg: Config, s: State, h: nat, k: Key)
    requires Inv(cfg, s) && k in s.pool.orphans && IsHead(s.mx, s.acqs, h) && s.acqs[h].key == k
    requires !s.acqs[h].phase.Queued?
    ensures s.acqs[h].phase.Resolved? || s.acqs[h].phase.Rejected?
    ensures s.acqs[h].phase.Resolved? ==>
      s.acqs[h].phase.e < |s.pool.table| && s.pool.table[s.acqs[h].phase.e].refCount > 0
  {
    OrphanIs(cfg, s, k);
    DrainsOf(cfg, s);
    assert PhaseOk(s.pool, s.acqs[h]);
    if s.acqs[h].phase.Resolved? {
      var e := s.acqs[h].phase.e;
      assert RecOk(s.pool.table, s.pool.entries, s.pool.orphans, e);
    }
  }

  /** Somebody is first on the chain of a key on which somebody waits. */
  lemma HeadExists(cfg: Config, s: State, b: nat) returns (h: nat)
    requires Inv(cfg, s) && At(s, b) && Active(s.acqs[b])
    ensures IsHead(s.mx, s.acqs, h) && s.acqs[h].key == s.acqs[b].key
  {
    hide PoolInv, PhaseInv, CountInv, WaiterInv, BreakerInv, DrainInv;
    assert ChainedOk(s.mx, s.acqs, b);
    var c := s.acqs[b].cell;
    assert CellOk(s.mx, s.acqs, c);
    h := s.mx.cells[c].queue[0];
  }

  lemma {:induction false} ReviveQueued(cfg: Config, s: State, b: nat, k: Key) returns (steps: seq<Step>, t: State)
    requires Inv(cfg, s) && Orphaning(cfg, s.pool, k) && At(s, b) && s.acqs[b].phase.Queued? && s.acqs[b].key == k
    ensures Goes(cfg, s, steps, t) && Holding(cfg, t, k)
    decreases Count(s.acqs, ActiveOn(k))
  {
    var h := HeadExists(cfg, s, b);
    OrphaningKey(cfg, s.pool, k);
    hide Inv, Orphaning, Tight, Safe, Careful, Apply, MutexInv;
    if s.acqs[h].phase.Queued? {
      OrphanIs(cfg, s, k);
      ReviveGoes(cfg, s, h, k);
      hide Enabled;
      StepKeeps(cfg, s, Begin(h));
      GoesOne(cfg, s, Begin(h));
      steps, t := [Begin(h)], Apply(cfg, s, Begin(h));
    } else {
      OrphanIs(cfg, s, k);
      EndsSoon(cfg, s, h, k);
      EndGoes(cfg, s, h, b, k);
      var u := Apply(cfg, s, Finish(h));
      hide Enabled;
      StepKeeps(cfg, s, Finish(h));
      GoesOne(cfg, s, Finish(h));
      var ys, v := ReviveQueued(cfg, u, b, k);
      GoesThen(cfg, s, [Finish(h)], u, ys, v);
      steps, t := [Finish(h)] + ys, v;
    }
  }

  lemma CallGoes(cfg: Config, s: State, k: Key)
    requires Inv(cfg, s) && Orphaning(cfg, s.pool, k)
    ensures Enabled(s, Call(k)) && Safe(s, Call(k)) && Careful(cfg, s, Call(k))
    ensures var t := Apply(cfg, s, Call(k));
      && Orphaning(cfg, t.pool, k) && At(t, |s.acqs|)
      && t.acqs[|s.acqs|].phase.Queued? && t.acqs[|s.acqs|].key == k
  {
    hide Inv, Enabled, Apply, Wf, IncPending;
    OrphanIs(cfg, s, k);
    CallQueues(cfg, s, k);
  }

  /** A call of a key that is not resident. */
  lemma CallQueues(cfg: Config, s: State, k: Key)
    requires Wf(s.pool) && CellsWf(s.mx) && k !in s.pool.entries
    ensures Enabled(s, Call(k)) && Wf(IncPending(s.pool, k))
    ensures Apply(cfg, s, Call(k)).pool == IncPending(s.pool, k)
    ensures IncPending(s.pool, k) == s.pool.(pending := IncPending(s.pool, k).pending)
    ensures |Apply(cfg, s, Call(k)).acqs| == |s.acqs| + 1
    ensures Apply(cfg, s, Call(k)).acqs[|s.acqs|].phase.Queued? && Apply(cfg, s, Call(k)).acqs[|s.acqs|].key == k
  {
    hide Enter;
  }

  lemma OrphanIsForgotten(cfg: Config, s: State, k: Key) returns (steps: seq<Step>, t: State)
    requires Inv(cfg, s) && Orphaning(cfg, s.pool, k) && cfg.maxWaiters != Some(0)
    ensures Goes(cfg, s, steps, t) && !WakeInv(cfg, t.pool, t.acqs)
  {
    CallGoes(cfg, s, k);
    var u := Apply(cfg, s, Call(k));
    hide Inv, Orphaning, Tight, Enabled, Safe, Careful, WakeInv, Apply;
    StepKeeps(cfg, s, Call(k));
    GoesOne(cfg, s, Call(k));
    var ys, v := ReviveQueued(cfg, u, |s.acqs|, k);
    var zs, w := CondemnedIsForgotten(cfg, v, k);
    GoesThen(cfg, s, [Call(k)], u, ys, v);
    GoesThen(cfg, s, [Call(k)] + ys, v, zs, w);
    steps, t := [Call(k)] + ys + zs, w;
  }

  // --- the condition is exact ---

  lemma FreshIsLively(cfg: Config, s: State)
    requires Inv(cfg, s) && CapInv(cfg, s.pool) && s.pool.closed && NothingResident(s.pool) && Enabled(s, Start)
    ensures Lively(cfg, Apply(cfg, s, Start)) && CapInv(cfg, Apply(cfg, s, Start).pool)
  {
    DrainsOf(cfg, s);
    NothingLives(s.pool, s.now);
    var t := Apply(cfg, s, Start);
    assert t.pool.queue == [];
    assert Clean(t.pool) && GoneInv(t.pool, t.acqs);
    NothingOwed(cfg, t.pool, t.acqs);
    hide Inv, WakeInv, Clean, GoneInv;
    StepKeeps(cfg, s, Start);
    StepKeepsCap(cfg, s, Start);
  }

  /** What a closed pool is once it is opened again. */
  lemma ReopenedIs(cfg: Config, s: State)
    requires Inv(cfg, s) && CapInv(cfg, s.pool) && s.pool.closed && cfg.max >= 1 && Enabled(s, Start)
    ensures var p := Apply(cfg, s, Start).pool; Wf(p) && !p.closed && p.idle == [] && p.queue == []
    ensures var p := Apply(cfg, s, Start).pool; p.entries == s.pool.entries && p.orphans == s.pool.orphans
    ensures var p := Apply(cfg, s, Start).pool; |p.entries| + |p.orphans| + p.reserved <= cfg.max
    ensures var p := Apply(cfg, s, Start).pool; forall k :: k in p.entries ==> p.table[p.entries[k]].condemned
  {
    ResidentsLive(s.pool, s.now);
    ClosedIsIdle(s.pool, s.now);
    hide Inv, PoolInv;
    Opened(cfg, s);
  }

  lemma ClosedIsIdle(p: Pool, now: int)
    requires PoolInv(p, now) && p.closed
    ensures Wf(p) && p.idle == [] && p.queue == []
    ensures forall k :: k in p.entries ==> p.table[p.entries[k]].condemned
  {
    ResidentsLive(p, now);
    forall e | 0 <= e < |p.table| && IsLive(p, e) ensures p.table[e].refCount > 0 {
      assert RecOk(p.table, p.entries, p.orphans, e);
    }
    SomeIdle(p, now);
  }

  /** start() on a closed pool keeps the promise to parked acquires, on every safe and careful
      continuation, if and only if it finds neither an entry nor an orphan; unless nobody can park. */
  lemma StartFreshIsExact(cfg: Config, s: State)
    requires Inv(cfg, s) && CapInv(cfg, s.pool) && s.pool.closed && Enabled(s, Start)
    requires cfg.max >= 1 && cfg.maxWaiters != Some(0)
    ensures NothingResident(s.pool) <==> KeepsPromise(cfg, Apply(cfg, s, Start))
  {
    var t := Apply(cfg, s, Start);
    if NothingResident(s.pool) {
      FreshIsLively(cfg, s);
      LivelyKeepsPromise(cfg, t);
    } else {
      ReopenedIs(cfg, s);
      hide Inv, WakeInv, CapInv, Enabled;
      StepKeeps(cfg, s, Start);
      if s.pool.entries != map[] {
        var k :| k in s.pool.entries;
        var steps, u := CondemnedIsForgotten(cfg, t, k);
      } else {
        var k :| k in s.pool.orphans;
        var steps, u := OrphanIsForgotten(cfg, t, k);
      }
    }
  }
}
