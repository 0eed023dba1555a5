/** What each step adds to the counters of the statistics. */
module ProtocolStatistics {
  import opened Counting
  import opened PoolModel
  import opened PoolInvariant
  import opened PoolBulk
  import opened PoolTheorems
  import opened PoolResidents
  import opened MutexModel
  import opened AwaitModel
  import opened Protocol
  import opened ProtocolPhases
  import opened ProtocolCounts
  import opened ProtocolInvariant
  import opened ProtocolSteps
  import opened ProtocolBase
  import opened ProtocolResidents
  import opened ProtocolTheorems
  import opened ProtocolOutcomes
  import opened ProtocolCauses

  /** An acquire is given an entry that was there: at its call, by obtain, or by a passed validation. */
  predicate IsHit(s: State, step: Step, t: State) {
    match step
    case Call(_) => |s.acqs| < |t.acqs| && t.acqs[|s.acqs|].phase.Done?
    case Begin(a) => At(t, a) && t.acqs[a].phase.Resolved?
    case Replaced(a) => At(t, a) && t.acqs[a].phase.Resolved?
    case ValidateDone(_, ok) => ok
    case _ => false
  }

  /** obtain finds neither a live entry nor an orphan of its key in an open pool. */
  predicate IsMiss(s: State, step: Step) {
    !s.pool.closed
    && match step
       case Begin(a) => At(s, a) && Absent(s.pool, s.acqs[a].key)
       case Replaced(a) => At(s, a) && Absent(s.pool, s.acqs[a].key)
       case _ => false
  }

  /** A handle is returned. */
  predicate IsCheckout(s: State, step: Step, t: State) {
    || (step.Call? && |s.acqs| < |t.acqs| && t.acqs[|s.acqs|].phase.Done?)
    || (step.Finish? && At(t, step.a) && t.acqs[step.a].phase.Done?)
  }

  /** A handle is released whose entry has not been disposed meanwhile. */
  predicate IsReturn(s: State, step: Step) {
    match step
    case Release(a) => IsReturnOf(s, a)
    case ReleaseKey(_, a) => IsReturnOf(s, a)
    case _ => false
  }

  predicate IsReturnOf(s: State, a: nat) {
    At(s, a) && s.acqs[a].phase.Done? && s.acqs[a].phase.e < |s.pool.table|
    && !s.pool.table[s.acqs[a].phase.e].life.Disposed?
  }

  /** d is c, but for the evictions, with these added. */
  predicate Adds(c: Counters, d: Counters, created: bool, disposed: bool, hit: bool, miss: bool, acquire: bool,
                 release: bool) {
    d == Counters(c.created + One(created), c.disposed + One(disposed), d.evicted, c.hits + One(hit),
                  c.misses + One(miss), c.acquires + One(acquire), c.releases + One(release))
  }

  predicate AddsNone(c: Counters, d: Counters) { Adds(c, d, false, false, false, false, false, false) }

  // --- obtain ---

  lemma SlotAdds(p: Pool, cfg: Config)
    requires Wf(p)
    ensures AddsNone(p.counters, SlotStep(p, cfg).0.counters)
  {
    FreeInTable(p);
    hide FirstFree, Displace;
    var v := FirstFree(p, p.idle);
    if cfg.max <= 0 || p.closed || |p.entries| + p.reserved < cfg.max {
    } else if v.Some? {
      DisplaceCounts(p, v.value);
    }
  }

  lemma MissAdds(p: Pool, cfg: Config, k: Key)
    requires Wf(p) && Grounded(p) && k !in p.entries
    ensures var (q, phase) := ObtainMiss(p, cfg, k);
      Adds(p.counters, q.counters, false, false, phase.Resolved?, Absent(p, k) && !p.closed, false, false)
  {
    if k in p.orphans {
      OrphanLives(p, k);
    }
    WfCounters(p, Missed(p));
    SlotAdds(Missed(p), cfg);
    hide SlotStep, Wf, Grounded;
  }

  lemma ObtainAdds(p: Pool, cfg: Config, k: Key)
    requires Wf(p) && Grounded(p)
    ensures var (q, phase) := ObtainStart(p, cfg, k);
      Adds(p.counters, q.counters, false, false, phase.Resolved?, Absent(p, k) && !p.closed, false, false)
  {
    if k in p.entries {
      EntryLives(p, k);
    } else {
      MissAdds(p, cfg, k);
    }
    hide ObtainMiss, Wf, Grounded;
  }

  lemma EntryLives(p: Pool, k: Key)
    requires Grounded(p) && k in p.entries
    ensures p.entries[k] < |p.table| && p.table[p.entries[k]].life.Live?
  {
  }

  lemma ResumeAdds(p: Pool, cfg: Config, w: nat)
    requires Wf(p) && w < |p.log|
    ensures AddsNone(p.counters, Resume(p, cfg, w).0.counters)
  {
    SlotAdds(p, cfg);
    hide SlotStep, Wf;
  }

  lemma ReplacedHasNoEntry(cfg: Config, s: State, a: nat)
    requires Attainable(cfg, s) && Enabled(s, Replaced(a))
    ensures s.acqs[a].key !in s.pool.entries
  {
    ReplacedAbsent(cfg, s, a);
    hide Attainable;
  }

  lemma GroundedHere(cfg: Config, s: State)
    requires Attainable(cfg, s)
    ensures Wf(s.pool) && Grounded(s.pool) && HeldInv(s.pool.table, s.acqs)
  {
    AttainableAny(cfg, s);
    hide Attainable, AnyInv, BaseInv, Grounded, HeldInv, ClaimInv, ClosingInv, QueueOk, Wf;
    ResOf(cfg, s);
    ResHere(s);
  }

  lemma ObtainStepAdds(cfg: Config, s: State, step: Step)
    requires Attainable(cfg, s) && Enabled(s, step) && (step.Begin? || step.Replaced? || step.Resumed?)
    ensures var t := Apply(cfg, s, step);
      Adds(s.pool.counters, t.pool.counters, false, false, IsHit(s, step, t), IsMiss(s, step), false, false)
  {
    GroundedHere(cfg, s);
    hide Attainable, Wf, CellsWf, Grounded, HeldInv, ObtainStart, ObtainMiss, Resume;
    match step {
      case Begin(a) =>
        ObtainAdds(s.pool, cfg, s.acqs[a].key);
        MovesOn(s, a, ObtainStart(s.pool, cfg, s.acqs[a].key));
      case Replaced(a) =>
        ReplacedHasNoEntry(cfg, s, a);
        MissAdds(s.pool, cfg, s.acqs[a].key);
        MovesOn(s, a, ObtainMiss(s.pool, cfg, s.acqs[a].key));
      case Resumed(a) =>
        ResumeAdds(s.pool, cfg, s.acqs[a].phase.w);
        MovesOn(s, a, Resume(s.pool, cfg, s.acqs[a].phase.w));
    }
  }

  // --- releases ---

  lemma ReleaseAdds(p: Pool, e: nat, now: int)
    requires Wf(p) && e < |p.table|
    ensures var r := p.table[e];
      Adds(p.counters, ReleaseEntry(p, e, now).counters, false, false, false, false, false,
           !r.life.Disposed? && r.refCount > 0)
  {
    var z := DropLast(p, e, now);
    AppendWaiters(z, e);
    WfDrop(p, e, now);
    HeadInLog(IdleAppend(z, e));
    WakeFrame(IdleAppend(z, e));
    hide Wf, Without, WakeWaiter;
  }

  /** Who releases is counted. */
  lemma HolderCounts(s: State, a: nat)
    requires HeldInv(s.pool.table, s.acqs) && At(s, a) && Outstanding(s.acqs[a]) && IsReturnOf(s, a)
    ensures s.pool.table[s.acqs[a].phase.e].refCount > 0
  {
    CountMember(s.acqs, a, Holds(s.acqs[a].phase.e));
  }

  lemma ReturnAdds(cfg: Config, s: State, a: nat)
    requires Attainable(cfg, s) && Enabled(s, Release(a))
    ensures Adds(s.pool.counters, Apply(cfg, s, Release(a)).pool.counters, false, false, false, false, false,
                 IsReturnOf(s, a))
  {
    GroundedHere(cfg, s);
    hide Attainable, Wf, CellsWf, Grounded, HeldInv, ReleaseEntry;
    ReleaseAdds(s.pool, s.acqs[a].phase.e, s.now);
    if IsReturnOf(s, a) {
      HolderCounts(s, a);
    }
  }

  // --- sweep and drain ---

  lemma {:induction false} WalkAdds(p: Pool, nodes: seq<nat>, cutoff: int)
    requires Wf(p) && forall i :: 0 <= i < |nodes| ==> nodes[i] < |p.table|
    ensures AddsNone(p.counters, SweepWalk(p, nodes, cutoff).counters)
    decreases |nodes|
  {
    hide Wf, Evict, WakeWaiter;
    if nodes != [] && p.table[nodes[0]].lastReleasedAt <= cutoff {
      if IsPending(p, p.table[nodes[0]].key) {
        WalkAdds(p, nodes[1..], cutoff);
      } else {
        WfEvictWake(p, nodes[0]);
        EvictAdds(p, nodes[0]);
        WalkAdds(WakeWaiter(Evict(p, nodes[0])), nodes[1..], cutoff);
      }
    }
  }

  lemma EvictAdds(p: Pool, v: nat)
    requires v < |p.table| && Wf(p)
    ensures Wf(Evict(p, v)) && AddsNone(p.counters, WakeWaiter(Evict(p, v)).counters)
  {
    WfEvictWake(p, v);
    HeadInLog(Evict(p, v));
    WakeFrame(Evict(p, v));
    hide Wf, WakeWaiter;
  }

  lemma SweepAdds(p: Pool, cfg: Config, now: int)
    requires Wf(p)
    ensures AddsNone(p.counters, Sweep(p, cfg, now).counters)
  {
    hide SweepWalk;
    WalkAdds(p, p.idle, now - cfg.idleTtlMs);
  }

  lemma DrainAdds(p: Pool)
    requires Wf(p)
    ensures AddsNone(p.counters, Drain(p).counters)
  {
    WfClose(p.(closed := true));
    var q := CloseWaiters(p.(closed := true));
    WfDrainEntries(q, q.entries.Keys);
    hide CloseWaiters, Outside, Held, Wf;
  }

  // --- the rest ---

  lemma CreateAdds(p: Pool, k: Key, now: int)
    requires Wf(p)
    ensures Adds(p.counters, FactoryDone(p, k, now).0.counters, !p.closed, false, false, false, false, false)
    ensures ReleaseReservation(p).counters == p.counters
  {
    HeadInLog(p);
    WakeFrame(p.(reserved := p.reserved - 1));
    InsertForm(p, k, now);
    hide WakeWaiter, InsertCreated, Wf;
  }

  lemma CallAdds(cfg: Config, s: State, k: Key)
    requires Enabled(s, Call(k))
    ensures var t := Apply(cfg, s, Call(k));
      && IsHit(s, Call(k), t) == IsCheckout(s, Call(k), t)
      && Adds(s.pool.counters, t.pool.counters, false, false, IsHit(s, Call(k), t), false, IsHit(s, Call(k), t), false)
  {
    hide Wf, CellsWf, Enter, Without;
  }

  lemma FinishAdds(cfg: Config, s: State, a: nat)
    requires Enabled(s, Finish(a))
    ensures var t := Apply(cfg, s, Finish(a));
      Adds(s.pool.counters, t.pool.counters, false, false, false, false, IsCheckout(s, Finish(a), t), false)
  {
    hide Wf, CellsWf, Settled, Without;
  }

  lemma OtherAdds(cfg: Config, s: State, step: Step)
    requires Enabled(s, step) && !step.Begin? && !step.Replaced? && !step.Resumed? && !step.Release?
    requires !step.ReleaseKey? && !step.Call? && !step.Finish?
    ensures var t := Apply(cfg, s, step);
      Adds(s.pool.counters, t.pool.counters, step.CreateDone? && !s.pool.closed, step.DisposeDone?,
           IsHit(s, step, t), false, false, false)
  {
    ReadyIsWf(s);
    hide Wf, CellsWf, Settle, Sweep, Drain, Waits, FactoryDone, ReleaseReservation, GcCells, Droppable, EndDisposal;
    match step {
      case ValidateDone(a, ok) => ValidatedAdds(s.pool, s.acqs[a].phase.e, ok);
      case CreateDone(a) => CreateAdds(s.pool, s.acqs[a].key, s.now);
      case CreateFail(a) => CreateAdds(s.pool, s.acqs[a].key, s.now);
      case Timeout(w) => TimeoutEvicts(s.pool, w);
      case SweepTimer => SweepAdds(s.pool, cfg, s.now);
      case DrainStart => DrainAdds(s.pool);
      case _ =>
    }
  }

  lemma ValidatedAdds(p: Pool, e: nat, ok: bool)
    requires e < |p.table|
    ensures Adds(p.counters, Validated(p, e, ok).0.counters, false, false, ok, false, false, false)
  {
    hide Without;
  }

  /** On every run each counter but that of the evictions counts exactly what its name says, and each step adds
      at most one to it. */
  lemma StatisticsAreExact(cfg: Config, s: State, step: Step)
    requires Attainable(cfg, s) && Enabled(s, step)
    ensures var t := Apply(cfg, s, step);
      Adds(s.pool.counters, t.pool.counters, step.CreateDone? && !s.pool.closed, step.DisposeDone?,
           IsHit(s, step, t), IsMiss(s, step), IsCheckout(s, step, t), IsReturn(s, step))
  {
    hide Attainable, Enabled, Apply;
    match step {
      case Begin(_) => ObtainStepAdds(cfg, s, step);
      case Replaced(_) => ObtainStepAdds(cfg, s, step);
      case Resumed(_) => ObtainStepAdds(cfg, s, step);
      case Release(a) => ReturnAdds(cfg, s, a);
      case ReleaseKey(k, a) =>
        ReleaseKeyIsRelease(cfg, s, k, a);
        ReturnAdds(cfg, s, a);
      case Call(k) => CallAdds(cfg, s, k);
      case Finish(a) => FinishAdds(cfg, s, a);
      case _ => OtherAdds(cfg, s, step);
    }
  }
}
