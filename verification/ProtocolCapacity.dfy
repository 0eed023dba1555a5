/** The ceiling: entries, orphans and reservations together never exceed max, whatever the
    interleaving, as long as start() never finds an orphan. */
module ProtocolCapacity {
  import opened Counting
  import opened PoolModel
  import opened PoolInvariant
  import opened PoolBulk
  import opened MutexModel
  import opened AwaitModel
  import opened Protocol
  import opened ProtocolMutex
  import opened ProtocolPhases
  import opened ProtocolCounts
  import opened ProtocolInvariant
  import opened ProtocolSteps

  function Load(p: Pool): int { |p.entries| + |p.orphans| + p.reserved }

  /** An open pool holds nothing that a drain has condemned. */
  predicate Clean(p: Pool) {
    !p.closed ==> forall e :: 0 <= e < |p.table| && p.table[e].life.Live? ==> !p.table[e].condemned
  }

  /** An open pool has no orphans, so that the capacity gate, which does not count them, is right. */
  predicate CapInv(cfg: Config, p: Pool) {
    (!p.closed ==> p.orphans == map[]) && (cfg.max >= 1 ==> Load(p) <= cfg.max)
  }

  /** Nothing gets heavier, and nothing is orphaned. */
  predicate Lighter(p: Pool, q: Pool) {
    Load(q) <= Load(p) && q.orphans.Keys <= p.orphans.Keys && q.closed == p.closed
  }

  lemma LighterKeeps(cfg: Config, p: Pool, q: Pool)
    requires CapInv(cfg, p) && Lighter(p, q)
    ensures CapInv(cfg, q)
  {
    assert p.orphans == map[] ==> q.orphans.Keys == {};
  }

  lemma LighterTwice(p: Pool, q: Pool, r: Pool)
    requires Lighter(p, q) && Lighter(q, r)
    ensures Lighter(p, r)
  {
  }

  /** Same keys, same gate. */
  lemma LighterFields(p: Pool, q: Pool)
    requires q.entries == p.entries && q.orphans == p.orphans && q.reserved <= p.reserved && q.closed == p.closed
    requires q.table == p.table
    ensures Lighter(p, q)
  {
  }

  lemma NoOrphansWhenOpen(p: Pool, now: int)
    requires PoolInv(p, now) && Clean(p) && !p.closed
    ensures p.orphans == map[]
  {
    ResidentsLive(p, now);
    assert p.orphans.Keys == {};
  }

  lemma EvictLighter(p: Pool, v: nat)
    requires IsLive(p, v)
    ensures Lighter(p, Evict(p, v)) && Load(Evict(p, v)) == Load(p) - 1
    ensures Lighter(p, Displace(p, v))
  {
    assert |p.entries - {p.table[v].key}| == |p.entries| - 1 by {
      assert p.entries.Keys == (p.entries - {p.table[v].key}).Keys + {p.table[v].key};
    }
  }

  lemma FreeIsLive(p: Pool, now: int)
    requires PoolInv(p, now)
    ensures Wf(p) && (FirstFree(p, p.idle).Some? ==> IsLive(p, FirstFree(p, p.idle).value))
  {
    InvIsWf(p, now);
    FirstFreeIs(p, p.idle);
  }

  lemma SlotCap(cfg: Config, p: Pool, now: int)
    requires PoolInv(p, now) && CapInv(cfg, p)
    ensures Wf(p) && CapInv(cfg, SlotStep(p, cfg).0)
  {
    hide PoolInv, Lighter, Evict, Displace, Wf;
    FreeIsLive(p, now);
    var v := FirstFree(p, p.idle);
    if cfg.max <= 0 || p.closed || |p.entries| + p.reserved < cfg.max {
    } else if v.Some? {
      EvictLighter(p, v.value);
      LighterKeeps(cfg, p, Displace(p, v.value));
    }
  }

  lemma MissCap(cfg: Config, p: Pool, k: Key, now: int)
    requires PoolInv(p, now) && CapInv(cfg, p) && k !in p.entries
    ensures Wf(p) && CapInv(cfg, ObtainMiss(p, cfg, k).0)
  {
    hide PoolInv, SlotStep, Wf, KeysOk;
    ResidentsLive(p, now);
    if k in p.orphans {
      ResurrectWeight(p, k);
      assert p.orphans != map[];
    } else if !p.closed {
      var z := p.(counters := p.counters.(misses := p.counters.misses + 1));
      OtherFields(p, z, now);
      SlotCap(cfg, z, now);
    }
  }

  lemma ResurrectWeight(p: Pool, k: Key)
    requires k in p.orphans && k !in p.entries
    ensures |p.orphans - {k}| == |p.orphans| - 1 && |p.entries[k := p.orphans[k]]| == |p.entries| + 1
  {
    assert p.orphans.Keys == (p.orphans - {k}).Keys + {k};
  }

  lemma RemoveLighter(p: Pool, e: nat)
    requires e < |p.table|
    ensures Lighter(p, Dispose(RemoveEntry(p, e), e))
  {
    KeysShrink(p.entries, {p.table[e].key});
    KeysShrink(p.orphans, {p.table[e].key});
  }

  lemma KeysShrink(m: Ids, ks: set<Key>)
    ensures |m - ks| <= |m|
  {
    KeysSubset(m - ks, m);
  }

  lemma KeysSubset(m: Ids, n: Ids)
    requires m.Keys <= n.Keys
    ensures |m| <= |n|
  {
    SetSize(m.Keys, n.Keys);
  }

  lemma {:induction false} SetSize(a: set<Key>, b: set<Key>)
    requires a <= b
    ensures |a| <= |b|
  {
    assert b == a + (b - a);
  }

  lemma DropLighter(p: Pool, e: nat, now: int)
    requires e < |p.table|
    ensures Lighter(p, DropLast(p, e, now)) && |DropLast(p, e, now).table| == |p.table|
    ensures p.table[e].refCount > 0 ==> Lighter(p, DropShared(p, e))
    ensures DropLast(p, e, now).log == p.log && DropLast(p, e, now).queue == p.queue
  {
  }

  lemma AppendLighter(p: Pool, e: nat)
    requires e < |p.table|
    ensures Lighter(p, IdleAppend(p, e)) && IdleAppend(p, e).log == p.log && IdleAppend(p, e).queue == p.queue
  {
  }

  lemma WakeLighter(p: Pool)
    requires QueueOk(p.log, p.queue)
    ensures p.queue != [] ==> p.queue[0] < |p.log|
    ensures Lighter(p, WakeWaiter(p))
  {
    WakeSettlesAll(p);
  }

  lemma ReleaseLighter(p: Pool, e: nat, now: int)
    requires PoolInv(p, now) && e < |p.table|
    ensures Wf(p) && Lighter(p, ReleaseEntry(p, e, now))
  {
    hide PoolInv, Lighter, IdleAppend, WakeWaiter, DropLast, DropShared, RemoveEntry, Dispose, Wf;
    InvIsWf(p, now);
    QueueOf(p, now);
    DropLighter(p, e, now);
    LighterFields(p, p);
    if p.table[e].refCount == 1 && !p.table[e].life.Disposed? {
      var z := DropLast(p, e, now);
      if p.table[e].condemned || IsOrphan(p, e) {
        InvalidSettles(z, e);
        RemoveLighter(z, e);
        LighterTwice(p, z, Dispose(RemoveEntry(z, e), e));
      } else {
        var y := IdleAppend(z, e);
        AppendLighter(z, e);
        LighterTwice(p, z, y);
        WakeLighter(y);
        LighterTwice(p, y, WakeWaiter(y));
      }
    }
  }

  lemma SweepLighter(cfg: Config, p: Pool, now: int)
    requires PoolInv(p, now)
    ensures Wf(p) && Lighter(p, Sweep(p, cfg, now))
  {
    hide PoolInv, Lighter, SweepWalk, SweptTo, Wf;
    InvIsWf(p, now);
    LighterFields(p, p);
    if cfg.idleTtlMs != 0 {
      IdleInTable(p);
      SweepIsFilter(p, [], p.idle, now - cfg.idleTtlMs, now);
      SweptLighter(p, now - cfg.idleTtlMs, Sweep(p, cfg, now));
    }
  }

  lemma SweptLighter(p: Pool, cutoff: int, q: Pool)
    requires Wf(p) && SweptTo(p, [], p.idle, cutoff, q)
    ensures Lighter(p, q)
  {
    KeysSubset(q.entries, p.entries);
  }

  lemma DrainCap(cfg: Config, p: Pool, now: int)
    requires PoolInv(p, now) && CapInv(cfg, p)
    ensures Wf(p) && CapInv(cfg, Drain(p))
  {
    hide PoolInv, Drain, DrainedPool;
    DrainForm(p, now);
    DrainWeight(p, Drain(p).log);
  }

  lemma DrainWeight(p: Pool, log: seq<WaiterState>)
    requires Wf(p)
    ensures Load(DrainedPool(p, log)) <= Load(p) && DrainedPool(p, log).closed
  {
    var held := Held(p, p.entries.Keys);
    KeysSubset(held, p.entries);
    assert (p.orphans + held).Keys == p.orphans.Keys + held.Keys;
    assert |p.orphans.Keys + held.Keys| <= |p.orphans.Keys| + |held.Keys|;
  }

  lemma InsertCap(cfg: Config, p: Pool, k: Key, now: int)
    requires Wf(p) && CapInv(cfg, p) && k !in p.entries
    ensures CapInv(cfg, InsertCreated(p, k, now))
  {
    hide InsertCreated;
    InsertForm(p, k, now);
  }

  predicate NothingResident(p: Pool) { p.entries == map[] && p.orphans == map[] }

  /** start() finds an open pool, which it leaves as it is, or one in which nothing is left. */
  predicate StartFresh(s: State, step: Step) { step.Start? ==> !s.pool.closed || NothingResident(s.pool) }

  lemma FreshStart(cfg: Config, s: State)
    requires Inv(cfg, s) && CapInv(cfg, s.pool) && StartFresh(s, Start)
    ensures s.pool.orphans == map[]
    ensures Clean(s.pool) ==> Clean(s.pool.(closed := false))
  {
    if s.pool.closed {
      DrainsOf(cfg, s);
      NothingLives(s.pool, s.now);
    }
  }

  lemma NothingLives(p: Pool, now: int)
    requires PoolInv(p, now) && NothingResident(p)
    ensures forall e :: 0 <= e < |p.table| ==> !p.table[e].life.Live?
  {
    forall e | 0 <= e < |p.table| ensures !p.table[e].life.Live? {
      assert RecOk(p.table, p.entries, p.orphans, e);
    }
  }

  lemma SamePoolWeight(cfg: Config, p: Pool, q: Pool)
    requires CapInv(cfg, p)
    requires q.entries == p.entries && q.orphans == p.orphans && q.reserved <= p.reserved && q.closed == p.closed
    requires |q.table| == |p.table|
    requires forall e :: 0 <= e < |p.table| ==>
      (q.table[e].life.Live? ==> p.table[e].life.Live?) && q.table[e].condemned == p.table[e].condemned
    ensures CapInv(cfg, q)
  {
  }

  lemma WakeCap(cfg: Config, p: Pool)
    requires QueueOk(p.log, p.queue) && CapInv(cfg, p)
    ensures p.queue != [] ==> p.queue[0] < |p.log|
    ensures CapInv(cfg, WakeWaiter(p.(reserved := p.reserved - 1)))
  {
    hide WakeWaiter;
    WakeSettlesAll(p.(reserved := p.reserved - 1));
  }

  /** The steps inside an acquire. */
  predicate OfAcquire(step: Step) {
    step.Begin? || step.ValidateDone? || step.Replaced? || step.Resumed? || step.CreateDone? || step.CreateFail?
  }

  lemma AcquireKeepsCap(cfg: Config, s: State, step: Step)
    requires Inv(cfg, s) && CapInv(cfg, s.pool) && Enabled(s, step) && OfAcquire(step)
    ensures CapInv(cfg, Apply(cfg, s, step).pool)
  {
    hide Inv, PoolInv, Wf, CellsWf, CapInv, SlotStep, InsertCreated, WakeWaiter, Validated, PendingOk, PhaseInv,
         DrainInv;
    DrainsOf(cfg, s);
    PoolAlive(cfg, s);
    var p := s.pool;
    match step {
      case Begin(a) =>
        if s.acqs[a].key in p.entries {
          HitCap(cfg, p);
        } else {
          MissCap(cfg, p, s.acqs[a].key, s.now);
        }
      case ValidateDone(a, ok) => ValidatedCap(cfg, p, s.acqs[a].phase.e, ok);
      case Replaced(a) =>
        About(cfg, s, a);
        MissCap(cfg, p, s.acqs[a].key, s.now);
      case Resumed(a) => SlotCap(cfg, p, s.now);
      case CreateDone(a) =>
        About(cfg, s, a);
        QueueOf(p, s.now);
        WakeCap(cfg, p);
        InsertCap(cfg, p, s.acqs[a].key, s.now);
      case CreateFail(a) =>
        QueueOf(p, s.now);
        WakeCap(cfg, p);
    }
  }

  /** Every step keeps the ceiling. */
  lemma StepKeepsCap(cfg: Config, s: State, step: Step)
    requires Inv(cfg, s) && CapInv(cfg, s.pool) && Enabled(s, step)
    requires step.Start? ==> s.pool.orphans == map[]
    ensures CapInv(cfg, Apply(cfg, s, step).pool)
  {
    hide Inv, PoolInv, Wf, CellsWf, CapInv, ReleaseEntry, Sweep, Drain;
    hide ObtainStart, ObtainMiss, Resume, FactoryDone, ReleaseReservation, CreateStartStep;
    hide Settle, Enter, Settled, GcCells, Validated, ReleaseStep, ReleaseByKey, FinishStep, CallStep,
         PendingOk, PhaseInv, DrainInv, Droppable, Waits, DrainsDone;
    DrainsOf(cfg, s);
    if OfAcquire(step) {
      AcquireKeepsCap(cfg, s, step);
    } else {
      match step {
        case Call(k) => CallCap(cfg, s, k);
        case Finish(a) => FinishCap(cfg, s, a);
        case Release(a) => ReleaseCap(cfg, s, a);
        case ReleaseKey(k, a) =>
          ReleaseKeyIsRelease(cfg, s, k, a);
          ReleaseCap(cfg, s, a);
        case Timeout(w) => TimeoutCap(cfg, s.pool, w);
        case SweepTimer =>
          SweepLighter(cfg, s.pool, s.now);
          LighterKeeps(cfg, s.pool, Sweep(s.pool, cfg, s.now));
        case DisposeDone(e) => DisposeCap(cfg, s.pool, e);
        case DrainStart => DrainCap(cfg, s.pool, s.now);
        case Start => StartCap(cfg, s.pool);
        case CreateStart(a) => CreateStartPool(cfg, s, a);
        case _ =>
      }
    }
  }

  lemma StartCap(cfg: Config, p: Pool)
    requires CapInv(cfg, p) && p.orphans == map[]
    ensures CapInv(cfg, p.(closed := false))
  {
  }

  lemma CreateStartPool(cfg: Config, s: State, a: nat)
    requires At(s, a)
    ensures CreateStartStep(s, cfg, a).pool == s.pool
  {
  }

  lemma ValidatedCap(cfg: Config, p: Pool, e: nat, ok: bool)
    requires e < |p.table| && CapInv(cfg, p)
    ensures CapInv(cfg, Validated(p, e, ok).0)
  {
    HitCap(cfg, p);
    RemoveLighter(p, e);
    hide Hit, RemoveEntry;
    LighterKeeps(cfg, p, Dispose(RemoveEntry(p, e), e));
  }

  lemma ReleaseCap(cfg: Config, s: State, a: nat)
    requires Inv(cfg, s) && CapInv(cfg, s.pool) && Enabled(s, Release(a))
    ensures CapInv(cfg, Apply(cfg, s, Release(a)).pool)
  {
    hide Inv, PoolInv, CapInv, ReleaseEntry, Wf, CellsWf;
    DrainsOf(cfg, s);
    ReleaseLighter(s.pool, s.acqs[a].phase.e, s.now);
    LighterKeeps(cfg, s.pool, ReleaseEntry(s.pool, s.acqs[a].phase.e, s.now));
  }

  lemma HitCap(cfg: Config, p: Pool)
    requires CapInv(cfg, p)
    ensures CapInv(cfg, Hit(p))
  {
  }

  lemma CallCap(cfg: Config, s: State, k: Key)
    requires Ready(s) && CapInv(cfg, s.pool)
    ensures CapInv(cfg, CallStep(s, k).pool)
  {
    SamePoolWeight(cfg, s.pool, AcquirePrefix(s.pool, k).0);
    hide CapInv, Enter, AcquirePrefix;
  }

  lemma FinishCap(cfg: Config, s: State, a: nat)
    requires Enabled(s, Finish(a)) && CapInv(cfg, s.pool)
    ensures CapInv(cfg, FinishStep(s, a).pool)
  {
    hide Settled;
    if s.acqs[a].phase.Resolved? {
      FinishCheckedOut(s.pool, s.acqs[a].key, s.acqs[a].phase.e);
      hide FinishOk;
      FinishGate(s.pool, s.acqs[a].key, s.acqs[a].phase.e);
    }
  }

  lemma FinishGate(p: Pool, k: Key, e: nat)
    requires e < |p.table|
    ensures FinishOk(p, e, k).reserved == p.reserved
  {
  }

  lemma TimeoutCap(cfg: Config, p: Pool, w: nat)
    requires w < |p.log| && CapInv(cfg, p)
    ensures CapInv(cfg, Settle(p, w, TimedOut))
  {
  }

  lemma DisposeCap(cfg: Config, p: Pool, e: nat)
    requires e < |p.table| && CapInv(cfg, p)
    ensures CapInv(cfg, FinishDispose(p, e))
  {
  }

  /** Every start() in the run finds no orphan: live == keys in getStats. */
  predicate StartsClear(cfg: Config, s: State, steps: seq<Step>)
    requires Run(cfg, s, steps)
    decreases |steps|
  {
    steps != [] ==>
      (steps[0].Start? ==> s.pool.orphans == map[]) && StartsClear(cfg, Apply(cfg, s, steps[0]), steps[1..])
  }

  lemma {:induction false} RunKeepsCap(cfg: Config, s: State, steps: seq<Step>)
    requires Inv(cfg, s) && CapInv(cfg, s.pool) && SafeRun(cfg, s, steps)
    requires Run(cfg, s, steps) && StartsClear(cfg, s, steps)
    ensures Inv(cfg, End(cfg, s, steps)) && CapInv(cfg, End(cfg, s, steps).pool)
    decreases |steps|
  {
    hide Inv, CapInv, Enabled, Safe, Apply;
    if steps != [] {
      StepKeeps(cfg, s, steps[0]);
      StepKeepsCap(cfg, s, steps[0]);
      RunKeepsCap(cfg, Apply(cfg, s, steps[0]), steps[1..]);
    }
  }

  // --- cleanliness ---

  lemma AgingKeepsClean(p: Pool, q: Pool)
    requires Clean(p) && Aging(p, q)
    ensures Clean(q)
  {
  }

  lemma MissAges(cfg: Config, p: Pool, k: Key)
    requires Wf(p)
    ensures Aging(p, ObtainMiss(p, cfg, k).0)
  {
    hide SlotStep, Wf;
    var z := p.(counters := p.counters.(misses := p.counters.misses + 1));
    WfCounters(p, z);
    SlotAges(z, cfg);
  }

  /** The steps inside an acquire condemn nothing and bring nothing back. */
  lemma AcquireAges(cfg: Config, s: State, step: Step)
    requires Inv(cfg, s) && Enabled(s, step) && OfAcquire(step)
    ensures Aging(s.pool, Apply(cfg, s, step).pool)
  {
    hide Inv, PoolInv, Wf, CellsWf, SlotStep, InsertCreated, ReleaseReservation, RemoveEntry, Dispose, ObtainMiss,
         Aging;
    hide PendingOk, PhaseInv, DrainInv;
    DrainsOf(cfg, s);
    PoolAlive(cfg, s);
    var p := s.pool;
    StillAges(p);
    match step {
      case Begin(a) => MissAges(cfg, p, s.acqs[a].key);
      case ValidateDone(a, ok) => InvalidSettles(p, s.acqs[a].phase.e);
      case Replaced(a) => MissAges(cfg, p, s.acqs[a].key);
      case Resumed(a) => SlotAges(p, cfg);
      case CreateDone(a) =>
        ReserveReleased(p, s.now);
        if !p.closed {
          InsertEffects(p, s.acqs[a].key, s.now);
        }
      case CreateFail(a) => ReserveReleased(p, s.now);
    }
  }

  lemma StillAges(p: Pool)
    ensures Aging(p, p) && Aging(p, Hit(p))
  {
  }

  lemma CheckedOutAges(p: Pool, q: Pool, e: nat)
    requires CheckedOut(p, q, e)
    ensures Aging(p, q)
  {
  }

  lemma StepKeepsClean(cfg: Config, s: State, step: Step)
    requires Inv(cfg, s) && CapInv(cfg, s.pool) && Clean(s.pool) && Enabled(s, step) && StartFresh(s, step)
    ensures Clean(Apply(cfg, s, step).pool)
  {
    hide Inv, PoolInv, Wf, CellsWf, CapInv, Clean, Aging, ReleaseEntry, Sweep, Drain;
    hide ObtainStart, ObtainMiss, Resume, FactoryDone, ReleaseReservation;
    hide Settle, Enter, Settled, GcCells, Validated, PendingOk, PhaseInv, DrainInv, Droppable, Waits, DrainsDone,
         FinishOk, Checkout, DecPending, CheckedOut, FinishDispose;
    DrainsOf(cfg, s);
    StillAges(s.pool);
    if OfAcquire(step) {
      AcquireAges(cfg, s, step);
      AgingKeepsClean(s.pool, Apply(cfg, s, step).pool);
    } else if step.DrainStart? {
      DrainEffects(s.pool, s.now);
      ClosedIsClean(Drain(s.pool));
    } else if step.Start? {
      FreshStart(cfg, s);
    } else if step.DisposeDone? {
      DisposedIsClean(s.pool, step.e);
    } else {
      OtherAges(cfg, s, step);
      AgingKeepsClean(s.pool, Apply(cfg, s, step).pool);
    }
  }

  lemma ClosedIsClean(p: Pool)
    ensures p.closed ==> Clean(p)
  {
  }

  lemma OtherAges(cfg: Config, s: State, step: Step)
    requires Inv(cfg, s) && Enabled(s, step) && !OfAcquire(step) && !step.DrainStart?
    requires !step.Start? && !step.DisposeDone?
    ensures Aging(s.pool, Apply(cfg, s, step).pool)
  {
    hide Inv, PoolInv, Wf, CellsWf, Aging, ReleaseEntry, Sweep, Settle, Enter, Settled, GcCells, PendingOk, PhaseInv,
         DrainInv, Droppable, Waits, FinishOk, Checkout, DecPending, CheckedOut, FinishDispose, Hit;
    DrainsOf(cfg, s);
    var p := s.pool;
    StillAges(p);
    match step {
      case Call(k) => CallAges(p, k);
      case Finish(a) => FinishAges(s, a);
      case Release(a) =>
        HeldIsCounted(cfg, s, a);
        ReleaseAges(p, s.acqs[a].phase.e, s.now);
      case ReleaseKey(k, a) =>
        ReleaseKeyIsRelease(cfg, s, k, a);
        HeldIsCounted(cfg, s, a);
        ReleaseAges(p, s.acqs[a].phase.e, s.now);
      case Timeout(w) => TimeoutAges(p, w);
      case SweepTimer => SweepEffects(p, cfg, s.now);
      case CreateStart(a) => CreateStartPool(cfg, s, a);
      case _ =>
    }
  }

  lemma CallAges(p: Pool, k: Key)
    requires Wf(p)
    ensures Aging(p, AcquirePrefix(p, k).0)
  {
    if AcquirePrefix(p, k).1.Some? {
      FastCheckedOut(p, k, p.entries[k]);
      hide DecPending, Checkout, IncPending, Hit, CheckedOut;
      CheckedOutAges(p, AcquirePrefix(p, k).0, p.entries[k]);
    }
  }

  lemma FinishAges(s: State, a: nat)
    requires Enabled(s, Finish(a))
    ensures Aging(s.pool, FinishStep(s, a).pool)
  {
    hide Settled, Wf, CellsWf;
    if s.acqs[a].phase.Resolved? {
      FinishCheckedOut(s.pool, s.acqs[a].key, s.acqs[a].phase.e);
      hide FinishOk, CheckedOut;
      CheckedOutAges(s.pool, FinishOk(s.pool, s.acqs[a].phase.e, s.acqs[a].key), s.acqs[a].phase.e);
    }
  }

  lemma TimeoutAges(p: Pool, w: nat)
    requires w < |p.log|
    ensures Aging(p, Settle(p, w, TimedOut))
  {
  }

  lemma DisposedIsClean(p: Pool, e: nat)
    requires e < |p.table| && p.table[e].life.Disposing? && Clean(p)
    ensures Clean(FinishDispose(p, e))
  {
  }

  /** Every start() in the run waits for the drains. */
  predicate StartsWait(cfg: Config, s: State, steps: seq<Step>)
    requires Run(cfg, s, steps)
    decreases |steps|
  {
    steps != [] ==> StartSafe(s, steps[0]) && StartsWait(cfg, Apply(cfg, s, steps[0]), steps[1..])
  }

  /** Every start() in the run finds an open pool or nothing resident. */
  predicate StartsFresh(cfg: Config, s: State, steps: seq<Step>)
    requires Run(cfg, s, steps)
    decreases |steps|
  {
    steps != [] ==> StartFresh(s, steps[0]) && StartsFresh(cfg, Apply(cfg, s, steps[0]), steps[1..])
  }
}
