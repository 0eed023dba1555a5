/** The promises of the pool, for every state that a run of the protocol can reach. */
module ProtocolTheorems {
  import opened Counting
  import opened PoolModel
  import opened PoolInvariant
  import opened PoolBulk
  import opened PoolTheorems
  import opened MutexModel
  import opened AwaitModel
  import opened Protocol
  import opened ProtocolMutex
  import opened ProtocolPhases
  import opened ProtocolCounts
  import opened ProtocolInvariant
  import opened ProtocolSteps
  import opened ProtocolBase
  import opened PoolResidents
  import opened ProtocolResidents
  import opened ProtocolClosing
  import opened ProtocolCapacity
  import opened ProtocolWakeups
  import opened ProtocolWaiters

  /** Reached from an empty pool by steps that are safe when taken: no drain while an idle entry is
      chosen, no last release of a condemned entry while an acquire is about to check it out. */
  ghost predicate Reachable(cfg: Config, s: State) {
    exists now, steps :: SafeRun(cfg, Init(now), steps) && Run(cfg, Init(now), steps) && s == End(cfg, Init(now), steps)
  }

  /** And every start() found no orphan. */
  ghost predicate ReachableClear(cfg: Config, s: State) {
    exists now, steps :: SafeRun(cfg, Init(now), steps) && Run(cfg, Init(now), steps)
      && StartsClear(cfg, Init(now), steps) && s == End(cfg, Init(now), steps)
  }

  /** And every start() was fresh, and every acquire whose validate threw left without harm. */
  ghost predicate ReachableCarefully(cfg: Config, s: State) {
    exists now, steps :: SafeRun(cfg, Init(now), steps) && Run(cfg, Init(now), steps)
      && CarefulRun(cfg, Init(now), steps) && s == End(cfg, Init(now), steps)
  }

  lemma ReachableInv(cfg: Config, s: State)
    requires Reachable(cfg, s)
    ensures Inv(cfg, s)
  {
    hide Inv;
    var now, steps :| SafeRun(cfg, Init(now), steps) && Run(cfg, Init(now), steps) && s == End(cfg, Init(now), steps);
    InitInv(cfg, now);
    RunKeeps(cfg, Init(now), steps);
  }

  lemma ReachableCap(cfg: Config, s: State)
    requires ReachableClear(cfg, s)
    ensures Inv(cfg, s) && CapInv(cfg, s.pool)
  {
    hide Inv;
    var now, steps :| SafeRun(cfg, Init(now), steps) && Run(cfg, Init(now), steps)
      && StartsClear(cfg, Init(now), steps) && s == End(cfg, Init(now), steps);
    InitInv(cfg, now);
    RunKeepsCap(cfg, Init(now), steps);
  }

  lemma ReachableLively(cfg: Config, s: State)
    requires ReachableCarefully(cfg, s)
    ensures Lively(cfg, s) && CapInv(cfg, s.pool)
  {
    hide Inv;
    var now, steps :| SafeRun(cfg, Init(now), steps) && Run(cfg, Init(now), steps)
      && CarefulRun(cfg, Init(now), steps) && s == End(cfg, Init(now), steps);
    InitInv(cfg, now);
    RunKeepsLively(cfg, Init(now), steps);
  }

  // --- capacity ---

  /** The hard ceiling over whole runs, and what a reservation is. */
  lemma CapacityCeiling(cfg: Config, s: State)
    requires ReachableClear(cfg, s) && cfg.max >= 1
    ensures |s.pool.entries| + |s.pool.orphans| + Count(s.acqs, IsReserving()) <= cfg.max
    ensures s.pool.reserved == Count(s.acqs, IsReserving())
  {
    ReachableCap(cfg, s);
  }

  /** On every run: a start() that waits for every drain finds an open pool or nothing resident, and no
      orphan in either case. */
  lemma {:induction false} WaitingIsFresh(cfg: Config, s: State, steps: seq<Step>)
    requires Attainable(cfg, s) && (s.pool.closed || s.pool.orphans == map[])
    requires Run(cfg, s, steps) && StartsWait(cfg, s, steps)
    ensures StartsFresh(cfg, s, steps) && StartsClear(cfg, s, steps)
    decreases |steps|
  {
    hide Attainable, Enabled, Apply, DrainsDone;
    if steps != [] {
      if steps[0].Start? && s.pool.closed {
        WaitingFindsNothing(cfg, s);
      }
      OpenStaysClear(cfg, s, steps[0]);
      AttainableStep(cfg, s, steps[0]);
      WaitingIsFresh(cfg, Apply(cfg, s, steps[0]), steps[1..]);
    }
  }

  /** Only a drain makes orphans, and it closes the pool. */
  lemma OpenStaysClear(cfg: Config, s: State, step: Step)
    requires Enabled(s, step) && (s.pool.closed || s.pool.orphans == map[])
    requires step.Start? ==> s.pool.orphans == map[]
    ensures Apply(cfg, s, step).pool.closed || Apply(cfg, s, step).pool.orphans == map[]
  {
    hide Enabled, Apply, Narrows;
    if step.DrainStart? {
      DrainShuts(cfg, s);
    } else if step.Start? {
      StartOrphans(cfg, s);
    } else {
      StepNarrows(cfg, s, step);
      NoneFromNone(s.pool, Apply(cfg, s, step).pool);
    }
  }

  lemma DrainShuts(cfg: Config, s: State)
    requires Enabled(s, DrainStart)
    ensures Apply(cfg, s, DrainStart).pool.closed
  {
    ReadyIsWf(s);
    hide Drain, Wf, CellsWf, Waits;
    DrainCloses(s.pool);
  }

  lemma StartOrphans(cfg: Config, s: State)
    requires Enabled(s, Start)
    ensures Apply(cfg, s, Start).pool.orphans == s.pool.orphans
  {
  }

  lemma NoneFromNone(p: Pool, q: Pool)
    requires Narrows(p, q) && (p.closed || p.orphans == map[])
    ensures q.closed || q.orphans == map[]
  {
    if !p.closed {
      assert q.orphans.Keys == {};
    }
  }

  /** Without a bound the counter of reservations only falls: it is right exactly as long as nothing
      was created, nothing failed and nobody is at the factory. */
  lemma UnboundedReservations(cfg: Config, s: State)
    requires Attainable(cfg, s) && cfg.max <= 0
    ensures s.pool.reserved == -(s.pool.counters.created + s.failed)
    ensures s.pool.reserved == Count(s.acqs, IsReserving())
        <==> s.pool.counters.created == 0 && s.failed == 0 && Count(s.acqs, IsReserving()) == 0
  {
    AttainableBase(cfg, s);
  }

  // --- no lost wake-up ---

  /** Keys of idle entries that an acquire in flight is about to use. */
  function Wanted(p: Pool): set<Key>
    requires Wf(p)
  {
    set k | k in p.entries && p.table[p.entries[k]].refCount == 0 && IsPending(p, k)
  }

  lemma IdleSplit(p: Pool, now: int)
    requires PoolInv(p, now)
    ensures Wf(p) && |p.idle| == |Avail(p)| + |Wanted(p)|
  {
    hide PoolInv, IsPending;
    IdleCount(p, now);
    assert IdleKeys(p) == Avail(p) + Wanted(p);
  }

  /** While an acquire is parked, free slots and idle entries are covered by waiters already woken,
      by idle entries that an acquire is about to use, and by acquires replacing an invalid entry. */
  lemma NoLostWakeup(cfg: Config, s: State, a: nat)
    requires ReachableCarefully(cfg, s) && cfg.max >= 1 && !s.pool.closed && IsWaiting(s, a)
    ensures Wf(s.pool)
    ensures cfg.max - |s.pool.entries| - s.pool.reserved + |s.pool.idle|
         <= Count(s.acqs, WokenIn(s.pool.log)) + |Wanted(s.pool)| + Count(s.acqs, IsReplacing())
  {
    ReachableLively(cfg, s);
    DrainsOf(cfg, s);
    hide Inv;
    IdleSplit(s.pool, s.now);
    assert s.acqs[a].phase.w in s.pool.queue;
  }

  /** An acquire that only another acquire's release, failure or timeout can help. */
  predicate IsStuck(s: State, a: nat) {
    IsWaiting(s, a) || (a < |s.acqs| && (s.acqs[a].phase.Reserved? || s.acqs[a].phase.Creating?))
  }

  /** If whoever is in flight is parked or at the factory, then every slot is an entry in use or a
      reservation: nobody waits next to a slot that is free or could be freed. */
  lemma NobodyWaitsInVain(cfg: Config, s: State, a: nat)
    requires ReachableCarefully(cfg, s) && cfg.max >= 1 && !s.pool.closed && IsWaiting(s, a)
    requires forall b :: 0 <= b < |s.acqs| && Active(s.acqs[b]) ==> IsStuck(s, b)
    ensures |s.pool.entries| + Count(s.acqs, IsReserving()) == cfg.max
    ensures forall k :: k in s.pool.entries ==>
      s.pool.entries[k] < |s.pool.table| && s.pool.table[s.pool.entries[k]].refCount > 0
  {
    NoLostWakeup(cfg, s, a);
    ReachableLively(cfg, s);
    DrainsOf(cfg, s);
    ReservationsAre(cfg, s);
    hide Lively, Inv, PoolInv, PhaseInv, PendingOk, DrainInv, IsStuck, ReachableCarefully, Wanted;
    NobodyComes(s);
    NobodyWants(s);
    IdleSplit(s.pool, s.now);
    NoneIdle(s.pool, s.now);
  }

  lemma ReservationsAre(cfg: Config, s: State)
    requires Inv(cfg, s) && CapInv(cfg, s.pool) && cfg.max >= 1
    ensures s.pool.reserved == Count(s.acqs, IsReserving()) && |s.pool.entries| + s.pool.reserved <= cfg.max
  {
  }

  lemma NobodyComes(s: State)
    requires forall b :: 0 <= b < |s.acqs| && Active(s.acqs[b]) ==> IsStuck(s, b)
    ensures Count(s.acqs, WokenIn(s.pool.log)) == 0 && Count(s.acqs, IsReplacing()) == 0
  {
    CountNone(s.acqs, WokenIn(s.pool.log));
    CountNone(s.acqs, IsReplacing());
  }

  lemma NoneIdle(p: Pool, now: int)
    requires PoolInv(p, now)
    ensures Wf(p) && (p.idle == [] ==> forall k :: k in p.entries ==> p.table[p.entries[k]].refCount > 0)
  {
    InvIsWf(p, now);
  }

  lemma NobodyWants(s: State)
    requires Wf(s.pool) && PendingOk(s.pool, s.acqs) && PhaseInv(s.pool, s.acqs)
    requires forall b :: 0 <= b < |s.acqs| && Active(s.acqs[b]) ==> IsStuck(s, b)
    ensures Wanted(s.pool) == {}
  {
    forall k | k in s.pool.entries ensures !IsPending(s.pool, k) {
      assert Pending(s.pool, k) == Count(s.acqs, ActiveOn(k));
      if IsPending(s.pool, k) {
        var b := CountWitness(s.acqs, ActiveOn(k));
        StuckIsAbsent(s, b);
      }
    }
  }

  lemma StuckIsAbsent(s: State, b: nat)
    requires PhaseInv(s.pool, s.acqs) && IsStuck(s, b)
    ensures s.acqs[b].key !in s.pool.entries
  {
    assert PhaseOk(s.pool, s.acqs[b]);
  }

  // --- never yanked ---

  /** No outstanding handle refers to an entry that is being disposed, or was. */
  predicate NotYanked(s: State) {
    forall a :: 0 <= a < |s.acqs| && Outstanding(s.acqs[a]) ==>
      s.acqs[a].phase.e < |s.pool.table| && s.pool.table[s.acqs[a].phase.e].life.Live?
  }

  lemma InvNotYanked(cfg: Config, s: State)
    requires Inv(cfg, s)
    ensures NotYanked(s)
  {
    hide Inv;
    forall a | 0 <= a < |s.acqs| && Outstanding(s.acqs[a])
      ensures s.acqs[a].phase.e < |s.pool.table| && s.pool.table[s.acqs[a].phase.e].life.Live?
    {
      HeldIsCounted(cfg, s, a);
    }
  }

  /** refCount is the number of unreleased handles; what has one is resident under its key and was
      never given to the user's dispose. */
  lemma NeverYanked(cfg: Config, s: State, e: nat)
    requires Reachable(cfg, s) && e < |s.pool.table|
    ensures s.pool.table[e].refCount == Count(s.acqs, Holds(e))
    ensures Count(s.acqs, Holds(e)) > 0 ==>
      (IsLive(s.pool, e) || IsOrphan(s.pool, e)) && s.pool.table[e].life.Live? && s.pool.table[e].disposeCalls == 0
  {
    ReachableInv(cfg, s);
    assert RecOk(s.pool.table, s.pool.entries, s.pool.orphans, e);
  }

  /** All other acquires of this acquire's key are still queued. */
  predicate OnlyOneIn(s: State, a: nat)
    requires At(s, a)
  {
    forall b :: 0 <= b < |s.acqs| && b != a && Active(s.acqs[b]) && s.acqs[b].key == s.acqs[a].key ==>
      s.acqs[b].phase.Queued?
  }

  lemma RunnerIsOnly(s: State, a: nat)
    requires MutexInv(s.mx, s.acqs) && At(s, a) && Active(s.acqs[a]) && !s.acqs[a].phase.Queued?
    ensures OnlyOneIn(s, a)
  {
    forall b | 0 <= b < |s.acqs| && b != a && Active(s.acqs[b]) && s.acqs[b].key == s.acqs[a].key
      ensures s.acqs[b].phase.Queued?
    {
      if !s.acqs[b].phase.Queued? {
        Exclusion(s.mx, s.acqs, a, b);
      }
    }
  }

  /** On the idle list, held by nobody, and its key wanted by no acquire in flight. */
  predicate Unwanted(p: Pool, e: nat)
    requires e < |p.table|
  {
    e in p.idle && p.table[e].refCount == 0 && !IsPending(p, p.table[e].key)
  }

  /** Which step may take a live entry to disposal, and why nobody misses it. */
  predicate MayDispose(s: State, step: Step, e: nat)
    requires e < |s.pool.table|
  {
    match step
    case Begin(_) => Unwanted(s.pool, e)
    case Replaced(_) => Unwanted(s.pool, e)
    case Resumed(_) => Unwanted(s.pool, e)
    case SweepTimer => Unwanted(s.pool, e)
    case ValidateDone(a, ok) =>
      At(s, a) && !ok && s.acqs[a].phase == Validating(e) && s.pool.table[e].refCount == 0 && OnlyOneIn(s, a)
    case Release(a) =>
      At(s, a) && s.acqs[a].phase == Done(e, false) && s.pool.table[e].condemned && s.pool.table[e].refCount == 1
    case ReleaseKey(_, a) =>
      At(s, a) && s.acqs[a].phase == Done(e, false) && s.pool.table[e].condemned && s.pool.table[e].refCount == 1
    case DrainStart => IsLive(s.pool, e) && s.pool.table[e].refCount == 0
    case _ => false
  }

  lemma SlotDisposes(p: Pool, cfg: Config, e: nat)
    requires Wf(p) && IdleFree(p.table, p.idle) && e < |p.table|
    ensures e < |SlotStep(p, cfg).0.table|
    ensures p.table[e].life.Live? && !SlotStep(p, cfg).0.table[e].life.Live? ==> Unwanted(p, e)
  {
    FreeIsIdle(p, p.idle);
    SlotTable(p, cfg);
    hide SlotStep, Wf, FirstFree, IsPending;
  }

  lemma SlotTable(p: Pool, cfg: Config)
    requires Wf(p)
    ensures var v := FirstFree(p, p.idle); var t := SlotStep(p, cfg).0.table;
      t == p.table || (v.Some? && v.value < |p.table| && t == p.table[v.value := DisposeRec(p.table[v.value])])
  {
    FreeInTable(p);
    hide FirstFree, Displace;
    var v := FirstFree(p, p.idle);
    if cfg.max <= 0 || p.closed || |p.entries| + p.reserved < cfg.max {
    } else if v.Some? {
      DisplaceTable(p, v.value);
    }
  }

  lemma FreeInTable(p: Pool)
    requires Wf(p)
    ensures FirstFree(p, p.idle).Some? ==> FirstFree(p, p.idle).value < |p.table|
  {
    FreeIsIdle(p, p.idle);
  }

  lemma DisplaceTable(p: Pool, v: nat)
    requires v < |p.table|
    ensures Displace(p, v).table == p.table[v := DisposeRec(p.table[v])]
  {
  }

  lemma MissDisposes(p: Pool, cfg: Config, k: Key, e: nat)
    requires Wf(p) && IdleFree(p.table, p.idle) && e < |p.table|
    ensures e < |ObtainMiss(p, cfg, k).0.table|
    ensures p.table[e].life.Live? && !ObtainMiss(p, cfg, k).0.table[e].life.Live? ==> Unwanted(p, e)
  {
    MissTable(p, cfg, k);
    hide SlotStep, ObtainMiss, IdleFree, Wf;
    SlotDisposes(Missed(p), cfg, e);
    assert IsPending(Missed(p), p.table[e].key) == IsPending(p, p.table[e].key);
  }

  function Missed(p: Pool): Pool { p.(counters := p.counters.(misses := p.counters.misses + 1)) }

  lemma MissTable(p: Pool, cfg: Config, k: Key)
    requires Wf(p)
    ensures Wf(Missed(p))
    ensures var t := ObtainMiss(p, cfg, k).0.table; t == p.table || t == SlotStep(Missed(p), cfg).0.table
  {
    WfCounters(p, Missed(p));
    hide SlotStep, Wf, Hit;
    if k in p.orphans && !p.table[p.orphans[k]].life.Disposed? {
      HitTable(p);
    }
  }

  lemma HitTable(p: Pool)
    ensures Hit(p).table == p.table
  {
  }

  lemma SweepDisposes(p: Pool, cfg: Config, now: int, e: nat)
    requires Wf(p) && Grounded(p) && e < |p.table|
    ensures |Sweep(p, cfg, now).table| == |p.table|
    ensures p.table[e].life.Live? && !Sweep(p, cfg, now).table[e].life.Live? ==> Unwanted(p, e)
  {
    hide Sweep, Drifts;
    SweepDrifts(p, cfg, now);
  }

  lemma ReleaseDisposes(p: Pool, x: nat, now: int, e: nat)
    requires Wf(p) && Grounded(p) && e < |p.table| && x < |p.table|
    ensures |ReleaseEntry(p, x, now).table| == |p.table|
    ensures p.table[e].life.Live? && !ReleaseEntry(p, x, now).table[e].life.Live? ==>
      x == e && p.table[e].condemned && p.table[e].refCount == 1
  {
    if p.table[x].refCount == 1 && !p.table[x].life.Disposed? && !p.table[x].condemned {
      var z := IdleAppend(DropLast(p, x, now), x);
      assert z.queue == p.queue && z.log == p.log;
      WakeFrame(z);
    }
  }

  lemma AcquireDisposes(cfg: Config, s: State, step: Step, e: nat)
    requires Enabled(s, step) && e < |s.pool.table| && OfAcquire(step) && !step.ValidateDone?
    requires Wf(s.pool) && IdleFree(s.pool.table, s.pool.idle)
    ensures e < |Apply(cfg, s, step).pool.table|
    ensures s.pool.table[e].life.Live? && !Apply(cfg, s, step).pool.table[e].life.Live? ==> MayDispose(s, step, e)
  {
    hide IdleFree, Wf, CellsWf, Unwanted, SlotStep, ObtainMiss, ReleaseReservation, FactoryDone;
    var p := s.pool;
    match step {
      case Begin(a) => MissDisposes(p, cfg, s.acqs[a].key, e);
      case Replaced(a) => MissDisposes(p, cfg, s.acqs[a].key, e);
      case Resumed(a) => SlotDisposes(p, cfg, e);
      case CreateDone(a) => CreateDisposes(p, s.acqs[a].key, s.now, e);
      case CreateFail(a) => CreateDisposes(p, s.acqs[a].key, s.now, e);
    }
  }

  lemma ValidatedDisposes(cfg: Config, s: State, a: nat, ok: bool, e: nat)
    requires MutexInv(s.mx, s.acqs) && ClaimInv(s.pool, s.acqs) && e < |s.pool.table| && Enabled(s, ValidateDone(a, ok))
    ensures var t := Apply(cfg, s, ValidateDone(a, ok)).pool.table;
      |t| == |s.pool.table|
      && (s.pool.table[e].life.Live? && !t[e].life.Live? ==> MayDispose(s, ValidateDone(a, ok), e))
  {
    RunnerIsOnly(s, a);
    assert ClaimOk(s.pool, s.acqs[a].key, s.acqs[a].phase);
    hide MutexInv, ClaimInv, Wf, CellsWf, Without, OnlyOneIn;
  }

  lemma FinishTable(cfg: Config, s: State, a: nat, e: nat)
    requires Enabled(s, Finish(a)) && e < |s.pool.table|
    ensures e < |Apply(cfg, s, Finish(a)).pool.table|
    ensures Apply(cfg, s, Finish(a)).pool.table[e].life == s.pool.table[e].life
  {
    hide Wf, CellsWf, Settled, FinishOk, DecPending;
    if s.acqs[a].phase.Resolved? {
      FinishCheckedOut(s.pool, s.acqs[a].key, s.acqs[a].phase.e);
    } else {
      PendingForm(s.pool, s.acqs[a].key);
    }
  }

  lemma DrainDisposes(p: Pool, e: nat)
    requires Wf(p) && Grounded(p) && e < |p.table|
    ensures |Drain(p).table| == |p.table|
    ensures p.table[e].life.Live? && !Drain(p).table[e].life.Live? ==> IsLive(p, e) && p.table[e].refCount == 0
  {
    DrainIs(p);
    hide Drain;
    assert Drain(p).table[e] == Emptied(p, e);
  }

  lemma OtherDisposes(cfg: Config, s: State, step: Step, e: nat)
    requires Enabled(s, step) && e < |s.pool.table| && !OfAcquire(step) && Wf(s.pool) && Grounded(s.pool)
    ensures e < |Apply(cfg, s, step).pool.table|
    ensures s.pool.table[e].life.Live? && !Apply(cfg, s, step).pool.table[e].life.Live? ==> MayDispose(s, step, e)
  {
    hide Grounded, Wf, CellsWf, Unwanted, Sweep, Drain, ReleaseEntry, ReleaseByKey,
         Droppable, Enter, Settled, GcCells, Waits, FinishOk, DecPending, AcquirePrefix, Settle, EndDisposal;
    var p := s.pool;
    match step {
      case Call(k) => CallTable(p, k);
      case Finish(a) => FinishTable(cfg, s, a, e);
      case Release(a) => ReturnDisposes(cfg, s, a, e);
      case ReleaseKey(k, a) =>
        ReleaseKeyIsRelease(cfg, s, k, a);
        ReturnDisposes(cfg, s, a, e);
      case Timeout(w) => TimeoutTable(p, w);
      case SweepTimer => SweepDisposes(p, cfg, s.now, e);
      case DrainStart => DrainDisposes(p, e);
      case _ =>
    }
  }

  lemma ReturnDisposes(cfg: Config, s: State, a: nat, e: nat)
    requires Enabled(s, Release(a)) && e < |s.pool.table| && Wf(s.pool) && Grounded(s.pool)
    ensures var t := Apply(cfg, s, Release(a));
      e < |t.pool.table|
      && (s.pool.table[e].life.Live? && !t.pool.table[e].life.Live? ==> MayDispose(s, Release(a), e))
  {
    hide Grounded, Wf, CellsWf, ReleaseEntry;
    ReleaseDisposes(s.pool, s.acqs[a].phase.e, s.now, e);
  }

  lemma TimeoutTable(p: Pool, w: nat)
    requires w < |p.log|
    ensures Settle(p, w, TimedOut).table == p.table
  {
  }

  /** On every run, no LRU, TTL or failed-validation step removes an entry that is held, or one that
      another acquire in flight may be about to use. (After an unsafe drain the idle list may hold a node
      that is no longer live; otherwise it holds the live entries that nobody holds.) */
  lemma WhoMayDispose(cfg: Config, s: State, step: Step, e: nat)
    requires Attainable(cfg, s) && Enabled(s, step) && e < |s.pool.table|
    ensures e < |Apply(cfg, s, step).pool.table|
    ensures s.pool.table[e].life.Live? && !Apply(cfg, s, step).pool.table[e].life.Live? ==> MayDispose(s, step, e)
    ensures Reachable(cfg, s) ==> (Unwanted(s.pool, e) <==> Evictable(s.pool, e))
  {
    hide AnyInv, BaseInv, ResInv, MutexInv, ClaimInv, QueueOk, ClosingInv, MapsOk, IdleFree, Wf, Enabled, Apply,
         MayDispose, Reachable, Attainable;
    AttainableAny(cfg, s);
    ResOf(cfg, s);
    BaseMutex(cfg, s);
    if step.ValidateDone? {
      ValidatedDisposes(cfg, s, step.a, step.ok, e);
    } else if OfAcquire(step) {
      AcquireDisposes(cfg, s, step, e);
    } else {
      OtherDisposes(cfg, s, step, e);
    }
    if Reachable(cfg, s) {
      UnwantedIs(cfg, s, e);
    }
  }

  lemma BaseMutex(cfg: Config, s: State)
    requires AnyInv(cfg, s)
    ensures MutexInv(s.mx, s.acqs)
  {
    WaitersOfBase(cfg, s);
  }

  lemma UnwantedIs(cfg: Config, s: State, e: nat)
    requires Reachable(cfg, s) && e < |s.pool.table|
    ensures Unwanted(s.pool, e) <==> Evictable(s.pool, e)
  {
    ReachableInv(cfg, s);
    DrainsOf(cfg, s);
    hide Inv, Reachable;
    if Evictable(s.pool, e) {
      assert s.pool.entries[s.pool.table[e].key] == e;
    }
  }

  lemma CallTable(p: Pool, k: Key)
    requires Wf(p)
    ensures |AcquirePrefix(p, k).0.table| == |p.table|
    ensures forall e :: 0 <= e < |p.table| ==> AcquirePrefix(p, k).0.table[e].life == p.table[e].life
  {
  }

  lemma CreateDisposes(p: Pool, k: Key, now: int, e: nat)
    requires Wf(p) && e < |p.table|
    ensures e < |FactoryDone(p, k, now).0.table| && FactoryDone(p, k, now).0.table[e] == p.table[e]
    ensures ReleaseReservation(p).table == p.table
  {
    WakeFrame(p.(reserved := p.reserved - 1));
  }
}
