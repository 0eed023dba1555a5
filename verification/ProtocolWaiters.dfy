/** The discipline of the waiter queue, on every run: a waiter is settled once, and wakes happen in
    park order. */
module ProtocolWaiters {
  import opened Counting
  import opened PoolModel
  import opened PoolInvariant
  import opened MutexModel
  import opened Protocol
  import opened ProtocolMutex
  import opened ProtocolCounts
  import opened ProtocolInvariant
  import opened ProtocolSteps
  import opened ProtocolBase
  import opened ProtocolCapacity
  import opened ProtocolWakeups

  lemma SlotIsDisciplined(cfg: Config, p: Pool)
    requires Wf(p)
    ensures Disciplined(p.log, SlotStep(p, cfg).0.log)
  {
    hide SlotStep;
    SlotLog(cfg, p);
  }

  lemma MissIsDisciplined(cfg: Config, p: Pool, k: Key)
    requires Wf(p)
    ensures Disciplined(p.log, ObtainMiss(p, cfg, k).0.log)
  {
    hide SlotStep, Disciplined;
    var z := p.(counters := p.counters.(misses := p.counters.misses + 1));
    SlotIsDisciplined(cfg, z);
    SameIsDisciplined(p.log);
  }

  lemma BeginIsDisciplined(cfg: Config, p: Pool, k: Key)
    requires Wf(p)
    ensures Disciplined(p.log, ObtainStart(p, cfg, k).0.log)
  {
    hide ObtainMiss, Disciplined;
    MissIsDisciplined(cfg, p, k);
    SameIsDisciplined(p.log);
  }

  lemma PassesIsDisciplined(p: Pool, q: Pool)
    requires Passes(p, q)
    ensures Disciplined(p.log, q.log)
  {
  }

  lemma ReleaseIsDisciplined(p: Pool, e: nat, now: int)
    requires Wf(p) && QueueOk(p.log, p.queue) && e < |p.table|
    ensures Disciplined(p.log, ReleaseEntry(p, e, now).log)
  {
    hide ReleaseEntry, Disciplined, QueueOk;
    ReleaseBase(p, e, now);
  }

  lemma GiveBackIsDisciplined(p: Pool)
    requires QueueOk(p.log, p.queue) && Wf(p)
    ensures Disciplined(p.log, ReleaseReservation(p).log)
  {
    hide Disciplined, WakeWaiter;
    WakeIsDisciplined(p.(reserved := p.reserved - 1));
  }

  lemma CreateIsDisciplined(p: Pool, k: Key, now: int)
    requires QueueOk(p.log, p.queue) && Wf(p)
    ensures Disciplined(p.log, FactoryDone(p, k, now).0.log)
  {
    hide Disciplined, ReleaseReservation;
    GiveBackIsDisciplined(p);
    SameIsDisciplined(p.log);
  }

  lemma InvalidIsDisciplined(p: Pool, e: nat)
    requires e < |p.table|
    ensures Disciplined(p.log, Validated(p, e, false).0.log) && Disciplined(p.log, Validated(p, e, true).0.log)
  {
    InvalidLives(p, e);
    SameIsDisciplined(p.log);
  }

  lemma AcquireIsDisciplined(cfg: Config, s: State, step: Step)
    requires QueueOk(s.pool.log, s.pool.queue) && Enabled(s, step) && OfAcquire(step)
    ensures Disciplined(s.pool.log, Apply(cfg, s, step).pool.log)
  {
    ReadyIsWf(s);
    hide Wf, CellsWf, SlotStep, ObtainStart, ObtainMiss, ReleaseReservation, FactoryDone, Validated, Disciplined,
         QueueOk;
    SameIsDisciplined(s.pool.log);
    var p := s.pool;
    match step {
      case Begin(a) => BeginIsDisciplined(cfg, p, s.acqs[a].key);
      case Replaced(a) => MissIsDisciplined(cfg, p, s.acqs[a].key);
      case Resumed(a) => SlotIsDisciplined(cfg, p);
      case CreateDone(a) => CreateIsDisciplined(p, s.acqs[a].key, s.now);
      case CreateFail(a) => GiveBackIsDisciplined(p);
      case ValidateDone(a, ok) => InvalidIsDisciplined(p, s.acqs[a].phase.e);
    }
  }

  /** In every step: each waiter is settled at most once, among wake, timeout and close, and a wake
      goes to the oldest. */
  lemma StepIsDisciplined(cfg: Config, s: State, step: Step)
    requires QueueOk(s.pool.log, s.pool.queue) && Enabled(s, step)
    ensures Disciplined(s.pool.log, Apply(cfg, s, step).pool.log)
  {
    if OfAcquire(step) {
      AcquireIsDisciplined(cfg, s, step);
    } else {
      OtherIsDisciplined(cfg, s, step);
    }
  }

  lemma OtherIsDisciplined(cfg: Config, s: State, step: Step)
    requires QueueOk(s.pool.log, s.pool.queue) && Enabled(s, step) && !OfAcquire(step)
    ensures Disciplined(s.pool.log, Apply(cfg, s, step).pool.log)
  {
    ReadyIsWf(s);
    hide Wf, CellsWf, Disciplined, Sweep, Drain, ReleaseEntry, ReleaseByKey, QueueOk, Passes,
         Droppable, Enter, Settled, GcCells, FinishOk, FinishStep, DecPending, AcquirePrefix, Settle,
         FinishDispose;
    SameIsDisciplined(s.pool.log);
    var p := s.pool;
    match step {
      case Call(k) => CallLog(p, k);
      case Finish(a) => FinishLog(s, a);
      case Release(a) => ReleaseIsDisciplined(p, s.acqs[a].phase.e, s.now);
      case ReleaseKey(k, a) =>
        ReleaseKeyIsRelease(cfg, s, k, a);
        ReleaseIsDisciplined(p, s.acqs[a].phase.e, s.now);
      case Timeout(w) => SettleIsDisciplined(p, w);
      case SweepTimer =>
        SweepPasses(p, cfg, s.now);
        PassesIsDisciplined(p, Sweep(p, cfg, s.now));
      case DrainStart =>
        DrainPasses(p);
        PassesIsDisciplined(p, Drain(p));
      case _ =>
    }
  }

  lemma CallLog(p: Pool, k: Key)
    requires Wf(p)
    ensures AcquirePrefix(p, k).0.log == p.log
  {
  }

  lemma FinishLog(s: State, a: nat)
    requires Enabled(s, Finish(a))
    ensures FinishStep(s, a).pool.log == s.pool.log
  {
    hide Settled, FinishOk;
    if s.acqs[a].phase.Resolved? {
      FinishCheckedOut(s.pool, s.acqs[a].key, s.acqs[a].phase.e);
    }
  }

  /** Over whole runs: a settled waiter keeps its outcome for ever, and no woken waiter has an older
      one that still waits. */
  lemma {:induction false} RunIsDisciplined(cfg: Config, s: State, steps: seq<Step>)
    requires BaseInv(cfg, s) && Run(cfg, s, steps)
    ensures Disciplined(s.pool.log, End(cfg, s, steps).pool.log)
    decreases |steps|
  {
    WaitersOfBase(cfg, s);
    hide BaseInv, Enabled, Apply, QueueOk;
    if steps != [] {
      BaseStepKeeps(cfg, s, steps[0]);
      StepIsDisciplined(cfg, s, steps[0]);
      RunIsDisciplined(cfg, Apply(cfg, s, steps[0]), steps[1..]);
    }
  }

  predicate IsWaiting(s: State, a: nat) {
    && a < |s.acqs| && s.acqs[a].phase.Parked? && s.acqs[a].phase.w < |s.pool.log|
    && s.pool.log[s.acqs[a].phase.w].Waiting?
  }

  /** The waiter array holds exactly the unsettled waiters, each of a parked acquire of its own, in
      park order and never more than maxWaiters; wakes were given in park order. */
  lemma WaiterDiscipline(cfg: Config, s: State)
    requires Attainable(cfg, s)
    ensures QueueOk(s.pool.log, s.pool.queue) && InParkOrder(s.pool.log)
    ensures cfg.maxWaiters.Some? ==> |s.pool.queue| <= cfg.maxWaiters.value
    ensures |s.owner| == |s.pool.log|
    ensures forall w :: w in s.pool.queue ==> IsWaiting(s, s.owner[w]) && s.acqs[s.owner[w]].phase == Parked(w)
    ensures forall a: nat :: IsWaiting(s, a) ==> s.acqs[a].phase.w in s.pool.queue
  {
    AttainableBase(cfg, s);
    forall w | w in s.pool.queue ensures IsWaiting(s, s.owner[w]) && s.acqs[s.owner[w]].phase == Parked(w) {
      assert s.pool.log[w].Waiting?;
    }
  }
}
