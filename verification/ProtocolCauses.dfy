/** Why an acquire fails, who settles a waiter, and what counts as an eviction. */
module ProtocolCauses {
  import opened Counting
  import opened PoolModel
  import opened PoolInvariant
  import opened PoolBulk
  import opened PoolTheorems
  import opened PoolResidents
  import opened MutexModel
  import opened AwaitModel
  import opened Protocol
  import opened ProtocolMutex
  import opened ProtocolPhases
  import opened ProtocolCounts
  import opened ProtocolInvariant
  import opened ProtocolSteps
  import opened ProtocolBase
  import opened ProtocolResidents
  import opened ProtocolClosing
  import opened ProtocolCapacity
  import opened ProtocolWakeups
  import opened ProtocolWaiters
  import opened ProtocolTheorems
  import opened ProtocolLedgers
  import opened ProtocolOutcomes

  // --- errors ---

  /** What has to happen for acquire a to fail with this error in this step. */
  predicate Cause(cfg: Config, s: State, step: Step, a: nat, error: Error)
    requires Enabled(s, step) && At(s, a)
  {
    match error
    case PoolClosed =>
      || step == LateDone(a)
      || (s.pool.closed && step == Begin(a) && Absent(s.pool, s.acqs[a].key))
      || (s.pool.closed && step == Replaced(a))
      || (step == Resumed(a) && s.pool.log[s.acqs[a].phase.w].ClosedOut?)
      || (s.pool.closed && cfg.max >= 1 && step == Resumed(a) && s.pool.log[s.acqs[a].phase.w].WokenUp?)
    case PoolExhausted =>
      ToGate(s, step, a) && cfg.max >= 1 && !s.pool.closed && !HasFreeSlot(cfg, s) && !HasVictim(s) && QueueFull(cfg, s)
    case AcquireTimeout => step == Resumed(a) && s.pool.log[s.acqs[a].phase.w].TimedOut?
    case FactoryFailed => step == CreateFail(a)
    case ValidateThrew => step == ValidateThrow(a)
  }

  /** The acquire that a step moves. */
  function Mover(step: Step): Option<nat> {
    match step
    case Begin(a) => Some(a)
    case ValidateDone(a, _) => Some(a)
    case ValidateThrow(a) => Some(a)
    case Replaced(a) => Some(a)
    case Resumed(a) => Some(a)
    case CreateStart(a) => Some(a)
    case CreateDone(a) => Some(a)
    case CreateFail(a) => Some(a)
    case LateDone(a) => Some(a)
    case Finish(a) => Some(a)
    case Release(a) => Some(a)
    case ReleaseKey(_, a) => Some(a)
    case _ => None
  }

  lemma OthersStand(cfg: Config, s: State, step: Step, a: nat)
    requires Enabled(s, step) && At(s, a) && Mover(step) != Some(a)
    ensures a < |Apply(cfg, s, step).acqs| && Apply(cfg, s, step).acqs[a] == s.acqs[a]
  {
    hide Wf, CellsWf, Settle, Sweep, FinishDispose, Drain, Waits, GcCells, Droppable, ObtainStart, ObtainMiss, Resume,
         Validated, FactoryDone, ReleaseReservation, ReleaseEntry, ReleaseByKey, AcquirePrefix, Enter, Settled,
         FinishOk, DecPending;
  }

  lemma GateFails(cfg: Config, s: State, step: Step, a: nat, error: Error)
    requires Attainable(cfg, s) && Enabled(s, step) && ToGate(s, step, a) && At(s, a)
    ensures a < |Apply(cfg, s, step).acqs|
    ensures Apply(cfg, s, step).acqs[a].phase == Rejected(error) <==> Cause(cfg, s, step, a, error)
  {
    GateDecides(cfg, s, step, a);
    GateIsOpen(s, step, a);
    hide Attainable, Apply, HasFreeSlot, HasVictim, QueueFull, Wf, CellsWf;
  }

  /** Whoever comes to the gate from obtain finds an open pool. */
  lemma GateIsOpen(s: State, step: Step, a: nat)
    requires Enabled(s, step) && ToGate(s, step, a)
    ensures step == Begin(a) || step == Replaced(a) || step == Resumed(a)
    ensures !step.Resumed? ==> !s.pool.closed
  {
  }

  /** Before or beside the gate. */
  lemma ObtainFails(cfg: Config, s: State, step: Step, a: nat, error: Error)
    requires Attainable(cfg, s) && Enabled(s, step) && At(s, a) && !ToGate(s, step, a)
    requires step == Begin(a) || step == Replaced(a) || step == Resumed(a)
    ensures a < |Apply(cfg, s, step).acqs|
    ensures Apply(cfg, s, step).acqs[a].phase == Rejected(error) <==> Cause(cfg, s, step, a, error)
  {
    hide Attainable, Wf, CellsWf, SlotStep, HasFreeSlot, HasVictim, QueueFull;
    match step {
      case Begin(_) =>
        ObtainDecides(cfg, s, a);
        hide ObtainStart;
        MovesOn(s, a, ObtainStart(s.pool, cfg, s.acqs[a].key));
      case Replaced(_) =>
        ReplacedAbsent(cfg, s, a);
        hide ObtainStart;
        MovesOn(s, a, ObtainMiss(s.pool, cfg, s.acqs[a].key));
      case Resumed(_) =>
        hide ObtainStart, ObtainMiss;
        MovesOn(s, a, Resume(s.pool, cfg, s.acqs[a].phase.w));
    }
  }

  lemma ReplacedAbsent(cfg: Config, s: State, a: nat)
    requires Attainable(cfg, s) && At(s, a) && s.acqs[a].phase.Replacing?
    ensures Absent(s.pool, s.acqs[a].key)
  {
    AttainableAny(cfg, s);
    hide Attainable, BaseInv, Grounded, HeldInv, ClosingInv;
    assert ClaimOk(s.pool, s.acqs[a].key, s.acqs[a].phase);
  }

  lemma RestFails(cfg: Config, s: State, step: Step, a: nat, error: Error)
    requires Enabled(s, step) && At(s, a) && Mover(step) == Some(a) && !s.acqs[a].phase.Rejected?
    requires !step.Begin? && !step.Replaced? && !step.Resumed?
    ensures a < |Apply(cfg, s, step).acqs|
    ensures Apply(cfg, s, step).acqs[a].phase == Rejected(error) <==> Cause(cfg, s, step, a, error)
  {
    hide Wf, CellsWf, RemoveEntry, Dispose, ReleaseReservation, InsertCreated, ReleaseEntry, ReleaseByKey, Settled,
         FinishOk, DecPending, HasFreeSlot, HasVictim, QueueFull;
  }

  /** On every run an acquire comes to fail with an error exactly for its cause. */
  lemma FailsExactlyFor(cfg: Config, s: State, step: Step, a: nat, error: Error)
    requires Attainable(cfg, s) && Enabled(s, step) && At(s, a) && !s.acqs[a].phase.Rejected?
    ensures a < |Apply(cfg, s, step).acqs|
    ensures Apply(cfg, s, step).acqs[a].phase == Rejected(error) <==> Cause(cfg, s, step, a, error)
  {
    if Mover(step) != Some(a) {
      OthersStand(cfg, s, step, a);
      NoCause(cfg, s, step, a, error);
    } else if step.Begin? || step.Replaced? || step.Resumed? {
      if ToGate(s, step, a) {
        GateFails(cfg, s, step, a, error);
      } else {
        ObtainFails(cfg, s, step, a, error);
      }
    } else {
      RestFails(cfg, s, step, a, error);
    }
  }

  lemma NoCause(cfg: Config, s: State, step: Step, a: nat, error: Error)
    requires Enabled(s, step) && At(s, a) && Mover(step) != Some(a)
    ensures !Cause(cfg, s, step, a, error)
  {
    hide HasFreeSlot, HasVictim, QueueFull;
  }

  /** And it throws that very error, while one that has resolved returns a handle on that very entry. */
  lemma EndsAsResolved(cfg: Config, s: State, a: nat)
    requires Enabled(s, Finish(a))
    ensures var x := Apply(cfg, s, Finish(a)).acqs[a];
      if s.acqs[a].phase.Rejected? then x.phase == Failed(s.acqs[a].phase.error)
      else x.phase == Done(s.acqs[a].phase.e, false)
  {
    hide Wf, CellsWf, FinishOk, DecPending, Settled;
  }

  // --- waiters ---

  /** The steps that may wake waiters. */
  predicate Wakes(step: Step) {
    step.Release? || step.ReleaseKey? || step.CreateFail? || step.SweepTimer?
  }

  /** Which step may settle waiter w so. */
  predicate SettledBy(step: Step, w: nat, outcome: WaiterState) {
    match outcome
    case Waiting => false
    case TimedOut => step == Timeout(w)
    case ClosedOut => step.DrainStart?
    case WokenUp => Wakes(step)
  }

  lemma WakeOnly(p: Pool)
    requires Wf(p)
    ensures p.queue != [] ==> p.queue[0] < |p.log|
    ensures OnlyWakes(p.log, WakeWaiter(p).log)
  {
  }

  lemma WakesTwice(a: seq<WaiterState>, b: seq<WaiterState>, c: seq<WaiterState>)
    requires OnlyWakes(a, b) && OnlyWakes(b, c)
    ensures OnlyWakes(a, c)
  {
  }

  lemma {:induction false} WalkOnlyWakes(p: Pool, nodes: seq<nat>, cutoff: int)
    requires Wf(p) && forall i :: 0 <= i < |nodes| ==> nodes[i] < |p.table|
    ensures OnlyWakes(p.log, SweepWalk(p, nodes, cutoff).log)
    decreases |nodes|
  {
    hide Wf, Evict, WakeWaiter, OnlyWakes;
    if nodes == [] || p.table[nodes[0]].lastReleasedAt > cutoff {
      WakesNot(p.log);
    } else if IsPending(p, p.table[nodes[0]].key) {
      WalkOnlyWakes(p, nodes[1..], cutoff);
    } else {
      var z := Evict(p, nodes[0]);
      WfEvictWake(p, nodes[0]);
      EvictLog(p, nodes[0]);
      WakeOnly(z);
      WalkOnlyWakes(WakeWaiter(z), nodes[1..], cutoff);
      WakesTwice(p.log, WakeWaiter(z).log, SweepWalk(WakeWaiter(z), nodes[1..], cutoff).log);
    }
  }

  lemma WakesNot(log: seq<WaiterState>)
    ensures OnlyWakes(log, log)
  {
  }

  lemma EvictLog(p: Pool, v: nat)
    requires v < |p.table|
    ensures Evict(p, v).log == p.log
  {
  }

  lemma SweepOnlyWakes(p: Pool, cfg: Config, now: int)
    requires Wf(p)
    ensures OnlyWakes(p.log, Sweep(p, cfg, now).log)
  {
    hide SweepWalk, OnlyWakes;
    WakesNot(p.log);
    if cfg.idleTtlMs != 0 {
      WalkOnlyWakes(p, p.idle, now - cfg.idleTtlMs);
    }
  }

  lemma ReleaseOnlyWakes(p: Pool, e: nat, now: int)
    requires Wf(p) && e < |p.table|
    ensures OnlyWakes(p.log, ReleaseEntry(p, e, now).log)
  {
    WakesNot(p.log);
    var z := DropLast(p, e, now);
    AppendWaiters(z, e);
    WfDrop(p, e, now);
    WakeOnly(IdleAppend(z, e));
    hide Wf, OnlyWakes, IdleAppend, WakeWaiter;
  }

  lemma WfDrop(p: Pool, e: nat, now: int)
    requires Wf(p) && e < |p.table|
    ensures Wf(DropLast(p, e, now)) && Wf(IdleAppend(DropLast(p, e, now), e))
  {
    AppendWaiters(DropLast(p, e, now), e);
  }

  lemma GiveBackOnlyWakes(p: Pool)
    requires Wf(p)
    ensures OnlyWakes(p.log, ReleaseReservation(p).log)
  {
    WakeOnly(p.(reserved := p.reserved - 1));
    hide Wf, OnlyWakes, WakeWaiter;
  }

  lemma CreatedLog(p: Pool, k: Key, now: int)
    requires Wf(p) && (p.closed ==> p.queue == [])
    ensures FactoryDone(p, k, now).0.log == p.log
  {
    InsertForm(p, k, now);
    hide Wf, InsertCreated;
  }

  lemma LogCreated(cfg: Config, s: State, a: nat)
    requires Attainable(cfg, s) && Enabled(s, CreateDone(a))
    ensures Apply(cfg, s, CreateDone(a)).pool.log == s.pool.log
  {
    AttainableAny(cfg, s);
    ResOf(cfg, s);
    assert s.pool.closed ==> s.pool.queue == [];
    hide Attainable, AnyInv, BaseInv, ResInv, Grounded, ClaimInv, ClosingInv, QueueOk, Wf, CellsWf, FactoryDone;
    CreatedLog(s.pool, s.acqs[a].key, s.now);
  }

  lemma DrainLog(p: Pool)
    requires Wf(p) && QueueOk(p.log, p.queue)
    ensures AllClosed(p.log, Drain(p).log)
  {
    CloseSettlesAll(p.(closed := true));
    WfClose(p.(closed := true));
    hide Wf, CloseWaiters, Outside, Held;
  }

  lemma MissLog(cfg: Config, p: Pool, k: Key)
    requires Wf(p)
    ensures var q := ObtainMiss(p, cfg, k).0.log; |p.log| <= |q| && q[..|p.log|] == p.log
  {
    WfCounters(p, Missed(p));
    SlotLog(cfg, Missed(p));
    hide SlotStep, Wf;
  }

  lemma ObtainLog(cfg: Config, p: Pool, k: Key)
    requires Wf(p)
    ensures var q := ObtainStart(p, cfg, k).0.log; |p.log| <= |q| && q[..|p.log|] == p.log
  {
    MissLog(cfg, p, k);
    hide ObtainMiss, Wf;
  }

  lemma ResumeLog(cfg: Config, p: Pool, w: nat)
    requires Wf(p) && w < |p.log|
    ensures var q := Resume(p, cfg, w).0.log; |p.log| <= |q| && q[..|p.log|] == p.log
  {
    SlotLog(cfg, p);
    hide SlotStep, Wf;
  }

  lemma ObtainSettlesNone(cfg: Config, s: State, step: Step, w: nat)
    requires Enabled(s, step) && w < |s.pool.log| && (step.Begin? || step.Replaced? || step.Resumed?)
    ensures w < |Apply(cfg, s, step).pool.log| && Apply(cfg, s, step).pool.log[w] == s.pool.log[w]
  {
    ReadyIsWf(s);
    hide Wf, CellsWf, ObtainStart, ObtainMiss, Resume;
    var a := step.a;
    match step {
      case Begin(_) =>
        ObtainLog(cfg, s.pool, s.acqs[a].key);
        MovesOn(s, a, ObtainStart(s.pool, cfg, s.acqs[a].key));
      case Replaced(_) =>
        MissLog(cfg, s.pool, s.acqs[a].key);
        MovesOn(s, a, ObtainMiss(s.pool, cfg, s.acqs[a].key));
      case Resumed(_) =>
        ResumeLog(cfg, s.pool, s.acqs[a].phase.w);
        MovesOn(s, a, Resume(s.pool, cfg, s.acqs[a].phase.w));
    }
    assert Apply(cfg, s, step).pool.log[..|s.pool.log|][w] == s.pool.log[w];
  }

  lemma LogWakes(cfg: Config, s: State, step: Step)
    requires Enabled(s, step) && Wakes(step)
    ensures OnlyWakes(s.pool.log, Apply(cfg, s, step).pool.log)
  {
    ReadyIsWf(s);
    hide Wf, CellsWf, Sweep, ReleaseReservation, ReleaseEntry, ReleaseByKey, OnlyWakes;
    match step {
      case Release(a) => ReleaseOnlyWakes(s.pool, s.acqs[a].phase.e, s.now);
      case ReleaseKey(k, a) =>
        ReleaseKeyIsRelease(cfg, s, k, a);
        ReleaseOnlyWakes(s.pool, s.acqs[a].phase.e, s.now);
      case CreateFail(a) => GiveBackOnlyWakes(s.pool);
      case SweepTimer => SweepOnlyWakes(s.pool, cfg, s.now);
    }
  }

  lemma LogStays(cfg: Config, s: State, step: Step)
    requires Enabled(s, step) && !Wakes(step) && !step.Timeout? && !step.DrainStart? && !step.CreateDone?
    requires !step.Begin? && !step.Replaced? && !step.Resumed?
    ensures Apply(cfg, s, step).pool.log == s.pool.log
  {
    ReadyIsWf(s);
    hide Wf, CellsWf, FinishDispose, GcCells, Droppable, Validated, AcquirePrefix, Enter, FinishStep, EndDisposal;
    match step {
      case Call(k) => CallLog(s.pool, k);
      case Finish(a) => FinishLog(s, a);
      case ValidateDone(a, ok) => ValidatedLog(s.pool, s.acqs[a].phase.e, ok);
      case DisposeDone(e) => EndLog(s.pool, e);
      case _ =>
    }
  }

  lemma LogTimesOut(cfg: Config, s: State, v: nat)
    requires Enabled(s, Timeout(v))
    ensures v < |s.pool.log| && Apply(cfg, s, Timeout(v)).pool.log == s.pool.log[v := TimedOut]
  {
    TimeoutLog(s.pool, v);
    hide Wf, CellsWf, Settle;
  }

  lemma LogCloses(cfg: Config, s: State)
    requires Enabled(s, DrainStart) && QueueOk(s.pool.log, s.pool.queue)
    ensures AllClosed(s.pool.log, Apply(cfg, s, DrainStart).pool.log)
  {
    ReadyIsWf(s);
    DrainLog(s.pool);
    hide QueueOk, Wf, CellsWf, Drain, Waits, AllClosed;
  }

  /** On every run a waiter times out only by its own timeout, is turned away only by a drain, and is woken
      only by a release, a failed factory call or a sweep; and a timeout and a drain do so. */
  lemma WaiterSettledBy(cfg: Config, s: State, step: Step, w: nat)
    requires Attainable(cfg, s) && Enabled(s, step) && w < |s.pool.log| && s.pool.log[w].Waiting?
    ensures w < |Apply(cfg, s, step).pool.log|
    ensures var outcome := Apply(cfg, s, step).pool.log[w];
      && (outcome.Waiting? || SettledBy(step, w, outcome))
      && (step == Timeout(w) ==> outcome.TimedOut?) && (step.DrainStart? ==> outcome.ClosedOut?)
  {
    hide Attainable, QueueOk, IdleFree, Wf, CellsWf, Enabled, Apply;
    if step.Begin? || step.Replaced? || step.Resumed? {
      ObtainSettlesNone(cfg, s, step, w);
    } else if Wakes(step) {
      LogWakes(cfg, s, step);
    } else if step.Timeout? {
      LogTimesOut(cfg, s, step.w);
    } else if step.DrainStart? {
      GateFacts(cfg, s);
      LogCloses(cfg, s);
    } else if step.CreateDone? {
      LogCreated(cfg, s, step.a);
    } else {
      LogStays(cfg, s, step);
    }
  }

  lemma TimeoutLog(p: Pool, v: nat)
    requires v < |p.log|
    ensures Settle(p, v, TimedOut).log == if p.log[v].Waiting? then p.log[v := TimedOut] else p.log
  {
  }

  lemma ValidatedLog(p: Pool, e: nat, ok: bool)
    requires e < |p.table|
    ensures Validated(p, e, ok).0.log == p.log
  {
    hide Without;
  }

  lemma EndLog(p: Pool, e: nat)
    requires e < |p.table|
    ensures FinishDispose(p, e).log == p.log
  {
  }

  // --- one wake for one slot ---

  function Rest(q: seq<nat>): seq<nat> { if q == [] then [] else q[1..] }

  lemma WakeShifts(p: Pool)
    requires Wf(p) && QueueOk(p.log, p.queue)
    ensures WakeWaiter(p).queue == Rest(p.queue)
    ensures p.queue != [] ==> WakeWaiter(p).log[p.queue[0]].WokenUp?
  {
    if p.queue != [] {
      assert p.queue[0] in p.queue;
      assert p.queue[0] !in p.queue[1..];
    }
  }

  lemma ReleaseShifts(p: Pool, e: nat, now: int)
    requires Wf(p) && QueueOk(p.log, p.queue) && IdleFree(p.table, p.idle) && e < |p.table|
    ensures var q := ReleaseEntry(p, e, now);
      q.queue == if e !in p.idle && e in q.idle then Rest(p.queue) else p.queue
  {
    hide QueueOk, Wf, WakeWaiter, IdleAppend, RemoveEntry, Dispose, DropLast, DropShared;
    var z := DropLast(p, e, now);
    SharedLists(p, e, now);
    if !p.table[e].life.Disposed? && p.table[e].refCount == 1 {
      WfDrop(p, e, now);
      RemovedLists(z, e);
      AppendedLists(z, e);
      WakeShifts(IdleAppend(z, e));
      WakeFrame(IdleAppend(z, e));
    }
  }

  lemma SharedLists(p: Pool, e: nat, now: int)
    requires e < |p.table|
    ensures p.table[e].refCount > 0 ==> DropShared(p, e).idle == p.idle && DropShared(p, e).queue == p.queue
    ensures var z := DropLast(p, e, now);
      z.idle == p.idle && z.queue == p.queue && z.log == p.log && |z.table| == |p.table|
  {
  }

  lemma RemovedLists(p: Pool, e: nat)
    requires e < |p.table|
    ensures |RemoveEntry(p, e).table| == |p.table|
    ensures var q := Dispose(RemoveEntry(p, e), e); q.queue == p.queue && (e !in p.idle ==> q.idle == p.idle)
  {
  }

  lemma AppendedLists(p: Pool, e: nat)
    requires e < |p.table|
    ensures var q := IdleAppend(p, e); q.queue == p.queue && q.log == p.log && e in q.idle
  {
  }

  /** A release wakes the oldest waiter if it makes its entry idle, and nobody otherwise. */
  lemma ReleaseWakesOne(cfg: Config, s: State, a: nat)
    requires Attainable(cfg, s) && Enabled(s, Release(a))
    ensures var t, e := Apply(cfg, s, Release(a)), s.acqs[a].phase.e;
      t.pool.queue == if e !in s.pool.idle && e in t.pool.idle then Rest(s.pool.queue) else s.pool.queue
  {
    GateFacts(cfg, s);
    hide Attainable, QueueOk, IdleFree, CellsWf, ReleaseEntry;
    ReleaseShifts(s.pool, s.acqs[a].phase.e, s.now);
  }

  /** A creation that fails wakes the oldest waiter, and gives its reservation back. */
  lemma FailureWakesOne(cfg: Config, s: State, a: nat)
    requires Attainable(cfg, s) && Enabled(s, CreateFail(a))
    ensures var t := Apply(cfg, s, CreateFail(a));
      && t.pool.queue == Rest(s.pool.queue) && t.pool.reserved == s.pool.reserved - 1
      && (s.pool.queue != [] ==> s.pool.queue[0] < |t.pool.log| && t.pool.log[s.pool.queue[0]].WokenUp?)
  {
    GateFacts(cfg, s);
    var z := s.pool.(reserved := s.pool.reserved - 1);
    HeadInLog(s.pool);
    WakeShifts(z);
    WakeFrame(z);
    hide Attainable, QueueOk, IdleFree, Wf, CellsWf, WakeWaiter;
  }

  lemma HeadInLog(p: Pool)
    requires Wf(p)
    ensures p.queue != [] ==> p.queue[0] < |p.log|
  {
  }

  // --- evictions ---

  /** The entries that have gone to disposal between two tables. */
  function Left(t: seq<Rec>, u: seq<Rec>): set<nat> {
    set e: nat | e < |t| && t[e].life.Live? && e < |u| && !u[e].life.Live?
  }

  /** The entries that the step from s to t has given to disposal. */
  function Gone(s: State, t: State): set<nat> { Left(s.pool.table, t.pool.table) }

  /** The live entries that somebody holds. */
  function HeldLive(s: State): set<Key>
    requires Wf(s.pool)
  {
    set k | k in s.pool.entries && s.pool.table[s.pool.entries[k]].refCount > 0
  }

  lemma LeftNone(t: seq<Rec>)
    ensures Left(t, t) == {}
  {
  }

  lemma LeftOne(t: seq<Rec>, v: nat)
    requires v < |t| && t[v].life.Live?
    ensures Left(t, t[v := DisposeRec(t[v])]) == {v}
  {
  }

  /** A turn of the gate evicts nothing, or the victim of a full pool. */
  lemma SlotEvicts(p: Pool, cfg: Config, now: int)
    requires PoolInv(p, now)
    ensures Wf(p)
    ensures var q, v := SlotStep(p, cfg).0, FirstFree(p, p.idle);
      || (q.table == p.table && q.counters == p.counters)
      || (v.Some? && cfg.max >= 1 && |p.entries| + p.reserved >= cfg.max && v.value < |p.table|
          && q.table == p.table[v.value := DisposeRec(p.table[v.value])]
          && q.counters == p.counters.(evicted := p.counters.evicted + 1))
  {
    InvIsWf(p, now);
    hide PoolInv;
    FreeInTable(p);
    var v := FirstFree(p, p.idle);
    if v.Some? {
      DisplaceTable(p, v.value);
      DisplaceCounts(p, v.value);
    }
    hide Displace, FirstFree, Wf;
  }

  lemma DisplaceCounts(p: Pool, v: nat)
    requires v < |p.table|
    ensures Displace(p, v).counters == p.counters.(evicted := p.counters.evicted + 1)
  {
  }

  /** The expired members of a list. */
  function ExpiredIn(p: Pool, q: seq<nat>, cutoff: int): set<nat> {
    set e: nat | e < |p.table| && Expired(p, cutoff, e) && e in q
  }

  /** As many have expired as the walk drops. */
  lemma {:induction false} DroppedIsSet(p: Pool, q: seq<nat>, cutoff: int)
    requires Distinct(q) && forall i :: 0 <= i < |q| ==> q[i] < |p.table|
    ensures |ExpiredIn(p, q, cutoff)| == Dropped(p, q, cutoff)
  {
    SurvivorsShorter(p, q, cutoff);
    if q == [] {
      assert ExpiredIn(p, q, cutoff) == {};
    } else {
      DroppedIsSet(p, q[1..], cutoff);
      SurvivorsShorter(p, q[1..], cutoff);
      ExpiredTail(p, q, cutoff);
      hide ExpiredIn, Expired;
    }
  }

  lemma ExpiredTail(p: Pool, q: seq<nat>, cutoff: int)
    requires Distinct(q) && q != [] && q[0] < |p.table|
    ensures q[0] !in ExpiredIn(p, q[1..], cutoff)
    ensures ExpiredIn(p, q, cutoff)
      == if Expired(p, cutoff, q[0]) then ExpiredIn(p, q[1..], cutoff) + {q[0]} else ExpiredIn(p, q[1..], cutoff)
  {
    hide Expired;
    assert q[0] !in q[1..];
    assert forall e :: e in q <==> e == q[0] || e in q[1..];
  }

  lemma SweepEvicts(p: Pool, cfg: Config, now: int)
    requires PoolInv(p, now)
    ensures Wf(p)
    ensures var q := Sweep(p, cfg, now); q.counters.evicted == p.counters.evicted + |Left(p.table, q.table)|
  {
    hide PoolInv;
    InvIsWf(p, now);
    LeftNone(p.table);
    WalkEvicts(p, now - cfg.idleTtlMs, now);
    hide SweepWalk, Wf, Left;
  }

  lemma WalkEvicts(p: Pool, cutoff: int, now: int)
    requires PoolInv(p, now) && Wf(p)
    ensures var q := SweepWalk(p, p.idle, cutoff);
      q.counters.evicted == p.counters.evicted + |Left(p.table, q.table)|
  {
    IdleBoundsOf(p, now);
    SweepIsFilter(p, [], p.idle, cutoff, now);
    hide PoolInv, SweepWalk, SweptTo, Left, ExpiredIn, Dropped;
    DroppedIsSet(p, p.idle, cutoff);
    SweptGone(p, SweepWalk(p, p.idle, cutoff), cutoff);
  }

  lemma IdleBoundsOf(p: Pool, now: int)
    requires PoolInv(p, now)
    ensures Distinct(p.idle) && forall i :: 0 <= i < |p.idle| ==> p.idle[i] < |p.table|
    ensures forall e :: e in p.idle ==> e < |p.table| && p.table[e].life.Live?
  {
    InvIsWf(p, now);
    forall e | e in p.idle ensures e < |p.table| && p.table[e].life.Live? {
      assert RecOk(p.table, p.entries, p.orphans, e);
    }
  }

  lemma SweptGone(p: Pool, q: Pool, cutoff: int)
    requires Wf(p) && SweptTo(p, [], p.idle, cutoff, q)
    requires forall e :: e in p.idle ==> e < |p.table| && p.table[e].life.Live?
    ensures q.counters.evicted == p.counters.evicted + Dropped(p, p.idle, cutoff)
    ensures Left(p.table, q.table) == ExpiredIn(p, p.idle, cutoff)
  {
    hide Survivors, Dropped, Expired, Wf, OnlyWakes, Least;
    forall e: nat | e < |p.table| ensures e in Left(p.table, q.table) <==> e in ExpiredIn(p, p.idle, cutoff) {
    }
  }

  lemma DrainEvicts(p: Pool, now: int)
    requires PoolInv(p, now)
    ensures Wf(p)
    ensures Drain(p).counters.evicted == p.counters.evicted + |Held(p, p.entries.Keys)|
  {
    DrainForm(p, now);
    hide PoolInv, Drain, Held, DrainedTable, Wf;
  }

  lemma HeldCount(s: State)
    requires Wf(s.pool)
    ensures |HeldLive(s)| == |Held(s.pool, s.pool.entries.Keys)|
  {
    var m := Held(s.pool, s.pool.entries.Keys);
    assert m.Keys == HeldLive(s);
    assert |m.Keys| == |m|;
  }

  /** What a turn of the gate from p to q evicts. */
  ghost predicate GateTook(cfg: Config, p: Pool, q: Pool) {
    var gone := Left(p.table, q.table);
    && q.counters.evicted == p.counters.evicted + |gone|
    && (gone != {} ==> cfg.max >= 1 && |p.entries| + p.reserved >= cfg.max
                       && exists v: nat :: gone == {v} && ScanAnswers(p, Some(v)))
  }

  lemma TookNone(cfg: Config, p: Pool, q: Pool)
    requires q.table == p.table && q.counters.evicted == p.counters.evicted
    ensures GateTook(cfg, p, q)
  {
    LeftNone(p.table);
    hide Left;
  }

  lemma TookVictim(cfg: Config, p: Pool, q: Pool, v: nat)
    requires cfg.max >= 1 && |p.entries| + p.reserved >= cfg.max && ScanAnswers(p, Some(v))
    requires v < |p.table| && p.table[v].life.Live? && q.table == p.table[v := DisposeRec(p.table[v])]
    requires q.counters.evicted == p.counters.evicted + 1
    ensures GateTook(cfg, p, q)
  {
    LeftOne(p.table, v);
    hide Left, ScanAnswers;
    assert Left(p.table, q.table) == {v} && ScanAnswers(p, Some(v));
  }

  lemma TookOne(cfg: Config, p: Pool, z: Pool, now: int)
    requires PoolInv(p, now) && z == p.(counters := p.counters.(misses := z.counters.misses))
    ensures Wf(z) && GateTook(cfg, p, SlotStep(z, cfg).0)
  {
    OtherFields(p, z, now);
    SlotEvicts(z, cfg, now);
    LruIsFullScan(z, now);
    InvIsWf(z, now);
    var q, v := SlotStep(z, cfg).0, FirstFree(z, z.idle);
    hide PoolInv, Wf, SlotStep, FirstFree;
    if q.table == p.table && q.counters == z.counters {
      hide ScanAnswers, GateTook;
      TookNone(cfg, p, q);
    } else {
      VictimLives(p, z, v.value, now);
      hide ScanAnswers, GateTook;
      TookVictim(cfg, p, q, v.value);
    }
  }

  lemma VictimLives(p: Pool, z: Pool, v: nat, now: int)
    requires PoolInv(p, now) && z == p.(counters := z.counters) && ScanAnswers(z, Some(v))
    ensures ScanAnswers(p, Some(v)) && v < |p.table| && p.table[v].life.Live?
  {
    assert forall e: nat :: e < |p.table| ==> Evictable(p, e) == Evictable(z, e);
    assert Evictable(p, v);
    assert RecOk(p.table, p.entries, p.orphans, v);
  }

  lemma MissTook(cfg: Config, p: Pool, k: Key, now: int)
    requires PoolInv(p, now) && Wf(p)
    ensures GateTook(cfg, p, ObtainMiss(p, cfg, k).0)
  {
    WfCounters(p, Missed(p));
    hide PoolInv, Wf, SlotStep, GateTook;
    TookOne(cfg, p, Missed(p), now);
    TookNone(cfg, p, p);
    if k in p.orphans {
      TookNone(cfg, p, Resurrected(p, k));
    }
  }

  lemma ObtainTook(cfg: Config, p: Pool, k: Key, now: int)
    requires PoolInv(p, now) && Wf(p)
    ensures GateTook(cfg, p, ObtainStart(p, cfg, k).0)
  {
    hide PoolInv, Wf, ObtainMiss, GateTook;
    MissTook(cfg, p, k, now);
    TookNone(cfg, p, p);
    TookNone(cfg, p, Hit(p));
  }

  lemma ResumeTook(cfg: Config, p: Pool, w: nat, now: int)
    requires PoolInv(p, now) && Wf(p) && w < |p.log|
    ensures GateTook(cfg, p, Resume(p, cfg, w).0)
  {
    hide PoolInv, Wf, SlotStep, GateTook;
    TookOne(cfg, p, p, now);
    TookNone(cfg, p, p);
  }

  lemma GateEvicts(cfg: Config, s: State, step: Step)
    requires PoolInv(s.pool, s.now) && Enabled(s, step) && (step.Begin? || step.Replaced? || step.Resumed?)
    ensures GateTook(cfg, s.pool, Apply(cfg, s, step).pool)
  {
    ReadyIsWf(s);
    hide PoolInv, Wf, CellsWf, GateTook, ObtainStart, ObtainMiss, Resume;
    match step {
      case Begin(a) =>
        ObtainTook(cfg, s.pool, s.acqs[a].key, s.now);
        MovesOn(s, a, ObtainStart(s.pool, cfg, s.acqs[a].key));
      case Replaced(a) =>
        MissTook(cfg, s.pool, s.acqs[a].key, s.now);
        MovesOn(s, a, ObtainMiss(s.pool, cfg, s.acqs[a].key));
      case Resumed(a) =>
        ResumeTook(cfg, s.pool, s.acqs[a].phase.w, s.now);
        MovesOn(s, a, Resume(s.pool, cfg, s.acqs[a].phase.w));
    }
  }

  lemma TookIsGone(cfg: Config, s: State, t: State)
    requires GateTook(cfg, s.pool, t.pool)
    ensures t.pool.counters.evicted == s.pool.counters.evicted + |Gone(s, t)|
    ensures Gone(s, t) != {} ==>
      cfg.max >= 1 && |s.pool.entries| + s.pool.reserved >= cfg.max
      && exists v: nat :: Gone(s, t) == {v} && ScanAnswers(s.pool, Some(v))
  {
    hide Left, ScanAnswers;
  }

  lemma RestEvictsNone(cfg: Config, s: State, step: Step)
    requires Enabled(s, step) && !step.Begin? && !step.Replaced? && !step.Resumed?
    requires !step.SweepTimer? && !step.DrainStart?
    ensures Apply(cfg, s, step).pool.counters.evicted == s.pool.counters.evicted
  {
    if Wakes(step) || step.CreateDone? {
      hide Enabled, Apply;
      WakingEvictsNone(cfg, s, step);
    } else {
      ReadyIsWf(s);
      hide Wf, CellsWf, Settle, Enter, GcCells, Droppable, EndDisposal, AcquirePrefix, FinishStep, Validated;
      match step {
        case Call(k) => CallEvicts(s.pool, k);
        case Finish(a) => FinishEvicts(s, a);
        case ValidateDone(a, ok) => ValidatedEvicts(s.pool, s.acqs[a].phase.e, ok);
        case Timeout(w) => TimeoutEvicts(s.pool, w);
        case _ =>
      }
    }
  }

  lemma WakingEvictsNone(cfg: Config, s: State, step: Step)
    requires Enabled(s, step) && (Wakes(step) || step.CreateDone?) && !step.SweepTimer?
    ensures Apply(cfg, s, step).pool.counters.evicted == s.pool.counters.evicted
  {
    ReadyIsWf(s);
    hide Wf, CellsWf, ReleaseEntry, ReleaseByKey, FactoryDone, ReleaseReservation;
    match step {
      case Release(a) => ReleaseEvicts(s.pool, s.acqs[a].phase.e, s.now);
      case ReleaseKey(k, a) =>
        ReleaseKeyIsRelease(cfg, s, k, a);
        ReleaseEvicts(s.pool, s.acqs[a].phase.e, s.now);
      case CreateDone(a) => CreateEvicts(s.pool, s.acqs[a].key, s.now);
      case CreateFail(a) => CreateEvicts(s.pool, s.acqs[a].key, s.now);
    }
  }

  lemma CallEvicts(p: Pool, k: Key)
    requires Wf(p)
    ensures AcquirePrefix(p, k).0.counters.evicted == p.counters.evicted
  {
    hide Without;
  }

  lemma FinishEvicts(s: State, a: nat)
    requires Enabled(s, Finish(a))
    ensures FinishStep(s, a).pool.counters.evicted == s.pool.counters.evicted
  {
    hide Without, Settled, Wf, CellsWf;
  }

  lemma ReleaseEvicts(p: Pool, e: nat, now: int)
    requires Wf(p) && e < |p.table|
    ensures ReleaseEntry(p, e, now).counters.evicted == p.counters.evicted
  {
    var z := DropLast(p, e, now);
    AppendWaiters(z, e);
    WfDrop(p, e, now);
    HeadInLog(IdleAppend(z, e));
    WakeFrame(IdleAppend(z, e));
    hide Wf, Without, WakeWaiter;
  }

  lemma CreateEvicts(p: Pool, k: Key, now: int)
    requires Wf(p)
    ensures FactoryDone(p, k, now).0.counters.evicted == p.counters.evicted
    ensures ReleaseReservation(p).counters == p.counters
  {
    HeadInLog(p);
    WakeFrame(p.(reserved := p.reserved - 1));
    InsertForm(p, k, now);
    hide WakeWaiter, InsertCreated, Wf;
  }

  lemma ValidatedEvicts(p: Pool, e: nat, ok: bool)
    requires e < |p.table|
    ensures Validated(p, e, ok).0.counters.evicted == p.counters.evicted
  {
    hide Without;
  }

  lemma TimeoutEvicts(p: Pool, w: nat)
    requires w < |p.log|
    ensures Settle(p, w, TimedOut).counters == p.counters
  {
  }

  /** On every safe run the counter of evictions grows by one for each entry that the gate or the sweep gives
      to disposal, and for each held entry that a drain condemns; and by no other step. At the gate that is
      at most one entry, the least recently used of a full pool. */
  lemma EvictedIsCounted(cfg: Config, s: State, step: Step)
    requires Reachable(cfg, s) && Enabled(s, step)
    ensures Wf(s.pool)
    ensures Apply(cfg, s, step).pool.counters.evicted - s.pool.counters.evicted ==
      if step.DrainStart? then |HeldLive(s)|
      else if step.Begin? || step.Replaced? || step.Resumed? || step.SweepTimer? then |Gone(s, Apply(cfg, s, step))|
      else 0
    ensures (step.Begin? || step.Replaced? || step.Resumed?) && Gone(s, Apply(cfg, s, step)) != {} ==>
      cfg.max >= 1 && |s.pool.entries| + s.pool.reserved >= cfg.max
      && exists v: nat :: Gone(s, Apply(cfg, s, step)) == {v} && ScanAnswers(s.pool, Some(v))
  {
    ReachableInv(cfg, s);
    DrainsOf(cfg, s);
    InvIsWf(s.pool, s.now);
    hide Inv, Reachable, PoolInv, DrainInv, PhaseInv, PendingOk, Wf, CellsWf;
    if step.Begin? || step.Replaced? || step.Resumed? {
      GateEvicts(cfg, s, step);
      hide Apply, Enabled, Gone, GateTook;
      TookIsGone(cfg, s, Apply(cfg, s, step));
    } else if step.SweepTimer? {
      SweepEvicts(s.pool, cfg, s.now);
      hide Sweep, Left;
    } else if step.DrainStart? {
      DrainEvicts(s.pool, s.now);
      hide Drain, Waits;
      HeldCount(s);
    } else {
      RestEvictsNone(cfg, s, step);
    }
  }
}
