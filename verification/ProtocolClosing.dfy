/** What closing means on every run: only drain makes orphans, a closed pool creates nothing, and a drain
    that has completed since the last start() leaves nothing resident. */
module ProtocolClosing {
  import opened Counting
  import opened PoolModel
  import opened PoolInvariant
  import opened PoolBulk
  import opened PoolResidents
  import opened MutexModel
  import opened AwaitModel
  import opened Protocol
  import opened ProtocolMutex
  import opened ProtocolPhases
  import opened ProtocolCounts
  import opened ProtocolInvariant
  import opened ProtocolSteps
  import opened ProtocolBase
  import opened ProtocolResidents

  // --- without any invariant ---

  /** The pool stays open or closed, a closed one creates nothing, and no orphan is new. */
  predicate Narrows(p: Pool, q: Pool) {
    q.closed == p.closed && (p.closed ==> |q.table| == |p.table|) && q.orphans.Keys <= p.orphans.Keys
  }

  lemma WakeNarrows(p: Pool)
    requires p.queue != [] ==> p.queue[0] < |p.log|
    ensures Narrows(p, WakeWaiter(p)) && |WakeWaiter(p).table| == |p.table|
  {
    WakeFrame(p);
    hide WakeWaiter;
  }

  lemma EvictNarrows(p: Pool, v: nat)
    requires v < |p.table|
    ensures Narrows(p, Evict(p, v)) && |Evict(p, v).table| == |p.table|
  {
  }

  lemma SlotNarrows(p: Pool, cfg: Config)
    requires Wf(p)
    ensures Narrows(p, SlotStep(p, cfg).0)
  {
    var v := FirstFree(p, p.idle);
    if cfg.max >= 1 && !p.closed && |p.entries| + p.reserved >= cfg.max && v.Some? {
      EvictNarrows(p, v.value);
      hide Evict, Wf;
    }
  }

  lemma MissNarrows(p: Pool, cfg: Config, k: Key)
    requires Wf(p)
    ensures Narrows(p, ObtainMiss(p, cfg, k).0)
  {
    var z := p.(counters := p.counters.(misses := p.counters.misses + 1));
    WfCounters(p, z);
    SlotNarrows(z, cfg);
    hide SlotStep, Wf;
  }

  lemma ObtainNarrows(p: Pool, cfg: Config, k: Key)
    requires Wf(p)
    ensures Narrows(p, ObtainStart(p, cfg, k).0)
  {
    hide ObtainMiss, Narrows;
    MissNarrows(p, cfg, k);
    HitNarrows(p);
    NarrowsNot(p, p);
  }

  lemma ReleaseNarrows(p: Pool, e: nat, now: int)
    requires Wf(p) && e < |p.table|
    ensures Narrows(p, ReleaseEntry(p, e, now))
  {
    hide Wf, Drifts;
    ReleaseDrifts(p, e, now);
    DriftsNarrow(p, ReleaseEntry(p, e, now));
  }

  lemma DriftsNarrow(p: Pool, q: Pool)
    requires Drifts(p, q, {})
    ensures Narrows(p, q)
  {
  }

  lemma {:induction false} WalkNarrows(p: Pool, nodes: seq<nat>, cutoff: int)
    requires Wf(p) && forall i :: 0 <= i < |nodes| ==> nodes[i] < |p.table|
    ensures Narrows(p, SweepWalk(p, nodes, cutoff))
    decreases |nodes|
  {
    hide Wf, Evict, WakeWaiter;
    if nodes != [] && p.table[nodes[0]].lastReleasedAt <= cutoff {
      if IsPending(p, p.table[nodes[0]].key) {
        WalkNarrows(p, nodes[1..], cutoff);
      } else {
        var z := Evict(p, nodes[0]);
        WfEvictWake(p, nodes[0]);
        EvictNarrows(p, nodes[0]);
        WfQueue(z);
        WakeNarrows(z);
        WalkNarrows(WakeWaiter(z), nodes[1..], cutoff);
      }
    }
  }

  lemma SweepNarrows(p: Pool, cfg: Config, now: int)
    requires Wf(p)
    ensures Narrows(p, Sweep(p, cfg, now))
  {
    hide SweepWalk;
    if cfg.idleTtlMs != 0 {
      WalkNarrows(p, p.idle, now - cfg.idleTtlMs);
    }
  }

  lemma CreateNarrows(p: Pool, k: Key, now: int)
    requires Wf(p)
    ensures Narrows(p, FactoryDone(p, k, now).0) && Narrows(p, ReleaseReservation(p))
  {
    WfQueue(p);
    WakeNarrows(p.(reserved := p.reserved - 1));
    InsertForm(p, k, now);
    hide WakeWaiter, InsertCreated, Wf;
  }

  lemma CallNarrows(p: Pool, k: Key)
    requires Wf(p)
    ensures Narrows(p, AcquirePrefix(p, k).0)
  {
    hide Without;
  }

  lemma FinishNarrows(s: State, a: nat)
    requires Enabled(s, Finish(a))
    ensures Narrows(s.pool, FinishStep(s, a).pool)
  {
    hide Wf, CellsWf, Settled, FinishOk, DecPending, Narrows;
    if s.acqs[a].phase.Resolved? {
      CheckoutNarrows(s.pool, s.acqs[a].phase.e, s.acqs[a].key);
    } else {
      DecNarrows(s.pool, s.acqs[a].key);
    }
  }

  lemma CheckoutNarrows(p: Pool, e: nat, k: Key)
    requires e < |p.table|
    ensures Narrows(p, FinishOk(p, e, k))
  {
    FinishCheckedOut(p, k, e);
    hide FinishOk;
  }

  lemma DecNarrows(p: Pool, k: Key)
    ensures Narrows(p, DecPending(p, k))
  {
  }

  lemma ValidatedNarrows(p: Pool, e: nat, ok: bool)
    requires e < |p.table|
    ensures Narrows(p, Validated(p, e, ok).0)
  {
    hide Without;
  }

  lemma ResumeNarrows(p: Pool, cfg: Config, w: nat)
    requires Wf(p) && w < |p.log|
    ensures Narrows(p, Resume(p, cfg, w).0)
  {
    hide Wf, SlotStep, Narrows;
    NarrowsNot(p, p);
    SlotNarrows(p, cfg);
  }

  lemma GateNarrows(cfg: Config, s: State, step: Step)
    requires Enabled(s, step) && (step.Begin? || step.Replaced? || step.Resumed?)
    ensures Narrows(s.pool, Apply(cfg, s, step).pool)
  {
    ReadyIsWf(s);
    hide Wf, CellsWf, ObtainStart, ObtainMiss, Resume, Narrows;
    match step {
      case Begin(a) => ObtainNarrows(s.pool, cfg, s.acqs[a].key);
      case Replaced(a) => MissNarrows(s.pool, cfg, s.acqs[a].key);
      case Resumed(a) => ResumeNarrows(s.pool, cfg, s.acqs[a].phase.w);
    }
  }

  lemma AnswerNarrows(cfg: Config, s: State, step: Step)
    requires Enabled(s, step) && (step.ValidateDone? || step.CreateDone? || step.CreateFail?)
    ensures Narrows(s.pool, Apply(cfg, s, step).pool)
  {
    ReadyIsWf(s);
    hide Wf, CellsWf, ReleaseReservation, FactoryDone, Validated, Narrows;
    match step {
      case ValidateDone(a, ok) => ValidatedNarrows(s.pool, s.acqs[a].phase.e, ok);
      case CreateDone(a) => CreateNarrows(s.pool, s.acqs[a].key, s.now);
      case CreateFail(a) => CreateNarrows(s.pool, s.acqs[a].key, s.now);
    }
  }

  lemma StepNarrows(cfg: Config, s: State, step: Step)
    requires Enabled(s, step) && !step.DrainStart? && !step.Start?
    ensures Narrows(s.pool, Apply(cfg, s, step).pool)
  {
    if step.Begin? || step.Replaced? || step.Resumed? {
      GateNarrows(cfg, s, step);
    } else if step.ValidateDone? || step.CreateDone? || step.CreateFail? {
      AnswerNarrows(cfg, s, step);
    } else {
      ReadyIsWf(s);
      hide Wf, CellsWf, Narrows, Droppable, Enter, Settled, GcCells, Settle, Sweep, ReleaseEntry, AcquirePrefix,
           FinishStep, EndDisposal, FinishDispose;
      NarrowsNot(s.pool, Apply(cfg, s, step).pool);
      match step {
        case Call(k) => CallNarrows(s.pool, k);
        case Finish(a) => FinishNarrows(s, a);
        case Release(a) => ReleaseNarrows(s.pool, s.acqs[a].phase.e, s.now);
        case ReleaseKey(k, a) =>
          ReleaseKeyIsRelease(cfg, s, k, a);
          ReleaseNarrows(s.pool, s.acqs[a].phase.e, s.now);
        case Timeout(w) => TimeoutNarrows(s.pool, w);
        case SweepTimer => SweepNarrows(s.pool, cfg, s.now);
        case DisposeDone(e) => EndNarrows(s.pool, e);
        case _ =>
      }
    }
  }

  lemma NarrowsNot(p: Pool, q: Pool)
    ensures q == p ==> Narrows(p, q)
  {
  }

  lemma HitNarrows(p: Pool)
    ensures Narrows(p, Hit(p))
  {
  }

  lemma TimeoutNarrows(p: Pool, w: nat)
    requires w < |p.log|
    ensures Narrows(p, Settle(p, w, TimedOut))
  {
  }

  lemma EndNarrows(p: Pool, e: nat)
    requires e < |p.table|
    ensures Narrows(p, FinishDispose(p, e))
  {
  }

  lemma DrainCloses(p: Pool)
    requires Wf(p)
    ensures Drain(p).closed && |Drain(p).table| == |p.table|
  {
    WfClose(p.(closed := true));
    hide CloseWaiters, Held, Outside;
  }

  // --- on every run ---

  lemma {:induction false} RunThen(cfg: Config, s: State, xs: seq<Step>, ys: seq<Step>)
    requires Run(cfg, s, xs) && Run(cfg, End(cfg, s, xs), ys)
    ensures Run(cfg, s, xs + ys) && End(cfg, s, xs + ys) == End(cfg, End(cfg, s, xs), ys)
    decreases |xs|
  {
    hide Enabled, Apply;
    if xs == [] {
      assert xs + ys == ys;
    } else {
      assert (xs + ys)[1..] == xs[1..] + ys;
      RunThen(cfg, Apply(cfg, s, xs[0]), xs[1..], ys);
    }
  }

  lemma AttainableThen(cfg: Config, s: State, steps: seq<Step>)
    requires Attainable(cfg, s) && Run(cfg, s, steps)
    ensures Attainable(cfg, End(cfg, s, steps))
  {
    hide Run, End;
    var now, xs :| Run(cfg, Init(now), xs) && s == End(cfg, Init(now), xs);
    RunThen(cfg, Init(now), xs, steps);
  }

  lemma AttainableStep(cfg: Config, s: State, step: Step)
    requires Attainable(cfg, s) && Enabled(s, step)
    ensures Attainable(cfg, Apply(cfg, s, step))
  {
    hide Enabled, Apply, Attainable;
    assert [step][1..] == [];
    assert Run(cfg, Apply(cfg, s, step), []) && End(cfg, Apply(cfg, s, step), []) == Apply(cfg, s, step);
    AttainableThen(cfg, s, [step]);
  }

  /** Every id in the pool exists, and so does every cell in the mutex map. */
  lemma AttainableReady(cfg: Config, s: State)
    requires Attainable(cfg, s)
    ensures Ready(s)
  {
    AttainableAny(cfg, s);
    ResOf(cfg, s);
    BaseCells(cfg, s);
  }

  predicate Oldest(s: State, a: nat)
    requires At(s, a)
  {
    forall b :: 0 <= b < a && Active(s.acqs[b]) ==> s.acqs[b].key != s.acqs[a].key
  }

  /** The guards of an acquire's steps cut nothing off: obtain begins as soon as no older acquire of the key
      is in flight, and every other step is possible as soon as the phase is right and what it awaits, if
      anything, has happened. */
  lemma GuardsCutNothing(cfg: Config, s: State, a: nat, ok: bool)
    requires Attainable(cfg, s) && At(s, a)
    ensures Ready(s)
    ensures Enabled(s, Begin(a)) <==> s.acqs[a].phase.Queued? && Oldest(s, a)
    ensures Enabled(s, ValidateDone(a, ok)) <==> s.acqs[a].phase.Validating?
    ensures s.acqs[a].phase.Replacing? ==>
      s.acqs[a].phase.e < |s.pool.table|
      && (Enabled(s, Replaced(a)) <==> s.pool.table[s.acqs[a].phase.e].life.Disposed?)
    ensures s.acqs[a].phase.Parked? ==>
      s.acqs[a].phase.w < |s.pool.log| && (Enabled(s, Resumed(a)) <==> !s.pool.log[s.acqs[a].phase.w].Waiting?)
    ensures Enabled(s, Finish(a)) <==> s.acqs[a].phase.Resolved? || s.acqs[a].phase.Rejected?
    ensures Enabled(s, Release(a)) <==> Outstanding(s.acqs[a])
  {
    hide AnyInv, BaseInv, ResInv, MutexInv, QueueOk, WaiterInv, PendingOk, ClaimOk, IsHead, Wf, CellsWf, Attainable,
         Ready, Enabled, Oldest;
    AttainableReady(cfg, s);
    AttainableAny(cfg, s);
    ClaimHere(cfg, s, a);
    if s.acqs[a].phase.Queued? {
      BeginsIfOldest(s, a);
    } else if Active(s.acqs[a]) {
      HeadOf(s, a);
    }
    GuardsOf(s, a, ok);
  }

  lemma HeadOf(s: State, a: nat)
    requires MutexInv(s.mx, s.acqs) && At(s, a) && Active(s.acqs[a]) && !s.acqs[a].phase.Queued?
    ensures IsHead(s.mx, s.acqs, a)
  {
    RunnerIsHead(s.mx, s.acqs, a);
  }

  lemma GuardsOf(s: State, a: nat, ok: bool)
    requires Ready(s) && At(s, a) && ClaimOk(s.pool, s.acqs[a].key, s.acqs[a].phase)
    requires Active(s.acqs[a]) && !s.acqs[a].phase.Queued? ==> IsHead(s.mx, s.acqs, a)
    requires s.acqs[a].phase.Queued? ==> (Enabled(s, Begin(a)) <==> Oldest(s, a))
    ensures Enabled(s, Begin(a)) <==> s.acqs[a].phase.Queued? && Oldest(s, a)
    ensures Enabled(s, ValidateDone(a, ok)) <==> s.acqs[a].phase.Validating?
    ensures s.acqs[a].phase.Replacing? ==>
      s.acqs[a].phase.e < |s.pool.table|
      && (Enabled(s, Replaced(a)) <==> s.pool.table[s.acqs[a].phase.e].life.Disposed?)
    ensures s.acqs[a].phase.Parked? ==>
      s.acqs[a].phase.w < |s.pool.log| && (Enabled(s, Resumed(a)) <==> !s.pool.log[s.acqs[a].phase.w].Waiting?)
    ensures Enabled(s, Finish(a)) <==> s.acqs[a].phase.Resolved? || s.acqs[a].phase.Rejected?
    ensures Enabled(s, Release(a)) <==> Outstanding(s.acqs[a])
  {
    hide Wf, CellsWf, Oldest;
  }

  lemma ClaimHere(cfg: Config, s: State, a: nat)
    requires AnyInv(cfg, s) && At(s, a)
    ensures ClaimOk(s.pool, s.acqs[a].key, s.acqs[a].phase) && MutexInv(s.mx, s.acqs)
  {
    WaitersOfBase(cfg, s);
  }

  lemma BeginsIfOldest(s: State, a: nat)
    requires MutexInv(s.mx, s.acqs) && At(s, a) && s.acqs[a].phase.Queued? && Ready(s)
    ensures Enabled(s, Begin(a)) <==> Oldest(s, a)
  {
    hide Wf, CellsWf;
    assert ChainedOk(s.mx, s.acqs, a);
    var c := s.acqs[a].cell;
    assert CellOk(s.mx, s.acqs, c);
    if Enabled(s, Begin(a)) {
      forall b | 0 <= b < a && s.acqs[b].key == s.acqs[a].key ensures !Active(s.acqs[b]) {
        StartsInCallOrder(s.mx, s.acqs, a, b);
      }
    }
  }

  /** When a drain since the last start() has completed, nothing is resident. */
  lemma ClosedIsEmpty(cfg: Config, s: State, d: nat)
    requires Attainable(cfg, s) && s.pool.closed && s.openedAt <= d < |s.drains| && s.drains[d].done
    ensures s.pool.entries == map[] && s.pool.orphans == map[]
  {
    hide BaseInv, AnyInv, ResInv, QueueOk, ClaimInv, Grounded, AwaitInv;
    AttainableAny(cfg, s);
    ResOf(cfg, s);
    AwaitsHere(cfg, s);
    assert DrainOk(s.pool.table, s.awaits, s.drains[d]);
    AllSettledIffDisposed(s.pool.table, s.awaits, s.drains[d].waits);
    assert forall k :: k in s.pool.entries ==> s.pool.table[s.pool.entries[k]].life.Disposed?;
    assert forall k :: k in s.pool.orphans ==> s.pool.table[s.pool.orphans[k]].life.Disposed?;
    NoneResident(s.pool);
  }

  lemma AwaitsHere(cfg: Config, s: State)
    requires AnyInv(cfg, s)
    ensures BoardOk(s.pool.table, s.awaits)
    ensures forall d :: 0 <= d < |s.drains| ==> DrainOk(s.pool.table, s.awaits, s.drains[d])
  {
    AwaitsOfBase(cfg, s);
  }

  lemma NoneResident(p: Pool)
    requires Grounded(p)
    requires forall k :: k in p.entries ==> p.table[p.entries[k]].life.Disposed?
    requires forall k :: k in p.orphans ==> p.table[p.orphans[k]].life.Disposed?
    ensures p.entries == map[] && p.orphans == map[]
  {
    assert p.entries.Keys == {};
    assert p.orphans.Keys == {};
  }

  /** A start() that waits for all drains finds an open pool, or one with nothing in it. */
  lemma WaitingFindsNothing(cfg: Config, s: State)
    requires Attainable(cfg, s) && DrainsDone(s) && s.pool.closed
    ensures s.pool.entries == map[] && s.pool.orphans == map[]
  {
    AttainableAny(cfg, s);
    ResOf(cfg, s);
    hide AnyInv, BaseInv, ResInv, Grounded, ClaimInv, QueueOk;
    ClosedIsEmpty(cfg, s, s.openedAt);
  }
}
