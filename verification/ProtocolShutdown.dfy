/** Drain is complete and loses nothing, on every run; what needs a safe run says so. */
module ProtocolShutdown {
  import opened Counting
  import opened PoolModel
  import opened PoolInvariant
  import opened PoolBulk
  import opened PoolTheorems
  import opened PoolDrain
  import opened MutexModel
  import opened AwaitModel
  import opened Protocol
  import opened ProtocolMutex
  import opened ProtocolPhases
  import opened ProtocolCounts
  import opened ProtocolInvariant
  import opened ProtocolSteps
  import opened ProtocolBase
  import opened PoolResidents
  import opened ProtocolResidents
  import opened ProtocolClosing
  import opened ProtocolCapacity
  import opened ProtocolWakeups
  import opened ProtocolTheorems

  lemma SomeIdle(p: Pool, now: int)
    requires PoolInv(p, now)
    ensures p.idle != [] ==> p.idle[0] < |p.table| && IsLive(p, p.idle[0]) && p.table[p.idle[0]].refCount == 0
  {
    if p.idle != [] {
      IdleIsUnheld(p, now, p.idle[0]);
    }
  }

  lemma IdleIsUnheld(p: Pool, now: int, e: nat)
    requires PoolInv(p, now) && e in p.idle
    ensures IsLive(p, e) && p.table[e].refCount == 0
  {
  }

  /** A closed pool: everything resident is condemned and has a handle that is not released, nobody waits,
      and on safe runs nothing is idle. */
  lemma ClosedPool(cfg: Config, s: State)
    requires Attainable(cfg, s) && s.pool.closed
    ensures s.pool.queue == [] && (Reachable(cfg, s) ==> s.pool.idle == [])
    ensures forall w :: 0 <= w < |s.pool.log| ==> !s.pool.log[w].Waiting?
    ensures forall e :: 0 <= e < |s.pool.table| && (IsLive(s.pool, e) || IsOrphan(s.pool, e)) ==>
      s.pool.table[e].condemned && s.pool.table[e].refCount > 0 && Count(s.acqs, Holds(e)) > 0
  {
    hide AnyInv, BaseInv, ResInv, Grounded, ClaimInv, HeldInv, Attainable, Reachable;
    AttainableAny(cfg, s);
    ResOf(cfg, s);
    forall e | 0 <= e < |s.pool.table| && (IsLive(s.pool, e) || IsOrphan(s.pool, e))
      ensures s.pool.table[e].condemned && s.pool.table[e].refCount > 0 && Count(s.acqs, Holds(e)) > 0
    {
      ClosedResident(cfg, s, e);
    }
    forall w | 0 <= w < |s.pool.log| ensures !s.pool.log[w].Waiting? {
      assert w !in s.pool.queue;
    }
    if Reachable(cfg, s) {
      ClosedIdle(cfg, s);
    }
  }

  lemma ClosedIdle(cfg: Config, s: State)
    requires Reachable(cfg, s) && s.pool.closed
    ensures s.pool.idle == []
  {
    ReachableInv(cfg, s);
    DrainsOf(cfg, s);
    hide Inv;
    SomeIdle(s.pool, s.now);
    forall e | 0 <= e < |s.pool.table| && IsLive(s.pool, e) ensures s.pool.table[e].refCount > 0 {
      assert RecOk(s.pool.table, s.pool.entries, s.pool.orphans, e);
    }
  }

  /** What is condemned and lives has a handle. */
  lemma CondemnedIsHeld(cfg: Config, s: State, e: nat)
    requires AnyInv(cfg, s) && e < |s.pool.table| && s.pool.table[e].life.Live? && s.pool.table[e].condemned
    ensures s.pool.table[e].refCount > 0 && Count(s.acqs, Holds(e)) > 0
  {
    hide BaseInv, ClaimInv, ClosingInv;
  }

  lemma ClosedResident(cfg: Config, s: State, e: nat)
    requires AnyInv(cfg, s) && s.pool.closed && e < |s.pool.table| && (IsLive(s.pool, e) || IsOrphan(s.pool, e))
    ensures s.pool.table[e].condemned && s.pool.table[e].refCount > 0 && Count(s.acqs, Holds(e)) > 0
  {
    ResOf(cfg, s);
    assert e in Awaited(s.drains[s.openedAt].waits);
    assert Doomed(s.pool.table, s.drains[s.openedAt].waits);
    hide BaseInv, ResInv, ClosingInv, QueueOk, Awaited;
    CondemnedIsHeld(cfg, s, e);
  }

  /** What a drain awaits is the disposal of every resource that is resident when it starts. */
  lemma DrainAwaitsAll(cfg: Config, s: State)
    requires Attainable(cfg, s)
    ensures Enabled(s, DrainStart)
    ensures Apply(cfg, s, DrainStart).drains[..|s.drains|] == s.drains
    ensures |Apply(cfg, s, DrainStart).drains| == |s.drains| + 1
    ensures Awaited(Apply(cfg, s, DrainStart).drains[|s.drains|].waits) == Residents(s.pool)
  {
    hide AnyInv, BaseInv, ResInv, Grounded, ClaimInv, QueueOk, Residents, Waits, Drain, CellsWf, ClosingInv;
    AttainableReady(cfg, s);
    AttainableAny(cfg, s);
    ResOf(cfg, s);
    DisjointKeys(s.pool);
    AwaitsResidents(s.pool, |s.drains|);
    RangeBoth(s.pool);
    ResidentsAre(s.pool);
  }

  lemma DisjointKeys(p: Pool)
    requires Grounded(p)
    ensures p.entries.Keys !! p.orphans.Keys
  {
  }

  lemma ResidentsAre(p: Pool)
    ensures Residents(p) == Range(p.entries) + Range(p.orphans)
  {
  }

  /** On every run: a promise that a drain awaits has resolved if and only if the entry it is about has
      been disposed. */
  lemma PromiseIsDisposal(cfg: Config, s: State, d: nat, w: Wait)
    requires Attainable(cfg, s) && d < |s.drains| && w in s.drains[d].waits
    ensures EntryOf(w) < |s.pool.table|
    ensures IsSettled(s.awaits, w) <==> s.pool.table[EntryOf(w)].life.Disposed?
  {
    AttainableBase(cfg, s);
    assert DrainOk(s.pool.table, s.awaits, s.drains[d]);
    assert WaitOk(s.pool.table, s.awaits, w);
    SettledIffDisposed(s.pool.table, s.awaits, w);
  }

  /** Hence a drain can complete if and only if all that it awaits has been disposed. */
  lemma DrainCompletesIff(cfg: Config, s: State, d: nat)
    requires Attainable(cfg, s) && d < |s.drains| && !s.drains[d].done
    ensures forall e :: e in Awaited(s.drains[d].waits) ==> e < |s.pool.table|
    ensures Enabled(s, DrainDone(d)) <==>
      forall e :: e in Awaited(s.drains[d].waits) ==> s.pool.table[e].life.Disposed?
  {
    AttainableReady(cfg, s);
    AttainableBase(cfg, s);
    hide Wf, CellsWf;
    assert DrainOk(s.pool.table, s.awaits, s.drains[d]);
    AllSettledIffDisposed(s.pool.table, s.awaits, s.drains[d].waits);
  }

  /** When a drain has completed, all that it awaited has been disposed, once, on every run. */
  lemma DrainIsComplete(cfg: Config, s: State, d: nat, e: nat)
    requires Attainable(cfg, s) && d < |s.drains| && s.drains[d].done && e in Awaited(s.drains[d].waits)
    ensures e < |s.pool.table| && s.pool.table[e].life.Disposed? && s.pool.table[e].disposeCalls == 1
  {
    AttainableBase(cfg, s);
    assert DrainOk(s.pool.table, s.awaits, s.drains[d]);
    AllSettledIffDisposed(s.pool.table, s.awaits, s.drains[d].waits);
  }

  /** When a drain has completed and the pool was not started since, the pool is empty; on safe runs no
      resource is live at all. */
  lemma DrainLeavesNothing(cfg: Config, s: State, d: nat)
    requires Attainable(cfg, s) && s.pool.closed && s.openedAt <= d < |s.drains| && s.drains[d].done
    ensures s.pool.entries == map[] && s.pool.orphans == map[]
    ensures Reachable(cfg, s) ==> forall e :: 0 <= e < |s.pool.table| ==>
      s.pool.table[e].life == Disposed || s.pool.table[e].life == Disposing
  {
    hide Attainable, Reachable;
    ClosedIsEmpty(cfg, s, d);
    if Reachable(cfg, s) {
      NothingIsLive(cfg, s);
    }
  }

  lemma NothingIsLive(cfg: Config, s: State)
    requires Reachable(cfg, s) && NothingResident(s.pool)
    ensures forall e :: 0 <= e < |s.pool.table| ==> !s.pool.table[e].life.Live?
  {
    ReachableInv(cfg, s);
    DrainsOf(cfg, s);
    hide Inv, PoolInv;
    NothingLives(s.pool, s.now);
  }

  /** No hang, on any run: the promises of a drain have all resolved as soon as the handles are released and
      the disposals in flight are over; also when the pool was started meanwhile. */
  lemma DrainCanComplete(cfg: Config, s: State, d: nat)
    requires Attainable(cfg, s) && d < |s.drains| && !s.drains[d].done
    requires forall a :: 0 <= a < |s.acqs| ==> !Outstanding(s.acqs[a])
    requires forall e :: 0 <= e < |s.pool.table| ==> !s.pool.table[e].life.Disposing?
    ensures Enabled(s, DrainDone(d))
  {
    hide AnyInv, BaseInv, ResInv, Grounded, ClaimInv, QueueOk, Awaited, Attainable, Enabled;
    AttainableAny(cfg, s);
    ResOf(cfg, s);
    assert Doomed(s.pool.table, s.drains[d].waits);
    forall e | e in Awaited(s.drains[d].waits) ensures e < |s.pool.table| && s.pool.table[e].life.Disposed? {
      if s.pool.table[e].life.Live? {
        CondemnedIsHeld(cfg, s, e);
        var a := CountWitness(s.acqs, Holds(e));
      }
    }
    DrainCompletesIff(cfg, s, d);
  }

  /** A closed pool admits no entry: what the factory delivers late goes to disposal, and its acquire
      is told that the pool is closed. */
  lemma ClosedAdmitsNothing(cfg: Config, s: State, step: Step)
    requires Enabled(s, step) && s.pool.closed && !step.Start?
    ensures var t := Apply(cfg, s, step); t.pool.closed && |t.pool.table| == |s.pool.table|
    ensures step.CreateDone? ==> Apply(cfg, s, step).acqs[step.a].phase == LateDisposing
    ensures step.LateDone? ==> Apply(cfg, s, step).acqs[step.a].phase == Rejected(PoolClosed)
  {
    if step.DrainStart? {
      ReadyIsWf(s);
      hide Wf, CellsWf, Drain, Waits;
      DrainCloses(s.pool);
    } else {
      LateIsRefused(cfg, s, step);
      hide Enabled, Apply;
      StepNarrows(cfg, s, step);
    }
  }

  lemma LateIsRefused(cfg: Config, s: State, step: Step)
    requires Enabled(s, step) && s.pool.closed
    ensures step.CreateDone? ==> Apply(cfg, s, step).acqs[step.a].phase == LateDisposing
    ensures step.LateDone? ==> Apply(cfg, s, step).acqs[step.a].phase == Rejected(PoolClosed)
  {
    hide Wf, CellsWf, ReleaseReservation;
  }

  /** Over any run without start(), a closed pool creates nothing. */
  lemma {:induction false} ClosedStaysEmptyHanded(cfg: Config, s: State, steps: seq<Step>)
    requires Run(cfg, s, steps) && s.pool.closed
    requires forall i :: 0 <= i < |steps| ==> !steps[i].Start?
    ensures End(cfg, s, steps).pool.closed
    ensures |End(cfg, s, steps).pool.table| == |s.pool.table|
    decreases |steps|
  {
    hide Enabled, Apply;
    if steps != [] {
      ClosedAdmitsNothing(cfg, s, steps[0]);
      ClosedStaysEmptyHanded(cfg, Apply(cfg, s, steps[0]), steps[1..]);
    }
  }

  // --- from the call of drain to its end ---

  lemma StepKeepsWaits(cfg: Config, s: State, step: Step, d: nat)
    requires Enabled(s, step) && d < |s.drains|
    ensures d < |Apply(cfg, s, step).drains| && Apply(cfg, s, step).drains[d].waits == s.drains[d].waits
    ensures !step.Start? ==> Apply(cfg, s, step).openedAt == s.openedAt
  {
    hide Wf, CellsWf, Enter, Settled, GcCells, Droppable, Waits, ObtainStart, ObtainMiss, Resume, Validated,
         FactoryDone,
         ReleaseReservation, Drain, Sweep, ReleaseEntry, ReleaseByKey, FinishOk, DecPending, AcquirePrefix, Settle;
  }

  lemma {:induction false} RunKeepsWaits(cfg: Config, s: State, steps: seq<Step>, d: nat)
    requires Run(cfg, s, steps) && d < |s.drains|
    ensures d < |End(cfg, s, steps).drains| && End(cfg, s, steps).drains[d].waits == s.drains[d].waits
    ensures (forall i :: 0 <= i < |steps| ==> !steps[i].Start?) ==> End(cfg, s, steps).openedAt == s.openedAt
    decreases |steps|
  {
    hide Enabled, Apply;
    if steps != [] {
      StepKeepsWaits(cfg, s, steps[0], d);
      RunKeepsWaits(cfg, Apply(cfg, s, steps[0]), steps[1..], d);
    }
  }

  /** On every run, also when the drain meets an acquire on its way to a checkout: whatever is resident when
      drain is called has been disposed, once, when that drain completes; and if start() was not called in
      between, nothing at all is left in the pool. */
  lemma DrainEndToEnd(cfg: Config, s: State, steps: seq<Step>)
    requires Attainable(cfg, s) && Enabled(s, DrainStart) && Run(cfg, Apply(cfg, s, DrainStart), steps)
    ensures var t := End(cfg, Apply(cfg, s, DrainStart), steps); |s.drains| < |t.drains|
    ensures var t := End(cfg, Apply(cfg, s, DrainStart), steps); t.drains[|s.drains|].done ==>
      (forall e :: e in Residents(s.pool) ==>
         e < |t.pool.table| && t.pool.table[e].life.Disposed? && t.pool.table[e].disposeCalls == 1)
    ensures var t := End(cfg, Apply(cfg, s, DrainStart), steps);
      t.drains[|s.drains|].done && (forall i :: 0 <= i < |steps| ==> !steps[i].Start?) ==>
        t.pool.entries == map[] && t.pool.orphans == map[]
  {
    hide Attainable, Enabled, Apply, Residents;
    var d := |s.drains|;
    var s' := Apply(cfg, s, DrainStart);
    DrainAwaitsAll(cfg, s);
    AttainableStep(cfg, s, DrainStart);
    AttainableThen(cfg, s', steps);
    RunKeepsWaits(cfg, s', steps, d);
    var t := End(cfg, s', steps);
    if t.drains[d].done {
      forall e | e in Residents(s.pool)
        ensures e < |t.pool.table| && t.pool.table[e].life.Disposed? && t.pool.table[e].disposeCalls == 1
      {
        DrainIsComplete(cfg, t, d, e);
      }
      if forall i :: 0 <= i < |steps| ==> !steps[i].Start? {
        DrainOpens(cfg, s);
        ClosedStaysEmptyHanded(cfg, s', steps);
        ClosedIsEmpty(cfg, t, d);
      }
    }
  }

  lemma DrainOpens(cfg: Config, s: State)
    requires Attainable(cfg, s) && Enabled(s, DrainStart)
    ensures Apply(cfg, s, DrainStart).pool.closed && Apply(cfg, s, DrainStart).openedAt <= |s.drains|
  {
    hide AnyInv, BaseInv, ResInv, Grounded, ClaimInv, QueueOk, Wf, CellsWf, Drain, Waits, Attainable;
    AttainableAny(cfg, s);
    ResOf(cfg, s);
    DrainCloses(s.pool);
  }
}
