/** What becomes of an acquire, step by step and on every run: what it is given, when it parks, why it is
    refused, and that what failed its validation is never handed out. */
module ProtocolOutcomes {
  import opened Counting
  import opened PoolModel
  import opened PoolInvariant
  import opened PoolBulk
  import opened PoolTheorems
  import opened PoolResidents
  import opened PoolRecords
  import opened MutexModel
  import opened AwaitModel
  import opened Protocol
  import opened ProtocolMutex
  import opened ProtocolPhases
  import opened ProtocolCounts
  import opened ProtocolInvariant
  import opened ProtocolSteps
  import opened ProtocolBase
  import opened ProtocolResidents
  import opened ProtocolClosing
  import opened ProtocolCapacity
  import opened ProtocolWakeups
  import opened ProtocolTheorems
  import opened ProtocolLedgers
  import opened ProtocolTimes

  // --- the gate ---

  function IsUnsettled(): WaiterState -> bool { (x: WaiterState) => x.Waiting? }

  /** How many acquires are parked and not settled. */
  function NumberParked(s: State): nat { Count(s.pool.log, IsUnsettled()) }

  /** There is a slot that is neither an entry's nor reserved by an acquire on its way to the factory. */
  predicate HasFreeSlot(cfg: Config, s: State) { |s.pool.entries| + Count(s.acqs, IsReserving()) < cfg.max }

  /** There is an idle entry to be evicted. */
  predicate HasVictim(s: State) { exists e: nat :: e < |s.pool.table| && Unwanted(s.pool, e) }

  predicate QueueFull(cfg: Config, s: State) { cfg.maxWaiters.Some? && NumberParked(s) >= cfg.maxWaiters.value }

  /** The step takes acquire a through a turn of the gate: its key has no entry, or its waiter was woken. */
  predicate ToGate(s: State, step: Step, a: nat)
    requires Enabled(s, step)
  {
    match step
    case Begin(b) => b == a && Absent(s.pool, s.acqs[a].key) && !s.pool.closed
    case Replaced(b) => b == a && !s.pool.closed
    case Resumed(b) => b == a && s.pool.log[s.acqs[a].phase.w].WokenUp?
    case _ => false
  }

  lemma QueueIsCount(log: seq<WaiterState>, queue: seq<nat>)
    requires QueueOk(log, queue)
    ensures |queue| == Count(log, IsUnsettled())
  {
    CountIsCardinality(log, IsUnsettled());
    DistinctIsSet(queue);
    assert Elements(queue) == Positions(log, IsUnsettled());
  }

  lemma FreeIffUnwanted(p: Pool)
    requires Wf(p) && IdleFree(p.table, p.idle)
    ensures FirstFree(p, p.idle).Some? <==> exists e: nat :: e < |p.table| && Unwanted(p, e)
  {
    FirstFreeIs(p, p.idle);
    hide FirstFree, IsPending, Wf;
    if FirstFree(p, p.idle).Some? {
      FreeInTable(p);
      assert Unwanted(p, FirstFree(p, p.idle).value);
    } else {
      assert forall e :: e in p.idle ==> IsPending(p, p.table[e].key);
    }
  }

  /** A turn of the gate, for the pool alone. */
  lemma SlotDecides(p: Pool, cfg: Config)
    requires Wf(p)
    ensures var r, full := SlotStep(p, cfg).1, cfg.maxWaiters.Some? && |p.queue| >= cfg.maxWaiters.value;
      if cfg.max <= 0 then r == Granted
      else if p.closed then r == Refused(PoolClosed)
      else if |p.entries| + p.reserved < cfg.max || FirstFree(p, p.idle).Some? then r == Granted
      else if full then r == Refused(PoolExhausted)
      else r == ParkedAs(|p.log|) && SlotStep(p, cfg).0 == Park(p)
  {
  }

  lemma GateFacts(cfg: Config, s: State)
    requires Attainable(cfg, s)
    ensures Wf(s.pool) && IdleFree(s.pool.table, s.pool.idle) && QueueOk(s.pool.log, s.pool.queue)
    ensures cfg.max >= 1 ==> s.pool.reserved == Count(s.acqs, IsReserving())
    ensures |s.pool.queue| == NumberParked(s)
  {
    hide BaseInv, ResInv, Attainable;
    AttainableAny(cfg, s);
    ResOf(cfg, s);
    TrafficLedger(cfg, s);
    QueueIsCount(s.pool.log, s.pool.queue);
  }

  /** The turn of the gate on the pool z, which is the pool but for the count of misses. */
  lemma TurnDecides(cfg: Config, s: State, z: Pool)
    requires Attainable(cfg, s) && z == s.pool.(counters := z.counters)
    ensures Wf(z)
    ensures SlotStep(z, cfg).1 ==
      if cfg.max <= 0 then Granted
      else if s.pool.closed then Refused(PoolClosed)
      else if HasFreeSlot(cfg, s) || HasVictim(s) then Granted
      else if QueueFull(cfg, s) then Refused(PoolExhausted)
      else ParkedAs(|s.pool.log|)
    ensures SlotStep(z, cfg).1.ParkedAs? ==> SlotStep(z, cfg).0 == Park(z)
  {
    GateFacts(cfg, s);
    WfCounters(s.pool, z);
    SlotDecides(z, cfg);
    hide SlotStep, Wf, QueueOk, FirstFree, Attainable, IdleFree;
    FreeIffUnwanted(z);
    assert forall e: nat :: e < |s.pool.table| ==> (Unwanted(z, e) <==> Unwanted(s.pool, e));
  }

  /** What a turn of the gate makes of an acquire. */
  function Decision(cfg: Config, s: State): Phase {
    if cfg.max <= 0 then Reserved
    else if s.pool.closed then Rejected(PoolClosed)
    else if HasFreeSlot(cfg, s) || HasVictim(s) then Reserved
    else if QueueFull(cfg, s) then Rejected(PoolExhausted)
    else Parked(|s.pool.log|)
  }

  lemma TurnIs(cfg: Config, s: State, a: nat, z: Pool)
    requires Attainable(cfg, s) && z == s.pool.(counters := z.counters) && At(s, a)
    ensures Wf(z)
    ensures var t := MoveGate(s, a, AfterSlot(SlotStep(z, cfg)));
      t.acqs == s.acqs[a := s.acqs[a].(phase := Decision(cfg, s))] && t.pool == SlotStep(z, cfg).0
    ensures Decision(cfg, s).Parked? ==> SlotStep(z, cfg).0 == Park(z)
  {
    TurnDecides(cfg, s, z);
    hide SlotStep, Wf, Attainable, HasFreeSlot, HasVictim, QueueFull;
  }

  /** The gate decides exactly so: an acquire is refused as exhausted if and only if the pool is open, all its
      slots are taken, there is nothing to evict and as many acquires are parked as may be; with fewer it
      parks, behind all others; and it goes on as soon as there is a slot or a victim. */
  lemma GateDecides(cfg: Config, s: State, step: Step, a: nat)
    requires Attainable(cfg, s) && Enabled(s, step) && ToGate(s, step, a)
    ensures Apply(cfg, s, step).acqs == s.acqs[a := s.acqs[a].(phase := Decision(cfg, s))]
    ensures Decision(cfg, s).Parked? ==>
      Apply(cfg, s, step).pool.log == s.pool.log + [Waiting]
      && Apply(cfg, s, step).pool.queue == s.pool.queue + [|s.pool.log|]
    ensures Decision(cfg, s) == Rejected(PoolExhausted) ==> NumberParked(s) == cfg.maxWaiters.value
  {
    var z := if step.Resumed? then s.pool else Missed(s.pool);
    TurnIs(cfg, s, a, z);
    MissIsTurn(cfg, s, step, a, z);
    ParkedAtMost(cfg, s);
    hide Attainable, Enabled, Apply, ToGate, SlotStep, Wf, HasFreeSlot, HasVictim;
  }

  lemma MissIsTurn(cfg: Config, s: State, step: Step, a: nat, z: Pool)
    requires Attainable(cfg, s) && Enabled(s, step) && ToGate(s, step, a)
    requires z == if step.Resumed? then s.pool else Missed(s.pool)
    ensures Wf(z) && At(s, a) && Apply(cfg, s, step) == MoveGate(s, a, AfterSlot(SlotStep(z, cfg)))
  {
    GateFacts(cfg, s);
    AbsentAtGate(cfg, s, step, a);
    hide Attainable, SlotStep, QueueOk, IdleFree, CellsWf;
    WfCounters(s.pool, z);
  }

  lemma AbsentAtGate(cfg: Config, s: State, step: Step, a: nat)
    requires Attainable(cfg, s) && Enabled(s, step) && ToGate(s, step, a)
    ensures At(s, a) && Absent(s.pool, s.acqs[a].key)
  {
    AttainableAny(cfg, s);
    hide Attainable, BaseInv, Grounded, HeldInv, ClosingInv, Wf, CellsWf;
    assert ClaimOk(s.pool, s.acqs[a].key, s.acqs[a].phase);
  }

  lemma ParkedAtMost(cfg: Config, s: State)
    requires Attainable(cfg, s)
    ensures cfg.maxWaiters.Some? ==> NumberParked(s) <= cfg.maxWaiters.value
  {
    GateFacts(cfg, s);
    AttainableBase(cfg, s);
  }

  // --- before the gate ---

  /** A call takes a held entry of its key at once, and queues for its mutex otherwise. */
  lemma CallDecides(cfg: Config, s: State, k: Key)
    requires Attainable(cfg, s) && Enabled(s, Call(k))
    ensures var t := Apply(cfg, s, Call(k)); |t.acqs| == |s.acqs| + 1 && t.acqs[..|s.acqs|] == s.acqs
    ensures var x := Apply(cfg, s, Call(k)).acqs[|s.acqs|];
      && x.key == k
      && (if k in s.pool.entries && Count(s.acqs, Holds(s.pool.entries[k])) > 0
          then x.phase == Done(s.pool.entries[k], false) else x.phase == Queued)
  {
    hide BaseInv, ClaimInv, ClosingInv, QueueOk, CellsWf, Attainable;
    AttainableAny(cfg, s);
    ResOf(cfg, s);
    hide Enter, Wf, IncPending, DecPending, Checkout, Hit;
    if k in s.pool.entries {
      LiveCount(s.pool, s.acqs, k);
    }
  }

  lemma LiveCount(p: Pool, acqs: seq<Acq>, k: Key)
    requires Grounded(p) && HeldInv(p.table, acqs) && k in p.entries
    ensures p.entries[k] < |p.table| && p.table[p.entries[k]].key == k && p.table[p.entries[k]].life.Live?
    ensures p.table[p.entries[k]].refCount == Count(acqs, Holds(p.entries[k]))
  {
  }

  /** obtain of a resident key: a live entry that nobody holds is validated if there is a validate, any other
      one is taken as it is, and so is an orphan, which becomes the live entry again. */
  lemma ObtainDecides(cfg: Config, s: State, a: nat)
    requires Attainable(cfg, s) && Enabled(s, Begin(a))
    ensures var k := s.acqs[a].key; var t := Apply(cfg, s, Begin(a));
      && (k in s.pool.entries ==>
           var e := s.pool.entries[k];
           t.acqs[a].phase == if cfg.validates && Count(s.acqs, Holds(e)) == 0 then Validating(e) else Resolved(e))
      && (k in s.pool.orphans ==>
           var e := s.pool.orphans[k];
           t.acqs[a].phase == Resolved(e) && k in t.pool.entries && t.pool.entries[k] == e && k !in t.pool.orphans)
      && (Absent(s.pool, k) && s.pool.closed ==> t.acqs[a].phase == Rejected(PoolClosed))
  {
    hide BaseInv, ClaimInv, ClosingInv, QueueOk, CellsWf, Attainable, SlotStep, Grounded, HeldInv;
    AttainableAny(cfg, s);
    ResOf(cfg, s);
    ResHere(s);
    hide Wf, ResInv, AnyInv;
    var k := s.acqs[a].key;
    if k in s.pool.entries {
      LiveCount(s.pool, s.acqs, k);
      DisjointMaps(s.pool, k);
    } else if k in s.pool.orphans {
      OrphanLives(s.pool, k);
    }
  }

  lemma ResHere(s: State)
    requires ResInv(s.pool, s.acqs, s.drains, s.openedAt)
    ensures Grounded(s.pool) && HeldInv(s.pool.table, s.acqs) && ClaimInv(s.pool, s.acqs)
  {
  }

  lemma DisjointMaps(p: Pool, k: Key)
    requires Grounded(p) && k in p.entries
    ensures k !in p.orphans
  {
  }

  lemma OrphanLives(p: Pool, k: Key)
    requires Grounded(p) && k in p.orphans
    ensures p.orphans[k] < |p.table| && p.table[p.orphans[k]].life.Live?
  {
  }

  // --- validation ---

  /** No map and no list leads to e. */
  predicate Nowhere(p: Pool, e: nat) {
    && (forall k :: k in p.entries ==> p.entries[k] != e) && (forall k :: k in p.orphans ==> p.orphans[k] != e)
    && e !in p.idle
  }

  /** An entry that has failed its validation is given to disposal, is found nowhere any more, and is waited
      for; one that has passed is what its acquire gets, and nothing else happens to it. */
  lemma ValidationDecides(cfg: Config, s: State, a: nat, ok: bool)
    requires Attainable(cfg, s) && Enabled(s, ValidateDone(a, ok))
    ensures var t, e := Apply(cfg, s, ValidateDone(a, ok)), s.acqs[a].phase.e;
      if ok then
        && t.acqs == s.acqs[a := s.acqs[a].(phase := Resolved(e))]
        && t.pool == s.pool.(counters := s.pool.counters.(hits := s.pool.counters.hits + 1))
      else
        && t.acqs == s.acqs[a := s.acqs[a].(phase := Replacing(e))]
        && e < |t.pool.table| && !t.pool.table[e].life.Live? && Nowhere(t.pool, e)
  {
    hide Attainable, AnyInv, Wf, CellsWf, Nowhere, RemoveEntry, Dispose;
    if !ok {
      AttainableAny(cfg, s);
      InvalidGoes(cfg, s, a);
    }
  }

  lemma InvalidGoes(cfg: Config, s: State, a: nat)
    requires AnyInv(cfg, s) && Enabled(s, ValidateDone(a, false))
    ensures var t, e := Apply(cfg, s, ValidateDone(a, false)), s.acqs[a].phase.e;
      && t.acqs == s.acqs[a := s.acqs[a].(phase := Replacing(e))]
      && e < |t.pool.table| && !t.pool.table[e].life.Live? && Nowhere(t.pool, e)
  {
    ResOf(cfg, s);
    assert ClaimOk(s.pool, s.acqs[a].key, s.acqs[a].phase);
    hide AnyInv, BaseInv, ClaimInv, HeldInv, ClosingInv, QueueOk, Wf, CellsWf;
    RemovedIsNowhere(s.pool, s.acqs[a].phase.e);
    hide RemoveEntry, Dispose, Nowhere;
  }

  lemma RemovedIsNowhere(p: Pool, e: nat)
    requires Grounded(p) && e < |p.table|
    ensures |RemoveEntry(p, e).table| == |p.table|
    ensures Nowhere(Dispose(RemoveEntry(p, e), e), e) && e < |Dispose(RemoveEntry(p, e), e).table|
    ensures !Dispose(RemoveEntry(p, e), e).table[e].life.Live?
  {
    WithoutDistinct(p.idle, e);
    hide Without;
  }

  /** Acquire x has chosen entry e, or had it. */
  predicate Offered(x: Acq, e: nat) {
    (x.phase.Validating? || x.phase.Resolved? || x.phase.Done?) && x.phase.e == e
  }

  /** Entry e is dead, and whom it was offered to has returned already. */
  predicate Shunned(s: State, e: nat) {
    && e < |s.pool.table| && !s.pool.table[e].life.Live?
    && forall b :: 0 <= b < |s.acqs| && Offered(s.acqs[b], e) ==> s.acqs[b].phase.Done?
  }

  /** Nobody new is offered e. */
  predicate NoneNew(s: State, t: State, e: nat) {
    |s.acqs| <= |t.acqs| && forall b :: 0 <= b < |t.acqs| && Offered(t.acqs[b], e) ==>
      b < |s.acqs| && Offered(s.acqs[b], e) && t.acqs[b].phase.Done?
  }

  /** The one acquire that a step moves was not offered a dead entry. */
  predicate MovesFair(s: State, t: State, a: nat, e: nat) {
    && a < |s.acqs| == |t.acqs| && (forall b :: 0 <= b < |s.acqs| && b != a ==> t.acqs[b] == s.acqs[b])
    && (Offered(t.acqs[a], e) ==> Offered(s.acqs[a], e))
    && (s.acqs[a].phase.Done? ==> t.acqs[a].phase.Done?)
  }

  lemma FairIsNone(s: State, t: State, a: nat, e: nat)
    requires MovesFair(s, t, a, e) && Shunned(s, e)
    ensures NoneNew(s, t, e)
  {
  }

  /** Whom obtain chooses lives. */
  lemma ChosenLives(cfg: Config, p: Pool, k: Key)
    requires Wf(p) && Grounded(p)
    ensures var ph := ObtainStart(p, cfg, k).1;
      ph.Validating? || ph.Resolved? ==> ph.e < |p.table| && p.table[ph.e].life.Live?
    ensures var ph := ObtainMiss(p, cfg, k).1; ph.Resolved? ==> ph.e < |p.table| && p.table[ph.e].life.Live?
    ensures !ObtainMiss(p, cfg, k).1.Validating? && !ObtainMiss(p, cfg, k).1.Done? && !ObtainStart(p, cfg, k).1.Done?
  {
    hide SlotStep;
  }

  lemma ObtainIsFair(cfg: Config, s: State, step: Step, e: nat)
    requires Grounded(s.pool) && Enabled(s, step) && Shunned(s, e)
    requires step.Begin? || step.Replaced? || step.Resumed?
    ensures NoneNew(s, Apply(cfg, s, step), e)
  {
    ReadyIsWf(s);
    hide Grounded, Wf, CellsWf, ObtainStart, ObtainMiss, SlotStep;
    var a := step.a;
    match step {
      case Begin(_) =>
        ChosenLives(cfg, s.pool, s.acqs[a].key);
        MovesOn(s, a, ObtainStart(s.pool, cfg, s.acqs[a].key));
      case Replaced(_) =>
        ChosenLives(cfg, s.pool, s.acqs[a].key);
        MovesOn(s, a, ObtainMiss(s.pool, cfg, s.acqs[a].key));
      case Resumed(_) =>
        MovesOn(s, a, Resume(s.pool, cfg, s.acqs[a].phase.w));
    }
    FairIsNone(s, Apply(cfg, s, step), a, e);
  }

  lemma MoveIsFair(cfg: Config, s: State, step: Step, e: nat)
    requires Enabled(s, step) && Shunned(s, e)
    requires step.ValidateDone? || step.ValidateThrow? || step.CreateStart? || step.CreateDone? || step.CreateFail?
             || step.LateDone? || step.Finish?
    ensures NoneNew(s, Apply(cfg, s, step), e)
  {
    hide Wf, CellsWf, ReleaseReservation, InsertCreated, RemoveEntry, Dispose, FinishOk, DecPending, Settled;
    FairIsNone(s, Apply(cfg, s, step), step.a, e);
  }

  lemma ReleaseIsFair(cfg: Config, s: State, step: Step, e: nat)
    requires Enabled(s, step) && Shunned(s, e) && (step.Release? || step.ReleaseKey?)
    ensures NoneNew(s, Apply(cfg, s, step), e)
  {
    hide Wf, CellsWf, ReleaseEntry, ReleaseByKey;
    FairIsNone(s, Apply(cfg, s, step), step.a, e);
  }

  lemma CallIsFair(cfg: Config, s: State, k: Key, e: nat)
    requires Grounded(s.pool) && Enabled(s, Call(k)) && Shunned(s, e)
    ensures NoneNew(s, Apply(cfg, s, Call(k)), e)
  {
    hide Wf, CellsWf, Enter, IncPending, DecPending, Checkout, Hit, IdleFree;
  }

  lemma StandStill(cfg: Config, s: State, step: Step)
    requires Enabled(s, step)
    requires step.Tick? || step.Timeout? || step.SweepTimer? || step.DisposeDone? || step.DrainStart?
             || step.DrainDone? || step.Start? || step.GcTimer? || step.BreakerMoves?
    ensures Apply(cfg, s, step).acqs == s.acqs
  {
    hide Wf, CellsWf, Settle, Sweep, FinishDispose, Drain, Waits, GcCells, Droppable;
  }

  /** Dead entries stay dead. */
  lemma StaysDead(cfg: Config, s: State, step: Step, e: nat)
    requires Enabled(s, step) && e < |s.pool.table| && !s.pool.table[e].life.Live?
    ensures e < |Apply(cfg, s, step).pool.table| && !Apply(cfg, s, step).pool.table[e].life.Live?
  {
    hide Enabled, Apply;
    StepMoves(cfg, s, step);
    assert RecordMoves(s.pool.table[e], Apply(cfg, s, step).pool.table[e], s.now);
  }

  lemma StepIsFair(cfg: Config, s: State, step: Step, e: nat)
    requires AnyInv(cfg, s) && Enabled(s, step) && Shunned(s, e)
    ensures NoneNew(s, Apply(cfg, s, step), e) && Shunned(Apply(cfg, s, step), e)
  {
    ResOf(cfg, s);
    hide AnyInv, Enabled, Apply, BaseInv, ResInv, Grounded, ClaimInv, ClosingInv, QueueOk, Wf;
    StaysDead(cfg, s, step, e);
    if step.Begin? || step.Replaced? || step.Resumed? {
      ObtainIsFair(cfg, s, step, e);
    } else if step.Release? || step.ReleaseKey? {
      ReleaseIsFair(cfg, s, step, e);
    } else if step.Call? {
      CallIsFair(cfg, s, step.k, e);
    } else if step.Tick? || step.Timeout? || step.SweepTimer? || step.DisposeDone? || step.DrainStart?
              || step.DrainDone? || step.Start? || step.GcTimer? || step.BreakerMoves? {
      StandStill(cfg, s, step);
    } else {
      MoveIsFair(cfg, s, step, e);
    }
  }

  /** Over any run, nobody is offered a dead entry: who has it had it before. */
  lemma {:induction false} NeverOffered(cfg: Config, s: State, steps: seq<Step>, e: nat)
    requires AnyInv(cfg, s) && Run(cfg, s, steps) && Shunned(s, e)
    ensures NoneNew(s, End(cfg, s, steps), e)
    decreases |steps|
  {
    hide AnyInv, Enabled, Apply;
    if steps != [] {
      var t := Apply(cfg, s, steps[0]);
      StepIsFair(cfg, s, steps[0], e);
      AnyStepKeeps(cfg, s, steps[0]);
      NeverOffered(cfg, t, steps[1..], e);
      NoneNewThen(s, t, End(cfg, t, steps[1..]), e);
    }
  }

  lemma NoneNewThen(s: State, t: State, u: State, e: nat)
    requires NoneNew(s, t, e) && NoneNew(t, u, e)
    ensures NoneNew(s, u, e)
  {
  }

  /** What has failed its validation is never handed out: after the answer, and for ever, whoever has chosen
      the entry or holds a handle on it has had that handle before. */
  lemma InvalidIsNeverOffered(cfg: Config, s: State, a: nat, steps: seq<Step>)
    requires Attainable(cfg, s) && Enabled(s, ValidateDone(a, false))
    requires Run(cfg, Apply(cfg, s, ValidateDone(a, false)), steps)
    ensures var u, e := End(cfg, Apply(cfg, s, ValidateDone(a, false)), steps), s.acqs[a].phase.e;
      forall b :: 0 <= b < |u.acqs| && Offered(u.acqs[b], e) ==>
        b < |s.acqs| && s.acqs[b].phase.Done? && s.acqs[b].phase.e == e && u.acqs[b].phase.Done?
  {
    var t, e := Apply(cfg, s, ValidateDone(a, false)), s.acqs[a].phase.e;
    hide AnyInv, Enabled, Attainable, Wf, CellsWf;
    ValidationDecides(cfg, s, a, false);
    AttainableStep(cfg, s, ValidateDone(a, false));
    AttainableAny(cfg, s);
    AttainableAny(cfg, t);
    NobodyElseChose(cfg, s, a);
    hide Apply, Nowhere;
    NeverOffered(cfg, t, steps, e);
  }

  /** While an acquire validates an entry no other acquire has chosen it. */
  lemma NobodyElseChose(cfg: Config, s: State, a: nat)
    requires AnyInv(cfg, s) && Enabled(s, ValidateDone(a, false))
    ensures forall b :: 0 <= b < |s.acqs| && b != a && Offered(s.acqs[b], s.acqs[a].phase.e) ==> s.acqs[b].phase.Done?
  {
    ResOf(cfg, s);
    BaseMutex(cfg, s);
    hide AnyInv, BaseInv, MutexInv, ResInv, Grounded, ClosingInv, QueueOk, Wf, CellsWf;
    assert ClaimOk(s.pool, s.acqs[a].key, s.acqs[a].phase);
    forall b | 0 <= b < |s.acqs| && b != a && Offered(s.acqs[b], s.acqs[a].phase.e) ensures s.acqs[b].phase.Done? {
      assert ClaimOk(s.pool, s.acqs[b].key, s.acqs[b].phase);
      if !s.acqs[b].phase.Done? {
        Exclusion(s.mx, s.acqs, a, b);
      }
    }
  }

  /** Whatever an acquire has chosen, or returned a handle on, is an entry of its key. */
  lemma OfferedIsOfItsKey(cfg: Config, s: State, a: nat, e: nat)
    requires Attainable(cfg, s) && At(s, a) && Offered(s.acqs[a], e)
    ensures e < |s.pool.table| && s.pool.table[e].key == s.acqs[a].key
  {
    AttainableAny(cfg, s);
    hide Attainable, BaseInv, Grounded, HeldInv, ClosingInv;
    assert ClaimOk(s.pool, s.acqs[a].key, s.acqs[a].phase);
  }
}
