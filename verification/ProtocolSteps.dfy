/** Every segment between two awaits keeps the invariant: the steps of an acquire that holds the
    mutex of its key. */
module ProtocolSteps {
  import opened Counting
  import opened PoolModel
  import opened PoolInvariant
  import opened PoolBulk
  import opened MutexModel
  import opened AwaitModel
  import opened Protocol
  import opened ProtocolMutex
  import opened ProtocolPhases
  import opened ProtocolCounts
  import opened ProtocolInvariant

  /** What the invariant says about one acquire and its pool. */
  lemma About(cfg: Config, s: State, a: nat)
    requires Inv(cfg, s) && a < |s.acqs|
    ensures Wf(s.pool) && CellsWf(s.mx) && PhaseOk(s.pool, s.acqs[a])
    ensures Active(s.acqs[a]) ==> IsPending(s.pool, s.acqs[a].key)
    ensures Active(s.acqs[a]) && !s.acqs[a].phase.Queued? ==> IsHead(s.mx, s.acqs, a)
  {
    hide PoolInv, PhaseOk, Wf, CountInv, WaiterInv, BreakerInv, DrainInv;
    InvIsWf(s.pool, s.now);
    PendingOf(cfg, s.pool, s.acqs, s.failed);
    if Active(s.acqs[a]) {
      ActiveIsPending(s.pool, s.acqs, a);
      if !s.acqs[a].phase.Queued? {
        RunnerIsHead(s.mx, s.acqs, a);
      }
    }
  }

  lemma PendingOf(cfg: Config, p: Pool, acqs: seq<Acq>, failed: nat)
    requires CountInv(cfg, p, acqs, failed)
    ensures PendingOk(p, acqs)
  {
  }

  /** A segment that leaves the pool as it is, but for hits. */
  lemma StillSegment(cfg: Config, s: State, a: nat, q: Pool, x: Acq, failed: nat)
    requires Inv(cfg, s) && IsHead(s.mx, s.acqs, a)
    requires q == s.pool.(counters := q.counters) && q.counters == s.pool.counters.(hits := q.counters.hits)
    requires x.key == s.acqs[a].key && x.cell == s.acqs[a].cell && Active(x) && !x.phase.Queued? && !x.phase.Parked?
    requires PhaseOk(s.pool, x) && Tallies(cfg, s.pool, q, s.acqs[a], x, s.failed, failed)
    requires s.acqs[a].phase.Parked? && s.acqs[a].phase.w < |s.pool.log| ==> !s.pool.log[s.acqs[a].phase.w].Waiting?
    requires x.phase.Creating? ==> BreakerOk(cfg, s.breakers, x)
    ensures Inv(cfg, s.(pool := q, acqs := s.acqs[a := x], failed := failed))
    ensures GoodSegment(cfg, s, a, q, x, failed)
  {
    assert PhaseOk(q, x);
    hide PoolInv, MutexInv, PhaseInv, CountInv, WaiterInv, BreakerInv, DrainInv, Tallies, PhaseOk, BreakerOk;
    OtherFields(s.pool, q, s.now);
    QuietFields2(s.pool, q);
    forall l | IsPending(s.pool, l) && l != x.key ensures SameFor(s.pool, q, l) {
      SameFields(s.pool, q, l);
    }
    SegmentStep(cfg, s, a, q, x, failed);
  }

  lemma QuietFields2(p: Pool, q: Pool)
    requires q == p.(counters := q.counters) && q.counters == p.counters.(hits := q.counters.hits)
    ensures Quiet(p, q) && Aging(p, q) && Settling(p, q)
  {
  }

  // --- the capacity gate ---

  lemma SlotAges(p: Pool, cfg: Config)
    requires Wf(p)
    ensures Aging(p, SlotStep(p, cfg).0)
    ensures SlotStep(p, cfg).1.ParkedAs? ==>
      SlotStep(p, cfg).0 == Park(p) && (cfg.maxWaiters.Some? ==> |p.queue| < cfg.maxWaiters.value)
    ensures !SlotStep(p, cfg).1.ParkedAs? ==> Settling(p, SlotStep(p, cfg).0)
  {
    var v := FirstFree(p, p.idle);
    if cfg.max <= 0 || p.closed || |p.entries| + p.reserved < cfg.max {
    } else if v.Some? {
      assert v.value < |p.table|;
      hide Aging, Settling, Displace, Wf;
      DisplaceAges(p, v.value);
    }
  }

  lemma DisplaceAges(p: Pool, v: nat)
    requires v < |p.table|
    ensures Aging(p, Displace(p, v)) && Settling(p, Displace(p, v))
  {
  }

  lemma SlotAbsent(p: Pool, cfg: Config, k: Key)
    requires Wf(p) && Absent(p, k)
    ensures Absent(SlotStep(p, cfg).0, k)
  {
  }

  /** The pool at the gate: the miss is counted when the acquire comes from outside the gate. */
  predicate AtGate(p: Pool, z: Pool, y: Acq) {
    && z == p.(counters := p.counters.(misses := p.counters.misses + One(!y.phase.Parked?)))
    && (y.phase.Parked? || y.phase.Queued? || y.phase.Replacing?)
  }

  lemma GatePhase(cfg: Config, p: Pool, z: Pool, x: Acq)
    requires Wf(z) && Absent(p, x.key) && z == p.(counters := z.counters)
    requires x.phase == AfterSlot(SlotStep(z, cfg)).1
    ensures PhaseOk(SlotStep(z, cfg).0, x)
  {
    hide SlotStep, Wf;
    SlotGated(z, cfg);
    SlotAbsent(z, cfg, x.key);
  }

  lemma GateTallies(cfg: Config, p: Pool, z: Pool, y: Acq, x: Acq, failed: nat)
    requires AtGate(p, z, y) && Wf(z) && x == y.(phase := AfterSlot(SlotStep(z, cfg)).1)
    ensures var q := SlotStep(z, cfg).0; Quiet(p, q) && Aging(p, q) && |p.table| <= |q.table|
    ensures Tallies(cfg, p, SlotStep(z, cfg).0, y, x, failed, failed + One(x.phase.Rejected?))
    ensures Active(x) && !x.phase.Queued?
  {
    hide SlotStep, Wf;
    SlotGated(z, cfg);
    SlotAges(z, cfg);
  }

  /** One turn at the gate on behalf of acquire a. */
  lemma GateGood(cfg: Config, s: State, a: nat, z: Pool, x: Acq)
    requires Inv(cfg, s) && IsHead(s.mx, s.acqs, a) && AtGate(s.pool, z, s.acqs[a])
    requires Absent(s.pool, s.acqs[a].key) && Wf(z)
    requires x == s.acqs[a].(phase := AfterSlot(SlotStep(z, cfg)).1)
    ensures GoodSegment(cfg, s, a, SlotStep(z, cfg).0, x, s.failed + One(x.phase.Rejected?))
  {
    var q := SlotStep(z, cfg).0;
    hide PoolInv, MutexInv, PhaseInv, CountInv, WaiterInv, BreakerInv, DrainInv, PhaseOk, SlotStep, Quiet, Aging,
         Tallies,
         SameFor, Wf, Absent;
    OtherFields(s.pool, z, s.now);
    SlotKeeps(z, cfg, s.now);
    GatePhase(cfg, s.pool, z, x);
    GateTallies(cfg, s.pool, z, s.acqs[a], x, s.failed);
    forall l | IsPending(s.pool, l) && l != x.key ensures SameFor(s.pool, q, l) {
      SlotSame(z, cfg, l);
      SameFields(s.pool, z, l);
      SameTrans(s.pool, z, q, l);
    }
  }

  lemma GateStep(cfg: Config, s: State, a: nat, z: Pool)
    requires Inv(cfg, s) && IsHead(s.mx, s.acqs, a) && AtGate(s.pool, z, s.acqs[a])
    requires Absent(s.pool, s.acqs[a].key) && Wf(z)
    requires s.acqs[a].phase.Parked? && s.acqs[a].phase.w < |s.pool.log| ==> !s.pool.log[s.acqs[a].phase.w].Waiting?
    ensures Inv(cfg, MoveGate(s, a, AfterSlot(SlotStep(z, cfg))))
  {
    hide Inv, GoodSegment, SlotStep, Wf, Absent;
    var (q, r) := SlotStep(z, cfg);
    var x := s.acqs[a].(phase := AfterSlot(SlotStep(z, cfg)).1);
    GateGood(cfg, s, a, z, x);
    SlotAges(z, cfg);
    SlotGated(z, cfg);
    if r.ParkedAs? {
      ParkingStep(cfg, s, a, q, x);
    } else {
      SegmentStep(cfg, s, a, q, x, s.failed + One(x.phase.Rejected?));
    }
  }

  // --- obtain ---

  /** obtain from where no live entry is usable. */
  lemma MissStep(cfg: Config, s: State, a: nat)
    requires Inv(cfg, s) && IsHead(s.mx, s.acqs, a) && (s.acqs[a].phase.Queued? || s.acqs[a].phase.Replacing?)
    requires s.acqs[a].key !in s.pool.entries
    ensures Wf(s.pool) && Inv(cfg, MoveGate(s, a, ObtainMiss(s.pool, cfg, s.acqs[a].key)))
  {
    hide Inv, SlotStep, Wf;
    PoolAlive(cfg, s);
    var p, k := s.pool, s.acqs[a].key;
    if k in p.orphans {
      ResurrectStep(cfg, s, a);
    } else if p.closed {
      StillSegment(cfg, s, a, p, s.acqs[a].(phase := Rejected(PoolClosed)), s.failed);
    } else {
      var z := p.(counters := p.counters.(misses := p.counters.misses + 1));
      WfCounters(p, z);
      GateStep(cfg, s, a, z);
      SlotGated(z, cfg);
    }
  }

  lemma PoolAlive(cfg: Config, s: State)
    requires Inv(cfg, s)
    ensures Wf(s.pool) && CellsWf(s.mx)
    ensures forall k :: k in s.pool.entries ==>
      s.pool.entries[k] < |s.pool.table|
      && s.pool.table[s.pool.entries[k]].life.Live? && s.pool.table[s.pool.entries[k]].key == k
    ensures forall k :: k in s.pool.orphans ==>
      s.pool.table[s.pool.orphans[k]].life.Live? && s.pool.table[s.pool.orphans[k]].key == k
  {
    hide PoolInv, CountInv, WaiterInv, BreakerInv, DrainInv, PhaseInv, KeysOk;
    ResidentsLive(s.pool, s.now);
    KeysAgree(s.pool, s.now);
  }

  lemma KeysAgree(p: Pool, now: int)
    requires PoolInv(p, now)
    ensures forall k :: k in p.orphans ==> p.orphans[k] < |p.table| && p.table[p.orphans[k]].key == k
  {
  }

  lemma ResurrectStep(cfg: Config, s: State, a: nat)
    requires Inv(cfg, s) && IsHead(s.mx, s.acqs, a) && (s.acqs[a].phase.Queued? || s.acqs[a].phase.Replacing?)
    requires s.acqs[a].key !in s.pool.entries && s.acqs[a].key in s.pool.orphans
    ensures Inv(cfg, Move(s, a, (Resurrected(s.pool, s.acqs[a].key), Resolved(s.pool.orphans[s.acqs[a].key]))))
  {
    hide Inv;
    var p, k := s.pool, s.acqs[a].key;
    var q := Resurrected(p, k);
    var x := s.acqs[a].(phase := Resolved(p.orphans[k]));
    ResurrectGood(cfg, s, a);
    assert Settling(p, q);
    hide GoodSegment, Settling, Resurrected;
    SegmentStep(cfg, s, a, q, x, s.failed);
  }

  lemma ResurrectGood(cfg: Config, s: State, a: nat)
    requires Inv(cfg, s) && IsHead(s.mx, s.acqs, a) && (s.acqs[a].phase.Queued? || s.acqs[a].phase.Replacing?)
    requires s.acqs[a].key !in s.pool.entries && s.acqs[a].key in s.pool.orphans
    ensures GoodSegment(cfg, s, a, Resurrected(s.pool, s.acqs[a].key),
                        s.acqs[a].(phase := Resolved(s.pool.orphans[s.acqs[a].key])), s.failed)
  {
    hide PoolInv, MutexInv, PhaseInv, CountInv, WaiterInv, BreakerInv, DrainInv;
    var p, k := s.pool, s.acqs[a].key;
    var q := Resurrected(p, k);
    ResurrectKeeps(p, k, s.now);
    PoolAlive(cfg, s);
    forall l | IsPending(p, l) && l != k ensures SameFor(p, q, l) {}
  }

  lemma BeginStep(cfg: Config, s: State, a: nat)
    requires Inv(cfg, s) && Enabled(s, Begin(a))
    ensures Inv(cfg, Apply(cfg, s, Begin(a)))
  {
    hide Inv, Wf;
    QueuedHead(cfg, s, a);
    PoolAlive(cfg, s);
    var p, k := s.pool, s.acqs[a].key;
    if k in p.entries {
      var (q, ph) := ObtainStart(p, cfg, k);
      StillSegment(cfg, s, a, q, s.acqs[a].(phase := ph), s.failed);
    } else {
      MissStep(cfg, s, a);
    }
  }

  lemma QueuedHead(cfg: Config, s: State, a: nat)
    requires Inv(cfg, s) && Enabled(s, Begin(a))
    ensures IsHead(s.mx, s.acqs, a)
  {
  }

  lemma ReplacedStep(cfg: Config, s: State, a: nat)
    requires Inv(cfg, s) && Enabled(s, Replaced(a))
    ensures Inv(cfg, Apply(cfg, s, Replaced(a)))
  {
    hide Inv, Wf;
    About(cfg, s, a);
    MissStep(cfg, s, a);
  }

  lemma ResumedStep(cfg: Config, s: State, a: nat)
    requires Inv(cfg, s) && Enabled(s, Resumed(a))
    ensures Inv(cfg, Apply(cfg, s, Resumed(a)))
  {
    hide Inv, Wf, SlotStep;
    About(cfg, s, a);
    ParkingNeedsBound(cfg, s);
    var p, w := s.pool, s.acqs[a].phase.w;
    if p.log[w].WokenUp? {
      GateStep(cfg, s, a, p);
    } else {
      var x := s.acqs[a].(phase := Resume(p, cfg, w).1);
      assert x.phase.Rejected?;
      StillSegment(cfg, s, a, p, x, s.failed + 1);
    }
  }

  lemma ParkingNeedsBound(cfg: Config, s: State)
    requires Inv(cfg, s)
    ensures |s.pool.log| > 0 ==> cfg.max >= 1
  {
  }

  lemma ValidateStep(cfg: Config, s: State, a: nat, ok: bool)
    requires Inv(cfg, s) && Enabled(s, ValidateDone(a, ok))
    ensures Inv(cfg, Apply(cfg, s, ValidateDone(a, ok)))
  {
    hide Inv, Wf;
    About(cfg, s, a);
    if ok {
      PoolAlive(cfg, s);
      StillSegment(cfg, s, a, Hit(s.pool), s.acqs[a].(phase := Resolved(s.acqs[a].phase.e)), s.failed);
    } else {
      var e := s.acqs[a].phase.e;
      InvalidGood(cfg, s, a);
      InvalidSettles(s.pool, e);
      hide GoodSegment, Settling, RemoveEntry, Dispose;
      SegmentStep(cfg, s, a, Dispose(RemoveEntry(s.pool, e), e), s.acqs[a].(phase := Replacing(e)), s.failed);
    }
  }

  lemma InvalidSettles(p: Pool, e: nat)
    requires e < |p.table|
    ensures Settling(p, Dispose(RemoveEntry(p, e), e)) && Aging(p, Dispose(RemoveEntry(p, e), e))
    ensures Quiet(p, Dispose(RemoveEntry(p, e), e))
    ensures Dispose(RemoveEntry(p, e), e).counters == p.counters
    ensures Dispose(RemoveEntry(p, e), e).reserved == p.reserved
    ensures |RemoveEntry(p, e).table| == |p.table|
  {
  }

  /** A rejected idle entry goes: it has no holder, and no other acquire has chosen it. */
  lemma InvalidGood(cfg: Config, s: State, a: nat)
    requires Inv(cfg, s) && Enabled(s, ValidateDone(a, false)) && IsHead(s.mx, s.acqs, a)
    requires PhaseOk(s.pool, s.acqs[a])
    ensures GoodSegment(cfg, s, a, Dispose(RemoveEntry(s.pool, s.acqs[a].phase.e), s.acqs[a].phase.e),
                        s.acqs[a].(phase := Replacing(s.acqs[a].phase.e)), s.failed)
  {
    hide PoolInv, MutexInv, PhaseInv, CountInv, WaiterInv, BreakerInv, DrainInv;
    var p, e := s.pool, s.acqs[a].phase.e;
    InvalidKeeps(p, e, s.now);
    InvalidSettles(p, e);
    InvalidPhase(p, e, s.now, s.acqs[a].(phase := Replacing(e)));
    var q := Dispose(RemoveEntry(p, e), e);
    hide RemoveEntry, Dispose, PhaseOk, Quiet, Aging, Settling;
    forall l | IsPending(p, l) && l != s.acqs[a].key ensures SameFor(p, q, l) {
      InvalidSame(p, e, l);
    }
  }

  lemma InvalidPhase(p: Pool, e: nat, now: int, x: Acq)
    requires PoolInv(p, now) && IsLive(p, e) && p.table[e].refCount == 0 && p.table[e].key == x.key
    requires x.phase == Replacing(e)
    ensures PhaseOk(Dispose(RemoveEntry(p, e), e), x)
  {
    assert RecOk(p.table, p.entries, p.orphans, e);
  }

  lemma ThrowStep(cfg: Config, s: State, a: nat)
    requires Inv(cfg, s) && Enabled(s, ValidateThrow(a))
    ensures Inv(cfg, Apply(cfg, s, ValidateThrow(a)))
  {
    hide Inv, Wf;
    About(cfg, s, a);
    StillSegment(cfg, s, a, s.pool, s.acqs[a].(phase := Rejected(ValidateThrew)), s.failed);
  }

  // --- the factory ---

  lemma LateDoneStep(cfg: Config, s: State, a: nat)
    requires Inv(cfg, s) && Enabled(s, LateDone(a))
    ensures Inv(cfg, Apply(cfg, s, LateDone(a)))
  {
    hide Inv, Wf;
    About(cfg, s, a);
    StillSegment(cfg, s, a, s.pool, s.acqs[a].(phase := Rejected(PoolClosed)), s.failed);
  }

  lemma CreateStartKeeps(cfg: Config, s: State, a: nat)
    requires Inv(cfg, s) && Enabled(s, CreateStart(a))
    ensures Inv(cfg, Apply(cfg, s, CreateStart(a)))
  {
    hide Inv, Wf;
    About(cfg, s, a);
    var k := s.acqs[a].key;
    var b := if !cfg.perKeyBreakers then 0 else if k in s.breakers then s.breakers[k] else |s.closedBreaker|;
    var x := s.acqs[a].(phase := Creating(b));
    var u := s.(breakers := if cfg.perKeyBreakers then s.breakers[k := b] else s.breakers,
                closedBreaker := s.closedBreaker + if b == |s.closedBreaker| then [true] else []);
    FindBreaker(cfg, s, u, k, b);
    StillSegment(cfg, u, a, u.pool, x, u.failed);
    var t := Apply(cfg, s, CreateStart(a));
    assert k in s.breakers ==> s.breakers[k := s.breakers[k]] == s.breakers;
    assert s.closedBreaker + [] == s.closedBreaker;
    assert t == u.(pool := u.pool, acqs := u.acqs[a := x], failed := u.failed);
  }

  lemma FindBreaker(cfg: Config, s: State, u: State, k: Key, b: nat)
    requires Inv(cfg, s)
    requires b == if !cfg.perKeyBreakers then 0 else if k in s.breakers then s.breakers[k] else |s.closedBreaker|
    requires u == s.(breakers := if cfg.perKeyBreakers then s.breakers[k := b] else s.breakers,
                     closedBreaker := s.closedBreaker + if b == |s.closedBreaker| then [true] else [])
    ensures Inv(cfg, u) && b < |u.closedBreaker| && |s.closedBreaker| > 0
    ensures k in s.breakers ==> b < |s.closedBreaker| || !cfg.perKeyBreakers
  {
    hide PoolInv, MutexInv, PhaseInv, CountInv, WaiterInv, DrainInv;
    assert forall a :: 0 <= a < |s.acqs| && s.acqs[a].phase.Creating? ==> BreakerOk(cfg, s.breakers, s.acqs[a]);
  }

  lemma ReserveReleased(p: Pool, now: int)
    requires PoolInv(p, now)
    ensures Wf(p) && PoolInv(ReleaseReservation(p), now)
    ensures Quiet(p, ReleaseReservation(p)) && Aging(p, ReleaseReservation(p)) && Settling(p, ReleaseReservation(p))
    ensures ReleaseReservation(p) == p.(reserved := p.reserved - 1, log := ReleaseReservation(p).log,
                                        queue := ReleaseReservation(p).queue)
  {
    hide PoolInv;
    InvIsWf(p, now);
    var z := p.(reserved := p.reserved - 1);
    OtherFields(p, z, now);
    WakeKeeps(z, now);
    WakeFrame(z);
    WakeSettles(z, now);
    hide WakeWaiter;
  }

  lemma WakeSettles(p: Pool, now: int)
    requires PoolInv(p, now)
    ensures Wf(p) && Settling(p, WakeWaiter(p))
  {
    InvIsWf(p, now);
    if p.queue != [] {
      ShiftIsSettle(p, WokenUp);
      WithoutIn(p.queue, p.queue[0]);
    }
  }

  /** A creation that leaves no entry gives its reservation back. */
  lemma GiveBackStep(cfg: Config, s: State, a: nat, ph: Phase)
    requires Inv(cfg, s) && IsHead(s.mx, s.acqs, a) && s.acqs[a].phase.Creating? && PhaseOk(s.pool, s.acqs[a])
    requires Wf(s.pool) && (ph.LateDisposing? || ph.Rejected?)
    ensures Inv(cfg, Move(s, a, (ReleaseReservation(s.pool), ph)).(failed := s.failed + 1))
  {
    var q, x := ReleaseReservation(s.pool), s.acqs[a].(phase := ph);
    assert GoodSegment(cfg, s, a, q, x, s.failed + 1) && Settling(s.pool, q) by {
      hide PoolInv, MutexInv, PhaseInv, CountInv, WaiterInv, BreakerInv, DrainInv, Quiet, Aging, Settling;
      hide ReleaseReservation, SameFor, Wf;
      ReserveReleased(s.pool, s.now);
      forall l | IsPending(s.pool, l) && l != x.key ensures SameFor(s.pool, q, l) {
        SameFields(s.pool, q, l);
      }
    }
    hide Inv, GoodSegment, Settling, ReleaseReservation, Wf, PhaseOk;
    SegmentStep(cfg, s, a, q, x, s.failed + 1);
  }

  lemma CreateFailStep(cfg: Config, s: State, a: nat)
    requires Inv(cfg, s) && Enabled(s, CreateFail(a))
    ensures Inv(cfg, Apply(cfg, s, CreateFail(a)))
  {
    hide Inv, ReleaseReservation, Wf, CellsWf;
    About(cfg, s, a);
    GiveBackStep(cfg, s, a, Rejected(FactoryFailed));
  }

  lemma InsertForm(p: Pool, k: Key, now: int)
    requires Wf(p)
    ensures var q := InsertCreated(p, k, now);
      && q.table == p.table + [Rec(k, 0, now, p.stamps, false, Live, 0)]
      && q.entries == p.entries[k := |p.table|]
      && q.reserved == p.reserved - 1
      && q.counters == p.counters.(created := p.counters.created + 1)
      && q.idle == p.idle + [|p.table|]
      && q == p.(table := q.table, entries := q.entries, reserved := q.reserved, counters := q.counters,
                 idle := q.idle, stamps := p.stamps + 1)
  {
    assert |p.table| !in p.idle;
  }

  lemma InsertEffects(p: Pool, k: Key, now: int)
    requires Wf(p) && !p.closed
    ensures var q := InsertCreated(p, k, now); Quiet(p, q) && Aging(p, q) && Settling(p, q)
  {
    hide InsertCreated;
    InsertForm(p, k, now);
  }

  lemma InsertGood(cfg: Config, s: State, a: nat)
    requires Inv(cfg, s) && IsHead(s.mx, s.acqs, a) && s.acqs[a].phase.Creating? && PhaseOk(s.pool, s.acqs[a])
    requires !s.pool.closed
    ensures GoodSegment(cfg, s, a, InsertCreated(s.pool, s.acqs[a].key, s.now),
                        s.acqs[a].(phase := Resolved(|s.pool.table|)), s.failed)
  {
    hide PoolInv, MutexInv, PhaseInv, CountInv, WaiterInv, BreakerInv, DrainInv, InsertCreated, Quiet, Aging, SameFor,
         Wf;
    var p, k := s.pool, s.acqs[a].key;
    InvIsWf(p, s.now);
    InsertKeeps(p, k, s.now);
    InsertForm(p, k, s.now);
    InsertEffects(p, k, s.now);
    forall l | IsPending(p, l) && l != k ensures SameFor(p, InsertCreated(p, k, s.now), l) {
      InsertSame(p, k, s.now, l);
    }
  }

  lemma CreateDoneStep(cfg: Config, s: State, a: nat)
    requires Inv(cfg, s) && Enabled(s, CreateDone(a))
    ensures Inv(cfg, Apply(cfg, s, CreateDone(a)))
  {
    hide Inv, ReleaseReservation, InsertCreated, GoodSegment, Settling, Wf, CellsWf, PhaseOk;
    About(cfg, s, a);
    var p, k := s.pool, s.acqs[a].key;
    if p.closed {
      GiveBackStep(cfg, s, a, LateDisposing);
    } else {
      InsertGood(cfg, s, a);
      InsertEffects(p, k, s.now);
      SegmentStep(cfg, s, a, InsertCreated(p, k, s.now), s.acqs[a].(phase := Resolved(|p.table|)), s.failed);
    }
  }

  // --- calling and finishing ---

  lemma SettledWaiters(cfg: Config, p: Pool, q: Pool, acqs: seq<Acq>, x: Acq, owner: seq<nat>)
    requires WaiterInv(cfg, p, acqs, owner) && q.log == p.log && q.queue == p.queue && !x.phase.Parked?
    ensures WaiterInv(cfg, q, acqs + [x], owner)
  {
  }

  lemma AppendBreakers(cfg: Config, breakers: map<Key, nat>, n: nat, acqs: seq<Acq>, x: Acq)
    requires BreakerInv(cfg, breakers, n, acqs) && !x.phase.Creating?
    ensures BreakerInv(cfg, breakers, n, acqs + [x])
  {
  }

  lemma AppendPhase(p: Pool, q: Pool, acqs: seq<Acq>, x: Acq)
    requires PhaseInv(p, acqs) && PhaseOk(q, x)
    requires forall b :: 0 <= b < |acqs| && PhaseOk(p, acqs[b]) ==> PhaseOk(q, acqs[b])
    ensures PhaseInv(q, acqs + [x])
  {
  }

  lemma PendingOnly(p: Pool, q: Pool, x: Acq)
    requires q == p.(pending := q.pending) && PhaseOk(p, x)
    ensures PhaseOk(q, x)
  {
  }

  lemma SlowCallStep(cfg: Config, s: State, k: Key)
    requires Inv(cfg, s)
    ensures Wf(s.pool) && CellsWf(s.mx)
    ensures var (m, c) := Enter(s.mx, k, |s.acqs|, s.now);
      Inv(cfg, s.(pool := IncPending(s.pool, k), mx := m, acqs := s.acqs + [Acq(k, c, Queued)]))
  {
    hide PoolInv, MutexInv, PhaseInv, CountInv, WaiterInv, BreakerInv, DrainInv, Enter, PhaseOk, Wf, CellsWf;
    PoolAlive(cfg, s);
    EnterKeeps(s.mx, s.acqs, k, s.now);
    var (m, c) := Enter(s.mx, k, |s.acqs|, s.now);
    var x := Acq(k, c, Queued);
    var q := IncPending(s.pool, k);
    OtherFields(s.pool, q, s.now);
    QueuedPhase(q, x);
    forall b | 0 <= b < |s.acqs| && PhaseOk(s.pool, s.acqs[b]) ensures PhaseOk(q, s.acqs[b]) {
      PendingOnly(s.pool, q, s.acqs[b]);
    }
    AppendPhase(s.pool, q, s.acqs, x);
    SlowCallCounts(cfg, s.pool, s.acqs, x, s.failed);
    SettledWaiters(cfg, s.pool, q, s.acqs, x, s.owner);
    AppendBreakers(cfg, s.breakers, |s.closedBreaker|, s.acqs, x);
  }

  lemma QueuedPhase(p: Pool, x: Acq)
    requires x.phase.Queued? || x.phase.Failed?
    ensures PhaseOk(p, x)
  {
  }

  /** A checkout: what it leaves of the pool. */
  predicate CheckedOut(p: Pool, q: Pool, e: nat) {
    && e < |p.table| && q.table == p.table[e := p.table[e].(refCount := p.table[e].refCount + 1)]
    && q.entries == p.entries && q.orphans == p.orphans && q.closed == p.closed
    && q.log == p.log && q.queue == p.queue
  }

  /** Nobody but acquires of the entry's key in obtain notices a checkout. */
  lemma CheckedOutPhase(p: Pool, q: Pool, e: nat, x: Acq)
    requires CheckedOut(p, q, e) && PhaseOk(p, x)
    requires x.phase.Validating? ==> x.phase.e != e
    ensures PhaseOk(q, x)
  {
  }

  lemma CheckedOutDrains(p: Pool, q: Pool, e: nat, drains: seq<DrainRun>, openedAt: nat, aw: Awaits)
    requires CheckedOut(p, q, e) && DrainInv(p.table, p.closed, drains, openedAt, aw)
    ensures DrainInv(q.table, q.closed, drains, openedAt, aw)
  {
    SameKeepsAwaits(p.table, q.table, drains, aw);
  }

  lemma FastPool(p: Pool, k: Key, e: nat, now: int)
    requires PoolInv(p, now) && e < |p.table| && p.table[e].life.Live?
    ensures var q := DecPending(Checkout(Hit(IncPending(p, k)), e), k); PoolInv(q, now) && CheckedOut(p, q, e)
  {
    hide PoolInv, CheckedOut;
    var z := Hit(IncPending(p, k));
    OtherFields(p, z, now);
    CheckoutKeeps(z, e, now);
    OtherFields(Checkout(z, e), DecPending(Checkout(z, e), k), now);
    FastCheckedOut(p, k, e);
  }

  lemma FastCheckedOut(p: Pool, k: Key, e: nat)
    requires e < |p.table|
    ensures CheckedOut(p, DecPending(Checkout(Hit(IncPending(p, k)), e), k), e)
  {
  }

  lemma FastCallStep(cfg: Config, s: State, k: Key)
    requires Inv(cfg, s) && Wf(s.pool) && AcquirePrefix(s.pool, k).1.Some?
    ensures var (q, e) := AcquirePrefix(s.pool, k);
      Inv(cfg, s.(pool := q, acqs := s.acqs + [Acq(k, 0, Done(e.value, false))]))
  {
    hide PoolInv, MutexInv, PhaseInv, CountInv, WaiterInv, BreakerInv, DrainInv, PhaseOk, CheckedOut, Wf;
    hide DecPending, Checkout;
    PoolAlive(cfg, s);
    var p, e := s.pool, s.pool.entries[k];
    var q := DecPending(Checkout(Hit(IncPending(p, k)), e), k);
    var x := Acq(k, 0, Done(e, false));
    FastPool(p, k, e, s.now);
    AppendKeepsMutex(s.mx, s.acqs, x);
    FastPhases(p, q, s.acqs, e, x);
    FastCallCounts(cfg, p, s.acqs, e, x, s.failed);
    CheckedOutWaiters(cfg, p, q, e, s.acqs, x, s.owner);
    AppendBreakers(cfg, s.breakers, |s.closedBreaker|, s.acqs, x);
    CheckedOutDrains(p, q, e, s.drains, s.openedAt, s.awaits);
  }

  lemma CheckedOutWaiters(cfg: Config, p: Pool, q: Pool, e: nat, acqs: seq<Acq>, x: Acq, owner: seq<nat>)
    requires WaiterInv(cfg, p, acqs, owner) && CheckedOut(p, q, e) && !x.phase.Parked?
    ensures WaiterInv(cfg, q, acqs + [x], owner)
  {
  }

  lemma FastPhases(p: Pool, q: Pool, acqs: seq<Acq>, e: nat, x: Acq)
    requires PhaseInv(p, acqs) && CheckedOut(p, q, e) && p.table[e].refCount > 0 && x.phase == Done(e, false)
    ensures PhaseInv(q, acqs + [x])
  {
    forall b | 0 <= b < |acqs| && PhaseOk(p, acqs[b]) ensures PhaseOk(q, acqs[b]) {
      CheckedOutPhase(p, q, e, acqs[b]);
    }
    AppendPhase(p, q, acqs, x);
  }

  lemma CallStepKeeps(cfg: Config, s: State, k: Key)
    requires Inv(cfg, s) && Enabled(s, Call(k))
    ensures Inv(cfg, Apply(cfg, s, Call(k)))
  {
    hide Inv, Wf, CellsWf, Enter, DecPending, Checkout, Hit, IncPending;
    if AcquirePrefix(s.pool, k).1.Some? {
      FastCallStep(cfg, s, k);
    } else {
      SlowCallStep(cfg, s, k);
    }
  }

  /** An acquire ends: the mutex settles, and what the others rely on is left alone. */
  lemma EndKeeps(cfg: Config, s: State, a: nat, q: Pool, x: Acq)
    requires Inv(cfg, s) && IsHead(s.mx, s.acqs, a) && !s.acqs[a].phase.Queued? && !s.acqs[a].phase.Parked?
    requires x.key == s.acqs[a].key && x.cell == s.acqs[a].cell && !Active(x)
    requires PoolInv(q, s.now) && CountInv(cfg, q, s.acqs[a := x], s.failed)
    requires DrainInv(q.table, q.closed, s.drains, s.openedAt, s.awaits)
    requires q.log == s.pool.log && q.queue == s.pool.queue
    requires PhaseOk(q, x)
    requires forall b :: 0 <= b < |s.acqs| && b != a && PhaseOk(s.pool, s.acqs[b]) ==> PhaseOk(q, s.acqs[b])
    ensures Inv(cfg, s.(pool := q, mx := Settled(s.mx, x.cell, s.now), acqs := s.acqs[a := x]))
  {
    assert Settling(s.pool, q);
    hide PoolInv, MutexInv, CountInv, WaiterInv, BreakerInv, DrainInv, PhaseOk, Settling;
    SettledKeeps(s.mx, s.acqs, a, x, s.now);
    SettlingKeepsWaiters(cfg, s.pool, q, s.acqs, a, x, s.owner);
    MoveKeepsBreakers(cfg, s.breakers, |s.closedBreaker|, s.acqs, a, x);
    assert PhaseInv(q, s.acqs[a := x]);
  }

  lemma PendingPhase(p: Pool, k: Key, x: Acq)
    ensures PhaseOk(p, x) ==> PhaseOk(DecPending(p, k), x)
  {
  }

  lemma FinishFailedStep(cfg: Config, s: State, a: nat)
    requires Inv(cfg, s) && Enabled(s, Finish(a)) && s.acqs[a].phase.Rejected?
    ensures Inv(cfg, FinishStep(s, a))
  {
    About(cfg, s, a);
    var q := DecPending(s.pool, s.acqs[a].key);
    var x := s.acqs[a].(phase := Failed(s.acqs[a].phase.error));
    assert PhaseOk(q, x);
    hide PoolInv, MutexInv, PhaseInv, CountInv, WaiterInv, BreakerInv, DrainInv, PhaseOk;
    OtherFields(s.pool, q, s.now);
    FinishFailedCounts(cfg, s.pool, s.acqs, a, x, s.failed);
    forall b | 0 <= b < |s.acqs| && b != a && PhaseOk(s.pool, s.acqs[b]) ensures PhaseOk(q, s.acqs[b]) {
      PendingPhase(s.pool, s.acqs[a].key, s.acqs[b]);
    }
    EndKeeps(cfg, s, a, q, x);
  }

  lemma FinishPool(p: Pool, k: Key, e: nat, now: int)
    requires PoolInv(p, now) && e < |p.table| && p.table[e].life.Live?
    ensures PoolInv(FinishOk(p, e, k), now) && CheckedOut(p, FinishOk(p, e, k), e)
  {
    hide PoolInv, CheckedOut;
    CheckoutKeeps(p, e, now);
    OtherFields(Checkout(p, e), DecPending(Checkout(p, e), k), now);
    FinishCheckedOut(p, k, e);
  }

  lemma FinishCheckedOut(p: Pool, k: Key, e: nat)
    requires e < |p.table|
    ensures CheckedOut(p, FinishOk(p, e, k), e)
  {
  }

  lemma FinishOkStep(cfg: Config, s: State, a: nat)
    requires Inv(cfg, s) && Enabled(s, Finish(a)) && s.acqs[a].phase.Resolved?
    ensures Inv(cfg, FinishStep(s, a))
  {
    About(cfg, s, a);
    var p, e := s.pool, s.acqs[a].phase.e;
    var q := FinishOk(p, e, s.acqs[a].key);
    var x := s.acqs[a].(phase := Done(e, false));
    assert p.table[e].life.Live? && p.table[e].key == s.acqs[a].key;
    hide PoolInv, MutexInv, PhaseInv, CountInv, WaiterInv, BreakerInv, DrainInv, PhaseOk, FinishOk, CheckedOut;
    FinishPool(p, s.acqs[a].key, e, s.now);
    FinishOkCounts(cfg, p, s.acqs, a, e, x, s.failed);
    CheckedOutDrains(p, q, e, s.drains, s.openedAt, s.awaits);
    DonePhase(p, q, e, x);
    forall b | 0 <= b < |s.acqs| && b != a && PhaseOk(p, s.acqs[b]) ensures PhaseOk(q, s.acqs[b]) {
      NotMine(s, a, b, e);
      CheckedOutPhase(p, q, e, s.acqs[b]);
    }
    EndKeeps(cfg, s, a, q, x);
  }

  lemma DonePhase(p: Pool, q: Pool, e: nat, x: Acq)
    requires CheckedOut(p, q, e) && x.phase == Done(e, false)
    ensures PhaseOk(q, x) && q.log == p.log && q.queue == p.queue
  {
  }

  /** While a is about to check out entry e, no other acquire is validating it. */
  lemma NotMine(s: State, a: nat, b: nat, e: nat)
    requires MutexInv(s.mx, s.acqs) && IsHead(s.mx, s.acqs, a) && b < |s.acqs| && b != a
    requires PhaseOk(s.pool, s.acqs[b]) && e < |s.pool.table| && s.pool.table[e].key == s.acqs[a].key
    ensures s.acqs[b].phase.Validating? ==> s.acqs[b].phase.e != e
  {
    if s.acqs[b].phase.Validating? && s.acqs[b].key == s.acqs[a].key {
      HeadExclusion(s.mx, s.acqs, a, b);
    }
  }

  lemma FinishStepKeeps(cfg: Config, s: State, a: nat)
    requires Inv(cfg, s) && Enabled(s, Finish(a))
    ensures Inv(cfg, Apply(cfg, s, Finish(a)))
  {
    hide Inv, Wf, CellsWf, Settled, FinishOk, DecPending;
    if s.acqs[a].phase.Resolved? {
      FinishOkStep(cfg, s, a);
    } else {
      FinishFailedStep(cfg, s, a);
    }
  }

  // --- releasing a handle ---

  /** What the acquires of the entry's own key can tell after a release. */
  lemma ReleaseMine(p: Pool, e: nat, now: int, x: Acq)
    requires PoolInv(p, now) && e < |p.table| && p.table[e].refCount > 0
    requires PhaseOk(p, x)
    requires p.table[e].condemned && p.table[e].refCount == 1 ==> x.phase != Resolved(e)
    ensures Wf(p) && PhaseOk(ReleaseEntry(p, e, now), x)
  {
    InvIsWf(p, now);
    assert RecOk(p.table, p.entries, p.orphans, e);
    if p.table[e].key != x.key {
      hide PoolInv, ReleaseEntry, PhaseOk;
      ReleaseDropsOne(p, e, now);
      ReleaseSame(p, e, now, x.key);
      PhaseByKey(p, ReleaseEntry(p, e, now), x);
    } else {
      ReleaseOwnKey(p, e, now, x);
    }
  }

  lemma PhaseByKey(p: Pool, q: Pool, x: Acq)
    requires PhaseOk(p, x) && SameFor(p, q, x.key)
    ensures PhaseOk(q, x)
  {
    SameKeepsPhase(p, q, x);
  }

  lemma ReleaseStaysLive(p: Pool, e: nat, now: int)
    requires Wf(p) && e < |p.table| && p.table[e].life.Live? && p.table[e].refCount > 0
    requires p.table[e].refCount > 1 || !(p.table[e].condemned || IsOrphan(p, e))
    ensures ReleaseEntry(p, e, now).table[e].life.Live? && ReleaseEntry(p, e, now).table[e].key == p.table[e].key
  {
    if p.table[e].refCount == 1 {
      var y := IdleAppend(DropLast(p, e, now), e);
      assert y.table[e].life.Live? && y.table[e].key == p.table[e].key;
      AppendQuiet(DropLast(p, e, now), e);
      hide IdleAppend, WakeWaiter;
      WakeFrame(y);
    }
  }

  lemma ReleaseOwnKey(p: Pool, e: nat, now: int, x: Acq)
    requires PoolInv(p, now) && Wf(p) && e < |p.table| && p.table[e].refCount > 0 && p.table[e].key == x.key
    requires RecOk(p.table, p.entries, p.orphans, e) && PhaseOk(p, x)
    requires p.table[e].condemned && p.table[e].refCount == 1 ==> x.phase != Resolved(e)
    ensures PhaseOk(ReleaseEntry(p, e, now), x)
  {
    assert IsLive(p, e) || IsOrphan(p, e);
    if x.phase.Resolved? {
      assert RecOk(p.table, p.entries, p.orphans, x.phase.e);
      assert x.phase.e == e;
      hide ReleaseEntry, PoolInv;
      ReleaseDropsOne(p, e, now);
      ReleaseStaysLive(p, e, now);
    } else if x.phase.Done? {
      hide ReleaseEntry, PoolInv;
      ReleaseDropsOne(p, e, now);
    }
  }

  lemma ReleaseAges(p: Pool, e: nat, now: int)
    requires PoolInv(p, now) && e < |p.table| && p.table[e].refCount > 0
    ensures Wf(p) && Aging(p, ReleaseEntry(p, e, now)) && Settling(p, ReleaseEntry(p, e, now))
  {
    hide PoolInv, Aging, Settling, IdleAppend, WakeWaiter, DropLast, DropShared, RemoveEntry, Dispose, Wf;
    InvIsWf(p, now);
    QueueOf(p, now);
    DropAges(p, e, now);
    var z := DropLast(p, e, now);
    if p.table[e].refCount == 1 && !p.table[e].life.Disposed? {
      if p.table[e].condemned || IsOrphan(p, e) {
        InvalidSettles(z, e);
        AgeTwice(p, z, Dispose(RemoveEntry(z, e), e));
      } else {
        var y := IdleAppend(z, e);
        AppendAges(z, e);
        AgeTwice(p, z, y);
        WakeSettlesAll(y);
        AgeTwice(p, y, WakeWaiter(y));
      }
    } else {
      AgeRefl(p);
    }
  }

  lemma QueueOf(p: Pool, now: int)
    requires PoolInv(p, now)
    ensures QueueOk(p.log, p.queue)
  {
  }

  lemma DropAges(p: Pool, e: nat, now: int)
    requires e < |p.table| && p.table[e].refCount > 0
    ensures Aging(p, DropLast(p, e, now)) && Settling(p, DropLast(p, e, now))
    ensures Aging(p, DropShared(p, e)) && Settling(p, DropShared(p, e))
    ensures |DropLast(p, e, now).table| == |p.table|
    ensures DropLast(p, e, now).log == p.log && DropLast(p, e, now).queue == p.queue
  {
  }

  lemma AppendAges(p: Pool, e: nat)
    requires e < |p.table|
    ensures Aging(p, IdleAppend(p, e)) && Settling(p, IdleAppend(p, e))
    ensures IdleAppend(p, e).log == p.log && IdleAppend(p, e).queue == p.queue
  {
  }

  lemma AgeTwice(p: Pool, q: Pool, r: Pool)
    requires Aging(p, q) && Settling(p, q) && Aging(q, r) && Settling(q, r)
    ensures Aging(p, r) && Settling(p, r)
  {
  }

  lemma AgeRefl(p: Pool)
    ensures Aging(p, p) && Settling(p, p)
  {
  }

  lemma WakeSettlesAll(p: Pool)
    requires QueueOk(p.log, p.queue)
    ensures p.queue != [] ==> p.queue[0] < |p.log|
    ensures Settling(p, WakeWaiter(p)) && Aging(p, WakeWaiter(p))
    ensures WakeWaiter(p) == p.(log := WakeWaiter(p).log, queue := WakeWaiter(p).queue)
  {
    if p.queue != [] {
      ShiftIsSettle(p, WokenUp);
      WithoutIn(p.queue, p.queue[0]);
    }
  }

  lemma ReleaseStepKeeps(cfg: Config, s: State, a: nat)
    requires Inv(cfg, s) && Enabled(s, Release(a)) && Safe(s, Release(a))
    ensures Inv(cfg, Apply(cfg, s, Release(a)))
  {
    var p, e := s.pool, s.acqs[a].phase.e;
    HeldIsCounted(cfg, s, a);
    assert p.table[e].refCount > 0 && !p.table[e].life.Disposed?;
    var x := s.acqs[a].(phase := Done(e, true));
    assert forall b :: 0 <= b < |s.acqs| && p.table[e].condemned && p.table[e].refCount == 1 ==>
      s.acqs[b].phase != Resolved(e);
    hide PoolInv, MutexInv, CountInv, WaiterInv, BreakerInv, DrainInv, PhaseOk, ReleaseEntry, Wf, CellsWf;
    ReleaseKeeps(p, e, s.now);
    var q := ReleaseEntry(p, e, s.now);
    MoveKeepsMutex(s.mx, s.acqs, a, x);
    forall b | 0 <= b < |s.acqs| ensures PhaseOk(q, s.acqs[b]) {
      ReleaseMine(p, e, s.now, s.acqs[b]);
    }
    ReleaseDropsOne(p, e, s.now);
    ReleaseCounts(cfg, p, q, s.acqs, a, e, x, s.failed);
    ReleaseAges(p, e, s.now);
    ReleasedPhase(q, s.acqs[a], x);
    ReleaseRest(cfg, s, a, q, x);
  }

  lemma ReleaseRest(cfg: Config, s: State, a: nat, q: Pool, x: Acq)
    requires At(s, a) && s.acqs[a].phase.Done? && x.phase.Done?
    requires PhaseInv(s.pool, s.acqs) && PhaseOk(q, x)
    requires forall b :: 0 <= b < |s.acqs| ==> PhaseOk(q, s.acqs[b])
    requires WaiterInv(cfg, s.pool, s.acqs, s.owner) && BreakerInv(cfg, s.breakers, |s.closedBreaker|, s.acqs)
    requires DrainInv(s.pool.table, s.pool.closed, s.drains, s.openedAt, s.awaits)
    requires Aging(s.pool, q) && Settling(s.pool, q)
    ensures PhaseInv(q, s.acqs[a := x])
    ensures WaiterInv(cfg, q, s.acqs[a := x], s.owner)
    ensures BreakerInv(cfg, s.breakers, |s.closedBreaker|, s.acqs[a := x])
    ensures DrainInv(q.table, q.closed, s.drains, s.openedAt, s.awaits)
  {
    hide WaiterInv, BreakerInv, DrainInv, PhaseOk, Aging, Settling;
    SettlingKeepsWaiters(cfg, s.pool, q, s.acqs, a, x, s.owner);
    MoveKeepsBreakers(cfg, s.breakers, |s.closedBreaker|, s.acqs, a, x);
    AgingKeepsDrains(s.pool, q, s.drains, s.openedAt, s.awaits);
  }

  lemma ReleasedPhase(q: Pool, y: Acq, x: Acq)
    requires PhaseOk(q, y) && y.phase.Done? && x.phase == Done(y.phase.e, true)
    ensures PhaseOk(q, x)
  {
  }

  /** A handle that is not released is counted in its entry, which is therefore undisposed. */
  lemma HeldIsCounted(cfg: Config, s: State, a: nat)
    requires Inv(cfg, s) && At(s, a) && Outstanding(s.acqs[a])
    ensures var e := s.acqs[a].phase.e; e < |s.pool.table| && s.pool.table[e].refCount > 0 && s.pool.table[e].life.Live?
  {
    var e := s.acqs[a].phase.e;
    assert PhaseOk(s.pool, s.acqs[a]);
    CountMember(s.acqs, a, Holds(e));
    assert s.pool.table[e].refCount == Count(s.acqs, Holds(e));
    assert RecOk(s.pool.table, s.pool.entries, s.pool.orphans, e);
  }

  // --- steps of no acquire ---

  /** A step that only touches the pool and the drains, and nothing that is counted. */
  lemma DrainingStep(cfg: Config, s: State, q: Pool, drains: seq<DrainRun>, aw: Awaits)
    requires Inv(cfg, s) && PoolInv(q, s.now) && Quiet(s.pool, q) && |q.table| == |s.pool.table|
    requires q.reserved == s.pool.reserved && q.counters.hits == s.pool.counters.hits
    requires q.counters.misses == s.pool.counters.misses && q.counters.created == s.pool.counters.created
    requires Settling(s.pool, q)
    requires forall b :: 0 <= b < |s.acqs| && PhaseOk(s.pool, s.acqs[b]) ==> PhaseOk(q, s.acqs[b])
    requires DrainInv(q.table, q.closed, drains, s.openedAt, aw)
    ensures Inv(cfg, s.(pool := q, drains := drains, awaits := aw))
  {
    hide PoolInv, MutexInv, CountInv, WaiterInv, BreakerInv, DrainInv, PhaseOk, Quiet, Settling;
    QuietKeepsCounts(cfg, s.pool, q, s.acqs, s.failed);
    SettlingAlone(cfg, s.pool, q, s.acqs, s.owner);
  }

  lemma PoolStep(cfg: Config, s: State, q: Pool)
    requires Inv(cfg, s) && PoolInv(q, s.now) && Quiet(s.pool, q) && |q.table| == |s.pool.table|
    requires q.reserved == s.pool.reserved && q.counters.hits == s.pool.counters.hits
    requires q.counters.misses == s.pool.counters.misses && q.counters.created == s.pool.counters.created
    requires Settling(s.pool, q)
    requires forall b :: 0 <= b < |s.acqs| && PhaseOk(s.pool, s.acqs[b]) ==> PhaseOk(q, s.acqs[b])
    requires DrainInv(q.table, q.closed, s.drains, s.openedAt, s.awaits)
    ensures Inv(cfg, s.(pool := q))
  {
    hide Inv, PoolInv, DrainInv, PhaseOk, Quiet, Settling;
    DrainingStep(cfg, s, q, s.drains, s.awaits);
    assert s.(pool := q, drains := s.drains, awaits := s.awaits) == s.(pool := q);
  }

  lemma TimeoutKeeps(cfg: Config, s: State, w: nat)
    requires Inv(cfg, s) && Enabled(s, Timeout(w))
    ensures Inv(cfg, Apply(cfg, s, Timeout(w)))
  {
    var p, q := s.pool, Settle(s.pool, w, TimedOut);
    WithoutIn(p.queue, w);
    assert Quiet(p, q) && Settling(p, q);
    assert forall b :: 0 <= b < |s.acqs| && PhaseOk(p, s.acqs[b]) ==> PhaseOk(q, s.acqs[b]);
    hide Inv, PoolInv, Quiet, Settling, PhaseOk, DrainInv;
    DrainsOf(cfg, s);
    SettleKeeps(p, w, TimedOut, s.now);
    PoolStep(cfg, s, q);
  }

  lemma DrainsOf(cfg: Config, s: State)
    requires Inv(cfg, s)
    ensures PoolInv(s.pool, s.now) && DrainInv(s.pool.table, s.pool.closed, s.drains, s.openedAt, s.awaits)
    ensures PendingOk(s.pool, s.acqs) && PhaseInv(s.pool, s.acqs)
  {
  }

  lemma SweepEffects(p: Pool, cfg: Config, now: int)
    requires PoolInv(p, now)
    ensures Wf(p) && PoolInv(Sweep(p, cfg, now), now)
    ensures Quiet(p, Sweep(p, cfg, now)) && Aging(p, Sweep(p, cfg, now)) && |Sweep(p, cfg, now).table| == |p.table|
    ensures Settling(p, Sweep(p, cfg, now)) && Sweep(p, cfg, now).reserved == p.reserved
    ensures Sweep(p, cfg, now).counters == p.counters.(evicted := Sweep(p, cfg, now).counters.evicted)
  {
    hide PoolInv, Quiet, Aging, Settling, SweepWalk, SweptTo, Wf;
    InvIsWf(p, now);
    if cfg.idleTtlMs != 0 {
      IdleInTable(p);
      SweepIsFilter(p, [], p.idle, now - cfg.idleTtlMs, now);
      var q := Sweep(p, cfg, now);
      SweptQuiet(p, now - cfg.idleTtlMs, q);
      SweptSettles(p, q, now);
    } else {
      AgeRefl(p);
      QuietFields(p, p);
    }
  }

  lemma IdleInTable(p: Pool)
    requires Wf(p)
    ensures forall i :: 0 <= i < |p.idle| ==> p.idle[i] < |p.table|
  {
  }

  lemma SweptQuiet(p: Pool, cutoff: int, q: Pool)
    requires Wf(p) && SweptTo(p, [], p.idle, cutoff, q)
    ensures Quiet(p, q) && Aging(p, q) && |q.table| == |p.table| && q.reserved == p.reserved
    ensures q.counters == p.counters.(evicted := q.counters.evicted)
    ensures |q.log| == |p.log| && |q.queue| <= |p.queue| && q.queue == p.queue[|p.queue| - |q.queue|..]
  {
  }

  lemma SweptSettles(p: Pool, q: Pool, now: int)
    requires PoolInv(p, now) && PoolInv(q, now) && |q.log| == |p.log| && |q.queue| <= |p.queue|
    requires q.queue == p.queue[|p.queue| - |q.queue|..]
    ensures Settling(p, q)
  {
    forall w | 0 <= w < |p.log| && q.log[w].Waiting? ensures p.log[w].Waiting? {
      assert w in q.queue;
      assert w in p.queue;
    }
  }

  lemma SweepStepKeeps(cfg: Config, s: State)
    requires Inv(cfg, s) && Enabled(s, SweepTimer)
    ensures Inv(cfg, Apply(cfg, s, SweepTimer))
  {
    hide Inv, PoolInv, Quiet, Aging, Settling, PhaseOk, DrainInv, PhaseInv, PendingOk, Sweep, SameFor, Wf, CellsWf;
    DrainsOf(cfg, s);
    var p, q := s.pool, Sweep(s.pool, cfg, s.now);
    SweepEffects(p, cfg, s.now);
    forall b | 0 <= b < |s.acqs| && PhaseOk(p, s.acqs[b]) ensures PhaseOk(q, s.acqs[b]) {
      SweepOther(cfg, s, s.acqs[b], b);
    }
    AgingKeepsDrains(p, q, s.drains, s.openedAt, s.awaits);
    PoolStep(cfg, s, q);
  }

  lemma SweepOther(cfg: Config, s: State, x: Acq, b: nat)
    requires PoolInv(s.pool, s.now) && PendingOk(s.pool, s.acqs) && b < |s.acqs| && x == s.acqs[b] && PhaseOk(s.pool, x)
    ensures Wf(s.pool) && PhaseOk(Sweep(s.pool, cfg, s.now), x)
  {
    var p := s.pool;
    SweepEffects(p, cfg, s.now);
    if Active(x) {
      hide PoolInv, PhaseOk, Quiet, Aging, Settling, PendingOk, Sweep, Wf;
      ActiveIsPending(p, s.acqs, b);
      SweepSame(p, cfg, s.now, x.key);
      SameKeepsPhase(p, Sweep(p, cfg, s.now), x);
    } else {
      hide PoolInv, Quiet, Settling, PendingOk, Sweep, Wf;
    }
  }

  lemma DisposeDoneKeeps(cfg: Config, s: State, e: nat)
    requires Inv(cfg, s) && Enabled(s, DisposeDone(e))
    ensures Inv(cfg, Apply(cfg, s, DisposeDone(e)))
  {
    var p, q := s.pool, FinishDispose(s.pool, e);
    DisposedEffects(s, e);
    hide Inv, PoolInv, Quiet, Settling, PhaseOk, DrainInv, PendingOk, PhaseInv, Wf, CellsWf, FinishDispose, EndDisposal,
         Droppable;
    DrainsOf(cfg, s);
    FinishDisposeKeeps(p, e, s.now);
    forall b | 0 <= b < |s.acqs| && PhaseOk(p, s.acqs[b]) ensures PhaseOk(q, s.acqs[b]) {
      DisposedPhase(p, e, s.acqs[b]);
    }
    EndKeepsDrains(p, e, s.drains, s.openedAt, s.awaits);
    DrainingStep(cfg, s, q, s.drains, EndDisposal(s.awaits, e));
    DropKeeps(cfg, DisposeDoneStep(s, e), p.table[e].key);
  }

  lemma DisposedEffects(s: State, e: nat)
    requires Enabled(s, DisposeDone(e))
    ensures var q := FinishDispose(s.pool, e); Quiet(s.pool, q) && Settling(s.pool, q) && |q.table| == |s.pool.table|
    ensures var q := FinishDispose(s.pool, e); q.reserved == s.pool.reserved && q.closed == s.pool.closed
    ensures FinishDispose(s.pool, e).counters == s.pool.counters.(disposed := s.pool.counters.disposed + 1)
  {
  }

  lemma DisposedPhase(p: Pool, e: nat, x: Acq)
    requires e < |p.table| && p.table[e].life.Disposing? && PhaseOk(p, x)
    ensures PhaseOk(FinishDispose(p, e), x)
  {
  }

  lemma EndKeepsDrains(p: Pool, e: nat, drains: seq<DrainRun>, openedAt: nat, aw: Awaits)
    requires DrainInv(p.table, p.closed, drains, openedAt, aw) && e < |p.table| && p.table[e].life.Disposing?
    ensures DrainInv(FinishDispose(p, e).table, p.closed, drains, openedAt, EndDisposal(aw, e))
  {
    hide AwaitInv, EndDisposal;
    EndKeepsAwaits(p.table, FinishDispose(p, e).table, drains, aw, e);
  }

  /** A breaker in use is never dropped: its key has an acquire in flight. */
  lemma DropKeeps(cfg: Config, s: State, k: Key)
    requires Inv(cfg, s)
    ensures Inv(cfg, DropBreaker(s, cfg, k))
  {
    DrainsOf(cfg, s);
    hide PoolInv, MutexInv, PhaseInv, CountInv, WaiterInv, DrainInv, PendingOk;
    forall a | 0 <= a < |s.acqs| && s.acqs[a].phase.Creating?
      ensures BreakerOk(cfg, DropBreaker(s, cfg, k).breakers, s.acqs[a])
    {
      ActiveIsPending(s.pool, s.acqs, a);
      assert BreakerOk(cfg, s.breakers, s.acqs[a]);
    }
  }

  lemma DropAllKeeps(cfg: Config, s: State)
    requires Inv(cfg, s)
    ensures Inv(cfg, DropAll(s, cfg))
  {
    DrainsOf(cfg, s);
    hide PoolInv, MutexInv, PhaseInv, CountInv, WaiterInv, DrainInv, PendingOk;
    forall a | 0 <= a < |s.acqs| && s.acqs[a].phase.Creating?
      ensures BreakerOk(cfg, DropAll(s, cfg).breakers, s.acqs[a])
    {
      ActiveIsPending(s.pool, s.acqs, a);
      assert BreakerOk(cfg, s.breakers, s.acqs[a]);
    }
  }

  lemma GcKeeps(cfg: Config, s: State)
    requires Inv(cfg, s) && Enabled(s, GcTimer)
    ensures Inv(cfg, Apply(cfg, s, GcTimer))
  {
    CurrentOf(cfg, s);
    hide Inv, GcCells;
    GcFindsNothing(s.mx, cfg.mutexGcMs, s.now);
    DropAllKeeps(cfg, s);
  }

  lemma CurrentOf(cfg: Config, s: State)
    requires Inv(cfg, s)
    ensures CurrentOk(s.mx) && CellsWf(s.mx)
  {
  }

  // --- drain ---

  /** What drain does to an entry, as the counters and an acquire see it. */
  lemma DrainEffects(p: Pool, now: int)
    requires PoolInv(p, now)
    ensures Wf(p) && Quiet(p, Drain(p)) && Settling(p, Drain(p)) && |Drain(p).table| == |p.table|
    ensures Drain(p).reserved == p.reserved && Drain(p).closed
    ensures Drain(p).counters == p.counters.(evicted := Drain(p).counters.evicted)
    ensures forall e :: 0 <= e < |p.table| ==> Drain(p).table[e] == Drained(p, e)
    ensures Drain(p).entries == map[]
    ensures forall k :: Absent(p, k) ==> Absent(Drain(p), k)
  {
    hide PoolInv, Drain;
    DrainForm(p, now);
  }

  lemma DrainPhase(p: Pool, x: Acq, now: int)
    requires PoolInv(p, now) && PhaseOk(p, x)
    requires x.phase.Validating? || x.phase.Resolved? ==> x.phase.e < |p.table| && p.table[x.phase.e].refCount > 0
    ensures Wf(p) && PhaseOk(Drain(p), x)
  {
    hide PoolInv, Drain, Quiet, Settling;
    DrainEffects(p, now);
    DrainKeepsLog(p, now);
  }

  lemma DrainKeepsLog(p: Pool, now: int)
    requires PoolInv(p, now)
    ensures Wf(p) && |Drain(p).log| == |p.log|
  {
    hide PoolInv, Drain, DrainedPool;
    DrainForm(p, now);
  }

  lemma DrainStartKeeps(cfg: Config, s: State)
    requires Inv(cfg, s) && Enabled(s, DrainStart) && DrainSafe(s)
    ensures Inv(cfg, Apply(cfg, s, DrainStart))
  {
    hide Inv, PoolInv, PhaseOk, DrainInv, PhaseInv, PendingOk, Drain, Drained, Quiet, Settling, Wf, CellsWf, Waits,
         Absent;
    DrainsOf(cfg, s);
    InvIsWf(s.pool, s.now);
    var p, q := s.pool, Drain(s.pool);
    var ws := Waits(p, |s.drains|);
    var drains := s.drains + [DrainRun(ws, false)];
    DrainKeeps(p, s.now);
    DrainEffects(p, s.now);
    forall b | 0 <= b < |s.acqs| && PhaseOk(p, s.acqs[b]) ensures PhaseOk(q, s.acqs[b]) {
      DrainPhase(p, s.acqs[b], s.now);
    }
    DrainDrains(s, q);
    DrainingStep(cfg, s, q, drains, StartWaits(s.awaits, ws));
  }

  /** Whatever is live is resident, and hence awaited. */
  lemma LiveIsAwaited(p: Pool, now: int, d: nat, e: nat)
    requires PoolInv(p, now) && e < |p.table| && p.table[e].life.Live?
    ensures Wf(p) && e in Awaited(Waits(p, d))
  {
    InvIsWf(p, now);
    AwaitsResidents(p, d);
    assert RecOk(p.table, p.entries, p.orphans, e);
    var k, m := p.table[e].key, p.orphans + Held(p, p.entries.Keys);
    if IsLive(p, e) {
      assert p.entries[k] in Range(p.entries);
    } else {
      assert k !in p.entries;
      assert m[k] == e && m[k] in Range(m);
    }
  }

  /** The new drain awaits all that is live; the older ones of a closed pool already did. */
  lemma DrainDrains(s: State, q: Pool)
    requires PoolInv(s.pool, s.now) && DrainInv(s.pool.table, s.pool.closed, s.drains, s.openedAt, s.awaits)
    requires |q.table| == |s.pool.table| && forall e :: 0 <= e < |q.table| ==> q.table[e] == Drained(s.pool, e)
    ensures Wf(s.pool)
    ensures var ws := Waits(s.pool, |s.drains|);
      DrainInv(q.table, true, s.drains + [DrainRun(ws, false)], s.openedAt, StartWaits(s.awaits, ws))
  {
    InvIsWf(s.pool, s.now);
    var ws := Waits(s.pool, |s.drains|);
    StillDisposed(s.pool, q.table);
    hide PoolInv, AwaitInv, Waits, Wf, Awaited, Drained;
    StartKeepsAwaits(s.pool, q.table, s.drains, s.awaits);
    forall e | 0 <= e < |q.table| && q.table[e].life.Live? ensures e in Awaited(ws) && s.pool.table[e].life.Live? {
      DrainedLives(s.pool, e);
      LiveIsAwaited(s.pool, s.now, |s.drains|, e);
    }
  }

  lemma DrainedLives(p: Pool, e: nat)
    requires e < |p.table|
    ensures Drained(p, e).life.Live? ==> p.table[e].life.Live?
  {
  }

  lemma StillDisposed(p: Pool, t: seq<Rec>)
    requires |t| == |p.table| && forall e :: 0 <= e < |t| ==> t[e] == Drained(p, e)
    ensures SameDisposed(p.table, t)
  {
  }

  lemma DrainDoneKeeps(cfg: Config, s: State, d: nat)
    requires Inv(cfg, s) && Enabled(s, DrainDone(d))
    ensures Inv(cfg, Apply(cfg, s, DrainDone(d)))
  {
    hide PoolInv, MutexInv, PhaseInv, CountInv, WaiterInv, BreakerInv, BoardOk, WaitsOk;
    var drains := s.drains[d := s.drains[d].(done := true)];
    forall c | 0 <= c < |drains| ensures DrainOk(s.pool.table, s.awaits, drains[c]) {
      assert DrainOk(s.pool.table, s.awaits, s.drains[c]);
    }
  }

  lemma StartKeeps(cfg: Config, s: State)
    requires Inv(cfg, s) && Enabled(s, Start)
    ensures Inv(cfg, Apply(cfg, s, Start))
  {
    var q := s.pool.(closed := false);
    hide MutexInv, BreakerInv, PhaseOk;
    StartPool(s.pool, s.now);
    forall b | 0 <= b < |s.acqs| && PhaseOk(s.pool, s.acqs[b]) ensures PhaseOk(q, s.acqs[b]) {
      OpenPhase(s.pool, s.acqs[b]);
    }
    StartDrains(s);
    hide PoolInv, CountInv, WaiterInv, DrainInv;
    StartRest(cfg, s.pool, s.acqs, s.failed, s.owner);
  }

  lemma StartRest(cfg: Config, p: Pool, acqs: seq<Acq>, failed: nat, owner: seq<nat>)
    requires CountInv(cfg, p, acqs, failed) && WaiterInv(cfg, p, acqs, owner)
    ensures CountInv(cfg, p.(closed := false), acqs, failed) && WaiterInv(cfg, p.(closed := false), acqs, owner)
  {
    assert forall k :: Pending(p.(closed := false), k) == Pending(p, k);
  }

  lemma StartPool(p: Pool, now: int)
    requires PoolInv(p, now)
    ensures PoolInv(p.(closed := false), now)
  {
  }

  lemma OpenPhase(p: Pool, x: Acq)
    requires PhaseOk(p, x)
    ensures PhaseOk(p.(closed := false), x)
  {
  }

  lemma StartDrains(s: State)
    requires DrainInv(s.pool.table, s.pool.closed, s.drains, s.openedAt, s.awaits)
    ensures DrainInv(s.pool.table, false, s.drains, |s.drains|, s.awaits)
  {
  }

  lemma TickKeeps(cfg: Config, s: State, t: int)
    requires Inv(cfg, s) && s.now <= t
    ensures Inv(cfg, s.(now := t))
  {
    hide MutexInv, PhaseInv, CountInv, WaiterInv, BreakerInv, DrainInv;
    hide KeysOk, LifeOk, IdleOk, QueueOk, ClosedOk, CountersOk, Ordered;
  }

  lemma BreakerMovesKeeps(cfg: Config, s: State, b: nat, closed: bool)
    requires Inv(cfg, s) && b < |s.closedBreaker|
    ensures Inv(cfg, s.(closedBreaker := s.closedBreaker[b := closed]))
  {
    hide PoolInv, MutexInv, PhaseInv, CountInv, WaiterInv, DrainInv;
  }

  // --- every step, every run ---

  lemma StepKeeps(cfg: Config, s: State, step: Step)
    requires Inv(cfg, s) && Enabled(s, step) && Safe(s, step)
    ensures Inv(cfg, Apply(cfg, s, step))
  {
    hide Inv, Ready, DrainSafe, ReleaseSafe, Outstanding, Target;
    hide CallStep, MoveGate, Move, ObtainStart, Validated, ObtainMiss, Resume, CreateStartStep, FactoryDone,
         ReleaseReservation, FinishStep, ReleaseStep, ReleaseByKey, Settle, Sweep, DropBreaker, FinishDispose,
         Drain, Waits, GcCells, DropAll;
    match step {
      case Tick(t) => TickKeeps(cfg, s, t);
      case Call(k) => CallStepKeeps(cfg, s, k);
      case Begin(a) => BeginStep(cfg, s, a);
      case ValidateDone(a, ok) => ValidateStep(cfg, s, a, ok);
      case ValidateThrow(a) => ThrowStep(cfg, s, a);
      case Replaced(a) => ReplacedStep(cfg, s, a);
      case Resumed(a) => ResumedStep(cfg, s, a);
      case CreateStart(a) => CreateStartKeeps(cfg, s, a);
      case CreateDone(a) => CreateDoneStep(cfg, s, a);
      case CreateFail(a) => CreateFailStep(cfg, s, a);
      case LateDone(a) => LateDoneStep(cfg, s, a);
      case Finish(a) => FinishStepKeeps(cfg, s, a);
      case Release(a) => ReleaseStepKeeps(cfg, s, a);
      case ReleaseKey(k, a) =>
        ReleaseKeyIsRelease(cfg, s, k, a);
        ReleaseStepKeeps(cfg, s, a);
      case Timeout(w) => TimeoutKeeps(cfg, s, w);
      case SweepTimer => SweepStepKeeps(cfg, s);
      case DisposeDone(e) => DisposeDoneKeeps(cfg, s, e);
      case DrainStart => DrainStartKeeps(cfg, s);
      case DrainDone(d) => DrainDoneKeeps(cfg, s, d);
      case Start => StartKeeps(cfg, s);
      case GcTimer => GcKeeps(cfg, s);
      case BreakerMoves(b, closed) => BreakerMovesKeeps(cfg, s, b, closed);
    }
  }

  /** The invariant holds at the end of every safe run. */
  lemma {:induction false} RunKeeps(cfg: Config, s: State, steps: seq<Step>)
    requires Inv(cfg, s) && SafeRun(cfg, s, steps)
    ensures Run(cfg, s, steps) && Inv(cfg, End(cfg, s, steps))
    decreases |steps|
  {
    hide Inv, Enabled, Safe, Apply;
    SafeRunIsRun(cfg, s, steps);
    if steps != [] {
      StepKeeps(cfg, s, steps[0]);
      RunKeeps(cfg, Apply(cfg, s, steps[0]), steps[1..]);
    }
  }
}
