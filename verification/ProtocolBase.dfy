/** What every step keeps, safe or not: the mutex, the counters, the waiters, the breakers in use, the
    promises of the drains, and that each resource is disposed at most once. */
module ProtocolBase {
  import opened Counting
  import opened PoolModel
  import opened PoolInvariant
  import opened PoolBulk
  import opened MutexModel
  import opened AwaitModel
  import opened Protocol
  import opened ProtocolMutex
  import opened ProtocolPhases
  import opened ProtocolCounts
  import opened ProtocolInvariant
  import opened ProtocolSteps

  /** The user's dispose was called exactly once on each resource that is no longer live, and on no
      other. */
  predicate OnceOk(t: seq<Rec>) {
    forall e :: 0 <= e < |t| ==> t[e].disposeCalls == One(!t[e].life.Live?)
  }

  ghost predicate LedgerInv(cfg: Config, p: Pool, acqs: seq<Acq>, failed: nat) {
    PendingOk(p, acqs) && GateOk(cfg, p, acqs, failed) && TrafficOk(p.counters, acqs, failed) && RefsOk(p)
  }

  /** Whoever was woken has no older waiter that still waits. */
  predicate InParkOrder(log: seq<WaiterState>) {
    forall v, w :: 0 <= v < w < |log| && log[w].WokenUp? ==> !log[v].Waiting?
  }

  ghost predicate BaseInv(cfg: Config, s: State) {
    && OnceOk(s.pool.table) && CountersOk(s.pool.table, s.pool.counters)
    && MutexInv(s.mx, s.acqs)
    && LedgerInv(cfg, s.pool, s.acqs, s.failed)
    && QueueOk(s.pool.log, s.pool.queue) && InParkOrder(s.pool.log)
    && WaiterInv(cfg, s.pool, s.acqs, s.owner)
    && BreakerInv(cfg, s.breakers, |s.closedBreaker|, s.acqs)
    && AwaitInv(s.pool.table, s.drains, s.awaits)
  }

  lemma InitBase(cfg: Config, now: int)
    ensures BaseInv(cfg, Init(now))
  {
    hide MutexInv, LedgerInv, WaiterInv, BreakerInv, DrainInv, AwaitInv, CountInv, PhaseInv;
    InitRest(cfg, now);
    CountsAreLedger(cfg, EMPTY_POOL, [], 0);
    DrainsAreAwaits([], false, [], 0, NO_AWAITS);
  }

  lemma CountsAreLedger(cfg: Config, p: Pool, acqs: seq<Acq>, failed: nat)
    requires CountInv(cfg, p, acqs, failed)
    ensures LedgerInv(cfg, p, acqs, failed)
  {
  }

  lemma DrainsAreAwaits(t: seq<Rec>, closed: bool, drains: seq<DrainRun>, openedAt: nat, aw: Awaits)
    requires DrainInv(t, closed, drains, openedAt, aw)
    ensures AwaitInv(t, drains, aw)
  {
  }

  // --- the life of a resource ---

  /** A resource stays as it is, or goes to disposal. */
  predicate Leaves(r: Rec, u: Rec) {
    || (u.life == r.life && u.disposeCalls == r.disposeCalls)
    || (r.life.Live? && u.life.Disposing? && u.disposeCalls == r.disposeCalls + 1)
  }

  /** So do all, and new ones are live. */
  predicate Lives(p: Pool, q: Pool) {
    && |p.table| <= |q.table|
    && (forall e :: 0 <= e < |p.table| ==> Leaves(p.table[e], q.table[e]))
    && (forall e :: |p.table| <= e < |q.table| ==> q.table[e].life.Live? && q.table[e].disposeCalls == 0)
    && q.counters.created - p.counters.created == |q.table| - |p.table|
    && q.counters.disposed == p.counters.disposed
  }

  lemma LivesKeepsOnce(p: Pool, q: Pool, drains: seq<DrainRun>, aw: Awaits)
    requires OnceOk(p.table) && CountersOk(p.table, p.counters) && AwaitInv(p.table, drains, aw) && Lives(p, q)
    ensures OnceOk(q.table) && CountersOk(q.table, q.counters) && AwaitInv(q.table, drains, aw)
  {
    SameKeepsAwaits(p.table, q.table, drains, aw);
    hide AwaitInv;
    SameCount(p.table, q.table);
  }

  lemma {:induction false} SameCount(t: seq<Rec>, u: seq<Rec>)
    requires SameDisposed(t, u)
    ensures Count(u, HasLife(Disposed)) == Count(t, HasLife(Disposed))
    decreases |u|
  {
    if |t| < |u| {
      SameCount(t, u[..|u| - 1]);
    } else {
      CountAgree(u, t, HasLife(Disposed), HasLife(Disposed));
    }
  }

  lemma LivesTwice(p: Pool, q: Pool, r: Pool)
    requires Lives(p, q) && Lives(q, r) && |q.table| == |p.table|
    ensures Lives(p, r)
  {
    forall e | 0 <= e < |p.table| ensures Leaves(p.table[e], r.table[e]) {
      assert Leaves(p.table[e], q.table[e]) && Leaves(q.table[e], r.table[e]);
    }
  }

  /** The same records, and the same two counters. */
  lemma LivesOn(p: Pool, q: Pool)
    requires q.table == p.table && q.counters.created == p.counters.created
    requires q.counters.disposed == p.counters.disposed
    ensures Lives(p, q)
  {
  }

  // --- waking ---

  /** From one log to a later one: nobody settles twice, and wakes respect park order. */
  predicate Disciplined(before: seq<WaiterState>, after: seq<WaiterState>) {
    && |before| <= |after|
    && (forall w :: 0 <= w < |before| && !before[w].Waiting? ==> after[w] == before[w])
    && (InParkOrder(before) ==> InParkOrder(after))
  }

  lemma SameIsDisciplined(log: seq<WaiterState>)
    ensures Disciplined(log, log)
  {
  }

  lemma ParkIsDisciplined(log: seq<WaiterState>)
    ensures Disciplined(log, log + [Waiting])
  {
  }

  lemma DisciplinedTwice(a: seq<WaiterState>, b: seq<WaiterState>, c: seq<WaiterState>)
    requires Disciplined(a, b) && Disciplined(b, c)
    ensures Disciplined(a, c)
  {
  }

  lemma WakeIsDisciplined(p: Pool)
    requires QueueOk(p.log, p.queue)
    ensures p.queue != [] ==> p.queue[0] < |p.log|
    ensures Disciplined(p.log, WakeWaiter(p).log) && QueueOk(WakeWaiter(p).log, WakeWaiter(p).queue)
  {
    if p.queue != [] {
      ShiftIsSettle(p, WokenUp);
      var w := p.queue[0];
      assert w in p.queue;
      QueueSettle(p.log, p.queue, w, WokenUp);
      forall v | 0 <= v < w ensures !p.log[v].Waiting? {
        assert p.log[v].Waiting? ==> v in p.queue;
      }
    }
  }

  lemma SettleIsDisciplined(p: Pool, w: nat)
    requires QueueOk(p.log, p.queue) && w < |p.log|
    ensures var q := Settle(p, w, TimedOut); Disciplined(p.log, q.log) && QueueOk(q.log, q.queue)
  {
    if p.log[w].Waiting? {
      QueueSettle(p.log, p.queue, w, TimedOut);
    }
  }

  /** A step that moves no acquire and counts nothing: the sweep, a timeout, drain. */
  predicate Passes(p: Pool, q: Pool) {
    && Quiet(p, q) && Lives(p, q) && |q.table| == |p.table|
    && Settling(p, q) && QueueOk(q.log, q.queue) && Disciplined(p.log, q.log)
    && q.reserved == p.reserved && q.counters == p.counters.(evicted := q.counters.evicted)
  }

  lemma PassesTwice(p: Pool, q: Pool, r: Pool)
    requires Passes(p, q) && Passes(q, r)
    ensures Passes(p, r)
  {
    LivesTwice(p, q, r);
    DisciplinedTwice(p.log, q.log, r.log);
    hide Lives, Disciplined, QueueOk;
  }

  lemma PassesNot(p: Pool)
    requires QueueOk(p.log, p.queue)
    ensures Passes(p, p)
  {
    SameIsDisciplined(p.log);
    hide QueueOk, Disciplined;
  }

  /** What becomes of the table while waiters stay. */
  lemma PassesTable(p: Pool, q: Pool)
    requires QueueOk(p.log, p.queue) && q.log == p.log && q.queue == p.queue && |q.table| == |p.table|
    requires forall e :: 0 <= e < |p.table| ==>
      Leaves(p.table[e], q.table[e]) && q.table[e].refCount == p.table[e].refCount
    requires q.pending == p.pending && q.reserved == p.reserved
    requires q.counters == p.counters.(evicted := q.counters.evicted)
    ensures Passes(p, q)
  {
    SameIsDisciplined(p.log);
    hide QueueOk, Disciplined, Leaves;
  }

  /** What becomes of the waiters while the table stays. */
  lemma PassesWaiters(p: Pool, q: Pool)
    requires QueueOk(q.log, q.queue) && Settling(p, q) && Disciplined(p.log, q.log)
    requires q.table == p.table && q.pending == p.pending && q.reserved == p.reserved && q.counters == p.counters
    ensures Passes(p, q)
  {
    hide QueueOk, Disciplined, Settling;
    LivesOn(p, q);
  }

  lemma EvictPasses(p: Pool, v: nat)
    requires QueueOk(p.log, p.queue) && v < |p.table|
    ensures Passes(p, Evict(p, v)) && Evict(p, v).log == p.log && Evict(p, v).queue == p.queue
  {
    var q := Evict(p, v);
    hide QueueOk;
    assert q.table == p.table[v := DisposeRec(p.table[v])];
    PassesTable(p, q);
  }

  lemma WakePasses(p: Pool)
    requires QueueOk(p.log, p.queue)
    ensures p.queue != [] ==> p.queue[0] < |p.log|
    ensures Passes(p, WakeWaiter(p))
  {
    WakeIsDisciplined(p);
    WakeSettlesAll(p);
    hide QueueOk, Disciplined, Settling, Aging, WakeWaiter;
    PassesWaiters(p, WakeWaiter(p));
  }

  lemma {:induction false} WalkPasses(p: Pool, nodes: seq<nat>, cutoff: int)
    requires Wf(p) && QueueOk(p.log, p.queue) && forall i :: 0 <= i < |nodes| ==> nodes[i] < |p.table|
    ensures Passes(p, SweepWalk(p, nodes, cutoff))
    decreases |nodes|
  {
    hide QueueOk, Passes, Wf, Evict, WakeWaiter;
    if nodes == [] || p.table[nodes[0]].lastReleasedAt > cutoff {
      PassesNot(p);
    } else if IsPending(p, p.table[nodes[0]].key) {
      WalkPasses(p, nodes[1..], cutoff);
    } else {
      var q := Evict(p, nodes[0]);
      WfEvictWake(p, nodes[0]);
      EvictPasses(p, nodes[0]);
      PassesQueue(p, q);
      WakePasses(q);
      var r := WakeWaiter(q);
      PassesQueue(q, r);
      WalkPasses(r, nodes[1..], cutoff);
      PassesTwice(p, q, r);
      PassesTwice(p, r, SweepWalk(r, nodes[1..], cutoff));
    }
  }

  lemma PassesQueue(p: Pool, q: Pool)
    requires Passes(p, q)
    ensures QueueOk(q.log, q.queue)
  {
  }

  lemma SweepPasses(p: Pool, cfg: Config, now: int)
    requires Wf(p) && QueueOk(p.log, p.queue)
    ensures Passes(p, Sweep(p, cfg, now))
  {
    hide QueueOk, Passes, SweepWalk;
    if cfg.idleTtlMs == 0 {
      PassesNot(p);
    } else {
      WalkPasses(p, p.idle, now - cfg.idleTtlMs);
    }
  }

  lemma TimeoutPasses(p: Pool, w: nat)
    requires w < |p.log| && QueueOk(p.log, p.queue)
    ensures Passes(p, Settle(p, w, TimedOut))
  {
    WithoutIn(p.queue, w);
    SettleIsDisciplined(p, w);
    hide QueueOk, Disciplined;
    PassesWaiters(p, Settle(p, w, TimedOut));
  }

  lemma ClosePasses(p: Pool)
    requires Wf(p) && QueueOk(p.log, p.queue)
    ensures Passes(p, CloseWaiters(p)) && Wf(CloseWaiters(p))
  {
    CloseSettlesAll(p);
    WfClose(p);
    PassesWaiters(p, CloseWaiters(p));
  }

  lemma DrainPasses(p: Pool)
    requires Wf(p) && QueueOk(p.log, p.queue)
    ensures Passes(p, Drain(p)) && Drain(p).closed && SameDisposed(p.table, Drain(p).table)
  {
    hide Passes, QueueOk, CloseWaiters, Wf, DrainEntries, CondemnOrphans;
    var c := p.(closed := true);
    PassesClosed(p);
    ClosePasses(c);
    var q := CloseWaiters(c);
    WfClose(c);
    PassesQueue(c, q);
    WfDrainEntries(q, q.entries.Keys);
    DrainEntriesPasses(q);
    var r := DrainEntries(q, q.entries.Keys);
    PassesQueue(q, r);
    CondemnPasses(r);
    PassesTwice(p, c, q);
    PassesTwice(p, q, r);
    PassesTwice(p, r, Drain(p));
    PassesDisposed(p, Drain(p));
    DrainIsClosed(p);
  }

  lemma DrainIsClosed(p: Pool)
    requires Wf(p)
    ensures Drain(p).closed
  {
    hide CloseWaiters, Held, Outside;
    WfClose(p.(closed := true));
  }

  lemma PassesDisposed(p: Pool, q: Pool)
    requires Passes(p, q)
    ensures SameDisposed(p.table, q.table)
  {
  }

  lemma PassesClosed(p: Pool)
    requires Wf(p) && QueueOk(p.log, p.queue)
    ensures Wf(p.(closed := true)) && Passes(p, p.(closed := true))
  {
    PassesTable(p, p.(closed := true));
  }

  lemma DrainEntriesPasses(p: Pool)
    requires Wf(p) && QueueOk(p.log, p.queue)
    ensures Passes(p, DrainEntries(p, p.entries.Keys))
  {
    hide Outside, Held, QueueOk, Passes;
    PassesTable(p, DrainEntries(p, p.entries.Keys));
  }

  lemma CondemnPasses(p: Pool)
    requires QueueOk(p.log, p.queue)
    ensures Passes(p, CondemnOrphans(p).(idle := []))
    ensures CondemnOrphans(p).closed == p.closed
  {
    PassesTable(p, CondemnOrphans(p).(idle := []));
  }

  // --- the ledger ---

  lemma MoveKeepsLedger(cfg: Config, p: Pool, q: Pool, acqs: seq<Acq>, a: nat, x: Acq, failed: nat, failed': nat)
    requires LedgerInv(cfg, p, acqs, failed) && a < |acqs| && Quiet(p, q)
    requires Tallies(cfg, p, q, acqs[a], x, failed, failed')
    requires x.key == acqs[a].key && Active(x) && Active(acqs[a])
    ensures LedgerInv(cfg, q, acqs[a := x], failed')
  {
    CountUpdate(acqs, a, x, IsReserving());
    CountUpdate(acqs, a, x, IsResolved());
    CountUpdate(acqs, a, x, IsMissing());
    QuietPending(p, q, acqs, a, x);
    TotalAgrees(p.table, q.table);
  }

  lemma PassesKeepsLedger(cfg: Config, p: Pool, q: Pool, acqs: seq<Acq>, failed: nat)
    requires LedgerInv(cfg, p, acqs, failed) && Passes(p, q)
    ensures LedgerInv(cfg, q, acqs, failed)
  {
    TotalAgrees(p.table, q.table);
    forall k ensures Pending(q, k) == Count(acqs, ActiveOn(k)) {
      assert Pending(p, k) == Count(acqs, ActiveOn(k));
    }
  }

  /** A checkout, whatever the acquires were before and are afterwards. */
  lemma CheckoutKeepsLedger(cfg: Config, p: Pool, q: Pool, acqs: seq<Acq>, bs: seq<Acq>, e: nat, hits: nat, failed: nat)
    requires LedgerInv(cfg, p, acqs, failed) && ChecksOut(p, q, e, hits) && PendingOk(q, bs)
    requires Count(bs, IsReserving()) == Count(acqs, IsReserving())
    requires Count(bs, IsMissing()) == Count(acqs, IsMissing())
    requires Count(bs, IsResolved()) + 1 == Count(acqs, IsResolved()) + hits
    ensures LedgerInv(cfg, q, bs, failed)
  {
    TotalSet(p.table, e, p.table[e].(refCount := p.table[e].refCount + 1));
  }

  lemma FinishOkLedger(cfg: Config, p: Pool, acqs: seq<Acq>, a: nat, e: nat, x: Acq, failed: nat)
    requires LedgerInv(cfg, p, acqs, failed) && a < |acqs| && acqs[a].phase == Resolved(e) && e < |p.table|
    requires x.key == acqs[a].key && x.phase == Done(e, false)
    ensures LedgerInv(cfg, FinishOk(p, e, x.key), acqs[a := x], failed)
  {
    var q, bs := FinishOk(p, e, x.key), acqs[a := x];
    hide FinishOk, DecPending, ChecksOut, GateOk, TrafficOk, RefsOk, PendingOk;
    FinishForm(p, e, x.key);
    EndPending(p, q, acqs, a, x);
    CountUpdate(acqs, a, x, IsReserving());
    CountUpdate(acqs, a, x, IsResolved());
    CountUpdate(acqs, a, x, IsMissing());
    CheckoutKeepsLedger(cfg, p, q, acqs, bs, e, 0, failed);
  }

  lemma FinishFailedLedger(cfg: Config, p: Pool, acqs: seq<Acq>, a: nat, x: Acq, failed: nat)
    requires LedgerInv(cfg, p, acqs, failed) && a < |acqs| && acqs[a].phase.Rejected?
    requires x.key == acqs[a].key && x.phase.Failed?
    ensures LedgerInv(cfg, DecPending(p, x.key), acqs[a := x], failed)
  {
    EndPending(p, DecPending(p, x.key), acqs, a, x);
    CountUpdate(acqs, a, x, IsReserving());
    CountUpdate(acqs, a, x, IsResolved());
    CountUpdate(acqs, a, x, IsMissing());
  }

  lemma SlowCallLedger(cfg: Config, p: Pool, acqs: seq<Acq>, x: Acq, failed: nat)
    requires LedgerInv(cfg, p, acqs, failed) && x.phase.Queued?
    ensures LedgerInv(cfg, IncPending(p, x.key), acqs + [x], failed)
  {
    var q, bs := IncPending(p, x.key), acqs + [x];
    CountAppend(acqs, x, IsReserving());
    CountAppend(acqs, x, IsResolved());
    CountAppend(acqs, x, IsMissing());
    forall k ensures Pending(q, k) == Count(bs, ActiveOn(k)) {
      assert Pending(p, k) == Count(acqs, ActiveOn(k));
      CountAppend(acqs, x, ActiveOn(k));
    }
  }

  lemma FastCallLedger(cfg: Config, p: Pool, acqs: seq<Acq>, e: nat, x: Acq, failed: nat)
    requires LedgerInv(cfg, p, acqs, failed) && e < |p.table| && x.phase == Done(e, false)
    ensures LedgerInv(cfg, DecPending(Checkout(Hit(IncPending(p, x.key)), e), x.key), acqs + [x], failed)
  {
    var q, bs := DecPending(Checkout(Hit(IncPending(p, x.key)), e), x.key), acqs + [x];
    hide DecPending, IncPending, Checkout, Hit, ChecksOut, GateOk, TrafficOk, RefsOk, PendingOk;
    FastForm(p, e, x.key);
    CountAppend(acqs, x, IsReserving());
    CountAppend(acqs, x, IsResolved());
    CountAppend(acqs, x, IsMissing());
    FastPending(p, q, acqs, x);
    CheckoutKeepsLedger(cfg, p, q, acqs, bs, e, 1, failed);
  }

  /** A release drops one reference, or finds the entry disposed or unheld and drops none. */
  lemma ReleaseLedger(cfg: Config, p: Pool, acqs: seq<Acq>, a: nat, e: nat, now: int, x: Acq, failed: nat)
    requires LedgerInv(cfg, p, acqs, failed) && Wf(p) && a < |acqs| && acqs[a].phase == Done(e, false) && e < |p.table|
    requires x.key == acqs[a].key && x.phase == Done(e, true)
    ensures LedgerInv(cfg, ReleaseEntry(p, e, now), acqs[a := x], failed)
  {
    var q := ReleaseEntry(p, e, now);
    CountUpdate(acqs, a, x, IsReserving());
    CountUpdate(acqs, a, x, IsResolved());
    CountUpdate(acqs, a, x, IsMissing());
    if p.table[e].life.Disposed? || p.table[e].refCount == 0 {
      QuietPending(p, q, acqs, a, x);
    } else {
      ReleaseDropsOne(p, e, now);
      hide ReleaseEntry;
      QuietPending(p, q, acqs, a, x);
      var r := p.table[e].(refCount := q.table[e].refCount);
      TotalSet(p.table, e, r);
      TotalAgrees(p.table[e := r], q.table);
    }
  }

  // --- the shapes of a step ---

  /** A segment of the acquire that holds the mutex of its key. */
  lemma BaseSegment(cfg: Config, s: State, a: nat, q: Pool, x: Acq, failed: nat, owner: seq<nat>)
    requires BaseInv(cfg, s) && IsHead(s.mx, s.acqs, a)
    requires x.key == s.acqs[a].key && x.cell == s.acqs[a].cell && Active(x)
    requires Quiet(s.pool, q) && Lives(s.pool, q) && Tallies(cfg, s.pool, q, s.acqs[a], x, s.failed, failed)
    requires QueueOk(q.log, q.queue) && Disciplined(s.pool.log, q.log)
    requires WaiterInv(cfg, q, s.acqs[a := x], owner)
    requires x.phase.Creating? ==> BreakerOk(cfg, s.breakers, x)
    ensures BaseInv(cfg, s.(pool := q, acqs := s.acqs[a := x], failed := failed, owner := owner))
  {
    hide OnceOk, CountersOk, MutexInv, LedgerInv, QueueOk, WaiterInv, BreakerInv, AwaitInv, Quiet, Lives, Tallies,
         BreakerOk;
    LivesKeepsOnce(s.pool, q, s.drains, s.awaits);
    MoveKeepsMutex(s.mx, s.acqs, a, x);
    MoveKeepsLedger(cfg, s.pool, q, s.acqs, a, x, s.failed, failed);
    MoveKeepsBreakers(cfg, s.breakers, |s.closedBreaker|, s.acqs, a, x);
  }

  /** A segment that parks nobody. */
  lemma BaseMove(cfg: Config, s: State, a: nat, q: Pool, x: Acq, failed: nat)
    requires BaseInv(cfg, s) && IsHead(s.mx, s.acqs, a)
    requires x.key == s.acqs[a].key && x.cell == s.acqs[a].cell && Active(x) && !x.phase.Parked?
    requires Quiet(s.pool, q) && Lives(s.pool, q) && Tallies(cfg, s.pool, q, s.acqs[a], x, s.failed, failed)
    requires Settling(s.pool, q) && QueueOk(q.log, q.queue) && Disciplined(s.pool.log, q.log)
    requires s.acqs[a].phase.Parked? && s.acqs[a].phase.w < |s.pool.log| ==> !s.pool.log[s.acqs[a].phase.w].Waiting?
    requires x.phase.Creating? ==> BreakerOk(cfg, s.breakers, x)
    ensures BaseInv(cfg, s.(pool := q, acqs := s.acqs[a := x], failed := failed))
  {
    WaitersOfBase(cfg, s);
    hide BaseInv, Quiet, Lives, Tallies, Settling, QueueOk, Disciplined, WaiterInv, BreakerOk;
    SettlingKeepsWaiters(cfg, s.pool, q, s.acqs, a, x, s.owner);
    BaseSegment(cfg, s, a, q, x, failed, s.owner);
    assert s.(pool := q, acqs := s.acqs[a := x], failed := failed, owner := s.owner)
        == s.(pool := q, acqs := s.acqs[a := x], failed := failed);
  }

  /** A segment that leaves the pool as it is, but for hits. */
  lemma BaseStill(cfg: Config, s: State, a: nat, q: Pool, x: Acq)
    requires BaseInv(cfg, s) && IsHead(s.mx, s.acqs, a)
    requires q == s.pool.(counters := q.counters) && q.counters == s.pool.counters.(hits := q.counters.hits)
    requires x.key == s.acqs[a].key && x.cell == s.acqs[a].cell && Active(x) && !x.phase.Parked?
    requires Tallies(cfg, s.pool, q, s.acqs[a], x, s.failed, s.failed)
    requires s.acqs[a].phase.Parked? && s.acqs[a].phase.w < |s.pool.log| ==> !s.pool.log[s.acqs[a].phase.w].Waiting?
    requires x.phase.Creating? ==> BreakerOk(cfg, s.breakers, x)
    ensures BaseInv(cfg, s.(pool := q, acqs := s.acqs[a := x]))
  {
    WaitersOfBase(cfg, s);
    hide BaseInv, Tallies, QueueOk, WaiterInv, BreakerOk;
    QuietFields2(s.pool, q);
    LivesOn(s.pool, q);
    SameIsDisciplined(s.pool.log);
    BaseMove(cfg, s, a, q, x, s.failed);
    assert s.(pool := q, acqs := s.acqs[a := x], failed := s.failed) == s.(pool := q, acqs := s.acqs[a := x]);
  }

  lemma WaitersOfBase(cfg: Config, s: State)
    requires BaseInv(cfg, s)
    ensures WaiterInv(cfg, s.pool, s.acqs, s.owner) && QueueOk(s.pool.log, s.pool.queue)
    ensures MutexInv(s.mx, s.acqs) && PendingOk(s.pool, s.acqs)
  {
  }

  /** A step that moves no acquire. */
  lemma BasePasses(cfg: Config, s: State, q: Pool, drains: seq<DrainRun>, aw: Awaits)
    requires BaseInv(cfg, s) && Passes(s.pool, q) && AwaitInv(q.table, drains, aw)
    ensures BaseInv(cfg, s.(pool := q, drains := drains, awaits := aw))
  {
    hide OnceOk, CountersOk, MutexInv, LedgerInv, QueueOk, WaiterInv, BreakerInv, AwaitInv, Quiet, Lives, Settling;
    LivesKeepsOnce(s.pool, q, s.drains, s.awaits);
    PassesKeepsLedger(cfg, s.pool, q, s.acqs, s.failed);
    SettlingAlone(cfg, s.pool, q, s.acqs, s.owner);
  }

  /** A step of the pool alone. */
  lemma BasePassesBy(cfg: Config, s: State, q: Pool)
    requires BaseInv(cfg, s) && Passes(s.pool, q)
    ensures BaseInv(cfg, s.(pool := q))
  {
    hide OnceOk, CountersOk, MutexInv, LedgerInv, QueueOk, WaiterInv, BreakerInv, AwaitInv, Quiet, Lives, Settling;
    LivesKeepsOnce(s.pool, q, s.drains, s.awaits);
    hide BaseInv, Passes;
    BasePasses(cfg, s, q, s.drains, s.awaits);
    assert s.(pool := q, drains := s.drains, awaits := s.awaits) == s.(pool := q);
  }

  // --- the gate ---

  lemma SlotLives(p: Pool, cfg: Config)
    requires Wf(p)
    ensures Lives(p, SlotStep(p, cfg).0)
  {
    var v := FirstFree(p, p.idle);
    if cfg.max <= 0 || p.closed || |p.entries| + p.reserved < cfg.max {
    } else if v.Some? {
      hide Lives, Displace, Wf;
      DisplaceLives(p, v.value);
    } else {
      hide FirstFree, Wf;
    }
  }

  lemma DisplaceLives(p: Pool, v: nat)
    requires v < |p.table|
    ensures Lives(p, Displace(p, v))
  {
    assert Displace(p, v).table == p.table[v := DisposeRec(p.table[v])];
  }

  lemma SlotQueues(p: Pool, cfg: Config)
    requires Wf(p) && QueueOk(p.log, p.queue)
    ensures var q := SlotStep(p, cfg).0; QueueOk(q.log, q.queue) && Disciplined(p.log, q.log)
  {
    SlotQueue(p, cfg);
    QueuePark(p.log, p.queue);
    SameIsDisciplined(p.log);
    ParkIsDisciplined(p.log);
    hide SlotStep, QueueOk, Disciplined;
  }

  lemma SlotQueue(p: Pool, cfg: Config)
    requires Wf(p)
    ensures var q := SlotStep(p, cfg).0;
      (q.log == p.log && q.queue == p.queue) || (q.log == p.log + [Waiting] && q.queue == p.queue + [|p.log|])
  {
  }

  /** What a turn at the gate comes to. */
  function GateOwner(s: State, a: nat, r: SlotResult): seq<nat> { if r.ParkedAs? then s.owner + [a] else s.owner }

  lemma GateIs(cfg: Config, s: State, a: nat, z: Pool, x: Acq)
    requires At(s, a) && AtGate(s.pool, z, s.acqs[a]) && Wf(z)
    requires x == s.acqs[a].(phase := AfterSlot(SlotStep(z, cfg)).1)
    ensures MoveGate(s, a, AfterSlot(SlotStep(z, cfg)))
         == s.(pool := SlotStep(z, cfg).0, acqs := s.acqs[a := x], failed := s.failed + One(x.phase.Rejected?),
               owner := GateOwner(s, a, SlotStep(z, cfg).1))
  {
    hide SlotStep, Wf, Quiet;
    SlotGated(z, cfg);
  }

  lemma GateWaiters(cfg: Config, s: State, a: nat, z: Pool, x: Acq)
    requires WaiterInv(cfg, s.pool, s.acqs, s.owner) && At(s, a) && AtGate(s.pool, z, s.acqs[a]) && Wf(z)
    requires s.acqs[a].phase.Parked? && s.acqs[a].phase.w < |s.pool.log| ==> !s.pool.log[s.acqs[a].phase.w].Waiting?
    requires x == s.acqs[a].(phase := AfterSlot(SlotStep(z, cfg)).1)
    ensures var (q, r) := SlotStep(z, cfg); WaiterInv(cfg, q, s.acqs[a := x], GateOwner(s, a, r))
  {
    hide SlotStep, Wf, WaiterInv, Aging, Quiet;
    var (q, r) := SlotStep(z, cfg);
    SlotAges(z, cfg);
    SlotGated(z, cfg);
    if r.ParkedAs? {
      ParkingKeepsWaiters(cfg, s.pool, q, s.acqs, a, x, s.owner);
    } else {
      SettlingKeepsWaiters(cfg, s.pool, q, s.acqs, a, x, s.owner);
    }
  }

  lemma GateLives(cfg: Config, p: Pool, z: Pool, y: Acq)
    requires AtGate(p, z, y) && Wf(z) && QueueOk(p.log, p.queue)
    ensures var q := SlotStep(z, cfg).0; Lives(p, q) && QueueOk(q.log, q.queue) && Disciplined(p.log, q.log)
  {
    hide SlotStep, Wf, QueueOk, Lives, Disciplined;
    LivesOn(p, z);
    SlotLives(z, cfg);
    LivesTwice(p, z, SlotStep(z, cfg).0);
    SlotQueues(z, cfg);
  }

  /** One turn at the gate. */
  lemma BaseGate(cfg: Config, s: State, a: nat, z: Pool)
    requires BaseInv(cfg, s) && IsHead(s.mx, s.acqs, a) && AtGate(s.pool, z, s.acqs[a]) && Wf(z)
    requires s.acqs[a].phase.Parked? && s.acqs[a].phase.w < |s.pool.log| ==> !s.pool.log[s.acqs[a].phase.w].Waiting?
    ensures BaseInv(cfg, MoveGate(s, a, AfterSlot(SlotStep(z, cfg))))
  {
    WaitersOfBase(cfg, s);
    hide BaseInv, SlotStep, Wf, Quiet, Lives, Tallies, QueueOk, Disciplined, WaiterInv, Aging, AtGate, GateOwner,
         MutexInv,
         PendingOk;
    var x := s.acqs[a].(phase := AfterSlot(SlotStep(z, cfg)).1);
    GateTallies(cfg, s.pool, z, s.acqs[a], x, s.failed);
    GateLives(cfg, s.pool, z, s.acqs[a]);
    GateWaiters(cfg, s, a, z, x);
    GateIs(cfg, s, a, z, x);
    BaseSegment(cfg, s, a, SlotStep(z, cfg).0, x, s.failed + One(x.phase.Rejected?),
                GateOwner(s, a, SlotStep(z, cfg).1));
  }

  // --- the steps of an acquire ---

  /** The acquire of a segment is the oldest of its cell. */
  lemma BaseHead(cfg: Config, s: State, a: nat)
    requires BaseInv(cfg, s) && At(s, a) && Active(s.acqs[a])
    requires !s.acqs[a].phase.Queued? || Enabled(s, Begin(a))
    ensures IsHead(s.mx, s.acqs, a)
  {
    hide LedgerInv, QueueOk, WaiterInv, BreakerInv, AwaitInv, Wf, CellsWf;
    if !s.acqs[a].phase.Queued? {
      RunnerIsHead(s.mx, s.acqs, a);
    }
  }

  lemma BaseMiss(cfg: Config, s: State, a: nat)
    requires BaseInv(cfg, s) && Ready(s) && IsHead(s.mx, s.acqs, a)
    requires s.acqs[a].phase.Queued? || s.acqs[a].phase.Replacing?
    ensures BaseInv(cfg, MoveGate(s, a, ObtainMiss(s.pool, cfg, s.acqs[a].key)))
  {
    hide BaseInv, SlotStep, CellsWf;
    var p, k := s.pool, s.acqs[a].key;
    if k in p.orphans && !p.table[p.orphans[k]].life.Disposed? {
      BaseResurrect(cfg, s, a);
    } else if p.closed {
      BaseStill(cfg, s, a, p, s.acqs[a].(phase := Rejected(PoolClosed)));
    } else {
      var z := p.(counters := p.counters.(misses := p.counters.misses + 1));
      WfCounters(p, z);
      BaseGate(cfg, s, a, z);
      SlotGated(z, cfg);
    }
  }

  lemma BaseResurrect(cfg: Config, s: State, a: nat)
    requires BaseInv(cfg, s) && IsHead(s.mx, s.acqs, a) && s.acqs[a].key in s.pool.orphans
    requires s.acqs[a].phase.Queued? || s.acqs[a].phase.Replacing?
    ensures BaseInv(cfg, Move(s, a, (Resurrected(s.pool, s.acqs[a].key), Resolved(s.pool.orphans[s.acqs[a].key]))))
  {
    WaitersOfBase(cfg, s);
    var p, k := s.pool, s.acqs[a].key;
    var q, x := Resurrected(p, k), s.acqs[a].(phase := Resolved(s.pool.orphans[k]));
    LivesOn(p, q);
    SameIsDisciplined(p.log);
    hide BaseInv, Lives, Disciplined, QueueOk, WaiterInv;
    BaseMove(cfg, s, a, q, x, s.failed);
  }

  lemma BaseBegin(cfg: Config, s: State, a: nat)
    requires BaseInv(cfg, s) && Enabled(s, Begin(a))
    ensures BaseInv(cfg, Apply(cfg, s, Begin(a)))
  {
    BaseHead(cfg, s, a);
    hide BaseInv, ObtainMiss, Wf, CellsWf;
    var p, k := s.pool, s.acqs[a].key;
    if k in p.entries && !p.table[p.entries[k]].life.Disposed? {
      var e := p.entries[k];
      if p.table[e].refCount == 0 && cfg.validates {
        BaseStill(cfg, s, a, p, s.acqs[a].(phase := Validating(e)));
      } else {
        BaseStill(cfg, s, a, Hit(p), s.acqs[a].(phase := Resolved(e)));
      }
    } else {
      BaseMiss(cfg, s, a);
    }
  }

  lemma BaseReplaced(cfg: Config, s: State, a: nat)
    requires BaseInv(cfg, s) && Enabled(s, Replaced(a))
    ensures BaseInv(cfg, Apply(cfg, s, Replaced(a)))
  {
    BaseHead(cfg, s, a);
    hide BaseInv, ObtainMiss, Wf, CellsWf;
    BaseMiss(cfg, s, a);
  }

  lemma BaseResumed(cfg: Config, s: State, a: nat)
    requires BaseInv(cfg, s) && Enabled(s, Resumed(a))
    ensures BaseInv(cfg, Apply(cfg, s, Resumed(a)))
  {
    BaseHead(cfg, s, a);
    WaitersOfBase(cfg, s);
    var p, x := s.pool, s.acqs[a];
    if p.log[x.phase.w].WokenUp? {
      hide BaseInv, SlotStep, Wf, CellsWf;
      BaseGate(cfg, s, a, p);
    } else {
      hide BaseInv, QueueOk, WaiterInv, Wf, CellsWf;
      var y := x.(phase := Resume(p, cfg, x.phase.w).1);
      LivesOn(p, p);
      SameIsDisciplined(p.log);
      BaseMove(cfg, s, a, p, y, s.failed + 1);
    }
  }

  lemma BaseValidated(cfg: Config, s: State, a: nat, ok: bool)
    requires BaseInv(cfg, s) && Enabled(s, ValidateDone(a, ok))
    ensures BaseInv(cfg, Apply(cfg, s, ValidateDone(a, ok)))
  {
    hide BaseInv, Wf, CellsWf;
    if ok {
      BaseHead(cfg, s, a);
      BaseStill(cfg, s, a, Hit(s.pool), s.acqs[a].(phase := Resolved(s.acqs[a].phase.e)));
    } else {
      BaseInvalid(cfg, s, a);
    }
  }

  lemma BaseInvalid(cfg: Config, s: State, a: nat)
    requires BaseInv(cfg, s) && Enabled(s, ValidateDone(a, false))
    ensures BaseInv(cfg, Apply(cfg, s, ValidateDone(a, false)))
  {
    BaseHead(cfg, s, a);
    WaitersOfBase(cfg, s);
    hide BaseInv, Wf, CellsWf, QueueOk, WaiterInv, Quiet, Settling, Aging, Lives, Disciplined;
    var e := s.acqs[a].phase.e;
    InvalidSettles(s.pool, e);
    InvalidLives(s.pool, e);
    SameIsDisciplined(s.pool.log);
    hide RemoveEntry, Dispose;
    BaseMove(cfg, s, a, Dispose(RemoveEntry(s.pool, e), e), s.acqs[a].(phase := Replacing(e)), s.failed);
  }

  lemma InvalidLives(p: Pool, e: nat)
    requires e < |p.table|
    ensures |RemoveEntry(p, e).table| == |p.table| && Lives(p, Dispose(RemoveEntry(p, e), e))
    ensures Dispose(RemoveEntry(p, e), e).log == p.log && Dispose(RemoveEntry(p, e), e).queue == p.queue
  {
    assert Dispose(RemoveEntry(p, e), e).table == p.table[e := DisposeRec(p.table[e])];
  }

  lemma BaseCreateStart(cfg: Config, s: State, a: nat)
    requires BaseInv(cfg, s) && Enabled(s, CreateStart(a))
    ensures BaseInv(cfg, Apply(cfg, s, CreateStart(a)))
  {
    BaseHead(cfg, s, a);
    hide Wf, CellsWf;
    var k := s.acqs[a].key;
    var b := if !cfg.perKeyBreakers then 0 else if k in s.breakers then s.breakers[k] else |s.closedBreaker|;
    var x := s.acqs[a].(phase := Creating(b));
    var u := s.(breakers := if cfg.perKeyBreakers then s.breakers[k := b] else s.breakers,
                closedBreaker := s.closedBreaker + if b == |s.closedBreaker| then [true] else []);
    BaseFindBreaker(cfg, s, u, k, b);
    hide BaseInv;
    BaseStill(cfg, u, a, u.pool, x);
    assert k in s.breakers ==> s.breakers[k := s.breakers[k]] == s.breakers;
    assert s.closedBreaker + [] == s.closedBreaker;
    assert Apply(cfg, s, CreateStart(a)) == u.(pool := u.pool, acqs := u.acqs[a := x]);
  }

  lemma BaseFindBreaker(cfg: Config, s: State, u: State, k: Key, b: nat)
    requires BaseInv(cfg, s)
    requires b == if !cfg.perKeyBreakers then 0 else if k in s.breakers then s.breakers[k] else |s.closedBreaker|
    requires u == s.(breakers := if cfg.perKeyBreakers then s.breakers[k := b] else s.breakers,
                     closedBreaker := s.closedBreaker + if b == |s.closedBreaker| then [true] else [])
    ensures BaseInv(cfg, u) && b < |u.closedBreaker| && |s.closedBreaker| > 0
    ensures k in s.breakers ==> b < |s.closedBreaker| || !cfg.perKeyBreakers
  {
    hide OnceOk, CountersOk, MutexInv, LedgerInv, QueueOk, WaiterInv, AwaitInv;
    assert forall a :: 0 <= a < |s.acqs| && s.acqs[a].phase.Creating? ==> BreakerOk(cfg, s.breakers, s.acqs[a]);
  }

  /** A creation that leaves no entry. */
  lemma BaseGiveBack(cfg: Config, s: State, a: nat, ph: Phase)
    requires BaseInv(cfg, s) && Wf(s.pool) && IsHead(s.mx, s.acqs, a) && s.acqs[a].phase.Creating?
    requires ph.LateDisposing? || ph.Rejected?
    ensures BaseInv(cfg, Move(s, a, (ReleaseReservation(s.pool), ph)).(failed := s.failed + 1))
  {
    WaitersOfBase(cfg, s);
    var p, z := s.pool, s.pool.(reserved := s.pool.reserved - 1);
    WakePasses(z);
    WakeFrame(z);
    hide BaseInv, WakeWaiter, QueueOk, WaiterInv, Lives, Disciplined, Wf;
    LivesOn(p, z);
    LivesTwice(p, z, ReleaseReservation(p));
    BaseMove(cfg, s, a, ReleaseReservation(p), s.acqs[a].(phase := ph), s.failed + 1);
  }

  lemma BaseCreateDone(cfg: Config, s: State, a: nat)
    requires BaseInv(cfg, s) && Enabled(s, CreateDone(a))
    ensures BaseInv(cfg, Apply(cfg, s, CreateDone(a)))
  {
    BaseHead(cfg, s, a);
    WaitersOfBase(cfg, s);
    hide BaseInv, ReleaseReservation, InsertCreated, QueueOk, WaiterInv, Wf, CellsWf;
    ReadyIsWf(s);
    var p, k := s.pool, s.acqs[a].key;
    if p.closed {
      BaseGiveBack(cfg, s, a, LateDisposing);
    } else {
      BaseInsert(cfg, s, a);
    }
  }

  lemma BaseInsert(cfg: Config, s: State, a: nat)
    requires BaseInv(cfg, s) && Wf(s.pool) && IsHead(s.mx, s.acqs, a) && s.acqs[a].phase.Creating? && !s.pool.closed
    ensures var r := (InsertCreated(s.pool, s.acqs[a].key, s.now), Resolved(|s.pool.table|));
      BaseInv(cfg, Move(s, a, r))
  {
    WaitersOfBase(cfg, s);
    hide BaseInv, InsertCreated, QueueOk, WaiterInv, Quiet, Settling, Aging, Lives, Disciplined, Wf;
    var p, k := s.pool, s.acqs[a].key;
    InsertForm(p, k, s.now);
    InsertEffects(p, k, s.now);
    InsertLives(p, k, s.now);
    SameIsDisciplined(p.log);
    BaseMove(cfg, s, a, InsertCreated(p, k, s.now), s.acqs[a].(phase := Resolved(|p.table|)), s.failed);
  }

  lemma InsertLives(p: Pool, k: Key, now: int)
    requires Wf(p)
    ensures Lives(p, InsertCreated(p, k, now))
  {
    hide InsertCreated;
    InsertForm(p, k, now);
  }

  lemma ReadyIsWf(s: State)
    requires Ready(s)
    ensures Wf(s.pool) && CellsWf(s.mx)
  {
  }

  // --- calls and ends ---

  lemma BaseSlowCall(cfg: Config, s: State, k: Key)
    requires BaseInv(cfg, s) && Ready(s) && AcquirePrefix(s.pool, k).1.None?
    ensures BaseInv(cfg, CallStep(s, k))
  {
    ReadyIsWf(s);
    var x := Acq(k, Enter(s.mx, k, |s.acqs|, s.now).1, Queued);
    IncPendingIs(s.pool, k);
    hide OnceOk, CountersOk, MutexInv, LedgerInv, QueueOk, WaiterInv, BreakerInv, AwaitInv, Enter, IncPending, Wf,
         CellsWf;
    EnterKeeps(s.mx, s.acqs, k, s.now);
    SlowCallLedger(cfg, s.pool, s.acqs, x, s.failed);
    SettledWaiters(cfg, s.pool, IncPending(s.pool, k), s.acqs, x, s.owner);
    AppendBreakers(cfg, s.breakers, |s.closedBreaker|, s.acqs, x);
  }

  lemma IncPendingIs(p: Pool, k: Key)
    ensures IncPending(p, k) == p.(pending := IncPending(p, k).pending)
  {
  }

  lemma BaseFastCall(cfg: Config, s: State, k: Key)
    requires BaseInv(cfg, s) && Ready(s) && AcquirePrefix(s.pool, k).1.Some?
    ensures BaseInv(cfg, CallStep(s, k))
  {
    var p, e := s.pool, s.pool.entries[k];
    var q := DecPending(Checkout(Hit(IncPending(p, k)), e), k);
    var x := Acq(k, 0, Done(e, false));
    FastCheckedOut(p, k, e);
    FastForm(p, e, k);
    CheckedOutLives(p, q, e);
    hide DecPending, Checkout, IncPending, Hit;
    hide OnceOk, CountersOk, MutexInv, LedgerInv, QueueOk, WaiterInv, BreakerInv, AwaitInv, Lives, Wf, CellsWf;
    LivesKeepsOnce(p, q, s.drains, s.awaits);
    AppendKeepsMutex(s.mx, s.acqs, x);
    FastCallLedger(cfg, p, s.acqs, e, x, s.failed);
    SettledWaiters(cfg, p, q, s.acqs, x, s.owner);
    AppendBreakers(cfg, s.breakers, |s.closedBreaker|, s.acqs, x);
  }

  lemma CheckedOutLives(p: Pool, q: Pool, e: nat)
    requires CheckedOut(p, q, e)
    requires q.counters.created == p.counters.created && q.counters.disposed == p.counters.disposed
    ensures Lives(p, q)
  {
  }

  lemma BaseCall(cfg: Config, s: State, k: Key)
    requires BaseInv(cfg, s) && Enabled(s, Call(k))
    ensures BaseInv(cfg, Apply(cfg, s, Call(k)))
  {
    hide BaseInv, CallStep, AcquirePrefix, Wf, CellsWf;
    if AcquirePrefix(s.pool, k).1.Some? {
      BaseFastCall(cfg, s, k);
    } else {
      BaseSlowCall(cfg, s, k);
    }
  }

  /** The end of an acquire: what it leaves is as good as what it found. */
  lemma BaseEnd(cfg: Config, s: State, a: nat, q: Pool, x: Acq)
    requires BaseInv(cfg, s) && IsHead(s.mx, s.acqs, a) && !s.acqs[a].phase.Queued? && !s.acqs[a].phase.Parked?
    requires x.key == s.acqs[a].key && x.cell == s.acqs[a].cell && !Active(x)
    requires LedgerInv(cfg, q, s.acqs[a := x], s.failed) && Lives(s.pool, q)
    requires q.log == s.pool.log && q.queue == s.pool.queue
    ensures BaseInv(cfg, s.(pool := q, mx := Settled(s.mx, x.cell, s.now), acqs := s.acqs[a := x]))
  {
    assert Settling(s.pool, q);
    hide OnceOk, CountersOk, MutexInv, LedgerInv, QueueOk, WaiterInv, BreakerInv, AwaitInv, Lives, Settling, Settled;
    LivesKeepsOnce(s.pool, q, s.drains, s.awaits);
    SettledKeeps(s.mx, s.acqs, a, x, s.now);
    SettlingKeepsWaiters(cfg, s.pool, q, s.acqs, a, x, s.owner);
    MoveKeepsBreakers(cfg, s.breakers, |s.closedBreaker|, s.acqs, a, x);
  }

  lemma BaseFinish(cfg: Config, s: State, a: nat)
    requires BaseInv(cfg, s) && Enabled(s, Finish(a))
    ensures BaseInv(cfg, Apply(cfg, s, Finish(a)))
  {
    BaseHead(cfg, s, a);
    LedgerOfBase(cfg, s);
    hide BaseInv, LedgerInv, FinishOk, DecPending, Settled, Wf, CellsWf, CheckedOut, Lives;
    var p, k := s.pool, s.acqs[a].key;
    if s.acqs[a].phase.Resolved? {
      var e := s.acqs[a].phase.e;
      var x := s.acqs[a].(phase := Done(e, false));
      FinishOkLedger(cfg, p, s.acqs, a, e, x, s.failed);
      FinishLives(p, k, e);
      BaseEnd(cfg, s, a, FinishOk(p, e, k), x);
    } else {
      var x := s.acqs[a].(phase := Failed(s.acqs[a].phase.error));
      FinishFailedLedger(cfg, p, s.acqs, a, x, s.failed);
      DecPendingLives(p, k);
      BaseEnd(cfg, s, a, DecPending(p, k), x);
    }
  }

  lemma LedgerOfBase(cfg: Config, s: State)
    requires BaseInv(cfg, s)
    ensures LedgerInv(cfg, s.pool, s.acqs, s.failed)
  {
  }

  lemma FinishLives(p: Pool, k: Key, e: nat)
    requires e < |p.table|
    ensures Lives(p, FinishOk(p, e, k)) && FinishOk(p, e, k).log == p.log && FinishOk(p, e, k).queue == p.queue
  {
    FinishCheckedOut(p, k, e);
    FinishForm(p, e, k);
    hide FinishOk;
    CheckedOutLives(p, FinishOk(p, e, k), e);
  }

  lemma DecPendingLives(p: Pool, k: Key)
    ensures Lives(p, DecPending(p, k)) && DecPending(p, k).log == p.log && DecPending(p, k).queue == p.queue
  {
    LivesOn(p, DecPending(p, k));
  }

  // --- a release ---

  lemma ReleaseBase(p: Pool, e: nat, now: int)
    requires Wf(p) && QueueOk(p.log, p.queue) && e < |p.table|
    ensures var q := ReleaseEntry(p, e, now);
      Lives(p, q) && Settling(p, q) && QueueOk(q.log, q.queue) && Disciplined(p.log, q.log)
  {
    SameIsDisciplined(p.log);
    LivesOn(p, p);
    if !p.table[e].life.Disposed? && p.table[e].refCount > 0 {
      DropBase(p, e, now);
      if p.table[e].refCount == 1 {
        var z := DropLast(p, e, now);
        hide QueueOk, Lives, Disciplined, Settling, DropLast, DropShared, IdleAppend, WakeWaiter, RemoveEntry, Dispose;
        if p.table[e].condemned || IsOrphan(p, e) {
          InvalidLives(z, e);
          InvalidSettles(z, e);
          LivesTwice(p, z, Dispose(RemoveEntry(z, e), e));
          SettlesTwice(p, z, Dispose(RemoveEntry(z, e), e));
        } else {
          var y := IdleAppend(z, e);
          AppendBase(z, e);
          WakePasses(y);
          LivesTwice(p, z, y);
          LivesTwice(p, y, WakeWaiter(y));
          SettlesTwice(p, z, y);
          SettlesTwice(p, y, WakeWaiter(y));
        }
      }
    }
  }

  lemma SettlesTwice(p: Pool, q: Pool, r: Pool)
    requires Settling(p, q) && Settling(q, r)
    ensures Settling(p, r)
  {
  }

  lemma DropBase(p: Pool, e: nat, now: int)
    requires e < |p.table| && p.table[e].refCount > 0
    ensures Lives(p, DropLast(p, e, now)) && Settling(p, DropLast(p, e, now))
    ensures |DropLast(p, e, now).table| == |p.table|
    ensures DropLast(p, e, now).log == p.log && DropLast(p, e, now).queue == p.queue
    ensures Lives(p, DropShared(p, e)) && Settling(p, DropShared(p, e))
    ensures DropShared(p, e).log == p.log && DropShared(p, e).queue == p.queue
  {
  }

  lemma AppendBase(p: Pool, e: nat)
    requires e < |p.table|
    ensures var q := IdleAppend(p, e);
      Lives(p, q) && Settling(p, q) && |q.table| == |p.table| && q.log == p.log && q.queue == p.queue
  {
  }

  lemma BaseRelease(cfg: Config, s: State, a: nat)
    requires BaseInv(cfg, s) && Enabled(s, Release(a))
    ensures BaseInv(cfg, Apply(cfg, s, Release(a)))
  {
    var e := s.acqs[a].phase.e;
    var x, q := s.acqs[a].(phase := Done(e, true)), ReleaseEntry(s.pool, e, s.now);
    hide OnceOk, CountersOk, MutexInv, LedgerInv, QueueOk, WaiterInv, BreakerInv, AwaitInv, Lives, Settling,
         Disciplined,
         ReleaseEntry, Wf, CellsWf;
    ReadyIsWf(s);
    ReleaseBase(s.pool, e, s.now);
    LivesKeepsOnce(s.pool, q, s.drains, s.awaits);
    ReleaseLedger(cfg, s.pool, s.acqs, a, e, s.now, x, s.failed);
    MoveKeepsMutex(s.mx, s.acqs, a, x);
    SettlingKeepsWaiters(cfg, s.pool, q, s.acqs, a, x, s.owner);
    MoveKeepsBreakers(cfg, s.breakers, |s.closedBreaker|, s.acqs, a, x);
    OrderAfter(s.pool.log, q.log);
  }

  lemma OrderAfter(before: seq<WaiterState>, after: seq<WaiterState>)
    requires Disciplined(before, after) && InParkOrder(before)
    ensures InParkOrder(after)
  {
  }

  // --- the steps of no acquire ---

  lemma BaseDisposeDone(cfg: Config, s: State, e: nat)
    requires BaseInv(cfg, s) && Enabled(s, DisposeDone(e))
    ensures BaseInv(cfg, Apply(cfg, s, DisposeDone(e)))
  {
    var p, q := s.pool, FinishDispose(s.pool, e);
    DisposedEffects(s, e);
    DisposedOnce(p, e);
    hide OnceOk, CountersOk, FinishDispose, MutexInv, QueueOk, WaiterInv, BreakerInv, AwaitInv, Settling, LedgerInv, Wf,
         CellsWf, EndDisposal, Quiet, Droppable;
    EndKeepsAwaits(p.table, q.table, s.drains, s.awaits, e);
    QuietKeepsLedger(cfg, p, q, s.acqs, s.failed);
    SettlingAlone(cfg, p, q, s.acqs, s.owner);
    BaseDrop(cfg, DisposeDoneStep(s, e), p.table[e].key);
  }

  lemma DisposedOnce(p: Pool, e: nat)
    requires OnceOk(p.table) && CountersOk(p.table, p.counters) && e < |p.table| && p.table[e].life.Disposing?
    ensures var q := FinishDispose(p, e); OnceOk(q.table) && CountersOk(q.table, q.counters)
    ensures var q := FinishDispose(p, e);
      |q.table| == |p.table| && q.table[e].life.Disposed? && q.log == p.log && q.queue == p.queue
    ensures forall x :: 0 <= x < |p.table| && x != e ==> FinishDispose(p, e).table[x] == p.table[x]
  {
    CountUpdate(p.table, e, p.table[e].(life := Disposed), HasLife(Disposed));
  }

  lemma QuietKeepsLedger(cfg: Config, p: Pool, q: Pool, acqs: seq<Acq>, failed: nat)
    requires LedgerInv(cfg, p, acqs, failed) && Quiet(p, q) && |q.table| == |p.table| && q.reserved == p.reserved
    requires q.counters.hits == p.counters.hits && q.counters.misses == p.counters.misses
    requires q.counters.created == p.counters.created
    ensures LedgerInv(cfg, q, acqs, failed)
  {
    TotalAgrees(p.table, q.table);
    forall k ensures Pending(q, k) == Count(acqs, ActiveOn(k)) {
      assert Pending(p, k) == Count(acqs, ActiveOn(k));
    }
  }

  /** A breaker in use is never dropped. */
  lemma BaseDrop(cfg: Config, s: State, k: Key)
    requires BaseInv(cfg, s)
    ensures BaseInv(cfg, DropBreaker(s, cfg, k))
  {
    WaitersOfBase(cfg, s);
    hide OnceOk, CountersOk, MutexInv, LedgerInv, QueueOk, WaiterInv, AwaitInv, PendingOk;
    forall a | 0 <= a < |s.acqs| && s.acqs[a].phase.Creating?
      ensures BreakerOk(cfg, DropBreaker(s, cfg, k).breakers, s.acqs[a])
    {
      ActiveIsPending(s.pool, s.acqs, a);
      assert BreakerOk(cfg, s.breakers, s.acqs[a]);
    }
  }

  lemma BaseDropAll(cfg: Config, s: State)
    requires BaseInv(cfg, s)
    ensures BaseInv(cfg, DropAll(s, cfg))
  {
    WaitersOfBase(cfg, s);
    hide OnceOk, CountersOk, MutexInv, LedgerInv, QueueOk, WaiterInv, AwaitInv, PendingOk;
    forall a | 0 <= a < |s.acqs| && s.acqs[a].phase.Creating?
      ensures BreakerOk(cfg, DropAll(s, cfg).breakers, s.acqs[a])
    {
      ActiveIsPending(s.pool, s.acqs, a);
      assert BreakerOk(cfg, s.breakers, s.acqs[a]);
    }
  }

  lemma BaseGc(cfg: Config, s: State)
    requires BaseInv(cfg, s) && Enabled(s, GcTimer)
    ensures BaseInv(cfg, Apply(cfg, s, GcTimer))
  {
    BaseCells(cfg, s);
    hide BaseInv, GcCells;
    GcFindsNothing(s.mx, cfg.mutexGcMs, s.now);
    BaseDropAll(cfg, s);
  }

  lemma BaseCells(cfg: Config, s: State)
    requires BaseInv(cfg, s)
    ensures CurrentOk(s.mx) && CellsWf(s.mx)
  {
  }

  lemma BaseDrainStart(cfg: Config, s: State)
    requires BaseInv(cfg, s) && Enabled(s, DrainStart)
    ensures BaseInv(cfg, Apply(cfg, s, DrainStart))
  {
    hide BaseInv, QueueOk, WaiterInv, MutexInv, PendingOk, AwaitInv, Wf, CellsWf, Drain, Waits, Passes, SameDisposed,
         StartWaits;
    WaitersOfBase(cfg, s);
    AwaitsOfBase(cfg, s);
    ReadyIsWf(s);
    var ws := Waits(s.pool, |s.drains|);
    DrainPasses(s.pool);
    StartKeepsAwaits(s.pool, Drain(s.pool).table, s.drains, s.awaits);
    BasePasses(cfg, s, Drain(s.pool), s.drains + [DrainRun(ws, false)], StartWaits(s.awaits, ws));
  }

  lemma AwaitsOfBase(cfg: Config, s: State)
    requires BaseInv(cfg, s)
    ensures AwaitInv(s.pool.table, s.drains, s.awaits)
  {
  }

  lemma BaseDrainDone(cfg: Config, s: State, d: nat)
    requires BaseInv(cfg, s) && Enabled(s, DrainDone(d))
    ensures BaseInv(cfg, Apply(cfg, s, DrainDone(d)))
  {
    hide OnceOk, CountersOk, MutexInv, LedgerInv, QueueOk, WaiterInv, BreakerInv, BoardOk, WaitsOk;
    var drains := s.drains[d := s.drains[d].(done := true)];
    forall c | 0 <= c < |drains| ensures DrainOk(s.pool.table, s.awaits, drains[c]) {
      assert DrainOk(s.pool.table, s.awaits, s.drains[c]);
    }
  }

  lemma BaseStart(cfg: Config, s: State)
    requires BaseInv(cfg, s) && Enabled(s, Start)
    ensures BaseInv(cfg, Apply(cfg, s, Start))
  {
    WaitersOfBase(cfg, s);
    hide BaseInv, Passes;
    var q := s.pool.(closed := false);
    PassesTable(s.pool, q);
    BasePassesBy(cfg, s, q);
    BaseOther(cfg, s.(pool := q), s.now, |s.drains|, s.closedBreaker);
  }

  /** What the invariant does not mention may change freely. */
  lemma BaseOther(cfg: Config, s: State, now: int, openedAt: nat, closedBreaker: seq<bool>)
    requires BaseInv(cfg, s) && |closedBreaker| == |s.closedBreaker|
    ensures BaseInv(cfg, s.(now := now, openedAt := openedAt, closedBreaker := closedBreaker))
  {
    hide OnceOk, CountersOk, MutexInv, LedgerInv, QueueOk, WaiterInv, BreakerInv, AwaitInv, InParkOrder;
  }

  // --- every step, every run ---

  lemma BaseStepKeeps(cfg: Config, s: State, step: Step)
    requires BaseInv(cfg, s) && Enabled(s, step)
    ensures BaseInv(cfg, Apply(cfg, s, step))
  {
    hide BaseInv, Enabled, Apply;
    match step {
      case Call(k) => BaseCall(cfg, s, k);
      case Begin(a) => BaseBegin(cfg, s, a);
      case ValidateDone(a, ok) => BaseValidated(cfg, s, a, ok);
      case Replaced(a) => BaseReplaced(cfg, s, a);
      case Resumed(a) => BaseResumed(cfg, s, a);
      case CreateStart(a) => BaseCreateStart(cfg, s, a);
      case CreateDone(a) => BaseCreateDone(cfg, s, a);
      case Finish(a) => BaseFinish(cfg, s, a);
      case Release(a) => BaseRelease(cfg, s, a);
      case ReleaseKey(k, a) =>
        ReleaseKeyIsRelease(cfg, s, k, a);
        BaseRelease(cfg, s, a);
      case DisposeDone(e) => BaseDisposeDone(cfg, s, e);
      case DrainStart => BaseDrainStart(cfg, s);
      case DrainDone(d) => BaseDrainDone(cfg, s, d);
      case GcTimer => BaseGc(cfg, s);
      case Start => BaseStart(cfg, s);
      case CreateFail(a) => BaseCreateFail(cfg, s, a);
      case _ =>
        if step.ValidateThrow? || step.LateDone? {
          BaseErrors(cfg, s, step);
        } else {
          BaseSmallStep(cfg, s, step);
        }
    }
  }

  /** The steps of an acquire that end in an error. */
  lemma BaseErrors(cfg: Config, s: State, step: Step)
    requires BaseInv(cfg, s) && Enabled(s, step) && (step.ValidateThrow? || step.LateDone?)
    ensures BaseInv(cfg, Apply(cfg, s, step))
  {
    BaseHead(cfg, s, step.a);
    hide BaseInv, Wf, CellsWf;
    var error := if step.LateDone? then PoolClosed else ValidateThrew;
    BaseStill(cfg, s, step.a, s.pool, s.acqs[step.a].(phase := Rejected(error)));
  }

  lemma BaseCreateFail(cfg: Config, s: State, a: nat)
    requires BaseInv(cfg, s) && Enabled(s, CreateFail(a))
    ensures BaseInv(cfg, Apply(cfg, s, CreateFail(a)))
  {
    BaseHead(cfg, s, a);
    hide BaseInv, Wf, CellsWf, ReleaseReservation;
    ReadyIsWf(s);
    BaseGiveBack(cfg, s, a, Rejected(FactoryFailed));
  }

  lemma BaseSmallStep(cfg: Config, s: State, step: Step)
    requires BaseInv(cfg, s) && Enabled(s, step)
    requires step.Tick? || step.Timeout? || step.SweepTimer? || step.BreakerMoves?
    ensures BaseInv(cfg, Apply(cfg, s, step))
  {
    WaitersOfBase(cfg, s);
    hide BaseInv, Wf, CellsWf, QueueOk, WaiterInv, MutexInv, PendingOk, Passes, Settle, Sweep;
    ReadyIsWf(s);
    match step {
      case Tick(t) => BaseOther(cfg, s, t, s.openedAt, s.closedBreaker);
      case Timeout(w) =>
        TimeoutPasses(s.pool, w);
        BasePassesBy(cfg, s, Settle(s.pool, w, TimedOut));
      case SweepTimer =>
        SweepPasses(s.pool, cfg, s.now);
        BasePassesBy(cfg, s, Sweep(s.pool, cfg, s.now));
      case BreakerMoves(b, closed) => BaseOther(cfg, s, s.now, s.openedAt, s.closedBreaker[b := closed]);
    }
  }

  /** At the end of every run, safe or not. */
  lemma {:induction false} BaseRunKeeps(cfg: Config, s: State, steps: seq<Step>)
    requires BaseInv(cfg, s) && Run(cfg, s, steps)
    ensures BaseInv(cfg, End(cfg, s, steps))
    decreases |steps|
  {
    hide BaseInv, Enabled, Apply;
    if steps != [] {
      BaseStepKeeps(cfg, s, steps[0]);
      BaseRunKeeps(cfg, Apply(cfg, s, steps[0]), steps[1..]);
    }
  }

  /** Reached from an empty pool by any run at all. */
  ghost predicate Attainable(cfg: Config, s: State) {
    exists now, steps :: Run(cfg, Init(now), steps) && s == End(cfg, Init(now), steps)
  }

  lemma AttainableBase(cfg: Config, s: State)
    requires Attainable(cfg, s)
    ensures BaseInv(cfg, s)
  {
    hide BaseInv;
    var now, steps :| Run(cfg, Init(now), steps) && s == End(cfg, Init(now), steps);
    InitBase(cfg, now);
    BaseRunKeeps(cfg, Init(now), steps);
  }
}
