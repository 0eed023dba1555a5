/** The invariant of the protocol, and what a segment of one acquire owes to keep it. */
module ProtocolInvariant {
  import opened Counting
  import opened PoolModel
  import opened PoolInvariant
  import opened PoolBulk
  import opened MutexModel
  import opened AwaitModel
  import opened Protocol
  import opened ProtocolMutex
  import opened ProtocolPhases
  import opened ProtocolCounts

  /** Every parked acquire has its own waiter, and every unsettled waiter its parked acquire; a pool
      without bound parks nobody. */
  predicate WaiterInv(cfg: Config, p: Pool, acqs: seq<Acq>, owner: seq<nat>) {
    && |owner| == |p.log| && (cfg.max <= 0 ==> p.log == [])
    && (forall a :: 0 <= a < |acqs| && acqs[a].phase.Parked? ==>
         acqs[a].phase.w < |owner| && owner[acqs[a].phase.w] == a)
    && (forall w :: 0 <= w < |p.log| && p.log[w].Waiting? ==>
         owner[w] < |acqs| && acqs[owner[w]].phase == Parked(w))
    && (cfg.maxWaiters.Some? ==> |p.queue| <= cfg.maxWaiters.value)
  }

  /** The breaker a factory call runs under is the shared one, or the one the map has for its key. */
  predicate BreakerInv(cfg: Config, breakers: map<Key, nat>, n: nat, acqs: seq<Acq>) {
    && n > 0
    && (forall k :: k in breakers ==> breakers[k] < n)
    && (forall a :: 0 <= a < |acqs| && acqs[a].phase.Creating? ==> BreakerOk(cfg, breakers, acqs[a]))
  }

  predicate BreakerOk(cfg: Config, breakers: map<Key, nat>, x: Acq)
    requires x.phase.Creating?
  {
    if cfg.perKeyBreakers then x.key in breakers && breakers[x.key] == x.phase.breaker
    else x.phase.breaker == 0
  }

  /** The promises of a drain exist, and all have resolved once it has completed. */
  predicate DrainOk(t: seq<Rec>, aw: Awaits, d: DrainRun) {
    WaitsOk(t, aw, d.waits) && (d.done ==> forall w :: w in d.waits ==> IsSettled(aw, w))
  }

  predicate AwaitInv(t: seq<Rec>, drains: seq<DrainRun>, aw: Awaits) {
    BoardOk(t, aw) && forall d :: 0 <= d < |drains| ==> DrainOk(t, aw, drains[d])
  }

  /** While the pool is closed every drain since the last start() awaits all that is left. */
  predicate DrainInv(t: seq<Rec>, closed: bool, drains: seq<DrainRun>, openedAt: nat, aw: Awaits) {
    && AwaitInv(t, drains, aw)
    && (if closed then openedAt < |drains| else openedAt == |drains|)
    && (forall d, e :: closed && openedAt <= d < |drains| && 0 <= e < |t| && t[e].life.Live? ==>
         e in Awaited(drains[d].waits))
  }

  ghost predicate Inv(cfg: Config, s: State) {
    && PoolInv(s.pool, s.now)
    && MutexInv(s.mx, s.acqs)
    && PhaseInv(s.pool, s.acqs)
    && CountInv(cfg, s.pool, s.acqs, s.failed)
    && WaiterInv(cfg, s.pool, s.acqs, s.owner)
    && BreakerInv(cfg, s.breakers, |s.closedBreaker|, s.acqs)
    && DrainInv(s.pool.table, s.pool.closed, s.drains, s.openedAt, s.awaits)
  }

  lemma InitInv(cfg: Config, now: int)
    ensures Inv(cfg, Init(now))
  {
    hide PoolInv, MutexInv, PhaseInv, CountInv, WaiterInv, BreakerInv, DrainInv;
    InitPool(now);
    InitRest(cfg, now);
  }

  lemma InitPool(now: int)
    ensures PoolInv(EMPTY_POOL, now)
  {
  }

  lemma InitRest(cfg: Config, now: int)
    ensures MutexInv(Mutexes([], map[]), [])
    ensures PhaseInv(EMPTY_POOL, [])
    ensures CountInv(cfg, EMPTY_POOL, [], 0)
    ensures WaiterInv(cfg, EMPTY_POOL, [], []) && BreakerInv(cfg, map[], 1, [])
    ensures DrainInv([], false, [], 0, NO_AWAITS)
  {
    hide CountInv;
    InitCounts(cfg);
  }

  lemma InitCounts(cfg: Config)
    ensures CountInv(cfg, EMPTY_POOL, [], 0)
  {
  }

  // --- what a step does to disposal and to the waiters ---

  /** Entries only ever move on towards disposed, none is condemned, and none is born into a closed
      pool. */
  predicate Aging(p: Pool, q: Pool) {
    && q.closed == p.closed && |p.table| <= |q.table| && (p.closed ==> |q.table| == |p.table|)
    && (forall e :: 0 <= e < |p.table| ==>
         (q.table[e].life.Live? ==> p.table[e].life.Live?) && (p.table[e].life.Disposed? <==> q.table[e].life.Disposed?)
         && q.table[e].condemned == p.table[e].condemned)
    && (forall e :: |p.table| <= e < |q.table| ==> !q.table[e].condemned && !q.table[e].life.Disposed?)
  }

  lemma AgingKeepsDrains(p: Pool, q: Pool, drains: seq<DrainRun>, openedAt: nat, aw: Awaits)
    requires DrainInv(p.table, p.closed, drains, openedAt, aw) && Aging(p, q)
    ensures DrainInv(q.table, q.closed, drains, openedAt, aw)
  {
    SameKeepsAwaits(p.table, q.table, drains, aw);
  }

  lemma SameKeepsAwaits(t: seq<Rec>, u: seq<Rec>, drains: seq<DrainRun>, aw: Awaits)
    requires AwaitInv(t, drains, aw) && SameDisposed(t, u)
    ensures AwaitInv(u, drains, aw)
  {
    SameKeepsBoard(t, u, aw);
    forall d | 0 <= d < |drains| ensures DrainOk(u, aw, drains[d]) {
      assert DrainOk(t, aw, drains[d]);
      SameKeepsWaits(t, u, aw, drains[d].waits);
    }
  }

  lemma EndKeepsAwaits(t: seq<Rec>, u: seq<Rec>, drains: seq<DrainRun>, aw: Awaits, e: nat)
    requires AwaitInv(t, drains, aw) && e < |t| == |u| && u[e].life.Disposed?
    requires forall x :: 0 <= x < |t| && x != e ==> u[x] == t[x]
    ensures AwaitInv(u, drains, EndDisposal(aw, e))
  {
    EndKeepsBoard(t, u, aw, e);
    forall d | 0 <= d < |drains| ensures DrainOk(u, EndDisposal(aw, e), drains[d]) {
      assert DrainOk(t, aw, drains[d]);
      EndKeepsWaits(t, u, aw, e, drains[d].waits);
    }
  }

  lemma StartKeepsAwaits(p: Pool, t: seq<Rec>, drains: seq<DrainRun>, aw: Awaits)
    requires Wf(p) && AwaitInv(p.table, drains, aw) && SameDisposed(p.table, t)
    ensures var ws := Waits(p, |drains|); AwaitInv(t, drains + [DrainRun(ws, false)], StartWaits(aw, ws))
  {
    hide BoardOk, WaitsOk, Waits;
    var ws := Waits(p, |drains|);
    StartKeepsBoard(p, t, aw, |drains|);
    forall d | 0 <= d < |drains| ensures DrainOk(t, StartWaits(aw, ws), drains[d]) {
      assert DrainOk(p.table, aw, drains[d]);
      StartKeepsWaits(p.table, t, aw, drains[d].waits, ws);
    }
  }

  /** Nobody parks; some waiters may be settled. */
  predicate Settling(p: Pool, q: Pool) {
    && |q.log| == |p.log| && |q.queue| <= |p.queue|
    && forall w :: 0 <= w < |p.log| && q.log[w].Waiting? ==> p.log[w].Waiting?
  }

  lemma SettlingKeepsWaiters(cfg: Config, p: Pool, q: Pool, acqs: seq<Acq>, a: nat, x: Acq, owner: seq<nat>)
    requires WaiterInv(cfg, p, acqs, owner) && Settling(p, q) && a < |acqs| && !x.phase.Parked?
    requires acqs[a].phase.Parked? && acqs[a].phase.w < |p.log| ==> !p.log[acqs[a].phase.w].Waiting?
    ensures WaiterInv(cfg, q, acqs[a := x], owner)
  {
  }

  lemma SettlingAlone(cfg: Config, p: Pool, q: Pool, acqs: seq<Acq>, owner: seq<nat>)
    requires WaiterInv(cfg, p, acqs, owner) && Settling(p, q)
    ensures WaiterInv(cfg, q, acqs, owner)
  {
  }

  lemma ParkingKeepsWaiters(cfg: Config, p: Pool, q: Pool, acqs: seq<Acq>, a: nat, x: Acq, owner: seq<nat>)
    requires WaiterInv(cfg, p, acqs, owner) && a < |acqs| && q.log == p.log + [Waiting] && cfg.max >= 1
    requires x.phase == Parked(|p.log|)
    requires acqs[a].phase.Parked? && acqs[a].phase.w < |p.log| ==> !p.log[acqs[a].phase.w].Waiting?
    requires cfg.maxWaiters.Some? ==> |q.queue| <= cfg.maxWaiters.value
    ensures WaiterInv(cfg, q, acqs[a := x], owner + [a])
  {
  }

  lemma MoveKeepsBreakers(cfg: Config, breakers: map<Key, nat>, n: nat, acqs: seq<Acq>, a: nat, x: Acq)
    requires BreakerInv(cfg, breakers, n, acqs) && a < |acqs|
    requires x.phase.Creating? ==> BreakerOk(cfg, breakers, x)
    ensures BreakerInv(cfg, breakers, n, acqs[a := x])
  {
  }

  lemma ActiveIsPending(p: Pool, acqs: seq<Acq>, a: nat)
    requires PendingOk(p, acqs) && a < |acqs| && Active(acqs[a])
    ensures IsPending(p, acqs[a].key)
  {
    CountMember(acqs, a, ActiveOn(acqs[a].key));
  }

  // --- a segment of the oldest acquire of a key ---

  /** What the segment that takes acquire a from y to x, and the pool from p to q, owes. */
  ghost predicate GoodSegment(cfg: Config, s: State, a: nat, q: Pool, x: Acq, failed: nat)
    requires a < |s.acqs|
  {
    && x.key == s.acqs[a].key && x.cell == s.acqs[a].cell && Active(x) && !x.phase.Queued?
    && PoolInv(q, s.now) && PhaseOk(q, x)
    && Quiet(s.pool, q) && Aging(s.pool, q) && |s.pool.table| <= |q.table|
    && (forall l :: IsPending(s.pool, l) && l != x.key ==> SameFor(s.pool, q, l))
    && Tallies(cfg, s.pool, q, s.acqs[a], x, s.failed, failed)
  }

  lemma SegmentPhases(s: State, a: nat, q: Pool, x: Acq)
    requires MutexInv(s.mx, s.acqs) && PhaseInv(s.pool, s.acqs) && PendingOk(s.pool, s.acqs)
    requires IsHead(s.mx, s.acqs, a) && PhaseOk(q, x) && |s.pool.table| <= |q.table|
    requires forall l :: IsPending(s.pool, l) && l != s.acqs[a].key ==> SameFor(s.pool, q, l)
    ensures PhaseInv(q, s.acqs[a := x])
  {
    hide MutexInv, PhaseInv, PendingOk, PhaseOk, SameFor;
    forall b | 0 <= b < |s.acqs| && b != a && Choosy(s.acqs[b]) ensures SameFor(s.pool, q, s.acqs[b].key) {
      ActiveIsPending(s.pool, s.acqs, b);
      if s.acqs[b].key == s.acqs[a].key {
        HeadExclusion(s.mx, s.acqs, a, b);
      }
    }
    OthersKeepPhase(s.pool, q, s.acqs, a, x);
  }

  lemma HandlesInTable(p: Pool, acqs: seq<Acq>)
    requires PhaseInv(p, acqs)
    ensures forall b :: 0 <= b < |acqs| && Outstanding(acqs[b]) ==> acqs[b].phase.e < |p.table|
  {
    forall b | 0 <= b < |acqs| && Outstanding(acqs[b]) ensures acqs[b].phase.e < |p.table| {
      assert PhaseOk(p, acqs[b]);
    }
  }

  /** All of the invariant but the waiters and the breakers. */
  lemma SegmentKeeps(cfg: Config, s: State, a: nat, q: Pool, x: Acq, failed: nat)
    requires Inv(cfg, s) && IsHead(s.mx, s.acqs, a) && GoodSegment(cfg, s, a, q, x, failed)
    ensures PoolInv(q, s.now) && MutexInv(s.mx, s.acqs[a := x]) && PhaseInv(q, s.acqs[a := x])
    ensures CountInv(cfg, q, s.acqs[a := x], failed)
    ensures DrainInv(q.table, q.closed, s.drains, s.openedAt, s.awaits)
  {
    hide PoolInv, MutexInv, PhaseInv, PendingOk, HandlesOk, GateOk, TrafficOk, RefsOk,
         WaiterInv, BreakerInv, DrainInv, PhaseOk, Quiet, Aging, Tallies;
    SegmentPhases(s, a, q, x);
    MoveKeepsMutex(s.mx, s.acqs, a, x);
    HandlesInTable(s.pool, s.acqs);
    MoveKeepsCounts(cfg, s.pool, q, s.acqs, a, x, s.failed, failed);
    AgingKeepsDrains(s.pool, q, s.drains, s.openedAt, s.awaits);
  }

  /** A segment that parks nobody. */
  lemma SegmentStep(cfg: Config, s: State, a: nat, q: Pool, x: Acq, failed: nat)
    requires Inv(cfg, s) && IsHead(s.mx, s.acqs, a) && GoodSegment(cfg, s, a, q, x, failed)
    requires Settling(s.pool, q) && !x.phase.Parked?
    requires s.acqs[a].phase.Parked? && s.acqs[a].phase.w < |s.pool.log| ==> !s.pool.log[s.acqs[a].phase.w].Waiting?
    requires x.phase.Creating? ==> BreakerOk(cfg, s.breakers, x)
    ensures Inv(cfg, s.(pool := q, acqs := s.acqs[a := x], failed := failed))
  {
    hide PoolInv, MutexInv, PhaseInv, CountInv, WaiterInv, BreakerInv, DrainInv, GoodSegment, Settling, BreakerOk;
    SegmentKeeps(cfg, s, a, q, x, failed);
    SettlingKeepsWaiters(cfg, s.pool, q, s.acqs, a, x, s.owner);
    MoveKeepsBreakers(cfg, s.breakers, |s.closedBreaker|, s.acqs, a, x);
  }

  /** A segment that parks. */
  lemma ParkingStep(cfg: Config, s: State, a: nat, q: Pool, x: Acq)
    requires Inv(cfg, s) && IsHead(s.mx, s.acqs, a) && GoodSegment(cfg, s, a, q, x, s.failed)
    requires q.log == s.pool.log + [Waiting] && x.phase == Parked(|s.pool.log|) && cfg.max >= 1
    requires s.acqs[a].phase.Parked? && s.acqs[a].phase.w < |s.pool.log| ==> !s.pool.log[s.acqs[a].phase.w].Waiting?
    requires cfg.maxWaiters.Some? ==> |q.queue| <= cfg.maxWaiters.value
    ensures Inv(cfg, s.(pool := q, acqs := s.acqs[a := x], owner := s.owner + [a]))
  {
    hide PoolInv, MutexInv, PhaseInv, CountInv, WaiterInv, BreakerInv, DrainInv, GoodSegment;
    SegmentKeeps(cfg, s, a, q, x, s.failed);
    ParkingKeepsWaiters(cfg, s.pool, q, s.acqs, a, x, s.owner);
    MoveKeepsBreakers(cfg, s.breakers, |s.closedBreaker|, s.acqs, a, x);
  }
}
