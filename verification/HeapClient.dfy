/** Programs that drive a pool object through whole runs: one resource from its creation to its
    eviction, and the loop of benchmarks/eviction-throughput/src/index.ts over both pools. */
module HeapClient {
  import opened PoolModel
  import opened PoolInvariant
  import opened MutexModel
  import opened Protocol
  import opened ProtocolCounts
  import opened ProtocolInvariant
  import opened ProtocolSteps
  import opened NaiveScan
  import opened NaiveOrder
  import opened NaiveRefinement
  import opened HeapIdleList
  import opened HeapPool

  // --- acquire without waiting for others ---

  /** The acquire neither validates nor parks nor fails. */
  predicate IsPrompt(p: Pool, config: Config, key: Key) {
    && Wf(p) && !p.closed
    && var (q, fast) := AcquirePrefix(p, key);
       fast.None? ==> Wf(q) && var (r, phase) := ObtainStart(q, config, key);
                      Wf(r) && !r.closed && (phase.Reserved? || (phase.Resolved? && phase.e < |r.table|))
  }

  /** The pool it leaves, and the entry it checks out. */
  function Taken(p: Pool, config: Config, key: Key, now: int): (Pool, nat)
    requires IsPrompt(p, config, key)
  {
    var (q, fast) := AcquirePrefix(p, key);
    if fast.Some? then (q, fast.value)
    else
      var (r, phase) := ObtainStart(q, config, key);
      if phase.Resolved? then (FinishOk(r, phase.e, key), phase.e)
      else
        InsertLonger(r, key, now);
        (FinishOk(InsertCreated(r, key, now), |r.table|, key), |r.table|)
  }

  lemma InsertLonger(p: Pool, k: Key, now: int)
    requires Wf(p)
    ensures |InsertCreated(p, k, now).table| == |p.table| + 1
  {
  }

  /** An acquire from its call to its handle. */
  method Take(pool: RefCountedLruPool, key: Key, now: int, ghost p: Pool) returns (handle: AcquireHandle)
    requires pool.Represents(p) && IsPrompt(p, pool.config, key)
    modifies pool, pool.idleList, pool.repr, pool.parked
    ensures pool.Represents(Taken(p, pool.config, key, now).0)
    ensures handle.IsFor(pool, handle.entry) && handle.entry in pool.repr && fresh(handle)
    ensures handle.entry.id == Taken(p, pool.config, key, now).1
    ensures fresh(pool.repr - old(pool.repr)) && fresh(pool.parked - old(pool.parked)) && old(pool.repr) <= pool.repr
  {
    hide RefCountedLruPool.Represents, AcquirePrefix, ObtainStart, FinishOk, InsertCreated, Wf;
    var fast := pool.Acquire(key, p);
    if fast != null {
      return fast;
    }
    ghost var q := AcquirePrefix(p, key).0;
    var turn := pool.Obtain(key, q);
    ghost var r := ObtainStart(q, pool.config, key).0;
    if turn.Create? {
      turn := pool.AfterFactory(key, now, r);
      r := InsertCreated(r, key, now);
    }
    handle := pool.Finish(turn.entry, key, r);
  }

  // --- one resource ---

  function Gated(config: Config, k: Key): Pool {
    EMPTY_POOL.(pending := map[k := 1], reserved := if config.max >= 1 then 1 else 0,
                counters := Counters(0, 0, 0, 0, 1, 0, 0))
  }

  function Created(config: Config, k: Key, now: int): Pool {
    Gated(config, k).(table := [Rec(k, 0, now, 0, false, Live, 0)], entries := map[k := 0], idle := [0], stamps := 1,
                      reserved := Gated(config, k).reserved - 1, counters := Counters(1, 0, 0, 0, 1, 0, 0))
  }

  function InHand(config: Config, k: Key, now: int): Pool {
    Created(config, k, now).(table := [Rec(k, 1, now, 0, false, Live, 0)], idle := [], pending := map[],
                             counters := Counters(1, 0, 0, 0, 1, 1, 0))
  }

  function Returned(config: Config, k: Key, now: int): Pool {
    Created(config, k, now).(table := [Rec(k, 0, now, 1, false, Live, 0)], idle := [0], stamps := 2, pending := map[],
                             counters := Counters(1, 0, 0, 0, 1, 1, 1))
  }

  lemma GatedIs(config: Config, k: Key)
    ensures AcquirePrefix(EMPTY_POOL, k) == (EMPTY_POOL.(pending := map[k := 1]), None)
    ensures ObtainStart(EMPTY_POOL.(pending := map[k := 1]), config, k) == (Gated(config, k), Reserved)
  {
  }

  lemma CreatedIs(config: Config, k: Key, now: int)
    ensures InsertCreated(Gated(config, k), k, now) == Created(config, k, now)
  {
    assert InsertCreated(Gated(config, k), k, now).entries == map[k := 0];
  }

  lemma InHandIs(config: Config, k: Key, now: int)
    ensures FinishOk(Created(config, k, now), 0, k) == InHand(config, k, now)
  {
  }

  lemma ReturnedIs(config: Config, k: Key, now: int)
    ensures Wf(InHand(config, k, now)) && ReleaseEntry(InHand(config, k, now), 0, now) == Returned(config, k, now)
  {
  }

  lemma TakenIs(config: Config, k: Key, now: int)
    ensures IsPrompt(EMPTY_POOL, config, k) && Taken(EMPTY_POOL, config, k, now) == (InHand(config, k, now), 0)
  {
    hide AcquirePrefix, ObtainStart, FinishOk, InsertCreated;
    GatedIs(config, k);
    CreatedIs(config, k, now);
    InHandIs(config, k, now);
  }

  predicate IsSwept(config: Config, now: int, later: int) { config.idleTtlMs != 0 && config.idleTtlMs <= later - now }

  lemma SweptIs(config: Config, k: Key, now: int, later: int)
    ensures Wf(Returned(config, k, now))
    ensures var q := Sweep(Returned(config, k, now), config, later);
      var left := if IsSwept(config, now, later) then 0 else 1;
      && |q.entries| == |q.idle| == left && |q.orphans| == |q.queue| == 0
      && q.counters == Counters(1, 0, 1 - left, 0, 1, 1, 1)
  {
    var p := Returned(config, k, now);
    if config.idleTtlMs != 0 {
      assert p.idle[1..] == [];
    }
  }

  /** The only use of a new pool, and a sweep afterwards. */
  method OneLife(config: Config, key: Key, now: int, later: int) returns (stats: Stats)
    ensures stats.keys == stats.live == stats.idle == (if IsSwept(config, now, later) then 0 else 1)
    ensures stats.evicted == 1 - stats.keys && stats.created == stats.misses == 1
    ensures stats.inUse == stats.hits == stats.disposed == stats.waiters == 0
  {
    hide RefCountedLruPool.Represents, IsPrompt, Taken, ReleaseEntry, PoolModel.Sweep, InHand, Returned, IsSwept;
    TakenIs(config, key, now);
    ReturnedIs(config, key, now);
    SweptIs(config, key, now, later);
    var pool := new RefCountedLruPool(config);
    var handle := Take(pool, key, now, EMPTY_POOL);
    handle.Release(now, InHand(config, key, now));
    pool.Sweep(later, Returned(config, key, now));
    stats := pool.GetStats(Sweep(Returned(config, key, now), config, later));
  }

  // --- two resources, released at different times ---

  /** Both fit into the pool. */
  predicate FitsTwo(config: Config) { config.max <= 0 || config.max >= 2 }

  function Gated2(config: Config, k: Key, l: Key, now: int): Pool {
    InHand(config, k, now).(pending := map[l := 1], counters := Counters(1, 0, 0, 0, 2, 1, 0),
                            reserved := Gated(config, k).reserved + InHand(config, k, now).reserved)
  }

  /** Both are held. */
  function BothInHand(config: Config, k: Key, l: Key, now: int): Pool {
    EMPTY_POOL.(table := [Rec(k, 1, now, 0, false, Live, 0), Rec(l, 1, now, 1, false, Live, 0)],
                entries := map[k := 0, l := 1], stamps := 2, reserved := Gated2(config, k, l, now).reserved - 1,
                counters := Counters(2, 0, 0, 0, 2, 2, 0))
  }

  function OneReturned(config: Config, k: Key, l: Key, now: int, first: int): Pool {
    BothInHand(config, k, l, now).(table := [Rec(k, 0, first, 2, false, Live, 0), Rec(l, 1, now, 1, false, Live, 0)],
                                   idle := [0], stamps := 3, counters := Counters(2, 0, 0, 0, 2, 2, 1))
  }

  function BothReturned(config: Config, k: Key, l: Key, now: int, first: int, second: int): Pool {
    OneReturned(config, k, l, now, first)
      .(table := [Rec(k, 0, first, 2, false, Live, 0), Rec(l, 0, second, 3, false, Live, 0)],
        idle := [0, 1], stamps := 4, counters := Counters(2, 0, 0, 0, 2, 2, 2))
  }

  lemma Gated2Is(config: Config, k: Key, l: Key, now: int)
    requires k != l && FitsTwo(config)
    ensures Wf(InHand(config, k, now))
    ensures AcquirePrefix(InHand(config, k, now), l) == (InHand(config, k, now).(pending := map[l := 1]), None)
    ensures Wf(InHand(config, k, now).(pending := map[l := 1]))
    ensures ObtainStart(InHand(config, k, now).(pending := map[l := 1]), config, l)
      == (Gated2(config, k, l, now), Reserved)
  {
  }

  lemma Taken2Is(config: Config, k: Key, l: Key, now: int)
    requires k != l && FitsTwo(config)
    ensures Wf(Gated2(config, k, l, now))
    ensures IsPrompt(InHand(config, k, now), config, l)
    ensures Taken(InHand(config, k, now), config, l, now) == (BothInHand(config, k, l, now), 1)
  {
    Gated2Is(config, k, l, now);
    Inserted2(config, k, l, now);
    hide AcquirePrefix, ObtainStart, FinishOk, InsertCreated;
  }

  lemma Inserted2(config: Config, k: Key, l: Key, now: int)
    requires k != l
    ensures var q := InsertCreated(Gated2(config, k, l, now), l, now);
      |Gated2(config, k, l, now).table| == 1 && |q.table| == 2 && FinishOk(q, 1, l) == BothInHand(config, k, l, now)
  {
    var q := InsertCreated(Gated2(config, k, l, now), l, now);
    assert q.entries == map[k := 0, l := 1];
    assert q.idle == [1];
  }

  lemma Returned2Is(config: Config, k: Key, l: Key, now: int, first: int, second: int)
    requires k != l
    ensures Wf(BothInHand(config, k, l, now)) && Wf(OneReturned(config, k, l, now, first))
    ensures ReleaseEntry(BothInHand(config, k, l, now), 0, first) == OneReturned(config, k, l, now, first)
    ensures ReleaseEntry(OneReturned(config, k, l, now, first), 1, second)
      == BothReturned(config, k, l, now, first, second)
  {
  }

  /** What is left of a resource that was released at this time. */
  function Remaining(config: Config, released: int, later: int): nat {
    if IsSwept(config, released, later) then 0 else 1
  }

  function FirstSwept(p: Pool): Pool
    requires |p.table| == 2
  {
    p.(table := [DisposeRec(p.table[0]), p.table[1]], entries := p.entries - {p.table[0].key}, idle := [1],
       counters := p.counters.(evicted := p.counters.evicted + 1))
  }

  lemma FirstSweptIs(p: Pool)
    requires Wf(p) && |p.table| == 2 && p.idle == [0, 1] && p.queue == []
    ensures WakeWaiter(Evict(p, 0)) == FirstSwept(p) && Wf(FirstSwept(p))
  {
  }

  lemma SecondSwept(p: Pool, cutoff: int)
    requires Wf(p) && |p.table| == 2 && p.idle == [1] && p.queue == [] && p.pending == map[]
    requires p.entries == map[p.table[1].key := 1]
    ensures var q := SweepWalk(p, [1], cutoff);
      if p.table[1].lastReleasedAt <= cutoff then
        q.entries == map[] && q.idle == [] && q.counters.evicted == p.counters.evicted + 1
      else q == p
  {
    WfEvictWake(p, 1);
    var q := WakeWaiter(Evict(p, 1));
    assert p.table[1].lastReleasedAt <= cutoff ==> SweepWalk(p, [1], cutoff) == SweepWalk(q, [], cutoff);
  }

  lemma Swept2Is(config: Config, k: Key, l: Key, now: int, first: int, second: int, later: int)
    requires k != l && first <= second
    ensures Wf(BothReturned(config, k, l, now, first, second))
    ensures var q := Sweep(BothReturned(config, k, l, now, first, second), config, later);
      var left := Remaining(config, first, later) + Remaining(config, second, later);
      && (k in q.entries <==> !IsSwept(config, first, later)) && (l in q.entries <==> !IsSwept(config, second, later))
      && |q.entries| == |q.idle| == left && q.counters.evicted == 2 - left
  {
    SweepOfTwo(BothReturned(config, k, l, now, first, second), config, later);
  }

  lemma SweepOfTwo(p: Pool, config: Config, later: int)
    requires |p.table| == 2 && p.idle == [0, 1] && p.queue == [] && p.pending == map[] && p.orphans == map[]
    requires var k, l := p.table[0].key, p.table[1].key; k != l && p.entries == map[k := 0, l := 1]
    requires p.table[0].lastReleasedAt <= p.table[1].lastReleasedAt
    ensures Wf(p)
    ensures var q := Sweep(p, config, later);
      var a, b := p.table[0], p.table[1];
      var left := Remaining(config, a.lastReleasedAt, later) + Remaining(config, b.lastReleasedAt, later);
      && (a.key in q.entries <==> !IsSwept(config, a.lastReleasedAt, later))
      && (b.key in q.entries <==> !IsSwept(config, b.lastReleasedAt, later))
      && |q.entries| == |q.idle| == left && q.counters.evicted == p.counters.evicted + 2 - left
  {
    var q := FirstSwept(p);
    assert q.entries == map[p.table[1].key := 1];
    WalkOfTwo(p, later - config.idleTtlMs);
    SecondSwept(q, later - config.idleTtlMs);
    assert |p.entries| == 2 by { TwoKeys(p.table[0].key, p.table[1].key); }
    hide SweepWalk;
  }

  lemma TwoKeys(k: Key, l: Key)
    requires k != l
    ensures |map[k := 0, l := 1]| == 2
  {
  }

  lemma WalkOfTwo(p: Pool, cutoff: int)
    requires Wf(p) && |p.table| == 2 && p.idle == [0, 1] && p.queue == [] && p.pending == map[]
    ensures Wf(FirstSwept(p))
    ensures SweepWalk(p, p.idle, cutoff)
      == if p.table[0].lastReleasedAt > cutoff then p else SweepWalk(FirstSwept(p), [1], cutoff)
  {
    FirstSweptIs(p);
    assert p.idle[1..] == [1];
    hide Evict, WakeWaiter, FirstSwept, Wf;
  }

  /** Two keys, taken together and released one after the other. */
  method TwoReleases(config: Config, k: Key, l: Key, now: int, first: int, second: int, later: int)
    returns (pool: RefCountedLruPool, stats: Stats)
    requires k != l && FitsTwo(config) && first <= second
    ensures k in pool.entries <==> !IsSwept(config, first, later)
    ensures l in pool.entries <==> !IsSwept(config, second, later)
    ensures stats.keys == stats.idle == Remaining(config, first, later) + Remaining(config, second, later)
    ensures stats.evicted == 2 - stats.keys
  {
    hide RefCountedLruPool.Represents, IsPrompt, Taken, ReleaseEntry, PoolModel.Sweep, InHand, BothInHand, OneReturned,
         BothReturned, IsSwept, Remaining;
    TakenIs(config, k, now);
    Taken2Is(config, k, l, now);
    Returned2Is(config, k, l, now, first, second);
    Swept2Is(config, k, l, now, first, second, later);
    pool := new RefCountedLruPool(config);
    var handle := Take(pool, k, now, EMPTY_POOL);
    var other := Take(pool, l, now, InHand(config, k, now));
    handle.Release(first, BothInHand(config, k, l, now));
    other.Release(second, OneReturned(config, k, l, now, first));
    ghost var p := BothReturned(config, k, l, now, first, second);
    pool.Sweep(later, p);
    pool.MapKeys(Sweep(p, config, later));
    stats := pool.GetStats(Sweep(p, config, later));
  }

  // --- the loop of the benchmark ---

  /** From the end of obtain. */
  lemma EndsUse(cfg: Config, s: State, u: Naive, v: map<Key, int>, k: Key, gone: set<Key>) returns (t: State)
    requires Inv(cfg, s) && SameUse(v, u, cfg.max) && Using(s, v, cfg.max, k, gone) && Last(s).phase.Resolved?
    requires 1 <= cfg.max && Wf(s.pool)
    ensures Last(s).phase.e < |s.pool.table| && Wf(FinishOk(s.pool, Last(s).phase.e, k))
    ensures |FinishOk(s.pool, Last(s).phase.e, k).table| == |s.pool.table|
    ensures Sim(cfg, t, NaiveAcquire(u, cfg.max, k)) && t.now == s.now
    ensures t.pool == ReleaseEntry(FinishOk(s.pool, Last(s).phase.e, k), Last(s).phase.e, s.now)
  {
    hide Inv, Using, SameUse, Sim, NaiveAcquire, Wf, FinishOk, ReleaseEntry, Enabled, Apply, CheckedOut;
    UsingIsLone(s, v, cfg.max, k, gone);
    FinishProceeds(cfg, s);
    var a, e := |s.acqs| - 1, Last(s).phase.e;
    FinishMoves(cfg, s);
    FinishUses(cfg, s, v, k, gone);
    StepKeeps(cfg, s, Finish(a));
    HandOutForm(s.pool, e, k);
    var r := Apply(cfg, s, Finish(a));
    FinishSize(s.pool, e, k);
    SameCount(cfg, s, Finish(a));
    UsingIsLone(r, v, cfg.max, k, gone);
    ReleaseProceeds(cfg, r);
    ReleaseMoves(cfg, r);
    ReleaseEnds(cfg, r, u, v, k, gone);
    SameNow(cfg, s, Finish(a));
    SameNow(cfg, r, Release(a));
    t := Apply(cfg, r, Release(a));
  }

  lemma UsingIsLone(s: State, v: map<Key, int>, max: int, k: Key, gone: set<Key>)
    requires Using(s, v, max, k, gone)
    ensures Lone(s) && Wf(s.pool) && Last(s).key == k
  {
  }

  lemma FinishSize(p: Pool, e: nat, k: Key)
    requires e < |p.table|
    ensures |FinishOk(p, e, k).table| == |p.table|
  {
  }

  lemma SameNow(cfg: Config, s: State, step: Step)
    requires Enabled(s, step) && !step.Tick?
    ensures Apply(cfg, s, step).now == s.now
  {
    hide Wf, CellsWf;
  }

  /** To the end of obtain. */
  lemma ObtainsEntry(cfg: Config, s: State, u: Naive, v: map<Key, int>, k: Key, gone: set<Key>) returns (t: State)
    requires Inv(cfg, s) && SameUse(v, u, cfg.max) && Using(s, v, cfg.max, k, gone) && Last(s).phase.Reserved?
    requires 1 <= cfg.max
    ensures Inv(cfg, t) && Using(t, v, cfg.max, k, gone) && Last(t).phase == Resolved(|s.pool.table|) && t.now == s.now
    ensures t.pool == InsertCreated(s.pool, k, s.now)
  {
    PoolAlive(cfg, s);
    hide Inv, Using, SameUse, Wf, CellsWf, InsertCreated, Enabled, Apply;
    UsingIsLone(s, v, cfg.max, k, gone);
    var a := |s.acqs| - 1;
    CreateProceeds(cfg, s);
    CreateStartUses(cfg, s, v, k, gone);
    StepKeeps(cfg, s, CreateStart(a));
    SameNow(cfg, s, CreateStart(a));
    var r := Apply(cfg, s, CreateStart(a));
    SameCount(cfg, s, CreateStart(a));
    PoolAlive(cfg, r);
    UsingIsLone(r, v, cfg.max, k, gone);
    CreateProceeds(cfg, r);
    CreateDoneUses(cfg, r, v, k, gone);
    StepKeeps(cfg, r, CreateDone(a));
    SameNow(cfg, r, CreateDone(a));
    t := Apply(cfg, r, CreateDone(a));
  }

  lemma SameCount(cfg: Config, s: State, step: Step)
    requires Enabled(s, step) && !step.Call?
    ensures |Apply(cfg, s, step).acqs| == |s.acqs|
  {
    hide Wf, CellsWf;
  }

  /** From the call to the turn of obtain. */
  lemma BeginsUse(cfg: Config, s: State, n: Naive, k: Key) returns (t: State, gone: set<Key>)
    requires Sim(cfg, s, n) && 1 <= cfg.max && !cfg.validates
    ensures AcquirePrefix(s.pool, k) == (IncPending(s.pool, k), None) && Wf(IncPending(s.pool, k))
    ensures Inv(cfg, t) && Using(t, Stamps(s.pool), cfg.max, k, gone) && t.now == s.now
    ensures ObtainStart(IncPending(s.pool, k), cfg, k) == (t.pool, Last(t).phase)
    ensures Last(t).phase.Reserved? || Last(t).phase.Resolved?
  {
    PoolAlive(cfg, s);
    hide Inv, SameUse, Wf, CellsWf, Enabled, Apply, Stamps, ObtainStart, IncPending, AtRest, Standing;
    RestUnheld(cfg, s);
    PrefixOf(s.pool, k);
    IncStamps(s.pool, k);
    CallEnabled(cfg, s, k);
    CallUses(cfg, s, n, k);
    SameNow(cfg, s, Call(k));
    var r := Apply(cfg, s, Call(k));
    CallForm(cfg, s, k);
    UsingIsLone(r, Stamps(s.pool), cfg.max, k, {});
    BeginProceeds(cfg, r);
    SimSize(cfg, s, n);
    gone := BeginUses(cfg, r, Stamps(s.pool), k, {});
    StepKeeps(cfg, r, Begin(|r.acqs| - 1));
    SameNow(cfg, r, Begin(|r.acqs| - 1));
    t := Apply(cfg, r, Begin(|r.acqs| - 1));
  }

  lemma PrefixOf(p: Pool, k: Key)
    requires Wf(p) && Unheld(p)
    ensures AcquirePrefix(p, k) == (IncPending(p, k), None)
  {
  }

  lemma CallEnabled(cfg: Config, s: State, k: Key)
    requires Wf(s.pool) && CellsWf(s.mx)
    ensures Enabled(s, Call(k)) && Ready(s)
  {
  }

  lemma SimSize(cfg: Config, s: State, n: Naive)
    requires Sim(cfg, s, n)
    ensures |Stamps(s.pool)| <= cfg.max && Wf(s.pool)
  {
  }

  /** One use of k: its pools, and the state of the protocol it ends in. */
  lemma UseIs(cfg: Config, s: State, n: Naive, k: Key) returns (t: State)
    requires Sim(cfg, s, n) && 1 <= cfg.max && !cfg.validates
    ensures IsPrompt(s.pool, cfg, k)
    ensures var (q, e) := Taken(s.pool, cfg, k, s.now);
      Wf(q) && e < |q.table| && t.pool == ReleaseEntry(q, e, s.now)
    ensures Sim(cfg, t, NaiveAcquire(n, cfg.max, k)) && t.now == s.now
  {
    var r, gone := BeginsUse(cfg, s, n, k);
    hide Inv, Sim, Using, SameUse, Wf, AcquirePrefix, ObtainStart, IncPending, FinishOk, InsertCreated, ReleaseEntry;
    UsingIsLone(r, Stamps(s.pool), cfg.max, k, gone);
    var z := r;
    if r.acqs[|r.acqs| - 1].phase.Reserved? {
      z := ObtainsEntry(cfg, r, n, Stamps(s.pool), k, gone);
    }
    UsingIsLone(z, Stamps(s.pool), cfg.max, k, gone);
    t := EndsUse(cfg, z, n, Stamps(s.pool), k, gone);
  }

  lemma UsesNone(max: int)
    ensures NaiveInv(Naive(map[], 0)) && NaiveUses(Naive(map[], 0), max, []) == Naive(map[], 0)
  {
  }

  lemma SimKeys(cfg: Config, s: State, n: Naive)
    requires Sim(cfg, s, n)
    ensures s.pool.entries.Keys == n.used.Keys
  {
    hide Inv, AtRest, NaiveInv;
    StampKeys(s.pool);
  }

  lemma SizesAgree(m: map<Key, Entry>, n: map<Key, int>)
    requires m.Keys == n.Keys
    ensures |m| == |n|
  {
    assert |m.Keys| == |m| && |n.Keys| == |n|;
  }

  /** One turn of the loop. */
  method UseBoth(pool: RefCountedLruPool, naive: NaiveScanPool, key: Key, now: int, ghost s: State)
    returns (ghost t: State)
    requires pool.Represents(s.pool) && Sim(pool.config, s, naive.Value()) && NaiveInv(naive.Value()) && s.now == now
    requires 1 <= pool.config.max == naive.max && !pool.config.validates
    modifies pool, pool.idleList, pool.repr, pool.parked, naive
    ensures pool.Represents(t.pool) && Sim(pool.config, t, naive.Value()) && NaiveInv(naive.Value()) && t.now == now
    ensures naive.Value() == NaiveAcquire(old(naive.Value()), naive.max, key)
    ensures fresh(pool.repr - old(pool.repr)) && fresh(pool.parked - old(pool.parked))
  {
    hide RefCountedLruPool.Represents, Sim, NaiveInv, IsPrompt, Taken, ReleaseEntry, NaiveAcquire;
    t := UseIs(pool.config, s, naive.Value(), key);
    var handle := Take(pool, key, now, s.pool);
    handle.Release(now, Taken(s.pool, pool.config, key, now).0);
    naive.Acquire(key);
  }

  /** The loop: acquire and release each of these keys, of both pools. Whatever the keys, in the end both
      hold the same ones. */
  method Benchmark(config: Config, keys: seq<Key>, now: int) returns (pool: RefCountedLruPool, naive: NaiveScanPool)
    requires 1 <= config.max && !config.validates
    ensures pool.entries.Keys == naive.used.Keys
    ensures |pool.entries| == Min(config.max, |Distincts(keys)|)
  {
    hide RefCountedLruPool.Represents, Sim, NaiveInv, NaiveUses, NaiveAcquire, Distincts;
    pool := new RefCountedLruPool(config);
    naive := new NaiveScanPool(config.max);
    ghost var s := Init(now);
    InitSim(config, now);
    assert keys[..0] == [];
    UsesNone(config.max);
    for i := 0 to |keys|
      invariant fresh(pool) && fresh(pool.idleList) && fresh(pool.repr) && fresh(pool.parked) && fresh(naive)
      invariant pool.config == config && naive.max == config.max
      invariant s.now == now && pool.Represents(s.pool) && Sim(config, s, naive.Value())
      invariant NaiveInv(naive.Value()) && naive.Value() == NaiveUses(Naive(map[], 0), config.max, keys[..i])
    {
      s := UseBoth(pool, naive, keys[i], now, s);
      UsesSnoc(Naive(map[], 0), config.max, keys[..i], keys[i]);
      assert keys[..i + 1] == keys[..i] + [keys[i]];
    }
    assert keys[..|keys|] == keys;
    UsesCount(config.max, keys);
    SimKeys(config, s, naive.Value());
    pool.MapKeys(s.pool);
    SizesAgree(pool.entries, naive.used);
  }
}
