/** Per-key exclusion, single creation, the traffic ledger, references, disposal at most once and the
    breaker in use, on every run; events and the pool value at the states of safe runs. */
module ProtocolLedgers {
  import opened Counting
  import opened PoolModel
  import opened PoolInvariant
  import opened PoolTheorems
  import opened MutexModel
  import opened AwaitModel
  import opened Protocol
  import opened ProtocolMutex
  import opened ProtocolPhases
  import opened ProtocolCounts
  import opened ProtocolInvariant
  import opened ProtocolSteps
  import opened ProtocolBase
  import opened PoolResidents
  import opened ProtocolResidents
  import opened ProtocolTheorems

  // --- exclusion ---

  /** Inside obtain. */
  predicate InObtain(x: Acq) { Active(x) && !x.phase.Queued? }

  /** At most one acquire per key is inside obtain, and obtain bodies of a key begin in call order. */
  lemma PerKeyExclusion(cfg: Config, s: State, a: nat, b: nat)
    requires Attainable(cfg, s) && b < a < |s.acqs| && s.acqs[a].key == s.acqs[b].key
    ensures !(InObtain(s.acqs[a]) && InObtain(s.acqs[b]))
    ensures Enabled(s, Begin(a)) ==> !Active(s.acqs[b])
  {
    AttainableBase(cfg, s);
    hide LedgerInv, OnceOk, CountersOk, WaiterInv, BreakerInv, AwaitInv, QueueOk, Wf, CellsWf;
    if InObtain(s.acqs[a]) && InObtain(s.acqs[b]) {
      Exclusion(s.mx, s.acqs, a, b);
    }
    if Enabled(s, Begin(a)) {
      StartsInCallOrder(s.mx, s.acqs, a, b);
    }
  }

  /** An acquire is waiting for a slot, has one, or is at the factory. */
  predicate IsCreating(x: Acq) { x.phase.Parked? || x.phase.Reserved? || x.phase.Creating? || x.phase.LateDisposing? }

  /** No factory call, and no acquire on its way to one, is in flight for a resident key, nor are two
      for one key; live and orphaned keys are disjoint. */
  lemma SingleCreation(cfg: Config, s: State)
    requires Attainable(cfg, s)
    ensures s.pool.entries.Keys !! s.pool.orphans.Keys
    ensures forall a :: 0 <= a < |s.acqs| && IsCreating(s.acqs[a]) ==>
      s.acqs[a].key !in s.pool.entries && s.acqs[a].key !in s.pool.orphans
    ensures forall a, b :: 0 <= b < a < |s.acqs| && IsCreating(s.acqs[a]) && IsCreating(s.acqs[b]) ==>
      s.acqs[a].key != s.acqs[b].key
  {
    hide AnyInv, BaseInv, ResInv, QueueOk, ClosingInv, Wf, Attainable;
    AttainableAny(cfg, s);
    ResOf(cfg, s);
    forall a | 0 <= a < |s.acqs| && IsCreating(s.acqs[a]) ensures Absent(s.pool, s.acqs[a].key) {
      assert ClaimOk(s.pool, s.acqs[a].key, s.acqs[a].phase);
    }
    hide Grounded, ClaimInv;
    forall a, b | 0 <= b < a < |s.acqs| && IsCreating(s.acqs[a]) && IsCreating(s.acqs[b])
      ensures s.acqs[a].key != s.acqs[b].key
    {
      if s.acqs[a].key == s.acqs[b].key {
        PerKeyExclusion(cfg, s, a, b);
      }
    }
  }

  // --- traffic ---

  /** Checkouts, misses and references against the acquires in flight. */
  lemma TrafficLedger(cfg: Config, s: State)
    requires Attainable(cfg, s)
    ensures var c := s.pool.counters; c.acquires == c.hits + c.created - Count(s.acqs, IsResolved())
    ensures var c := s.pool.counters; c.misses == c.created + s.failed + Count(s.acqs, IsMissing())
    ensures TotalRefs(s.pool.table) == s.pool.counters.acquires - s.pool.counters.releases
    ensures forall k :: Pending(s.pool, k) == Count(s.acqs, ActiveOn(k))
    ensures cfg.max >= 1 ==> s.pool.reserved == Count(s.acqs, IsReserving())
  {
    AttainableBase(cfg, s);
  }

  /** Until it is disposed, an entry has as many references as handles that are not released; what is live
      and condemned has one, and nothing idle has. */
  lemma ReferencesAreHandles(cfg: Config, s: State, e: nat)
    requires Attainable(cfg, s) && e < |s.pool.table|
    ensures !s.pool.table[e].life.Disposed? ==> s.pool.table[e].refCount == Count(s.acqs, Holds(e))
    ensures s.pool.table[e].life.Live? && s.pool.table[e].condemned ==> Count(s.acqs, Holds(e)) > 0
    ensures e in s.pool.idle ==> s.pool.table[e].refCount == 0
    ensures IsLive(s.pool, e) || IsOrphan(s.pool, e) ==> s.pool.table[e].life.Live?
  {
    hide BaseInv, ClaimInv, ClosingInv, Attainable;
    AttainableAny(cfg, s);
  }

  // --- disposal ---

  /** Whatever the run, also one in which a drain disposes what an acquire has chosen: the user's
      dispose was called once on each resource that is no longer live and never on a live one, and
      every created resource is live, being disposed, or counted as disposed. */
  lemma DisposedAtMostOnce(cfg: Config, s: State)
    requires Attainable(cfg, s)
    ensures forall e :: 0 <= e < |s.pool.table| ==> s.pool.table[e].disposeCalls == One(!s.pool.table[e].life.Live?)
    ensures s.pool.counters.created
         == |IdsOf(s.pool, Live)| + |IdsOf(s.pool, Disposing)| + s.pool.counters.disposed
    ensures s.pool.counters.disposed == |IdsOf(s.pool, Disposed)|
  {
    AttainableBase(cfg, s);
    hide MutexInv, LedgerInv, WaiterInv, BreakerInv, AwaitInv, QueueOk;
    CountIsCardinality(s.pool.table, HasLife(Live));
    CountIsCardinality(s.pool.table, HasLife(Disposing));
    CountIsCardinality(s.pool.table, HasLife(Disposed));
    LifeTally(s.pool.table);
  }

  /** Handles not released yet. */
  function IsOutstanding(): Acq -> bool { (x: Acq) => Outstanding(x) }

  function HoldsBelow(n: nat): Acq -> bool { (x: Acq) => Outstanding(x) && x.phase.e < n }

  lemma {:induction false} TotalIsHandles(t: seq<Rec>, acqs: seq<Acq>)
    requires HandlesOk(t, acqs)
    ensures TotalRefs(t) == Count(acqs, HoldsBelow(|t|))
  {
    if |t| == 0 {
      CountNone(acqs, HoldsBelow(0));
    } else {
      var n := |t| - 1;
      TotalIsHandles(t[..n], acqs);
      CountSplit(acqs, HoldsBelow(|t|), HoldsBelow(n), Holds(n));
    }
  }

  /** Checkouts less releases is the number of unreleased handles. */
  lemma EventsAreHandles(cfg: Config, s: State)
    requires Reachable(cfg, s)
    ensures s.pool.counters.acquires - s.pool.counters.releases == Count(s.acqs, IsOutstanding())
  {
    ReachableInv(cfg, s);
    TotalIsHandles(s.pool.table, s.acqs);
    HandlesInTable(s.pool, s.acqs);
    CountAgree(s.acqs, s.acqs, HoldsBelow(|s.pool.table|), IsOutstanding());
  }

  // --- breakers ---

  /** A factory call in flight runs under the breaker that the map has for its key. */
  lemma BreakerInUseIsKept(cfg: Config, s: State, a: nat)
    requires Attainable(cfg, s) && a < |s.acqs| && s.acqs[a].phase.Creating?
    ensures cfg.perKeyBreakers ==>
      s.acqs[a].key in s.breakers && s.breakers[s.acqs[a].key] == s.acqs[a].phase.breaker
    ensures !cfg.perKeyBreakers ==> s.acqs[a].phase.breaker == 0
  {
    AttainableBase(cfg, s);
    assert BreakerOk(cfg, s.breakers, s.acqs[a]);
  }

  // --- the pool value at every reachable state ---

  /** Statistics, resources and eviction at every reachable state. */
  lemma ReachablePool(cfg: Config, s: State)
    requires Reachable(cfg, s)
    ensures Wf(s.pool)
    ensures |s.pool.idle| == |IdleKeys(s.pool)|
    ensures |s.pool.entries| - |s.pool.idle| + |s.pool.orphans|
         == |HeldIn(s.pool.entries, s.pool.table)| + |HeldIn(s.pool.orphans, s.pool.table)|
    ensures s.pool.counters.created
         == |s.pool.entries| + |s.pool.orphans| + |IdsOf(s.pool, Disposing)| + s.pool.counters.disposed
    ensures forall e :: 0 <= e < |s.pool.table| ==>
      s.pool.table[e].disposeCalls == if e in Residents(s.pool) then 0 else 1
    ensures forall v: Option<nat> :: ScanAnswers(s.pool, v) <==> v == FirstFree(s.pool, s.pool.idle)
  {
    hide Inv, PoolInv, Residents;
    ReachableInv(cfg, s);
    DrainsOf(cfg, s);
    StatsAreFullScan(s.pool, s.now);
    ResourceLedger(s.pool, s.now);
    LruIsFullScan(s.pool, s.now);
  }
}
