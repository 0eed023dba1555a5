/** A program that runs failing calls under a breaker of a pool object, and reads the pool's statistics. */
module HeapBreakerClient {
  import opened Counting
  import PoolModel
  import opened BreakerModel
  import opened HeapBreaker
  import opened HeapPool

  lemma TallyOfOpen()
    ensures Tally([Open]) == BreakerCounts(0, 1, 0)
  {
    CountAppend([], Open, Is(Closed));
    CountAppend([], Open, Is(Open));
    CountAppend([], Open, Is(HalfOpen));
    assert [] + [Open] == [Open];
  }

  /** As many failing calls as it takes to trip a new breaker: the pool has then counted one change, to open,
      and the breaker refuses the next call until the cooldown is over, or for ever if it allows no probe. */
  method Trip(config: PoolModel.Config, options: Options, now: int, later: int) returns (stats: Stats, admitted: bool)
    requires options.failureThreshold >= 1
    ensures stats.breaker == BreakerCounts(0, 1, 0)
    ensures admitted <==> later - now >= options.cooldownMs && options.halfOpenMaxAttempts >= 1
  {
    hide RefCountedLruPool.Represents, BreakerStats.Valid, Tally;
    TallyOfOpen();
    var pool := new RefCountedLruPool(config);
    var breaker := new InMemoryCircuitBreaker(options, pool.breakerStats);
    for i := 0 to options.failureThreshold
      invariant pool.breakerStats.Valid() && breaker.listener == pool.breakerStats && breaker.options == options
      invariant fresh(breaker) && fresh(pool.breakerStats) && pool.Represents(PoolModel.EMPTY_POOL)
      invariant if i < options.failureThreshold
                then breaker.Value() == Breaker(Closed, i, 0, 0) && pool.breakerStats.told == []
                else breaker.Value() == Breaker(Open, i, now, 0) && pool.breakerStats.told == [Open]
    {
      var ok := breaker.Begin(now);
      breaker.OnFailure(now);
    }
    stats := pool.GetStats(PoolModel.EMPTY_POOL);
    admitted := breaker.Begin(later);
  }

  lemma TallyOfNone()
    ensures Tally([]) == BreakerCounts(0, 0, 0)
  {
  }

  /** All failing calls but one of those it takes to trip a new breaker, a call that succeeds, and as many
      failing calls again: no change is counted, and the next call is admitted. */
  method Recover(config: PoolModel.Config, options: Options, now: int) returns (stats: Stats, admitted: bool)
    requires options.failureThreshold >= 2
    ensures stats.breaker == BreakerCounts(0, 0, 0) && admitted
  {
    hide RefCountedLruPool.Represents, BreakerStats.Valid, Tally;
    TallyOfNone();
    var pool := new RefCountedLruPool(config);
    var breaker := new InMemoryCircuitBreaker(options, pool.breakerStats);
    for i := 0 to options.failureThreshold - 1
      invariant pool.breakerStats.Valid() && breaker.listener == pool.breakerStats && breaker.options == options
      invariant fresh(breaker) && fresh(pool.breakerStats) && pool.Represents(PoolModel.EMPTY_POOL)
      invariant breaker.Value() == Breaker(Closed, i, 0, 0) && pool.breakerStats.told == []
    {
      var ok := breaker.Begin(now);
      breaker.OnFailure(now);
    }
    var ok := breaker.Begin(now);
    breaker.OnSuccess();
    for i := 0 to options.failureThreshold - 1
      invariant pool.breakerStats.Valid() && breaker.listener == pool.breakerStats && breaker.options == options
      invariant fresh(breaker) && fresh(pool.breakerStats) && pool.Represents(PoolModel.EMPTY_POOL)
      invariant breaker.Value() == Breaker(Closed, i, 0, 0) && pool.breakerStats.told == []
    {
      ok := breaker.Begin(now);
      breaker.OnFailure(now);
    }
    stats := pool.GetStats(PoolModel.EMPTY_POOL);
    admitted := breaker.Begin(now);
  }
}
