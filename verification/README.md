# A verified model of the reference-counted LRU pool

This project models `RefCountedLruPool` (packages/core/src/pool.ts), `InMemoryCircuitBreaker`
(packages/core/src/breakers.ts) and the full-scan LRU that the repository benchmarks the pool against
(benchmarks/eviction-throughput/src/index.ts), and proves what they promise.

## How it is built

The pool is modelled at two levels that share one specification.

- **The specification** (`PoolModel`, `MutexModel`). The pool as a value, and one function for each
  stretch of code that runs to completion between two awaits: `Checkout`, `ReleaseEntry`, `SlotStep` (a
  turn of acquireSlot), `ObtainStart`, `FactoryDone`, `SweepWalk`, `Drain`, and so on. An entry's id is the
  position of its creation; `table` keeps every entry ever created, so that disposal can be counted.
- **The objects** (`HeapIdleList`, `HeapPool`, `HeapMutex`, `HeapBreaker`, `NaiveScan`). Classes with the
  program's own fields: entries chained by `prev` and `next`, maps, counters, the waiter array.
  `Represents(p)` says that the object stands for the value p. Every method says: an object that stands
  for p stands afterwards for what the method's function makes of p. p is a ghost argument; no method
  computes with it.
- **The protocol** (`Protocol` and the modules named `Protocol...`). Any number of acquires in flight, each
  at a phase between two awaits, and 22 kinds of steps that the event loop may take next, in any order:
  call, begin of obtain, answer of validate (also a throw), end of a disposal, wake-up, factory success and
  failure, checkout, release by handle and by key, timeout, sweep, drain, its completion, start, key-state
  collection, breaker transitions, passing of time. What a drain awaits are promises of its own
  (`AwaitModel`): the disposal of an entry, or a resolver in the entry's disposeWaiters, pushed once in each
  of its loops. `ProtocolResidents.AnyInv` is proved to survive every step, `ProtocolInvariant.Inv` every safe
  one (see below), and the theorems are about every state that such a run reaches.
- **Outcomes** (`ProtocolOutcomes`, `ProtocolCauses`, `ProtocolStatistics`, `ProtocolTimes`, `ProtocolBreakers`,
  `BreakerHistory`). What each step has to do, told without the functions that do it: from counts over the
  acquires, from the maps, from the steps taken so far. `PoolRecords` follows the record of one entry through
  every function.
- **Clients** (`HeapClient`, `HeapBreakerClient`). Programs that drive an object through whole runs: one resource
  from creation to eviction, two that are released at different times, the loop of the benchmark over the pool and
  the full-scan pool side by side, and failing and succeeding calls under a breaker that the pool listens to.

`PoolInvariant` and `PoolBulk` prove that each function keeps the invariant of the pool value, for any
argument; `PoolTheorems` says what that invariant means to a user. `PoolResidents` does the same for the weaker
invariant that also survives a drain between obtain and checkout.

## What is assumed of the callers, and that it must be

Most claims hold on every run (`Attainable`): exclusion and call order, single creation, the waiter discipline,
the traffic equations, reservations, references against handles, who may dispose, dispose-once, the outcome of
every acquire and waiter, the release times, the breakers of the keys, and everything about closing and draining
but for the idle list. Four claims are false on some runs, each with a run that shows it: that no handle is
yanked, the ceiling, the promise to parked acquires, and that the idle list holds the live entries that nobody
holds (with the statistics and the LRU order that rest on it; also, acquire events less release events are the
unreleased handles, `ProtocolWitnesses.DrainCanHushRelease`). The first four assumptions below are what these
need, and each is proved to be exactly the right one; the last three are only stated.

- **Drain while an idle entry is chosen.** drain looks at reference counts only, so it disposes an idle
  entry that obtain has chosen and acquire has not checked out yet. A drain yanks nothing, now or later, if
  and only if no acquire has an idle entry in hand (`ProtocolHazards.DrainSafeIsExact`); a six-step run from
  the empty pool hands out a dead resource (`ProtocolWitnesses.DrainCanYank`). More follows: its release puts
  the dead entry on the idle list, where no map leads to it (`DrainCanSpoilIdle`), and the eviction of that
  node deletes the live entry of the same key from the map (`DrainCanUnlist`), or frees no slot and grants one
  all the same (`DrainCanOverflow`).
- **Last release of a condemned entry.** After a resurrection a handle can be yanked by a release, too
  (`ReleaseSafeIsExact`, `ReleaseCanYank`). Runs in which both assumptions hold are called safe; every run
  without drain is (`WithoutDrainIsSafe`).
- **start() of a closed pool.** The capacity gate does not count orphans: the ceiling survives start(), now
  and later, if and only if start() finds no orphan (`StartClearIsExact`, `StartCanOverflow`). The last release
  of a condemned entry frees a slot and wakes nobody: the promise to parked acquires survives start(), on every
  safe continuation, if and only if start() finds neither an entry nor an orphan
  (`ProtocolStarts.StartFreshIsExact`, `StartCanStrand`). A start() that waits for the drains finds neither
  (`ProtocolTheorems.WaitingIsFresh`), nor does one right after the drain of a pool that was all idle.
- **A validate that throws does no harm.** When its acquire leaves, the entry becomes evictable and nobody is
  woken. The promise to parked acquires survives if and only if the pool owes them nothing, the entry stays
  out of reach, or more acquires were coming than there was slack: then on every safe continuation, and if not,
  already at that moment (`ThrowIsExact`, `ThrowCanStrand`). Runs in which every start() and every throw is
  of the right kind are called careful.
- **max >= 1** for the ceiling. Otherwise nothing is reserved (packages/core/src/pool.ts:414) but `reserved`
  is still decremented (packages/core/src/pool.ts:398); `UnboundedReservations` says what it then holds.
- **release(key)** consumes one unreleased handle of its target.
- **The clock does not go backwards**, and callbacks do not call the pool.
- The checkout of an acquire runs before the next obtain of its key, as promise reactions run in order
  (packages/core/src/pool.ts:647-661): the step `Finish` settles the mutex and checks out.

Where the code and its comments disagree the model follows the code. The comment on the breaker
(packages/core/src/breakers.ts:29-34) lists four edges; a call admitted before the breaker tripped also closes
an open breaker by its success, and decides a half-open one in place of the probe
(`BreakerModel.EdgesUnderOverlap`, `LateCallsDecide`). The comment on gcKeyState
(packages/core/src/pool.ts:664-669) has it drop idle mutex cells; there never is one
(`ProtocolMutex.GcFindsNothing`).

## Model

| member | source | states |
|---|---|---|
| ProtocolTheorems.CapacityCeiling | packages/core/src/pool.ts:106-110 | over every safe run whose start() calls found no orphan, entries, orphans and acquires between the gate and insertion or failure never exceed max, and `reserved` is the number of the latter |
| ProtocolTheorems.WaitingIsFresh | packages/core/src/pool.ts:232-246 | on every run that begins with a closed pool or one without orphans, a start() that waits for every drain finds an open pool or nothing resident, and no orphan in either case |
| ProtocolTheorems.UnboundedReservations | packages/core/src/pool.ts:398-414 | on every run with max <= 0 the reservation counter is minus the number of finished creations, so it is right if and only if nothing was ever created or failed and nobody is at the factory |
| ProtocolTheorems.NoLostWakeup | packages/core/src/pool.ts:413-474 | on every safe and careful run, while an acquire is parked in an open pool, free slots plus idle entries are at most waiters woken but not run again, idle entries an acquire is about to use, and acquires replacing an invalid entry |
| ProtocolTheorems.NobodyWaitsInVain | packages/core/src/pool.ts:403-431 | on the same runs, if all acquires in flight are parked or at the factory, the pool has exactly max entries and reservations, and every entry is in use |
| ProtocolTheorems.NeverYanked | packages/core/src/pool.ts:290-330 | an entry's refCount is the number of its unreleased handles, and one with a handle is resident, live and was never passed to the user's dispose |
| ProtocolTheorems.WhoMayDispose | packages/core/src/pool.ts:490-527 | on every run, for every step of every kind: an entry leaves the live state only by LRU or TTL when it is on the idle list, nobody holds it and no acquire of its key is in flight, by its own failed validation while nobody holds it and every other acquire of the key is queued, by the last release of a condemned entry, or by drain when it is the live entry of its key and nobody holds it |
| ProtocolOutcomes.CallDecides | packages/core/src/pool.ts:158-165 | on every run, a call takes the live entry of its key at once if and only if somebody holds it, and queues otherwise |
| ProtocolOutcomes.ObtainDecides | packages/core/src/pool.ts:332-365 | on every run, obtain of a resident key: a live entry that nobody holds goes to validate if there is one, any other live entry is what its acquire gets, an orphan becomes the live entry again and is what it gets, and with neither a closed pool refuses |
| ProtocolOutcomes.ValidationDecides | packages/core/src/pool.ts:336-343 | on every run, a failed validation gives the entry to disposal, leaves it in neither map nor on the idle list, and makes its acquire wait for that disposal; a passed one is what its acquire gets, and only the hit is counted |
| ProtocolOutcomes.InvalidIsNeverOffered | packages/core/src/pool.ts:337-339 | on every run, and however it goes on, no acquire validates, resolves to or returns a handle on an entry after its validation failed; whoever has a handle on it had it before |
| ProtocolOutcomes.NeverOffered | packages/core/src/pool.ts:332-361 | over any run, whatever has left the live state is offered to nobody who had not been offered it before |
| ProtocolOutcomes.OfferedIsOfItsKey | packages/core/src/pool.ts:332-402 | on every run, the entry that an acquire validates, has resolved to or has returned a handle on is one of the acquire's key |
| ProtocolOutcomes.GateDecides | packages/core/src/pool.ts:413-466 | on every run, a turn at the gate refuses an acquire as exhausted if and only if the pool is open, entries and reservations take all max slots, no idle entry of a key without acquires is left, and maxWaiters acquires, not more, are parked; with fewer it parks, behind all others; with a slot or a victim it goes on to the factory |
| ProtocolCauses.FailsExactlyFor | packages/core/src/pool.ts:332-474 | on every run, for each of the five errors: an acquire comes to fail with it in a step if and only if that step is its cause, such as a turn at the gate of a full pool, the resumption after a timeout, or the failure of its own factory call |
| ProtocolCauses.EndsAsResolved | packages/core/src/pool.ts:158-173 | an acquire throws the error it was refused with, or returns a handle on the entry it resolved to |
| ProtocolCauses.WaiterSettledBy | packages/core/src/pool.ts:451-483 | on every run, a waiter is timed out only by its own timeout, turned away only by a drain, and woken only by a release, a failed factory call or a sweep; a timeout settles its waiter and a drain every one |
| ProtocolCauses.ReleaseWakesOne | packages/core/src/pool.ts:313-330 | on every run, a release takes the oldest waiter out of the array if it puts its entry on the idle list, and nobody otherwise |
| ProtocolCauses.FailureWakesOne | packages/core/src/pool.ts:434-437 | on every run, a factory failure gives one reservation back and wakes the oldest waiter |
| ProtocolCauses.EvictedIsCounted | packages/core/src/pool.ts:421-427 | on every safe run, the eviction counter grows by the number of entries that the gate or a sweep gives to disposal and of held entries that a drain condemns, and by no other step; the gate takes at most one, from a full pool, and that the least recently used |
| ProtocolStatistics.StatisticsAreExact | packages/core/src/pool.ts:158-173 | on every run, for every step: created counts insertions, disposed ends of disposals, hits the acquires given an entry that was there, misses those whose obtain found neither entry nor orphan in an open pool, acquires the handles returned, releases those released before the entry was disposed; each by one, and nothing else |
| ProtocolTimes.ReleaseTimeIsExact | packages/core/src/pool.ts:313-321 | on every run, lastReleasedAt of an entry is the time of the step that last took its refCount from one to zero, or of its creation if no step has |
| ProtocolTimes.SweepIsByTime | packages/core/src/pool.ts:504-527 | after any safe run, a sweep at t disposes exactly the live entries that nobody holds, that nobody has held since t - idleTtlMs, and of whose key no acquire is in flight, all taken from the run and not from the entry's fields; every other entry stays as it is |
| ProtocolTimes.StepMoves | packages/core/src/pool.ts:290-330 | every step sets the time of an entry only where it takes the last reference, changes no key and brings nothing back to life |
| ProtocolHazards.DrainSafeIsExact | packages/core/src/pool.ts:262-266 | drain never leads to a handle on a disposed entry, whatever safe steps follow, if and only if no acquire has chosen an idle entry |
| ProtocolHazards.ReleaseSafeIsExact | packages/core/src/pool.ts:322-324 | a release never leads to one if and only if it is not the last of a condemned entry that another acquire is about to check out |
| ProtocolHazards.StartClearIsExact | packages/core/src/pool.ts:350-361 | the ceiling holds for ever after start() if and only if there is no orphan at that moment |
| ProtocolStarts.StartFreshIsExact | packages/core/src/pool.ts:232-234 | after start() on a closed pool the promise to parked acquires holds on every safe and careful continuation if and only if entries and orphans are both empty at that moment, provided that acquires can park at all |
| ProtocolHazards.ThrowIsExact | packages/core/src/pool.ts:335-347 | when an acquire whose validate threw leaves, whatever happened since the throw, the promise to parked acquires survives, then and on every safe and careful continuation, if and only if the pool owes them nothing, the entry does not become evictable, or more were coming than there was slack |
| ProtocolHazards.WithoutDrainIsSafe | packages/core/src/pool.ts:254-288 | any run from the empty pool without a drain is safe |
| ProtocolWitnesses.DrainCanYank | packages/core/src/pool.ts:254-288 | a concrete run from the empty pool in which drain disposes an entry whose handle is then handed out |
| ProtocolWitnesses.ReleaseCanYank | packages/core/src/pool.ts:313-324 | a concrete run in which the last release of a resurrected entry does so |
| ProtocolWitnesses.DrainCanSpoilIdle | packages/core/src/pool.ts:314-326 | the release of that handle leaves an idle node that neither map leads to |
| ProtocolWitnesses.DrainCanUnlist | packages/core/src/pool.ts:490-500 | and a later eviction of that node takes the live entry of its key out of the map while it is in use, and grants its slot a second time |
| ProtocolWitnesses.DrainCanOverflow | packages/core/src/pool.ts:421-427 | or that eviction frees no slot: a run with max 1 that ends with an entry in use and a reservation, although its start() found no orphan |
| ProtocolWitnesses.DrainCanHushRelease | packages/core/src/pool.ts:313-316 | if the disposal ends before that release, the release is ignored: no handle is left, but one acquire event more than release events |
| ProtocolWitnesses.DisposeMeetsDisposing | packages/core/src/pool.ts:529-532 | a concrete run in which an acquire disposes what a drain is disposing already, without a second call of the user's dispose |
| ProtocolWitnesses.StartCanOverflow | packages/core/src/pool.ts:232-235 | a concrete run with max 1 that ends with an orphan and a reservation |
| ProtocolWitnesses.StartCanStrand | packages/core/src/pool.ts:322-324 | a concrete run whose start() finds no orphan and which ends with the only acquire in flight parked in front of an empty open pool |
| ProtocolWitnesses.ThrowCanStrand | packages/core/src/pool.ts:336 | a concrete run that ends with the only acquire in flight parked next to an idle entry that nothing keeps |
| ProtocolShutdown.DrainEndToEnd | packages/core/src/pool.ts:254-288 | on every run, also when drain meets an acquire between obtain and checkout: all that is resident when drain is called has been disposed, once, when that drain completes, and without a start() in between nothing is left in entries or orphans |
| ProtocolShutdown.DrainAwaitsAll | packages/core/src/pool.ts:260-279 | on every run drain can be called, and the entries whose promises it awaits are exactly the resident ones at its call |
| ProtocolShutdown.PromiseIsDisposal | packages/core/src/pool.ts:529-562 | on every run, a promise that a drain awaits has resolved if and only if its entry has been disposed |
| ProtocolShutdown.DrainCompletesIff | packages/core/src/pool.ts:286 | on every run, all promises of a drain have resolved if and only if all entries it awaits have been disposed |
| ProtocolShutdown.DrainIsComplete | packages/core/src/pool.ts:286-287 | on every run, whatever a completed drain awaited has been disposed, once |
| ProtocolShutdown.DrainLeavesNothing | packages/core/src/pool.ts:286-287 | on every run, a closed pool with a drain completed since the last start() has no entry and no orphan; on safe runs no resource is live |
| ProtocolShutdown.DrainCanComplete | packages/core/src/pool.ts:557-562 | no hang, on any run, also when the pool was started meanwhile: all promises of a drain have resolved as soon as no handle is unreleased and no disposal is in flight |
| ProtocolShutdown.ClosedPool | packages/core/src/pool.ts:696-704 | on every run, closed implies every resident entry condemned and with an unreleased handle, and no waiter unsettled; on safe runs also the idle list empty |
| ProtocolShutdown.ClosedAdmitsNothing | packages/core/src/pool.ts:380-384 | whatever its state, a closed pool stays closed and creates no entry in any step but start(); a late factory result goes to disposal and its acquire is told the pool is closed |
| ProtocolShutdown.ClosedStaysEmptyHanded | packages/core/src/pool.ts:365-384 | on any run without start() a closed pool stays closed and creates nothing |
| ProtocolWaiters.RunIsDisciplined | packages/core/src/pool.ts:469-483 | over every run a settled waiter keeps its outcome, and a woken waiter never leaves an older one waiting |
| ProtocolWaiters.StepIsDisciplined | packages/core/src/pool.ts:476-483 | no step settles a waiter twice or wakes one past an older one |
| ProtocolWaiters.WaiterDiscipline | packages/core/src/pool.ts:451-474 | on every run the waiter array holds exactly the unsettled waiters, each of a parked acquire of its own, in park order and at most maxWaiters; wakes were given in park order |
| ProtocolLedgers.PerKeyExclusion | packages/core/src/pool.ts:639-662 | on every run, at most one acquire per key is inside obtain, and obtain bodies of a key begin in call order |
| ProtocolLedgers.SingleCreation | packages/core/src/pool.ts:363-403 | on every run, no acquire is parked, reserving, at the factory or disposing late for a resident key, no two for one key, and live and orphaned keys are disjoint |
| ProtocolLedgers.TrafficLedger | packages/core/src/pool.ts:161-169 | on every run, checkouts are hits plus created less those resolved and not checked out; misses are created plus failed plus in flight; total refCount is acquire events less release events; pending counts the acquires in flight per key, and with a bound `reserved` those between the gate and insertion or failure |
| ProtocolLedgers.ReferencesAreHandles | packages/core/src/pool.ts:290-324 | on every run, the refCount of an entry not yet disposed is the number of its unreleased handles; a live condemned entry has one, an idle one has none, and both maps lead to live entries only |
| ProtocolLedgers.DisposedAtMostOnce | packages/core/src/pool.ts:529-555 | on every run, dispose was called once on each resource that is not live and never on a live one, and created counts live, being disposed and disposed |
| ProtocolLedgers.EventsAreHandles | packages/core/src/pool.ts:290-318 | acquire events less release events is the number of unreleased handles |
| ProtocolLedgers.BreakerInUseIsKept | packages/core/src/pool.ts:600-610 | on every run, a factory call in flight runs under the breaker that the map has for its key, or the shared one |
| ProtocolBreakers.BreakersExactly | packages/core/src/pool.ts:629-637 | on every run, a key gets a breaker, new and closed, exactly by a factory call when it has none; it keeps that very breaker; and it loses it only in the collection or at the end of a disposal of its own key, and there if and only if the breaker is closed, the key in neither map and none of its acquires in flight |
| ProtocolBreakers.TrippedIsKept | packages/core/src/pool.ts:624-637 | over any run in which a tripped breaker does not close, its key keeps it, whatever is disposed or collected, and every later factory call for the key runs under it |
| ProtocolBreakers.EachKeyItsOwn | packages/core/src/pool.ts:600-610 | on every run no two keys share a breaker, and none has the shared one |
| ProtocolBreakers.CallUsesBreaker | packages/core/src/pool.ts:600-610 | a factory call runs under the breaker that the map has for its key from then on, or the shared one |
| ProtocolBreakers.StateIsItsOwn | packages/core/src/pool.ts:629-637 | no step but a transition of its own changes whether a breaker is closed |
| ProtocolLedgers.ReachablePool | packages/core/src/pool.ts:180-198 | at every state of a safe run the statistics are a full scan, created counts resident, being disposed and disposed, dispose was called once on those that left and never on a resident one, and the LRU victim is that of a full scan |
| ProtocolResidents.AnyStepKeeps | packages/core/src/pool.ts:158-403 | every step, safe or not, keeps the mutex, ledger, waiter, breaker, disposal and drain parts of the invariant, what is resident, what each acquire in flight relies on, and what a closed pool awaits |
| ProtocolResidents.AnyRunKeeps | packages/core/src/pool.ts:158-403 | so does every run |
| ProtocolClosing.GuardsCutNothing | packages/core/src/pool.ts:332-403 | on every run, obtain can begin as soon as no older acquire of the key is in flight, and an acquire can take each later step as soon as its phase is right and what it awaits has happened: the model cuts no step off |
| ProtocolSteps.StepKeeps | packages/core/src/pool.ts:158-403 | every safe step keeps the whole invariant of the protocol |
| ProtocolSteps.RunKeeps | packages/core/src/pool.ts:158-403 | so does every safe run |
| ProtocolCapacity.StepKeepsCap | packages/core/src/pool.ts:413-431 | every step but a start() that finds orphans keeps the ceiling and keeps an open pool free of orphans |
| ProtocolWakeups.StepKeepsLively | packages/core/src/pool.ts:313-330 | every safe and careful step keeps the promise to parked acquires |
| ProtocolMutex.Exclusion | packages/core/src/pool.ts:639-662 | two acquires of a key past their queueing are the same |
| ProtocolMutex.StartsInCallOrder | packages/core/src/pool.ts:647-651 | whoever is first of its cell has no older acquire of its key in flight |
| ProtocolMutex.EnterKeeps | packages/core/src/pool.ts:639-651 | chaining a call keeps the mutex invariant, with an old or a new cell |
| ProtocolMutex.SettledKeeps | packages/core/src/pool.ts:652-660 | settling keeps it, also when it deletes the cell |
| ProtocolMutex.GcFindsNothing | packages/core/src/pool.ts:670-677 | the periodic collection never finds a mutex cell to delete |
| Protocol.ReleaseKeyIsRelease | packages/core/src/pool.ts:175-178 | release(key) that consumes a handle of its target has the effect of that handle's release |
| PoolTheorems.LruIsFullScan | packages/core/src/pool.ts:490-502 | takeLruIdle's victim is the answer of a scan of all entries for the first appended among those nobody holds and no acquire wants, and there is none if and only if the scan finds none |
| PoolTheorems.LruKeepsOrder | packages/core/src/pool.ts:490-502 | taking the victim leaves the rest of the list in its order, and what stood before it is pending |
| PoolTheorems.SweepIsFullScan | packages/core/src/pool.ts:504-527 | the walk that stops at the first young node evicts and disposes exactly the entries a scan of the table finds idle since the cutoff and unwanted, and leaves every other as it was |
| PoolTheorems.StatsAreFullScan | packages/core/src/pool.ts:180-198 | idle and inUse are what a scan by refCount finds |
| PoolTheorems.ResourceLedger | packages/core/src/pool.ts:529-555 | created is entries plus orphans plus disposals in flight plus disposed; dispose was called once on each resource that left and never on a resident one |
| PoolBulk.SweepIsFilter | packages/core/src/pool.ts:510-525 | the rest of the walk is a filter of the rest of the list that keeps its order, wakes one waiter per evicted entry while there is one, and keeps the invariant |
| PoolBulk.CloseSettlesAll | packages/core/src/pool.ts:696-704 | closing settles exactly the unsettled waiters, as closed, and empties the array |
| PoolBulk.DrainForm | packages/core/src/pool.ts:254-284 | drain in closed form: idle entries are being disposed, held ones are condemned orphans, all else is untouched |
| PoolBulk.DrainKeeps | packages/core/src/pool.ts:254-284 | drain keeps the invariant of the pool |
| PoolBulk.DrainResetIsNoOp | packages/core/src/pool.ts:281-284 | the first loop has emptied the idle list before it is reset |
| PoolDrain.DrainNext | packages/core/src/pool.ts:262-274 | one turn of the first loop takes the drain of some keys to the drain of one key more, in any order of the keys |
| PoolDrain.CondemnNext | packages/core/src/pool.ts:276-279 | the same for the second loop |
| PoolInvariant.CheckoutKeeps | packages/core/src/pool.ts:290-303 | a checkout of a live entry keeps the invariant of the pool |
| PoolInvariant.ReleaseKeeps | packages/core/src/pool.ts:313-330 | a release of any entry keeps it |
| PoolInvariant.SlotKeeps | packages/core/src/pool.ts:413-431 | a turn at the gate keeps it |
| PoolInvariant.MissKeeps | packages/core/src/pool.ts:350-368 | obtain without a usable live entry keeps it: resurrection, refusal, or the gate |
| PoolInvariant.InsertKeeps | packages/core/src/pool.ts:386-402 | an insertion under a key not resident keeps it |
| PoolInvariant.InvalidKeeps | packages/core/src/pool.ts:337-339 | removing and disposing an entry that nobody holds keeps it |
| PoolInvariant.FinishDisposeKeeps | packages/core/src/pool.ts:540-542 | the end of a disposal keeps it |
| PoolInvariant.EvictKeeps | packages/core/src/pool.ts:422-426 | evicting an idle live entry keeps it |
| PoolInvariant.SettleKeeps | packages/core/src/pool.ts:476-483 | settling a waiter keeps it |
| HeapIdleList.IdleList.Append | packages/core/src/pool.ts:573-582 | appends at the tail unless listed; the links form the new list |
| HeapIdleList.IdleList.Remove | packages/core/src/pool.ts:585-596 | unlinks the entry wherever it is; the links form the list without it |
| HeapIdleList.IdleList.Reset | packages/core/src/pool.ts:281-284 | resetting an empty list changes no field |
| HeapIdleList.WalksAgree | packages/core/src/pool.ts:27-35 | walking next from the head and prev from the tail give a sequence of `count` distinct entries and its reverse, however far one walks, and meet exactly the flagged entries |
| HeapTheorems.IdleListIsRight | packages/core/src/pool.ts:27-35 | the walked and flagged entries are exactly the live ones that nobody holds, in the order of their release |
| HeapTheorems.StatsMatchScan | packages/core/src/pool.ts:180-185 | idleCount and the inUse computed from it are what scans of the two maps by refCount find |
| HeapPool.RefCountedLruPool.GetStats | packages/core/src/pool.ts:180-198 | every field of the statistics: sizes of the represented maps, list and queue, the counters, and how often each state occurs among all that the breakers have told the pool |
| HeapPool.RefCountedLruPool.IncPending | packages/core/src/pool.ts:716-718 | one more acquire of the key is in flight |
| HeapPool.RefCountedLruPool.DecPending | packages/core/src/pool.ts:720-724 | one less, and a count of zero leaves the map |
| HeapPool.RefCountedLruPool.IdleAppend | packages/core/src/pool.ts:573-582 | takes the represented value to its IdleAppend |
| HeapPool.RefCountedLruPool.IdleRemove | packages/core/src/pool.ts:585-596 | takes it to its IdleRemove |
| HeapPool.RefCountedLruPool.Checkout | packages/core/src/pool.ts:290-303 | takes it to its Checkout and returns a new unreleased handle on the entry |
| HeapPool.RefCountedLruPool.ReleaseEntry | packages/core/src/pool.ts:313-330 | takes it to its ReleaseEntry: ignored, counted down, idle and waking, or disposed |
| HeapPool.RefCountedLruPool.Release | packages/core/src/pool.ts:175-178 | takes it to its ReleaseByKey: the live, else the orphaned entry, else nothing |
| HeapPool.AcquireHandle.Release | packages/core/src/pool.ts:294-302 | releases the first time and does nothing ever after |
| HeapPool.RefCountedLruPool.RemoveEntry | packages/core/src/pool.ts:564-568 | takes it to its RemoveEntry, by identity of the entry |
| HeapPool.RefCountedLruPool.Dispose | packages/core/src/pool.ts:529-532 | takes it to its Dispose: the user's dispose is called only the first time |
| HeapPool.RefCountedLruPool.FinishDispose | packages/core/src/pool.ts:540-542 | takes it to its FinishDispose |
| HeapPool.RefCountedLruPool.SettleWaiter | packages/core/src/pool.ts:476-483 | settles an unsettled waiter and splices it out; leaves a settled one alone |
| HeapPool.RefCountedLruPool.WakeCapacityWaiter | packages/core/src/pool.ts:469-474 | wakes the oldest waiter, if any |
| HeapPool.RefCountedLruPool.SetClosed | packages/core/src/pool.ts:696-704 | closes, settles every parked waiter as closed, and terminates |
| HeapPool.RefCountedLruPool.TakeLruIdle | packages/core/src/pool.ts:490-502 | finds and detaches the first idle entry that is not pending, or finds none and changes nothing |
| HeapPool.RefCountedLruPool.AcquireSlot | packages/core/src/pool.ts:413-431 | takes the represented value to its SlotStep: unbounded, refused, free slot, displaced victim, full queue, or parked with a new waiter that is in the array |
| HeapPool.RefCountedLruPool.WaitForCapacity | packages/core/src/pool.ts:451-466 | refuses when maxWaiters is reached, else appends a new waiter |
| HeapPool.RefCountedLruPool.ReleaseReservation | packages/core/src/pool.ts:434-437 | gives the reservation back and wakes the oldest waiter |
| HeapPool.RefCountedLruPool.Sweep | packages/core/src/pool.ts:504-527 | the walk over the live links does what SweepWalk does over the list |
| HeapPool.RefCountedLruPool.Acquire | packages/core/src/pool.ts:158-165 | acquire up to its first await; on the fast path it returns a new unreleased handle |
| HeapPool.RefCountedLruPool.Finish | packages/core/src/pool.ts:167-172 | checkout and the `finally` of acquire; it returns a new unreleased handle on the entry |
| HeapPool.RefCountedLruPool.Obtain | packages/core/src/pool.ts:332-348 | obtain up to its first await; the entry or waiter it ends with belongs to the pool |
| HeapPool.RefCountedLruPool.ObtainMiss | packages/core/src/pool.ts:350-368 | resurrection, refusal when closed, or the gate |
| HeapPool.RefCountedLruPool.AfterValidate | packages/core/src/pool.ts:336-343 | obtain after the answer of validate |
| HeapPool.RefCountedLruPool.AfterWait | packages/core/src/pool.ts:429-431 | acquireSlot after its waiter was settled |
| HeapPool.RefCountedLruPool.AfterFactory | packages/core/src/pool.ts:378-403 | obtain after the factory delivered: inserted as a new entry of the pool, or given back when closed |
| HeapPool.RefCountedLruPool.Insert | packages/core/src/pool.ts:386-402 | the new entry is in the map, at the tail of the list, and counted |
| HeapPool.RefCountedLruPool.Drain | packages/core/src/pool.ts:254-284 | takes the represented value to its Drain, and collects exactly the resident entries to await |
| HeapPool.RefCountedLruPool.DrainEntry | packages/core/src/pool.ts:262-274 | one turn of the first loop |
| HeapPool.RefCountedLruPool.CondemnOrphan | packages/core/src/pool.ts:276-279 | one turn of the second loop |
| HeapPool.RefCountedLruPool.Start | packages/core/src/pool.ts:232-234 | reopens |
| HeapClient.Take | packages/core/src/pool.ts:158-173 | an acquire that neither validates nor waits, from its call to its handle, does to any represented pool what the segments composed do |
| HeapClient.OneLife | packages/core/src/pool.ts:158-198 | a new object driven through acquire, factory, checkout, release and sweep: its statistics at the end, by whether the TTL had passed |
| HeapClient.TwoReleases | packages/core/src/pool.ts:504-527 | two keys taken together, released at two times and swept at a third: each is gone if and only if its own release is idleTtlMs ago, and the statistics count so |
| HeapClient.Benchmark | benchmarks/eviction-throughput/src/index.ts:91-102 | after acquiring and releasing any sequence of keys, the pool object and the full-scan object hold the same keys, min(max, distinct keys) of them |
| HeapMutex.KeyedMutex.RunExclusive | packages/core/src/pool.ts:639-651 | chains the call on the key's cell, made on demand |
| HeapMutex.KeyedMutex.Settle | packages/core/src/pool.ts:652-660 | the oldest call leaves, and an empty cell leaves the map if it is still the one there |
| HeapMutex.KeyedMutex.CollectCells | packages/core/src/pool.ts:670-677 | drops the idle cells older than the cutoff, in any order |
| NaiveScan.NaiveScanPool.Acquire | benchmarks/eviction-throughput/src/index.ts:63-88 | the full-scan pool after an acquire: the key used last, and on overflow the key used longest ago gone |
| NaiveScan.NaiveScanPool.ScanForOldest | benchmarks/eviction-throughput/src/index.ts:70-77 | the scan finds the key with the smallest use number |
| NaiveRefinement.PoolIsNaive | benchmarks/eviction-throughput/src/index.ts:59-89 | on every run that makes one acquire at a time and releases it, with time, ends of disposals, collections and breakers anywhere in between its steps, whenever no acquire is on its way to an entry the pool holds the keys of the full-scan pool, min(max, distinct keys) of them |
| NaiveRefinement.SameVictim | packages/core/src/pool.ts:413-431 | on every such run of one use, the same key is evicted from both, or from neither |
| NaiveRefinement.SerialKeeps | packages/core/src/pool.ts:158-173 | every step of such a run keeps the two pools in step |
| NaiveRefinement.UseAdvances | packages/core/src/pool.ts:158-173 | an acquire under way can always take its next step, which brings it nearer to its release |
| NaiveRefinement.AnyKeysRun | benchmarks/eviction-throughput/src/index.ts:91-102 | every sequence of keys has such a run |
| NaiveOrder.UseKeeps | benchmarks/eviction-throughput/src/index.ts:63-88 | the use of a key keeps two numberings in the same order, whatever the numbers are |
| NaiveOrder.UsesCount | benchmarks/eviction-throughput/src/index.ts:63-88 | the full-scan pool holds min(max, distinct keys) keys |
| HeapBreaker.BreakerStats.Hear | packages/core/src/pool.ts:614-616 | the counters are the tally of all that was told, whichever breakers told it |
| HeapBreaker.InMemoryCircuitBreaker.Begin | packages/core/src/breakers.ts:65-80 | exec up to the action, as Admit says; the listener hears of a change of state, once, and of nothing else |
| HeapBreaker.InMemoryCircuitBreaker.OnSuccess | packages/core/src/breakers.ts:92-98 | a call has succeeded, as the function of that name says; the same of the listener |
| HeapBreaker.InMemoryCircuitBreaker.OnFailure | packages/core/src/breakers.ts:100-111 | a call has failed; the same |
| HeapBreaker.InMemoryCircuitBreaker.Transition | packages/core/src/breakers.ts:113-117 | the new state, told to the listener if it is one |
| HeapBreakerClient.Trip | packages/core/src/pool.ts:614-616 | after the failures that trip a new breaker, the statistics of its pool show one change, to open, and the next call is admitted if and only if the cooldown is over and a probe is allowed |
| HeapBreakerClient.Recover | packages/core/src/breakers.ts:92-111 | failures, one less than trip a new breaker, a success, and as many failures again: the breaker has not tripped, its pool heard nothing, and the next call is admitted |
| BreakerModel.AdmissionAfterTrip | packages/core/src/breakers.ts:65-73 | after a failure at t that left the breaker open, an action that starts at u has u - t >= cooldownMs, or some call succeeded in between, whatever calls overlap |
| BreakerModel.OpenedAtGrows | packages/core/src/breakers.ts:100-111 | openedAt is never in the future and never decreases, on any run from a state where it is not in the future |
| BreakerModel.OpenedAtIsExact | packages/core/src/breakers.ts:38 | from a new breaker it never falls below its first value, 0, if and only if the clock does not start below 0 |
| BreakerModel.HalfOpenAccounting | packages/core/src/breakers.ts:75-80 | in half-open the attempts are the probes in flight of this episode, between 1 and the maximum |
| BreakerModel.HalfOpenEnds | packages/core/src/breakers.ts:82-98 | in half-open a probe is in flight, and whichever call settles ends the state |
| BreakerModel.WedgeIsExact | packages/core/src/breakers.ts:66-80 | the first exec after the cooldown leaves the breaker half-open with nothing in flight if and only if no probe is allowed and no earlier call is in flight |
| BreakerModel.WedgedForEver | packages/core/src/breakers.ts:75-79 | then it stays half-open and refuses every call for ever |
| BreakerModel.CountDecides | packages/core/src/breakers.ts:92-111 | closed if and only if failures < failureThreshold in every reachable state, if and only if failureThreshold >= 1 |
| BreakerHistory.CountIsStreak | packages/core/src/breakers.ts:92-111 | on every run under any overlap, while closed the counter is the number of failures settled since the last success, as counted from the steps |
| BreakerHistory.TripIsExact | packages/core/src/breakers.ts:100-111 | on every run, a closed breaker trips in a step if and only if the step is a failure and the last failureThreshold calls to settle have failed, with no success among them |
| BreakerHistory.OpenedAtLastFailure | packages/core/src/breakers.ts:100-111 | on every run, while not closed, openedAt is the time of the last failure |
| BreakerHistory.AdmissionIsExact | packages/core/src/breakers.ts:65-80 | on every run the next call is admitted if and only if the breaker is closed, or open with the last failure cooldownMs ago and a probe allowed, or half-open with fewer probes of the episode in flight than allowed |
| BreakerModel.EdgesUnderOverlap | packages/core/src/breakers.ts:29-34 | under any overlap a step takes no documented edge, the half-open ones being those of a probe of this episode, if and only if a call admitted before the last trip settles and takes open to closed by success, half-open to closed by success, or half-open to open by failure |
| BreakerModel.LateCallsDecide | packages/core/src/breakers.ts:82-111 | concrete runs on which all three occur |
| BreakerModel.EdgesWithoutOverlap | packages/core/src/breakers.ts:29-34 | without overlapping calls, only the documented edges, the half-open ones by the probe |

## Left out

- Timers, promises and microtasks: a timeout, a sweep, a wake-up and the end of a disposal are steps that
  may happen at any time; start() and stop() arm and clear no timer.
- stop() is drain, whose first act is the same setClosed; it has no step of its own.
- The clock moves between steps; Date.now() read twice inside one step gives one value.
- Map iteration order: loops over maps take the keys in any order. takeLruIdle, the sweep and the waiters
  depend on list and array order, and that is modelled.
- User callbacks: factory, validate and dispose are steps with a free outcome. A dispose that throws counts as
  ended, as in the program. dispose of a late factory result (disposeOrphaned) ends at any time.
- A dispose, factory, validate or breaker call that calls back into the pool before it first awaits.
- Events, loggers, statistics timers and metrics; the emitter isolates a throwing listener and emits are not
  modelled. A listener of the breaker that throws would turn a success into a failure; listeners are assumed
  not to throw.
- The per-key breaker map, resolveBreaker and dropBreaker are modelled on values in the protocol, not in the
  class; the protocol lets a breaker change between closed and not closed at any time, and the breaker itself
  is modelled apart. It has one listener, the pool's.
- The promise chain of a mutex cell is the sequence of its unsettled calls.
- disposeWaiters are modelled in the protocol, not in the class: its Drain returns the entries to await.
- HeapPool.RefCountedLruPool.Drain: for a represented value whose idle list is that of its live unheld entries. After
  an unsafe drain the list may hold a node that no map leads to; the reset of the list then leaves that node
  flagged, which `IdleList.Valid` excludes.
- TypeScript numbers are integers here; Infinity and NaN as max, threshold or clock are not modelled.
- warm, warmKey, emitStats, makeInterval, the adapters, bindings, examples and the rest of the benchmark: they
  only use what is modelled.
- Fairness and time bounds: nothing says when a step happens, nor how much a step costs.
- ProtocolTheorems.NeverYanked: stated for safe runs; unsafe ones are the subject of ProtocolHazards.
- ProtocolTheorems.CapacityCeiling: stated for safe runs whose start() calls find no orphan; other start() calls are
  the subject of StartClearIsExact, and after an unsafe drain the eviction of a node that no map leads to grants a
  slot and frees none (ProtocolWitnesses.DrainCanOverflow).
- ProtocolLedgers.ReachablePool: stated for safe runs; after an unsafe one the idle list may hold a node that no map
  leads to (ProtocolWitnesses.DrainCanSpoilIdle).
- ProtocolLedgers.EventsAreHandles: stated for safe runs; after an unsafe one the release of a handle on a disposed
  entry is ignored (packages/core/src/pool.ts:314) and is no event.
- ProtocolCauses.EvictedIsCounted: stated for safe runs; after an unsafe one the evicted node may be one that is dead
  already, and is counted again.
- ProtocolTimes.SweepIsByTime: stated for safe runs; after an unsafe one the idle list may lack a live entry that
  nobody holds, and the sweep passes it by.
- PoolTheorems.ResourceLedger: stated for the invariant of safe runs, as after an unsafe one a live entry may be in
  neither map; on every run ProtocolLedgers.DisposedAtMostOnce holds.
- ProtocolTheorems.NoLostWakeup: stated for careful runs; the others are the subject of StartFreshIsExact and
  ThrowIsExact.
- NaiveRefinement.PoolIsNaive: the factory delivers, and nobody drains: a failed creation has evicted a key for which
  the full-scan pool has no counterpart.
