/** Runs of a pool of one slot in which each hypothesis is violated once, and its promise with it. */
module ProtocolWitnesses {
  import opened Counting
  import opened PoolModel
  import opened PoolInvariant
  import opened PoolBulk
  import opened PoolTheorems
  import opened MutexModel
  import opened AwaitModel
  import opened Protocol
  import opened ProtocolCounts
  import opened ProtocolCapacity
  import opened ProtocolWaiters
  import opened ProtocolTheorems

  /** One slot, unlimited waiters, no TTL, with validate. */
  const SMALL := Config(1, None, 0, true, 0, false)

  const K: Key := "k"
  const L: Key := "l"
  const M: Key := "m"

  predicate Follow(s: State, step: Step, t: State) { Enabled(s, step) && Apply(SMALL, s, step) == t }

  /** The run of these steps from the empty pool ends in t. */
  predicate Leads(steps: seq<Step>, t: State) { Run(SMALL, Init(0), steps) && End(SMALL, Init(0), steps) == t }

  lemma {:induction false} RunAppend(s: State, steps: seq<Step>, step: Step, t: State)
    requires Run(SMALL, s, steps) && Follow(End(SMALL, s, steps), step, t)
    ensures Run(SMALL, s, steps + [step]) && End(SMALL, s, steps + [step]) == t
    decreases |steps|
  {
    hide Enabled, Apply;
    if steps == [] {
      assert ([] + [step])[1..] == [];
      assert Run(SMALL, t, []) && End(SMALL, t, []) == t;
    } else {
      assert (steps + [step])[1..] == steps[1..] + [step];
      RunAppend(Apply(SMALL, s, steps[0]), steps[1..], step, t);
    }
  }

  lemma IsRun(steps: seq<Step>, t: State)
    requires Leads(steps, t)
    ensures Run(SMALL, Init(0), steps) && End(SMALL, Init(0), steps) == t
  {
  }

  lemma Then(xs: seq<Step>, s: State, step: Step, t: State) returns (ys: seq<Step>)
    requires Leads(xs, s) && Follow(s, step, t)
    ensures ys == xs + [step] && Leads(ys, t)
  {
    hide Follow;
    RunAppend(Init(0), xs, step, t);
    ys := xs + [step];
  }

  function Of(r: nat, condemned: bool, life: Life): Rec {
    Rec(K, r, 0, 0, condemned, life, One(!life.Live?))
  }

  // --- acquire 0 of k ---

  const CALLED := Pool([], map[], map[], [], 0, map[K := 1], 0, false, [], [], Counters(0, 0, 0, 0, 0, 0, 0))
  const SLOTTED := CALLED.(reserved := 1, counters := Counters(0, 0, 0, 0, 1, 0, 0))
  const INSERTED := Pool([Of(0, false, Live)], map[K := 0], map[], [0], 1, map[K := 1], 0, false, [], [],
                         Counters(1, 0, 0, 0, 1, 0, 0))
  const USED := Pool([Of(1, false, Live)], map[K := 0], map[], [], 1, map[], 0, false, [], [],
                     Counters(1, 0, 0, 0, 1, 1, 0))

  /** The cell of k while acquire 0 is in it, and afterwards. */
  const BUSY := Mutexes([Cell(K, [0], 0)], map[K := 0])
  const FREE := Mutexes([Cell(K, [], 0)], map[])

  function With(p: Pool, m: Mutexes, acqs: seq<Acq>): State {
    State(0, p, m, acqs, [], [], 0, map[], [true], 0, NO_AWAITS)
  }

  const A1 := With(CALLED, BUSY, [Acq(K, 0, Queued)])
  const A2 := With(SLOTTED, BUSY, [Acq(K, 0, Reserved)])
  const A3 := With(SLOTTED, BUSY, [Acq(K, 0, Creating(0))])
  const A4 := With(INSERTED, BUSY, [Acq(K, 0, Resolved(0))])
  const A5 := With(USED, FREE, [Acq(K, 0, Done(0, false))])

  /** Acquire 0 after its release. */
  const GONE_0 := Acq(K, 0, Done(0, true))

  const ACQUIRE_0 := [Call(K), Begin(0), CreateStart(0), CreateDone(0)]

  lemma AcquireRuns()
    ensures Follow(Init(0), Call(K), A1) && Follow(A1, Begin(0), A2) && Follow(A2, CreateStart(0), A3)
  {
  }

  lemma CreateRuns()
    ensures Follow(A3, CreateDone(0), A4)
  {
  }

  lemma CheckoutRuns()
    ensures Follow(A4, Finish(0), A5)
  {
    hide FinishOk, Settled;
    CheckoutPool();
  }

  lemma CheckoutPool()
    ensures FinishOk(INSERTED, 0, K) == USED && Settled(BUSY, 0, 0) == FREE
  {
  }

  lemma Resolved0()
    ensures Leads(ACQUIRE_0, A4)
  {
    hide Follow, Leads, A1, A2, A3, A4;
    AcquireRuns();
    CreateRuns();
    NoSteps();
    var x := Then([], Init(0), Call(K), A1);
    x := Then(x, A1, Begin(0), A2);
    x := Then(x, A2, CreateStart(0), A3);
    x := Then(x, A3, CreateDone(0), A4);
    assert x == ACQUIRE_0;
  }

  lemma NoSteps()
    ensures Leads([], Init(0))
  {
  }

  /** Its handle is handed out. */
  lemma Done0() returns (x: seq<Step>)
    ensures x == ACQUIRE_0 + [Finish(0)] && Leads(x, A5)
  {
    hide Follow, Leads, A4, A5;
    CheckoutRuns();
    Resolved0();
    x := Then(ACQUIRE_0, A4, Finish(0), A5);
  }

  // --- a drain between obtain and checkout ---

  const DRAINED := Pool([Of(0, false, Disposing)], map[], map[], [], 1, map[K := 1], 0, true, [], [],
                        Counters(1, 0, 0, 0, 1, 0, 0))
  const B5 := A4.(drains := [DrainRun({Disposal(0)}, false)], pool := DRAINED)
  const B6 := B5.(pool := DRAINED.(table := [Of(1, false, Disposing)], pending := map[],
                                   counters := Counters(1, 0, 0, 0, 1, 1, 0)),
                  mx := FREE, acqs := [Acq(K, 0, Done(0, false))])

  lemma DrainRuns()
    ensures Follow(A4, DrainStart, B5)
  {
    hide Drain, DrainedPool;
    InsertedDrained();
    InsertedWaits();
  }

  lemma InsertedWaits()
    ensures Wf(INSERTED) && Waits(INSERTED, 0) == {Disposal(0)}
    ensures StartWaits(NO_AWAITS, {Disposal(0)}) == NO_AWAITS
  {
    assert INSERTED.entries.Keys == {K};
    assert AllOrphans(INSERTED) == map[];
    assert FirstWait(INSERTED, 0, 0) == Disposal(0);
    assert K in INSERTED.entries && FirstWait(INSERTED, 0, INSERTED.entries[K]) == Disposal(0);
  }

  lemma InsertedDrained()
    ensures Wf(INSERTED) && Drain(INSERTED) == DRAINED
  {
    hide Drain, PoolInv;
    InsertedInv();
    DrainForm(INSERTED, 0);
    assert DrainedTable(INSERTED) == [Of(0, false, Disposing)];
    var held := Held(INSERTED, INSERTED.entries.Keys);
    assert held == map[];
    assert INSERTED.orphans + held == map[];
    assert Drain(INSERTED).log == [];
  }

  lemma InsertedInv()
    ensures PoolInv(INSERTED, 0)
  {
    assert forall e :: e in [0] ==> e == 0;
  }

  lemma FinishDeadRuns()
    ensures Follow(B5, Finish(0), B6)
  {
  }

  lemma DeadIsYanked()
    ensures !NotYanked(B6)
  {
    assert Outstanding(B6.acqs[0]) && !B6.pool.table[B6.acqs[0].phase.e].life.Live?;
  }

  lemma DeadHandle() returns (x: seq<Step>)
    ensures x == ACQUIRE_0 + [DrainStart, Finish(0)] && Leads(x, B6)
  {
    hide Follow, Leads, A4, B5, B6, NotYanked;
    Resolved0();
    DrainRuns();
    FinishDeadRuns();
    x := Then(ACQUIRE_0, A4, DrainStart, B5);
    x := Then(x, B5, Finish(0), B6);
    assert x == ACQUIRE_0 + [DrainStart, Finish(0)];
  }

  /** A drain between the end of obtain and the checkout: the handle is to a dead resource. */
  lemma DrainCanYank()
    ensures var steps := ACQUIRE_0 + [DrainStart, Finish(0)];
      Run(SMALL, Init(0), steps) && !NotYanked(End(SMALL, Init(0), steps))
  {
    hide Follow, Leads, B5, B6, NotYanked;
    var x := DeadHandle();
    DeadIsYanked();
    IsRun(x, B6);
  }

  // --- the rest of that run ---

  /** Its release puts the dead entry on the idle list. */
  const B7 := B6.(pool := Pool([Of(0, false, Disposing).(stamp := 1)], map[], map[], [0], 2, map[], 0, true, [], [],
                               Counters(1, 0, 0, 0, 1, 1, 1)),
                  acqs := [GONE_0])
  const B8 := B7.(pool := B7.pool.(closed := false), openedAt := 1)

  /** A second acquire of k. */
  const CELL_1 := Mutexes([Cell(K, [], 0), Cell(K, [1], 0)], map[K := 1])
  const B9 := B8.(pool := B8.pool.(pending := map[K := 1]), mx := CELL_1, acqs := [GONE_0, Acq(K, 1, Queued)])
  const B10 := B9.(pool := B9.pool.(reserved := 1, counters := Counters(1, 0, 0, 0, 2, 1, 1)),
                   acqs := [GONE_0, Acq(K, 1, Reserved)])
  const B11 := B10.(acqs := [GONE_0, Acq(K, 1, Creating(0))])
  const B12 := B11.(pool := Pool([Of(0, false, Disposing).(stamp := 1), Of(0, false, Live).(stamp := 2)],
                                 map[K := 1], map[], [0, 1], 3, map[K := 1], 0, false, [], [],
                                 Counters(2, 0, 0, 0, 2, 1, 1)),
                    acqs := [GONE_0, Acq(K, 1, Resolved(1))])
  const B13 := B12.(pool := Pool([Of(0, false, Disposing).(stamp := 1), Of(1, false, Live).(stamp := 2)],
                                 map[K := 1], map[], [0], 3, map[], 0, false, [], [],
                                 Counters(2, 0, 0, 0, 2, 2, 1)),
                    mx := Mutexes([Cell(K, [], 0), Cell(K, [], 0)], map[]), acqs := [GONE_0, Acq(K, 1, Done(1, false))])

  /** And one of l, for which the only slot is full. */
  const B14 := B13.(pool := B13.pool.(pending := map[L := 1]),
                    mx := Mutexes([Cell(K, [], 0), Cell(K, [], 0), Cell(L, [2], 0)], map[L := 2]),
                    acqs := [GONE_0, Acq(K, 1, Done(1, false)), Acq(L, 2, Queued)])
  const B15 := B14.(pool := B14.pool.(entries := map[], idle := [], reserved := 1,
                                      counters := Counters(2, 0, 1, 0, 3, 2, 1)),
                    acqs := [GONE_0, Acq(K, 1, Done(1, false)), Acq(L, 2, Reserved)])

  lemma DeadReleaseRuns()
    ensures Follow(B6, Release(0), B7) && Follow(B7, Start, B8)
  {
  }

  lemma SecondRuns()
    ensures Follow(B8, Call(K), B9) && Follow(B9, Begin(1), B10) && Follow(B10, CreateStart(1), B11)
  {
  }

  lemma SecondEnds()
    ensures Follow(B11, CreateDone(1), B12)
  {
  }

  lemma SecondCheckoutRuns()
    ensures Follow(B12, Finish(1), B13)
  {
    hide FinishOk, Settled;
    SecondPool();
    SecondCells();
  }

  lemma SecondPool()
    ensures FinishOk(B12.pool, 1, K) == B13.pool
  {
    assert Without([0, 1], 1) == [0];
  }

  lemma SecondCells()
    ensures Settled(CELL_1, 1, 0) == B13.mx
  {
  }

  lemma ThirdRuns()
    ensures Follow(B13, Call(L), B14)
  {
  }

  lemma EvictRuns()
    ensures Follow(B14, Begin(2), B15)
  {
  }

  predicate Reserving(s: State, a: nat) { a < |s.acqs| && s.acqs[a].phase.Reserved? }

  /** An entry on the idle list that no map has. */
  predicate StaleIdle(p: Pool, e: nat) { e in p.idle && e < |p.table| && !IsLive(p, e) && !IsOrphan(p, e) }

  /** The handle of acquire a is to a live entry that no map has. */
  predicate Unlisted(s: State, a: nat) {
    && a < |s.acqs| && Outstanding(s.acqs[a]) && s.acqs[a].phase.e < |s.pool.table|
    && s.pool.table[s.acqs[a].phase.e].life.Live?
    && !IsLive(s.pool, s.acqs[a].phase.e) && !IsOrphan(s.pool, s.acqs[a].phase.e)
  }

  lemma SpoiledIdle() returns (x: seq<Step>)
    ensures x == ACQUIRE_0 + [DrainStart, Finish(0), Release(0)] && Leads(x, B7)
  {
    hide Follow, Leads, B5, B6, B7;
    x := DeadHandle();
    DeadReleaseRuns();
    x := Then(x, B6, Release(0), B7);
  }

  /** The release of a dead handle leaves an idle node that no map has. */
  lemma DrainCanSpoilIdle()
    ensures var steps := ACQUIRE_0 + [DrainStart, Finish(0), Release(0)];
      Run(SMALL, Init(0), steps) && StaleIdle(End(SMALL, Init(0), steps).pool, 0)
  {
    assert StaleIdle(B7.pool, 0);
    hide Follow, Leads, B7, StaleIdle;
    var x := SpoiledIdle();
    IsRun(x, B7);
  }

  // --- or the disposal ends before the release ---

  const I7 := B6.(pool := B6.pool.(table := [Of(1, false, Disposed)], counters := Counters(1, 1, 0, 0, 1, 1, 0)),
                  awaits := Awaits({}, {}, {0}))
  const I8 := I7.(acqs := [GONE_0])

  lemma DeadEndRuns()
    ensures Follow(B6, DisposeDone(0), I7)
  {
    assert EndDisposal(NO_AWAITS, 0) == Awaits({}, {}, {0});
  }

  lemma SilentReleaseRuns()
    ensures Follow(I7, Release(0), I8)
  {
  }

  /** Then the release is ignored, and is no event: no handle is left, but one acquire event more than
      release events. */
  lemma DrainCanHushRelease()
    ensures var steps := ACQUIRE_0 + [DrainStart, Finish(0)] + [DisposeDone(0), Release(0)];
      Run(SMALL, Init(0), steps) && End(SMALL, Init(0), steps).acqs == [GONE_0]
      && End(SMALL, Init(0), steps).pool.counters.acquires == End(SMALL, Init(0), steps).pool.counters.releases + 1
  {
    hide Follow, Leads, B6, I7, I8;
    var y := DeadHandle();
    DeadEndRuns();
    SilentReleaseRuns();
    var x := Then(y, B6, DisposeDone(0), I7);
    x := Then(x, I7, Release(0), I8);
    assert x == y + [DisposeDone(0), Release(0)];
    IsRun(x, I8);
    HushedAtEnd();
  }

  lemma HushedAtEnd()
    ensures I8.acqs == [GONE_0] && I8.pool.counters.acquires == I8.pool.counters.releases + 1
  {
  }

  lemma SecondHandle(z: seq<Step>) returns (x: seq<Step>)
    requires Leads(z, B7)
    ensures x == z + [Start, Call(K), Begin(1), CreateStart(1), CreateDone(1), Finish(1)] && Leads(x, B13)
  {
    hide Follow, Leads, B6, B7, B8, B9, B10, B11, B12, B13;
    DeadReleaseRuns();
    SecondRuns();
    SecondEnds();
    SecondCheckoutRuns();
    x := Then(z, B7, Start, B8);
    x := Then(x, B8, Call(K), B9);
    x := Then(x, B9, Begin(1), B10);
    x := Then(x, B10, CreateStart(1), B11);
    x := Then(x, B11, CreateDone(1), B12);
    x := Then(x, B12, Finish(1), B13);
  }

  /** The eviction of that node, when its turn comes, deletes the live entry of the same key from the map,
      in use as it is, and grants a second slot where there is one. */
  lemma DrainCanUnlist()
    ensures var steps := ACQUIRE_0 + [DrainStart, Finish(0), Release(0)]
                         + [Start, Call(K), Begin(1), CreateStart(1), CreateDone(1), Finish(1)] + [Call(L), Begin(2)];
      Run(SMALL, Init(0), steps) && Unlisted(End(SMALL, Init(0), steps), 1)
      && Reserving(End(SMALL, Init(0), steps), 2)
  {
    hide Follow, Leads, B7, B13, B14, B15, Unlisted, Reserving;
    var z := SpoiledIdle();
    var y := SecondHandle(z);
    ThirdRuns();
    EvictRuns();
    var x := Then(y, B13, Call(L), B14);
    x := Then(x, B14, Begin(2), B15);
    assert x == y + [Call(L), Begin(2)];
    IsRun(x, B15);
    UnlistedAtEnd();
  }

  lemma UnlistedAtEnd()
    ensures Unlisted(B15, 1) && Reserving(B15, 2)
  {
  }

  // --- or that node stands in for another key's slot ---

  const DEAD := Of(0, false, Disposing).(stamp := 1)

  const J9 := B8.(pool := B8.pool.(pending := map[L := 1]),
                  mx := Mutexes([Cell(K, [], 0), Cell(L, [1], 0)], map[L := 1]), acqs := [GONE_0, Acq(L, 1, Queued)])
  const J10 := J9.(pool := J9.pool.(reserved := 1, counters := Counters(1, 0, 0, 0, 2, 1, 1)),
                   acqs := [GONE_0, Acq(L, 1, Reserved)])
  const J11 := J10.(acqs := [GONE_0, Acq(L, 1, Creating(0))])
  const J12 := J11.(pool := Pool([DEAD, Rec(L, 0, 0, 2, false, Live, 0)], map[L := 1], map[], [0, 1], 3, map[L := 1], 0,
                                 false, [], [], Counters(2, 0, 0, 0, 2, 1, 1)),
                    acqs := [GONE_0, Acq(L, 1, Resolved(1))])
  const J13 := J12.(pool := Pool([DEAD, Rec(L, 1, 0, 2, false, Live, 0)], map[L := 1], map[], [0], 3, map[], 0,
                                 false, [], [], Counters(2, 0, 0, 0, 2, 2, 1)),
                    mx := Mutexes([Cell(K, [], 0), Cell(L, [], 0)], map[]), acqs := [GONE_0, Acq(L, 1, Done(1, false))])
  const J14 := J13.(pool := J13.pool.(pending := map[M := 1]),
                    mx := Mutexes([Cell(K, [], 0), Cell(L, [], 0), Cell(M, [2], 0)], map[M := 2]),
                    acqs := [GONE_0, Acq(L, 1, Done(1, false)), Acq(M, 2, Queued)])
  const J15 := J14.(pool := J14.pool.(idle := [], reserved := 1, counters := Counters(2, 0, 1, 0, 3, 2, 1)),
                    acqs := [GONE_0, Acq(L, 1, Done(1, false)), Acq(M, 2, Reserved)])

  lemma OtherRuns()
    ensures Follow(B8, Call(L), J9) && Follow(J9, Begin(1), J10) && Follow(J10, CreateStart(1), J11)
  {
    OtherCallRuns();
    OtherBeginRuns();
    hide Follow;
  }

  lemma OtherCallRuns()
    ensures Follow(B8, Call(L), J9)
  {
  }

  lemma OtherBeginRuns()
    ensures Follow(J9, Begin(1), J10) && Follow(J10, CreateStart(1), J11)
  {
  }

  lemma OtherEnds()
    ensures Follow(J11, CreateDone(1), J12)
  {
  }

  lemma OtherCheckoutRuns()
    ensures Follow(J12, Finish(1), J13)
  {
    hide FinishOk, Settled;
    OtherPool();
    OtherCells();
  }

  lemma OtherPool()
    ensures FinishOk(J12.pool, 1, L) == J13.pool
  {
    assert Without([0, 1], 1) == [0];
  }

  lemma OtherCells()
    ensures Settled(J12.mx, 1, 0) == J13.mx
  {
  }

  lemma ThirdKeyRuns()
    ensures Follow(J13, Call(M), J14)
  {
  }

  lemma StandsInRuns()
    ensures Follow(J14, Begin(2), J15)
  {
    hide ObtainStart;
    StandsIn();
  }

  lemma StandsIn()
    ensures Wf(J14.pool) && ObtainStart(J14.pool, SMALL, M) == (J15.pool, Reserved)
  {
    hide Displace;
    Displaced();
    assert FirstFree(J14.pool, [0]) == Some(0);
  }

  lemma Displaced()
    ensures Displace(J14.pool.(counters := Counters(2, 0, 0, 0, 3, 2, 1)), 0) == J15.pool
  {
    assert Without([0], 0) == [];
    assert J14.pool.entries - {K} == J14.pool.entries;
  }

  lemma TwoInOne()
    ensures Load(J15.pool) == 2
  {
  }

  lemma OtherHandle(z: seq<Step>) returns (x: seq<Step>)
    requires Leads(z, B7)
    ensures x == z + [Start, Call(L), Begin(1), CreateStart(1), CreateDone(1), Finish(1)] && Leads(x, J13)
  {
    hide Follow, Leads, B6, B7, B8, J9, J10, J11, J12, J13;
    DeadReleaseRuns();
    OtherRuns();
    OtherEnds();
    OtherCheckoutRuns();
    x := Then(z, B7, Start, B8);
    x := Then(x, B8, Call(L), J9);
    x := Then(x, J9, Begin(1), J10);
    x := Then(x, J10, CreateStart(1), J11);
    x := Then(x, J11, CreateDone(1), J12);
    x := Then(x, J12, Finish(1), J13);
  }

  /** The eviction of a node that no map leads to frees no slot: one slot, but an entry in use and a
      reservation, although start() found no orphan. */
  lemma DrainCanOverflow()
    ensures var steps := ACQUIRE_0 + [DrainStart, Finish(0), Release(0)]
                         + [Start, Call(L), Begin(1), CreateStart(1), CreateDone(1), Finish(1)] + [Call(M), Begin(2)];
      Run(SMALL, Init(0), steps) && Load(End(SMALL, Init(0), steps).pool) == 2
  {
    hide Follow, Leads, B7, J13, J14, J15, Load;
    var z := SpoiledIdle();
    var y := OtherHandle(z);
    ThirdKeyRuns();
    StandsInRuns();
    var x := Then(y, J13, Call(M), J14);
    x := Then(x, J14, Begin(2), J15);
    assert x == y + [Call(M), Begin(2)];
    IsRun(x, J15);
    TwoInOne();
  }

  // --- a drain of a held entry ---

  const ORPHANED := Pool([Of(1, true, Live)], map[], map[K := 0], [], 1, map[], 0, true, [], [],
                         Counters(1, 0, 1, 0, 1, 1, 0))

  const FIRST := Ticket(0, 0, 1)
  const SECOND := Ticket(0, 0, 2)

  const C6 := A5.(drains := [DrainRun({Resolver(FIRST), Resolver(SECOND)}, false)], pool := ORPHANED,
                  awaits := Awaits({FIRST, SECOND}, {}, {}))

  lemma DrainHeldRuns()
    ensures Follow(A5, DrainStart, C6)
  {
    hide Drain, DrainedPool;
    UsedDrained();
    UsedWaits();
  }

  lemma UsedWaits()
    ensures Wf(USED) && Waits(USED, 0) == {Resolver(FIRST), Resolver(SECOND)}
    ensures StartWaits(NO_AWAITS, {Resolver(FIRST), Resolver(SECOND)}) == Awaits({FIRST, SECOND}, {}, {})
  {
    assert USED.entries.Keys == {K};
    assert AllOrphans(USED) == map[K := 0];
    assert K in USED.entries && FirstWait(USED, 0, USED.entries[K]) == Resolver(FIRST);
    assert K in AllOrphans(USED) && AwaitDisposal(USED, Ticket(0, AllOrphans(USED)[K], 2)) == Resolver(SECOND);
    var ws := {Resolver(FIRST), Resolver(SECOND)};
    assert Resolver(FIRST) in ws && Resolver(SECOND) in ws;
    assert (set w | w in ws && w.Resolver? :: w.ticket) == {FIRST, SECOND};
  }

  lemma UsedDrained()
    ensures Wf(USED) && Drain(USED) == ORPHANED
  {
    hide Drain, PoolInv;
    UsedInv();
    DrainForm(USED, 0);
    assert DrainedTable(USED) == [Of(1, true, Live)];
    var held := Held(USED, USED.entries.Keys);
    assert held == map[K := 0];
    assert held.Keys == {K} && |held| == |held.Keys|;
    assert USED.orphans + held == map[K := 0];
    assert Drain(USED).log == [];
  }

  lemma UsedInv()
    ensures PoolInv(USED, 0)
  {
  }

  // --- start() before the drain is over: the orphan is not counted at the gate ---

  const D7 := C6.(pool := ORPHANED.(closed := false), openedAt := 1)
  const D8 := D7.(pool := D7.pool.(pending := map[L := 1]),
                  mx := Mutexes([Cell(K, [], 0), Cell(L, [1], 0)], map[L := 1]),
                  acqs := [Acq(K, 0, Done(0, false)), Acq(L, 1, Queued)])
  const D9 := D8.(pool := D8.pool.(reserved := 1, counters := Counters(1, 0, 1, 0, 2, 1, 0)),
                  acqs := [Acq(K, 0, Done(0, false)), Acq(L, 1, Reserved)])

  lemma StartRuns()
    ensures Follow(C6, Start, D7) && Follow(D7, Call(L), D8)
  {
  }

  lemma OverfullRuns()
    ensures Follow(D8, Begin(1), D9) && Load(D9.pool) == 2
  {
  }

  /** One slot, but an orphan and a reservation at the same time. */
  lemma StartCanOverflow()
    ensures var steps := ACQUIRE_0 + ([Finish(0)] + [DrainStart, Start, Call(L), Begin(1)]);
      Run(SMALL, Init(0), steps) && Load(End(SMALL, Init(0), steps).pool) == 2
  {
    hide Follow, Leads, A5, C6, D7, D8, D9, Load;
    DrainHeldRuns();
    StartRuns();
    OverfullRuns();
    var x := Done0();
    x := Then(x, A5, DrainStart, C6);
    x := Then(x, C6, Start, D7);
    x := Then(x, D7, Call(L), D8);
    x := Then(x, D8, Begin(1), D9);
    assert x == ACQUIRE_0 + ([Finish(0)] + [DrainStart, Start, Call(L), Begin(1)]);
    IsRun(x, D9);
  }

  // --- the last release of a condemned entry that was just resurrected ---

  const E7 := C6.(pool := ORPHANED.(pending := map[K := 1]), mx := CELL_1,
                  acqs := [Acq(K, 0, Done(0, false)), Acq(K, 1, Queued)])
  const E8 := E7.(pool := Pool([Of(1, true, Live)], map[K := 0], map[], [], 1, map[K := 1], 0, true, [], [],
                               Counters(1, 0, 1, 1, 1, 1, 0)),
                  acqs := [Acq(K, 0, Done(0, false)), Acq(K, 1, Resolved(0))])
  const E9 := E8.(pool := Pool([Of(0, true, Disposing)], map[], map[], [], 1, map[K := 1], 0, true, [], [],
                               Counters(1, 0, 1, 1, 1, 1, 1)),
                  acqs := [GONE_0, Acq(K, 1, Resolved(0))])
  const E10 := E9.(pool := Pool([Of(1, true, Disposing)], map[], map[], [], 1, map[], 0, true, [], [],
                                Counters(1, 0, 1, 1, 1, 2, 1)),
                   mx := Mutexes([Cell(K, [], 0), Cell(K, [], 0)], map[]), acqs := [GONE_0, Acq(K, 1, Done(0, false))])

  lemma ResurrectRuns()
    ensures Follow(C6, Call(K), E7) && Follow(E7, Begin(1), E8)
  {
  }

  lemma LastReleaseRuns()
    ensures Follow(E8, Release(0), E9)
  {
  }

  lemma FinishYankedRuns()
    ensures Follow(E9, Finish(1), E10)
  {
  }

  lemma LastIsYanked()
    ensures !NotYanked(E10)
  {
    assert Outstanding(E10.acqs[1]) && !E10.pool.table[E10.acqs[1].phase.e].life.Live?;
  }

  /** The holder leaves between the resurrection and the checkout. */
  lemma ReleaseCanYank()
    ensures var steps := ACQUIRE_0 + ([Finish(0)] + [DrainStart, Call(K), Begin(1), Release(0), Finish(1)]);
      Run(SMALL, Init(0), steps) && !NotYanked(End(SMALL, Init(0), steps))
  {
    hide Follow, Leads, A5, C6, E7, E8, E9, E10, NotYanked;
    DrainHeldRuns();
    ResurrectRuns();
    LastReleaseRuns();
    FinishYankedRuns();
    LastIsYanked();
    var x := Done0();
    x := Then(x, A5, DrainStart, C6);
    x := Then(x, C6, Call(K), E7);
    x := Then(x, E7, Begin(1), E8);
    x := Then(x, E8, Release(0), E9);
    x := Then(x, E9, Finish(1), E10);
    assert x == ACQUIRE_0 + ([Finish(0)] + [DrainStart, Call(K), Begin(1), Release(0), Finish(1)]);
    IsRun(x, E10);
  }

  // --- start() on a closed pool without orphans, but with a condemned entry in use ---

  const G9 := E8.(pool := Pool([Of(2, true, Live)], map[K := 0], map[], [], 1, map[], 0, true, [], [],
                               Counters(1, 0, 1, 1, 1, 2, 0)),
                  mx := Mutexes([Cell(K, [], 0), Cell(K, [], 0)], map[]),
                  acqs := [Acq(K, 0, Done(0, false)), Acq(K, 1, Done(0, false))])
  const G10 := G9.(pool := G9.pool.(closed := false), openedAt := 1)
  const G11 := G10.(pool := G10.pool.(pending := map[L := 1]),
                    mx := Mutexes([Cell(K, [], 0), Cell(K, [], 0), Cell(L, [2], 0)], map[L := 2]),
                    acqs := G9.acqs + [Acq(L, 2, Queued)])
  const G12 := G11.(pool := Pool([Of(2, true, Live)], map[K := 0], map[], [], 1, map[L := 1], 0, false, [Waiting], [0],
                                 Counters(1, 0, 1, 1, 2, 2, 0)),
                    owner := [2], acqs := G9.acqs + [Acq(L, 2, Parked(0))])
  const G13 := G12.(pool := G12.pool.(table := [Of(1, true, Live)], counters := Counters(1, 0, 1, 1, 2, 2, 1)),
                    acqs := [GONE_0, Acq(K, 1, Done(0, false)), Acq(L, 2, Parked(0))])
  const G14 := G13.(pool := G13.pool.(table := [Of(0, true, Disposing)], entries := map[],
                                      counters := Counters(1, 0, 1, 1, 2, 2, 2)),
                    acqs := [GONE_0, Acq(K, 1, Done(0, true)), Acq(L, 2, Parked(0))])

  lemma SharedRuns()
    ensures Follow(E8, Finish(1), G9)
  {
  }

  lemma ReopenRuns()
    ensures Follow(G9, Start, G10) && G9.pool.orphans == map[]
  {
  }

  lemma CallBehindRuns()
    ensures Follow(G10, Call(L), G11)
  {
  }

  lemma ParkBehindRuns()
    ensures Follow(G11, Begin(2), G12)
  {
  }

  lemma FirstLeaves()
    ensures Follow(G12, Release(0), G13)
  {
  }

  lemma LastLeaves()
    ensures Follow(G13, Release(1), G14)
  {
    hide ReleaseEntry;
    LastFrees();
  }

  lemma LastFrees()
    ensures Wf(G13.pool) && ReleaseEntry(G13.pool, 0, 0) == G14.pool
  {
  }

  /** Acquire a is the only one in flight, and it is parked in front of an empty pool. */
  predicate Forgotten(s: State, a: nat) {
    && IsWaiting(s, a) && !s.pool.closed && s.pool.entries == map[] && s.pool.orphans == map[] && s.pool.reserved == 0
    && forall b :: 0 <= b < |s.acqs| && b != a ==> !Active(s.acqs[b])
  }

  lemma ForgottenAtEnd()
    ensures Forgotten(G14, 2)
  {
  }

  lemma BothHandles() returns (x: seq<Step>)
    ensures x == ACQUIRE_0 + [Finish(0)] + [DrainStart, Call(K), Begin(1), Finish(1)] && Leads(x, G9)
  {
    hide Follow, Leads, A5, C6, E7, E8, G9;
    DrainHeldRuns();
    ResurrectRuns();
    SharedRuns();
    x := Done0();
    x := Then(x, A5, DrainStart, C6);
    x := Then(x, C6, Call(K), E7);
    x := Then(x, E7, Begin(1), E8);
    x := Then(x, E8, Finish(1), G9);
  }

  /** The last release of the condemned entry gives back its slot and wakes nobody. */
  lemma StartCanStrand()
    ensures var steps := ACQUIRE_0 + [Finish(0)] + [DrainStart, Call(K), Begin(1), Finish(1)]
                         + [Start, Call(L), Begin(2), Release(0), Release(1)];
      Run(SMALL, Init(0), steps) && Forgotten(End(SMALL, Init(0), steps), 2)
  {
    hide Follow, Leads, G9, G10, G11, G12, G13, G14, Forgotten;
    var y := BothHandles();
    ReopenRuns();
    CallBehindRuns();
    ParkBehindRuns();
    FirstLeaves();
    LastLeaves();
    ForgottenAtEnd();
    var x := Then(y, G9, Start, G10);
    x := Then(x, G10, Call(L), G11);
    x := Then(x, G11, Begin(2), G12);
    x := Then(x, G12, Release(0), G13);
    x := Then(x, G13, Release(1), G14);
    assert x == y + [Start, Call(L), Begin(2), Release(0), Release(1)];
    IsRun(x, G14);
  }

  // --- a validate that throws while another acquire is parked ---

  const IDLE := Pool([Of(0, false, Live).(stamp := 1)], map[K := 0], map[], [0], 2, map[], 0, false, [], [],
                     Counters(1, 0, 0, 0, 1, 1, 1))

  const F6 := With(IDLE, FREE, [GONE_0])
  const F7 := With(IDLE.(pending := map[K := 1]), CELL_1, [GONE_0, Acq(K, 1, Queued)])
  const F8 := F7.(acqs := [GONE_0, Acq(K, 1, Validating(0))])
  const F9 := With(IDLE.(pending := map[K := 1, L := 1]),
                   Mutexes([Cell(K, [], 0), Cell(K, [1], 0), Cell(L, [2], 0)], map[K := 1, L := 2]),
                   [GONE_0, Acq(K, 1, Validating(0)), Acq(L, 2, Queued)])
  const F10 := F9.(pool := IDLE.(pending := map[K := 1, L := 1], log := [Waiting], queue := [0],
                                 counters := Counters(1, 0, 0, 0, 2, 1, 1)),
                   owner := [2], acqs := [GONE_0, Acq(K, 1, Validating(0)), Acq(L, 2, Parked(0))])
  const F11 := F10.(acqs := [GONE_0, Acq(K, 1, Rejected(ValidateThrew)), Acq(L, 2, Parked(0))])
  const F12 := F11.(pool := F10.pool.(pending := map[L := 1]),
                    mx := Mutexes([Cell(K, [], 0), Cell(K, [], 0), Cell(L, [2], 0)], map[L := 2]),
                    acqs := [GONE_0, Acq(K, 1, Failed(ValidateThrew)), Acq(L, 2, Parked(0))])

  lemma FirstReleaseRuns()
    ensures Follow(A5, Release(0), F6)
  {
  }

  lemma ValidatingRuns()
    ensures Follow(F6, Call(K), F7) && Follow(F7, Begin(1), F8)
  {
  }

  lemma CallFullRuns()
    ensures Follow(F8, Call(L), F9)
  {
  }

  lemma ParksRuns()
    ensures Follow(F9, Begin(2), F10)
  {
  }

  lemma ThrowRuns()
    ensures Follow(F10, ValidateThrow(1), F11)
  {
  }

  lemma ThrewRuns()
    ensures Follow(F11, Finish(1), F12)
  {
  }

  /** Acquire a is the only one in flight, and it is parked; and there is an entry to evict for it. */
  predicate Stranded(s: State, a: nat, e: nat) {
    && IsWaiting(s, a) && !s.pool.closed && e < |s.pool.table| && Evictable(s.pool, e)
    && forall b :: 0 <= b < |s.acqs| && b != a ==> !Active(s.acqs[b])
  }

  lemma StrandedAtEnd()
    ensures Stranded(F12, 2, 0)
  {
  }

  lemma Validates() returns (x: seq<Step>)
    ensures x == ACQUIRE_0 + [Finish(0)] + [Release(0), Call(K), Begin(1)] && Leads(x, F8)
  {
    hide Follow, Leads, A5, F6, F7, F8;
    FirstReleaseRuns();
    ValidatingRuns();
    x := Done0();
    x := Then(x, A5, Release(0), F6);
    x := Then(x, F6, Call(K), F7);
    x := Then(x, F7, Begin(1), F8);
  }

  /** The parked acquire is stranded next to an idle entry that nothing keeps. */
  lemma ThrowCanStrand()
    ensures var steps := ACQUIRE_0 + [Finish(0)] + [Release(0), Call(K), Begin(1)]
                         + [Call(L), Begin(2), ValidateThrow(1), Finish(1)];
      Run(SMALL, Init(0), steps) && Stranded(End(SMALL, Init(0), steps), 2, 0)
  {
    hide Follow, Leads, F8, F9, F10, F11, F12, Stranded;
    var y := Validates();
    CallFullRuns();
    ParksRuns();
    ThrowRuns();
    ThrewRuns();
    StrandedAtEnd();
    var x := Then(y, F8, Call(L), F9);
    x := Then(x, F9, Begin(2), F10);
    x := Then(x, F10, ValidateThrow(1), F11);
    x := Then(x, F11, Finish(1), F12);
    assert x == y + [Call(L), Begin(2), ValidateThrow(1), Finish(1)];
    IsRun(x, F12);
  }

  // --- a drain during a validation that then fails ---

  const WANTED := IDLE.(pending := map[K := 1])
  const H9 := F8.(drains := [DrainRun({Disposal(0)}, false)],
                  pool := Pool([Of(0, false, Disposing).(stamp := 1)], map[], map[], [], 2, map[K := 1], 0, true, [],
                               [], Counters(1, 0, 0, 0, 1, 1, 1)))
  const H10 := H9.(acqs := [GONE_0, Acq(K, 1, Replacing(0))])

  lemma DrainValidatedRuns()
    ensures Follow(F8, DrainStart, H9)
  {
    hide Drain, DrainedPool;
    WantedDrained();
    WantedWaits();
  }

  lemma WantedWaits()
    ensures Wf(WANTED) && Waits(WANTED, 0) == {Disposal(0)}
    ensures StartWaits(NO_AWAITS, {Disposal(0)}) == NO_AWAITS
  {
    assert WANTED.entries.Keys == {K};
    assert AllOrphans(WANTED) == map[];
    assert K in WANTED.entries && FirstWait(WANTED, 0, WANTED.entries[K]) == Disposal(0);
  }

  lemma WantedDrained()
    ensures Wf(WANTED) && Drain(WANTED) == H9.pool
  {
    hide Drain, PoolInv;
    WantedInv();
    DrainForm(WANTED, 0);
    assert DrainedTable(WANTED) == [Of(0, false, Disposing).(stamp := 1)];
    var held := Held(WANTED, WANTED.entries.Keys);
    assert held == map[];
    assert WANTED.orphans + held == map[];
    assert Drain(WANTED).log == [];
  }

  lemma WantedInv()
    ensures PoolInv(WANTED, 0)
  {
    assert forall e :: e in [0] ==> e == 0;
  }

  lemma InvalidRuns()
    ensures Follow(H9, ValidateDone(1, false), H10)
  {
  }

  /** The acquire disposes what the drain is disposing already; the user's dispose is not called again. */
  lemma DisposeMeetsDisposing()
    ensures var steps := ACQUIRE_0 + [Finish(0)] + [Release(0), Call(K), Begin(1)]
                         + [DrainStart, ValidateDone(1, false)];
      Run(SMALL, Init(0), steps) && End(SMALL, Init(0), steps).acqs == [GONE_0, Acq(K, 1, Replacing(0))]
      && End(SMALL, Init(0), steps).pool.table == [Of(0, false, Disposing).(stamp := 1)]
  {
    hide Follow, Leads, F8, H9;
    var y := Validates();
    DrainValidatedRuns();
    InvalidRuns();
    var x := Then(y, F8, DrainStart, H9);
    x := Then(x, H9, ValidateDone(1, false), H10);
    assert x == y + [DrainStart, ValidateDone(1, false)];
    IsRun(x, H10);
    TableOfH10();
  }

  lemma TableOfH10()
    ensures H10.pool.table == [Of(0, false, Disposing).(stamp := 1)]
  {
  }
}
