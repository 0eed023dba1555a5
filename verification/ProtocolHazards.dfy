/** Where the pool trusts its caller, and exactly how much: each hypothesis on runs is necessary. */
module ProtocolHazards {
  import opened Counting
  import opened PoolModel
  import opened PoolInvariant
  import opened PoolBulk
  import opened MutexModel
  import opened AwaitModel
  import opened Protocol
  import opened ProtocolMutex
  import opened ProtocolPhases
  import opened ProtocolCounts
  import opened ProtocolInvariant
  import opened ProtocolSteps
  import opened ProtocolBase
  import opened ProtocolCapacity
  import opened ProtocolWakeups
  import opened ProtocolTheorems

  /** Whatever safe steps follow, no outstanding handle ever refers to a disposed entry. */
  ghost predicate NeverYanks(cfg: Config, s: State) {
    forall steps :: SafeRun(cfg, s, steps) && Run(cfg, s, steps) ==> NotYanked(End(cfg, s, steps))
  }

  lemma InvNeverYanks(cfg: Config, s: State)
    requires Inv(cfg, s)
    ensures NeverYanks(cfg, s)
  {
    hide Inv;
    forall steps | SafeRun(cfg, s, steps) && Run(cfg, s, steps) ensures NotYanked(End(cfg, s, steps)) {
      RunKeeps(cfg, s, steps);
      InvNotYanked(cfg, End(cfg, s, steps));
    }
  }

  lemma OneStep(cfg: Config, s: State, step: Step)
    requires Enabled(s, step) && Safe(s, step)
    ensures Run(cfg, s, [step]) && SafeRun(cfg, s, [step]) && End(cfg, s, [step]) == Apply(cfg, s, step)
  {
    hide Enabled, Safe, Apply;
    assert Run(cfg, Apply(cfg, s, step), [step][1..]);
    assert SafeRun(cfg, Apply(cfg, s, step), [step][1..]);
  }

  /** Checking out an entry that is being disposed hands out a dead resource. */
  lemma FinishYanks(cfg: Config, s: State, a: nat)
    requires Enabled(s, Finish(a)) && s.acqs[a].phase.Resolved? && !s.pool.table[s.acqs[a].phase.e].life.Live?
    ensures !NeverYanks(cfg, s)
  {
    hide Settled, FinishOk;
    OneStep(cfg, s, Finish(a));
    var t := Apply(cfg, s, Finish(a));
    FinishCheckedOut(s.pool, s.acqs[a].key, s.acqs[a].phase.e);
    assert Outstanding(t.acqs[a]) && !t.pool.table[t.acqs[a].phase.e].life.Live?;
    assert !NotYanked(t);
    assert SafeRun(cfg, s, [Finish(a)]);
  }

  lemma ValidatedYanks(cfg: Config, s: State, a: nat)
    requires Enabled(s, ValidateDone(a, true)) && !s.pool.table[s.acqs[a].phase.e].life.Live?
    requires s.acqs[a].cell < |s.mx.cells| && s.mx.cells[s.acqs[a].cell].queue != []
    ensures !NeverYanks(cfg, s)
  {
    var t := Apply(cfg, s, ValidateDone(a, true));
    assert Enabled(t, Finish(a));
    FinishYanks(cfg, t, a);
    Later(cfg, s, ValidateDone(a, true));
  }

  lemma Later(cfg: Config, s: State, step: Step)
    requires Enabled(s, step) && Safe(s, step) && !NeverYanks(cfg, Apply(cfg, s, step))
    ensures !NeverYanks(cfg, s)
  {
    hide Enabled, Safe, Apply, NotYanked;
    var t := Apply(cfg, s, step);
    var steps :| SafeRun(cfg, t, steps) && Run(cfg, t, steps) && !NotYanked(End(cfg, t, steps));
    assert ([step] + steps)[1..] == steps;
    assert SafeRun(cfg, s, [step] + steps) && Run(cfg, s, [step] + steps);
    assert End(cfg, s, [step] + steps) == End(cfg, t, steps);
  }

  /** drain yanks nothing, now or later, if and only if no acquire has an idle entry in hand. */
  lemma DrainSafeIsExact(cfg: Config, s: State)
    requires Inv(cfg, s) && Enabled(s, DrainStart)
    ensures DrainSafe(s) <==> NeverYanks(cfg, Apply(cfg, s, DrainStart))
  {
    hide Inv, NeverYanks, Enabled, Apply;
    if DrainSafe(s) {
      StepKeeps(cfg, s, DrainStart);
      InvNeverYanks(cfg, Apply(cfg, s, DrainStart));
    } else {
      var a :| 0 <= a < |s.acqs| && (s.acqs[a].phase.Validating? || s.acqs[a].phase.Resolved?)
        && !(s.acqs[a].phase.e < |s.pool.table| && s.pool.table[s.acqs[a].phase.e].refCount > 0);
      DrainYanks(cfg, s, a);
    }
  }

  lemma ChosenIsIdle(cfg: Config, s: State, a: nat)
    requires Inv(cfg, s) && At(s, a) && (s.acqs[a].phase.Validating? || s.acqs[a].phase.Resolved?)
    ensures var e := s.acqs[a].phase.e; e < |s.pool.table|
    ensures var e := s.acqs[a].phase.e;
      s.pool.table[e].refCount == 0 ==> IsLive(s.pool, e) && s.pool.table[e].life.Live?
    ensures IsHead(s.mx, s.acqs, a)
  {
    hide CountInv, WaiterInv, BreakerInv, DrainInv;
    assert PhaseOk(s.pool, s.acqs[a]);
    assert RecOk(s.pool.table, s.pool.entries, s.pool.orphans, s.acqs[a].phase.e);
    RunnerIsHead(s.mx, s.acqs, a);
  }

  lemma DrainYanks(cfg: Config, s: State, a: nat)
    requires Inv(cfg, s) && Enabled(s, DrainStart) && At(s, a)
    requires s.acqs[a].phase.Validating? || s.acqs[a].phase.Resolved?
    requires !(s.acqs[a].phase.e < |s.pool.table| && s.pool.table[s.acqs[a].phase.e].refCount > 0)
    ensures !NeverYanks(cfg, Apply(cfg, s, DrainStart))
  {
    hide Inv, PoolInv, NeverYanks, Drain, Wf, CellsWf, Waits, Quiet, Settling, PendingOk, PhaseInv, DrainInv;
    ChosenIsIdle(cfg, s, a);
    DrainsOf(cfg, s);
    DrainEffects(s.pool, s.now);
    DrainKeeps(s.pool, s.now);
    InvIsWf(Drain(s.pool), s.now);
    var t := Apply(cfg, s, DrainStart);
    if s.acqs[a].phase.Resolved? {
      FinishYanks(cfg, t, a);
    } else {
      ValidatedYanks(cfg, t, a);
    }
  }

  /** A release yanks nothing, now or later, if and only if it is not the last of a condemned entry
      that another acquire is about to check out. */
  lemma ReleaseSafeIsExact(cfg: Config, s: State, a: nat)
    requires Inv(cfg, s) && Enabled(s, Release(a))
    ensures ReleaseSafe(s, s.acqs[a].phase.e) <==> NeverYanks(cfg, Apply(cfg, s, Release(a)))
  {
    hide Inv, NeverYanks, Apply;
    if ReleaseSafe(s, s.acqs[a].phase.e) {
      StepKeeps(cfg, s, Release(a));
      InvNeverYanks(cfg, Apply(cfg, s, Release(a)));
    } else {
      var b :| 0 <= b < |s.acqs| && s.acqs[b].phase == Resolved(s.acqs[a].phase.e);
      ReleaseYanks(cfg, s, a, b);
    }
  }

  lemma ReleaseYanks(cfg: Config, s: State, a: nat, b: nat)
    requires Inv(cfg, s) && Enabled(s, Release(a)) && At(s, b) && s.acqs[b].phase == Resolved(s.acqs[a].phase.e)
    requires s.pool.table[s.acqs[a].phase.e].condemned && s.pool.table[s.acqs[a].phase.e].refCount == 1
    ensures !NeverYanks(cfg, Apply(cfg, s, Release(a)))
  {
    hide Inv, PoolInv, NeverYanks, Wf, CellsWf, PendingOk, PhaseInv, DrainInv, ReleaseEntry;
    ChosenIsIdle(cfg, s, b);
    LastReleaseDisposes(s.pool, s.acqs[a].phase.e, s.now);
    DrainsOf(cfg, s);
    HeldIsCounted(cfg, s, a);
    ReleaseKeeps(s.pool, s.acqs[a].phase.e, s.now);
    InvIsWf(ReleaseEntry(s.pool, s.acqs[a].phase.e, s.now), s.now);
    var t := Apply(cfg, s, Release(a));
    FinishYanks(cfg, t, b);
  }

  lemma LastReleaseDisposes(p: Pool, e: nat, now: int)
    requires Wf(p) && e < |p.table| && p.table[e].condemned && p.table[e].refCount == 1
    ensures |ReleaseEntry(p, e, now).table| == |p.table| && !ReleaseEntry(p, e, now).table[e].life.Live?
  {
  }

  // --- start() while a drain is under way ---

  /** Whatever safe steps follow, the ceiling holds. */
  ghost predicate KeepsCeiling(cfg: Config, s: State) {
    forall steps :: SafeRun(cfg, s, steps) && Run(cfg, s, steps) && StartsClear(cfg, s, steps) ==>
      Load(End(cfg, s, steps).pool) <= cfg.max
  }

  lemma {:induction false} LengthBound(ks: set<Key>) returns (n: nat)
    ensures forall k :: k in ks ==> |k| < n
  {
    if ks == {} {
      n := 0;
    } else {
      var k :| k in ks;
      n := LengthBound(ks - {k});
      n := if |k| < n then n else |k| + 1;
    }
  }

  lemma FreshKey(ks: set<Key>) returns (k: Key)
    ensures k !in ks
  {
    var n := LengthBound(ks);
    k := seq(n, _ => 'k');
  }

  /** An acquire of a new key takes a free slot. */
  lemma TakesSlot(cfg: Config, s: State, k: Key)
    requires Inv(cfg, s) && !s.pool.closed && cfg.max >= 1 && |s.pool.entries| + s.pool.reserved < cfg.max
    requires k !in s.pool.entries && k !in s.pool.orphans && k !in s.mx.current
    ensures Enabled(s, Call(k)) && Enabled(Apply(cfg, s, Call(k)), Begin(|s.acqs|))
    ensures var t := Apply(cfg, Apply(cfg, s, Call(k)), Begin(|s.acqs|));
      t.pool.entries == s.pool.entries && t.pool.orphans == s.pool.orphans
      && t.pool.reserved == s.pool.reserved + 1 && !t.pool.closed
  {
    hide Inv;
    DrainsOf(cfg, s);
    InvIsWf(s.pool, s.now);
    CurrentOf(cfg, s);
    hide PoolInv, PhaseInv, PendingOk, DrainInv, CellsWf;
    NewKeyQueues(cfg, s, k);
    NewKeyTakes(cfg, Apply(cfg, s, Call(k)), |s.acqs|, k);
  }

  lemma NewKeyQueues(cfg: Config, s: State, k: Key)
    requires Ready(s) && k !in s.pool.entries && k !in s.mx.current
    ensures Enabled(s, Call(k))
    ensures var t := Apply(cfg, s, Call(k));
      Enabled(t, Begin(|s.acqs|)) && t.pool == s.pool.(pending := t.pool.pending) && t.acqs[|s.acqs|].key == k
  {
    var t := Apply(cfg, s, Call(k));
    assert t.mx.cells[|s.mx.cells|].queue == [|s.acqs|];
  }

  lemma NewKeyTakes(cfg: Config, s: State, a: nat, k: Key)
    requires Enabled(s, Begin(a)) && s.acqs[a].key == k && k !in s.pool.entries && k !in s.pool.orphans
    requires !s.pool.closed && cfg.max >= 1 && |s.pool.entries| + s.pool.reserved < cfg.max
    ensures var t := Apply(cfg, s, Begin(a));
      t.pool.entries == s.pool.entries && t.pool.orphans == s.pool.orphans
      && t.pool.reserved == s.pool.reserved + 1 && !t.pool.closed
  {
    hide CellsWf;
  }

  /** With an orphan about, new keys can fill the gate up to max on top of it. */
  lemma {:induction false} Overflow(cfg: Config, s: State, n: nat) returns (steps: seq<Step>)
    requires Inv(cfg, s) && !s.pool.closed && cfg.max >= 1 && s.pool.orphans != map[]
    requires |s.pool.entries| + s.pool.reserved == cfg.max - n
    ensures SafeRun(cfg, s, steps) && Run(cfg, s, steps) && StartsClear(cfg, s, steps)
    ensures Load(End(cfg, s, steps).pool) > cfg.max
    decreases n
  {
    hide Inv, Enabled, Apply;
    if n == 0 {
      steps := [];
    } else {
      var k := FreshKey(s.pool.entries.Keys + s.pool.orphans.Keys + s.mx.current.Keys);
      TakesSlot(cfg, s, k);
      var a := |s.acqs|;
      var t := Apply(cfg, s, Call(k));
      StepKeeps(cfg, s, Call(k));
      StepKeeps(cfg, t, Begin(a));
      var rest := Overflow(cfg, Apply(cfg, t, Begin(a)), n - 1);
      Before(cfg, t, Begin(a), rest);
      Before(cfg, s, Call(k), [Begin(a)] + rest);
      steps := [Call(k)] + ([Begin(a)] + rest);
    }
  }

  lemma Before(cfg: Config, s: State, step: Step, rest: seq<Step>)
    requires Enabled(s, step) && Safe(s, step) && !step.Start?
    requires var t := Apply(cfg, s, step); SafeRun(cfg, t, rest) && Run(cfg, t, rest) && StartsClear(cfg, t, rest)
    ensures var steps := [step] + rest; SafeRun(cfg, s, steps) && Run(cfg, s, steps) && StartsClear(cfg, s, steps)
    ensures End(cfg, s, [step] + rest) == End(cfg, Apply(cfg, s, step), rest)
  {
    hide Enabled, Safe, Apply;
    assert ([step] + rest)[1..] == rest;
  }

  lemma Opened(cfg: Config, s: State)
    requires Enabled(s, Start)
    ensures Apply(cfg, s, Start).pool == s.pool.(closed := false)
  {
  }

  /** start() leaves the ceiling intact, now and later, if and only if it finds no orphan: if and only
      if getStats shows live == keys. */
  lemma StartClearIsExact(cfg: Config, s: State)
    requires Inv(cfg, s) && CapInv(cfg, s.pool) && cfg.max >= 1 && Enabled(s, Start)
    ensures s.pool.orphans == map[] <==> KeepsCeiling(cfg, Apply(cfg, s, Start))
  {
    hide Inv, Enabled, Apply;
    var t := Apply(cfg, s, Start);
    StepKeeps(cfg, s, Start);
    Opened(cfg, s);
    if s.pool.orphans == map[] {
      StepKeepsCap(cfg, s, Start);
      forall steps | SafeRun(cfg, t, steps) && Run(cfg, t, steps) && StartsClear(cfg, t, steps)
        ensures Load(End(cfg, t, steps).pool) <= cfg.max
      {
        RunKeepsCap(cfg, t, steps);
      }
    } else {
      var steps := Overflow(cfg, t, cfg.max - |t.pool.entries| - t.pool.reserved);
    }
  }

  // --- a validate that throws ---

  /** Whatever safe and careful steps follow, no parked acquire is forgotten. */
  ghost predicate KeepsPromise(cfg: Config, s: State) {
    forall steps :: SafeRun(cfg, s, steps) && Run(cfg, s, steps) && CarefulRun(cfg, s, steps) ==>
      WakeInv(cfg, End(cfg, s, steps).pool, End(cfg, s, steps).acqs)
  }

  lemma LivelyKeepsPromise(cfg: Config, s: State)
    requires Lively(cfg, s) && CapInv(cfg, s.pool)
    ensures KeepsPromise(cfg, s)
  {
    hide Lively, WakeInv, CapInv;
    forall steps | SafeRun(cfg, s, steps) && Run(cfg, s, steps) && CarefulRun(cfg, s, steps)
      ensures WakeInv(cfg, End(cfg, s, steps).pool, End(cfg, s, steps).acqs)
    {
      RunKeepsLively(cfg, s, steps);
      LivelyWakes(cfg, End(cfg, s, steps));
    }
  }

  lemma LivelyWakes(cfg: Config, s: State)
    requires Lively(cfg, s)
    ensures WakeInv(cfg, s.pool, s.acqs)
  {
  }

  /** A promise that is kept for ever is kept now. */
  lemma PromiseNow(cfg: Config, s: State)
    requires KeepsPromise(cfg, s)
    ensures WakeInv(cfg, s.pool, s.acqs)
  {
    hide WakeInv;
    assert SafeRun(cfg, s, []) && Run(cfg, s, []) && CarefulRun(cfg, s, []) && End(cfg, s, []) == s;
  }

  lemma ThrowNow(cfg: Config, s: State, a: nat)
    requires Lively(cfg, s) && Enabled(s, Finish(a)) && Threw(s.acqs[a])
    ensures Harmless(cfg, s, a) <==> WakeInv(cfg, Apply(cfg, s, Finish(a)).pool, Apply(cfg, s, Finish(a)).acqs)
  {
    About(cfg, s, a);
    hide Inv, Clean, GoneInv, WakeInv, Harmless, DecPending, IsPending, Settled, Wf, CellsWf;
    ThrewWakes(cfg, s, a, s.acqs[a].(phase := Failed(ValidateThrew)));
  }

  /** The entry whose validation threw becomes evictable when its acquire leaves, and nobody is woken.
      Whatever happened between the throw and that moment, the promise to parked acquires survives it,
      then and on every safe and careful continuation, if and only if it is harmless: the pool owes them
      nothing, or the entry stays out of reach, or more acquires were coming than there was slack. */
  lemma ThrowIsExact(cfg: Config, s: State, a: nat)
    requires Lively(cfg, s) && CapInv(cfg, s.pool) && Enabled(s, Finish(a)) && Threw(s.acqs[a])
    ensures Harmless(cfg, s, a) <==> WakeInv(cfg, Apply(cfg, s, Finish(a)).pool, Apply(cfg, s, Finish(a)).acqs)
    ensures Harmless(cfg, s, a) <==> KeepsPromise(cfg, Apply(cfg, s, Finish(a)))
  {
    ThrowNow(cfg, s, a);
    var t := Apply(cfg, s, Finish(a));
    if Harmless(cfg, s, a) {
      hide Lively, CapInv, Apply, Enabled, Harmless, WakeInv;
      StepKeepsLively(cfg, s, Finish(a));
      LivelyKeepsPromise(cfg, t);
    } else if KeepsPromise(cfg, t) {
      PromiseNow(cfg, t);
    }
  }

  // --- without drain ---

  predicate NoneCondemned(t: seq<Rec>) { forall e :: 0 <= e < |t| ==> !t[e].condemned }

  lemma StepCondemnsNone(cfg: Config, s: State, step: Step)
    requires Inv(cfg, s) && Enabled(s, step) && !step.DrainStart? && NoneCondemned(s.pool.table)
    ensures NoneCondemned(Apply(cfg, s, step).pool.table)
  {
    hide Inv, Wf, CellsWf, ObtainStart, ObtainMiss, Resume, Validated, FactoryDone, ReleaseReservation, AcquirePrefix,
         FinishStep, ReleaseEntry, ReleaseByKey, Settle, Sweep, Enter, GcCells, Droppable, EndDisposal;
    if OfAcquire(step) {
      AcquireAges(cfg, s, step);
      AgedCondemnsNone(s.pool, Apply(cfg, s, step).pool);
    } else if !step.Start? && !step.DisposeDone? {
      OtherAges(cfg, s, step);
      AgedCondemnsNone(s.pool, Apply(cfg, s, step).pool);
    }
  }

  lemma AgedCondemnsNone(p: Pool, q: Pool)
    requires Aging(p, q) && NoneCondemned(p.table)
    ensures NoneCondemned(q.table)
  {
  }

  lemma {:induction false} UndrainedIsSafe(cfg: Config, s: State, steps: seq<Step>)
    requires Inv(cfg, s) && NoneCondemned(s.pool.table) && Run(cfg, s, steps)
    requires forall i :: 0 <= i < |steps| ==> !steps[i].DrainStart?
    ensures SafeRun(cfg, s, steps)
    decreases |steps|
  {
    hide Inv, Enabled, Apply, NoneCondemned;
    if steps != [] {
      UncondemnedIsSafe(s, steps[0]);
      StepKeeps(cfg, s, steps[0]);
      StepCondemnsNone(cfg, s, steps[0]);
      UndrainedIsSafe(cfg, Apply(cfg, s, steps[0]), steps[1..]);
    }
  }

  lemma UncondemnedIsSafe(s: State, step: Step)
    requires NoneCondemned(s.pool.table) && Enabled(s, step) && !step.DrainStart?
    ensures Safe(s, step)
  {
    hide Wf, CellsWf;
  }

  /** Any run from the empty pool without a drain is safe, whatever else happens in it. */
  lemma WithoutDrainIsSafe(cfg: Config, now: int, steps: seq<Step>)
    requires Run(cfg, Init(now), steps) && forall i :: 0 <= i < |steps| ==> !steps[i].DrainStart?
    ensures SafeRun(cfg, Init(now), steps)
  {
    hide Inv;
    InitInv(cfg, now);
    UndrainedIsSafe(cfg, Init(now), steps);
  }
}
