/** The record of each entry along a run: `lastReleasedAt` is when the entry was last given back, so the sweep
    goes by what happened, not by what is written down. */
module ProtocolTimes {
  import opened Counting
  import opened PoolModel
  import opened PoolInvariant
  import opened PoolBulk
  import opened PoolTheorems
  import opened PoolRecords
  import opened MutexModel
  import opened AwaitModel
  import opened Protocol
  import opened ProtocolCounts
  import opened ProtocolInvariant
  import opened ProtocolSteps
  import opened ProtocolBase
  import opened ProtocolTheorems

  lemma CallMoves(p: Pool, k: Key, now: int)
    requires Wf(p)
    ensures TableMoves(p.table, AcquirePrefix(p, k).0.table, now)
  {
    hide Checkout, TableMoves, TableStays;
    StaysNot(p.table);
    StaysIsMoves(p.table, p.table, now);
    if AcquirePrefix(p, k).1.Some? {
      CheckoutMoves(Hit(IncPending(p, k)), p.entries[k], now);
    }
  }

  lemma FinishMoves(s: State, a: nat)
    requires Enabled(s, Finish(a))
    ensures TableMoves(s.pool.table, FinishStep(s, a).pool.table, s.now)
  {
    hide Checkout, TableMoves, TableStays, Settled, Wf, CellsWf;
    StaysNot(s.pool.table);
    StaysIsMoves(s.pool.table, s.pool.table, s.now);
    if s.acqs[a].phase.Resolved? {
      CheckoutMoves(s.pool, s.acqs[a].phase.e, s.now);
    }
  }

  lemma EndMoves(p: Pool, e: nat, now: int)
    requires e < |p.table| && p.table[e].life.Disposing?
    ensures TableMoves(p.table, FinishDispose(p, e).table, now)
  {
  }

  lemma SettleTable(p: Pool, w: nat)
    requires w < |p.log|
    ensures Settle(p, w, TimedOut).table == p.table
  {
  }

  lemma AcquireMoves(cfg: Config, s: State, step: Step)
    requires Enabled(s, step) && OfObtain(step)
    ensures TableMoves(s.pool.table, Apply(cfg, s, step).pool.table, s.now)
  {
    ReadyIsWf(s);
    hide Wf, CellsWf, TableMoves, TableStays, ObtainStart, ObtainMiss, Resume, Validated, FactoryDone,
         ReleaseReservation;
    var p := s.pool;
    match step {
      case Begin(a) => ObtainStays(p, cfg, s.acqs[a].key);
      case Replaced(a) => MissStays(p, cfg, s.acqs[a].key);
      case Resumed(a) => ResumeStays(p, cfg, s.acqs[a].phase.w);
      case ValidateDone(a, ok) => ValidatedStays(p, s.acqs[a].phase.e, ok);
    }
    StaysIsMoves(p.table, Apply(cfg, s, step).pool.table, s.now);
  }

  predicate OfObtain(step: Step) { step.Begin? || step.Replaced? || step.Resumed? || step.ValidateDone? }

  lemma TimerMoves(cfg: Config, s: State, step: Step)
    requires Enabled(s, step) && (step.Timeout? || step.SweepTimer? || step.DrainStart?)
    ensures TableMoves(s.pool.table, Apply(cfg, s, step).pool.table, s.now)
  {
    ReadyIsWf(s);
    hide Wf, CellsWf, TableMoves, TableStays, Settle, Sweep, Drain, Waits;
    var p := s.pool;
    match step {
      case Timeout(w) =>
        SettleTable(p, w);
        StaysNot(p.table);
      case SweepTimer => SweepStays(p, cfg, s.now);
      case DrainStart => DrainStays(p);
    }
    StaysIsMoves(p.table, Apply(cfg, s, step).pool.table, s.now);
  }

  /** In every step each record moves so. */
  lemma StepMoves(cfg: Config, s: State, step: Step)
    requires Enabled(s, step)
    ensures TableMoves(s.pool.table, Apply(cfg, s, step).pool.table, s.now)
  {
    if OfObtain(step) {
      AcquireMoves(cfg, s, step);
    } else if step.Timeout? || step.SweepTimer? || step.DrainStart? {
      TimerMoves(cfg, s, step);
    } else {
      ReadyIsWf(s);
      StaysNot(s.pool.table);
      StaysIsMoves(s.pool.table, s.pool.table, s.now);
      hide Wf, CellsWf, TableMoves, TableStays, FactoryDone, ReleaseReservation, ReleaseEntry, ReleaseByKey,
           AcquirePrefix, FinishStep, FinishDispose, Enter, GcCells, Droppable, EndDisposal;
      match step {
        case Call(k) => CallMoves(s.pool, k, s.now);
        case Finish(a) => FinishMoves(s, a);
        case Release(a) => ReleaseMoves(s.pool, s.acqs[a].phase.e, s.now);
        case ReleaseKey(k, a) =>
          ReleaseKeyIsRelease(cfg, s, k, a);
          ReleaseMoves(s.pool, s.acqs[a].phase.e, s.now);
        case CreateDone(a) => CreateMoves(s.pool, s.acqs[a].key, s.now);
        case CreateFail(a) => CreateMoves(s.pool, s.acqs[a].key, s.now);
        case DisposeDone(e) => EndMoves(s.pool, e, s.now);
        case _ =>
      }
    }
  }

  // --- when an entry was last held ---

  function References(s: State, e: nat): nat { if e < |s.pool.table| then s.pool.table[e].refCount else 0 }

  /** The step from s to t creates entry e, or takes its last reference. */
  predicate Freed(s: State, t: State, e: nat) {
    (|s.pool.table| <= e < |t.pool.table|) || (References(s, e) > 0 && References(t, e) == 0)
  }

  /** When entry e was last created or freed in the run, or the given time. */
  function LastFreed(cfg: Config, s: State, steps: seq<Step>, e: nat, before: int): int
    requires Run(cfg, s, steps)
    decreases |steps|
  {
    if steps == [] then before
    else
      var t := Apply(cfg, s, steps[0]);
      LastFreed(cfg, t, steps[1..], e, if Freed(s, t, e) then s.now else before)
  }

  predicate StampedAt(s: State, e: nat, time: int) { e < |s.pool.table| ==> s.pool.table[e].lastReleasedAt == time }

  lemma StepStamps(cfg: Config, s: State, step: Step, e: nat, before: int)
    requires Enabled(s, step) && StampedAt(s, e, before)
    ensures var t := Apply(cfg, s, step); StampedAt(t, e, if Freed(s, t, e) then s.now else before)
  {
    StepMoves(cfg, s, step);
    hide Enabled, Apply;
    var t := Apply(cfg, s, step);
    assert e < |s.pool.table| ==> RecordMoves(s.pool.table[e], t.pool.table[e], s.now);
  }

  lemma {:induction false} RunStamps(cfg: Config, s: State, steps: seq<Step>, e: nat, before: int)
    requires Run(cfg, s, steps) && StampedAt(s, e, before)
    ensures StampedAt(End(cfg, s, steps), e, LastFreed(cfg, s, steps, e, before))
    decreases |steps|
  {
    hide Enabled, Apply, StampedAt, Freed;
    if steps != [] {
      var t := Apply(cfg, s, steps[0]);
      StepStamps(cfg, s, steps[0], e, before);
      RunStamps(cfg, t, steps[1..], e, if Freed(s, t, e) then s.now else before);
    }
  }

  /** On every run, the time written in an entry is that of the step that last took its refCount from one to
      zero, or of its creation if no step has. */
  lemma ReleaseTimeIsExact(cfg: Config, now: int, steps: seq<Step>, e: nat, before: int)
    requires Run(cfg, Init(now), steps) && e < |End(cfg, Init(now), steps).pool.table|
    ensures End(cfg, Init(now), steps).pool.table[e].lastReleasedAt == LastFreed(cfg, Init(now), steps, e, before)
  {
    RunStamps(cfg, Init(now), steps, e, before);
  }

  /** Live, held by nobody since the cutoff, and its key wanted by no acquire in flight. */
  predicate Expires(cfg: Config, now: int, steps: seq<Step>, e: nat, cutoff: int)
    requires Run(cfg, Init(now), steps)
  {
    var s := End(cfg, Init(now), steps);
    && e < |s.pool.table| && s.pool.table[e].life.Live? && s.pool.table[e].key in s.pool.entries
    && s.pool.entries[s.pool.table[e].key] == e
    && Count(s.acqs, Holds(e)) == 0 && LastFreed(cfg, Init(now), steps, e, now) <= cutoff
    && Count(s.acqs, ActiveOn(s.pool.table[e].key)) == 0
  }

  /** After any safe run, a sweep disposes exactly the live entries that nobody holds or wants and that nobody
      has held since the cutoff; it keeps every other as it is. */
  lemma SweepIsByTime(cfg: Config, now: int, steps: seq<Step>, e: nat)
    requires Run(cfg, Init(now), steps) && SafeRun(cfg, Init(now), steps) && cfg.idleTtlMs != 0
    requires e < |End(cfg, Init(now), steps).pool.table| && Enabled(End(cfg, Init(now), steps), SweepTimer)
    ensures var s := End(cfg, Init(now), steps); var t := Apply(cfg, s, SweepTimer);
      && |t.pool.table| == |s.pool.table|
      && t.pool.table[e] == if Expires(cfg, now, steps, e, s.now - cfg.idleTtlMs)
                            then DisposeRec(s.pool.table[e]) else s.pool.table[e]
  {
    var s := End(cfg, Init(now), steps);
    ReleaseTimeIsExact(cfg, now, steps, e, now);
    hide SafeRun, Run, End, LastFreed, Reachable;
    assert Reachable(cfg, s) by { ReachedBy(cfg, now, steps); }
    SweepHere(cfg, s, e);
  }

  lemma ReachedBy(cfg: Config, now: int, steps: seq<Step>)
    requires Run(cfg, Init(now), steps) && SafeRun(cfg, Init(now), steps)
    ensures Reachable(cfg, End(cfg, Init(now), steps))
  {
  }

  lemma SweepHere(cfg: Config, s: State, e: nat)
    requires Reachable(cfg, s) && cfg.idleTtlMs != 0 && e < |s.pool.table| && Enabled(s, SweepTimer)
    ensures var t := Apply(cfg, s, SweepTimer);
      && |t.pool.table| == |s.pool.table|
      && t.pool.table[e] ==
           if IsLive(s.pool, e) && s.pool.table[e].life.Live? && Count(s.acqs, Holds(e)) == 0
              && Count(s.acqs, ActiveOn(s.pool.table[e].key)) == 0
              && s.pool.table[e].lastReleasedAt <= s.now - cfg.idleTtlMs
           then DisposeRec(s.pool.table[e]) else s.pool.table[e]
  {
    ReachableInv(cfg, s);
    DrainsOf(cfg, s);
    assert s.pool.table[e].refCount == Count(s.acqs, Holds(e));
    assert Pending(s.pool, s.pool.table[e].key) == Count(s.acqs, ActiveOn(s.pool.table[e].key));
    LiveHere(s.pool, s.now, e);
    hide Inv, PoolInv, DrainInv, Reachable, Sweep, Wf, CellsWf, PendingOk;
    SweepIsFullScan(s.pool, cfg, s.now);
  }

  lemma LiveHere(p: Pool, now: int, e: nat)
    requires PoolInv(p, now) && e < |p.table|
    ensures IsLive(p, e) ==> p.table[e].life.Live?
  {
    assert RecOk(p.table, p.entries, p.orphans, e);
  }
}
