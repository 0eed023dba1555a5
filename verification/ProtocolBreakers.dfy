/** Which circuit breaker guards the factory call of a key, and for how long the pool remembers it. */
module ProtocolBreakers {
  import opened Counting
  import opened PoolModel
  import opened MutexModel
  import opened AwaitModel
  import opened Protocol
  import opened ProtocolCounts
  import opened ProtocolInvariant
  import opened ProtocolBase

  /** Neither map has an entry for k, and no acquire of it is in flight. */
  ghost predicate Unused(s: State, k: Key) {
    k !in s.pool.entries && k !in s.pool.orphans && Count(s.acqs, ActiveOn(k)) == 0
  }

  /** Breaker b lets calls pass. */
  predicate IsClosed(s: State, b: nat) { b < |s.closedBreaker| && s.closedBreaker[b] }

  /** The steps that look at the breaker of k in order to forget it. */
  predicate Collects(cfg: Config, s: State, step: Step, k: Key)
    requires Enabled(s, step)
  {
    cfg.perKeyBreakers && (step.GcTimer? || (step.DisposeDone? && s.pool.table[step.e].key == k))
  }

  /** The step is a factory call for k that needs a breaker of its own. */
  predicate Starts(cfg: Config, s: State, step: Step, k: Key)
    requires Enabled(s, step)
  {
    cfg.perKeyBreakers && step.CreateStart? && s.acqs[step.a].key == k && k !in s.breakers
  }

  lemma PresenceIsUse(cfg: Config, s: State, k: Key)
    requires Attainable(cfg, s)
    ensures Present(s.pool, k) <==> !Unused(s, k)
  {
    AttainableBase(cfg, s);
    assert PendingOk(s.pool, s.acqs);
  }

  /** The steps that have to do with breakers. */
  predicate OfBreakers(step: Step) { step.CreateStart? || step.DisposeDone? || step.GcTimer? || step.BreakerMoves? }

  lemma OthersLeave(cfg: Config, s: State, step: Step)
    requires Enabled(s, step) && !OfBreakers(step)
    ensures Apply(cfg, s, step).breakers == s.breakers && Apply(cfg, s, step).closedBreaker == s.closedBreaker
  {
    hide Wf, CellsWf, Settle, Sweep, Drain, Waits, ObtainStart, ObtainMiss, Resume, Validated, FactoryDone,
         ReleaseReservation, ReleaseEntry, ReleaseByKey, AcquirePrefix, Enter, Settled, FinishOk, DecPending;
  }

  lemma DisposalTests(s: State, e: nat, k: Key)
    requires e < |s.pool.table|
    ensures Droppable(DisposeDoneStep(s, e), k) == Droppable(s, k)
    ensures DisposeDoneStep(s, e).breakers == s.breakers && DisposeDoneStep(s, e).closedBreaker == s.closedBreaker
  {
    hide EndDisposal;
  }

  lemma DisposalMap(cfg: Config, s: State, e: nat, k: Key)
    requires Enabled(s, DisposeDone(e))
    ensures var t := Apply(cfg, s, DisposeDone(e));
      && (k in t.breakers <==> k in s.breakers && !(Collects(cfg, s, DisposeDone(e), k) && Droppable(s, k)))
      && (k in t.breakers ==> t.breakers[k] == s.breakers[k])
  {
    DisposalTests(s, e, k);
    DisposalTests(s, e, s.pool.table[e].key);
    hide Wf, CellsWf, DisposeDoneStep, Droppable;
  }

  lemma GcMap(cfg: Config, s: State, k: Key)
    requires Enabled(s, GcTimer)
    ensures var t := Apply(cfg, s, GcTimer);
      && (k in t.breakers <==> k in s.breakers && !(Collects(cfg, s, GcTimer, k) && Droppable(s, k)))
      && (k in t.breakers ==> t.breakers[k] == s.breakers[k])
  {
    var z := s.(mx := GcCells(s.mx, cfg.mutexGcMs, s.now));
    assert Droppable(z, k) == Droppable(s, k);
    hide Wf, CellsWf, GcCells, Droppable;
  }

  lemma MapAfter(cfg: Config, s: State, step: Step, k: Key)
    requires Enabled(s, step)
    ensures var t := Apply(cfg, s, step);
      k in t.breakers <==>
        Starts(cfg, s, step, k) || (k in s.breakers && !(Collects(cfg, s, step, k) && Droppable(s, k)))
    ensures var t := Apply(cfg, s, step);
      k in t.breakers ==>
        if k in s.breakers then t.breakers[k] == s.breakers[k]
        else t.breakers[k] == |s.closedBreaker| && IsClosed(t, t.breakers[k])
  {
    hide Wf, CellsWf, Droppable;
    match step {
      case DisposeDone(e) =>
        hide Apply;
        DisposalMap(cfg, s, e, k);
      case GcTimer =>
        hide Apply;
        GcMap(cfg, s, k);
      case CreateStart(a) =>
      case BreakerMoves(_, _) =>
      case _ =>
        hide Apply, Enabled;
        OthersLeave(cfg, s, step);
    }
  }

  /** On every run, exactly: a key gets a breaker, new and closed, by a factory call when it has none; it keeps
      that very breaker; and it loses it only to the collection or to the end of a disposal of its own, and then
      if and only if the breaker is closed and the key unused. */
  lemma BreakersExactly(cfg: Config, s: State, step: Step, k: Key)
    requires Attainable(cfg, s) && Enabled(s, step)
    ensures var t := Apply(cfg, s, step);
      k in t.breakers <==>
        || Starts(cfg, s, step, k)
        || (k in s.breakers && !(Collects(cfg, s, step, k) && IsClosed(s, s.breakers[k]) && Unused(s, k)))
    ensures var t := Apply(cfg, s, step);
      k in t.breakers ==>
        if k in s.breakers then t.breakers[k] == s.breakers[k]
        else t.breakers[k] == |s.closedBreaker| && IsClosed(t, t.breakers[k])
  {
    MapAfter(cfg, s, step, k);
    PresenceIsUse(cfg, s, k);
    hide Attainable, Unused, Present, Enabled, Apply, Starts, Collects;
  }

  /** Nothing but a breaker itself changes its state. */
  lemma StateIsItsOwn(cfg: Config, s: State, step: Step, b: nat)
    requires Enabled(s, step) && b < |s.closedBreaker|
    ensures var t := Apply(cfg, s, step);
      b < |t.closedBreaker|
      && t.closedBreaker[b] == if step.BreakerMoves? && step.b == b then step.closed else s.closedBreaker[b]
  {
    hide Wf, CellsWf, GcCells, EndDisposal, Droppable, FinishDispose;
    if !OfBreakers(step) {
      hide Apply, Enabled;
      OthersLeave(cfg, s, step);
    }
  }

  /** A factory call for a key runs under the breaker that the map has for the key from then on. */
  lemma CallUsesBreaker(cfg: Config, s: State, a: nat)
    requires Enabled(s, CreateStart(a))
    ensures var t, k := Apply(cfg, s, CreateStart(a)), s.acqs[a].key;
      && t.acqs == s.acqs[a := s.acqs[a].(phase := t.acqs[a].phase)] && t.pool == s.pool
      && (cfg.perKeyBreakers ==> k in t.breakers && t.acqs[a].phase == Creating(t.breakers[k]))
      && (!cfg.perKeyBreakers ==> t.acqs[a].phase == Creating(0))
  {
    hide Wf, CellsWf;
  }

  // --- over runs ---

  /** No two keys share a breaker, and none has the shared one. */
  predicate Own(breakers: map<Key, nat>, n: nat) {
    && n > 0
    && (forall k :: k in breakers ==> 0 < breakers[k] < n)
    && (forall k, l :: k in breakers && l in breakers && breakers[k] == breakers[l] ==> k == l)
  }

  lemma OwnStep(cfg: Config, s: State, step: Step)
    requires Enabled(s, step) && Own(s.breakers, |s.closedBreaker|)
    ensures var t := Apply(cfg, s, step); Own(t.breakers, |t.closedBreaker|)
  {
    hide Wf, CellsWf, GcCells, EndDisposal, Droppable, FinishDispose;
    if !OfBreakers(step) {
      hide Apply, Enabled, Own;
      OthersLeave(cfg, s, step);
    }
  }

  lemma {:induction false} OwnRun(cfg: Config, s: State, steps: seq<Step>)
    requires Run(cfg, s, steps) && Own(s.breakers, |s.closedBreaker|)
    ensures var t := End(cfg, s, steps); Own(t.breakers, |t.closedBreaker|)
    decreases |steps|
  {
    hide Enabled, Apply, Own;
    if steps != [] {
      OwnStep(cfg, s, steps[0]);
      OwnRun(cfg, Apply(cfg, s, steps[0]), steps[1..]);
    }
  }

  /** On every run, breakers per key are breakers per key: what one key's factory does is no other key's fault. */
  lemma EachKeyItsOwn(cfg: Config, s: State, k: Key, l: Key)
    requires Attainable(cfg, s) && k in s.breakers && l in s.breakers
    ensures s.breakers[k] == s.breakers[l] ==> k == l
    ensures 0 < s.breakers[k] < |s.closedBreaker|
  {
    var now, steps :| Run(cfg, Init(now), steps) && s == End(cfg, Init(now), steps);
    OwnRun(cfg, Init(now), steps);
  }

  /** Breaker b does not close in the run. */
  predicate NeverCloses(steps: seq<Step>, b: nat) {
    forall i :: 0 <= i < |steps| ==> steps[i] != BreakerMoves(b, true)
  }

  lemma TrippedStep(cfg: Config, s: State, step: Step, k: Key)
    requires Enabled(s, step) && k in s.breakers && s.breakers[k] < |s.closedBreaker|
    requires !s.closedBreaker[s.breakers[k]] && step != BreakerMoves(s.breakers[k], true)
    ensures var t := Apply(cfg, s, step); var b := s.breakers[k];
      k in t.breakers && t.breakers[k] == b && b < |t.closedBreaker| && !t.closedBreaker[b]
  {
    StateIsItsOwn(cfg, s, step, s.breakers[k]);
    hide Wf, CellsWf, GcCells, EndDisposal, Present, FinishDispose;
    if !OfBreakers(step) {
      hide Apply, Enabled;
      OthersLeave(cfg, s, step);
    }
  }

  /** Once a key's breaker has tripped, the key keeps it until it closes, whatever comes and goes meanwhile:
      every factory call for the key, however late, still meets that breaker. */
  lemma {:induction false} TrippedIsKept(cfg: Config, s: State, steps: seq<Step>, k: Key, a: nat)
    requires Run(cfg, s, steps) && k in s.breakers && s.breakers[k] < |s.closedBreaker|
    requires !s.closedBreaker[s.breakers[k]] && NeverCloses(steps, s.breakers[k])
    ensures var t := End(cfg, s, steps); var b := s.breakers[k];
      && k in t.breakers && t.breakers[k] == b && b < |t.closedBreaker| && !t.closedBreaker[b]
      && (cfg.perKeyBreakers && Enabled(t, CreateStart(a)) && t.acqs[a].key == k ==>
            Apply(cfg, t, CreateStart(a)).acqs[a].phase == Creating(b))
    decreases |steps|
  {
    if steps == [] {
      hide Wf, CellsWf;
    } else {
      hide Enabled, Apply;
      TrippedStep(cfg, s, steps[0], k);
      TrippedIsKept(cfg, Apply(cfg, s, steps[0]), steps[1..], k, a);
    }
  }
}
