/** The pool as a protocol: acquires in flight, each at a phase between two awaits, and the steps
    that the event loop may take next. A step runs to completion; the clock moves between steps. */
module Protocol {
  import opened Counting
  import opened PoolModel
  import opened MutexModel
  import opened AwaitModel

  /** One call of acquire. `cell` is the mutex cell it was chained on (unused on the fast path). */
  datatype Acq = Acq(key: Key, cell: nat, phase: Phase)

  /** One call of drain: the promises it awaits, and whether it has completed. */
  datatype DrainRun = DrainRun(waits: set<Wait>, done: bool)

  /** `owner[w]` is the acquire that parked waiter w. `openedAt` is the number of drains there had
      been at the last start(). Breakers are numbered, 0 being the shared one; `closedBreaker` says
      which are in state closed. `failed` counts misses that ended without an entry. */
  datatype State = State(now: int, pool: Pool, mx: Mutexes, acqs: seq<Acq>, owner: seq<nat>,
                         drains: seq<DrainRun>, openedAt: nat,
                         breakers: map<Key, nat>, closedBreaker: seq<bool>, failed: nat, awaits: Awaits)

  datatype Step =
    | Tick(t: int)
    | Call(k: Key)
    | Begin(a: nat)
    | ValidateDone(a: nat, ok: bool)
    | ValidateThrow(a: nat)
    | Replaced(a: nat)
    | Resumed(a: nat)
    | CreateStart(a: nat)
    | CreateDone(a: nat)
    | CreateFail(a: nat)
    | LateDone(a: nat)
    | Finish(a: nat)
    | Release(a: nat)
    | ReleaseKey(k: Key, a: nat)
    | Timeout(w: nat)
    | SweepTimer
    | DisposeDone(e: nat)
    | DrainStart
    | DrainDone(d: nat)
    | Start
    | GcTimer
    | BreakerMoves(b: nat, closed: bool)

  function Init(now: int): State {
    State(now, EMPTY_POOL, Mutexes([], map[]), [], [], [], 0, map[], [true], 0, NO_AWAITS)
  }

  /** An acquire that has neither returned nor thrown. */
  predicate Active(x: Acq) { !x.phase.Done? && !x.phase.Failed? }

  /** The handle an acquire returned, while it is not released. */
  predicate Outstanding(x: Acq) { x.phase.Done? && !x.phase.released }

  predicate At(s: State, a: nat) { a < |s.acqs| }

  /** The entry that release(key) would drop a reference of. */
  function Target(p: Pool, k: Key): Option<nat> {
    if k in p.entries then Some(p.entries[k])
    else if k in p.orphans then Some(p.orphans[k])
    else None
  }

  predicate Ready(s: State) { Wf(s.pool) && CellsWf(s.mx) }

  /** Which steps the event loop can take. release(key) must consume a handle of its caller. */
  predicate Enabled(s: State, step: Step) {
    Ready(s) &&
    match step
    case Tick(t) => s.now <= t
    case Call(k) => true
    case Begin(a) =>
      At(s, a) && s.acqs[a].phase.Queued? && s.acqs[a].cell < |s.mx.cells|
      && s.mx.cells[s.acqs[a].cell].queue != [] && s.mx.cells[s.acqs[a].cell].queue[0] == a
    case ValidateDone(a, ok) => At(s, a) && s.acqs[a].phase.Validating? && s.acqs[a].phase.e < |s.pool.table|
    case ValidateThrow(a) => At(s, a) && s.acqs[a].phase.Validating?
    case Replaced(a) =>
      At(s, a) && s.acqs[a].phase.Replacing? && s.acqs[a].phase.e < |s.pool.table|
      && s.pool.table[s.acqs[a].phase.e].life.Disposed?
    case Resumed(a) =>
      At(s, a) && s.acqs[a].phase.Parked? && s.acqs[a].phase.w < |s.pool.log|
      && !s.pool.log[s.acqs[a].phase.w].Waiting?
    case CreateStart(a) => At(s, a) && s.acqs[a].phase.Reserved?
    case CreateDone(a) => At(s, a) && s.acqs[a].phase.Creating?
    case CreateFail(a) => At(s, a) && s.acqs[a].phase.Creating?
    case LateDone(a) => At(s, a) && s.acqs[a].phase.LateDisposing?
    case Finish(a) =>
      At(s, a) && (s.acqs[a].phase.Resolved? || s.acqs[a].phase.Rejected?)
      && (s.acqs[a].phase.Resolved? ==> s.acqs[a].phase.e < |s.pool.table|)
      && s.acqs[a].cell < |s.mx.cells| && s.mx.cells[s.acqs[a].cell].queue != []
    case Release(a) => At(s, a) && Outstanding(s.acqs[a]) && s.acqs[a].phase.e < |s.pool.table|
    case ReleaseKey(k, a) =>
      At(s, a) && Outstanding(s.acqs[a]) && Target(s.pool, k) == Some(s.acqs[a].phase.e)
    case Timeout(w) => w < |s.pool.log| && s.pool.log[w].Waiting?
    case SweepTimer => true
    case DisposeDone(e) => e < |s.pool.table| && s.pool.table[e].life.Disposing?
    case DrainStart => true
    case DrainDone(d) =>
      d < |s.drains| && !s.drains[d].done
      && forall w :: w in s.drains[d].waits ==> IsSettled(s.awaits, w)
    case Start => true
    case GcTimer => true
    case BreakerMoves(b, closed) => b < |s.closedBreaker|
  }

  /** Acquire a leaves one phase for the next. */
  function Move(s: State, a: nat, r: (Pool, Phase)): State
    requires At(s, a)
  {
    s.(pool := r.0, acqs := s.acqs[a := s.acqs[a].(phase := r.1)])
  }

  /** The same, for the segments that end in the capacity gate: parking records its owner, and a
      refusal after the miss was counted is a failed creation. */
  function MoveGate(s: State, a: nat, r: (Pool, Phase)): State
    requires At(s, a)
  {
    var t := Move(s, a, r);
    if |r.0.log| > |s.pool.log| then t.(owner := s.owner + [a])
    else if r.1.Rejected? && (s.acqs[a].phase.Parked? || r.0.counters.misses > s.pool.counters.misses)
    then t.(failed := s.failed + 1)
    else t
  }

  function CallStep(s: State, k: Key): State
    requires Ready(s)
  {
    var (q, fast) := AcquirePrefix(s.pool, k);
    match fast
    case Some(e) => s.(pool := q, acqs := s.acqs + [Acq(k, 0, Done(e, false))])
    case None =>
      var (m, c) := Enter(s.mx, k, |s.acqs|, s.now);
      s.(pool := q, mx := m, acqs := s.acqs + [Acq(k, c, Queued)])
  }

  /** The settling of the mutex, the checkout and the `finally` of acquire run back to back. */
  function FinishStep(s: State, a: nat): State
    requires Enabled(s, Finish(a))
  {
    var x := s.acqs[a];
    var m := Settled(s.mx, x.cell, s.now);
    match x.phase
    case Resolved(e) =>
      s.(pool := FinishOk(s.pool, e, x.key), mx := m, acqs := s.acqs[a := x.(phase := Done(e, false))])
    case Rejected(error) =>
      s.(pool := DecPending(s.pool, x.key), mx := m, acqs := s.acqs[a := x.(phase := Failed(error))])
    case _ => s
  }

  function ReleaseStep(s: State, a: nat): State
    requires Enabled(s, Release(a))
  {
    var e := s.acqs[a].phase.e;
    Move(s, a, (ReleaseEntry(s.pool, e, s.now), Done(e, true)))
  }

  // --- breakers ---

  /** resolveBreaker. */
  function CreateStartStep(s: State, cfg: Config, a: nat): State
    requires At(s, a)
  {
    var k := s.acqs[a].key;
    if !cfg.perKeyBreakers then Move(s, a, (s.pool, Creating(0)))
    else if k in s.breakers then Move(s, a, (s.pool, Creating(s.breakers[k])))
    else
      var b := |s.closedBreaker|;
      Move(s, a, (s.pool, Creating(b))).(breakers := s.breakers[k := b], closedBreaker := s.closedBreaker + [true])
  }

  predicate Present(p: Pool, k: Key) { k in p.entries || k in p.orphans || IsPending(p, k) }

  /** The test of dropBreaker. */
  predicate Droppable(s: State, k: Key) {
    k in s.breakers
    && s.breakers[k] < |s.closedBreaker| && s.closedBreaker[s.breakers[k]]
    && !Present(s.pool, k)
  }

  function DropBreaker(s: State, cfg: Config, k: Key): State {
    if cfg.perKeyBreakers && Droppable(s, k) then s.(breakers := s.breakers - {k}) else s
  }

  function DropAll(s: State, cfg: Config): State {
    if cfg.perKeyBreakers
    then s.(breakers := map k | k in s.breakers && !Droppable(s, k) :: s.breakers[k])
    else s
  }

  // --- the step function ---

  /** The `finally` of dispose, but for the breaker. */
  function DisposeDoneStep(s: State, e: nat): State
    requires e < |s.pool.table|
  {
    s.(pool := FinishDispose(s.pool, e), awaits := EndDisposal(s.awaits, e))
  }

  /** drain up to its await of these promises. */
  function DrainStep(s: State, ws: set<Wait>): State
    requires Wf(s.pool)
  {
    s.(pool := Drain(s.pool), drains := s.drains + [DrainRun(ws, false)], awaits := StartWaits(s.awaits, ws))
  }

  function Apply(cfg: Config, s: State, step: Step): State
    requires Enabled(s, step)
  {
    match step
    case Tick(t) => s.(now := t)
    case Call(k) => CallStep(s, k)
    case Begin(a) => MoveGate(s, a, ObtainStart(s.pool, cfg, s.acqs[a].key))
    case ValidateDone(a, ok) => Move(s, a, Validated(s.pool, s.acqs[a].phase.e, ok))
    case ValidateThrow(a) => Move(s, a, (s.pool, Rejected(ValidateThrew)))
    case Replaced(a) => MoveGate(s, a, ObtainMiss(s.pool, cfg, s.acqs[a].key))
    case Resumed(a) => MoveGate(s, a, Resume(s.pool, cfg, s.acqs[a].phase.w))
    case CreateStart(a) => CreateStartStep(s, cfg, a)
    case CreateDone(a) =>
      var r := FactoryDone(s.pool, s.acqs[a].key, s.now);
      Move(s, a, r).(failed := s.failed + One(r.1.LateDisposing?))
    case CreateFail(a) => Move(s, a, (ReleaseReservation(s.pool), Rejected(FactoryFailed))).(failed := s.failed + 1)
    case LateDone(a) => Move(s, a, (s.pool, Rejected(PoolClosed)))
    case Finish(a) => FinishStep(s, a)
    case Release(a) => ReleaseStep(s, a)
    case ReleaseKey(k, a) => Move(s, a, (ReleaseByKey(s.pool, k, s.now), Done(s.acqs[a].phase.e, true)))
    case Timeout(w) => s.(pool := Settle(s.pool, w, TimedOut))
    case SweepTimer => s.(pool := Sweep(s.pool, cfg, s.now))
    case DisposeDone(e) => DropBreaker(DisposeDoneStep(s, e), cfg, s.pool.table[e].key)
    case DrainStart => DrainStep(s, Waits(s.pool, |s.drains|))
    case DrainDone(d) => s.(drains := s.drains[d := s.drains[d].(done := true)])
    case Start => s.(pool := s.pool.(closed := false), openedAt := |s.drains|)
    case GcTimer => DropAll(s.(mx := GcCells(s.mx, cfg.mutexGcMs, s.now)), cfg)
    case BreakerMoves(b, closed) => s.(closedBreaker := s.closedBreaker[b := closed])
  }

  /** release(key) that consumes a handle on its target is that handle's release. */
  lemma ReleaseKeyIsRelease(cfg: Config, s: State, k: Key, a: nat)
    requires Enabled(s, ReleaseKey(k, a))
    ensures Enabled(s, Release(a)) && Apply(cfg, s, ReleaseKey(k, a)) == Apply(cfg, s, Release(a))
  {
  }

  // --- hypotheses ---

  /** No idle entry has been chosen by an acquire: what drain relies on without checking it. */
  predicate DrainSafe(s: State) {
    forall a :: 0 <= a < |s.acqs| && (s.acqs[a].phase.Validating? || s.acqs[a].phase.Resolved?) ==>
      s.acqs[a].phase.e < |s.pool.table| && s.pool.table[s.acqs[a].phase.e].refCount > 0
  }

  /** The last holder of a condemned entry does not leave while another acquire is about to check
      the entry out. */
  predicate ReleaseSafe(s: State, e: nat) {
    e < |s.pool.table| && s.pool.table[e].condemned && s.pool.table[e].refCount == 1 ==>
      forall a :: 0 <= a < |s.acqs| ==> s.acqs[a].phase != Resolved(e)
  }

  predicate Safe(s: State, step: Step) {
    match step
    case DrainStart => DrainSafe(s)
    case Release(a) => At(s, a) && s.acqs[a].phase.Done? && ReleaseSafe(s, s.acqs[a].phase.e)
    case ReleaseKey(k, a) => At(s, a) && s.acqs[a].phase.Done? && ReleaseSafe(s, s.acqs[a].phase.e)
    case _ => true
  }

  predicate DrainsDone(s: State) { forall d :: 0 <= d < |s.drains| ==> s.drains[d].done }

  /** start() is called only once every drain has completed. */
  predicate StartSafe(s: State, step: Step) { step.Start? ==> DrainsDone(s) }

  // --- runs ---

  /** The steps are enabled one after the other from s, and each is safe when it is taken. */
  predicate SafeRun(cfg: Config, s: State, steps: seq<Step>)
    decreases |steps|
  {
    steps == [] ||
    (Enabled(s, steps[0]) && Safe(s, steps[0]) && SafeRun(cfg, Apply(cfg, s, steps[0]), steps[1..]))
  }

  /** The same for any steps the event loop can take. */
  predicate Run(cfg: Config, s: State, steps: seq<Step>)
    decreases |steps|
  {
    steps == [] || (Enabled(s, steps[0]) && Run(cfg, Apply(cfg, s, steps[0]), steps[1..]))
  }

  function End(cfg: Config, s: State, steps: seq<Step>): State
    requires Run(cfg, s, steps)
    decreases |steps|
  {
    if steps == [] then s else End(cfg, Apply(cfg, s, steps[0]), steps[1..])
  }

  lemma SafeRunIsRun(cfg: Config, s: State, steps: seq<Step>)
    requires SafeRun(cfg, s, steps)
    ensures Run(cfg, s, steps)
    decreases |steps|
  {
    if steps != [] {
      SafeRunIsRun(cfg, Apply(cfg, s, steps[0]), steps[1..]);
    }
  }
}
