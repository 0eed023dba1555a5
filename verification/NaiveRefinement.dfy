/** On every run in which one acquire at a time is made and released, whatever else the event loop does
    in between, the pool keeps the keys, and evicts the victims, of the full-scan LRU. */
module NaiveRefinement {
  import opened Counting
  import opened PoolModel
  import opened PoolInvariant
  import opened PoolTheorems
  import opened MutexModel
  import opened AwaitModel
  import opened Protocol
  import opened ProtocolMutex
  import opened ProtocolPhases
  import opened ProtocolCounts
  import opened ProtocolInvariant
  import opened ProtocolSteps
  import opened ProtocolWakeups
  import opened NaiveScan
  import opened NaiveOrder

  // --- one use at a time ---

  predicate Over(x: Acq) { !Active(x) && !Outstanding(x) }

  /** No acquire is in flight and every handle has been released. */
  predicate AtRest(s: State) {
    !s.pool.closed && forall a :: 0 <= a < |s.acqs| ==> Over(s.acqs[a])
  }

  /** The steps of a program that acquires a key, releases it, and only then goes on to the next: its own
      may be interleaved with the passing of time, the ends of disposals, timers and breakers. */
  predicate Serial(cfg: Config, s: State, step: Step) {
    match step
    case Call(_) => AtRest(s)
    case Begin(_) => true
    case CreateStart(_) => true
    case CreateDone(_) => true
    case Finish(_) => true
    case Release(_) => true
    case ReleaseKey(_, _) => true
    case Tick(_) => true
    case DisposeDone(_) => true
    case GcTimer => true
    case SweepTimer => cfg.idleTtlMs == 0
    case BreakerMoves(_, _) => true
    case _ => false
  }

  predicate SerialRun(cfg: Config, s: State, steps: seq<Step>)
    decreases |steps|
  {
    steps == [] ||
    (Enabled(s, steps[0]) && Serial(cfg, s, steps[0]) && SerialRun(cfg, Apply(cfg, s, steps[0]), steps[1..]))
  }

  /** The keys acquired, in call order. */
  function Uses(steps: seq<Step>): seq<Key> {
    if steps == [] then [] else (if steps[0].Call? then [steps[0].k] else []) + Uses(steps[1..])
  }

  // --- a pool with one acquire in flight, or none ---

  /** All acquires but the last are over. */
  predicate Lone(s: State) {
    |s.acqs| > 0 && forall a :: 0 <= a < |s.acqs| - 1 ==> Over(s.acqs[a])
  }

  function Last(s: State): Acq
    requires |s.acqs| > 0
  {
    s.acqs[|s.acqs| - 1]
  }

  lemma CountLone(s: State, f: Acq -> bool)
    requires Lone(s) && forall x :: Over(x) ==> !f(x)
    ensures Count(s.acqs, f) == One(f(Last(s)))
  {
    var rest := s.acqs[..|s.acqs| - 1];
    assert s.acqs == rest + [Last(s)];
    CountAppend(rest, Last(s), f);
    CountNone(rest, f);
  }

  /** What the counters of the pool are. */
  lemma LoneCounts(cfg: Config, s: State)
    requires CountInv(cfg, s.pool, s.acqs, s.failed) && Lone(s) && cfg.max >= 1
    ensures forall k :: IsPending(s.pool, k) ==> Active(Last(s)) && k == Last(s).key
    ensures forall e :: 0 <= e < |s.pool.table| ==> s.pool.table[e].refCount == One(Holds(e)(Last(s)))
    ensures s.pool.reserved == One(IsReserving()(Last(s)))
  {
    hide Over;
    OverCounts();
    forall k | IsPending(s.pool, k) ensures Active(Last(s)) && k == Last(s).key {
      CountLone(s, ActiveOn(k));
      assert Pending(s.pool, k) == Count(s.acqs, ActiveOn(k));
    }
    forall e | 0 <= e < |s.pool.table| ensures s.pool.table[e].refCount == One(Holds(e)(Last(s))) {
      CountLone(s, Holds(e));
    }
    CountLone(s, IsReserving());
  }

  lemma OverCounts()
    ensures forall x, k :: Over(x) ==> !ActiveOn(k)(x)
    ensures forall x, e :: Over(x) ==> !Holds(e)(x)
    ensures forall x :: Over(x) ==> !IsReserving()(x)
  {
  }

  predicate Unheld(p: Pool) { forall e :: 0 <= e < |p.table| ==> p.table[e].refCount == 0 }

  lemma LoneQueue(cfg: Config, s: State)
    requires QueueOk(s.pool.log, s.pool.queue) && WaiterInv(cfg, s.pool, s.acqs, s.owner)
    requires Lone(s) && !Last(s).phase.Parked?
    ensures s.pool.queue == []
  {
    if s.pool.queue != [] {
      ParkedOwner(cfg, s, s.pool.queue[0]);
    }
  }

  lemma ParkedOwner(cfg: Config, s: State, w: nat)
    requires QueueOk(s.pool.log, s.pool.queue) && WaiterInv(cfg, s.pool, s.acqs, s.owner) && w in s.pool.queue
    ensures exists a :: 0 <= a < |s.acqs| && s.acqs[a].phase.Parked?
  {
    assert s.acqs[s.owner[w]].phase == Parked(w);
  }

  /** While nobody holds an entry, every live one is idle and none is condemned. */
  lemma UnheldIs(p: Pool, now: int)
    requires PoolInv(p, now) && Unheld(p)
    ensures Wf(p) && p.orphans == map[]
    ensures forall k :: k in p.entries ==> Resting(p, k)
  {
    ResidentsLive(p, now);
    forall k | k in p.entries ensures Resting(p, k) {
      assert RecOk(p.table, p.entries, p.orphans, p.entries[k]);
    }
    assert p.orphans.Keys == {};
  }

  predicate Resting(p: Pool, k: Key)
    requires Wf(p) && k in p.entries
  {
    var e := p.entries[k];
    p.table[e].refCount == 0 && e in p.idle && p.table[e].life.Live? && p.table[e].key == k && !p.table[e].condemned
  }

  // --- the two pools side by side ---

  /** The append stamps of the live keys. */
  function Stamps(p: Pool): map<Key, int>
    requires Wf(p)
  {
    map k | k in p.entries :: p.table[p.entries[k]].stamp
  }

  lemma StampKeys(p: Pool)
    requires Wf(p)
    ensures Stamps(p).Keys == p.entries.Keys && |Stamps(p)| == |p.entries|
  {
    assert Stamps(p).Keys == p.entries.Keys;
    assert |Stamps(p).Keys| == |Stamps(p)|;
  }

  /** The entry of k is there for its acquire. */
  predicate Obtained(p: Pool, e: nat, v: map<Key, int>, max: int, k: Key, gone: set<Key>)
    requires Wf(p)
  {
    Leaves(v, max, k, gone) && k in p.entries && p.entries[k] == e && !p.table[e].condemned
    && UsedFrom(v, Stamps(p), k, gone)
  }

  /** From a pool at rest with the stamps v to the release of k: who is gone is gone at the gate. */
  predicate Standing(p: Pool, phase: Phase, v: map<Key, int>, max: int, k: Key, gone: set<Key>)
    requires Wf(p)
  {
    match phase
    case Queued => Stamps(p) == v
    case Reserved => k !in v && Leaves(v, max, k, gone) && Stamps(p) == v - gone
    case Creating(_) => k !in v && Leaves(v, max, k, gone) && Stamps(p) == v - gone
    case Resolved(e) => Obtained(p, e, v, max, k, gone)
    case Done(e, released) => !released && Obtained(p, e, v, max, k, gone)
    case _ => false
  }

  /** A use of k is under way, in a pool that had the stamps v before. */
  predicate Using(s: State, v: map<Key, int>, max: int, k: Key, gone: set<Key>) {
    Wf(s.pool) && !s.pool.closed && Lone(s) && Last(s).key == k && Standing(s.pool, Last(s).phase, v, max, k, gone)
  }

  /** Same keys, used in the same order. */
  predicate SameUse(v: map<Key, int>, n: Naive, max: int) {
    NaiveInv(n) && SameOrder(n.used, v) && |v| <= max
  }

  ghost predicate Sim(cfg: Config, s: State, n: Naive) {
    Inv(cfg, s) && AtRest(s) && Wf(s.pool) && SameUse(Stamps(s.pool), n, cfg.max)
  }

  /** The naive pool has already used the key in use. */
  ghost predicate InUse(cfg: Config, s: State, n: Naive) {
    Inv(cfg, s) && exists u, v, k, gone ::
      SameUse(v, u, cfg.max) && Using(s, v, cfg.max, k, gone) && n == NaiveAcquire(u, cfg.max, k)
  }

  // --- the gate ---

  /** The victim of a full pool that nobody holds anything of. */
  lemma FirstIsVictim(z: Pool, now: int, k: Key) returns (f: Key)
    requires PoolInv(z, now) && Unheld(z) && k !in z.entries && z.entries != map[]
    requires forall l :: IsPending(z, l) ==> l == k
    ensures Wf(z) && f in z.entries && FirstFree(z, z.idle) == Some(z.entries[f])
    ensures z.table[z.entries[f]].key == f && IsFirst(Stamps(z), f)
  {
    UnheldIs(z, now);
    LruIsFullScan(z, now);
    hide PoolInv, IsPending, Wf, FirstFree;
    forall l | l in z.entries ensures Evictable(z, z.entries[l]) {
      assert Resting(z, l);
    }
    assert z.entries.Keys != {};
    var l :| l in z.entries.Keys;
    assert ScanAnswers(z, FirstFree(z, z.idle));
    var x := FirstFree(z, z.idle).value;
    f := z.table[x].key;
    forall l | l in z.entries && l != f ensures z.table[x].stamp < z.table[z.entries[l]].stamp {
      assert Resting(z, l);
    }
  }

  lemma SlotFree(cfg: Config, p: Pool)
    requires Wf(p) && cfg.max >= 1 && !p.closed && |p.entries| + p.reserved < cfg.max
    ensures SlotStep(p, cfg) == (p.(reserved := p.reserved + 1), Granted)
  {
  }

  lemma SlotFull(cfg: Config, p: Pool, v: nat)
    requires Wf(p) && cfg.max >= 1 && !p.closed && |p.entries| + p.reserved >= cfg.max
    requires FirstFree(p, p.idle) == Some(v)
    ensures v < |p.table| && SlotStep(p, cfg) == (Displace(p, v), Granted)
  {
  }

  lemma DisplaceForm(p: Pool, v: nat)
    requires Wf(p) && v < |p.table|
    ensures Displace(p, v).table == p.table[v := DisposeRec(p.table[v])]
    ensures Displace(p, v).entries == p.entries - {p.table[v].key} && Displace(p, v).closed == p.closed
    ensures Displace(p, v).log == p.log && Wf(Displace(p, v))
  {
    WfWithout(p, v);
  }

  lemma DisplaceStamps(p: Pool, f: Key)
    requires Wf(p) && f in p.entries && p.table[p.entries[f]].key == f
    ensures Wf(Displace(p, p.entries[f])) && Stamps(Displace(p, p.entries[f])) == Stamps(p) - {f}
  {
    hide Displace;
    DisplaceForm(p, p.entries[f]);
  }

  lemma GateTakes(cfg: Config, z: Pool, now: int, k: Key) returns (gone: set<Key>)
    requires PoolInv(z, now) && Wf(z) && Unheld(z) && k !in z.entries && !z.closed && z.reserved == 0
    requires forall l :: IsPending(z, l) ==> l == k
    requires 1 <= cfg.max && |z.entries| <= cfg.max
    ensures SlotStep(z, cfg).1.Granted? && !SlotStep(z, cfg).0.closed && SlotStep(z, cfg).0.log == z.log
    ensures Wf(SlotStep(z, cfg).0) && Stamps(SlotStep(z, cfg).0) == Stamps(z) - gone
    ensures Leaves(Stamps(z), cfg.max, k, gone)
  {
    hide PoolInv, SlotStep, Displace, IsPending, Unheld, IsFirst;
    StampKeys(z);
    if |z.entries| < cfg.max {
      gone := {};
      SlotFree(cfg, z);
      assert Stamps(z) - gone == Stamps(z);
    } else {
      var f := FirstIsVictim(z, now, k);
      gone := {f};
      SlotFull(cfg, z, z.entries[f]);
      DisplaceStamps(z, f);
      DisplaceForm(z, z.entries[f]);
      assert f in Stamps(z).Keys;
    }
  }

  /** obtain of a key that is not resident goes straight for a slot. */
  lemma MissForm(cfg: Config, p: Pool, k: Key)
    requires Wf(p) && k !in p.entries && k !in p.orphans && !p.closed
    ensures ObtainStart(p, cfg, k) ==
      AfterSlot(SlotStep(p.(counters := p.counters.(misses := p.counters.misses + 1)), cfg))
  {
    hide SlotStep;
  }

  lemma HitForm(cfg: Config, p: Pool, k: Key)
    requires Wf(p) && k in p.entries && p.table[p.entries[k]].life.Live? && !cfg.validates
    ensures ObtainStart(p, cfg, k) == (Hit(p), Resolved(p.entries[k]))
  {
  }

  // --- the steps of a use ---

  /** How many steps the use still takes, at most. */
  function Rank(phase: Phase): nat {
    match phase
    case Queued => 5
    case Reserved => 4
    case Creating(_) => 3
    case Resolved(_) => 2
    case Done(_, _) => 1
    case _ => 0
  }

  /** What the invariant says while an acquire that holds nothing yet is the only one. */
  lemma LoneIs(cfg: Config, s: State)
    requires Inv(cfg, s) && Lone(s) && Active(Last(s)) && cfg.max >= 1
    ensures PoolInv(s.pool, s.now) && Unheld(s.pool) && Wf(s.pool) && CellsWf(s.mx)
    ensures forall l :: IsPending(s.pool, l) ==> l == Last(s).key
    ensures s.pool.reserved == One(IsReserving()(Last(s))) && PhaseOk(s.pool, Last(s))
  {
    About(cfg, s, |s.acqs| - 1);
    hide PoolInv, PhaseOk, Wf, CellsWf, PendingOk, HandlesOk, IsPending;
    LoneCounts(cfg, s);
  }

  /** The segment up to the gate, or to the hit. */
  lemma Obtains(cfg: Config, p: Pool, now: int, v: map<Key, int>, k: Key) returns (gone: set<Key>)
    requires PoolInv(p, now) && Wf(p) && Unheld(p) && !p.closed && p.reserved == 0
    requires forall l :: IsPending(p, l) ==> l == k
    requires 1 <= cfg.max && !cfg.validates && |v| <= cfg.max && Stamps(p) == v
    ensures var r := ObtainStart(p, cfg, k);
      Wf(r.0) && !r.0.closed && r.0.log == p.log && (r.1.Reserved? || r.1.Resolved?)
      && Standing(r.0, r.1, v, cfg.max, k, gone)
  {
    hide PoolInv, Wf, IsPending, Unheld, Leaves, Obtained, ObtainStart;
    UnheldIs(p, now);
    if k in p.entries {
      assert Resting(p, k);
      HitForm(cfg, p, k);
      gone := {};
      HitStands(p, v, cfg.max, k);
    } else {
      gone := ObtainsMiss(cfg, p, now, v, k);
    }
  }

  lemma ObtainsMiss(cfg: Config, p: Pool, now: int, v: map<Key, int>, k: Key) returns (gone: set<Key>)
    requires PoolInv(p, now) && Wf(p) && Unheld(p) && !p.closed
    requires p.reserved == 0 && k !in p.entries && p.orphans == map[]
    requires forall l :: IsPending(p, l) ==> l == k
    requires 1 <= cfg.max && |v| <= cfg.max && Stamps(p) == v
    ensures var r := ObtainStart(p, cfg, k);
      Wf(r.0) && !r.0.closed && r.0.log == p.log && r.1 == Reserved && Standing(r.0, r.1, v, cfg.max, k, gone)
  {
    hide PoolInv, Wf, SlotStep, IsPending, Unheld, Leaves, ObtainStart;
    var z := p.(counters := p.counters.(misses := p.counters.misses + 1));
    StampKeys(p);
    assert k !in v.Keys;
    Missed(p, z, now, k);
    MissForm(cfg, p, k);
    gone := GateTakes(cfg, z, now, k);
  }

  lemma Missed(p: Pool, z: Pool, now: int, k: Key)
    requires PoolInv(p, now) && Wf(p) && Unheld(p)
    requires z == p.(counters := p.counters.(misses := p.counters.misses + 1))
    requires forall l :: IsPending(p, l) ==> l == k
    ensures PoolInv(z, now) && Wf(z) && Unheld(z) && Stamps(z) == Stamps(p)
    ensures forall l :: IsPending(z, l) ==> l == k
  {
    OtherFields(p, z, now);
    forall l | IsPending(z, l) ensures l == k {
      assert IsPending(p, l);
    }
  }

  lemma HitStands(p: Pool, v: map<Key, int>, max: int, k: Key)
    requires Wf(p) && k in p.entries && !p.table[p.entries[k]].condemned && Stamps(p) == v
    ensures Wf(Hit(p)) && Obtained(Hit(p), p.entries[k], v, max, k, {})
  {
    assert Stamps(Hit(p)) == v;
    assert v - {} == v;
  }

  lemma BeginUses(cfg: Config, s: State, v: map<Key, int>, k: Key, gone: set<Key>) returns (gone': set<Key>)
    requires Inv(cfg, s) && Using(s, v, cfg.max, k, gone) && Last(s).phase.Queued? && Enabled(s, Begin(|s.acqs| - 1))
    requires 1 <= cfg.max && !cfg.validates && |v| <= cfg.max
    ensures Using(Apply(cfg, s, Begin(|s.acqs| - 1)), v, cfg.max, k, gone')
    ensures Rank(Last(Apply(cfg, s, Begin(|s.acqs| - 1))).phase) < 5
    ensures var t := Apply(cfg, s, Begin(|s.acqs| - 1));
      (t.pool, Last(t).phase) == ObtainStart(s.pool, cfg, k) && (Last(t).phase.Reserved? || Last(t).phase.Resolved?)
  {
    hide Inv, PoolInv, Wf, CellsWf, ObtainStart, Unheld, PhaseOk, Leaves, Apply, Enabled;
    LoneIs(cfg, s);
    gone' := Obtains(cfg, s.pool, s.now, v, k);
    hide Standing;
    Moved(cfg, s);
  }

  /** Begin of the last acquire, when it parks nobody. */
  lemma Moved(cfg: Config, s: State)
    requires Lone(s) && Enabled(s, Begin(|s.acqs| - 1)) && Wf(s.pool)
    requires ObtainStart(s.pool, cfg, Last(s).key).0.log == s.pool.log
    requires !ObtainStart(s.pool, cfg, Last(s).key).1.Rejected?
    ensures var t := Apply(cfg, s, Begin(|s.acqs| - 1)); var r := ObtainStart(s.pool, cfg, Last(s).key);
      Lone(t) && t.pool == r.0 && Last(t) == Last(s).(phase := r.1)
  {
    hide ObtainStart, Wf, CellsWf;
  }

  lemma CreateStartUses(cfg: Config, s: State, v: map<Key, int>, k: Key, gone: set<Key>)
    requires Using(s, v, cfg.max, k, gone) && Last(s).phase.Reserved? && Enabled(s, CreateStart(|s.acqs| - 1))
    ensures Using(Apply(cfg, s, CreateStart(|s.acqs| - 1)), v, cfg.max, k, gone)
    ensures Rank(Last(Apply(cfg, s, CreateStart(|s.acqs| - 1))).phase) < 4
    ensures var t := Apply(cfg, s, CreateStart(|s.acqs| - 1)); t.pool == s.pool && Last(t).phase.Creating?
  {
    hide Wf, CellsWf, Leaves, Stamps;
  }

  lemma InsertStamps(p: Pool, now: int, k: Key)
    requires Wf(p)
    ensures var q := InsertCreated(p, k, now); Wf(q) && Stamps(q) == Stamps(p)[k := p.stamps] && q.closed == p.closed
    ensures var q := InsertCreated(p, k, now);
      k in q.entries && q.entries[k] == |p.table| < |q.table| && !q.table[|p.table|].condemned
  {
    InsertForm(p, k, now);
    hide InsertCreated;
    var q := InsertCreated(p, k, now);
    assert Stamps(q).Keys == Stamps(p)[k := p.stamps].Keys;
  }

  lemma InsertStands(p: Pool, now: int, v: map<Key, int>, max: int, k: Key, gone: set<Key>)
    requires Wf(p) && k !in v && Leaves(v, max, k, gone) && Stamps(p) == v - gone
    ensures var q := InsertCreated(p, k, now); Wf(q) && q.closed == p.closed && Obtained(q, |p.table|, v, max, k, gone)
  {
    hide InsertCreated, Leaves, Stamps, Wf;
    InsertStamps(p, now, k);
  }

  lemma CreateDoneUses(cfg: Config, s: State, v: map<Key, int>, k: Key, gone: set<Key>)
    requires Using(s, v, cfg.max, k, gone) && Last(s).phase.Creating? && Enabled(s, CreateDone(|s.acqs| - 1))
    ensures Using(Apply(cfg, s, CreateDone(|s.acqs| - 1)), v, cfg.max, k, gone)
    ensures Rank(Last(Apply(cfg, s, CreateDone(|s.acqs| - 1))).phase) < 3
    ensures var t := Apply(cfg, s, CreateDone(|s.acqs| - 1));
      t.pool == InsertCreated(s.pool, k, s.now) && Last(t).phase == Resolved(|s.pool.table|)
  {
    InsertStands(s.pool, s.now, v, cfg.max, k, gone);
    hide Wf, CellsWf, Leaves, Stamps, InsertCreated, Obtained;
  }

  lemma CheckoutStands(p: Pool, e: nat, v: map<Key, int>, max: int, k: Key, gone: set<Key>)
    requires Wf(p) && Obtained(p, e, v, max, k, gone)
    ensures e < |p.table|
    ensures var q := FinishOk(p, e, k); Wf(q) && q.closed == p.closed && Obtained(q, e, v, max, k, gone)
  {
    HandOutForm(p, e, k);
    hide FinishOk, Leaves, UsedFrom;
    assert Stamps(FinishOk(p, e, k)) == Stamps(p);
  }

  lemma HandOutForm(p: Pool, e: nat, k: Key)
    requires Wf(p) && e < |p.table|
    ensures CheckedOut(p, FinishOk(p, e, k), e) && Wf(FinishOk(p, e, k))
  {
    WfWithout(p, e);
  }

  lemma FinishMoves(cfg: Config, s: State)
    requires Lone(s) && Enabled(s, Finish(|s.acqs| - 1)) && Last(s).phase.Resolved?
    ensures var t := Apply(cfg, s, Finish(|s.acqs| - 1));
      Lone(t) && Last(s).phase.e < |s.pool.table| && t.pool == FinishOk(s.pool, Last(s).phase.e, Last(s).key)
      && Last(t) == Last(s).(phase := Done(Last(s).phase.e, false))
  {
    hide Wf, CellsWf, FinishOk, Settled;
  }

  lemma FinishUses(cfg: Config, s: State, v: map<Key, int>, k: Key, gone: set<Key>)
    requires Using(s, v, cfg.max, k, gone) && Last(s).phase.Resolved? && Enabled(s, Finish(|s.acqs| - 1))
    ensures Using(Apply(cfg, s, Finish(|s.acqs| - 1)), v, cfg.max, k, gone)
    ensures Rank(Last(Apply(cfg, s, Finish(|s.acqs| - 1))).phase) < 2
  {
    hide Wf, Obtained, FinishOk, Apply, Enabled;
    FinishMoves(cfg, s);
    CheckoutStands(s.pool, Last(s).phase.e, v, cfg.max, k, gone);
  }

  // --- the release ---

  /** The only handle, of a live entry that is not condemned, while nobody is parked. */
  predicate HeldAlone(p: Pool, e: nat) {
    && e < |p.table| && p.table[e].refCount == 1 && p.table[e].life.Live? && !p.table[e].condemned
    && p.orphans == map[] && p.queue == [] && e !in p.idle
  }

  lemma ReleaseForm(p: Pool, e: nat, now: int)
    requires Wf(p) && HeldAlone(p, e)
    ensures var q := ReleaseEntry(p, e, now);
      Wf(q) && q.entries == p.entries && |q.table| == |p.table| && q.closed == p.closed && q.table[e].stamp == p.stamps
      && forall x :: 0 <= x < |p.table| && x != e ==> q.table[x] == p.table[x]
  {
  }

  /** Every other live entry is idle, so was appended before. */
  lemma OthersOlder(p: Pool, now: int, k: Key)
    requires PoolInv(p, now) && Wf(p) && k in p.entries
    requires forall e :: 0 <= e < |p.table| && e != p.entries[k] ==> p.table[e].refCount == 0
    ensures forall l :: l in p.entries && l != k ==>
      p.entries[l] != p.entries[k] && p.table[p.entries[l]].stamp < p.stamps
  {
    forall l | l in p.entries && l != k
      ensures p.entries[l] != p.entries[k] && p.table[p.entries[l]].stamp < p.stamps
    {
      assert p.table[p.entries[l]].key == l && p.table[p.entries[k]].key == k;
      assert p.entries[l] in p.idle;
    }
  }

  lemma OrphanElsewhere(p: Pool, now: int, k: Key, l: Key)
    requires PoolInv(p, now) && k in p.entries && p.entries[k] < |p.table| && !p.table[p.entries[k]].condemned
    requires l in p.orphans
    ensures p.orphans[l] < |p.table| && p.orphans[l] != p.entries[k] && p.table[p.orphans[l]].refCount > 0
  {
    ResidentsLive(p, now);
  }

  lemma HeldAloneIs(p: Pool, now: int, k: Key)
    requires PoolInv(p, now) && Wf(p) && k in p.entries && p.queue == []
    requires forall e :: 0 <= e < |p.table| ==> p.table[e].refCount == One(e == p.entries[k])
    requires !p.table[p.entries[k]].condemned
    ensures HeldAlone(p, p.entries[k])
  {
    var e := p.entries[k];
    ResidentsLive(p, now);
    if p.orphans.Keys != {} {
      var l :| l in p.orphans;
      OrphanElsewhere(p, now, k, l);
    }
    assert e !in p.idle;
  }

  lemma NewStamp(p: Pool, q: Pool, v: map<Key, int>, k: Key, gone: set<Key>)
    requires Wf(p) && Wf(q) && q.entries == p.entries && |q.table| == |p.table| && k in p.entries
    requires q.table[p.entries[k]].stamp == p.stamps && UsedFrom(v, Stamps(p), k, gone)
    requires forall x :: 0 <= x < |p.table| && x != p.entries[k] ==> q.table[x] == p.table[x]
    requires forall l :: l in p.entries && l != k ==>
      p.entries[l] != p.entries[k] && p.table[p.entries[l]].stamp < p.stamps
    ensures UsedFrom(v, Stamps(q), k, gone) && IsNewest(Stamps(q), k)
  {
    assert Stamps(q).Keys == Stamps(p).Keys;
    assert forall l :: l in Stamps(q) && l != k ==> Stamps(q)[l] == Stamps(p)[l];
  }

  lemma ReleaseStamps(p: Pool, now: int, v: map<Key, int>, max: int, k: Key, gone: set<Key>)
    requires PoolInv(p, now) && Wf(p) && k in p.entries && HeldAlone(p, p.entries[k])
    requires Obtained(p, p.entries[k], v, max, k, gone)
    requires forall e :: 0 <= e < |p.table| ==> p.table[e].refCount == One(e == p.entries[k])
    ensures var q := ReleaseEntry(p, p.entries[k], now);
      Wf(q) && !q.closed == !p.closed && UsedFrom(v, Stamps(q), k, gone) && IsNewest(Stamps(q), k)
  {
    ReleaseForm(p, p.entries[k], now);
    OthersOlder(p, now, k);
    hide PoolInv, ReleaseEntry, Leaves, HeldAlone;
    hide UsedFrom, IsNewest;
    var q := ReleaseEntry(p, p.entries[k], now);
    NewStamp(p, q, v, k, gone);
  }

  lemma HeldLone(cfg: Config, s: State, e: nat)
    requires Inv(cfg, s) && Lone(s) && Last(s).phase == Done(e, false) && cfg.max >= 1
    ensures PoolInv(s.pool, s.now) && s.pool.queue == []
    ensures forall x :: 0 <= x < |s.pool.table| ==> s.pool.table[x].refCount == One(x == e)
  {
    LoneCounts(cfg, s);
    LoneQueue(cfg, s);
  }

  lemma ReleaseMoves(cfg: Config, s: State)
    requires Lone(s) && Enabled(s, Release(|s.acqs| - 1))
    ensures Wf(s.pool) && Last(s).phase.e < |s.pool.table|
    ensures var t := Apply(cfg, s, Release(|s.acqs| - 1));
      t.pool == ReleaseEntry(s.pool, Last(s).phase.e, s.now) && forall a :: 0 <= a < |t.acqs| ==> Over(t.acqs[a])
    ensures ReleaseSafe(s, Last(s).phase.e)
  {
    hide Wf, CellsWf, ReleaseEntry;
  }

  lemma ReleaseSims(cfg: Config, s: State, u: Naive, v: map<Key, int>, k: Key, gone: set<Key>)
    requires Inv(cfg, s) && Using(s, v, cfg.max, k, gone) && Last(s).phase.Done? && cfg.max >= 1
    requires SameUse(v, u, cfg.max)
    ensures Wf(s.pool) && Last(s).phase.e < |s.pool.table|
    ensures var q := ReleaseEntry(s.pool, Last(s).phase.e, s.now);
      Wf(q) && !q.closed && SameUse(Stamps(q), NaiveAcquire(u, cfg.max, k), cfg.max)
  {
    hide PoolInv, Wf, Obtained, Leaves, HeldAlone, ReleaseEntry, NaiveAcquire, UsedFrom, SameOrder, NaiveInv, CellsWf;
    hide IsNewest, MutexInv, PhaseInv, CountInv, WaiterInv, BreakerInv, DrainInv, Stamps;
    var e := Last(s).phase.e;
    HeldLone(cfg, s, e);
    ObtainedIs(s.pool, e, v, cfg.max, k, gone);
    HeldAloneIs(s.pool, s.now, k);
    ReleaseStamps(s.pool, s.now, v, cfg.max, k, gone);
    UseKeeps(v, Stamps(ReleaseEntry(s.pool, e, s.now)), u, cfg.max, k, gone);
  }

  lemma ReleaseEnds(cfg: Config, s: State, u: Naive, v: map<Key, int>, k: Key, gone: set<Key>)
    requires Inv(cfg, s) && Using(s, v, cfg.max, k, gone) && Last(s).phase.Done? && cfg.max >= 1
    requires SameUse(v, u, cfg.max) && Enabled(s, Release(|s.acqs| - 1))
    ensures Safe(s, Release(|s.acqs| - 1))
    ensures Sim(cfg, Apply(cfg, s, Release(|s.acqs| - 1)), NaiveAcquire(u, cfg.max, k))
  {
    hide Inv, Wf, Standing, Stamps, SameUse, NaiveAcquire, Apply, Enabled, ReleaseSafe;
    ReleaseSims(cfg, s, u, v, k, gone);
    ReleaseMoves(cfg, s);
    StepKeeps(cfg, s, Release(|s.acqs| - 1));
  }

  lemma ObtainedIs(p: Pool, e: nat, v: map<Key, int>, max: int, k: Key, gone: set<Key>)
    requires Wf(p) && Obtained(p, e, v, max, k, gone)
    ensures k in p.entries && p.entries[k] == e && !p.table[e].condemned && Leaves(v, max, k, gone)
  {
  }

  // --- the steps of others ---

  predicate IsQuiet(cfg: Config, step: Step) {
    step.Tick? || step.DisposeDone? || step.GcTimer? || (step.SweepTimer? && cfg.idleTtlMs == 0) || step.BreakerMoves?
  }

  /** The live keys, their stamps and what is condemned are the same. */
  predicate LooksLike(p: Pool, q: Pool) {
    && q.entries == p.entries && |q.table| == |p.table| && q.closed == p.closed
    && forall e :: 0 <= e < |p.table| ==>
         q.table[e].stamp == p.table[e].stamp && q.table[e].condemned == p.table[e].condemned
  }

  lemma QuietLooks(cfg: Config, s: State, step: Step)
    requires Enabled(s, step) && IsQuiet(cfg, step)
    ensures LooksLike(s.pool, Apply(cfg, s, step).pool) && Apply(cfg, s, step).acqs == s.acqs
    ensures Safe(s, step)
  {
    hide Wf, CellsWf, Droppable;
  }

  lemma LooksStand(p: Pool, q: Pool, phase: Phase, v: map<Key, int>, max: int, k: Key, gone: set<Key>)
    requires Wf(p) && Wf(q) && LooksLike(p, q)
    ensures Stamps(q) == Stamps(p)
    ensures Standing(p, phase, v, max, k, gone) ==> Standing(q, phase, v, max, k, gone)
  {
    hide Leaves, UsedFrom;
    assert Stamps(q) == Stamps(p);
  }

  lemma QuietUses(cfg: Config, s: State, v: map<Key, int>, k: Key, gone: set<Key>, step: Step)
    requires Inv(cfg, s) && Using(s, v, cfg.max, k, gone) && Enabled(s, step) && IsQuiet(cfg, step)
    ensures Inv(cfg, Apply(cfg, s, step)) && Using(Apply(cfg, s, step), v, cfg.max, k, gone)
  {
    hide Inv, Wf, Apply, Enabled, LooksLike, Standing, Safe;
    QuietLooks(cfg, s, step);
    StepKeeps(cfg, s, step);
    PoolAlive(cfg, Apply(cfg, s, step));
    LooksStand(s.pool, Apply(cfg, s, step).pool, Last(s).phase, v, cfg.max, k, gone);
    LooksOpen(s.pool, Apply(cfg, s, step).pool);
  }

  lemma LooksOpen(p: Pool, q: Pool)
    requires LooksLike(p, q)
    ensures q.closed == p.closed
  {
  }

  lemma QuietSims(cfg: Config, s: State, n: Naive, step: Step)
    requires Sim(cfg, s, n) && Enabled(s, step) && IsQuiet(cfg, step)
    ensures Sim(cfg, Apply(cfg, s, step), n)
  {
    hide Inv, Wf, Apply, Enabled, LooksLike, Standing, Safe, Stamps, SameUse;
    QuietLooks(cfg, s, step);
    StepKeeps(cfg, s, step);
    PoolAlive(cfg, Apply(cfg, s, step));
    LooksStand(s.pool, Apply(cfg, s, step).pool, Queued, map[], cfg.max, "", {});
    LooksOpen(s.pool, Apply(cfg, s, step).pool);
  }

  // --- a call ---

  lemma CallForm(cfg: Config, s: State, k: Key)
    requires Ready(s) && Unheld(s.pool)
    ensures Apply(cfg, s, Call(k)).pool == IncPending(s.pool, k)
    ensures Apply(cfg, s, Call(k)).acqs == s.acqs + [Acq(k, Enter(s.mx, k, |s.acqs|, s.now).1, Queued)]
  {
  }

  lemma IncStamps(p: Pool, k: Key)
    requires Wf(p)
    ensures Wf(IncPending(p, k)) && Stamps(IncPending(p, k)) == Stamps(p) && IncPending(p, k).closed == p.closed
  {
  }

  lemma RestUnheld(cfg: Config, s: State)
    requires Inv(cfg, s) && AtRest(s)
    ensures Unheld(s.pool)
  {
    hide PoolInv, MutexInv, PhaseInv, PendingOk, GateOk, TrafficOk, RefsOk, WaiterInv, BreakerInv, DrainInv;
    NobodyHolds(s.pool.table, s.acqs);
  }

  lemma NobodyHolds(t: seq<Rec>, acqs: seq<Acq>)
    requires HandlesOk(t, acqs) && forall a :: 0 <= a < |acqs| ==> Over(acqs[a])
    ensures forall e :: 0 <= e < |t| ==> t[e].refCount == 0
  {
    forall e | 0 <= e < |t| ensures t[e].refCount == 0 {
      CountNone(acqs, Holds(e));
    }
  }

  lemma CallUses(cfg: Config, s: State, n: Naive, k: Key)
    requires Sim(cfg, s, n) && cfg.max >= 1 && Enabled(s, Call(k))
    ensures Inv(cfg, Apply(cfg, s, Call(k)))
    ensures Using(Apply(cfg, s, Call(k)), Stamps(s.pool), cfg.max, k, {})
  {
    hide Inv, Unheld, Apply, Wf, CellsWf, Stamps, IncPending, Over, SameUse;
    RestUnheld(cfg, s);
    StepKeeps(cfg, s, Call(k));
    CallForm(cfg, s, k);
    IncStamps(s.pool, k);
    assert Last(Apply(cfg, s, Call(k))) == Acq(k, Enter(s.mx, k, |s.acqs|, s.now).1, Queued);
  }

  // --- every step ---

  ghost predicate SerialInv(cfg: Config, s: State, n: Naive) { Sim(cfg, s, n) || InUse(cfg, s, n) }

  ghost function NaiveStep(n: Naive, max: int, step: Step): Naive {
    if step.Call? then NaiveAcquire(n, max, step.k) else n
  }

  /** In a pool in use, the acquire that takes a step is the last. */
  lemma WhoSteps(cfg: Config, s: State, v: map<Key, int>, k: Key, gone: set<Key>, step: Step)
    requires Using(s, v, cfg.max, k, gone) && Enabled(s, step) && Serial(cfg, s, step)
    ensures var a := |s.acqs| - 1;
      || IsQuiet(cfg, step)
      || (step == Begin(a) && Last(s).phase.Queued?)
      || (step == CreateStart(a) && Last(s).phase.Reserved?)
      || (step == CreateDone(a) && Last(s).phase.Creating?)
      || (step == Finish(a) && Last(s).phase.Resolved?)
      || (step == Release(a) && Last(s).phase.Done?)
      || (step.ReleaseKey? && step.a == a && Last(s).phase.Done?)
  {
    hide Wf, CellsWf, Obtained, Leaves, Stamps;
    assert !Over(Last(s));
  }

  lemma StepUses(cfg: Config, s: State, u: Naive, v: map<Key, int>, k: Key, gone: set<Key>, step: Step)
    requires Inv(cfg, s) && SameUse(v, u, cfg.max) && Using(s, v, cfg.max, k, gone)
    requires 1 <= cfg.max && !cfg.validates && Enabled(s, step) && Serial(cfg, s, step)
    ensures SerialInv(cfg, Apply(cfg, s, step), NaiveAcquire(u, cfg.max, k)) && !step.Call?
  {
    hide Inv, Using, NaiveInv, SameOrder, Enabled, Serial, Apply, NaiveAcquire, Sim;
    WhoSteps(cfg, s, v, k, gone, step);
    var a, gone' := |s.acqs| - 1, gone;
    var t := Apply(cfg, s, step);
    if step.Release? || step.ReleaseKey? {
      if step.ReleaseKey? {
        ReleaseKeyIsRelease(cfg, s, step.k, step.a);
      }
      ReleaseEnds(cfg, s, u, v, k, gone);
    } else {
      if IsQuiet(cfg, step) {
        QuietUses(cfg, s, v, k, gone, step);
      } else {
        if step.Begin? {
          gone' := BeginUses(cfg, s, v, k, gone);
        } else if step.CreateStart? {
          CreateStartUses(cfg, s, v, k, gone);
        } else if step.CreateDone? {
          CreateDoneUses(cfg, s, v, k, gone);
        } else {
          FinishUses(cfg, s, v, k, gone);
        }
        StepKeeps(cfg, s, step);
      }
      assert Using(t, v, cfg.max, k, gone');
    }
  }

  lemma RestStep(cfg: Config, s: State, n: Naive, step: Step)
    requires Sim(cfg, s, n) && 1 <= cfg.max && Enabled(s, step) && Serial(cfg, s, step)
    ensures SerialInv(cfg, Apply(cfg, s, step), NaiveStep(n, cfg.max, step))
  {
    RestSteps(cfg, s, step);
    hide Inv, NaiveInv, SameOrder, Enabled, Serial, Apply, NaiveAcquire, Using, AtRest;
    if step.Call? {
      CallUses(cfg, s, n, step.k);
      assert SameUse(Stamps(s.pool), n, cfg.max);
    } else {
      QuietSims(cfg, s, n, step);
    }
  }

  lemma RestSteps(cfg: Config, s: State, step: Step)
    requires AtRest(s) && Enabled(s, step) && Serial(cfg, s, step)
    ensures step.Call? || IsQuiet(cfg, step)
  {
    hide Wf, CellsWf;
  }

  /** Each step keeps the pools in step. */
  lemma SerialKeeps(cfg: Config, s: State, n: Naive, step: Step)
    requires SerialInv(cfg, s, n) && 1 <= cfg.max && !cfg.validates && Enabled(s, step) && Serial(cfg, s, step)
    ensures SerialInv(cfg, Apply(cfg, s, step), NaiveStep(n, cfg.max, step))
  {
    hide Sim, Inv, Using, SameUse, Enabled, Serial, Apply, NaiveAcquire;
    if Sim(cfg, s, n) {
      RestStep(cfg, s, n, step);
    } else {
      var u, v, k, gone :| SameUse(v, u, cfg.max) && Using(s, v, cfg.max, k, gone) && n == NaiveAcquire(u, cfg.max, k);
      StepUses(cfg, s, u, v, k, gone, step);
    }
  }

  lemma {:induction false} RunKeepsSerial(cfg: Config, s: State, n: Naive, steps: seq<Step>)
    requires SerialInv(cfg, s, n) && 1 <= cfg.max && !cfg.validates && SerialRun(cfg, s, steps) && Run(cfg, s, steps)
    ensures SerialInv(cfg, End(cfg, s, steps), NaiveUses(n, cfg.max, Uses(steps)))
    decreases |steps|
  {
    hide SerialInv, Enabled, Serial, Apply, NaiveAcquire;
    if steps != [] {
      var step := steps[0];
      SerialKeeps(cfg, s, n, step);
      RunKeepsSerial(cfg, Apply(cfg, s, step), NaiveStep(n, cfg.max, step), steps[1..]);
      UsesStep(n, cfg.max, step, Uses(steps[1..]));
    }
  }

  lemma UsesStep(n: Naive, max: int, step: Step, rest: seq<Key>)
    ensures NaiveUses(n, max, (if step.Call? then [step.k] else []) + rest) ==
      NaiveUses(NaiveStep(n, max, step), max, rest)
  {
    if step.Call? {
      assert ([step.k] + rest)[1..] == rest;
    } else {
      assert [] + rest == rest;
    }
  }

  // --- what that means ---

  /** No acquire is on its way to an entry: a handle may be held. */
  predicate Settled(s: State) { forall a :: 0 <= a < |s.acqs| ==> !Active(s.acqs[a]) || s.acqs[a].phase.Resolved? }

  /** The same keys are live. */
  lemma SerialKeys(cfg: Config, s: State, n: Naive)
    requires SerialInv(cfg, s, n) && 1 <= cfg.max && Settled(s)
    ensures s.pool.entries.Keys == n.used.Keys
  {
    hide Inv, NaiveAcquire, NaiveInv;
    if Sim(cfg, s, n) {
      StampKeys(s.pool);
    } else {
      hide Sim, SameOrder;
      var u, v, k, gone :| SameUse(v, u, cfg.max) && Using(s, v, cfg.max, k, gone) && n == NaiveAcquire(u, cfg.max, k);
      UsingKeys(s, u, v, cfg.max, k, gone);
    }
  }

  lemma UsingKeys(s: State, u: Naive, v: map<Key, int>, max: int, k: Key, gone: set<Key>)
    requires SameUse(v, u, max) && Using(s, v, max, k, gone) && 1 <= max && Settled(s)
    ensures s.pool.entries.Keys == NaiveAcquire(u, max, k).used.Keys
  {
    hide Wf, Leaves, NaiveAcquire, NaiveInv, SameOrder, UsedFrom, Stamps;
    StampKeys(s.pool);
    assert Settled(s) ==> !Active(Last(s)) || Last(s).phase.Resolved?;
    UsedFromKeys(v, Stamps(s.pool), u, max, k, gone);
  }

  /** From the empty pools, whatever keys are acquired and released in whatever order, and whenever the
      disposals of their victims end: whenever no acquire is on its way to an entry, the same keys are live,
      as many as there were distinct keys, but no more than max. */
  lemma PoolIsNaive(cfg: Config, now: int, steps: seq<Step>)
    requires 1 <= cfg.max && !cfg.validates && SerialRun(cfg, Init(now), steps) && Run(cfg, Init(now), steps)
    requires Settled(End(cfg, Init(now), steps))
    ensures var p := End(cfg, Init(now), steps).pool;
      && p.entries.Keys == NaiveUses(Naive(map[], 0), cfg.max, Uses(steps)).used.Keys
      && |p.entries| == Min(cfg.max, |Distincts(Uses(steps))|)
  {
    hide Sim, InUse, SerialRun, Run, End, NaiveUses, Uses, Settled;
    InitSim(cfg, now);
    RunKeepsSerial(cfg, Init(now), Naive(map[], 0), steps);
    KeysAndSize(cfg, End(cfg, Init(now), steps), Uses(steps));
  }

  lemma KeysAndSize(cfg: Config, s: State, keys: seq<Key>)
    requires SerialInv(cfg, s, NaiveUses(Naive(map[], 0), cfg.max, keys)) && 1 <= cfg.max && Settled(s)
    ensures s.pool.entries.Keys == NaiveUses(Naive(map[], 0), cfg.max, keys).used.Keys
    ensures |s.pool.entries| == Min(cfg.max, |Distincts(keys)|)
  {
    hide SerialInv, NaiveUses, Distincts, Settled;
    var n := NaiveUses(Naive(map[], 0), cfg.max, keys);
    SerialKeys(cfg, s, n);
    UsesCount(cfg.max, keys);
    assert |s.pool.entries.Keys| == |s.pool.entries| && |n.used.Keys| == |n.used|;
  }

  lemma InitSim(cfg: Config, now: int)
    requires cfg.max >= 1
    ensures Sim(cfg, Init(now), Naive(map[], 0))
  {
    hide Inv;
    InitInv(cfg, now);
    assert Stamps(EMPTY_POOL) == map[];
  }

  /** Each use, once it has its entry, has evicted the same key from both pools, or from neither. */
  lemma SameVictim(cfg: Config, s: State, n: Naive, k: Key, steps: seq<Step>)
    requires Sim(cfg, s, n) && 1 <= cfg.max && !cfg.validates && SerialRun(cfg, s, steps) && Run(cfg, s, steps)
    requires Uses(steps) == [k] && Settled(End(cfg, s, steps))
    ensures s.pool.entries.Keys - End(cfg, s, steps).pool.entries.Keys
         == n.used.Keys - NaiveAcquire(n, cfg.max, k).used.Keys
  {
    RestSettled(s);
    hide Sim, SerialRun, Run, End, NaiveAcquire, Settled, Uses;
    RunKeepsSerial(cfg, s, n, steps);
    SerialKeys(cfg, s, n);
    assert [k][1..] == [];
    assert NaiveUses(NaiveAcquire(n, cfg.max, k), cfg.max, []) == NaiveAcquire(n, cfg.max, k);
    SerialKeys(cfg, End(cfg, s, steps), NaiveAcquire(n, cfg.max, k));
  }

  lemma RestSettled(s: State)
    requires AtRest(s)
    ensures Settled(s)
  {
  }

  // --- such runs exist ---

  lemma LoneIsHead(cfg: Config, s: State)
    requires Inv(cfg, s) && Lone(s) && Active(Last(s))
    ensures IsHead(s.mx, s.acqs, |s.acqs| - 1)
  {
    var a := |s.acqs| - 1;
    assert ChainedOk(s.mx, s.acqs, a);
    var c := s.acqs[a].cell;
    assert CellOk(s.mx, s.acqs, c);
    assert Active(s.acqs[s.mx.cells[c].queue[0]]);
  }

  lemma BeginProceeds(cfg: Config, s: State)
    requires Inv(cfg, s) && Lone(s) && Last(s).phase.Queued?
    ensures Enabled(s, Begin(|s.acqs| - 1)) && Serial(cfg, s, Begin(|s.acqs| - 1))
  {
    PoolAlive(cfg, s);
    LoneIsHead(cfg, s);
    hide Inv, Wf, CellsWf;
  }

  lemma CreateProceeds(cfg: Config, s: State)
    requires Ready(s) && Lone(s)
    ensures Last(s).phase.Reserved? ==>
      Enabled(s, CreateStart(|s.acqs| - 1)) && Serial(cfg, s, CreateStart(|s.acqs| - 1))
    ensures Last(s).phase.Creating? ==> Enabled(s, CreateDone(|s.acqs| - 1)) && Serial(cfg, s, CreateDone(|s.acqs| - 1))
  {
    hide Wf, CellsWf;
  }

  lemma FinishProceeds(cfg: Config, s: State)
    requires Inv(cfg, s) && Lone(s) && Last(s).phase.Resolved?
    ensures Enabled(s, Finish(|s.acqs| - 1)) && Serial(cfg, s, Finish(|s.acqs| - 1))
  {
    About(cfg, s, |s.acqs| - 1);
    hide Inv, Wf, CellsWf;
  }

  lemma ReleaseProceeds(cfg: Config, s: State)
    requires Inv(cfg, s) && Lone(s) && Outstanding(Last(s))
    ensures Enabled(s, Release(|s.acqs| - 1)) && Serial(cfg, s, Release(|s.acqs| - 1))
  {
    About(cfg, s, |s.acqs| - 1);
    hide Inv, Wf, CellsWf;
  }

  /** The acquire in use can always take its next step, and comes nearer to its release. */
  lemma UseAdvances(cfg: Config, s: State, u: Naive, v: map<Key, int>, k: Key, gone: set<Key>)
    returns (step: Step, gone': set<Key>)
    requires Inv(cfg, s) && SameUse(v, u, cfg.max) && Using(s, v, cfg.max, k, gone) && 1 <= cfg.max && !cfg.validates
    ensures Enabled(s, step) && Serial(cfg, s, step) && !step.Call? && Inv(cfg, Apply(cfg, s, step))
    ensures var t := Apply(cfg, s, step);
      || Sim(cfg, t, NaiveAcquire(u, cfg.max, k))
      || (Using(t, v, cfg.max, k, gone') && Rank(Last(t).phase) < Rank(Last(s).phase))
  {
    PoolAlive(cfg, s);
    hide Inv, NaiveInv, SameOrder, Enabled, Serial, Apply, NaiveAcquire, Sim, Wf, CellsWf, Obtained, Leaves, Stamps;
    var a := |s.acqs| - 1;
    gone' := gone;
    if Last(s).phase.Queued? {
      BeginProceeds(cfg, s);
      step := Begin(a);
      gone' := BeginUses(cfg, s, v, k, gone);
    } else if Last(s).phase.Reserved? {
      CreateProceeds(cfg, s);
      step := CreateStart(a);
      CreateStartUses(cfg, s, v, k, gone);
    } else if Last(s).phase.Creating? {
      CreateProceeds(cfg, s);
      step := CreateDone(a);
      CreateDoneUses(cfg, s, v, k, gone);
    } else if Last(s).phase.Resolved? {
      FinishProceeds(cfg, s);
      step := Finish(a);
      FinishUses(cfg, s, v, k, gone);
    } else {
      ReleaseProceeds(cfg, s);
      step := Release(a);
      ReleaseEnds(cfg, s, u, v, k, gone);
    }
    assert Safe(s, step);
    StepKeeps(cfg, s, step);
  }

  lemma {:induction false} UseCompletes(cfg: Config, s: State, u: Naive, v: map<Key, int>, k: Key, gone: set<Key>)
    returns (steps: seq<Step>)
    requires Inv(cfg, s) && SameUse(v, u, cfg.max) && Using(s, v, cfg.max, k, gone) && 1 <= cfg.max && !cfg.validates
    ensures SerialRun(cfg, s, steps) && Run(cfg, s, steps) && Uses(steps) == []
    ensures Sim(cfg, End(cfg, s, steps), NaiveAcquire(u, cfg.max, k))
    decreases Rank(Last(s).phase)
  {
    hide Inv, SameUse, Using, Enabled, Serial, Apply, NaiveAcquire, Sim;
    var step, gone' := UseAdvances(cfg, s, u, v, k, gone);
    var t, rest := Apply(cfg, s, step), [];
    if !Sim(cfg, t, NaiveAcquire(u, cfg.max, k)) {
      rest := UseCompletes(cfg, t, u, v, k, gone');
    }
    steps := [step] + rest;
    assert steps[1..] == rest;
  }

  /** Any sequence of keys can be acquired and released, and any use under way can be completed. */
  lemma {:induction false} AnyKeysRun(cfg: Config, s: State, n: Naive, keys: seq<Key>) returns (steps: seq<Step>)
    requires Sim(cfg, s, n) && 1 <= cfg.max && !cfg.validates
    ensures SerialRun(cfg, s, steps) && Run(cfg, s, steps) && Uses(steps) == keys
    ensures Sim(cfg, End(cfg, s, steps), NaiveUses(n, cfg.max, keys))
    decreases |keys|
  {
    hide Sim, NaiveAcquire, SerialRun, Run, End, Uses;
    NoSteps(cfg, s);
    if keys == [] {
      steps := [];
    } else {
      var use := AnyUseRuns(cfg, s, n, keys[0]);
      var rest := AnyKeysRun(cfg, End(cfg, s, use), NaiveAcquire(n, cfg.max, keys[0]), keys[1..]);
      SerialThen(cfg, s, use, rest);
      UsesThen(use, rest);
      steps := use + rest;
      assert [keys[0]] + keys[1..] == keys;
    }
  }

  lemma NoSteps(cfg: Config, s: State)
    ensures SerialRun(cfg, s, []) && Run(cfg, s, []) && End(cfg, s, []) == s && Uses([]) == []
  {
  }

  lemma AnyUseRuns(cfg: Config, s: State, n: Naive, k: Key) returns (steps: seq<Step>)
    requires Sim(cfg, s, n) && 1 <= cfg.max && !cfg.validates
    ensures SerialRun(cfg, s, steps) && Run(cfg, s, steps) && Uses(steps) == [k]
    ensures Sim(cfg, End(cfg, s, steps), NaiveAcquire(n, cfg.max, k))
  {
    PoolAlive(cfg, s);
    hide Inv, NaiveInv, SameOrder, Apply, NaiveAcquire, Using, AtRest, Stamps, Wf, CellsWf;
    assert Enabled(s, Call(k)) && Serial(cfg, s, Call(k));
    CallUses(cfg, s, n, k);
    hide Enabled, Serial, Sim;
    var rest := UseCompletes(cfg, Apply(cfg, s, Call(k)), n, Stamps(s.pool), k, {});
    steps := [Call(k)] + rest;
    assert steps[1..] == rest;
  }

  lemma {:induction false} SerialThen(cfg: Config, s: State, xs: seq<Step>, ys: seq<Step>)
    requires SerialRun(cfg, s, xs) && Run(cfg, s, xs)
    requires SerialRun(cfg, End(cfg, s, xs), ys) && Run(cfg, End(cfg, s, xs), ys)
    ensures SerialRun(cfg, s, xs + ys) && Run(cfg, s, xs + ys)
    ensures End(cfg, s, xs + ys) == End(cfg, End(cfg, s, xs), ys)
    decreases |xs|
  {
    hide Enabled, Serial, Apply;
    if xs == [] {
      assert xs + ys == ys;
    } else {
      assert (xs + ys)[1..] == xs[1..] + ys;
      SerialThen(cfg, Apply(cfg, s, xs[0]), xs[1..], ys);
    }
  }

  lemma {:induction false} UsesThen(xs: seq<Step>, ys: seq<Step>)
    ensures Uses(xs + ys) == Uses(xs) + Uses(ys)
  {
    if xs == [] {
      assert xs + ys == ys;
    } else {
      assert (xs + ys)[1..] == xs[1..] + ys;
      UsesThen(xs[1..], ys);
    }
  }
}
