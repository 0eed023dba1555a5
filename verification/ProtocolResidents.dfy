/** The rest of what every step keeps, safe or not: what is resident, what the acquires in flight rely on,
    whose reference counts are right, and what a closing pool awaits. */
module ProtocolResidents {
  import opened Counting
  import opened PoolModel
  import opened PoolInvariant
  import opened PoolBulk
  import opened PoolResidents
  import opened MutexModel
  import opened AwaitModel
  import opened Protocol
  import opened ProtocolMutex
  import opened ProtocolPhases
  import opened ProtocolCounts
  import opened ProtocolInvariant
  import opened ProtocolSteps
  import opened ProtocolBase

  /** What an acquire of k at a phase may rely on. Whom it has resolved to may be gone; whom it is
      validating is unheld and is the live entry of k, if there is one. */
  predicate ClaimOk(p: Pool, k: Key, phase: Phase) {
    match phase
    case Validating(e) =>
      e < |p.table| && p.table[e].key == k && p.table[e].refCount == 0
      && k !in p.orphans && (k in p.entries ==> p.entries[k] == e)
    case Replacing(e) => e < |p.table| && p.table[e].key == k && !p.table[e].life.Live? && Absent(p, k)
    case Parked(w) => w < |p.log| && Absent(p, k)
    case Reserved => Absent(p, k)
    case Creating(_) => Absent(p, k)
    case LateDisposing => Absent(p, k)
    case Resolved(e) => e < |p.table| && p.table[e].key == k
    case Done(e, _) => e < |p.table| && p.table[e].key == k
    case _ => true
  }

  predicate ClaimInv(p: Pool, acqs: seq<Acq>) {
    forall a :: 0 <= a < |acqs| ==> ClaimOk(p, acqs[a].key, acqs[a].phase)
  }

  /** The reference count of what is not disposed is the number of its handles not released. */
  predicate HeldInv(t: seq<Rec>, acqs: seq<Acq>) {
    forall e :: 0 <= e < |t| && !t[e].life.Disposed? ==> t[e].refCount == Count(acqs, Holds(e))
  }

  /** A closed pool parks nobody and every drain since the last start() awaits all that is resident; what
      any drain awaits is condemned while it lives. */
  predicate ClosingInv(p: Pool, drains: seq<DrainRun>, openedAt: nat) {
    && (if p.closed then openedAt < |drains| && p.queue == [] else openedAt == |drains|)
    && (forall d, k :: p.closed && openedAt <= d < |drains| && k in p.entries ==>
         p.entries[k] in Awaited(drains[d].waits))
    && (forall d, k :: p.closed && openedAt <= d < |drains| && k in p.orphans ==>
         p.orphans[k] in Awaited(drains[d].waits))
    && (forall d :: 0 <= d < |drains| ==> Doomed(p.table, drains[d].waits))
  }

  /** Whatever is awaited is condemned while it lives. */
  predicate Doomed(t: seq<Rec>, ws: set<Wait>) {
    forall e :: e in Awaited(ws) ==> e < |t| && (t[e].life.Live? ==> t[e].condemned)
  }

  predicate ResInv(p: Pool, acqs: seq<Acq>, drains: seq<DrainRun>, openedAt: nat) {
    Grounded(p) && ClaimInv(p, acqs) && HeldInv(p.table, acqs) && ClosingInv(p, drains, openedAt)
  }

  /** The whole of what every step keeps. */
  ghost predicate AnyInv(cfg: Config, s: State) {
    BaseInv(cfg, s) && ResInv(s.pool, s.acqs, s.drains, s.openedAt)
  }

  // --- the parts, from pool to pool ---

  /** A phase that relies on no map. */
  predicate Loose(phase: Phase) {
    phase.Queued? || phase.Resolved? || phase.Rejected? || phase.Done? || phase.Failed?
  }

  lemma ClaimDrifts(p: Pool, q: Pool, ks: set<Key>, k: Key, phase: Phase)
    requires ClaimOk(p, k, phase) && Drifts(p, q, ks) && (k !in ks || Loose(phase))
    ensures ClaimOk(q, k, phase)
  {
    if k in q.entries && k !in ks {
      assert Stays(p, k, q.entries[k], ks);
    }
    if phase.Validating? || phase.Replacing? || phase.Resolved? || phase.Done? {
      assert Ages(p.table[phase.e], q.table[phase.e]);
    }
  }

  lemma ClaimsDrift(p: Pool, q: Pool, ks: set<Key>, acqs: seq<Acq>, a: nat, x: Acq)
    requires ClaimInv(p, acqs) && Drifts(p, q, ks) && a < |acqs| && ClaimOk(q, x.key, x.phase)
    requires forall b :: 0 <= b < |acqs| && b != a ==> acqs[b].key !in ks || Loose(acqs[b].phase)
    ensures ClaimInv(q, acqs[a := x])
  {
    hide Drifts, ClaimOk, Loose;
    var bs := acqs[a := x];
    forall b | 0 <= b < |bs| ensures ClaimOk(q, bs[b].key, bs[b].phase) {
      if b != a {
        ClaimDrifts(p, q, ks, acqs[b].key, acqs[b].phase);
      }
    }
  }

  lemma ClaimsStay(p: Pool, q: Pool, acqs: seq<Acq>)
    requires ClaimInv(p, acqs) && Drifts(p, q, {})
    ensures ClaimInv(q, acqs)
  {
    hide Drifts, ClaimOk, Loose;
    forall b | 0 <= b < |acqs| ensures ClaimOk(q, acqs[b].key, acqs[b].phase) {
      ClaimDrifts(p, q, {}, acqs[b].key, acqs[b].phase);
    }
  }

  lemma ClosingDrifts(p: Pool, q: Pool, ks: set<Key>, drains: seq<DrainRun>, openedAt: nat)
    requires ClosingInv(p, drains, openedAt) && Drifts(p, q, ks) && Grounded(q)
    ensures ClosingInv(q, drains, openedAt)
  {
    forall d, k | q.closed && openedAt <= d < |drains| && k in q.entries
      ensures q.entries[k] in Awaited(drains[d].waits)
    {
      assert Stays(p, k, q.entries[k], ks);
    }
    forall d | 0 <= d < |drains| ensures Doomed(q.table, drains[d].waits) {
      DoomedStays(p, q, ks, drains[d].waits);
    }
  }

  lemma DoomedStays(p: Pool, q: Pool, ks: set<Key>, ws: set<Wait>)
    requires Doomed(p.table, ws) && Drifts(p, q, ks)
    ensures Doomed(q.table, ws)
  {
    hide Awaited;
    forall e | e in Awaited(ws) ensures e < |q.table| && (q.table[e].life.Live? ==> q.table[e].condemned) {
      assert Ages(p.table[e], q.table[e]);
    }
  }

  /** References and handles as they were. */
  lemma HeldQuiet(p: Pool, q: Pool, ks: set<Key>, acqs: seq<Acq>, bs: seq<Acq>)
    requires HeldInv(p.table, acqs) && Quiet(p, q) && Drifts(p, q, ks) && ClaimInv(p, acqs)
    requires forall e: nat :: Count(bs, Holds(e)) == Count(acqs, Holds(e))
    ensures HeldInv(q.table, bs)
  {
    forall e | 0 <= e < |q.table| && !q.table[e].life.Disposed? ensures q.table[e].refCount == Count(bs, Holds(e)) {
      if e < |p.table| {
        assert Ages(p.table[e], q.table[e]);
      } else {
        NewIsUnheld(p, acqs, e);
      }
    }
  }

  lemma NewIsUnheld(p: Pool, acqs: seq<Acq>, e: nat)
    requires ClaimInv(p, acqs) && e >= |p.table|
    ensures Count(acqs, Holds(e)) == 0
  {
    forall a | 0 <= a < |acqs| ensures !Holds(e)(acqs[a]) {
      assert ClaimOk(p, acqs[a].key, acqs[a].phase);
    }
    CountNone(acqs, Holds(e));
  }

  /** One reference and one handle more. */
  lemma HeldCheckout(p: Pool, q: Pool, acqs: seq<Acq>, bs: seq<Acq>, e: nat)
    requires HeldInv(p.table, acqs) && CheckedOut(p, q, e)
    requires forall d: nat :: Count(bs, Holds(d)) == Count(acqs, Holds(d)) + One(d == e)
    ensures HeldInv(q.table, bs)
  {
  }

  /** Everyone else of the key of the oldest acquire relies on no map. */
  lemma OthersLoose(m: Mutexes, acqs: seq<Acq>, a: nat)
    requires MutexInv(m, acqs) && IsHead(m, acqs, a)
    ensures forall b :: 0 <= b < |acqs| && b != a ==> acqs[b].key !in {acqs[a].key} || Loose(acqs[b].phase)
  {
    hide MutexInv;
    forall b | 0 <= b < |acqs| && b != a && acqs[b].key == acqs[a].key ensures Loose(acqs[b].phase) {
      if Active(acqs[b]) && !acqs[b].phase.Queued? {
        HeadExclusion(m, acqs, a, b);
      }
    }
  }

  // --- the shapes of a step ---

  /** Acquire a moves on. */
  lemma ResMove(p: Pool, q: Pool, ks: set<Key>, acqs: seq<Acq>, a: nat, x: Acq, drains: seq<DrainRun>, openedAt: nat)
    requires ResInv(p, acqs, drains, openedAt) && Grounded(q) && Drifts(p, q, ks) && Quiet(p, q)
    requires a < |acqs| && ClaimOk(q, x.key, x.phase) && !Outstanding(x) && !Outstanding(acqs[a])
    requires forall b :: 0 <= b < |acqs| && b != a ==> acqs[b].key !in ks || Loose(acqs[b].phase)
    ensures ResInv(q, acqs[a := x], drains, openedAt)
  {
    hide Grounded, ClaimInv, HeldInv, ClosingInv, Drifts, Quiet, ClaimOk, Loose;
    ClaimsDrift(p, q, ks, acqs, a, x);
    ClosingDrifts(p, q, ks, drains, openedAt);
    forall e: nat ensures Count(acqs[a := x], Holds(e)) == Count(acqs, Holds(e)) {
      CountUpdate(acqs, a, x, Holds(e));
    }
    HeldQuiet(p, q, ks, acqs, acqs[a := x]);
  }

  /** A step of no acquire. */
  lemma ResStay(p: Pool, q: Pool, acqs: seq<Acq>, drains: seq<DrainRun>, openedAt: nat)
    requires ResInv(p, acqs, drains, openedAt) && Grounded(q) && Drifts(p, q, {}) && Quiet(p, q)
    ensures ResInv(q, acqs, drains, openedAt)
  {
    hide Grounded, ClaimInv, HeldInv, ClosingInv, Drifts, Quiet;
    ClaimsStay(p, q, acqs);
    ClosingDrifts(p, q, {}, drains, openedAt);
    HeldQuiet(p, q, {}, acqs, acqs);
  }

  /** Somebody gets a handle. */
  lemma ResCheckout(p: Pool, q: Pool, ks: set<Key>, acqs: seq<Acq>, bs: seq<Acq>, e: nat,
                    drains: seq<DrainRun>, openedAt: nat)
    requires ResInv(p, acqs, drains, openedAt) && Grounded(q) && Drifts(p, q, ks) && CheckedOut(p, q, e)
    requires ClaimInv(q, bs)
    requires forall d: nat :: Count(bs, Holds(d)) == Count(acqs, Holds(d)) + One(d == e)
    ensures ResInv(q, bs, drains, openedAt)
  {
    hide Grounded, ClaimInv, HeldInv, ClosingInv, Drifts, CheckedOut;
    ClosingDrifts(p, q, ks, drains, openedAt);
    HeldCheckout(p, q, acqs, bs, e);
  }

  // --- the segments of obtain ---

  /** What a segment of an acquire of k leaves behind. */
  ghost predicate Yields(p: Pool, q: Pool, k: Key, phase: Phase) {
    Grounded(q) && Drifts(p, q, {k}) && Quiet(p, q) && ClaimOk(q, k, phase) && !phase.Done?
  }

  lemma GateYields(cfg: Config, p: Pool, z: Pool, k: Key)
    requires Wf(z) && Grounded(p) && Absent(p, k) && z == p.(counters := z.counters)
    requires z.counters.acquires == p.counters.acquires && z.counters.releases == p.counters.releases
    ensures Yields(p, SlotStep(z, cfg).0, k, AfterSlot(SlotStep(z, cfg)).1)
  {
    var (q, r) := SlotStep(z, cfg);
    DriftsNot(p, z);
    SlotDrifts(z, cfg);
    SlotGated(z, cfg);
    SlotAbsent(z, cfg, k);
    hide Grounded, Drifts, SlotStep, Wf;
    DriftsTwice(p, z, q, {});
    DriftsMore(p, q, {}, {k});
  }

  lemma StillYields(p: Pool, q: Pool, k: Key, phase: Phase)
    requires Grounded(p) && ClaimOk(p, k, phase) && !phase.Done?
    requires q == p.(counters := q.counters) && q.counters == p.counters.(hits := q.counters.hits)
    ensures Yields(p, q, k, phase)
  {
    DriftsNot(p, q);
    hide Grounded, Drifts;
    DriftsMore(p, q, {}, {k});
  }

  lemma ReviveYields(p: Pool, k: Key)
    requires Grounded(p) && k in p.orphans
    ensures Yields(p, Resurrected(p, k), k, Resolved(p.orphans[k]))
  {
    ReviveGrounded(p, k);
    hide Drifts;
  }

  lemma MissYields(cfg: Config, p: Pool, k: Key)
    requires Wf(p) && Grounded(p) && k !in p.entries
    ensures Yields(p, ObtainMiss(p, cfg, k).0, k, ObtainMiss(p, cfg, k).1)
  {
    hide Yields, SlotStep;
    if k in p.orphans {
      ReviveYields(p, k);
    } else if p.closed {
      StillYields(p, p, k, Rejected(PoolClosed));
    } else {
      var z := p.(counters := p.counters.(misses := p.counters.misses + 1));
      WfCounters(p, z);
      hide Grounded, Wf;
      GateYields(cfg, p, z, k);
    }
  }

  lemma ObtainYields(cfg: Config, p: Pool, k: Key)
    requires Wf(p) && Grounded(p)
    ensures Yields(p, ObtainStart(p, cfg, k).0, k, ObtainStart(p, cfg, k).1)
  {
    hide ObtainMiss, Yields;
    if k in p.entries {
      var e := p.entries[k];
      if p.table[e].refCount == 0 && cfg.validates {
        StillYields(p, p, k, Validating(e));
      } else {
        StillYields(p, Hit(p), k, Resolved(e));
      }
    } else {
      MissYields(cfg, p, k);
    }
  }

  lemma ResumeYields(cfg: Config, p: Pool, k: Key, w: nat)
    requires Wf(p) && Grounded(p) && w < |p.log| && Absent(p, k)
    ensures Yields(p, Resume(p, cfg, w).0, k, Resume(p, cfg, w).1)
  {
    hide Yields, SlotStep, Grounded, Wf;
    match p.log[w] {
      case Waiting => StillYields(p, p, k, Parked(w));
      case WokenUp => GateYields(cfg, p, p, k);
      case TimedOut => StillYields(p, p, k, Rejected(AcquireTimeout));
      case ClosedOut => StillYields(p, p, k, Rejected(PoolClosed));
    }
  }

  lemma ValidatedYields(p: Pool, e: nat, k: Key, ok: bool)
    requires Grounded(p) && ClaimOk(p, k, Validating(e))
    ensures Yields(p, Validated(p, e, ok).0, k, Validated(p, e, ok).1)
  {
    if ok {
      StillYields(p, Hit(p), k, Resolved(e));
    } else {
      RemoveGrounded(p, e);
      RemoveDrifts(p, e);
      InvalidSettles(p, e);
      hide Grounded, Drifts, RemoveEntry, Dispose, Quiet, Settling, Aging;
      DriftsMore(p, Dispose(RemoveEntry(p, e), e), {}, {k});
    }
  }

  lemma GiveBackYields(p: Pool, k: Key, phase: Phase)
    requires Wf(p) && Grounded(p) && Absent(p, k) && (phase.LateDisposing? || phase.Rejected?)
    ensures Yields(p, ReleaseReservation(p), k, phase)
  {
    var z := p.(reserved := p.reserved - 1);
    hide Grounded, Drifts, WakeWaiter;
    WfQueue(p);
    DriftsNot(p, z);
    GroundedFields(p, z);
    WakeFrame(z);
    WakeDrifts(z);
    hide Wf;
    DriftsTwice(p, z, WakeWaiter(z), {});
    DriftsMore(p, WakeWaiter(z), {}, {k});
  }

  lemma InsertYields(p: Pool, k: Key, now: int)
    requires Wf(p) && Grounded(p) && Absent(p, k) && !p.closed
    ensures Yields(p, InsertCreated(p, k, now), k, Resolved(|p.table|))
  {
    InsertForm(p, k, now);
    hide InsertCreated;
    var q := InsertCreated(p, k, now);
    InsertGrounded(p, k, q, q.table[|p.table|]);
    InsertDrifts(p, k, q, q.table[|p.table|]);
    hide Grounded, Drifts;
  }

  lemma CreateYields(p: Pool, k: Key, now: int)
    requires Wf(p) && Grounded(p) && Absent(p, k)
    ensures Yields(p, FactoryDone(p, k, now).0, k, FactoryDone(p, k, now).1)
  {
    hide Yields, Grounded, ReleaseReservation, InsertCreated;
    if p.closed {
      GiveBackYields(p, k, LateDisposing);
    } else {
      InsertYields(p, k, now);
    }
  }

  // --- the steps of an acquire ---

  lemma ResOf(cfg: Config, s: State)
    requires AnyInv(cfg, s)
    ensures BaseInv(cfg, s) && ResInv(s.pool, s.acqs, s.drains, s.openedAt) && Grounded(s.pool) && Wf(s.pool)
    ensures QueueOk(s.pool.log, s.pool.queue) && ClaimInv(s.pool, s.acqs) && ClosingInv(s.pool, s.drains, s.openedAt)
  {
    hide Grounded, ClaimInv, HeldInv, ClosingInv, QueueOk;
    WaitersOfBase(cfg, s);
    GroundedIsWf(s.pool);
  }

  /** Acquire a, the oldest of its key, goes on to a phase. */
  lemma ResSegment(cfg: Config, s: State, a: nat, q: Pool, phase: Phase)
    requires AnyInv(cfg, s) && IsHead(s.mx, s.acqs, a) && Yields(s.pool, q, s.acqs[a].key, phase)
    ensures ResInv(q, s.acqs[a := s.acqs[a].(phase := phase)], s.drains, s.openedAt)
  {
    WaitersOfBase(cfg, s);
    hide BaseInv, MutexInv, ResInv, Grounded, Drifts, Quiet, ClaimOk, Loose;
    OthersLoose(s.mx, s.acqs, a);
    ResMove(s.pool, q, {s.acqs[a].key}, s.acqs, a, s.acqs[a].(phase := phase), s.drains, s.openedAt);
  }

  lemma MovesOn(s: State, a: nat, r: (Pool, Phase))
    requires At(s, a)
    ensures var t := MoveGate(s, a, r);
      t.pool == r.0 && t.acqs == s.acqs[a := s.acqs[a].(phase := r.1)]
      && t.drains == s.drains && t.openedAt == s.openedAt
  {
  }

  /** The segments that begin or resume obtain, or end in a slot. */
  lemma ResObtain(cfg: Config, s: State, step: Step)
    requires AnyInv(cfg, s) && Enabled(s, step) && (step.Begin? || step.Replaced? || step.Resumed?)
    ensures var t := Apply(cfg, s, step); ResInv(t.pool, t.acqs, t.drains, t.openedAt)
  {
    ResOf(cfg, s);
    var a := step.a;
    BaseHead(cfg, s, a);
    assert ClaimOk(s.pool, s.acqs[a].key, s.acqs[a].phase);
    hide AnyInv, BaseInv, ResInv, ClaimInv, ClosingInv, QueueOk, Yields, Grounded, Wf, CellsWf, ObtainStart, ObtainMiss,
         Resume, IsHead;
    var k := s.acqs[a].key;
    match step {
      case Begin(_) =>
        var r := ObtainStart(s.pool, cfg, k);
        ObtainYields(cfg, s.pool, k);
        MovesOn(s, a, r);
        ResSegment(cfg, s, a, r.0, r.1);
      case Replaced(_) =>
        var r := ObtainMiss(s.pool, cfg, k);
        MissYields(cfg, s.pool, k);
        MovesOn(s, a, r);
        ResSegment(cfg, s, a, r.0, r.1);
      case Resumed(_) =>
        var r := Resume(s.pool, cfg, s.acqs[a].phase.w);
        ResumeYields(cfg, s.pool, k, s.acqs[a].phase.w);
        MovesOn(s, a, r);
        ResSegment(cfg, s, a, r.0, r.1);
    }
  }

  lemma ResCreateStart(cfg: Config, s: State, a: nat)
    requires AnyInv(cfg, s) && Enabled(s, CreateStart(a))
    ensures var t := Apply(cfg, s, CreateStart(a)); ResInv(t.pool, t.acqs, t.drains, t.openedAt)
  {
    ResOf(cfg, s);
    BaseHead(cfg, s, a);
    assert ClaimOk(s.pool, s.acqs[a].key, s.acqs[a].phase);
    hide AnyInv, BaseInv, ResInv, ClaimInv, ClosingInv, QueueOk, Yields, Grounded, Wf, CellsWf, IsHead;
    var p, k := s.pool, s.acqs[a].key;
    var b := Apply(cfg, s, CreateStart(a)).acqs[a].phase.breaker;
    StillYields(p, p, k, Creating(b));
    ResSegment(cfg, s, a, p, Creating(b));
  }

  lemma ResCreateDone(cfg: Config, s: State, a: nat)
    requires AnyInv(cfg, s) && Enabled(s, CreateDone(a))
    ensures var t := Apply(cfg, s, CreateDone(a)); ResInv(t.pool, t.acqs, t.drains, t.openedAt)
  {
    ResOf(cfg, s);
    BaseHead(cfg, s, a);
    assert ClaimOk(s.pool, s.acqs[a].key, s.acqs[a].phase);
    hide AnyInv, BaseInv, ResInv, ClaimInv, ClosingInv, QueueOk, Yields, Grounded, Wf, CellsWf, IsHead, FactoryDone;
    var p, k := s.pool, s.acqs[a].key;
    CreateYields(p, k, s.now);
    ResSegment(cfg, s, a, FactoryDone(p, k, s.now).0, FactoryDone(p, k, s.now).1);
  }

  lemma ResCreateFail(cfg: Config, s: State, a: nat)
    requires AnyInv(cfg, s) && Enabled(s, CreateFail(a))
    ensures var t := Apply(cfg, s, CreateFail(a)); ResInv(t.pool, t.acqs, t.drains, t.openedAt)
  {
    ResOf(cfg, s);
    BaseHead(cfg, s, a);
    assert ClaimOk(s.pool, s.acqs[a].key, s.acqs[a].phase);
    hide AnyInv, BaseInv, ResInv, ClaimInv, ClosingInv, QueueOk, Yields, Grounded, Wf, CellsWf, IsHead,
         ReleaseReservation;
    var p, k := s.pool, s.acqs[a].key;
    GiveBackYields(p, k, Rejected(FactoryFailed));
    ResSegment(cfg, s, a, ReleaseReservation(p), Rejected(FactoryFailed));
  }

  lemma ResValidated(cfg: Config, s: State, a: nat, ok: bool)
    requires AnyInv(cfg, s) && Enabled(s, ValidateDone(a, ok))
    ensures var t := Apply(cfg, s, ValidateDone(a, ok)); ResInv(t.pool, t.acqs, t.drains, t.openedAt)
  {
    ResOf(cfg, s);
    BaseHead(cfg, s, a);
    assert ClaimOk(s.pool, s.acqs[a].key, s.acqs[a].phase);
    hide AnyInv, BaseInv, ResInv, ClaimInv, ClosingInv, QueueOk, Yields, Grounded, Wf, CellsWf, IsHead, Validated;
    var p, k := s.pool, s.acqs[a].key;
    var e := s.acqs[a].phase.e;
    ValidatedYields(p, e, k, ok);
    ResSegment(cfg, s, a, Validated(p, e, ok).0, Validated(p, e, ok).1);
  }

  lemma ResError(cfg: Config, s: State, step: Step)
    requires AnyInv(cfg, s) && Enabled(s, step) && (step.ValidateThrow? || step.LateDone?)
    ensures var t := Apply(cfg, s, step); ResInv(t.pool, t.acqs, t.drains, t.openedAt)
  {
    ResOf(cfg, s);
    BaseHead(cfg, s, step.a);
    hide AnyInv, BaseInv, ResInv, ClaimInv, ClosingInv, QueueOk, Yields, Grounded, Wf, CellsWf, IsHead;
    var error := if step.LateDone? then PoolClosed else ValidateThrew;
    StillYields(s.pool, s.pool, s.acqs[step.a].key, Rejected(error));
    ResSegment(cfg, s, step.a, s.pool, Rejected(error));
  }

  // --- calls ---

  lemma ClaimsAppend(p: Pool, acqs: seq<Acq>, x: Acq)
    requires ClaimInv(p, acqs) && ClaimOk(p, x.key, x.phase)
    ensures ClaimInv(p, acqs + [x])
  {
  }

  lemma ResSlowCall(p: Pool, acqs: seq<Acq>, x: Acq, drains: seq<DrainRun>, openedAt: nat)
    requires ResInv(p, acqs, drains, openedAt) && x.phase.Queued?
    ensures ResInv(IncPending(p, x.key), acqs + [x], drains, openedAt)
  {
    var q := IncPending(p, x.key);
    DriftsNot(p, q);
    hide Grounded, ClaimInv, HeldInv, ClosingInv, Drifts, IncPending;
    IncPendingIs(p, x.key);
    ClaimsStay(p, q, acqs);
    ClaimsAppend(q, acqs, x);
    ClosingDrifts(p, q, {}, drains, openedAt);
    HeldAppend(p.table, acqs, x);
  }

  lemma HeldAppend(t: seq<Rec>, acqs: seq<Acq>, x: Acq)
    requires HeldInv(t, acqs) && !Outstanding(x)
    ensures HeldInv(t, acqs + [x])
  {
    forall e | 0 <= e < |t| && !t[e].life.Disposed? ensures t[e].refCount == Count(acqs + [x], Holds(e)) {
      CountAppend(acqs, x, Holds(e));
    }
  }

  /** A checkout between other fields' changes. */
  lemma CheckedOutDrifts(p: Pool, q: Pool, e: nat, ks: set<Key>)
    requires CheckedOut(p, q, e) && (p.table[e].refCount > 0 || p.table[e].key in ks)
    ensures Drifts(p, q, ks)
  {
  }

  lemma FastGrounded(p: Pool, k: Key, e: nat)
    requires Grounded(p) && e < |p.table|
    ensures Grounded(DecPending(Checkout(Hit(IncPending(p, k)), e), k))
  {
    hide Grounded, Checkout;
    var z := Hit(IncPending(p, k));
    GroundedFields(p, z);
    CheckoutGrounded(z, e);
    GroundedFields(Checkout(z, e), DecPending(Checkout(z, e), k));
  }

  lemma ResFastCall(p: Pool, acqs: seq<Acq>, k: Key, e: nat, drains: seq<DrainRun>, openedAt: nat)
    requires ResInv(p, acqs, drains, openedAt) && e < |p.table| && p.table[e].refCount > 0 && p.table[e].key == k
    ensures var q := DecPending(Checkout(Hit(IncPending(p, k)), e), k);
      ResInv(q, acqs + [Acq(k, 0, Done(e, false))], drains, openedAt)
  {
    var q, x := DecPending(Checkout(Hit(IncPending(p, k)), e), k), Acq(k, 0, Done(e, false));
    FastCheckedOut(p, k, e);
    hide Grounded, ClaimInv, HeldInv, ClosingInv, Drifts, DecPending, Checkout, Hit, IncPending;
    FastGrounded(p, k, e);
    CheckedOutDrifts(p, q, e, {});
    ClaimsStay(p, q, acqs);
    ClaimsAppend(q, acqs, x);
    forall d: nat ensures Count(acqs + [x], Holds(d)) == Count(acqs, Holds(d)) + One(d == e) {
      CountAppend(acqs, x, Holds(d));
    }
    ResCheckout(p, q, {}, acqs, acqs + [x], e, drains, openedAt);
  }

  lemma ResCall(cfg: Config, s: State, k: Key)
    requires AnyInv(cfg, s) && Enabled(s, Call(k))
    ensures var t := Apply(cfg, s, Call(k)); ResInv(t.pool, t.acqs, t.drains, t.openedAt)
  {
    ResOf(cfg, s);
    hide AnyInv, BaseInv, ResInv, ClaimInv, ClosingInv, QueueOk, Grounded, Wf, CellsWf, Enter, IncPending, DecPending,
         Checkout, Hit;
    if AcquirePrefix(s.pool, k).1.Some? {
      ResFastCall(s.pool, s.acqs, k, s.pool.entries[k], s.drains, s.openedAt);
    } else {
      var c := Enter(s.mx, k, |s.acqs|, s.now).1;
      ResSlowCall(s.pool, s.acqs, Acq(k, c, Queued), s.drains, s.openedAt);
    }
  }

  // --- ends and releases ---

  lemma ResFinishOk(s: State, a: nat, e: nat, k: Key)
    requires ResInv(s.pool, s.acqs, s.drains, s.openedAt) && MutexInv(s.mx, s.acqs) && IsHead(s.mx, s.acqs, a)
    requires s.acqs[a].phase == Resolved(e) && s.acqs[a].key == k && e < |s.pool.table| && s.pool.table[e].key == k
    ensures ResInv(FinishOk(s.pool, e, k), s.acqs[a := s.acqs[a].(phase := Done(e, false))], s.drains, s.openedAt)
  {
    var p, q, x := s.pool, FinishOk(s.pool, e, k), s.acqs[a].(phase := Done(e, false));
    FinishCheckedOut(p, k, e);
    hide MutexInv, Grounded, ClaimInv, HeldInv, ClosingInv, Drifts, FinishOk, Loose;
    FinishGrounded(p, e, k);
    CheckedOutDrifts(p, q, e, {k});
    OthersLoose(s.mx, s.acqs, a);
    ClaimsDrift(p, q, {k}, s.acqs, a, x);
    forall d: nat ensures Count(s.acqs[a := x], Holds(d)) == Count(s.acqs, Holds(d)) + One(d == e) {
      CountUpdate(s.acqs, a, x, Holds(d));
    }
    ResCheckout(p, q, {k}, s.acqs, s.acqs[a := x], e, s.drains, s.openedAt);
  }

  lemma FinishGrounded(p: Pool, e: nat, k: Key)
    requires Grounded(p) && e < |p.table|
    ensures Grounded(FinishOk(p, e, k))
  {
    hide Grounded, Checkout;
    CheckoutGrounded(p, e);
    GroundedFields(Checkout(p, e), DecPending(Checkout(p, e), k));
  }

  lemma ResFinishFailed(p: Pool, acqs: seq<Acq>, a: nat, k: Key, x: Acq, drains: seq<DrainRun>, openedAt: nat)
    requires ResInv(p, acqs, drains, openedAt) && a < |acqs| && Active(acqs[a]) && x.phase.Failed?
    ensures ResInv(DecPending(p, k), acqs[a := x], drains, openedAt)
  {
    var q := DecPending(p, k);
    DriftsNot(p, q);
    hide Grounded, ClaimInv, HeldInv, ClosingInv, Drifts;
    ClaimsDrift(p, q, {}, acqs, a, x);
    ClosingDrifts(p, q, {}, drains, openedAt);
    HeldOther(p.table, acqs, a, x);
  }

  lemma HeldOther(t: seq<Rec>, acqs: seq<Acq>, a: nat, x: Acq)
    requires HeldInv(t, acqs) && a < |acqs| && !Outstanding(x) && !Outstanding(acqs[a])
    ensures HeldInv(t, acqs[a := x])
  {
    forall e | 0 <= e < |t| && !t[e].life.Disposed? ensures t[e].refCount == Count(acqs[a := x], Holds(e)) {
      CountUpdate(acqs, a, x, Holds(e));
    }
  }

  lemma ResFinish(cfg: Config, s: State, a: nat)
    requires AnyInv(cfg, s) && Enabled(s, Finish(a))
    ensures var t := Apply(cfg, s, Finish(a)); ResInv(t.pool, t.acqs, t.drains, t.openedAt)
  {
    ResOf(cfg, s);
    WaitersOfBase(cfg, s);
    BaseHead(cfg, s, a);
    assert ClaimOk(s.pool, s.acqs[a].key, s.acqs[a].phase);
    hide AnyInv, BaseInv, ResInv, MutexInv, PendingOk, ClaimInv, ClosingInv, QueueOk, Grounded, Wf, CellsWf, Settled,
         FinishOk, DecPending, IsHead;
    if s.acqs[a].phase.Resolved? {
      ResFinishOk(s, a, s.acqs[a].phase.e, s.acqs[a].key);
    } else {
      var x := s.acqs[a].(phase := Failed(s.acqs[a].phase.error));
      ResFinishFailed(s.pool, s.acqs, a, s.acqs[a].key, x, s.drains, s.openedAt);
    }
  }

  /** A handle less, and a reference less unless the entry is disposed. */
  lemma HeldRelease(p: Pool, acqs: seq<Acq>, a: nat, e: nat, now: int, x: Acq)
    requires HeldInv(p.table, acqs) && Wf(p) && a < |acqs| && acqs[a].phase == Done(e, false) && e < |p.table|
    requires x.phase == Done(e, true) && Drifts(p, ReleaseEntry(p, e, now), {})
    ensures HeldInv(ReleaseEntry(p, e, now).table, acqs[a := x])
  {
    var q := ReleaseEntry(p, e, now);
    CountMember(acqs, a, Holds(e));
    if !p.table[e].life.Disposed? {
      ReleaseDropsOne(p, e, now);
    }
    hide ReleaseEntry;
    forall d | 0 <= d < |q.table| && !q.table[d].life.Disposed?
      ensures q.table[d].refCount == Count(acqs[a := x], Holds(d))
    {
      CountUpdate(acqs, a, x, Holds(d));
      assert d < |p.table| ==> Ages(p.table[d], q.table[d]);
    }
  }

  lemma ResRelease(cfg: Config, s: State, a: nat)
    requires AnyInv(cfg, s) && Enabled(s, Release(a))
    ensures var t := Apply(cfg, s, Release(a)); ResInv(t.pool, t.acqs, t.drains, t.openedAt)
  {
    ResOf(cfg, s);
    var p, e := s.pool, s.acqs[a].phase.e;
    var q, x := ReleaseEntry(p, e, s.now), s.acqs[a].(phase := Done(e, true));
    hide AnyInv, BaseInv, ClaimInv, HeldInv, ClosingInv, QueueOk, Grounded, Drifts, Wf, CellsWf, ReleaseEntry;
    ReleaseDrifts(p, e, s.now);
    ReleaseGrounded(p, e, s.now);
    ClaimOf(p, s.acqs, a);
    ReleaseTable(p, q, e);
    ClaimsDrift(p, q, {}, s.acqs, a, x);
    ClosingDrifts(p, q, {}, s.drains, s.openedAt);
    HeldRelease(p, s.acqs, a, e, s.now, x);
  }

  lemma ClaimOf(p: Pool, acqs: seq<Acq>, a: nat)
    requires ClaimInv(p, acqs) && a < |acqs|
    ensures ClaimOk(p, acqs[a].key, acqs[a].phase)
  {
  }

  lemma ReleaseTable(p: Pool, q: Pool, e: nat)
    requires Drifts(p, q, {}) && e < |p.table|
    ensures e < |q.table| && q.table[e].key == p.table[e].key
  {
    assert Ages(p.table[e], q.table[e]);
  }

  // --- the steps of no acquire ---

  lemma ResTimeout(cfg: Config, s: State, w: nat)
    requires AnyInv(cfg, s) && Enabled(s, Timeout(w))
    ensures var t := Apply(cfg, s, Timeout(w)); ResInv(t.pool, t.acqs, t.drains, t.openedAt)
  {
    hide AnyInv, BaseInv, ResInv, ClaimInv, ClosingInv, QueueOk, Grounded, Drifts, Wf, CellsWf, Quiet, Settle;
    ResOf(cfg, s);
    TimeoutStays(s.pool, w);
    ResStay(s.pool, Settle(s.pool, w, TimedOut), s.acqs, s.drains, s.openedAt);
  }

  lemma ResSweep(cfg: Config, s: State)
    requires AnyInv(cfg, s) && Enabled(s, SweepTimer)
    ensures var t := Apply(cfg, s, SweepTimer); ResInv(t.pool, t.acqs, t.drains, t.openedAt)
  {
    hide AnyInv, BaseInv, ResInv, ClaimInv, ClosingInv, QueueOk, Grounded, Drifts, Wf, CellsWf, Quiet, Sweep, Passes;
    ResOf(cfg, s);
    SweepPasses(s.pool, cfg, s.now);
    PassesQuiet(s.pool, Sweep(s.pool, cfg, s.now));
    SweepDrifts(s.pool, cfg, s.now);
    ResStay(s.pool, Sweep(s.pool, cfg, s.now), s.acqs, s.drains, s.openedAt);
  }

  lemma ResDisposed(cfg: Config, s: State, e: nat)
    requires AnyInv(cfg, s) && Enabled(s, DisposeDone(e))
    ensures var t := Apply(cfg, s, DisposeDone(e)); ResInv(t.pool, t.acqs, t.drains, t.openedAt)
  {
    hide AnyInv, BaseInv, ResInv, ClaimInv, ClosingInv, QueueOk, Grounded, Drifts, Wf, CellsWf, Quiet, FinishDispose,
         Droppable, EndDisposal, Settling;
    ResOf(cfg, s);
    DisposedEffects(s, e);
    EndGrounded(s.pool, e);
    ResStay(s.pool, FinishDispose(s.pool, e), s.acqs, s.drains, s.openedAt);
  }

  lemma PassesQuiet(p: Pool, q: Pool)
    requires Passes(p, q)
    ensures Quiet(p, q)
  {
  }

  lemma TimeoutStays(p: Pool, w: nat)
    requires Grounded(p) && w < |p.log|
    ensures var q := Settle(p, w, TimedOut); Grounded(q) && Drifts(p, q, {}) && Quiet(p, q)
  {
    var q := Settle(p, w, TimedOut);
    WithoutIn(p.queue, w);
    hide Grounded, Without;
    GroundedFields(p, q);
    DriftsNot(p, q);
  }

  lemma ResSteps(cfg: Config, s: State, step: Step)
    requires AnyInv(cfg, s) && Enabled(s, step)
    requires step.Tick? || step.GcTimer? || step.BreakerMoves? || step.DrainDone?
    ensures var t := Apply(cfg, s, step); ResInv(t.pool, t.acqs, t.drains, t.openedAt)
  {
    hide BaseInv, Grounded, ClaimInv, HeldInv, Doomed, Wf, CellsWf, Droppable, GcCells, Awaited;
  }

  lemma ResStart(cfg: Config, s: State)
    requires AnyInv(cfg, s) && Enabled(s, Start)
    ensures var t := Apply(cfg, s, Start); ResInv(t.pool, t.acqs, t.drains, t.openedAt)
  {
    hide BaseInv, HeldInv, Doomed, Wf, CellsWf, Awaited;
    var q := s.pool.(closed := false);
    assert forall a :: 0 <= a < |s.acqs| ==> ClaimOk(q, s.acqs[a].key, s.acqs[a].phase);
  }

  // --- drain ---

  lemma DrainedClaims(p: Pool, q: Pool, acqs: seq<Acq>)
    requires Wf(p) && Grounded(p) && IsDrained(p, q) && ClaimInv(p, acqs)
    ensures ClaimInv(q, acqs)
  {
    hide Grounded, Wf;
    forall a | 0 <= a < |acqs| ensures ClaimOk(q, acqs[a].key, acqs[a].phase) {
      assert ClaimOk(p, acqs[a].key, acqs[a].phase);
      var k, ph := acqs[a].key, acqs[a].phase;
      if ph.Validating? || ph.Replacing? || ph.Resolved? || ph.Done? {
        assert q.table[ph.e] == Emptied(p, ph.e);
      }
    }
  }

  lemma DrainedHeld(p: Pool, q: Pool, acqs: seq<Acq>)
    requires Wf(p) && IsDrained(p, q) && HeldInv(p.table, acqs)
    ensures HeldInv(q.table, acqs)
  {
    forall e | 0 <= e < |q.table| && !q.table[e].life.Disposed? ensures q.table[e].refCount == Count(acqs, Holds(e)) {
      assert q.table[e] == Emptied(p, e);
    }
  }

  lemma DrainedDoomed(p: Pool, q: Pool, ws: set<Wait>)
    requires Wf(p) && IsDrained(p, q) && Doomed(p.table, ws)
    ensures Doomed(q.table, ws)
  {
    hide Awaited;
    forall e | e in Awaited(ws) ensures e < |q.table| && (q.table[e].life.Live? ==> q.table[e].condemned) {
      assert q.table[e] == Emptied(p, e);
    }
  }

  /** Whom the drain awaits it has disposed or condemned, and nobody else is resident. */
  lemma DrainedAwaits(p: Pool, q: Pool, d: nat)
    requires Wf(p) && Grounded(p) && IsDrained(p, q)
    ensures Doomed(q.table, Waits(p, d))
    ensures forall k :: k in q.orphans ==> q.orphans[k] in Awaited(Waits(p, d))
  {
    AwaitsResidents(p, d);
    hide Waits, Awaited;
    var m := p.orphans + Held(p, p.entries.Keys);
    forall e | e in Awaited(Waits(p, d)) ensures e < |q.table| && (q.table[e].life.Live? ==> q.table[e].condemned) {
      ResidentAtDrain(p, e);
      assert q.table[e] == Emptied(p, e);
    }
    assert forall k :: k in m ==> m[k] in Range(m);
  }

  lemma ResidentAtDrain(p: Pool, e: nat)
    requires Wf(p) && Grounded(p) && e in Range(p.entries) + Range(p.orphans + Held(p, p.entries.Keys))
    ensures e < |p.table| && (IsLive(p, e) || IsOrphan(p, e))
  {
    if e in Range(p.entries) {
      var k :| k in p.entries && p.entries[k] == e;
    } else {
      var k :| k in p.orphans + Held(p, p.entries.Keys) && (p.orphans + Held(p, p.entries.Keys))[k] == e;
      DrainedOrphan(p, k);
    }
  }

  lemma DrainedClosing(p: Pool, q: Pool, drains: seq<DrainRun>, openedAt: nat)
    requires Wf(p) && Grounded(p) && IsDrained(p, q) && ClosingInv(p, drains, openedAt)
    ensures ClosingInv(q, drains + [DrainRun(Waits(p, |drains|), false)], openedAt)
  {
    var ws := Waits(p, |drains|);
    var more := drains + [DrainRun(ws, false)];
    DrainedAwaits(p, q, |drains|);
    hide Waits, Awaited, Grounded, Doomed;
    forall d | 0 <= d < |more| ensures Doomed(q.table, more[d].waits) {
      if d < |drains| {
        DrainedDoomed(p, q, drains[d].waits);
      }
    }
    forall d, k | openedAt <= d < |more| && k in q.orphans ensures q.orphans[k] in Awaited(more[d].waits) {
      if d < |drains| {
        assert k in p.orphans || k in p.entries;
      }
    }
  }

  lemma DrainedRes(p: Pool, acqs: seq<Acq>, drains: seq<DrainRun>, openedAt: nat)
    requires Wf(p) && ResInv(p, acqs, drains, openedAt)
    ensures ResInv(Drain(p), acqs, drains + [DrainRun(Waits(p, |drains|), false)], openedAt)
  {
    hide ClaimInv, HeldInv, ClosingInv, Grounded, Wf, Drain, Waits, IsDrained, KeysOk;
    KeysOf(p);
    DrainIs(p);
    DrainGrounded(p, Drain(p));
    DrainedClaims(p, Drain(p), acqs);
    DrainedHeld(p, Drain(p), acqs);
    DrainedClosing(p, Drain(p), drains, openedAt);
  }

  lemma ResDrainStart(cfg: Config, s: State)
    requires AnyInv(cfg, s) && Enabled(s, DrainStart)
    ensures var t := Apply(cfg, s, DrainStart); ResInv(t.pool, t.acqs, t.drains, t.openedAt)
  {
    hide AnyInv, BaseInv, ResInv, ClaimInv, ClosingInv, QueueOk, Grounded, Wf, CellsWf, Drain, Waits;
    ResOf(cfg, s);
    DrainedRes(s.pool, s.acqs, s.drains, s.openedAt);
  }

  lemma KeysOf(p: Pool)
    requires Grounded(p)
    ensures KeysOk(p.table, p.entries, p.orphans)
  {
  }

  // --- every step, every run ---

  lemma AnyStepKeeps(cfg: Config, s: State, step: Step)
    requires AnyInv(cfg, s) && Enabled(s, step)
    ensures AnyInv(cfg, Apply(cfg, s, step))
  {
    hide BaseInv, ResInv, Enabled, Apply;
    BaseStepKeeps(cfg, s, step);
    match step {
      case Call(k) => ResCall(cfg, s, k);
      case Finish(a) => ResFinish(cfg, s, a);
      case Release(a) => ResRelease(cfg, s, a);
      case ReleaseKey(k, a) =>
        ReleaseKeyIsRelease(cfg, s, k, a);
        ResRelease(cfg, s, a);
      case CreateStart(a) => ResCreateStart(cfg, s, a);
      case CreateDone(a) => ResCreateDone(cfg, s, a);
      case CreateFail(a) => ResCreateFail(cfg, s, a);
      case ValidateDone(a, ok) => ResValidated(cfg, s, a, ok);
      case Timeout(w) => ResTimeout(cfg, s, w);
      case SweepTimer => ResSweep(cfg, s);
      case DisposeDone(e) => ResDisposed(cfg, s, e);
      case DrainStart => ResDrainStart(cfg, s);
      case Start => ResStart(cfg, s);
      case _ =>
        if step.Begin? || step.Replaced? || step.Resumed? {
          ResObtain(cfg, s, step);
        } else if step.ValidateThrow? || step.LateDone? {
          ResError(cfg, s, step);
        } else {
          ResSteps(cfg, s, step);
        }
    }
  }

  lemma {:induction false} AnyRunKeeps(cfg: Config, s: State, steps: seq<Step>)
    requires AnyInv(cfg, s) && Run(cfg, s, steps)
    ensures AnyInv(cfg, End(cfg, s, steps))
    decreases |steps|
  {
    hide AnyInv, Enabled, Apply;
    if steps != [] {
      AnyStepKeeps(cfg, s, steps[0]);
      AnyRunKeeps(cfg, Apply(cfg, s, steps[0]), steps[1..]);
    }
  }

  lemma InitAny(cfg: Config, now: int)
    ensures AnyInv(cfg, Init(now))
  {
    hide BaseInv;
    InitBase(cfg, now);
  }

  lemma AttainableAny(cfg: Config, s: State)
    requires Attainable(cfg, s)
    ensures AnyInv(cfg, s)
  {
    hide AnyInv;
    var now, steps :| Run(cfg, Init(now), steps) && s == End(cfg, Init(now), steps);
    InitAny(cfg, now);
    AnyRunKeeps(cfg, Init(now), steps);
  }
}
