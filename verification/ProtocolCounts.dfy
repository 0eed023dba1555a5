/** The counters against the acquires they count: pending, reference counts, reservations, hits,
    misses and events. */
module ProtocolCounts {
  import opened Counting
  import opened PoolModel
  import opened PoolInvariant
  import opened PoolBulk
  import opened MutexModel
  import opened Protocol

  function ActiveOn(k: Key): Acq -> bool { (x: Acq) => Active(x) && x.key == k }
  function Holds(e: nat): Acq -> bool { (x: Acq) => Outstanding(x) && x.phase.e == e }
  function IsReserving(): Acq -> bool { (x: Acq) => x.phase.Reserved? || x.phase.Creating? }
  function IsMissing(): Acq -> bool { (x: Acq) => x.phase.Parked? || x.phase.Reserved? || x.phase.Creating? }
  function IsResolved(): Acq -> bool { (x: Acq) => x.phase.Resolved? }

  function TotalRefs(t: seq<Rec>): nat {
    if |t| == 0 then 0 else TotalRefs(t[..|t| - 1]) + t[|t| - 1].refCount
  }

  /** pending[k] is the number of acquires of k that have neither returned nor thrown. */
  ghost predicate PendingOk(p: Pool, acqs: seq<Acq>) {
    forall k :: Pending(p, k) == Count(acqs, ActiveOn(k))
  }

  /** An entry's refCount is the number of its handles that are not released. */
  predicate HandlesOk(t: seq<Rec>, acqs: seq<Acq>) {
    forall e :: 0 <= e < |t| ==> t[e].refCount == Count(acqs, Holds(e))
  }

  /** With a bound, reservations are the acquires between the gate and their insertion or failure;
      without one, acquireSlot reserves nothing and the counter only falls. */
  predicate GateOk(cfg: Config, p: Pool, acqs: seq<Acq>, failed: nat) {
    p.reserved == if cfg.max >= 1 then Count(acqs, IsReserving()) else -(p.counters.created + failed)
  }

  predicate TrafficOk(c: Counters, acqs: seq<Acq>, failed: nat) {
    && c.acquires + Count(acqs, IsResolved()) == c.hits + c.created
    && c.misses == c.created + failed + Count(acqs, IsMissing())
  }

  predicate RefsOk(p: Pool) {
    TotalRefs(p.table) + p.counters.releases == p.counters.acquires
  }

  ghost predicate CountInv(cfg: Config, p: Pool, acqs: seq<Acq>, failed: nat) {
    && PendingOk(p, acqs) && HandlesOk(p.table, acqs)
    && GateOk(cfg, p, acqs, failed) && TrafficOk(p.counters, acqs, failed) && RefsOk(p)
  }

  lemma {:induction false} TotalAgrees(t: seq<Rec>, u: seq<Rec>)
    requires |t| <= |u|
    requires forall e :: 0 <= e < |t| ==> t[e].refCount == u[e].refCount
    requires forall e :: |t| <= e < |u| ==> u[e].refCount == 0
    ensures TotalRefs(t) == TotalRefs(u)
    decreases |u|
  {
    if |t| < |u| {
      TotalAgrees(t, u[..|u| - 1]);
    } else if |u| > 0 {
      TotalAgrees(t[..|t| - 1], u[..|u| - 1]);
    }
  }

  lemma {:induction false} TotalSet(t: seq<Rec>, e: nat, r: Rec)
    requires e < |t|
    ensures TotalRefs(t[e := r]) + t[e].refCount == TotalRefs(t) + r.refCount
  {
    var n := |t| - 1;
    if e == n {
      assert t[e := r][..n] == t[..n];
    } else {
      TotalSet(t[..n], e, r);
      assert t[e := r][..n] == t[..n][e := r];
    }
  }

  // --- a step that moves one acquire from phase to phase ---

  /** What a segment leaves alone whatever it does: pending and every reference count. */
  predicate Quiet(p: Pool, q: Pool) {
    && q.pending == p.pending
    && q.counters.acquires == p.counters.acquires && q.counters.releases == p.counters.releases
    && |p.table| <= |q.table|
    && (forall e :: 0 <= e < |p.table| ==> q.table[e].refCount == p.table[e].refCount)
    && (forall e :: |p.table| <= e < |q.table| ==> q.table[e].refCount == 0)
  }

  /** Its other counters move as the phases of acquire y, now x, say. */
  predicate Tallies(cfg: Config, p: Pool, q: Pool, y: Acq, x: Acq, failed: nat, failed': nat) {
    var dc, df := q.counters.created - p.counters.created, failed' - failed;
    && q.reserved - p.reserved == (if cfg.max >= 1 then One(IsReserving()(x)) - One(IsReserving()(y)) else -(dc + df))
    && q.counters.hits - p.counters.hits + dc == One(IsResolved()(x)) - One(IsResolved()(y))
    && q.counters.misses - p.counters.misses == dc + df + One(IsMissing()(x)) - One(IsMissing()(y))
  }

  lemma MoveKeepsCounts(cfg: Config, p: Pool, q: Pool, acqs: seq<Acq>, a: nat, x: Acq, failed: nat, failed': nat)
    requires CountInv(cfg, p, acqs, failed) && a < |acqs| && Quiet(p, q)
    requires Tallies(cfg, p, q, acqs[a], x, failed, failed')
    requires x.key == acqs[a].key && Active(x) && Active(acqs[a])
    requires forall b :: 0 <= b < |acqs| && Outstanding(acqs[b]) ==> acqs[b].phase.e < |p.table|
    ensures CountInv(cfg, q, acqs[a := x], failed')
  {
    var bs := acqs[a := x];
    CountUpdate(acqs, a, x, IsReserving());
    CountUpdate(acqs, a, x, IsResolved());
    CountUpdate(acqs, a, x, IsMissing());
    QuietHandles(p, q, acqs, a, x);
    QuietPending(p, q, acqs, a, x);
    TotalAgrees(p.table, q.table);
  }

  lemma QuietPending(p: Pool, q: Pool, acqs: seq<Acq>, a: nat, x: Acq)
    requires PendingOk(p, acqs) && a < |acqs| && q.pending == p.pending
    requires x.key == acqs[a].key && Active(x) == Active(acqs[a])
    ensures PendingOk(q, acqs[a := x])
  {
    forall k ensures Pending(q, k) == Count(acqs[a := x], ActiveOn(k)) {
      assert Pending(p, k) == Count(acqs, ActiveOn(k));
      CountUpdate(acqs, a, x, ActiveOn(k));
    }
  }

  lemma QuietHandles(p: Pool, q: Pool, acqs: seq<Acq>, a: nat, x: Acq)
    requires HandlesOk(p.table, acqs) && a < |acqs| && Quiet(p, q)
    requires !Outstanding(x) && !Outstanding(acqs[a])
    requires forall b :: 0 <= b < |acqs| && Outstanding(acqs[b]) ==> acqs[b].phase.e < |p.table|
    ensures HandlesOk(q.table, acqs[a := x])
  {
    forall e | 0 <= e < |q.table| ensures q.table[e].refCount == Count(acqs[a := x], Holds(e)) {
      CountUpdate(acqs, a, x, Holds(e));
      if e >= |p.table| {
        CountNone(acqs, Holds(e));
      }
    }
  }

  // --- steps that move no acquire ---

  lemma QuietKeepsCounts(cfg: Config, p: Pool, q: Pool, acqs: seq<Acq>, failed: nat)
    requires CountInv(cfg, p, acqs, failed) && Quiet(p, q) && |q.table| == |p.table| && q.reserved == p.reserved
    requires q.counters.hits == p.counters.hits && q.counters.misses == p.counters.misses
    requires q.counters.created == p.counters.created
    ensures CountInv(cfg, q, acqs, failed)
  {
    TotalAgrees(p.table, q.table);
    forall k ensures Pending(q, k) == Count(acqs, ActiveOn(k)) {
      assert Pending(p, k) == Count(acqs, ActiveOn(k));
    }
    forall e | 0 <= e < |q.table| ensures q.table[e].refCount == Count(acqs, Holds(e)) {
      assert p.table[e].refCount == Count(acqs, Holds(e));
    }
  }

  // --- an acquire ends, with a handle or without ---

  /** decPending undoes the acquire's own incPending. */
  lemma EndPending(p: Pool, q: Pool, acqs: seq<Acq>, a: nat, x: Acq)
    requires PendingOk(p, acqs) && a < |acqs| && x.key == acqs[a].key && Active(acqs[a]) && !Active(x)
    requires q.pending == DecPending(p, x.key).pending
    ensures PendingOk(q, acqs[a := x])
  {
    forall k ensures Pending(q, k) == Count(acqs[a := x], ActiveOn(k)) {
      assert Pending(p, k) == Count(acqs, ActiveOn(k));
      CountUpdate(acqs, a, x, ActiveOn(k));
    }
  }

  lemma FinishFailedCounts(cfg: Config, p: Pool, acqs: seq<Acq>, a: nat, x: Acq, failed: nat)
    requires CountInv(cfg, p, acqs, failed) && a < |acqs| && acqs[a].phase.Rejected?
    requires x.key == acqs[a].key && x.phase.Failed?
    ensures CountInv(cfg, DecPending(p, x.key), acqs[a := x], failed)
  {
    var q := DecPending(p, x.key);
    EndPending(p, q, acqs, a, x);
    CountUpdate(acqs, a, x, IsReserving());
    CountUpdate(acqs, a, x, IsResolved());
    CountUpdate(acqs, a, x, IsMissing());
    forall e | 0 <= e < |q.table| ensures q.table[e].refCount == Count(acqs[a := x], Holds(e)) {
      CountUpdate(acqs, a, x, Holds(e));
    }
  }

  lemma CheckoutHandles(t: seq<Rec>, acqs: seq<Acq>, bs: seq<Acq>, e: nat, r: Rec)
    requires HandlesOk(t, acqs) && e < |t| && r.refCount == t[e].refCount + 1
    requires forall d: nat :: Count(bs, Holds(d)) == Count(acqs, Holds(d)) + One(d == e)
    ensures HandlesOk(t[e := r], bs)
  {
    forall d | 0 <= d < |t| ensures t[e := r][d].refCount == Count(bs, Holds(d)) {
      assert t[d].refCount == Count(acqs, Holds(d));
    }
  }

  /** One checkout, however the acquire got there. */
  predicate ChecksOut(p: Pool, q: Pool, e: nat, hits: nat) {
    && e < |p.table| && q.table == p.table[e := p.table[e].(refCount := p.table[e].refCount + 1)]
    && q.reserved == p.reserved
    && q.counters == p.counters.(acquires := p.counters.acquires + 1, hits := p.counters.hits + hits)
  }

  lemma FinishForm(p: Pool, e: nat, k: Key)
    requires e < |p.table|
    ensures ChecksOut(p, FinishOk(p, e, k), e, 0) && FinishOk(p, e, k).pending == DecPending(p, k).pending
  {
    hide Without;
  }

  lemma FastForm(p: Pool, e: nat, k: Key)
    requires e < |p.table|
    ensures ChecksOut(p, DecPending(Checkout(Hit(IncPending(p, k)), e), k), e, 1)
    ensures DecPending(Checkout(Hit(IncPending(p, k)), e), k).pending == DecPending(IncPending(p, k), k).pending
  {
    var q := Hit(IncPending(p, k));
    FinishForm(q, e, k);
    hide Checkout, DecPending;
    assert FinishOk(q, e, k) == DecPending(Checkout(q, e), k);
    DecPendingForm(q, IncPending(p, k), k);
  }

  lemma DecPendingForm(p: Pool, q: Pool, k: Key)
    requires p.pending == q.pending
    ensures DecPending(p, k).pending == DecPending(q, k).pending
  {
  }

  lemma CheckoutCounts(cfg: Config, p: Pool, q: Pool, acqs: seq<Acq>, bs: seq<Acq>, e: nat, hits: nat, failed: nat)
    requires CountInv(cfg, p, acqs, failed) && ChecksOut(p, q, e, hits) && PendingOk(q, bs)
    requires forall d: nat :: Count(bs, Holds(d)) == Count(acqs, Holds(d)) + One(d == e)
    requires Count(bs, IsReserving()) == Count(acqs, IsReserving())
    requires Count(bs, IsMissing()) == Count(acqs, IsMissing())
    requires Count(bs, IsResolved()) + 1 == Count(acqs, IsResolved()) + hits
    ensures CountInv(cfg, q, bs, failed)
  {
    var r := p.table[e].(refCount := p.table[e].refCount + 1);
    CheckoutHandles(p.table, acqs, bs, e, r);
    TotalSet(p.table, e, r);
  }

  lemma FinishOkCounts(cfg: Config, p: Pool, acqs: seq<Acq>, a: nat, e: nat, x: Acq, failed: nat)
    requires CountInv(cfg, p, acqs, failed) && a < |acqs| && acqs[a].phase == Resolved(e) && e < |p.table|
    requires x.key == acqs[a].key && x.phase == Done(e, false)
    ensures CountInv(cfg, FinishOk(p, e, x.key), acqs[a := x], failed)
  {
    var q, bs := FinishOk(p, e, x.key), acqs[a := x];
    hide FinishOk, DecPending, ChecksOut, HandlesOk, GateOk, TrafficOk, RefsOk, PendingOk;
    FinishForm(p, e, x.key);
    EndPending(p, q, acqs, a, x);
    CountUpdate(acqs, a, x, IsReserving());
    CountUpdate(acqs, a, x, IsResolved());
    CountUpdate(acqs, a, x, IsMissing());
    forall d: nat ensures Count(bs, Holds(d)) == Count(acqs, Holds(d)) + One(d == e) {
      CountUpdate(acqs, a, x, Holds(d));
    }
    CheckoutCounts(cfg, p, q, acqs, bs, e, 0, failed);
  }

  // --- a call ---

  lemma SlowCallCounts(cfg: Config, p: Pool, acqs: seq<Acq>, x: Acq, failed: nat)
    requires CountInv(cfg, p, acqs, failed) && x.phase.Queued?
    ensures CountInv(cfg, IncPending(p, x.key), acqs + [x], failed)
  {
    var q, bs := IncPending(p, x.key), acqs + [x];
    CountAppend(acqs, x, IsReserving());
    CountAppend(acqs, x, IsResolved());
    CountAppend(acqs, x, IsMissing());
    forall k ensures Pending(q, k) == Count(bs, ActiveOn(k)) {
      assert Pending(p, k) == Count(acqs, ActiveOn(k));
      CountAppend(acqs, x, ActiveOn(k));
    }
    forall e | 0 <= e < |q.table| ensures q.table[e].refCount == Count(bs, Holds(e)) {
      CountAppend(acqs, x, Holds(e));
    }
  }

  lemma FastCallCounts(cfg: Config, p: Pool, acqs: seq<Acq>, e: nat, x: Acq, failed: nat)
    requires CountInv(cfg, p, acqs, failed) && e < |p.table| && x.phase == Done(e, false)
    ensures CountInv(cfg, DecPending(Checkout(Hit(IncPending(p, x.key)), e), x.key), acqs + [x], failed)
  {
    var q, bs := DecPending(Checkout(Hit(IncPending(p, x.key)), e), x.key), acqs + [x];
    hide DecPending, IncPending, Checkout, Hit, ChecksOut, HandlesOk, GateOk, TrafficOk, RefsOk, PendingOk;
    FastForm(p, e, x.key);
    CountAppend(acqs, x, IsReserving());
    CountAppend(acqs, x, IsResolved());
    CountAppend(acqs, x, IsMissing());
    FastPending(p, q, acqs, x);
    forall d: nat ensures Count(bs, Holds(d)) == Count(acqs, Holds(d)) + One(d == e) {
      CountAppend(acqs, x, Holds(d));
    }
    CheckoutCounts(cfg, p, q, acqs, bs, e, 1, failed);
  }

  lemma FastPending(p: Pool, q: Pool, acqs: seq<Acq>, x: Acq)
    requires PendingOk(p, acqs) && !Active(x)
    requires q.pending == DecPending(IncPending(p, x.key), x.key).pending
    ensures PendingOk(q, acqs + [x])
  {
    forall k ensures Pending(q, k) == Count(acqs + [x], ActiveOn(k)) {
      assert Pending(p, k) == Count(acqs, ActiveOn(k));
      CountAppend(acqs, x, ActiveOn(k));
    }
  }

  // --- a release ---

  /** What a release changes that is counted. */
  predicate DropsOne(p: Pool, q: Pool, e: nat) {
    && e < |p.table| == |q.table| && q.pending == p.pending && q.reserved == p.reserved
    && (forall d :: 0 <= d < |p.table| ==> q.table[d].refCount + One(d == e) == p.table[d].refCount)
    && q.counters.releases == p.counters.releases + 1
    && q.counters == p.counters.(releases := q.counters.releases)
  }

  lemma ReleaseDropsOne(p: Pool, e: nat, now: int)
    requires Wf(p) && e < |p.table| && p.table[e].refCount > 0 && !p.table[e].life.Disposed?
    ensures DropsOne(p, ReleaseEntry(p, e, now), e)
  {
    var z := DropLast(p, e, now);
    if p.table[e].refCount == 1 && !(p.table[e].condemned
          || (p.table[e].key in p.orphans && p.orphans[p.table[e].key] == e)) {
      var y := IdleAppend(z, e);
      hide IdleAppend, WakeWaiter;
      AppendQuiet(z, e);
      WakeFrame(y);
    }
  }

  lemma AppendQuiet(p: Pool, e: nat)
    requires Wf(p) && e < |p.table|
    ensures Wf(IdleAppend(p, e)) && |IdleAppend(p, e).table| == |p.table|
    ensures IdleAppend(p, e).pending == p.pending
    ensures IdleAppend(p, e).reserved == p.reserved && IdleAppend(p, e).counters == p.counters
    ensures forall d :: 0 <= d < |p.table| ==> IdleAppend(p, e).table[d].refCount == p.table[d].refCount
  {
  }

  lemma ReleaseCounts(cfg: Config, p: Pool, q: Pool, acqs: seq<Acq>, a: nat, e: nat, x: Acq, failed: nat)
    requires CountInv(cfg, p, acqs, failed) && a < |acqs| && acqs[a].phase == Done(e, false) && DropsOne(p, q, e)
    requires x.key == acqs[a].key && x.phase == Done(e, true)
    ensures CountInv(cfg, q, acqs[a := x], failed)
  {
    var bs := acqs[a := x];
    CountUpdate(acqs, a, x, IsReserving());
    CountUpdate(acqs, a, x, IsResolved());
    CountUpdate(acqs, a, x, IsMissing());
    QuietPending(p, q, acqs, a, x);
    forall d | 0 <= d < |q.table| ensures q.table[d].refCount == Count(bs, Holds(d)) {
      CountUpdate(acqs, a, x, Holds(d));
    }
    var r := p.table[e].(refCount := q.table[e].refCount);
    TotalSet(p.table, e, r);
    TotalAgrees(p.table[e := r], q.table);
  }

  // --- the segments ---

  /** What one turn at the capacity gate may change that is counted. */
  predicate Gated(cfg: Config, p: Pool, q: Pool, r: SlotResult) {
    && Quiet(p, q) && |q.table| == |p.table|
    && q.reserved == p.reserved + One(cfg.max >= 1 && r.Granted?)
    && q.counters == p.counters.(evicted := q.counters.evicted)
    && (cfg.max <= 0 ==> r.Granted?)
    && |q.log| == |p.log| + One(r.ParkedAs?)
    && (r.ParkedAs? ==> r.w == |p.log|)
  }

  lemma DisplaceGated(cfg: Config, p: Pool, v: nat)
    requires v < |p.table| && cfg.max >= 1
    ensures Gated(cfg, p, Displace(p, v), Granted)
  {
  }

  lemma SlotGated(p: Pool, cfg: Config)
    requires Wf(p)
    ensures Gated(cfg, p, SlotStep(p, cfg).0, SlotStep(p, cfg).1)
  {
    var v := FirstFree(p, p.idle);
    if cfg.max <= 0 || p.closed || |p.entries| + p.reserved < cfg.max {
    } else if v.Some? {
      assert v.value < |p.table|;
      hide Gated, Displace, Wf;
      DisplaceGated(cfg, p, v.value);
    } else {
      hide FirstFree, Wf;
    }
  }

  lemma QuietFields(p: Pool, q: Pool)
    ensures q.pending == p.pending && q.table == p.table && q.counters == p.counters ==> Quiet(p, q)
  {
  }

}
