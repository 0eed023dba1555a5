/** What the phase of each acquire promises about the pool, and that no step of another acquire
    takes it away. */
module ProtocolPhases {
  import opened Counting
  import opened PoolModel
  import opened PoolInvariant
  import opened PoolBulk
  import opened MutexModel
  import opened Protocol

  /** No entry of the key is resident. */
  predicate Absent(p: Pool, k: Key) { k !in p.entries && k !in p.orphans }

  predicate PhaseOk(p: Pool, x: Acq) {
    match x.phase
    case Validating(e) => IsLive(p, e) && p.table[e].key == x.key && p.table[e].refCount == 0
    case Replacing(e) => e < |p.table| && p.table[e].key == x.key && !p.table[e].life.Live? && Absent(p, x.key)
    case Parked(w) => w < |p.log| && Absent(p, x.key)
    case Reserved => Absent(p, x.key)
    case Creating(_) => Absent(p, x.key)
    case LateDisposing => Absent(p, x.key)
    case Resolved(e) => e < |p.table| && p.table[e].key == x.key && p.table[e].life.Live?
    case Done(e, _) => e < |p.table|
    case _ => true
  }

  predicate PhaseInv(p: Pool, acqs: seq<Acq>) {
    forall a :: 0 <= a < |acqs| ==> PhaseOk(p, acqs[a])
  }

  /** From p to q nothing happened to the entries of key k, as far as an acquire of k can tell. */
  predicate SameFor(p: Pool, q: Pool, k: Key) {
    && (k in p.entries <==> k in q.entries) && (k in p.entries ==> p.entries[k] == q.entries[k])
    && (k in p.orphans <==> k in q.orphans) && (k in p.orphans ==> p.orphans[k] == q.orphans[k])
    && |p.table| <= |q.table| && |p.log| <= |q.log|
    && (forall e :: 0 <= e < |p.table| && p.table[e].key == k ==>
         q.table[e].key == k && q.table[e].refCount == p.table[e].refCount
         && (q.table[e].life.Live? <==> p.table[e].life.Live?))
  }

  lemma SameKeepsPhase(p: Pool, q: Pool, x: Acq)
    requires PhaseOk(p, x) && SameFor(p, q, x.key)
    requires |p.table| <= |q.table|
    ensures PhaseOk(q, x)
  {
  }

  /** Everyone but acquire a keeps its promise if the keys of the others are left alone. */
  lemma OthersKeepPhase(p: Pool, q: Pool, acqs: seq<Acq>, a: nat, x: Acq)
    requires PhaseInv(p, acqs) && a < |acqs| && PhaseOk(q, x)
    requires |p.table| <= |q.table|
    requires forall b :: 0 <= b < |acqs| && b != a && Choosy(acqs[b]) ==> SameFor(p, q, acqs[b].key)
    ensures PhaseInv(q, acqs[a := x])
  {
    var bs := acqs[a := x];
    forall b | 0 <= b < |bs| ensures PhaseOk(q, bs[b]) {
      if b != a {
        assert PhaseOk(p, acqs[b]);
        if Choosy(acqs[b]) {
          SameKeepsPhase(p, q, acqs[b]);
        }
      }
    }
  }

  /** Phases whose promise is about the entries of the key. */
  predicate Choosy(x: Acq) { Active(x) && !x.phase.Queued? && !x.phase.Rejected? }

  // --- what each segment leaves alone ---

  lemma SameTrans(p: Pool, q: Pool, r: Pool, l: Key)
    requires SameFor(p, q, l) && SameFor(q, r, l)
    ensures SameFor(p, r, l)
  {
  }

  lemma WakeSame(p: Pool, l: Key)
    requires Wf(p)
    ensures SameFor(p, WakeWaiter(p), l)
  {
    hide WakeWaiter;
    WakeFrame(p);
  }

  lemma AppendSame(p: Pool, e: nat, l: Key)
    requires e < |p.table| && p.table[e].key != l
    ensures SameFor(p, IdleAppend(p, e), l)
  {
  }

  lemma DropSame(p: Pool, e: nat, now: int, l: Key)
    requires e < |p.table| && p.table[e].key != l
    ensures SameFor(p, DropLast(p, e, now), l)
    ensures p.table[e].refCount > 0 ==> SameFor(p, DropShared(p, e), l)
    ensures DropLast(p, e, now).table[e].key == p.table[e].key
    ensures |DropLast(p, e, now).table| == |p.table|
    ensures Wf(p) ==> Wf(DropLast(p, e, now))
  {
  }

  lemma ReleaseSame(p: Pool, e: nat, now: int, l: Key)
    requires Wf(p) && e < |p.table| && p.table[e].key != l
    ensures SameFor(p, ReleaseEntry(p, e, now), l)
  {
    hide SameFor, WakeWaiter, IdleAppend, RemoveEntry, Dispose, DropLast, DropShared, Wf;
    var r := p.table[e];
    DropSame(p, e, now, l);
    if r.refCount == 0 || r.life.Disposed? {
      SameRefl(p, l);
    } else if r.refCount == 1 {
      var z := DropLast(p, e, now);
      if r.condemned || (r.key in p.orphans && p.orphans[r.key] == e) {
        InvalidSame(z, e, l);
        SameTrans(p, z, Dispose(RemoveEntry(z, e), e), l);
      } else {
        var y := IdleAppend(z, e);
        AppendSame(z, e, l);
        WfAppend(z, e);
        WakeSame(y, l);
        SameTrans(p, z, y, l);
        SameTrans(p, y, WakeWaiter(y), l);
      }
    }
  }

  lemma SameRefl(p: Pool, l: Key)
    ensures SameFor(p, p, l)
  {
  }

  lemma WfAppend(p: Pool, e: nat)
    requires Wf(p) && e < |p.table|
    ensures Wf(IdleAppend(p, e))
  {
  }

  lemma EvictSame(p: Pool, v: nat, l: Key)
    requires Wf(p) && v < |p.table| && p.table[v].key != l
    ensures SameFor(p, Evict(p, v), l)
  {
  }

  lemma InvalidSame(p: Pool, e: nat, l: Key)
    requires e < |p.table| && p.table[e].key != l
    ensures |RemoveEntry(p, e).table| == |p.table|
    ensures SameFor(p, Dispose(RemoveEntry(p, e), e), l)
  {
  }

  lemma InsertSame(p: Pool, k: Key, now: int, l: Key)
    requires Wf(p) && k != l
    ensures SameFor(p, InsertCreated(p, k, now), l)
  {
    assert forall e :: e in p.idle ==> e < |p.table|;
  }

  lemma SlotSame(p: Pool, cfg: Config, l: Key)
    requires Wf(p) && IsPending(p, l)
    ensures SameFor(p, SlotStep(p, cfg).0, l)
  {
    var v := FirstFree(p, p.idle);
    FreeIsNotPending(p);
    hide SameFor, Evict, Wf;
    if v.Some? {
      EvictSame(p, v.value, l);
      SameFields(Evict(p, v.value), Displace(p, v.value), l);
      SameTrans(p, Evict(p, v.value), Displace(p, v.value), l);
    }
    SameFields(p, p, l);
    SameFields(p, p.(reserved := p.reserved + 1), l);
    SameFields(p, Park(p), l);
  }

  lemma FreeIsNotPending(p: Pool)
    requires Wf(p)
    ensures var v := FirstFree(p, p.idle); v.Some? ==> v.value < |p.table| && !IsPending(p, p.table[v.value].key)
  {
    FirstFreeIs(p, p.idle);
  }

  lemma SameFields(p: Pool, q: Pool, l: Key)
    requires q.table == p.table && q.entries == p.entries && q.orphans == p.orphans && |p.log| <= |q.log|
    ensures SameFor(p, q, l)
  {
  }

  lemma WfCounters(p: Pool, q: Pool)
    requires Wf(p) && q == p.(counters := q.counters)
    ensures Wf(q)
  {
  }

  /** A sweep skips the entries of keys with an acquire in flight. */
  lemma SweepSame(p: Pool, cfg: Config, now: int, l: Key)
    requires PoolInv(p, now) && IsPending(p, l)
    ensures Wf(p) && SameFor(p, Sweep(p, cfg, now), l)
  {
    hide PoolInv, SweepWalk, SweptTo, KeysOk, SameFor, Wf;
    ResidentsLive(p, now);
    SameRefl(p, l);
    if cfg.idleTtlMs != 0 {
      IdleBounds(p);
      SweepIsFilter(p, [], p.idle, now - cfg.idleTtlMs, now);
      SweptSame(p, now - cfg.idleTtlMs, Sweep(p, cfg, now), l);
    }
  }

  lemma IdleBounds(p: Pool)
    requires Wf(p)
    ensures forall i :: 0 <= i < |p.idle| ==> p.idle[i] < |p.table|
  {
  }

  lemma SweptSame(p: Pool, cutoff: int, q: Pool, l: Key)
    requires KeysOk(p.table, p.entries, p.orphans) && Wf(p) && SweptTo(p, [], p.idle, cutoff, q) && IsPending(p, l)
    ensures SameFor(p, q, l)
  {
    assert l in p.entries ==> !Expired(p, cutoff, p.entries[l]);
    forall e | 0 <= e < |p.table| && p.table[e].key == l ensures q.table[e] == p.table[e] {
      assert !Expired(p, cutoff, e);
    }
  }
}
