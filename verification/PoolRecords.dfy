/** What a segment does to the record of each entry, whatever else is in the pool: only a release that drops
    the last reference sets its time, and nothing that has left the live state comes back. */
module PoolRecords {
  import opened Counting
  import opened PoolModel
  import opened PoolBulk

  /** The record of an entry before and after a step that was taken at some time. */
  predicate RecordMoves(r: Rec, u: Rec, now: int) {
    && u.key == r.key && (u.life.Live? ==> r.life.Live?) && (r.life.Disposed? ==> u.life.Disposed?)
    && u.lastReleasedAt == if r.refCount > 0 && u.refCount == 0 then now else r.lastReleasedAt
  }

  /** All records, and those of entries that are new. */
  predicate TableMoves(t: seq<Rec>, u: seq<Rec>, now: int) {
    && |t| <= |u|
    && (forall e :: 0 <= e < |t| ==> RecordMoves(t[e], u[e], now))
    && (forall e :: |t| <= e < |u| ==> u[e].lastReleasedAt == now && u[e].refCount == 0 && u[e].life.Live?)
  }

  predicate RecordStays(r: Rec, u: Rec) {
    && u.key == r.key && (u.life.Live? ==> r.life.Live?) && (r.life.Disposed? ==> u.life.Disposed?)
    && u.refCount == r.refCount && u.lastReleasedAt == r.lastReleasedAt
  }

  /** No reference comes or goes. */
  predicate TableStays(t: seq<Rec>, u: seq<Rec>) {
    |u| == |t| && forall e :: 0 <= e < |t| ==> RecordStays(t[e], u[e])
  }

  lemma StaysIsMoves(t: seq<Rec>, u: seq<Rec>, now: int)
    requires TableStays(t, u)
    ensures TableMoves(t, u, now)
  {
    forall e | 0 <= e < |t| ensures RecordMoves(t[e], u[e], now) {
      assert RecordStays(t[e], u[e]);
    }
  }

  lemma StaysTwice(t: seq<Rec>, u: seq<Rec>, v: seq<Rec>)
    requires TableStays(t, u) && TableStays(u, v)
    ensures TableStays(t, v)
  {
    forall e | 0 <= e < |t| ensures RecordStays(t[e], v[e]) {
      assert RecordStays(t[e], u[e]) && RecordStays(u[e], v[e]);
    }
  }

  lemma StaysNot(t: seq<Rec>)
    ensures TableStays(t, t)
  {
  }

  lemma EvictStays(p: Pool, v: nat)
    requires v < |p.table|
    ensures TableStays(p.table, Evict(p, v).table) && TableStays(p.table, Displace(p, v).table)
  {
    assert Evict(p, v).table == p.table[v := DisposeRec(p.table[v])];
  }

  lemma SlotStays(p: Pool, cfg: Config)
    requires Wf(p)
    ensures TableStays(p.table, SlotStep(p, cfg).0.table)
  {
    StaysNot(p.table);
    var v := FirstFree(p, p.idle);
    if cfg.max <= 0 || p.closed || |p.entries| + p.reserved < cfg.max {
    } else if v.Some? {
      EvictStays(p, v.value);
      hide TableStays, Displace;
    } else {
      hide FirstFree, TableStays;
    }
  }

  lemma MissStays(p: Pool, cfg: Config, k: Key)
    requires Wf(p)
    ensures TableStays(p.table, ObtainMiss(p, cfg, k).0.table)
  {
    hide SlotStep, TableStays;
    StaysNot(p.table);
    var z := p.(counters := p.counters.(misses := p.counters.misses + 1));
    SlotStays(z, cfg);
  }

  lemma ObtainStays(p: Pool, cfg: Config, k: Key)
    requires Wf(p)
    ensures TableStays(p.table, ObtainStart(p, cfg, k).0.table)
  {
    hide ObtainMiss, TableStays;
    StaysNot(p.table);
    MissStays(p, cfg, k);
  }

  lemma ResumeStays(p: Pool, cfg: Config, w: nat)
    requires Wf(p) && w < |p.log|
    ensures TableStays(p.table, Resume(p, cfg, w).0.table)
  {
    hide SlotStep, TableStays;
    StaysNot(p.table);
    SlotStays(p, cfg);
  }

  lemma ValidatedStays(p: Pool, e: nat, ok: bool)
    requires e < |p.table|
    ensures TableStays(p.table, Validated(p, e, ok).0.table)
  {
    hide Without;
    assert !ok ==> Validated(p, e, ok).0.table == p.table[e := DisposeRec(p.table[e])];
  }

  lemma CreateMoves(p: Pool, k: Key, now: int)
    requires Wf(p)
    ensures TableMoves(p.table, FactoryDone(p, k, now).0.table, now)
    ensures ReleaseReservation(p).table == p.table
  {
    WakeFrame(p.(reserved := p.reserved - 1));
    hide WakeWaiter, Wf;
  }

  lemma CheckoutMoves(p: Pool, e: nat, now: int)
    requires e < |p.table|
    ensures TableMoves(p.table, Checkout(p, e).table, now)
  {
    hide Without;
  }

  lemma ReleaseMoves(p: Pool, e: nat, now: int)
    requires Wf(p) && e < |p.table|
    ensures TableMoves(p.table, ReleaseEntry(p, e, now).table, now)
  {
    hide TableMoves, TableStays, RemoveEntry, Dispose, IdleAppend, WakeWaiter, DropLast, DropShared;
    var r, z := p.table[e], DropLast(p, e, now);
    StaysNot(p.table);
    StaysIsMoves(p.table, p.table, now);
    if !r.life.Disposed? && r.refCount > 0 {
      SharedMoves(p, e, now);
      if r.refCount == 1 {
        LastMoves(p, e, now);
        if r.condemned || (r.key in p.orphans && p.orphans[r.key] == e) {
          RemoveTable(z, e);
          DisposeMoves(p.table, z.table, e, now);
        } else {
          AppendTable(z, e);
          AppendWf(z, e);
          WakeTable(IdleAppend(z, e));
          StampMoves(p.table, z.table, IdleAppend(z, e).table, now);
        }
      }
    }
  }

  lemma SharedMoves(p: Pool, e: nat, now: int)
    requires e < |p.table| && p.table[e].refCount > 0
    ensures p.table[e].refCount > 1 ==> TableMoves(p.table, DropShared(p, e).table, now)
    ensures |DropLast(p, e, now).table| == |p.table|
    ensures Wf(p) ==> Wf(DropLast(p, e, now))
  {
  }

  lemma RemoveTable(p: Pool, e: nat)
    requires e < |p.table|
    ensures |RemoveEntry(p, e).table| == |p.table|
    ensures Dispose(RemoveEntry(p, e), e).table == p.table[e := DisposeRec(p.table[e])]
  {
    hide Without;
  }

  lemma DisposeMoves(t: seq<Rec>, u: seq<Rec>, e: nat, now: int)
    requires TableMoves(t, u, now) && e < |t| == |u|
    ensures TableMoves(t, u[e := DisposeRec(u[e])], now)
  {
    assert RecordMoves(t[e], u[e], now);
  }

  lemma AppendWf(p: Pool, e: nat)
    requires Wf(p) && e < |p.table|
    ensures Wf(IdleAppend(p, e))
  {
  }

  lemma StampMoves(t: seq<Rec>, u: seq<Rec>, v: seq<Rec>, now: int)
    requires TableMoves(t, u, now) && |t| == |u| == |v|
    requires forall x :: 0 <= x < |u| ==> v[x] == u[x].(stamp := v[x].stamp)
    ensures TableMoves(t, v, now)
  {
    forall e | 0 <= e < |t| ensures RecordMoves(t[e], v[e], now) {
      assert RecordMoves(t[e], u[e], now);
    }
  }

  lemma LastMoves(p: Pool, e: nat, now: int)
    requires e < |p.table| && p.table[e].refCount == 1
    ensures var t := DropLast(p, e, now).table;
      |t| == |p.table| && TableMoves(p.table, t, now) && t[e].refCount == 0 && t[e].lastReleasedAt == now
  {
  }

  lemma AppendTable(p: Pool, e: nat)
    requires e < |p.table|
    ensures |IdleAppend(p, e).table| == |p.table|
    ensures forall x :: 0 <= x < |p.table| ==>
      IdleAppend(p, e).table[x] == p.table[x].(stamp := IdleAppend(p, e).table[x].stamp)
  {
  }

  lemma {:induction false} WalkStays(p: Pool, nodes: seq<nat>, cutoff: int)
    requires Wf(p) && forall i :: 0 <= i < |nodes| ==> nodes[i] < |p.table|
    ensures TableStays(p.table, SweepWalk(p, nodes, cutoff).table)
    decreases |nodes|
  {
    hide Wf, Evict, WakeWaiter, TableStays;
    StaysNot(p.table);
    if nodes != [] && p.table[nodes[0]].lastReleasedAt <= cutoff {
      if IsPending(p, p.table[nodes[0]].key) {
        WalkStays(p, nodes[1..], cutoff);
      } else {
        var z := Evict(p, nodes[0]);
        WfEvictWake(p, nodes[0]);
        EvictStays(p, nodes[0]);
        WakeTable(z);
        WalkStays(WakeWaiter(z), nodes[1..], cutoff);
        StaysTwice(p.table, z.table, SweepWalk(WakeWaiter(z), nodes[1..], cutoff).table);
      }
    }
  }

  lemma WakeTable(p: Pool)
    requires Wf(p)
    ensures p.queue != [] ==> p.queue[0] < |p.log|
    ensures WakeWaiter(p).table == p.table
  {
    WakeFrame(p);
  }

  lemma SweepStays(p: Pool, cfg: Config, now: int)
    requires Wf(p)
    ensures TableStays(p.table, Sweep(p, cfg, now).table)
  {
    hide SweepWalk, TableStays;
    StaysNot(p.table);
    if cfg.idleTtlMs != 0 {
      WalkStays(p, p.idle, now - cfg.idleTtlMs);
    }
  }

  lemma DrainStays(p: Pool)
    requires Wf(p)
    ensures TableStays(p.table, Drain(p).table)
  {
    WfClose(p.(closed := true));
    var q := CloseWaiters(p.(closed := true));
    WfDrainEntries(q, q.entries.Keys);
    hide CloseWaiters, Outside, Held, Wf;
    LoopsStay(q);
    hide DrainEntries, CondemnOrphans, TableStays;
    StaysTwice(q.table, DrainEntries(q, q.entries.Keys).table, CondemnOrphans(DrainEntries(q, q.entries.Keys)).table);
  }

  lemma LoopsStay(p: Pool)
    requires Wf(p)
    ensures TableStays(p.table, DrainEntries(p, p.entries.Keys).table)
    ensures forall q: Pool :: TableStays(q.table, CondemnOrphans(q).table)
  {
    hide Outside, Held, Wf;
  }
}
