/** What every segment keeps of the two maps and the idle list, also when a drain has disposed an entry
    that an acquire had chosen: both maps lead to live entries only, an orphan is condemned, whatever is
    live and condemned is held, and whatever is idle is not. */
module PoolResidents {
  import opened Counting
  import opened PoolModel
  import opened PoolInvariant
  import opened PoolBulk

  predicate MapsOk(t: seq<Rec>, live: Ids, orphans: Ids) {
    && KeysOk(t, live, orphans)
    && (forall k :: k in live ==> t[live[k]].life.Live?)
    && (forall k :: k in orphans ==> t[orphans[k]].life.Live? && t[orphans[k]].condemned)
    && (forall e :: 0 <= e < |t| && t[e].life.Live? && t[e].condemned ==> t[e].refCount > 0)
  }

  predicate IdleFree(t: seq<Rec>, idle: seq<nat>) {
    Distinct(idle) && forall e :: e in idle ==> e < |t| && t[e].refCount == 0
  }

  predicate Grounded(p: Pool) { MapsOk(p.table, p.entries, p.orphans) && IdleFree(p.table, p.idle) }

  lemma GroundedIsWf(p: Pool)
    requires Grounded(p) && QueueOk(p.log, p.queue)
    ensures Wf(p)
  {
    forall i | 0 <= i < |p.queue| ensures p.queue[i] < |p.log| {
      assert p.queue[i] in p.queue;
    }
    forall i | 0 <= i < |p.idle| ensures p.idle[i] < |p.table| {
      assert p.idle[i] in p.idle;
    }
  }

  // --- from one pool to the next ---

  /** A record keeps its key, is condemned by drain only, and moves on towards disposed. */
  predicate Ages(r: Rec, u: Rec) {
    && u.key == r.key && u.condemned == r.condemned
    && (u.life.Live? ==> r.life.Live?) && (r.life.Disposed? ==> u.life.Disposed?)
  }

  /** From p to q keys only leave the maps, and nobody takes an entry that is not held, but for the keys
      ks; and a closed pool takes in nothing and nobody. */
  predicate Drifts(p: Pool, q: Pool, ks: set<Key>) {
    && q.closed == p.closed && |p.table| <= |q.table| && |p.log| <= |q.log|
    && (p.closed ==> |q.table| == |p.table| && |q.queue| <= |p.queue|)
    && (forall e :: 0 <= e < |p.table| ==> Ages(p.table[e], q.table[e]))
    && (forall e :: 0 <= e < |p.table| && p.table[e].refCount == 0 && p.table[e].key !in ks ==>
         q.table[e].refCount == 0)
    && (forall k :: k in q.entries ==> Stays(p, k, q.entries[k], ks))
    && (forall k :: k in q.orphans ==> k in p.orphans && q.orphans[k] == p.orphans[k])
  }

  predicate Stays(p: Pool, k: Key, e: nat, ks: set<Key>) {
    || (k in p.entries && p.entries[k] == e)
    || (k in ks && ((k in p.orphans && p.orphans[k] == e) || |p.table| <= e))
  }

  lemma DriftsTwice(p: Pool, q: Pool, r: Pool, ks: set<Key>)
    requires Drifts(p, q, ks) && Drifts(q, r, ks)
    ensures Drifts(p, r, ks)
  {
    forall e | 0 <= e < |p.table| ensures Ages(p.table[e], r.table[e]) {
      assert Ages(p.table[e], q.table[e]) && Ages(q.table[e], r.table[e]);
    }
    forall k | k in r.entries ensures Stays(p, k, r.entries[k], ks) {
      assert Stays(q, k, r.entries[k], ks);
      if k in q.entries {
        assert Stays(p, k, q.entries[k], ks);
      }
    }
  }

  lemma DriftsMore(p: Pool, q: Pool, ks: set<Key>, ls: set<Key>)
    requires Drifts(p, q, ks) && ks <= ls
    ensures Drifts(p, q, ls)
  {
    forall k | k in q.entries ensures Stays(p, k, q.entries[k], ls) {
      assert Stays(p, k, q.entries[k], ks);
    }
  }

  /** Only other fields change. */
  lemma DriftsNot(p: Pool, q: Pool)
    requires q.table == p.table && q.entries == p.entries && q.orphans == p.orphans && q.closed == p.closed
    requires |p.log| <= |q.log| && (p.closed ==> |q.queue| <= |p.queue|)
    ensures Drifts(p, q, {})
    ensures q.idle == p.idle && Grounded(p) ==> Grounded(q)
  {
  }

  lemma WakeDrifts(p: Pool)
    requires p.queue != [] ==> p.queue[0] < |p.log|
    ensures Drifts(p, WakeWaiter(p), {}) && (Grounded(p) ==> Grounded(WakeWaiter(p)))
  {
    if p.queue != [] {
      WithoutIn(p.queue[1..], p.queue[0]);
    }
    hide Grounded;
    DriftsNot(p, WakeWaiter(p));
    WakeFrame(p);
    GroundedFields(p, WakeWaiter(p));
  }

  lemma GroundedFields(p: Pool, q: Pool)
    requires q.table == p.table && q.entries == p.entries && q.orphans == p.orphans && q.idle == p.idle
    ensures Grounded(p) ==> Grounded(q)
  {
  }

  // --- eviction ---

  lemma EvictDrifts(p: Pool, v: nat)
    requires v < |p.table|
    ensures Drifts(p, Evict(p, v), {})
  {
    assert Evict(p, v).table == p.table[v := DisposeRec(p.table[v])];
  }

  lemma EvictGrounded(p: Pool, v: nat)
    requires Grounded(p) && v < |p.table| && p.table[v].refCount == 0
    ensures Grounded(Evict(p, v))
  {
    assert Evict(p, v).table == p.table[v := DisposeRec(p.table[v])];
    WithoutDistinct(p.idle, v);
  }

  lemma FreeIsIdle(p: Pool, nodes: seq<nat>)
    requires Wf(p) && forall i :: 0 <= i < |nodes| ==> nodes[i] < |p.table|
    ensures var v := FirstFree(p, nodes); v.Some? ==> v.value in nodes && !IsPending(p, p.table[v.value].key)
  {
  }

  lemma SlotDrifts(p: Pool, cfg: Config)
    requires Wf(p) && Grounded(p)
    ensures Drifts(p, SlotStep(p, cfg).0, {}) && Grounded(SlotStep(p, cfg).0)
  {
    var q := SlotStep(p, cfg).0;
    var v := FirstFree(p, p.idle);
    if cfg.max <= 0 || p.closed || |p.entries| + p.reserved < cfg.max {
      hide Drifts, Grounded, Wf;
      DriftsNot(p, q);
    } else if v.Some? {
      var z := Evict(p, v.value);
      EvictDrifts(p, v.value);
      EvictGrounded(p, v.value);
      hide Drifts, Grounded, Evict, Wf;
      DriftsNot(z, q);
      DriftsTwice(p, z, q, {});
    } else {
      hide Drifts, Grounded, Wf, FirstFree;
      DriftsNot(p, q);
    }
  }

  // --- the end of a use ---

  lemma CheckoutGrounded(p: Pool, e: nat)
    requires Grounded(p) && e < |p.table|
    ensures Grounded(Checkout(p, e))
  {
    CheckoutIs(p, e);
    hide Checkout;
  }

  lemma CheckoutIs(p: Pool, e: nat)
    requires e < |p.table| && Distinct(p.idle) && (p.table[e].refCount > 0 ==> e !in p.idle)
    ensures var q := Checkout(p, e);
      && q.table == p.table[e := p.table[e].(refCount := p.table[e].refCount + 1)]
      && q.entries == p.entries && q.orphans == p.orphans
      && Distinct(q.idle) && e !in q.idle && forall x :: x in q.idle ==> x in p.idle
  {
    WithoutDistinct(p.idle, e);
    hide Without;
  }

  lemma RemoveDrifts(p: Pool, e: nat)
    requires e < |p.table|
    ensures |RemoveEntry(p, e).table| == |p.table| && Drifts(p, Dispose(RemoveEntry(p, e), e), {})
  {
    hide Without;
  }

  /** Entry e is unheld and no map leads to it under another key. */
  lemma RemoveGrounded(p: Pool, e: nat)
    requires KeysOk(p.table, p.entries, p.orphans) && e < |p.table| && IdleFree(p.table, p.idle)
    requires forall k :: k in p.entries && p.entries[k] != e ==> p.table[p.entries[k]].life.Live?
    requires forall k :: k in p.orphans && p.orphans[k] != e ==>
      p.table[p.orphans[k]].life.Live? && p.table[p.orphans[k]].condemned
    requires forall x :: 0 <= x < |p.table| && x != e && p.table[x].life.Live? && p.table[x].condemned ==>
      p.table[x].refCount > 0
    ensures |RemoveEntry(p, e).table| == |p.table| && Grounded(Dispose(RemoveEntry(p, e), e))
    ensures var q := Dispose(RemoveEntry(p, e), e); var k := p.table[e].key;
      (k in p.entries && p.entries[k] == e ==> k !in q.entries) && (k in q.entries ==> k in p.entries)
      && (k in q.orphans ==> k in p.orphans) && !q.table[e].life.Live? && q.table[e].key == k
  {
    WithoutDistinct(p.idle, e);
    hide Without;
    assert Dispose(RemoveEntry(p, e), e).table == p.table[e := DisposeRec(p.table[e])];
  }

  lemma AppendDrifts(p: Pool, e: nat)
    requires e < |p.table|
    ensures Drifts(p, IdleAppend(p, e), {})
  {
  }

  lemma AppendGrounded(p: Pool, e: nat)
    requires Grounded(p) && e < |p.table| && p.table[e].refCount == 0
    ensures Grounded(IdleAppend(p, e))
  {
  }

  lemma DropDrifts(p: Pool, e: nat, now: int)
    requires e < |p.table| && p.table[e].refCount > 0
    ensures Drifts(p, DropLast(p, e, now), {}) && Drifts(p, DropShared(p, e), {})
    ensures |DropLast(p, e, now).table| == |p.table|
    ensures Wf(p) ==> Wf(DropLast(p, e, now))
  {
  }

  lemma ReleaseDrifts(p: Pool, e: nat, now: int)
    requires Wf(p) && e < |p.table|
    ensures Drifts(p, ReleaseEntry(p, e, now), {})
  {
    DriftsNot(p, p);
    if !p.table[e].life.Disposed? && p.table[e].refCount > 0 {
      DropDrifts(p, e, now);
      if p.table[e].refCount == 1 {
        var z := DropLast(p, e, now);
        hide Drifts, DropLast, DropShared, IdleAppend, WakeWaiter, RemoveEntry, Dispose;
        if p.table[e].condemned || (p.table[e].key in p.orphans && p.orphans[p.table[e].key] == e) {
          RemoveDrifts(z, e);
          DriftsTwice(p, z, Dispose(RemoveEntry(z, e), e), {});
        } else {
          var y := IdleAppend(z, e);
          AppendDrifts(z, e);
          AppendWaiters(z, e);
          WakeDrifts(y);
          DriftsTwice(p, z, y, {});
          DriftsTwice(p, y, WakeWaiter(y), {});
        }
      }
    }
  }

  lemma AppendWaiters(p: Pool, e: nat)
    requires e < |p.table|
    ensures IdleAppend(p, e).queue == p.queue && IdleAppend(p, e).log == p.log
    ensures Wf(p) ==> Wf(IdleAppend(p, e))
  {
  }

  lemma ReleaseGrounded(p: Pool, e: nat, now: int)
    requires Wf(p) && Grounded(p) && e < |p.table|
    ensures Grounded(ReleaseEntry(p, e, now))
  {
    if !p.table[e].life.Disposed? && p.table[e].refCount > 0 {
      if p.table[e].refCount > 1 {
        SharedGrounded(p, e);
      } else {
        var z := DropLast(p, e, now);
        assert z.table == p.table[e := z.table[e]];
        if p.table[e].condemned || (p.table[e].key in p.orphans && p.orphans[p.table[e].key] == e) {
          hide RemoveEntry, Dispose;
          RemoveGrounded(z, e);
        } else {
          LastGrounded(p, e, now);
          AppendGrounded(z, e);
          AppendWaiters(z, e);
          hide Grounded, IdleAppend, WakeWaiter;
          WakeDrifts(IdleAppend(z, e));
        }
      }
    }
  }

  lemma SharedGrounded(p: Pool, e: nat)
    requires Grounded(p) && e < |p.table| && p.table[e].refCount > 1
    ensures Grounded(DropShared(p, e))
  {
  }

  lemma LastGrounded(p: Pool, e: nat, now: int)
    requires Grounded(p) && e < |p.table| && !p.table[e].condemned
    ensures Grounded(DropLast(p, e, now))
  {
  }

  // --- creation, resurrection, the end of a disposal ---

  lemma InsertGrounded(p: Pool, k: Key, q: Pool, r: Rec)
    requires Grounded(p) && k !in p.entries && k !in p.orphans
    requires r.key == k && r.refCount == 0 && !r.condemned && r.life.Live?
    requires q.table == p.table + [r] && q.entries == p.entries[k := |p.table|] && q.orphans == p.orphans
    requires q.idle == p.idle + [|p.table|]
    ensures Grounded(q)
  {
    assert |p.table| !in p.idle;
    assert forall x :: x in q.idle <==> x in p.idle || x == |p.table|;
  }

  lemma InsertDrifts(p: Pool, k: Key, q: Pool, r: Rec)
    requires q.table == p.table + [r] && q.entries == p.entries[k := |p.table|] && q.orphans == p.orphans
    requires q.log == p.log && !p.closed && !q.closed
    ensures Drifts(p, q, {k})
  {
  }

  lemma ReviveGrounded(p: Pool, k: Key)
    requires Grounded(p) && k in p.orphans
    ensures Grounded(Resurrected(p, k)) && Drifts(p, Resurrected(p, k), {k})
  {
  }

  lemma EndGrounded(p: Pool, e: nat)
    requires Grounded(p) && e < |p.table| && !p.table[e].life.Live?
    ensures Grounded(FinishDispose(p, e)) && Drifts(p, FinishDispose(p, e), {})
  {
  }

  // --- the sweep ---

  /** A live entry that leaves in the walk was one of its nodes, and wanted by nobody. */
  predicate Leaving(p: Pool, q: Pool, nodes: seq<nat>) {
    && |q.table| == |p.table|
    && forall e :: 0 <= e < |p.table| && p.table[e].life.Live? && !q.table[e].life.Live? ==>
         e in nodes && !IsPending(p, p.table[e].key)
  }

  lemma {:induction false} WalkDrifts(p: Pool, nodes: seq<nat>, cutoff: int)
    requires Wf(p) && Grounded(p)
    requires forall i :: 0 <= i < |nodes| ==> nodes[i] < |p.table| && p.table[nodes[i]].refCount == 0
    ensures var q := SweepWalk(p, nodes, cutoff); Drifts(p, q, {}) && Grounded(q) && Leaving(p, q, nodes)
    decreases |nodes|
  {
    hide Wf, Grounded, Drifts, Evict, WakeWaiter, Leaving;
    if nodes == [] || p.table[nodes[0]].lastReleasedAt > cutoff {
      DriftsNot(p, p);
      LeavesNone(p, nodes);
    } else if IsPending(p, p.table[nodes[0]].key) {
      WalkDrifts(p, nodes[1..], cutoff);
      LeavesLater(p, SweepWalk(p, nodes[1..], cutoff), nodes);
    } else {
      var v := nodes[0];
      var z := Evict(p, v);
      WfEvictWake(p, v);
      WfQueue(z);
      var q := WakeWaiter(z);
      EvictDrifts(p, v);
      EvictGrounded(p, v);
      WakeDrifts(z);
      DriftsTwice(p, z, q, {});
      EvictWakeTable(p, v);
      WalkDrifts(q, nodes[1..], cutoff);
      DriftsTwice(p, q, SweepWalk(q, nodes[1..], cutoff), {});
      LeavesFirst(p, q, SweepWalk(q, nodes[1..], cutoff), nodes);
    }
  }

  lemma WfQueue(p: Pool)
    requires Wf(p)
    ensures p.queue != [] ==> p.queue[0] < |p.log|
  {
  }

  lemma EvictWakeTable(p: Pool, v: nat)
    requires Wf(p) && v < |p.table|
    ensures Evict(p, v).queue != [] ==> Evict(p, v).queue[0] < |Evict(p, v).log|
    ensures var q := WakeWaiter(Evict(p, v)); q.table == p.table[v := DisposeRec(p.table[v])] && q.pending == p.pending
  {
    WfEvictWake(p, v);
    WakeFrame(Evict(p, v));
  }

  lemma LeavesNone(p: Pool, nodes: seq<nat>)
    ensures Leaving(p, p, nodes)
  {
  }

  lemma LeavesLater(p: Pool, q: Pool, nodes: seq<nat>)
    requires nodes != [] && Leaving(p, q, nodes[1..])
    ensures Leaving(p, q, nodes)
  {
  }

  lemma LeavesFirst(p: Pool, q: Pool, r: Pool, nodes: seq<nat>)
    requires nodes != [] && nodes[0] < |p.table| && q.table == p.table[nodes[0] := DisposeRec(p.table[nodes[0]])]
    requires !IsPending(p, p.table[nodes[0]].key) && q.pending == p.pending && Leaving(q, r, nodes[1..])
    ensures Leaving(p, r, nodes)
  {
    forall e | 0 <= e < |p.table| && p.table[e].life.Live? && !r.table[e].life.Live?
      ensures e in nodes && !IsPending(p, p.table[e].key)
    {
      if e != nodes[0] {
        assert e in nodes[1..];
      }
    }
  }

  lemma SweepDrifts(p: Pool, cfg: Config, now: int)
    requires Wf(p) && Grounded(p)
    ensures var q := Sweep(p, cfg, now); Drifts(p, q, {}) && Grounded(q) && Leaving(p, q, p.idle)
  {
    IdleUnheld(p);
    hide Wf, Grounded, Drifts, Leaving, SweepWalk;
    if cfg.idleTtlMs == 0 {
      DriftsNot(p, p);
      LeavesNone(p, p.idle);
    } else {
      WalkDrifts(p, p.idle, now - cfg.idleTtlMs);
    }
  }

  lemma IdleUnheld(p: Pool)
    requires Grounded(p)
    ensures forall i :: 0 <= i < |p.idle| ==> p.idle[i] < |p.table| && p.table[p.idle[i]].refCount == 0
  {
    forall i | 0 <= i < |p.idle| ensures p.idle[i] < |p.table| && p.table[p.idle[i]].refCount == 0 {
      assert p.idle[i] in p.idle;
    }
  }

  // --- drain ---

  /** What drain leaves of a record. */
  function Emptied(p: Pool, e: nat): Rec
    requires e < |p.table|
  {
    var r := p.table[e];
    if IsLive(p, e) && r.refCount == 0 then DisposeRec(r)
    else if IsLive(p, e) || IsOrphan(p, e) then r.(condemned := true)
    else r
  }

  /** The second loop meets what the first has made an orphan, and the old orphans. */
  lemma NowOrphans(p: Pool, e: nat)
    requires Wf(p) && KeysOk(p.table, p.entries, p.orphans) && e < |p.table|
    ensures var k := p.table[e].key; var m := p.orphans + Held(p, p.entries.Keys);
      k in m && m[k] == e <==> (IsLive(p, e) && p.table[e].refCount > 0) || IsOrphan(p, e)
  {
    hide Wf;
  }

  lemma EmptiedAt(p: Pool, e: nat)
    requires Wf(p) && KeysOk(p.table, p.entries, p.orphans) && e < |p.table|
    ensures |CondemnOrphans(DrainEntries(p, p.entries.Keys)).table| == |p.table|
    ensures CondemnOrphans(DrainEntries(p, p.entries.Keys)).table[e] == Emptied(p, e)
  {
    hide DrainEntries, CondemnOrphans, Held, Wf, KeysOk, IsLive, IsOrphan;
    var z := DrainEntries(p, p.entries.Keys);
    FirstLoopAt(p, e);
    SecondLoopAt(z, e);
    OrphanNow(p, z, e);
    Apart(p, e);
  }

  lemma SecondLoopAt(z: Pool, e: nat)
    requires e < |z.table|
    ensures |CondemnOrphans(z).table| == |z.table|
    ensures CondemnOrphans(z).table[e] == if IsOrphan(z, e) then z.table[e].(condemned := true) else z.table[e]
  {
  }

  lemma OrphanNow(p: Pool, z: Pool, e: nat)
    requires Wf(p) && KeysOk(p.table, p.entries, p.orphans) && e < |p.table| == |z.table|
    requires z.orphans == p.orphans + Held(p, p.entries.Keys) && z.table[e].key == p.table[e].key
    ensures IsOrphan(z, e) <==> (IsLive(p, e) && p.table[e].refCount > 0) || IsOrphan(p, e)
  {
    NowOrphans(p, e);
    hide Held, Wf, KeysOk;
  }

  lemma Apart(p: Pool, e: nat)
    requires KeysOk(p.table, p.entries, p.orphans)
    ensures IsLive(p, e) ==> !IsOrphan(p, e)
  {
  }

  lemma FirstLoopAt(p: Pool, e: nat)
    requires Wf(p) && e < |p.table|
    ensures var z := DrainEntries(p, p.entries.Keys);
      && |z.table| == |p.table| && z.orphans == p.orphans + Held(p, p.entries.Keys)
      && z.table[e] == if !IsLive(p, e) then p.table[e]
                       else if p.table[e].refCount == 0 then DisposeRec(p.table[e])
                       else p.table[e].(condemned := true)
  {
    hide Outside, Held, Wf;
  }

  lemma DrainIs(p: Pool)
    requires Wf(p) && KeysOk(p.table, p.entries, p.orphans)
    ensures IsDrained(p, Drain(p))
  {
    hide Wf, KeysOk, Drain, CloseWaiters, IsDrained;
    var d := Shut(p);
    DrainLoops(d);
    DrainUnfolds(p, d);
    DrainedFrom(p, d, Drain(p));
  }

  lemma Shut(p: Pool) returns (d: Pool)
    requires Wf(p)
    ensures Wf(p.(closed := true)) && d == CloseWaiters(p.(closed := true)) && Wf(d)
    ensures d == p.(closed := true, log := d.log, queue := []) && |d.log| == |p.log|
  {
    WfClose(p.(closed := true));
    d := CloseWaiters(p.(closed := true));
  }

  lemma DrainUnfolds(p: Pool, d: Pool)
    requires Wf(p) && Wf(p.(closed := true)) && d == CloseWaiters(p.(closed := true)) && Wf(d)
    requires d == p.(closed := true, log := d.log, queue := [])
    ensures Drain(p) == CondemnOrphans(DrainEntries(d, d.entries.Keys)).(idle := [])
  {
    hide CloseWaiters, DrainEntries, CondemnOrphans;
  }

  /** Drain but for the waiters' outcomes. */
  predicate IsDrained(p: Pool, q: Pool)
    requires Wf(p)
  {
    && q.closed && q.entries == map[] && q.idle == [] && q.queue == [] && |q.log| == |p.log|
    && q.orphans == p.orphans + Held(p, p.entries.Keys)
    && |q.table| == |p.table| && forall e :: 0 <= e < |p.table| ==> q.table[e] == Emptied(p, e)
  }

  lemma DrainLoops(p: Pool)
    requires Wf(p) && KeysOk(p.table, p.entries, p.orphans) && p.closed && p.queue == []
    ensures IsDrained(p, CondemnOrphans(DrainEntries(p, p.entries.Keys)).(idle := []))
  {
    var q := CondemnOrphans(DrainEntries(p, p.entries.Keys)).(idle := []);
    assert p.entries - p.entries.Keys == map[];
    assert q.orphans == p.orphans + Held(p, p.entries.Keys) && |q.table| == |p.table|;
    forall e | 0 <= e < |p.table| ensures q.table[e] == Emptied(p, e) {
      EmptiedAt(p, e);
    }
  }

  lemma DrainedFrom(p: Pool, d: Pool, q: Pool)
    requires Wf(p) && Wf(d) && d == p.(closed := true, log := d.log, queue := [])
    requires |d.log| == |p.log| && IsDrained(d, q)
    ensures IsDrained(p, q)
  {
    hide Wf;
    assert Held(p, p.entries.Keys) == Held(d, d.entries.Keys);
    assert forall e :: 0 <= e < |p.table| ==> Emptied(p, e) == Emptied(d, e);
  }

  lemma DrainGrounded(p: Pool, q: Pool)
    requires Wf(p) && Grounded(p) && IsDrained(p, q)
    ensures Grounded(q)
  {
    forall e | 0 <= e < |q.table| && q.table[e].life.Live? && q.table[e].condemned ensures q.table[e].refCount > 0 {
      assert q.table[e] == Emptied(p, e);
    }
    forall k | k in q.orphans
      ensures q.orphans[k] < |q.table| && q.table[q.orphans[k]].key == k
      ensures q.table[q.orphans[k]].life.Live? && q.table[q.orphans[k]].condemned
    {
      DrainedOrphan(p, k);
      assert q.table[q.orphans[k]] == Emptied(p, q.orphans[k]);
    }
  }

  lemma DrainedOrphan(p: Pool, k: Key)
    requires Wf(p) && Grounded(p) && k in p.orphans + Held(p, p.entries.Keys)
    ensures var e := (p.orphans + Held(p, p.entries.Keys))[k];
      && e < |p.table| && p.table[e].key == k && p.table[e].life.Live?
      && ((IsLive(p, e) && p.table[e].refCount > 0) || IsOrphan(p, e))
  {
  }
}
