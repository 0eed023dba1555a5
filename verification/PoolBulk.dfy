/** The segments that touch many entries at once: the TTL sweep, closing, and drain. */
module PoolBulk {
  import opened Counting
  import opened PoolModel
  import opened PoolInvariant

  // --- closing ---

  /** Closing settles every parked waiter as closed, and no other waiter. */
  lemma {:induction false} CloseSettlesAll(p: Pool)
    requires QueueOk(p.log, p.queue) && Wf(p)
    ensures CloseWaiters(p) == p.(log := CloseWaiters(p).log, queue := [])
    ensures |CloseWaiters(p).log| == |p.log|
    ensures forall w :: 0 <= w < |p.log| ==>
      CloseWaiters(p).log[w] == if p.log[w].Waiting? then ClosedOut else p.log[w]
    decreases |p.queue|
  {
    if p.queue != [] {
      ShiftIsSettle(p, ClosedOut);
      var w := p.queue[0];
      assert w in p.queue;
      QueueSettle(p.log, p.queue, w, ClosedOut);
      WithoutIn(p.queue, w);
      WithoutIn(p.queue[1..], w);
      var q := ShiftWaiter(p, ClosedOut);
      assert q == p.(log := p.log[w := ClosedOut], queue := Without(p.queue, w));
      CloseSettlesAll(q);
    }
  }

  // --- drain ---

  /** What drain leaves of a record: idle entries are being disposed, held ones condemned. */
  function Drained(p: Pool, e: nat): Rec
    requires e < |p.table|
  {
    var r := p.table[e];
    if !r.life.Live? then r
    else if r.refCount == 0 then DisposeRec(r) else r.(condemned := true)
  }

  predicate AllClosed(before: seq<WaiterState>, after: seq<WaiterState>) {
    && |after| == |before|
    && forall w :: 0 <= w < |before| ==> after[w] == if before[w].Waiting? then ClosedOut else before[w]
  }

  function DrainedTable(p: Pool): seq<Rec> {
    seq(|p.table|, e requires 0 <= e < |p.table| => Drained(p, e))
  }

  /** Drain in closed form, but for the waiters: nothing is live or idle, the held entries are
      orphans, and the counter of evictions grew by as many. */
  function DrainedPool(p: Pool, log: seq<WaiterState>): Pool
    requires Wf(p)
  {
    var held := Held(p, p.entries.Keys);
    p.(table := DrainedTable(p), entries := map[], orphans := p.orphans + held, idle := [],
       closed := true, log := log, queue := [],
       counters := p.counters.(evicted := p.counters.evicted + |held|))
  }

  lemma {:induction false} OutsideAll(p: Pool, q: seq<nat>)
    requires forall i :: 0 <= i < |q| ==> q[i] < |p.table| && IsLive(p, q[i])
    ensures Outside(p, q, p.entries.Keys) == []
  {
    if q != [] {
      OutsideAll(p, q[1..]);
    }
  }

  lemma DrainOneLive(p: Pool, e: nat)
    requires Wf(p) && IsLive(p, e) && RecOk(p.table, p.entries, p.orphans, e)
    ensures CondemnOrphans(DrainEntries(p, p.entries.Keys)).table[e] == Drained(p, e)
  {
    hide Outside;
    var z := DrainEntries(p, p.entries.Keys);
    var k := p.table[e].key;
    assert z.table[e].key == k;
    assert k in p.entries.Keys;
    if p.table[e].refCount > 0 {
      assert k in Held(p, p.entries.Keys);
      assert z.orphans[k] == e;
    } else {
      assert k !in Held(p, p.entries.Keys);
    }
  }

  lemma DrainOneOther(p: Pool, e: nat)
    requires KeysOk(p.table, p.entries, p.orphans) && Wf(p) && e < |p.table| && !IsLive(p, e)
    requires RecOk(p.table, p.entries, p.orphans, e)
    ensures CondemnOrphans(DrainEntries(p, p.entries.Keys)).table[e] == Drained(p, e)
  {
    hide Outside;
    var z := DrainEntries(p, p.entries.Keys);
    var k := p.table[e].key;
    assert z.table[e] == p.table[e];
    if k in p.entries {
      assert p.entries[k] != e;
      assert k !in p.orphans;
      assert k in z.orphans ==> z.orphans[k] == p.entries[k];
    }
  }

  lemma DrainTable(p: Pool)
    requires KeysOk(p.table, p.entries, p.orphans) && Wf(p) && LifeOk(p.table, p.entries, p.orphans)
    ensures CondemnOrphans(DrainEntries(p, p.entries.Keys)).table == DrainedTable(p)
  {
    hide KeysOk, RecOk, Held, Outside;
    forall e | 0 <= e < |p.table|
      ensures CondemnOrphans(DrainEntries(p, p.entries.Keys)).table[e] == Drained(p, e)
    {
      if IsLive(p, e) {
        DrainOneLive(p, e);
      } else {
        DrainOneOther(p, e);
      }
    }
  }

  /** drain's last assignments reset an idle list that its first loop has already emptied. */
  lemma DrainResetIsNoOp(p: Pool)
    requires Wf(p) && IdleOk(p.table, p.entries, p.idle)
    ensures DrainEntries(p, p.entries.Keys).idle == []
  {
    forall i | 0 <= i < |p.idle| ensures IsLive(p, p.idle[i]) {
      assert p.idle[i] in p.idle;
    }
    OutsideAll(p, p.idle);
  }

  lemma DrainForm(p: Pool, now: int)
    requires PoolInv(p, now)
    ensures Wf(p) && Drain(p) == DrainedPool(p, Drain(p).log) && AllClosed(p.log, Drain(p).log)
  {
    InvIsWf(p, now);
    var c := p.(closed := true);
    CloseSettlesAll(c);
    DrainFormOf(p, CloseWaiters(c));
  }

  lemma DrainFormOf(p: Pool, d: Pool)
    requires KeysOk(p.table, p.entries, p.orphans) && LifeOk(p.table, p.entries, p.orphans)
    requires Wf(p) && Wf(p.(closed := true))
    requires d == CloseWaiters(p.(closed := true)) && d == p.(closed := true, log := d.log, queue := [])
    ensures Drain(p) == DrainedPool(p, Drain(p).log) && Drain(p).log == d.log
  {
    hide KeysOk, LifeOk, CloseWaiters, DrainEntries, CondemnOrphans, Drain, DrainedPool;
    assert Wf(d);
    assert Held(d, d.entries.Keys) == Held(p, p.entries.Keys);
    DrainTable(d);
    assert DrainedTable(d) == DrainedTable(p);
    DrainCombine(p, d);
  }

  lemma DrainCombine(p: Pool, d: Pool)
    requires Wf(p) && Wf(p.(closed := true)) && Wf(d)
    requires d == CloseWaiters(p.(closed := true)) && d == p.(closed := true, log := d.log, queue := [])
    requires CondemnOrphans(DrainEntries(d, d.entries.Keys)).table == DrainedTable(p)
    requires Held(d, d.entries.Keys) == Held(p, p.entries.Keys)
    ensures Drain(p) == DrainedPool(p, Drain(p).log) && Drain(p).log == d.log
  {
    hide Wf, CloseWaiters, DrainedTable, Held, Outside;
    WfDrainEntries(d, d.entries.Keys);
    assert d.entries - d.entries.Keys == map[];
  }

  lemma DrainLife(p: Pool)
    requires KeysOk(p.table, p.entries, p.orphans) && LifeOk(p.table, p.entries, p.orphans) && Wf(p)
    ensures KeysOk(DrainedTable(p), map[], p.orphans + Held(p, p.entries.Keys))
    ensures LifeOk(DrainedTable(p), map[], p.orphans + Held(p, p.entries.Keys))
  {
    var t, orphans := DrainedTable(p), p.orphans + Held(p, p.entries.Keys);
    forall e | 0 <= e < |t| ensures RecOk(t, map[], orphans, e) {
      assert RecOk(p.table, p.entries, p.orphans, e);
      assert t[e] == Drained(p, e);
    }
  }

  lemma DrainKeeps(p: Pool, now: int)
    requires PoolInv(p, now)
    ensures Wf(p) && PoolInv(Drain(p), now)
  {
    DrainForm(p, now);
    DrainLife(p);
    var q := DrainedPool(p, Drain(p).log);
    CountAgree(q.table, p.table, HasLife(Disposed), HasLife(Disposed));
    assert ClosedOk(q.table, q.closed, q.queue) by {
      forall e | 0 <= e < |q.table| && q.table[e].life.Live? ensures q.table[e].condemned {
        assert q.table[e] == Drained(p, e);
      }
    }
  }

  // --- the TTL sweep ---

  /** Idle since the cutoff, and wanted by no acquire in flight. */
  predicate Expired(p: Pool, cutoff: int, e: nat)
    requires e < |p.table|
  {
    p.table[e].lastReleasedAt <= cutoff && !IsPending(p, p.table[e].key)
  }

  /** The list without its expired members, by a full scan that keeps the order. */
  function Survivors(p: Pool, q: seq<nat>, cutoff: int): seq<nat>
    requires forall i :: 0 <= i < |q| ==> q[i] < |p.table|
  {
    if q == [] then []
    else (if Expired(p, cutoff, q[0]) then [] else [q[0]]) + Survivors(p, q[1..], cutoff)
  }

  function Dropped(p: Pool, q: seq<nat>, cutoff: int): nat
    requires forall i :: 0 <= i < |q| ==> q[i] < |p.table|
  {
    SurvivorsShorter(p, q, cutoff);
    |q| - |Survivors(p, q, cutoff)|
  }

  function Least(a: nat, b: nat): nat { if a < b then a else b }

  /** Waiters are woken, and nothing else happens to them. */
  predicate OnlyWakes(before: seq<WaiterState>, after: seq<WaiterState>) {
    && |after| == |before|
    && forall w :: 0 <= w < |before| ==> after[w] == before[w] || (before[w].Waiting? && after[w].WokenUp?)
  }

  /** What the walk over `nodes`, the rest of the list, owes: the expired nodes, and only those,
      leave the live map and are being disposed, and one waiter is woken for each. */
  predicate SweptTo(p: Pool, pre: seq<nat>, nodes: seq<nat>, cutoff: int, q: Pool)
    requires Wf(p) && forall i :: 0 <= i < |nodes| ==> nodes[i] < |p.table|
  {
    && q.idle == pre + Survivors(p, nodes, cutoff)
    && |q.table| == |p.table|
    && (forall e :: 0 <= e < |p.table| ==>
         q.table[e] == if e in nodes && Expired(p, cutoff, e) then DisposeRec(p.table[e]) else p.table[e])
    && q.entries.Keys == (set k | k in p.entries && !(p.entries[k] in nodes && Expired(p, cutoff, p.entries[k])))
    && (forall k :: k in q.entries ==> q.entries[k] == p.entries[k])
    && q.counters == p.counters.(evicted := p.counters.evicted + Dropped(p, nodes, cutoff))
    && |q.queue| == |p.queue| - Least(|p.queue|, Dropped(p, nodes, cutoff))
    && q.queue == p.queue[|p.queue| - |q.queue|..]
    && OnlyWakes(p.log, q.log)
    && q == p.(idle := q.idle, table := q.table, entries := q.entries, counters := q.counters,
               queue := q.queue, log := q.log)
  }

  lemma SurvivorsAgree(p: Pool, q: Pool, nodes: seq<nat>, cutoff: int)
    requires |q.table| == |p.table| && q.pending == p.pending
    requires forall i :: 0 <= i < |nodes| ==> nodes[i] < |p.table| && q.table[nodes[i]] == p.table[nodes[i]]
    ensures Survivors(q, nodes, cutoff) == Survivors(p, nodes, cutoff)
  {
    if nodes != [] {
      SurvivorsAgree(p, q, nodes[1..], cutoff);
    }
  }

  lemma {:induction false} NoneExpired(p: Pool, nodes: seq<nat>, cutoff: int)
    requires forall i :: 0 <= i < |nodes| ==> nodes[i] < |p.table| && p.table[nodes[i]].lastReleasedAt > cutoff
    ensures Survivors(p, nodes, cutoff) == nodes
  {
    if nodes != [] {
      NoneExpired(p, nodes[1..], cutoff);
    }
  }

  lemma SurvivorsShorter(p: Pool, q: seq<nat>, cutoff: int)
    requires forall i :: 0 <= i < |q| ==> q[i] < |p.table|
    ensures |Survivors(p, q, cutoff)| <= |q|
  {
  }

  /** One expired node: what its eviction and the wake-up that follows change. */
  lemma SweepOne(p: Pool, pre: seq<nat>, nodes: seq<nat>, now: int)
    requires PoolInv(p, now) && p.idle == pre + nodes && nodes != []
    ensures Wf(p) && nodes[0] < |p.table|
    ensures var q := WakeWaiter(Evict(p, nodes[0]));
      && PoolInv(q, now) && q.idle == pre + nodes[1..]
      && TookFirst(p, q, nodes)
  {
    var n := nodes[0];
    assert p.idle[|pre|] == n;
    InvIsWf(p, now);
    IndexDistinct(p.idle, |pre|);
    EvictKeeps(p, n, now);
    var z := Evict(p, n);
    assert z.idle == pre + nodes[1..];
    WakeKeeps(z, now);
    SweepWoken(p, z);
  }

  lemma SweepWoken(p: Pool, z: Pool)
    requires QueueOk(p.log, p.queue) && z.queue == p.queue && z.log == p.log
    requires z.queue != [] ==> z.queue[0] < |z.log|
    ensures WakeWaiter(z) == z.(log := WakeWaiter(z).log, queue := if p.queue == [] then [] else p.queue[1..])
    ensures OnlyWakes(p.log, WakeWaiter(z).log)
  {
    if p.queue != [] {
      ShiftIsSettle(z, WokenUp);
      assert Without(p.queue, p.queue[0]) == p.queue[1..];
    }
  }

  /** The walk that stops at the first node newer than the cutoff does what a full scan of the list
      would do, because the list runs in release order. */
  lemma {:induction false} SweepIsFilter(p: Pool, pre: seq<nat>, nodes: seq<nat>, cutoff: int, now: int)
    requires PoolInv(p, now) && p.idle == pre + nodes
    ensures Wf(p) && forall i :: 0 <= i < |nodes| ==> nodes[i] < |p.table|
    ensures SweptTo(p, pre, nodes, cutoff, SweepWalk(p, nodes, cutoff))
    ensures PoolInv(SweepWalk(p, nodes, cutoff), now)
    decreases |nodes|
  {
    NodesListed(p, pre, nodes, now);
    hide PoolInv;
    if nodes == [] {
      SweepNone(p, pre, nodes, cutoff);
    } else if p.table[nodes[0]].lastReleasedAt > cutoff {
      NoneExpired(p, nodes, cutoff);
      SweepNone(p, pre, nodes, cutoff);
    } else if IsPending(p, p.table[nodes[0]].key) {
      SweepIsFilter(p, pre + [nodes[0]], nodes[1..], cutoff, now);
      SweepSkip(p, pre, nodes, cutoff, SweepWalk(p, nodes[1..], cutoff));
    } else {
      SweepOne(p, pre, nodes, now);
      var q := WakeWaiter(Evict(p, nodes[0]));
      SweepIsFilter(q, pre, nodes[1..], cutoff, now);
      SweepTake(p, q, pre, nodes, cutoff, SweepWalk(q, nodes[1..], cutoff));
    }
  }

  lemma NodesListed(p: Pool, pre: seq<nat>, nodes: seq<nat>, now: int)
    requires PoolInv(p, now) && p.idle == pre + nodes
    ensures Wf(p)
    ensures GoodNodes(p, nodes)
    ensures nodes != [] ==> forall i :: 0 <= i < |nodes| ==>
      p.table[nodes[0]].lastReleasedAt <= p.table[nodes[i]].lastReleasedAt
    ensures nodes != [] ==> pre + [nodes[0]] + nodes[1..] == p.idle
  {
    InvIsWf(p, now);
    forall i | 0 <= i < |nodes| ensures nodes[i] < |p.table| && IsLive(p, nodes[i]) {
      assert p.idle[|pre| + i] in p.idle;
    }
    forall i, j | 0 <= i < j < |nodes| ensures nodes[i] != nodes[j] {
      assert p.idle[|pre| + i] != p.idle[|pre| + j];
    }
    forall i | 0 < i < |nodes| ensures p.table[nodes[0]].lastReleasedAt <= p.table[nodes[i]].lastReleasedAt {
      assert Older(p.table)(p.idle[|pre|], p.idle[|pre| + i]);
    }
  }

  lemma SweepNone(p: Pool, pre: seq<nat>, nodes: seq<nat>, cutoff: int)
    requires Wf(p) && p.idle == pre + nodes
    requires forall i :: 0 <= i < |nodes| ==> nodes[i] < |p.table|
    requires forall i :: 0 <= i < |nodes| ==> p.table[nodes[i]].lastReleasedAt > cutoff
    ensures SweptTo(p, pre, nodes, cutoff, p)
  {
    NoneExpired(p, nodes, cutoff);
  }

  lemma SweepSkip(p: Pool, pre: seq<nat>, nodes: seq<nat>, cutoff: int, q: Pool)
    requires Wf(p) && nodes != [] && forall i :: 0 <= i < |nodes| ==> nodes[i] < |p.table|
    requires !Expired(p, cutoff, nodes[0])
    requires SweptTo(p, pre + [nodes[0]], nodes[1..], cutoff, q)
    ensures SweptTo(p, pre, nodes, cutoff, q)
  {
    assert pre + [nodes[0]] + Survivors(p, nodes[1..], cutoff) == pre + Survivors(p, nodes, cutoff);
    forall e | e in nodes && e !in nodes[1..] ensures e == nodes[0] {}
  }

  /** z is p after its first node has been evicted. */
  predicate TookFirst(p: Pool, z: Pool, nodes: seq<nat>)
    requires nodes != [] && nodes[0] < |p.table|
  {
    && z.table == p.table[nodes[0] := DisposeRec(p.table[nodes[0]])]
    && z.entries == p.entries - {p.table[nodes[0]].key}
    && z.counters == p.counters.(evicted := p.counters.evicted + 1)
    && z.queue == (if p.queue == [] then [] else p.queue[1..])
    && OnlyWakes(p.log, z.log)
    && z == p.(idle := z.idle, table := z.table, entries := z.entries, counters := z.counters,
               queue := z.queue, log := z.log)
  }

  predicate GoodNodes(p: Pool, nodes: seq<nat>) {
    && (forall i :: 0 <= i < |nodes| ==> nodes[i] < |p.table| && IsLive(p, nodes[i]))
    && (forall i, j :: 0 <= i < j < |nodes| ==> nodes[i] != nodes[j])
    && KeysOk(p.table, p.entries, p.orphans)
  }

  lemma SweepTake(p: Pool, z: Pool, pre: seq<nat>, nodes: seq<nat>, cutoff: int, q: Pool)
    requires Wf(p) && Wf(z) && nodes != [] && GoodNodes(p, nodes)
    requires Expired(p, cutoff, nodes[0]) && TookFirst(p, z, nodes)
    requires SweptTo(z, pre, nodes[1..], cutoff, q)
    ensures SweptTo(p, pre, nodes, cutoff, q)
  {
    hide KeysOk, Wf, Survivors, DisposeRec, GoodNodes, Dropped, Expired, Least;
    NodesIn(p, nodes);
    SweepRecords(p, z, nodes, cutoff);
    SweepKeys(p, z, nodes, cutoff);
    SurvivorsAgree(p, z, nodes[1..], cutoff);
    SweepTakeRest(p, z, pre, nodes, cutoff, q);
  }

  lemma SweepTakeRest(p: Pool, z: Pool, pre: seq<nat>, nodes: seq<nat>, cutoff: int, q: Pool)
    requires Wf(p) && Wf(z) && nodes != [] && forall i :: 0 <= i < |nodes| ==> nodes[i] < |p.table|
    requires Expired(p, cutoff, nodes[0]) && TookFirst(p, z, nodes)
    requires Survivors(z, nodes[1..], cutoff) == Survivors(p, nodes[1..], cutoff)
    requires SweptTo(z, pre, nodes[1..], cutoff, q)
    ensures Survivors(p, nodes, cutoff) == Survivors(p, nodes[1..], cutoff)
    ensures q.counters == p.counters.(evicted := p.counters.evicted + Dropped(p, nodes, cutoff))
    ensures |q.queue| == |p.queue| - Least(|p.queue|, Dropped(p, nodes, cutoff))
    ensures q.queue == p.queue[|p.queue| - |q.queue|..]
  {
    hide Wf, DisposeRec, Expired, SweptTo, Survivors;
    FirstExpired(p, nodes, cutoff);
    assert Dropped(p, nodes, cutoff) == Dropped(z, nodes[1..], cutoff) + 1;
    SweptQueue(z, pre, nodes[1..], cutoff, q);
    TailOfTail(p.queue, z.queue, q.queue, Dropped(z, nodes[1..], cutoff));
  }

  lemma FirstExpired(p: Pool, nodes: seq<nat>, cutoff: int)
    requires nodes != [] && forall i :: 0 <= i < |nodes| ==> nodes[i] < |p.table|
    requires Expired(p, cutoff, nodes[0])
    ensures Survivors(p, nodes, cutoff) == Survivors(p, nodes[1..], cutoff)
    ensures |Survivors(p, nodes[1..], cutoff)| <= |nodes| - 1
  {
    SurvivorsShorter(p, nodes[1..], cutoff);
  }

  lemma SweptQueue(p: Pool, pre: seq<nat>, nodes: seq<nat>, cutoff: int, q: Pool)
    requires Wf(p) && forall i :: 0 <= i < |nodes| ==> nodes[i] < |p.table|
    requires SweptTo(p, pre, nodes, cutoff, q)
    ensures q.counters == p.counters.(evicted := p.counters.evicted + Dropped(p, nodes, cutoff))
    ensures |q.queue| == |p.queue| - Least(|p.queue|, Dropped(p, nodes, cutoff))
    ensures q.queue == p.queue[|p.queue| - |q.queue|..]
  {
    hide Wf, Dropped, Survivors, Expired, OnlyWakes;
  }

  lemma TailOfTail(p: seq<nat>, z: seq<nat>, q: seq<nat>, n: nat)
    requires z == (if p == [] then [] else p[1..])
    requires |q| == |z| - Least(|z|, n) && q == z[|z| - |q|..]
    ensures |q| == |p| - Least(|p|, n + 1) && q == p[|p| - |q|..]
  {
  }

  lemma NodesIn(p: Pool, nodes: seq<nat>)
    requires GoodNodes(p, nodes)
    ensures forall i :: 0 <= i < |nodes| ==> nodes[i] < |p.table|
  {
  }

  lemma SweepRecords(p: Pool, z: Pool, nodes: seq<nat>, cutoff: int)
    requires nodes != [] && GoodNodes(p, nodes)
    requires Expired(p, cutoff, nodes[0]) && TookFirst(p, z, nodes)
    ensures forall e :: 0 <= e < |p.table| ==>
      (if e in nodes[1..] && Expired(z, cutoff, e) then DisposeRec(z.table[e]) else z.table[e])
      == if e in nodes && Expired(p, cutoff, e) then DisposeRec(p.table[e]) else p.table[e]
    ensures nodes[0] !in nodes[1..]
    ensures forall i :: 0 <= i < |nodes[1..]| ==> z.table[nodes[1..][i]] == p.table[nodes[1..][i]]
  {
    var n, rest := nodes[0], nodes[1..];
    forall e | 0 <= e < |p.table|
      ensures e in nodes <==> e == n || e in rest
    {
    }
  }

  lemma SweepKeys(p: Pool, z: Pool, nodes: seq<nat>, cutoff: int)
    requires nodes != [] && GoodNodes(p, nodes) && nodes[0] !in nodes[1..]
    requires Expired(p, cutoff, nodes[0]) && TookFirst(p, z, nodes)
    ensures (set k | k in z.entries && !(z.entries[k] in nodes[1..] && Expired(z, cutoff, z.entries[k])))
         == (set k | k in p.entries && !(p.entries[k] in nodes && Expired(p, cutoff, p.entries[k])))
  {
    var n, rest := nodes[0], nodes[1..];
    forall k | k in p.entries
      ensures k in z.entries && !(z.entries[k] in rest && Expired(z, cutoff, z.entries[k]))
         <==> !(p.entries[k] in nodes && Expired(p, cutoff, p.entries[k]))
    {
      assert p.entries[k] in nodes <==> p.entries[k] == n || p.entries[k] in rest;
    }
  }
}
