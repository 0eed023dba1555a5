/** What the invariant of the pool value means for the objects: lists, maps and statistics. */
module HeapTheorems {
  import opened Counting
  import opened PoolModel
  import opened PoolInvariant
  import opened PoolTheorems
  import opened HeapIdleList
  import opened HeapPool

  /** However far one walks along `next` from the head, one meets the live entries that nobody holds,
      each once, in the order of their release, and `prev` from the tail meets them backwards. */
  lemma IdleListIsRight(o: RefCountedLruPool, p: Pool, now: int, n: nat)
    requires o.Represents(p) && PoolInv(p, now) && n >= o.idleList.count
    ensures var walk := Forward(o.idleList.head, o.repr, n);
      && |walk| == o.idleList.count && Distinct(walk)
      && Backward(o.idleList.tail, o.repr, n) == Reversed(walk)
    ensures forall e :: e in o.repr ==>
      (e in Forward(o.idleList.head, o.repr, n) <==> e.key in o.entries && o.entries[e.key] == e && e.refCount == 0)
    ensures forall e :: e in o.repr ==>
      (e.inIdle <==> e.key in o.entries && o.entries[e.key] == e && e.refCount == 0)
    ensures var walk := Forward(o.idleList.head, o.repr, n);
      forall i, j :: 0 <= i < j < |walk| ==> walk[i].lastReleasedAt <= walk[j].lastReleasedAt
  {
    hide PoolInv, Numbered, TableOk, MapOk, ListOk, LogOk, IdleList.Valid;
    WalksAgree(o.idleList, o.repr, n);
    forall e | e in o.repr
      ensures e in o.idleList.nodes <==> e.key in o.entries && o.entries[e.key] == e && e.refCount == 0
    {
      ListedIffIdle(o, p, now, e);
    }
    InReleaseOrder(o, p, now);
  }

  lemma ListedIffIdle(o: RefCountedLruPool, p: Pool, now: int, e: Entry)
    requires o.Represents(p) && PoolInv(p, now) && e in o.repr
    ensures e in o.idleList.nodes <==> e.key in o.entries && o.entries[e.key] == e && e.refCount == 0
  {
    hide LogOk, IdleList.Valid, LifeOk, QueueOk, ClosedOk, CountersOk, OrderOk;
    o.Known(e, p);
    MapIs(o.repr, o.all, o.entries, p.entries, e.key);
    if e.key in p.entries && p.entries[e.key] == e.id && p.table[e.id].refCount == 0 {
      assert p.entries[e.key] in p.idle;
    }
  }

  lemma InReleaseOrder(o: RefCountedLruPool, p: Pool, now: int)
    requires o.Represents(p) && PoolInv(p, now)
    ensures forall i, j :: 0 <= i < j < |o.idleList.nodes| ==>
      o.idleList.nodes[i].lastReleasedAt <= o.idleList.nodes[j].lastReleasedAt
  {
    forall i, j | 0 <= i < j < |o.idleList.nodes|
      ensures o.idleList.nodes[i].lastReleasedAt <= o.idleList.nodes[j].lastReleasedAt
    {
      assert Older(p.table)(p.idle[i], p.idle[j]);
      o.NodeAt(i, p);
      o.NodeAt(j, p);
    }
  }

  /** getStats, read in constant time, is what a scan of both maps by refCount finds. */
  lemma StatsMatchScan(o: RefCountedLruPool, p: Pool, now: int)
    requires o.Represents(p) && PoolInv(p, now)
    ensures o.idleList.count == |set k | k in o.entries && o.entries[k].refCount == 0|
    ensures |o.entries| - o.idleList.count + |o.orphans|
         == |set k | k in o.entries && o.entries[k].refCount > 0|
            + |set k | k in o.orphans && o.orphans[k].refCount > 0|
  {
    hide PoolInv, Numbered, TableOk, MapOk, ListOk, LogOk, IdleList.Valid, IdleKeys, HeldIn;
    StatsAreFullScan(p, now);
    o.Sizes(p);
    ScansAgree(o.repr, o.all, p.table, o.entries, p.entries);
    ScansAgree(o.repr, o.all, p.table, o.orphans, p.orphans);
    IdleKeysAre(p);
  }

  lemma IdleKeysAre(p: Pool)
    requires Wf(p)
    ensures IdleKeys(p) == set k | k in p.entries && p.table[p.entries[k]].refCount == 0
  {
  }

  lemma ScansAgree(repr: set<Entry>, all: seq<Entry>, t: seq<Rec>, m: map<Key, Entry>, ids: Ids)
    requires TableOk(repr, all, t) && MapOk(all, m, ids)
    ensures forall k :: k in ids ==> ids[k] < |t|
    ensures (set k | k in m && m[k].refCount == 0) == set k | k in ids && t[ids[k]].refCount == 0
    ensures (set k | k in m && m[k].refCount > 0) == HeldIn(ids, t)
  {
  }
}
