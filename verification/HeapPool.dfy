/** The pool as the program has it: Entry objects, maps, counters and a waiter array, all updated in
    place. Represents(p) says that the object stands for the value p of PoolModel; each method takes
    an object that stands for p to one that stands for what the method's function makes of p. */
module HeapPool {
  import opened Counting
  import opened PoolModel
  import opened PoolInvariant
  import opened PoolBulk
  import opened PoolDrain
  import opened HeapIdleList
  import opened HeapBreaker

  /** A parked acquire. `outcome` stands for its promise. */
  class CapacityWaiter {
    var settled: bool
    var outcome: WaiterState
    ghost const id: nat

    constructor (ghost id: nat)
      ensures this.id == id && !settled && outcome == Waiting
    {
      this.id := id;
      settled, outcome := false, Waiting;
    }
  }

  // --- how objects stand for values ---

  /** Entries are numbered in the order of their creation. */
  ghost predicate Numbered(repr: set<Entry>, all: seq<Entry>) {
    && (forall e :: 0 <= e < |all| ==> all[e] in repr && all[e].id == e)
    && (forall o :: o in repr ==> o.id < |all| && all[o.id] == o)
  }

  ghost predicate TableOk(repr: set<Entry>, all: seq<Entry>, t: seq<Rec>)
    reads repr`refCount, repr`lastReleasedAt, repr`condemned, repr`disposed, repr`disposing, repr`disposeCalls
  {
    |all| == |t| && forall e :: 0 <= e < |all| ==> all[e] in repr && all[e].Shows(t[e])
  }

  /** The same for all entries but one. */
  ghost predicate TableBut(repr: set<Entry>, all: seq<Entry>, t: seq<Rec>, entry: Entry)
    reads (repr - {entry})`refCount, (repr - {entry})`lastReleasedAt, (repr - {entry})`condemned,
          (repr - {entry})`disposed, (repr - {entry})`disposing, (repr - {entry})`disposeCalls
  {
    |all| == |t| && forall e :: 0 <= e < |all| && all[e] != entry ==> all[e] in repr && all[e].Shows(t[e])
  }

  /** A map to objects and a map to their ids. */
  ghost predicate MapOk(all: seq<Entry>, m: map<Key, Entry>, ids: map<Key, nat>) {
    m.Keys == ids.Keys && forall k :: k in ids ==> ids[k] < |all| && m[k] == all[ids[k]]
  }

  /** A list of objects and the list of their ids. */
  ghost predicate ListOk<T>(all: seq<T>, objects: seq<T>, ids: seq<nat>) {
    |objects| == |ids| && forall i :: 0 <= i < |ids| ==> ids[i] < |all| && objects[i] == all[ids[i]]
  }

  ghost predicate LogOk(parked: set<CapacityWaiter>, waiters: seq<CapacityWaiter>, log: seq<WaiterState>)
    reads parked`settled, parked`outcome
  {
    && |waiters| == |log|
    && (forall w :: 0 <= w < |log| ==> waiters[w] in parked && waiters[w].id == w)
    && (forall w :: 0 <= w < |log| ==> waiters[w].outcome == log[w] && waiters[w].settled == !log[w].Waiting?)
    && (forall o :: o in parked ==> o.id < |log| && waiters[o.id] == o)
  }

  /** What the gate answers by a refusal, by a waiter to await, or by neither. */
  ghost function Gate(refusal: Option<Error>, waiter: CapacityWaiter?): SlotResult {
    if refusal.Some? then Refused(refusal.value) else if waiter != null then ParkedAs(waiter.id) else Granted
  }

  /** How a segment of obtain ends: with an entry, with a promise to await, or with an error. */
  datatype Turn =
    | Use(entry: Entry)
    | Validate(entry: Entry)
    | AwaitDisposal(entry: Entry)
    | AwaitSlot(waiter: CapacityWaiter)
    | Create
    | DisposeLate
    | Throw(error: Error)

  ghost function PhaseOf(t: Turn): Phase {
    match t
    case Use(entry) => Resolved(entry.id)
    case Validate(entry) => Validating(entry.id)
    case AwaitDisposal(entry) => Replacing(entry.id)
    case AwaitSlot(waiter) => Parked(waiter.id)
    case Create => Reserved
    case DisposeLate => LateDisposing
    case Throw(error) => Rejected(error)
  }

  // --- changes of representation ---

  lemma Except(repr: set<Entry>, all: seq<Entry>, t: seq<Rec>, entry: Entry)
    requires Numbered(repr, all) && TableOk(repr, all, t) && entry in repr
    ensures TableBut(repr, all, t, entry)
    ensures |t| == |all| && entry.id < |all| && all[entry.id] == entry && entry.Shows(t[entry.id])
  {
  }

  lemma Including(repr: set<Entry>, all: seq<Entry>, t: seq<Rec>, entry: Entry, r: Rec)
    requires Numbered(repr, all) && TableBut(repr, all, t, entry) && entry in repr
    requires entry.id < |t| && entry.Shows(r)
    ensures TableOk(repr, all, t[entry.id := r])
  {
  }

  lemma StampFree(repr: set<Entry>, all: seq<Entry>, t: seq<Rec>, e: nat, stamp: nat)
    requires TableOk(repr, all, t) && e < |t|
    ensures TableOk(repr, all, t[e := t[e].(stamp := stamp)])
  {
  }

  lemma MapIs(repr: set<Entry>, all: seq<Entry>, m: map<Key, Entry>, ids: map<Key, nat>, k: Key)
    requires Numbered(repr, all) && MapOk(all, m, ids)
    ensures k in m <==> k in ids
    ensures k in m ==> m[k] in repr && ids[k] == m[k].id && ids[k] < |all|
    ensures k in m ==> forall o :: o in repr && o.id == ids[k] ==> o == m[k]
    ensures |m| == |ids|
  {
    assert |m.Keys| == |ids.Keys|;
  }

  lemma MapWithout(all: seq<Entry>, m: map<Key, Entry>, ids: map<Key, nat>, k: Key)
    requires MapOk(all, m, ids)
    ensures MapOk(all, m - {k}, ids - {k})
  {
  }

  lemma MapDrop(repr: set<Entry>, all: seq<Entry>, m: map<Key, Entry>, ids: map<Key, nat>, entry: Entry)
    requires Numbered(repr, all) && MapOk(all, m, ids) && entry in repr
    ensures MapOk(all, if entry.key in m && m[entry.key] == entry then m - {entry.key} else m,
                  if entry.key in ids && ids[entry.key] == entry.id then ids - {entry.key} else ids)
  {
  }

  lemma MapPut(repr: set<Entry>, all: seq<Entry>, m: map<Key, Entry>, ids: map<Key, nat>, k: Key, entry: Entry)
    requires Numbered(repr, all) && MapOk(all, m, ids) && entry in repr
    ensures MapOk(all, m[k := entry], ids[k := entry.id])
  {
  }

  // --- one entry more ---

  lemma Grown(repr: set<Entry>, all: seq<Entry>, t: seq<Rec>, entry: Entry)
    requires Numbered(repr, all) && TableOk(repr, all, t) && entry !in repr && entry.id == |all|
    requires entry.Shows(Rec(entry.key, 0, entry.lastReleasedAt, 0, false, Live, 0))
    ensures Numbered(repr + {entry}, all + [entry])
    ensures TableOk(repr + {entry}, all + [entry], t + [Rec(entry.key, 0, entry.lastReleasedAt, 0, false, Live, 0)])
    ensures forall m: map<Key, Entry>, ids :: MapOk(all, m, ids) ==> MapOk(all + [entry], m, ids)
    ensures forall q: seq<Entry>, ids :: ListOk(all, q, ids) ==> ListOk(all + [entry], q, ids)
  {
  }

  lemma ListGrown(l: IdleList, repr: set<Entry>, entry: Entry)
    requires l.Valid(repr) && entry !in repr && !entry.inIdle
    ensures l.Valid(repr + {entry})
  {
  }

  lemma ListIn<T>(all: seq<T>, objects: seq<T>, ids: seq<nat>, e: nat)
    requires Distinct(all) && ListOk(all, objects, ids) && e < |all|
    ensures all[e] in objects <==> e in ids
  {
    if all[e] in objects {
      var i :| 0 <= i < |objects| && objects[i] == all[e];
      assert ids[i] == e;
    }
    if e in ids {
      var i :| 0 <= i < |ids| && ids[i] == e;
      assert objects[i] == all[e];
    }
  }

  lemma {:induction false} ListWithout<T>(all: seq<T>, objects: seq<T>, ids: seq<nat>, e: nat)
    requires Distinct(all) && ListOk(all, objects, ids) && e < |all|
    ensures ListOk(all, Without(objects, all[e]), Without(ids, e))
  {
    ListIn(all, objects, ids, e);
    if e in ids {
      SameIndex(all, objects, ids, e);
    }
  }

  lemma {:induction false} SameIndex<T>(all: seq<T>, objects: seq<T>, ids: seq<nat>, e: nat)
    requires Distinct(all) && ListOk(all, objects, ids) && e < |all| && all[e] in objects && e in ids
    ensures Index(objects, all[e]) == Index(ids, e)
  {
    if ids[0] != e {
      assert objects[0] != all[e];
      SameIndex(all, objects[1..], ids[1..], e);
    }
  }

  lemma NumberedIsDistinct(repr: set<Entry>, all: seq<Entry>)
    requires Numbered(repr, all)
    ensures Distinct(all)
  {
  }

  lemma LogIsDistinct(parked: set<CapacityWaiter>, waiters: seq<CapacityWaiter>, log: seq<WaiterState>)
    requires LogOk(parked, waiters, log)
    ensures Distinct(waiters) && |waiters| == |log|
    ensures forall o :: o in parked ==> o.id < |log| && waiters[o.id] == o
  {
  }

  lemma InLog(parked: set<CapacityWaiter>, waiters: seq<CapacityWaiter>, log: seq<WaiterState>, w: nat)
    requires LogOk(parked, waiters, log) && w < |log|
    ensures |waiters| == |log| && waiters[w] in parked && waiters[w].id == w
  {
  }

  lemma EvictedIdle(p: Pool, i: nat)
    requires Wf(p) && Distinct(p.idle) && i < |p.idle|
    ensures WakeWaiter(PoolModel.Evict(p, p.idle[i])).idle == p.idle[..i] + p.idle[i + 1..]
  {
    IndexDistinct(p.idle, i);
    WakeFrame(PoolModel.Evict(p, p.idle[i]));
  }

  /** A new entry before it joins the idle list. */
  function Unlisted(p: Pool, k: Key, now: int): Pool {
    p.(table := p.table + [Rec(k, 0, now, 0, false, Live, 0)], entries := p.entries[k := |p.table|],
       reserved := p.reserved - 1, counters := p.counters.(created := p.counters.created + 1))
  }

  datatype Stats = Stats(keys: nat, live: nat, idle: int, inUse: int, waiters: nat, created: nat, disposed: nat,
                         evicted: nat, hits: nat, misses: nat, breaker: BreakerCounts)

  class RefCountedLruPool {
    const config: Config
    var entries: map<Key, Entry>
    var orphans: map<Key, Entry>
    var pending: map<Key, nat>
    var reserved: int
    var closed: bool
    var capacityWaiters: seq<CapacityWaiter>
    const idleList: IdleList
    var counters: Counters
    /** Registered with each of its breakers. */
    const breakerStats: BreakerStats

    /** Every entry ever created and every waiter ever parked, as sets and in order. */
    ghost var repr: set<Entry>
    ghost var all: seq<Entry>
    ghost var parked: set<CapacityWaiter>
    ghost var waiters: seq<CapacityWaiter>

    ghost predicate Represents(p: Pool)
      reads this, idleList, repr, parked
    {
      && Numbered(repr, all) && TableOk(repr, all, p.table)
      && idleList.Valid(repr) && ListOk(all, idleList.nodes, p.idle)
      && MapOk(all, entries, p.entries) && MapOk(all, orphans, p.orphans)
      && LogOk(parked, waiters, p.log) && ListOk(waiters, capacityWaiters, p.queue)
      && pending == p.pending && reserved == p.reserved && closed == p.closed && counters == p.counters
    }

    constructor (config: Config)
      ensures Represents(EMPTY_POOL) && repr == {} && parked == {} && this.config == config && fresh(idleList)
      ensures fresh(breakerStats) && breakerStats.Valid() && breakerStats.told == []
    {
      this.config := config;
      entries, orphans, pending, reserved, closed, capacityWaiters := map[], map[], map[], 0, false, [];
      idleList := new IdleList();
      counters := Counters(0, 0, 0, 0, 0, 0, 0);
      breakerStats := new BreakerStats();
      repr, all, parked, waiters := {}, [], {}, [];
    }

    /** The parts of Represents, to be proved one by one. */
    lemma Whole(p: Pool)
      requires Numbered(repr, all) && TableOk(repr, all, p.table)
      requires idleList.Valid(repr) && ListOk(all, idleList.nodes, p.idle)
      requires MapOk(all, entries, p.entries) && MapOk(all, orphans, p.orphans)
      requires LogOk(parked, waiters, p.log) && ListOk(waiters, capacityWaiters, p.queue)
      requires pending == p.pending && reserved == p.reserved && closed == p.closed && counters == p.counters
      ensures Represents(p)
    {
    }

    lemma RepresentsWf(p: Pool)
      requires Represents(p)
      ensures Wf(p) && |p.table| == |all| && |p.queue| == |capacityWaiters|
    {
    }

    lemma Sizes(p: Pool)
      requires Represents(p)
      ensures |entries| == |p.entries| && |orphans| == |p.orphans|
      ensures |capacityWaiters| == |p.queue| && idleList.count == |p.idle|
    {
      MapIs(repr, all, entries, p.entries, "");
      MapIs(repr, all, orphans, p.orphans, "");
    }

    lemma Known(entry: Entry, p: Pool)
      requires Represents(p) && entry in repr
      ensures Wf(p) && entry.id < |p.table| && entry.Shows(p.table[entry.id])
      ensures entry in idleList.nodes <==> entry.id in p.idle
    {
      NumberedIsDistinct(repr, all);
      ListIn(all, idleList.nodes, p.idle, entry.id);
    }

    // --- pending acquires ---

    method IncPending(key: Key, ghost p: Pool)
      requires Represents(p)
      modifies this`pending
      ensures Represents(PoolModel.IncPending(p, key))
    {
      hide Numbered, TableOk, MapOk, ListOk, LogOk, IdleList.Valid;
      pending := pending[key := (if key in pending then pending[key] else 0) + 1];
    }

    method DecPending(key: Key, ghost p: Pool)
      requires Represents(p)
      modifies this`pending
      ensures Represents(PoolModel.DecPending(p, key))
    {
      hide Numbered, TableOk, MapOk, ListOk, LogOk, IdleList.Valid;
      var n: int := if key in pending then pending[key] else 0;
      var next := n - 1;
      if next <= 0 {
        pending := pending - {key};
      } else {
        pending := pending[key := next];
      }
    }

    // --- the idle list ---

    method IdleAppend(entry: Entry, ghost p: Pool)
      requires Represents(p) && entry in repr
      modifies idleList, repr`inIdle, repr`prev, repr`next
      ensures entry.id < |p.table| && Represents(PoolModel.IdleAppend(p, entry.id))
    {
      hide MapOk, LogOk, TableOk, Without, Index;
      Known(entry, p);
      StampFree(repr, all, p.table, entry.id, p.stamps);
      idleList.Append(entry, repr);
    }

    method IdleRemove(entry: Entry, ghost p: Pool)
      requires Represents(p) && entry in repr
      modifies idleList, repr`inIdle, repr`prev, repr`next
      ensures Represents(PoolModel.IdleRemove(p, entry.id))
    {
      hide MapOk, LogOk, TableOk, Without;
      NumberedIsDistinct(repr, all);
      ListWithout(all, idleList.nodes, p.idle, entry.id);
      idleList.Remove(entry, repr);
    }

    // --- checkout, release, disposal ---

    /** One reference more; the first one takes the entry off the idle list. */
    method AddReference(entry: Entry, ghost p: Pool)
      requires Represents(p) && entry in repr
      modifies this`counters, idleList, repr
      ensures entry.id < |p.table| && Represents(PoolModel.Checkout(p, entry.id))
    {
      hide Numbered, TableOk, TableBut, MapOk, ListOk, LogOk, IdleList.Valid, Without;
      Except(repr, all, p.table, entry);
      if entry.refCount == 0 {
        IdleRemove(entry, p);
      }
      entry.refCount := entry.refCount + 1;
      counters := counters.(acquires := counters.acquires + 1);
      Including(repr, all, p.table, entry, p.table[entry.id].(refCount := entry.refCount));
      Whole(PoolModel.Checkout(p, entry.id));
    }

    method Checkout(entry: Entry, ghost p: Pool) returns (handle: AcquireHandle)
      requires Represents(p) && entry in repr
      modifies this`counters, idleList, repr
      ensures entry.id < |p.table| && Represents(PoolModel.Checkout(p, entry.id))
      ensures fresh(handle) && handle.IsFor(this, entry)
    {
      hide Numbered, TableOk, MapOk, ListOk, LogOk, IdleList.Valid, PoolModel.Checkout;
      AddReference(entry, p);
      handle := new AcquireHandle(this, entry);
    }

    method RemoveEntry(entry: Entry, ghost p: Pool)
      requires Represents(p) && entry in repr
      modifies this`entries, this`orphans, idleList, repr`inIdle, repr`prev, repr`next
      ensures entry.id < |p.table| && Represents(PoolModel.RemoveEntry(p, entry.id))
    {
      hide Numbered, TableOk, MapOk, ListOk, LogOk, IdleList.Valid, Without;
      Known(entry, p);
      assert entry.key == p.table[entry.id].key;
      MapDrop(repr, all, entries, p.entries, entry);
      MapDrop(repr, all, orphans, p.orphans, entry);
      IdleRemove(entry, p);
      Forget(entry);
      Whole(PoolModel.RemoveEntry(p, entry.id));
    }

    /** The key no longer leads to this very entry. */
    method Forget(entry: Entry)
      modifies this`entries, this`orphans
      ensures entries ==
        if entry.key in old(entries) && old(entries)[entry.key] == entry then old(entries) - {entry.key}
        else old(entries)
      ensures orphans ==
        if entry.key in old(orphans) && old(orphans)[entry.key] == entry then old(orphans) - {entry.key}
        else old(orphans)
    {
      if entry.key in entries && entries[entry.key] == entry {
        entries := entries - {entry.key};
      }
      if entry.key in orphans && orphans[entry.key] == entry {
        orphans := orphans - {entry.key};
      }
    }

    /** The user's dispose is called at most once: its promise is kept in `disposing`. */
    method Dispose(entry: Entry, ghost p: Pool)
      requires Represents(p) && entry in repr
      modifies repr`disposing, repr`disposeCalls
      ensures entry.id < |p.table| && Represents(PoolModel.Dispose(p, entry.id))
    {
      hide Numbered, TableOk, TableBut, MapOk, ListOk, LogOk, IdleList.Valid;
      Except(repr, all, p.table, entry);
      if !entry.disposed && !entry.disposing {
        entry.disposing := true;
        entry.disposeCalls := entry.disposeCalls + 1;
      }
      Including(repr, all, p.table, entry, DisposeRec(p.table[entry.id]));
    }

    /** The `finally` of dispose, once the user's dispose has settled. */
    method FinishDispose(entry: Entry, ghost p: Pool)
      requires Represents(p) && entry in repr && entry.disposing && !entry.disposed
      modifies this`counters, repr`disposed
      ensures entry.id < |p.table| && Represents(PoolModel.FinishDispose(p, entry.id))
    {
      hide Numbered, TableOk, TableBut, MapOk, ListOk, LogOk, IdleList.Valid;
      Except(repr, all, p.table, entry);
      entry.disposed := true;
      counters := counters.(disposed := counters.disposed + 1);
      Including(repr, all, p.table, entry, p.table[entry.id].(life := Disposed));
    }

    /** One reference less; the last one leaves the time of its release. */
    method DropReference(entry: Entry, now: int, ghost p: Pool)
      requires Represents(p) && entry in repr && entry.refCount > 0
      modifies this`counters, entry`refCount, entry`lastReleasedAt
      ensures entry.id < |p.table| && p.table[entry.id].refCount == old(entry.refCount) == entry.refCount + 1
      ensures entry.refCount > 0 ==> Represents(DropShared(p, entry.id))
      ensures entry.refCount == 0 ==> Represents(DropLast(p, entry.id, now))
    {
      hide Numbered, TableOk, TableBut, MapOk, ListOk, LogOk, IdleList.Valid;
      Except(repr, all, p.table, entry);
      ghost var r := p.table[entry.id];
      entry.refCount := entry.refCount - 1;
      counters := counters.(releases := counters.releases + 1);
      if entry.refCount != 0 {
        Including(repr, all, p.table, entry, r.(refCount := r.refCount - 1));
        return;
      }
      entry.lastReleasedAt := now;
      Including(repr, all, p.table, entry, r.(refCount := 0, lastReleasedAt := now));
    }

    /** An entry that nobody holds any more goes to disposal if it was condemned or orphaned. */
    method ReleaseEntry(entry: Entry, now: int, ghost p: Pool)
      requires Represents(p) && entry in repr
      modifies this`entries, this`orphans, this`counters, this`capacityWaiters, idleList, repr, parked
      ensures Wf(p) && entry.id < |p.table| && Represents(PoolModel.ReleaseEntry(p, entry.id, now))
    {
      hide Numbered, TableOk, MapOk, ListOk, LogOk, IdleList.Valid, DropShared, DropLast,
           PoolModel.RemoveEntry, PoolModel.Dispose, PoolModel.IdleAppend, WakeWaiter;
      Known(entry, p);
      MapIs(repr, all, orphans, p.orphans, entry.key);
      if entry.disposed || entry.refCount == 0 {
        return;
      }
      DropReference(entry, now, p);
      if entry.refCount != 0 {
        return;
      }
      ghost var z := DropLast(p, entry.id, now);
      if entry.condemned || (entry.key in orphans && orphans[entry.key] == entry) {
        RemoveEntry(entry, z);
        Dispose(entry, PoolModel.RemoveEntry(z, entry.id));
      } else {
        IdleAppend(entry, z);
        WakeCapacityWaiter(PoolModel.IdleAppend(z, entry.id));
      }
    }

    // --- capacity waiters ---

    /** Settle once; splice it out of the array if it is still there. */
    method SettleWaiter(waiter: CapacityWaiter, outcome: WaiterState, ghost p: Pool)
      requires Represents(p) && waiter in parked && !outcome.Waiting?
      modifies this`capacityWaiters, waiter
      ensures waiter.id < |p.log| && Represents(Settle(p, waiter.id, outcome))
    {
      hide Numbered, TableOk, MapOk, ListOk, IdleList.Valid, Without;
      LogIsDistinct(parked, waiters, p.log);
      if waiter.settled {
        return;
      }
      waiter.settled := true;
      capacityWaiters := Without(capacityWaiters, waiter);
      waiter.outcome := outcome;
      ListWithout(waiters, old(capacityWaiters), p.queue, waiter.id);
    }

    method WakeCapacityWaiter(ghost p: Pool)
      requires Represents(p)
      modifies this`capacityWaiters, parked
      ensures Wf(p) && Represents(WakeWaiter(p))
    {
      hide Numbered, TableOk, MapOk, LogOk, IdleList.Valid, Settle;
      RepresentsWf(p);
      if |capacityWaiters| == 0 {
        return;
      }
      var waiter := capacityWaiters[0];
      capacityWaiters := capacityWaiters[1..];
      InLog(parked, waiters, p.log, p.queue[0]);
      SettleWaiter(waiter, WokenUp, p.(queue := p.queue[1..]));
    }

    /** Close the pool and turn away everyone who is parked. */
    method SetClosed(ghost p: Pool)
      requires Represents(p)
      modifies this`closed, this`capacityWaiters, parked
      ensures Wf(p.(closed := true)) && Represents(CloseWaiters(p.(closed := true)))
    {
      hide Numbered, TableOk, MapOk, LogOk, IdleList.Valid, Without;
      RepresentsWf(p);
      closed := true;
      ghost var q := p.(closed := true);
      while |capacityWaiters| > 0
        invariant Represents(q) && Wf(q) && |q.queue| == |capacityWaiters|
        invariant CloseWaiters(q) == CloseWaiters(p.(closed := true))
        decreases |q.queue|
      {
        WithoutIn(q.queue[1..], q.queue[0]);
        var waiter := capacityWaiters[0];
        capacityWaiters := capacityWaiters[1..];
        InLog(parked, waiters, q.log, q.queue[0]);
        SettleWaiter(waiter, ClosedOut, q.(queue := q.queue[1..]));
        q := ShiftWaiter(q, ClosedOut);
        RepresentsWf(q);
      }
    }

    /** release(key): one reference of the live, else of the orphaned, entry of the key. */
    method Release(key: Key, now: int, ghost p: Pool)
      requires Represents(p)
      modifies this`entries, this`orphans, this`counters, this`capacityWaiters, idleList, repr, parked
      ensures Wf(p) && Represents(ReleaseByKey(p, key, now))
    {
      hide Numbered, TableOk, MapOk, ListOk, LogOk, IdleList.Valid, PoolModel.ReleaseEntry;
      RepresentsWf(p);
      MapIs(repr, all, entries, p.entries, key);
      MapIs(repr, all, orphans, p.orphans, key);
      if key in entries {
        ReleaseEntry(entries[key], now, p);
      } else if key in orphans {
        ReleaseEntry(orphans[key], now, p);
      }
    }

    // --- capacity ---

    /** The node of the idle list at position i. */
    lemma NodeAt(i: nat, p: Pool)
      requires Represents(p) && i <= |p.idle|
      ensures |idleList.nodes| == |p.idle| && |p.table| == |all|
      ensures i < |p.idle| ==> p.idle[i] < |all|
      ensures i < |p.idle| ==>
        var n := idleList.nodes[i]; n in repr && n == all[p.idle[i]] && n.id == p.idle[i] && n.Shows(p.table[p.idle[i]])
                                    && n.next == At(idleList.nodes, i + 1)
      ensures idleList.head == At(idleList.nodes, 0)
    {
      if i < |p.idle| {
        assert NodeOk(idleList.nodes, i);
      }
    }

    /** Walk from the head to the first entry whose key has no acquire in flight. */
    method TakeLruIdle(ghost p: Pool) returns (victim: Entry?)
      requires Represents(p)
      modifies this`entries, idleList, repr`inIdle, repr`prev, repr`next
      ensures Wf(p)
      ensures FirstFree(p, p.idle).None? ==> victim == null && Represents(p)
      ensures FirstFree(p, p.idle).Some? ==>
        victim in repr && victim.id == FirstFree(p, p.idle).value && Represents(Detach(p, victim.id))
    {
      hide Numbered, TableOk, MapOk, ListOk, LogOk, IdleList.Valid, Without;
      RepresentsWf(p);
      ghost var i := 0;
      NodeAt(0, p);
      var node := idleList.head;
      while node != null
        invariant i <= |p.idle| && node == At(idleList.nodes, i)
        invariant Represents(p)
        invariant FirstFree(p, p.idle) == FirstFree(p, p.idle[i..])
        decreases |p.idle| - i
      {
        NodeAt(i, p);
        var next := node.next;
        if !IsPending(node.key) {
          Take(node, p);
          return node;
        }
        node := next;
        i := i + 1;
      }
      NodeAt(i, p);
      return null;
    }

    function IsPending(key: Key): bool
      reads this`pending
    {
      key in pending && pending[key] > 0
    }

    /** An idle entry is unlinked and its key leaves the live map. */
    method Take(node: Entry, ghost p: Pool)
      requires Represents(p) && node in repr
      modifies this`entries, idleList, repr`inIdle, repr`prev, repr`next
      ensures node.id < |p.table| && Represents(Detach(p, node.id))
    {
      hide Numbered, TableOk, MapOk, ListOk, LogOk, IdleList.Valid, Without;
      Known(node, p);
      MapWithout(all, entries, p.entries, node.key);
      IdleRemove(node, p);
      entries := entries - {node.key};
      Whole(Detach(p, node.id));
    }

    /** The victim is disposed in the background. */
    method Evict(node: Entry, ghost p: Pool)
      requires node in repr && node.id < |p.table| && Represents(Detach(p, node.id))
      modifies this`counters, repr`disposing, repr`disposeCalls
      ensures Represents(PoolModel.Evict(p, node.id))
    {
      hide Numbered, TableOk, MapOk, ListOk, LogOk, IdleList.Valid, Without, PoolModel.Dispose;
      counters := counters.(evicted := counters.evicted + 1);
      ghost var d := Detach(p, node.id);
      Dispose(node, d.(counters := p.counters.(evicted := p.counters.evicted + 1)));
    }

    /** Evict for a new key, whose slot is reserved at once. */
    method DisplaceLru(ghost p: Pool) returns (displaced: bool)
      requires Represents(p)
      modifies this`entries, this`reserved, this`counters, idleList, repr
      ensures Wf(p) && displaced == FirstFree(p, p.idle).Some?
      ensures Represents(if displaced then Displace(p, FirstFree(p, p.idle).value) else p)
    {
      hide Numbered, TableOk, MapOk, ListOk, LogOk, IdleList.Valid, PoolModel.Evict, Detach;
      var victim := TakeLruIdle(p);
      if victim == null {
        return false;
      }
      Evict(victim, p);
      reserved := reserved + 1;
      return true;
    }

    /** One turn of acquireSlot, up to its return, its throw (a refusal) or its await (a waiter). */
    method AcquireSlot(ghost p: Pool) returns (refusal: Option<Error>, waiter: CapacityWaiter?)
      requires Represents(p)
      modifies this`entries, this`reserved, this`counters, this`capacityWaiters, this`parked, this`waiters,
               idleList, repr
      ensures Wf(p) && Represents(SlotStep(p, config).0) && Gate(refusal, waiter) == SlotStep(p, config).1
      ensures fresh(parked - old(parked)) && old(parked) <= parked
      ensures waiter != null ==> waiter in parked
    {
      hide Numbered, TableOk, MapOk, ListOk, LogOk, IdleList.Valid, Displace, PoolModel.Park;
      RepresentsWf(p);
      Sizes(p);
      refusal, waiter := None, null;
      if config.max <= 0 {
        return;
      }
      if closed {
        return Some(PoolClosed), null;
      }
      if |entries| + reserved < config.max {
        reserved := reserved + 1;
        return;
      }
      var displaced := DisplaceLru(p);
      if !displaced {
        refusal, waiter := WaitForCapacity(p);
      }
    }

    /** Park in the array, unless it is full. */
    method WaitForCapacity(ghost p: Pool) returns (refusal: Option<Error>, waiter: CapacityWaiter?)
      requires Represents(p)
      modifies this`capacityWaiters, this`parked, this`waiters
      ensures config.maxWaiters.Some? && |p.queue| >= config.maxWaiters.value ==>
        Gate(refusal, waiter) == Refused(PoolExhausted) && Represents(p)
      ensures !(config.maxWaiters.Some? && |p.queue| >= config.maxWaiters.value) ==>
        Gate(refusal, waiter) == ParkedAs(|p.log|) && Represents(PoolModel.Park(p))
      ensures fresh(parked - old(parked)) && old(parked) <= parked
      ensures waiter != null ==> waiter in parked
    {
      hide Numbered, TableOk, MapOk, IdleList.Valid;
      if config.maxWaiters.Some? && |capacityWaiters| >= config.maxWaiters.value {
        return Some(PoolExhausted), null;
      }
      refusal := None;
      waiter := new CapacityWaiter(|p.log|);
      capacityWaiters := capacityWaiters + [waiter];
      parked := parked + {waiter};
      waiters := waiters + [waiter];
    }

    method ReleaseReservation(ghost p: Pool)
      requires Represents(p)
      modifies this`reserved, this`capacityWaiters, parked
      ensures Wf(p) && Represents(PoolModel.ReleaseReservation(p))
    {
      hide Numbered, TableOk, MapOk, ListOk, LogOk, IdleList.Valid, WakeWaiter;
      RepresentsWf(p);
      reserved := reserved - 1;
      WakeCapacityWaiter(p.(reserved := p.reserved - 1));
    }

    // --- the TTL sweep ---

    /** Evict the node at position i for its age, and let a parked acquire have the slot. */
    method SweepNode(node: Entry, ghost i: nat, ghost p: Pool)
      requires Represents(p) && i < |p.idle| && node == At(idleList.nodes, i)
      modifies this`entries, this`counters, this`capacityWaiters, idleList, repr, parked
      ensures Wf(p) && node.id == p.idle[i]
      ensures Represents(WakeWaiter(PoolModel.Evict(p, node.id)))
      ensures WakeWaiter(PoolModel.Evict(p, node.id)).idle == p.idle[..i] + p.idle[i + 1..]
    {
      hide Numbered, TableOk, MapOk, ListOk, LogOk, IdleList.Valid, PoolModel.Evict, Detach, WakeWaiter;
      RepresentsWf(p);
      NodeAt(i, p);
      IdleDistinct(p);
      EvictedIdle(p, i);
      Take(node, p);
      Evict(node, p);
      WakeCapacityWaiter(PoolModel.Evict(p, node.id));
    }

    lemma IdleDistinct(p: Pool)
      requires Represents(p)
      ensures Distinct(p.idle)
    {
      forall i, j | 0 <= i < j < |p.idle| ensures p.idle[i] != p.idle[j] {
        assert idleList.nodes[i] != idleList.nodes[j];
      }
    }

    /** Walk the expired prefix of the list. */
    method Sweep(now: int, ghost p: Pool)
      requires Represents(p)
      modifies this`entries, this`counters, this`capacityWaiters, idleList, repr, parked
      ensures Wf(p) && Represents(PoolModel.Sweep(p, config, now))
    {
      hide Numbered, TableOk, MapOk, ListOk, LogOk, IdleList.Valid, PoolModel.Evict, WakeWaiter;
      RepresentsWf(p);
      if config.idleTtlMs == 0 {
        return;
      }
      var cutoff := now - config.idleTtlMs;
      ghost var q, i := p, 0;
      NodeAt(0, p);
      assert p.idle[0..] == p.idle;
      var node := idleList.head;
      while node != null
        invariant Represents(q) && Wf(q) && i <= |q.idle| && node == At(idleList.nodes, i)
        invariant SweepWalk(q, q.idle[i..], cutoff) == SweepWalk(p, p.idle, cutoff)
        decreases |q.idle| - i
      {
        NodeAt(i, q);
        var next := node.next;
        NodeAt(i + 1, q);
        if node.lastReleasedAt > cutoff {
          break;
        }
        if !IsPending(node.key) {
          SweepNode(node, i, q);
          WfEvictWake(q, node.id);
          ghost var r := WakeWaiter(PoolModel.Evict(q, node.id));
          assert q.idle[i..][1..] == r.idle[i..];
          NodeAt(i, r);
          q := r;
        } else {
          assert q.idle[i..][1..] == q.idle[i + 1..];
          i := i + 1;
        }
        node := next;
      }
      NodeAt(i, q);
    }

    // --- acquire and obtain, segment by segment ---

    /** The object that a segment ends with belongs to this pool. */
    ghost predicate Ours(turn: Turn)
      reads this`repr, this`parked
    {
      match turn
      case Use(entry) => entry in repr
      case Validate(entry) => entry in repr
      case AwaitDisposal(entry) => entry in repr
      case AwaitSlot(waiter) => waiter in parked
      case _ => true
    }

    method Hit(ghost p: Pool)
      requires Represents(p)
      modifies this`counters
      ensures Represents(PoolModel.Hit(p))
    {
      hide Numbered, TableOk, MapOk, ListOk, LogOk, IdleList.Valid;
      counters := counters.(hits := counters.hits + 1);
    }

    /** acquire up to its first await; the fast path checks out at once. */
    method Acquire(key: Key, ghost p: Pool) returns (fast: AcquireHandle?)
      requires Represents(p)
      modifies this`pending, this`counters, idleList, repr
      ensures Wf(p) && Represents(AcquirePrefix(p, key).0)
      ensures match AcquirePrefix(p, key).1
        case None => fast == null
        case Some(e) =>
          fast != null && fresh(fast) && fast.IsFor(this, fast.entry) && fast.entry in repr && fast.entry.id == e
    {
      hide Numbered, TableOk, MapOk, ListOk, LogOk, IdleList.Valid, PoolModel.IncPending, PoolModel.Checkout,
           PoolModel.DecPending, PoolModel.Hit;
      RepresentsWf(p);
      MapIs(repr, all, entries, p.entries, key);
      if key in entries {
        Known(entries[key], p);
      }
      IncPending(key, p);
      ghost var q := PoolModel.IncPending(p, key);
      if key in entries {
        var entry := entries[key];
        if !entry.disposed && entry.refCount > 0 {
          Hit(q);
          fast := Checkout(entry, PoolModel.Hit(q));
          DecPending(key, PoolModel.Checkout(PoolModel.Hit(q), entry.id));
          return fast;
        }
      }
      return null;
    }

    /** acquire after obtain has resolved. */
    method Finish(entry: Entry, key: Key, ghost p: Pool) returns (handle: AcquireHandle)
      requires Represents(p) && entry in repr
      modifies this`pending, this`counters, idleList, repr
      ensures entry.id < |p.table| && Represents(FinishOk(p, entry.id, key))
      ensures fresh(handle) && handle.IsFor(this, entry)
    {
      hide Numbered, TableOk, MapOk, ListOk, LogOk, IdleList.Valid, PoolModel.Checkout, PoolModel.DecPending;
      Known(entry, p);
      handle := Checkout(entry, p);
      DecPending(key, PoolModel.Checkout(p, entry.id));
    }

    /** obtain up to its first await. */
    method Obtain(key: Key, ghost p: Pool) returns (turn: Turn)
      requires Represents(p)
      modifies this`entries, this`orphans, this`reserved, this`counters, this`capacityWaiters, this`parked,
               this`waiters,
               idleList, repr
      ensures Wf(p) && Represents(ObtainStart(p, config, key).0) && PhaseOf(turn) == ObtainStart(p, config, key).1
      ensures Ours(turn) && fresh(parked - old(parked)) && old(parked) <= parked
    {
      hide Numbered, TableOk, MapOk, ListOk, LogOk, IdleList.Valid, PoolModel.Hit, PoolModel.ObtainMiss;
      RepresentsWf(p);
      MapIs(repr, all, entries, p.entries, key);
      if key in entries {
        var live := entries[key];
        Known(live, p);
        if !live.disposed {
          if live.refCount == 0 && config.validates {
            return Validate(live);
          }
          Hit(p);
          return Use(live);
        }
      }
      turn := ObtainMiss(key, p);
    }

    /** obtain without a usable live entry: resurrect an orphan, refuse, or go for a slot. */
    method ObtainMiss(key: Key, ghost p: Pool) returns (turn: Turn)
      requires Represents(p)
      modifies this`entries, this`orphans, this`reserved, this`counters, this`capacityWaiters, this`parked,
               this`waiters,
               idleList, repr
      ensures Wf(p) && Represents(PoolModel.ObtainMiss(p, config, key).0)
      ensures PhaseOf(turn) == PoolModel.ObtainMiss(p, config, key).1
      ensures Ours(turn) && fresh(parked - old(parked)) && old(parked) <= parked
    {
      hide Numbered, TableOk, MapOk, ListOk, LogOk, IdleList.Valid, SlotStep;
      RepresentsWf(p);
      MapIs(repr, all, orphans, p.orphans, key);
      if key in orphans {
        var orphan := orphans[key];
        Known(orphan, p);
        if !orphan.disposed {
          Resurrect(key, orphan, p);
          Hit(p.(orphans := p.orphans - {key}, entries := p.entries[key := orphan.id]));
          return Use(orphan);
        }
      }
      if closed {
        return Throw(PoolClosed);
      }
      turn := Miss(p);
    }

    /** Count the miss and go through the capacity gate. */
    method Miss(ghost p: Pool) returns (turn: Turn)
      requires Represents(p)
      modifies this`entries, this`reserved, this`counters, this`capacityWaiters, this`parked, this`waiters,
               idleList, repr
      ensures var z := p.(counters := p.counters.(misses := p.counters.misses + 1));
        Wf(z) && Represents(SlotStep(z, config).0) && PhaseOf(turn) == AfterSlot(SlotStep(z, config)).1
      ensures Ours(turn) && fresh(parked - old(parked)) && old(parked) <= parked
    {
      hide Numbered, TableOk, MapOk, ListOk, LogOk, IdleList.Valid, SlotStep;
      counters := counters.(misses := counters.misses + 1);
      var refusal, waiter := AcquireSlot(p.(counters := p.counters.(misses := p.counters.misses + 1)));
      return AfterGate(refusal, waiter);
    }

    function AfterGate(refusal: Option<Error>, waiter: CapacityWaiter?): Turn {
      if refusal.Some? then Throw(refusal.value) else if waiter != null then AwaitSlot(waiter) else Create
    }

    /** An orphan becomes the live entry again, still condemned. */
    method Resurrect(key: Key, orphan: Entry, ghost p: Pool)
      requires Represents(p) && orphan in repr
      modifies this`entries, this`orphans
      ensures Represents(p.(orphans := p.orphans - {key}, entries := p.entries[key := orphan.id]))
    {
      hide Numbered, TableOk, MapOk, ListOk, LogOk, IdleList.Valid;
      MapWithout(all, orphans, p.orphans, key);
      MapPut(repr, all, entries, p.entries, key, orphan);
      orphans := orphans - {key};
      entries := entries[key := orphan];
    }

    /** obtain after `validate` has answered. */
    method AfterValidate(live: Entry, ok: bool, ghost p: Pool) returns (turn: Turn)
      requires Represents(p) && live in repr
      modifies this`entries, this`orphans, this`counters, idleList, repr
      ensures live.id < |p.table| && Represents(Validated(p, live.id, ok).0)
      ensures PhaseOf(turn) == Validated(p, live.id, ok).1
      ensures Ours(turn)
    {
      hide Numbered, TableOk, MapOk, ListOk, LogOk, IdleList.Valid, PoolModel.RemoveEntry, PoolModel.Dispose,
           PoolModel.Hit;
      Known(live, p);
      if !ok {
        RemoveEntry(live, p);
        Dispose(live, PoolModel.RemoveEntry(p, live.id));
        return AwaitDisposal(live);
      }
      Hit(p);
      return Use(live);
    }

    /** acquireSlot after its waiter has been settled. */
    method AfterWait(waiter: CapacityWaiter, ghost p: Pool) returns (turn: Turn)
      requires Represents(p) && waiter in parked && waiter.settled
      modifies this`entries, this`reserved, this`counters, this`capacityWaiters, this`parked, this`waiters,
               idleList, repr
      ensures Wf(p) && waiter.id < |p.log| && Represents(Resume(p, config, waiter.id).0)
      ensures PhaseOf(turn) == Resume(p, config, waiter.id).1
      ensures Ours(turn) && fresh(parked - old(parked)) && old(parked) <= parked
    {
      hide Numbered, TableOk, MapOk, ListOk, IdleList.Valid, SlotStep;
      RepresentsWf(p);
      if waiter.outcome == TimedOut {
        return Throw(AcquireTimeout);
      }
      if waiter.outcome == ClosedOut {
        return Throw(PoolClosed);
      }
      var refusal, next := AcquireSlot(p);
      return AfterGate(refusal, next);
    }

    /** obtain once the factory has delivered. */
    method AfterFactory(key: Key, now: int, ghost p: Pool) returns (turn: Turn)
      requires Represents(p)
      modifies this`entries, this`reserved, this`counters, this`capacityWaiters, this`repr, this`all,
               idleList, repr, parked
      ensures Wf(p) && Represents(FactoryDone(p, key, now).0) && PhaseOf(turn) == FactoryDone(p, key, now).1
      ensures Ours(turn) && fresh(repr - old(repr)) && old(repr) <= repr
    {
      hide Numbered, TableOk, MapOk, ListOk, LogOk, IdleList.Valid, PoolModel.ReleaseReservation, InsertCreated;
      RepresentsWf(p);
      if closed {
        ReleaseReservation(p);
        return DisposeLate;
      }
      var entry := Insert(key, now, p);
      return Use(entry);
    }

    /** A new entry goes into the map and, held by nobody yet, to the tail of the idle list. */
    method Insert(key: Key, now: int, ghost p: Pool) returns (entry: Entry)
      requires Represents(p)
      modifies this`entries, this`reserved, this`counters, this`repr, this`all, idleList, repr
      ensures Represents(InsertCreated(p, key, now)) && entry in repr && entry.id == |p.table|
      ensures fresh(repr - old(repr)) && old(repr) <= repr
    {
      hide MapOk, ListOk, LogOk, PoolModel.IdleAppend;
      RepresentsWf(p);
      entry := new Entry(key, now, |all|);
      AddEntry(entry, p);
      IdleAppend(entry, Unlisted(p, key, now));
    }

    /** The entry is recorded before it is linked: the reservation is now backed by it. */
    method AddEntry(entry: Entry, ghost p: Pool)
      requires Represents(p) && entry !in repr && entry.id == |all|
      requires entry.Shows(Rec(entry.key, 0, entry.lastReleasedAt, 0, false, Live, 0)) && !entry.inIdle
      modifies this`entries, this`reserved, this`counters, this`repr, this`all
      ensures repr == old(repr) + {entry} && Represents(Unlisted(p, entry.key, entry.lastReleasedAt))
    {
      hide Numbered, TableOk, MapOk, ListOk, LogOk, IdleList.Valid;
      RepresentsWf(p);
      Grown(repr, all, p.table, entry);
      MapPut(repr + {entry}, all + [entry], entries, p.entries, entry.key, entry);
      ListGrown(idleList, repr, entry);
      entries := entries[entry.key := entry];
      reserved := reserved - 1;
      counters := counters.(created := counters.created + 1);
      repr := repr + {entry};
      all := all + [entry];
      Whole(Unlisted(p, entry.key, entry.lastReleasedAt));
    }

    // --- drain ---

    /** One turn of drain's first loop: an idle entry is disposed, a held one handed to the orphans. */
    method DrainEntry(key: Key, ghost p: Pool) returns (entry: Entry)
      requires Represents(p) && key in entries
      modifies this`entries, this`orphans, this`counters, idleList, repr
      ensures Wf(p) && key in p.entries && entry in repr && entry.id == p.entries[key]
      ensures Represents(DrainOne(p, key))
    {
      hide Numbered, TableOk, TableBut, MapOk, ListOk, LogOk, IdleList.Valid, PoolModel.IdleRemove, PoolModel.Dispose;
      RepresentsWf(p);
      MapIs(repr, all, entries, p.entries, key);
      MapWithout(all, entries, p.entries, key);
      entry := entries[key];
      Known(entry, p);
      entries := entries - {key};
      ghost var q := p.(entries := p.entries - {key});
      if entry.refCount == 0 {
        IdleRemove(entry, q);
        Dispose(entry, PoolModel.IdleRemove(q, entry.id));
      } else {
        Orphan(key, entry, q);
      }
    }

    method Orphan(key: Key, entry: Entry, ghost p: Pool)
      requires Represents(p) && entry in repr
      modifies this`orphans, this`counters, repr`condemned
      ensures entry.id < |p.table|
      ensures Represents(SetRec(p, entry.id, p.table[entry.id].(condemned := true))
                .(orphans := p.orphans[key := entry.id], counters := p.counters.(evicted := p.counters.evicted + 1)))
    {
      hide Numbered, TableOk, TableBut, MapOk, ListOk, LogOk, IdleList.Valid;
      Except(repr, all, p.table, entry);
      MapPut(repr, all, orphans, p.orphans, key, entry);
      entry.condemned := true;
      orphans := orphans[key := entry];
      counters := counters.(evicted := counters.evicted + 1);
      Including(repr, all, p.table, entry, p.table[entry.id].(condemned := true));
    }

    /** One turn of its second loop. */
    method CondemnOrphan(key: Key, ghost p: Pool) returns (entry: Entry)
      requires Represents(p) && key in orphans
      modifies repr`condemned
      ensures Wf(p) && key in p.orphans && entry in repr && entry.id == p.orphans[key]
      ensures Represents(CondemnOne(p, key))
    {
      hide Numbered, TableOk, TableBut, MapOk, ListOk, LogOk, IdleList.Valid;
      RepresentsWf(p);
      MapIs(repr, all, orphans, p.orphans, key);
      entry := orphans[key];
      Except(repr, all, p.table, entry);
      entry.condemned := true;
      Including(repr, all, p.table, entry, p.table[entry.id].(condemned := true));
    }

    /** The first loop, over a snapshot of the live entries; it collects those whose disposal is awaited. */
    method DrainLive(ghost p: Pool) returns (waits: set<Entry>)
      requires Represents(p) && Drainable(p)
      modifies this`entries, this`orphans, this`counters, idleList, repr
      ensures Represents(DrainEntries(p, p.entries.Keys))
      ensures waits <= repr && Numbers(waits) == Range(p.entries)
    {
      hide Numbered, TableOk, MapOk, ListOk, LogOk, IdleList.Valid, KeysOk, IdleOk, DrainEntries, DrainOne, Range, Only;
      DrainFirst(p);
      MapKeys(p);
      var todo := entries.Keys;
      ghost var seen: set<Key> := {};
      waits := {};
      RangeEnds(p.entries);
      while todo != {}
        invariant todo !! seen && todo + seen == p.entries.Keys
        invariant Represents(DrainEntries(p, seen))
        invariant waits <= repr && Numbers(waits) == Range(Only(p.entries, seen))
        decreases todo
      {
        var k :| k in todo;
        DrainNext(p, seen, k);
        MapKeys(DrainEntries(p, seen));
        var entry := DrainEntry(k, DrainEntries(p, seen));
        waits := waits + {entry};
        RangeMore(p.entries, seen, k);
        seen := seen + {k};
        todo := todo - {k};
      }
      assert seen == p.entries.Keys;
    }

    lemma MapKeys(p: Pool)
      requires Represents(p)
      ensures entries.Keys == p.entries.Keys && orphans.Keys == p.orphans.Keys
    {
    }

    /** The second loop. */
    method DrainOrphans(ghost p: Pool) returns (waits: set<Entry>)
      requires Represents(p) && Wf(p) && KeyedBy(p.table, p.orphans)
      modifies repr`condemned
      ensures Represents(CondemnOrphans(p))
      ensures waits <= repr && Numbers(waits) == Range(p.orphans)
    {
      hide Numbered, TableOk, MapOk, ListOk, LogOk, IdleList.Valid, CondemnOne, CondemnSome, CondemnOrphans, Range,
           Only, KeyedBy;
      CondemnEnds(p);
      MapKeys(p);
      var todo := orphans.Keys;
      ghost var seen: set<Key> := {};
      waits := {};
      RangeEnds(p.orphans);
      while todo != {}
        invariant todo !! seen && todo + seen == p.orphans.Keys == orphans.Keys
        invariant Represents(CondemnSome(p, seen))
        invariant waits <= repr && Numbers(waits) == Range(Only(p.orphans, seen))
        decreases todo
      {
        var k :| k in todo;
        CondemnNext(p, seen, k);
        var entry := CondemnOrphan(k, CondemnSome(p, seen));
        waits := waits + {entry};
        RangeMore(p.orphans, seen, k);
        seen := seen + {k};
        todo := todo - {k};
      }
      assert seen == p.orphans.Keys;
    }

    /** drain up to its await: it awaits the disposal of every resident entry, and of nothing else. */
    method Drain(ghost p: Pool) returns (waits: set<Entry>)
      requires Represents(p) && Drainable(p)
      modifies this`entries, this`orphans, this`counters, this`closed, this`capacityWaiters, idleList, repr, parked
      ensures Wf(p) && Represents(PoolModel.Drain(p))
      ensures waits <= repr && Numbers(waits) == Range(p.entries) + Range(p.orphans)
    {
      hide Numbered, TableOk, MapOk, ListOk, LogOk, IdleList.Valid, DrainEntries, CondemnOrphans, CloseWaiters,
           Range, Drainable, KeyedBy, PoolModel.Drain;
      SetClosed(p);
      ghost var q := CloseWaiters(p.(closed := true));
      RepresentsWf(q);
      ghost var r := DrainEntries(q, q.entries.Keys);
      DrainPlan(p, q, r);
      waits := DrainLive(q);
      var more := DrainOrphans(r);
      waits := waits + more;
      ResetList(CondemnOrphans(r));
    }

    method ResetList(ghost p: Pool)
      requires Represents(p) && p.idle == []
      modifies idleList
      ensures Represents(p.(idle := []))
    {
      hide Numbered, TableOk, MapOk, LogOk, IdleList.Valid;
      idleList.Reset(repr);
    }

    // --- statistics, reopening ---

    /** Read from sizes and counters, without a scan. */
    method GetStats(ghost p: Pool) returns (s: Stats)
      requires Represents(p) && breakerStats.Valid()
      ensures s == Stats(|p.entries|, |p.entries| + |p.orphans|, |p.idle|, |p.entries| - |p.idle| + |p.orphans|,
                         |p.queue|, p.counters.created, p.counters.disposed, p.counters.evicted, p.counters.hits,
                         p.counters.misses, Tally(breakerStats.told))
    {
      hide Numbered, TableOk, MapOk, ListOk, LogOk, IdleList.Valid;
      Sizes(p);
      var idle := idleList.count;
      return Stats(|entries|, |entries| + |orphans|, idle, |entries| - idle + |orphans|, |capacityWaiters|,
                   counters.created, counters.disposed, counters.evicted, counters.hits, counters.misses,
                   breakerStats.counts);
    }

    method Start(ghost p: Pool)
      requires Represents(p)
      modifies this`closed
      ensures Represents(p.(closed := false))
    {
      hide Numbered, TableOk, MapOk, ListOk, LogOk, IdleList.Valid;
      closed := false;
    }
  }

  /** What a checkout returns. */
  class AcquireHandle {
    const pool: RefCountedLruPool
    const entry: Entry
    var released: bool

    constructor (pool: RefCountedLruPool, entry: Entry)
      ensures this.pool == pool && this.entry == entry && !released
    {
      this.pool, this.entry, released := pool, entry, false;
    }

    /** Its holder has not released it. */
    ghost predicate IsFor(pool: RefCountedLruPool, entry: Entry)
      reads this`released
    {
      this.pool == pool && this.entry == entry && !released
    }

    /** Drops its holder's reference the first time, and does nothing ever after. */
    method Release(now: int, ghost p: Pool)
      requires pool.Represents(p) && entry in pool.repr
      modifies this, pool`entries, pool`orphans, pool`counters, pool`capacityWaiters, pool.idleList, pool.repr,
               pool.parked
      ensures released && Wf(p) && entry.id < |p.table|
      ensures pool.Represents(if old(released) then p else ReleaseEntry(p, entry.id, now))
    {
      hide RefCountedLruPool.Represents, ReleaseEntry;
      pool.Known(entry, p);
      if released {
        return;
      }
      released := true;
      pool.ReleaseEntry(entry, now, p);
    }
  }

  ghost function Numbers(es: set<Entry>): set<nat> { set o | o in es :: o.id }
}
