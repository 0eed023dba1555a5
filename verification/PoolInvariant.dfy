/** The invariant of the pool value, and that every segment keeps it. */
module PoolInvariant {
  import opened Counting
  import opened PoolModel

  type Ids = map<Key, nat>

  /** Each key maps to an entry of that key, and no key is both live and orphaned. */
  predicate KeysOk(t: seq<Rec>, live: Ids, orphans: Ids) {
    && (forall k :: k in live ==> live[k] < |t| && t[live[k]].key == k)
    && (forall k :: k in orphans ==> orphans[k] < |t| && t[orphans[k]].key == k)
    && live.Keys !! orphans.Keys
  }

  /** An entry is undisposed exactly while it is resident; an orphan is condemned, and whatever is
      condemned is held; an entry no longer resident has no holder; dispose was called on exactly
      those, once each. */
  predicate RecOk(t: seq<Rec>, live: Ids, orphans: Ids, e: nat)
    requires e < |t|
  {
    && (t[e].life.Live? <==> Maps(live, t, e) || Maps(orphans, t, e))
    && (Maps(orphans, t, e) ==> t[e].condemned)
    && (t[e].life.Live? && t[e].condemned ==> t[e].refCount > 0)
    && (!t[e].life.Live? ==> t[e].refCount == 0)
    && t[e].disposeCalls == One(!t[e].life.Live?)
  }

  predicate LifeOk(t: seq<Rec>, live: Ids, orphans: Ids) {
    forall e :: 0 <= e < |t| ==> RecOk(t, live, orphans, e)
  }

  /** The idle list holds exactly the live entries without holder, once each. */
  predicate IdleOk(t: seq<Rec>, live: Ids, idle: seq<nat>) {
    && Distinct(idle)
    && (forall e :: e in idle ==> Maps(live, t, e) && t[e].refCount == 0)
    && (forall k :: k in live ==> live[k] < |t| && (t[live[k]].refCount == 0 ==> live[k] in idle))
  }

  function Older(t: seq<Rec>): (nat, nat) -> bool {
    (a: nat, b: nat) =>
      a < |t| && b < |t| && t[a].stamp < t[b].stamp && t[a].lastReleasedAt <= t[b].lastReleasedAt
  }

  /** It runs in append order and in release order. */
  predicate OrderOk(t: seq<Rec>, idle: seq<nat>, stamps: nat, now: int) {
    && Ordered(idle, Older(t))
    && (forall e :: e in idle ==> e < |t| && t[e].stamp < stamps && t[e].lastReleasedAt <= now)
  }

  /** The waiter array holds exactly the unsettled waiters, in park order. */
  predicate QueueOk(log: seq<WaiterState>, queue: seq<nat>) {
    && (forall i, j :: 0 <= i < j < |queue| ==> queue[i] < queue[j])
    && (forall w :: w in queue ==> w < |log| && log[w].Waiting?)
    && (forall w :: 0 <= w < |log| && log[w].Waiting? ==> w in queue)
  }

  /** A closed pool parks nobody and has condemned everything it still holds. */
  predicate ClosedOk(t: seq<Rec>, closed: bool, queue: seq<nat>) {
    closed ==>
      && queue == []
      && forall e :: 0 <= e < |t| && t[e].life.Live? ==> t[e].condemned
  }

  function HasLife(l: Life): Rec -> bool { (r: Rec) => r.life == l }

  predicate CountersOk(t: seq<Rec>, c: Counters) {
    c.created == |t| && c.disposed == Count(t, HasLife(Disposed))
  }

  predicate PoolInv(p: Pool, now: int) {
    && KeysOk(p.table, p.entries, p.orphans)
    && LifeOk(p.table, p.entries, p.orphans)
    && IdleOk(p.table, p.entries, p.idle)
    && OrderOk(p.table, p.idle, p.stamps, now)
    && QueueOk(p.log, p.queue)
    && ClosedOk(p.table, p.closed, p.queue)
    && CountersOk(p.table, p.counters)
  }

  lemma InvIsWf(p: Pool, now: int)
    requires PoolInv(p, now)
    ensures Wf(p)
  {
    forall i | 0 <= i < |p.queue| ensures p.queue[i] < |p.log| {
      assert p.queue[i] in p.queue;
    }
    forall i | 0 <= i < |p.idle| ensures p.idle[i] < |p.table| {
      assert p.idle[i] in p.idle;
    }
  }

  // --- one record changes ---

  /** A record may change as long as its key and its side of disposal stay. */
  lemma CountersSet(t: seq<Rec>, c: Counters, e: nat, r: Rec)
    requires CountersOk(t, c) && e < |t| && t[e].life.Disposed? == r.life.Disposed?
    ensures CountersOk(t[e := r], c)
  {
    CountUpdate(t, e, r, HasLife(Disposed));
  }

  lemma LifeSet(t: seq<Rec>, live: Ids, orphans: Ids, e: nat, r: Rec)
    requires LifeOk(t, live, orphans) && e < |t| && r.key == t[e].key
    requires RecOk(t[e := r], live, orphans, e)
    ensures LifeOk(t[e := r], live, orphans)
  {
    var u := t[e := r];
    forall x | 0 <= x < |u| ensures RecOk(u, live, orphans, x) {
      assert RecOk(t, live, orphans, x);
    }
  }

  /** Order along a list depends on nothing but the two stamps of its members. */
  lemma OrderAgrees(q: seq<nat>, t: seq<Rec>, u: seq<Rec>)
    requires Ordered(q, Older(t)) && |t| <= |u|
    requires forall e :: e in q ==> e < |t| && t[e].stamp == u[e].stamp && t[e].lastReleasedAt == u[e].lastReleasedAt
    ensures Ordered(q, Older(u))
  {
    forall i, j | 0 <= i < j < |q| ensures Older(u)(q[i], q[j]) {
      assert Older(t)(q[i], q[j]);
      assert q[i] in q && q[j] in q;
    }
  }

  // --- unlinking and appending ---

  lemma OrderWithout(t: seq<Rec>, idle: seq<nat>, stamps: nat, now: int, e: nat)
    requires Distinct(idle) && OrderOk(t, idle, stamps, now)
    ensures OrderOk(t, Without(idle, e), stamps, now)
    ensures Distinct(Without(idle, e))
    ensures forall x :: x in Without(idle, e) <==> x in idle && x != e
  {
    WithoutDistinct(idle, e);
    WithoutOrdered(idle, e, Older(t));
  }

  /** The record of an unlisted entry may change freely. */
  lemma OrderSet(t: seq<Rec>, idle: seq<nat>, stamps: nat, now: int, e: nat, r: Rec)
    requires OrderOk(t, idle, stamps, now) && e < |t| && e !in idle
    ensures OrderOk(t[e := r], idle, stamps, now)
  {
    OrderAgrees(idle, t, t[e := r]);
  }

  /** Unlinking e and taking it out of use, by a checkout or by dropping its key. */
  lemma IdleWithout(t: seq<Rec>, live: Ids, idle: seq<nat>, e: nat, live': Ids, r: Rec)
    requires KeysOk(t, live, map[]) && IdleOk(t, live, idle) && e < |t| && r.key == t[e].key
    requires (live' == live && r.refCount > 0) || (live' == live - {t[e].key} && Maps(live, t, e))
    ensures IdleOk(t[e := r], live', Without(idle, e))
  {
    WithoutDistinct(idle, e);
  }

  // --- checkout ---

  lemma CheckoutForm(p: Pool, e: nat)
    requires IdleOk(p.table, p.entries, p.idle) && e < |p.table|
    ensures Checkout(p, e) ==
      p.(table := p.table[e := p.table[e].(refCount := p.table[e].refCount + 1)],
         idle := Without(p.idle, e),
         counters := p.counters.(acquires := p.counters.acquires + 1))
  {
  }

  lemma CheckoutKeeps(p: Pool, e: nat, now: int)
    requires PoolInv(p, now) && e < |p.table| && p.table[e].life.Live?
    ensures PoolInv(Checkout(p, e), now)
  {
    var r := p.table[e].(refCount := p.table[e].refCount + 1);
    CheckoutForm(p, e);
    var q := Checkout(p, e);
    OrderWithout(p.table, p.idle, p.stamps, now, e);
    OrderSet(p.table, q.idle, p.stamps, now, e, r);
    IdleWithout(p.table, p.entries, p.idle, e, p.entries, r);
    CountersSet(p.table, p.counters, e, r);
    assert LifeOk(q.table, q.entries, q.orphans) by {
      assert RecOk(p.table, p.entries, p.orphans, e);
      LifeSet(p.table, p.entries, p.orphans, e, r);
    }
  }

  // --- waiters ---

  lemma QueueSettle(log: seq<WaiterState>, queue: seq<nat>, w: nat, outcome: WaiterState)
    requires QueueOk(log, queue) && w in queue && !outcome.Waiting?
    ensures QueueOk(log[w := outcome], Without(queue, w))
  {
    var less := (a: nat, b: nat) => a < b;
    var q := Without(queue, w);
    WithoutDistinct(queue, w);
    WithoutOrdered(queue, w, less);
    assert forall i, j :: 0 <= i < j < |q| ==> less(q[i], q[j]);
  }

  lemma SettleKeeps(p: Pool, w: nat, outcome: WaiterState, now: int)
    requires PoolInv(p, now) && w < |p.log| && !outcome.Waiting?
    ensures PoolInv(Settle(p, w, outcome), now)
  {
    if p.log[w].Waiting? {
      QueueSettle(p.log, p.queue, w, outcome);
      WithoutIn(p.queue, w);
    }
  }

  /** Shifting the head off the array and settling it is settling the head. */
  lemma ShiftIsSettle(p: Pool, outcome: WaiterState)
    requires QueueOk(p.log, p.queue) && p.queue != []
    ensures p.queue[0] < |p.log| && p.log[p.queue[0]].Waiting?
    ensures ShiftWaiter(p, outcome) == Settle(p, p.queue[0], outcome)
  {
    var w := p.queue[0];
    assert w in p.queue;
    assert w !in p.queue[1..];
    assert Without(p.queue, w) == p.queue[1..];
  }

  lemma WakeKeeps(p: Pool, now: int)
    requires PoolInv(p, now)
    ensures Wf(p) && PoolInv(WakeWaiter(p), now)
  {
    InvIsWf(p, now);
    if p.queue != [] {
      ShiftIsSettle(p, WokenUp);
      SettleKeeps(p, p.queue[0], WokenUp, now);
    }
  }

  // --- an entry leaves the pool ---

  /** Counters that agree on what the invariant mentions. */
  predicate SameTally(c: Counters, d: Counters) { c.created == d.created && c.disposed == d.disposed }

  /** The pool without entry e, whose record becomes r. */
  function Retire(p: Pool, e: nat, r: Rec, c: Counters): Pool
    requires e < |p.table|
  {
    var k := p.table[e].key;
    p.(table := p.table[e := r], counters := c, idle := Without(p.idle, e),
       entries := if IsLive(p, e) then p.entries - {k} else p.entries,
       orphans := if IsOrphan(p, e) then p.orphans - {k} else p.orphans)
  }

  predicate Retired(r: Rec) { r.life.Disposing? && r.refCount == 0 && r.disposeCalls == 1 }

  lemma RetireLife(p: Pool, e: nat, r: Rec, c: Counters, now: int)
    requires PoolInv(p, now) && e < |p.table| && p.table[e].life.Live?
    requires r.key == p.table[e].key && Retired(r)
    ensures KeysOk(Retire(p, e, r, c).table, Retire(p, e, r, c).entries, Retire(p, e, r, c).orphans)
    ensures LifeOk(Retire(p, e, r, c).table, Retire(p, e, r, c).entries, Retire(p, e, r, c).orphans)
  {
    var q := Retire(p, e, r, c);
    assert RecOk(p.table, p.entries, p.orphans, e);
    forall x | 0 <= x < |q.table| ensures RecOk(q.table, q.entries, q.orphans, x) {
      assert RecOk(p.table, p.entries, p.orphans, x);
    }
  }

  lemma RetireKeeps(p: Pool, e: nat, r: Rec, c: Counters, now: int)
    requires PoolInv(p, now) && e < |p.table| && p.table[e].life.Live?
    requires r.key == p.table[e].key && Retired(r) && SameTally(c, p.counters)
    ensures PoolInv(Retire(p, e, r, c), now)
  {
    var q := Retire(p, e, r, c);
    RetireLife(p, e, r, c, now);
    OrderWithout(p.table, p.idle, p.stamps, now, e);
    OrderSet(p.table, q.idle, p.stamps, now, e, r);
    CountersSet(p.table, p.counters, e, r);
    assert IdleOk(q.table, q.entries, q.idle) by {
      assert RecOk(p.table, p.entries, p.orphans, e);
      if IsLive(p, e) {
        IdleWithout(p.table, p.entries, p.idle, e, q.entries, r);
      } else {
        IdleElsewhere(p.table, p.entries, p.idle, e, r);
      }
    }
  }

  /** An entry that is not live is not listed, so its record does not matter to the list. */
  lemma IdleElsewhere(t: seq<Rec>, live: Ids, idle: seq<nat>, e: nat, r: Rec)
    requires KeysOk(t, live, map[]) && IdleOk(t, live, idle) && e < |t| && r.key == t[e].key
    requires !Maps(live, t, e)
    ensures Without(idle, e) == idle && e !in idle
    ensures IdleOk(t[e := r], live, idle)
  {
  }

  /** An LRU or TTL victim. */
  lemma EvictKeeps(p: Pool, v: nat, now: int)
    requires PoolInv(p, now) && v in p.idle
    ensures v < |p.table| && PoolInv(Evict(p, v), now)
  {
    assert RecOk(p.table, p.entries, p.orphans, v);
    var c := p.counters.(evicted := p.counters.evicted + 1);
    RetireKeeps(p, v, DisposeRec(p.table[v]), c, now);
    assert Evict(p, v) == Retire(p, v, DisposeRec(p.table[v]), c);
  }

  /** An idle entry that failed validation. */
  lemma InvalidKeeps(p: Pool, e: nat, now: int)
    requires PoolInv(p, now) && IsLive(p, e) && p.table[e].refCount == 0
    ensures PoolInv(Dispose(RemoveEntry(p, e), e), now)
    ensures Dispose(RemoveEntry(p, e), e) == Retire(p, e, DisposeRec(p.table[e]), p.counters)
  {
    assert RecOk(p.table, p.entries, p.orphans, e);
    RetireKeeps(p, e, DisposeRec(p.table[e]), p.counters, now);
  }

  lemma FinishDisposeKeeps(p: Pool, e: nat, now: int)
    requires PoolInv(p, now) && e < |p.table| && p.table[e].life.Disposing?
    ensures PoolInv(FinishDispose(p, e), now)
  {
    var r := p.table[e].(life := Disposed);
    assert RecOk(p.table, p.entries, p.orphans, e);
    LifeSet(p.table, p.entries, p.orphans, e, r);
    IdleElsewhere(p.table, p.entries, p.idle, e, r);
    OrderSet(p.table, p.idle, p.stamps, now, e, r);
    CountUpdate(p.table, e, r, HasLife(Disposed));
  }

  // --- release ---

  /** A live entry without holder is appended at the recent end. */
  lemma AppendKeeps(t: seq<Rec>, live: Ids, idle: seq<nat>, stamps: nat, now: int, e: nat, r: Rec)
    requires KeysOk(t, live, map[]) && IdleOk(t, live, idle) && OrderOk(t, idle, stamps, now)
    requires Maps(live, t, e) && e !in idle
    requires r.key == t[e].key && r.refCount == 0 && r.stamp == stamps && r.lastReleasedAt == now
    ensures IdleOk(t[e := r], live, idle + [e])
    ensures OrderOk(t[e := r], idle + [e], stamps + 1, now)
  {
    var u := t[e := r];
    OrderAgrees(idle, t, u);
    forall i, j | 0 <= i < j < |idle + [e]| ensures Older(u)((idle + [e])[i], (idle + [e])[j]) {
      if j == |idle| {
        assert idle[i] in idle;
      } else {
        assert Older(u)(idle[i], idle[j]);
      }
    }
    forall k | k in live ensures live[k] < |u| && (u[live[k]].refCount == 0 ==> live[k] in idle + [e]) {
      if live[k] != e && u[live[k]].refCount == 0 {
        assert live[k] in idle;
      }
    }
  }

  lemma RecOf(p: Pool, e: nat, now: int)
    requires PoolInv(p, now) && e < |p.table|
    ensures Wf(p) && RecOk(p.table, p.entries, p.orphans, e)
  {
    InvIsWf(p, now);
  }

  lemma KeysSet(t: seq<Rec>, live: Ids, orphans: Ids, e: nat, r: Rec)
    requires KeysOk(t, live, orphans) && e < |t| && r.key == t[e].key
    ensures KeysOk(t[e := r], live, orphans) && KeysOk(t, live, map[])
  {
  }

  lemma HeldIsUnlisted(t: seq<Rec>, live: Ids, idle: seq<nat>, e: nat)
    requires IdleOk(t, live, idle) && e < |t| && t[e].refCount > 0
    ensures e !in idle && Without(idle, e) == idle
  {
  }

  lemma ReleaseSharedKeeps(p: Pool, e: nat, now: int)
    requires PoolInv(p, now) && e < |p.table| && p.table[e].refCount > 1
    ensures Wf(p) && PoolInv(ReleaseEntry(p, e, now), now)
  {
    RecOf(p, e, now);
    var r := p.table[e].(refCount := p.table[e].refCount - 1);
    SharedRec(p.table, p.entries, p.orphans, e, r);
    hide KeysOk, LifeOk, IdleOk, OrderOk, QueueOk, ClosedOk, CountersOk, RecOk, Wf;
    KeysSet(p.table, p.entries, p.orphans, e, r);
    HeldIsUnlisted(p.table, p.entries, p.idle, e);
    IdleWithout(p.table, p.entries, p.idle, e, p.entries, r);
    LifeSet(p.table, p.entries, p.orphans, e, r);
    OrderSet(p.table, p.idle, p.stamps, now, e, r);
    CountersSet(p.table, p.counters, e, r);
    ClosedSet(p.table, p.closed, p.queue, e, r);
    assert ReleaseEntry(p, e, now) == DropShared(p, e);
  }

  lemma SharedRec(t: seq<Rec>, live: Ids, orphans: Ids, e: nat, r: Rec)
    requires e < |t| && RecOk(t, live, orphans, e) && t[e].refCount > 1 && r == t[e].(refCount := t[e].refCount - 1)
    ensures RecOk(t[e := r], live, orphans, e) && t[e].life.Live?
  {
  }

  lemma ClosedSet(t: seq<Rec>, closed: bool, queue: seq<nat>, e: nat, r: Rec)
    requires ClosedOk(t, closed, queue) && e < |t| && r.life == t[e].life && r.condemned == t[e].condemned
    ensures ClosedOk(t[e := r], closed, queue)
  {
  }

  /** The last release of a live, uncondemned entry, before the wake-up. */
  lemma ReleaseLastKeeps(p: Pool, e: nat, now: int)
    requires PoolInv(p, now) && IsLive(p, e) && p.table[e].refCount == 1 && !p.table[e].condemned
    ensures PoolInv(IdleAppend(DropLast(p, e, now), e), now)
  {
    var r := p.table[e].(refCount := 0, lastReleasedAt := now, stamp := p.stamps);
    assert RecOk(p.table, p.entries, p.orphans, e);
    AppendKeeps(p.table, p.entries, p.idle, p.stamps, now, e, r);
    LifeSet(p.table, p.entries, p.orphans, e, r);
    CountersSet(p.table, p.counters, e, r);
    assert p.table[e := p.table[e].(refCount := 0, lastReleasedAt := now)][e := r] == p.table[e := r];
  }

  lemma ReleaseCondemnedKeeps(p: Pool, e: nat, now: int)
    requires PoolInv(p, now) && e < |p.table| && p.table[e].life.Live?
    requires p.table[e].refCount == 1 && p.table[e].condemned
    ensures Wf(p) && PoolInv(ReleaseEntry(p, e, now), now)
    ensures ReleaseEntry(p, e, now)
         == Retire(p, e, DisposeRec(p.table[e].(refCount := 0, lastReleasedAt := now)), Released(p))
  {
    InvIsWf(p, now);
    assert RecOk(p.table, p.entries, p.orphans, e);
    var r := DisposeRec(p.table[e].(refCount := 0, lastReleasedAt := now));
    RetireKeeps(p, e, r, Released(p), now);
    assert p.table[e := p.table[e].(refCount := 0, lastReleasedAt := now)][e := r] == p.table[e := r];
  }

  /** Dropping a reference keeps the invariant, whatever entry it is given. */
  lemma ReleaseKeeps(p: Pool, e: nat, now: int)
    requires PoolInv(p, now) && e < |p.table|
    ensures Wf(p) && PoolInv(ReleaseEntry(p, e, now), now)
  {
    RecOf(p, e, now);
    hide PoolInv, IdleAppend, WakeWaiter, DropLast;
    if p.table[e].refCount > 1 {
      ReleaseSharedKeeps(p, e, now);
    } else if p.table[e].refCount == 1 {
      if p.table[e].condemned {
        ReleaseCondemnedKeeps(p, e, now);
      } else {
        ReleaseLastKeeps(p, e, now);
        WakeKeeps(IdleAppend(DropLast(p, e, now), e), now);
      }
    }
  }

  // --- creation and resurrection ---

  lemma InsertLife(p: Pool, k: Key, r: Rec, now: int)
    requires PoolInv(p, now) && k !in p.entries && k !in p.orphans
    requires r == Rec(k, 0, now, r.stamp, false, Live, 0)
    ensures KeysOk(p.table + [r], p.entries[k := |p.table|], p.orphans)
    ensures LifeOk(p.table + [r], p.entries[k := |p.table|], p.orphans)
  {
    var t := p.table + [r];
    var live := p.entries[k := |p.table|];
    forall x | 0 <= x < |t| ensures RecOk(t, live, p.orphans, x) {
      if x < |p.table| {
        assert RecOk(p.table, p.entries, p.orphans, x);
      }
    }
  }

  lemma InsertKeeps(p: Pool, k: Key, now: int)
    requires PoolInv(p, now) && k !in p.entries && k !in p.orphans && !p.closed
    ensures PoolInv(InsertCreated(p, k, now), now)
  {
    InvIsWf(p, now);
    var e := |p.table|;
    var r := Rec(k, 0, now, p.stamps, false, Live, 0);
    var u := p.table + [Rec(k, 0, now, 0, false, Live, 0)];
    assert e !in p.idle;
    assert u[e := r] == p.table + [r];
    InsertLife(p, k, r, now);
    InsertIdle(p, k, r, now);
    CountAppend(p.table, r, HasLife(Disposed));
  }

  lemma InsertIdle(p: Pool, k: Key, r: Rec, now: int)
    requires PoolInv(p, now) && k !in p.entries
    requires r == Rec(k, 0, now, p.stamps, false, Live, 0)
    ensures IdleOk(p.table + [r], p.entries[k := |p.table|], p.idle + [|p.table|])
    ensures OrderOk(p.table + [r], p.idle + [|p.table|], p.stamps + 1, now)
  {
    var e, t, u := |p.table|, p.table, p.table + [r];
    var idle := p.idle + [e];
    OrderAgrees(p.idle, t, u);
    forall i, j | 0 <= i < j < |idle| ensures Older(u)(idle[i], idle[j]) {
      if j == |p.idle| {
        assert p.idle[i] in p.idle;
      } else {
        assert Older(u)(p.idle[i], p.idle[j]);
      }
    }
    var live := p.entries[k := e];
    forall x | x in live ensures live[x] < |u| && (u[live[x]].refCount == 0 ==> live[x] in idle) {
      if x != k && t[p.entries[x]].refCount == 0 {
        assert p.entries[x] in p.idle;
      }
    }
  }

  function Resurrected(p: Pool, k: Key): Pool
    requires k in p.orphans
  {
    Hit(p).(orphans := p.orphans - {k}, entries := p.entries[k := p.orphans[k]])
  }

  lemma ResurrectKeeps(p: Pool, k: Key, now: int)
    requires PoolInv(p, now) && k in p.orphans
    ensures PoolInv(Resurrected(p, k), now)
  {
    var q := Resurrected(p, k);
    assert RecOk(p.table, p.entries, p.orphans, p.orphans[k]);
    forall x | 0 <= x < |q.table| ensures RecOk(q.table, q.entries, q.orphans, x) {
      assert RecOk(p.table, p.entries, p.orphans, x);
    }
  }

  // --- the capacity gate ---

  lemma {:induction false} FirstFreeIs(p: Pool, nodes: seq<nat>)
    requires forall i :: 0 <= i < |nodes| ==> nodes[i] < |p.table|
    ensures FirstFree(p, nodes).None? ==> forall i :: 0 <= i < |nodes| ==> IsPending(p, p.table[nodes[i]].key)
    ensures FirstFree(p, nodes).Some? ==>
      exists i :: 0 <= i < |nodes| && nodes[i] == FirstFree(p, nodes).value
                  && !IsPending(p, p.table[nodes[i]].key)
                  && forall j :: 0 <= j < i ==> IsPending(p, p.table[nodes[j]].key)
  {
    if nodes != [] && IsPending(p, p.table[nodes[0]].key) {
      FirstFreeIs(p, nodes[1..]);
      if FirstFree(p, nodes).Some? {
        var i :| 0 <= i < |nodes| - 1 && nodes[1..][i] == FirstFree(p, nodes[1..]).value
              && !IsPending(p, p.table[nodes[1..][i]].key)
              && forall j :: 0 <= j < i ==> IsPending(p, p.table[nodes[1..][j]].key);
        forall j | 0 <= j < i + 1 ensures IsPending(p, p.table[nodes[j]].key) {
          if j > 0 {
            assert nodes[j] == nodes[1..][j - 1];
          }
        }
        assert nodes[i + 1] == FirstFree(p, nodes).value;
      }
    }
  }

  lemma ParkKeeps(p: Pool, now: int)
    requires PoolInv(p, now) && !p.closed
    ensures PoolInv(Park(p), now)
  {
    QueuePark(p.log, p.queue);
  }

  lemma QueuePark(log: seq<WaiterState>, queue: seq<nat>)
    requires QueueOk(log, queue)
    ensures QueueOk(log + [Waiting], queue + [|log|])
  {
    forall i, j | 0 <= i < j < |queue + [|log|]| ensures (queue + [|log|])[i] < (queue + [|log|])[j] {
      assert queue[i] in queue;
    }
  }

  /** What the invariant does not mention may change freely. */
  lemma OtherFields(p: Pool, q: Pool, now: int)
    requires PoolInv(p, now)
    requires q == p.(pending := q.pending, reserved := q.reserved, counters := q.counters)
    requires SameTally(q.counters, p.counters)
    ensures PoolInv(q, now)
  {
  }

  lemma SlotKeeps(p: Pool, cfg: Config, now: int)
    requires PoolInv(p, now)
    ensures Wf(p) && PoolInv(SlotStep(p, cfg).0, now)
  {
    hide PoolInv, Evict;
    InvIsWf(p, now);
    var q := SlotStep(p, cfg).0;
    if cfg.max <= 0 || p.closed {
    } else if |p.entries| + p.reserved < cfg.max {
      OtherFields(p, q, now);
    } else if FirstFree(p, p.idle).Some? {
      EvictKeeps(p, FirstFree(p, p.idle).value, now);
      OtherFields(Evict(p, FirstFree(p, p.idle).value), q, now);
    } else {
      ParkKeeps(p, now);
    }
  }

  lemma ResidentsLive(p: Pool, now: int)
    requires PoolInv(p, now)
    ensures Wf(p) && KeysOk(p.table, p.entries, p.orphans)
    ensures forall k :: k in p.entries ==> p.table[p.entries[k]].life.Live? && p.table[p.entries[k]].key == k
    ensures forall k :: k in p.orphans ==> p.table[p.orphans[k]].life.Live?
    ensures forall k :: k in p.orphans ==> p.table[p.orphans[k]].condemned && p.table[p.orphans[k]].refCount > 0
  {
    InvIsWf(p, now);
    forall k | k in p.entries ensures p.table[p.entries[k]].life.Live? {
      assert RecOk(p.table, p.entries, p.orphans, p.entries[k]);
    }
    forall k | k in p.orphans
      ensures p.table[p.orphans[k]].life.Live? && p.table[p.orphans[k]].condemned && p.table[p.orphans[k]].refCount > 0
    {
      assert RecOk(p.table, p.entries, p.orphans, p.orphans[k]);
    }
  }

  lemma MissKeeps(p: Pool, cfg: Config, k: Key, now: int)
    requires PoolInv(p, now)
    ensures Wf(p) && PoolInv(ObtainMiss(p, cfg, k).0, now)
  {
    hide PoolInv, SlotStep;
    ResidentsLive(p, now);
    if k in p.orphans {
      ResurrectKeeps(p, k, now);
      assert ObtainMiss(p, cfg, k).0 == Resurrected(p, k);
    } else if !p.closed {
      var q := p.(counters := p.counters.(misses := p.counters.misses + 1));
      OtherFields(p, q, now);
      SlotKeeps(q, cfg, now);
    }
  }
}
