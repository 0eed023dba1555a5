/** The pool of packages/core/src/pool.ts as a value: one function for each stretch of code that
    runs to completion between two awaits. The class in HeapPool.dfy is proved to do exactly what
    these functions say, and the protocol in Protocol.dfy interleaves them. */
module PoolModel {
  import opened Counting

  type Key = string

  datatype Option<+T> = None | Some(value: T)

  datatype Error = PoolClosed | PoolExhausted | AcquireTimeout | FactoryFailed | ValidateThrew

  /** `entry.disposing` unset, set, and set with `entry.disposed`. */
  datatype Life = Live | Disposing | Disposed

  /** An entry. `stamp` numbers the appends to the idle list; `disposeCalls` counts calls of the
      user's dispose on this resource. */
  datatype Rec = Rec(key: Key, refCount: nat, lastReleasedAt: int, stamp: nat,
                     condemned: bool, life: Life, disposeCalls: nat)

  /** What became of a capacity waiter; it is `settled` once it is no longer Waiting. */
  datatype WaiterState = Waiting | WokenUp | TimedOut | ClosedOut

  datatype Counters = Counters(created: nat, disposed: nat, evicted: nat, hits: nat, misses: nat,
                               acquires: nat, releases: nat)

  datatype Config = Config(max: int, maxWaiters: Option<nat>, idleTtlMs: int, validates: bool,
                           mutexGcMs: int, perKeyBreakers: bool)

  /** `table` holds every entry ever created, in creation order; an entry's id is its index. `log`
      holds every waiter ever parked, in park order, and `queue` those still in the waiter array. */
  datatype Pool = Pool(table: seq<Rec>, entries: map<Key, nat>, orphans: map<Key, nat>,
                       idle: seq<nat>, stamps: nat, pending: map<Key, nat>, reserved: int,
                       closed: bool, log: seq<WaiterState>, queue: seq<nat>, counters: Counters)

  /** Where an acquire stands between two of its steps. */
  datatype Phase =
    | Queued
    | Validating(e: nat)
    | Replacing(e: nat)
    | Parked(w: nat)
    | Reserved
    | Creating(breaker: nat)
    | LateDisposing
    | Resolved(e: nat)
    | Rejected(error: Error)
    | Done(e: nat, released: bool)
    | Failed(error: Error)

  const EMPTY_POOL := Pool([], map[], map[], [], 0, map[], 0, false, [], [],
                          Counters(0, 0, 0, 0, 0, 0, 0))

  /** Every id names an entry, every queued number a waiter. */
  predicate Wf(p: Pool) {
    && (forall k :: k in p.entries ==> p.entries[k] < |p.table|)
    && (forall k :: k in p.orphans ==> p.orphans[k] < |p.table|)
    && (forall i :: 0 <= i < |p.idle| ==> p.idle[i] < |p.table|)
    && (forall i :: 0 <= i < |p.queue| ==> p.queue[i] < |p.log|)
  }

  // --- pending acquires ---

  function Pending(p: Pool, k: Key): nat { if k in p.pending then p.pending[k] else 0 }

  predicate IsPending(p: Pool, k: Key) { Pending(p, k) > 0 }

  function IncPending(p: Pool, k: Key): Pool { p.(pending := p.pending[k := Pending(p, k) + 1]) }

  function DecPending(p: Pool, k: Key): Pool {
    var next := Pending(p, k) - 1;
    if next <= 0 then p.(pending := p.pending - {k}) else p.(pending := p.pending[k := next])
  }

  // --- idle list, entries, disposal ---

  function SetRec(p: Pool, e: nat, r: Rec): Pool
    requires e < |p.table|
  {
    p.(table := p.table[e := r])
  }

  function IdleAppend(p: Pool, e: nat): Pool
    requires e < |p.table|
  {
    if e in p.idle then p
    else SetRec(p, e, p.table[e].(stamp := p.stamps)).(idle := p.idle + [e], stamps := p.stamps + 1)
  }

  function IdleRemove(p: Pool, e: nat): Pool { p.(idle := Without(p.idle, e)) }

  function RemoveEntry(p: Pool, e: nat): Pool
    requires e < |p.table|
  {
    var k := p.table[e].key;
    IdleRemove(p, e).(
      entries := if k in p.entries && p.entries[k] == e then p.entries - {k} else p.entries,
      orphans := if k in p.orphans && p.orphans[k] == e then p.orphans - {k} else p.orphans)
  }

  function DisposeRec(r: Rec): Rec {
    if r.life.Live? then r.(life := Disposing, disposeCalls := r.disposeCalls + 1) else r
  }

  function Dispose(p: Pool, e: nat): Pool
    requires e < |p.table|
  {
    SetRec(p, e, DisposeRec(p.table[e]))
  }

  function FinishDispose(p: Pool, e: nat): Pool
    requires e < |p.table|
  {
    SetRec(p, e, p.table[e].(life := Disposed))
      .(counters := p.counters.(disposed := p.counters.disposed + 1))
  }

  // --- waiters ---

  function Settle(p: Pool, w: nat, outcome: WaiterState): Pool
    requires w < |p.log|
  {
    if !p.log[w].Waiting? then p
    else p.(log := p.log[w := outcome], queue := Without(p.queue, w))
  }

  function ShiftWaiter(p: Pool, outcome: WaiterState): Pool
    requires p.queue != [] && p.queue[0] < |p.log|
  {
    Settle(p.(queue := p.queue[1..]), p.queue[0], outcome)
  }

  function WakeWaiter(p: Pool): Pool
    requires p.queue != [] ==> p.queue[0] < |p.log|
  {
    if p.queue == [] then p else ShiftWaiter(p, WokenUp)
  }

  lemma WithoutIn<T>(q: seq<T>, e: T)
    ensures |Without(q, e)| <= |q|
    ensures forall i :: 0 <= i < |Without(q, e)| ==> Without(q, e)[i] in q
  {
  }

  function CloseWaiters(p: Pool): Pool
    requires forall i :: 0 <= i < |p.queue| ==> p.queue[i] < |p.log|
    decreases |p.queue|
  {
    if p.queue == [] then p
    else
      WithoutIn(p.queue[1..], p.queue[0]);
      CloseWaiters(ShiftWaiter(p, ClosedOut))
  }

  // --- checkout and release ---

  function Checkout(p: Pool, e: nat): Pool
    requires e < |p.table|
  {
    var q := if p.table[e].refCount == 0 then IdleRemove(p, e) else p;
    SetRec(q, e, p.table[e].(refCount := p.table[e].refCount + 1))
      .(counters := p.counters.(acquires := p.counters.acquires + 1))
  }

  function Released(p: Pool): Counters { p.counters.(releases := p.counters.releases + 1) }

  /** One reference less, of several. */
  function DropShared(p: Pool, e: nat): Pool
    requires e < |p.table| && p.table[e].refCount > 0
  {
    SetRec(p, e, p.table[e].(refCount := p.table[e].refCount - 1)).(counters := Released(p))
  }

  /** The last reference less, before the entry is appended or disposed. */
  function DropLast(p: Pool, e: nat, now: int): Pool
    requires e < |p.table|
  {
    SetRec(p, e, p.table[e].(refCount := 0, lastReleasedAt := now)).(counters := Released(p))
  }

  function ReleaseEntry(p: Pool, e: nat, now: int): Pool
    requires Wf(p) && e < |p.table|
  {
    var r := p.table[e];
    if r.life.Disposed? || r.refCount == 0 then p
    else if r.refCount > 1 then DropShared(p, e)
    else
      var z := DropLast(p, e, now);
      if r.condemned || (r.key in p.orphans && p.orphans[r.key] == e)
      then Dispose(RemoveEntry(z, e), e)
      else WakeWaiter(IdleAppend(z, e))
  }

  /** `release(key)`: drop one reference of the live, else the orphaned, entry of a key. */
  function ReleaseByKey(p: Pool, k: Key, now: int): Pool
    requires Wf(p)
  {
    if k in p.entries then ReleaseEntry(p, p.entries[k], now)
    else if k in p.orphans then ReleaseEntry(p, p.orphans[k], now)
    else p
  }

  // --- eviction ---

  /** The first of these entries whose key has no acquire in flight. */
  function FirstFree(p: Pool, nodes: seq<nat>): (v: Option<nat>)
    requires forall i :: 0 <= i < |nodes| ==> nodes[i] < |p.table|
    ensures v.Some? ==> v.value in nodes
  {
    if nodes == [] then None
    else if !IsPending(p, p.table[nodes[0]].key) then Some(nodes[0])
    else FirstFree(p, nodes[1..])
  }

  /** takeLruIdle's victim is unlinked and its key leaves the live map. */
  function Detach(p: Pool, v: nat): Pool
    requires v < |p.table|
  {
    IdleRemove(p, v).(entries := p.entries - {p.table[v].key})
  }

  function Evict(p: Pool, v: nat): Pool
    requires v < |p.table|
  {
    Dispose(Detach(p, v).(counters := p.counters.(evicted := p.counters.evicted + 1)), v)
  }

  /** The TTL walk over the idle list, which is read before each node is unlinked. */
  function SweepWalk(p: Pool, nodes: seq<nat>, cutoff: int): Pool
    requires Wf(p)
    requires forall i :: 0 <= i < |nodes| ==> nodes[i] < |p.table|
    decreases |nodes|
  {
    if nodes == [] || p.table[nodes[0]].lastReleasedAt > cutoff then p
    else if IsPending(p, p.table[nodes[0]].key) then SweepWalk(p, nodes[1..], cutoff)
    else
      WfEvictWake(p, nodes[0]);
      SweepWalk(WakeWaiter(Evict(p, nodes[0])), nodes[1..], cutoff)
  }

  function Sweep(p: Pool, cfg: Config, now: int): Pool
    requires Wf(p)
  {
    if cfg.idleTtlMs == 0 then p else SweepWalk(p, p.idle, now - cfg.idleTtlMs)
  }

  // --- capacity ---

  datatype SlotResult = Granted | Refused(error: Error) | ParkedAs(w: nat)

  /** The slot of an evicted victim is reserved at once. */
  function Displace(p: Pool, v: nat): Pool
    requires v < |p.table|
  {
    Evict(p, v).(reserved := p.reserved + 1)
  }

  function Park(p: Pool): Pool { p.(log := p.log + [Waiting], queue := p.queue + [|p.log|]) }

  /** One turn of acquireSlot's loop, up to its return, its throw or its await. */
  function SlotStep(p: Pool, cfg: Config): (Pool, SlotResult)
    requires Wf(p)
  {
    if cfg.max <= 0 then (p, Granted)
    else if p.closed then (p, Refused(PoolClosed))
    else if |p.entries| + p.reserved < cfg.max then (p.(reserved := p.reserved + 1), Granted)
    else
      var v := FirstFree(p, p.idle);
      if v.Some? then (Displace(p, v.value), Granted)
      else if cfg.maxWaiters.Some? && |p.queue| >= cfg.maxWaiters.value then
        (p, Refused(PoolExhausted))
      else (Park(p), ParkedAs(|p.log|))
  }

  function ReleaseReservation(p: Pool): Pool
    requires Wf(p)
  {
    WakeWaiter(p.(reserved := p.reserved - 1))
  }

  // --- the segments of acquire and obtain ---

  /** acquire up to its first await: the fast path checks out a held entry at once. */
  function AcquirePrefix(p: Pool, k: Key): (Pool, Option<nat>)
    requires Wf(p)
  {
    var q := IncPending(p, k);
    if k in p.entries && !p.table[p.entries[k]].life.Disposed? && p.table[p.entries[k]].refCount > 0
    then (DecPending(Checkout(Hit(q), p.entries[k]), k), Some(p.entries[k]))
    else (q, None)
  }

  function Hit(p: Pool): Pool { p.(counters := p.counters.(hits := p.counters.hits + 1)) }

  /** obtain up to its first await. */
  function ObtainStart(p: Pool, cfg: Config, k: Key): (Pool, Phase)
    requires Wf(p)
  {
    if k in p.entries && !p.table[p.entries[k]].life.Disposed? then
      var e := p.entries[k];
      if p.table[e].refCount == 0 && cfg.validates then (p, Validating(e))
      else (Hit(p), Resolved(e))
    else ObtainMiss(p, cfg, k)
  }

  /** obtain once no live entry is usable: resurrect, refuse, or go for a slot. */
  function ObtainMiss(p: Pool, cfg: Config, k: Key): (Pool, Phase)
    requires Wf(p)
  {
    if k in p.orphans && !p.table[p.orphans[k]].life.Disposed? then
      (Hit(p).(orphans := p.orphans - {k}, entries := p.entries[k := p.orphans[k]]),
       Resolved(p.orphans[k]))
    else if p.closed then (p, Rejected(PoolClosed))
    else AfterSlot(SlotStep(p.(counters := p.counters.(misses := p.counters.misses + 1)), cfg))
  }

  function AfterSlot(r: (Pool, SlotResult)): (Pool, Phase) {
    (r.0, match r.1
          case Granted => Reserved
          case Refused(error) => Rejected(error)
          case ParkedAs(w) => Parked(w))
  }

  /** obtain after `validate` has answered. */
  function Validated(p: Pool, e: nat, ok: bool): (Pool, Phase)
    requires e < |p.table|
  {
    if ok then (Hit(p), Resolved(e)) else (Dispose(RemoveEntry(p, e), e), Replacing(e))
  }

  /** acquireSlot after a waiter has been settled. */
  function Resume(p: Pool, cfg: Config, w: nat): (Pool, Phase)
    requires Wf(p) && w < |p.log|
  {
    match p.log[w]
    case Waiting => (p, Parked(w))
    case WokenUp => AfterSlot(SlotStep(p, cfg))
    case TimedOut => (p, Rejected(AcquireTimeout))
    case ClosedOut => (p, Rejected(PoolClosed))
  }

  function InsertCreated(p: Pool, k: Key, now: int): Pool {
    var e := |p.table|;
    IdleAppend(p.(table := p.table + [Rec(k, 0, now, 0, false, Live, 0)],
                  entries := p.entries[k := e], reserved := p.reserved - 1,
                  counters := p.counters.(created := p.counters.created + 1)), e)
  }

  /** obtain once the factory has delivered. */
  function FactoryDone(p: Pool, k: Key, now: int): (Pool, Phase)
    requires Wf(p)
  {
    if p.closed then (ReleaseReservation(p), LateDisposing)
    else (InsertCreated(p, k, now), Resolved(|p.table|))
  }

  /** acquire after obtain has resolved. */
  function FinishOk(p: Pool, e: nat, k: Key): Pool
    requires e < |p.table|
  {
    DecPending(Checkout(p, e), k)
  }

  // --- drain ---

  /** Entry e is the one the map has for its key. */
  predicate Maps(m: map<Key, nat>, t: seq<Rec>, e: nat) {
    e < |t| && t[e].key in m && m[t[e].key] == e
  }

  /** The ids a map leads to. */
  function Range(m: map<Key, nat>): set<nat> { set k | k in m :: m[k] }

  predicate IsLive(p: Pool, e: nat) { Maps(p.entries, p.table, e) }

  predicate IsOrphan(p: Pool, e: nat) { Maps(p.orphans, p.table, e) }

  /** The live entries with a holder among some keys: those that drain hands to the orphans. */
  function Held(p: Pool, keys: set<Key>): map<Key, nat>
    requires Wf(p)
  {
    map k | k in keys && k in p.entries && p.table[p.entries[k]].refCount > 0 :: p.entries[k]
  }

  /** drain's first loop after it has visited the entries of some keys. */
  function DrainEntries(p: Pool, keys: set<Key>): Pool
    requires Wf(p)
  {
    p.(table := seq(|p.table|, e requires 0 <= e < |p.table| => 
                 if !(IsLive(p, e) && p.table[e].key in keys) then p.table[e]
                 else if p.table[e].refCount == 0 then DisposeRec(p.table[e])
                 else p.table[e].(condemned := true)),
       entries := p.entries - keys,
       orphans := p.orphans + Held(p, keys),
       idle := Outside(p, p.idle, keys),
       counters := p.counters.(evicted := p.counters.evicted + |Held(p, keys)|))
  }

  /** The idle entries that are not the live entry of one of the keys. */
  function Outside(p: Pool, q: seq<nat>, keys: set<Key>): seq<nat>
    requires forall i :: 0 <= i < |q| ==> q[i] < |p.table|
  {
    if q == [] then []
    else (if IsLive(p, q[0]) && p.table[q[0]].key in keys then [] else [q[0]]) + Outside(p, q[1..], keys)
  }

  /** drain's second loop. */
  function CondemnOrphans(p: Pool): Pool {
    p.(table := seq(|p.table|, e requires 0 <= e < |p.table| =>
         if IsOrphan(p, e) then p.table[e].(condemned := true) else p.table[e]))
  }

  /** drain up to its await. */
  function Drain(p: Pool): Pool
    requires Wf(p)
  {
    WfClose(p.(closed := true));
    var q := CloseWaiters(p.(closed := true));
    WfDrainEntries(q, q.entries.Keys);
    CondemnOrphans(DrainEntries(q, q.entries.Keys)).(idle := [])
  }

  // --- well-formedness of what these functions return ---

  lemma WfWithout(p: Pool, e: nat)
    requires Wf(p)
    ensures Wf(IdleRemove(p, e))
  {
    WithoutIn(p.idle, e);
  }

  lemma WfSettle(p: Pool, w: nat, outcome: WaiterState)
    requires Wf(p) && w < |p.log|
    ensures Wf(Settle(p, w, outcome))
  {
    WithoutIn(p.queue, w);
  }

  lemma WfWake(p: Pool)
    requires Wf(p)
    ensures Wf(WakeWaiter(p))
  {
    if p.queue != [] {
      WfSettle(p.(queue := p.queue[1..]), p.queue[0], WokenUp);
    }
  }

  /** Waking touches the waiters only. */
  lemma WakeFrame(p: Pool)
    requires p.queue != [] ==> p.queue[0] < |p.log|
    ensures WakeWaiter(p) == p.(log := WakeWaiter(p).log, queue := WakeWaiter(p).queue)
    ensures |WakeWaiter(p).log| == |p.log|
  {
  }

  lemma {:induction false} WfClose(p: Pool)
    requires Wf(p)
    ensures Wf(CloseWaiters(p))
    ensures CloseWaiters(p) == p.(log := CloseWaiters(p).log, queue := [])
    ensures |CloseWaiters(p).log| == |p.log|
    decreases |p.queue|
  {
    if p.queue != [] {
      WithoutIn(p.queue[1..], p.queue[0]);
      WfSettle(p.(queue := p.queue[1..]), p.queue[0], ClosedOut);
      WfClose(ShiftWaiter(p, ClosedOut));
    }
  }

  lemma WfEvictWake(p: Pool, v: nat)
    requires Wf(p) && v < |p.table|
    ensures Wf(Evict(p, v)) && Wf(WakeWaiter(Evict(p, v)))
    ensures |WakeWaiter(Evict(p, v)).table| == |p.table|
  {
    WfWithout(p, v);
    WfWake(Evict(p, v));
  }

  lemma OutsideIn(p: Pool, q: seq<nat>, keys: set<Key>)
    requires forall i :: 0 <= i < |q| ==> q[i] < |p.table|
    ensures forall x :: x in Outside(p, q, keys) <==> x in q && !(IsLive(p, x) && p.table[x].key in keys)
  {
  }

  lemma WfDrainEntries(p: Pool, keys: set<Key>)
    requires Wf(p)
    ensures Wf(DrainEntries(p, keys))
  {
    OutsideIn(p, p.idle, keys);
    var q := DrainEntries(p, keys);
    forall i | 0 <= i < |q.idle| ensures q.idle[i] < |q.table| {
      assert q.idle[i] in p.idle;
    }
  }
}
