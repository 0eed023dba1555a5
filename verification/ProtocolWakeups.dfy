/** No lost wake-up: while an acquire is parked, every slot it could use is spoken for. */
module ProtocolWakeups {
  import opened Counting
  import opened PoolModel
  import opened PoolInvariant
  import opened PoolBulk
  import opened MutexModel
  import opened AwaitModel
  import opened Protocol
  import opened ProtocolMutex
  import opened ProtocolPhases
  import opened ProtocolCounts
  import opened ProtocolInvariant
  import opened ProtocolSteps
  import opened ProtocolCapacity

  /** The keys whose entry takeLruIdle could take. */
  function Avail(p: Pool): set<Key>
    requires Wf(p)
  {
    set k | k in p.entries && p.table[p.entries[k]].refCount == 0 && !IsPending(p, k)
  }

  /** Free slots plus entries that can be evicted. */
  function Slack(cfg: Config, p: Pool): int
    requires Wf(p)
  {
    cfg.max - |p.entries| - p.reserved + |Avail(p)|
  }

  function WokenIn(log: seq<WaiterState>): Acq -> bool {
    (x: Acq) => x.phase.Parked? && x.phase.w < |log| && log[x.phase.w].WokenUp?
  }

  function IsReplacing(): Acq -> bool { (x: Acq) => x.phase.Replacing? }

  /** Acquires that have been woken but not run again, and acquires replacing an invalid entry. */
  function Coming(log: seq<WaiterState>, acqs: seq<Acq>): nat {
    Count(acqs, WokenIn(log)) + Count(acqs, IsReplacing())
  }

  predicate WakeInv(cfg: Config, p: Pool, acqs: seq<Acq>) {
    && Wf(p)
    && (cfg.max >= 1 && !p.closed && p.queue != [] ==> Slack(cfg, p) <= Coming(p.log, acqs))
  }

  /** About to fail, for any other reason than a validate that threw. */
  predicate IsGone(x: Acq) { x.phase.Rejected? && x.phase.error != ValidateThrew }

  predicate Threw(x: Acq) { x.phase == Rejected(ValidateThrew) }

  /** Whoever is about to fail left no entry of its key behind, unless validate threw. */
  predicate GoneInv(p: Pool, acqs: seq<Acq>) {
    forall a :: 0 <= a < |acqs| && IsGone(acqs[a]) ==> acqs[a].key !in p.entries
  }

  // --- the number of acquires that are coming ---

  /** Acquire a leaves y for x, and nobody is woken. */
  lemma ComingMoved(log: seq<WaiterState>, acqs: seq<Acq>, a: nat, x: Acq)
    requires a < |acqs|
    ensures Coming(log, acqs[a := x]) + One(WokenIn(log)(acqs[a])) + One(acqs[a].phase.Replacing?)
         == Coming(log, acqs) + One(WokenIn(log)(x)) + One(x.phase.Replacing?)
  {
    CountUpdate(acqs, a, x, WokenIn(log));
    CountUpdate(acqs, a, x, IsReplacing());
  }

  lemma ComingAppended(log: seq<WaiterState>, acqs: seq<Acq>, x: Acq)
    requires !x.phase.Parked? && !x.phase.Replacing?
    ensures Coming(log, acqs + [x]) == Coming(log, acqs)
  {
    CountAppend(acqs, x, WokenIn(log));
    CountAppend(acqs, x, IsReplacing());
  }

  /** A waiter that is not woken makes no difference. */
  lemma ComingSame(log: seq<WaiterState>, log': seq<WaiterState>, acqs: seq<Acq>)
    requires |log| <= |log'| && forall w :: 0 <= w < |log| ==> (log'[w].WokenUp? <==> log[w].WokenUp?)
    requires forall w :: |log| <= w < |log'| ==> !log'[w].WokenUp?
    ensures Coming(log', acqs) == Coming(log, acqs)
  {
    CountAgree(acqs, acqs, WokenIn(log'), WokenIn(log));
  }

  lemma {:induction false} CountGrows(acqs: seq<Acq>, f: Acq -> bool, g: Acq -> bool)
    requires forall i :: 0 <= i < |acqs| && f(acqs[i]) ==> g(acqs[i])
    ensures Count(acqs, f) <= Count(acqs, g)
  {
    if |acqs| > 0 {
      CountGrows(acqs[..|acqs| - 1], f, g);
    }
  }

  /** Waking a waiter announces its acquire. */
  lemma ComingWoken(cfg: Config, p: Pool, acqs: seq<Acq>, owner: seq<nat>)
    requires WaiterInv(cfg, p, acqs, owner) && QueueOk(p.log, p.queue) && p.queue != []
    ensures p.queue[0] < |p.log|
    ensures Coming(WakeWaiter(p).log, acqs) == Coming(p.log, acqs) + 1
  {
    ShiftIsSettle(p, WokenUp);
    var w := p.queue[0];
    var b := owner[w];
    var f, g := WokenIn(p.log), WokenIn(p.log[w := WokenUp]);
    assert acqs[b].phase == Parked(w);
    forall i | 0 <= i < |acqs| && i != b ensures f(acqs[i]) == g(acqs[i]) {
      assert acqs[i].phase.Parked? ==> owner[acqs[i].phase.w] == i;
    }
    CountFlip(acqs, b, f, g);
  }

  // --- slack ---

  lemma SlackFields(cfg: Config, p: Pool, q: Pool)
    requires Wf(p) && Wf(q) && q.entries == p.entries && q.reserved == p.reserved && |q.table| == |p.table|
    requires forall e :: 0 <= e < |p.table| ==> q.table[e].refCount == p.table[e].refCount
    requires q.pending == p.pending
    ensures Slack(cfg, q) == Slack(cfg, p) && Avail(q) == Avail(p)
  {
    assert Avail(q) == Avail(p);
  }

  /** Nothing to evict, or a victim that is available. */
  lemma FreeIsAvail(p: Pool, now: int)
    requires PoolInv(p, now)
    ensures Wf(p)
    ensures var v := FirstFree(p, p.idle);
      if v.None? then Avail(p) == {} else v.value < |p.table| && p.table[v.value].key in Avail(p) && IsLive(p, v.value)
  {
    ResidentsLive(p, now);
    FirstFreeIs(p, p.idle);
    var v := FirstFree(p, p.idle);
    if v.None? {
      forall k | k in p.entries && p.table[p.entries[k]].refCount == 0 ensures IsPending(p, k) {
        var i :| 0 <= i < |p.idle| && p.idle[i] == p.entries[k];
      }
    }
  }

  lemma MapMinus(m: Ids, k: Key)
    requires k in m
    ensures |m - {k}| == |m| - 1
  {
    assert m.Keys == (m - {k}).Keys + {k};
  }

  /** One key less. */
  lemma KeyGone(p: Pool, q: Pool, k: Key)
    requires Wf(p) && Wf(q) && k in p.entries && q.entries == p.entries - {k} && |q.table| == |p.table|
    requires forall e :: 0 <= e < |p.table| ==> q.table[e].refCount == p.table[e].refCount
    requires q.pending == p.pending
    ensures Avail(q) == Avail(p) - {k} && |q.entries| == |p.entries| - 1
  {
    MapMinus(p.entries, k);
    forall l ensures l in Avail(q) <==> l in Avail(p) - {k} {
      assert l in q.entries <==> l in p.entries && l != k;
    }
  }

  lemma EvictSlack(cfg: Config, p: Pool, v: nat)
    requires Wf(p) && IsLive(p, v) && p.table[v].key in Avail(p)
    ensures Wf(Evict(p, v)) && Slack(cfg, Evict(p, v)) == Slack(cfg, p)
    ensures Wf(Displace(p, v)) && Slack(cfg, Displace(p, v)) == Slack(cfg, p) - 1
  {
    WfEvictWake(p, v);
    EvictKey(p, v);
    hide Evict, Wf;
    KeyGone(p, Evict(p, v), p.table[v].key);
    KeyGone(p, Displace(p, v), p.table[v].key);
  }

  lemma EvictKey(p: Pool, v: nat)
    requires v < |p.table|
    ensures Evict(p, v).entries == p.entries - {p.table[v].key} && |Evict(p, v).table| == |p.table|
    ensures Evict(p, v).pending == p.pending && Evict(p, v).reserved == p.reserved
    ensures forall e :: 0 <= e < |p.table| ==> Evict(p, v).table[e].refCount == p.table[e].refCount
    ensures Wf(Evict(p, v)) ==> Wf(Displace(p, v))
  {
  }

  /** A turn at the gate takes a slot, or finds that there is none to take. */
  lemma SlotSlack(cfg: Config, p: Pool, now: int)
    requires PoolInv(p, now) && cfg.max >= 1 && !p.closed
    ensures Wf(p) && Wf(SlotStep(p, cfg).0)
    ensures SlotStep(p, cfg).1.Granted? ==> Slack(cfg, SlotStep(p, cfg).0) <= Slack(cfg, p) - 1
    ensures !SlotStep(p, cfg).1.Granted? ==> Slack(cfg, p) <= 0 && Slack(cfg, SlotStep(p, cfg).0) == Slack(cfg, p)
  {
    hide PoolInv, Evict, Displace, KeysOk;
    ResidentsLive(p, now);
    FreeIsAvail(p, now);
    var v := FirstFree(p, p.idle);
    if |p.entries| + p.reserved < cfg.max {
      ReserveSlack(cfg, p);
    } else if v.Some? {
      EvictSlack(cfg, p, v.value);
    } else {
      ParkSlack(cfg, p);
    }
  }

  lemma ReserveSlack(cfg: Config, p: Pool)
    requires Wf(p)
    ensures var q := p.(reserved := p.reserved + 1); Wf(q) && Slack(cfg, q) == Slack(cfg, p) - 1
  {
    assert Avail(p.(reserved := p.reserved + 1)) == Avail(p);
  }

  lemma ParkSlack(cfg: Config, p: Pool)
    requires Wf(p)
    ensures Wf(Park(p)) && Slack(cfg, Park(p)) == Slack(cfg, p)
  {
    assert Avail(Park(p)) == Avail(p);
  }

  /** A turn at the gate by acquire a, which is no longer coming afterwards. */
  lemma GateWakes(cfg: Config, s: State, a: nat, z: Pool, x: Acq)
    requires WakeInv(cfg, s.pool, s.acqs) && PoolInv(z, s.now) && At(s, a) && AtGate(s.pool, z, s.acqs[a])
    requires !z.closed && cfg.max >= 1
    requires s.acqs[a].phase.Parked? ==> WokenIn(z.log)(s.acqs[a])
    requires Wf(z) && x == s.acqs[a].(phase := AfterSlot(SlotStep(z, cfg)).1)
    ensures WakeInv(cfg, SlotStep(z, cfg).0, s.acqs[a := x])
  {
    hide PoolInv, SlotStep;
    SlotSlack(cfg, z, s.now);
    SlotGated(z, cfg);
    SlotAges(z, cfg);
    SlackFields(cfg, s.pool, z);
    var q := SlotStep(z, cfg).0;
    ComingMoved(z.log, s.acqs, a, x);
    SlotLog(cfg, z);
    ComingSame(z.log, q.log, s.acqs[a := x]);
  }

  lemma SlotLog(cfg: Config, p: Pool)
    requires Wf(p)
    ensures SlotStep(p, cfg).0.log == p.log || SlotStep(p, cfg).0.log == p.log + [Waiting]
    ensures !SlotStep(p, cfg).1.ParkedAs? ==> SlotStep(p, cfg).0.log == p.log && SlotStep(p, cfg).0.queue == p.queue
    ensures SlotStep(p, cfg).0.closed == p.closed
  {
  }

  // --- the other steps of an acquire ---

  /** A step of acquire a that leaves the pool as it is, but for hits. */
  lemma StillWakes(cfg: Config, p: Pool, q: Pool, acqs: seq<Acq>, a: nat, x: Acq)
    requires WakeInv(cfg, p, acqs) && q == p.(counters := q.counters) && a < |acqs|
    requires !WokenIn(p.log)(acqs[a]) && !acqs[a].phase.Replacing?
    ensures WakeInv(cfg, q, acqs[a := x])
  {
    SlackFields(cfg, p, q);
    ComingMoved(p.log, acqs, a, x);
  }

  /** A rejected idle entry frees a slot that its own acquire is coming for. */
  lemma InvalidWakes(cfg: Config, p: Pool, acqs: seq<Acq>, a: nat, e: nat, x: Acq)
    requires WakeInv(cfg, p, acqs) && IsLive(p, e) && IsPending(p, p.table[e].key)
    requires a < |acqs| && acqs[a].phase.Validating? && x.phase.Replacing?
    ensures WakeInv(cfg, Dispose(RemoveEntry(p, e), e), acqs[a := x])
  {
    var q := Dispose(RemoveEntry(p, e), e);
    InvalidKey(p, e);
    hide RemoveEntry, Dispose, Wf;
    KeyGone(p, q, p.table[e].key);
    ComingMoved(p.log, acqs, a, x);
  }

  lemma InvalidKey(p: Pool, e: nat)
    requires IsLive(p, e) && Wf(p)
    ensures |RemoveEntry(p, e).table| == |p.table| && Wf(Dispose(RemoveEntry(p, e), e))
    ensures Dispose(RemoveEntry(p, e), e)
         == p.(table := p.table[e := DisposeRec(p.table[e])], entries := p.entries - {p.table[e].key},
               orphans := Dispose(RemoveEntry(p, e), e).orphans, idle := Without(p.idle, e))
  {
    WfWithout(p, e);
  }

  /** A wake-up pays for one slot. */
  lemma WakePays(cfg: Config, p: Pool, z: Pool, acqs: seq<Acq>, bs: seq<Acq>, owner: seq<nat>)
    requires WakeInv(cfg, p, acqs) && Wf(z) && z.log == p.log && z.queue == p.queue && z.closed == p.closed
    requires cfg.max >= 1 && !z.closed ==> Slack(cfg, z) <= Slack(cfg, p) + 1
    requires Coming(z.log, bs) >= Coming(p.log, acqs)
    requires WaiterInv(cfg, z, bs, owner) && QueueOk(z.log, z.queue)
    ensures WakeInv(cfg, WakeWaiter(z), bs)
  {
    WfWake(z);
    WakeFrame(z);
    if z.queue != [] {
      ComingWoken(cfg, z, bs, owner);
    }
    hide WakeWaiter, WaiterInv, QueueOk;
    SlackFields(cfg, z, WakeWaiter(z));
  }

  /** A failed creation gives back its slot and wakes for it. */
  lemma GiveBackWakes(cfg: Config, s: State, a: nat, x: Acq)
    requires WakeInv(cfg, s.pool, s.acqs) && At(s, a) && s.acqs[a].phase.Creating?
    requires !x.phase.Parked? && !x.phase.Replacing?
    requires WaiterInv(cfg, s.pool, s.acqs, s.owner) && QueueOk(s.pool.log, s.pool.queue)
    ensures WakeInv(cfg, ReleaseReservation(s.pool), s.acqs[a := x])
  {
    var p, z := s.pool, s.pool.(reserved := s.pool.reserved - 1);
    ComingMoved(p.log, s.acqs, a, x);
    assert Avail(z) == Avail(p);
    assert Settling(p, z);
    hide WaiterInv, QueueOk, Settling, WakeWaiter;
    SettlingKeepsWaiters(cfg, p, z, s.acqs, a, x, s.owner);
    WakePays(cfg, p, z, s.acqs, s.acqs[a := x], s.owner);
  }

  /** A new entry is wanted by its own acquire. */
  lemma InsertWakes(cfg: Config, p: Pool, acqs: seq<Acq>, a: nat, k: Key, now: int, x: Acq)
    requires WakeInv(cfg, p, acqs) && k !in p.entries && IsPending(p, k)
    requires a < |acqs| && acqs[a].phase.Creating? && x.phase.Resolved?
    ensures WakeInv(cfg, InsertCreated(p, k, now), acqs[a := x])
  {
    InsertForm(p, k, now);
    var q := InsertCreated(p, k, now);
    assert Wf(q);
    ComingMoved(p.log, acqs, a, x);
    hide InsertCreated;
    assert Avail(q) == Avail(p);
  }

  // --- an acquire ends ---

  /** An entry that becomes or stays in use while its key loses a pending acquire. */
  lemma InUseSlack(cfg: Config, p: Pool, q: Pool, e: nat)
    requires Wf(p) && Wf(q) && CheckedOut(p, q, e) && q.reserved == p.reserved
    requires p.table[e].key in p.entries ==> p.entries[p.table[e].key] == e
    requires forall k :: k in p.entries ==> p.table[p.entries[k]].key == k
    requires forall k :: k != p.table[e].key ==> Pending(q, k) == Pending(p, k)
    ensures Slack(cfg, q) <= Slack(cfg, p)
  {
    AvailShrinks(p, q, e);
    SetSize(Avail(q), Avail(p));
  }

  lemma AvailShrinks(p: Pool, q: Pool, e: nat)
    requires Wf(p) && Wf(q) && CheckedOut(p, q, e)
    requires p.table[e].key in p.entries ==> p.entries[p.table[e].key] == e
    requires forall k :: k in p.entries ==> p.table[p.entries[k]].key == k
    requires forall k :: k != p.table[e].key ==> Pending(q, k) == Pending(p, k)
    ensures Avail(q) <= Avail(p)
  {
    forall k | k in Avail(q) ensures k in Avail(p) {
      assert k != p.table[e].key;
      assert Pending(q, k) == Pending(p, k);
    }
  }

  lemma FinishOkWakes(cfg: Config, s: State, a: nat, x: Acq)
    requires Inv(cfg, s) && Clean(s.pool) && WakeInv(cfg, s.pool, s.acqs)
    requires Enabled(s, Finish(a)) && s.acqs[a].phase.Resolved? && x.phase.Done? && x.key == s.acqs[a].key
    ensures WakeInv(cfg, FinishOk(s.pool, s.acqs[a].phase.e, x.key), s.acqs[a := x])
  {
    var p, e, k := s.pool, s.acqs[a].phase.e, x.key;
    About(cfg, s, a);
    PoolAlive(cfg, s);
    hide Inv, FinishOk, Clean, Wf, CellsWf, Slack, Enabled;
    ComingMoved(p.log, s.acqs, a, x);
    FinishFields(p, k, e);
    if !p.closed {
      LiveWhenOpen(cfg, s, e);
      FinishSlack(cfg, p, e, k);
    }
  }

  lemma FinishFields(p: Pool, k: Key, e: nat)
    requires Wf(p) && e < |p.table|
    ensures var q := FinishOk(p, e, k); Wf(q) && q.log == p.log && q.queue == p.queue && q.closed == p.closed
  {
    FinishCheckedOut(p, k, e);
    FinishWf(p, k, e);
  }

  lemma FinishSlack(cfg: Config, p: Pool, e: nat, k: Key)
    requires Wf(p) && e < |p.table| && p.table[e].key == k
    requires k in p.entries ==> p.entries[k] == e
    requires forall l :: l in p.entries ==> p.table[p.entries[l]].key == l
    ensures Wf(FinishOk(p, e, k)) && Slack(cfg, FinishOk(p, e, k)) <= Slack(cfg, p)
  {
    var q := FinishOk(p, e, k);
    FinishCheckedOut(p, k, e);
    FinishGate(p, k, e);
    FinishWf(p, k, e);
    assert forall l :: l != k ==> Pending(q, l) == Pending(p, l);
    hide FinishOk, CheckedOut, Wf;
    InUseSlack(cfg, p, q, e);
  }

  lemma FinishWf(p: Pool, k: Key, e: nat)
    requires Wf(p) && e < |p.table|
    ensures Wf(FinishOk(p, e, k))
  {
    WfWithout(p, e);
  }

  /** In an open pool an undisposed entry is the live one of its key. */
  lemma LiveWhenOpen(cfg: Config, s: State, e: nat)
    requires Inv(cfg, s) && Clean(s.pool) && !s.pool.closed
    requires e < |s.pool.table| && s.pool.table[e].life.Live?
    ensures IsLive(s.pool, e) && !s.pool.table[e].condemned
  {
    DrainsOf(cfg, s);
    assert RecOk(s.pool.table, s.pool.entries, s.pool.orphans, e);
  }

  /** Pending counts of other keys are left alone. */
  lemma PendingForm(p: Pool, k: Key)
    ensures DecPending(p, k) == p.(pending := DecPending(p, k).pending)
    ensures IncPending(p, k) == p.(pending := IncPending(p, k).pending)
    ensures forall l :: l != k ==> Pending(DecPending(p, k), l) == Pending(p, l)
    ensures forall l :: l != k ==> Pending(IncPending(p, k), l) == Pending(p, l)
  {
  }

  lemma FinishFailedWakes(cfg: Config, s: State, a: nat, x: Acq)
    requires WakeInv(cfg, s.pool, s.acqs) && At(s, a) && s.acqs[a].phase.Rejected? && x.phase.Failed?
    requires s.acqs[a].key !in s.pool.entries
    ensures WakeInv(cfg, DecPending(s.pool, s.acqs[a].key), s.acqs[a := x])
  {
    var p, k := s.pool, s.acqs[a].key;
    var q := DecPending(p, k);
    ComingMoved(p.log, s.acqs, a, x);
    PendingForm(p, k);
    hide DecPending;
    assert Avail(q) == Avail(p) by {
      forall l ensures l in Avail(q) <==> l in Avail(p) {
        assert l != k ==> Pending(q, l) == Pending(p, l);
      }
    }
  }

  /** No other acquire of the key is in flight, and its entry is idle: it becomes evictable when this
      acquire leaves. */
  predicate LeavesIdle(p: Pool, k: Key)
    requires Wf(p)
  {
    Pending(p, k) == 1 && k in p.entries && p.table[p.entries[k]].refCount == 0
  }

  lemma AvailLeft(p: Pool, k: Key)
    requires Wf(p) && IsPending(p, k)
    ensures Wf(DecPending(p, k))
    ensures |Avail(DecPending(p, k))| == |Avail(p)| + One(LeavesIdle(p, k))
  {
    PendingForm(p, k);
    assert Pending(DecPending(p, k), k) == Pending(p, k) - 1;
    hide DecPending, Pending;
    assert Avail(DecPending(p, k)) == if LeavesIdle(p, k) then Avail(p) + {k} else Avail(p);
    assert k !in Avail(p);
  }

  /** The end of an acquire whose validate threw costs the parked acquires nothing: the pool owes them
      nothing, or its entry stays out of reach, or more acquires were coming than there was slack. */
  predicate Harmless(cfg: Config, s: State, a: nat)
    requires At(s, a) && Wf(s.pool)
  {
    Threw(s.acqs[a]) ==>
      || cfg.max <= 0 || s.pool.closed || s.pool.queue == []
      || !LeavesIdle(s.pool, s.acqs[a].key)
      || Slack(cfg, s.pool) < Coming(s.pool.log, s.acqs)
  }

  lemma ThrewWakes(cfg: Config, s: State, a: nat, x: Acq)
    requires WakeInv(cfg, s.pool, s.acqs) && At(s, a) && Threw(s.acqs[a]) && x.phase.Failed?
    requires IsPending(s.pool, s.acqs[a].key)
    ensures WakeInv(cfg, DecPending(s.pool, s.acqs[a].key), s.acqs[a := x]) <==> Harmless(cfg, s, a)
  {
    var p, k := s.pool, s.acqs[a].key;
    ComingMoved(p.log, s.acqs, a, x);
    PendingForm(p, k);
    AvailLeft(p, k);
    hide DecPending, Avail;
  }

  lemma ReleaseSharedWakes(cfg: Config, p: Pool, acqs: seq<Acq>, a: nat, e: nat, x: Acq)
    requires WakeInv(cfg, p, acqs) && e < |p.table| && p.table[e].refCount > 1
    requires a < |acqs| && acqs[a].phase.Done? && x.phase.Done?
    ensures WakeInv(cfg, DropShared(p, e), acqs[a := x])
  {
    var q := DropShared(p, e);
    ComingMoved(p.log, acqs, a, x);
    assert Avail(q) == Avail(p);
  }

  lemma ReleaseLastWakes(cfg: Config, s: State, a: nat, e: nat, x: Acq)
    requires Inv(cfg, s) && WakeInv(cfg, s.pool, s.acqs) && At(s, a)
    requires s.acqs[a].phase == Done(e, false) && x.phase == Done(e, true)
    requires IsLive(s.pool, e) && s.pool.table[e].refCount == 1
    ensures WakeInv(cfg, WakeWaiter(IdleAppend(DropLast(s.pool, e, s.now), e)), s.acqs[a := x])
  {
    var p, z := s.pool, IdleAppend(DropLast(s.pool, e, s.now), e);
    PoolAlive(cfg, s);
    LastSlack(cfg, p, e, s.now);
    assert z.log == p.log && z.queue == p.queue && z.closed == p.closed && Settling(p, z);
    ComingMoved(p.log, s.acqs, a, x);
    WaitersOf(cfg, s);
    hide Inv, WaiterInv, QueueOk, Settling, WakeWaiter, IdleAppend, DropLast;
    SettlingKeepsWaiters(cfg, p, z, s.acqs, a, x, s.owner);
    WakePays(cfg, p, z, s.acqs, s.acqs[a := x], s.owner);
  }

  lemma WaitersOf(cfg: Config, s: State)
    requires Inv(cfg, s)
    ensures WaiterInv(cfg, s.pool, s.acqs, s.owner) && QueueOk(s.pool.log, s.pool.queue)
  {
  }

  lemma LastSlack(cfg: Config, p: Pool, e: nat, now: int)
    requires Wf(p) && IsLive(p, e) && forall l :: l in p.entries ==> p.table[p.entries[l]].key == l
    ensures var z := IdleAppend(DropLast(p, e, now), e); Wf(z) && Slack(cfg, z) <= Slack(cfg, p) + 1
  {
    var z := IdleAppend(DropLast(p, e, now), e);
    var k := p.table[e].key;
    AppendQuiet(DropLast(p, e, now), e);
    forall l | l in Avail(z) && l != k ensures l in Avail(p) {
      assert p.entries[l] != e;
    }
    SetSize(Avail(z), Avail(p) + {k});
  }

  // --- calls, timers and the sweep ---

  lemma SlowCallWakes(cfg: Config, p: Pool, acqs: seq<Acq>, x: Acq)
    requires WakeInv(cfg, p, acqs) && x.phase.Queued?
    ensures WakeInv(cfg, IncPending(p, x.key), acqs + [x])
  {
    var q := IncPending(p, x.key);
    ComingAppended(p.log, acqs, x);
    assert Avail(q) <= Avail(p);
    SetSize(Avail(q), Avail(p));
  }

  lemma FastCallWakes(cfg: Config, p: Pool, acqs: seq<Acq>, k: Key, x: Acq)
    requires WakeInv(cfg, p, acqs) && AcquirePrefix(p, k).1.Some? && x.phase.Done?
    requires forall k :: k in p.entries ==> p.table[p.entries[k]].key == k
    ensures WakeInv(cfg, AcquirePrefix(p, k).0, acqs + [x])
  {
    var e := p.entries[k];
    var q := AcquirePrefix(p, k).0;
    ComingAppended(p.log, acqs, x);
    FastCheckedOut(p, k, e);
    FastRest(p, k, e);
    hide CheckedOut, AcquirePrefix, DecPending, IncPending, Checkout, Hit;
    InUseSlack(cfg, p, q, e);
  }

  lemma FastRest(p: Pool, k: Key, e: nat)
    requires e < |p.table| && Wf(p)
    ensures var q := DecPending(Checkout(Hit(IncPending(p, k)), e), k);
      Wf(q) && q.reserved == p.reserved && forall l :: l != k ==> Pending(q, l) == Pending(p, l)
  {
    var z := Hit(IncPending(p, k));
    PendingForm(p, k);
    hide IncPending, DecPending;
    assert Wf(z) && z.reserved == p.reserved;
    CheckoutWf(z, e);
    PendingForm(Checkout(z, e), k);
    hide Checkout;
    forall l | l != k ensures Pending(DecPending(Checkout(z, e), k), l) == Pending(p, l) {
      assert Pending(Checkout(z, e), l) == Pending(z, l);
      assert Pending(z, l) == Pending(IncPending(p, k), l);
    }
  }

  lemma CheckoutWf(p: Pool, e: nat)
    requires Wf(p) && e < |p.table|
    ensures Wf(Checkout(p, e)) && Checkout(p, e).reserved == p.reserved && Checkout(p, e).pending == p.pending
  {
    WfWithout(p, e);
  }

  lemma TimeoutWakes(cfg: Config, p: Pool, acqs: seq<Acq>, w: nat)
    requires WakeInv(cfg, p, acqs) && w < |p.log| && p.log[w].Waiting?
    ensures WakeInv(cfg, Settle(p, w, TimedOut), acqs)
  {
    var q := Settle(p, w, TimedOut);
    WfSettle(p, w, TimedOut);
    ComingSame(p.log, q.log, acqs);
    SlackFields(cfg, p, q);
  }

  lemma DisposeWakes(cfg: Config, p: Pool, acqs: seq<Acq>, e: nat)
    requires WakeInv(cfg, p, acqs) && e < |p.table|
    ensures WakeInv(cfg, FinishDispose(p, e), acqs)
  {
    SlackFields(cfg, p, FinishDispose(p, e));
  }

  /** Every evicted entry gives up as much slack as it frees, and wakes somebody besides. */
  lemma SweptWakes(cfg: Config, p: Pool, cutoff: int, q: Pool, acqs: seq<Acq>)
    requires WakeInv(cfg, p, acqs) && Wf(q) && SweptTo(p, [], p.idle, cutoff, q)
    requires forall k :: k in p.entries ==> p.table[p.entries[k]].key == k
    requires forall e :: e in p.idle ==> p.table[e].refCount == 0
    ensures WakeInv(cfg, q, acqs)
  {
    SweptSlack(cfg, p, cutoff, q);
    hide Avail, SweptTo;
    if p.queue != [] {
      SweptComing(p, cutoff, q, acqs);
    }
    SweptQueue(p, cutoff, q);
  }

  lemma SweptQueue(p: Pool, cutoff: int, q: Pool)
    requires Wf(p) && SweptTo(p, [], p.idle, cutoff, q)
    ensures p.queue == [] ==> q.queue == []
    ensures q.closed == p.closed
  {
  }

  lemma SweptComing(p: Pool, cutoff: int, q: Pool, acqs: seq<Acq>)
    requires Wf(p) && SweptTo(p, [], p.idle, cutoff, q)
    ensures Coming(q.log, acqs) >= Coming(p.log, acqs)
  {
    CountGrows(acqs, WokenIn(p.log), WokenIn(q.log));
  }

  lemma SweptSlack(cfg: Config, p: Pool, cutoff: int, q: Pool)
    requires Wf(p) && Wf(q) && SweptTo(p, [], p.idle, cutoff, q)
    requires forall k :: k in p.entries ==> p.table[p.entries[k]].key == k
    requires forall e :: e in p.idle ==> p.table[e].refCount == 0
    ensures Slack(cfg, q) == Slack(cfg, p)
  {
    hide Avail, SweptTo, Expired;
    var gone := set k | k in p.entries && p.entries[k] in p.idle && Expired(p, cutoff, p.entries[k]);
    GoneAvail(p, cutoff, gone);
    SweptAvail(p, cutoff, q, gone);
    TakeAway(p.entries.Keys, gone);
    TakeAway(Avail(p), gone);
  }

  lemma GoneAvail(p: Pool, cutoff: int, gone: set<Key>)
    requires Wf(p) && forall k :: k in p.entries ==> p.table[p.entries[k]].key == k
    requires forall e :: e in p.idle ==> e < |p.table| && p.table[e].refCount == 0
    requires gone == set k | k in p.entries && p.entries[k] in p.idle && Expired(p, cutoff, p.entries[k])
    ensures gone <= Avail(p) && gone <= p.entries.Keys
  {
  }

  lemma SweptAvail(p: Pool, cutoff: int, q: Pool, gone: set<Key>)
    requires Wf(p) && Wf(q) && SweptTo(p, [], p.idle, cutoff, q)
    requires gone == set k | k in p.entries && p.entries[k] in p.idle && Expired(p, cutoff, p.entries[k])
    ensures q.entries.Keys == p.entries.Keys - gone && Avail(q) == Avail(p) - gone && q.reserved == p.reserved
  {
    forall k ensures k in Avail(q) <==> k in Avail(p) - gone {
      assert k in q.entries <==> k in p.entries && k !in gone;
    }
  }

  lemma TakeAway(a: set<Key>, b: set<Key>)
    requires b <= a
    ensures |a - b| == |a| - |b|
  {
    assert a == (a - b) + b;
  }

  // --- every step, every run ---

  ghost predicate Lively(cfg: Config, s: State) {
    && Inv(cfg, s) && Clean(s.pool)
    && WakeInv(cfg, s.pool, s.acqs) && GoneInv(s.pool, s.acqs)
  }

  /** A pool that is closed, or parks nobody, or has no bound, owes nothing. */
  lemma NothingOwed(cfg: Config, p: Pool, acqs: seq<Acq>)
    requires Wf(p) && (p.closed || p.queue == [] || cfg.max <= 0)
    ensures WakeInv(cfg, p, acqs)
  {
  }

  lemma MissWakes(cfg: Config, s: State, a: nat)
    requires PoolInv(s.pool, s.now) && Clean(s.pool) && WakeInv(cfg, s.pool, s.acqs)
    requires At(s, a) && (s.acqs[a].phase.Queued? || s.acqs[a].phase.Replacing?)
    requires s.acqs[a].key !in s.pool.entries
    ensures Wf(s.pool)
    ensures WakeInv(cfg, ObtainMiss(s.pool, cfg, s.acqs[a].key).0,
                    s.acqs[a := s.acqs[a].(phase := ObtainMiss(s.pool, cfg, s.acqs[a].key).1)])
  {
    hide PoolInv, WakeInv, Clean, SlotStep, Wf;
    var p, k := s.pool, s.acqs[a].key;
    WakeWf(cfg, p, s.acqs);
    MissKeeps(p, cfg, k, s.now);
    InvIsWf(ObtainMiss(p, cfg, k).0, s.now);
    MissCloses(p, cfg, k);
    if p.closed || cfg.max <= 0 {
      NothingOwed(cfg, ObtainMiss(p, cfg, k).0, s.acqs[a := s.acqs[a].(phase := ObtainMiss(p, cfg, k).1)]);
    } else {
      NoOrphansWhenOpen(p, s.now);
      var z := p.(counters := p.counters.(misses := p.counters.misses + 1));
      OtherFields(p, z, s.now);
      WfCounters(p, z);
      GateWakes(cfg, s, a, z, s.acqs[a].(phase := AfterSlot(SlotStep(z, cfg)).1));
    }
  }

  lemma WakeWf(cfg: Config, p: Pool, acqs: seq<Acq>)
    requires WakeInv(cfg, p, acqs)
    ensures Wf(p)
  {
  }

  lemma MissCloses(p: Pool, cfg: Config, k: Key)
    requires Wf(p)
    ensures ObtainMiss(p, cfg, k).0.closed == p.closed
  {
    hide SlotStep, Wf;
    var z := p.(counters := p.counters.(misses := p.counters.misses + 1));
    WfCounters(p, z);
    SlotLog(cfg, z);
  }

  lemma MovedGate(s: State, a: nat, r: (Pool, Phase))
    requires At(s, a)
    ensures MoveGate(s, a, r).pool == r.0 && MoveGate(s, a, r).acqs == s.acqs[a := s.acqs[a].(phase := r.1)]
  {
  }

  /** The steps inside an acquire keep the promise. */
  lemma AcquireKeepsWakes(cfg: Config, s: State, step: Step)
    requires Lively(cfg, s) && Enabled(s, step) && OfAcquire(step)
    ensures WakeInv(cfg, Apply(cfg, s, step).pool, Apply(cfg, s, step).acqs)
  {
    hide Inv, PoolInv, WakeInv, Clean, GoneInv, SlotStep, Wf, CellsWf, PhaseInv, PendingOk, DrainInv, InsertCreated,
         ReleaseReservation, RemoveEntry, Dispose;
    hide ObtainMiss;
    DrainsOf(cfg, s);
    PoolAlive(cfg, s);
    WaitersOf(cfg, s);
    var p := s.pool;
    match step {
      case Begin(a) =>
        var r := ObtainStart(p, cfg, s.acqs[a].key);
        MovedGate(s, a, r);
        if s.acqs[a].key in p.entries {
          StillWakes(cfg, p, r.0, s.acqs, a, s.acqs[a].(phase := r.1));
        } else {
          MissWakes(cfg, s, a);
        }
      case ValidateDone(a, ok) => ValidatedWakes(cfg, s, a, ok);
      case Replaced(a) =>
        About(cfg, s, a);
        MovedGate(s, a, ObtainMiss(p, cfg, s.acqs[a].key));
        MissWakes(cfg, s, a);
      case Resumed(a) => ResumedWakes(cfg, s, a);
      case CreateDone(a) =>
        About(cfg, s, a);
        var x := s.acqs[a].(phase := FactoryDone(p, s.acqs[a].key, s.now).1);
        if p.closed {
          GiveBackWakes(cfg, s, a, x);
        } else {
          InsertWakes(cfg, p, s.acqs, a, s.acqs[a].key, s.now, x);
        }
      case CreateFail(a) => GiveBackWakes(cfg, s, a, s.acqs[a].(phase := Rejected(FactoryFailed)));
    }
  }

  lemma ValidatedWakes(cfg: Config, s: State, a: nat, ok: bool)
    requires Lively(cfg, s) && Enabled(s, ValidateDone(a, ok))
    ensures WakeInv(cfg, Apply(cfg, s, ValidateDone(a, ok)).pool, Apply(cfg, s, ValidateDone(a, ok)).acqs)
  {
    hide Inv, PoolInv, WakeInv, Clean, GoneInv, Wf, CellsWf, RemoveEntry, Dispose;
    About(cfg, s, a);
    var e := s.acqs[a].phase.e;
    if ok {
      StillWakes(cfg, s.pool, Hit(s.pool), s.acqs, a, s.acqs[a].(phase := Resolved(e)));
    } else {
      InvalidWakes(cfg, s.pool, s.acqs, a, e, s.acqs[a].(phase := Replacing(e)));
    }
  }

  lemma ResumedWakes(cfg: Config, s: State, a: nat)
    requires Lively(cfg, s) && Enabled(s, Resumed(a))
    ensures WakeInv(cfg, Apply(cfg, s, Resumed(a)).pool, Apply(cfg, s, Resumed(a)).acqs)
  {
    hide Inv, PoolInv, WakeInv, Clean, GoneInv, Wf, CellsWf, SlotStep;
    DrainsOf(cfg, s);
    About(cfg, s, a);
    var p, w := s.pool, s.acqs[a].phase.w;
    var r := Resume(p, cfg, w);
    MovedGate(s, a, r);
    var x := s.acqs[a].(phase := r.1);
    if p.log[w].WokenUp? {
      SlotKeeps(p, cfg, s.now);
      InvIsWf(r.0, s.now);
      SlotLog(cfg, p);
      if p.closed || cfg.max <= 0 {
        NothingOwed(cfg, r.0, s.acqs[a := x]);
      } else {
        GateWakes(cfg, s, a, p, x);
      }
    } else {
      StillWakes(cfg, p, p, s.acqs, a, x);
    }
  }

  lemma ReleaseWakes(cfg: Config, s: State, a: nat)
    requires Lively(cfg, s) && Enabled(s, Release(a))
    ensures WakeInv(cfg, Apply(cfg, s, Release(a)).pool, Apply(cfg, s, Release(a)).acqs)
  {
    hide Inv, PoolInv, WakeInv, GoneInv, Wf, CellsWf, IdleAppend, WakeWaiter, RemoveEntry, Dispose, DropShared,
         DropLast, Clean;
    DrainsOf(cfg, s);
    HeldIsCounted(cfg, s, a);
    var p, e := s.pool, s.acqs[a].phase.e;
    var x := s.acqs[a].(phase := Done(e, true));
    ReleaseKeeps(p, e, s.now);
    InvIsWf(ReleaseEntry(p, e, s.now), s.now);
    if p.closed {
      ReleaseLighter(p, e, s.now);
      NothingOwed(cfg, ReleaseEntry(p, e, s.now), s.acqs[a := x]);
    } else {
      LiveWhenOpen(cfg, s, e);
      if p.table[e].refCount > 1 {
        ReleaseSharedWakes(cfg, p, s.acqs, a, e, x);
      } else {
        NoOrphansWhenOpen(p, s.now);
        ReleaseLastWakes(cfg, s, a, e, x);
      }
    }
  }

  lemma FinishWakes(cfg: Config, s: State, a: nat)
    requires Lively(cfg, s) && Enabled(s, Finish(a)) && Harmless(cfg, s, a)
    ensures WakeInv(cfg, Apply(cfg, s, Finish(a)).pool, Apply(cfg, s, Finish(a)).acqs)
  {
    About(cfg, s, a);
    hide Inv, PoolInv, WakeInv, Wf, CellsWf, FinishOk, DecPending, Settled, Clean, Harmless, IsPending;
    if Threw(s.acqs[a]) {
      ThrewWakes(cfg, s, a, s.acqs[a].(phase := Failed(ValidateThrew)));
    } else if s.acqs[a].phase.Resolved? {
      FinishOkWakes(cfg, s, a, s.acqs[a].(phase := Done(s.acqs[a].phase.e, false)));
    } else {
      FinishFailedWakes(cfg, s, a, s.acqs[a].(phase := Failed(s.acqs[a].phase.error)));
    }
  }

  lemma SweepWakes(cfg: Config, s: State)
    requires Lively(cfg, s) && Enabled(s, SweepTimer)
    ensures WakeInv(cfg, Apply(cfg, s, SweepTimer).pool, Apply(cfg, s, SweepTimer).acqs)
  {
    hide Inv, PoolInv, WakeInv, GoneInv, Wf, CellsWf, SweptTo, SweepWalk, Clean;
    DrainsOf(cfg, s);
    PoolAlive(cfg, s);
    var p := s.pool;
    if cfg.idleTtlMs != 0 {
      IdleInTable(p);
      SweepIsFilter(p, [], p.idle, s.now - cfg.idleTtlMs, s.now);
      InvIsWf(Sweep(p, cfg, s.now), s.now);
      IdleUnheld(p, s.now);
      SweptWakes(cfg, p, s.now - cfg.idleTtlMs, Sweep(p, cfg, s.now), s.acqs);
    }
  }

  lemma IdleUnheld(p: Pool, now: int)
    requires PoolInv(p, now)
    ensures forall e :: e in p.idle ==> e < |p.table| && p.table[e].refCount == 0
  {
  }

  lemma CallWakes(cfg: Config, s: State, k: Key)
    requires Lively(cfg, s) && Enabled(s, Call(k))
    ensures WakeInv(cfg, Apply(cfg, s, Call(k)).pool, Apply(cfg, s, Call(k)).acqs)
  {
    hide Inv, PoolInv, WakeInv, GoneInv, Wf, CellsWf, Clean, Enter, DecPending, IncPending, Checkout, Hit;
    PoolAlive(cfg, s);
    WakeWf(cfg, s.pool, s.acqs);
    var (q, fast) := AcquirePrefix(s.pool, k);
    if fast.Some? {
      FastCallWakes(cfg, s.pool, s.acqs, k, Acq(k, 0, Done(fast.value, false)));
    } else {
      SlowCallWakes(cfg, s.pool, s.acqs, Acq(k, Enter(s.mx, k, |s.acqs|, s.now).1, Queued));
    }
  }

  // --- whoever fails left nothing behind ---

  /** Segments that give no key a new entry, but possibly the acquire's own. */
  lemma SlotShrinks(p: Pool, cfg: Config)
    requires Wf(p)
    ensures SlotStep(p, cfg).0.entries.Keys <= p.entries.Keys
  {
  }

  lemma ResumeShrinks(p: Pool, cfg: Config, w: nat)
    requires Wf(p) && w < |p.log|
    ensures forall l :: l in Resume(p, cfg, w).0.entries ==> l in p.entries
  {
    hide SlotStep, Wf;
    SlotShrinks(p, cfg);
  }

  lemma MissGrows(p: Pool, cfg: Config, k: Key)
    requires Wf(p)
    ensures forall l :: l in ObtainMiss(p, cfg, k).0.entries ==> l in p.entries || l == k
    ensures k !in p.entries && ObtainMiss(p, cfg, k).1.Rejected? ==> k !in ObtainMiss(p, cfg, k).0.entries
  {
    hide SlotStep, Wf;
    var z := p.(counters := p.counters.(misses := p.counters.misses + 1));
    WfCounters(p, z);
    SlotShrinks(z, cfg);
  }

  lemma GoneKeeps(cfg: Config, s: State, a: nat, q: Pool, x: Acq)
    requires Inv(cfg, s) && GoneInv(s.pool, s.acqs) && IsHead(s.mx, s.acqs, a) && x.key == s.acqs[a].key
    requires forall l :: l in q.entries ==> l in s.pool.entries || l == x.key
    requires IsGone(x) ==> x.key !in q.entries
    ensures GoneInv(q, s.acqs[a := x])
  {
    hide PoolInv, MutexInv, PhaseInv, CountInv, WaiterInv, BreakerInv, DrainInv;
    var bs := s.acqs[a := x];
    forall b | 0 <= b < |bs| && IsGone(bs[b]) ensures bs[b].key !in q.entries {
      if b != a && bs[b].key == x.key {
        HeadExclusion(s.mx, s.acqs, a, b);
      }
    }
  }

  lemma ValidatedGone(cfg: Config, s: State, a: nat, ok: bool)
    requires Lively(cfg, s) && Enabled(s, ValidateDone(a, ok))
    ensures var t := Apply(cfg, s, ValidateDone(a, ok)); GoneInv(t.pool, t.acqs)
  {
    hide Inv, WakeInv, Clean, GoneInv, Wf, CellsWf, RemoveEntry, Dispose;
    About(cfg, s, a);
    var r := Validated(s.pool, s.acqs[a].phase.e, ok);
    RemovedKeys(s.pool, s.acqs[a].phase.e);
    GoneKeeps(cfg, s, a, r.0, s.acqs[a].(phase := r.1));
  }

  lemma CreatedGone(cfg: Config, s: State, a: nat)
    requires Lively(cfg, s) && Enabled(s, CreateDone(a))
    ensures var t := Apply(cfg, s, CreateDone(a)); GoneInv(t.pool, t.acqs)
  {
    hide Inv, WakeInv, Clean, GoneInv, Wf, CellsWf, InsertCreated, ReleaseReservation;
    About(cfg, s, a);
    var r := FactoryDone(s.pool, s.acqs[a].key, s.now);
    InsertForm(s.pool, s.acqs[a].key, s.now);
    GiveBackKeys(s.pool);
    GoneKeeps(cfg, s, a, r.0, s.acqs[a].(phase := r.1));
  }

  lemma AcquireKeepsGone(cfg: Config, s: State, step: Step)
    requires Lively(cfg, s) && Enabled(s, step) && OfAcquire(step)
    ensures GoneInv(Apply(cfg, s, step).pool, Apply(cfg, s, step).acqs)
  {
    hide Inv, PoolInv, WakeInv, Clean, GoneInv, SlotStep, Wf, CellsWf, InsertCreated, ReleaseReservation, RemoveEntry,
         Dispose, ObtainMiss, AfterSlot;
    PoolAlive(cfg, s);
    var p := s.pool;
    match step {
      case Begin(a) =>
        QueuedHead(cfg, s, a);
        var k := s.acqs[a].key;
        var r := ObtainStart(p, cfg, k);
        MovedGate(s, a, r);
        MissGrows(p, cfg, k);
        GoneKeeps(cfg, s, a, r.0, s.acqs[a].(phase := r.1));
      case ValidateDone(a, ok) => ValidatedGone(cfg, s, a, ok);
      case Replaced(a) =>
        About(cfg, s, a);
        var r := ObtainMiss(p, cfg, s.acqs[a].key);
        MovedGate(s, a, r);
        MissGrows(p, cfg, s.acqs[a].key);
        GoneKeeps(cfg, s, a, r.0, s.acqs[a].(phase := r.1));
      case Resumed(a) =>
        About(cfg, s, a);
        var r := Resume(p, cfg, s.acqs[a].phase.w);
        MovedGate(s, a, r);
        ResumeShrinks(p, cfg, s.acqs[a].phase.w);
        GoneKeeps(cfg, s, a, r.0, s.acqs[a].(phase := r.1));
      case CreateDone(a) => CreatedGone(cfg, s, a);
      case CreateFail(a) =>
        About(cfg, s, a);
        GiveBackKeys(p);
        GoneKeeps(cfg, s, a, ReleaseReservation(p), s.acqs[a].(phase := Rejected(FactoryFailed)));
    }
  }

  lemma RemovedKeys(p: Pool, e: nat)
    requires e < |p.table|
    ensures |RemoveEntry(p, e).table| == |p.table|
    ensures forall k :: k in Dispose(RemoveEntry(p, e), e).entries ==> k in p.entries
  {
  }

  lemma GiveBackKeys(p: Pool)
    requires Wf(p)
    ensures ReleaseReservation(p).entries == p.entries
  {
    WakeFrame(p.(reserved := p.reserved - 1));
  }

  /** The promise does not depend on acquires that stay away from the gate. */
  lemma AsideWakes(cfg: Config, s: State, a: nat, x: Acq)
    requires Lively(cfg, s) && IsHead(s.mx, s.acqs, a) && x.key == s.acqs[a].key
    requires !s.acqs[a].phase.Parked? && !s.acqs[a].phase.Replacing?
    requires IsGone(x) ==> x.key !in s.pool.entries
    ensures WakeInv(cfg, s.pool, s.acqs[a := x]) && GoneInv(s.pool, s.acqs[a := x])
  {
    hide Inv, GoneInv, WakeInv, Clean;
    StillWakes(cfg, s.pool, s.pool, s.acqs, a, x);
    GoneKeeps(cfg, s, a, s.pool, x);
  }

  /** Segments of nobody, calls, releases and ends: no key gains an entry. */
  lemma GoneShrinks(p: Pool, q: Pool, acqs: seq<Acq>, bs: seq<Acq>)
    requires GoneInv(p, acqs) && forall l :: l in q.entries ==> l in p.entries
    requires |acqs| <= |bs|
    requires forall b :: 0 <= b < |bs| && IsGone(bs[b]) ==>
      b < |acqs| && IsGone(acqs[b]) && acqs[b].key == bs[b].key
    ensures GoneInv(q, bs)
  {
  }

  lemma ReleaseKeys(p: Pool, e: nat, now: int)
    requires Wf(p) && e < |p.table|
    ensures forall k :: k in ReleaseEntry(p, e, now).entries ==> k in p.entries
  {
    hide IdleAppend, WakeWaiter, RemoveEntry, Dispose, DropLast, DropShared, Wf;
    var z := DropLast(p, e, now);
    DropKeys(p, e, now);
    RemovedKeys(z, e);
    AppendKeys(z, e);
    if p.table[e].refCount == 1 && !p.table[e].life.Disposed? && !(p.table[e].condemned || IsOrphan(p, e)) {
      WakeFrame(IdleAppend(z, e));
    }
  }

  lemma DropKeys(p: Pool, e: nat, now: int)
    requires e < |p.table| && Wf(p)
    ensures DropLast(p, e, now).entries == p.entries
    ensures |DropLast(p, e, now).table| == |p.table| && Wf(DropLast(p, e, now))
    ensures p.table[e].refCount > 0 ==> DropShared(p, e).entries == p.entries
  {
  }

  lemma AppendKeys(p: Pool, e: nat)
    requires e < |p.table| && Wf(p)
    ensures IdleAppend(p, e).entries == p.entries
    ensures IdleAppend(p, e).queue != [] ==> IdleAppend(p, e).queue[0] < |IdleAppend(p, e).log|
  {
  }

  lemma SweepKeepsKeys(cfg: Config, p: Pool, now: int)
    requires PoolInv(p, now)
    ensures Wf(p) && forall k :: k in Sweep(p, cfg, now).entries ==> k in p.entries
  {
    hide PoolInv, Wf, SweepWalk;
    InvIsWf(p, now);
    if cfg.idleTtlMs != 0 {
      IdleInTable(p);
      SweepIsFilter(p, [], p.idle, now - cfg.idleTtlMs, now);
    }
  }

  /** The steps outside acquires keep the promise. */
  lemma ReleaseKeepsLively(cfg: Config, s: State, a: nat)
    requires Lively(cfg, s) && Enabled(s, Release(a))
    ensures WakeInv(cfg, Apply(cfg, s, Release(a)).pool, Apply(cfg, s, Release(a)).acqs)
    ensures GoneInv(Apply(cfg, s, Release(a)).pool, Apply(cfg, s, Release(a)).acqs)
  {
    hide Inv, WakeInv, Clean, GoneInv, Wf, CellsWf, ReleaseEntry;
    ReleaseWakes(cfg, s, a);
    ReleaseKeys(s.pool, s.acqs[a].phase.e, s.now);
    GoneShrinks(s.pool, Apply(cfg, s, Release(a)).pool, s.acqs, Apply(cfg, s, Release(a)).acqs);
  }

  lemma DrainWakes(cfg: Config, p: Pool, now: int, acqs: seq<Acq>)
    requires PoolInv(p, now) && GoneInv(p, acqs)
    ensures Wf(p) && WakeInv(cfg, Drain(p), acqs) && GoneInv(Drain(p), acqs)
  {
    hide PoolInv, GoneInv, Drain, Quiet, Settling, Drained;
    DrainKeeps(p, now);
    InvIsWf(Drain(p), now);
    DrainEffects(p, now);
    hide Wf;
    NothingOwed(cfg, Drain(p), acqs);
    GoneShrinks(p, Drain(p), acqs, acqs);
  }

  lemma DrainKeepsLively(cfg: Config, s: State)
    requires Lively(cfg, s) && Enabled(s, DrainStart)
    ensures WakeInv(cfg, Apply(cfg, s, DrainStart).pool, Apply(cfg, s, DrainStart).acqs)
    ensures GoneInv(Apply(cfg, s, DrainStart).pool, Apply(cfg, s, DrainStart).acqs)
  {
    DrainsOf(cfg, s);
    hide Inv, PoolInv, WakeInv, Clean, GoneInv, Wf, CellsWf, Drain, PhaseInv, PendingOk, DrainInv, Waits;
    DrainWakes(cfg, s.pool, s.now, s.acqs);
  }

  lemma OtherKeepsLively(cfg: Config, s: State, step: Step)
    requires Lively(cfg, s) && Enabled(s, step) && !OfAcquire(step)
    requires step.Finish? ==> Harmless(cfg, s, step.a)
    ensures WakeInv(cfg, Apply(cfg, s, step).pool, Apply(cfg, s, step).acqs)
    ensures GoneInv(Apply(cfg, s, step).pool, Apply(cfg, s, step).acqs)
  {
    hide Inv, PoolInv, WakeInv, Clean, GoneInv, Wf, CellsWf, ReleaseEntry, Sweep, Drain, PhaseInv, PendingOk, DrainInv;
    hide Settle, Settled, GcCells, Waits, Enter, Checkout, IncPending, DecPending, Hit, FinishOk, PhaseOk, Droppable,
         Harmless;
    DrainsOf(cfg, s);
    var p := s.pool;
    var t := Apply(cfg, s, step);
    match step {
      case Call(k) =>
        CallWakes(cfg, s, k);
        CallKeys(p, k);
        GoneShrinks(p, t.pool, s.acqs, t.acqs);
      case CreateStart(a) =>
        About(cfg, s, a);
        CreateStartPool(cfg, s, a);
        AsideWakes(cfg, s, a, t.acqs[a]);
      case ValidateThrow(a) =>
        About(cfg, s, a);
        AsideWakes(cfg, s, a, t.acqs[a]);
      case LateDone(a) =>
        About(cfg, s, a);
        LateGone(p, s.acqs[a]);
        AsideWakes(cfg, s, a, t.acqs[a]);
      case Finish(a) =>
        FinishWakes(cfg, s, a);
        FinishKeys(s, a);
        GoneShrinks(p, t.pool, s.acqs, t.acqs);
      case Release(a) =>
        ReleaseKeepsLively(cfg, s, a);
      case ReleaseKey(k, a) =>
        ReleaseKeyIsRelease(cfg, s, k, a);
        ReleaseKeepsLively(cfg, s, a);
      case Timeout(w) =>
        TimeoutWakes(cfg, p, s.acqs, w);
        TimeoutKeys(p, w);
        GoneShrinks(p, t.pool, s.acqs, t.acqs);
      case SweepTimer =>
        SweepWakes(cfg, s);
        SweepKeepsKeys(cfg, p, s.now);
        GoneShrinks(p, t.pool, s.acqs, t.acqs);
      case DisposeDone(e) =>
        DisposeWakes(cfg, p, s.acqs, e);
        GoneShrinks(p, t.pool, s.acqs, t.acqs);
      case DrainStart =>
        DrainKeepsLively(cfg, s);
      case Start =>
        StartWakes(cfg, s);
        GoneShrinks(p, t.pool, s.acqs, t.acqs);
      case _ =>
    }
  }

  lemma CallKeys(p: Pool, k: Key)
    requires Wf(p)
    ensures AcquirePrefix(p, k).0.entries == p.entries
  {
  }

  lemma FinishKeys(s: State, a: nat)
    requires Enabled(s, Finish(a))
    ensures FinishStep(s, a).pool.entries == s.pool.entries
    ensures FinishStep(s, a).acqs == s.acqs[a := FinishStep(s, a).acqs[a]] && !IsGone(FinishStep(s, a).acqs[a])
  {
    hide Settled, FinishOk, DecPending, Wf, CellsWf;
    PendingForm(s.pool, s.acqs[a].key);
    if s.acqs[a].phase.Resolved? {
      FinishCheckedOut(s.pool, s.acqs[a].key, s.acqs[a].phase.e);
    }
  }

  lemma TimeoutKeys(p: Pool, w: nat)
    requires w < |p.log|
    ensures Settle(p, w, TimedOut).entries == p.entries
  {
  }

  lemma LateGone(p: Pool, x: Acq)
    requires PhaseOk(p, x) && x.phase.LateDisposing?
    ensures x.key !in p.entries
  {
  }

  lemma StartWakes(cfg: Config, s: State)
    requires Lively(cfg, s)
    ensures WakeInv(cfg, s.pool.(closed := false), s.acqs)
  {
    if s.pool.closed {
      assert s.pool.queue == [];
    } else {
      assert s.pool.(closed := false) == s.pool;
    }
  }

  /** A start() is fresh, and the end of an acquire whose validate threw is harmless. */
  predicate Careful(cfg: Config, s: State, step: Step)
    requires Enabled(s, step)
  {
    StartFresh(s, step) && (step.Finish? ==> Harmless(cfg, s, step.a))
  }

  /** Every step keeps the promise. */
  lemma StepKeepsLively(cfg: Config, s: State, step: Step)
    requires Lively(cfg, s) && CapInv(cfg, s.pool) && Enabled(s, step) && Safe(s, step) && Careful(cfg, s, step)
    ensures Lively(cfg, Apply(cfg, s, step)) && CapInv(cfg, Apply(cfg, s, step).pool)
  {
    hide Inv, WakeInv, GoneInv, Clean, Apply, Enabled, Safe, CapInv, Harmless, StartFresh;
    StepKeeps(cfg, s, step);
    if step.Start? {
      FreshStart(cfg, s);
    }
    StepKeepsCap(cfg, s, step);
    StepKeepsClean(cfg, s, step);
    if OfAcquire(step) {
      AcquireKeepsWakes(cfg, s, step);
      AcquireKeepsGone(cfg, s, step);
    } else {
      OtherKeepsLively(cfg, s, step);
    }
  }

  /** Every step of the run is careful when it is taken. */
  predicate CarefulRun(cfg: Config, s: State, steps: seq<Step>)
    requires Run(cfg, s, steps)
    decreases |steps|
  {
    steps != [] ==> Careful(cfg, s, steps[0]) && CarefulRun(cfg, Apply(cfg, s, steps[0]), steps[1..])
  }

  lemma {:induction false} RunKeepsLively(cfg: Config, s: State, steps: seq<Step>)
    requires Lively(cfg, s) && CapInv(cfg, s.pool) && SafeRun(cfg, s, steps)
    requires Run(cfg, s, steps) && CarefulRun(cfg, s, steps)
    ensures Lively(cfg, End(cfg, s, steps)) && CapInv(cfg, End(cfg, s, steps).pool)
    decreases |steps|
  {
    hide Lively, CapInv, Enabled, Safe, Careful, Apply;
    if steps != [] {
      StepKeepsLively(cfg, s, steps[0]);
      RunKeepsLively(cfg, Apply(cfg, s, steps[0]), steps[1..]);
    }
  }
}
