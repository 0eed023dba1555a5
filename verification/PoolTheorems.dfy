/** What the invariant of the pool says to its users: eviction is least-recently-used over a full
    scan, the statistics are a full scan, and every resource is accounted for. */
module PoolTheorems {
  import opened Counting
  import opened PoolModel
  import opened PoolInvariant
  import opened PoolBulk

  // --- takeLruIdle is a full-scan LRU ---

  /** An entry takeLruIdle may take: live, without holder, wanted by no acquire in flight. */
  predicate Evictable(p: Pool, e: nat) {
    IsLive(p, e) && p.table[e].refCount == 0 && !IsPending(p, p.table[e].key)
  }

  /** The answer of a scan of the whole table for the evictable entry that was appended first. */
  predicate ScanAnswers(p: Pool, v: Option<nat>) {
    match v
    case None => forall e :: 0 <= e < |p.table| ==> !Evictable(p, e)
    case Some(x) => Evictable(p, x)
                    && forall e :: 0 <= e < |p.table| && Evictable(p, e) ==>
                         e == x || p.table[x].stamp < p.table[e].stamp
  }

  lemma LruIsFullScan(p: Pool, now: int)
    requires PoolInv(p, now)
    ensures Wf(p)
    ensures forall v: Option<nat> :: ScanAnswers(p, v) <==> v == FirstFree(p, p.idle)
  {
    InvIsWf(p, now);
    var v := FirstFree(p, p.idle);
    FirstFreeIs(p, p.idle);
    forall e | 0 <= e < |p.table| && Evictable(p, e) ensures e in p.idle {
      assert p.entries[p.table[e].key] == e;
    }
    if v.Some? {
      var i :| 0 <= i < |p.idle| && p.idle[i] == v.value && !IsPending(p, p.table[p.idle[i]].key)
            && forall j :: 0 <= j < i ==> IsPending(p, p.table[p.idle[j]].key);
      assert p.idle[i] in p.idle;
      forall e | 0 <= e < |p.table| && Evictable(p, e) && e != v.value
        ensures p.table[v.value].stamp < p.table[e].stamp
      {
        var j :| 0 <= j < |p.idle| && p.idle[j] == e;
        assert i < j;
        assert Older(p.table)(p.idle[i], p.idle[j]);
      }
    }
    assert ScanAnswers(p, v);
  }

  /** Taking the victim leaves the rest of the list in order; what stood before it is pending. */
  lemma LruKeepsOrder(p: Pool, now: int) returns (before: seq<nat>, after: seq<nat>)
    requires PoolInv(p, now) && Wf(p) && FirstFree(p, p.idle).Some?
    ensures var v := FirstFree(p, p.idle).value; p.idle == before + [v] + after && Detach(p, v).idle == before + after
    ensures forall e :: e in before ==> e < |p.table| && IsPending(p, p.table[e].key)
  {
    IdleDistinct(p, now);
    hide PoolInv, Without, IsPending;
    FirstFreeIs(p, p.idle);
    var v := FirstFree(p, p.idle).value;
    var i :| 0 <= i < |p.idle| && p.idle[i] == v && !IsPending(p, p.table[p.idle[i]].key)
          && forall j :: 0 <= j < i ==> IsPending(p, p.table[p.idle[j]].key);
    before, after := p.idle[..i], p.idle[i + 1..];
    WithoutPosition(p.idle, i);
  }

  lemma IdleDistinct(p: Pool, now: int)
    requires PoolInv(p, now)
    ensures Distinct(p.idle)
  {
  }

  lemma WithoutPosition(q: seq<nat>, i: nat)
    requires Distinct(q) && i < |q|
    ensures Without(q, q[i]) == q[..i] + q[i + 1..] && q == q[..i] + [q[i]] + q[i + 1..]
  {
    IndexDistinct(q, i);
  }

  // --- the sweep is a filter ---

  /** An entry the sweep is for: live, nobody's, idle since the cutoff, and wanted by nobody. */
  predicate Stale(p: Pool, e: nat, cutoff: int) {
    Evictable(p, e) && p.table[e].lastReleasedAt <= cutoff
  }

  /** The walk that stops at the first young node evicts exactly the stale entries that a scan of the
      whole table finds, disposes each once, and keeps the others as they are and in their order. */
  lemma SweepIsFullScan(p: Pool, cfg: Config, now: int)
    requires PoolInv(p, now) && cfg.idleTtlMs != 0
    ensures Wf(p) && |Sweep(p, cfg, now).table| == |p.table|
    ensures forall e :: 0 <= e < |p.table| ==>
      Sweep(p, cfg, now).table[e] == if Stale(p, e, now - cfg.idleTtlMs) then DisposeRec(p.table[e]) else p.table[e]
    ensures forall k :: k in Sweep(p, cfg, now).entries <==>
      k in p.entries && !Stale(p, p.entries[k], now - cfg.idleTtlMs)
    ensures Sweep(p, cfg, now).idle == Survivors(p, p.idle, now - cfg.idleTtlMs)
  {
    hide PoolInv, SweepWalk, SweptTo, Stale, Survivors, Wf;
    InvIsWf(p, now);
    var cutoff := now - cfg.idleTtlMs;
    IdleInBounds(p);
    SweepIsFilter(p, [], p.idle, cutoff, now);
    forall e | 0 <= e < |p.table| ensures Stale(p, e, cutoff) <==> e in p.idle && Expired(p, cutoff, e) {
      StaleIsExpired(p, now, e, cutoff);
    }
    SweptScan(p, Sweep(p, cfg, now), cutoff);
  }

  lemma IdleInBounds(p: Pool)
    requires Wf(p)
    ensures forall i :: 0 <= i < |p.idle| ==> p.idle[i] < |p.table|
  {
  }

  lemma StaleIsExpired(p: Pool, now: int, e: nat, cutoff: int)
    requires PoolInv(p, now) && e < |p.table|
    ensures Stale(p, e, cutoff) <==> e in p.idle && Expired(p, cutoff, e)
  {
    assert Evictable(p, e) ==> p.entries[p.table[e].key] == e;
  }

  lemma SweptScan(p: Pool, q: Pool, cutoff: int)
    requires Wf(p) && SweptTo(p, [], p.idle, cutoff, q)
    requires forall e :: 0 <= e < |p.table| ==> (Stale(p, e, cutoff) <==> e in p.idle && Expired(p, cutoff, e))
    ensures |q.table| == |p.table| && q.idle == Survivors(p, p.idle, cutoff)
    ensures forall e :: 0 <= e < |p.table| ==>
      q.table[e] == if Stale(p, e, cutoff) then DisposeRec(p.table[e]) else p.table[e]
    ensures forall k :: k in q.entries <==> k in p.entries && !Stale(p, p.entries[k], cutoff)
  {
    hide Stale, Survivors;
  }

  // --- getStats is a full scan ---

  lemma {:induction false} RangeSize(m: Ids)
    requires forall k, l :: k in m && l in m && m[k] == m[l] ==> k == l
    ensures |Range(m)| == |m|
    decreases |m|
  {
    if m.Keys == {} {
      assert m == map[];
    } else {
      var k :| k in m.Keys;
      var n := m - {k};
      RangeSize(n);
      assert Range(m) == Range(n) + {m[k]} by {
        forall v | v in Range(m) ensures v in Range(n) + {m[k]} {
          var l :| l in m && m[l] == v;
          assert l != k ==> l in n && n[l] == v;
        }
        forall v | v in Range(n) ensures v in Range(m) {}
      }
      assert m[k] !in Range(n);
      assert m.Keys == n.Keys + {k};
    }
  }

  /** The live keys without holder. */
  function IdleKeys(p: Pool): set<Key>
    requires Wf(p)
  {
    set k | k in p.entries && p.table[p.entries[k]].refCount == 0
  }

  /** The keys of a map whose entry has a holder. */
  function HeldIn(m: Ids, t: seq<Rec>): set<Key> {
    set k | k in m && m[k] < |t| && t[m[k]].refCount > 0
  }

  function Elements(q: seq<nat>): set<nat> { set e | e in q }

  lemma {:induction false} DistinctIsSet(q: seq<nat>)
    requires Distinct(q)
    ensures |Elements(q)| == |q|
  {
    if q != [] {
      DistinctIsSet(q[1..]);
      assert Elements(q) == Elements(q[1..]) + {q[0]};
      assert q[0] !in q[1..];
    }
  }

  lemma IdleCount(p: Pool, now: int)
    requires PoolInv(p, now)
    ensures Wf(p) && |p.idle| == |IdleKeys(p)|
  {
    InvIsWf(p, now);
    var m: Ids := map k | k in p.entries && p.table[p.entries[k]].refCount == 0 :: p.entries[k];
    DistinctIsSet(p.idle);
    RangeSize(m);
    assert m.Keys == IdleKeys(p);
    assert Range(m) == Elements(p.idle) by {
      forall e | e in p.idle ensures e in Range(m) {
        assert m[p.table[e].key] == e;
      }
    }
  }

  /** `idle` and `inUse`, computed from counters and sizes, are what a scan by refCount finds. */
  lemma StatsAreFullScan(p: Pool, now: int)
    requires PoolInv(p, now)
    ensures Wf(p)
    ensures |p.idle| == |IdleKeys(p)|
    ensures |p.entries| - |p.idle| + |p.orphans| == |HeldIn(p.entries, p.table)| + |HeldIn(p.orphans, p.table)|
  {
    hide PoolInv, KeysOk;
    IdleCount(p, now);
    EntriesSplit(p);
    ResidentsLive(p, now);
    AllHeld(p.orphans, p.table);
  }

  lemma EntriesSplit(p: Pool)
    requires Wf(p)
    ensures |p.entries| == |IdleKeys(p)| + |HeldIn(p.entries, p.table)|
  {
    assert p.entries.Keys == IdleKeys(p) + HeldIn(p.entries, p.table);
  }

  lemma AllHeld(m: Ids, t: seq<Rec>)
    requires forall k :: k in m ==> m[k] < |t| && t[m[k]].refCount > 0
    ensures |m| == |HeldIn(m, t)|
  {
    assert m.Keys == HeldIn(m, t);
  }

  lemma KeysApart(p: Pool, now: int)
    requires PoolInv(p, now)
    ensures p.entries.Keys !! p.orphans.Keys
    ensures forall k :: k in p.entries ==> p.entries[k] < |p.table| && p.table[p.entries[k]].key == k
    ensures forall k :: k in p.orphans ==> p.orphans[k] < |p.table| && p.table[p.orphans[k]].key == k
  {
  }

  // --- the resource ledger ---

  function IdsOf(p: Pool, l: Life): set<nat> { Positions(p.table, HasLife(l)) }

  lemma LiveIsResident(p: Pool, now: int)
    requires PoolInv(p, now)
    ensures forall e :: 0 <= e < |p.table| ==> (p.table[e].life.Live? <==> IsLive(p, e) || IsOrphan(p, e))
    ensures forall e :: 0 <= e < |p.table| ==> p.table[e].disposeCalls == One(!p.table[e].life.Live?)
  {
    forall e | 0 <= e < |p.table|
      ensures (p.table[e].life.Live? <==> IsLive(p, e) || IsOrphan(p, e))
              && p.table[e].disposeCalls == One(!p.table[e].life.Live?)
    {
      assert RecOk(p.table, p.entries, p.orphans, e);
    }
  }

  /** The ids of the resident entries. */
  function Residents(p: Pool): set<nat> { Range(p.entries) + Range(p.orphans) }

  lemma RangeIs(m: Ids, t: seq<Rec>)
    requires forall k :: k in m ==> m[k] < |t| && t[m[k]].key == k
    ensures forall e :: e in Range(m) <==> Maps(m, t, e)
    ensures |Range(m)| == |m|
  {
    RangeSize(m);
    forall e: nat | Maps(m, t, e) ensures e in Range(m) {
      assert m[t[e].key] in Range(m);
    }
  }

  lemma LiveIffInRange(p: Pool, now: int, e: nat)
    requires PoolInv(p, now)
    ensures e in IdsOf(p, Live) <==> e in Range(p.entries) || e in Range(p.orphans)
    ensures !(e in Range(p.entries) && e in Range(p.orphans))
  {
    KeysApart(p, now);
    RangeIs(p.entries, p.table);
    RangeIs(p.orphans, p.table);
    if e < |p.table| {
      assert RecOk(p.table, p.entries, p.orphans, e);
    }
  }

  lemma DisjointUnion(a: set<nat>, b: set<nat>, c: set<nat>)
    requires forall e: nat :: e in c <==> e in a || e in b
    requires forall e: nat :: !(e in a && e in b)
    ensures c == a + b && |c| == |a| + |b|
  {
    assert c == a + b;
  }

  lemma ResidentIds(p: Pool, now: int)
    requires PoolInv(p, now)
    ensures IdsOf(p, Live) == Residents(p)
    ensures |Residents(p)| == |p.entries| + |p.orphans|
  {
    hide PoolInv, Range, IdsOf;
    KeysApart(p, now);
    RangeIs(p.entries, p.table);
    RangeIs(p.orphans, p.table);
    forall e: nat
      ensures e in IdsOf(p, Live) <==> e in Range(p.entries) || e in Range(p.orphans)
      ensures !(e in Range(p.entries) && e in Range(p.orphans))
    {
      LiveIffInRange(p, now, e);
    }
    DisjointUnion(Range(p.entries), Range(p.orphans), IdsOf(p, Live));
  }

  lemma {:induction false} LifeTally(t: seq<Rec>)
    ensures |t| == Count(t, HasLife(Live)) + Count(t, HasLife(Disposing)) + Count(t, HasLife(Disposed))
  {
    if |t| > 0 {
      LifeTally(t[..|t| - 1]);
    }
  }

  /** Every created resource is resident, being disposed, or disposed; the counters say how many;
      and the user's dispose was called exactly once on each that left, never on a resident one. */
  lemma ResourceLedger(p: Pool, now: int)
    requires PoolInv(p, now)
    ensures p.counters.created == |p.entries| + |p.orphans| + |IdsOf(p, Disposing)| + p.counters.disposed
    ensures p.counters.disposed == |IdsOf(p, Disposed)|
    ensures forall e :: 0 <= e < |p.table| ==>
      p.table[e].disposeCalls == if e in Residents(p) then 0 else 1
  {
    hide PoolInv, Residents;
    CountersAre(p, now);
    ResidentIds(p, now);
    CountIsCardinality(p.table, HasLife(Live));
    CountIsCardinality(p.table, HasLife(Disposing));
    CountIsCardinality(p.table, HasLife(Disposed));
    LifeTally(p.table);
    LiveIsResident(p, now);
    assert forall e :: 0 <= e < |p.table| ==> (e in IdsOf(p, Live) <==> HasLife(Live)(p.table[e]));
  }

  lemma CountersAre(p: Pool, now: int)
    requires PoolInv(p, now)
    ensures p.counters.created == |p.table| && p.counters.disposed == Count(p.table, HasLife(Disposed))
  {
  }
}
