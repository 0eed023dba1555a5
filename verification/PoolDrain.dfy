/** drain's two loops, one entry at a time, in whatever order the maps are walked. */
module PoolDrain {
  import opened Counting
  import opened PoolModel
  import opened PoolInvariant
  import opened PoolBulk

  /** What the first loop relies on, also when the pool is closed already. */
  predicate Drainable(p: Pool) {
    Wf(p) && KeysOk(p.table, p.entries, p.orphans) && IdleOk(p.table, p.entries, p.idle)
  }

  /** One turn of the first loop: the entry of key k is disposed, or handed to the orphans. */
  function DrainOne(p: Pool, k: Key): Pool
    requires Wf(p) && k in p.entries
  {
    var e := p.entries[k];
    var q := p.(entries := p.entries - {k});
    if p.table[e].refCount == 0 then Dispose(IdleRemove(q, e), e)
    else SetRec(q, e, p.table[e].(condemned := true))
         .(orphans := p.orphans[k := e], counters := p.counters.(evicted := p.counters.evicted + 1))
  }

  /** One turn of the second loop. */
  function CondemnOne(p: Pool, k: Key): Pool
    requires Wf(p) && k in p.orphans
  {
    SetRec(p, p.orphans[k], p.table[p.orphans[k]].(condemned := true))
  }

  /** The second loop after it has visited the orphans of some keys. */
  function CondemnSome(p: Pool, keys: set<Key>): Pool {
    p.(table := seq(|p.table|, e requires 0 <= e < |p.table| =>
         if IsOrphan(p, e) && p.table[e].key in keys then p.table[e].(condemned := true) else p.table[e]))
  }

  lemma {:induction false} OutsideNone(p: Pool, q: seq<nat>)
    requires forall i :: 0 <= i < |q| ==> q[i] < |p.table|
    ensures Outside(p, q, {}) == q
  {
    if q != [] {
      OutsideNone(p, q[1..]);
    }
  }

  lemma DrainFirst(p: Pool)
    requires Wf(p)
    ensures DrainEntries(p, {}) == p
  {
    OutsideNone(p, p.idle);
    NoneDrained(p);
    hide Outside, Held, DrainEntries;
    assert p.orphans + map[] == p.orphans;
    assert p.entries - {} == p.entries;
    DrainFields(p, {});
  }

  lemma NoneDrained(p: Pool)
    requires Wf(p)
    ensures DrainEntries(p, {}).table == p.table && Held(p, {}) == map[]
  {
    hide Outside;
  }

  lemma WithoutAbsent(q: seq<nat>, e: nat)
    requires e !in q
    ensures Without(q, e) == q
  {
  }

  lemma WithoutHead(e: nat, q: seq<nat>)
    ensures Without([e] + q, e) == q
  {
    var w := [e] + q;
    assert w[0] == e;
    assert w[..0] + w[1..] == q;
  }

  lemma WithoutTail(e: nat, q: seq<nat>, x: nat)
    requires x != e
    ensures Without([e] + q, x) == [e] + Without(q, x)
  {
    var w := [e] + q;
    if x in q {
      IndexTail(e, q, x);
      var k := Index(q, x);
      hide Index;
      assert w[..k + 1] == [e] + q[..k];
      assert w[k + 2..] == q[k + 1..];
    } else {
      assert x !in w;
    }
  }

  lemma IndexTail(e: nat, q: seq<nat>, x: nat)
    requires x != e && x in q
    ensures x in [e] + q && Index([e] + q, x) == 1 + Index(q, x)
  {
    var w := [e] + q;
    assert w[1..] == q;
    assert w[1 + Index(q, x)] == x;
  }

  /** One key more leaves the list without that key's entry. */
  lemma {:induction false} OutsideMore(p: Pool, q: seq<nat>, keys: set<Key>, k: Key)
    requires forall i :: 0 <= i < |q| ==> q[i] < |p.table|
    requires Distinct(q) && k !in keys && k in p.entries && IsLive(p, p.entries[k]) && p.table[p.entries[k]].key == k
    ensures Outside(p, q, keys + {k}) == Without(Outside(p, q, keys), p.entries[k])
  {
    hide Without, Index;
    var e := p.entries[k];
    if q == [] {
      WithoutAbsent(q, e);
    } else {
      OutsideMore(p, q[1..], keys, k);
      OutsideIn(p, q[1..], keys);
      if q[0] == e {
        assert e !in q[1..];
        WithoutAbsent(Outside(p, q[1..], keys), e);
        WithoutHead(e, Outside(p, q[1..], keys));
      } else {
        WithoutTail(q[0], Outside(p, q[1..], keys), e);
        if IsLive(p, q[0]) && p.table[q[0]].key in keys {
          assert Outside(p, q, keys) == Outside(p, q[1..], keys);
          assert Outside(p, q, keys + {k}) == Outside(p, q[1..], keys + {k});
        }
      }
    }
  }

  lemma HeldMore(p: Pool, keys: set<Key>, k: Key)
    requires Wf(p) && k !in keys && k in p.entries
    ensures Held(p, keys + {k}) ==
      if p.table[p.entries[k]].refCount > 0 then Held(p, keys)[k := p.entries[k]] else Held(p, keys)
    ensures |Held(p, keys + {k})| == |Held(p, keys)| + One(p.table[p.entries[k]].refCount > 0)
  {
    if p.table[p.entries[k]].refCount > 0 {
      assert Held(p, keys + {k}) == Held(p, keys)[k := p.entries[k]];
    } else {
      assert Held(p, keys + {k}) == Held(p, keys);
    }
  }

  /** What the first loop makes of the entry it visits. */
  function Visited(r: Rec): Rec {
    if r.refCount == 0 then DisposeRec(r) else r.(condemned := true)
  }

  lemma DrainFields(p: Pool, keys: set<Key>)
    requires Wf(p)
    ensures DrainEntries(p, keys) == p.(table := DrainEntries(p, keys).table, idle := DrainEntries(p, keys).idle,
      entries := p.entries - keys, orphans := p.orphans + Held(p, keys),
      counters := p.counters.(evicted := p.counters.evicted + |Held(p, keys)|))
    ensures |DrainEntries(p, keys).table| == |p.table|
  {
    hide Outside, Held;
  }

  lemma TableAt(p: Pool, keys: set<Key>, x: nat)
    requires Wf(p) && x < |p.table|
    ensures |DrainEntries(p, keys).table| == |p.table|
    ensures DrainEntries(p, keys).table[x] ==
      if IsLive(p, x) && p.table[x].key in keys then Visited(p.table[x]) else p.table[x]
  {
  }

  lemma TableMore(p: Pool, keys: set<Key>, k: Key)
    requires Wf(p) && KeysOk(p.table, p.entries, p.orphans) && k !in keys && k in p.entries
    ensures p.entries[k] < |DrainEntries(p, keys).table|
    ensures DrainEntries(p, keys).table[p.entries[k]] == p.table[p.entries[k]]
    ensures DrainEntries(p, keys + {k}).table ==
      DrainEntries(p, keys).table[p.entries[k] := Visited(p.table[p.entries[k]])]
  {
    hide DrainEntries, Visited;
    var e := p.entries[k];
    var t, u := DrainEntries(p, keys).table, DrainEntries(p, keys + {k}).table;
    TableAt(p, keys, e);
    TableAt(p, keys + {k}, e);
    forall x | 0 <= x < |p.table| && x != e ensures u[x] == t[x] {
      TableAt(p, keys, x);
      TableAt(p, keys + {k}, x);
      assert IsLive(p, x) ==> p.table[x].key != k;
    }
  }

  lemma IdleMore(p: Pool, keys: set<Key>, k: Key)
    requires Drainable(p) && k !in keys && k in p.entries
    ensures DrainEntries(p, keys + {k}).idle == Without(DrainEntries(p, keys).idle, p.entries[k])
    ensures p.table[p.entries[k]].refCount > 0 ==> p.entries[k] !in DrainEntries(p, keys).idle
  {
    OutsideMore(p, p.idle, keys, k);
    OutsideIn(p, p.idle, keys);
  }

  lemma MapsMore(p: Pool, keys: set<Key>, k: Key)
    requires Wf(p) && k !in keys && k in p.entries
    ensures p.entries - (keys + {k}) == p.entries - keys - {k} && k in p.entries - keys
    ensures p.orphans + Held(p, keys + {k}) ==
      if p.table[p.entries[k]].refCount > 0 then (p.orphans + Held(p, keys))[k := p.entries[k]]
      else p.orphans + Held(p, keys)
  {
    hide Held;
    HeldMore(p, keys, k);
    PutLater(p.orphans, Held(p, keys), k, p.entries[k]);
    TakeLater(p.entries, keys, k);
  }

  lemma PutLater(m: map<Key, nat>, n: map<Key, nat>, k: Key, e: nat)
    ensures m + n[k := e] == (m + n)[k := e]
  {
  }

  lemma TakeLater(m: map<Key, nat>, keys: set<Key>, k: Key)
    ensures m - (keys + {k}) == m - keys - {k}
  {
  }

  /** The first loop, one key further. */
  lemma DrainNext(p: Pool, keys: set<Key>, k: Key)
    requires Drainable(p) && k !in keys && k in p.entries
    ensures Wf(DrainEntries(p, keys)) && k in DrainEntries(p, keys).entries
    ensures DrainEntries(p, keys).entries[k] == p.entries[k]
    ensures DrainEntries(p, keys).table[p.entries[k]] == p.table[p.entries[k]]
    ensures DrainEntries(p, keys + {k}) == DrainOne(DrainEntries(p, keys), k)
  {
    hide Held, Outside, Without, KeysOk, IdleOk, DrainEntries, DrainOne, Visited;
    DrainFields(p, keys);
    DrainFields(p, keys + {k});
    WfDrainEntries(p, keys);
    IdleMore(p, keys, k);
    HeldMore(p, keys, k);
    TableMore(p, keys, k);
    MapsMore(p, keys, k);
    Rejoin(DrainEntries(p, keys), DrainEntries(p, keys + {k}), k);
  }

  /** The two sides of DrainNext, field by field. */
  lemma Rejoin(q: Pool, r: Pool, k: Key)
    requires Wf(q) && k in q.entries && |r.table| == |q.table|
    requires r ==
      q.(table := r.table, idle := r.idle, entries := r.entries, orphans := r.orphans, counters := r.counters)
    requires r.entries == q.entries - {k} && r.idle == Without(q.idle, q.entries[k])
    requires r.table == q.table[q.entries[k] := Visited(q.table[q.entries[k]])]
    requires q.table[q.entries[k]].refCount == 0 ==> r.orphans == q.orphans && r.counters == q.counters
    requires q.table[q.entries[k]].refCount > 0 ==>
      && q.entries[k] !in q.idle && r.orphans == q.orphans[k := q.entries[k]]
      && r.counters == q.counters.(evicted := q.counters.evicted + 1)
    ensures r == DrainOne(q, k)
  {
    hide Without;
    if q.table[q.entries[k]].refCount > 0 {
      WithoutAbsent(q.idle, q.entries[k]);
    }
  }

  lemma CondemnNext(p: Pool, keys: set<Key>, k: Key)
    requires Wf(p) && KeyedBy(p.table, p.orphans) && k in p.orphans
    ensures CondemnSome(p, keys).orphans == p.orphans
    ensures Wf(CondemnSome(p, keys)) && CondemnSome(p, keys + {k}) == CondemnOne(CondemnSome(p, keys), k)
  {
    assert CondemnSome(p, keys + {k}).table == CondemnOne(CondemnSome(p, keys), k).table;
  }

  lemma CondemnEnds(p: Pool)
    ensures CondemnSome(p, {}) == p && CondemnSome(p, p.orphans.Keys) == CondemnOrphans(p)
  {
    assert CondemnSome(p, {}).table == p.table;
    assert CondemnSome(p, p.orphans.Keys).table == CondemnOrphans(p).table;
  }

  // --- what drain awaits ---

  function Only(m: map<Key, nat>, keys: set<Key>): map<Key, nat> { map k | k in keys && k in m :: m[k] }

  lemma RangeMore(m: map<Key, nat>, keys: set<Key>, k: Key)
    requires k in m
    ensures Range(Only(m, keys + {k})) == Range(Only(m, keys)) + {m[k]}
  {
    var a, b := Only(m, keys), Only(m, keys + {k});
    forall e | e in Range(b) ensures e in Range(a) + {m[k]} {
      var l :| l in b && b[l] == e;
      assert l != k ==> l in a && a[l] == e;
    }
    forall e | e in Range(a) + {m[k]} ensures e in Range(b) {
      if e in Range(a) {
        var l :| l in a && a[l] == e;
        assert l in b && b[l] == e;
      } else {
        assert k in b && b[k] == e;
      }
    }
  }

  lemma RangeEnds(m: map<Key, nat>)
    ensures Range(Only(m, {})) == {} && Only(m, m.Keys) == m
  {
  }

  /** The entries handed to the orphans were live: together the two loops visit what was resident. */
  lemma RangeBoth(p: Pool)
    requires Wf(p) && p.entries.Keys !! p.orphans.Keys
    ensures Range(p.entries) + Range(p.orphans + Held(p, p.entries.Keys)) == Range(p.entries) + Range(p.orphans)
  {
    var m := p.orphans + Held(p, p.entries.Keys);
    forall e | e in Range(m) ensures e in Range(p.entries) + Range(p.orphans) {
      var k :| k in m && m[k] == e;
    }
    forall e | e in Range(p.orphans) ensures e in Range(m) {
      var k :| k in p.orphans && p.orphans[k] == e;
      assert k in m && m[k] == e;
    }
  }

  /** Closing leaves the entries alone. */
  lemma ClosedIsDrainable(p: Pool)
    requires Drainable(p)
    ensures Wf(p) && Wf(p.(closed := true))
    ensures var q := CloseWaiters(p.(closed := true));
      Drainable(q) && q.entries == p.entries && q.orphans == p.orphans && p.entries.Keys !! p.orphans.Keys
  {
    WfClose(p.(closed := true));
  }

  /** Between the two loops: no list, and every orphan under its key. */
  lemma HalfDrained(p: Pool)
    requires Drainable(p)
    ensures var q := DrainEntries(p, p.entries.Keys);
      Wf(q) && q.idle == [] && q.orphans == p.orphans + Held(p, p.entries.Keys)
    ensures var q := DrainEntries(p, p.entries.Keys); KeyedBy(q.table, q.orphans)
  {
    WfDrainEntries(p, p.entries.Keys);
    DrainResetIsNoOp(p);
    hide Outside;
    var q := DrainEntries(p, p.entries.Keys);
    forall k | k in q.orphans ensures q.orphans[k] < |q.table| && q.table[q.orphans[k]].key == k {
      TableAt(p, p.entries.Keys, q.orphans[k]);
    }
  }

  /** The stations of drain. */
  lemma DrainPlan(p: Pool, q: Pool, r: Pool)
    requires Drainable(p) && Wf(p.(closed := true)) && q == CloseWaiters(p.(closed := true))
    requires Wf(q) && r == DrainEntries(q, q.entries.Keys)
    ensures Drainable(q) && Wf(r) && KeyedBy(r.table, r.orphans) && CondemnOrphans(r).idle == []
    ensures Range(q.entries) + Range(r.orphans) == Range(p.entries) + Range(p.orphans)
    ensures Drain(p) == CondemnOrphans(r).(idle := [])
  {
    hide DrainEntries, CloseWaiters, Range, Drainable, KeyedBy;
    ClosedIsDrainable(p);
    HalfDrained(q);
    RangeBoth(q);
  }

  predicate KeyedBy(t: seq<Rec>, m: map<Key, nat>) {
    forall k :: k in m ==> m[k] < |t| && t[m[k]].key == k
  }
}
