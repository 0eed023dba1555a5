/** The full-scan LRU against any numbering of the keys in the same order. */
module NaiveOrder {
  import opened Counting
  import opened PoolModel
  import opened NaiveScan

  /** Two maps of the same keys in the same order. */
  predicate SameOrder(u: map<Key, int>, v: map<Key, int>) {
    u.Keys == v.Keys && forall a, b :: a in u && b in u ==> (u[a] < u[b] <==> v[a] < v[b])
  }

  lemma OrderPut(u: map<Key, int>, v: map<Key, int>, k: Key, x: int, y: int)
    requires SameOrder(u, v)
    requires (forall l :: l in u && l != k ==> u[l] < x) && (forall l :: l in v && l != k ==> v[l] < y)
    ensures SameOrder(u[k := x], v[k := y])
  {
  }

  lemma OrderDrop(u: map<Key, int>, v: map<Key, int>, gone: set<Key>)
    requires SameOrder(u, v)
    ensures SameOrder(u - gone, v - gone)
  {
  }

  predicate IsFirst(v: map<Key, int>, f: Key) { f in v && forall l :: l in v && l != f ==> v[f] < v[l] }

  predicate IsNewest(v: map<Key, int>, k: Key) { k in v && forall l :: l in v && l != k ==> v[l] < v[k] }

  /** The key that is first in the one order is the oldest of the naive pool, once k is used. */
  lemma FirstIsOldest(u: map<Key, int>, v: map<Key, int>, k: Key, x: int, f: Key)
    requires SameOrder(u, v) && k !in u && IsFirst(v, f)
    requires forall l :: l in u ==> u[l] < x
    ensures u[k := x] != map[] && Oldest(u[k := x]) == f
  {
    var m := u[k := x];
    assert k in m;
    var o := Oldest(m);
    assert m[o] <= m[f];
    assert f in u;
  }

  lemma SizePut(u: map<Key, int>, k: Key, x: int)
    ensures |u[k := x]| == |u| + One(k !in u)
  {
    var m := u[k := x];
    assert m.Keys == u.Keys + {k};
    assert |m.Keys| == |m| && |u.Keys| == |u|;
  }

  lemma SizeDrop(u: map<Key, int>, k: Key)
    requires k in u
    ensures |u - {k}| == |u| - 1
  {
    assert u.Keys == (u - {k}).Keys + {k};
  }

  /** What leaves a pool with these keys: nothing, or the first of them when a new key comes and the
      pool is full. */
  predicate Leaves(v: map<Key, int>, max: int, k: Key, gone: set<Key>) {
    if k in v || |v| < max then gone == {}
    else exists f | f in v.Keys :: gone == {f} && IsFirst(v, f)
  }

  lemma NaiveLeaves(n: Naive, v: map<Key, int>, max: int, k: Key, gone: set<Key>)
    requires NaiveInv(n) && SameOrder(n.used, v) && max >= 1 && |v| <= max && Leaves(v, max, k, gone)
    ensures NaiveAcquire(n, max, k) == Naive(n.used[k := n.uses + 1] - gone, n.uses + 1)
    ensures |NaiveAcquire(n, max, k).used| <= max && k !in gone
  {
    hide Oldest, SameOrder, NaiveInv, IsFirst;
    var m := n.used[k := n.uses + 1];
    SizePut(n.used, k, n.uses + 1);
    SameSize(n.used, v);
    if k in v || |v| < max {
      assert m - gone == m;
    } else {
      var f :| f in v.Keys && gone == {f} && IsFirst(v, f);
      FirstGoes(n, v, k, f);
      SizeDrop(m, f);
    }
  }

  lemma SameSize(u: map<Key, int>, v: map<Key, int>)
    requires SameOrder(u, v)
    ensures u.Keys == v.Keys && |u| == |v|
  {
    assert |u.Keys| == |u| && |v.Keys| == |v|;
  }

  lemma FirstGoes(n: Naive, v: map<Key, int>, k: Key, f: Key)
    requires NaiveInv(n) && SameOrder(n.used, v) && k !in v && IsFirst(v, f)
    ensures var m := n.used[k := n.uses + 1]; m != map[] && Oldest(m) == f && f in m && f != k
  {
    FirstIsOldest(n.used, v, k, n.uses + 1, f);
  }

  /** The numbers w are those of v after the use of k, which let these keys go. */
  predicate UsedFrom(v: map<Key, int>, w: map<Key, int>, k: Key, gone: set<Key>) {
    && k in w
    && (forall l :: l in w && l != k ==> l in v && l !in gone && w[l] == v[l])
    && (forall l :: l in v && l != k && l !in gone ==> l in w)
  }

  lemma UsedFromKeys(v: map<Key, int>, w: map<Key, int>, n: Naive, max: int, k: Key, gone: set<Key>)
    requires NaiveInv(n) && SameOrder(n.used, v) && max >= 1 && |v| <= max && Leaves(v, max, k, gone)
    requires UsedFrom(v, w, k, gone)
    ensures w.Keys == NaiveAcquire(n, max, k).used.Keys
  {
    hide Leaves, NaiveAcquire;
    NaiveLeaves(n, v, max, k, gone);
    forall l ensures l in w.Keys <==> l in n.used[k := n.uses + 1] - gone {
      assert l in n.used <==> l in v;
    }
  }

  lemma UseKeeps(v: map<Key, int>, w: map<Key, int>, n: Naive, max: int, k: Key, gone: set<Key>)
    requires NaiveInv(n) && SameOrder(n.used, v) && max >= 1 && |v| <= max && Leaves(v, max, k, gone)
    requires UsedFrom(v, w, k, gone) && IsNewest(w, k)
    ensures var m := NaiveAcquire(n, max, k); NaiveInv(m) && SameOrder(m.used, w) && |w| <= max
  {
    hide Leaves, NaiveAcquire, SameOrder, NaiveInv, IsNewest;
    NaiveKeepsInv(n, max, k);
    NaiveLeaves(n, v, max, k, gone);
    OrderAfter(n, v, w, k, gone);
  }

  lemma OrderAfter(n: Naive, v: map<Key, int>, w: map<Key, int>, k: Key, gone: set<Key>)
    requires NaiveInv(n) && SameOrder(n.used, v) && k !in gone && UsedFrom(v, w, k, gone) && IsNewest(w, k)
    ensures SameOrder(n.used[k := n.uses + 1] - gone, w)
    ensures |w| == |n.used[k := n.uses + 1] - gone|
  {
    var u, r := n.used - gone, v - gone;
    PutMinus(n.used, k, n.uses + 1, gone);
    UsedFromPut(v, w, k, gone);
    OrderDrop(n.used, v, gone);
    forall l | l in r && l != k ensures r[l] < w[k] {
      assert w[l] == r[l];
    }
    OrderPut(u, r, k, n.uses + 1, w[k]);
    assert |w.Keys| == |w| && |u[k := n.uses + 1].Keys| == |u[k := n.uses + 1]|;
  }

  lemma UsedFromPut(v: map<Key, int>, w: map<Key, int>, k: Key, gone: set<Key>)
    requires UsedFrom(v, w, k, gone)
    ensures w == (v - gone)[k := w[k]]
  {
    assert w.Keys == (v - gone)[k := w[k]].Keys;
  }

  lemma PutMinus(m: map<Key, int>, k: Key, x: int, gone: set<Key>)
    requires k !in gone
    ensures m[k := x] - gone == (m - gone)[k := x]
  {
  }

  // --- how many keys there are ---

  function Min(a: int, b: int): int { if a < b then a else b }

  /** The naive pool holds the keys it has seen, up to max. */
  predicate Filled(n: Naive, max: int, seen: set<Key>) {
    n.used.Keys <= seen && |n.used| == Min(max, |seen|)
  }

  lemma Filling(n: Naive, max: int, seen: set<Key>)
    requires Filled(n, max, seen) && |n.used| < max
    ensures n.used.Keys == seen
  {
    assert |n.used.Keys| == |n.used|;
    assert seen == n.used.Keys + (seen - n.used.Keys);
  }

  lemma AcquireHolds(n: Naive, max: int, k: Key, seen: set<Key>)
    requires Filled(n, max, seen) && max >= 1
    ensures Filled(NaiveAcquire(n, max, k), max, seen + {k})
  {
    var m := n.used[k := n.uses + 1];
    SizePut(n.used, k, n.uses + 1);
    if |n.used| < max {
      Filling(n, max, seen);
    } else if k !in n.used {
      SizeDrop(m, Oldest(m));
    }
    if k in seen {
      assert seen + {k} == seen;
    } else {
      assert |seen + {k}| == |seen| + 1;
    }
  }

  // --- a sequence of uses ---

  ghost function NaiveUses(n: Naive, max: int, keys: seq<Key>): Naive
    decreases |keys|
  {
    if keys == [] then n else NaiveUses(NaiveAcquire(n, max, keys[0]), max, keys[1..])
  }

  lemma {:induction false} UsesSnoc(n: Naive, max: int, keys: seq<Key>, k: Key)
    ensures NaiveUses(n, max, keys + [k]) == NaiveAcquire(NaiveUses(n, max, keys), max, k)
    decreases |keys|
  {
    hide NaiveAcquire;
    if keys == [] {
      assert ([] + [k])[1..] == [];
      assert NaiveUses(NaiveAcquire(n, max, k), max, []) == NaiveAcquire(n, max, k);
    } else {
      assert (keys + [k])[1..] == keys[1..] + [k];
      UsesSnoc(NaiveAcquire(n, max, keys[0]), max, keys[1..], k);
    }
  }

  function Distincts(keys: seq<Key>): set<Key> { set k | k in keys }

  lemma {:induction false} UsesHold(n: Naive, max: int, keys: seq<Key>, seen: set<Key>)
    requires Filled(n, max, seen) && max >= 1
    ensures Filled(NaiveUses(n, max, keys), max, seen + Distincts(keys))
    decreases |keys|
  {
    hide Filled, NaiveAcquire;
    if keys == [] {
      assert seen + Distincts(keys) == seen;
    } else {
      AcquireHolds(n, max, keys[0], seen);
      UsesHold(NaiveAcquire(n, max, keys[0]), max, keys[1..], seen + {keys[0]});
      assert keys == [keys[0]] + keys[1..];
      assert Distincts(keys) == {keys[0]} + Distincts(keys[1..]);
      assert seen + {keys[0]} + Distincts(keys[1..]) == seen + Distincts(keys);
    }
  }

  /** A naive pool holds as many keys as it has seen, but no more than max. */
  lemma UsesCount(max: int, keys: seq<Key>)
    requires max >= 1
    ensures |NaiveUses(Naive(map[], 0), max, keys).used| == Min(max, |Distincts(keys)|)
  {
    hide NaiveUses, Distincts;
    assert Filled(Naive(map[], 0), max, {});
    UsesHold(Naive(map[], 0), max, keys, {});
    assert {} + Distincts(keys) == Distincts(keys);
  }
}
