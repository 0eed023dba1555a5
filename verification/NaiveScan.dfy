/** The hand-rolled LRU of benchmarks/eviction-throughput/src/index.ts: a map of use numbers, and on
    overflow a scan of the whole map for the oldest. */
module NaiveScan {
  import opened PoolModel

  /** When each key was last used, and the number of uses so far. */
  datatype Naive = Naive(used: map<Key, int>, uses: int)

  /** No two keys were used at once. */
  predicate Distinguishes(m: map<Key, int>) {
    forall k, l :: k in m && l in m && m[k] == m[l] ==> k == l
  }

  predicate NaiveInv(n: Naive) {
    (forall k :: k in n.used ==> n.used[k] <= n.uses) && Distinguishes(n.used)
  }

  predicate IsOldest(m: map<Key, int>, k: Key) {
    k in m && forall l :: l in m ==> m[k] <= m[l]
  }

  lemma {:induction false} OldestExists(m: map<Key, int>, ks: set<Key>)
    requires ks != {} && ks <= m.Keys
    ensures exists k :: k in ks && forall l :: l in ks ==> m[k] <= m[l]
    decreases ks
  {
    var k :| k in ks;
    if ks != {k} {
      OldestExists(m, ks - {k});
      var j :| j in ks - {k} && forall l :: l in ks - {k} ==> m[j] <= m[l];
      if m[k] < m[j] {
        assert forall l :: l in ks ==> m[k] <= m[l];
      } else {
        assert forall l :: l in ks ==> m[j] <= m[l];
      }
    }
  }

  lemma HasOldest(m: map<Key, int>)
    requires m != map[]
    ensures exists k :: IsOldest(m, k)
  {
    assert m.Keys != {};
    OldestExists(m, m.Keys);
    var k :| k in m && forall l :: l in m.Keys ==> m[k] <= m[l];
    assert IsOldest(m, k);
  }

  ghost function Oldest(m: map<Key, int>): (k: Key)
    requires m != map[]
    ensures IsOldest(m, k)
  {
    HasOldest(m);
    var k :| IsOldest(m, k);
    k
  }

  /** One acquire; its release does nothing. */
  ghost function NaiveAcquire(n: Naive, max: int, k: Key): Naive {
    var m := n.used[k := n.uses + 1];
    Naive(if k !in n.used && |m| > max then m - {Oldest(m)} else m, n.uses + 1)
  }

  lemma NaiveKeepsInv(n: Naive, max: int, k: Key)
    requires NaiveInv(n)
    ensures NaiveInv(NaiveAcquire(n, max, k))
  {
  }

  lemma UseIsNew(m: map<Key, int>, uses: int, key: Key)
    requires NaiveInv(Naive(m, uses))
    ensures m[key := uses + 1] != map[] && Distinguishes(m[key := uses + 1])
  {
    assert key in m[key := uses + 1];
  }

  class NaiveScanPool {
    const max: int
    var used: map<Key, int>
    var uses: int

    constructor (max: int)
      ensures this.max == max && used == map[] && uses == 0
    {
      this.max, used, uses := max, map[], 0;
    }

    ghost function Value(): Naive
      reads this
    {
      Naive(used, uses)
    }

    method Acquire(key: Key)
      requires NaiveInv(Value())
      modifies this
      ensures NaiveInv(Value()) && Value() == NaiveAcquire(old(Value()), max, key)
    {
      hide NaiveInv, Oldest;
      NaiveKeepsInv(Value(), max, key);
      UseIsNew(used, uses, key);
      uses := uses + 1;
      if key in used {
        used := used[key := uses];
        return;
      }
      used := used[key := uses];
      if |used| > max {
        var victim := ScanForOldest();
        used := used - {victim};
      }
    }

    /** The scan, in whatever order the map is walked. */
    method ScanForOldest() returns (victim: Key)
      requires used != map[]
      requires Distinguishes(used)
      ensures victim == Oldest(used)
    {
      var found: Option<Key> := None;
      var min := 0;
      var todo := used.Keys;
      while todo != {}
        invariant todo <= used.Keys
        invariant found.None? ==> todo == used.Keys
        invariant found.Some? ==> found.value in used && used[found.value] == min
        invariant found.Some? ==> forall l :: l in used && l !in todo ==> min <= used[l]
        decreases todo
      {
        var k :| k in todo;
        if found.None? || used[k] < min {
          min := used[k];
          found := Some(k);
        }
        todo := todo - {k};
      }
      assert used.Keys != {};
      victim := found.value;
    }
  }
}
