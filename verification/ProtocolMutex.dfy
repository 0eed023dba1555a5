/** Per-key exclusion: the chain of a key is the queue of the one cell in the map, in call order. */
module ProtocolMutex {
  import opened PoolModel
  import opened MutexModel
  import opened Protocol

  /** The map leads to a non-empty cell of its key, and every non-empty cell is in the map. */
  predicate CurrentOk(m: Mutexes) {
    && (forall k :: k in m.current ==>
         m.current[k] < |m.cells| && m.cells[m.current[k]].key == k && m.cells[m.current[k]].queue != [])
    && (forall c :: 0 <= c < |m.cells| && m.cells[c].queue != [] ==>
         m.cells[c].key in m.current && m.current[m.cells[c].key] == c)
  }

  /** A cell chains active acquires of its key in call order, and all but the oldest still wait. */
  predicate CellOk(m: Mutexes, acqs: seq<Acq>, c: nat)
    requires c < |m.cells|
  {
    var q := m.cells[c].queue;
    && (forall i, j :: 0 <= i < j < |q| ==> q[i] < q[j])
    && (forall i :: 0 <= i < |q| ==>
         q[i] < |acqs| && acqs[q[i]].key == m.cells[c].key && acqs[q[i]].cell == c && Active(acqs[q[i]])
         && (i > 0 ==> acqs[q[i]].phase.Queued?))
  }

  predicate ChainedOk(m: Mutexes, acqs: seq<Acq>, a: nat)
    requires a < |acqs|
  {
    Active(acqs[a]) ==> acqs[a].cell < |m.cells| && a in m.cells[acqs[a].cell].queue
  }

  predicate MutexInv(m: Mutexes, acqs: seq<Acq>) {
    && CurrentOk(m)
    && (forall c :: 0 <= c < |m.cells| ==> CellOk(m, acqs, c))
    && (forall a :: 0 <= a < |acqs| ==> ChainedOk(m, acqs, a))
  }

  /** Whoever is past Queued is the oldest of the one cell of its key. */
  lemma RunnerIsHead(m: Mutexes, acqs: seq<Acq>, a: nat)
    requires MutexInv(m, acqs) && a < |acqs| && Active(acqs[a]) && !acqs[a].phase.Queued?
    ensures acqs[a].cell < |m.cells| && m.cells[acqs[a].cell].queue != [] && m.cells[acqs[a].cell].queue[0] == a
    ensures acqs[a].key in m.current && m.current[acqs[a].key] == acqs[a].cell
  {
    assert ChainedOk(m, acqs, a);
    var c := acqs[a].cell;
    assert CellOk(m, acqs, c);
    var i :| 0 <= i < |m.cells[c].queue| && m.cells[c].queue[i] == a;
  }

  /** Acquire a is the oldest of the cell it was chained on. */
  predicate IsHead(m: Mutexes, acqs: seq<Acq>, a: nat) {
    && a < |acqs| && Active(acqs[a]) && acqs[a].cell < |m.cells|
    && m.cells[acqs[a].cell].queue != [] && m.cells[acqs[a].cell].queue[0] == a
  }

  lemma HeadExclusion(m: Mutexes, acqs: seq<Acq>, a: nat, b: nat)
    requires MutexInv(m, acqs) && IsHead(m, acqs, a)
    requires b < |acqs| && Active(acqs[b]) && !acqs[b].phase.Queued? && acqs[a].key == acqs[b].key
    ensures a == b
  {
    RunnerIsHead(m, acqs, b);
    assert CellOk(m, acqs, acqs[a].cell);
  }

  /** At most one acquire per key is inside obtain. */
  lemma Exclusion(m: Mutexes, acqs: seq<Acq>, a: nat, b: nat)
    requires MutexInv(m, acqs) && a < |acqs| && b < |acqs| && acqs[a].key == acqs[b].key
    requires Active(acqs[a]) && !acqs[a].phase.Queued? && Active(acqs[b]) && !acqs[b].phase.Queued?
    ensures a == b
  {
    RunnerIsHead(m, acqs, a);
    RunnerIsHead(m, acqs, b);
  }

  /** obtain bodies of a key start in call order: whoever starts has no older acquire of its key
      still waiting or running. */
  lemma StartsInCallOrder(m: Mutexes, acqs: seq<Acq>, a: nat, b: nat)
    requires MutexInv(m, acqs) && b < a < |acqs| && acqs[a].key == acqs[b].key
    requires Active(acqs[a]) && acqs[a].cell < |m.cells|
    requires m.cells[acqs[a].cell].queue != [] && m.cells[acqs[a].cell].queue[0] == a
    ensures !Active(acqs[b])
  {
    assert ChainedOk(m, acqs, a) && ChainedOk(m, acqs, b);
    assert CellOk(m, acqs, acqs[a].cell);
    assert acqs[b].cell < |m.cells| ==> CellOk(m, acqs, acqs[b].cell);
  }

  // --- the shapes of a step, seen by the mutex ---

  lemma EnterKeeps(m: Mutexes, acqs: seq<Acq>, k: Key, now: int)
    requires MutexInv(m, acqs)
    ensures CellsWf(m)
    ensures var r := Enter(m, k, |acqs|, now); MutexInv(r.0, acqs + [Acq(k, r.1, Queued)])
  {
    var (n, c) := Enter(m, k, |acqs|, now);
    var bs := acqs + [Acq(k, c, Queued)];
    forall d | 0 <= d < |n.cells| ensures CellOk(n, bs, d) {
      if d < |m.cells| {
        assert CellOk(m, acqs, d);
      }
    }
    forall a | 0 <= a < |bs| ensures ChainedOk(n, bs, a) {
      if a < |acqs| {
        assert ChainedOk(m, acqs, a);
      } else {
        var q := n.cells[c].queue;
        assert q[|q| - 1] == a;
      }
    }
  }

  /** A call that never touched the mutex. */
  lemma AppendKeepsMutex(m: Mutexes, acqs: seq<Acq>, x: Acq)
    requires MutexInv(m, acqs) && !Active(x)
    ensures MutexInv(m, acqs + [x])
  {
    forall c | 0 <= c < |m.cells| ensures CellOk(m, acqs + [x], c) {
      assert CellOk(m, acqs, c);
    }
    forall a | 0 <= a < |acqs + [x]| ensures ChainedOk(m, acqs + [x], a) {
      if a < |acqs| {
        assert ChainedOk(m, acqs, a);
      }
    }
  }

  /** The running acquire goes from phase to phase. */
  lemma MoveKeepsMutex(m: Mutexes, acqs: seq<Acq>, a: nat, x: Acq)
    requires MutexInv(m, acqs) && a < |acqs| && x.key == acqs[a].key && x.cell == acqs[a].cell
    requires Active(acqs[a]) == Active(x)
    requires Active(x) ==> acqs[a].cell < |m.cells| && m.cells[acqs[a].cell].queue != []
                           && m.cells[acqs[a].cell].queue[0] == a
    ensures MutexInv(m, acqs[a := x])
  {
    var bs := acqs[a := x];
    forall c | 0 <= c < |m.cells| ensures CellOk(m, bs, c) {
      assert CellOk(m, acqs, c);
      if Active(x) {
        assert CellOk(m, acqs, acqs[a].cell);
      }
    }
    forall b | 0 <= b < |bs| ensures ChainedOk(m, bs, b) {
      assert ChainedOk(m, acqs, b);
    }
  }

  /** The running acquire settles: the next of its cell may start, and an empty cell is dropped. */
  lemma SettledKeeps(m: Mutexes, acqs: seq<Acq>, a: nat, x: Acq, now: int)
    requires MutexInv(m, acqs) && a < |acqs| && x.key == acqs[a].key && x.cell == acqs[a].cell
    requires Active(acqs[a]) && !acqs[a].phase.Queued? && !Active(x)
    ensures acqs[a].cell < |m.cells| && m.cells[acqs[a].cell].queue != []
    ensures MutexInv(Settled(m, acqs[a].cell, now), acqs[a := x])
  {
    RunnerIsHead(m, acqs, a);
    var c := acqs[a].cell;
    var n := Settled(m, c, now);
    var bs := acqs[a := x];
    SettledCurrent(m, c, now);
    hide CurrentOk, Settled, CellOk, ChainedOk;
    assert |n.cells| == |m.cells| by { SettledSize(m, c, now); }
    forall d | 0 <= d < |n.cells| ensures CellOk(n, bs, d) {
      SettledCell(m, acqs, a, x, now, d);
    }
    forall b | 0 <= b < |bs| ensures ChainedOk(n, bs, b) {
      SettledChain(m, acqs, a, x, now, b);
    }
  }

  lemma SettledSize(m: Mutexes, c: nat, now: int)
    requires c < |m.cells| && m.cells[c].queue != []
    ensures |Settled(m, c, now).cells| == |m.cells|
  {
  }

  lemma SettledCell(m: Mutexes, acqs: seq<Acq>, a: nat, x: Acq, now: int, d: nat)
    requires MutexInv(m, acqs) && a < |acqs| && x.key == acqs[a].key && x.cell == acqs[a].cell && d < |m.cells|
    requires acqs[a].cell < |m.cells| && m.cells[acqs[a].cell].queue != [] && m.cells[acqs[a].cell].queue[0] == a
    ensures var n := Settled(m, acqs[a].cell, now); |n.cells| == |m.cells| && CellOk(n, acqs[a := x], d)
  {
    hide CurrentOk, ChainedOk;
    assert CellOk(m, acqs, d);
    assert CellOk(m, acqs, acqs[a].cell);
  }

  lemma SettledChain(m: Mutexes, acqs: seq<Acq>, a: nat, x: Acq, now: int, b: nat)
    requires MutexInv(m, acqs) && a < |acqs| && x.cell == acqs[a].cell && !Active(x) && b < |acqs|
    requires acqs[a].cell < |m.cells| && m.cells[acqs[a].cell].queue != [] && m.cells[acqs[a].cell].queue[0] == a
    ensures ChainedOk(Settled(m, acqs[a].cell, now), acqs[a := x], b)
  {
    hide CurrentOk, CellOk;
    var c := acqs[a].cell;
    assert ChainedOk(m, acqs, b);
    if b != a && Active(acqs[b]) && acqs[b].cell == c {
      var i :| 0 <= i < |m.cells[c].queue| && m.cells[c].queue[i] == b;
      assert Settled(m, c, now).cells[c].queue[i - 1] == b;
    }
  }

  lemma SettledCurrent(m: Mutexes, c: nat, now: int)
    requires CurrentOk(m) && c < |m.cells| && m.cells[c].queue != []
    ensures CurrentOk(Settled(m, c, now))
  {
  }

  /** The periodic collection of mutex cells never finds one to drop. */
  lemma GcFindsNothing(m: Mutexes, gcMs: int, now: int)
    requires CurrentOk(m)
    ensures CellsWf(m) && GcCells(m, gcMs, now) == m
  {
    assert GcCells(m, gcMs, now).current == m.current;
  }
}
