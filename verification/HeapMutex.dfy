/** The per-key mutex as the program has it: a map of cells that runExclusive fills, and that
    `settled` and gcKeyState empty. */
module HeapMutex {
  import opened PoolModel
  import opened MutexModel

  /** `tail` stands for the promise chain: the calls chained on the cell that have not settled. */
  class MutexCell {
    const key: Key
    var tail: seq<nat>
    var pending: int
    var lastUsed: int
    ghost const id: nat

    constructor (key: Key, now: int, ghost id: nat)
      ensures this.key == key && this.id == id && tail == [] && pending == 0 && lastUsed == now
    {
      this.key, this.id := key, id;
      tail, pending, lastUsed := [], 0, now;
    }

    ghost predicate Shows(c: Cell)
      reads this
    {
      key == c.key && tail == c.queue && pending == |c.queue| && lastUsed == c.lastUsed
    }
  }

  ghost predicate CellsOk(repr: set<MutexCell>, all: seq<MutexCell>, cells: seq<Cell>)
    reads repr
  {
    && |all| == |cells|
    && (forall c :: 0 <= c < |all| ==> all[c] in repr && all[c].id == c && all[c].Shows(cells[c]))
    && (forall o :: o in repr ==> o.id < |all| && all[o.id] == o)
  }

  function WithCell(m: Mutexes, key: Key, now: int): (n: Mutexes)
    ensures key in n.current
  {
    if key in m.current then m else Mutexes(m.cells + [Cell(key, [], now)], m.current[key := |m.cells|])
  }

  lemma EnterIs(m: Mutexes, key: Key, call: nat, now: int)
    requires CellsWf(m)
    ensures var n := WithCell(m, key, now); var c := n.current[key];
      c < |n.cells| && Enter(m, key, call, now)
        == (n.(cells := n.cells[c := n.cells[c].(queue := n.cells[c].queue + [call], lastUsed := now)]), c)
  {
    if key !in m.current {
      assert [] + [call] == [call];
      assert (m.cells + [Cell(key, [], now)])[|m.cells| := Cell(key, [call], now)]
          == m.cells + [Cell(key, [call], now)];
    }
  }

  class KeyedMutex {
    var mutexes: map<Key, MutexCell>
    ghost var repr: set<MutexCell>
    ghost var all: seq<MutexCell>

    ghost predicate Represents(m: Mutexes)
      reads this, repr
    {
      && CellsOk(repr, all, m.cells) && mutexes.Keys == m.current.Keys
      && forall k :: k in m.current ==> m.current[k] < |all| && mutexes[k] == all[m.current[k]]
    }

    constructor ()
      ensures Represents(Mutexes([], map[])) && repr == {}
    {
      mutexes, repr, all := map[], {}, [];
    }

    /** The key's cell, made on demand. */
    method CellFor(key: Key, now: int, ghost m: Mutexes) returns (cell: MutexCell)
      requires Represents(m)
      modifies this
      ensures CellsWf(m) && cell in repr && fresh(repr - old(repr))
      ensures Represents(WithCell(m, key, now)) && cell.id == WithCell(m, key, now).current[key]
    {
      if key in mutexes {
        return mutexes[key];
      }
      cell := new MutexCell(key, now, |all|);
      mutexes := mutexes[key := cell];
      repr := repr + {cell};
      all := all + [cell];
    }

    /** Chain a call on the key's cell; it may start when the calls before it have settled. */
    method RunExclusive(key: Key, call: nat, now: int, ghost m: Mutexes) returns (cell: MutexCell)
      requires Represents(m)
      modifies this, repr
      ensures CellsWf(m) && cell in repr && fresh(repr - old(repr))
      ensures Represents(Enter(m, key, call, now).0) && cell.id == Enter(m, key, call, now).1
    {
      cell := CellFor(key, now, m);
      Chain(cell, call, now, WithCell(m, key, now));
      EnterIs(m, key, call, now);
    }

    method Chain(cell: MutexCell, call: nat, now: int, ghost m: Mutexes)
      requires Represents(m) && cell in repr
      modifies cell
      ensures cell.id < |m.cells|
      ensures Represents(m.(cells := m.cells[cell.id :=
                m.cells[cell.id].(queue := m.cells[cell.id].queue + [call], lastUsed := now)]))
    {
      cell.pending := cell.pending + 1;
      cell.lastUsed := now;
      cell.tail := cell.tail + [call];
    }

    /** The oldest call of a cell has settled. */
    method Settle(cell: MutexCell, now: int, ghost m: Mutexes)
      requires Represents(m) && cell in repr && |cell.tail| > 0
      modifies this`mutexes, cell
      ensures cell.id < |m.cells| && m.cells[cell.id].queue != []
      ensures Represents(Settled(m, cell.id, now))
    {
      cell.pending := cell.pending - 1;
      cell.lastUsed := now;
      cell.tail := cell.tail[1..];
      if cell.pending == 0 && cell.key in mutexes && mutexes[cell.key] == cell {
        mutexes := mutexes - {cell.key};
      }
    }

    /** gcKeyState's loop over a snapshot of the map. */
    method CollectCells(gcMs: int, now: int, ghost m: Mutexes)
      requires Represents(m)
      modifies this`mutexes
      ensures CellsWf(m) && Represents(GcCells(m, gcMs, now))
    {
      if gcMs == 0 {
        return;
      }
      var cutoff := now - gcMs;
      var todo := mutexes.Keys;
      while todo != {}
        invariant todo <= m.current.Keys && repr == old(repr) && all == old(all)
        invariant CellsOk(repr, all, m.cells)
        invariant forall k :: k in mutexes <==>
          k in m.current
          && (k in todo || !(m.cells[m.current[k]].queue == [] && m.cells[m.current[k]].lastUsed <= cutoff))
        invariant forall k :: k in mutexes ==> mutexes[k] == all[m.current[k]]
        decreases todo
      {
        var key :| key in todo;
        var cell := mutexes[key];
        if cell.pending == 0 && cell.lastUsed <= cutoff {
          mutexes := mutexes - {key};
        }
        todo := todo - {key};
      }
    }
  }
}
