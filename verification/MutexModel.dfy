/** The per-key promise-chain mutex (runExclusive) as a value. A cell's queue holds the calls chained
    on it that have not settled, oldest first; its `pending` counter is the queue's length, and only
    the oldest call of a cell runs. */
module MutexModel {
  import opened PoolModel

  datatype Cell = Cell(key: Key, queue: seq<nat>, lastUsed: int)

  /** `current` is the map `mutexes`; `cells` keeps every cell ever made, also those the map dropped. */
  datatype Mutexes = Mutexes(cells: seq<Cell>, current: map<Key, nat>)

  predicate CellsWf(m: Mutexes) {
    forall k :: k in m.current ==> m.current[k] < |m.cells|
  }

  /** runExclusive up to its return: chain the call on the key's cell, a new one if there is none. */
  function Enter(m: Mutexes, k: Key, a: nat, now: int): (Mutexes, nat)
    requires CellsWf(m)
  {
    if k in m.current then
      var c := m.current[k];
      (m.(cells := m.cells[c := m.cells[c].(queue := m.cells[c].queue + [a], lastUsed := now)]), c)
    else
      (Mutexes(m.cells + [Cell(k, [a], now)], m.current[k := |m.cells|]), |m.cells|)
  }

  /** `settled`: the oldest call leaves, and an empty cell leaves the map if it is still there. */
  function Settled(m: Mutexes, c: nat, now: int): Mutexes
    requires c < |m.cells| && m.cells[c].queue != []
  {
    var cell := m.cells[c].(queue := m.cells[c].queue[1..], lastUsed := now);
    Mutexes(m.cells[c := cell],
            if cell.queue == [] && cell.key in m.current && m.current[cell.key] == c
            then m.current - {cell.key} else m.current)
  }

  /** gcKeyState's walk over the mutex map. */
  function GcCells(m: Mutexes, gcMs: int, now: int): Mutexes
    requires CellsWf(m)
  {
    if gcMs == 0 then m
    else m.(current := map k | k in m.current
              && !(m.cells[m.current[k]].queue == [] && m.cells[m.current[k]].lastUsed <= now - gcMs)
              :: m.current[k])
  }
}
