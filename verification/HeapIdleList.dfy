/** The intrusive idle list: entries chained by prev and next, linked and unlinked in place. */
module HeapIdleList {
  import opened Counting
  import opened PoolModel

  class Entry {
    const key: Key
    var refCount: nat
    var lastReleasedAt: int
    var condemned: bool
    var disposed: bool
    var disposing: bool
    var inIdle: bool
    var prev: Entry?
    var next: Entry?
    ghost const id: nat
    ghost var disposeCalls: nat

    constructor (key: Key, now: int, ghost id: nat)
      ensures this.key == key && this.id == id
      ensures refCount == 0 && lastReleasedAt == now && !condemned && !disposed && !disposing && disposeCalls == 0
      ensures !inIdle && prev == null && next == null
    {
      this.key := key;
      this.id := id;
      refCount, lastReleasedAt, condemned, disposed, disposing := 0, now, false, false, false;
      inIdle, prev, next := false, null, null;
      disposeCalls := 0;
    }

    /** The object has the record's values; the stamp is not stored anywhere. */
    ghost predicate Shows(r: Rec)
      reads this`refCount, this`lastReleasedAt, this`condemned, this`disposed, this`disposing, this`disposeCalls
    {
      && key == r.key && refCount == r.refCount && lastReleasedAt == r.lastReleasedAt && condemned == r.condemned
      && r.life == (if disposed then Disposed else if disposing then Disposing else Live)
      && disposeCalls == r.disposeCalls
    }
  }

  ghost function At(nodes: seq<Entry>, i: int): Entry? {
    if 0 <= i < |nodes| then nodes[i] else null
  }

  /** The node at position i is flagged, and linked to its two neighbours. */
  ghost predicate NodeOk(nodes: seq<Entry>, i: int)
    requires 0 <= i < |nodes|
    reads nodes`inIdle, nodes`prev, nodes`next
  {
    nodes[i].inIdle && nodes[i].prev == At(nodes, i - 1) && nodes[i].next == At(nodes, i + 1)
  }

  class IdleList {
    var head: Entry?
    var tail: Entry?
    var count: int
    /** The nodes from head to tail. */
    ghost var nodes: seq<Entry>

    /** Walking `next` from the head visits the nodes in order, walking `prev` from the tail visits
        them backwards, and among all entries exactly they are flagged. */
    ghost predicate Valid(repr: set<Entry>)
      reads this, repr`inIdle, repr`prev, repr`next
    {
      && Distinct(nodes) && count == |nodes|
      && head == At(nodes, 0) && tail == At(nodes, |nodes| - 1)
      && (forall i :: 0 <= i < |nodes| ==> nodes[i] in repr)
      && (forall i :: 0 <= i < |nodes| ==> NodeOk(nodes, i))
      && (forall e :: e in repr ==> (e.inIdle <==> e in nodes))
    }

    constructor ()
      ensures Valid({}) && nodes == []
    {
      head, tail, count, nodes := null, null, 0, [];
    }

    /** Append as the most recently released; nothing happens to an entry that is listed. */
    method Append(entry: Entry, ghost repr: set<Entry>)
      requires Valid(repr) && entry in repr
      modifies this, repr`inIdle, repr`prev, repr`next
      ensures Valid(repr)
      ensures nodes == if entry in old(nodes) then old(nodes) else old(nodes) + [entry]
    {
      if entry.inIdle {
        return;
      }
      entry.inIdle := true;
      entry.prev := tail;
      entry.next := null;
      if tail != null {
        tail.next := entry;
      } else {
        head := entry;
      }
      tail := entry;
      count := count + 1;
      nodes := nodes + [entry];
      forall i | 0 <= i < |nodes| ensures NodeOk(nodes, i) {
        if i < |nodes| - 1 {
          assert old(NodeOk(nodes, i));
        }
      }
    }

    /** Unlink; nothing happens to an entry that is not listed. */
    method Remove(entry: Entry, ghost repr: set<Entry>)
      requires Valid(repr) && entry in repr
      modifies this, repr`inIdle, repr`prev, repr`next
      ensures Valid(repr)
      ensures nodes == Without(old(nodes), entry)
    {
      hide Without, Index, Distinct, Shift, At;
      WithoutDistinct(nodes, entry);
      if !entry.inIdle {
        return;
      }
      ghost var k := Index(nodes, entry);
      WithoutShift(nodes, k);
      assert NodeOk(nodes, k);
      Neighbours(nodes, k, Without(nodes, entry));
      entry.inIdle := false;
      var prev, next := entry.prev, entry.next;
      if prev != null {
        prev.next := next;
      } else {
        head := next;
      }
      if next != null {
        next.prev := prev;
      } else {
        tail := prev;
      }
      entry.prev := null;
      entry.next := null;
      count := count - 1;
      nodes := Without(nodes, entry);
      forall i | 0 <= i < |nodes| ensures NodeOk(nodes, i) {
        ShiftNeighbours(old(nodes), k, nodes, i);
        assert old(NodeOk(nodes, Shift(k, i)));
      }
      assert forall i :: 0 <= i < |nodes| ==> nodes[i] in old(nodes);
    }

    /** drain's defensive reset of a list that it has emptied: nothing changes. */
    method Reset(ghost repr: set<Entry>)
      requires Valid(repr) && nodes == []
      modifies this
      ensures Valid(repr) && nodes == []
      ensures head == old(head) && tail == old(tail) && count == old(count)
    {
      head, tail, count := null, null, 0;
    }
  }

  /** Where the node at position i was before the one at position k left. */
  function Shift(k: nat, i: int): int { if i < k then i else i + 1 }

  lemma WithoutShift(q: seq<Entry>, k: nat)
    requires Distinct(q) && k < |q|
    ensures |Without(q, q[k])| == |q| - 1
    ensures forall i :: 0 <= i < |q| - 1 ==> Without(q, q[k])[i] == q[Shift(k, i)]
  {
    IndexDistinct(q, k);
    hide Index, Distinct;
    assert Without(q, q[k]) == q[..k] + q[k + 1..];
  }

  lemma Neighbours(q: seq<Entry>, k: nat, w: seq<Entry>)
    requires k < |q| && |w| == |q| - 1
    requires forall j :: 0 <= j < |w| ==> w[j] == q[Shift(k, j)]
    ensures At(q, k - 1) == null <==> k == 0
    ensures At(q, k + 1) == null <==> k == |q| - 1
    ensures At(q, k - 1) != null ==> At(q, k - 1) in q
    ensures At(q, k + 1) != null ==> At(q, k + 1) in q
    ensures At(w, 0) == if k == 0 then At(q, k + 1) else At(q, 0)
    ensures At(w, |w| - 1) == if k == |q| - 1 then At(q, k - 1) else At(q, |q| - 1)
  {
  }

  lemma ShiftNeighbours(q: seq<Entry>, k: nat, w: seq<Entry>, i: nat)
    requires Distinct(q) && k < |q| && |w| == |q| - 1 && i < |w|
    requires forall j :: 0 <= j < |w| ==> w[j] == q[Shift(k, j)]
    ensures At(w, i - 1) == if i == k then At(q, k - 1) else At(q, Shift(k, i) - 1)
    ensures At(w, i + 1) == if i + 1 == k then At(q, k + 1) else At(q, Shift(k, i) + 1)
    ensures q[Shift(k, i)] != q[k] && 0 <= Shift(k, i) < |q|
    ensures w[i] == q[Shift(k, i)]
    ensures At(q, k + 1) == q[Shift(k, i)] <==> i == k
    ensures At(q, k - 1) == q[Shift(k, i)] <==> i + 1 == k
  {
  }

  // --- walking the list ---

  /** The entries met on the first n steps along `next`. */
  ghost function Forward(e: Entry?, repr: set<Entry>, n: nat): seq<Entry>
    reads repr`next
  {
    if e == null || n == 0 then [] else [e] + if e in repr then Forward(e.next, repr, n - 1) else []
  }

  /** The entries met on the first n steps along `prev`. */
  ghost function Backward(e: Entry?, repr: set<Entry>, n: nat): seq<Entry>
    reads repr`prev
  {
    if e == null || n == 0 then [] else [e] + if e in repr then Backward(e.prev, repr, n - 1) else []
  }

  ghost function Reversed(q: seq<Entry>): seq<Entry> {
    if q == [] then [] else Reversed(q[1..]) + [q[0]]
  }

  lemma {:induction false} ForwardFrom(l: IdleList, repr: set<Entry>, i: nat, n: nat)
    requires l.Valid(repr) && i <= |l.nodes| && n >= |l.nodes| - i
    ensures Forward(At(l.nodes, i), repr, n) == l.nodes[i..]
    decreases |l.nodes| - i
  {
    if i < |l.nodes| {
      assert NodeOk(l.nodes, i);
      ForwardFrom(l, repr, i + 1, n - 1);
    }
  }

  lemma {:induction false} BackwardFrom(l: IdleList, repr: set<Entry>, i: nat, n: nat)
    requires l.Valid(repr) && i <= |l.nodes| && n >= i
    ensures Backward(At(l.nodes, i - 1), repr, n) == Reversed(l.nodes[..i])
  {
    hide Reversed, IdleList.Valid;
    if i > 0 {
      NodeBefore(l, repr, i);
      BackwardFrom(l, repr, i - 1, n - 1);
      ReversedSnoc(l.nodes[..i - 1], l.nodes[i - 1]);
      assert l.nodes[..i] == l.nodes[..i - 1] + [l.nodes[i - 1]];
    } else {
      ReversedNone(l.nodes[..i]);
    }
  }

  lemma NodeBefore(l: IdleList, repr: set<Entry>, i: nat)
    requires l.Valid(repr) && 0 < i <= |l.nodes|
    ensures l.nodes[i - 1] in repr && l.nodes[i - 1].prev == At(l.nodes, i - 2)
  {
    assert NodeOk(l.nodes, i - 1);
  }

  lemma ReversedNone(q: seq<Entry>)
    requires q == []
    ensures Reversed(q) == []
  {
  }

  lemma {:induction false} ReversedSnoc(q: seq<Entry>, e: Entry)
    ensures Reversed(q + [e]) == [e] + Reversed(q)
  {
    if q == [] {
      assert (q + [e])[1..] == [];
    } else {
      ReversedSnoc(q[1..], e);
      assert (q + [e])[1..] == q[1..] + [e];
    }
  }

  /** Walking `next` from the head gives a sequence of `count` entries without repetition, walking
      `prev` from the tail gives its reverse, both end at null, and they meet exactly the flagged
      entries: however far one walks. */
  lemma WalksAgree(l: IdleList, repr: set<Entry>, n: nat)
    requires l.Valid(repr) && n >= l.count
    ensures Forward(l.head, repr, n) == l.nodes && Backward(l.tail, repr, n) == Reversed(l.nodes)
    ensures |l.nodes| == l.count && Distinct(l.nodes)
    ensures forall e :: e in repr ==> (e.inIdle <==> e in Forward(l.head, repr, n))
  {
    hide Forward, Backward, Reversed, NodeOk, Distinct;
    ForwardFrom(l, repr, 0, n);
    BackwardFrom(l, repr, |l.nodes|, n);
    assert l.nodes[0..] == l.nodes;
    assert l.nodes[..|l.nodes|] == l.nodes;
  }
}
