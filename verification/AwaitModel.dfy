/** What a drain waits for: the promise of an entry's disposal, or a resolver it has pushed on the
    entry's disposeWaiters, once in each of its two loops. */
module AwaitModel {
  import opened PoolModel

  /** A resolver that drain number `drain` pushed on entry e, in its first or second loop. */
  datatype Ticket = Ticket(drain: nat, e: nat, pass: nat)

  /** One element of `waits`: a promise resolved from the start, `entry.disposing`, or the promise of a
      resolver. */
  datatype Wait = Over(entry: nat) | Disposal(entry: nat) | Resolver(ticket: Ticket)

  /** `tickets` are the resolvers in the disposeWaiters of all entries, `fired` those that were called,
      and `ended` the entries whose promise `disposing` has resolved. */
  datatype Awaits = Awaits(tickets: set<Ticket>, fired: set<Ticket>, ended: set<nat>)

  const NO_AWAITS := Awaits({}, {}, {})

  function EntryOf(w: Wait): nat {
    match w
    case Over(e) => e
    case Disposal(e) => e
    case Resolver(t) => t.e
  }

  predicate IsSettled(aw: Awaits, w: Wait) {
    match w
    case Over(_) => true
    case Disposal(e) => e in aw.ended
    case Resolver(t) => t in aw.fired
  }

  /** What `dispose(entry)` returns. */
  function DisposeWait(p: Pool, e: nat): Wait
    requires e < |p.table|
  {
    if p.table[e].life.Disposed? then Over(e) else Disposal(e)
  }

  /** awaitDisposal. */
  function AwaitDisposal(p: Pool, t: Ticket): Wait
    requires t.e < |p.table|
  {
    if p.table[t.e].life.Disposed? then Over(t.e) else Resolver(t)
  }

  /** What the first loop waits for on behalf of a live entry. */
  function FirstWait(p: Pool, d: nat, e: nat): Wait
    requires e < |p.table|
  {
    if p.table[e].refCount == 0 then DisposeWait(p, e) else AwaitDisposal(p, Ticket(d, e, 1))
  }

  /** The orphans that the second loop meets: the old ones and those the first loop has made. */
  function AllOrphans(p: Pool): map<Key, nat>
    requires Wf(p)
  {
    p.orphans + Held(p, p.entries.Keys)
  }

  /** `waits` of drain number d, called on p. */
  function Waits(p: Pool, d: nat): set<Wait>
    requires Wf(p)
  {
    (set k | k in p.entries :: FirstWait(p, d, p.entries[k])) +
    (set k | k in AllOrphans(p) :: AwaitDisposal(p, Ticket(d, AllOrphans(p)[k], 2)))
  }

  /** The entries that a set of promises is about. */
  function Awaited(ws: set<Wait>): set<nat> { set w | w in ws :: EntryOf(w) }

  function StartWaits(aw: Awaits, ws: set<Wait>): Awaits {
    aw.(tickets := aw.tickets + set w | w in ws && w.Resolver? :: w.ticket)
  }

  /** The end of a disposal empties the entry's disposeWaiters, calls each, and resolves its promise. */
  function EndDisposal(aw: Awaits, e: nat): Awaits {
    var mine := set t | t in aw.tickets && t.e == e;
    Awaits(aw.tickets - mine, aw.fired + mine, aw.ended + {e})
  }

  // --- promises and disposals ---

  /** A resolver is pending exactly while its entry is not disposed, and a promise of disposal has
      resolved exactly when its entry is. */
  predicate BoardOk(t: seq<Rec>, aw: Awaits) {
    && (forall k :: k in aw.tickets ==> k.e < |t| && !t[k.e].life.Disposed?)
    && (forall k :: k in aw.fired ==> k.e < |t| && t[k.e].life.Disposed?)
    && (forall e :: e in aw.ended ==> e < |t| && t[e].life.Disposed?)
    && (forall e :: 0 <= e < |t| && t[e].life.Disposed? ==> e in aw.ended)
  }

  /** An awaited promise exists. */
  predicate WaitOk(t: seq<Rec>, aw: Awaits, w: Wait) {
    && EntryOf(w) < |t|
    && (w.Over? ==> t[w.entry].life.Disposed?)
    && (w.Resolver? ==> w.ticket in aw.tickets || w.ticket in aw.fired)
  }

  predicate WaitsOk(t: seq<Rec>, aw: Awaits, ws: set<Wait>) { forall w :: w in ws ==> WaitOk(t, aw, w) }

  /** A promise has resolved if and only if the entry it is about has been disposed. */
  lemma SettledIffDisposed(t: seq<Rec>, aw: Awaits, w: Wait)
    requires BoardOk(t, aw) && WaitOk(t, aw, w)
    ensures IsSettled(aw, w) <==> t[EntryOf(w)].life.Disposed?
  {
  }

  /** All of them have if and only if all those entries have. */
  lemma AllSettledIffDisposed(t: seq<Rec>, aw: Awaits, ws: set<Wait>)
    requires BoardOk(t, aw) && WaitsOk(t, aw, ws)
    ensures forall e :: e in Awaited(ws) ==> e < |t|
    ensures (forall w :: w in ws ==> IsSettled(aw, w)) <==> (forall e :: e in Awaited(ws) ==> t[e].life.Disposed?)
  {
    forall w | w in ws ensures IsSettled(aw, w) <==> t[EntryOf(w)].life.Disposed? {
      assert WaitOk(t, aw, w);
      SettledIffDisposed(t, aw, w);
      assert EntryOf(w) in Awaited(ws);
    }
    forall e | e in Awaited(ws) ensures e < |t| {
      var w :| w in ws && EntryOf(w) == e;
      assert WaitOk(t, aw, w);
    }
  }

  /** Nothing is disposed and nothing comes back. */
  predicate SameDisposed(t: seq<Rec>, u: seq<Rec>) {
    && |t| <= |u|
    && (forall e :: 0 <= e < |t| ==> (t[e].life.Disposed? <==> u[e].life.Disposed?))
    && (forall e :: |t| <= e < |u| ==> !u[e].life.Disposed?)
  }

  lemma SameKeepsBoard(t: seq<Rec>, u: seq<Rec>, aw: Awaits)
    requires BoardOk(t, aw) && SameDisposed(t, u)
    ensures BoardOk(u, aw)
  {
  }

  lemma SameKeepsWaits(t: seq<Rec>, u: seq<Rec>, aw: Awaits, ws: set<Wait>)
    requires WaitsOk(t, aw, ws) && SameDisposed(t, u)
    ensures WaitsOk(u, aw, ws)
  {
    forall w | w in ws ensures WaitOk(u, aw, w) {
      assert WaitOk(t, aw, w);
    }
  }

  lemma EndKeepsBoard(t: seq<Rec>, u: seq<Rec>, aw: Awaits, e: nat)
    requires BoardOk(t, aw) && e < |t| == |u| && u[e].life.Disposed?
    requires forall x :: 0 <= x < |t| && x != e ==> u[x] == t[x]
    ensures BoardOk(u, EndDisposal(aw, e))
  {
  }

  lemma EndKeepsWaits(t: seq<Rec>, u: seq<Rec>, aw: Awaits, e: nat, ws: set<Wait>)
    requires WaitsOk(t, aw, ws) && e < |t| == |u| && u[e].life.Disposed?
    requires forall x :: 0 <= x < |t| && x != e ==> u[x] == t[x]
    ensures WaitsOk(u, EndDisposal(aw, e), ws)
    ensures forall w :: w in ws && IsSettled(aw, w) ==> IsSettled(EndDisposal(aw, e), w)
  {
    forall w | w in ws ensures WaitOk(u, EndDisposal(aw, e), w) {
      assert WaitOk(t, aw, w);
    }
  }

  /** The promises of a drain that starts are all there. */
  lemma StartKeepsBoard(p: Pool, t: seq<Rec>, aw: Awaits, d: nat)
    requires Wf(p) && BoardOk(p.table, aw) && SameDisposed(p.table, t)
    ensures BoardOk(t, StartWaits(aw, Waits(p, d)))
    ensures WaitsOk(t, StartWaits(aw, Waits(p, d)), Waits(p, d))
  {
    hide AllOrphans;
    OrphansInTable(p);
    var ws := Waits(p, d);
    forall w | w in ws ensures WaitOk(t, StartWaits(aw, ws), w) {
      if w.Resolver? {
        assert w.ticket in StartWaits(aw, ws).tickets;
      }
    }
    assert forall w :: w in ws && w.Resolver? ==> w.ticket.e < |t| && !t[w.ticket.e].life.Disposed?;
  }

  lemma OrphansInTable(p: Pool)
    requires Wf(p)
    ensures forall k :: k in AllOrphans(p) ==> AllOrphans(p)[k] < |p.table|
  {
  }

  lemma StartKeepsWaits(t: seq<Rec>, u: seq<Rec>, aw: Awaits, ws: set<Wait>, more: set<Wait>)
    requires WaitsOk(t, aw, ws) && SameDisposed(t, u)
    ensures WaitsOk(u, StartWaits(aw, more), ws)
  {
    forall w | w in ws ensures WaitOk(u, StartWaits(aw, more), w) {
      assert WaitOk(t, aw, w);
    }
  }

  /** A drain awaits the entries of both maps, and no others. */
  lemma AwaitsResidents(p: Pool, d: nat)
    requires Wf(p)
    ensures Awaited(Waits(p, d)) == Range(p.entries) + Range(p.orphans + Held(p, p.entries.Keys))
  {
    hide AllOrphans;
    var ws := Waits(p, d);
    OrphansInTable(p);
    var m := AllOrphans(p);
    forall e | e in Range(p.entries) ensures e in Awaited(ws) {
      var k :| k in p.entries && p.entries[k] == e;
      assert FirstWait(p, d, e) in ws;
      assert EntryOf(FirstWait(p, d, e)) == e;
    }
    forall e | e in Range(m) ensures e in Awaited(ws) {
      var k :| k in m && m[k] == e;
      assert AwaitDisposal(p, Ticket(d, e, 2)) in ws;
      assert EntryOf(AwaitDisposal(p, Ticket(d, e, 2))) == e;
    }
    forall e | e in Awaited(ws) ensures e in Range(p.entries) + Range(m) {
      var w :| w in ws && EntryOf(w) == e;
      if k :| k in p.entries && w == FirstWait(p, d, p.entries[k]) {
        assert e == p.entries[k];
      } else {
        var k :| k in m && w == AwaitDisposal(p, Ticket(d, m[k], 2));
        assert e == m[k];
      }
    }
    assert m == p.orphans + Held(p, p.entries.Keys) by { AllOrphansAre(p); }
  }

  lemma AllOrphansAre(p: Pool)
    requires Wf(p)
    ensures AllOrphans(p) == p.orphans + Held(p, p.entries.Keys)
  {
  }
}
