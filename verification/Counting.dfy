/** Counting the elements of a sequence that satisfy a predicate, and removing one element. */
module Counting {

  function Count<T>(xs: seq<T>, f: T -> bool): nat {
    if |xs| == 0 then 0
    else Count(xs[..|xs| - 1], f) + if f(xs[|xs| - 1]) then 1 else 0
  }

  function One(b: bool): nat { if b then 1 else 0 }

  lemma CountAppend<T>(xs: seq<T>, x: T, f: T -> bool)
    ensures Count(xs + [x], f) == Count(xs, f) + One(f(x))
  {
    assert (xs + [x])[..|xs|] == xs;
  }

  lemma {:induction false} CountUpdate<T>(xs: seq<T>, i: nat, x: T, f: T -> bool)
    requires i < |xs|
    ensures Count(xs[i := x], f) + One(f(xs[i])) == Count(xs, f) + One(f(x))
  {
    var n := |xs| - 1;
    if i == n {
      assert xs[i := x][..n] == xs[..n];
    } else {
      CountUpdate(xs[..n], i, x, f);
      assert xs[i := x][..n] == xs[..n][i := x];
    }
  }

  lemma {:induction false} CountAgree<T, U>(xs: seq<T>, ys: seq<U>, f: T -> bool, g: U -> bool)
    requires |xs| == |ys|
    requires forall i :: 0 <= i < |xs| ==> f(xs[i]) == g(ys[i])
    ensures Count(xs, f) == Count(ys, g)
  {
    if |xs| > 0 {
      CountAgree(xs[..|xs| - 1], ys[..|ys| - 1], f, g);
    }
  }

  /** Two predicates that differ at one position only, where the second one holds. */
  lemma {:induction false} CountFlip<T>(xs: seq<T>, a: nat, f: T -> bool, g: T -> bool)
    requires a < |xs| && !f(xs[a]) && g(xs[a])
    requires forall i :: 0 <= i < |xs| && i != a ==> f(xs[i]) == g(xs[i])
    ensures Count(xs, g) == Count(xs, f) + 1
  {
    var n := |xs| - 1;
    if a == n {
      CountAgree(xs[..n], xs[..n], f, g);
    } else {
      CountFlip(xs[..n], a, f, g);
    }
  }

  lemma {:induction false} CountMember<T>(xs: seq<T>, a: nat, f: T -> bool)
    requires a < |xs| && f(xs[a])
    ensures Count(xs, f) > 0
  {
    if a < |xs| - 1 {
      CountMember(xs[..|xs| - 1], a, f);
    }
  }

  lemma {:induction false} CountWitness<T>(xs: seq<T>, f: T -> bool) returns (a: nat)
    requires Count(xs, f) > 0
    ensures a < |xs| && f(xs[a])
  {
    a := |xs| - 1;
    if !f(xs[a]) {
      a := CountWitness(xs[..|xs| - 1], f);
    }
  }

  lemma {:induction false} CountNone<T>(xs: seq<T>, f: T -> bool)
    requires forall i :: 0 <= i < |xs| ==> !f(xs[i])
    ensures Count(xs, f) == 0
  {
    if |xs| > 0 {
      CountNone(xs[..|xs| - 1], f);
    }
  }

  /** A predicate split in two disjoint ones. */
  lemma {:induction false} CountSplit<T>(xs: seq<T>, f: T -> bool, g: T -> bool, h: T -> bool)
    requires forall i :: 0 <= i < |xs| ==> One(f(xs[i])) == One(g(xs[i])) + One(h(xs[i]))
    ensures Count(xs, f) == Count(xs, g) + Count(xs, h)
  {
    if |xs| > 0 {
      CountSplit(xs[..|xs| - 1], f, g, h);
    }
  }

  function Positions<T>(xs: seq<T>, f: T -> bool): set<nat> {
    set i: nat | i < |xs| && f(xs[i])
  }

  /** The positions that satisfy a predicate are as many as the count. */
  lemma {:induction false} CountIsCardinality<T>(xs: seq<T>, f: T -> bool)
    ensures |Positions(xs, f)| == Count(xs, f)
  {
    if |xs| > 0 {
      var n := |xs| - 1;
      CountIsCardinality(xs[..n], f);
      assert Positions(xs, f) == if f(xs[n]) then Positions(xs[..n], f) + {n} else Positions(xs[..n], f);
    }
  }

  predicate Distinct<T(==)>(q: seq<T>) {
    forall i, j :: 0 <= i < j < |q| ==> q[i] != q[j]
  }

  function Index<T(==)>(q: seq<T>, e: T): (k: nat)
    requires e in q
    ensures k < |q| && q[k] == e && e !in q[..k]
  {
    if q[0] == e then 0 else 1 + Index(q[1..], e)
  }

  /** q without its first occurrence of e: what indexOf followed by splice leaves. */
  function Without<T(==)>(q: seq<T>, e: T): seq<T> {
    if e in q then var k := Index(q, e); q[..k] + q[k + 1..] else q
  }

  lemma IndexDistinct<T>(q: seq<T>, k: nat)
    requires Distinct(q) && k < |q|
    ensures Index(q, q[k]) == k
  {
  }

  lemma WithoutDistinct<T>(q: seq<T>, e: T)
    requires Distinct(q)
    ensures Distinct(Without(q, e))
    ensures forall x :: x in Without(q, e) <==> x in q && x != e
    ensures e in q ==> |Without(q, e)| == |q| - 1
    ensures e !in q ==> Without(q, e) == q
  {
    if e in q {
      var k := Index(q, e);
      var w := q[..k] + q[k + 1..];
      assert Without(q, e) == w;
      hide Without, Index;
      forall x ensures x in w <==> x in q && x != e {
        if x in q && x != e {
          var j :| 0 <= j < |q| && q[j] == x;
          assert w[if j < k then j else j - 1] == x;
        }
      }
    }
  }

  predicate Ordered<T>(q: seq<T>, less: (T, T) -> bool) {
    forall i, j :: 0 <= i < j < |q| ==> less(q[i], q[j])
  }

  lemma WithoutAt<T>(q: seq<T>, e: T, i: nat, j: nat) returns (i': nat, j': nat)
    requires i < j < |Without(q, e)|
    ensures i' < j' < |q| && q[i'] == Without(q, e)[i] && q[j'] == Without(q, e)[j]
  {
    var k := if e in q then Index(q, e) else |q|;
    i' := if i < k then i else i + 1;
    j' := if j < k then j else j + 1;
  }

  /** A relation that holds along q still does once an element is gone. */
  lemma WithoutOrdered<T>(q: seq<T>, e: T, less: (T, T) -> bool)
    requires Ordered(q, less)
    ensures Ordered(Without(q, e), less)
  {
    var w := Without(q, e);
    forall i, j | 0 <= i < j < |w| ensures less(w[i], w[j]) {
      var i', j' := WithoutAt(q, e, i, j);
    }
  }
}
