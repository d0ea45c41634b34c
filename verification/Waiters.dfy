/** Lists of waiting operations.  The code links them through the operations themselves; here a list is
    the sequence of the operations' numbers. */
module Waiters {

  type Id = nat

  ghost predicate Distinct(l: seq<Id>) {
    forall i, j :: 0 <= i < j < |l| ==> l[i] != l[j]
  }

  ghost predicate Below(l: seq<Id>, n: nat) {
    forall i :: 0 <= i < |l| ==> l[i] < n
  }

  /** The members whose target lies beyond v, in order: they have to wait again. */
  function Beyond(l: seq<Id>, targets: seq<int>, v: int): (r: seq<Id>)
    requires Below(l, |targets|)
    ensures Below(r, |targets|)
  {
    if l == [] then []
    else (if targets[l[0]] > v then [l[0]] else []) + Beyond(l[1..], targets, v)
  }

  /** The members whose target has been reached, in order. */
  function Reached(l: seq<Id>, targets: seq<int>, v: int): (r: seq<Id>)
    requires Below(l, |targets|)
    ensures Below(r, |targets|)
  {
    if l == [] then []
    else (if targets[l[0]] > v then [] else [l[0]]) + Reached(l[1..], targets, v)
  }

  /** A stack read from the bottom. */
  function Reverse<T>(s: seq<T>): (r: seq<T>)
    ensures |r| == |s|
  {
    if s == [] then [] else Reverse(s[1..]) + [s[0]]
  }

  /** The smallest target in a non-empty list. */
  function MinTarget(l: seq<Id>, targets: seq<int>): int
    requires l != [] && Below(l, |targets|)
  {
    if |l| == 1 then targets[l[0]]
    else if targets[l[0]] < MinTarget(l[1..], targets) then targets[l[0]] else MinTarget(l[1..], targets)
  }

  lemma {:induction false} MinTargetIsLeast(l: seq<Id>, targets: seq<int>)
    requires l != [] && Below(l, |targets|)
    ensures exists a :: a in l && targets[a] == MinTarget(l, targets)
    ensures forall a :: a in l ==> a < |targets| && MinTarget(l, targets) <= targets[a]
  {
    if |l| == 1 {
      assert l[0] in l;
    } else {
      MinTargetIsLeast(l[1..], targets);
      assert l == [l[0]] + l[1..];
      var b :| b in l[1..] && targets[b] == MinTarget(l[1..], targets);
      assert l[0] in l && b in l;
    }
  }

  lemma {:induction false} SplitMembers(l: seq<Id>, targets: seq<int>, v: int)
    requires Below(l, |targets|)
    ensures forall a :: a in Beyond(l, targets, v) <==> a in l && targets[a] > v
    ensures forall a :: a in Reached(l, targets, v) <==> a in l && targets[a] <= v
  {
    if l != [] {
      SplitMembers(l[1..], targets, v);
      assert l == [l[0]] + l[1..];
    }
  }

  lemma {:induction false} SplitDistinct(l: seq<Id>, targets: seq<int>, v: int)
    requires Below(l, |targets|) && Distinct(l)
    ensures Distinct(Beyond(l, targets, v)) && Distinct(Reached(l, targets, v))
  {
    if l != [] {
      SplitDistinct(l[1..], targets, v);
      SplitMembers(l[1..], targets, v);
      assert l[0] !in l[1..];
    }
  }

  lemma JoinDistinct(a: seq<Id>, b: seq<Id>)
    requires Distinct(a) && Distinct(b)
    requires forall x :: x in a ==> x !in b
    ensures Distinct(a + b)
    ensures forall x :: x in a + b <==> x in a || x in b
  {
    var l := a + b;
    forall i, j | 0 <= i < j < |l| ensures l[i] != l[j] {
      if i < |a| <= j { assert l[i] in a && l[j] in b; }
    }
  }

  lemma TailDistinct(a: seq<Id>)
    requires Distinct(a) && a != []
    ensures Distinct(a[1..]) && a[0] !in a[1..]
    ensures forall x :: x in a[1..] <==> x in a && x != a[0]
  {
    assert a == [a[0]] + a[1..];
  }

  // ---------------------------------------------------------------- who holds whom

  /** The whole list l is now at place p. */
  function Moved<P>(loc: seq<P>, l: seq<Id>, p: P): (r: seq<P>)
    ensures |r| == |loc|
    ensures forall i :: 0 <= i < |loc| ==> r[i] == if i in l then p else loc[i]
  {
    seq(|loc|, i requires 0 <= i < |loc| => if i in l then p else loc[i])
  }

  /** The list l holds exactly the operations placed at p, each once. */
  ghost predicate Holds<P>(loc: seq<P>, l: seq<Id>, p: P) {
    Distinct(l) && forall a: nat :: a in l <==> a < |loc| && loc[a] == p
  }

  lemma MoveElsewhere<P>(loc: seq<P>, l: seq<Id>, p: P, q: P, k: seq<Id>, r: P)
    requires Holds(loc, l, p) && Holds(loc, k, r) && r != p && r != q
    ensures Holds(Moved(loc, l, q), k, r)
  {
  }

  /** l goes from p in front of (or behind) what is already at q. */
  lemma MoveOnto<P>(loc: seq<P>, l: seq<Id>, p: P, m: seq<Id>, q: P)
    requires Holds(loc, l, p) && Holds(loc, m, q) && p != q
    ensures Holds(Moved(loc, l, q), l + m, q) && Holds(Moved(loc, l, q), [], p)
  {
    JoinDistinct(l, m);
  }

  /** A list taken from p is split in two. */
  lemma MoveSplit<P>(loc: seq<P>, l: seq<Id>, p: P, a: seq<Id>, qa: P, b: seq<Id>, qb: P, m: seq<Id>)
    requires Holds(loc, l, p) && p != qa && p != qb && qa != qb
    requires Distinct(a) && Distinct(b) && Holds(loc, [], qa) && Holds(loc, m, qb)
    requires forall x :: x in l <==> x in a || x in b
    requires forall x :: x in a ==> x !in b
    ensures var n := Moved(Moved(loc, a, qa), b, qb);
      Holds(n, [], p) && Holds(n, a, qa) && Holds(n, m + b, qb)
  {
    JoinDistinct(m, b);
  }

  lemma SplitElsewhere<P>(loc: seq<P>, l: seq<Id>, p: P, a: seq<Id>, qa: P, b: seq<Id>, qb: P, k: seq<Id>, r: P)
    requires Holds(loc, l, p) && Holds(loc, k, r) && r != p && r != qa && r != qb
    requires forall x :: x in l <==> x in a || x in b
    ensures Holds(Moved(Moved(loc, a, qa), b, qb), k, r)
  {
  }

  /** The first of l goes from p to q. */
  lemma TakeFirst<P>(loc: seq<P>, l: seq<Id>, p: P, q: P)
    requires Holds(loc, l, p) && l != [] && p != q
    ensures l[0] < |loc| && loc[l[0]] == p && Holds(loc[l[0] := q], l[1..], p)
  {
    TailDistinct(l);
    assert l[0] in l;
  }

  lemma TakeElsewhere<P>(loc: seq<P>, l: seq<Id>, p: P, q: P, k: seq<Id>, r: P)
    requires Holds(loc, l, p) && l != [] && Holds(loc, k, r) && r != p && r != q
    ensures l[0] < |loc| && Holds(loc[l[0] := q], k, r)
  {
    assert l[0] in l;
  }

  lemma PutLast<P>(loc: seq<P>, a: Id, k: seq<Id>, q: P)
    requires a < |loc| && loc[a] != q && Holds(loc, k, q)
    ensures Holds(loc[a := q], k + [a], q)
  {
    JoinDistinct(k, [a]);
  }

  lemma PutElsewhere<P>(loc: seq<P>, a: Id, q: P, k: seq<Id>, r: P)
    requires a < |loc| && loc[a] != r && q != r && Holds(loc, k, r)
    ensures Holds(loc[a := q], k, r)
  {
  }

  lemma HoldsAppend<P>(loc: seq<P>, p: P, k: seq<Id>, r: P)
    requires p != r && Holds(loc, k, r)
    ensures Holds(loc + [p], k, r)
  {
  }

  lemma HoldsBelow<P>(loc: seq<P>, l: seq<Id>, p: P)
    requires Holds(loc, l, p)
    ensures Below(l, |loc|)
  {
    forall i | 0 <= i < |l| ensures l[i] < |loc| { assert l[i] in l; }
  }

  lemma InPlace<P>(loc: seq<P>, l: seq<Id>, p: P)
    requires Holds(loc, l, p)
    ensures forall a :: a in l ==> a < |loc| && loc[a] == p
  {
  }
}
