/** The list loops that the waiting protocols share, on real links: the reversal of a stack into a queue
    (lib/async_auto_reset_event.cpp:165-171, lib/async_mutex.cpp:71-78, lib/static_thread_pool.cpp:672-678) and
    the split of a list by tail pointers (include/cppcoro/sequence_barrier.hpp:339-361, 430-454,
    include/cppcoro/multi_producer_sequencer.hpp:605-625).  The modules about the protocols use what these
    methods ensure: Reverse, Beyond, Reached and MinTarget of module Waiters. */
module IntrusiveList {
  import opened Waiters

  /** A waiting operation: m_next, m_targetSequence, and the number it goes by elsewhere. */
  class Node {
    var next: Node?
    const target: int
    const id: Id

    constructor (id: Id, target: int)
      ensures this.id == id && this.target == target && next == null
    {
      this.id, this.target, next := id, target, null;
    }
  }

  ghost predicate Apart(s: seq<Node>) { forall i, j :: 0 <= i < j < |s| ==> s[i] != s[j] }

  /** The links from `head` run through s and then reach `end`. */
  ghost predicate Chain(head: Node?, s: seq<Node>, end: Node?)
    reads s
  {
    if s == [] then head == end else head == s[0] && Chain(s[0].next, s[1..], end)
  }

  /** A null-terminated list without repetition. */
  ghost predicate List(head: Node?, s: seq<Node>)
    reads s
  {
    Apart(s) && Chain(head, s, null)
  }

  /** Point `node` at the chain `done`; another chain is not touched. */
  method PutInFront(node: Node, head: Node?, ghost done: seq<Node>, other: Node?, ghost left: seq<Node>)
    requires Chain(head, done, null) && Chain(other, left, null) && node !in done && node !in left
    modifies node
    ensures Chain(node, [node] + done, null) && Chain(other, left, null)
  {
    node.next := head;
    assert ([node] + done)[1..] == done;
  }

  /** The first node of a list and the list after it. */
  lemma FirstApart(head: Node?, s: seq<Node>)
    requires List(head, s) && s != []
    ensures head == s[0] && List(s[0].next, s[1..]) && s[0] !in s[1..] && s == [s[0]] + s[1..]
  {
  }

  lemma {:induction false} ReverseApart(s: seq<Node>, rest: seq<Node>)
    requires Apart(s) && Apart(rest) && forall x :: x in s ==> x !in rest
    ensures Apart(Reverse(s) + rest)
    ensures forall x :: x in Reverse(s) <==> x in s
  {
    if s == [] {
      assert Reverse(s) + rest == rest;
    } else {
      var t := [s[0]] + rest;
      assert s == [s[0]] + s[1..];
      assert Apart(t) by { forall i, j | 0 <= i < j < |t| ensures t[i] != t[j] { assert t[j] in rest; } }
      ReverseApart(s[1..], t);
      assert Reverse(s[1..]) + t == Reverse(s) + rest;
    }
  }

  lemma TurnedOne(left: seq<Node>, done: seq<Node>)
    requires left != []
    ensures Reverse(left[1..]) + ([left[0]] + done) == Reverse(left) + done
  {
  }

  /** Turn a list around in place, in front of the list `onto`. */
  method ReverseOnto(head: Node?, onto: Node?, ghost s: seq<Node>, ghost rest: seq<Node>) returns (r: Node?)
    requires List(head, s) && List(onto, rest) && forall x :: x in s ==> x !in rest
    modifies s
    ensures List(r, Reverse(s) + rest)
  {
    r := onto;
    var node := head;
    ghost var left, done := s, rest;
    ReverseApart(s, rest);
    while node != null
      invariant List(node, left) && Chain(r, done, null)
      invariant Reverse(left) + done == Reverse(s) + rest
      invariant forall x :: x in left ==> x in s && x !in done
      decreases |left|
    {
      FirstApart(node, left);
      TurnedOne(left, done);
      var first: Node := node;
      assert first in left;
      hide Chain, Reverse;
      var next := first.next;
      PutInFront(first, r, done, next, left[1..]);
      r, node := first, next;
      left, done := left[1..], [first] + done;
    }
    assert Reverse(left) + done == done;
  }

  // ---------------------------------------------------------------- splitting

  /** The nodes whose target lies beyond v, or those whose target does not, in order. */
  function Picked(s: seq<Node>, v: int, far: bool): seq<Node> {
    if s == [] then [] else (if (s[0].target > v) == far then [s[0]] else []) + Picked(s[1..], v, far)
  }

  function Lesser(a: int, b: int): int { if a < b then a else b }

  /** The smallest target beyond v, or `none` when there is none. */
  function Earliest(s: seq<Node>, v: int, none: int): int {
    if s == [] then none
    else if s[0].target > v && s[0].target < Earliest(s[1..], v, none) then s[0].target
    else Earliest(s[1..], v, none)
  }

  lemma {:induction false} EarliestStep(left: seq<Node>, v: int, none: int)
    ensures Earliest(left, v, none) <= none
    ensures left != [] && left[0].target > v ==> Earliest(left, v, none) == Lesser(left[0].target, Earliest(left[1..], v, none))
    ensures left != [] && left[0].target <= v ==> Earliest(left, v, none) == Earliest(left[1..], v, none)
  {
    if left != [] { EarliestStep(left[1..], v, none); }
  }

  /** What a tail pointer stands for: a list whose last link is still to be written. */
  ghost predicate Open(head: Node?, tail: Node?, s: seq<Node>)
    reads s
  {
    Apart(s) && if s == [] then tail == null else tail == s[|s| - 1] && Chain(head, s[..|s| - 1], tail)
  }

  /** The last link of a chain is written. */
  lemma {:induction false} ChainMore(head: Node?, s: seq<Node>, last: Node, end: Node?)
    requires Chain(head, s, last) && last.next == end
    ensures Chain(head, s + [last], end)
  {
    if s == [] {
      assert [last][1..] == [];
    } else {
      ChainMore(s[0].next, s[1..], last, end);
      assert (s + [last])[1..] == s[1..] + [last];
    }
  }

  function Tail(t: Node?): set<Node> { if t == null then {} else {t} }

  /** `*tail = node; tail = &node->m_next`, where a null tail stands for the list's own head pointer. */
  method Append(head: Node?, tail: Node?, node: Node, ghost s: seq<Node>) returns (newHead: Node?)
    requires Open(head, tail, s) && node !in s
    modifies Tail(tail)
    ensures Open(newHead, node, s + [node])
  {
    newHead := head;
    ghost var front := if s == [] then [] else s[..|s| - 1];
    if tail == null {
      newHead := node;
    } else {
      assert tail !in front by { assert forall i :: 0 <= i < |front| ==> front[i] == s[i]; }
      tail.next := node;
      ChainMore(head, front, tail, node);
      assert front + [tail] == s;
    }
    assert (s + [node])[..|s|] == s;
  }

  /** `*tail = nullptr` */
  method Close(head: Node?, tail: Node?, ghost s: seq<Node>) returns (r: Node?)
    requires Open(head, tail, s)
    modifies Tail(tail)
    ensures List(r, s)
  {
    r := head;
    if tail == null {
      r := null;
    } else {
      ghost var front := s[..|s| - 1];
      assert tail !in front by { assert forall i :: 0 <= i < |front| ==> front[i] == s[i]; }
      tail.next := null;
      ChainMore(head, front, tail, null);
      assert front + [tail] == s;
    }
  }

  /** One node goes to the end of one of two lists. */
  method Place(first: Node, isFar: bool, farHead: Node?, farTail: Node?, nearHead: Node?, nearTail: Node?,
               ghost far: seq<Node>, ghost near: seq<Node>, ghost left: seq<Node>)
    returns (h: Node?, t: Node?, g: Node?, u: Node?)
    requires Open(farHead, farTail, far) && Open(nearHead, nearTail, near) && List(first.next, left)
    requires first !in far && first !in near
    requires farTail != null ==> farTail !in near && farTail !in left && farTail != first
    requires nearTail != null ==> nearTail !in far && nearTail !in left && nearTail != first
    modifies Tail(farTail), Tail(nearTail)
    ensures Open(h, t, if isFar then far + [first] else far) && Open(g, u, if isFar then near else near + [first])
    ensures first.next == old(first.next) && List(first.next, left)
  {
    hide Chain, Apart;
    h, t, g, u := farHead, farTail, nearHead, nearTail;
    if isFar {
      h := Append(farHead, farTail, first, far);
      t := first;
    } else {
      g := Append(nearHead, nearTail, first, near);
      u := first;
    }
  }

  /** What is left and the two new lists have no node in common. */
  ghost predicate Separate(left: seq<Node>, far: seq<Node>, near: seq<Node>, s: seq<Node>) {
    && (forall x :: x in far ==> x !in near && x !in left && x in s)
    && (forall x :: x in near ==> x !in left && x in s)
    && (forall x :: x in left ==> x in s)
  }

  lemma SeparateStep(left: seq<Node>, far: seq<Node>, near: seq<Node>, s: seq<Node>)
    requires Separate(left, far, near, s) && left != [] && Apart(left)
    ensures left[0] in s && left[0] !in far && left[0] !in near
    ensures Separate(left[1..], far + [left[0]], near, s) && Separate(left[1..], far, near + [left[0]], s)
  {
    assert left == [left[0]] + left[1..];
  }

  lemma TailsIn(h: Node?, farTail: Node?, far: seq<Node>, g: Node?, nearTail: Node?, near: seq<Node>, left: seq<Node>, s: seq<Node>)
    requires Open(h, farTail, far) && Open(g, nearTail, near) && Separate(left, far, near, s)
    ensures farTail != null ==> farTail in s && farTail !in near && farTail !in left
    ensures nearTail != null ==> nearTail in s && nearTail !in far && nearTail !in left
  {
    assert farTail != null ==> farTail in far;
    assert nearTail != null ==> nearTail in near;
  }

  lemma PickOne(l: seq<Node>, left: seq<Node>, v: int, far: bool)
    requires left != []
    ensures l + Picked(left, v, far) ==
      if (left[0].target > v) == far then (l + [left[0]]) + Picked(left[1..], v, far) else l + Picked(left[1..], v, far)
  {
    var p := Picked(left, v, far);
    if (left[0].target > v) == far {
      assert p == [left[0]] + Picked(left[1..], v, far);
    } else {
      assert p == [] + Picked(left[1..], v, far);
    }
    hide Picked;
  }

  /** How far the split has come: the two open lists hold what has been picked of s so far. */
  ghost predicate Picking(s: seq<Node>, v: int, none: int, left: seq<Node>, far: seq<Node>, near: seq<Node>, earliest: int) {
    && far + Picked(left, v, true) == Picked(s, v, true)
    && near + Picked(left, v, false) == Picked(s, v, false)
    && Separate(left, far, near, s)
    && earliest <= none && Earliest(s, v, none) == Lesser(earliest, Earliest(left, v, none))
  }

  lemma PickingStep(s: seq<Node>, v: int, none: int, left: seq<Node>, far: seq<Node>, near: seq<Node>, earliest: int)
    requires Picking(s, v, none, left, far, near, earliest) && left != [] && Apart(left)
    ensures var x := left[0]; x in s && x !in far && x !in near
    ensures var x := left[0];
      if x.target > v then Picking(s, v, none, left[1..], far + [x], near, Lesser(x.target, earliest))
      else Picking(s, v, none, left[1..], far, near + [x], earliest)
  {
    EarliestStep(left, v, none);
    PickOne(far, left, v, true);
    PickOne(near, left, v, false);
    SeparateStep(left, far, near, s);
    hide Picked, Earliest, Separate, Apart;
  }

  lemma PickingEnds(s: seq<Node>, v: int, none: int, far: seq<Node>, near: seq<Node>, earliest: int)
    requires Picking(s, v, none, [], far, near, earliest)
    ensures far == Picked(s, v, true) && near == Picked(s, v, false) && earliest == Earliest(s, v, none)
  {
    assert far + [] == far && near + [] == near;
  }

  /** The links of the split: what is left of the old list, and the two open lists. */
  ghost predicate Links(node: Node?, left: seq<Node>, h: Node?, t: Node?, far: seq<Node>, g: Node?, u: Node?, near: seq<Node>)
    reads left, far, near
  {
    List(node, left) && Open(h, t, far) && Open(g, u, near)
  }

  /** One turn of the loop. */
  method SplitOne(first: Node, isFar: bool, h: Node?, t: Node?, g: Node?, u: Node?,
                  ghost s: seq<Node>, ghost left: seq<Node>, ghost far: seq<Node>, ghost near: seq<Node>)
    returns (node: Node?, h': Node?, t': Node?, g': Node?, u': Node?)
    requires left != [] && first == left[0] && Links(first, left, h, t, far, g, u, near) && Separate(left, far, near, s)
    modifies s
    ensures Links(node, left[1..], h', t', if isFar then far + [first] else far, g', u', if isFar then near else near + [first])
  {
    FirstApart(first, left);
    TailsIn(h, t, far, g, u, near, left, s);
    SeparateStep(left, far, near, s);
    hide List, Open, Separate, Apart;
    node := first.next;
    h', t', g', u' := Place(first, isFar, h, t, g, u, far, near, left[1..]);
  }

  /** The two lists are null-terminated. */
  method CloseBoth(h: Node?, t: Node?, g: Node?, u: Node?, ghost s: seq<Node>, ghost far: seq<Node>, ghost near: seq<Node>)
    returns (h': Node?, g': Node?)
    requires Links(null, [], h, t, far, g, u, near) && Separate([], far, near, s)
    modifies s
    ensures List(h', far) && List(g', near)
  {
    TailsIn(h, t, far, g, u, near, [], s);
    hide Separate, Apart, Chain;
    h' := Close(h, t, far);
    g' := Close(g, u, near);
  }

  /** Splits a list at sequence number v: what must wait on goes to one list, what is reached to the other, each
      in its old order; `earliest` is the smallest target still waited for. */
  method Split(head: Node?, v: int, none: int, ghost s: seq<Node>) returns (requeue: Node?, resume: Node?, earliest: int)
    requires List(head, s)
    modifies s
    ensures List(requeue, Picked(s, v, true)) && List(resume, Picked(s, v, false))
    ensures earliest == Earliest(s, v, none)
  {
    var node, farTail: Node?, nearTail: Node? := head, null, null;
    requeue, resume := null, null;
    earliest := none;
    ghost var left, far, near := s, [], [];
    EarliestStep(s, v, none);
    while node != null
      invariant Links(node, left, requeue, farTail, far, resume, nearTail, near)
      invariant Picking(s, v, none, left, far, near, earliest)
      decreases |left|
    {
      assert left != [] && node == left[0] && Apart(left) && Separate(left, far, near, s);
      hide Links, Picking, Separate, Apart, Picked, Earliest;
      PickingStep(s, v, none, left, far, near, earliest);
      var first: Node := node;
      var isFar := first.target > v;
      node, requeue, farTail, resume, nearTail := SplitOne(first, isFar, requeue, farTail, resume, nearTail, s, left, far, near);
      left := left[1..];
      if isFar {
        earliest, far := Lesser(first.target, earliest), far + [first];
      } else {
        near := near + [first];
      }
    }
    assert left == [] && Separate([], far, near, s);
    PickingEnds(s, v, none, far, near, earliest);
    hide Links, Picking, Separate, Picked, Earliest, List;
    requeue, resume := CloseBoth(requeue, farTail, resume, nearTail, s, far, near);
  }

  // ---------------------------------------------------------------- the same lists, by numbers

  function Ids(s: seq<Node>): (r: seq<Id>)
    ensures |r| == |s|
  {
    if s == [] then [] else [s[0].id] + Ids(s[1..])
  }

  predicate Named(s: seq<Node>, targets: seq<int>) {
    forall i :: 0 <= i < |s| ==> s[i].id < |targets| && targets[s[i].id] == s[i].target
  }

  lemma {:induction false} IdsBelow(s: seq<Node>, targets: seq<int>)
    requires Named(s, targets)
    ensures Below(Ids(s), |targets|)
  {
    if s != [] { IdsBelow(s[1..], targets); }
  }

  lemma IdsJoin(x: Node, s: seq<Node>)
    ensures Ids([x] + s) == [x.id] + Ids(s)
  {
    assert ([x] + s)[1..] == s;
  }

  /** What Split does is what the machines of SequenceBarrier do to their lists. */
  lemma {:induction false} SplitIsBeyondAndReached(s: seq<Node>, targets: seq<int>, v: int)
    requires Named(s, targets)
    ensures Below(Ids(s), |targets|)
    ensures Ids(Picked(s, v, true)) == Beyond(Ids(s), targets, v)
    ensures Ids(Picked(s, v, false)) == Reached(Ids(s), targets, v)
  {
    IdsBelow(s, targets);
    if s != [] {
      var ids := Ids(s);
      assert ids[0] == s[0].id && ids[1..] == Ids(s[1..]);
      SplitIsBeyondAndReached(s[1..], targets, v);
      IdsJoin(s[0], Picked(s[1..], v, true));
      IdsJoin(s[0], Picked(s[1..], v, false));
      assert [] + Picked(s[1..], v, true) == Picked(s[1..], v, true);
      assert [] + Picked(s[1..], v, false) == Picked(s[1..], v, false);
    }
  }

  /** The smallest target still waited for is the smallest of the requeued ones. */
  lemma {:induction false} EarliestIsMinTarget(s: seq<Node>, targets: seq<int>, v: int, none: int)
    requires Named(s, targets) && forall i :: 0 <= i < |s| ==> s[i].target < none
    ensures Below(Ids(s), |targets|)
    ensures var far := Beyond(Ids(s), targets, v);
      Earliest(s, v, none) == if far == [] then none else MinTarget(far, targets)
  {
    IdsBelow(s, targets);
    if s != [] {
      var ids := Ids(s);
      assert ids[0] == s[0].id && ids[1..] == Ids(s[1..]);
      EarliestIsMinTarget(s[1..], targets, v, none);
      var rest := Beyond(Ids(s[1..]), targets, v);
      if s[0].target > v {
        var far := [s[0].id] + rest;
        assert Beyond(ids, targets, v) == far && far[1..] == rest;
        EarliestStep(s[1..], v, none);
      } else {
        assert Beyond(ids, targets, v) == [] + rest == rest;
      }
    }
  }
}
