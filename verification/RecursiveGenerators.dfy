/** recursive_generator (include/cppcoro/recursive_generator.hpp): nested generators linked by m_root and
    m_parentOrLeaf, so that one step of the iterator resumes the innermost generator directly.  Bodies are
    finite, do not throw and yield fresh generators. */
module RecursiveGenerators {

  /** What the body of a generator does: co_yield a value, a generator, or a moved-from (empty) generator. */
  datatype Stmt = Value(v: int) | Nested(body: Body) | Hollow

  type Body = seq<Stmt>

  // ---------------------------------------------------------------- the simple meaning

  /** All values of a body in the order in which nested iteration meets them. */
  function Flatten(b: Body): seq<int> {
    if b == [] then []
    else (match b[0] case Value(v) => [v] case Nested(c) => Flatten(c) case Hollow => []) + Flatten(b[1..])
  }

  /** How many generators a generator with this body consists of. */
  function Generators(b: Body): (n: nat)
    ensures n >= 1
  {
    if b == [] then 1
    else (match b[0] case Value(_) => 0 case Nested(c) => Generators(c) case Hollow => 0) + Generators(b[1..])
  }

  /** The most resumptions that the rest of a body can cost, not counting its own next one. */
  function Cost(b: Body): nat {
    if b == [] then 0
    else (match b[0] case Value(_) => 1 case Nested(c) => 2 + Cost(c) case Hollow => 0) + Cost(b[1..])
  }

  function Size(b: Body): nat {
    if b == [] then 0 else 1 + (match b[0] case Value(_) => 0 case Nested(c) => Size(c) case Hollow => 0) + Size(b[1..])
  }

  lemma {:induction false} CostIs(b: Body)
    ensures 1 + Cost(b) == |Flatten(b)| + 2 * Generators(b) - 1
  {
    if b != [] {
      CostIs(b[1..]);
      match b[0]
      case Nested(c) => CostIs(c);
      case Value(_) =>
      case Hollow =>
    }
  }

  // ---------------------------------------------------------------- promises

  class Promise {
    var rest: Body              // where the coroutine is: what is left of its body
    var done: bool              // at its final suspend point
    var value: int
    var root: Promise
    var parentOrLeaf: Promise   // of the root: the innermost generator; of any other: its parent
    ghost var resumes: nat      // of the root: how often a coroutine of the tree was resumed

    constructor (body: Body)
      ensures rest == body && !done && root == this && parentOrLeaf == this && resumes == 0
    {
      rest, done, value, resumes := body, false, 0, 0;
      root, parentOrLeaf := this, this;
    }
  }

  /** s is the chain of generators from the root to the innermost one that has been started. */
  ghost predicate Path(s: seq<Promise>)
    reads s
  {
    && s != []
    && (forall i, j :: 0 <= i < j < |s| ==> s[i] != s[j])
    && (forall i :: 0 <= i < |s| ==> s[i].root == s[0])
    && (forall i :: 0 < i < |s| ==> s[i].parentOrLeaf == s[i - 1])
    && (forall i :: 0 <= i < |s| - 1 ==> !s[i].done)
    && s[0].parentOrLeaf == s[|s| - 1]
  }

  /** The values still to come from a chain: the innermost generator's first. */
  ghost function Coming(s: seq<Promise>): seq<int>
    reads s
  {
    if s == [] then [] else Coming(s[1..]) + Flatten(s[0].rest)
  }

  /** A bound on the resumptions still to come from a suspended chain. */
  ghost function Future(s: seq<Promise>): nat
    reads s
  {
    if s == [] then 0 else Future(s[1..]) + 1 + Cost(s[0].rest)
  }

  lemma {:induction false} ComingJoin(a: seq<Promise>, b: seq<Promise>)
    ensures Coming(a + b) == Coming(b) + Coming(a)
    ensures Future(a + b) == Future(a) + Future(b)
  {
    if a == [] {
      assert a + b == b;
    } else {
      ComingJoin(a[1..], b);
      assert (a + b)[1..] == a[1..] + b;
    }
  }

  /** The innermost generator of the chain `c` has yielded the first value of `out`, and the rest is to come. */
  ghost predicate Yielded(c: seq<Promise>, out: seq<int>)
    reads c
  {
    c != [] && out != [] && !c[|c| - 1].done && c[|c| - 1].value == out[0] && Coming(c) == out[1..]
  }

  /** What resuming p, with nothing above it, has done: a value is out, or p has run to its end. */
  ghost predicate Resumed(p: Promise, above: seq<Promise>, out: seq<int>)
    reads p, above
  {
    if out == [] then p.done && p.rest == [] && above == [] else !p.done && Yielded([p] + above, out)
  }

  ghost function Ahead(p: Promise, above: seq<Promise>): nat
    reads p, above
  {
    if p.done then 0 else Future([p] + above)
  }

  /** A new innermost generator is linked in below p. */
  method Link(p: Promise, child: Promise, ghost s: seq<Promise>)
    requires Path(s) && s[|s| - 1] == p && !p.done && child !in s
    modifies child`root, child`parentOrLeaf, p.root`parentOrLeaf
    ensures Path(s + [child]) && p.root == old(p.root) && child.root == p.root
  {
    p.root.parentOrLeaf := child;
    child.root := p.root;
    child.parentOrLeaf := p;
  }

  /** The innermost generator is complete; p is the innermost one again. */
  method Unlink(p: Promise, ghost s: seq<Promise>, ghost child: Promise)
    requires Path(s + [child]) && s != [] && s[|s| - 1] == p
    modifies p.root`parentOrLeaf
    ensures Path(s) && p.root == old(p.root)
  {
    assert forall i :: 0 <= i < |s| ==> (s + [child])[i] == s[i];
    p.root.parentOrLeaf := p;
  }

  /** The body of p goes on past its next statement. */
  method Next(p: Promise, ghost s: seq<Promise>) returns (stmt: Stmt)
    requires Path(s) && s[|s| - 1] == p && !p.done && p.rest != []
    modifies p`rest
    ensures Path(s) && [stmt] + p.rest == old(p.rest)
  {
    stmt := p.rest[0];
    p.rest := p.rest[1..];
  }

  lemma PathEnds(below: seq<Promise>, p: Promise)
    requires Path(below + [p])
    ensures p.root in below + [p] && p !in below
  {
    var s := below + [p];
    assert s[|below|] == p && p.root == s[0];
    assert forall i :: 0 <= i < |below| ==> s[i] == below[i];
  }

  lemma FirstStmt(stmt: Stmt, rest: Body)
    ensures Flatten([stmt] + rest) == (match stmt case Value(v) => [v] case Nested(c) => Flatten(c) case Hollow => []) + Flatten(rest)
    ensures Cost([stmt] + rest) == (match stmt case Value(_) => 1 case Nested(c) => 2 + Cost(c) case Hollow => 0) + Cost(rest)
    ensures Size([stmt] + rest) == 1 + (match stmt case Value(_) => 0 case Nested(c) => Size(c) case Hollow => 0) + Size(rest)
  {
    assert ([stmt] + rest)[1..] == rest;
  }

  lemma Alone(p: Promise)
    ensures Coming([p]) == Flatten(p.rest) && Future([p]) == 1 + Cost(p.rest)
  {
    assert [p][1..] == [];
    assert Coming([p]) == [] + Flatten(p.rest);
  }

  lemma OnTop(p: Promise, above: seq<Promise>)
    ensures Coming([p] + above) == Coming(above) + Flatten(p.rest)
    ensures Future([p] + above) == Future(above) + 1 + Cost(p.rest)
  {
    assert ([p] + above)[1..] == above;
  }

  /** yield_value(generator): link the child in and resume it; when it completes at once, unlink it and tell the
      parent to go on. */
  method YieldGenerator(p: Promise, child: Promise, ghost below: seq<Promise>) returns (ready: bool, ghost above: seq<Promise>)
    requires Path(below + [p]) && !p.done
    requires child !in below + [p] && !child.done
    modifies child, p.root`parentOrLeaf, p.root`resumes
    ensures p.root == old(p.root)
    ensures ready <==> old(Flatten(child.rest)) == []
    ensures ready ==> above == [] && Path(below + [p])
    ensures ready ==> p.root.resumes <= old(p.root.resumes) + 1 + old(Cost(child.rest))
    ensures !ready ==> above != [] && fresh(above[1..]) && above[0] == child
    ensures !ready ==> Path(below + [p] + above) && Yielded(above, old(Flatten(child.rest)))
    ensures !ready ==> p.root.resumes + Future(above) <= old(p.root.resumes) + 1 + old(Cost(child.rest))
    decreases Size(child.rest), 2
  {
    hide Path, Coming, Future, Flatten, Cost, Size, Yielded;
    ghost var s := below + [p];
    PathEnds(below, p);
    Link(p, child, s);
    PathEnds(s, child);
    ghost var more := Resume(child, s);
    if !child.done {
      above := [child] + more;
      assert s + [child] + more == s + above && above[1..] == more;
      return false, above;
    }
    assert s + [child] + more == s + [child];
    Unlink(p, s, child);
    return true, [];
  }

  /** The next statement of p's body, which may suspend it. */
  method Execute(p: Promise, ghost below: seq<Promise>) returns (suspended: bool, ghost above: seq<Promise>)
    requires Path(below + [p]) && !p.done && p.rest != []
    modifies p, p.root`parentOrLeaf, p.root`resumes
    ensures p.root == old(p.root) && !p.done && Size(p.rest) < old(Size(p.rest))
    ensures fresh(above) && Path(below + [p] + above)
    ensures suspended ==> Yielded([p] + above, old(Flatten(p.rest)))
    ensures suspended ==> p.root.resumes + Future([p] + above) <= old(p.root.resumes) + old(Cost(p.rest))
    ensures !suspended ==> above == [] && Flatten(p.rest) == old(Flatten(p.rest))
    ensures !suspended ==> p.root.resumes + Cost(p.rest) <= old(p.root.resumes) + old(Cost(p.rest))
    decreases Size(p.rest), 0
  {
    hide Path, Coming, Future, Flatten, Cost, Size;
    ghost var s, out := below + [p], Flatten(p.rest);
    assert s + [] == s;
    var stmt := Next(p, s);
    FirstStmt(stmt, p.rest);
    match stmt
    case Value(v) =>
      SetValue(p, s, v);
      Alone(p);
      assert [p] + [] == [p] && out == [v] + Flatten(p.rest);
      return true, [];
    case Hollow =>
      return false, [];
    case Nested(body) =>
      var child := new Promise(body);
      var ready;
      ready, above := YieldGenerator(p, child, below);
      suspended := !ready;
      if suspended {
        assert above == [child] + above[1..];
        OnTop(p, above);
        YieldedOnTop(p, above, old(Flatten(p.rest)), Flatten(body));
      }
  }

  lemma YieldedOnTop(p: Promise, above: seq<Promise>, out: seq<int>, first: seq<int>)
    requires above != [] && Yielded(above, first) && out == first + Flatten(p.rest)
    ensures Yielded([p] + above, out)
  {
    OnTop(p, above);
  }

  /** coroutine_handle::resume() on p, the innermost generator of the chain below + [p]. */
  method Resume(p: Promise, ghost below: seq<Promise>) returns (ghost above: seq<Promise>)
    requires Path(below + [p]) && !p.done
    modifies p, p.root`parentOrLeaf, p.root`resumes
    ensures p.root == old(p.root) && fresh(above)
    ensures Path(below + [p] + above)
    ensures Resumed(p, above, old(Flatten(p.rest)))
    ensures p.root.resumes + Ahead(p, above) <= old(p.root.resumes) + 1 + old(Cost(p.rest))
    decreases Size(p.rest), 1
  {
    above := [];
    ghost var s, out := below + [p], Flatten(p.rest);
    assert s + [] == s && Flatten([]) == [];
    hide Path, Coming, Future, Flatten, Cost, Size, Yielded;
    CountResume(p, s);
    var suspended := false;
    while p.rest != [] && !suspended
      invariant p.root == old(p.root) && !p.done && fresh(above)
      invariant Path(s + above) && (!suspended ==> above == [] && Flatten(p.rest) == out)
      invariant suspended ==> Yielded([p] + above, out)
      invariant !suspended ==> p.root.resumes + Cost(p.rest) <= old(p.root.resumes) + 1 + old(Cost(p.rest))
      invariant suspended ==> p.root.resumes + Future([p] + above) <= old(p.root.resumes) + 1 + old(Cost(p.rest))
      invariant Size(p.rest) <= old(Size(p.rest))
      decreases Size(p.rest)
    {
      suspended, above := Execute(p, below);
    }
    if !suspended { Finish(p, s); }
    assert suspended ==> out != [] by { YieldedSomething([p] + above, out, suspended); }
  }

  lemma YieldedSomething(c: seq<Promise>, out: seq<int>, suspended: bool)
    requires suspended ==> Yielded(c, out)
    ensures suspended ==> out != []
  {
  }

  method CountResume(p: Promise, ghost s: seq<Promise>)
    requires Path(s) && s[|s| - 1] == p
    modifies p.root`resumes
    ensures Path(s) && p.root == old(p.root) && p.root.resumes == old(p.root.resumes) + 1
  {
    p.root.resumes := p.root.resumes + 1;
  }

  method SetValue(p: Promise, ghost s: seq<Promise>, v: int)
    requires Path(s) && s[|s| - 1] == p
    modifies p`value
    ensures Path(s) && p.value == v
  {
    p.value := v;
  }

  method Finish(p: Promise, ghost s: seq<Promise>)
    requires Path(s) && s[|s| - 1] == p
    modifies p`done
    ensures Path(s) && p.done
  {
    p.done := true;
  }

  // ---------------------------------------------------------------- the iterator

  twostate lemma ComingKept(s: seq<Promise>)
    requires forall x :: x in s ==> x.rest == old(x.rest)
    ensures Coming(s) == old(Coming(s)) && Future(s) == old(Future(s))
  {
    if s != [] { ComingKept(s[1..]); }
  }

  /** Where pull is after resuming `leaf`, whose ancestors are `below`: a value is out, or leaf is complete and
      its ancestors have all of `out` ahead of them. */
  ghost predicate Pulling(below: seq<Promise>, leaf: Promise, above: seq<Promise>, out: seq<int>, budget: int)
    reads below, leaf, above
  {
    if leaf.done then above == [] && Coming(below) == out && (below + [leaf])[0].resumes + Future(below) <= budget
    else Yielded(below + [leaf] + above, out) && (below + [leaf])[0].resumes + Future(below + [leaf] + above) <= budget
  }

  lemma NowPulling(below: seq<Promise>, leaf: Promise, above: seq<Promise>, first: seq<int>, out: seq<int>, budget: int)
    requires Resumed(leaf, above, first) && out == first + Coming(below)
    requires (below + [leaf])[0].resumes + Ahead(leaf, above) + Future(below) <= budget
    ensures Pulling(below, leaf, above, out, budget)
  {
    assert below + [leaf] + above == below + ([leaf] + above);
    ComingJoin(below, [leaf] + above);
    if first != [] {
      assert (below + ([leaf] + above))[|below| + |above|] == ([leaf] + above)[|above|];
    }
  }

  /** One resume of pull, on the innermost generator of a chain. */
  method ResumeLeaf(leaf: Promise, ghost below: seq<Promise>, ghost out: seq<int>, ghost budget: int) returns (ghost above: seq<Promise>)
    requires Path(below + [leaf]) && !leaf.done
    requires Flatten(leaf.rest) + Coming(below) == out
    requires leaf.root.resumes + 1 + Cost(leaf.rest) + Future(below) <= budget
    modifies leaf, leaf.root`parentOrLeaf, leaf.root`resumes
    ensures fresh(Objects(above)) && leaf.root == old(leaf.root)
    ensures Path(below + [leaf] + above) && Pulling(below, leaf, above, out, budget)
  {
    PathEnds(below, leaf);
    hide Path, Coming, Future, Flatten, Cost, Yielded, Pulling, Resumed, Ahead;
    label before:
    above := Resume(leaf, below);
    ComingKept@before(below);
    NowPulling(below, leaf, above, old(Flatten(leaf.rest)), out, budget);
  }

  /** The innermost generator is complete: its parent takes its place. */
  method Pop(root: Promise, ghost below: seq<Promise>, ghost leaf: Promise)
    requires Path(below + [leaf]) && (below + [leaf])[0] == root && root.parentOrLeaf != root
    modifies root`parentOrLeaf
    ensures below != [] && Path(below) && below[0] == root
    ensures root.parentOrLeaf == below[|below| - 1] && !root.parentOrLeaf.done
  {
    assert forall i :: 0 <= i < |below| ==> (below + [leaf])[i] == below[i];
    root.parentOrLeaf := root.parentOrLeaf.parentOrLeaf;
  }

  lemma LastApart(c: seq<Promise>)
    requires Path(c)
    ensures var below, leaf := c[..|c| - 1], c[|c| - 1];
      && c == below + [leaf] && leaf.root == c[0] && c[0].parentOrLeaf == leaf
      && Coming(c) == Flatten(leaf.rest) + Coming(below) && Future(c) == Future(below) + 1 + Cost(leaf.rest)
  {
    var below, leaf := c[..|c| - 1], c[|c| - 1];
    assert c == below + [leaf];
    ComingJoin(below, [leaf]);
    Alone(leaf);
  }

  lemma PullEnds(root: Promise, below: seq<Promise>, leaf: Promise, above: seq<Promise>, out: seq<int>, budget: int)
    requires (below + [leaf])[0] == root && Path(below + [leaf] + above) && Pulling(below, leaf, above, out, budget)
    requires root.parentOrLeaf == root || !root.parentOrLeaf.done
    ensures root.done <==> out == []
    ensures !root.done ==> Yielded(below + [leaf] + above, out)
    ensures root.resumes + (if root.done then 0 else Future(below + [leaf] + above)) <= budget
  {
    var c := below + [leaf] + above;
    assert c[0] == root && c[|below|] == leaf;
    assert below != [] ==> c[0] != c[|below|];
    if leaf.done { assert c == below + [leaf]; }
  }

  ghost function Objects(s: seq<Promise>): (r: set<Promise>)
    ensures forall i :: 0 <= i < |s| ==> s[i] in r
  {
    set x | x in s
  }

  lemma ObjectsOfPart(s: seq<Promise>, j: nat, above: seq<Promise>)
    requires j < |s|
    ensures Objects(s[..j]) <= Objects(s)
    ensures Objects(s[..j] + [s[j]] + above) <= Objects(s) + Objects(above)
  {
  }

  /** One turn of the loop of pull: the completed generator is popped and its parent resumed. */
  method ResumeParent(root: Promise, ghost s: seq<Promise>, ghost j: nat, ghost above: seq<Promise>, ghost out: seq<int>, ghost budget: int)
    returns (ghost more: seq<Promise>)
    requires j < |s| && s[0] == root
    requires Path(s[..j] + [s[j]] + above) && Pulling(s[..j], s[j], above, out, budget)
    requires root.parentOrLeaf != root && root.parentOrLeaf.done
    modifies Objects(s)
    ensures j > 0 && fresh(Objects(more))
    ensures Path(s[..j - 1] + [s[j - 1]] + more) && Pulling(s[..j - 1], s[j - 1], more, out, budget)
  {
    ghost var below := s[..j];
    assert (below + [s[j]])[0] == root;
    Completed(root, below, s[j], above, out, budget);
    hide Coming, Future, Pulling, Path, Flatten, Cost, Objects;
    label before:
    Pop(root, below, s[j]);
    ComingKept@before(below);
    LastApart(below);
    assert below[..j - 1] == s[..j - 1] && below[j - 1] == s[j - 1];
    more := ResumeLeaf(root.parentOrLeaf, s[..j - 1], out, budget);
  }

  /** promise_type::pull() on the root of the chain `s`. */
  method Pull(root: Promise, ghost s: seq<Promise>) returns (ghost now: seq<Promise>)
    requires Path(s) && s[0] == root && !root.parentOrLeaf.done
    modifies Objects(s)
    ensures Path(now) && now[0] == root && fresh(Objects(now) - Objects(s))
    ensures root.done <==> old(Coming(s)) == []
    ensures !root.done ==> Yielded(now, old(Coming(s)))
    ensures root.resumes + (if root.done then 0 else Future(now)) <= old(root.resumes) + old(Future(s))
  {
    ghost var out, budget := Coming(s), root.resumes + Future(s);
    ghost var j := |s| - 1;
    LastApart(s);
    hide Coming, Future, Yielded, Pulling, Path, Flatten, Cost, Objects;
    ghost var above := ResumeLeaf(root.parentOrLeaf, s[..j], out, budget);
    while root.parentOrLeaf != root && root.parentOrLeaf.done
      invariant 0 <= j < |s| && fresh(Objects(above))
      invariant Path(s[..j] + [s[j]] + above) && Pulling(s[..j], s[j], above, out, budget)
      decreases j
    {
      above := ResumeParent(root, s, j, above, out, budget);
      j := j - 1;
    }
    now := s[..j] + [s[j]] + above;
    ObjectsOfPart(s, j, above);
    PullEnds(root, s[..j], s[j], above, out, budget);
  }

  /** In the loop of pull the completed generator is the one last resumed. */
  lemma Completed(root: Promise, below: seq<Promise>, leaf: Promise, above: seq<Promise>, out: seq<int>, budget: int)
    requires (below + [leaf])[0] == root && Path(below + [leaf] + above) && Pulling(below, leaf, above, out, budget)
    requires root.parentOrLeaf != root && root.parentOrLeaf.done
    ensures leaf.done && Path(below + [leaf]) && below != [] && Coming(below) == out && root.resumes + Future(below) <= budget
  {
    var c := below + [leaf] + above;
    assert c[0] == root;
    assert above == [] ==> c == below + [leaf];
  }

  lemma YieldedFirst(c: seq<Promise>, out: seq<int>)
    requires Path(c) && Yielded(c, out)
    ensures out != [] && Coming(c) == out[1..] && c[0].parentOrLeaf == c[|c| - 1] && c[0].parentOrLeaf.value == out[0]
    ensures !c[0].parentOrLeaf.done
  {
  }

  lemma Shift(values: seq<int>, out: seq<int>)
    requires out != []
    ensures (values + [out[0]]) + out[1..] == values + out
  {
  }

  /** operator* and then operator++ of an iterator that is not at the end. */
  method TakeNext(root: Promise, ghost s: seq<Promise>, ghost out: seq<int>) returns (v: int, ghost now: seq<Promise>)
    requires Path(s) && s[0] == root && Yielded(s, out)
    modifies Objects(s)
    ensures out != [] && v == out[0]
    ensures Path(now) && now[0] == root && fresh(Objects(now) - Objects(s))
    ensures if root.done then out[1..] == [] else Yielded(now, out[1..])
    ensures root.resumes + (if root.done then 0 else Future(now)) <= old(root.resumes) + old(Future(s))
  {
    YieldedFirst(s, out);
    v := root.parentOrLeaf.value;
    now := Pull(root, s);
  }

  /** Begin and increment until the end.  The values are those of nested iteration, and the whole iteration
      resumes coroutines at most once per value and twice per generator, less one, however deep they nest. */
  method Iterate(body: Body) returns (values: seq<int>, ghost resumes: nat)
    ensures values == Flatten(body)
    ensures resumes <= |Flatten(body)| + 2 * Generators(body) - 1
  {
    var root := new Promise(body);
    values := [];
    ghost var s, out := [root], Flatten(body);
    Alone(root);
    CostIs(body);
    assert [] + out == out;
    hide Coming, Future, Flatten, Cost, Generators, Yielded;
    s := Pull(root, s);
    hide Path, Objects;
    while !root.done
      invariant s != [] && s[0] == root && fresh(Objects(s)) && Path(s)
      invariant values + out == Flatten(body)
      invariant if root.done then out == [] else Yielded(s, out)
      invariant root.resumes + (if root.done then 0 else Future(s)) <= 1 + Cost(body)
      decreases |out|, !root.done
    {
      var v;
      v, s := TakeNext(root, s, out);
      Shift(values, out);
      values, out := values + [v], out[1..];
    }
    resumes := root.resumes;
  }
}
