/** sequence_barrier on unsigned words (include/cppcoro/sequence_traits.hpp:21-29 and
    include/cppcoro/sequence_barrier.hpp:138-198, 308-467): the machine of SequenceBarrier that keeps every
    sequence number in a word with m values takes, step by step, the image of what the machine on unbounded
    numbers does. */
module BarrierWords {
  import opened Waiters
  import opened Words
  import opened SequenceBarrier

  // ---------------------------------------------------------------- what the code does on words

  /** The test of publish: does v precede the target? */
  function PublishTest(m: nat, targets: seq<int>, v: int): (r: seq<bool>)
    requires m > 0
    ensures |r| == |targets| && forall a :: 0 <= a < |r| ==> r[a] == Precedes(m, v, targets[a])
  {
    seq(|targets|, a requires 0 <= a < |targets| => Precedes(m, v, targets[a]))
  }

  /** The test of add_awaiter: is the target more than v by a positive difference? */
  function AddTest(m: nat, targets: seq<int>, v: int): (r: seq<bool>)
    requires m > 0
    ensures |r| == |targets| && forall a :: 0 <= a < |r| ==> r[a] == (Difference(m, targets[a], v) > 0)
  {
    seq(|targets|, a requires 0 <= a < |targets| => Difference(m, targets[a], v) > 0)
  }

  /** The members of a list whose test comes out as wanted, in order. */
  function Filter(l: seq<Id>, test: seq<bool>, wanted: bool): seq<Id>
    requires Below(l, |test|)
  {
    if l == [] then [] else (if test[l[0]] == wanted then [l[0]] else []) + Filter(l[1..], test, wanted)
  }

  /** The least difference of a target in the list from v. */
  function MinDiff(m: nat, l: seq<Id>, targets: seq<int>, v: int): int
    requires m > 0 && l != [] && Below(l, |targets|)
  {
    var d := Difference(m, targets[l[0]], v);
    if |l| == 1 then d
    else if d < MinDiff(m, l[1..], targets, v) then d else MinDiff(m, l[1..], targets, v)
  }

  /** One step on words. */
  ghost function Exec(m: nat, s: State, a: Action): State
    requires m > 0 && Can(s, a)
  {
    match a
    case PubTake => WordTake(m, s)
    case Wait(target) => Awaited(s, target, !Precedes(m, s.last, target))
    case Step(c) =>
      if s.pcs[c].Look? then Looked(s, c, s.pcs[c].resume, Precedes(m, s.last, s.pcs[c].target))
      else if s.pcs[c].Grab? then WordGrab(m, s, c, s.pcs[c].known, s.pcs[c].resume)
      else Apply(s, a)
    case _ => Apply(s, a)
  }

  ghost function WordTake(m: nat, s: State): State
    requires m > 0 && s.pub.Taking? && Below(s.list, |s.targets|)
  {
    var v := s.pub.seqno;
    var test := PublishTest(m, s.targets, v);
    Taken(s, v, Filter(s.list, test, true), Filter(s.list, test, false))
  }

  ghost function WordGrab(m: nat, s: State, c: Id, known: int, rs: seq<Id>): State
    requires m > 0 && c < |s.pcs| && Below(s.list, |s.targets|)
  {
    var test := AddTest(m, s.targets, known);
    FilterBelow(s.list, test, true);
    var rq := Filter(s.list, test, true);
    Grabbed(s, c, known, rs, rq, Filter(s.list, test, false),
            if rq == [] then known else Wrap(m, known + MinDiff(m, rq, s.targets, known)))
  }

  lemma FilterBelow(l: seq<Id>, test: seq<bool>, wanted: bool)
    requires Below(l, |test|)
    ensures Below(Filter(l, test, wanted), |test|)
  {
  }

  // ---------------------------------------------------------------- images

  function WrapAll(m: nat, l: seq<int>): (r: seq<int>)
    requires m > 0
    ensures |r| == |l| && forall i :: 0 <= i < |l| ==> r[i] == Wrap(m, l[i])
  {
    seq(|l|, i requires 0 <= i < |l| => Wrap(m, l[i]))
  }

  function PcImage(m: nat, pc: Pc): Pc
    requires m > 0
  {
    match pc
    case Push(rq, target, rs) => Push(rq, Wrap(m, target), rs)
    case Look(target, rs) => Look(Wrap(m, target), rs)
    case Grab(known, rs) => Grab(Wrap(m, known), rs)
    case Resuming(known, rs) => Resuming(Wrap(m, known), rs)
    case Handshake => pc
    case Suspended => pc
    case Continued => pc
  }

  function PcsImage(m: nat, pcs: seq<Pc>): (r: seq<Pc>)
    requires m > 0
    ensures |r| == |pcs| && forall c :: 0 <= c < |pcs| ==> r[c] == PcImage(m, pcs[c])
  {
    seq(|pcs|, c requires 0 <= c < |pcs| => PcImage(m, pcs[c]))
  }

  function PubImage(m: nat, pub: Publisher): Publisher
    requires m > 0
  {
    match pub
    case Idle => pub
    case Stored(v) => Stored(Wrap(m, v))
    case Taking(v) => Taking(Wrap(m, v))
    case Requeuing(v, rq, rs) => Requeuing(Wrap(m, v), rq, rs)
    case Waking(v, rs) => Waking(Wrap(m, v), rs)
  }

  function Image(m: nat, s: State): State
    requires m > 0
  {
    State(Wrap(m, s.last), s.list, PubImage(m, s.pub), WrapAll(m, s.targets), WrapAll(m, s.known), s.ready,
          PcsImage(m, s.pcs), s.loc, s.resumes)
  }

  function ActionImage(m: nat, a: Action): Action
    requires m > 0
  {
    match a
    case Publish(v) => Publish(Wrap(m, v))
    case Wait(target) => Wait(Wrap(m, target))
    case _ => a
  }

  // ---------------------------------------------------------------- when words are wide enough

  /** Somebody waits for this target, in a list or about to be resumed. */
  predicate Live(p: Loc) { !p.Outside? && !p.Released? }

  /** A number that a thread between two steps of add_awaiter still needs. */
  predicate Needs(pc: Pc, x: int) {
    match pc
    case Push(_, target, _) => x == target
    case Look(target, _) => x == target
    case Grab(known, _) => x == known
    case Resuming(known, _) => x == known
    case _ => false
  }

  ghost predicate InUse(s: State, x: int)
    requires Sized(s)
  {
    || x == s.last
    || (exists a :: 0 <= a < |s.targets| && Live(s.loc[a]) && x == s.targets[a])
    || (exists c :: 0 <= c < |s.pcs| && Needs(s.pcs[c], x))
  }

  /** Numbers in use are less than half the range apart. */
  ghost predicate Close(m: nat, s: State)
    requires Sized(s)
  {
    forall x, y :: InUse(s, x) && InUse(s, y) ==> InHalf(m, x - y)
  }

  /** What the callers' numbers must respect: a published number does not decrease; it and a new target are less
      than half the range from the numbers in use. */
  ghost predicate CallerOk(m: nat, s: State, a: Action)
    requires Sized(s)
  {
    match a
    case Publish(v) => v >= s.last && Close(m, s.(last := v))
    case Wait(target) => forall x :: InUse(s, x) ==> InHalf(m, x - target) && InHalf(m, target - x)
    case _ => true
  }

  // ---------------------------------------------------------------- the numbers stay close

  /** A step that no caller's number enters brings no number into use. */
  lemma InUseAfter(s: State, a: Action, x: int)
    requires Inv(s) && Enabled(s, a) && !a.Publish? && !a.Wait? && Sized(Apply(s, a)) && InUse(Apply(s, a), x)
    ensures InUse(s, x)
  {
    if a.Step? { InUseAfterStep(s, a.c, x); } else { InUseAfterPub(s, a, x); }
  }

  lemma InUseAfterPub(s: State, a: Action, x: int)
    requires Inv(s) && Enabled(s, a) && !a.Publish? && !a.Wait? && !a.Step?
    requires Sized(Apply(s, a)) && InUse(Apply(s, a), x)
    ensures InUse(s, x)
  {
    var t := Apply(s, a);
    hide ValuesOk, FlagsOk, Watched;
    if a.PubTake? { SplitFacts(s, s.pub.seqno); }
    hide Beyond, Reached;
    if b :| 0 <= b < |t.targets| && Live(t.loc[b]) && x == t.targets[b] {
      assert Live(s.loc[b]) && x == s.targets[b];
    } else if c :| 0 <= c < |t.pcs| && Needs(t.pcs[c], x) {
      assert Needs(s.pcs[c], x);
    }
  }

  lemma LiveAfterStep(s: State, c: Id, b: Id)
    requires Inv(s) && Enabled(s, Step(c)) && Sized(Apply(s, Step(c))) && b < |s.loc| && Live(Apply(s, Step(c)).loc[b])
    ensures Live(s.loc[b])
  {
    assert Holds(s.loc, RequeueOf(s.pcs[c]), OwnRequeue(c));
    if s.pcs[c].Grab? { SplitFacts(s, s.pcs[c].known); }
    hide Inv, ValuesOk, FlagsOk, Watched, Beyond, Reached, MinTarget;
    if s.pcs[c].Grab? { assert Holds(s.loc, s.list, Queued); }
  }

  lemma NeedsAfterGrab(s: State, c: Id, x: int)
    requires Inv(s) && Enabled(s, Step(c)) && s.pcs[c].Grab?
    requires Needs(GrabAll(s, c, s.pcs[c].known, s.pcs[c].resume).pcs[c], x)
    ensures InUse(s, x)
  {
    var known := s.pcs[c].known;
    assert Holds(s.loc, s.list, Queued);
    hide Inv;
    var rq := Beyond(s.list, s.targets, known);
    if rq == [] {
      hide Moved, Holds, Beyond, Reached;
      assert Needs(s.pcs[c], known);
    } else {
      hide InUse;
      EarliestLive(s, known);
      hide Moved, Holds, Beyond, Reached;
    }
  }

  lemma EarliestLive(s: State, v: int)
    requires Sized(s) && Holds(s.loc, s.list, Queued) && Below(s.list, |s.targets|) && Beyond(s.list, s.targets, v) != []
    ensures InUse(s, MinTarget(Beyond(s.list, s.targets, v), s.targets))
  {
    SplitMembers(s.list, s.targets, v);
    var rq := Beyond(s.list, s.targets, v);
    MinTargetIsLeast(rq, s.targets);
    InPlace(s.loc, s.list, Queued);
    hide Beyond, MinTarget, Holds;
    var a :| a in rq && s.targets[a] == MinTarget(rq, s.targets);
    assert Live(s.loc[a]);
  }

  lemma NeedsAfterStep(s: State, c: Id, x: int)
    requires Inv(s) && Enabled(s, Step(c)) && c < |Apply(s, Step(c)).pcs| && Needs(Apply(s, Step(c)).pcs[c], x)
    ensures InUse(s, x)
  {
    hide Inv, GrabAll;
    if s.pcs[c].Grab? {
      NeedsAfterGrab(s, c, x);
    } else if !s.pcs[c].Look? {
      assert Needs(s.pcs[c], x);
    }
  }

  lemma OthersAfterStep(s: State, c: Id, d: Id, x: int)
    requires Inv(s) && Enabled(s, Step(c)) && d < |s.pcs| && d != c
    ensures d < |Apply(s, Step(c)).pcs| && (Needs(Apply(s, Step(c)).pcs[d], x) ==> Needs(s.pcs[d], x))
    ensures Apply(s, Step(c)).targets == s.targets && |Apply(s, Step(c)).pcs| == |s.pcs| && Apply(s, Step(c)).last == s.last
  {
    hide Inv, Beyond, Reached, MinTarget, Moved;
  }

  lemma InUseAfterStep(s: State, c: Id, x: int)
    requires Inv(s) && Enabled(s, Step(c)) && Sized(Apply(s, Step(c))) && InUse(Apply(s, Step(c)), x)
    ensures InUse(s, x)
  {
    var t := Apply(s, Step(c));
    assert t.targets == s.targets && |t.pcs| == |s.pcs| && t.last == s.last by {
      hide Inv, Beyond, Reached, MinTarget, Moved;
    }
    hide Inv, WaiterStep, Apply, Enabled;
    if b :| 0 <= b < |t.targets| && Live(t.loc[b]) && x == t.targets[b] {
      LiveAfterStep(s, c, b);
    } else if d :| 0 <= d < |t.pcs| && Needs(t.pcs[d], x) {
      if d == c { NeedsAfterStep(s, c, x); } else { OthersAfterStep(s, c, d, x); }
    }
  }

  lemma InUseAfterWait(s: State, target: int, x: int)
    requires Inv(s) && Sized(NewWait(s, target)) && InUse(NewWait(s, target), x)
    ensures InUse(s, x) || x == target
  {
    var t := NewWait(s, target);
    hide Inv;
    if b :| 0 <= b < |t.targets| && Live(t.loc[b]) && x == t.targets[b] {
      if b < |s.targets| { assert Live(s.loc[b]) && x == s.targets[b]; }
    } else if d :| 0 <= d < |t.pcs| && Needs(t.pcs[d], x) {
      if d < |s.pcs| { assert Needs(s.pcs[d], x); }
    }
  }

  lemma InUseAfterPublish(s: State, v: int, x: int)
    requires Sized(s) && Enabled(s, Publish(v)) && InUse(Apply(s, Publish(v)), x)
    ensures InUse(s.(last := v), x)
  {
    var t := Apply(s, Publish(v));
    assert t.targets == s.targets && t.loc == s.loc && t.pcs == s.pcs;
  }

  lemma StaysSized(s: State, a: Action)
    requires Inv(s) && Enabled(s, a)
    ensures Sized(Apply(s, a))
  {
    InvStep(s, a);
    hide Enabled, Apply, FlagsOk, Watched, ValuesOk;
  }

  lemma CloseStep(m: nat, s: State, a: Action)
    requires m > 0 && Inv(s) && Enabled(s, a) && Sized(s) && Close(m, s) && CallerOk(m, s, a)
    ensures Sized(Apply(s, a)) && Close(m, Apply(s, a))
  {
    StaysSized(s, a);
    var t := Apply(s, a);
    forall x, y | InUse(t, x) && InUse(t, y) ensures InHalf(m, x - y) {
      if a.Publish? {
        hide Inv, InUse, Apply;
        InUseAfterPublish(s, a.seqno, x);
        InUseAfterPublish(s, a.seqno, y);
      } else if a.Wait? {
        assert t == NewWait(s, a.target);
        hide Inv, InUse, NewWait, Apply;
        InUseAfterWait(s, a.target, x);
        InUseAfterWait(s, a.target, y);
      } else {
        hide Inv, InUse, Apply;
        InUseAfter(s, a, x);
        InUseAfter(s, a, y);
      }
    }
  }

  // ---------------------------------------------------------------- the split on words

  /** A test on words that agrees with the numbers splits a list as the numbers do. */
  lemma {:induction false} FilterIsSplit(l: seq<Id>, targets: seq<int>, v: int, test: seq<bool>)
    requires Below(l, |targets|) && |test| == |targets|
    requires forall a :: a in l ==> (test[a] <==> targets[a] > v)
    ensures Filter(l, test, true) == Beyond(l, targets, v) && Filter(l, test, false) == Reached(l, targets, v)
  {
    if l != [] {
      assert l[0] in l && forall a :: a in l[1..] ==> a in l;
      FilterIsSplit(l[1..], targets, v, test);
    }
  }

  /** The least difference leads to the earliest target. */
  lemma {:induction false} MinDiffIsMinTarget(m: nat, l: seq<Id>, targets: seq<int>, v: int)
    requires m > 0 && l != [] && Below(l, |targets|)
    requires forall a :: a in l ==> InHalf(m, targets[a] - v)
    ensures MinDiff(m, l, WrapAll(m, targets), Wrap(m, v)) == MinTarget(l, targets) - v
  {
    assert l[0] in l && forall a :: a in l[1..] ==> a in l;
    DifferenceExact(m, targets[l[0]], v);
    hide Difference, Wrap;
    if |l| > 1 { MinDiffIsMinTarget(m, l[1..], targets, v); }
  }

  /** The publisher's test splits a list of near targets as the numbers do. */
  lemma PublishSplit(m: nat, l: seq<Id>, targets: seq<int>, v: int)
    requires m > 0 && Below(l, |targets|) && Near(m, l, targets, v)
    ensures var test := PublishTest(m, WrapAll(m, targets), Wrap(m, v));
      Filter(l, test, true) == Beyond(l, targets, v) && Filter(l, test, false) == Reached(l, targets, v)
  {
    var test := PublishTest(m, WrapAll(m, targets), Wrap(m, v));
    forall a | a in l ensures test[a] <==> targets[a] > v { PrecedesExact(m, v, targets[a]); }
    hide *;
    FilterIsSplit(l, targets, v, test);
  }

  /** So does the test of add_awaiter ... */
  lemma AddSplit(m: nat, l: seq<Id>, targets: seq<int>, v: int)
    requires m > 0 && Below(l, |targets|) && Near(m, l, targets, v)
    ensures var test := AddTest(m, WrapAll(m, targets), Wrap(m, v));
      Filter(l, test, true) == Beyond(l, targets, v) && Filter(l, test, false) == Reached(l, targets, v)
  {
    var test := AddTest(m, WrapAll(m, targets), Wrap(m, v));
    forall a | a in l ensures test[a] <==> targets[a] > v { DifferenceExact(m, targets[a], v); }
    hide *;
    FilterIsSplit(l, targets, v, test);
  }

  /** ... and its least difference gives the earliest target. */
  lemma EarliestOnWords(m: nat, l: seq<Id>, targets: seq<int>, v: int)
    requires m > 0 && Below(l, |targets|) && Near(m, l, targets, v) && Beyond(l, targets, v) != []
    ensures var rq := Beyond(l, targets, v);
      Wrap(m, Wrap(m, v) + MinDiff(m, rq, WrapAll(m, targets), Wrap(m, v))) == Wrap(m, MinTarget(rq, targets))
  {
    var rq := Beyond(l, targets, v);
    SplitMembers(l, targets, v);
    assert forall a :: a in rq ==> a in l;
    hide Wrap, Beyond, MinDiff, MinTarget, WrapAll;
    MinDiffIsMinTarget(m, rq, targets, v);
    WrapAdd(m, v, MinTarget(rq, targets) - v);
  }

  ghost predicate Near(m: nat, l: seq<Id>, targets: seq<int>, v: int) {
    forall a :: a in l ==> a < |targets| && InHalf(m, targets[a] - v) && InHalf(m, v - targets[a])
  }

  /** Whoever is in the list is waiting for a number in use. */
  lemma ListNear(m: nat, s: State, v: int)
    requires m > 0 && Inv(s) && Sized(s) && Close(m, s) && InUse(s, v)
    ensures Below(s.list, |s.targets|) && Near(m, s.list, s.targets, v)
  {
    HoldsBelow(s.loc, s.list, Queued);
    InPlace(s.loc, s.list, Queued);
    hide Inv, Holds, Below;
    forall a | a in s.list ensures a < |s.targets| && InUse(s, s.targets[a]) { assert Live(s.loc[a]); }
  }

  // ---------------------------------------------------------------- steps

  lemma WrapUpdate(m: nat, l: seq<int>, i: nat, x: int)
    requires m > 0 && i < |l|
    ensures WrapAll(m, l[i := x]) == WrapAll(m, l)[i := Wrap(m, x)]
  {
  }

  lemma PcUpdate(m: nat, pcs: seq<Pc>, c: nat, pc: Pc)
    requires m > 0 && c < |pcs|
    ensures PcsImage(m, pcs[c := pc]) == PcsImage(m, pcs)[c := PcImage(m, pc)]
  {
  }

  lemma ResumeImage(m: nat, s: State, a: Id, value: int)
    requires m > 0 && Sized(s) && a < |s.targets|
    ensures Resume(Image(m, s), a, Wrap(m, value)) == Image(m, Resume(s, a, value))
  {
    hide Wrap;
    WrapUpdate(m, s.known, a, value);
    PcUpdate(m, s.pcs, a, Continued);
  }

  lemma TakeRefines(m: nat, s: State)
    requires m > 0 && Inv(s) && Sized(s) && Close(m, s) && Enabled(s, PubTake)
    ensures WordTake(m, Image(m, s)) == Image(m, TakeAll(s, s.pub.seqno))
  {
    var v := s.pub.seqno;
    assert v == s.last && InUse(s, v);
    hide Inv, Close, InUse, Near;
    ListNear(m, s, v);
    hide Enabled, Can, TakeAll, WordTake;
    WordTakeOf(m, s);
  }

  lemma WordTakeOf(m: nat, s: State)
    requires m > 0 && s.pub.Taking? && Below(s.list, |s.targets|) && Near(m, s.list, s.targets, s.pub.seqno)
    requires Sized(s)
    ensures WordTake(m, Image(m, s)) == Image(m, TakeAll(s, s.pub.seqno))
  {
    PublishSplit(m, s.list, s.targets, s.pub.seqno);
    hide Near, Filter, Beyond, Reached, Wrap, PublishTest;
  }

  lemma PubRefines(m: nat, s: State, a: Action)
    requires m > 0 && Inv(s) && Sized(s) && Close(m, s) && Enabled(s, a) && !a.Wait? && !a.Step?
    ensures Can(Image(m, s), ActionImage(m, a)) && Exec(m, Image(m, s), ActionImage(m, a)) == Image(m, Apply(s, a))
  {
    if a.PubTake? { TakeRefines(m, s); }
    hide Inv, Close, Wrap, WordTake, TakeAll;
    if a.PubResume_? { ResumeImage(m, s, s.pub.resume[0], s.pub.seqno); }
  }

  lemma WaitRefines(m: nat, s: State, target: int)
    requires m > 0 && Inv(s) && Sized(s) && CallerOk(m, s, Wait(target)) && Enabled(s, Wait(target))
    ensures Can(Image(m, s), Wait(Wrap(m, target)))
    ensures Exec(m, Image(m, s), Wait(Wrap(m, target))) == Image(m, Apply(s, Wait(target)))
  {
    assert InUse(s, s.last);
    PrecedesExact(m, s.last, target);
    var t, u := NewWait(s, target), Exec(m, Image(m, s), Wait(Wrap(m, target)));
    hide Inv, Wrap, InUse, Precedes;
    assert WrapAll(m, t.targets) == u.targets;
    assert WrapAll(m, t.known) == u.known;
    assert PcsImage(m, t.pcs) == u.pcs;
  }

  lemma GrabRefines(m: nat, s: State, c: Id)
    requires m > 0 && Inv(s) && Sized(s) && Close(m, s) && Enabled(s, Step(c)) && s.pcs[c].Grab?
    ensures Below(s.list, |s.targets|)
    ensures WordGrab(m, Image(m, s), c, Wrap(m, s.pcs[c].known), s.pcs[c].resume)
         == Image(m, GrabAll(s, c, s.pcs[c].known, s.pcs[c].resume))
  {
    hide Inv, Close, Near, Filter, Beyond, Reached, MinTarget, MinDiff, Wrap, AddTest, Grabbed;
    var k, rs := s.pcs[c].known, s.pcs[c].resume;
    assert InUse(s, k) by { assert Needs(s.pcs[c], k); }
    hide InUse;
    ListNear(m, s, k);
    var rq, more := Beyond(s.list, s.targets, k), Reached(s.list, s.targets, k);
    assert WordGrab(m, Image(m, s), c, Wrap(m, k), rs)
        == Grabbed(Image(m, s), c, Wrap(m, k), rs, rq, more, Wrap(m, if rq == [] then k else MinTarget(rq, s.targets)))
    by { WordGrabOf(m, s, c, k, rs); }
    GrabbedImage(m, s, c, k, rs, rq, more, if rq == [] then k else MinTarget(rq, s.targets));
  }

  lemma WordGrabOf(m: nat, s: State, c: Id, k: int, rs: seq<Id>)
    requires m > 0 && c < |s.pcs| && Below(s.list, |s.targets|) && Near(m, s.list, s.targets, k)
    ensures var rq := Beyond(s.list, s.targets, k);
      WordGrab(m, Image(m, s), c, Wrap(m, k), rs)
        == Grabbed(Image(m, s), c, Wrap(m, k), rs, rq, Reached(s.list, s.targets, k),
                   Wrap(m, if rq == [] then k else MinTarget(rq, s.targets)))
  {
    AddSplit(m, s.list, s.targets, k);
    if Beyond(s.list, s.targets, k) != [] { EarliestOnWords(m, s.list, s.targets, k); }
    hide Near, Filter, Beyond, Reached, MinTarget, MinDiff, Wrap, AddTest, Grabbed;
  }

  lemma GrabbedImage(m: nat, s: State, c: Id, known: int, rs: seq<Id>, rq: seq<Id>, more: seq<Id>, earliest: int)
    requires m > 0 && c < |s.pcs|
    ensures Grabbed(Image(m, s), c, Wrap(m, known), rs, rq, more, Wrap(m, earliest))
         == Image(m, Grabbed(s, c, known, rs, rq, more, earliest))
  {
    PcUpdate(m, s.pcs, c, if rq != [] then Push(rq, earliest, rs + more) else AfterAdd(known, rs + more));
    hide Wrap;
  }

  lemma ThreadRefines(m: nat, s: State, c: Id)
    requires m > 0 && Inv(s) && Sized(s) && Close(m, s) && Enabled(s, Step(c))
    ensures Can(Image(m, s), Step(c)) && Exec(m, Image(m, s), Step(c)) == Image(m, Apply(s, Step(c)))
  {
    var pc := s.pcs[c];
    if pc.Grab? {
      GrabRefines(m, s, c);
      hide Inv, WordGrab, GrabAll, Wrap, InUse;
    } else if pc.Look? {
      assert Needs(pc, pc.target);
      assert InUse(s, s.last) && InUse(s, pc.target);
      PrecedesExact(m, s.last, pc.target);
      hide Inv, Wrap, InUse, Precedes;
      PcUpdate(m, s.pcs, c, AfterAdd(s.last, pc.resume));
      PcUpdate(m, s.pcs, c, Grab(s.last, pc.resume));
    } else {
      OtherThreadRefines(m, s, c);
    }
  }

  lemma OtherThreadRefines(m: nat, s: State, c: Id)
    requires m > 0 && Sized(s) && Enabled(s, Step(c)) && !s.pcs[c].Grab? && !s.pcs[c].Look?
    ensures Can(Image(m, s), Step(c)) && Exec(m, Image(m, s), Step(c)) == Image(m, Apply(s, Step(c)))
  {
    hide Wrap;
    match s.pcs[c]
    case Push(rq, target, rs) => PcUpdate(m, s.pcs, c, Look(target, rs));
    case Resuming(known, rs) =>
      var next := AfterAdd(known, rs[1..]);
      PcUpdate(m, s.pcs, c, next);
      ResumeImage(m, s.(pcs := s.pcs[c := next]), rs[0], known);
    case Handshake =>
      PcUpdate(m, s.pcs, c, Continued);
      PcUpdate(m, s.pcs, c, Suspended);
    case _ =>
  }

  /** One step on words is the image of the step on numbers. */
  lemma StepRefines(m: nat, s: State, a: Action)
    requires m > 0 && Inv(s) && Sized(s) && Close(m, s) && Enabled(s, a) && CallerOk(m, s, a)
    ensures Can(Image(m, s), ActionImage(m, a)) && Exec(m, Image(m, s), ActionImage(m, a)) == Image(m, Apply(s, a))
  {
    hide Inv, Close, Apply, Exec, Image, Can;
    if a.Step? { ThreadRefines(m, s, a.c); } else if a.Wait? { WaitRefines(m, s, a.target); } else { PubRefines(m, s, a); }
  }

  // ---------------------------------------------------------------- whole runs

  ghost predicate CallersOk(m: nat, trace: seq<State>, acts: seq<Action>)
    requires Run(trace, acts)
  {
    forall k :: 0 <= k < |acts| ==> Sized(trace[k]) && CallerOk(m, trace[k], acts[k])
  }

  lemma InvSized(s: State)
    requires Inv(s)
    ensures Sized(s)
  {
  }

  lemma InitClose(m: nat, s: State)
    requires m > 0 && Init(s)
    ensures Close(m, s)
  {
  }

  lemma {:induction false} RunKeepsClose(m: nat, trace: seq<State>, acts: seq<Action>, k: nat)
    requires m > 0 && Run(trace, acts) && CallersOk(m, trace, acts) && k <= |acts|
    ensures Inv(trace[k]) && Sized(trace[k]) && Close(m, trace[k])
  {
    hide Inv, Enabled, Apply, Close, CallerOk, Init, Sized;
    RunKeepsInv(trace, acts, k);
    InvSized(trace[k]);
    if k > 0 {
      RunKeepsClose(m, trace, acts, k - 1);
      CloseStep(m, trace[k - 1], acts[k - 1]);
    } else {
      InitClose(m, trace[0]);
    }
  }

  /** The images of any run on numbers form a run on words, while the callers' numbers stay close. */
  lemma WordsSimulateNumbers(m: nat, trace: seq<State>, acts: seq<Action>, k: nat)
    requires m > 0 && Run(trace, acts) && CallersOk(m, trace, acts) && k < |acts|
    ensures Can(Image(m, trace[k]), ActionImage(m, acts[k]))
    ensures Image(m, trace[k + 1]) == Exec(m, Image(m, trace[k]), ActionImage(m, acts[k]))
  {
    hide Inv, Enabled, Apply, Close, CallerOk, Init, Exec, Image, Can;
    RunKeepsClose(m, trace, acts, k);
    StepRefines(m, trace[k], acts[k]);
  }

  /** A run of the code on words.  `calls` gives the numbers that the callers mean; the words are all that the
      code sees of them. */
  ghost predicate WordRun(m: nat, words: seq<State>, calls: seq<Action>)
    requires m > 0
  {
    && |words| == |calls| + 1
    && forall k :: 0 <= k < |calls| ==>
         && Can(words[k], ActionImage(m, calls[k]))
         && words[k + 1] == Exec(m, words[k], ActionImage(m, calls[k]))
  }

  /** The run on numbers with the first calls has led to the words so far. */
  ghost predicate LedTo(m: nat, s: State, words: seq<State>, calls: seq<Action>, trace: seq<State>, k: nat)
    requires m > 0 && WordRun(m, words, calls) && k <= |calls|
  {
    && Run(trace, calls[..k]) && CallersOk(m, trace, calls[..k]) && trace[0] == s
    && forall j :: 0 <= j <= k ==> words[j] == Image(m, trace[j])
  }

  /** Wherever the run on numbers has led to the words, the next call is what callers promise. */
  ghost predicate CallersClose(m: nat, s: State, words: seq<State>, calls: seq<Action>)
    requires m > 0 && WordRun(m, words, calls)
  {
    forall trace: seq<State>, k: nat ::
      k < |calls| && LedTo(m, s, words, calls, trace, k) ==> Sized(trace[k]) && CallerOk(m, trace[k], calls[k])
  }

  lemma StepLifts(m: nat, s: State, a: Action)
    requires m > 0 && Sized(s) && Can(Image(m, s), ActionImage(m, a)) && CallerOk(m, s, a)
    ensures Enabled(s, a)
  {
    hide Wrap, Close, InUse;
    if a.Step? && a.c < |s.pcs| { assert PcsImage(m, s.pcs)[a.c] == PcImage(m, s.pcs[a.c]); }
  }

  lemma LeadsOn(m: nat, s: State, words: seq<State>, calls: seq<Action>, trace: seq<State>, k: nat)
    returns (longer: seq<State>)
    requires m > 0 && WordRun(m, words, calls) && k < |calls| && LedTo(m, s, words, calls, trace, k)
    requires Sized(trace[k]) && CallerOk(m, trace[k], calls[k])
    ensures LedTo(m, s, words, calls, longer, k + 1)
  {
    hide Inv, Apply, Close, CallerOk, Init, Exec, Image, Can, ActionImage, Sized;
    var t, a := trace[k], calls[k];
    RunKeepsClose(m, trace, calls[..k], k);
    assert words[k] == Image(m, t) && Can(words[k], ActionImage(m, a));
    StepLifts(m, t, a);
    StepRefines(m, t, a);
    longer := trace + [Apply(t, a)];
    RunExtends(m, trace, calls[..k], a);
    assert calls[..k + 1] == calls[..k] + [a];
  }

  lemma RunExtends(m: nat, trace: seq<State>, acts: seq<Action>, a: Action)
    requires Run(trace, acts) && CallersOk(m, trace, acts)
    requires Sized(trace[|acts|]) && Enabled(trace[|acts|], a) && CallerOk(m, trace[|acts|], a)
    ensures Run(trace + [Apply(trace[|acts|], a)], acts + [a])
    ensures CallersOk(m, trace + [Apply(trace[|acts|], a)], acts + [a])
  {
    hide Enabled, Apply, CallerOk, Init, Sized;
  }

  lemma {:induction false} WordRunLifts(m: nat, s: State, words: seq<State>, calls: seq<Action>, k: nat)
    returns (trace: seq<State>)
    requires m > 0 && Init(s) && WordRun(m, words, calls) && k <= |calls|
    requires words[0] == Image(m, s) && CallersClose(m, s, words, calls)
    ensures LedTo(m, s, words, calls, trace, k)
  {
    if k == 0 {
      trace := [s];
      hide Init, Image, Can, Exec;
      assert Run([s], calls[..0]);
    } else {
      trace := WordRunLifts(m, s, words, calls, k - 1);
      hide LedTo, WordRun, Init, CallerOk, Sized;
      trace := LeadsOn(m, s, words, calls, trace, k - 1);
    }
  }

  /** Every run of the code on words is the image of the run on numbers with the same calls, and so has all the
      properties of such runs, while the callers' numbers are what they promise and stay close. */
  lemma WordRunsAreImages(m: nat, s: State, words: seq<State>, calls: seq<Action>)
    requires m > 0 && Init(s) && WordRun(m, words, calls)
    requires words[0] == Image(m, s) && CallersClose(m, s, words, calls)
    ensures exists trace: seq<State> ::
      Run(trace, calls) && trace[0] == s && forall k :: 0 <= k <= |calls| ==> words[k] == Image(m, trace[k])
  {
    var trace := WordRunLifts(m, s, words, calls, |calls|);
    assert calls[..|calls|] == calls;
  }
}
