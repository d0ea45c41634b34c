/** What the calls on a sequence_barrier achieve over a run (include/cppcoro/sequence_barrier.hpp): a wait
    returns for the number its caller asked for, with a number that publish was called with. */
module SequenceBarrierCalls {
  import opened Waiters
  import opened SequenceBarrier

  /** The numbers asked for by the waits so far, in order. */
  function TargetsOf(acts: seq<Action>): seq<int> {
    if acts == [] then []
    else
      var a := acts[|acts| - 1];
      TargetsOf(acts[..|acts| - 1]) + if a.Wait? then [a.target] else []
  }

  /** The number last published, `first` being the one the barrier was created with. */
  function PublishedBy(first: int, acts: seq<Action>): int {
    if acts == [] then first
    else
      var a := acts[|acts| - 1];
      if a.Publish? then a.seqno else PublishedBy(first, acts[..|acts| - 1])
  }

  lemma TargetsOfStep(s: State, a: Action)
    requires Inv(s) && Enabled(s, a)
    ensures Apply(s, a).targets == s.targets + if a.Wait? then [a.target] else []
    ensures Apply(s, a).last == if a.Publish? then a.seqno else s.last
  {
    hide Inv, Moved, Beyond, Reached;
  }

  /** The waits are those that were called, each for its own target, and what is published is what publish was
      last called with. */
  lemma {:induction false} TargetsAre(trace: seq<State>, acts: seq<Action>, k: nat)
    requires Run(trace, acts) && k <= |acts|
    ensures trace[k].targets == TargetsOf(acts[..k])
    ensures trace[k].last == PublishedBy(trace[0].last, acts[..k])
  {
    hide Enabled, Apply, Inv;
    if k > 0 {
      TargetsAre(trace, acts, k - 1);
      RunKeepsInv(trace, acts, k - 1);
      TargetsOfStep(trace[k - 1], acts[k - 1]);
      assert acts[..k][..k - 1] == acts[..k - 1];
    }
  }

  lemma {:induction false} TargetsExtend(trace: seq<State>, acts: seq<Action>, j: nat, k: nat)
    requires Run(trace, acts) && j <= k <= |acts|
    ensures trace[j].targets <= trace[k].targets && trace[j].last <= trace[k].last
  {
    hide Apply, Inv, Can;
    if j < k {
      TargetsExtend(trace, acts, j, k - 1);
      RunKeepsInv(trace, acts, k - 1);
      TargetsOfStep(trace[k - 1], acts[k - 1]);
    }
  }

  // ---------------------------------------------------------------- where returned numbers come from

  /** The numbers that have been the published one. */
  function Lasts(trace: seq<State>, k: nat): set<int>
    requires k < |trace|
  {
    set i | 0 <= i <= k :: trace[i].last
  }

  /** Whatever a wait was told, or a thread will tell one, is one of these numbers. */
  ghost predicate KnownIn(s: State, values: set<int>) {
    && s.last in values
    && (forall a :: 0 <= a < |s.known| ==> s.known[a] in values)
    && (forall c :: 0 <= c < |s.pcs| && (s.pcs[c].Grab? || s.pcs[c].Resuming?) ==> s.pcs[c].known in values)
  }

  lemma KnownResumed(s: State, a: Id, value: int, values: set<int>)
    requires Sized(s) && a < |s.targets| && KnownIn(s, values) && value in values
    ensures KnownIn(Resume(s, a, value), values)
  {
  }

  lemma KnownPub(s: State, a: Action, values: set<int>)
    requires Inv(s) && Enabled(s, a) && !a.Wait? && !a.Step? && KnownIn(s, values)
    ensures KnownIn(Apply(s, a), if a.Publish? then values + {a.seqno} else values)
  {
    if a.PubResume_? {
      assert s.pub.seqno == s.last;
      hide Inv, Moved;
      KnownResumed(s, s.pub.resume[0], s.pub.seqno, values);
    } else {
      hide Inv, Moved, Beyond, Reached;
    }
  }

  lemma KnownStep(s: State, c: Id, values: set<int>)
    requires Inv(s) && Enabled(s, Step(c)) && KnownIn(s, values)
    ensures KnownIn(WaiterStep(s, c), values)
  {
    hide Inv, Moved, Beyond, Reached, MinTarget;
    if s.pcs[c].Resuming? {
      var known, rs := s.pcs[c].known, s.pcs[c].resume;
      KnownResumed(s.(pcs := s.pcs[c := AfterAdd(known, rs[1..])]), rs[0], known, values);
    }
  }

  lemma KnownWait(s: State, target: int, values: set<int>)
    requires Sized(s) && KnownIn(s, values)
    ensures KnownIn(NewWait(s, target), values)
  {
  }

  lemma KnownAny(s: State, a: Action, values: set<int>)
    requires Inv(s) && Enabled(s, a) && KnownIn(s, values)
    ensures KnownIn(Apply(s, a), values + {Apply(s, a).last})
  {
    TargetsOfStep(s, a);
    KnownMore(Apply(s, a), values, Apply(s, a).last);
    hide Inv, KnownIn, WaiterStep, NewWait, TakeAll, Resume;
    if a.Step? { KnownStep(s, a.c, values); }
    else if a.Wait? { KnownWait(s, a.target, values); }
    else { KnownPub(s, a, values); }
  }

  lemma KnownMore(s: State, values: set<int>, v: int)
    ensures KnownIn(s, values) ==> KnownIn(s, values + {v})
  {
  }

  lemma {:induction false} KnownWasPublished(trace: seq<State>, acts: seq<Action>, k: nat)
    requires Run(trace, acts) && k <= |acts|
    ensures KnownIn(trace[k], Lasts(trace, k))
  {
    if k > 0 {
      KnownWasPublished(trace, acts, k - 1);
      assert Lasts(trace, k) == Lasts(trace, k - 1) + {trace[k].last};
      RunKeepsInv(trace, acts, k - 1);
      hide Inv, Lasts, KnownIn, Apply, Can;
      KnownAny(trace[k - 1], acts[k - 1], Lasts(trace, k - 1));
    }
  }

  // ---------------------------------------------------------------- waits

  /** A wait that was ready at once is in no list: nobody resumes it. */
  lemma ReadyPub(s: State, a: Action, b: Id)
    requires Inv(s) && Enabled(s, a) && !a.Wait? && !a.Step? && b < |s.targets| && s.loc[b].Outside?
    ensures Apply(s, a).loc[b].Outside? && Apply(s, a).known[b] == s.known[b]
  {
    InPlace(s.loc, s.list, Queued);
    InPlace(s.loc, PubRequeueOf(s.pub), PubRequeue);
    InPlace(s.loc, PubResumeOf(s.pub), PubResume);
    if a.PubTake? {
      SplitFacts(s, s.pub.seqno);
      assert b !in s.list;
    }
    if a.PubResume_? { assert s.pub.resume[0] in s.pub.resume; }
    hide Inv, Beyond, Reached;
  }

  lemma ReadyStep(s: State, c: Id, b: Id)
    requires Inv(s) && Enabled(s, Step(c)) && b < |s.targets| && s.loc[b].Outside?
    ensures WaiterStep(s, c).loc[b].Outside? && WaiterStep(s, c).known[b] == s.known[b]
  {
    InPlace(s.loc, s.list, Queued);
    InPlace(s.loc, RequeueOf(s.pcs[c]), OwnRequeue(c));
    InPlace(s.loc, ResumeOf(s.pcs[c]), OwnResume(c));
    if s.pcs[c].Grab? {
      SplitFacts(s, s.pcs[c].known);
      assert b !in s.list;
    }
    if s.pcs[c].Resuming? { assert s.pcs[c].resume[0] in s.pcs[c].resume; }
    hide Inv, Beyond, Reached, MinTarget;
  }

  ghost predicate WasReady(s: State, b: Id, value: int) {
    Sized(s) && b < |s.targets| && s.loc[b].Outside? && s.known[b] == value
  }

  lemma WasReadyStep(s: State, a: Action, b: Id, value: int)
    requires Inv(s) && Enabled(s, a) && WasReady(s, b, value)
    ensures WasReady(Apply(s, a), b, value)
  {
    assert Sized(Apply(s, a)) by { InvStep(s, a); }
    TargetsOfStep(s, a);
    hide Inv, WaiterStep, TakeAll, Moved, Resume;
    if a.Step? { ReadyStep(s, a.c, b); } else if !a.Wait? { ReadyPub(s, a, b); }
  }

  lemma WasReadyStart(s: State, target: int)
    requires Sized(s) && target <= s.last
    ensures WasReady(NewWait(s, target), |s.targets|, s.last)
  {
  }

  lemma {:induction false} ReadyKept(trace: seq<State>, acts: seq<Action>, j: nat, k: nat)
    requires Run(trace, acts) && j < k <= |acts| && acts[j].Wait? && acts[j].target <= trace[j].last
    ensures WasReady(trace[k], |trace[j].targets|, trace[j].last)
  {
    RunKeepsInv(trace, acts, k - 1);
    if k > j + 1 {
      ReadyKept(trace, acts, j, k - 1);
      hide Inv, Apply, Can, WasReady;
      WasReadyStep(trace[k - 1], acts[k - 1], |trace[j].targets|, trace[j].last);
    } else {
      assert Sized(trace[j]) && trace[k] == NewWait(trace[j], acts[j].target);
      hide *;
      WasReadyStart(trace[j], acts[j].target);
    }
  }

  /** wait_until_published(target): it is ready at once exactly if that number is already published. */
  lemma ReadyExact(trace: seq<State>, acts: seq<Action>, j: nat)
    requires Run(trace, acts) && j < |acts| && acts[j].Wait?
    ensures var a := |trace[j].targets|;
      && Sized(trace[j + 1]) && a < |trace[j + 1].targets|
      && (trace[j + 1].resumes[a] == 1 <==> acts[j].target <= trace[j].last)
  {
    RunKeepsInv(trace, acts, j);
    hide ListsOk, ValuesOk, FlagsOk, Watched;
  }

  /** Afterwards: if the coroutine was continued, then once and with a number that was published during the wait
      and reaches the target it was called with; if it was not and no thread is mid-operation, that target is
      still beyond what is published. */
  lemma WaitReturnsItsTarget(trace: seq<State>, acts: seq<Action>, j: nat, k: nat)
    requires Run(trace, acts) && j < k <= |acts| && acts[j].Wait?
    ensures var s, a, target := trace[k], |trace[j].targets|, acts[j].target;
      && Sized(s) && a < |s.targets| && s.targets[a] == target && s.resumes[a] <= 1
      && (s.resumes[a] == 1 ==> target <= s.known[a] && exists i :: j <= i <= k && s.known[a] == trace[i].last)
      && (Quiescent(s) ==> (s.resumes[a] == 1 <==> target <= PublishedBy(trace[0].last, acts[..k])))
  {
    var s, a := trace[k], |trace[j].targets|;
    var j1 := j + 1;
    RunKeepsInv(trace, acts, j);
    TargetsOfStep(trace[j], acts[j]);
    TargetsExtend(trace, acts, j1, k);
    TargetsAre(trace, acts, k);
    ContinuedOnceWithItsTarget(trace, acts, k, a);
    if Quiescent(s) { NoLostWakeUp(trace, acts, k, a); }
    hide Inv, Apply, Can, Quiescent, TargetsOf, PublishedBy;
    if s.resumes[a] == 1 {
      KnownWasPublished(trace, acts, k);
      var i :| 0 <= i <= k && s.known[a] == trace[i].last;
      if i < j {
        TargetsExtend(trace, acts, i, j);
        assert acts[j].target <= trace[j].last;
        ReadyKept(trace, acts, j, k);
      }
    }
  }

  // ---------------------------------------------------------------- calls that run undisturbed end

  /** How many steps the thread of a wait operation has yet to take, at most, if no other thread moves. */
  function WaitLeft(s: State, pc: Pc): nat {
    match pc
    case Push(rq, target, rs) => if s.last < target then |rs| + 3 else |rs| + |rq| + |s.list| + 7
    case Look(target, rs) => if s.last < target then |rs| + 2 else |rs| + |s.list| + 6
    case Grab(known, rs) => if known == s.last then |rs| + |s.list| + 5 else |rs| + |s.list| + 8
    case Resuming(_, rs) => |rs| + 1
    case Handshake => 1
    case _ => 0
  }

  /** The same for the publisher. */
  function PublishLeft(s: State): nat {
    match s.pub
    case Idle => 0
    case Stored(_) => |s.list| + 3
    case Taking(_) => |s.list| + 2
    case Requeuing(_, _, rs) => |rs| + 1
    case Waking(_, rs) => |rs|
  }

  lemma {:induction false} SplitSizes(l: seq<Id>, targets: seq<int>, v: int)
    requires Below(l, |targets|)
    ensures |Beyond(l, targets, v)| + |Reached(l, targets, v)| == |l|
  {
    if l != [] { SplitSizes(l[1..], targets, v); }
  }

  lemma GrabbedShrinks(s: State, c: Id, known: int, rs: seq<Id>, rq: seq<Id>, more: seq<Id>, earliest: int)
    requires c < |s.pcs| && known <= s.last && |rq| + |more| == |s.list| && (rq != [] ==> known < earliest)
    ensures var t := Grabbed(s, c, known, rs, rq, more, earliest); WaitLeft(t, t.pcs[c]) < WaitLeft(s, Grab(known, rs))
  {
    hide Moved;
  }

  lemma GrabShrinks(s: State, c: Id)
    requires Inv(s) && Enabled(s, Step(c)) && s.pcs[c].Grab?
    ensures WaitLeft(WaiterStep(s, c), WaiterStep(s, c).pcs[c]) < WaitLeft(s, s.pcs[c])
  {
    var known, rs := s.pcs[c].known, s.pcs[c].resume;
    var rq, more := Beyond(s.list, s.targets, known), Reached(s.list, s.targets, known);
    var earliest := if rq == [] then known else MinTarget(rq, s.targets);
    SplitSizes(s.list, s.targets, known);
    SplitFacts(s, known);
    assert ThreadOk(s.pcs[c], s.targets, s.last);
    if rq != [] { MinTargetIsLeast(rq, s.targets); }
    hide Inv, Beyond, Reached, Moved, MinTarget, Below, WaitLeft;
    GrabbedShrinks(s, c, known, rs, rq, more, earliest);
    hide Grabbed;
  }

  lemma WaitShrinks(s: State, c: Id)
    requires Inv(s) && Enabled(s, Step(c)) && !s.pcs[c].Grab?
    ensures WaitLeft(WaiterStep(s, c), WaiterStep(s, c).pcs[c]) < WaitLeft(s, s.pcs[c])
  {
    if s.pcs[c].Resuming? {
      var a := s.pcs[c].resume[0];
      assert a in s.pcs[c].resume && Holds(s.loc, ResumeOf(s.pcs[c]), OwnResume(c));
      NotYetContinued(s, a);
    }
    hide Inv, Moved;
  }

  lemma WaitAdvances(s: State, c: Id)
    requires Inv(s) && Enabled(s, Step(c))
    ensures var t := Apply(s, Step(c)); c < |t.pcs| && WaitLeft(t, t.pcs[c]) < WaitLeft(s, s.pcs[c])
  {
    InvStep(s, Step(c));
    TargetsOfStep(s, Step(c));
    if s.pcs[c].Grab? { GrabShrinks(s, c); } else { WaitShrinks(s, c); }
    hide ListsOk, ValuesOk, FlagsOk, Watched, WaiterStep, WaitLeft;
  }

  predicate OfPublisher(a: Action) { a.PubLook? || a.PubTake? || a.PubRequeue_? || a.PubResume_? }

  lemma TakeShrinks(s: State, v: int, rq: seq<Id>, rs: seq<Id>)
    requires s.pub.Taking? && |rq| + |rs| == |s.list|
    ensures PublishLeft(Taken(s, v, rq, rs)) < PublishLeft(s)
  {
    hide Moved;
  }

  lemma ResumeLeavesPub(s: State, a: Id, value: int)
    requires Sized(s) && a < |s.targets|
    ensures Resume(s, a, value).pub == s.pub && Resume(s, a, value).list == s.list
  {
  }

  lemma PublishAdvances(s: State, a: Action)
    requires Inv(s) && Enabled(s, a) && OfPublisher(a)
    ensures PublishLeft(Apply(s, a)) < PublishLeft(s)
  {
    hide Inv;
    if a.PubTake? {
      SplitSizes(s.list, s.targets, s.pub.seqno);
      TakeShrinks(s, s.pub.seqno, Beyond(s.list, s.targets, s.pub.seqno), Reached(s.list, s.targets, s.pub.seqno));
    }
    if a.PubResume_? { ResumeLeavesPub(s, s.pub.resume[0], s.pub.seqno); }
    hide Beyond, Reached, Moved, Taken, Resume, Below;
  }

  /** wait_until_published, left alone, ends or is suspended, whatever it finds in the list. */
  lemma {:induction false} WaitEnds(trace: seq<State>, acts: seq<Action>, j: nat, k: nat, c: Id)
    requires Run(trace, acts) && j <= k <= |acts| && c < |trace[j].pcs| && forall i :: j <= i < k ==> acts[i] == Step(c)
    ensures c < |trace[k].pcs| && k - j + WaitLeft(trace[k], trace[k].pcs[c]) <= WaitLeft(trace[j], trace[j].pcs[c])
  {
    hide Inv, Apply, Enabled, WaitLeft;
    if j < k {
      WaitEnds(trace, acts, j, k - 1, c);
      RunKeepsInv(trace, acts, k - 1);
      WaitAdvances(trace[k - 1], c);
    }
  }

  /** publish, left alone, returns: it resumes at most those who were in the list. */
  lemma {:induction false} PublishEnds(trace: seq<State>, acts: seq<Action>, j: nat, k: nat)
    requires Run(trace, acts) && j <= k <= |acts| && forall i :: j <= i < k ==> OfPublisher(acts[i])
    ensures k - j + PublishLeft(trace[k]) <= PublishLeft(trace[j])
  {
    hide Inv, Apply, Enabled, PublishLeft, OfPublisher;
    if j < k {
      PublishEnds(trace, acts, j, k - 1);
      RunKeepsInv(trace, acts, k - 1);
      PublishAdvances(trace[k - 1], acts[k - 1]);
    }
  }

  function PublisherNext(p: Publisher): Action {
    match p
    case Taking(_) => PubTake
    case Requeuing(_, _, _) => PubRequeue_
    case Waking(_, _) => PubResume_
    case _ => PubLook
  }

  /** No thread inside the barrier is ever stuck: only suspended waits stay where they are. */
  lemma NeverStuck(trace: seq<State>, acts: seq<Action>, k: nat, c: Id)
    requires Run(trace, acts) && k <= |acts|
    ensures var s := trace[k];
      && (c < |s.pcs| && !s.pcs[c].Suspended? && !s.pcs[c].Continued? ==> Enabled(s, Step(c)))
      && (!s.pub.Idle? ==> Enabled(s, PublisherNext(s.pub)))
  {
    RunKeepsInv(trace, acts, k);
    var s := trace[k];
    HoldsBelow(s.loc, s.list, Queued);
    if c < |s.pcs| {
      assert ThreadOk(s.pcs[c], s.targets, s.last);
      HoldsBelow(s.loc, ResumeOf(s.pcs[c]), OwnResume(c));
    }
    HoldsBelow(s.loc, PubResumeOf(s.pub), PubResume);
    hide Holds, FlagsOk, Watched;
  }
}
