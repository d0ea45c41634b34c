/** sequence_barrier (include/cppcoro/sequence_barrier.hpp:138-198, 308-467): one publisher and any number
    of wait operations, as a step machine with one step per atomic access.  Sequence numbers are
    unbounded here (module BarrierWords has the same machine on words).

    A wait operation is its number; `loc` is history and says which list holds it.  `resumes` counts how
    often its coroutine was continued. */
module SequenceBarrier {
  import opened Waiters

  /** Where the thread of a wait operation is. */
  datatype Pc =
    | Push(requeue: seq<Id>, target: int, resume: seq<Id>)  // add_awaiter: about to push a list
    | Look(target: int, resume: seq<Id>)                    // about to load m_lastPublished
    | Grab(known: int, resume: seq<Id>)                     // something is ready: about to take the list
    | Resuming(known: int, resume: seq<Id>)                 // about to resume the first of the list
    | Handshake                                             // await_suspend: about to exchange m_readyToResume
    | Suspended
    | Continued                                             // past the co_await

  datatype Publisher =
    | Idle
    | Stored(seqno: int)                                            // about to look at the list
    | Taking(seqno: int)                                            // about to take the list
    | Requeuing(seqno: int, requeue: seq<Id>, resume: seq<Id>)      // about to push back what is not ready
    | Waking(seqno: int, resume: seq<Id>)                           // about to resume the first of the list

  datatype Loc = Outside | Queued | PubRequeue | PubResume | OwnRequeue(c: Id) | OwnResume(c: Id) | Released

  datatype State = State(
    last: int, list: seq<Id>, pub: Publisher,
    targets: seq<int>, known: seq<int>, ready: seq<bool>, pcs: seq<Pc>,
    loc: seq<Loc>, resumes: seq<nat>)

  datatype Action =
    | Publish(seqno: int) | PubLook | PubTake | PubRequeue_ | PubResume_
    | Wait(target: int) | Step(c: Id)

  predicate Sized(s: State) {
    var n := |s.targets|;
    |s.known| == n && |s.ready| == n && |s.pcs| == n && |s.loc| == n && |s.resumes| == n
  }

  /** resume(): hand over the value, then whoever comes second to the flag continues the coroutine. */
  function Resume(s: State, a: Id, value: int): State
    requires Sized(s) && a < |s.targets|
  {
    var t := s.(known := s.known[a := value], ready := s.ready[a := true], loc := s.loc[a := Released]);
    if s.ready[a] then t.(pcs := t.pcs[a := Continued], resumes := t.resumes[a := t.resumes[a] + 1]) else t
  }

  function AfterAdd(known: int, resume: seq<Id>): Pc { if resume == [] then Handshake else Resuming(known, resume) }

  function AfterPublish(seqno: int, resume: seq<Id>): Publisher { if resume == [] then Idle else Waking(seqno, resume) }

  /** The publisher's numbers do not decrease. */
  ghost predicate Enabled(s: State, a: Action) {
    Can(s, a) && (a.Publish? ==> a.seqno >= s.last)
  }

  /** A thread is where it can take this step. */
  ghost predicate Can(s: State, a: Action) {
    Sized(s) && Below(s.list, |s.targets|) &&
    match a
    case Publish(v) => s.pub.Idle?
    case PubLook => s.pub.Stored?
    case PubTake => s.pub.Taking?
    case PubRequeue_ => s.pub.Requeuing?
    case PubResume_ => s.pub.Waking? && s.pub.resume != [] && Below(s.pub.resume, |s.targets|)
    case Wait(_) => true
    case Step(c) =>
      c < |s.targets| &&
      match s.pcs[c]
      case Resuming(_, resume) => resume != [] && Below(resume, |s.targets|)
      case Suspended => false
      case Continued => false
      case _ => true
  }

  ghost function Apply(s: State, a: Action): State
    requires Can(s, a)
  {
    match a
    case Publish(v) => s.(last := v, pub := Stored(v))
    case PubLook => s.(pub := if s.list == [] then Idle else Taking(s.pub.seqno))
    case PubTake => TakeAll(s, s.pub.seqno)
    case PubRequeue_ =>
      s.(list := s.pub.requeue + s.list, pub := AfterPublish(s.pub.seqno, s.pub.resume),
         loc := Moved(s.loc, s.pub.requeue, Queued))
    case PubResume_ =>
      Resume(s, s.pub.resume[0], s.pub.seqno).(pub := AfterPublish(s.pub.seqno, s.pub.resume[1..]))
    case Wait(target) => NewWait(s, target)
    case Step(c) => WaiterStep(s, c)
  }

  ghost function TakeAll(s: State, v: int): State
    requires Sized(s) && Below(s.list, |s.targets|)
  {
    Taken(s, v, Beyond(s.list, s.targets, v), Reached(s.list, s.targets, v))
  }

  /** The publisher takes the list: rq has to wait again, rs is to be resumed. */
  ghost function Taken(s: State, v: int, rq: seq<Id>, rs: seq<Id>): State {
    s.(list := [],
       pub := if rq != [] then Requeuing(v, rq, rs) else AfterPublish(v, rs),
       loc := Moved(Moved(s.loc, rq, PubRequeue), rs, PubResume))
  }

  /** The constructor loads m_lastPublished; await_ready then decides without another access. */
  ghost function NewWait(s: State, target: int): State {
    Awaited(s, target, !(s.last < target))
  }

  ghost function Awaited(s: State, target: int, quick: bool): State {
    var c := |s.targets|;
    s.(targets := s.targets + [target], known := s.known + [s.last], ready := s.ready + [false],
       pcs := s.pcs + [if quick then Continued else Push([c], target, [])],
       loc := s.loc + [if quick then Outside else OwnRequeue(c)],
       resumes := s.resumes + [if quick then 1 else 0])
  }

  ghost function WaiterStep(s: State, c: Id): State
    requires Can(s, Step(c))
  {
    match s.pcs[c]
    case Push(rq, target, rs) =>
      s.(list := rq + s.list, pcs := s.pcs[c := Look(target, rs)], loc := Moved(s.loc, rq, Queued))
    case Look(target, rs) => Looked(s, c, rs, s.last < target)
    case Grab(known, rs) => GrabAll(s, c, known, rs)
    case Resuming(known, rs) =>
      Resume(s.(pcs := s.pcs[c := AfterAdd(known, rs[1..])]), rs[0], known)
    case Handshake =>
      if s.ready[c] then s.(pcs := s.pcs[c := Continued], resumes := s.resumes[c := s.resumes[c] + 1])
      else s.(ready := s.ready[c := true], pcs := s.pcs[c := Suspended])
    case Suspended => s
    case Continued => s
  }

  ghost function Looked(s: State, c: Id, rs: seq<Id>, early: bool): State
    requires c < |s.pcs|
  {
    s.(pcs := s.pcs[c := if early then AfterAdd(s.last, rs) else Grab(s.last, rs)])
  }

  ghost function GrabAll(s: State, c: Id, known: int, rs: seq<Id>): State
    requires Sized(s) && Below(s.list, |s.targets|) && c < |s.pcs|
  {
    var rq, more := Beyond(s.list, s.targets, known), Reached(s.list, s.targets, known);
    Grabbed(s, c, known, rs, rq, more, if rq == [] then known else MinTarget(rq, s.targets))
  }

  /** A wait operation takes the list: rq, whose earliest target is given, has to wait again, `more` is to be
      resumed too. */
  ghost function Grabbed(s: State, c: Id, known: int, rs: seq<Id>, rq: seq<Id>, more: seq<Id>, earliest: int): State
    requires c < |s.pcs|
  {
    s.(list := [],
       pcs := s.pcs[c := if rq != [] then Push(rq, earliest, rs + more) else AfterAdd(known, rs + more)],
       loc := Moved(Moved(s.loc, rq, OwnRequeue(c)), more, OwnResume(c)))
  }

  ghost predicate Init(s: State) {
    Sized(s) && s.targets == [] && s.list == [] && s.pub.Idle?
  }

  // ---------------------------------------------------------------- the invariant

  function RequeueOf(p: Pc): seq<Id> { if p.Push? then p.requeue else [] }
  function ResumeOf(p: Pc): seq<Id> {
    if p.Push? || p.Look? || p.Grab? || p.Resuming? then p.resume else []
  }
  function PubRequeueOf(p: Publisher): seq<Id> { if p.Requeuing? then p.requeue else [] }
  function PubResumeOf(p: Publisher): seq<Id> { if p.Requeuing? || p.Waking? then p.resume else [] }

  ghost predicate ListsOk(s: State) {
    && Sized(s)
    && Holds(s.loc, s.list, Queued)
    && Holds(s.loc, PubRequeueOf(s.pub), PubRequeue)
    && Holds(s.loc, PubResumeOf(s.pub), PubResume)
    && (forall c :: 0 <= c < |s.pcs| ==> Holds(s.loc, RequeueOf(s.pcs[c]), OwnRequeue(c)))
    && (forall c :: 0 <= c < |s.pcs| ==> Holds(s.loc, ResumeOf(s.pcs[c]), OwnResume(c)))
    && (forall a :: 0 <= a < |s.loc| ==> (s.loc[a].OwnRequeue? || s.loc[a].OwnResume? ==> s.loc[a].c < |s.pcs|))
  }

  /** Everyone in l has been reached by sequence number v. */
  ghost predicate AllReached(targets: seq<int>, l: seq<Id>, v: int) {
    forall a :: a in l ==> a < |targets| && targets[a] <= v
  }

  ghost predicate AllAtLeast(targets: seq<int>, l: seq<Id>, v: int) {
    forall a :: a in l ==> a < |targets| && v <= targets[a]
  }

  ghost predicate ValuesOk(s: State)
    requires Sized(s)
  {
    && (forall c :: 0 <= c < |s.pcs| ==> ThreadOk(s.pcs[c], s.targets, s.last))
    && PublisherOk(s.pub, s.targets, s.last)
  }

  ghost predicate PublisherOk(pub: Publisher, targets: seq<int>, last: int) {
    match pub
    case Idle => true
    case Stored(v) => v == last
    case Taking(v) => v == last
    case Requeuing(v, rq, rs) => v == last && AllAtLeast(targets, rq, v + 1) && AllReached(targets, rs, v)
    case Waking(v, rs) => v == last && AllReached(targets, rs, v) && rs != []
  }

  ghost predicate ThreadOk(pc: Pc, targets: seq<int>, last: int) {
    match pc
    case Push(rq, target, rs) => rq != [] && AllAtLeast(targets, rq, target) && AllReached(targets, rs, last)
    case Look(target, rs) => AllReached(targets, rs, last)
    case Grab(known, rs) => known <= last && AllReached(targets, rs, known)
    case Resuming(known, rs) => known <= last && AllReached(targets, rs, known) && rs != []
    case _ => true
  }

  /** The flag is up once one of the two sides has been there; the coroutine goes on when both have. */
  ghost predicate FlagOk(s: State, a: Id)
    requires Sized(s) && a < |s.pcs|
  {
    var own := s.pcs[a].Suspended? || s.pcs[a].Continued?;
    if s.loc[a].Outside? then s.pcs[a].Continued? && s.resumes[a] == 1 && s.targets[a] <= s.known[a] <= s.last
    else
      && (s.ready[a] <==> own || s.loc[a].Released?)
      && (s.pcs[a].Continued? <==> own && s.loc[a].Released?)
      && s.resumes[a] == (if s.pcs[a].Continued? then 1 else 0)
      && (s.loc[a].Released? ==> s.targets[a] <= s.known[a] <= s.last)
  }

  ghost predicate FlagsOk(s: State)
    requires Sized(s)
  {
    forall a :: 0 <= a < |s.pcs| ==> FlagOk(s, a)
  }

  /** Someone will still take the list. */
  ghost predicate Responsible(s: State) {
    s.pub.Stored? || s.pub.Taking? ||
    exists c :: 0 <= c < |s.pcs| && (s.pcs[c].Grab? || (s.pcs[c].Look? && s.pcs[c].target <= s.last))
  }

  ghost predicate Watched(s: State)
    requires Sized(s)
  {
    forall a :: a in s.list ==> a < |s.targets| && (s.targets[a] > s.last || Responsible(s))
  }

  ghost predicate Inv(s: State) {
    ListsOk(s) && ValuesOk(s) && FlagsOk(s) && Watched(s)
  }

  // ---------------------------------------------------------------- every step keeps ListsOk

  /** The lists of all wait operations but c stay where they are. */
  ghost predicate OwnLists(loc: seq<Loc>, pcs: seq<Pc>, except: int) {
    && (forall c :: 0 <= c < |pcs| && c != except ==> Holds(loc, RequeueOf(pcs[c]), OwnRequeue(c)))
    && (forall c :: 0 <= c < |pcs| && c != except ==> Holds(loc, ResumeOf(pcs[c]), OwnResume(c)))
  }

  lemma OwnListsMoved(loc: seq<Loc>, pcs: seq<Pc>, except: int, l: seq<Id>, p: Loc, q: Loc)
    requires OwnLists(loc, pcs, except) && Holds(loc, l, p)
    requires p.OwnRequeue? || p.OwnResume? ==> p.c == except
    requires q.OwnRequeue? || q.OwnResume? ==> q.c == except
    ensures OwnLists(Moved(loc, l, q), pcs, except)
  {
    hide Holds;
    forall c | 0 <= c < |pcs| && c != except
      ensures Holds(Moved(loc, l, q), RequeueOf(pcs[c]), OwnRequeue(c)) && Holds(Moved(loc, l, q), ResumeOf(pcs[c]), OwnResume(c))
    {
      MoveElsewhere(loc, l, p, q, RequeueOf(pcs[c]), OwnRequeue(c));
      MoveElsewhere(loc, l, p, q, ResumeOf(pcs[c]), OwnResume(c));
    }
  }

  lemma OwnListsSplit(loc: seq<Loc>, pcs: seq<Pc>, except: int, l: seq<Id>, p: Loc, a: seq<Id>, qa: Loc, b: seq<Id>, qb: Loc)
    requires OwnLists(loc, pcs, except) && Holds(loc, l, p) && !p.OwnRequeue? && !p.OwnResume?
    requires qa.OwnRequeue? || qa.OwnResume? ==> qa.c == except
    requires qb.OwnRequeue? || qb.OwnResume? ==> qb.c == except
    requires forall x :: x in l <==> x in a || x in b
    ensures OwnLists(Moved(Moved(loc, a, qa), b, qb), pcs, except)
  {
    hide Holds;
    forall c | 0 <= c < |pcs| && c != except
      ensures Holds(Moved(Moved(loc, a, qa), b, qb), RequeueOf(pcs[c]), OwnRequeue(c))
      ensures Holds(Moved(Moved(loc, a, qa), b, qb), ResumeOf(pcs[c]), OwnResume(c))
    {
      SplitElsewhere(loc, l, p, a, qa, b, qb, RequeueOf(pcs[c]), OwnRequeue(c));
      SplitElsewhere(loc, l, p, a, qa, b, qb, ResumeOf(pcs[c]), OwnResume(c));
    }
  }

  lemma OwnListsReleased(loc: seq<Loc>, pcs: seq<Pc>, except: int, l: seq<Id>, p: Loc)
    requires OwnLists(loc, pcs, except) && Holds(loc, l, p) && l != []
    requires p != Released && (p.OwnRequeue? || p.OwnResume? ==> p.c == except)
    ensures l[0] < |loc| && OwnLists(loc[l[0] := Released], pcs, except)
  {
    assert l[0] in l;
    hide Holds;
    forall c | 0 <= c < |pcs| && c != except
      ensures Holds(loc[l[0] := Released], RequeueOf(pcs[c]), OwnRequeue(c))
      ensures Holds(loc[l[0] := Released], ResumeOf(pcs[c]), OwnResume(c))
    {
      TakeElsewhere(loc, l, p, Released, RequeueOf(pcs[c]), OwnRequeue(c));
      TakeElsewhere(loc, l, p, Released, ResumeOf(pcs[c]), OwnResume(c));
    }
  }

  /** ListsOk, with the lists of wait operation c set apart. */
  ghost predicate ListsBut(s: State, c: int) {
    && Sized(s)
    && Holds(s.loc, s.list, Queued)
    && Holds(s.loc, PubRequeueOf(s.pub), PubRequeue)
    && Holds(s.loc, PubResumeOf(s.pub), PubResume)
    && OwnLists(s.loc, s.pcs, c)
    && (forall a :: 0 <= a < |s.loc| ==> (s.loc[a].OwnRequeue? || s.loc[a].OwnResume? ==> s.loc[a].c < |s.pcs|))
  }

  ghost predicate OwnHeld(s: State, c: int)
    requires 0 <= c < |s.pcs|
  {
    Holds(s.loc, RequeueOf(s.pcs[c]), OwnRequeue(c)) && Holds(s.loc, ResumeOf(s.pcs[c]), OwnResume(c))
  }

  lemma ListsApart(s: State, c: int)
    ensures ListsOk(s) ==> ListsBut(s, c)
    ensures ListsBut(s, -1) ==> ListsOk(s)
    ensures 0 <= c < |s.pcs| && ListsBut(s, c) && OwnHeld(s, c) ==> ListsOk(s)
  {
    hide Holds;
  }

  lemma SplitFacts(s: State, v: int)
    requires ListsOk(s)
    ensures Below(s.list, |s.targets|)
    ensures var rq, rs := Beyond(s.list, s.targets, v), Reached(s.list, s.targets, v);
      && Distinct(rq) && Distinct(rs)
      && (forall x :: x in s.list <==> x in rq || x in rs)
      && (forall x :: x in rq ==> x !in rs)
      && AllAtLeast(s.targets, rq, v + 1) && AllReached(s.targets, rs, v)
  {
    HoldsBelow(s.loc, s.list, Queued);
    SplitMembers(s.list, s.targets, v);
    SplitDistinct(s.list, s.targets, v);
  }

  /** Taking the list and splitting it, for any two new owners of the parts. */
  lemma Split(s: State, v: int, except: int, qa: Loc, qb: Loc, m: seq<Id>)
    requires ListsOk(s) && ListsBut(s, except) && Below(s.list, |s.targets|) && qa != Queued && qb != Queued && qa != qb
    requires Holds(s.loc, [], qa) && Holds(s.loc, m, qb)
    requires qa.OwnRequeue? || qa.OwnResume? ==> qa.c == except
    requires qb.OwnRequeue? || qb.OwnResume? ==> qb.c == except
    ensures var rq, rs := Beyond(s.list, s.targets, v), Reached(s.list, s.targets, v);
      var n := Moved(Moved(s.loc, rq, qa), rs, qb);
      && Holds(n, [], Queued) && Holds(n, rq, qa) && Holds(n, m + rs, qb)
      && OwnLists(n, s.pcs, except)
      && (qa != PubRequeue && qb != PubRequeue ==> Holds(n, PubRequeueOf(s.pub), PubRequeue))
      && (qa != PubResume && qb != PubResume ==> Holds(n, PubResumeOf(s.pub), PubResume))
  {
    SplitFacts(s, v);
    var rq, rs := Beyond(s.list, s.targets, v), Reached(s.list, s.targets, v);
    hide *;
    SplitBy(s, except, rq, qa, rs, qb, m);
  }

  lemma SplitBy(s: State, except: int, rq: seq<Id>, qa: Loc, rs: seq<Id>, qb: Loc, m: seq<Id>)
    requires ListsBut(s, except) && qa != Queued && qb != Queued && qa != qb
    requires Holds(s.loc, [], qa) && Holds(s.loc, m, qb)
    requires qa.OwnRequeue? || qa.OwnResume? ==> qa.c == except
    requires qb.OwnRequeue? || qb.OwnResume? ==> qb.c == except
    requires Distinct(rq) && Distinct(rs)
    requires forall x :: x in s.list <==> x in rq || x in rs
    requires forall x :: x in rq ==> x !in rs
    ensures var n := Moved(Moved(s.loc, rq, qa), rs, qb);
      && Holds(n, [], Queued) && Holds(n, rq, qa) && Holds(n, m + rs, qb)
      && OwnLists(n, s.pcs, except)
      && (qa != PubRequeue && qb != PubRequeue ==> Holds(n, PubRequeueOf(s.pub), PubRequeue))
      && (qa != PubResume && qb != PubResume ==> Holds(n, PubResumeOf(s.pub), PubResume))
  {
    hide Holds, OwnLists, Moved, Distinct;
    MoveSplit(s.loc, s.list, Queued, rq, qa, rs, qb, m);
    OwnListsSplit(s.loc, s.pcs, except, s.list, Queued, rq, qa, rs, qb);
    if qa != PubRequeue && qb != PubRequeue {
      SplitElsewhere(s.loc, s.list, Queued, rq, qa, rs, qb, PubRequeueOf(s.pub), PubRequeue);
    }
    if qa != PubResume && qb != PubResume {
      SplitElsewhere(s.loc, s.list, Queued, rq, qa, rs, qb, PubResumeOf(s.pub), PubResume);
    }
  }

  lemma ListsTake(s: State, v: int)
    requires ListsOk(s) && s.pub.Taking? && Below(s.list, |s.targets|)
    ensures ListsOk(TakeAll(s, v))
  {
    SplitFacts(s, v);
    var rq, rs := Beyond(s.list, s.targets, v), Reached(s.list, s.targets, v);
    assert TakeAll(s, v) == Taken(s, v, rq, rs);
    hide *;
    ListsTaken(s, v, rq, rs);
  }

  lemma ListsTaken(s: State, v: int, rq: seq<Id>, rs: seq<Id>)
    requires ListsOk(s) && s.pub.Taking? && Distinct(rq) && Distinct(rs)
    requires forall x :: x in s.list <==> x in rq || x in rs
    requires forall x :: x in rq ==> x !in rs
    ensures ListsOk(Taken(s, v, rq, rs))
  {
    ListsApart(s, -1);
    hide Holds, OwnLists, Moved, ListsOk;
    SplitBy(s, -1, rq, PubRequeue, rs, PubResume, []);
    var t := Taken(s, v, rq, rs);
    assert [] + rs == rs;
    assert PubRequeueOf(t.pub) == rq && PubResumeOf(t.pub) == rs;
    hide PubRequeueOf, PubResumeOf, Distinct;
    assert ListsBut(t, -1);
    ListsApart(t, -1);
  }

  lemma ListsPush(s: State)
    requires ListsOk(s) && Enabled(s, PubRequeue_)
    ensures ListsOk(Apply(s, PubRequeue_))
  {
    ListsApart(s, -1);
    hide Holds;
    var t := Apply(s, PubRequeue_);
    MoveOnto(s.loc, s.pub.requeue, PubRequeue, s.list, Queued);
    MoveElsewhere(s.loc, s.pub.requeue, PubRequeue, Queued, s.pub.resume, PubResume);
    OwnListsMoved(s.loc, s.pcs, -1, s.pub.requeue, PubRequeue, Queued);
    assert PubRequeueOf(t.pub) == [] && PubResumeOf(t.pub) == s.pub.resume;
    ListsApart(t, -1);
  }

  /** A change of threads that leaves their lists alone. */
  lemma SameOwnLists(loc: seq<Loc>, pcs: seq<Pc>, other: seq<Pc>, except: int)
    requires OwnLists(loc, pcs, except) && |other| == |pcs|
    requires forall c :: 0 <= c < |pcs| && c != except ==>
      RequeueOf(other[c]) == RequeueOf(pcs[c]) && ResumeOf(other[c]) == ResumeOf(pcs[c])
    ensures OwnLists(loc, other, except)
  {
    hide Holds;
  }

  lemma ListsPubResume(s: State)
    requires ListsOk(s) && Enabled(s, PubResume_) && FlagsOk(s)
    ensures ListsOk(Apply(s, PubResume_))
  {
    ListsApart(s, -1);
    var a, t := s.pub.resume[0], Apply(s, PubResume_);
    TakeFirst(s.loc, s.pub.resume, PubResume, Released);
    NotYetContinued(s, a);
    hide Holds, FlagsOk;
    TakeElsewhere(s.loc, s.pub.resume, PubResume, Released, s.list, Queued);
    TakeElsewhere(s.loc, s.pub.resume, PubResume, Released, [], PubRequeue);
    OwnListsReleased(s.loc, s.pcs, -1, s.pub.resume, PubResume);
    SameOwnLists(t.loc, s.pcs, t.pcs, -1);
    assert PubRequeueOf(t.pub) == [] && PubResumeOf(t.pub) == s.pub.resume[1..];
    ListsApart(t, -1);
  }

  /** An operation that sits in a list is not past its await: if its flag is up, it is suspended. */
  lemma NotYetContinued(s: State, a: Id)
    requires Sized(s) && FlagsOk(s) && a < |s.loc| && !s.loc[a].Outside? && !s.loc[a].Released?
    ensures s.ready[a] ==> s.pcs[a].Suspended?
  {
    assert FlagOk(s, a);
  }

  lemma ListsWait(s: State, target: int)
    requires ListsOk(s)
    ensures ListsOk(NewWait(s, target))
  {
    var t, c := NewWait(s, target), |s.targets|;
    forall l, p | Holds(s.loc, l, p) && p != OwnRequeue(c) && p != Outside ensures Holds(t.loc, l, p) {
      assert forall a :: 0 <= a < |s.loc| ==> t.loc[a] == s.loc[a];
    }
    forall k | 0 <= k < |t.pcs|
      ensures Holds(t.loc, RequeueOf(t.pcs[k]), OwnRequeue(k)) && Holds(t.loc, ResumeOf(t.pcs[k]), OwnResume(k))
    {
      if k == c {
        assert forall a :: 0 <= a < |s.loc| ==> t.loc[a] == s.loc[a] && s.loc[a] != OwnRequeue(c) && s.loc[a] != OwnResume(c);
        assert t.loc[c] == if s.last < target then OwnRequeue(c) else Outside;
      } else {
        assert t.pcs[k] == s.pcs[k];
      }
    }
  }

  lemma ListsOwnPush(s: State, c: Id)
    requires ListsOk(s) && Enabled(s, Step(c)) && s.pcs[c].Push?
    ensures ListsOk(WaiterStep(s, c))
  {
    ListsApart(s, c);
    var t, rq := WaiterStep(s, c), s.pcs[c].requeue;
    hide Holds;
    MoveOnto(s.loc, rq, OwnRequeue(c), s.list, Queued);
    MoveElsewhere(s.loc, rq, OwnRequeue(c), Queued, s.pcs[c].resume, OwnResume(c));
    MoveElsewhere(s.loc, rq, OwnRequeue(c), Queued, PubRequeueOf(s.pub), PubRequeue);
    MoveElsewhere(s.loc, rq, OwnRequeue(c), Queued, PubResumeOf(s.pub), PubResume);
    OwnListsMoved(s.loc, s.pcs, c, rq, OwnRequeue(c), Queued);
    SameOwnLists(t.loc, s.pcs, t.pcs, c);
    ListsApart(t, c);
  }

  lemma ListsGrab(s: State, c: Id, v: int, rs: seq<Id>)
    requires ListsOk(s) && Below(s.list, |s.targets|) && c < |s.pcs| && s.pcs[c] == Grab(v, rs)
    ensures ListsOk(GrabAll(s, c, v, rs))
  {
    ListsApart(s, c);
    assert OwnHeld(s, c);
    var t := GrabAll(s, c, v, rs);
    var rq, more := Beyond(s.list, s.targets, v), Reached(s.list, s.targets, v);
    hide Holds, Beyond, Reached, Moved, Below, ListsOk;
    Split(s, v, c, OwnRequeue(c), OwnResume(c), rs);
    SameOwnLists(t.loc, s.pcs, t.pcs, c);
    hide OwnLists;
    assert RequeueOf(t.pcs[c]) == rq && ResumeOf(t.pcs[c]) == rs + more;
    assert ListsBut(t, c) && OwnHeld(t, c);
    ListsApart(t, c);
  }

  lemma ListsOwnResume(s: State, c: Id)
    requires ListsOk(s) && Enabled(s, Step(c)) && s.pcs[c].Resuming? && FlagsOk(s)
    ensures ListsOk(WaiterStep(s, c))
  {
    ListsApart(s, c);
    var t, rs := WaiterStep(s, c), s.pcs[c].resume;
    var a := rs[0];
    TakeFirst(s.loc, rs, OwnResume(c), Released);
    NotYetContinued(s, a);
    hide Holds, FlagsOk;
    TakeElsewhere(s.loc, rs, OwnResume(c), Released, s.list, Queued);
    TakeElsewhere(s.loc, rs, OwnResume(c), Released, PubRequeueOf(s.pub), PubRequeue);
    TakeElsewhere(s.loc, rs, OwnResume(c), Released, PubResumeOf(s.pub), PubResume);
    TakeElsewhere(s.loc, rs, OwnResume(c), Released, [], OwnRequeue(c));
    OwnListsReleased(s.loc, s.pcs, c, rs, OwnResume(c));
    SameOwnLists(t.loc, s.pcs, t.pcs, c);
    assert RequeueOf(t.pcs[c]) == [] && ResumeOf(t.pcs[c]) == rs[1..];
    ListsApart(t, c);
  }

  lemma ListsQuiet(s: State, c: Id)
    requires ListsOk(s) && Enabled(s, Step(c)) && (s.pcs[c].Look? || s.pcs[c].Handshake?)
    ensures ListsOk(WaiterStep(s, c))
  {
    ListsApart(s, -1);
    var t := WaiterStep(s, c);
    hide Holds;
    SameOwnLists(t.loc, s.pcs, t.pcs, -1);
    ListsApart(t, -1);
  }

  lemma ListsStep(s: State, a: Action)
    requires ListsOk(s) && FlagsOk(s) && Enabled(s, a)
    ensures ListsOk(Apply(s, a))
  {
    hide Holds, FlagsOk, TakeAll, NewWait, GrabAll;
    match a
    case Publish(v) =>
    case PubLook =>
    case PubTake => ListsTake(s, s.pub.seqno);
    case PubRequeue_ => ListsPush(s);
    case PubResume_ => ListsPubResume(s);
    case Wait(target) => ListsWait(s, target);
    case Step(c) =>
      match s.pcs[c]
      case Push(_, _, _) => ListsOwnPush(s, c);
      case Grab(v, rs) => ListsGrab(s, c, v, rs);
      case Resuming(_, _) => ListsOwnResume(s, c);
      case _ => ListsQuiet(s, c);
  }

  // ---------------------------------------------------------------- every step keeps ValuesOk

  lemma ThreadsKept(s: State, t: State, except: int)
    requires Sized(s) && Sized(t) && ValuesOk(s) && s.targets <= t.targets && s.last <= t.last
    requires forall k :: 0 <= k < |s.pcs| && k != except ==> t.pcs[k] == s.pcs[k] || t.pcs[k].Continued?
    ensures forall k :: 0 <= k < |s.pcs| && k != except ==> ThreadOk(t.pcs[k], t.targets, t.last)
  {
    forall k | 0 <= k < |s.pcs| && k != except ensures ThreadOk(t.pcs[k], t.targets, t.last) {
      assert ThreadOk(s.pcs[k], s.targets, s.last);
    }
  }

  lemma ValuesTake(s: State, v: int)
    requires ListsOk(s) && ValuesOk(s) && s.pub == Taking(v) && Below(s.list, |s.targets|)
    ensures ValuesOk(TakeAll(s, v))
  {
    SplitFacts(s, v);
    hide ListsOk, ThreadOk, Beyond, Reached, AllReached, AllAtLeast;
  }

  lemma ValuesPub(s: State, a: Action)
    requires ListsOk(s) && ValuesOk(s) && FlagsOk(s) && Enabled(s, a)
    requires a.Publish? || a.PubLook? || a.PubRequeue_? || a.PubResume_?
    ensures ValuesOk(Apply(s, a))
  {
    if a.PubResume_? {
      assert s.pub.resume[0] in s.pub.resume;
      NotYetContinued(s, s.pub.resume[0]);
    }
    ThreadsKept(s, Apply(s, a), -1);
    hide ListsOk, ThreadOk, FlagsOk;
  }

  lemma ValuesWait(s: State, target: int)
    requires Sized(s) && ValuesOk(s)
    ensures ValuesOk(NewWait(s, target))
  {
    ThreadsKept(s, NewWait(s, target), -1);
  }

  lemma ReachedJoin(targets: seq<int>, a: seq<Id>, b: seq<Id>, v: int)
    requires AllReached(targets, a, v) && AllReached(targets, b, v)
    ensures AllReached(targets, a + b, v)
  {
  }

  lemma WeakerLists(targets: seq<int>, rq: seq<Id>, rs: seq<Id>, v: int, last: int)
    requires Below(rq, |targets|) && AllReached(targets, rs, v) && v <= last
    ensures AllReached(targets, rs, last)
    ensures rq != [] ==> AllAtLeast(targets, rq, MinTarget(rq, targets))
  {
    if rq != [] { MinTargetIsLeast(rq, targets); }
  }

  lemma ValuesGrab(s: State, c: Id, v: int, rs: seq<Id>)
    requires ListsOk(s) && ValuesOk(s) && Below(s.list, |s.targets|) && c < |s.pcs| && s.pcs[c] == Grab(v, rs)
    ensures ValuesOk(GrabAll(s, c, v, rs))
  {
    var rq, more, t := Beyond(s.list, s.targets, v), Reached(s.list, s.targets, v), GrabAll(s, c, v, rs);
    assert ThreadOk(s.pcs[c], s.targets, s.last);
    assert AllAtLeast(s.targets, rq, v + 1) && AllReached(s.targets, more, v) by { SplitFacts(s, v); }
    ReachedJoin(s.targets, rs, more, v);
    hide ListsOk, Beyond, Reached, MinTarget, PublisherOk, Moved, Below;
    assert ThreadOk(t.pcs[c], t.targets, t.last) by { hide AllReached, AllAtLeast; WeakerLists(s.targets, rq, rs + more, v, s.last); }
    hide ThreadOk;
  }

  lemma ValuesOwnResume(s: State, c: Id)
    requires Sized(s) && ValuesOk(s) && FlagsOk(s) && c < |s.pcs| && s.pcs[c].Resuming?
    requires s.pcs[c].resume != [] && s.pcs[c].resume[0] < |s.loc| && s.loc[s.pcs[c].resume[0]].OwnResume?
    ensures var v, rs := s.pcs[c].known, s.pcs[c].resume;
      ValuesOk(Resume(s.(pcs := s.pcs[c := AfterAdd(v, rs[1..])]), rs[0], v))
  {
    var v, rs := s.pcs[c].known, s.pcs[c].resume;
    var q := s.(pcs := s.pcs[c := AfterAdd(v, rs[1..])]);
    assert ThreadOk(s.pcs[c], s.targets, s.last);
    NotYetContinued(s, rs[0]);
    hide FlagsOk, PublisherOk, AllAtLeast;
    assert forall x :: x in rs[1..] ==> x in rs;
    assert ThreadOk(q.pcs[c], q.targets, q.last);
    hide ThreadOk;
    ThreadsKept(s, q, c);
    ThreadsKept(q, Resume(q, rs[0], v), -1);
  }

  lemma ValuesWaiter(s: State, c: Id)
    requires ListsOk(s) && ValuesOk(s) && Enabled(s, Step(c)) && !s.pcs[c].Grab? && !s.pcs[c].Resuming?
    ensures ValuesOk(WaiterStep(s, c))
  {
    assert ThreadOk(s.pcs[c], s.targets, s.last);
    var t := WaiterStep(s, c);
    hide ListsOk, PublisherOk;
    assert ThreadOk(t.pcs[c], t.targets, t.last);
    hide ThreadOk;
    ThreadsKept(s, t, c);
  }

  lemma ValuesStep(s: State, a: Action)
    requires ListsOk(s) && ValuesOk(s) && FlagsOk(s) && Enabled(s, a)
    ensures ValuesOk(Apply(s, a))
  {
    hide Holds, FlagsOk, ValuesOk, TakeAll, NewWait, GrabAll, Resume;
    match a
    case PubTake => assert s.pub == Taking(s.pub.seqno); ValuesTake(s, s.pub.seqno);
    case Wait(target) => ValuesWait(s, target);
    case Step(c) =>
      if s.pcs[c].Grab? { ValuesGrab(s, c, s.pcs[c].known, s.pcs[c].resume); }
      else if s.pcs[c].Resuming? {
        InPlace(s.loc, ResumeOf(s.pcs[c]), OwnResume(c));
        assert s.pcs[c].resume[0] in s.pcs[c].resume;
        ValuesOwnResume(s, c);
      } else { ValuesWaiter(s, c); }
    case Publish(_) => ValuesPub(s, a);
    case PubLook => ValuesPub(s, a);
    case PubRequeue_ => ValuesPub(s, a);
    case PubResume_ => ValuesPub(s, a);
  }

  // ---------------------------------------------------------------- every step keeps FlagsOk

  /** Being moved from list to list changes no flag. */
  lemma FlagsMoved(s: State, t: State)
    requires Sized(s) && Sized(t) && FlagsOk(s)
    requires t.last >= s.last && t.ready == s.ready && t.resumes == s.resumes && t.targets == s.targets && t.known == s.known
    requires forall a :: 0 <= a < |s.loc| ==>
      (s.loc[a].Outside? <==> t.loc[a].Outside?) && (s.loc[a].Released? <==> t.loc[a].Released?)
    requires forall c :: 0 <= c < |s.pcs| ==>
      (t.pcs[c].Suspended? <==> s.pcs[c].Suspended?) && (t.pcs[c].Continued? <==> s.pcs[c].Continued?)
    ensures FlagsOk(t)
  {
    forall a | 0 <= a < |t.pcs| ensures FlagOk(t, a) { assert FlagOk(s, a); }
  }

  lemma FlagsResume(s: State, a: Id, v: int)
    requires Sized(s) && FlagsOk(s) && a < |s.loc| && !s.loc[a].Outside? && !s.loc[a].Released?
    requires s.targets[a] <= v <= s.last
    ensures FlagsOk(Resume(s, a, v))
  {
    var t := Resume(s, a, v);
    NotYetContinued(s, a);
    forall b | 0 <= b < |t.pcs| ensures FlagOk(t, b) { assert FlagOk(s, b); }
  }

  lemma FlagsPub(s: State, a: Action)
    requires ListsOk(s) && ValuesOk(s) && FlagsOk(s) && Enabled(s, a)
    requires a.Publish? || a.PubLook? || a.PubRequeue_? || a.PubResume_?
    ensures FlagsOk(Apply(s, a))
  {
    InPlace(s.loc, PubRequeueOf(s.pub), PubRequeue);
    InPlace(s.loc, PubResumeOf(s.pub), PubResume);
    hide ListsOk, FlagsOk, FlagOk, ThreadOk;
    match a
    case PubResume_ =>
      var f := s.pub.resume[0];
      assert f in s.pub.resume;
      var r := Resume(s, f, s.pub.seqno);
      FlagsResume(s, f, s.pub.seqno);
      FlagsMoved(r, Apply(s, a));
    case Publish(_) => FlagsMoved(s, Apply(s, a));
    case PubLook => FlagsMoved(s, Apply(s, a));
    case PubRequeue_ => FlagsMoved(s, Apply(s, a));
  }

  lemma FlagsTake(s: State, v: int)
    requires ListsOk(s) && FlagsOk(s) && Below(s.list, |s.targets|)
    ensures FlagsOk(TakeAll(s, v))
  {
    InPlace(s.loc, s.list, Queued);
    SplitFacts(s, v);
    hide ListsOk, FlagsOk, FlagOk, Beyond, Reached;
    FlagsMoved(s, TakeAll(s, v));
  }

  lemma FlagsGrab(s: State, c: Id, v: int, rs: seq<Id>)
    requires ListsOk(s) && FlagsOk(s) && Below(s.list, |s.targets|) && c < |s.pcs| && s.pcs[c] == Grab(v, rs)
    ensures FlagsOk(GrabAll(s, c, v, rs))
  {
    InPlace(s.loc, s.list, Queued);
    SplitFacts(s, v);
    hide ListsOk, FlagsOk, FlagOk, Beyond, Reached, MinTarget;
    FlagsMoved(s, GrabAll(s, c, v, rs));
  }

  lemma FlagsWait(s: State, target: int)
    requires Sized(s) && FlagsOk(s)
    ensures FlagsOk(NewWait(s, target))
  {
    var t := NewWait(s, target);
    forall b | 0 <= b < |t.pcs| ensures FlagOk(t, b) {
      if b < |s.pcs| { assert FlagOk(s, b); }
    }
  }

  lemma FlagsOwnResume(s: State, c: Id)
    requires ListsOk(s) && ValuesOk(s) && FlagsOk(s) && Enabled(s, Step(c)) && s.pcs[c].Resuming?
    ensures FlagsOk(WaiterStep(s, c))
  {
    var rs, v := s.pcs[c].resume, s.pcs[c].known;
    InPlace(s.loc, ResumeOf(s.pcs[c]), OwnResume(c));
    assert ThreadOk(s.pcs[c], s.targets, s.last);
    hide ListsOk, FlagsOk, FlagOk, PublisherOk;
    assert rs[0] in rs;
    var q := s.(pcs := s.pcs[c := AfterAdd(v, rs[1..])]);
    FlagsMoved(s, q);
    FlagsResume(q, rs[0], v);
  }

  lemma FlagsOwn(s: State, c: Id)
    requires ListsOk(s) && FlagsOk(s) && Enabled(s, Step(c)) && (s.pcs[c].Push? || s.pcs[c].Look?)
    ensures FlagsOk(WaiterStep(s, c))
  {
    InPlace(s.loc, RequeueOf(s.pcs[c]), OwnRequeue(c));
    hide ListsOk, FlagsOk, FlagOk;
    FlagsMoved(s, WaiterStep(s, c));
  }

  lemma FlagsHandshake(s: State, c: Id)
    requires Enabled(s, Step(c)) && FlagsOk(s) && s.pcs[c].Handshake?
    ensures FlagsOk(WaiterStep(s, c))
  {
    var t := WaiterStep(s, c);
    forall b | 0 <= b < |t.pcs| ensures FlagOk(t, b) { assert FlagOk(s, b); }
  }

  lemma FlagsStep(s: State, a: Action)
    requires ListsOk(s) && ValuesOk(s) && FlagsOk(s) && Enabled(s, a)
    ensures FlagsOk(Apply(s, a))
  {
    hide ListsOk, FlagsOk, ValuesOk, TakeAll, NewWait, GrabAll;
    match a
    case PubTake => FlagsTake(s, s.pub.seqno);
    case Wait(target) => FlagsWait(s, target);
    case Step(c) =>
      if s.pcs[c].Grab? { FlagsGrab(s, c, s.pcs[c].known, s.pcs[c].resume); }
      else if s.pcs[c].Resuming? { FlagsOwnResume(s, c); }
      else if s.pcs[c].Handshake? { FlagsHandshake(s, c); }
      else { FlagsOwn(s, c); }
    case Publish(_) => FlagsPub(s, a);
    case PubLook => FlagsPub(s, a);
    case PubRequeue_ => FlagsPub(s, a);
    case PubResume_ => FlagsPub(s, a);
  }

  // ---------------------------------------------------------------- every step keeps Watched

  ghost predicate Watching(pc: Pc, last: int) { pc.Grab? || (pc.Look? && pc.target <= last) }

  lemma StillWatched(s: State, t: State)
    requires Sized(s) && Sized(t) && Watched(s) && s.targets <= t.targets && t.last == s.last
    requires s.pub.Stored? || s.pub.Taking? ==> t.pub == s.pub
    requires forall k :: 0 <= k < |s.pcs| && Watching(s.pcs[k], s.last) ==> Watching(t.pcs[k], t.last)
    requires forall a :: a in t.list && a !in s.list ==> a < |t.targets| && (t.targets[a] > t.last || Responsible(t))
    ensures Watched(t)
  {
    assert Responsible(s) ==> Responsible(t);
    hide Responsible;
  }

  lemma WatchedPub(s: State, a: Action)
    requires ListsOk(s) && ValuesOk(s) && FlagsOk(s) && Watched(s) && Enabled(s, a)
    requires a.Publish? || a.PubLook? || a.PubRequeue_? || a.PubResume_?
    ensures Watched(Apply(s, a))
  {
    if a.PubResume_? {
      assert s.pub.resume[0] in s.pub.resume;
      NotYetContinued(s, s.pub.resume[0]);
      StillWatched(s, Apply(s, a));
    } else if a.PubRequeue_? {
      StillWatched(s, Apply(s, a));
    } else {
      HoldsBelow(s.loc, s.list, Queued);
    }
  }

  lemma WatchedWaiter(s: State, c: Id)
    requires ListsOk(s) && ValuesOk(s) && FlagsOk(s) && Watched(s) && Enabled(s, Step(c)) && !s.pcs[c].Grab?
    ensures Watched(WaiterStep(s, c))
  {
    var t := WaiterStep(s, c);
    assert ThreadOk(s.pcs[c], s.targets, s.last);
    if s.pcs[c].Resuming? {
      assert s.pcs[c].resume[0] in s.pcs[c].resume;
      NotYetContinued(s, s.pcs[c].resume[0]);
    }
    hide ListsOk, FlagsOk, PublisherOk;
    assert Watching(t.pcs[c], t.last) ==> Responsible(t);
    StillWatched(s, t);
  }

  lemma InvStep(s: State, a: Action)
    requires Inv(s) && Enabled(s, a)
    ensures Inv(Apply(s, a))
  {
    ListsStep(s, a);
    ValuesStep(s, a);
    FlagsStep(s, a);
    hide ListsOk, FlagsOk, ValuesOk;
    match a
    case PubTake =>
    case Wait(target) => StillWatched(s, NewWait(s, target));
    case Step(c) => if !s.pcs[c].Grab? { WatchedWaiter(s, c); }
    case Publish(_) => WatchedPub(s, a);
    case PubLook => WatchedPub(s, a);
    case PubRequeue_ => WatchedPub(s, a);
    case PubResume_ => WatchedPub(s, a);
  }

  // ---------------------------------------------------------------- whole runs

  ghost predicate Run(trace: seq<State>, acts: seq<Action>) {
    && |trace| == |acts| + 1
    && Init(trace[0])
    && forall k :: 0 <= k < |acts| ==> Enabled(trace[k], acts[k]) && trace[k + 1] == Apply(trace[k], acts[k])
  }

  lemma {:induction false} RunKeepsInv(trace: seq<State>, acts: seq<Action>, k: nat)
    requires Run(trace, acts) && k <= |acts|
    ensures Inv(trace[k])
  {
    hide Inv, Enabled, Apply;
    if k > 0 {
      RunKeepsInv(trace, acts, k - 1);
      InvStep(trace[k - 1], acts[k - 1]);
    } else {
      InitInv(trace[0]);
    }
  }

  lemma InitInv(s: State)
    requires Init(s)
    ensures Inv(s)
  {
  }

  /** No thread is inside publish, add_awaiter, resume or await_suspend. */
  ghost predicate Quiescent(s: State) {
    s.pub.Idle? && forall c :: 0 <= c < |s.pcs| ==> s.pcs[c].Suspended? || s.pcs[c].Continued?
  }

  /** In every run a wait operation is continued at most once, and then with a published value that its
      target does not exceed. */
  lemma ContinuedOnceWithItsTarget(trace: seq<State>, acts: seq<Action>, k: nat, a: Id)
    requires Run(trace, acts) && k <= |acts| && a < |trace[k].targets|
    ensures Sized(trace[k])
    ensures var s := trace[k];
      && s.resumes[a] <= 1
      && (s.pcs[a].Continued? <==> s.resumes[a] == 1)
      && (s.resumes[a] == 1 ==> s.targets[a] <= s.known[a] <= s.last)
  {
    RunKeepsInv(trace, acts, k);
    assert FlagOk(trace[k], a);
  }

  /** When no thread is mid-operation, every wait operation either sits in the list with a target beyond
      what is published and its coroutine suspended, or has been continued exactly once. */
  lemma NoLostWakeUp(trace: seq<State>, acts: seq<Action>, k: nat, a: Id)
    requires Run(trace, acts) && k <= |acts| && a < |trace[k].targets| && Quiescent(trace[k])
    ensures Sized(trace[k])
    ensures var s := trace[k];
      if a in s.list then s.targets[a] > s.last && s.pcs[a].Suspended? && s.resumes[a] == 0
      else s.resumes[a] == 1 && s.targets[a] <= s.last
  {
    RunKeepsInv(trace, acts, k);
    var s := trace[k];
    assert FlagOk(s, a);
    var p := s.loc[a];
    assert a !in PubRequeueOf(s.pub) && a !in PubResumeOf(s.pub);
    assert forall c :: 0 <= c < |s.pcs| ==> RequeueOf(s.pcs[c]) == [] && ResumeOf(s.pcs[c]) == [];
    assert p == Queued || p == Outside || p == Released;
  }
}
