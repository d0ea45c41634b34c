/** What the calls on an async_auto_reset_event achieve over a run (lib/async_auto_reset_event.cpp): what each
    step of set, reset and co_await does to the event depends on the event as it finds it, and every call is
    accounted for by what became of its signal. */
module AutoResetEventCalls {
  import opened Tally
  import opened Waiters
  import opened AutoResetEvent

  /** The event is set: there is a signal that no waiter is going to take. */
  predicate Signalled(word: nat) { SetCount(word) > WaiterCount(word) }

  predicate InSet(p: Pc) { p.SetLoad? || p.SetSwap? }

  predicate InReset(p: Pc) { p.ResetLoad? || p.ResetSwap? }

  predicate InAwait(p: Pc) { p.AwaitLoad? || p.AwaitSwap? || p.Pushing? }

  // ---------------------------------------------------------------- what each step does

  /** Nothing but the place of thread t changes. */
  predicate OnlyMoves(s: State, u: State, t: Id, p: Pc) {
    t < |s.pcs| && u == s.(pcs := s.pcs[t := p])
  }

  lemma SetStepExact(s: State, t: Id)
    requires CoreOk(s) && Enabled(s, Step(t)) && InSet(s.pcs[t])
    ensures var u := Apply(s, Step(t)); var w := s.word;
      if Signalled(w) then OnlyMoves(s, u, t, Returned)
      else if s.pcs[t] != SetSwap(w) then OnlyMoves(s, u, t, SetSwap(w))
      else
        && SetCount(u.word) == SetCount(w) + 1 && WaiterCount(u.word) == WaiterCount(w) && u.sets == s.sets + 1
        && u.pcs == s.pcs[t := if SetCount(w) == 0 < WaiterCount(w) then Dequeuing(1, 0, []) else Returned]
  {
    AddSetSafe(s.word);
    assert SwapOk(s.pcs[t]);
    hide Add64, SetCount, WaiterCount, LockOk;
  }

  /** set(): it returns at once exactly if it finds the event set.  Otherwise it adds one signal, unless the word
      has changed since it was loaded, in which case it tries again; and it has to resume somebody exactly if the
      signal is the only one and there is a waiter. */
  lemma SetExact(trace: seq<State>, acts: seq<Action>, k: nat, t: Id)
    requires Run(trace, acts) && k < |acts| && acts[k] == Step(t) && t < |trace[k].pcs| && InSet(trace[k].pcs[t])
    ensures var s, u := trace[k], trace[k + 1]; var w := s.word;
      if Signalled(w) then OnlyMoves(s, u, t, Returned)
      else if s.pcs[t] != SetSwap(w) then OnlyMoves(s, u, t, SetSwap(w))
      else
        && SetCount(u.word) == SetCount(w) + 1 && WaiterCount(u.word) == WaiterCount(w) && u.sets == s.sets + 1
        && u.pcs == s.pcs[t := if SetCount(w) == 0 < WaiterCount(w) then Dequeuing(1, 0, []) else Returned]
  {
    RunKeepsInv(trace, acts, k);
    SetStepExact(trace[k], t);
    hide Apply, Signalled, SetCount, WaiterCount, CoreOk, QueueOk, LocOk, RefsOk;
  }

  lemma ResetStepExact(s: State, t: Id)
    requires CoreOk(s) && Enabled(s, Step(t)) && InReset(s.pcs[t])
    ensures var u := Apply(s, Step(t)); var w := s.word;
      if s.pcs[t] == ResetSwap(w) then
        && Signalled(w) && SetCount(u.word) == SetCount(w) - 1 && WaiterCount(u.word) == WaiterCount(w)
        && u.resets == s.resets + 1 && u.pcs == s.pcs[t := Returned]
      else OnlyMoves(s, u, t, if Signalled(w) then ResetSwap(w) else Returned)
  {
    TakeSetSafe(s.word);
    assert SwapOk(s.pcs[t]);
    hide Add64, SetCount, WaiterCount, LockOk;
  }

  /** reset(): it returns without doing anything exactly if it finds the event not set.  Otherwise it takes one
      signal, unless the word has changed since it was loaded, in which case it tries again. */
  lemma ResetExact(trace: seq<State>, acts: seq<Action>, k: nat, t: Id)
    requires Run(trace, acts) && k < |acts| && acts[k] == Step(t) && t < |trace[k].pcs| && InReset(trace[k].pcs[t])
    ensures var s, u := trace[k], trace[k + 1]; var w := s.word;
      if s.pcs[t] == ResetSwap(w) then
        && Signalled(w) && SetCount(u.word) == SetCount(w) - 1 && WaiterCount(u.word) == WaiterCount(w)
        && u.resets == s.resets + 1 && u.pcs == s.pcs[t := Returned]
      else OnlyMoves(s, u, t, if Signalled(w) then ResetSwap(w) else Returned)
  {
    RunKeepsInv(trace, acts, k);
    ResetStepExact(trace[k], t);
    hide Apply, Signalled, SetCount, WaiterCount, CoreOk, QueueOk, LocOk, RefsOk;
  }

  lemma AwaitStepExact(s: State, t: Id)
    requires CoreOk(s) && Enabled(s, Step(t)) && (s.pcs[t].AwaitLoad? || s.pcs[t].AwaitSwap?)
    ensures var u := Apply(s, Step(t)); var w := s.word;
      if s.pcs[t] == AwaitSwap(w) then
        && Signalled(w) && SetCount(u.word) == SetCount(w) - 1 && WaiterCount(u.word) == WaiterCount(w)
        && u.syncs == s.syncs + 1 && u.pcs == s.pcs[t := Acquired]
      else OnlyMoves(s, u, t, if s.pcs[t].AwaitLoad? && Signalled(w) then AwaitSwap(w) else Pushing)
  {
    TakeSetSafe(s.word);
    assert SwapOk(s.pcs[t]);
    hide Add64, SetCount, WaiterCount, LockOk;
  }

  /** co_await: it goes on without waiting exactly if it finds the event set and the word does not change before
      it takes the signal. */
  lemma AwaitExact(trace: seq<State>, acts: seq<Action>, k: nat, t: Id)
    requires Run(trace, acts) && k < |acts| && acts[k] == Step(t)
    requires t < |trace[k].pcs| && (trace[k].pcs[t].AwaitLoad? || trace[k].pcs[t].AwaitSwap?)
    ensures var s, u := trace[k], trace[k + 1]; var w := s.word;
      if s.pcs[t] == AwaitSwap(w) then
        && Signalled(w) && SetCount(u.word) == SetCount(w) - 1 && WaiterCount(u.word) == WaiterCount(w)
        && u.syncs == s.syncs + 1 && u.pcs == s.pcs[t := Acquired]
      else OnlyMoves(s, u, t, if s.pcs[t].AwaitLoad? && Signalled(w) then AwaitSwap(w) else Pushing)
  {
    RunKeepsInv(trace, acts, k);
    AwaitStepExact(trace[k], t);
    hide Apply, Signalled, SetCount, WaiterCount, CoreOk, QueueOk, LocOk, RefsOk;
  }

  // ---------------------------------------------------------------- every call is accounted for

  /** How many calls of each kind were made. */
  datatype Calls = Calls(awaits: nat, sets: nat, resets: nat)

  function Called(c: Calls, a: Action): Calls {
    Calls(c.awaits + One(a.Await?), c.sets + One(a.Set?), c.resets + One(a.Reset?))
  }

  function CallsOf(acts: seq<Action>): Calls {
    if acts == [] then Calls(0, 0, 0)
    else
      Called(CallsOf(acts[..|acts| - 1]), acts[|acts| - 1])
  }

  predicate FindsSet(s: State, a: Action) { a.Step? && a.t < |s.pcs| && InSet(s.pcs[a.t]) && Signalled(s.word) }

  predicate FindsUnset(s: State, a: Action) {
    a.Step? && a.t < |s.pcs| && InReset(s.pcs[a.t]) && !Signalled(s.word) && s.pcs[a.t] != ResetSwap(s.word)
  }

  /** How many calls of set found the event set, and how many calls of reset found it not set. */
  function FoundSet(trace: seq<State>, acts: seq<Action>, k: nat): nat
    requires k <= |acts| < |trace|
  {
    if k == 0 then 0 else FoundSet(trace, acts, k - 1) + One(FindsSet(trace[k - 1], acts[k - 1]))
  }

  function FoundUnset(trace: seq<State>, acts: seq<Action>, k: nat): nat
    requires k <= |acts| < |trace|
  {
    if k == 0 then 0 else FoundUnset(trace, acts, k - 1) + One(FindsUnset(trace[k - 1], acts[k - 1]))
  }

  /** Every call so far is still at its beginning or accounted for. */
  ghost predicate Accounted(s: State, c: Calls, foundSet: nat, foundUnset: nat) {
    && c.sets == Count(InSet, s.pcs) + s.sets + foundSet
    && c.resets == Count(InReset, s.pcs) + s.resets + foundUnset
    && c.awaits == Count(InAwait, s.pcs) + |s.pushed| + s.syncs
  }

  ghost predicate CountsMoved(s: State, u: State, p: Pc, q: Pc) {
    && Count(InSet, u.pcs) + One(InSet(p)) == Count(InSet, s.pcs) + One(InSet(q))
    && Count(InReset, u.pcs) + One(InReset(p)) == Count(InReset, s.pcs) + One(InReset(q))
    && Count(InAwait, u.pcs) + One(InAwait(p)) == Count(InAwait, s.pcs) + One(InAwait(q))
  }

  lemma CountsMove(s: State, u: State, t: Id)
    requires t < |s.pcs| == |u.pcs|
    requires forall i :: 0 <= i < |s.pcs| && i != t ==> u.pcs[i] == s.pcs[i] || (Late(u.pcs[i]) && Late(s.pcs[i]))
    ensures CountsMoved(s, u, s.pcs[t], u.pcs[t])
  {
    var pcs := s.pcs[t := u.pcs[t]];
    CountUpdate(InSet, s.pcs, t, u.pcs[t]);
    CountUpdate(InReset, s.pcs, t, u.pcs[t]);
    CountUpdate(InAwait, s.pcs, t, u.pcs[t]);
    CountSame(InSet, pcs, u.pcs);
    CountSame(InReset, pcs, u.pcs);
    CountSame(InAwait, pcs, u.pcs);
  }

  /** Past the part of the call that decides what becomes of it. */
  predicate Late(p: Pc) { !InSet(p) && !InReset(p) && !InAwait(p) }

  ghost predicate LateShape(s: State, u: State, t: Id) {
    && t < |s.pcs| == |u.pcs| && Late(u.pcs[t])
    && (forall i :: 0 <= i < |s.pcs| && i != t ==> u.pcs[i] == s.pcs[i] || (Late(u.pcs[i]) && Late(s.pcs[i])))
    && u.sets == s.sets && u.resets == s.resets && u.syncs == s.syncs && u.pushed == s.pushed
  }

  lemma LateResume(s: State, t: Id)
    requires LocOk(s) && RefsOk(s) && Enabled(s, Step(t)) && s.pcs[t].Resuming?
    ensures LateShape(s, ResumeFirst(s, t), t)
  {
    WaitingToResume(s, t);
    hide LocOk, RefsOk;
  }

  lemma LateOther(s: State, t: Id)
    requires Sized(s) && t < |s.pcs| && Late(s.pcs[t])
    ensures s.pcs[t].Counting? ==> LateShape(s, CountWaiter(s, t), t)
    ensures s.pcs[t].Dropping? ==> LateShape(s, Drop(s, t), t)
    ensures s.pcs[t].Dequeuing? ==> LateShape(s, Dequeue(s, t), t) && LateShape(s, Subtract(s, t), t)
  {
    hide SetCount, WaiterCount, Add64, Resumable, Reverse;
  }

  lemma LateStep(s: State, t: Id)
    requires Inv(s) && Enabled(s, Step(t)) && Late(s.pcs[t])
    ensures LateShape(s, Apply(s, Step(t)), t)
  {
    LateOther(s, t);
    if s.pcs[t].Resuming? { LateResume(s, t); }
    hide Inv, CountWaiter, Dequeue, Subtract, ResumeFirst, Drop, WordStep, Push, LateShape;
  }

  ghost predicate EarlyShape(s: State, u: State, t: Id) {
    && t < |s.pcs| == |u.pcs| && u.pcs == s.pcs[t := u.pcs[t]]
    && var p, q := s.pcs[t], u.pcs[t];
    && u.sets == s.sets + One(InSet(p) && !Signalled(s.word) && !InSet(q))
    && (InSet(p) && Signalled(s.word) ==> !InSet(q))
    && u.resets == s.resets + One(p == ResetSwap(s.word))
    && (InReset(p) ==> (!InReset(q) <==> p == ResetSwap(s.word) || !Signalled(s.word)))
    && u.syncs + |u.pushed| == s.syncs + |s.pushed| + One(InAwait(p) && !InAwait(q))
    && (InSet(q) ==> InSet(p)) && (InReset(q) ==> InReset(p)) && (InAwait(q) ==> InAwait(p))
  }

  lemma EarlySet(s: State, t: Id)
    requires CoreOk(s) && Enabled(s, Step(t)) && InSet(s.pcs[t])
    ensures EarlyShape(s, Apply(s, Step(t)), t)
  {
    SetStepExact(s, t);
    WordStepFrame(s, t);
    hide CoreOk, SetCount, WaiterCount, Add64, Resumable, Signalled;
  }

  lemma EarlyReset(s: State, t: Id)
    requires CoreOk(s) && Enabled(s, Step(t)) && InReset(s.pcs[t])
    ensures EarlyShape(s, Apply(s, Step(t)), t)
  {
    ResetStepExact(s, t);
    WordStepFrame(s, t);
    hide CoreOk, SetCount, WaiterCount, Add64, Resumable, Signalled;
  }

  lemma EarlyAwait(s: State, t: Id)
    requires CoreOk(s) && Enabled(s, Step(t)) && InAwait(s.pcs[t])
    ensures EarlyShape(s, Apply(s, Step(t)), t)
  {
    if !s.pcs[t].Pushing? {
      AwaitStepExact(s, t);
      WordStepFrame(s, t);
    }
    hide CoreOk, SetCount, WaiterCount, Add64, Resumable, Signalled;
  }

  lemma AccountedStep(s: State, t: Id, c: Calls, foundSet: nat, foundUnset: nat)
    requires Inv(s) && Enabled(s, Step(t)) && Accounted(s, c, foundSet, foundUnset)
    ensures Accounted(Apply(s, Step(t)), c, foundSet + One(FindsSet(s, Step(t))), foundUnset + One(FindsUnset(s, Step(t))))
  {
    if Late(s.pcs[t]) { LateStep(s, t); }
    else if InSet(s.pcs[t]) { EarlySet(s, t); }
    else if InReset(s.pcs[t]) { EarlyReset(s, t); }
    else { EarlyAwait(s, t); }
    hide Inv, Apply, Count, Signalled;
    CountsMove(s, Apply(s, Step(t)), t);
  }

  lemma AccountedNew(s: State, a: Action, c: Calls, foundSet: nat, foundUnset: nat)
    requires Accounted(s, c, foundSet, foundUnset) && Enabled(s, a) && !a.Step?
    ensures Accounted(Apply(s, a), Called(c, a), foundSet, foundUnset)
  {
    var p := if a.Await? then AwaitLoad else if a.Set? then SetLoad else ResetLoad;
    CountAppend(InSet, s.pcs, p);
    CountAppend(InReset, s.pcs, p);
    CountAppend(InAwait, s.pcs, p);
    hide Count;
  }

  lemma AccountedAny(s: State, a: Action, c: Calls, foundSet: nat, foundUnset: nat)
    requires Inv(s) && Enabled(s, a) && Accounted(s, c, foundSet, foundUnset)
    ensures Accounted(Apply(s, a), Called(c, a), foundSet + One(FindsSet(s, a)), foundUnset + One(FindsUnset(s, a)))
  {
    assert a.Step? ==> Called(c, a) == c;
    assert !a.Step? ==> !FindsSet(s, a) && !FindsUnset(s, a);
    hide Inv, Enabled, Apply, Accounted, FindsSet, FindsUnset, Called;
    if a.Step? { AccountedStep(s, a.t, c, foundSet, foundUnset); } else { AccountedNew(s, a, c, foundSet, foundUnset); }
  }

  /** Calls of set have added a signal or found the event set; calls of reset have taken one or found none; calls
      of co_await have taken one or queued; the others have not come to that yet. */
  lemma {:induction false} CallsAccounted(trace: seq<State>, acts: seq<Action>, k: nat)
    requires Run(trace, acts) && k <= |acts|
    ensures Accounted(trace[k], CallsOf(acts[..k]), FoundSet(trace, acts, k), FoundUnset(trace, acts, k))
  {
    if k > 0 {
      CallsAccounted(trace, acts, k - 1);
      RunKeepsInv(trace, acts, k - 1);
      assert acts[..k][..k - 1] == acts[..k - 1];
      assert CallsOf(acts[..k]) == Called(CallsOf(acts[..k - 1]), acts[k - 1]);
      hide Inv, Accounted, FindsSet, FindsUnset, Enabled, Apply, CallsOf, Called;
      AccountedAny(trace[k - 1], acts[k - 1], CallsOf(acts[..k - 1]), FoundSet(trace, acts, k - 1), FoundUnset(trace, acts, k - 1));
    }
  }

  // ---------------------------------------------------------------- who was resumed

  /** An operation is pushed once. */
  ghost predicate PushedOk(s: State) {
    Distinct(s.pushed) && forall a: nat :: a in s.pushed <==> a < |s.loc| && !s.loc[a].Outside?
  }

  lemma PushedStep(s: State, a: Action)
    requires Inv(s) && Enabled(s, a) && PushedOk(s)
    ensures PushedOk(Apply(s, a))
  {
    var u := Apply(s, a);
    if a.Step? && s.pcs[a.t].Pushing? {
      assert RefOk(s, a.t);
      hide Inv, Enabled;
      assert a.t !in s.pushed;
    } else {
      PlacesKept(s, a);
      hide Inv, Enabled, Apply;
    }
  }

  ghost predicate SamePlaces(s: State, u: State) {
    && u.pushed == s.pushed && |u.loc| >= |s.loc|
    && (forall b :: 0 <= b < |s.loc| ==> (u.loc[b].Outside? <==> s.loc[b].Outside?))
    && (forall b :: |s.loc| <= b < |u.loc| ==> u.loc[b].Outside?)
  }

  lemma PlacesOfDequeue(s: State, t: Id)
    requires CoreOk(s) && QueueOk(s) && LocOk(s) && t < |s.pcs| && s.pcs[t].Dequeuing? && s.pcs[t].taken < s.pcs[t].count
    ensures SamePlaces(s, Dequeue(s, t))
  {
    DequeueTakesFirst(s, t);
    hide CoreOk, QueueOk, LocOk, Dequeue, Queue;
  }

  lemma PlacesOfResume(s: State, t: Id)
    requires LocOk(s) && RefsOk(s) && Enabled(s, Step(t)) && s.pcs[t].Resuming?
    ensures SamePlaces(s, ResumeFirst(s, t))
  {
    WaitingToResume(s, t);
    hide LocOk, RefsOk;
  }

  lemma PlacesOfOther(s: State, a: Action)
    requires Enabled(s, a)
    requires a.Step? ==> var p := s.pcs[a.t]; AtWord(p) || p.Counting? || p.Dropping? || (p.Dequeuing? && p.taken >= p.count)
    ensures SamePlaces(s, Apply(s, a))
  {
    if a.Step? && AtWord(s.pcs[a.t]) { WordStepFrame(s, a.t); }
    hide WordStep, SetCount, WaiterCount, Resumable, Add64;
  }

  lemma PlacesKept(s: State, a: Action)
    requires Inv(s) && Enabled(s, a) && !(a.Step? && s.pcs[a.t].Pushing?)
    ensures SamePlaces(s, Apply(s, a))
  {
    if a.Step? && s.pcs[a.t].Dequeuing? && s.pcs[a.t].taken < s.pcs[a.t].count { PlacesOfDequeue(s, a.t); }
    else if a.Step? && s.pcs[a.t].Resuming? { PlacesOfResume(s, a.t); }
    else { PlacesOfOther(s, a); }
    hide Inv, Dequeue, ResumeFirst, WordStep, SamePlaces;
  }

  lemma {:induction false} PushedOnce(trace: seq<State>, acts: seq<Action>, k: nat)
    requires Run(trace, acts) && k <= |acts|
    ensures PushedOk(trace[k])
  {
    if k > 0 {
      hide Inv, Enabled, Apply, PushedOk;
      PushedOnce(trace, acts, k - 1);
      RunKeepsInv(trace, acts, k - 1);
      PushedStep(trace[k - 1], acts[k - 1]);
    } else {
      RunKeepsInv(trace, acts, 0);
      hide WordOk, LockOk, QueueOk, SignalsOk, LocOk, RefsOk;
    }
  }

  lemma InOnePart(l: seq<Id>, m: seq<Id>, a: Id)
    requires Distinct(l + m) && a in l
    ensures a !in m
  {
    var i :| 0 <= i < |l| && l[i] == a;
    var s := l + m;
    assert s[i] == a;
    forall j | 0 <= j < |m| ensures m[j] != a { assert m[j] == s[|l| + j]; }
  }

  lemma LeftIsReleased(s: State, a: Id)
    requires Inv(s) && PushedOk(s) && Quiescent(s) && a in s.pushed
    ensures s.resumes[a] == 1 <==> a in s.left
  {
    assert forall t :: 0 <= t < |s.pcs| ==> BatchOf(s.pcs[t]) == [];
    assert RefOk(s, a);
    var q := Queue(s);
    assert a in q <==> s.loc[a] == Queued;
    hide Queue, WordOk, LockOk, SignalsOk, RefsOk, Reverse, RefOk, Count;
    assert s.loc[a] == Queued || s.loc[a] == Released;
    if a in s.left { InOnePart(s.left, q, a); }
  }

  lemma NobodyAtWork(s: State)
    requires Inv(s) && Quiescent(s)
    ensures Count(InSet, s.pcs) == Count(InReset, s.pcs) == Count(InAwait, s.pcs) == 0
    ensures WaiterCount(s.word) == |Queue(s)| && |s.left| == s.removed
  {
    CountNone(InSet, s.pcs);
    CountNone(InReset, s.pcs);
    CountNone(InAwait, s.pcs);
    CountNone(IsCounting(), s.pcs);
    assert Taken(s) == 0;
    hide Count, SetCount, WaiterCount, LocOk, RefsOk, LockOk, WordOk, Queue;
  }

  /** When no call is under way, every signal there has been is one of these: it is still there, it was taken by a
      co_await that did not queue, it was taken by a call of reset that found it, or it has resumed, exactly once,
      one of the operations that queued; the earliest pushed come first. */
  lemma SignalsOfCalls(trace: seq<State>, acts: seq<Action>, k: nat)
    requires Run(trace, acts) && k <= |acts| && Quiescent(trace[k])
    ensures var s, c := trace[k], CallsOf(acts[..k]);
      && s.initially + (c.sets - FoundSet(trace, acts, k))
         == SetCount(s.word) + (c.awaits - |s.pushed|) + (c.resets - FoundUnset(trace, acts, k)) + |s.left|
      && WaiterCount(s.word) == |s.pushed| - |s.left| && s.left <= s.pushed && Distinct(s.pushed)
      && Sized(s) && (forall a :: a in s.pushed ==> a < |s.pcs| && (s.resumes[a] == 1 <==> a in s.left))
  {
    var s := trace[k];
    CallsAccounted(trace, acts, k);
    RunKeepsInv(trace, acts, k);
    PushedOnce(trace, acts, k);
    NobodyAtWork(s);
    hide Count, SetCount, WaiterCount, CallsOf, FoundSet, FoundUnset, LocOk, RefsOk, LockOk, WordOk, Queue, Quiescent;
    forall a | a in s.pushed ensures a < |s.pcs| && (s.resumes[a] == 1 <==> a in s.left) { LeftIsReleased(s, a); }
  }

  // ---------------------------------------------------------------- set leaves the event set

  /** Since a moment with no call under way and nobody waiting: the n threads of that moment have not moved, the
      others are calls of set, and if one of them has returned, or the event was set, it is set now. */
  ghost predicate OnlySetters(s: State, n: nat, wasSet: bool) {
    && n <= |s.pcs|
    && (forall t :: 0 <= t < n ==> s.pcs[t].Suspended? || s.pcs[t].Continued? || s.pcs[t].Acquired? || s.pcs[t].Returned?)
    && (forall t :: n <= t < |s.pcs| ==> InSet(s.pcs[t]) || s.pcs[t].Returned?)
    && WaiterCount(s.word) == 0 && SetCount(s.word) <= 1
    && (wasSet || (exists t :: n <= t < |s.pcs| && s.pcs[t].Returned?) ==> SetCount(s.word) == 1)
  }

  lemma OnlySettersStep(s: State, a: Action, n: nat, wasSet: bool)
    requires CoreOk(s) && Enabled(s, a) && OnlySetters(s, n, wasSet) && (a.Set? || a.Step?)
    ensures OnlySetters(Apply(s, a), n, wasSet)
  {
    if a.Step? {
      assert a.t >= n && InSet(s.pcs[a.t]);
      SetStepExact(s, a.t);
      hide CoreOk, Enabled, Apply, SetCount, WaiterCount;
    } else {
      hide CoreOk, SetCount, WaiterCount;
    }
  }

  /** If nobody waits and no call is under way, and from then on only set is called, then once one of these calls
      has returned the event is set, with exactly one signal. */
  lemma {:induction false} SetLeavesSet(trace: seq<State>, acts: seq<Action>, j: nat, k: nat)
    requires Run(trace, acts) && j <= k <= |acts| && Quiescent(trace[j]) && WaiterCount(trace[j].word) == 0
    requires forall i :: j <= i < k ==> acts[i].Set? || acts[i].Step?
    ensures OnlySetters(trace[k], |trace[j].pcs|, Signalled(trace[j].word))
  {
    RunKeepsInv(trace, acts, j);
    if k > j {
      SetLeavesSet(trace, acts, j, k - 1);
      RunKeepsInv(trace, acts, k - 1);
      hide QueueOk, SignalsOk, LocOk, RefsOk, CoreOk, Apply, Enabled, OnlySetters, WordOk, LockOk;
      assert CoreOk(trace[k - 1]);
      OnlySettersStep(trace[k - 1], acts[k - 1], |trace[j].pcs|, Signalled(trace[j].word));
    }
  }

  // ---------------------------------------------------------------- calls that run undisturbed end

  function Less(a: nat, b: nat): nat { if b < a then a - b else 0 }

  /** How many steps thread t has yet to take, at most, if no other thread moves. */
  function StepsLeft(word: nat, p: Pc): nat {
    match p
    case AwaitLoad => 9
    case AwaitSwap(_) => 8
    case Pushing => 7
    case Counting => 6
    case Dropping => 1
    case SetLoad => 7
    case SetSwap(was) => if was == word then 6 else 7
    case ResetLoad => 2
    case ResetSwap(was) => if was == word then 1 else 2
    case Dequeuing(count, taken, batch) => 2 * Less(count, taken) + 3 * Less(Resumable(word), count) + |batch| + 3
    case Resuming(batch) => |batch| + 1
    case _ => 0
  }

  ghost predicate Shrinks(s: State, u: State, t: Id) {
    t < |s.pcs| == |u.pcs| && StepsLeft(u.word, u.pcs[t]) < StepsLeft(s.word, s.pcs[t])
  }

  lemma ShrinksAtWord(s: State, t: Id)
    requires CoreOk(s) && Enabled(s, Step(t)) && AtWord(s.pcs[t])
    ensures Shrinks(s, Apply(s, Step(t)), t)
  {
    if InSet(s.pcs[t]) { SetStepExact(s, t); } else if InReset(s.pcs[t]) { ResetStepExact(s, t); } else { AwaitStepExact(s, t); }
    hide CoreOk, Apply, SetCount, WaiterCount;
  }

  lemma ShrinksCounting(s: State, t: Id)
    requires CoreOk(s) && Enabled(s, Step(t)) && s.pcs[t].Counting?
    ensures Shrinks(s, CountWaiter(s, t), t)
  {
    AddWaiter(s.word);
    AddSetSafe(s.word);
    hide Add64, SetCount, WaiterCount, LockOk;
  }

  lemma ShrinksDequeue(s: State, t: Id)
    requires CoreOk(s) && QueueOk(s) && LocOk(s) && t < |s.pcs| && s.pcs[t].Dequeuing? && s.pcs[t].taken < s.pcs[t].count
    ensures Shrinks(s, Dequeue(s, t), t)
  {
    DequeueTakesFirst(s, t);
    hide CoreOk, QueueOk, LocOk, Dequeue, Queue, Resumable;
  }

  lemma ShrinksSubtract(s: State, t: Id)
    requires CoreOk(s) && Enabled(s, Step(t)) && s.pcs[t].Dequeuing? && s.pcs[t].taken >= s.pcs[t].count
    ensures Shrinks(s, Subtract(s, t), t)
  {
    TakenOfSubtract(s, t);
    TakeBoth(s.word, s.pcs[t].count);
    hide Add64, SetCount, WaiterCount, Both, CoreOk;
  }

  lemma ShrinksResume(s: State, t: Id)
    requires LocOk(s) && RefsOk(s) && Enabled(s, Step(t)) && s.pcs[t].Resuming?
    ensures Shrinks(s, ResumeFirst(s, t), t)
  {
    WaitingToResume(s, t);
    hide LocOk, RefsOk;
  }

  lemma Advances(s: State, t: Id)
    requires Inv(s) && Enabled(s, Step(t))
    ensures Shrinks(s, Apply(s, Step(t)), t)
  {
    var p := s.pcs[t];
    if AtWord(p) { ShrinksAtWord(s, t); }
    else if p.Counting? { ShrinksCounting(s, t); }
    else if p.Dequeuing? && p.taken < p.count { ShrinksDequeue(s, t); }
    else if p.Dequeuing? { ShrinksSubtract(s, t); }
    else if p.Resuming? { ShrinksResume(s, t); }
    hide Inv, WordStep, CountWaiter, Dequeue, Subtract, ResumeFirst;
  }

  /** set, reset and co_await, left alone, return or are suspended: the dequeue loop goes around only as long as
      there are signals and waiters to match. */
  lemma {:induction false} CallEnds(trace: seq<State>, acts: seq<Action>, j: nat, k: nat, t: Id)
    requires Run(trace, acts) && j <= k <= |acts| && t < |trace[j].pcs| && forall i :: j <= i < k ==> acts[i] == Step(t)
    ensures t < |trace[k].pcs|
    ensures k - j + StepsLeft(trace[k].word, trace[k].pcs[t]) <= StepsLeft(trace[j].word, trace[j].pcs[t])
  {
    hide Inv, Enabled, Apply, StepsLeft;
    if j < k {
      CallEnds(trace, acts, j, k - 1, t);
      RunKeepsInv(trace, acts, k - 1);
      Advances(trace[k - 1], t);
    }
  }

  /** No call is ever stuck: only suspended coroutines stay where they are. */
  lemma NeverStuck(trace: seq<State>, acts: seq<Action>, k: nat, t: Id)
    requires Run(trace, acts) && k <= |acts| && t < |trace[k].pcs|
    requires var p := trace[k].pcs[t]; !p.Suspended? && !p.Continued? && !p.Acquired? && !p.Returned?
    requires trace[k].pcs[t].Counting? ==> WaiterCount(trace[k].word) + 1 < FIELD - 1
    ensures Enabled(trace[k], Step(t))
  {
    RunKeepsInv(trace, acts, k);
    var s := trace[k];
    if s.pcs[t].Resuming? {
      assert s.pcs[t].batch[0] in BatchOf(s.pcs[t]) && Holds(s.loc, BatchOf(s.pcs[t]), Batched(t));
    }
    hide WordOk, LockOk, QueueOk, SignalsOk, RefsOk, SetCount, WaiterCount;
  }
}
