/** What a worker of the pool has looked at before it gives up, and whom it has woken before it goes on
    (lib/static_thread_pool.cpp:454-490, 525-648, 687-759). */
module PoolSearch {
  import opened Pool
  import opened PoolProofs
  import opened PoolConservation
  import D = Deque
  import G = GlobalQueue

  // ---------------------------------------------------------------- steps of the others

  predicate By(a: Action, w: nat) { a.ByWorker? && a.w == w }

  /** Nobody else moves worker w, or the mutex of a deque that it holds. */
  lemma OthersLeave(s: State, a: Action, w: nat, v: nat)
    requires QueuesFine(s) && Enabled(s, a) && w < |s.workers| && !By(a, w) && v < |s.deques|
    ensures |Apply(s, a).workers| == |s.workers| && Apply(s, a).workers[w] == s.workers[w]
    ensures |Apply(s, a).deques| == |s.deques|
    ensures HoldsDeque(s, v, w) ==> Apply(s, a).deques[v].holder == s.deques[v].holder
  {
    match a
    case ByWorker(u, act) =>
      hide AwakeCan, AwakeStep, GetCan, GetStep, SleepCan, SleepStep;
      var p := s.workers[u];
      if p.Getting? { OtherGet(s, u, w, v); }
      else if p.Clearing? {}
      else if GoingToSleep(p) { OtherSleep(s, u, act, w, v); }
      else { OtherAwake(s, u, act, w, v); }
    case _ =>
  }

  lemma OthersLeaveWorker(s: State, a: Action, w: nat)
    requires QueuesFine(s) && Enabled(s, a) && w < |s.workers| && !By(a, w)
    ensures w < |Apply(s, a).workers| && Apply(s, a).workers[w] == s.workers[w]
    ensures |Apply(s, a).workers| == |s.workers|
  {
    hide Enabled, Apply;
    OthersLeave(s, a, w, w);
  }

  lemma OtherGet(s: State, u: nat, w: nat, v: nat)
    requires Sized(s) && u < |s.workers| && s.workers[u].Getting? && GetCan(s, u) && w < |s.workers| && w != u
    requires v < |s.deques|
    ensures |GetStep(s, u).workers| == |s.workers| && GetStep(s, u).workers[w] == s.workers[w]
    ensures |GetStep(s, u).deques| == |s.deques|
    ensures HoldsDeque(s, v, w) ==> GetStep(s, u).deques[v].holder == s.deques[v].holder
  {
    hide D.ThiefStep, StealAct, GlobalAct, G.Apply;
  }

  lemma OtherSleep(s: State, u: nat, act: WorkerAct, w: nat, v: nat)
    requires Sized(s) && u < |s.workers| && SleepCan(s, u, act) && w < |s.workers| && w != u && v < |s.deques|
    ensures |SleepStep(s, u, act).workers| == |s.workers| && SleepStep(s, u, act).workers[w] == s.workers[w]
    ensures |SleepStep(s, u, act).deques| == |s.deques|
    ensures HoldsDeque(s, v, w) ==> SleepStep(s, u, act).deques[v].holder == s.deques[v].holder
  {
  }

  lemma OtherAwake(s: State, u: nat, act: WorkerAct, w: nat, v: nat)
    requires QueuesFine(s) && u < |s.workers| && AwakeCan(s, u, act) && w < |s.workers| && w != u && v < |s.deques|
    ensures |AwakeStep(s, u, act).workers| == |s.workers| && AwakeStep(s, u, act).workers[w] == s.workers[w]
    ensures |AwakeStep(s, u, act).deques| == |s.deques|
    ensures HoldsDeque(s, v, w) ==> AwakeStep(s, u, act).deques[v].holder == s.deques[v].holder
  {
    assert D.Inv(s.deques[u]);
    hide QueuesFine, D.Inv;
    AwakeOnOwn(s, u, act);
    hide AwakeCan, AwakeStep;
  }

  /** A worker that is awake touches no deque but its own, and no thief that holds the mutex of that. */
  lemma AwakeOnOwn(s: State, u: nat, act: WorkerAct)
    requires Sized(s) && u < |s.workers| && AwakeCan(s, u, act) && D.Inv(s.deques[u])
    ensures var t := AwakeStep(s, u, act);
      && |t.workers| == |s.workers| && t.workers == s.workers[u := t.workers[u]]
      && |t.deques| == |s.deques| && t.deques == s.deques[u := t.deques[u]]
      && (s.deques[u].holder.ByThief? ==> t.deques[u].holder == s.deques[u].holder)
  {
    var d, p := s.deques[u], s.workers[u];
    if p.Top? || p.Popping? { OwnerLeavesHeld(d, PopActOf(s, u)); }
    if p.Running? && act.Schedule? { OwnerLeavesHeld(d, D.Enqueue(act.op)); }
    if p.Enqueuing? { OwnerLeavesHeld(d, act.o); }
    hide D.Inv, D.OwnerCan, D.OwnerStep, PopAct, WakeNext, G.Apply, D.At;
  }

  lemma OwnerLeavesHeld(d: D.State, a: D.OwnerAct)
    requires D.Inv(d) && D.OwnerCan(d, a)
    ensures d.holder.ByThief? ==> D.OwnerStep(d, a).holder == d.holder
  {
  }

  // ---------------------------------------------------------------- tryGetRemote

  /** In this step worker w looks at head of deque v and there is nothing that a thief could take. */
  ghost predicate Looked(s: State, a: Action, w: nat, v: nat) {
    By(a, w) && w < |s.workers| && v < |s.deques| && D.NothingForThieves(s.deques[v])
    && (s.workers[w].Getting? || s.workers[w].Checking?)
  }

  ghost predicate LookedSince(trace: seq<State>, acts: seq<Action>, j: nat, k: nat, w: nat, v: nat)
    requires k <= |acts| <= |trace|
  {
    exists i :: j <= i < k && Looked(trace[i], acts[i], w, v)
  }

  lemma LookedKept(trace: seq<State>, acts: seq<Action>, j: nat, k: nat, w: nat, v: nat)
    requires k < |acts| <= |trace| && LookedSince(trace, acts, j, k, w, v)
    ensures LookedSince(trace, acts, j, k + 1, w, v)
  {
    var i :| j <= i < k && Looked(trace[i], acts[i], w, v);
  }

  /** All deques before i but the worker's own have been looked at. */
  ghost predicate LookedBefore(trace: seq<State>, acts: seq<Action>, j: nat, k: nat, w: nat, n: nat, i: nat)
    requires k <= |acts| <= |trace|
  {
    forall v :: 0 <= v < i && v < n && v != w ==> LookedSince(trace, acts, j, k, w, v)
  }

  /** What a search has seen by the time it is at `g`: in the first pass all deques so far, unless the mutex of one
      was taken; in the second pass all deques so far.  It moves tail back only after a look. */
  ghost predicate Progress(trace: seq<State>, acts: seq<Action>, j: nat, k: nat, w: nat, g: Get)
    requires k <= |acts| < |trace|
  {
    var s := trace[k];
    match g
    case FromGlobal => true
    case StealAt(i, busy, second) =>
      && i != w && i < |s.workers|
      && (!busy || second ==> LookedBefore(trace, acts, j, k, w, |s.workers|, i))
    case Stealing(i, busy, second) =>
      && i != w && i < |s.workers|
      && (!busy || second ==> LookedBefore(trace, acts, j, k, w, |s.workers|, i))
      && (i < |s.deques| && HoldsDeque(s, i, w) && s.deques[i].holder.thief.Lost? ==> LookedSince(trace, acts, j, k, w, i))
  }

  lemma GivesUp(d: D.State, a: D.ThiefAct)
    requires D.Inv(d) && D.ThiefCan(d, a)
    ensures a.LoadHead? && D.ThiefStep(d, a).holder.Free? ==> D.NothingForThieves(d)
    ensures a.LookHead? && D.ThiefStep(d, a).holder.ByThief? && D.ThiefStep(d, a).holder.thief.Lost? ==> D.NothingForThieves(d)
  {
    hide D.Contents, D.History;
  }

  lemma BeforeKept(trace: seq<State>, acts: seq<Action>, j: nat, k: nat, w: nat, n: nat, i: nat)
    requires k < |acts| <= |trace| && LookedBefore(trace, acts, j, k, w, n, i)
    ensures LookedBefore(trace, acts, j, k + 1, w, n, i)
  {
    var next := k + 1;
    forall v | 0 <= v < i && v < n && v != w ensures LookedSince(trace, acts, j, next, w, v) {
      LookedKept(trace, acts, j, k, w, v);
    }
  }

  /** One more deque has been looked at, in this step or before. */
  lemma OneMore(trace: seq<State>, acts: seq<Action>, j: nat, k: nat, w: nat, n: nat, i: nat)
    requires j <= k < |acts| <= |trace| && LookedBefore(trace, acts, j, k, w, n, i) && i != w
    requires Looked(trace[k], acts[k], w, i) || LookedSince(trace, acts, j, k, w, i)
    ensures LookedBefore(trace, acts, j, k + 1, w, n, Other(w, i + 1))
  {
    BeforeKept(trace, acts, j, k, w, n, i);
    if LookedSince(trace, acts, j, k, w, i) { LookedKept(trace, acts, j, k, w, i); }
    assert LookedSince(trace, acts, j, k + 1, w, i);
  }

  /** What holds after a step of the search. */
  ghost predicate SearchOk(trace: seq<State>, acts: seq<Action>, j: nat, k: nat, w: nat, mode: Mode)
    requires k <= |acts| < |trace| && w < |trace[k].workers|
  {
    var p, n := trace[k].workers[w], |trace[k].workers|;
    && (p.Getting? ==> p.mode == mode && Progress(trace, acts, j, k, w, p.get))
    && (p == AfterNone(mode) ==> LookedBefore(trace, acts, j, k, w, n, n))
  }

  /** The search goes on with the next deque, or a second time, or it is over. */
  lemma NextDeque(trace: seq<State>, acts: seq<Action>, j: nat, k: nat, w: nat, mode: Mode, i: nat, busy: bool, second: bool)
    requires k <= |acts| < |trace| && w < |trace[k].workers|
    requires trace[k].workers[w] == StealFrom(|trace[k].workers|, w, mode, i, busy, second)
    requires busy && !second ==> Other(w, 0) < |trace[k].workers|
    requires !busy || second ==> LookedBefore(trace, acts, j, k, w, |trace[k].workers|, Other(w, i))
    ensures SearchOk(trace, acts, j, k, w, mode)
  {
    hide LookedSince;
  }

  /** What a step inside a deque comes to. */
  lemma StealingStep(s: State, w: nat)
    requires QueuesFine(s) && w < |s.workers| && s.workers[w].Getting? && s.workers[w].get.Stealing? && GetCan(s, w)
    ensures var t, g, mode := GetStep(s, w), s.workers[w].get, s.workers[w].mode;
      && g.i < |s.deques| && s.deques[g.i].holder.ByThief? && |t.workers| == |s.workers| && |t.deques| == |s.deques|
      && (|| (t.workers[w] == s.workers[w]
              && (t.deques[g.i].holder.ByThief? && t.deques[g.i].holder.thief.Lost? ==> D.NothingForThieves(s.deques[g.i])))
          || (t.workers[w] == StealFrom(|s.workers|, w, mode, g.i + 1, g.busy, g.second)
              && (s.deques[g.i].holder.thief.Lost? || D.NothingForThieves(s.deques[g.i])))
          || t.workers[w].Starting? || t.workers[w].Clearing?)
  {
    var i := s.workers[w].get.i;
    assert D.Inv(s.deques[i]);
    GivesUp(s.deques[i], StealAct(s.deques[i].holder));
    hide D.Inv, D.NothingForThieves, G.Inv, StealFrom, D.At;
  }

  lemma StealingGoesOn(trace: seq<State>, acts: seq<Action>, j: nat, k: nat, w: nat)
    requires j <= k < |acts| < |trace| && QueuesFine(trace[k]) && w < |trace[k].workers| && acts[k] == ByWorker(w, Go)
    requires trace[k].workers[w].Getting? && trace[k].workers[w].get.Stealing? && GetCan(trace[k], w)
    requires trace[k + 1] == GetStep(trace[k], w) && |trace[k + 1].workers| == |trace[k].workers|
    requires Progress(trace, acts, j, k, w, trace[k].workers[w].get)
    ensures SearchOk(trace, acts, j, k + 1, w, trace[k].workers[w].mode)
  {
    var s, t := trace[k], trace[k + 1];
    var i := s.workers[w].get.i;
    assert HoldsDeque(s, i, w);
    StealingStep(s, w);
    hide QueuesFine, GetCan, GetStep, Progress, SearchOk, StealFrom, D.NothingForThieves;
    if t.workers[w] == s.workers[w] {
      StillIn(trace, acts, j, k, w);
    } else if !t.workers[w].Starting? && !t.workers[w].Clearing? {
      Leaves(trace, acts, j, k, w);
    } else {
      FoundSome(trace, acts, j, k + 1, w, s.workers[w].mode);
    }
  }

  lemma FoundSome(trace: seq<State>, acts: seq<Action>, j: nat, k: nat, w: nat, mode: Mode)
    requires k <= |acts| < |trace| && w < |trace[k].workers| && (trace[k].workers[w].Starting? || trace[k].workers[w].Clearing?)
    ensures SearchOk(trace, acts, j, k, w, mode)
  {
  }

  lemma StillIn(trace: seq<State>, acts: seq<Action>, j: nat, k: nat, w: nat)
    requires j <= k < |acts| < |trace| && w < |trace[k].workers| && |trace[k + 1].workers| == |trace[k].workers|
    requires trace[k].workers[w].Getting? && trace[k].workers[w].get.Stealing? && By(acts[k], w)
    requires Progress(trace, acts, j, k, w, trace[k].workers[w].get)
    requires trace[k + 1].workers[w] == trace[k].workers[w] && |trace[k + 1].deques| == |trace[k].deques|
    requires var i := trace[k].workers[w].get.i;
      i < |trace[k].deques| && (trace[k + 1].deques[i].holder.ByThief? && trace[k + 1].deques[i].holder.thief.Lost?
        ==> D.NothingForThieves(trace[k].deques[i]))
    ensures SearchOk(trace, acts, j, k + 1, w, trace[k].workers[w].mode)
  {
    var s, g := trace[k], trace[k].workers[w].get;
    hide LookedSince, D.NothingForThieves;
    if !g.busy || g.second { BeforeKept(trace, acts, j, k, w, |s.workers|, g.i); }
    hide LookedBefore;
    if D.NothingForThieves(s.deques[g.i]) { LookedNow(trace, acts, j, k, w, g.i); }
  }

  lemma Leaves(trace: seq<State>, acts: seq<Action>, j: nat, k: nat, w: nat)
    requires j <= k < |acts| < |trace| && w < |trace[k].workers| && |trace[k + 1].workers| == |trace[k].workers|
    requires trace[k].workers[w].Getting? && trace[k].workers[w].get.Stealing? && By(acts[k], w)
    requires Progress(trace, acts, j, k, w, trace[k].workers[w].get)
    requires var s, g := trace[k], trace[k].workers[w].get;
      && g.i < |s.deques| && HoldsDeque(s, g.i, w)
      && (s.deques[g.i].holder.thief.Lost? || D.NothingForThieves(s.deques[g.i]))
      && trace[k + 1].workers[w] == StealFrom(|s.workers|, w, s.workers[w].mode, g.i + 1, g.busy, g.second)
    ensures SearchOk(trace, acts, j, k + 1, w, trace[k].workers[w].mode)
  {
    var s, g := trace[k], trace[k].workers[w].get;
    hide LookedSince, LookedBefore, SearchOk, StealFrom, D.NothingForThieves;
    if !g.busy || g.second { OneMore(trace, acts, j, k, w, |s.workers|, g.i); }
    NextDeque(trace, acts, j, k + 1, w, s.workers[w].mode, g.i + 1, g.busy, g.second);
  }

  lemma LookedNow(trace: seq<State>, acts: seq<Action>, j: nat, k: nat, w: nat, v: nat)
    requires j <= k < |acts| <= |trace| && Looked(trace[k], acts[k], w, v)
    ensures LookedSince(trace, acts, j, k + 1, w, v)
  {
  }

  lemma AtDeque(trace: seq<State>, acts: seq<Action>, j: nat, k: nat, w: nat)
    requires j <= k < |acts| < |trace| && Sized(trace[k]) && w < |trace[k].workers| && acts[k] == ByWorker(w, Go)
    requires trace[k].workers[w].Getting? && trace[k].workers[w].get.StealAt? && GetCan(trace[k], w)
    requires trace[k + 1] == GetStep(trace[k], w) && |trace[k + 1].workers| == |trace[k].workers|
    requires Progress(trace, acts, j, k, w, trace[k].workers[w].get)
    ensures SearchOk(trace, acts, j, k + 1, w, trace[k].workers[w].mode)
  {
    var s, t, p := trace[k], trace[k + 1], trace[k].workers[w];
    hide LookedSince;
    if !p.get.busy || p.get.second { BeforeKept(trace, acts, j, k, w, |s.workers|, p.get.i); }
    if !s.deques[p.get.i].holder.Free? {
      hide LookedBefore;
      NextDeque(trace, acts, j, k + 1, w, p.mode, p.get.i + 1, true, false);
    }
  }

  lemma AtGlobal(trace: seq<State>, acts: seq<Action>, j: nat, k: nat, w: nat)
    requires j <= k < |acts| < |trace| && Sized(trace[k]) && w < |trace[k].workers| && acts[k] == ByWorker(w, Go)
    requires trace[k].workers[w].Getting? && trace[k].workers[w].get.FromGlobal? && GetCan(trace[k], w)
    requires trace[k + 1] == GetStep(trace[k], w) && |trace[k + 1].workers| == |trace[k].workers|
    ensures SearchOk(trace, acts, j, k + 1, w, trace[k].workers[w].mode)
  {
    var s, t, p := trace[k], trace[k + 1], trace[k].workers[w];
    hide LookedSince, G.Apply;
    if t.workers[w] == StealFrom(|s.workers|, w, p.mode, 0, false, false) {
      assert LookedBefore(trace, acts, j, k + 1, w, |s.workers|, Other(w, 0));
      NextDeque(trace, acts, j, k + 1, w, p.mode, 0, false, false);
    }
  }

  /** The others do not disturb a search. */
  lemma OthersStep(trace: seq<State>, acts: seq<Action>, j: nat, k: nat, w: nat)
    requires j <= k < |acts| < |trace| && QueuesFine(trace[k]) && w < |trace[k].workers| && !By(acts[k], w)
    requires Enabled(trace[k], acts[k]) && trace[k + 1] == Apply(trace[k], acts[k]) && trace[k].workers[w].Getting?
    requires HeldWhenIn(trace[k], w) && Progress(trace, acts, j, k, w, trace[k].workers[w].get)
    ensures |trace[k + 1].workers| == |trace[k].workers| && SearchOk(trace, acts, j, k + 1, w, trace[k].workers[w].mode)
  {
    var s, g := trace[k], trace[k].workers[w].get;
    OthersLeave(s, acts[k], w, w);
    if g.Stealing? { assert Inside(s.workers[w], g.i); OthersLeave(s, acts[k], w, g.i); }
    hide Enabled, Apply, LookedSince;
    if !g.FromGlobal? {
      if !g.busy || g.second { BeforeKept(trace, acts, j, k, w, |s.workers|, g.i); }
      hide LookedBefore;
      if g.Stealing? && s.deques[g.i].holder.thief.Lost? { LookedKept(trace, acts, j, k, w, g.i); }
    }
  }

  /** A worker inside a deque holds its mutex. */
  ghost predicate HeldWhenIn(s: State, w: nat)
    requires w < |s.workers|
  {
    forall v: nat :: Inside(s.workers[w], v) ==> v < |s.deques| && HoldsDeque(s, v, w)
  }

  lemma HeldStep(s: State, a: Action, w: nat)
    requires QueuesFine(s) && w < |s.workers| && HeldWhenIn(s, w) && Enabled(s, a)
    ensures w < |Apply(s, a).workers| && HeldWhenIn(Apply(s, a), w)
  {
    if By(a, w) {
      HeldByOwnStep(s, w, a.act);
    } else {
      var p := s.workers[w];
      OthersLeave(s, a, w, w);
      if p.Getting? && p.get.Stealing? { assert Inside(p, p.get.i); OthersLeave(s, a, w, p.get.i); }
      if p.Checking? && p.check.LookingIn? { assert Inside(p, p.check.i); OthersLeave(s, a, w, p.check.i); }
      hide QueuesFine, Enabled, Apply;
    }
  }

  lemma HeldByOwnStep(s: State, w: nat, act: WorkerAct)
    requires Sized(s) && w < |s.workers| && HeldWhenIn(s, w) && WorkerCan(s, w, act)
    ensures w < |WorkerStep(s, w, act).workers| && HeldWhenIn(WorkerStep(s, w, act), w)
  {
    var p := s.workers[w];
    hide AwakeCan, AwakeStep, GetCan, GetStep, SleepCan, SleepStep, HeldWhenIn;
    if p.Getting? { HeldByGet(s, w); }
    else if p.Clearing? { HeldByClear(s, w); }
    else if GoingToSleep(p) { HeldBySleep(s, w, act); }
    else { HeldByAwake(s, w, act); }
  }

  lemma HeldByClear(s: State, w: nat)
    requires Sized(s) && w < |s.workers| && s.workers[w].Clearing? && ClearCan(s, w)
    ensures w < |ClearStep(s, w).workers| && HeldWhenIn(ClearStep(s, w), w)
  {
  }

  lemma HeldBySleep(s: State, w: nat, act: WorkerAct)
    requires Sized(s) && w < |s.workers| && HeldWhenIn(s, w) && SleepCan(s, w, act)
    ensures w < |SleepStep(s, w, act).workers| && HeldWhenIn(SleepStep(s, w, act), w)
  {
    hide D.OwnerCan;
  }

  lemma HeldByAwake(s: State, w: nat, act: WorkerAct)
    requires Sized(s) && w < |s.workers| && AwakeCan(s, w, act)
    ensures w < |AwakeStep(s, w, act).workers| && HeldWhenIn(AwakeStep(s, w, act), w)
  {
    if s.workers[w].Waking? { assert |WakeShared(s, s.workers[w].wake).workers| == |s.workers|; }
    hide D.OwnerCan, D.OwnerStep, WakeShared, WakeNext;
  }

  lemma HeldByGet(s: State, w: nat)
    requires Sized(s) && w < |s.workers| && HeldWhenIn(s, w) && s.workers[w].Getting? && GetCan(s, w)
    ensures w < |GetStep(s, w).workers| && HeldWhenIn(GetStep(s, w), w)
  {
    hide GlobalAct, G.Apply, G.Enabled;
  }

  lemma {:induction false} RunKeepsHeld(trace: seq<State>, acts: seq<Action>, k: nat, w: nat)
    requires Run(trace, acts) && k <= |acts| && w < |trace[0].workers|
    ensures w < |trace[k].workers| && QueuesFine(trace[k]) && HeldWhenIn(trace[k], w)
  {
    hide Enabled, Apply, Inv, QueuesFine;
    RunKeepsInv(trace, acts, k);
    InvFine(trace[k]);
    if k > 0 {
      RunKeepsHeld(trace, acts, k - 1, w);
      hide Init, HeldWhenIn;
      HeldStep(trace[k - 1], acts[k - 1], w);
    }
  }

  /** One step of anybody during a search. */
  lemma SearchStep(trace: seq<State>, acts: seq<Action>, j: nat, k: nat, w: nat)
    requires Run(trace, acts) && j <= k < |acts| && w < |trace[0].workers|
    requires w < |trace[k].workers| && trace[k].workers[w].Getting?
    requires Progress(trace, acts, j, k, w, trace[k].workers[w].get)
    ensures w < |trace[k + 1].workers| && SearchOk(trace, acts, j, k + 1, w, trace[k].workers[w].mode)
  {
    hide QueuesFine, HeldWhenIn, Progress, SearchOk, GetCan, GetStep, Init;
    RunKeepsHeld(trace, acts, k, w);
    RunKeepsHeld(trace, acts, k + 1, w);
    assert Enabled(trace[k], acts[k]) && trace[k + 1] == Apply(trace[k], acts[k]);
    if By(acts[k], w) {
      SameWorkers(trace[k], acts[k]);
      var g := trace[k].workers[w].get;
      if g.FromGlobal? { AtGlobal(trace, acts, j, k, w); }
      else if g.StealAt? { AtDeque(trace, acts, j, k, w); }
      else { StealingGoesOn(trace, acts, j, k, w); }
    } else {
      hide Enabled, Apply;
      OthersStep(trace, acts, j, k, w);
    }
  }

  lemma SameWorkers(s: State, a: Action)
    requires Enabled(s, a)
    ensures |Apply(s, a).workers| == |s.workers|
  {
    hide D.OwnerStep, D.ThiefStep, G.Apply, WakeNext;
  }

  lemma {:induction false} SearchRun(trace: seq<State>, acts: seq<Action>, j: nat, k: nat, w: nat, mode: Mode)
    requires Run(trace, acts) && j <= k <= |acts| && w < |trace[0].workers| && w < |trace[j].workers|
    requires trace[j].workers[w] == Getting(mode, FromGlobal)
    requires forall i :: j <= i < k ==> w < |trace[i].workers| && trace[i].workers[w].Getting?
    ensures w < |trace[k].workers| && SearchOk(trace, acts, j, k, w, mode)
  {
    hide Init, Enabled, Apply;
    if k > j {
      SearchRun(trace, acts, j, k - 1, w, mode);
      hide Progress, LookedBefore;
      SearchStep(trace, acts, j, k - 1, w);
    }
  }

  predicate NothingGlobally(g: G.State) { g.tail == [] && G.Pending(g) == [] }

  predicate AskingGlobal(p: Worker) { p.Getting? && p.get.FromGlobal? }

  lemma LeavesGlobal(s: State, w: nat)
    requires QueuesFine(s) && w < |s.workers| && AskingGlobal(s.workers[w]) && GetCan(s, w)
    ensures |GetStep(s, w).workers| == |s.workers|
    ensures var p := GetStep(s, w).workers[w];
      AskingGlobal(p) || p.Starting? || p.Clearing? || NothingGlobally(s.global)
  {
    hide D.Inv;
  }

  lemma {:induction false} GlobalRun(trace: seq<State>, acts: seq<Action>, j: nat, k: nat, w: nat)
    requires Run(trace, acts) && j <= k <= |acts| && w < |trace[0].workers| && w < |trace[j].workers|
    requires AskingGlobal(trace[j].workers[w])
    requires forall i :: j <= i < k ==> w < |trace[i].workers| && trace[i].workers[w].Getting?
    ensures w < |trace[k].workers|
    ensures var p := trace[k].workers[w];
      AskingGlobal(p) || p.Starting? || p.Clearing? || exists i :: j <= i < k && NothingGlobally(trace[i].global)
  {
    hide Init, Enabled, Apply, NothingGlobally, QueuesFine, HeldWhenIn;
    if k > j {
      GlobalRun(trace, acts, j, k - 1, w);
      if i :| j <= i < k - 1 && NothingGlobally(trace[i].global) {
        SameWorkers(trace[k - 1], acts[k - 1]);
      } else {
        RunKeepsHeld(trace, acts, k - 1, w);
        GlobalStep(trace[k - 1], acts[k - 1], w);
      }
    }
  }

  lemma GlobalStep(s: State, a: Action, w: nat)
    requires QueuesFine(s) && Enabled(s, a) && w < |s.workers| && AskingGlobal(s.workers[w])
    ensures w < |Apply(s, a).workers|
    ensures var p := Apply(s, a).workers[w];
      AskingGlobal(p) || p.Starting? || p.Clearing? || NothingGlobally(s.global)
  {
    hide NothingGlobally, GetCan, GetStep, QueuesFine;
    if By(a, w) { LeavesGlobal(s, w); } else { OthersLeaveWorker(s, a, w); }
  }

  /** A search for work that starts at j and comes back with nothing at k has found the global queue empty, and has
      looked into every other deque, each at a moment when there was nothing in it that a thief could take. */
  lemma SearchIsComplete(trace: seq<State>, acts: seq<Action>, j: nat, k: nat, w: nat, mode: Mode, v: nat)
    requires Run(trace, acts) && j < k <= |acts| && w < |trace[0].workers| && w < |trace[j].workers|
    requires trace[j].workers[w] == Getting(mode, FromGlobal)
    requires forall i :: j <= i < k ==> w < |trace[i].workers| && trace[i].workers[w].Getting?
    requires w < |trace[k].workers| && trace[k].workers[w] == AfterNone(mode)
    requires v < |trace[k].workers| && v != w
    ensures exists i :: j <= i < k && NothingGlobally(trace[i].global)
    ensures exists i :: j <= i < k && v < |trace[i].deques| && D.NothingForThieves(trace[i].deques[v])
  {
    hide Init, Enabled, Apply, NothingGlobally;
    GlobalRun(trace, acts, j, k, w);
    SearchRun(trace, acts, j, k, w, mode);
    assert LookedSince(trace, acts, j, k, w, v);
  }

  // ---------------------------------------------------------------- has_any_queued_work_for

  /** What a check for work has seen by the time it is at c: the stack empty, then the list empty, then nothing in any
      deque so far. */
  ghost predicate CheckProgress(trace: seq<State>, acts: seq<Action>, j: nat, k: nat, w: nat, p: Worker)
    requires k <= |acts| < |trace|
  {
    var n := |trace[k].workers|;
    match p
    case Checking(LookTail) => true
    case Checking(LookHead) => TailEmptySince(trace, j, k)
    case Checking(LookAt(i)) =>
      TailEmptySince(trace, j, k) && HeadEmptySince(trace, j, k) && LookedBefore(trace, acts, j, k, w, n, i) && i != w
    case Checking(LookingIn(i)) =>
      TailEmptySince(trace, j, k) && HeadEmptySince(trace, j, k) && LookedBefore(trace, acts, j, k, w, n, i) && i != w
    case AtWait =>
      TailEmptySince(trace, j, k) && HeadEmptySince(trace, j, k) && LookedBefore(trace, acts, j, k, w, n, n)
    case _ => true
  }

  ghost predicate TailEmptySince(trace: seq<State>, j: nat, k: nat)
    requires k <= |trace|
  {
    exists i :: j <= i < k && trace[i].global.tail == []
  }

  ghost predicate HeadEmptySince(trace: seq<State>, j: nat, k: nat)
    requires k <= |trace|
  {
    exists i :: j <= i < k && trace[i].global.head == []
  }

  lemma PeekSees(d: D.State, w: nat)
    requires D.Inv(d) && d.holder.ByThief? && d.holder.thief.TailSeen?
    ensures d.head - d.holder.thief.tail <= 0 <==> D.NothingForThieves(d)
  {
    hide D.Contents, D.History;
  }

  /** What one step of the check, after which the worker is at p, comes to. */
  ghost predicate CheckGoesOn(s: State, w: nat, p: Worker)
    requires w < |s.workers| && s.workers[w].Checking?
  {
    match s.workers[w].check
    case LookTail => p == if s.global.tail == [] then Checking(LookHead) else Getting(Sleepy, FromGlobal)
    case LookHead => p == if s.global.head == [] then CheckFrom(|s.workers|, w, 0) else Getting(Sleepy, FromGlobal)
    case LookAt(i) => p == Checking(LookingIn(i))
    case LookingIn(i) =>
      i < |s.deques| && s.deques[i].holder.ByThief? &&
      p == if s.deques[i].holder.thief.Entered? then s.workers[w]
           else if D.NothingForThieves(s.deques[i]) then CheckFrom(|s.workers|, w, i + 1)
           else Getting(Sleepy, FromGlobal)
  }

  lemma CheckingStep(s: State, w: nat)
    requires QueuesFine(s) && w < |s.workers| && s.workers[w].Checking? && SleepCan(s, w, Go)
    ensures |SleepStep(s, w, Go).workers| == |s.workers| && CheckGoesOn(s, w, SleepStep(s, w, Go).workers[w])
  {
    var c := s.workers[w].check;
    if c.LookingIn? {
      assert D.Inv(s.deques[c.i]);
      if s.deques[c.i].holder.thief.TailSeen? { PeekSees(s.deques[c.i], w); }
    }
    hide D.Inv, D.NothingForThieves, CheckFrom;
  }

  lemma CheckNext(trace: seq<State>, acts: seq<Action>, j: nat, k: nat, w: nat, i: nat)
    requires k <= |acts| < |trace| && TailEmptySince(trace, j, k) && HeadEmptySince(trace, j, k)
    requires LookedBefore(trace, acts, j, k, w, |trace[k].workers|, Other(w, i))
    ensures CheckProgress(trace, acts, j, k, w, CheckFrom(|trace[k].workers|, w, i))
  {
    hide LookedSince, TailEmptySince, HeadEmptySince;
  }

  lemma SinceKept(trace: seq<State>, acts: seq<Action>, j: nat, k: nat, w: nat, p: Worker)
    requires k < |acts| < |trace| && |trace[k + 1].workers| == |trace[k].workers| && CheckProgress(trace, acts, j, k, w, p)
    ensures CheckProgress(trace, acts, j, k + 1, w, p)
  {
    assert TailEmptySince(trace, j, k) ==> TailEmptySince(trace, j, k + 1);
    assert HeadEmptySince(trace, j, k) ==> HeadEmptySince(trace, j, k + 1);
    hide TailEmptySince, HeadEmptySince, LookedSince;
    if p.Checking? && (p.check.LookAt? || p.check.LookingIn?) {
      BeforeKept(trace, acts, j, k, w, |trace[k].workers|, p.check.i);
    }
    if p.AtWait? { BeforeKept(trace, acts, j, k, w, |trace[k].workers|, |trace[k].workers|); }
  }

  lemma CheckStep(trace: seq<State>, acts: seq<Action>, j: nat, k: nat, w: nat)
    requires j <= k < |acts| < |trace| && QueuesFine(trace[k]) && w < |trace[k].workers| && acts[k] == ByWorker(w, Go)
    requires trace[k].workers[w].Checking? && SleepCan(trace[k], w, Go) && trace[k + 1] == SleepStep(trace[k], w, Go)
    requires CheckProgress(trace, acts, j, k, w, trace[k].workers[w])
    ensures w < |trace[k + 1].workers| && CheckProgress(trace, acts, j, k + 1, w, trace[k + 1].workers[w])
  {
    hide SleepCan, SleepStep, CheckProgress, QueuesFine, CheckGoesOn;
    CheckingStep(trace[k], w);
    CheckWent(trace, acts, j, k, w);
  }

  lemma CheckWent(trace: seq<State>, acts: seq<Action>, j: nat, k: nat, w: nat)
    requires j <= k < |acts| < |trace| && w < |trace[k].workers| && By(acts[k], w)
    requires trace[k].workers[w].Checking? && |trace[k + 1].workers| == |trace[k].workers|
    requires CheckGoesOn(trace[k], w, trace[k + 1].workers[w])
    requires CheckProgress(trace, acts, j, k, w, trace[k].workers[w])
    ensures CheckProgress(trace, acts, j, k + 1, w, trace[k + 1].workers[w])
  {
    var s, p := trace[k], trace[k + 1].workers[w];
    var c := s.workers[w].check;
    hide CheckProgress, CheckFrom, D.NothingForThieves;
    SinceKept(trace, acts, j, k, w, s.workers[w]);
    if p == Getting(Sleepy, FromGlobal) {
      NoCheck(trace, acts, j, k + 1, w);
    } else if c.LookTail? {
      TailSeen(trace, acts, j, k, w);
    } else if c.LookHead? {
      HeadSeen(trace, acts, j, k, w);
    } else if c.LookAt? {
      Entered(trace, acts, j, k + 1, w, c.i);
    } else if p != s.workers[w] {
      DequeSeen(trace, acts, j, k, w, c.i);
    }
  }

  lemma NoCheck(trace: seq<State>, acts: seq<Action>, j: nat, k: nat, w: nat)
    requires k <= |acts| < |trace|
    ensures CheckProgress(trace, acts, j, k, w, Getting(Sleepy, FromGlobal))
  {
  }

  lemma TailSeen(trace: seq<State>, acts: seq<Action>, j: nat, k: nat, w: nat)
    requires j <= k < |acts| < |trace| && trace[k].global.tail == []
    ensures CheckProgress(trace, acts, j, k + 1, w, Checking(LookHead))
  {
  }

  lemma HeadSeen(trace: seq<State>, acts: seq<Action>, j: nat, k: nat, w: nat)
    requires j <= k < |acts| < |trace| && |trace[k + 1].workers| == |trace[k].workers| && trace[k].global.head == []
    requires CheckProgress(trace, acts, j, k + 1, w, Checking(LookHead))
    ensures CheckProgress(trace, acts, j, k + 1, w, CheckFrom(|trace[k].workers|, w, 0))
  {
    assert HeadEmptySince(trace, j, k + 1);
    hide LookedSince;
    CheckNext(trace, acts, j, k + 1, w, 0);
  }

  lemma Entered(trace: seq<State>, acts: seq<Action>, j: nat, k: nat, w: nat, i: nat)
    requires k <= |acts| < |trace| && CheckProgress(trace, acts, j, k, w, Checking(LookAt(i)))
    ensures CheckProgress(trace, acts, j, k, w, Checking(LookingIn(i)))
  {
  }

  lemma DequeSeen(trace: seq<State>, acts: seq<Action>, j: nat, k: nat, w: nat, i: nat)
    requires j <= k < |acts| < |trace| && |trace[k + 1].workers| == |trace[k].workers| && By(acts[k], w)
    requires w < |trace[k].workers| && trace[k].workers[w].Checking?
    requires i < |trace[k].deques| && D.NothingForThieves(trace[k].deques[i])
    requires CheckProgress(trace, acts, j, k, w, Checking(LookingIn(i)))
    requires CheckProgress(trace, acts, j, k + 1, w, Checking(LookingIn(i)))
    ensures CheckProgress(trace, acts, j, k + 1, w, CheckFrom(|trace[k].workers|, w, i + 1))
  {
    hide LookedSince, D.NothingForThieves;
    OneMore(trace, acts, j, k, w, |trace[k].workers|, i);
    hide LookedBefore;
    CheckNext(trace, acts, j, k + 1, w, i + 1);
  }

  lemma {:induction false} CheckRun(trace: seq<State>, acts: seq<Action>, j: nat, k: nat, w: nat)
    requires Run(trace, acts) && j <= k <= |acts| && w < |trace[0].workers| && w < |trace[j].workers|
    requires trace[j].workers[w] == Checking(LookTail)
    requires forall i :: j <= i < k ==> w < |trace[i].workers| && trace[i].workers[w].Checking?
    ensures w < |trace[k].workers| && CheckProgress(trace, acts, j, k, w, trace[k].workers[w])
  {
    hide Init, Enabled, Apply, QueuesFine, HeldWhenIn;
    if k > j {
      CheckRun(trace, acts, j, k - 1, w);
      RunKeepsHeld(trace, acts, k - 1, w);
      hide CheckProgress;
      if By(acts[k - 1], w) {
        CheckGoes(trace[k - 1], acts[k - 1], w);
        CheckStep(trace, acts, j, k - 1, w);
      } else {
        OthersLeaveWorker(trace[k - 1], acts[k - 1], w);
        SinceKept(trace, acts, j, k - 1, w, trace[k - 1].workers[w]);
      }
    }
  }

  lemma CheckGoes(s: State, a: Action, w: nat)
    requires Enabled(s, a) && By(a, w) && w < |s.workers| && s.workers[w].Checking?
    ensures a == ByWorker(w, Go) && Sized(s) && SleepCan(s, w, Go) && Apply(s, a) == SleepStep(s, w, Go)
  {
  }

  /** A worker that goes from announcing its intent to sleep straight to waiting has found the stack empty, then the
      list, and has looked into every other deque at a moment when there was nothing in it that a thief could take. */
  lemma CheckIsComplete(trace: seq<State>, acts: seq<Action>, j: nat, k: nat, w: nat, v: nat)
    requires Run(trace, acts) && j < k <= |acts| && w < |trace[0].workers| && w < |trace[j].workers|
    requires trace[j].workers[w] == Checking(LookTail)
    requires forall i :: j <= i < k ==> w < |trace[i].workers| && trace[i].workers[w].Checking?
    requires w < |trace[k].workers| && trace[k].workers[w].AtWait? && v < |trace[k].workers| && v != w
    ensures TailEmptySince(trace, j, k) && HeadEmptySince(trace, j, k)
    ensures exists i :: j <= i < k && v < |trace[i].deques| && D.NothingForThieves(trace[i].deques[v])
  {
    hide Init, Enabled, Apply;
    CheckRun(trace, acts, j, k, w);
    assert LookedSince(trace, acts, j, k, w, v);
  }

  // ---------------------------------------------------------------- waking others

  /** The step ends a wake_one_thread: nobody was counted as sleeping, or the event of a worker is set. */
  ghost predicate EndsWake(s: State, t: State, k: Wake) {
    || (s.count == 0 && (k.ReadCount? || k.Claim?))
    || (k.Signal? && k.i < |t.events| && t.events[k.i])
  }

  /** Before a worker that has scheduled an operation goes on, its wake-up is done: in the step that lets it go on it
      found nobody counted as sleeping, or set somebody's event. */
  lemma ScheduleWakes(trace: seq<State>, acts: seq<Action>, j: nat, k: nat, w: nat)
    requires Run(trace, acts) && j < k < |acts| && acts[j].ByWorker? && acts[j].w == w && acts[j].act.Schedule?
    requires forall i :: j < i <= k ==> w < |trace[i].workers| && !trace[i].workers[w].Running?
    requires w < |trace[k + 1].workers| && trace[k + 1].workers[w].Running?
    ensures trace[k].workers[w].Waking? && EndsWake(trace[k], trace[k + 1], trace[k].workers[w].wake)
  {
    ScheduleBusy(trace, acts, j, k, w);
    RunKeepsHeld(trace, acts, k, w);
    hide Init, QueuesFine, HeldWhenIn;
    var s, a := trace[k], acts[k];
    assert Enabled(s, a) && trace[k + 1] == Apply(s, a);
    if By(a, w) { ToRunning(s, w, a.act); } else { OthersLeaveWorker(s, a, w); }
  }

  predicate Scheduling(p: Worker) { p.Enqueuing? || p.Refused? || p.Waking? }

  lemma {:induction false} ScheduleBusy(trace: seq<State>, acts: seq<Action>, j: nat, k: nat, w: nat)
    requires Run(trace, acts) && j < k <= |acts| && acts[j].ByWorker? && acts[j].w == w && acts[j].act.Schedule?
    requires forall i :: j < i <= k ==> w < |trace[i].workers| && !trace[i].workers[w].Running?
    ensures w < |trace[0].workers| && Scheduling(trace[k].workers[w])
  {
    hide Init, Enabled, Apply, QueuesFine, HeldWhenIn;
    SameNumber(trace, acts, k);
    var s, a := trace[k - 1], acts[k - 1];
    if k == j + 1 {
      Schedules(s, w, a.act);
    } else {
      ScheduleBusy(trace, acts, j, k - 1, w);
      RunKeepsHeld(trace, acts, k - 1, w);
      if By(a, w) { BusyStep(s, w, a.act); } else { OthersLeaveWorker(s, a, w); }
    }
  }

  lemma {:induction false} SameNumber(trace: seq<State>, acts: seq<Action>, k: nat)
    requires Run(trace, acts) && k <= |acts|
    ensures |trace[k].workers| == |trace[0].workers|
  {
    hide Init, Enabled, Apply;
    if k > 0 {
      SameNumber(trace, acts, k - 1);
      SameWorkers(trace[k - 1], acts[k - 1]);
    }
  }

  lemma Schedules(s: State, w: nat, act: WorkerAct)
    requires Enabled(s, ByWorker(w, act)) && act.Schedule?
    ensures w < |Apply(s, ByWorker(w, act)).workers| && Scheduling(Apply(s, ByWorker(w, act)).workers[w])
  {
    hide D.OwnerCan, D.OwnerStep, D.ThiefCan, D.ThiefStep, G.Apply;
  }

  lemma BusyStep(s: State, w: nat, act: WorkerAct)
    requires Enabled(s, ByWorker(w, act)) && w < |s.workers| && Scheduling(s.workers[w])
    ensures var t := Apply(s, ByWorker(w, act));
      w < |t.workers| && (Scheduling(t.workers[w]) || t.workers[w].Running?)
  {
    hide D.OwnerCan, D.OwnerStep, D.Pushes, G.Apply;
  }

  lemma ToRunning(s: State, w: nat, act: WorkerAct)
    requires Enabled(s, ByWorker(w, act)) && w < |s.workers| && Scheduling(s.workers[w])
    requires var t := Apply(s, ByWorker(w, act)); w < |t.workers| && t.workers[w].Running?
    ensures s.workers[w].Waking? && EndsWake(s, Apply(s, ByWorker(w, act)), s.workers[w].wake)
  {
    hide D.OwnerCan, D.OwnerStep, D.Pushes, G.Apply;
  }

  /** The same for a client: when it is done, its operation is in the global queue and its wake-up is done. */
  lemma ClientWakes(trace: seq<State>, acts: seq<Action>, k: nat, c: nat)
    requires Run(trace, acts) && k < |acts| && c < |trace[k].clients| && c < |trace[k + 1].clients|
    requires !trace[k].clients[c].Done?
    ensures trace[k + 1].clients[c].Done? ==>
      trace[k].clients[c].ClientWaking? && EndsWake(trace[k], trace[k + 1], trace[k].clients[c].wake)
    ensures trace[k].clients[c].Pushing? && !trace[k + 1].clients[c].Pushing? ==>
      trace[k + 1].global.tail == [trace[k].clients[c].op] + trace[k].global.tail
  {
    hide Init;
    assert Enabled(trace[k], acts[k]) && trace[k + 1] == Apply(trace[k], acts[k]);
    hide Run, D.OwnerCan, D.OwnerStep, D.ThiefCan, D.ThiefStep, AwakeCan, AwakeStep, GetCan, GetStep, SleepCan, SleepStep, ClearCan, ClearStep;
    if acts[k].ByWorker? { WorkersLeaveClients(trace[k], acts[k]); }
  }

  lemma WorkersLeaveClients(s: State, a: Action)
    requires Enabled(s, a) && a.ByWorker?
    ensures Apply(s, a).clients == s.clients
  {
    hide D.OwnerStep, D.ThiefStep, G.Apply, WakeNext;
  }

  /** A worker that has found an operation while it intended to sleep starts it only when nobody was counted as
      sleeping at its last look, or its own flag is down, or it has set an event in place of its own wake-up. */
  lemma ClearsBeforeStarting(trace: seq<State>, acts: seq<Action>, k: nat, w: nat)
    requires Run(trace, acts) && k < |acts| && w < |trace[0].workers|
    requires w < |trace[k].workers| && w < |trace[k + 1].workers|
    requires trace[k].workers[w].Clearing? && trace[k + 1].workers[w].Starting?
    ensures var s, t, c := trace[k], trace[k + 1], trace[k].workers[w].clear;
      || (s.count == 0 && (c.CountFirst? || c.ClaimSelf?))
      || (c.SignalTo? && c.i < |t.events| && t.events[c.i])
      || (w < |t.flags| && !t.flags[w])
  {
    hide Init, Enabled, Apply, Inv, QueuesFine, HeldWhenIn;
    RunKeepsInv(trace, acts, k);
    RunKeepsHeld(trace, acts, k, w);
    var s, a := trace[k], acts[k];
    if By(a, w) { ClearsStep(s, a, w); } else { OthersLeaveWorker(s, a, w); }
  }

  lemma ClearsStep(s: State, a: Action, w: nat)
    requires Inv(s) && Enabled(s, a) && By(a, w) && w < |s.workers| && s.workers[w].Clearing?
    requires w < |Apply(s, a).workers| && Apply(s, a).workers[w].Starting?
    ensures var t, c := Apply(s, a), s.workers[w].clear;
      || (s.count == 0 && (c.CountFirst? || c.ClaimSelf?))
      || (c.SignalTo? && c.i < |t.events| && t.events[c.i])
      || (w < |t.flags| && !t.flags[w])
  {
    assert WorkerOk(s, w) && Apply(s, a) == ClearStep(s, w);
    hide Inv, Enabled, Apply;
    ClearEnds(s, w);
    hide ClearStep, WorkerOk;
  }

  lemma ClearEnds(s: State, w: nat)
    requires Sized(s) && w < |s.workers| && WorkerOk(s, w) && s.workers[w].Clearing? && ClearCan(s, w)
    requires ClearStep(s, w).workers[w].Starting?
    ensures var t, c := ClearStep(s, w), s.workers[w].clear;
      || (s.count == 0 && (c.CountFirst? || c.ClaimSelf?))
      || (c.SignalTo? && c.i < |t.events| && t.events[c.i])
      || (w < |t.flags| && !t.flags[w])
  {
  }

  /** A search ends by what it has found and why it was made: on the way to sleep, with the withdrawal of the intent
      to sleep or with sleeping; otherwise, with resuming what was found or with spinning. */
  lemma SearchEndsBy(trace: seq<State>, acts: seq<Action>, k: nat, w: nat)
    requires Run(trace, acts) && k < |acts| && By(acts[k], w)
    requires w < |trace[k].workers| && trace[k].workers[w].Getting?
    requires w < |trace[k + 1].workers| && !trace[k + 1].workers[w].Getting?
    ensures var q := trace[k + 1].workers[w];
      if trace[k].workers[w].mode.Sleepy? then q.AtWait? || (q.Clearing? && q.clear.CountFirst?) else q.Spin? || q.Starting?
  {
    hide Init, D.ThiefStep, D.ThiefCan, StealAct, GlobalAct, G.Apply, G.Enabled;
    assert Enabled(trace[k], acts[k]) && trace[k + 1] == Apply(trace[k], acts[k]);
  }

  /** The last check before sleeping finds work exactly if there is some where it looks: something in the stack of
      new operations, in the list, or something that a thief could take in the deque. */
  lemma CheckExact(trace: seq<State>, acts: seq<Action>, k: nat, w: nat)
    requires Run(trace, acts) && k < |acts| && By(acts[k], w)
    requires w < |trace[k].workers| && trace[k].workers[w].Checking?
    ensures w < |trace[k + 1].workers| && CheckGoesOn(trace[k], w, trace[k + 1].workers[w])
  {
    RunKeepsInv(trace, acts, k);
    InvFine(trace[k]);
    assert Enabled(trace[k], acts[k]) && trace[k + 1] == Apply(trace[k], acts[k]);
    hide Run, Init, Inv, QueuesFine, CheckGoesOn, SleepStep;
    CheckingStep(trace[k], w);
  }

  /** A worker signals exactly those whose flags it has lowered: its step lowers the raised flag of v if and only if
      after it the worker is about to set the event of v. */
  lemma SignalsWhomItLowered(trace: seq<State>, acts: seq<Action>, k: nat, w: nat, v: nat)
    requires Run(trace, acts) && k < |acts| && By(acts[k], w)
    requires w < |trace[k].workers| && w < |trace[k + 1].workers| && v < |trace[k].flags|
    ensures v < |trace[k + 1].flags|
    ensures trace[k].flags[v] && !trace[k + 1].flags[v] <==> WorkerSignals(trace[k + 1].workers[w], v)
  {
    var s, a := trace[k], acts[k];
    assert Enabled(s, a) && trace[k + 1] == Apply(s, a);
    hide Run, AwakeCan, AwakeStep, GetCan, GetStep, SleepCan, SleepStep, ClearCan, ClearStep;
    var p := s.workers[w];
    if p.Getting? { GetSignals(s, w, v); }
    else if p.Clearing? { ClearSignals(s, w, v); }
    else if GoingToSleep(p) { SleepSignals(s, w, a.act, v); }
    else { AwakeSignals(s, w, a.act, v); }
  }

  /** In this step worker w lowers the flag of v if and only if it is about to signal v then. */
  predicate SignalsLowered(s: State, t: State, w: nat, v: nat) {
    && w < |t.workers| && v < |s.flags| == |t.flags|
    && (s.flags[v] && !t.flags[v] <==> WorkerSignals(t.workers[w], v))
  }

  lemma GetSignals(s: State, w: nat, v: nat)
    requires Sized(s) && w < |s.workers| && s.workers[w].Getting? && GetCan(s, w) && v < |s.flags|
    ensures SignalsLowered(s, GetStep(s, w), w, v)
  {
    hide D.ThiefStep, StealAct, GlobalAct, G.Apply;
  }

  lemma ClearSignals(s: State, w: nat, v: nat)
    requires Sized(s) && w < |s.workers| && s.workers[w].Clearing? && ClearCan(s, w) && v < |s.flags|
    ensures SignalsLowered(s, ClearStep(s, w), w, v)
  {
  }

  lemma SleepSignals(s: State, w: nat, act: WorkerAct, v: nat)
    requires Sized(s) && w < |s.workers| && SleepCan(s, w, act) && v < |s.flags|
    ensures SignalsLowered(s, SleepStep(s, w, act), w, v)
  {
    hide D.ThiefStep;
  }

  lemma AwakeSignals(s: State, w: nat, act: WorkerAct, v: nat)
    requires Sized(s) && w < |s.workers| && AwakeCan(s, w, act) && v < |s.flags|
    ensures SignalsLowered(s, AwakeStep(s, w, act), w, v)
  {
    hide D.OwnerStep, D.OwnerCan, PopAct, G.Apply;
  }
}
