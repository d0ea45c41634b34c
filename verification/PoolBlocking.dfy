/** Where the threads of the pool can be blocked (lib/static_thread_pool.cpp:374-497, 521-760): a worker waits only
    for a mutex whose holder can go on, or for its event; so the pool never deadlocks. */
module PoolBlocking {
  import opened Pool
  import opened PoolProofs
  import opened PoolConservation
  import PoolSearch
  import D = Deque
  import G = GlobalQueue
  import Words

  // ---------------------------------------------------------------- what a worker's place says about its deque

  predicate PopsNow(o: D.Owner) { o.PopAim? || o.PopStored? || o.PopRaced? || o.PopLocked? || o.PopLost? || o.PopWon? }

  predicate EnqueuesNow(o: D.Owner) { o.EnqRoom? || o.EnqStored? || o.EnqFull? || o.EnqGrow? || o.EnqCopied? }

  /** The owner of a deque is inside a call exactly while its worker is. */
  predicate OwnerFits(p: Worker, o: D.Owner) {
    match p
    case Popping => PopsNow(o)
    case Enqueuing => EnqueuesNow(o)
    case _ => o.Idle?
  }

  /** A worker only goes to deques that there are, and inside one it is where its code is. */
  predicate InsideFits(s: State, w: nat)
    requires w < |s.workers|
  {
    match s.workers[w]
    case Getting(_, StealAt(i, _, _)) => i < |s.deques|
    case Getting(_, Stealing(i, _, _)) => i < |s.deques| && HoldsDeque(s, i, w)
    case Checking(LookAt(i)) => i < |s.deques|
    case Checking(LookingIn(i)) =>
      i < |s.deques| && HoldsDeque(s, i, w) && (s.deques[i].holder.thief.Entered? || s.deques[i].holder.thief.TailSeen?)
    case _ => true
  }

  predicate Fits(s: State, w: nat) {
    w < |s.workers| == |s.deques| && OwnerFits(s.workers[w], s.deques[w].owner) && InsideFits(s, w)
  }

  lemma WakeLeavesDeques(s: State, k: Wake)
    requires WakeOk(s, k)
    ensures WakeShared(s, k).deques == s.deques && WakeShared(s, k).workers == s.workers
  {
  }

  lemma AwakeFits(s: State, w: nat, act: WorkerAct)
    requires Sized(s) && Fits(s, w) && AwakeCan(s, w, act)
    ensures Fits(AwakeStep(s, w, act), w)
  {
    if s.workers[w].Waking? { WakeLeavesDeques(s, s.workers[w].wake); }
    hide WakeShared, WakeNext, G.Apply, D.IsGrown;
  }

  lemma GetFits(s: State, w: nat)
    requires Sized(s) && Fits(s, w) && s.workers[w].Getting? && GetCan(s, w)
    ensures Fits(GetStep(s, w), w)
  {
    hide GlobalAct, G.Apply, G.Enabled;
  }

  lemma SleepFits(s: State, w: nat, act: WorkerAct)
    requires Sized(s) && Fits(s, w) && SleepCan(s, w, act)
    ensures Fits(SleepStep(s, w, act), w)
  {
  }

  lemma ClearFits(s: State, w: nat)
    requires Sized(s) && Fits(s, w) && s.workers[w].Clearing? && ClearCan(s, w)
    ensures Fits(ClearStep(s, w), w)
  {
  }

  lemma OwnFits(s: State, w: nat, act: WorkerAct)
    requires Fits(s, w) && Enabled(s, ByWorker(w, act))
    ensures Fits(Apply(s, ByWorker(w, act)), w)
  {
    hide Fits, AwakeCan, AwakeStep, GetCan, GetStep, SleepCan, SleepStep, ClearCan, ClearStep;
    var p := s.workers[w];
    if p.Getting? { GetFits(s, w); }
    else if p.Clearing? { ClearFits(s, w); }
    else if GoingToSleep(p) { SleepFits(s, w, act); }
    else { AwakeFits(s, w, act); }
  }

  /** The steps of other threads do not move the owner of deque w. */
  lemma OthersLeaveOwner(s: State, a: Action, w: nat)
    requires Enabled(s, a) && w < |s.deques| && !(a.ByWorker? && a.w == w)
    ensures |Apply(s, a).deques| == |s.deques| && Apply(s, a).deques[w].owner == s.deques[w].owner
  {
    match a
    case ByWorker(u, act) =>
      var p := s.workers[u];
      hide AwakeCan, AwakeStep, GetCan, GetStep, SleepCan, SleepStep;
      if p.Getting? { GetLeavesOwners(s, u, w); }
      else if p.Clearing? {}
      else if GoingToSleep(p) { SleepLeavesOwners(s, u, act, w); }
      else { AwakeLeavesOwners(s, u, act, w); }
    case _ =>
  }

  lemma GetLeavesOwners(s: State, u: nat, w: nat)
    requires Sized(s) && u < |s.workers| && s.workers[u].Getting? && GetCan(s, u) && w < |s.deques|
    ensures |GetStep(s, u).deques| == |s.deques| && GetStep(s, u).deques[w].owner == s.deques[w].owner
  {
    hide GlobalAct, G.Apply, StealAct;
  }

  lemma SleepLeavesOwners(s: State, u: nat, act: WorkerAct, w: nat)
    requires Sized(s) && u < |s.workers| && SleepCan(s, u, act) && w < |s.deques|
    ensures |SleepStep(s, u, act).deques| == |s.deques| && SleepStep(s, u, act).deques[w].owner == s.deques[w].owner
  {
  }

  lemma AwakeLeavesOwners(s: State, u: nat, act: WorkerAct, w: nat)
    requires Sized(s) && u < |s.workers| && AwakeCan(s, u, act) && w < |s.deques| && w != u
    ensures |AwakeStep(s, u, act).deques| == |s.deques| && AwakeStep(s, u, act).deques[w].owner == s.deques[w].owner
  {
    if s.workers[u].Waking? { WakeLeavesDeques(s, s.workers[u].wake); }
    hide D.OwnerStep, D.OwnerCan, PopAct, WakeShared, WakeNext, G.Apply;
  }

  lemma OthersFit(s: State, a: Action, w: nat)
    requires QueuesFine(s) && Fits(s, w) && Enabled(s, a) && !(a.ByWorker? && a.w == w)
    ensures Fits(Apply(s, a), w)
  {
    var p := s.workers[w];
    OthersLeaveOwner(s, a, w);
    PoolSearch.OthersLeave(s, a, w, w);
    if p.Getting? && p.get.Stealing? { PoolSearch.OthersLeave(s, a, w, p.get.i); }
    if p.Checking? && p.check.LookingIn? { PoolSearch.OthersLeave(s, a, w, p.check.i); }
    hide QueuesFine, Enabled, Apply;
  }

  /** In every run: every worker's deque is where its worker is, and the other way around. */
  lemma {:induction false} RunKeepsFits(trace: seq<State>, acts: seq<Action>, k: nat, w: nat)
    requires Run(trace, acts) && k <= |acts| && w < |trace[0].workers|
    ensures Fits(trace[k], w) && QueuesFine(trace[k])
  {
    hide Enabled, Apply, Inv, QueuesFine;
    RunKeepsInv(trace, acts, k);
    InvFine(trace[k]);
    if k > 0 {
      RunKeepsFits(trace, acts, k - 1, w);
      hide Init, Fits;
      var s, a := trace[k - 1], acts[k - 1];
      if a.ByWorker? && a.w == w { OwnFits(s, w, a.act); } else { OthersFit(s, a, w); }
    }
  }

  // ---------------------------------------------------------------- blocked workers

  /** The worker's next step is to take the mutex of deque j. */
  predicate AtMutexOf(s: State, w: nat, j: nat)
    requires w < |s.workers| && j < |s.deques|
  {
    match s.workers[w]
    case Popping => j == w && s.deques[w].owner.PopRaced?
    case Getting(_, StealAt(i, _, second)) => j == i && second
    case Checking(LookAt(i)) => j == i
    case _ => false
  }

  /** The worker's next step is to take the mutex of the global queue. */
  predicate AtGlobalMutex(s: State, w: nat)
    requires w < |s.workers|
  {
    s.workers[w].Getting? && s.workers[w].get.FromGlobal? && !HoldsGlobal(s, w)
  }

  ghost predicate CanMove(s: State, w: nat) { exists act :: WorkerCan(s, w, act) }

  /** A buffer of twice the size with the items in place. */
  function Doubled(buf: seq<D.Op>, tail: int): seq<D.Op>
    requires |buf| > 0
  {
    seq<D.Op>(2 * |buf|, j requires 0 <= j < 2 * |buf| => D.At(buf, tail + (j - tail) % (2 * |buf|)))
  }

  lemma DoubledIsGrown(buf: seq<D.Op>, tail: int, head: int)
    requires |buf| > 0 && head - tail <= 2 * |buf|
    ensures D.IsGrown(buf, tail, head, Doubled(buf, tail))
  {
    var n := 2 * |buf|;
    forall i | tail <= i < head ensures D.At(Doubled(buf, tail), i) == D.At(buf, i) {
      SameResidue(i, tail, n);
    }
  }

  lemma SameResidue(i: int, tail: int, n: nat)
    requires n > 0 && tail <= i < tail + n
    ensures 0 <= i % n < n && tail + (i % n - tail) % n == i
  {
    var q, r := i / n, i % n;
    assert i == n * q + r;
    Negated(n, q);
    Words.ModUnique(r - tail, n, -q, i - tail);
  }

  lemma Negated(n: int, q: int)
    ensures n * (-q) == -(n * q)
  {
  }

  /** The next step of try_local_enqueue. */
  lemma EnqueueCanMove(s: State, w: nat)
    requires Sized(s) && Fits(s, w) && s.workers[w].Enqueuing? && D.Inv(s.deques[w])
    ensures CanMove(s, w)
  {
    var d := s.deques[w];
    var o: D.OwnerAct;
    match d.owner {
      case EnqRoom(_, _) => o := D.StoreSlot;
      case EnqStored(_) => o := D.Publish;
      case EnqFull(_) => o := D.Refuse;
      case EnqGrow(_) =>
        LockedHasRoom(d);
        DoubledIsGrown(d.buf, d.tail, d.head);
        o := D.CopyOver(Doubled(d.buf, d.tail));
      case EnqCopied(_, _) => o := D.Install;
      case _ =>
    }
    assert WorkerCan(s, w, Own(o));
  }

  lemma LockedHasRoom(d: D.State)
    requires D.Inv(d) && d.owner.EnqGrow?
    ensures |d.buf| > 0 && d.head - d.tail <= 2 * |d.buf|
  {
  }

  lemma PopCanMove(s: State, w: nat)
    requires Sized(s) && Fits(s, w) && s.workers[w].Popping? && |s.deques[w].buf| >= 2
    requires s.deques[w].owner.PopRaced? ==> s.deques[w].holder.Free?
    ensures AwakeCan(s, w, Go)
  {
  }

  lemma PlainCanMove(s: State, w: nat)
    requires Sized(s) && Fits(s, w) && |s.deques[w].buf| >= 2 && WorkerOk(s, w)
    requires var p := s.workers[w]; p.Top? || p.Starting? || p.Running? || p.Refused? || p.Waking?
    ensures AwakeCan(s, w, if s.workers[w].Running? then Finish else Go)
  {
  }

  lemma AwakeCanMove(s: State, w: nat)
    requires Inv(s) && Fits(s, w) && !GoingToSleep(s.workers[w]) && !s.workers[w].Getting? && !s.workers[w].Clearing?
    requires s.workers[w].Popping? && s.deques[w].owner.PopRaced? ==> s.deques[w].holder.Free?
    ensures CanMove(s, w)
  {
    assert D.Inv(s.deques[w]) && WorkerOk(s, w);
    BuffersThere(s);
    hide Inv, D.Inv, Fits, AwakeCan, WorkerOk;
    if s.workers[w].Enqueuing? {
      EnqueueCanMove(s, w);
    } else {
      if s.workers[w].Popping? { PopCanMove(s, w); } else { PlainCanMove(s, w); }
      assert WorkerCan(s, w, if s.workers[w].Running? then Finish else Go);
    }
  }

  /** The worker is not at a mutex that somebody holds, nor at its event while that is not set. */
  ghost predicate Unblocked(s: State, w: nat)
    requires w < |s.workers| == |s.events|
  {
    && (forall j :: 0 <= j < |s.deques| && AtMutexOf(s, w, j) ==> s.deques[j].holder.Free?)
    && (AtGlobalMutex(s, w) ==> s.global.mutex.Unlocked?)
    && (s.workers[w].AtWait? ==> s.events[w])
  }

  lemma BuffersThere(s: State)
    requires Inv(s)
    ensures forall j :: 0 <= j < |s.deques| ==> |s.deques[j].buf| >= 2
  {
    forall j | 0 <= j < |s.deques| ensures |s.deques[j].buf| >= 2 { assert D.Inv(s.deques[j]); }
  }

  lemma GetCanMove(s: State, w: nat)
    requires Sized(s) && G.Inv(s.global) && Fits(s, w) && s.workers[w].Getting? && Unblocked(s, w)
    requires forall j :: 0 <= j < |s.deques| ==> |s.deques[j].buf| >= 2
    ensures GetCan(s, w)
  {
    if s.workers[w].get.StealAt? && s.workers[w].get.second { assert AtMutexOf(s, w, s.workers[w].get.i); }
  }

  lemma SleepCanMove(s: State, w: nat)
    requires Sized(s) && Fits(s, w) && GoingToSleep(s.workers[w]) && Unblocked(s, w)
    requires forall j :: 0 <= j < |s.deques| ==> |s.deques[j].buf| >= 2
    ensures SleepCan(s, w, Go)
  {
    if s.workers[w].Checking? && s.workers[w].check.LookAt? { assert AtMutexOf(s, w, s.workers[w].check.i); }
  }

  lemma SearchCanMove(s: State, w: nat)
    requires Inv(s) && Fits(s, w) && (GoingToSleep(s.workers[w]) || s.workers[w].Getting? || s.workers[w].Clearing?)
    requires Unblocked(s, w)
    ensures CanMove(s, w)
  {
    assert WorkerOk(s, w) && G.Inv(s.global);
    BuffersThere(s);
    hide Inv, Fits, Unblocked, GetCan, SleepCan, G.Inv;
    if s.workers[w].Getting? { GetCanMove(s, w); } else if GoingToSleep(s.workers[w]) { SleepCanMove(s, w); }
    assert WorkerCan(s, w, Go);
  }

  /** A worker that cannot move is at the mutex of a deque, at that of the global queue, or at its event, and then
      the mutex is held, or the event not set. */
  lemma BlockedExact(trace: seq<State>, acts: seq<Action>, k: nat, w: nat)
    requires Run(trace, acts) && k <= |acts| && w < |trace[0].workers|
    ensures Sized(trace[k]) && w < |trace[k].workers|
    ensures var s := trace[k];
      !CanMove(s, w) <==>
        || (exists j :: 0 <= j < |s.deques| && AtMutexOf(s, w, j) && !s.deques[j].holder.Free?)
        || (AtGlobalMutex(s, w) && !s.global.mutex.Unlocked?)
        || (s.workers[w].AtWait? && !s.events[w])
  {
    RunKeepsInv(trace, acts, k);
    RunKeepsFits(trace, acts, k, w);
    var s := trace[k];
    if GoingToSleep(s.workers[w]) || s.workers[w].Getting? || s.workers[w].Clearing? {
      if Unblocked(s, w) { SearchCanMove(s, w); }
    } else if s.workers[w].Popping? && s.deques[w].owner.PopRaced? {
      assert AtMutexOf(s, w, w);
      if s.deques[w].holder.Free? { AwakeCanMove(s, w); }
    } else {
      AwakeCanMove(s, w);
    }
    hide Inv, Init;
    BlockedCannot(s, w);
  }

  lemma BlockedCannot(s: State, w: nat)
    requires Sized(s) && w < |s.workers|
    ensures (exists j :: 0 <= j < |s.deques| && AtMutexOf(s, w, j) && !s.deques[j].holder.Free?) ==> !CanMove(s, w)
    ensures AtGlobalMutex(s, w) && !s.global.mutex.Unlocked? ==> !CanMove(s, w)
    ensures s.workers[w].AtWait? && !s.events[w] ==> !CanMove(s, w)
  {
  }

  /** Whoever holds the mutex of a deque can move. */
  lemma HolderCanMove(s: State, j: nat)
    requires Inv(s) && HoldersOk(s) && j < |s.deques| && !s.deques[j].holder.Free? && forall w :: 0 <= w < |s.workers| ==> Fits(s, w)
    ensures exists v :: 0 <= v < |s.workers| && CanMove(s, v)
  {
    var h := s.deques[j].holder;
    if h.ByThief? {
      var v := h.id;
      assert Inside(s.workers[v], j) && Fits(s, v);
      assert forall i :: 0 <= i < |s.deques| ==> !AtMutexOf(s, v, i);
      SearchCanMove(s, v);
    } else {
      assert D.Inv(s.deques[j]) && Fits(s, j);
      assert s.deques[j].owner.EnqGrow? || s.deques[j].owner.EnqCopied? || s.deques[j].owner.PopLocked? || s.deques[j].owner.PopLost?;
      AwakeCanMove(s, j);
    }
  }

  lemma GlobalHolderCanMove(s: State)
    requires Inv(s) && s.global.mutex.HeldBy? && forall w :: 0 <= w < |s.workers| ==> Fits(s, w)
    ensures exists v :: 0 <= v < |s.workers| && CanMove(s, v)
  {
    var v := s.global.mutex.id;
    assert s.workers[v].Getting? && s.workers[v].get.FromGlobal? && Fits(s, v);
    hide Fits;
    SearchCanMove(s, v);
  }

  lemma SomeoneCanMove(trace: seq<State>, acts: seq<Action>, k: nat, w: nat)
    requires Run(trace, acts) && k <= |acts| && w < |trace[0].workers|
    ensures Sized(trace[k]) && w < |trace[k].workers|
    ensures (trace[k].workers[w].AtWait? && !trace[k].events[w]) || exists v :: 0 <= v < |trace[k].workers| && CanMove(trace[k], v)
  {
    hide Init, Inv, HoldersOk, Fits, CanMove, AtMutexOf;
    var s := trace[k];
    BlockedExact(trace, acts, k, w);
    RunKeepsInv(trace, acts, k);
    RunKeepsHolders(trace, acts, k);
    PoolSearch.SameNumber(trace, acts, k);
    forall v | 0 <= v < |s.workers| ensures Fits(s, v) { RunKeepsFits(trace, acts, k, v); }
    if j :| 0 <= j < |s.deques| && AtMutexOf(s, w, j) && !s.deques[j].holder.Free? {
      HolderCanMove(s, j);
    } else if AtGlobalMutex(s, w) && s.global.mutex.HeldBy? {
      GlobalHolderCanMove(s);
    }
  }

  /** Deadlock does not happen: in every state of every run some thread can move, unless every worker waits for its
      event and no thread outside has anything left to do. */
  lemma NoDeadlock(trace: seq<State>, acts: seq<Action>, k: nat)
    requires Run(trace, acts) && k <= |acts|
    ensures var s := trace[k];
      || (exists w :: 0 <= w < |s.workers| && CanMove(s, w))
      || (exists c :: 0 <= c < |s.clients| && ClientCan(s, c))
      || (Asleep(s) && forall c :: 0 <= c < |s.clients| ==> s.clients[c].Done?)
  {
    var s := trace[k];
    PoolSearch.SameNumber(trace, acts, k);
    RunKeepsInv(trace, acts, k);
    assert ThreadsOk(s);
    hide Init, Inv, CanMove;
    if w :| 0 <= w < |s.workers| && !(s.workers[w].AtWait? && !s.events[w]) {
      SomeoneCanMove(trace, acts, k, w);
    } else if c :| 0 <= c < |s.clients| && !s.clients[c].Done? {
      assert ClientCan(s, c);
    }
  }
}
