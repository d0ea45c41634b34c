/** No thread of the pool is held up: left alone, a worker runs a coroutine, spins or sleeps after a bounded number
    of steps, and a client is done after a bounded number of steps (lib/static_thread_pool.cpp:374-497, 521-760). */
module PoolProgress {
  import opened Pool
  import opened PoolProofs
  import opened Tally
  import D = Deque
  import G = GlobalQueue

  // ---------------------------------------------------------------- how many steps are left

  /** How many flags are passed, from flag i on, before one that is raised; all of them if none is. */
  function Passed(flags: seq<bool>, i: nat): nat
    decreases |flags| - i
  {
    if i >= |flags| || flags[i] then 0 else 1 + Passed(flags, i + 1)
  }

  predicate RaisedFrom(flags: seq<bool>, i: nat) { exists v :: i <= v < |flags| && flags[v] }

  /** The same for a search that starts over at the end. */
  function Around(flags: seq<bool>, i: nat): nat {
    if RaisedFrom(flags, i) || i >= |flags| then Passed(flags, i) else |flags| - i + Passed(flags, 0)
  }

  function WakeLeft(s: State, k: Wake): nat {
    var n := |s.flags|;
    match k
    case ReadCount => 2 * n + 7
    case Claim(seen) => if seen == s.count then 2 * n + 5 else 2 * n + 6
    case Scan(i) => if i < n then Around(s.flags, i) + 3 else 2 * n + 4
    case Take(i) => if i < n && s.flags[i] then 2 else 2 * n + 4
    case Signal(_) => 1
  }

  function ClearLeft(s: State, c: Clear): nat {
    var n := |s.workers|;
    match c
    case CountFirst => 2 * n + 7
    case ClaimSelf(seen) => if seen == s.count then 2 * n + 5 else 2 * n + 6
    case LoadOwn => 2 * n + 4
    case TakeOwn => 2 * n + 3
    case LoadOther(i) => 2 * Gap(i, n) + 2
    case TakeOther(i) => 2 * Gap(i, n) + 1
    case SignalTo(_) => 2
  }

  function Gap(i: nat, n: nat): nat { if i < n then n - i else 0 }

  /** Of tryGetRemote that goes on to the deques, or has found an operation. */
  function StealLeft(n: nat, i: nat, second: bool): nat { 7 * Gap(i, n) + 2 * n + 8 + if second then 0 else 7 * n + 1 }

  function GetLeft(s: State, w: nat, g: Get): nat {
    var n := |s.workers|;
    match g
    case FromGlobal => StealLeft(n, 0, false) + 1 + if HoldsGlobal(s, w) then G.StepsLeft(s.global) else 5
    case StealAt(i, _, second) => StealLeft(n, i, second)
    case Stealing(i, _, second) =>
      StealLeft(n, i + 1, second) + 1 + if i < |s.deques| then D.ThiefLeft(s.deques[i].holder) else 0
  }

  /** Of a search from its beginning. */
  function SearchLeft(n: nat): nat { StealLeft(n, 0, false) + 6 }

  function CheckLeft(s: State, c: Check): nat {
    var n := |s.workers|;
    match c
    case LookTail => SearchLeft(n) + 3 * n + 2
    case LookHead => SearchLeft(n) + 3 * n + 1
    case LookAt(i) => SearchLeft(n) + 3 * Gap(i, n)
    case LookingIn(i) =>
      if i < |s.deques| && s.deques[i].holder.ByThief? && s.deques[i].holder.thief.Entered?
      then SearchLeft(n) + 3 * Gap(i + 1, n) + 2 else SearchLeft(n) + 3 * Gap(i + 1, n) + 1
  }

  /** How many steps worker w has yet to take, at most, until it runs a coroutine, spins or sleeps, if no other
      thread moves. */
  function WorkerLeft(s: State, w: nat): nat
    requires w < |s.workers|
  {
    var n, own := |s.workers|, if w < |s.deques| then D.OwnerLeft(s.deques[w].owner) else 0;
    match s.workers[w]
    case Top => SearchLeft(n) + 7
    case Popping => SearchLeft(n) + 1 + own
    case Running => 0
    case Enqueuing => 2 * |s.flags| + 9 + own
    case Refused(_) => 2 * |s.flags| + 8
    case Waking(k) => WakeLeft(s, k)
    case Getting(_, g) => GetLeft(s, w, g)
    case Spin => 0
    case Notified => SearchLeft(n) + 3 * n + 3
    case Checking(c) => CheckLeft(s, c)
    case AtWait => 0
    case Clearing(_, c) => ClearLeft(s, c)
    case Starting(_) => 1
  }

  function ClientLeft(s: State, c: nat): nat
    requires c < |s.clients|
  {
    match s.clients[c]
    case Pushing(_) => 2 * |s.flags| + 8
    case ClientWaking(k) => WakeLeft(s, k)
    case Done => 0
  }

  /** Where a worker may stay: with a coroutine, between two attempts of the spin loop, or asleep. */
  predicate AtRest(p: Worker) { p.Running? || p.Spin? || p.AtWait? }

  // ---------------------------------------------------------------- the search of wake_one_thread

  lemma {:induction false} PassedBound(flags: seq<bool>, i: nat)
    requires i <= |flags|
    ensures Passed(flags, i) <= |flags| - i
    decreases |flags| - i
  {
    if i < |flags| && !flags[i] { PassedBound(flags, i + 1); }
  }

  /** As long as some flag is raised, the search gets nearer to one. */
  lemma AroundShrinks(flags: seq<bool>, i: nat)
    requires i < |flags| && !flags[i] && RaisedFrom(flags, 0)
    ensures Around(flags, Wrapped(|flags|, i + 1)) < Around(flags, i)
  {
    var j := i + 1;
    if RaisedFrom(flags, i) {
      assert RaisedFrom(flags, j);
    } else {
      assert !RaisedFrom(flags, j);
    }
  }

  lemma AroundBound(flags: seq<bool>, i: nat)
    requires i < |flags|
    ensures Around(flags, i) <= 2 * |flags|
  {
    PassedBound(flags, i);
    PassedBound(flags, 0);
  }

  lemma WakeShrinks(s: State, k: Wake)
    requires WakeOk(s, k) && |s.events| == |s.flags| > 0 && (Claims(k) ==> RaisedFrom(s.flags, 0))
    ensures WakeNext(s, k).More? ==> WakeLeft(WakeShared(s, k), WakeNext(s, k).wake) < WakeLeft(s, k)
    ensures WakeLeft(s, k) >= 1
  {
    var n := |s.flags|;
    match k {
      case Scan(i) =>
        AroundBound(s.flags, i);
        if !s.flags[i] { AroundShrinks(s.flags, i); }
      case Take(i) =>
        if !s.flags[i] {
          assert WakeShared(s, k).flags == s.flags;
          AroundBound(s.flags, Wrapped(n, i + 1));
        }
      case Claim(seen) => AroundBound(s.flags, 0);
      case _ =>
    }
    hide Around, RaisedFrom, Passed;
  }

  /** Wake claims are backed by raised flags, so the search has something to find. */
  lemma ClaimFinds(s: State)
    requires Accounted(s)
    requires (exists w :: 0 <= w < |s.workers| && WorkerClaims(s.workers[w]))
      || (exists c :: 0 <= c < |s.clients| && ClientClaims(s.clients[c]))
    ensures RaisedFrom(s.flags, 0)
  {
    if w :| 0 <= w < |s.workers| && WorkerClaims(s.workers[w]) { CountOne(WorkerClaims, s.workers, w); }
    if c :| 0 <= c < |s.clients| && ClientClaims(s.clients[c]) { CountOne(ClientClaims, s.clients, c); }
    CountSome(Up, s.flags);
    var v :| 0 <= v < |s.flags| && Up(s.flags[v]);
    assert s.flags[v];
    hide Count;
  }

  // ---------------------------------------------------------------- every step leaves fewer

  ghost predicate Shrinks(s: State, t: State, w: nat) {
    w < |s.workers| && w < |t.workers| && WorkerLeft(t, w) < WorkerLeft(s, w)
  }

  lemma SearchBound(s: State, w: nat)
    requires w < |s.workers|
    ensures GetLeft(s, w, FromGlobal) <= SearchLeft(|s.workers|)
  {
  }

  lemma TopShrinks(s: State, w: nat, act: WorkerAct)
    requires Sized(s) && w < |s.workers| && AwakeCan(s, w, act) && s.workers[w].Top?
    ensures Shrinks(s, AwakeStep(s, w, act), w)
  {
    SearchBound(AwakeStep(s, w, act), w);
    assert D.OwnerLeft(D.OwnerStep(s.deques[w], D.StartPop).owner) <= 5;
    hide GetLeft, SearchLeft, D.OwnerLeft, D.OwnerStep;
  }

  lemma PoppingShrinks(s: State, w: nat, act: WorkerAct)
    requires Sized(s) && w < |s.workers| && AwakeCan(s, w, act) && D.Inv(s.deques[w]) && s.workers[w].Popping?
    ensures Shrinks(s, AwakeStep(s, w, act), w)
  {
    var d := s.deques[w];
    var a := D.ByTheOwner(PopAct(d.owner));
    assert D.Enabled(d, a) && D.Apply(d, a) == D.OwnerStep(d, PopAct(d.owner));
    SearchBound(AwakeStep(s, w, act), w);
    assert !D.StartsCall(a);
    D.BothAdvance(d, a);
    assert One(D.OfOwner()(a)) == 1;
    hide GetLeft, SearchLeft, D.OwnerLeft, D.OwnerStep, D.Inv, D.OwnerCan, PopAct, D.ThiefLeft, D.StartsCall;
  }

  lemma ScheduleShrinks(s: State, w: nat, act: WorkerAct)
    requires Sized(s) && w < |s.workers| && AwakeCan(s, w, act) && D.Inv(s.deques[w])
    requires s.workers[w].Enqueuing? || s.workers[w].Refused?
    ensures Shrinks(s, AwakeStep(s, w, act), w)
  {
    if s.workers[w].Enqueuing? { D.BothAdvance(s.deques[w], D.ByTheOwner(act.o)); }
    hide D.Inv, G.Apply;
  }

  lemma WakingShrinks(s: State, w: nat, act: WorkerAct)
    requires Inv(s) && w < |s.workers| && AwakeCan(s, w, act) && s.workers[w].Waking?
    ensures Shrinks(s, AwakeStep(s, w, act), w)
  {
    if Claims(s.workers[w].wake) {
      assert WorkerClaims(s.workers[w]);
      ClaimFinds(s);
    }
    hide QueuesOk, Drained, Accounted, Covered, Watched, WakeNext, WakeShared, WakeLeft, RaisedFrom;
    WakeShrinks(s, s.workers[w].wake);
    SameWake(s, w);
  }

  lemma SameWake(s: State, w: nat)
    requires w < |s.workers| && s.workers[w].Waking? && WakeOk(s, s.workers[w].wake)
    ensures forall p, k :: WakeLeft(Put(WakeShared(s, s.workers[w].wake), w, p), k) == WakeLeft(WakeShared(s, s.workers[w].wake), k)
    ensures WakeShared(s, s.workers[w].wake).workers == s.workers
  {
  }

  // ---------------------------------------------------------------- tryGetRemote, sleeping and clearing

  /** What follows the search of the deques costs no more than the search still counts on. */
  lemma AfterLookShrinks(s: State, w: nat, mode: Mode, i: nat, busy: bool, second: bool, op: Op)
    requires w < |s.workers|
    ensures WorkerLeft(Put(s, w, AfterOp(mode, op)), w) <= StealLeft(|s.workers|, i, second)
    ensures WorkerLeft(Put(s, w, StealFrom(|s.workers|, w, mode, i, busy, second)), w) <= StealLeft(|s.workers|, i, second)
  {
  }

  lemma FromGlobalShrinks(s: State, w: nat)
    requires Sized(s) && G.Inv(s.global) && w < |s.workers| && s.workers[w].Getting? && s.workers[w].get.FromGlobal? && GetCan(s, w)
    ensures Shrinks(s, GetStep(s, w), w)
  {
    var a := GlobalAct(s, w);
    var g := G.Apply(s.global, a);
    var mode := s.workers[w].mode;
    G.HolderAdvances(s.global, a);
    assert a.Lock? ==> HoldsGlobal(s.(global := g), w) && G.StepsLeft(g) <= 4;
    assert !a.Lock? ==> G.OfHolder()(a);
    assert g.mutex.HeldBy? && !a.Lock? ==> HoldsGlobal(s.(global := g), w);
    assert a.StoreHead? ==> s.global.mutex.phase.list != [];
    AfterLookShrinks(s.(global := g), w, mode, 0, false, false, if a.StoreHead? then s.global.mutex.phase.list[0] else 0);
    hide G.Inv, G.Apply, G.StepsLeft, StealLeft, AfterOp, StealFrom;
  }

  lemma LocksShrinks(s: State, w: nat)
    requires Sized(s) && w < |s.workers| && s.workers[w].Getting? && s.workers[w].get.StealAt? && GetCan(s, w)
    ensures Shrinks(s, GetStep(s, w), w)
  {
    var g := s.workers[w].get;
    AfterLookShrinks(s, w, s.workers[w].mode, g.i + 1, true, false, 0);
    hide StealFrom, AfterOp;
  }

  lemma StealingShrinks(s: State, w: nat)
    requires Sized(s) && w < |s.workers| && s.workers[w].Getting? && s.workers[w].get.Stealing? && GetCan(s, w)
    requires D.Inv(s.deques[s.workers[w].get.i])
    ensures Shrinks(s, GetStep(s, w), w)
  {
    var g, mode := s.workers[w].get, s.workers[w].mode;
    var d := s.deques[g.i];
    var a := StealAct(d.holder);
    var t := PutDeque(s, g.i, D.ThiefStep(d, a));
    assert D.Enabled(d, D.ByAThief(a)) && D.Apply(d, D.ByAThief(a)) == D.ThiefStep(d, a);
    D.BothAdvance(d, D.ByAThief(a));
    assert One(D.OfThief()(D.ByAThief(a))) == 1 && !D.Locks(D.ByAThief(a));
    AfterLookShrinks(t, w, mode, g.i + 1, g.busy, g.second, D.At(d.buf, if a.ReadStolen? then d.holder.thief.tail else 0));
    hide D.Inv, D.ThiefStep, D.ThiefLeft, D.OwnerLeft, D.ThiefCan, StealLeft, AfterOp, StealFrom, D.At;
  }

  lemma PeekShrinks(s: State, w: nat, act: WorkerAct)
    requires Sized(s) && w < |s.workers| && SleepCan(s, w, act) && s.workers[w].Checking?
    requires s.workers[w].check.LookAt? || s.workers[w].check.LookingIn?
    ensures Shrinks(s, SleepStep(s, w, act), w)
  {
    SearchBound(SleepStep(s, w, act), w);
    hide GetLeft, SearchLeft;
  }

  lemma SleepShrinks(s: State, w: nat, act: WorkerAct)
    requires Sized(s) && w < |s.workers| && SleepCan(s, w, act) && !AtRest(s.workers[w])
    requires s.workers[w].Checking? ==> s.workers[w].check.LookTail? || s.workers[w].check.LookHead?
    ensures Shrinks(s, SleepStep(s, w, act), w)
  {
    SearchBound(SleepStep(s, w, act), w);
    hide GetLeft, SearchLeft, D.ThiefStep, D.ThiefCan;
  }

  lemma ClearShrinks(s: State, w: nat)
    requires Sized(s) && w < |s.workers| && s.workers[w].Clearing? && ClearCan(s, w)
    ensures Shrinks(s, ClearStep(s, w), w)
  {
  }

  lemma WorkerShrinks(s: State, w: nat, act: WorkerAct)
    requires Inv(s) && WorkerCan(s, w, act) && !AtRest(s.workers[w])
    ensures Shrinks(s, WorkerStep(s, w, act), w)
  {
    var p := s.workers[w];
    assert D.Inv(s.deques[w]) && G.Inv(s.global);
    assert p.Getting? && p.get.Stealing? ==> D.Inv(s.deques[p.get.i]);
    hide Inv, D.Inv, G.Inv, AwakeCan, AwakeStep, GetCan, GetStep, SleepCan, SleepStep, ClearCan, ClearStep, Shrinks;
    match p
    case Top => TopShrinks(s, w, act);
    case Popping => PoppingShrinks(s, w, act);
    case Enqueuing => ScheduleShrinks(s, w, act);
    case Refused(_) => ScheduleShrinks(s, w, act);
    case Waking(_) => WakingShrinks(s, w, act);
    case Starting(_) => StartingShrinks(s, w, act);
    case Getting(_, FromGlobal) => FromGlobalShrinks(s, w);
    case Getting(_, StealAt(_, _, _)) => LocksShrinks(s, w);
    case Getting(_, Stealing(_, _, _)) => StealingShrinks(s, w);
    case Clearing(_, _) => ClearShrinks(s, w);
    case Notified => SleepShrinks(s, w, act);
    case Checking(c) => if c.LookTail? || c.LookHead? { SleepShrinks(s, w, act); } else { PeekShrinks(s, w, act); }
    case _ =>
  }

  lemma StartingShrinks(s: State, w: nat, act: WorkerAct)
    requires Sized(s) && w < |s.workers| && s.workers[w].Starting? && AwakeCan(s, w, act)
    ensures Shrinks(s, AwakeStep(s, w, act), w)
  {
  }

  lemma ClientShrinks(s: State, c: nat)
    requires Inv(s) && ClientCan(s, c)
    ensures c < |ClientStep(s, c).clients| && ClientLeft(ClientStep(s, c), c) < ClientLeft(s, c)
  {
    if s.clients[c].ClientWaking? {
      if Claims(s.clients[c].wake) {
        assert ClientClaims(s.clients[c]);
        ClaimFinds(s);
      }
      hide QueuesOk, Drained, Accounted, Covered, Watched, WakeLeft, RaisedFrom;
      WakeShrinks(s, s.clients[c].wake);
      assert forall l, k :: WakeLeft(WakeShared(s, s.clients[c].wake).(clients := l), k) == WakeLeft(WakeShared(s, s.clients[c].wake), k) by {
        SameForClient(WakeShared(s, s.clients[c].wake));
      }
      hide WakeNext, WakeShared;
    } else {
      hide Inv, G.Apply;
    }
  }

  lemma SameForClient(s: State)
    ensures forall l, k :: WakeLeft(s.(clients := l), k) == WakeLeft(s, k)
  {
  }

  // ---------------------------------------------------------------- whole runs

  /** A worker that is neither running a coroutine nor spinning nor asleep gets there, left alone, in at most the
      number of steps counted: its pop, its enqueue, its search of the global queue and of all other deques (twice,
      if need be), its last check before sleeping, the withdrawal of its intent to sleep, and its search for a
      sleeper to wake all come to an end, and an operation it has found is resumed. */
  lemma {:induction false} WorkerGetsToRest(trace: seq<State>, acts: seq<Action>, j: nat, k: nat, w: nat)
    requires Run(trace, acts) && j <= k <= |acts| && w < |trace[j].workers|
    requires forall i :: j <= i < k ==> acts[i].ByWorker? && acts[i].w == w
    requires forall i :: j <= i < k ==> w < |trace[i].workers| && !AtRest(trace[i].workers[w])
    ensures w < |trace[k].workers| && k - j + WorkerLeft(trace[k], w) <= WorkerLeft(trace[j], w)
  {
    hide Init, Inv, WorkerCan, WorkerStep, WorkerLeft;
    if j < k {
      WorkerGetsToRest(trace, acts, j, k - 1, w);
      RunKeepsInv(trace, acts, k - 1);
      WorkerShrinks(trace[k - 1], w, acts[k - 1].act);
    }
  }

  /** And a client that schedules an operation from outside is done, left alone, in at most the number counted. */
  lemma {:induction false} ClientGetsDone(trace: seq<State>, acts: seq<Action>, j: nat, k: nat, c: nat)
    requires Run(trace, acts) && j <= k <= |acts| && c < |trace[j].clients|
    requires forall i :: j <= i < k ==> acts[i] == ByClient(c)
    ensures c < |trace[k].clients| && k - j + ClientLeft(trace[k], c) <= ClientLeft(trace[j], c)
  {
    hide Init, Inv, ClientCan, ClientStep, ClientLeft;
    if j < k {
      ClientGetsDone(trace, acts, j, k - 1, c);
      RunKeepsInv(trace, acts, k - 1);
      ClientShrinks(trace[k - 1], c);
    }
  }
}
