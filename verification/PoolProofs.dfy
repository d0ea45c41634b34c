/** What every run of the pool keeps: the counter is backed by raised flags, and an operation in the
    global queue always has a thread that will still look at it or wake someone who will. */
module PoolProofs {
  import opened Pool
  import opened Tally
  import D = Deque
  import G = GlobalQueue

  // ---------------------------------------------------------------- vocabulary

  predicate Up(b: bool) { b }

  /** Has taken one from the counter and not yet lowered a flag for it. */
  predicate Claims(k: Wake) { k.Scan? || k.Take? }
  predicate WorkerClaims(p: Worker) {
    (p.Waking? && Claims(p.wake)) || (p.Clearing? && (p.clear.LoadOwn? || p.clear.TakeOwn? || p.clear.LoadOther? || p.clear.TakeOther?))
  }
  predicate ClientClaims(c: Client) { c.ClientWaking? && Claims(c.wake) }

  /** Has raised its flag and not yet counted itself. */
  predicate Uncounted(p: Worker) { p.Notified? }

  predicate WorkerSignals(p: Worker, v: nat) {
    p == Waking(Signal(v)) || (p.Clearing? && p.clear == SignalTo(v))
  }
  predicate ClientSignals(c: Client, v: nat) { c == ClientWaking(Signal(v)) }

  /** Worker v will wake up even if it blocks now. */
  ghost predicate Roused(s: State, v: nat)
    requires v < |s.events|
  {
    s.events[v]
    || (exists t :: 0 <= t < |s.workers| && WorkerSignals(s.workers[t], v))
    || (exists c :: 0 <= c < |s.clients| && ClientSignals(s.clients[c], v))
  }

  /** Between raising the flag and going back to work. */
  predicate PreSleep(p: Worker) {
    p.Notified? || p.Checking? || p.AtWait? || (p.Getting? && p.mode.Sleepy?)
  }

  /** Will block without looking at the stack of new operations again. */
  predicate LateForTail(p: Worker) {
    (p.Checking? && !p.check.LookTail?) || p.AtWait? || (p.Getting? && p.mode.Sleepy? && !p.get.FromGlobal?)
  }

  /** Will block without looking at the first-in-first-out list again. */
  predicate LateForHead(p: Worker) { LateForTail(p) && p != Checking(LookHead) }

  /** Has found its own deque empty and not run anything since. */
  predicate PastPop(p: Worker) { p.Getting? || p.Spin? || p.Notified? || p.Checking? || p.AtWait? }

  // ---------------------------------------------------------------- the invariant

  ghost predicate ThreadsOk(s: State) {
    && Sized(s) && |s.workers| >= 1
    && (forall w :: 0 <= w < |s.workers| ==> WorkerOk(s, w))
    && (forall c :: 0 <= c < |s.clients| ==> (s.clients[c].ClientWaking? ==> WakeOk(s, s.clients[c].wake)))
    && (s.global.mutex.HeldBy? ==>
          s.global.mutex.id < |s.workers| && s.workers[s.global.mutex.id].Getting? && s.workers[s.global.mutex.id].get.FromGlobal?)
  }

  predicate WorkerOk(s: State, w: nat)
    requires Sized(s) && w < |s.workers|
  {
    match s.workers[w]
    case Waking(k) => WakeOk(s, k)
    case Clearing(_, LoadOther(i)) => i < |s.workers| && !s.flags[w]
    case Clearing(_, TakeOther(i)) => i < |s.workers| && !s.flags[w]
    case Clearing(_, SignalTo(i)) => i < |s.workers|
    case _ => true
  }

  ghost predicate QueuesOk(s: State) {
    && G.Inv(s.global)
    && forall j :: 0 <= j < |s.deques| ==> D.Inv(s.deques[j])
  }

  /** A worker past its pop leaves an operation behind only if that pop was misled. */
  ghost predicate Drained(s: State) {
    && |s.deques| == |s.workers|
    && forall w :: 0 <= w < |s.workers| && PastPop(s.workers[w]) ==>
      s.deques[w].owner.Idle? && (s.deques[w].q != [] ==> s.deques[w].missed)
  }

  function Flags(s: State): nat { Count(Up, s.flags) }

  /** Raised flags that are spoken for: counted, claimed, or about to be counted. */
  function Backing(s: State): nat {
    s.count + Count(WorkerClaims, s.workers) + Count(ClientClaims, s.clients) + Count(Uncounted, s.workers)
  }

  ghost predicate Accounted(s: State) {
    Backing(s) <= Flags(s) <= Backing(s) + |s.workers| - 1
  }

  ghost predicate Covered(s: State)
    requires Sized(s)
  {
    forall v :: 0 <= v < |s.workers| && PreSleep(s.workers[v]) && !s.flags[v] ==> Roused(s, v)
  }

  ghost predicate SomeoneForTail(s: State)
    requires Sized(s)
  {
    (exists v :: 0 <= v < |s.workers| && (!LateForTail(s.workers[v]) || Roused(s, v)))
    || exists c :: 0 <= c < |s.clients| && s.clients[c].ClientWaking?
  }

  ghost predicate SomeoneForHead(s: State)
    requires Sized(s)
  {
    (exists v :: 0 <= v < |s.workers| && (!LateForHead(s.workers[v]) || Roused(s, v)))
    || exists c :: 0 <= c < |s.clients| && s.clients[c].ClientWaking?
  }

  ghost predicate Watched(s: State)
    requires Sized(s)
  {
    && (s.global.tail != [] ==> SomeoneForTail(s))
    && (G.Pending(s.global) != [] ==> SomeoneForHead(s))
  }

  ghost predicate Inv(s: State) {
    ThreadsOk(s) && QueuesOk(s) && Drained(s) && Accounted(s) && Covered(s) && Watched(s)
  }

  // ---------------------------------------------------------------- a worker's step, as the others see it

  ghost predicate Tame(s: State, t: State, w: nat)
    requires Sized(s) && w < |s.workers|
  {
    && Sized(t) && |t.workers| == |s.workers| && t.workers == s.workers[w := t.workers[w]] && t.clients == s.clients
    && TameFlags(s, t, w) && TameQueue(s, t, w)
  }

  /** Flags are lowered only by a thread about to signal, and events are cleared only by waking up. */
  ghost predicate TameFlags(s: State, t: State, w: nat)
    requires Sized(s) && Sized(t) && |t.workers| == |s.workers| && w < |s.workers|
  {
    && (forall v :: 0 <= v < |s.workers| && v != w && s.events[v] ==> t.events[v])
    && (forall v :: 0 <= v < |s.workers| && WorkerSignals(s.workers[w], v) ==> t.events[v])
    && (forall v :: 0 <= v < |s.workers| && s.flags[v] && !t.flags[v] ==> WorkerSignals(t.workers[w], v))
    && (forall v :: 0 <= v < |s.workers| && v != w && t.flags[v] ==> s.flags[v])
    && (s.events[w] && !t.events[w] ==> t.workers[w].Spin?)
    && (PreSleep(t.workers[w]) && !PreSleep(s.workers[w]) ==> t.flags[w])
  }

  /** A worker stops watching a queue only after finding it empty or in another worker's hands. */
  ghost predicate TameQueue(s: State, t: State, w: nat)
    requires Sized(s) && Sized(t) && |t.workers| == |s.workers| && w < |s.workers|
  {
    && (LateForTail(t.workers[w]) && !LateForTail(s.workers[w]) ==> t.global.tail == [])
    && (LateForHead(t.workers[w]) && !LateForHead(s.workers[w]) && G.Pending(t.global) != [] ==>
          t.global.mutex.HeldBy? && t.global.mutex.id != w && t.global == s.global)
    && (LateForTail(s.workers[w]) && LateForTail(t.workers[w]) ==> t.global == s.global)
  }

  lemma RousedKept(s: State, t: State, w: nat, v: nat)
    requires Sized(s) && w < |s.workers| && Tame(s, t, w) && v < |s.workers| && Roused(s, v)
    requires v != w || !t.workers[w].Spin?
    ensures Roused(t, v)
  {
    if !s.events[v] {
      if i :| 0 <= i < |s.workers| && WorkerSignals(s.workers[i], v) {
        assert i != w ==> t.workers[i] == s.workers[i];
      } else {
        var c :| 0 <= c < |s.clients| && ClientSignals(s.clients[c], v);
        assert ClientSignals(t.clients[c], v);
      }
    }
  }

  lemma CoveredKept(s: State, t: State, w: nat)
    requires Sized(s) && w < |s.workers| && Tame(s, t, w) && Covered(s)
    ensures Covered(t)
  {
    forall v | 0 <= v < |t.workers| && PreSleep(t.workers[v]) && !t.flags[v] ensures Roused(t, v) {
      if s.flags[v] {
        assert WorkerSignals(t.workers[w], v);
      } else {
        assert PreSleep(s.workers[v]);
        RousedKept(s, t, w, v);
      }
    }
  }

  lemma WatchedTail(s: State, t: State, w: nat)
    requires Sized(s) && w < |s.workers| && Tame(s, t, w) && Watched(s)
    ensures t.global.tail != [] ==> SomeoneForTail(t)
  {
    hide Roused;
    if t.global.tail != [] {
      if LateForTail(t.workers[w]) {
        assert LateForTail(s.workers[w]) && t.global == s.global;
        if v :| 0 <= v < |s.workers| && (!LateForTail(s.workers[v]) || Roused(s, v)) {
          if LateForTail(s.workers[v]) { RousedKept(s, t, w, v); }
          assert !LateForTail(t.workers[v]) || Roused(t, v);
        }
      }
    }
  }

  lemma WatchedHead(s: State, t: State, w: nat)
    requires Sized(s) && w < |s.workers| && Tame(s, t, w) && Watched(s) && ThreadsOk(t)
    ensures G.Pending(t.global) != [] ==> SomeoneForHead(t)
  {
    hide Roused, WorkerOk;
    if G.Pending(t.global) != [] && LateForHead(t.workers[w]) {
      if !LateForHead(s.workers[w]) {
        assert !LateForHead(t.workers[t.global.mutex.id]);
      } else {
        assert t.global == s.global;
        if v :| 0 <= v < |s.workers| && (!LateForHead(s.workers[v]) || Roused(s, v)) {
          if LateForHead(s.workers[v]) { RousedKept(s, t, w, v); }
          assert !LateForHead(t.workers[v]) || Roused(t, v);
        }
      }
    }
  }

  // ---------------------------------------------------------------- every step of a worker is tame

  lemma TameWaking(s: State, w: nat)
    requires Sized(s) && w < |s.workers| && s.workers[w].Waking? && AwakeCan(s, w, Go)
    ensures Tame(s, AwakeStep(s, w, Go), w)
  {
    hide D.OwnerCan, D.OwnerStep, G.Pending, PopAct, TameQueue;
    var t := AwakeStep(s, w, Go);
    assert TameQueue(s, t, w) by { AwakeIsOnTime(s, w, Go); }
  }

  lemma AwakeIsOnTime(s: State, w: nat, act: WorkerAct)
    requires Sized(s) && w < |s.workers| && AwakeCan(s, w, act)
    ensures !LateForTail(AwakeStep(s, w, act).workers[w])
    ensures Sized(AwakeStep(s, w, act)) && |AwakeStep(s, w, act).workers| == |s.workers|
    ensures TameQueue(s, AwakeStep(s, w, act), w)
  {
    hide D.OwnerCan, D.OwnerStep, G.Pending, PopAct;
  }

  lemma TameAwake(s: State, w: nat, act: WorkerAct)
    requires Sized(s) && w < |s.workers| && AwakeCan(s, w, act)
    ensures Tame(s, AwakeStep(s, w, act), w)
  {
    hide D.OwnerCan, D.OwnerStep, G.Pending, PopAct, TameQueue;
    AwakeIsOnTime(s, w, act);
    if s.workers[w].Waking? {
      TameWaking(s, w);
    } else {
      var t := AwakeStep(s, w, act);
      assert t.flags == s.flags && t.events == s.events;
    }
  }

  lemma TameGet(s: State, w: nat)
    requires Sized(s) && w < |s.workers| && s.workers[w].Getting? && GetCan(s, w) && G.Inv(s.global)
    ensures Tame(s, GetStep(s, w), w)
  {
    hide D.ThiefCan, D.ThiefStep, StealAct, TameFlags;
    GetFlags(s, w);
  }

  lemma GetFlags(s: State, w: nat)
    requires Sized(s) && w < |s.workers| && s.workers[w].Getting? && GetCan(s, w)
    ensures var t := GetStep(s, w); Sized(t) && |t.workers| == |s.workers| && TameFlags(s, t, w)
  {
    hide D.ThiefCan, D.ThiefStep, StealAct, G.Enabled, G.Apply;
    var t := GetStep(s, w);
    assert t.flags == s.flags && t.events == s.events;
    assert PreSleep(t.workers[w]) ==> PreSleep(s.workers[w]);
    assert !WorkerSignals(s.workers[w], w);
    hide GetStep, PreSleep;
  }

  lemma SleepFlags(s: State, w: nat, act: WorkerAct)
    requires Sized(s) && w < |s.workers| && SleepCan(s, w, act)
    ensures var t := SleepStep(s, w, act); Sized(t) && |t.workers| == |s.workers| && TameFlags(s, t, w)
  {
    hide D.ThiefCan, D.ThiefStep;
  }

  lemma TameSleep(s: State, w: nat, act: WorkerAct)
    requires Sized(s) && w < |s.workers| && SleepCan(s, w, act) && ThreadsOk(s) && G.Inv(s.global)
    ensures Tame(s, SleepStep(s, w, act), w)
  {
    hide D.ThiefCan, D.ThiefStep, WorkerOk, TameFlags;
    SleepFlags(s, w, act);
  }

  lemma ClearFlags(s: State, w: nat)
    requires Sized(s) && w < |s.workers| && s.workers[w].Clearing? && ClearCan(s, w)
    ensures var t := ClearStep(s, w); Sized(t) && |t.workers| == |s.workers| && TameFlags(s, t, w)
  {
  }

  lemma TameClear(s: State, w: nat)
    requires Sized(s) && w < |s.workers| && s.workers[w].Clearing? && ClearCan(s, w)
    ensures Tame(s, ClearStep(s, w), w)
  {
    hide G.Pending, TameFlags;
    ClearFlags(s, w);
  }

  // ---------------------------------------------------------------- the counter and the flags

  /** What worker w itself contributes to the backing. */
  function Share(s: State, w: nat): nat
    requires w < |s.workers|
  {
    s.count + One(WorkerClaims(s.workers[w])) + One(Uncounted(s.workers[w]))
  }

  /** Either flags and backing move together, or a claim is dropped by a worker whose own flag is down. */
  ghost predicate Balanced(s: State, t: State, w: nat)
    requires Sized(s) && Sized(t) && |t.workers| == |s.workers| && w < |s.workers|
  {
    || Flags(t) - Flags(s) == Share(t, w) - Share(s, w)
    || (Flags(t) == Flags(s) && Share(t, w) == Share(s, w) - 1 && !t.flags[w])
  }

  lemma AccountedKept(s: State, t: State, w: nat)
    requires Sized(s) && Sized(t) && |t.workers| == |s.workers| && w < |s.workers|
    requires t.workers == s.workers[w := t.workers[w]] && t.clients == s.clients
    requires Accounted(s) && Balanced(s, t, w)
    ensures Accounted(t)
  {
    CountUpdate(WorkerClaims, s.workers, w, t.workers[w]);
    CountUpdate(Uncounted, s.workers, w, t.workers[w]);
    if !t.flags[w] { CountMissing(Up, t.flags, w); }
  }

  lemma BalancedAwake(s: State, w: nat, act: WorkerAct)
    requires Sized(s) && w < |s.workers| && AwakeCan(s, w, act)
    ensures Balanced(s, AwakeStep(s, w, act), w)
  {
    hide D.OwnerCan, D.OwnerStep, PopAct;
    if s.workers[w].Waking? && s.workers[w].wake.Take? {
      CountUpdate(Up, s.flags, s.workers[w].wake.i, false);
    }
  }

  lemma BalancedGet(s: State, w: nat)
    requires Sized(s) && w < |s.workers| && s.workers[w].Getting? && GetCan(s, w)
    ensures Balanced(s, GetStep(s, w), w)
  {
    hide D.ThiefCan, D.ThiefStep, StealAct, G.Enabled, G.Apply, GlobalAct;
  }

  lemma BalancedSleep(s: State, w: nat, act: WorkerAct)
    requires Sized(s) && w < |s.workers| && SleepCan(s, w, act)
    ensures Balanced(s, SleepStep(s, w, act), w)
  {
    hide D.ThiefCan, D.ThiefStep;
    CountUpdate(Up, s.flags, w, true);
  }

  lemma BalancedClear(s: State, w: nat)
    requires Sized(s) && w < |s.workers| && s.workers[w].Clearing? && ClearCan(s, w) && WorkerOk(s, w)
    ensures Balanced(s, ClearStep(s, w), w)
  {
    match s.workers[w].clear
    case TakeOwn => CountUpdate(Up, s.flags, w, false);
    case TakeOther(i) => CountUpdate(Up, s.flags, i, false);
    case _ =>
  }

  // ---------------------------------------------------------------- threads, queues, drained deques

  lemma OthersOk(s: State, t: State, w: nat)
    requires ThreadsOk(s) && w < |s.workers| && Tame(s, t, w) && WorkerOk(t, w)
    requires t.global.mutex.HeldBy? ==>
      (t.global.mutex.id == w && t.workers[w].Getting? && t.workers[w].get.FromGlobal?)
      || (s.global.mutex.HeldBy? && s.global.mutex.id == t.global.mutex.id && t.global.mutex.id != w)
    ensures ThreadsOk(t)
  {
    forall v | 0 <= v < |t.workers| ensures WorkerOk(t, v) {
      assert WorkerOk(s, v);
    }
  }

  lemma OkAwake(s: State, w: nat, act: WorkerAct)
    requires ThreadsOk(s) && w < |s.workers| && AwakeCan(s, w, act)
    ensures ThreadsOk(AwakeStep(s, w, act))
  {
    hide D.OwnerCan, D.OwnerStep, PopAct;
    TameAwake(s, w, act);
    assert WorkerOk(s, w);
    var t := AwakeStep(s, w, act);
    assert t.global.mutex == s.global.mutex;
    assert WorkerOk(t, w);
    OthersOk(s, t, w);
  }

  lemma OkGet(s: State, w: nat)
    requires ThreadsOk(s) && G.Inv(s.global) && w < |s.workers| && s.workers[w].Getting? && GetCan(s, w)
    ensures ThreadsOk(GetStep(s, w))
  {
    hide D.ThiefCan, D.ThiefStep, StealAct, Tame;
    TameGet(s, w);
    var t := GetStep(s, w);
    assert WorkerOk(t, w);
    OthersOk(s, t, w);
  }

  lemma OkSleep(s: State, w: nat, act: WorkerAct)
    requires ThreadsOk(s) && G.Inv(s.global) && w < |s.workers| && SleepCan(s, w, act)
    ensures ThreadsOk(SleepStep(s, w, act))
  {
    hide D.ThiefCan, D.ThiefStep, Tame;
    TameSleep(s, w, act);
    var t := SleepStep(s, w, act);
    assert WorkerOk(t, w);
    assert t.global == s.global;
    OthersOk(s, t, w);
  }

  lemma OkClear(s: State, w: nat)
    requires ThreadsOk(s) && w < |s.workers| && s.workers[w].Clearing? && ClearCan(s, w)
    ensures ThreadsOk(ClearStep(s, w))
  {
    hide Tame;
    TameClear(s, w);
    assert WorkerOk(s, w);
    var t := ClearStep(s, w);
    assert WorkerOk(t, w);
    assert t.global == s.global;
    OthersOk(s, t, w);
  }

  /** One deque may make one of its own steps, and the global queue one of its. */
  ghost predicate QueueMoves(s: State, t: State) {
    && (t.global == s.global || exists a :: G.Enabled(s.global, a) && t.global == G.Apply(s.global, a))
    && |t.deques| == |s.deques|
    && forall j :: 0 <= j < |s.deques| ==>
         t.deques[j] == s.deques[j]
         || exists a :: D.Enabled(s.deques[j], a) && t.deques[j] == D.Apply(s.deques[j], a)
  }

  lemma QueuesKept(s: State, t: State)
    requires QueuesOk(s) && QueueMoves(s, t)
    ensures QueuesOk(t)
  {
    hide D.Inv, D.Enabled, D.Apply, G.Inv, G.Enabled, G.Apply;
    if t.global != s.global {
      var a :| G.Enabled(s.global, a) && t.global == G.Apply(s.global, a);
      G.InvStep(s.global, a);
    }
    forall j | 0 <= j < |t.deques| ensures D.Inv(t.deques[j]) {
      if t.deques[j] != s.deques[j] {
        var a :| D.Enabled(s.deques[j], a) && t.deques[j] == D.Apply(s.deques[j], a);
        D.InvStep(s.deques[j], a);
      }
    }
  }

  lemma DequeMoves(s: State, t: State, j: nat, a: D.Action)
    requires j < |s.deques| && D.Enabled(s.deques[j], a) && t.global == s.global
    requires t.deques == s.deques[j := D.Apply(s.deques[j], a)]
    ensures QueueMoves(s, t)
  {
    hide D.Enabled, D.Apply;
  }

  lemma GlobalMoves(s: State, t: State, a: G.Action)
    requires G.Enabled(s.global, a) && t.global == G.Apply(s.global, a) && t.deques == s.deques
    ensures QueueMoves(s, t)
  {
  }

  lemma MovesAwake(s: State, w: nat, act: WorkerAct)
    requires Sized(s) && w < |s.workers| && AwakeCan(s, w, act)
    ensures QueueMoves(s, AwakeStep(s, w, act))
  {
    hide D.OwnerCan, D.OwnerStep, PopAct, QueueMoves;
    var t := AwakeStep(s, w, act);
    match s.workers[w]
    case Top => DequeMoves(s, t, w, D.ByTheOwner(D.StartPop));
    case Popping => DequeMoves(s, t, w, D.ByTheOwner(PopAct(s.deques[w].owner)));
    case Running => if act.Schedule? { DequeMoves(s, t, w, D.ByTheOwner(D.Enqueue(act.op))); } else { NothingMoves(s, t); }
    case Enqueuing => DequeMoves(s, t, w, D.ByTheOwner(act.o));
    case Refused(op) => GlobalMoves(s, t, G.Push(op));
    case _ => NothingMoves(s, t);
  }

  lemma NothingMoves(s: State, t: State)
    requires t.global == s.global && t.deques == s.deques
    ensures QueueMoves(s, t)
  {
  }

  lemma MovesGet(s: State, w: nat)
    requires Sized(s) && w < |s.workers| && s.workers[w].Getting? && GetCan(s, w)
    ensures QueueMoves(s, GetStep(s, w))
  {
    hide StealAct, GlobalAct, QueueMoves;
    var t := GetStep(s, w);
    match s.workers[w].get
    case FromGlobal => GlobalMoves(s, t, GlobalAct(s, w));
    case StealAt(i, _, _) =>
      if s.deques[i].holder.Free? { DequeMoves(s, t, i, D.ByAThief(D.Lock(w))); } else { NothingMoves(s, t); }
    case Stealing(i, _, _) => DequeMoves(s, t, i, D.ByAThief(StealAct(s.deques[i].holder)));
  }

  lemma MovesSleep(s: State, w: nat, act: WorkerAct)
    requires Sized(s) && w < |s.workers| && SleepCan(s, w, act)
    ensures QueueMoves(s, SleepStep(s, w, act))
  {
    hide QueueMoves;
    var t := SleepStep(s, w, act);
    match s.workers[w]
    case Checking(LookAt(i)) => DequeMoves(s, t, i, D.ByAThief(D.Lock(w)));
    case Checking(LookingIn(i)) =>
      DequeMoves(s, t, i, D.ByAThief(if s.deques[i].holder.thief.Entered? then D.LoadTail else D.Peek));
    case _ => NothingMoves(s, t);
  }

  lemma ThiefLeavesOwner(d: D.State, a: D.ThiefAct)
    requires D.ThiefCan(d, a)
    ensures var e := D.ThiefStep(d, a); e.owner == d.owner && e.missed == d.missed && (e.q != [] ==> d.q != [])
  {
  }

  lemma DrainedBySteal(s: State, t: State, w: nat, i: nat, a: D.ThiefAct)
    requires Drained(s) && w < |s.workers| && i < |s.deques| && D.ThiefCan(s.deques[i], a)
    requires |t.workers| == |s.workers| && t.workers == s.workers[w := t.workers[w]]
    requires t.deques == s.deques[i := D.ThiefStep(s.deques[i], a)]
    requires PastPop(s.workers[w])
    ensures Drained(t)
  {
    hide D.ThiefCan, D.ThiefStep;
    ThiefLeavesOwner(s.deques[i], a);
  }

  lemma DrainedSame(s: State, t: State, w: nat)
    requires Drained(s) && w < |s.workers| && t.deques == s.deques
    requires |t.workers| == |s.workers| && t.workers == s.workers[w := t.workers[w]]
    requires PastPop(t.workers[w]) ==> PastPop(s.workers[w])
    ensures Drained(t)
  {
  }

  lemma DrainedByOwner(s: State, t: State, w: nat, d: D.State)
    requires Drained(s) && w < |s.workers| && t.deques == s.deques[w := d]
    requires |t.workers| == |s.workers| && t.workers == s.workers[w := t.workers[w]]
    requires PastPop(t.workers[w]) ==> d.owner.Idle? && (d.q != [] ==> d.missed)
    ensures Drained(t)
  {
  }

  lemma PopNothing(d: D.State)
    requires D.Inv(d)
    ensures D.OwnerCan(d, D.StartPop) && D.OwnerStep(d, D.StartPop).owner.Idle? ==>
      (D.OwnerStep(d, D.StartPop).q != [] ==> D.OwnerStep(d, D.StartPop).missed)
    ensures D.OwnerCan(d, D.RestoreHead) ==>
      D.OwnerStep(d, D.RestoreHead).owner.Idle? && D.OwnerStep(d, D.RestoreHead).q == []
  {
  }

  lemma DrainedAwake(s: State, w: nat, act: WorkerAct)
    requires Drained(s) && QueuesOk(s) && Sized(s) && w < |s.workers| && AwakeCan(s, w, act)
    ensures Drained(AwakeStep(s, w, act))
  {
    hide D.OwnerStep, D.Inv, Drained, D.OwnerCan;
    var t := AwakeStep(s, w, act);
    var d := s.deques[w];
    match s.workers[w]
    case Top => PopNothing(d); DrainedByOwner(s, t, w, D.OwnerStep(d, D.StartPop));
    case Popping => PopNothing(d); DrainedByOwner(s, t, w, D.OwnerStep(d, PopAct(d.owner)));
    case Running =>
      if act.Schedule? { DrainedByOwner(s, t, w, D.OwnerStep(d, D.Enqueue(act.op))); } else { DrainedSame(s, t, w); }
    case Enqueuing => DrainedByOwner(s, t, w, D.OwnerStep(d, act.o));
    case _ => DrainedSame(s, t, w);
  }

  lemma DrainedGet(s: State, w: nat)
    requires Drained(s) && Sized(s) && w < |s.workers| && s.workers[w].Getting? && GetCan(s, w)
    ensures Drained(GetStep(s, w))
  {
    hide Drained, GlobalAct;
    var t := GetStep(s, w);
    match s.workers[w].get
    case FromGlobal => DrainedSame(s, t, w);
    case StealAt(i, _, _) =>
      if s.deques[i].holder.Free? { DrainedBySteal(s, t, w, i, D.Lock(w)); } else { DrainedSame(s, t, w); }
    case Stealing(i, _, _) => DrainedBySteal(s, t, w, i, StealAct(s.deques[i].holder));
  }

  lemma DrainedSleep(s: State, w: nat, act: WorkerAct)
    requires Drained(s) && Sized(s) && w < |s.workers| && SleepCan(s, w, act)
    ensures Drained(SleepStep(s, w, act))
  {
    hide Drained;
    var t := SleepStep(s, w, act);
    match s.workers[w]
    case Checking(LookAt(i)) => DrainedBySteal(s, t, w, i, D.Lock(w));
    case Checking(LookingIn(i)) =>
      DrainedBySteal(s, t, w, i, if s.deques[i].holder.thief.Entered? then D.LoadTail else D.Peek);
    case _ => DrainedSame(s, t, w);
  }

  // ---------------------------------------------------------------- one step of a worker

  lemma TameFrame(s: State, t: State, w: nat)
    requires Sized(s) && w < |s.workers| && Tame(s, t, w)
    ensures Sized(t) && |t.workers| == |s.workers| && t.workers == s.workers[w := t.workers[w]] && t.clients == s.clients
  {
  }

  lemma WatchedKept(s: State, t: State, w: nat)
    requires Sized(s) && w < |s.workers| && Tame(s, t, w) && Watched(s) && ThreadsOk(t)
    ensures Watched(t)
  {
    hide Tame, ThreadsOk, SomeoneForTail, SomeoneForHead;
    TameFrame(s, t, w);
    WatchedTail(s, t, w);
    WatchedHead(s, t, w);
  }

  /** The parts of the invariant that follow from a tame, balanced step on the queues. */
  lemma Assemble(s: State, t: State, w: nat)
    requires Inv(s) && w < |s.workers| && Sized(t) && |t.workers| == |s.workers|
    requires ThreadsOk(t) && Tame(s, t, w) && Balanced(s, t, w) && QueueMoves(s, t) && Drained(t)
    ensures Inv(t)
  {
    hide Tame, Balanced, QueueMoves, Drained, ThreadsOk, QueuesOk, Accounted, Covered, Watched;
    InvParts(s);
    QueuesKept(s, t);
    TameFrame(s, t, w);
    AccountedKept(s, t, w);
    CoveredKept(s, t, w);
    WatchedKept(s, t, w);
  }

  lemma WorkerKeepsInv(s: State, w: nat, act: WorkerAct)
    requires Inv(s) && WorkerCan(s, w, act)
    ensures Inv(WorkerStep(s, w, act))
  {
    hide AwakeCan, AwakeStep, GetCan, GetStep, SleepCan, SleepStep, ClearCan, ClearStep;
    hide ThreadsOk, QueuesOk, Drained, Accounted, Covered, Watched, Tame, Balanced, QueueMoves;
    var p, t := s.workers[w], WorkerStep(s, w, act);
    InvParts(s);
    if p.Getting? {
      TameGet(s, w); TameFrame(s, t, w); BalancedGet(s, w); OkGet(s, w); MovesGet(s, w); DrainedGet(s, w);
    } else if p.Clearing? {
      ClearFacts(s, w);
    } else if GoingToSleep(p) {
      TameSleep(s, w, act); TameFrame(s, t, w); BalancedSleep(s, w, act); OkSleep(s, w, act); MovesSleep(s, w, act); DrainedSleep(s, w, act);
    } else {
      TameAwake(s, w, act); TameFrame(s, t, w); BalancedAwake(s, w, act); OkAwake(s, w, act); MovesAwake(s, w, act); DrainedAwake(s, w, act);
    }
    Assemble(s, t, w);
  }

  lemma InvParts(s: State)
    requires Inv(s)
    ensures Sized(s) && |s.workers| >= 1 && G.Inv(s.global)
    ensures forall w :: 0 <= w < |s.workers| ==> WorkerOk(s, w)
  {
  }

  lemma ClearFacts(s: State, w: nat)
    requires Inv(s) && w < |s.workers| && s.workers[w].Clearing? && ClearCan(s, w)
    ensures var t := ClearStep(s, w);
      Sized(t) && |t.workers| == |s.workers| && Tame(s, t, w) && Balanced(s, t, w) && ThreadsOk(t) && QueueMoves(s, t) && Drained(t)
  {
    hide Balanced, QueueMoves, Tame, QueuesOk, Accounted, Covered, Watched;
    var t := ClearStep(s, w);
    TameClear(s, w); TameFrame(s, t, w);
    assert WorkerOk(s, w);
    BalancedClear(s, w); OkClear(s, w);
    NothingMoves(s, t);
    DrainedSame(s, t, w);
  }

  // ---------------------------------------------------------------- one step of a client

  /** A client that finds the counter at zero can go: some other thread is still on its way. */
  lemma CounterAtZero(s: State, c: nat)
    requires Inv(s) && s.count == 0 && c < |s.clients| && !ClientClaims(s.clients[c])
    ensures (exists v :: 0 <= v < |s.workers| && (!LateForTail(s.workers[v]) || Roused(s, v)))
      || exists d :: 0 <= d < |s.clients| && d != c && s.clients[d].ClientWaking?
  {
    hide QueuesOk, Drained, Watched, Roused;
    if Count(WorkerClaims, s.workers) > 0 {
      CountSome(WorkerClaims, s.workers);
    } else if Count(ClientClaims, s.clients) > 0 {
      CountSome(ClientClaims, s.clients);
    } else if Count(Uncounted, s.workers) > 0 {
      CountSome(Uncounted, s.workers);
    } else {
      CountNotAll(Up, s.flags);
      var v :| 0 <= v < |s.flags| && !Up(s.flags[v]);
      if LateForTail(s.workers[v]) { assert PreSleep(s.workers[v]); }
    }
  }

  /** A client's step, as the workers see it. */
  ghost predicate ClientTame(s: State, t: State, c: nat)
    requires Sized(s) && c < |s.clients|
  {
    && t.workers == s.workers && t.deques == s.deques && Sized(t)
    && |t.clients| == |s.clients| && t.clients == s.clients[c := t.clients[c]]
    && (forall v :: 0 <= v < |s.workers| && s.events[v] ==> t.events[v])
    && (forall v :: 0 <= v < |s.workers| && ClientSignals(s.clients[c], v) ==> t.events[v])
    && (forall v :: 0 <= v < |s.workers| && s.flags[v] && !t.flags[v] ==> ClientSignals(t.clients[c], v))
    && (forall v :: 0 <= v < |s.workers| && t.flags[v] ==> s.flags[v])
    && t.global.mutex == s.global.mutex && t.global.head == s.global.head
    && (t.global == s.global || t.clients[c].ClientWaking?)
  }

  lemma ClientIsTame(s: State, c: nat)
    requires Sized(s) && ClientCan(s, c)
    ensures ClientTame(s, ClientStep(s, c), c)
  {
  }

  lemma RousedKeptByClient(s: State, t: State, c: nat, v: nat)
    requires Sized(s) && c < |s.clients| && ClientTame(s, t, c) && v < |s.workers| && Roused(s, v)
    ensures Roused(t, v)
  {
    if !s.events[v] {
      if i :| 0 <= i < |s.workers| && WorkerSignals(s.workers[i], v) {
        assert WorkerSignals(t.workers[i], v);
      } else {
        var d :| 0 <= d < |s.clients| && ClientSignals(s.clients[d], v);
        assert d != c ==> ClientSignals(t.clients[d], v);
      }
    }
  }

  lemma CoveredByClient(s: State, t: State, c: nat)
    requires Sized(s) && c < |s.clients| && ClientTame(s, t, c) && Covered(s)
    ensures Covered(t)
  {
    forall v | 0 <= v < |t.workers| && PreSleep(t.workers[v]) && !t.flags[v] ensures Roused(t, v) {
      if s.flags[v] {
        assert ClientSignals(t.clients[c], v);
      } else {
        RousedKeptByClient(s, t, c, v);
      }
    }
  }

  lemma AccountedByClient(s: State, c: nat)
    requires Sized(s) && ClientCan(s, c) && Accounted(s)
    ensures Accounted(ClientStep(s, c))
  {
    var t := ClientStep(s, c);
    CountUpdate(ClientClaims, s.clients, c, t.clients[c]);
    if s.clients[c].ClientWaking? && s.clients[c].wake.Take? {
      CountUpdate(Up, s.flags, s.clients[c].wake.i, false);
    }
  }

  /** A client that stops being responsible leaves someone who is. */
  lemma WatchedByClient(s: State, c: nat)
    requires Inv(s) && ClientCan(s, c)
    ensures ClientStep(s, c).clients[c].ClientWaking? || SomeoneLeft(s, ClientStep(s, c))
  {
    var t := ClientStep(s, c);
    if !t.clients[c].ClientWaking? {
      if s.clients[c].wake.Signal? {
        assert t.events[s.clients[c].wake.i];
        assert Roused(t, s.clients[c].wake.i);
      } else {
        assert s.count == 0;
        CounterAtZero(s, c);
        LeftBehind(s, c);
      }
    }
  }

  ghost predicate SomeoneLeft(s: State, t: State) {
    && Sized(t)
    && ((exists v :: 0 <= v < |t.workers| && (!LateForTail(t.workers[v]) || Roused(t, v)))
        || exists d :: 0 <= d < |t.clients| && t.clients[d].ClientWaking?)
  }

  lemma LeftBehind(s: State, c: nat)
    requires Sized(s) && ClientCan(s, c)
    requires (exists v :: 0 <= v < |s.workers| && (!LateForTail(s.workers[v]) || Roused(s, v)))
      || exists d :: 0 <= d < |s.clients| && d != c && s.clients[d].ClientWaking?
    ensures SomeoneLeft(s, ClientStep(s, c))
  {
    hide Roused;
    var t := ClientStep(s, c);
    ClientIsTame(s, c);
    if v :| 0 <= v < |s.workers| && (!LateForTail(s.workers[v]) || Roused(s, v)) {
      if LateForTail(s.workers[v]) { RousedKeptByClient(s, t, c, v); }
      assert !LateForTail(t.workers[v]) || Roused(t, v);
    } else {
      var d :| 0 <= d < |s.clients| && d != c && s.clients[d].ClientWaking?;
      assert t.clients[d].ClientWaking?;
    }
  }

  lemma WatchedAfterClient(s: State, c: nat)
    requires Inv(s) && ClientCan(s, c)
    ensures Watched(ClientStep(s, c))
  {
    hide Roused, QueuesOk, Drained, Accounted, Covered;
    var t := ClientStep(s, c);
    ClientIsTame(s, c);
    WatchedByClient(s, c);
    if !t.clients[c].ClientWaking? && SomeoneLeft(s, t) {
      if v :| 0 <= v < |t.workers| && (!LateForTail(t.workers[v]) || Roused(t, v)) {
        assert !LateForHead(t.workers[v]) || Roused(t, v);
      }
    }
  }

  lemma OkAfterClient(s: State, c: nat)
    requires ThreadsOk(s) && ClientCan(s, c)
    ensures ThreadsOk(ClientStep(s, c))
  {
    var t := ClientStep(s, c);
    ClientIsTame(s, c);
    forall v | 0 <= v < |t.workers| ensures WorkerOk(t, v) { assert WorkerOk(s, v); }
  }

  lemma ClientKeepsInv(s: State, c: nat)
    requires Inv(s) && ClientCan(s, c)
    ensures Inv(ClientStep(s, c))
  {
    hide ThreadsOk, QueuesOk, Drained, Accounted, Covered, Watched, QueueMoves;
    var t := ClientStep(s, c);
    InvParts(s);
    OkAfterClient(s, c);
    ClientIsTame(s, c);
    CoveredByClient(s, t, c);
    AccountedByClient(s, c);
    WatchedAfterClient(s, c);
    if s.clients[c].Pushing? { GlobalMoves(s, t, G.Push(s.clients[c].op)); } else { NothingMoves(s, t); }
    QueuesKept(s, t);
    DrainedSame(s, t, 0);
  }

  lemma NewClientKeepsInv(s: State, op: Op)
    requires Inv(s)
    ensures Inv(Apply(s, NewClient(op)))
  {
    hide QueuesOk;
    var t := Apply(s, NewClient(op));
    CountAppend(ClientClaims, s.clients, Pushing(op));
    forall v | 0 <= v < |t.workers| ensures WorkerOk(t, v) { assert WorkerOk(s, v); }
    forall v | 0 <= v < |t.workers| && Roused(s, v) ensures Roused(t, v) { MoreClients(s, t, op, v); }
    WatchedNewClient(s, t, op);
    assert QueuesOk(t) by { NothingMoves(s, t); QueuesKept(s, t); }
  }

  lemma MoreClients(s: State, t: State, op: Op, v: nat)
    requires Sized(s) && v < |s.workers| && t == s.(clients := s.clients + [Pushing(op)]) && Roused(s, v)
    ensures Roused(t, v)
  {
    if !s.events[v] && !(exists i :: 0 <= i < |s.workers| && WorkerSignals(s.workers[i], v)) {
      var c :| 0 <= c < |s.clients| && ClientSignals(s.clients[c], v);
      assert ClientSignals(t.clients[c], v);
    }
  }

  lemma WatchedNewClient(s: State, t: State, op: Op)
    requires Sized(s) && Watched(s) && t == s.(clients := s.clients + [Pushing(op)])
    requires forall v :: 0 <= v < |s.workers| && Roused(s, v) ==> Roused(t, v)
    ensures Watched(t)
  {
    hide Roused;
    forall c | 0 <= c < |s.clients| && s.clients[c].ClientWaking? ensures t.clients[c].ClientWaking? {}
    if s.global.tail != [] && !(exists c :: 0 <= c < |s.clients| && s.clients[c].ClientWaking?) {
      var v :| 0 <= v < |s.workers| && (!LateForTail(s.workers[v]) || Roused(s, v));
      assert !LateForTail(t.workers[v]) || Roused(t, v);
    }
    if G.Pending(s.global) != [] && !(exists c :: 0 <= c < |s.clients| && s.clients[c].ClientWaking?) {
      var v :| 0 <= v < |s.workers| && (!LateForHead(s.workers[v]) || Roused(s, v));
      assert !LateForHead(t.workers[v]) || Roused(t, v);
    }
  }

  // ---------------------------------------------------------------- every run

  lemma InitInv(s: State)
    requires Init(s)
    ensures Inv(s)
  {
    CountNone(Up, s.flags);
    CountNone(WorkerClaims, s.workers);
    CountNone(Uncounted, s.workers);
  }

  lemma InvStep(s: State, a: Action)
    requires Inv(s) && Enabled(s, a)
    ensures Inv(Apply(s, a))
  {
    hide Inv, WorkerCan, WorkerStep, ClientCan, ClientStep;
    match a
    case ByWorker(w, act) => WorkerKeepsInv(s, w, act);
    case ByClient(c) => ClientKeepsInv(s, c);
    case NewClient(op) => NewClientKeepsInv(s, op);
  }

  lemma {:induction false} RunKeepsInv(trace: seq<State>, acts: seq<Action>, k: nat)
    requires Run(trace, acts) && k <= |acts|
    ensures Inv(trace[k])
  {
    hide Inv, Enabled, Apply, Init;
    if k == 0 {
      InitInv(trace[0]);
    } else {
      RunKeepsInv(trace, acts, k - 1);
      InvStep(trace[k - 1], acts[k - 1]);
    }
  }

  // ---------------------------------------------------------------- main results

  /** Wake claims are always backed: in every run there are at least as many raised flags as counted
      sleepers, outstanding claims and threads about to count themselves.  So the search loop of
      wake_one_thread always has a raised flag left to find. */
  lemma WakeClaimsBacked(trace: seq<State>, acts: seq<Action>, k: nat)
    requires Run(trace, acts) && k <= |acts|
    ensures Backing(trace[k]) <= Flags(trace[k])
    ensures (exists w :: 0 <= w < |trace[k].workers| && WorkerClaims(trace[k].workers[w]))
      || (exists c :: 0 <= c < |trace[k].clients| && ClientClaims(trace[k].clients[c]))
      ==> exists v :: 0 <= v < |trace[k].flags| && trace[k].flags[v]
  {
    hide ThreadsOk, QueuesOk, Drained, Covered, Watched;
    RunKeepsInv(trace, acts, k);
    var s := trace[k];
    if w :| 0 <= w < |s.workers| && WorkerClaims(s.workers[w]) { CountOne(WorkerClaims, s.workers, w); }
    if c :| 0 <= c < |s.clients| && ClientClaims(s.clients[c]) { CountOne(ClientClaims, s.clients, c); }
    if Flags(s) > 0 {
      CountSome(Up, s.flags);
      var v :| 0 <= v < |s.flags| && Up(s.flags[v]);
      assert s.flags[v];
    }
  }

  /** The global queue never stalls: in every run, when every worker is blocked with its event unset and no
      client has a wake-up left to do, the global queue is empty.  An operation can then only be in the
      deque of a worker whose last try_local_pop was misled by a thief's speculative move of tail. */
  lemma GlobalQueueNeverStalls(trace: seq<State>, acts: seq<Action>, k: nat)
    requires Run(trace, acts) && k <= |acts| && Asleep(trace[k])
    ensures trace[k].global.tail == [] && G.Pending(trace[k].global) == []
    ensures forall w :: 0 <= w < |trace[k].workers| && trace[k].deques[w].q != [] ==> trace[k].deques[w].missed
  {
    hide QueuesOk, Accounted, Covered;
    RunKeepsInv(trace, acts, k);
    var s := trace[k];
    forall v | 0 <= v < |s.workers| ensures !Roused(s, v) && LateForHead(s.workers[v]) {}
  }

  // ---------------------------------------------------------------- when no operation is stranded at all

  /** Nothing was ever put into a deque. */
  ghost predicate OnlyClients(s: State) {
    && |s.deques| == |s.workers|
    && forall w :: 0 <= w < |s.workers| ==> s.deques[w].q == [] && !s.workers[w].Enqueuing?
  }

  lemma NoPushNoQueue(d: D.State, a: D.Action)
    requires D.Enabled(d, a) && d.q == [] && a != D.ByTheOwner(D.Publish) && a != D.ByTheOwner(D.Install)
    ensures D.Apply(d, a).q == []
  {
  }

  lemma OnlyClientsGet(s: State, w: nat)
    requires OnlyClients(s) && Sized(s) && w < |s.workers| && s.workers[w].Getting? && GetCan(s, w)
    ensures OnlyClients(GetStep(s, w))
  {
    hide D.Enabled, D.Apply, D.ThiefStep, GlobalAct;
    match s.workers[w].get
    case FromGlobal =>
    case StealAt(i, _, _) =>
      if s.deques[i].holder.Free? { Unwrap(s.deques[i], D.Lock(w)); NoPushNoQueue(s.deques[i], D.ByAThief(D.Lock(w))); }
    case Stealing(i, _, _) =>
      Unwrap(s.deques[i], StealAct(s.deques[i].holder));
      NoPushNoQueue(s.deques[i], D.ByAThief(StealAct(s.deques[i].holder)));
  }

  lemma Unwrap(d: D.State, a: D.ThiefAct)
    ensures D.Enabled(d, D.ByAThief(a)) <==> D.ThiefCan(d, a)
    ensures D.ThiefCan(d, a) ==> D.Apply(d, D.ByAThief(a)) == D.ThiefStep(d, a)
  {
  }

  lemma OnlyClientsSleep(s: State, w: nat, act: WorkerAct)
    requires OnlyClients(s) && Sized(s) && w < |s.workers| && SleepCan(s, w, act)
    ensures OnlyClients(SleepStep(s, w, act))
  {
    hide D.Enabled, D.Apply, D.ThiefStep;
    match s.workers[w]
    case Checking(LookAt(i)) => Unwrap(s.deques[i], D.Lock(w)); NoPushNoQueue(s.deques[i], D.ByAThief(D.Lock(w)));
    case Checking(LookingIn(i)) =>
      var a := if s.deques[i].holder.thief.Entered? then D.LoadTail else D.Peek;
      Unwrap(s.deques[i], a);
      NoPushNoQueue(s.deques[i], D.ByAThief(a));
    case _ =>
  }

  lemma OnlyClientsAwake(s: State, w: nat, act: WorkerAct)
    requires OnlyClients(s) && Sized(s) && w < |s.workers| && AwakeCan(s, w, act) && !act.Schedule?
    ensures OnlyClients(AwakeStep(s, w, act))
  {
    hide D.OwnerCan, D.OwnerStep;
    var d := s.deques[w];
    match s.workers[w]
    case Top => PopTakesOnly(d, D.StartPop);
    case Popping => PopTakesOnly(d, PopAct(d.owner));
    case _ =>
  }

  lemma PopTakesOnly(d: D.State, a: D.OwnerAct)
    requires D.OwnerCan(d, a) && !D.Pushes(a) && d.q == []
    ensures D.OwnerStep(d, a).q == []
  {
  }

  lemma OnlyClientsStep(s: State, a: Action)
    requires OnlyClients(s) && Enabled(s, a) && !(a.ByWorker? && a.act.Schedule?)
    ensures OnlyClients(Apply(s, a))
  {
    hide AwakeCan, AwakeStep, GetCan, GetStep, SleepCan, SleepStep;
    match a
    case ByWorker(w, act) =>
      if s.workers[w].Getting? { OnlyClientsGet(s, w); }
      else if s.workers[w].Clearing? { }
      else if GoingToSleep(s.workers[w]) { OnlyClientsSleep(s, w, act); }
      else { OnlyClientsAwake(s, w, act); }
    case ByClient(c) =>
    case NewClient(op) =>
  }

  /** A caller can avoid stranding: when no coroutine running on the pool schedules onto the pool, every run
      that puts all threads to sleep has executed everything that was queued. */
  lemma {:induction false} NoLocalScheduling(trace: seq<State>, acts: seq<Action>, k: nat)
    requires Run(trace, acts) && k <= |acts|
    requires forall i :: 0 <= i < k ==> !(acts[i].ByWorker? && acts[i].act.Schedule?)
    ensures OnlyClients(trace[k])
  {
    hide Enabled, Apply;
    if k > 0 {
      NoLocalScheduling(trace, acts, k - 1);
      OnlyClientsStep(trace[k - 1], acts[k - 1]);
    }
  }

  /** With a single worker there is no thief, so nothing is ever missed. */
  ghost predicate Solo(s: State) {
    && Sized(s) && |s.workers| == 1
    && !s.deques[0].holder.ByThief? && !s.deques[0].missed && D.Inv(s.deques[0])
    && (s.workers[0].Getting? ==> s.workers[0].get.FromGlobal?)
    && (s.workers[0].Checking? ==> s.workers[0].check.LookTail? || s.workers[0].check.LookHead?)
  }

  lemma SoloOwner(d: D.State, a: D.OwnerAct)
    requires D.Inv(d) && D.OwnerCan(d, a) && !d.holder.ByThief? && !d.missed
    ensures D.Inv(D.OwnerStep(d, a)) && !D.OwnerStep(d, a).holder.ByThief? && !D.OwnerStep(d, a).missed
  {
    hide D.Contents, D.History;
    D.InvStep(d, D.ByTheOwner(a));
  }

  lemma SoloStep(s: State, a: Action)
    requires Solo(s) && Enabled(s, a)
    ensures Solo(Apply(s, a))
  {
    hide D.Inv, D.OwnerCan, D.OwnerStep, D.ThiefCan, D.ThiefStep, PopAct;
    if a.ByWorker? && !s.workers[0].Getting? && !s.workers[0].Clearing? && !GoingToSleep(s.workers[0]) {
      SoloAwake(s, a.act);
    }
  }

  lemma SoloAwake(s: State, act: WorkerAct)
    requires Solo(s) && AwakeCan(s, 0, act)
    ensures Solo(AwakeStep(s, 0, act))
  {
    hide D.Inv, D.OwnerCan, D.OwnerStep, PopAct;
    var d := s.deques[0];
    match s.workers[0]
    case Top => SoloOwner(d, D.StartPop);
    case Popping => SoloOwner(d, PopAct(d.owner));
    case Running => if act.Schedule? { SoloOwner(d, D.Enqueue(act.op)); }
    case Enqueuing => SoloOwner(d, act.o);
    case _ =>
  }

  lemma {:induction false} SoloRun(trace: seq<State>, acts: seq<Action>, k: nat)
    requires Run(trace, acts) && k <= |acts| && |trace[0].workers| == 1
    ensures Solo(trace[k])
  {
    hide Enabled, Apply;
    if k > 0 {
      SoloRun(trace, acts, k - 1);
      SoloStep(trace[k - 1], acts[k - 1]);
    }
  }

  /** Nothing at all is stranded in a pool of one worker, nor when only clients schedule. */
  lemma NothingStranded(trace: seq<State>, acts: seq<Action>, k: nat)
    requires Run(trace, acts) && k <= |acts| && Asleep(trace[k])
    requires |trace[0].workers| == 1
      || forall i :: 0 <= i < k ==> !(acts[i].ByWorker? && acts[i].act.Schedule?)
    ensures trace[k].global.tail == [] && G.Pending(trace[k].global) == []
    ensures forall w :: 0 <= w < |trace[k].workers| ==> trace[k].deques[w].q == []
  {
    hide Enabled, Apply;
    GlobalQueueNeverStalls(trace, acts, k);
    if |trace[0].workers| == 1 { SoloRun(trace, acts, k); } else { NoLocalScheduling(trace, acts, k); }
  }
}
