/** static_thread_pool (lib/static_thread_pool.cpp:374-497, 521-760): any number of workers, each with
    the deque of module Deque, one global queue, and the sleep/wake protocol built on a flag and an
    auto-reset event per worker and one counter.  Any number of client threads schedule operations
    from outside.  One step per atomic access; shutdown is not part of this model. */
module Pool {
  import D = Deque
  import G = GlobalQueue

  type Op = nat

  /** wake_one_thread */
  datatype Wake =
    | ReadCount               // about to load m_sleepingThreadCount
    | Claim(seen: nat)        // about to CAS seen -> seen - 1
    | Scan(i: nat)            // has claimed a wake-up; about to load flag i
    | Take(i: nat)            // saw flag i raised; about to exchange it with false
    | Signal(i: nat)          // lowered flag i; about to set event i

  datatype Mode = AfterPop | Spinning | Sleepy   // who called tryGetRemote

  datatype Get =
    | FromGlobal                                             // try_global_dequeue
    | StealAt(i: nat, busy: bool, second: bool)              // about to lock deque i
    | Stealing(i: nat, busy: bool, second: bool)             // inside try_steal on deque i

  /** has_any_queued_work_for */
  datatype Check = LookTail | LookHead | LookAt(i: nat) | LookingIn(i: nat)

  /** try_clear_intent_to_sleep */
  datatype Clear =
    | CountFirst | ClaimSelf(seen: nat) | LoadOwn | TakeOwn | LoadOther(i: nat) | TakeOther(i: nat) | SignalTo(i: nat)

  datatype Worker =
    | Top                        // about to call try_local_pop
    | Popping                    // inside it
    | Running                    // a coroutine runs on this worker
    | Enqueuing                  // inside try_local_enqueue
    | Refused(op: Op)            // about to push to the global queue
    | Waking(wake: Wake)
    | Getting(mode: Mode, get: Get)
    | Spin
    | Notified                   // raised its flag; about to increment the count
    | Checking(check: Check)
    | AtWait                     // in m_wakeUpEvent.wait()
    | Clearing(op: Op, clear: Clear) // has an operation in hand: withdrawing its intent to sleep
    | Starting(op: Op)           // about to resume the operation in hand

  datatype Client = Pushing(op: Op) | ClientWaking(wake: Wake) | Done

  /** `resumed` is history: the operations whose coroutines were resumed, in order. */
  datatype State = State(
    deques: seq<D.State>, global: G.State,
    flags: seq<bool>, events: seq<bool>, count: nat,
    workers: seq<Worker>, clients: seq<Client>, resumed: seq<Op>)

  datatype WorkerAct = Go | Schedule(op: Op) | Finish | Rest | Own(o: D.OwnerAct)

  datatype Action = ByWorker(w: nat, act: WorkerAct) | ByClient(c: nat) | NewClient(op: Op)

  // ---------------------------------------------------------------- small moves

  function Put(s: State, w: nat, p: Worker): State
    requires w < |s.workers|
  {
    s.(workers := s.workers[w := p])
  }

  function PutDeque(s: State, j: nat, d: D.State): State
    requires j < |s.deques|
  {
    s.(deques := s.deques[j := d])
  }

  /** The next index, from i on, that is not the worker's own. */
  function Other(w: nat, i: nat): nat { if i == w then i + 1 else i }

  function AfterNone(mode: Mode): Worker { if mode.Sleepy? then AtWait else Spin }
  function AfterOp(mode: Mode, op: Op): Worker { if mode.Sleepy? then Clearing(op, CountFirst) else Starting(op) }

  function CheckFrom(n: nat, w: nat, i: nat): Worker {
    if Other(w, i) < n then Checking(LookAt(Other(w, i))) else AtWait
  }

  function StealFrom(n: nat, w: nat, mode: Mode, i: nat, busy: bool, second: bool): Worker {
    if Other(w, i) < n then Getting(mode, StealAt(Other(w, i), busy, second))
    else if busy && !second && Other(w, 0) < n then Getting(mode, StealAt(Other(w, 0), busy, true))
    else AfterNone(mode)
  }

  function ClearFrom(n: nat, w: nat, op: Op, i: nat): Worker {
    if Other(w, i) < n then Clearing(op, LoadOther(Other(w, i))) else Starting(op)
  }

  function Wrapped(n: nat, i: nat): nat { if i < n then i else 0 }

  // ---------------------------------------------------------------- wake_one_thread

  predicate WakeOk(s: State, k: Wake) {
    k.ReadCount? || k.Claim? || (k.i < |s.flags| && k.i < |s.events|)
  }

  function WakeShared(s: State, k: Wake): State
    requires WakeOk(s, k)
  {
    match k
    case ReadCount => s
    case Claim(seen) => if s.count == seen && seen > 0 then s.(count := seen - 1) else s
    case Scan(_) => s
    case Take(i) => s.(flags := s.flags[i := false])
    case Signal(i) => s.(events := s.events[i := true])
  }

  datatype Next = Ended | More(wake: Wake)

  function WakeNext(s: State, k: Wake): Next
    requires WakeOk(s, k)
  {
    match k
    case ReadCount => if s.count == 0 then Ended else More(Claim(s.count))
    case Claim(seen) =>
      if s.count == seen && seen > 0 then More(Scan(0))
      else if s.count == 0 then Ended else More(Claim(s.count))
    case Scan(i) => if s.flags[i] then More(Take(i)) else More(Scan(Wrapped(|s.flags|, i + 1)))
    case Take(i) => if s.flags[i] then More(Signal(i)) else More(Scan(Wrapped(|s.flags|, i + 1)))
    case Signal(_) => Ended
  }

  // ---------------------------------------------------------------- clients

  predicate ClientCan(s: State, c: nat) {
    && c < |s.clients|
    && match s.clients[c]
       case Pushing(_) => true
       case ClientWaking(k) => WakeOk(s, k)
       case Done => false
  }

  function ClientStep(s: State, c: nat): State
    requires ClientCan(s, c)
  {
    match s.clients[c]
    case Pushing(op) => s.(global := G.Apply(s.global, G.Push(op)), clients := s.clients[c := ClientWaking(ReadCount)])
    case ClientWaking(k) =>
      var next := match WakeNext(s, k) case Ended => Done case More(k') => ClientWaking(k');
      WakeShared(s, k).(clients := s.clients[c := next])
    case Done => s
  }

  // ---------------------------------------------------------------- a worker awake

  predicate Sized(s: State) {
    |s.deques| == |s.workers| && |s.flags| == |s.workers| && |s.events| == |s.workers|
  }

  /** The step try_local_pop makes next. */
  function PopAct(o: D.Owner): D.OwnerAct {
    match o
    case PopAim(_) => D.LowerHead
    case PopStored(_) => D.LookTail
    case PopRaced(_) => D.LockRace
    case PopLocked(_) => D.LookAgain
    case PopLost(_) => D.RestoreHead
    case PopWon(_, _) => D.ReadPopped
    case _ => D.StartPop
  }

  predicate AwakeCan(s: State, w: nat, act: WorkerAct)
    requires Sized(s) && w < |s.workers|
  {
    match s.workers[w]
    case Top => act.Go? && D.OwnerCan(s.deques[w], D.StartPop)
    case Popping => act.Go? && !s.deques[w].owner.Idle? && D.OwnerCan(s.deques[w], PopAct(s.deques[w].owner))
    case Starting(_) => act.Go?
    case Running => act.Finish? || (act.Schedule? && D.OwnerCan(s.deques[w], D.Enqueue(act.op)))
    case Enqueuing => act.Own? && D.Pushes(act.o) && !act.o.Enqueue? && D.OwnerCan(s.deques[w], act.o)
    case Refused(_) => act.Go?
    case Waking(k) => act.Go? && WakeOk(s, k)
    case _ => false
  }

  function AwakeStep(s: State, w: nat, act: WorkerAct): State
    requires Sized(s) && w < |s.workers| && AwakeCan(s, w, act)
  {
    var d := s.deques[w];
    match s.workers[w]
    case Top =>
      var d' := D.OwnerStep(d, D.StartPop);
      Put(PutDeque(s, w, d'), w, if d'.owner.Idle? then Getting(AfterPop, FromGlobal) else Popping)
    case Popping =>
      var d' := D.OwnerStep(d, PopAct(d.owner));
      Put(PutDeque(s, w, d'), w,
        if d.owner.PopLost? then Getting(AfterPop, FromGlobal)
        else if d.owner.PopWon? then Starting(D.At(d.buf, d.owner.newHead))
        else Popping)
    case Starting(op) => Put(s.(resumed := s.resumed + [op]), w, Running)
    case Running =>
      if act.Finish? then Put(s, w, Top)
      else
        var d' := D.OwnerStep(d, D.Enqueue(act.op));
        Put(PutDeque(s, w, d'), w, if d'.owner.Idle? then Refused(act.op) else Enqueuing)
    case Enqueuing =>
      var d' := D.OwnerStep(d, act.o);
      Put(PutDeque(s, w, d'), w,
        if act.o.Refuse? then Refused(d.owner.op)
        else if act.o.Publish? || act.o.Install? then Waking(ReadCount) else Enqueuing)
    case Refused(op) => Put(s.(global := G.Apply(s.global, G.Push(op))), w, Waking(ReadCount))
    case Waking(k) =>
      Put(WakeShared(s, k), w, match WakeNext(s, k) case Ended => Running case More(k') => Waking(k'))
    case _ => s
  }

  // ---------------------------------------------------------------- tryGetRemote

  predicate HoldsGlobal(s: State, w: nat) { s.global.mutex.HeldBy? && s.global.mutex.id == w }

  /** The step try_global_dequeue makes next. */
  function GlobalAct(s: State, w: nat): G.Action {
    if !HoldsGlobal(s, w) then G.Lock(w)
    else match s.global.mutex.phase
      case Entered => G.ReadHead
      case SawNoHead => G.ReadTail
      case SawTail => G.TakeTail
      case Have(_) => G.StoreHead
  }

  predicate HoldsDeque(s: State, j: nat, w: nat)
    requires j < |s.deques|
  {
    s.deques[j].holder.ByThief? && s.deques[j].holder.id == w
  }

  function StealAct(h: D.Holder): D.ThiefAct
    requires h.ByThief?
  {
    match h.thief
    case Entered => D.LoadTail
    case TailSeen(_) => D.LoadHead
    case Aiming(_) => D.Advance
    case Advanced(_) => D.LookHead
    case Won(_, _) => D.ReadStolen
    case Lost(_) => D.RestoreTail
  }

  predicate GetCan(s: State, w: nat)
    requires Sized(s) && w < |s.workers| && s.workers[w].Getting?
  {
    match s.workers[w].get
    case FromGlobal => G.Enabled(s.global, GlobalAct(s, w))
    case StealAt(i, busy, second) =>
      i < |s.deques| && |s.deques[i].buf| > 0 && (second ==> s.deques[i].holder.Free?)
    case Stealing(i, busy, second) =>
      i < |s.deques| && HoldsDeque(s, i, w) && D.ThiefCan(s.deques[i], StealAct(s.deques[i].holder))
  }

  function GetStep(s: State, w: nat): State
    requires Sized(s) && w < |s.workers| && s.workers[w].Getting? && GetCan(s, w)
  {
    var n, mode := |s.workers|, s.workers[w].mode;
    match s.workers[w].get
    case FromGlobal =>
      var a := GlobalAct(s, w);
      var g := G.Apply(s.global, a);
      Put(s.(global := g), w,
        if a.StoreHead? then AfterOp(mode, s.global.mutex.phase.list[0])
        else if (a.ReadTail? || a.TakeTail?) && g.mutex.Unlocked? then StealFrom(n, w, mode, 0, false, false)
        else s.workers[w])
    case StealAt(i, busy, second) =>
      if s.deques[i].holder.Free? then
        Put(PutDeque(s, i, D.ThiefStep(s.deques[i], D.Lock(w))), w, Getting(mode, Stealing(i, busy, second)))
      else Put(s, w, StealFrom(n, w, mode, i + 1, true, false))
    case Stealing(i, busy, second) =>
      var a := StealAct(s.deques[i].holder);
      var d := D.ThiefStep(s.deques[i], a);
      Put(PutDeque(s, i, d), w,
        if a.ReadStolen? then AfterOp(mode, D.At(s.deques[i].buf, s.deques[i].holder.thief.tail))
        else if d.holder.Free? then StealFrom(n, w, mode, i + 1, busy, second)
        else s.workers[w])
  }

  // ---------------------------------------------------------------- going to sleep

  predicate SleepCan(s: State, w: nat, act: WorkerAct)
    requires Sized(s) && w < |s.workers|
  {
    match s.workers[w]
    case Spin => act.Go? || act.Rest?
    case Notified => act.Go?
    case Checking(LookTail) => act.Go?
    case Checking(LookHead) => act.Go?
    case Checking(LookAt(i)) => act.Go? && i < |s.deques| && D.ThiefCan(s.deques[i], D.Lock(w))
    case Checking(LookingIn(i)) =>
      act.Go? && i < |s.deques| && HoldsDeque(s, i, w) && |s.deques[i].buf| > 0 &&
      (s.deques[i].holder.thief.Entered? || s.deques[i].holder.thief.TailSeen?)
    case AtWait => act.Go? && s.events[w]
    case _ => false
  }

  function SleepStep(s: State, w: nat, act: WorkerAct): State
    requires Sized(s) && w < |s.workers| && SleepCan(s, w, act)
  {
    var n := |s.workers|;
    match s.workers[w]
    case Spin =>
      if act.Go? then Put(s, w, Getting(Spinning, FromGlobal))
      else Put(s.(flags := s.flags[w := true]), w, if s.flags[w] then Checking(LookTail) else Notified)
    case Notified => Put(s.(count := s.count + 1), w, Checking(LookTail))
    case Checking(LookTail) =>
      Put(s, w, if s.global.tail != [] then Getting(Sleepy, FromGlobal) else Checking(LookHead))
    case Checking(LookHead) =>
      Put(s, w, if s.global.head != [] then Getting(Sleepy, FromGlobal) else CheckFrom(n, w, 0))
    case Checking(LookAt(i)) =>
      Put(PutDeque(s, i, D.ThiefStep(s.deques[i], D.Lock(w))), w, Checking(LookingIn(i)))
    case Checking(LookingIn(i)) =>
      var d := s.deques[i];
      if d.holder.thief.Entered? then PutDeque(s, i, D.ThiefStep(d, D.LoadTail))
      else
        Put(PutDeque(s, i, D.ThiefStep(d, D.Peek)), w,
          if d.head - d.holder.thief.tail > 0 then Getting(Sleepy, FromGlobal) else CheckFrom(n, w, i + 1))
    case AtWait => Put(s.(events := s.events[w := false]), w, Spin)
    case _ => s
  }

  // ---------------------------------------------------------------- clearing the intent to sleep

  predicate ClearCan(s: State, w: nat)
    requires Sized(s) && w < |s.workers| && s.workers[w].Clearing?
  {
    match s.workers[w].clear
    case LoadOther(i) => i < |s.workers|
    case TakeOther(i) => i < |s.workers|
    case SignalTo(i) => i < |s.workers|
    case _ => true
  }

  function ClearStep(s: State, w: nat): State
    requires Sized(s) && w < |s.workers| && s.workers[w].Clearing? && ClearCan(s, w)
  {
    var n, op := |s.workers|, s.workers[w].op;
    match s.workers[w].clear
    case CountFirst => Put(s, w, if s.count == 0 then Starting(op) else Clearing(op, ClaimSelf(s.count)))
    case ClaimSelf(seen) =>
      if s.count == seen && seen > 0 then Put(s.(count := seen - 1), w, Clearing(op, LoadOwn))
      else Put(s, w, if s.count == 0 then Starting(op) else Clearing(op, ClaimSelf(s.count)))
    case LoadOwn => Put(s, w, if s.flags[w] then Clearing(op, TakeOwn) else ClearFrom(n, w, op, 0))
    case TakeOwn =>
      Put(s.(flags := s.flags[w := false]), w,
        if s.flags[w] then Clearing(op, SignalTo(w)) else ClearFrom(n, w, op, 0))
    case LoadOther(i) => Put(s, w, if s.flags[i] then Clearing(op, TakeOther(i)) else ClearFrom(n, w, op, i + 1))
    case TakeOther(i) =>
      Put(s.(flags := s.flags[i := false]), w,
        if s.flags[i] then Clearing(op, SignalTo(i)) else ClearFrom(n, w, op, i + 1))
    case SignalTo(i) => Put(s.(events := s.events[i := true]), w, Starting(op))
  }

  // ---------------------------------------------------------------- the whole pool

  predicate GoingToSleep(p: Worker) { p.Spin? || p.Notified? || p.Checking? || p.AtWait? }

  predicate WorkerCan(s: State, w: nat, act: WorkerAct) {
    && Sized(s) && w < |s.workers|
    && var p := s.workers[w];
       if p.Getting? then act.Go? && GetCan(s, w)
       else if p.Clearing? then act.Go? && ClearCan(s, w)
       else if GoingToSleep(p) then SleepCan(s, w, act)
       else AwakeCan(s, w, act)
  }

  function WorkerStep(s: State, w: nat, act: WorkerAct): State
    requires WorkerCan(s, w, act)
  {
    var p := s.workers[w];
    if p.Getting? then GetStep(s, w)
    else if p.Clearing? then ClearStep(s, w)
    else if GoingToSleep(p) then SleepStep(s, w, act)
    else AwakeStep(s, w, act)
  }

  predicate Enabled(s: State, a: Action) {
    match a
    case ByWorker(w, act) => WorkerCan(s, w, act)
    case ByClient(c) => ClientCan(s, c)
    case NewClient(_) => true
  }

  function Apply(s: State, a: Action): State
    requires Enabled(s, a)
  {
    match a
    case ByWorker(w, act) => WorkerStep(s, w, act)
    case ByClient(c) => ClientStep(s, c)
    case NewClient(op) => s.(clients := s.clients + [Pushing(op)])
  }

  ghost predicate Init(s: State) {
    && Sized(s) && |s.workers| >= 1 && s.clients == [] && s.count == 0 && G.Init(s.global) && s.resumed == []
    && forall w :: 0 <= w < |s.workers| ==> s.workers[w] == Top && !s.flags[w] && !s.events[w] && D.Init(s.deques[w])
  }

  ghost predicate Run(trace: seq<State>, acts: seq<Action>) {
    && |trace| == |acts| + 1
    && Init(trace[0])
    && forall k :: 0 <= k < |acts| ==> Enabled(trace[k], acts[k]) && trace[k + 1] == Apply(trace[k], acts[k])
  }

  // ---------------------------------------------------------------- stalling

  /** Every worker waits for an event that is not set, and no client has a wake-up left to do. */
  ghost predicate Asleep(s: State) {
    && Sized(s)
    && (forall w :: 0 <= w < |s.workers| ==> s.workers[w].AtWait? && !s.events[w])
    && (forall c :: 0 <= c < |s.clients| ==> !s.clients[c].ClientWaking?)
  }
}
