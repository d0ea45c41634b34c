/** What becomes of every operation that is scheduled on the pool: it is with whoever schedules it, in one of the
    queues, in the hand of one worker, or its coroutine was resumed, and that once.  Everything is counted for one
    operation x at a time. */
module PoolConservation {
  import opened Pool
  import opened PoolProofs
  import D = Deque
  import G = GlobalQueue
  import Waiters

  // ---------------------------------------------------------------- counting

  /** How often x is in the list. */
  function Times(x: Op, l: seq<Op>): nat { multiset(l)[x] }

  /** Is this x? */
  function Is(x: Op, op: Op): nat { if op == x then 1 else 0 }

  lemma TimesNone(x: Op)
    ensures Times(x, []) == 0
  {
  }

  lemma TimesBack(x: Op, l: seq<Op>, op: Op)
    ensures Times(x, l + [op]) == Times(x, l) + Is(x, op)
  {
  }

  lemma TimesFront(x: Op, l: seq<Op>, op: Op)
    ensures Times(x, [op] + l) == Times(x, l) + Is(x, op)
  {
  }

  lemma TimesFirst(x: Op, l: seq<Op>)
    requires l != []
    ensures Times(x, l) == Is(x, l[0]) + Times(x, l[1..])
  {
    assert l == [l[0]] + l[1..];
  }

  lemma TimesLast(x: Op, l: seq<Op>)
    requires l != []
    ensures Times(x, l) == Times(x, l[..|l| - 1]) + Is(x, l[|l| - 1])
  {
    assert l == l[..|l| - 1] + [l[|l| - 1]];
  }

  lemma {:induction false} TimesReverse(x: Op, l: seq<Op>)
    ensures Times(x, Waiters.Reverse(l)) == Times(x, l)
  {
    if l != [] {
      TimesReverse(x, l[1..]);
      TimesFirst(x, l);
      TimesBack(x, Waiters.Reverse(l[1..]), l[0]);
    }
  }

  function Sum<T>(f: T -> nat, l: seq<T>): nat {
    if l == [] then 0 else f(l[0]) + Sum(f, l[1..])
  }

  lemma {:induction false} SumUpdate<T>(f: T -> nat, l: seq<T>, i: nat, v: T)
    requires i < |l|
    ensures Sum(f, l[i := v]) + f(l[i]) == Sum(f, l) + f(v)
  {
    if i == 0 {
      assert l[i := v][1..] == l[1..];
    } else {
      SumUpdate(f, l[1..], i - 1, v);
      assert l[i := v][1..] == l[1..][i - 1 := v];
    }
  }

  lemma {:induction false} SumAppend<T>(f: T -> nat, l: seq<T>, v: T)
    ensures Sum(f, l + [v]) == Sum(f, l) + f(v)
  {
    if l == [] {
      assert (l + [v])[1..] == [];
    } else {
      SumAppend(f, l[1..], v);
      assert (l + [v])[1..] == l[1..] + [v];
    }
  }

  lemma {:induction false} SumSame<T>(f: T -> nat, g: T -> nat, l: seq<T>)
    requires forall i :: 0 <= i < |l| ==> f(l[i]) == g(l[i])
    ensures Sum(f, l) == Sum(g, l)
  {
    if l != [] { SumSame(f, g, l[1..]); }
  }

  lemma {:induction false} SumNone<T>(f: T -> nat, l: seq<T>)
    requires forall i :: 0 <= i < |l| ==> f(l[i]) == 0
    ensures Sum(f, l) == 0
  {
    if l != [] { SumNone(f, l[1..]); }
  }

  // ---------------------------------------------------------------- where an operation is

  /** With the owner of a deque, who is about to put it in. */
  function Offered(x: Op, o: D.Owner): nat {
    match o
    case EnqRoom(op, _) => Is(x, op)
    case EnqStored(op) => Is(x, op)
    case EnqFull(op) => Is(x, op)
    case EnqGrow(op) => Is(x, op)
    case EnqCopied(op, _) => Is(x, op)
    case _ => 0
  }

  /** Won and not yet read out of its slot. */
  function OwnerWon(x: Op, o: D.Owner): nat { if o.PopWon? then Is(x, o.op) else 0 }

  function ThiefWon(x: Op, h: D.Holder): nat { if h.ByThief? && h.thief.Won? then Is(x, h.thief.op) else 0 }

  function InDeque(x: Op, d: D.State): nat {
    Offered(x, d.owner) + Times(x, d.q) + OwnerWon(x, d.owner) + ThiefWon(x, d.holder)
  }

  function InGlobal(x: Op, g: G.State): nat { Times(x, g.tail) + Times(x, G.Pending(g)) }

  /** In a worker's hand, to be run or to be pushed to the global queue. */
  function InHand(x: Op, p: Worker): nat {
    match p
    case Refused(op) => Is(x, op)
    case Clearing(op, _) => Is(x, op)
    case Starting(op) => Is(x, op)
    case _ => 0
  }

  function WithClient(x: Op, c: Client): nat { if c.Pushing? then Is(x, c.op) else 0 }

  function Deques(x: Op): D.State -> nat { (d: D.State) => InDeque(x, d) }
  function Hands(x: Op): Worker -> nat { (p: Worker) => InHand(x, p) }
  function Clients(x: Op): Client -> nat { (c: Client) => WithClient(x, c) }
  function Queues(x: Op): D.State -> nat { (d: D.State) => Times(x, d.q) }
  function News(x: Op): Action -> nat { (a: Action) => New(x, a) }

  /** How often x is somewhere or has been resumed. */
  function Total(x: Op, s: State): nat {
    InGlobal(x, s.global) + Sum(Deques(x), s.deques) + Sum(Hands(x), s.workers) + Sum(Clients(x), s.clients)
      + Times(x, s.resumed)
  }

  /** Does the action schedule x? */
  function New(x: Op, a: Action): nat {
    if a.NewClient? then Is(x, a.op)
    else if a.ByWorker? && a.act.Schedule? then Is(x, a.act.op)
    else 0
  }

  /** How often the actions of the run schedule x. */
  function Scheduled(x: Op, acts: seq<Action>): nat { Sum(News(x), acts) }

  // ---------------------------------------------------------------- the queues

  lemma PushConserves(x: Op, d: D.State, a: D.OwnerAct)
    requires D.Inv(d) && D.OwnerCan(d, a) && D.Pushes(a)
    ensures var e := D.OwnerStep(d, a);
      match a
      case Enqueue(op) => InDeque(x, e) == InDeque(x, d) + if e.owner.Idle? then 0 else Is(x, op)
      case Refuse => InDeque(x, e) + Is(x, d.owner.op) == InDeque(x, d)
      case _ => InDeque(x, e) == InDeque(x, d)
  {
    hide Times, Is, D.History, D.Contents;
    if a.Publish? || a.Install? { PutIn(x, d, a); }
  }

  lemma PutIn(x: Op, d: D.State, a: D.OwnerAct)
    requires D.Inv(d) && D.OwnerCan(d, a) && (a.Publish? || a.Install?)
    ensures InDeque(x, D.OwnerStep(d, a)) == InDeque(x, d)
  {
    hide Times, Is, D.History, D.Contents;
    TimesBack(x, d.q, d.owner.op);
  }

  lemma PopConserves(x: Op, d: D.State, a: D.OwnerAct)
    requires D.Inv(d) && D.OwnerCan(d, a) && !D.Pushes(a)
    ensures var e := D.OwnerStep(d, a);
      if a.ReadPopped? then InDeque(x, e) + Is(x, D.At(d.buf, d.owner.newHead)) == InDeque(x, d)
      else InDeque(x, e) == InDeque(x, d)
  {
    hide Times, Is, D.History;
    if (a.LookTail? || a.LookAgain?) && d.owner.newHead >= d.tail { TimesLast(x, d.q); }
  }

  lemma ThiefConserves(x: Op, d: D.State, a: D.ThiefAct)
    requires D.Inv(d) && D.ThiefCan(d, a)
    ensures var e := D.ThiefStep(d, a);
      if a.ReadStolen? then InDeque(x, e) + Is(x, D.At(d.buf, d.holder.thief.tail)) == InDeque(x, d)
      else InDeque(x, e) == InDeque(x, d)
  {
    hide Times, Is, D.History;
    if a.LookHead? && d.q != [] { TimesFirst(x, d.q); }
  }

  lemma GlobalConserves(x: Op, g: G.State, a: G.Action)
    requires G.Inv(g) && G.Enabled(g, a)
    ensures match a
      case Push(op) => InGlobal(x, G.Apply(g, a)) == InGlobal(x, g) + Is(x, op)
      case StoreHead => InGlobal(x, G.Apply(g, a)) + Is(x, g.mutex.phase.list[0]) == InGlobal(x, g)
      case _ => InGlobal(x, G.Apply(g, a)) == InGlobal(x, g)
  {
    TimesNone(x);
    TimesReverse(x, g.tail);
    if a.Push? { TimesFront(x, g.tail, a.op); }
    if a.StoreHead? { TimesFirst(x, g.mutex.phase.list); }
    hide Times, Is, Waiters.Reverse;
  }

  // ---------------------------------------------------------------- steps

  /** A step of worker w that touches at most deque j, the global queue and the history. */
  ghost predicate Local(s: State, t: State, w: nat, j: nat) {
    && w < |s.workers| && j < |s.deques| && |t.workers| == |s.workers| && |t.deques| == |s.deques|
    && t.workers == s.workers[w := t.workers[w]] && t.deques == s.deques[j := t.deques[j]] && t.clients == s.clients
  }

  function Around(x: Op, s: State, w: nat, j: nat): nat
    requires w < |s.workers| && j < |s.deques|
  {
    InGlobal(x, s.global) + InDeque(x, s.deques[j]) + InHand(x, s.workers[w]) + Times(x, s.resumed)
  }

  lemma LocalTotal(x: Op, s: State, t: State, w: nat, j: nat, more: nat)
    requires Local(s, t, w, j) && Around(x, t, w, j) == Around(x, s, w, j) + more
    ensures Total(x, t) == Total(x, s) + more
  {
    SumUpdate(Deques(x), s.deques, j, t.deques[j]);
    SumUpdate(Hands(x), s.workers, w, t.workers[w]);
    hide InGlobal, InDeque, InHand, Sum, Times;
  }

  ghost predicate QueuesFine(s: State) {
    Sized(s) && G.Inv(s.global) && forall j :: 0 <= j < |s.deques| ==> D.Inv(s.deques[j])
  }

  /** The step leaves the global queue and the history alone. */
  ghost predicate OnDeque(s: State, t: State, w: nat, j: nat, d: D.State) {
    Local(s, t, w, j) && t.deques[j] == d && t.global == s.global && t.resumed == s.resumed
  }

  function PopActOf(s: State, w: nat): D.OwnerAct
    requires Sized(s) && w < |s.workers|
  {
    if s.workers[w].Top? then D.StartPop else PopAct(s.deques[w].owner)
  }

  lemma PopShape(s: State, w: nat)
    requires Sized(s) && w < |s.workers| && AwakeCan(s, w, Go) && (s.workers[w].Top? || s.workers[w].Popping?)
    ensures var t, d, a := AwakeStep(s, w, Go), s.deques[w], PopActOf(s, w);
      && D.OwnerCan(d, a) && !D.Pushes(a) && OnDeque(s, t, w, w, D.OwnerStep(d, a))
      && (a.ReadPopped? ==> |d.buf| > 0 && d.owner.PopWon? && t.workers[w] == Starting(D.At(d.buf, d.owner.newHead)))
      && (!a.ReadPopped? ==> t.workers[w].Getting? || t.workers[w].Popping?)
  {
    hide D.At, D.OwnerStep;
  }

  lemma PopAwake(x: Op, s: State, w: nat)
    requires QueuesFine(s) && w < |s.workers| && AwakeCan(s, w, Go) && (s.workers[w].Top? || s.workers[w].Popping?)
    ensures Total(x, AwakeStep(s, w, Go)) == Total(x, s)
  {
    hide AwakeCan, AwakeStep, D.Inv, D.OwnerCan, D.OwnerStep, D.Pushes, PopActOf, InDeque, InGlobal, Total, D.At, Times, Is, Local;
    PopShape(s, w);
    PopConserves(x, s.deques[w], PopActOf(s, w));
    hide QueuesFine;
    assert Local(s, AwakeStep(s, w, Go), w, w);
    LocalTotal(x, s, AwakeStep(s, w, Go), w, w, 0);
  }

  lemma PushAwake(x: Op, s: State, w: nat, act: WorkerAct)
    requires QueuesFine(s) && w < |s.workers| && AwakeCan(s, w, act)
    requires s.workers[w].Enqueuing? || (s.workers[w].Running? && act.Schedule?)
    ensures Total(x, AwakeStep(s, w, act)) == Total(x, s) + New(x, ByWorker(w, act))
  {
    var t, d := AwakeStep(s, w, act), s.deques[w];
    var a := if s.workers[w].Running? then D.Enqueue(act.op) else act.o;
    assert D.Inv(d) && D.OwnerCan(d, a) && D.Pushes(a);
    assert t.deques == s.deques[w := D.OwnerStep(d, a)] && t.global == s.global && t.resumed == s.resumed;
    PushConserves(x, d, a);
    hide QueuesFine, D.OwnerCan, D.OwnerStep, D.Pushes, InDeque, InGlobal, Total, Times, Is;
    LocalTotal(x, s, t, w, w, New(x, ByWorker(w, act)));
  }

  lemma OtherShape(s: State, w: nat, act: WorkerAct)
    requires Sized(s) && w < |s.workers| && AwakeCan(s, w, act)
    requires var p := s.workers[w]; p.Refused? || p.Starting? || p.Waking? || (p.Running? && act.Finish?)
    ensures var t, p := AwakeStep(s, w, act), s.workers[w];
      && Local(s, t, w, w) && t.deques[w] == s.deques[w]
      && (t.workers[w].Waking? || t.workers[w].Running? || t.workers[w].Top?)
      && t.global == (if p.Refused? then G.Apply(s.global, G.Push(p.op)) else s.global)
      && t.resumed == (if p.Starting? then s.resumed + [p.op] else s.resumed)
  {
    hide WakeNext, G.Apply, D.OwnerCan, D.OwnerStep;
  }

  lemma OtherAwake(x: Op, s: State, w: nat, act: WorkerAct)
    requires QueuesFine(s) && w < |s.workers| && AwakeCan(s, w, act)
    requires var p := s.workers[w]; p.Refused? || p.Starting? || p.Waking? || (p.Running? && act.Finish?)
    ensures Total(x, AwakeStep(s, w, act)) == Total(x, s)
  {
    hide AwakeCan, AwakeStep, D.Inv, G.Inv, G.Apply, InDeque, InGlobal, Total, Times, Is, Local;
    var p := s.workers[w];
    OtherShape(s, w, act);
    if p.Refused? { GlobalConserves(x, s.global, G.Push(p.op)); }
    if p.Starting? { TimesBack(x, s.resumed, p.op); }
    hide QueuesFine;
    LocalTotal(x, s, AwakeStep(s, w, act), w, w, 0);
  }

  lemma AwakeConserves(x: Op, s: State, w: nat, act: WorkerAct)
    requires QueuesFine(s) && w < |s.workers| && AwakeCan(s, w, act)
    ensures Total(x, AwakeStep(s, w, act)) == Total(x, s) + New(x, ByWorker(w, act))
  {
    var p := s.workers[w];
    hide QueuesFine, D.OwnerCan, Total, AwakeStep, WakeOk;
    if p.Top? || p.Popping? { PopAwake(x, s, w); }
    else if p.Enqueuing? || (p.Running? && act.Schedule?) { PushAwake(x, s, w, act); }
    else { OtherAwake(x, s, w, act); }
  }

  lemma GetConserves(x: Op, s: State, w: nat)
    requires QueuesFine(s) && w < |s.workers| && s.workers[w].Getting? && GetCan(s, w)
    ensures Total(x, GetStep(s, w)) == Total(x, s)
  {
    if s.workers[w].get.FromGlobal? { FromGlobalConserves(x, s, w); } else { StealConserves(x, s, w); }
  }

  lemma FromGlobalShape(s: State, w: nat)
    requires Sized(s) && w < |s.workers| && s.workers[w].Getting? && GetCan(s, w) && s.workers[w].get.FromGlobal?
    ensures var t, a := GetStep(s, w), GlobalAct(s, w);
      && G.Enabled(s.global, a) && Local(s, t, w, w) && t.deques[w] == s.deques[w]
      && t.global == G.Apply(s.global, a) && t.resumed == s.resumed && !a.Push?
      && (if a.StoreHead? then WorkerHolds(t.workers[w], s.global.mutex.phase.list[0])
          else t.workers[w].Getting? || t.workers[w].AtWait? || t.workers[w].Spin?)
  {
    hide G.Apply;
  }

  predicate WorkerHolds(p: Worker, op: Op) { p == Starting(op) || p == Clearing(op, CountFirst) }

  lemma FromGlobalConserves(x: Op, s: State, w: nat)
    requires QueuesFine(s) && w < |s.workers| && s.workers[w].Getting? && GetCan(s, w) && s.workers[w].get.FromGlobal?
    ensures Total(x, GetStep(s, w)) == Total(x, s)
  {
    hide GetCan, GetStep, GlobalAct, D.Inv, G.Inv, G.Apply, InDeque, InGlobal, Total, Times, Is, Local;
    FromGlobalShape(s, w);
    GlobalConserves(x, s.global, GlobalAct(s, w));
    hide QueuesFine;
    LocalTotal(x, s, GetStep(s, w), w, w, 0);
  }

  function StealActOf(s: State, w: nat): D.ThiefAct
    requires Sized(s) && w < |s.workers| && s.workers[w].Getting? && GetCan(s, w) && !s.workers[w].get.FromGlobal?
  {
    var g := s.workers[w].get;
    if g.StealAt? then D.Lock(w) else StealAct(s.deques[g.i].holder)
  }

  lemma StealShape(s: State, w: nat)
    requires Sized(s) && w < |s.workers| && s.workers[w].Getting? && GetCan(s, w) && !s.workers[w].get.FromGlobal?
    ensures var t, i, a := GetStep(s, w), s.workers[w].get.i, StealActOf(s, w);
      i < |s.deques| &&
      var d := s.deques[i];
      if s.workers[w].get.StealAt? && !d.holder.Free? then
        OnDeque(s, t, w, i, d) && (t.workers[w].Getting? || t.workers[w].AtWait? || t.workers[w].Spin?)
      else
        && D.ThiefCan(d, a) && OnDeque(s, t, w, i, D.ThiefStep(d, a))
        && (if a.ReadStolen? then |d.buf| > 0 && d.holder.ByThief? && d.holder.thief.Won?
                                  && WorkerHolds(t.workers[w], D.At(d.buf, d.holder.thief.tail))
            else t.workers[w].Getting? || t.workers[w].AtWait? || t.workers[w].Spin?)
  {
    hide D.At, D.ThiefStep;
  }

  lemma StealConserves(x: Op, s: State, w: nat)
    requires QueuesFine(s) && w < |s.workers| && s.workers[w].Getting? && GetCan(s, w) && !s.workers[w].get.FromGlobal?
    ensures Total(x, GetStep(s, w)) == Total(x, s)
  {
    hide GetCan, GetStep, StealActOf, D.Inv, D.ThiefCan, D.ThiefStep, D.At, InDeque, InGlobal, Total, Times, Is, Local;
    StealShape(s, w);
    var i := s.workers[w].get.i;
    var d := s.deques[i];
    if !(s.workers[w].get.StealAt? && !d.holder.Free?) { ThiefConserves(x, d, StealActOf(s, w)); }
    hide QueuesFine;
    LocalTotal(x, s, GetStep(s, w), w, i, 0);
  }

  predicate LooksIn(p: Worker) { p.Checking? && (p.check.LookAt? || p.check.LookingIn?) }

  lemma LookShape(s: State, w: nat, act: WorkerAct)
    requires Sized(s) && w < |s.workers| && SleepCan(s, w, act) && LooksIn(s.workers[w])
    ensures var t, c := SleepStep(s, w, act), s.workers[w].check;
      c.i < |s.deques| &&
      var d := s.deques[c.i];
      (c.LookingIn? ==> d.holder.ByThief?) &&
      var a := if c.LookAt? then D.Lock(w) else if d.holder.thief.Entered? then D.LoadTail else D.Peek;
      && D.ThiefCan(d, a) && OnDeque(s, t, w, c.i, D.ThiefStep(d, a))
      && (t.workers[w].Checking? || t.workers[w].AtWait? || t.workers[w].Getting?)
  {
    hide D.ThiefStep;
  }

  lemma RestShape(s: State, w: nat, act: WorkerAct)
    requires Sized(s) && w < |s.workers| && SleepCan(s, w, act) && !LooksIn(s.workers[w])
    ensures var t, p := SleepStep(s, w, act), s.workers[w];
      && OnDeque(s, t, w, w, s.deques[w]) && InHandNothing(p) && InHandNothing(t.workers[w])
  {
  }

  predicate InHandNothing(p: Worker) { p.Checking? || p.AtWait? || p.Getting? || p.Spin? || p.Notified? }

  lemma SleepConserves(x: Op, s: State, w: nat, act: WorkerAct)
    requires QueuesFine(s) && w < |s.workers| && SleepCan(s, w, act)
    ensures Total(x, SleepStep(s, w, act)) == Total(x, s)
  {
    hide SleepCan, SleepStep, D.Inv, D.ThiefCan, D.ThiefStep, InDeque, InGlobal, Total, Times, Is, Local;
    if LooksIn(s.workers[w]) {
      LookShape(s, w, act);
      var c := s.workers[w].check;
      var d := s.deques[c.i];
      ThiefConserves(x, d, if c.LookAt? then D.Lock(w) else if d.holder.thief.Entered? then D.LoadTail else D.Peek);
      hide QueuesFine;
      LocalTotal(x, s, SleepStep(s, w, act), w, c.i, 0);
    } else {
      RestShape(s, w, act);
      hide QueuesFine;
      LocalTotal(x, s, SleepStep(s, w, act), w, w, 0);
    }
  }

  lemma ClearConserves(x: Op, s: State, w: nat)
    requires Sized(s) && w < |s.workers| && s.workers[w].Clearing? && ClearCan(s, w)
    ensures Total(x, ClearStep(s, w)) == Total(x, s)
  {
    var t := ClearStep(s, w);
    assert t.deques == s.deques[w := s.deques[w]] && t.global == s.global && t.resumed == s.resumed;
    assert InHand(x, t.workers[w]) == InHand(x, s.workers[w]);
    hide ClearCan, ClearStep, InDeque, InGlobal, Total, Times, Is;
    LocalTotal(x, s, t, w, w, 0);
  }

  lemma ClientConserves(x: Op, s: State, c: nat)
    requires QueuesFine(s) && ClientCan(s, c)
    ensures Total(x, ClientStep(s, c)) == Total(x, s)
  {
    var t := ClientStep(s, c);
    SumUpdate(Clients(x), s.clients, c, t.clients[c]);
    if s.clients[c].Pushing? { GlobalConserves(x, s.global, G.Push(s.clients[c].op)); }
    hide QueuesFine, Sum, InGlobal, Times, Is, WakeNext, Deques, Hands;
  }

  lemma StepConserves(x: Op, s: State, a: Action)
    requires QueuesFine(s) && Enabled(s, a)
    ensures Total(x, Apply(s, a)) == Total(x, s) + New(x, a)
  {
    match a
    case ByWorker(w, act) =>
      hide QueuesFine, Total, AwakeCan, AwakeStep, GetCan, GetStep, ClearCan, ClearStep, SleepCan, SleepStep;
      var p := s.workers[w];
      if p.Getting? { GetConserves(x, s, w); }
      else if p.Clearing? { ClearConserves(x, s, w); }
      else if GoingToSleep(p) { assert !act.Schedule? by { SleepsWithout(s, w, act); } SleepConserves(x, s, w, act); }
      else { AwakeConserves(x, s, w, act); }
    case ByClient(c) => ClientConserves(x, s, c);
    case NewClient(op) =>
      SumAppend(Clients(x), s.clients, Pushing(op));
      hide Sum, InGlobal, Times, Is;
  }

  lemma SleepsWithout(s: State, w: nat, act: WorkerAct)
    requires Sized(s) && w < |s.workers| && SleepCan(s, w, act)
    ensures !act.Schedule?
  {
  }

  // ---------------------------------------------------------------- whole runs

  lemma InvFine(s: State)
    requires Inv(s)
    ensures QueuesFine(s)
  {
  }

  lemma InitEmpty(x: Op, s: State)
    requires Init(s)
    ensures Total(x, s) == 0
  {
    TimesNone(x);
    hide Times, Is;
    SumNone(Deques(x), s.deques);
    SumNone(Hands(x), s.workers);
    SumNone(Clients(x), s.clients);
  }

  /** In every run each operation that has been scheduled is in exactly one place: with the client or worker that
      schedules it, in the global queue, in a deque or just won from one, in the hand of a worker, or among those
      whose coroutine was resumed.  This counts every operation as often as it was scheduled. */
  lemma {:induction false} Conservation(trace: seq<State>, acts: seq<Action>, k: nat, x: Op)
    requires Run(trace, acts) && k <= |acts|
    ensures Scheduled(x, acts[..k]) == Total(x, trace[k])
  {
    hide Inv, Enabled, Apply, Init, Total, New;
    if k == 0 {
      InitEmpty(x, trace[0]);
    } else {
      Conservation(trace, acts, k - 1, x);
      RunKeepsInv(trace, acts, k - 1);
      InvFine(trace[k - 1]);
      StepConserves(x, trace[k - 1], acts[k - 1]);
      assert acts[..k] == acts[..k - 1] + [acts[k - 1]];
      SumAppend(News(x), acts[..k - 1], acts[k - 1]);
    }
  }

  // ---------------------------------------------------------------- when everybody sleeps

  /** Worker p is inside the mutex of deque j. */
  predicate Inside(p: Worker, j: nat) {
    (p.Getting? && p.get.Stealing? && p.get.i == j) || (p.Checking? && p.check == LookingIn(j))
  }

  /** Whoever holds the mutex of a deque as a thief is inside it. */
  ghost predicate HoldersOk(s: State) {
    && Sized(s)
    && forall j :: 0 <= j < |s.deques| && s.deques[j].holder.ByThief? ==>
         s.deques[j].holder.id < |s.workers| && Inside(s.workers[s.deques[j].holder.id], j)
  }

  lemma OwnerLeavesThief(d: D.State, a: D.OwnerAct)
    requires D.OwnerCan(d, a)
    ensures D.OwnerStep(d, a).holder == d.holder || !D.OwnerStep(d, a).holder.ByThief?
  {
  }

  lemma HoldersAwake(s: State, w: nat, act: WorkerAct)
    requires HoldersOk(s) && w < |s.workers| && AwakeCan(s, w, act)
    ensures HoldersOk(AwakeStep(s, w, act))
  {
    var t, d, p := AwakeStep(s, w, act), s.deques[w], s.workers[w];
    assert forall j :: !Inside(p, j);
    if p.Top? { OwnerLeavesThief(d, D.StartPop); }
    if p.Popping? { OwnerLeavesThief(d, PopAct(d.owner)); }
    if p.Running? && act.Schedule? { OwnerLeavesThief(d, D.Enqueue(act.op)); }
    if p.Enqueuing? { OwnerLeavesThief(d, act.o); }
    hide D.OwnerCan, D.OwnerStep, PopAct, WakeShared, WakeNext;
  }

  lemma HoldersGet(s: State, w: nat)
    requires HoldersOk(s) && w < |s.workers| && s.workers[w].Getting? && GetCan(s, w)
    ensures HoldersOk(GetStep(s, w))
  {
    hide GlobalAct, G.Apply;
  }

  lemma HoldersSleep(s: State, w: nat, act: WorkerAct)
    requires HoldersOk(s) && w < |s.workers| && SleepCan(s, w, act)
    ensures HoldersOk(SleepStep(s, w, act))
  {
  }

  lemma HoldersStep(s: State, a: Action)
    requires HoldersOk(s) && Enabled(s, a)
    ensures HoldersOk(Apply(s, a))
  {
    match a
    case ByWorker(w, act) =>
      hide AwakeCan, AwakeStep, GetCan, GetStep, SleepCan, SleepStep;
      var p := s.workers[w];
      if p.Getting? { HoldersGet(s, w); }
      else if p.Clearing? {}
      else if GoingToSleep(p) { HoldersSleep(s, w, act); }
      else { HoldersAwake(s, w, act); }
    case _ =>
  }

  lemma {:induction false} RunKeepsHolders(trace: seq<State>, acts: seq<Action>, k: nat)
    requires Run(trace, acts) && k <= |acts|
    ensures HoldersOk(trace[k])
  {
    hide Enabled, Apply;
    if k > 0 {
      hide Init;
      RunKeepsHolders(trace, acts, k - 1);
      hide HoldersOk;
      HoldersStep(trace[k - 1], acts[k - 1]);
    }
  }

  lemma SleepersHaveNothing(x: Op, s: State)
    requires Inv(s) && HoldersOk(s) && Asleep(s) && forall c :: 0 <= c < |s.clients| ==> !s.clients[c].Pushing?
    ensures Sum(Deques(x), s.deques) == Sum(Queues(x), s.deques)
    ensures Sum(Hands(x), s.workers) == 0 && Sum(Clients(x), s.clients) == 0
  {
    hide QueuesOk, Accounted, Covered, Watched, Times, Is;
    forall j | 0 <= j < |s.deques| ensures Deques(x)(s.deques[j]) == Queues(x)(s.deques[j]) {
      assert PastPop(s.workers[j]);
      assert s.deques[j].owner.Idle? && !s.deques[j].holder.ByThief?;
    }
    SumSame(Deques(x), Queues(x), s.deques);
    SumNone(Hands(x), s.workers);
    SumNone(Clients(x), s.clients);
  }

  /** When every worker sleeps and no client is under way, every operation that was scheduled has been resumed,
      as often as it was scheduled, or is still in a deque. */
  lemma ResumedOrInADeque(trace: seq<State>, acts: seq<Action>, k: nat, x: Op)
    requires Run(trace, acts) && k <= |acts| && Asleep(trace[k])
    requires forall c :: 0 <= c < |trace[k].clients| ==> !trace[k].clients[c].Pushing?
    ensures Scheduled(x, acts[..k]) == Times(x, trace[k].resumed) + Sum(Queues(x), trace[k].deques)
  {
    hide Enabled, Apply, Init;
    Conservation(trace, acts, k, x);
    GlobalQueueNeverStalls(trace, acts, k);
    RunKeepsInv(trace, acts, k);
    RunKeepsHolders(trace, acts, k);
    SleepersHaveNothing(x, trace[k]);
    TimesNone(x);
  }

  /** So in a pool of one worker, or when only clients schedule, everything scheduled has been resumed exactly as
      often as it was scheduled. */
  lemma AllResumedOnce(trace: seq<State>, acts: seq<Action>, k: nat, x: Op)
    requires Run(trace, acts) && k <= |acts| && Asleep(trace[k])
    requires forall c :: 0 <= c < |trace[k].clients| ==> !trace[k].clients[c].Pushing?
    requires |trace[0].workers| == 1
      || forall i :: 0 <= i < k ==> !(acts[i].ByWorker? && acts[i].act.Schedule?)
    ensures Times(x, trace[k].resumed) == Scheduled(x, acts[..k])
  {
    hide Enabled, Apply, Init;
    ResumedOrInADeque(trace, acts, k, x);
    NothingStranded(trace, acts, k);
    TimesNone(x);
    assert Sized(trace[k]);
    SumNone(Queues(x), trace[k].deques);
  }
}
