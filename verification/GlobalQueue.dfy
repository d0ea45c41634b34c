/** The pool's shared queue (lib/static_thread_pool.cpp:532-543, 650-685): a lock-free stack of new
    operations (m_globalQueueTail) that whoever holds m_globalQueueMutex turns, when needed, into a
    first-in-first-out list (m_globalQueueHead).  One step per atomic access. */
module GlobalQueue {
  import opened Tally
  import opened Waiters

  type Op = nat

  datatype Phase =
    | Entered              // about to read the head list
    | SawNoHead            // about to look at the stack
    | SawTail              // the stack was not empty: about to take it
    | Have(list: seq<Op>)  // about to store what follows the first operation

  datatype Mutex = Unlocked | HeldBy(id: nat, phase: Phase)

  /** `tail` lists the stack newest first, `head` the list oldest first; `pushed` and `popped` are history. */
  datatype State = State(tail: seq<Op>, head: seq<Op>, mutex: Mutex, pushed: seq<Op>, popped: seq<Op>)

  datatype Action = Push(op: Op) | Lock(id: nat) | ReadHead | ReadTail | TakeTail | StoreHead

  predicate Enabled(s: State, a: Action) {
    match a
    case Push(_) => true
    case Lock(_) => s.mutex.Unlocked?
    case ReadHead => s.mutex.HeldBy? && s.mutex.phase.Entered?
    case ReadTail => s.mutex.HeldBy? && s.mutex.phase.SawNoHead?
    case TakeTail => s.mutex.HeldBy? && s.mutex.phase.SawTail?
    case StoreHead => s.mutex.HeldBy? && s.mutex.phase.Have? && |s.mutex.phase.list| > 0
  }

  function Apply(s: State, a: Action): State
    requires Enabled(s, a)
  {
    match a
    case Push(op) => s.(tail := [op] + s.tail, pushed := s.pushed + [op])
    case Lock(id) => s.(mutex := HeldBy(id, Entered))
    case ReadHead => s.(mutex := s.mutex.(phase := if s.head != [] then Have(s.head) else SawNoHead))
    case ReadTail => if s.tail == [] then s.(mutex := Unlocked) else s.(mutex := s.mutex.(phase := SawTail))
    case TakeTail =>
      if s.tail == [] then s.(mutex := Unlocked)
      else s.(tail := [], mutex := s.mutex.(phase := Have(Reverse(s.tail))))
    case StoreHead =>
      var list := s.mutex.phase.list;
      s.(head := list[1..], mutex := Unlocked, popped := s.popped + [list[0]])
  }

  ghost predicate Init(s: State) {
    s.tail == [] && s.head == [] && s.mutex.Unlocked? && s.pushed == [] && s.popped == []
  }

  /** Operations that have left the stack but not the queue. */
  function Pending(s: State): seq<Op> {
    if s.mutex.HeldBy? && s.mutex.phase.Have? then s.mutex.phase.list else s.head
  }

  ghost predicate Inv(s: State) {
    && (s.mutex.HeldBy? && (s.mutex.phase.SawNoHead? || s.mutex.phase.SawTail?) ==> s.head == [])
    && (s.mutex.HeldBy? && s.mutex.phase.SawTail? ==> s.tail != [])
    && (s.mutex.HeldBy? && s.mutex.phase.Have? ==> s.mutex.phase.list != [] && (s.head == [] || s.head == s.mutex.phase.list))
    && s.popped + Pending(s) + Reverse(s.tail) == s.pushed
  }

  lemma InvStep(s: State, a: Action)
    requires Inv(s) && Enabled(s, a)
    ensures Inv(Apply(s, a))
  {
    var t := Apply(s, a);
    match a
    case Push(op) =>
      assert t.tail[1..] == s.tail;
      assert s.popped + Pending(s) + (Reverse(s.tail) + [op]) == (s.popped + Pending(s) + Reverse(s.tail)) + [op];
    case TakeTail =>
      assert s.popped + Pending(s) + Reverse(s.tail) == t.popped + Pending(t) + Reverse(t.tail);
    case StoreHead =>
      var list := s.mutex.phase.list;
      assert list == [list[0]] + list[1..];
      assert s.popped + list == t.popped + t.head;
    case _ =>
  }

  ghost predicate Run(trace: seq<State>, acts: seq<Action>) {
    && |trace| == |acts| + 1
    && Init(trace[0])
    && forall k :: 0 <= k < |acts| ==> Enabled(trace[k], acts[k]) && trace[k + 1] == Apply(trace[k], acts[k])
  }

  lemma {:induction false} RunKeepsInv(trace: seq<State>, acts: seq<Action>, k: nat)
    requires Run(trace, acts) && k <= |acts|
    ensures Inv(trace[k])
  {
    if k > 0 {
      RunKeepsInv(trace, acts, k - 1);
      InvStep(trace[k - 1], acts[k - 1]);
    }
  }

  /** The operations whose pushes have succeeded, in order. */
  function PushesOf(acts: seq<Action>): seq<Op> {
    if acts == [] then []
    else
      var a := acts[|acts| - 1];
      PushesOf(acts[..|acts| - 1]) + if a.Push? then [a.op] else []
  }

  lemma {:induction false} PushedAre(trace: seq<State>, acts: seq<Action>, k: nat)
    requires Run(trace, acts) && k <= |acts|
    ensures trace[k].pushed == PushesOf(acts[..k])
  {
    if k > 0 {
      PushedAre(trace, acts, k - 1);
      assert acts[..k][..k - 1] == acts[..k - 1];
    }
  }

  /** In every run operations leave in exactly the order in which their pushes succeeded, and what was pushed
      and has not left is still in the queue. */
  lemma FirstInFirstOut(trace: seq<State>, acts: seq<Action>, k: nat)
    requires Run(trace, acts) && k <= |acts|
    ensures var s := trace[k]; s.popped <= PushesOf(acts[..k])
    ensures var s := trace[k]; s.popped + Pending(s) + Reverse(s.tail) == PushesOf(acts[..k])
  {
    RunKeepsInv(trace, acts, k);
    PushedAre(trace, acts, k);
    var s := trace[k];
    assert s.popped + Pending(s) + Reverse(s.tail) == s.popped + (Pending(s) + Reverse(s.tail));
  }

  lemma EmptyExact(s: State)
    ensures s.tail == [] <==> Reverse(s.tail) == []
    ensures Pending(s) == [] && s.tail == [] <==> |s.popped + Pending(s) + Reverse(s.tail)| == |s.popped|
  {
    assert s.tail != [] ==> Reverse(s.tail) == Reverse(s.tail[1..]) + [s.tail[0]];
  }

  /** A call that looks at the queue gives up exactly if everything pushed so far has left, and otherwise it
      takes the operation that has been queued longest; no other step lets an operation leave. */
  lemma TakesLongestQueued(trace: seq<State>, acts: seq<Action>, k: nat)
    requires Run(trace, acts) && k < |acts|
    ensures var s, t := trace[k], trace[k + 1];
      && (acts[k].StoreHead? ==>
           |s.popped| < |PushesOf(acts[..k])| && t.popped == s.popped + [PushesOf(acts[..k])[|s.popped|]] && t.mutex.Unlocked?)
      && (!acts[k].StoreHead? ==> t.popped == s.popped)
      && (s.mutex.HeldBy? && !acts[k].StoreHead? ==>
           (t.mutex.Unlocked? <==> acts[k].ReadTail? && s.popped == PushesOf(acts[..k])))
  {
    var s, t := trace[k], trace[k + 1];
    FirstInFirstOut(trace, acts, k);
    RunKeepsInv(trace, acts, k);
    EmptyExact(s);
    if acts[k].StoreHead? {
      assert Pending(s)[0] == PushesOf(acts[..k])[|s.popped|];
    }
    hide Reverse, PushesOf;
    if acts[k].ReadTail? {
      assert Pending(s) == [];
      assert s.popped == PushesOf(acts[..k]) <==> s.tail == [];
    }
  }

  /** How many steps the thread that holds the mutex has yet to take, at most. */
  function StepsLeft(s: State): nat {
    if s.mutex.Unlocked? then 0
    else match s.mutex.phase
         case Entered => 4
         case SawNoHead => 3
         case SawTail => 2
         case Have(_) => 1
  }

  function OfHolder(): Action -> bool { (a: Action) => !a.Push? && !a.Lock? }

  lemma HolderAdvances(s: State, a: Action)
    requires Inv(s) && Enabled(s, a)
    ensures a.Lock? ==> Apply(s, a).mutex == HeldBy(a.id, Entered)
    ensures !a.Lock? ==> One(OfHolder()(a)) + StepsLeft(Apply(s, a)) <= StepsLeft(s)
  {
  }

  /** Whatever the other threads push meanwhile, a call that has locked the mutex unlocks it after at most four
      steps of its own. */
  lemma {:induction false} LookEnds(trace: seq<State>, acts: seq<Action>, j: nat, k: nat)
    requires Run(trace, acts) && j <= k <= |acts| && forall i :: j <= i < k ==> !acts[i].Lock?
    ensures Count(OfHolder(), acts[j..k]) + StepsLeft(trace[k]) <= StepsLeft(trace[j]) <= 4
  {
    if j < k {
      LookEnds(trace, acts, j, k - 1);
      RunKeepsInv(trace, acts, k - 1);
      HolderAdvances(trace[k - 1], acts[k - 1]);
      CountSlice(OfHolder(), acts, j, k);
      hide Inv, Enabled, Apply, Count, StepsLeft, OfHolder;
    }
  }
}
