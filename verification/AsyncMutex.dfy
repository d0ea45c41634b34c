/** async_mutex (lib/async_mutex.cpp): a word that is free, locked, or locked with a stack of newly queued
    operations, and a list that only the holder of the lock touches.  One step per atomic access.

    Every call of try_lock or lock_async, with the later unlock, is a thread, named by its number. */
module AsyncMutex {
  import opened Waiters

  /** m_state: not_locked, or locked with the stack of operations (empty for locked_no_waiters). */
  datatype Word = NotLocked | Locked(stack: seq<Id>)

  /** What a load of m_state sees. */
  datatype Seen = SawNotLocked | SawNoWaiters | SawHead(head: Id)

  datatype Pc =
    | Trying               // try_lock: about to compare and swap
    | Loading              // await_suspend: about to load m_state
    | Swapping(seen: Seen) // about to compare and swap
    | Waiting              // queued and suspended
    | Holding
    | Unlocking            // unlock with m_waiters empty: about to try to release
    | Taking               // somebody queued: about to take the stack
    | Finished(held: bool) // past unlock, or try_lock failed

  /** `owner` (-1: nobody), and the queued operations in order of their pushes and of their resumption, are
      history. */
  datatype State = State(word: Word, waiters: seq<Id>, pcs: seq<Pc>, owner: int, pushed: seq<Id>, handed: seq<Id>)

  datatype Action = TryLock | LockAsync | Unlock(t: Id) | Step(t: Id)

  function Look(w: Word): Seen {
    if w.NotLocked? then SawNotLocked else if w.stack == [] then SawNoWaiters else SawHead(w.stack[0])
  }

  ghost predicate Enabled(s: State, a: Action) {
    match a
    case TryLock => true
    case LockAsync => true
    case Unlock(t) => t < |s.pcs| && s.pcs[t].Holding?
    case Step(t) => t < |s.pcs| && !s.pcs[t].Waiting? && !s.pcs[t].Holding? && !s.pcs[t].Finished?
  }

  function Goto(s: State, t: Id, pc: Pc): State
    requires t < |s.pcs|
  {
    s.(pcs := s.pcs[t := pc])
  }

  /** The end of unlock: the first of the list gets the lock. */
  function HandOver(s: State, t: Id, list: seq<Id>): State
    requires t < |s.pcs|
  {
    if list == [] || list[0] >= |s.pcs| then s
    else
      s.(waiters := list[1..], pcs := s.pcs[t := Finished(true)][list[0] := Holding], owner := list[0],
         handed := s.handed + [list[0]])
  }

  ghost function Apply(s: State, a: Action): State
    requires Enabled(s, a)
  {
    match a
    case TryLock => s.(pcs := s.pcs + [Trying])
    case LockAsync => s.(pcs := s.pcs + [Loading])
    case Unlock(t) => if s.waiters == [] then Goto(s, t, Unlocking) else HandOver(s, t, s.waiters)
    case Step(t) =>
      match s.pcs[t]
      case Trying =>
        if s.word.NotLocked? then Goto(s, t, Holding).(word := Locked([]), owner := t) else Goto(s, t, Finished(false))
      case Loading => Goto(s, t, Swapping(Look(s.word)))
      case Swapping(seen) =>
        if seen != Look(s.word) then Goto(s, t, Swapping(Look(s.word)))
        else if s.word.NotLocked? then Goto(s, t, Holding).(word := Locked([]), owner := t)
        else Goto(s, t, Waiting).(word := Locked([t] + s.word.stack), pushed := s.pushed + [t])
      case Unlocking =>
        if s.word == Locked([]) then Goto(s, t, Finished(true)).(word := NotLocked, owner := -1) else Goto(s, t, Taking)
      case Taking =>
        if s.word.NotLocked? then s else HandOver(s.(word := Locked([])), t, Reverse(s.word.stack))
      case Waiting => s
      case Holding => s
      case Finished(_) => s
  }

  ghost predicate Init(s: State) {
    s.word.NotLocked? && s.waiters == [] && s.pcs == [] && s.owner == -1 && s.pushed == [] && s.handed == []
  }

  // ---------------------------------------------------------------- the invariant

  predicate Owning(p: Pc) { p.Holding? || p.Unlocking? || p.Taking? }

  function Stack(w: Word): seq<Id> { if w.Locked? then w.stack else [] }

  /** The queued operations in the order in which they will get the lock. */
  function Queue(s: State): seq<Id> { s.waiters + Reverse(Stack(s.word)) }

  ghost predicate OwnerOk(s: State) {
    && -1 <= s.owner < |s.pcs|
    && (s.word.Locked? <==> s.owner >= 0)
    && (forall t :: 0 <= t < |s.pcs| ==> (Owning(s.pcs[t]) <==> t == s.owner))
    && (s.word.NotLocked? ==> s.waiters == [])
    && (s.owner >= 0 && !s.pcs[s.owner].Holding? ==> s.waiters == [])
    && (s.owner >= 0 && s.pcs[s.owner].Taking? ==> Stack(s.word) != [])
  }

  ghost predicate QueueOk(s: State) {
    && s.handed + Queue(s) == s.pushed
    && Distinct(Queue(s))
    && (forall a: nat :: a in Queue(s) <==> a < |s.pcs| && s.pcs[a].Waiting?)
  }

  ghost predicate Inv(s: State) { OwnerOk(s) && QueueOk(s) }

  lemma PushKeepsQueue(s: State, t: Id)
    requires Inv(s) && s.word.Locked? && t < |s.pcs| && s.pcs[t].Swapping?
    ensures QueueOk(Goto(s, t, Waiting).(word := Locked([t] + s.word.stack), pushed := s.pushed + [t]))
  {
    var u := Goto(s, t, Waiting).(word := Locked([t] + s.word.stack), pushed := s.pushed + [t]);
    assert u.word.stack[1..] == s.word.stack;
    assert Queue(u) == Queue(s) + [t];
    hide Queue;
    JoinDistinct(Queue(s), [t]);
  }

  lemma HandOverKeeps(s: State, t: Id, list: seq<Id>)
    requires t < |s.pcs| && Owning(s.pcs[t]) && s.owner == t
    requires -1 <= s.owner < |s.pcs| && s.word.Locked? && forall k :: 0 <= k < |s.pcs| ==> (Owning(s.pcs[k]) <==> k == s.owner)
    requires QueueOk(s) && list != []
    requires Queue(s) == list + Reverse(Stack(s.word))
    ensures list[0] < |s.pcs| && s.pcs[list[0]].Waiting? && Inv(HandOver(s, t, list))
  {
    var u, q := HandOver(s, t, list), Queue(s);
    assert q[0] == list[0] && q[0] in q;
    assert Queue(u) == q[1..];
    assert s.handed + q == (s.handed + [q[0]]) + q[1..];
    TailDistinct(q);
    hide Queue, Reverse;
  }

  /** A step that neither queues nor hands over. */
  predicate Quiet(s: State, a: Action) {
    && (a.Unlock? ==> s.waiters == [])
    && (a.Step? && a.t < |s.pcs| ==>
         var p := s.pcs[a.t]; !p.Taking? && (p.Swapping? && p.seen == Look(s.word) ==> s.word.NotLocked?))
  }

  lemma QuietQueue(s: State, a: Action)
    requires Inv(s) && Enabled(s, a) && Quiet(s, a)
    ensures QueueOk(Apply(s, a))
  {
    hide OwnerOk, Reverse, Distinct;
    var u := Apply(s, a);
    assert Queue(u) == Queue(s);
    hide Queue;
    assert |u.pcs| >= |s.pcs| && u.handed == s.handed && u.pushed == s.pushed;
    assert forall k :: 0 <= k < |u.pcs| ==> (u.pcs[k].Waiting? <==> k < |s.pcs| && s.pcs[k].Waiting?);
    hide Apply;
  }

  lemma QuietOwner(s: State, a: Action)
    requires Inv(s) && Enabled(s, a) && Quiet(s, a)
    ensures OwnerOk(Apply(s, a))
  {
    hide QueueOk;
  }

  lemma HandOversKeep(s: State, a: Action)
    requires Inv(s) && Enabled(s, a)
    requires (a.Unlock? && s.waiters != []) || (a.Step? && s.pcs[a.t].Taking?)
    ensures Inv(Apply(s, a))
  {
    if a.Unlock? {
      HandOverKeeps(s, a.t, s.waiters);
    } else {
      var v := s.(word := Locked([]), waiters := Reverse(s.word.stack));
      assert Queue(v) == Queue(s);
      HandOverKeeps(v, a.t, Reverse(s.word.stack));
    }
  }

  lemma PushKeeps(s: State, t: Id)
    requires Inv(s) && s.word.Locked? && Enabled(s, Step(t)) && s.pcs[t] == Swapping(Look(s.word))
    ensures Inv(Apply(s, Step(t)))
  {
    PushKeepsQueue(s, t);
    hide QueueOk, Queue;
  }

  lemma InvStep(s: State, a: Action)
    requires Inv(s) && Enabled(s, a)
    ensures Inv(Apply(s, a))
  {
    if (a.Unlock? && s.waiters != []) || (a.Step? && s.pcs[a.t].Taking?) {
      HandOversKeep(s, a);
    } else if a.Step? && s.pcs[a.t] == Swapping(Look(s.word)) && s.word.Locked? {
      PushKeeps(s, a.t);
    } else {
      QuietQueue(s, a);
      QuietOwner(s, a);
    }
    hide QueueOk, OwnerOk, Apply;
  }

  // ---------------------------------------------------------------- whole runs

  ghost predicate Run(trace: seq<State>, acts: seq<Action>) {
    && |trace| == |acts| + 1
    && Init(trace[0])
    && forall k :: 0 <= k < |acts| ==> Enabled(trace[k], acts[k]) && trace[k + 1] == Apply(trace[k], acts[k])
  }

  lemma {:induction false} RunKeepsInv(trace: seq<State>, acts: seq<Action>, k: nat)
    requires Run(trace, acts) && k <= |acts|
    ensures Inv(trace[k])
  {
    if k > 0 {
      RunKeepsInv(trace, acts, k - 1);
      hide Inv, Enabled, Apply;
      InvStep(trace[k - 1], acts[k - 1]);
    }
  }

  /** At most one thread holds the lock, and the word is locked exactly while one does; a free mutex has nobody
      waiting. */
  lemma MutualExclusion(trace: seq<State>, acts: seq<Action>, k: nat)
    requires Run(trace, acts) && k <= |acts|
    ensures var s := trace[k];
      && (forall t, v :: 0 <= t < |s.pcs| && 0 <= v < |s.pcs| && Owning(s.pcs[t]) && Owning(s.pcs[v]) ==> t == v)
      && (s.word.Locked? <==> exists t :: 0 <= t < |s.pcs| && Owning(s.pcs[t]))
      && (s.word.NotLocked? ==> s.waiters == [] && forall t :: 0 <= t < |s.pcs| ==> !s.pcs[t].Waiting?)
  {
    RunKeepsInv(trace, acts, k);
    var s := trace[k];
    hide Reverse, Distinct;
    if s.owner >= 0 { assert Owning(s.pcs[s.owner]); }
    if s.word.NotLocked? {
      assert Stack(s.word) == [] && Queue(s) == [] + Reverse<Id>([]);
      assert |Queue(s)| == 0;
    }
  }

  /** Queued operations get the lock in exactly the order in which they were pushed, and nobody else gets it
      from an unlock. */
  lemma HandedInOrder(trace: seq<State>, acts: seq<Action>, k: nat)
    requires Run(trace, acts) && k <= |acts|
    ensures var s := trace[k];
      && s.handed <= s.pushed
      && s.handed + s.waiters + Reverse(Stack(s.word)) == s.pushed
      && (forall a: nat :: a in s.waiters + Reverse(Stack(s.word)) <==> a < |s.pcs| && s.pcs[a].Waiting?)
  {
    RunKeepsInv(trace, acts, k);
    var s := trace[k];
    assert s.handed + s.waiters + Reverse(Stack(s.word)) == s.handed + Queue(s);
  }

  /** Only queued operations are handed the lock, the one who has waited longest first. */
  lemma HandedToLongestWaiting(trace: seq<State>, acts: seq<Action>, k: nat)
    requires Run(trace, acts) && k < |acts|
    requires |trace[k + 1].handed| != |trace[k].handed|
    ensures var s, t := trace[k], trace[k + 1];
      && |s.handed| < |s.pushed| && t.handed == s.pushed[..|s.handed| + 1]
      && t.word.Locked? && t.owner == s.pushed[|s.handed|] && t.pcs[t.owner].Holding?
      && s.pcs[t.owner].Waiting?
  {
    RunKeepsInv(trace, acts, k);
    RunKeepsInv(trace, acts, k + 1);
    var s, t, a := trace[k], trace[k + 1], acts[k];
    assert Enabled(s, a) && t == Apply(s, a);
    hide Inv, Queue, Reverse;
    assert t.handed == s.handed + [t.owner] && t.pcs[t.owner].Holding?;
    HandedFirst(s, t);
  }

  lemma HandedFirst(s: State, t: State)
    requires Inv(s) && Inv(t) && t.owner >= 0 && t.handed == s.handed + [t.owner] && t.pushed == s.pushed
    ensures |s.handed| < |s.pushed| && t.handed == s.pushed[..|s.handed| + 1] && t.owner == s.pushed[|s.handed|]
    ensures t.word.Locked? && t.owner < |s.pcs| && s.pcs[t.owner].Waiting?
  {
    hide Queue, Reverse;
    assert s.handed + Queue(s) == s.pushed == t.handed + Queue(t);
    assert s.pushed[|s.handed|] == t.owner == Queue(s)[0];
    assert Queue(s)[0] in Queue(s);
  }

  /** The thread whose step of unlock this is, or -1. */
  function Unlocker(s: State, a: Action): int {
    match a
    case Unlock(t) => t
    case Step(t) => if t < |s.pcs| && (s.pcs[t].Unlocking? || s.pcs[t].Taking?) then t else -1
    case _ => -1
  }

  /** Who gets the lock when thread t hands it over in a state s. */
  predicate HandedOn(s: State, u: State, t: Id)
    requires Queue(s) != [] && t < |u.pcs|
  {
    && u.owner == Queue(s)[0] && u.owner < |u.pcs| && u.pcs[u.owner].Holding? && u.pcs[t] == Finished(true)
    && u.handed == s.handed + [Queue(s)[0]]
  }

  /** An unlock while somebody is queued never frees the lock.  Each of its steps either hands it to the one who
      has waited longest or goes on, still owning it, towards the step that takes the newer waiters; and that
      step does hand it over. */
  lemma NoBarging(trace: seq<State>, acts: seq<Action>, k: nat, t: Id)
    requires Run(trace, acts) && k < |acts| && Unlocker(trace[k], acts[k]) == t && Queue(trace[k]) != []
    ensures t < |trace[k].pcs| <= |trace[k + 1].pcs| && trace[k + 1].word.Locked?
    ensures var s, u := trace[k], trace[k + 1];
      match s.pcs[t]
      case Holding => if s.waiters != [] then HandedOn(s, u, t) else u == Goto(s, t, Unlocking)
      case Unlocking => u == Goto(s, t, Taking)
      case Taking => HandedOn(s, u, t)
      case _ => false
  {
    RunKeepsInv(trace, acts, k);
    var s, a := trace[k], acts[k];
    assert Enabled(s, a) && trace[k + 1] == Apply(s, a);
    FirstWaits(s);
    hide Inv, Queue, Reverse;
  }

  /** The first of the queue is the first of m_waiters, or else the last of the stack. */
  lemma FirstWaits(s: State)
    requires Inv(s) && Queue(s) != []
    ensures s.word.Locked? && Queue(s)[0] < |s.pcs| && s.pcs[Queue(s)[0]].Waiting?
    ensures if s.waiters != [] then Queue(s)[0] == s.waiters[0] else s.word.stack != [] && Queue(s) == Reverse(s.word.stack)
  {
    assert Queue(s)[0] in Queue(s);
  }

  /** The mutex is free: no thread is between acquiring it and releasing it or handing it on. */
  predicate Free(s: State) { forall t :: 0 <= t < |s.pcs| ==> !Owning(s.pcs[t]) }

  lemma FreeExact(s: State)
    requires OwnerOk(s)
    ensures s.word.NotLocked? <==> Free(s)
  {
    if s.owner >= 0 { assert Owning(s.pcs[s.owner]); }
  }

  /** Thread t is the only one that moves, and gets the lock. */
  predicate Acquires(s: State, u: State, t: Id) {
    t < |s.pcs| && u == Goto(s, t, Holding).(word := Locked([]), owner := t)
  }

  /** try_lock gets the lock exactly if the mutex is free, and otherwise changes nothing. */
  lemma TryLockExact(trace: seq<State>, acts: seq<Action>, k: nat, t: Id)
    requires Run(trace, acts) && k < |acts| && acts[k] == Step(t) && t < |trace[k].pcs| && trace[k].pcs[t].Trying?
    ensures var s, u := trace[k], trace[k + 1];
      if Free(s) then Acquires(s, u, t) else u == Goto(s, t, Finished(false))
  {
    RunKeepsInv(trace, acts, k);
    FreeExact(trace[k]);
  }

  /** lock_async: as soon as its swap finds the word as it was last looked at, it gets the lock if the mutex is
      free and is queued, last, if not; until then it only looks again. */
  lemma LockExact(trace: seq<State>, acts: seq<Action>, k: nat, t: Id)
    requires Run(trace, acts) && k < |acts| && acts[k] == Step(t)
    requires t < |trace[k].pcs| && (trace[k].pcs[t].Loading? || trace[k].pcs[t].Swapping?)
    ensures var s, u := trace[k], trace[k + 1];
      if s.pcs[t] != Swapping(Look(s.word)) then u == Goto(s, t, Swapping(Look(s.word)))
      else if Free(s) then Acquires(s, u, t)
      else u.pcs == s.pcs[t := Waiting] && Queue(u) == Queue(s) + [t] && u.owner == s.owner && u.handed == s.handed
  {
    RunKeepsInv(trace, acts, k);
    var s, u := trace[k], trace[k + 1];
    FreeExact(s);
    hide Inv;
    if s.pcs[t] == Swapping(Look(s.word)) && s.word.Locked? {
      assert u.word == Locked([t] + s.word.stack) && u.word.stack[1..] == s.word.stack;
      assert Queue(u) == s.waiters + (Reverse(s.word.stack) + [t]);
    }
  }

  /** unlock with nobody queued: unless somebody queues in between, its second step frees the mutex. */
  lemma UnlockExact(trace: seq<State>, acts: seq<Action>, k: nat, t: Id)
    requires Run(trace, acts) && k < |acts| && Unlocker(trace[k], acts[k]) == t && Queue(trace[k]) == []
    ensures t < |trace[k].pcs|
    ensures var s, u := trace[k], trace[k + 1];
      match s.pcs[t]
      case Holding => u == Goto(s, t, Unlocking)
      case Unlocking => u.pcs == s.pcs[t := Finished(true)] && u.word.NotLocked? && Free(u) && Queue(u) == []
      case _ => false
  {
    RunKeepsInv(trace, acts, k);
    RunKeepsInv(trace, acts, k + 1);
    var s, u := trace[k], trace[k + 1];
    FreeExact(u);
    StackEmpty(s);
    hide QueueOk, Reverse, Distinct;
  }

  lemma StackEmpty(s: State)
    requires Queue(s) == []
    ensures s.waiters == [] && Stack(s.word) == []
  {
    assert |Queue(s)| == |s.waiters| + |Reverse(Stack(s.word))|;
  }

  // ---------------------------------------------------------------- the calls that were made

  /** The calls so far: is each a try_lock? */
  function TriesOf(acts: seq<Action>): seq<bool> {
    if acts == [] then []
    else
      var a := acts[|acts| - 1];
      TriesOf(acts[..|acts| - 1]) + if a.TryLock? then [true] else if a.LockAsync? then [false] else []
  }

  /** A try_lock never waits, and a lock_async never fails. */
  predicate Fits(tries: bool, p: Pc) {
    if tries then !p.Loading? && !p.Swapping? && !p.Waiting? else !p.Trying? && p != Finished(false)
  }

  ghost predicate AllFit(s: State, tries: seq<bool>) {
    |s.pcs| == |tries| && forall t :: 0 <= t < |tries| ==> Fits(tries[t], s.pcs[t])
  }

  /** unlock that goes on to take the stack finds somebody there. */
  lemma TakingFinds(s: State, t: Id)
    requires Inv(s) && t < |s.pcs| && s.pcs[t].Taking?
    ensures s.word.Locked?
    ensures var list := Reverse(s.word.stack); list != [] && 0 <= list[0] < |s.pcs| && s.pcs[list[0]].Waiting?
  {
    assert Owning(s.pcs[t]);
    assert s.waiters == [] && Queue(s) == Reverse(s.word.stack);
    assert Reverse(s.word.stack) == Reverse(s.word.stack[1..]) + [s.word.stack[0]];
    FirstWaits(s);
  }

  lemma FitsHandOver(s: State, t: Id, list: seq<Id>, tries: seq<bool>)
    requires AllFit(s, tries) && t < |s.pcs| && list != [] && list[0] < |s.pcs| && s.pcs[list[0]].Waiting?
    ensures AllFit(HandOver(s, t, list), tries)
  {
  }

  lemma FitsNew(s: State, a: Action, tries: seq<bool>)
    requires AllFit(s, tries) && (a.TryLock? || a.LockAsync?)
    ensures AllFit(Apply(s, a), tries + [a.TryLock?])
  {
  }

  lemma FitsMove(s: State, a: Action, tries: seq<bool>)
    requires Enabled(s, a) && AllFit(s, tries) && (a.Step? || a.Unlock?)
    requires if a.Unlock? then s.waiters == [] else !s.pcs[a.t].Taking?
    ensures AllFit(Apply(s, a), tries)
  {
  }

  lemma FitsStep(s: State, a: Action, tries: seq<bool>)
    requires Inv(s) && Enabled(s, a) && AllFit(s, tries)
    ensures AllFit(Apply(s, a), tries + if a.TryLock? then [true] else if a.LockAsync? then [false] else [])
  {
    assert tries + [] == tries;
    if a.Step? && s.pcs[a.t].Taking? {
      TakingFinds(s, a.t);
      FitsHandOver(s.(word := Locked([])), a.t, Reverse(s.word.stack), tries);
    } else if a.Unlock? && s.waiters != [] {
      FirstWaits(s);
      FitsHandOver(s, a.t, s.waiters, tries);
    } else if a.TryLock? || a.LockAsync? {
      FitsNew(s, a, tries);
    } else {
      FitsMove(s, a, tries);
    }
    hide Inv, Reverse, Queue, HandOver, AllFit;
  }

  /** Every call is there, and does what its kind may do. */
  lemma {:induction false} CallsFit(trace: seq<State>, acts: seq<Action>, k: nat)
    requires Run(trace, acts) && k <= |acts|
    ensures AllFit(trace[k], TriesOf(acts[..k]))
  {
    if k > 0 {
      assert acts[..k][..k - 1] == acts[..k - 1];
      hide Inv, Enabled, Apply, AllFit;
      CallsFit(trace, acts, k - 1);
      RunKeepsInv(trace, acts, k - 1);
      FitsStep(trace[k - 1], acts[k - 1], TriesOf(acts[..k - 1]));
    }
  }

  /** How many steps thread t has yet to take, at most, if no other thread moves. */
  function StepsLeft(s: State, t: Id): nat
    requires t < |s.pcs|
  {
    match s.pcs[t]
    case Trying => 1
    case Loading => 2
    case Swapping(seen) => if seen == Look(s.word) then 1 else 2
    case Unlocking => 2
    case Taking => 1
    case _ => 0
  }

  lemma Advances(s: State, t: Id)
    requires Inv(s) && Enabled(s, Step(t))
    ensures t < |Apply(s, Step(t)).pcs| && StepsLeft(Apply(s, Step(t)), t) < StepsLeft(s, t)
  {
    if s.pcs[t].Taking? { TakingFinds(s, t); }
    hide QueueOk, OwnerOk, Reverse, Queue;
  }

  /** A call that runs undisturbed ends after at most two steps. */
  lemma {:induction false} CallEnds(trace: seq<State>, acts: seq<Action>, j: nat, k: nat, t: Id)
    requires Run(trace, acts) && j <= k <= |acts| && t < |trace[j].pcs| && forall i :: j <= i < k ==> acts[i] == Step(t)
    ensures t < |trace[k].pcs| && k - j + StepsLeft(trace[k], t) <= StepsLeft(trace[j], t) <= 2
  {
    if j < k {
      CallEnds(trace, acts, j, k - 1, t);
      RunKeepsInv(trace, acts, k - 1);
      Advances(trace[k - 1], t);
    }
    hide Inv, Enabled, Apply;
  }
}
