/** async_auto_reset_event (lib/async_auto_reset_event.cpp): a word that packs a count of signals and a count
    of waiters, and whose two counts together act as a lock on the list of waiters.  One step per atomic
    access; compare-and-swap may also fail for no reason, which changes nothing.

    Every call of co_await, set and reset is a thread, named by its number; a waiting operation has the name
    of the thread that awaits it. */
module AutoResetEvent {
  import opened Tally
  import opened Waiters

  /** One more than the largest count. */
  const FIELD: nat := 0x1_0000_0000

  function SetCount(word: nat): nat { word % FIELD }

  function WaiterCount(word: nat): nat { word / FIELD }

  function Min(a: nat, b: nat): nat { if a < b then a else b }

  function Resumable(word: nat): nat { Min(SetCount(word), WaiterCount(word)) }

  /** Arithmetic of the 64-bit word. */
  function Add64(word: nat, d: int): nat { (word + d) % (FIELD * FIELD) }

  /** d waiters and d signals. */
  function Both(d: nat): int { d + d * FIELD }

  datatype Pc =
    | AwaitLoad                                               // operator co_await: about to load m_state
    | AwaitSwap(was: nat)                                     // it looked set: about to take a signal
    | Pushing                                                 // await_suspend: about to push onto m_newWaiters
    | Counting                                                // about to add one waiter
    | Dropping                                                // about to give up its own reference
    | Suspended
    | Continued                                               // past the co_await after having queued
    | Acquired                                                // past the co_await without queueing
    | SetLoad | SetSwap(was: nat) | ResetLoad | ResetSwap(was: nat)
    | Dequeuing(count: nat, taken: nat, batch: seq<Id>)       // resume_waiters, holding the lock
    | Resuming(batch: seq<Id>)                                // resume_waiters, about to resume the first of the batch
    | Returned

  datatype Loc = Outside | Queued | Batched(t: Id) | Released

  /** `newer` is m_newWaiters, newest first; `waiters` is m_waiters.  The rest is history: where each operation
      is, who holds the lock (-1: nobody), pushes and removals in order, and what became of signals. */
  datatype State = State(
    word: nat, newer: seq<Id>, waiters: seq<Id>,
    awaits: seq<bool>, pcs: seq<Pc>, refs: seq<int>,
    loc: seq<Loc>, holder: int, pushed: seq<Id>, left: seq<Id>,
    initially: nat, sets: nat, syncs: nat, resets: nat, removed: nat, resumes: seq<nat>)

  datatype Action = Await | Set | Reset | Step(t: Id)

  predicate Sized(s: State) {
    var n := |s.pcs|;
    |s.awaits| == n && |s.refs| == n && |s.loc| == n && |s.resumes| == n
  }

  ghost predicate Enabled(s: State, a: Action) {
    Sized(s) &&
    match a
    case Step(t) =>
      t < |s.pcs| &&
      (match s.pcs[t]
       case Counting => WaiterCount(s.word) + 1 < FIELD - 1   // fewer than 2^32 - 1 waiters
       case Resuming(batch) => batch != [] && batch[0] < |s.pcs|
       case Suspended => false
       case Continued => false
       case Acquired => false
       case Returned => false
       case _ => true)
    case _ => true
  }

  function NewThread(s: State, awaits: bool, pc: Pc): State {
    s.(awaits := s.awaits + [awaits], pcs := s.pcs + [pc], refs := s.refs + [2], loc := s.loc + [Outside],
       resumes := s.resumes + [0])
  }

  function Goto(s: State, t: Id, pc: Pc): State
    requires t < |s.pcs|
  {
    s.(pcs := s.pcs[t := pc])
  }

  /** After resume_waiters: await_suspend goes on, set returns. */
  function AfterResuming(s: State, t: Id): Pc
    requires t < |s.awaits|
  {
    if s.awaits[t] then Dropping else Returned
  }

  ghost function Apply(s: State, a: Action): State
    requires Enabled(s, a)
  {
    match a
    case Await => NewThread(s, true, AwaitLoad)
    case Set => NewThread(s, false, SetLoad)
    case Reset => NewThread(s, false, ResetLoad)
    case Step(t) =>
      match s.pcs[t]
      case Pushing => Push(s, t)
      case Counting => CountWaiter(s, t)
      case Dequeuing(count, taken, batch) => if taken < count then Dequeue(s, t) else Subtract(s, t)
      case Resuming(batch) => ResumeFirst(s, t)
      case Dropping => Drop(s, t)
      case _ => WordStep(s, t)
  }

  /** The loads and swaps of co_await, set and reset. */
  ghost function WordStep(s: State, t: Id): State
    requires t < |s.pcs|
  {
    var w := s.word;
    match s.pcs[t]
    case AwaitLoad => Goto(s, t, if SetCount(w) > WaiterCount(w) then AwaitSwap(w) else Pushing)
    case AwaitSwap(was) =>
      if w == was then Goto(s, t, Acquired).(word := Add64(w, -1), syncs := s.syncs + 1) else Goto(s, t, Pushing)
    case SetLoad => Goto(s, t, if SetCount(w) > WaiterCount(w) then Returned else SetSwap(w))
    case SetSwap(was) =>
      if w != was then Goto(s, t, if SetCount(w) > WaiterCount(w) then Returned else SetSwap(w))
      else if was != 0 && SetCount(was) == 0 then
        Goto(s, t, Dequeuing(Resumable(Add64(was, 1)), 0, [])).(word := Add64(w, 1), sets := s.sets + 1, holder := t)
      else Goto(s, t, Returned).(word := Add64(w, 1), sets := s.sets + 1)
    case ResetLoad => Goto(s, t, if SetCount(w) > WaiterCount(w) then ResetSwap(w) else Returned)
    case ResetSwap(was) =>
      if w != was then Goto(s, t, if SetCount(w) > WaiterCount(w) then ResetSwap(w) else Returned)
      else Goto(s, t, Returned).(word := Add64(w, -1), resets := s.resets + 1)
    case _ => s
  }

  ghost function Push(s: State, t: Id): State
    requires Sized(s) && t < |s.pcs|
  {
    Goto(s, t, Counting).(newer := [t] + s.newer, pushed := s.pushed + [t], loc := s.loc[t := Queued])
  }

  ghost function CountWaiter(s: State, t: Id): State
    requires t < |s.pcs|
  {
    var w := Add64(s.word, FIELD);
    if s.word != 0 && WaiterCount(s.word) == 0 then Goto(s, t, Dequeuing(Resumable(w), 0, [])).(word := w, holder := t)
    else Goto(s, t, Dropping).(word := w)
  }

  /** Take one waiter; when m_waiters has run out, first take and reverse m_newWaiters.  With both lists empty
      the code would dereference null; here nothing happens (NeverRunsOut: it does not come to that). */
  ghost function Dequeue(s: State, t: Id): State
    requires Sized(s) && t < |s.pcs| && s.pcs[t].Dequeuing?
  {
    var l := if s.waiters == [] then Reverse(s.newer) else s.waiters;
    var n := if s.waiters == [] then [] else s.newer;
    if l == [] || l[0] >= |s.loc| then s
    else
      Goto(s, t, s.pcs[t].(taken := s.pcs[t].taken + 1, batch := s.pcs[t].batch + [l[0]])).(
        newer := n, waiters := l[1..], left := s.left + [l[0]], loc := s.loc[l[0] := Batched(t)])
  }

  ghost function Subtract(s: State, t: Id): State
    requires t < |s.pcs| && s.pcs[t].Dequeuing?
  {
    var count := s.pcs[t].count;
    var w := Add64(s.word, -Both(count));
    if Resumable(w) > 0 then
      Goto(s, t, Dequeuing(Resumable(w), 0, s.pcs[t].batch)).(word := w, removed := s.removed + count)
    else Goto(s, t, Resuming(s.pcs[t].batch)).(word := w, removed := s.removed + count, holder := -1)
  }

  ghost function ResumeFirst(s: State, t: Id): State
    requires Sized(s) && t < |s.pcs| && s.pcs[t].Resuming? && s.pcs[t].batch != [] && s.pcs[t].batch[0] < |s.pcs|
  {
    var a, rest := s.pcs[t].batch[0], s.pcs[t].batch[1..];
    var r := Goto(s, t, if rest == [] then AfterResuming(s, t) else Resuming(rest)).(
      refs := s.refs[a := s.refs[a] - 1], loc := s.loc[a := Released]);
    if s.refs[a] == 1 then r.(pcs := r.pcs[a := Continued], resumes := s.resumes[a := s.resumes[a] + 1]) else r
  }

  ghost function Drop(s: State, t: Id): State
    requires Sized(s) && t < |s.pcs|
  {
    var r := s.(refs := s.refs[t := s.refs[t] - 1]);
    if s.refs[t] == 1 then Goto(r, t, Continued).(resumes := s.resumes[t := s.resumes[t] + 1]) else Goto(r, t, Suspended)
  }

  ghost predicate Init(s: State) {
    && Sized(s) && s.pcs == [] && s.newer == [] && s.waiters == [] && s.holder == -1 && s.pushed == [] && s.left == []
    && s.initially <= 1 && s.word == s.initially
    && s.sets == 0 && s.syncs == 0 && s.resets == 0 && s.removed == 0
  }

  // ---------------------------------------------------------------- the invariant

  /** The two counts: never more than one signal without a waiter, and neither field overflows. */
  ghost predicate WordOk(s: State) {
    SetCount(s.word) <= WaiterCount(s.word) + 1 && WaiterCount(s.word) < FIELD - 1
  }

  /** One thread is in the dequeue loop exactly when there is both a signal and a waiter. */
  ghost predicate LockOk(s: State) {
    && -1 <= s.holder < |s.pcs|
    && (s.holder >= 0 <==> Resumable(s.word) > 0)
    && (forall t :: 0 <= t < |s.pcs| ==> (s.pcs[t].Dequeuing? <==> t == s.holder))
    && (s.holder >= 0 ==>
         var p := s.pcs[s.holder]; p.Dequeuing? && p.taken <= p.count <= Resumable(s.word) && p.count >= 1)
    && (forall t :: 0 <= t < |s.pcs| ==> SwapOk(s.pcs[t]))
  }

  /** A swap is only tried with an old value for which it makes sense. */
  predicate SwapOk(p: Pc) {
    match p
    case AwaitSwap(was) => SetCount(was) > WaiterCount(was)
    case SetSwap(was) => SetCount(was) <= WaiterCount(was)
    case ResetSwap(was) => SetCount(was) > WaiterCount(was)
    case _ => true
  }

  function Taken(s: State): nat {
    if 0 <= s.holder < |s.pcs| && s.pcs[s.holder].Dequeuing? then s.pcs[s.holder].taken else 0
  }

  function IsCounting(): Pc -> bool { (p: Pc) => p.Counting? }

  /** The waiters in the order in which they will leave. */
  function Queue(s: State): seq<Id> { s.waiters + Reverse(s.newer) }

  /** Those in the lists, and those taken since the last subtraction, are the counted ones and the ones about to
      be counted. */
  ghost predicate QueueOk(s: State) {
    && s.left + Queue(s) == s.pushed
    && WaiterCount(s.word) + Count(IsCounting(), s.pcs) == |Queue(s)| + Taken(s)
    && |s.left| == s.removed + Taken(s)
  }

  ghost predicate SignalsOk(s: State) {
    s.initially + s.sets == SetCount(s.word) + s.syncs + s.resets + s.removed
  }

  function BatchOf(p: Pc): seq<Id> { if p.Dequeuing? || p.Resuming? then p.batch else [] }

  ghost predicate LocOk(s: State) {
    && Sized(s)
    && Holds(s.loc, Queue(s), Queued)
    && (forall t :: 0 <= t < |s.pcs| ==> Holds(s.loc, BatchOf(s.pcs[t]), Batched(t)))
    && (forall a :: 0 <= a < |s.loc| ==> (s.loc[a].Batched? ==> s.loc[a].t < |s.pcs|))
    && (forall t :: 0 <= t < |s.pcs| ==> (s.pcs[t].Resuming? ==> s.pcs[t].batch != []))
    && (forall t :: 0 <= t < |s.pcs| ==> (s.pcs[t].Dequeuing? && s.pcs[t].taken > 0 ==> s.pcs[t].batch != []))
  }

  /** A queued operation has two references, its own and its resumer's; it goes on when both are gone. */
  ghost predicate RefOk(s: State, a: Id)
    requires Sized(s) && a < |s.pcs|
  {
    var p := s.pcs[a];
    var own := p.Suspended? || p.Continued?;
    if s.loc[a].Outside? then
      s.resumes[a] == 0 && s.refs[a] == 2 && !own && !p.Counting? && !p.Dropping?
      && (p.Pushing? || p.AwaitLoad? || p.AwaitSwap? || p.Acquired? <==> s.awaits[a])
    else
      && s.awaits[a]
      && (p.Counting? || p.Dequeuing? || p.Resuming? || p.Dropping? || own)
      && s.refs[a] == 2 - One(own) - One(s.loc[a].Released?)
      && (p.Continued? <==> own && s.loc[a].Released?)
      && s.resumes[a] == One(p.Continued?)
  }

  ghost predicate RefsOk(s: State)
    requires Sized(s)
  {
    forall a :: 0 <= a < |s.pcs| ==> RefOk(s, a)
  }

  ghost predicate Inv(s: State) {
    Sized(s) && WordOk(s) && LockOk(s) && QueueOk(s) && SignalsOk(s) && LocOk(s) && RefsOk(s)
  }

  // ---------------------------------------------------------------- the packed word

  lemma Unpack(word: nat, sets: nat, waiters: nat)
    requires sets < FIELD && waiters < FIELD && word == sets + waiters * FIELD
    ensures SetCount(word) == sets && WaiterCount(word) == waiters && word % (FIELD * FIELD) == word
  {
  }

  /** Adding to and taking from one field leaves the other alone. */
  lemma AddSet(word: nat)
    requires WaiterCount(word) < FIELD && SetCount(word) + 1 < FIELD
    ensures SetCount(Add64(word, 1)) == SetCount(word) + 1 && WaiterCount(Add64(word, 1)) == WaiterCount(word)
  {
    Unpack(word + 1, SetCount(word) + 1, WaiterCount(word));
  }

  lemma TakeSet(word: nat)
    requires WaiterCount(word) < FIELD && SetCount(word) >= 1
    ensures SetCount(Add64(word, -1)) == SetCount(word) - 1 && WaiterCount(Add64(word, -1)) == WaiterCount(word)
  {
    Unpack(word - 1, SetCount(word) - 1, WaiterCount(word));
  }

  lemma AddWaiter(word: nat)
    requires WaiterCount(word) + 1 < FIELD
    ensures SetCount(Add64(word, FIELD)) == SetCount(word) && WaiterCount(Add64(word, FIELD)) == WaiterCount(word) + 1
  {
    Unpack(word + FIELD, SetCount(word), WaiterCount(word) + 1);
  }

  /** Taking the same number from both fields at once never borrows from one to the other. */
  lemma TakeBoth(word: nat, d: nat)
    requires WaiterCount(word) < FIELD && d <= Resumable(word)
    ensures var w := Add64(word, -Both(d));
      SetCount(w) == SetCount(word) - d && WaiterCount(w) == WaiterCount(word) - d
  {
    Unpack(word - Both(d), SetCount(word) - d, WaiterCount(word) - d);
  }

  // ---------------------------------------------------------------- every step keeps the counts and the lock

  ghost predicate CoreOk(s: State) { Sized(s) && WordOk(s) && LockOk(s) }

  /** A thread that is not in the dequeue loop moves on, with or without touching the word. */
  lemma LockKept(s: State, u: State, t: Id, p: Pc)
    requires CoreOk(s) && Sized(u) && t < |s.pcs| && u.pcs == s.pcs[t := p] && u.holder == s.holder
    requires !s.pcs[t].Dequeuing? && !p.Dequeuing? && SwapOk(p)
    requires WordOk(u) && Resumable(u.word) >= Resumable(s.word) && (Resumable(u.word) > 0 ==> Resumable(s.word) > 0)
    ensures CoreOk(u)
  {
    hide Resumable, SwapOk, WordOk;
  }

  /** The thread that makes both counts positive gets the lock. */
  lemma LockTaken(s: State, u: State, t: Id)
    requires CoreOk(s) && Sized(u) && t < |s.pcs| && u.holder == t && !s.pcs[t].Dequeuing?
    requires WordOk(u) && Resumable(s.word) == 0 && Resumable(u.word) > 0
    requires u.pcs == s.pcs[t := Dequeuing(Resumable(u.word), 0, [])]
    ensures CoreOk(u)
  {
    hide Resumable, WordOk;
  }

  /** The word of one step of co_await, set or reset. */
  lemma WordOfStep(s: State, t: Id)
    requires CoreOk(s) && Enabled(s, Step(t)) && !s.pcs[t].Dequeuing?
    ensures var u := WordStep(s, t);
      && WordOk(u) && Resumable(u.word) >= Resumable(s.word) && SwapOk(u.pcs[t])
      && (u.pcs[t].Dequeuing? ==> Resumable(s.word) == 0 && Resumable(u.word) > 0)
      && (!u.pcs[t].Dequeuing? && Resumable(u.word) > 0 ==> Resumable(s.word) > 0)
  {
    AddSetSafe(s.word);
    TakeSetSafe(s.word);
    assert SwapOk(s.pcs[t]) && WordOk(s);
    hide Add64, SetCount, WaiterCount, LockOk;
  }

  lemma CoreOfWordStep(s: State, t: Id)
    requires CoreOk(s) && Enabled(s, Step(t))
    ensures CoreOk(WordStep(s, t))
  {
    var u := WordStep(s, t);
    assert s.pcs[t].Dequeuing? ==> u == s;
    if !s.pcs[t].Dequeuing? {
      WordOfStep(s, t);
      hide Add64, Resumable, LockOk, SwapOk, WordOk;
      if u.pcs[t].Dequeuing? { LockTaken(s, u, t); } else { LockKept(s, u, t, u.pcs[t]); }
    }
  }

  /** AddSet and TakeSet wherever the code uses them. */
  lemma AddSetSafe(word: nat)
    ensures WaiterCount(word) < FIELD - 1 && SetCount(word) <= WaiterCount(word) ==>
      SetCount(Add64(word, 1)) == SetCount(word) + 1 && WaiterCount(Add64(word, 1)) == WaiterCount(word)
    ensures word == 0 <==> SetCount(word) == 0 && WaiterCount(word) == 0
  {
    if WaiterCount(word) < FIELD - 1 && SetCount(word) <= WaiterCount(word) { AddSet(word); }
  }

  lemma TakeSetSafe(word: nat)
    ensures WaiterCount(word) < FIELD && SetCount(word) > WaiterCount(word) ==>
      SetCount(Add64(word, -1)) == SetCount(word) - 1 && WaiterCount(Add64(word, -1)) == WaiterCount(word)
  {
    if WaiterCount(word) < FIELD && SetCount(word) > WaiterCount(word) { TakeSet(word); }
  }

  lemma CoreOfCountWaiter(s: State, t: Id)
    requires CoreOk(s) && Enabled(s, Step(t)) && s.pcs[t].Counting?
    ensures CoreOk(CountWaiter(s, t))
  {
    AddWaiter(s.word);
    AddSetSafe(s.word);
    hide Add64, SetCount, WaiterCount;
  }

  lemma CoreOfSubtract(s: State, t: Id)
    requires CoreOk(s) && Enabled(s, Step(t)) && s.pcs[t].Dequeuing?
    ensures CoreOk(Subtract(s, t))
  {
    TakeBoth(s.word, s.pcs[t].count);
    hide Add64, SetCount, WaiterCount, Both;
  }

  lemma CoreOfResume(s: State, t: Id)
    requires CoreOk(s) && LocOk(s) && RefsOk(s) && Enabled(s, Step(t)) && s.pcs[t].Resuming?
    ensures CoreOk(ResumeFirst(s, t))
  {
    var u, a := ResumeFirst(s, t), s.pcs[t].batch[0];
    WaitingToResume(s, t);
    hide SetCount, WaiterCount, LockOk, LocOk, RefsOk;
    var v := Goto(s, t, if s.pcs[t].batch[1..] == [] then AfterResuming(s, t) else Resuming(s.pcs[t].batch[1..]));
    LockKept(s, v, t, v.pcs[t]);
    if s.refs[a] == 1 { LockKept(v, u, a, u.pcs[a]); } else { LockKept(s, u, t, v.pcs[t]); }
  }

  /** The first of a batch is queued no more and not resumed yet: if one reference is left it is suspended. */
  lemma WaitingToResume(s: State, t: Id)
    requires LocOk(s) && RefsOk(s) && Enabled(s, Step(t)) && s.pcs[t].Resuming?
    ensures var a := s.pcs[t].batch[0];
      && s.loc[a] == Batched(t) && s.awaits[a]
      && (s.refs[a] == 1 <==> s.pcs[a].Suspended?)
      && (s.refs[a] != 1 ==> s.refs[a] == 2)
      && (s.refs[a] == 1 ==> a != t)
      && !s.pcs[a].Continued? && s.resumes[a] == 0
  {
    var a := s.pcs[t].batch[0];
    assert a in s.pcs[t].batch && Holds(s.loc, BatchOf(s.pcs[t]), Batched(t));
    assert RefOk(s, a);
  }

  lemma CoreOfOther(s: State, a: Action)
    requires CoreOk(s) && Enabled(s, a)
    requires a.Step? ==> (var p := s.pcs[a.t]; p.Pushing? || p.Dropping? || (p.Dequeuing? && p.taken < p.count))
    ensures CoreOk(Apply(s, a))
  {
    hide SetCount, WaiterCount;
  }

  // ---------------------------------------------------------------- every step keeps the queue and the signals

  ghost predicate TallyOk(s: State) { QueueOk(s) && SignalsOk(s) }

  lemma CountGoto(s: State, t: Id, p: Pc)
    requires t < |s.pcs|
    ensures Count(IsCounting(), s.pcs[t := p]) + One(s.pcs[t].Counting?) == Count(IsCounting(), s.pcs) + One(p.Counting?)
  {
    CountUpdate(IsCounting(), s.pcs, t, p);
  }

  /** A thread that is neither counting nor dequeuing changes nothing about the queue. */
  lemma QueueKept(s: State, u: State, t: Id)
    requires QueueOk(s) && t < |s.pcs| == |u.pcs| && u.pcs == s.pcs[t := u.pcs[t]] && Taken(u) == Taken(s)
    requires !s.pcs[t].Counting? && !u.pcs[t].Counting? && WaiterCount(u.word) == WaiterCount(s.word)
    requires u.newer == s.newer && u.waiters == s.waiters && u.left == s.left && u.pushed == s.pushed && u.removed == s.removed
    ensures QueueOk(u)
  {
    CountGoto(s, t, u.pcs[t]);
    hide WaiterCount, Count, Reverse, Taken;
  }

  lemma SignalsOfWordStep(s: State, t: Id)
    requires CoreOk(s) && SignalsOk(s) && Enabled(s, Step(t))
    ensures SignalsOk(WordStep(s, t)) && WaiterCount(WordStep(s, t).word) == WaiterCount(s.word)
  {
    AddSetSafe(s.word);
    TakeSetSafe(s.word);
    assert SwapOk(s.pcs[t]);
    hide Add64, SetCount, WaiterCount, LockOk;
  }

  lemma TakenOfWordStep(s: State, t: Id)
    requires CoreOk(s) && Enabled(s, Step(t)) && !s.pcs[t].Dequeuing?
    ensures Taken(WordStep(s, t)) == Taken(s)
  {
    AddSetSafe(s.word);
    hide Add64, SetCount, WaiterCount;
  }

  lemma TallyOfWordStep(s: State, t: Id)
    requires CoreOk(s) && TallyOk(s) && Enabled(s, Step(t)) && AtWord(s.pcs[t])
    ensures TallyOk(WordStep(s, t))
  {
    var u := WordStep(s, t);
    SignalsOfWordStep(s, t);
    TakenOfWordStep(s, t);
    WordStepFrame(s, t);
    hide Add64, SetCount, WaiterCount, QueueOk, SignalsOk, Taken, LockOk, WordStep;
    QueueKept(s, u, t);
  }

  lemma TallyOfPush(s: State, t: Id)
    requires CoreOk(s) && TallyOk(s) && Enabled(s, Step(t)) && s.pcs[t].Pushing?
    ensures TallyOk(Push(s, t)) && Queue(Push(s, t)) == Queue(s) + [t]
  {
    var u := Push(s, t);
    CountGoto(s, t, Counting);
    assert u.newer[1..] == s.newer;
    assert Queue(u) == s.waiters + (Reverse(s.newer) + [t]);
    assert s.left + (Queue(s) + [t]) == (s.left + Queue(s)) + [t];
    hide SetCount, WaiterCount, Count, Reverse;
  }

  lemma TallyOfCountWaiter(s: State, t: Id)
    requires CoreOk(s) && TallyOk(s) && Enabled(s, Step(t)) && s.pcs[t].Counting?
    ensures TallyOk(CountWaiter(s, t))
  {
    var u := CountWaiter(s, t);
    AddWaiter(s.word);
    AddSetSafe(s.word);
    CountGoto(s, t, u.pcs[t]);
    hide Add64, SetCount, WaiterCount, Count, Reverse;
  }

  lemma TakenOfSubtract(s: State, t: Id)
    requires CoreOk(s) && Enabled(s, Step(t)) && s.pcs[t].Dequeuing? && s.pcs[t].taken >= s.pcs[t].count
    ensures s.holder == t && Taken(s) == s.pcs[t].count && Taken(Subtract(s, t)) == 0
    ensures s.pcs[t].count <= Resumable(s.word) && WaiterCount(s.word) < FIELD
  {
    hide Add64, SetCount, WaiterCount;
  }

  /** What the end of a round leaves alone. */
  lemma SubtractFrame(s: State, t: Id)
    requires t < |s.pcs| && s.pcs[t].Dequeuing?
    ensures var u, d := Subtract(s, t), s.pcs[t].count;
      && u == s.(pcs := u.pcs, word := Add64(s.word, -Both(d)), removed := s.removed + d, holder := u.holder)
      && u.pcs == s.pcs[t := u.pcs[t]] && |u.pcs| == |s.pcs| && !u.pcs[t].Counting?
  {
    hide Add64, Resumable, Both;
  }

  lemma TallyAfter(s: State, u: State, d: nat)
    requires TallyOk(s) && Queue(u) == Queue(s) && u.left == s.left && u.pushed == s.pushed
    requires Count(IsCounting(), u.pcs) == Count(IsCounting(), s.pcs)
    requires Taken(s) == d && Taken(u) == 0 && u.removed == s.removed + d
    requires WaiterCount(u.word) == WaiterCount(s.word) - d && SetCount(u.word) == SetCount(s.word) - d
    requires u.initially == s.initially && u.sets == s.sets && u.syncs == s.syncs && u.resets == s.resets
    ensures TallyOk(u)
  {
    hide Queue, Count, Taken, WaiterCount, SetCount;
  }

  lemma TallyOfSubtract(s: State, t: Id)
    requires CoreOk(s) && TallyOk(s) && Enabled(s, Step(t)) && s.pcs[t].Dequeuing? && s.pcs[t].taken >= s.pcs[t].count
    ensures TallyOk(Subtract(s, t))
  {
    hide Subtract, CoreOk, TallyOk, Resumable, SetCount, WaiterCount, Both, Add64, Count, Taken, Reverse;
    TakenOfSubtract(s, t);
    SubtractFrame(s, t);
    TakeBoth(s.word, s.pcs[t].count);
    CountGoto(s, t, Subtract(s, t).pcs[t]);
    TallyAfter(s, Subtract(s, t), s.pcs[t].count);
  }

  /** As long as the dequeue loop wants another waiter there is one, even if some waiters are not yet counted. */
  lemma WaiterLeft(s: State, t: Id)
    requires CoreOk(s) && QueueOk(s) && t < |s.pcs| && s.pcs[t].Dequeuing? && s.pcs[t].taken < s.pcs[t].count
    ensures Queue(s) != []
  {
    hide SetCount, WaiterCount, Count, Reverse;
  }

  lemma DequeueTakesFirst(s: State, t: Id)
    requires CoreOk(s) && QueueOk(s) && LocOk(s) && t < |s.pcs| && s.pcs[t].Dequeuing? && s.pcs[t].taken < s.pcs[t].count
    ensures var q, p := Queue(s), s.pcs[t]; q != [] && q[0] < |s.loc| && s.loc[q[0]] == Queued
    ensures var q, p, u := Queue(s), s.pcs[t], Dequeue(s, t);
      && Queue(u) == q[1..]
      && u == s.(newer := u.newer, waiters := u.waiters, left := s.left + [q[0]], loc := s.loc[q[0] := Batched(t)],
                 pcs := s.pcs[t := Dequeuing(p.count, p.taken + 1, p.batch + [q[0]])])
  {
    WaiterLeft(s, t);
    assert Queue(s)[0] in Queue(s);
    hide SetCount, WaiterCount, Count, CoreOk, QueueOk;
    if s.waiters == [] {
      assert Queue(s) == Reverse(s.newer);
    }
  }

  lemma TallyOfDequeue(s: State, t: Id)
    requires CoreOk(s) && TallyOk(s) && LocOk(s) && Enabled(s, Step(t)) && s.pcs[t].Dequeuing? && s.pcs[t].taken < s.pcs[t].count
    ensures TallyOk(Dequeue(s, t))
  {
    var u, q := Dequeue(s, t), Queue(s);
    DequeueTakesFirst(s, t);
    CountGoto(s, t, u.pcs[t]);
    assert s.left + q == (s.left + [q[0]]) + q[1..];
    hide SetCount, WaiterCount, Count, Queue, Dequeue, LocOk;
  }

  lemma TallyOfResume(s: State, t: Id)
    requires CoreOk(s) && TallyOk(s) && LocOk(s) && RefsOk(s) && Enabled(s, Step(t)) && s.pcs[t].Resuming?
    ensures TallyOk(ResumeFirst(s, t))
  {
    var u, a := ResumeFirst(s, t), s.pcs[t].batch[0];
    WaitingToResume(s, t);
    var p := if s.pcs[t].batch[1..] == [] then AfterResuming(s, t) else Resuming(s.pcs[t].batch[1..]);
    var v := Goto(s, t, p);
    assert Taken(u) == Taken(v) == Taken(s);
    hide SetCount, WaiterCount, Taken, LocOk, RefsOk, LockOk, QueueOk;
    QueueKept(s, v, t);
    if s.refs[a] == 1 { QueueKept(v, u, a); } else { QueueKept(s, u, t); }
  }

  lemma TallyOfDrop(s: State, t: Id)
    requires CoreOk(s) && TallyOk(s) && Enabled(s, Step(t)) && s.pcs[t].Dropping?
    ensures TallyOk(Drop(s, t))
  {
    CountGoto(s, t, Drop(s, t).pcs[t]);
    hide SetCount, WaiterCount, Count, Reverse;
  }

  lemma TallyOfNew(s: State, awaits: bool, p: Pc)
    requires CoreOk(s) && TallyOk(s) && !p.Counting? && !p.Dequeuing?
    ensures TallyOk(NewThread(s, awaits, p))
  {
    CountAppend(IsCounting(), s.pcs, p);
    hide SetCount, WaiterCount, Count, Reverse;
  }

  // ---------------------------------------------------------------- every step keeps the places

  ghost predicate BatchesOk(loc: seq<Loc>, pcs: seq<Pc>, except: int) {
    forall t :: 0 <= t < |pcs| && t != except ==> Holds(loc, BatchOf(pcs[t]), Batched(t))
  }

  ghost predicate SteadyOk(s: State) {
    && (forall a :: 0 <= a < |s.loc| ==> (s.loc[a].Batched? ==> s.loc[a].t < |s.pcs|))
    && (forall t :: 0 <= t < |s.pcs| ==> (s.pcs[t].Resuming? ==> s.pcs[t].batch != []))
    && (forall t :: 0 <= t < |s.pcs| ==> (s.pcs[t].Dequeuing? && s.pcs[t].taken > 0 ==> s.pcs[t].batch != []))
  }

  lemma LocParts(s: State)
    ensures LocOk(s) <==> Sized(s) && Holds(s.loc, Queue(s), Queued) && BatchesOk(s.loc, s.pcs, -1) && SteadyOk(s)
  {
    hide Holds;
  }

  lemma BatchesMove(loc: seq<Loc>, pcs: seq<Pc>, other: seq<Pc>, except: int, a: Id, q: Loc)
    requires BatchesOk(loc, pcs, -1) && |other| == |pcs| && a < |loc|
    requires forall k :: 0 <= k < |pcs| && k != except ==> BatchOf(other[k]) == BatchOf(pcs[k])
    requires loc[a].Batched? ==> loc[a].t == except
    requires q.Batched? ==> q.t == except
    ensures BatchesOk(loc[a := q], other, except)
  {
    hide Holds;
    forall k | 0 <= k < |other| && k != except ensures Holds(loc[a := q], BatchOf(other[k]), Batched(k)) {
      PutElsewhere(loc, a, q, BatchOf(pcs[k]), Batched(k));
    }
  }

  lemma LocOfQuiet(s: State, u: State, t: Id)
    requires LocOk(s) && Sized(u) && u.loc == s.loc && Queue(u) == Queue(s) && t < |s.pcs| == |u.pcs|
    requires forall k :: 0 <= k < |s.pcs| && k != t ==> u.pcs[k] == s.pcs[k]
    requires BatchOf(u.pcs[t]) == BatchOf(s.pcs[t])
    requires u.pcs[t].Resuming? || (u.pcs[t].Dequeuing? && u.pcs[t].taken > 0) ==> u.pcs[t].batch != []
    ensures LocOk(u)
  {
    LocParts(s);
    LocParts(u);
    hide Holds, Queue;
  }

  predicate AtWord(p: Pc) { p.AwaitLoad? || p.AwaitSwap? || p.SetLoad? || p.SetSwap? || p.ResetLoad? || p.ResetSwap? }

  /** What the loads and swaps leave alone. */
  lemma WordStepFrame(s: State, t: Id)
    requires t < |s.pcs| && AtWord(s.pcs[t])
    ensures var u, p := WordStep(s, t), s.pcs[t];
      && |u.pcs| == |s.pcs| && (forall k :: 0 <= k < |s.pcs| && k != t ==> u.pcs[k] == s.pcs[k])
      && u.newer == s.newer && u.waiters == s.waiters && u.awaits == s.awaits && u.refs == s.refs && u.loc == s.loc
      && u.pushed == s.pushed && u.left == s.left && u.resumes == s.resumes && u.removed == s.removed
      && (p.AwaitLoad? ==> u.pcs[t].AwaitSwap? || u.pcs[t].Pushing?)
      && (p.AwaitSwap? ==> u.pcs[t].Acquired? || u.pcs[t].Pushing?)
      && (p.SetLoad? || p.SetSwap? ==> u.pcs[t].SetSwap? || u.pcs[t].Returned? || (u.pcs[t].Dequeuing? && u.pcs[t].taken == 0 && u.pcs[t].batch == []))
      && (p.ResetLoad? || p.ResetSwap? ==> u.pcs[t].ResetSwap? || u.pcs[t].Returned?)
  {
    hide SetCount, WaiterCount, Add64, Resumable;
  }

  lemma LocOfWordStep(s: State, t: Id)
    requires LocOk(s) && Enabled(s, Step(t)) && AtWord(s.pcs[t])
    ensures LocOk(WordStep(s, t))
  {
    var u := WordStep(s, t);
    WordStepFrame(s, t);
    hide Holds, Reverse, SetCount, WaiterCount, WordStep;
    LocOfQuiet(s, u, t);
  }

  lemma LocOfCount(s: State, t: Id)
    requires CoreOk(s) && LocOk(s) && Enabled(s, Step(t))
    requires s.pcs[t].Counting? || s.pcs[t].Dropping?
    ensures LocOk(Apply(s, Step(t)))
  {
    var u := Apply(s, Step(t));
    hide Holds, Reverse, SetCount, WaiterCount, LocOk;
    LocOfQuiet(s, u, t);
  }

  lemma LocOfSubtract(s: State, t: Id)
    requires CoreOk(s) && LocOk(s) && t < |s.pcs| && s.pcs[t].Dequeuing? && s.pcs[t].taken >= s.pcs[t].count
    ensures LocOk(Subtract(s, t))
  {
    var u := Subtract(s, t);
    assert s.pcs[t].batch != [];
    hide Holds, Reverse, SetCount, WaiterCount, LocOk, LockOk;
    LocOfQuiet(s, u, t);
  }

  lemma LocOfPush(s: State, t: Id)
    requires CoreOk(s) && TallyOk(s) && LocOk(s) && RefsOk(s) && Enabled(s, Step(t)) && s.pcs[t].Pushing?
    ensures LocOk(Push(s, t))
  {
    var u := Push(s, t);
    TallyOfPush(s, t);
    assert RefOk(s, t);
    LocParts(s);
    LocParts(u);
    hide Holds, Queue, CoreOk, TallyOk, RefsOk, LocOk;
    PutLast(s.loc, t, Queue(s), Queued);
    BatchesMove(s.loc, s.pcs, u.pcs, -1, t, Queued);
  }

  lemma LocOfDequeue(s: State, t: Id)
    requires CoreOk(s) && TallyOk(s) && LocOk(s) && Enabled(s, Step(t)) && s.pcs[t].Dequeuing? && s.pcs[t].taken < s.pcs[t].count
    ensures LocOk(Dequeue(s, t))
  {
    var u, q := Dequeue(s, t), Queue(s);
    DequeueTakesFirst(s, t);
    LocParts(s);
    LocParts(u);
    hide Holds, Queue, CoreOk, TallyOk, LocOk, Dequeue;
    TakeFirst(s.loc, q, Queued, Batched(t));
    PutLast(s.loc, q[0], BatchOf(s.pcs[t]), Batched(t));
    BatchesMove(s.loc, s.pcs, u.pcs, t, q[0], Batched(t));
    assert BatchesOk(u.loc, u.pcs, -1);
  }

  lemma LocOfResume(s: State, t: Id)
    requires LocOk(s) && RefsOk(s) && Enabled(s, Step(t)) && s.pcs[t].Resuming?
    ensures LocOk(ResumeFirst(s, t))
  {
    var u, b := ResumeFirst(s, t), s.pcs[t].batch;
    WaitingToResume(s, t);
    LocParts(s);
    LocParts(u);
    assert Queue(u) == Queue(s);
    hide Holds, Queue, RefsOk, LocOk;
    TakeFirst(s.loc, b, Batched(t), Released);
    TakeElsewhere(s.loc, b, Batched(t), Released, Queue(s), Queued);
    BatchesMove(s.loc, s.pcs, u.pcs, t, b[0], Released);
    assert BatchOf(u.pcs[t]) == b[1..];
    assert BatchesOk(u.loc, u.pcs, -1);
  }

  lemma LocOfNew(s: State, awaits: bool, p: Pc)
    requires LocOk(s) && BatchOf(p) == [] && !p.Resuming? && !p.Dequeuing?
    ensures LocOk(NewThread(s, awaits, p))
  {
    var u, n := NewThread(s, awaits, p), |s.pcs|;
    assert forall a :: 0 <= a < |s.loc| ==> u.loc[a] == s.loc[a] && s.loc[a] != Batched(n);
    assert Holds(u.loc, [], Batched(n));
    LocParts(s);
    LocParts(u);
    assert Queue(u) == Queue(s);
    hide Holds, Queue, LocOk;
    HoldsAppend(s.loc, Outside, Queue(s), Queued);
    forall k | 0 <= k < |u.pcs| ensures Holds(u.loc, BatchOf(u.pcs[k]), Batched(k)) {
      if k < n { HoldsAppend(s.loc, Outside, BatchOf(s.pcs[k]), Batched(k)); }
    }
  }

  // ---------------------------------------------------------------- every step keeps the references

  lemma RefsKept(s: State, u: State, t: Id)
    requires Sized(s) && Sized(u) && RefsOk(s) && t < |s.pcs| == |u.pcs|
    requires forall k :: 0 <= k < |s.pcs| && k != t ==>
      (u.pcs[k] == s.pcs[k] && u.refs[k] == s.refs[k] && u.resumes[k] == s.resumes[k]
       && (u.loc[k] == s.loc[k] || (!u.loc[k].Outside? && !s.loc[k].Outside? && !u.loc[k].Released? && !s.loc[k].Released?)))
    requires u.awaits == s.awaits && RefOk(u, t)
    ensures RefsOk(u)
  {
    forall k | 0 <= k < |s.pcs| ensures RefOk(u, k) { assert RefOk(s, k); }
  }

  lemma RefsOfWordStep(s: State, t: Id)
    requires Enabled(s, Step(t)) && RefsOk(s) && AtWord(s.pcs[t])
    ensures RefsOk(WordStep(s, t))
  {
    assert RefOk(s, t);
    WordStepFrame(s, t);
    hide WordStep, Enabled, RefsOk;
    RefsKept(s, WordStep(s, t), t);
  }

  lemma RefsOfDequeue(s: State, t: Id)
    requires CoreOk(s) && LocOk(s) && QueueOk(s) && RefsOk(s) && t < |s.pcs| && s.pcs[t].Dequeuing? && s.pcs[t].taken < s.pcs[t].count
    ensures RefsOk(Dequeue(s, t))
  {
    assert RefOk(s, t);
    DequeueTakesFirst(s, t);
    assert RefOk(s, Queue(s)[0]);
    hide LockOk, WordOk, LocOk, QueueOk, Queue, Dequeue, RefsOk;
    RefsKept(s, Dequeue(s, t), t);
  }

  lemma RefsOfOther(s: State, t: Id)
    requires Enabled(s, Step(t)) && RefsOk(s)
    requires var p := s.pcs[t]; p.Pushing? || p.Counting? || p.Dropping? || (p.Dequeuing? && p.taken >= p.count)
    ensures RefsOk(Apply(s, Step(t)))
  {
    var u := Apply(s, Step(t));
    assert RefOk(s, t);
    hide SetCount, WaiterCount, RefsOk, Add64;
    RefsKept(s, u, t);
  }

  lemma RefsOfResume(s: State, t: Id)
    requires LocOk(s) && RefsOk(s) && Enabled(s, Step(t)) && s.pcs[t].Resuming?
    ensures RefsOk(ResumeFirst(s, t))
  {
    var u, a := ResumeFirst(s, t), s.pcs[t].batch[0];
    WaitingToResume(s, t);
    assert RefOk(s, t) && RefOk(s, a);
    hide LocOk;
    forall k | 0 <= k < |s.pcs| ensures RefOk(u, k) { assert RefOk(s, k); }
  }

  lemma RefsOfNew(s: State, awaits: bool, p: Pc)
    requires Sized(s) && RefsOk(s) && if awaits then p.AwaitLoad? else p.SetLoad? || p.ResetLoad?
    ensures RefsOk(NewThread(s, awaits, p))
  {
    var u := NewThread(s, awaits, p);
    forall k | 0 <= k < |u.pcs| ensures RefOk(u, k) {
      if k < |s.pcs| { assert RefOk(s, k); }
    }
  }

  // ---------------------------------------------------------------- every step keeps the invariant

  lemma InvOfStep(s: State, t: Id)
    requires Inv(s) && Enabled(s, Step(t))
    ensures Inv(Apply(s, Step(t)))
  {
    var p := s.pcs[t];
    if AtWord(p) {
      CoreOfWordStep(s, t); TallyOfWordStep(s, t); LocOfWordStep(s, t); RefsOfWordStep(s, t);
    } else if p.Resuming? {
      CoreOfResume(s, t); TallyOfResume(s, t); LocOfResume(s, t); RefsOfResume(s, t);
    } else if p.Dequeuing? && p.taken < p.count {
      CoreOfOther(s, Step(t)); TallyOfDequeue(s, t); LocOfDequeue(s, t); RefsOfDequeue(s, t);
    } else if p.Pushing? {
      CoreOfOther(s, Step(t)); TallyOfPush(s, t); LocOfPush(s, t); RefsOfOther(s, t);
    } else if p.Counting? {
      CoreOfCountWaiter(s, t); TallyOfCountWaiter(s, t); LocOfCount(s, t); RefsOfOther(s, t);
    } else if p.Dropping? {
      CoreOfOther(s, Step(t)); TallyOfDrop(s, t); LocOfCount(s, t); RefsOfOther(s, t);
    } else {
      CoreOfSubtract(s, t); TallyOfSubtract(s, t); LocOfSubtract(s, t); RefsOfOther(s, t);
    }
    hide WordOk, LockOk, QueueOk, SignalsOk, LocOk, RefsOk, WordStep, Push, CountWaiter, Dequeue, Subtract, ResumeFirst, Drop;
  }

  lemma InvStep(s: State, a: Action)
    requires Inv(s) && Enabled(s, a)
    ensures Inv(Apply(s, a))
  {
    match a
    case Step(t) => InvOfStep(s, t);
    case Await => InvOfNew(s, true, AwaitLoad);
    case Set => InvOfNew(s, false, SetLoad);
    case Reset => InvOfNew(s, false, ResetLoad);
  }

  lemma InvOfNew(s: State, awaits: bool, p: Pc)
    requires Inv(s) && if awaits then p.AwaitLoad? else p.SetLoad? || p.ResetLoad?
    ensures Inv(NewThread(s, awaits, p))
  {
    TallyOfNew(s, awaits, p);
    LocOfNew(s, awaits, p);
    RefsOfNew(s, awaits, p);
    hide QueueOk, SignalsOk, LocOk, RefsOk, SetCount, WaiterCount;
  }

  // ---------------------------------------------------------------- whole runs

  ghost predicate Run(trace: seq<State>, acts: seq<Action>) {
    && |trace| == |acts| + 1
    && Init(trace[0])
    && forall k :: 0 <= k < |acts| ==> Enabled(trace[k], acts[k]) && trace[k + 1] == Apply(trace[k], acts[k])
  }

  lemma InitInv(s: State)
    requires Init(s)
    ensures Inv(s)
  {
  }

  lemma {:induction false} RunKeepsInv(trace: seq<State>, acts: seq<Action>, k: nat)
    requires Run(trace, acts) && k <= |acts|
    ensures Inv(trace[k])
  {
    hide Inv, Enabled, Apply, Init;
    if k > 0 {
      RunKeepsInv(trace, acts, k - 1);
      InvStep(trace[k - 1], acts[k - 1]);
    } else {
      InitInv(trace[0]);
    }
  }

  /** The two counts are a lock: never more than one signal without a waiter, and exactly one thread is in the
      dequeue loop while there is a signal for a waiter, none otherwise. */
  lemma ImplicitLock(trace: seq<State>, acts: seq<Action>, k: nat)
    requires Run(trace, acts) && k <= |acts|
    ensures var s := trace[k];
      && SetCount(s.word) <= WaiterCount(s.word) + 1 < FIELD
      && (Resumable(s.word) > 0 <==> exists t :: 0 <= t < |s.pcs| && s.pcs[t].Dequeuing?)
      && (forall t, v :: 0 <= t < |s.pcs| && 0 <= v < |s.pcs| && s.pcs[t].Dequeuing? && s.pcs[v].Dequeuing? ==> t == v)
  {
    RunKeepsInv(trace, acts, k);
    hide SetCount, WaiterCount, QueueOk, LocOk, RefsOk;
    var s := trace[k];
    if s.holder >= 0 { assert s.pcs[s.holder].Dequeuing?; }
  }

  /** The subtraction at the end of a round changes each field by the waiters taken and never borrows. */
  lemma NeverBorrows(trace: seq<State>, acts: seq<Action>, k: nat, t: Id)
    requires Run(trace, acts) && k <= |acts| && t < |trace[k].pcs| && trace[k].pcs[t].Dequeuing?
    ensures var s, d := trace[k], trace[k].pcs[t].count; var w := Add64(s.word, -Both(d));
      0 < d && SetCount(w) == SetCount(s.word) - d && WaiterCount(w) == WaiterCount(s.word) - d
  {
    RunKeepsInv(trace, acts, k);
    TakeBoth(trace[k].word, trace[k].pcs[t].count);
    hide SetCount, WaiterCount, QueueOk, LocOk, RefsOk;
  }

  /** The dequeue loop always finds the waiters it wants. */
  lemma NeverRunsOut(trace: seq<State>, acts: seq<Action>, k: nat, t: Id)
    requires Run(trace, acts) && k <= |acts|
    requires t < |trace[k].pcs| && trace[k].pcs[t].Dequeuing? && trace[k].pcs[t].taken < trace[k].pcs[t].count
    ensures trace[k].waiters != [] || trace[k].newer != []
  {
    RunKeepsInv(trace, acts, k);
    WaiterLeft(trace[k], t);
  }

  /** Waiters leave in the order of their pushes, and every signal is accounted for: it is still there, was
      taken by a co_await without waiting, was taken back by reset, or went to one waiter that left. */
  lemma FifoAndConserved(trace: seq<State>, acts: seq<Action>, k: nat)
    requires Run(trace, acts) && k <= |acts|
    ensures var s := trace[k];
      && s.left <= s.pushed
      && s.left + s.waiters + Reverse(s.newer) == s.pushed
      && s.initially + s.sets == SetCount(s.word) + s.syncs + s.resets + s.removed
      && |s.left| == s.removed + Taken(s)
  {
    RunKeepsInv(trace, acts, k);
    var s := trace[k];
    assert s.left + s.waiters + Reverse(s.newer) == s.left + Queue(s);
  }

  /** A coroutine that queued goes on at most once, and only after its operation has left the queue and its own
      await_suspend is done with it. */
  lemma ResumedOnce(trace: seq<State>, acts: seq<Action>, k: nat, a: Id)
    requires Run(trace, acts) && k <= |acts| && a < |trace[k].pcs|
    ensures Sized(trace[k])
    ensures var s := trace[k];
      && s.resumes[a] <= 1
      && (s.resumes[a] == 1 <==> s.pcs[a].Continued?)
      && (s.resumes[a] == 1 ==> s.refs[a] == 0 && s.loc[a].Released?)
  {
    RunKeepsInv(trace, acts, k);
    assert RefOk(trace[k], a);
  }

  /** No call is under way. */
  ghost predicate Quiescent(s: State) {
    forall t :: 0 <= t < |s.pcs| ==>
      var p := s.pcs[t]; p.Suspended? || p.Continued? || p.Acquired? || p.Returned?
  }

  /** When no call is under way, the counted waiters are exactly the queued operations, a set event has none,
      and every suspended coroutine is queued. */
  lemma NoLostSignal(trace: seq<State>, acts: seq<Action>, k: nat)
    requires Run(trace, acts) && k <= |acts| && Quiescent(trace[k])
    ensures var s := trace[k];
      && |s.waiters| + |s.newer| == WaiterCount(s.word)
      && (SetCount(s.word) > 0 ==> s.waiters == [] && s.newer == [])
      && (forall a :: 0 <= a < |s.pcs| && s.pcs[a].Suspended? ==> a in s.waiters + Reverse(s.newer))
  {
    RunKeepsInv(trace, acts, k);
    var s := trace[k];
    CountNone(IsCounting(), s.pcs);
    hide SetCount, WaiterCount, Count, Reverse;
    forall a | 0 <= a < |s.pcs| && s.pcs[a].Suspended? ensures a in s.waiters + Reverse(s.newer) {
      assert RefOk(s, a);
      assert forall t :: 0 <= t < |s.pcs| ==> BatchOf(s.pcs[t]) == [];
      assert s.loc[a] == Queued;
      assert a in Queue(s);
    }
  }
}
