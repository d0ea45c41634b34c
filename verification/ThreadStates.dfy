/** thread_state as the object it is in lib/static_thread_pool.cpp: an array, two cursors and a mutex,
    updated in place by the source's own functions.  Between any two atomic accesses the other threads
    run any number of their steps (ThievesRun, OwnerRuns). */
module ThreadStates {
  import opened Words
  import opened Deque

  datatype Found = Nothing | Just(op: Op)

  /** One side's part in the history of the queue, in order: the thieves' or the owner's. */
  function Side(log: seq<Event>, thieves: bool): seq<Event> {
    if log == [] then []
    else
      var e := log[|log| - 1];
      Side(log[..|log| - 1], thieves) + if (if thieves then e.Steal? else e.Enq? || e.Pop?) then [e] else []
  }

  lemma SideGrows(log: seq<Event>, e: Event)
    ensures Side(log + [e], true) == Side(log, true) + if e.Steal? then [e] else []
    ensures Side(log + [e], false) == Side(log, false) + if e.Enq? || e.Pop? then [e] else []
  {
    assert (log + [e])[..|log|] == log;
  }

  class ThreadState {
    var m_localQueue: array<Op>
    var m_head: int
    var m_tail: int
    var m_remoteMutex: Holder
    var owner: Owner
    // history
    var q: seq<Op>
    var log: seq<Event>
    var taken: seq<Op>
    var missed: bool

    function View(): State
      reads this, m_localQueue
    {
      State(m_localQueue[..], m_head, m_tail, m_remoteMutex, owner, q, log, taken, missed)
    }

    ghost predicate Valid()
      reads this, m_localQueue
      ensures Valid() ==> m_localQueue.Length >= 2
      ensures Valid() ==> (m_remoteMutex.ByOwner? <==>
        owner.EnqGrow? || owner.EnqCopied? || owner.PopLocked? || owner.PopLost?)
    {
      Inv(View())
    }

    constructor ()
      ensures fresh(m_localQueue) && Init(View()) && Valid()
    {
      m_localQueue := new Op[INITIAL_SIZE](_ => 0);
      m_head, m_tail := 0, 0;
      m_remoteMutex, owner := Free, Idle;
      q, log, taken, missed := [], [], [], false;
    }

    /** Other threads make one step that leaves the array alone. */
    method Become(s: State)
      requires s.buf == m_localQueue[..]
      modifies this
      ensures m_localQueue == old(m_localQueue) && View() == s
    {
      m_head, m_tail, m_remoteMutex, owner := s.head, s.tail, s.holder, s.owner;
      q, log, taken, missed := s.q, s.log, s.taken, s.missed;
    }

    /** What the owner may count on while thieves run. */
    twostate predicate ThievesRan()
      reads this, m_localQueue
    {
      && Valid() && m_localQueue == old(m_localQueue) && m_localQueue[..] == old(m_localQueue[..])
      && m_head == old(m_head) && owner == old(owner) && Side(log, false) == Side(old(log), false)
      && |q| <= |old(q)|
      && (old(m_remoteMutex).ByOwner? ==> View() == old(View()))
    }

    method ThiefMoves(t: ThiefAct)
      requires Valid() && ThiefCan(View(), t)
      modifies this
      ensures Valid() && View() == ThiefStep(old(View()), t)
      ensures m_localQueue == old(m_localQueue) && m_head == old(m_head) && owner == old(owner)
      ensures Side(log, false) == Side(old(log), false) && |q| <= |old(q)|
      ensures m_remoteMutex.ByThief? || m_remoteMutex.Free?
      ensures !t.Lock? ==> ThiefSteps(m_remoteMutex) < ThiefSteps(old(m_remoteMutex))
    {
      hide Cursors, Contents, History, Side;
      InvStep(View(), ByAThief(t));
      SideGrows(log, Steal(First(q)));
      Become(ThiefStep(View(), t));
    }

    /** Any number of steps of any thieves. */
    method ThievesRun()
      requires Valid()
      modifies this
      ensures ThievesRan()
    {
      hide Inv, Side, ThiefStep;
      var steps: nat := *;
      while steps > 0
        invariant ThievesRan()
      {
        var t: ThiefAct := *;
        if ThiefCan(View(), t) { ThiefMoves(t); }
        steps := steps - 1;
      }
    }

    /** Steps a thief inside the mutex still has to make. */
    function ThiefSteps(h: Holder): nat {
      if !h.ByThief? then 0
      else match h.thief
        case Entered => 5
        case TailSeen(_) => 4
        case Aiming(_) => 3
        case Advanced(_) => 2
        case Won(_, _) => 1
        case Lost(_) => 1
    }

    /** m_remoteMutex.lock() by the owner: the thief inside, if any, finishes. */
    method AwaitMutex()
      requires Valid() && !m_remoteMutex.ByOwner?
      modifies this
      ensures ThievesRan() && m_remoteMutex.Free?
    {
      hide Inv, Side, ThiefStep;
      ThievesRun();
      while m_remoteMutex.ByThief?
        invariant ThievesRan() && !m_remoteMutex.ByOwner?
        decreases ThiefSteps(m_remoteMutex)
      {
        match m_remoteMutex.thief
        case Entered => ThiefMoves(LoadTail);
        case TailSeen(_) => ThiefMoves(LoadHead);
        case Aiming(_) => ThiefMoves(Advance);
        case Advanced(_) => ThiefMoves(LookHead);
        case Won(_, _) => ThiefMoves(ReadStolen);
        case Lost(_) => ThiefMoves(RestoreTail);
      }
    }

    /** try_local_pop: returns the operation that the history pops.  Or it pops nothing; then the queue is empty,
        but for one operation that a thief may have moved tail past without winning it. */
    method TryLocalPop() returns (r: Found)
      requires Valid() && owner.Idle?
      modifies this
      ensures Valid() && owner.Idle? && m_localQueue == old(m_localQueue)
      ensures r.Just? ==> Side(log, false) == Side(old(log), false) + [Pop(r.op)]
      ensures r.Nothing? ==> Side(log, false) == Side(old(log), false)
      ensures r.Nothing? ==> LooksEmpty(View())
    {
      hide Inv, Side;
      ThievesRun();
      InvStep(View(), ByTheOwner(StartPop));
      var head := m_head;
      if head - m_tail <= 0 {
        MissesAtMostOne(View());
        missed := q != [];
        return Nothing;
      }
      var newHead := head - 1;
      owner := PopAim(newHead);
      ThievesRun();
      InvStep(View(), ByTheOwner(LowerHead));
      SideGrows(log, Lower);
      m_head, owner, log := newHead, PopStored(newHead), log + [Lower];
      ThievesRun();
      if newHead - m_tail < 0 {
        r := ResolveRace(newHead);
      } else {
        WinPop();
        r := ReadWon(newHead);
      }
    }

    /** The last item is contended: the mutex decides. */
    method ResolveRace(newHead: int) returns (r: Found)
      requires Valid() && owner == PopStored(newHead) && newHead - m_tail < 0
      modifies this
      ensures Valid() && owner.Idle? && m_localQueue == old(m_localQueue)
      ensures r.Just? ==> Side(log, false) == Side(old(log), false) + [Pop(r.op)]
      ensures r.Nothing? ==> Side(log, false) == Side(old(log), false)
      ensures r.Nothing? ==> LooksEmpty(View())
    {
      hide Inv, Side;
      InvStep(View(), ByTheOwner(LookTail));
      owner := PopRaced(newHead);
      AwaitMutex();
      InvStep(View(), ByTheOwner(LockRace));
      m_remoteMutex, owner := ByOwner, PopLocked(newHead);
      if newHead - m_tail < 0 {
        RestoreLost(newHead);
        r := Nothing;
      } else {
        WinPop();
        r := ReadWon(newHead);
      }
    }

    /** A thief won the last item: put head back. */
    method RestoreLost(newHead: int)
      requires Valid() && owner == PopLocked(newHead) && newHead - m_tail < 0
      modifies this
      ensures Valid() && owner.Idle? && m_localQueue == old(m_localQueue)
      ensures m_head == newHead + 1 && m_tail == old(m_tail) && q == []
      ensures log == old(log) + [Raise] && Side(log, false) == Side(old(log), false)
    {
      hide Inv, Side;
      InvStep(View(), ByTheOwner(LookAgain));
      owner := PopLost(newHead);
      NothingLeft(View());
      InvStep(View(), ByTheOwner(RestoreHead));
      SideGrows(log, Raise);
      m_head, m_remoteMutex, owner, missed, log := newHead + 1, Free, Idle, false, log + [Raise];
    }

    /** The owner has seen that the item at newHead is its own. */
    method WinPop()
      requires Valid() && (owner.PopStored? || owner.PopLocked?) && owner.newHead >= m_tail
      modifies this
      ensures Valid() && m_localQueue == old(m_localQueue) && owner == PopWon(old(owner.newHead), Last(old(q)))
      ensures Side(log, false) == Side(old(log), false) + [Pop(Last(old(q)))]
    {
      hide Contents, History, Side;
      InvStep(View(), ByTheOwner(if owner.PopStored? then LookTail else LookAgain));
      SideGrows(log, Pop(Last(q)));
      m_remoteMutex := if owner.PopLocked? then Free else m_remoteMutex;
      owner := PopWon(owner.newHead, Last(q));
      log, q := log + [Pop(Last(q))], DropLast(q);
    }

    method ReadWon(newHead: int) returns (r: Found)
      requires Valid() && owner.PopWon? && owner.newHead == newHead
      modifies this
      ensures Valid() && owner.Idle? && m_localQueue == old(m_localQueue)
      ensures r == Just(old(owner.op)) && Side(log, false) == Side(old(log), false)
    {
      ThievesRun();
      InvStep(View(), ByTheOwner(ReadPopped));
      var op := m_localQueue[newHead % m_localQueue.Length];
      owner, taken := Idle, taken + [op];
      r := Just(op);
    }

    /** try_local_enqueue, when the allocation of a bigger buffer would or would not succeed: accepts the operation
        exactly when it returns true, which it does whenever there is room without growing, and otherwise unless
        memory is short, a thief is in the mutex, or the cap applies (Deque.CapNeverApplied). */
    method TryLocalEnqueue(op: Op, memory: bool) returns (ok: bool)
      requires Valid() && owner.Idle?
      modifies this, m_localQueue
      ensures Valid() && owner.Idle?
      ensures m_localQueue == old(m_localQueue) || (fresh(m_localQueue) && m_localQueue.Length == 2 * old(m_localQueue.Length))
      ensures Side(log, false) == Side(old(log), false) + if ok then [Enq(op)] else []
      ensures |old(q)| < old(m_localQueue.Length) - 1 ==> ok
      ensures !ok ==> !memory || m_remoteMutex.ByThief? || m_localQueue.Length - 1 == MAX_LOCAL_QUEUE_SIZE
    {
      hide Inv, Side;
      ThievesRun();
      InvStep(View(), ByTheOwner(Enqueue(op)));
      RoomAsSeen(View());
      if m_head - m_tail < m_localQueue.Length - 1 {
        owner := EnqRoom(op, m_tail);
        StoreAndPublish(op);
        return true;
      }
      if m_localQueue.Length - 1 == MAX_LOCAL_QUEUE_SIZE { return false; }
      owner := EnqFull(op);
      ok := TryGrow(op, memory);
    }

    method StoreAndPublish(op: Op)
      requires Valid() && owner.EnqRoom? && owner.op == op
      modifies this, m_localQueue
      ensures Valid() && owner.Idle? && m_localQueue == old(m_localQueue)
      ensures Side(log, false) == Side(old(log), false) + [Enq(op)]
    {
      hide Inv, Side;
      ThievesRun();
      WriteSlot(op);
      ThievesRun();
      InvStep(View(), ByTheOwner(Publish));
      SideGrows(log, Enq(op));
      m_head, owner, q, log, missed := m_head + 1, Idle, q + [op], log + [Enq(op)], false;
    }

    method WriteSlot(op: Op)
      requires Valid() && owner.EnqRoom? && owner.op == op
      modifies this, m_localQueue
      ensures Valid() && owner == EnqStored(op) && m_localQueue == old(m_localQueue) && log == old(log)
    {
      hide Inv;
      InvStep(View(), ByTheOwner(StoreSlot));
      m_localQueue[m_head % m_localQueue.Length] := op;
      owner := EnqStored(op);
    }

    /** No room: grow, unless memory or the mutex cannot be had at once.  A grown buffer has twice the size, and
        the mutex, taken for the copying, is free again. */
    method TryGrow(op: Op, memory: bool) returns (ok: bool)
      requires Valid() && owner == EnqFull(op)
      modifies this
      ensures Valid() && owner.Idle? && (if ok then fresh(m_localQueue) else m_localQueue == old(m_localQueue))
      ensures ok ==> m_localQueue.Length == 2 * old(m_localQueue.Length) && m_remoteMutex.Free?
      ensures ok ==> memory
      ensures !ok ==> !memory || m_remoteMutex.ByThief?
      ensures Side(log, false) == Side(old(log), false) + if ok then [Enq(op)] else []
    {
      hide Inv, Side;
      ThievesRun();
      if !memory || !m_remoteMutex.Free? {
        InvStep(View(), ByTheOwner(Refuse));
        owner := Idle;
        return false;
      }
      InvStep(View(), ByTheOwner(LockToGrow));
      m_remoteMutex, owner := ByOwner, EnqGrow(op);
      Grow(op);
      ok := true;
    }

    /** Copy every item to its position in a buffer of twice the size. */
    method CopyItems() returns (newLocalQueue: array<Op>)
      requires m_localQueue.Length > 0 && 0 <= m_head - m_tail <= m_localQueue.Length
      ensures fresh(newLocalQueue) && IsGrown(m_localQueue[..], m_tail, m_head, newLocalQueue[..])
    {
      var newSize := 2 * m_localQueue.Length;
      newLocalQueue := new Op[newSize];
      var i := m_tail;
      while i != m_head
        invariant m_tail <= i <= m_head
        invariant forall k :: m_tail <= k < i ==> At(newLocalQueue[..], k) == At(m_localQueue[..], k)
        decreases m_head - i
      {
        StoreKeeps(newLocalQueue[..], i, m_localQueue[i % m_localQueue.Length], m_tail);
        newLocalQueue[i % newSize] := m_localQueue[i % m_localQueue.Length];
        i := i + 1;
      }
    }

    /** Copy, add the operation and replace the buffer; the mutex is held throughout. */
    method Grow(op: Op)
      requires Valid() && owner == EnqGrow(op)
      modifies this
      ensures Valid() && owner.Idle? && m_remoteMutex.Free? && fresh(m_localQueue)
      ensures m_localQueue.Length == 2 * old(m_localQueue.Length)
      ensures Side(log, false) == Side(old(log), false) + [Enq(op)]
    {
      hide Contents, History;
      assert 0 <= m_head - m_tail <= m_localQueue.Length by { LockedRange(View()); }
      var newLocalQueue := CopyItems();
      InstallGrown(op, newLocalQueue);
    }

    method InstallGrown(op: Op, newLocalQueue: array<Op>)
      requires Valid() && owner == EnqGrow(op) && newLocalQueue != m_localQueue
      requires IsGrown(m_localQueue[..], m_tail, m_head, newLocalQueue[..])
      modifies this, newLocalQueue
      ensures Valid() && owner.Idle? && m_remoteMutex.Free? && m_localQueue == newLocalQueue
      ensures Side(log, false) == Side(old(log), false) + [Enq(op)]
    {
      hide Inv, Side, IsGrown;
      assert newLocalQueue.Length == 2 * m_localQueue.Length by { GrownSize(m_localQueue[..], m_tail, m_head, newLocalQueue[..]); }
      InvStep(View(), ByTheOwner(CopyOver(newLocalQueue[..])));
      owner := EnqCopied(op, newLocalQueue[..]);
      InvStep(View(), ByTheOwner(Install));
      SideGrows(log, Enq(op));
      newLocalQueue[m_head % newLocalQueue.Length] := op;
      m_head, m_localQueue := m_head + 1, newLocalQueue;
      m_remoteMutex, owner, q, log, missed := Free, Idle, q + [op], log + [Enq(op)], false;
    }

    /** Any number of steps of the owner while a thief is inside the mutex. */
    method OwnerRuns()
      requires Valid() && m_remoteMutex.ByThief?
      modifies this, m_localQueue
      ensures Valid() && m_localQueue == old(m_localQueue) && m_remoteMutex == old(m_remoteMutex)
      ensures m_tail == old(m_tail) && Side(log, true) == Side(old(log), true) && old(log) <= log
    {
      hide Inv, Side;
      var steps: nat := *;
      while steps > 0
        invariant Valid() && m_localQueue == old(m_localQueue) && m_remoteMutex == old(m_remoteMutex)
        invariant m_tail == old(m_tail) && Side(log, true) == Side(old(log), true) && old(log) <= log
      {
        var a: OwnerAct := *;
        if OwnerCan(View(), a) && a != Install && !a.CopyOver? { OwnerMoves(a); }
        steps := steps - 1;
      }
    }

    method OwnerMoves(a: OwnerAct)
      requires Valid() && m_remoteMutex.ByThief? && OwnerCan(View(), a) && a != Install && !a.CopyOver?
      modifies this, m_localQueue
      ensures Valid() && m_localQueue == old(m_localQueue) && View() == OwnerStep(old(View()), a)
      ensures m_remoteMutex == old(m_remoteMutex) && m_tail == old(m_tail) && Side(log, true) == Side(old(log), true)
      ensures old(log) <= log
    {
      hide Inv, Side;
      InvStep(View(), ByTheOwner(a));
      var s := OwnerStep(View(), a);
      OwnerLogs(View(), a);
      forall i | 0 <= i < m_localQueue.Length {
        m_localQueue[i] := s.buf[i];
      }
      assert m_localQueue[..] == s.buf;
      Become(s);
    }

    /** try_steal with try_lock: returns the operation that the history steals for this thief.  Or it steals
        nothing; then the mutex was taken, or at some moment of the call the queue was empty or held one operation
        that the owner had already lowered head past. */
    method TrySteal(id: nat) returns (r: Found, lockUnavailable: bool)
      requires Valid()
      modifies this, m_localQueue
      ensures Valid() && m_localQueue == old(m_localQueue)
      ensures lockUnavailable <==> !old(m_remoteMutex).Free?
      ensures r.Just? ==> Side(log, true) == Side(old(log), true) + [Steal(r.op)]
      ensures r.Nothing? ==> Side(log, true) == Side(old(log), true)
      ensures r.Nothing? && !lockUnavailable ==> HadNothing(old(log), log)
    {
      hide Inv, Side;
      if !m_remoteMutex.Free? { return Nothing, true; }
      lockUnavailable := false;
      InvStep(View(), ByAThief(Lock(id)));
      m_remoteMutex := ByThief(id, Entered);
      OwnerRuns();
      InvStep(View(), ByAThief(LoadTail));
      var tail := m_tail;
      m_remoteMutex := ByThief(id, TailSeen(tail));
      OwnerRuns();
      InvStep(View(), ByAThief(LoadHead));
      if m_head - tail <= 0 {
        NothingAtLook(View());
        NothingNow(old(log), log);
        m_remoteMutex := Free;
        return Nothing, false;
      }
      m_remoteMutex := ByThief(id, Aiming(tail));
      ghost var before := log;
      r := AdvanceAndDecide(id, tail);
      if r.Nothing? { NothingSince(old(log), before, log); }
    }

    /** The queue looked non-empty: move tail, look at head again, and either take the item or move back. */
    method AdvanceAndDecide(id: nat, tail: int) returns (r: Found)
      requires Valid() && m_remoteMutex == ByThief(id, Aiming(tail))
      modifies this, m_localQueue
      ensures Valid() && m_localQueue == old(m_localQueue)
      ensures r.Just? ==> Side(log, true) == Side(old(log), true) + [Steal(r.op)]
      ensures r.Nothing? ==> Side(log, true) == Side(old(log), true)
      ensures r.Nothing? ==> HadNothing(old(log), log)
    {
      hide Inv, Side;
      OwnerRuns();
      InvStep(View(), ByAThief(Advance));
      m_tail, m_remoteMutex := tail + 1, ByThief(id, Advanced(tail));
      OwnerRuns();
      if m_head - tail > 0 {
        InvStep(View(), ByAThief(LookHead));
        SideGrows(log, Steal(First(q)));
        m_remoteMutex := ByThief(id, Won(tail, First(q)));
        log, q := log + [Steal(First(q))], DropFirst(q);
        r := ReadStolenSlot(tail);
      } else {
        InvStep(View(), ByAThief(LookHead));
        NothingAtLook(View());
        NothingNow(old(log), log);
        ghost var seen := log;
        m_remoteMutex := ByThief(id, Lost(tail));
        OwnerRuns();
        NothingThen(old(log), seen, log);
        InvStep(View(), ByAThief(RestoreTail));
        m_tail, m_remoteMutex := tail, Free;
        r := Nothing;
      }
    }

    method ReadStolenSlot(tail: int) returns (r: Found)
      requires Valid() && m_remoteMutex.ByThief? && m_remoteMutex.thief.Won? && m_remoteMutex.thief.tail == tail
      modifies this, m_localQueue
      ensures Valid() && m_localQueue == old(m_localQueue)
      ensures r == Just(old(m_remoteMutex.thief.op)) && Side(log, true) == Side(old(log), true)
    {
      hide Contents, History, Side;
      OwnerRuns();
      assert At(m_localQueue[..], tail) == m_remoteMutex.thief.op by { WonSlot(View()); }
      InvStep(View(), ByAThief(ReadStolen));
      var op := m_localQueue[tail % m_localQueue.Length];
      m_remoteMutex, taken := Free, taken + [op];
      r := Just(op);
    }
  }

  /** Empty, but for one operation that a thief may have moved tail past. */
  predicate LooksEmpty(s: State) { s.q == [] || (|s.q| == 1 && StealWindow(s)) }

  /** Nothing a thief could take: no operation, or a single one that the owner has lowered head past. */
  predicate Bare(r: Replayed) { r.Legal? && (r.q == [] || (|r.q| == 1 && r.lowered)) }

  /** At some moment between two points of the history there was nothing to take. */
  ghost predicate HadNothing(was: seq<Event>, now: seq<Event>) {
    was <= now && exists k :: |was| <= k <= |now| && Bare(Replay(now[..k]))
  }

  lemma MissesAtMostOne(s: State)
    requires Inv(s) && s.owner.Idle? && s.head - s.tail <= 0
    ensures LooksEmpty(s)
  {
    hide Contents, History;
  }

  lemma NothingLeft(s: State)
    requires Inv(s) && s.owner.PopLost?
    ensures s.q == []
  {
    hide Contents, History;
  }

  lemma RoomAsSeen(s: State)
    requires Inv(s) && s.owner.Idle?
    ensures s.head - s.tail <= |s.q|
  {
    hide Contents, History;
  }

  /** A thief that sees head at or below its position leaves nothing behind that it could have taken. */
  lemma NothingAtLook(s: State)
    requires Inv(s) && s.holder.ByThief? && (s.holder.thief.TailSeen? || s.holder.thief.Advanced?)
    requires s.head - s.holder.thief.tail <= 0
    ensures Bare(Replay(s.log))
  {
    hide Contents;
  }

  lemma NothingNow(was: seq<Event>, now: seq<Event>)
    requires was <= now && Bare(Replay(now))
    ensures HadNothing(was, now)
  {
    assert now[..|now|] == now;
  }

  lemma NothingThen(was: seq<Event>, mid: seq<Event>, now: seq<Event>)
    requires HadNothing(was, mid) && mid <= now
    ensures HadNothing(was, now)
  {
    var k :| |was| <= k <= |mid| && Bare(Replay(mid[..k]));
    assert mid[..k] == now[..k];
  }

  lemma NothingSince(was: seq<Event>, before: seq<Event>, now: seq<Event>)
    requires was <= before && HadNothing(before, now)
    ensures HadNothing(was, now)
  {
    var k :| |before| <= k <= |now| && Bare(Replay(now[..k]));
  }

  lemma OwnerLogs(s: State, a: OwnerAct)
    requires OwnerCan(s, a)
    requires s.holder.ByThief? && Inv(s)
    ensures Side(OwnerStep(s, a).log, true) == Side(s.log, true)
    ensures OwnerStep(s, a).holder == s.holder && OwnerStep(s, a).tail == s.tail
    ensures a != Install && !a.CopyOver? ==> |OwnerStep(s, a).buf| == |s.buf|
    ensures s.log <= OwnerStep(s, a).log
  {
    hide Side, Contents, History;
    var t := OwnerStep(s, a);
    if a.Publish? || a.Install? {
      SideGrows(s.log, Enq(s.owner.op));
    } else if a.LowerHead? {
      SideGrows(s.log, Lower);
    } else if a.RestoreHead? {
      SideGrows(s.log, Raise);
    } else if t.log != s.log {
      SideGrows(s.log, Pop(Last(s.q)));
    }
  }

  lemma WonSlot(s: State)
    requires Inv(s) && s.holder.ByThief? && s.holder.thief.Won?
    ensures At(s.buf, s.holder.thief.tail) == s.holder.thief.op
  {
  }

  lemma GrownSize(buf: seq<Op>, tail: int, head: int, copy: seq<Op>)
    requires |buf| > 0 && IsGrown(buf, tail, head, copy)
    ensures |copy| == 2 * |buf|
  {
  }

  lemma LockedRange(s: State)
    requires Inv(s) && s.owner.EnqGrow?
    ensures 0 <= s.head - s.tail <= |s.buf|
  {
  }
}
