/** The work-stealing queue of one worker: static_thread_pool::thread_state
    (lib/static_thread_pool.cpp:105-289), as a step machine with one step per atomic access.

    One owner pushes and pops at `head`; any number of thieves steal at `tail` under
    m_remoteMutex.  Both ends move their cursor speculatively and look at the other one
    afterwards.  Releasing the mutex is merged with the last access made under it.
    `q`, `log`, `taken` and `missed` are history: what the queue means and what happened to it. */
module Deque {
  import T = Tally
  import opened Words

  type Op = nat

  const INITIAL_SIZE: nat := 256
  const MAX_LOCAL_QUEUE_SIZE: nat := 131072   // 1024 * 1024 / sizeof(void*)

  /** Where the owner is, between two atomic accesses. */
  datatype Owner =
    | Idle
    | EnqRoom(op: Op, seen: int)       // tail read, room for one more: about to write the slot
    | EnqStored(op: Op)                // slot written: about to publish head
    | EnqFull(op: Op)                  // no room: about to try the mutex
    | EnqGrow(op: Op)                  // holds the mutex: about to copy
    | EnqCopied(op: Op, copy: seq<Op>) // about to install the copy
    | PopAim(newHead: int)             // queue looked non-empty: about to lower head
    | PopStored(newHead: int)          // head lowered: about to look at tail
    | PopRaced(newHead: int)           // tail was beyond: about to take the mutex
    | PopLocked(newHead: int)          // about to look at tail again
    | PopLost(newHead: int)            // about to restore head
    | PopWon(newHead: int, op: Op)     // about to read the slot

  /** Where the thread inside m_remoteMutex is, when it is a thief. */
  datatype Thief =
    | Entered
    | TailSeen(tail: int)
    | Aiming(tail: int)        // queue looked non-empty: about to advance tail
    | Advanced(tail: int)      // about to look at head again
    | Won(tail: int, op: Op)   // about to read the slot
    | Lost(tail: int)          // about to restore tail

  datatype Holder = Free | ByOwner | ByThief(id: nat, thief: Thief)

  /** What happened to the queue; and when the owner lowered head on speculation, and raised it again because
      there was nothing to pop. */
  datatype Event = Enq(op: Op) | Pop(op: Op) | Steal(op: Op) | Lower | Raise

  datatype State = State(
    buf: seq<Op>, head: int, tail: int, holder: Holder, owner: Owner,
    q: seq<Op>, log: seq<Event>, taken: seq<Op>, missed: bool)

  datatype OwnerAct =
    | Enqueue(op: Op) | StoreSlot | Publish | Refuse | LockToGrow | CopyOver(copy: seq<Op>) | Install
    | StartPop | LowerHead | LookTail | LockRace | LookAgain | RestoreHead | ReadPopped

  datatype ThiefAct = Lock(id: nat) | LoadTail | LoadHead | Peek | Advance | LookHead | ReadStolen | RestoreTail

  datatype Action = ByTheOwner(o: OwnerAct) | ByAThief(t: ThiefAct)

  /** The steps of try_local_enqueue; the others are those of try_local_pop. */
  predicate Pushes(a: OwnerAct) {
    a.Enqueue? || a.StoreSlot? || a.Publish? || a.Refuse? || a.LockToGrow? || a.CopyOver? || a.Install?
  }

  function First(q: seq<Op>): Op { if |q| > 0 then q[0] else 0 }
  function Last(q: seq<Op>): Op { if |q| > 0 then q[|q| - 1] else 0 }
  function DropFirst(q: seq<Op>): seq<Op> { if |q| > 0 then q[1..] else q }
  function DropLast(q: seq<Op>): seq<Op> { if |q| > 0 then q[..|q| - 1] else q }

  /** The value the buffer holds at cursor position i (`i & mask`). */
  function At(buf: seq<Op>, i: int): Op
    requires |buf| > 0
  {
    buf[i % |buf|]
  }

  /** `copy` is a buffer of twice the size that agrees with `buf` on every live position;
      its other slots hold whatever the allocation left there. */
  predicate IsGrown(buf: seq<Op>, tail: int, head: int, copy: seq<Op>)
    requires |buf| > 0
  {
    |copy| == 2 * |buf| && forall i :: tail <= i < head ==> At(copy, i) == At(buf, i)
  }

  predicate OwnerCan(s: State, a: OwnerAct) {
    |s.buf| > 0 &&
    match a
    case Enqueue(_) => s.owner.Idle?
    case StoreSlot => s.owner.EnqRoom?
    case Publish => s.owner.EnqStored?
    case Refuse => s.owner.EnqFull?                      // allocation failed, or the mutex is taken
    case LockToGrow => s.owner.EnqFull? && s.holder.Free?
    case CopyOver(copy) => s.owner.EnqGrow? && IsGrown(s.buf, s.tail, s.head, copy)
    case Install => s.owner.EnqCopied? && |s.owner.copy| > 0
    case StartPop => s.owner.Idle?
    case LowerHead => s.owner.PopAim?
    case LookTail => s.owner.PopStored?
    case LockRace => s.owner.PopRaced? && s.holder.Free?
    case LookAgain => s.owner.PopLocked?
    case RestoreHead => s.owner.PopLost?
    case ReadPopped => s.owner.PopWon?
  }

  predicate ThiefCan(s: State, a: ThiefAct) {
    |s.buf| > 0 &&
    match a
    case Lock(_) => s.holder.Free?
    case LoadTail => s.holder.ByThief? && s.holder.thief.Entered?
    case LoadHead => s.holder.ByThief? && s.holder.thief.TailSeen?
    case Peek => s.holder.ByThief? && s.holder.thief.TailSeen?
    case Advance => s.holder.ByThief? && s.holder.thief.Aiming?
    case LookHead => s.holder.ByThief? && s.holder.thief.Advanced?
    case ReadStolen => s.holder.ByThief? && s.holder.thief.Won?
    case RestoreTail => s.holder.ByThief? && s.holder.thief.Lost?
  }

  predicate Enabled(s: State, a: Action) {
    match a case ByTheOwner(o) => OwnerCan(s, o) case ByAThief(t) => ThiefCan(s, t)
  }

  function Apply(s: State, a: Action): State
    requires Enabled(s, a)
  {
    match a case ByTheOwner(o) => OwnerStep(s, o) case ByAThief(t) => ThiefStep(s, t)
  }

  function OwnerStep(s: State, a: OwnerAct): State
    requires OwnerCan(s, a)
  {
    match a
    case Enqueue(op) =>
      if s.head - s.tail < |s.buf| - 1 then s.(owner := EnqRoom(op, s.tail))
      else if |s.buf| - 1 == MAX_LOCAL_QUEUE_SIZE then s
      else s.(owner := EnqFull(op))
    case StoreSlot => s.(buf := s.buf[s.head % |s.buf| := s.owner.op], owner := EnqStored(s.owner.op))
    case Publish => Enqueued(s.(head := s.head + 1, owner := Idle), s.owner.op)
    case Refuse => s.(owner := Idle)
    case LockToGrow => s.(holder := ByOwner, owner := EnqGrow(s.owner.op))
    case CopyOver(copy) => s.(owner := EnqCopied(s.owner.op, copy))
    case Install =>
      var copy := s.owner.copy;
      Enqueued(s.(buf := copy[s.head % |copy| := s.owner.op], head := s.head + 1, holder := Free, owner := Idle), s.owner.op)
    case StartPop =>
      if s.head - s.tail <= 0 then s.(missed := s.q != []) else s.(owner := PopAim(s.head - 1))
    case LowerHead => s.(head := s.owner.newHead, owner := PopStored(s.owner.newHead), log := s.log + [Lower])
    case LookTail =>
      if s.owner.newHead - s.tail < 0 then s.(owner := PopRaced(s.owner.newHead)) else OwnerWins(s, s.holder)
    case LockRace => s.(holder := ByOwner, owner := PopLocked(s.owner.newHead))
    case LookAgain =>
      if s.owner.newHead - s.tail < 0 then s.(owner := PopLost(s.owner.newHead)) else OwnerWins(s, Free)
    case RestoreHead =>
      s.(head := s.owner.newHead + 1, holder := Free, owner := Idle, missed := false, log := s.log + [Raise])
    case ReadPopped => s.(owner := Idle, taken := s.taken + [At(s.buf, s.owner.newHead)])
  }

  function ThiefStep(s: State, a: ThiefAct): State
    requires ThiefCan(s, a)
  {
    match a
    case Lock(id) => s.(holder := ByThief(id, Entered))
    case LoadTail => s.(holder := s.holder.(thief := TailSeen(s.tail)))
    case LoadHead =>
      var t := s.holder.thief.tail;
      if s.head - t <= 0 then s.(holder := Free) else s.(holder := s.holder.(thief := Aiming(t)))
    case Peek => s.(holder := Free)
    case Advance =>
      var t := s.holder.thief.tail;
      s.(tail := t + 1, holder := s.holder.(thief := Advanced(t)))
    case LookHead =>
      var t := s.holder.thief.tail;
      if s.head - t > 0 then
        s.(holder := s.holder.(thief := Won(t, First(s.q))), q := DropFirst(s.q), log := s.log + [Steal(First(s.q))])
      else s.(holder := s.holder.(thief := Lost(t)))
    case ReadStolen => s.(holder := Free, taken := s.taken + [At(s.buf, s.holder.thief.tail)])
    case RestoreTail => s.(tail := s.holder.thief.tail, holder := Free)
  }

  /** History of an accepted operation. */
  function Enqueued(s: State, op: Op): State {
    s.(q := s.q + [op], log := s.log + [Enq(op)], missed := false)
  }

  function OwnerWins(s: State, h: Holder): State
    requires s.owner.PopStored? || s.owner.PopLocked?
  {
    s.(holder := h, owner := PopWon(s.owner.newHead, Last(s.q)), q := DropLast(s.q), log := s.log + [Pop(Last(s.q))])
  }

  ghost predicate Init(s: State) {
    |s.buf| == INITIAL_SIZE && s.head == 0 && s.tail == 0 && s.holder.Free? && s.owner.Idle? &&
    s.q == [] && s.log == [] && s.taken == [] && !s.missed
  }

  // ---------------------------------------------------------------- the invariant

  /** The owner has lowered head speculatively and nothing is decided yet. */
  predicate PopWindow(s: State) {
    s.owner.PopStored? || s.owner.PopRaced? || s.owner.PopLocked? || s.owner.PopLost?
  }

  /** A thief has advanced tail without having won the item. */
  predicate StealWindow(s: State) {
    s.holder.ByThief? && (s.holder.thief.Advanced? || s.holder.thief.Lost?)
  }

  /** Position of the oldest live item. */
  function Bottom(s: State): int { if StealWindow(s) then s.holder.thief.tail else s.tail }

  /** Position after the newest live item. */
  function Top(s: State): int { if PopWindow(s) then s.owner.newHead + 1 else s.head }

  /** Position of the oldest slot whose contents still matter. */
  function Low(s: State): int {
    if s.holder.ByThief? && s.holder.thief.Won? then s.holder.thief.tail else Bottom(s)
  }

  ghost predicate Cursors(s: State) {
    && |s.buf| >= 2
    && Bottom(s) >= 0
    && |s.q| == Top(s) - Bottom(s)
    && (s.holder.ByOwner? <==> s.owner.EnqGrow? || s.owner.EnqCopied? || s.owner.PopLocked? || s.owner.PopLost?)
    && (s.holder.ByThief? ==> match s.holder.thief
          case Entered => true
          case TailSeen(t) => t == s.tail
          case Aiming(t) => t == s.tail
          case Advanced(t) => t + 1 == s.tail
          case Won(t, _) => t + 1 == s.tail && t >= 0
          case Lost(t) => t + 1 == s.tail)
    && (PopWindow(s) || s.owner.PopWon? ==> s.head == s.owner.newHead)
    && (s.owner.PopWon? ==> s.owner.newHead >= 0)
    && (s.owner.PopAim? ==> s.owner.newHead == s.head - 1 && s.head >= 1)
    && (s.owner.PopLost? ==> s.q == [])
    && (s.owner.EnqCopied? ==> |s.owner.copy| == 2 * |s.buf|)
  }

  /** The live items q sit in the buffer from position b on. */
  ghost predicate Live(buf: seq<Op>, b: int, q: seq<Op>)
    requires |buf| > 0
  {
    forall k :: 0 <= k < |q| ==> At(buf, b + k) == q[k]
  }

  ghost predicate Contents(s: State)
    requires |s.buf| > 0
  {
    && Top(s) - Low(s) <= |s.buf|
    && Live(s.buf, Bottom(s), s.q)
    && (s.owner.EnqRoom? ==> s.head - s.owner.seen < |s.buf| - 1 && Low(s) >= s.owner.seen - 1)
    && (s.owner.EnqStored? ==> s.head - Low(s) < |s.buf| && At(s.buf, s.head) == s.owner.op)
    && (s.owner.EnqCopied? ==> IsGrown(s.buf, s.tail, s.head, s.owner.copy))
    && (s.owner.PopWon? ==> At(s.buf, s.owner.newHead) == s.owner.op)
    && (s.holder.ByThief? && s.holder.thief.Won? ==> At(s.buf, s.holder.thief.tail) == s.holder.thief.op)
  }

  /** `lowered`: the owner has lowered head and neither popped nor raised it again. */
  datatype Replayed = Illegal | Legal(q: seq<Op>, lowered: bool)

  /** The sequential queue: the owner works at the back, thieves take from the front.  The owner gives up only
      when there is nothing left. */
  function After(q: seq<Op>, lowered: bool, e: Event): Replayed {
    match e
    case Enq(op) => if !lowered then Legal(q + [op], false) else Illegal
    case Pop(op) => if lowered && |q| > 0 && q[|q| - 1] == op then Legal(q[..|q| - 1], false) else Illegal
    case Steal(op) => if |q| > 0 && q[0] == op then Legal(q[1..], lowered) else Illegal
    case Lower => if !lowered then Legal(q, true) else Illegal
    case Raise => if lowered && q == [] then Legal(q, false) else Illegal
  }

  function Replay(log: seq<Event>): Replayed {
    if log == [] then Legal([], false)
    else match Replay(log[..|log| - 1])
      case Illegal => Illegal
      case Legal(q, lowered) => After(q, lowered, log[|log| - 1])
  }

  predicate Takes(e: Event) { e.Pop? || e.Steal? }

  function Accepted(log: seq<Event>): multiset<Op> {
    if log == [] then multiset{}
    else
      var e := log[|log| - 1];
      Accepted(log[..|log| - 1]) + if e.Enq? then multiset{e.op} else multiset{}
  }

  function Removed(log: seq<Event>): multiset<Op> {
    if log == [] then multiset{}
    else
      var e := log[|log| - 1];
      Removed(log[..|log| - 1]) + if Takes(e) then multiset{e.op} else multiset{}
  }

  /** Operations won but not yet read out of their slot. */
  function OwnerFlight(o: Owner): multiset<Op> { if o.PopWon? then multiset{o.op} else multiset{} }
  function ThiefFlight(h: Holder): multiset<Op> {
    if h.ByThief? && h.thief.Won? then multiset{h.thief.op} else multiset{}
  }

  /** The log is a legal history of the sequential queue and ends with q; every removed
      operation was read out once or is still in flight. */
  ghost predicate Account(q: seq<Op>, lowered: bool, log: seq<Event>, taken: seq<Op>,
                          own: multiset<Op>, stolen: multiset<Op>) {
    && Replay(log) == Legal(q, lowered)
    && Removed(log) == multiset(taken) + own + stolen
  }

  ghost predicate History(s: State) {
    Account(s.q, PopWindow(s), s.log, s.taken, OwnerFlight(s.owner), ThiefFlight(s.holder))
  }

  ghost predicate Inv(s: State) { Cursors(s) && Contents(s) && History(s) }

  lemma LogGrows(log: seq<Event>, e: Event)
    ensures Accepted(log + [e]) == Accepted(log) + if e.Enq? then multiset{e.op} else multiset{}
    ensures Removed(log + [e]) == Removed(log) + if Takes(e) then multiset{e.op} else multiset{}
    ensures Replay(log).Legal? ==> Replay(log + [e]) == After(Replay(log).q, Replay(log).lowered, e)
  {
    assert (log + [e])[..|log|] == log;
  }

  // ---------------------------------------------------------------- every step keeps the invariant

  lemma PushCursors(s: State, a: OwnerAct)
    requires Cursors(s) && OwnerCan(s, a) && Pushes(a)
    ensures Cursors(OwnerStep(s, a))
  {
  }

  lemma PopCursors(s: State, a: OwnerAct)
    requires Cursors(s) && OwnerCan(s, a) && !Pushes(a)
    ensures Cursors(OwnerStep(s, a))
  {
  }

  lemma ThiefCursors(s: State, a: ThiefAct)
    requires Cursors(s) && ThiefCan(s, a)
    ensures Cursors(ThiefStep(s, a))
  {
  }

  // History

  lemma AccountEnq(q: seq<Op>, log: seq<Event>, taken: seq<Op>, own: multiset<Op>, stolen: multiset<Op>, op: Op)
    requires Account(q, false, log, taken, own, stolen)
    ensures Account(q + [op], false, log + [Enq(op)], taken, own, stolen)
  {
    LogGrows(log, Enq(op));
    assert Removed(log + [Enq(op)]) == Removed(log);
  }

  lemma AccountPop(q: seq<Op>, log: seq<Event>, taken: seq<Op>, stolen: multiset<Op>)
    requires Account(q, true, log, taken, multiset{}, stolen) && |q| > 0
    ensures Account(DropLast(q), false, log + [Pop(Last(q))], taken, multiset{Last(q)}, stolen)
  {
    LogGrows(log, Pop(Last(q)));
  }

  lemma AccountSteal(q: seq<Op>, lowered: bool, log: seq<Event>, taken: seq<Op>, own: multiset<Op>)
    requires Account(q, lowered, log, taken, own, multiset{}) && |q| > 0
    ensures Account(DropFirst(q), lowered, log + [Steal(First(q))], taken, own, multiset{First(q)})
  {
    LogGrows(log, Steal(First(q)));
  }

  lemma AccountLower(q: seq<Op>, log: seq<Event>, taken: seq<Op>, own: multiset<Op>, stolen: multiset<Op>)
    requires Account(q, false, log, taken, own, stolen)
    ensures Account(q, true, log + [Lower], taken, own, stolen)
  {
    LogGrows(log, Lower);
  }

  lemma AccountRaise(log: seq<Event>, taken: seq<Op>, own: multiset<Op>, stolen: multiset<Op>)
    requires Account([], true, log, taken, own, stolen)
    ensures Account([], false, log + [Raise], taken, own, stolen)
  {
    LogGrows(log, Raise);
  }

  lemma AccountTake(q: seq<Op>, lowered: bool, log: seq<Event>, taken: seq<Op>,
                    own: multiset<Op>, stolen: multiset<Op>, op: Op)
    requires Account(q, lowered, log, taken, own, stolen)
    ensures own == multiset{op} ==> Account(q, lowered, log, taken + [op], multiset{}, stolen)
    ensures stolen == multiset{op} ==> Account(q, lowered, log, taken + [op], own, multiset{})
  {
    assert multiset(taken + [op]) == multiset(taken) + multiset{op};
  }

  lemma OwnerAccepts(s: State, a: OwnerAct)
    requires Cursors(s) && History(s) && OwnerCan(s, a) && (a.Publish? || a.Install?)
    ensures History(OwnerStep(s, a))
  {
    AccountEnq(s.q, s.log, s.taken, OwnerFlight(s.owner), ThiefFlight(s.holder), s.owner.op);
  }

  lemma OwnerTakes(s: State, a: OwnerAct)
    requires Cursors(s) && History(s) && OwnerCan(s, a) && (a.LookTail? || a.LookAgain?) && s.owner.newHead >= s.tail
    ensures History(OwnerStep(s, a))
  {
    hide Account;
    OwnerTook(s, a);
    AccountPop(s.q, s.log, s.taken, ThiefFlight(s.holder));
    hide OwnerCan, OwnerStep, Cursors;
  }

  lemma OwnerTook(s: State, a: OwnerAct)
    requires Cursors(s) && OwnerCan(s, a) && (a.LookTail? || a.LookAgain?) && s.owner.newHead >= s.tail
    ensures |s.q| > 0 && PopWindow(s) && OwnerFlight(s.owner) == multiset{}
    ensures var t := OwnerStep(s, a);
      && t.q == DropLast(s.q) && t.log == s.log + [Pop(Last(s.q))] && t.taken == s.taken
      && t.owner == PopWon(s.owner.newHead, Last(s.q)) && ThiefFlight(t.holder) == ThiefFlight(s.holder)
  {
  }

  lemma PushQuiet(s: State, a: OwnerAct)
    requires OwnerCan(s, a) && Pushes(a) && !a.Publish? && !a.Install?
    ensures SameHistory(s, OwnerStep(s, a))
  {
  }

  lemma OwnerMovesHead(s: State, a: OwnerAct)
    requires Cursors(s) && History(s) && OwnerCan(s, a) && (a.LowerHead? || a.RestoreHead?)
    ensures History(OwnerStep(s, a))
  {
    hide Account;
    if a.LowerHead? {
      AccountLower(s.q, s.log, s.taken, OwnerFlight(s.owner), ThiefFlight(s.holder));
    } else {
      AccountRaise(s.log, s.taken, OwnerFlight(s.owner), ThiefFlight(s.holder));
    }
  }

  lemma PopQuiet(s: State, a: OwnerAct)
    requires Cursors(s) && OwnerCan(s, a) && !Pushes(a) && !a.ReadPopped? && !a.LowerHead? && !a.RestoreHead?
    requires a.LookTail? || a.LookAgain? ==> s.owner.newHead < s.tail
    ensures SameHistory(s, OwnerStep(s, a))
  {
  }

  predicate SameHistory(s: State, t: State) {
    t.q == s.q && t.log == s.log && t.taken == s.taken && PopWindow(t) == PopWindow(s) &&
    (t.holder == s.holder || (!t.holder.ByThief? && !s.holder.ByThief?)) && !t.owner.PopWon? && !s.owner.PopWon?
  }

  lemma OwnerHistory(s: State, a: OwnerAct)
    requires Cursors(s) && History(s) && OwnerCan(s, a)
    requires a.ReadPopped? ==> At(s.buf, s.owner.newHead) == s.owner.op
    ensures History(OwnerStep(s, a))
  {
    if a.Publish? || a.Install? {
      OwnerAccepts(s, a);
    } else if (a.LookTail? || a.LookAgain?) && s.owner.newHead >= s.tail {
      OwnerTakes(s, a);
    } else if a.ReadPopped? {
      AccountTake(s.q, false, s.log, s.taken, OwnerFlight(s.owner), ThiefFlight(s.holder), s.owner.op);
    } else if a.LowerHead? || a.RestoreHead? {
      OwnerMovesHead(s, a);
    } else {
      if Pushes(a) { PushQuiet(s, a); } else { PopQuiet(s, a); }
    }
  }

  lemma ThiefHistory(s: State, a: ThiefAct)
    requires Cursors(s) && History(s) && ThiefCan(s, a)
    requires a.ReadStolen? ==> At(s.buf, s.holder.thief.tail) == s.holder.thief.op
    ensures History(ThiefStep(s, a))
  {
    hide Account;
    var t := ThiefStep(s, a);
    if a.LookHead? && t.holder.thief.Won? {
      AccountSteal(s.q, PopWindow(s), s.log, s.taken, OwnerFlight(s.owner));
    } else if a.ReadStolen? {
      AccountTake(s.q, PopWindow(s), s.log, s.taken, OwnerFlight(s.owner), ThiefFlight(s.holder), s.holder.thief.op);
    }
  }

  // Contents

  /** Writing slot `head` leaves every position that still matters alone. */
  lemma StoreKeeps(buf: seq<Op>, head: int, op: Op, low: int)
    requires |buf| > 0 && head - low < |buf|
    ensures At(buf[head % |buf| := op], head) == op
    ensures forall i :: low <= i < head ==> At(buf[head % |buf| := op], i) == At(buf, i)
  {
    forall i | low <= i < head ensures At(buf[head % |buf| := op], i) == At(buf, i) {
      SlotsDistinct(head, i, |buf|);
    }
  }

  lemma ContentsStore(s: State)
    requires Cursors(s) && Contents(s) && OwnerCan(s, StoreSlot)
    ensures Contents(OwnerStep(s, StoreSlot))
  {
    StoreKeeps(s.buf, s.head, s.owner.op, Low(s));
  }

  lemma ContentsInstall(s: State)
    requires Cursors(s) && Contents(s) && OwnerCan(s, Install)
    ensures Contents(OwnerStep(s, Install))
  {
    StoreKeeps(s.owner.copy, s.head, s.owner.op, Low(s));
  }

  lemma ContentsPublish(s: State)
    requires Cursors(s) && Contents(s) && OwnerCan(s, Publish)
    ensures Contents(OwnerStep(s, Publish))
  {
  }

  lemma ContentsOwnerWins(s: State, h: Holder)
    requires Cursors(s) && Contents(s) && (s.owner.PopStored? || s.owner.PopLocked?) && s.owner.newHead >= s.tail
    requires (s.owner.PopStored? && h == s.holder) || (h.Free? && s.holder.ByOwner?)
    ensures Contents(OwnerWins(s, h))
  {
    var t := OwnerWins(s, h);
    assert Bottom(t) == Bottom(s) && Low(t) == Low(s) && Top(t) == Top(s) - 1;
    assert At(s.buf, Bottom(s) + (|s.q| - 1)) == s.q[|s.q| - 1];
  }

  ghost predicate SameRange(s: State, t: State) {
    t.buf == s.buf && t.q == s.q && Bottom(t) == Bottom(s) && Low(t) == Low(s) && Top(t) == Top(s)
  }

  lemma PushKeepsRange(s: State, a: OwnerAct)
    requires Cursors(s) && OwnerCan(s, a) && Pushes(a) && !a.StoreSlot? && !a.Install? && !a.Publish?
    ensures SameRange(s, OwnerStep(s, a))
  {
  }

  lemma PopKeepsRange(s: State, a: OwnerAct)
    requires Cursors(s) && OwnerCan(s, a) && !Pushes(a)
    requires a.LookTail? || a.LookAgain? ==> s.owner.newHead < s.tail
    ensures SameRange(s, OwnerStep(s, a))
  {
  }

  /** The owner's other steps touch neither the buffer nor the queue. */
  lemma ContentsQuiet(s: State, a: OwnerAct)
    requires Cursors(s) && Contents(s) && OwnerCan(s, a) && !a.StoreSlot? && !a.Install? && !a.Publish?
    requires a.LookTail? || a.LookAgain? ==> s.owner.newHead < s.tail
    ensures Contents(OwnerStep(s, a))
  {
    if Pushes(a) { PushKeepsRange(s, a); } else { PopKeepsRange(s, a); }
  }

  lemma OwnerContents(s: State, a: OwnerAct)
    requires Cursors(s) && Contents(s) && OwnerCan(s, a)
    ensures Contents(OwnerStep(s, a))
  {
    if a.StoreSlot? {
      ContentsStore(s);
    } else if a.Install? {
      ContentsInstall(s);
    } else if a.Publish? {
      ContentsPublish(s);
    } else if a.LookTail? && s.owner.newHead >= s.tail {
      ContentsOwnerWins(s, s.holder);
    } else if a.LookAgain? && s.owner.newHead >= s.tail {
      ContentsOwnerWins(s, Free);
    } else {
      ContentsQuiet(s, a);
    }
  }

  lemma ContentsStolen(s: State)
    requires Cursors(s) && Contents(s) && ThiefCan(s, LookHead)
    ensures Contents(ThiefStep(s, LookHead))
  {
    if s.head > s.holder.thief.tail {
      var b, q := Bottom(s), DropFirst(s.q);
      assert At(s.buf, b + 0) == s.q[0];
      forall k | 0 <= k < |q| ensures At(s.buf, b + 1 + k) == q[k] {
        assert At(s.buf, b + (k + 1)) == s.q[k + 1];
      }
    }
  }

  lemma ThiefContents(s: State, a: ThiefAct)
    requires Cursors(s) && Contents(s) && ThiefCan(s, a)
    ensures Contents(ThiefStep(s, a))
  {
    if a.LookHead? {
      ContentsStolen(s);
    } else {
      var t := ThiefStep(s, a);
      assert t.buf == s.buf && t.q == s.q && Bottom(t) == Bottom(s) && Low(t) >= Low(s) && Top(t) == Top(s);
    }
  }

  /** One atomic step of the owner or of a thief keeps the invariant. */
  lemma InvStep(s: State, a: Action)
    requires Inv(s) && Enabled(s, a)
    ensures Inv(Apply(s, a))
  {
    match a
    case ByTheOwner(o) =>
      if Pushes(o) { PushCursors(s, o); } else { PopCursors(s, o); }
      OwnerContents(s, o); OwnerHistory(s, o);
    case ByAThief(t) =>
      ThiefCursors(s, t); ThiefContents(s, t); ThiefHistory(s, t);
  }

  // ---------------------------------------------------------------- what holds in every run

  /** A run: `trace[k + 1]` follows from `trace[k]` by the atomic step `acts[k]`; the owner's and the
      thieves' steps come in any order. */
  ghost predicate Run(trace: seq<State>, acts: seq<Action>) {
    && |trace| == |acts| + 1
    && Init(trace[0])
    && forall k :: 0 <= k < |acts| ==> Enabled(trace[k], acts[k]) && trace[k + 1] == Apply(trace[k], acts[k])
  }

  lemma {:induction false} RunKeepsInv(trace: seq<State>, acts: seq<Action>, k: nat)
    requires Run(trace, acts) && k <= |acts|
    ensures Inv(trace[k])
  {
    if k > 0 {
      RunKeepsInv(trace, acts, k - 1);
      InvStep(trace[k - 1], acts[k - 1]);
    }
  }

  lemma StepConserves(q: seq<Op>, lowered: bool, e: Event)
    requires After(q, lowered, e).Legal?
    ensures e.Enq? ==> multiset(After(q, lowered, e).q) == multiset(q) + multiset{e.op}
    ensures Takes(e) ==> multiset(After(q, lowered, e).q) + multiset{e.op} == multiset(q)
    ensures !e.Enq? && !Takes(e) ==> After(q, lowered, e).q == q
  {
    if e.Pop? { WithoutLast(q); }
    if e.Steal? { WithoutFirst(q); }
  }

  lemma WithoutLast(q: seq<Op>)
    requires q != []
    ensures multiset(q) == multiset(q[..|q| - 1]) + multiset{q[|q| - 1]}
  {
    assert q == q[..|q| - 1] + [q[|q| - 1]];
  }

  lemma WithoutFirst(q: seq<Op>)
    requires q != []
    ensures multiset(q) == multiset{q[0]} + multiset(q[1..])
  {
    assert q == [q[0]] + q[1..];
  }

  lemma {:induction false} LegalLogConserves(log: seq<Event>)
    requires Replay(log).Legal?
    ensures Accepted(log) == Removed(log) + multiset(Replay(log).q)
  {
    if log != [] {
      LegalLogConserves(log[..|log| - 1]);
      var before := Replay(log[..|log| - 1]);
      StepConserves(before.q, before.lowered, log[|log| - 1]);
    }
  }

  /** Exactly once, in order: in every run the log is a legal history of a queue whose owner takes the
      newest and whose thieves take the oldest operation, and every accepted operation is still queued,
      won by one taker, or was returned once. */
  lemma ExactlyOnce(trace: seq<State>, acts: seq<Action>)
    requires Run(trace, acts)
    ensures var s := trace[|acts|];
      && Replay(s.log) == Legal(s.q, PopWindow(s))
      && Accepted(s.log) == multiset(s.q) + multiset(s.taken) + OwnerFlight(s.owner) + ThiefFlight(s.holder)
  {
    RunKeepsInv(trace, acts, |acts|);
    LegalLogConserves(trace[|acts|].log);
  }

  /** What a winner reads out of its slot is the operation the history gave it. */
  lemma WinnersReadTheirOperation(trace: seq<State>, acts: seq<Action>, k: nat)
    requires Run(trace, acts) && k < |acts|
    ensures acts[k] == ByTheOwner(ReadPopped) ==> trace[k + 1].taken == trace[k].taken + [trace[k].owner.op]
    ensures acts[k] == ByAThief(ReadStolen) ==> trace[k + 1].taken == trace[k].taken + [trace[k].holder.thief.op]
  {
    RunKeepsInv(trace, acts, k);
  }

  /** Live and won-but-unread positions have different slots, and an enqueue never writes one of them:
      not even when a thief gave up and moved tail back after the owner had measured the room. */
  lemma SlotSafety(trace: seq<State>, acts: seq<Action>, k: nat, i: int, j: int)
    requires Run(trace, acts) && k < |acts|
    requires Low(trace[k]) <= i < j < Top(trace[k])
    ensures i % |trace[k].buf| != j % |trace[k].buf|
    ensures acts[k] == ByTheOwner(StoreSlot) ==>
      trace[k].head % |trace[k].buf| != i % |trace[k].buf| && trace[k].head % |trace[k].buf| != j % |trace[k].buf|
  {
    var s := trace[k];
    RunKeepsInv(trace, acts, k);
    SlotsDistinct(j, i, |s.buf|);
    if acts[k] == ByTheOwner(StoreSlot) {
      SlotsDistinct(s.head, i, |s.buf|);
      SlotsDistinct(s.head, j, |s.buf|);
    }
  }

  /** Growing doubles the buffer and leaves every item at its position. */
  lemma GrowthKeepsPositions(trace: seq<State>, acts: seq<Action>, k: nat, i: int)
    requires Run(trace, acts) && k < |acts| && acts[k] == ByTheOwner(Install)
    requires trace[k].tail <= i < trace[k].head
    ensures |trace[k + 1].buf| == 2 * |trace[k].buf|
    ensures At(trace[k + 1].buf, i) == At(trace[k].buf, i)
    ensures At(trace[k + 1].buf, trace[k].head) == trace[k].owner.op
  {
    var s := trace[k];
    RunKeepsInv(trace, acts, k);
    StoreKeeps(s.owner.copy, s.head, s.owner.op, s.tail);
  }

  /** The owner's cheap emptiness test misses an operation exactly when it is the only one and a thief
      has moved tail past it without having won it. */
  lemma EarlyExitExact(trace: seq<State>, acts: seq<Action>, k: nat)
    requires Run(trace, acts) && k < |acts| && acts[k] == ByTheOwner(StartPop)
    ensures trace[k + 1].owner.Idle? && trace[k].q != [] <==> |trace[k].q| == 1 && StealWindow(trace[k])
    ensures trace[k + 1].owner.Idle? ==> trace[k + 1].missed == (trace[k].q != [])
  {
    RunKeepsInv(trace, acts, k);
  }

  /** How often the buffer has been replaced. */
  function Growths(acts: seq<Action>): nat {
    if acts == [] then 0
    else Growths(acts[..|acts| - 1]) + if acts[|acts| - 1] == ByTheOwner(Install) then 1 else 0
  }

  /** Nothing a thief could take: the queue is empty, or the owner has lowered head past the only operation. */
  predicate NothingForThieves(s: State) { s.q == [] || (|s.q| == 1 && PopWindow(s)) }

  /** A thief gives up exactly when there is nothing it could take, at its first look at head and at its second. */
  lemma ThiefGivesUpExact(trace: seq<State>, acts: seq<Action>, k: nat)
    requires Run(trace, acts) && k < |acts|
    ensures acts[k] == ByAThief(LoadHead) ==> (trace[k + 1].holder.Free? <==> NothingForThieves(trace[k]))
    ensures acts[k] == ByAThief(LookHead) ==>
      && trace[k + 1].holder.ByThief?
      && (trace[k + 1].holder.thief.Lost? <==> NothingForThieves(trace[k]))
      && (trace[k + 1].holder.thief.Won? <==> !NothingForThieves(trace[k]))
      && (!NothingForThieves(trace[k]) ==>
            trace[k + 1].holder.thief.op == trace[k].q[0] && trace[k + 1].q == trace[k].q[1..])
  {
    hide Contents, History;
    RunKeepsInv(trace, acts, k);
  }

  /** The owner's first look gets it the newest operation unless there is none, or only one that a thief has moved
      tail past; its second look, under the mutex, unless there is none. */
  lemma OwnerGivesUpExact(trace: seq<State>, acts: seq<Action>, k: nat)
    requires Run(trace, acts) && k < |acts|
    ensures acts[k] == ByTheOwner(LookTail) ==>
      (trace[k + 1].owner.PopWon? <==> trace[k].q != [] && !(|trace[k].q| == 1 && StealWindow(trace[k])))
    ensures acts[k] == ByTheOwner(LookAgain) ==>
      (trace[k + 1].owner.PopLost? <==> trace[k].q == []) && (trace[k + 1].owner.PopWon? <==> trace[k].q != [])
    ensures trace[k + 1].owner.PopWon? && !trace[k].owner.PopWon? ==>
      trace[k].q != [] && trace[k + 1].owner.op == trace[k].q[|trace[k].q| - 1]
  {
    hide Contents, History;
    RunKeepsInv(trace, acts, k);
  }

  /** An operation that is offered is put into the buffer without growing exactly when the queue is not full, or
      would not be but for one that a thief has moved tail past; growing is never refused because of the cap. */
  lemma EnqueueExact(trace: seq<State>, acts: seq<Action>, k: nat, op: Op)
    requires Run(trace, acts) && k < |acts| && acts[k] == ByTheOwner(Enqueue(op))
    ensures var s := trace[k];
      trace[k + 1].owner ==
        if |s.q| < |s.buf| - 1 || (|s.q| == |s.buf| - 1 && StealWindow(s)) then EnqRoom(op, s.tail) else EnqFull(op)
  {
    hide Contents, History;
    RunKeepsInv(trace, acts, k);
    CapNeverApplied(trace, acts, k);
  }

  /** Accepting an operation puts it at the back of the queue. */
  lemma AcceptedAtTheBack(trace: seq<State>, acts: seq<Action>, k: nat)
    requires Run(trace, acts) && k < |acts| && (acts[k] == ByTheOwner(Publish) || acts[k] == ByTheOwner(Install))
    ensures trace[k + 1].q == trace[k].q + [trace[k].owner.op] && trace[k + 1].log == trace[k].log + [Enq(trace[k].owner.op)]
  {
    hide Inv;
  }

  lemma BufferStep(s: State, a: Action)
    requires Cursors(s) && Enabled(s, a)
    ensures |Apply(s, a).buf| == if a == ByTheOwner(Install) then 2 * |s.buf| else |s.buf|
  {
    hide Contents, History;
  }

  /** The size of the buffer is a power of two: 256 doubled with every growth. */
  lemma {:induction false} BufferSize(trace: seq<State>, acts: seq<Action>, k: nat)
    requires Run(trace, acts) && k <= |acts|
    ensures |trace[k].buf| == Pow2(8 + Growths(acts[..k]))
  {
    hide Enabled, Apply, Cursors, Contents, History;
    if k > 0 {
      BufferSize(trace, acts, k - 1);
      RunKeepsInv(trace, acts, k - 1);
      BufferStep(trace[k - 1], acts[k - 1]);
      assert acts[..k][..k - 1] == acts[..k - 1];
    } else {
      assert Pow2(8) == 16 * Pow2(4);
    }
  }

  /** The size cap is never applied: the mask is odd and the cap is even. */
  lemma CapNeverApplied(trace: seq<State>, acts: seq<Action>, k: nat)
    requires Run(trace, acts) && k <= |acts|
    ensures |trace[k].buf| % 2 == 0 && |trace[k].buf| - 1 != MAX_LOCAL_QUEUE_SIZE
  {
    hide Enabled, Apply, Growths;
    BufferSize(trace, acts, k);
    EvenSize(8 + Growths(acts[..k]));
  }

  lemma EvenSize(b: nat)
    requires b > 0
    ensures Pow2(b) % 2 == 0
  {
  }

  lemma {:induction false} QuarterRange(j: nat, k: nat)
    requires k + 2 <= j
    ensures 4 * Pow2(k) <= Pow2(j)
  {
    if k + 2 < j { QuarterRange(j - 1, k); } else { assert Pow2(k + 2) == 2 * Pow2(k + 1); }
  }

  lemma SmallDifference(m: nat, x: int, y: int)
    requires m >= 8 && -(m / 4) <= x - y <= m / 4
    ensures Difference(m, Wrap(m, x), Wrap(m, y)) == x - y
  {
    DifferenceExact(m, x, y);
  }

  /** The numbers that the code compares or masks: the two cursors, the head that the owner aims at, the tail
      that a thief has read, and, while it grows the buffer, the positions from tail to head. */
  predicate Cursor(s: State, x: int) {
    || x == s.head || x == s.tail || s.tail <= x <= s.head
    || ((PopWindow(s) || s.owner.PopAim? || s.owner.PopWon?) && x == s.owner.newHead)
    || (s.holder.ByThief? && !s.holder.thief.Entered? && x == s.holder.thief.tail)
  }

  lemma CursorsClose(s: State, x: int, y: int)
    requires Cursors(s) && Top(s) - Low(s) <= |s.buf| && Cursor(s, x) && Cursor(s, y)
    ensures x - y <= |s.buf|
  {
  }

  /** In words with 2^j values, masking x gives the slot of the number x in a buffer of this size. */
  predicate SlotInWords(size: nat, j: nat, x: int) {
    size > 0 && And(Wrap(Pow2(j), x), size - 1) == x % size
  }

  /** The difference of x and y is the true one too, and the slot of x is right also in a buffer twice the size. */
  predicate InWords(size: nat, j: nat, x: int, y: int) {
    && Difference(Pow2(j), Wrap(Pow2(j), x), Wrap(Pow2(j), y)) == x - y
    && SlotInWords(size, j, x) && SlotInWords(2 * size, j, x)
  }

  /** The code keeps the numbers it compares or masks in words: while the buffer is at most a quarter of the word
      range, every difference and every slot it computes from them is the one used above. */
  lemma CursorsInWords(trace: seq<State>, acts: seq<Action>, k: nat, j: nat, x: int, y: int)
    requires Run(trace, acts) && k <= |acts| && 8 + Growths(acts[..k]) + 2 <= j
    requires Cursor(trace[k], x) && Cursor(trace[k], y)
    ensures InWords(|trace[k].buf|, j, x, y)
  {
    hide Enabled, Apply, InWords, Growths, Cursor, History, Pow2, Cursors, Contents;
    RunKeepsInv(trace, acts, k);
    BufferSize(trace, acts, k);
    var s := trace[k];
    CursorsOfState(s, 8 + Growths(acts[..k]), j, x, y);
  }

  lemma CursorsOfState(s: State, b: nat, j: nat, x: int, y: int)
    requires Cursors(s) && Contents(s) && Cursor(s, x) && Cursor(s, y) && |s.buf| == Pow2(b) && 1 <= b && b + 2 <= j
    ensures InWords(|s.buf|, j, x, y)
  {
    hide InWords, Pow2;
    CursorsClose(s, x, y);
    CursorsClose(s, y, x);
    hide Cursors, Contents, Cursor;
    CloseInWords(b, j, x, y);
  }

  lemma CloseInWords(b: nat, j: nat, x: int, y: int)
    requires 1 <= b && b + 2 <= j && x - y <= Pow2(b) && y - x <= Pow2(b)
    ensures InWords(Pow2(b), j, x, y)
  {
    QuarterRange(j, b);
    var m, size := Pow2(j), Pow2(b);
    assert size >= 2 && Pow2(b + 1) == 2 * size;
    hide Difference, Wrap, SlotInWords, Pow2;
    SmallDifference(m, x, y);
    CursorSlot(x, j, b);
    CursorSlot(x, j, b + 1);
  }

  lemma CursorSlot(c: int, j: nat, k: nat)
    requires k <= j
    ensures SlotInWords(Pow2(k), j, c)
  {
    Pow2Splits(j, k);
    MaskIsRemainder(Wrap(Pow2(j), c), k);
    SlotOfWord(Pow2(j), Pow2(k), Pow2(j - k), c);
  }

  // ---------------------------------------------------------------- calls end

  /** How many steps the owner's call has yet to take, at most. */
  function OwnerLeft(o: Owner): nat {
    match o
    case Idle => 0
    case EnqRoom(_, _) => 2
    case EnqStored(_) => 1
    case EnqFull(_) => 3
    case EnqGrow(_) => 2
    case EnqCopied(_, _) => 1
    case PopAim(_) => 5
    case PopStored(_) => 4
    case PopRaced(_) => 3
    case PopLocked(_) => 2
    case PopLost(_) => 1
    case PopWon(_, _) => 1
  }

  /** The same for the thief that holds the mutex. */
  function ThiefLeft(h: Holder): nat {
    if !h.ByThief? then 0
    else match h.thief
         case Entered => 5
         case TailSeen(_) => 4
         case Aiming(_) => 3
         case Advanced(_) => 2
         case Won(_, _) => 1
         case Lost(_) => 1
  }

  predicate StartsCall(a: Action) { a.ByTheOwner? && (a.o.Enqueue? || a.o.StartPop?) }

  predicate Locks(a: Action) { a.ByAThief? && a.t.Lock? }

  function OfOwner(): Action -> bool { (a: Action) => a.ByTheOwner? }

  function OfThief(): Action -> bool { (a: Action) => a.ByAThief? }

  lemma BothAdvance(s: State, a: Action)
    requires Inv(s) && Enabled(s, a)
    ensures !StartsCall(a) ==> T.One(OfOwner()(a)) + OwnerLeft(Apply(s, a).owner) <= OwnerLeft(s.owner)
    ensures !Locks(a) ==>
      T.One(OfThief()(a)) + ThiefLeft(Apply(s, a).holder) <= ThiefLeft(s.holder)
  {
    hide Contents, History;
  }

  /** Whatever the thieves do, a call of the owner takes at most five more steps after its first; only for the mutex
      may it have to wait before one of them. */
  lemma {:induction false} OwnerCallEnds(trace: seq<State>, acts: seq<Action>, j: nat, k: nat)
    requires Run(trace, acts) && j <= k <= |acts| && forall i :: j <= i < k ==> !StartsCall(acts[i])
    ensures T.Count(OfOwner(), acts[j..k]) + OwnerLeft(trace[k].owner) <= OwnerLeft(trace[j].owner) <= 5
  {
    if j < k {
      OwnerCallEnds(trace, acts, j, k - 1);
      RunKeepsInv(trace, acts, k - 1);
      assert Enabled(trace[k - 1], acts[k - 1]) && trace[k] == Apply(trace[k - 1], acts[k - 1]);
      hide *;
      BothAdvance(trace[k - 1], acts[k - 1]);
      T.CountSlice(OfOwner(), acts, j, k);
    }
  }

  /** Whatever the owner does, a thief that has the mutex gives it up after at most five steps. */
  lemma {:induction false} ThiefCallEnds(trace: seq<State>, acts: seq<Action>, j: nat, k: nat)
    requires Run(trace, acts) && j <= k <= |acts| && forall i :: j <= i < k ==> !Locks(acts[i])
    ensures T.Count(OfThief(), acts[j..k]) + ThiefLeft(trace[k].holder) <= ThiefLeft(trace[j].holder) <= 5
  {
    if j < k {
      ThiefCallEnds(trace, acts, j, k - 1);
      RunKeepsInv(trace, acts, k - 1);
      assert Enabled(trace[k - 1], acts[k - 1]) && trace[k] == Apply(trace[k - 1], acts[k - 1]);
      hide *;
      BothAdvance(trace[k - 1], acts[k - 1]);
      T.CountSlice(OfThief(), acts, j, k);
    }
  }
}
