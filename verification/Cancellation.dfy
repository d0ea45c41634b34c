/** cancellation_state (lib/cancellation_state.cpp:174-328, 410-619) and cancellation_registration
    (lib/cancellation_registration.cpp): registrations sit in slots of a growing table, and the first
    request_cancellation walks the table and runs their callbacks.  One step per atomic access.

    Where a registration looks for a free slot is left open: it may claim any empty slot, start any absent
    list, or grow any list by a chunk.  The walk, the sizes of chunks and every race on a slot are the code's. */
module Cancellation {

  type Id = nat

  datatype Entry = Empty | Occupied(id: Id)

  /** m_chunk and m_entryIndex of a registration. */
  datatype Slot = Slot(list: nat, chunk: nat, entry: nat)

  /** m_lists: an absent list has no chunks. */
  type Table = seq<seq<seq<Entry>>>

  datatype RegPc =
    | Checking                     // constructor: about to look whether cancellation was requested
    | Attaching                    // about to load, or install, m_registrationState
    | Searching                    // add_registration
    | Rechecking                   // in a slot: about to look again whether cancellation was requested
    | Withdrawing                  // it was: about to take itself out of the slot
    | Calling                      // running its own callback in the constructor
    | Unattached                   // constructor done, with m_state null
    | Registered                   // constructor done, registered
    | Leaving(onNotifier: bool)    // destructor: about to take itself out of the slot
    | Awaiting                     // destructor: waiting for the notification to complete
    | Destroyed(onNotifier: bool)

  /** `able` tells whether can_be_cancelled() held when the constructor started; `inside` (does its slot hold it)
      and `calls` (how often its callback was started) are history. */
  datatype Reg = Reg(able: bool, pc: RegPc, slot: Slot, inside: bool, calls: nat)

  /** Where the first call of request_cancellation is. */
  datatype Walk =
    | Idle
    | AtState                      // about to load m_registrationState
    | AtList(list: nat)            // about to load m_lists[list]
    | AtEntry(at: Slot)            // about to look at an entry
    | AtTake(at: Slot)             // there was something: about to exchange
    | Running(at: Slot, id: Id)    // running that registration's callback
    | AtNext(at: Slot)             // past the last entry of a chunk: about to load m_nextChunk
    | AtEnd                        // about to set the notification-complete flag
    | Complete                     // the call has returned

  /** `requested` and `complete` are the flags of m_state, `attached` tells whether m_registrationState is set.
      A call of request_cancellation that finds no registration state returns without setting `complete`. */
  datatype State = State(requested: bool, complete: bool, attached: bool, table: Table, walk: Walk, regs: seq<Reg>)

  datatype Action =
    | Register(cancellable: bool)          // a constructor starts; can_be_cancelled() says so or not
    | Step(a: Id)
    | Claim(a: Id, at: Slot)               // an empty slot
    | NewList(a: Id, list: nat)            // the first slot of a new list
    | NewChunk(a: Id, list: nat)           // the first slot of a new last chunk
    | Destroy(a: Id, onNotifier: bool)     // a destructor starts, perhaps on the notifying thread
    | Request                              // request_cancellation is called
    | Notify                               // the first such call goes on

  const INITIAL_CHUNK: nat := 16
  const MAX_CHUNK: nat := 1024

  predicate Valid(table: Table, at: Slot) {
    at.list < |table| && at.chunk < |table[at.list]| && at.entry < |table[at.list][at.chunk]|
  }

  function At(table: Table, at: Slot): Entry
    requires Valid(table, at)
  {
    table[at.list][at.chunk][at.entry]
  }

  function Put(table: Table, at: Slot, v: Entry): (r: Table)
    requires Valid(table, at)
    ensures |r| == |table|
    ensures forall p :: Valid(r, p) <==> Valid(table, p)
    ensures forall p :: Valid(table, p) ==> At(r, p) == if p == at then v else At(table, p)
  {
    table[at.list := table[at.list][at.chunk := table[at.list][at.chunk][at.entry := v]]]
  }

  /** A chunk of n entries whose first is taken. */
  function Chunk(n: nat, a: Id): (r: seq<Entry>)
    requires n > 0
    ensures |r| == n && r[0] == Occupied(a) && forall k :: 0 < k < n ==> r[k] == Empty
  {
    [Occupied(a)] + seq(n - 1, _ => Empty)
  }

  /** The size of the chunk to append to a list: double the last one up to the limit. */
  function NextSize(chunks: seq<seq<Entry>>): nat
    requires chunks != []
  {
    var n := |chunks[|chunks| - 1]|;
    if n < MAX_CHUNK then 2 * n else MAX_CHUNK
  }

  ghost predicate Enabled(s: State, a: Action) {
    match a
    case Register(_) => true
    case Step(i) =>
      i < |s.regs| &&
      var p := s.regs[i].pc;
      (p.Checking? || p.Attaching? || p.Rechecking? || p.Withdrawing? || p.Calling? || p.Leaving? || p.Awaiting?)
      && (p.Withdrawing? || p.Leaving? ==> Valid(s.table, s.regs[i].slot))
    case Claim(i, at) => i < |s.regs| && s.regs[i].pc.Searching? && Valid(s.table, at) && At(s.table, at).Empty?
    case NewList(i, l) => i < |s.regs| && s.regs[i].pc.Searching? && l < |s.table| && s.table[l] == []
    case NewChunk(i, l) =>
      i < |s.regs| && s.regs[i].pc.Searching? && l < |s.table| && s.table[l] != [] && NextSize(s.table[l]) > 0
    case Destroy(i, _) => i < |s.regs| && (s.regs[i].pc.Unattached? || s.regs[i].pc.Registered?)
    case Request => true
    case Notify => !s.walk.Idle? && !s.walk.Complete? && (s.walk.AtEntry? || s.walk.AtTake? ==> Valid(s.table, s.walk.at))
  }

  function Goto(s: State, i: Id, pc: RegPc): State
    requires i < |s.regs|
  {
    s.(regs := s.regs[i := s.regs[i].(pc := pc)])
  }

  /** Registration i is in slot `at` from now on. */
  function Enter(s: State, i: Id, at: Slot, table: Table): State
    requires i < |s.regs|
  {
    s.(table := table, regs := s.regs[i := s.regs[i].(pc := Rechecking, slot := at, inside := true)])
  }

  ghost function Apply(s: State, a: Action): State
    requires Enabled(s, a)
  {
    match a
    case Register(cancellable) =>
      s.(regs := s.regs + [Reg(cancellable, if cancellable then Checking else Unattached, Slot(0, 0, 0), false, 0)])
    case Step(i) => RegStep(s, i)
    case Claim(i, at) => Enter(s, i, at, Put(s.table, at, Occupied(i)))
    case NewList(i, l) => Enter(s, i, Slot(l, 0, 0), s.table[l := [Chunk(INITIAL_CHUNK, i)]])
    case NewChunk(i, l) =>
      Enter(s, i, Slot(l, |s.table[l]|, 0), s.table[l := s.table[l] + [Chunk(NextSize(s.table[l]), i)]])
    case Destroy(i, on) => Goto(s, i, if s.regs[i].pc.Unattached? then Destroyed(on) else Leaving(on))
    case Request => if s.requested then s else s.(requested := true, walk := AtState)
    case Notify => WalkStep(s)
  }

  ghost function RegStep(s: State, i: Id): State
    requires Enabled(s, Step(i))
  {
    var r := s.regs[i];
    match r.pc
    case Checking =>
      if s.requested then Goto(s, i, Calling).(regs := s.regs[i := r.(pc := Calling, calls := r.calls + 1)])
      else Goto(s, i, Attaching)
    case Attaching => Goto(s, i, Searching).(attached := true)
    case Rechecking => Goto(s, i, if s.requested then Withdrawing else Registered)
    case Withdrawing =>
      if At(s.table, r.slot) == Occupied(i) then
        s.(table := Put(s.table, r.slot, Empty),
           regs := s.regs[i := r.(pc := Calling, inside := false, calls := r.calls + 1)])
      else Goto(s, i, Registered)
    case Calling => Goto(s, i, Unattached)
    case Leaving(on) =>
      if At(s.table, r.slot) == Occupied(i) then
        s.(table := Put(s.table, r.slot, Empty), regs := s.regs[i := r.(pc := Destroyed(on), inside := false)])
      else Goto(s, i, if on then Destroyed(true) else Awaiting)
    case Awaiting => if s.complete then Goto(s, i, Destroyed(false)) else s
    case _ => s
  }

  ghost function WalkStep(s: State): State
    requires Enabled(s, Notify)
  {
    match s.walk
    case AtState => s.(walk := if s.attached then AtList(0) else Complete)
    case AtList(l) =>
      s.(walk :=
           if l >= |s.table| then AtEnd
           else if s.table[l] == [] then AtList(l + 1)
           else if |s.table[l][0]| > 0 then AtEntry(Slot(l, 0, 0)) else AtNext(Slot(l, 0, 0)))
    case AtEntry(p) => s.(walk := if At(s.table, p).Empty? then After(s.table, p) else AtTake(p))
    case AtTake(p) =>
      var e := At(s.table, p);
      if e.Empty? || e.id >= |s.regs| then s.(walk := After(s.table, p))
      else
        s.(table := Put(s.table, p, Empty), walk := Running(p, e.id),
           regs := s.regs[e.id := s.regs[e.id].(inside := false, calls := s.regs[e.id].calls + 1)])
    case Running(p, _) => s.(walk := After(s.table, p))
    case AtNext(p) =>
      s.(walk :=
           if p.list < |s.table| && p.chunk + 1 < |s.table[p.list]| then
             (if |s.table[p.list][p.chunk + 1]| > 0 then AtEntry(Slot(p.list, p.chunk + 1, 0))
              else AtNext(Slot(p.list, p.chunk + 1, 0)))
           else AtList(p.list + 1))
    case AtEnd => s.(walk := Complete, complete := true)
    case Idle => s
    case Complete => s
  }

  /** The entry after p in its chunk, or the end of the chunk. */
  function After(table: Table, p: Slot): Walk {
    if Valid(table, p.(entry := p.entry + 1)) then AtEntry(p.(entry := p.entry + 1)) else AtNext(p)
  }

  ghost predicate Init(s: State) {
    && !s.requested && !s.complete && !s.attached && s.walk.Idle? && s.regs == []
    && |s.table| > 0 && forall l :: 0 <= l < |s.table| ==> s.table[l] == []
  }

  // ---------------------------------------------------------------- the invariant

  /** Slots and registrations agree. */
  ghost predicate SlotsOk(s: State) {
    && (forall p :: Valid(s.table, p) && At(s.table, p).Occupied? ==>
         var i := At(s.table, p).id; i < |s.regs| && s.regs[i].inside && s.regs[i].slot == p)
    && (forall i :: 0 <= i < |s.regs| && s.regs[i].inside ==>
         Valid(s.table, s.regs[i].slot) && At(s.table, s.regs[i].slot) == Occupied(i))
    && (forall l, c :: 0 <= l < |s.table| && 0 <= c < |s.table[l]| ==> |s.table[l][c]| > 0)
  }

  /** The walk will still come to slot p. */
  predicate Ahead(w: Walk, p: Slot) {
    match w
    case Idle => true
    case AtState => true
    case AtList(l) => p.list >= l
    case AtEntry(q) => p.list > q.list || (p.list == q.list && (p.chunk > q.chunk || (p.chunk == q.chunk && p.entry >= q.entry)))
    case AtTake(q) => p.list > q.list || (p.list == q.list && (p.chunk > q.chunk || (p.chunk == q.chunk && p.entry >= q.entry)))
    case Running(q, _) => p.list > q.list || (p.list == q.list && (p.chunk > q.chunk || (p.chunk == q.chunk && p.entry > q.entry)))
    case AtNext(q) => p.list > q.list || (p.list == q.list && p.chunk > q.chunk)
    case AtEnd => false
    case Complete => false
  }

  predicate InTable(p: RegPc) { p.Rechecking? || p.Withdrawing? || p.Registered? || p.Leaving? }

  /** The walk has found a registration state: it is in the table, or will set or has set the flag. */
  predicate Walked(s: State) { !s.walk.Idle? && !s.walk.AtState? && (s.walk.Complete? ==> s.complete) }

  ghost predicate RegOk(s: State, i: Id)
    requires i < |s.regs|
  {
    var r := s.regs[i];
    && (r.inside ==> InTable(r.pc) && r.calls == 0)
    && (InTable(r.pc) ==> Valid(s.table, r.slot))
    && (InTable(r.pc) && !r.inside ==> r.calls == 1)
    && ((r.pc.Registered? || r.pc.Leaving?) && r.inside ==> Ahead(s.walk, r.slot))
    && (r.pc.Checking? || r.pc.Attaching? || r.pc.Searching? ==> r.calls == 0)
    && (r.pc.Searching? || InTable(r.pc) ==> s.attached)
    && (r.pc.Withdrawing? || r.calls > 0 ==> s.requested)
    && (r.pc.Calling? ==> r.calls == 1)
    && (r.pc.Unattached? ==> r.calls == if r.able then 1 else 0)
    && (r.able || r.pc.Unattached? || r.pc.Destroyed?)
    && r.calls <= 1
    && (r.pc.Awaiting? ==> r.calls == 1)
    && (r.pc.Awaiting? || (InTable(r.pc) && !r.inside) ==> Walked(s))
    && (s.walk.Running? && s.walk.id == i ==>
         r.calls == 1 && !r.inside && (InTable(r.pc) || r.pc.Awaiting? || r.pc == Destroyed(true)))
  }

  ghost predicate WalkOk(s: State) {
    && (s.requested <==> !s.walk.Idle?)
    && (s.complete ==> s.walk.Complete?)
    && (s.walk.Running? ==> s.walk.id < |s.regs|)
    && (s.walk.AtEntry? || s.walk.AtTake? || s.walk.Running? || s.walk.AtNext? ==> Valid(s.table, s.walk.at))
    && (s.walk.AtNext? ==> !Valid(s.table, s.walk.at.(entry := s.walk.at.entry + 1)))
    && (!s.attached ==> forall l :: 0 <= l < |s.table| ==> s.table[l] == [])
  }

  ghost predicate Inv(s: State) {
    SlotsOk(s) && WalkOk(s) && forall i :: 0 <= i < |s.regs| ==> RegOk(s, i)
  }

  // ---------------------------------------------------------------- changing the table

  /** t has the entries of s, perhaps some more. */
  ghost predicate Grown(s: Table, t: Table) {
    forall p :: Valid(s, p) ==> Valid(t, p)
  }

  /** Registration i appears at `at`; nothing else changes. */
  lemma EnterKeepsSlots(s: State, i: Id, at: Slot, table: Table)
    requires SlotsOk(s) && i < |s.regs| && !s.regs[i].inside
    requires Valid(table, at) && At(table, at) == Occupied(i)
    requires Valid(s.table, at) ==> At(s.table, at).Empty?
    requires forall p :: Valid(s.table, p) && p != at ==> Valid(table, p) && At(table, p) == At(s.table, p)
    requires forall p :: Valid(table, p) && p != at && At(table, p).Occupied? ==> Valid(s.table, p)
    requires forall l, c :: 0 <= l < |table| && 0 <= c < |table[l]| ==> |table[l][c]| > 0
    ensures SlotsOk(Enter(s, i, at, table))
  {
    var t := Enter(s, i, at, table);
    forall k | 0 <= k < |t.regs| && t.regs[k].inside
      ensures Valid(t.table, t.regs[k].slot) && At(t.table, t.regs[k].slot) == Occupied(k)
    {
      if k != i { assert t.regs[k] == s.regs[k]; }
    }
  }

  /** The entry at p is emptied and its registration told so. */
  lemma LeaveKeepsSlots(s: State, t: State, i: Id)
    requires SlotsOk(s) && i < |s.regs| && s.regs[i].inside
    requires |t.regs| == |s.regs| && t.table == Put(s.table, s.regs[i].slot, Empty)
    requires forall k :: 0 <= k < |s.regs| ==> t.regs[k].slot == s.regs[k].slot && (t.regs[k].inside <==> s.regs[k].inside && k != i)
    ensures SlotsOk(t)
  {
    var at := s.regs[i].slot;
    forall l, c | 0 <= l < |t.table| && 0 <= c < |t.table[l]| ensures |t.table[l][c]| > 0 {
      assert |s.table[l][c]| > 0;
    }
  }

  lemma NewListSlots(s: State, i: Id, l: nat)
    requires SlotsOk(s) && Enabled(s, NewList(i, l)) && !s.regs[i].inside
    ensures SlotsOk(Apply(s, NewList(i, l))) && Grown(s.table, Apply(s, NewList(i, l)).table)
  {
    var at, table := Slot(l, 0, 0), s.table[l := [Chunk(INITIAL_CHUNK, i)]];
    assert forall p :: Valid(s.table, p) ==> p.list != l;
    EnterKeepsSlots(s, i, at, table);
  }

  lemma NewChunkSlots(s: State, i: Id, l: nat)
    requires SlotsOk(s) && Enabled(s, NewChunk(i, l)) && !s.regs[i].inside
    ensures SlotsOk(Apply(s, NewChunk(i, l))) && Grown(s.table, Apply(s, NewChunk(i, l)).table)
  {
    var n := |s.table[l]|;
    var at, table := Slot(l, n, 0), s.table[l := s.table[l] + [Chunk(NextSize(s.table[l]), i)]];
    assert forall p :: Valid(s.table, p) ==> Valid(table, p) && At(table, p) == At(s.table, p);
    assert forall p :: Valid(table, p) && !Valid(s.table, p) ==> p.list == l && p.chunk == n;
    EnterKeepsSlots(s, i, at, table);
  }

  lemma ClaimSlots(s: State, i: Id, at: Slot)
    requires SlotsOk(s) && Enabled(s, Claim(i, at)) && !s.regs[i].inside
    ensures SlotsOk(Apply(s, Claim(i, at))) && Grown(s.table, Apply(s, Claim(i, at)).table)
  {
    var table := Put(s.table, at, Occupied(i));
    forall l, c | 0 <= l < |table| && 0 <= c < |table[l]| ensures |table[l][c]| > 0 {
      assert |s.table[l][c]| > 0;
    }
    EnterKeepsSlots(s, i, at, table);
  }

  // ---------------------------------------------------------------- every step keeps the invariant

  /** A registration that a step leaves alone. */
  lemma RegKept(s: State, t: State, i: Id)
    requires i < |s.regs| && i < |t.regs| && t.regs[i] == s.regs[i] && RegOk(s, i)
    requires Grown(s.table, t.table) && (s.attached ==> t.attached) && (s.requested ==> t.requested)
    requires s.regs[i].inside && Ahead(s.walk, s.regs[i].slot) ==> Ahead(t.walk, s.regs[i].slot)
    requires Walked(s) ==> Walked(t)
    requires t.walk.Running? && t.walk.id == i ==> s.walk == t.walk
    ensures RegOk(t, i)
  {
  }

  lemma EnterStep(s: State, i: Id, a: Action)
    requires Inv(s) && Enabled(s, a) && (a.Claim? || a.NewList? || a.NewChunk?) && a.a == i
    ensures Inv(Apply(s, a))
  {
    assert RegOk(s, i);
    match a {
      case Claim(_, at) => ClaimSlots(s, i, at);
      case NewList(_, l) => NewListSlots(s, i, l);
      case NewChunk(_, l) => NewChunkSlots(s, i, l);
    }
    var t := Apply(s, a);
    assert t.walk == s.walk && t.regs[i].pc.Rechecking? && t.regs[i].inside && t.regs[i].calls == 0 && s.attached;
    assert t.attached && t.requested == s.requested && t.complete == s.complete && |t.regs| == |s.regs|;
    assert forall k :: 0 <= k < |s.regs| && k != i ==> t.regs[k] == s.regs[k];
    hide Put, SlotsOk, Chunk, Apply, Enabled;
    assert RegOk(t, i) by { InsideValid(t, i); }
    forall k | 0 <= k < |t.regs| ensures RegOk(t, k) {
      assert RegOk(s, k);
      if k != i { RegKept(s, t, k); }
    }
    assert WalkOk(t) by { WalkKept(s, t, a); }
  }

  lemma InsideValid(t: State, i: Id)
    requires SlotsOk(t) && i < |t.regs| && t.regs[i].inside
    ensures Valid(t.table, t.regs[i].slot)
  {
  }

  /** The end of a chunk stays where it is: chunks do not grow. */
  lemma WalkKept(s: State, t: State, a: Action)
    requires WalkOk(s) && Enabled(s, a) && t == Apply(s, a) && s.attached
    requires (a.Claim? || a.NewList? || a.NewChunk?) && Grown(s.table, t.table)
    ensures WalkOk(t)
  {
  }

  lemma RegStepSlots(s: State, i: Id)
    requires Inv(s) && Enabled(s, Step(i))
    ensures SlotsOk(RegStep(s, i)) && Grown(s.table, RegStep(s, i).table) && WalkOk(RegStep(s, i))
  {
    var t, r := RegStep(s, i), s.regs[i];
    assert RegOk(s, i);
    if (r.pc.Withdrawing? || r.pc.Leaving?) && At(s.table, r.slot) == Occupied(i) {
      assert r.inside;
      LeaveKeepsSlots(s, t, i);
    }
  }

  lemma RegStepReg(s: State, i: Id)
    requires Inv(s) && Enabled(s, Step(i))
    ensures RegOk(RegStep(s, i), i)
  {
    assert RegOk(s, i);
    var r := s.regs[i];
    if r.pc.Withdrawing? || r.pc.Leaving? { assert r.inside <==> At(s.table, r.slot) == Occupied(i); }
    hide SlotsOk;
  }

  lemma RegStepKeeps(s: State, i: Id)
    requires Inv(s) && Enabled(s, Step(i))
    ensures Inv(RegStep(s, i))
  {
    RegStepSlots(s, i);
    RegStepReg(s, i);
    var t := RegStep(s, i);
    assert t.walk == s.walk && t.requested == s.requested && (s.attached ==> t.attached) && |t.regs| == |s.regs|;
    assert forall k :: 0 <= k < |s.regs| && k != i ==> t.regs[k] == s.regs[k];
    hide SlotsOk, WalkOk, Grown, RegStep;
    forall k | 0 <= k < |t.regs| ensures RegOk(t, k) {
      assert RegOk(s, k);
      if k != i { RegKept(s, t, k); }
    }
  }

  /** No step of the walk passes a registration that is in its slot; only taking it makes an exception. */
  lemma NothingPassed(s: State, i: Id)
    requires Inv(s) && Enabled(s, Notify) && i < |s.regs| && s.regs[i].inside && Ahead(s.walk, s.regs[i].slot)
    ensures Ahead(WalkStep(s).walk, s.regs[i].slot) || (WalkStep(s).walk.Running? && WalkStep(s).walk.id == i)
    ensures !s.walk.AtEnd?
  {
    var p := s.regs[i].slot;
    assert Valid(s.table, p) && At(s.table, p) == Occupied(i);
    assert RegOk(s, i);
    if s.walk.AtEntry? || s.walk.AtTake? || s.walk.Running? {
      var q := s.walk.at;
      assert p.list == q.list && p.chunk == q.chunk && p.entry > q.entry ==> Valid(s.table, q.(entry := q.entry + 1));
    }
  }

  lemma WalkStepSlots(s: State)
    requires Inv(s) && Enabled(s, Notify)
    ensures SlotsOk(WalkStep(s)) && Grown(s.table, WalkStep(s).table) && WalkOk(WalkStep(s))
  {
    var t := WalkStep(s);
    if s.walk.AtTake? && At(s.table, s.walk.at).Occupied? {
      var e := At(s.table, s.walk.at).id;
      assert s.regs[e].inside && s.regs[e].slot == s.walk.at;
      LeaveKeepsSlots(s, t, e);
    }
  }

  lemma WalkStepKeeps(s: State)
    requires Inv(s) && Enabled(s, Notify)
    ensures Inv(WalkStep(s))
  {
    WalkStepSlots(s);
    var t := WalkStep(s);
    forall k | 0 <= k < |t.regs| ensures RegOk(t, k) {
      assert RegOk(s, k);
      if s.walk.AtTake? && At(s.table, s.walk.at) == Occupied(k) {
        assert t.walk == Running(s.walk.at, k);
      } else {
        if s.regs[k].inside && Ahead(s.walk, s.regs[k].slot) { NothingPassed(s, k); }
        hide SlotsOk, WalkOk;
        RegKept(s, t, k);
      }
    }
  }

  lemma OtherKeeps(s: State, a: Action)
    requires Inv(s) && Enabled(s, a) && (a.Register? || a.Destroy? || a.Request?)
    ensures Inv(Apply(s, a))
  {
    var t := Apply(s, a);
    assert t.table == s.table;
    assert SlotsOk(t);
    hide SlotsOk;
    forall k | 0 <= k < |t.regs| ensures RegOk(t, k) {
      if k < |s.regs| {
        assert RegOk(s, k);
        if !a.Destroy? || k != a.a { RegKept(s, t, k); }
      }
    }
  }

  lemma InvStep(s: State, a: Action)
    requires Inv(s) && Enabled(s, a)
    ensures Inv(Apply(s, a))
  {
    hide Inv;
    match a
    case Step(i) => RegStepKeeps(s, i);
    case Notify => WalkStepKeeps(s);
    case Claim(i, _) => EnterStep(s, i, a);
    case NewList(i, _) => EnterStep(s, i, a);
    case NewChunk(i, _) => EnterStep(s, i, a);
    case Register(_) => OtherKeeps(s, a);
    case Destroy(_, _) => OtherKeeps(s, a);
    case Request => OtherKeeps(s, a);
  }

  // ---------------------------------------------------------------- whole runs

  ghost predicate Run(trace: seq<State>, acts: seq<Action>) {
    && |trace| == |acts| + 1
    && Init(trace[0])
    && forall k :: 0 <= k < |acts| ==> Enabled(trace[k], acts[k]) && trace[k + 1] == Apply(trace[k], acts[k])
  }

  lemma InitInv(s: State)
    requires Init(s)
    ensures Inv(s)
  {
  }

  lemma {:induction false} RunKeepsInv(trace: seq<State>, acts: seq<Action>, k: nat)
    requires Run(trace, acts) && k <= |acts|
    ensures Inv(trace[k])
  {
    hide Inv, Enabled, Apply, Init;
    if k > 0 {
      RunKeepsInv(trace, acts, k - 1);
      InvStep(trace[k - 1], acts[k - 1]);
    } else {
      InitInv(trace[0]);
    }
  }

  /** The constructor has returned and the destructor has not been called. */
  predicate Alive(r: Reg) { r.pc.Unattached? || r.pc.Registered? }

  /** A callback runs at most once, and only after cancellation was requested.  Once the first call of
      request_cancellation has returned, the callback of every living registration with a cancellable token has
      run exactly once. */
  lemma CalledExactlyOnce(trace: seq<State>, acts: seq<Action>, k: nat, i: Id)
    requires Run(trace, acts) && k <= |acts| && i < |trace[k].regs|
    ensures var s := trace[k];
      && s.regs[i].calls <= 1
      && (s.regs[i].calls == 1 ==> s.requested)
      && (s.walk.Complete? && Alive(s.regs[i]) ==> s.regs[i].calls == if s.regs[i].able then 1 else 0)
  {
    RunKeepsInv(trace, acts, k);
    assert RegOk(trace[k], i);
    hide SlotsOk;
  }

  /** A registered callback that has not been started sits in its slot, and the walk, if it has begun, is still
      to come to that slot: it will not be missed. */
  lemma EverySlotStillVisited(trace: seq<State>, acts: seq<Action>, k: nat, i: Id)
    requires Run(trace, acts) && k <= |acts| && i < |trace[k].regs|
    requires trace[k].regs[i].pc.Registered? && trace[k].regs[i].calls == 0
    ensures var s := trace[k];
      Valid(s.table, s.regs[i].slot) && At(s.table, s.regs[i].slot) == Occupied(i) && Ahead(s.walk, s.regs[i].slot)
  {
    RunKeepsInv(trace, acts, k);
    assert RegOk(trace[k], i);
  }

  /** A destructor that waits for the notification to complete does not wait in vain: the flag it waits for is
      set by the time the first call of request_cancellation has returned, whichever way that call went. */
  lemma WaitEnds(trace: seq<State>, acts: seq<Action>, k: nat, i: Id)
    requires Run(trace, acts) && k <= |acts| && i < |trace[k].regs| && trace[k].regs[i].pc.Awaiting?
    ensures trace[k].walk.Complete? ==> trace[k].complete
    ensures !trace[k].walk.Complete? ==> Enabled(trace[k], Notify)
  {
    RunKeepsInv(trace, acts, k);
    assert RegOk(trace[k], i);
    hide SlotsOk;
  }

  /** Is the callback of i running on some thread? */
  predicate CallbackRuns(s: State, i: Id) {
    (s.walk.Running? && s.walk.id == i) || (i < |s.regs| && s.regs[i].pc.Calling?)
  }

  /** Neither the pc nor the calls of registration i change, and its callback does not start. */
  predicate Untouched(s: State, t: State, i: Id)
    requires i < |s.regs|
  {
    && i < |t.regs| && t.regs[i].pc == s.regs[i].pc && t.regs[i].calls == s.regs[i].calls
    && (!CallbackRuns(s, i) ==> !CallbackRuns(t, i))
  }

  lemma OthersLeaveDestroyed(s: State, a: Action, i: Id)
    requires Enabled(s, a) && !a.Notify? && i < |s.regs| && s.regs[i].pc.Destroyed?
    ensures Untouched(s, Apply(s, a), i)
  {
  }

  lemma WalkLeavesDestroyed(s: State, i: Id)
    requires Inv(s) && Enabled(s, Notify) && i < |s.regs| && s.regs[i].pc.Destroyed?
    ensures Untouched(s, WalkStep(s), i)
  {
    hide WalkOk;
    assert RegOk(s, i);
    if s.walk.AtTake? && At(s.table, s.walk.at).Occupied? {
      assert s.regs[At(s.table, s.walk.at).id].inside;
    }
  }

  lemma DestroyedForGood(s: State, a: Action, i: Id)
    requires Inv(s) && Enabled(s, a) && i < |s.regs| && s.regs[i].pc.Destroyed?
    ensures Untouched(s, Apply(s, a), i)
  {
    hide Inv, Untouched, WalkStep, RegStep;
    if a.Notify? { WalkLeavesDestroyed(s, i); } else { OthersLeaveDestroyed(s, a, i); }
  }

  /** Once a destructor has returned, the callback is never started again; if it returned on a thread other
      than the notifying one, the callback is not running either, then or later. */
  lemma {:induction false} NeverCalledAfterDestruction(trace: seq<State>, acts: seq<Action>, k: nat, j: nat, i: Id)
    requires Run(trace, acts) && k <= j <= |acts| && i < |trace[k].regs| && trace[k].regs[i].pc.Destroyed?
    ensures i < |trace[j].regs| && trace[j].regs[i].pc == trace[k].regs[i].pc
    ensures trace[j].regs[i].calls == trace[k].regs[i].calls
    ensures trace[k].regs[i].pc == Destroyed(false) ==> !CallbackRuns(trace[j], i)
  {
    hide Inv, Enabled, Apply, Init;
    if j == k {
      RunKeepsInv(trace, acts, k);
      DestroyedNotRunning(trace[k], i);
    } else {
      NeverCalledAfterDestruction(trace, acts, k, j - 1, i);
      RunKeepsInv(trace, acts, j - 1);
      DestroyedForGood(trace[j - 1], acts[j - 1], i);
    }
  }

  lemma DestroyedNotRunning(s: State, i: Id)
    requires Inv(s) && i < |s.regs|
    ensures s.regs[i].pc == Destroyed(false) ==> !CallbackRuns(s, i)
  {
    assert RegOk(s, i);
  }

  // ---------------------------------------------------------------- the calls that were made

  /** The constructors called so far: what can_be_cancelled() said to each. */
  function AbleOf(acts: seq<Action>): seq<bool> {
    if acts == [] then []
    else
      var a := acts[|acts| - 1];
      AbleOf(acts[..|acts| - 1]) + if a.Register? then [a.cancellable] else []
  }

  predicate RequestedBy(acts: seq<Action>) { exists i :: 0 <= i < |acts| && acts[i].Request? }

  ghost predicate SameRegs(s: State, t: State) {
    |t.regs| == |s.regs| && t.requested == s.requested && forall i :: 0 <= i < |s.regs| ==> t.regs[i].able == s.regs[i].able
  }

  lemma RegsOfStep(s: State, i: Id)
    requires Enabled(s, Step(i))
    ensures SameRegs(s, RegStep(s, i))
  {
    hide Put;
  }

  lemma RegsOfWalk(s: State)
    requires Enabled(s, Notify)
    ensures SameRegs(s, WalkStep(s))
  {
    hide Put, After;
  }

  lemma CallsOfStep(s: State, a: Action)
    requires Enabled(s, a)
    ensures var t := Apply(s, a);
      && |t.regs| == |s.regs| + (if a.Register? then 1 else 0)
      && (a.Register? ==> t.regs[|s.regs|].able == a.cancellable)
      && (forall i :: 0 <= i < |s.regs| ==> t.regs[i].able == s.regs[i].able)
      && (t.requested <==> s.requested || a.Request?)
  {
    if a.Step? { RegsOfStep(s, a.a); } else if a.Notify? { RegsOfWalk(s); }
    hide Put, Chunk, RegStep, WalkStep, NextSize, Valid, At;
  }

  lemma RequestedSo(acts: seq<Action>, k: nat)
    requires 0 < k <= |acts|
    ensures RequestedBy(acts[..k]) <==> RequestedBy(acts[..k - 1]) || acts[k - 1].Request?
  {
    var earlier, now := acts[..k - 1], acts[..k];
    assert now[k - 1] == acts[k - 1] && forall i :: 0 <= i < k - 1 ==> now[i] == earlier[i];
  }

  /** The registrations are those whose constructors were called, cancellable or not as their tokens were, and
      cancellation is requested from the first call of request_cancellation on. */
  lemma {:induction false} CallsMade(trace: seq<State>, acts: seq<Action>, k: nat)
    requires Run(trace, acts) && k <= |acts|
    ensures var s, able := trace[k], AbleOf(acts[..k]);
      |s.regs| == |able| && forall i :: 0 <= i < |able| ==> s.regs[i].able == able[i]
    ensures trace[k].requested <==> RequestedBy(acts[..k])
  {
    hide Enabled, Apply, RequestedBy;
    if k > 0 {
      CallsMade(trace, acts, k - 1);
      CallsOfStep(trace[k - 1], acts[k - 1]);
      RequestedSo(acts, k);
      assert acts[..k][..k - 1] == acts[..k - 1];
    } else {
      NoRequest(acts);
    }
  }

  lemma NoRequest(acts: seq<Action>)
    ensures !RequestedBy(acts[..0])
  {
  }

  lemma StartsOfReg(s: State, i: Id, k: Id)
    requires Inv(s) && Enabled(s, Step(i)) && k < |s.regs|
    ensures RegStep(s, i).regs[k].calls == s.regs[k].calls + if !CallbackRuns(s, k) && CallbackRuns(RegStep(s, i), k) then 1 else 0
  {
    assert RegOk(s, i);
    if s.regs[i].pc.Withdrawing? && At(s.table, s.regs[i].slot) == Occupied(i) { assert s.regs[i].inside; }
    hide SlotsOk, WalkOk;
  }

  lemma StartsOfWalk(s: State, k: Id)
    requires Inv(s) && Enabled(s, Notify) && k < |s.regs|
    ensures WalkStep(s).regs[k].calls == s.regs[k].calls + if !CallbackRuns(s, k) && CallbackRuns(WalkStep(s), k) then 1 else 0
  {
    if s.walk.AtTake? && At(s.table, s.walk.at) == Occupied(k) {
      assert s.regs[k].inside && RegOk(s, k);
    }
  }

  /** `calls` counts the moments at which the callback of a registration starts to run. */
  lemma CallsAreStarts(trace: seq<State>, acts: seq<Action>, k: nat, i: Id)
    requires Run(trace, acts) && k < |acts| && i < |trace[k].regs|
    ensures i < |trace[k + 1].regs|
    ensures var s, t := trace[k], trace[k + 1];
      t.regs[i].calls == s.regs[i].calls + if !CallbackRuns(s, i) && CallbackRuns(t, i) then 1 else 0
  {
    RunKeepsInv(trace, acts, k);
    var s, a := trace[k], acts[k];
    CallsOfStep(s, a);
    hide Inv, RegStep, WalkStep, Put, Chunk;
    if a.Step? { StartsOfReg(s, a.a, i); } else if a.Notify? { StartsOfWalk(s, i); }
  }

  // ---------------------------------------------------------------- what a destructor does, and that calls end

  /** A destructor: if the callback has not been started it takes the registration out, and the callback never
      runs; on the notifying thread it never waits; otherwise it waits for exactly as long as the notification
      is not complete. */
  lemma DestroyExact(trace: seq<State>, acts: seq<Action>, k: nat, i: Id)
    requires Run(trace, acts) && k < |acts| && acts[k] == Step(i) && i < |trace[k].regs|
    requires trace[k].regs[i].pc.Leaving? || trace[k].regs[i].pc.Awaiting?
    ensures i < |trace[k + 1].regs|
    ensures var s, r, q := trace[k], trace[k].regs[i], trace[k + 1].regs[i];
      match r.pc
      case Leaving(on) => q.pc == (if on || r.calls == 0 then Destroyed(on) else Awaiting) && !q.inside && q.calls == r.calls
      case Awaiting => if s.complete then q.pc == Destroyed(false) else trace[k + 1] == s
      case _ => false
  {
    RunKeepsInv(trace, acts, k);
    var s := trace[k];
    assert RegOk(s, i);
    if s.regs[i].pc.Leaving? { assert s.regs[i].inside <==> At(s.table, s.regs[i].slot) == Occupied(i); }
    hide SlotsOk, WalkOk;
  }

  /** How many steps a constructor or destructor has yet to take, at most, besides finding a slot and waiting for a
      notification. */
  function RegLeft(p: RegPc): nat {
    match p
    case Checking => 7
    case Attaching => 6
    case Searching => 5
    case Rechecking => 4
    case Withdrawing => 3
    case Calling => 2
    case Leaving(_) => 2
    case Awaiting => 1
    case _ => 0
  }

  lemma TakenOutAdvances(s: State, i: Id)
    requires Enabled(s, Step(i)) && (s.regs[i].pc.Withdrawing? || s.regs[i].pc.Leaving?)
    ensures i < |RegStep(s, i).regs| && RegLeft(RegStep(s, i).regs[i].pc) < RegLeft(s.regs[i].pc)
  {
    hide Put, At, Valid;
  }

  lemma OtherAdvances(s: State, i: Id)
    requires Enabled(s, Step(i)) && !s.regs[i].pc.Withdrawing? && !s.regs[i].pc.Leaving? && (s.regs[i].pc.Awaiting? ==> s.complete)
    ensures i < |RegStep(s, i).regs| && RegLeft(RegStep(s, i).regs[i].pc) < RegLeft(s.regs[i].pc)
  {
    hide Put, At, Valid;
  }

  lemma RegAdvances(s: State, i: Id)
    requires Enabled(s, Step(i)) && (s.regs[i].pc.Awaiting? ==> s.complete)
    ensures i < |RegStep(s, i).regs| && RegLeft(RegStep(s, i).regs[i].pc) < RegLeft(s.regs[i].pc)
  {
    if s.regs[i].pc.Withdrawing? || s.regs[i].pc.Leaving? { TakenOutAdvances(s, i); } else { OtherAdvances(s, i); }
    hide RegStep, RegLeft, Enabled;
  }

  /** A constructor or destructor runs for at most seven steps besides finding a slot, and a destructor that may
      have to wait for the notification does not go on waiting once that is complete. */
  lemma {:induction false} RegEnds(trace: seq<State>, acts: seq<Action>, j: nat, k: nat, i: Id)
    requires Run(trace, acts) && j <= k <= |acts| && i < |trace[j].regs|
    requires forall m :: j <= m < k ==>
      acts[m] == Step(i) && (i < |trace[m].regs| && trace[m].regs[i].pc.Awaiting? ==> trace[m].complete)
    ensures i < |trace[k].regs| && k - j + RegLeft(trace[k].regs[i].pc) <= RegLeft(trace[j].regs[i].pc)
  {
    hide Enabled, RegStep, RegLeft;
    if j < k {
      RegEnds(trace, acts, j, k - 1, i);
      RegAdvances(trace[k - 1], i);
    }
  }

  /** How many steps the walk takes at most from chunk c of a list on, and from list l on. */
  function ChunksLeft(chunks: seq<seq<Entry>>, c: nat): nat
    decreases |chunks| - c
  {
    if c >= |chunks| then 0 else 3 * |chunks[c]| + 1 + ChunksLeft(chunks, c + 1)
  }

  function ListsLeft(table: Table, l: nat): nat
    decreases |table| - l
  {
    if l >= |table| then 0 else ChunksLeft(table[l], 0) + 1 + ListsLeft(table, l + 1)
  }

  function BeyondChunk(table: Table, p: Slot): nat {
    (if p.list < |table| then ChunksLeft(table[p.list], p.chunk + 1) else 0) + ListsLeft(table, p.list + 1) + 2
  }

  function InChunk(table: Table, p: Slot): nat {
    if Valid(table, p) then 3 * (|table[p.list][p.chunk]| - p.entry) else 0
  }

  /** How many steps the first call of request_cancellation has yet to take, at most, if the table does not grow
      meanwhile. */
  function WalkLeft(table: Table, w: Walk): nat {
    match w
    case Idle => 0
    case AtState => ListsLeft(table, 0) + 3
    case AtList(l) => ListsLeft(table, l) + 2
    case AtEntry(p) => InChunk(table, p) + BeyondChunk(table, p) + 1
    case AtTake(p) => InChunk(table, p) + BeyondChunk(table, p)
    case Running(p, _) => InChunk(table, p) + BeyondChunk(table, p) - 1
    case AtNext(p) => BeyondChunk(table, p) + 1
    case AtEnd => 1
    case Complete => 0
  }

  ghost predicate SameSizes(s: Table, t: Table) {
    |t| == |s| && forall l :: 0 <= l < |s| ==> |t[l]| == |s[l]| && forall c :: 0 <= c < |s[l]| ==> |t[l][c]| == |s[l][c]|
  }

  lemma {:induction false} SameChunks(a: seq<seq<Entry>>, b: seq<seq<Entry>>, c: nat)
    requires |a| == |b| && forall i :: 0 <= i < |a| ==> |a[i]| == |b[i]|
    ensures ChunksLeft(a, c) == ChunksLeft(b, c)
    decreases |a| - c
  {
    if c < |a| { SameChunks(a, b, c + 1); }
  }

  lemma {:induction false} SameLists(s: Table, t: Table, l: nat)
    requires SameSizes(s, t)
    ensures ListsLeft(s, l) == ListsLeft(t, l)
    decreases |s| - l
  {
    if l < |s| {
      SameChunks(s[l], t[l], 0);
      SameLists(s, t, l + 1);
    }
  }

  lemma SameLeft(s: Table, t: Table, w: Walk)
    requires SameSizes(s, t)
    ensures WalkLeft(s, w) == WalkLeft(t, w)
  {
    var l := if w.AtList? then w.list else if w.AtState? then 0 else if w.AtEntry? || w.AtTake? || w.Running? || w.AtNext? then w.at.list + 1 else 0;
    SameLists(s, t, l);
    if w.AtEntry? || w.AtTake? || w.Running? || w.AtNext? {
      if w.at.list < |s| { SameChunks(s[w.at.list], t[w.at.list], w.at.chunk + 1); }
    }
    hide ListsLeft, ChunksLeft;
  }

  /** The step on the table as it is before it. */
  lemma WalkShrinks(s: State)
    requires Inv(s) && Enabled(s, Notify)
    ensures WalkLeft(s.table, WalkStep(s).walk) < WalkLeft(s.table, s.walk)
  {
    hide RegOk;
  }

  lemma WalkSizes(s: State)
    requires Inv(s) && Enabled(s, Notify)
    ensures SameSizes(s.table, WalkStep(s).table)
  {
    hide Inv, After;
  }

  lemma WalkAdvances(s: State)
    requires Inv(s) && Enabled(s, Notify)
    ensures WalkLeft(WalkStep(s).table, WalkStep(s).walk) < WalkLeft(s.table, s.walk)
  {
    hide Inv, WalkStep, WalkLeft;
    WalkShrinks(s);
    WalkSizes(s);
    SameLeft(s.table, WalkStep(s).table, WalkStep(s).walk);
  }

  /** The first call of request_cancellation, left alone while the callbacks return, goes through the whole table
      and returns: it takes at most three steps for each entry, one for each chunk and list, and three more. */
  lemma {:induction false} RequestEnds(trace: seq<State>, acts: seq<Action>, j: nat, k: nat)
    requires Run(trace, acts) && j <= k <= |acts| && forall m :: j <= m < k ==> acts[m].Notify?
    ensures k - j + WalkLeft(trace[k].table, trace[k].walk) <= WalkLeft(trace[j].table, trace[j].walk)
  {
    hide Inv, Enabled, WalkStep, WalkLeft;
    if j < k {
      RequestEnds(trace, acts, j, k - 1);
      RunKeepsInv(trace, acts, k - 1);
      WalkAdvances(trace[k - 1]);
    }
  }

  /** No call is ever stuck: a constructor that looks for a slot finds one or can make one, and so can the others go
      on, except a destructor that waits for the notification. */
  lemma NeverStuck(trace: seq<State>, acts: seq<Action>, k: nat, i: Id)
    requires Run(trace, acts) && k <= |acts| && i < |trace[k].regs| && RegLeft(trace[k].regs[i].pc) > 0
    ensures var s := trace[k];
      if s.regs[i].pc.Searching? then exists l :: Enabled(s, NewList(i, l)) || Enabled(s, NewChunk(i, l))
      else Enabled(s, Step(i))
  {
    RunKeepsInv(trace, acts, k);
    RunKeepsLists(trace, acts, k);
    var s := trace[k];
    assert RegOk(s, i);
    if s.regs[i].pc.Searching? {
      var n := |s.table[0]|;
      assert n > 0 ==> |s.table[0][n - 1]| > 0;
      assert Enabled(s, NewList(i, 0)) || Enabled(s, NewChunk(i, 0));
    }
  }

  lemma ListsStay(s: State, a: Action)
    requires Enabled(s, a)
    ensures |Apply(s, a).table| == |s.table|
  {
    hide At, Valid, Chunk, After, NextSize;
  }

  lemma {:induction false} RunKeepsLists(trace: seq<State>, acts: seq<Action>, k: nat)
    requires Run(trace, acts) && k <= |acts|
    ensures |trace[k].table| == |trace[0].table| > 0
  {
    if k > 0 {
      hide Enabled, Apply;
      RunKeepsLists(trace, acts, k - 1);
      ListsStay(trace[k - 1], acts[k - 1]);
    }
  }
}
