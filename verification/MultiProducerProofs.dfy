/** The waiting protocol of multi_producer_sequencer (include/cppcoro/multi_producer_sequencer.hpp:573-826):
    what every step of MultiProducer keeps about the consumer's wait operation, and the results about runs. */
module MultiProducerProofs {
  import opened Words
  import opened MultiProducer

  predicate HasAwaiter(pc: CallPc) { pc.Scanning? || pc.Requeuing? || pc.Waking? }

  /** A position from which slots are tested: nothing up to it is missing, and it is not yet consumed. */
  ghost predicate Position(s: State, k: int) { s.mem.consumed <= k && PublishedTo(s, k) }

  ghost predicate HolderOk(s: State, pc: CallPc) {
    match pc
    case Scanning(k) => Position(s, k)
    case Requeuing(k) => Position(s, k) && k < s.mem.target
    case Waking(k) => Position(s, k) && s.mem.target <= k
    case _ => true
  }

  /** The wait operation is in exactly one place. */
  ghost predicate LocOk(s: State) {
    var w := s.mem;
    && (w.queued <==> s.loc.Queued?)
    && (w.consumer.Resuming? <==> s.loc.Own?)
    && (forall i :: 0 <= i < |w.calls| ==> (HasAwaiter(w.calls[i].pc) <==> s.loc == Held(i)))
    && (w.consumer.Running? || w.consumer.Pushing? <==> s.loc.Nowhere?)
    && (s.loc.Held? ==> s.loc.i < |w.calls|)
  }

  /** What the consumer knows, with the ring as in s and the rest as in v. */
  ghost predicate ConsumerOk(s: State, v: Mem) {
    && (match v.consumer
        case Running(seen) => Position(s, seen)
        case Checking(k) => Position(s, k)
        case Grabbing(k) => Position(s, k) && v.target <= k
        case Resuming(k) => Position(s, k) && v.target <= k
        case _ => true)
    && (!v.consumer.Running? ==> Position(s, v.known))
  }

  /** The flag is up once one side has been there; a wait ends once. */
  ghost predicate FlagOk(s: State) {
    var w := s.mem;
    && (!w.consumer.Running? ==> (w.ready <==> w.consumer.Suspended? || s.loc.Released?))
    && (s.loc.Released? ==> !w.consumer.Suspended? && w.target <= w.known)
    && s.waits == s.resumes + if w.consumer.Running? then 0 else 1
  }

  ghost predicate OpOk(s: State) {
    && LocOk(s) && FlagOk(s) && ConsumerOk(s, s.mem)
    && forall i :: 0 <= i < |s.mem.calls| ==> HolderOk(s, s.mem.calls[i].pc)
  }

  /** This call will take the list once everything up to the target is published. */
  predicate Catching(w: Mem, pc: CallPc) {
    pc.Loading? || pc.Taking? || (pc.Rechecking? && w.consumed < pc.seqno <= pc.earliest <= w.target)
  }

  ghost predicate Responsible(w: Mem) {
    w.consumer.Checking? || w.consumer.Grabbing? || exists i :: 0 <= i < |w.calls| && Catching(w, w.calls[i].pc)
  }

  ghost predicate Watched(s: State) {
    s.mem.queued && PublishedTo(s, s.mem.target) ==> Responsible(s.mem)
  }

  ghost predicate Inv(s: State) { RingOk(s) && OpOk(s) && Watched(s) }

  // ---------------------------------------------------------------- every step keeps LocOk

  lemma LocOfStep(s: State, i: nat, guess: bool)
    requires RingOk(s) && OpOk(s) && Enabled(s, Step(i, guess))
    ensures LocOk(Apply(s, Step(i, guess)))
  {
    hide RingOk, HolderOk, Position;
  }

  lemma LocOfOther(s: State, a: Action)
    requires RingOk(s) && OpOk(s) && Enabled(s, a) && !a.Step?
    ensures LocOk(Apply(s, a))
  {
    hide RingOk, HolderOk, Position, Retag;
  }

  // ---------------------------------------------------------------- every step keeps OpOk

  lemma PositionKept(s: State, a: Action, k: int)
    requires RingOk(s) && Enabled(s, a) && !a.Consume? && Position(s, k)
    ensures Position(Apply(s, a), k)
  {
    PublishedKept(s, a, k);
    assert Apply(s, a).mem.consumed == s.mem.consumed;
  }

  lemma ScanAdvances(s: State, k: int)
    requires RingOk(s) && Position(s, k) && InSlot(s.mem, k + 1)
    ensures Position(s, k + 1)
  {
    SlotTestExact(s, k + 1);
  }

  lemma HolderKept(s: State, a: Action, pc: CallPc)
    requires RingOk(s) && Enabled(s, a) && !a.Consume? && HolderOk(s, pc) && Apply(s, a).mem.target == s.mem.target
    ensures HolderOk(Apply(s, a), pc)
  {
    hide RingOk, Enabled, Apply, Position;
    match pc
    case Scanning(k) => PositionKept(s, a, k);
    case Requeuing(k) => PositionKept(s, a, k);
    case Waking(k) => PositionKept(s, a, k);
    case _ =>
  }

  /** What the call knows after a step already held before it. */
  lemma HolderAhead(s: State, i: nat, guess: bool)
    requires RingOk(s) && OpOk(s) && Enabled(s, Step(i, guess))
    ensures HolderOk(s, Exec(0, s.mem, Step(i, guess)).calls[i].pc)
  {
    var pc := s.mem.calls[i].pc;
    assert HolderOk(s, pc);
    if pc.Scanning? && InSlot(s.mem, pc.last + 1) { ScanAdvances(s, pc.last); }
    assert pc.Taking? && s.mem.queued ==> Position(s, s.mem.known);
    hide RingOk, OpOk, Position;
  }

  lemma HoldersAhead(s: State, i: nat, guess: bool)
    requires RingOk(s) && OpOk(s) && Enabled(s, Step(i, guess))
    ensures var v := Exec(0, s.mem, Step(i, guess));
      (forall j :: 0 <= j < |v.calls| ==> HolderOk(s, v.calls[j].pc)) && v.target == s.mem.target
  {
    OnePc(s, i, guess);
    HolderAhead(s, i, guess);
    assert Exec(0, s.mem, Step(i, guess)).target == s.mem.target;
    hide RingOk, HolderOk, Exec, LocOk, FlagOk, ConsumerOk;
  }

  lemma HoldersStep(s: State, a: Action)
    requires RingOk(s) && OpOk(s) && Enabled(s, a)
    ensures forall i :: 0 <= i < |Apply(s, a).mem.calls| ==> HolderOk(Apply(s, a), Apply(s, a).mem.calls[i].pc)
  {
    var t := Apply(s, a);
    if a.Step? {
      HoldersAhead(s, a.i, a.guess);
      hide RingOk, OpOk, Exec, HolderOk;
      forall i | 0 <= i < |t.mem.calls| ensures HolderOk(t, t.mem.calls[i].pc) { HolderKept(s, a, t.mem.calls[i].pc); }
    } else if s.mem.consumer.Running? && (a.Wait? || a.Consume?) {
      assert t.mem.calls == s.mem.calls;
      hide RingOk, Position;
    } else {
      assert t.mem.target == s.mem.target && |t.mem.calls| >= |s.mem.calls|;
      assert forall i :: 0 <= i < |s.mem.calls| ==> t.mem.calls[i] == s.mem.calls[i];
      assert forall i :: |s.mem.calls| <= i < |t.mem.calls| ==> !HasAwaiter(t.mem.calls[i].pc);
      hide RingOk, Exec;
      forall i | 0 <= i < |t.mem.calls| ensures HolderOk(t, t.mem.calls[i].pc) {
        if i < |s.mem.calls| { HolderKept(s, a, t.mem.calls[i].pc); }
      }
    }
  }

  lemma ConsumerAheadOfStep(s: State, i: nat, guess: bool)
    requires RingOk(s) && OpOk(s) && Enabled(s, Step(i, guess))
    ensures ConsumerOk(s, Exec(0, s.mem, Step(i, guess)))
  {
    assert HolderOk(s, s.mem.calls[i].pc);
    hide RingOk, Position;
  }

  lemma ConsumerAheadOfOther(s: State, a: Action)
    requires RingOk(s) && OpOk(s) && Enabled(s, a) && !a.Step? && !a.Consume?
    ensures ConsumerOk(s, Exec(0, s.mem, a))
  {
    if a.Consumer? && s.mem.consumer.Checking? && InSlot(s.mem, s.mem.consumer.last + 1) {
      ScanAdvances(s, s.mem.consumer.last);
    }
    if a.Wait? {
      assert Position(s, a.from);
    }
    hide RingOk, PublishedTo;
  }

  lemma PositionsStep(s: State, a: Action)
    requires RingOk(s) && OpOk(s) && Enabled(s, a)
    ensures ConsumerOk(Apply(s, a), Apply(s, a).mem)
  {
    var t := Apply(s, a);
    if a.Consume? {
      PublishedKept(s, a, s.mem.consumer.seen);
    } else {
      if a.Step? { ConsumerAheadOfStep(s, a.i, a.guess); } else { ConsumerAheadOfOther(s, a); }
      hide RingOk, OpOk, Exec, Position, Enabled;
      match t.mem.consumer {
        case Running(k) => PositionKept(s, a, k);
        case Checking(k) => PositionKept(s, a, k);
        case Grabbing(k) => PositionKept(s, a, k);
        case Resuming(k) => PositionKept(s, a, k);
        case _ =>
      }
      if !t.mem.consumer.Running? { PositionKept(s, a, t.mem.known); }
    }
  }

  lemma FlagStep(s: State, a: Action)
    requires RingOk(s) && OpOk(s) && Enabled(s, a)
    ensures FlagOk(Apply(s, a))
  {
    if a.Step? { assert HolderOk(s, s.mem.calls[a.i].pc); }
    hide RingOk, PublishedTo, NewTags;
  }

  lemma OpStep(s: State, a: Action)
    requires RingOk(s) && OpOk(s) && Enabled(s, a)
    ensures OpOk(Apply(s, a))
  {
    hide RingOk, Enabled, Apply, HolderOk, Position, LocOk;
    HoldersStep(s, a);
    PositionsStep(s, a);
    FlagStep(s, a);
    if a.Step? { LocOfStep(s, a.i, a.guess); } else { LocOfOther(s, a); }
  }

  // ---------------------------------------------------------------- every step keeps Watched

  /** Only storing the front of a range can complete the run of published numbers. */
  lemma FrontCompletes(s: State, a: Action, k: int)
    requires RingOk(s) && Enabled(s, a) && !PublishedTo(s, k) && PublishedTo(Apply(s, a), k)
    ensures a.Step? && s.mem.calls[a.i].pc.Storing? && s.mem.calls[a.i].pc.next == s.mem.calls[a.i].end
  {
    var x :| x <= k && !Stored(s, x);
    StoredChanges(s, a, x);
    assert Stores(s, a, x);
    var c := s.mem.calls[a.i];
    FrontNotStored(s, a.i);
    StoredChanges(s, a, c.first);
    hide Apply, RingOk;
  }

  lemma FrontNotStored(s: State, i: nat)
    requires RingOk(s) && i < |s.mem.calls| && s.mem.calls[i].pc.Storing?
    ensures s.mem.calls[i].first < s.mem.calls[i].pc.next && !Stored(s, s.mem.calls[i].first)
  {
    var c := s.mem.calls[i];
    assert CallOk(s, i);
    assert Claimed(s, c.first) && TagOf(s, c.first) == Given(i);
  }

  /** A call that was going to take the list still will, or has taken it. */
  lemma StillCatching(s: State, a: Action, i: nat)
    requires Inv(s) && Enabled(s, a) && s.mem.queued && PublishedTo(s, s.mem.target)
    requires i < |s.mem.calls| && Catching(s.mem, s.mem.calls[i].pc)
    ensures var v := Exec(0, s.mem, a);
      v.queued ==> i < |v.calls| && Catching(v, v.calls[i].pc)
  {
    var pc := s.mem.calls[i].pc;
    if pc.Rechecking? && pc.seqno <= s.mem.target && s.mem.consumed < pc.seqno { SlotTestExact(s, pc.seqno); }
    assert !s.mem.consumer.Running?;
    hide RingOk, OpOk, Watched, PublishedTo;
  }

  lemma StillChecking(s: State, a: Action)
    requires Inv(s) && Enabled(s, a) && s.mem.queued && PublishedTo(s, s.mem.target)
    requires s.mem.consumer.Checking? || s.mem.consumer.Grabbing?
    ensures var v := Exec(0, s.mem, a);
      v.queued ==> v.consumer.Checking? || v.consumer.Grabbing?
  {
    if s.mem.consumer.Checking? { SlotTestExact(s, s.mem.consumer.last + 1); }
    assert a.Step? ==> !s.mem.calls[a.i].pc.Waking? by { assert LocOk(s); }
    hide RingOk, OpOk, Watched;
  }

  lemma NewlyQueued(s: State, a: Action)
    requires Inv(s) && Enabled(s, a) && !s.mem.queued && Exec(0, s.mem, a).queued
    ensures Responsible(Exec(0, s.mem, a))
  {
    var v := Exec(0, s.mem, a);
    if a.Step? {
      assert HolderOk(s, s.mem.calls[a.i].pc);
      hide RingOk, OpOk, Watched;
      assert Catching(v, v.calls[a.i].pc);
    } else {
      hide RingOk, OpOk, Watched;
    }
  }

  lemma WatchedStep(s: State, a: Action)
    requires Inv(s) && Enabled(s, a)
    ensures Watched(Apply(s, a))
  {
    var t := Apply(s, a);
    var v := t.mem;
    if v.queued && PublishedTo(t, v.target) {
      if !s.mem.queued {
        NewlyQueued(s, a);
      } else {
        assert !s.mem.consumer.Running? && !a.Consume? by { assert LocOk(s); }
        TargetKept(s, a);
        if !PublishedTo(s, s.mem.target) {
          FrontCompletes(s, a, s.mem.target);
          OnePc(s, a.i, a.guess);
          assert Catching(v, v.calls[a.i].pc);
        } else if s.mem.consumer.Checking? || s.mem.consumer.Grabbing? {
          StillChecking(s, a);
        } else {
          var i :| 0 <= i < |s.mem.calls| && Catching(s.mem, s.mem.calls[i].pc);
          StillCatching(s, a, i);
        }
      }
    }
  }

  lemma TargetKept(s: State, a: Action)
    requires Enabled(s, a) && !s.mem.consumer.Running?
    ensures Exec(0, s.mem, a).target == s.mem.target
  {
  }

  lemma InvStep(s: State, a: Action)
    requires Inv(s) && Enabled(s, a)
    ensures Inv(Apply(s, a))
  {
    WatchedStep(s, a);
    hide RingOk, Watched, Apply, Enabled;
    OpStep(s, a);
    hide LocOk, FlagOk, HolderOk;
    assert s.mem.consumer.Running? ==> PublishedTo(s, s.mem.consumer.seen);
    RingStep(s, a);
  }

  // ---------------------------------------------------------------- whole runs

  ghost predicate Run(trace: seq<State>, acts: seq<Action>) {
    && |trace| == |acts| + 1
    && Init(trace[0])
    && forall k :: 0 <= k < |acts| ==> Enabled(trace[k], acts[k]) && trace[k + 1] == Apply(trace[k], acts[k])
  }

  lemma InitInv(s: State)
    requires Init(s)
    ensures Inv(s)
  {
    var w := s.mem;
    forall x | w.consumed < x <= w.consumed + w.n
      ensures w.slots[x % w.n] == if Stored(s, x) then x else x - w.n
    {
      ModAddSame(x, w.n, -1);
      assert w.slots[(x - w.n) % w.n] == x - w.n;
    }
  }

  lemma {:induction false} RunKeepsInv(trace: seq<State>, acts: seq<Action>, k: nat)
    requires Run(trace, acts) && k <= |acts|
    ensures Inv(trace[k])
  {
    hide Inv, Enabled, Apply, Init;
    if k > 0 {
      RunKeepsInv(trace, acts, k - 1);
      InvStep(trace[k - 1], acts[k - 1]);
    } else {
      InitInv(trace[0]);
    }
  }

  /** Granted ranges never overlap, and two granted numbers that are not yet consumed never share a slot. */
  lemma SlotsExclusive(trace: seq<State>, acts: seq<Action>, k: nat, c: nat, d: nat, x: int, y: int)
    requires Run(trace, acts) && k <= |acts|
    requires var w := trace[k].mem;
      && c < |w.claims| && w.claims[c].granted && w.claims[c].first <= x < w.claims[c].end
      && d < |w.claims| && w.claims[d].granted && w.claims[d].first <= y < w.claims[d].end
    ensures c != d ==> x != y
    ensures var w := trace[k].mem;
      0 < w.n && (w.consumed < x && w.consumed < y && x != y ==> x % w.n != y % w.n)
  {
    RunKeepsInv(trace, acts, k);
    var w := trace[k].mem;
    if w.consumed < x < y { SlotsDistinct(y, x, w.n); }
    if w.consumed < y < x { SlotsDistinct(x, y, w.n); }
  }

  /** When a co_await of the consumer ends, it returns a number whose predecessors are all published and that
      its target does not exceed, and it ends once. */
  lemma ResumedOnlyWhenPublished(trace: seq<State>, acts: seq<Action>, k: nat)
    requires Run(trace, acts) && k < |acts|
    requires !trace[k].mem.consumer.Running? && trace[k + 1].mem.consumer.Running?
    ensures var s, t := trace[k], trace[k + 1];
      && s.mem.target <= t.mem.consumer.seen && PublishedTo(t, t.mem.consumer.seen)
      && (acts[k].Consumer? || s.mem.consumer.Suspended?)
      && s.waits == s.resumes + 1 && t.waits == t.resumes
  {
    RunKeepsInv(trace, acts, k);
    RunKeepsInv(trace, acts, k + 1);
    var s, a := trace[k], acts[k];
    if a.Step? { assert HolderOk(s, s.mem.calls[a.i].pc); }
    hide RingOk, Watched, PublishedTo;
  }

  /** No call of publish is under way and the consumer is not inside add_awaiter. */
  ghost predicate Quiescent(s: State) {
    && (s.mem.consumer.Running? || s.mem.consumer.Suspended?)
    && forall i :: 0 <= i < |s.mem.calls| ==> s.mem.calls[i].pc.Finished?
  }

  /** When no thread is mid-operation a waiting consumer is queued, and some number up to its target has
      not been published. */
  lemma NoLostWakeUp(trace: seq<State>, acts: seq<Action>, k: nat)
    requires Run(trace, acts) && k <= |acts| && Quiescent(trace[k])
    ensures var s := trace[k];
      if s.mem.consumer.Running? then !s.mem.queued
      else s.mem.queued && exists x :: x <= s.mem.target && !Stored(s, x)
  {
    RunKeepsInv(trace, acts, k);
  }

  /** A range whose front is published is published as a whole: publish stores the front last. */
  lemma RangesWhole(s: State, i: nat, last: int)
    requires RingOk(s) && PublishedTo(s, last)
    requires i < |s.mem.calls| && s.mem.calls[i].first <= last < s.mem.calls[i].end - 1
    ensures Stored(s, last + 1)
  {
    var c := s.mem.calls[i];
    assert CallOk(s, i);
    assert Stored(s, c.first);
    assert Claimed(s, c.first) && TagOf(s, c.first) == Given(i);
    assert Claimed(s, last + 1) && TagOf(s, last + 1) == Given(i);
  }

  /** last_published_after, and the scan of add_awaiter, stop exactly at the end of the published run, less
      than one lap after what is consumed; and no stop is strictly inside a range handed to publish. */
  lemma ScanExact(trace: seq<State>, acts: seq<Action>, k: nat, last: int)
    requires Run(trace, acts) && k <= |acts|
    requires var w := trace[k].mem;
      w.consumer == Checking(last) || exists i :: 0 <= i < |w.calls| && w.calls[i].pc == Scanning(last)
    ensures var s := trace[k];
      && 0 < s.mem.n == |s.mem.slots|
      && PublishedTo(s, last) && s.mem.consumed <= last <= s.mem.consumed + s.mem.n
      && (!InSlot(s.mem, last + 1) <==> !Stored(s, last + 1))
      && (!InSlot(s.mem, last + 1) ==>
           forall i :: 0 <= i < |s.mem.calls| ==> !(s.mem.calls[i].first <= last < s.mem.calls[i].end - 1))
  {
    RunKeepsInv(trace, acts, k);
    var s := trace[k];
    if i :| 0 <= i < |s.mem.calls| && s.mem.calls[i].pc == Scanning(last) { assert HolderOk(s, s.mem.calls[i].pc); }
    assert Position(s, last);
    SlotTestExact(s, last + 1);
    assert Stored(s, last);
    forall i | 0 <= i < |s.mem.calls| && s.mem.calls[i].first <= last < s.mem.calls[i].end - 1
      ensures Stored(s, last + 1)
    {
      RangesWhole(s, i, last);
    }
  }
}
