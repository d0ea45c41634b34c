/** What each call on a multi_producer_sequencer achieves over a run (include/cppcoro/multi_producer_sequencer.hpp):
    which numbers a claim gets and when it is granted, what publish has stored, and what a wait returns. */
module MultiProducerCalls {
  import opened MultiProducer
  import opened MultiProducerProofs

  // ---------------------------------------------------------------- claims

  /** A claim of `count` numbers gets that many, but never more than the ring has slots. */
  function SizeOf(n: nat, count: nat): nat { if count < n then count else n }

  /** The sizes of the claims made, in order. */
  function SizesOf(n: nat, acts: seq<Action>): seq<nat> {
    if acts == [] then []
    else
      var a := acts[|acts| - 1];
      SizesOf(n, acts[..|acts| - 1]) + if a.Claiming? then [SizeOf(n, a.count)] else []
  }

  function Sum(sizes: seq<nat>): nat {
    if sizes == [] then 0 else Sum(sizes[..|sizes| - 1]) + sizes[|sizes| - 1]
  }

  lemma SumOfPrefix(sizes: seq<nat>, i: nat)
    requires i < |sizes|
    ensures Sum(sizes[..i]) + sizes[i] == Sum(sizes[..i + 1])
  {
    assert sizes[..i + 1][..i] == sizes[..i];
  }

  /** Claim i gets sizes[i] numbers, from where the claims before it end. */
  ghost predicate BackToBack(s: State, sizes: seq<nat>) {
    var w := s.mem;
    && |w.claims| == |sizes| && w.next == s.init + 1 + Sum(sizes)
    && forall i :: 0 <= i < |sizes| ==>
         w.claims[i].first == s.init + 1 + Sum(sizes[..i]) && w.claims[i].end == w.claims[i].first + sizes[i]
  }

  lemma ClaimsOfStep(s: State, a: Action)
    requires Enabled(s, a)
    ensures var w, v := s.mem, Apply(s, a).mem;
      && v.n == w.n && Apply(s, a).init == s.init && |v.claims| == |w.claims| + (if a.Claiming? then 1 else 0)
      && v.next == w.next + (if a.Claiming? then SizeOf(w.n, a.count) else 0)
      && (a.Claiming? ==> v.claims[|w.claims|] == Claim(w.next, v.next, false))
      && forall i :: 0 <= i < |w.claims| ==>
           && v.claims[i].first == w.claims[i].first && v.claims[i].end == w.claims[i].end
           && (v.claims[i].granted <==>
                w.claims[i].granted || (a == TryGrant(i) && w.claims[i].end - 1 <= w.consumed + w.n))
  {
  }

  lemma SizesWith(n: nat, acts: seq<Action>, k: nat)
    requires 0 < k <= |acts|
    ensures SizesOf(n, acts[..k]) == NewSizes(n, SizesOf(n, acts[..k - 1]), acts[k - 1])
  {
    assert acts[..k][..k - 1] == acts[..k - 1];
    hide SizeOf;
  }

  function NewSizes(n: nat, sizes: seq<nat>, a: Action): seq<nat> {
    if a.Claiming? then sizes + [SizeOf(n, a.count)] else sizes
  }

  lemma BackToBackStep(s: State, a: Action, sizes: seq<nat>)
    requires Enabled(s, a) && BackToBack(s, sizes)
    ensures BackToBack(Apply(s, a), NewSizes(s.mem.n, sizes, a))
  {
    ClaimsOfStep(s, a);
    var t, more := Apply(s, a), NewSizes(s.mem.n, sizes, a);
    hide Enabled, Apply, SizeOf;
    assert a.Claiming? ==> more[..|more| - 1] == sizes;
    hide Sum;
    forall i | 0 <= i < |more|
      ensures t.mem.claims[i].first == t.init + 1 + Sum(more[..i]) && t.mem.claims[i].end == t.mem.claims[i].first + more[i]
    {
      assert more[..i] == sizes[..i];
      assert i == |sizes| ==> sizes[..i] == sizes;
    }
    if a.Claiming? {
      SumOfPrefix(more, |sizes|);
      assert more[..|sizes| + 1] == more;
    }
  }

  /** Numbers are handed out back to back: each claim gets as many as it asks for or the ring has, starting
      where the claim before it ends. */
  lemma {:induction false} ClaimsBackToBack(trace: seq<State>, acts: seq<Action>, k: nat)
    requires Run(trace, acts) && k <= |acts|
    ensures trace[k].mem.n == trace[0].mem.n && trace[k].init == trace[0].init
    ensures BackToBack(trace[k], SizesOf(trace[0].mem.n, acts[..k]))
  {
    hide Enabled, Apply;
    if k > 0 {
      hide BackToBack, SizesOf, NewSizes, SizeOf;
      var n := trace[0].mem.n;
      ClaimsBackToBack(trace, acts, k - 1);
      ClaimsOfStep(trace[k - 1], acts[k - 1]);
      BackToBackStep(trace[k - 1], acts[k - 1], SizesOf(n, acts[..k - 1]));
      SizesWith(n, acts, k);
    }
  }

  predicate InClaim(w: Mem, c: nat, x: int) { c < |w.claims| && w.claims[c].first <= x < w.claims[c].end }

  lemma {:induction false} FindClaim(s: State, sizes: seq<nat>, i: nat, x: int)
    requires BackToBack(s, sizes) && i <= |sizes| && s.init < x < s.init + 1 + Sum(sizes[..i])
    ensures exists c: nat :: InClaim(s.mem, c, x)
  {
    var j := i - 1;
    SumOfPrefix(sizes, j);
    if x < s.init + 1 + Sum(sizes[..j]) { FindClaim(s, sizes, j, x); } else { assert InClaim(s.mem, j, x); }
  }

  lemma OneClaim(s: State, c: nat, d: nat, x: int)
    requires ClaimsOk(s) && InClaim(s.mem, c, x) && InClaim(s.mem, d, x)
    ensures c == d && s.init < x < s.mem.next
  {
  }

  /** Every number handed out belongs to exactly one claim, no other number does, and how many there are is
      the sum of the sizes of the claims. */
  lemma ClaimedExactlyOnce(trace: seq<State>, acts: seq<Action>, k: nat, x: int)
    requires Run(trace, acts) && k <= |acts|
    ensures var s := trace[k];
      && s.mem.next - s.init - 1 == Sum(SizesOf(s.mem.n, acts[..k]))
      && (s.init < x < s.mem.next <==> exists c: nat :: InClaim(s.mem, c, x))
      && (forall c: nat, d: nat :: InClaim(s.mem, c, x) && InClaim(s.mem, d, x) ==> c == d)
  {
    var s := trace[k];
    var sizes := SizesOf(s.mem.n, acts[..k]);
    ClaimsBackToBack(trace, acts, k);
    RunKeepsInv(trace, acts, k);
    assert sizes[..|sizes|] == sizes;
    hide OpOk, Watched, TagsOk, SlotsOk, ClaimsOk, InClaim, SizesOf;
    if s.init < x < s.mem.next { FindClaim(s, sizes, |sizes|, x); }
    forall c: nat, d: nat | InClaim(s.mem, c, x) && InClaim(s.mem, d, x) ensures c == d { OneClaim(s, c, d, x); }
    if c: nat :| InClaim(s.mem, c, x) { OneClaim(s, c, c, x); }
  }

  predicate HasNumbers(w: Mem, c: nat, first: int, size: nat) {
    c < |w.claims| && w.claims[c].first == first && w.claims[c].end == first + size
  }

  lemma NumbersKept(s: State, a: Action, c: nat, first: int, size: nat)
    requires Enabled(s, a) && HasNumbers(s.mem, c, first, size)
    ensures HasNumbers(Apply(s, a).mem, c, first, size)
  {
    ClaimsOfStep(s, a);
    hide Enabled, Apply;
  }

  lemma NumbersTaken(s: State, a: Action)
    requires Enabled(s, a) && a.Claiming?
    ensures HasNumbers(Apply(s, a).mem, |s.mem.claims|, s.mem.next, SizeOf(s.mem.n, a.count))
    ensures a.count >= 1 ==> SizeOf(s.mem.n, a.count) >= 1
  {
    ClaimsOfStep(s, a);
    hide Apply;
  }

  /** co_await of a claim: it gets the next numbers, at least one if it asks for any, and keeps them. */
  lemma {:induction false} ClaimKeepsItsNumbers(trace: seq<State>, acts: seq<Action>, j: nat, k: nat)
    requires Run(trace, acts) && j < k <= |acts| && acts[j].Claiming?
    ensures var size := SizeOf(trace[j].mem.n, acts[j].count);
      && HasNumbers(trace[k].mem, |trace[j].mem.claims|, trace[j].mem.next, size)
      && (acts[j].count >= 1 ==> size >= 1)
  {
    hide Enabled, Apply, HasNumbers, SizeOf;
    NumbersTaken(trace[j], acts[j]);
    if k > j + 1 {
      ClaimKeepsItsNumbers(trace, acts, j, k - 1);
      NumbersKept(trace[k - 1], acts[k - 1], |trace[j].mem.claims|, trace[j].mem.next, SizeOf(trace[j].mem.n, acts[j].count));
    }
  }

  // ---------------------------------------------------------------- grants

  /** A number may be published once its claim is granted, and not before. */
  ghost predicate GrantedExact(s: State) {
    forall c: nat, x :: InClaim(s.mem, c, x) ==> Claimed(s, x) && (TagOf(s, x).Waiting? <==> !s.mem.claims[c].granted)
  }

  lemma GrantedExactStep(s: State, a: Action)
    requires RingOk(s) && GrantedExact(s) && Enabled(s, a)
    ensures GrantedExact(Apply(s, a))
  {
    var t := Apply(s, a);
    ClaimsOfStep(s, a);
    hide SlotsOk, TagsOk, Exec;
    forall c: nat, x | InClaim(t.mem, c, x)
      ensures Claimed(t, x) && (TagOf(t, x).Waiting? <==> !t.mem.claims[c].granted)
    {
      if c < |s.mem.claims| {
        assert InClaim(s.mem, c, x);
        if a.TryGrant? && a.c != c { assert !InClaim(s.mem, a.c, x); }
      }
    }
  }

  /** The barrier wait of a claim ends exactly if the last claimed number is at most one lap ahead of what is
      consumed; that lets all its numbers be published, and touches no other claim. */
  lemma {:induction false} GrantExact(trace: seq<State>, acts: seq<Action>, k: nat)
    requires Run(trace, acts) && k <= |acts|
    ensures GrantedExact(trace[k])
    ensures k < |acts| && acts[k].TryGrant? ==>
      var w, v := trace[k].mem, trace[k + 1].mem;
      && acts[k].c < |w.claims| == |v.claims|
      && (v.claims[acts[k].c].granted <==> w.claims[acts[k].c].end - 1 <= w.consumed + w.n)
      && forall d :: 0 <= d < |w.claims| && d != acts[k].c ==> v.claims[d] == w.claims[d]
  {
    if k > 0 {
      GrantExact(trace, acts, k - 1);
      RunKeepsInv(trace, acts, k - 1);
      hide Enabled, Apply, RingOk, OpOk, Watched, GrantedExact;
      GrantedExactStep(trace[k - 1], acts[k - 1]);
    }
  }

  // ---------------------------------------------------------------- publish

  /** The ranges handed to publish, in order. */
  function PublishesOf(acts: seq<Action>): seq<(int, int)> {
    if acts == [] then []
    else
      var a := acts[|acts| - 1];
      PublishesOf(acts[..|acts| - 1]) + if a.Publish? then [(a.first, a.end)] else []
  }

  lemma CallsOfStep(s: State, a: Action)
    requires Enabled(s, a)
    ensures var c, d := s.mem.calls, Apply(s, a).mem.calls;
      && |d| == |c| + (if a.Publish? then 1 else 0)
      && (a.Publish? ==> d[|c|].first == a.first && d[|c|].end == a.end)
      && (forall i :: 0 <= i < |c| ==> d[i].first == c[i].first && d[i].end == c[i].end)
  {
    if a.Step? { OnePc(s, a.i, a.guess); }
  }

  lemma {:induction false} CallsAre(trace: seq<State>, acts: seq<Action>, k: nat)
    requires Run(trace, acts) && k <= |acts|
    ensures var calls, ranges := trace[k].mem.calls, PublishesOf(acts[..k]);
      |calls| == |ranges| && forall i :: 0 <= i < |calls| ==> (calls[i].first, calls[i].end) == ranges[i]
  {
    hide Enabled, Apply;
    if k > 0 {
      CallsAre(trace, acts, k - 1);
      CallsOfStep(trace[k - 1], acts[k - 1]);
      assert acts[..k][..k - 1] == acts[..k - 1];
    }
  }

  /** A number counts as stored only if publish was called with a range that holds it; each number is handed to
      publish at most once; and when a call has done its stores, all the numbers of its range are stored. */
  lemma StoredExact(trace: seq<State>, acts: seq<Action>, k: nat, i: nat, x: int)
    requires Run(trace, acts) && k <= |acts|
    requires i < |PublishesOf(acts[..k])| && PublishesOf(acts[..k])[i].0 <= x < PublishesOf(acts[..k])[i].1
    ensures i < |trace[k].mem.calls| && trace[k].init < x < trace[k].mem.next
    ensures Stored(trace[k], x) <==> CallStored(trace[k].mem.calls[i], x)
    ensures !trace[k].mem.calls[i].pc.Storing? ==> Stored(trace[k], x)
    ensures forall j :: 0 <= j < |PublishesOf(acts[..k])| && j != i ==>
      !(PublishesOf(acts[..k])[j].0 <= x < PublishesOf(acts[..k])[j].1)
  {
    CallsAre(trace, acts, k);
    RunKeepsInv(trace, acts, k);
    var s := trace[k];
    assert CallOk(s, i);
    assert TagOf(s, x) == Given(i);
    hide OpOk, Watched, SlotsOk, PublishesOf;
    forall j | 0 <= j < |PublishesOf(acts[..k])| && j != i
      ensures !(PublishesOf(acts[..k])[j].0 <= x < PublishesOf(acts[..k])[j].1)
    {
      assert CallOk(s, j);
    }
  }

  lemma StoredOnlyIfPublished(trace: seq<State>, acts: seq<Action>, k: nat, x: int)
    requires Run(trace, acts) && k <= |acts| && trace[k].init < x && Stored(trace[k], x)
    ensures exists i :: 0 <= i < |PublishesOf(acts[..k])| && PublishesOf(acts[..k])[i].0 <= x < PublishesOf(acts[..k])[i].1
  {
    CallsAre(trace, acts, k);
    RunKeepsInv(trace, acts, k);
    hide OpOk, Watched, SlotsOk, ClaimsOk, PublishesOf;
    var i := TagOf(trace[k], x).i;
    assert PublishesOf(acts[..k])[i].0 <= x < PublishesOf(acts[..k])[i].1;
  }

  // ---------------------------------------------------------------- the consumer

  /** What the consumer has last published to its barrier. */
  function ConsumedBy(init: int, acts: seq<Action>): int {
    if acts == [] then init
    else
      var a := acts[|acts| - 1];
      if a.Consume? then a.v else ConsumedBy(init, acts[..|acts| - 1])
  }

  lemma ConsumedOfStep(s: State, a: Action)
    requires Enabled(s, a)
    ensures Apply(s, a).mem.consumed == if a.Consume? then a.v else s.mem.consumed
  {
  }

  lemma {:induction false} ConsumedIs(trace: seq<State>, acts: seq<Action>, k: nat)
    requires Run(trace, acts) && k <= |acts|
    ensures trace[k].mem.consumed == ConsumedBy(trace[0].init, acts[..k])
  {
    hide Enabled, Apply;
    if k > 0 {
      ConsumedIs(trace, acts, k - 1);
      ConsumedOfStep(trace[k - 1], acts[k - 1]);
      assert acts[..k][..k - 1] == acts[..k - 1];
    }
  }

  /** As far as it has come, a wait for `target` is right: it waits for that number, and if it has ended
      everything up to a number at least as high is published. */
  ghost predicate Answers(s: State, target: int) {
    var c := s.mem.consumer;
    if c.Running? then target <= c.seen && PublishedTo(s, c.seen) else s.mem.target == target
  }

  lemma WaitStarts(s: State, a: Action)
    requires Inv(s) && Enabled(s, a) && a.Wait? && Inv(Apply(s, a))
    ensures Answers(Apply(s, a), a.target)
    ensures Apply(s, a).mem.consumer.Running? <==> a.target <= a.from
  {
    hide RingOk, PublishedTo, Watched, LocOk, FlagOk, HolderOk;
  }

  lemma WaitGoesOn(s: State, a: Action)
    requires OpOk(s) && Enabled(s, a) && !a.Wait?
    ensures var w, v := s.mem, Apply(s, a).mem;
      && v.target == w.target && (w.consumer.Running? ==> v.consumer == w.consumer)
      && (!w.consumer.Running? && v.consumer.Running? ==> w.target <= v.consumer.seen)
  {
    if a.Step? { assert HolderOk(s, s.mem.calls[a.i].pc); }
    hide PublishedTo;
  }

  lemma AnswersStep(s: State, a: Action, target: int)
    requires Inv(s) && Enabled(s, a) && !a.Wait? && Inv(Apply(s, a)) && Answers(s, target)
    ensures Answers(Apply(s, a), target)
  {
    WaitGoesOn(s, a);
    hide RingOk, PublishedTo, Watched, LocOk, FlagOk, HolderOk, Enabled, Apply;
  }

  /** A wait for `target` waits for just that number; what it returns is at least that number, with everything
      up to it published; it ends at once exactly if what the caller already knows is enough; and when no thread
      is mid-operation it has ended unless something up to `target` is missing. */
  lemma {:induction false} WaitReturnsItsTarget(trace: seq<State>, acts: seq<Action>, j: nat, k: nat)
    requires Run(trace, acts) && j < k <= |acts| && acts[j].Wait?
    requires forall i :: j < i < k ==> !acts[i].Wait?
    ensures var c, target := trace[k].mem.consumer, acts[j].target;
      && Answers(trace[k], target)
      && (k == j + 1 ==> (c.Running? <==> target <= acts[j].from))
      && (Quiescent(trace[k]) ==> c.Running? || exists x :: x <= target && !Stored(trace[k], x))
  {
    hide Inv, Stored, Quiescent, Apply, Enabled, PublishedTo;
    RunKeepsInv(trace, acts, k - 1);
    RunKeepsInv(trace, acts, k);
    if k == j + 1 {
      WaitStarts(trace[k - 1], acts[k - 1]);
    } else {
      WaitReturnsItsTarget(trace, acts, j, k - 1);
      AnswersStep(trace[k - 1], acts[k - 1], acts[j].target);
    }
    if Quiescent(trace[k]) { NoLostWakeUp(trace, acts, k); }
  }

  // ---------------------------------------------------------------- calls that run undisturbed end

  function Gap(from: int, to: int): nat { if from < to then to - from else 0 }

  /** How many numbers can be published beyond k before the consumer moves on. */
  function Room(w: Mem, k: int): nat { Gap(k, w.consumed + w.n) }

  predicate NextIn(w: Mem, x: int) { 0 < w.n == |w.slots| && InSlot(w, x) }

  /** How many steps a call of publish has yet to take, at most, if no other thread moves. */
  function CallLeft(w: Mem, c: Call): nat {
    var again := Room(w, w.known) + 4;
    match c.pc
    case Storing(k) => Gap(k, c.end) + again + 2
    case Loading => again + 1
    case Taking => again
    case Scanning(k) => Room(w, k) + 3
    case Requeuing(k) => if NextIn(w, k + 1) then Gap(k + 1, w.target) + again + 2 else 2
    case Rechecking(x, e) => if NextIn(w, x) then Gap(x, e) + again + 1 else 1
    case Waking(_) => 1
    case Finished => 0
  }

  /** The same for the consumer inside add_awaiter and await_suspend. */
  function WaitLeft(w: Mem): nat {
    match w.consumer
    case Pushing => Room(w, w.known) + 5
    case Checking(k) => Room(w, k) + 4
    case Grabbing(_) => 3
    case Resuming(_) => 2
    case Handshake => 1
    case _ => 0
  }

  /** The loop that looks at the slots again goes up to the earliest target, not past it. */
  ghost predicate RecheckOk(s: State) {
    forall i :: 0 <= i < |s.mem.calls| && s.mem.calls[i].pc.Rechecking? ==> s.mem.calls[i].pc.seqno <= s.mem.calls[i].pc.earliest
  }

  lemma RecheckStep(s: State, a: Action)
    requires Inv(s) && Enabled(s, a) && RecheckOk(s)
    ensures RecheckOk(Apply(s, a))
  {
    if a.Step? {
      assert HolderOk(s, s.mem.calls[a.i].pc);
      OnePc(s, a.i, a.guess);
      hide Inv, Position, NewTags, NewLoc, InSlot;
      assert var pc := Exec(0, s.mem, a).calls[a.i].pc; pc.Rechecking? ==> pc.seqno <= pc.earliest;
      hide CallStep, HolderOk;
    } else {
      hide Inv, NewTags, NewLoc;
      assert !a.Publish? ==> Exec(0, s.mem, a).calls == s.mem.calls;
    }
  }

  lemma {:induction false} RunKeepsRecheckOk(trace: seq<State>, acts: seq<Action>, k: nat)
    requires Run(trace, acts) && k <= |acts|
    ensures RecheckOk(trace[k])
  {
    if k > 0 {
      hide Inv, Enabled, Apply, RecheckOk;
      RunKeepsRecheckOk(trace, acts, k - 1);
      RunKeepsInv(trace, acts, k - 1);
      RecheckStep(trace[k - 1], acts[k - 1]);
    }
  }

  /** A scan moves on only within the ring. */
  lemma ScanHasRoom(s: State, k: int)
    requires RingOk(s) && Position(s, k) && InSlot(s.mem, k + 1)
    ensures Room(s.mem, k + 1) < Room(s.mem, k)
  {
    SlotTestExact(s, k + 1);
  }

  predicate MayScan(w: Mem, k: int) { NextIn(w, k + 1) ==> Room(w, k + 1) < Room(w, k) }

  lemma CallShrinks(w: Mem, i: nat)
    requires 0 < w.n == |w.slots| && i < |w.calls| && !w.calls[i].pc.Finished?
    requires var pc := w.calls[i].pc;
      && (pc.Storing? ==> pc.next <= w.calls[i].end) && (pc.Rechecking? ==> pc.seqno <= pc.earliest)
      && (pc.Scanning? ==> MayScan(w, pc.last))
    ensures var v := CallStep(0, w, i, false); i < |v.calls| && CallLeft(v, v.calls[i]) < CallLeft(w, w.calls[i])
  {
  }

  lemma CallAdvances(s: State, i: nat)
    requires Inv(s) && RecheckOk(s) && Enabled(s, Step(i, false))
    ensures var w, v := s.mem, Apply(s, Step(i, false)).mem;
      i < |v.calls| && CallLeft(v, v.calls[i]) < CallLeft(w, w.calls[i])
  {
    var pc := s.mem.calls[i].pc;
    assert HolderOk(s, pc) && CallOk(s, i);
    if pc.Scanning? && NextIn(s.mem, pc.last + 1) { ScanHasRoom(s, pc.last); }
    hide PublishedTo, OpOk, Watched, TagsOk, SlotsOk, CallStep, CallLeft, Room, NextIn;
    CallShrinks(s.mem, i);
  }

  lemma WaitAdvances(s: State)
    requires Inv(s) && Enabled(s, Consumer)
    ensures WaitLeft(Apply(s, Consumer).mem) < WaitLeft(s.mem)
  {
    if s.mem.consumer.Checking? && InSlot(s.mem, s.mem.consumer.last + 1) { ScanHasRoom(s, s.mem.consumer.last); }
    hide RingOk, OpOk, Watched, PublishedTo, NewTags, NewLoc;
  }

  /** publish, left alone, returns: it stores its numbers and then scans, requeues and rechecks only so often. */
  lemma {:induction false} PublishEnds(trace: seq<State>, acts: seq<Action>, j: nat, k: nat, i: nat)
    requires Run(trace, acts) && j <= k <= |acts| && i < |trace[j].mem.calls|
    requires forall m :: j <= m < k ==> acts[m] == Step(i, false)
    ensures i < |trace[k].mem.calls|
    ensures k - j + CallLeft(trace[k].mem, trace[k].mem.calls[i]) <= CallLeft(trace[j].mem, trace[j].mem.calls[i])
  {
    hide Inv, Enabled, Apply, CallLeft, RecheckOk;
    if j < k {
      PublishEnds(trace, acts, j, k - 1, i);
      RunKeepsInv(trace, acts, k - 1);
      RunKeepsRecheckOk(trace, acts, k - 1);
      CallAdvances(trace[k - 1], i);
    }
  }

  /** A wait, left alone, ends or is suspended. */
  lemma {:induction false} WaitEnds(trace: seq<State>, acts: seq<Action>, j: nat, k: nat)
    requires Run(trace, acts) && j <= k <= |acts| && forall m :: j <= m < k ==> acts[m].Consumer?
    ensures k - j + WaitLeft(trace[k].mem) <= WaitLeft(trace[j].mem)
  {
    hide Inv, Enabled, Apply, WaitLeft;
    if j < k {
      WaitEnds(trace, acts, j, k - 1);
      RunKeepsInv(trace, acts, k - 1);
      WaitAdvances(trace[k - 1]);
    }
  }
}
