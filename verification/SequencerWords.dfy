/** multi_producer_sequencer on unsigned words (include/cppcoro/sequence_traits.hpp:21-29 and
    include/cppcoro/multi_producer_sequencer.hpp:476-826): the machine of MultiProducer that keeps every
    sequence number in a word with m values takes, step by step, the image of what the machine on unbounded
    numbers does. */
module SequencerWords {
  import opened Words
  import opened MultiProducer
  import opened MultiProducerProofs

  // ---------------------------------------------------------------- images

  function PcImage(m: nat, pc: CallPc): CallPc
    requires m > 0
  {
    match pc
    case Storing(k) => Storing(Wrap(m, k))
    case Scanning(k) => Scanning(Wrap(m, k))
    case Requeuing(k) => Requeuing(Wrap(m, k))
    case Rechecking(x, e) => Rechecking(Wrap(m, x), Wrap(m, e))
    case Waking(k) => Waking(Wrap(m, k))
    case Loading => pc
    case Taking => pc
    case Finished => pc
  }

  function CallImage(m: nat, c: Call): Call
    requires m > 0
  {
    Call(Wrap(m, c.first), Wrap(m, c.end), PcImage(m, c.pc))
  }

  function CallsImage(m: nat, calls: seq<Call>): (r: seq<Call>)
    requires m > 0
    ensures |r| == |calls| && forall i :: 0 <= i < |calls| ==> r[i] == CallImage(m, calls[i])
  {
    seq(|calls|, i requires 0 <= i < |calls| => CallImage(m, calls[i]))
  }

  function ClaimImage(m: nat, c: Claim): Claim
    requires m > 0
  {
    Claim(Wrap(m, c.first), Wrap(m, c.end), c.granted)
  }

  function ClaimsImage(m: nat, claims: seq<Claim>): (r: seq<Claim>)
    requires m > 0
    ensures |r| == |claims| && forall i :: 0 <= i < |claims| ==> r[i] == ClaimImage(m, claims[i])
  {
    seq(|claims|, i requires 0 <= i < |claims| => ClaimImage(m, claims[i]))
  }

  function SlotsImage(m: nat, slots: seq<int>): (r: seq<int>)
    requires m > 0
    ensures |r| == |slots| && forall i :: 0 <= i < |slots| ==> r[i] == Wrap(m, slots[i])
  {
    seq(|slots|, i requires 0 <= i < |slots| => Wrap(m, slots[i]))
  }

  function ConsumerImage(m: nat, c: Consumer): Consumer
    requires m > 0
  {
    match c
    case Running(k) => Running(Wrap(m, k))
    case Checking(k) => Checking(Wrap(m, k))
    case Grabbing(k) => Grabbing(Wrap(m, k))
    case Resuming(k) => Resuming(Wrap(m, k))
    case Pushing => c
    case Handshake => c
    case Suspended => c
  }

  /** The memory of the word machine when the unbounded one has memory w. */
  function Image(m: nat, w: Mem): Mem
    requires m > 0
  {
    Mem(w.n, SlotsImage(m, w.slots), Wrap(m, w.next), Wrap(m, w.consumed), ClaimsImage(m, w.claims),
        CallsImage(m, w.calls), w.queued, Wrap(m, w.target), Wrap(m, w.known), w.ready, ConsumerImage(m, w.consumer))
  }

  /** The same action with its arguments in words; the word machine never guesses. */
  function ActionImage(m: nat, a: Action): Action
    requires m > 0
  {
    match a
    case Publish(first, end) => Publish(Wrap(m, first), Wrap(m, end))
    case Wait(target, from) => Wait(Wrap(m, target), Wrap(m, from))
    case Consume(v) => Consume(Wrap(m, v))
    case Step(i, _) => Step(i, false)
    case Claiming(_) => a
    case TryGrant(_) => a
    case Consumer => a
  }

  // ---------------------------------------------------------------- when words are wide enough

  /** The ring divides the range of a word and is at most as big as its largest difference. */
  predicate RingFits(m: nat, n: nat) { n > 0 && m > 0 && m % n == 0 && 2 * n + 2 <= m }

  /** What the callers' numbers must respect: those compared by a claim or by a new wait differ by less than
      half the range.  A recheck guesses exactly when the words agree: Enabled leaves the guess free, so this
      picks the run on numbers that goes the way the words go. */
  ghost predicate Fits(m: nat, s: State, a: Action)
    requires m > 0 && CanExec(s.mem, a)
  {
    match a
    case TryGrant(c) => InHalf(m, s.mem.consumed - (s.mem.claims[c].end - 1 - s.mem.n))
    case Wait(target, from) => InHalf(m, from - target) && InHalf(m, target - from)
    case Step(i, guess) =>
      var pc := s.mem.calls[i].pc;
      guess == (pc.Rechecking? && Wrap(m, s.mem.slots[pc.seqno % s.mem.n]) == Wrap(m, pc.seqno))
    case _ => true
  }

  /** Numbers that a wait compares stay in half a range of each other. */
  ghost predicate CloseCall(m: nat, w: Mem, pc: CallPc) {
    match pc
    case Scanning(k) => w.target - k < m - m / 2
    case Requeuing(k) => w.target - k < m - m / 2
    case Rechecking(x, e) => 0 <= e - x < m - m / 2
    case _ => true
  }

  ghost predicate Close(m: nat, w: Mem) {
    && (!w.consumer.Running? ==> w.consumed < w.target && w.target - w.known < m - m / 2)
    && (w.consumer.Checking? ==> w.target - w.consumer.last < m - m / 2)
    && (forall i :: 0 <= i < |w.calls| ==> CloseCall(m, w, w.calls[i].pc))
  }

  lemma CloseStep(m: nat, s: State, a: Action)
    requires m > 0 && Inv(s) && Enabled(s, a) && Close(m, s.mem) && Fits(m, s, a)
    ensures Close(m, Exec(0, s.mem, a))
  {
    if a.Step? { CloseCallStep(m, s, a.i, a.guess); } else { CloseOther(m, s, a); }
  }

  lemma CloseCallStep(m: nat, s: State, i: nat, guess: bool)
    requires m > 0 && Inv(s) && Enabled(s, Step(i, guess)) && Close(m, s.mem)
    ensures Close(m, Exec(0, s.mem, Step(i, guess)))
  {
    assert CloseCall(m, s.mem, s.mem.calls[i].pc);
    assert HolderOk(s, s.mem.calls[i].pc);
    hide RingOk, OpOk, Watched, Position;
  }

  lemma CloseOther(m: nat, s: State, a: Action)
    requires m > 0 && Inv(s) && Enabled(s, a) && Close(m, s.mem) && Fits(m, s, a) && !a.Step?
    ensures Close(m, Exec(0, s.mem, a))
  {
    var v := Exec(0, s.mem, a);
    if a.Wait? {
      assert forall i :: 0 <= i < |s.mem.calls| ==> !HasAwaiter(s.mem.calls[i].pc);
      hide RingOk, OpOk, Watched;
    } else {
      hide RingOk, OpOk, Watched;
      assert v.target == s.mem.target;
    }
  }

  // ---------------------------------------------------------------- comparing words

  lemma SlotIndex(m: nat, n: nat, x: int)
    requires RingFits(m, n)
    ensures Wrap(m, x) % n == x % n
  {
    SlotOfWord(m, n, m / n, x);
  }

  /** Every slot holds a number of the current lap or of the one before. */
  lemma SlotBounds(s: State, j: nat)
    requires RingOk(s) && j < s.mem.n
    ensures s.mem.consumed - s.mem.n < s.mem.slots[j] <= s.mem.consumed + s.mem.n
  {
    var w := s.mem;
    var d := (j - w.consumed - 1) % w.n;
    var x := w.consumed + 1 + d;
    assert x % w.n == j by {
      assert x == j + w.n * -((j - w.consumed - 1) / w.n);
      ModAddSame(j, w.n, -((j - w.consumed - 1) / w.n));
      ModUnique(j, w.n, 0, j);
    }
    assert w.slots[x % w.n] == if Stored(s, x) then x else x - w.n;
  }

  lemma PositionBound(s: State, k: int)
    requires RingOk(s) && Position(s, k)
    ensures k <= s.mem.consumed + s.mem.n
  {
    assert Stored(s, k);
  }

  /** Testing a slot on words tells the same as on numbers. */
  lemma SlotTestOnWords(m: nat, s: State, k: int)
    requires RingOk(s) && Position(s, k) && RingFits(m, s.mem.n)
    ensures Num(m, Wrap(m, k) + 1) == Wrap(m, k + 1)
    ensures InSlot(Image(m, s.mem), Wrap(m, k + 1)) <==> InSlot(s.mem, k + 1)
  {
    WrapAdd(m, k, 1);
    SlotIndex(m, s.mem.n, k + 1);
    PositionBound(s, k);
    SlotBounds(s, (k + 1) % s.mem.n);
    WrapInjective(m, s.mem.slots[(k + 1) % s.mem.n], k + 1);
  }

  lemma DiffOnWords(m: nat, x: int, y: int)
    requires m > 0 && InHalf(m, x - y)
    ensures Diff(m, Wrap(m, x), Wrap(m, y)) == x - y
  {
    DifferenceExact(m, x, y);
  }

  // ---------------------------------------------------------------- steps

  lemma GotoImage(m: nat, w: Mem, i: nat, pc: CallPc)
    requires m > 0 && i < |w.calls|
    ensures Image(m, Goto(w, i, pc)) == Goto(Image(m, w), i, PcImage(m, pc))
  {
    assert CallsImage(m, Goto(w, i, pc).calls) == Goto(Image(m, w), i, PcImage(m, pc)).calls;
  }

  /** A call that is storing has its whole range in the current window. */
  lemma RangeInWindow(s: State, i: nat)
    requires RingOk(s) && i < |s.mem.calls| && s.mem.calls[i].pc.Storing?
    ensures s.mem.consumed < s.mem.calls[i].first < s.mem.calls[i].pc.next <= s.mem.calls[i].end <= s.mem.consumed + s.mem.n + 1
  {
    var c := s.mem.calls[i];
    assert CallOk(s, i);
    FrontNotStored(s, i);
    assert Claimed(s, c.end - 1) && TagOf(s, c.end - 1) == Given(i);
  }

  lemma StoringRefines(m: nat, s: State, i: nat)
    requires Inv(s) && RingFits(m, s.mem.n) && i < |s.mem.calls| && s.mem.calls[i].pc.Storing?
    ensures CallStep(m, Image(m, s.mem), i, false) == Image(m, CallStep(0, s.mem, i, false))
  {
    var w := s.mem;
    var c := w.calls[i];
    var k := c.pc.next;
    RangeInWindow(s, i);
    hide RingOk, OpOk, Watched, Wrap;
    WrapInjective(m, k, c.end);
    if k == c.end {
      SlotIndex(m, w.n, c.first);
      GotoImage(m, w, i, Loading);
      assert SlotsImage(m, w.slots[c.first % w.n := c.first]) == SlotsImage(m, w.slots)[c.first % w.n := Wrap(m, c.first)];
    } else {
      SlotIndex(m, w.n, k);
      WrapAdd(m, k, 1);
      GotoImage(m, w, i, Storing(k + 1));
      assert SlotsImage(m, w.slots[k % w.n := k]) == SlotsImage(m, w.slots)[k % w.n := Wrap(m, k)];
    }
  }

  lemma ScanningRefines(m: nat, s: State, i: nat)
    requires Inv(s) && Close(m, s.mem) && RingFits(m, s.mem.n) && i < |s.mem.calls| && s.mem.calls[i].pc.Scanning?
    ensures CallStep(m, Image(m, s.mem), i, false) == Image(m, CallStep(0, s.mem, i, false))
  {
    var w := s.mem;
    var k := w.calls[i].pc.last;
    assert HolderOk(s, w.calls[i].pc) && CloseCall(m, w, w.calls[i].pc);
    SlotTestOnWords(m, s, k);
    PositionBound(s, k);
    assert !w.consumer.Running?;
    DiffOnWords(m, w.target, k);
    hide RingOk, OpOk, Watched, Wrap, Position, Difference, Close;
    if InSlot(w, k + 1) {
      GotoImage(m, w, i, Scanning(k + 1));
    } else if w.target > k {
      GotoImage(m, w, i, Requeuing(k));
    } else {
      GotoImage(m, w, i, Waking(k));
    }
  }

  lemma RequeuingRefines(m: nat, s: State, i: nat)
    requires Inv(s) && Close(m, s.mem) && RingFits(m, s.mem.n) && i < |s.mem.calls| && s.mem.calls[i].pc.Requeuing?
    ensures CallStep(m, Image(m, s.mem), i, false) == Image(m, CallStep(0, s.mem, i, false))
  {
    var w := s.mem;
    var k := w.calls[i].pc.last;
    assert HolderOk(s, w.calls[i].pc) && CloseCall(m, w, w.calls[i].pc);
    DiffOnWords(m, w.target, k);
    hide RingOk, OpOk, Watched, Position, Difference, Close, Wrap;
    WrapAdd(m, k, 1);
    WrapAdd(m, k, w.target - k);
    GotoImage(m, w, i, Rechecking(k + 1, w.target));
  }

  lemma RecheckingRefines(m: nat, s: State, i: nat, guess: bool)
    requires Inv(s) && Close(m, s.mem) && RingFits(m, s.mem.n) && i < |s.mem.calls| && s.mem.calls[i].pc.Rechecking?
    requires Fits(m, s, Step(i, guess))
    ensures CallStep(m, Image(m, s.mem), i, false) == Image(m, CallStep(0, s.mem, i, guess))
  {
    var w := s.mem;
    var x, e := w.calls[i].pc.seqno, w.calls[i].pc.earliest;
    assert CloseCall(m, w, w.calls[i].pc);
    SlotIndex(m, w.n, x);
    WrapInjective(m, x, e);
    hide RingOk, OpOk, Watched, Close, Wrap;
    WrapAdd(m, x, 1);
    GotoImage(m, w, i, Finished);
    GotoImage(m, w, i, Taking);
    GotoImage(m, w, i, Rechecking(x + 1, e));
  }

  lemma OtherCallRefines(m: nat, s: State, i: nat)
    requires Inv(s) && m > 0 && i < |s.mem.calls|
    requires var pc := s.mem.calls[i].pc; pc.Loading? || pc.Taking? || pc.Waking?
    ensures CallStep(m, Image(m, s.mem), i, false) == Image(m, CallStep(0, s.mem, i, false))
  {
    var w := s.mem;
    hide RingOk, OpOk, Watched, Wrap;
    GotoImage(m, w, i, Taking);
    GotoImage(m, w, i, Finished);
    GotoImage(m, w, i, Scanning(w.known));
    if w.calls[i].pc.Waking? { GotoImage(m, Resume(w, w.calls[i].pc.last), i, Finished); }
  }

  lemma CallRefines(m: nat, s: State, i: nat, guess: bool)
    requires Inv(s) && Close(m, s.mem) && RingFits(m, s.mem.n) && Enabled(s, Step(i, guess)) && Fits(m, s, Step(i, guess))
    ensures CallStep(m, Image(m, s.mem), i, false) == Image(m, CallStep(0, s.mem, i, guess))
  {
    var pc := s.mem.calls[i].pc;
    hide Inv, Close, Image;
    if pc.Storing? { StoringRefines(m, s, i); }
    else if pc.Scanning? { ScanningRefines(m, s, i); }
    else if pc.Requeuing? { RequeuingRefines(m, s, i); }
    else if pc.Rechecking? { RecheckingRefines(m, s, i, guess); }
    else { OtherCallRefines(m, s, i); }
  }

  lemma ConsumerRefines(m: nat, s: State)
    requires Inv(s) && Close(m, s.mem) && RingFits(m, s.mem.n)
    ensures ConsumerStep(m, Image(m, s.mem)) == Image(m, ConsumerStep(0, s.mem))
  {
    var w := s.mem;
    if w.consumer.Checking? {
      var k := w.consumer.last;
      SlotTestOnWords(m, s, k);
      PositionBound(s, k);
      DiffOnWordsDown(m, k, w.target);
    }
    hide RingOk, OpOk, Watched, Wrap, Position, Difference;
  }

  /** A number below its target by less than half the range, or above it by at most the ring. */
  lemma DiffOnWordsDown(m: nat, k: int, target: int)
    requires m > 0 && target - k < m - m / 2 && k - target < m - m / 2
    ensures Before(m, Wrap(m, k), Wrap(m, target)) <==> k < target
  {
    PrecedesExact(m, k, target);
  }

  lemma OtherRefines(m: nat, s: State, a: Action)
    requires Inv(s) && Close(m, s.mem) && RingFits(m, s.mem.n) && Enabled(s, a) && Fits(m, s, a)
    requires a.Claiming? || a.TryGrant? || a.Publish? || a.Wait? || a.Consume?
    ensures Exec(m, Image(m, s.mem), ActionImage(m, a)) == Image(m, Exec(0, s.mem, a))
  {
    var w := s.mem;
    match a
    case Claiming(count) =>
      var k := if count < w.n then count else w.n;
      WrapAdd(m, w.next, k);
      assert ClaimsImage(m, w.claims + [Claim(w.next, w.next + k, false)])
        == ClaimsImage(m, w.claims) + [Claim(Wrap(m, w.next), Wrap(m, w.next + k), false)];
    case TryGrant(c) =>
      var l := w.claims[c];
      WrapAdd(m, l.end, -1 - w.n);
      DifferenceExact(m, w.consumed, l.end - 1 - w.n);
      hide RingOk, OpOk, Watched, Wrap;
      assert ClaimsImage(m, Exec(0, w, a).claims) == Exec(m, Image(m, w), a).claims;
    case Publish(first, end) =>
      GivenInWindow(s, first, end);
      WrapInjective(m, first, end);
      WrapAdd(m, first, 1);
      hide RingOk, OpOk, Watched, Wrap;
      assert CallsImage(m, Exec(0, w, a).calls) == Exec(m, Image(m, w), ActionImage(m, a)).calls;
    case Wait(target, from) => DifferenceExact(m, from, target);
    case Consume(_) =>
  }

  /** Granted numbers that nobody has published yet span less than a lap. */
  lemma GivenInWindow(s: State, first: int, end: int)
    requires RingOk(s) && Enabled(s, Publish(first, end))
    ensures 0 <= end - first <= s.mem.n
  {
    if first < end {
      assert Claimed(s, first) && TagOf(s, first).Free?;
      assert !Stored(s, first);
      assert Claimed(s, end - 1) && TagOf(s, end - 1).Free?;
    }
  }

  /** One step on words is the image of the step on numbers. */
  lemma StepRefines(m: nat, s: State, a: Action)
    requires Inv(s) && Close(m, s.mem) && RingFits(m, s.mem.n) && Enabled(s, a) && Fits(m, s, a)
    ensures CanExec(Image(m, s.mem), ActionImage(m, a))
    ensures Exec(m, Image(m, s.mem), ActionImage(m, a)) == Image(m, Apply(s, a).mem)
  {
    hide Inv, Close, Fits, CallStep, ConsumerStep;
    match a
    case Step(i, guess) => CallRefines(m, s, i, guess);
    case Consumer => ConsumerRefines(m, s);
    case Claiming(_) => OtherRefines(m, s, a);
    case TryGrant(_) => OtherRefines(m, s, a);
    case Publish(_, _) => OtherRefines(m, s, a);
    case Wait(_, _) => OtherRefines(m, s, a);
    case Consume(_) => OtherRefines(m, s, a);
  }

  ghost predicate FitsRun(m: nat, trace: seq<State>, acts: seq<Action>)
    requires m > 0 && Run(trace, acts)
  {
    forall k :: 0 <= k < |acts| ==> Fits(m, trace[k], acts[k])
  }

  lemma {:induction false} RunKeepsClose(m: nat, trace: seq<State>, acts: seq<Action>, k: nat)
    requires m > 0 && Run(trace, acts) && FitsRun(m, trace, acts) && k <= |acts|
    ensures Close(m, trace[k].mem) && trace[k].mem.n == trace[0].mem.n
  {
    if k > 0 {
      RunKeepsClose(m, trace, acts, k - 1);
      RunKeepsInv(trace, acts, k - 1);
      var s, a := trace[k - 1], acts[k - 1];
      assert Fits(m, s, a) && Enabled(s, a);
      hide Inv, Close, Fits, Enabled;
      CloseStep(m, s, a);
      SameRing(s, a);
    }
  }

  lemma SameRing(s: State, a: Action)
    requires Enabled(s, a)
    ensures Apply(s, a).mem.n == s.mem.n
  {
  }

  /** The images of any run on numbers form a run on words, while the callers' numbers stay close. */
  lemma WordsSimulateNumbers(m: nat, trace: seq<State>, acts: seq<Action>, k: nat)
    requires m > 0 && Run(trace, acts) && RingFits(m, trace[0].mem.n) && FitsRun(m, trace, acts) && k < |acts|
    ensures CanExec(Image(m, trace[k].mem), ActionImage(m, acts[k]))
    ensures Image(m, trace[k + 1].mem) == Exec(m, Image(m, trace[k].mem), ActionImage(m, acts[k]))
  {
    RunKeepsInv(trace, acts, k);
    RunKeepsClose(m, trace, acts, k);
    var s, a := trace[k], acts[k];
    assert Fits(m, s, a) && Enabled(s, a) && trace[k + 1] == Apply(s, a);
    hide Inv, Close, Fits, Enabled, Apply, Exec, Image;
    StepRefines(m, s, a);
  }

  // ---------------------------------------------------------------- every run on words is an image

  /** A thread is where it can take this step, whatever numbers its caller passes. */
  predicate WordCan(w: Mem, a: Action) {
    && CanExec(w, a)
    && match a
       case TryGrant(c) => !w.claims[c].granted
       case Step(i, _) => !w.calls[i].pc.Finished?
       case Consumer => !w.consumer.Running? && !w.consumer.Suspended?
       case Wait(_, _) => w.consumer.Running?
       case Consume(_) => w.consumer.Running?
       case Claiming(_) => true
       case Publish(_, _) => true
  }

  /** What callers promise about the numbers they pass, and that these are close. */
  ghost predicate CallerOk(m: nat, s: State, a: Action)
    requires m > 0
  {
    match a
    case Publish(first, end) => first <= end && forall x :: first <= x < end ==> Claimed(s, x) && TagOf(s, x).Free?
    case Wait(target, from) =>
      && s.mem.consumer.Running? && s.mem.consumed <= from <= s.mem.consumer.seen
      && InHalf(m, from - target) && InHalf(m, target - from)
    case Consume(v) => s.mem.consumer.Running? && s.mem.consumed <= v <= s.mem.consumer.seen
    case TryGrant(c) => c < |s.mem.claims| && InHalf(m, s.mem.consumed - (s.mem.claims[c].end - 1 - s.mem.n))
    case _ => true
  }

  /** The step on numbers that goes the way the words go. */
  function Decided(m: nat, s: State, a: Action): Action
    requires m > 0 && CanExec(s.mem, a)
  {
    if a.Step? then
      var pc := s.mem.calls[a.i].pc;
      Step(a.i, pc.Rechecking? && Wrap(m, s.mem.slots[pc.seqno % s.mem.n]) == Wrap(m, pc.seqno))
    else a
  }

  lemma StepLifts(m: nat, s: State, a: Action)
    requires m > 0 && WordCan(Image(m, s.mem), ActionImage(m, a)) && CallerOk(m, s, a)
    ensures CanExec(s.mem, a) && Enabled(s, Decided(m, s, a)) && Fits(m, s, Decided(m, s, a))
  {
    hide Wrap;
    match a
    case Step(i, _) => assert Image(m, s.mem).calls[i] == CallImage(m, s.mem.calls[i]);
    case TryGrant(c) => assert Image(m, s.mem).claims[c] == ClaimImage(m, s.mem.claims[c]);
    case _ =>
  }

  /** A run of the code on words.  `calls` gives the numbers that the callers mean; the words are all that the
      code sees of them. */
  ghost predicate WordRun(m: nat, words: seq<Mem>, calls: seq<Action>)
    requires m > 0
  {
    && |words| == |calls| + 1
    && forall k :: 0 <= k < |calls| ==>
         && WordCan(words[k], ActionImage(m, calls[k]))
         && words[k + 1] == Exec(m, words[k], ActionImage(m, calls[k]))
  }

  predicate SameCall(a: Action, b: Action) { a == b || (a.Step? && b.Step? && a.i == b.i) }

  /** The run on numbers has led to the words so far. */
  ghost predicate LedTo(m: nat, s: State, words: seq<Mem>, calls: seq<Action>, trace: seq<State>, acts: seq<Action>)
    requires m > 0 && WordRun(m, words, calls)
  {
    && Run(trace, acts) && FitsRun(m, trace, acts) && trace[0] == s && |acts| <= |calls|
    && (forall k :: 0 <= k <= |acts| ==> words[k] == Image(m, trace[k].mem))
    && (forall k :: 0 <= k < |acts| ==> SameCall(acts[k], calls[k]))
  }

  /** Wherever a run on numbers has led to the words, the next call is what callers promise. */
  ghost predicate CallersClose(m: nat, s: State, words: seq<Mem>, calls: seq<Action>)
    requires m > 0 && WordRun(m, words, calls)
  {
    forall trace: seq<State>, acts: seq<Action> ::
      LedTo(m, s, words, calls, trace, acts) && |acts| < |calls| ==> CallerOk(m, trace[|acts|], calls[|acts|])
  }

  lemma LeadsOn(m: nat, s: State, words: seq<Mem>, calls: seq<Action>, trace: seq<State>, acts: seq<Action>)
    returns (trace': seq<State>, acts': seq<Action>)
    requires m > 0 && WordRun(m, words, calls) && LedTo(m, s, words, calls, trace, acts) && |acts| < |calls|
    requires RingFits(m, s.mem.n) && CallerOk(m, trace[|acts|], calls[|acts|])
    ensures |acts'| == |acts| + 1 && LedTo(m, s, words, calls, trace', acts')
  {
    var k := |acts|;
    var t, call := trace[k], calls[k];
    RunKeepsInv(trace, acts, k);
    RunKeepsClose(m, trace, acts, k);
    hide Inv, Close, Enabled, Apply, Exec, Image, CallerOk, WordCan, ActionImage, Fits, Init;
    assert words[k] == Image(m, t.mem) && WordCan(words[k], ActionImage(m, call));
    StepLifts(m, t, call);
    var a := Decided(m, t, call);
    assert ActionImage(m, a) == ActionImage(m, call) by { SameImage(m, t, call); }
    hide Decided;
    StepRefines(m, t, a);
    trace', acts' := trace + [Apply(t, a)], acts + [a];
    RunExtends(m, trace, acts, a);
  }

  lemma SameImage(m: nat, s: State, a: Action)
    requires m > 0 && CanExec(s.mem, a)
    ensures ActionImage(m, Decided(m, s, a)) == ActionImage(m, a) && SameCall(Decided(m, s, a), a)
  {
  }

  lemma RunExtends(m: nat, trace: seq<State>, acts: seq<Action>, a: Action)
    requires m > 0 && Run(trace, acts) && FitsRun(m, trace, acts)
    requires Enabled(trace[|acts|], a) && Fits(m, trace[|acts|], a)
    ensures Run(trace + [Apply(trace[|acts|], a)], acts + [a])
    ensures FitsRun(m, trace + [Apply(trace[|acts|], a)], acts + [a])
  {
    hide Enabled, Apply, Fits, Init;
  }

  lemma {:induction false} WordRunLifts(m: nat, s: State, words: seq<Mem>, calls: seq<Action>, k: nat)
    returns (trace: seq<State>, acts: seq<Action>)
    requires m > 0 && Init(s) && RingFits(m, s.mem.n) && WordRun(m, words, calls) && k <= |calls|
    requires words[0] == Image(m, s.mem) && CallersClose(m, s, words, calls)
    ensures LedTo(m, s, words, calls, trace, acts) && |acts| == k
  {
    if k == 0 {
      trace, acts := [s], [];
    } else {
      trace, acts := WordRunLifts(m, s, words, calls, k - 1);
      hide LedTo, WordRun, Init;
      trace, acts := LeadsOn(m, s, words, calls, trace, acts);
    }
  }

  /** Every run of the code on words is the image of a run on numbers, and so has all the properties of such
      runs, while the callers' numbers are what they promise and stay close. */
  lemma WordRunsAreImages(m: nat, s: State, words: seq<Mem>, calls: seq<Action>)
    requires m > 0 && Init(s) && RingFits(m, s.mem.n) && WordRun(m, words, calls)
    requires words[0] == Image(m, s.mem) && CallersClose(m, s, words, calls)
    ensures exists trace: seq<State>, acts: seq<Action> ::
      LedTo(m, s, words, calls, trace, acts) && |acts| == |calls|
  {
    var trace, acts := WordRunLifts(m, s, words, calls, |calls|);
  }
}
