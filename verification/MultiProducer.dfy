/** multi_producer_sequencer (include/cppcoro/multi_producer_sequencer.hpp) with any number of producers and
    one consumer, as a step machine with one step per atomic access.

    `Mem` holds the fields and local variables of the code and `Exec` is what the code does to them.  The
    parameter m says how sequence numbers are kept: 0 for unbounded numbers, otherwise in an unsigned word
    with m values, compared as include/cppcoro/sequence_traits.hpp does.  `State` adds history. */
module MultiProducer {
  import opened Words

  /** One co_await of claim_one or claim_up_to. */
  datatype Claim = Claim(first: int, end: int, granted: bool)

  /** Where a call of publish is. */
  datatype CallPc =
    | Storing(next: int)                       // about to store `next`, or the front when next is the end
    | Loading                                  // resume_ready_awaiters: about to look at the list
    | Taking                                   // about to take the list
    | Scanning(last: int)                      // last_published_after: about to test slot last + 1
    | Requeuing(last: int)                     // the awaiter is not ready: about to push it back
    | Rechecking(seqno: int, earliest: int)    // pushed back: about to test slot seqno again
    | Waking(last: int)                        // about to resume the awaiter
    | Finished

  datatype Call = Call(first: int, end: int, pc: CallPc)

  datatype Consumer =
    | Running(seen: int)     // not waiting; `seen` is what the last co_await returned
    | Pushing                // add_awaiter: about to push itself
    | Checking(last: int)    // about to test slot last + 1
    | Grabbing(last: int)    // ready after all: about to take the list
    | Resuming(last: int)    // about to resume the awaiter it took
    | Handshake              // await_suspend: about to exchange m_readyToResume
    | Suspended

  /** With one consumer the list of awaiters is empty or holds the consumer's wait operation, whose fields
      are target, known (m_lastKnownPublished) and ready. */
  datatype Mem = Mem(
    n: nat, slots: seq<int>, next: int, consumed: int, claims: seq<Claim>, calls: seq<Call>,
    queued: bool, target: int, known: int, ready: bool, consumer: Consumer)

  datatype Action =
    | Claiming(count: nat)           // operator co_await of a claim
    | TryGrant(c: nat)               // its barrier wait compares
    | Publish(first: int, end: int)  // publish is called
    | Step(i: nat, guess: bool)      // publish goes on; guess: a recheck takes a stale slot for a match
    | Wait(target: int, from: int)   // the consumer awaits wait_until_published(target, from)
    | Consumer
    | Consume(v: int)                // the consumer publishes v to its barrier

  // ---------------------------------------------------------------- numbers

  function Num(m: nat, x: int): int { if m == 0 then x else Wrap(m, x) }

  function Diff(m: nat, x: int, y: int): int { if m == 0 then x - y else Difference(m, x, y) }

  predicate Before(m: nat, x: int, y: int) { Diff(m, x, y) < 0 }

  /** m_published[x & mask] == x */
  predicate InSlot(w: Mem, x: int)
    requires 0 < w.n == |w.slots|
  {
    w.slots[x % w.n] == x
  }

  // ---------------------------------------------------------------- what the code does

  predicate CanExec(w: Mem, a: Action) {
    0 < w.n == |w.slots| &&
    match a
    case TryGrant(c) => c < |w.claims|
    case Step(i, _) => i < |w.calls|
    case _ => true
  }

  function Exec(m: nat, w: Mem, a: Action): Mem
    requires CanExec(w, a)
  {
    match a
    case Claiming(count) =>
      var k := if count < w.n then count else w.n;
      w.(next := Num(m, w.next + k), claims := w.claims + [Claim(w.next, Num(m, w.next + k), false)])
    case TryGrant(c) =>
      var l := w.claims[c];
      w.(claims := w.claims[c := l.(granted := l.granted || !Before(m, w.consumed, Num(m, l.end - 1 - w.n)))])
    case Publish(first, end) =>
      w.(calls := w.calls + [Call(first, end, if first == end then Finished else Storing(Num(m, first + 1)))])
    case Step(i, guess) => CallStep(m, w, i, guess)
    case Wait(target, from) =>
      if Before(m, from, target) then w.(target := target, known := from, ready := false, consumer := Pushing)
      else w.(consumer := Running(from))
    case Consumer => ConsumerStep(m, w)
    case Consume(v) => w.(consumed := v)
  }

  function Goto(w: Mem, i: nat, pc: CallPc): Mem
    requires i < |w.calls|
  {
    w.(calls := w.calls[i := w.calls[i].(pc := pc)])
  }

  function CallStep(m: nat, w: Mem, i: nat, guess: bool): Mem
    requires 0 < w.n == |w.slots| && i < |w.calls|
  {
    var c := w.calls[i];
    match c.pc
    case Storing(k) =>
      if k == c.end then Goto(w, i, Loading).(slots := w.slots[c.first % w.n := c.first])
      else Goto(w, i, Storing(Num(m, k + 1))).(slots := w.slots[k % w.n := k])
    case Loading => Goto(w, i, if w.queued then Taking else Finished)
    case Taking => if w.queued then Goto(w, i, Scanning(w.known)).(queued := false) else Goto(w, i, Finished)
    case Scanning(k) =>
      var x := Num(m, k + 1);
      if InSlot(w, x) then Goto(w, i, Scanning(x))
      else Goto(w, i, if Diff(m, w.target, k) > 0 then Requeuing(k) else Waking(k)).(known := k)
    case Requeuing(k) =>
      Goto(w, i, Rechecking(Num(m, k + 1), Num(m, k + Diff(m, w.target, k)))).(queued := true)
    case Rechecking(x, e) =>
      if !(InSlot(w, x) || guess) then Goto(w, i, Finished)
      else if x == e then Goto(w, i, Taking)
      else Goto(w, i, Rechecking(Num(m, x + 1), e))
    case Waking(k) => Goto(Resume(w, k), i, Finished)
    case Finished => w
  }

  /** resume(k): whoever comes second to the flag continues the consumer. */
  function Resume(w: Mem, k: int): Mem {
    if w.ready then w.(known := k, consumer := Running(k)) else w.(known := k, ready := true)
  }

  function ConsumerStep(m: nat, w: Mem): Mem
    requires 0 < w.n == |w.slots|
  {
    match w.consumer
    case Pushing => w.(queued := true, consumer := Checking(w.known))
    case Checking(k) =>
      var x := Num(m, k + 1);
      w.(consumer := if InSlot(w, x) then Checking(x) else if Before(m, k, w.target) then Handshake else Grabbing(k))
    case Grabbing(k) => w.(queued := false, consumer := if w.queued then Resuming(k) else Handshake)
    case Resuming(k) => Resume(w.(consumer := Handshake), k)
    case Handshake => if w.ready then w.(consumer := Running(w.known)) else w.(ready := true, consumer := Suspended)
    case Running(_) => w
    case Suspended => w
  }

  // ---------------------------------------------------------------- history

  /** What has become of a claimed number. */
  datatype Tag = Waiting | Free | Given(i: nat)  // not granted; granted; handed to the i-th call of publish

  datatype Loc = Nowhere | Queued | Held(i: nat) | Own | Released

  /** Numbers up to `init` count as published from the start; `tags` is about init + 1, init + 2, ... */
  datatype State = State(mem: Mem, init: int, tags: seq<Tag>, loc: Loc, waits: nat, resumes: nat)

  predicate Claimed(s: State, x: int) { s.init < x <= s.init + |s.tags| }

  function TagOf(s: State, x: int): Tag
    requires Claimed(s, x)
  {
    s.tags[x - s.init - 1]
  }

  ghost predicate Enabled(s: State, a: Action) {
    CanExec(s.mem, a) &&
    match a
    case Claiming(_) => true
    case TryGrant(c) => !s.mem.claims[c].granted
    case Publish(first, end) => first <= end && forall x :: first <= x < end ==> Claimed(s, x) && TagOf(s, x).Free?
    case Step(i, guess) => !s.mem.calls[i].pc.Finished?
    case Wait(_, from) => s.mem.consumer.Running? && s.mem.consumed <= from <= s.mem.consumer.seen
    case Consumer => !s.mem.consumer.Running? && !s.mem.consumer.Suspended?
    case Consume(v) => s.mem.consumer.Running? && s.mem.consumed <= v <= s.mem.consumer.seen
  }

  /** Numbers in [first, end) that carry tag `was` now carry tag `now`. */
  function Retag(s: State, first: int, end: int, was: Tag, now: Tag): (r: seq<Tag>)
    ensures |r| == |s.tags|
    ensures forall x :: Claimed(s, x) ==>
      r[x - s.init - 1] == if first <= x < end && TagOf(s, x) == was then now else TagOf(s, x)
  {
    seq(|s.tags|, j requires 0 <= j < |s.tags| =>
      if first <= s.init + 1 + j < end && s.tags[j] == was then now else s.tags[j])
  }

  function NewTags(s: State, a: Action): seq<Tag>
    requires CanExec(s.mem, a)
  {
    match a
    case Claiming(count) => s.tags + seq(if count < s.mem.n then count else s.mem.n, _ => Waiting)
    case TryGrant(c) =>
      var l := s.mem.claims[c];
      if !Before(0, s.mem.consumed, l.end - 1 - s.mem.n) then Retag(s, l.first, l.end, Waiting, Free) else s.tags
    case Publish(first, end) => Retag(s, first, end, Free, Given(|s.mem.calls|))
    case _ => s.tags
  }

  function NewLoc(s: State, a: Action): Loc
    requires CanExec(s.mem, a)
  {
    var w := s.mem;
    match a
    case Step(i, _) =>
      if w.calls[i].pc.Taking? && w.queued then Held(i)
      else if w.calls[i].pc.Requeuing? then Queued
      else if w.calls[i].pc.Waking? then (if w.ready then Nowhere else Released)
      else s.loc
    case Consumer =>
      if w.consumer.Pushing? then Queued
      else if w.consumer.Grabbing? && w.queued then Own
      else if w.consumer.Resuming? then (if w.ready then Nowhere else Released)
      else if w.consumer.Handshake? && w.ready then Nowhere
      else s.loc
    case _ => s.loc
  }

  ghost function Apply(s: State, a: Action): State
    requires Enabled(s, a)
  {
    var w := Exec(0, s.mem, a);
    State(w, s.init, NewTags(s, a), NewLoc(s, a),
          if a.Wait? then s.waits + 1 else s.waits,
          if w.consumer.Running? && (a.Wait? || !s.mem.consumer.Running?) then s.resumes + 1 else s.resumes)
  }

  /** The constructor puts into each slot the number that the slot held one lap before the first claim. */
  ghost predicate Init(s: State) {
    var w := s.mem;
    && 0 < w.n == |w.slots| && w.next == s.init + 1 && w.consumed == s.init
    && (forall x :: s.init - w.n < x <= s.init ==> w.slots[x % w.n] == x)
    && w.claims == [] && w.calls == [] && s.tags == [] && !w.queued && w.consumer == Running(s.init)
    && s.loc.Nowhere? && s.waits == s.resumes == 0
  }

  // ---------------------------------------------------------------- what is published

  predicate CallStored(c: Call, x: int) { c.pc.Storing? ==> c.first < x < c.pc.next }

  /** Number x has been stored into its slot. */
  predicate Stored(s: State, x: int) {
    x <= s.init ||
    (Claimed(s, x) && TagOf(s, x).Given? && TagOf(s, x).i < |s.mem.calls| && CallStored(s.mem.calls[TagOf(s, x).i], x))
  }

  /** Every number up to and including k has been published. */
  ghost predicate PublishedTo(s: State, k: int) { forall x :: x <= k ==> Stored(s, x) }

  // ---------------------------------------------------------------- claims and slots

  ghost predicate ClaimsOk(s: State) {
    var w := s.mem;
    && 0 < w.n == |w.slots| && s.init <= w.consumed && |s.tags| == w.next - s.init - 1
    && (forall c :: 0 <= c < |w.claims| ==>
         s.init < w.claims[c].first <= w.claims[c].end <= w.next
         && (w.claims[c].granted ==> w.claims[c].end - 1 <= w.consumed + w.n))
    && (forall c, d :: 0 <= c < d < |w.claims| ==> w.claims[c].end <= w.claims[d].first)
  }

  ghost predicate TagsOk(s: State) {
    var w := s.mem;
    && (forall x :: Claimed(s, x) && !TagOf(s, x).Waiting? ==> x <= w.consumed + w.n)
    && (forall x :: Claimed(s, x) && TagOf(s, x).Given? ==>
         TagOf(s, x).i < |w.calls| && w.calls[TagOf(s, x).i].first <= x < w.calls[TagOf(s, x).i].end)
    && (forall i :: 0 <= i < |w.calls| ==> CallOk(s, i))
  }

  ghost predicate CallOk(s: State, i: nat)
    requires i < |s.mem.calls|
  {
    var c := s.mem.calls[i];
    && c.first <= c.end
    && (c.pc.Storing? ==> c.first < c.pc.next <= c.end)
    && (forall x :: c.first <= x < c.end ==> Claimed(s, x) && TagOf(s, x) == Given(i))
  }

  ghost predicate SlotsOk(s: State) {
    var w := s.mem;
    && 0 < w.n == |w.slots|
    && PublishedTo(s, w.consumed)
    && (forall x :: w.consumed < x <= w.consumed + w.n ==> w.slots[x % w.n] == if Stored(s, x) then x else x - w.n)
  }

  ghost predicate RingOk(s: State) { ClaimsOk(s) && TagsOk(s) && SlotsOk(s) }

  /** From any number that is not yet consumed, testing a slot tells whether the number is stored. */
  lemma SlotTestExact(s: State, x: int)
    requires RingOk(s) && x > s.mem.consumed
    ensures InSlot(s.mem, x) <==> Stored(s, x)
  {
    var w := s.mem;
    if x > w.consumed + w.n {
      assert !Stored(s, x);
      // the slot holds a number of the current window
      var k := (x - w.consumed - 1) / w.n;
      var y := x - w.n * k;
      assert w.consumed < y <= w.consumed + w.n by {
        assert x - w.consumed - 1 == w.n * k + (x - w.consumed - 1) % w.n;
      }
      assert y % w.n == x % w.n by { ModAddSame(y, w.n, k); }
    }
  }

  /** What the call of publish is about to store, if it is storing. */
  predicate Stores(s: State, a: Action, x: int) {
    a.Step? && a.i < |s.mem.calls| && s.mem.calls[a.i].pc.Storing? &&
    x == if s.mem.calls[a.i].pc.next == s.mem.calls[a.i].end then s.mem.calls[a.i].first else s.mem.calls[a.i].pc.next
  }

  /** A step of publish changes nothing else about the calls. */
  lemma OnePc(s: State, i: nat, guess: bool)
    requires Enabled(s, Step(i, guess))
    ensures var c, d := s.mem.calls, Exec(0, s.mem, Step(i, guess)).calls;
      && |d| == |c| && d[i].first == c[i].first && d[i].end == c[i].end
      && (forall j :: 0 <= j < |c| && j != i ==> d[j] == c[j])
      && (!c[i].pc.Storing? ==> !d[i].pc.Storing?)
      && (c[i].pc.Storing? ==> d[i].pc == if c[i].pc.next == c[i].end then Loading else Storing(c[i].pc.next + 1))
  {
  }

  lemma StoredByStep(s: State, i: nat, guess: bool, x: int)
    requires RingOk(s) && Enabled(s, Step(i, guess))
    ensures Stored(Apply(s, Step(i, guess)), x) <==> Stored(s, x) || Stores(s, Step(i, guess), x)
  {
    OnePc(s, i, guess);
    assert CallOk(s, i);
    hide CallStep;
    if Claimed(s, x) && TagOf(s, x).Given? { assert CallOk(s, TagOf(s, x).i); }
  }

  lemma StoredKept(s: State, a: Action, x: int)
    requires RingOk(s) && Enabled(s, a) && !a.Step?
    ensures Stored(Apply(s, a), x) <==> Stored(s, x)
  {
    hide SlotsOk, ClaimsOk;
    if Claimed(s, x) && TagOf(s, x).Given? { assert CallOk(s, TagOf(s, x).i); }
    assert !a.Publish? ==> Exec(0, s.mem, a).calls == s.mem.calls;
  }

  lemma StoredChanges(s: State, a: Action, x: int)
    requires RingOk(s) && Enabled(s, a)
    ensures Stored(Apply(s, a), x) <==> Stored(s, x) || Stores(s, a, x)
  {
    hide RingOk, Apply;
    if a.Step? { StoredByStep(s, a.i, a.guess, x); } else { StoredKept(s, a, x); }
  }

  // ---------------------------------------------------------------- every step keeps RingOk

  lemma ClaimsKept(s: State, a: Action)
    requires ClaimsOk(s) && Enabled(s, a) && (a.Step? || a.Consumer?)
    ensures var v := Exec(0, s.mem, a);
      v.claims == s.mem.claims && v.n == s.mem.n && |v.slots| == |s.mem.slots| && v.consumed == s.mem.consumed && v.next == s.mem.next
  {
  }

  lemma ClaimsStep(s: State, a: Action)
    requires ClaimsOk(s) && Enabled(s, a)
    ensures ClaimsOk(Apply(s, a))
  {
    if a.Step? || a.Consumer? {
      ClaimsKept(s, a);
      hide CallStep, ConsumerStep;
      assert ClaimsOk(Apply(s, a));
    }
  }

  lemma CallOkKept(s: State, t: State, i: nat)
    requires i < |s.mem.calls| && CallOk(s, i) && i < |t.mem.calls|
    requires t.mem.calls[i].first == s.mem.calls[i].first && t.mem.calls[i].end == s.mem.calls[i].end
    requires t.mem.calls[i].pc.Storing? ==> t.mem.calls[i].first < t.mem.calls[i].pc.next <= t.mem.calls[i].end
    requires s.init == t.init && |s.tags| <= |t.tags|
    requires forall x :: Claimed(s, x) && TagOf(s, x) == Given(i) ==> TagOf(t, x) == Given(i)
    ensures CallOk(t, i)
  {
    var c := t.mem.calls[i];
    forall x | c.first <= x < c.end ensures Claimed(t, x) && TagOf(t, x) == Given(i) { assert Claimed(s, x); }
  }

  lemma TagsOfStep(s: State, i: nat, guess: bool)
    requires ClaimsOk(s) && TagsOk(s) && Enabled(s, Step(i, guess))
    ensures TagsOk(Apply(s, Step(i, guess)))
  {
    var t := Apply(s, Step(i, guess));
    OnePc(s, i, guess);
    assert t.mem.consumed == s.mem.consumed && t.mem.n == s.mem.n;
    hide CallStep, ClaimsOk;
    assert forall x :: Claimed(t, x) ==> Claimed(s, x);
    forall j | 0 <= j < |t.mem.calls| ensures CallOk(t, j) { assert CallOk(s, j); CallOkKept(s, t, j); }
  }

  lemma TagsOfPublish(s: State, first: int, end: int)
    requires ClaimsOk(s) && TagsOk(s) && Enabled(s, Publish(first, end))
    ensures TagsOk(Apply(s, Publish(first, end)))
  {
    var t, n := Apply(s, Publish(first, end)), |s.mem.calls|;
    hide ClaimsOk;
    forall j | 0 <= j < |t.mem.calls| ensures CallOk(t, j) {
      if j < n {
        assert CallOk(s, j);
        CallOkKept(s, t, j);
      } else {
        forall x | first <= x < end ensures Claimed(t, x) && TagOf(t, x) == Given(j) {
          assert Claimed(s, x) && TagOf(s, x).Free?;
        }
      }
    }
    forall x | Claimed(t, x) && TagOf(t, x).Given?
      ensures TagOf(t, x).i < |t.mem.calls| && t.mem.calls[TagOf(t, x).i].first <= x < t.mem.calls[TagOf(t, x).i].end
    {
      assert Claimed(s, x);
    }
    forall x | Claimed(t, x) && !TagOf(t, x).Waiting? ensures x <= t.mem.consumed + t.mem.n { assert Claimed(s, x); }
  }

  lemma TagsOfClaims(s: State, a: Action)
    requires ClaimsOk(s) && TagsOk(s) && Enabled(s, a) && (a.Claiming? || a.TryGrant?)
    ensures TagsOk(Apply(s, a))
  {
    var t := Apply(s, a);
    assert t.mem.calls == s.mem.calls;
    forall j | 0 <= j < |t.mem.calls| ensures CallOk(t, j) { assert CallOk(s, j); CallOkKept(s, t, j); }
    forall x | Claimed(t, x) && TagOf(t, x).Given?
      ensures TagOf(t, x).i < |t.mem.calls| && t.mem.calls[TagOf(t, x).i].first <= x < t.mem.calls[TagOf(t, x).i].end
    {
      assert Claimed(s, x);
    }
    forall x | Claimed(t, x) && !TagOf(t, x).Waiting? ensures x <= t.mem.consumed + t.mem.n {
      assert Claimed(s, x);
      if TagOf(s, x).Waiting? {
        assert a.TryGrant? && s.mem.claims[a.c].first <= x < s.mem.claims[a.c].end;
      }
    }
  }

  lemma TagsOfConsumer(s: State, a: Action)
    requires ClaimsOk(s) && TagsOk(s) && Enabled(s, a) && (a.Wait? || a.Consumer? || a.Consume?)
    ensures TagsOk(Apply(s, a))
  {
    var t := Apply(s, a);
    assert t.mem.calls == s.mem.calls && t.mem.consumed >= s.mem.consumed && t.mem.n == s.mem.n;
    hide ConsumerStep, ClaimsOk;
    assert forall x :: Claimed(t, x) ==> Claimed(s, x);
    forall j | 0 <= j < |t.mem.calls| ensures CallOk(t, j) { assert CallOk(s, j); CallOkKept(s, t, j); }
  }

  lemma TagsStep(s: State, a: Action)
    requires ClaimsOk(s) && TagsOk(s) && Enabled(s, a)
    ensures TagsOk(Apply(s, a))
  {
    hide ClaimsOk, TagsOk, Apply;
    match a
    case Step(i, guess) => TagsOfStep(s, i, guess);
    case Publish(first, end) => TagsOfPublish(s, first, end);
    case Claiming(_) => TagsOfClaims(s, a);
    case TryGrant(_) => TagsOfClaims(s, a);
    case Wait(_, _) => TagsOfConsumer(s, a);
    case Consumer => TagsOfConsumer(s, a);
    case Consume(_) => TagsOfConsumer(s, a);
  }

  /** What is published stays published. */
  lemma PublishedKept(s: State, a: Action, k: int)
    requires RingOk(s) && Enabled(s, a) && PublishedTo(s, k)
    ensures PublishedTo(Apply(s, a), k)
  {
    hide RingOk, Enabled, Apply, Stored;
    forall x | x <= k ensures Stored(Apply(s, a), x) { StoredChanges(s, a, x); }
  }

  /** A number about to be stored is in the current window and is not stored yet. */
  lemma StoresFresh(s: State, a: Action, x: int)
    requires RingOk(s) && Enabled(s, a) && Stores(s, a, x)
    ensures s.mem.consumed < x <= s.mem.consumed + s.mem.n && !Stored(s, x)
  {
    assert CallOk(s, a.i);
    assert Claimed(s, x) && TagOf(s, x) == Given(a.i);
    assert !CallStored(s.mem.calls[a.i], x);
    assert !Stored(s, x);
  }

  lemma SlotWritten(s: State, i: nat, guess: bool)
    requires 0 < s.mem.n == |s.mem.slots| && Enabled(s, Step(i, guess))
    ensures var w, v := s.mem, Apply(s, Step(i, guess)).mem;
      && v.n == w.n && |v.slots| == |w.slots| && v.consumed == w.consumed
      && (w.calls[i].pc.Storing? ==>
           var x := if w.calls[i].pc.next == w.calls[i].end then w.calls[i].first else w.calls[i].pc.next;
           v.slots == w.slots[x % w.n := x])
      && (!w.calls[i].pc.Storing? ==> v.slots == w.slots)
  {
  }

  lemma SlotsOfStep(s: State, i: nat, guess: bool)
    requires RingOk(s) && Enabled(s, Step(i, guess))
    ensures SlotsOk(Apply(s, Step(i, guess)))
  {
    var a := Step(i, guess);
    var t := Apply(s, a);
    SlotWritten(s, i, guess);
    PublishedKept(s, a, s.mem.consumed);
    var c := s.mem.calls[i];
    if c.pc.Storing? {
      var y := if c.pc.next == c.end then c.first else c.pc.next;
      assert Stores(s, a, y);
      StoresFresh(s, a, y);
      hide Enabled, Apply, Stored, CallStep, TagsOk, ClaimsOk, PublishedTo;
      forall x | t.mem.consumed < x <= t.mem.consumed + t.mem.n
        ensures t.mem.slots[x % t.mem.n] == if Stored(t, x) then x else x - t.mem.n
      {
        StoredChanges(s, a, x);
        if x < y { SlotsDistinct(y, x, t.mem.n); }
        if x > y { SlotsDistinct(x, y, t.mem.n); }
      }
    } else {
      hide Enabled, Apply, Stored, CallStep, TagsOk, ClaimsOk, PublishedTo;
      forall x | t.mem.consumed < x <= t.mem.consumed + t.mem.n
        ensures t.mem.slots[x % t.mem.n] == if Stored(t, x) then x else x - t.mem.n
      {
        StoredChanges(s, a, x);
      }
    }
  }

  lemma SlotsOfOther(s: State, a: Action)
    requires RingOk(s) && Enabled(s, a) && !a.Step? && !a.Consume?
    ensures SlotsOk(Apply(s, a))
  {
    var t := Apply(s, a);
    assert t.mem.n == s.mem.n && t.mem.slots == s.mem.slots && t.mem.consumed == s.mem.consumed;
    PublishedKept(s, a, s.mem.consumed);
    hide Enabled, Apply, Stored, TagsOk, ClaimsOk, PublishedTo;
    forall x | t.mem.consumed < x <= t.mem.consumed + t.mem.n
      ensures t.mem.slots[x % t.mem.n] == if Stored(t, x) then x else x - t.mem.n
    {
      StoredChanges(s, a, x);
    }
  }

  /** When the consumer moves on, the window gains numbers that nobody was granted before. */
  lemma SlotsOfConsume(s: State, v: int)
    requires RingOk(s) && Enabled(s, Consume(v)) && PublishedTo(s, v)
    ensures SlotsOk(Apply(s, Consume(v)))
  {
    var t := Apply(s, Consume(v));
    PublishedKept(s, Consume(v), v);
    forall x | t.mem.consumed < x <= t.mem.consumed + t.mem.n
      ensures t.mem.slots[x % t.mem.n] == if Stored(t, x) then x else x - t.mem.n
    {
      StoredChanges(s, Consume(v), x);
      if x > s.mem.consumed + s.mem.n {
        assert !Stored(s, x);
        assert Stored(s, x - s.mem.n);
        ModAddSame(x, s.mem.n, -1);
        if x - s.mem.n > s.mem.consumed + s.mem.n { assert false; }
      }
    }
  }

  lemma RingStep(s: State, a: Action)
    requires RingOk(s) && Enabled(s, a)
    requires s.mem.consumer.Running? ==> PublishedTo(s, s.mem.consumer.seen)
    ensures RingOk(Apply(s, a))
  {
    ClaimsStep(s, a);
    TagsStep(s, a);
    hide ClaimsOk, TagsOk, SlotsOk, Apply;
    if a.Step? { SlotsOfStep(s, a.i, a.guess); }
    else if a.Consume? {
      assert PublishedTo(s, a.v);
      SlotsOfConsume(s, a.v);
    } else { SlotsOfOther(s, a); }
  }
}
