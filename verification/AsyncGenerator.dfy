/** async_generator without symmetric transfer (include/cppcoro/async_generator.hpp:427-1009): a producer and a
    consumer coroutine that meet in one atomic state.  One step per atomic access or resumption.

    A call of resume() starts the other coroutine and may return as soon as that one suspends, wherever it
    does; the other may by then have moved to another thread.  So after a resume both sides go on freely. */
module AsyncGenerator {
  import opened Tally

  datatype Tag = NotReadyActive | NotReadySuspended | ReadyActive | ReadySuspended | Cancelled

  datatype Item = Value(v: nat) | End

  /** The producer.  `late` tells the two places apart where it resumes the consumer: internal_yield_value, and
      await_suspend of the yield operation. */
  datatype Producer =
    | PSuspended               // before the first resume, or at a yield
    | PBody                    // running the generator's body
    | PLoad                    // m_currentValue is set: about to load m_state
    | PStore(late: bool)       // the consumer is suspended: about to store value_ready_producer_active
    | PResume(late: bool)      // about to resume the consumer
    | PReload(late: bool)      // about to load m_state again
    | PAwait(initial: Tag)     // await_suspend, which was given this state
    | PRace                    // about to go from value_ready_producer_active to suspended
    | PDestroyed

  /** The consumer.  `late` tells the two places apart where it resumes the producer: the constructor of the
      advance operation, and its await_suspend. */
  datatype Consumer =
    | CActive                  // not inside an advance operation
    | CLoad                    // begin() or ++: about to load m_state
    | CStore(late: bool)       // the producer is suspended: about to store value_not_ready_consumer_active
    | CResume(late: bool)      // about to resume the producer
    | CReload(late: bool)      // about to load m_state again
    | CBuilt(initial: Tag)     // the operation is there, not yet awaited
    | CRace                    // about to go from value_ready_producer_active to suspended
    | CPark                    // about to go from value_not_ready_consumer_active to suspended
    | CSuspended
    | CDestroy                 // ~async_generator: about to destroy the producer's frame
    | CGone

  /** `yielded`, `delivered` and `destroyed` are history: the items put into m_currentValue, the items that were
      current when an await of the consumer ended, and how often the producer's frame was destroyed. */
  datatype State = State(
    tag: Tag, current: Item, producer: Producer, consumer: Consumer,
    yielded: seq<Item>, delivered: seq<Item>, destroyed: nat)

  datatype Action =
    | Yield(item: Item)   // co_yield, or the end of the body
    | ProducerStep
    | Advance             // begin() or ++ is called
    | Await               // the operation is awaited
    | ConsumerStep
    | Drop                // the async_generator object is destroyed

  /** Nobody advances past the end, and the generator is not destroyed while the consumer is suspended in it. */
  predicate Enabled(s: State, a: Action) {
    match a
    case Yield(_) => s.producer.PBody?
    case ProducerStep => !s.producer.PSuspended? && !s.producer.PBody? && !s.producer.PDestroyed?
    case Advance => s.consumer.CActive? && (s.delivered == [] || !s.delivered[|s.delivered| - 1].End?)
    case Await => s.consumer.CBuilt?
    case ConsumerStep =>
      s.consumer.CLoad? || s.consumer.CStore? || s.consumer.CResume? || s.consumer.CReload?
      || s.consumer.CRace? || s.consumer.CPark? || s.consumer.CDestroy?
    case Drop => s.consumer.CActive? || s.consumer.CBuilt?
  }

  /** The consumer's await ends: it sees the current item. */
  function Deliver(s: State): State {
    s.(consumer := CActive, delivered := s.delivered + [s.current])
  }

  function DestroyFrame(s: State): State {
    s.(producer := PDestroyed, destroyed := s.destroyed + 1)
  }

  function Apply(s: State, a: Action): State
    requires Enabled(s, a)
  {
    match a
    case Yield(item) => s.(current := item, yielded := s.yielded + [item], producer := PLoad)
    case ProducerStep => ProducerMoves(s)
    case Advance => s.(consumer := CLoad)
    case Await =>
      if s.consumer.initial.ReadySuspended? then Deliver(s)
      else s.(consumer := if s.consumer.initial.ReadyActive? then CRace else CPark)
    case ConsumerStep => ConsumerMoves(s)
    case Drop => s.(tag := Cancelled, consumer := if s.tag.ReadySuspended? then CDestroy else CGone)
  }

  function ProducerMoves(s: State): State {
    match s.producer
    case PLoad => s.(producer := if s.tag.NotReadySuspended? then PStore(false) else PAwait(s.tag))
    case PStore(late) => s.(tag := ReadyActive, producer := PResume(late))
    case PResume(late) => Deliver(s).(producer := PReload(late))
    case PReload(late) =>
      if s.tag.NotReadySuspended? then s.(producer := PBody)
      else if !late then s.(producer := PAwait(s.tag))
      else if s.tag.ReadyActive? then s.(producer := PRace)
      else DestroyFrame(s)
    case PAwait(initial) =>
      if initial.ReadyActive? then s.(producer := PRace)
      else if !initial.NotReadyActive? then DestroyFrame(s)
      else if s.tag.NotReadyActive? then s.(tag := ReadySuspended, producer := PSuspended)
      else if s.tag.NotReadySuspended? then s.(producer := PStore(true))
      else if s.tag.ReadyActive? then s.(producer := PRace)
      else DestroyFrame(s)
    case PRace =>
      if s.tag.ReadyActive? then s.(tag := ReadySuspended, producer := PSuspended)
      else if s.tag.NotReadySuspended? then s.(producer := PBody)
      else DestroyFrame(s)
    case PSuspended => s
    case PBody => s
    case PDestroyed => s
  }

  function ConsumerMoves(s: State): State {
    match s.consumer
    case CLoad => s.(consumer := if s.tag.ReadySuspended? then CStore(false) else CBuilt(s.tag))
    case CStore(late) => s.(tag := NotReadyActive, consumer := CResume(late))
    case CResume(late) => s.(producer := PBody, consumer := CReload(late))
    case CReload(late) =>
      if !late then s.(consumer := CBuilt(s.tag))
      else if s.tag.ReadySuspended? then Deliver(s) else s.(consumer := CPark)
    case CRace =>
      if s.tag.ReadyActive? then s.(tag := NotReadySuspended, consumer := CSuspended)
      else s.(consumer := CStore(true))
    case CPark =>
      if s.tag.NotReadyActive? then s.(tag := NotReadySuspended, consumer := CSuspended) else Deliver(s)
    case CDestroy => DestroyFrame(s).(consumer := CGone)
    case CActive => s
    case CBuilt(_) => s
    case CSuspended => s
    case CGone => s
  }

  ghost predicate Init(s: State) {
    && s.tag.ReadySuspended? && s.producer.PSuspended? && s.consumer.CActive?
    && s.yielded == [] && s.delivered == [] && s.destroyed == 0
  }

  // ---------------------------------------------------------------- the invariant

  /** Which positions of the two coroutines go with which state. */
  predicate Together(tag: Tag, p: Producer, c: Consumer) {
    match tag
    case ReadySuspended =>
      p.PSuspended? &&
      (c.CActive? || c.CLoad? || c.CStore? || c.CReload? || c.CRace? || c.CPark?
       || (c.CBuilt? && !c.initial.NotReadySuspended? && !c.initial.Cancelled?))
    case NotReadyActive =>
      (p.PSuspended? && c.CResume?)
      || ((p.PBody? || p.PLoad? || p == PAwait(NotReadyActive)) && (c.CReload? || c.CPark? || c == CBuilt(NotReadyActive)))
    case NotReadySuspended =>
      c.CSuspended? && (p.PBody? || p.PLoad? || p.PStore? || p.PReload? || p.PRace? || p == PAwait(NotReadyActive) || p == PAwait(ReadyActive))
    case ReadyActive =>
      (p.PResume? && c.CSuspended?)
      || ((p.PReload? || p.PRace? || p == PAwait(ReadyActive)) && (c.CActive? || c.CLoad? || c.CRace? || c == CBuilt(ReadyActive)))
    case Cancelled =>
      (c.CDestroy? && p.PSuspended?)
      || (c.CGone? && (p.PBody? || p.PLoad? || p.PReload? || p.PRace? || p.PDestroyed?
                       || (p.PAwait? && (p.initial.NotReadyActive? || p.initial.ReadyActive? || p.initial.Cancelled?))))
  }

  /** An item is waiting to be delivered. */
  predicate Pending(s: State) {
    match s.tag
    case ReadySuspended =>
      s.consumer.CReload? || s.consumer.CPark? || s.consumer == CBuilt(ReadySuspended) || s.consumer == CBuilt(NotReadyActive)
    case NotReadyActive => s.producer.PLoad? || s.producer.PAwait?
    case NotReadySuspended => s.producer.PLoad? || s.producer.PStore? || s.producer == PAwait(NotReadyActive)
    case ReadyActive => s.producer.PResume?
    case Cancelled => false
  }

  ghost predicate HistoryOk(s: State) {
    && s.delivered <= s.yielded
    && (!s.tag.Cancelled? ==> |s.yielded| == |s.delivered| + if Pending(s) then 1 else 0)
    && (s.tag.Cancelled? ==> |s.yielded| <= |s.delivered| + if s.producer.PBody? then 0 else 1)
    && (s.yielded != [] ==> s.current == s.yielded[|s.yielded| - 1])
  }

  predicate LastIsEnd(l: seq<Item>) { l != [] && l[|l| - 1].End? }

  /** The end is the last item, and after it neither side goes on. */
  ghost predicate EndOk(s: State) {
    && (forall k :: 0 <= k < |s.yielded| - 1 ==> !s.yielded[k].End?)
    && (LastIsEnd(s.yielded) ==> !s.producer.PBody?)
    && (LastIsEnd(s.delivered) ==> s.consumer.CActive? || s.consumer.CDestroy? || s.consumer.CGone?)
  }

  ghost predicate FrameOk(s: State) { s.destroyed == if s.producer.PDestroyed? then 1 else 0 }

  ghost predicate Inv(s: State) {
    Together(s.tag, s.producer, s.consumer) && HistoryOk(s) && EndOk(s) && FrameOk(s)
  }

  lemma TogetherStep(s: State, a: Action)
    requires Together(s.tag, s.producer, s.consumer) && Enabled(s, a)
    ensures var t := Apply(s, a); Together(t.tag, t.producer, t.consumer)
  {
  }

  /** When nothing is pending everything yielded has been delivered. */
  lemma AllDelivered(s: State)
    requires HistoryOk(s) && !s.tag.Cancelled? && !Pending(s)
    ensures s.delivered == s.yielded
  {
  }

  lemma HistoryOfProducer(s: State, a: Action)
    requires Inv(s) && Enabled(s, a) && (a.Yield? || a.ProducerStep?)
    ensures HistoryOk(Apply(s, a))
  {
    if !s.tag.Cancelled? && !Pending(s) { AllDelivered(s); }
    hide EndOk, FrameOk;
  }

  lemma HistoryOfConsumer(s: State, a: Action)
    requires Inv(s) && Enabled(s, a) && !a.Yield? && !a.ProducerStep?
    ensures HistoryOk(Apply(s, a))
  {
    if !s.tag.Cancelled? && !Pending(s) { AllDelivered(s); }
    hide EndOk, FrameOk;
  }

  lemma EndStep(s: State, a: Action)
    requires Inv(s) && Enabled(s, a)
    ensures EndOk(Apply(s, a))
  {
    if !s.tag.Cancelled? && !Pending(s) { AllDelivered(s); }
    hide FrameOk;
    assert s.yielded != [] ==> s.current == s.yielded[|s.yielded| - 1];
    hide HistoryOk;
  }

  lemma FrameStep(s: State, a: Action)
    requires Inv(s) && Enabled(s, a)
    ensures FrameOk(Apply(s, a))
  {
    hide HistoryOk, EndOk;
  }

  lemma InvStep(s: State, a: Action)
    requires Inv(s) && Enabled(s, a)
    ensures Inv(Apply(s, a))
  {
    hide Inv, Apply, Enabled;
    assert Together(s.tag, s.producer, s.consumer) by { InvParts(s); }
    TogetherStep(s, a);
    if a.Yield? || a.ProducerStep? { HistoryOfProducer(s, a); } else { HistoryOfConsumer(s, a); }
    EndStep(s, a);
    FrameStep(s, a);
    InvParts(Apply(s, a));
  }

  lemma InvParts(s: State)
    ensures Inv(s) <==> Together(s.tag, s.producer, s.consumer) && HistoryOk(s) && EndOk(s) && FrameOk(s)
  {
  }

  // ---------------------------------------------------------------- whole runs

  ghost predicate Run(trace: seq<State>, acts: seq<Action>) {
    && |trace| == |acts| + 1
    && Init(trace[0])
    && forall k :: 0 <= k < |acts| ==> Enabled(trace[k], acts[k]) && trace[k + 1] == Apply(trace[k], acts[k])
  }

  lemma {:induction false} RunKeepsInv(trace: seq<State>, acts: seq<Action>, k: nat)
    requires Run(trace, acts) && k <= |acts|
    ensures Inv(trace[k])
  {
    if k > 0 {
      RunKeepsInv(trace, acts, k - 1);
      hide Inv, Enabled, Apply;
      InvStep(trace[k - 1], acts[k - 1]);
    }
  }

  /** Every yielded item is delivered once and in order; at most one is not delivered yet. */
  lemma DeliveredInOrder(trace: seq<State>, acts: seq<Action>, k: nat)
    requires Run(trace, acts) && k <= |acts|
    ensures var s := trace[k]; s.delivered <= s.yielded && |s.yielded| <= |s.delivered| + 1
  {
    RunKeepsInv(trace, acts, k);
  }

  /** What an await returned stays in m_currentValue, whatever the producer does, until the consumer asks for
      the next item. */
  lemma {:induction false} CurrentValueStable(trace: seq<State>, acts: seq<Action>, k: nat, j: nat)
    requires Run(trace, acts) && k <= j <= |acts|
    requires forall i :: k <= i <= j ==> trace[i].consumer.CActive?
    requires trace[k].delivered != []
    ensures trace[j].delivered == trace[k].delivered
    ensures trace[j].current == trace[k].delivered[|trace[k].delivered| - 1]
  {
    RunKeepsInv(trace, acts, k);
    if k < j {
      CurrentValueStable(trace, acts, k, j - 1);
      RunKeepsInv(trace, acts, j - 1);
      hide Inv, Apply, Enabled;
      assert trace[j - 1].consumer.CActive? && trace[j].consumer.CActive? && trace[j - 1 + 1] == Apply(trace[j - 1], acts[j - 1]);
      ActiveStep(trace[j - 1], acts[j - 1]);
    } else {
      hide Together;
      AllDelivered(trace[k]);
    }
  }

  lemma ActiveStep(s: State, a: Action)
    requires Inv(s) && Enabled(s, a) && s.consumer.CActive? && Apply(s, a).consumer.CActive?
    ensures Apply(s, a).current == s.current && Apply(s, a).delivered == s.delivered
  {
    hide HistoryOk, EndOk;
  }

  /** A coroutine is only resumed while it is suspended where it can be resumed, and a destroyed one never. */
  lemma ResumedOnlyWhenSuspended(trace: seq<State>, acts: seq<Action>, k: nat)
    requires Run(trace, acts) && k < |acts|
    ensures acts[k].ConsumerStep? && trace[k].consumer.CResume? ==> trace[k].producer.PSuspended?
    ensures acts[k].ProducerStep? && trace[k].producer.PResume? ==> trace[k].consumer.CSuspended?
  {
    RunKeepsInv(trace, acts, k);
  }

  /** The producer's frame is destroyed at most once.  From the destruction of the generator on, the producer is
      not resumed, and it is either still running, about to be destroyed, or destroyed: it does not leak. */
  lemma DestroyedOnce(trace: seq<State>, acts: seq<Action>, k: nat)
    requires Run(trace, acts) && k <= |acts|
    ensures var s := trace[k];
      && s.destroyed <= 1
      && (s.consumer.CGone? ==> !s.producer.PSuspended?)
      && (s.consumer.CDestroy? ==> s.producer.PSuspended?)
      && (s.destroyed == 1 ==> s.consumer.CGone?)
  {
    RunKeepsInv(trace, acts, k);
  }

  lemma {:induction false} GoneForGood(trace: seq<State>, acts: seq<Action>, k: nat, j: nat)
    requires Run(trace, acts) && k <= j <= |acts|
    requires trace[k].consumer.CDestroy? || trace[k].consumer.CGone?
    ensures trace[j].consumer.CDestroy? || trace[j].consumer.CGone?
    ensures trace[j].delivered == trace[k].delivered && trace[j].destroyed >= trace[k].destroyed
    ensures trace[j].destroyed == 1 <==> trace[j].producer.PDestroyed?
    ensures trace[k].destroyed == 1 ==> trace[j].yielded == trace[k].yielded && trace[j].producer.PDestroyed?
  {
    RunKeepsInv(trace, acts, k);
    if k < j {
      GoneForGood(trace, acts, k, j - 1);
      RunKeepsInv(trace, acts, j - 1);
      hide Inv, Apply, Enabled;
      GoneStep(trace[j - 1], acts[j - 1]);
    } else {
      hide Together, HistoryOk, EndOk;
    }
  }

  lemma GoneStep(s: State, a: Action)
    requires Inv(s) && Enabled(s, a) && (s.consumer.CDestroy? || s.consumer.CGone?)
    ensures var t := Apply(s, a);
      && (t.consumer.CDestroy? || t.consumer.CGone?)
      && t.delivered == s.delivered && t.destroyed >= s.destroyed
      && (s.producer.PDestroyed? ==> t == s)
      && (t.destroyed == 1 <==> t.producer.PDestroyed?)
  {
    hide HistoryOk, EndOk;
  }

  /** The two never wait for each other: while the consumer is suspended the producer is not. */
  lemma NoDeadlock(trace: seq<State>, acts: seq<Action>, k: nat)
    requires Run(trace, acts) && k <= |acts| && trace[k].consumer.CSuspended?
    ensures !trace[k].producer.PSuspended? && !trace[k].producer.PDestroyed?
  {
    RunKeepsInv(trace, acts, k);
  }

  /** Every assertion in the code holds, in every interleaving. */
  lemma AssertionsHold(trace: seq<State>, acts: seq<Action>, k: nat)
    requires Run(trace, acts) && k < |acts|
    ensures var s, t, a := trace[k], trace[k + 1], acts[k];
      && (a.Drop? ==> !s.tag.NotReadySuspended? && !s.tag.Cancelled?)
      && (a.ProducerStep? && s.producer.PLoad? ==> !s.tag.ReadyActive? && !s.tag.ReadySuspended?)
      && (a.ProducerStep? && t.producer.PDestroyed? ==> s.tag.Cancelled?)
      && (a.ConsumerStep? && s.consumer.CRace? ==> s.tag.ReadyActive? || s.tag.ReadySuspended?)
      && (a.Await? && t.consumer.CPark? ==> s.consumer.initial.NotReadyActive?)
      && (a.ConsumerStep? && s.consumer.CReload? && t.consumer.CPark? ==> s.tag.NotReadyActive?)
  {
    RunKeepsInv(trace, acts, k);
    assert trace[k + 1] == Apply(trace[k], acts[k]) && Enabled(trace[k], acts[k]);
    hide HistoryOk, EndOk, FrameOk;
  }

  // ---------------------------------------------------------------- the calls that were made

  /** What the generator's body has yielded, in order. */
  function ItemsOf(acts: seq<Action>): seq<Item> {
    if acts == [] then []
    else
      var a := acts[|acts| - 1];
      ItemsOf(acts[..|acts| - 1]) + if a.Yield? then [a.item] else []
  }

  /** How often begin() or ++ was called. */
  function AdvancesOf(acts: seq<Action>): nat {
    if acts == [] then 0
    else AdvancesOf(acts[..|acts| - 1]) + if acts[|acts| - 1].Advance? then 1 else 0
  }

  predicate DroppedBy(acts: seq<Action>) { exists i :: 0 <= i < |acts| && acts[i].Drop? }

  /** The generator object has been destroyed. */
  predicate Dropped(c: Consumer) { c.CDestroy? || c.CGone? }

  lemma CallsOfStep(s: State, a: Action)
    requires Inv(s) && Enabled(s, a)
    ensures var t := Apply(s, a);
      && t.yielded == s.yielded + (if a.Yield? then [a.item] else [])
      && (Dropped(t.consumer) <==> Dropped(s.consumer) || a.Drop?)
  {
    hide HistoryOk, EndOk;
  }

  /** How many operations have been started and are not accounted for by an item delivered. */
  function Open(c: Consumer): nat { if c.CActive? then 0 else 1 }

  lemma AdvancesOfStep(s: State, a: Action)
    requires Inv(s) && Enabled(s, a)
    ensures var t := Apply(s, a); var d := |t.delivered| - |s.delivered|;
      && (!Dropped(t.consumer) ==> d + Open(t.consumer) == Open(s.consumer) + if a.Advance? then 1 else 0)
      && (Dropped(t.consumer) ==> d == 0 && !a.Advance?)
  {
    hide HistoryOk, EndOk;
  }

  lemma DroppedSo(acts: seq<Action>, k: nat)
    requires 0 < k <= |acts|
    ensures DroppedBy(acts[..k]) <==> DroppedBy(acts[..k - 1]) || acts[k - 1].Drop?
  {
    var earlier, now := acts[..k - 1], acts[..k];
    assert now[k - 1] == acts[k - 1] && forall i :: 0 <= i < k - 1 ==> now[i] == earlier[i];
  }

  /** With `items` yielded by the body and n operations started. */
  ghost predicate Answered(s: State, items: seq<Item>, n: nat, dropped: bool) {
    && s.yielded == items && (Dropped(s.consumer) <==> dropped)
    && if dropped then |s.delivered| <= n <= |s.delivered| + 1 else n == |s.delivered| + Open(s.consumer)
  }

  lemma AnsweredStep(s: State, a: Action, items: seq<Item>, n: nat, dropped: bool)
    requires Inv(s) && Enabled(s, a) && Answered(s, items, n, dropped)
    ensures Answered(Apply(s, a), items + (if a.Yield? then [a.item] else []), n + (if a.Advance? then 1 else 0), dropped || a.Drop?)
  {
    CallsOfStep(s, a);
    AdvancesOfStep(s, a);
    hide Inv, Enabled, Apply;
  }

  lemma {:induction false} CallsAnswered(trace: seq<State>, acts: seq<Action>, k: nat)
    requires Run(trace, acts) && k <= |acts|
    ensures Answered(trace[k], ItemsOf(acts[..k]), AdvancesOf(acts[..k]), DroppedBy(acts[..k]))
  {
    if k > 0 {
      assert acts[..k][..k - 1] == acts[..k - 1];
      hide Inv, Enabled, Apply, DroppedBy, Answered;
      CallsAnswered(trace, acts, k - 1);
      RunKeepsInv(trace, acts, k - 1);
      DroppedSo(acts, k);
      AnsweredStep(trace[k - 1], acts[k - 1], ItemsOf(acts[..k - 1]), AdvancesOf(acts[..k - 1]), DroppedBy(acts[..k - 1]));
    } else {
      NoDrop(acts);
    }
  }

  /** The items delivered are those that the body yielded, in order, and every begin() or ++ gets one: as many are
      delivered as were asked for, save for the one being waited for.  The generator is gone exactly if it was
      destroyed. */
  lemma EveryAdvanceAnswered(trace: seq<State>, acts: seq<Action>, k: nat)
    requires Run(trace, acts) && k <= |acts|
    ensures var s, n := trace[k], AdvancesOf(acts[..k]);
      && s.delivered <= ItemsOf(acts[..k])
      && (Dropped(s.consumer) <==> DroppedBy(acts[..k]))
      && if Dropped(s.consumer) then |s.delivered| <= n <= |s.delivered| + 1 else n == |s.delivered| + Open(s.consumer)
  {
    CallsAnswered(trace, acts, k);
    DeliveredInOrder(trace, acts, k);
  }

  lemma NoDrop(acts: seq<Action>)
    ensures !DroppedBy(acts[..0])
  {
  }

  // ---------------------------------------------------------------- neither side is held up

  /** How many steps the producer has yet to take, at most, until it is back in the body or suspended. */
  function ProducerLeft(p: Producer): nat {
    match p
    case PLoad => 9
    case PStore(late) => if late then 4 else 8
    case PResume(late) => if late then 3 else 7
    case PReload(late) => if late then 2 else 6
    case PAwait(_) => 5
    case PRace => 1
    case _ => 0
  }

  /** The same for the consumer. */
  function ConsumerLeft(c: Consumer): nat {
    match c
    case CLoad => 4
    case CStore(late) => if late then 4 else 3
    case CResume(late) => if late then 3 else 2
    case CReload(late) => if late then 2 else 1
    case CRace => 5
    case CPark => 1
    case CDestroy => 1
    case _ => 0
  }

  function OfProducer(): Action -> bool { (a: Action) => a.ProducerStep? }

  function OfConsumer(): Action -> bool { (a: Action) => a.ConsumerStep? }

  lemma BothAdvance(s: State, a: Action)
    requires Inv(s) && Enabled(s, a)
    ensures !a.Yield? ==> One(OfProducer()(a)) + ProducerLeft(Apply(s, a).producer) <= ProducerLeft(s.producer)
    ensures !a.Advance? && !a.Await? && !a.Drop? ==>
      One(OfConsumer()(a)) + ConsumerLeft(Apply(s, a).consumer) <= ConsumerLeft(s.consumer)
  {
    hide HistoryOk, EndOk;
  }

  /** However the steps of the two interleave: after at most nine of its own following a yield, the producer is in
      the body again, suspended or destroyed. */
  lemma {:induction false} YieldEnds(trace: seq<State>, acts: seq<Action>, j: nat, k: nat)
    requires Run(trace, acts) && j <= k <= |acts| && forall i :: j <= i < k ==> !acts[i].Yield?
    ensures Count(OfProducer(), acts[j..k]) + ProducerLeft(trace[k].producer) <= ProducerLeft(trace[j].producer) <= 9
  {
    if j < k {
      YieldEnds(trace, acts, j, k - 1);
      RunKeepsInv(trace, acts, k - 1);
      BothAdvance(trace[k - 1], acts[k - 1]);
      CountSlice(OfProducer(), acts, j, k);
      hide Inv, Enabled, Apply, Count, ProducerLeft, OfProducer;
    }
  }

  /** And after at most five of its own following begin() or ++, an await, or the destruction of the generator, the
      consumer has its operation, its item, is suspended or is done. */
  lemma {:induction false} AdvanceEnds(trace: seq<State>, acts: seq<Action>, j: nat, k: nat)
    requires Run(trace, acts) && j <= k <= |acts|
    requires forall i :: j <= i < k ==> !acts[i].Advance? && !acts[i].Await? && !acts[i].Drop?
    ensures Count(OfConsumer(), acts[j..k]) + ConsumerLeft(trace[k].consumer) <= ConsumerLeft(trace[j].consumer) <= 5
  {
    if j < k {
      AdvanceEnds(trace, acts, j, k - 1);
      RunKeepsInv(trace, acts, k - 1);
      BothAdvance(trace[k - 1], acts[k - 1]);
      CountSlice(OfConsumer(), acts, j, k);
      hide Inv, Enabled, Apply, Count, ConsumerLeft, OfConsumer;
    }
  }
}
