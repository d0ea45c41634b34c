/** The fields and loops of the sequencers, on words (include/cppcoro/sequence_range.hpp,
    include/cppcoro/multi_producer_sequencer.hpp:455-566, include/cppcoro/single_producer_sequencer.hpp:146-250).
    Ghost parameters give the numbers that the words stand for. */
module Sequencers {
  import opened Words

  // ---------------------------------------------------------------- ranges

  /** sequence_range: the words [begin, end). */
  datatype Range = Range(begin: nat, end: nat) {
    predicate Empty() { begin == end }

    function Size(m: nat): int
      requires m > 0
    {
      Difference(m, end, begin)
    }

    function Back(m: nat): nat
      requires m > 0
    {
      Wrap(m, end - 1)
    }

    function First(m: nat, count: nat): Range
      requires m > 0
    {
      Range(begin, Wrap(m, begin + if Size(m) < count then Size(m) else count))
    }

    function Skip(m: nat, count: nat): Range
      requires m > 0
    {
      Range(Wrap(m, begin + if Size(m) < count then Size(m) else count), end)
    }
  }

  /** The words of the numbers a, ..., b - 1. */
  function RangeOf(m: nat, a: int, b: int): Range
    requires m > 0
  {
    Range(Wrap(m, a), Wrap(m, b))
  }

  /** On ranges of less than half the word range the operations are those on the numbers: `first` and `skip`
      cut the range in two, even where the words wrap around. */
  lemma RangeExact(m: nat, a: int, b: int, count: nat)
    requires m > 0 && 0 <= b - a < m - m / 2
    ensures var cut := if b - a < count then b else a + count;
      && RangeOf(m, a, b).Size(m) == b - a
      && RangeOf(m, a, b).First(m, count) == RangeOf(m, a, cut)
      && RangeOf(m, a, b).Skip(m, count) == RangeOf(m, cut, b)
      && RangeOf(m, a, b).Back(m) == Wrap(m, b - 1)
      && (RangeOf(m, a, b).Empty() <==> a == b)
  {
    DifferenceExact(m, b, a);
    WrapAdd(m, a, if b - a < count then b - a else count);
    WrapAdd(m, b, -1);
    WrapInjective(m, a, b);
  }

  // ---------------------------------------------------------------- the ring of a multi_producer_sequencer

  predicate Divides(n: nat, m: nat)
    requires n > 0
  {
    m % n == 0
  }

  /** The ring has a power of two slots, divides the word range and is at most its largest difference. */
  predicate RingSize(m: nat, n: nat, bits: nat) {
    n == Pow2(bits) && Divides(n, m) && 2 * n + 2 <= m
  }

  lemma RingFacts(m: nat, n: nat, bits: nat)
    requires RingSize(m, n, bits)
    ensures n > 0 && m > 0 && 2 * n + 2 <= m
  {
  }

  /** The slot of number x. */
  function SlotOf(n: nat, x: int): (j: nat)
    requires n > 0
    ensures j < n
  {
    x % n
  }

  lemma SlotsDiffer(n: nat, x: int, y: int)
    requires 0 < x - y < n
    ensures SlotOf(n, x) != SlotOf(n, y)
  {
    SlotsDistinct(x, y, n);
  }

  /** In one lap every number has a slot of its own. */
  lemma OtherSlots(n: nat, first: int, x: int)
    requires first <= x < first + n
    ensures forall y :: first <= y < first + n && y != x ==> SlotOf(n, y) != SlotOf(n, x)
  {
    forall y | first <= y < first + n && y != x ensures SlotOf(n, y) != SlotOf(n, x) {
      if y < x { SlotsDiffer(n, x, y); } else { SlotsDiffer(n, y, x); }
    }
  }

  lemma SlotAgain(n: nat, x: int)
    requires n > 0
    ensures SlotOf(n, x + n) == SlotOf(n, x)
  {
    ModAddSame(x, n, 1);
  }

  lemma WordSlot(m: nat, n: nat, x: int)
    requires m > 0 && n > 0 && Divides(n, m)
    ensures Wrap(m, x) % n == SlotOf(n, x)
  {
    SlotOfWord(m, n, m / n, x);
  }

  lemma MaskedWord(m: nat, n: nat, bits: nat, x: int)
    requires RingSize(m, n, bits)
    ensures And(Wrap(m, x), n - 1) == SlotOf(n, x)
  {
    hide And, Wrap, Divides, Pow2, SlotOf;
    MaskIsRemainder(Wrap(m, x), bits);
    WordSlot(m, n, x);
  }

  /** Numbers after `last` up to and including last + c are in their slots. */
  ghost predicate RunOf(m: nat, slots: seq<int>, last: int, c: nat)
    requires m > 0 && |slots| > 0
  {
    forall x :: last < x <= last + c ==> slots[SlotOf(|slots|, x)] == Wrap(m, x)
  }

  /** They are, and the number after them is not in its slot. */
  ghost predicate RunEnds(m: nat, slots: seq<int>, last: int, c: nat)
    requires m > 0 && |slots| > 0
  {
    RunOf(m, slots, last, c) && slots[SlotOf(|slots|, last + c + 1)] != Wrap(m, last + c + 1)
  }

  lemma RunExtends(m: nat, slots: seq<int>, last: int, c: nat)
    requires m > 0 && |slots| > 0 && RunOf(m, slots, last, c)
    requires slots[SlotOf(|slots|, last + c + 1)] == Wrap(m, last + c + 1)
    ensures RunOf(m, slots, last, c + 1)
  {
  }

  /** A run cannot go on for more than a lap: the next slot still holds the run's first number. */
  lemma FullLap(m: nat, slots: seq<int>, last: int)
    requires m > |slots| > 0 && RunOf(m, slots, last, |slots|)
    ensures slots[SlotOf(|slots|, last + |slots| + 1)] != Wrap(m, last + |slots| + 1)
  {
    SlotAgain(|slots|, last + 1);
    WrapInjective(m, last + 1, last + 1 + |slots|);
    hide Wrap, SlotOf;
    assert slots[SlotOf(|slots|, last + 1)] == Wrap(m, last + 1);
  }

  /** a, a + 1, ..., b - 1 */
  ghost function Between(a: int, b: int): (r: seq<int>)
    decreases b - a
  {
    if a < b then Between(a, b - 1) + [b - 1] else []
  }

  class MultiProducerSequencer {
    const m: nat            // how many values a word has
    ghost const bits: nat
    const mask: nat
    const published: array<int>
    var nextToClaim: nat
    ghost var stores: seq<int>   // the numbers stored so far, in order

    ghost predicate Valid()
      reads this, published
    {
      && published.Length == mask + 1
      && RingSize(m, published.Length, bits)
    }

    constructor (m: nat, bufferSize: nat, initialSequence: nat, ghost bits: nat, ghost initial: int)
      requires RingSize(m, bufferSize, bits) && initialSequence == Wrap(m, initial)
      ensures Valid() && this.m == m && published.Length == bufferSize && fresh(published)
      ensures nextToClaim == Wrap(m, initial + 1)
      ensures forall x :: initial - bufferSize < x <= initial ==> published[SlotOf(bufferSize, x)] == Wrap(m, x)
    {
      RingFacts(m, bufferSize, bits);
      hide SlotOf, Wrap, And, Pow2, RingSize, Divides;
      this.m, this.bits, this.mask := m, bits, bufferSize - 1;
      nextToClaim := Wrap(m, initialSequence + 1);
      published := new int[bufferSize];
      stores := [];
      new;
      WrapAdd(m, initial, 1);
      ghost var lap: int := mask;
      WrapAdd(m, initial, -lap);
      var sequence := Wrap(m, initialSequence - mask);
      ghost var x := initial - mask;
      var more := true;
      while more
        invariant Valid() && fresh(published) && nextToClaim == Wrap(m, initial + 1)
        invariant initial - mask <= x <= initial + 1 && sequence == Wrap(m, x) && (more <==> x <= initial)
        invariant forall y :: initial - bufferSize < y < x ==> published[SlotOf(bufferSize, y)] == Wrap(m, y)
        decreases initial + 1 - x
      {
        MaskedWord(m, bufferSize, bits, x);
        OtherSlots(bufferSize, initial - bufferSize + 1, x);
        published[And(sequence, mask)] := sequence;
        WrapInjective(m, x, initial);
        more := sequence != initialSequence;
        WrapAdd(m, x, 1);
        sequence, x := Wrap(m, sequence + 1), x + 1;
      }
    }

    /** Ends, for any contents of the ring, after at most one test per slot, at the end of the run of
        numbers that are in their slots. */
    method LastPublishedAfter(lastKnown: nat, ghost last: int) returns (r: nat)
      requires Valid() && lastKnown == Wrap(m, last)
      ensures exists c: nat :: c <= published.Length && r == Wrap(m, last + c) && RunEnds(m, published[..], last, c)
    {
      r := lastKnown;
      ghost var c := 0;
      RingFacts(m, published.Length, bits);
      assert RunOf(m, published[..], last, 0);
      hide Wrap, And, Pow2, SlotOf, RingSize, Divides, RunOf;
      var n := published.Length;
      WrapAdd(m, last, 1);
      MaskedWord(m, n, bits, last + 1);
      var sequence := Wrap(m, lastKnown + 1);
      while published[And(sequence, mask)] == sequence
        invariant c <= n && r == Wrap(m, last + c) && sequence == Wrap(m, last + c + 1)
        invariant And(sequence, mask) == SlotOf(n, last + c + 1)
        invariant RunOf(m, published[..], last, c)
        decreases n - c
      {
        if c == n { FullLap(m, published[..], last); }
        RunExtends(m, published[..], last, c);
        WrapAdd(m, last + c + 1, 1);
        MaskedWord(m, n, bits, last + c + 2);
        r, sequence, c := sequence, Wrap(m, sequence + 1), c + 1;
      }
      assert RunEnds(m, published[..], last, c);
    }

    /** publish(range), without waking anyone: of the lap that starts with the range, the range is stored and
        the rest untouched, and the front goes last. */
    method Publish(range: Range, ghost first: int, ghost end: int)
      requires Valid() && range == RangeOf(m, first, end) && 0 <= end - first <= published.Length
      modifies published, this`stores
      ensures forall x :: first <= x < first + published.Length ==>
        published[SlotOf(published.Length, x)] == if x < end then Wrap(m, x) else old(published[SlotOf(published.Length, x)])
      ensures stores == old(stores) + if first == end then [] else Between(first + 1, end) + [first]
    {
      RingFacts(m, published.Length, bits);
      RangeExact(m, first, end, 1);
      hide Wrap, And, Pow2, SlotOf, RingSize, Divides;
      var n := published.Length;
      if range.Empty() {
        return;
      }
      var rest := range.Skip(m, 1);
      var word := rest.begin;
      ghost var x := first + 1;
      while word != rest.end
        invariant first < x <= end && word == Wrap(m, x) && rest.end == Wrap(m, end)
        invariant forall y :: first <= y < first + n ==>
          published[SlotOf(n, y)] == if first < y < x then Wrap(m, y) else old(published[SlotOf(n, y)])
        invariant stores == old(stores) + Between(first + 1, x)
        decreases end - x
      {
        WrapInjective(m, x, end);
        MaskedWord(m, n, bits, x);
        OtherSlots(n, first, x);
        published[And(word, mask)] := word;
        stores := stores + [x];
        WrapAdd(m, x, 1);
        word, x := Wrap(m, word + 1), x + 1;
      }
      WrapInjective(m, x, end);
      MaskedWord(m, n, bits, first);
      OtherSlots(n, first, first);
      published[And(range.begin, mask)] := range.begin;
      stores := stores + [first];
    }
  }

  // ---------------------------------------------------------------- single_producer_sequencer

  lemma FreeCount(m: nat, n: nat, next: int, k: int)
    requires 0 <= k + n - next < m
    ensures Wrap(m, Wrap(m, Wrap(m, k) + n) - Wrap(m, next)) == k + n - next
  {
    WrapAdd(m, k, n);
    WrapDifference(m, k + n, next);
    ModUnique(k + n - next, m, 0, k + n - next);
  }

  /** Within one lap of what is consumed, a number shares its slot with none before it. */
  lemma FreeSlot(n: nat, consumed: int, y: int)
    requires n > 0 && consumed < y <= consumed + n
    ensures forall x :: consumed < x < y ==> SlotOf(n, x) != SlotOf(n, y)
  {
    forall x | consumed < x < y ensures SlotOf(n, x) != SlotOf(n, y) { SlotsDistinct(y, x, n); }
  }

  class SingleProducerSequencer {
    const m: nat
    const bufferSize: nat
    var nextToClaim: nat
    var lastPublished: nat      // of the producer barrier
    ghost var next: int         // the number nextToClaim stands for
    ghost var consumed: int     // what the producer has learned about the consumers
    ghost var done: int         // the number lastPublished stands for

    ghost predicate Valid()
      reads this
    {
      && 0 < bufferSize && 2 * bufferSize + 2 <= m
      && nextToClaim == Wrap(m, next) && lastPublished == Wrap(m, done)
      && consumed <= done < next <= consumed + bufferSize + 1
    }

    constructor (m: nat, bufferSize: nat, initialSequence: nat, ghost initial: int)
      requires 0 < bufferSize && 2 * bufferSize + 2 <= m && initialSequence == Wrap(m, initial)
      ensures Valid() && this.m == m && this.bufferSize == bufferSize
      ensures next == initial + 1 && consumed == done == initial
    {
      this.m, this.bufferSize := m, bufferSize;
      nextToClaim, lastPublished := Wrap(m, initialSequence + 1), initialSequence;
      next, consumed, done := initial + 1, initial, initial;
      new;
      WrapAdd(m, initial, 1);
    }

    /** What a claim waits for: one lap before the next number. */
    method Target() returns (target: nat)
      requires Valid()
      ensures target == Wrap(m, next - bufferSize)
    {
      ghost var lap: int := bufferSize;
      WrapAdd(m, next, -lap);
      target := Wrap(m, nextToClaim - bufferSize);
    }

    /** The test that ends a claim's wait, on what the barrier has published: `known`, which stands for k. */
    method Ready(known: nat, ghost k: int) returns (ready: bool)
      requires Valid() && known == Wrap(m, k) && consumed <= k <= done
      ensures ready <==> next - bufferSize <= k
    {
      var target := Target();
      PrecedesExact(m, k, next - bufferSize);
      ready := !Precedes(m, known, target);
    }

    /** claim_one once the barrier wait has returned `known`, which stands for k.  The number granted has a slot
        of its own among all that are claimed and not known to be consumed. */
    method ClaimOne(known: nat, ghost k: int) returns (sequence: nat)
      requires Valid() && known == Wrap(m, k) && consumed <= k <= done && next - bufferSize <= k
      modifies this`nextToClaim, this`next, this`consumed
      ensures Valid() && consumed == k
      ensures sequence == Wrap(m, old(next)) && next == old(next) + 1
      ensures forall x :: k < x < old(next) ==> SlotOf(bufferSize, x) != SlotOf(bufferSize, old(next))
    {
      WrapAdd(m, next, 1);
      FreeSlot(bufferSize, k, next);
      sequence := nextToClaim;
      nextToClaim, next, consumed := Wrap(m, nextToClaim + 1), next + 1, k;
    }

    /** claim_up_to: all that was asked for or all that is free, at least one and at most the whole ring. */
    method ClaimUpTo(count: nat, known: nat, ghost k: int) returns (range: Range)
      requires Valid() && known == Wrap(m, k) && consumed <= k <= done && next - bufferSize <= k
      modifies this`nextToClaim, this`next, this`consumed
      ensures Valid() && consumed == k
      ensures range == RangeOf(m, old(next), next)
      ensures next - old(next) == if count < k + bufferSize + 1 - old(next) then count else k + bufferSize + 1 - old(next)
      ensures count >= 1 ==> 1 <= next - old(next) <= bufferSize
      ensures forall x, y :: k < x < y && old(next) <= y < next ==> SlotOf(bufferSize, x) != SlotOf(bufferSize, y)
    {
      hide Wrap, SlotOf;
      var lastAvailable := Wrap(m, known + bufferSize);
      var begin: int := nextToClaim;
      var available := Wrap(m, lastAvailable - begin) + 1;
      FreeCount(m, bufferSize, next, k);
      var toClaim := if count < available then count else available;
      var end := Wrap(m, begin + toClaim);
      WrapAdd(m, next, toClaim);
      forall y | next <= y < next + toClaim
        ensures forall x :: k < x < y ==> SlotOf(bufferSize, x) != SlotOf(bufferSize, y)
      {
        FreeSlot(bufferSize, k, y);
      }
      nextToClaim, next, consumed := end, next + toClaim, k;
      range := Range(begin, end);
    }

    /** publish: everything up to `sequence`, which stands for x. */
    method Publish(sequence: nat, ghost x: int)
      requires Valid() && sequence == Wrap(m, x) && done <= x < next
      modifies this`lastPublished, this`done
      ensures Valid() && done == x
    {
      lastPublished, done := sequence, x;
    }

    /** Numbers that are claimed but not known to be consumed never share a slot. */
    lemma Exclusive(x: int, y: int)
      requires Valid() && consumed < x < next && consumed < y < next && x != y
      ensures x % bufferSize != y % bufferSize
    {
      if x < y { SlotsDistinct(y, x, bufferSize); } else { SlotsDistinct(x, y, bufferSize); }
    }
  }
}
