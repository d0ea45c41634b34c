# cppcoro: its lock-free coordination, modelled and proved

cppcoro is a C++ library of coroutine types. This project models the parts of it in which threads meet without
locks, and proves what they promise, for every interleaving and every run:

- the work-stealing thread pool: the ring deque of each worker (`Deque`, and `ThreadStates` as the class with its
  array), the global queue (`GlobalQueue`), and the whole pool with its sleep and wake-up protocol (`Pool`,
  `PoolProofs`, `PoolStall`), the operations that go through it (`PoolConservation`), what a search for work has
  seen (`PoolSearch`), and that no thread is held up (`PoolProgress`, `PoolBlocking`);
- the disruptor sequencers: sequence numbers in fixed-width words (`Words`), the barrier (`SequenceBarrier`), the
  multi-producer sequencer (`MultiProducer`, `MultiProducerProofs`), what each call on them achieves
  (`SequenceBarrierCalls`, `MultiProducerCalls`), the same two machines on wrapping words (`BarrierWords`,
  `SequencerWords`), and the fields and loops of both sequencers (`Sequencers`);
- the protocols that pack their state into one word: the auto-reset event (`AutoResetEvent`,
  `AutoResetEventCalls`), the mutex (`AsyncMutex`), and cancellation (`Cancellation`);
- the generators: the asynchronous one as a meeting of two coroutines (`AsyncGenerator`), and the recursive one on
  linked promise objects (`RecursiveGenerators`);
- IPv6 text: the grammar and the parser (`Ipv6`, `Ipv6Parser`), the canonical form and the printer (`Ipv6Text`).

A protocol is a state machine with one step per atomic access of the code. Its state holds the code's fields and,
for every thread, where that thread is and what its local variables hold; history components, named as such,
record what happened. `Inv` is what every step keeps (`InvStep`), a `Run` is any sequence of enabled steps from an
initial state, and the main results are about every state of every run. History alone proves little about a call,
so for each machine there are also results that start from the calls made in the run: what a call does depends on
the state it finds, every call is accounted for by what became of it, and a call that is left alone ends. Loops over arrays, linked nodes and
buffers are methods with the same loops. `IntrusiveList` shows on real links that the list loops compute the
functions (`Reverse`, `Beyond`, `Reached`, `MinTarget` of `Waiters`) that the machines use for them. `Tally`
counts threads.

Atomic accesses are taken as sequentially consistent. Where the code uses weaker orders, that is what its comments
argue for; the orders themselves are not part of the model.

Four results are about what the code does not do:

- A pool of any number of workers greater than one can put all of them to sleep with an operation still in a worker's
  own deque (`PoolStall.LocalOperationStranded`), so the promise that somebody is awake for every queued operation
  holds if and only if the pool has one worker (`PoolStall.NeverStrandsExact`). The cause is the owner's cheap
  emptiness test at lib/static_thread_pool.cpp:186-195, which misses the only operation exactly while a thief has
  moved `m_tail` past it without winning it (`Deque.EarlyExitExact`). Whenever all workers sleep, the global queue is
  empty and a deque can only hold something if its owner's last look was such a miss
  (`PoolProofs.GlobalQueueNeverStalls`); in a pool of any size nothing is left as long as only threads outside it
  schedule (`PoolProofs.NothingStranded`).
- The cap on the size of a local queue is never applied (`Deque.CapNeverApplied`): the test at
  lib/static_thread_pool.cpp:135 compares an odd mask with an even constant.
- `ipv6_address::from_string` reads the character after the end of its string if and only if the string breaks off
  after the second or third number of dotted decimal notation that could still have become right
  (`Ipv6.OverrunExact`): the test for the next dot at lib/ipv6_address.cpp:166 comes before any test of the position.
- A claim of zero numbers is granted an empty range, and a recheck of a stale slot may match a word that has
  wrapped around; both are in the machine, and the second is harmless (`SequencerWords.WordsSimulateNumbers`).

## Model

| member | source | states |
|---|---|---|
| Words.DifferenceExact | include/cppcoro/sequence_traits.hpp:21-24 | the word difference is the true difference if and only if the true one fits the signed half range |
| Words.PrecedesExact | include/cppcoro/sequence_traits.hpp:26-29 | words are ordered as their numbers while those are less than half a range apart |
| Words.WrapInjective | include/cppcoro/multi_producer_sequencer.hpp:523-533 | equal words mean equal numbers while those are less than a range apart |
| Words.MaskIsRemainder | include/cppcoro/multi_producer_sequencer.hpp:511-516 | for a power-of-two ring, `seq & mask` is the remainder by the ring size |
| Words.SlotOfWord | include/cppcoro/multi_producer_sequencer.hpp:526-530 | the slot found from the wrapped word is the slot of the number |
| Deque.InvStep | lib/static_thread_pool.cpp:105-289 | every atomic step of the owner or of a thief keeps cursors, live slots and history consistent |
| Deque.ExactlyOnce | lib/static_thread_pool.cpp:105-289 | in every run the history is that of a queue whose owner takes the newest and whose thieves take the oldest, and every accepted operation is queued, won by one taker, or returned once |
| Deque.LegalLogConserves | lib/static_thread_pool.cpp:105-289 | such a history loses and duplicates nothing |
| Deque.WinnersReadTheirOperation | lib/static_thread_pool.cpp:186-289 | what a winner reads from its slot is the operation the history gave it, even while others push and grow |
| Deque.SlotSafety | lib/static_thread_pool.cpp:105-128 | live and won-but-unread positions have different slots and an enqueue never writes one of them, also after a failed steal moved tail back |
| Deque.GrowthKeepsPositions | lib/static_thread_pool.cpp:129-184 | growing doubles the buffer and leaves every item at its position under the new mask |
| Deque.EarlyExitExact | lib/static_thread_pool.cpp:186-195 | the owner's first emptiness test misses an operation if and only if it is the only one and a thief has moved tail past it without having won it |
| Deque.ThiefGivesUpExact | lib/static_thread_pool.cpp:241-289 | a thief gives up, at its first look at head or at its second, if and only if the queue is empty or its only operation is one that the owner has lowered head past; otherwise it gets the oldest |
| Deque.OwnerGivesUpExact | lib/static_thread_pool.cpp:197-239 | the owner's first look gets it the newest operation unless there is none or only one that a thief has moved tail past, and its look under the mutex unless there is none |
| Deque.EnqueueExact | lib/static_thread_pool.cpp:105-139 | an operation is put in without growing if and only if the queue is not full, but for one that a thief has moved tail past |
| Deque.AcceptedAtTheBack | lib/static_thread_pool.cpp:105-184 | an accepted operation is at the back of the queue |
| Deque.OwnerCallEnds | lib/static_thread_pool.cpp:105-239 | whatever the thieves do, a call of the owner takes at most five more steps after its first |
| Deque.ThiefCallEnds | lib/static_thread_pool.cpp:241-289 | whatever the owner does, a thief that has the mutex gives it up after at most five steps |
| Deque.CapNeverApplied | lib/static_thread_pool.cpp:129-139 | the size cap never takes effect |
| Deque.BufferSize | lib/static_thread_pool.cpp:129-184 | the buffer always has 256 slots doubled with every growth, a power of two |
| Deque.CursorsInWords | lib/static_thread_pool.cpp:105-289 | in every run with a buffer of at most a quarter of the word range, the wrapped cursors, the owner's new head and the tail a thief has read give the same differences and slots as unbounded numbers, in the old buffer and in one of twice the size |
| ThreadStates.ThreadState.constructor | lib/static_thread_pool.cpp:30-46 | an empty deque with the initial buffer |
| ThreadStates.ThreadState.TryLocalPop | lib/static_thread_pool.cpp:186-239 | with any thief steps between its accesses: returns the operation that the owner's history then has as popped; it returns nothing only when the queue is empty but for at most one operation that a thief has moved tail past |
| ThreadStates.ThreadState.TryLocalEnqueue | lib/static_thread_pool.cpp:105-184 | with any thief steps in between: true exactly when the operation was accepted, which happens once; always true when there is room without growing, and false only when there is no memory or a thief has the mutex |
| ThreadStates.ThreadState.TryGrow | lib/static_thread_pool.cpp:129-184 | grows if there is memory and the mutex is free, and only gives the operation back if there is no memory or a thief has the mutex; after growing, the buffer has twice the size and the mutex is free again |
| ThreadStates.ThreadState.CopyItems | lib/static_thread_pool.cpp:158-170 | the copy loop puts every live item at its position in the doubled buffer |
| ThreadStates.ThreadState.TrySteal | lib/static_thread_pool.cpp:241-289 | with any steps of the owner in between: returns the operation that the thieves' history then has as stolen; it returns nothing only when the mutex was taken, or at some moment of the call the queue was empty or held one operation that the owner had already lowered head past |
| GlobalQueue.FirstInFirstOut | lib/static_thread_pool.cpp:532-543 | operations leave the global queue in exactly the order in which they were pushed in the run, and those that have not left are still in it |
| GlobalQueue.InvStep | lib/static_thread_pool.cpp:650-685 | every step of pushing, locking, looking, taking and reversing keeps that order |
| GlobalQueue.TakesLongestQueued | lib/static_thread_pool.cpp:650-685 | a call that looks at the queue gives up if and only if everything pushed so far has left, and otherwise takes the operation that has been queued longest |
| GlobalQueue.LookEnds | lib/static_thread_pool.cpp:650-685 | whatever the others push meanwhile, it unlocks the mutex after at most four steps |
| PoolProofs.RunKeepsInv | lib/static_thread_pool.cpp:374-760 | what every state of every run of the pool satisfies |
| PoolProofs.WakeClaimsBacked | lib/static_thread_pool.cpp:723-759 | there are always at least as many raised flags as counted sleepers and outstanding claims, so whoever claimed a wake-up has a flag left to find |
| PoolProofs.GlobalQueueNeverStalls | lib/static_thread_pool.cpp:454-490 | when every worker is blocked and no wake-up is under way, the global queue is empty, and a deque can only hold what its owner missed |
| PoolProofs.NothingStranded | lib/static_thread_pool.cpp:521-543 | with one worker, or when only outside threads schedule, nothing at all is left when every worker sleeps |
| PoolConservation.Conservation | lib/static_thread_pool.cpp:374-760 | in every run every operation scheduled, by workers or from outside, is exactly one of: with a client that has yet to push it, on the way into a deque or refused by one, in the global queue, in a deque or won but not yet read, in a worker's hand, or resumed |
| PoolConservation.ResumedOrInADeque | lib/static_thread_pool.cpp:454-490 | when every worker sleeps and no client is under way, everything scheduled has been resumed as often as it was scheduled, or is in a deque |
| PoolConservation.AllResumedOnce | lib/static_thread_pool.cpp:521-543 | with one worker, or when only outside threads schedule, it has all been resumed exactly as often as it was scheduled |
| PoolSearch.SearchIsComplete | lib/static_thread_pool.cpp:650-721 | a search for work comes back with nothing only after a moment at which the global queue was empty and, for every other deque, a moment at which there was nothing a thief could take |
| PoolSearch.SearchEndsBy | lib/static_thread_pool.cpp:396-490 | a search made on the way to sleep ends in sleep or in the withdrawal of the intent to sleep, any other in spinning or in resuming what was found |
| PoolSearch.CheckIsComplete | lib/static_thread_pool.cpp:545-567 | so does the last check before a worker sleeps |
| PoolSearch.CheckExact | lib/static_thread_pool.cpp:545-567 | that check sends a worker searching if and only if there is something where it looks: in the stack of new operations, in the list, or something a thief could take in the deque |
| PoolSearch.ScheduleWakes | lib/static_thread_pool.cpp:521-530 | a worker that has scheduled an operation goes on only when it has found nobody counted as sleeping or set somebody's event |
| PoolSearch.ClientWakes | lib/static_thread_pool.cpp:521-543 | so does a thread outside the pool, and its operation is in the global queue by then |
| PoolSearch.ClearsBeforeStarting | lib/static_thread_pool.cpp:615-648 | a worker that found work while it intended to sleep starts it only when nobody was counted as sleeping, its own flag is down, or it has set an event in place of its own wake-up |
| PoolSearch.SignalsWhomItLowered | lib/static_thread_pool.cpp:615-648 | a step of a worker lowers a raised flag if and only if the worker is then about to set the event of the same worker |
| PoolProgress.WorkerGetsToRest | lib/static_thread_pool.cpp:374-497 | a worker left alone runs a coroutine, spins or sleeps after a bounded number of steps: its pops, searches, checks and wake-ups all end |
| PoolProgress.ClientGetsDone | lib/static_thread_pool.cpp:521-543 | a thread that schedules from outside, left alone, is done after a bounded number of steps; its search for a sleeper finds one |
| PoolBlocking.RunKeepsFits | lib/static_thread_pool.cpp:105-289 | in every run the owner of a deque is inside a push or a pop exactly while its worker's code is, and a worker inside a deque holds its mutex |
| PoolBlocking.BlockedExact | lib/static_thread_pool.cpp:374-760 | a worker cannot move if and only if it is at a mutex that is held or at its event while that is not set |
| PoolBlocking.NoDeadlock | lib/static_thread_pool.cpp:374-760 | in every state of every run some thread can move, unless all workers wait for their events and no thread outside has anything left to do |
| PoolStall.LocalOperationStranded | lib/static_thread_pool.cpp:186-195 | for every pool of two or more workers, a run that ends with all asleep, no wake-up left to do and an operation in a deque |
| PoolStall.NeverStrandsExact | lib/static_thread_pool.cpp:374-497 | no run of a pool ever ends with all workers asleep and an operation queued, if and only if the pool has one worker |
| SequenceBarrier.InvStep | include/cppcoro/sequence_barrier.hpp:308-467 | every step of publish, add_awaiter, resume and await_suspend keeps the lists, the flags and the watch over the list |
| SequenceBarrier.NoLostWakeUp | include/cppcoro/sequence_barrier.hpp:308-467 | when no thread is mid-operation, every wait is either queued with a target beyond what is published, and suspended, or has been continued exactly once |
| SequenceBarrierCalls.TargetsAre | include/cppcoro/sequence_barrier.hpp:138-162 | the waits of a run are those that were called, each for its own target, and what is published is what publish was last called with |
| SequenceBarrierCalls.ReadyExact | include/cppcoro/sequence_barrier.hpp:159-162 | a wait is ready at once if and only if its target is already published |
| SequenceBarrierCalls.WaitReturnsItsTarget | include/cppcoro/sequence_barrier.hpp:159-187 | a wait that was called for t and continued has got a number published during the wait that is at least t; when no thread is mid-operation, it has been continued if and only if t is published |
| SequenceBarrierCalls.WaitEnds | include/cppcoro/sequence_barrier.hpp:367-467 | a wait left alone ends or is suspended after a bounded number of steps, whatever it finds in the list |
| SequenceBarrierCalls.PublishEnds | include/cppcoro/sequence_barrier.hpp:308-365 | publish, left alone, returns after a bounded number of steps |
| SequenceBarrierCalls.NeverStuck | include/cppcoro/sequence_barrier.hpp:138-467 | no thread inside the barrier is stuck: each can take its next step, except a suspended wait |
| BarrierWords.PublishSplit | include/cppcoro/sequence_barrier.hpp:333-361 | on wrapping words the test of publish splits the list as on unbounded numbers |
| BarrierWords.AddSplit | include/cppcoro/sequence_barrier.hpp:428-454 | so does the test of add_awaiter |
| BarrierWords.EarliestOnWords | include/cppcoro/sequence_barrier.hpp:428-454 | the least word difference gives the earliest target |
| BarrierWords.StepRefines | include/cppcoro/sequence_barrier.hpp:138-467 | one step of the barrier on words is the image of the step on unbounded numbers |
| BarrierWords.WordsSimulateNumbers | include/cppcoro/sequence_barrier.hpp:138-467 | the images of any run on unbounded numbers form a run on words, while published and awaited numbers stay within half the range of those in use |
| BarrierWords.WordRunsAreImages | include/cppcoro/sequence_barrier.hpp:138-467 | every run of the barrier on words is the image of a run on unbounded numbers, under the same promise of its callers |
| SequenceBarrier.SplitFacts | include/cppcoro/sequence_barrier.hpp:333-361 | the split separates what must wait from what is reached and loses nobody |
| Waiters.MinTargetIsLeast | include/cppcoro/sequence_barrier.hpp:428-454 | the new target of add_awaiter is the least of the requeued targets |
| IntrusiveList.ReverseOnto | lib/async_auto_reset_event.cpp:165-171 | the pointer loop turns the stack around in place, in front of another list |
| IntrusiveList.Split | include/cppcoro/sequence_barrier.hpp:333-361 | the tail-pointer loop leaves two null-terminated lists with the members that must wait and those that are reached, in order, and the earliest target still waited for |
| IntrusiveList.SplitIsBeyondAndReached | include/cppcoro/sequence_barrier.hpp:333-361 | those lists are the ones the machine of SequenceBarrier uses |
| IntrusiveList.EarliestIsMinTarget | include/cppcoro/sequence_barrier.hpp:428-454 | so is the earliest target |
| MultiProducer.RingStep | include/cppcoro/multi_producer_sequencer.hpp:183-247 | every step keeps claims consecutive, granted numbers within one lap of what is consumed, and each slot holding the newest stored number of its class |
| MultiProducerCalls.ClaimsBackToBack | include/cppcoro/multi_producer_sequencer.hpp:218-247 | over a run, each claim gets as many numbers as it asks for or the ring has, starting where the claim before it ends, and the next number to claim is the first one plus the sum of these |
| MultiProducerCalls.ClaimKeepsItsNumbers | include/cppcoro/multi_producer_sequencer.hpp:305-312 | a claim gets the numbers from the next one on, at least one if it asks for any, and keeps them |
| MultiProducerCalls.ClaimedExactlyOnce | include/cppcoro/multi_producer_sequencer.hpp:234-312 | a number has been handed out if and only if it belongs to a claim, and then to exactly one |
| MultiProducerCalls.GrantExact | include/cppcoro/multi_producer_sequencer.hpp:183-220 | a claim is granted if and only if its last number is at most one lap ahead of what is consumed, and then all its numbers may be published |
| MultiProducerCalls.StoredExact | include/cppcoro/multi_producer_sequencer.hpp:573-602 | a number is handed to publish at most once, and is stored if and only if that call has stored it: when the call has done its stores, all of its range is |
| MultiProducerCalls.StoredOnlyIfPublished | include/cppcoro/multi_producer_sequencer.hpp:573-602 | a number claimed in the run is stored only if publish was called with it |
| MultiProducerCalls.ConsumedIs | include/cppcoro/multi_producer_sequencer.hpp:183-200 | what a claim waits for is what the consumer last published to its barrier |
| MultiProducerCalls.PublishEnds | include/cppcoro/multi_producer_sequencer.hpp:573-700 | publish, left alone, returns after a bounded number of steps: its scans, requeues and rechecks end |
| MultiProducer.SlotTestExact | include/cppcoro/multi_producer_sequencer.hpp:523-533 | for a number not yet consumed, the slot test tells exactly whether the number is stored, despite reuse of slots |
| MultiProducer.StoredChanges | include/cppcoro/multi_producer_sequencer.hpp:573-602 | a number becomes stored only by the one step that stores it |
| MultiProducerProofs.InvStep | include/cppcoro/multi_producer_sequencer.hpp:573-826 | every step of every producer and of the consumer keeps the ring, the place of the wait operation, the flag handshake and the watch over the list |
| MultiProducerProofs.SlotsExclusive | include/cppcoro/multi_producer_sequencer.hpp:183-247 | granted ranges never overlap, and two granted numbers not yet consumed never share a slot |
| MultiProducerProofs.ResumedOnlyWhenPublished | include/cppcoro/multi_producer_sequencer.hpp:350-379 | the consumer continues once per wait, only while suspended or by its own step, with a number that reaches its target and up to which everything is published |
| MultiProducerProofs.NoLostWakeUp | include/cppcoro/multi_producer_sequencer.hpp:605-826 | when no thread is mid-operation, a waiting consumer is queued and some number up to its target is not published |
| MultiProducerCalls.WaitReturnsItsTarget | include/cppcoro/multi_producer_sequencer.hpp:338-379 | a wait that was called for t waits for t, ends at once if and only if what its caller knows reaches t, and returns a number of at least t up to which everything is published; when no thread is mid-operation it has ended unless something up to t is missing |
| MultiProducerCalls.WaitEnds | include/cppcoro/multi_producer_sequencer.hpp:712-826 | a wait left alone ends or is suspended after a bounded number of steps |
| MultiProducerProofs.ScanExact | include/cppcoro/multi_producer_sequencer.hpp:523-533 | a scan stops exactly at the end of the contiguous published run, at most one ring past what is consumed, and never strictly inside a published range |
| MultiProducerProofs.RangesWhole | include/cppcoro/multi_producer_sequencer.hpp:582-602 | a range whose front is visible is visible as a whole |
| SequencerWords.StepRefines | include/cppcoro/multi_producer_sequencer.hpp:493-826 | one step on words is the image of the step on unbounded numbers |
| SequencerWords.WordsSimulateNumbers | include/cppcoro/multi_producer_sequencer.hpp:493-826 | the images of any run on unbounded numbers form a run on wrapping words, while the callers' numbers stay within half the range of each other |
| SequencerWords.WordRunsAreImages | include/cppcoro/multi_producer_sequencer.hpp:493-826 | every run of the code on wrapping words is the image of a run on unbounded numbers, while the callers' numbers are what they promise and stay close |
| Sequencers.RangeExact | include/cppcoro/sequence_range.hpp:71-97 | size, first, skip, back and empty of a range of words are those of its numbers, also across the wrap |
| Sequencers.MultiProducerSequencer.constructor | include/cppcoro/multi_producer_sequencer.hpp:493-520 | the constructor loop puts into each slot the number one lap before the first claim |
| Sequencers.MultiProducerSequencer.LastPublishedAfter | include/cppcoro/multi_producer_sequencer.hpp:523-533 | for any contents of the ring: stops after at most one test per slot, at the end of the run |
| Sequencers.MultiProducerSequencer.Publish | include/cppcoro/multi_producer_sequencer.hpp:582-602 | stores the range, the front last and the rest before it in order, and touches no other slot |
| Sequencers.FullLap | include/cppcoro/multi_producer_sequencer.hpp:523-533 | a run of matches cannot be longer than the ring |
| Sequencers.SingleProducerSequencer.Ready | include/cppcoro/single_producer_sequencer.hpp:148-162 | a claim's wait for one lap before its number ends exactly when the number is within one lap of what is known to be consumed |
| Sequencers.SingleProducerSequencer.ClaimOne | include/cppcoro/single_producer_sequencer.hpp:168-171 | grants the next number, in a slot that none of the claimed numbers not known to be consumed has |
| Sequencers.SingleProducerSequencer.ClaimUpTo | include/cppcoro/single_producer_sequencer.hpp:207-217 | grants all that was asked for or all that is free, at least one and at most the whole ring for any count of at least one, every number in a slot of its own |
| Sequencers.SingleProducerSequencer.Exclusive | include/cppcoro/single_producer_sequencer.hpp:168-217 | claimed numbers not known to be consumed never share a slot |
| AutoResetEvent.TakeBoth | lib/async_auto_reset_event.cpp:187-199 | taking the same count from both fields of the packed word never borrows |
| AutoResetEvent.InvStep | lib/async_auto_reset_event.cpp:52-285 | every step of co_await, set, reset and resume_waiters keeps the counts, the lock, the queue, the signals and the references |
| AutoResetEvent.ImplicitLock | lib/async_auto_reset_event.cpp:74-199 | never more than one signal without a waiter, and exactly one thread is in the dequeue loop if and only if there is a signal for a waiter |
| AutoResetEvent.NeverBorrows | lib/async_auto_reset_event.cpp:187-199 | the subtraction at the end of each round changes each field by the waiters taken |
| AutoResetEvent.NeverRunsOut | lib/async_auto_reset_event.cpp:134-163 | the dequeue loop always finds the waiters it wants, even one that is not yet counted |
| AutoResetEvent.FifoAndConserved | lib/async_auto_reset_event.cpp:134-199 | waiters leave in the order of their pushes, and every signal is still there, was taken without waiting, was reset, or went to one waiter |
| AutoResetEvent.ResumedOnce | lib/async_auto_reset_event.cpp:201-285 | a queued coroutine goes on at most once, when both of its two references are gone |
| AutoResetEvent.NoLostSignal | lib/async_auto_reset_event.cpp:243-285 | when no call is under way a set event has nobody queued, and every suspended coroutine is queued |
| AutoResetEventCalls.SetExact | lib/async_auto_reset_event.cpp:74-101 | set returns without doing anything if and only if it finds the event set; otherwise it adds one signal, unless the word has changed since it was loaded, and must resume somebody if and only if it is the only signal and there is a waiter |
| AutoResetEventCalls.ResetExact | lib/async_auto_reset_event.cpp:103-120 | reset returns without doing anything if and only if it finds the event not set; otherwise it takes one signal, unless the word has changed since it was loaded |
| AutoResetEventCalls.AwaitExact | lib/async_auto_reset_event.cpp:52-72 | co_await goes on without waiting if and only if it finds the event set and the word does not change before it takes the signal |
| AutoResetEventCalls.CallsAccounted | lib/async_auto_reset_event.cpp:52-120 | over a run: the calls of set are those that added a signal, found the event set, or have not come to that; likewise for reset, and for co_await, which takes a signal or queues |
| AutoResetEventCalls.SignalsOfCalls | lib/async_auto_reset_event.cpp:52-285 | when no call is under way, the calls of set that did not find the event set are matched by the signal that is still there, the calls of co_await that did not queue, the calls of reset that took one, and the queued operations resumed, each exactly once and in order |
| AutoResetEventCalls.SetLeavesSet | lib/async_auto_reset_event.cpp:74-101 | if nobody waits and from then on only set is called, the event is set, with one signal, once one of these calls has returned |
| AutoResetEventCalls.CallEnds | lib/async_auto_reset_event.cpp:52-285 | every call left alone ends or is suspended after a bounded number of steps; the dequeue loop goes around only while there are signals and waiters to match |
| AutoResetEventCalls.NeverStuck | lib/async_auto_reset_event.cpp:52-285 | no call is stuck: each can take its next step, except a suspended coroutine |
| AsyncMutex.InvStep | lib/async_mutex.cpp:22-122 | every step of try_lock, lock and unlock keeps one owner and the order of the queue |
| AsyncMutex.MutualExclusion | lib/async_mutex.cpp:22-31 | at most one holder; the word is locked exactly while there is one; a free mutex has nobody waiting |
| AsyncMutex.HandedInOrder | lib/async_mutex.cpp:43-122 | queued operations get the lock in exactly the order of their pushes, across the reversal |
| AsyncMutex.NoBarging | lib/async_mutex.cpp:43-91 | no step of an unlock with somebody queued frees the lock: each hands it to the one who has waited longest or goes on towards the step that does |
| AsyncMutex.HandedToLongestWaiting | lib/async_mutex.cpp:43-91 | only queued operations are handed the lock, the one who has waited longest first |
| AsyncMutex.TryLockExact | lib/async_mutex.cpp:22-31 | try_lock gets the lock if and only if the mutex is free, and otherwise changes nothing |
| AsyncMutex.LockExact | lib/async_mutex.cpp:88-122 | lock_async, once its swap finds the word as it was last looked at, gets the lock if the mutex is free and is queued last if not |
| AsyncMutex.UnlockExact | lib/async_mutex.cpp:43-62 | unlock with nobody queued frees the mutex, unless somebody queues between its two steps |
| AsyncMutex.CallsFit | lib/async_mutex.cpp:22-122 | over a run there is one thread for each call, a try_lock never waits, and a lock_async never fails |
| AsyncMutex.CallEnds | lib/async_mutex.cpp:22-122 | a call left alone ends or is queued after at most two steps |
| Cancellation.InvStep | lib/cancellation_state.cpp:410-619 | every step of registering, walking and deregistering keeps slots and registrations in agreement and nothing behind the walk |
| Cancellation.NothingPassed | lib/cancellation_state.cpp:441-487 | the walk over lists, chunks and entries passes no registration that is in its slot |
| Cancellation.CalledExactlyOnce | lib/cancellation_state.cpp:429-568 | a callback runs at most once, only after a request, and exactly once for every living registration when the first call of request_cancellation has returned |
| Cancellation.WaitEnds | lib/cancellation_state.cpp:429-490 | a destructor that waits for the notification to complete finds the flag set once that call has returned, though a call that finds no registration state does not set it |
| Cancellation.EverySlotStillVisited | lib/cancellation_state.cpp:525-567 | a registered callback that has not run is in its slot with the walk still to come there |
| Cancellation.NeverCalledAfterDestruction | lib/cancellation_registration.cpp:12-19 | after the destructor the callback is never started again, and off the notifying thread it is not running either |
| Cancellation.CallsMade | lib/cancellation_registration.cpp:21-41 | over a run, the registrations are those that were constructed, cancellable or not as their tokens were, and cancellation is requested from the first call of request_cancellation on |
| Cancellation.CallsAreStarts | lib/cancellation_state.cpp:441-487 | a callback is counted as called at exactly the moments at which it starts to run |
| Cancellation.DestroyExact | lib/cancellation_registration.cpp:12-19 | a destructor takes out a callback that has not been started, which then never runs; on the notifying thread it never waits; otherwise it waits exactly until the notification is complete |
| Cancellation.RegEnds | lib/cancellation_state.cpp:493-619 | a constructor or destructor takes at most seven steps besides finding a slot and waiting for the notification |
| Cancellation.RequestEnds | lib/cancellation_state.cpp:429-490 | the notifying call, left alone while callbacks return, goes through the whole table and returns |
| Cancellation.NeverStuck | lib/cancellation_state.cpp:174-619 | no constructor or destructor is stuck: one that looks for a slot can always make one |
| AsyncGenerator.InvStep | include/cppcoro/async_generator.hpp:597-789 | every step of producer and consumer keeps their positions compatible with the state, and the items in order |
| AsyncGenerator.DeliveredInOrder | include/cppcoro/async_generator.hpp:597-789 | every yielded item is delivered once and in order |
| AsyncGenerator.CurrentValueStable | include/cppcoro/async_generator.hpp:813-826 | a delivered value stays in m_currentValue until the consumer asks for the next |
| AsyncGenerator.ResumedOnlyWhenSuspended | include/cppcoro/async_generator.hpp:597-789 | neither coroutine is resumed unless it is suspended where it can be |
| AsyncGenerator.DestroyedOnce | include/cppcoro/async_generator.hpp:1000-1009 | the producer's frame is destroyed at most once and does not leak |
| AsyncGenerator.GoneForGood | include/cppcoro/async_generator.hpp:501-514 | after the generator is destroyed nothing is delivered and a destroyed producer stays so |
| AsyncGenerator.NoDeadlock | include/cppcoro/async_generator.hpp:627-699 | producer and consumer are never both suspended waiting for each other |
| AsyncGenerator.EveryAdvanceAnswered | include/cppcoro/async_generator.hpp:597-789 | the items delivered are those that the body yielded, in order, and as many as begin() or ++ were called, save for the one being waited for |
| AsyncGenerator.YieldEnds | include/cppcoro/async_generator.hpp:597-699 | in every interleaving the producer is back in its body, suspended or destroyed after at most nine steps of its own |
| AsyncGenerator.AdvanceEnds | include/cppcoro/async_generator.hpp:701-789 | and the consumer has its operation, its item, is suspended or is done after at most five |
| AsyncGenerator.AssertionsHold | include/cppcoro/async_generator.hpp:501-789 | every assertion in this code holds in every interleaving |
| RecursiveGenerators.CostIs | include/cppcoro/recursive_generator.hpp:76-121 | the bound on resumptions is values plus twice generators less one |
| RecursiveGenerators.YieldGenerator | include/cppcoro/recursive_generator.hpp:76-121 | links the child in and resumes it: its first value is out and the chain stands, or it was empty and the parent goes on |
| RecursiveGenerators.Pull | include/cppcoro/recursive_generator.hpp:152-164 | resumes the innermost generator and pops the completed ones until the next value of the flattened sequence is out |
| RecursiveGenerators.Iterate | include/cppcoro/recursive_generator.hpp:255-307 | a full iteration yields the flattening of the tree with at most values + 2 * generators - 1 resumptions, however deep |
| Ipv6.ParseExact | lib/ipv6_address.cpp:52-267 | from_string gives an address if and only if the string is one of its text forms (RFC 4291 section 2.2): groups, at most one "::", and perhaps four decimal bytes at the end |
| Ipv6.OverrunExact | lib/ipv6_address.cpp:164-168 | the exact strings for which the parser reads past the end |
| Ipv6.ScanToGap | lib/ipv6_address.cpp:79-228 | groups up to a "::" and after it are read in one pass, with the place of the gap |
| Ipv6.ScanMixed | lib/ipv6_address.cpp:121-211 | groups followed by dotted decimal notation are read in one pass |
| Ipv6.ScanSound | lib/ipv6_address.cpp:79-228 | whatever the main loop reads to the end is such a list of groups, perhaps with dotted decimal notation at the end |
| Ipv6Parser.FromString | lib/ipv6_address.cpp:52-267 | the loops compute that parse: an address exactly for its text forms |
| Ipv6Parser.ReadQuad | lib/ipv6_address.cpp:121-211 | the dotted-decimal branch: four numbers below 256 without leading zeros become two parts |
| Ipv6Parser.Spread | lib/ipv6_address.cpp:243-260 | the in-place loops move the parts after the gap to the end and fill it with zeros |
| Ipv6Text.FindRun | lib/ipv6_address.cpp:272-296 | the scan finds the first of the longest zero runs |
| Ipv6Text.AppendPart | lib/ipv6_address.cpp:303-322 | a part is written with its shortest digits |
| Ipv6Text.ToString | lib/ipv6_address.cpp:270-362 | to_string writes the canonical text (RFC 5952 section 4), which fits the buffer of forty characters and which from_string reads back as the same address |
| Ipv6Text.CanonicalUnique | lib/ipv6_address.cpp:270-362 | an address has only one canonical text |
| Ipv6Text.RoundTrip | lib/ipv6_address.cpp:52-362 | the canonical text is read back as the same address |

## Left out

- Memory orders: atomic accesses are sequentially consistent, one access a step; spurious failures of a weak compare-and-swap change nothing and are not steps.
- Allocation failure, exceptions of schedulers and of generator bodies, and storage lifetime: resuming a coroutine is an event.
- MultiProducerCalls.PublishEnds: in a recheck that takes a stale slot for a match, as only wrapped words allow, the call goes around again, so such steps are not counted.
- Shutdown of the pool, which clears sleep flags without a claim, and the spin delays between attempts to steal.
- MultiProducer.RingStep: the barrier wait of a claim is one comparison with what the consumer has published, which is what SequenceBarrierCalls.WaitReturnsItsTarget gives; with several waiting consumers add_awaiter tests only the caller's target (include/cppcoro/multi_producer_sequencer.hpp:786), so one consumer is modelled.
- SequenceBarrier.InvStep: the publisher's numbers do not decrease, as its callers promise; with more than one publisher the barrier promises nothing.
- `any_available`, which is declared approximate.
- AutoResetEvent.InvStep: there are always fewer than 2^32 - 1 counted waiters.
- Cancellation.InvStep: any free slot may be claimed, any absent list started, any list grown; the search order and the approximate free counts are heuristics that decide only which. Reference counts of the shared state are left out.
- AsyncGenerator.InvStep: a call of resume() may return at any time after it started the other coroutine; values are numbers, and an exception that ends the producer is an end.
- RecursiveGenerators.Iterate: bodies are finite trees; a moved-from generator yields nothing.
- The other types of the library (tasks, latches, scopes, manual-reset events, plain generators, I/O, IPv4): smaller versions of the same patterns, type plumbing, or calls into the operating system.
