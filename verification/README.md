# Evenk: the concurrent protocols

Evenk is a C++ library of queues, locks and a thread pool.  This project models five of its
protocols as state machines over any number of threads, and proves what they promise in every
interleaving.

| component | source | files |
|---|---|---|
| the ticket ring, a bounded queue without locks | `evenk/bounded_queue.h` | `spin_ring*`, `second_close`, `futex_ring*`, `tokens`, `ring_bounds`, `ring_near`, `ring32*`, `ring_wrap`, `ring_outcomes`, `ring_history`, `ring_calls`, `ring_returns`, `ring_solo`, `ring_sleep`, `bounded_queue` |
| the reader/writer ticket lock packed in one word | `evenk/spinlock.h` | `ticket_lock*`, `ticket_words*`, `ticket_try`, `ticket_solo`, `shared_ticket_lock` |
| the futex lock and its condition variable | `evenk/synch.h` | `synch`, `synch_inv`, `synch_theorems`, `synch_words`, `synch_wrap`, `synch_solo`, `futex_synch` |
| the monitor queue | `evenk/synch_queue.h` | `monitor_queue*`, `split_queue*`, `queue_progress`, `queue_account`, `queue_solo`, `synch_queue` |
| what a queue is, for the ring and the monitor queue | `evenk/conqueue.h` | `queue_spec` |
| the thread pool | `evenk/thread_pool.h` | `thread_pool*`, `queued_pool*`, `worker_pool` |

## How the models are built

A state holds the shared variables, one program counter per thread, and a history: what became of
each ticket or task, who owns the lock, which notifications have returned.  An event lets one
thread make its next atomic access.  A run is any finite list of events, so the schedule is
arbitrary, and so are the sleeper that the kernel picks, the result of every backoff policy, every
weak compare-exchange, every spurious wake-up and every exception of a value assignment.  A
theorem about `Reachable` states holds after every run from the initial state.  Memory is
sequentially consistent.

Each component is built in layers, and each layer is proved to refine the one before it.

- The ring: `SpinRing` has unbounded counters and spinning slots.  `FutexRing` adds the waiting and
  closed bits, the sleeping threads and the slot loop of `close()`.  `Ring32` has the 32-bit words of
  the source; its premise is `Fits`.  The calls of the ring, each at the access in which it takes
  effect, are a legal history of a sequential queue (`RingHistory`, `RingCalls`, `RingReturns`), and
  what became of each ticket is decided by the exceptions thrown in the run and by nothing else
  (`RingOutcomes`).
- The ticket lock: pairs of unbounded counters, then one packed word.
- The lock and the condition variable: unbounded notification numbers, then the object
  `FutexSynch.Monitor` with 32-bit words and 32-bit snapshots.  What it promises of the lock needs no
  premise; for the condition the premise is that no thread goes to sleep 2^32 or more notifications
  after its snapshot.
- The monitor queue: `MonitorQueue` has critical sections of one step.  `SplitQueue` makes every test
  of the flag, every test and change of the deque a step of its own, and refines it because of the
  lock, so that the theorems about `MonitorQueue` hold of it.  The calls that take effect are a legal
  history of a sequential queue.
- The thread pool: `ThreadPool` has an atomic queue that never makes anybody sleep.  `QueuedPool` has
  the split queue in its place, with workers blocked in `wait_pop`, and refines it.  Every `submit()`
  of a run is accounted for (`QueuedPoolCalls`), and so is every call of `stop()` (`QueuedPoolStop`).

Safety alone would be met by operations that always fail or never return.  So the modules named
`...Solo` and `RingSleep` state what each operation achieves: exactly when the lock is taken, the value
handed over, the call refused, the thread put to sleep or woken.  There a thread makes its accesses
from any state of the invariant, with the other threads stopped wherever they are; where a result
holds with the others in between, it is stated so.

For every component there is a class whose fields are updated in place, with one method per access,
proved against the step function or the unbounded machine (`BoundedQueue.Ring`,
`SharedTicketLock.Lock`, `FutexSynch.Monitor`, `SynchQueue.Queue`, `WorkerPool.Pool`).  The pool object
runs on the queue object, and that on the monitor object.

## What the code does not promise as written

- `close()` of the ring is meant to be guarded against a second call, but the guard compares with a
  value that is never stored.  It always passes (`GuardPasses`).  A second `close()` moves `last_` past
  the tickets that the first one jumped over, and a consumer that holds one of them and was not
  refused before is never served and never refused, in any later run (`SecondCloseStrands`,
  `NextConsumerStranded`).  From the empty ring two calls of `close()` and one of `wait_pop()` are
  enough (`TwoClosesStrand`).  All other theorems about the ring are for one `close()` per run, which is
  what the thread pool makes.
- The comment at `is_past_last` says that the check goes wrong after 2^31 calls.  The last distance
  at which it is right is exactly 2^31 (`SignedTestWraps`).  From the empty ring, `close()` and 2^31 + 1
  refused consumers lead to one more that falls asleep with nobody left to wake it
  (`WrappedConsumerSleeps`); with unbounded counters the same accesses refuse it
  (`UnboundedConsumerLeaves`).
- The test of the shared ticket lock asks for fewer than 16 threads on an 8-bit word.  The exact
  bound for the blocking operations is 16: up to `2^half` threads the lock is safe, with one more it is
  not (`SafeExactly`).
- `try_lock` of the shared ticket lock reads head and tail at different times.  That fewer than
  `2^half` tickets of each kind are issued in between does not make it safe: for every word width and
  any two threads there is such a run that ends with two writers (`TryLosesLock`), and with all six
  operations only a single thread is safe in all runs (`SafeAloneOnly`).  `TryTestsWrong` says exactly
  when a test passes wrongly; as long as the tail is less than `2^half` per kind away from the loaded
  head it never does, and a writer is alone (`MixedWriterAlone`).
- The condition variable compares a 32-bit snapshot.  A waiter sleeps through notifications exactly
  when a positive multiple of 2^32 of them came in between (`SleepsOvertaken`), and for every such
  multiple there is a run from the start that ends with the waiter asleep behind that many calls of
  `notify_all` that have returned (`OvertakenSleeps`).
- `wait()` of the thread pool returns with every accepted task run, except that a pool of no threads
  runs nothing (`QueuedWaitRunsEverything` is an equivalence).

## Model

| member | source | states |
|---|---|---|
| `SpinRingInv.InitInv` | evenk/bounded_queue.h:258-262 | slot i of a new ring waits for ticket i, and no ticket is out |
| `SpinRingInv.StepInv` | evenk/bounded_queue.h:280-578 | every access of every thread keeps the ring invariant: a slot stands for the tickets of its residue class, each pending ticket has one holder, the gap left by close() is never published |
| `SpinRingInv.WakePushCore` | evenk/bounded_queue.h:613-654 | publishing a slot, with a value or as invalid after a throw, keeps the invariant |
| `SpinRingInv.WakePopCore` | evenk/bounded_queue.h:656-677 | passing a slot on to ticket c + size keeps the invariant |
| `SpinRingInv.CutTailCore` | evenk/bounded_queue.h:292-293 | the jump of the tail by size keeps the invariant |
| `SpinRingTheorems.RunLedger` | evenk/bounded_queue.h:366-415 | in every run a settled ticket is never stored, delivered, skipped or refused again |
| `SpinRingTheorems.DeliveredInOrder` | evenk/bounded_queue.h:366-415 | the values given to the first k tickets are, in ticket order, the values stored under them |
| `RingOutcomes.OutcomesExact` | evenk/bounded_queue.h:613-677 | in every run the producer of ticket c threw, or will publish it as invalid, exactly when the assignment of its value threw in the run; the consumer lost its value exactly when the move out of the slot threw |
| `RingOutcomes.TicketsAgree` | evenk/bounded_queue.h:396-415 | a consumer that is done with ticket c skipped it exactly when the assignment under c threw in the run; otherwise it got the value stored under c, and lost it exactly when its own move threw |
| `SpinRingTheorems.ExclusiveValue` | evenk/bounded_queue.h:613-677 | no two threads are ever inside the value of one slot |
| `SpinRingTheorems.NothingPastLast` | evenk/bounded_queue.h:292-293 | no ticket from last_ on is ever published, and its slot never gets past the gap |
| `SpinRingTheorems.CleanCut` | evenk/bounded_queue.h:280-303 | after the cut only tickets below last_ are stored or delivered, and only others are refused |
| `SpinRingTheorems.NoRefusalBeforeClose` | evenk/bounded_queue.h:526-531 | nothing is refused before closed_ is stored |
| `SpinRingTheorems.RefusedPopMeansHandedOut` | evenk/bounded_queue.h:562-578 | once a consumer is refused, every ticket below last_ has been handed to a consumer, and an unfinished one is in the hands of a thread |
| `SpinRingTheorems.GuardPasses` | evenk/bounded_queue.h:284-290 | the guard of close() never stops anybody |
| `SecondClose.StepAgainCore` | evenk/bounded_queue.h:280-303 | every access keeps the slots, tickets and owners of the ring consistent, however often close() is called |
| `SecondClose.SkippedForGood` | evenk/bounded_queue.h:287-296 | once last_ has moved past a ticket that a close() jumped over, no run serves or refuses that ticket |
| `SecondClose.SecondCutMovesLast` | evenk/bounded_queue.h:287-293 | a second close() by an idle thread moves last_ past every ticket of the first gap |
| `SecondClose.SecondCloseStrands` | evenk/bounded_queue.h:287-296 | after it, the consumer of such a ticket, unless refused before, waits forever: the ticket is never published, never past last_, never settled |
| `SecondClose.NextConsumerStranded` | evenk/bounded_queue.h:396-403 | a consumer that comes when the head stands at such a ticket gets it and is stranded |
| `SecondClose.TwoClosesStrand` | evenk/bounded_queue.h:280-303 | from the empty ring, two calls of close() and one consumer: it holds ticket 0, is neither served nor refused, and stays so in every continuation |
| `SpinRingTheorems.SlotServed` | evenk/bounded_queue.h:533-578 | when no thread can move, no slot waits for a ticket that is still out below the limit |
| `SpinRingTheorems.StuckConsumer` | evenk/bounded_queue.h:562-578 | when no thread can move, a waiting consumer holds a ticket at or past the tail, or past the cut |
| `SpinRingTheorems.StuckProducer` | evenk/bounded_queue.h:533-542 | when no thread can move, a waiting producer holds a ticket at or past head + size, or past the cut |
| `RingHistory.StepFollows` | evenk/bounded_queue.h:280-415 | each access lets the calls that it completes take effect as in a sequential queue: a push at its fetch_add, a pop at the later of the two fetch_adds of its ticket, close() at the jump of the tail with the waiting consumers after it |
| `RingHistory.RunFollows` | evenk/bounded_queue.h:280-415 | the same for runs from any state of the invariant, for any set of tickets known to hold all whose producer throws |
| `RingHistory.RingLinearizable` | evenk/bounded_queue.h:258-415 | in every run from the empty ring the calls in this order, without exactly those for the tickets whose assignment threw in the run, are a legal history of a sequential queue that ends with what the ring holds |
| `RingHistory.AllKept` | evenk/bounded_queue.h:366-415 | if no assignment throws, no call is left out of the history |
| `RingCalls.MarksFresh` | evenk/bounded_queue.h:366-415 | a call takes effect while it holds its ticket, between its fetch_add and its return |
| `RingCalls.RunTold` | evenk/bounded_queue.h:366-415 | in every run from the empty ring what a call returns is what the history says: its ticket is pending at the end, or settled with that result; a value was taken, lost or skipped as the exceptions of the run decide |
| `RingCalls.EveryCallOnce` | evenk/bounded_queue.h:258-415 | the history has one place for each ticket taken by a producer and for each consumer served or turned away, both in ticket order and with the result returned |
| `RingReturns.PushTakesEffectOnce` | evenk/bounded_queue.h:366-378 | in every run, from the start of a push() to its return, the history has exactly one call of its thread: the push of its value, accepted with the value stored or refused; none if its assignment threw |
| `RingReturns.PopTakesEffectOnce` | evenk/bounded_queue.h:396-415 | in every run, from the start of a wait_pop() to its return, the history has exactly one call of its thread, with the value delivered or the refusal returned; it never returns with a skipped ticket |
| `RingReturns.ThrownExact` | evenk/bounded_queue.h:621-631 | in every run from the empty ring the tickets that the two rows above leave out of the history are exactly those whose assignment throws in the run |
| `RingReturns.SkippedGoesOn` | evenk/bounded_queue.h:396-410 | a consumer that finds an invalid slot does not return: with any accesses of others in between, after its next access the ticket is settled as skipped and after the one that follows it holds the next free ticket |
| `RingReturns.CloseReturned` | evenk/bounded_queue.h:280-303 | in every run, when close() has returned closed_ is stored |
| `RingSolo.ProducerFinishes` | evenk/bounded_queue.h:366-378 | a producer whose slot is ready stores its value, or publishes it as invalid if the assignment throws, in three accesses |
| `RingSolo.ConsumerFinishes` | evenk/bounded_queue.h:396-415 | a consumer whose slot is full gets the value stored under its ticket, unless its move throws, in three accesses |
| `RingSolo.ConsumerSkips` | evenk/bounded_queue.h:405-410 | a consumer whose slot is invalid passes it on and takes the next ticket |
| `RingSolo.WaiterRefused` | evenk/bounded_queue.h:533-578 | a thread that would wait with a ticket past the cut is refused in two accesses |
| `RingSolo.WaiterWaits` | evenk/bounded_queue.h:533-578 | otherwise it goes round its wait loop and changes nothing |
| `RingSolo.RoomInIdleRing` | evenk/bounded_queue.h:533-542 | in a ring at rest the slot of the tail is ready exactly when there are fewer than size tickets between head and tail |
| `RingSolo.SequentialPush` | evenk/bounded_queue.h:366-378 | used by one thread at a time, push() with room stores the value |
| `RingSolo.SequentialPop` | evenk/bounded_queue.h:396-415 | and pop() from a ring that is not empty delivers the oldest value |
| `RingSolo.SequentialWait` | evenk/bounded_queue.h:533-578 | push() to a full ring and pop() from an empty one wait |
| `RingSolo.SequentialClose` | evenk/bounded_queue.h:280-303 | close() cuts the tail, stores closed_ and touches no slot and no consumer |
| `RingSolo.SequentialRefusal` | evenk/bounded_queue.h:533-578 | after close() every push() is refused, and every pop() that finds nothing left |
| `FutexRingInv.Refines` | evenk/bounded_queue.h:171-203 | a step of the futex ring is a step of the spinning ring or leaves it alone |
| `FutexRingInv.FutexStepInv` | evenk/bounded_queue.h:171-203 | every access keeps the invariant of waiting and closed bits, loaded words and sleeping threads |
| `FutexRingInv.WaitingBitInv` | evenk/bounded_queue.h:185-195 | setting the waiting bit takes no sleeper's word away from it |
| `FutexRingInv.WakeSlotInv` | evenk/bounded_queue.h:197-202 | the exchange of wake leaves nobody asleep on an old word without a wake on its way |
| `FutexRingInv.ClosedBitInv` | evenk/bounded_queue.h:174-183 | so does the closed bit set by close() |
| `FutexRingTheorems.RunRefines` | evenk/bounded_queue.h:131-203 | every run of the futex ring is a run of the spinning ring in which the same tickets throw |
| `FutexRingTheorems.ReachableRing` | evenk/bounded_queue.h:131-203 | hence all theorems about the spinning ring hold of the futex ring |
| `FutexRingTheorems.NoLostWakeup` | evenk/bounded_queue.h:185-202 | a sleeper's slot has the waiting bit and still fails its test, or a wake of the slot is pending |
| `FutexRingTheorems.CloseFreesSleepers` | evenk/bounded_queue.h:295-303 | after the slot loop of close() a thread with a ticket from last_ on sleeps only if a wake is pending |
| `FutexRingTheorems.SleepingConsumer` | evenk/bounded_queue.h:562-578 | when all are asleep, a sleeping consumer means an empty ring that is not closed |
| `FutexRingTheorems.SleepingProducer` | evenk/bounded_queue.h:533-542 | when all are asleep, a sleeping producer means a full ring, and a ticket before the cut |
| `FutexRingTheorems.FutexOutcomes` | evenk/bounded_queue.h:613-677 | in every run of the futex ring the producer of c threw, and the consumer of c lost its value, exactly when an exception of the run says so |
| `RingSleep.WaiterSleeps` | evenk/bounded_queue.h:185-195 | a thread that has to wait and is not past the cut falls asleep in four accesses of its own |
| `RingSleep.WakesSleepers` | evenk/bounded_queue.h:197-202 | a thread that passes a slot on with the waiting bit set wakes everybody who sleeps on it |
| `RingSleep.SweepFinishes` | evenk/bounded_queue.h:298-302 | the slot loop of close() ends, whatever the others have done to the slots |
| `RingSleep.CloseFinishes` | evenk/bounded_queue.h:280-303 | a close() that has begun returns by itself from every state, with closed_ stored and every slot closed |
| `Tokens.Decode` | evenk/bounded_queue.h:69-73 | the masks take a slot word apart into the ticket, status and flag put in |
| `Tokens.SetWaitingWord` | evenk/bounded_queue.h:187 | setting the waiting bit changes nothing else |
| `Tokens.SetClosedWord` | evenk/bounded_queue.h:177 | setting the closed bit changes nothing else |
| `Tokens.Publish` | evenk/bounded_queue.h:613-631 | token plus status equals token or status, and is the word of a published slot |
| `Tokens.NextToken` | evenk/bounded_queue.h:659-663 | adding size to a token commutes with masking, across wrap-around |
| `Tokens.SameToken` | evenk/bounded_queue.h:535-536 | tickets of one slot less than 2^32 apart have one token only if equal |
| `Tokens.IndexAndToken` | evenk/bounded_queue.h:368-370 | slot index and token determine the 32-bit count |
| `Bits.PowerTest` | evenk/bounded_queue.h:507-509 | size & (size - 1) is zero exactly for powers of two |
| `RingBounds.PushChain` | evenk/bounded_queue.h:366-378 | from a ticket its slot has yet to take, c, c + size, c + 2 * size, ... are pending up to the limit, each held by a different producer |
| `RingBounds.PopChain` | evenk/bounded_queue.h:396-415 | the same for pop tickets and consumers |
| `RingBounds.SlotNear` | evenk/bounded_queue.h:366-415 | no counter runs ahead of a slot by more than one round per thread, and one |
| `RingBounds.TicketNear` | evenk/bounded_queue.h:523-531 | a ticket in hand is within 2^32 of its slot and within 2^31 of the cut |
| `RingNear.NearStep` | evenk/bounded_queue.h:171-203 | the words that threads keep in local variables stay as close |
| `Ring32Refines.TokenTestExact` | evenk/bounded_queue.h:533-536 | the masked test decides equality of unbounded tickets |
| `Ring32Refines.WordTestExact` | evenk/bounded_queue.h:185-195 | the compare-exchange succeeds exactly when the unbounded words are equal |
| `Ring32Refines.SignedTestExact` | evenk/bounded_queue.h:526-531 | within 2^31 the signed test decides the order of unbounded tickets |
| `Ring32Refines.SignedTestWraps` | evenk/bounded_queue.h:523-531 | what the signed test decides at any distance |
| `Ring32Theorems.StepExact` | evenk/bounded_queue.h:280-578 | under the premise one access of the 32-bit ring is one access of the unbounded ring |
| `Ring32Theorems.RunExact` | evenk/bounded_queue.h:280-578 | the same for whole runs |
| `Ring32Theorems.Ring32IsRing` | evenk/bounded_queue.h:258-578 | from the empty ring on, both go through the same states |
| `Ring32Theorems.HeadNearTail` | evenk/bounded_queue.h:396-415 | before close() the head is at most one round per thread past the tail |
| `Ring32Theorems.ShortTailFits` | evenk/bounded_queue.h:523-531 | the premise holds for as many tickets after close() as the limit leaves, however long threads spin or sleep |
| `Ring32Theorems.OpenRunFits` | evenk/bounded_queue.h:523-531 | before close() it holds for any number of accesses, with (threads + 1) * size < 2^31 |
| `Ring32Safety.ImageExclusive` | evenk/bounded_queue.h:613-677 | no two threads are inside one value, in terms of the 32-bit counts and the mask |
| `Ring32Safety.ImageCurrent` | evenk/bounded_queue.h:185-202 | a thread sleeps on the present 32-bit word of its slot, or a wake of the slot is coming |
| `Ring32Safety.ImageFreed` | evenk/bounded_queue.h:295-303 | when closed_ is stored and no thread is in the slot loop, a thread whose 32-bit count is past last_ sleeps only if a wake of its slot is coming |
| `Ring32Safety.ImageTells` | evenk/bounded_queue.h:613-677 | on the 32-bit words: a slot word carries a status bit exactly when its ticket is published, the invalid one exactly if the assignment threw, and otherwise the slot holds the value stored; a consumer that has read its slot took, lost or skipped the value as the exceptions of the run decide |
| `RingWrap.ManyRefused` | evenk/bounded_queue.h:523-531 | after close() on the empty ring, consumers with tickets up to 2^31 are refused one after the other |
| `RingWrap.WrappedConsumerSleeps` | evenk/bounded_queue.h:523-531 | for every size and two or more threads, a run of the 32-bit ring from its start that ends with close() returned, all other threads outside and the consumer of ticket 2^31 + 1 asleep |
| `RingWrap.UnboundedConsumerLeaves` | evenk/bounded_queue.h:526-531 | the same accesses on the ring with unbounded counters refuse that consumer |
| `BoundedQueue.Ring.constructor` | evenk/bounded_queue.h:258-262 | the array of slot words is filled with the masked indices |
| `BoundedQueue.Ring.TakePush` | evenk/bounded_queue.h:368 | fetch_add on the tail |
| `BoundedQueue.Ring.TakePop` | evenk/bounded_queue.h:399 | fetch_add on the head |
| `BoundedQueue.Ring.Test` | evenk/bounded_queue.h:533-608 | the tests of the wait loops on a loaded word |
| `BoundedQueue.Ring.IsPastLast` | evenk/bounded_queue.h:526-531 | the signed comparison with last_ |
| `BoundedQueue.Ring.WaitCas` | evenk/bounded_queue.h:185-190 | the compare-exchange of wait |
| `BoundedQueue.Ring.FutexWait` | evenk/bounded_queue.h:191 | sleeping if the word is still the expected one |
| `BoundedQueue.Ring.Exchange` | evenk/bounded_queue.h:197-202 | the exchange of wake, with the wake-all owed if the waiting bit was set |
| `BoundedQueue.Ring.FutexWake` | evenk/bounded_queue.h:200-201 | all sleepers of the slot go on |
| `BoundedQueue.Ring.CutTail` | evenk/bounded_queue.h:293 | last_ and the jump of the tail, modulo 2^32 |
| `BoundedQueue.Ring.SweepCasWord` | evenk/bounded_queue.h:174-183 | the compare-exchange of close() on one slot |
| `BoundedQueue.Ring.Step` | evenk/bounded_queue.h:280-578 | any thread's next access, as the 32-bit step function says |
| `BoundedQueue.Ring.Run` | evenk/bounded_queue.h:280-578 | any schedule |
| `BoundedQueue.Create` | evenk/bounded_queue.h:502-513 | refuses exactly the sizes below 16 and those that are no power of two |
| `BoundedQueue.CreateAndRun` | evenk/bounded_queue.h:258-578 | the object ends in the image of the state the unbounded ring reaches, with no two threads inside one value, nobody asleep on an old word and, after close(), nobody asleep with a ticket from last_ on, unless a wake is coming; its status bits and its consumers tell which assignments and moves threw |
| `TicketLockInv.StepInv` | evenk/spinlock.h:147-205 | every access keeps the queue of writers, the readers counted in front of them, and head plus outstanding tickets equal to tail |
| `TicketLockTheorems.WriterAlone` | evenk/spinlock.h:147-205 | a writer overlaps no writer and no reader |
| `TicketLockTheorems.UnlockLosesNothing` | evenk/spinlock.h:169-173 | between the load and the store of unlock() nobody else can change the head |
| `TicketLockTheorems.TryTakesFreeLock` | evenk/spinlock.h:159-200 | a try_lock that succeeds found nobody holding or waiting, a try_lock_shared no writer |
| `TicketSolo.TrySharedExactly` | evenk/spinlock.h:192-200 | with any accesses of others in between, try_lock_shared returns true exactly when the tail it loads has the exclusive count of the loaded head and is still the tail at the exchange; then the shared count grows by one, else nothing changes |
| `TicketSolo.TryExclusiveExactly` | evenk/spinlock.h:159-167 | the same for try_lock, which needs the tail it loads to be the loaded head |
| `TicketSolo.SoloTry` | evenk/spinlock.h:159-200 | with nobody in between, try_lock_shared succeeds exactly when nobody holds or wants the lock exclusively, and try_lock exactly when nobody holds or wants it at all |
| `TicketSolo.EntersExactly` | evenk/spinlock.h:147-190 | a waiting thread enters at its next load exactly when it is its turn |
| `TicketSolo.SoloLock` | evenk/spinlock.h:147-190 | with nobody in between, lock() and lock_shared() enter at once exactly under the same conditions |
| `TicketLockTheorems.NeverStuck` | evenk/spinlock.h:147-190 | while anybody waits, somebody holds the lock or can take it |
| `TicketLockTheorems.StaysEnabled` | evenk/spinlock.h:147-190 | who can enter can still enter whatever the others do |
| `TicketLockTheorems.WriterWaitsFor` | evenk/spinlock.h:147-157 | a writer can enter if and only if all earlier tickets are released |
| `TicketLockTheorems.ReaderWaitsFor` | evenk/spinlock.h:180-190 | a reader can enter if and only if all earlier writers have released |
| `TicketLockTheorems.Outstanding` | evenk/spinlock.h:147-190 | in front of a waiter there are fewer tickets of each kind than threads |
| `TicketWords.PackSteps` | evenk/spinlock.h:214-216 | either step on the word advances its own counter, carry and wrap-around included |
| `TicketWords.PackLow` | evenk/spinlock.h:184-186 | the low half is the exclusive counter, whatever was carried |
| `TicketWords.PackCollides` | evenk/spinlock.h:159-167 | exactly when the words of two pairs of counters coincide |
| `TicketWords.PackEqual` | evenk/spinlock.h:150-153 | below 2^half per kind, only if the pairs are equal |
| `TicketWordsTheorems.WaitTestsExact` | evenk/spinlock.h:147-190 | the full-word and the masked test agree with the unbounded counters |
| `TicketWordsTheorems.TryTestsExact` | evenk/spinlock.h:159-200 | so do the tests of the try operations under their premise |
| `TicketWordsTheorems.StepExact` | evenk/spinlock.h:147-205 | one access of the packed lock is one access of the unbounded lock |
| `TicketWordsTheorems.RunExact` | evenk/spinlock.h:147-205 | the same for whole runs |
| `TicketWordsTheorems.BlockingRunFits` | evenk/spinlock.h:147-205 | runs of the blocking operations need no premise but the number of threads |
| `TicketWordsTheorems.WordWriterAlone` | evenk/spinlock.h:147-205 | with at most 2^half threads a writer is alone in every run on words |
| `TicketWordsTheorems.WordTryTakesFreeLock` | evenk/spinlock.h:159-200 | under their premise the try operations on words that succeed found the lock free of the kinds they exclude |
| `TicketSolo.WordTryExactly` | evenk/spinlock.h:159-200 | on words a try operation returns true exactly when its full or masked test passes on the tail it loads and that is still the tail at the exchange |
| `TicketSolo.WordTryFollows` | evenk/spinlock.h:159-200 | under the premise of the try operations this is exactly when the one on unbounded counters succeeds |
| `TicketSolo.WordSoloTry` | evenk/spinlock.h:159-200 | in every run on words that meets the premise, with nobody in between, try_lock_shared succeeds exactly when there is no writer, and try_lock exactly when the lock is not in use |
| `TicketWordsTheorems.TooManyThreads` | tests/shared-lock-test.cc:13 | with one thread more a reader joins a writer |
| `TicketWordsTheorems.SafeExactly` | tests/shared-lock-test.cc:13 | the lock is safe in all runs if and only if there are at most 2^half threads |
| `TicketTry.TryTestsWrong` | evenk/spinlock.h:159-200 | exactly when the tests of the try operations and their compare-exchanges pass wrongly |
| `TicketTry.MixedWriterAlone` | evenk/spinlock.h:147-205 | under the premise on the try operations a writer is alone in every run of all six operations |
| `TicketTry.TryLosesLock` | evenk/spinlock.h:159-167 | for every word width and two or more threads, a run with fewer than 2^half tickets of each kind between load and exchange that ends with two writers |
| `TicketTry.SafeAloneOnly` | evenk/spinlock.h:139-205 | with all six operations the lock is safe in all runs if and only if there is at most one thread |
| `SharedTicketLock.Lock.constructor` | evenk/spinlock.h:218-219 | both words start at zero |
| `SharedTicketLock.Lock.Step` | evenk/spinlock.h:147-205 | any thread's next access, as the word step function says |
| `SharedTicketLock.Lock.UnlockStore` | evenk/spinlock.h:169-173 | the store of unlock(), of the loaded head plus one |
| `SharedTicketLock.Lock.UnlockShared` | evenk/spinlock.h:202-205 | the fetch_add of unlock_shared() |
| `SharedTicketLock.Lock.TryCas` | evenk/spinlock.h:159-200 | the compare-exchange of the try operations |
| `SharedTicketLock.CreateAndRun` | evenk/spinlock.h:139-220 | under any schedule of at most 2^half threads that meets the premise of the try operations the object lets no writer overlap and follows the unbounded lock |
| `SynchInv.StepInv` | evenk/synch.h:95-127 | every access keeps mutual exclusion, the exact count of waiters and the cover of sleepers on the lock word |
| `SynchInv.StepTimely` | evenk/synch.h:276-321 | no access lets a thread sleep behind a notify_all that has returned |
| `SynchTheorems.MutualExclusion` | evenk/synch.h:95-127 | at most one owner, and the word is nonzero exactly while there is one |
| `SynchTheorems.AtomicLock` | evenk/synch.h:95-127 | the lock refines an atomic one |
| `SynchTheorems.NoStrandedSleeper` | evenk/synch.h:95-127 | while a thread sleeps on the lock word, also one moved there by notify_all, an awake thread owns the lock with the word at 2, or will wake a sleeper or put 2 into the word |
| `SynchTheorems.NotifyAllReachesAll` | evenk/synch.h:309-321 | from any state in which no sleeper is behind a returned notify_all, no run leads to one |
| `SynchTheorems.NotifyAllFromStart` | evenk/synch.h:276-321 | once a notify_all has returned, nobody with an older snapshot sleeps on the condition, in every run |
| `SynchTheorems.CountExact` | evenk/synch.h:288-305 | count_ is the number of threads in wait(), so a notifier that reads zero misses nobody |
| `SynchSolo.TryLockExactly` | evenk/synch.h:114-119 | try_lock() takes the lock exactly when nobody owns it |
| `SynchSolo.LockFree` | evenk/synch.h:95-112 | lock() takes a free lock, with the word at 1 |
| `SynchSolo.LockSleeps` | evenk/synch.h:95-112 | on an owned lock it puts 2 into the word and falls asleep |
| `SynchSolo.LockSleepsToo` | evenk/synch.h:95-112 | with the word at 2 already it falls asleep without an exchange |
| `SynchSolo.UnlockFree` | evenk/synch.h:121-127 | unlock() with the word at 1 frees the lock in one access |
| `SynchSolo.UnlockHandsOver` | evenk/synch.h:121-127 | unlock() with the word at 2 frees the lock and wakes the sleeper that the kernel picks, which then takes the lock |
| `SynchSolo.WaitSleeps` | evenk/synch.h:276-294 | wait() frees the lock and falls asleep on the number it loaded, counted in count_ |
| `SynchSolo.NotifyOneWakes` | evenk/synch.h:302-307 | notify_one() wakes the sleeper that the kernel picks and nobody else |
| `SynchSolo.NotifyAllWakes` | evenk/synch.h:309-321 | notify_all() wakes that one and moves all other sleepers to the lock word |
| `SynchSolo.WokenRelocks` | evenk/synch.h:294-300 | a woken waiter takes a free lock again before it returns |
| `SynchSolo.NotifyAllReturned` | evenk/synch.h:309-321 | in every run, from the start of a notify_all to its return: the sequence word moves at the start, and the return is on the record that NotifyAllFromStart speaks of |
| `SynchWords.SleepsOvertaken` | evenk/synch.h:290-294 | exactly when the 32-bit comparison lets a notified thread sleep, and that it never does within the window |
| `SynchWords.WrapInv` | evenk/synch.h:276-297 | the machine that compares 32-bit words keeps the invariant of the lock and the count, however many notifications come |
| `SynchWords.WrapRunIsRun` | evenk/synch.h:276-321 | within the window it makes the same runs as the machine with unbounded numbers |
| `SynchWrap.OvertakenSleeps` | evenk/synch.h:276-321 | for every k > 0 and two or more threads, a run in which k * 2^32 calls of notify_all return between a snapshot and its futex_wait, and which ends with the waiter asleep behind all of them |
| `FutexSynch.Monitor.constructor` | evenk/synch.h:323-326 | the words start at zero |
| `FutexSynch.Monitor.CasLock` | evenk/synch.h:95-112 | the compare-exchange of lock() |
| `FutexSynch.Monitor.Exchange` | evenk/synch.h:103-106 | the exchanges of lock() and wait() |
| `FutexSynch.Monitor.Decrement` | evenk/synch.h:121-127 | the fetch_sub of unlock() |
| `FutexSynch.Monitor.WakeLock` | evenk/synch.h:125 | one sleeper of the lock word goes on, if there is any |
| `FutexSynch.Monitor.AddCount` | evenk/synch.h:288 | count_ does not overflow with fewer than 2^32 threads |
| `FutexSynch.Monitor.LoadSequence` | evenk/synch.h:290 | the thread keeps the 32-bit word it loads |
| `FutexSynch.Monitor.WaitCond` | evenk/synch.h:294 | the comparison of the 32-bit word with the one kept |
| `FutexSynch.Monitor.Increment` | evenk/synch.h:302-311 | the 32-bit increment of a notification |
| `FutexSynch.Monitor.Rouse` | evenk/synch.h:306-318 | one sleeper wakes; for notify_all the others move to the lock word |
| `FutexSynch.Monitor.Step` | evenk/synch.h:95-321 | any thread's next access, and within the window it is the one of the machine with unbounded numbers |
| `FutexSynch.Monitor.Run` | evenk/synch.h:95-321 | any schedule |
| `FutexSynch.SoundWords` | evenk/synch.h:95-127 | mutual exclusion and no stranded sleeper, on the words and local variables of the object |
| `FutexSynch.CreateAndRun` | evenk/synch.h:83-327 | under any schedule the object has one owner at most and strands no sleeper of the lock word; within the window it lets nobody sleep behind a notify_all that has returned |
| `MonitorQueueInv.QueueStepInv` | evenk/synch_queue.h:62-236 | every access keeps the invariant that queued values are matched by consumers woken or about to be |
| `MonitorQueueInv.LockedPushInv` | evenk/synch_queue.h:205-213 | storing a value under the lock keeps it |
| `MonitorQueueInv.LockedPopInv` | evenk/synch_queue.h:225-236 | taking a value under the lock keeps it, also when try_pop takes what a woken consumer was meant to get |
| `MonitorQueueTheorems.RunOnBase` | evenk/synch_queue.h:138-147 | every run of the queue is a run of the lock and the condition variable |
| `MonitorQueueTheorems.BaseReachable` | evenk/synch_queue.h:138-147 | hence their theorems hold inside the queue |
| `MonitorQueueTheorems.NoStrandedConsumer` | evenk/synch_queue.h:138-147 | while a consumer sleeps, there are no more values than consumers woken and yet to look, but for the one whose producer has yet to notify |
| `MonitorQueueTheorems.CloseWakesEveryone` | evenk/synch_queue.h:62-67 | once the notify_all of a close() has returned, nobody sleeps on the condition, ever after |
| `MonitorQueueTheorems.RunCloseProgress` | evenk/synch_queue.h:62-67 | in every run, a closed queue has notified all or a thread is still at it |
| `MonitorQueueTheorems.ClosedIsSwept` | evenk/synch_queue.h:62-67 | the same for every reachable state |
| `MonitorQueueTheorems.SleepersAreIdle` | evenk/synch_queue.h:138-147 | when all threads rest, nobody sleeps on the lock, and a sleeping consumer means an empty queue that is not closed |
| `SplitQueueTheorems.SplitStepInv` | evenk/synch_queue.h:205-236 | every access inside a critical section leaves true what any thread in the middle of its section has found out |
| `SplitQueueTheorems.SectionAlone` | evenk/synch_queue.h:138-171 | no two threads are in the middle of their critical sections, by the mutual exclusion of the lock |
| `SplitQueueTheorems.SplitRefines` | evenk/synch_queue.h:205-236 | each access of the split sections is a step of the queue with atomic sections or leaves it alone |
| `SplitQueueTheorems.SplitRunRefines` | evenk/synch_queue.h:205-236 | the same for whole runs |
| `SplitQueueTheorems.FirstInFirstOut` | evenk/synch_queue.h:205-236 | the values accepted are those handed out, in order, followed by those queued |
| `SplitQueueTheorems.FrontExists` | evenk/synch_queue.h:225-236 | nobody reads or removes the front of an empty deque, and what is removed is what was moved out |
| `SplitQueueTheorems.CommitFits` | evenk/synch_queue.h:205-236 | a call answers as a sequential queue would at the access in which it takes effect, and no other access changes the queue |
| `SplitQueueTheorems.Linearizable` | evenk/synch_queue.h:62-236 | in every run the calls, in the order in which they take effect, are a legal history of a sequential queue that ends with the contents of the queue |
| `SplitQueueTheorems.CallStarts` | evenk/synch_queue.h:125-171 | a call starts without effect, as the call that was made |
| `SplitQueueTheorems.OneCommitPerCall` | evenk/synch_queue.h:125-171 | in one access a call inside goes on asking the same, takes effect with the result it then carries, or keeps the result it has |
| `SplitQueueTheorems.AnsweredReturns` | evenk/synch_queue.h:125-171 | only a call that has taken effect returns, and no other thread has a hand in it |
| `SplitQueueTheorems.TakesEffectOnce` | evenk/synch_queue.h:62-171 | in every run from the start of a call to its return, the history has exactly one entry of its thread: the call that was made, with the result that is returned |
| `QueueAccount.EveryPushAccounted` | evenk/synch_queue.h:125-213 | in every run the values of the push() calls made are, as a bag, those accepted, those refused and those of calls that have yet to take effect |
| `QueueSolo.CallCompletes` | evenk/synch_queue.h:62-171 | a call that finds the lock free and is let alone returns what the sequential queue answers and leaves the queue as that call does; wait_pop on an empty open queue is the only exception |
| `QueueSolo.EmptyPopSleeps` | evenk/synch_queue.h:138-147 | there it falls asleep on the condition |
| `QueueProgress.ReachableSweeping` | evenk/synch_queue.h:62-67 | in every reachable state of a closed queue the notify_all of close() has returned or its caller is still at work |
| `QueueProgress.FreeMeansSwept` | evenk/synch_queue.h:62-67 | once the queue is closed and the lock free, nobody sleeps on the condition or is about to |
| `QueueProgress.SomebodyHelps` | evenk/synch_queue.h:62-67 | while a thread is inside a closed queue, some thread is awake and owns the lock or finds it free |
| `QueueProgress.HelpfulDescends` | evenk/synch_queue.h:138-147 | an access of such a thread brings it closer to its return |
| `QueueProgress.OthersAhead` | evenk/synch_queue.h:138-147 | and sets no other thread back |
| `SynchQueue.Queue.constructor` | evenk/synch_queue.h:49-51 | an empty open queue |
| `SynchQueue.Queue.Append` | evenk/synch_queue.h:205-223 | one access of locked_push: the test of closed_ or push_back |
| `SynchQueue.Queue.Remove` | evenk/synch_queue.h:225-236 | one access of locked_pop: the test of the deque, the test of closed_, the move or pop_front |
| `SynchQueue.Queue.SetClosed` | evenk/synch_queue.h:65 | the flag set by close() |
| `SynchQueue.Queue.UnderLock` | evenk/synch_queue.h:138-147 | what a thread does while it holds the lock |
| `SynchQueue.Queue.Step` | evenk/synch_queue.h:62-236 | any thread's next access, as the step function says |
| `SynchQueue.Queue.Run` | evenk/synch_queue.h:62-236 | any schedule within the window |
| `SynchQueue.CreateAndRun` | evenk/synch_queue.h:38-242 | the queue object is first in, first out and linearizable under any schedule within the window, and after the notify_all of a close() no thread sleeps on the condition |
| `ThreadPoolTheorems.StepInv` | evenk/thread_pool.h:59-169 | with an atomic queue, every access keeps the invariant: a task is queued, in the hands of one worker, or done and run once; workers leave only a closed empty queue or a stopped pool |
| `ThreadPoolTheorems.AtMostOnce` | evenk/thread_pool.h:150-164 | no task is run twice, none before those accepted earlier are started, and no worker is joined twice |
| `ThreadPoolTheorems.WaitSettles` | evenk/thread_pool.h:69-79 | when wait() has returned every worker was joined once, the tasks up to some number were run once and the rest never |
| `ThreadPoolTheorems.WaitRunsEverything` | evenk/thread_pool.h:69-79 | without stop(), every accepted task was run exactly once if and only if the pool has a worker or nothing was accepted |
| `ThreadPoolTheorems.NothingRuns` | evenk/thread_pool.h:85-93 | a pool without workers runs nothing |
| `ThreadPoolTheorems.ShutdownOnce` | evenk/thread_pool.h:106-110 | shutdown() happens at most once, and not at all only while nobody has called stop() or wait() or the first caller is about to do it |
| `ThreadPoolTheorems.ClosedForGood` | evenk/thread_pool.h:141-144 | a closed pool accepts nothing more, keeps what was run, and after wait() runs nothing |
| `QueuedPoolInv.PoolSimulates` | evenk/thread_pool.h:59-169 | every access of the pool over the monitor queue is one of the pool with an atomic queue or leaves it alone |
| `QueuedPoolTheorems.PoolRunRefines` | evenk/thread_pool.h:59-169 | every run over the monitor queue is a run over the atomic queue |
| `QueuedPoolTheorems.PoolRunOnQueue` | evenk/thread_pool.h:141-169 | and a run of the monitor queue |
| `QueuedPoolTheorems.QueuedAtMostOnce` | evenk/thread_pool.h:150-164 | over the monitor queue no task is run twice, no worker is joined twice, and a worker is about to run the task accepted under its number |
| `QueuedPoolTheorems.QueuedWaitSettles` | evenk/thread_pool.h:69-79 | when wait() has returned every worker was joined once, the tasks up to some number were run once and the rest never |
| `QueuedPoolTheorems.QueuedWaitRunsEverything` | evenk/thread_pool.h:69-79 | without stop(), every accepted task was run exactly once if and only if the pool has a worker or nothing was accepted |
| `QueuedPoolTheorems.RanWhatWasAccepted` | evenk/thread_pool.h:64-164 | then the tasks that were run are, as a bag, those that the queue accepted |
| `QueuedPoolCalls.SubmitsOnce` | evenk/thread_pool.h:141-144 | in every run, from the start of a submit() to its return, the history of the queue has exactly one entry of its thread: the push of its task, accepted or refused |
| `QueuedPoolCalls.SubmitsAccounted` | evenk/thread_pool.h:141-144 | in every run the tasks submitted are, as a bag, those accepted, those refused and those of submit() calls that have yet to take effect |
| `QueuedPoolCalls.RanWhatWasSubmitted` | evenk/thread_pool.h:69-164 | when wait() has returned in a run without stop(), the tasks submitted are, as a bag, those run, those refused and those of submit() calls that have yet to take effect |
| `QueuedPoolCalls.WaitReturned` | evenk/thread_pool.h:69-79 | in every run a client that has called wait() is inside it until its return is on the record that the theorems about wait() speak of |
| `QueuedPoolStop.StopsExactly` | evenk/thread_pool.h:64-67 | in each step the stop bit is up exactly when it was or an idle client called stop(); wait() leaves it alone |
| `QueuedPoolStop.StoppedExactly` | evenk/thread_pool.h:59-67 | in every run the pool is stopped exactly when stop() was called in it |
| `QueuedPoolStop.StopStops` | evenk/thread_pool.h:150-164 | from a stopped state on, in every run: it stays stopped, a worker takes at most one further task, and only if it was waiting for one inside wait_pop, and all other tasks that were not taken are never run |
| `QueuedPoolSolo.WorkerRunsTask` | evenk/thread_pool.h:150-164 | a worker of a pool that is not stopped, with a task queued and the lock of the queue free, takes the first task, runs it and comes back to its test |
| `QueuedPoolSolo.ClientCompletes` | evenk/thread_pool.h:106-169 | a client let alone with the lock of the queue free: submit() returns with its task at the end of an open queue, and stop() and wait() get past shutdown() with the queue closed |
| `QueuedPoolTheorems.QueuedShutdownOnce` | evenk/thread_pool.h:106-110 | the queue is closed at most once, and not at all only while nobody has called stop() or wait() or the first caller is about to do it |
| `QueuedPoolTheorems.QueuedDrains` | evenk/thread_pool.h:150-164 | once the queue is closed the workers test, take, are refused and run a bounded number of times in every run |
| `QueuedPoolFinish.ClosedPoolMoves` | evenk/thread_pool.h:150-169 | in a closed pool that has not finished, asleep or not, some thread can take a step that leaves less to do |
| `QueuedPoolFinish.ClosedPoolCanFinish` | evenk/thread_pool.h:64-169 | from every reachable state of a closed pool some schedule lets every worker go and every call return: close() strands no sleeping worker |
| `WorkerPool.Pool.constructor` | evenk/thread_pool.h:85-93 | workers are started, nothing is queued |
| `WorkerPool.Pool.Use` | evenk/thread_pool.h:141-169 | an access to the queue object, with the record of what took effect |
| `WorkerPool.Pool.Work` | evenk/thread_pool.h:150-164 | the loop of a worker: the test, wait_pop access by access, the task |
| `WorkerPool.Pool.Call` | evenk/thread_pool.h:141-169 | push in submit() and close in shutdown(), access by access |
| `WorkerPool.Pool.FetchOr` | evenk/thread_pool.h:106-110 | the fetch_or of close() with the flag of its caller, and who goes on to shutdown(); which bit that raises, and for how long, is StopsExactly and StoppedExactly |
| `WorkerPool.Pool.Local` | evenk/thread_pool.h:64-79 | stop() and the join loop under join_lock_ |
| `WorkerPool.Pool.Step` | evenk/thread_pool.h:59-169 | any worker's or client's next access, as the step function says |
| `WorkerPool.Pool.Run` | evenk/thread_pool.h:59-169 | any schedule within the window |
| `WorkerPool.CreateAndRun` | evenk/thread_pool.h:64-164 | a pool object with a worker: its stop bit is up exactly when the schedule calls stop(); if not, when wait() has returned the tasks run are exactly those accepted, each once, and with those refused and those of submit() calls that have yet to take effect they are all that were submitted; the queue is closed and empty |

## Left out

- `try_push`, `try_pop`, `is_empty` and `is_full` of the ring: they call `load` with an argument that the counters do not take.
- Further calls of `close()` of the ring, beyond what the second one does to the tickets of the first.
- Ring slots made of a mutex and a condition variable, and the single-threaded counters of the one-producer and one-consumer rings.
- Weak memory orders and fences: every access is atomic and the memory sequentially consistent.
- The futex system calls: they are steps of the environment (compare and sleep, wake, requeue), with spurious returns from sleep.
- Backoff policies: each call is an arbitrary boolean.
- `ticket_lock`, `spin_lock` and `tatas_lock`: one counter in place of two, or one flag.
- The destructor of the thread pool, tasks that throw, and `evenk/task.h`: a task is an opaque value.
- `join_lock_` of the thread pool is an atomic lock; that the futex lock behaves as one is `AtomicLock`.
- The thread pool over the ring: the pool is modelled over the monitor queue.
- What a move leaves behind in the deque between the move and `pop_front`: nobody can look at it, by `SectionAlone`.
- Different locks used with one condition variable, for which the source terminates the program.
- `is_closed`, `is_empty` and the non-blocking operations of the monitor queue: reads under the lock, and `try_lock` followed by the same sections.
- The interface wrappers of `evenk/conqueue.h`, thread affinity and the POSIX variants.
- Liveness under fairness: progress is stated as safety (somebody can move, nobody is stranded, a schedule that finishes exists, a bounded number of effective steps is left).
- Ring32Theorems.StepExact: the premise `Fits` bounds the use of the ring after close() to tickets up to 2^31 past the cut, the limit that the source states; beyond it the comparison is wrong, as `SignedTestWraps` and `WrappedConsumerSleeps` say.
