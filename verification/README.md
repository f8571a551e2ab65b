# A verified model of the POSIX concurrency labs

The repository is a set of labs that synchronise threads and processes with semaphores, mutexes, condition
variables, pipes and shared memory, each written in C and again in C++ or Rust. This project models the
protocols of those labs as step machines, for any number of threads, any buffer size, any input and any
schedule, and proves what every run of them keeps. The parts that are ordinary in-place code (ring buffers,
matrices, the triple loop, the semaphore sections) are classes and methods with loops, proved against
specification functions that the machines use too.

A machine is a function from a state and a label to the next state, or to nothing when the step is not
enabled. The label says who moves and fixes every choice the environment makes: the random number drawn, the
sleeper that a notification picks, the message typed, the arrival of a signal. A run is a sequence of labels, so
a theorem about all label sequences is a theorem about all schedules. `Transitions.dfy` holds the arguments that
all protocols share: invariance, forward simulation lifted from steps to runs, and step counting.

| file | what it models |
|---|---|
| `Fifo.dfy` | the atomic bounded queue, specification of the warehouse |
| `Ring.dfy`, `RingArith.dfy` | the ring buffer as a value, half-done updates included |
| `Warehouse.dfy`, `WarehouseSafety.dfy`, `WarehouseProgress.dfy` | the producer/consumer warehouse over counting semaphores, in the C and the Rust order of statements |
| `Bookkeeping.dfy`, `WarehouseItems.dfy`, `RustWarehouseItems.dfy`, `FineWarehouseItems.dfy` | where the items are: what is made, added, removed, consumed and in hand, in all three machines |
| `Semaphore.dfy` | the hand-written condition-variable semaphore, section by section, and the counting semaphore |
| `FineSemaphore.dfy` | the hand-written semaphore statement by statement, refining `Semaphore.dfy` |
| `RustWarehouse.dfy` | the Rust warehouse over the hand-written semaphore, refining `Warehouse.dfy` as long as no wake-up is spurious |
| `RustWarehouseInvariant.dfy`, `RustWarehouseTheorems.dfy`, `RustWarehouseProgress.dfy` | what its runs keep, spurious wake-ups included |
| `RustWarehouseSpurious.dfy` | what one spurious wake-up breaks, and the exact conditions |
| `FineWarehouse.dfy`, `FineWarehouseSteps.dfy`, `FineWarehouseTheorems.dfy`, `FineWarehouseProgress.dfy` | the Rust warehouse over the statement-level semaphore, refining `RustWarehouse.dfy` |
| `CppWarehouse.dfy`, `CppWarehouseProgress.dfy` | the C++ warehouse with its `running` flag, before and after the flag is cleared |
| `Buffers.dfy`, `Semaphores.dfy` | the ring buffers and semaphore operations in place |
| `OddEven.dfy`, `OddEvenLaps.dfy`, `OddEvenCpp.dfy` | the odd/even alternation in its three variants, no wake-up being spurious in the Rust one |
| `OddEvenRust.dfy`, `OddEvenSpurious.dfy` | the Rust variant with spurious wake-ups: what every run keeps, what one of them breaks |
| `SharedMemory.dfy`, `TwoWayPipe.dfy`, `TwoWayPipeTexts.dfy`, `KnockMonitor.dfy` | shared-memory hand-off, two-way pipe and what its sides say, knock monitor |
| `MatrixSum.dfy`, `Matrices.dfy`, `TripleLoop.dfy` | parallel matrix sum, matrix class, triple loop |
| `Sums.dfy`, `Transitions.dfy` | sums over threads, runs |

Modelling decisions:

- In the warehouses the slot write, the index bump and every iteration of the printing loop are separate steps,
  so that mutual exclusion is really needed. The history logs `added` and `removed` grow at the index bumps.
- The hand-written semaphore is modelled statement by statement, with its mutex, in `FineSemaphore.dfy`; that machine
  is proved to refine the one whose steps are whole mutex sections. The Rust warehouse is modelled over both, and the
  statement-level warehouse is proved to refine the other; the Rust odd/even program runs on sections
  (`EmptyIsSemaphore`, `FullIsSemaphore`, `IsSemaphore`). In the knock monitor a mutex section is one step. Spurious
  wake-ups are steps of their own and are counted.
- `produce` is a function of an arbitrary number; typed or read input, the choice of the thread to wake and the
  schedule are arbitrary. Printing is an output log.
- What a run makes, consumes, types, knocks or posts is read off its labels (`EntriesOf`, `Typed`, `MarkedKnocks`, `HowMany`),
  not off counters that the steps keep; the counters that they do keep are proved to agree with the labels.
- Integers are unbounded, except in the triple loop, where 32-bit overflow and 64-bit wrap-around are modelled.
  For the hand-written semaphore the range of its 32-bit counts is a theorem.

Where the code does not do what one would expect, the model follows the code:

- The semaphore of `rust/semaphore.rs` does not test again after a wake-up. Without spurious wake-ups it is a
  counting semaphore (`RefinesCounting`); every spurious wake-up can let one more wait through unpaid
  (`SpuriousWakesOverAdmit`, `WhenPaidFor`). One is enough to make a Rust consumer take `Item::Other`, to make a producer
  overwrite an item, and to make the even thread print an odd number (`WhenAlwaysSafe`, `WhenAlwaysQueue`,
  `WhenAlwaysInOrder`). Deadlock freedom, mutual exclusion and progress of the Rust warehouse survive any number of them.
- The Rust odd/even program does deadlock: for every limit of at least 3 (the program uses 30) one spurious wake-up can leave
  a thread asleep for ever (`OneStrayStrands`, `WhenNeverDeadlocks`). Such a run has printed each number but the last
  exactly once (`StuckIsOneShort`).
- The C writer of the shared-memory pair installs a signal handler without restart and calls `sem_wait` without a
  retry, so a signal can put it two bytes ahead of the reader. `WhenAlwaysInStep` says exactly when every run
  stays in step; the bytes printed are right in every run.
- The processes of the C two-way pipe install the same kind of handler and do not look at the result of `read`: a signal
  ends a blocked read with the old message in hand, and the two sides then speak out of turn (`WhenOneInFlight`). At most
  two reads of one process and three in all can be cut this way, both loops still end, and one more message stays unread
  for each.
- The C producers make their items before they wait, so one can overtake another; in the Rust order of statements the ring
  receives items in the order in which they were made (`WhenAddedInMakingOrder`).
- The knock monitor forgets a second waiting thread (`SecondWaiterIsLost`, `WhenNobodyIsLost`).
- The C++ odd/even program reads the counter after handing the token over and may stop one number short
  (`OneLessIsReached`, `WhenAlwaysPrintsAll`).
- The C++ warehouse clears the slot after the one it has consumed, so the oldest item may show as an empty slot
  (`OnlyHeadIsCleared`, `WhenSlotsTrackOccupancy`). Clearing `running` posts nothing, so threads may stay blocked;
  how many depends only on the state at the signal, not on the schedule (`InterruptOutcome`, `WhenAllWillGo`).

## Model

| member | source | states |
|---|---|---|
| Fifo.RunsAreFifo | c/c_lab05_b.c:142-176 | every run of the specification queue: what went in is what came out followed by what is inside, never more than the capacity |
| WarehouseSafety.RefinesFifo | c/c_lab05_b.c:84-176 | for every number of producers and consumers, every ring size and every schedule, the run maps to a run of the atomic bounded queue with the index bumps as its operations |
| WarehouseSafety.RingFollowsLog | c/c_lab05_b.c:142-176 | in every reachable state the removed log is a prefix of the added log, at most n items are live, both indices are the log lengths modulo n, every live slot holds its item except the one being removed, and with the lock free the ring read from the consumer index is exactly the live items in order |
| WarehouseSafety.TokensConserved | c/c_lab05_b.c:87-122 | the two counting semaphores and the threads between first wait and last post always add up to n |
| WarehouseSafety.MutualExclusion | c/c_lab05_b.c:90-118 | the lock semaphore plus the threads in the critical section is always 1 |
| WarehouseSafety.OnlyHolderTouchesRing | c/c_lab05_b.c:90-118 | a step of any thread but the lock holder leaves the ring unchanged |
| WarehouseSafety.SlotsMatchOccupancy | c/c_lab05_b.c:154-176 | never two deleted slots; with the lock free none is deleted and a slot is taken exactly when it lies in the live window |
| WarehouseSafety.AccessesAreSafe | c/c_lab05_b.c:142-176 | every access is in bounds, an add always writes an empty slot, a remove always reads the oldest item |
| WarehouseSafety.ItemsHaveNames | c/c_lab05_b.c:229-253 | every item added, removed or held by a consumer has a name other than the default |
| WarehouseSafety.NamesAreKnown | c/c_lab05_b.c:229-253 | print_item falls to its default exactly outside 1..9 |
| WarehouseSafety.PrintingKeepsLiveItems | c/c_lab05_b.c:154-168 | no step of print_buffer changes the logs or the slot of a live item |
| WarehouseSafety.InitInv | c/c_lab05_b.c:178-184 | the initial semaphore values and ring satisfy the invariant |
| WarehouseSafety.StepKeepsInv | c/c_lab05_b.c:84-124 | every step of every thread keeps the invariant of tokens, lock, thread-local items and ring |
| WarehouseItems.ProducersAddWhatTheyMake | c/c_lab05_b.c:88-92 | in every run and both styles each producer has added the items of the numbers it drew, in that order, but for the one in hand; all items made are the items added and those in hands |
| WarehouseItems.ConsumersConsumeWhatTheyRemove | c/c_lab05_b.c:112-121 | in every run and both styles each consumer has consumed the items it removed, in that order, but for the one in hand; all items removed are the items consumed and those in hands |
| WarehouseItems.EveryItemIsInOnePlace | c/c_lab05_b.c:84-124 | every item ever made is in exactly one place: consumed, with a consumer, in the ring, or with a producer |
| WarehouseItems.WhenAddedInMakingOrder | c/c_lab05_b.c:88-92 | in all runs items are added in the order in which all producers together made them if and only if they are made under the lock (the Rust order of statements) or there is at most one producer |
| WarehouseItems.NamesAgree | rust/r_lab05_b.rs:32-48 | print_item names each number as the Rust enumeration names its item |
| WarehouseItems.NamesAreDistinct | c/c_lab05_b.c:229-253 | no two item numbers have the same name |
| WarehouseItems.DrawsMakeAllItems | c/c_lab05_b.c:131-135 | every number drawn makes an item 1..9, each of the nine is made by some number, and two numbers make the same item exactly when they differ by a multiple of nine |
| WarehouseProgress.NeverStuck | c/c_lab05_b.c:87-122 | with at least one producer, one consumer and one slot, every reachable state has an enabled step |
| WarehouseProgress.WhenProducerMoves | c/c_lab05_b.c:87-100 | in every reachable state each producer can move if and only if it is not at a wait whose semaphore is 0 |
| WarehouseProgress.WhenConsumerMoves | c/c_lab05_b.c:108-122 | in every reachable state each consumer can move if and only if it is not at a wait whose semaphore is 0 |
| WarehouseProgress.StepsWithoutOperation | c/c_lab05_b.c:87-122 | without an add or a remove a run is no longer than the steps the threads have left before their next index bumps |
| WarehouseProgress.AddsAndRemovesAlternate | c/c_lab05_b.c:142-176 | any n + 1 consecutive buffer operations contain an add and a remove |
| WarehouseProgress.EveryScheduleMakesProgress | c/c_lab05_b.c:84-124 | from every reachable state every schedule of a stated length adds and removes at least one item, without any fairness assumption |
| Ring.StoreKeeps | c/c_lab05_b.c:142-143 | the slot that add_to_buffer writes was empty, and afterwards slots and log agree but for that slot |
| Ring.AdvanceProducerKeeps | c/c_lab05_b.c:145-145 | moving the producer index restores agreement |
| Ring.ReadsOldest | c/c_lab05_b.c:171-171 | remove_from_buffer reads the oldest live item |
| Ring.MarkKeeps | c/c_lab05_b.c:172-172 | marking the slot leaves all others in agreement |
| Ring.AdvanceConsumerKeeps | c/c_lab05_b.c:173-173 | moving the consumer index leaves exactly one deleted slot, outside the live window |
| Ring.SweepKeeps | c/c_lab05_b.c:156-166 | one iteration of print_buffer clears only a deleted slot |
| Ring.QuietWindow | c/c_lab05_b.c:142-176 | slots read in ring order from the consumer index are the live items |
| Buffers.CBuffer.Add | c/c_lab05_b.c:142-146 | in place: slot write then index bump; agreement of slots and items is kept when there is room |
| Buffers.CBuffer.Remove | c/c_lab05_b.c:170-176 | in place: returns the slot's value, which is the oldest item when there is one |
| Buffers.CBuffer.Print | c/c_lab05_b.c:154-168 | the text is, between brackets, 0 for each slot that held 0, + for each that held -1 and * for any other; slots with -1 hold 0 afterwards and no other changes |
| Buffers.DecodeKeepsNumbers | c/c_lab05_b.c:154-176 | reading a slot as empty, deleted or taken loses nothing: remove_from_buffer gives back the number stored |
| Buffers.SweptAfterRemoval | c/c_lab05_b.c:112-113 | printing after a removal restores full agreement of slots and items |
| Buffers.SweptAfterAddition | c/c_lab05_b.c:92-93 | printing after an addition changes nothing |
| Buffers.ProducerSectionAddsAndPrints | c/c_lab05_b.c:92-93 | the producer's critical section of the step machine, run through, is Add followed by Print |
| Buffers.ConsumerSectionRemovesAndPrints | c/c_lab05_b.c:112-113 | the consumer's critical section, run through to the release of the lock, is Remove followed by Print |
| Buffers.RustBuffer.Add | rust/r_lab05_b.rs:67-71 | in place: slot write then index bump; agreement kept when there is room |
| Buffers.RustBuffer.Remove | rust/r_lab05_b.rs:73-83 | in place, with the fallback arm: the oldest item when there is one |
| Buffers.RustBuffer.Format | rust/r_lab05_b.rs:86-103 | the text is, between brackets, 0 for each empty slot, * for each taken one and + for each deleted one; deleted slots are empty afterwards and no other changes |
| Semaphores.RkSemaWait | c/include/posix_semaphore.h:34-44 | signals neither cost nor grant a unit, whatever other threads post meanwhile: all calls but the last were interrupted, and exactly one unit is taken unless the last call fails |
| Semaphores.SupplyAddsUp | c/include/posix_semaphore.h:41-43 | the value with which RkSemaWait ends counts what the other threads did during every call, the interrupted ones included, and call sequences add up one after another |
| Semaphores.SupplyIgnoresOutcomes | c/include/posix_semaphore.h:41-43 | and does not depend on how the calls ended |
| Semaphores.CondvarSemaphore.Wait | rust/semaphore.rs:17-23 | the section of wait is the wait step of the machine; it sleeps exactly when the step does |
| Semaphores.CondvarSemaphore.Post | rust/semaphore.rs:25-31 | the section of post is the post step of the machine that picks the thread it returns; it wakes one exactly when the count asks for it and one sleeps |
| Semaphore.RefinesCounting | rust/semaphore.rs:17-31 | without spurious wake-ups every run is a run of the counting semaphore with value max(0, v), the sleepers are exactly max(0, -v), and waits let through plus the value is the initial value plus posts |
| Semaphore.CountingConserves | rust/semaphore.rs:17-31 | the counting semaphore that it refines admits a wait exactly when one is asked for and the value is positive, and its value is always the initial one plus the posts less the waits admitted |
| Semaphore.SleepersBounded | rust/semaphore.rs:17-31 | with k spurious wake-ups, max(0, -v - k) <= sleepers <= max(0, -v), nobody sleeps while v >= 0, and at most k waits too many are let through |
| Semaphore.SpuriousWakesOverAdmit | rust/semaphore.rs:17-23 | for every initial value, every number of threads but 0 and every k, some run with k spurious wake-ups lets exactly k waits too many through |
| Semaphore.WhenPaidFor | rust/semaphore.rs:17-31 | all runs with at most k spurious wake-ups let through only waits that were paid for if and only if k is 0 or there are no threads |
| Semaphore.RunInv | rust/semaphore.rs:10-31 | the same bounds for any initial value, negative ones included |
| Semaphore.CallsDecideCount | rust/semaphore.rs:17-31 | in every run the count is the initial value less the calls of wait plus the calls of post, and the waits let through are the calls of wait less the sleepers; the spurious wake-ups counted are those of the run |
| FineSemaphore.RefinesSections | rust/semaphore.rs:17-31 | every statement-level run, spurious wake-ups included, is a run of the section-level machine, a wait taking effect when it lowers the count and a post when it has notified; the mutex has at most one holder |
| FineSemaphore.HolderCanMove | rust/semaphore.rs:17-31 | in every reachable state the thread inside the mutex can move |
| FineSemaphore.WhenThreadMoves | rust/semaphore.rs:17-31 | a thread outside can call, a sleeper can be woken, any other thread can execute its next statement if and only if it does not want a mutex that another has; a notifying post may pick any sleeper and nothing else |
| FineSemaphore.SleepersBoundedWhenFree | rust/semaphore.rs:17-31 | whenever the mutex is free and k wake-ups were spurious, max(0, -v - k) <= sleepers <= max(0, -v) and at most k waits too many have returned |
| RustWarehouse.RefinesCountingWarehouse | rust/r_lab05_b.rs:145-193 | every run without spurious wake-ups is a run of the warehouse over counting semaphores, a notifying post standing for a post and the woken thread's wait |
| RustWarehouse.StraysAreWakeUps | rust/semaphore.rs:17-23 | the two stray counts are the numbers of spurious wake-ups of producers and of consumers in the run |
| RustWarehouseItems.ProducersAddWhatTheyMake | rust/r_lab05_b.rs:151-166 | in every run, however many wake-ups are spurious, each producer has added the items it made, in that order, but for the one in hand; all items made are the items added and those in hands |
| RustWarehouseItems.ConsumersConsumeWhatTheyRemove | rust/r_lab05_b.rs:176-191 | in every run, however many wake-ups are spurious, each consumer has consumed the items it removed, in that order, but for the one in hand; all items removed are the items consumed and those in hands |
| RustWarehouseItems.EveryItemIsInOnePlace | rust/r_lab05_b.rs:145-193 | as long as no wake-up is spurious every item ever made is in exactly one place |
| RustWarehouseInvariant.EmptyIsSemaphore | rust/r_lab05_b.rs:145-193 | in every run, spurious wake-ups included, the calls on `sem_empty` are a run of the hand-written semaphore with the same count and the same sleepers |
| RustWarehouseInvariant.FullIsSemaphore | rust/r_lab05_b.rs:145-193 | the same for `sem_full` |
| RustWarehouseInvariant.SleepersBounded | rust/semaphore.rs:17-31 | in every run, with k spurious wake-ups on a semaphore of value v, max(0, -v - k) <= sleepers <= max(0, -v) |
| RustWarehouseInvariant.StepKeepsInv | rust/r_lab05_b.rs:145-193 | every step, spurious wake-ups included, keeps the lock, the tokens and the indices |
| RustWarehouseTheorems.LiveStaysInRange | rust/r_lab05_b.rs:67-83 | in every run, with k producers and l consumers woken spuriously, -l <= items added minus items removed <= n + k |
| RustWarehouseTheorems.MutualExclusion | rust/r_lab05_b.rs:151-191 | in every run, spurious wake-ups included, at most the holder of the mutex is in the critical section, and every access is in bounds |
| RustWarehouseTheorems.RefinesFifo | rust/r_lab05_b.rs:145-193 | every run without spurious wake-ups is a run of the atomic bounded queue |
| RustWarehouseTheorems.CountsStayInRange | rust/semaphore.rs:17-31 | in every run, with k producers and l consumers woken spuriously, the counts stay in [-producers - k, n + l] and [-consumers - l, n + k] |
| RustWarehouseTheorems.AccessesAreSafe | rust/r_lab05_b.rs:67-83 | without spurious wake-ups remove never takes the fallback arm and add never overwrites a taken slot |
| RustWarehouseTheorems.SlotsMatchOccupancy | rust/r_lab05_b.rs:67-103 | without spurious wake-ups and with the mutex free a slot is taken exactly when it lies in the live window and none is deleted |
| RustWarehouseProgress.NeverStuck | rust/r_lab05_b.rs:151-191 | in every reachable state, however many wake-ups were spurious, a step that is not a spurious wake-up is enabled |
| RustWarehouseProgress.WhenProducerMoves | rust/r_lab05_b.rs:151-166 | in every reachable state each producer can move if and only if it does not sleep and does not wait for a mutex that another has; its post may wake any sleeping consumer and nothing else; it can be woken spuriously exactly while it sleeps |
| RustWarehouseProgress.WhenConsumerMoves | rust/r_lab05_b.rs:176-191 | the same for each consumer |
| RustWarehouseProgress.AddsAndRemovesAlternate | rust/r_lab05_b.rs:67-83 | any n + 1 consecutive buffer operations, and n + k + 1 with k spurious wake-ups, contain an add and a remove |
| RustWarehouseProgress.EveryScheduleMakesProgress | rust/r_lab05_b.rs:145-193 | every schedule of a stated length, which grows with the number of spurious wake-ups, adds and removes at least one item |
| RustWarehouseSpurious.ConsumerTakesOther | rust/r_lab05_b.rs:73-78 | for every ring size and every number of threads with a consumer, one spurious wake-up lets a consumer of the empty warehouse remove the fallback item |
| RustWarehouseSpurious.ProducerOverfills | rust/r_lab05_b.rs:67-71 | for every ring size and every number of producers, one spurious wake-up lets a producer add to the full ring |
| RustWarehouseSpurious.WhenAlwaysSafe | rust/r_lab05_b.rs:67-83 | all runs with at most k spurious wake-ups read and write the right slots if and only if k is 0 or there are no threads |
| RustWarehouseSpurious.WhenAlwaysQueue | rust/r_lab05_b.rs:67-83 | all runs with at most k spurious wake-ups keep FIFO order and capacity if and only if k is 0 or there are no threads |
| FineWarehouseTheorems.RefinesRustWarehouse | rust/r_lab05_b.rs:145-193 | every statement-level run, the statements of both semaphores and spurious wake-ups included, is a run of the warehouse in which each semaphore call takes effect at once: a wait when it lowers the count, a post when it has notified |
| FineWarehouseTheorems.RefinesFifo | rust/r_lab05_b.rs:145-193 | so a statement-level run without spurious wake-ups is a run of the atomic bounded queue |
| FineWarehouseTheorems.NeverStuck | rust/r_lab05_b.rs:151-191 | in every reachable state, however many wake-ups were spurious, some thread can execute its next statement |
| FineWarehouseTheorems.WhenProducerMoves | rust/semaphore.rs:17-31 | in every reachable state each producer can execute its next statement if and only if it does not sleep and does not want a mutex that another thread has; its post may wake any sleeping consumer and nothing else |
| FineWarehouseTheorems.WhenConsumerMoves | rust/semaphore.rs:17-31 | the same for each consumer |
| FineWarehouseTheorems.CountsStayInRange | rust/semaphore.rs:17-31 | after every single statement, with k producers and l consumers woken spuriously, the counts are in [-producers - k, n + l] and [-consumers - l, n + k] |
| FineWarehouseProgress.AddsAndRemovesAlternate | rust/r_lab05_b.rs:67-83 | any n + 1 consecutive buffer operations of a statement-level run, and n + k + 1 with k spurious wake-ups, contain an add and a remove |
| FineWarehouseProgress.EveryScheduleMakesProgress | rust/r_lab05_b.rs:145-193 | every schedule of a stated number of statements, which grows with the number of spurious wake-ups, adds and removes at least one item, without any fairness of scheduler, mutexes or notify_one |
| FineWarehouseSteps.StepRefinesSections | rust/semaphore.rs:17-31 | each statement keeps the places of all threads in both semaphores, and is one step of the coarser warehouse or does not show in it |
| FineWarehouseItems.ProducersAddWhatTheyMake | rust/r_lab05_b.rs:151-166 | RustWarehouseItems.ProducersAddWhatTheyMake after every single statement |
| FineWarehouseItems.ConsumersConsumeWhatTheyRemove | rust/r_lab05_b.rs:176-191 | RustWarehouseItems.ConsumersConsumeWhatTheyRemove after every single statement |
| FineWarehouseItems.EveryItemIsInOnePlace | rust/r_lab05_b.rs:145-193 | RustWarehouseItems.EveryItemIsInOnePlace after every single statement |
| CppWarehouse.SafeAcrossInterrupts | cpp/include/buffer.hh:131-158 | whenever `running` is cleared: tokens conserved, lock excludes, indices are the operation counts modulo n, counts differ by at most n |
| CppWarehouse.InterruptedProducerFinishesOnce | cpp/include/buffer.hh:131-142 | after `running` is cleared each producer adds at most once more, and only if it had passed its test |
| CppWarehouse.InterruptedConsumerFinishesOnce | cpp/include/buffer.hh:145-158 | after `running` is cleared each consumer removes at most once more, and only if it had passed its test |
| CppWarehouse.OnlyHeadIsCleared | cpp/include/buffer.hh:131-158 | with the lock free every occupied slot but the oldest is TAKEN, and the oldest is EMPTY if and only if the last removal left items behind |
| CppWarehouse.CountsAreOperations | cpp/include/buffer.hh:131-158 | the counts of the model are those of the run: items added, items removed, and items added before the last removal |
| CppWarehouse.ClearHitsOccupiedSlot | cpp/include/buffer.hh:150-153 | with two slots or more, a producer and a consumer, a state is reached in which an occupied slot is EMPTY |
| CppWarehouse.WhenSlotsTrackOccupancy | cpp/include/buffer.hh:131-158 | all occupied slots are TAKEN whenever the lock is free, in all runs, if and only if there is one slot, no producer or no consumer |
| CppWarehouseProgress.NeverStuckWhileRunning | cpp/include/buffer.hh:131-158 | as long as `running` is set, with a producer and a consumer, some thread can move |
| CppWarehouseProgress.WhenThreadMoves | cpp/include/buffer.hh:131-158 | in every reachable state each thread that is not gone can move if and only if it is not at a wait whose semaphore is 0, and an interrupt can come |
| CppWarehouseProgress.EveryScheduleMakesProgress | cpp/include/buffer.hh:131-158 | from every reachable state every schedule of more than 7 p + 8 c + 8 n thread steps adds and removes at least one item |
| CppWarehouseProgress.StuckOnOneSide | cpp/include/buffer.hh:131-158 | in a state without an enabled thread step all threads are gone, or only producers are blocked on a full ring, or only consumers on an empty one; with a producer and a consumer this takes an interrupt |
| CppWarehouseProgress.InterruptEndsSchedules | cpp/include/buffer.hh:83-88 | once `running` is cleared every schedule ends, within seven steps of each producer and eight of each consumer |
| CppWarehouseProgress.InterruptOutcome | cpp/include/buffer.hh:131-158 | whatever the schedule after the interrupt, the same number of producers and of consumers stays blocked: what the ring would hold too much or too little if every thread past its test finished its round |
| CppWarehouseProgress.WhenAllWillGo | cpp/include/buffer.hh:131-158 | every schedule after an interrupt ends all threads if and only if items in the ring, plus producers past their test, less consumers past theirs, is between 0 and n |
| CppWarehouseProgress.InterruptCanBlock | cpp/include/buffer.hh:83-88 | for every ring size and every number of threads but none, an interrupt can leave a thread blocked |
| OddEven.PrintsInOrder | c/c_lab05_a.c:55-77 | in C, in C++ and in Rust without spurious wake-ups the lines printed so far are 1, 2, ..., k, odd ones by the odd thread and even ones by the even thread, and k never exceeds the limit (2 for smaller limits) |
| OddEven.PrintsUpToLimit | c/c_lab05_a.c:55-90 | C, and Rust without spurious wake-ups: a finished run has printed exactly 1..limit, or 1..2 for limits below 2 |
| OddEven.PrintsUpToLimitOrOneLess | cpp/include/buffer.hh:187-200 | C++: a finished run has printed up to the limit or one less |
| OddEven.NeverStuck | c/c_lab05_a.c:55-90 | until both threads have left, one of them can move, in C, in C++ and in Rust without spurious wake-ups |
| OddEven.WhenThreadMoves | c/c_lab05_a.c:55-90 | in every reachable state each thread can move until it has left, unless it sleeps (Rust) or is at a wait whose semaphore is 0 (C, C++) |
| OddEven.SchedulesAreBounded | c/c_lab05_a.c:55-77 | every schedule ends within a bound linear in the limit; the Rust schedules with spurious wake-ups are those of OddEvenRust.SchedulesAreBounded |
| OddEven.StepKeepsInv | c/c_lab05_a.c:55-90 | every step that is not a spurious wake-up keeps token, numbers, output and exit conditions, and uses up some of a finite budget |
| OddEvenCpp.LimitIsReached | cpp/include/buffer.hh:190-194 | for every limit of at least 3 some run prints up to the limit |
| OddEvenCpp.OneLessIsReached | cpp/include/buffer.hh:190-194 | for every limit of at least 3 some run stops one short |
| OddEvenCpp.WhenAlwaysPrintsAll | cpp/include/buffer.hh:187-200 | every finished run prints up to the limit if and only if the limit is at most 2 |
| OddEvenRust.IsSemaphore | rust/r_lab05_a.rs:20-39 | in every Rust run, spurious wake-ups included, the calls on either semaphore are a run of the hand-written semaphore with the same count and the same sleeper |
| OddEvenRust.LooseKeepsSound | rust/r_lab05_a.rs:20-39 | every Rust step, spurious wake-ups included, keeps the numbers taken, the lines and the two counts in agreement, and uses up some of a finite budget |
| OddEvenRust.StraysAreWakeUps | rust/semaphore.rs:17-23 | the stray count is the number of spurious wake-ups of the run |
| OddEvenRust.WhenThreadMoves | rust/r_lab05_a.rs:20-39 | with spurious wake-ups each thread can move until it has left, unless it sleeps; it can be woken spuriously exactly then |
| OddEvenRust.SchedulesAreBounded | rust/r_lab05_a.rs:20-39 | every Rust schedule, spurious wake-ups included, ends within a bound linear in the limit |
| OddEvenRust.NoNumberTwice | rust/r_lab05_a.rs:20-39 | in every Rust run, spurious wake-ups included, no number is printed twice, none beyond the limit (2 for smaller limits), and the numbers of each thread rise |
| OddEvenRust.FinishedPrintsAll | rust/r_lab05_a.rs:20-39 | in every finished Rust run, spurious wake-ups included, each of 1..limit (1..2 for smaller limits) was printed exactly once and nothing else |
| OddEvenRust.StuckIsOneShort | rust/r_lab05_a.rs:20-39 | every deadlock of every Rust run took a spurious wake-up and a limit of at least 3; one thread sleeps, the other has left, and each of 1..limit - 1 was printed exactly once |
| OddEvenSpurious.OneStrayStrands | rust/r_lab05_a.rs:20-39 | for every limit of at least 3 one spurious wake-up leads to a deadlock |
| OddEvenSpurious.WhenNeverDeadlocks | rust/r_lab05_a.rs:20-39 | all Rust runs with at most k spurious wake-ups are free of deadlock if and only if k is 0 or the limit is at most 2 |
| OddEvenSpurious.EvenPrintsOne | rust/r_lab05_a.rs:20-39 | for every limit one spurious wake-up lets the even thread print 1 |
| OddEvenSpurious.WhenAlwaysInOrder | rust/r_lab05_a.rs:20-39 | all Rust runs with at most k spurious wake-ups print 1, 2, 3, ... by the right threads if and only if k is 0 |
| SharedMemory.InStep | c/ipc/include/shm_type.h:80-97 | the writer is at most one post ahead, plus one for each interrupted wait; with none interrupted they alternate |
| SharedMemory.WhenAlwaysInStep | c/ipc/include/shm_type.h:88-97 | all runs, signals included, stay in step if and only if the writer is the C++ one or the input starts with its end mark |
| SharedMemory.InterruptBreaksStep | c/ipc/memory_based/shared_memory/write.c:21-34 | for every input with a byte before the end mark, a signal during the second wait puts the C writer two posts ahead |
| SharedMemory.PostedBytesAreStable | c/ipc/include/shm_type.h:80-97 | a posted byte never changes, so both loop tests see what was posted |
| SharedMemory.ReaderPrintsWhatWasStored | cpp/ipc/memory_based/shared_memory/shm.hh:133-141 | the output is always a prefix of the stored bytes; at the end it is the input up to its end mark, cut short by '0' only if a signal came |
| SharedMemory.WhatCanBePrinted | c/ipc/include/shm_type.h:80-97 | the outputs of finished runs are exactly: the input up to its end mark, and with the C writer every shorter prefix of it followed by an end mark |
| SharedMemory.SignalsDecide | c/ipc/memory_based/shared_memory/write.c:21-34 | the interrupted waits counted are those that a signal ended in the run, and the running flag is cleared by signals alone |
| SharedMemory.SignalEndsWriting | c/ipc/include/shm_type.h:92-96 | after a signal the C writer posts at most one byte beyond the one it is committed to |
| SharedMemory.NeverStuck | c/ipc/memory_based/shared_memory/read.c:18-21 | until both sides are done one of them can move |
| SharedMemory.WhenStepsArePossible | c/ipc/include/shm_type.h:80-97 | each side is held up only by its waits and every access is inside the window; a first signal can reach the C writer at any time, a signal can end exactly a wait that blocks, and the C++ writer gets none |
| SharedMemory.SchedulesAreBounded | cpp/ipc/memory_based/shared_memory/shm.hh:86-93 | every schedule is finite, with a bound linear in the position of the end mark |
| TwoWayPipe.InFlightInOrder | c/ipc/message_passing/pipe/twowaypipe.c:60-77 | in every run, signals included, the messages in flight and in hand are one more than the reads that signals have ended, of which there are at most two for a process and three in all; each side receives the other's messages in order |
| TwoWayPipeTexts.SaysWhatIsTyped | c/ipc/message_passing/pipe/twowaypipe.c:60-77 | in every run what a process has sent and is about to send is one message for each of its turns, namely the texts typed before any signal reached it, in order and whole, and then only end marks; while no signal has reached it nothing else but, on leaving, the echo of the message it left on |
| TwoWayPipeTexts.ReadsWhatPeerTyped | cpp/ipc/message_passing/pipe/twowaypipe.cc:49-62 | as long as no signal has reached the other side, what a process has read and what waits in its pipe are the texts typed on the other side, in order and whole, and after the other has left its echo |
| TwoWayPipeTexts.SignalledSaysMark | c/ipc/message_passing/pipe/twowaypipe.c:66-68 | a turn after a signal sends the message read last with its first character, and only that, replaced by 0; where a signal has cut a read short it may be the message sent last instead |
| TwoWayPipeTexts.WhenOnlyTyped | c/ipc/message_passing/pipe/twowaypipe.c:62-68 | in all runs, even those in which no read is cut, either process, while in its loop, has said only what was typed if and only if the program is the C++ one |
| TwoWayPipe.SignalsDecide | c/ipc/message_passing/pipe/twowaypipe.c:127-130 | the reads counted as ended are those that a signal ended in the run, and a process runs on until a signal reaches it |
| TwoWayPipe.EndMark | c/ipc/message_passing/pipe/twowaypipe.c:66-68 | the end mark starts with 0 and is otherwise the old message |
| TwoWayPipe.WhenOneInFlight | c/ipc/message_passing/pipe/twowaypipe.c:119-125 | all runs in which signals end at most k reads have at most one message in flight if and only if the program is the C++ one or k is 0 |
| TwoWayPipe.CutReadDoubles | c/ipc/message_passing/pipe/twowaypipe.c:69-71 | one signal during the parent's read puts two messages in flight |
| TwoWayPipe.NeverStuck | c/ipc/message_passing/pipe/twowaypipe.c:94-111 | until both have left, a process can move without the help of a signal, whatever reads were ended before |
| TwoWayPipe.WhenEventsArePossible | c/ipc/message_passing/pipe/twowaypipe.c:119-130 | a process is held up only by an empty pipe; a first signal can reach either C process at any time, a signal can end exactly a read that blocks, and the C++ processes get none |
| TwoWayPipe.EndingIsBounded | c/ipc/message_passing/pipe/twowaypipe.c:73-76 | once a message starting with '0' has been sent at most eight more steps are possible, and eight for each read ended by a signal, at most 32 in all |
| TwoWayPipe.UnreadAtEnd | cpp/ipc/message_passing/pipe/twowaypipe.cc:58-61 | when both have left, an end mark was sent, exactly one message and one for each read ended by a signal is unread, and each pipe that is not empty ends in an end mark |
| TwoWayPipe.FourUnread | c/ipc/message_passing/pipe/twowaypipe.c:94-111 | three ended reads, all on empty pipes, and four unread messages do occur, whatever the buffers hold at the start |
| TwoWayPipe.SignalEndsConversation | c/ipc/message_passing/pipe/twowaypipe.c:102-109 | after a signal to either process every schedule is bounded, by 54 steps, whatever the other types and however many reads are ended |
| KnockMonitor.KnocksPayForReturns | c/include/simple_monitor.h:29-47 | 0 <= cnt < max, max * signals + cnt is the number of counted knocks, and r returns beyond the spurious ones took at least max * r knocks |
| KnockMonitor.CallsDecideState | c/include/simple_monitor.h:29-47 | the calls made decide the state: the mark is set exactly when a thread has entered after the last one left, the knocks made while it was set and no others fill the count modulo max, a thread waits exactly when it has entered and not left since, returns and spurious wake-ups are those of the run |
| KnockMonitor.WhenCallsArePossible | c/include/simple_monitor.h:29-47 | at any time a thread outside can enter, a thread inside can be woken or leave, anybody can knock, and a signal may pick any sleeper |
| KnockMonitor.WhenReturnsArePaid | c/include/simple_monitor.h:29-35 | in all runs with at most k spurious wake-ups each return was paid for by max knocks if and only if k is 0 or nobody waits |
| KnockMonitor.SleeperIsWokenExactly | c/include/simple_monitor.h:29-47 | with one waiting thread a sleeper is woken by exactly max - cnt further steps, all of them knocks, and these are possible |
| KnockMonitor.WokenExactlyWhenMarked | c/include/simple_monitor.h:37-47 | with any number of waiting threads, max - cnt knocks wake a sleeper if and only if the mark is set |
| KnockMonitor.WakeableExactlyWhenMarked | c/include/simple_monitor.h:37-47 | a given sleeper can be woken by knocks if and only if the mark is set |
| KnockMonitor.KnocksAreIgnored | c/include/simple_monitor.h:39-45 | while nobody is marked as waiting no number of knocks changes anything |
| KnockMonitor.SecondWaiterIsLost | c/include/simple_monitor.h:29-35 | for every maximum, two or more waiting threads can reach a state in which one sleeps and no number of knocks wakes it |
| KnockMonitor.WhenNobodyIsLost | c/include/simple_monitor.h:29-47 | every sleeper of every run can be woken by knocks if and only if at most one thread waits |
| MatrixSum.IndexInRange | cpp/cc_lab02_b.cc:42-55 | the flat index of an element lies inside the storage |
| MatrixSum.IndexSplits | cpp/cc_lab02_b.cc:42-55 | row and column can be read back from the flat index, so no two elements collide |
| MatrixSum.IndexCovers | cpp/cc_lab02_b.cc:42-55 | every storage position is the index of an element |
| MatrixSum.CellsPartition | cpp/cc_lab02_b.cc:57-83 | the cells of a column or row task are its own and no other task's |
| MatrixSum.ScheduleDoesNotMatter | cpp/cc_lab02_b.cc:104-132 | for every interleaving of loads and stores: a cell is always 0, a or a + b, and a + b everywhere when all tasks are done |
| MatrixSum.UnfinishedTaskMoves | c/c_lab02_b.c:24-54 | tasks never wait for each other |
| MatrixSum.SchedulesAreBounded | c/c_lab02_b.c:24-54 | every schedule is no longer than the work given to the tasks |
| Matrices.Matrix.Counting | cpp/cc_lab02_b.cc:19-27 | every row is 1, 2, ..., m |
| Matrices.Matrix.At | cpp/cc_lab02_b.cc:42-48 | out of range exactly outside the matrix, otherwise the element of that row and column |
| Matrices.Matrix.AddToColumn | cpp/cc_lab02_b.cc:71-76 | adds the column elementwise, the matrix's own included, and touches nothing else; out of range exactly for missing columns |
| Matrices.Matrix.SetToSum | cpp/cc_lab02_b.cc:104-132 | the tasks one after another give a + b everywhere |
| Matrices.CalculateRow | c/c_lab02_b.c:43-54 | fills its row with the sums and touches no other |
| TripleLoop.Calculate | c/c_lab02_a.c:46-54 | succeeds without 32-bit overflow if and only if the closed form fits and no loop counter must pass the maximum, and then yields the closed form |
| TripleLoop.TriClosed | c/c_lab02_a.c:46-54 | 1 + ... + n is n (n + 1) / 2 |
| TripleLoop.ProductBelowTotal | c/c_lab02_a.c:51-51 | no product formed on the way exceeds the final sum |
| TripleLoop.RoundsBelow3 | c/c_lab02_a.c:48-54 | no sum after whole outer rounds exceeds the final sum |
| TripleLoop.CalculateWords | cpp/cc_lab02_a.cc:28-36 | with wrap-around of sums, products and counters the result is the closed form modulo 2^64, for all bounds on which the loops end |
| TripleLoop.WhenLoopsEnd | cpp/cc_lab02_a.cc:28-36 | with 64-bit counters every loop entered ends if and only if none of their bounds is 2^64 - 1 |
| TripleLoop.Data.GetTotal | cpp/cc_lab02_a.cc:18-24 | every call, first or later, returns the closed form |
| TripleLoop.TotalOfTens | cpp/cc_lab02_a.cc:49-49 | the value asserted by the program, 166375 |

## Left out

- Process spawning, sockets, System V message queues, mutex-only labs (3, 4) and the airport of lab 6: plumbing of the
  operating system, or mutual exclusion already covered by the warehouse.
- `c/c_lab07_b.c`, an unfinished allocator.
- The slots of the C++ warehouse outside the live window, and its printing, which changes nothing.
- The internal steps of a mutex section of the knock monitor: each section is one step.
- Fairness between threads: progress is proved for the warehouse as a whole, not for each thread.
- The Rust odd/even program over the statements of its semaphores: its steps are the semaphores' sections.
- In the two-way pipe: bytes of a message buffer after the end of its text, limits on the length of a line typed, broken-pipe signals, descriptors and sharing of standard input; writes to a process that has left are
  taken to be harmless.
- In the shared-memory pair: opening and unlinking the semaphores and the mapping, end of input without an end mark, and
  signals to the reader, which has no handler.
- `sem_wait` failures other than interruption in the machines (`RkSemaWait` covers them), semaphore destruction, error exits.
- The Apple dispatch branches of `c/include/posix_semaphore.h`.
- Overflow of matrix elements: sums are unbounded integers; `ScheduleDoesNotMatter` says which values are ever stored.
