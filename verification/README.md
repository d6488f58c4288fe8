# Disruptor++: a verified model

Disruptor++ is a bounded broadcast queue. Producers claim sequence numbers, fill the ring
slots those numbers map to, and publish them; consumers wait, read in batches, and publish
their own progress, which gates later claims. These files model that library in Dafny and
prove what holds over every interleaving of its threads.

| file | contents |
|---|---|
| `Sequences.dfy` | 64-bit words, `difference`, the two barrier scans, with other threads storing between the loads |
| `Slots.dfy` | masking, power-of-two sizes, ranges that wrap |
| `Sums.dfy` | sums of sequences |
| `Protocol.dfy` | the multi-producer protocol as a step system: one shared access per step, per-thread program counters, any number of producers, any acyclic consumer graph |
| `Invariant.dfy`, `Preservation.dfy` | its inductive invariant, kept by every step of every thread |
| `Safety.dfy` | what the invariant means for every run |
| `BroadcastQueue.dfy`, `Refinement.dfy` | the abstract bounded broadcast queue, refined by the protocol |
| `Conservation.dfy` | per-producer order, completeness, the benchmarks' sums |
| `Progress.dfy` | milestones: a measure of what is left to do, and which threads can do some of it |
| `Completion.dfy` | deadlock freedom for clients that leave room, and termination under every schedule that keeps the threads running |
| `Deadlocks.dfy` | clients that do not can deadlock the queue: the exact condition |
| `BlockingQueue.dfy`, `BlockingDeadlocks.dfy` | the whole queue with the blocking wait strategy: it ends under every schedule, and exactly when that means that everything is done |
| `Calls.dfy` | what `try_claim` and `try_claim_until` return while other threads run |
| `Waits.dfy` | what a consumer's waits return while other threads run |
| `Schedules.dfy` | runs built by hand |
| `FalseResults.dfy` | exactly when a false result of `try_claim` means a full buffer |
| `StaleLimits.dfy` | a run on 64-bit words that breaks the queue's promise without the lag assumption |
| `WrapAround.dfy` | the machine on 64-bit words takes the steps of the machine on unbounded integers |
| `Clients.dfy` | the benchmarks' graphs, for every size, finish on 64-bit words with the expected sums |
| `BlockingWait.dfy` | the blocking wait strategy over any advancing sequences: mutex, condition variable, stores outside the mutex |
| `RingBuffer.dfy` | the ring and the published array as arrays updated in place |
| `SingleProducer.dfy` | the single-producer strategy as a class, implementing the same abstract queue |

The transition function in `Protocol.dfy` is written once and read over two arithmetics.
`Ideal` uses unbounded sequence numbers; `Machine` uses words modulo 2^64 and a two's
complement `difference`. The theorems about runs are about `Ideal`; `WrapAround.RunAgrees` says
that the states of `Machine` runs are their images, and what the library promises its clients
is restated on words (`WrapAround.MachineReadsTheLog`, `Clients.FairBenchmarkFinishes`,
`Clients.BlockingBenchmarkFinishes`, `Clients.BenchmarkResult`). A configuration gives the buffer size, the items each
producer publishes (its script), the consumers each consumer waits for, and the consumers
that gate claims. `owner` and `got` in the state are history: `owner[x]` is the producer and
item for which sequence x was claimed, and `Log` is the item sequence that this defines.

Assumptions. The bound on stale copies is this model's own; the others are from the library's
documentation or its clients:
- Memory is sequentially consistent: one step is one atomic access.
- The buffer size is a power of two and each producer has at most one outstanding claim
  (benchmark/sequencer.cpp:35-40). Claims and `try_claim` ask for at least one slot.
- A consumer waits either for published items or for a non-empty set of earlier consumers, and
  is in the claim group or waited for by a later consumer (benchmark/diamond.cpp:24-32).
- The word machine needs (P+2)*n < 2^62 and that, where `try_claim` or `try_claim_until` compares
  a local copy, the difference is below 2^63; `WrapAround.RunAgreesExactly` says that exactly then
  the words agree. Runs that use only `claim` and `claim_one`, as the benchmarks do, need no such
  assumption (`WrapAround.RunOfClaimsAgrees`); `StaleLimits.StaleLimitBreaksTheLog` shows that
  others do.
- A consumer waits fewer than n items ahead of its next one: nothing further ahead of a consumer
  is ever published (`Safety.GatingIsTransitive`), so such a wait would not end. A configuration
  also says how far ahead each consumer waits and how large claims are; only the theorems about
  progress use this, and for those an awaited item is one that some producer will send.

What the queue needs to make progress is not documented, and not automatic. A consumer may wait
for several items at once (include/disruptorplus/multi_threaded_claim_strategy.hpp:440-450), and
a stage after it for several more; if what a gating consumer may so hold back does not fit into the
buffer together with a claim, the queue can deadlock. `Completion.Roomy` is that condition, and
`Deadlocks.CompletesExactly` and `BlockingDeadlocks.BlockingCompletesExactly` show that it is exact.
Clients that wait for their next items, as all the benchmarks' loops do, always meet it
(`Completion.NextItemsAreRoomy`).

Where the code and its comments differ, the code is followed: include/disruptorplus/sequence.hpp:81
says that the minimum m satisfies `difference(m, x) >= 0` for every x, the code returns
an m with `difference(m, x) <= 0`.

## Model

| member | source | states |
|---|---|---|
| Safety.ConsumersReadTheLog | include/disruptorplus/multi_threaded_claim_strategy.hpp:355-452 | in every run, what each consumer has read is a prefix of one global log, so nothing is lost, duplicated, reordered, stale or overwritten early |
| Safety.WritesGoToTheirOwnSlot | include/disruptorplus/multi_threaded_claim_strategy.hpp:147-178 | entry x of that log is what the owner of claim x writes, and it is written to the slot of x |
| Safety.LogOnlyGrows | include/disruptorplus/multi_threaded_claim_strategy.hpp:149 | the log and all readings are append-only over every run |
| Refinement.StepRefines | include/disruptorplus/multi_threaded_claim_strategy.hpp:434-452 | every atomic step of every thread is one step of the abstract bounded broadcast queue, or none |
| Refinement.RunsAreQueues | include/disruptorplus/multi_threaded_claim_strategy.hpp:94-95 | the queue a run stands for is never more than n ahead of any consumer, and every consumer reads a prefix in graph order |
| BroadcastQueue.NextKeepsConsistent | README.md:19-32 | the abstract queue keeps capacity, prefix reading and stage order |
| Preservation.StepInv | include/disruptorplus/multi_threaded_claim_strategy.hpp:147-452 | one inductive invariant of claims, published words, ring, scans and consumers is kept by every step of every thread |
| Preservation.InitInv | include/disruptorplus/multi_threaded_claim_strategy.hpp:61-80 | the constructors establish it |
| Safety.SetPublishedNeverFails | include/disruptorplus/multi_threaded_claim_strategy.hpp:546-551 | the assertion in `set_published` holds at every publication of every run, in every iteration of the range loop |
| Safety.WordIsGreatestPublished | include/disruptorplus/multi_threaded_claim_strategy.hpp:74-79 | each of the n words is the greatest published sequence of its residue class |
| Safety.TestsDecideMembership | include/disruptorplus/multi_threaded_claim_strategy.hpp:440-450 | for any sequence some consumer has not released, the equality test and the order test both hold exactly when it is published |
| Safety.BatchStaysIntact | include/disruptorplus/multi_threaded_claim_strategy.hpp:402-411 | under interleaving, what `last_published_after` covers is within n of the reader's barrier, published, and intact in the ring until released |
| Waits.ExtendStopsAtTheGap | include/disruptorplus/multi_threaded_claim_strategy.hpp:405-410 | each iteration goes on exactly when the next sequence is published, so the batch ends at the first gap |
| Waits.WaitChecksEverySequence | include/disruptorplus/multi_threaded_claim_strategy.hpp:440-451 | a wait passes a sequence exactly when it is published, checks every one up to its target, and only then extends |
| Waits.WaitReturns | include/disruptorplus/multi_threaded_claim_strategy.hpp:413-452 | whatever other threads do during the call, a wait returns a sequence at or after the one it was called for, up to which all are published and released by the stages before it; a first stage's is the last published without a gap |
| Waits.StageWaitChecksEveryStage | include/disruptorplus/sequence.hpp:124-137 | a load of a group wait starts the scan over exactly when it finds a stage behind the target, and the wait ends exactly when the last load does not |
| Waits.StageWaitReturns | include/disruptorplus/sequence_barrier_group.hpp:120-133 | a group wait returns a value between the least of its barriers when a scan of the call began and the least when it ends, at or after the sequence it was called for |
| Waits.ClaimWaitsCheckEveryBarrier | include/disruptorplus/spin_wait_strategy.hpp:51-65 | the same for the waits of `claim` and `try_claim_until`: behind starts over (or gives up, when the time is up), and only a scan that finds no barrier behind ends the wait |
| Safety.SlotsAreExclusive | include/disruptorplus/ring_buffer.hpp:81-84 | no two writable sequences share a slot, nor does a writable one with an item any consumer may still read |
| Safety.GatingIsTransitive | benchmark/pipeline.cpp:26 | with only last stages gating, no granted claim or published item is more than n ahead of any consumer |
| Safety.StagesKeepOrder | benchmark/diamond.cpp:74-83 | a stage never passes the stages it waits for and reads what they have read |
| Safety.WinningCasTakesTheRoom | include/disruptorplus/multi_threaded_claim_strategy.hpp:212-221 | the winning compare-exchange takes exactly min(the call's count, room), 1..n sequences, ending within its limit, whatever count its retries carried |
| Calls.HowCallsReturn | include/disruptorplus/multi_threaded_claim_strategy.hpp:199-221 | through every interleaving, a call of `try_claim` returns false exactly when the counter it saw is beyond its limit, `try_claim_until` exactly when its time is up at a load that finds no room, and either returns true exactly when its compare-exchange succeeds within the limit |
| Calls.TryClaimFalse | include/disruptorplus/multi_threaded_claim_strategy.hpp:193-211 | `try_claim` returns false only if a value that the counter had during the call was more than n beyond some barrier's value when the call began, so the buffer was full then if nobody claimed in between |
| Calls.TryClaimDoesNotWait | include/disruptorplus/multi_threaded_claim_strategy.hpp:201-220 | each step of `try_claim` brings it closer to its end, at most the number of barriers plus two steps away, unless its compare-exchange fails spuriously or loses to another claim |
| FalseResults.FalseMeansFullExactly | include/disruptorplus/multi_threaded_claim_strategy.hpp:201-211 | for every configuration, all of a producer's false results mean that the buffer was full at some instant of the call if and only if not (n > 1, more than n items in all, and both it and another producer have items); otherwise a run is built in which the buffer never was full |
| Calls.OthersCostOneStep | include/disruptorplus/multi_threaded_claim_strategy.hpp:213-217 | another thread's step takes it further from its end by at most one, and only by claiming |
| Calls.TryClaimUntilFalse | include/disruptorplus/multi_threaded_claim_strategy.hpp:301-314 | from whatever position `try_claim_until` returns false, the buffer is full at that very step |
| Calls.TryClaimTrue | include/disruptorplus/multi_threaded_claim_strategy.hpp:212-221 | a successful call takes exactly min(the count its caller asked for, the room its limit leaves), at least what the barriers left when any scan of the call began, the first or the last of the timed wait, and at most what any barrier leaves when it succeeds |
| Calls.CallsCanBegin | include/disruptorplus/multi_threaded_claim_strategy.hpp:289-297 | a call begins with a scan of the barriers, for the count and with the timeout it was called with, and changes nothing that others see |
| Safety.FetchAddTakesTheEnd | include/disruptorplus/multi_threaded_claim_strategy.hpp:170-178 | `claim` appends min(count, n) sequences for the caller's next items |
| Safety.ClaimsPartition | include/disruptorplus/multi_threaded_claim_strategy.hpp:147-221 | every sequence below the counter is published, or held by exactly its one owner, for any mix of claim operations |
| Safety.CountingBound | include/disruptorplus/multi_threaded_claim_strategy.hpp:147-178 | the claim counter is at most (P+1)*n ahead of every consumer |
| Safety.LiveWordsAreClose | include/disruptorplus/sequence.hpp:66-67 | all sequence numbers that shared variables, claims and batches hold lie within (P+2)*n, and those waited for ahead of them within (P+3)*n, which discharges the documented spread assumption |
| Conservation.ProducersKeepTheirOrder | benchmark/sequencer.cpp:31-42 | in every state, the log restricted to a producer is what it has claimed of its script, in program order, once each |
| Conservation.CompletedRunDeliversAll | benchmark/sequencer.cpp:46-57 | a completed run has delivered the whole log to every consumer, and the log interleaves the whole scripts |
| Conservation.BenchmarkSum | benchmark/sequencer.cpp:23-67 | the consumer's 64-bit sum is P*n*(n-1)/2 for all P and n for which that check fits in 64 bits |
| Clients.ClientIsValid | benchmark/diamond.cpp:24-32 | the multicast, pipeline and diamond graphs of every size meet the assumptions on the consumer graph |
| Clients.FairBenchmarkFinishes | benchmark/pipeline.cpp:35-103 | on 64-bit words, every schedule that keeps all threads running finishes every such benchmark, with the expected sums |
| Clients.BenchmarkResult | benchmark/multicast.cpp:28-82 | on 64-bit words, in every completed run each consumer has read every item and has the expected sum |
| Clients.BlockingBenchmarkFinishes | benchmark/diamond.cpp:34-106 | with the blocking strategy, on 64-bit words, every schedule of every such benchmark ends, with the expected sums |
| Completion.SomeThreadIsReady | include/disruptorplus/multi_threaded_claim_strategy.hpp:170-178 | deadlock freedom: for clients that leave room, in every unfinished state the wait condition of some thread holds, with no time-out, however far ahead consumers wait |
| Deadlocks.CompletesExactly | include/disruptorplus/multi_threaded_claim_strategy.hpp:434-452 | for every buffer size, graph, scripts and client limits, the queue can always go on to completion if and only if there is room: all items fit into the buffer, or a gating consumer's reach (its wait ahead plus the greatest reach of its stages) plus any claim does; otherwise a run that gets stuck for good is built |
| Completion.NextItemsAreRoomy | benchmark/diamond.cpp:52-61 | consumers that wait for their next items leave room for claims of any size |
| Progress.ReadyComesCloser | include/disruptorplus/sequence_barrier_group.hpp:120-133 | such a thread stays ready until the next milestone, and each of its own steps brings it closer to one, whatever the others do |
| Progress.StepWorks | include/disruptorplus/multi_threaded_claim_strategy.hpp:434-452 | every milestone (claim, grant, write, store, signal, item found, read, released) decreases a natural-number measure that no other step changes |
| Completion.CanAlwaysComplete | benchmark/sequencer.cpp:35-57 | from every state that clients who leave room reach, whatever calls are under way, the system can run to completion |
| Progress.MilestonesAreBounded | benchmark/multicast.cpp:30-54 | no schedule reaches more milestones than the measure allows, however often its threads spin in between |
| Completion.FairRunsFinish | benchmark/sequencer.cpp:35-57 | for any mix of claim operations by clients that leave room, every schedule that keeps all threads running is finished once it has more rounds than the measure allows milestones |
| Completion.FairRoundExists | benchmark/multicast.cpp:30-67 | from every reached state there is such a round |
| BlockingQueue.MovesAreBounded | include/disruptorplus/blocking_wait_strategy.hpp:61-76 | with the blocking strategy no schedule, fair or not, runs longer than a fixed bound plus a fixed number of moves per spurious wakeup |
| BlockingQueue.StoppedMeansDone | include/disruptorplus/blocking_wait_strategy.hpp:188-195 | for clients that leave room, where it stops everything is published and read: no deadlock and no sleeper left behind |
| BlockingDeadlocks.BlockingCompletesExactly | include/disruptorplus/multi_threaded_claim_strategy.hpp:434-452 | with the blocking strategy every run ends with everything done if and only if there is room; otherwise some run ends with threads asleep |
| BlockingQueue.SomeoneCanMove | include/disruptorplus/multi_threaded_claim_strategy.hpp:355-388 | for such clients, until all is done some thread can move without a spurious wakeup |
| BlockingQueue.NoLostWakeup | include/disruptorplus/sequence_barrier.hpp:191-195 | while a sleeper's wait has come about, another thread has stored and is still to notify, also within the range loop of `publish` |
| BlockingQueue.BlockingRunsAreRuns | include/disruptorplus/spin_wait_strategy.hpp:51-65 | the queue with the blocking strategy has only the runs of the protocol, so all that is proved of those holds of it |
| WrapAround.StepAgreesExactly | include/disruptorplus/sequence.hpp:54-57 | on words, a step takes the same branch and reaches the image of the ideal state if and only if the differences it compares are below 2^63 (for copies that lag by less than 2^64) |
| WrapAround.RunAgrees | include/disruptorplus/multi_threaded_claim_strategy.hpp:201-217 | so with such differences the word machine and the ideal machine have the same runs, also past 2^64 |
| WrapAround.RunAgreesExactly | include/disruptorplus/multi_threaded_claim_strategy.hpp:294-320 | and they are in corresponding states all along a run only then (for copies that lag by less than 2^64) |
| WrapAround.MachineReadsTheLog | include/disruptorplus/multi_threaded_claim_strategy.hpp:541-551 | prefix reading and the `set_published` assertion hold on 64-bit words |
| WrapAround.RunOfClaimsAgrees | benchmark/sequencer.cpp:35-40 | runs that use only `claim` and `claim_one` agree without any lag assumption |
| WrapAround.CasAgreesExactly | include/disruptorplus/multi_threaded_claim_strategy.hpp:207-217 | for copies less than 2^64 apart, the words decide a compare-exchange as unbounded numbers do if and only if -2^63 <= limit - seen < 2^63 |
| StaleLimits.StaleLimitBreaksTheLog | include/disruptorplus/multi_threaded_claim_strategy.hpp:201-221 | for every graph and buffer size up to the bound above, if one producer has 2^63 + n items and another has one that differs, there is a run on words in which a claim that the ideal machine refuses in a full buffer is granted, and consumer 0 then reads something else than the log |
| BlockingWait.NoLostWakeup | include/disruptorplus/blocking_wait_strategy.hpp:188-195 | while a sleeper's sequences have all reached its target, some publisher has stored and not yet notified |
| BlockingWait.WaitReturnsReachedSequence | include/disruptorplus/blocking_wait_strategy.hpp:61-76 | a wait returns a sequence at or after the target it was called with that all the sequences it was called for have reached, for good |
| BlockingWait.WaitReturnsTheLeast | include/disruptorplus/blocking_wait_strategy.hpp:66-75 | and at or after the least of them when its last scan began: any bound they had all reached when the mutex was taken for a scan |
| BlockingWait.EveryWaitScans | include/disruptorplus/blocking_wait_strategy.hpp:61-66 | every wait does take the mutex and scan before it returns |
| BlockingWait.OwnMovesTerminate | include/disruptorplus/blocking_wait_strategy.hpp:66-75 | without new stores, waits or spurious wakeups, locking, scanning, sleeping and notifying stop |
| BlockingWait.StoppedMeansServed | include/disruptorplus/sequence_barrier.hpp:191-195 | where they stop, every waiter whose sequences reached its target has returned and the mutex is free |
| BlockingWait.StepInv | include/disruptorplus/blocking_wait_strategy.hpp:61-76 | mutual exclusion and the meaning of each waiter's position are kept by every move |
| Sequences.DifferenceIsTrueDifference | include/disruptorplus/sequence.hpp:54-57 | `difference` on words is the true difference if and only if that fits in 64 signed bits |
| Sequences.MinimumSequence | include/disruptorplus/sequence.hpp:83-98 | the loop, with a new memory snapshot at each load, computes the circular minimum of the loads |
| Sequences.CircularMinIsMin | include/disruptorplus/sequence.hpp:63-67 | with a spread below 2^63 that is the true minimum |
| Sequences.MinimumSequenceAfter | include/disruptorplus/sequence.hpp:124-137 | for arbitrary words: the result is one of the words read, precedes the target exactly when some word does, and is the least advanced otherwise |
| Sequences.AfterAgreesWithMinimum | include/disruptorplus/sequence.hpp:119-123 | a scan that does not stop early agrees with `minimum_sequence` |
| Sequences.NonAtomicScanIsBracketed | include/disruptorplus/sequence_barrier_group.hpp:100-133 | a scan's result lies between the true minima at its start and end, and bounds every barrier from then on |
| Protocol.ScanMeetsContract | include/disruptorplus/spin_wait_strategy.hpp:51-65 | the load-by-load scan of the step system meets the contract of `minimum_sequence_after` |
| Slots.SlotSurvivesWrapAndTruncation | include/disruptorplus/ring_buffer.hpp:81-90 | masking with n-1 is the ideal sequence modulo n, after wrapping and after truncation to a narrower `size_t` |
| Slots.ConstructorAcceptsPowersOfTwo | include/disruptorplus/ring_buffer.hpp:60-61 | the constructors' assertion accepts exactly the powers of two |
| Slots.RangeHitsDistinctSlots | include/disruptorplus/sequence_range.hpp:44-66 | a range of at most n sequences hits distinct slots and is contiguous, wherever it wraps |
| RingBuffer.Ring.Set | include/disruptorplus/ring_buffer.hpp:81-84 | writing through `operator[]` changes the one slot of the ideal sequence |
| RingBuffer.PublishedArray.constructor | include/disruptorplus/multi_threaded_claim_strategy.hpp:74-79 | the fill leaves the lap before 0 in the array |
| RingBuffer.PublishedArray.Publish | include/disruptorplus/multi_threaded_claim_strategy.hpp:381-388 | the range loop publishes exactly the range, its assertion holding in each iteration |
| RingBuffer.PublishedArray.LastPublishedAfter | include/disruptorplus/multi_threaded_claim_strategy.hpp:402-411 | on a frozen array, the end of the longest contiguous published run, found within n iterations |
| SingleProducer.Queue.constructor | include/disruptorplus/single_threaded_claim_strategy.hpp:54-63 | the empty queue |
| SingleProducer.Queue.ClaimOne | include/disruptorplus/single_threaded_claim_strategy.hpp:133-138 | takes the next sequence, invisibly to readers, never a lap ahead of a gating barrier |
| SingleProducer.Queue.Claim | include/disruptorplus/single_threaded_claim_strategy.hpp:153-169 | takes exactly min(count, free slots observed), at most n |
| SingleProducer.Queue.TryClaim | include/disruptorplus/single_threaded_claim_strategy.hpp:190-204 | false only if no slot was free when its scan began; otherwise exactly min(count, free slots observed) |
| SingleProducer.Queue.TryClaimUntil | include/disruptorplus/single_threaded_claim_strategy.hpp:291-319 | false only if no slot was free when the call began and the timed wait's last load was still a lap behind; otherwise exactly min(count, free slots observed by the scan that let it through) |
| SingleProducer.Queue.Write | include/disruptorplus/ring_buffer.hpp:81-84 | filling a claimed slot changes nothing any consumer may read |
| SingleProducer.Queue.Publish | include/disruptorplus/single_threaded_claim_strategy.hpp:331-334 | one store appends all slots up to the sequence to the abstract queue |
| SingleProducer.Queue.WaitUntilPublished | include/disruptorplus/single_threaded_claim_strategy.hpp:343-363 | the sequence returned is at or after a consumer's next item exactly when that is published, and all items up to it can be read |
| SingleProducer.Queue.ReadBatch | benchmark/diamond.cpp:54-60 | the consumers' loop reads exactly the log's items up to the sequence it was given, and releases them |
| SingleProducer.Queue.WaitForStages | include/disruptorplus/sequence_barrier_group.hpp:120-133 | what a stage's group wait returns is the least of the barriers it loaded, at or after its next item, published, and released by all stages before it |
| SingleProducer.Queue.ConsumeFirst | benchmark/diamond.cpp:52-61 | a pass of a first consumer's loop reads and releases everything published |
| SingleProducer.Queue.ConsumeStage | benchmark/diamond.cpp:74-83 | a pass of a later consumer's loop reads and releases exactly what the least advanced stage it waits for had released |
| SingleProducer.Queue.ReadItem | benchmark/diamond.cpp:57 | a consumer's read is a read step of the abstract queue |
| SingleProducer.Queue.Release | include/disruptorplus/sequence_barrier.hpp:191-195 | a consumer's barrier store is a release step of the abstract queue |
| SingleProducer.Queue.IsQueue | include/disruptorplus/single_threaded_claim_strategy.hpp:80-81 | between calls, the object stands for a consistent bounded broadcast queue |

## Left out

- C++ memory orders, cache-line padding and false sharing: interleavings are sequentially consistent.
- The multi-producer strategy as an object: its operations interleave, so it is a step system on values; aliasing and update in place appear only in `RingBuffer.dfy` and `SingleProducer.dfy`.
- Timed overloads of the blocking wait strategy: they pass predicate and timeout in the opposite order to the standard library's functions.
- The multi-producer timed `wait_until_published`: it never forwards its deadline, so no timeout property is stated.
- Clocks and durations: a timed barrier wait either succeeds or gives up, at the scheduler's choice.
- The spin back-off counter, yields and sleeps: a spin is a repeated scan.
- The single-producer blocking waits: a wait is represented by the scan that ends it; that waits return is shown for the wait strategies themselves.
- Non-blocking claims in `BlockingQueue.dfy`: `try_claim` does not use the wait strategy, and a client that polls it forever need not stop; `try_claim_until` uses its timed overloads, which are left out.
- Consumers that wait n or more items ahead, or, where progress is concerned, for items that no producer will send: they wait forever.
- Endless spurious failures of `compare_exchange_weak`: a thread's steps that fail spuriously do not count towards a fair round.
- Adding barriers to a group: the claim group is fixed by the configuration, as the library requires once threads run.
- A count of zero in `claim` and `try_claim` of the multi-producer strategy.
- Exceptions, allocation failure and object lifetimes.
- Statistics, console output and build scripts.
