# Verified models of DPsim's queues, argument permutation and simulator control

DPsim is a real-time power-system simulator. It carries two lock-free queues, a portable `getopt_long`,
and a control layer that steps the simulation, pauses it from Python, schedules events and keeps real time.
This project models these parts in Dafny and proves what they are relied on for: properties of every run,
every interleaving or every input.

`dafny verify dfyconfig.toml` checks everything. Each file holds one module.

| files | part of the system |
|---|---|
| `FreeList` | the reference-counted CAS free list |
| `DequeueCounters` | the optimistic-count / overcommit protocol by which consumers claim indices |
| `ExplicitProducer` with `-Proof`, `-Calls` and `-Cells` | the block ring and the growable block index of an explicit producer, on top of the counters |
| `ImplicitIndex`, `ImplicitIndexProof` | the block index of an implicit producer |
| `ImplicitProducer` with `-Proof`, `-Run`, `-Calls` and `-Cells` | the implicit producer as a whole: that index, the counters, blocks that count their dequeued elements, and their memory |
| `ProducerHash` | the chain of hash tables from thread ids to implicit producers |
| `SlotArithmetic` | the wrapping machine arithmetic the indices rest on |
| `Spsc` with `-Proof`, `-Run`, `-Queue` and `-Calls`, `PowerOfTwo` | the single-producer single-consumer queue |
| `PermuteArgs`, `Getopt`, `GetoptMeaning`, `GetoptScanner` | block exchange in argv, what option words mean, and the resumable option scanner |
| `Handshake` | pause, start, step and stop between the Python controller and the simulation thread |
| `Events`, `MnaSolver`, `Simulation` | the event queue, the factorizations by switch state, and the stepping loop around them |
| `Timer` | real-time ticks without timerfd |
| `NodeNumbering` | virtual nodes and simulation node numbers |
| `Arith`, `Chunks`, `Common` | division and remainder; indices cut into blocks; small shared types |

## How the models are built

The concurrent protocols are transition systems: one step per access to shared memory by one thread, any
number of consumers, any interleaving. A run is a sequence of states linked by steps; each main theorem is
about an arbitrary position of an arbitrary run. Every atomic operation is taken as sequentially consistent,
and indices are unbounded; `SlotArithmetic` shows separately that the wrapping words of the source compute
the same slots and comparisons. Loops over private data (filling a new block index, the constructor of the
queue, probing a hash table, the gcd and swap loops, the scanner, the catch-up loop of the timer) are methods
with invariants. Objects that are only used by one thread are classes.

Fields and variables that exist only for a proof are described as such where they are declared. Where the
model contains a guard that the code does not have (a cell must hold an element before it is read), a theorem
says that the guard is never false: `ReadersNeverStuck`, `AssertsHold`, `ConsumersNeverStuck`. `ImplicitIndex` by
itself lets consumers arrive only with blocks in the index, and take a block out only when alone with it;
`IndexRefined` proves that the whole implicit producer does nothing else to the index.

## What the proofs turned up

- **`stop()` while single-stepping** is lost unless the simulation is paused: the thread overwrites `stopping`
  by `paused`, and both sides then wait for ever (`Handshake.StopLost`). It works exactly if the thread is past
  its last look at `pausing` and `singleStepping`, as it is while paused (`Handshake.StopWorks`,
  `Handshake.StopNeverWorks`, `Handshake.StopFromPaused`).
- **`step()` on a running simulation** raises an error and yet makes it pause, because the flag is set before
  the state is looked at (`Handshake.RefusedStepPauses`). Once `start()` is called only `pause()`, `step()` or
  such a refused `step()` can lead to a pause (`Handshake.StartEndsStepping`).
- **`start()` right after `step()`** starts a second thread, because `step()` returns at once: it waits while
  the state is `running`, which it is not yet (`Handshake.SecondThread`). This happens exactly if `start()` is
  called while an earlier `start()` or `step()` is taking effect (`Handshake.OneThreadExactly`); the other
  theorems are for callers that do not do so.
- **Three or more switches**: the solver stores factorizations for `2 * n` switch states, not `2^n`. All states
  are covered exactly if there are at most two switches (`MnaSolver.CoveredExactly`); whatever the number, a
  solve is right exactly if the switch positions spell a number below `2 * n` (`Simulation.SolveIsRightExactly`).
- **Events act one step late**: a switch event executed in a step does not affect that step's solve, only the
  next one (`Simulation.EventsActOneStepLate`).
- **The timer reports an overrun for a sleep that ends exactly at its tick**: no tick is counted and the
  unsigned `ticks - 1` wraps (`Timer.OverrunOnTheDot`). Reports are right exactly if the sleep ends after the
  tick, and not by a positive multiple of 2^64 intervals (`Timer.ReportedWhenLateExactly`). The counters still
  add up (`Timer.TicksAreSleepsAndOverruns`).
- **getopt without long options** ends early, with the vector not in its final order, on a word such as `-a-`
  when `-` is not an option letter (`GetoptScanner.DashExample`). A run ends early exactly if one of the words
  read as options ends in such a `-` with no letter before it that takes an argument (`GetoptScanner.ParseAll`,
  `Getopt.MeetsDashExactly`); with long options it never does.
- **`circular_less_than`** is right when the true difference is exactly half the range upward and wrong when it
  is exactly half downward (`SlotArithmetic.CircularLessExactly`).

## Model

| member | source | states |
|---|---|---|
| FreeList.FourSituations | Include/dpsim/ConcurrentQueue.h:1375-1454 | in every state of every run the list is a finite chain without repetition, and each node is in exactly one of four situations: linked, held by callers, in the charge of exactly one thread, or flagged with a reference outstanding |
| FreeList.TakenNodeIsUnflagged | Include/dpsim/ConcurrentQueue.h:1406-1412 | the assertion in try_get holds, and the two references about to be subtracted are there |
| FreeList.InsertionIsAlone | Include/dpsim/ConcurrentQueue.h:1432-1454 | insertion runs at most once per node at a time; until it stores 1 the count is zero and nobody refers to the node |
| FreeList.NoDoubleHandOut | Include/dpsim/ConcurrentQueue.h:1389-1426 | between two hand-outs of a node there is a call of add on it |
| FreeList.HeldUntilAdded | Include/dpsim/ConcurrentQueue.h:1375-1387 | a node with the callers stays with them until add is called on it |
| FreeList.NothingLostAtRest | Include/dpsim/ConcurrentQueue.h:1375-1454 | when no call is in progress every node is on the list or with a caller, never both, with counts 1 and 0 |
| FreeList.LastDropper | Include/dpsim/ConcurrentQueue.h:1419-1422 | whoever drops the last reference of a flagged node finds it ownerless |
| FreeList.StepKeeps | Include/dpsim/ConcurrentQueue.h:1375-1454 | every atomic operation of any thread keeps the invariant |
| FreeList.MissedWhenEmpty | Include/dpsim/ConcurrentQueue.h:1389-1430 | a try_get that hands out nothing saw the list empty at a moment of that very call |
| FreeList.GetAlone | Include/dpsim/ConcurrentQueue.h:1389-1430 | a try_get that no other thread disturbs hands out the first node of the list in six steps, wherever the others stand, and misses only if there is none |
| FreeList.AddAlone | Include/dpsim/ConcurrentQueue.h:1375-1387 | an add that no other thread disturbs puts the node first, or leaves it flagged to those who still refer to it |
| FreeList.AloneDetermined | Include/dpsim/ConcurrentQueue.h:1389-1454 | a thread moving alone can come to no other end |
| DequeueCounters.HeadNeverPassesTail | Include/dpsim/ConcurrentQueue.h:1886-1934 | however stale the overcommit values the consumers use, head never passes tail and each claim lies below it |
| DequeueCounters.ClaimsPartition | Include/dpsim/ConcurrentQueue.h:2171-2192 | the claims made so far are disjoint and cover exactly the indices below head |
| DequeueCounters.FoundBelowTail | Include/dpsim/ConcurrentQueue.h:1886-1934 | all that consumers have found, claimed or about to be, fits below the tail |
| DequeueCounters.CaughtUpAtRest | Include/dpsim/ConcurrentQueue.h:1886-1934 | with no dequeue in progress, optimistic count less overcommit is exactly head |
| DequeueCounters.FindsWhatIsThere | Include/dpsim/ConcurrentQueue.h:1886-1934 | a dequeue that meets no other fails only if there was nothing, and else claims the oldest elements, at least as many as there were up to its maximum, while the producer goes on |
| DequeueCounters.FindsExactly | Include/dpsim/ConcurrentQueue.h:2171-2192 | if the producer is still it fails exactly if there is nothing, and else claims exactly the smaller of its maximum and what there is |
| DequeueCounters.WaitFree | Include/dpsim/ConcurrentQueue.h:1886-1934 | whatever the others do, a consumer can always step and has its claim or its failure after at most seven steps |
| ExplicitProducerProof.DeliversWhatWasEnqueued | Include/dpsim/ConcurrentQueue.h:1934-1971 | a dequeue that claimed indices from i on hands out exactly the items enqueued under those indices, in order |
| ExplicitProducerProof.UndequeuedIsIntact | Include/dpsim/ConcurrentQueue.h:1783-1883 | reusing a block, overwriting the oldest index slot and doubling the index never disturb an undequeued element or an index entry leading to it, in any header |
| ExplicitProducerProof.ReadersNeverStuck | Include/dpsim/ConcurrentQueue.h:1934-1971 | a consumer with a claim always finds its slot, block and element, and the flag it sets was clear |
| ExplicitProducerProof.FlagWasClear | Include/dpsim/ConcurrentQueue.h:1513-1565 | the assertion of set_empty and set_many_empty |
| ExplicitProducerProof.DeliveredOnce | Include/dpsim/ConcurrentQueue.h:2171-2258 | no index is delivered twice |
| ExplicitProducerProof.ExactlyOnceAtRest | Include/dpsim/ConcurrentQueue.h:2171-2258 | with no dequeue in progress exactly the indices below head have been delivered, each once |
| ExplicitProducerProof.ItemsAppendOnly | Include/dpsim/ConcurrentQueue.h:1783-1883 | an index means the same item ever after |
| ExplicitProducerCalls.DequeueFindsWhatIsThere | Include/dpsim/ConcurrentQueue.h:1886-1971 | a dequeue that meets no other hands out the oldest items, at least as many as there were up to its maximum, and fails only if there was none |
| ExplicitProducerCalls.DequeueFindsExactly | Include/dpsim/ConcurrentQueue.h:2171-2258 | with the producer still, the answer is exactly the oldest items up to the maximum, or failure exactly if there is none |
| ExplicitProducerCalls.ReadingIsWaitFree | Include/dpsim/ConcurrentQueue.h:1934-1971 | a consumer with a claim can always step, and each step brings it closer to the delivery |
| ExplicitProducerCalls.EnqueueIsWaitFree | Include/dpsim/ConcurrentQueue.h:1783-1883 | an enqueue can always step without being refused, and each step brings it closer to its end |
| ExplicitProducerCalls.EnqueueAnswer | Include/dpsim/ConcurrentQueue.h:1783-1883 | an enqueue that succeeds has entered just the item it was called with |
| ExplicitProducerCalls.RefusedOnlyForMemory | Include/dpsim/ConcurrentQueue.h:1805-1835 | an enqueue is refused only at a block boundary, where a full index was to be doubled or a block requisitioned |
| ExplicitProducerCalls.ReusesEmptyBlock | Include/dpsim/ConcurrentQueue.h:1789-1804 | if the block ahead is empty when a boundary is reached, the enqueue uses it, allocates nothing and is not refused |
| ExplicitProducerCalls.OldestIsAhead | Include/dpsim/ConcurrentQueue.h:1792-1796 | the block ahead is the oldest of the ring, and is empty once all its elements are dequeued |
| ExplicitProducerCells.ConstructsInVoid | Include/dpsim/ConcurrentQueue.h:1877-1883 | the cell in which an element is constructed holds none, since taken elements are destroyed before their block is used again |
| ExplicitProducer.CopyEntries | Include/dpsim/ConcurrentQueue.h:2279-2316 | the copying loop puts the entries in use, oldest first, at the start of the new index |
| Chunks.ChunkIsDivision | Include/dpsim/ConcurrentQueue.h:1942-1948 | counting blocks by walking is the division and masking of the source |
| ImplicitIndexProof.LookupFindsBlock | Include/dpsim/ConcurrentQueue.h:2858-2874 | every lookup through any header, current or superseded, ends at the entry whose key is its block and whose value is that block's memory; the tail slot always has a key |
| ImplicitIndexProof.LiveBlockHasOneEntry | Include/dpsim/ConcurrentQueue.h:2816-2849 | a live block is in exactly one slot of the newest header, with its value |
| ImplicitIndex.FillIndex | Include/dpsim/ConcurrentQueue.h:2892-2906 | the loops of new_block_index turn the old index so that its oldest slot comes first and append the new entries |
| ImplicitIndexProof.RunInvariant | Include/dpsim/ConcurrentQueue.h:2816-2918 | inserts, rewinds, slot reuse, releases and doublings keep the index invariant |
| ImplicitProducerRun.DeliversWhatWasEnqueued | Include/dpsim/ConcurrentQueue.h:2474-2541 | a dequeue that claimed indices from i on hands out exactly the items enqueued under those indices, in order, whatever blocks are released and reused meanwhile |
| ImplicitProducerRun.ConsumersNeverStuck | Include/dpsim/ConcurrentQueue.h:2695-2793 | a consumer with a claim always finds a key in the tail slot, its block in its entry and its item in the cell, its count never exceeds the block, and it can always take its next step |
| ImplicitProducerRun.IndexRefined | Include/dpsim/ConcurrentQueue.h:2474-2541 | whatever the whole does to the index is a step of the index model: claims are of blocks in the index, and a block is taken out when no other consumer has to do with it |
| ImplicitProducerRun.DeliveredOnce | Include/dpsim/ConcurrentQueue.h:2695-2793 | no index is delivered twice |
| ImplicitProducerRun.ExactlyOnceAtRest | Include/dpsim/ConcurrentQueue.h:2695-2793 | with no dequeue in progress exactly the indices below head have been delivered, each once |
| ImplicitProducerRun.ItemsAppendOnly | Include/dpsim/ConcurrentQueue.h:2410-2471 | an index means the same item ever after |
| ImplicitProducerRun.MemoryAtRest | Include/dpsim/ConcurrentQueue.h:2695-2793 | with no call in progress the blocks given back to the pool are exactly those wholly below head, and the memory held is exactly that of the others: no leak, no early release |
| ImplicitProducerRun.CompletedIsFinished | Include/dpsim/ConcurrentQueue.h:1532-1552 | at any moment a block with all its elements dequeued has been given back or is about to be, by some consumer |
| ImplicitProducerRun.NoMemoryShared | Include/dpsim/ConcurrentQueue.h:2410-2471 | at any moment different blocks that are held have different memory |
| ImplicitProducerProof.CompletesBlock | Include/dpsim/ConcurrentQueue.h:1532-1552 | the assertion of set_many_empty, and that the count reaches BLOCK_SIZE only when every element of the block is dequeued |
| ImplicitProducerProof.EraseAlone | Include/dpsim/ConcurrentQueue.h:2770-2782 | the consumer that takes a block out of the index is the only one that has to do with it |
| ImplicitProducerProof.StepKeeps | Include/dpsim/ConcurrentQueue.h:2410-2541 | every step of the producer, of any consumer and of the rest of the program keeps the invariant |
| ImplicitProducerCalls.DequeueFindsWhatIsThere | Include/dpsim/ConcurrentQueue.h:2474-2541 | a dequeue that meets no other hands out the oldest items, at least as many as there were up to its maximum, and fails only if there was none |
| ImplicitProducerCalls.DequeueFindsExactly | Include/dpsim/ConcurrentQueue.h:2695-2793 | with the producer still, the answer is exactly the oldest items up to the maximum, or failure exactly if there is none |
| ImplicitProducerCalls.TakingIsWaitFree | Include/dpsim/ConcurrentQueue.h:2695-2793 | a consumer with a claim can always step, and each step brings it closer to the delivery |
| ImplicitProducerCalls.EnqueueIsWaitFree | Include/dpsim/ConcurrentQueue.h:2410-2471 | an enqueue can always step, unrefused unless it is over the limit or got no block, and each step brings it closer to its end |
| ImplicitProducerCalls.EnqueueAnswer | Include/dpsim/ConcurrentQueue.h:2410-2471 | an enqueue that succeeds has entered just the item it was called with |
| ImplicitProducerCalls.RefusedOnlyForRoom | Include/dpsim/ConcurrentQueue.h:2414-2440 | an enqueue is refused only at a block boundary, over the size limit or where the index was to be doubled or a block requisitioned |
| ImplicitProducerCalls.SizeWithinLimit | Include/dpsim/ConcurrentQueue.h:2416-2420 | over every run the producer never holds more elements than MAX_SUBQUEUE_SIZE |
| ImplicitProducerCells.GivenBackEmpty | Include/dpsim/ConcurrentQueue.h:2770-2782 | a block that is given back holds no element |
| ProducerHash.CallAll | Include/dpsim/ConcurrentQueue.h:3294-3441 | over any sequence of calls two successes return the same producer exactly if they come from the same thread, a thread that succeeded never fails later, and no call fails that gets its memory |
| ProducerHash.Producers.GetOrAdd | Include/dpsim/ConcurrentQueue.h:3294-3441 | a known id gets its producer, a new one a producer never given before; it fails exactly if memory it needs is refused; bindings are never lost |
| ProducerHash.Producers.Find | Include/dpsim/ConcurrentQueue.h:3313-3355 | the search through all tables finds exactly the bound ids and leaves a found id in the main table |
| ProducerHash.Producers.Resize | Include/dpsim/ConcurrentQueue.h:3360-3393 | a table is added exactly if the new count reaches half of the main one, and is the least doubling with room; older tables are unchanged |
| ProducerHash.FreeSlotEverywhere | Include/dpsim/ConcurrentQueue.h:3317-3353 | every table has a free slot and is under three quarters used, so every probe loop ends |
| ProducerHash.Search | Include/dpsim/ConcurrentQueue.h:3315-3353 | probing finds the value of a key that is in the table and reports absence exactly otherwise |
| ProducerHash.Claim | Include/dpsim/ConcurrentQueue.h:3416-3433 | the claiming loop adds exactly the one binding and keeps every key reachable by probing |
| SlotArithmetic.SlotIsTrueDistance | Include/dpsim/ConcurrentQueue.h:1942-1948 | wrapping subtraction, division by the unsigned block size and mask select the slot of the true signed block distance, for all distances, if index size times block size divides the range |
| SlotArithmetic.SlotRightExactly | Include/dpsim/ConcurrentQueue.h:2868-2871 | with index_t as wide as size_t this holds for all positions if and only if it divides |
| SlotArithmetic.CircularLessExactly | Include/dpsim/ConcurrentQueue.h:406-413 | circular_less_than agrees with the order of the true indices exactly if their difference is above minus half the range and at most half |
| SlotArithmetic.BaseOfWrapped | Include/dpsim/ConcurrentQueue.h:1943-1946 | masking out the place within a block commutes with wrapping |
| SpscRun.FirstInFirstOut | Include/dpsim/ReaderWriterQueue.h:293-360 | over every interleaving what has come out is a prefix of what has gone in, and the next element out, or shown by peek, is the next of it |
| SpscRun.MissedWhenEmpty | Include/dpsim/ReaderWriterQueue.h:293-360 | a dequeue, pop or peek that finds nothing looked at a moment when everything sent had been received |
| SpscRun.RefusedWhenFull | Include/dpsim/ReaderWriterQueue.h:516-607 | an enqueue that may not allocate fails only if the queue held at least maxSize elements when it looked |
| SpscRun.AssertsHold | Include/dpsim/ReaderWriterQueue.h:536-565 | the internal assertions of enqueue, dequeue and peek hold, and no side reads a slot without an element |
| SpscRun.RingShape | Include/dpsim/ReaderWriterQueue.h:324-341 | blocks after the front up to the tail hold elements, the others none but for one being published, and in each block the shadow and real indices stay in circular order |
| SpscRun.RunInvariant | Include/dpsim/ReaderWriterQueue.h:502-607 | every step of either side keeps the invariant |
| SpscRun.MaskedSuccessor | Include/dpsim/ReaderWriterQueue.h:520-521 | advancing an index with the mask is wrapping by the block size |
| SpscRun.MaskedDistance | Include/dpsim/ReaderWriterQueue.h:486-487 | the masked wrapping difference is the number of elements |
| SpscQueue.SizeApprox | Include/dpsim/ReaderWriterQueue.h:478-491 | taken while nothing moves, it is the number of elements sent and not received, one more while a filled block awaits publication |
| SpscQueue.ContentsAreQueue | Include/dpsim/ReaderWriterQueue.h:293-360 | the blocks from front to tail, read in order, hold exactly what was sent and not received |
| SpscQueue.Construct | Include/dpsim/ReaderWriterQueue.h:89-145 | the constructor yields an initial state with room for maxSize; the number and sizes of blocks are as its comment derives |
| SpscQueue.BlockCount | Include/dpsim/ReaderWriterQueue.h:102-109 | the initial block count is maxSize divided by the usable slots of a block, rounded up, plus one |
| SpscQueue.SizesStayPowers | Include/dpsim/ReaderWriterQueue.h:567-575 | all block sizes stay powers of two, as masking needs, and none grows beyond the first one and the maximum block size |
| SpscCalls.EnqueueAnswer | Include/dpsim/ReaderWriterQueue.h:516-607 | an enqueue enters just the element it was called with; only a call that may not allocate is refused, only one that may runs out of memory |
| SpscCalls.DequeueAnswer | Include/dpsim/ReaderWriterQueue.h:293-460 | peek answers without taking, the other calls by taking |
| SpscCalls.AllocatesWhenFull | Include/dpsim/ReaderWriterQueue.h:536-599 | a further block is allocated only if the queue held at least maxSize elements when the enqueue looked |
| SpscCalls.EnqueueIsWaitFree | Include/dpsim/ReaderWriterQueue.h:516-607 | an enqueue can always step and each step brings it closer to its answer |
| SpscCalls.DequeueIsWaitFree | Include/dpsim/ReaderWriterQueue.h:293-460 | and so can the consumer's calls |
| PowerOfTwo.CeilToPow2 | Include/dpsim/ReaderWriterQueue.h:619-631 | the bit smearing returns the least power of two not below its argument, and zero outside the range |
| PowerOfTwo.MaskIsMod | Include/dpsim/ReaderWriterQueue.h:520-521 | masking with a power of two less one is the remainder |
| PermuteArgs.Permute | Include/dpsim/Compat/getopt.h:180-210 | argv has the two adjacent blocks exchanged, each in its order, and is otherwise unchanged |
| PermuteArgs.Gcd | Include/dpsim/Compat/getopt.h:160-173 | the result divides both numbers, with cofactors that satisfy Bezout's identity |
| PermuteArgs.GcdIsGreatest | Include/dpsim/Compat/getopt.h:157-173 | cofactors with Bezout's identity make it the greatest common divisor |
| PermuteArgs.CycleIsClass | Include/dpsim/Compat/getopt.h:195-209 | the cycles are the remainder classes: pairwise disjoint, and elements never leave theirs |
| PermuteArgs.VisitTurn | Include/dpsim/Compat/getopt.h:198-208 | every place of a cycle is visited within one round of total/gcd swaps |
| PermuteArgs.TurnVisit | Include/dpsim/Compat/getopt.h:198-208 | no place is visited twice in a round |
| Getopt.LookupFinds | Include/dpsim/Compat/getopt.h:314-345 | the search of the long options gives the first exact match, else the first abbreviated one unless abbreviations differ in meaning |
| Getopt.MatchUnique | Include/dpsim/Compat/getopt.h:314-345 | that description determines the answer |
| Getopt.FindLong | Include/dpsim/Compat/getopt.h:314-337 | the loop computes the function the lemmas are about |
| GetoptMeaning.LookupMeaning | Include/dpsim/Compat/getopt.h:314-345 | the match of a name in terms of the fields of the options: exact, abbreviated, or ambiguous if argument, flag or value differ |
| GetoptMeaning.LookupNothing | Include/dpsim/Compat/getopt.h:314-345 | a name that begins no option matches none |
| GetoptMeaning.LettersMeaning | Include/dpsim/Compat/getopt.h:434-451 | how a leading '+', '-' or ':' of the option string, POSIXLY_CORRECT and permutation set the mode and the answer to errors |
| GetoptMeaning.LongWithValue | Include/dpsim/Compat/getopt.h:306-410 | "name=v" gives argument v, one word, the option's index and value, or an error if it takes none |
| GetoptMeaning.LongAlone | Include/dpsim/Compat/getopt.h:346-410 | a bare name gives no argument, or the next word if one is required, or an error if there is none |
| GetoptMeaning.LongUnmatched | Include/dpsim/Compat/getopt.h:338-403 | unknown and ambiguous names are errors, or are tried as a letter |
| GetoptMeaning.TextSplits | Include/dpsim/Compat/getopt.h:306-312 | every text is a name or a name, '=' and a value, so these cases are all |
| GetoptMeaning.LongWord | Include/dpsim/Compat/getopt.h:532-548 | a word "--text" is the long option text |
| GetoptMeaning.LongOnlyWord | Include/dpsim/Compat/getopt.h:532-548 | with getopt_long_only "-text" is tried as a long option first |
| GetoptMeaning.LetterMeaning | Include/dpsim/Compat/getopt.h:585-607 | a listed letter without argument, with attached text, with the next word, with an optional or a missing argument |
| GetoptMeaning.LetterW | Include/dpsim/Compat/getopt.h:568-584 | "W;" makes the argument of W a long option |
| GetoptMeaning.UnlistedLetter | Include/dpsim/Compat/getopt.h:551-567 | an unlisted letter is an error, but for a '-' at the end of its word |
| GetoptMeaning.ClusterMeaning | Include/dpsim/Compat/getopt.h:585-590 | flags sharing a word are options one by one, and what follows them means the same as by itself |
| Getopt.ScanMerges | Include/dpsim/Compat/getopt.h:453-527 | options with their arguments on one side and operands on the other interleave to the argument vector, each in its order |
| Getopt.MergeCounts | Include/dpsim/Compat/getopt.h:453-527 | so the two sides together are a permutation of it |
| Getopt.OperandsAreNonOptions | Include/dpsim/Compat/getopt.h:474-505 | when permuting, operands are non-options except behind "--" |
| GetoptMeaning.OptionWordMeaning | Include/dpsim/Compat/getopt.h:474-475 | which words are options |
| GetoptMeaning.NonOptionMeaning | Include/dpsim/Compat/getopt.h:474-505 | what a non-option in front does in each mode |
| GetoptMeaning.DashDashMeaning | Include/dpsim/Compat/getopt.h:509-526 | everything behind "--" is an operand |
| Getopt.DashInExactly | Include/dpsim/Compat/getopt.h:551-560 | an option word has the early exit in it exactly if there are no long options, it ends in a "-" that is no option letter, and no letter before that takes an argument |
| Getopt.MeetsDashExactly | Include/dpsim/Compat/getopt.h:551-560 | a vector leads to the early exit exactly if one of the words read as options is such a word |
| GetoptScanner.ParseAll | Include/dpsim/Compat/getopt.h:416-607 | calling until -1 hands out the options of the vector in order and leaves argv a permutation of what it was; it ends with options first, then operands, both in original order, and optind at the first operand, if and only if no word read as an option has the early exit in it, so always with long options |
| GetoptScanner.DashExample | Include/dpsim/Compat/getopt.h:551-560 | the run over "x" and "-a-" without long options hands out 'a' and ends unfinished |
| GetoptScanner.Scanner.WordsKept | Include/dpsim/Compat/getopt.h:416-607 | between any two calls argv is a permutation of what it was |
| GetoptScanner.Scanner.Next | Include/dpsim/Compat/getopt.h:416-607 | each call hands out the next option and keeps the layout; -1 means finished exactly if no unlisted "-" is pending at the end of a cluster, which is so exactly if none is ahead |
| GetoptScanner.Scanner.NextWord | Include/dpsim/Compat/getopt.h:453-527 | the start loop passes non-options according to the mode and stops at the next option word |
| GetoptScanner.Scanner.Skip | Include/dpsim/Compat/getopt.h:492-504 | skipping a non-option moves the earlier ones behind the options found since and changes nothing still to be handed out |
| GetoptScanner.Scanner.Conclude | Include/dpsim/Compat/getopt.h:456-473 | at the end argv is options then operands and optind is at the first operand |
| GetoptScanner.Scanner.DashDash | Include/dpsim/Compat/getopt.h:509-526 | "--" ends the options and what follows keeps its place |
| GetoptScanner.Scanner.ParseLong | Include/dpsim/Compat/getopt.h:288-410 | the values returned and left in optind, optarg, optopt and the index are those of the long-option step, in all error cases too |
| GetoptScanner.Scanner.ShortLetter | Include/dpsim/Compat/getopt.h:551-607 | the same for a letter, including "W;" and optional arguments |
| GetoptScanner.Unfinished | Include/dpsim/Compat/getopt.h:559-560 | the early exit never leaves a finished vector |
| Handshake.PausedMeansStill | Source/Python/Simulation.cpp:95-108 | while paused no time step runs until start, step or stop is called |
| Handshake.StillAfterPause | Source/Python/Simulation.cpp:418-434 | after pause has returned the simulation is paused and no time step runs until start, step or stop is called |
| Handshake.OneStepBetweenPauses | Source/Python/Simulation.cpp:72-122 | while single-stepping exactly one time step lies between two pauses |
| Handshake.StartEndsStepping | Source/Python/Simulation.cpp:443-471 | after start the simulation does not pause before pause or step is called |
| Handshake.PauseTakesEffect | Source/Python/Simulation.cpp:95-108 | unless the run ends, the thread pauses within six of its steps after pause is called, among them at most one time step |
| Handshake.StepTakesEffect | Source/Python/Simulation.cpp:481-508 | after step on a paused simulation the thread is paused again after exactly seven of its steps, unless the run ends or another call comes |
| Handshake.ThreadGoesOn | Source/Python/Simulation.cpp:72-122 | a thread that is neither gone nor waiting while paused can always step |
| Handshake.RefusedStepPauses | Source/Python/Simulation.cpp:481-503 | a reachable state in which step raises an error and yet leads to a pause |
| Handshake.ReturnsReached | Source/Python/Simulation.cpp:443-530 | when start returns the thread runs, when stop returns there is none, when step returns the simulation is not running |
| Handshake.StillAfterStop | Source/Python/Simulation.cpp:514-530 | after stop has returned no time step runs until start or step is called |
| Handshake.StopFromPaused | Source/Python/Simulation.cpp:514-530 | stop called while paused reaches stopped in three steps without a time step |
| Handshake.StopWorks | Source/Python/Simulation.cpp:101-115 | stop called when the thread is past its last look at the pause conditions reaches stopped after what the thread has left to do, without a time step |
| Handshake.StopNeverWorks | Source/Python/Simulation.cpp:95-122 | called at any other moment of single-stepping, it never reaches stopped |
| Handshake.OneThreadExactly | Source/Python/Simulation.cpp:443-471 | start leaves at most one thread alive if and only if no earlier start or step is taking effect |
| Handshake.StopLost | Source/Python/Simulation.cpp:95-115 | a reachable deadlock: stop called while single-stepping and not paused |
| Handshake.SecondThread | Source/Python/Simulation.cpp:443-508 | start right after step starts a second thread beside the first |
| Handshake.RunInvariant | Source/Python/Simulation.cpp:72-122 | in runs of disciplined callers at most one thread lives, and a paused simulation has its thread waiting |
| Events.EventQueue.HandleEvents | Source/Event.cpp:31-43 | exactly the events due by now are executed, in order of time, with their effects; the others stay |
| Events.EventQueue.AddEvent | Source/Event.cpp:27-29 | the event is pending, whatever else is |
| Events.LastEventDecides | Include/dpsim/Event.h:98-103 | a switch is where the last event about it put it |
| Events.UntouchedSwitch | Include/dpsim/Event.h:98-103 | a switch no event is about stays as it was |
| Events.LastValueStays | Include/dpsim/Event.h:74-83 | an attribute has the value the last event about it gave it |
| Events.UntouchedAttribute | Include/dpsim/Event.h:74-83 | an attribute no event is about stays as it was |
| Events.SomeEarliest | Include/dpsim/Event.h:58-63 | a non-empty queue has an event no other is earlier than |
| Simulation.ExecutedWhenDue | Source/Simulation.cpp:128-160 | each scheduled event is executed in the first step after scheduling that starts at or after its time, as often as scheduled, in no other step, or is pending exactly if there was no such step |
| Simulation.DueStep | Source/Simulation.cpp:113-115 | for an event scheduled before the run that is the step after the last one starting before its time |
| Simulation.DueOnce | Source/Event.cpp:34-42 | there is at most one such step |
| Simulation.NothingLostOrRepeated | Source/Event.cpp:31-43 | executed plus pending equals scheduled, as multisets |
| Simulation.ExecutedInOrder | Include/dpsim/Event.h:58-63 | if all were scheduled before the run, execution times are non-decreasing over the whole run |
| Simulation.LaterBatchLater | Source/Event.cpp:31-43 | a later step executes only later events, among those scheduled by the earlier step |
| Simulation.RowCount | Source/Simulation.cpp:150-154 | in n steps a logger with downsampling d fires n/d times rounded up; counted from when it was added |
| Simulation.RowAt | Source/Simulation.cpp:150-154 | its rows are those of every d-th step from the first |
| Simulation.Simulate | Source/Simulation.cpp:101-160 | a whole simulation: it makes just the steps needed, every event is executed once in its step and in order of time or is still pending, each logger has a row for every d-th step with its time, each solve used the positions from before its step's events, and switches and attributes end as the executed events leave them |
| Simulation.HistorySaysAll | Source/Event.cpp:31-43 | the event history kept by every step means just that |
| Simulation.Simulation.Step | Source/Simulation.cpp:128-160 | one step more, with the time, the executed events, their effects on switches and attributes, the solve and the logger rows all as the history says |
| Simulation.Simulation.Run | Source/Simulation.cpp:101-126 | the run makes just the steps needed to reach the final time |
| Simulation.Simulation.AddEvent | Include/dpsim/Simulation.h:126-128 | scheduling between steps keeps the histories right |
| Simulation.SolveIsRightExactly | Source/MNASolver.cpp:197-202 | in every run a solve uses the matrix of the positions at the start of its step exactly if they spell a number below twice the number of switches |
| Simulation.FewSwitchesAlwaysRight | Source/MNASolver.cpp:340-368 | with at most two switches every solve of every run is right |
| Simulation.EventsActOneStepLate | Source/MNASolver.cpp:340-368 | two runs that agree before a step solve it alike, whatever that step's events |
| MnaSolver.CoveredExactly | Source/MNASolver.cpp:216-225 | all positions of n switches have their factorization exactly if n is at most two |
| MnaSolver.SolvesRightExactly | Source/MNASolver.cpp:197-202 | the condition for one set of positions, and that otherwise a default-constructed factorization is used |
| MnaSolver.StoredExactly | Source/MNASolver.cpp:223-224 | the stored keys are exactly the numbers below 2n |
| MnaSolver.Solver.Initialize | Source/MNASolver.cpp:96-105 | each stored key gets the factorization of the matrix stamped with the positions it spells; more than 32 switches are refused |
| MnaSolver.Solver.UpdateSwitchStatus | Source/MNASolver.cpp:133-138 | the status holds the positions of all switches |
| MnaSolver.Solver.Solve | Source/MNASolver.cpp:196-202 | which factorization is used, whatever earlier lookups inserted |
| MnaSolver.Solver.Step | Source/MNASolver.cpp:339-369 | the solve uses the positions read last time, then they are read anew |
| Timer.Timer.Sleep | Source/Timer.cpp:60-91 | the next tick ends at the first tick of the schedule not before the clock; the counters and the reported overrun, with all wrap-around |
| Timer.Timer.Start | Source/Timer.cpp:93-125 | the schedule begins at the set start carried to the steady clock, or now |
| Timer.SleepAll | Source/Timer.cpp:60-91 | after any number of sleeps the ticks gone by depend only on the latest clock reading: no drift |
| Timer.TicksAreSleepsAndOverruns | Source/Timer.cpp:81-84 | ticks are sleeps plus overruns, modulo 2^64 always, exactly while below 2^63 |
| Timer.ReportedWhenLateExactly | Source/Timer.cpp:81-90 | an overrun is reported for two or more ticks and nothing else if and only if the sleep ended after its tick and not by a positive multiple of 2^64 intervals |
| Timer.TicksOfLateness | Source/Timer.cpp:75-78 | a sleep counts one tick for being late and one for each further whole interval |
| Timer.OverrunOnTheDot | Source/Timer.cpp:75-81 | a sleep that ends at its very tick reports 2^64 - 1 overruns |
| Timer.PassedUnique | Source/Timer.cpp:75-78 | how many ticks go by is determined |
| NodeNumbering.Prepare | Source/MNASolver.cpp:36-40 | after the three steps the nodes are the non-ground ones and fresh, distinct virtual ones, each component has its own, and all are numbered |
| NodeNumbering.Numbering.SimNodesAreBijection | Source/MNASolver.cpp:175-194 | the numbers are a bijection onto 0 .. numSimNodes - 1, network nodes having exactly the first numNetSimNodes |
| NodeNumbering.Numbering.AssignSimNodes | Source/MNASolver.cpp:175-194 | each phase of each node gets the number of its place, three in a row for a three-phase node, and the totals are right, also without network nodes |
| NodeNumbering.Numbering.CreateVirtualNodes | Source/MNASolver.cpp:239-266 | fresh, distinct nodes behind the network nodes, each component's in a row in the order of components |
| NodeNumbering.Numbering.ServeOne | Source/MNASolver.cpp:250-257 | one component's nodes, with the counter that wraps below zero when there is no node yet |
| NodeNumbering.Numbering.Identify | Source/MNASolver.cpp:141-148 | the network nodes are the non-ground ones in order |
| NodeNumbering.NumbersCover | Source/MNASolver.cpp:175-187 | every number below the total belongs to a phase of a node |
| NodeNumbering.NumbersApart | Source/MNASolver.cpp:175-187 | distinct places have distinct numbers |
| NodeNumbering.NetworkFirst | Source/MNASolver.cpp:186-190 | exactly the network nodes have the numbers below numNetSimNodes |
| NodeNumbering.WidthsMeaning | Source/MNASolver.cpp:175-187 | there is a number for each node and two more for each three-phase one |
| NodeNumbering.VirtualNodesApart | Source/MNASolver.cpp:247-258 | no virtual node is given twice |

## Left out

- Weak memory: fences and relaxed, acquire and release orders are not modelled; every atomic operation is sequentially consistent.
- `enqueue_bulk` of both producers, construction that throws, destruction, alignment, moving and swapping of queues.
- The order of producers in a `ConcurrentQueue`, tokens, and the global block pool; blocks come from an allocator that may fail.
- ImplicitIndexProof.LookupFindsBlock: that consumers arrive with blocks in the index and release them when alone is part of the index model; it is proved of the whole by ImplicitProducerRun.IndexRefined.
- ImplicitProducerRun.DeliversWhatWasEnqueued: elements whose construction or assignment may throw are not modelled, and the pool hands out memory that the producer does not hold, as the free list does.
- ExplicitProducerCalls.RefusedOnlyForMemory: MAX_SUBQUEUE_SIZE is left at its default, no limit; an explicit producer would look at it only where it needs a new block.
- ProducerHash.CallAll: calls run one at a time; the races between concurrent insertions and resizes are not modelled, and producers are not recycled, since the thread-exit listener is compiled out.
- SpscQueue.SizeApprox: only while neither side moves; taken during a move the result is an approximation by design.
- `BlockingReaderWriterQueue`: its semaphore is not part of this model.
- GetoptScanner.ParseAll: restarting through `optreset` or `optind == 0`, a null option string and the printed messages are not modelled; option values are not -1.
- Handshake.PausedMeansStill: liveness is not claimed, `failOnOverrun` is off, and there is one controller.
- Component stamps, LU numerics, steady-state initialization and the other solvers: floating point and code outside the repository. Switches are assumed to change only through events and to be stamped only as switches.
- Rounding: simulation times are reals.
- Timer.Timer.Sleep: the interval is fixed at construction and positive; conversion from seconds and the timerfd variant are not modelled.
- NodeNumbering.Prepare: nodes and components of a system are distinct objects and the node count fits a UInt.
- Shared-memory interfaces, data files, CIM loading, Python types, progress bars and command-line values: input and output.
