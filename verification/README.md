# Verified model of small message-driven runtimes and shared-memory structures

This project models the hard parts of seven pieces of the repository and proves what they are for:

- **Workgroup scheduler** (`Kahn`, `Scheduler`, `WorkgroupObject`, `Migration`): suspended tasks are resumed by
  continuation id; messages that arrive early, out of turn or before their task are buffered. Every run, seen
  from any task, is a sequential process that reads one FIFO channel per continuation.
- **Relaxation** (`Relaxation`, `RelaxationProof`, `RelaxationResults`, `RelaxationTaskObject`): any number of
  workers exchange ghosts without iteration tags over a network without order, separated only by an all-reduce.
- **Bounded multi-producer queue** (`MpscQueue`, `MpscProof`, `MpscCounts`, `MpscResults`, `MpscWrap`, `MpscSteps`,
  `MpscCalls`, `LockFreeQueueObject`): every atomic operation and every slot access is a step; any number of producers.
- **Block pools and queues** (`SizeClasses`, `BlockLists`, `BlockProof`, `BlockResults`, `BlockSizes`, `BlockCalls`,
  `SharedBlocksObject`): exchanging a list's head with null is its lock; one `next` field serves both structures.
- **Charmlite collectives** (`TreeBroadcast`, `CollectiveBranchObject`, `Delivery`, `EndpointObjects`,
  `Reduction`, `ReductionTree`): ordered broadcasts down a tree, two levels of buffers, combining.
- **Completion detection** (`CompletionDetection`, `CompletionProof`, `CompletionResults`, `CompletionCounts`,
  `CompletionObjects`): waves of an all-reduce over counts that each PE samples when it suits it.
- **Dataflow components** (`InputMatching`, `InputTurns`, `ComponentObject`): partial tuples filled oldest gap first.

How it is built. Concurrent pieces are systems of steps: a state, `Enabled`, `Next`, and runs of any length in any
interleaving; an invariant is proved of every run (`...Proof`), and the results are read off it (`...Results`).
Objects whose methods update fields are classes (`...Object`, `...Objects`); each method is proved to do what the
functions or steps of its model say, so the results about runs are about the methods too. Module `Wrappers` has
the option type, `Modulo` the arithmetic of counters that wrap.

Instrumentation (ticket numbers, places of blocks, the round in a result, logs of calls) is part of the states
but no branch of the modelled code reads it, except where it stands for what the code addresses directly.

Three statements of the design are false of the code as it stands; the code is kept, a failing run or input is given,
and the exact condition is proved:

- The bounded queue never overwrites a value (`MpscWrap.NeverFailsIffDividing`), is first-in first-out
  (`MpscWrap.FifoIffDividing`) and misses only when it should (`MpscWrap.HonestIffDividing`, `MpscWrap.MissIffDividing`,
  `MpscWrap.SlotsIffDividing`) in every run if and only if the number of slots divides 2^64, the range of its ticket
  counter. Otherwise, after the counter wraps, a run overwrites a value (`MpscWrap.Overwritten`), yields a younger value
  first (`MpscWrap.Reordered`), or hides one (`MpscWrap.HiddenValue`).
- All chares process the same broadcasts if and only if fewer than 65536 are started
  (`TreeBroadcast.EqualIffCounterHolds` and `TreeBroadcast.AllEqualIffFewer`, for a counter of any width): the number
  after 65535 is 0, which does not mark a broadcast (`TreeBroadcast.CounterOverrun`).
- A persistent component runs its tuples in the order of arrival if and only if at most one tuple was complete when it
  was activated (`InputMatching.InOrderIffAtMostOne`); with two pairs it runs the second first
  (`InputMatching.OutOfOrder`).

`ipc::queue` is last-in first-out despite its name, and is proved so. `CompletionResults.ZeroMeansDone` assumes
that the local branches exist, as the program's comments intend.

## Model

| member | source | states |
|---|---|---|
| Kahn.RunDeterminate | archive/path2.0/include/hypercomm/workgroup.hpp:247-324 | The reference process depends on the contents of its channels only, not on how they were interleaved |
| Kahn.RunExtends | archive/path2.0/include/hypercomm/workgroup.hpp:247-324 | A later message only extends a run: running on more messages is running, then going on |
| Kahn.RunConserves | archive/path2.0/include/hypercomm/workgroup.hpp:247-328 | Every channel is what was read, in order, followed by what is left |
| Kahn.RunIsTheOne | archive/path2.0/include/hypercomm/workgroup.hpp:247-324 | An outcome is that of the reference process if and only if it performs steps of live tasks on the continuation awaited, splits every channel into what was taken, in order, and what is left, and stops only at the end or at an empty channel |
| Scheduler.TasksRunComplete | archive/path2.0/include/hypercomm/workgroup.hpp:232-328 | Said without the reference process: the calls and the state of a task are those of one such complete run on its messages, and the rest is buffered |
| Scheduler.RunRefines | archive/path2.0/include/hypercomm/workgroup.hpp:232-328 | After any entry methods in any order each task's state, calls and buffers are those of the reference process on its creation and messages |
| Scheduler.Determinacy | archive/path2.0/include/hypercomm/workgroup.hpp:232-328 | Two runs with the same creation and the same messages per continuation make the same calls for a task, and leave the same state and the same buffers |
| Scheduler.Quiescent | archive/path2.0/include/hypercomm/workgroup.hpp:247-268 | After every entry method the tasks kept are active and none has a buffered message for the continuation it waits on |
| Scheduler.DeliveredOnceInOrder | archive/path2.0/include/hypercomm/workgroup.hpp:270-328 | Messages of one task and continuation are delivered in arrival order, each once, and the rest are buffered, in order |
| Scheduler.ApplyFrames | archive/path2.0/include/hypercomm/workgroup.hpp:232-328 | An entry method for one task leaves all other tasks, their buffers and their calls alone, and runs user code under that task's id only |
| Scheduler.PendingPop | archive/path2.0/include/hypercomm/workgroup.hpp:255-266 | Each round of `try_continue_` shrinks the number of buffered messages, so it ends |
| WorkgroupObject.Workgroup.CreateTask | archive/path2.0/include/hypercomm/workgroup.hpp:232-245 | The object's `create` changes its fields exactly as the scheduler's creation step |
| WorkgroupObject.Workgroup.TryContinueActive | archive/path2.0/include/hypercomm/workgroup.hpp:247-268 | The recursion that pops the deques in place delivers what the draining function delivers, and terminates |
| WorkgroupObject.Workgroup.ResumeMessage | archive/path2.0/include/hypercomm/workgroup.hpp:270-289 | The entry method delivers or buffers the message as the resume step does |
| WorkgroupObject.Workgroup.ResumeTask | archive/path2.0/include/hypercomm/workgroup.hpp:291-324 | Rejects, without any change, messages without a task or out of turn; delivers all others, and reports or continues according to its observer |
| WorkgroupObject.Workgroup.BufferMessage | archive/path2.0/include/hypercomm/workgroup.hpp:326-328 | Appends to the queue of the task and continuation, and touches no other |
| Migration.PayloadRoundTrip | archive/path2.0/include/hypercomm/workgroup.hpp:68-85 | A payload re-read at any address has the same message, length and distance from its start, so the same continuation id and the same bytes |
| Migration.BuffersRoundTrip | archive/path2.0/include/hypercomm/workgroup.hpp:330-334 | All buffered payloads, packed by offset and unpacked wherever the allocator puts them, give the same queues in the same order |
| Migration.RoundTrip | archive/path2.0/include/hypercomm/workgroup.hpp:330-334 | Unpacking a packed workgroup, buffered payloads at new addresses included, gives it back, up to `active_`, if and only if it holds active tasks only |
| Migration.ApplyTwins | archive/path2.0/include/hypercomm/workgroup.hpp:232-328 | No entry method depends on an `active_` it has not written |
| Migration.MigrationIsTransparent | archive/path2.0/include/hypercomm/workgroup.hpp:330-334 | A workgroup migrated between any two entry methods, its buffered payloads to any addresses, makes the same calls in every future, and ends in the same tasks and buffers, as if it had not moved |
| RelaxationResults.LockStep | archive/path2.0/examples/relaxation/pgm.cpp:34-89 | In every reachable state the iterations of any two workers differ by at most one |
| RelaxationResults.GhostsMatchIterations | archive/path2.0/examples/relaxation/pgm.cpp:50-83 | A ghost is counted in the iteration it was sent in, from a neighbour not yet counted; a worker contributes exactly when it has counted all its neighbours |
| RelaxationResults.ReductionsAgree | archive/path2.0/examples/relaxation/pgm.cpp:74-103 | No reduction mixes errors and indices; each yields an error of one iteration that some worker has and none exceeds, and the last the indices of all workers |
| RelaxationResults.TheEnd | archive/path2.0/examples/relaxation/pgm.cpp:91-119 | When the root has the grid it has exactly the indices below n, all left the loop after the same K iterations with `it` at K if converged and else at K+1, no message is left anywhere, and K*(2(n-1)+n)+1 continuations have run |
| RelaxationResults.RoundsBound | archive/path2.0/examples/relaxation/pgm.cpp:34-48 | K is at most `maxIters`, and is the first iteration with all errors within tolerance if there is an earlier one |
| RelaxationResults.ProgramRounds | archive/path2.0/examples/relaxation/pgm.cpp:74-89 | With the errors the program contributes, K is 1 for a tolerance that is not positive and `maxIters` otherwise |
| RelaxationResults.Progress | archive/path2.0/examples/relaxation/pgm.cpp:34-119 | No deadlock: every reachable state that is not final has an enabled step |
| RelaxationResults.RunsEnd | archive/path2.0/examples/relaxation/pgm.cpp:34-119 | Every run is finite: its length is bounded by the rank of the initial state |
| RelaxationTaskObject.RelaxationTask.constructor | archive/path2.0/examples/relaxation/pgm.cpp:16-32 | A new task has made the first move of the state machine: its ghosts are sent, or it has converged |
| RelaxationTaskObject.RelaxationTask.ConvergeLoop | archive/path2.0/examples/relaxation/pgm.cpp:34-48 | Fields, ghosts sent and contribution are those of the state machine's move, with the guard's increment |
| RelaxationTaskObject.RelaxationTask.ReceiveGhost | archive/path2.0/examples/relaxation/pgm.cpp:64-72 | Counting a ghost contributes the error exactly at the last neighbour, as the state machine does |
| RelaxationTaskObject.RelaxationTask.ReceiveMaxError | archive/path2.0/examples/relaxation/pgm.cpp:85-89 | The result decides between another iteration and the final reduction, as the state machine does |
| MpscResults.ReservationsBounded | archive/lfq/ipc_lfq.hh:52-84 | For every slot count: tickets not taken and open reservations never exceed the slots, and the counter that `dequeue` asserts to be positive is |
| MpscResults.NeverOverwrites | archive/lfq/ipc_lfq.hh:52-67 | If the slots divide the word (exactly then: MpscWrap.NeverFailsIffDividing): no assertion ever fails, a producer finds its slot empty, and no two producers work on one slot |
| MpscResults.LocksExclude | archive/lfq/ipc_lfq.hh:30-42 | If the slots divide the word: a slot is locked while a producer or the consumer works on it, and never by both |
| MpscResults.FailsExactly | archive/lfq/ipc_lfq.hh:65-82 | A run is recorded as failed exactly when one of the assertions does not hold where it is made |
| MpscResults.Fifo | archive/lfq/ipc_lfq.hh:52-84 | If the slots divide the word (exactly then: MpscWrap.FifoIffDividing): the values dequeued are the values of the first tickets, in order; nothing is lost, doubled or reordered |
| MpscResults.OwnOrderKept | archive/lfq/ipc_lfq.hh:52-67 | For every slot count: the values a producer enqueued have tickets in the order of its calls |
| MpscResults.StepContents | archive/lfq/ipc_lfq.hh:52-84 | For every slot count: drawing a ticket appends, copying out removes the oldest value and yields one, and every other step, in particular of a failing call, leaves contents and yield alone |
| MpscResults.YieldsOldest | archive/lfq/ipc_lfq.hh:69-76 | If the slots divide the word, the value yielded is the oldest |
| MpscResults.RefusedWhenFull | archive/lfq/ipc_lfq.hh:53-57 | For every slot count: `enqueue` is refused exactly when values, open reservations and refusals in progress take up all slots |
| MpscResults.MissWhenUnwritten | archive/lfq/ipc_lfq.hh:69-79 | If the slots divide the word (exactly then: MpscWrap.MissIffDividing): `dequeue` misses exactly when the next ticket is not drawn or its producer has not locked the slot |
| MpscResults.CountsContents | archive/lfq/ipc_lfq.hh:44-50 | For every slot count: between calls the counter is the number of values |
| MpscResults.SlotsHoldContents | archive/lfq/ipc_lfq.hh:44-50 | If the slots divide the word (exactly then: MpscWrap.SlotsIffDividing): between calls the slots from the tail on hold exactly the contents, and the others are empty |
| MpscWrap.HonestWhenDividing | archive/lfq/ipc_lfq.hh:58-59 | With a slot count that divides the word's range, no wrap-around ever hides a value from the consumer |
| MpscWrap.HiddenValue | archive/lfq/ipc_lfq.hh:58-80 | Otherwise a run exists in which `dequeue` misses although a value is in the queue and nobody is in a call |
| MpscWrap.HonestIffDividing | archive/lfq/ipc_lfq.hh:58-80 | Misses are honest in every run if and only if the slot count divides the word's range |
| MpscWrap.Overwritten | archive/lfq/ipc_lfq.hh:58-65 | If the slots do not divide the word, some run leads a ticket to a slot that still has a value, and the assertion fails |
| MpscWrap.NeverFailsIffDividing | archive/lfq/ipc_lfq.hh:58-65 | No assertion fails in any run if and only if the slots divide the word |
| MpscWrap.Reordered | archive/lfq/ipc_lfq.hh:58-80 | If the slots do not divide the word, some run yields a younger value before an older one |
| MpscWrap.FifoIffDividing | archive/lfq/ipc_lfq.hh:52-84 | The values yielded are those of the first tickets, in order, in every run, if and only if the slots divide the word |
| MpscWrap.MissIffDividing | archive/lfq/ipc_lfq.hh:69-79 | Misses are exact in every run if and only if the slots divide the word |
| MpscWrap.SlotsIffDividing | archive/lfq/ipc_lfq.hh:44-50 | The slots hold the contents, from the tail on, between calls in every run, if and only if the slots divide the word |
| MpscCalls.EnqueueEffect | archive/lfq/ipc_lfq.hh:52-67 | From any queue at rest the steps of one `enqueue` append the value, or change nothing exactly when the queue is full |
| MpscCalls.DequeueEffect | archive/lfq/ipc_lfq.hh:69-84 | From any queue at rest the steps of one `dequeue` yield the oldest value, or change nothing exactly when the queue is empty |
| LockFreeQueueObject.LockFreeQueue.Enqueue | archive/lfq/ipc_lfq.hh:52-67 | The method, in place, appends and returns true exactly when the queue is not full, as steps of one producer |
| LockFreeQueueObject.LockFreeQueue.Dequeue | archive/lfq/ipc_lfq.hh:69-84 | The method, in place, yields the oldest value exactly when there is one, as steps of the consumer |
| LockFreeQueueObject.LockFreeQueue.WriteSlot | archive/lfq/ipc_lfq.hh:59-65 | Under its lock an empty slot gets the value, and both assertions hold |
| SizeClasses.WhichPow2 | archive/include/pool.hh:18-26 | The search finds the least class that fits |
| SizeClasses.FitIsTight | archive/include/pool.hh:11-26 | The least fitting class is unique, and above the smallest class wastes less than half |
| BlockResults.ExchangeIsTryLock | archive/include/queue.hh:15-38 | No assertion ever fails: the head is null exactly while a thread is between its two exchanges, and at most one is |
| BlockResults.FailsExactly | archive/include/queue.hh:15-38 | A run is recorded as failed exactly when a list is given back with a head that is not null, or a block found in a pool is in use |
| BlockResults.OnePlace | archive/tests/basic/tester.cc:55-124 | A block is in a list exactly when that list is its place, once; so it is in one list, in somebody's hands, freed or lost |
| BlockResults.LinksLeadThroughList | archive/include/pool.hh:44-80 | From the head, or the head its taker saved, the `next` fields lead through exactly the list's blocks to the tail |
| BlockResults.OneStack | archive/include/queue.hh:15-38 | In every reachable state the links in the memory, from a list's head or from what the thread that has it saved, give exactly one stack of blocks |
| BlockResults.AtomicStack | archive/include/queue.hh:15-38 | Every step of every run changes the stack read off the memory by a push of the caller's block, by a pop into the caller's hands, or not at all, and says which |
| BlockResults.PutPushes | archive/include/queue.hh:15-26 | After the second exchange of a put the memory links from the head through the caller's block and then the blocks it linked before |
| BlockResults.GetPops | archive/include/queue.hh:28-38 | The second exchange of a get hands over the block the memory had on top and leaves the rest linked from the head |
| BlockResults.BusyChangesNothing | archive/include/queue.hh:18-21 | A call that finds the list taken changes nothing |
| BlockResults.EmptyChangesNothing | archive/include/pool.hh:67-70 | A get that finds the list empty gives it back as it was |
| BlockResults.RallocFits | archive/include/pool.hh:59-79 | The block `ralloc` returns was not in use, has the bytes asked for and less than twice as many above the smallest class |
| BlockResults.PoolsHoldTheirClass | archive/include/pool.hh:44-57 | Every block in a pool's list has exactly its class's size and is not in use; every block in a queue is |
| BlockResults.LifeGoesOneWay | archive/tests/basic/tester.cc:55-124 | A block goes from pool to holder to queue to receiver to freed, one step at a time and never back |
| BlockSizes.OnlyFieldWritten | archive/tests/basic/tester.cc:81-92 | Setting a size writes that field of that block only; links are written by puts and the mark by `ralloc` only, whatever else happens |
| BlockSizes.SizeIsLastSet | archive/tests/basic/tester.cc:85-85 | After any run a block has the size its holder last set, or that of its allocation; it is freed exactly if the run freed it |
| BlockSizes.SentSizeArrives | archive/tests/basic/tester.cc:85-124 | The receiver of a block reads the size its sender set, and if it set none the size of the class of the pool it came from |
| BlockCalls.LputCall | archive/include/pool.hh:40-57 | All steps of `lput` put the new block on its class's list exactly if it has the class's size and the list is free |
| BlockCalls.RallocCall | archive/include/pool.hh:59-80 | All steps of `ralloc` take the top block of a free list and mark it, or change nothing |
| BlockCalls.EnqueueCall | archive/include/queue.hh:15-26 | All steps of `enqueue` push the block on a free queue, or change nothing |
| BlockCalls.DequeueCall | archive/include/queue.hh:28-38 | All steps of `dequeue` pop the latest block of a free queue, or change nothing |
| SharedBlocksObject.SharedBlocks.Lput | archive/include/pool.hh:40-57 | The method, in place, has exactly the effect of the steps of `lput`, from any reachable memory |
| SharedBlocksObject.SharedBlocks.Ralloc | archive/include/pool.hh:59-80 | The method, in place, yields the top block of the class, at least as big as asked for, exactly if there is one and nobody has the list; `!used` holds |
| SharedBlocksObject.SharedBlocks.Enqueue | archive/include/queue.hh:15-26 | The method, in place, pushes the block or fails without a change |
| SharedBlocksObject.SharedBlocks.Dequeue | archive/include/queue.hh:28-38 | The method, in place, pops the latest block or fails without a change |
| TreeBroadcast.HandledInOrder | archive/charmlite/include/collective.hh:139-165 | Every chare handles the numbers 1, 2, ... once each, in order, and never buffers a broadcast |
| TreeBroadcast.ChildFollowsParent | archive/charmlite/include/collective.hh:145-157 | A child's history is a prefix of its parent's, and what is missing is on the link |
| TreeBroadcast.TotalOrder | archive/charmlite/include/collective.hh:103-165 | Every history is a prefix of the root's: one order for all |
| TreeBroadcast.QuietHistories | archive/charmlite/include/collective.hh:139-165 | With no broadcast under way every chare has handled exactly what the root could number |
| TreeBroadcast.HandledOrBuffered | archive/charmlite/include/collective.hh:139-165 | In any state a broadcast is handled or buffered, once, by its chare and no other, and buffered exactly if it is out of order |
| TreeBroadcast.StartsHandled | archive/charmlite/include/collective.hh:103-117 | The root has handled exactly the broadcasts started, in order, with the data they were started with and the numbers 1, 2, ... |
| TreeBroadcast.HandlesStarted | archive/charmlite/include/collective.hh:103-165 | Every chare has handled the first of the broadcasts started, in order, each with the data it was started with |
| TreeBroadcast.QuietHandled | archive/charmlite/include/collective.hh:103-165 | With no broadcast under way every chare has handled all that were started, up to the last number |
| TreeBroadcast.EqualIffCounterHolds | archive/charmlite/include/collective.hh:112-116 | With no broadcast under way a chare has the root's history if and only if fewer broadcasts were started than the counter has values |
| TreeBroadcast.CounterOverrun | archive/charmlite/include/collective.hh:112-116 | Over any tree with a second chare, a run with as many broadcasts as the counter has values comes to rest with different histories |
| TreeBroadcast.AllEqualIffFewer | archive/charmlite/include/collective.hh:112-116 | All runs with k broadcasts come to rest with equal histories if and only if k is less than the number of the counter's values |
| CollectiveBranchObject.CollectiveBranch.Handle | archive/charmlite/include/collective.hh:139-165 | The branch's fields change as the tree's step says, and each link gets exactly the copies sent by the loop over the children |
| CollectiveBranchObject.CollectiveBranch.Start | archive/charmlite/include/collective.hh:103-117 | A broadcast at the root is numbered and handled as the tree's step says |
| Delivery.HandledOnceInOrder | archive/charmlite/include/collective.hh:43-134 | However creation, construction and arrivals interleave, a chare's messages are run once each in arrival order with the constructor first; before that they are buffered once, in order; and messages of chares at home elsewhere are routed once, in order |
| Delivery.EachInOnePlace | archive/charmlite/src/core.cc:45-73 | At any time every message ever given for a chare is in exactly one place: waiting for the collective, buffered for the chare, run, or sent to its home; nothing waits for a collective that exists |
| Delivery.NothingLostOrDoubled | archive/charmlite/src/core.cc:45-73 | Once collective and chare exist, the messages run are a permutation of those that arrived, and in arrival order exactly if a constructor came first |
| EndpointObjects.Collective.FlushBuffers | archive/charmlite/include/collective.hh:43-63 | The loop that delivers and pops runs every buffered message of the chare, in order, and ends |
| EndpointObjects.Collective.TryToDeliver | archive/charmlite/include/collective.hh:65-101 | Constructs and flushes, runs, routes or asks for buffering, exactly as the model's cases |
| EndpointObjects.Collective.DeliverMessage | archive/charmlite/include/collective.hh:103-136 | Immediate delivery runs, routes or buffers; deferred delivery hands the message to the network |
| EndpointObjects.ProcessingElement.CreateCollective | archive/charmlite/src/core.cc:48-64 | A new collective enters the table and is given all messages that waited for it, in order |
| EndpointObjects.ProcessingElement.DeliverToEndpoint | archive/charmlite/src/core.cc:65-72 | A message goes to its collective, or waits for it, and no other collective changes |
| Reduction.ConverseCombiner | archive/charmlite/include/reduction.hh:8-30 | The loop returns the left fold; result and array are a permutation of the messages given; messages beyond the count are untouched; the size is the result's |
| Reduction.CombineOne | archive/charmlite/include/reduction.hh:11-21 | One round keeps the combined message and leaves the other in the array |
| ReductionTree.ReduceFolds | archive/charmlite/include/reduction.hh:42-49 | Over any tree an associative combiner computes the fold of all contributions |
| ReductionTree.ShapeIrrelevant | archive/charmlite/include/reduction.hh:42-49 | An associative and commutative combiner gives the same result for any shape and any order of arrival |
| ReductionTree.AddSums | archive/charmlite/include/reduction.hh:58-63 | `add` computes the sum of all contributions over any tree |
| ReductionTree.SelectsBest | archive/charmlite/include/reduction.hh:11-21 | A combiner that returns one of its messages, the remote one if it is better, computes a contribution at least as good as any, over any tree |
| ReductionTree.NopKeepsRoot | archive/charmlite/include/reduction.hh:56-56 | `nop` computes the root's contribution over any tree |
| CompletionResults.ZeroMeansDone | archive/charmlite/examples/cdt/pgm.cc:92-99 | A wave that sums to zero means every PE has handled its `produce` and exactly one `consume` of every PE, although the PEs were sampled at different times |
| CompletionResults.CompleteMeansDone | archive/charmlite/examples/cdt/pgm.cc:63-99 | When any PE takes detection to be complete, every PE has handled its `produce` and exactly one `consume` of every PE |
| CompletionResults.CountsNonNegative | archive/charmlite/examples/cdt/pgm.cc:79-87 | No local count is ever negative, and no wave's sum arrives before its receiver has the request |
| CompletionCounts.CountsExpected | archive/charmlite/examples/cdt/pgm.cc:79-87 | A PE's count is n for the `produce` less one for every `consume` it has handled |
| CompletionCounts.ContributesExpected | archive/charmlite/examples/cdt/pgm.cc:63-77 | A PE contributes that count as it is at that moment, and takes no contribution back |
| CompletionCounts.ResultsAreSums | archive/charmlite/examples/cdt/pgm.cc:63-77 | Result k is the sum of one contribution of every PE to wave k |
| CompletionCounts.WavesReduce | archive/charmlite/include/reduction.hh:42-63 | Result k is what a reduction tree of any shape, with the PEs anywhere in it, makes of the contributions to wave k with `add` |
| CompletionCounts.FailsExactly | archive/charmlite/examples/cdt/pgm.cc:92-99 | A run is recorded as failed exactly when a sum is handled by a PE that has no request |
| CompletionResults.Progress | archive/charmlite/examples/cdt/pgm.cc:63-151 | No deadlock: until every PE knows, some step is enabled |
| CompletionResults.AtMostTwoMoreWaves | archive/charmlite/examples/cdt/pgm.cc:63-99 | Once everybody is done, detection takes at most the wave under way and one more |
| CompletionResults.EndsSoon | archive/charmlite/examples/cdt/pgm.cc:63-99 | Once everybody is done, at most 4n further steps of any kind are possible |
| CompletionResults.AllComeToKnow | archive/charmlite/examples/cdt/pgm.cc:63-99 | Every continuation of a run in which everybody is done can be prolonged to one in which all PEs know |
| CompletionObjects.Completion.StartDetection | archive/charmlite/examples/cdt/pgm.cc:63-77 | The PE's status and contributions change as the system's step says; other collectives' do not; the callback is sent exactly when complete |
| CompletionObjects.Completion.ReceiveCount | archive/charmlite/examples/cdt/pgm.cc:92-99 | A sum sets `complete` and leads to the callback or to the next wave, as the system's step says |
| CompletionObjects.Test.Produce | archive/charmlite/examples/cdt/pgm.cc:109-123 | Expects one event of every PE and asks for one of each, as the system's step says |
| CompletionObjects.Test.Consume | archive/charmlite/examples/cdt/pgm.cc:125-151 | Consumes one event; the first at chare 0, and no other, requests detection |
| InputMatching.RowsMatched | archive/tests/comex/component.hh:121-148 | Whatever the interleaving of arrivals and activations, every tuple held or run is one row of the table of arrivals, and every row begun is held or was run, once |
| InputMatching.GapIsRow | archive/tests/comex/component.hh:270-282 | The oldest gap for a port is in the row the arriving value belongs to; no gap means that row has not begun |
| InputMatching.RunOrder | archive/tests/comex/component.hh:182-190 | A persistent component runs the rows complete at its activation latest first, and all later ones in order, each as soon as it is complete |
| InputMatching.InOrderIffAtMostOne | archive/tests/comex/component.hh:182-190 | Its runs follow the order of arrival if and only if at most one row was complete at its activation (for rows that can be told apart) |
| InputMatching.OutOfOrder | archive/tests/comex/component.hh:182-190 | The failing input: two different pairs arrive, the component is activated, and the second pair is run first |
| InputMatching.AlwaysActiveInOrder | archive/tests/comex/component.hh:121-148 | An always-active persistent component runs rows 0, 1, 2, ... in order |
| InputMatching.ActiveHoldsNoReady | archive/tests/comex/component.hh:182-268 | A component at rest and active holds no ready tuple |
| InputMatching.QuiescenceBalanced | archive/tests/comex/component.hh:208-241 | `QdCreate` less `QdProcess` is always the number of values held |
| InputMatching.DrainRunsAll | archive/tests/comex/component.hh:182-190 | Activation of a persistent component runs exactly its ready tuples, newest first, and keeps the others in place |
| InputMatching.DrainRunsOne | archive/tests/comex/component.hh:182-190 | Activation of any other component runs its newest ready tuple only, keeps all others in place, and ends inactive exactly if it had one |
| InputMatching.ActivationRunsLatest | archive/tests/comex/component.hh:182-190 | Whatever happened before, such an activation runs the latest complete row held, and no other |
| InputMatching.LatestFirst | archive/tests/comex/component.hh:182-190 | Activated again and again, such a component runs the rows it holds complete one at a time, the latest first |
| InputTurns.OneRunPerActivation | archive/tests/comex/component.hh:182-256 | A component that is not persistent has run its action once per activation, except that the last is unused exactly while it is online; a persistent one is online from its activation on |
| InputTurns.RunningGoesOffline | archive/tests/comex/component.hh:243-256 | With any number of ports, an event in which such a component runs its action takes it offline, and it runs one tuple |
| InputTurns.QuiescenceExact | archive/tests/comex/component.hh:121-241 | With several inputs `QdCreate` gets every arrival and `QdProcess` every value run; with one, `QdCreate` gets the arrivals that met it offline |
| ComponentObject.Component.AcceptValue | archive/tests/comex/component.hh:121-148 | The method fills the oldest gap or opens a tuple, and stages it when ready, as the model's step says |
| ComponentObject.Component.ActivateNow | archive/tests/comex/component.hh:182-190 | The loop ends, having run what the model's activation runs |
| ComponentObject.Component.SearchReady | archive/tests/comex/component.hh:258-268 | The search from the front finds the newest ready tuple, or the end |
| ComponentObject.Component.SearchGap | archive/tests/comex/component.hh:270-282 | The search from the back finds the oldest tuple without the port's value, or the end |

## Left out

- Relaxation: the constructor does not set `it` (`archive/path2.0/examples/relaxation/pgm.cpp:16-17`); it is taken to start at 0. Errors are real numbers; there is one task per workgroup. A message is in the network, in its workgroup's buffers, then taken; the order within a buffer is left open, which only adds runs.
- Workgroup scheduler: user code is a deterministic step function and sends asynchronously; `generate_id` and its counter are not modelled, task ids are created at most once. The packing of arguments into messages and the registration tables are left out, and each task's own `pup` is taken to restore its fields.
- Atomic operations are sequentially consistent steps and shared addresses are the same in every process; memory orders, `mmap`, `shm_open` and XPMEM are left out.
- MpscQueue: the word's range exceeds the slots plus the producers, so the reservation counter itself does not wrap; spinning is a step that changes nothing.
- LockFreeQueueObject.LockFreeQueue.Enqueue: states the effect of an undisturbed call on a queue whose slots divide the word; calls that interleave are covered by the results about runs.
- LockFreeQueueObject.LockFreeQueue.Dequeue: states the effect of an undisturbed call on a queue whose slots divide the word; calls that interleave are covered by the results about runs.
- LockFreeQueueObject.LockFreeQueue.WriteSlot: takes the slot unlocked and empty, which the calls around it provide, so the spin does not wait; waiting is a step of `MpscQueue`.
- SharedBlocksObject.SharedBlocks.Lput: states the effect of a call not interrupted by other threads, from any memory other threads may have left; interleavings are covered by the results about runs.
- SharedBlocksObject.SharedBlocks.Enqueue: states the effect of a call not interrupted by other threads, from any memory other threads may have left; interleavings are covered by the results about runs.
- SharedBlocksObject.SharedBlocks.Dequeue: states the effect of a call not interrupted by other threads, from any memory other threads may have left; interleavings are covered by the results about runs.
- SharedBlocksObject.SharedBlocks.Ralloc: states the effect of a call not interrupted by other threads, from any memory other threads may have left; interleavings are covered by the results about runs.
- SizeClasses.WhichPow2: sizes above 1073741824 are excluded, because the source's loop then reads one entry past its table.
- BlockLists: the contents of blocks, and the retry loops around failed calls, are left out; a failed `lput(void *, size)` leaks its block, as in the source.
- Completion detection: `produce` and `consume` put their message back when the local branch is missing (`archive/charmlite/examples/cdt/pgm.cc:111-115`); `send` delivers at once there, so that branch would not end. The local branches are taken to exist.
- TreeBroadcast: links are FIFO and chares exist before their first broadcast; draining buffered broadcasts in `flush_buffers` is left out, because `try_deliver` reports success when `handle_` buffers the message again.
- Delivery: entry methods do not deliver to their own collective while they run; broadcasts are in `TreeBroadcast`. A second constructor of one chare is run in its turn, but the source runs it on a new object that it does not store; objects are not told apart here.
- Reduction: the branch of the combining loop in which the combiner allocates a third message is left out: the source frees the old result there and never stores the new one. `add` is over unbounded integers; `ReductionTree.ShapeIrrelevant` covers additions that wrap.
- InputMatching: wiring is acyclic, so an action never re-enters its component; null values abort the source's program; outboxes and connections are left out.
- The retained-block cache of the ping-pong test, warp, Charm++ and Converse internals, proxies, typed values, timing and printing are left out.
