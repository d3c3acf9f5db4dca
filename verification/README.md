# Lock-free structures and allocators of fuxi, in Dafny

fuxi is a shared-memory messaging library. This project models the hand-written concurrent
structures of its `base` layer and the allocators of its `mm` layer, and proves what they are
for: exclusive slots and FIFO order, no lost wake-up and no deadlock, disjoint memory, unique
ids, stable addresses, late reclamation, exact counters, conservation of pages.

Two kinds of model are used.

* Concurrent protocols are transition systems with one step per atomic load, store,
  exchange or compare-and-swap, for any number of calls at once, under sequential
  consistency. Machine words are modelled with their wrap-around; unbounded counters beside
  them exist only in the proofs. The main results hold in every reachable state of every
  execution, and the `...Calls` modules say what one whole call does, from its first to its
  last access, whatever the others do meanwhile. Where the source needs a bound (on how far tickets run ahead, on deallocations,
  on a thread's delay), the bound is a hypothesis, and a theorem shows it is exact: one step
  beyond it, an execution from the initial state breaks the property.
* Code that runs without competitors is a class with the source's fields and loops; every
  method is proved against functions of the old state.

| file | what it models |
|---|---|
| `Sequences`, `Tickets`, `Powers` | shared notions, ticket arithmetic, powers of two and rounding |
| `QueueProtocol`, `QueueInvariant`, `QueueSteps`, `QueueWakeups`, `QueueTheorems`, `QueueCalls`, `QueueProgress`, `QueueLimit` | `ConcurrentBoundedQueue` with all its calls in parallel |
| `BoundedQueue` | the same queue used by one thread: arrays, versions, batches |
| `RingProtocol`, `RingTheorems`, `RingCalls`, `RingLimits`, `RteRing`, `ObjectPool` | `RteRing` in parallel in both modes, its copy loops, `FlatObjectQueue` |
| `ArenaLayout`, `ArenaState`, `Arena`, `ArenaTheorems`, `ArenaLimits` | `ExclusiveMonotonicBufferResource` |
| `IdProtocol`, `IdSteps`, `IdTheorems`, `IdCalls`, `IdLimits`, `LiveIds` | `IdAllocator` in parallel and its enumeration |
| `VectorGrowth`, `VectorCalls`, `RetireList`, `RetireCalls` | growth of `ConcurrentVector`, delayed reclamation |
| `PageCache`, `PageAllocators` | compensated batches, `CachedPageAllocator`, `BatchPageAllocator` |
| `ThreadCells`, `Counters` | per-thread cells, `ConcurrentAdder`, `ConcurrentSummer`, `ConcurrentMaxer` |

Findings, where a condition is called exact with an execution on its far side:

* The 16-bit versions of the queue keep slots exclusive, for any number of operations,
  exactly while no outstanding ticket is 2^15 rounds ahead of its slot
  (`ExclusiveExactlyWhileNear`); at most 2^15 operations in flight are always safe, one more
  is not (`ExclusiveExactlyUpToLimit`).
* The comment at src/fuxi/base/bounded_queue.h:330-338 gives the version after an operation;
  the code at src/fuxi/base/bounded_queue.hpp:831-840 computes the one expected before it.
  The model follows the code.
* The ring is never overrun exactly while heads move less than 2^32 positions between a load
  and its swap (`SafeExactlyBelowFullRound`). An operation in single mode must have its side
  to itself (`TwoSinglesCollide`). Refusals are honest exactly while heads move less than
  2^32 minus the capacity between a load and the test of the room (`HonestExactlyBelow`).
* An over-aligned arena request gets the start of the current page if that page is still
  empty, and this start need not be so aligned; in all other cases results are aligned
  (`Serves`). For every page size, all results of all runs are aligned exactly when zero-byte
  requests or alignments above the page size are ruled out (`AlignedExactly`).
* `contains` is wrong exactly for bytes past the newest page that an over-aligned request
  has skipped (`OwnsOutside`). For every page size it is right after all runs exactly when
  alignments above the page size are ruled out (`TruthfulExactlyInPage`).
* Ids are returned with distinct versions exactly up to one round of versions
  (`DistinctExactlyBelowWrap`), the free list stays sound exactly while no operation is
  overtaken by a full round (`FreeHeadExactlyBelowLap`), and the active flag tells live ids
  exactly while it is not an id itself (`FlagExactlyBelowItself`).
* If retire calls may link their objects D seconds after reading the clock, objects are kept
  for exactly 65 - D seconds, counted in whole seconds; the promised more than 64 seconds
  hold exactly when D is 0 (`GraceExactly`, `FullGraceExactly`).
* Once a thread with id 65408 or more has touched a group of per-thread cells, the 16-bit cut
  of the vector size makes every sweep over that group empty: counters show nothing
  (`Touch`, `Value`, `LateThreadLosesCount`), and the destructor of a batch allocator returns
  no page (`Destroy`, `LateThreadLeaks`).

## Model

| member | source | states |
|---|---|---|
| `QueueTheorems.QueueSafety` | src/fuxi/base/bounded_queue.hpp:845-949 | in every execution, with any number of operations, in which no outstanding ticket gets 2^15 rounds ahead of its slot, no slot is open to two callbacks, pop ticket t received what push ticket t wrote, and the 16-bit test of a ticket holder equals the unbounded one |
| `QueueTheorems.NoLostWakeup` | src/fuxi/base/bounded_queue.hpp:62-171 | a sleeper whose version has arrived has a wake-up of its slot in flight, on the exchange path and on the store-then-check path |
| `QueueTheorems.RunExtends` | src/fuxi/base/bounded_queue.hpp:496-507 | along every execution ticket logs and value histories only grow: each ticket is drawn once and its value never replaced |
| `QueueTheorems.FailedTry` | src/fuxi/base/bounded_queue.hpp:870-883 | a try_push or try_pop whose version test has failed and whose index has not moved saw, at an instant of its call with that index, that the pop of the round before, or the push of that ticket, was not complete |
| `QueueCalls.TryCall` | src/fuxi/base/bounded_queue.hpp:867-1059 | a whole try call moves as many elements as asked, or at an instant of the call it was short: try_push and try_pop return false only if the queue's next ticket could not be served then; try_push_n and try_pop_n return less only if their own next ticket could not, or the index had moved on |
| `QueueCalls.BlockingCall` | src/fuxi/base/bounded_queue.hpp:845-949 | a whole push, pop, push_n or pop_n moves exactly as many elements as asked |
| `QueueCalls.CallTickets` | src/fuxi/base/bounded_queue.hpp:845-1059 | a whole call of any kind draws exactly one ticket for each element it moves; they are consecutive and complete when it returns, and a push call leaves its values under them in the order of its callback accesses |
| `QueueCalls.OnlyBlockingSleep` | src/fuxi/base/bounded_queue.hpp:38-60 | only a call that was allowed to wait on the futex ever sleeps |
| `QueueProgress.StuckIsStarved` | src/fuxi/base/bounded_queue.hpp:845-949 | if no operation can pass its next version test, every one of them waits for a ticket that nobody has drawn: waits never form a cycle, batches and rounds included |
| `QueueProgress.NoDeadlock` | src/fuxi/base/bounded_queue.hpp:38-171 | in every execution with waking operations, if all are idle or asleep then a sleeping pop waits for a push not yet begun and a sleeping push for such a pop |
| `QueueProgress.SleepOnOneSide` | src/fuxi/base/bounded_queue.hpp:38-171 | so sleepers are all pops, with more pops begun than pushes, or all pushes, with more pushes begun than there is room for |
| `QueueTheorems.AtRest` | src/fuxi/base/bounded_queue.hpp:831-904 | with nothing in flight the issued tickets are exactly the recorded ones, and the unpopped ones sit in their slots with the pop version, at most one per slot |
| `QueueSteps.StepKeeps` | src/fuxi/base/bounded_queue.hpp:845-1059 | every one of the sixteen atomic actions keeps tickets, versions and slot contents consistent |
| `QueueSteps.Exclusive` | src/fuxi/base/bounded_queue.hpp:845-863 | two operations past their version test never hold tickets of the same slot |
| `QueueSteps.TryCasKeeps` | src/fuxi/base/bounded_queue.hpp:867-904 | a stale version match in a try operation is harmless: its index swap succeeds only if the checked slots are still at their turn |
| `QueueInvariant.AheadBound` | src/fuxi/base/bounded_queue.h:330-338 | a ticket j rounds ahead of its slot implies more than j operations in flight |
| `QueueTheorems.FewOpsNearRun` | src/fuxi/base/bounded_queue.h:330-338 | with at most 2^15 operations no ticket ever gets that far ahead |
| `QueueInvariant.HeldTestExact` | src/fuxi/base/bounded_queue.hpp:845-853 | for a ticket holder less than 2^15 rounds ahead the 16-bit comparison is true exactly when it is the ticket's turn |
| `QueueInvariant.TryTestExact` | src/fuxi/base/bounded_queue.hpp:867-893 | the same for a try operation whose index is current |
| `QueueWakeups.StepKeepsSleep` | src/fuxi/base/bounded_queue.hpp:62-171 | every action keeps each sleeper's slot marked or about to be woken |
| `QueueLimit.TwoInOneSlot` | src/fuxi/base/bounded_queue.hpp:831-840 | with 2^15 + 1 operations and no ticket more than 2^15 rounds ahead an execution lets two callbacks into one slot, for every capacity |
| `QueueLimit.ExclusiveExactlyUpToLimit` | src/fuxi/base/bounded_queue.h:330-338 | slots are exclusive in all executions if and only if at most 2^15 operations are in flight |
| `QueueLimit.ExclusiveExactlyWhileNear` | src/fuxi/base/bounded_queue.hpp:831-853 | with any number of operations, slots are exclusive in all executions whose tickets stay less than a given number of turns ahead if and only if that number is at most 2^16 |
| `BoundedQueue.PushTest` | src/fuxi/base/bounded_queue.hpp:831-853 | used sequentially, the 16-bit version tells a push ticket exactly whether its slot is free |
| `BoundedQueue.PopTest` | src/fuxi/base/bounded_queue.hpp:836-853 | and a pop ticket exactly whether its slot is filled |
| `BoundedQueue.FirstRun` | src/fuxi/base/bounded_queue.hpp:572-590 | a batch of at most the capacity is cut into at most two runs, each inside one round, covering it |
| `BoundedQueue.SecondRunFits` | src/fuxi/base/bounded_queue.hpp:579-590 | the second run of a batch of any size stays inside the slot array exactly when the first slot and the size together are at most twice the capacity |
| `BoundedQueue.SlotsOfRun` | src/fuxi/base/bounded_queue.hpp:909-925 | a run inside one round stays inside the slot array |
| `BoundedQueue.PushPublished` | src/fuxi/base/bounded_queue.hpp:936-948 | advancing one version publishes exactly the next push ticket and disturbs no other |
| `BoundedQueue.PopPublished` | src/fuxi/base/bounded_queue.hpp:936-948 | advancing one version publishes exactly the next pop ticket and readies the slot for the next round |
| `BoundedQueue.WrittenContents` | src/fuxi/base/bounded_queue.hpp:926-930 | writing a run of slots appends its values and keeps the waiting ones |
| `BoundedQueue.Queue.PushN` | src/fuxi/base/bounded_queue.hpp:572-590 | a batch push appends all values in order, as that many single pushes |
| `BoundedQueue.Queue.PopN` | src/fuxi/base/bounded_queue.hpp:732-750 | a batch pop removes the oldest values in order |
| `BoundedQueue.Queue.TryPushN` | src/fuxi/base/bounded_queue.hpp:594-613 | pushes the longest prefix that fits and reports its length |
| `BoundedQueue.Queue.TryPopN` | src/fuxi/base/bounded_queue.hpp:754-773 | pops the oldest values, as many as are there up to the request |
| `BoundedQueue.Queue.TryPushRun` | src/fuxi/base/bounded_queue.hpp:1003-1059 | one run of a try push takes exactly the free slots |
| `BoundedQueue.Queue.TryPopRun` | src/fuxi/base/bounded_queue.hpp:1003-1059 | one run of a try pop takes exactly the filled slots |
| `RingTheorems.RingSafety` | src/fuxi/base/rte_ring.hpp:100-215 | in every execution with any number of producers and consumers, each call in single or shared mode, cons.tail <= cons.head <= prod.tail <= prod.head <= cons.tail + capacity on unbounded counters, producers share no cell with anyone, and what is dequeued is a prefix of the stream of reserved objects |
| `RingTheorems.ConsumerReadsStream` | src/fuxi/base/rte_ring.hpp:196-215 | a consumer has read exactly the stretch of the stream it reserved |
| `RingCalls.StreamIsEnqueued` | src/fuxi/base/rte_ring.hpp:174-193 | that stream is the concatenation of the object tables the enqueue calls were given, in the order in which they moved the producer head |
| `RingCalls.TakenIsEnqueued` | src/fuxi/base/rte_ring.hpp:174-215 | published dequeues are a prefix of it |
| `RingCalls.EnqueueCarries` | src/fuxi/base/rte_ring.hpp:174-193 | what an enqueue call has reserved holds exactly the objects of that call, in order |
| `RingCalls.DequeueDelivers` | src/fuxi/base/rte_ring.hpp:196-215 | a dequeue call delivers as many objects as it asked for, and they are the stretch it reserved of what the enqueue calls were given |
| `RingCalls.CallOutcome` | src/fuxi/base/rte_ring.hpp:100-215 | a call that ends has published all its objects at its place in the queue, or has changed nothing and asked for nothing or for more than there was at that instant |
| `RingTheorems.RoomExact` | src/fuxi/base/rte_ring.hpp:112-118 | the wrapping 32-bit difference equals the real one while the load is current |
| `RingTheorems.CellExact` | src/fuxi/base/rte_ring.hpp:222-222 | the masked 32-bit index names the cell of the unbounded position |
| `RingTheorems.HeadReached` | src/fuxi/base/rte_ring.hpp:123-131 | a head is moved, by store or by swap, only from the value that was loaded |
| `RingTheorems.TailReached` | src/fuxi/base/ring_common.cc:25-33 | the tail is moved, with or without waiting, only when every earlier reservation is published |
| `RingTheorems.StepKeeps` | src/fuxi/base/rte_ring.hpp:100-215 | every atomic action keeps reservations, cells and stream consistent |
| `RingLimits.LapOverruns` | src/fuxi/base/rte_ring.hpp:127-131 | for every size an execution in which a producer overtaken by exactly 2^32 reservations passes its stale swap and overruns the ring |
| `RingLimits.SafeExactlyBelowFullRound` | src/fuxi/base/rte_ring.hpp:107-131 | no execution whose heads move less than a bound between load and swap overruns the ring, if and only if the bound is at most 2^32 |
| `RingLimits.EmptyRingRefuses` | src/fuxi/base/rte_ring.hpp:112-118 | for every size an execution in which a call overtaken by 2^32 - capacity reservations computes no room and refuses one object although the ring is empty |
| `RingLimits.HonestExactlyBelow` | src/fuxi/base/rte_ring.hpp:107-121 | calls are refused only for lack of room or objects in all executions whose heads move less than a bound between load and test, if and only if the bound is at most 2^32 - capacity |
| `RingLimits.TwoSinglesCollide` | src/fuxi/base/rte_ring.hpp:124-126 | two producers in single mode at once reserve the same position |
| `RteRings.OverlayIsModular` | src/fuxi/base/rte_ring.hpp:218-250 | an enqueue writes obj[i] to cell (head + i) mod size and nothing else |
| `RteRings.CopyRoundTrip` | src/fuxi/base/rte_ring.hpp:218-283 | dequeuing at the head of an enqueue recovers the same sequence |
| `RteRings.EnqueueValues` | src/fuxi/base/rte_ring.hpp:218-250 | the unrolled and the wrapping copy-in both are that modular copy |
| `RteRings.DequeueValues` | src/fuxi/base/rte_ring.hpp:253-283 | the unrolled and the wrapping copy-out read that slice and touch nothing behind it |
| `RteRings.AppendStored` | src/fuxi/base/rte_ring.hpp:174-193 | a copy behind the stored objects appends to them, across the wrap point too |
| `RteRings.RteRing.DoEnqueue` | src/fuxi/base/rte_ring.hpp:174-193 | all or nothing: appends the objects exactly when they fit, and reports the free space |
| `RteRings.RteRing.DoDequeue` | src/fuxi/base/rte_ring.hpp:196-215 | all or nothing: removes the oldest objects exactly when there are enough |
| `ObjectPool.HeldLeavesRoom` | src/fuxi/base/flat_object_queue.h:107-125 | while an id is held there is room in the ring for it |
| `ObjectPool.FlatObjectQueue.constructor` | src/fuxi/base/flat_object_queue.h:62-94 | all ids start free, in order |
| `ObjectPool.FlatObjectQueue.Get` | src/fuxi/base/flat_object_queue.h:97-104 | returns the longest-free id, and null exactly when all are out |
| `ObjectPool.FlatObjectQueue.Put` | src/fuxi/base/flat_object_queue.h:107-125 | never fails for a held object, refuses foreign addresses, reconstructs only its object |
| `ArenaState.InCurrentPageOk` | src/fuxi/mm/memory_resource.h:455-464 | the fast path keeps every layout invariant |
| `ArenaState.InListedPageOk` | src/fuxi/mm/memory_resource.cc:131-146 | so does a new page that the newest list names |
| `ArenaState.ListInOldPageOk` | src/fuxi/mm/memory_resource.cc:153-164 | so does a new list behind the last allocation of the old page |
| `ArenaState.ListInNewPageOk` | src/fuxi/mm/memory_resource.cc:165-173 | so does a new list behind the allocation in the new page |
| `ArenaState.ListInExtraPageOk` | src/fuxi/mm/memory_resource.cc:174-185 | so does a new list in an additional page |
| `ArenaState.InListedBlockOk` | src/fuxi/mm/memory_resource.cc:189-202 | so does an oversize block that the newest oversize list names |
| `ArenaState.InBlockWithListOk` | src/fuxi/mm/memory_resource.cc:203-219 | so does an oversize block that carries a new list |
| `Arena.ChoiceServes` | src/fuxi/mm/memory_resource.cc:131-219 | whichever placement is chosen, one new region is added after bookkeeping only, aligned unless the page is empty and the request over-aligned, and memory is obtained exactly when the current page has no room |
| `Arena.ChoiceAccounts` | src/fuxi/mm/memory_resource.cc:131-219 | whichever placement is chosen, space_allocated stays the total length of the memory held, and every oversize entry records the length and the alignment that upstream was asked for |
| `Arena.Arena.constructor` | src/fuxi/mm/memory_resource.h:227-237 | the initial state |
| `Arena.Arena.Allocate` | src/fuxi/mm/memory_resource.h:390-396 | allocate makes that choice and keeps the invariant |
| `Arena.Arena.Place` | src/fuxi/mm/memory_resource.h:448-464 | rounding, then the fast path, a page, or an oversize block |
| `Arena.Arena.AllocateInNewPage` | src/fuxi/mm/memory_resource.cc:131-148 | the page path |
| `Arena.Arena.AllocateWithNewList` | src/fuxi/mm/memory_resource.cc:150-187 | the three ways to store a new page list |
| `Arena.Arena.AllocateOversize` | src/fuxi/mm/memory_resource.cc:189-219 | the oversize path |
| `Arena.Arena.RegisterDestructor` | src/fuxi/mm/memory_resource.h:405-420 | a step of the run relation: the task goes to the front of the waiting tasks and only bookkeeping memory is added |
| `Arena.Arena.StartTaskList` | src/fuxi/mm/memory_resource.cc:226-235 | a full task list is followed by a new one in arena memory |
| `Arena.Arena.DestructAll` | src/fuxi/mm/memory_resource.cc:113-124 | every waiting task runs once, newest first, read only from held memory |
| `Arena.Arena.Release` | src/fuxi/mm/memory_resource.cc:237-271 | all tasks newest first, then every page, then every oversize block, each once, a block with the length and alignment it was obtained with; no list is read after its memory is returned; the state is initial again and nothing is held |
| `Arena.PageListReadable` | src/fuxi/mm/memory_resource.cc:240-255 | a page list lies in a page it names itself or an older list names, so it is readable when its turn comes |
| `Arena.FreeBlockStep` | src/fuxi/mm/memory_resource.cc:257-268 | an oversize list stays readable until its last entry, which holds it, is returned |
| `Arena.Arena.Contains` | src/fuxi/mm/memory_resource.cc:273-307 | true exactly for bytes of a held block, the newest page counted up to the bump offset |
| `Arena.OwnsRegions` | src/fuxi/mm/memory_resource.cc:273-307 | every byte handed out is contained |
| `Arena.OwnsOutside` | src/fuxi/mm/memory_resource.cc:273-289 | the exact false positives of contains |
| `ArenaTheorems.RunKeeps` | src/fuxi/mm/memory_resource.h:390-464 | after any sequence of allocations and registrations the layout is sound, the user regions are those returned, and the waiting tasks are the registered ones reversed |
| `ArenaTheorems.RunDisjoint` | src/fuxi/mm/memory_resource.cc:131-219 | all ranges returned in a run lie in one held block each and are pairwise disjoint |
| `ArenaTheorems.RunSparesLists` | src/fuxi/mm/memory_resource.cc:150-219 | no returned byte belongs to a page list, an oversize list or a task list |
| `ArenaTheorems.RunAligned` | src/fuxi/mm/memory_resource.h:448-464 | with positive sizes every result of a run is aligned as requested |
| `ArenaTheorems.RunListsAligned` | src/fuxi/mm/memory_resource.cc:150-235 | after every run every page list, oversize list and task list is aligned, whatever was asked for |
| `ArenaTheorems.ChoiceGrowth` | src/fuxi/mm/memory_resource.cc:131-219 | space_allocated grows by nothing while the current page has room; by one page, or two if this is the 1st, 16th, 31st, ... page and neither the old nor the new page has room for its list; or by the block, with room for a list at the 1st, 16th, 31st, ... block |
| `ArenaTheorems.RunSpace` | src/fuxi/mm/memory_resource.h:427-464 | after every run space_used is the bytes asked for plus one task list for every 15 registrations begun, space_allocated is exactly the total length of the pages and blocks held, and the first never exceeds the second |
| `ArenaLimits.ZeroBytesMisalign` | src/fuxi/mm/memory_resource.h:448-464 | for every page size a run with zero-byte requests whose last result is misaligned |
| `ArenaLimits.AlignedExactly` | src/fuxi/mm/memory_resource.h:448-464 | for every page size, all results of all runs with sizes from m and alignments up to b are aligned if and only if m is positive or b admits no alignment above the page size |
| `ArenaLimits.ContainsTruthful` | src/fuxi/mm/memory_resource.cc:273-307 | after every run without over-aligned requests contains is true of held memory only |
| `ArenaLimits.OverAlignedDeceives` | src/fuxi/mm/memory_resource.cc:273-289 | for every page size a run of two positive requests after which contains is true of a byte that is not held |
| `ArenaLimits.TruthfulExactlyInPage` | src/fuxi/mm/memory_resource.cc:273-307 | for every page size, contains is true of held memory only after all runs with alignments up to b if and only if b admits no alignment above the page size |
| `IdSteps.PopExact` | src/fuxi/base/id_allocator.hpp:24-35 | a successful head swap removes exactly the id and successor that were read |
| `IdSteps.StepKeeps` | src/fuxi/base/id_allocator.hpp:22-53 | every atomic action keeps the free list, the holders and the issued versions consistent |
| `IdTheorems.IdSafety` | src/fuxi/base/id_allocator.hpp:22-53 | in every execution, however long one follows the cells from the head, one visits the free list once and is then at its end; every id below end() is free, live or held by one operation, and no two allocations return the same id and version |
| `IdCalls.AllocateReturns` | src/fuxi/base/id_allocator.hpp:22-41 | a whole allocate returns the id that it took from the front of the free list at an instant of the call, with the version of that instant, or the next new id with version 0 if the list was empty at an instant of the call |
| `IdCalls.NewIdWhenEmpty` | src/fuxi/base/id_allocator.hpp:24-40 | end() grows only for a call during which the free list was empty at some instant |
| `IdCalls.DeallocateReturns` | src/fuxi/base/id_allocator.hpp:43-53 | a whole deallocate puts the id it was given at the front of the free list at an instant of the call and advances the version by one |
| `IdTheorems.VersionsUnwrapped` | src/fuxi/base/id_allocator.hpp:43-53 | as callers see them, cut to the id width, results are distinct while versions have not wrapped |
| `IdLimits.WrapRepeats` | src/fuxi/base/id_allocator.hpp:43-53 | one deallocation more, and an execution repeats a result although nothing is lapped |
| `IdLimits.DistinctExactlyBelowWrap` | src/fuxi/base/id_allocator.hpp:43-53 | results are distinct in all executions with at most n deallocations if and only if n is at most the largest version |
| `IdLimits.LapHandsOutLive` | src/fuxi/base/id_allocator.hpp:28-31 | an execution in which an operation overtaken by exactly a full round of versions puts a live id at the head |
| `IdLimits.FreeHeadExactlyBelowLap` | src/fuxi/base/id_allocator.hpp:28-31 | the head is never live in executions whose operations are overtaken by fewer than n deallocations if and only if n is at most a full round |
| `IdLimits.FlagExactlyBelowItself` | src/fuxi/base/id_allocator.hpp:32-39 | the active flag marks exactly the live ids at rest in all executions with at most n ids if and only if the flag value is not among them |
| `IdTheorems.ActiveIsLive` | src/fuxi/base/id_allocator.hpp:29-40 | with no operation in progress and the flag value not an id, the active flag marks exactly the live ids |
| `IdTheorems.ReportedIsLive` | src/fuxi/base/id_allocator.hpp:62-105 | and the runs reported by for_each hold exactly the live ids |
| `LiveIds.ForEach` | src/fuxi/base/id_allocator.hpp:62-105 | reports exactly the maximal runs of active ids, ascending and apart, across block boundaries |
| `LiveIds.ScanBlock` | src/fuxi/base/id_allocator.hpp:70-101 | the callback on one block continues the scan exactly |
| `LiveIds.BlockCells` | src/fuxi/base/vector.hpp:227-245 | block index and offset address the flat sequence |
| `LiveIds.RunsUnique` | src/fuxi/base/id_allocator.hpp:62-105 | there is only one such list of runs |
| `VectorGrowth.StepKeeps` | src/fuxi/base/vector.hpp:642-678 | every action of racing growth keeps tables, blocks and retirements consistent |
| `VectorGrowth.StableAddress` | src/fuxi/base/vector.hpp:463-467 | an element's block is the same in every table published at the time it was seen or later |
| `VectorGrowth.RunLater` | src/fuxi/base/vector.hpp:655-678 | published tables never change, and no block is both published and deleted |
| `VectorGrowth.ReturnsEnough` | src/fuxi/base/vector.hpp:642-678 | every call returns a table of at least the requested size |
| `VectorCalls.CallReturns` | src/fuxi/base/vector.hpp:642-678 | a call for n blocks returns a table of at least n that is not older than the one current when it began, and that one itself if it was large enough |
| `VectorCalls.GrowsExactly` | src/fuxi/base/vector.hpp:655-678 | a table is published only over a smaller one and has exactly the blocks its call asked for |
| `VectorGrowth.RetriesBounded` | src/fuxi/base/vector.hpp:657-677 | a call loses fewer races than the blocks it asks for |
| `VectorGrowth.NothingLost` | src/fuxi/base/vector.hpp:655-678 | when all calls have returned every created block is in the current table or deleted, and every earlier table is retired exactly once |
| `RetireList.ExpiredIsOld` | src/fuxi/base/vector.hpp:144-159 | wrapping 16-bit stamps that count as expired mean more than 64 seconds |
| `RetireList.ExpiredExactly` | src/fuxi/base/vector.hpp:152-159 | they count as expired if and only if the readings are two units or more apart, but for whole rounds of the stamps |
| `RetireList.OldIsExpired` | src/fuxi/base/vector.hpp:144-159 | so they do from 128 seconds on until almost a round of stamps has passed |
| `RetireList.StepKeeps` | src/fuxi/base/vector.hpp:87-116 | every action of retire and gc keeps the head stamp, the logs and the expiry decisions consistent |
| `RetireList.FreedOnlyLate` | src/fuxi/base/vector.hpp:87-116 | no object is freed until more than 64 - lag seconds after it was linked; with atomic calls, more than 64 |
| `RetireList.GraceExactly` | src/fuxi/base/vector.hpp:87-159 | a grace of g seconds is kept in all executions with calls at most lag seconds late if and only if g is at most 65 - lag |
| `RetireList.FullGraceExactly` | src/fuxi/base/vector.hpp:152-159 | more than 64 seconds are kept in all such executions if and only if lag is 0 |
| `RetireList.RetiredExactlyOnce` | src/fuxi/base/vector.hpp:87-170 | every retired object is in the list or freed, exactly once, in every execution |
| `RetireCalls.GcFreesExactly` | src/fuxi/base/vector.hpp:109-116 | a whole gc frees the entire list if and only if the head is still the one it read first and its clock reading is due; otherwise it changes nothing |
| `RetireCalls.RetireFreesOnlyDue` | src/fuxi/base/vector.hpp:86-106 | a whole retire links its object with the stamp of its clock reading, over the list it found or over nothing, and then it freed that whole list, unchanged since its load and due |
| `RetireCalls.RetireFreesDue` | src/fuxi/base/vector.hpp:91-101 | and it does free a due list if nobody else changed the head during the call |
| `RetireList.LateCallFreesEarly` | src/fuxi/base/vector.hpp:87-116 | for every lag up to 65 an execution that frees an object 65 - lag seconds after a prompt call retired it |
| `PageCache.FetchUntilFilled` | src/fuxi/base/bounded_queue.hpp:959-976 | the waiting loop of a compensated pop ends, after one fetch at most per slot |
| `PageCache.EvictUntilFree` | src/fuxi/base/bounded_queue.hpp:959-976 | the waiting loop of a compensated push ends, after one eviction at most per slot |
| `PageCache.PopOrFetch` | src/fuxi/base/bounded_queue.hpp:790-804 | takes the oldest pages and then exactly the missing number of new ones |
| `PageCache.PushOrEvict` | src/fuxi/base/bounded_queue.hpp:617-631 | appends all pages and returns exactly the oldest excess upstream |
| `PageAllocators.AllocateConserves` | src/fuxi/mm/page_allocator.cc:94-115 | an allocation keeps every upstream page in exactly one place |
| `PageAllocators.DeallocateConserves` | src/fuxi/mm/page_allocator.cc:117-137 | so does a deallocation |
| `PageAllocators.CachedPageAllocator.Allocate` | src/fuxi/mm/page_allocator.cc:94-115 | the oldest min(size, k) cached pages, then new ones, with that hit count |
| `PageAllocators.CachedPageAllocator.Deallocate` | src/fuxi/mm/page_allocator.cc:117-137 | exactly max(0, size + k - capacity) oldest pages are evicted and pages beyond k go upstream |
| `PageAllocators.CachedPageAllocator.Destroy` | src/fuxi/mm/page_allocator.cc:72-80 | every cached page is returned |
| `PageAllocators.TakeSpreads` | src/fuxi/mm/page_allocator.cc:185-193 | handing out a buffered page keeps every page in one place |
| `PageAllocators.BatchPageAllocator.Allocate` | src/fuxi/mm/page_allocator.cc:185-193 | a page no client holds, from the thread's buffer, which is refilled by exactly one batch when empty |
| `PageAllocators.BatchPageAllocator.AllocateMany` | src/fuxi/mm/page_allocator.cc:195-199 | distinct pages no client holds |
| `PageAllocators.BatchPageAllocator.Deallocate` | src/fuxi/mm/page_allocator.cc:201-203 | pages go upstream |
| `PageAllocators.BatchPageAllocator.Touch` | src/fuxi/base/thread_local.h:31-33 | a thread's slot comes into being with its block and changes no buffer |
| `PageAllocators.BatchPageAllocator.Destroy` | src/fuxi/mm/page_allocator.cc:156-166 | every buffered page is returned if and only if no thread id from 65408 on has a slot or nothing is buffered; otherwise none is |
| `PageAllocators.SpareExactly` | src/fuxi/mm/page_allocator.cc:156-166 | clients hold every page exactly when nothing is buffered |
| `PageAllocators.LateThreadLeaks` | src/fuxi/base/thread_local.h:36-44 | after one allocation by thread 65408 the destructor keeps the rest of the batch |
| `ThreadCells.CellStored` | src/fuxi/base/thread_local.h:179-186 | a store changes one cell of one instance only, although instances share lines |
| `ThreadCells.ThreadCells.Touch` | src/fuxi/base/thread_local.h:31-33 | creating cells changes none; a group fills its 16-bit range exactly when a thread of the last block touches it |
| `ThreadCells.ThreadCells.Range` | src/fuxi/base/thread_local.h:36-54 | a sweep covers every cell in use, unless the group is full and it covers none |
| `ThreadCells.ThreadCells.ClearAll` | src/fuxi/base/thread_local.h:205-215 | the destructor blanks all cells of the instance and no other, or, when the group is full, none |
| `ThreadCells.ThreadCells.NeverFull` | src/fuxi/base/thread_local.h:36-44 | with at most 65408 thread ids no group is full |
| `Counters.SumUpdate` | src/fuxi/base/counter.h:207-213 | a change of one cell changes the sum by the difference |
| `Counters.Adders.New` | src/fuxi/base/thread_local.h:179-186 | a new adder shows 0, also on a recycled number and recycled cells |
| `Counters.Adders.Add` | src/fuxi/base/counter.h:207-213 | an update on any thread adds to the plain total |
| `Counters.Adders.Value` | src/fuxi/base/counter.cc:9-15 | equals the plain total, or 0 exactly when the group is full |
| `Counters.Adders.Reset` | src/fuxi/base/counter.cc:17-21 | the plain total becomes 0 |
| `Counters.LateThreadLosesCount` | src/fuxi/base/thread_local.h:36-54 | one update by thread 65408 and the adder shows 0 instead of 1 |
| `Counters.TotalUpdate` | src/fuxi/base/counter.h:243-265 | an update of one cell adds its sum to the sum of all sums and its count to the sum of all counts |
| `Counters.Summers.Add` | src/fuxi/base/counter.h:243-265 | an update on any thread adds its sum to one plain integer and its count to another |
| `Counters.Summers.AddValue` | src/fuxi/base/counter.h:237-240 | a single value adds itself to the one and 1 to the other |
| `Counters.Summers.Value` | src/fuxi/base/counter.cc:57-77 | its two fields equal these two plain integers, or are zero exactly when the group is full |
| `Counters.RecordKeeps` | src/fuxi/base/counter.h:216-235 | recording on any thread keeps the slots of the period equal to the plain maximum |
| `Counters.PeakOfSlots` | src/fuxi/base/counter.cc:32-48 | what a sweep over the slots finds is the plain maximum |
| `Counters.Maxers.Put` | src/fuxi/base/counter.h:216-235 | updates the plain maximum of the period |
| `Counters.Maxers.Value` | src/fuxi/base/counter.cc:26-48 | finds the plain maximum since the last reset exactly when it exceeds the least value |
| `Counters.Maxers.Reset` | src/fuxi/base/counter.cc:50-52 | starts an empty period |

## Left out

- Weak memory orders and fences: executions are sequentially consistent, and a futex wait compares and sleeps in one action.
- Timeouts, back-off and try_pop_n_exclusively_until, which waits one past its batch.
- The non-concurrent template variants of the queue's calls: they are the sequential class.
- Wrap-around of the queue's 64-bit indexes, of 64-bit sizes in the arena, of 64-bit counter sums, and of 32-bit instance numbers.
- Batches larger than the queue capacity. The source indexes past its slot array with them exactly when the slot of the first ticket and the size of the batch together exceed twice the capacity (SecondRunFits); the others would use a slot twice in one call.
- Reuse of freed addresses by the compare-and-swaps of ConcurrentVector and RetireList: tables and list nodes are told apart by history, not by address.
- Interaction of retired tables with readers that hold an old snapshot for longer than the grace period.
- Linked `next` pointers of the arena's lists: the lists are sequences, with the place of each list in memory kept and checked.
- Move and swap of arenas and slot vectors, SharedMonotonicBufferResource, and the protobuf hook.
- Concurrent use of FlatObjectQueue, whose ring calls take the single-producer, single-consumer default.
- FlatSignalQueue, whose blocking calls bypass its counter; ring_buffer.cc, which repeats RteRing for pointers.
- ConcurrentSampler: a random reservoir.
- The shm layer, name registries, time and configuration helpers: mostly system calls or easy members.
- QueueTheorems.NoLostWakeup: covers executions in which every operation wakes waiters, since without that no wake-up is promised.
- QueueProgress.NoDeadlock: covers the same executions; that an operation which can pass its test gets to run is left to the scheduler.
- QueueCalls.TryCall: assumes, as all results on the queue do, that no outstanding ticket gets 2^15 rounds ahead of its slot.
- RingCalls.CallOutcome: says why a call was refused only while heads move less than 2^32 minus the capacity between a load and the test; HonestExactlyBelow shows this bound is exact.
- RingTheorems.RingSafety: assumes that no head goes once around the 32-bit range between an operation's load and its swap, and that an operation in single mode has its side to itself; SafeExactlyBelowFullRound and TwoSinglesCollide show why.
- IdTheorems.IdSafety: assumes ids below the tail mark and no operation overtaken by a full round of versions; FreeHeadExactlyBelowLap shows the latter bound is exact.
- Counters.Adders.Value: assumes no update runs at the same time, so the sum is that of one moment.
- Counters.Maxers.Reset: assumes fewer than 2^64 - 1 resets.
