# A verified model of the teaching kernel

This project models the core of the kernel in Dafny and proves what its parts promise.  Three
components are covered, each from one chapter of the repository: the first-fit allocator
(`Chapter_04_Timer/02_First_fit`), and the thread scheduler with its synchronisation and the alarm
queue (`Chapter_07_Threads/03_Semaphore`).

`dafny verify dfyconfig.toml` checks everything.

## How it is organised

| file | what it holds |
|---|---|
| `Bits.dfy` | machine words, their bits, and the four forms of `msb_index` |
| `IdPool.dfy` | unique ids: the circular scan, runs of it, and the bitmap allocator |
| `Time.dfy` | time arithmetic |
| `Seqs.dfy`, `Options.dfy` | sequences without repetition, optional values |
| `LinkedList.dfy` | sorted insertion on sequences, and the intrusive doubly linked list that refines it |
| `FirstFit.dfy` | the allocator as chunks that tile an arena and a list of free chunks |
| `Arena.dfy` | the same allocator on words of memory: tags, borders, links |
| `Scheduler.dfy` | threads as values: queues, states, reference counts, every primitive of `thread.c` |
| `KernelState.dfy` | the whole kernel as a value; semaphores |
| `Devices.dfy` | device locks |
| `Alarms.dfy`, `AlarmFrames.dfy` | the alarm queue, the timer interrupt, system calls on alarms |
| `ThreadCalls.dfy` | system calls on threads |
| `Runs.dfy` | one step of the kernel: any system call or interrupt |
| `ReadyOrder.dfy` | the order of ready threads, step by step |
| `References.dfy` | references to thread descriptors, step by step |
| `ThreadEffects.dfy`, `AlarmEffects.dfy` | the exact effect of every call, said of the state before and after alone |
| `Safety.dfy` | theorems over all runs |
| `Counterexamples.dfy` | runs from start-up after which calls surprise their clients |
| `ReadyMask.dfy` | the bitmap over the ready queues |
| `Lists.dfy` | many linked lists at once, each object in at most one of them |
| `ReadyList.dfy` | the linked queues of threads together with the bitmap |
| `Kernel.dfy` | the kernel as it runs, in place, proved against the value model |

Two levels meet in the kernel part.  The *value model* describes each system call as a function
from state to state; the theorems about runs are about it.  The class in `Kernel.dfy` works in
place, on linked queues of threads, a linked list of alarms and the bitmap over the ready queues.
Its methods follow the source function by function, and each is proved to reach exactly the state
of the value model with all lists linked and the bitmap exact.  `Perform` puts them together: the
kernel makes exactly the steps that the theorems about runs speak of.  In the same way `Arena.dfy`
refines `FirstFit.dfy`, and `LinkedList.dfy` refines sequences.

Interrupts are off inside the kernel, so a system call is one step of a run.  The only call with
code behind `k_schedule_threads` that touches shared state is `k_device_lock`; that code is a step
of its own, taken when the thread runs again.

## What the proofs found

Some statements that one would expect are not true of the code.  Each has a lemma with the exact
condition, and an input or a run from start-up that shows it.

- The id bitmap has `MAX_RESOURCES / 32` words.  With the configured 1000 ids it covers only 992.
  Whatever is freed in between, the allocation after the 991st reads behind it (`StaysInBoundsIff`,
  `ConfiguredPool`, `ConfiguredPoolOverruns`).  What is proved of runs of the pool is therefore, for
  the configured size, about runs of at most 991 allocations.
- The comment in `k_new_unique_id` says that 0 is not assigned; the `continue` goes to the loop
  test, so it can be, in pools whose size is a multiple of 32 (`ZeroIsHandedOutIff`,
  `EvenPoolHandsOutZero`).  With the configured 1000 ids it never is, because the overrun above
  comes first (`ConfiguredPool`).
- `ffs_alloc` computes sizes modulo 2^32.  From 2^32 - 8 on, requests get a block of less than 32
  bytes as success (`BlockHoldsRequestIff`, `WrappedBlock`, `WrappedRequests`).  For the three requests below that the
  size is zero: the source overwrites the tail of a free chunk and returns the address of a live
  block or one behind the border; no heap is left (`ChunkSizeFits`, `ZeroSizeBreaks`,
  `ZeroSizeResult`, `Allocate`).
- `sys__cancel_thread` does not reschedule, so a joiner of higher priority stays ready
  (`CancelTopIff`, `CancelDoesNotPreempt`).
- `k_alarm_set` to time zero forgets threads that wait for the alarm (`SetKeeps`,
  `ZeroTimeForgets`).
- `k_device_unlock` does not check who calls it (`UnlockKeepsIff`, `ForeignUnlockFrees`).
- The comment of `sys__sem_wait` says that it blocks if the value is 0; the code blocks on every
  value that is not positive, and an initial value below zero is accepted (`WaitBlocksIff`,
  `NegativeValueBlocks`).  The lower bound of values is the smaller of 0 and the initial value.
- `time_add` carries only above 10^9 nanoseconds, so one instant has two representations, and an
  alarm exactly at `now + threshold` is activated or not depending on them (`DueExactly`,
  `DueOnceExactly`, `LimitMissed`).
- A periodic alarm whose period is not positive keeps `k_schedule_alarms` busy for ever once it is
  due (`EndlessIff`, `EndlessExample`); everywhere else periods are positive.
- A thread that never waited for another can collect its status, and with it the reference of one
  that did; threads that wait find the descriptor if only such threads collect
  (`WaitersFindDescriptor`, `StrangerCollects`).

## Model

| member | source | states |
|---|---|---|
| `FirstFit.ChunkSizeFits` | Chapter_04_Timer/02_First_fit/lib/ff_simple.c:65-70 | the rounded size leaves room for request and tags if and only if adding tags and rounding does not wrap; it becomes zero exactly in the gap where only the rounding wraps |
| `FirstFit.InitWf` | Chapter_04_Timer/02_First_fit/lib/ff_simple.c:36-49 | the heap made by ffs_init is well formed |
| `FirstFit.AllocOutcome` | Chapter_04_Timer/02_First_fit/lib/ff_simple.c:59-100 | ffs_alloc fails, with the heap unchanged, if and only if no free chunk reaches the rounded size; else it serves from the first fitting chunk in list order, adds exactly that chunk to the used ones, gives less than HEADER_SIZE extra bytes and keeps the heap well formed |
| `FirstFit.AllocIs` | Chapter_04_Timer/02_First_fit/lib/ff_simple.c:72-99 | the block is taken from the end of the first fitting chunk, whose rest keeps its place in the list, or is the whole chunk, which leaves the list, if less than HEADER_SIZE would be left: exact chunks, list and address |
| `FirstFit.BlockHoldsRequestIff` | Chapter_04_Timer/02_First_fit/lib/ff_simple.c:65-99 | a block that is returned lies inside the arena, holds the requested bytes between its tags and is disjoint from every block in use, all of which stay in use, if and only if adding tags and rounding does not wrap |
| `FirstFit.WrappedBlock` | Chapter_04_Timer/02_First_fit/lib/ff_simple.c:65-70 | a request whose tags wrap gets a chunk of less than 32 bytes |
| `FirstFit.WrappedRequests` | Chapter_04_Timer/02_First_fit/lib/ff_simple.c:65-94 | such a request is served: 2^32 - 1 bytes from an arena of 64; and a request whose size is zero |
| `FirstFit.FreeOutcome` | Chapter_04_Timer/02_First_fit/lib/ff_simple.c:107-141 | ffs_free removes exactly the freed chunk from the used ones and keeps the heap well formed (tiling, alignment, no two free neighbours, list = free chunks, each once) |
| `FirstFit.FreeIs` | Chapter_04_Timer/02_First_fit/lib/ff_simple.c:113-138 | the freed chunk and its free neighbours on both sides become one chunk that is listed first; exact chunks and list |
| `FirstFit.AllocThenFree` | Chapter_04_Timer/02_First_fit/lib/ff_simple.c:59-141 | an allocation followed at once by its free restores the same chunks and the same free list up to order, in the split and in the whole-chunk case |
| `FirstFit.RunKeepsWf` | Chapter_04_Timer/02_First_fit/lib/ff_simple.c:15-171 | every run of allocations and frees keeps the heap well formed in the same arena; an allocation is excluded only where it leaves no heap (see ZeroSizeBreaks) |
| `FirstFit.BytesConserved` | Chapter_04_Timer/02_First_fit/lib/ff_simple.c:36-49 | after every run used plus free bytes equal the size made by ffs_init |
| `FirstFit.LiveBlocksDisjoint` | Chapter_04_Timer/02_First_fit/lib/ff_simple.c:59-141 | two live blocks occupy disjoint parts of the arena |
| `FirstFit.LiveAfterFree` | Chapter_04_Timer/02_First_fit/lib/ff_simple.c:107-141 | after a free exactly the other live blocks are live |
| `FirstFit.FreeAllRestoresInit` | Chapter_04_Timer/02_First_fit/lib/ff_simple.c:107-141 | freeing all live blocks in any order can always be done and leaves exactly the heap of ffs_init |
| `FreeList.InsertChunk` | Chapter_04_Timer/02_First_fit/lib/ff_simple.c:162-171 | the words of memory then hold the doubly linked list with the chunk in front; no other word changes |
| `FreeList.RemoveChunk` | Chapter_04_Timer/02_First_fit/lib/ff_simple.c:147-156 | the words of memory then hold the list without the chunk, wherever it was; no other word changes |
| `Arena.RepReplace` | Chapter_04_Timer/02_First_fit/lib/ff_simple.h:50-64 | if part of the tiling is replaced and tagged and the list is linked, memory holds the new heap and used chunks outside that part keep every word |
| `Arena.StoreRep` | Chapter_04_Timer/02_First_fit/lib/ff_simple.h:26-40 | a word between the tags of a used chunk is no part of the heap structure: any value there keeps memory a representation of the same heap |
| `Arena.Pool.Initialize` | Chapter_04_Timer/02_First_fit/lib/ff_simple.c:15-52 | fails if the aligned segment is too small, else memory holds the heap with one free chunk between two used borders |
| `Arena.Pool.WriteInit` | Chapter_04_Timer/02_First_fit/lib/ff_simple.c:36-47 | border words, tags and sizes as laid out between the borders; nothing below the first border changes |
| `Arena.Pool.FindFit` | Chapter_04_Timer/02_First_fit/lib/ff_simple.c:72-77 | walking the links of the free list finds the first chunk of at least the size, or 0 |
| `Arena.HeadersDecide` | Chapter_04_Timer/02_First_fit/lib/ff_simple.h:57-64 | the header words decide the tiling: memory with the same headers up to a chunk holds only heaps with the same chunks up to there |
| `Arena.ZeroSizeBreaks` | Chapter_04_Timer/02_First_fit/lib/ff_simple.c:79-97 | the words written for a chunk of size zero overwrite the tail of the chunk it is taken from, and memory holds no heap any more, whatever its extent |
| `Arena.ZeroSizeResult` | Chapter_04_Timer/02_First_fit/lib/ff_simple.c:86-99 | the address returned for it is that of a live block, or lies behind the border |
| `Arena.Pool.Allocate` | Chapter_04_Timer/02_First_fit/lib/ff_simple.c:59-100 | for every request: memory holds a heap afterwards if and only if the rounded size is not zero or there is no free chunk; it then holds the heap of the chunk-level Alloc, the result is its block or 0, and every word of every used chunk is unchanged; a failure changes no word |
| `Arena.Pool.Release` | Chapter_04_Timer/02_First_fit/lib/ff_simple.c:107-141 | memory goes to the heap of the chunk-level Free and every word of every block that is still live is unchanged |
| `Arena.Pool.Store` | Chapter_04_Timer/02_First_fit/lib/ff_simple.h:26-40 | a client that writes only inside its own block keeps the heap representation and every other block |
| `Arena.Pool.PerformOthers` | Chapter_04_Timer/02_First_fit/lib/ff_simple.c:59-141 | over any sequence of allocations, frees and writes by others, every word of a live block stays as it is |
| `Bits.MsbIndex32` | Chapter_07_Threads/03_Semaphore/lib/bits_generic.h:42-55 | the result is floor(log2 num) for every 32-bit num > 0 |
| `Bits.MsbIndex64` | Chapter_07_Threads/03_Semaphore/lib/bits_generic.h:58-72 | the same for 64 bits |
| `Bits.MsbIndexGeneric` | Chapter_07_Threads/03_Semaphore/lib/bits_generic.h:75-91 | the same by the halving loop over 32 bits |
| `Bits.MsbIndexIntN` | Chapter_07_Threads/03_Semaphore/lib/bits_generic.h:97-113 | the same by the halving loop over 64 bits |
| `Bits.MsbIndexLoop` | Chapter_07_Threads/03_Semaphore/lib/bits_generic.h:102-112 | the halving loop computes floor(log2 num) for any word of 2^k bits |
| `Bits.Log2IsTopBit` | Chapter_07_Threads/03_Semaphore/lib/bits_generic.h:39-55 | floor(log2 num) is the position of the highest bit that is set |
| `Bits.Log2Unique` | Chapter_07_Threads/03_Semaphore/lib/bits_generic.h:42-113 | the logarithm is unique, so all four forms agree |
| `IdPool.ScanStopsAtFirst` | Chapter_07_Threads/03_Semaphore/kernel/memory.c:58-77 | the circular scan stops within MAX_RESOURCES steps at the first id that is free or behind the bitmap; all it passed are in use |
| `IdPool.HaltsIff` | Chapter_07_Threads/03_Semaphore/kernel/memory.c:62-68 | the system is halted if and only if every id other than the starting one is covered by the bitmap and taken |
| `IdPool.ReturnsFirstFree` | Chapter_07_Threads/03_Semaphore/kernel/memory.c:58-77 | a returned id was not in use and is the first such one in circular order |
| `IdPool.ZeroIsHandedOutIff` | Chapter_07_Threads/03_Semaphore/kernel/memory.c:69-72 | id 0 is handed out if and only if the scan wraps, every id above the start is taken and 0 is free: the comment at line 69 is not kept |
| `IdPool.StaysInBoundsIff` | Chapter_07_Threads/03_Semaphore/kernel/memory.c:53-54 | the scan never reads behind the bitmap, whatever is in use, if and only if the number of ids is a multiple of the word width (or 1) |
| `IdPool.UnevenPoolCounts` | Chapter_07_Threads/03_Semaphore/kernel/memory.c:54-86 | if the number of ids is no multiple of the word width, every run hands out 1, 2, 3, ..., whatever is freed, and the number of allocations alone decides when the scan reads behind the bitmap |
| `IdPool.ConfiguredPool` | Chapter_07_Threads/03_Semaphore/Makefile:66-68 | with MAX_RESOURCES = 1000 every run from the start has at most 991 allocations, the next one reads the bitmap behind its end if and only if there were 991, and id 0 is never handed out |
| `IdPool.ConfiguredPoolOverruns` | Chapter_07_Threads/03_Semaphore/kernel/memory.c:62-72 | 991 allocations from the start are such a run |
| `IdPool.EvenPoolHandsOutZero` | Chapter_07_Threads/03_Semaphore/kernel/memory.c:69-72 | if the number of ids is a multiple of the word width, the run that takes all other ids from the start is followed by id 0 |
| `IdPool.HeldIdsAreUnique` | Chapter_07_Threads/03_Semaphore/kernel/memory.c:58-86 | after every run of allocations and frees the ids held at once are pairwise distinct and exactly the ids in use (with 1000 ids: runs of at most 991 allocations, see ConfiguredPool) |
| `IdPool.Allocator.NewId` | Chapter_07_Threads/03_Semaphore/kernel/memory.c:58-77 | the loop over the bitmap computes the scan; exactly the bit of the returned id changes |
| `IdPool.Allocator.FreeId` | Chapter_07_Threads/03_Semaphore/kernel/memory.c:80-86 | exactly the bit of the freed id changes |
| `Time.Add` | Chapter_07_Threads/03_Semaphore/lib/types.h:112-122 | exact in total nanoseconds, keeps nanoseconds in [0, 10^9], no overflow of the nanosecond sum |
| `Time.Sub` | Chapter_07_Threads/03_Semaphore/lib/types.h:130-141 | exact in total nanoseconds, in range, seconds non-negative if and only if a is not before b |
| `Time.Cmp` | Chapter_07_Threads/03_Semaphore/lib/types.h:149-167 | zero only for equal representations; otherwise the order of instants, refined between the two representations of one instant |
| `Time.Half` | Chapter_07_Threads/03_Semaphore/kernel/time.c:34-37 | the threshold is half the minimal interval in nanoseconds, rounded down, in range |
| `SortedInsert.FastPathIff` | Chapter_07_Threads/03_Semaphore/lib/list.c:67-74 | on any list the last-element shortcut gives the position of the plain scan if and only if it is not taken or nothing in the list is after the new element |
| `SortedInsert.SortAddBelongs` | Chapter_07_Threads/03_Semaphore/lib/list.c:67-74 | for a total preorder and a sorted list shortcut and scan agree, and the position is behind all elements not after the new one (stable) and before all others |
| `SortedInsert.BelongsSorted` | Chapter_07_Threads/03_Semaphore/lib/list.c:76-102 | inserting there keeps the list sorted |
| `SortedInsert.RemoveAtIsWithout` | Chapter_07_Threads/03_Semaphore/lib/list.c:140-172 | removal of a position is removal of the object there, as objects are in a list at most once |
| `LinkedList.List.Append` | Chapter_07_Threads/03_Semaphore/lib/list.c:20-37 | the linked sequence grows by the element at its end; prev and next stay inverse |
| `LinkedList.List.Prepend` | Chapter_07_Threads/03_Semaphore/lib/list.c:40-55 | the linked sequence grows by the element at its front |
| `LinkedList.List.SortAdd` | Chapter_07_Threads/03_Semaphore/lib/list.c:58-103 | the linked sequence is the old one with the element inserted at the position of shortcut or scan |
| `LinkedList.List.FindPlace` | Chapter_07_Threads/03_Semaphore/lib/list.c:67-74 | the pointer search finds the node at that position |
| `LinkedList.List.Get` | Chapter_07_Threads/03_Semaphore/lib/list.c:106-121 | first or last element, null exactly for the empty list |
| `LinkedList.List.GetNext` | Chapter_07_Threads/03_Semaphore/lib/list.c:124-130 | the following element, null at the end |
| `LinkedList.List.Remove` | Chapter_07_Threads/03_Semaphore/lib/list.c:140-172 | removal by reference or from either end takes out exactly that position; an empty list stays empty |
| `Scheduler.TopBelow` | Chapter_07_Threads/03_Semaphore/kernel/thread.c:262-275 | the largest priority with a ready thread, or -1 |
| `Scheduler.AppendPlaces` | Chapter_07_Threads/03_Semaphore/kernel/thread.c:180-191 | a thread in no queue that is appended to one is then in exactly the queue its descriptor names |
| `Scheduler.ScheduleKeeps` | Chapter_07_Threads/03_Semaphore/kernel/thread.c:123-171 | k_schedule_threads keeps placement and counts and leaves exactly one thread active |
| `Scheduler.ScheduleRunsTop` | Chapter_07_Threads/03_Semaphore/kernel/thread.c:130-154 | afterwards no ready thread has a higher priority than the active one |
| `ReadyOrder.ScheduleInOrder` | Chapter_07_Threads/03_Semaphore/kernel/thread.c:137-154 | those who were ready at a priority come before all who became ready since, in their order, the first of them perhaps active now; a preempted thread goes last |
| `ReadyOrder.EveryStepInOrder` | Chapter_07_Threads/03_Semaphore/kernel/thread.c:123-307 | every system call and interrupt keeps that order in all ready queues; a cancel only takes out the cancelled thread |
| `Scheduler.IdleCanRun` | Chapter_07_Threads/03_Semaphore/kernel/thread.c:134-135 | with an idle thread that is never blocked or ended the assertion "must be a thread to return to" holds |
| `Scheduler.ReleaseAllEffect` | Chapter_07_Threads/03_Semaphore/kernel/thread.c:221-240 | the queue is emptied, its threads become ready in their order behind those of equal priority, and no other queue of blocked threads changes |
| `Scheduler.CreateKeepsIff` | Chapter_07_Threads/03_Semaphore/kernel/thread.c:71-116 | creating a thread keeps placement and counts if and only if the thread is made to run |
| `Scheduler.RemoveThreadKeeps` | Chapter_07_Threads/03_Semaphore/kernel/thread.c:363-376 | the descriptor is freed if and only if the last reference is dropped, and then nobody is blocked on it; otherwise exactly its joiners become ready |
| `Scheduler.ExitKeeps` | Chapter_07_Threads/03_Semaphore/kernel/thread.c:382-396 | ending the active thread leaves a state from which k_schedule_threads can go on |
| `Scheduler.JoinKeeps` | Chapter_07_Threads/03_Semaphore/kernel/thread.c:404-450 | a join of a thread that has not ended adds exactly one reference before it blocks if the caller wants to wait, and else changes nothing; a collected status drops exactly one, no other count changes, and the descriptor is freed if and only if a status is collected with the last reference |
| `Scheduler.CancelKeeps` | Chapter_07_Threads/03_Semaphore/kernel/thread.c:456-504 | cancelling a ready or blocked thread keeps placement and counts; the caller stays active |
| `ThreadCalls.CreateKeeps` | Chapter_07_Threads/03_Semaphore/kernel/thread.c:329-350 | sys__create_thread keeps the whole kernel in order, ends with the top priority running, and leaves semaphores, devices and alarms alone |
| `ThreadCalls.ExitThreadKeeps` | Chapter_07_Threads/03_Semaphore/kernel/thread.c:382-396 | the same for sys__thread_exit |
| `ThreadCalls.JoinThreadKeeps` | Chapter_07_Threads/03_Semaphore/kernel/thread.c:404-450 | sys__wait_for_thread keeps the whole kernel in order and leaves semaphores, devices and alarms alone; nothing changes if the thread has not ended and the caller does not want to wait |
| `ThreadEffects.JoinEffect` | Chapter_07_Threads/03_Semaphore/kernel/thread.c:416-449 | the caller blocks if and only if the thread has not ended and it wants to wait; it is told gone, not finished, or the exit status |
| `ThreadEffects.CreateEffect` | Chapter_07_Threads/03_Semaphore/kernel/thread.c:94-116 | the new thread is ready or active with the given priority, 0 for negative ones and 63 for larger ones, one reference and no joiners; the processor is given to a thread of at least the priority of the caller, if there is one |
| `ThreadEffects.ExitEffect` | Chapter_07_Threads/03_Semaphore/kernel/thread.c:382-396 | another thread is active, and all that waited for the end of the caller are ready or active |
| `ThreadEffects.CancelEffect` | Chapter_07_Threads/03_Semaphore/kernel/thread.c:474-501 | a ready or blocked thread leaves its queue and all that waited for its end are released; for any other thread nothing changes |
| `ThreadEffects.ScheduleYields` | Chapter_07_Threads/03_Semaphore/kernel/thread.c:137-154 | after k_schedule_threads another thread is active, unless all ready ones have lower priorities than the caller |
| `ThreadEffects.EveryStepSameThreads` | Chapter_07_Threads/03_Semaphore/kernel/thread.c:71-504 | no step changes a priority, and an exit status changes only when its thread ends |
| `ThreadEffects.PostYields` | Chapter_07_Threads/03_Semaphore/kernel/semaphore.c:66-69 | a post gives the processor away if it released a waiter, and else changes nothing but the value |
| `ThreadEffects.WaitYields` | Chapter_07_Threads/03_Semaphore/kernel/semaphore.c:87-94 | a wait changes nothing but the value, or another thread becomes active |
| `ThreadEffects.LockYields` | Chapter_07_Threads/03_Semaphore/kernel/devices.c:174-185 | a caller that finds the device locked and does not wait changes nothing; one that waits gives the processor away |
| `ThreadEffects.UnlockYields` | Chapter_07_Threads/03_Semaphore/kernel/devices.c:191-194 | an unlock changes only this device, and gives the processor away if it released a waiter |
| `ThreadCalls.CancelThreadKeeps` | Chapter_07_Threads/03_Semaphore/kernel/thread.c:456-504 | sys__cancel_thread keeps the whole kernel in order and takes the thread out of the queue where it waits, keeping the order of the others |
| `ThreadCalls.CancelTopIff` | Chapter_07_Threads/03_Semaphore/kernel/thread.c:484-503 | after a cancel, which does not reschedule, the top priority still runs if and only if the cancelled thread was not joined by a thread of higher priority than the caller |
| `Semaphores.PostKeeps` | Chapter_07_Threads/03_Semaphore/kernel/semaphore.c:54-72 | a post hands its unit to the thread that waits longest, which is then ready or active, without changing the value; if nobody waits the value grows by one and no thread changes; the balance is kept |
| `Semaphores.WaitKeeps` | Chapter_07_Threads/03_Semaphore/kernel/semaphore.c:75-97 | a wait takes one from a positive value and goes on, or blocks behind the threads that already wait; the balance is kept |
| `Devices.LockBlocks` | Chapter_07_Threads/03_Semaphore/kernel/devices.c:172-181 | a thread that finds the device locked goes to the end of its queue; the lock stays consistent |
| `Devices.LockTakes` | Chapter_07_Threads/03_Semaphore/kernel/devices.c:183-186 | a thread that finds the device free becomes its only holder |
| `Devices.ResumeChangesNothing` | Chapter_07_Threads/03_Semaphore/kernel/devices.c:183-183 | the resumed waiter is already the only holder: setting the flag changes nothing |
| `Devices.UnlockKeepsIff` | Chapter_07_Threads/03_Semaphore/kernel/devices.c:189-197 | an unlock keeps the lock exclusive if and only if the caller holds it, nobody does, or its only holder waits first in its queue; then the first waiter is ready or active and the only holder, or without waiters the device is free |
| `Alarms.AddSortedKeeps` | Chapter_07_Threads/03_Semaphore/kernel/time.c:130-138 | adding an alarm keeps the list sorted by time and free of duplicates, and adds exactly that alarm |
| `Alarms.FireKeeps` | Chapter_07_Threads/03_Semaphore/kernel/time.c:60-108 | activating the first alarm keeps the whole kernel in order, leaves nobody waiting for it, and creates one thread if it has an action and none otherwise |
| `AlarmEffects.WakeEffect` | Chapter_07_Threads/03_Semaphore/kernel/time.c:82-106 | an activation creates a ready thread one priority above the owner, within the levels, if and only if the alarm has an action, then makes all waiters ready in their order; no other thread or queue changes |
| `AlarmEffects.LoopStarts` | Chapter_07_Threads/03_Semaphore/kernel/time.c:58-113 | exactly one thread is created for each activation of an alarm with an action, in order of activation, each one priority above the owner |
| `AlarmEffects.LoopMakesReady` | Chapter_07_Threads/03_Semaphore/kernel/time.c:99-123 | the result of k_schedule_alarms is the number of threads it made ready |
| `AlarmEffects.LoopQueues` | Chapter_07_Threads/03_Semaphore/kernel/time.c:106-106 | the waiters of exactly the activated alarms are released |
| `AlarmEffects.LoopQuietIff` | Chapter_07_Threads/03_Semaphore/kernel/time.c:99-123 | the result is zero if and only if no alarm that is due has an action or waiters |
| `Alarms.LagDrops` | Chapter_07_Threads/03_Semaphore/kernel/time.c:60-113 | each activation brings the loop nearer to its end, for any list whose periodic alarms have a positive period |
| `Alarms.LoopKeeps` | Chapter_07_Threads/03_Semaphore/kernel/time.c:58-113 | the loop keeps everything in order and ends when nothing is due; if it reports no thread to reschedule, no thread changed |
| `Alarms.LoopFiresExactly` | Chapter_07_Threads/03_Semaphore/kernel/time.c:58-113 | each alarm is activated at exactly its due expirations, each once and in order, and moves on past them |
| `Alarms.DueInstants` | Chapter_07_Threads/03_Semaphore/kernel/time.c:69-77 | the k-th activation of a periodic alarm is at its time plus k periods; all before now + threshold happen and none after it |
| `Alarms.DueOnce` | Chapter_07_Threads/03_Semaphore/kernel/time.c:78-80 | an alarm that is not periodic is activated once, if its time has come |
| `Alarms.DueExactly` | Chapter_07_Threads/03_Semaphore/kernel/time.c:60-77 | the exact number of activations of a periodic alarm, also when one falls on now + threshold: it is missed there if and only if it is written (sec + 1, 0) and now + threshold is written (sec, 10^9) |
| `Alarms.DueOnceExactly` | Chapter_07_Threads/03_Semaphore/kernel/time.c:60-80 | the same for an alarm that is not periodic |
| `Alarms.AdvanceAllIs` | Chapter_07_Threads/03_Semaphore/kernel/time.c:69-80 | afterwards a periodic alarm is active, moved on by as many periods as it had activations and past now + threshold; another one keeps its time and is active if it was not due; all other data stay |
| `Alarms.LimitMissed` | Chapter_07_Threads/03_Semaphore/lib/types.h:117-121 | such an alarm: for second 1, at half a second with a threshold of half a second |
| `Alarms.EndlessIff` | Chapter_07_Threads/03_Semaphore/kernel/time.c:60-113 | for any list and any periods, the loop never ends if and only if an active periodic alarm is due whose period is not positive |
| `Alarms.EndlessExample` | Chapter_07_Threads/03_Semaphore/kernel/time.c:60-113 | such an alarm: every 0 seconds from second 1 on, at second 2 |
| `Alarms.LoopFiresInOrder` | Chapter_07_Threads/03_Semaphore/kernel/time.c:58-113 | activations happen in time order and none is after now + threshold |
| `Alarms.TimerArmed` | Chapter_07_Threads/03_Semaphore/kernel/time.c:115-121 | only alarms at or after now + threshold are left and the timer is set to exactly the earliest minus now, which is not negative |
| `Alarms.ScheduleAlarmsKeeps` | Chapter_07_Threads/03_Semaphore/kernel/time.c:48-124 | k_schedule_alarms keeps the whole kernel in order |
| `Alarms.AddKeeps` | Chapter_07_Threads/03_Semaphore/kernel/time.c:130-157 | k_alarm_add keeps the whole kernel in order, also when the caller blocks |
| `AlarmEffects.AddEffect` | Chapter_07_Threads/03_Semaphore/kernel/time.c:130-157 | all alarms, the activations, the threads started and the queues of alarms after k_alarm_add; the caller keeps the processor if it does not block and nobody was made ready |
| `AlarmEffects.NewEffect` | Chapter_07_Threads/03_Semaphore/kernel/time.c:168-190 | the new alarm has exactly the data given by the caller, belongs to the caller and is active if its time is not zero; then as for k_alarm_add |
| `Alarms.AddActivates` | Chapter_07_Threads/03_Semaphore/kernel/time.c:134-144 | an alarm is made active if and only if its time is not zero, and then moves on past exactly the expirations that are due |
| `Alarms.AddBlocksIff` | Chapter_07_Threads/03_Semaphore/kernel/time.c:148-156 | the caller blocks if and only if it wants to wait and the alarm is active after that |
| `Runs.NewAlarmKeeps` | Chapter_07_Threads/03_Semaphore/kernel/time.c:168-190 | k_alarm_new keeps the whole kernel in order and forgets no waiter; the alarm has the data of the caller, is active if its time is not zero, past the expirations that are due; the caller blocks if and only if it wants to wait and the alarm is active then |
| `Alarms.SetKeeps` | Chapter_07_Threads/03_Semaphore/kernel/time.c:197-223 | k_alarm_set keeps the whole kernel in order; it forgets waiting threads if and only if it changes the time of an alarm to zero while somebody waits for it |
| `AlarmEffects.SetEffect` | Chapter_07_Threads/03_Semaphore/kernel/time.c:203-220 | the alarm takes over exactly action, flags, period and time of the caller; with a new time it is armed again, as for k_alarm_add, and with the old one nothing else changes |
| `Alarms.RemoveKeeps` | Chapter_07_Threads/03_Semaphore/kernel/time.c:230-260 | k_alarm_remove keeps the whole kernel in order; the alarm is gone and nobody waits for it |
| `AlarmEffects.RemoveEffect` | Chapter_07_Threads/03_Semaphore/kernel/time.c:239-257 | all other alarms stay apart from what is due; the caller keeps the processor if nobody waited and nobody was made ready |
| `ReadyOrder.RemoveReleases` | Chapter_07_Threads/03_Semaphore/kernel/time.c:249-257 | every thread that waited for the removed alarm is ready or active |
| `Alarms.WaitKeeps` | Chapter_07_Threads/03_Semaphore/kernel/time.c:374-406 | sys__wait_for_alarm puts the caller behind those who wait if the alarm is active and it wants to wait, and else changes nothing |
| `Alarms.TimerKeeps` | Chapter_07_Threads/03_Semaphore/kernel/time.c:41-45 | after a timer interrupt nobody still waits for an alarm whose time has come; threads are not rescheduled if k_schedule_alarms made nobody ready |
| `AlarmEffects.TimerEffect` | Chapter_07_Threads/03_Semaphore/kernel/time.c:41-45 | what was due is activated, exactly; the interrupted thread goes on if no alarm that was due has an action or waiters |
| `Runs.StepKeeps` | Chapter_07_Threads/03_Semaphore/kernel/thread.c:319-504 | every system call and interrupt, from every state in order, leads to a state in order; its exact effect on semaphores and lock queues |
| `Safety.BootOk` | Chapter_07_Threads/03_Semaphore/kernel/thread.c:27-58 | the state after start-up is in order, with the top priority running |
| `Safety.BootIs` | Chapter_07_Threads/03_Semaphore/kernel/thread.c:45-57 | start-up makes exactly the idle thread of priority 0 and the first user thread with the given priority within the levels, or 20; the latter runs unless its priority is 0 too; no alarms, semaphores or locks are taken, and the threshold is half the interval |
| `Safety.KernelIsSafe` | Chapter_07_Threads/03_Semaphore/kernel/thread.c:27-504 | in every state of every run: threads are partitioned, counts suffice, there is a thread to return to, semaphores are balanced, locks exclusive, and the alarm list sorted and exactly the active alarms |
| `Safety.PartitionHolds` | Chapter_07_Threads/03_Semaphore/kernel/thread.c:71-240 | each thread is exactly one of the active thread, ready in the queue of its own priority only, blocked in the queue its descriptor names only, or ended and in no queue |
| `Safety.ReferencesHold` | Chapter_07_Threads/03_Semaphore/kernel/thread.c:353-450 | a thread that has not ended has at least 1 + joiners references; an ended one whose descriptor is left has at least 1 and no joiners; nobody is blocked on a freed descriptor |
| `Safety.ExclusiveHolds` | Chapter_07_Threads/03_Semaphore/kernel/devices.c:172-197 | a locked device has exactly one holder, a free one has none and nobody waits for it |
| `Safety.TopPriorityRuns` | Chapter_07_Threads/03_Semaphore/kernel/thread.c:123-171 | along every run in which no cancel releases a joiner of higher priority than the caller, no ready thread ever has a higher priority than the active one |
| `Safety.WithoutCancel` | Chapter_07_Threads/03_Semaphore/kernel/thread.c:456-504 | runs without cancel are of that kind |
| `Safety.NoWakeUpIsLost` | Chapter_07_Threads/03_Semaphore/kernel/time.c:130-260 | along every run in which no alarm with waiters is set to time zero, every thread that waits for an alarm waits for an active one |
| `Safety.TimerIsArmed` | Chapter_07_Threads/03_Semaphore/kernel/time.c:115-121 | over every run, whenever an alarm is active, the timer is set to exactly the time from the clock of the last k_schedule_alarms to the earliest alarm |
| `Safety.WithoutZeroTimes` | Chapter_07_Threads/03_Semaphore/kernel/time.c:197-223 | runs in which k_alarm_set is never given the time zero are of that kind |
| `References.EveryStepCounts` | Chapter_07_Threads/03_Semaphore/kernel/thread.c:71-450 | the exact change of every reference count by every system call and interrupt: one for a new thread, one more for a join that blocks on it, one less for each collected status and for its end, and none otherwise |
| `References.FreedIff` | Chapter_07_Threads/03_Semaphore/kernel/thread.c:353-376 | a descriptor is freed by a step if and only if there was one reference left and the step ends the thread (exit, or cancel of a queued thread) or collects its status |
| `References.EndsLeavesStatus` | Chapter_07_Threads/03_Semaphore/kernel/thread.c:382-396 | exit and cancel end exactly a live thread and leave the exit status, or -E_CANCELED |
| `Safety.ReferencesBalance` | Chapter_07_Threads/03_Semaphore/kernel/thread.c:353-450 | over every run: references = those before + 1 if created + joins that blocked - collected statuses - ends, counted from the events; the descriptor is there exactly as long as that is not zero |
| `Safety.EndsOnce` | Chapter_07_Threads/03_Semaphore/kernel/thread.c:363-396 | over every run a thread ends at most once |
| `Safety.WaitersFindDescriptor` | Chapter_07_Threads/03_Semaphore/kernel/thread.c:426-447 | along every run in which only threads that waited for the end of a thread collect its status, each once for each time, every one that has not collected yet still finds the descriptor |
| `Safety.EndedStaysEnded` | Chapter_07_Threads/03_Semaphore/kernel/thread.c:353-376 | over every run a freed descriptor stays freed, an ended thread stays ended, and the status it left does not change |
| `Safety.StatusIsCollected` | Chapter_07_Threads/03_Semaphore/kernel/thread.c:382-504 | however a run goes on after a thread ended by exit or cancel, whoever still finds its descriptor gets exactly the exit status, or -E_CANCELED, with or without waiting |
| `ThreadCalls.ExitLeavesStatus` | Chapter_07_Threads/03_Semaphore/kernel/thread.c:386-392 | when the next thread runs, the ended thread is passive and its descriptor, if it is left, holds the status |
| `Safety.RunsGoOn` | Chapter_07_Threads/03_Semaphore/kernel/time.c:41-45 | every run can be continued by a timer interrupt |
| `Safety.ServiceIsFifo` | Chapter_07_Threads/03_Semaphore/kernel/semaphore.c:54-97 | over every run the threads served by a semaphore or device lock, followed by those still waiting, are those that waited or arrived, in that order, without the cancelled ones; without cancel they are equal |
| `Safety.ReadyServiceIsFifo` | Chapter_07_Threads/03_Semaphore/kernel/thread.c:123-171 | over every run the threads that were ready at a priority are made active in their order and before all that became ready later, and only cancelled ones may be missing |
| `Safety.ReadyServiceIsFifoWithoutCancel` | Chapter_07_Threads/03_Semaphore/kernel/thread.c:123-171 | without cancel none is missing: the threads made active at a priority, followed by those still ready, begin with exactly those that were ready |
| `Safety.SemaphoreBalance` | Chapter_07_Threads/03_Semaphore/kernel/semaphore.c:14-97 | over every run: final value + waits = first value + posts + waits still blocked + waits cancelled (counted from the events) |
| `Counterexamples.WaitBlocksIff` | Chapter_07_Threads/03_Semaphore/kernel/semaphore.c:74-94 | a wait blocks if and only if the value is not positive, and a value below zero comes only from an initial value below zero |
| `Counterexamples.NegativeValueBlocks` | Chapter_07_Threads/03_Semaphore/kernel/semaphore.c:74-94 | a run from start-up: a semaphore made with -1, whose value is not 0, blocks its first waiter |
| `Counterexamples.ForeignUnlockFrees` | Chapter_07_Threads/03_Semaphore/kernel/devices.c:189-194 | a run from start-up after which a thread that does not hold a lock frees it and can lock it as well |
| `Counterexamples.StrangerCollects` | Chapter_07_Threads/03_Semaphore/kernel/thread.c:437-447 | a run from start-up in which a thread that never waited collects a status, and a thread that did wait finds no descriptor |
| `Counterexamples.CancelDoesNotPreempt` | Chapter_07_Threads/03_Semaphore/kernel/thread.c:490-503 | a run from start-up that ends with a cancel and a ready thread of higher priority than the active one |
| `Counterexamples.ZeroTimeForgets` | Chapter_07_Threads/03_Semaphore/kernel/time.c:139-142 | a run from start-up that ends with an alarm set to time zero and a thread that waits for it |
| `ReadyMask.Mask.Reset` | Chapter_07_Threads/03_Semaphore/kernel/thread.c:257-258 | all bits cleared |
| `ReadyMask.Mask.GetTop` | Chapter_07_Threads/03_Semaphore/kernel/thread.c:263-275 | the highest priority whose bit is set, or -1, by the loop over words and msb_index |
| `ReadyMask.Mask.SetGotReady` | Chapter_07_Threads/03_Semaphore/kernel/thread.c:278-286 | exactly the bit of the priority is added |
| `ReadyMask.Mask.ClearGotReady` | Chapter_07_Threads/03_Semaphore/kernel/thread.c:289-297 | exactly the bit of the priority is removed |
| `Lists.Lists.Append` | Chapter_07_Threads/03_Semaphore/lib/list.c:20-37 | among many lists whose objects embed one element each: appending changes exactly one of them, and all stay linked |
| `Lists.Lists.SortAdd` | Chapter_07_Threads/03_Semaphore/lib/list.c:58-103 | the same for sorted insertion |
| `Lists.Lists.RemoveFirst` | Chapter_07_Threads/03_Semaphore/lib/list.c:140-172 | the same for removal of the first object, which is then in no list |
| `Lists.Lists.Remove` | Chapter_07_Threads/03_Semaphore/lib/list.c:140-172 | the same for removal of a given object |
| `Lists.Lists.First` | Chapter_07_Threads/03_Semaphore/lib/list.c:106-121 | the first object, none exactly for an empty list |
| `ReadyList.Queues.Top` | Chapter_07_Threads/03_Semaphore/kernel/thread.c:263-275 | the bitmap gives the highest priority with a ready thread, or -1 |
| `ReadyList.Queues.AppendReady` | Chapter_07_Threads/03_Semaphore/kernel/thread.c:299-307 | the thread goes to the end of the linked ready queue and the bitmap stays exact: bit p is set if and only if ready queue p is not empty |
| `ReadyList.Queues.RemoveReady` | Chapter_07_Threads/03_Semaphore/kernel/thread.c:144-149 | the first thread leaves the linked ready queue and the bitmap stays exact |
| `ReadyList.Queues.Remove` | Chapter_07_Threads/03_Semaphore/kernel/thread.c:484-488 | a given thread leaves its linked queue, whichever it is, and the bitmap stays exact |
| `Kernel.Kernel.GetTopReady` | Chapter_07_Threads/03_Semaphore/kernel/thread.c:263-275 | the bitmap gives the largest priority with a non-empty ready queue, or -1 |
| `Kernel.Kernel.MoveToReady` | Chapter_07_Threads/03_Semaphore/kernel/thread.c:300-307 | the thread goes to the end of the ready queue of its priority, as in the value model; lists stay linked and the bitmap exact |
| `Kernel.Kernel.ScheduleThreads` | Chapter_07_Threads/03_Semaphore/kernel/thread.c:123-154 | the new state is Schedule of the old one; lists stay linked and the bitmap exact |
| `Kernel.Kernel.EnqueueThread` | Chapter_07_Threads/03_Semaphore/kernel/thread.c:180-191 | the active thread is appended to the queue; lists stay linked and the bitmap exact |
| `Kernel.Kernel.ReleaseThread` | Chapter_07_Threads/03_Semaphore/kernel/thread.c:198-214 | the first thread, if any, becomes ready, and the result says whether there was one; lists stay linked and the bitmap exact |
| `Kernel.Kernel.ReleaseAllThreads` | Chapter_07_Threads/03_Semaphore/kernel/thread.c:221-240 | the loop releases the whole queue in order and counts it; lists stay linked and the bitmap exact |
| `Kernel.Kernel.CreateThread` | Chapter_07_Threads/03_Semaphore/kernel/thread.c:71-116 | the new state is CreateThread of the old one, for any priority; lists stay linked and the bitmap exact |
| `Kernel.Kernel.RemoveThreadDescriptor` | Chapter_07_Threads/03_Semaphore/kernel/thread.c:353-361 | the descriptor and its join queue go; lists stay linked and the bitmap exact |
| `Kernel.Kernel.RemoveThread` | Chapter_07_Threads/03_Semaphore/kernel/thread.c:363-376 | the new state is RemoveThread of the old one; lists stay linked and the bitmap exact |
| `Kernel.Kernel.ThreadsInit` | Chapter_07_Threads/03_Semaphore/kernel/thread.c:27-58 | start-up leads to the state from which all runs start; lists stay linked and the bitmap exact |
| `Kernel.Kernel.SysCreateThread` | Chapter_07_Threads/03_Semaphore/kernel/thread.c:329-350 | refines the system call of the value model; lists stay linked and the bitmap exact |
| `Kernel.Kernel.SysThreadExit` | Chapter_07_Threads/03_Semaphore/kernel/thread.c:382-396 | refines the system call of the value model; lists stay linked and the bitmap exact |
| `Kernel.Kernel.SysWaitForThread` | Chapter_07_Threads/03_Semaphore/kernel/thread.c:404-450 | refines the system call of the value model; gone if there is no descriptor, the exit status if the thread has ended, not finished or blocked otherwise, as the caller wants to wait or not; lists stay linked and the bitmap exact |
| `Kernel.Kernel.SysCancelThread` | Chapter_07_Threads/03_Semaphore/kernel/thread.c:456-504 | refines the system call of the value model; fails exactly if the thread is the caller; lists stay linked and the bitmap exact |
| `Runs.InitEvent` | Chapter_07_Threads/03_Semaphore/kernel/semaphore.c:14-31 | a new semaphore has its initial value, is balanced and nobody waits for it; everything else stays in order |
| `Kernel.Kernel.SemPost` | Chapter_07_Threads/03_Semaphore/kernel/semaphore.c:54-72 | refines the system call of the value model; lists stay linked and the bitmap exact |
| `Kernel.Kernel.SemWait` | Chapter_07_Threads/03_Semaphore/kernel/semaphore.c:75-97 | refines the system call of the value model; lists stay linked and the bitmap exact |
| `Kernel.Kernel.DeviceLock` | Chapter_07_Threads/03_Semaphore/kernel/devices.c:172-186 | refines the value model up to k_schedule_threads; fails exactly if the device is locked and the caller does not wait; lists stay linked and the bitmap exact |
| `Kernel.Kernel.DeviceUnlock` | Chapter_07_Threads/03_Semaphore/kernel/devices.c:189-197 | refines the value model; lists stay linked and the bitmap exact |
| `Kernel.Kernel.ActivateFirst` | Chapter_07_Threads/03_Semaphore/kernel/time.c:64-108 | one iteration of the loop; one thread is created if the alarm has an action, and the result is the number of threads made ready; lists stay linked and the bitmap exact |
| `Kernel.Kernel.ScheduleAlarms` | Chapter_07_Threads/03_Semaphore/kernel/time.c:48-124 | the loop terminates; alarms, activations, started threads and queues as in ScheduleClock; the result is the number of threads made ready, zero if and only if no alarm that is due has an action or waiters; lists stay linked and the bitmap exact |
| `Kernel.Kernel.TimerInterrupt` | Chapter_07_Threads/03_Semaphore/kernel/time.c:41-45 | as TimerEffect: the interrupted thread goes on if nobody was made ready; lists stay linked and the bitmap exact |
| `Kernel.Kernel.AlarmAdd` | Chapter_07_Threads/03_Semaphore/kernel/time.c:130-157 | refines the value model, inserting into the linked list of alarms; lists stay linked and the bitmap exact |
| `Kernel.Kernel.AlarmNew` | Chapter_07_Threads/03_Semaphore/kernel/time.c:168-190 | as NewEffect: the alarm has exactly the data of the caller; lists stay linked and the bitmap exact |
| `Kernel.Kernel.AlarmSet` | Chapter_07_Threads/03_Semaphore/kernel/time.c:197-223 | as SetEffect: the alarm takes over exactly the data of the caller, and is taken out of the linked list if it is active; lists stay linked and the bitmap exact |
| `Kernel.Kernel.AlarmRemove` | Chapter_07_Threads/03_Semaphore/kernel/time.c:230-260 | as RemoveEffect: the alarm is taken out of the linked list if it is active, its waiters are released; lists stay linked and the bitmap exact |
| `Kernel.Kernel.Perform` | Chapter_07_Threads/03_Semaphore/kernel/thread.c:319-504 | any event that can happen takes the kernel exactly to the step of the value model, with everything in order, all lists linked, and bit p of the bitmap set if and only if ready queue p is not empty; so every theorem about runs holds of the kernel |
| `Kernel.Kernel.WaitForAlarm` | Chapter_07_Threads/03_Semaphore/kernel/time.c:374-406 | refines the value model; false exactly if the alarm is active and the caller does not wait; lists stay linked and the bitmap exact |

## Left out

- Hardware and start-up: the `arch_*` functions, context switches, interrupt registration, multiboot. The time read from the clock is a parameter of each step and the interval given to the timer a recorded output.
- Input and output: `kprint`, console, device send, receive, open and close, thread and memory listings, system information.
- `string.c`: single loops that stand alone.
- `sys__sem_destroy`: it frees the semaphore after threads it released may already wait on it again.
- `errno`, debugging marks, and the null-pointer checks at the start of system calls; handles are names of objects.
- Other allocators (GMA, best fit), user threads, monitors, messages and the other copies of the same files.
- Ids inside the thread model: thread, semaphore, device and alarm names are numbers that are not used twice, and a handle with a stale id is a name that no longer exists; the id allocator is proved on its own. Every new thread takes an id (`thread.c:90`), so with the configured 1000 ids the theorems about runs of the kernel are about runs with at most 991 new threads, those for alarms included.
- Owners of alarms: the priority of the owner is recorded when the alarm is made, and an action always starts a thread, as it does for alarms made by threads.
- Allocation of descriptors and stacks inside the kernel model: `kmalloc` always succeeds there; the allocator is proved on its own.
- Queues and lists of `Kernel.dfy` are linked lists, but a list is made when it is used first, not with the object that contains it; the list of all threads is a map from names to descriptors.
- Threads that are created without being made to run: no system call creates them (`CreateKeepsIff` covers the primitive).
- The idle thread makes no system calls and is not cancelled; clients name existing semaphores, devices and alarms and give alarms times in range and periodic ones a positive period, which the source does not check either.
- 32-bit overflow of seconds, of `sec + nsec` in `k_alarm_add`, of counters and of semaphore values; `1 << 31` on a signed int.
- FirstFit.RunKeepsWf: ends at an allocation whose size is rounded to zero while there is a free chunk, because no heap is left then.
- Kernel.Kernel.RemoveThreadDescriptor: does not give back the id, because ids are not part of the kernel model.
- Memory in `Arena.dfy` is one cell for each address, of which only those at word starts are used; overlapping writes at unaligned addresses are not represented.
- Runs.StepKeeps: history fields (posts, grants, holders, activations) are part of the state so that their balance can be stated; the kernel does not store them.
