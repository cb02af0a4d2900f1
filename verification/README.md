# Verified model of the kernel core

A Dafny model of the parts of the RT-Thread 3.1.5 kernel that the thyristor controller relies on
and that are hardest to get right: blocking inter-thread communication, three heap allocators,
timers, the scheduler and the intrusive lists below them. Operations that change state are methods
of classes with the fields of the C structures; each is proved against a function on values, and
the properties are lemmas about those functions and about whole runs.

- **Lists and words.** `Rings` (list nodes as objects, rings at computed addresses), `Words`
  (bitwise operations and find-first-set), `Cells` (memory in which headers lie among bytes).
- **Scheduler.** `ReadyQueues` (bitmaps with 32 levels and with 256), `Threads` (thread states and
  lists as one state machine), `FlatThreads` (what callers may expect of it, without queues and
  bitmap), `RoundRobin` (time slices).
- **Timers.** `SkipList` (the rows and the wrapping order), `Timers` (start, stop, the drain loop,
  whole runs), `TimerPlans` (what callers may expect of it, without rows and wrapping ticks).
- **Blocking calls.** `WaitList`, `Semaphore`, `Mutex`, `EventFlags`, `Mailbox`, `MessageStore` (the
  queue object) and `MessageQueue` (its protocol). One step is one interrupt-disabled section, and
  a blocking call is split where it calls the scheduler; steps of all threads interleave freely,
  with timeouts, resets and messages in flight. Threads are suspended and resumed inside these
  sections here. rt_thread_suspend and rt_thread_resume called from elsewhere test the thread's state
  before they disable interrupts; in `Threads` that test is a step of its own. Each object is
  measured against a history built from calls, events and answers alone: `CallHistory` has what the
  histories share.
- **Allocators.** `Tiling` (chains of blocks), `SmallMem` (mem.c on bytes), `MemPool` and `MemHeap`
  (memheap.c on values and in memory), `PageList`, `ZoneIndex` and `Slab` (slab.c), `AllocatorRuns`
  (whole runs of the first two).

Sizes and limits are those of the 32-bit board configuration in
`bsp/stm32/stm32f407-baozhuang/rtconfig.h`: alignment 4, a 12-byte block header in mem.c, a 24-byte
item in memheap.c, a 36-byte zone header in slab.c. Ticks are 32 bits wide and wrap; the 16-bit and
8-bit counters have their limits.

Places where the code does not do what one might expect are stated as lemmas, with the exact
condition and a failing input or run:

- rt_thread_resume and rt_thread_suspend act on a state they tested earlier, and a resume has two
  sections. `Threads.CoherentIffAdmitted` says exactly which runs keep queues, bitmap, wait lists and
  states coherent; `Threads.StaleResumeRun`, `Threads.StaleSuspendForgetsWaiter` and
  `Threads.OverlappingResumesRun` are runs that go wrong, and `Rings.InsertLinkedNode` says what a
  double insertion leaves of the list.
- A first-in-first-out mutex hands over without raising the new owner:
  `Mutex.UrgentIffNeverHandsPast` gives the exact condition over runs, `Mutex.FifoHandOffInverts` a
  run that violates it.
- memheap.c refuses a request that equals the available total although a block fits:
  `MemPool.AllocFailsIff` and `MemPool.RefusesLastBytes`.
- mem.c never fills its last block exactly, so a heap of n bytes refuses a request for n bytes; and
  making a block a little smaller moves it, which may fail: `SmallMem.MallocFailsIff`,
  `SmallMem.RefusesWholeHeap`, `SmallMem.ResizeFailsIff` and `SmallMem.SmallerMayFail`.
- mem.c with a heap of 4 or 8 usable bytes has a search bound that wraps: `SmallMem.SearchStopsIff`
  and `SmallMem.TinyHeapSearch`.
- slab.c promises that all allocations of a power of two bytes are aligned to their size, but aligns
  chunks only within the zone, and zones to pages:
  `Slab.ChunkAligned` gives the exact condition, `Slab.WideChunkMisaligned` a heap where it fails.
- A periodic timer whose own callback makes it one-shot ends up flagged active but unlinked:
  `Timers.TrackedIffNeverLoses` and `Timers.LosingRun`.

## Model

| member | source | states |
|---|---|---|
| `Rings.ListNode.constructor` | include/rtservice.h:47-50 | a fresh node is a ring of its own |
| `Rings.InsertAfter` | include/rtservice.h:58-65 | the node enters the ring directly behind the given node: next and prev links agree with the node sequence that has it there |
| `Rings.InsertBefore` | include/rtservice.h:73-80 | the node enters the ring directly behind the given node's predecessor |
| `Rings.BeforeHeadAppends` | include/rtservice.h:73-80 | inserting before the head of a list appends to the list |
| `Rings.RemoveNode` | include/rtservice.h:86-92 | the node leaves its ring, which stays coherent without it, and becomes a ring of its own |
| `Rings.IsEmpty` | include/rtservice.h:98-101 | true exactly when the head is alone in its ring |
| `Rings.DropUndoesInsert` | include/rtservice.h:58-92 | removing an inserted node restores the ring, wherever it was linked |
| `Rings.InsertLinkedNode` | include/rtservice.h:73-80 | inserting a node before the head of a list it is on already leaves no ring: the walk from the head comes back behind the node, the nodes that stood behind it are cut off, and prev of the node is not its predecessor |
| `Rings.RemoveLinkedTwice` | include/rtservice.h:73-92 | removing the last node after it was inserted twice leaves its predecessor pointing to it and the node to itself: the walk from the head never returns |
| `Rings.InsertRing` | src/memheap.c:209-213 | linking an item at a computed address behind another keeps both link directions inverse along the ring |
| `Rings.DropRing` | src/memheap.c:549-551 | unlinking an item at a computed address keeps both link directions inverse along what is left |
| `Cells.CopyCells` | src/kservice.c:210-280 | a copy between disjoint ranges transfers exactly the source range and changes nothing outside the target |
| `Words.FfsIsLeastBit` | src/kservice.c:1293-1337 | for every 32-bit word the table lookup yields 0 for zero and otherwise one more than the position of the least one bit |
| `Words.WordOperations` | src/scheduler.c:314-364 | and, or and and-not of words are intersection, union and difference of their bit positions; a word is zero exactly when it has none |
| `ReadyQueues.Levels.constructor` | src/scheduler.c:116-143 | all queues empty, bitmap zero, nothing locked |
| `ReadyQueues.Levels.Insert` | src/scheduler.c:284-321 | the thread goes to the back of its level's queue, and the bitmap still has exactly the bits of the nonempty queues |
| `ReadyQueues.Levels.Remove` | src/scheduler.c:330-370 | the thread leaves its level's queue, and the bitmap still has exactly the bits of the nonempty queues |
| `ReadyQueues.Levels.Rotate` | src/thread.c:484-518 | a thread that shares its level moves to the back of its queue; the bitmap stays right untouched |
| `ReadyQueues.Levels.Highest` | src/scheduler.c:202-212 | the lookup through the bitmap leads to the head of the most urgent nonempty queue |
| `ReadyQueues.Levels.Schedule` | src/scheduler.c:187-275 | while the scheduler is unlocked the head of the most urgent nonempty queue becomes current; while locked nothing changes |
| `ReadyQueues.Levels.EnterCritical` | src/scheduler.c:375-390 | the lock nest grows by one |
| `ReadyQueues.Levels.ExitCritical` | src/scheduler.c:396-421 | the nest falls by one but not below zero; leaving the outermost section chooses the most urgent thread, leaving an inner one chooses nobody |
| `ReadyQueues.WideLevels.Insert` | src/scheduler.c:314-317 | in the two-level form group bit, table byte and queue still agree after the insertion |
| `ReadyQueues.WideLevels.Remove` | src/scheduler.c:353-366 | in the two-level form group bit, table byte and queue still agree after the removal, also when a byte becomes zero |
| `ReadyQueues.WideLevels.Highest` | src/scheduler.c:204-212 | the two lookups are in range and lead to the head of the most urgent nonempty queue of all 256 |
| `Threads.ThreadTable.constructor` | src/thread.c:144-230 | all threads are in the initial state, off every list |
| `Threads.ThreadTable.TestSuspend` | src/thread.c:756-762 | the test, made with interrupts enabled: an error unless the thread is READY |
| `Threads.ThreadTable.SuspendNow` | src/thread.c:764-775 | the section, whatever state it finds: the thread leaves its list, the bit of its level goes if that queue is empty, the thread is suspended and its timer stopped; everything stays coherent |
| `Threads.ThreadTable.TestResume` | src/thread.c:799-805 | the test, made with interrupts enabled: an error unless the thread is SUSPEND |
| `Threads.ThreadTable.ResumeNow` | src/thread.c:807-816 | the first section, on a thread that is not READY: it leaves whatever list it is on and its timer is stopped; for a READY thread see ResumeSectionIff |
| `Threads.ThreadTable.InsertNow` | src/thread.c:818-819 | the second section, on a thread that is not READY, on no wait list and without an active timer: it enters the ready queue of its priority; for any other see InsertSectionIff |
| `Threads.ThreadTable.Timeout` | src/thread.c:832-854 | the handler's assertion holds for every thread whose timer is active, and the thread leaves its wait list and becomes READY with a timeout error |
| `Threads.ThreadTable.SetPriority` | src/thread.c:659-706 | a READY thread changes queue and bitmap bit together with its priority; a suspended one keeps its place on its wait list |
| `Threads.ThreadTable.YieldNow` | src/thread.c:484-518 | the current thread moves to the back of its queue if it shares it |
| `Threads.ThreadTable.Block` | src/ipc.c:80-126 | the running thread leaves the ready queue, is linked on the wait list in list order or priority order, and its timer runs if the wait is bounded |
| `Threads.ThreadTable.Schedule` | src/scheduler.c:187-275 | the current thread becomes the head of the most urgent nonempty queue |
| `Threads.SuspendSectionOk` | src/thread.c:764-775 | the section of a suspend keeps states, queues, bitmap, wait lists and timers coherent in every state it finds, and takes the thread off its wait list |
| `Threads.SuspendSectionIff` | src/thread.c:746-779 | it does what an indivisible suspend would do exactly when the thread is still READY, or is suspended without a timer and on no wait list |
| `Threads.ResumeSectionIff` | src/thread.c:807-816 | the first section of a resume keeps everything coherent exactly when the thread is not READY |
| `Threads.InsertSectionIff` | src/thread.c:818-819 | the second section keeps everything coherent exactly when the thread is not READY, is on no wait list and has no active timer |
| `Threads.CoherentIffAdmitted` | src/thread.c:746-854 | over every run, with tests and sections of all callers interleaved in every way: everything is coherent in all states exactly when every section of a resume finds what the two conditions above ask for |
| `Threads.SteadyIffTimely` | src/thread.c:789-823 | a step keeps coherence and keeps every thread between two sections idle and in one resume only exactly when a first section it runs finds its thread still SUSPEND and in nobody else's resume |
| `Threads.TimelyIsAdmitted` | src/thread.c:789-823 | runs in which every first section of a resume is timely in that sense are coherent in all states |
| `Threads.StatesMatchLists` | src/thread.c:746-854 | over every run whose sections find what they need: a thread is in a ready queue exactly when it is READY, and in the one of its current priority; wait lists hold only SUSPEND threads, each on one list; an active thread timer implies SUSPEND; the bitmap tells the nonempty queues |
| `Threads.ScheduleSelectsMostUrgent` | src/scheduler.c:187-275 | over every such run: the thread the bitmap leads to is READY, heads its queue, and no READY thread is more urgent; with nobody ready nothing changes |
| `Threads.StaleResumeLosesThread` | src/thread.c:799-816 | a resume whose thread times out between test and section leaves the thread READY on no queue, with the bit of its level set |
| `Threads.StaleResumeRun` | src/thread.c:799-816 | a run from the start that ends with a set bit over an empty queue |
| `Threads.StaleSuspendForgetsWaiter` | src/thread.c:756-775 | a suspend whose thread blocks between test and section takes it off its wait list and stops its timer |
| `Threads.OverlappingResumesLinkTwice` | src/thread.c:789-823 | two resumes of one suspended thread that overlap insert it in its ready queue twice, from every coherent state |
| `Threads.OverlappingResumesRun` | src/thread.c:291-323 | such a run from the start |
| `Threads.HarmlessOverlap` | src/thread.c:746-823 | an overlap with a suspend between the insertions leaves everything coherent |
| `FlatThreads.KernelFollowsFlat` | src/thread.c:291-854 | over every run whose sections find what they need: states, priorities, timers, errors, wait lists and the running thread are those of a flat account without queues and bitmap, which runs the most urgent ready thread and among equals the one longest at its level; every ready queue is in order of arrival |
| `RoundRobin.Clock.Increase` | src/clock.c:67-89 | the tick wraps at 2^32, the running thread loses one tick, and on its last one it gets a full slice, yields and the scheduler chooses |
| `RoundRobin.Clock.YieldNow` | src/thread.c:484-518 | yield followed by the scheduler's choice |
| `RoundRobin.OneRound` | src/clock.c:67-89 | the threads of the most urgent level each run what is left of their slice once, in queue order; then queue and current thread are as before, and every slice is full |
| `RoundRobin.RoundRobinForever` | src/clock.c:67-89 | from full slices any number of rounds repeats the same sequence of slices, so between two turns of one thread every other has exactly one |
| `RoundRobin.ShareOfRound` | src/clock.c:67-89 | in one round a thread of the level gets exactly its init_tick ticks, and no other thread gets any |
| `RoundRobin.ZeroSliceLasts` | src/clock.c:77-80 | a slice of 0 is decremented before it is tested and so lasts 2^32 ticks |
| `SkipList.PassedIffNotLater` | src/timer.c:374-381 | within a window narrower than half the tick range the wrapping comparison decides by expiry time, ties included |
| `SkipList.DescentIsLinear` | src/timer.c:357-406 | for any number of rows the descent from row to row finds, in every row, the place a linear search of that row finds |
| `SkipList.InsertionPoint` | src/timer.c:357-395 | the place found is behind exactly those timers that expire no later, so equal timeouts keep start order |
| `SkipList.InsertNested` | src/timer.c:357-406 | inserting at these places in a row and the row below, or in the row below only, keeps the upper row a subsequence of the lower |
| `SkipList.InsertKeepsSkip` | src/timer.c:357-406 | a start keeps every row sorted and every upper row a subsequence of the row below, for any height |
| `SkipList.RemoveKeepsSkip` | src/timer.c:136-144 | a removal keeps every row sorted and every upper row a subsequence of the row below |
| `SkipList.HeightIff` | src/timer.c:391-413 | a timer enters more than k rows exactly if 4 to the power k divides its start counter, so every row gets a quarter of the timers of the row below |
| `SkipList.TickKeepsSkip` | src/clock.c:67-89 | the order of the rows survives the next tick when nothing was due, including the wrap of the tick |
| `Timers.TimerList.constructor` | src/timer.c:728-736 | empty rows and inactive timers |
| `Timers.TimerList.FindPlaces` | src/timer.c:357-385 | the row by row search computes the descent places |
| `Timers.TimerList.Start` | src/timer.c:315-428 | an active timer is taken off first, then the timer enters the rows at the linear places with its timeout tick, and is active; the skip list stays coherent |
| `Timers.TimerList.Stop` | src/timer.c:438-462 | called inside a section, as from a callback: an inactive timer gives an error and nothing changes; an active one leaves every row and is inactive |
| `Timers.TimerList.TestStop` | src/timer.c:446-447 | the test, made with interrupts enabled: an error unless the timer is activated |
| `Timers.TimerList.StopNow` | src/timer.c:451-459 | the section, whatever has become of the timer since the test: it does what an indivisible stop would do |
| `Timers.LateStopIsStop` | src/timer.c:446-459 | between checks the section alone equals test and section together, so the early test does no harm |
| `Timers.TimerList.Perform` | src/timer.c:474-520 | start, stop, set-time, one-shot and periodic commands, each keeping the invariant |
| `Timers.TimerList.RemoveRows` | src/timer.c:136-144 | the timer leaves every row |
| `Timers.TimerList.Check` | src/timer.c:529-596 | the drain loop ends and leaves the state in which every expired timer has fired, in order |
| `Timers.TimerList.FireOne` | src/timer.c:547-588 | one round: the first timer leaves the rows, its callback runs, and it is started again if it is periodic, still active and was neither stopped nor restarted |
| `Timers.TimerList.TickIncrease` | src/clock.c:67-89 | a tick followed by a check leads from a rest state to a rest state one tick later |
| `Timers.FireInv` | src/timer.c:545-590 | each round of the drain loop keeps the invariant and strictly shrinks the set of due timers, whatever the callback does to timers |
| `Timers.ExpiredIffDue` | src/timer.c:547-554 | the head of the list tests expired exactly when it is due at this tick |
| `Timers.DrainLeavesNoneExpired` | src/timer.c:529-596 | after a check no active timer is expired |
| `Timers.FiringsOnTimeInOrder` | src/timer.c:529-596 | over every run: every firing happens at its due tick, firings of one tick follow start order, and no expired timer is left linked |
| `Timers.FiresExactly` | src/timer.c:529-596 | a linked timer that nobody touches fires exactly at its due tick and, if periodic, at every further period, and at no other time |
| `Timers.StartSetsDue` | src/timer.c:315-428 | a start makes the timer due its duration after the current tick |
| `Timers.StartedTimerFires` | src/timer.c:315-596 | a timer started at tick s with duration d fires exactly when the tick becomes s + d, a periodic one at every s + k * d |
| `TimerPlans.TimersFollowPlans` | src/timer.c:315-596 | over every run of ticks, callbacks and calls the timer list does what a plain map of plans says: a start plans the duration set last, a stop and a firing drop the plan, a timer that was and is periodic and was neither started nor stopped by its callback is planned again, and due timers fire in start order |
| `TimerPlans.DoRefines` | src/timer.c:315-520 | each command changes the plan of its timer as asked: a set time is the duration of the next start and moves nothing that is planned |
| `TimerPlans.FireRefines` | src/timer.c:545-590 | each round of the drain loop is the firing of the planned timer that is next |
| `TimerPlans.HeightOfStart` | src/timer.c:387-413 | over every run, below the wrap, the n-th start enters more than k rows exactly if 4 to the power k divides n |
| `Timers.FiringTrackedIff` | src/timer.c:554-588 | a round keeps 'activated means linked' if and only if it is not the firing of a periodic timer whose callback holds no start and no stop of it and sets it to one-shot last |
| `Timers.TrackedIffNeverLoses` | src/timer.c:315-596 | over every run, between the rounds of every check too: activated timers are linked in all states if and only if no firing is of that kind |
| `Timers.LosingRun` | src/timer.c:554-588 | a run of a started periodic timer that ends activated, not linked and never to fire |
| `WaitList.SuspendOn` | src/ipc.c:80-126 | the walk links a thread at the back, or before the first less urgent waiter |
| `WaitList.EnqueueSorted` | src/ipc.c:97-121 | priority order is kept, and the newcomer stands behind exactly the waiters that are at least as urgent |
| `WaitList.EnqueueInOrder` | src/ipc.c:80-126 | a list in order of service (by arrival, or by priority and then arrival) is in that order again after a thread was suspended on it |
| `Semaphore.SemaphoreObject.constructor` | src/ipc.c:202-223 | the given value and no waiters |
| `Semaphore.SemaphoreObject.Take` | src/ipc.c:327-412 | takes a token, refuses, or suspends the caller on the list, as the value and the timeout say |
| `Semaphore.SemaphoreObject.Release` | src/ipc.c:436-484 | hands the token to the first waiter without touching the value, or raises the value, or reports the full counter |
| `Semaphore.SemaphoreObject.Reset` | src/ipc.c:496-528 | wakes every waiter and sets the value, truncated to 16 bits |
| `Semaphore.TokensConserved` | src/ipc.c:327-528 | over every run, since the last init or reset: value set then plus successful releases equals value plus grants, counted from events and answers; a waiter implies value 0 |
| `Semaphore.TakesAnswered` | src/ipc.c:327-528 | over every run a take returns success exactly when it was granted one token; otherwise it was granted none and was hit by a reset, or by a timeout it had asked for, or had asked not to wait; a take without a time limit waits on; the list is in order of service |
| `Semaphore.TakeAtOnceIff` | src/ipc.c:327-412 | after any run a take succeeds at once exactly while tokens are left; otherwise time 0 fails and every other time, a negative one too, waits |
| `Semaphore.ReleaseServesFirst` | src/ipc.c:436-484 | after any run a release wakes the waiting thread to be served first; with nobody waiting it adds a token, and fails exactly when 65535 are there |
| `Semaphore.WokenTakeReturns` | src/ipc.c:396-411 | a woken thread that runs returns from its take: with success if it was granted a token, otherwise with what hit it |
| `Semaphore.WaitEndsOnce` | src/ipc.c:361-484 | over every run from a suspension until the thread runs again: it waits up to some event, which ends the wait by exactly one of grant, timeout or reset and takes it off the list; a grant pairs with one release, a timeout consumes no token; from then on what the take will return stays the same |
| `Mutex.MutexObject.constructor` | src/ipc.c:543-563 | free, unheld, nobody waiting |
| `Mutex.MutexObject.Take` | src/ipc.c:667-812 | recursive hold, acquisition with the priority saved, refusal, full hold counter, or suspension with the owner's priority raised to the taker's |
| `Mutex.MutexObject.Release` | src/ipc.c:823-930 | only the owner may release; the last release restores the saved priority and hands the mutex to the first waiter or frees it |
| `Mutex.NoPriorityInversion` | src/ipc.c:667-930 | over every run of a priority-ordered mutex: value 0 exactly while owned, hold positive exactly while owned, waiters imply an owner, the list is sorted, and the owner is at least as urgent as every waiter |
| `Mutex.HandOffUrgentIff` | src/ipc.c:874-905 | after a hand-off the new owner is at least as urgent as all waiters if and only if the head of the list was |
| `Mutex.StepUrgentIff` | src/ipc.c:667-930 | for either list order and every event: the owner stays at least as urgent as every waiter if and only if the event is not the owner's last release with some waiter strictly more urgent than the first |
| `Mutex.UrgentIffNeverHandsPast` | src/ipc.c:667-930 | over every run of a mutex of either order the promise holds in all states if and only if no last release passes over a more urgent waiter |
| `Mutex.FifoHandOffInverts` | src/ipc.c:874-905 | a run of a first-in-first-out mutex after which the owner is less urgent than a waiter |
| `Mutex.PriorityRestored` | src/ipc.c:860-870 | after every run a thread that does not own the mutex has the priority it started with, and the last release gives an owner that priority back |
| `Mutex.PriorityAsSet` | src/ipc.c:667-930 | after every run a thread has the priority last set for it from outside or the one it started with; while it owns the mutex that one is saved |
| `Mutex.OwnerReplacedOnlyByHandOff` | src/ipc.c:855-905 | an owner is replaced only by its own last release, and then by the head of the list: no barging |
| `Mutex.WokenTakerOwns` | src/ipc.c:781-800 | a woken take returns success exactly when its thread has become the owner |
| `Mutex.HoldsAreTakesMinusReleases` | src/ipc.c:667-930 | over every run, counted from events and answers: hold is the owner's successful takes, a hand-off counting as one, minus its releases since it became owner, and the owner runs at exactly the most urgent of its own priority and those of the threads that asked since |
| `Mutex.OwnerUntilLastRelease` | src/ipc.c:667-930 | an owner that took n times stays owner until its n-th release |
| `Mutex.TakeAtOnceIff` | src/ipc.c:667-812 | after any run a take succeeds at once exactly if nobody holds the mutex or the taker holds it less than 255 times; at 255 it is full; with another owner time 0 fails and every other time waits |
| `Mutex.ReleaseServesFirst` | src/ipc.c:823-930 | after any run only the owner's release has an effect, and its last one gives the mutex to the waiting thread to be served first, or frees it |
| `Mutex.TakesAnswered` | src/ipc.c:667-930 | over every run each take is answered by its own history, and the list is in order of service |
| `Mutex.WokenTakeReturns` | src/ipc.c:781-812 | a woken thread that runs returns from its take: with success if it was handed the mutex, otherwise with the timeout |
| `EventFlags.EventObject.Send` | src/ipc.c:1078-1167 | sets the bits and walks the list, waking each waiter whose condition holds at that moment |
| `EventFlags.EventObject.Receive` | src/ipc.c:1183-1302 | returns the requested bits that are set, clearing them if asked, or refuses, or records the request and suspends |
| `EventFlags.EventObject.Satisfies` | src/ipc.c:1214-1224 | the AND and OR conditions of a receive |
| `EventFlags.EventObject.Reset` | src/ipc.c:1314-1342 | clears the word and wakes everybody |
| `EventFlags.SendIsReceives` | src/ipc.c:1078-1302 | a send equals an immediate receive by each waiter in list order: same word, same received bits, same woken threads |
| `EventFlags.SendConservesBits` | src/ipc.c:1099-1157 | over one send every bit ends up in exactly one place: still in the word, or with exactly one receiver that clears |
| `EventFlags.NobodySleepsOnItsBits` | src/ipc.c:1078-1302 | in every reachable state a suspended AND request lacks some of its bits and a suspended OR request lacks them all, and every answer returned fits its request |
| `EventFlags.HandedBitsKept` | src/ipc.c:1292-1296 | the bits a woken thread was handed stay its own until it runs |
| `EventFlags.ReceiveAtOnceIff` | src/ipc.c:1183-1302 | after any run a receive of some bits succeeds at once if and only if all (AND) or some (OR alone) of them have been sent and not taken since; it gets those that are there, and they go exactly if it clears; otherwise time 0 fails and every other time waits |
| `EventFlags.ReceivesAnswered` | src/ipc.c:1078-1342 | over every run the word holds exactly the bits sent since they were last taken by a clearing receiver or reset; each receive is answered by its own history; the list is in order of service |
| `EventFlags.SendMissesNoBit` | src/ipc.c:1078-1167 | each thread a send wakes gets all bits of an AND request or some of an OR request, only requested ones, and every requested bit that is still there afterwards |
| `EventFlags.WokenReceiveReturns` | src/ipc.c:1280-1302 | a woken thread that runs returns from its receive with the bits it was handed or with what hit it |
| `Mailbox.MailboxObject.constructor` | src/ipc.c:1359-1387 | an empty ring of the given size |
| `Mailbox.MailboxObject.Send` | src/ipc.c:1507-1635 | one pass: a mail goes behind the last one and the first receiver is woken, or the call is refused, or the sender suspends |
| `Mailbox.MailboxObject.Receive` | src/ipc.c:1664-1792 | one pass: the first mail comes out and the first sender is woken, or the call is refused, or the receiver suspends |
| `Mailbox.MailboxObject.Reset` | src/ipc.c:1804-1836 | an empty ring, everybody woken |
| `Mailbox.NobodyForgotten` | src/ipc.c:1507-1836 | over every run: while a receiver is suspended, mails never outnumber woken receivers that have not run; symmetrically for senders and free slots |
| `Mailbox.QuietMeansBlocked` | src/ipc.c:1507-1836 | once no woken thread is left, a suspended receiver means an empty box and a suspended sender a full one |
| `Mailbox.FirstInFirstOut` | src/ipc.c:1507-1836 | over every run the mails that accepted calls carried are those that answers returned followed by those in the box, in order |
| `Mailbox.CallsAnswered` | src/ipc.c:1507-1836 | over every run each call succeeded exactly when it moved one mail; otherwise it moved none and was hit by a reset, or by a timeout it had asked for, or had used up its time over all its waits; both lists are in order of service |
| `Mailbox.CallsAtOnceIff` | src/ipc.c:1507-1792 | after any run a send is accepted at once exactly while fewer mails than the size are under way, a receive gets the oldest exactly while some are; otherwise time 0 fails and every other time waits; a post never waits |
| `Mailbox.WokenCallGoesOn` | src/ipc.c:1531-1792 | a woken thread that runs returns with what hit its call; if nothing did, its call goes on like a new one that has the rest of its time |
| `MessageStore.Queue.constructor` | src/ipc.c:1859-1909 | every node is on the free list, linked through next |
| `MessageStore.Queue.TakeFree` | src/ipc.c:2157-2158 | the head of the free list leaves it |
| `MessageStore.Queue.LinkTail` | src/ipc.c:2168-2211 | the node becomes the last message, the entry count grows and the first receiver is woken; a saturated count leaves the node linked and wakes nobody |
| `MessageStore.Queue.LinkHead` | src/ipc.c:2280-2319 | the node becomes the first message, likewise |
| `MessageStore.Queue.PopHead` | src/ipc.c:2433-2446 | the first message leaves the queue, and the tail is cleared when it was the last |
| `MessageStore.Queue.ReturnNode` | src/ipc.c:2454-2481 | the node goes to the head of the free list and the first sender is woken |
| `MessageStore.Queue.ResetAll` | src/ipc.c:2494-2542 | everybody is woken and every message goes to the free list |
| `MessageStore.TakeUndoesPutBack` | src/ipc.c:2456-2458 | the node returned last is the next one taken |
| `MessageStore.ReleasedInReverse` | src/ipc.c:2513-2526 | a reset puts the nodes of the messages in front of the free ones, in reverse order |
| `MessageQueue.EveryNodeInOnePlace` | src/ipc.c:2053-2542 | over every interleaving each node is in exactly one of free list, queue and one thread's hands |
| `MessageQueue.PoolCovered` | src/ipc.c:2053-2542 | free list, queue and hands together are the whole pool |
| `MessageQueue.NobodyForgotten` | src/ipc.c:2053-2542 | over every run: while a receiver is suspended, messages never outnumber woken receivers; symmetrically for senders and free nodes |
| `MessageQueue.LinkAlwaysSucceeds` | src/ipc.c:2183-2192 | the saturation branch of the entry counter is never taken |
| `MessageQueue.QueueHoldsDeque` | src/ipc.c:2053-2542 | over every run the queued nodes hold, in order, the messages of a deque on which every linked send has pushed the buffer its call was given at the back, every urgent one at the front, and from which every receive that got a node has popped the front |
| `MessageQueue.CallsAnswered` | src/ipc.c:2053-2542 | over every run: a send succeeded exactly when its message was linked once; a receive returned min(size asked, msg_size) bytes, those of the message it took from the front as far as that reaches; a failed call moved nothing and was too long, hit by a reset or by a timeout it had asked for, or had used up its time; both lists are in order of service |
| `MessageQueue.CallsAtOnceIff` | src/ipc.c:2053-2481 | after any run a send or urgent of a proper length gets a node at once exactly while queued messages and messages being copied are fewer than the pool; a receive exactly if messages are queued; otherwise urgent and time 0 fail and every other time waits |
| `MessageQueue.WokenCallGoesOn` | src/ipc.c:2090-2431 | a woken thread that runs returns with what hit its call; if nothing did, its call goes on like a new one that has the rest of its time |
| `MessageQueue.HoldersAdvance` | src/ipc.c:2157-2481 | a thread that holds a node is never stuck: every step brings its call one phase further, for messages of every size |
| `SmallMem.Heap.constructor` | src/mem.c:204-258 | one free block behind its header, the sentinel, lfree at the block |
| `SmallMem.Heap.Malloc` | src/mem.c:272-410 | returns the first fit, splits or takes it whole, moves lfree to the lowest free block, counts used_mem and its peak max_mem; NULL changes nothing; no other live payload byte changes |
| `SmallMem.Heap.Search` | src/mem.c:303-319 | the walk from lfree ends at the lowest block of the whole chain that fits |
| `SmallMem.Heap.PlugHoles` | src/mem.c:156-194 | a freed block is merged with the free block behind it and the free block before it |
| `SmallMem.Heap.Free` | src/mem.c:552-615 | releases the block, merges, updates lfree and used_mem; no other live payload byte changes |
| `SmallMem.Heap.Realloc` | src/mem.c:421-516 | result, chain and bytes on every branch: the first min(old, new) bytes survive, other live blocks keep theirs, and NULL for a non-zero size changes nothing |
| `SmallMem.FirstFitFromLowestFree` | src/mem.c:303-319 | scanning from lfree finds the same block as scanning from offset 0 |
| `SmallMem.MallocAddress` | src/mem.c:272-410 | a returned pointer is aligned and has its room inside the heap |
| `SmallMem.MallocGrants` | src/mem.c:272-410 | the returned block was not live before, is live afterwards, and has room for the request |
| `SmallMem.LiveThroughMalloc` | src/mem.c:272-410 | a live block is the same live block after a malloc |
| `SmallMem.MallocServes` | src/mem.c:272-410 | NULL changes nothing; any other result is an aligned pointer that was not live and now is, with at least the bytes asked for and less than 24 more than their rounded number, and no other allocation appears, moves, changes or goes |
| `SmallMem.MallocCutsIff` | src/mem.c:312-365 | the block taken is cut, and the rest is free, exactly if a header and 12 bytes are left over |
| `SmallMem.MallocFailsIff` | src/mem.c:272-410 | NULL exactly for a request of nothing, or when no free block has room apart from a last one that would be filled exactly: the search bound is one short |
| `SmallMem.RefusesWholeHeap` | src/mem.c:305-307 | a fresh heap of 12 bytes refuses a request for 12 |
| `SmallMem.FreeEnds` | src/mem.c:552-615 | a free ends exactly the allocation it is given |
| `SmallMem.ResizeServes` | src/mem.c:421-516 | a realloc that returns NULL changes nothing; any other leaves one allocation in place of the old one, with room for the new size, of exactly that size if it stays, and changes no other |
| `SmallMem.ResizeFailsIff` | src/mem.c:457-516 | a realloc fails exactly when the size differs, at most 24 bytes would be given back, and a malloc of the size fails |
| `SmallMem.SmallerMayFail` | src/mem.c:465-516 | so a block of 28 bytes that is the whole heap cannot be made 24 bytes long |
| `SmallMem.SearchStopsIff` | src/mem.c:305-307 | the search bound, computed in 32 bits, stays at or below the end sentinel for every accepted request exactly when mem_size_aligned is 0 or at least one minimal block |
| `SmallMem.TinyHeapSearch` | src/mem.c:303-319 | on a fresh heap of 4 or 8 bytes the search of an accepted request goes round at the end sentinel with the loop condition true in every round |
| `SmallMem.FitIndex` | src/mem.c:305-319 | the lowest free block below the strict bound that has the room, or none |
| `SmallMem.FreeUndoesMalloc` | src/mem.c:272-615 | freeing what malloc returned restores the chain, hence lfree and used_mem |
| `SmallMem.LiveDisjoint` | src/mem.c:272-615 | live allocations never share a byte and lie inside the heap |
| `AllocatorRuns.SmallCoherent` | src/mem.c:156-615 | for the sizes whose searches end, over every run of malloc, realloc and free: the blocks tile the heap without two free neighbours, live allocations are disjoint, and a heap with nothing live is the initial single free block |
| `AllocatorRuns.SmallHoldsGrants` | src/mem.c:272-615 | over every run of malloc, realloc and free the allocations that exist are exactly those returned and not given up since, each with at least the room asked for |
| `MemHeap.Heap.constructor` | src/memheap.c:50-121 | both rings over one free block and the tailer; the pool size is rounded down |
| `MemHeap.Heap.Search` | src/memheap.c:169-180 | the walk of the free ring ends at the first block with room, or at the list header |
| `MemHeap.Heap.Alloc` | src/memheap.c:138-281 | splits or takes the first fit; both rings stay coherent, the counters match, no live payload byte changes |
| `MemHeap.Heap.Free` | src/memheap.c:495-595 | merges with both neighbours, keeps both rings coherent and the counters right, spares every other payload |
| `MemHeap.Heap.Realloc` | src/memheap.c:284-492 | every branch: grow into the free successor, move, shrink or stay; the first min(old, new) bytes survive, other live blocks keep theirs, NULL for a non-zero size changes nothing |
| `MemPool.AllocOk` | src/memheap.c:138-281 | an allocation keeps the tiling, no two free neighbours, the free list holding exactly the free blocks once each, available_size the sum of their room, and max_used_size at least what is used |
| `MemPool.AllocFailsIff` | src/memheap.c:155-178 | NULL although some free block fits exactly when the request equals available_size, because the entry test is strict; NULL when none fits |
| `MemPool.RefusesLastBytes` | src/memheap.c:155 | a fresh pool of 60 bytes has 12 available in one free block of 12 and refuses a request for 12 |
| `MemPool.AllocGrants` | src/memheap.c:138-281 | the granted block was free, is aligned, has the room and becomes used |
| `MemPool.FreeOk` | src/memheap.c:495-595 | a free keeps the same invariant on all four neighbour cases |
| `MemPool.FreeUndoesAlloc` | src/memheap.c:138-595 | freeing an allocation restores the blocks and available_size, with the block first on the free list |
| `MemPool.ResizeOk` | src/memheap.c:284-492 | a realloc keeps the invariant on every branch, and a NULL result changes nothing |
| `MemPool.AllocServes` | src/memheap.c:138-281 | NULL changes nothing; any other result is an aligned pointer that was not live and now is, with the room asked for and less than 36 bytes more, max_used_size is the peak, and no other allocation appears, moves, changes or goes |
| `MemPool.AllocFirstFit` | src/memheap.c:168-262 | the block granted is the first on the free list with room; it is cut exactly if a header and 12 bytes are left over, and the rest then heads the free list |
| `MemPool.FreeEnds` | src/memheap.c:495-595 | a free ends exactly the allocation it is given |
| `MemPool.ResizeServes` | src/memheap.c:284-492 | a realloc that returns NULL changes nothing; any other leaves one allocation in place of the old one, with room for the new size and at most 36 bytes more, and changes no other |
| `MemPool.ResizeFailsIff` | src/memheap.c:318-415 | NULL exactly when the block is too short, cannot spread into a free block behind it, and no free block has room or the request equals all that is available |
| `MemPool.ResizeStaysIff` | src/memheap.c:318-420 | the pointer stays exactly when the block is long enough or can spread |
| `AllocatorRuns.PoolCoherent` | src/memheap.c:50-595 | over every run the pool is coherent, live allocations are disjoint, and a pool with nothing live has the initial blocks and available_size |
| `AllocatorRuns.PoolHoldsGrants` | src/memheap.c:138-595 | over every run of alloc, realloc and free the allocations that exist are exactly those returned and not given up since, each with at least the room asked for |
| `PageList.Pages.constructor` | src/slab.c:327-334 | one free run of all pages |
| `PageList.Pages.Alloc` | src/slab.c:236-270 | the first run with enough pages is split or unlinked |
| `PageList.Pages.Free` | src/slab.c:272-322 | the run is linked at its place and merged with the runs it touches |
| `PageList.TakenOk` | src/slab.c:236-270 | an allocation keeps the list ascending with gaps, takes exactly the granted pages, and counts |
| `PageList.FirstFitIsLowest` | src/slab.c:236-270 | the granted pages are the lowest that many consecutive free pages; failure means there are none |
| `PageList.ReturnedOk` | src/slab.c:272-322 | a free keeps the list ascending with gaps and adds exactly the returned pages |
| `PageList.Canonical` | src/slab.c:236-322 | two fully merged lists of the same pages are equal |
| `PageList.FreeUndoesAlloc` | src/slab.c:236-322 | freeing a just allocated run restores the list |
| `PageList.PagesConserved` | src/slab.c:236-322 | over every run: gaps between entries, allocated and free runs disjoint, page counts sum to the initial total |
| `ZoneIndex.Lookup` | src/slab.c:401-459 | the bands of zoneindex compute class and rounded size; sizes beyond the last band give class 0 and stay as they are |
| `ZoneIndex.ClassFits` | src/slab.c:401-459 | in every band the smallest class whose chunk holds the request; in range; less than an eighth wasted from 128 bytes on |
| `ZoneIndex.ClassIffChunk` | src/slab.c:401-459 | class and chunk size determine each other across all bands |
| `ZoneIndex.ChunkStable` | src/slab.c:716-725 | rounding a chunk size again changes neither size nor class |
| `Slab.ChooseZonePages` | src/slab.c:374-383 | the loop picks the zone size 32K, 64K or 128K by the size of the heap |
| `Slab.ThreeChunks` | src/slab.c:628-643 | a new zone has at least three chunks, which fit behind its header |
| `Slab.SlabHeap.constructor` | src/slab.c:344-395 | zone size chosen, memusage table taken from the page list, every list empty |
| `Slab.SlabHeap.Malloc` | src/slab.c:478-667 | large requests from the page list, small ones from the first zone of the class, a spare zone or a new zone; the invariant holds |
| `Slab.SlabHeap.Free` | src/slab.c:771-904 | the page type of the pointer leads to its zone or run; the chunk goes back, a wholly free zone is retired and possibly released; the invariant holds |
| `Slab.SlabHeap.Realloc` | src/slab.c:678-735 | same chunk size returns the pointer, otherwise allocate and free; the invariant holds |
| `Slab.MallocOk` | src/slab.c:478-667 | the invariant holds, and on success exactly one pointer becomes live, one that was not live before |
| `Slab.MallocRoom` | src/slab.c:478-667 | the granted allocation has room for the request, and no other allocation moves or changes size |
| `Slab.MallocFailsIff` | src/slab.c:478-667 | NULL exactly when neither a zone of the class, nor a spare zone, nor enough consecutive free pages can serve the request |
| `Slab.FreeOk` | src/slab.c:771-904 | the invariant holds, and exactly the freed pointer stops being live |
| `Slab.FreeStays` | src/slab.c:771-904 | a free moves and resizes no other allocation |
| `Slab.ReallocOk` | src/slab.c:678-735 | failure with a non-zero size changes nothing; success leaves exactly the returned pointer live instead of the old one, with room for the request |
| `Slab.CopyFits` | src/slab.c:697-728 | the bytes a realloc copies lie inside both allocations, which do not overlap |
| `Slab.LiveApart` | src/slab.c:478-904 | live allocations never overlap |
| `Slab.ChunkAligned` | src/slab.c:583-645 | every chunk is aligned to 8 bytes, and a chunk of a power of two bytes to its size within its zone; in memory exactly if the zone is, which is so up to the page size |
| `Slab.WideChunkMisaligned` | src/slab.c:152-153 | a heap whose first chunk of 8192 bytes lies at address 12288 |
| `Slab.LookupFindsZone` | src/slab.c:803-830 | the page of a live chunk says how far back its zone starts |
| `Slab.SlabCoherent` | src/slab.c:344-904 | over every run: z_nfree is the count of never used plus listed chunks, zone_array[i] holds exactly the zones of class i with a free chunk, at most two zones are spare, and live allocations never overlap |
| `Slab.PagesAccounted` | src/slab.c:236-904 | over every run no page is lost: each page behind the memusage table is on the page list or in exactly one run that a zone, a spare zone or a live large allocation has, and no other page is |
| `Slab.UsageTellsTheRuns` | src/slab.c:478-904 | over every run memusage tells the runs taken and nothing else: zone pages say how far back their zone starts, the first page of a large allocation how long it is, and no entry is left over from a run given back |
| `Slab.FreedPagesAgain` | src/slab.c:799-820 | after a large allocation was freed all its pages are on the page list, and its size can be allocated again |
| `Slab.FreedChunkAgain` | src/slab.c:822-904 | after a chunk was freed a request of its class can be served again |
| `Slab.FreeRetiresIff` | src/slab.c:845-904 | a zone is retired exactly when its last live chunk is freed and another zone of the class has a free chunk; it becomes spare, or with two spare ones its pages go back |
| `Slab.MallocUndoesFree` | src/slab.c:478-904 | a chunk freed in a zone that was full is the next one granted in its class, and granting it restores the heap |
| `Slab.MallocExact` | src/slab.c:478-667 | a small request gets a chunk of its class, a large one the least number of pages that hold it |
| `Slab.MallocPrefers` | src/slab.c:538-613 | a small request is served from a zone of its class, else from the first spare zone, and takes pages only if there is neither |
| `Slab.ReallocStaysIff` | src/slab.c:678-735 | the pointer stays exactly for a chunk whose size the new size is rounded to |
| `Slab.ReallocFailsIff` | src/slab.c:678-735 | any other realloc fails exactly if a malloc of the rounded size does |

## Left out

- SmallMem.Heap.constructor: takes mem_size_aligned; rounding the begin and end addresses and
  refusing a range that is too small are not modelled. The heap has mem_size_aligned 0 or at least
  12, the sizes for which `SmallMem.SearchStopsIff` shows the search to stop.
- SmallMem.Heap.Free: the back link of the end sentinel is left open, because the code does not
  maintain it; every real block's back link is exact.
- AllocatorRuns.SmallCoherent: heaps of 0 or at least 12 bytes, for the same reason; likewise
  `AllocatorRuns.SmallHoldsGrants`.
- SmallMem.Heap.Malloc: sizes whose alignment would wrap in 32 bits are excluded.
- MemHeap.Heap.constructor: the pool holds at least two item headers, as its arithmetic needs.
- MemHeap.Heap.Alloc: one pool; the system heap built from several pools and the wrap of huge sizes
  are not modelled. The links of an item are map entries keyed by its address, and every store to
  an item destroys the bytes under its header.
- MemHeap.Heap.Realloc: runs as one step; the allocation and the free of its moving branch lock
  separately in the code. The same holds for SmallMem.Heap.Realloc and the slab allocator, whose
  heap semaphore is not modelled.
- Slab.SlabHeap.Malloc: the z_next chains of zones and chunks are sequences, pointers are named by
  zone and chunk number, and memory statistics are not modelled.
- Slab.SlabHeap.Realloc: the copied bytes are not modelled; `Slab.CopyFits` says where they lie.
- Slab.SlabHeap.Free: freeing a pointer that is not live is a caller's error.
- Timers.TimerList.Perform: durations lie in 1 .. 0x7FFFFFFE, rt_tick_set is not used, and a
  callback does nothing to timers but start, stop, set-time and mode changes.
- Timers.TimerList.Check: the callbacks of all timers of one check are known beforehand, and the
  row links are sequences.
- Threads.ThreadTable.ResumeNow: and `Threads.ThreadTable.InsertNow`: the object covers the states
  in which the sections keep it coherent; what they do in the others is said on values, where a
  second insertion appends to a sequence and `Rings.InsertLinkedNode` gives the links.
- Threads.ThreadTable.Block: the running thread suspends itself. Thread lists are sequences.
- Threads.ThreadTable.constructor: two callers starting the same thread at once are not modelled.
- ReadyQueues.Levels.Schedule: chooses the thread; the context switch, stack checks and hooks are
  not modelled. Some thread is ready, as the idle thread always is.
- RoundRobin.Clock.Increase: without the timer check, which `Timers.TimerList.TickIncrease` models.
- EventFlags.EventObject.Receive: an option without AND and OR, which the code asserts against, is
  excluded. The event word is the set of its bit positions; `Words.WordOperations` connects the two.
- Mutex.NoPriorityInversion: for the priority-ordered mutex, one mutex held per thread, and no
  priority change of a waiting thread or of the owner from outside while it is boosted.
- Mutex.PriorityRestored: for threads whose priority nobody changes from outside.
- MessageQueue.NobodyForgotten: message counts up to 65535, which is all that max_msgs, a 16-bit
  field, can hold.
- Threads.StatesMatchLists: priorities below 32, and runs that meet the condition of
  `Threads.CoherentIffAdmitted`.
- FlatThreads.KernelFollowsFlat: the same runs; the order within a wait list is that of
  `WaitList.Enqueue`, which `WaitList.EnqueueInOrder` describes.
- Slab.PagesAccounted: heaps whose memusage table fits into them.
- Detaching and deleting objects and threads, idle reaping, signals, the soft-timer thread, memory
  pools, devices, the object registry, hooks, logs, memory tracing and shell commands.
- The rest of kservice.c: formatting, strings and console output.
