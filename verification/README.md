# Verification of sgx-elps

This project models the parts of sgx-elps whose correctness is hardest to see, and proves what they promise: the lock-free
request queue between enclave and swapper, the in-enclave scheduler with its futexes and blocking requests, the four memory
allocators, the Redis reply parser and command writers of the load generator, its CSV dump, its request accounting and key
slots, and the file layout of the ELF writer. `dafny verify dfyconfig.toml` checks the whole project; nothing is assumed without proof.

## How the system is modelled

- `RequestQueue`: any number of threads, one step per atomic load, store or compare-and-swap, in any interleaving. The state keeps a history (what was pushed and taken at each position, and by whom), so that theorems speak of whole runs. `QueueService` proves what a call achieves: a take of a published head returns it, a push into a free cell goes through, and which interleavings make them try again.
- `Scheduler` and `Blocking`: each lock-protected critical section is one step. `Scheduler` has run queues, pull balancing and the context hand-off between CPUs; `Blocking` puts FUTEX_WAIT and FUTEX_WAKE, the watch lists, blocking requests and the swapper on top. `Blocking.Exec` runs any sequence of moves of any number of threads on any number of CPUs. `Dispatch` proves over these runs in which order run queues are served, and `Progress` that the spins of context switches end. `Choosing`, `FutexCalls` and `Completion` prove what the operations achieve: which thread `schedule` chooses, when FUTEX_WAIT sleeps and how many threads FUTEX_WAKE wakes, and that a finished request wakes its thread. `Lifecycle` does so for creating, interrupting and ending threads.
- `Allocator`, `Slab`, `LinkedList`, `PageManager`, `EnclaveMappings`: classes with the fields of the source; lists of slabs and list nodes are heap objects with real links. `Allocator.Heap` carries the sequence of all chunks in address order as ghost state, and tree, lists and headers are proved to agree with it.
- `RespParser`, `RespStream`, `RespReply`, `RespRoundTrip`, `RespCommands`: the parser is a class whose loop is proved equal to a function of the state; the round trip is proved for that function. Replies follow the Redis serialization protocol (RESP) specification. `Numerals` holds decimal printing and scanning.
- `Csv`, `Crc16`, `ClientPipeline`: the rest of the load generator that has a law worth stating. CSV quoting is rule 7 in section 2 of RFC 4180; key slots are those of the Redis Cluster specification, "Key distribution model".
- `ElfOrder`, `ElfLayout`: segment order and file positions, after the System V gABI, "Program Header". Positions and addresses are 64-bit words that wrap. `Division` has the facts about remainders that several modules need, `Basics` the other shared notions.

## Promises that do not hold, and when they do

- A bulk string of length 0 leaves its second CRLF unread. A reply is consumed as it was sent if and only if no bulk string in it is empty (`RespRoundTrip.ConsumedIffNoEmptyBulk`).
- `take` may report an empty queue although a push has completed, when an earlier push is stalled (`RequestQueue.TakeMayMissACompletedPush`); it does so if and only if the push at the head position is incomplete (`RequestQueue.TakeFailsIffHeadIncomplete`).
- `allocPages` may fail although there is room, because the scan includes a slot past the last page and gives up there. The exact condition is `PageManager.GrantedIff`; with the clock on that slot single pages are refused however many are free (`PageManager.OnePageIsRefusedPastTheEnd`), a state that one request too large reaches (`PageManager.SinglePagesAreRefusedForGood`).
- A dumped item reads back if and only if its key is not empty and has no NUL and its data is not empty (`Csv.ItemRoundTripIff`).
- `myLog2` looks at 32 bits of a 64-bit length, so a chunk fits its size class if and only if its length is below 2^32 (`Allocator.BucketFitsIff`, with an example in `Allocator.BucketWrongAbove32Bits`).
- `write_command_cluster_slots` writes 28 bytes and returns 0 (`RespCommands.CommandWriter.WriteClusterSlots`).
- Segments set to offset 0 need not come first: one without an offset reads as 0 and keeps its place (`ElfOrder.UnsetStaysInFront`); they come before all others whose offset is not 0 (`ElfOrder.ZeroFirst`).
- The ELF layout subtracts the address of a segment from that of a section without looking which is larger. A section with data and a given address goes behind everything placed so far, or is refused, if and only if the distance, as an unsigned number, does not carry its position over 2^64 (`ElfLayout.StaysBehindIff`); with an address 8 below its segment's it lands 8 bytes before the segment, over other data (`ElfLayout.WrappedAddressOverlaps`). The layout is proved sound for inputs in which no such address is below its segment's and the numbers stay within 64 bits (`Tame`).
- `allocate` on an empty table of mappings checks nothing, so `makeHeap` then succeeds if and only if the rounded length fits the enclave (`EnclaveMappings.MakeHeap`).

## Model

| member | source | states |
|---|---|---|
| `RequestQueue.InitInv` | include/queue.h:79-86 | The ring as constructed satisfies the global invariant that links positions, cell sequences and thread claims |
| `RequestQueue.MaskSelectsSlot` | include/queue.h:79-94 | Masking with size - 1 selects the slot position mod size whenever size is a power of two, which the constructor asserts |
| `RequestQueue.StepKeepsInv` | include/queue.h:90-132 | Every atomic step of any thread in push or take keeps the global invariant |
| `RequestQueue.EveryRunKeepsInv` | include/queue.h:90-132 | Every interleaving of any number of pushers and takers keeps it |
| `RequestQueue.EveryRunIsAQueue` | include/queue.h:90-132 | In every run each position is claimed by one push and at most one take, a completed take at position p returned the value pushed at p, and dequeue_pos <= enqueue_pos <= dequeue_pos + size |
| `RequestQueue.StepHistoryGrows` | include/queue.h:90-132 | A step never changes who pushed or took a position or what was pushed or returned there |
| `RequestQueue.RunHistoryGrows` | include/queue.h:90-132 | Over a whole run the history of pushes and takes only grows |
| `RequestQueue.CellsAreExclusive` | include/queue.h:107-130 | Two threads that are writing or reading a cell outside the compare-and-swap never use the same cell |
| `RequestQueue.StaleTakeSeesLargerSequence` | include/queue.h:115-126 | A take that probes a position already taken sees a larger sequence number and retries instead of failing |
| `RequestQueue.TakeFailsIffHeadIncomplete` | include/queue.h:117-124 | A probe makes take return false if and only if it looks at the head position and the push there has not published |
| `RequestQueue.TailLagsIffOccupied` | include/queue.h:95-102 | The cell at the tail lags behind if and only if the take one lap earlier has not returned |
| `RequestQueue.PushSpinsIffCellOccupied` | include/queue.h:94-103 | A push spins without progress if and only if its cell is still occupied from one lap earlier |
| `RequestQueue.StepRefinesFifo` | include/queue.h:90-132 | Every step is one of: nothing, append at the tail, or remove at the head, of a queue of at most size values |
| `RequestQueue.DequeuedValueIsReturned` | include/queue.h:128-131 | The value removed from the head is the one that this take returns, whatever runs in between |
| `RequestQueue.TakeMayMissACompletedPush` | include/queue.h:112-124 | A run in which one push completes and a later take still returns false, because an earlier push is stalled |
| `QueueService.TakeGetsTheHead` | include/queue.h:112-132 | From every reachable state whose head is published: a take by an idle thread, in six steps, ends with the thread idle, the head moved on by one, the value pushed at the old head returned, and its cell free for the next lap |
| `QueueService.TakeGivesUp` | include/queue.h:112-124 | From every reachable state whose head is not published, a take ends in three steps with no value and the state as it was |
| `QueueService.PushGetsTheTail` | include/queue.h:90-110 | With its cell free a push goes through in six steps: its value is the last one pushed and published |
| `QueueService.PushThenTake` | include/queue.h:90-132 | What one thread pushes into an empty queue with its tail cell free, another one takes out |
| `QueueService.ProbeOutcome` | include/queue.h:115-127 | The probe of a take at the current head goes to the compare-and-swap if and only if the head is published, otherwise the take ends; a probe of an older position leads to another attempt and never out of the take |
| `QueueService.SwapFailsIffOvertaken` | include/queue.h:118-121 | In every run without a step of its own, a take that found the head published claims it with its compare-and-swap if and only if nobody else moved the head; otherwise it goes on at the new one |
| `QueueService.ClaimedTakeReturns` | include/queue.h:128-131 | Once claimed, a position is returned by the next two steps of the take, with the value pushed there, whatever others do before, between and after them |
| `Scheduler.SpawnKeepsInv` | libOS/user_thread.cpp:54-81 | A new thread, not runnable and with a good context, keeps the scheduler invariant |
| `Scheduler.EnqueueTaskKeepsInv` | libOS/sched.cpp:41-62 | Enqueueing keeps the invariant, also for a thread that is still running and only gets its flag and home queue back |
| `Scheduler.DequeueTaskKeepsInv` | libOS/sched.cpp:64-81 | Dequeueing the current thread keeps the invariant and finds the thread at home on its own CPU |
| `Scheduler.FirstPullable` | libOS/sched.cpp:100-122 | The scan of a source queue finds the first thread that is not running and has a good context, or there is none |
| `Scheduler.BalanceKeepsInv` | libOS/sched.cpp:85-132 | Each step of pull balancing keeps the invariant |
| `Scheduler.StartScheduleKeepsInv` | libOS/sched.cpp:166-175 | Entering schedule keeps the invariant |
| `Scheduler.MarkNotRunningKeepsInv` | libOS/sched.cpp:180-199 | Re-queueing the current thread and marking it not running keeps the invariant |
| `Scheduler.PickNextKeepsInv` | libOS/sched.cpp:202-243 | Choosing the next thread, or the idle thread, keeps the invariant |
| `Scheduler.CurrentIsHome` | libOS/sched.cpp:183-187 | A runnable current thread has the queue of its own CPU as home, as the assertion expects |
| `Scheduler.IdleStaysHome` | libOS/sched.cpp:236-242 | The idle thread of a CPU is never run or held by another CPU |
| `Scheduler.AcquireContextKeepsInv` | libOS/user_thread.cpp:109-118 | The exchange on contextGood keeps the invariant, whether it succeeds or spins |
| `Scheduler.SwitchStacksKeepsInv` | libOS/user_thread.cpp:120-127 | Loading the new context keeps the invariant and finds a saved context |
| `Scheduler.SaveContextKeepsInv` | libOS/user_thread.cpp:128-141 | Saving the old context on the new stack and publishing it keeps the invariant |
| `Scheduler.LinkedIffRunnableAndNotRunning` | libOS/sched.cpp:41-132 | A thread is linked in a run queue if and only if it is on queue and not running, and then in exactly one, the one its queue field names |
| `Scheduler.NoStackIsShared` | libOS/user_thread.cpp:109-141 | No thread's stack is used by two CPUs at once |
| `Scheduler.LoadFollowsSave` | libOS/user_thread.cpp:125-127 | A CPU loads a context only after it was saved, and no CPU is still on that stack |
| `Scheduler.WaitIsForAnEarlierSwitch` | libOS/user_thread.cpp:112-118 | A CPU that spins on contextGood waits for a CPU that marked its previous thread not running strictly earlier |
| `Scheduler.NoWaitCycle` | libOS/user_thread.cpp:112-118 | No chain of such waits closes to a cycle |
| `Scheduler.SomeSwitchIsNotBlocked` | libOS/user_thread.cpp:112-118 | Behind every spinning CPU there is one that switched earlier and is not blocked |
| `Scheduler.SwitchStepKeepsInv` | libOS/sched.cpp:202-244 | Whatever a CPU does next inside schedule or jumpTo is possible and keeps the invariant |
| `Scheduler.SwitchMakesProgress` | libOS/sched.cpp:202-244 | Each step of a CPU that is not blocked brings it nearer to the end of its switch and sets back no other CPU |
| `Scheduler.KernelStepsAreInvisible` | libOS/sched.cpp:180-244 | Steps inside schedule change neither which threads are runnable nor what other CPUs execute |
| `Choosing.MarkMove` | libOS/sched.cpp:180-199 | The step of `schedule` that marks the current thread not running appends it to its home queue if and only if it is runnable, changes no other queue, and has not balanced yet |
| `Choosing.OwnQueueFirst` | libOS/sched.cpp:202-220 | With a thread in its own queue the CPU takes the front, jumps to it unless it is the previous thread, and touches no other queue |
| `Choosing.Look` | libOS/sched.cpp:93-132 | One look of a balancing CPU at another queue pulls its first thread that is not running and has a saved context, to the end of its own queue, or goes on if there is none |
| `Choosing.LookOn` | libOS/sched.cpp:85-132 | Balancing to its end takes the thread from the lowest-numbered other queue that has one to give, and nothing if and only if none has |
| `Choosing.IdleOnlyIfNothingToPull` | libOS/sched.cpp:221-243 | With its own queue empty, a CPU that goes on undisturbed ends up choosing its idle thread if and only if no other queue has a thread that can be moved; otherwise it chooses the first such thread of the lowest-numbered queue |
| `Progress.StepBlocksNobody` | libOS/user_thread.cpp:112-118 | A CPU that can go on with its switch is not held up by a step that any thread, CPU or the swapper takes first |
| `Progress.SomebodyCanGoOn` | libOS/user_thread.cpp:109-141 | Among the CPUs that began to switch no later than a given one, one is not spinning |
| `Progress.StepFollows` | libOS/sched.cpp:166-244 | Any move of the whole system leaves a CPU alone, is its own next step of a switch, or finds it outside one; a switch that begins gets a later mark, and nobody takes a context that another CPU is about to load |
| `Progress.StepComesNearer` | libOS/user_thread.cpp:109-141 | No move takes a switch further from its end, and a step of an earlier or the same switch that does not spin brings it nearer |
| `Progress.RunComesNearer` | libOS/sched.cpp:202-244 | No run takes a switch further from its end, and one with a step of such a CPU brings it strictly nearer, whatever threads and other CPUs do |
| `Progress.EverySwitchEnds` | libOS/user_thread.cpp:112-118 | In every run, with thread code, calls, preemptions and new switches interleaved in any way: a CPU that switches is done before as many rounds with a kernel step of each CPU are over as the CPUs that began no later are steps away from thread code |
| `Blocking.BootInv` | libOS/sched.h:35-40 | The initial world satisfies the invariants of both layers |
| `Blocking.ThreadStepKeepsInv` | libOS/futex.cpp:61-176 | Every step of a thread inside a futex wait, a futex wake or a blocking request keeps the invariants of both layers |
| `Blocking.InvokeKeepsInv` | libOS/user_thread.cpp:83-97 | Starting a call, storing to a word, creating a thread or terminating keeps them |
| `Blocking.PreemptKeepsInv` | libOS/sched.cpp:166-191 | An interrupt between any two steps that do not mask it keeps them |
| `Blocking.FallAsleepKeepsLayer` | libOS/futex.cpp:95-101 | Leaving the run queue on the way to sleep keeps them |
| `Blocking.WakeHeadKeepsLayer` | libOS/futex.cpp:154-167 | Moving the first sleeper of a bucket to a run queue keeps them |
| `Blocking.JoinWatchListKeepsLayer` | libOS/async_request.cpp:69-79 | Joining the watch list keeps them |
| `Blocking.SwapperTakeKeepsLayer` | include/request.h:45-55 | The swapper taking a request from the queue keeps them |
| `Blocking.SwapperWorkKeepsLayer` | swapper/sleep.cpp:15-40 | The swapper acknowledging and finishing a request keeps them |
| `Blocking.WatchTurnKeepsInv` | libOS/async_request.cpp:47-66 | One turn of watchListCheck keeps the invariants, whether or not the request is done |
| `Blocking.KernelKeepsInv` | libOS/sched.cpp:180-244 | The steps inside schedule and jumpTo keep them |
| `Blocking.Exec` | libOS/futex.cpp:61-176 | Every run of any moves keeps the invariants of both layers |
| `Blocking.RunnableIsReachable` | libOS/sched.cpp:41-62 | A runnable thread is current on some CPU or linked in some run queue |
| `Blocking.HookIsNeverShared` | libOS/futex.cpp:154-167 | A thread in a futex queue is in no run queue, no watch list and no other futex queue, so the shared hook is used once |
| `Blocking.WatchHookIsNeverShared` | libOS/async_request.cpp:47-79 | A thread in a watch list is in no run queue, no futex queue and no other watch list |
| `Blocking.WaitersIsExact` | libOS/futex.cpp:39-53 | In every run the waiter count of a bucket is the number of threads queued, woken but not resumed, or checking the word; so zero waiters means an empty queue |
| `Blocking.NobodyIsBetweenCheckAndSleep` | libOS/futex.cpp:122-170 | When a wake-all returns, every thread past its check of the word is parked and runnable again |
| `Blocking.WakeAllWakesAll` | libOS/futex.cpp:122-176 | When a wake-all returns, whichever way, every thread that has read the word and gone on has been woken, also when the wake fell between its enqueue and its switch-out |
| `Blocking.StepKeepsWoken` | libOS/futex.cpp:75-92 | While the word differs from val, no step of anybody puts a thread to sleep on val, because a waiter reads the word under the bucket lock and leaves |
| `Blocking.WordStaysChanged` | libOS/futex.cpp:75-85 | Over every run the word keeps differing from val unless val is stored again |
| `Blocking.NoLostWakeup` | libOS/futex.cpp:59-176 | In every run: after a store of another value than val to the word and a later return of a wake-all on it, whichever way it returns, and as long as val is not stored again, every thread that found val in its wait has been woken, is runnable and reachable, and none is asleep on val or on its way to sleep, whether it began to wait before the store, during the wake or later |
| `Blocking.WakesAreFifo` | libOS/futex.cpp:149-167 | In every run, the threads woken so far followed by those queued are the threads that ever slept on the bucket, in that order |
| `FutexCalls.Check` | libOS/futex.cpp:75-92 | Reading the word under the lock leads to the exit exactly if it differs from val, and otherwise to sleep exactly when the spin is given up |
| `FutexCalls.WaitSleeps` | libOS/futex.cpp:61-108 | A wait with the lock free that finds val ends parked: last in the queue of its bucket, counted, not runnable, with the lock released; no other bucket, no other thread's call and no CPU changes |
| `FutexCalls.WaitReturns` | libOS/futex.cpp:61-93 | A wait that finds another value returns and leaves everything but the existence of the bucket as it was |
| `FutexCalls.LeavesOnlyIfChanged` | libOS/futex.cpp:75-92 | In every run, whatever the move, a waiter leaves its check for the exit only if the word differs from val, and goes to sleep only if it is equal |
| `FutexCalls.WaitResumes` | libOS/futex.cpp:108-119 | A woken waiter that runs again takes the lock, is no longer counted, releases the lock and returns |
| `FutexCalls.WakeLimit` | libOS/futex.cpp:122-130 | A call to wake one thread has limit 1, any other call limit 2^31 - 1 |
| `FutexCalls.ApproachKeepsLimit` | libOS/futex.cpp:122-150 | In every run a wake keeps that limit up to its lock, and returns before only if there is no bucket or nobody waits |
| `FutexCalls.WakingStep` | libOS/futex.cpp:149-170 | Every move of anybody keeps: a wake in its loop has taken exactly as many threads as it counted off the front of the queue it found; at its return the count is the smaller of limit and length |
| `FutexCalls.WakeMovesExactly` | libOS/futex.cpp:149-170 | In every run, from the lock to the return: exactly the first min(limit, length) threads of the queue found leave it, in order, and can run; the rest stays |
| `FutexCalls.WakeCall` | libOS/futex.cpp:122-170 | A whole call with the lock free moves exactly the first k threads, k the smaller of the queue length and 1 or 2^31 - 1 as asked, leaves the others in place and the lock free |
| `Blocking.StepGrows` | libOS/futex.cpp:149-167 | A step only appends to the sequences of threads that slept and that were woken |
| `Blocking.RequestHasOneOwner` | libOS/async_request.cpp:69-107 | In every run a request is in the queue, at the swapper or with its thread; outside a call it is with its thread and on no watch list, so reusing the object is safe |
| `Blocking.SleepWaitWakesOnce` | libOS/async_request.cpp:47-79 | In every run each sleepWait is matched by exactly one wake-up, and a thread resumes only when its request is done |
| `Completion.CheckOn` | libOS/async_request.cpp:47-66 | A check of a watch list by its CPU alone takes off exactly the requests that are done, makes exactly their owners runnable, each woken once, and keeps the others in order |
| `Completion.CheckWakesWhatIsDone` | libOS/async_request.cpp:47-66 | In every run: a request that is done and listed when a check of its CPU begins is woken once, and taken off, before that check is over, whatever threads, other CPUs and the swapper do |
| `Completion.Poll` | include/request.h:39-43 | A polling sender goes on if and only if its request is done |
| `Completion.SleepsOnRequest` | libOS/async_request.cpp:69-107 | Sending a request and sleeping on it ends with the request last in the queue and first on the watch list of the CPU, and the sender not runnable |
| `Completion.SwapperServes` | swapper/sleep.cpp:15-40 | The swapper takes the oldest request, and after its work that request is done and with its thread |
| `Completion.Resumes` | libOS/async_request.cpp:69-79 | A woken sender that runs again returns from its call |
| `Blocking.SourceAssertionsHold` | libOS/sched.cpp:46-68 | The assertions of enqueueTask, dequeueTask and watchListCheck hold wherever they are reached, and bucket locks are held by running threads only |
| `Lifecycle.CloneStarts` | libOS/user_thread.cpp:54-81 | Creating a thread puts it, runnable and with a good context, last in the run queue of its creator's CPU, and changes nothing else |
| `Lifecycle.BootStarts` | libOS/user_thread.cpp:54-81 | The same from a CPU on its boot stack |
| `Lifecycle.InterruptEntersSchedule` | libOS/sched.cpp:166-175 | An interrupt sends the CPU into schedule if and only if its thread has not masked interrupts, and changes no queue, request or other thread |
| `Lifecycle.ExitLeaves` | libOS/user_thread.cpp:83-97 | A terminating thread stops being runnable and enters schedule |
| `Lifecycle.ExitIsForGood` | libOS/user_thread.cpp:83-97 | In every run a terminated thread stays so: never runnable and in no run queue again |
| `Dispatch.ServingMovesUp` | libOS/sched.cpp:202-215 | When the front of a queue leaves, every other thread is one place nearer to the front |
| `Dispatch.LeavingOvertakesNobody` | libOS/sched.cpp:69-72 | Erasing a thread from the middle of a queue lets nobody else be overtaken |
| `Dispatch.EnqueueKeepsOrder` | libOS/sched.cpp:41-62 | An enqueued thread goes behind everybody who waits |
| `Dispatch.DequeueKeepsOrder` | libOS/sched.cpp:64-81 | Nobody who waits loses its place when a thread is dequeued |
| `Dispatch.MarkKeepsOrder` | libOS/sched.cpp:180-199 | A preempted thread goes behind everybody who waits |
| `Dispatch.PickServesTheFront` | libOS/sched.cpp:202-215 | The thread that becomes current is the front of the CPU's own queue, and everybody behind it moves up by exactly one |
| `Dispatch.BalanceKeepsOrder` | libOS/sched.cpp:85-132 | A pulled thread leaves one queue and goes to the back of another, and in neither is anybody overtaken |
| `Dispatch.StepKeepsOrder` | libOS/sched.cpp:41-244 | No step of a thread, a CPU or the swapper lets a thread be overtaken in a run queue |
| `Dispatch.BoundedBypass` | libOS/sched.cpp:202-215 | In every run, as long as a thread waits in the queue of a CPU, the threads given to that CPU plus the threads still before it never exceed the number that were before it at the start |
| `Allocator.BucketFits` | libOS/allocator.cpp:51-59 | For lengths below 2^32 the size class exists, and a chunk in class b is shorter than 2^(b+2) and, from 4 bytes on, at least 2^(b+1) long |
| `Allocator.BucketFitsIff` | libOS/allocator.cpp:51-59 | A chunk is shorter than its size class allows if and only if its length is below 2^32 |
| `Allocator.BucketWrongAbove32Bits` | libOS/allocator.cpp:51-53 | A length above 2^32 whose class is too small for it |
| `Allocator.CarveKeepsDisjoint` | libOS/allocator.cpp:106-125 | Splitting a chunk keeps all chunks pairwise disjoint |
| `Allocator.CarveKeepsCoalesced` | libOS/allocator.cpp:106-125 | Splitting never makes two free chunks touch |
| `Allocator.CarveUsed` | libOS/allocator.cpp:115-125 | Headers and payloads add up as before when the chunk is split, and otherwise lose less than two headers |
| `Allocator.CarveShort` | libOS/allocator.cpp:106-125 | Splitting makes no stretch of touching chunks longer |
| `Allocator.JoinShort` | libOS/allocator.cpp:204-231 | Merging leaves stretches as they are, so no merged chunk reaches 2^32 bytes |
| `Allocator.ReleaseKeeps` | libOS/allocator.cpp:204-231 | Freeing and merging keeps chunks disjoint, loses no byte, and leaves no two free chunks touching |
| `Allocator.NextNeighbour` | libOS/allocator.cpp:206-209 | The successor in the address tree touches a free chunk if and only if the next chunk in memory is free and touches it |
| `Allocator.PreviousNeighbour` | libOS/allocator.cpp:217-219 | The same for the predecessor |
| `Allocator.TreeFlag` | libOS/allocator.cpp:208-218 | Every chunk in the tree is marked free, as the two assertions expect |
| `Allocator.Heap.constructor` | libOS/allocator.cpp:67-69 | A heap of one free chunk, tree and lists agreeing |
| `Allocator.Heap.ExpandHeap` | libOS/allocator.cpp:71-82 | A region anywhere that overlaps no chunk, and does not complete a stretch of touching chunks of 2^32 bytes, becomes a free chunk in tree and last list, all agreements kept |
| `Allocator.SmallIsShort` | libOS/allocator.cpp:71-82 | Heaps of less than 2^32 bytes in all meet that condition, wherever their regions lie |
| `Allocator.Heap.FindFit` | libOS/allocator.cpp:99-104 | The search finds the first long enough chunk in list order, skipping only lists whose chunks are all too short; if it finds none, no free chunk is long enough |
| `Allocator.Heap.Malloc` | libOS/allocator.cpp:90-145 | Returns null if and only if the length is 0 or no free chunk is long enough; otherwise it carves exactly one free chunk, the first that is long enough in the lowest size class that has one, tree, lists and headers still agree, and bytes become slack only when the rest cannot hold two headers, and then exactly that rest |
| `Allocator.Heap.Take` | libOS/allocator.cpp:106-130 | The chosen chunk leaves tree and lists, the rest of it enters both when it can hold two headers |
| `Allocator.Heap.JoinNext` | libOS/allocator.cpp:204-215 | The freed chunk is merged with the next chunk exactly when that is free and touches it |
| `Allocator.Heap.JoinPrevious` | libOS/allocator.cpp:217-231 | The same for the previous chunk; afterwards tree and lists agree again |
| `Allocator.Heap.Free` | libOS/allocator.cpp:191-236 | The chunk is released and merged on both sides, nothing else changes, no byte is lost, and touching free chunks never arise |
| `RespParser.Next` | memtier_benchmark/protocol.h:71-83 | The array found expects at least one more element |
| `RespParser.NextSum` | memtier_benchmark/protocol.h:71-83 | Skipping finished arrays keeps the number of outstanding elements, and finds none if and only if that number is zero |
| `RespParser.AttachSum` | memtier_benchmark/protocol.h:66-69 | Adding an element lowers the number of outstanding elements of the chain by one |
| `RespParser.StepKeepsWf` | memtier_benchmark/protocol.cpp:371-546 | For every input, m_total_bulks_count is the sum of bulks_count along the upper_level chain, and no null array is dereferenced |
| `RespParser.StepProgresses` | memtier_benchmark/protocol.cpp:371-546 | Every turn of the loop that does not return consumes bytes or lowers the rank of the state, so the loop ends |
| `RespParser.Parse` | memtier_benchmark/protocol.cpp:366-549 | Parsing returns -1, 0 or 1, keeps the invariant, and returns 0 only when the next turn needs more bytes |
| `RespParser.RedisParser.constructor` | memtier_benchmark/protocol.cpp:168 | The initial parser satisfies the invariant |
| `RespParser.RedisParser.NextMbulk` | memtier_benchmark/protocol.h:72-83 | The loop over parents computes the nearest array that expects elements |
| `RespParser.RedisParser.ArrayLine` | memtier_benchmark/protocol.cpp:392-428 | An array header opens a node, links it and counts its elements as the state function says |
| `RespParser.RedisParser.BulkLine` | memtier_benchmark/protocol.cpp:429-444 | A bulk header sets the length to wait for |
| `RespParser.RedisParser.SimpleLine` | memtier_benchmark/protocol.cpp:445-475 | A status, error or integer line is one element or a whole reply |
| `RespParser.RedisParser.BulkEnd` | memtier_benchmark/protocol.cpp:492-542 | The bytes of a bulk string are taken and stored or drained |
| `RespParser.RedisParser.TakeLine` | memtier_benchmark/protocol.cpp:392-480 | The switch on the first byte of a line |
| `RespParser.RedisParser.Turn` | memtier_benchmark/protocol.cpp:372-545 | One turn of the loop is one step of the state function |
| `RespParser.RedisParser.ParseResponse` | memtier_benchmark/protocol.cpp:366-549 | The loop terminates and computes Parse |
| `RespStream.StepMore` | memtier_benchmark/protocol.cpp:382-546 | A turn that does not wait does the same however many bytes follow |
| `RespStream.ParseMore` | memtier_benchmark/protocol.cpp:366-549 | Parsing, then receiving, then parsing on is the same as receiving everything first |
| `RespStream.FeedTwice` | memtier_benchmark/shard_connection.cpp:391-440 | Two chunks give the same replies and the same state as their concatenation |
| `RespStream.ChunkingIsInvisible` | memtier_benchmark/shard_connection.cpp:391-440 | However a byte stream is cut into chunks, the replies and the final state are the same |
| `RespStream.Read` | memtier_benchmark/shard_connection.cpp:383-445 | The loop over arriving chunks and parse_response ends and computes the connection that the stream theorems speak of |
| `RespReply.HeaderNumber` | memtier_benchmark/protocol.cpp:393 | A length printed in decimal is read back by strtol and survives the conversion to int |
| `RespReply.TallyIs` | memtier_benchmark/protocol.cpp:465-485 | Hits are the bulk strings with a value, the error flag says whether some element is an error, and the status is the last line read, at any depth |
| `RespReply.GrownExtends` | memtier_benchmark/protocol.cpp:405-419 | Rebuilding an element changes only the array it belongs to and adds nodes that are complete |
| `RespReply.GrownHolds` | memtier_benchmark/protocol.cpp:405-419 | The nodes added for an element hold exactly that element, at any depth |
| `RespRoundTrip.ParseElement` | memtier_benchmark/protocol.cpp:392-542 | Inside an array, the bytes of one reply are consumed exactly and leave the parser as if the reply had been added as a whole |
| `RespRoundTrip.ReplyRoundTrip` | memtier_benchmark/protocol.cpp:366-549 | Every reply without empty bulk strings, however nested, is parsed to 1, consumed exactly, reported with its length, hits, error and status, and rebuilt as the tree that was encoded |
| `RespRoundTrip.StreamRoundTrip` | memtier_benchmark/shard_connection.cpp:391-440 | A stream of such replies in any chunking yields exactly one correct report each and an empty buffer |
| `RespRoundTrip.EmptyBulkGarbles` | memtier_benchmark/protocol.cpp:438-440 | After an empty bulk string the parser fails or leaves bytes of the reply behind |
| `RespRoundTrip.ConsumedIffNoEmptyBulk` | memtier_benchmark/protocol.cpp:438-511 | A reply is consumed as it was sent if and only if no bulk string in it is empty |
| `RespCommands.NumberLengthCountsDigits` | memtier_benchmark/protocol.cpp:336-348 | The digit count used for WAIT is the length of the printed number |
| `RespCommands.CommandWriter.WriteSet` | memtier_benchmark/protocol.cpp:231-288 | SET key value, SETRANGE key offset value and SETEX key seconds value are written, by offset and expiry, as arrays of bulk strings, and the returned size is the number of bytes written |
| `RespCommands.CommandWriter.WriteGet` | memtier_benchmark/protocol.cpp:296-331 | The same for GET key and GETRANGE key offset -1 |
| `RespCommands.CommandWriter.WriteWait` | memtier_benchmark/protocol.cpp:350-364 | The same for WAIT slaves timeout |
| `RespCommands.CommandWriter.WriteClusterSlots` | memtier_benchmark/protocol.cpp:216-229 | CLUSTER SLOTS is written whole, but the returned size is 0 |
| `RespCommands.CommandRoundTrip` | memtier_benchmark/protocol.cpp:231-331 | Every command of non-empty arguments parses back to its argument list |
| `Slab.ScanAndSet` | libOS/bitmap.h:100-124 | Takes the first clear bit of the complete words, or reports that there is none |
| `Slab.SlotRoundTrip` | libOS/slub.cpp:142-158 | The slot computed from an object's address is the slot it was allocated from |
| `Slab.SlotsAreDisjoint` | libOS/slub.cpp:142-143 | Objects of different slots do not overlap, headers included |
| `Slab.SlotsFollowSlabHeader` | libOS/slub.cpp:127-129 | The first slot begins at a multiple of the slot size, after the slab structure and less than one slot behind it |
| `Slab.BucketIsLargeEnough` | libOS/slub.cpp:224-237 | Requests up to 4096 bytes and no others are served from a bucket, which is at least as large, and above 8 bytes between two and four times as large |
| `Slab.ListAddHead` | libOS/slub.cpp:82-88 | The list stays a well-formed doubly linked list with the slab in front |
| `Slab.ListDel` | libOS/slub.cpp:90-101 | The list stays well-formed without the slab, whose links are cleared |
| `Slab.Move` | libOS/slub.cpp:175-176 | Moving a slab between two lists keeps both well-formed |
| `Slab.SlabCache.constructor` | libOS/slub.cpp:103-118 | A new cache has one empty slab |
| `Slab.SlabCache.AllocateObject` | libOS/slub.cpp:136-152 | The lowest clear bit is set, the counter follows, and the address is that of the slot |
| `Slab.SlabCache.FreeObject` | libOS/slub.cpp:154-164 | Exactly the bit of the freed object is cleared and the counter follows |
| `Slab.SlabCache.SettleFreed` | libOS/slub.cpp:210-216 | After a free the slab is on the list its counter calls for |
| `Slab.SlabCache.AllocateNew` | libOS/slub.cpp:188-192 | The slow path makes a new slab the only partial one |
| `Slab.SlabCache.Allocate` | libOS/slub.cpp:166-196 | Hands out a slot that is not live, the lowest clear one of the first partial slab, else of the first empty one, else of a new slab; exactly this slot becomes live, the set of slabs grows by at most the new one, and every slab is on the empty, partial or full list exactly as its count of clear bits says |
| `Slab.SlabCache.Free` | libOS/slub.cpp:198-219 | Exactly the freed slot stops being live, the set of slabs stays the same, and the lists stay as above |
| `Slab.SlabCache.LiveObjectsAreDisjoint` | libOS/slub.cpp:136-152 | Any two live objects of a slab are disjoint, headers included |
| `Slab.Run` | libOS/slub.cpp:166-219 | After any sequence of allocations and frees the objects held are exactly the live slots, each once, and those of one slab never overlap |
| `LinkedList.IntrusiveList.constructor` | libOS/linked_list.h:21-24 | An empty ring |
| `LinkedList.IntrusiveList.Add` | libOS/linked_list.h:46-54 | Inserting between two neighbours keeps the ring well-formed in both directions |
| `LinkedList.IntrusiveList.AddHead` | libOS/linked_list.h:56-58 | The entry comes first |
| `LinkedList.IntrusiveList.AddTail` | libOS/linked_list.h:60-62 | The entry comes last |
| `LinkedList.IntrusiveList.Delete` | libOS/linked_list.h:64-79 | A linked entry leaves the ring and is poisoned; a poisoned entry is refused and nothing changes |
| `PageManager.WithBitIs` | libOS/mmap.cpp:88-98 | Setting a bit of a byte changes that bit and no other |
| `PageManager.Manager.constructor` | libOS/mmap.cpp:75-86 | All pages are free, the clock is at the first, and the bitmap belongs to the new manager alone |
| `PageManager.Manager.SetBit` | libOS/mmap.cpp:92-98 | Exactly one page's bit changes |
| `PageManager.Manager.ExplicitPage` | libOS/mmap.cpp:140-159 | Takes the pages if and only if they are in range and all free, otherwise changes nothing |
| `PageManager.Manager.FreePages` | libOS/mmap.cpp:133-138 | Clears exactly the bits of the given pages |
| `PageManager.Manager.TakeRun` | libOS/mmap.cpp:114-119 | The run that the scan has met is taken and was the one to grant, or it reaches past the last page and nothing is granted |
| `PageManager.Manager.AllocPages` | libOS/mmap.cpp:100-131 | Ends within one lap; on success the pages are the first free run in scan order and only their bits change; on failure no bit changes, and the run found ended past the last page or there was none |
| `PageManager.GrantedIff` | libOS/mmap.cpp:108-127 | A request is granted if and only if there is room at or after the clock, or room before it and none reaching over the slot past the end |
| `PageManager.OnePageIsRefusedPastTheEnd` | libOS/mmap.cpp:114-126 | With the clock past the last page a single page is refused, whatever is free |
| `PageManager.SinglePagesAreRefusedForGood` | libOS/mmap.cpp:108-131 | For every number of pages: a request for one page more, on a new manager, leaves the clock past the end, and then any number of requests for a single page fail although all pages are free |
| `PageManager.AllocKeepsCover` | libOS/mmap.cpp:114-119 | What is handed out overlaps no live allocation, and set bits remain exactly the pages of live allocations |
| `PageManager.FreeKeepsCover` | libOS/mmap.cpp:133-138 | Freeing a live allocation keeps set bits exactly the pages of live allocations |
| `PageManager.Serve` | libOS/mmap.cpp:100-159 | Each request changes the live allocations exactly as it says, and set bits remain exactly their pages |
| `PageManager.RunRequests` | libOS/mmap.cpp:75-159 | After any sequence of allocations, explicit requests and frees the set bits are exactly the pages of the live allocations, which do not overlap and lie within the pages |
| `PageManager.FreeUndoesAlloc` | libOS/mmap.cpp:133-138 | Freeing what was just allocated restores the bitmap |
| `EnclaveMappings.RoundUp` | loader/enclave_manager.cpp:87 | The rounded length is the least multiple of the page size that is not smaller |
| `EnclaveMappings.ClashIsOverlap` | loader/enclave_manager.cpp:101-108 | For ranges that are not empty, a clash is an address in common |
| `EnclaveMappings.NeighboursSuffice` | loader/enclave_manager.cpp:100-110 | Checking the two neighbours finds a clash if and only if some mapping clashes |
| `EnclaveMappings.PutKeeps` | loader/enclave_manager.cpp:155 | Recording a mapping that passed the checks keeps mappings ordered, disjoint, aligned and inside the enclave |
| `EnclaveMappings.Enclave.AddPages` | loader/enclave_manager.cpp:85-157 | Succeeds if and only if the rounded range is inside the enclave and clashes with no mapping, and then records exactly it |
| `EnclaveMappings.GapFits` | loader/enclave_manager.cpp:166-178 | A gap found for a length also holds the length rounded up to pages |
| `EnclaveMappings.Enclave.Allocate` | loader/enclave_manager.cpp:159-179 | Succeeds if and only if some gap is strictly larger or the room at the end is large enough; with mappings present the result is the first such gap, or the end if there is none, and passes the later checks |
| `EnclaveMappings.MakeHeap` | loader/enclave_manager.cpp:290-299 | Adding the heap page by page succeeds exactly when allocation does (on an empty table: when it fits the enclave), maps every page and loses no mapping |
| `Csv.GetQuotedStr` | memtier_benchmark/file_io.cpp:343-374 | Computes the string with every quote doubled |
| `Csv.FileReader.Read` | memtier_benchmark/file_io.cpp:106-192 | The character loop computes the field and the rest of the file as ReadString says |
| `Csv.FileReader.ReadNext` | memtier_benchmark/file_io.cpp:206-287 | Reading an item from the file computes ReadItem, of which the round trip is proved |
| `Csv.QuotedFieldReadsBack` | memtier_benchmark/file_io.cpp:106-192 | A non-empty string of any bytes written between quotes is read back, and reading stops right behind the closing quote |
| `Csv.PlainFieldReadsBack` | memtier_benchmark/file_io.cpp:106-192 | A field without quotes around it and without quotes, commas or line ends in it is read as it stands, up to its length or to the comma or line end behind it |
| `Csv.SignedNumberReads` | memtier_benchmark/file_io.cpp:219-227 | A number column with a plus sign is that number, with a minus sign its negative modulo 2^32 |
| `Csv.LastColumnReads` | memtier_benchmark/file_io.cpp:219-227 | Behind the last number column the comma may be missing |
| `Csv.ColumnsReadBack` | memtier_benchmark/file_io.cpp:219-227 | The eight number columns are read back and reading stops at the key |
| `Csv.ItemRoundTrip` | memtier_benchmark/file_io.cpp:206-287 | An item with non-empty NUL-free key and non-empty data is read back, and the file is left at the next record |
| `Csv.EmptyKeyIsLost` | memtier_benchmark/file_io.cpp:117-186 | An item with an empty key is not read back |
| `Csv.NulKeyIsLost` | memtier_benchmark/file_io.cpp:392-401 | An item whose key contains a NUL is not read back |
| `Csv.ItemRoundTripIff` | memtier_benchmark/file_io.cpp:380-417 | An item is written and read back if and only if key and data are not empty and the key has no NUL |
| `Csv.DumpRoundTrip` | memtier_benchmark/file_io.cpp:206-417 | A dump of any sequence of such items reads back item for item and leaves nothing over |
| `Csv.FileWriter.WriteItem` | memtier_benchmark/file_io.cpp:380-417 | Fails exactly on empty data; otherwise appends the record that the reader expects |
| `Crc16.ShiftIsLinear` | memtier_benchmark/cluster_client.cpp:95-101 | Shifting one bit out of the CRC is linear over exclusive or |
| `Crc16.TableIs` | memtier_benchmark/cluster_client.cpp:60-93 | Each of the 256 table entries is what eight shifts make of its index in the high byte |
| `Crc16.TableStepIsBitwise` | memtier_benchmark/cluster_client.cpp:99 | One table look-up equals eight single-bit steps, for every CRC and byte |
| `Crc16.Crc` | memtier_benchmark/cluster_client.cpp:95-101 | The loop computes the bit-by-bit CRC with polynomial 0x1021 and initial value 0, for every byte string |
| `Crc16.Slot` | memtier_benchmark/cluster_client.cpp:103-107 | The slot is that CRC modulo 16384 |
| `ClientPipeline.Client.constructor` | memtier_benchmark/client.cpp:98-113 | A new client has sent nothing |
| `ClientPipeline.Client.Connect` | memtier_benchmark/shard_connection.cpp:256-275 | Connecting makes the configured set-up commands due |
| `ClientPipeline.Client.Disconnect` | memtier_benchmark/shard_connection.cpp:290-308 | Disconnecting makes no set-up command due |
| `ClientPipeline.Client.SendSetup` | memtier_benchmark/shard_connection.cpp:357-381 | Set-up commands are sent once each, in the order of the source, and never mixed with data requests |
| `ClientPipeline.Client.CreateRequest` | memtier_benchmark/client.cpp:277-357 | Creates exactly one request, or resets the ratio counters when both are used up |
| `ClientPipeline.Client.FillPipeline` | memtier_benchmark/shard_connection.cpp:468-486 | Ends; with set-up done it stops only when the time is up, the pipeline is full, all configured requests were created or answered, or the replies to what was created complete an interval; when finished or full it sends nothing at all; keeps processed mod interval + outstanding <= interval and generated <= requests |
| `ClientPipeline.Client.ConnectEvent` | memtier_benchmark/shard_connection.cpp:488-518 | The connection is up and its pipeline filled, with set-up commands first, or the attempt failed and nothing is due |
| `ClientPipeline.Client.HandleReply` | memtier_benchmark/shard_connection.cpp:391-440 | One reply answers the oldest request, and when the number of replies reaches a multiple of the interval nothing is outstanding |
| `ClientPipeline.Client.ProcessResponse` | memtier_benchmark/shard_connection.cpp:383-461 | Reconnects exactly when data replies bring the count to a multiple of the interval, and then the pipeline is empty, as the assertion expects; the count of replies grows by the data requests that were answered; otherwise the pipeline is filled again until one of the reasons to stop holds |
| `ClientPipeline.Client.Run` | memtier_benchmark/shard_connection.cpp:383-518 | In any sequence of connect events and replies the client reconnects exactly once for each full interval of replies, and never creates more requests than configured |
| `ElfOrder.IncludesIsSubset` | deps/elfio/elfio.hpp:537-550 | On ascending section indices the test is the subset test |
| `ElfOrder.ZeroFirst` | deps/elfio/elfio.hpp:562-573 | A permutation in which the segments set to offset 0 come before all that have another offset; they come first if no segment without an offset, which reads as 0, is there |
| `ElfOrder.UnsetStaysInFront` | deps/elfio/elfio.hpp:562-572 | With two segments without an offset in front, one set to 0 becomes the second, not the first |
| `ElfOrder.Held` | deps/elfio/elfio.hpp:579-584 | The search finds a larger segment holding the sections, or there is none |
| `ElfOrder.RotationGetsNearer` | deps/elfio/elfio.hpp:575-590 | Moving a segment to the back brings the first one that can be emitted one place nearer, so the loop ends |
| `ElfOrder.OrderSegments` | deps/elfio/elfio.hpp:553-593 | Ends, keeps every segment exactly once, and puts every segment before the segments whose sections are a proper part of its own; those set to offset 0 that are a part of no other one come before all that have another offset |
| `ElfLayout.ShiftAligns` | deps/elfio/elfio.hpp:673-679 | For alignments up to 2^63 the amount added makes the position congruent to the address modulo the alignment |
| `ElfLayout.PaddingAligns` | deps/elfio/elfio.hpp:603-607 | The padding makes the position a multiple of the alignment |
| `ElfLayout.StaysBehindIff` | deps/elfio/elfio.hpp:697-713 | A section whose address decides is refused exactly when its distance from the segment is less than that of the position, and otherwise goes back exactly when start plus distance passes 2^64 |
| `ElfLayout.WrappedAddressOverlaps` | deps/elfio/elfio.hpp:705-712 | An address 8 below that of the segment is not refused and puts the section before the segment, over the section before it |
| `ElfLayout.LocateMirrors` | deps/elfio/elfio.hpp:697-744 | A section with data lies as far from its segment in the file as in memory, modulo 2^64, whether the address was given or is computed |
| `ElfLayout.LocateTame` | deps/elfio/elfio.hpp:697-726 | In a tame layout a section goes behind the position and within reach, or its address asks for a position already passed |
| `ElfLayout.PlacingKeepsOrder` | deps/elfio/elfio.hpp:697-755 | Placing a section where it goes keeps a tame layout in order: sections apart, room for the rest, addresses usable |
| `ElfLayout.Layout.constructor` | deps/elfio/elfio.hpp:157-169 | Nothing is placed and the position is right behind the program headers; any addresses are accepted |
| `ElfLayout.Layout.SegmentStart` | deps/elfio/elfio.hpp:653-683 | A fresh segment starts at the next position congruent to its address; a nested one at its first section |
| `ElfLayout.Layout.PlaceInSegment` | deps/elfio/elfio.hpp:697-755 | A section goes exactly where Locate says or is refused with it; in a tame layout that is behind everything placed so far |
| `ElfLayout.Layout.LayoutSegment` | deps/elfio/elfio.hpp:647-769 | All sections of the segment are placed, as far from its start as in memory, and none placed before moves; in a tame layout all new ones lie behind its start; it fails only at a section whose address lies before the position |
| `ElfLayout.Layout.LayoutSegments` | deps/elfio/elfio.hpp:638-772 | Exactly the sections of segments are placed; a segment whose first section is in no earlier segment has, in a tame layout, an offset congruent to its address, and any other one starts where its first section is; sections with data that are in no earlier segment lie as far behind their segment in the file as in memory |
| `ElfLayout.Layout.LayoutRest` | deps/elfio/elfio.hpp:597-620 | Every section without a segment is placed; in a tame layout at a multiple of its alignment, behind the others |
| `ElfLayout.Layout.LayoutTable` | deps/elfio/elfio.hpp:775-782 | The section table starts at the next multiple of four |
| `ElfLayout.Layout.Save` | deps/elfio/elfio.hpp:157-175 | When the layout succeeds every section is placed; in a tame layout any two sections with file data have disjoint ranges after the program headers and before the section table; each segment is placed as above, in an order that puts it before its parts, and a part starts where its first section is and never afresh; it always succeeds when no section with data has a given address |
| `ElfLayout.PartIsLater` | deps/elfio/elfio.hpp:552-590 | A segment whose sections are a proper part of those of another one is laid out later, when its first section has a place |

## Left out

- Weak memory, fences, HLE/TSX and the interrupt flag: atomics are sequentially consistent, lock regions are atomic steps, and time slots never end a call of `schedule` early because the maximum is one.
- Scheduler.BalanceKeepsInv: a source queue is scanned in one step under its lock, although `contextGood` is stored without that lock and could become true during the scan; a thread passed over is then found by a later scan.
- RequestQueue.StepKeepsInv: counters do not wrap at 2^64.
- Scheduler.EnqueueTaskKeepsInv: `onQueue` and `running` start as false, which the source leaves unset; reference counts and the counters of active threads are not modelled.
- Blocking.ThreadStepKeepsInv: the spin of at most 500000 reads before a wait is a choice of how long to spin; FUTEX_REQUEUE is not modelled, because both the requeuer and the resumed thread adjust the waiter count there.
- Blocking.RequestHasOneOwner: what a request carries and what the swapper computes are not modelled, only who may use the request.
- Allocator.Heap.Malloc: addresses are unbounded integers; a stretch of touching memory of 2^32 bytes is excluded, because merging could make a chunk whose class is wrong (`Allocator.BucketFitsIff`); `memAlign`, `realloc` and the canary checks are not modelled.
- Allocator.Heap.Free: unlinking a chunk from its list works on the node, whichever list the source names.
- Slab.SlabCache.Allocate: whether a mapped region is as large as the slab needs is not modelled, so slots are disjoint within a slab only; the bitmap is used under the cache lock, so its compare-and-swap succeeds at once.
- Slab.SlabCache.Free: the slab that the object header names is a parameter; blocks above 4096 bytes do not come from slabs.
- PageManager.Manager.constructor: the bits of all pages are zero at the start, also where the source relies on fresh pages being zero; 32-bit overflow of page counts and the explicit-address branch of `libos_mmap` are not modelled.
- EnclaveMappings.Enclave.AddPages: destinations are page aligned, as the hardware demands; the ioctls that add pages succeed.
- RespParser.RedisParser.ParseResponse: counters and lengths do not wrap, except the reported total length, which is 32 bits; whether values are kept does not change in the middle of a reply, and the current array starts as null.
- RespStream.ChunkingIsInvisible: compares runs up to the first line that cannot be read, where the client gives up.
- Csv.FileReader.Read: `feof`, warnings and line numbers are not modelled; bytes of a key that the file does not supply are absent instead of uninitialised.
- ClientPipeline.Client.ProcessResponse: one connection without cluster slots; a server never sends more replies than there are requests; a dropped connection ends the run.
- ClientPipeline.Client.constructor: the set and get ratios are not both zero, because filling the pipeline would not end.
- ElfLayout.Layout.Save: disjointness and congruence are stated for tame layouts, because addresses below that of their segment and positions beyond 2^64 break them; section 0 is the null section. File and memory sizes of segments, and segment alignments beyond what is given, are left out.
- Memcache protocols, verification clients, cluster topology, statistics, JSON, option parsing and key generation.
- Enclave entry, signatures, launch tokens, ioctls, SSA dumps, assembly, system call marshalling, logging, the C library, samples, ELF constants and dumping.
