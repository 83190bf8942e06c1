# Leash and its kernel, modelled and proved

Leash is a network debugger for microcontrollers. It runs on the FreeRTOS V8.0.1 kernel and talks
the GDB Remote Serial Protocol to its client. This project models both: the kernel's lists, tasks,
queues, queue sets, event groups and timers (`lib/freertos`), and the packet layer of the GDB server
(`leash/src/gdbserver`, `leash/src/thirdparty/crc32.c`).

The kernel is configured by `lib/freertos/FreeRTOSConfig.h`: ticks of 32 bits, preemption on, ten
priorities, port-optimised task selection, mutexes and queue sets on. The macros are those of
`lib/freertos/include/list.h` and `lib/freertos/portable/GCC/ARM_CM4/portmacro.h`.

## How it is built

What the source does step by step is a class whose methods update its fields in place: `List`
(list.c), `ListHeap` (all lists and items together), `Scheduler` (tasks.c, on such lists), `TimeoutState`, `Queue`
(the byte ring), `QueueState` (counts, locks and event lists), `SetState` (queue sets), `EventGroup`,
`TimerLists` and `Server` (the GDB server). Each method is proved equal to a function on values, and
the theorems are about those functions.

The concurrency of the source is a step machine: one step for each critical section, interrupt service
routine and tick, and for each test made outside a critical section, in any order the source allows
(`Enabled`), and the theorems hold over every run. A call with several critical sections is several
steps, between which anything else may happen: creating, deleting and suspending a task, removing a
queue from a set, and the calls that block. Time is unbounded behind the 32-bit tick count.

| file | about |
|---|---|
| `ListValue`, `LinkedList`, `ItemLists`, `ListHeap` | the pointer structure of a list, the sequence with a cursor it stands for, all the lists of the scheduler at once, and the linked structures that implement these |
| `Kernel` | the scheduler's state, every operation on it as a function, and the step machine |
| `KernelInvariant`, `KernelSteps`, `KernelTicks`, `KernelRuns` | the invariant, and that every step keeps it |
| `KernelTime` | delays and timeouts in unbounded time |
| `KernelPriority`, `KernelSelection`, `KernelSharing` | which task runs, and how tasks share the processor |
| `KernelEvents`, `KernelReport` | blocking and waking; the partition of the tasks and the system report |
| `KernelMoves`, `KernelEffects`, `KernelRequests` | what each step leaves alone, what it does to the tasks it is about, and when it asks for a switch |
| `TaskLists`, `SchedulerFacts`, `Scheduler` | tasks.c in place, on linked lists: what the lists stand for, what the operations find in them, and the operations |
| `TimeOuts` | timeouts across retries, and periodic delays |
| `QueueStorage`, `QueueProtocol`, `QueueAccounts`, `QueueTimeouts` | queue.c: the ring, the locking protocol, what its runs put in, take out and wake, and the blocking calls with their timeouts |
| `QueueSets`, `QueueSetOrder` | the sets: conservation, and the order of selection |
| `EventGroups`, `EventGroupBits`, `Barrier` | event_groups.c, the same bit by bit and over runs, and the rendezvous of `xEventGroupSync` |
| `Timers` | timers.c: the two timer lists |
| `Crc32`, `GdbPacket`, `GdbStreams`, `MemoryCrc` | the CRC, the framing of packets, what is accepted in a stream of characters, and the `qCRC` query (GDB manual, Appendix E, sections E.1 "Overview" and E.4 "General Query Packets") |

## What is not as one would expect

- A timeout is checked by comparing overflow counts and tick counts. It is wrong exactly when more
  than 2^32 ticks have passed since it was last set, the tick count now is below the one at entry, and
  the elapsed time modulo 2^32 is less than the wait (`TimeOuts.CheckIsWrongExactly`;
  `TimeOuts.CheckCanBeWrong` is an instance: 2^32 + 5 ticks into a wait of 10).
- `xQueueRemoveFromSet` tests that the queue is empty before it enters its critical section, and not in it.
  If something is sent to the queue in between, the queue leaves the set while its handle stays there, and
  a later message can find the set full (`QueueSets.UncleanRemovalRefuses` is such a run). A removal keeps
  the set in order exactly when the queue still holds nothing as it is taken out
  (`QueueSets.RemovalIsSafeExactly`), and so in every run if and only if all removals are such
  (`QueueSets.HandlesAreConserved`); it is enough that nobody sends to a queue that is being removed
  (`QueueSets.QuietRemovalsAreClean`).
- Giving a mutex lowers the running task to its base priority and requests no switch. The running task
  stays unrivalled exactly when a switch is under way already or nobody else is ready above its base
  priority (`KernelSelection.DisinheritRival`); `KernelSelection.MutexGiveLeavesRival` is a run in
  which somebody is.
- Overwriting the item of a full queue of length one replaces it, except when the items have no
  bytes: then the count goes past the length (`QueueStorage.OverwriteOfSemaphore`).
- `gdbserver_TransmitPacket` escapes nothing. What it sends arrives exactly when it contains neither
  `$` nor `#` and is at most 2095 bytes long (`GdbPacket.PlainRoundTrip`).

## Model

| member | source | states |
|---|---|---|
| `LinkedLists.List.constructor` | lib/freertos/list.c:75-92 | A new list is a ring of the end marker alone, empty, with the cursor on it. |
| `LinkedLists.List.InsertEnd` | lib/freertos/list.c:102-118 | Linking in front of the cursor keeps next and previous inverse on one ring, and inserts just before the cursor in the sequence the list stands for. |
| `LinkedLists.List.Insert` | lib/freertos/list.c:121-176 | The new item goes in front of the first larger value, also at `portMAX_DELAY`; a sorted list stays sorted; the ring, the count and the containers of the nodes on it stay in agreement. |
| `LinkedLists.List.FindPlace` | lib/freertos/list.c:121-176 | The search ends, and at the last node before which everything is at most the new value and after which the next is greater. |
| `LinkedLists.List.Remove` | lib/freertos/list.c:179-202 | Unlinking removes that item and no other, steps a cursor that rested on it back, clears the container and returns the number left. |
| `LinkedLists.List.NextEntry` | lib/freertos/include/list.h:268-279 | Reading the next entry advances the cursor by one item, skipping the end marker. |
| `ListValues.InsertKeepsSorted` | lib/freertos/list.c:121-176 | Sorted insertion keeps a list sorted and is stable: everything after the new item is strictly greater. |
| `ListValues.VisitLands` | lib/freertos/include/list.h:268-279 | Where the n-th advance from any cursor position lands. |
| `ListValues.AdvancesVisitEachOnce` | lib/freertos/tasks.c:282-294 | n advances over n items visit every item, and none twice, from any cursor position: tasks of equal priority take turns. |
| `ListValues.InsertEndIsReachedLast` | lib/freertos/list.c:102-118 | An item inserted at the cursor is reached after all others but the one the cursor rests on. |
| `ListValues.AdvanceTakesTurn` | lib/freertos/include/list.h:268-279 | Seen as the order in which the cursor will come to the items: an advance comes to the first and sends it to the back. |
| `ListValues.RemoveKeepsTurns` | lib/freertos/list.c:179-202 | A removal, also of the item the cursor rests on, changes nobody else's turn. |
| `ListValues.InsertEndKeepsTurns` | lib/freertos/list.c:102-118 | An insertion at the end comes behind everybody but the one the cursor rests on, and changes nobody else's turn. |
| `ListValues.InsertBeforeKeepsTurns` | lib/freertos/list.c:121-176 | Nor does sorted insertion. |
| `ListValues.InsertBeforeKeepsCursor` | lib/freertos/list.c:121-176 | A cursor that rests on an item stays on it. |
| `ListHeaps.ListHeap.Apart` | lib/freertos/list.c:102-202 | With all lists side by side, a node of one ring is on no other. |
| `ListHeaps.ListHeap.AddLast` | lib/freertos/list.c:102-118 | On the linked structures of all lists at once: a node in no list joins one ring before the cursor; every other ring stays as it is, every node whose container is a list is on the ring of that list, and the lists of items the structures stand for change as `ItemLists.AddLast` says. |
| `ListHeaps.ListHeap.AddSorted` | lib/freertos/list.c:121-176 | The same for sorted insertion, by the values of the nodes. |
| `ListHeaps.ListHeap.Without` | lib/freertos/list.c:179-202 | The same for removal, which finds the list through the container of the item; with an insertion after it, an item moves from one ring to another and both stay rings. |
| `ListHeaps.ListHeap.Next` | lib/freertos/include/list.h:268-279 | Advancing the cursor of one list moves nothing else, and gives the item the scheduler expects. |
| `ListHeaps.ListHeap.Head` | lib/freertos/include/list.h:298-298 | The item whose node comes after the end marker is the head of the list. |
| `ListHeaps.ListHeap.IsWithin` | lib/freertos/include/list.h:309-309 | A node whose container is a list is an item of that list, and the other way round. |
| `ListHeaps.ListHeap.SetValue` | lib/freertos/include/list.h:189-189 | Writing the value of an item, wherever it is, breaks no ring. |
| `ListHeaps.ListHeap.NewItem` | lib/freertos/list.c:95-99 | A new item is in no list. |
| `ListHeaps.ListHeap.NewList` | lib/freertos/list.c:75-92 | A new list is empty and shares nothing. |
| `KernelRuns.StepInv` | lib/freertos/tasks.c:515-3283 | Every step (critical section, interrupt, tick, context switch) keeps the scheduler invariant: each task in exactly one state list, bitmap exact, delayed lists in wake order, cache sound, counts right; so also between the two critical sections of a deletion or suspension. |
| `KernelRuns.ReachableInv` | lib/freertos/tasks.c:515-3283 | So every state reached from the creation of the first task, by any interleaving, has it. |
| `KernelSteps.StartInv` | lib/freertos/tasks.c:1454-1529 | Starting the scheduler, which creates the idle task and zeroes the tick count, establishes what only holds while it runs. |
| `KernelSteps.ReapInv` | lib/freertos/tasks.c:2839-2877 | Freeing a deleted task keeps the counts of tasks and of deleted tasks equal to the lengths of the lists. |
| `KernelReport.Partition` | lib/freertos/tasks.c:600-660 | In every reachable state each state item is in exactly one list, each event item in at most one, the lengths sum to `uxCurrentNumberOfTasks`, and `uxTasksDeleted` is the length of the termination list. |
| `KernelReport.ListReport` | lib/freertos/tasks.c:2949-3027 | So the report of one list names its tasks once each. |
| `KernelReport.ReportIsComplete` | lib/freertos/tasks.c:1745-1812 | A report made from all the lists names every task once, with its priorities and the state `eTaskGetState` would give (the running task counts as ready). |
| `KernelReport.StateMeans` | lib/freertos/tasks.c:939-1001 | For every task but the running one: the state given is "ready" exactly in a ready list, "blocked" exactly with a deadline or an event waited for, "suspended" exactly when really suspended, and "deleted" exactly in the termination list. |
| `Schedulers.Scheduler.ListWithin` | lib/freertos/tasks.c:2949-3027 | The walk of one linked list from the cursor to where it started makes one status per item, the i-th for the item the cursor visits i + 2 advances on, and leaves the cursor one past a full round. |
| `Schedulers.Scheduler.GetSystemState` | lib/freertos/tasks.c:1745-1812 | `uxTaskGetSystemState` returns such a report when the array is big enough and nothing otherwise, and changes only list cursors. |
| `KernelTicks.DelayedListEmptyAtSwitch` | lib/freertos/tasks.c:344-356 | When the tick count wraps, the delayed list is empty, as the switch of the lists asserts. |
| `KernelTicks.DueExactly` | lib/freertos/tasks.c:1883-1957 | The scan stops at the right place: what it wakes is due at this very tick and what it leaves is not due yet. |
| `KernelTicks.ProcessTickGood` | lib/freertos/tasks.c:1849-1959 | One processed tick keeps the invariant, advances unbounded time by one, and moves exactly the due tasks to the ready lists of their priorities. |
| `KernelTicks.GuardHidesNothing` | lib/freertos/tasks.c:1879-1883 | While the cached unblock time lies ahead, no delayed task is due. |
| `KernelTicks.GuardedScanIsUnguarded` | lib/freertos/tasks.c:1879-1957 | The guarded scan readies the same tasks as a scan on every tick would, and answers the same about a switch. |
| `KernelTime.CacheHidesNothing` | lib/freertos/tasks.c:3103-3125 | Over every run, `xNextTaskUnblockTime` is at most the wake value at the head of the delayed list, so every tick does what an unguarded one would. |
| `KernelTime.AdvancedDeadline` | lib/freertos/tasks.c:344-356 | Switching the lists at the wrap moves no deadline of unbounded time. |
| `KernelTime.TickMeetsDeadline` | lib/freertos/tasks.c:1849-1959 | A processed tick readies a timed task exactly when it is the tick of its deadline. |
| `KernelTime.StepMeetsDeadline` | lib/freertos/tasks.c:1849-2020 | Any step that does not itself cut the wait short leaves a timed task waiting for the same deadline, or processes the tick of its deadline and readies it. |
| `KernelTime.ReadyAtDeadline` | lib/freertos/tasks.c:1849-2020 | The same over whole runs, through any number of wraps and suspensions. |
| `KernelTime.DelaySetsDeadline` | lib/freertos/tasks.c:2880-2907 | Blocking for D ticks (1 <= D < 2^32) sets the deadline D ticks ahead, whichever delayed list the wake value goes to. |
| `KernelTime.TimeoutSetsDeadline` | lib/freertos/tasks.c:2171-2227 | Waiting on an event list with a timeout sets the deadline in the same way. |
| `KernelTime.DelayIsExact` | lib/freertos/tasks.c:873-932 | Over every run in which nothing else wakes it, a task delayed D ticks at tick T is still blocked before tick T + D and ready once that tick has been processed. |
| `KernelTime.NoTickIsLost` | lib/freertos/tasks.c:1628-1642 | Over every run, processed ticks plus `uxPendedTicks` are the tick interrupts taken, and the delayed list is empty at every switch. |
| `KernelTime.CatchUpMeetsDeadline` | lib/freertos/tasks.c:1628-1642 | Deferred ticks, processed at the end of a suspension, ready exactly the tasks whose deadlines they are. |
| `KernelPriority.StepNoRival` | lib/freertos/tasks.c:668-687 | Every step but the two of priority inheritance keeps: a switch is requested or pending, or no ready task has a higher priority than the running one, or the running one has just created a task of at least that priority and has yet to compare. |
| `KernelPriority.EndCreateNoRival` | lib/freertos/tasks.c:679-690 | The comparison after the critical section of a creation is enough, whatever has happened in between. |
| `KernelPriority.RunningTaskIsHighest` | lib/freertos/tasks.c:1031-1188 | In every state of every run without mutexes, and for every ready task: a switch is requested or pending, or the running task has at least its priority, or the running task is about to end a creation and will then yield. |
| `KernelSelection.ReadyListsMatchBitmap` | lib/freertos/tasks.c:311-336 | In every reachable state bit p is set exactly when ready list p is not empty, and everything in that list has priority p; so through priority changes and inheritance. The bound kept for the generic selection is at least every such p and is the number of a ready list. |
| `KernelRuns.SelectedIsHighest` | lib/freertos/tasks.c:315-323 | The selected task is ready and has the highest priority of all ready tasks. |
| `KernelSharing.TickSharesTime` | lib/freertos/tasks.c:1883-2019 | While nothing else calls for a switch, a tick asks for one if and only if some other ready task has at least the running priority: either just woken, or sharing its ready list. |
| `KernelSharing.EachTakesATurn` | lib/freertos/tasks.c:315-323 | With k tasks ready at the highest priority, k context switches run each of them once: an equal share of the processor. |
| `KernelSelection.InheritLends` | lib/freertos/tasks.c:3175-3231 | Blocking on a mutex gives its holder the higher of the two priorities, in the ready list of it, and changes nothing else about anybody. |
| `KernelSelection.DisinheritReturns` | lib/freertos/tasks.c:3238-3283 | Giving it back restores the holder to its own priority and ready list, and nothing else. |
| `KernelSelection.DisinheritRival` | lib/freertos/tasks.c:3238-3283 | Giving a mutex leaves the running task unrivalled if and only if a switch is under way or the ready lists above its base priority held nobody but itself. |
| `KernelSelection.MutexGiveLeavesRival` | lib/freertos/tasks.c:3238-3283 | A run, from the creation of the first task, in which giving a mutex leaves a ready task of higher priority and no switch requested: the priority was inherited from a task that blocked on the mutex and was then suspended. |
| `KernelEvents.ResumeUndoesSuspend` | lib/freertos/tasks.c:1195-1376 | A suspended task waits for nothing and has no deadline; resuming it makes it ready at its priority and on no event list. |
| `KernelEvents.WaitingForEvent` | lib/freertos/tasks.c:2171-2227 | The blocking task is no longer ready, its event item is in the event list at its place, and it is suspended for good exactly when the timeout is `portMAX_DELAY`. |
| `KernelEvents.HeadIsWoken` | lib/freertos/tasks.c:2341-2392 | The head waiter becomes ready at once and leaves the event list; nobody else is touched; a switch is pending if it has the higher priority. |
| `KernelEvents.HeadIsHeld` | lib/freertos/tasks.c:2341-2392 | While the scheduler is suspended it is held in the pending-ready list instead. |
| `KernelEvents.ResumeAllDelivers` | lib/freertos/tasks.c:1581-1671 | When the last suspension ends, every task held pending is ready, and no tick is left deferred. |
| `KernelEvents.EventValuesFollowPriorities` | lib/freertos/tasks.c:1031-1188 | Over every run without mutexes, an event item value is the task priority in reverse, unless an event group is using it. |
| `KernelEvents.ResetEventValueFollows` | lib/freertos/tasks.c:3546-3557 | Taking back the event item value restores that. |
| `KernelMoves.StepLeaves` | lib/freertos/tasks.c:515-3557 | Every step but a context switch leaves everybody alone whom it is not about: their lists, their order among themselves in every list, their turn, their item values and both their priorities. A tick is about the tasks whose deadline it is; the end of the last suspension about those held and those whose deadlines have passed. |
| `KernelMoves.CursorsRest` | lib/freertos/tasks.c:2230-2437 | Over every run the cursor of an event list rests on the end marker, so an item added last is the last of the list. |
| `KernelEffects.ClampLimits` | lib/freertos/tasks.c:2725-2733 | A priority above the highest becomes the highest, and no other changes. |
| `KernelEffects.BootRunsFirst` | lib/freertos/tasks.c:600-660 | The first task is alone, ready, and the one to run; all other lists are empty. |
| `KernelEffects.CreateMakesReady` | lib/freertos/tasks.c:600-690 | A new task is ready, behind those of its priority, with the priority asked for up to the highest as both its priorities, waits for nothing, is counted, and before the start is the one to run unless one created earlier outranks it. |
| `KernelEffects.EndCreateYields` | lib/freertos/tasks.c:679-690 | The comparison that ends a creation asks for a switch exactly when the new task has the higher priority. |
| `KernelEffects.StartMakesIdle` | lib/freertos/tasks.c:1454-1529 | The idle task is ready at priority zero when the scheduler starts, at tick zero. |
| `KernelEffects.DeleteTerminates` | lib/freertos/tasks.c:695-740 | A deleted task is last in the termination list, on no other list, and counted. |
| `KernelEffects.EndRemovalYields` | lib/freertos/tasks.c:745-770 | A task that deletes or suspends itself asks for a switch; otherwise the cached unblock time becomes the least wake time in the delayed list, and nothing else changes. |
| `KernelEffects.ReapFrees` | lib/freertos/tasks.c:2839-2877 | The idle task frees the task that was deleted first, and the others stay in order. |
| `KernelEffects.SuspendRetires` | lib/freertos/tasks.c:1195-1277 | A suspended task is last in the suspended list and on no other. |
| `KernelEffects.ResumeReadies` | lib/freertos/tasks.c:1330-1376 | A task really suspended becomes ready, behind those of its priority, and a switch is asked for exactly if it has at least the running priority; any other is left alone. |
| `KernelEffects.ResumeFromISRReadies` | lib/freertos/tasks.c:1384-1445 | From an interrupt the same; while the scheduler is suspended the task is held instead, behind those held before it, and no switch is asked for. |
| `KernelEffects.ResumeFromISRUndoesSuspend` | lib/freertos/tasks.c:1384-1445 | A task suspended and then resumed by an interrupt is ready at once or, if that happens in a suspension of the scheduler, exactly when the suspension ends. |
| `KernelEffects.SetPriorityTakesEffect` | lib/freertos/tasks.c:1031-1188 | The base priority becomes the one asked for, up to the highest; the priority in use follows unless it is inherited; a ready task goes to the back of its new list; a switch is asked for exactly if the task reaches the running priority, or is the running one and was lowered. |
| `KernelEffects.InheritTakesEffect` | lib/freertos/tasks.c:3175-3231 | The holder of a mutex takes the running priority exactly if that is higher, goes to the back of the ready list of it if it is ready, and keeps its base priority. |
| `KernelEffects.DisinheritTakesEffect` | lib/freertos/tasks.c:3238-3283 | Giving the mutex back takes the running task to the back of the ready list of its base priority; without an inherited priority nothing happens. |
| `KernelEffects.DelayBlocks` | lib/freertos/tasks.c:2880-2907 | A delay puts the running task into a delayed list at the place of its wake time, behind equal ones, with the deadline that many ticks ahead; the cached unblock time follows exactly if that is the least of the present epoch. |
| `KernelEffects.PlaceOnEventWaits` | lib/freertos/tasks.c:2171-2227 | A wait on an ordered event list: the event item at the place of its value, behind equal ones; the task suspended if and only if the timeout is `portMAX_DELAY`, and otherwise with its deadline. |
| `KernelEffects.PlaceOnUnorderedWaits` | lib/freertos/tasks.c:2230-2293 | A wait on an unordered event list: the event item behind those already there, with the value given and marked as in use; the task no longer ready, suspended if and only if the timeout is `portMAX_DELAY`, and otherwise in a delayed list with its deadline that many ticks ahead. |
| `KernelEffects.GroupWait` | lib/freertos/tasks.c:2230-2293 | In every reachable state: such a wait ends last in the list, with the value, and suspended or with its deadline. |
| `KernelEffects.TimeoutIsExact` | lib/freertos/tasks.c:2171-2293 | Over every run in which nothing else wakes it, a task that waits on a queue or an event group with a timeout waits until its deadline and is ready after the tick that is its deadline. |
| `KernelEffects.RemoveFromEventWakes` | lib/freertos/tasks.c:2341-2392 | The first waiter is readied behind those of its priority or, while the scheduler is suspended, held behind those held before; a yield is pending afterwards exactly if it was or the waiter has the higher priority. |
| `KernelEffects.RemoveFromUnorderedWakes` | lib/freertos/tasks.c:2395-2437 | The waiter is readied, its event item value is the one given, marked as in use, and a yield is pending afterwards exactly if it was or the waiter has the higher priority. |
| `KernelEffects.ResetEventValueReads` | lib/freertos/tasks.c:3546-3557 | Taking the value back writes the reversed priority of the running task and nothing else. |
| `KernelEffects.TickQueues` | lib/freertos/tasks.c:1883-1957 | A processed tick readies those due in the order in which they stand in the delayed list, each behind all that are ready at its priority. |
| `KernelEffects.TickCachesLeast` | lib/freertos/tasks.c:1849-1957 | A tick that scans the delayed list, or switches the lists, leaves the cached unblock time at the least wake time of the delayed list; any other tick leaves it and the lists as they are. |
| `KernelEffects.ReleaseQueues` | lib/freertos/tasks.c:1593-1626 | The end of a suspension readies those held in the order in which they were held. |
| `KernelRequests.TickCallsForSwitch` | lib/freertos/tasks.c:1883-2010 | A processed tick calls for a switch exactly if a task whose deadline it is has at least the running priority, another task is ready at the running priority, or a yield was pending. |
| `KernelRequests.TickAsksExactly` | lib/freertos/tasks.c:1849-2019 | So with the tick interrupt; while the scheduler is suspended it only counts the tick, and asks for a switch exactly if a yield is pending. |
| `KernelRequests.ResumeAllAsksExactly` | lib/freertos/tasks.c:1581-1671 | The end of the last suspension asks for a switch exactly if a yield was pending, a task held or come due meanwhile has at least the running priority, or a tick was deferred and another task is ready at the running priority; the end of an inner one does nothing but count. |
| `KernelRequests.SwitchTakesNext` | lib/freertos/tasks.c:2113-2168 | A context switch runs the task whose turn is next at the highest occupied priority, sends it to the back and touches no other list; while the scheduler is suspended it is put off. |
| `KernelRequests.RequestsOnly` | lib/freertos/tasks.c:2497-2500 | A yield, a missed yield and the start of a suspension leave their mark and nothing else. |
| `KernelRequests.NewListIsEmpty` | lib/freertos/queue.c:255-300 | A new event list is empty and the others stay as they are. |
| `KernelRequests.StepKeepsRunning` | lib/freertos/tasks.c:515-3557 | Once the scheduler runs, only a context switch changes the running task, and only the two calls for it the depth of suspension. |
| `KernelRequests.SuspensionsNest` | lib/freertos/tasks.c:1543-1671 | Over every run the depth of suspension is the suspensions begun less those ended. |
| `TaskLists.MakeLists` | lib/freertos/tasks.c:2807-2839 | The lists made at the start are the ready lists of every priority and the five others, all empty. |
| `Schedulers.Scheduler.constructor` | lib/freertos/tasks.c:555-660 | The first creation: the lists are made and the task put into them; the state is the first of every run, and the linked lists stand for its lists. |
| `Schedulers.Scheduler.Append` | lib/freertos/list.c:102-118 | The linked lists stand for the scheduler's lists before and after: insertion at the end. |
| `Schedulers.Scheduler.InsertSorted` | lib/freertos/list.c:121-176 | The same for sorted insertion. |
| `Schedulers.Scheduler.TakeOut` | lib/freertos/list.c:179-202 | The same for removal, whose result is the length of the list that is left. |
| `Schedulers.Scheduler.NextOwner` | lib/freertos/include/list.h:268-279 | The same for the advance of a cursor, whose result is the item it comes to. |
| `Schedulers.Scheduler.NewEventList` | lib/freertos/queue.c:255-300 | A new, empty event list, next to all others. |
| `Schedulers.Scheduler.Perform` | lib/freertos/tasks.c:555-3557 | Every step the source can take, in any state, is carried out in place on the linked lists exactly as the step machine says; with the constructor for the first state, the theorems over all runs are about these lists and variables. |
| `Schedulers.Scheduler.StartScheduler` | lib/freertos/tasks.c:1454-1531 | The idle task is created, the tick count is zero, and the invariant of the running scheduler holds. |
| `Schedulers.Scheduler.RemoveState` | lib/freertos/tasks.c:330-336 | Removing a state item from a list clears the bit of a ready list that becomes empty, and of no other. |
| `Schedulers.Scheduler.Scan` | lib/freertos/tasks.c:1883-1957 | The loop over the delayed list, a linked list that shrinks under it, performs the whole expiry, and reports a switch exactly when one of the tasks woken has at least the running priority. |
| `Schedulers.Scheduler.IncrementTick` | lib/freertos/tasks.c:1849-2020 | Processes the tick, or defers it while the scheduler is suspended; what it returns is exactly when a switch is called for. |
| `Schedulers.Scheduler.TickHandler` | lib/freertos/tasks.c:1849-2020 | The tick interrupt in place, with the invariant. |
| `Schedulers.Scheduler.ResumeAll` | lib/freertos/tasks.c:1581-1671 | Both loops in place: the held wake-ups and then the deferred ticks, as the value function says, for which the theorems on time, priority and delivery hold. |
| `Schedulers.Scheduler.SwitchTask` | lib/freertos/tasks.c:2113-2168 | Selection by the bitmap. |
| `Schedulers.Scheduler.GenericScan` | lib/freertos/tasks.c:282-294 | The generic downward scan of the list lengths stays inside the array of ready lists, ends before running out of priorities, and ends at the highest bit of the port-optimised bitmap. |
| `Schedulers.Scheduler.SwitchTaskGeneric` | lib/freertos/tasks.c:282-294 | Selection by the downward scan, proved to reach the same state as selection by the bitmap. |
| `Schedulers.Scheduler.Create` | lib/freertos/tasks.c:600-690 | Creation in place: the counts, the running task before the start, the ready list; then the comparison with the running task, and the switch. |
| `Schedulers.Scheduler.Delete` | lib/freertos/tasks.c:695-770 | Deletion in place: out of both lists, into the termination list; then a switch, or the cache recomputed. |
| `Schedulers.Scheduler.FreeDeleted` | lib/freertos/tasks.c:2839-2877 | The idle task frees one deleted task. |
| `Schedulers.Scheduler.Suspend` | lib/freertos/tasks.c:1195-1277 | Suspension in place: out of both lists, into the suspended list; then a switch, or the cache recomputed. |
| `Schedulers.Scheduler.Resume` | lib/freertos/tasks.c:1330-1376 | Resumption in place, only of a task that is really suspended. |
| `Schedulers.Scheduler.ResumeFromISR` | lib/freertos/tasks.c:1384-1445 | The same from an interrupt: at once, or held while the scheduler is suspended. |
| `Schedulers.Scheduler.PrioritySet` | lib/freertos/tasks.c:1031-1188 | A change of priority in place: an inherited priority stays, the base priority changes, a ready task changes lists, and a switch is requested in exactly the four cases. |
| `Schedulers.Scheduler.PriorityInherit` | lib/freertos/tasks.c:3175-3231 | The holder takes the running priority if it is higher, and changes ready lists. |
| `Schedulers.Scheduler.PriorityDisinherit` | lib/freertos/tasks.c:3238-3283 | The running holder goes back to its base priority and to the ready list of it. |
| `Schedulers.Scheduler.PlaceOnEventList` | lib/freertos/tasks.c:2171-2227 | Into the event list by value, out of the ready list, and blocked with or without a deadline. |
| `Schedulers.Scheduler.PlaceOnUnorderedEventList` | lib/freertos/tasks.c:2230-2293 | Into the event list at the end, with the value marked as in use, out of the ready list, and blocked with or without a deadline, as `KernelEffects.PlaceOnUnorderedWaits` says. |
| `Schedulers.Scheduler.RemoveFromEventList` | lib/freertos/tasks.c:2341-2392 | The head waiter in place; the result says whether it has the higher priority. |
| `Schedulers.Scheduler.RemoveFromUnorderedEventList` | lib/freertos/tasks.c:2395-2437 | A given waiter is woken with a value stored for it. |
| `Schedulers.Scheduler.ResetEventItemValue` | lib/freertos/tasks.c:3546-3557 | Returns the value stored for the running task and makes it the reversed priority again. |
| `Schedulers.Scheduler.Delay` | lib/freertos/tasks.c:873-932 | `vTaskDelay`: nothing but a switch for zero ticks, else blocking with the scheduler suspended, its end, and a switch. |
| `Schedulers.Scheduler.DelayUntil` | lib/freertos/tasks.c:777-866 | `vTaskDelayUntil`: stores the next wake time whatever happens, and blocks up to it exactly when the modular test says so. |
| `Schedulers.PeriodicDeadline` | lib/freertos/tasks.c:777-866 | In unbounded time the deadline so set is the previous wake time plus the increment, whatever the tick count did in between. |
| `TimeOuts.TimeoutState.CheckForTimeOut` | lib/freertos/tasks.c:2448-2494 | The check in place. |
| `TimeOuts.CheckIsWrongExactly` | lib/freertos/tasks.c:2448-2494 | One check, after any time: it tells rightly whether the whole wait has passed if and only if it is not the case that more than 2^32 ticks have gone by, to a lower tick count, and a remainder less than the wait. |
| `TimeOuts.CheckRestarts` | lib/freertos/tasks.c:2448-2494 | Whatever time has gone by: a check that expires changes nothing, and any other counts from now on, with some of the wait left. |
| `TimeOuts.CheckCanBeWrong` | lib/freertos/tasks.c:2448-2494 | An instance of a wrong answer. |
| `TimeOuts.CheckInTime` | lib/freertos/tasks.c:2440-2494 | Within 2^32 ticks the answer is right, and what remains plus what has elapsed is the wait. |
| `TimeOuts.TimedBlockingIsExact` | lib/freertos/tasks.c:2440-2494 | Over any series of checks at most 2^32 ticks apart: remaining plus elapsed is the wait asked for, and the last check times out exactly once the wait has passed. |
| `TimeOuts.MaxDelayNeverTimesOut` | lib/freertos/tasks.c:2455-2467 | A wait of `portMAX_DELAY` never times out and is never adjusted. |
| `TimeOuts.DelaysUntilWakeTime` | lib/freertos/tasks.c:777-866 | For a previous wake time at most now and less than 2^32 ticks ago: `vTaskDelayUntil` blocks exactly when the next wake time is still to come, and for what is left. |
| `TimeOuts.NoDrift` | lib/freertos/tasks.c:777-866 | After n calls the stored wake time is the first plus n increments, whatever the times of the calls. |
| `TimeOuts.DeadlinesFormAGrid` | lib/freertos/tasks.c:777-866 | So the n-th call blocks exactly until the n-th point of the grid. |
| `QueueStorage.WriteBackAppends` | lib/freertos/queue.c:1594-1661 | A write at the back appends to the sequence of items, across the wrap or not. |
| `QueueStorage.WriteFrontPrepends` | lib/freertos/queue.c:1594-1661 | A write at the front prepends. |
| `QueueStorage.ReadFrontPops` | lib/freertos/queue.c:1664-1683 | A read takes the front item and leaves the rest in order. |
| `QueueStorage.FirstInFirstOut` | lib/freertos/queue.c:593-665 | Over every series of uses that sends to the back: the items taken out, followed by those held, are the items put in, in order. |
| `QueueStorage.FrontIsNext` | lib/freertos/queue.c:593-665 | An item sent to the front is the next to be taken and leaves the rest as it was; one that overwrites is the next to be taken and leaves nothing. |
| `QueueStorage.OverwriteReplaces` | lib/freertos/queue.c:1594-1661 | In a ring of one slot an overwrite leaves exactly the new item, whatever was there. |
| `QueueStorage.OverwriteOfSemaphore` | lib/freertos/queue.c:1594-1661 | For items without bytes, what happens is what a send should do if and only if it is not an overwrite of a queue that holds something. |
| `QueueStorage.Queue.constructor` | lib/freertos/queue.c:255-371 | A new queue is empty, for every length and item size. |
| `QueueStorage.Queue.CopyTo` | lib/freertos/queue.c:1594-1661 | The byte pointers and the copy in place refine append, prepend and replace. |
| `QueueStorage.Queue.CopyFrom` | lib/freertos/queue.c:1664-1683 | What is copied out is the front item. |
| `QueueStorage.Queue.Send` | lib/freertos/queue.c:593-665 | A send is refused exactly when the queue is full and nothing is to be overwritten, and then changes nothing. Otherwise the items are what a send should leave if and only if the items have bytes, or it is no overwrite, or the queue was empty. |
| `QueueStorage.OverwriteFullSemaphore` | lib/freertos/queue.c:1594-1661 | The failing call on a queue: overwriting a full semaphore leaves two messages in a queue of length one. |
| `QueueStorage.Queue.Receive` | lib/freertos/queue.c:1196-1246 | A receive pops the front item, a peek gives the same item and changes nothing, an empty queue gives nothing. |
| `QueueProtocol.NoWakeupIsLost` | lib/freertos/queue.c:593-777 | Over every interleaving of task and interrupt sends, receives, peeks, timeouts, locks and unlocks: while a receiver waits, the messages are at most the receivers woken but not yet run plus `xTxLock`, and so for senders; once all is quiet, a receiver waits only on an empty queue and a sender only on a full one. |
| `QueueAccounts.MessagesBalance` | lib/freertos/queue.c:593-1442 | Conservation over every run: the messages put in by tasks and interrupts (not counting an overwrite of a held one) are those taken out by tasks and interrupts (not counting peeks) and those the queue holds, which are never more than its length. |
| `QueueAccounts.StepWakes` | lib/freertos/queue.c:600-1442 | Every step wakes exactly as many tasks, from the heads of the two event lists, as there is something for: one for a message put in, left by a peek or taken out, one for each the lock has recorded as it is released, and none while it is held, when it is counted instead. |
| `QueueAccounts.PlaceJoins` | lib/freertos/queue.c:1302-1345 | A task joins the event list of its kind, behind all that are at least as urgent, and wakes nobody. |
| `QueueAccounts.TimeoutLeaves` | lib/freertos/tasks.c:1883-1957 | A timeout takes its task off the event list and changes nothing else. |
| `QueueAccounts.WokenMostUrgent` | lib/freertos/queue.c:600-665 | Over every run, with priorities unchanged, whoever a step wakes is at least as urgent as whoever it leaves waiting. |
| `QueueAccounts.AttemptEnds` | lib/freertos/queue.c:600-725 | An attempt ends the call exactly if there is room, or a message, or no will to wait. |
| `QueueAccounts.WaitsOrRetries` | lib/freertos/queue.c:1302-1345 | A call that has locked the queue joins the event list exactly if the queue is still full, or empty, and else tries again. |
| `QueueAccounts.GivesUp` | lib/freertos/queue.c:730-775 | It gives up exactly when its time has run out. |
| `QueueAccounts.CallsEnd` | lib/freertos/queue.c:593-777 | So a call ends by going through, by not being willing to wait, or by its time having run out, and nothing another task or an interrupt does makes it fail. |
| `QueueProtocol.StepInv` | lib/freertos/queue.c:1169-1355 | Every step keeps the invariant behind that. |
| `QueueProtocol.AttemptLosesNothing` | lib/freertos/queue.c:1196-1246 | A woken task that runs takes what it was woken for or passes the wake-up on. |
| `QueueProtocol.PlaceInv` | lib/freertos/queue.c:1302-1345 | A task joins an event list only while the lock records what interrupts do, so nothing sent in between is missed. |
| `QueueProtocol.UnlockTxInv` | lib/freertos/queue.c:1686-1768 | Releasing the transmit lock wakes a receiver for every recorded send while any waits. |
| `QueueProtocol.UnlockRxInv` | lib/freertos/queue.c:1771-1797 | Releasing the receive lock wakes a sender for every recorded receive while any waits. |
| `QueueProtocol.SendFromISRInv` | lib/freertos/queue.c:1025-1166 | An interrupt that sends while the queue is locked touches no event list and is recorded. |
| `QueueProtocol.ReceiveFromISRInv` | lib/freertos/queue.c:1358-1442 | An interrupt that receives while the queue is locked touches no event list and is recorded, and the invariant is kept; that it takes exactly one message is `QueueAccounts.MessagesBalance`. |
| `QueueProtocol.MostUrgentFirst` | lib/freertos/queue.c:600-665 | Over every run, with priorities unchanged, whoever is woken has the highest priority of those waiting. |
| `QueueProtocol.QueueState.UnlockTransmit` | lib/freertos/queue.c:1686-1768 | The loop over the recorded sends stops early only when nobody is left to wake. |
| `QueueProtocol.QueueState.UnlockReceive` | lib/freertos/queue.c:1771-1797 | The loop over the recorded receives likewise. |
| `QueueProtocol.QueueState.LockQueue` | lib/freertos/queue.c:240-252 | Locking starts to record sends and receives, and keeps what a nested lock has recorded. |
| `QueueProtocol.QueueState.UnlockQueue` | lib/freertos/queue.c:1686-1798 | Both, in order, with both locks off in the end. |
| `QueueProtocol.QueueState.SendByTask` | lib/freertos/queue.c:606-665 | A send by a task: refused when full, else counted, with one receiver woken. |
| `QueueProtocol.QueueState.ReceiveByTask` | lib/freertos/queue.c:1181-1246 | A receive wakes a sender; a peek leaves the message and wakes the next receiver. |
| `QueueProtocol.QueueState.SendInISR` | lib/freertos/queue.c:1052-1160 | A send by an interrupt wakes a receiver, or is recorded while the queue is locked. |
| `QueueProtocol.QueueState.ReceiveInISR` | lib/freertos/queue.c:1388-1438 | A receive by an interrupt takes one message exactly if there is one, and wakes a sender or is recorded while the queue is locked. |
| `QueueTimeouts.TimedCallsAreExact` | lib/freertos/queue.c:593-777 | Over every run of the retry loops of send and receive, with no more than 2^32 ticks between two checks of a call: whoever has reported full or empty had waited at least as long as it asked to, and did not ask for ever; whoever still waits has left what it has not waited; and a check expires exactly when the whole wait has passed. |
| `QueueTimeouts.CheckTells` | lib/freertos/queue.c:730-775 | In any such state, what the check of the timeout says is exact. |
| `QueueTimeouts.AttemptInv` | lib/freertos/queue.c:612-725 | An attempt succeeds, or reports at once for a wait of zero, or sets the entry time, the first time only. |
| `QueueTimeouts.AttemptSettles` | lib/freertos/queue.c:612-725 | What an attempt does, exactly: success without a report; a report at once for a wait of zero; else the entry time, set once and kept. |
| `QueueTimeouts.CheckFails` | lib/freertos/queue.c:730-775 | A check makes the call fail exactly when the wait asked for has passed. |
| `QueueTimeouts.FailingReports` | lib/freertos/queue.c:760-777 | A call that is failing goes on failing whatever else happens, until it reports, with the time it has waited. |
| `QueueTimeouts.TimedRunIsRun` | lib/freertos/queue.c:1169-1355 | The runs with timeouts are runs of the locking protocol, so no wake-up is lost in them either. |
| `QueueSets.HandlesAreConserved` | lib/freertos/queue.c:1697-1767 | Over every run: in every state each message of each member is represented once (by a handle in the set, a send its lock has recorded, or a selection not yet followed by a receive) if and only if every removal of the run takes out a queue that holds nothing by then. |
| `QueueSets.SetNeverRefuses` | lib/freertos/queue.c:2357-2395 | In such runs, and so in all without removals, the room test never fails. |
| `QueueSets.RemovalIsSafeExactly` | lib/freertos/queue.c:2295-2324 | The critical section of a removal keeps the set in order if and only if the queue still holds no message. |
| `QueueSets.RemovalIsSafeIfNobodySends` | lib/freertos/queue.c:2295-2324 | For a queue neither received from nor locked meanwhile, that is if and only if nobody sends to it between the test and the critical section. |
| `QueueSets.QuietRemovalsAreClean` | lib/freertos/queue.c:2295-2324 | Over every run in which nobody sends to a queue that is being removed, every removal is safe and the set stays in order. |
| `QueueSets.UncleanRemovalRefuses` | lib/freertos/queue.c:2295-2324 | A run in which an interrupt sends in between, and the set later refuses a handle. |
| `QueueSets.StepInv` | lib/freertos/queue.c:620-665 | Every other step keeps the set in order. |
| `QueueSets.NotifyInv` | lib/freertos/queue.c:2357-2395 | A member posts its handle on account of a message nothing else stands for. |
| `QueueSets.RoomForHandle` | lib/freertos/queue.c:2357-2395 | When it does, the set has room. |
| `QueueSets.TotalIsLength` | lib/freertos/queue.c:2331-2341 | The handles in the set, counted by member, are all its handles. |
| `QueueSets.UnlockInv` | lib/freertos/queue.c:1697-1767 | Unlocking a member posts its handle once for every recorded send. |
| `QueueSets.AddInv` | lib/freertos/queue.c:2262-2288 | Only an empty queue in no set can be added. |
| `QueueSets.SelectInv` | lib/freertos/queue.c:2331-2341 | Selecting keeps the set in order: the message the handle stood for is represented by the selection instead. |
| `QueueSetOrder.StepHandles` | lib/freertos/queue.c:2331-2395 | Every step, exactly: a selection takes the oldest handle out, and a post puts handles behind all others or, from a send to the front, in front of them, as far as there is room. |
| `QueueSetOrder.SelectedInOrder` | lib/freertos/queue.c:2331-2395 | Over every run: the handles selected so far, followed by those in the set, are the handles posted, each in the turn it was given. |
| `QueueSetOrder.FirstPostedFirstSelected` | lib/freertos/queue.c:2331-2395 | So in runs that post to the back only they are the handles in the order posted. |
| `QueueSetOrder.StepQueues` | lib/freertos/queue.c:600-1442 | What every step does to the messages, the lock and the selections of every queue; a selection counts for the queue whose handle is the oldest, and for no other. |
| `QueueSetOrder.StepMembers` | lib/freertos/queue.c:2262-2324 | A queue becomes a member only by being added while it is in no set and empty, and stops being one only by being taken out. |
| `QueueSetOrder.RemovalGoesOn` | lib/freertos/queue.c:2295-2324 | A removal goes on to its critical section exactly for a member that is empty when that is tested. |
| `QueueSetOrder.MemberBalance` | lib/freertos/queue.c:593-1442 | Over every run the messages got into a queue are those taken out of it and those it holds. |
| `QueueSets.SetState.UnlockMember` | lib/freertos/queue.c:1697-1767 | The transmit loop of the unlock, for a member, in place. |
| `EventGroups.ScanReadsWait` | lib/freertos/event_groups.c:500-549 | The scan reads back from an event item value exactly the mask and the two options a waiting task gave. |
| `EventGroups.ClearedExactly` | lib/freertos/event_groups.c:505-549 | The bits to clear are the union of the masks of the woken tasks that clear on exit, whatever the order of the list. |
| `EventGroups.WokenWithSameValue` | lib/freertos/event_groups.c:531-549 | Every woken task gets the same value, and no other task is touched. |
| `EventGroups.SetBitsWakes` | lib/freertos/event_groups.c:474-564 | One waiting task: woken exactly when the scan matches it. |
| `EventGroups.SetBitsWakesExactly` | lib/freertos/event_groups.c:474-564 | In every reachable state a blocked task is woken exactly when the old bits with the new ones meet its condition, and its call returns that value; otherwise it goes on waiting. |
| `EventGroups.SetBitsClearsExactly` | lib/freertos/event_groups.c:531-559 | A bit goes exactly when a woken task waited for it and clears on exit. |
| `EventGroups.NobodyWaitsInVain` | lib/freertos/event_groups.c:270-354 | Over every run of sets, clears, waits, rendezvous and timeouts, no task waits whose condition the bits meet. |
| `EventGroupBits.MetExactly` | lib/freertos/event_groups.c:606-638 | A wait for all is met exactly when every bit of the mask is set, a wait for any exactly when some bit is. |
| `EventGroupBits.StepBits` | lib/freertos/event_groups.c:154-564 | Every step, bit by bit: a bit is set afterwards if and only if it was set or is given and is not taken. A clear takes the bits given to it; a satisfied wait, at once, when woken or at its timeout, takes its mask if it clears on exit and nothing otherwise; a complete rendezvous takes its mask; nothing else takes any. |
| `EventGroupBits.BitsAreAccounted` | lib/freertos/event_groups.c:154-564 | Over every run a bit is set if and only if some call set it and nothing has taken it since. |
| `EventGroupBits.StepStanding` | lib/freertos/event_groups.c:154-564 | Every step: a task blocks only in a call of its own that is not met at once, is woken exactly by bits that meet its condition or by its own timeout, and is done when it runs; nobody else's standing changes. |
| `EventGroupBits.WokenReturns` | lib/freertos/event_groups.c:361-411 | Over every run: what a woken task returns are the bits that met its condition, as they were before any were cleared, whatever has happened since. |
| `EventGroupBits.TimedOutReturns` | lib/freertos/event_groups.c:373-398 | What a task returns that timed out are the bits of the moment. |
| `EventGroupBits.StepOrder` | lib/freertos/event_groups.c:500-549 | Those that wait on keep their order, and whoever starts to wait is behind them. |
| `EventGroups.StepInv` | lib/freertos/event_groups.c:154-440 | Every step keeps that, and keeps the waiting list the list of the blocked tasks. |
| `EventGroups.EventGroup.SetEventBits` | lib/freertos/event_groups.c:474-561 | What the call does while the scheduler is suspended: the scan in place, over a list that shrinks under it. |
| `EventGroups.EventGroup.ClearEventBits` | lib/freertos/event_groups.c:417-440 | Clears the bits given, and no others, and returns the bits as they were. |
| `EventGroups.EventGroup.WaitForBits` | lib/freertos/event_groups.c:270-354 | Blocks exactly when the condition is not met and there is time to wait; otherwise returns the bits before any are cleared. A wait that is met clears its mask exactly if it clears on exit, and no other bit. |
| `EventGroups.EventGroup.SyncWith` | lib/freertos/event_groups.c:154-217 | Completes, blocks or gives up, and what it returns in each case. |
| `Barrier.CompleteWhenAllInside` | lib/freertos/event_groups.c:173-185 | The test for completion holds exactly when every task is in the round. |
| `Barrier.EnterCompletes` | lib/freertos/event_groups.c:173-185 | The last to arrive wakes everybody with the full mask and leaves no bit set. |
| `Barrier.EnterWaits` | lib/freertos/event_groups.c:186-209 | Any other joins those waiting and wakes nobody. |
| `Barrier.StepInv` | lib/freertos/event_groups.c:154-267 | Every call and every return keeps each task in the round being gathered, on its way out of the last, or outside. |
| `Barrier.BarrierIsSafe` | lib/freertos/event_groups.c:154-267 | Over every run of tasks that each own bits of one mask: no task has left more rounds than any other has entered, each that left saw the full mask, and the mask is clear between rounds. |
| `Timers.ClassifiesUnboundedTime` | lib/freertos/timers.c:540-578 | For a command less than 2^32 ticks old: "process now" exactly when the expiry has come, the current list exactly when it is still to come in this epoch, the overflow list exactly when in the next. |
| `Timers.TimerLists.InsertTimerInActiveList` | lib/freertos/timers.c:540-578 | The insertion in place, into the list so chosen and in order of expiry. |
| `Timers.InsertedBehindEqual` | lib/freertos/timers.c:540-578 | The place in the list: behind all that expire no later, in front of all others, which keep their order. |
| `Timers.TimerLists.SwitchTimerLists` | lib/freertos/timers.c:707-763 | Every expiry left in the ended epoch is acted on, once and in order of time; every auto-reload timer gets one command, with the time of its last expiry; the lists change places. |
| `Timers.PassAccounted` | lib/freertos/timers.c:718-758 | One pass keeps: what each timer has expired so far and what is to come are all its expiries of the epoch. |
| `Timers.ExpiriesAreMultiples` | lib/freertos/timers.c:718-758 | Those expiries are the multiples of the period up to the wrap, and the next lies beyond it; a one-shot timer has one. |
| `Crc32.TableDivides` | leash/src/thirdparty/crc32.c:14-58 | Every entry of the 256 is what eight steps of division by 0x04C11DB7 make of its index. |
| `Crc32.TableStepIsDivision` | leash/src/thirdparty/crc32.c:60-67 | One table step is the division of the register by the eight bits of a byte, most significant first. |
| `Crc32.TableCrcIsDivision` | leash/src/thirdparty/crc32.c:60-67 | So the table CRC is bitwise division for every byte sequence and seed. |
| `Crc32.Crc` | leash/src/thirdparty/crc32.c:60-67 | The loop computes it. |
| `Crc32.DividedInPieces` | leash/src/gdbserver/gdbserver.c:1027-1063 | A CRC can be carried from one piece of a message to the next. |
| `Crc32.MemCrc` | leash/src/gdbserver/gdbserver.c:1027-1051 | Read in blocks of at most 2048 bytes, a region of any length, also one that runs past the last 32-bit address, has the CRC of the whole, or the command fails when some of it cannot be read. |
| `Crc32.RegionIsContiguous` | leash/src/gdbserver/gdbserver.c:1033-1050 | A region that does not run past the last address is the bytes from its first address on. |
| `Crc32.RegionWraps` | leash/src/gdbserver/gdbserver.c:1033-1050 | A region that runs past the last address goes on from the first. |
| `MemoryCrc.DoMemCrc` | leash/src/gdbserver/gdbserver.c:1027-1063 | What is sent is the frame of `C` and the eight hex digits of that CRC, or nothing when some of the region cannot be read. |
| `MemoryCrc.ReadBack` | leash/src/gdbserver/gdbserver.c:1053-1058 | The nine characters of the reply read back as the CRC. |
| `MemoryCrc.MostSignificantFirst` | leash/src/gdbserver/gdbserver.c:1053-1058 | The bytes are printed from the most significant on. |
| `MemoryCrc.QueryIsAnswered` | leash/src/gdbserver/gdbserver.c:1027-1063 | A receiver of the frame accepts exactly one packet, and reads in it the bitwise CRC of the bytes of the region. |
| `GdbPacket.TransmitBinaryPacket` | leash/src/gdbserver/gdbserver.c:296-328 | What is sent is the frame of the escaped bytes, with their sum modulo 256. |
| `GdbPacket.TransmitPacket` | leash/src/gdbserver/gdbserver.c:272-294 | What is sent is the frame of the string up to its zero, unescaped. |
| `GdbPacket.EscapedHasNoMarkers` | leash/src/gdbserver/gdbserver.c:296-328 | Escaping leaves no frame marker in the body. |
| `GdbStreams.EscapedExactly` | leash/src/gdbserver/gdbserver.c:296-328 | Escaping costs one byte for each of the four special characters, changes nothing without one, and leaves no `*`. |
| `GdbStreams.FlipTurnsOneBit` | leash/src/gdbserver/gdbserver.c:296-328 | An escaped byte differs from the original by 32. |
| `GdbPacket.CharKeepsInv` | leash/src/gdbserver/gdbserver.c:388-459 | One character keeps the index inside the buffer and the checksum the sum of what is stored. |
| `GdbPacket.EveryStreamIsSafe` | leash/src/gdbserver/gdbserver.c:388-459 | So does every input stream, and whatever is accepted fits and contains no marker. |
| `GdbPacket.EveryServiceIsSafe` | leash/src/gdbserver/gdbserver.c:812-925 | So does every run in which, between packets, the handler of the last one changes the packet buffer, resets the index or awaits an acknowledgement; and after any such run a frame that fits is accepted as one packet. |
| `GdbPacket.FrameAccepted` | leash/src/gdbserver/gdbserver.c:388-459 | A frame whose body has no marker and at most 2095 bytes is accepted: one acknowledgement and exactly one packet, with that body, ended by a zero. |
| `GdbStreams.FrameAnswered` | leash/src/gdbserver/gdbserver.c:388-459 | For every body without markers that fits and any two hex digits: acknowledged and handed over if the digits read as the checksum of the body, and otherwise refused with a negative acknowledgement and handed to nobody. |
| `GdbStreams.AcceptedExactly` | leash/src/gdbserver/gdbserver.c:388-459 | Over every run, whatever handlers do between characters: a body is handed over if and only if the character just received is the second digit of a frame that began between packets, whose body has no marker and fits, and whose digits read as the checksum of that body. |
| `GdbStreams.BrokenFrames` | leash/src/gdbserver/gdbserver.c:388-459 | A marker in a body, a body too long and anything else in place of a digit are refused where they show. |
| `GdbStreams.QuietStream` | leash/src/gdbserver/gdbserver.c:412-432 | While no packet begins: one interrupt for each end of text, one retransmission for each `-` before the first `+` if an acknowledgement is awaited, and nothing else. |
| `GdbStreams.SumIsTotal` | leash/src/gdbserver/gdbserver.c:408-409 | The checksum is the integer sum of the bytes modulo 256. |
| `GdbStreams.PrintedInHex` | leash/src/gdbserver/gdbserver.c:314-320 | The digits printed are those of the byte in base 16, in capitals, the higher first. |
| `GdbStreams.DigitsRead` | leash/src/gdbserver/gdbserver.c:440-447 | A character is read as a digit exactly if it is one of base 16, in either case, and has its value. |
| `GdbStreams.ReadsBase16` | leash/src/gdbserver/gdbserver.c:813-818 | Two digits read as sixteen times the first and the second. |
| `GdbPacket.HexRoundTrip` | leash/src/gdbserver/gdbserver.c:813-822 | Two hex digits as printed read back as the byte. |
| `GdbPacket.PlainRoundTrip` | leash/src/gdbserver/gdbserver.c:272-294 | An unescaped packet arrives if and only if it contains no marker and has at most 2095 bytes. |
| `GdbPacket.BinaryRoundTrip` | leash/src/gdbserver/gdbserver.c:296-328 | For every byte string whose escaped form is at most 2095 bytes: what is sent is accepted as one packet, and unescaping the stored body gives the original bytes. |
| `GdbPacket.DeEscapeInputLen` | leash/src/gdbserver/gdb_helpers.c:43-55 | The loop in place computes the unescaped bytes, although it overwrites what it reads, and touches nothing behind the given length and the byte after it. |
| `GdbPacket.DeEscapeOutputLen` | leash/src/gdbserver/gdb_helpers.c:29-41 | The same, up to a given number of bytes to produce. |
| `GdbPacket.UnescapeUndoes` | leash/src/gdbserver/gdb_helpers.c:43-55 | Unescaping an escaped string gives the string, whatever follows it. |
| `GdbPacket.UnescapeFirstUndoes` | leash/src/gdbserver/gdb_helpers.c:29-41 | So does asking for as many bytes as were escaped. |
| `GdbPacket.Server.HandleChar` | leash/src/gdbserver/gdbserver.c:388-459 | The parser in place, on its buffer and fields, is the parser on values, and keeps its invariant. |
| `GdbPacket.Server.CheckPacket` | leash/src/gdbserver/gdbserver.c:813-822 | A packet is handed over and acknowledged exactly when its checksum is the one received; otherwise it is refused and the parser reset. |

## Left out

- `lib/cc3200-sdk/driverlib`: reads and writes of hardware registers.
- Context-switch assembly, stacks, the heap, memory protection, tickless idle, trace macros, run-time statistics and the formatting of task lists: port-specific and outside the invariants. Creation therefore starts after the memory has been allocated.
- `croutine.c`, the alternative queue API, recursive mutexes and the queue registry: disabled or thin.
- The order of an event list after the priority of a task waiting in it has changed: the source rewrites the item value without moving the item, so `QueueProtocol.MostUrgentFirst` is stated for priorities that do not change.
- `vTaskPlaceOnEventListRestricted` and the mutex side of a queue's storage: the kernel part models inheritance and disinheritance on their own, with the mutex's own queue not connected to them.
- Wake-ups of tasks blocked on a queue set itself, and overwriting sends into a member of a set: outside the conservation property. So are `xQueueGenericReset` of a queue in use, and the deletion of queues and event groups.
- An overwriting send to a full queue whose items have no bytes is modelled in the storage (`Queue.Send`) but not in the protocol, where an overwrite leaves one message.
- The allocator behind the control blocks: the items of a freed task stay allocated and are used again by a task of the same handle, and the value of an item is taken to be zero until it is first written.
- `QueueTimeouts` lets a tick take a waiting task off its event list at any time; that it does so at the task's deadline, and when that is, is proved for the kernel (`KernelTime.TimeoutSetsDeadline`, `KernelTime.ReadyAtDeadline`).
- Wrap-around of counters that are not times: `xNumOfOverflows`, `xRxLock` and `xTxLock`, the number of tasks, `uxPendedTicks`, `uxLength * uxItemSize`.
- Calls made before the scheduler is started, other than the creation of tasks; and operations on handles of deleted tasks.
- `prvCheckTasksWaitingTermination` is one pass for each step, so that other steps can come between passes.
- The command queue of timers.c, its callbacks and the loop of the timer task: the time decisions and the two lists are modelled.
- `EventGroups.EventGroup.SetEventBits`: ends where the suspension ends; what the call returns is one more read of the bits, after others may have run.
- The handlers of accepted packets, target access, `vFile`, `Rcmd`, semihosting, LEDs, logging and sockets: input and output. Characters in and out are sequences and target memory is a map. `strtok` and `sscanf` are modelled for two hex digits only, and `gdbserver_TransmitDebugMsgPacket` not at all.
