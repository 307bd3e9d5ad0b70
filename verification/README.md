# A verified model of the coroutine runtime, its HTTP head parser and its TCP session

The project models, in Dafny, the parts of the library whose correctness rests on interleavings,
pointer surgery or hand-built tables, and proves what they are for.

| file | what it models |
|---|---|
| `Counting.dfy`, `Lists.dfy` | counting the threads that are at given program points; lists without repetition |
| `Semaphore.dfy`, `SemaphoreRuns.dfy` | `BlockObject`: the semaphore with a two-phase wait, and all runs over it |
| `Channel.dfy`, `ChannelCeiling.dfy`, `ChannelAlone.dfy` | the channel made of two semaphores, a mutex and a queue; the runs that reach the ceiling of its semaphores; each decision and each undisturbed operation |
| `RwMutex.dfy` | the reader/writer lock made of a counter and a mutex |
| `TsQueue.dfy` | the intrusive linked queue and the detached list, with what a wrong push or erase does to them |
| `Timer.dfy`, `TimerManager.dfy` | one timer under fire, cancel and blocking cancel; the timer manager's two indexes |
| `WaitTable.dfy`, `BlockWakeup.dfy` | the two-level user-wait table; `BlockWakeup` on real queues, disturbed by other threads |
| `SharedStack.dfy` | the shared stack of a processer, copied in and out |
| `Runtime.dfy`, `RuntimeWakeup.dfy`, `RuntimePermits.dfy`, `Scheduler.dfy`, `RunLoop.dfy` | where every task is in every interleaving, `BlockWakeup` among all other threads, permits and the order of service, the task counts, a scheduling pass, and the run loop on real lists |
| `IoWait.dfy`, `IoWaitSteps.dfy`, `IoWaitCancel.dfy`, `IoWaitRuns.dfy`, `IoWaitNoLoss.dfy`, `IoWaitTimeout.dfy`, `IoWaitDuplicates.dfy` | waiting for descriptors: registration, events, timeouts, reference counts |
| `TcpSend.dfy`, `TcpReceive.dfy`, `TcpClose.dfy` | sending, receiving and closing a TCP session |
| `HttpGrammar.dfy`, `HttpKeywords.dfy` | the automaton of the HTTP head parser as one transition function |
| `HttpEngine.dfy`, `HttpTable.dfy` | the table the parser runs on, built link by link, equal to the automaton |
| `HttpFields.dfy`, `HttpParser.dfy`, `HttpRoundTrip.dfy`, `HttpHead.dfy` | field order, streaming, print and parse, the parser object |

Concurrent code is a step system: `Enabled` and `Apply` give the steps, `Preserved` says that every
step of every thread keeps the invariant, and the theorems speak about every state that a run from
the start can reach, for any number of threads and any schedule.  A step is one access to shared
memory or one critical section.  Coarser steps are `Pick` and `Out` in `Runtime.dfy` (a task goes
from one container to another while only one thread can have it) and `Enter` in `IoWait.dfy`.
Code that updates objects in place is a class, and the contracts of its methods tie the new state to
functions of the old one, about which the lemmas speak.  Time, sockets, epoll and the programs run
by tasks are arbitrary inputs.

## Where the code does not do what one would expect

Each of these is kept as the code has it, with the exact condition under which the expected property
holds.

- `BlockWakeup` walks the tasks it popped through their `next` pointers, without any lock, while
  `AddTaskRunnable` relinks those very pointers.  Two things go wrong.  Only the first popped task is
  ever handed over, and the others stay in nobody's hands for good
  (`RuntimeWakeup.LeftBehindForever`).  And if another thread links a task behind the first one, or
  the first one has moved and has a successor where it is, before its `next` is read, the walk queues
  that task a second time and the run queue is beyond repair (`BlockWakeup.WakeupOfOneQueuesTwice`,
  with a wakeup of count one).  Every popped task becomes runnable and the run queue stays sound if
  and only if nobody waited, or at most one was popped and nothing was pushed behind it before the
  read (`BlockWakeup.Entry.BlockWakeup`); among all other threads the read is harmless if and only if
  the task is then the last one in its queue (`RuntimeWakeup.ReadDecides`).
- `TSQueue::push` of an element that is queued already cuts off what is behind it, and no later push
  mends the queue; it is harmless if and only if the element is not queued (`TsQueues.TSQueue.Push`).
- `TSQueue::pop(n)` and `pop_all` leave the `check_` pointer of the popped elements set, so `erase`
  takes them for members later.  Erasing such a left-over leaves a well-formed queue if and only if
  its old neighbours stand in the queue again with exactly one element between them; then that
  element is lost in its place (`TsQueues.TSQueue.Erase`, reached in
  `TsQueues.StaleEraseLosesAnother`).  Otherwise the memory is a queue of no sequence at all, with
  `count_` below zero in the simplest case (`TsQueues.StaleEraseBreaks`).  `pop(0)` takes one element.
- A channel offers a slot for every read by a `Wakeup`, which the semaphore refuses at its ceiling; a
  refused slot is never made up for.  So a failing `TryPop` on a channel whose capacity is the
  ceiling, such as the message channel of a TCP session, costs one slot
  (`ChannelCeiling.FailedTryPopAtCeiling`).  Slots are conserved in every run if and only if capacity
  plus threads do not exceed the ceiling (`ChannelCeiling.SlotsConservedExactly`), and never more are
  lost than the excess (`Channel.SlotsConserved`).  A reader and a writer can be asleep for good if
  and only if there are more threads than the ceiling, whatever the capacity
  (`ChannelCeiling.DeadlockExactly`).
- `IoWait::Cancel` checks the wait's id and erases its task from the wait list in two steps.  A wait
  that names the same descriptor twice fails with EEXIST and wakes itself in between, and Cancel
  then wakes the next wait.  For a task waiting alone, waits are never mixed up if and only if its
  list names no slot twice (`IoWaitDuplicates.SafeExactlyWhenDistinct`); for several tasks they are
  never mixed up as long as tasks waiting at the same time name different slots
  (`IoWaitRuns.WokenExactlyOnce`).
- `TcpSession::Send` checks `shutdown_ref_` first and pushes the message later.  A message is left
  without its callback if and only if it is pushed after `OnClose` has found the channel empty
  (`TcpClose.UncalledExactlyWhenLate`).
- `http_head::to_string` followed by `parse` restores the head if and only if the head is printable
  in the sense of `HttpRoundTrip.Printable`; a key may begin with a colon, but not contain one later.
- `http_head::clear` swaps the second buffer with the string that has just received the old first
  buffer.  No parse depends on that left-over (`HttpRoundTrip.ParseStartsAfresh`).
- `http_head::set_host` writes the field Content-Length; `host` sees the new value if and only if it
  was there already (`HttpHead.SetHostExactly`).

## Model

| member | source | states |
|---|---|---|
| Semaphore.BlockObject.constructor | coroutine/block_object.cpp:11-14 | a new semaphore has the initial permits, the ceiling and nobody queued |
| Semaphore.BlockObject.CoBlockWait | coroutine/block_object.cpp:26-46 | up to the yield: takes a stored permit if there is one, else changes nothing and must switch out |
| Semaphore.BlockObject.TryBlockWait | coroutine/block_object.cpp:48-57 | takes a stored permit and says so, or changes nothing |
| Semaphore.BlockObject.Wakeup | coroutine/block_object.cpp:59-77 | hands the permit to the head of the queue, stores it, or refuses it at the ceiling; refused is the only false result |
| Semaphore.BlockObject.AddWaitTask | coroutine/block_object.cpp:85-95 | second check: a permit that has arrived meanwhile is consumed, otherwise the caller joins the end of the queue |
| SemaphoreRuns.Preserved | coroutine/block_object.cpp:26-95 | every critical section, by any task and in any order, keeps the permit accounting and the queue discipline |
| SemaphoreRuns.Conservation | coroutine/block_object.cpp:26-95 | in every run stored permits plus permits taken equal the initial count plus successful wakeups; a non-empty queue means no stored permit; tasks leave in the order they joined |
| SemaphoreRuns.NoLostWakeup | coroutine/block_object.cpp:26-95 | once nobody is between the two checks, the number blocked is exactly the number of waits that permits do not cover |
| SemaphoreRuns.WakeupInTheWindow | coroutine/processer.cpp:91-95 | whatever runs between a task's two checks, it ends up queued if and only if others took every permit stored or signalled meanwhile |
| Channel.Preserved | coroutine/channel.h:121-224 | each step of any thread's blocking or trying read or write keeps the slot, item and lock accounting, the queue discipline and the data order |
| Channel.ChannelSafety | coroutine/channel.h:121-224 | in every run nothing is ever taken from an empty queue, the values popped are a prefix of the values pushed, and the queue holds at most capacity plus reads in progress |
| Channel.RefusalsBounded | coroutine/block_object.cpp:59-77 | in every run at most capacity plus threads minus ceiling wakeups are refused, and none if that is not positive |
| Channel.SlotsConserved | coroutine/channel.h:160-224 | in every run the slots and items out of account are at most that excess; without excess free slots, slots in hand and items make up capacity plus reads in progress, so a failing TryPop has returned its permit |
| Channel.NoMutualBlocking | coroutine/channel.h:121-224 | when all threads are idle or asleep, readers and writers are not both asleep unless threads outnumber the ceiling; a sleeping reader means an empty queue and a sleeping writer a full one, but for the excess |
| ChannelCeiling.SlotsConservedExactly | coroutine/channel.h:135-224 | slots are conserved in every run if and only if there are no threads or capacity plus threads do not exceed the ceiling |
| ChannelCeiling.FailedTryPopAtCeiling | coroutine/channel.h:189-206 | for every ceiling and any threads, a run in which one failing TryPop on a channel of that capacity leaves everything idle and empty with one slot less |
| ChannelCeiling.DeadlockExactly | coroutine/channel.h:135-206 | some run ends with a reader and a writer asleep and nobody at work if and only if there are at least two threads and more than the ceiling |
| ChannelAlone.DecidedExactly | coroutine/channel.h:135-206 | in every run a TryPush refuses exactly when no slot is stored, a TryPop asks for a slot back exactly when no item is signalled and returns false exactly when it gets one, blocking operations go on exactly when there is something for them, and the queue is entered exactly when nobody holds its mutex |
| ChannelAlone.FindsNothing | coroutine/block_object.cpp:26-46 | a thread that finds no permit polls on, or parks and then joins the end of that queue |
| ChannelAlone.TryPushAlone | coroutine/channel.h:172-187 | a TryPush with nobody at work puts the value at the end of the queue, takes one slot and signals one item, or with no slot changes nothing |
| ChannelAlone.TryPopAlone | coroutine/channel.h:189-206 | a TryPop with nobody at work takes the front value, one item and offers one slot, if an item is signalled |
| Channel.QueueLockExclusive | coroutine/co_mutex.cpp:18-37 | the queue's mutex has one holder at most and its unlock never throws |
| RwMutex.Preserved | coroutine/co_rwmutex.cpp:20-80 | every step of lock, try-lock and unlock, for readers and writers, keeps the reader count and the mutex accounting |
| RwMutex.WriterExcludesAll | coroutine/co_rwmutex.cpp:20-80 | in every run a writer past w_lock or w_try_lock excludes every reader and every other writer, and its unlock does not throw |
| RwMutex.ReaderCountExact | coroutine/co_rwmutex.cpp:20-80 | readers_c_ is exactly the number of counted readers, so never negative, and positive while a reader is inside |
| RwMutex.QuietLockIsFree | coroutine/co_rwmutex.cpp:20-80 | with nobody inside or trying, the lock is back in its initial state |
| RwMutex.GrantedExactly | coroutine/co_rwmutex.cpp:20-73 | in every run a counted reader goes in exactly when no writer has the mutex, a writer gets the mutex exactly when no other has it, and goes in exactly when no reader is counted |
| RwMutex.AloneGetsIn | coroutine/co_rwmutex.cpp:20-80 | a thread alone gets whatever it asks for in two steps, and its unlock leaves the lock as it was |
| RwMutex.UnlockHandsOver | coroutine/co_rwmutex.cpp:75-78 | a writer's unlock gives the mutex to the first queued writer, or to nobody |
| TsQueues.SList.Erase | coroutine/ts_queue.h:58-68 | removes exactly the element the iterator stands on, anywhere, and moves the iterator to the next one; links, tail and count stay right |
| TsQueues.TSQueue.constructor | coroutine/ts_queue.h:92-96 | an empty queue with its sentinel |
| TsQueues.TSQueue.Empty | coroutine/ts_queue.h:110-114 | true exactly for the empty sequence |
| TsQueues.TSQueue.Push | coroutine/ts_queue.h:122-132 | appends an element that is not queued; one that is queued becomes the tail where it stands, what was behind it is cut off, and the count is too high from then on |
| TsQueues.TSQueue.TornIsNoQueue | coroutine/ts_queue.h:122-132 | a queue whose count exceeds its chain is well-formed for no sequence |
| TsQueues.TSQueue.ForwardOnce | coroutine/ts_queue.h:122-132 | memory is a well-formed queue of one sequence at most |
| TsQueues.TSQueue.Pop | coroutine/ts_queue.h:134-147 | takes the head and resets its links, or returns null on an empty queue |
| TsQueues.TSQueue.PushList | coroutine/ts_queue.h:149-160 | splices a list taken from the queue onto its end |
| TsQueues.TSQueue.PopN | coroutine/ts_queue.h:162-178 | the first min(n, length) elements come out as a valid list, one element for n = 0, and the rest stays a valid queue |
| TsQueues.TSQueue.PopAll | coroutine/ts_queue.h:180-194 | all elements come out in order and the queue is empty |
| TsQueues.TSQueue.Erase | coroutine/ts_queue.h:196-208 | refuses by the check pointer; a member is removed from anywhere, and the memory is a queue of exactly the rest; after the erase of a left-over it is a queue of e exactly when the stale neighbours straddle one element and e is the queue without that one |
| TsQueues.TSQueue.Cut | coroutine/ts_queue.h:196-208 | the pointer surgery alone: all links are those of the old queue except that the stale neighbours are joined, and the count is one less |
| TsQueues.TSQueue.StaleErased | coroutine/ts_queue.h:196-208 | for all e, the memory after a stale erase is a queue of e if and only if e has lost the one element between the stale neighbours |
| TsQueues.StaleEraseLosesAnother | coroutine/ts_queue.h:122-208 | from the constructor through push, pop_all and push to a stale erase that silently loses an element which still carries the queue's mark |
| TsQueues.StaleEraseBreaks | coroutine/ts_queue.h:180-208 | a stale erase on an empty queue leaves a count below zero and a queue of no sequence |
| TsQueues.Unlink | coroutine/ts_queue.h:196-208 | the neighbours of the hook are joined to each other and otherwise unchanged |
| Timer.Preserved | coroutine/timer.cpp:18-48 | every step of fire, Cancel and BlockCancel keeps the flag, the lock and the counts consistent |
| Timer.FiresOrIsCancelledOnce | coroutine/timer.cpp:18-48 | callback runs plus successful cancels is at most one, and exactly one once a call has returned and none is in progress |
| Timer.BlockCancelWaits | coroutine/timer.cpp:40-48 | in every run a BlockCancel, at whatever point, returns only when no callback is running, and returns true exactly when the timer was active; if the callback won it has finished |
| Timer.CallOutcomes | coroutine/timer.cpp:18-48 | operator() and Cancel give up only while another thread holds the lock; otherwise an active timer is fired or cancelled, and one that is not active is left alone |
| TimerManager.CoTimerMgr.constructor | coroutine/timer.cpp:50-52 | both indexes empty and consistent |
| TimerManager.CoTimerMgr.ExpireAt | coroutine/timer.cpp:58-66 | the timer enters both indexes once, behind its equal deadlines |
| TimerManager.CoTimerMgr.Remove | coroutine/timer.cpp:82-100 | the search among equal deadlines removes exactly the cancelled timer, from both indexes; a timer not present changes nothing |
| TimerManager.CoTimerMgr.GetExpired | coroutine/timer.cpp:102-119 | hands out the earliest min(n, number due) in deadline order and removes exactly those from both indexes |
| TimerManager.Expired | coroutine/timer.cpp:107-110 | the due timers are a prefix of the deadline order |
| TimerManager.EarliestFirst | coroutine/timer.cpp:102-119 | nothing is handed out early, nothing left behind is due sooner than what was returned, and nothing due is left behind when fewer than n were returned |
| WaitTable.Waiters.constructor | coroutine/scheduler.cpp:20-24 | the table starts empty and tidy |
| WaitTable.Waiters.Store | coroutine/scheduler.cpp:366-376 | storing a pair with erase-on-empty gives that key the pair, leaves every other key as it was, and keeps no empty pair and no empty zone |
| WaitTable.Waiters.SwitchOut | coroutine/processer.cpp:96-111 | a blocking task consumes a stored wakeup or joins the end of the key's queue; other keys untouched, table tidy |
| WaitTable.Waiters.TryBlockWait | coroutine/scheduler.cpp:318-336 | takes one stored wakeup or refuses; other keys untouched, table tidy |
| WaitTable.Waiters.Wakeup | coroutine/scheduler.cpp:338-364 | pops the first waiting tasks and stores the surplus modulo 2^32; other keys untouched, table tidy |
| WaitTable.TableIsItsMeaning | coroutine/scheduler.cpp:304-376 | two tidy tables with the same meaning as total maps are equal, so the two-level table refines that map |
| WaitTable.Accounting | coroutine/scheduler.cpp:304-364 | over any sequence of operations, permits stored, received and lost balance permits asked for and given for free |
| WaitTable.OnesLoseNothing | coroutine/scheduler.cpp:338-364 | with undisturbed wakeups of count one nothing is lost and nobody is released for free |
| WaitTable.WakeupsOfOneConserved | coroutine/scheduler.cpp:338-364 | with undisturbed wakeups of count one, stored plus received equals made |
| BlockWakeup.Release | coroutine/scheduler.cpp:352-359 | the walk over the popped tasks, with any pushes by other threads between each hand-over and the read of next: only the first task is handed over, and the run queue is torn if anything was pushed behind it |
| BlockWakeup.Entry.constructor | coroutine/scheduler.h:99-99 | a new entry stores no wakeup and nobody waits |
| BlockWakeup.Entry.Block | coroutine/processer.cpp:96-111 | a blocking task consumes a stored wakeup or is linked at the end of the wait queue |
| BlockWakeup.Entry.TryBlockWait | coroutine/scheduler.cpp:328-333 | takes one stored wakeup or refuses |
| BlockWakeup.Entry.BlockWakeup | coroutine/scheduler.cpp:338-364 | pop, surplus and walk on real queues: all popped tasks become runnable and the run queue stays sound if and only if nobody waited, or nothing was pushed before the first read and n is at most one or one task waited |
| BlockWakeup.BooksAreMeasured | coroutine/scheduler.cpp:338-364 | the ledger's received and lost are what an undisturbed walk appends to the run queue and what it leaves in no queue |
| BlockWakeup.WakeupOfOneQueuesTwice | coroutine/scheduler.cpp:338-364 | a wakeup of count one after which a task is its own predecessor and the count is three for two tasks |
| SharedStack.Processer.constructor | coroutine/processer.cpp:11-15 | a processer starts with its shared buffer and no saved stacks |
| SharedStack.Processer.AddTask | coroutine/task.cpp:77-103 | a new task's first frame at the top of the shared stack is saved as its private stack; the others keep theirs |
| SharedStack.Processer.WriteTop | coroutine/processer.cpp:174-180 | writes at the top end and leaves the rest of the buffer alone |
| SharedStack.Processer.RestoreStack | coroutine/processer.cpp:174-180 | the top of the shared stack is the resumed task's private stack |
| SharedStack.Processer.SaveStack | coroutine/processer.cpp:157-172 | the live bytes become the private stack, within a capacity that only grows; the others keep theirs |
| SharedStack.Processer.RunSlice | coroutine/processer.cpp:57-73 | a slice sees exactly its own private stack and only changes that, even if it overwrites the whole shared buffer |
| SharedStack.Processer.Schedule | coroutine/processer.cpp:157-180 | any schedule of slices and new tasks equals the run in which every task has a stack of its own |
| SharedStack.SeesItsOwnBytes | coroutine/processer.cpp:157-180 | in the run with separate stacks a task keeps its bytes whatever the others do |
| SharedStack.Processer.YieldAndResume | coroutine/processer.cpp:157-180 | on the shared buffer: whatever others run and overwrite between a yield and the resumption, the task finds the very bytes it left at the top |
| Runtime.Preserved | coroutine/processer.cpp:25-135 | counting, enlisting, picking, running, every outcome of a slice, waking, delivering and every step of BlockWakeup whose read finds nothing keep: one place per live task, tasks bound to their processer, counts exact, nobody queued where a permit is stored |
| Runtime.ExactlyOnePlace | coroutine/scheduler.cpp:190-197 | in every run in which no BlockWakeup reads a next pointer set again, a live task is in exactly one container, once, a task that is not live in none, and a runnable one at its own processer |
| Runtime.CountsAgree | coroutine/scheduler.cpp:46-52 | task_count_ is the sum of the processers' counts plus the length of run_tasks_ plus the tasks counted and not yet enlisted plus what runs in progress have finished and not reported |
| RuntimeWakeup.ReadDecides | coroutine/scheduler.cpp:352-359 | after a hand-over, in any reachable state: if the task is the last of the queue it is in, the read ends the walk and all is kept; if not, the next hand-over puts a task into two places or twice into one |
| RuntimeWakeup.UndisturbedWakeup | coroutine/scheduler.cpp:338-364 | from any state with someone waiting, pop, hand-over and read in a row: the first task is runnable at its processer, the others stay popped, and none does if and only if n is at most one or one task waited |
| RuntimeWakeup.LeftBehindForever | coroutine/scheduler.cpp:338-364 | what a finished walk has not handed over is never moved by any later run |
| RuntimeWakeup.WakeupOfOneRunsTwice | coroutine/scheduler.cpp:338-364 | a run from the start with a wakeup of count one that ends with a task twice in the runnable list |
| RuntimePermits.WaitersExact | coroutine/processer.cpp:87-111 | in every run and for every semaphore and key, as many tasks wait as waits exceed signals, and as many permits are stored as signals exceed waits; so no permit is lost, made up, or stored beside a waiting task |
| RuntimePermits.OutcomeMovesOne | coroutine/processer.cpp:73-128 | in every reachable state each outcome of a slice takes the task to the end of the place it named, or back among the runnable if a stored permit lets it pass, and moves no other task |
| RuntimePermits.ServedInOrder | coroutine/scheduler.cpp:132-141 | tasks get a processer in the order in which they entered run_tasks_, whichever processer picks them |
| Scheduler.Threads.Dispatch | coroutine/processer.cpp:73-128 | the switch over the state of a task that came back does what the step system says and moves the iterator on or leaves it |
| Scheduler.Threads.Turn | coroutine/processer.cpp:57-129 | one turn of the loop, with any interference meanwhile, keeps the invariant and leaves one task fewer to do |
| Scheduler.Threads.Run | coroutine/processer.cpp:44-135 | whatever happens, also on the delayed rethrow, the batch goes back whole and the finished tasks are what is left to subtract |
| Scheduler.CeilDivIsLeast | coroutine/scheduler.cpp:134-135 | the average of DoRunnable is the least number of tasks per processer that suffices for all |
| Scheduler.Threads.PickTasks | coroutine/scheduler.cpp:132-141 | whatever other threads do between the picks, picking raises the processer up to the average and no further, or until run_tasks_ is empty |
| Scheduler.Threads.OneProcesser | coroutine/scheduler.cpp:127-155 | whatever other threads do with their processers, one processer is served, its finished tasks are reported, and its count does not exceed the larger of its old count and the average over the listed processers, rounded up |
| Scheduler.Threads.DoRunnable | coroutine/scheduler.cpp:123-157 | after every pass, also one ended by an exception and with other threads running other processers, the counts agree, counted and not yet enlisted tasks included; a pass alone in which no task is created or finishes empties run_tasks_ and raises no processer above the larger of its old count and the rounded-up average |
| RunLoop.Step | coroutine/processer.cpp:73-128 | the iterator passes over the task or erases it from under itself, and in both cases stands on the next task of the batch |
| RunLoop.Run | coroutine/processer.cpp:44-135 | on real lists: the tasks that stay runnable go back behind what other threads pushed meanwhile, in order, none skipped or visited twice; after a throwing turn the rest goes back untouched |
| IoWaitRuns.Preserved | coroutine/linux/io_wait.cpp:27-219 | every atomic access of CoSwitch, SchedulerSwitch, Cancel, WaitLoop and the resuming hook keeps the protocol's invariant, under disjoint slots |
| IoWaitRuns.WokenExactlyOnce | coroutine/linux/io_wait.cpp:27-219 | in every run each wait is woken at most once, by its own event, timeout or failure and never by another wait's; a wait that was left was woken exactly once |
| IoWaitRuns.ReferencesExact | coroutine/task.cpp:135-153 | in every reachable state the reference count is one for a task not ended, plus its slots in epoll, plus a live timer, plus guards and references in transit; it is zero exactly when the task has ended |
| IoWaitRuns.DeletedIsUnreferenced | coroutine/linux/io_wait.cpp:208-216 | a task enters the delete list once, with no slot, pending event or timer naming it, and is deleted only when no Cancel works on it |
| IoWaitNoLoss.NoWaitIsLost | coroutine/linux/io_wait.cpp:48-120 | a task in the wait list either has a slot in epoll under its current id or is still being registered by the thread that will wake it on failure |
| IoWaitTimeout.TimedWaitHasTimer | coroutine/linux/io_wait.cpp:107-118 | in every run a task waiting with a timeout, once SchedulerSwitch is past arming it, has a timer of this very wait that is armed or at work on it |
| IoWaitTimeout.TimeoutWakes | coroutine/linux/io_wait.cpp:107-149 | from every reachable state in which the loop runs timers and SchedulerSwitch has left the task, the timeout of a timed wait wakes it, once, by the steps of its own Cancel |
| IoWaitTimeout.EventIsGathered | coroutine/linux/io_wait.cpp:152-206 | an event reported for a slot is gathered for the wait that registered it, which is the task's current one |
| IoWaitTimeout.EventWakes | coroutine/linux/io_wait.cpp:122-206 | once SchedulerSwitch has left the task, a gathered event wakes it, once, by the steps of its own Cancel |
| IoWaitTimeout.ReleaseDeletes | coroutine/linux/io_wait.cpp:208-216 | at the end of a turn exactly the ended tasks have been deleted |
| IoWaitSteps.CancelTimerKeeps | coroutine/linux_glibc_hook.cpp:326-334 | cancelling the timer on resume hands the timer's reference to the hook and keeps the invariant |
| IoWaitDuplicates.SafeExactlyWhenDistinct | coroutine/linux/io_wait.cpp:66-149 | a single task waiting for a list of slots, any number of times and in any schedule, never has a wait woken for another one if and only if the list names no slot twice |
| IoWaitDuplicates.RepeatedSlotFails | coroutine/linux/io_wait.cpp:66-149 | for every list with a repeated slot there is a run in which a wait is woken on behalf of an earlier one |
| TcpSend.Session.constructor | network/tcp_detail.cpp:14-20 | a session with nothing accepted, queued or sent |
| TcpSend.Session.Send | network/tcp_detail.cpp:230-262 | refuses with shutdown, reports success for an empty buffer, reports overflow, or queues the message at the end, in this order of checks |
| TcpSend.Session.Pull | network/tcp_detail.cpp:119-131 | up to 1024 messages leave the channel: the timed-out ones are dropped, the others join the send list in order |
| TcpSend.Session.MakeBuffers | network/tcp_detail.cpp:137-161 | drops only messages timed out with nothing sent, gathers what is left of the first 1024 others, and leaves the messages behind them alone |
| TcpSend.Session.Scan | network/tcp_detail.cpp:138-156 | the loop erases from the list as it goes and ends at the end of the list or, after 1024 buffers, at the first message it would keep |
| TcpSend.Session.Sent | network/tcp_detail.cpp:180-195 | after a write of n bytes the books agree with the wire: whole messages leave, a cut one stays in front with its position |
| TcpSend.Session.SendOnce | network/tcp_detail.cpp:110-196 | one turn: it ends the coroutine exactly when the session is closed or an offered write fails, nothing is offered only when nothing is left to send, and the wire grows by exactly what the socket took of the offer |
| TcpSend.Session.Arrive | network/tcp_detail.cpp:230-262 | what is sent meanwhile is accepted in order, empty buffers excepted, and nothing else changes |
| TcpSend.Session.GoSend | network/tcp_detail.cpp:104-198 | over any number of turns, whatever times out and however much each write takes, the session invariant holds, the wire has exactly what the socket took, and the coroutine ends at the first closed turn or at a failed write |
| TcpSend.WirePlusRest | network/tcp_detail.cpp:119-196 | bytes taken by the socket followed by bytes still to be written are exactly the accepted messages that were not dropped, whole and in send order |
| TcpSend.DroppedSendsNothing | network/tcp_detail.cpp:143-149 | a message dropped by timeout is neither sent, nor partly sent, nor queued |
| TcpSend.OnePlaceEach | network/tcp_detail.cpp:119-196 | every accepted message is in exactly one of: reported sent, reported timed out, send list, channel |
| TcpReceive.Receiver.GoReceive | network/tcp_detail.cpp:54-102 | on its fixed buffer the coroutine makes exactly the calls of the reference, leaves exactly its rest and ends as it does; each call shows the bytes read that the earlier calls have not taken, each of which took what it answered |
| TcpReceive.Receiver.ReceiveOnce | network/tcp_detail.cpp:61-88 | one turn is one turn of the reference: overflow, read error, one call if there is a callback and something was read, parse error |
| TcpReceive.Receiver.Show | network/tcp_detail.cpp:74-82 | the callback is shown everything in the buffer, and what it leaves moves to the front |
| TcpReceive.ServedInTurn | network/tcp_detail.cpp:54-102 | in the reference, which has no buffer, a turn makes one call at most and each call begins with what the one before it left, followed by something new |
| TcpReceive.Receiver.Shift | network/tcp_detail.cpp:77-82 | what the callback left moves to the front and stays in order |
| TcpReceive.Receiver.Read | network/tcp_detail.cpp:62-68 | at most the free room is read, behind what is there |
| TcpClose.Preserved | network/tcp_detail.cpp:89-262 | every step of receiver, sender, OnClose and Send keeps the counter, the progress of OnClose and one place per message |
| TcpClose.ClosesOnce | network/tcp_detail.cpp:89-196 | in every order of receive error, send error and check of shutdown_ref_, OnClose runs at most once and has run exactly once, disconnect callback included, when both sides have ended |
| TcpClose.CalledAtMostOnce | network/tcp_detail.cpp:207-262 | no message's callback is called twice |
| TcpClose.UncalledExactlyWhenLate | network/tcp_detail.cpp:207-262 | after the end a message has no callback exactly when it was pushed after OnClose found the channel empty |
| TcpClose.SessionEnds | network/tcp_detail.cpp:89-228 | from every reachable state in which a side has failed, the coroutines' own steps lead to the end: both have ended and the disconnect callback has run |
| TcpClose.SendRefusesExactly | network/tcp_detail.cpp:230-240 | Send answers at once exactly when a side is gone or the buffer is empty, and otherwise lets the message through |
| TcpClose.CalledExactlyOnce | network/tcp_detail.cpp:207-262 | with Send in one step every message has exactly one callback when the session is over |
| TcpClose.LateMessageIsForgotten | network/tcp_detail.cpp:207-262 | a concrete run in which a message that passed the check is never answered |
| HttpFields.IsStrLess | http/src/http_head.h:14-32 | the loop computes the order: shorter first, then the first difference of upper-cased signed bytes |
| HttpFields.StrictWeakOrder | http/src/http_head.h:14-32 | that order is a strict weak order |
| HttpFields.UpperMeans | http/src/http_head.h:22-25 | toupper maps a lower-case letter to the letter at the same place of the upper-case alphabet and nothing else, and so brings together exactly a letter and its other case |
| HttpFields.LessMeans | http/src/http_head.h:14-32 | the shorter key is less; of two keys of one length the first place where they differ in more than case decides by signed value; without such a place neither is less |
| HttpFields.EquivalentIsCaseless | http/src/http_head.h:14-32 | two keys of bytes are equivalent exactly when they have one length and agree place by place but for the case of ASCII letters, defined by the two alphabets |
| HttpFields.InsertPlace | http/src/http_head.cpp:253-255 | a field is inserted behind all fields it does not precede and before the first it does |
| HttpFields.InsertSorted | http/src/http_head.h:33-33 | inserting keeps the fields ordered |
| HttpFields.AtoiToString | http/src/http_head.cpp:69-82 | reading back a printed number gives the number |
| HttpParser.StreamingIsOneShot | http/src/http_head.cpp:38-67 | for every split after which the parser is undecided, consuming the parts gives the same head and total as consuming the whole |
| HttpParser.AnySplit | http/src/http_head.cpp:50-67 | the same for any number of pieces |
| HttpParser.ErrorAbsorbs | http/src/http_head.cpp:54-67 | after an error nothing read later, in the same or another call, changes the head or the verdict |
| HttpParser.ParseIgnoresRest | http/src/http_head.cpp:38-48 | a successful parse is unchanged by any bytes appended |
| HttpParser.ParseOutcome | http/src/http_head.cpp:38-48 | a parse reports how much it read of a complete head, or fails and leaves an empty head at the beginning |
| HttpRoundTrip.PrintedIsParsed | http/src/http_head.cpp:69-82 | for every printable head parsing its print consumes all of it and restores type, start line, version and fields in order, whatever the object held before |
| HttpRoundTrip.CaseMakesNoDifference | http/src/http_head.cpp:280-293 | writing the method, STATUS and HTTP of a printable head in any case makes no difference to the result of parsing it |
| HttpRoundTrip.ParsedIsPrintable | http/src/http_head.cpp:38-48 | whatever is parsed without error is printable and its fields are ordered |
| HttpRoundTrip.RoundTripExactly | http/src/http_head.cpp:38-82 | printing and parsing restores the head if and only if it is printable |
| HttpRoundTrip.ParseStartsAfresh | http/src/http_head.cpp:12-26 | the result of a parse does not depend on what the object did before, although clear leaves the old buffer in the second one |
| HttpKeywords.NewKeywordFits | http/src/http_head.cpp:305-322 | along a new keyword the table has free edges or edges of other keywords that go on, so the assertion at the end of create_list holds |
| HttpKeywords.SpellPrefix | http/src/http_head.cpp:305-322 | spelling any prefix of a keyword leads into that keyword, or to its end |
| HttpEngine.Engine.constructor | http/src/http_head.cpp:268-274 | the error node leads to itself on every character |
| HttpEngine.Engine.NewNode | http/src/http_head.cpp:268-274 | a new node leads to the error node on every character; all others are unchanged |
| HttpEngine.Engine.Link | http/src/http_head.cpp:294-298 | exactly one cell changes |
| HttpEngine.Engine.LinkAll | http/src/http_head.cpp:299-304 | exactly the cells of the string's characters change |
| HttpEngine.Engine.CreateList | http/src/http_head.cpp:305-322 | adds exactly the missing edges of the keyword, shares the prefixes already there, and changes no other edge |
| HttpTable.InitParseRoot | http/src/http_head.cpp:331-476 | the construction, in its order, yields the finished table and its root |
| HttpTable.TableIsAutomaton | http/src/http_head.cpp:331-476 | every cell of the finished table leads where the automaton leads, saves what it saves, and every node has the automaton's state and result |
| HttpHead.Parser.constructor | http/src/http_head.cpp:6-10 | a new parser is at the root with an empty head |
| HttpHead.Parser.ClearHead | http/src/http_head.cpp:12-26 | the head is empty, the first buffer too, the second holds the old first one |
| HttpHead.Parser.Next | http/src/http_head.cpp:280-293 | the table step on the upper-cased byte is the automaton's step, saving the byte as it came |
| HttpHead.Parser.SetResult | http/src/http_head.cpp:233-263 | what was read goes where it belongs |
| HttpHead.Parser.ConsumeChar | http/src/http_head.cpp:230-266 | one byte through the table is one step of the reference parser |
| HttpHead.Parser.ConsumeData | http/src/http_head.cpp:54-67 | the loop over a buffer is the reference parser's consume, result included |
| HttpHead.Parser.ParseString | http/src/http_head.cpp:38-48 | one-shot parsing is the reference parser's parse, result included |
| HttpHead.SetThenGet | http/src/http_head.cpp:194-213 | what is set under a key is then read under it |
| HttpHead.LookupIgnoresCase | http/src/http_head.cpp:194-213 | a field is found under any spelling of its key: the first field whose key differs in case only, and nothing if there is none |
| HttpHead.SetLeavesOthers | http/src/http_head.cpp:194-213 | setting a field leaves the fields of all non-equivalent keys as they were |
| HttpHead.ContentLengthIsKept | http/src/http_head.cpp:200-213 | content_length returns what set_content_length wrote, and host is unaffected |
| HttpHead.SetHostExactly | http/src/http_head.cpp:215-227 | after set_host, host returns the value if and only if it did before; the content length holds it |
| HttpHead.SetHostMisses | http/src/http_head.cpp:215-227 | a concrete host that is not read back |

## Left out

- Scheduler.Threads.DoRunnable: the list of processers changes only by this pass; other threads run processers that are not in it, and do not take one out or put one back before the pass ends.
- BlockWakeup.Entry.BlockWakeup: the tasks of an entry have one run queue; with several processers the first popped task goes to its own.
- WaitTable.OnesLoseNothing: the ledger keeps the books of wakeups nobody disturbs; what a disturbed one does is `BlockWakeup.Entry.BlockWakeup` and `RuntimeWakeup.ReadDecides`.
- WaitTable.WakeupsOfOneConserved: the same.
- Runtime.ExactlyOnePlace: a read of `next` from a task that is dead by then is undefined in the source, and counts as one that finds something.
- RunLoop.Run: where the erased tasks go is `Scheduler.Threads.Dispatch`, on sequences.
- Real epoll, sockets, `fcntl` and the hooking of system calls: epoll is a set of registered slots, sockets take and give arbitrary amounts.
- IoWaitRuns.Preserved: tasks that wait at the same time name different slots, which the library leaves to its callers; what a slot named twice by one wait does is `IoWaitDuplicates.SafeExactlyWhenDistinct`.
- Descriptors closed while waited for: the kernel would drop their registration, the model does not.
- `ucontext` and fiber switching: a switch is one atomic step, and its failure is not modelled.
- Wall-clock time, back-off sleeps and the timed channel operations: a timer may fire whenever the loop gets to it.
- `Channel<void>`: the same protocol without the values.
- `io_block_id_` and the timers' id counters are unbounded: their wrap-around after 2^32 waits is not modelled.
- `BlockWakeup`'s return value, which counts released tasks twice: no claim is made about it.
- HttpFields.AtoiToString: integers are unbounded, so the overflow of `atoi` on digit strings beyond 32 bits, which the code leaves undefined, is not modelled.
- HttpFields.UpperMeans: `toupper` is that of the C locale; what it does to negative characters, which the language leaves undefined, is to leave them alone.
- HttpHead.SetThenGet: `find` is the first of several equivalent fields, as the common implementation of the multimap does; the language standard allows any of them.
- TcpReceive.Receiver.Shift: the overlapping `memcpy` is modelled as a move.
- TcpSend.Session.Pull: the channel is a queue of messages; a push between two pops of the same turn counts as made before the turn.
- HttpEngine.Engine.CreateList: nodes are indices into an arena instead of heap objects; a loop that links two nodes per character is two loops.
- `http/src/url.cpp`, `network/abstract.cpp`: they rest on regular expressions and address parsing of other libraries.
- UDP, option forwarding, `thread_pool`, `multi_ret`, samples and benchmarks: they would only add easy members.
- `SleepWait`'s timer manager: sleeping is one of the places in `Runtime.dfy`, the timers are those of `Timer.dfy`.
