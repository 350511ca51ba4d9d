# Verified model of the wille scheduler, timers, events and logging

A Dafny model of the concurrent core of the wille C++ framework, with proofs about whole runs.
`dafny verify dfyconfig.toml` checks everything.

## What is modelled

**Scheduler** (`wille/scheduler.cpp`, `wille/scheduler.h`, the idle loop of `wille/iomanager.cpp`).
`SchedulerModel` is an interleaving transition system. One action is one atomic section of the
program; the scan of the task list is one action per element, and `IOManager::stopping` is three
separate reads. Every window in which work is visible to nobody (dequeued and not yet counted,
uncounted and not yet requeued, timers listed and not yet scheduled, an event triggered and not yet
uncounted) is a program counter of its own. The test of the state in `swapIn` and
the write of EXEC are two actions. Workers, user code in fibers, outside threads and the
thread in `stop` interleave freely; what fibers and outside threads do includes timers and the adding,
deleting and triggering of events. Pushes are numbered, so tasks can be followed.

- `SchedulerFacts`: the counters are exact and each task is in exactly one place, always.
- `Drain`: no unpinned task is stranded, although `stopping` may answer true too early.
- `Stranding`: what the drain theorem does not cover: pinned tasks, events and timers, each with the
  exact condition under which none is ever left.
- `SingleExecution` and `Hazards`: when no fiber runs twice and no assertion fails, and that none of
  the eight rules of that condition can be dropped. A handle may wait in the list, in the event table,
  or with another fiber or thread that schedules it once.
- `Stopping`: what the three reads of `stopping` say about all workers.
- `Shutdown`: quiescence is stable, free of deadlock, and ends after a bounded number of steps.
- `Scheduling`: what is pushed is what was asked for, and all of it for any worker is served.
- `Reuse`: how many fibers are ever made.
- `Yielding`: what a worker does with a fiber that leaves it, and that a yielded fiber runs again.
- `Bypass`: fairness of the task list, for unpinned and for pinned callbacks.
- `TaskListCode`: the loops over the task list as methods on an object updated in place.

**Fibers** (`wille/fiber.cpp`). `FiberSwitch` models the saved contexts of one thread: a context
continues whatever code was executing when it was saved. The proofs compare this with a stack.

**Timers** (`wille/timer.cpp`). `TimerSpec` states every operation as a function with 64-bit
wrap-around, `TimerFacts` and `TimerRuns` prove what they guarantee, once and over runs, and
`TimerCode` has the classes `Timer` and `TimerManager`, whose methods are tied to `TimerSpec`. The
clock is a parameter of each operation.

**Event table** (`wille/iomanager.cpp`, `wille/iomanager.h`). `EventTable` states every operation on
the table together with the interest set of the kernel; `ok` says whether the kernel accepts a legal
`epoll_ctl` call. `EventFacts` and `EventRuns` hold the proofs; `EventCode` has the classes
`FdContext` and `IOManager`.

`Levels` shows that the timer set and the event table are what the transition system takes them
for: each of their operations is a sequence of its actions on the shared memory. `Simulation` joins
the three: every run with the real timer set and event table is a run of the transition system.

**Log patterns and log configuration** (`wille/log.cpp`, `wille/config.h`). `LogPattern` states what a
pattern means on suffixes and has a printer; `LogFormatterCode` has the index loops of
`LogFormatter::init`, `LogFields` the twelve fields and the default pattern. `LogConfig` compares the incremental listener with a rebuild; `LogConfigCode`
has the classes of loggers, manager and configuration variable.

Three results are about code that does not do what its comment or its caller expects; each is stated
as an exact condition. The comment above `init` lists `%%` as an escape: it never is
(`LogPattern.DoubledPercentIsNoEscape`). `cancelEvent` and the polling loop abort when asked for an
event that is not registered while another one is (`EventRuns.RunAbortsIff`, with a shortest run in
`EventRuns.CancelOfOtherEventAborts`). The timeout given to `epoll_wait` is negative for some periods
from 2^31 on (`TimerRuns.KeepsTimeoutsIff`, with the run in `TimerRuns.LongTimerWaitsForever`).

## Model

| member | source | states |
|---|---|---|
| SchedulerFacts.CountersAreExact | wille/scheduler.cpp:148-198 | In every reachable state the active and idle counts are the numbers of workers inside their windows and the pending count covers every registered event and every event triggered by a worker, a fiber or an outside thread whose decrement is still to come; no decrement finds zero |
| SchedulerFacts.EachTaskHasOnePlace | wille/scheduler.cpp:120-182 | Every task ever pushed is in the list, in one worker's hands, run, or dropped as a dead fiber: one of them, once; a task never pushed is nowhere |
| SchedulerFacts.StepKeepsLedger | wille/scheduler.cpp:125-146 | The ledger of pushes is kept by every action of every thread, and tickets stay unique |
| SchedulerFacts.StepKeepsLock | wille/scheduler.cpp:125-146 | The list lock is held across actions exactly by the one scanning worker, whose iterator stays inside the list |
| Drain.NoUnpinnedTaskIsStranded | wille/scheduler.cpp:120-200 | In every interleaving, however early `stopping` answered true: once all workers have left, only pinned tasks can be queued and nobody holds a task |
| Drain.StopRunsEverything | wille/scheduler.cpp:60-104 | When `stop` has returned, each unpinned task ever pushed was started once, or was a fiber that had already ended; a callback was started exactly once |
| Drain.StepKeepsDraining | wille/scheduler.cpp:120-200 | The invariant behind it: an unpinned task in the list, or passed over by a scan, always has another worker that will scan again |
| Stranding.NoTaskIsLeftIffOneWorker | wille/scheduler.cpp:60-104 | `stop` leaves no task, pinned or not, in every run if and only if there is a single worker |
| Stranding.NoEventIsLeftIffOneWorker | wille/iomanager.cpp:272-277 | `stop` leaves no registered event in every run if and only if there is a single worker |
| Stranding.NoTimerIsLeftIffCallerIsAlone | wille/iomanager.cpp:272-277 | `stop` leaves no timer in every run if and only if the calling thread is the only worker |
| Stranding.NothingIsLeftIffCallerIsAlone | wille/iomanager.cpp:272-277 | `stop` leaves no task, timer or event in every run if and only if the calling thread is the only worker |
| Stranding.ThreadsOnlyStrandATimer | wille/iomanager.cpp:272-277 | For every number of worker threads without the caller there is a run in which `stop` returns with a timer pending |
| Stranding.TwoWorkersStrandATimer | wille/iomanager.cpp:272-277 | The same for any two workers or more, with or without the caller, through work that is dequeued and not yet counted |
| Stranding.TwoWorkersStrandAnEvent | wille/iomanager.cpp:272-277 | The same for a registered event |
| Stranding.TwoWorkersStrandAPinnedTask | wille/scheduler.cpp:130-133 | The same for a task pinned to a worker that has left |
| Scheduling.ActionAddsWhatItAsksFor | wille/scheduler.h:30-101 | Every action of every thread appends exactly the tasks that it asks for, with their work and thread and in order: what is submitted, spawned, shared or triggered, the callbacks of an expiry, the handle of a fiber that yielded |
| Scheduling.EverythingAskedForIsPushed | wille/scheduler.h:30-101 | Over every run the tasks ever pushed are the requests of the run, each once |
| Scheduling.EveryRequestIsServed | wille/scheduler.cpp:60-104 | When `stop` has returned, each request of the run for any worker has been started once or was a fiber that had ended; a callback has been started |
| SingleExecution.NoFiberRunsTwice | wille/scheduler.cpp:136-163 | If a fiber gives out one handle at most and then parks by plain `swapOut` or ends (a callback's own fiber, which is used again, only parks), and nobody else makes handles of it, no two workers are ever between swapping the same fiber in and being done with it; that one has dequeued a fiber another is busy with happens only after it has ended, and never if no fiber ends after giving out its handle |
| SingleExecution.NoAssertionFails | wille/scheduler.cpp:154-199 | In all these runs, those included in which a dequeued fiber is found ended and dropped, no assertion of `reset`, `swapIn`, `addEvent` and the yields fails: the spare callback fiber is INIT without handles, and a fiber about to be swapped in is neither running nor ended |
| SingleExecution.NothingIsDropped | wille/scheduler.cpp:154-187 | If, besides, no fiber ends after giving out its handle, no worker ever finds a dequeued fiber ended |
| SingleExecution.FittingWorkerDoesNotCrash | wille/fiber.cpp:88-119 | A worker whose program counter agrees with its fiber's state passes the assertions of `reset` and `swapIn`, and of the yields of the code it runs |
| Reuse.FibersAreReused | wille/scheduler.cpp:164-182 | Over every run the fibers made are those spawned, one at most for each worker as its callback fiber, and the callback fibers that their worker gave away when they yielded or parked: callbacks that run to their end use one fiber again and again |
| Yielding.WorkerHandsBack | wille/scheduler.cpp:154-182 | In every disciplined run, from the moment a fiber leaves until its worker is back at the loop head, the worker schedules exactly one handle of it, for any worker, when it called `YieldToReady`, and nothing after `swapOut`, `YieldToHold` or its end; it leaves it READY in the list, HOLD, TERM or EXCEPT, and its own callback fiber reset and kept |
| Yielding.YieldedFiberRunsAgain | wille/fiber.cpp:147-152 | A fiber that called `YieldToReady` in such a run has been started again, once and by that handle, when `stop` has returned |
| Hazards.RulesSufficeIffAll | wille/fiber.cpp:105-159 | The discipline consists of eight rules. A policy that enforces some of them keeps every scheduler free of failed assertions, and of two workers between swapping in and being done with one fiber, in every obeying run if and only if it enforces all eight |
| Hazards.EachRuleIsNeeded | wille/scheduler.cpp:136-182 | For each rule there is a run that obeys all others and ends with a failed assertion of `swapIn` or `reset`; for the two yields, with one worker inside a fiber that another has not left |
| Hazards.EndingAfterSharingClashes | wille/scheduler.cpp:163-182 | The run for a callback that shares its own fiber and ends: the fiber is reset and kept, another worker runs it from the stale handle, and the next callback fails the assertion of `reset` |
| Hazards.YieldToHoldCanRunTwice | wille/fiber.cpp:154-159 | Where `YieldToHold` is allowed after a handle was given out, a run has one worker still inside `swapOut` of a fiber that another has swapped in |
| Stopping.IdleGivesUpIff | wille/iomanager.cpp:272-282 | In every reachable state an idle worker passes the three reads of `stopping` exactly when there is no timer; when both flags are set, the list is empty and no worker is between counting and uncounting itself; when no event is registered and none is triggered and not yet uncounted |
| Stopping.StopGivesUpIff | wille/scheduler.cpp:60-104 | The same for the reads of the thread in `stop`: the caller's worker is started unless all three pass |
| Stopping.LoneCallerStopsAtOnce | wille/scheduler.cpp:60-73 | A caller without threads that has nothing to do returns from `stop` after the three reads, without entering the loop |
| Shutdown.QuiescenceIsStable | wille/iomanager.cpp:272-374 | From a quiescent state every action of anybody leads to a quiescent state and comes strictly nearer the end |
| Shutdown.QuiescentCanMove | wille/scheduler.cpp:89-103 | No deadlock: until `stop` has returned, some action is enabled |
| Shutdown.ShutdownEnds | wille/scheduler.cpp:60-104 | From any reachable quiet state a run has at most as many steps as the total distance, and a run that cannot go on has brought `stop` to its return with every worker out |
| Bypass.CallbackIsNotOvertaken | wille/scheduler.cpp:127-145 | An unpinned callback at index k is taken, or stands exactly one place nearer the front for each dequeue by any worker, whatever is scheduled meanwhile |
| Bypass.DequeuesTakeCallback | wille/scheduler.cpp:127-145 | Hence k + 1 dequeues always take it |
| Bypass.OwnDequeuesTakeCallback | wille/scheduler.cpp:127-145 | A callback at index k for worker w, or for any worker, is taken by the time w has taken k + 1 tasks |
| Bypass.TakenByItsWorker | wille/scheduler.cpp:130-144 | A task leaves the list only into the hands of one worker, which is the one it is pinned to when it is pinned |
| Bypass.HandsHoldOwnTasks | wille/scheduler.cpp:130-144 | In every reachable state a worker holds only tasks for any worker or for itself |
| TaskListCode.TaskQueue.ScheduleNoLock | wille/scheduler.h:68-76 | Appends a task that is not null at the back and says whether the list was empty |
| TaskListCode.TaskQueue.ScheduleBatch | wille/scheduler.h:42-57 | Appends exactly the callbacks that are set, in order, and leaves every source entry empty |
| TaskListCode.PresentIs | wille/scheduler.h:68-76 | Entry by entry, in order, a batch schedules each callback that is set once and an empty entry not at all |
| TaskListCode.TaskQueue.TakeFirst | wille/scheduler.cpp:127-145 | Takes the first task for this worker or for any that is a callback or a fiber not running when it is looked at, and keeps the order of the rest; changes nothing when there is none; fiber states may change between the looks |
| TaskListCode.ScanPasses | wille/scheduler.cpp:125-146 | In every run, a worker's scan passes over exactly the tasks it may not take at the moment it looks at them, whatever the other threads do in between |
| TaskListCode.ScanIsRepeatedStep | wille/scheduler.cpp:127-145 | A whole scan of the transition system, interleaved with everybody else, ends as that loop does: with the first eligible task taken, or with none found and the list as it was |
| TaskListCode.EmptyScanFindsNothing | wille/scheduler.cpp:127-145 | When a scan of worker w has found nothing, the list holds no callback for w or for any worker, and each fiber for them was running when w looked at it |
| FiberSwitch.OpKeepsNested | wille/fiber.cpp:105-131 | Swapping, parking, resetting and creating fibers under the discipline never fail and keep the saved contexts a stack with the current fiber on top |
| FiberSwitch.SwapOutResumesMatchingSwapIn | wille/fiber.cpp:105-131 | Over every disciplined run, each `swapOut` resumes the very code its matching `swapIn` suspended |
| FiberSwitch.SwapInResumesLastDeparture | wille/fiber.cpp:68-131 | Over every disciplined run, each `swapIn` goes on where the fiber swapped out last, or at its entry when it is new or was reset, and finds it in the state in which it was left |
| FiberSwitch.RoundTripIsRightIffCalledByBase | wille/fiber.cpp:105-131 | After a `swapIn` and the fiber's `swapOut`, the current-fiber pointer names the executing fiber if and only if the caller was the fiber it returns to |
| FiberSwitch.DepthIsBounded | wille/scheduler.cpp:17-28 | At most three levels on the caller's thread (thread, root, task), two on a worker thread |
| FiberSwitch.FiberThread.SwapInFiber | wille/fiber.cpp:105-118 | The method does what the model's `SwapIn` does, including the failing assertion |
| FiberSwitch.FiberThread.SetStateAndSwapOut | wille/fiber.cpp:119-131 | The method does what the model's `SwapOut` does, for main and other fibers |
| TimerFacts.RefreshKeepsValid | wille/timer.cpp:57-72 | After `refresh` the set is again strictly sorted by deadline and address and holds exactly the timers with a callback |
| TimerFacts.ResetKeepsValid | wille/timer.cpp:74-104 | The same for `reset`, with and without `from_now` |
| TimerFacts.CancelKeepsValid | wille/timer.cpp:45-55 | The same for `cancel`, which succeeds exactly for timers in the set, so the erased iterator is never the end |
| TimerFacts.AddKeepsValid | wille/timer.cpp:114-120 | The same for `addTimer`, if and only if the callback is not empty |
| TimerFacts.EmptyCallbackIsStuck | wille/timer.cpp:45-104 | A timer added with an empty callback is in the set, and `cancel`, `refresh` and `reset` leave it there |
| TimerFacts.AddIs | wille/timer.cpp:106-120 | `addTimer` adds a timer with deadline start + ms in 64-bit arithmetic, changes no other, and sets the notification flag, if it is not set, exactly when the new timer is first |
| TimerFacts.CancelIs | wille/timer.cpp:45-55 | `cancel` of a live timer takes its callback and changes nothing else; of a dead one it does nothing and says so |
| TimerFacts.RefreshIs | wille/timer.cpp:57-72 | `refresh` of a live timer moves its deadline to now + ms and changes nothing else; of a dead one it does nothing and says so |
| TimerFacts.ResetIs | wille/timer.cpp:74-104 | `reset`: true and no change for the same period without `from_now`; false and no change for a dead timer; otherwise the new period, the deadline now + ms, or the old one less the old period plus the new, and the flag set exactly when the timer is then first |
| TimerFacts.PollIs | wille/timer.cpp:135-150 | A poll clears the notification and changes nothing else |
| TimerFacts.RolloverIff | wille/timer.cpp:210-219 | A rollover is detected if and only if the clock is more than an hour behind the last expiry; when that was in the clock's first hour, any step back counts |
| TimerFacts.ExpiryIsExact | wille/timer.cpp:152-191 | An expiry takes exactly the timers due (all after a rollover), in order; recurring ones return at now + ms, one-shot ones lose their callback, the rest are untouched |
| TimerFacts.ExpiryHandsOutLiveCallbacks | wille/timer.cpp:182-184 | It hands out one live callback for each timer it takes, in the order of the set |
| TimerFacts.WaitIsLeast | wille/timer.cpp:135-150 | Without rollover the answer of `getNextTimer` is the least wait after which an expiry finds something, 0 when it would now, all ones when there is no timer |
| TimerFacts.NothingDueAfterExpiry | wille/timer.cpp:182-190 | After an expiry with positive periods nothing is due at that instant, so the idle loop does not spin |
| TimerFacts.TimeoutInRangeIff | wille/iomanager.cpp:301-305 | The timeout for `epoll_wait` lies in 0..3000 if and only if the wait is all ones or its cast to int is not negative; in range it never exceeds the wait |
| TimerRuns.KeepsTimeoutsIff | wille/iomanager.cpp:301-305 | Over all runs of a new manager under a monotone clock: periods below a bound keep every timeout of `epoll_wait` in 0..3000 if and only if the bound is at most 2^31 |
| TimerRuns.ShortWaitIsKept | wille/iomanager.cpp:301-305 | With such periods the timeout is the smaller of the wait and 3000, whenever it is computed |
| TimerRuns.LongTimerWaitsForever | wille/iomanager.cpp:301-305 | A timer whose period casts to a negative number, polled when it is added, makes `epoll_wait` wait for ever |
| TimerRuns.NoEarlierDeadlineIsMissed | wille/timer.cpp:135-208 | Over every run under a monotone clock past its first hour, used within an hour of being read, and with sums below 2^64: either `m_tickled` is set or the first deadline is not before the one the last poll saw; no rollover is detected |
| TimerRuns.RefreshKeepsNoticeIff | wille/timer.cpp:57-72 | `refresh` notifies nobody; with an arbitrary clock the claim survives it if and only if somebody is notified already or the new deadline is not before the one seen |
| TimerRuns.DeadTimerNeverFires | wille/timer.cpp:45-55 | After a successful `cancel` or the firing of a one-shot timer the timer never fires again, whatever is called and whatever the clock does |
| TimerRuns.FirstFiringIs | wille/timer.cpp:152-191 | In every run in time, a live timer that is left alone fires first at the first expiry at or after its deadline, if there is one |
| TimerRuns.RetimedTimerFires | wille/timer.cpp:57-120 | So after `addTimer`, `refresh` or `reset`, with the deadline these promise |
| TimerRuns.RefreshPostpones | wille/timer.cpp:57-72 | In every run in time, a timer refreshed at now does not fire before now + ms, unless it is refreshed or reset again |
| TimerRuns.OneShotFiresOnce | wille/timer.cpp:182-190 | A one-shot timer fires at most once in every run |
| TimerRuns.RecurringKeepsItsPeriod | wille/timer.cpp:182-190 | In a run whose expiries detect no rollover and compute no sum beyond 2^64, with any clock, the k-th firing of a recurring timer that is not refreshed or reset is no earlier than its first deadline plus k periods |
| TimerRuns.RecurringKeepsItsPeriodInTime | wille/timer.cpp:182-190 | The same for every run under a monotone clock as above, where rollovers are excluded by proof |
| TimerSpec.OrderIsUnique | wille/timer.cpp:9-30 | The comparator determines the order of the set: two sorted sequences of the same timers are equal |
| TimerCode.Timer.Cancel | wille/timer.cpp:45-55 | The method does the specified cancel in place and keeps the manager valid |
| TimerCode.Timer.Refresh | wille/timer.cpp:57-72 | The method does the specified refresh: out of the set, new deadline, back in |
| TimerCode.Timer.Reset | wille/timer.cpp:74-104 | The method does the specified reset and reports whether the poller is notified |
| TimerCode.TimerManager.AddTimer | wille/timer.cpp:114-120 | The method publishes a new timer, notifies exactly when the flag is newly set, and leaves a valid set exactly when the callback is not empty |
| TimerCode.TimerManager.EndOfDue | wille/timer.cpp:172-176 | `lower_bound` of the probe followed by the loop over equal deadlines ends behind exactly the due timers, whatever address the probe has |
| TimerCode.TimerManager.GetNextTimer | wille/timer.cpp:135-150 | The method answers the specified wait and clears the flag |
| TimerCode.TimerManager.ListExpiredCb | wille/timer.cpp:152-191 | The method returns the callbacks of the specified expiry and leaves the specified set |
| EventFacts.DoKeepsBooked | wille/iomanager.cpp:91-258 | Every operation, successful, refused or aborting, keeps the table well-formed (entry i is for descriptor i, a bit is set iff its slot holds a scheduler and exactly one of callback and fiber, the counter counts the set bits) and changes no other entry; `addEvent` grows it to fd + fd / 2 |
| EventFacts.DoIs | wille/iomanager.cpp:102-258 | With kernel and table in agreement every `epoll_ctl` call is legal, each answer (including when the assertion of `triggerEvent` or `addEvent` aborts) is given by the registered events alone, and the agreement survives exactly when the operation is not a `delEvent` that met an `epoll_ctl` failure |
| EventFacts.AddKeepsBookedIff | wille/iomanager.cpp:145 | A successful `addEvent` leaves a well-formed table if and only if the calling thread belongs to a scheduler |
| EventFacts.DoConserves | wille/iomanager.cpp:42-53 | Each operation changes registered plus scheduled continuations by what its caller registers, that is the callback or else the fiber it names for the scheduler of its own thread, and by what it forgets |
| EventFacts.DoSchedules | wille/iomanager.cpp:220-258 | An operation schedules exactly the continuations in the slots of the events it takes off, read before write; `addEvent` and `delEvent` schedule nothing |
| EventFacts.GrowthKeepsBooked | wille/iomanager.cpp:91-100 | Growing adds empty entries for their own descriptors |
| EventRuns.EachContinuationHasOneFate | wille/iomanager.cpp:102-258 | Over every run each continuation that a caller registered is scheduled, on the scheduler of that caller, forgotten by `delEvent`, or still registered, and counts once; none is scheduled that was not added |
| EventRuns.KernelAgrees | wille/iomanager.cpp:102-258 | The kernel's interest equals the masks along every run without an `epoll_ctl` failure in `delEvent` |
| EventRuns.PendingIsZeroIffNothingIsRegistered | wille/iomanager.cpp:272-277 | The pending count read by `stopping` is zero exactly when no event is registered |
| EventRuns.FailedDeleteBlocksTheDescriptor | wille/iomanager.cpp:177-186 | Assuming a kernel that refuses DEL and goes on watching: after `delEvent` forgot the last event of a descriptor, no `addEvent` on it ever succeeds again |
| EventRuns.FailedDeleteLetsReportsAbort | wille/iomanager.cpp:177-186 | Assuming the same of MOD, when the other event stays: the kernel watches both, and handling a report of both aborts |
| EventRuns.RunAbortsIff | wille/iomanager.cpp:42-53 | Over every run without an `epoll_ctl` failure in `delEvent`: the process aborts if and only if a computation on the event masks alone says so |
| EventRuns.RunFromStartAbortsIff | wille/iomanager.cpp:42-53 | The same from the start, where nothing is registered |
| EventRuns.CancelOfOtherEventAborts | wille/iomanager.cpp:199-215 | Adding one event of a descriptor and cancelling the other aborts |
| EventRuns.UndisturbedReportIsSafe | wille/iomanager.cpp:320-368 | A report of `epoll_wait` is handled without aborting if nobody took an event from that descriptor in between |
| EventRuns.OvertakenReportAborts | wille/iomanager.cpp:359-367 | With both events reported and one deleted before the handling, the handling aborts |
| EventRuns.BothEventsCanBeRegistered | wille/iomanager.cpp:102-156 | The situation above is reached from every state in which the descriptor has no events |
| EventRuns.RacingAddsLoseAnEventIff | wille/iomanager.cpp:104-113 | Of two racing `addEvent` calls the later resize keeps the table well-formed exactly when it still covers the other descriptor; otherwise that event is counted and watched and cannot be deleted |
| EventCode.FdContext.TriggerEvent | wille/iomanager.cpp:42-53 | Clears the bit, empties the slot and yields its continuation for its scheduler, or fails the assertion and changes nothing |
| EventCode.IOManager.ContextResize | wille/iomanager.cpp:91-100 | Keeps the contexts that fit and fills the rest with new empty ones |
| EventCode.IOManager.AddEvent | wille/iomanager.cpp:102-156 | The method does the specified add, growing the table when needed, on threads with and without a scheduler |
| EventCode.IOManager.DelEvent | wille/iomanager.cpp:158-187 | The method does the specified delete, also after an `epoll_ctl` failure |
| EventCode.IOManager.CancelEvent | wille/iomanager.cpp:189-218 | The method does the specified cancel, with its test for any event |
| EventCode.IOManager.CancelAll | wille/iomanager.cpp:220-258 | The method triggers the registered events, read before write |
| EventCode.IOManager.Handle | wille/iomanager.cpp:328-367 | One reported event: errors stand for everything registered, and what was reported is triggered |
| EventCode.IOManager.HandleReports | wille/iomanager.cpp:320-368 | The loop handles the reports in order, up to the first failing assertion |
| Levels.AddIsAddSlot | wille/iomanager.cpp:137-153 | A successful `addEvent` on the table is the scheduler model's action that registers the callback or fiber the caller named; any other answer leaves registrations and pending count alone |
| Levels.DelIsDelete | wille/iomanager.cpp:182-186 | A successful `delEvent` is the action that forgets exactly that continuation |
| Levels.TriggersAreReplayed | wille/iomanager.cpp:320-368 | `cancelEvent`, `cancelAll` and the handling of a report are the model's triggers and decrements of the continuations they schedule, in that order |
| Levels.ExpiryIsExpireStep | wille/iomanager.cpp:312-316 | `listExpiredCb` is the model's expiry action for the timers taken: they were in the set and the recurring ones stay |
| Levels.ExpiryListsTheSame | wille/iomanager.cpp:312-316 | The callbacks that action schedules are those `listExpiredCb` returns, one by one |
| Levels.AddIsAddTimer | wille/timer.cpp:114-120 | `addTimer` is the action that adds the new timer's entry |
| Levels.CancelIsDropTimer | wille/timer.cpp:45-55 | A successful `cancel` is the action that drops it |
| Levels.RetimingIsInvisible | wille/timer.cpp:57-104 | `refresh` and `reset` change no entry that the scheduler model sees |
| Simulation.JointRunsAreRuns | wille/iomanager.cpp:284-374 | Every run of a system with the real timer set and the real event table is a run of the scheduler model that ends with the same timers, events and pending count |
| Simulation.OpSimulates | wille/iomanager.cpp:284-374 | Each operation of that system is a sequence of enabled actions of the scheduler model, and the two still show the same afterwards |
| Simulation.NothingUnpinnedIsStranded | wille/scheduler.cpp:120-200 | The drain theorem for that system |
| LogPattern.RoundTripIffPrintable | wille/log.cpp:414-486 | Reading a printed list of texts and directives gives that list without an error if and only if it is printable: texts not empty, not adjacent, percent signs only at their end and before a directive, names of name characters, formats without a closing brace |
| LogPattern.PrintingNormalises | wille/log.cpp:414-486 | Every pattern without an open brace reads as the printed form of its own pieces does |
| LogPattern.ScanIsPrintable | wille/log.cpp:414-486 | Whatever is read from a pattern without an open brace is printable |
| LogPattern.DoubledPercentIsNoEscape | wille/log.cpp:424-429 | For no rest of the pattern and no pending text does `%%` read as one literal percent sign |
| LogPattern.PendingTextIsKept | wille/log.cpp:469-481 | Pending text comes out unchanged, in front of the text that follows it and behind exactly the error pieces that overtake it; nothing else depends on it |
| LogFormatterCode.PrintedFormatFailsIff | wille/log.cpp:511-529 | A printed list is formatted with an error exactly when some directive is no known field; texts and known fields become the items of the same position |
| LogFields.FieldReads | wille/log.cpp:488-531 | A percent sign and one letter read without an error exactly for the twelve fields, and otherwise as the error text |
| LogFields.UnclosedBraceIsText | wille/log.cpp:469-486 | A directive whose brace is not closed yields the error text, and then the text before it and its own, without the percent sign, as one text |
| LogFields.DefaultPatternReads | wille/log.cpp:58-63 | The pattern of a new logger reads without an error as time, thread, thread name, fiber, level, logger, file, line and message |
| LogFormatterCode.LogFormatter.ScanDirective | wille/log.cpp:431-467 | The inner index loop reads the directive, its format and where it ends, or finds the brace open |
| LogFormatterCode.LogFormatter.ScanPattern | wille/log.cpp:416-486 | The outer index loop computes the pieces of the pattern; its index advances in every turn |
| LogFormatterCode.LogFormatter.Init | wille/log.cpp:414-531 | Items and error flag are those of the pattern |
| LogConfig.DefinedLoggersAreBuilt | wille/log.cpp:692-753 | After every history of configurations and look-ups, whatever the loggers were before: a defined logger is the one built from its last definition with the last valid formatter of its history |
| LogConfig.DefinedLoggerFollowsItsDefinition | wille/log.cpp:710-741 | After every such history a defined logger has the level of its definition and one appender for each entry: a file with the name of the entry exactly for type 1, standard output otherwise, the level of the entry, and its formatter if that is given and valid, else the one of the logger |
| LogConfig.FormatterIsLastGiven | wille/log.cpp:710-718 | The formatter of the logger is the last valid one given to it by a configuration, or the one it had at first |
| LogConfig.IncrementalEqualsRebuildIff | wille/log.cpp:692-753 | It equals the logger the last configuration alone would give if and only if that definition has a valid formatter of its own or the history left the original one |
| LogConfig.LevelsAndFilesEqualRebuild | wille/log.cpp:710-741 | Level, number, kinds, files and levels of the appenders never depend on the history |
| LogConfig.UndefinedLoggers | wille/log.cpp:744-751 | A logger once defined and now not ends at level 0 without appenders; one never defined is not touched, and is made with level 1 and no appenders when it is looked up |
| LogConfigCode.Logger.AddAppender | wille/log.cpp:65-71 | An appender without a formatter gets the logger's |
| LogConfigCode.Logger.SetFormatter | wille/log.cpp:103-111 | A pattern with an error is refused; a valid one goes to the logger and all its appenders |
| LogConfigCode.Logger.Define | wille/log.cpp:710-741 | In place, the logger becomes what its definition specifies, with new appenders |
| LogConfigCode.LoggerManager.GetLogger | wille/log.cpp:551-562 | Finds the logger or makes it on demand, with level DEBUG and the default pattern |
| LogConfigCode.LoggerManager.OnChange | wille/log.cpp:694-752 | The two loops of the listener leave the loggers that the difference of the configurations specifies |
| LogConfigCode.ConfigVar.SetValue | wille/config.h:283-296 | An equal value does nothing; a new one runs the listener on old and new value and is then stored |

## Left out

- The order of memory operations: actions are sequentially consistent, and reads of a fiber's state without the lock are single actions. The assertion of `reset` and of the yields and the write behind it are one action; that of `swapIn` is two.
- `Scheduler::run`, `stop` and `idle` as methods: they are actions of the transition system, because their meaning lies in their interleaving; only the loops over the list are methods.
- `Scheduler::idle` of the base class: the idle loop is the one of `IOManager`, which is the class that runs.
- `start` and the constructors of the scheduler: the model begins when `start` has returned. A second `start` after `stop` is not modelled.
- Outside threads after `stop` has begun: they schedule nothing and touch no timer and no event, as the drain theorem needs; they only finish the decrement of an event they have triggered before.
- Wake-ups (`tickle`, the pipe, the timeout of `epoll_wait`): idle workers poll at any time, so no deadline for a wake-up is claimed, and `ShutdownEnds` counts steps, not time.
- The transition system lets any timer expire and any event fire at any time, which covers every clock and every kernel. In `Simulation` an operation on timers or events happens without others in between, except that the callbacks of an expiry are scheduled by a later action. It is made by a fiber, by the event loop, or before `stop` by an outside thread, which then registers callbacks and not itself.
- SingleExecution.NoFiberRunsTwice: does not cover fibers that break one of the eight rules; `Hazards` shows a run for each.
- Fibers that move between threads are not in `FiberSwitch`, which is about one thread; stacks, `ucontext` and exceptions inside a fiber are reduced to a state and a saved continuation.
- SingleExecution.NoAssertionFails: does not cover the assertion of the destructor on parked fibers. A fiber that has started and not ended is kept alive by the handle in its own `MainFunc`, so the destructor is not reached in that state; handles are not counted in the model.
- TimerCode.TimerManager.AddTimer: an empty callback is accepted as in the source; what the other methods do with a set that holds such a timer is stated for `cancel`, `refresh` and `reset` only.
- The first, unlocked test for emptiness in `listExpiredCb`: without it the locked test gives the same answer. The clock is read before the lock is taken, and is a parameter.
- TimerFacts.NothingDueAfterExpiry: needs positive periods, because a recurring timer of period 0 is due again at once.
- TimerRuns.NoEarlierDeadlineIsMissed: needs a monotone clock past its first hour, used within an hour of being read, and sums below 2^64; `RefreshKeepsNoticeIff` says what happens otherwise.
- `addConditionTimer`: a callback wrapped around another one.
- Descriptors that are closed while registered, which the kernel then forgets, so that it refuses DEL without watching any longer; negative descriptors; tables beyond 2^31 entries, where the cast of the size to `int` wraps.
- The test of `idle` for the pipe compares the low half of a pointer with a descriptor; the model assumes that they differ.
- EventCode.IOManager.AddEvent: a call from a thread without a scheduler is modelled, and what the other operations do with the table it leaves is not. The assertion that the calling fiber is running is left out.
- EventRuns.RacingAddsLoseAnEventIff: the operations of the event table are otherwise atomic; the growth check and the resize are the one pair taken apart.
- The order in which the listener visits names: the result does not depend on it, and the methods visit them in an arbitrary order.
- Appenders shared between loggers, and changes to loggers other than by configuration.
- Other listeners on the configuration variable, its locks, YAML parsing and printing.
- Rendering of log items, log output and reopening of files.
- `isalpha` in locales other than C, and characters outside ASCII.
- Addresses, threads, semaphores, locks, singletons and macros: thin wrappers or declarations without an implementation.
