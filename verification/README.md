# Boot path verification

A Dafny model of the hard parts of an Android boot path, with proofs: the LK
boot loader's kernel, the service supervisor and the rc tokenizer of Android's
init, the remote spin lock shared with a second processor, and the tag list that
the boot loader hands to Linux.

`dafny verify dfyconfig.toml` checks everything. No file needs another project.

## How it is organised

**The LK kernel.** The kernel is a transition system. A step is the code between
two context switches. Critical sections justify that a step is atomic: up to the
first timeout that comes late, no interrupt is taken inside one
(`MaskLaws.MaskFromBoot`). After it the steps stay atomic in the model only. A thread
that is off the CPU stopped inside one kernel call, and carries a continuation
that says where it goes on. A blocking call is therefore two steps: up to the
switch, and `Proceed` after it. The timer interrupt is a step of its own, allowed
only while the interrupt mask is open.

- `Bits`, `RunQueues`, `Words`, `TimerQueue`: bitmap, run queues, 32-bit time,
  time-ordered queue.
- `KernelState`, `KernelOps`, `KernelCalls`: the state and every call as a
  function of it. `KernelSteps`: the steps and the invariant.
- `KernelInv`, `KernelSide`, `KernelProofs`, `KernelSyncProofs`,
  `KernelDpcProofs`, `KernelTickProofs`: every step keeps the invariant.
- `KernelSync`, `KernelLaws`: an abstract machine of queues, mutexes, events and
  deferred calls without scheduler, timers or critical sections, and the proof
  that each kernel step is one step of it.
- `SwitchLaws`, `CallLaws`: what every step does to the run queues and the CPU,
  and what every call comes to.
- `KernelRuns`: start state and runs. `SchedulerLaws`, `SliceLaws`, `MutexLaws`,
  `ReleaseLaws`, `WaitLaws`, `TimeLaws`, `MaskLaws`, `Races`: what holds over all
  runs. `BareSteps`, `Scenes`: two runs from boot, step by step, that `Races` needs.
- `LkKernel`: the same kernel as an object whose methods update its fields in
  the order of the source. `Execute` and `Run` tie it to the transition system.

**Timers.** `Timers` is the general timer service: one-shot and periodic timers,
and callbacks that set and cancel timers while the tick runs. `TickEnds` says when
the tick's loop ends.

**init.** `Services` has the operations and the main loop's events,
`CommandLaws` what each event comes to for one service, flag by flag,
`ServiceLaws`, `SpacingLaws` and `RestartLaws` the laws over runs, `Supervisor`
the object; its lookups by name, process and class follow `init_parser.c` lines
445-505. `Tokenizer` defines the tokens of the unread text, `RcParser` is the
in-place code over a character array, `TokenizerRoundTrip` the printer and the
round trip, and `RcFile` states the round trip for a whole file.

**The rest.** `SpinLock`, `Atags` with `BootLinux`, and `NodeList`.

## Findings

Properties that the comments or the design suggest and that fail, each with an
input and the condition under which the code does meet it.

| property | fails for | holds exactly when |
|---|---|---|
| interrupts are masked exactly inside critical sections (`thread_unblock_from_wait_queue` returns `ERR_NOT_BLOCKED` from inside its section, thread.c:862-892) | `Races.LateTimeoutLeaks`, and from boot `Races.LeakFromBoot` | `MaskLaws.MaskFollowsSections`: no timeout fires for a thread that is no longer blocked; `MaskLaws.LeakDepth` and `MaskLaws.LeakedSectionsStay` say what it costs |
| a waiter for a mutex is woken (a timed-out claimant keeps the count raised until it runs, mutex.c:133-176) | `Races.HolderStrandsItself`, and from boot `Races.StrandingFromBoot` | `MutexLaws.WakeupLostExactlyWhen`: no acquire blocks on a mutex that is free but still counted; mutual exclusion holds all the same |
| `thread_resume` refuses a thread that is not suspended (thread.c:183-210) | blocked, sleeping and dead targets | `SchedulerLaws.ResumeKeepsInvariantExactlyWhen`: the target is suspended, ready or running |
| the timer tick ends (timer.c:202-258) | a due timer with a period of more than half the time range (`Timers.LongPeriodStaysDue`), a callback that sets such a period (`TickEnds.LongAskExample`), a one-shot that sets itself again with such a delay (`TickEnds.RearmingNeverEnds`) | `TickEnds.TickEndsExactlyWhen`, for callbacks that from some turn on ask for later times only: each timer that is due by then with such a period is cancelled or set again by one of them. `TickEnds.AskingTickEndsExactlyWhen`, for callbacks that cancel nothing and set no such period due at once: at some turn no more timers have been due and asked for than there were turns |
| automatic restarts come at least five seconds after the last fork (init.c:418-439) | `SpacingLaws.ClassStartForgetsTheDelay` | `SpacingLaws.RestartsExactlyWhen`: no start has reached the service while it ran (init.c:168-177) |
| a processor that asks for the remote lock can get it (remote_spinlock.c:90-108) | `SpinLock.BothAskAtOnce` | `SpinLock.ProgressExactlyWhen`, for each processor: the two do not both wait with both flags up |
| a named escape stands for its character alone (parser.c:143-159) | every escape of n, r and t (`TokenizerRoundTrip.NamedEscapeKeepsItsLetter`); an escaped backslash before n, r, t, a backslash, a quote, a blank, a line feed, or a CR with more text after it | `TokenizerRoundTrip.DoubleBackslashExactlyWhen`: the escape is that of a backslash, before the end of the text, a plain character other than n, r and t, or a CR that ends the text |
| backslash and a line end continue a line (parser.c:160-172) | every CR-LF: `TokenizerRoundTrip.CrLfDoesNotContinue` | a plain line feed: `TokenizerRoundTrip.LineFeedContinues` |

`event_signal` without reschedule is documented to put waiters at the end of the
run queue. They go to its head (`SliceLaws.SignalPutsAtHead`); the model follows
the code.

## Model

| member | source | states |
|---|---|---|
| RunQueues.BitmapChoiceIsLinearScan | bootable/lk/kernel/thread.c:309-329 | the bitmap is non-zero exactly when some queue is non-empty, and then the count-leading-zeros choice is the linear scan from the highest priority and finds the highest non-empty queue |
| RunQueues.PushKeepsIndex | bootable/lk/kernel/thread.c:80-104 | after an insert at the head or the tail each bit is set exactly when its queue is non-empty |
| RunQueues.PopKeepsIndex | bootable/lk/kernel/thread.c:312-319 | so it is after the head of a queue was removed |
| KernelTickProofs.StepInv | bootable/lk/kernel/thread.c:193-892 | every step of every call, return and timer interrupt keeps the whole invariant of scheduler, wait queues, timers, mutexes, events and deferred calls |
| SchedulerLaws.OwnershipAlongRuns | bootable/lk/kernel/thread.c:80-892 | in every state of every run of atomic steps from the start, exactly the current thread is RUNNING, a READY thread is once in the queue of its priority, a BLOCKED one once in the queue it is blocked on, a sleeper has its wakeup queued, others are in no queue, counts are lengths, and saved section counts are positive |
| SchedulerLaws.ReschedChecks | bootable/lk/kernel/thread.c:299-360 | wherever a thread leaves the CPU the assertions of thread_resched hold and it picks a thread of the highest ready priority |
| SchedulerLaws.ReschedTakes | bootable/lk/kernel/thread.c:309-376 | thread_resched takes the head of the highest non-empty queue and changes no other queue |
| SchedulerLaws.RoundRobin | bootable/lk/kernel/thread.c:388-408 | threads of the top priority that only yield take turns: after k yields the line has turned by exactly k places |
| SchedulerLaws.LowerPriorityYields | bootable/lk/kernel/thread.c:388-408 | a thread at place k of the highest ready queue above the current priority runs after exactly k + 1 yields |
| SchedulerLaws.ResumeKeepsInvariantExactlyWhen | bootable/lk/kernel/thread.c:183-210 | thread_resume keeps the invariant if and only if its target is suspended, ready or running, and refuses exactly ready and running ones |
| SliceLaws.PreemptDecides | bootable/lk/kernel/thread.c:425-448 | thread_preempt at the top priority lets the caller go on while its slice lasts, else runs the next in line, refilling a used-up slice to five |
| SliceLaws.SliceLasts | bootable/lk/kernel/thread.c:475-485 | through fewer timer interrupts than its slice has ticks the thread keeps the CPU, its line and its place, and loses one tick each |
| SliceLaws.SliceEnds | bootable/lk/kernel/thread.c:425-485 | the interrupt that uses the slice up hands the CPU to the next in line |
| SliceLaws.WokenRunsUnlessLower | bootable/lk/kernel/thread.c:739-774 | after a wake with reschedule the woken thread runs if its priority is not below the waker's, otherwise the waker goes on |
| SliceLaws.SignalPutsAtHead | bootable/lk/kernel/event.c:164-193 | a signal without reschedule puts the first waiter of an auto-unsignal event, or all waiters of another, the last in front, at the head of the run queues of their priorities, and changes nothing else in them |
| SwitchLaws.StepSwitches | bootable/lk/kernel/thread.c:283-892 | for every step that gives up the CPU: each run queue before the switch is the threads the step wakes, last one first, the queue as it was, and the caller at its place, in front, behind those it woke, at the end, or gone; the head of the highest queue then runs, with a slice of five if its own was used up, and every other slice and priority is as stated |
| SwitchLaws.StepContinues | bootable/lk/kernel/thread.c:183-892 | after any other step the caller goes on, the threads it wakes are at the heads of their queues, last one first, no slice changes, and only thread_set_priority changes a priority, to its argument clamped to 0 to 31 |
| SwitchLaws.SignalRunsWaiter | bootable/lk/kernel/event.c:164-193 | a signal with reschedule on a clear auto-unsignal event runs its first waiter at once if its priority is not below the caller's, else the caller goes on, as long as no ready thread is above both |
| SwitchLaws.CallbackRunsThread | bootable/lk/kernel/dpc.c:50-64 | so does a deferred call queued with reschedule with the thread that waits for such calls |
| SwitchLaws.OneWokenRunsUnlessLower | bootable/lk/kernel/thread.c:739-774 | so does every step that wakes one thread and reschedules, a mutex release included |
| SwitchLaws.LastWokenRuns | bootable/lk/kernel/thread.c:488-498 | when an interrupt, or a signal with reschedule, wakes threads of a priority above all others, the last one woken of that priority runs |
| SwitchLaws.FireDueWokes | bootable/lk/kernel/thread.c:488-498 | the due timers put the sleepers, and the waiters still blocked, at the heads of their run queues in the order of the timer queue |
| CallLaws.AcquireOutcome | bootable/lk/kernel/mutex.c:88-176 | an acquire takes a free mutex whatever its timeout, gives up on another without a trace if the timeout is zero, and otherwise is counted and waits last in line |
| CallLaws.AcquireReturns | bootable/lk/kernel/mutex.c:104-176 | after the wait a woken thread owns the mutex, and one that timed out takes its claim back |
| CallLaws.ReleaseOutcome | bootable/lk/kernel/mutex.c:182-207 | a release leaves the mutex without owner and with one claim fewer |
| CallLaws.WaitOutcome | bootable/lk/kernel/event.c:110-137 | a wait passes a signalled event, clears it if it is auto-unsignal, gives up if the timeout is zero, and otherwise waits last in line |
| CallLaws.SignalOutcome | bootable/lk/kernel/event.c:164-193 | after a signal the event is set unless it is auto-unsignal, was clear and had a waiter |
| CallLaws.UnsignalOutcome | bootable/lk/kernel/event.c:207-220 | after an unsignal the event is clear and no other has changed |
| CallLaws.CallbackOutcome | bootable/lk/kernel/dpc.c:50-64 | queueing a call appends it and leaves the event set |
| CallLaws.DpcWaitOutcome | bootable/lk/kernel/dpc.c:66-75 | the loop goes on to take a call if the event is set, otherwise it waits without a timeout |
| CallLaws.TakeOutcome | bootable/lk/kernel/dpc.c:71-86 | the loop takes the first call, or clears its event and waits again |
| CallLaws.DpcLoopGoesOn | bootable/lk/kernel/dpc.c:66-86 | when its wait returns the loop takes a call, and after a call it waits again |
| CallLaws.CreateOutcome | bootable/lk/kernel/thread.c:140-181 | a new thread is suspended, has the given priority and is in no queue |
| KernelSync.KernelRefinesSync | bootable/lk/kernel/thread.c:690-892 | each kernel step is one step of the abstract machine of wait lists, mutexes, events and deferred calls |
| MutexLaws.MutualExclusion | bootable/lk/kernel/mutex.c:88-207 | over every run of atomic steps at most one thread owns or is being handed a mutex, and its count is owner or hand-off, plus queued waiters, plus timed-out waiters that have not run |
| MutexLaws.OwnerKeepsMutex | bootable/lk/kernel/mutex.c:88-207 | a thread that owns a mutex owns it until its own release, whatever step is taken and whatever timeout expires |
| MutexLaws.OwnerKeepsMutexAlongRuns | bootable/lk/kernel/mutex.c:88-207 | so it is along every run without that release |
| MutexLaws.GrantsFollowArrivals | bootable/lk/kernel/mutex.c:104-202 | with untimed or zero-timeout acquires, ownership is granted in strict order of arrival |
| MutexLaws.UntimedNeverLost | bootable/lk/kernel/mutex.c:104-202 | then a non-empty wait list means an owner or a hand-off in progress |
| MutexLaws.WakeupLostExactlyWhen | bootable/lk/kernel/mutex.c:133-207 | a step loses a wakeup if and only if it is an acquire that blocks on a mutex that is free but still counted |
| MutexLaws.StrandedForever | bootable/lk/kernel/mutex.c:152-207 | an untimed waiter on such a mutex waits for ever, whatever is run |
| Races.HolderStrandsItself | bootable/lk/kernel/mutex.c:133-207 | a holder whose other claimants have all timed out but not run releases the mutex, acquires it again and never gets it |
| Races.StrandingFromBoot | bootable/lk/kernel/mutex.c:133-207 | a run from boot that does so, with any continuation |
| KernelLaws.LostExactlyWhen | bootable/lk/kernel/mutex.c:133-207 | the same condition for one step of the abstract machine |
| KernelLaws.MutexCensus | bootable/lk/kernel/mutex.c:88-207 | a mutex's count is its owner, or the thread being handed it, plus its queued waiters, plus the timed-out waiters that have not run |
| ReleaseLaws.WaiterOfStep | bootable/lk/kernel/thread.c:690-892 | a step releases a blocked thread if and only if it releases its mutex or signals its auto-unsignal event while it is first in line, signals its sticky event, or is an interrupt that fires its timeout; it then gives it success or, in an interrupt, the timeout code |
| ReleaseLaws.ReleasedOnce | bootable/lk/kernel/thread.c:690-774 | a blocked thread that is not switched in stays blocked, in its queue and no other, up to the first step that releases it in that sense; from that step on it is in no wait queue and holds that step's code, and no later step changes either |
| ReleaseLaws.ReleasedStays | bootable/lk/kernel/thread.c:862-892 | a released thread keeps its code and stays out of the wait queues until it runs, whatever wakes or timeouts follow |
| ReleaseLaws.ReturnFromWait | bootable/lk/kernel/thread.c:690-724 | a thread that comes back from its wait was released by a step of the run, the first that could; its result is that step's code, and its timer is out of the timer queue |
| WaitLaws.SignalsConserved | bootable/lk/kernel/event.c:110-220 | for an auto-unsignal event over any run, successful waits plus explicit clears plus the signal still set equal the initial signal plus the signals issued while clear |
| WaitLaws.SignalledHasNoWaiters | bootable/lk/kernel/event.c:110-193 | over any run a signalled event has no waiters |
| WaitLaws.CallsRunInOrder | bootable/lk/kernel/dpc.c:50-86 | over any run the deferred calls queued are the calls started, in the same order, followed by those still queued |
| WaitLaws.CallsAnnounced | bootable/lk/kernel/dpc.c:50-86 | while calls are queued their event is signalled and the thread that runs them is not blocked on it |
| WaitLaws.ExitedThreadStep | bootable/lk/kernel/thread.c:212-265 | a thread dies only by its own exit and is freed only by its own cleanup call, off the CPU |
| WaitLaws.ExitedThreadsWaitForCleanup | bootable/lk/kernel/thread.c:212-265 | a dead thread is off the CPU and in no queue, and exactly one cleanup call names it |
| TimeLaws.SleepArmsWakeup | bootable/lk/kernel/thread.c:513-529 | thread_sleep queues the wakeup for now plus the delay, at least one |
| TimeLaws.TimersOfStep | bootable/lk/kernel/thread.c:513-715 | a step other than an interrupt leaves the timer queue alone, queues the one timer of its own call, or cancels its own thread's timeout |
| TimeLaws.TimersInOrder | bootable/lk/kernel/timer.c:61-76 | over every run in which the pending times fit half the range at each step, the timer queue stays in time order |
| TimeLaws.SleeperWakesExactlyWhen | bootable/lk/kernel/thread.c:488-529 | a sleeper wakes if and only if the step is a timer interrupt whose time is not before its wakeup; until then its timer stays queued |
| TimeLaws.SleepsUntil | bootable/lk/kernel/thread.c:488-529 | along such a run a sleep lasts up to the first timer interrupt that is not before its wakeup, and ends there |
| TimeLaws.WaitTimesOutExactlyWhen | bootable/lk/kernel/thread.c:658-672 | a blocked timed waiter gives up with the timeout code in an interrupt if and only if its time is not after that of the interrupt |
| TimeLaws.TickReleases | bootable/lk/kernel/thread.c:658-672 | on the abstract machine a tick releases a blocked waiter with the timeout code exactly when it fires that waiter's own timeout |
| TimeLaws.DuePrefixIsAllDue | bootable/lk/kernel/timer.c:202-220 | in a sorted queue within half the time range the timers the tick takes from the head are all that are due |
| MaskLaws.MaskFollowsSections | bootable/lk/include/kernel/thread.h:129-141 | a step keeps interrupts masked exactly inside critical sections if and only if no timeout fires in it for a thread that is no longer blocked |
| MaskLaws.MaskAlongRuns | bootable/lk/include/kernel/thread.h:129-141 | so it is over every run without such a timeout |
| MaskLaws.MaskThroughoutExactlyWhen | bootable/lk/include/kernel/thread.h:129-141 | the mask is in line throughout a run if and only if no timeout comes late in it |
| MaskLaws.MaskFromBoot | bootable/lk/include/kernel/thread.h:129-141 | from boot, without a late timeout, no timer interrupt is taken inside a section |
| MaskLaws.LeakDepth | bootable/lk/kernel/thread.c:862-892 | the interrupted thread is left as many sections too deep as timeouts came late |
| MaskLaws.LeakedSectionsStay | bootable/lk/arch/arm/exceptions.S:83-113 | and returns from the interrupt with interrupts open inside them |
| Races.LateTimeoutLeaks | bootable/lk/kernel/thread.c:862-892 | whenever a timed waiter is woken and its timeout is due before it runs, the next interrupt breaks the rule |
| Races.LeakFromBoot | bootable/lk/kernel/thread.c:862-892 | a run from boot that does so |
| LkKernelClass.LkKernel.constructor | bootable/lk/kernel/thread.c:536-608 | the kernel as it is when the bootstrap thread has become the idle thread; it satisfies the invariant |
| LkKernelClass.LkKernel.EnterCriticalSection | bootable/lk/include/kernel/thread.h:129-134 | counts up and masks at the first level |
| LkKernelClass.LkKernel.ExitCriticalSection | bootable/lk/include/kernel/thread.h:136-141 | counts down and unmasks at the last |
| LkKernelClass.LkKernel.InsertInRunQueueHead | bootable/lk/kernel/thread.c:80-91 | pushes at the head and sets the bit |
| LkKernelClass.LkKernel.InsertInRunQueueTail | bootable/lk/kernel/thread.c:93-104 | pushes at the tail and sets the bit |
| LkKernelClass.LkKernel.HighestReadyQueue | bootable/lk/kernel/thread.c:321-329 | the scan the bitmap replaced finds the same queue |
| LkKernelClass.LkKernel.ThreadResched | bootable/lk/kernel/thread.c:283-377 | the new state is that of the model's switch |
| LkKernelClass.LkKernel.ThreadYield | bootable/lk/kernel/thread.c:388-408 | the new state is that of the model's yield |
| LkKernelClass.LkKernel.ThreadPreempt | bootable/lk/kernel/thread.c:425-448 | the new state is that of the model's preemption |
| LkKernelClass.LkKernel.ThreadResume | bootable/lk/kernel/thread.c:193-210 | new state and result are those of the model's resume |
| LkKernelClass.LkKernel.ThreadSleep | bootable/lk/kernel/thread.c:513-529 | the new state is that of the model's sleep |
| LkKernelClass.LkKernel.ThreadExit | bootable/lk/kernel/thread.c:243-265 | the new state is that of the model's exit |
| LkKernelClass.LkKernel.ThreadCreate | bootable/lk/kernel/thread.c:140-181 | adds a suspended thread one section deep |
| LkKernelClass.LkKernel.ThreadSetPriority | bootable/lk/kernel/thread.c:584-591 | sets the priority, clamped |
| LkKernelClass.LkKernel.InsertTimerInQueue | bootable/lk/kernel/timer.c:61-76 | the loop finds the place of the model's insertion |
| LkKernelClass.LkKernel.TimerCancel | bootable/lk/kernel/timer.c:158-199 | removes the timer if it is queued |
| LkKernelClass.LkKernel.WaitQueueBlock | bootable/lk/kernel/thread.c:690-715 | the new state is that of the model's block; a zero timeout returns the timeout code and changes nothing |
| LkKernelClass.LkKernel.WaitQueueWakeOne | bootable/lk/kernel/thread.c:739-774 | wakes the first waiter, if any, with the given code, with or without reschedule, and counts it |
| LkKernelClass.LkKernel.ReleaseAll | bootable/lk/kernel/thread.c:810-822 | the loop releases every waiter in order and counts them |
| LkKernelClass.LkKernel.WaitQueueWakeAll | bootable/lk/kernel/thread.c:791-832 | wakes all waiters with the given code, with or without reschedule |
| LkKernelClass.LkKernel.ThreadUnblockFromWaitQueue | bootable/lk/kernel/thread.c:862-892 | new state and result, the refusal inside the section included |
| LkKernelClass.LkKernel.MutexAcquire | bootable/lk/kernel/mutex.c:88-176 | new state up to the switch, and the result of a call that returns without one |
| LkKernelClass.LkKernel.MutexRelease | bootable/lk/kernel/mutex.c:182-207 | the new state is that of the model's release |
| LkKernelClass.LkKernel.EventWait | bootable/lk/kernel/event.c:110-137 | new state up to the switch, and the result of a call that returns without one |
| LkKernelClass.LkKernel.EventSignal | bootable/lk/kernel/event.c:164-193 | the new state is that of the model's signal |
| LkKernelClass.LkKernel.EventUnsignal | bootable/lk/kernel/event.c:207-220 | clears the event and nothing else |
| LkKernelClass.LkKernel.DpcQueue | bootable/lk/kernel/dpc.c:50-64 | appends the call and signals its event |
| LkKernelClass.LkKernel.DpcTake | bootable/lk/kernel/dpc.c:71-75 | takes the first call, or clears the event if there is none |
| LkKernelClass.LkKernel.DpcFinish | bootable/lk/kernel/thread.c:212-235 | the end of a call; a cleanup frees its thread |
| LkKernelClass.LkKernel.Return | bootable/lk/kernel/thread.c:715-724 | the code after the switch, for every place a thread can have stopped |
| LkKernelClass.LkKernel.TimerTick | bootable/lk/kernel/timer.c:213-245 | the loop fires the due timers in order |
| LkKernelClass.LkKernel.ThreadTimerTick | bootable/lk/kernel/thread.c:475-485 | takes one tick from the current slice, unless idle |
| LkKernelClass.LkKernel.Interrupt | bootable/lk/arch/arm/exceptions.S:64-113 | timers, slice and preemption, as the model's interrupt |
| LkKernelClass.LkKernel.Execute | bootable/lk/kernel/thread.c:193-892 | any enabled step makes the object's state the model's next state and keeps the invariant |
| LkKernelClass.LkKernel.Run | bootable/lk/kernel/thread.c:193-892 | a whole run ends in the state in which the model's run ends |
| TimerQueue.OrderInHalf | bootable/lk/include/sys/types.h:65-68 | within half the range the wrap-around comparisons order times by their distance from its start |
| TimerQueue.LaterExactlyWhen | bootable/lk/include/sys/types.h:65-68 | a delay puts a timer into the future if and only if it is positive and at most half the range |
| TimerQueue.InsertSorted | bootable/lk/kernel/timer.c:61-76 | insertion keeps the queue sorted while its times fit in half the range |
| TimerQueue.InsertIsStable | bootable/lk/kernel/timer.c:61-76 | timers of the same time stay in the order in which they were set |
| Timers.TickFiresWhatIsDue | bootable/lk/kernel/timer.c:202-258 | a tick fires exactly the timers due at its start, in order, but for those cancelled before their turn, whatever the callbacks set and cancel; then all queued timers lie in the future and the queue is sorted |
| Timers.FireKeeps | bootable/lk/kernel/timer.c:213-245 | one turn of the loop takes the first due timer, drops those its callback cancels and makes none due, so the number of due timers falls |
| Timers.FiredOnce | bootable/lk/kernel/timer.c:202-258 | no timer fires twice in a tick |
| Timers.FiredUnlessCancelled | bootable/lk/kernel/timer.c:202-258 | a due timer that no callback cancels fires |
| Timers.OperationOutcome | bootable/lk/kernel/timer.c:78-199 | setting a queued timer panics; a one-shot or periodic timer is queued for its delay after the clock, at least one, and keeps its period; a cancelled timer is queued no more and has none |
| Timers.LongPeriodStaysDue | bootable/lk/kernel/timer.c:238-244 | with a period of more than half the range the requeued timer is due at once |
| TickEnds.TickEndsExactlyWhen | bootable/lk/kernel/timer.c:202-258 | for endless scripts of callbacks that from turn k on ask for later times only, the loop ends if and only if every timer due at turn k with a period of more than half the range is cancelled or set again by a callback from then on |
| TickEnds.AskingTickEndsExactlyWhen | bootable/lk/kernel/timer.c:202-258 | with short periods and callbacks that cancel nothing but may ask for times that are not later, the loop ends if and only if at some turn the timers due at the start and those asked for since are no more than the turns |
| TickEnds.QuietTickEndsExactlyWhen | bootable/lk/kernel/timer.c:202-258 | with callbacks that leave the timers alone it ends if and only if no due timer has a period of more than half the range |
| TickEnds.LongPeriodNeverEnds | bootable/lk/kernel/timer.c:213-245 | once such a timer is due and no later callback touches it, the loop does not end |
| TickEnds.LongAskNeverEnds | bootable/lk/kernel/timer.c:148-153 | nor does it once a callback sets such a period, due at once, and none touches that timer again |
| TickEnds.LongAskExample | bootable/lk/kernel/timer.c:148-153 | one due one-shot whose callback sets a period just above half the range: no due timer is long, and the loop does not end |
| TickEnds.RearmingNeverEnds | bootable/lk/kernel/timer.c:127-132 | nor does it with a one-shot that sets itself again with a delay of more than half the range |
| Timers.TimerService.InsertTimerInQueue | bootable/lk/kernel/timer.c:61-76 | the loop inserts before the first strictly later timer |
| Timers.TimerService.TimerSet | bootable/lk/kernel/timer.c:78-132 | sets the timer, or panics if it is queued |
| Timers.TimerService.TimerCancel | bootable/lk/kernel/timer.c:158-199 | unlinks the timer and clears period and callback |
| Timers.TimerService.Perform | bootable/lk/kernel/timer.c:127-153 | one operation of a callback, a zero delay or period taken as one |
| Timers.TimerService.FireHead | bootable/lk/kernel/timer.c:218-244 | one turn of the tick's loop |
| Timers.TimerService.TimerTick | bootable/lk/kernel/timer.c:202-245 | the loop ends, in the model's queue and with the model's firing order |
| Services.LifeCycleAlongRuns | init/init/init.c:154-439 | over every run RUNNING holds exactly with a non-zero pid, RESTARTING implies pid zero and none of RUNNING, DISABLED, RESET and RESTART, pids are distinct and start times lie in the past |
| Services.LifeCycleFromTheStart | init/init/init.c:154-439 | so it is over every run from services as they are parsed |
| CommandLaws.ExitOutcome | init/init/signal_handler.c:84-131 | for every set of flags what an exit makes of the service: stopped if disabled, reset or a one-shot that nobody restarts; recovery at the fifth crash of a critical service within 240 seconds; otherwise waiting to restart, with the crash counted only if it is critical and was not told to restart, and the onrestart commands run |
| CommandLaws.CounterChangesOnlyByCrash | init/init/signal_handler.c:103-117 | an event changes a crash counter only if it is the exit of that service and the service is critical, not disabled, reset or told to restart, and no one-shot |
| CommandLaws.RebootExactlyWhen | init/init/signal_handler.c:103-117 | an event forces recovery if and only if it is such an exit, within 240 seconds and with more than four crashes |
| CommandLaws.RebootNeedsCritical | init/init/signal_handler.c:103-117 | a run of init reboots only at the crash of a critical service |
| CommandLaws.StartOutcome | init/init/init.c:154-360 | a start by name or through a property forks exactly when the service is not running, has the console it needs, is found, takes arguments only as a one-shot, is labelled and the fork succeeds; it disables it exactly in the three cases of a missing console, a missing program and unwanted arguments; no other service changes |
| CommandLaws.StopOutcome | init/init/init.c:363-399 | a stop by name disables the service and takes it out of restarting |
| CommandLaws.RestartOutcome | init/init/init.c:401-410 | a restart marks a running service, leaves one that waits to restart alone and starts any other |
| CommandLaws.RestartComesBack | init/init/signal_handler.c:84-121 | a running service that is told to restart waits to be restarted once its process has exited, and nothing is held against it |
| CommandLaws.ClassOutcome | init/init/builtins.c:195-234 | a class command changes no service of another class; a stop disables, a reset disables those the configuration disables and resets the others, a start attempts those that are not disabled |
| CommandLaws.ResetComesBackExactlyWhen | init/init/init.c:375-379 | after a class reset, the exit and a class start, a service that ran and was not disabled runs again if and only if the configuration does not disable it and it is no one-shot that nobody restarts |
| CommandLaws.HeldUntilStarted | init/init/signal_handler.c:95-101 | a disabled or reset service gets no process from restart ticks or anything else until some start reaches it |
| CommandLaws.UnknownNameIgnored | init/init/builtins.c:584-613 | a command for an unknown name changes nothing |
| ServiceLaws.StoppedUntilStarted | init/init/builtins.c:195-234 | a stopped service stays stopped and gets no process through exits, ticks, class starts, class resets and commands to others, until it is started or restarted by name |
| ServiceLaws.StopsAreStopped | init/init/signal_handler.c:87-101 | a stop, and a plain exit of a one-shot service, lead to that state |
| ServiceLaws.SurvivingCrashes | init/init/signal_handler.c:103-117 | crash times that never force a reboot: at most four are counted and at most eight lie in any 240-second span |
| ServiceLaws.RebootMeansFiveCrashes | init/init/signal_handler.c:103-117 | the crash that forces it is the fifth of one 240-second span |
| ServiceLaws.SurvivingTimesAreReached | init/init/signal_handler.c:46-131 | every non-decreasing sequence of crash times that forces no reboot is the crash log of a run of init from a service as parsed |
| ServiceLaws.EightCrashesSurvive | init/init/signal_handler.c:43-131 | a run of init with eight crashes in one span and no reboot, so the bound is exact |
| ServiceLaws.AtMostEightCrashes | init/init/signal_handler.c:46-131 | both bounds over any run of init under any non-decreasing clock |
| ServiceLaws.RebootAfterFiveCrashes | init/init/signal_handler.c:46-131 | a reboot for a service follows five of its crashes within one 240-second span of the run |
| SpacingLaws.StartTimeAlongRuns | init/init/init.c:154-360 | over every run a service that runs or waits to restart keeps what the clock showed at its last fork, or zero exactly if a start has reached it while it ran since then |
| SpacingLaws.RestartsExactlyWhen | init/init/init.c:418-439 | after any run the next tick takes up a waiting service if and only if five seconds have passed since its last fork, or a start has reached it while it ran and the clock is past its first five seconds |
| SpacingLaws.ClassStartForgetsTheDelay | init/init/init.c:154-177 | a run from a service as parsed in which a class start reaches the running service and its automatic restart follows at once |
| RestartLaws.NeedsRestartIsEarliest | init/init/init.c:418-439 | after restart_processes the pending time is zero exactly when nothing waits to restart, else the earliest start |
| RestartLaws.PollMeetsTheRestart | init/init/init.c:1192-1199 | the poll timeout is zero when init is busy, none exactly when nothing is pending and init is idle, is at most five seconds, and ends exactly at the pending start |
| Supervisor.InitProcess.ServiceStart | init/init/init.c:154-360 | every early return and both outcomes of the fork |
| Supervisor.InitProcess.ServiceStopOrReset | init/init/init.c:363-389 | flags of a stop, reset or restart |
| Supervisor.InitProcess.ServiceRestart | init/init/init.c:401-410 | stop, start or nothing |
| Supervisor.InitProcess.RestartServiceIfNeeded | init/init/init.c:418-432 | starts the service or notes when to |
| Supervisor.InitProcess.RestartAll | init/init/init.c:434-439 | the walk over the services that wait to restart |
| Supervisor.InitProcess.ForEachInClass | init/init/builtins.c:195-234 | a class start, stop or reset reaches each service of the class once, in order, a start only if it is not disabled |
| Supervisor.InitProcess.DoCommand | init/init/builtins.c:584-613 | start, stop and restart by name act on the first service of that name, or on none |
| Supervisor.InitProcess.CountCrash | init/init/signal_handler.c:105-116 | the crash window |
| Supervisor.InitProcess.ReapService | init/init/signal_handler.c:84-121 | flags and counters of a service whose process is gone |
| Supervisor.InitProcess.WaitForOneProcess | init/init/signal_handler.c:46-131 | the whole reaping, with the onrestart commands |
| Supervisor.InitProcess.constructor | init/init/init.c:1147-1235 | the supervisor over parsed services, with nothing handled yet |
| Supervisor.InitProcess.HandleAll | init/init/init.c:1147-1235 | after any events the state is that of the model's run from the start, every service is in its life cycle, and without a reboot no service has more than four crashes counted or eight in any 240 seconds |
| Supervisor.InitProcess.RestartAndPoll | init/init/init.c:1147-1199 | the pending time is the earliest pending start, and the poll timeout meets it |
| TokenizerRoundTrip.RoundTrip | init/init/parser.c:68-183 | tokenizing and collecting any printed lines, with indents, gaps, comments and any mix of bare, quoted and escaped text, delivers their words line by line, the first five of each |
| TokenizerRoundTrip.PrintedLinesComeBack | init/init/ueventd_parser.c:29-59 | every list of lines of one to five NUL-free words comes back unchanged, followed by the final empty call |
| TokenizerRoundTrip.NamedEscapeKeepsItsLetter | init/init/parser.c:148-156 | an escaped n, r or t yields its character and then its letter, so never its character alone |
| TokenizerRoundTrip.DoubleBackslashExactlyWhen | init/init/parser.c:157-159 | an escaped backslash stands for one backslash if and only if what follows is the end of the text, a plain character other than n, r and t, or a CR that ends the text |
| TokenizerRoundTrip.LineFeedContinues | init/init/parser.c:166-172 | backslash line feed continues the word after the next line's indent, and counts a line |
| TokenizerRoundTrip.CrLfDoesNotContinue | init/init/parser.c:160-172 | backslash CR-LF ends the word and the line |
| TokenizerRoundTrip.EscapedCrVanishes | init/init/parser.c:160-165 | backslash CR without a line feed vanishes |
| TokenizerRoundTrip.UnclosedQuoteEndsFile | init/init/parser.c:127-134 | a quote that never closes ends the file |
| TokenizerRoundTrip.UnendedLineIsDropped | init/init/ueventd_parser.c:29-59 | the words of a last line without its newline are dropped |
| RcParser.ParseState.NextToken | init/init/parser.c:68-183 | for every NUL-ended buffer the in-place code returns the model's token, leaves the unread text and everything before the reader intact, and ends |
| RcParser.ParseState.ReadText | init/init/parser.c:107-182 | the text of a token, compacted behind the reader and ended by a NUL |
| RcParser.ParseState.QuotedChar | init/init/parser.c:127-140 | one turn of the loop inside quotes keeps the writer behind the reader |
| RcParser.ParseState.EscapedChar | init/init/parser.c:143-177 | so does one turn at an escape that yields a character |
| RcParser.ParseState.EscapedLineEnd | init/init/parser.c:160-172 | and one at an escaped line end |
| RcParser.ParseConfig | init/init/ueventd_parser.c:29-59 | the collector makes exactly the model's calls: the words are still in place when their line ends, at most five are kept, and an unended last line is dropped |
| RcFile.ParseConfigFile | init/init/ueventd_parser.c:61-74 | parsing, in its buffer, a file printed from lines of one to five NUL-free words makes exactly the calls with those words; for any printed lines, exactly the calls they should lead to |
| Tokenizer.LexProgress | init/init/parser.c:68-183 | every token but the end of the file consumes input |
| SpinLock.MutualExclusion | bootable/lk/platform/msm7x30/remote_spinlock.c:90-108 | under every interleaving of single loads and stores the two processors never both hold the lock |
| SpinLock.HolderNotesTurn | bootable/lk/platform/msm7x30/remote_spinlock.c:90-108 | under every interleaving the turn names the processor that holds the lock |
| SpinLock.StuckForever | bootable/lk/platform/msm7x30/remote_spinlock.c:92-99 | once both wait with both flags up, they wait for ever |
| SpinLock.ProgressExactlyWhen | bootable/lk/platform/msm7x30/remote_spinlock.c:90-108 | each processor can be brought by some schedule to hold the lock if and only if they are not in that state |
| SpinLock.BothAskAtOnce | bootable/lk/platform/msm7x30/remote_spinlock.c:92-95 | raising both flags before either looks leads there |
| Atags.WalkShown | bootable/lk/app/aboot/aboot.c:159-356 | walking a list of tags by their sizes from its start to the zero tag recovers it |
| Atags.KernelFindsEverything | bootable/lk/app/aboot/aboot.c:159-356 | from the image and any memory behind it the walk recovers every tag, and the command line is the exact text with its NUL inside the tag |
| Atags.EntriesRoundTrip | bootable/lk/app/aboot/aboot.c:133-144 | the partition table is read back but for the last byte of each name |
| BootLinux.PtentryToTag | bootable/lk/app/aboot/aboot.c:133-144 | writes one entry, its name cut for a NUL |
| BootLinux.SizeCommandLine | bootable/lk/app/aboot/aboot.c:186-243 | the sizing pass computes the length of what the copying pass writes |
| BootLinux.CopyCommandLine | bootable/lk/app/aboot/aboot.c:245-349 | the copying pass writes the exact concatenation and one NUL, and nothing beyond |
| BootLinux.BuildTags | bootable/lk/app/aboot/aboot.c:147-356 | memory holds the image of the tag list, padded with what was there, and is unchanged behind it |
| BootLinux.LineIsWanted | bootable/lk/app/aboot/aboot.c:76-90 | for every configuration the command line in words: the given text, the eMMC, serial number, charger and authorisation texts when they apply, the baseband, and the boot and reboot modes by whether recovery is booted |
| BootLinux.AsciiChars | bootable/lk/app/aboot/aboot.c:245-349 | text is copied character by character |
| BootLinux.BootParametersArrive | bootable/lk/app/aboot/aboot.c:147-356 | whatever follows that image, the walk finds exactly the tags that were meant, and reads from them the ramdisk words, the memory tags, the partition table with its names cut, and the command line in those words, for every combination of optional parts |
| BootLinux.PassParameters | bootable/lk/app/aboot/aboot.c:147-356 | the code leaves memory from which the kernel reads all that, whatever it held before |
| NodeList.ListInitialize | bootable/lk/include/list.h:38-41 | a ring of the head alone |
| NodeList.ListClearNode | bootable/lk/include/list.h:43-46 | the node is in no list |
| NodeList.ListAddHead | bootable/lk/include/list.h:56-62 | inserts after an entry of the ring |
| NodeList.ListAddTail | bootable/lk/include/list.h:66-72 | inserts before an entry of the ring, before the head at its end |
| NodeList.ListDelete | bootable/lk/include/list.h:76-81 | removes the node from the ring and clears it |
| NodeList.ListRemoveHead | bootable/lk/include/list.h:83-92 | removes the first node, or returns null for an empty list |
| NodeList.ListRemoveTail | bootable/lk/include/list.h:104-113 | removes the last node, or returns null for an empty list |
| NodeList.ListPeekHead | bootable/lk/include/list.h:125-132 | the first node, or null |
| NodeList.ListIsEmpty | bootable/lk/include/list.h:264-267 | whether the ring is the head alone |
| NodeList.ListInList | bootable/lk/include/list.h:48-54 | a node made cleared is in a list exactly when this says so |
| NodeList.AddBefore | bootable/lk/include/list.h:66-74 | keeps every other list and every cleared node as it was |
| NodeList.AddAfter | bootable/lk/include/list.h:56-64 | keeps every other list and every cleared node as it was |
| NodeList.DeleteFrom | bootable/lk/include/list.h:76-81 | keeps every other list, and leaves the node in none |
| NodeList.MoveHead | bootable/lk/kernel/thread.c:749-768 | the move of a wake from one list to another, pointers and all |

## Left out

- LkKernelClass.LkKernel.Execute: assumes the interrupt mask in line with the sections, because only then are the nested enter and exit of event_unsignal and of the deferred-call loop without effect on it.
- LkKernelClass.LkKernel.Run: stops short of runs in which a timeout comes late, for the same reason.
- LkKernelClass.LkKernel.ThreadResume: leaves out blocked, sleeping and dead targets, for which SchedulerLaws.ResumeKeepsInvariantExactlyWhen shows that the invariant is lost.
- Atomicity after a leaked section: a step stays atomic in the model even where the source would run it with interrupts open.
- Panics: acquiring a mutex one holds, releasing one that one does not hold, and the assertions on magic numbers end the source's run; such steps are not enabled.
- wait_queue_destroy, mutex_destroy and event_destroy: their races with users are declared invalid by the source itself.
- thread_unblock_from_wait_queue with reschedule: no caller in the source passes it.
- The branches for a platform with a dynamic timer, thread statistics, thread names, stacks and return codes.
- Thread identities: a thread is named by a number that is not reused while the thread exists; the address reuse of malloc is not modelled.
- The context switch, register save and restore, and cache and MMU code: the switch is atomic.
- Timers.TimerService.TimerTick: assumes that all times, with those the callbacks ask for, are later than now and within half the range, so that the loop ends; TickEnds says when it does otherwise.
- Timers.TickFiresWhatIsDue: the same half range.
- Timers.FireKeeps: the same half range.
- TickEnds.TickEndsExactlyWhen: assumes that no callback panics and that all times put into the queue, on either side of now, lie in one half range; callbacks that for ever both cancel timers and ask for times that are not later are covered by no condition.
- TickEnds.AskingTickEndsExactlyWhen: assumes the same, that no callback cancels, and that none sets a period of more than half the range that is due at once, for which see TickEnds.LongAskNeverEnds.
- SchedulerLaws.OwnershipAlongRuns: describes the source up to the first late timeout, after which its calls run with interrupts open.
- MutexLaws.MutualExclusion: describes the source up to the first late timeout, for the same reason.
- SpacingLaws.RestartsExactlyWhen: a tick that takes a service up may still fail to fork; the fork's answer is the environment's.
- init's services: onrestart lists hold service commands only; sockets, environment, SELinux, console and process groups are the four answers of an attempt to start; the clock is any non-decreasing sequence of readings; the boot chart's shorter poll is not modelled.
- ctl messages and property triggers beyond starting a service by name.
- The keyword tables and section parsers behind the tokenizer, and parse_line_device.
- SpinLock: memory barriers are no-ops under sequential consistency; weaker memory models are not covered. The search for the lock in shared memory is not modelled.
- boot_linux: target_is_emmc_boot, target_use_signed_kernel, target_pause_for_battery_charge and target_baseband answer the same each time they are asked; target_atag_mem appends well-formed tags; the jump to the kernel is not modelled.
- list.h: the iteration macros, list_next and list_prev, list_peek_tail, and the container-of arithmetic of the typed macros.
- Java start-up code, the Linux kernel's own init, flash and USB drivers, fastboot and image verification: start-up sequencing and device input and output.
