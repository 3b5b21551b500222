/** The kernel as a transition system. A step is the code between two context
    switches: a call made by the running thread, what it does after being
    switched to, or a timer interrupt. */
module KernelSteps {
  import opened Words
  import opened RunQueues
  import opened TimerQueue
  import opened KernelState
  import opened KernelOps
  import opened KernelCalls
  import opened KernelInv

  // ---- mutexes ------------------------------------------------------------

  /** Threads inside mutex_acquire of `m`: queued, handed the mutex, or timed out. */
  function Acquirers(W: map<Tid, Waiter>, m: nat): set<Tid> {
    set t | t in W && W[t].w == OfMutex(m)
  }

  /** Threads woken by a release that have not run since. */
  function Handoffs(W: map<Tid, Waiter>, m: nat): set<Tid> {
    set t | t in W && W[t].w == OfMutex(m) && !W[t].blocked && W[t].ret == NO_ERROR
  }

  /** The count is the owner plus everyone inside acquire, and at most one thread owns or is being handed the mutex. */
  ghost predicate MutexOk(mx: Mutex, m: nat, W: map<Tid, Waiter>) {
    && mx.count == |Acquirers(W, m)| + (if mx.holder.Some? then 1 else 0)
    && (forall t, u | t in Handoffs(W, m) && u in Handoffs(W, m) :: t == u)
    && (mx.holder.Some? ==> Handoffs(W, m) == {})
  }

  ghost predicate MutexesOk(mutexes: map<nat, Mutex>, W: map<Tid, Waiter>) {
    forall m | m in mutexes :: MutexOk(mutexes[m], m, W)
  }

  // ---- events -------------------------------------------------------------

  /** A signalled event has no waiters. */
  ghost predicate EventsOk(events: map<nat, Event>, waits: map<WaitId, WaitQueue>) {
    forall e | e in events && events[e].signalled && OfEvent(e) in waits :: waits[OfEvent(e)].list == []
  }

  // ---- deferred calls -----------------------------------------------------

  /** The deferred calls that have not finished, the running one first. */
  function Pending(s: Kernel): seq<Call> {
    (if s.dpcPc.Calling? then [s.dpcPc.call] else []) + s.dpcs
  }

  /** Exactly the exited threads await cleanup, each once. */
  ghost predicate PendingOk(pending: seq<Call>, dead: set<Tid>) {
    && (forall t :: t in dead <==> Cleanup(t) in pending)
    && (forall i, j | 0 <= i < j < |pending| && pending[i].Cleanup? :: pending[i] != pending[j])
  }

  /** A non-empty list of deferred calls keeps their event signalled. */
  ghost predicate CallsSignalled(s: Kernel) {
    s.dpcs != [] ==> DPC_EVENT in s.events && s.events[DPC_EVENT].signalled
  }

  // ---- the invariant ------------------------------------------------------

  /** The invariants of the layers above the scheduler. */
  ghost predicate Layers(s: Kernel) {
    && MutexesOk(s.mutexes, ViewOf(s.threads).waiters)
    && EventsOk(s.events, s.waits)
    && PendingOk(Pending(s), ViewOf(s.threads).dead)
  }

  ghost predicate Side(s: Kernel) {
    Layers(s) && CallsSignalled(s)
  }

  ghost predicate Inv(s: Kernel) {
    Good(s) && s.threads[s.current].state.Running? && Side(s)
  }

  /** The running thread is in code outside the kernel, or inside a call it has just made. */
  ghost predicate Busy(s: Kernel) {
    Inv(s) && s.threads[s.current].cont.User?
  }

  // ---- steps --------------------------------------------------------------

  datatype Action =
    | Yield
    | Sleep(delay: Word, now: Word)
    | Exit
    | Create(t: Tid, priority: nat)
    | Resume(t: Tid)
    | ChangePriority(to: int)
    | Acquire(m: nat, timeout: Word, now: Word)
    | ReleaseMutex(m: nat)
    | Wait(e: nat, timeout: Word, now: Word)
    | Signal(e: nat, reschedule: bool)
    | Unsignal(e: nat)
    | QueueCallback(id: nat, reschedule: bool)
    | EnterSection
    | ExitSection
    | DpcWait
    | DpcTake
    | DpcFinish
    | Proceed
    | TimerTick(now: Word)

  /** Steps of the deferred-call thread's own loop. */
  predicate DpcLoop(a: Action) {
    a.DpcWait? || a.DpcTake? || a.DpcFinish?
  }

  /** Who may take which step. Code outside the kernel runs on any thread but
      the idle one, which only idles; the deferred-call thread runs its loop,
      and client code inside a callback. An interrupt needs an open mask. */
  predicate Enabled(s: Kernel, a: Action)
    requires s.current in s.threads
  {
    var th := s.threads[s.current];
    if a.Proceed? then !th.cont.User?
    else if a.TimerTick? then th.cont.User? && !s.masked
    else
      && th.cont.User? && s.current != s.idle
      && (s.current == s.dpcThread ==>
            match s.dpcPc
            case AtWait => a.DpcWait?
            case AtTake => a.DpcTake?
            case Calling(Cleanup(_)) => a.DpcFinish?
            case Calling(Callback(_)) => !a.DpcWait? && !a.DpcTake?)
      && (DpcLoop(a) ==> s.current == s.dpcThread)
      && match a
         case Exit => s.current != s.dpcThread
         case Create(t, p) => t !in s.threads && p < NUM_PRIORITIES
         case Resume(t) => t in s.threads &&
           (s.threads[t].state.Suspended? || s.threads[t].state.Ready? || s.threads[t].state.Running?)
         case Acquire(m, _, _) => m in s.mutexes && s.mutexes[m].holder != Some(s.current)
         case ReleaseMutex(m) => m in s.mutexes && s.mutexes[m].holder == Some(s.current)
         case Wait(e, _, _) => e in s.events && e != DPC_EVENT
         case Signal(e, _) => e in s.events && e != DPC_EVENT
         case Unsignal(e) => e in s.events && e != DPC_EVENT
         case ExitSection => s.cs > 0
         case _ => true
  }

  /** No thread outside the kernel has a timer queued. */
  lemma NoOwnTimer(s: Kernel)
    requires Good(s) && s.threads[s.current].state.Running? && s.threads[s.current].cont.User?
    ensures forall i | 0 <= i < |s.timers| :: s.timers[i].body.t != s.current
  {
  }

  lemma WaitsOnKnownMutex(s: Kernel)
    requires DomainOk(s) && s.current in s.threads
    ensures s.threads[s.current].cont.InWait? && s.threads[s.current].cont.w.OfMutex? ==>
      s.threads[s.current].cont.w.m in s.mutexes
  {
  }

  /** Calls of thread.c. */
  function ThreadCall(s: Kernel, a: Action): Kernel
    requires OnCpu(s) && DomainOk(s) && Enabled(s, a)
  {
    match a
    case Yield => ThreadYield(s)
    case Sleep(delay, now) => ThreadSleep(s, delay, now)
    case Exit => ThreadExit(s)
    case Create(t, priority) => ThreadCreate(s, t, priority)
    case Resume(t) => ThreadResume(s, t).0
    case ChangePriority(to) => SetPriority(s, to)
    case EnterSection => Enter(s)
    case ExitSection => KernelOps.Exit(s)
    case _ => s
  }

  /** Calls of mutex.c. */
  function MutexCall(s: Kernel, a: Action): Kernel
    requires OnCpu(s) && DomainOk(s) && Enabled(s, a)
  {
    match a
    case Acquire(m, timeout, now) => assert OfMutex(m) in s.waits; MutexAcquire(s, m, timeout, now)
    case ReleaseMutex(m) => assert OfMutex(m) in s.waits; MutexRelease(s, m)
    case _ => s
  }

  /** Calls of event.c and dpc.c that set an event. */
  function SignalCall(s: Kernel, a: Action): Kernel
    requires OnCpu(s) && DomainOk(s) && Enabled(s, a)
  {
    match a
    case Signal(e, reschedule) => assert OfEvent(e) in s.waits; SignalEvent(s, e, reschedule)
    case QueueCallback(id, reschedule) =>
      assert OfEvent(DPC_EVENT) in s.waits; QueueCall(s, Callback(id), reschedule)
    case _ => s
  }

  /** Calls of event.c that wait for an event or clear it. */
  function EventCall(s: Kernel, a: Action): Kernel
    requires s.current in s.threads && DomainOk(s) && Enabled(s, a)
  {
    match a
    case Wait(e, timeout, now) => assert OfEvent(e) in s.waits; WaitEvent(s, e, timeout, now)
    case Unsignal(e) => SetSignalled(s, e, false)
    case _ => s
  }

  /** The deferred-call thread's loop. */
  function DpcStep(s: Kernel, a: Action): Kernel
    requires OnCpu(s) && DomainOk(s) && Enabled(s, a)
  {
    match a
    case DpcWait =>
      var s1 := WaitEvent(s, DPC_EVENT, INFINITE_TIME, 0);
      if s.events[DPC_EVENT].signalled then s1.(dpcPc := AtTake) else s1
    case DpcTake => TakeCall(s)
    case DpcFinish => FinishCall(s)
    case _ => s
  }

  function Step(s: Kernel, a: Action): Kernel
    requires Inv(s) && Enabled(s, a)
  {
    match a
    case Proceed => WaitsOnKnownMutex(s); Continue(s)
    case TimerTick(now) => NoOwnTimer(s); Tick(s, now)
    case Acquire(_, _, _) | ReleaseMutex(_) => MutexCall(s, a)
    case Wait(_, _, _) | Unsignal(_) => EventCall(s, a)
    case Signal(_, _) | QueueCallback(_, _) => SignalCall(s, a)
    case DpcWait | DpcTake | DpcFinish => DpcStep(s, a)
    case _ => ThreadCall(s, a)
  }
}
