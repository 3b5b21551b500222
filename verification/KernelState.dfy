/** The state of the single-CPU kernel: threads, run queues, wait queues,
    mutexes, events, thread timers and deferred calls. */
module KernelState {
  import opened Words
  import opened RunQueues
  import opened TimerQueue

  datatype Option<T> = None | Some(value: T)

  datatype ThreadState = Suspended | Ready | Running | Blocked | Sleeping | Death

  const NO_ERROR: int := 0
  const ERR_NOT_SUSPENDED: int := -10
  const ERR_NOT_BLOCKED: int := -12
  const ERR_TIMED_OUT: int := -13

  /** Every wait queue belongs to a mutex or to an event. */
  datatype WaitId = OfMutex(m: nat) | OfEvent(e: nat)

  /** Where a thread continues when it next runs. A thread that is off the CPU
      stopped inside one kernel call; `User` is code outside the kernel. */
  datatype Cont =
    | User
    | Start                                  // initial_thread_func
    | InYield                                // thread_yield
    | InResume                               // thread_resume, around its thread_yield
    | InPreempt                              // thread_preempt, called from the interrupt glue
    | InSleep                                // thread_sleep
    | InWake(depth: nat)                     // a wake with reschedule, `depth` sections deep
    | InWait(w: WaitId, timed: bool)         // wait_queue_block
    | Dead                                   // thread_exit never returns
  {
    /** How many critical sections the continuation leaves. */
    function Exits(): nat {
      match this
      case User => 0
      case InResume => 2
      case InPreempt => 2
      case InWake(depth) => depth
      case InWait(_, _) => 2
      case _ => 1
    }
  }

  datatype Thread = Thread(
    priority: nat,
    state: ThreadState,
    savedCs: int,
    quantum: int,
    blockedOn: Option<WaitId>,
    blockRet: int,
    cont: Cont)

  datatype WaitQueue = WaitQueue(list: seq<Tid>, count: int)
  datatype Mutex = Mutex(count: int, holder: Option<Tid>)
  datatype Event = Event(signalled: bool, auto: bool)

  /** The two timers that live on a thread's stack. */
  datatype ThreadTimer = Timeout(t: Tid) | Wakeup(t: Tid)

  /** A deferred call: reclaim an exited thread, or run a client's function. */
  datatype Call = Cleanup(t: Tid) | Callback(id: nat)

  /** The program counter of the deferred-call thread's endless loop. */
  datatype DpcPc = AtWait | AtTake | Calling(call: Call)

  const DPC_EVENT: nat := 0

  datatype Kernel = Kernel(
    threads: map<Tid, Thread>,
    rq: RunQueue,
    current: Tid,
    cs: int,                                 // critical_section_count
    masked: bool,                            // the CPU's interrupt mask
    waits: map<WaitId, WaitQueue>,
    mutexes: map<nat, Mutex>,
    events: map<nat, Event>,
    timers: seq<Entry<ThreadTimer>>,
    dpcs: seq<Call>,
    dpcPc: DpcPc,
    dpcThread: Tid,
    idle: Tid)

  // ---- ownership of threads by queues ------------------------------------

  /** Run queue `p` holds READY threads of priority `p`, each once. */
  ghost predicate QueueOk(q: seq<Tid>, p: nat, threads: map<Tid, Thread>) {
    && NoDup(q)
    && forall t | t in q :: t in threads && threads[t].state.Ready? && threads[t].priority == p
  }

  ghost predicate ReadyQueued(queue: seq<seq<Tid>>, threads: map<Tid, Thread>)
    requires |queue| == NUM_PRIORITIES
  {
    forall t | t in threads && threads[t].state.Ready? ::
      threads[t].priority < NUM_PRIORITIES && t in queue[threads[t].priority]
  }

  /** Each READY thread is in the run queue of its priority, once, and the run
      queues hold nothing else. */
  ghost predicate QueuesOk(queue: seq<seq<Tid>>, threads: map<Tid, Thread>) {
    && |queue| == NUM_PRIORITIES
    && (forall p | 0 <= p < NUM_PRIORITIES :: QueueOk(queue[p], p, threads))
    && ReadyQueued(queue, threads)
  }

  /** Wait queue `w` holds the threads blocked on it, each once, and counts them. */
  ghost predicate WaitOk(q: WaitQueue, w: WaitId, threads: map<Tid, Thread>) {
    && NoDup(q.list)
    && q.count == |q.list|
    && forall t | t in q.list ::
         t in threads && threads[t].state.Blocked? && threads[t].blockedOn == Some(w)
  }

  ghost predicate BlockedQueued(waits: map<WaitId, WaitQueue>, threads: map<Tid, Thread>) {
    forall t | t in threads ::
      if threads[t].state.Blocked? then
        && threads[t].blockedOn.Some?
        && threads[t].blockedOn.value in waits
        && t in waits[threads[t].blockedOn.value].list
      else threads[t].blockedOn.None?
  }

  /** Each BLOCKED thread is in the wait queue it is blocked on, once; wait
      queues hold nothing else; every count is the length of its list. */
  ghost predicate WaitsOk(waits: map<WaitId, WaitQueue>, threads: map<Tid, Thread>) {
    && (forall w | w in waits :: WaitOk(waits[w], w, threads))
    && BlockedQueued(waits, threads)
  }

  /** At most the current thread is RUNNING. Between making the current thread
      something else and rescheduling, no thread is. */
  ghost predicate RunningOk(threads: map<Tid, Thread>, current: Tid) {
    && current in threads
    && (forall t | t in threads :: threads[t].priority < NUM_PRIORITIES)
    && (forall t | t in threads && t != current :: !threads[t].state.Running?)
  }

  /** The scheduling invariant that every primitive keeps. */
  ghost predicate Core(s: Kernel) {
    && Indexed(s.rq)
    && QueuesOk(s.rq.queue, s.threads)
    && WaitsOk(s.waits, s.threads)
    && RunningOk(s.threads, s.current)
  }

  /** A thread timer names a live thread, no thread has two, and a sleeper's
      timer finds its thread asleep. */
  ghost predicate TimersOk(timers: seq<Entry<ThreadTimer>>, threads: map<Tid, Thread>) {
    && (forall i, j | 0 <= i < j < |timers| :: timers[i].body.t != timers[j].body.t)
    && (forall i | 0 <= i < |timers| ::
          && timers[i].body.t in threads
          && (timers[i].body.Wakeup? ==> threads[timers[i].body.t].state.Sleeping?)
          && (timers[i].body.Timeout? ==>
                && threads[timers[i].body.t].cont.InWait?
                && threads[timers[i].body.t].cont.timed))
  }
}
