/** The kernel's calls as functions of its state: each is the code from the
    call to the next context switch, or to its return when there is none. */
module KernelCalls {
  import opened Words
  import opened RunQueues
  import opened TimerQueue
  import opened KernelState
  import opened KernelOps

  /** A thread is running kernel code: the scheduling invariant holds and the current thread is RUNNING. */
  ghost predicate OnCpu(s: Kernel) {
    Core(s) && s.threads[s.current].state.Running?
  }

  function ExitN(s: Kernel, n: nat): Kernel
    decreases n
  {
    if n == 0 then s else ExitN(Exit(s), n - 1)
  }

  // ---- thread.c -----------------------------------------------------------

  /** The body of thread_yield for a caller that continues with `k`. */
  function YieldBody(s: Kernel, k: Cont): Kernel
    requires OnCpu(s)
  {
    var s1 := Enter(s);
    var s2 := SetThread(s1, s.current, s.threads[s.current].(quantum := 0, cont := k));
    Resched(MakeReady(s2, s.current, false))
  }

  function ThreadYield(s: Kernel): Kernel
    requires OnCpu(s)
  {
    YieldBody(s, InYield)
  }

  /** A thread that has left the head of its time slice goes to the tail. */
  function ThreadPreempt(s: Kernel): Kernel
    requires OnCpu(s)
  {
    var s1 := SetCont(Enter(s), InPreempt);
    Resched(MakeReady(s1, s.current, s.threads[s.current].quantum > 0))
  }

  function ThreadResume(s: Kernel, t: Tid): (Kernel, int)
    requires OnCpu(s) && t in s.threads
    requires t == s.current ==> s.threads[t].state.Running?
  {
    if s.threads[t].state.Ready? || s.threads[t].state.Running? then (s, ERR_NOT_SUSPENDED) else
    var s1 := MakeReady(Enter(s), t, true);
    var s2 := Enter(s1);
    var s3 := SetThread(s2, s.current, s2.threads[s.current].(quantum := 0, cont := InResume));
    (Resched(MakeReady(s3, s.current, false)), NO_ERROR)
  }

  function ThreadCreate(s: Kernel, t: Tid, priority: nat): Kernel
    requires t !in s.threads && priority < NUM_PRIORITIES
  {
    SetThread(s, t, Thread(priority, Suspended, 1, 0, None, NO_ERROR, Start))
  }

  /** thread_set_priority clamps its argument. */
  function SetPriority(s: Kernel, priority: int): Kernel
    requires s.current in s.threads
  {
    var p := if priority < LOWEST_PRIORITY then LOWEST_PRIORITY
             else if priority > HIGHEST_PRIORITY then HIGHEST_PRIORITY else priority;
    SetThread(s, s.current, s.threads[s.current].(priority := p))
  }

  function ThreadSleep(s: Kernel, delay: Word, now: Word): Kernel
    requires OnCpu(s)
  {
    var when := Add(now, if delay == 0 then 1 else delay);
    var s1 := Enter(s).(timers := Insert(s.timers, Entry(when, Wakeup(s.current))));
    Resched(SetThread(s1, s.current, s.threads[s.current].(state := Sleeping, cont := InSleep)))
  }

  // ---- wait queues --------------------------------------------------------

  /** wait_queue_block with a non-zero timeout. */
  function Block(s: Kernel, w: WaitId, timeout: Word, now: Word): Kernel
    requires s.current in s.threads && w in s.waits
  {
    var timed := timeout != INFINITE_TIME;
    var s1 := Enqueue(SetCont(s, InWait(w, timed)), w);
    var s2 := if timed then
                s1.(timers := Insert(s.timers, Entry(Add(now, timeout), Timeout(s.current))))
              else s1;
    Resched(Enter(s2))
  }

  /** wait_queue_wake_one with reschedule, for a non-empty queue: the current
      thread goes to the head of its run queue before the woken one does. */
  function WakeOneAndResched(s: Kernel, w: WaitId, code: int, depth: nat): Kernel
    requires OnCpu(s) && w in s.waits && s.waits[w].list != []
  {
    var s1 := MakeReady(SetCont(s, InWake(depth)), s.current, true);
    assert WaitOk(s.waits[w], w, s.threads);
    Resched(Release(s1, w, 0, code))
  }

  /** The loop of wait_queue_wake_all. */
  function WakeAll(s: Kernel, w: WaitId, code: int): (s': Kernel)
    requires Core(s) && w in s.waits
    decreases if w in s.waits then |s.waits[w].list| else 0
  {
    if s.waits[w].list == [] then s else
    ReleaseCore(s, w, 0, code);
    WakeAll(Release(s, w, 0, code), w, code)
  }

  lemma ParkCore(s: Kernel, k: Cont, head: bool)
    requires OnCpu(s)
    ensures Core(MakeReady(SetCont(s, k), s.current, head))
  {
    CoreFrame(s, SetCont(s, k));
    MakeReadyCore(SetCont(s, k), s.current, head);
  }

  function WakeAllAndResched(s: Kernel, w: WaitId, code: int, depth: nat): Kernel
    requires OnCpu(s) && w in s.waits
  {
    ParkCore(s, InWake(depth), true);
    Resched(WakeAll(MakeReady(SetCont(s, InWake(depth)), s.current, true), w, code))
  }

  function IndexOf(q: seq<Tid>, t: Tid): (i: nat)
    requires t in q
    ensures i < |q| && q[i] == t
  {
    if q[0] == t then 0 else 1 + IndexOf(q[1..], t)
  }

  /** thread_unblock_from_wait_queue without reschedule. The refusal returns
      from inside the critical section. */
  function Unblock(s: Kernel, t: Tid, code: int): (Kernel, int)
    requires Core(s) && t in s.threads
  {
    var s1 := Enter(s);
    if !s.threads[t].state.Blocked? then (s1, ERR_NOT_BLOCKED) else
    var w := s.threads[t].blockedOn.value;
    assert WaitOk(s.waits[w], w, s.threads);
    (Exit(Release(s1, w, IndexOf(s.waits[w].list, t), code)), NO_ERROR)
  }

  // ---- timer interrupt ----------------------------------------------------

  predicate Due(timers: seq<Entry<ThreadTimer>>, now: Word) {
    timers != [] && !TimeLt(now, timers[0].when)
  }

  /** The callback of a thread timer. */
  function Fire(s: Kernel, b: ThreadTimer): Kernel
    requires Core(s) && b.t in s.threads
  {
    match b
    case Wakeup(t) => MakeReady(s, t, true)
    case Timeout(t) => Unblock(s, t, ERR_TIMED_OUT).0
  }

  lemma UnblockCore(s: Kernel, t: Tid, code: int)
    requires Core(s) && t in s.threads
    ensures Core(Unblock(s, t, code).0)
  {
    CoreFrame(s, Enter(s));
    if s.threads[t].state.Blocked? {
      var w := s.threads[t].blockedOn.value;
      var i := IndexOf(s.waits[w].list, t);
      ReleaseCore(Enter(s), w, i, code);
      CoreFrame(Release(Enter(s), w, i, code), Unblock(s, t, code).0);
    }
  }

  lemma FireCore(s: Kernel, b: ThreadTimer)
    requires Core(s) && b.t in s.threads
    requires b.Wakeup? ==> s.threads[b.t].state.Sleeping?
    ensures Core(Fire(s, b))
    ensures Fire(s, b).timers == s.timers && Fire(s, b).current == s.current
    ensures Fire(s, b).threads.Keys == s.threads.Keys
    ensures forall u | u in s.threads && u != b.t :: Fire(s, b).threads[u] == s.threads[u]
  {
    if b.Wakeup? {
      MakeReadyCore(s, b.t, true);
    } else {
      UnblockCore(s, b.t, ERR_TIMED_OUT);
    }
  }

  lemma FireTimers(s: Kernel)
    requires Core(s) && s.timers != [] && TimersOk(s.timers, s.threads)
    ensures
      var b := s.timers[0].body;
      var s1 := s.(timers := s.timers[1..]);
      && Core(s1) && b.t in s1.threads
      && Core(Fire(s1, b)) && TimersOk(Fire(s1, b).timers, Fire(s1, b).threads)
      && Fire(s1, b).timers == s.timers[1..]
  {
    var s1 := s.(timers := s.timers[1..]);
    CoreFrame(s, s1);
    FireCore(s1, s.timers[0].body);
  }

  /** The loop of timer_tick over thread timers, which are all one-shot. */
  function FireDue(s: Kernel, now: Word): (s': Kernel)
    requires Core(s) && TimersOk(s.timers, s.threads)
    decreases |s.timers|
  {
    if !Due(s.timers, now) then s else
    FireTimers(s);
    FireDue(Fire(s.(timers := s.timers[1..]), s.timers[0].body), now)
  }

  /** thread_timer_tick: a tick of the current thread's time slice. */
  function QuantumTick(s: Kernel): Kernel
    requires s.current in s.threads
  {
    if s.current == s.idle then s
    else SetThread(s, s.current, s.threads[s.current].(quantum := s.threads[s.current].quantum - 1))
  }

  // ---- mutex.c ------------------------------------------------------------

  function SetMutex(s: Kernel, m: nat, count: int, holder: Option<Tid>): Kernel {
    s.(mutexes := s.mutexes[m := Mutex(count, holder)])
  }

  /** mutex_acquire and mutex_acquire_timeout, by a thread that does not hold the mutex. */
  function MutexAcquire(s: Kernel, m: nat, timeout: Word, now: Word): Kernel
    requires s.current in s.threads && m in s.mutexes && OfMutex(m) in s.waits
  {
    var mx := s.mutexes[m];
    if mx.count + 1 <= 1 then
      Exit(SetMutex(Enter(s), m, mx.count + 1, Some(s.current)))
    else if timeout == 0 then
      Exit(Enter(s))
    else
      Block(SetMutex(Enter(s), m, mx.count + 1, mx.holder), OfMutex(m), timeout, now)
  }

  /** mutex_release, by the holder. */
  function MutexRelease(s: Kernel, m: nat): Kernel
    requires OnCpu(s) && m in s.mutexes && OfMutex(m) in s.waits
  {
    var s1 := SetMutex(Enter(s), m, s.mutexes[m].count - 1, None);
    if s.mutexes[m].count - 1 >= 1 && s.waits[OfMutex(m)].list != [] then
      WakeOneAndResched(s1, OfMutex(m), NO_ERROR, 1)
    else
      Exit(s1)
  }

  // ---- event.c ------------------------------------------------------------

  function SetSignalled(s: Kernel, e: nat, signalled: bool): Kernel
    requires e in s.events
  {
    s.(events := s.events[e := s.events[e].(signalled := signalled)])
  }

  function WaitEvent(s: Kernel, e: nat, timeout: Word, now: Word): Kernel
    requires s.current in s.threads && e in s.events && OfEvent(e) in s.waits
  {
    if s.events[e].signalled then
      Exit(SetSignalled(Enter(s), e, !s.events[e].auto))
    else if timeout == 0 then
      Exit(Enter(s))
    else
      Block(Enter(s), OfEvent(e), timeout, now)
  }

  /** event_signal without reschedule, inside a critical section. */
  function SignalQuietly(s: Kernel, e: nat): Kernel
    requires Core(s) && e in s.events && OfEvent(e) in s.waits
  {
    var w := OfEvent(e);
    if s.events[e].signalled then s
    else if !s.events[e].auto then WakeAll(SetSignalled(s, e, true), w, NO_ERROR)
    else if s.waits[w].list == [] then SetSignalled(s, e, true)
    else
      assert WaitOk(s.waits[w], w, s.threads);
      Release(s, w, 0, NO_ERROR)
  }

  /** event_signal, for a caller that is `depth` critical sections deep. */
  function SignalAt(s: Kernel, e: nat, reschedule: bool, depth: nat): Kernel
    requires OnCpu(s) && e in s.events && OfEvent(e) in s.waits
  {
    var w := OfEvent(e);
    if reschedule && !s.events[e].signalled && s.waits[w].list != [] then
      if s.events[e].auto then WakeOneAndResched(s, w, NO_ERROR, depth)
      else WakeAllAndResched(SetSignalled(s, e, true), w, NO_ERROR, depth)
    else
      ExitN(SignalQuietly(s, e), depth)
  }

  function SignalEvent(s: Kernel, e: nat, reschedule: bool): Kernel
    requires OnCpu(s) && e in s.events && OfEvent(e) in s.waits
  {
    SignalAt(Enter(s), e, reschedule, 1)
  }

  // ---- dpc.c --------------------------------------------------------------

  function QueueCall(s: Kernel, call: Call, reschedule: bool): Kernel
    requires OnCpu(s) && DPC_EVENT in s.events && OfEvent(DPC_EVENT) in s.waits
  {
    SignalAt(Enter(Enter(s)).(dpcs := s.dpcs + [call]), DPC_EVENT, reschedule, 2)
  }

  /** thread_exit: queue the thread's own cleanup and leave the CPU for good. */
  function ThreadExit(s: Kernel): Kernel
    requires OnCpu(s) && DPC_EVENT in s.events && OfEvent(DPC_EVENT) in s.waits
  {
    var s1 := SetThread(Enter(s), s.current, s.threads[s.current].(state := Death, cont := Dead));
    var s2 := s1.(dpcs := s.dpcs + [Cleanup(s.current)]);
    DeathCore(s);
    Resched(SignalQuietly(s2, DPC_EVENT))
  }

  lemma DeathCore(s: Kernel)
    requires OnCpu(s)
    ensures
      var th := s.threads[s.current].(state := Death, cont := Dead);
      Core(SetThread(Enter(s), s.current, th).(dpcs := s.dpcs + [Cleanup(s.current)]))
  {
    var th := s.threads[s.current].(state := Death, cont := Dead);
    QueuesFrame(s.rq.queue, s.threads, s.current, th);
    WaitsFrame(s.waits, s.threads, s.current, th);
  }

  /** One turn of the deferred-call loop after event_wait returns. */
  function TakeCall(s: Kernel): Kernel
    requires DPC_EVENT in s.events
  {
    if s.dpcs == [] then SetSignalled(s, DPC_EVENT, false).(dpcPc := AtWait)
    else s.(dpcs := s.dpcs[1..], dpcPc := Calling(s.dpcs[0]))
  }

  /** The end of a deferred call; a cleanup frees the thread's structure. */
  function FinishCall(s: Kernel): Kernel
    requires s.dpcPc.Calling?
  {
    match s.dpcPc.call
    case Cleanup(t) => s.(threads := s.threads - {t}, dpcPc := AtWait)
    case Callback(_) => s.(dpcPc := AtWait)
  }

  // ---- after the switch ---------------------------------------------------

  /** timer_cancel of a thread's own timer. */
  function CancelTimer(timers: seq<Entry<ThreadTimer>>, b: ThreadTimer): (r: seq<Entry<ThreadTimer>>) {
    if timers == [] then []
    else if timers[0].body == b then timers[1..]
    else [timers[0]] + CancelTimer(timers[1..], b)
  }

  /** The code after wait_queue_block returns `ret` in mutex_acquire or event_wait. */
  function AfterWait(s: Kernel, w: WaitId, ret: int): Kernel
    requires w.OfMutex? ==> w.m in s.mutexes
  {
    match w
    case OfMutex(m) =>
      if ret == ERR_TIMED_OUT then SetMutex(s, m, s.mutexes[m].count - 1, s.mutexes[m].holder)
      else SetMutex(s, m, s.mutexes[m].count, Some(s.current))
    case OfEvent(e) =>
      if s.current == s.dpcThread && e == DPC_EVENT then s.(dpcPc := AtTake) else s
  }

  /** What the running thread does between the switch to it and its return to
      code outside the kernel. */
  function Continue(s: Kernel): Kernel
    requires s.current in s.threads
    requires s.threads[s.current].cont.InWait? && s.threads[s.current].cont.w.OfMutex? ==>
      s.threads[s.current].cont.w.m in s.mutexes
  {
    var k := s.threads[s.current].cont;
    var s1 := SetCont(s, User);
    match k
    case InWait(w, timed) =>
      var s2 := if timed then s1.(timers := CancelTimer(s.timers, Timeout(s.current))) else s1;
      ExitN(AfterWait(s2, w, s.threads[s.current].blockRet), 2)
    case InPreempt =>
      // thread_preempt leaves its section; the interrupt return restores the interrupted mask
      var s2 := Exit(s1);
      s2.(cs := s2.cs - 1, masked := false)
    case _ => ExitN(s1, k.Exits())
  }

  /** A timer interrupt: run the due timers, then preempt. */
  function Tick(s: Kernel, now: Word): Kernel
    requires OnCpu(s) && TimersOk(s.timers, s.threads)
    requires forall i | 0 <= i < |s.timers| :: s.timers[i].body.t != s.current
  {
    var s1 := s.(cs := s.cs + 1, masked := true);
    CoreFrame(s, s1);
    FireDueOnCpu(s1, now);
    ThreadPreempt(QuantumTick(FireDue(s1, now)))
  }

  lemma {:induction false} FireDueOnCpu(s: Kernel, now: Word)
    requires Core(s) && TimersOk(s.timers, s.threads)
    requires s.threads[s.current].state.Running?
    requires forall i | 0 <= i < |s.timers| :: s.timers[i].body.t != s.current
    ensures OnCpu(FireDue(s, now)) && OnCpu(QuantumTick(FireDue(s, now)))
    ensures FireDue(s, now).current == s.current
    ensures FireDue(s, now).threads[s.current] == s.threads[s.current]
    decreases |s.timers|
  {
    if Due(s.timers, now) {
      var s1 := s.(timers := s.timers[1..]);
      FireTimers(s);
      FireCore(s1, s.timers[0].body);
      FireDueOnCpu(Fire(s1, s.timers[0].body), now);
    } else {
      CoreFrame(s, QuantumTick(s));
    }
  }
}
