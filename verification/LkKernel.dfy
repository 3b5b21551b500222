/** The kernel as the source writes it: one object whose methods update its
    fields in place. Each method is proved against the function of the state
    that models it; a method that switches ends where the switch leaves the
    caller, and `Return` is the code after the switch. */
module LkKernelClass {
  import opened Bits
  import opened Words
  import opened RunQueues
  import opened TimerQueue
  import opened KernelState
  import opened KernelOps
  import opened KernelCalls
  import opened KernelInv
  import opened KernelSteps
  import opened KernelProofs
  import opened KernelSyncProofs
  import opened KernelDpcProofs
  import opened KernelTickProofs
  import opened KernelRuns
  import opened MaskLaws

  class LkKernel {
    var threads: map<Tid, Thread>
    var runQueue: seq<seq<Tid>>
    var runQueueBitmap: nat
    var currentThread: Tid
    var criticalSectionCount: int
    var masked: bool
    var waits: map<WaitId, WaitQueue>
    var mutexes: map<nat, Mutex>
    var events: map<nat, Event>
    var timerQueue: seq<Entry<ThreadTimer>>
    var dpcList: seq<Call>
    var dpcPc: DpcPc
    const dpcThread: Tid
    const idleThread: Tid

    function State(): Kernel
      reads this
    {
      Kernel(threads, RunQueue(runQueue, runQueueBitmap), currentThread, criticalSectionCount, masked,
             waits, mutexes, events, timerQueue, dpcList, dpcPc, dpcThread, idleThread)
    }

    ghost predicate Valid()
      reads this
    {
      Inv(State())
    }

    constructor (locks: set<nat>, flags: map<nat, Event>, idle: Tid, dpc: Tid, first: Tid)
      requires Bootable(flags, idle, dpc, first)
      ensures Valid() && State() == Boot(locks, flags, idle, dpc, first)
    {
      var s := Boot(locks, flags, idle, dpc, first);
      threads, runQueue, runQueueBitmap, currentThread := s.threads, s.rq.queue, s.rq.bitmap, s.current;
      criticalSectionCount, masked, waits, mutexes, events := s.cs, s.masked, s.waits, s.mutexes, s.events;
      timerQueue, dpcList, dpcPc, dpcThread, idleThread := s.timers, s.dpcs, s.dpcPc, s.dpcThread, s.idle;
      new;
      BootInv(locks, flags, idle, dpc, first);
    }

    // ---- critical sections and run queues ---------------------------------

    method EnterCriticalSection()
      modifies this`criticalSectionCount, this`masked
      ensures State() == Enter(old(State()))
    {
      criticalSectionCount := criticalSectionCount + 1;
      if criticalSectionCount == 1 {
        masked := true;
      }
    }

    method ExitCriticalSection()
      modifies this`criticalSectionCount, this`masked
      ensures State() == KernelOps.Exit(old(State()))
    {
      criticalSectionCount := criticalSectionCount - 1;
      if criticalSectionCount == 0 {
        masked := false;
      }
    }

    method ExitSections(n: nat)
      modifies this`criticalSectionCount, this`masked
      ensures State() == ExitN(old(State()), n)
    {
      var i := 0;
      while i < n
        invariant i <= n && ExitN(State(), n - i) == ExitN(old(State()), n)
      {
        ExitCriticalSection();
        i := i + 1;
      }
    }

    method InsertInRunQueueHead(t: Tid)
      requires t in threads && threads[t].priority < |runQueue|
      modifies this`runQueue, this`runQueueBitmap
      ensures State() == old(State()).(rq := PushHead(old(State()).rq, threads[t].priority, t))
    {
      var p := threads[t].priority;
      runQueue := runQueue[p := [t] + runQueue[p]];
      runQueueBitmap := SetBit(runQueueBitmap, p);
    }

    method InsertInRunQueueTail(t: Tid)
      requires t in threads && threads[t].priority < |runQueue|
      modifies this`runQueue, this`runQueueBitmap
      ensures State() == old(State()).(rq := PushTail(old(State()).rq, threads[t].priority, t))
    {
      var p := threads[t].priority;
      runQueue := runQueue[p := runQueue[p] + [t]];
      runQueueBitmap := SetBit(runQueueBitmap, p);
    }

    /** The scan that the bitmap replaces. */
    method HighestReadyQueue() returns (p: int)
      requires Indexed(State().rq)
      ensures Nonempty(State().rq) ==> p == NextQueue(State().rq)
      ensures !Nonempty(State().rq) ==> p == -1
    {
      p := HIGHEST_PRIORITY;
      while p >= LOWEST_PRIORITY && runQueue[p] == []
        invariant -1 <= p <= HIGHEST_PRIORITY
        invariant forall q | p < q < NUM_PRIORITIES :: runQueue[q] == []
      {
        p := p - 1;
      }
      BitmapChoiceIsLinearScan(State().rq);
      if p >= 0 {
        ScanIs(runQueue, HIGHEST_PRIORITY, p);
      }
    }

    /** The head of the highest queue leaves it, and the bitmap follows. */
    method RemoveNext() returns (newThread: Tid)
      requires CanResched(State())
      modifies this`runQueue, this`runQueueBitmap
      ensures newThread == Next(old(State()))
      ensures State() == old(State()).(rq := PopFrom(old(State()).rq, NextQueue(old(State()).rq)))
    {
      var nextQueue := HIGHEST_PRIORITY - Clz(runQueueBitmap, 32) - (32 - NUM_PRIORITIES);
      newThread := runQueue[nextQueue][0];
      runQueue := runQueue[nextQueue := runQueue[nextQueue][1..]];
      if runQueue[nextQueue] == [] {
        runQueueBitmap := ClearBit(runQueueBitmap, nextQueue);
      }
    }

    method ThreadResched()
      requires CanResched(State())
      modifies this`threads, this`runQueue, this`runQueueBitmap, this`currentThread, this`criticalSectionCount
      ensures State() == Resched(old(State()))
    {
      hide NextQueue, PopFrom;
      var oldThread := currentThread;
      var newThread := RemoveNext();
      threads := threads[newThread := threads[newThread].(state := Running)];
      if newThread == oldThread {
        return;
      }
      if threads[newThread].quantum <= 0 {
        threads := threads[newThread := threads[newThread].(quantum := 5)];
      }
      assert threads == old(threads)[newThread := threads[newThread]];
      threads := threads[oldThread := threads[oldThread].(savedCs := criticalSectionCount)];
      currentThread := newThread;
      criticalSectionCount := threads[newThread].savedCs;
    }

    // ---- thread.c ---------------------------------------------------------

    /** thread_yield, for a caller that continues with `k`. */
    method YieldAs(k: Cont)
      requires Busy(State()) && currentThread != idleThread
      requires (k.InYield? || k.InResume?) && k.Exits() <= criticalSectionCount + 1
      modifies this
      ensures State() == YieldBody(old(State()), k)
    {
      hide Good, Side, Resched, Core;
      RunningFacts(State());
      EnterBusy(State());
      ParkSwitches(Enter(State()), k, 0, false);
      EnterCriticalSection();
      var t := currentThread;
      threads := threads[t := threads[t].(state := Ready, quantum := 0, cont := k)];
      InsertInRunQueueTail(t);
      ParkedEffect(Enter(old(State())), k, 0, false);
      assert State() == Parked(Enter(old(State())), k, 0, false);
      ThreadResched();
    }

    method ThreadYield()
      requires Busy(State()) && currentThread != idleThread
      modifies this
      ensures State() == KernelCalls.ThreadYield(old(State()))
    {
      hide Good, Side, YieldBody;
      EnterBusy(State());
      YieldAs(InYield);
    }

    method ThreadPreempt()
      requires Busy(State()) && criticalSectionCount >= 1
      modifies this
      ensures State() == KernelCalls.ThreadPreempt(old(State()))
    {
      hide Good, Side, Resched, Core;
      RunningFacts(State());
      var t := currentThread;
      EnterBusy(State());
      ParkSwitches(Enter(State()), InPreempt, threads[t].quantum, threads[t].quantum > 0);
      EnterCriticalSection();
      threads := threads[t := threads[t].(state := Ready, cont := InPreempt)];
      if threads[t].quantum > 0 {
        InsertInRunQueueHead(t);
      } else {
        InsertInRunQueueTail(t);
      }
      ghost var q := old(threads)[t].quantum;
      ParkedEffect(Enter(old(State())), InPreempt, q, q > 0);
      assert State() == Parked(Enter(old(State())), InPreempt, q, q > 0);
      PreemptShape(old(State()));
      ThreadResched();
    }

    method ThreadResume(t: Tid) returns (ret: int)
      requires Busy(State()) && currentThread != idleThread && t in threads
      requires threads[t].state.Suspended? || threads[t].state.Ready? || threads[t].state.Running?
      modifies this
      ensures (State(), ret) == KernelCalls.ThreadResume(old(State()), t)
    {
      hide Good, Side, Resched, QueuesOk, WaitsOk;
      RunningFacts(State());
      if threads[t].state.Ready? || threads[t].state.Running? {
        return ERR_NOT_SUSPENDED;
      }
      EnterBusy(State());
      StartReady(Enter(State()), t);
      EnterCriticalSection();
      threads := threads[t := threads[t].(state := Ready)];
      InsertInRunQueueHead(t);
      assert State() == MakeReady(Enter(old(State())), t, true);
      YieldAs(InResume);
      ret := NO_ERROR;
    }

    method ThreadSleep(delay: Word, now: Word)
      requires Busy(State()) && currentThread != idleThread
      modifies this
      ensures State() == KernelCalls.ThreadSleep(old(State()), delay, now)
    {
      hide Good, Side, Resched, Core;
      RunningFacts(State());
      SleepSwitches(State(), Add(now, if delay == 0 then 1 else delay));
      EnterCriticalSection();
      var t := currentThread;
      InsertTimerInQueue(Add(now, if delay == 0 then 1 else delay), Wakeup(t));
      threads := threads[t := threads[t].(state := Sleeping, cont := InSleep)];
      ThreadResched();
    }

    // ---- timer.c ----------------------------------------------------------

    method InsertTimerInQueue(when: Word, body: ThreadTimer)
      modifies this`timerQueue
      ensures State() == old(State()).(timers := Insert(old(timerQueue), Entry(when, body)))
    {
      var i := 0;
      while i < |timerQueue| && !TimeGt(timerQueue[i].when, when)
        invariant i <= |timerQueue|
        invariant forall j | 0 <= j < i :: !TimeGt(timerQueue[j].when, when)
      {
        i := i + 1;
      }
      PositionIs(timerQueue, when, i);
      timerQueue := timerQueue[..i] + [Entry(when, body)] + timerQueue[i..];
    }

    method TimerCancel(body: ThreadTimer)
      modifies this`timerQueue
      ensures State() == old(State()).(timers := CancelTimer(old(timerQueue), body))
    {
      var i := 0;
      while i < |timerQueue| && timerQueue[i].body != body
        invariant i <= |timerQueue|
        invariant forall j | 0 <= j < i :: timerQueue[j].body != body
      {
        i := i + 1;
      }
      CancelAt(timerQueue, body, i);
      if i < |timerQueue| {
        timerQueue := timerQueue[..i] + timerQueue[i+1..];
      }
    }

    // ---- wait queues ------------------------------------------------------

    /** The part of wait_queue_wake_one and wait_queue_wake_all that releases the first waiter. */
    method ReleaseHead(w: WaitId, code: int)
      requires Core(State()) && w in waits && waits[w].list != []
      modifies this`threads, this`waits, this`runQueue, this`runQueueBitmap
      ensures old(waits)[w].list[0] in old(threads)
      ensures old(threads)[old(waits)[w].list[0]].priority < |old(runQueue)|
      ensures State() == Release(old(State()), w, 0, code)
    {
      assert WaitOk(waits[w], w, threads);
      var q := waits[w];
      var t := q.list[0];
      waits := waits[w := WaitQueue(q.list[1..], q.count - 1)];
      assert q.list[..0] + q.list[1..] == q.list[1..];
      threads := threads[t := threads[t].(state := Ready, blockRet := code, blockedOn := None)];
      InsertInRunQueueHead(t);
    }

    /** The loop of wait_queue_wake_all. */
    method ReleaseAll(w: WaitId, code: int) returns (woken: nat)
      requires Core(State()) && w in waits
      modifies this`threads, this`waits, this`runQueue, this`runQueueBitmap
      ensures State() == WakeAll(old(State()), w, code)
      ensures woken == |old(waits)[w].list|
    {
      woken := 0;
      while waits[w].list != []
        invariant Core(State()) && w in waits
        invariant WakeAll(State(), w, code) == WakeAll(old(State()), w, code)
        invariant woken + |waits[w].list| == |old(waits)[w].list|
        decreases |waits[w].list|
      {
        ReleaseCore(State(), w, 0, code);
        ReleaseHead(w, code);
        woken := woken + 1;
      }
    }

    /** wait_queue_block up to the switch. */
    method WaitQueueBlock(w: WaitId, timeout: Word, now: Word) returns (ret: Option<int>)
      requires Good(State()) && threads[currentThread].state.Running? && threads[currentThread].cont.User?
      requires criticalSectionCount >= 1 && currentThread != idleThread && w in waits
      requires w == OfEvent(DPC_EVENT) ==> currentThread == dpcThread && timeout == INFINITE_TIME && dpcPc.AtWait?
      modifies this
      ensures ret == if timeout == 0 then Some(ERR_TIMED_OUT) else None
      ensures State() == if timeout == 0 then old(State()) else Block(old(State()), w, timeout, now)
    {
      hide Good, Core, Resched, Stopped, Block;
      if timeout == 0 {
        return Some(ERR_TIMED_OUT);
      }
      RunningFacts(State());
      StoppedFacts(State(), w, timeout, now);
      BlockSwitches(State(), w, timeout, now);
      BlockShape(State(), w, timeout, now);
      var t := currentThread;
      waits := waits[w := WaitQueue(waits[w].list + [t], waits[w].count + 1)];
      threads := threads[t := threads[t].(state := Blocked, blockedOn := Some(w), blockRet := NO_ERROR,
                                         cont := InWait(w, timeout != INFINITE_TIME))];
      if timeout != INFINITE_TIME {
        InsertTimerInQueue(Add(now, timeout), Timeout(t));
      }
      EnterCriticalSection();
      assert State() == Stopped(old(State()), w, timeout, now);
      ThreadResched();
      ret := None;
    }

    /** thread_unblock_from_wait_queue without reschedule. */
    method ThreadUnblockFromWaitQueue(t: Tid, code: int) returns (ret: int)
      requires Core(State()) && t in threads
      modifies this
      ensures (State(), ret) == Unblock(old(State()), t, code)
    {
      EnterCriticalSection();
      if !threads[t].state.Blocked? {
        return ERR_NOT_BLOCKED;
      }
      var w := threads[t].blockedOn.value;
      assert WaitOk(old(waits)[w], w, old(threads));
      var i := IndexOf(waits[w].list, t);
      waits := waits[w := WaitQueue(waits[w].list[..i] + waits[w].list[i+1..], waits[w].count - 1)];
      threads := threads[t := threads[t].(blockedOn := None, state := Ready, blockRet := code)];
      InsertInRunQueueHead(t);
      assert State() == Release(Enter(old(State())), w, i, code);
      ExitCriticalSection();
      ret := NO_ERROR;
    }

    /** wait_queue_wake_one, for a caller that continues `depth` sections deep. */
    method WaitQueueWakeOne(w: WaitId, reschedule: bool, code: int, depth: nat) returns (woken: nat)
      requires OnCpu(State()) && w in waits
      modifies this
      ensures woken == if old(waits)[w].list == [] then 0 else 1
      ensures old(waits)[w].list == [] ==> State() == old(State())
      ensures old(waits)[w].list != [] && reschedule ==>
        State() == WakeOneAndResched(old(State()), w, code, depth)
      ensures old(waits)[w].list != [] && !reschedule ==>
        WaitOk(old(waits)[w], w, old(threads)) && State() == Release(old(State()), w, 0, code)
    {
      hide QueuesOk, WaitsOk, Resched, Release;
      if waits[w].list == [] {
        return 0;
      }
      WaiterIsBlocked(State(), w);
      if reschedule {
        WakeOneSwitches(State(), w, code, depth);
        PutCurrentAside(depth);
      }
      ReleaseHead(w, code);
      if reschedule {
        ThreadResched();
      }
      woken := 1;
    }

    /** The current thread goes to the head of its run queue, before those it wakes do. */
    method PutCurrentAside(depth: nat)
      requires OnCpu(State())
      modifies this`threads, this`runQueue, this`runQueueBitmap
      ensures State() == MakeReady(SetCont(old(State()), InWake(depth)), old(currentThread), true)
    {
      var t := currentThread;
      threads := threads[t := threads[t].(state := Ready, cont := InWake(depth))];
      InsertInRunQueueHead(t);
    }

    method WaitQueueWakeAll(w: WaitId, reschedule: bool, code: int, depth: nat) returns (woken: nat)
      requires OnCpu(State()) && w in waits
      modifies this
      ensures woken == |old(waits)[w].list|
      ensures woken > 0 && reschedule ==> State() == WakeAllAndResched(old(State()), w, code, depth)
      ensures woken == 0 || !reschedule ==> State() == WakeAll(old(State()), w, code)
    {
      hide QueuesOk, Resched, WakeAll;
      assert WaitOk(waits[w], w, threads);
      if reschedule && waits[w].count > 0 {
        WakeAllSwitches(State(), w, code, depth);
        PutCurrentAside(depth);
      }
      woken := ReleaseAll(w, code);
      if reschedule && woken > 0 {
        ThreadResched();
      }
    }

    // ---- mutex.c ----------------------------------------------------------

    /** mutex_acquire and mutex_acquire_timeout up to the switch, if there is
        one; `ret` is the result of a call that returns without one. */
    method MutexAcquire(m: nat, timeout: Word, now: Word) returns (ret: Option<int>)
      requires Busy(State()) && currentThread != idleThread && m in mutexes && OfMutex(m) in waits
      requires mutexes[m].holder != Some(currentThread) && mutexes[m].count >= 0
      modifies this
      ensures State() == KernelCalls.MutexAcquire(old(State()), m, timeout, now)
      ensures ret == if old(mutexes)[m].count == 0 then Some(NO_ERROR)
                     else if timeout == 0 then Some(ERR_TIMED_OUT) else None
    {
      hide Good, Core, Layers, Block;
      RunningFacts(State());
      EnterBusy(State());
      EnterCriticalSection();
      mutexes := mutexes[m := mutexes[m].(count := mutexes[m].count + 1)];
      if mutexes[m].count > 1 {
        CountedGood(Enter(old(State())), m, mutexes[m].count, mutexes[m].holder);
        ret := WaitQueueBlock(OfMutex(m), timeout, now);
        if ret == Some(ERR_TIMED_OUT) {
          mutexes := mutexes[m := mutexes[m].(count := mutexes[m].count - 1)];
          assert mutexes == old(mutexes);
          ExitCriticalSection();
        }
        return;
      }
      mutexes := mutexes[m := mutexes[m].(holder := Some(currentThread))];
      assert mutexes == old(mutexes)[m := Mutex(1, Some(currentThread))];
      ExitCriticalSection();
      return Some(NO_ERROR);
    }

    method MutexRelease(m: nat)
      requires OnCpu(State()) && m in mutexes && OfMutex(m) in waits && mutexes[m].holder == Some(currentThread)
      modifies this
      ensures State() == KernelCalls.MutexRelease(old(State()), m)
    {
      hide QueuesOk, WaitsOk, Resched, WakeOneAndResched;
      EnterCriticalSection();
      mutexes := mutexes[m := Mutex(mutexes[m].count - 1, None)];
      CoreFrame(old(State()), State());
      if mutexes[m].count >= 1 {
        var woken := WaitQueueWakeOne(OfMutex(m), true, NO_ERROR, 1);
        if woken > 0 {
          return;
        }
      }
      ExitCriticalSection();
    }

    // ---- event.c ----------------------------------------------------------

    method EventWait(e: nat, timeout: Word, now: Word) returns (ret: Option<int>)
      requires Busy(State()) && currentThread != idleThread && e in events && OfEvent(e) in waits
      requires e == DPC_EVENT ==> currentThread == dpcThread && timeout == INFINITE_TIME && dpcPc.AtWait?
      modifies this
      ensures State() == WaitEvent(old(State()), e, timeout, now)
      ensures ret == if old(events)[e].signalled then Some(NO_ERROR)
                     else if timeout == 0 then Some(ERR_TIMED_OUT) else None
    {
      hide Good, Core, Layers, Block;
      RunningFacts(State());
      EnterBusy(State());
      EnterCriticalSection();
      if events[e].signalled {
        if events[e].auto {
          events := events[e := events[e].(signalled := false)];
        }
        assert events == old(events)[e := old(events)[e].(signalled := !old(events)[e].auto)];
        ExitCriticalSection();
        return Some(NO_ERROR);
      }
      ret := WaitQueueBlock(OfEvent(e), timeout, now);
      if ret == Some(ERR_TIMED_OUT) {
        ExitCriticalSection();
      }
    }

    /** event_signal after it has entered its section, for a caller `depth` sections deep. */
    method SignalInSection(e: nat, reschedule: bool, depth: nat)
      requires OnCpu(State()) && e in events && OfEvent(e) in waits
      modifies this
      ensures State() == SignalAt(old(State()), e, reschedule, depth)
    {
      hide QueuesOk, WaitsOk, Resched, WakeAll, WakeOneAndResched, WakeAllAndResched, Release, ExitN;
      if !events[e].signalled {
        if events[e].auto {
          var woken := WaitQueueWakeOne(OfEvent(e), reschedule, NO_ERROR, depth);
          if woken == 0 {
            events := events[e := events[e].(signalled := true)];
          } else if reschedule {
            return;
          }
        } else {
          events := events[e := events[e].(signalled := true)];
          CoreFrame(old(State()), State());
          var woken := WaitQueueWakeAll(OfEvent(e), reschedule, NO_ERROR, depth);
          if reschedule && woken > 0 {
            return;
          }
        }
      }
      ExitSections(depth);
    }

    method EventSignal(e: nat, reschedule: bool)
      requires OnCpu(State()) && e in events && OfEvent(e) in waits
      modifies this
      ensures State() == SignalEvent(old(State()), e, reschedule)
    {
      hide QueuesOk, WaitsOk, SignalAt;
      EnterCriticalSection();
      CoreFrame(old(State()), State());
      SignalInSection(e, reschedule, 1);
    }

    method EventUnsignal(e: nat)
      requires e in events && criticalSectionCount >= 0 && (criticalSectionCount == 0 ==> !masked)
      modifies this
      ensures State() == SetSignalled(old(State()), e, false)
    {
      EnterCriticalSection();
      events := events[e := events[e].(signalled := false)];
      ExitCriticalSection();
    }

    // ---- dpc.c and thread_exit --------------------------------------------

    method DpcQueue(call: Call, reschedule: bool)
      requires OnCpu(State()) && DPC_EVENT in events && OfEvent(DPC_EVENT) in waits
      modifies this
      ensures State() == QueueCall(old(State()), call, reschedule)
    {
      hide QueuesOk, WaitsOk, SignalAt;
      EnterCriticalSection();
      dpcList := dpcList + [call];
      EnterCriticalSection();
      CoreFrame(old(State()), State());
      SignalInSection(DPC_EVENT, reschedule, 2);
    }

    method ThreadExit()
      requires Busy(State()) && currentThread != idleThread && currentThread != dpcThread
      requires DPC_EVENT in events && OfEvent(DPC_EVENT) in waits && !events[DPC_EVENT].auto
      modifies this
      ensures State() == KernelCalls.ThreadExit(old(State()))
    {
      hide Good, Side, Resched, WakeAll, QueuesOk, WaitsOk;
      RunningFacts(State());
      ExitSwitches(State());
      EnterCriticalSection();
      var t := currentThread;
      threads := threads[t := threads[t].(state := Death, cont := Dead)];
      dpcList := dpcList + [Cleanup(t)];
      assert State() == Exited(old(State()));
      if !events[DPC_EVENT].signalled {
        events := events[DPC_EVENT := events[DPC_EVENT].(signalled := true)];
        SetSignalledCore(Exited(old(State())), DPC_EVENT, true);
        var _ := ReleaseAll(OfEvent(DPC_EVENT), NO_ERROR);
      }
      ThreadResched();
    }

    /** One turn of the deferred-call loop after event_wait. */
    method DpcTake()
      requires DPC_EVENT in events && criticalSectionCount >= 0 && (criticalSectionCount == 0 ==> !masked)
      modifies this
      ensures State() == TakeCall(old(State()))
    {
      EnterCriticalSection();
      if dpcList != [] {
        dpcPc := Calling(dpcList[0]);
        dpcList := dpcList[1..];
      } else {
        dpcPc := AtWait;
        EventUnsignal(DPC_EVENT);
      }
      ExitCriticalSection();
    }

    method DpcFinish()
      requires dpcPc.Calling?
      modifies this
      ensures State() == FinishCall(old(State()))
    {
      if dpcPc.call.Cleanup? {
        threads := threads - {dpcPc.call.t};
      }
      dpcPc := AtWait;
    }

    // ---- after the switch -------------------------------------------------

    /** The end of wait_queue_block and of the call that used it. */
    method FinishWait(w: WaitId, timed: bool, ret: int)
      requires w.OfMutex? ==> w.m in mutexes
      modifies this
      ensures
        var s := old(State());
        var s1 := if timed then s.(timers := CancelTimer(s.timers, Timeout(s.current))) else s;
        State() == ExitN(AfterWait(s1, w, ret), 2)
    {
      hide ExitN;
      if timed {
        TimerCancel(Timeout(currentThread));
      }
      match w {
        case OfMutex(m) =>
          if ret == ERR_TIMED_OUT {
            mutexes := mutexes[m := Mutex(mutexes[m].count - 1, mutexes[m].holder)];
          } else {
            mutexes := mutexes[m := Mutex(mutexes[m].count, Some(currentThread))];
          }
        case OfEvent(e) =>
          if currentThread == dpcThread && e == DPC_EVENT {
            dpcPc := AtTake;
          }
      }
      ExitSections(2);
    }

    /** The thread that has just been switched to runs to the end of its call. */
    method Return()
      requires Inv(State())
      modifies this
      ensures old(threads)[old(currentThread)].cont.InWait? && old(threads)[old(currentThread)].cont.w.OfMutex? ==>
        old(threads)[old(currentThread)].cont.w.m in old(mutexes)
      ensures State() == Continue(old(State()))
    {
      hide Good, Core, Side, ExitN, AfterWait, CancelTimer, Continue;
      RunningFacts(State());
      ReturnFacts(State());
      var t := currentThread;
      var k := threads[t].cont;
      threads := threads[t := threads[t].(cont := User)];
      if k.InWait? {
        FinishWait(k.w, k.timed, threads[t].blockRet);
      } else if k.InPreempt? {
        ExitCriticalSection();
        criticalSectionCount := criticalSectionCount - 1;
        masked := false;
      } else {
        ExitSections(k.Exits());
      }
    }

    // ---- the timer interrupt ----------------------------------------------

    /** The callback of the timer that has just left the queue. */
    method TimerCallback(b: ThreadTimer)
      requires Core(State()) && b.t in threads
      modifies this
      ensures State() == Fire(old(State()), b)
    {
      match b
      case Wakeup(t) =>
        threads := threads[t := threads[t].(state := Ready)];
        InsertInRunQueueHead(t);
      case Timeout(t) =>
        var _ := ThreadUnblockFromWaitQueue(t, ERR_TIMED_OUT);
    }

    /** The loop of timer_tick. */
    method TimerTick(now: Word)
      requires Core(State()) && TimersOk(timerQueue, threads)
      modifies this
      ensures State() == FireDue(old(State()), now)
    {
      hide QueuesOk, WaitsOk, Fire;
      while timerQueue != [] && !TimeLt(now, timerQueue[0].when)
        invariant Core(State()) && TimersOk(timerQueue, threads)
        invariant FireDue(State(), now) == FireDue(old(State()), now)
        decreases |timerQueue|
      {
        FireTimers(State());
        var b := timerQueue[0].body;
        timerQueue := timerQueue[1..];
        TimerCallback(b);
      }
    }

    method ThreadTimerTick()
      requires currentThread in threads
      modifies this`threads
      ensures State() == QuantumTick(old(State()))
    {
      if currentThread == idleThread {
        return;
      }
      var t := currentThread;
      threads := threads[t := threads[t].(quantum := threads[t].quantum - 1)];
    }

    /** The interrupt: it counts as a section, and is taken only where nothing masks it. */
    method Interrupt(now: Word)
      requires Busy(State()) && !masked
      modifies this
      ensures TimersOk(old(timerQueue), old(threads)) && OnCpu(old(State()))
      ensures forall i | 0 <= i < |old(timerQueue)| :: old(timerQueue)[i].body.t != old(currentThread)
      ensures State() == Tick(old(State()), now)
    {
      hide Good, Side, FireDue, Tick, QuantumTick, QueuesOk, WaitsOk;
      RunningFacts(State());
      TickFacts(State(), now);
      criticalSectionCount := criticalSectionCount + 1;
      masked := true;
      assert State() == Interrupted(old(State()));
      TimerTick(now);
      ThreadTimerTick();
      ThreadPreempt();
    }

    // ---- whole runs -------------------------------------------------------

    method ThreadCreate(t: Tid, priority: nat)
      requires t !in threads && priority < NUM_PRIORITIES
      modifies this`threads
      ensures State() == KernelCalls.ThreadCreate(old(State()), t, priority)
    {
      threads := threads[t := Thread(priority, Suspended, 1, 0, None, NO_ERROR, Start)];
    }

    method ThreadSetPriority(priority: int)
      requires currentThread in threads
      modifies this`threads
      ensures State() == SetPriority(old(State()), priority)
    {
      var p := priority;
      if p < LOWEST_PRIORITY {
        p := LOWEST_PRIORITY;
      }
      if p > HIGHEST_PRIORITY {
        p := HIGHEST_PRIORITY;
      }
      threads := threads[currentThread := threads[currentThread].(priority := p)];
    }

    /** The calls of thread.c. */
    method CallThread(a: Action)
      requires Busy(State()) && Enabled(State(), a) && !a.Proceed? && !a.TimerTick?
      modifies this
      ensures OnCpu(old(State())) && DomainOk(old(State()))
      ensures State() == ThreadCall(old(State()), a)
    {
      hide QueuesOk, WaitsOk, ThreadsOk, TimersGood, Side, Resched;
      match a
      case Yield => ThreadYield();
      case Sleep(delay, now) => ThreadSleep(delay, now);
      case Exit => ThreadExit();
      case Create(t, priority) => ThreadCreate(t, priority);
      case Resume(t) => var _ := ThreadResume(t);
      case ChangePriority(to) => ThreadSetPriority(to);
      case EnterSection => EnterCriticalSection();
      case ExitSection => ExitCriticalSection();
      case _ =>
    }

    /** The calls of mutex.c, event.c and dpc.c, and the deferred-call thread's loop. */
    method CallSync(a: Action)
      requires Busy(State()) && Enabled(State(), a) && !a.Proceed? && !a.TimerTick?
      requires a.Acquire? || a.ReleaseMutex? || a.Wait? || a.Signal? || a.Unsignal? || a.QueueCallback? || DpcLoop(a)
      requires criticalSectionCount >= 0 && (criticalSectionCount == 0 ==> !masked)
      modifies this
      ensures State() == Step(old(State()), a)
    {
      hide QueuesOk, WaitsOk, ThreadsOk, TimersGood, Layers, KernelCalls.MutexAcquire, KernelCalls.MutexRelease, WaitEvent, SignalEvent, QueueCall;
      MutexCounts(State());
      match a
      case Acquire(m, timeout, now) => var _ := MutexAcquire(m, timeout, now);
      case ReleaseMutex(m) => MutexRelease(m);
      case Wait(e, timeout, now) => var _ := EventWait(e, timeout, now);
      case Signal(e, reschedule) => EventSignal(e, reschedule);
      case Unsignal(e) => EventUnsignal(e);
      case QueueCallback(id, reschedule) => DpcQueue(Callback(id), reschedule);
      case DpcWait =>
        var ret := EventWait(DPC_EVENT, INFINITE_TIME, 0);
        if ret.Some? {
          dpcPc := AtTake;
        }
      case DpcTake => DpcTake();
      case DpcFinish => DpcFinish();
    }

    /** Any step of the kernel. */
    method Execute(a: Action)
      requires Valid() && Enabled(State(), a) && MaskOk(State())
      modifies this
      ensures Valid() && State() == Step(old(State()), a)
    {
      hide Good, Side, ThreadCall, Continue, Tick, DpcStep, MutexCall, SignalCall, EventCall;
      StepInv(State(), a);
      InvOthers(State());
      if a.Proceed? {
        Return();
      } else if a.TimerTick? {
        Interrupt(a.now);
      } else if a.Acquire? || a.ReleaseMutex? || a.Wait? || a.Signal? || a.Unsignal? || a.QueueCallback? || DpcLoop(a) {
        CallSync(a);
      } else {
        CallThread(a);
      }
    }

    /** A whole run ends in the state that the run of the model ends in, so that
        what holds of every run of the model holds of the object. */
    method Run(run: seq<Action>)
      requires Valid() && MaskOk(State()) && Runs(State(), run) && NeverLeaks(State(), run)
      modifies this
      ensures Valid() && State() == old(End(State(), run))
    {
      hide Inv, MaskOk, Step, Enabled, LeaksSection;
      var i := 0;
      while i < |run|
        invariant i <= |run| && Inv(State()) && MaskOk(State())
        invariant Runs(State(), run[i..]) && NeverLeaks(State(), run[i..])
        invariant End(State(), run[i..]) == old(End(State(), run))
      {
        MaskFollowsSections(State(), run[i]);
        assert run[i..][0] == run[i] && run[i..][1..] == run[i+1..];
        Execute(run[i]);
        i := i + 1;
      }
    }
  }

  // ---- what the methods rely on -------------------------------------------

  lemma GoodSwitches(s: Kernel)
    requires Good(s) && !s.threads[s.current].state.Running?
    ensures CanResched(s)
  {
    IdleIsReady(s);
    ReschedAssertions(s);
  }

  lemma RunningFacts(s: Kernel)
    requires Good(s)
    ensures s.current in s.threads && |s.rq.queue| == NUM_PRIORITIES
    ensures forall t | t in s.threads :: s.threads[t].priority < NUM_PRIORITIES
    ensures Core(s)
  {
  }

  lemma StoppedFacts(s: Kernel, w: WaitId, timeout: Word, now: Word)
    requires s.current in s.threads && w in s.waits
    ensures
      var timed := timeout != INFINITE_TIME;
      var th := s.threads[s.current];
      Stopped(s, w, timeout, now) ==
      Enter(s.(threads := s.threads[s.current := th.(state := Blocked, blockedOn := Some(w), blockRet := NO_ERROR, cont := InWait(w, timed))],
               waits := s.waits[w := WaitQueue(s.waits[w].list + [s.current], s.waits[w].count + 1)],
               timers := if timed then Insert(s.timers, Entry(Add(now, timeout), Timeout(s.current))) else s.timers))
  {
  }

  lemma ParkSwitches(s: Kernel, k: Cont, quantum: int, head: bool)
    requires Busy(s) && 1 <= k.Exits() <= s.cs && !k.InWait? && !k.Dead? && !k.User? && !k.InWake?
    requires s.current == s.idle ==> k.InPreempt?
    ensures CanResched(Parked(s, k, quantum, head))
  {
    ParkGood(s, k, quantum, head);
    ParkedEffect(s, k, quantum, head);
    GoodSwitches(Parked(s, k, quantum, head));
  }

  lemma PreemptShape(s: Kernel)
    requires OnCpu(s)
    ensures
      var q := s.threads[s.current].quantum;
      KernelCalls.ThreadPreempt(s) == Resched(Parked(Enter(s), InPreempt, q, q > 0))
  {
    hide QueuesOk, WaitsOk, Resched;
    var th := s.threads[s.current];
    assert th.(cont := InPreempt) == th.(quantum := th.quantum, cont := InPreempt);
  }

  lemma SleepSwitches(s: Kernel, when: Word)
    requires Busy(s) && s.current != s.idle
    ensures CanResched(Asleep(s, when))
  {
    AsleepGood(s, when);
    GoodSwitches(Asleep(s, when));
  }

  lemma BlockSwitches(s: Kernel, w: WaitId, timeout: Word, now: Word)
    requires Good(s) && s.threads[s.current].state.Running? && s.threads[s.current].cont.User?
    requires s.cs >= 1 && s.current != s.idle && w in s.waits
    requires w == OfEvent(DPC_EVENT) ==> s.current == s.dpcThread && timeout == INFINITE_TIME && s.dpcPc.AtWait?
    ensures CanResched(Stopped(s, w, timeout, now))
  {
    StoppedGood(s, w, timeout, now);
    GoodSwitches(Stopped(s, w, timeout, now));
  }

  lemma WaiterIsBlocked(s: Kernel, w: WaitId)
    requires Core(s) && w in s.waits && s.waits[w].list != []
    ensures WaitOk(s.waits[w], w, s.threads)
  {
  }

  lemma WakeOneSwitches(s: Kernel, w: WaitId, code: int, depth: nat)
    requires OnCpu(s) && w in s.waits && s.waits[w].list != []
    ensures
      var p := MakeReady(SetCont(s, InWake(depth)), s.current, true);
      && Core(p) && WaitOk(p.waits[w], w, p.threads)
      && CanResched(Release(p, w, 0, code))
  {
    var p := MakeReady(SetCont(s, InWake(depth)), s.current, true);
    ParkCore(s, InWake(depth), true);
    ReleaseReleases(p, w, 0, code);
    ReadySwitches(Release(p, w, 0, code));
  }

  /** A current thread that is READY is itself a candidate. */
  lemma ReadySwitches(s: Kernel)
    requires Core(s) && s.threads[s.current].state.Ready?
    ensures CanResched(s)
  {
    ReschedAssertions(s);
  }

  lemma WakeAllSwitches(s: Kernel, w: WaitId, code: int, depth: nat)
    requires OnCpu(s) && w in s.waits
    ensures
      var p := MakeReady(SetCont(s, InWake(depth)), s.current, true);
      Core(p) && CanResched(WakeAll(p, w, code))
  {
    var p := MakeReady(SetCont(s, InWake(depth)), s.current, true);
    ParkCore(s, InWake(depth), true);
    WakeAllReady(p, w, code);
    ReadySwitches(WakeAll(p, w, code));
  }

  lemma {:induction false} WakeAllReady(s: Kernel, w: WaitId, code: int)
    requires Core(s) && w in s.waits && s.threads[s.current].state.Ready?
    ensures
      var s' := WakeAll(s, w, code);
      Core(s') && s'.current == s.current && s'.threads[s.current].state.Ready?
    decreases |s.waits[w].list|
  {
    hide QueuesOk, WaitsOk, Release;
    if s.waits[w].list != [] {
      ReleaseReleases(s, w, 0, code);
      WakeAllReady(Release(s, w, 0, code), w, code);
    }
  }

  lemma CountedGood(s: Kernel, m: nat, count: int, holder: Option<Tid>)
    requires Busy(s) && m in s.mutexes
    ensures Good(SetMutex(s, m, count, holder))
  {
    SetMutexGood(s, m, count, holder);
  }

  lemma ExitSwitches(s: Kernel)
    requires Busy(s) && s.current != s.idle && s.current != s.dpcThread
    requires DPC_EVENT in s.events && OfEvent(DPC_EVENT) in s.waits && !s.events[DPC_EVENT].auto
    ensures Core(Exited(s)) && CanResched(SignalQuietly(Exited(s), DPC_EVENT))
  {
    hide QueuesOk, WaitsOk, ThreadsOk, TimersGood, DomainOk, Layers, SignalQuietly;
    ExitedGood(s);
    ExitedLayers(s);
    QuietKeeps(Exited(s), DPC_EVENT);
    GoodSwitches(SignalQuietly(Exited(s), DPC_EVENT));
  }

  lemma ReturnFacts(s: Kernel)
    requires Good(s)
    ensures
      var k := s.threads[s.current].cont;
      match k
      case InWait(w, _) =>
        && (w.OfMutex? ==> w.m in s.mutexes)
        && Continue(s) == ExitN(AfterWait(Returned(s), w, s.threads[s.current].blockRet), 2)
      case InPreempt => Continue(s) == Returned(s).(cs := s.cs - 2, masked := false)
      case _ => Continue(s) == ExitN(Returned(s), k.Exits())
  {
    ContinueShape(s);
  }

  /** What the interrupt relies on while it runs the timers. */
  lemma TickFacts(s: Kernel, now: Word)
    requires Busy(s)
    ensures OnCpu(s) && TimersOk(s.timers, s.threads) && Core(Interrupted(s))
    ensures forall i | 0 <= i < |s.timers| :: s.timers[i].body.t != s.current
    ensures
      var f := FireDue(Interrupted(s), now);
      && f.current in f.threads && Busy(QuantumTick(f)) && QuantumTick(f).cs >= 1
      && Tick(s, now) == KernelCalls.ThreadPreempt(QuantumTick(f))
  {
    NoOwnTimer(s);
    TickShape(s, now);
    FiredBusy(s, now);
    var f := FireDue(Interrupted(s), now);
    QuantumGood(f);
    QuantumCs(f);
  }

  lemma MutexCounts(s: Kernel)
    requires Inv(s)
    ensures forall m | m in s.mutexes :: s.mutexes[m].count >= 0
  {
    hide Good;
    forall m | m in s.mutexes ensures s.mutexes[m].count >= 0 {
      assert MutexOk(s.mutexes[m], m, ViewOf(s.threads).waiters);
    }
  }

  lemma {:induction false} CancelAt(timers: seq<Entry<ThreadTimer>>, b: ThreadTimer, i: nat)
    requires i <= |timers| && (i < |timers| ==> timers[i].body == b)
    requires forall j | 0 <= j < i :: timers[j].body != b
    ensures CancelTimer(timers, b) == if i < |timers| then timers[..i] + timers[i+1..] else timers
    decreases i
  {
    if i > 0 {
      CancelAt(timers[1..], b, i - 1);
      if i < |timers| {
        assert [timers[0]] + (timers[1..][..i-1] + timers[1..][i..]) == timers[..i] + timers[i+1..];
      }
    }
  }
}
