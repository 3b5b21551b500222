/** What each call of mutexes, events and deferred calls comes to. */
module CallLaws {
  import opened Words
  import opened RunQueues
  import opened TimerQueue
  import opened KernelState
  import opened KernelOps
  import opened KernelCalls
  import opened KernelInv
  import opened KernelSteps
  import opened KernelTickProofs
  import opened KernelSync
  import opened KernelLaws
  import opened KernelRuns
  import opened MutexLaws
  import opened SwitchLaws

  /** The caller now waits: last in the queue, blocked, with success as its code so far. */
  ghost predicate Queues(s: Kernel, s': Kernel, w: WaitId, timed: bool) {
    && w in s.waits && w in s'.waits && s'.waits[w].list == s.waits[w].list + [s.current]
    && s.current in s'.threads && s'.threads[s.current].state.Blocked?
    && s'.threads[s.current].cont == InWait(w, timed) && s'.threads[s.current].blockRet == NO_ERROR
  }

  lemma ListsOf(s: Kernel, w: WaitId)
    ensures w in s.waits <==> w in Abs(s).lists
    ensures w in s.waits ==> Abs(s).lists[w] == s.waits[w].list
  {
  }

  lemma WaiterIs(s: Kernel, t: Tid, w: WaitId, timed: bool)
    requires Inv(s) && t in Abs(s).waiters && Abs(s).waiters[t] == Waiter(w, timed, true, NO_ERROR)
    ensures t in s.threads && s.threads[t].state.Blocked? && s.threads[t].cont == InWait(w, timed)
    ensures s.threads[t].blockRet == NO_ERROR
  {
    hide QueuesOk, WaitsOk, ThreadsOk, TimersGood, DomainOk, Side;
  }

  lemma JoinQueues(s: Kernel, a: Action, y: Sync, w: WaitId, timed: bool)
    requires Inv(s) && Enabled(s, a) && w in s.waits && y.lists == Abs(s).lists && w in y.lists
    requires Abs(Step(s, a)) == Join(y, s.current, w, timed)
    ensures Queues(s, Step(s, a), w, timed)
  {
    hide Inv, Enabled, Step, Abs;
    StepInv(s, a);
    ListsOf(s, w);
    ListsOf(Step(s, a), w);
    WaiterIs(Step(s, a), s.current, w, timed);
  }

  /** mutex_acquire: a free mutex is taken, whatever the timeout; a zero timeout
      gives up on another without a trace; otherwise the caller is counted and waits. */
  lemma AcquireOutcome(s: Kernel, m: nat, timeout: Word, now: Word)
    requires Inv(s) && Enabled(s, Acquire(m, timeout, now))
    ensures
      var s' := Step(s, Acquire(m, timeout, now));
      var mx := s.mutexes[m];
      && s'.events == s.events
      && (mx.count == 0 ==> s'.mutexes == s.mutexes[m := Mutex(1, Some(s.current))])
      && (mx.count != 0 && timeout == 0 ==> s'.mutexes == s.mutexes)
      && (mx.count != 0 && timeout != 0 ==>
            && s'.mutexes == s.mutexes[m := Mutex(mx.count + 1, mx.holder)]
            && Queues(s, s', OfMutex(m), timeout != INFINITE_TIME))
  {
    hide Inv, Step, Queues;
    var a := Acquire(m, timeout, now);
    KernelRefinesSync(s, a);
    KnownMutex(s, m);
    var mx := s.mutexes[m];
    if mx.count != 0 && timeout != 0 {
      assert mx.(count := mx.count + 1) == Mutex(mx.count + 1, mx.holder);
      JoinQueues(s, a, Abs(s).(mutexes := s.mutexes[m := mx.(count := mx.count + 1)]), OfMutex(m), timeout != INFINITE_TIME);
    }
  }

  /** mutex_release: nobody owns the mutex any more, and one claim fewer is counted. */
  lemma ReleaseOutcome(s: Kernel, m: nat)
    requires Inv(s) && Enabled(s, ReleaseMutex(m))
    ensures Step(s, ReleaseMutex(m)).mutexes == s.mutexes[m := Mutex(s.mutexes[m].count - 1, None)]
  {
    hide Inv, Step;
    KernelRefinesSync(s, ReleaseMutex(m));
  }

  /** The return from a wait for a mutex: a waiter that was woken owns it, one that timed out gives its claim up. */
  lemma AcquireReturns(s: Kernel, m: nat, timed: bool)
    requires Inv(s) && Enabled(s, Proceed) && s.threads[s.current].cont == InWait(OfMutex(m), timed) && m in s.mutexes
    ensures
      var mx := s.mutexes[m];
      Step(s, Proceed).mutexes == s.mutexes[m :=
        if s.threads[s.current].blockRet == ERR_TIMED_OUT then Mutex(mx.count - 1, mx.holder)
        else Mutex(mx.count, Some(s.current))]
  {
    hide Inv, Step;
    KernelRefinesSync(s, Proceed);
    InvParts(s);
    CoreSize(s);
    AbsWaiter(s, s.current);
  }

  /** event_wait: a signalled event lets the caller through and, if it is
      auto-unsignal, is cleared; a zero timeout gives up; otherwise the caller waits. */
  lemma WaitOutcome(s: Kernel, e: nat, timeout: Word, now: Word)
    requires Inv(s) && Enabled(s, Wait(e, timeout, now))
    ensures
      var s' := Step(s, Wait(e, timeout, now));
      var ev := s.events[e];
      && s'.mutexes == s.mutexes
      && (ev.signalled ==> s'.events == s.events[e := Event(!ev.auto, ev.auto)])
      && (!ev.signalled ==> s'.events == s.events)
      && (!ev.signalled && timeout != 0 ==> Queues(s, s', OfEvent(e), timeout != INFINITE_TIME))
  {
    hide Inv, Step, Queues;
    var a := Wait(e, timeout, now);
    KernelRefinesSync(s, a);
    EventKnown(s, e);
    if !s.events[e].signalled && timeout != 0 {
      JoinQueues(s, a, Abs(s), OfEvent(e), timeout != INFINITE_TIME);
    }
  }

  lemma EventKnown(s: Kernel, e: nat)
    requires Inv(s) && e in s.events
    ensures OfEvent(e) in s.waits
  {
    hide QueuesOk, WaitsOk, ThreadsOk, TimersGood, Side;
  }

  /** event_signal: the event is set unless it is auto-unsignal and a thread waits for it. */
  lemma SignalOutcome(s: Kernel, e: nat, reschedule: bool)
    requires Inv(s) && Enabled(s, Signal(e, reschedule))
    ensures OfEvent(e) in s.waits
    ensures
      var s' := Step(s, Signal(e, reschedule));
      var ev := s.events[e];
      && s'.mutexes == s.mutexes
      && s'.events == s.events[e := Event(ev.signalled || !ev.auto || s.waits[OfEvent(e)].list == [], ev.auto)]
  {
    hide Inv, Step;
    var a := Signal(e, reschedule);
    KernelRefinesSync(s, a);
    EventKnown(s, e);
    ListsOf(s, OfEvent(e));
    SignalFlag(Abs(s), e);
  }

  lemma SignalFlag(y: Sync, e: nat)
    requires e in y.events && OfEvent(e) in y.lists
    ensures DoSignal(y, e).mutexes == y.mutexes
    ensures
      var ev := y.events[e];
      DoSignal(y, e).events == y.events[e := Event(ev.signalled || !ev.auto || y.lists[OfEvent(e)] == [], ev.auto)]
  {
    if !y.events[e].signalled && !y.events[e].auto {
      GrantAllQueues(Flag(y, e, true), OfEvent(e));
    }
    assert y.events[e := y.events[e]] == y.events;
  }

  lemma UnsignalOutcome(s: Kernel, e: nat)
    requires Inv(s) && Enabled(s, Unsignal(e))
    ensures Step(s, Unsignal(e)).events == s.events[e := Event(false, s.events[e].auto)]
    ensures Step(s, Unsignal(e)).mutexes == s.mutexes
  {
    hide Inv, Step;
    KernelRefinesSync(s, Unsignal(e));
  }

  /** The deferred-call loop after its wait: it takes the first call, or clears its event and waits again. */
  lemma TakeOutcome(s: Kernel)
    requires Inv(s) && Enabled(s, DpcTake)
    ensures
      var s' := Step(s, DpcTake);
      if s.dpcs == [] then
        s'.dpcs == [] && s'.dpcPc == AtWait && DPC_EVENT in s'.events && !s'.events[DPC_EVENT].signalled
      else
        s'.dpcs == s.dpcs[1..] && s'.dpcPc == Calling(s.dpcs[0]) && s'.events == s.events
  {
    hide Inv, Step;
    KernelRefinesSync(s, DpcTake);
  }

  /** The loop's wait: it goes on to take a call if the event is set, otherwise it waits without a timeout. */
  lemma DpcWaitOutcome(s: Kernel)
    requires Inv(s) && Enabled(s, DpcWait)
    ensures DPC_EVENT in s.events
    ensures
      var s' := Step(s, DpcWait);
      && s'.events == s.events && s'.dpcs == s.dpcs
      && (s.events[DPC_EVENT].signalled ==> s'.dpcPc == AtTake)
      && (!s.events[DPC_EVENT].signalled ==> s'.dpcPc == s.dpcPc && Queues(s, s', OfEvent(DPC_EVENT), false))
  {
    hide Inv, Step, Queues;
    DpcEventSticky(s);
    KernelRefinesSync(s, DpcWait);
    assert s.events[DPC_EVENT := s.events[DPC_EVENT]] == s.events;
    assert s.events[DPC_EVENT].(signalled := true) == s.events[DPC_EVENT] || !s.events[DPC_EVENT].signalled;
    if !s.events[DPC_EVENT].signalled {
      JoinQueues(s, DpcWait, Abs(s), OfEvent(DPC_EVENT), false);
    }
  }

  /** The return from that wait, and the end of a call. */
  lemma DpcLoopGoesOn(s: Kernel, a: Action)
    requires Inv(s) && Enabled(s, a)
    ensures a.Proceed? && s.current in s.threads && s.threads[s.current].cont == InWait(OfEvent(DPC_EVENT), false) ==>
      Step(s, a).dpcPc == AtTake
    ensures a.DpcFinish? ==> Step(s, a).dpcPc == AtWait && Step(s, a).dpcs == s.dpcs
  {
    hide Inv, Step;
    KernelRefinesSync(s, a);
    InvParts(s);
    CoreSize(s);
    AbsWaiter(s, s.current);
  }

  /** Queueing a call sets the event of the deferred calls. */
  lemma CallbackOutcome(s: Kernel, id: nat, reschedule: bool)
    requires Inv(s) && Enabled(s, QueueCallback(id, reschedule))
    ensures
      var s' := Step(s, QueueCallback(id, reschedule));
      s'.dpcs == s.dpcs + [Callback(id)] && DPC_EVENT in s'.events && s'.events[DPC_EVENT].signalled
  {
    hide Inv, Step;
    KernelRefinesSync(s, QueueCallback(id, reschedule));
    DpcEventSticky(s);
    SignalFlag(Abs(s).(calls := s.dpcs + [Callback(id)]), DPC_EVENT);
    if !s.events[DPC_EVENT].signalled {
      GrantAllQueues(Flag(Abs(s).(calls := s.dpcs + [Callback(id)]), DPC_EVENT, true), OfEvent(DPC_EVENT));
    }
  }

  lemma DpcEventSticky(s: Kernel)
    requires Inv(s)
    ensures DPC_EVENT in s.events && !s.events[DPC_EVENT].auto && OfEvent(DPC_EVENT) in s.waits && OfEvent(DPC_EVENT) in Abs(s).lists
  {
    hide QueuesOk, WaitsOk, ThreadsOk, TimersGood;
  }

  /** thread_create: a suspended thread of that priority, which no queue holds. */
  lemma CreateOutcome(s: Kernel, t: Tid, priority: nat)
    requires Inv(s) && Enabled(s, Create(t, priority))
    ensures
      var s' := Step(s, Create(t, priority));
      && t in s'.threads && s'.threads[t].priority == priority && s'.threads[t].state.Suspended?
      && s'.threads - {t} == s.threads && s'.rq == s.rq && s'.waits == s.waits && s'.timers == s.timers
  {
    hide QueuesOk, WaitsOk, ThreadsOk, TimersGood, Side;
  }
}
