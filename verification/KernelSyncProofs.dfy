/** Calls of mutex.c and event.c keep the kernel's invariant. */
module KernelSyncProofs {
  import opened Words
  import opened RunQueues
  import opened TimerQueue
  import opened KernelState
  import opened KernelOps
  import opened KernelCalls
  import opened KernelInv
  import opened KernelSteps
  import opened KernelSide
  import opened KernelProofs

  // ---- mutex_acquire and event_wait ---------------------------------------

  lemma SetMutexGood(s: Kernel, m: nat, count: int, holder: Option<Tid>)
    requires Good(s) && m in s.mutexes
    ensures Good(SetMutex(s, m, count, holder))
  {
    var s' := SetMutex(s, m, count, holder);
    assert s'.mutexes.Keys == s.mutexes.Keys;
    assert ThreadOk(s.threads[s.current], true, s.cs);
    GoodFrame(s, s');
  }

  lemma SetMutexSide(s: Kernel, m: nat, count: int, holder: Option<Tid>)
    requires Side(s) && m in s.mutexes
    requires MutexOk(Mutex(count, holder), m, ViewOf(s.threads).waiters)
    ensures Side(SetMutex(s, m, count, holder))
  {
  }

  lemma SetMutexBusy(s: Kernel, m: nat, count: int, holder: Option<Tid>)
    requires Busy(s) && m in s.mutexes
    requires MutexOk(Mutex(count, holder), m, ViewOf(s.threads).waiters)
    ensures Busy(SetMutex(s, m, count, holder))
  {
    SetMutexGood(s, m, count, holder);
    SetMutexSide(s, m, count, holder);
  }

  lemma BlockInv(s: Kernel, w: WaitId, timeout: Word, now: Word)
    requires Good(s) && s.threads[s.current].state.Running? && s.threads[s.current].cont.User?
    requires w in s.waits && s.cs >= 1 && s.current != s.idle
    requires w == OfEvent(DPC_EVENT) ==> s.current == s.dpcThread && timeout == INFINITE_TIME && s.dpcPc.AtWait?
    requires Side(Stopped(s, w, timeout, now))
    ensures Inv(Block(s, w, timeout, now))
  {
    StoppedGood(s, w, timeout, now);
    BlockShape(s, w, timeout, now);
    ReschedInv(Stopped(s, w, timeout, now));
  }

  /** mutex_acquire of a free mutex. */
  lemma AcquireFree(s: Kernel, m: nat)
    requires Busy(s) && m in s.mutexes && s.mutexes[m].count == 0
    ensures Busy(KernelOps.Exit(SetMutex(Enter(s), m, 1, Some(s.current))))
  {
    assert MutexOk(s.mutexes[m], m, ViewOf(s.threads).waiters);
    EnterBusy(s);
    MutexTake(s.mutexes[m], m, ViewOf(s.threads).waiters, s.current);
    SetMutexBusy(Enter(s), m, 1, Some(s.current));
    ExitBusy(SetMutex(Enter(s), m, 1, Some(s.current)), 1);
  }

  lemma AcquireBlocks(s: Kernel, m: nat, timeout: Word, now: Word)
    requires Busy(s) && s.current != s.idle && m in s.mutexes && OfMutex(m) in s.waits
    ensures Inv(Block(SetMutex(Enter(s), m, s.mutexes[m].count + 1, s.mutexes[m].holder), OfMutex(m), timeout, now))
  {
    EnterBusy(s);
    SetMutexGood(Enter(s), m, s.mutexes[m].count + 1, s.mutexes[m].holder);
    BlockOnMutexSide(Enter(s), m, timeout, now);
    BlockInv(SetMutex(Enter(s), m, s.mutexes[m].count + 1, s.mutexes[m].holder), OfMutex(m), timeout, now);
  }

  lemma AcquireShape(s: Kernel, m: nat, timeout: Word, now: Word)
    requires MutexesOk(s.mutexes, ViewOf(s.threads).waiters)
    requires s.current in s.threads && m in s.mutexes && OfMutex(m) in s.waits
    ensures
      MutexAcquire(s, m, timeout, now) ==
      if s.mutexes[m].count == 0 then KernelOps.Exit(SetMutex(Enter(s), m, 1, Some(s.current)))
      else if timeout == 0 then KernelOps.Exit(Enter(s))
      else Block(SetMutex(Enter(s), m, s.mutexes[m].count + 1, s.mutexes[m].holder), OfMutex(m), timeout, now)
  {
    hide ViewOf, Block, SetMutex;
    assert MutexOk(s.mutexes[m], m, ViewOf(s.threads).waiters);
  }

  lemma AcquireInv(s: Kernel, m: nat, timeout: Word, now: Word)
    requires Busy(s) && s.current != s.idle && m in s.mutexes && OfMutex(m) in s.waits
    ensures Inv(MutexAcquire(s, m, timeout, now))
  {
    AcquireShape(s, m, timeout, now);
    if s.mutexes[m].count == 0 {
      AcquireFree(s, m);
    } else if timeout == 0 {
      EnterBusy(s);
      ExitBusy(Enter(s), 1);
    } else {
      AcquireBlocks(s, m, timeout, now);
    }
  }

  lemma SetSignalledGood(s: Kernel, e: nat, signalled: bool)
    requires Good(s) && e in s.events
    ensures Good(SetSignalled(s, e, signalled))
  {
    var s' := SetSignalled(s, e, signalled);
    assert s'.events.Keys == s.events.Keys;
    assert ThreadOk(s.threads[s.current], true, s.cs);
    GoodFrame(s, s');
  }

  lemma ClearBusy(s: Kernel, e: nat)
    requires Busy(s) && e in s.events && (e == DPC_EVENT ==> s.dpcs == [])
    ensures Busy(SetSignalled(s, e, false))
  {
    SetSignalledGood(s, e, false);
    ClearSide(s, e);
  }

  lemma ClearSide(s: Kernel, e: nat)
    requires Side(s) && e in s.events && (e == DPC_EVENT ==> s.dpcs == [])
    ensures Side(SetSignalled(s, e, false))
  {
  }

  lemma SetLayers(s: Kernel, e: nat)
    requires Layers(s) && e in s.events && (OfEvent(e) in s.waits ==> s.waits[OfEvent(e)].list == [])
    ensures Layers(SetSignalled(s, e, true))
    ensures CallsSignalled(s) || e == DPC_EVENT ==> CallsSignalled(SetSignalled(s, e, true))
  {
  }

  lemma WaitInv(s: Kernel, e: nat, timeout: Word, now: Word)
    requires Busy(s) && s.current != s.idle && e in s.events && OfEvent(e) in s.waits
    requires e == DPC_EVENT ==> s.current == s.dpcThread && timeout == INFINITE_TIME && s.dpcPc.AtWait?
    ensures Inv(WaitEvent(s, e, timeout, now))
    ensures s.events[e].signalled ==> Busy(WaitEvent(s, e, timeout, now))
  {
    hide QueuesOk, WaitsOk, ThreadsOk, TimersGood, Layers, Block, Stopped;
    EnterBusy(s);
    var n := Enter(s);
    if s.events[e].signalled {
      if s.events[e].auto {
        ClearBusy(n, e);
      } else {
        assert SetSignalled(n, e, true) == n;
      }
      ExitBusy(SetSignalled(n, e, !s.events[e].auto), 1);
    } else if timeout == 0 {
      ExitBusy(n, 1);
    } else {
      BlockOnEventSide(n, e, timeout, now);
      BlockInv(n, OfEvent(e), timeout, now);
    }
  }

  // ---- waking -------------------------------------------------------------

  /** One waiter is released: the state stays good and only that thread, its queue and the run queue change. */
  lemma WakeKeeps(s: Kernel, w: WaitId, i: nat, code: int)
    requires Good(s) && Layers(s) && w in s.waits && i < |s.waits[w].list| && Wakeable(s, w, i, code)
    ensures WaitOk(s.waits[w], w, s.threads)
    ensures Released(s, Release(s, w, i, code), s.waits[w].list[i], code)
    ensures Good(Release(s, w, i, code)) && Layers(Release(s, w, i, code))
  {
    ReleaseReleases(s, w, i, code);
    BlockedWaits(s, s.waits[w].list[i]);
    ReleasedGood(s, Release(s, w, i, code), s.waits[w].list[i], code);
    WakeLayers(s, Release(s, w, i, code), w, i, code);
  }

  /** A timeout needs a timed waiter; a wake from a mutex needs it free. */
  ghost predicate Wakeable(s: Kernel, w: WaitId, i: nat, code: int)
    requires w in s.waits && i < |s.waits[w].list|
  {
    var t := s.waits[w].list[i];
    && (code == NO_ERROR ||
        (code == ERR_TIMED_OUT && t in s.threads && s.threads[t].cont.InWait? && s.threads[t].cont.timed))
    && (w.OfMutex? && code == NO_ERROR && w.m in s.mutexes ==>
          s.mutexes[w.m].holder.None? && Handoffs(ViewOf(s.threads).waiters, w.m) == {})
  }

  lemma WakeLayers(s: Kernel, s': Kernel, w: WaitId, i: nat, code: int)
    requires Layers(s) && w in s.waits && i < |s.waits[w].list| && Wakeable(s, w, i, code)
    requires Released(s, s', s.waits[w].list[i], code)
    requires s'.waits == s.waits[w := WaitQueue(s.waits[w].list[..i] + s.waits[w].list[i+1..], s.waits[w].count - 1)]
    requires s.threads[s.waits[w].list[i]].cont.InWait? && s.threads[s.waits[w].list[i]].cont.w == w
    ensures Layers(s')
  {
    LayersRelease(s, s', w, s.waits[w].list[i], code);
  }

  /** The current thread put aside at the head of its run queue, to be overtaken by those it wakes. */
  function Overtaken(s: Kernel, depth: nat): Kernel
    requires s.current in s.threads && s.threads[s.current].priority < |s.rq.queue|
  {
    Parked(s, InWake(depth), s.threads[s.current].quantum, true)
  }

  lemma OvertakenShape(s: Kernel, depth: nat)
    requires s.current in s.threads && s.threads[s.current].priority < |s.rq.queue|
    ensures MakeReady(SetCont(s, InWake(depth)), s.current, true) == Overtaken(s, depth)
    ensures Overtaken(s, depth) == s.(threads := Overtaken(s, depth).threads, rq := Overtaken(s, depth).rq)
    ensures Overtaken(s, depth).threads[s.current].state.Ready?
  {
    var th := s.threads[s.current];
    assert th.(cont := InWake(depth)) == th.(quantum := th.quantum, cont := InWake(depth));
  }

  /** A thread inside a call, which may have left a deferred call unannounced. */
  ghost predicate InCall(s: Kernel) {
    Good(s) && Layers(s) && s.threads[s.current].state.Running? && s.threads[s.current].cont.User?
  }

  lemma OvertakenInv(s: Kernel, depth: nat)
    requires InCall(s) && 1 <= depth <= s.cs && s.current != s.idle
    ensures Good(Overtaken(s, depth)) && Layers(Overtaken(s, depth))
    ensures ViewOf(Overtaken(s, depth).threads) == ViewOf(s.threads)
  {
    var q := s.threads[s.current].quantum;
    ParkGood(s, InWake(depth), q, true);
    ParkView(s, InWake(depth), q, true);
    LayersFrame(s, Overtaken(s, depth));
  }

  lemma WakeOneInv(s: Kernel, w: WaitId, depth: nat)
    requires Busy(s) && 1 <= depth <= s.cs && s.current != s.idle
    requires w in s.waits && s.waits[w].list != [] && Wakeable(s, w, 0, NO_ERROR)
    ensures Inv(WakeOneAndResched(s, w, NO_ERROR, depth))
  {
    OvertakenShape(s, depth);
    OvertakenInv(s, depth);
    var p := Overtaken(s, depth);
    WakeKeeps(p, w, 0, NO_ERROR);
    ReschedInv(Release(p, w, 0, NO_ERROR));
  }

  lemma ReleaseShape(s: Kernel, m: nat)
    requires OnCpu(s) && m in s.mutexes && OfMutex(m) in s.waits
    ensures
      var s1 := SetMutex(Enter(s), m, s.mutexes[m].count - 1, None);
      if s.mutexes[m].count - 1 >= 1 && s.waits[OfMutex(m)].list != [] then
        OnCpu(s1) && MutexRelease(s, m) == WakeOneAndResched(s1, OfMutex(m), NO_ERROR, 1)
      else MutexRelease(s, m) == KernelOps.Exit(s1)
  {
  }

  /** mutex_release up to its decision whether to wake. */
  lemma DropBusy(s: Kernel, m: nat)
    requires Busy(s) && m in s.mutexes && s.mutexes[m].holder.Some?
    ensures Busy(SetMutex(Enter(s), m, s.mutexes[m].count - 1, None))
    ensures Handoffs(ViewOf(s.threads).waiters, m) == {}
  {
    assert MutexOk(s.mutexes[m], m, ViewOf(s.threads).waiters);
    EnterBusy(s);
    MutexDrop(s.mutexes[m], m, ViewOf(s.threads).waiters);
    SetMutexBusy(Enter(s), m, s.mutexes[m].count - 1, None);
  }

  lemma ReleaseInv(s: Kernel, m: nat)
    requires Busy(s) && s.current != s.idle && m in s.mutexes && OfMutex(m) in s.waits
    requires s.mutexes[m].holder.Some?
    ensures Inv(MutexRelease(s, m))
  {
    ReleaseShape(s, m);
    DropBusy(s, m);
    assert ThreadOk(s.threads[s.current], true, s.cs);
    var s1 := SetMutex(Enter(s), m, s.mutexes[m].count - 1, None);
    if s.mutexes[m].count - 1 >= 1 && s.waits[OfMutex(m)].list != [] {
      WakeOneInv(s1, OfMutex(m), 1);
    } else {
      ExitBusy(s1, 1);
    }
  }

  // ---- event_signal -------------------------------------------------------

  /** Only the threads, the run queue and the wait queues have changed, and a thread that was not blocked has not. */
  ghost predicate WokeOnly(s: Kernel, s': Kernel) {
    && s' == s.(threads := s'.threads, rq := s'.rq, waits := s'.waits)
    && s'.threads.Keys == s.threads.Keys
    && (forall t | t in s.threads && !s.threads[t].state.Blocked? :: s'.threads[t] == s.threads[t])
  }

  lemma ReleasedWokeOnly(s: Kernel, s': Kernel, t: Tid, code: int)
    requires Released(s, s', t, code)
    ensures WokeOnly(s, s')
  {
  }

  lemma {:induction false} WakeAllKeeps(s: Kernel, e: nat)
    requires Good(s) && Layers(s) && OfEvent(e) in s.waits
    ensures
      var s' := WakeAll(s, OfEvent(e), NO_ERROR);
      && Good(s') && Layers(s') && WokeOnly(s, s')
      && OfEvent(e) in s'.waits && s'.waits[OfEvent(e)].list == []
    decreases |s.waits[OfEvent(e)].list|
  {
    var w := OfEvent(e);
    if s.waits[w].list != [] {
      WakeKeeps(s, w, 0, NO_ERROR);
      var s1 := Release(s, w, 0, NO_ERROR);
      ReleasedWokeOnly(s, s1, s.waits[w].list[0], NO_ERROR);
      WakeAllKeeps(s1, e);
    }
  }

  lemma SetSignalledCore(s: Kernel, e: nat, b: bool)
    requires Core(s) && e in s.events
    ensures Core(SetSignalled(s, e, b))
  {
    CoreFrame(s, SetSignalled(s, e, b));
  }

  /** Raising the flag before or after waking the waiters comes to the same. */
  lemma {:induction false} WakeAllCommutes(s: Kernel, e: nat, w: WaitId)
    requires Core(s) && e in s.events && w in s.waits
    ensures Core(SetSignalled(s, e, true))
    ensures WakeAll(s, w, NO_ERROR).events == s.events
    ensures WakeAll(SetSignalled(s, e, true), w, NO_ERROR) == SetSignalled(WakeAll(s, w, NO_ERROR), e, true)
    decreases |s.waits[w].list|
  {
    SetSignalledCore(s, e, true);
    if s.waits[w].list != [] {
      ReleaseCore(s, w, 0, NO_ERROR);
      WakeAllCommutes(Release(s, w, 0, NO_ERROR), e, w);
    }
  }

  /** Waking everyone and raising the flag of a sticky event. */
  lemma SignalAllKeeps(s: Kernel, e: nat)
    requires Good(s) && Layers(s) && e in s.events && OfEvent(e) in s.waits
    ensures Core(SetSignalled(s, e, true))
    ensures
      var s' := WakeAll(SetSignalled(s, e, true), OfEvent(e), NO_ERROR);
      && Good(s') && Layers(s') && WokeOnly(s.(events := s'.events), s')
      && s'.events == s.events[e := s.events[e].(signalled := true)]
  {
    WakeAllCommutes(s, e, OfEvent(e));
    WakeAllKeeps(s, e);
    var s1 := WakeAll(s, OfEvent(e), NO_ERROR);
    SetSignalledGood(s1, e, true);
    SetLayers(s1, e);
  }

  /** event_signal without reschedule. */
  lemma QuietKeeps(s: Kernel, e: nat)
    requires Good(s) && Layers(s) && e in s.events && OfEvent(e) in s.waits
    requires CallsSignalled(s) || e == DPC_EVENT
    ensures
      var s' := SignalQuietly(s, e);
      && Good(s') && Side(s') && WokeOnly(s.(events := s'.events), s')
  {
    hide QueuesOk, WaitsOk, ThreadsOk, TimersGood, Layers, Release, WakeAll;
    var w := OfEvent(e);
    if s.events[e].signalled {
    } else if !s.events[e].auto {
      SignalAllKeeps(s, e);
    } else if s.waits[w].list == [] {
      SetSignalledGood(s, e, true);
      SetLayers(s, e);
    } else {
      WakeKeeps(s, w, 0, NO_ERROR);
      ReleasedWokeOnly(s, Release(s, w, 0, NO_ERROR), s.waits[w].list[0], NO_ERROR);
    }
  }

  lemma WakeAllInv(s: Kernel, e: nat, depth: nat)
    requires InCall(s) && 1 <= depth <= s.cs && s.current != s.idle
    requires e in s.events && OfEvent(e) in s.waits
    requires CallsSignalled(s) || e == DPC_EVENT
    ensures OnCpu(SetSignalled(s, e, true))
    ensures Inv(WakeAllAndResched(SetSignalled(s, e, true), OfEvent(e), NO_ERROR, depth))
  {
    hide QueuesOk, WaitsOk, ThreadsOk, TimersGood, Layers, Resched, WakeAll;
    SetSignalledCore(s, e, true);
    WakeAllShape(s, e, depth);
    OvertakenShape(s, depth);
    OvertakenInv(s, depth);
    var p := Overtaken(s, depth);
    SignalAllKeeps(p, e);
    ReschedInv(WakeAll(SetSignalled(p, e, true), OfEvent(e), NO_ERROR));
  }

  lemma WakeAllShape(s: Kernel, e: nat, depth: nat)
    requires OnCpu(s) && e in s.events && OfEvent(e) in s.waits
    ensures OnCpu(SetSignalled(s, e, true)) && Core(SetSignalled(Overtaken(s, depth), e, true))
    ensures WakeAllAndResched(SetSignalled(s, e, true), OfEvent(e), NO_ERROR, depth) ==
      Resched(WakeAll(SetSignalled(Overtaken(s, depth), e, true), OfEvent(e), NO_ERROR))
  {
    SetSignalledCore(s, e, true);
    OvertakenShape(s, depth);
    ParkedCore(s, InWake(depth), s.threads[s.current].quantum, true);
    SetSignalledCore(Overtaken(s, depth), e, true);
    OvertakenShape(SetSignalled(s, e, true), depth);
    assert Overtaken(SetSignalled(s, e, true), depth) == SetSignalled(Overtaken(s, depth), e, true);
  }

  lemma SignalInv(s: Kernel, e: nat, reschedule: bool, depth: nat)
    requires InCall(s) && 1 <= depth <= s.cs && s.current != s.idle
    requires e in s.events && OfEvent(e) in s.waits
    requires CallsSignalled(s) || (e == DPC_EVENT && !s.events[e].auto)
    ensures Inv(SignalAt(s, e, reschedule, depth))
  {
    if reschedule && !s.events[e].signalled && s.waits[OfEvent(e)].list != [] {
      if s.events[e].auto {
        WakeOneInv(s, OfEvent(e), depth);
      } else {
        WakeAllInv(s, e, depth);
      }
    } else {
      QuietKeeps(s, e);
      ExitBusy(SignalQuietly(s, e), depth);
    }
  }
}
