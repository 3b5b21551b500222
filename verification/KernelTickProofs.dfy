/** The code after a switch and the timer interrupt keep the kernel's invariant. */
module KernelTickProofs {
  import opened Words
  import opened RunQueues
  import opened TimerQueue
  import opened KernelState
  import opened KernelOps
  import opened KernelCalls
  import opened KernelInv
  import opened KernelSteps
  import opened KernelSide
  import opened KernelProofs
  import opened KernelSyncProofs
  import opened KernelDpcProofs

  // ---- after the switch ---------------------------------------------------

  lemma {:induction false} CancelSubset(timers: seq<Entry<ThreadTimer>>, b: ThreadTimer)
    requires forall i, j | 0 <= i < j < |timers| :: timers[i].body.t != timers[j].body.t
    ensures
      var r := CancelTimer(timers, b);
      && (forall i | 0 <= i < |r| :: r[i] in timers && r[i].body != b)
      && (forall i, j | 0 <= i < j < |r| :: r[i].body.t != r[j].body.t)
      && (forall x | x in timers && x.body != b :: x in r)
  {
    if timers != [] {
      var rest := timers[1..];
      assert timers == [timers[0]] + rest;
      if timers[0].body != b {
        CancelSubset(rest, b);
        CancelHead(timers[0], rest, CancelTimer(rest, b), b);
      } else {
        forall i | 0 <= i < |rest| ensures rest[i] in timers && rest[i].body != b {
          assert rest[i] == timers[i + 1];
        }
      }
    }
  }

  lemma CancelHead(e: Entry<ThreadTimer>, rest: seq<Entry<ThreadTimer>>, r: seq<Entry<ThreadTimer>>, b: ThreadTimer)
    requires e.body != b && (forall i | 0 <= i < |rest| :: rest[i].body.t != e.body.t)
    requires forall i | 0 <= i < |r| :: r[i] in rest && r[i].body != b
    requires forall i, j | 0 <= i < j < |r| :: r[i].body.t != r[j].body.t
    requires forall x | x in rest && x.body != b :: x in r
    ensures
      var r' := [e] + r;
      && (forall i | 0 <= i < |r'| :: r'[i] in [e] + rest && r'[i].body != b)
      && (forall i, j | 0 <= i < j < |r'| :: r'[i].body.t != r'[j].body.t)
      && (forall x | x in [e] + rest && x.body != b :: x in r')
  {
  }

  /** After timer_cancel no timer of the thread is queued, and the others' are. */
  lemma CancelGood(timers: seq<Entry<ThreadTimer>>, threads: map<Tid, Thread>, t: Tid, th: Thread)
    requires TimersGood(timers, threads) && t in threads && !threads[t].state.Sleeping?
    requires th.cont.User? && th.state.Running?
    ensures TimersGood(CancelTimer(timers, Timeout(t)), threads[t := th])
  {
    hide CancelTimer;
    var r := CancelTimer(timers, Timeout(t));
    CancelSubset(timers, Timeout(t));
    forall b: ThreadTimer | b.t != t && Queued(timers, b) ensures Queued(r, b) {
      var i :| 0 <= i < |timers| && timers[i].body == b;
      assert timers[i] in r;
    }
    forall i | 0 <= i < |r| ensures r[i].body.t != t {
      assert r[i] in timers;
    }
  }

  /** The current thread returns from whatever it was switched out of, still inside its critical sections. */
  function Returned(s: Kernel): Kernel
    requires s.current in s.threads
  {
    var k := s.threads[s.current].cont;
    var s1 := SetCont(s, User);
    if k.InWait? && k.timed then s1.(timers := CancelTimer(s.timers, Timeout(s.current))) else s1
  }

  lemma ReturnedTimers(s: Kernel)
    requires TimersGood(s.timers, s.threads) && s.current in s.threads && s.threads[s.current].state.Running?
    ensures TimersGood(Returned(s).timers, Returned(s).threads)
  {
    var th := Returned(s).threads[s.current];
    TimersFit(s.timers, s.threads, s.current);
    if s.threads[s.current].cont.InWait? && s.threads[s.current].cont.timed {
      CancelGood(s.timers, s.threads, s.current, th);
    } else {
      TimersUpdate(s.timers, s.threads, s.current, th);
    }
  }

  lemma ReturnedEffect(s: Kernel)
    requires s.current in s.threads
    ensures Returned(s) ==
      s.(threads := s.threads[s.current := s.threads[s.current].(cont := User)], timers := Returned(s).timers)
  {
  }

  lemma ReturnedCore(s: Kernel)
    requires Core(s)
    ensures Core(Returned(s))
  {
    ReturnedEffect(s);
    CoreFrame(s, Returned(s));
  }

  lemma ReturnedThreads(s: Kernel)
    requires ThreadsOk(s) && s.current in s.threads && s.threads[s.current].state.Running?
    ensures ThreadsOk(Returned(s)) && s.cs >= s.threads[s.current].cont.Exits()
  {
    ReturnedEffect(s);
    assert ThreadOk(s.threads[s.current], true, s.cs) && RoleOk(s, s.current, s.threads[s.current]);
    StopThreads(s, Returned(s), s.threads[s.current].(cont := User));
  }

  lemma ReturnedDomain(s: Kernel)
    requires DomainOk(s) && s.current in s.threads
    ensures DomainOk(Returned(s))
  {
    ReturnedEffect(s);
    DomainUpdate(s, Returned(s));
  }

  lemma ReturnedGood(s: Kernel)
    requires Good(s) && s.threads[s.current].state.Running?
    ensures Good(Returned(s))
    ensures s.cs >= s.threads[s.current].cont.Exits()
  {
    ReturnedTimers(s);
    ReturnedCore(s);
    ReturnedThreads(s);
    ReturnedDomain(s);
  }

  lemma ReturnedView(s: Kernel)
    requires s.current in s.threads && s.threads[s.current].state.Running?
    ensures ViewOf(Returned(s).threads) ==
      ViewOf(s.threads).(waiters := ViewOf(s.threads).waiters - {s.current})
    ensures s.threads[s.current].cont.InWait? ==>
      s.current in ViewOf(s.threads).waiters && ViewOf(s.threads).waiters[s.current] == WaiterOf(s.threads[s.current])
    ensures !s.threads[s.current].cont.InWait? ==> ViewOf(Returned(s).threads) == ViewOf(s.threads)
  {
    ViewUpdate(s.threads, s.current, Returned(s).threads[s.current]);
  }

  lemma ReturnSide(s: Kernel, s': Kernel)
    requires Side(s) && MutexesOk(s'.mutexes, ViewOf(s'.threads).waiters)
    requires ViewOf(s'.threads).dead == ViewOf(s.threads).dead
    requires s'.events == s.events && s'.waits == s.waits && s'.dpcs == s.dpcs && s'.dpcPc == s.dpcPc
    ensures Side(s')
  {
  }

  /** The mutexes after a wait on `m` ends with `ret`: the mutex is taken over, or the acquire is backed out. */
  lemma MutexReturnSide(s: Kernel, m: nat, ret: int)
    requires Side(s) && m in s.mutexes && s.current in s.threads && s.threads[s.current].state.Running?
    requires s.threads[s.current].cont.InWait? && s.threads[s.current].cont.w == OfMutex(m)
    requires ret == s.threads[s.current].blockRet && (ret == NO_ERROR || ret == ERR_TIMED_OUT)
    ensures Side(AfterWait(Returned(s), OfMutex(m), ret))
  {
    ReturnedView(s);
    ReturnedEffect(s);
    var W := ViewOf(s.threads).waiters;
    MutexLeave(s.mutexes[m], m, W, s.current);
    var s' := AfterWait(Returned(s), OfMutex(m), ret);
    MutexesOther(s.mutexes, s'.mutexes, W, W - {s.current}, OfMutex(m));
    ReturnSide(s, s');
  }

  lemma MutexReturn(s: Kernel, m: nat, ret: int)
    requires Good(s) && s.threads[s.current].state.Running? && Side(s) && m in s.mutexes
    requires s.threads[s.current].cont.InWait? && s.threads[s.current].cont.w == OfMutex(m)
    requires ret == s.threads[s.current].blockRet && (ret == NO_ERROR || ret == ERR_TIMED_OUT)
    ensures Busy(AfterWait(Returned(s), OfMutex(m), ret))
  {
    ReturnedGood(s);
    MutexReturnSide(s, m, ret);
    ReturnedEffect(s);
    AfterMutexGood(Returned(s), m, ret);
  }

  lemma AfterMutexGood(s: Kernel, m: nat, ret: int)
    requires Good(s) && m in s.mutexes
    ensures Good(AfterWait(s, OfMutex(m), ret))
  {
    if ret == ERR_TIMED_OUT {
      SetMutexGood(s, m, s.mutexes[m].count - 1, s.mutexes[m].holder);
    } else {
      SetMutexGood(s, m, s.mutexes[m].count, Some(s.current));
    }
  }

  lemma EventReturnSide(s: Kernel, e: nat)
    requires Side(s) && s.current in s.threads && s.threads[s.current].state.Running?
    requires s.threads[s.current].cont.InWait? && s.threads[s.current].cont.w == OfEvent(e)
    ensures Side(Returned(s))
  {
    ReturnedView(s);
    ReturnedEffect(s);
    var W := ViewOf(s.threads).waiters;
    MutexesOther(s.mutexes, s.mutexes, W, W - {s.current}, OfEvent(e));
    ReturnSide(s, Returned(s));
  }

  lemma AtTakeBusy(s: Kernel)
    requires Busy(s) && s.current == s.dpcThread && s.dpcPc.AtWait?
    ensures Busy(s.(dpcPc := AtTake))
  {
    PcGood(s, AtTake);
    PcSide(s, AtTake);
  }

  lemma EventReturn(s: Kernel, e: nat, ret: int)
    requires Good(s) && s.threads[s.current].state.Running? && Side(s)
    requires s.threads[s.current].cont.InWait? && s.threads[s.current].cont.w == OfEvent(e)
    ensures Busy(AfterWait(Returned(s), OfEvent(e), ret))
  {
    ReturnedGood(s);
    EventReturnSide(s, e);
    ReturnedEffect(s);
    if s.current == s.dpcThread && e == DPC_EVENT {
      assert RoleOk(s, s.current, s.threads[s.current]);
      AtTakeBusy(Returned(s));
    }
  }

  lemma PlainReturn(s: Kernel)
    requires Good(s) && s.threads[s.current].state.Running? && Side(s)
    requires !s.threads[s.current].cont.InWait?
    ensures Busy(Returned(s))
  {
    ReturnedGood(s);
    ReturnedView(s);
    SideFrame(s, Returned(s));
  }

  lemma ContinueShape(s: Kernel)
    requires s.current in s.threads && DomainOk(s)
    ensures
      var k := s.threads[s.current].cont;
      match k
      case InWait(w, _) =>
        && (w.OfMutex? ==> w.m in s.mutexes)
        && Continue(s) == ExitN(AfterWait(Returned(s), w, s.threads[s.current].blockRet), 2)
      case InPreempt => Continue(s) == Returned(s).(cs := s.cs - 2, masked := false)
      case _ => Continue(s) == ExitN(Returned(s), k.Exits())
  {
    WaitsOnKnownMutex(s);
  }

  lemma WaitReturn(s: Kernel, w: WaitId, ret: int)
    requires Good(s) && s.threads[s.current].state.Running? && Side(s)
    requires s.threads[s.current].cont.InWait? && s.threads[s.current].cont.w == w
    requires ret == s.threads[s.current].blockRet
    ensures w.OfMutex? ==> w.m in s.mutexes
    ensures Busy(AfterWait(Returned(s), w, ret)) && AfterWait(Returned(s), w, ret).cs >= 2
  {
    hide Side, QueuesOk, WaitsOk, TimersGood, Returned;
    WaitsOnKnownMutex(s);
    assert ThreadOk(s.threads[s.current], true, s.cs);
    ReturnedEffect(s);
    if w.OfMutex? {
      MutexReturn(s, w.m, ret);
    } else {
      EventReturn(s, w.e, ret);
    }
  }

  lemma PlainContinue(s: Kernel)
    requires Inv(s) && !s.threads[s.current].cont.InWait?
    ensures Busy(Continue(s))
  {
    ContinueShape(s);
    ReturnedThreads(s);
    ReturnedEffect(s);
    PlainReturn(s);
    if s.threads[s.current].cont.InPreempt? {
      CountsBusy(Returned(s), Returned(s).(cs := s.cs - 2, masked := false));
    } else {
      ExitBusy(Returned(s), s.threads[s.current].cont.Exits());
    }
  }

  lemma ContinueInv(s: Kernel)
    requires Inv(s)
    ensures s.threads[s.current].cont.InWait? && s.threads[s.current].cont.w.OfMutex? ==>
      s.threads[s.current].cont.w.m in s.mutexes
    ensures Busy(Continue(s))
  {
    ContinueShape(s);
    if s.threads[s.current].cont.InWait? {
      WaitReturn(s, s.threads[s.current].cont.w, s.threads[s.current].blockRet);
      ExitBusy(AfterWait(Returned(s), s.threads[s.current].cont.w, s.threads[s.current].blockRet), 2);
    } else {
      PlainContinue(s);
    }
  }

  // ---- timer interrupt ----------------------------------------------------

  /** The head of the timer queue leaves it, and its thread no longer needs it. */
  lemma TimersPop(timers: seq<Entry<ThreadTimer>>, threads: map<Tid, Thread>, th: Thread)
    requires TimersGood(timers, threads) && timers != []
    requires !th.state.Sleeping? && !th.state.Blocked?
    ensures TimersGood(timers[1..], threads[timers[0].body.t := th])
  {
    var t := timers[0].body.t;
    forall b: ThreadTimer | b.t != t && Queued(timers, b) ensures Queued(timers[1..], b) {
      var i :| 0 <= i < |timers| && timers[i].body == b;
      assert timers[1..][i - 1] == timers[i];
    }
  }

  /** The state with its first timer dequeued. */
  function Popped(s: Kernel): Kernel
    requires s.timers != []
  {
    s.(timers := s.timers[1..])
  }

  /** The timer queue may change as long as it fits the threads. */
  lemma GoodTimers(s: Kernel, timers: seq<Entry<ThreadTimer>>)
    requires Good(s) && TimersGood(timers, s.threads)
    ensures Good(s.(timers := timers))
  {
    var s' := s.(timers := timers);
    CoreFrame(s, s');
    TimersThreads(s, timers);
    TimersDomain(s, timers);
  }

  lemma TimersThreads(s: Kernel, timers: seq<Entry<ThreadTimer>>)
    requires ThreadsOk(s)
    ensures ThreadsOk(s.(timers := timers))
  {
    var s' := s.(timers := timers);
    forall t | t in s'.threads
      ensures ThreadOk(s'.threads[t], t == s'.current, Depth(s', t)) && RoleOk(s', t, s'.threads[t])
    {
      assert ThreadOk(s.threads[t], t == s.current, Depth(s, t)) && RoleOk(s, t, s.threads[t]);
    }
  }

  lemma TimersDomain(s: Kernel, timers: seq<Entry<ThreadTimer>>)
    requires DomainOk(s)
    ensures DomainOk(s.(timers := timers))
  {
  }

  lemma PopGood(s: Kernel)
    requires Good(s) && s.timers != []
    requires !s.threads[s.timers[0].body.t].state.Blocked? && !s.threads[s.timers[0].body.t].state.Sleeping?
    ensures Good(Popped(s))
  {
    var t := s.timers[0].body.t;
    TimersPop(s.timers, s.threads, s.threads[t]);
    assert s.threads[t := s.threads[t]] == s.threads;
    GoodTimers(s, s.timers[1..]);
  }

  lemma FireStaleShape(s: Kernel)
    requires Core(s) && s.timers != [] && s.timers[0].body.Timeout? && s.timers[0].body.t in s.threads
    requires !s.threads[s.timers[0].body.t].state.Blocked?
    ensures Core(Popped(s))
    ensures Fire(Popped(s), s.timers[0].body) ==
      Popped(s).(cs := s.cs + 1, masked := if s.cs + 1 == 1 then true else s.masked)
  {
    CoreFrame(s, Popped(s));
  }

  /** A timeout that finds its thread already released only deepens the critical section. */
  lemma FireStale(s: Kernel)
    requires Good(s) && Side(s) && s.timers != [] && s.timers[0].body.Timeout?
    requires !s.threads[s.timers[0].body.t].state.Blocked?
    ensures Core(Popped(s))
    ensures
      var s' := Fire(Popped(s), s.timers[0].body);
      Good(s') && Side(s') && s'.cs == s.cs + 1
  {
    FireStaleShape(s);
    TimersFit(s.timers, s.threads, s.timers[0].body.t);
    PopGood(s);
    assert ThreadOk(s.threads[s.current], true, s.cs);
    GoodFrame(Popped(s), Fire(Popped(s), s.timers[0].body));
    SideFrame(s, Fire(Popped(s), s.timers[0].body));
  }

  lemma FireTimeoutShape(s: Kernel)
    requires Core(s) && s.timers != [] && s.timers[0].body.Timeout?
    requires s.timers[0].body.t in s.threads && s.threads[s.timers[0].body.t].state.Blocked?
    requires s.cs >= 1
    ensures
      var t := s.timers[0].body.t;
      var w := s.threads[t].blockedOn.value;
      && w in s.waits && t in s.waits[w].list && Core(Popped(s)) && WaitOk(s.waits[w], w, s.threads)
      && Fire(Popped(s), s.timers[0].body) ==
         Popped(Release(s, w, IndexOf(s.waits[w].list, t), ERR_TIMED_OUT))
  {
    CoreFrame(s, Popped(s));
    var t := s.timers[0].body.t;
    var w := s.threads[t].blockedOn.value;
    assert WaitOk(s.waits[w], w, s.threads);
  }

  lemma FireTimeout(s: Kernel)
    requires Good(s) && Side(s) && s.timers != [] && s.timers[0].body.Timeout?
    requires s.threads[s.timers[0].body.t].state.Blocked? && s.cs >= 1
    ensures Core(Popped(s))
    ensures
      var s' := Fire(Popped(s), s.timers[0].body);
      Good(s') && Side(s') && s'.cs == s.cs
  {
    var t := s.timers[0].body.t;
    var w := s.threads[t].blockedOn.value;
    FireTimeoutShape(s);
    var i := IndexOf(s.waits[w].list, t);
    BlockedWaits(s, t);
    WakeKeeps(s, w, i, ERR_TIMED_OUT);
    var s1 := Release(s, w, i, ERR_TIMED_OUT);
    PopGood(s1);
    SideFrame(s1, Popped(s1));
  }

  lemma FireWakeupShape(s: Kernel)
    requires Core(s) && s.timers != [] && s.timers[0].body.Wakeup? && s.timers[0].body.t in s.threads
    requires s.threads[s.timers[0].body.t].state.Sleeping?
    ensures Core(Popped(s)) && Core(Fire(Popped(s), s.timers[0].body))
    ensures
      var t := s.timers[0].body.t;
      var s' := Fire(Popped(s), s.timers[0].body);
      s' == s.(timers := s.timers[1..], threads := s.threads[t := s.threads[t].(state := Ready)], rq := s'.rq)
  {
    CoreFrame(s, Popped(s));
    FireCore(Popped(s), s.timers[0].body);
  }

  lemma FireWakeupLocal(s: Kernel, s': Kernel, t: Tid)
    requires ThreadsOk(s) && DomainOk(s) && t in s.threads && s.threads[t].state.Sleeping?
    requires s' == s.(timers := s'.timers, threads := s.threads[t := s.threads[t].(state := Ready)], rq := s'.rq)
    ensures ThreadsOk(s') && DomainOk(s')
  {
    var th := s.threads[t].(state := Ready);
    assert ThreadOk(s.threads[t], t == s.current, Depth(s, t)) && RoleOk(s, t, s.threads[t]);
    TimersThreads(s, s'.timers);
    ThreadsUpdate(s.(timers := s'.timers), s', t, th);
    DomainThread(s.(timers := s'.timers), s', t, th);
  }

  lemma FireWakeup(s: Kernel)
    requires Good(s) && Side(s) && s.timers != [] && s.timers[0].body.Wakeup?
    ensures Core(Popped(s))
    ensures
      var s' := Fire(Popped(s), s.timers[0].body);
      Good(s') && Side(s') && s'.cs == s.cs
  {
    var t := s.timers[0].body.t;
    FireWakeupShape(s);
    BlockedOrNot(s, t);
    var s' := Fire(Popped(s), s.timers[0].body);
    var th := s.threads[t].(state := Ready);
    TimersPop(s.timers, s.threads, th);
    FireWakeupLocal(s, s', t);
    ViewSame(s.threads, t, th);
    SideFrame(s, s');
  }

  lemma BlockedOrNot(s: Kernel, t: Tid)
    requires ThreadsOk(s) && t in s.threads && s.threads[t].state.Sleeping?
    ensures s.threads[t].cont == InSleep
  {
    assert ThreadOk(s.threads[t], t == s.current, Depth(s, t));
  }

  lemma FireKeeps(s: Kernel)
    requires Good(s) && Side(s) && s.timers != [] && s.cs >= 1
    ensures Core(Popped(s))
    ensures
      var s' := Fire(Popped(s), s.timers[0].body);
      Good(s') && Side(s') && s'.cs >= s.cs
  {
    if s.timers[0].body.Wakeup? {
      FireWakeup(s);
    } else if s.threads[s.timers[0].body.t].state.Blocked? {
      FireTimeout(s);
    } else {
      FireStale(s);
    }
  }

  lemma {:induction false} FireDueKeeps(s: Kernel, now: Word)
    requires Good(s) && Side(s) && s.cs >= 1
    ensures Good(FireDue(s, now)) && Side(FireDue(s, now)) && FireDue(s, now).cs >= s.cs
    decreases |s.timers|
  {
    if Due(s.timers, now) {
      FireKeeps(s);
      FireTimers(s);
      FireDueKeeps(Fire(Popped(s), s.timers[0].body), now);
    }
  }

  lemma QuantumGood(s: Kernel)
    requires Busy(s)
    ensures Busy(QuantumTick(s))
  {
    if s.current != s.idle {
      var s' := QuantumTick(s);
      var th := s'.threads[s.current];
      assert ThreadOk(s.threads[s.current], true, s.cs) && RoleOk(s, s.current, s.threads[s.current]);
      CoreFrame(s, s');
      TimersFit(s.timers, s.threads, s.current);
      ThreadUpdate(s, s', s.current, th);
      ViewSame(s.threads, s.current, th);
      SideFrame(s, s');
    }
  }

  /** The state in which an interrupt starts to run the timers. */
  function Interrupted(s: Kernel): Kernel {
    s.(cs := s.cs + 1, masked := true)
  }

  lemma TickShape(s: Kernel, now: Word)
    requires OnCpu(s) && TimersOk(s.timers, s.threads)
    requires forall i | 0 <= i < |s.timers| :: s.timers[i].body.t != s.current
    ensures Core(Interrupted(s))
    ensures OnCpu(FireDue(Interrupted(s), now)) && OnCpu(QuantumTick(FireDue(Interrupted(s), now)))
    ensures FireDue(Interrupted(s), now).current == s.current
    ensures FireDue(Interrupted(s), now).threads[s.current] == s.threads[s.current]
    ensures Tick(s, now) == ThreadPreempt(QuantumTick(FireDue(Interrupted(s), now)))
  {
    CoreFrame(s, Interrupted(s));
    FireDueOnCpu(Interrupted(s), now);
  }

  /** The timers have run; the interrupted thread is still the current one. */
  lemma FiredBusy(s: Kernel, now: Word)
    requires Busy(s) && TimersOk(s.timers, s.threads) && Core(Interrupted(s))
    requires FireDue(Interrupted(s), now).current == s.current && s.current in FireDue(Interrupted(s), now).threads
    requires FireDue(Interrupted(s), now).threads[s.current] == s.threads[s.current]
    ensures Busy(FireDue(Interrupted(s), now)) && FireDue(Interrupted(s), now).cs >= 1
  {
    assert ThreadOk(s.threads[s.current], true, s.cs);
    CountsBusy(s, Interrupted(s));
    FireDueKeeps(Interrupted(s), now);
  }

  lemma QuantumCs(s: Kernel)
    requires s.current in s.threads
    ensures QuantumTick(s).cs == s.cs
  {
  }

  lemma TickInv(s: Kernel, now: Word)
    requires Busy(s)
    ensures forall i | 0 <= i < |s.timers| :: s.timers[i].body.t != s.current
    ensures Inv(Tick(s, now))
  {
    NoOwnTimer(s);
    TickShape(s, now);
    FiredBusy(s, now);
    var f := FireDue(Interrupted(s), now);
    QuantumGood(f);
    QuantumCs(f);
    PreemptInv(QuantumTick(f));
  }

  // ---- every step ---------------------------------------------------------

  lemma ThreadCallInv(s: Kernel, a: Action)
    requires Busy(s) && Enabled(s, a) && !a.Proceed? && !a.TimerTick?
    ensures Inv(ThreadCall(s, a))
  {
    hide QueuesOk, WaitsOk, ThreadsOk, TimersGood, Side, ThreadYield, ThreadSleep, ThreadExit, ThreadCreate, ThreadResume, SetPriority;
    match a
    case Yield => YieldInv(s);
    case Sleep(delay, now) => SleepInv(s, delay, now);
    case Exit => ExitInv(s);
    case Create(t, priority) => CreateInv(s, t, priority);
    case Resume(t) => ResumeInv(s, t);
    case ChangePriority(to) => PriorityInv(s, to);
    case EnterSection => EnterBusy(s);
    case ExitSection => ExitBusy(s, 1);
    case _ =>
  }

  lemma MutexCallInv(s: Kernel, a: Action)
    requires Busy(s) && Enabled(s, a) && !a.Proceed? && !a.TimerTick?
    ensures Inv(MutexCall(s, a))
  {
    hide QueuesOk, WaitsOk, ThreadsOk, TimersGood, Side, MutexAcquire, MutexRelease;
    match a
    case Acquire(m, timeout, now) => AcquireInv(s, m, timeout, now);
    case ReleaseMutex(m) => ReleaseInv(s, m);
    case _ =>
  }

  lemma SignalCallInv(s: Kernel, a: Action)
    requires Busy(s) && Enabled(s, a) && !a.Proceed? && !a.TimerTick?
    ensures Inv(SignalCall(s, a))
  {
    hide QueuesOk, WaitsOk, ThreadsOk, TimersGood, Layers, SignalAt, QueueCall;
    match a
    case Signal(e, reschedule) =>
      EnterBusy(s);
      SignalInv(Enter(s), e, reschedule, 1);
    case QueueCallback(id, reschedule) => QueueCallbackInv(s, id, reschedule);
    case _ =>
  }

  lemma EventCallInv(s: Kernel, a: Action)
    requires Busy(s) && Enabled(s, a) && !a.Proceed? && !a.TimerTick?
    ensures Inv(EventCall(s, a))
  {
    hide QueuesOk, WaitsOk, ThreadsOk, TimersGood, Side, WaitEvent, SetSignalled;
    match a
    case Wait(e, timeout, now) => WaitInv(s, e, timeout, now);
    case Unsignal(e) => ClearBusy(s, e);
    case _ =>
  }

  lemma DpcStepInv(s: Kernel, a: Action)
    requires Busy(s) && Enabled(s, a) && !a.Proceed? && !a.TimerTick?
    ensures Inv(DpcStep(s, a))
  {
    hide Side, WaitEvent, TakeCall, FinishCall, QueuesOk, WaitsOk, ThreadsOk, TimersGood;
    match a
    case DpcWait => DpcWaitInv(s);
    case DpcTake => TakeInv(s);
    case DpcFinish =>
      if s.dpcPc.call.Cleanup? { FinishCleanupInv(s); } else { FinishCallbackInv(s); }
    case _ =>
  }

  /** Every enabled step keeps the invariant. */
  lemma StepInv(s: Kernel, a: Action)
    requires Inv(s) && Enabled(s, a)
    ensures Inv(Step(s, a))
  {
    hide Good, Side, ThreadCall, MutexCall, SignalCall, EventCall, DpcStep, Continue, Tick;
    match a
    case Proceed => ContinueInv(s);
    case TimerTick(now) => TickInv(s, now);
    case Acquire(_, _, _) => MutexCallInv(s, a);
    case ReleaseMutex(_) => MutexCallInv(s, a);
    case Wait(_, _, _) => EventCallInv(s, a);
    case Unsignal(_) => EventCallInv(s, a);
    case Signal(_, _) => SignalCallInv(s, a);
    case QueueCallback(_, _) => SignalCallInv(s, a);
    case DpcWait => DpcStepInv(s, a);
    case DpcTake => DpcStepInv(s, a);
    case DpcFinish => DpcStepInv(s, a);
    case _ => ThreadCallInv(s, a);
  }
}
