/** The interrupt mask follows the critical-section count, except when a
    timeout finds its thread no longer blocked. */
module MaskLaws {
  import opened Words
  import opened RunQueues
  import opened TimerQueue
  import opened KernelState
  import opened KernelOps
  import opened KernelCalls
  import opened KernelInv
  import opened KernelSteps
  import opened KernelProofs
  import opened KernelSyncProofs
  import opened KernelDpcProofs
  import opened KernelTickProofs
  import opened KernelRuns

  /** A preempted thread is two sections deep: the interrupt's and thread_preempt's. */
  ghost predicate PreemptOk(s: Kernel) {
    forall t | t in s.threads && s.threads[t].cont.InPreempt? :: Depth(s, t) == 2
  }

  /** Code outside the kernel runs with interrupts masked exactly inside a
      critical section; a thread inside a kernel call runs with them masked. */
  ghost predicate MaskOk(s: Kernel) {
    && s.current in s.threads
    && (if s.threads[s.current].cont.User? then s.masked <==> s.cs > 0 else s.masked)
    && PreemptOk(s)
  }

  ghost predicate OthersInKernel(s: Kernel) {
    forall t | t in s.threads && t != s.current :: !s.threads[t].cont.User?
  }

  lemma InvOthers(s: Kernel)
    requires Inv(s)
    ensures OthersInKernel(s) && s.cs >= 0 && s.current in s.threads
  {
    hide QueuesOk, WaitsOk, TimersGood, DomainOk, Side;
    forall t | t in s.threads && t != s.current ensures !s.threads[t].cont.User? {
      assert ThreadOk(s.threads[t], false, Depth(s, t));
    }
    assert ThreadOk(s.threads[s.current], true, s.cs);
  }

  // ---- calls that switch --------------------------------------------------

  /** The current thread is inside a call and masked; no other thread has moved. */
  ghost predicate Aside(s: Kernel, x: Kernel) {
    && x.masked && x.current == s.current && s.current in x.threads && !x.threads[s.current].cont.User?
    && (forall t | t in x.threads && t != s.current ::
          t in s.threads && x.threads[t].cont == s.threads[t].cont && x.threads[t].savedCs == s.threads[t].savedCs)
    && (x.threads[s.current].cont.InPreempt? ==> x.cs == 2)
  }

  lemma SwitchMask(s: Kernel, x: Kernel)
    requires OthersInKernel(s) && PreemptOk(s) && Aside(s, x)
    ensures MaskOk(Resched(x))
  {
  }

  /** A change to threads other than the current one that leaves their place in the kernel alone. */
  ghost predicate SamePlaces(s: Kernel, s': Kernel) {
    && s'.masked == s.masked && s'.cs == s.cs && s'.current == s.current
    && s'.threads.Keys == s.threads.Keys
    && (forall t | t in s.threads :: s'.threads[t].cont == s.threads[t].cont && s'.threads[t].savedCs == s.threads[t].savedCs)
  }

  lemma AsideThen(s: Kernel, x: Kernel, x': Kernel)
    requires Aside(s, x) && SamePlaces(x, x')
    ensures Aside(s, x')
  {
  }

  lemma ReleasePlaces(s: Kernel, w: WaitId, code: int)
    requires Core(s) && w in s.waits && s.waits[w].list != []
    ensures WaitOk(s.waits[w], w, s.threads)
    ensures SamePlaces(s, Release(s, w, 0, code))
  {
  }

  lemma {:induction false} WakeAllPlaces(s: Kernel, w: WaitId, code: int)
    requires Core(s) && w in s.waits
    ensures SamePlaces(s, WakeAll(s, w, code))
    decreases |s.waits[w].list|
  {
    if s.waits[w].list != [] {
      ReleasePlaces(s, w, code);
      ReleaseCore(s, w, 0, code);
      WakeAllPlaces(Release(s, w, 0, code), w, code);
    }
  }

  lemma QuietPlaces(s: Kernel, e: nat)
    requires Core(s) && e in s.events && OfEvent(e) in s.waits
    ensures SamePlaces(s, SignalQuietly(s, e))
  {
    hide QueuesOk, WaitsOk, Release;
    SetSignalledCore(s, e, true);
    if !s.events[e].signalled {
      if !s.events[e].auto {
        WakeAllPlaces(SetSignalled(s, e, true), OfEvent(e), NO_ERROR);
      } else if s.waits[OfEvent(e)].list != [] {
        ReleasePlaces(s, OfEvent(e), NO_ERROR);
      }
    }
  }

  /** Inside a section entered from outside the kernel. */
  ghost predicate Inside(s: Kernel) {
    && s.current in s.threads && s.threads[s.current].cont.User? && s.masked && s.cs > 0
    && PreemptOk(s) && OthersInKernel(s)
  }

  lemma EnterMask(s: Kernel)
    requires MaskOk(s) && s.threads[s.current].cont.User? && s.cs >= 0 && OthersInKernel(s)
    ensures Inside(Enter(s))
  {
  }

  lemma {:induction false} ExitNMask(s: Kernel, n: nat)
    requires s.masked && s.cs >= n
    ensures n > 0 ==> (ExitN(s, n).masked <==> s.cs > n)
    decreases n
  {
    if n > 1 {
      ExitNMask(KernelOps.Exit(s), n - 1);
    }
  }

  lemma LeaveMask(s: Kernel, n: nat)
    requires Inside(s) && s.cs >= n > 0
    ensures MaskOk(ExitN(s, n))
  {
    ExitNMask(s, n);
    ExitNCounts(s, n);
  }

  lemma LeaveOnce(s: Kernel)
    requires Inside(s)
    ensures MaskOk(KernelOps.Exit(s))
  {
  }

  lemma YieldMask(s: Kernel, k: Cont)
    requires OnCpu(s) && MaskOk(s) && s.threads[s.current].cont.User? && s.cs >= 0 && OthersInKernel(s)
    requires !k.User? && !k.InPreempt?
    ensures MaskOk(YieldBody(s, k))
  {
    hide Resched;
    SwitchMask(s, MakeReady(SetThread(Enter(s), s.current, s.threads[s.current].(quantum := 0, cont := k)), s.current, false));
  }

  lemma SleepMask(s: Kernel, delay: Word, now: Word)
    requires OnCpu(s) && MaskOk(s) && s.threads[s.current].cont.User? && s.cs >= 0 && OthersInKernel(s)
    ensures MaskOk(ThreadSleep(s, delay, now))
  {
    hide Resched;
    SwitchMask(s, Asleep(s, Add(now, if delay == 0 then 1 else delay)));
  }

  lemma ResumeMask(s: Kernel, t: Tid)
    requires OnCpu(s) && MaskOk(s) && s.threads[s.current].cont.User? && s.cs >= 0 && OthersInKernel(s)
    requires t in s.threads
    ensures MaskOk(ThreadResume(s, t).0)
  {
    hide Resched;
    if !s.threads[t].state.Ready? && !s.threads[t].state.Running? {
      var s1 := Enter(MakeReady(Enter(s), t, true));
      var s2 := SetThread(s1, s.current, s1.threads[s.current].(quantum := 0, cont := InResume));
      SwitchMask(s, MakeReady(s2, s.current, false));
    }
  }

  lemma ExitMask(s: Kernel)
    requires OnCpu(s) && MaskOk(s) && s.threads[s.current].cont.User? && s.cs >= 0 && OthersInKernel(s)
    requires DPC_EVENT in s.events && OfEvent(DPC_EVENT) in s.waits
    ensures MaskOk(ThreadExit(s))
  {
    hide Resched, SignalQuietly, QueuesOk, WaitsOk;
    DeathCore(s);
    QuietPlaces(Exited(s), DPC_EVENT);
    AsideThen(s, Exited(s), SignalQuietly(Exited(s), DPC_EVENT));
    SwitchMask(s, SignalQuietly(Exited(s), DPC_EVENT));
  }

  lemma BlockMask(s: Kernel, w: WaitId, timeout: Word, now: Word)
    requires Inside(s) && w in s.waits
    ensures MaskOk(Block(s, w, timeout, now))
  {
    hide Resched;
    BlockShape(s, w, timeout, now);
    SwitchMask(s, Stopped(s, w, timeout, now));
  }

  lemma OvertakenMask(s: Kernel, depth: nat)
    requires Inside(s) && OnCpu(s)
    ensures Core(Overtaken(s, depth)) && Aside(s, Overtaken(s, depth))
    ensures MakeReady(SetCont(s, InWake(depth)), s.current, true) == Overtaken(s, depth)
  {
    OvertakenShape(s, depth);
    ParkedCore(s, InWake(depth), s.threads[s.current].quantum, true);
  }

  lemma WakeOneMask(s: Kernel, w: WaitId, depth: nat)
    requires Inside(s) && OnCpu(s) && w in s.waits && s.waits[w].list != []
    ensures MaskOk(WakeOneAndResched(s, w, NO_ERROR, depth))
  {
    hide QueuesOk, WaitsOk, Resched, Release;
    OvertakenMask(s, depth);
    OvertakenShape(s, depth);
    var p := Overtaken(s, depth);
    ReleasePlaces(p, w, NO_ERROR);
    AsideThen(s, p, Release(p, w, 0, NO_ERROR));
    SwitchMask(s, Release(p, w, 0, NO_ERROR));
  }

  lemma WakeAllMask(s: Kernel, w: WaitId, depth: nat)
    requires Inside(s) && OnCpu(s) && w in s.waits
    ensures MaskOk(WakeAllAndResched(s, w, NO_ERROR, depth))
  {
    hide QueuesOk, WaitsOk, Resched, WakeAll;
    OvertakenMask(s, depth);
    OvertakenShape(s, depth);
    var p := Overtaken(s, depth);
    WakeAllPlaces(p, w, NO_ERROR);
    AsideThen(s, p, WakeAll(p, w, NO_ERROR));
    SwitchMask(s, WakeAll(p, w, NO_ERROR));
  }

  lemma SignalMask(s: Kernel, e: nat, reschedule: bool, depth: nat)
    requires Inside(s) && OnCpu(s) && e in s.events && OfEvent(e) in s.waits && 1 <= depth <= s.cs
    ensures MaskOk(SignalAt(s, e, reschedule, depth))
  {
    hide QueuesOk, WaitsOk, WakeOneAndResched, WakeAllAndResched, SignalQuietly, ExitN;
    if reschedule && !s.events[e].signalled && s.waits[OfEvent(e)].list != [] {
      SetSignalledCore(s, e, true);
      if s.events[e].auto {
        WakeOneMask(s, OfEvent(e), depth);
      } else {
        WakeAllMask(SetSignalled(s, e, true), OfEvent(e), depth);
      }
    } else {
      QuietPlaces(s, e);
      LeaveMask(SignalQuietly(s, e), depth);
    }
  }

  // ---- steps of code outside the kernel -----------------------------------

  /** What the calls need of a state in which code outside the kernel runs. */
  ghost predicate InUserCode(s: Kernel) {
    OnCpu(s) && MaskOk(s) && s.threads[s.current].cont.User? && s.cs >= 0 && OthersInKernel(s)
  }

  lemma ThreadCallMask(s: Kernel, a: Action)
    requires InUserCode(s) && DomainOk(s) && Enabled(s, a) && !a.Proceed? && !a.TimerTick?
    ensures MaskOk(ThreadCall(s, a))
  {
    hide Core, DomainOk, YieldBody, ThreadSleep, ThreadResume, ThreadExit;
    match a
    case Yield => YieldMask(s, InYield);
    case Sleep(delay, now) => SleepMask(s, delay, now);
    case Exit => DpcDomain(s); ExitMask(s);
    case Resume(t) => ResumeMask(s, t);
    case _ =>
  }

  lemma DpcDomain(s: Kernel)
    requires DomainOk(s)
    ensures DPC_EVENT in s.events && OfEvent(DPC_EVENT) in s.waits
  {
  }

  lemma EnterOnCpu(s: Kernel)
    requires InUserCode(s)
    ensures OnCpu(Enter(s)) && Inside(Enter(s))
  {
    EnterMask(s);
    CoreFrame(s, Enter(s));
  }

  lemma SetMutexMask(s: Kernel, m: nat, count: int, holder: Option<Tid>)
    requires OnCpu(s) && Inside(s)
    ensures OnCpu(SetMutex(s, m, count, holder)) && Inside(SetMutex(s, m, count, holder))
  {
    CoreFrame(s, SetMutex(s, m, count, holder));
  }

  lemma MutexCallMask(s: Kernel, a: Action)
    requires InUserCode(s) && DomainOk(s) && Enabled(s, a) && (a.Acquire? || a.ReleaseMutex?)
    ensures MaskOk(MutexCall(s, a))
  {
    hide Core, Block, WakeOneAndResched, Inside, MaskOk;
    EnterOnCpu(s);
    match a
    case Acquire(m, timeout, now) =>
      var mx := s.mutexes[m];
      SetMutexMask(Enter(s), m, mx.count + 1, Some(s.current));
      SetMutexMask(Enter(s), m, mx.count + 1, mx.holder);
      LeaveOnce(SetMutex(Enter(s), m, mx.count + 1, Some(s.current)));
      LeaveOnce(Enter(s));
      BlockMask(SetMutex(Enter(s), m, mx.count + 1, mx.holder), OfMutex(m), timeout, now);
    case ReleaseMutex(m) =>
      var s1 := SetMutex(Enter(s), m, s.mutexes[m].count - 1, None);
      SetMutexMask(Enter(s), m, s.mutexes[m].count - 1, None);
      LeaveOnce(s1);
      if s.waits[OfMutex(m)].list != [] {
        WakeOneMask(s1, OfMutex(m), 1);
      }
  }

  lemma SetSignalledMask(s: Kernel, e: nat, b: bool)
    requires OnCpu(s) && Inside(s) && e in s.events
    ensures OnCpu(SetSignalled(s, e, b)) && Inside(SetSignalled(s, e, b))
  {
    SetSignalledCore(s, e, b);
  }

  lemma WaitMask(s: Kernel, e: nat, timeout: Word, now: Word)
    requires InUserCode(s) && e in s.events && OfEvent(e) in s.waits
    ensures MaskOk(WaitEvent(s, e, timeout, now))
  {
    hide Core, Block, Inside, MaskOk;
    EnterOnCpu(s);
    SetSignalledMask(Enter(s), e, !s.events[e].auto);
    LeaveOnce(SetSignalled(Enter(s), e, !s.events[e].auto));
    LeaveOnce(Enter(s));
    BlockMask(Enter(s), OfEvent(e), timeout, now);
  }

  lemma QueueCallMask(s: Kernel, call: Call, reschedule: bool)
    requires InUserCode(s) && DPC_EVENT in s.events && OfEvent(DPC_EVENT) in s.waits
    ensures MaskOk(QueueCall(s, call, reschedule))
  {
    hide SignalAt;
    EnterOnCpu(s);
    var x := Enter(Enter(s)).(dpcs := s.dpcs + [call]);
    CoreFrame(s, x);
    SignalMask(x, DPC_EVENT, reschedule, 2);
  }

  lemma FinishMask(s: Kernel)
    requires Inv(s) && MaskOk(s) && s.dpcPc.Calling?
    ensures MaskOk(FinishCall(s))
  {
    hide QueuesOk, WaitsOk, TimersGood, DomainOk, Side;
    if s.dpcPc.call.Cleanup? {
      CleanupTarget(s);
    }
  }

  lemma RestMask(s: Kernel, a: Action)
    requires Inv(s) && InUserCode(s) && Enabled(s, a) && !a.Proceed? && !a.TimerTick?
    requires !a.Acquire? && !a.ReleaseMutex?
    ensures MaskOk(Step(s, a))
  {
    hide Core, Side, ThreadsOk, TimersGood, WaitEvent, SignalAt, QueueCall;
    DpcDomain(s);
    match a
    case Wait(e, timeout, now) => WaitMask(s, e, timeout, now);
    case Signal(e, reschedule) => EnterOnCpu(s); SignalMask(Enter(s), e, reschedule, 1);
    case QueueCallback(id, reschedule) => QueueCallMask(s, Callback(id), reschedule);
    case DpcWait => WaitMask(s, DPC_EVENT, INFINITE_TIME, 0);
    case Unsignal(_) =>
    case DpcTake =>
    case DpcFinish => FinishMask(s);
    case _ => ThreadCallMask(s, a);
  }

  // ---- return from a call -------------------------------------------------

  lemma ContinueMask(s: Kernel)
    requires Inv(s) && MaskOk(s) && !s.threads[s.current].cont.User?
    ensures MaskOk(Step(s, Proceed))
  {
    hide Core, Side, TimersGood, ExitN;
    InvOthers(s);
    assert ThreadOk(s.threads[s.current], true, s.cs);
    ContinueShape(s);
    ReturnedEffect(s);
    var k := s.threads[s.current].cont;
    var r := Returned(s);
    assert Inside(r);
    match k
    case InWait(w, _) => LeaveMask(AfterWait(r, w, s.threads[s.current].blockRet), 2);
    case InPreempt =>
    case _ => LeaveMask(r, k.Exits());
  }

  // ---- the timer interrupt ------------------------------------------------

  /** How many due timeouts find their thread no longer blocked. */
  function Leaks(timers: seq<Entry<ThreadTimer>>, threads: map<Tid, Thread>, now: Word): nat
    requires forall i | 0 <= i < |timers| :: timers[i].body.t in threads
    decreases |timers|
  {
    if !Due(timers, now) then 0
    else (if timers[0].body.Timeout? && !threads[timers[0].body.t].state.Blocked? then 1 else 0)
         + Leaks(timers[1..], threads, now)
  }

  lemma {:induction false} LeaksFrame(timers: seq<Entry<ThreadTimer>>, threads: map<Tid, Thread>, threads': map<Tid, Thread>, now: Word)
    requires forall i | 0 <= i < |timers| :: timers[i].body.t in threads && timers[i].body.t in threads'
    requires forall i | 0 <= i < |timers| :: threads'[timers[i].body.t] == threads[timers[i].body.t]
    ensures Leaks(timers, threads', now) == Leaks(timers, threads, now)
    decreases |timers|
  {
    if Due(timers, now) {
      LeaksFrame(timers[1..], threads, threads', now);
    }
  }

  /** One timer callback in an interrupt: a stale timeout enters a section and never leaves it. */
  lemma FireMask(s: Kernel)
    requires Core(s) && TimersOk(s.timers, s.threads) && s.timers != [] && s.cs >= 1 && s.masked
    ensures Core(Popped(s)) && s.timers[0].body.t in s.threads
    ensures
      var b := s.timers[0].body;
      var s' := Fire(Popped(s), b);
      SamePlaces(s.(cs := s.cs + if b.Timeout? && !s.threads[b.t].state.Blocked? then 1 else 0), s')
  {
    hide QueuesOk, WaitsOk;
    CoreFrame(s, Popped(s));
    FireCore(Popped(s), s.timers[0].body);
    FirePlaces(Popped(s), s.timers[0].body);
  }

  lemma FirePlaces(s: Kernel, b: ThreadTimer)
    requires Core(s) && b.t in s.threads && s.cs >= 1 && s.masked
    ensures
      SamePlaces(s.(cs := s.cs + if b.Timeout? && !s.threads[b.t].state.Blocked? then 1 else 0), Fire(s, b))
  {
  }

  lemma {:induction false} FireDueMask(s: Kernel, now: Word)
    requires Core(s) && TimersOk(s.timers, s.threads) && s.cs >= 1 && s.masked
    ensures SamePlaces(s.(cs := s.cs + Leaks(s.timers, s.threads, now)), FireDue(s, now))
    decreases |s.timers|
  {
    hide Core, Fire;
    if Due(s.timers, now) {
      FireMask(s);
      FireTimers(s);
      FireCore(Popped(s), s.timers[0].body);
      var s' := Fire(Popped(s), s.timers[0].body);
      FireDueMask(s', now);
      LeaksFrame(s.timers[1..], s.threads, s'.threads, now);
    }
  }

  /** The state `f` in which the interrupt calls thread_preempt, `leaks` sections too deep. */
  ghost predicate FiredFrom(s: Kernel, f: Kernel, leaks: nat) {
    && OnCpu(f) && f.current == s.current && f.masked && f.cs == 1 + leaks
    && s.current in s.threads && s.threads.Keys == f.threads.Keys
    && (forall t | t in s.threads && t != s.current ::
          f.threads[t].cont == s.threads[t].cont && f.threads[t].savedCs == s.threads[t].savedCs)
  }

  lemma PreemptDepth(s: Kernel, f: Kernel, leaks: nat)
    requires FiredFrom(s, f, leaks)
    ensures
      var r := ThreadPreempt(f);
      s.current in r.threads && r.threads[s.current].cont.InPreempt? && Depth(r, s.current) == 2 + leaks
  {
    hide QueuesOk, WaitsOk;
  }

  lemma PreemptMask(s: Kernel, f: Kernel)
    requires FiredFrom(s, f, 0) && OthersInKernel(s) && PreemptOk(s)
    ensures MaskOk(ThreadPreempt(f))
  {
    hide QueuesOk, WaitsOk, Resched;
    SwitchMask(s, MakeReady(SetCont(Enter(f), InPreempt), f.current, f.threads[f.current].quantum > 0));
  }

  lemma QuantumFired(s: Kernel, f: Kernel, leaks: nat)
    requires FiredFrom(s, f, leaks) && OnCpu(QuantumTick(f))
    ensures FiredFrom(s, QuantumTick(f), leaks)
  {
    hide Core;
  }

  lemma TickFired(s: Kernel, now: Word) returns (f: Kernel)
    requires OnCpu(s) && TimersOk(s.timers, s.threads) && s.cs == 0
    requires forall i | 0 <= i < |s.timers| :: s.timers[i].body.t != s.current
    ensures OnCpu(f) && Tick(s, now) == ThreadPreempt(f)
    ensures FiredFrom(s, f, Leaks(s.timers, s.threads, now))
  {
    hide QueuesOk, WaitsOk, FireDue, ThreadPreempt;
    TickShape(s, now);
    FireDueMask(Interrupted(s), now);
    QuantumFired(s, FireDue(Interrupted(s), now), Leaks(s.timers, s.threads, now));
    f := QuantumTick(FireDue(Interrupted(s), now));
  }

  lemma TickMask(s: Kernel, now: Word)
    requires Inv(s) && MaskOk(s) && Enabled(s, TimerTick(now))
    ensures forall i | 0 <= i < |s.timers| :: s.timers[i].body.t in s.threads
    ensures MaskOk(Step(s, TimerTick(now))) <==> Leaks(s.timers, s.threads, now) == 0
  {
    hide QueuesOk, WaitsOk, Side, DomainOk, ThreadPreempt, FiredFrom, Tick;
    InvOthers(s);
    NoOwnTimer(s);
    var f := TickFired(s, now);
    PreemptDepth(s, f, Leaks(s.timers, s.threads, now));
    if Leaks(s.timers, s.threads, now) == 0 {
      PreemptMask(s, f);
    }
  }

  // ---- the law ------------------------------------------------------------

  /** Whether a step is a timer interrupt in which some timeout comes too late. */
  ghost predicate LeaksSection(s: Kernel, a: Action)
    requires Inv(s)
  {
    a.TimerTick? && Leaks(s.timers, s.threads, a.now) > 0
  }

  /** A step keeps the mask in line with the critical sections exactly when no
      timeout fires late in it. */
  lemma MaskFollowsSections(s: Kernel, a: Action)
    requires Inv(s) && MaskOk(s) && Enabled(s, a)
    ensures MaskOk(Step(s, a)) <==> !LeaksSection(s, a)
  {
    hide ThreadsOk, DomainOk, Side, TimersGood, Step;
    InvOthers(s);
    if a.TimerTick? {
      TickMask(s, a.now);
    } else if a.Proceed? {
      ContinueMask(s);
    } else if a.Acquire? || a.ReleaseMutex? {
      MutexStep(s, a);
    } else {
      RestMask(s, a);
    }
  }

  lemma MutexStep(s: Kernel, a: Action)
    requires Inv(s) && InUserCode(s) && Enabled(s, a) && (a.Acquire? || a.ReleaseMutex?)
    ensures MaskOk(Step(s, a))
  {
    hide MutexCall;
    MutexCallMask(s, a);
  }

  ghost predicate NeverLeaks(s: Kernel, run: seq<Action>)
    requires Inv(s) && Runs(s, run)
    decreases |run|
  {
    run == [] || (!LeaksSection(s, run[0]) && (StepInv(s, run[0]); NeverLeaks(Step(s, run[0]), run[1..])))
  }

  lemma {:induction false} MaskAlongRuns(s: Kernel, run: seq<Action>)
    requires Inv(s) && MaskOk(s) && Runs(s, run) && NeverLeaks(s, run)
    ensures MaskOk(End(s, run))
    decreases |run|
  {
    hide Inv, MaskOk, Step, Enabled, LeaksSection;
    if run != [] {
      StepInv(s, run[0]);
      MaskFollowsSections(s, run[0]);
      MaskAlongRuns(Step(s, run[0]), run[1..]);
    }
  }

  lemma BootMask(mutexes: set<nat>, events: map<nat, Event>, idle: Tid, dpc: Tid, first: Tid)
    requires Bootable(events, idle, dpc, first)
    ensures MaskOk(Boot(mutexes, events, idle, dpc, first))
  {
  }

  ghost predicate MaskOkAt(s: Kernel, run: seq<Action>, k: nat)
    requires Inv(s) && Runs(s, run) && k <= |run|
  {
    MaskOk(Nth(s, run, k))
  }

  lemma MaskShifts(s: Kernel, run: seq<Action>, k: nat)
    requires Inv(s) && Runs(s, run) && run != [] && Inv(Step(s, run[0])) && k < |run|
    ensures MaskOkAt(s, run, k + 1) == MaskOkAt(Step(s, run[0]), run[1..], k)
    ensures MaskOkAt(s, run, 0) == MaskOk(s)
  {
    hide Inv, MaskOk, Step, Enabled;
  }

  /** The mask is in line with the sections throughout a run exactly when no timeout comes late in it. */
  lemma {:induction false} MaskThroughoutExactlyWhen(s: Kernel, run: seq<Action>)
    requires Inv(s) && MaskOk(s) && Runs(s, run)
    ensures NeverLeaks(s, run) <==> forall k | 0 <= k <= |run| :: MaskOkAt(s, run, k)
    decreases |run|
  {
    hide Inv, MaskOk, Step, Enabled, LeaksSection;
    if run != [] {
      StepInv(s, run[0]);
      MaskFollowsSections(s, run[0]);
      var s1 := Step(s, run[0]);
      MaskShifts(s, run, 0);
      if LeaksSection(s, run[0]) {
        assert !MaskOkAt(s1, run[1..], 0) && !MaskOkAt(s, run, 1);
      } else {
        MaskThroughoutExactlyWhen(s1, run[1..]);
        forall k | 0 <= k < |run| ensures MaskOkAt(s, run, k + 1) == MaskOkAt(s1, run[1..], k) {
          MaskShifts(s, run, k);
        }
        if NeverLeaks(s1, run[1..]) {
          forall k | 0 <= k <= |run| ensures MaskOkAt(s, run, k) {
            if k > 0 {
              MaskShifts(s, run, k - 1);
              assert MaskOkAt(s1, run[1..], k - 1);
            }
          }
        } else {
          var k :| 0 <= k <= |run[1..]| && !MaskOkAt(s1, run[1..], k);
          assert !MaskOkAt(s, run, k + 1);
        }
      }
    }
  }

  /** From boot, until a timeout comes late, no timer interrupt is taken inside a
      section: the code of a step runs undisturbed. */
  lemma MaskFromBoot(mutexes: set<nat>, events: map<nat, Event>, idle: Tid, dpc: Tid, first: Tid, run: seq<Action>, now: Word)
    requires Bootable(events, idle, dpc, first)
    ensures Inv(Boot(mutexes, events, idle, dpc, first))
    ensures
      var s := Boot(mutexes, events, idle, dpc, first);
      Runs(s, run) && NeverLeaks(s, run) ==>
        MaskOk(End(s, run)) && (End(s, run).cs > 0 ==> !Enabled(End(s, run), TimerTick(now)))
  {
    hide Inv, Boot, Bootable, Runs, NeverLeaks, End;
    BootInv(mutexes, events, idle, dpc, first);
    BootMask(mutexes, events, idle, dpc, first);
    var s := Boot(mutexes, events, idle, dpc, first);
    if Runs(s, run) && NeverLeaks(s, run) {
      MaskAlongRuns(s, run);
    }
  }

  /** The cost of a leak: the interrupted thread is left as many sections too
      deep as timeouts came late, and returns with interrupts on inside them. */
  lemma LeakedSectionsStay(s: Kernel, k: nat)
    requires Inv(s) && s.threads[s.current].cont.InPreempt? && s.cs == 2 + k
    ensures
      var s' := Step(s, Proceed);
      s'.current == s.current && s'.cs == k && !s'.masked
  {
    hide QueuesOk, WaitsOk, Side, TimersGood;
    ContinueShape(s);
    ReturnedEffect(s);
  }

  lemma LeakDepth(s: Kernel, now: Word)
    requires Inv(s) && MaskOk(s) && Enabled(s, TimerTick(now))
    ensures forall i | 0 <= i < |s.timers| :: s.timers[i].body.t in s.threads
    ensures
      var s' := Step(s, TimerTick(now));
      && s.current in s'.threads && s'.threads[s.current].cont.InPreempt?
      && Depth(s', s.current) == 2 + Leaks(s.timers, s.threads, now)
  {
    hide QueuesOk, WaitsOk, Side, DomainOk, ThreadPreempt, FiredFrom, Tick;
    InvOthers(s);
    NoOwnTimer(s);
    var f := TickFired(s, now);
    PreemptDepth(s, f, Leaks(s.timers, s.threads, now));
  }
}
