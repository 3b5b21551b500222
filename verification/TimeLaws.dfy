/** When sleepers wake and timed waits give up. */
module TimeLaws {
  import opened Words
  import opened RunQueues
  import opened TimerQueue
  import opened KernelState
  import opened KernelOps
  import opened KernelCalls
  import opened KernelInv
  import opened KernelSteps
  import opened KernelProofs
  import opened KernelSyncProofs
  import opened KernelTickProofs
  import opened KernelSync
  import opened KernelLaws
  import opened KernelRuns
  import opened MutexLaws
  import opened MaskLaws

  // ---- the timer queue along steps ----------------------------------------

  /** The call would set a timer if it blocks. */
  predicate Arms(a: Action) {
    a.Sleep? || ((a.Acquire? || a.Wait?) && a.timeout != INFINITE_TIME)
  }

  /** The timer it would set. */
  function Armed(s: Kernel, a: Action): Entry<ThreadTimer>
    requires Arms(a)
  {
    if a.Sleep? then Entry(Add(a.now, if a.delay == 0 then 1 else a.delay), Wakeup(s.current))
    else Entry(Add(a.now, a.timeout), Timeout(s.current))
  }

  /** What a step other than a timer interrupt does to the timer queue: nothing,
      or it sets or cancels a timer of the thread that takes the step. */
  ghost predicate OwnTimer(s: Kernel, a: Action, timers: seq<Entry<ThreadTimer>>) {
    || timers == s.timers
    || (Arms(a) && timers == Insert(s.timers, Armed(s, a)))
    || timers == CancelTimer(s.timers, Timeout(s.current))
  }

  lemma ReschedTimers(s: Kernel)
    ensures Resched(s).timers == s.timers
  {
  }

  lemma {:induction false} WakeAllTimers(s: Kernel, w: WaitId, code: int)
    requires Core(s) && w in s.waits
    ensures WakeAll(s, w, code).timers == s.timers
    decreases |s.waits[w].list|
  {
    hide QueuesOk, WaitsOk;
    if s.waits[w].list != [] {
      ReleaseCore(s, w, 0, code);
      WakeAllTimers(Release(s, w, 0, code), w, code);
    }
  }

  lemma QuietTimers(s: Kernel, e: nat)
    requires Core(s) && e in s.events && OfEvent(e) in s.waits
    ensures SignalQuietly(s, e).timers == s.timers
  {
    hide QueuesOk, WaitsOk;
    SetSignalledCore(s, e, true);
    if !s.events[e].signalled && !s.events[e].auto {
      WakeAllTimers(SetSignalled(s, e, true), OfEvent(e), NO_ERROR);
    }
  }

  lemma SignalTimers(s: Kernel, e: nat, reschedule: bool, depth: nat)
    requires OnCpu(s) && e in s.events && OfEvent(e) in s.waits
    ensures SignalAt(s, e, reschedule, depth).timers == s.timers
  {
    hide QueuesOk, WaitsOk, Resched, SignalQuietly, ExitN, Release, WakeAll;
    if reschedule && !s.events[e].signalled && s.waits[OfEvent(e)].list != [] {
      if s.events[e].auto {
        WakeOneTimers(s, OfEvent(e), depth);
      } else {
        WakeAllReschedTimers(s, e, depth);
      }
    } else {
      QuietTimers(s, e);
      ExitNCounts(SignalQuietly(s, e), depth);
    }
  }

  lemma WakeOneTimers(s: Kernel, w: WaitId, depth: nat)
    requires OnCpu(s) && w in s.waits && s.waits[w].list != []
    ensures WakeOneAndResched(s, w, NO_ERROR, depth).timers == s.timers
  {
    hide QueuesOk, WaitsOk;
  }

  lemma WakeAllReschedTimers(s: Kernel, e: nat, depth: nat)
    requires OnCpu(s) && e in s.events && OfEvent(e) in s.waits
    ensures Core(SetSignalled(s, e, true))
    ensures WakeAllAndResched(SetSignalled(s, e, true), OfEvent(e), NO_ERROR, depth).timers == s.timers
  {
    hide QueuesOk, WaitsOk, Resched, WakeAll;
    SetSignalledCore(s, e, true);
    var x := SetSignalled(s, e, true);
    ParkCore(x, InWake(depth), true);
    var p := MakeReady(SetCont(x, InWake(depth)), s.current, true);
    WakeAllTimers(p, OfEvent(e), NO_ERROR);
    ReschedTimers(WakeAll(p, OfEvent(e), NO_ERROR));
  }

  lemma BlockTimers(s: Kernel, w: WaitId, timeout: Word, now: Word)
    requires s.current in s.threads && w in s.waits
    ensures Block(s, w, timeout, now).timers ==
      if timeout != INFINITE_TIME then Insert(s.timers, Entry(Add(now, timeout), Timeout(s.current))) else s.timers
  {
    hide Resched;
    BlockShape(s, w, timeout, now);
    ReschedTimers(Stopped(s, w, timeout, now));
  }

  lemma ThreadCallTimers(s: Kernel, a: Action)
    requires OnCpu(s) && DomainOk(s) && Enabled(s, a) && !a.Proceed? && !a.TimerTick?
    ensures OwnTimer(s, a, ThreadCall(s, a).timers)
    ensures a.Sleep? ==> ThreadCall(s, a).timers == Insert(s.timers, Armed(s, a))
  {
    hide QueuesOk, WaitsOk, Resched, SignalQuietly;
    match a
    case Sleep(delay, now) =>
      var when := Add(now, if delay == 0 then 1 else delay);
      ReschedTimers(Asleep(s, when));
    case Exit =>
      DeathCore(s);
      ExitTimers(s);
    case Yield => YieldTimers(s);
    case Resume(t) => ResumeTimers(s, t);
    case _ =>
  }

  lemma YieldTimers(s: Kernel)
    requires OnCpu(s)
    ensures ThreadYield(s).timers == s.timers
  {
    hide QueuesOk, WaitsOk;
  }

  lemma ResumeTimers(s: Kernel, t: Tid)
    requires OnCpu(s) && t in s.threads
    ensures ThreadResume(s, t).0.timers == s.timers
  {
    hide QueuesOk, WaitsOk;
  }

  lemma ExitTimers(s: Kernel)
    requires OnCpu(s) && DPC_EVENT in s.events && OfEvent(DPC_EVENT) in s.waits
    ensures ThreadExit(s).timers == s.timers
  {
    hide QueuesOk, WaitsOk, Resched, SignalQuietly;
    DeathCore(s);
    var x := SetThread(Enter(s), s.current, s.threads[s.current].(state := Death, cont := Dead))
               .(dpcs := s.dpcs + [Cleanup(s.current)]);
    QuietTimers(x, DPC_EVENT);
    ReschedTimers(SignalQuietly(x, DPC_EVENT));
  }

  lemma MutexCallTimers(s: Kernel, a: Action)
    requires OnCpu(s) && DomainOk(s) && Enabled(s, a) && (a.Acquire? || a.ReleaseMutex?)
    ensures OwnTimer(s, a, MutexCall(s, a).timers)
  {
    hide QueuesOk, WaitsOk, Block, WakeOneAndResched;
    match a
    case Acquire(m, timeout, now) =>
      BlockTimers(SetMutex(Enter(s), m, s.mutexes[m].count + 1, s.mutexes[m].holder), OfMutex(m), timeout, now);
    case ReleaseMutex(m) =>
      ReleaseShape(s, m);
      var s1 := SetMutex(Enter(s), m, s.mutexes[m].count - 1, None);
      CoreFrame(s, s1);
      if s.waits[OfMutex(m)].list != [] {
        WakeOneTimers(s1, OfMutex(m), 1);
      }
  }

  lemma WaitTimers(s: Kernel, e: nat, timeout: Word, now: Word)
    requires s.current in s.threads && e in s.events && OfEvent(e) in s.waits
    ensures OwnTimer(s, Wait(e, timeout, now), WaitEvent(s, e, timeout, now).timers)
  {
    hide Block;
    BlockTimers(Enter(s), OfEvent(e), timeout, now);
  }

  lemma SignalStepTimers(s: Kernel, a: Action)
    requires OnCpu(s) && DomainOk(s) && Enabled(s, a) && (a.Signal? || a.QueueCallback?)
    ensures SignalCall(s, a).timers == s.timers
  {
    hide QueuesOk, WaitsOk, SignalAt;
    match a
    case Signal(e, reschedule) =>
      CoreFrame(s, Enter(s));
      SignalTimers(Enter(s), e, reschedule, 1);
    case QueueCallback(id, reschedule) =>
      var x := Enter(Enter(s)).(dpcs := s.dpcs + [Callback(id)]);
      CoreFrame(s, x);
      SignalTimers(x, DPC_EVENT, reschedule, 2);
  }

  lemma EventCallTimers(s: Kernel, a: Action)
    requires OnCpu(s) && DomainOk(s) && Enabled(s, a) && (a.Wait? || a.Unsignal?)
    ensures OwnTimer(s, a, EventCall(s, a).timers)
  {
    hide QueuesOk, WaitsOk, WaitEvent;
    match a
    case Wait(e, timeout, now) => WaitTimers(s, e, timeout, now);
    case Unsignal(_) =>
  }

  lemma DpcStepTimers(s: Kernel, a: Action)
    requires Busy(s) && Enabled(s, a) && DpcLoop(a)
    ensures DpcStep(s, a).timers == s.timers
  {
    hide QueuesOk, WaitsOk, ThreadsOk, TimersGood, Side, WaitEvent;
    if a.DpcWait? {
      WaitUntimed(s);
    }
  }

  lemma WaitUntimed(s: Kernel)
    requires s.current in s.threads && DPC_EVENT in s.events && OfEvent(DPC_EVENT) in s.waits
    ensures WaitEvent(s, DPC_EVENT, INFINITE_TIME, 0).timers == s.timers
  {
    hide Block;
    BlockTimers(Enter(s), OfEvent(DPC_EVENT), INFINITE_TIME, 0);
  }

  lemma AfterWaitTimers(s: Kernel, w: WaitId, ret: int)
    requires w.OfMutex? ==> w.m in s.mutexes
    ensures ExitN(AfterWait(s, w, ret), 2).timers == s.timers
  {
    hide ExitN;
    ExitNCounts(AfterWait(s, w, ret), 2);
  }

  lemma ContinueTimers(s: Kernel)
    requires Inv(s) && Enabled(s, Proceed)
    ensures OwnTimer(s, Proceed, Step(s, Proceed).timers)
  {
    hide QueuesOk, WaitsOk, ThreadsOk, TimersGood, Side, ExitN, AfterWait, Continue, CancelTimer;
    ContinueShape(s);
    ReturnedEffect(s);
    var k := s.threads[s.current].cont;
    if k.InWait? {
      AfterWaitTimers(Returned(s), k.w, s.threads[s.current].blockRet);
    } else {
      ExitNCounts(Returned(s), k.Exits());
    }
  }

  lemma UserParts(s: Kernel)
    requires Inv(s) && s.threads[s.current].cont.User?
    ensures Busy(s) && OnCpu(s) && DomainOk(s)
  {
    hide QueuesOk, WaitsOk, ThreadsOk, TimersGood, Side;
  }

  lemma TimersOfStep(s: Kernel, a: Action)
    requires Inv(s) && Enabled(s, a) && !a.TimerTick?
    ensures OwnTimer(s, a, Step(s, a).timers)
  {
    hide Inv, Busy, OnCpu, DomainOk, ThreadCall, MutexCall, SignalCall, EventCall, DpcStep, Continue, CancelTimer, Insert;
    if a.Proceed? {
      ContinueTimers(s);
    } else {
      UserParts(s);
      if a.Acquire? || a.ReleaseMutex? {
        MutexCallTimers(s, a);
      } else if a.Signal? || a.QueueCallback? {
        SignalStepTimers(s, a);
      } else if a.Wait? || a.Unsignal? {
        EventCallTimers(s, a);
      } else if DpcLoop(a) {
        DpcStepTimers(s, a);
      } else {
        ThreadCallTimers(s, a);
      }
    }
  }

  // ---- the timer queue stays in time order ---------------------------------

  /** The pending times, with the one this step brings in, lie in half the time range. */
  ghost predicate TimesFit(s: Kernel, a: Action, base: Word) {
    && TimerQueue.Fits(s.timers, base)
    && (Arms(a) ==> Near(base, Armed(s, a).when))
    && (a.TimerTick? ==> Near(base, a.now))
  }

  /** At every step of the run the times fit in half the range; the range may move on. */
  ghost predicate TimesFitAlong(s: Kernel, run: seq<Action>)
    requires Inv(s) && Runs(s, run)
    decreases |run|
  {
    run == [] ||
    ((exists base :: TimesFit(s, run[0], base)) && (StepInv(s, run[0]); TimesFitAlong(Step(s, run[0]), run[1..])))
  }

  lemma {:induction false} CancelSorted(timers: seq<Entry<ThreadTimer>>, b: ThreadTimer)
    requires Sorted(timers)
    ensures Sorted(CancelTimer(timers, b))
    ensures forall e | e in CancelTimer(timers, b) :: e in timers
    ensures forall e | e in timers && e.body != b :: e in CancelTimer(timers, b)
    decreases |timers|
  {
    if timers != [] && timers[0].body != b {
      CancelSorted(timers[1..], b);
      var r := CancelTimer(timers[1..], b);
      forall j | 0 <= j < |r| ensures !TimeGt(timers[0].when, r[j].when) {
        assert r[j] in timers[1..];
      }
    }
  }

  lemma StepKeepsOrder(s: Kernel, a: Action, base: Word)
    requires Inv(s) && Enabled(s, a) && Sorted(s.timers) && TimesFit(s, a, base)
    ensures Sorted(Step(s, a).timers)
  {
    hide Inv, Enabled, Step, TimerQueue.Fits, Near;
    if a.TimerTick? {
      TickTimers(s, a.now);
    } else {
      TimersOfStep(s, a);
      if Arms(a) {
        InsertSorted(s.timers, Armed(s, a), base);
      }
      CancelSorted(s.timers, Timeout(s.current));
    }
  }

  /** The timer queue is in time order after every run whose times fit. */
  lemma {:induction false} TimersInOrder(s: Kernel, run: seq<Action>)
    requires Inv(s) && Runs(s, run) && Sorted(s.timers) && TimesFitAlong(s, run)
    ensures Sorted(End(s, run).timers)
    decreases |run|
  {
    hide Inv, Enabled, Step, Sorted, TimesFit;
    if run != [] {
      StepInv(s, run[0]);
      var base :| TimesFit(s, run[0], base);
      StepKeepsOrder(s, run[0], base);
      TimersInOrder(Step(s, run[0]), run[1..]);
    }
  }

  /** In a sorted queue within half the time range the due prefix is all that is due. */
  lemma DuePrefixIsAllDue(timers: seq<Entry<ThreadTimer>>, now: Word, base: Word, i: nat)
    requires TimerQueue.Fits(timers, base) && Sorted(timers) && Near(base, now) && i < |timers|
    ensures i < DueCount(timers, now) <==> !TimeLt(now, timers[i].when)
  {
    var n := DueCount(timers, now);
    if i >= n {
      OrderInHalf(base, now, timers[n].when);
      OrderInHalf(base, now, timers[i].when);
      OrderInHalf(base, timers[n].when, timers[i].when);
    }
  }

  // ---- sleeping -----------------------------------------------------------

  /** The timers that a tick at `now` fires: the longest due prefix. */
  function DueCount(timers: seq<Entry<ThreadTimer>>, now: Word): (n: nat)
    ensures n <= |timers|
    ensures forall i | 0 <= i < n :: !TimeLt(now, timers[i].when)
    ensures n < |timers| ==> TimeLt(now, timers[n].when)
  {
    if !Due(timers, now) then 0 else 1 + DueCount(timers[1..], now)
  }

  lemma {:induction false} FireDueTimers(s: Kernel, now: Word)
    requires Core(s) && TimersOk(s.timers, s.threads)
    ensures FireDue(s, now).timers == s.timers[DueCount(s.timers, now)..]
    decreases |s.timers|
  {
    hide Core, Fire;
    if Due(s.timers, now) {
      FireTimers(s);
      var s' := Fire(Popped(s), s.timers[0].body);
      FireDueTimers(s', now);
    }
  }

  lemma TickTimers(s: Kernel, now: Word)
    requires Inv(s) && Enabled(s, TimerTick(now))
    ensures Step(s, TimerTick(now)).timers == s.timers[DueCount(s.timers, now)..]
  {
    hide QueuesOk, WaitsOk, ThreadsOk, DomainOk, Side, FireDue, Tick;
    NoOwnTimer(s);
    TickShape(s, now);
    FireDueTimers(Interrupted(s), now);
    PreemptTimers(QuantumTick(FireDue(Interrupted(s), now)));
  }

  lemma PreemptTimers(s: Kernel)
    requires OnCpu(s)
    ensures ThreadPreempt(s).timers == s.timers
  {
    hide QueuesOk, WaitsOk;
  }

  /** A thread is asleep exactly while its wakeup is queued. */
  lemma AsleepIffQueued(s: Kernel, t: Tid)
    requires Inv(s) && t in s.threads
    ensures s.threads[t].state.Sleeping? <==> KernelInv.Queued(s.timers, Wakeup(t))
  {
    hide QueuesOk, WaitsOk, ThreadsOk, DomainOk, Side;
    TimersFit(s.timers, s.threads, t);
  }

  lemma {:induction false} CancelKeepsWakeups(timers: seq<Entry<ThreadTimer>>, u: Tid, t: Tid)
    ensures KernelInv.Queued(CancelTimer(timers, Timeout(u)), Wakeup(t)) <==> KernelInv.Queued(timers, Wakeup(t))
    decreases |timers|
  {
    if timers != [] && timers[0].body != Timeout(u) {
      CancelKeepsWakeups(timers[1..], u, t);
      var rest := CancelTimer(timers[1..], Timeout(u));
      QueuedHead(timers[0], rest, Wakeup(t));
      QueuedHead(timers[0], timers[1..], Wakeup(t));
      assert timers == [timers[0]] + timers[1..];
    } else if timers != [] {
      QueuedHead(timers[0], timers[1..], Wakeup(t));
      assert timers == [timers[0]] + timers[1..];
    }
  }

  lemma QueuedHead(e: Entry<ThreadTimer>, rest: seq<Entry<ThreadTimer>>, b: ThreadTimer)
    ensures KernelInv.Queued([e] + rest, b) <==> e.body == b || KernelInv.Queued(rest, b)
  {
    var all := [e] + rest;
    assert all[0] == e;
    if KernelInv.Queued(rest, b) {
      var i :| 0 <= i < |rest| && rest[i].body == b;
      assert all[i + 1].body == b;
    }
    if KernelInv.Queued(all, b) {
      var i :| 0 <= i < |all| && all[i].body == b;
      assert i > 0 ==> rest[i - 1].body == b;
    }
  }

  lemma InsertKeepsQueued(timers: seq<Entry<ThreadTimer>>, e: Entry<ThreadTimer>, b: ThreadTimer)
    requires KernelInv.Queued(timers, b)
    ensures KernelInv.Queued(Insert(timers, e), b)
  {
    var i :| 0 <= i < |timers| && timers[i].body == b;
    var p := Position(timers, e.when);
    assert Insert(timers, e)[if i < p then i else i + 1].body == b;
  }

  /** The place of a queued wakeup. */
  ghost predicate WakesAt(timers: seq<Entry<ThreadTimer>>, t: Tid, i: nat) {
    i < |timers| && timers[i].body == Wakeup(t)
  }

  /** A sleeping thread wakes in a timer interrupt, and just when its timer is
      among those the interrupt fires; no other step wakes it. */
  lemma SleeperWakesIfFired(s: Kernel, a: Action, t: Tid, i: nat)
    requires Inv(s) && Enabled(s, a) && t in s.threads && s.threads[t].state.Sleeping? && WakesAt(s.timers, t, i)
    ensures t in Step(s, a).threads
    ensures Step(s, a).threads[t].state.Sleeping? <==> !(a.TimerTick? && i < DueCount(s.timers, a.now))
  {
    hide QueuesOk, WaitsOk, ThreadsOk, DomainOk, Side, Step;
    StepInv(s, a);
    var s' := Step(s, a);
    assert KernelInv.Queued(s.timers, Wakeup(t));
    if a.TimerTick? {
      TickTimers(s, a.now);
      TickWakes(s.timers, s.threads, t, i, DueCount(s.timers, a.now));
    } else {
      TimersOfStep(s, a);
      if s'.timers == CancelTimer(s.timers, Timeout(s.current)) {
        CancelKeepsWakeups(s.timers, s.current, t);
      } else if s'.timers != s.timers {
        InsertKeepsQueued(s.timers, Armed(s, a), Wakeup(t));
      }
    }
    if KernelInv.Queued(s'.timers, Wakeup(t)) {
      QueuedIsLive(s', Wakeup(t));
    } else {
      TickKeys(s, a.now);
    }
    AsleepIffQueued(s', t);
  }

  lemma TickWakes(timers: seq<Entry<ThreadTimer>>, threads: map<Tid, Thread>, t: Tid, i: nat, n: nat)
    requires TimersOk(timers, threads) && WakesAt(timers, t, i) && n <= |timers|
    ensures KernelInv.Queued(timers[n..], Wakeup(t)) <==> i >= n
  {
    if i >= n {
      assert timers[n..][i - n].body == Wakeup(t);
    } else {
      forall k | 0 <= k < |timers[n..]| ensures timers[n..][k].body != Wakeup(t) {
        assert timers[n..][k] == timers[n + k];
      }
    }
  }

  /** A queued timer belongs to a live thread. */
  lemma QueuedIsLive(s: Kernel, b: ThreadTimer)
    requires Inv(s) && KernelInv.Queued(s.timers, b)
    ensures b.t in s.threads
  {
    hide QueuesOk, WaitsOk, ThreadsOk, DomainOk, Side;
  }

  lemma PreemptKeys(s: Kernel)
    requires OnCpu(s)
    ensures ThreadPreempt(s).threads.Keys == s.threads.Keys
  {
    hide QueuesOk, WaitsOk, NextQueue, PopFrom, PushHead, PushTail, Indexed;
  }

  /** A timer interrupt removes no thread. */
  lemma TickKeys(s: Kernel, now: Word)
    requires Inv(s) && Enabled(s, TimerTick(now))
    ensures Step(s, TimerTick(now)).threads.Keys == s.threads.Keys
  {
    hide QueuesOk, WaitsOk, ThreadsOk, DomainOk, Side, FireDue, Tick, ThreadPreempt;
    InvOthers(s);
    NoOwnTimer(s);
    TickShape(s, now);
    FireDueMask(Interrupted(s), now);
    PreemptKeys(QuantumTick(FireDue(Interrupted(s), now)));
  }

  /** thread_sleep arms the wakeup for the current time plus the delay, at least one. */
  lemma SleepArmsWakeup(s: Kernel, delay: Word, now: Word)
    requires Inv(s) && Enabled(s, Sleep(delay, now))
    ensures Step(s, Sleep(delay, now)).timers ==
      Insert(s.timers, Entry(Add(now, if delay == 0 then 1 else delay), Wakeup(s.current)))
  {
    hide QueuesOk, WaitsOk, ThreadsOk, TimersGood, Side, ThreadCall;
    ThreadCallTimers(s, Sleep(delay, now));
  }

  lemma Member(timers: seq<Entry<ThreadTimer>>, e: Entry<ThreadTimer>, x: Entry<ThreadTimer>)
    ensures x in Insert(timers, e) <==> x == e || x in timers
  {
    var i := Position(timers, e.when);
    assert timers == timers[..i] + timers[i..];
  }

  /** In a queue in time order, what a tick leaves is what lies after `now`. */
  lemma LeftAfterTick(timers: seq<Entry<ThreadTimer>>, now: Word, base: Word, e: Entry<ThreadTimer>)
    requires TimerQueue.Fits(timers, base) && Sorted(timers) && Near(base, now) && e in timers
    ensures e in timers[DueCount(timers, now)..] <==> TimeLt(now, e.when)
  {
    hide TimerQueue.Fits, Sorted, Near, TimeLt;
    var n := DueCount(timers, now);
    if e in timers[n..] {
      var k :| 0 <= k < |timers[n..]| && timers[n..][k] == e;
      DuePrefixIsAllDue(timers, now, base, n + k);
    } else {
      assert timers == timers[..n] + timers[n..];
      var i :| 0 <= i < n && timers[i] == e;
      DuePrefixIsAllDue(timers, now, base, i);
    }
  }

  /** A sleeping thread wakes in a timer interrupt, and just when its time has
      come by then; no other step wakes it or touches its timer. */
  lemma SleeperWakesExactlyWhen(s: Kernel, a: Action, base: Word, t: Tid, when: Word)
    requires Inv(s) && Enabled(s, a) && Sorted(s.timers) && TimesFit(s, a, base)
    requires Entry(when, Wakeup(t)) in s.timers && t in s.threads
    ensures t in Step(s, a).threads
    ensures Step(s, a).threads[t].state.Sleeping? <==> !(a.TimerTick? && !TimeLt(a.now, when))
    ensures Step(s, a).threads[t].state.Sleeping? ==> Entry(when, Wakeup(t)) in Step(s, a).timers
  {
    hide Inv, Enabled, Step, TimerQueue.Fits, Near, Sorted, TimeLt;
    var e := Entry(when, Wakeup(t));
    var i :| 0 <= i < |s.timers| && s.timers[i] == e;
    assert KernelInv.Queued(s.timers, Wakeup(t));
    AsleepIffQueued(s, t);
    SleeperWakesIfFired(s, a, t, i);
    if a.TimerTick? {
      DuePrefixIsAllDue(s.timers, a.now, base, i);
      LeftAfterTick(s.timers, a.now, base, e);
      TickTimers(s, a.now);
    } else {
      TimersOfStep(s, a);
      CancelSorted(s.timers, Timeout(s.current));
      if Arms(a) {
        Member(s.timers, Armed(s, a), e);
      }
    }
  }

  /** A sleep lasts, along any run whose times fit, until the first timer
      interrupt that finds its time has come, and ends there. */
  lemma {:induction false} SleepsUntil(s: Kernel, run: seq<Action>, t: Tid, when: Word) returns (k: nat)
    requires Inv(s) && Runs(s, run) && Sorted(s.timers) && TimesFitAlong(s, run)
    requires Entry(when, Wakeup(t)) in s.timers && t in s.threads
    ensures k <= |run| && forall j | 0 <= j < k && run[j].TimerTick? :: TimeLt(run[j].now, when)
    ensures t in Nth(s, run, k).threads && Nth(s, run, k).threads[t].state.Sleeping?
    ensures k < |run| ==>
      && run[k].TimerTick? && !TimeLt(run[k].now, when)
      && t in Nth(s, run, k + 1).threads && !Nth(s, run, k + 1).threads[t].state.Sleeping?
    decreases |run|
  {
    hide Inv, Enabled, Step, Sorted, TimesFit, TimeLt;
    assert KernelInv.Queued(s.timers, Wakeup(t));
    AsleepIffQueued(s, t);
    k := 0;
    if run != [] {
      StepInv(s, run[0]);
      var base :| TimesFit(s, run[0], base);
      SleeperWakesExactlyWhen(s, run[0], base, t, when);
      StepKeepsOrder(s, run[0], base);
      if Step(s, run[0]).threads[t].state.Sleeping? {
        var j := SleepsUntil(Step(s, run[0]), run[1..], t, when);
        k := j + 1;
      } else {
        NthSteps(s, run, 0);
      }
    }
  }

  // ---- timed waits --------------------------------------------------------

  /** A tick at `now` fires the timeout of `t`. */
  ghost predicate TimeoutFires(timers: seq<Entry<ThreadTimer>>, now: Word, t: Tid) {
    exists i | 0 <= i < DueCount(timers, now) :: timers[i].body == Timeout(t)
  }

  lemma FiresHead(timers: seq<Entry<ThreadTimer>>, now: Word, t: Tid)
    requires Due(timers, now)
    ensures TimeoutFires(timers, now, t) <==> timers[0].body == Timeout(t) || TimeoutFires(timers[1..], now, t)
  {
    assert DueCount(timers, now) == 1 + DueCount(timers[1..], now);
    if TimeoutFires(timers[1..], now, t) {
      var i :| 0 <= i < DueCount(timers[1..], now) && timers[1..][i].body == Timeout(t);
      assert timers[i + 1].body == Timeout(t);
    }
    if TimeoutFires(timers, now, t) {
      var i :| 0 <= i < DueCount(timers, now) && timers[i].body == Timeout(t);
      assert i > 0 ==> timers[1..][i - 1].body == Timeout(t);
    }
  }

  /** On the abstract machine: a waiter's own timeout releases it, and no other does. */
  lemma {:induction false} TickReleases(y: Sync, timers: seq<Entry<ThreadTimer>>, now: Word, t: Tid)
    requires t in y.waiters && y.waiters[t].blocked && y.waiters[t].w in y.lists && t in y.lists[y.waiters[t].w]
    ensures
      var y' := DoTick(y, timers, now);
      && t in y'.waiters
      && y'.waiters[t] == if TimeoutFires(timers, now, t) then y.waiters[t].(blocked := false, ret := ERR_TIMED_OUT)
                          else y.waiters[t]
    decreases |timers|
  {
    if Due(timers, now) {
      FiresHead(timers, now, t);
      var u := timers[0].body.t;
      var w := y.waiters[t].w;
      var y1 := if timers[0].body.Timeout? then DoTimeout(y, u) else y;
      TimeoutEffect(y, u, w);
      if timers[0].body == Timeout(t) {
        TickEffect(y1, timers[1..], now, w);
        assert Expired(y1.waiters[t], DoTick(y1, timers[1..], now).waiters[t]);
      } else {
        TimeoutKeeps(y, u, w, t);
        TickReleases(y1, timers[1..], now, t);
      }
    }
  }

  lemma OneTimerEach(s: Kernel, i: nat, j: nat)
    requires Inv(s) && i < |s.timers| && j < |s.timers| && s.timers[i].body.t == s.timers[j].body.t
    ensures i == j
  {
    hide QueuesOk, WaitsOk, ThreadsOk, DomainOk, Side;
  }

  /** In a queue in time order a tick fires a timeout just when its time has come. */
  lemma FiresWhenDue(s: Kernel, now: Word, base: Word, t: Tid, when: Word)
    requires Inv(s) && Sorted(s.timers) && TimerQueue.Fits(s.timers, base) && Near(base, now)
    requires Entry(when, Timeout(t)) in s.timers
    ensures TimeoutFires(s.timers, now, t) <==> !TimeLt(now, when)
  {
    hide Inv, TimerQueue.Fits, Near, Sorted, TimeLt;
    var i :| 0 <= i < |s.timers| && s.timers[i] == Entry(when, Timeout(t));
    DuePrefixIsAllDue(s.timers, now, base, i);
    if TimeoutFires(s.timers, now, t) {
      var j :| 0 <= j < DueCount(s.timers, now) && s.timers[j].body == Timeout(t);
      OneTimerEach(s, i, j);
    }
  }

  /** A timed waiter that is still blocked gives up in a timer interrupt just when its time has come. */
  lemma WaitTimesOutExactlyWhen(s: Kernel, now: Word, base: Word, t: Tid, when: Word)
    requires Inv(s) && Enabled(s, TimerTick(now)) && Sorted(s.timers) && TimesFit(s, TimerTick(now), base)
    requires Entry(when, Timeout(t)) in s.timers && t in Abs(s).waiters && Abs(s).waiters[t].blocked
    ensures
      var y' := Abs(Step(s, TimerTick(now)));
      && t in y'.waiters
      && (y'.waiters[t].blocked <==> TimeLt(now, when))
      && (!y'.waiters[t].blocked ==> y'.waiters[t].ret == ERR_TIMED_OUT)
  {
    hide Inv, Enabled, Step, TimerQueue.Fits, Near, Sorted, TimeLt, Abs, DoTick;
    KernelRefinesSync(s, TimerTick(now));
    AbsOk(s);
    TickReleases(Abs(s), s.timers, now, t);
    FiresWhenDue(s, now, base, t, when);
  }
}
