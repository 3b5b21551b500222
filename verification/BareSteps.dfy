/** Steps of the kernel seen without its run queues: the thread with the highest
    priority comes next, whatever the queues and the bitmap look like. */
module BareSteps {
  import opened Words
  import opened RunQueues
  import opened TimerQueue
  import opened KernelState
  import opened KernelOps
  import opened KernelCalls
  import opened KernelInv
  import opened KernelSteps
  import opened KernelProofs
  import opened KernelSyncProofs
  import opened KernelTickProofs

  /** The state with its run queues left out. */
  function Bare(s: Kernel): Kernel {
    s.(rq := RunQueue([], 0))
  }

  /** `t` is ready, and every other ready thread has a lower priority. */
  predicate Highest(threads: map<Tid, Thread>, t: Tid) {
    && t in threads && threads[t].state.Ready?
    && forall u | u in threads && u != t && threads[u].state.Ready? :: threads[u].priority < threads[t].priority
  }

  /** The switch to `t`. */
  function SwitchTo(x: Kernel, t: Tid): Kernel
    requires t in x.threads && x.current in x.threads
  {
    var th := x.threads[t].(state := Running);
    if t == x.current then x.(threads := x.threads[t := th]) else
    var incoming := th.(quantum := if th.quantum <= 0 then 5 else th.quantum);
    x.(threads := x.threads[t := incoming][x.current := x.threads[x.current].(savedCs := x.cs)],
       current := t, cs := th.savedCs)
  }

  lemma Picks(x: Kernel, t: Tid)
    requires Core(x) && !x.threads[x.current].state.Running? && Highest(x.threads, t)
    ensures Bare(Resched(x)) == SwitchTo(Bare(x), t)
  {
    hide QueuesOk, WaitsOk, Indexed, NextQueue, PopFrom;
    ReschedAssertions(x);
    assert Next(x) == t;
  }

  // ---- steps without a switch ---------------------------------------------

  lemma {:induction false} BareExitN(s: Kernel, n: nat)
    ensures Bare(ExitN(s, n)) == ExitN(Bare(s), n)
    decreases n
  {
    if n > 0 {
      BareExitN(KernelOps.Exit(s), n - 1);
    }
  }

  /** A thread that was not waiting goes on. */
  function GoOn(s: Kernel): Kernel
    requires s.current in s.threads
  {
    var k := s.threads[s.current].cont;
    if k.InPreempt? then SetCont(s, User).(cs := s.cs - 2, masked := false) else ExitN(SetCont(s, User), k.Exits())
  }

  lemma BareProceed(s: Kernel)
    requires Inv(s) && Enabled(s, Proceed) && !s.threads[s.current].cont.InWait?
    ensures Bare(Step(s, Proceed)) == GoOn(Bare(s))
  {
    hide QueuesOk, WaitsOk, ThreadsOk, TimersGood, Side, ExitN;
    var k := s.threads[s.current].cont;
    if !k.InPreempt? {
      BareExitN(SetCont(s, User), k.Exits());
      assert Bare(SetCont(s, User)) == SetCont(Bare(s), User);
    }
  }

  lemma BareCreate(s: Kernel, t: Tid, priority: nat)
    requires Inv(s) && Enabled(s, Create(t, priority))
    ensures Bare(Step(s, Create(t, priority))) == ThreadCreate(Bare(s), t, priority)
  {
    hide Good, Side;
  }

  lemma BareAcquire(s: Kernel, m: nat, timeout: Word, now: Word)
    requires Inv(s) && Enabled(s, Acquire(m, timeout, now)) && s.mutexes[m].count == 0
    ensures Bare(Step(s, Acquire(m, timeout, now))) == Bare(s).(mutexes := s.mutexes[m := Mutex(1, Some(s.current))],
                                                               masked := if s.cs == 0 then false else s.masked)
  {
    hide QueuesOk, WaitsOk, ThreadsOk, TimersGood, Side;
  }

  // ---- steps that give up the CPU -----------------------------------------

  lemma BareBlock(s: Kernel, w: WaitId, timeout: Word, now: Word, t: Tid)
    requires OnCpu(s) && w in s.waits && Highest(Stopped(s, w, timeout, now).threads, t)
    ensures Bare(Block(s, w, timeout, now)) == SwitchTo(Stopped(Bare(s), w, timeout, now), t)
  {
    hide QueuesOk, WaitsOk, Resched, Block, Highest;
    BlockShape(s, w, timeout, now);
    StoppedCore(s, w, timeout, now);
    assert Bare(Stopped(s, w, timeout, now)) == Stopped(Bare(s), w, timeout, now);
    Picks(Stopped(s, w, timeout, now), t);
  }

  lemma BareWait(s: Kernel, e: nat, timeout: Word, now: Word, t: Tid)
    requires Inv(s) && Enabled(s, Wait(e, timeout, now)) && !s.events[e].signalled && timeout != 0
    requires OfEvent(e) in s.waits && Highest(Stopped(Enter(s), OfEvent(e), timeout, now).threads, t)
    ensures Bare(Step(s, Wait(e, timeout, now))) == SwitchTo(Stopped(Enter(Bare(s)), OfEvent(e), timeout, now), t)
  {
    hide QueuesOk, WaitsOk, ThreadsOk, TimersGood, Side, Block, Highest, Stopped, SwitchTo;
    CoreFrame(s, Enter(s));
    BareBlock(Enter(s), OfEvent(e), timeout, now, t);
    assert Bare(Enter(s)) == Enter(Bare(s));
  }

  lemma BareDpcWait(s: Kernel, t: Tid)
    requires Inv(s) && Enabled(s, DpcWait) && !s.events[DPC_EVENT].signalled && OfEvent(DPC_EVENT) in s.waits
    requires Highest(Stopped(Enter(s), OfEvent(DPC_EVENT), INFINITE_TIME, 0).threads, t)
    ensures Bare(Step(s, DpcWait)) == SwitchTo(Stopped(Enter(Bare(s)), OfEvent(DPC_EVENT), INFINITE_TIME, 0), t)
  {
    hide QueuesOk, WaitsOk, ThreadsOk, TimersGood, Side, Block, Highest, Stopped, SwitchTo;
    CoreFrame(s, Enter(s));
    BareBlock(Enter(s), OfEvent(DPC_EVENT), INFINITE_TIME, 0, t);
    assert Bare(Enter(s)) == Enter(Bare(s));
  }

  /** An acquire that finds the mutex taken, before it blocks. */
  function Joining(s: Kernel, m: nat): Kernel
    requires m in s.mutexes
  {
    SetMutex(Enter(s), m, s.mutexes[m].count + 1, s.mutexes[m].holder)
  }

  lemma BareAcquireBlocks(s: Kernel, m: nat, timeout: Word, now: Word, t: Tid)
    requires Inv(s) && Enabled(s, Acquire(m, timeout, now)) && s.mutexes[m].count > 0 && timeout != 0
    requires OfMutex(m) in s.waits && Highest(Stopped(Joining(s, m), OfMutex(m), timeout, now).threads, t)
    ensures Bare(Step(s, Acquire(m, timeout, now))) == SwitchTo(Stopped(Joining(Bare(s), m), OfMutex(m), timeout, now), t)
  {
    hide QueuesOk, WaitsOk, ThreadsOk, TimersGood, Side, Block, Highest, Stopped, SwitchTo;
    CoreFrame(s, Joining(s, m));
    BareBlock(Joining(s, m), OfMutex(m), timeout, now, t);
    assert Bare(Joining(s, m)) == Joining(Bare(s), m);
  }

  lemma BareSleep(s: Kernel, delay: Word, now: Word, t: Tid)
    requires Inv(s) && Enabled(s, Sleep(delay, now)) && delay > 0 && Highest(Asleep(s, Add(now, delay)).threads, t)
    ensures Bare(Step(s, Sleep(delay, now))) == SwitchTo(Asleep(Bare(s), Add(now, delay)), t)
  {
    hide QueuesOk, WaitsOk, ThreadsOk, TimersGood, Side, Resched, Highest;
    AsleepCore(s, Add(now, delay));
    Picks(Asleep(s, Add(now, delay)), t);
    assert Bare(Asleep(s, Add(now, delay))) == Asleep(Bare(s), Add(now, delay));
  }

  /** The current thread ready again, to continue with `k`. */
  function Set(s: Kernel, k: Cont, quantum: int): Kernel
    requires s.current in s.threads
  {
    SetThread(s, s.current, s.threads[s.current].(state := Ready, quantum := quantum, cont := k))
  }

  lemma BareParked(s: Kernel, k: Cont, quantum: int, head: bool, t: Tid)
    requires OnCpu(s) && Highest(Set(s, k, quantum).threads, t)
    ensures Bare(Resched(Parked(s, k, quantum, head))) == SwitchTo(Set(Bare(s), k, quantum), t)
  {
    hide QueuesOk, WaitsOk, Resched, PushHead, PushTail;
    ParkedCore(s, k, quantum, head);
    assert Parked(s, k, quantum, head).threads == Set(s, k, quantum).threads;
    Picks(Parked(s, k, quantum, head), t);
    assert Bare(Parked(s, k, quantum, head)) == Set(Bare(s), k, quantum);
  }

  /** thread_resume of `u`, up to its yield. */
  function Resumed(s: Kernel, u: Tid): Kernel
    requires u in s.threads
  {
    SetThread(Enter(Enter(s)), u, s.threads[u].(state := Ready))
  }

  lemma BareResume(s: Kernel, u: Tid, t: Tid)
    requires Inv(s) && Enabled(s, Resume(u)) && s.threads[u].state.Suspended? && s.current in Resumed(s, u).threads
    requires Highest(Set(Resumed(s, u), InResume, 0).threads, t)
    ensures Bare(Step(s, Resume(u))) == SwitchTo(Set(Resumed(Bare(s), u), InResume, 0), t)
  {
    hide QueuesOk, WaitsOk, ThreadsOk, TimersGood, Side, Resched, Parked, SwitchTo, PushHead, PushTail, Highest;
    CoreFrame(s, Enter(s));
    MakeReadyCore(Enter(s), u, true);
    var s1 := MakeReady(Enter(s), u, true);
    CoreFrame(s1, Enter(s1));
    ResumeShape(s, u);
    assert Enter(s1).threads == Resumed(s, u).threads && Bare(Enter(s1)) == Resumed(Bare(s), u);
    BareParked(Enter(s1), InResume, 0, false, t);
  }

  // ---- the timer interrupt ------------------------------------------------

  /** The timer of a sleeping thread fires. */
  function Awake(s: Kernel, t: Tid): Kernel
    requires t in s.threads
  {
    SetThread(s, t, s.threads[t].(state := Ready))
  }

  /** The timeout of the only waiter of `w` fires. */
  function GivesUp(s: Kernel, w: WaitId, t: Tid): Kernel
    requires t in s.threads
  {
    SetThread(s, t, s.threads[t].(state := Ready, blockedOn := None, blockRet := ERR_TIMED_OUT))
      .(waits := s.waits[w := WaitQueue([], 0)])
  }

  lemma BareWakeup(s: Kernel, t: Tid)
    requires Core(s) && t in s.threads
    ensures Bare(Fire(s, Wakeup(t))) == Awake(Bare(s), t)
  {
    hide QueuesOk, WaitsOk, PushHead, PushTail;
  }

  lemma BareTimeout(s: Kernel, w: WaitId, t: Tid)
    requires Core(s) && s.cs > 0 && w in s.waits && s.waits[w] == WaitQueue([t], 1)
    requires t in s.threads && s.threads[t].state.Blocked? && s.threads[t].blockedOn == Some(w)
    ensures Bare(Fire(s, Timeout(t))) == GivesUp(Bare(s), w, t)
  {
    hide QueuesOk, PushHead, PushTail;
    assert WaitOk(s.waits[w], w, s.threads);
    var x := Release(Enter(s), w, 0, ERR_TIMED_OUT);
    assert x.threads == GivesUp(s, w, t).threads;
    assert [t][..0] + [t][1..] == [];
    assert Fire(s, Timeout(t)) == KernelOps.Exit(x);
  }

  lemma BarePreempt(s: Kernel, t: Tid)
    requires OnCpu(s) && Highest(Set(Enter(s), InPreempt, s.threads[s.current].quantum).threads, t)
    ensures Bare(ThreadPreempt(s)) == SwitchTo(Set(Enter(Bare(s)), InPreempt, s.threads[s.current].quantum), t)
  {
    hide QueuesOk, WaitsOk, Resched, SwitchTo, PushHead, PushTail, Highest;
    CoreFrame(s, Enter(s));
    var q := s.threads[s.current].quantum;
    assert SetCont(Enter(s), InPreempt) == SetThread(Enter(s), s.current, s.threads[s.current].(quantum := q, cont := InPreempt));
    assert ThreadPreempt(s) == Resched(Parked(Enter(s), InPreempt, q, q > 0));
    BareParked(Enter(s), InPreempt, q, q > 0, t);
    assert Bare(Enter(s)) == Enter(Bare(s));
  }

  /** A timer interrupt on the idle thread, once the due timers have brought the
      state to `f`; the highest ready thread is next. */
  lemma BareTick(s: Kernel, now: Word, f: Kernel, t: Tid)
    requires Inv(s) && Enabled(s, TimerTick(now))
    requires Core(Interrupted(s)) && Bare(FireDue(Interrupted(s), now)) == f && f.current == f.idle && f.current in f.threads
    requires Highest(Set(Enter(f), InPreempt, f.threads[f.current].quantum).threads, t)
    ensures Bare(Step(s, TimerTick(now))) == SwitchTo(Set(Enter(f), InPreempt, f.threads[f.current].quantum), t)
  {
    hide QueuesOk, WaitsOk, ThreadsOk, DomainOk, Side, FireDue, ThreadPreempt, SwitchTo, Highest;
    NoOwnTimer(s);
    TickShape(s, now);
    var x := FireDue(Interrupted(s), now);
    assert QuantumTick(x) == x;
    BarePreempt(x, t);
  }
}
