/** Every step of the kernel keeps its invariant. */
module KernelProofs {
  import opened Words
  import opened RunQueues
  import opened TimerQueue
  import opened KernelState
  import opened KernelOps
  import opened KernelCalls
  import opened KernelInv
  import opened KernelSteps
  import opened KernelSide

  // ---- entering and leaving -----------------------------------------------

  /** Counts and the mask may change while the thread is outside the kernel. */
  lemma CountsBusy(s: Kernel, s': Kernel)
    requires Busy(s) && s' == s.(cs := s'.cs, masked := s'.masked) && s'.cs >= 0
    ensures Busy(s')
  {
    GoodFrame(s, s');
    SideFrame(s, s');
  }

  lemma EnterBusy(s: Kernel)
    requires Busy(s)
    ensures Busy(Enter(s)) && Enter(s).cs == s.cs + 1 && s.cs >= 0
  {
    assert ThreadOk(s.threads[s.current], true, s.cs);
    CountsBusy(s, Enter(s));
  }

  lemma {:induction false} ExitNCounts(s: Kernel, n: nat)
    ensures ExitN(s, n) == s.(cs := s.cs - n, masked := ExitN(s, n).masked)
    decreases n
  {
    if n > 0 {
      ExitNCounts(KernelOps.Exit(s), n - 1);
    }
  }

  lemma ExitBusy(s: Kernel, n: nat)
    requires Busy(s) && n <= s.cs
    ensures Busy(ExitN(s, n))
    ensures n == 1 ==> Busy(KernelOps.Exit(s))
  {
    ExitNCounts(s, n);
    CountsBusy(s, ExitN(s, n));
    if n == 1 {
      CountsBusy(s, KernelOps.Exit(s));
    }
  }

  // ---- leaving the CPU ----------------------------------------------------

  /** A thread that has stopped running hands the CPU over. */
  lemma ReschedInv(s: Kernel)
    requires Good(s) && Side(s) && !s.threads[s.current].state.Running?
    ensures Inv(Resched(s))
  {
    IdleIsReady(s);
    ReschedGood(s);
    SideFrame(s, Resched(s));
  }

  lemma ParkSide(s: Kernel, k: Cont, quantum: int, head: bool)
    requires Busy(s) && !k.InWait?
    ensures Side(Parked(s, k, quantum, head))
  {
    ParkView(s, k, quantum, head);
    SideFrame(s, Parked(s, k, quantum, head));
  }

  lemma ParkInv(s: Kernel, k: Cont, quantum: int, head: bool)
    requires Busy(s)
    requires 1 <= k.Exits() <= s.cs && !k.InWait? && !k.Dead? && !k.User?
    requires k.InWake? ==> k.depth > 0
    requires s.current == s.idle ==> k.InPreempt?
    ensures Inv(Resched(Parked(s, k, quantum, head)))
  {
    ParkGood(s, k, quantum, head);
    ParkSide(s, k, quantum, head);
    ReschedInv(Parked(s, k, quantum, head));
  }

  lemma YieldInv(s: Kernel)
    requires Busy(s) && s.current != s.idle
    ensures Inv(ThreadYield(s))
  {
    EnterBusy(s);
    ParkInv(Enter(s), InYield, 0, false);
  }

  lemma PreemptInv(s: Kernel)
    requires Busy(s) && s.cs >= 1
    ensures Inv(ThreadPreempt(s))
  {
    EnterBusy(s);
    var e := Enter(s);
    var th := s.threads[s.current];
    assert SetCont(e, InPreempt) == SetThread(e, s.current, th.(quantum := th.quantum, cont := InPreempt));
    ParkInv(e, InPreempt, th.quantum, th.quantum > 0);
  }

  // ---- thread_resume, thread_create, thread_set_priority -------------------

  lemma StartReady(s: Kernel, t: Tid)
    requires Busy(s) && t in s.threads && s.threads[t].state.Suspended?
    ensures Busy(MakeReady(s, t, true))
    ensures MakeReady(s, t, true).threads[s.current] == s.threads[s.current]
  {
    assert ThreadOk(s.threads[t], t == s.current, Depth(s, t)) && RoleOk(s, t, s.threads[t]);
    var th := s.threads[t].(state := Ready);
    var s' := MakeReady(s, t, true);
    MakeReadyCore(s, t, true);
    TimersFit(s.timers, s.threads, t);
    ThreadUpdate(s, s', t, th);
    ViewSame(s.threads, t, th);
    SideFrame(s, s');
  }

  lemma ResumeInv(s: Kernel, t: Tid)
    requires Busy(s) && s.current != s.idle && t in s.threads
    requires s.threads[t].state.Suspended? || s.threads[t].state.Ready? || s.threads[t].state.Running?
    ensures Inv(ThreadResume(s, t).0)
  {
    if s.threads[t].state.Suspended? {
      EnterBusy(s);
      StartReady(Enter(s), t);
      ResumeShape(s, t);
      YieldInResume(MakeReady(Enter(s), t, true));
    }
  }

  lemma ResumeShape(s: Kernel, t: Tid)
    requires OnCpu(s) && t in s.threads && s.threads[t].state.Suspended?
    ensures
      var s1 := MakeReady(Enter(s), t, true);
      && s1.current in s1.threads && s1.threads[s1.current].priority < |s1.rq.queue|
      && ThreadResume(s, t) == (Resched(Parked(Enter(s1), InResume, 0, false)), NO_ERROR)
  {
  }

  lemma YieldInResume(s: Kernel)
    requires Busy(s) && s.cs >= 1 && s.current != s.idle
    ensures Inv(Resched(Parked(Enter(s), InResume, 0, false)))
  {
    EnterBusy(s);
    ParkInv(Enter(s), InResume, 0, false);
  }

  lemma CreateCore(s: Kernel, t: Tid, priority: nat)
    requires Core(s) && t !in s.threads && priority < NUM_PRIORITIES
    ensures Core(ThreadCreate(s, t, priority))
  {
    var th := Thread(priority, Suspended, 1, 0, None, NO_ERROR, Start);
    QueuesFrame(s.rq.queue, s.threads, t, th);
    WaitsFrame(s.waits, s.threads, t, th);
  }

  lemma CreateThreads(s: Kernel, t: Tid, priority: nat)
    requires ThreadsOk(s) && DomainOk(s) && s.current in s.threads && t !in s.threads && priority < NUM_PRIORITIES
    ensures ThreadsOk(ThreadCreate(s, t, priority)) && DomainOk(ThreadCreate(s, t, priority))
  {
    var s' := ThreadCreate(s, t, priority);
    forall u | u in s'.threads
      ensures ThreadOk(s'.threads[u], u == s'.current, Depth(s', u)) && RoleOk(s', u, s'.threads[u])
    {
      if u != t {
        assert ThreadOk(s.threads[u], u == s.current, Depth(s, u)) && RoleOk(s, u, s.threads[u]);
      }
    }
    DomainThread(s, s', t, s'.threads[t]);
  }

  lemma CreateTimers(timers: seq<Entry<ThreadTimer>>, threads: map<Tid, Thread>, t: Tid, th: Thread)
    requires TimersGood(timers, threads) && t !in threads && th.state.Suspended?
    ensures TimersGood(timers, threads[t := th])
  {
  }

  lemma CreateInv(s: Kernel, t: Tid, priority: nat)
    requires Busy(s) && t !in s.threads && priority < NUM_PRIORITIES
    ensures Busy(ThreadCreate(s, t, priority))
  {
    var th := Thread(priority, Suspended, 1, 0, None, NO_ERROR, Start);
    CreateCore(s, t, priority);
    CreateThreads(s, t, priority);
    CreateTimers(s.timers, s.threads, t, th);
    ViewSame(s.threads, t, th);
    SideFrame(s, ThreadCreate(s, t, priority));
  }

  lemma PriorityInv(s: Kernel, priority: int)
    requires Busy(s)
    ensures Busy(SetPriority(s, priority))
  {
    hide QueuesOk, Side;
    var s' := SetPriority(s, priority);
    var th := s'.threads[s.current];
    QueuesFrame(s.rq.queue, s.threads, s.current, th);
    WaitsFrame(s.waits, s.threads, s.current, th);
    TimersFit(s.timers, s.threads, s.current);
    assert RoleOk(s, s.current, s.threads[s.current]);
    ThreadUpdate(s, s', s.current, th);
    ViewSame(s.threads, s.current, th);
    SideFrame(s, s');
  }

  // ---- blocking: thread_sleep and wait_queue_block -------------------------

  lemma InsertQueued(q: seq<Entry<ThreadTimer>>, e: Entry<ThreadTimer>)
    ensures
      var r := Insert(q, e);
      && (forall b :: Queued(r, b) <==> b == e.body || Queued(q, b))
      && (forall i | 0 <= i < |r| :: r[i] == e || r[i] in q)
  {
    var k := Position(q, e.when);
    var r := Insert(q, e);
    assert r[k] == e;
    forall b | Queued(q, b) ensures Queued(r, b) {
      var i :| 0 <= i < |q| && q[i].body == b;
      assert r[if i < k then i else i + 1] == q[i];
    }
  }

  lemma InsertDistinct(timers: seq<Entry<ThreadTimer>>, e: Entry<ThreadTimer>)
    requires forall i, j | 0 <= i < j < |timers| :: timers[i].body.t != timers[j].body.t
    requires forall i | 0 <= i < |timers| :: timers[i].body.t != e.body.t
    ensures
      var r := Insert(timers, e);
      forall i, j | 0 <= i < j < |r| :: r[i].body.t != r[j].body.t
  {
    var k := Position(timers, e.when);
    var r := Insert(timers, e);
    forall i, j | 0 <= i < j < |r| ensures r[i].body.t != r[j].body.t {
      assert i != k ==> r[i] == timers[if i < k then i else i - 1];
      assert j != k ==> r[j] == timers[if j < k then j else j - 1];
    }
  }

  /** A thread without a timer gets one. */
  lemma TimersInsert(timers: seq<Entry<ThreadTimer>>, threads: map<Tid, Thread>, th: Thread, e: Entry<ThreadTimer>)
    requires TimersGood(timers, threads) && e.body.t in threads
    requires forall i | 0 <= i < |timers| :: timers[i].body.t != e.body.t
    requires e.body.Wakeup? <==> th.state.Sleeping?
    requires e.body.Timeout? <==> th.cont.InWait? && th.cont.timed
    ensures TimersGood(Insert(timers, e), threads[e.body.t := th])
  {
    InsertQueued(timers, e);
    InsertDistinct(timers, e);
    TimersOkInsert(timers, threads, th, e);
  }

  lemma TimersOkInsert(timers: seq<Entry<ThreadTimer>>, threads: map<Tid, Thread>, th: Thread, e: Entry<ThreadTimer>)
    requires TimersOk(timers, threads) && e.body.t in threads
    requires forall i | 0 <= i < |timers| :: timers[i].body.t != e.body.t
    requires e.body.Wakeup? ==> th.state.Sleeping?
    requires e.body.Timeout? ==> th.cont.InWait? && th.cont.timed
    ensures TimersOk(Insert(timers, e), threads[e.body.t := th])
  {
    InsertDistinct(timers, e);
    var r := Insert(timers, e);
    var k := Position(timers, e.when);
    forall i | 0 <= i < |r| ensures r[i] == e || exists j | 0 <= j < |timers| :: r[i] == timers[j] {
      assert i != k ==> r[i] == timers[if i < k then i else i - 1];
    }
  }

  /** The current thread changes state or continuation, together with the wait queues and the timers. */
  lemma StopGood(s: Kernel, s': Kernel, th: Thread)
    requires Good(s)
    requires Core(s') && s'.threads == s.threads[s.current := th] && s'.waits.Keys == s.waits.Keys
    requires s' == s.(threads := s'.threads, waits := s'.waits, timers := s'.timers, cs := s'.cs, masked := s'.masked)
    requires TimersGood(s'.timers, s'.threads)
    requires ThreadOk(th, true, s'.cs) && RoleOk(s, s.current, th)
    requires th.cont.InWait? ==> th.cont.w in s.waits
    ensures Good(s')
  {
    StopThreads(s, s', th);
    DomainThread(s.(timers := s'.timers), s', s.current, th);
  }

  lemma StopThreads(s: Kernel, s': Kernel, th: Thread)
    requires ThreadsOk(s) && s.current in s.threads
    requires s'.threads == s.threads[s.current := th]
    requires s' == s.(threads := s'.threads, waits := s'.waits, timers := s'.timers, cs := s'.cs, masked := s'.masked)
    requires ThreadOk(th, true, s'.cs) && RoleOk(s, s.current, th)
    ensures ThreadsOk(s')
  {
    forall t | t in s'.threads
      ensures ThreadOk(s'.threads[t], t == s'.current, Depth(s', t)) && RoleOk(s', t, s'.threads[t])
    {
      if t != s.current {
        assert ThreadOk(s.threads[t], t == s.current, Depth(s, t)) && RoleOk(s, t, s.threads[t]);
      }
    }
  }

  /** The state in which thread_sleep reaches the switch. */
  function Asleep(s: Kernel, when: Word): Kernel
    requires s.current in s.threads
  {
    SetThread(Enter(s).(timers := Insert(s.timers, Entry(when, Wakeup(s.current)))), s.current,
              s.threads[s.current].(state := Sleeping, cont := InSleep))
  }

  lemma AsleepCore(s: Kernel, when: Word)
    requires OnCpu(s)
    ensures Core(Asleep(s, when))
  {
    var th := s.threads[s.current].(state := Sleeping, cont := InSleep);
    QueuesFrame(s.rq.queue, s.threads, s.current, th);
    WaitsFrame(s.waits, s.threads, s.current, th);
  }

  lemma AsleepTimers(s: Kernel, when: Word)
    requires TimersGood(s.timers, s.threads) && s.current in s.threads
    requires s.threads[s.current].state.Running? && s.threads[s.current].cont.User?
    ensures TimersGood(Asleep(s, when).timers, Asleep(s, when).threads)
  {
    TimersInsert(s.timers, s.threads, Asleep(s, when).threads[s.current], Entry(when, Wakeup(s.current)));
  }

  lemma AsleepGood(s: Kernel, when: Word)
    requires Good(s) && s.threads[s.current].state.Running? && s.threads[s.current].cont.User?
    requires s.current != s.idle
    ensures Good(Asleep(s, when))
  {
    hide QueuesOk, WaitsOk, TimersGood, DomainOk;
    assert ThreadOk(s.threads[s.current], true, s.cs) && RoleOk(s, s.current, s.threads[s.current]);
    AsleepCore(s, when);
    AsleepTimers(s, when);
    StopGood(s, Asleep(s, when), Asleep(s, when).threads[s.current]);
  }

  lemma SleepInv(s: Kernel, delay: Word, now: Word)
    requires Busy(s) && s.current != s.idle
    ensures Inv(ThreadSleep(s, delay, now))
  {
    var when := Add(now, if delay == 0 then 1 else delay);
    var s' := Asleep(s, when);
    AsleepGood(s, when);
    ViewSame(s.threads, s.current, s'.threads[s.current]);
    SideFrame(s, s');
    ReschedInv(s');
  }

  /** The state in which wait_queue_block reaches the switch. */
  function Stopped(s: Kernel, w: WaitId, timeout: Word, now: Word): Kernel
    requires s.current in s.threads && w in s.waits
  {
    var timed := timeout != INFINITE_TIME;
    var th := s.threads[s.current].(cont := InWait(w, timed), state := Blocked, blockedOn := Some(w), blockRet := NO_ERROR);
    Enter(s).(
      threads := s.threads[s.current := th],
      waits := s.waits[w := WaitQueue(s.waits[w].list + [s.current], s.waits[w].count + 1)],
      timers := if timed then Insert(s.timers, Entry(Add(now, timeout), Timeout(s.current))) else s.timers)
  }

  lemma BlockShape(s: Kernel, w: WaitId, timeout: Word, now: Word)
    requires s.current in s.threads && w in s.waits
    ensures Block(s, w, timeout, now) == Resched(Stopped(s, w, timeout, now))
  {
    var timed := timeout != INFINITE_TIME;
    var s1 := Enqueue(SetCont(s, InWait(w, timed)), w);
    assert s1.threads == Stopped(s, w, timeout, now).threads;
  }

  lemma StoppedCore(s: Kernel, w: WaitId, timeout: Word, now: Word)
    requires OnCpu(s) && w in s.waits
    ensures Core(Stopped(s, w, timeout, now))
  {
    var s' := Stopped(s, w, timeout, now);
    QueuesFrame(s.rq.queue, s.threads, s.current, s'.threads[s.current]);
    WaitsAppend(s.waits, s.threads, w, s.current, s'.threads[s.current]);
  }

  lemma StoppedGood(s: Kernel, w: WaitId, timeout: Word, now: Word)
    requires Good(s) && s.threads[s.current].state.Running? && s.threads[s.current].cont.User?
    requires w in s.waits && s.cs >= 1 && s.current != s.idle
    requires w == OfEvent(DPC_EVENT) ==> s.current == s.dpcThread && timeout == INFINITE_TIME && s.dpcPc.AtWait?
    ensures Good(Stopped(s, w, timeout, now))
  {
    var s' := Stopped(s, w, timeout, now);
    var th := s'.threads[s.current];
    StoppedCore(s, w, timeout, now);
    StoppedTimers(s, w, timeout, now);
    StoppedEffect(s, w, timeout, now);
    assert RoleOk(s, s.current, s.threads[s.current]);
    StopGood(s, s', th);
  }

  lemma StoppedEffect(s: Kernel, w: WaitId, timeout: Word, now: Word)
    requires s.current in s.threads && w in s.waits && s.cs >= 1
    ensures
      var s' := Stopped(s, w, timeout, now);
      && s'.waits.Keys == s.waits.Keys && s'.threads == s.threads[s.current := s'.threads[s.current]]
      && s' == s.(threads := s'.threads, waits := s'.waits, timers := s'.timers, cs := s.cs + 1, masked := s'.masked)
      && ThreadOk(s'.threads[s.current], true, s'.cs)
  {
    assert Stopped(s, w, timeout, now).waits.Keys == s.waits.Keys;
  }

  lemma StoppedTimers(s: Kernel, w: WaitId, timeout: Word, now: Word)
    requires TimersGood(s.timers, s.threads) && s.current in s.threads && w in s.waits
    requires s.threads[s.current].state.Running? && s.threads[s.current].cont.User?
    ensures TimersGood(Stopped(s, w, timeout, now).timers, Stopped(s, w, timeout, now).threads)
  {
    var th := Stopped(s, w, timeout, now).threads[s.current];
    TimersFit(s.timers, s.threads, s.current);
    if timeout != INFINITE_TIME {
      TimersInsert(s.timers, s.threads, th, Entry(Add(now, timeout), Timeout(s.current)));
    } else {
      TimersUpdate(s.timers, s.threads, s.current, th);
    }
  }

  lemma StoppedView(s: Kernel, w: WaitId, timeout: Word, now: Word)
    requires s.current in s.threads && w in s.waits
    requires s.threads[s.current].state.Running? && s.threads[s.current].cont.User?
    ensures
      var v := ViewOf(s.threads);
      && s.current !in v.waiters
      && ViewOf(Stopped(s, w, timeout, now).threads) ==
         v.(waiters := v.waiters[s.current := Waiter(w, timeout != INFINITE_TIME, true, NO_ERROR)])
  {
    ViewUpdate(s.threads, s.current, Stopped(s, w, timeout, now).threads[s.current]);
  }

  /** Blocking on a mutex whose count has already been raised. */
  lemma BlockOnMutexSide(s: Kernel, m: nat, timeout: Word, now: Word)
    requires Side(s) && m in s.mutexes && OfMutex(m) in s.waits
    requires s.current in s.threads && s.threads[s.current].state.Running? && s.threads[s.current].cont.User?
    ensures
      var mx := s.mutexes[m];
      var s1 := SetMutex(s, m, mx.count + 1, mx.holder);
      Side(Stopped(s1, OfMutex(m), timeout, now))
  {
    var mx := s.mutexes[m];
    var s1 := SetMutex(s, m, mx.count + 1, mx.holder);
    var s' := Stopped(s1, OfMutex(m), timeout, now);
    StoppedView(s1, OfMutex(m), timeout, now);
    var W := ViewOf(s.threads).waiters;
    MutexJoin(mx, m, W, s.current, timeout != INFINITE_TIME);
    MutexesOther(s.mutexes, s1.mutexes, W, ViewOf(s'.threads).waiters, OfMutex(m));
  }

  lemma BlockOnEventSide(s: Kernel, e: nat, timeout: Word, now: Word)
    requires Side(s) && e in s.events && OfEvent(e) in s.waits && !s.events[e].signalled
    requires s.current in s.threads && s.threads[s.current].state.Running? && s.threads[s.current].cont.User?
    ensures Side(Stopped(s, OfEvent(e), timeout, now))
  {
    var s' := Stopped(s, OfEvent(e), timeout, now);
    StoppedView(s, OfEvent(e), timeout, now);
    MutexesOther(s.mutexes, s.mutexes, ViewOf(s.threads).waiters, ViewOf(s'.threads).waiters, OfEvent(e));
  }
}
