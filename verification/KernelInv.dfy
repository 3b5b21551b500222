/** The part of the kernel's invariant that speaks of one thread at a time, and
    the proof that every primitive keeps it. */
module KernelInv {
  import opened Words
  import opened RunQueues
  import opened TimerQueue
  import opened KernelState
  import opened KernelOps
  import opened KernelCalls

  // ---- the invariant ------------------------------------------------------

  /** The critical-section count of a thread: live for the current one, saved for the others. */
  function Depth(s: Kernel, t: Tid): int
    requires t in s.threads
  {
    if t == s.current then s.cs else s.threads[t].savedCs
  }

  /** A thread's state agrees with where it continues, it is as many critical
      sections deep as it will leave, and a released waiter carries a releaser's code. */
  ghost predicate ThreadOk(th: Thread, current: bool, depth: int) {
    && (match th.state
        case Suspended => th.cont == Start
        case Ready => !th.cont.User? && !th.cont.Dead?
        case Running => current && !th.cont.Dead?
        case Blocked => th.blockedOn.Some? && th.cont.InWait? && th.cont.w == th.blockedOn.value
        case Sleeping => th.cont == InSleep
        case Death => th.cont == Dead)
    && depth >= th.cont.Exits()
    && (th.cont.InWake? ==> th.cont.depth > 0)
    && (th.cont.InWait? && !th.state.Blocked? ==>
          th.blockRet == NO_ERROR || (th.blockRet == ERR_TIMED_OUT && th.cont.timed))
  }

  /** The idle thread never leaves the run queues, the deferred-call thread
      never exits, and only the latter waits, untimed, on its private event. */
  ghost predicate RoleOk(s: Kernel, t: Tid, th: Thread) {
    && (t == s.idle ==> (th.state.Ready? || th.state.Running?) && (th.cont.User? || th.cont.InPreempt?))
    && (t == s.dpcThread ==> !th.state.Death?)
    && (th.cont.InWait? && th.cont.w == OfEvent(DPC_EVENT) ==>
          t == s.dpcThread && !th.cont.timed && s.dpcPc.AtWait?)
  }

  ghost predicate ThreadsOk(s: Kernel) {
    forall t | t in s.threads ::
      ThreadOk(s.threads[t], t == s.current, Depth(s, t)) && RoleOk(s, t, s.threads[t])
  }

  ghost predicate Queued(timers: seq<Entry<ThreadTimer>>, b: ThreadTimer) {
    exists i | 0 <= i < |timers| :: timers[i].body == b
  }

  /** A sleeper and a timed waiter that is still blocked have their timer queued. */
  ghost predicate TimersGood(timers: seq<Entry<ThreadTimer>>, threads: map<Tid, Thread>) {
    && TimersOk(timers, threads)
    && (forall t | t in threads && threads[t].state.Sleeping? :: Queued(timers, Wakeup(t)))
    && (forall t | t in threads && threads[t].state.Blocked? && threads[t].cont.InWait? && threads[t].cont.timed ::
          Queued(timers, Timeout(t)))
  }

  /** Every wait queue in use belongs to a mutex or an event in use. */
  ghost predicate DomainOk(s: Kernel) {
    && (forall m | m in s.mutexes :: OfMutex(m) in s.waits)
    && (forall e | e in s.events :: OfEvent(e) in s.waits)
    && (forall m | OfMutex(m) in s.waits :: m in s.mutexes)
    && (forall e | OfEvent(e) in s.waits :: e in s.events)
    && (forall t | t in s.threads && s.threads[t].cont.InWait? :: s.threads[t].cont.w in s.waits)
    && DPC_EVENT in s.events && !s.events[DPC_EVENT].auto
    && s.idle in s.threads && s.dpcThread in s.threads && s.idle != s.dpcThread
  }

  /** The scheduling invariant together with the thread-local one. */
  ghost predicate Good(s: Kernel) {
    Core(s) && ThreadsOk(s) && TimersGood(s.timers, s.threads) && DomainOk(s)
  }

  // ---- the threads, as the mutex, event and deferred-call layers see them --

  /** A thread inside wait_queue_block: still blocked, or released with `ret`. */
  datatype Waiter = Waiter(w: WaitId, timed: bool, blocked: bool, ret: int)

  datatype View = View(waiters: map<Tid, Waiter>, dead: set<Tid>)

  function WaiterOf(th: Thread): Waiter
    requires th.cont.InWait?
  {
    Waiter(th.cont.w, th.cont.timed, th.state.Blocked?, th.blockRet)
  }

  function ViewOf(threads: map<Tid, Thread>): View {
    View(map t | t in threads && threads[t].cont.InWait? :: WaiterOf(threads[t]),
         set t | t in threads && threads[t].state.Death?)
  }

  // ---- frames -------------------------------------------------------------

  /** The thread timers fit a thread's state and continuation. */
  ghost predicate Fits(timers: seq<Entry<ThreadTimer>>, t: Tid, th: Thread) {
    && (Queued(timers, Wakeup(t)) <==> th.state.Sleeping?)
    && (Queued(timers, Timeout(t)) ==> th.cont.InWait? && th.cont.timed)
    && (th.state.Blocked? && th.cont.InWait? && th.cont.timed ==> Queued(timers, Timeout(t)))
  }

  lemma TimersFit(timers: seq<Entry<ThreadTimer>>, threads: map<Tid, Thread>, t: Tid)
    requires TimersGood(timers, threads) && t in threads
    ensures Fits(timers, t, threads[t])
  {
  }

  lemma TimersUpdate(timers: seq<Entry<ThreadTimer>>, threads: map<Tid, Thread>, t: Tid, th: Thread)
    requires TimersGood(timers, threads) && Fits(timers, t, th)
    ensures TimersGood(timers, threads[t := th])
  {
  }

  lemma ViewUpdate(threads: map<Tid, Thread>, t: Tid, th: Thread)
    ensures
      var v := ViewOf(threads);
      var v' := ViewOf(threads[t := th]);
      && v'.waiters == (if th.cont.InWait? then v.waiters[t := WaiterOf(th)] else v.waiters - {t})
      && v'.dead == (if th.state.Death? then v.dead + {t} else v.dead - {t})
  {
  }

  /** A change to a thread that is outside wait_queue_block and alive, before and after. */
  lemma ViewSame(threads: map<Tid, Thread>, t: Tid, th: Thread)
    requires !th.cont.InWait? && !th.state.Death?
    requires t in threads ==> !threads[t].cont.InWait? && !threads[t].state.Death?
    ensures ViewOf(threads[t := th]) == ViewOf(threads)
  {
    ViewUpdate(threads, t, th);
  }

  /** Same queues, objects and roles; the threads and counts may differ. */
  ghost predicate SameFrame(s: Kernel, s': Kernel) {
    && s'.current == s.current && s'.timers == s.timers && s'.waits.Keys == s.waits.Keys
    && s'.mutexes.Keys == s.mutexes.Keys && s'.events.Keys == s.events.Keys
    && (forall e | e in s.events :: e in s'.events && s'.events[e].auto == s.events[e].auto)
    && s'.idle == s.idle && s'.dpcThread == s.dpcThread && s'.dpcPc == s.dpcPc
  }

  lemma DomainUpdate(s: Kernel, s': Kernel)
    requires DomainOk(s) && s'.waits.Keys == s.waits.Keys
    requires s'.mutexes.Keys == s.mutexes.Keys && s'.events.Keys == s.events.Keys
    requires forall e | e in s.events :: e in s'.events && s'.events[e].auto == s.events[e].auto
    requires s'.idle == s.idle && s'.dpcThread == s.dpcThread
    requires s'.idle in s'.threads && s'.dpcThread in s'.threads
    requires forall t | t in s'.threads && s'.threads[t].cont.InWait? :: s'.threads[t].cont.w in s.waits
    ensures DomainOk(s')
  {
    assert forall m :: m in s'.mutexes <==> m in s'.mutexes.Keys;
    assert forall m :: m in s.mutexes <==> m in s.mutexes.Keys;
    assert forall m :: m in s'.events <==> m in s'.events.Keys;
    assert forall m :: m in s.events <==> m in s.events.Keys;
    assert forall w :: w in s'.waits <==> w in s'.waits.Keys;
    assert forall w :: w in s.waits <==> w in s.waits.Keys;
  }

  lemma DomainThread(s: Kernel, s': Kernel, t: Tid, th: Thread)
    requires DomainOk(s) && SameFrame(s, s') && s'.threads == s.threads[t := th]
    requires th.cont.InWait? ==> th.cont.w in s.waits
    ensures DomainOk(s')
  {
    DomainUpdate(s, s');
  }

  lemma DomainFrame(s: Kernel, s': Kernel)
    requires DomainOk(s) && SameFrame(s, s') && s'.threads == s.threads
    ensures DomainOk(s')
  {
    DomainUpdate(s, s');
  }

  lemma ThreadsFrame(s: Kernel, s': Kernel)
    requires ThreadsOk(s) && SameFrame(s, s') && s'.threads == s.threads && s.current in s.threads
    requires s'.cs >= s.threads[s.current].cont.Exits()
    ensures ThreadsOk(s')
  {
    forall t | t in s'.threads
      ensures ThreadOk(s'.threads[t], t == s'.current, Depth(s', t)) && RoleOk(s', t, s'.threads[t])
    {
      assert ThreadOk(s.threads[t], t == s.current, Depth(s, t)) && RoleOk(s, t, s.threads[t]);
    }
  }

  lemma ThreadsUpdate(s: Kernel, s': Kernel, t: Tid, th: Thread)
    requires ThreadsOk(s) && SameFrame(s, s') && s'.cs == s.cs && t in s.threads && s'.threads == s.threads[t := th]
    requires ThreadOk(th, t == s.current, Depth(s', t)) && RoleOk(s, t, th)
    ensures ThreadsOk(s')
  {
    forall u | u in s'.threads
      ensures ThreadOk(s'.threads[u], u == s'.current, Depth(s', u)) && RoleOk(s', u, s'.threads[u])
    {
      if u != t {
        assert ThreadOk(s.threads[u], u == s.current, Depth(s, u)) && RoleOk(s, u, s.threads[u]);
      }
    }
  }

  /** Counts, flags and deferred calls may change freely as long as the current thread stays deep enough. */
  lemma GoodFrame(s: Kernel, s': Kernel)
    requires Good(s) && SameFrame(s, s') && s'.threads == s.threads && s'.rq == s.rq && s'.waits == s.waits
    requires s'.cs >= s.threads[s.current].cont.Exits()
    ensures Good(s')
  {
    CoreFrame(s, s');
    ThreadsFrame(s, s');
    DomainFrame(s, s');
  }

  /** One thread changes, the queues keep up, and nothing else moves. */
  lemma ThreadUpdate(s: Kernel, s': Kernel, t: Tid, th: Thread)
    requires Good(s) && Core(s') && t in s.threads && SameFrame(s, s') && s'.cs == s.cs
    requires s'.threads == s.threads[t := th]
    requires ThreadOk(th, t == s.current, Depth(s', t)) && RoleOk(s, t, th) && Fits(s.timers, t, th)
    requires th.cont.InWait? ==> th.cont.w in s.waits
    ensures Good(s')
  {
    TimersUpdate(s.timers, s.threads, t, th);
    ThreadsUpdate(s, s', t, th);
    DomainThread(s, s', t, th);
  }

  // ---- putting the current thread aside -----------------------------------

  /** The current thread, in code outside the kernel, is put aside READY with continuation `k`. */
  function Parked(s: Kernel, k: Cont, quantum: int, head: bool): Kernel
    requires s.current in s.threads && s.threads[s.current].priority < |s.rq.queue|
  {
    MakeReady(SetThread(s, s.current, s.threads[s.current].(quantum := quantum, cont := k)), s.current, head)
  }

  lemma ParkedCore(s: Kernel, k: Cont, quantum: int, head: bool)
    requires OnCpu(s)
    ensures Core(Parked(s, k, quantum, head))
  {
    var s1 := SetThread(s, s.current, s.threads[s.current].(quantum := quantum, cont := k));
    CoreFrame(s, s1);
    MakeReadyCore(s1, s.current, head);
  }

  lemma ParkGood(s: Kernel, k: Cont, quantum: int, head: bool)
    requires Good(s) && s.threads[s.current].state.Running? && s.threads[s.current].cont.User?
    requires 1 <= k.Exits() <= s.cs && !k.InWait? && !k.Dead? && !k.User?
    requires k.InWake? ==> k.depth > 0
    requires s.current == s.idle ==> k.InPreempt?
    ensures Good(Parked(s, k, quantum, head))
  {
    ParkedCore(s, k, quantum, head);
    ParkedEffect(s, k, quantum, head);
    LeaveUser(s, Parked(s, k, quantum, head), s.threads[s.current].(quantum := quantum, cont := k, state := Ready));
  }

  lemma ParkedEffect(s: Kernel, k: Cont, quantum: int, head: bool)
    requires s.current in s.threads && s.threads[s.current].priority < |s.rq.queue|
    ensures
      var th := s.threads[s.current].(quantum := quantum, cont := k, state := Ready);
      Parked(s, k, quantum, head) ==
      s.(threads := s.threads[s.current := th], rq := Parked(s, k, quantum, head).rq)
  {
  }

  /** The current thread goes from outside the kernel into a call that is not a wait or a sleep. */
  lemma LeaveUser(s: Kernel, s': Kernel, th: Thread)
    requires Good(s) && s.threads[s.current].state.Running? && s.threads[s.current].cont.User?
    requires Core(s') && s' == s.(threads := s.threads[s.current := th], rq := s'.rq)
    requires th.state.Ready? && 1 <= th.cont.Exits() <= s.cs
    requires !th.cont.InWait? && !th.cont.Dead? && !th.cont.User?
    requires th.cont.InWake? ==> th.cont.depth > 0
    requires s.current == s.idle ==> th.cont.InPreempt?
    ensures Good(s')
  {
    TimersFit(s.timers, s.threads, s.current);
    assert RoleOk(s, s.current, s.threads[s.current]);
    ThreadUpdate(s, s', s.current, th);
  }

  lemma ParkView(s: Kernel, k: Cont, quantum: int, head: bool)
    requires s.current in s.threads && s.threads[s.current].priority < |s.rq.queue|
    requires !s.threads[s.current].cont.InWait? && !k.InWait? && !s.threads[s.current].state.Death?
    ensures ViewOf(Parked(s, k, quantum, head).threads) == ViewOf(s.threads)
  {
    var th := s.threads[s.current].(quantum := quantum, cont := k, state := Ready);
    assert Parked(s, k, quantum, head).threads == s.threads[s.current := th];
    ViewSame(s.threads, s.current, th);
  }

  // ---- releasing a waiter -------------------------------------------------

  /** The effect of a release on the threads. */
  ghost predicate Released(s: Kernel, s': Kernel, t: Tid, code: int) {
    && t in s.threads && s.threads[t].state.Blocked?
    && s'.threads == s.threads[t := s.threads[t].(blockedOn := None, blockRet := code, state := Ready)]
    && s'.waits.Keys == s.waits.Keys
    && s' == s.(threads := s'.threads, rq := s'.rq, waits := s'.waits)
  }

  lemma ReleaseReleases(s: Kernel, w: WaitId, i: nat, code: int)
    requires Core(s) && w in s.waits && i < |s.waits[w].list|
    ensures WaitOk(s.waits[w], w, s.threads)
    ensures Core(Release(s, w, i, code))
    ensures Released(s, Release(s, w, i, code), s.waits[w].list[i], code)
    ensures s.threads[s.waits[w].list[i]].blockedOn == Some(w)
    ensures Release(s, w, i, code).waits ==
      s.waits[w := WaitQueue(s.waits[w].list[..i] + s.waits[w].list[i+1..], s.waits[w].count - 1)]
  {
    hide QueuesOk, PushTail;
    ReleaseCore(s, w, i, code);
    assert Release(s, w, i, code).waits.Keys == s.waits.Keys;
  }

  /** A blocked thread continues inside wait_queue_block on the queue it is in. */
  lemma BlockedWaits(s: Kernel, t: Tid)
    requires ThreadsOk(s) && t in s.threads && s.threads[t].state.Blocked?
    ensures s.threads[t].cont.InWait? && s.threads[t].blockedOn == Some(s.threads[t].cont.w)
  {
    assert ThreadOk(s.threads[t], t == s.current, Depth(s, t));
  }

  lemma ReleasedGood(s: Kernel, s': Kernel, t: Tid, code: int)
    requires Good(s) && Core(s') && Released(s, s', t, code)
    requires code == NO_ERROR || (code == ERR_TIMED_OUT && s.threads[t].cont.InWait? && s.threads[t].cont.timed)
    ensures Good(s')
  {
    assert ThreadOk(s.threads[t], t == s.current, Depth(s, t)) && RoleOk(s, t, s.threads[t]);
    var th := s.threads[t].(blockedOn := None, blockRet := code, state := Ready);
    TimersFit(s.timers, s.threads, t);
    ThreadUpdate(s, s', t, th);
  }

  lemma ReleasedView(s: Kernel, s': Kernel, t: Tid, code: int)
    requires Released(s, s', t, code) && s.threads[t].cont.InWait?
    ensures
      var v := ViewOf(s.threads);
      && t in v.waiters && v.waiters[t] == WaiterOf(s.threads[t]) && v.waiters[t].blocked
      && ViewOf(s'.threads) == v.(waiters := v.waiters[t := v.waiters[t].(blocked := false, ret := code)])
  {
    ViewUpdate(s.threads, t, s'.threads[t]);
  }

  // ---- the switch ---------------------------------------------------------

  /** The effect of a switch on the threads: `n` becomes RUNNING and the two
      critical-section counts are exchanged. */
  ghost predicate Switched(s: Kernel, s': Kernel, n: Tid) {
    && n in s.threads && s.threads[n].state.Ready? && n in s'.threads && s'.current == n
    && s.current in s.threads && !s.threads[s.current].state.Running?
    && (var th := s.threads[n].(state := Running, quantum := s'.threads[n].quantum);
        if n == s.current then s'.threads == s.threads[n := th] && s'.cs == s.cs
        else && s'.threads == s.threads[n := th][s.current := s.threads[s.current].(savedCs := s.cs)]
             && s'.cs == th.savedCs)
    && s' == s.(threads := s'.threads, rq := s'.rq, current := n, cs := s'.cs)
  }

  lemma ReschedSwitches(s: Kernel)
    requires CanResched(s) && s.threads[Next(s)].state.Ready? && !s.threads[s.current].state.Running?
    ensures Switched(s, Resched(s), Next(s))
  {
  }

  lemma SwitchView(s: Kernel, s': Kernel, n: Tid)
    requires Switched(s, s', n)
    ensures ViewOf(s'.threads) == ViewOf(s.threads)
  {
    assert s'.threads.Keys == s.threads.Keys;
    assert forall t | t in s.threads ::
      && s'.threads[t].cont == s.threads[t].cont && s'.threads[t].blockRet == s.threads[t].blockRet
      && s'.threads[t].state.Blocked? == s.threads[t].state.Blocked?
      && s'.threads[t].state.Death? == s.threads[t].state.Death?;
  }

  lemma SwitchTimers(s: Kernel, s': Kernel, n: Tid)
    requires Switched(s, s', n) && TimersGood(s.timers, s.threads)
    ensures TimersGood(s'.timers, s'.threads)
  {
    var c := s.threads[s.current].(savedCs := s.cs);
    var th := s'.threads[n];
    TimersFit(s.timers, s.threads, n);
    TimersUpdate(s.timers, s.threads, n, th);
    if n != s.current {
      TimersFit(s.timers, s.threads, s.current);
      TimersUpdate(s.timers, s.threads[n := th], s.current, c);
    }
  }

  lemma SwitchThreads(s: Kernel, s': Kernel, n: Tid)
    requires Switched(s, s', n) && ThreadsOk(s)
    ensures ThreadsOk(s')
  {
    forall t | t in s'.threads
      ensures ThreadOk(s'.threads[t], t == s'.current, Depth(s', t)) && RoleOk(s', t, s'.threads[t])
    {
      assert ThreadOk(s.threads[t], t == s.current, Depth(s, t)) && RoleOk(s, t, s.threads[t]);
    }
  }

  lemma SwitchDomain(s: Kernel, s': Kernel, n: Tid)
    requires Switched(s, s', n) && DomainOk(s)
    ensures DomainOk(s')
  {
    DomainUpdate(s, s');
  }

  lemma ReschedGood(s: Kernel)
    requires Good(s) && MayResched(s)
    ensures Good(Resched(s)) && OnCpu(Resched(s))
    ensures CanResched(s) && Switched(s, Resched(s), Next(s))
    ensures ViewOf(Resched(s).threads) == ViewOf(s.threads)
  {
    ReschedAssertions(s);
    ReschedSwitches(s);
    ReschedCore(s);
    SwitchTimers(s, Resched(s), Next(s));
    SwitchThreads(s, Resched(s), Next(s));
    SwitchDomain(s, Resched(s), Next(s));
    SwitchView(s, Resched(s), Next(s));
  }

  /** With the idle thread in place, a thread that leaves the CPU always finds a successor. */
  lemma IdleIsReady(s: Kernel)
    requires Good(s) && !s.threads[s.current].state.Running?
    ensures MayResched(s)
  {
    assert ThreadOk(s.threads[s.idle], s.idle == s.current, Depth(s, s.idle)) && RoleOk(s, s.idle, s.threads[s.idle]);
    assert s.threads[s.idle].state.Ready?;
  }
}
