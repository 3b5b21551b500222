/** The scheduler over whole runs: who owns a thread, who runs next, and what
    thread_resume does to threads that are not suspended. */
module SchedulerLaws {
  import opened Words
  import opened RunQueues
  import opened TimerQueue
  import opened KernelState
  import opened KernelOps
  import opened KernelCalls
  import opened KernelInv
  import opened KernelSteps
  import opened KernelProofs
  import opened KernelTickProofs
  import opened KernelRuns
  import opened MaskLaws

  // ---- ownership ----------------------------------------------------------

  /** Where a thread is follows from its state alone. */
  ghost predicate Owned(s: Kernel, t: Tid)
    requires t in s.threads && |s.rq.queue| == NUM_PRIORITIES
  {
    var th := s.threads[t];
    && (th.state.Running? <==> t == s.current)
    && (forall p | 0 <= p < NUM_PRIORITIES :: t in s.rq.queue[p] <==> th.state.Ready? && th.priority == p)
    && (forall w | w in s.waits :: t in s.waits[w].list <==> th.state.Blocked? && th.blockedOn == Some(w))
    && (th.state.Blocked? <==> th.blockedOn.Some?)
    && (th.state.Sleeping? <==> Queued(s.timers, Wakeup(t)))
    && (t != s.current ==> th.savedCs > 0)
  }

  ghost predicate AllOwned(s: Kernel) {
    && Indexed(s.rq) && s.current in s.threads
    && (forall t | t in s.threads :: Owned(s, t))
    && (forall p | 0 <= p < NUM_PRIORITIES :: NoDup(s.rq.queue[p]))
    && (forall w | w in s.waits :: NoDup(s.waits[w].list) && s.waits[w].count == |s.waits[w].list|)
  }

  lemma InvOwned(s: Kernel, t: Tid)
    requires Inv(s) && t in s.threads
    ensures Owned(s, t)
  {
    hide Side, DomainOk;
    TimersFit(s.timers, s.threads, t);
    assert ThreadOk(s.threads[t], t == s.current, Depth(s, t));
    forall p | 0 <= p < NUM_PRIORITIES
      ensures t in s.rq.queue[p] <==> s.threads[t].state.Ready? && s.threads[t].priority == p
    {
      assert QueueOk(s.rq.queue[p], p, s.threads);
    }
    forall w | w in s.waits
      ensures t in s.waits[w].list <==> s.threads[t].state.Blocked? && s.threads[t].blockedOn == Some(w)
    {
      assert WaitOk(s.waits[w], w, s.threads);
    }
  }

  lemma InvAllOwned(s: Kernel)
    requires Inv(s)
    ensures AllOwned(s)
  {
    hide Side, DomainOk, ThreadsOk, TimersGood, Owned;
    forall t | t in s.threads ensures Owned(s, t) {
      InvOwned(s, t);
    }
    forall p | 0 <= p < NUM_PRIORITIES ensures NoDup(s.rq.queue[p]) {
      assert QueueOk(s.rq.queue[p], p, s.threads);
    }
    forall w | w in s.waits ensures NoDup(s.waits[w].list) && s.waits[w].count == |s.waits[w].list| {
      assert WaitOk(s.waits[w], w, s.threads);
    }
  }

  /** From boot on, in every state of every run, each thread is owned by exactly
      the queue its state calls for. */
  lemma OwnershipAlongRuns(mutexes: set<nat>, events: map<nat, Event>, idle: Tid, dpc: Tid, first: Tid, run: seq<Action>)
    requires Bootable(events, idle, dpc, first)
    ensures Inv(Boot(mutexes, events, idle, dpc, first))
    ensures Runs(Boot(mutexes, events, idle, dpc, first), run) ==>
      AllOwned(End(Boot(mutexes, events, idle, dpc, first), run))
  {
    hide Inv, AllOwned, Boot, Bootable;
    BootInv(mutexes, events, idle, dpc, first);
    var s := Boot(mutexes, events, idle, dpc, first);
    if Runs(s, run) {
      InvAllOwned(End(s, run));
    }
  }

  /** Wherever a thread leaves the CPU, the assertions of thread_resched hold:
      the bitmap is not empty, it names a queue with a ready thread, and both the
      live count of critical sections and the one to be restored are positive. */
  lemma ReschedChecks(s: Kernel)
    requires Good(s) && !s.threads[s.current].state.Running?
    ensures s.rq.bitmap != 0 && CanResched(s) && s.threads[Next(s)].state.Ready?
    ensures s.cs > 0 && (Next(s) != s.current ==> s.threads[Next(s)].savedCs > 0)
    ensures forall t | t in s.threads && s.threads[t].state.Ready? :: s.threads[t].priority <= s.threads[Next(s)].priority
  {
    hide QueuesOk, WaitsOk, TimersGood, DomainOk;
    IdleIsReady(s);
    ReschedAssertions(s);
    assert ThreadOk(s.threads[s.current], true, s.cs);
    assert ThreadOk(s.threads[Next(s)], Next(s) == s.current, Depth(s, Next(s)));
  }

  // ---- round robin --------------------------------------------------------

  /** The threads that share the current thread's priority, in running order. */
  function Line(s: Kernel): seq<Tid>
    requires s.current in s.threads && s.threads[s.current].priority < |s.rq.queue|
  {
    [s.current] + s.rq.queue[s.threads[s.current].priority]
  }

  /** Nothing of a higher priority is ready. */
  ghost predicate Top(s: Kernel)
    requires s.current in s.threads
  {
    forall p | s.threads[s.current].priority < p < |s.rq.queue| :: s.rq.queue[p] == []
  }

  /** Threads, priorities and roles are as before. */
  ghost predicate SamePriorities(s: Kernel, s': Kernel) {
    && s'.threads.Keys == s.threads.Keys && s'.idle == s.idle && s'.dpcThread == s.dpcThread
    && (forall t | t in s.threads :: s'.threads[t].priority == s.threads[t].priority)
  }

  /** The queue thread_resched takes from when queue `p` is the highest that is not empty. */
  lemma HighestQueue(r: RunQueue, p: nat)
    requires Indexed(r) && p < NUM_PRIORITIES && r.queue[p] != []
    requires forall q | p < q < NUM_PRIORITIES :: r.queue[q] == []
    ensures NextQueue(r) == p
  {
    BitmapChoiceIsLinearScan(r);
    assert r.queue[NextQueue(r)] != [];
  }

  /** The current thread has joined the end of its queue. */
  lemma ParkedQueue(s: Kernel)
    requires OnCpu(s)
    ensures
      var p := s.threads[s.current].priority;
      var x := Parked(Enter(s), InYield, 0, false);
      && Indexed(x.rq) && x.rq.queue == s.rq.queue[p := s.rq.queue[p] + [s.current]]
      && SamePriorities(s, x) && x.current == s.current
      && (forall q, t | 0 <= q < NUM_PRIORITIES && t in x.rq.queue[q] :: t in s.threads)
      && ThreadYield(s) == Resched(x)
  {
    hide WaitsOk, Resched;
    var p := s.threads[s.current].priority;
    PushKeepsIndex(s.rq, p, s.current);
    forall q, t | 0 <= q < NUM_PRIORITIES && t in s.rq.queue[q] ensures t in s.threads {
      assert QueueOk(s.rq.queue[q], q, s.threads);
    }
  }

  /** thread_resched takes the head of the highest queue that is not empty. */
  lemma ReschedTakes(x: Kernel, p: nat)
    requires Indexed(x.rq) && x.current in x.threads && p < NUM_PRIORITIES && x.rq.queue[p] != []
    requires forall q | p < q < NUM_PRIORITIES :: x.rq.queue[q] == []
    requires x.rq.queue[p][0] in x.threads
    ensures
      var s' := Resched(x);
      && s'.current == x.rq.queue[p][0] && s'.rq.queue == x.rq.queue[p := x.rq.queue[p][1..]]
      && SamePriorities(x, s')
  {
    HighestQueue(x.rq, p);
  }

  /** thread_yield at the top priority: the next in line runs and the caller joins its end. */
  lemma YieldRotates(s: Kernel)
    requires OnCpu(s) && Top(s)
    ensures
      var s' := ThreadYield(s);
      var p := s.threads[s.current].priority;
      var line := Line(s)[1..] + [s.current];
      && SamePriorities(s, s') && s'.current == line[0] && s'.rq.queue == s.rq.queue[p := line[1..]]
  {
    hide QueuesOk, WaitsOk, ThreadYield, Parked, Resched;
    var p := s.threads[s.current].priority;
    var x := Parked(Enter(s), InYield, 0, false);
    assert Line(s)[1..] == s.rq.queue[p];
    ParkedQueue(s);
    assert x.rq.queue[p][0] in x.rq.queue[p];
    ReschedTakes(x, p);
  }

  /** thread_yield below a ready thread of the highest ready priority `p`: the head of that queue runs. */
  lemma YieldHandsOver(s: Kernel, p: nat)
    requires OnCpu(s) && s.threads[s.current].priority < p < NUM_PRIORITIES && s.rq.queue[p] != []
    requires forall q | p < q < NUM_PRIORITIES :: s.rq.queue[q] == []
    ensures
      var s' := ThreadYield(s);
      && SamePriorities(s, s') && s'.current == s.rq.queue[p][0] && s'.rq.queue[p] == s.rq.queue[p][1..]
      && (forall q | p < q < NUM_PRIORITIES :: s'.rq.queue[q] == [])
      && |s'.rq.queue| == NUM_PRIORITIES
  {
    hide QueuesOk, WaitsOk, ThreadYield, Parked, Resched;
    var x := Parked(Enter(s), InYield, 0, false);
    ParkedQueue(s);
    assert x.rq.queue[p] == s.rq.queue[p];
    assert x.rq.queue[p][0] in x.rq.queue[p];
    ReschedTakes(x, p);
  }

  lemma ContinueKeepsQueues(s: Kernel)
    requires s.current in s.threads && DomainOk(s)
    ensures s.threads[s.current].cont.InWait? && s.threads[s.current].cont.w.OfMutex? ==>
      s.threads[s.current].cont.w.m in s.mutexes
    ensures Continue(s).current == s.current && Continue(s).rq == s.rq && SamePriorities(s, Continue(s))
  {
    hide ExitN, Continue, Returned, DomainOk;
    ContinueShape(s);
    ReturnedEffect(s);
    var k := s.threads[s.current].cont;
    if k.InWait? {
      ExitNCounts(AfterWait(Returned(s), k.w, s.threads[s.current].blockRet), 2);
    } else if !k.InPreempt? {
      ExitNCounts(Returned(s), k.Exits());
    }
  }

  /** Returning from a call moves no thread between queues. */
  lemma ProceedKeepsQueues(s: Kernel)
    requires Inv(s) && Enabled(s, Proceed)
    ensures Step(s, Proceed).current == s.current && Step(s, Proceed).rq == s.rq
    ensures SamePriorities(s, Step(s, Proceed))
  {
    hide QueuesOk, WaitsOk, Side, ThreadsOk, TimersGood, DomainOk, Continue;
    ContinueKeepsQueues(s);
  }

  /** A clients' thread outside the kernel, which may yield. */
  ghost predicate Yields(s: Kernel) {
    Busy(s) && s.current != s.idle && s.current != s.dpcThread
  }

  lemma YieldInside(s: Kernel)
    requires OnCpu(s) && OthersInKernel(s)
    ensures
      var s' := ThreadYield(s);
      s'.current in s'.threads && !s'.threads[s'.current].cont.User?
  {
    hide QueuesOk, WaitsOk, Resched;
    SwitchInside(s, Parked(Enter(s), InYield, 0, false));
  }

  lemma YieldEnters(s: Kernel)
    requires Yields(s)
    ensures Enabled(s, Yield) && Inv(Step(s, Yield)) && Enabled(Step(s, Yield), Proceed)
    ensures Busy(Step(Step(s, Yield), Proceed))
  {
    hide QueuesOk, WaitsOk, Side, ThreadsOk, TimersGood, DomainOk, ThreadYield, Continue;
    StepInv(s, Yield);
    InvOthers(s);
    YieldInside(s);
    ContinueInv(Step(s, Yield));
  }

  /** Whoever a switch picks is inside a kernel call. */
  lemma SwitchInside(s: Kernel, x: Kernel)
    requires OthersInKernel(s) && x.current == s.current && s.current in x.threads && !x.threads[s.current].cont.User?
    requires forall t | t in x.threads && t != s.current :: t in s.threads && x.threads[t].cont == s.threads[t].cont
    ensures Resched(x).current in Resched(x).threads && !Resched(x).threads[Resched(x).current].cont.User?
  {
  }

  lemma InLine(s: Kernel, t: Tid)
    requires Core(s) && t in Line(s)
    ensures t in s.threads && s.threads[t].priority == s.threads[s.current].priority
  {
    assert QueueOk(s.rq.queue[s.threads[s.current].priority], s.threads[s.current].priority, s.threads);
  }

  /** The current thread yields, and the one that runs next returns to its own code. */
  lemma RoundRotates(s: Kernel) returns (s': Kernel)
    requires Yields(s) && Top(s)
    ensures Enabled(s, Yield) && Inv(Step(s, Yield)) && Enabled(Step(s, Yield), Proceed)
    ensures s' == Step(Step(s, Yield), Proceed)
    ensures Busy(s') && Top(s') && Line(s') == Line(s)[1..] + [Line(s)[0]] && SamePriorities(s, s')
  {
    hide Side, ThreadsOk, TimersGood, DomainOk, WaitsOk, Continue, ThreadYield;
    YieldEnters(s);
    YieldRotates(s);
    var s1 := Step(s, Yield);
    ProceedKeepsQueues(s1);
    InLine(s, s1.current);
    s' := Step(s1, Proceed);
    var line := Line(s)[1..] + [s.current];
    assert Line(s') == [line[0]] + line[1..];
  }

  /** `k` rounds of a yield and the return of the thread that runs next. */
  function Turns(k: nat): seq<Action> {
    if k == 0 then [] else [Yield, Proceed] + Turns(k - 1)
  }

  lemma TwoSteps(s: Kernel, a: Action, b: Action, rest: seq<Action>)
    requires Inv(s) && Enabled(s, a) && Inv(Step(s, a)) && Enabled(Step(s, a), b)
    requires Inv(Step(Step(s, a), b)) && Runs(Step(Step(s, a), b), rest)
    ensures Runs(s, [a, b] + rest) && End(s, [a, b] + rest) == End(Step(Step(s, a), b), rest)
  {
    hide Inv, Step, Enabled;
    var run := [a, b] + rest;
    assert run[1..] == [b] + rest && run[1..][1..] == rest;
  }

  /** No thread in line is one of the two that never yield. */
  ghost predicate Clients(s: Kernel)
    requires s.current in s.threads && s.threads[s.current].priority < |s.rq.queue|
  {
    s.idle !in Line(s) && s.dpcThread !in Line(s)
  }

  lemma TurnOnce(line: seq<Tid>, k: nat)
    requires 0 < k <= |line|
    ensures
      var next := line[1..] + [line[0]];
      next[k - 1..] + next[..k - 1] == line[k..] + line[..k]
  {
    var next := line[1..] + [line[0]];
    assert next[k - 1..] == line[k..] + [line[0]] && next[..k - 1] == line[1..k];
  }

  /** Threads of the top priority that only yield take turns: after `k` yields
      the line has turned by exactly `k` places, so that the thread `k` places
      behind the current one runs, and after a full turn the line is as before. */
  lemma {:induction false} RoundRobin(s: Kernel, k: nat)
    requires Busy(s) && Top(s) && Clients(s) && k <= |Line(s)|
    ensures Runs(s, Turns(k)) && Busy(End(s, Turns(k)))
    ensures Line(End(s, Turns(k))) == Line(s)[k..] + Line(s)[..k]
    ensures End(s, Turns(k)).current == Line(s)[if k == |Line(s)| then 0 else k]
    decreases k
  {
    hide Inv, Top, Step, Enabled;
    LineHead(s);
    if k > 0 {
      var s' := RoundRotates(s);
      RoundRobin(s', k - 1);
      TwoSteps(s, Yield, Proceed, Turns(k - 1));
      TurnOnce(Line(s), k);
    }
    LineHead(End(s, Turns(k)));
  }

  lemma LineHead(s: Kernel)
    requires Inv(s)
    ensures s.current in s.threads && s.threads[s.current].priority < |s.rq.queue|
    ensures |Line(s)| > 0 && Line(s)[0] == s.current
  {
    hide QueuesOk, WaitsOk, Side, ThreadsOk, TimersGood, DomainOk;
  }

  lemma HandOver(s: Kernel, p: nat) returns (s': Kernel)
    requires Yields(s) && s.threads[s.current].priority < p < NUM_PRIORITIES && s.rq.queue[p] != []
    requires forall q | p < q < NUM_PRIORITIES :: s.rq.queue[q] == []
    ensures Enabled(s, Yield) && Inv(Step(s, Yield)) && Enabled(Step(s, Yield), Proceed)
    ensures s' == Step(Step(s, Yield), Proceed)
    ensures Busy(s') && Top(s') && Line(s') == s.rq.queue[p] && SamePriorities(s, s')
  {
    hide Side, ThreadsOk, TimersGood, DomainOk, WaitsOk, Continue, ThreadYield;
    YieldEnters(s);
    YieldHandsOver(s, p);
    var s1 := Step(s, Yield);
    ProceedKeepsQueues(s1);
    assert QueueOk(s.rq.queue[p], p, s.threads);
    s' := Step(s1, Proceed);
    assert Line(s') == [s.rq.queue[p][0]] + s.rq.queue[p][1..];
  }

  /** A thread at place `k` of the highest ready queue, above the current
      priority, runs after exactly `k + 1` yields. */
  lemma LowerPriorityYields(s: Kernel, p: nat, k: nat)
    requires Yields(s) && s.threads[s.current].priority < p < NUM_PRIORITIES && k < |s.rq.queue[p]|
    requires forall q | p < q < NUM_PRIORITIES :: s.rq.queue[q] == []
    requires s.idle !in s.rq.queue[p] && s.dpcThread !in s.rq.queue[p]
    ensures Runs(s, Turns(k + 1)) && End(s, Turns(k + 1)).current == s.rq.queue[p][k]
  {
    hide Inv, Top, Step, Enabled;
    var s' := HandOver(s, p);
    RoundRobin(s', k);
    TwoSteps(s, Yield, Proceed, Turns(k));
  }

  // ---- thread_resume ------------------------------------------------------

  ghost predicate Resumable(th: Thread) {
    th.state.Suspended? || th.state.Ready? || th.state.Running?
  }

  /** What is left of a thread that was blocked, asleep or dead when it was resumed. */
  lemma ResumeRevives(s: Kernel, t: Tid)
    requires OnCpu(s) && t in s.threads && !Resumable(s.threads[t]) && t != s.current
    ensures
      var (s', code) := ThreadResume(s, t);
      && code == NO_ERROR && t in s'.threads
      && (s'.threads[t].state.Ready? || s'.threads[t].state.Running?)
      && s'.threads[t].blockedOn == s.threads[t].blockedOn
      && s'.timers == s.timers && s'.dpcs == s.dpcs && s'.dpcPc == s.dpcPc
  {
    hide QueuesOk, WaitsOk;
  }

  lemma RevivedBreaks(s: Kernel, s': Kernel, t: Tid)
    requires Inv(s) && t in s.threads && !Resumable(s.threads[t]) && t in s'.threads
    requires s'.threads[t].state.Ready? || s'.threads[t].state.Running?
    requires s'.threads[t].blockedOn == s.threads[t].blockedOn
    requires s'.timers == s.timers && s'.dpcs == s.dpcs && s'.dpcPc == s.dpcPc
    ensures !Inv(s')
  {
    hide QueuesOk, MutexesOk, EventsOk, ThreadsOk;
    if s.threads[t].state.Sleeping? {
      TimersFit(s.timers, s.threads, t);
      var i :| 0 <= i < |s.timers| && s.timers[i].body == Wakeup(t);
    } else if s.threads[t].state.Death? {
      assert t in ViewOf(s.threads).dead && t !in ViewOf(s'.threads).dead;
    }
  }

  /** thread_resume promises to refuse a thread that is not suspended. It keeps
      the kernel's invariant exactly when the thread is suspended, ready or
      running; a blocked, sleeping or dead thread it revives. */
  lemma ResumeKeepsInvariantExactlyWhen(s: Kernel, t: Tid)
    requires Busy(s) && s.current != s.idle && t in s.threads
    ensures Inv(ThreadResume(s, t).0) <==> Resumable(s.threads[t])
    ensures ThreadResume(s, t).1 == ERR_NOT_SUSPENDED <==> s.threads[t].state.Ready? || s.threads[t].state.Running?
  {
    hide QueuesOk, WaitsOk, ThreadsOk, TimersGood, DomainOk, Side;
    if s.threads[t].state.Suspended? {
      ResumeInv(s, t);
    } else if !Resumable(s.threads[t]) {
      ResumeRevives(s, t);
      RevivedBreaks(s, ThreadResume(s, t).0, t);
    }
  }
}
