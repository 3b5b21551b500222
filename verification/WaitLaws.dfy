/** Waits, events and deferred calls over whole runs of the kernel. */
module WaitLaws {
  import opened Words
  import opened RunQueues
  import opened TimerQueue
  import opened KernelState
  import opened KernelOps
  import opened KernelCalls
  import opened KernelInv
  import opened KernelSteps
  import opened KernelDpcProofs
  import opened KernelTickProofs
  import opened KernelSync
  import opened KernelLaws
  import opened KernelRuns
  import opened MutexLaws
  import opened ReleaseLaws

  // ---- events -------------------------------------------------------------

  /** The threads that a step releases from their wait for `e` with success. */
  function Freed(y: Sync, y': Sync, e: nat): set<Tid> {
    set u | u in y.waiters && u in y'.waiters && y.waiters[u].w == OfEvent(e)
         && y.waiters[u].blocked && !y'.waiters[u].blocked && y'.waiters[u].ret == NO_ERROR
  }

  /** Waits for `e` that succeed in this step: those released, and a caller that finds the event signalled. */
  function Successes(y: Sync, a: Action, y': Sync, e: nat): nat {
    |Freed(y, y', e)| + if a.Wait? && a.e == e && e in y.events && y.events[e].signalled then 1 else 0
  }

  function Clears(y: Sync, a: Action, e: nat): nat {
    if a.Unsignal? && a.e == e && e in y.events && y.events[e].signalled then 1 else 0
  }

  /** Signals of `e` issued while it is not signalled. */
  function Signals(y: Sync, a: Action, e: nat): nat {
    if a.Signal? && a.e == e && e in y.events && !y.events[e].signalled then 1 else 0
  }

  function Set(y: Sync, e: nat): nat {
    if e in y.events && y.events[e].signalled then 1 else 0
  }

  lemma FreedNone(y: Sync, y': Sync, e: nat)
    requires forall u | u in y.waiters && y.waiters[u].w == OfEvent(e) && y.waiters[u].blocked && u in y'.waiters ::
      y'.waiters[u].blocked || y'.waiters[u].ret != NO_ERROR
    ensures Freed(y, y', e) == {}
  {
  }

  lemma SignalConserves(y: Sync, e: nat)
    requires SyncOk(y) && e in y.events && OfEvent(e) in y.lists && y.events[e].auto
    ensures
      var y' := DoSignal(y, e);
      && e in y'.events && y'.events[e].auto
      && |Freed(y, y', e)| + Set(y', e) == Set(y, e) + (if y.events[e].signalled then 0 else 1)
  {
    var y' := DoSignal(y, e);
    var list := y.lists[OfEvent(e)];
    if y.events[e].signalled || list == [] {
      FreedNone(y, y', e);
    } else {
      assert Freed(y, y', e) == {list[0]};
    }
  }

  lemma OtherSignal(y: Sync, n: nat, e: nat)
    requires SyncOk(y) && n in y.events && OfEvent(n) in y.lists && e in y.events && n != e
    ensures Freed(y, DoSignal(y, n), e) == {} && e in DoSignal(y, n).events && DoSignal(y, n).events[e] == y.events[e]
  {
    if !y.events[n].signalled {
      if !y.events[n].auto {
        GrantAllFlag(y, OfEvent(n), n);
        GrantAllOthers(y, OfEvent(n));
      } else if y.lists[OfEvent(n)] != [] {
        var u := y.lists[OfEvent(n)][0];
        assert y.waiters[u].w == OfEvent(n);
      }
    }
    FreedNone(y, DoSignal(y, n), e);
  }

  lemma TickFrees(y: Sync, timers: seq<Entry<ThreadTimer>>, now: Word, e: nat)
    requires e in y.events && OfEvent(e) in y.lists
    ensures Freed(y, DoTick(y, timers, now), e) == {} && DoTick(y, timers, now).events == y.events
  {
    TickEffect(y, timers, now, OfEvent(e));
    FreedNone(y, DoTick(y, timers, now), e);
  }

  lemma ReleaseFrees(y: Sync, m: nat, e: nat)
    requires SyncOk(y) && m in y.mutexes && OfMutex(m) in y.lists
    ensures Freed(y, DoRelease(y, m), e) == {} && DoRelease(y, m).events == y.events
  {
    FreedNone(y, DoRelease(y, m), e);
  }

  ghost predicate Balanced(y: Sync, a: Action, y': Sync, e: nat) {
    && e in y'.events && y'.events[e].auto
    && Successes(y, a, y', e) + Clears(y, a, e) + Set(y', e) == Set(y, e) + Signals(y, a, e)
  }

  lemma SignalBalanced(y: Sync, t: Tid, timers: seq<Entry<ThreadTimer>>, a: Action, e: nat)
    requires SyncOk(y) && Applies(y, t, a) && a.Signal?
    requires e in y.events && OfEvent(e) in y.lists && y.events[e].auto && e != DPC_EVENT
    ensures Balanced(y, a, SyncNext(y, t, timers, a), e)
  {
    hide SyncOk, DoSignal;
    if a.e == e {
      SignalConserves(y, e);
    } else {
      OtherSignal(y, a.e, e);
    }
  }

  lemma CallBalanced(y: Sync, t: Tid, timers: seq<Entry<ThreadTimer>>, a: Action, e: nat)
    requires SyncOk(y) && Applies(y, t, a) && (a.QueueCallback? || a.Exit?)
    requires e in y.events && OfEvent(e) in y.lists && y.events[e].auto && e != DPC_EVENT
    ensures Balanced(y, a, SyncNext(y, t, timers, a), e)
  {
    hide SyncOk, DoSignal;
    CallFrees(y, if a.Exit? then Cleanup(t) else Callback(a.id), e);
  }

  lemma WakeBalanced(y: Sync, t: Tid, timers: seq<Entry<ThreadTimer>>, a: Action, e: nat)
    requires SyncOk(y) && Applies(y, t, a) && (a.TimerTick? || a.ReleaseMutex?)
    requires e in y.events && OfEvent(e) in y.lists && y.events[e].auto && e != DPC_EVENT
    ensures Balanced(y, a, SyncNext(y, t, timers, a), e)
  {
    hide SyncOk, DoTick, DoRelease;
    if a.TimerTick? {
      TickFrees(y, timers, a.now, e);
    } else {
      ReleaseFrees(y, a.m, e);
    }
  }

  lemma JoinBalanced(y: Sync, t: Tid, timers: seq<Entry<ThreadTimer>>, a: Action, e: nat)
    requires Applies(y, t, a) && (a.Acquire? || a.Wait? || a.DpcWait?)
    requires e in y.events && OfEvent(e) in y.lists && y.events[e].auto && e != DPC_EVENT
    ensures Balanced(y, a, SyncNext(y, t, timers, a), e)
  {
    FreedNone(y, SyncNext(y, t, timers, a), e);
  }

  lemma RestBalanced(y: Sync, t: Tid, timers: seq<Entry<ThreadTimer>>, a: Action, e: nat)
    requires Applies(y, t, a) && Legal(y, t, a) && !a.Signal? && !a.QueueCallback? && !a.Exit?
    requires !a.TimerTick? && !a.ReleaseMutex? && !a.Acquire? && !a.Wait? && !a.DpcWait?
    requires e in y.events && OfEvent(e) in y.lists && y.events[e].auto && e != DPC_EVENT
    ensures Balanced(y, a, SyncNext(y, t, timers, a), e)
  {
    FreedNone(y, SyncNext(y, t, timers, a), e);
  }

  lemma EventStep(y: Sync, t: Tid, timers: seq<Entry<ThreadTimer>>, a: Action, e: nat)
    requires SyncOk(y) && Applies(y, t, a) && Legal(y, t, a)
    requires e in y.events && OfEvent(e) in y.lists && y.events[e].auto && e != DPC_EVENT
    ensures Balanced(y, a, SyncNext(y, t, timers, a), e)
  {
    hide SyncOk, SyncNext, Balanced, Legal;
    if a.Signal? {
      SignalBalanced(y, t, timers, a, e);
    } else if a.QueueCallback? || a.Exit? {
      CallBalanced(y, t, timers, a, e);
    } else if a.TimerTick? || a.ReleaseMutex? {
      WakeBalanced(y, t, timers, a, e);
    } else if a.Acquire? || a.Wait? || a.DpcWait? {
      JoinBalanced(y, t, timers, a, e);
    } else {
      RestBalanced(y, t, timers, a, e);
    }
  }

  /** Queueing a deferred call concerns its own event only. */
  lemma CallFrees(y: Sync, call: Call, e: nat)
    requires SyncOk(y) && DPC_EVENT in y.events && OfEvent(DPC_EVENT) in y.lists && e in y.events && e != DPC_EVENT
    ensures
      var y' := DoSignal(WithCall(y, call), DPC_EVENT);
      Freed(y, y', e) == {} && e in y'.events && y'.events[e] == y.events[e]
  {
    WithCallOk(y, call);
    OtherSignal(WithCall(y, call), DPC_EVENT, e);
    assert Freed(y, DoSignal(WithCall(y, call), DPC_EVENT), e) ==
      Freed(WithCall(y, call), DoSignal(WithCall(y, call), DPC_EVENT), e);
  }

  ghost function TotalSuccesses(s: Kernel, run: seq<Action>, e: nat): nat
    requires Inv(s) && Runs(s, run)
    decreases |run|
  {
    if run == [] then 0 else
    StepInv(s, run[0]);
    Successes(Abs(s), run[0], Abs(Step(s, run[0])), e) + TotalSuccesses(Step(s, run[0]), run[1..], e)
  }

  ghost function TotalClears(s: Kernel, run: seq<Action>, e: nat): nat
    requires Inv(s) && Runs(s, run)
    decreases |run|
  {
    if run == [] then 0 else
    StepInv(s, run[0]);
    Clears(Abs(s), run[0], e) + TotalClears(Step(s, run[0]), run[1..], e)
  }

  ghost function TotalSignals(s: Kernel, run: seq<Action>, e: nat): nat
    requires Inv(s) && Runs(s, run)
    decreases |run|
  {
    if run == [] then 0 else
    StepInv(s, run[0]);
    Signals(Abs(s), run[0], e) + TotalSignals(Step(s, run[0]), run[1..], e)
  }

  lemma EventOfStep(s: Kernel, a: Action, e: nat)
    requires Inv(s) && Enabled(s, a) && e in s.events && s.events[e].auto
    ensures e in Step(s, a).events && Step(s, a).events[e].auto && Balanced(Abs(s), a, Abs(Step(s, a)), e)
  {
    KernelRefinesSync(s, a);
    StepLegal(s, a);
    AbsOk(s);
    KnownEvent(s, e);
    EventStep(Abs(s), s.current, s.timers, a, e);
  }

  lemma KnownEvent(s: Kernel, e: nat)
    requires Inv(s) && e in s.events
    ensures OfEvent(e) in s.waits && OfEvent(e) in Abs(s).lists && (s.events[e].auto ==> e != DPC_EVENT)
    ensures Abs(s).lists[OfEvent(e)] == s.waits[OfEvent(e)].list
  {
  }

  /** Signals of an auto-unsignal event are conserved along every run: each one
      issued while the event is clear, and an initial one, is used by exactly one
      successful wait, cleared, or still set. */
  lemma {:induction false} SignalsConserved(s: Kernel, run: seq<Action>, e: nat)
    requires Inv(s) && Runs(s, run) && e in s.events && s.events[e].auto
    ensures TotalSuccesses(s, run, e) + TotalClears(s, run, e) + Set(Abs(End(s, run)), e) ==
      Set(Abs(s), e) + TotalSignals(s, run, e)
    decreases |run|
  {
    hide Inv, Step, Enabled, Successes, Clears, Signals, Abs;
    if run != [] {
      StepInv(s, run[0]);
      EventOfStep(s, run[0], e);
      SignalsConserved(Step(s, run[0]), run[1..], e);
    }
  }

  /** Along every run a signalled event has no waiters. */
  lemma SignalledHasNoWaiters(s: Kernel, run: seq<Action>, e: nat)
    requires Inv(s) && Runs(s, run) && e in End(s, run).events && End(s, run).events[e].signalled
    ensures OfEvent(e) in End(s, run).waits && End(s, run).waits[OfEvent(e)].list == []
    ensures forall t | t in End(s, run).threads :: End(s, run).threads[t].blockedOn != Some(OfEvent(e))
  {
    var f := End(s, run);
    KnownEvent(f, e);
    AbsMutexes(f);
    forall t | t in f.threads ensures f.threads[t].blockedOn != Some(OfEvent(e)) {
      assert f.threads[t].state.Blocked? || f.threads[t].blockedOn.None?;
    }
  }

  // ---- deferred calls -----------------------------------------------------

  /** The deferred call queued in this step. */
  function Queues(t: Tid, a: Action): seq<Call> {
    match a
    case QueueCallback(id, _) => [Callback(id)]
    case Exit => [Cleanup(t)]
    case _ => []
  }

  /** The deferred call that starts in this step. */
  function Starts(y: Sync, y': Sync): seq<Call> {
    if !y.pc.Calling? && y'.pc.Calling? then [y'.pc.call] else []
  }

  lemma SignalCalls(y: Sync, e: nat)
    requires e in y.events && OfEvent(e) in y.lists
    ensures DoSignal(y, e).calls == y.calls && DoSignal(y, e).pc == y.pc && DoSignal(y, e).dead == y.dead
  {
    if !y.events[e].signalled && !y.events[e].auto {
      GrantAllQueues(Flag(y, e, true), OfEvent(e));
    }
  }

  lemma CallsStep(y: Sync, t: Tid, timers: seq<Entry<ThreadTimer>>, a: Action)
    requires Applies(y, t, a) && (a.DpcTake? ==> y.pc.AtTake?) && OfEvent(DPC_EVENT) in y.lists
    ensures
      var y' := SyncNext(y, t, timers, a);
      y.calls + Queues(t, a) == Starts(y, y') + y'.calls
  {
    hide DoSignal, DoTick, DoAcquire, DoRelease, DoWait;
    match a
    case Signal(e, _) => SignalCalls(y, e);
    case QueueCallback(id, _) => SignalCalls(WithCall(y, Callback(id)), DPC_EVENT);
    case Exit => SignalCalls(WithCall(y, Cleanup(t)), DPC_EVENT);
    case TimerTick(now) => TickEffect(y, timers, now, OfEvent(DPC_EVENT));
    case DpcTake => assert y.calls != [] ==> y.calls == [y.calls[0]] + y.calls[1..];
    case Acquire(m, timeout, _) => QueueingCalls(y, t, m, timeout);
    case ReleaseMutex(m) => ReleaseCalls(y, m);
    case Wait(e, timeout, _) => WaitCalls(y, t, e, timeout);
    case DpcWait => WaitCalls(y, t, DPC_EVENT, INFINITE_TIME);
    case _ =>
  }

  lemma QueueingCalls(y: Sync, t: Tid, m: nat, timeout: Word)
    requires m in y.mutexes && OfMutex(m) in y.lists
    ensures DoAcquire(y, t, m, timeout).calls == y.calls && DoAcquire(y, t, m, timeout).pc == y.pc
  {
  }

  lemma ReleaseCalls(y: Sync, m: nat)
    requires m in y.mutexes && OfMutex(m) in y.lists
    ensures DoRelease(y, m).calls == y.calls && DoRelease(y, m).pc == y.pc
  {
  }

  lemma WaitCalls(y: Sync, t: Tid, e: nat, timeout: Word)
    requires e in y.events && OfEvent(e) in y.lists
    ensures DoWait(y, t, e, timeout).calls == y.calls && DoWait(y, t, e, timeout).pc == y.pc
  {
  }

  ghost function AllQueued(s: Kernel, run: seq<Action>): seq<Call>
    requires Inv(s) && Runs(s, run)
    decreases |run|
  {
    if run == [] then [] else
    StepInv(s, run[0]);
    Queues(s.current, run[0]) + AllQueued(Step(s, run[0]), run[1..])
  }

  ghost function AllStarted(s: Kernel, run: seq<Action>): seq<Call>
    requires Inv(s) && Runs(s, run)
    decreases |run|
  {
    if run == [] then [] else
    StepInv(s, run[0]);
    Starts(Abs(s), Abs(Step(s, run[0]))) + AllStarted(Step(s, run[0]), run[1..])
  }

  lemma CallsOfStep(s: Kernel, a: Action)
    requires Inv(s) && Enabled(s, a)
    ensures s.dpcs + Queues(s.current, a) == Starts(Abs(s), Abs(Step(s, a))) + Step(s, a).dpcs
  {
    KernelRefinesSync(s, a);
    StepLegal(s, a);
    AbsOk(s);
    CallsStep(Abs(s), s.current, s.timers, a);
  }

  /** No deferred call is lost, repeated or reordered: along every run the calls
      queued are the calls started, in the same order, and then those still queued. */
  lemma {:induction false} CallsRunInOrder(s: Kernel, run: seq<Action>)
    requires Inv(s) && Runs(s, run)
    ensures s.dpcs + AllQueued(s, run) == AllStarted(s, run) + End(s, run).dpcs
    decreases |run|
  {
    hide Inv, Step, Enabled, Starts, Queues, Abs;
    if run != [] {
      StepInv(s, run[0]);
      CallsOfStep(s, run[0]);
      var s1 := Step(s, run[0]);
      CallsRunInOrder(s1, run[1..]);
      Chain(s.dpcs, Queues(s.current, run[0]), AllQueued(s1, run[1..]),
            Starts(Abs(s), Abs(s1)), AllStarted(s1, run[1..]), s1.dpcs, End(s1, run[1..]).dpcs);
    }
  }

  /** While calls are queued their event is signalled and the thread that runs them is not blocked on it. */
  lemma CallsAnnounced(s: Kernel, run: seq<Action>)
    requires Inv(s) && Runs(s, run) && End(s, run).dpcs != []
    ensures
      var f := End(s, run);
      && DPC_EVENT in f.events && f.events[DPC_EVENT].signalled
      && f.dpcThread in f.threads && f.threads[f.dpcThread].blockedOn != Some(OfEvent(DPC_EVENT))
  {
    SignalledHasNoWaiters(s, run, DPC_EVENT);
  }

  // ---- exited threads -----------------------------------------------------

  lemma DeadStep(y: Sync, t: Tid, timers: seq<Entry<ThreadTimer>>, a: Action, u: Tid)
    requires Applies(y, t, a) && OfEvent(DPC_EVENT) in y.lists
    ensures
      var y' := SyncNext(y, t, timers, a);
      && (u !in y.dead && u in y'.dead ==> a.Exit? && u == t)
      && (u in y.dead && u !in y'.dead ==> a.DpcFinish? && y.pc == Calling(Cleanup(u)))
  {
    hide DoSignal, DoTick;
    match a
    case Signal(e, _) => SignalCalls(y, e);
    case QueueCallback(id, _) => SignalCalls(WithCall(y, Callback(id)), DPC_EVENT);
    case Exit => SignalCalls(WithCall(y, Cleanup(t)), DPC_EVENT);
    case TimerTick(now) => TickEffect(y, timers, now, OfEvent(DPC_EVENT));
    case _ =>
  }

  /** A thread dies only by its own exit, and is freed only by its own cleanup
      call, while another thread is on the CPU. */
  lemma CleanupFrees(s: Kernel, u: Tid)
    requires Inv(s) && Enabled(s, DpcFinish) && s.dpcPc == Calling(Cleanup(u))
    ensures u != s.current && u !in Step(s, DpcFinish).threads
  {
    hide QueuesOk, WaitsOk, TimersGood, DomainOk, Side;
    CleanupTarget(s);
  }

  lemma ExitedThreadStep(s: Kernel, a: Action, u: Tid)
    requires Inv(s) && Enabled(s, a)
    ensures u !in Abs(s).dead && u in Abs(Step(s, a)).dead ==> a.Exit? && u == s.current
    ensures u in Abs(s).dead && u !in Abs(Step(s, a)).dead ==>
      a.DpcFinish? && s.dpcPc == Calling(Cleanup(u)) && u != s.current && u !in Step(s, a).threads
  {
    hide Good, Side, Step, SyncOk, Legal;
    KernelRefinesSync(s, a);
    StepLegal(s, a);
    DeadStep(Abs(s), s.current, s.timers, a, u);
    if a.DpcFinish? && s.dpcPc == Calling(Cleanup(u)) {
      CleanupFrees(s, u);
    }
  }

  /** In every reachable state an exited thread is off the CPU and in no queue,
      and exactly one cleanup call names it, so it is freed at most once. */
  lemma ExitedThreadsWaitForCleanup(s: Kernel, run: seq<Action>, u: Tid)
    requires Inv(s) && Runs(s, run) && u in End(s, run).threads && End(s, run).threads[u].state.Death?
    ensures
      var f := End(s, run);
      && u != f.current
      && (forall p | 0 <= p < NUM_PRIORITIES :: u !in f.rq.queue[p])
      && (forall w | w in f.waits :: u !in f.waits[w].list)
      && Cleanup(u) in Pending(f)
      && (forall i, j | 0 <= i < |Pending(f)| && 0 <= j < |Pending(f)| &&
            Pending(f)[i] == Cleanup(u) && Pending(f)[j] == Cleanup(u) :: i == j)
  {
    hide End, Runs, TimersGood, DomainOk, MutexesOk, EventsOk;
    var f := End(s, run);
    assert u in ViewOf(f.threads).dead;
    forall p | 0 <= p < NUM_PRIORITIES ensures u !in f.rq.queue[p] {
      assert QueueOk(f.rq.queue[p], p, f.threads);
    }
    forall w | w in f.waits ensures u !in f.waits[w].list {
      assert WaitOk(f.waits[w], w, f.threads);
    }
  }
}
