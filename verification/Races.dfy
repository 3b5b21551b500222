/** Two races between a wake and a timeout, each on every state in which it can happen. */
module Races {
  import opened Words
  import opened RunQueues
  import opened TimerQueue
  import opened KernelState
  import opened KernelOps
  import opened KernelCalls
  import opened KernelInv
  import opened KernelSteps
  import opened KernelSyncProofs
  import opened KernelTickProofs
  import opened KernelSync
  import opened KernelLaws
  import opened KernelRuns
  import opened MutexLaws
  import opened MaskLaws
  import opened BareSteps
  import opened Scenes

  // ---- a mutex left free but counted --------------------------------------

  lemma ReleaseWithoutWaiters(s: Kernel, m: nat)
    requires Inv(s) && Enabled(s, ReleaseMutex(m)) && OfMutex(m) in s.waits && s.waits[OfMutex(m)].list == []
    ensures
      Step(s, ReleaseMutex(m)) == KernelOps.Exit(SetMutex(Enter(s), m, s.mutexes[m].count - 1, None))
  {
    hide QueuesOk, WaitsOk, ThreadsOk, TimersGood, Side;
    ReleaseShape(s, m);
  }

  lemma ReleaseThenAcquire(s: Kernel, m: nat, now: Word)
    requires Inv(s) && Enabled(s, ReleaseMutex(m)) && s.current != s.dpcThread
    requires OfMutex(m) in s.waits && s.waits[OfMutex(m)].list == []
    ensures
      var s1 := Step(s, ReleaseMutex(m));
      Inv(s1) && s1.current == s.current && Enabled(s1, Acquire(m, INFINITE_TIME, now))
  {
    hide Inv, Step;
    StepInv(s, ReleaseMutex(m));
    ReleaseWithoutWaiters(s, m);
  }

  /** On the abstract machine: nobody holds the mutex or is handed it, yet the new waiter waits. */
  lemma AcquireStrands(y: Sync, t: Tid, m: nat)
    requires SyncOk(y) && m in y.mutexes && OfMutex(m) in y.lists && y.lists[OfMutex(m)] == []
    requires y.mutexes[m].holder == Some(t) && y.mutexes[m].count >= 2 && t !in y.waiters
    ensures
      var y1 := DoRelease(y, m);
      var y2 := DoAcquire(y1, t, m, INFINITE_TIME);
      m in y2.mutexes && OfMutex(m) in y2.lists && Stranded(y2, m, t)
  {
    assert MutexOk(y.mutexes[m], m, y.waiters);
    var y2 := DoAcquire(DoRelease(y, m), t, m, INFINITE_TIME);
    assert Handoffs(y2.waiters, m) == Handoffs(y.waiters, m);
  }

  /** The holder of a mutex whose only other claimants have timed out, but not
      yet run, releases it and acquires it again: it then waits for ever. */
  lemma HolderStrandsItself(s: Kernel, m: nat, now: Word, run: seq<Action>)
    requires Inv(s) && Enabled(s, ReleaseMutex(m)) && s.current != s.dpcThread
    requires OfMutex(m) in s.waits && s.waits[OfMutex(m)].list == [] && s.mutexes[m].count >= 2
    ensures
      var s1 := Step(s, ReleaseMutex(m));
      && Inv(s1) && Enabled(s1, Acquire(m, INFINITE_TIME, now))
      && (var s2 := Step(s1, Acquire(m, INFINITE_TIME, now));
          Inv(s2) && (Runs(s2, run) ==>
            && m in Abs(End(s2, run)).mutexes && OfMutex(m) in Abs(End(s2, run)).lists
            && Stranded(Abs(End(s2, run)), m, s.current)))
  {
    hide Good, Side, Step, Abs, Stranded, DoRelease, DoAcquire, SyncOk, Legal;
    var a1 := ReleaseMutex(m);
    var a2 := Acquire(m, INFINITE_TIME, now);
    ReleaseThenAcquire(s, m, now);
    var s1 := Step(s, a1);
    StepInv(s1, a2);
    var s2 := Step(s1, a2);
    KernelRefinesSync(s, a1);
    KernelRefinesSync(s1, a2);
    AbsOk(s);
    StepLegal(s, a1);
    HolderView(s, m);
    AcquireStrands(Abs(s), s.current, m);
    HolderView(s2, m);
    if Runs(s2, run) {
      StrandedForever(s2, run, m, s.current);
    }
  }

  lemma HolderView(s: Kernel, m: nat)
    requires Inv(s)
    ensures m in s.mutexes ==> OfMutex(m) in s.waits && Abs(s).lists[OfMutex(m)] == s.waits[OfMutex(m)].list
    ensures Abs(s).mutexes == s.mutexes && Abs(s).lists.Keys == s.waits.Keys
    ensures s.threads[s.current].cont.User? ==> s.current !in Abs(s).waiters
  {
    hide QueuesOk, WaitsOk, ThreadsOk, TimersGood, Side;
  }

  // ---- a wake just before the timeout -------------------------------------

  /** Signalling an event releases its first waiter; the waiter's timeout stays queued. */
  lemma SignalReadies(s: Kernel, e: nat)
    requires Inv(s) && Enabled(s, Signal(e, false)) && !s.events[e].signalled && s.events[e].auto
    requires OfEvent(e) in s.waits && s.waits[OfEvent(e)].list != []
    ensures
      var s' := Step(s, Signal(e, false));
      var t := s.waits[OfEvent(e)].list[0];
      && s'.timers == s.timers && s'.current == s.current && s'.cs == s.cs
      && t in s'.threads && s'.threads[t].state.Ready?
      && t != s.current && s'.threads[s.current] == s.threads[s.current]
  {
    hide QueuesOk, ThreadsOk, TimersGood, Side;
    assert WaitOk(s.waits[OfEvent(e)], OfEvent(e), s.threads);
  }

  /** A timed waiter is woken and its timeout expires before it runs: the
      interrupt that sees this breaks the rule that the mask follows the sections. */
  lemma LateTimeoutLeaks(s: Kernel, e: nat, now: Word)
    requires Inv(s) && MaskOk(s) && !s.masked && Enabled(s, Signal(e, false))
    requires !s.events[e].signalled && s.events[e].auto && OfEvent(e) in s.waits && s.waits[OfEvent(e)].list != []
    requires Due(s.timers, now) && s.timers[0].body == Timeout(s.waits[OfEvent(e)].list[0])
    ensures
      var s1 := Step(s, Signal(e, false));
      && Inv(s1) && MaskOk(s1) && Enabled(s1, TimerTick(now))
      && !MaskOk(Step(s1, TimerTick(now)))
  {
    hide QueuesOk, WaitsOk, ThreadsOk, DomainOk, Side, Step;
    SignalReadies(s, e);
    StepInv(s, Signal(e, false));
    MaskFollowsSections(s, Signal(e, false));
    InvOthers(s);
    MaskFollowsSections(Step(s, Signal(e, false)), TimerTick(now));
  }

  // ---- both happen --------------------------------------------------------

  lemma {:induction false} RunsConcat(s: Kernel, a: seq<Action>, b: seq<Action>)
    requires Inv(s) && Runs(s, a) && Runs(End(s, a), b)
    ensures Runs(s, a + b) && End(s, a + b) == End(End(s, a), b)
    decreases |a|
  {
    hide Inv, Enabled, Step;
    if a == [] {
      assert a + b == b;
    } else {
      StepInv(s, a[0]);
      RunsConcat(Step(s, a[0]), a[1..], b);
      assert (a + b)[0] == a[0] && (a + b)[1..] == a[1..] + b;
    }
  }

  lemma TwoMore(s: Kernel, a: Action, b: Action)
    requires Inv(s) && Enabled(s, a) && Inv(Step(s, a)) && Enabled(Step(s, a), b)
    ensures Runs(s, [a, b]) && End(s, [a, b]) == Step(Step(s, a), b)
  {
    hide Inv, Enabled, Step;
    var s1 := Step(s, a);
    StepInv(s1, b);
    assert [a, b][1..] == [b] && [b][1..] == [];
    assert Runs(s1, [b]) && End(s1, [b]) == Step(s1, b);
  }

  /** A run from boot that leaves a section behind: the mask no longer follows the sections. */
  lemma LeakFromBoot()
    ensures
      var run := TimedWait() + [Signal(E, false), TimerTick(10)];
      Inv(Begin()) && Runs(Begin(), run) && !MaskOk(End(Begin(), run))
  {
    hide Inv, Enabled, Step, Runs, End, MaskOk, Begin, TimedWait;
    TimedWaitReached();
    var s := End(Begin(), TimedWait());
    LeakReady(s);
    LateTimeoutLeaks(s, E, 10);
    TwoMore(s, Signal(E, false), TimerTick(10));
    RunsConcat(Begin(), TimedWait(), [Signal(E, false), TimerTick(10)]);
  }

  lemma LeakReady(s: Kernel)
    requires Inv(s) && Bare(s) == Timed(User, 0)
    ensures MaskOk(s) && !s.masked && Enabled(s, Signal(E, false))
    ensures !s.events[E].signalled && s.events[E].auto && OfEvent(E) in s.waits && s.waits[OfEvent(E)].list == [2]
    ensures Due(s.timers, 10) && s.timers[0].body == Timeout(2)
  {
    hide Good, Side;
  }

  /** A run from boot after which a thread waits for ever for a mutex that nobody holds. */
  lemma StrandingFromBoot(now: Word, more: seq<Action>)
    ensures
      var run := TimedClaim() + [ReleaseMutex(M), Acquire(M, INFINITE_TIME, now)];
      && Inv(Begin()) && Runs(Begin(), run)
      && (Runs(End(Begin(), run), more) ==>
            var y := Abs(End(End(Begin(), run), more));
            M in y.mutexes && OfMutex(M) in y.lists && Stranded(y, M, 2))
  {
    hide Inv, Enabled, Step, Runs, End, Begin, TimedClaim, Abs, Stranded;
    TimedClaimReached();
    var s := End(Begin(), TimedClaim());
    StrandReady(s);
    HolderStrandsItself(s, M, now, more);
    TwoMore(s, ReleaseMutex(M), Acquire(M, INFINITE_TIME, now));
    RunsConcat(Begin(), TimedClaim(), [ReleaseMutex(M), Acquire(M, INFINITE_TIME, now)]);
  }

  lemma StrandReady(s: Kernel)
    requires Inv(s) && Bare(s) == HolderBack(User, 0)
    ensures Enabled(s, ReleaseMutex(M)) && s.current == 2 != s.dpcThread
    ensures OfMutex(M) in s.waits && s.waits[OfMutex(M)].list == [] && s.mutexes[M].count >= 2
  {
    hide Good, Side;
  }
}
