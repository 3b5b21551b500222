/** Which step releases a waiting thread, and what its wait returns. */
module ReleaseLaws {
  import opened Words
  import opened RunQueues
  import opened TimerQueue
  import opened KernelState
  import opened KernelOps
  import opened KernelCalls
  import opened KernelInv
  import opened KernelSteps
  import opened KernelProofs
  import opened KernelTickProofs
  import opened KernelSync
  import opened KernelLaws
  import opened KernelRuns
  import opened MutexLaws
  import opened TimeLaws

  // ---- what releases a waiter ---------------------------------------------

  /** The code a step gives to the waiters it releases. */
  function CodeOf(a: Action): int {
    if a.TimerTick? then ERR_TIMED_OUT else NO_ERROR
  }

  predicate FirstIn(y: Sync, w: WaitId, u: Tid) {
    w in y.lists && y.lists[w] != [] && y.lists[w][0] == u
  }

  /** Which steps release `u` from its wait: a release of its mutex or a signal of
      its auto-unsignal event when it is first in line, any signal of a sticky
      event, and a timer interrupt that fires its timeout. */
  ghost predicate Releases(y: Sync, timers: seq<Entry<ThreadTimer>>, a: Action, u: Tid)
    requires u in y.waiters
  {
    match a
    case ReleaseMutex(m) => y.waiters[u].w == OfMutex(m) && FirstIn(y, OfMutex(m), u)
    case Signal(e, _) => SignalReleases(y, e, u)
    case QueueCallback(_, _) => SignalReleases(y, DPC_EVENT, u)
    case Exit => SignalReleases(y, DPC_EVENT, u)
    case TimerTick(now) => TimeoutFires(timers, now, u)
    case _ => false
  }

  ghost predicate SignalReleases(y: Sync, e: nat, u: Tid)
    requires u in y.waiters
  {
    y.waiters[u].w == OfEvent(e) && e in y.events && (y.events[e].auto ==> FirstIn(y, OfEvent(e), u))
  }

  /** The waiter, released by step `a`. */
  function Woken(v: Waiter, a: Action): Waiter {
    v.(blocked := false, ret := CodeOf(a))
  }

  /** What one step does to a waiter: it releases a blocked one, just when
      `Releases` says so, and lets one that is not blocked return. */
  ghost predicate WaiterMoves(y: Sync, y': Sync, timers: seq<Entry<ThreadTimer>>, t: Tid, a: Action, u: Tid)
    requires u in y.waiters
  {
    if y.waiters[u].blocked then
      u in y'.waiters && y'.waiters[u] == if Releases(y, timers, a, u) then Woken(y.waiters[u], a) else y.waiters[u]
    else if a.Proceed? && u == t then u !in y'.waiters
    else u in y'.waiters && y'.waiters[u] == y.waiters[u]
  }

  lemma SignalMoves(y: Sync, e: nat, u: Tid)
    requires SyncOk(y) && e in y.events && OfEvent(e) in y.lists && u in y.waiters
    ensures u in DoSignal(y, e).waiters
    ensures DoSignal(y, e).waiters[u] ==
      if y.waiters[u].blocked && SignalReleases(y, e, u) then y.waiters[u].(blocked := false, ret := NO_ERROR)
      else y.waiters[u]
  {
    if !y.events[e].signalled {
      if !y.events[e].auto {
        GrantAllWaiters(Flag(y, e, true), OfEvent(e), u);
      }
    }
  }

  lemma TickMoves(y: Sync, timers: seq<Entry<ThreadTimer>>, now: Word, t: Tid, u: Tid)
    requires SyncOk(y) && u in y.waiters && OfEvent(DPC_EVENT) in y.lists
    ensures WaiterMoves(y, DoTick(y, timers, now), timers, t, TimerTick(now), u)
  {
    if y.waiters[u].blocked {
      TickReleases(y, timers, now, u);
    } else {
      TickEffect(y, timers, now, OfEvent(DPC_EVENT));
      assert u in DoTick(y, timers, now).waiters.Keys;
      assert Expired(y.waiters[u], DoTick(y, timers, now).waiters[u]);
    }
  }

  /** The state in which a deferred call has just been queued. */
  function WithCall(y: Sync, call: Call): Sync {
    y.(calls := y.calls + [call], dead := if call.Cleanup? then y.dead + {call.t} else y.dead)
  }

  lemma WithCallOk(y: Sync, call: Call)
    requires SyncOk(y)
    ensures SyncOk(WithCall(y, call))
  {
  }

  lemma CallMoves(y: Sync, call: Call, u: Tid)
    requires SyncOk(y) && DPC_EVENT in y.events && OfEvent(DPC_EVENT) in y.lists && u in y.waiters
    ensures u in DoSignal(WithCall(y, call), DPC_EVENT).waiters
    ensures DoSignal(WithCall(y, call), DPC_EVENT).waiters[u] ==
      if y.waiters[u].blocked && SignalReleases(y, DPC_EVENT, u) then y.waiters[u].(blocked := false, ret := NO_ERROR)
      else y.waiters[u]
  {
    hide SyncOk, DoSignal;
    WithCallOk(y, call);
    SignalMoves(WithCall(y, call), DPC_EVENT, u);
  }

  /** A holder with somebody waiting has a count of at least two. */
  lemma WaiterCounts(y: Sync, m: nat, u: Tid)
    requires SyncOk(y) && m in y.mutexes && y.mutexes[m].holder.Some? && u in y.waiters && y.waiters[u].w == OfMutex(m)
    ensures y.mutexes[m].count > 1
  {
    assert MutexOk(y.mutexes[m], m, y.waiters);
    assert u in Acquirers(y.waiters, m);
  }

  lemma ReleaseMoves(y: Sync, timers: seq<Entry<ThreadTimer>>, t: Tid, m: nat, u: Tid)
    requires SyncOk(y) && m in y.mutexes && OfMutex(m) in y.lists && u in y.waiters && y.mutexes[m].holder.Some?
    ensures WaiterMoves(y, DoRelease(y, m), timers, t, ReleaseMutex(m), u)
  {
    if y.waiters[u].blocked && FirstIn(y, OfMutex(m), u) {
      WaiterCounts(y, m, u);
    }
  }

  lemma WaiterStep(y: Sync, t: Tid, timers: seq<Entry<ThreadTimer>>, a: Action, u: Tid)
    requires SyncOk(y) && Applies(y, t, a) && Legal(y, t, a) && u in y.waiters
    ensures WaiterMoves(y, SyncNext(y, t, timers, a), timers, t, a, u)
  {
    hide SyncOk, Grant, DoSignal, DoTick, DoRelease, TimeoutFires, SignalReleases;
    match a
    case Signal(e, _) => SignalMoves(y, e, u);
    case QueueCallback(id, _) => CallMoves(y, Callback(id), u);
    case Exit => CallMoves(y, Cleanup(t), u);
    case TimerTick(now) => TickMoves(y, timers, now, t, u);
    case ReleaseMutex(m) => ReleaseMoves(y, timers, t, m, u);
    case _ =>
  }

  lemma WaiterOfStep(s: Kernel, a: Action, u: Tid)
    requires Inv(s) && Enabled(s, a) && u in Abs(s).waiters
    ensures WaiterMoves(Abs(s), Abs(Step(s, a)), s.timers, s.current, a, u)
  {
    hide Inv, Enabled, Step, Abs, SyncNext, WaiterMoves;
    KernelRefinesSync(s, a);
    StepLegal(s, a);
    AbsOk(s);
    WaiterStep(Abs(s), s.current, s.timers, a, u);
  }

  // ---- a waiter is released once ------------------------------------------

  /** `u` is not switched back in along the run. */
  ghost predicate Away(s: Kernel, run: seq<Action>, u: Tid)
    requires Inv(s) && Runs(s, run)
    decreases |run|
  {
    run == [] ||
    (!(run[0].Proceed? && s.current == u) && (StepInv(s, run[0]); Away(Step(s, run[0]), run[1..], u)))
  }

  /** After `k` steps of the run the wait of `u` stands as `v` says, and `u` is in
      the queue it is blocked on and in no other. */
  ghost predicate StandsAt(s: Kernel, run: seq<Action>, k: nat, u: Tid, v: Waiter)
    requires Inv(s) && Runs(s, run) && k <= |run|
  {
    var y := Abs(Nth(s, run, k));
    && u in y.waiters && y.waiters[u] == v
    && (forall w | w in y.lists :: u in y.lists[w] <==> v.blocked && v.w == w)
  }

  /** Step `k` of the run releases `u`. */
  ghost predicate ReleasesAt(s: Kernel, run: seq<Action>, k: nat, u: Tid)
    requires Inv(s) && Runs(s, run) && k < |run|
  {
    && u in Abs(Nth(s, run, k)).waiters
    && Releases(Abs(Nth(s, run, k)), Nth(s, run, k).timers, run[k], u)
  }

  lemma StandsNext(s: Kernel, run: seq<Action>, k: nat, u: Tid, v: Waiter)
    requires Inv(s) && run != [] && Enabled(s, run[0]) && Inv(Step(s, run[0])) && Runs(Step(s, run[0]), run[1..]) && k < |run|
    ensures Runs(s, run) && StandsAt(s, run, k + 1, u, v) == StandsAt(Step(s, run[0]), run[1..], k, u, v)
  {
    hide Inv, Enabled, Step, Abs;
  }

  /** A released waiter keeps its code until it runs: no later wake or timeout changes it. */
  lemma {:induction false} ReleasedStays(s: Kernel, run: seq<Action>, u: Tid)
    requires Inv(s) && Runs(s, run) && Away(s, run, u)
    requires u in Abs(s).waiters && !Abs(s).waiters[u].blocked
    ensures forall j | 0 <= j <= |run| :: StandsAt(s, run, j, u, Abs(s).waiters[u])
    decreases |run|
  {
    hide Inv, Step, Enabled, Abs, StandsAt;
    var v := Abs(s).waiters[u];
    StandsFirst(s, run, u);
    if run != [] {
      StepInv(s, run[0]);
      WaiterOfStep(s, run[0], u);
      ReleasedStays(Step(s, run[0]), run[1..], u);
      forall j | 0 <= j <= |run| ensures StandsAt(s, run, j, u, v) {
        if j > 0 {
          StandsNext(s, run, j - 1, u, v);
        }
      }
    }
  }

  lemma StandsFirst(s: Kernel, run: seq<Action>, u: Tid)
    requires Inv(s) && Runs(s, run) && u in Abs(s).waiters
    ensures StandsAt(s, run, 0, u, Abs(s).waiters[u])
  {
    hide Inv, Abs, Runs;
    AbsOk(s);
  }

  lemma ReleasesNext(s: Kernel, run: seq<Action>, k: nat, u: Tid)
    requires Inv(s) && run != [] && Enabled(s, run[0]) && Inv(Step(s, run[0])) && Runs(Step(s, run[0]), run[1..]) && k + 1 < |run|
    ensures Runs(s, run) && ReleasesAt(s, run, k + 1, u) == ReleasesAt(Step(s, run[0]), run[1..], k, u)
  {
    hide Inv, Enabled, Step, Abs, Releases;
  }

  /** A blocked thread that is not switched in stays blocked as it is up to the
      first step that wakes its queue or fires its timeout. That step releases it
      with its own code, and no later step touches that. If the result is the
      length of the run, no step released it. */
  lemma {:induction false} ReleasedOnce(s: Kernel, run: seq<Action>, u: Tid) returns (k: nat)
    requires Inv(s) && Runs(s, run) && Away(s, run, u)
    requires u in Abs(s).waiters && Abs(s).waiters[u].blocked
    ensures k <= |run|
    ensures forall j | 0 <= j < k :: !ReleasesAt(s, run, j, u)
    ensures forall j | 0 <= j <= k :: StandsAt(s, run, j, u, Abs(s).waiters[u])
    ensures k < |run| ==> ReleasesAt(s, run, k, u)
    ensures forall j | k < j <= |run| :: StandsAt(s, run, j, u, Woken(Abs(s).waiters[u], run[k]))
    decreases |run|
  {
    hide Inv, Abs, Enabled, Step, StandsAt, Releases, ReleasesAt;
    k := 0;
    var v := Abs(s).waiters[u];
    StandsFirst(s, run, u);
    if run != [] {
      StepInv(s, run[0]);
      WaiterOfStep(s, run[0], u);
      ReleasesFirst(s, run, u);
      var s1 := Step(s, run[0]);
      if Releases(Abs(s), s.timers, run[0], u) {
        ReleasedStays(s1, run[1..], u);
        forall j | 0 < j <= |run| ensures StandsAt(s, run, j, u, Woken(v, run[0])) {
          StandsNext(s, run, j - 1, u, Woken(v, run[0]));
        }
      } else {
        var i := ReleasedOnce(s1, run[1..], u);
        k := i + 1;
        forall j | 0 <= j < k ensures !ReleasesAt(s, run, j, u) {
          if j > 0 { ReleasesNext(s, run, j - 1, u); }
        }
        forall j | 0 <= j <= k ensures StandsAt(s, run, j, u, v) {
          if j > 0 { StandsNext(s, run, j - 1, u, v); }
        }
        if k < |run| {
          ReleasesNext(s, run, i, u);
        }
        forall j | k < j <= |run| ensures StandsAt(s, run, j, u, Woken(v, run[k])) {
          StandsNext(s, run, j - 1, u, Woken(v, run[k]));
        }
      }
    }
  }

  lemma ReleasesFirst(s: Kernel, run: seq<Action>, u: Tid)
    requires Inv(s) && Runs(s, run) && run != [] && u in Abs(s).waiters
    ensures ReleasesAt(s, run, 0, u) <==> Releases(Abs(s), s.timers, run[0], u)
  {
    hide Inv, Abs, Runs, Releases;
  }

  // ---- returning from a wait ----------------------------------------------

  lemma BusyHasNoTimer(s: Kernel)
    requires Busy(s)
    ensures s.current in s.threads && s.threads[s.current].cont.User?
    ensures forall i | 0 <= i < |s.timers| :: s.timers[i].body.t != s.current
  {
    hide QueuesOk, WaitsOk, ThreadsOk, DomainOk, Side;
    NoOwnTimer(s);
  }

  lemma ContinueCurrent(s: Kernel)
    requires Inv(s)
    ensures s.threads[s.current].cont.InWait? && s.threads[s.current].cont.w.OfMutex? ==>
      s.threads[s.current].cont.w.m in s.mutexes
    ensures Continue(s).current == s.current
  {
    hide QueuesOk, WaitsOk, TimersGood, Side;
    ContinueShape(s);
    ReturnedEffect(s);
    if s.threads[s.current].cont.InWait? {
      ExitNCurrent(AfterWait(Returned(s), s.threads[s.current].cont.w, s.threads[s.current].blockRet), 2);
    } else {
      ExitNCurrent(Returned(s), s.threads[s.current].cont.Exits());
    }
  }

  lemma {:induction false} ExitNCurrent(s: Kernel, n: nat)
    ensures ExitN(s, n).current == s.current
    decreases n
  {
    if n > 0 {
      ExitNCurrent(KernelOps.Exit(s), n - 1);
    }
  }

  /** A thread in a wait that runs again was released by exactly one step since
      it blocked. It returns that step's code, and leaves no timer behind. */
  lemma ReturnFromWait(s: Kernel, run: seq<Action>, u: Tid) returns (k: nat)
    requires Inv(s) && Runs(s, run) && Away(s, run, u)
    requires u in Abs(s).waiters && Abs(s).waiters[u].blocked
    requires End(s, run).current == u && Enabled(End(s, run), Proceed)
    ensures k < |run| && ReleasesAt(s, run, k, u)
    ensures forall j | 0 <= j < k :: !ReleasesAt(s, run, j, u)
    ensures End(s, run).threads[u].cont.InWait? && End(s, run).threads[u].blockRet == CodeOf(run[k])
    ensures
      var f' := Step(End(s, run), Proceed);
      && f'.current == u && u in f'.threads && f'.threads[u].cont.User?
      && (forall i | 0 <= i < |f'.timers| :: f'.timers[i].body.t != u)
  {
    hide Inv, Enabled, Step, Abs, Runs, Away, End, ReleasesAt;
    var f := End(s, run);
    k := ReleasedOnce(s, run, u);
    NthIsEnd(s, run);
    if k < |run| {
      assert StandsAt(s, run, |run|, u, Woken(Abs(s).waiters[u], run[k]));
      RunningWaiter(f);
      ReturnClears(f);
    } else {
      assert StandsAt(s, run, |run|, u, Abs(s).waiters[u]);
      RunningWaiter(f);
      assert false;
    }
  }

  lemma RunningWaiter(s: Kernel)
    requires Inv(s) && Enabled(s, Proceed) && s.current in Abs(s).waiters
    ensures s.current in s.threads && s.threads[s.current].cont.InWait?
    ensures !Abs(s).waiters[s.current].blocked && Abs(s).waiters[s.current].ret == s.threads[s.current].blockRet
  {
    hide QueuesOk, WaitsOk, TimersGood, Side;
  }

  lemma ReturnClears(s: Kernel)
    requires Inv(s) && Enabled(s, Proceed) && s.current in s.threads && s.threads[s.current].cont.InWait?
    ensures
      var s' := Step(s, Proceed);
      && s'.current == s.current && s.current in s'.threads && s'.threads[s.current].cont.User?
      && (forall i | 0 <= i < |s'.timers| :: s'.timers[i].body.t != s.current)
  {
    hide Good, Side, Continue;
    ContinueInv(s);
    ContinueCurrent(s);
    BusyHasNoTimer(Continue(s));
  }
}
