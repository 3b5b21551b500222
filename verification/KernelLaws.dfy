/** Laws of the synchronisation machine: who is released, in which order, and what is conserved. */
module KernelLaws {
  import opened Words
  import opened RunQueues
  import opened TimerQueue
  import opened KernelState
  import opened KernelOps
  import opened KernelCalls
  import opened KernelInv
  import opened KernelSteps
  import opened KernelSide
  import opened KernelSync

  /** What the kernel's invariant says about the machine. */
  ghost predicate SyncOk(y: Sync) {
    && MutexesOk(y.mutexes, y.waiters)
    && (forall w | w in y.lists :: NoDup(y.lists[w]))
    && (forall w, t | w in y.lists && t in y.lists[w] :: t in y.waiters && y.waiters[t].blocked && y.waiters[t].w == w)
    && (forall t | t in y.waiters && y.waiters[t].blocked :: y.waiters[t].w in y.lists && t in y.lists[y.waiters[t].w])
    && (forall t | t in y.waiters && !y.waiters[t].blocked :: y.waiters[t].ret == NO_ERROR ||
          (y.waiters[t].ret == ERR_TIMED_OUT && y.waiters[t].timed))
    && (forall e | e in y.events && y.events[e].signalled && OfEvent(e) in y.lists :: y.lists[OfEvent(e)] == [])
  }

  lemma AbsMutexes(s: Kernel)
    requires Inv(s)
    ensures MutexesOk(Abs(s).mutexes, Abs(s).waiters)
    ensures EventsOk(s.events, s.waits)
  {
  }

  lemma AbsLists(s: Kernel)
    requires WaitsOk(s.waits, s.threads) && ThreadsOk(s)
    ensures
      var y := Abs(s);
      && (forall w | w in y.lists :: NoDup(y.lists[w]))
      && (forall w, t | w in y.lists && t in y.lists[w] :: t in y.waiters && y.waiters[t].blocked && y.waiters[t].w == w)
  {
    var y := Abs(s);
    forall w | w in y.lists ensures NoDup(y.lists[w]) {
      assert WaitOk(s.waits[w], w, s.threads);
    }
    forall w, t | w in y.lists && t in y.lists[w]
      ensures t in y.waiters && y.waiters[t].blocked && y.waiters[t].w == w
    {
      assert WaitOk(s.waits[w], w, s.threads);
      BlockedWaits(s, t);
    }
  }

  lemma AbsBlocked(s: Kernel)
    requires WaitsOk(s.waits, s.threads) && ThreadsOk(s)
    ensures
      var y := Abs(s);
      && (forall t | t in y.waiters && y.waiters[t].blocked :: y.waiters[t].w in y.lists && t in y.lists[y.waiters[t].w])
      && (forall t | t in y.waiters && !y.waiters[t].blocked :: y.waiters[t].ret == NO_ERROR ||
            (y.waiters[t].ret == ERR_TIMED_OUT && y.waiters[t].timed))
  {
    var y := Abs(s);
    forall t | t in y.waiters && y.waiters[t].blocked
      ensures y.waiters[t].w in y.lists && t in y.lists[y.waiters[t].w]
    {
      BlockedWaits(s, t);
    }
    forall t | t in y.waiters && !y.waiters[t].blocked
      ensures y.waiters[t].ret == NO_ERROR || (y.waiters[t].ret == ERR_TIMED_OUT && y.waiters[t].timed)
    {
      assert ThreadOk(s.threads[t], t == s.current, Depth(s, t));
    }
  }

  lemma AbsOk(s: Kernel)
    requires Inv(s)
    ensures SyncOk(Abs(s))
  {
    AbsMutexes(s);
    AbsLists(s);
    AbsBlocked(s);
  }

  // ---- mutexes: who is inside acquire -------------------------------------

  /** Waiters of `m` whose timeout has expired and that have not run since. */
  function TimedOut(W: map<Tid, Waiter>, m: nat): set<Tid> {
    set t | t in W && W[t].w == OfMutex(m) && !W[t].blocked && W[t].ret == ERR_TIMED_OUT
  }

  function Holders(mx: Mutex): set<Tid> {
    if mx.holder.Some? then {mx.holder.value} else {}
  }

  function Elements(s: seq<Tid>): set<Tid> {
    set t | t in s
  }

  lemma {:induction false} NoDupSize(s: seq<Tid>)
    requires NoDup(s)
    ensures |Elements(s)| == |s|
  {
    if s != [] {
      var rest := s[1..];
      NoDupSize(rest);
      assert s == [s[0]] + rest;
      assert s[0] !in rest;
      assert Elements(s) == Elements(rest) + {s[0]};
    }
  }

  /** At most one thread owns the mutex or is being handed it, and the count is
      owner or hand-off + queued + timed out and not yet backed out. */
  lemma MutexCensus(y: Sync, m: nat)
    requires SyncOk(y) && m in y.mutexes && OfMutex(m) in y.lists
    ensures |Holders(y.mutexes[m])| + |Handoffs(y.waiters, m)| <= 1
    ensures y.mutexes[m].count ==
      |Holders(y.mutexes[m])| + |Handoffs(y.waiters, m)| + |y.lists[OfMutex(m)]| + |TimedOut(y.waiters, m)|
  {
    assert MutexOk(y.mutexes[m], m, y.waiters);
    AcquirersSplit(y, m);
    var H := Handoffs(y.waiters, m);
    if H != {} {
      var t :| t in H;
      assert H == {t};
    }
  }

  lemma AcquirersSplit(y: Sync, m: nat)
    requires SyncOk(y) && OfMutex(m) in y.lists
    ensures |Acquirers(y.waiters, m)| ==
      |y.lists[OfMutex(m)]| + |Handoffs(y.waiters, m)| + |TimedOut(y.waiters, m)|
  {
    var list := y.lists[OfMutex(m)];
    var queued := Elements(list);
    var A, H, T := Acquirers(y.waiters, m), Handoffs(y.waiters, m), TimedOut(y.waiters, m);
    NoDupSize(list);
    forall t ensures t in A <==> t in queued || t in H || t in T {
    }
    assert queued !! H && queued + H !! T;
    assert A == queued + H + T;
  }

  // ---- per-step effects on one wait queue ---------------------------------

  lemma {:induction false} GrantAllQueues(y: Sync, w: WaitId)
    requires w in y.lists
    ensures GrantAll(y, w).lists == y.lists[w := []]
    ensures GrantAll(y, w).mutexes == y.mutexes && GrantAll(y, w).events == y.events
    ensures GrantAll(y, w) == y.(lists := GrantAll(y, w).lists, waiters := GrantAll(y, w).waiters)
    ensures forall t :: t in GrantAll(y, w).waiters <==> t in y.waiters
    decreases |y.lists[w]|
  {
    if y.lists[w] == [] {
      assert y.lists == y.lists[w := []];
    } else {
      var y1 := Grant(y, w, 0, NO_ERROR);
      assert y1.lists[w] == y.lists[w][1..];
      GrantAllQueues(y1, w);
      assert y1.lists[w := []] == y.lists[w := []];
    }
  }

  /** GrantAll releases exactly the threads in the queue. */
  lemma {:induction false} GrantAllWaiters(y: Sync, w: WaitId, t: Tid)
    requires w in y.lists && t in y.waiters
    requires forall u | u in y.lists[w] :: u in y.waiters
    ensures t in GrantAll(y, w).waiters
    ensures GrantAll(y, w).waiters[t] ==
      if t in y.lists[w] then y.waiters[t].(blocked := false, ret := NO_ERROR) else y.waiters[t]
    decreases |y.lists[w]|
  {
    if y.lists[w] != [] {
      var y1 := Grant(y, w, 0, NO_ERROR);
      assert y1.lists[w] == y.lists[w][1..];
      assert y.lists[w] == [y.lists[w][0]] + y.lists[w][1..];
      GrantAllWaiters(y1, w, t);
    }
  }

  // ---- what a step does to one mutex --------------------------------------

  /** What the kernel guarantees about the thread that takes a step. */
  ghost predicate Legal(y: Sync, t: Tid, a: Action)
    requires Applies(y, t, a)
  {
    && (!a.Proceed? ==> t !in y.waiters)
    && (a.Proceed? && t in y.waiters ==> !y.waiters[t].blocked)
    && (a.ReleaseMutex? ==> y.mutexes[a.m].holder == Some(t))
    && (a.Wait? || a.Signal? || a.Unsignal? ==> a.e != DPC_EVENT)
  }

  lemma StepLegal(s: Kernel, a: Action)
    requires Inv(s) && Enabled(s, a)
    ensures Applies(Abs(s), s.current, a) && Legal(Abs(s), s.current, a)
  {
    Known(s, a);
    AbsWaiter(s, s.current);
  }

  /** The queue, the mutex and the waiters of `m` are the same. */
  ghost predicate Same(y: Sync, y': Sync, m: nat)
    requires m in y.mutexes && OfMutex(m) in y.lists
  {
    && m in y'.mutexes && y'.mutexes[m] == y.mutexes[m]
    && OfMutex(m) in y'.lists && y'.lists[OfMutex(m)] == y.lists[OfMutex(m)]
    && (forall t :: t in y.waiters && y.waiters[t].w == OfMutex(m) <==> t in y'.waiters && y'.waiters[t].w == OfMutex(m))
    && (forall t | t in y.waiters && y.waiters[t].w == OfMutex(m) :: y'.waiters[t] == y.waiters[t])
  }

  lemma SameSets(y: Sync, y': Sync, m: nat)
    requires m in y.mutexes && OfMutex(m) in y.lists && Same(y, y', m)
    ensures Handoffs(y'.waiters, m) == Handoffs(y.waiters, m)
    ensures TimedOut(y'.waiters, m) == TimedOut(y.waiters, m)
  {
    forall t ensures t in Handoffs(y'.waiters, m) <==> t in Handoffs(y.waiters, m) {
      assert t in y.waiters && y.waiters[t].w == OfMutex(m) <==> t in y'.waiters && y'.waiters[t].w == OfMutex(m);
    }
    forall t ensures t in TimedOut(y'.waiters, m) <==> t in TimedOut(y.waiters, m) {
      assert t in y.waiters && y.waiters[t].w == OfMutex(m) <==> t in y'.waiters && y'.waiters[t].w == OfMutex(m);
    }
  }

  /** The step acquires, releases or waits for `m`. */
  predicate Touches(y: Sync, t: Tid, a: Action, m: nat) {
    || (a.Acquire? && a.m == m)
    || (a.ReleaseMutex? && a.m == m)
    || (a.Proceed? && t in y.waiters && y.waiters[t].w == OfMutex(m))
    || a.TimerTick?
  }

  /** Waking the waiters of an event leaves every other waiter alone. */
  lemma GrantAllOthers(y: Sync, w: WaitId)
    requires w in y.lists
    requires forall u | u in y.lists[w] :: u in y.waiters && y.waiters[u].w == w
    ensures forall t | t in y.waiters ::
      && t in GrantAll(y, w).waiters
      && GrantAll(y, w).waiters[t].w == y.waiters[t].w
      && (y.waiters[t].w != w ==> GrantAll(y, w).waiters[t] == y.waiters[t])
  {
    forall t | t in y.waiters
      ensures t in GrantAll(y, w).waiters
      ensures GrantAll(y, w).waiters[t].w == y.waiters[t].w
      ensures y.waiters[t].w != w ==> GrantAll(y, w).waiters[t] == y.waiters[t]
    {
      GrantAllWaiters(y, w, t);
    }
  }

  lemma SameGrantAll(y: Sync, e: nat, m: nat)
    requires OfEvent(e) in y.lists && m in y.mutexes && OfMutex(m) in y.lists
    requires forall u | u in y.lists[OfEvent(e)] :: u in y.waiters && y.waiters[u].w == OfEvent(e)
    ensures Same(y, GrantAll(y, OfEvent(e)), m)
  {
    GrantAllQueues(y, OfEvent(e));
    GrantAllOthers(y, OfEvent(e));
  }

  lemma SameSignal(y: Sync, e: nat, m: nat)
    requires SyncOk(y) && e in y.events && OfEvent(e) in y.lists && m in y.mutexes && OfMutex(m) in y.lists
    ensures Same(y, DoSignal(y, e), m)
  {
    if !y.events[e].signalled && !y.events[e].auto {
      SameGrantAll(y, e, m);
      GrantAllFlag(y, OfEvent(e), e);
    }
  }

  lemma SameJoin(y: Sync, t: Tid, w: WaitId, timed: bool, m: nat)
    requires t !in y.waiters && w in y.lists && w != OfMutex(m) && m in y.mutexes && OfMutex(m) in y.lists
    ensures Same(y, Join(y, t, w, timed), m)
  {
  }

  lemma SameReturn(y: Sync, t: Tid, m: nat)
    requires t in y.waiters && y.waiters[t].w != OfMutex(m) && m in y.mutexes && OfMutex(m) in y.lists
    requires y.waiters[t].w.OfMutex? ==> y.waiters[t].w.m in y.mutexes
    ensures Same(y, DoReturn(y, t), m)
  {
  }

  lemma Untouched(y: Sync, t: Tid, timers: seq<Entry<ThreadTimer>>, a: Action, m: nat)
    requires SyncOk(y) && Applies(y, t, a) && Legal(y, t, a) && m in y.mutexes && OfMutex(m) in y.lists
    requires !Touches(y, t, a, m)
    ensures Same(y, SyncNext(y, t, timers, a), m)
  {
    match a
    case Signal(e, _) => SameSignal(y, e, m);
    case QueueCallback(id, _) => SameSignal(y.(calls := y.calls + [Callback(id)]), DPC_EVENT, m);
    case Exit => SameSignal(y.(calls := y.calls + [Cleanup(t)], dead := y.dead + {t}), DPC_EVENT, m);
    case ReleaseMutex(n) => SameRelease(y, n, m);
    case Acquire(n, timeout, _) => SameAcquire(y, t, n, timeout, m);
    case Wait(e, timeout, _) => SameJoin(y, t, OfEvent(e), timeout != INFINITE_TIME, m);
    case DpcWait => SameJoin(y, t, OfEvent(DPC_EVENT), false, m);
    case Proceed => if t in y.waiters { SameReturn(y, t, m); }
    case _ =>
  }

  lemma SameAcquire(y: Sync, t: Tid, n: nat, timeout: Word, m: nat)
    requires t !in y.waiters && n in y.mutexes && OfMutex(n) in y.lists && m in y.mutexes && OfMutex(m) in y.lists && n != m
    ensures Same(y, DoAcquire(y, t, n, timeout), m)
  {
  }

  lemma SameRelease(y: Sync, n: nat, m: nat)
    requires SyncOk(y) && n in y.mutexes && OfMutex(n) in y.lists && m in y.mutexes && OfMutex(m) in y.lists && n != m
    ensures Same(y, DoRelease(y, n), m)
  {
  }

  /** Timeouts leave the mutexes, the events and the hand-offs alone, and only shorten queues. */
  lemma {:induction false} TickEffect(y: Sync, timers: seq<Entry<ThreadTimer>>, now: Word, w: WaitId)
    requires w in y.lists
    ensures
      var y' := DoTick(y, timers, now);
      && y' == y.(lists := y'.lists, waiters := y'.waiters) && y'.lists.Keys == y.lists.Keys
      && y'.waiters.Keys == y.waiters.Keys
      && (y.lists[w] == [] ==> y'.lists[w] == [])
      && (forall t | t in y.waiters :: Expired(y.waiters[t], y'.waiters[t]))
    decreases |timers|
  {
    if Due(timers, now) {
      var y1 := if timers[0].body.Timeout? then DoTimeout(y, timers[0].body.t) else y;
      TimeoutEffect(y, timers[0].body.t, w);
      TickEffect(y1, timers[1..], now, w);
    }
  }

  /** A waiter is as it was, or it has given up. */
  ghost predicate Expired(a: Waiter, b: Waiter) {
    b == a || (a.blocked && b == a.(blocked := false, ret := ERR_TIMED_OUT))
  }

  lemma TimeoutEffect(y: Sync, t: Tid, w: WaitId)
    requires w in y.lists
    ensures
      var y' := DoTimeout(y, t);
      && y' == y.(lists := y'.lists, waiters := y'.waiters) && y'.lists.Keys == y.lists.Keys
      && y'.waiters.Keys == y.waiters.Keys
      && (y.lists[w] == [] ==> y'.lists[w] == [])
      && (forall u | u in y.waiters :: Expired(y.waiters[u], y'.waiters[u]))
  {
  }

  lemma TickHandoffs(y: Sync, timers: seq<Entry<ThreadTimer>>, now: Word, m: nat)
    requires SyncOk(y) && OfMutex(m) in y.lists
    ensures Handoffs(DoTick(y, timers, now).waiters, m) == Handoffs(y.waiters, m)
  {
    var y' := DoTick(y, timers, now);
    TickEffect(y, timers, now, OfMutex(m));
    assert forall t :: t in y'.waiters <==> t in y'.waiters.Keys;
    assert forall t :: t in y.waiters <==> t in y.waiters.Keys;
    forall t ensures t in Handoffs(y'.waiters, m) <==> t in Handoffs(y.waiters, m) {
      if t in y.waiters {
        assert Expired(y.waiters[t], y'.waiters[t]);
      }
    }
  }

  // ---- no lost wakeup -----------------------------------------------------

  /** Threads wait for `m` and nobody will ever wake them. */
  ghost predicate Lost(y: Sync, m: nat)
    requires m in y.mutexes && OfMutex(m) in y.lists
  {
    y.lists[OfMutex(m)] != [] && y.mutexes[m].holder.None? && Handoffs(y.waiters, m) == {}
  }

  /** The acquire finds the mutex free and still waits, because timed-out waiters keep the count up. */
  ghost predicate BlocksOnFree(y: Sync, a: Action, m: nat)
    requires m in y.mutexes && OfMutex(m) in y.lists
  {
    && a.Acquire? && a.m == m && a.timeout != 0
    && y.mutexes[m].holder.None? && Handoffs(y.waiters, m) == {} && y.mutexes[m].count > 0
  }

  lemma AcquireLoses(y: Sync, t: Tid, a: Action, m: nat)
    requires SyncOk(y) && Applies(y, t, a) && Legal(y, t, a) && m in y.mutexes && OfMutex(m) in y.lists
    requires !Lost(y, m) && a.Acquire? && a.m == m
    ensures Lost(DoAcquire(y, t, m, a.timeout), m) <==> BlocksOnFree(y, a, m)
  {
    assert MutexOk(y.mutexes[m], m, y.waiters);
    var y' := DoAcquire(y, t, m, a.timeout);
    assert Handoffs(y'.waiters, m) == Handoffs(y.waiters, m);
  }

  lemma ReleaseKeeps(y: Sync, t: Tid, m: nat)
    requires SyncOk(y) && m in y.mutexes && OfMutex(m) in y.lists && y.mutexes[m].holder == Some(t)
    ensures !Lost(DoRelease(y, m), m)
  {
    MutexCensus(y, m);
    var list := y.lists[OfMutex(m)];
    if list != [] {
      var u := list[0];
      assert u in y.waiters && y.waiters[u].w == OfMutex(m);
      assert u in Handoffs(DoRelease(y, m).waiters, m);
    }
  }

  lemma ReturnKeeps(y: Sync, t: Tid, m: nat)
    requires SyncOk(y) && m in y.mutexes && OfMutex(m) in y.lists && !Lost(y, m)
    requires t in y.waiters && y.waiters[t].w == OfMutex(m) && !y.waiters[t].blocked
    ensures !Lost(DoReturn(y, t), m)
  {
    var y' := DoReturn(y, t);
    if y.waiters[t].ret == ERR_TIMED_OUT {
      assert Handoffs(y'.waiters, m) == Handoffs(y.waiters, m);
    }
  }

  /** A wakeup of `m` is lost by exactly one kind of step: an acquire that
      blocks although nobody owns the mutex. */
  lemma LostExactlyWhen(y: Sync, t: Tid, timers: seq<Entry<ThreadTimer>>, a: Action, m: nat)
    requires SyncOk(y) && Applies(y, t, a) && Legal(y, t, a) && m in y.mutexes && OfMutex(m) in y.lists
    requires !Lost(y, m)
    ensures
      var y' := SyncNext(y, t, timers, a);
      && m in y'.mutexes && OfMutex(m) in y'.lists
      && (Lost(y', m) <==> BlocksOnFree(y, a, m))
  {
    if !Touches(y, t, a, m) {
      Untouched(y, t, timers, a, m);
      SameSets(y, SyncNext(y, t, timers, a), m);
    } else if a.Acquire? {
      AcquireLoses(y, t, a, m);
    } else if a.ReleaseMutex? {
      ReleaseKeeps(y, t, m);
    } else if a.Proceed? {
      ReturnKeeps(y, t, m);
    } else {
      TickEffect(y, timers, a.now, OfMutex(m));
      TickHandoffs(y, timers, a.now, m);
    }
  }
}
