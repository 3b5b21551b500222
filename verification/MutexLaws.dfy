/** Mutexes over whole runs of the kernel: exclusion, order of ownership, and lost wakeups. */
module MutexLaws {
  import opened Words
  import opened RunQueues
  import opened TimerQueue
  import opened KernelState
  import opened KernelOps
  import opened KernelCalls
  import opened KernelInv
  import opened KernelSteps
  import opened KernelTickProofs
  import opened KernelSync
  import opened KernelLaws
  import opened KernelRuns

  // ---- mutual exclusion ---------------------------------------------------

  /** The threads queued for `m`, in order. */
  function Waiting(s: Kernel, m: nat): seq<Tid>
    requires OfMutex(m) in s.waits
  {
    s.waits[OfMutex(m)].list
  }

  lemma KnownMutex(s: Kernel, m: nat)
    requires Inv(s) && m in s.mutexes
    ensures OfMutex(m) in s.waits && OfMutex(m) in Abs(s).lists && Abs(s).lists[OfMutex(m)] == Waiting(s, m)
  {
  }

  /** Along every run of acquires, timed acquires, releases and timer expiries at
      most one thread owns a mutex or is being handed it, and the count is exact. */
  lemma MutualExclusion(s: Kernel, run: seq<Action>, m: nat)
    requires Inv(s) && Runs(s, run) && m in End(s, run).mutexes
    ensures
      var e := End(s, run);
      var mx := e.mutexes[m];
      var W := ViewOf(e.threads).waiters;
      && OfMutex(m) in e.waits
      && |Holders(mx)| + |Handoffs(W, m)| <= 1
      && mx.count == |Holders(mx)| + |Handoffs(W, m)| + |Waiting(e, m)| + |TimedOut(W, m)|
  {
    var e := End(s, run);
    KnownMutex(e, m);
    AbsOk(e);
    MutexCensus(Abs(e), m);
  }

  /** On the abstract machine: an owner stays owner but for its own release. */
  lemma OwnerStep(y: Sync, t: Tid, timers: seq<Entry<ThreadTimer>>, a: Action, m: nat)
    requires SyncOk(y) && Applies(y, t, a) && Legal(y, t, a) && m in y.mutexes && OfMutex(m) in y.lists
    requires y.mutexes[m].holder.Some?
    ensures
      var y' := SyncNext(y, t, timers, a);
      && m in y'.mutexes
      && y'.mutexes[m].holder == if a == ReleaseMutex(m) then None else y.mutexes[m].holder
  {
    hide GrantAll;
    assert MutexOk(y.mutexes[m], m, y.waiters);
    if !Touches(y, t, a, m) {
      Untouched(y, t, timers, a, m);
    } else if a.TimerTick? {
      TickEffect(y, timers, a.now, OfMutex(m));
    } else if a.Proceed? {
      assert t !in Handoffs(y.waiters, m);
    }
  }

  /** A thread that owns a mutex owns it until its own release, whatever is done
      and whatever timeouts expire in between. */
  lemma OwnerKeepsMutex(s: Kernel, a: Action, m: nat, t: Tid)
    requires Inv(s) && Enabled(s, a) && m in s.mutexes && s.mutexes[m].holder == Some(t)
    ensures m in Step(s, a).mutexes
    ensures Step(s, a).mutexes[m].holder == if a == ReleaseMutex(m) then None else Some(t)
    ensures a == ReleaseMutex(m) ==> s.current == t
  {
    hide Inv, Step, SyncNext, SyncOk, Legal;
    KernelRefinesSync(s, a);
    StepLegal(s, a);
    AbsOk(s);
    KnownMutex(s, m);
    OwnerStep(Abs(s), s.current, s.timers, a, m);
  }

  lemma {:induction false} OwnerKeepsMutexAlongRuns(s: Kernel, run: seq<Action>, m: nat, t: Tid)
    requires Inv(s) && Runs(s, run) && m in s.mutexes && s.mutexes[m].holder == Some(t)
    requires forall i | 0 <= i < |run| :: run[i] != ReleaseMutex(m)
    ensures m in End(s, run).mutexes && End(s, run).mutexes[m].holder == Some(t)
    decreases |run|
  {
    hide Inv, Step, Enabled;
    if run != [] {
      StepInv(s, run[0]);
      OwnerKeepsMutex(s, run[0], m, t);
      OwnerKeepsMutexAlongRuns(Step(s, run[0]), run[1..], m, t);
    }
  }

  // ---- timers belong to timed waiters -------------------------------------

  ghost predicate TimersTimed(y: Sync, timers: seq<Entry<ThreadTimer>>) {
    forall i | 0 <= i < |timers| && timers[i].body.Timeout? ::
      timers[i].body.t in y.waiters && y.waiters[timers[i].body.t].timed
  }

  lemma StepTimers(s: Kernel)
    requires TimersOk(s.timers, s.threads)
    ensures TimersTimed(Abs(s), s.timers)
  {
  }

  /** No thread waits for `m` with a timeout. */
  ghost predicate Untimed(y: Sync, m: nat) {
    forall t | t in y.waiters && y.waiters[t].w == OfMutex(m) :: !y.waiters[t].timed
  }

  lemma {:induction false} TickUntimed(y: Sync, timers: seq<Entry<ThreadTimer>>, now: Word, m: nat)
    requires OfMutex(m) in y.lists && Untimed(y, m) && TimersTimed(y, timers)
    ensures
      var y' := DoTick(y, timers, now);
      OfMutex(m) in y'.lists && y'.lists[OfMutex(m)] == y.lists[OfMutex(m)] && Untimed(y', m)
    decreases |timers|
  {
    if Due(timers, now) {
      var t := timers[0].body.t;
      var y1 := if timers[0].body.Timeout? then DoTimeout(y, t) else y;
      assert Untimed(y1, m);
      assert TimersTimed(y1, timers[1..]) by {
        forall i | 0 <= i < |timers[1..]| && timers[1..][i].body.Timeout?
          ensures timers[1..][i].body.t in y1.waiters && y1.waiters[timers[1..][i].body.t].timed
        {
          assert timers[1..][i] == timers[i + 1];
        }
      }
      TickUntimed(y1, timers[1..], now, m);
    }
  }

  /** The step does not wait for `m` with a finite non-zero timeout. */
  predicate UntimedStep(a: Action, m: nat) {
    a.Acquire? && a.m == m ==> a.timeout == 0 || a.timeout == INFINITE_TIME
  }

  lemma StaysUntimed(y: Sync, t: Tid, timers: seq<Entry<ThreadTimer>>, a: Action, m: nat)
    requires SyncOk(y) && Applies(y, t, a) && Legal(y, t, a) && TimersTimed(y, timers)
    requires m in y.mutexes && OfMutex(m) in y.lists && Untimed(y, m) && UntimedStep(a, m)
    ensures Untimed(SyncNext(y, t, timers, a), m)
  {
    if !Touches(y, t, a, m) {
      Untouched(y, t, timers, a, m);
      var y' := SyncNext(y, t, timers, a);
      forall u | u in y'.waiters && y'.waiters[u].w == OfMutex(m) ensures !y'.waiters[u].timed {
        assert u in y.waiters && y.waiters[u].w == OfMutex(m);
      }
    } else if a.TimerTick? {
      TickUntimed(y, timers, a.now, m);
    }
  }

  // ---- strict arrival order -----------------------------------------------

  /** The thread that starts to wait for `m` in this step. */
  function Arrival(y: Sync, t: Tid, a: Action, y': Sync, m: nat): seq<Tid> {
    if a.Acquire? && a.m == m && OfMutex(m) in y'.lists && t in y'.lists[OfMutex(m)] then [t] else []
  }

  /** `t` becomes the next owner in this step. */
  predicate Granted(y: Sync, y': Sync, m: nat, t: Tid) {
    t in Handoffs(y'.waiters, m) && t !in Handoffs(y.waiters, m)
  }

  /** The thread that is granted `m` in this step, if there is one. */
  ghost function GrantSeq(y: Sync, y': Sync, m: nat): seq<Tid> {
    if exists t :: Granted(y, y', m, t) then
      var t :| Granted(y, y', m, t);
      [t]
    else []
  }

  lemma GrantNone(y: Sync, y': Sync, m: nat)
    requires Handoffs(y'.waiters, m) <= Handoffs(y.waiters, m)
    ensures GrantSeq(y, y', m) == []
  {
  }

  lemma GrantOne(y: Sync, y': Sync, m: nat, t: Tid)
    requires t !in Handoffs(y.waiters, m) && Handoffs(y'.waiters, m) == Handoffs(y.waiters, m) + {t}
    ensures GrantSeq(y, y', m) == [t]
  {
    assert Granted(y, y', m, t);
  }

  lemma FifoAcquire(y: Sync, t: Tid, a: Action, m: nat)
    requires SyncOk(y) && Applies(y, t, a) && Legal(y, t, a) && m in y.mutexes && OfMutex(m) in y.lists
    requires a.Acquire? && a.m == m
    ensures
      var y' := DoAcquire(y, t, m, a.timeout);
      y.lists[OfMutex(m)] + Arrival(y, t, a, y', m) == GrantSeq(y, y', m) + y'.lists[OfMutex(m)]
  {
    var y' := DoAcquire(y, t, m, a.timeout);
    assert Handoffs(y'.waiters, m) == Handoffs(y.waiters, m);
    GrantNone(y, y', m);
    assert t !in y.lists[OfMutex(m)];
  }

  lemma FifoRelease(y: Sync, t: Tid, m: nat)
    requires SyncOk(y) && m in y.mutexes && OfMutex(m) in y.lists && y.mutexes[m].holder == Some(t)
    ensures
      var y' := DoRelease(y, m);
      y.lists[OfMutex(m)] == GrantSeq(y, y', m) + y'.lists[OfMutex(m)]
  {
    var y' := DoRelease(y, m);
    MutexCensus(y, m);
    var list := y.lists[OfMutex(m)];
    if list != [] {
      var u := list[0];
      assert u in y.waiters && y.waiters[u].blocked && y.waiters[u].w == OfMutex(m);
      assert Handoffs(y'.waiters, m) == Handoffs(y.waiters, m) + {u};
      GrantOne(y, y', m, u);
      assert list == [list[0]] + list[1..];
    } else {
      GrantNone(y, y', m);
    }
  }

  /** Each step keeps the queue in order: it grows at the tail by arrivals and shrinks at the head by grants. */
  lemma FifoStep(y: Sync, t: Tid, timers: seq<Entry<ThreadTimer>>, a: Action, m: nat)
    requires SyncOk(y) && Applies(y, t, a) && Legal(y, t, a) && TimersTimed(y, timers)
    requires m in y.mutexes && OfMutex(m) in y.lists && Untimed(y, m)
    ensures
      var y' := SyncNext(y, t, timers, a);
      && OfMutex(m) in y'.lists
      && y.lists[OfMutex(m)] + Arrival(y, t, a, y', m) == GrantSeq(y, y', m) + y'.lists[OfMutex(m)]
  {
    var y' := SyncNext(y, t, timers, a);
    if !Touches(y, t, a, m) {
      Untouched(y, t, timers, a, m);
      SameSets(y, y', m);
      GrantNone(y, y', m);
    } else if a.Acquire? {
      FifoAcquire(y, t, a, m);
    } else if a.ReleaseMutex? {
      FifoRelease(y, t, m);
    } else if a.Proceed? {
      GrantNone(y, y', m);
    } else {
      TickUntimed(y, timers, a.now, m);
      TickHandoffs(y, timers, a.now, m);
      GrantNone(y, y', m);
    }
  }

  /** The threads that start to wait for `m` along a run, in order. */
  ghost function Arrivals(s: Kernel, run: seq<Action>, m: nat): seq<Tid>
    requires Inv(s) && Runs(s, run)
    decreases |run|
  {
    if run == [] then [] else
    StepInv(s, run[0]);
    var s1 := Step(s, run[0]);
    Arrival(Abs(s), s.current, run[0], Abs(s1), m) + Arrivals(s1, run[1..], m)
  }

  /** The threads that are granted `m` along a run, in order. */
  ghost function Grants(s: Kernel, run: seq<Action>, m: nat): seq<Tid>
    requires Inv(s) && Runs(s, run)
    decreases |run|
  {
    if run == [] then [] else
    StepInv(s, run[0]);
    var s1 := Step(s, run[0]);
    GrantSeq(Abs(s), Abs(s1), m) + Grants(s1, run[1..], m)
  }

  ghost predicate UntimedRun(run: seq<Action>, m: nat) {
    forall i | 0 <= i < |run| :: UntimedStep(run[i], m)
  }

  lemma SyncKeepsMutex(y: Sync, t: Tid, timers: seq<Entry<ThreadTimer>>, a: Action, m: nat)
    requires SyncOk(y) && Applies(y, t, a) && Legal(y, t, a) && m in y.mutexes && OfMutex(m) in y.lists
    ensures m in SyncNext(y, t, timers, a).mutexes
  {
    if !Touches(y, t, a, m) {
      Untouched(y, t, timers, a, m);
    } else if a.TimerTick? {
      TickEffect(y, timers, a.now, OfMutex(m));
    }
  }

  lemma StepKeepsMutex(s: Kernel, a: Action, m: nat)
    requires Inv(s) && Enabled(s, a) && m in s.mutexes
    ensures m in Step(s, a).mutexes
  {
    KernelRefinesSync(s, a);
    StepLegal(s, a);
    AbsOk(s);
    KnownMutex(s, m);
    SyncKeepsMutex(Abs(s), s.current, s.timers, a, m);
  }

  lemma FifoOfStep(s: Kernel, a: Action, m: nat)
    requires Inv(s) && Enabled(s, a) && m in s.mutexes && Untimed(Abs(s), m) && UntimedStep(a, m)
    requires Inv(Step(s, a)) && m in Step(s, a).mutexes
    ensures OfMutex(m) in s.waits && OfMutex(m) in Step(s, a).waits
    ensures Waiting(s, m) + Arrival(Abs(s), s.current, a, Abs(Step(s, a)), m) ==
      GrantSeq(Abs(s), Abs(Step(s, a)), m) + Waiting(Step(s, a), m)
    ensures Untimed(Abs(Step(s, a)), m)
  {
    KernelRefinesSync(s, a);
    StepLegal(s, a);
    AbsOk(s);
    StepTimers(s);
    KnownMutex(s, m);
    KnownMutex(Step(s, a), m);
    FifoStep(Abs(s), s.current, s.timers, a, m);
    StaysUntimed(Abs(s), s.current, s.timers, a, m);
  }

  /** Without timed acquires, ownership is granted in strict arrival order over
      every run, whatever the priorities and however soon the releaser asks again:
      those waiting at the start followed by the arrivals are those granted
      followed by those still waiting. */
  lemma {:induction false} GrantsFollowArrivals(s: Kernel, run: seq<Action>, m: nat)
    requires Inv(s) && Runs(s, run) && m in s.mutexes && Untimed(Abs(s), m) && UntimedRun(run, m)
    ensures m in End(s, run).mutexes && OfMutex(m) in s.waits && OfMutex(m) in End(s, run).waits
    ensures Waiting(s, m) + Arrivals(s, run, m) == Grants(s, run, m) + Waiting(End(s, run), m)
    decreases |run|
  {
    hide Good, Side, Step, Enabled, Abs, Untimed, GrantSeq, Arrival;
    KnownMutex(s, m);
    if run != [] {
      var a := run[0];
      assert UntimedStep(a, m);
      StepInv(s, a);
      StepKeepsMutex(s, a, m);
      FifoOfStep(s, a, m);
      var s1 := Step(s, a);
      assert UntimedRun(run[1..], m) by {
        forall i | 0 <= i < |run[1..]| ensures UntimedStep(run[1..][i], m) { assert run[1..][i] == run[i + 1]; }
      }
      GrantsFollowArrivals(s1, run[1..], m);
      Chain(Waiting(s, m), Arrival(Abs(s), s.current, a, Abs(s1), m), Arrivals(s1, run[1..], m),
            GrantSeq(Abs(s), Abs(s1), m), Grants(s1, run[1..], m), Waiting(s1, m), Waiting(End(s1, run[1..]), m));
    }
  }

  lemma Chain<T>(w0: seq<T>, a: seq<T>, more: seq<T>, g: seq<T>, gs: seq<T>, w1: seq<T>, w2: seq<T>)
    requires w0 + a == g + w1 && w1 + more == gs + w2
    ensures w0 + (a + more) == (g + gs) + w2
  {
    calc {
      w0 + (a + more);
      (w0 + a) + more;
      g + (w1 + more);
      (g + gs) + w2;
    }
  }

  // ---- lost wakeups -------------------------------------------------------

  /** A wakeup is lost by an acquire that blocks on a free mutex, and by nothing else. */
  lemma WakeupLostExactlyWhen(s: Kernel, a: Action, m: nat)
    requires Inv(s) && Enabled(s, a) && m in s.mutexes
    requires OfMutex(m) in Abs(s).lists && !Lost(Abs(s), m)
    ensures m in Abs(Step(s, a)).mutexes && OfMutex(m) in Abs(Step(s, a)).lists
    ensures Lost(Abs(Step(s, a)), m) <==> BlocksOnFree(Abs(s), a, m)
  {
    KernelRefinesSync(s, a);
    StepLegal(s, a);
    AbsOk(s);
    LostExactlyWhen(Abs(s), s.current, s.timers, a, m);
  }

  /** Without timed waiters a free mutex has count zero or a queue. */
  lemma UntimedNotBlocked(y: Sync, a: Action, m: nat)
    requires SyncOk(y) && m in y.mutexes && OfMutex(m) in y.lists && Untimed(y, m) && !Lost(y, m)
    ensures !BlocksOnFree(y, a, m)
  {
    MutexCensus(y, m);
    assert TimedOut(y.waiters, m) == {};
  }

  /** With only untimed or zero-timeout acquires no wakeup is ever lost: threads
      that wait always have an owner or a hand-off before them. */
  lemma {:induction false} UntimedNeverLost(s: Kernel, run: seq<Action>, m: nat)
    requires Inv(s) && Runs(s, run) && m in s.mutexes && Untimed(Abs(s), m) && UntimedRun(run, m)
    requires OfMutex(m) in Abs(s).lists && !Lost(Abs(s), m)
    ensures m in End(s, run).mutexes && OfMutex(m) in End(s, run).waits
    ensures Waiting(End(s, run), m) != [] ==>
      End(s, run).mutexes[m].holder.Some? || Handoffs(ViewOf(End(s, run).threads).waiters, m) != {}
    decreases |run|
  {
    KnownMutex(s, m);
    if run != [] {
      var a := run[0];
      assert UntimedStep(a, m);
      StepInv(s, a);
      StepKeepsMutex(s, a, m);
      FifoOfStep(s, a, m);
      AbsOk(s);
      UntimedNotBlocked(Abs(s), a, m);
      WakeupLostExactlyWhen(s, a, m);
      assert UntimedRun(run[1..], m) by {
        forall i | 0 <= i < |run[1..]| ensures UntimedStep(run[1..][i], m) { assert run[1..][i] == run[i + 1]; }
      }
      UntimedNeverLost(Step(s, a), run[1..], m);
    }
  }

  // ---- a lost wakeup is never made up for ----------------------------------

  /** `u` waits for `m` without a timeout and nobody will wake it. */
  ghost predicate Stranded(y: Sync, m: nat, u: Tid)
    requires m in y.mutexes && OfMutex(m) in y.lists
  {
    Lost(y, m) && u in y.lists[OfMutex(m)] && u in y.waiters && !y.waiters[u].timed
  }

  lemma {:induction false} TickStranded(y: Sync, timers: seq<Entry<ThreadTimer>>, now: Word, w: WaitId, u: Tid)
    requires w in y.lists && u in y.lists[w] && u in y.waiters && !y.waiters[u].timed && TimersTimed(y, timers)
    ensures
      var y' := DoTick(y, timers, now);
      w in y'.lists && u in y'.lists[w] && u in y'.waiters && !y'.waiters[u].timed
    decreases |timers|
  {
    if Due(timers, now) {
      var t := timers[0].body.t;
      var y1 := if timers[0].body.Timeout? then DoTimeout(y, t) else y;
      TimeoutKeeps(y, t, w, u);
      assert TimersTimed(y1, timers[1..]) by {
        forall i | 0 <= i < |timers[1..]| && timers[1..][i].body.Timeout?
          ensures timers[1..][i].body.t in y1.waiters && y1.waiters[timers[1..][i].body.t].timed
        {
          assert timers[1..][i] == timers[i + 1];
        }
      }
      TickStranded(y1, timers[1..], now, w, u);
    }
  }

  lemma TimeoutKeeps(y: Sync, t: Tid, w: WaitId, u: Tid)
    requires w in y.lists && u in y.lists[w] && u in y.waiters
    ensures
      var y' := DoTimeout(y, t);
      && (t != u ==> w in y'.lists && u in y'.lists[w])
      && u in y'.waiters && y'.waiters[u].timed == y.waiters[u].timed
  {
    var y' := DoTimeout(y, t);
    if t != u && y' != y {
      var v := y.waiters[t].w;
      var i := IndexOf(y.lists[v], t);
      if v == w {
        var j :| 0 <= j < |y.lists[w]| && y.lists[w][j] == u;
        assert y'.lists[w][if j < i then j else j - 1] == u;
      }
    }
  }

  lemma StrandedStep(y: Sync, t: Tid, timers: seq<Entry<ThreadTimer>>, a: Action, m: nat, u: Tid)
    requires SyncOk(y) && Applies(y, t, a) && Legal(y, t, a) && TimersTimed(y, timers)
    requires m in y.mutexes && OfMutex(m) in y.lists && Stranded(y, m, u)
    ensures
      var y' := SyncNext(y, t, timers, a);
      m in y'.mutexes && OfMutex(m) in y'.lists && Stranded(y', m, u)
  {
    var y' := SyncNext(y, t, timers, a);
    if !Touches(y, t, a, m) {
      Untouched(y, t, timers, a, m);
      SameSets(y, y', m);
    } else if a.Acquire? {
      MutexCensus(y, m);
      assert Handoffs(y'.waiters, m) == {};
    } else if a.Proceed? {
      assert t !in Handoffs(y.waiters, m);
      assert Handoffs(y'.waiters, m) == {};
    } else {
      TickEffect(y, timers, a.now, OfMutex(m));
      TickHandoffs(y, timers, a.now, m);
      TickStranded(y, timers, a.now, OfMutex(m), u);
    }
  }

  /** Once a wakeup is lost, a thread that waits without a timeout waits for
      ever: along every run nobody owns the mutex again. */
  lemma {:induction false} StrandedForever(s: Kernel, run: seq<Action>, m: nat, u: Tid)
    requires Inv(s) && Runs(s, run) && m in s.mutexes
    requires OfMutex(m) in Abs(s).lists && Stranded(Abs(s), m, u)
    ensures m in Abs(End(s, run)).mutexes && OfMutex(m) in Abs(End(s, run)).lists
    ensures Stranded(Abs(End(s, run)), m, u)
    decreases |run|
  {
    if run != [] {
      var a := run[0];
      StepInv(s, a);
      KernelRefinesSync(s, a);
      StepLegal(s, a);
      AbsOk(s);
      StepTimers(s);
      StrandedStep(Abs(s), s.current, s.timers, a, m, u);
      StrandedForever(Step(s, a), run[1..], m, u);
    }
  }
}
