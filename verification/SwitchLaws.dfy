/** Who runs after each step, and what the run queues are then. */
module SwitchLaws {
  import opened Words
  import opened RunQueues
  import opened TimerQueue
  import opened KernelState
  import opened KernelOps
  import opened KernelCalls
  import opened KernelInv
  import opened KernelSteps
  import opened KernelProofs
  import opened KernelSyncProofs
  import opened KernelDpcProofs
  import opened KernelTickProofs
  import KernelSync
  import KernelLaws
  import opened SchedulerLaws
  import opened SliceLaws

  // ---- what a step does to the run queues ---------------------------------

  function WaitList(s: Kernel, w: WaitId): seq<Tid> {
    if w in s.waits then s.waits[w].list else []
  }

  predicate Signalled(s: Kernel, e: nat) {
    e in s.events && s.events[e].signalled
  }

  /** Whom a signal wakes: the first waiter of an auto-unsignal event, every waiter of another. */
  function SignalWakes(s: Kernel, e: nat): seq<Tid> {
    var list := WaitList(s, OfEvent(e));
    if Signalled(s, e) then []
    else if e in s.events && s.events[e].auto && list != [] then [list[0]] else list
  }

  /** The thread's timer wakes it: it sleeps, or is still blocked. */
  predicate Wakes(b: ThreadTimer, threads: map<Tid, Thread>) {
    b.t in threads && (b.Wakeup? || threads[b.t].state.Blocked?)
  }

  /** Whom the due timers wake, in the order of the timer queue. */
  function Expire(timers: seq<Entry<ThreadTimer>>, threads: map<Tid, Thread>, now: Word): seq<Tid>
    decreases |timers|
  {
    if timers == [] || TimeLt(now, timers[0].when) then [] else
    (if Wakes(timers[0].body, threads) then [timers[0].body.t] else []) + Expire(timers[1..], threads, now)
  }

  /** The threads that a step makes ready, besides the one that takes it, in the order in which it does. */
  function Woken(s: Kernel, a: Action): seq<Tid> {
    match a
    case Signal(e, _) => SignalWakes(s, e)
    case QueueCallback(_, _) => SignalWakes(s, DPC_EVENT)
    case Exit => SignalWakes(s, DPC_EVENT)
    case ReleaseMutex(m) => WaitList(s, OfMutex(m))[..if WaitList(s, OfMutex(m)) == [] then 0 else 1]
    case Resume(t) => if t in s.threads && s.threads[t].state.Suspended? then [t] else []
    case TimerTick(now) => Expire(s.timers, s.threads, now)
    case _ => []
  }

  /** Where the thread that takes the step ends up: it goes on, leaves the run
      queues, or waits there: behind those it woke but before all others, before
      all, or behind all of its priority. */
  datatype Place = GoesOn | Leaves | BehindWoken | InFront | AtEnd

  function TakenSlice(s: Kernel, a: Action): int
    requires s.current in s.threads
  {
    match a
    case Yield => 0
    case Resume(t) => if Woken(s, a) != [] then 0 else s.threads[s.current].quantum
    case TimerTick(_) => s.threads[s.current].quantum - if s.current == s.idle then 0 else 1
    case _ => s.threads[s.current].quantum
  }

  function PlaceOf(s: Kernel, a: Action): Place
    requires s.current in s.threads
  {
    match a
    case Yield => AtEnd
    case Sleep(_, _) => Leaves
    case Exit => Leaves
    case Resume(_) => if Woken(s, a) != [] then AtEnd else GoesOn
    case Acquire(m, timeout, _) =>
      if m in s.mutexes && s.mutexes[m].count != 0 && timeout != 0 then Leaves else GoesOn
    case Wait(e, timeout, _) => if !Signalled(s, e) && timeout != 0 then Leaves else GoesOn
    case DpcWait => if !Signalled(s, DPC_EVENT) then Leaves else GoesOn
    case ReleaseMutex(_) => if Woken(s, a) != [] then BehindWoken else GoesOn
    case Signal(_, reschedule) => if reschedule && Woken(s, a) != [] then BehindWoken else GoesOn
    case QueueCallback(_, reschedule) => if reschedule && Woken(s, a) != [] then BehindWoken else GoesOn
    case TimerTick(_) => if TakenSlice(s, a) > 0 then InFront else AtEnd
    case _ => GoesOn
  }

  /** Queue `p` before the switch. */
  function ReadyAt(s: Kernel, a: Action, p: nat): seq<Tid>
    requires s.current in s.threads && p < |s.rq.queue|
  {
    var woken := LastFirst(Woken(s, a), s.threads, p);
    var own := if s.threads[s.current].priority == p then [s.current] else [];
    match PlaceOf(s, a)
    case GoesOn => woken + s.rq.queue[p]
    case Leaves => woken + s.rq.queue[p]
    case BehindWoken => woken + own + s.rq.queue[p]
    case InFront => own + woken + s.rq.queue[p]
    case AtEnd => woken + s.rq.queue[p] + own
  }

  /** Priority of a thread after the step; thread_set_priority clamps to 0..31. */
  function PriorityAfter(s: Kernel, a: Action, u: Tid): int
    requires u in s.threads
  {
    if a.ChangePriority? && u == s.current then (if a.to < 0 then 0 else if a.to > 31 then 31 else a.to)
    else s.threads[u].priority
  }

  /** The slice of a thread before the switch. */
  function SliceOf(s: Kernel, a: Action, u: Tid): int
    requires u in s.threads && s.current in s.threads
  {
    if u == s.current then TakenSlice(s, a) else s.threads[u].quantum
  }

  /** `x` is the state in which the step calls thread_resched. */
  ghost predicate Before(s: Kernel, a: Action, x: Kernel)
    requires Core(s)
  {
    && Core(x) && x.current == s.current && !x.threads[x.current].state.Running? && x.threads.Keys == s.threads.Keys
    && (forall p | 0 <= p < NUM_PRIORITIES :: x.rq.queue[p] == ReadyAt(s, a, p))
    && (forall u | u in s.threads :: x.threads[u].priority == s.threads[u].priority && x.threads[u].quantum == SliceOf(s, a, u))
  }

  /** `s'` runs the head of the highest queue of `s` before its switch, and a
      thread that is switched in with a used-up slice gets a new one of five. */
  ghost predicate Switches(s: Kernel, a: Action, s': Kernel, h: nat)
    requires Core(s)
  {
    && Indexed(s'.rq) && h < NUM_PRIORITIES && ReadyAt(s, a, h) != [] && s'.current == ReadyAt(s, a, h)[0]
    && (forall p | h < p < NUM_PRIORITIES :: ReadyAt(s, a, p) == [])
    && (forall p | 0 <= p < NUM_PRIORITIES :: s'.rq.queue[p] == ReadyAt(s, a, p)[if p == h then 1 else 0..])
    && s'.threads.Keys == s.threads.Keys
    && (forall u | u in s.threads ::
          && s'.threads[u].priority == s.threads[u].priority
          && s'.threads[u].quantum ==
             if u == s'.current && u != s.current && SliceOf(s, a, u) <= 0 then 5 else SliceOf(s, a, u))
  }

  /** `s'` is where the thread that took the step goes on. */
  ghost predicate Continues(s: Kernel, a: Action, s': Kernel)
    requires Core(s)
  {
    && Indexed(s'.rq) && s'.current == s.current
    && (forall p | 0 <= p < NUM_PRIORITIES :: s'.rq.queue[p] == ReadyAt(s, a, p))
    && (forall u | u in s.threads && u in s'.threads ::
          s'.threads[u].priority == PriorityAfter(s, a, u) && s'.threads[u].quantum == s.threads[u].quantum)
  }

  /** What thread_resched does to each thread. */
  lemma ReschedThreads(x: Kernel, u: Tid)
    requires CanResched(x) && u in x.threads
    ensures
      var s' := Resched(x);
      && s'.threads.Keys == x.threads.Keys && s'.current == Next(x)
      && s'.threads[u].priority == x.threads[u].priority
      && s'.threads[u].quantum ==
         if u == Next(x) && u != x.current && x.threads[u].quantum <= 0 then 5 else x.threads[u].quantum
  {
    hide NextQueue, PopFrom;
  }

  lemma NextIsHighest(x: Kernel)
    requires Core(x) && CanResched(x)
    ensures NextQueue(x.rq) < NUM_PRIORITIES
    ensures forall p | NextQueue(x.rq) < p < NUM_PRIORITIES :: x.rq.queue[p] == []
    ensures Indexed(Resched(x).rq) && Resched(x).rq.queue == x.rq.queue[NextQueue(x.rq) := x.rq.queue[NextQueue(x.rq)][1..]]
  {
    hide QueuesOk, WaitsOk;
    BitmapChoiceIsLinearScan(x.rq);
    PopKeepsIndex(x.rq, NextQueue(x.rq));
  }

  lemma SwitchPicks(s: Kernel, a: Action, x: Kernel) returns (h: nat)
    requires Core(s) && Before(s, a, x) && OnCpu(Resched(x))
    ensures Switches(s, a, Resched(x), h)
  {
    hide QueuesOk, WaitsOk, ReadyAt, SliceOf, Resched, NextQueue;
    assert CanResched(x) by { SwitchHappens(x); }
    NextIsHighest(x);
    h := NextQueue(x.rq);
    var s' := Resched(x);
    forall p | 0 <= p < NUM_PRIORITIES ensures s'.rq.queue[p] == ReadyAt(s, a, p)[if p == h then 1 else 0..] {
      assert p != h ==> ReadyAt(s, a, p)[0..] == ReadyAt(s, a, p);
    }
    forall u | u in s.threads
      ensures s'.threads.Keys == x.threads.Keys && s'.current == Next(x)
      ensures s'.threads[u].priority == s.threads[u].priority
      ensures s'.threads[u].quantum ==
        if u == s'.current && u != s.current && SliceOf(s, a, u) <= 0 then 5 else SliceOf(s, a, u)
    {
      ReschedThreads(x, u);
    }
    ReschedThreads(x, x.current);
  }

  lemma SwitchHappens(x: Kernel)
    requires x.current in x.threads && !x.threads[x.current].state.Running? && OnCpu(Resched(x))
    ensures CanResched(x)
  {
    hide QueuesOk, WaitsOk, NextQueue, PopFrom;
  }

  // ---- waking -------------------------------------------------------------

  /** From `s` to `x` the threads `woken` were put at the heads of their run queues, one after the other. */
  ghost predicate Woke(s: Kernel, x: Kernel, woken: seq<Tid>)
    requires Core(s)
  {
    && Core(x) && x.current == s.current && x.idle == s.idle && x.threads.Keys == s.threads.Keys
    && x.threads[s.current].state == s.threads[s.current].state
    && (forall u | u in s.threads ::
          x.threads[u].priority == s.threads[u].priority && x.threads[u].quantum == s.threads[u].quantum)
    && (forall p | 0 <= p < NUM_PRIORITIES :: x.rq.queue[p] == LastFirst(woken, s.threads, p) + s.rq.queue[p])
  }

  lemma {:induction false} LastFirstConcat(a: seq<Tid>, b: seq<Tid>, threads: map<Tid, Thread>, p: nat)
    ensures LastFirst(a + b, threads, p) == LastFirst(b, threads, p) + LastFirst(a, threads, p)
    decreases |a|
  {
    if a == [] {
      assert a + b == b;
    } else {
      assert (a + b)[0] == a[0] && (a + b)[1..] == a[1..] + b;
      LastFirstConcat(a[1..], b, threads, p);
    }
  }

  /** Nobody woken, and whatever else has changed is no matter of the scheduler. */
  lemma WokeNobody(s: Kernel, x: Kernel)
    requires Core(s) && x.rq == s.rq && x.threads == s.threads && x.waits == s.waits
    requires x.current == s.current && x.idle == s.idle
    ensures Woke(s, x, [])
  {
    hide QueuesOk, WaitsOk;
    CoreFrame(s, x);
    assert forall p | 0 <= p < NUM_PRIORITIES :: [] + s.rq.queue[p] == s.rq.queue[p];
  }

  lemma WokeBoth(s: Kernel, x: Kernel, y: Kernel, a: seq<Tid>, b: seq<Tid>)
    requires Core(s) && Woke(s, x, a) && Woke(x, y, b)
    ensures Woke(s, y, a + b)
  {
    hide Core;
    CoreSize(s);
    CoreSize(x);
    CoreSize(y);
    forall p | 0 <= p < NUM_PRIORITIES ensures y.rq.queue[p] == LastFirst(a + b, s.threads, p) + s.rq.queue[p] {
      LastFirstConcat(a, b, s.threads, p);
      LastFirstFrame(b, s.threads, x.threads, p);
    }
  }

  lemma CoreSize(s: Kernel)
    requires Core(s)
    ensures |s.rq.queue| == NUM_PRIORITIES && Indexed(s.rq)
    ensures s.current in s.threads && s.threads[s.current].priority < NUM_PRIORITIES
  {
  }

  lemma ReleasePushes(s: Kernel, w: WaitId, i: nat, code: int)
    requires Core(s) && w in s.waits && i < |s.waits[w].list| && WaitOk(s.waits[w], w, s.threads)
    ensures
      var t := s.waits[w].list[i];
      var p := s.threads[t].priority;
      p < NUM_PRIORITIES && Release(s, w, i, code).rq.queue == s.rq.queue[p := [t] + s.rq.queue[p]]
  {
    hide WaitsOk, Indexed;
  }

  lemma ReleaseWokes(s: Kernel, w: WaitId, i: nat, code: int)
    requires Core(s) && w in s.waits && i < |s.waits[w].list| && !s.threads[s.current].state.Blocked?
    ensures WaitOk(s.waits[w], w, s.threads)
    ensures Woke(s, Release(s, w, i, code), [s.waits[w].list[i]])
  {
    hide Core, Release;
    CoreSize(s);
    ReleaseReleases(s, w, i, code);
    ReleasePushes(s, w, i, code);
    PushIsFirst(s, Release(s, w, i, code), s.waits[w].list[i]);
  }

  lemma PushIsFirst(s: Kernel, x: Kernel, t: Tid)
    requires |s.rq.queue| == NUM_PRIORITIES && t in s.threads && s.threads[t].priority < NUM_PRIORITIES
    requires
      var p := s.threads[t].priority;
      x.rq.queue == s.rq.queue[p := [t] + s.rq.queue[p]]
    ensures forall p | 0 <= p < NUM_PRIORITIES :: x.rq.queue[p] == LastFirst([t], s.threads, p) + s.rq.queue[p]
  {
    assert [t][1..] == [];
    forall p | 0 <= p < NUM_PRIORITIES ensures x.rq.queue[p] == LastFirst([t], s.threads, p) + s.rq.queue[p] {
      assert LastFirst([t], s.threads, p) == if s.threads[t].priority == p then [t] else [];
    }
  }

  lemma ReadyWokes(s: Kernel, t: Tid)
    requires Core(s) && t in s.threads && t != s.current
    requires !s.threads[t].state.Ready? && !s.threads[t].state.Blocked?
    ensures Woke(s, MakeReady(s, t, true), [t])
  {
    hide QueuesOk, WaitsOk, Indexed;
    MakeReadyCore(s, t, true);
    CoreSize(s);
    PushIsFirst(s, MakeReady(s, t, true), t);
  }

  lemma {:induction false} WakeAllWokes(s: Kernel, w: WaitId, code: int)
    requires Core(s) && w in s.waits && !s.threads[s.current].state.Blocked?
    ensures Woke(s, WakeAll(s, w, code), s.waits[w].list)
    decreases |s.waits[w].list|
  {
    hide QueuesOk, WaitsOk, Release, Woke;
    if s.waits[w].list == [] {
      WokeNobody(s, s);
    } else {
      ReleaseWokes(s, w, 0, code);
      ReleaseQueues(s, w, code, 0);
      var s1 := Release(s, w, 0, code);
      WokeState(s, s1, [s.waits[w].list[0]]);
      WakeAllWokes(s1, w, code);
      WokeBoth(s, s1, WakeAll(s1, w, code), [s.waits[w].list[0]], s1.waits[w].list);
      assert s.waits[w].list == [s.waits[w].list[0]] + s.waits[w].list[1..];
    }
  }

  lemma WokeState(s: Kernel, x: Kernel, woken: seq<Tid>)
    requires Core(s) && Woke(s, x, woken)
    ensures Core(x) && x.current == s.current && x.idle == s.idle
    ensures x.threads[s.current].state == s.threads[s.current].state
  {
    hide Core;
    CoreSize(s);
  }

  lemma QuietWokes(s: Kernel, e: nat)
    requires Core(s) && e in s.events && OfEvent(e) in s.waits && !s.threads[s.current].state.Blocked?
    ensures Woke(s, SignalQuietly(s, e), SignalWakes(s, e))
  {
    hide QueuesOk, WaitsOk, Release, WakeAll, Woke;
    var w := OfEvent(e);
    var s1 := SetSignalled(s, e, true);
    WokeNobody(s, s);
    WokeNobody(s, s1);
    SetSignalledCore(s, e, true);
    if !s.events[e].signalled {
      if !s.events[e].auto {
        WakeAllWokes(s1, w, NO_ERROR);
        WokeBoth(s, s1, WakeAll(s1, w, NO_ERROR), [], s1.waits[w].list);
        assert [] + s1.waits[w].list == s1.waits[w].list;
      } else if s.waits[w].list != [] {
        ReleaseWokes(s, w, 0, NO_ERROR);
      }
    }
  }

  // ---- the due timers -----------------------------------------------------

  lemma {:induction false} ExpireFrame(timers: seq<Entry<ThreadTimer>>, threads: map<Tid, Thread>, threads': map<Tid, Thread>, now: Word)
    requires forall i | 0 <= i < |timers| ::
      (timers[i].body.t in threads <==> timers[i].body.t in threads') &&
      (timers[i].body.t in threads ==> threads'[timers[i].body.t] == threads[timers[i].body.t])
    ensures Expire(timers, threads', now) == Expire(timers, threads, now)
    decreases |timers|
  {
    if timers != [] {
      assert timers[0].body == timers[0].body;
      assert forall i | 0 <= i < |timers[1..]| :: timers[1..][i] == timers[i + 1];
      ExpireFrame(timers[1..], threads, threads', now);
    }
  }

  /** What the callback of the first timer does to the scheduler. */
  lemma FireWokes(s: Kernel)
    requires OnCpu(s) && s.cs >= 1 && s.timers != [] && TimersOk(s.timers, s.threads) && s.timers[0].body.t != s.current
    ensures Core(Popped(s)) && s.timers[0].body.t in s.threads
    ensures
      var b := s.timers[0].body;
      Woke(s, Fire(Popped(s), b), if Wakes(b, s.threads) then [b.t] else [])
  {
    hide QueuesOk, WaitsOk, Release, Woke, MakeReady;
    var b := s.timers[0].body;
    CoreFrame(s, Popped(s));
    WokeNobody(s, Popped(s));
    if b.Wakeup? {
      ReadyWokes(Popped(s), b.t);
      WokeBoth(s, Popped(s), MakeReady(Popped(s), b.t, true), [], [b.t]);
      assert [] + [b.t] == [b.t];
    } else if s.threads[b.t].state.Blocked? {
      TimeoutWokes(s);
    } else {
      WokeNobody(s, Enter(Popped(s)));
    }
  }

  lemma TimeoutWokes(s: Kernel)
    requires OnCpu(s) && s.cs >= 1 && s.timers != [] && TimersOk(s.timers, s.threads) && Core(Popped(s))
    requires s.timers[0].body.Timeout? && s.threads[s.timers[0].body.t].state.Blocked?
    ensures Woke(s, Fire(Popped(s), s.timers[0].body), [s.timers[0].body.t])
  {
    hide QueuesOk, WaitsOk, Release, Woke, Fire;
    var t := s.timers[0].body.t;
    FireTimeoutShape(s);
    var w := s.threads[t].blockedOn.value;
    var i := IndexOf(s.waits[w].list, t);
    ReleaseWokes(s, w, i, ERR_TIMED_OUT);
    var r := Release(s, w, i, ERR_TIMED_OUT);
    WokeState(s, r, [t]);
    ReleaseReleases(s, w, i, ERR_TIMED_OUT);
    WokeNobody(r, Popped(r));
    WokeBoth(s, r, Popped(r), [t], []);
    assert [t] + [] == [t];
  }

  lemma {:induction false} FireDueWokes(s: Kernel, now: Word)
    requires Good(s) && Side(s) && OnCpu(s) && s.cs >= 1
    requires forall i | 0 <= i < |s.timers| :: s.timers[i].body.t != s.current
    ensures Woke(s, FireDue(s, now), Expire(s.timers, s.threads, now))
    decreases |s.timers|
  {
    hide QueuesOk, WaitsOk, ThreadsOk, DomainOk, Side, Fire, Woke;
    if Due(s.timers, now) {
      FireKeeps(s);
      FireTimers(s);
      FireWokes(s);
      var b := s.timers[0].body;
      var s1 := Fire(Popped(s), b);
      var first := if Wakes(b, s.threads) then [b.t] else [];
      WokeState(s, s1, first);
      FireDueWokes(s1, now);
      WokeBoth(s, s1, FireDue(s1, now), first, Expire(s1.timers, s1.threads, now));
      ExpireAfter(s, s1, now);
    } else {
      WokeNobody(s, s);
    }
  }

  /** The remaining timers find their threads as they were. */
  lemma ExpireAfter(s: Kernel, s1: Kernel, now: Word)
    requires s.timers != [] && Core(Popped(s)) && TimersOk(s.timers, s.threads) && s1 == Fire(Popped(s), s.timers[0].body)
    ensures Expire(s1.timers, s1.threads, now) == Expire(s.timers[1..], s.threads, now)
  {
    hide Core, Fire;
    FireCore(Popped(s), s.timers[0].body);
    ExpireFrame(s.timers[1..], s.threads, s1.threads, now);
  }

  // ---- steps that switch --------------------------------------------------

  /** The thread's own entry in the queue of its priority. */
  function Own(s: Kernel, p: nat): seq<Tid>
    requires s.current in s.threads
  {
    if s.threads[s.current].priority == p then [s.current] else []
  }

  lemma ParkedEffect(x: Kernel, k: Cont, quantum: int, head: bool)
    requires OnCpu(x)
    ensures
      var y := Parked(x, k, quantum, head);
      && Core(y) && y.current == x.current && y.threads[x.current].state.Ready? && y.threads.Keys == x.threads.Keys
      && (forall u | u in x.threads ::
            y.threads[u].priority == x.threads[u].priority
            && y.threads[u].quantum == if u == x.current then quantum else x.threads[u].quantum)
      && (forall p | 0 <= p < NUM_PRIORITIES ::
            y.rq.queue[p] == if head then Own(x, p) + x.rq.queue[p] else x.rq.queue[p] + Own(x, p))
  {
    hide WaitsOk, Indexed;
    ParkedCore(x, k, quantum, head);
    assert forall p | 0 <= p < NUM_PRIORITIES :: [] + x.rq.queue[p] == x.rq.queue[p] == x.rq.queue[p] + [];
  }

  /** The queue before the switch, by the place of the caller. */
  lemma ReadyIs(s: Kernel, a: Action, p: nat)
    requires s.current in s.threads && p < |s.rq.queue|
    ensures
      var woken := LastFirst(Woken(s, a), s.threads, p);
      var q := s.rq.queue[p];
      && (PlaceOf(s, a) == BehindWoken ==> ReadyAt(s, a, p) == woken + (Own(s, p) + q))
      && (PlaceOf(s, a) == InFront ==> ReadyAt(s, a, p) == Own(s, p) + (woken + q))
      && (PlaceOf(s, a) == AtEnd ==> ReadyAt(s, a, p) == (woken + q) + Own(s, p))
      && (PlaceOf(s, a) == Leaves || PlaceOf(s, a) == GoesOn ==> ReadyAt(s, a, p) == woken + q)
  {
    hide Woken, PlaceOf, LastFirst;
  }

  /** The current thread parks; `x` comes from `s` by waking the threads that the step wakes. */
  lemma ParkedBefore(s: Kernel, a: Action, x: Kernel, k: Cont, quantum: int, head: bool)
    requires OnCpu(s) && Woke(s, x, Woken(s, a)) && quantum == TakenSlice(s, a)
    requires PlaceOf(s, a) == if head then InFront else AtEnd
    ensures OnCpu(x) && Before(s, a, Parked(x, k, quantum, head))
  {
    hide Core, Woken, PlaceOf, TakenSlice, Parked, LastFirst, ReadyAt;
    CoreSize(s);
    CoreSize(x);
    ParkedEffect(x, k, quantum, head);
    var y := Parked(x, k, quantum, head);
    CoreSize(y);
    forall p | 0 <= p < NUM_PRIORITIES ensures y.rq.queue[p] == ReadyAt(s, a, p) {
      ReadyIs(s, a, p);
    }
  }

  /** The current thread has parked at the head of its queue, and then the step woke the threads it wakes. */
  lemma WokeBefore(s: Kernel, a: Action, k: Cont, x: Kernel)
    requires OnCpu(s) && PlaceOf(s, a) == BehindWoken && TakenSlice(s, a) == s.threads[s.current].quantum
    requires Core(Parked(s, k, s.threads[s.current].quantum, true))
    requires Woke(Parked(s, k, s.threads[s.current].quantum, true), x, Woken(s, a))
    ensures Before(s, a, x)
  {
    hide Core, Woken, PlaceOf, TakenSlice, Parked, LastFirst, ReadyAt;
    CoreSize(s);
    var y := Parked(s, k, s.threads[s.current].quantum, true);
    ParkedEffect(s, k, s.threads[s.current].quantum, true);
    CoreSize(x);
    CoreSize(y);
    forall p | 0 <= p < NUM_PRIORITIES ensures x.rq.queue[p] == ReadyAt(s, a, p) {
      LastFirstFrame(Woken(s, a), s.threads, y.threads, p);
      ReadyIs(s, a, p);
    }
  }

  /** The current thread has left the CPU for no run queue, and then the step woke the threads it wakes. */
  lemma LeftBefore(s: Kernel, a: Action, y: Kernel, x: Kernel)
    requires Core(s) && Core(y) && Woke(y, x, Woken(s, a)) && PlaceOf(s, a) == Leaves
    requires y.current == s.current && y.rq == s.rq && !y.threads[y.current].state.Running? && y.threads.Keys == s.threads.Keys
    requires forall u | u in s.threads ::
      y.threads[u].priority == s.threads[u].priority && y.threads[u].quantum == SliceOf(s, a, u)
    ensures Before(s, a, x)
  {
    hide Core, Woken, PlaceOf, TakenSlice, SliceOf, LastFirst, ReadyAt;
    CoreSize(s);
    CoreSize(x);
    forall p | 0 <= p < NUM_PRIORITIES ensures x.rq.queue[p] == ReadyAt(s, a, p) {
      LastFirstFrame(Woken(s, a), s.threads, y.threads, p);
      ReadyIs(s, a, p);
    }
  }

  lemma YieldBefore(s: Kernel)
    requires OnCpu(s)
    ensures OnCpu(Enter(s)) && Before(s, Yield, Parked(Enter(s), InYield, 0, false))
    ensures ThreadYield(s) == Resched(Parked(Enter(s), InYield, 0, false))
  {
    hide QueuesOk, WaitsOk, Resched, Before, Woke;
    WokeNobody(s, Enter(s));
    ParkedBefore(s, Yield, Enter(s), InYield, 0, false);
  }

  lemma SleepBefore(s: Kernel, delay: Word, now: Word, when: Word)
    requires OnCpu(s) && when == Add(now, if delay == 0 then 1 else delay)
    ensures Before(s, Sleep(delay, now), Asleep(s, when)) && ThreadSleep(s, delay, now) == Resched(Asleep(s, when))
  {
    hide QueuesOk, WaitsOk, Resched, Before, Woke;
    AsleepCore(s, when);
    WokeNobody(Asleep(s, when), Asleep(s, when));
    LeftBefore(s, Sleep(delay, now), Asleep(s, when), Asleep(s, when));
  }

  /** The current thread blocks, after a change that concerns the scheduler in nothing. */
  lemma BlockBefore(s: Kernel, a: Action, y: Kernel, w: WaitId, timeout: Word, now: Word)
    requires OnCpu(s) && OnCpu(y) && w in y.waits && PlaceOf(s, a) == Leaves && Woken(s, a) == []
    requires TakenSlice(s, a) == s.threads[s.current].quantum
    requires y.rq == s.rq && y.threads == s.threads && y.current == s.current && y.idle == s.idle
    ensures Before(s, a, Stopped(y, w, timeout, now))
    ensures Block(y, w, timeout, now) == Resched(Stopped(y, w, timeout, now))
  {
    hide QueuesOk, WaitsOk, Resched, Block, Before, Woke, Woken, PlaceOf, TakenSlice;
    BlockShape(y, w, timeout, now);
    StoppedCore(y, w, timeout, now);
    var x := Stopped(y, w, timeout, now);
    WokeNobody(x, x);
    LeftBefore(s, a, x, x);
  }

  lemma ExitBefore(s: Kernel) returns (x: Kernel)
    requires OnCpu(s) && DPC_EVENT in s.events && OfEvent(DPC_EVENT) in s.waits
    ensures Before(s, Exit, x) && ThreadExit(s) == Resched(x)
  {
    hide QueuesOk, WaitsOk, Resched, Before, Woke, SignalQuietly;
    DeathCore(s);
    var y := SetThread(Enter(s), s.current, s.threads[s.current].(state := Death, cont := Dead))
               .(dpcs := s.dpcs + [Cleanup(s.current)]);
    QuietWokes(y, DPC_EVENT);
    x := SignalQuietly(y, DPC_EVENT);
    LeftBefore(s, Exit, y, x);
  }

  lemma ResumeBefore(s: Kernel, t: Tid) returns (x: Kernel)
    requires OnCpu(s) && t in s.threads && s.threads[t].state.Suspended?
    ensures Before(s, Resume(t), x) && ThreadResume(s, t).0 == Resched(x)
  {
    hide QueuesOk, WaitsOk, Resched, Before, Woke, MakeReady, Parked;
    CoreFrame(s, Enter(s));
    WokeNobody(s, Enter(s));
    ReadyWokes(Enter(s), t);
    var s1 := MakeReady(Enter(s), t, true);
    WokeBoth(s, Enter(s), s1, [], [t]);
    WokeState(s, s1, [] + [t]);
    WokeNobody(s1, Enter(s1));
    WokeBoth(s, s1, Enter(s1), [] + [t], []);
    assert [] + [t] + [] == [t];
    ResumeShape(s, t);
    ParkedBefore(s, Resume(t), Enter(s1), InResume, 0, false);
    x := Parked(Enter(s1), InResume, 0, false);
  }

  /** A wake of the first waiter with reschedule. */
  lemma WakeOneBefore(s: Kernel, a: Action, y: Kernel, w: WaitId, depth: nat) returns (x: Kernel)
    requires OnCpu(s) && OnCpu(y) && w in y.waits && y.waits[w].list != [] && Woken(s, a) == [y.waits[w].list[0]]
    requires PlaceOf(s, a) == BehindWoken && TakenSlice(s, a) == s.threads[s.current].quantum
    requires y.rq == s.rq && y.threads == s.threads && y.current == s.current && y.idle == s.idle
    ensures Before(s, a, x) && WakeOneAndResched(y, w, NO_ERROR, depth) == Resched(x)
  {
    hide QueuesOk, WaitsOk, Resched, Woken, PlaceOf, TakenSlice, Release, Woke, Parked;
    OvertakenShape(y, depth);
    var p := Overtaken(y, depth);
    ParkedEffect(y, InWake(depth), y.threads[y.current].quantum, true);
    ReleaseWokes(p, w, 0, NO_ERROR);
    x := Release(p, w, 0, NO_ERROR);
    ParkedSame(s, y, InWake(depth));
    WokeFrom(Overtaken(s, depth), p, x, Woken(s, a));
    WokeBefore(s, a, InWake(depth), x);
  }

  lemma ParkedSame(s: Kernel, y: Kernel, k: Cont)
    requires OnCpu(s) && OnCpu(y) && y.rq == s.rq && y.threads == s.threads && y.current == s.current && y.idle == s.idle
    ensures
      var q := s.threads[s.current].quantum;
      && Core(Parked(s, k, q, true)) && Parked(y, k, q, true).rq == Parked(s, k, q, true).rq
      && Parked(y, k, q, true).threads == Parked(s, k, q, true).threads
      && Parked(s, k, q, true).current == s.current && Parked(y, k, q, true).idle == Parked(s, k, q, true).idle
  {
    hide QueuesOk, WaitsOk;
    ParkedCore(s, k, s.threads[s.current].quantum, true);
  }

  lemma WokeFrom(s: Kernel, y: Kernel, x: Kernel, woken: seq<Tid>)
    requires Core(s) && Core(y) && Woke(y, x, woken) && y.rq == s.rq && y.threads == s.threads
    requires y.current == s.current && y.idle == s.idle
    ensures Woke(s, x, woken)
  {
    hide Core;
    CoreSize(s);
  }

  /** A wake of every waiter with reschedule. */
  lemma WakeAllBefore(s: Kernel, a: Action, y: Kernel, e: nat, depth: nat) returns (x: Kernel)
    requires OnCpu(s) && OnCpu(y) && e in y.events && OfEvent(e) in y.waits && Woken(s, a) == y.waits[OfEvent(e)].list
    requires PlaceOf(s, a) == BehindWoken && TakenSlice(s, a) == s.threads[s.current].quantum
    requires y.rq == s.rq && y.threads == s.threads && y.current == s.current && y.idle == s.idle
    ensures OnCpu(SetSignalled(y, e, true))
    ensures Before(s, a, x) && WakeAllAndResched(SetSignalled(y, e, true), OfEvent(e), NO_ERROR, depth) == Resched(x)
  {
    hide QueuesOk, WaitsOk, Resched, Woken, PlaceOf, TakenSlice, WakeAll, Woke, Parked, WakeAllAndResched;
    WakeAllShape(y, e, depth);
    ParkedWaits(y, InWake(depth));
    var p := SetSignalled(Overtaken(y, depth), e, true);
    ParkedEffect(y, InWake(depth), y.threads[y.current].quantum, true);
    WakeAllWokes(p, OfEvent(e), NO_ERROR);
    x := WakeAll(p, OfEvent(e), NO_ERROR);
    ParkedSame(s, y, InWake(depth));
    WokeFrom(Overtaken(s, depth), p, x, Woken(s, a));
    WokeBefore(s, a, InWake(depth), x);
  }

  lemma ParkedWaits(s: Kernel, k: Cont)
    requires OnCpu(s)
    ensures Parked(s, k, s.threads[s.current].quantum, true).waits == s.waits
    ensures Parked(s, k, s.threads[s.current].quantum, true).events == s.events
  {
    hide QueuesOk, WaitsOk;
  }

  lemma PreemptParks(y: Kernel, q: int)
    requires OnCpu(y) && OnCpu(QuantumTick(y))
    requires q == y.threads[y.current].quantum - if y.current == y.idle then 0 else 1
    ensures ThreadPreempt(QuantumTick(y)) == Resched(Parked(Enter(y), InPreempt, q, q > 0))
  {
    hide QueuesOk, WaitsOk, Resched;
    var x := QuantumTick(y);
    var th := y.threads[y.current];
    assert SetCont(Enter(x), InPreempt).threads == y.threads[y.current := th.(quantum := q, cont := InPreempt)];
  }

  lemma TickBefore(s: Kernel, now: Word) returns (x: Kernel)
    requires Busy(s)
    ensures forall i | 0 <= i < |s.timers| :: s.timers[i].body.t != s.current
    ensures Before(s, TimerTick(now), x) && Tick(s, now) == Resched(x)
  {
    hide QueuesOk, WaitsOk, ThreadsOk, DomainOk, Side, Resched, Tick, FireDue, Before, Woke, Parked, ThreadPreempt, Expire;
    NoOwnTimer(s);
    TickShape(s, now);
    BusyDepth(s);
    CountsBusy(s, Interrupted(s));
    FireDueWokes(Interrupted(s), now);
    var y := FireDue(Interrupted(s), now);
    WokeFrom(s, Interrupted(s), y, Expire(s.timers, s.threads, now));
    WokeState(s, y, Expire(s.timers, s.threads, now));
    CoreFrame(y, Enter(y));
    WokeNobody(y, Enter(y));
    WokeBoth(s, y, Enter(y), Expire(s.timers, s.threads, now), []);
    assert Expire(s.timers, s.threads, now) + [] == Woken(s, TimerTick(now));
    var q := TakenSlice(s, TimerTick(now));
    PreemptParks(y, q);
    ParkedBefore(s, TimerTick(now), Enter(y), InPreempt, q, q > 0);
    x := Parked(Enter(y), InPreempt, q, q > 0);
  }

  lemma BusyDepth(s: Kernel)
    requires Busy(s)
    ensures s.cs >= 0
  {
    hide QueuesOk, WaitsOk, TimersGood, DomainOk, Side;
    assert ThreadOk(s.threads[s.current], true, s.cs);
  }

  // ---- every step ---------------------------------------------------------

  /** The state in which a thread call that gives up the CPU calls thread_resched. */
  lemma ThreadCallBefore(s: Kernel, a: Action) returns (x: Kernel)
    requires OnCpu(s) && DomainOk(s) && Enabled(s, a) && (a.Yield? || a.Sleep? || a.Exit? || a.Resume?)
    requires PlaceOf(s, a) != GoesOn
    ensures Before(s, a, x) && ThreadCall(s, a) == Resched(x)
  {
    hide QueuesOk, WaitsOk, Before, Resched, Parked, Asleep;
    match a
    case Yield =>
      YieldBefore(s);
      x := Parked(Enter(s), InYield, 0, false);
    case Sleep(delay, now) =>
      var when := Add(now, if delay == 0 then 1 else delay);
      SleepBefore(s, delay, now, when);
      x := Asleep(s, when);
    case Exit => x := ExitBefore(s);
    case Resume(t) => x := ResumeBefore(s, t);
  }

  lemma MutexCallBefore(s: Kernel, a: Action) returns (x: Kernel)
    requires Inv(s) && Enabled(s, a) && (a.Acquire? || a.ReleaseMutex?) && PlaceOf(s, a) != GoesOn
    ensures Before(s, a, x) && MutexCall(s, a) == Resched(x)
  {
    hide QueuesOk, WaitsOk, ThreadsOk, TimersGood, Before, Resched, Block, WakeOneAndResched;
    match a
    case Acquire(m, timeout, now) =>
      AcquireShape(s, m, timeout, now);
      var y := SetMutex(Enter(s), m, s.mutexes[m].count + 1, s.mutexes[m].holder);
      CoreFrame(s, y);
      BlockBefore(s, a, y, OfMutex(m), timeout, now);
      x := Stopped(y, OfMutex(m), timeout, now);
    case ReleaseMutex(m) =>
      HolderCounts(s, m);
      ReleaseShape(s, m);
      var y := SetMutex(Enter(s), m, s.mutexes[m].count - 1, None);
      assert s.waits[OfMutex(m)].list[..1] == [s.waits[OfMutex(m)].list[0]];
      x := WakeOneBefore(s, a, y, OfMutex(m), 1);
  }

  /** A held mutex that somebody waits for is counted at least twice. */
  lemma HolderCounts(s: Kernel, m: nat)
    requires Inv(s) && m in s.mutexes && s.mutexes[m].holder.Some?
    ensures OfMutex(m) in s.waits
    ensures s.waits[OfMutex(m)].list != [] ==> s.mutexes[m].count >= 2
  {
    hide QueuesOk, WaitsOk, ThreadsOk, TimersGood, Side;
    KernelLaws.AbsOk(s);
    var y := KernelSync.Abs(s);
    assert OfMutex(m) in s.waits && y.lists[OfMutex(m)] == s.waits[OfMutex(m)].list;
    KernelLaws.MutexCensus(y, m);
  }

  lemma EventCallBefore(s: Kernel, a: Action) returns (x: Kernel)
    requires OnCpu(s) && DomainOk(s) && Enabled(s, a) && a.Wait? && PlaceOf(s, a) != GoesOn
    ensures Before(s, a, x) && EventCall(s, a) == Resched(x)
  {
    hide QueuesOk, WaitsOk, Before, Resched, Block;
    CoreFrame(s, Enter(s));
    BlockBefore(s, a, Enter(s), OfEvent(a.e), a.timeout, a.now);
    x := Stopped(Enter(s), OfEvent(a.e), a.timeout, a.now);
  }

  lemma DpcWaitBefore(s: Kernel) returns (x: Kernel)
    requires OnCpu(s) && DomainOk(s) && Enabled(s, DpcWait) && PlaceOf(s, DpcWait) != GoesOn
    ensures Before(s, DpcWait, x) && DpcStep(s, DpcWait) == Resched(x)
  {
    hide QueuesOk, WaitsOk, Before, Resched, Block;
    CoreFrame(s, Enter(s));
    BlockBefore(s, DpcWait, Enter(s), OfEvent(DPC_EVENT), INFINITE_TIME, 0);
    x := Stopped(Enter(s), OfEvent(DPC_EVENT), INFINITE_TIME, 0);
  }

  /** A signal with reschedule, from inside the call. */
  lemma SignalBefore(s: Kernel, a: Action, y: Kernel, e: nat, depth: nat) returns (x: Kernel)
    requires OnCpu(s) && OnCpu(y) && e in y.events && OfEvent(e) in y.waits && Woken(s, a) == SignalWakes(y, e)
    requires PlaceOf(s, a) == BehindWoken && TakenSlice(s, a) == s.threads[s.current].quantum && Woken(s, a) != []
    requires y.rq == s.rq && y.threads == s.threads && y.current == s.current && y.idle == s.idle
    ensures Before(s, a, x) && SignalAt(y, e, true, depth) == Resched(x)
  {
    hide QueuesOk, WaitsOk, Before, Resched, Woken, PlaceOf, TakenSlice, WakeOneAndResched, WakeAllAndResched;
    if y.events[e].auto {
      x := WakeOneBefore(s, a, y, OfEvent(e), depth);
    } else {
      x := WakeAllBefore(s, a, y, e, depth);
    }
  }

  lemma SignalCallBefore(s: Kernel, a: Action) returns (x: Kernel)
    requires OnCpu(s) && DomainOk(s) && Enabled(s, a) && (a.Signal? || a.QueueCallback?) && PlaceOf(s, a) != GoesOn
    ensures Before(s, a, x) && SignalCall(s, a) == Resched(x)
  {
    hide QueuesOk, WaitsOk, Before, Resched, SignalAt;
    match a
    case Signal(e, reschedule) =>
      CoreFrame(s, Enter(s));
      x := SignalBefore(s, a, Enter(s), e, 1);
    case QueueCallback(id, reschedule) =>
      var y := Enter(Enter(s)).(dpcs := s.dpcs + [Callback(id)]);
      CoreFrame(s, y);
      x := SignalBefore(s, a, y, DPC_EVENT, 2);
  }

  lemma InvParts(s: Kernel)
    requires Inv(s)
    ensures Core(s) && OnCpu(s) && DomainOk(s) && (s.threads[s.current].cont.User? ==> Busy(s))
  {
    hide QueuesOk, WaitsOk, ThreadsOk, TimersGood, Side;
  }

  /** After a step that gives up the CPU, the head of the highest queue runs. */
  lemma StepSwitches(s: Kernel, a: Action) returns (h: nat)
    requires Inv(s) && Enabled(s, a) && PlaceOf(s, a) != GoesOn
    ensures Core(s) && Switches(s, a, Step(s, a), h)
  {
    hide Inv, Core, OnCpu, DomainOk, Before, Switches, Resched, ThreadCall, MutexCall, EventCall, SignalCall, DpcStep, Tick, Woken;
    InvParts(s);
    var x: Kernel;
    if a.TimerTick? {
      x := TickBefore(s, a.now);
    } else if a.Acquire? || a.ReleaseMutex? {
      x := MutexCallBefore(s, a);
    } else if a.Wait? {
      x := EventCallBefore(s, a);
    } else if a.Signal? || a.QueueCallback? {
      x := SignalCallBefore(s, a);
    } else if a.DpcWait? {
      x := DpcWaitBefore(s);
    } else {
      x := ThreadCallBefore(s, a);
    }
    StepInv(s, a);
    InvParts(Step(s, a));
    h := SwitchPicks(s, a, x);
  }

  // ---- steps after which the caller goes on -------------------------------

  /** A change that concerns the scheduler in nothing but the caller's priority. */
  lemma SameContinues(s: Kernel, a: Action, s': Kernel)
    requires Core(s) && PlaceOf(s, a) == GoesOn && Woken(s, a) == [] && s'.rq == s.rq && s'.current == s.current
    requires forall u | u in s.threads && u in s'.threads ::
      s'.threads[u].priority == PriorityAfter(s, a, u) && s'.threads[u].quantum == s.threads[u].quantum
    ensures Continues(s, a, s')
  {
    hide Core, Woken, PlaceOf, PriorityAfter;
    CoreSize(s);
    forall p | 0 <= p < NUM_PRIORITIES ensures s'.rq.queue[p] == ReadyAt(s, a, p) {
      assert [] + s.rq.queue[p] == s.rq.queue[p];
    }
  }

  lemma WokeContinues(s: Kernel, a: Action, s': Kernel)
    requires Core(s) && PlaceOf(s, a) == GoesOn && !a.ChangePriority? && Woke(s, s', Woken(s, a))
    ensures Continues(s, a, s')
  {
    hide Core, Woken, PlaceOf, LastFirst, ReadyAt;
    CoreSize(s);
    CoreSize(s');
    forall p | 0 <= p < NUM_PRIORITIES ensures s'.rq.queue[p] == ReadyAt(s, a, p) {
      ReadyIs(s, a, p);
    }
  }

  lemma ContinueThreads(s: Kernel)
    requires s.current in s.threads && DomainOk(s)
    ensures s.threads[s.current].cont.InWait? && s.threads[s.current].cont.w.OfMutex? ==>
      s.threads[s.current].cont.w.m in s.mutexes
    ensures Continue(s).threads == s.threads[s.current := s.threads[s.current].(cont := User)]
    ensures Continue(s).rq == s.rq && Continue(s).current == s.current
  {
    hide ExitN, Continue, Returned, DomainOk;
    ContinueShape(s);
    ReturnedEffect(s);
    var k := s.threads[s.current].cont;
    if k.InWait? {
      ExitNCounts(AfterWait(Returned(s), k.w, s.threads[s.current].blockRet), 2);
    } else if !k.InPreempt? {
      ExitNCounts(Returned(s), k.Exits());
    }
  }

  lemma ProceedContinues(s: Kernel)
    requires Inv(s) && Enabled(s, Proceed)
    ensures Core(s) && Continues(s, Proceed, Step(s, Proceed))
  {
    hide QueuesOk, WaitsOk, ThreadsOk, TimersGood, DomainOk, Side, Continue, Continues;
    ContinueThreads(s);
    SameContinues(s, Proceed, Step(s, Proceed));
  }

  /** A signal that does not reschedule, or wakes nobody. */
  lemma SignalContinues(s: Kernel, a: Action, y: Kernel, e: nat, reschedule: bool, depth: nat)
    requires Core(s) && OnCpu(y) && e in y.events && OfEvent(e) in y.waits && Woken(s, a) == SignalWakes(y, e)
    requires PlaceOf(s, a) == GoesOn && !a.ChangePriority? && (reschedule ==> SignalWakes(y, e) == [])
    requires y.rq == s.rq && y.threads == s.threads && y.current == s.current && y.idle == s.idle
    ensures Continues(s, a, SignalAt(y, e, reschedule, depth))
  {
    hide QueuesOk, WaitsOk, Continues, Woken, PlaceOf, SignalQuietly, Woke;
    QuietWokes(y, e);
    var q := SignalQuietly(y, e);
    WokeState(y, q, SignalWakes(y, e));
    ExitNCounts(q, depth);
    CoreFrame(q, ExitN(q, depth));
    WokeNobody(q, ExitN(q, depth));
    WokeBoth(y, q, ExitN(q, depth), SignalWakes(y, e), []);
    assert SignalWakes(y, e) + [] == SignalWakes(y, e);
    WokeFrom(s, y, ExitN(q, depth), SignalWakes(y, e));
    WokeContinues(s, a, ExitN(q, depth));
  }

  lemma SignalCallContinues(s: Kernel, a: Action)
    requires OnCpu(s) && DomainOk(s) && Enabled(s, a) && (a.Signal? || a.QueueCallback?) && PlaceOf(s, a) == GoesOn
    ensures Continues(s, a, SignalCall(s, a))
  {
    hide QueuesOk, WaitsOk, Continues, SignalAt;
    match a
    case Signal(e, reschedule) =>
      CoreFrame(s, Enter(s));
      SignalContinues(s, a, Enter(s), e, reschedule, 1);
    case QueueCallback(id, reschedule) =>
      var y := Enter(Enter(s)).(dpcs := s.dpcs + [Callback(id)]);
      CoreFrame(s, y);
      SignalContinues(s, a, y, DPC_EVENT, reschedule, 2);
  }

  lemma MutexCallContinues(s: Kernel, a: Action)
    requires Inv(s) && Enabled(s, a) && (a.Acquire? || a.ReleaseMutex?) && PlaceOf(s, a) == GoesOn
    ensures Continues(s, a, MutexCall(s, a))
  {
    hide QueuesOk, WaitsOk, ThreadsOk, TimersGood, Continues, Block, WakeOneAndResched;
    match a
    case Acquire(m, timeout, now) =>
      AcquireShape(s, m, timeout, now);
      SameContinues(s, a, MutexCall(s, a));
    case ReleaseMutex(m) =>
      assert s.waits[OfMutex(m)].list == [];
      ReleaseShape(s, m);
      SameContinues(s, a, MutexCall(s, a));
  }

  lemma OtherContinues(s: Kernel, a: Action)
    requires OnCpu(s) && DomainOk(s) && Enabled(s, a) && PlaceOf(s, a) == GoesOn
    requires !a.Proceed? && !a.TimerTick? && !a.Acquire? && !a.ReleaseMutex? && !a.Signal? && !a.QueueCallback?
    ensures Continues(s, a, if a.Wait? || a.Unsignal? then EventCall(s, a) else if DpcLoop(a) then DpcStep(s, a) else ThreadCall(s, a))
  {
    hide QueuesOk, WaitsOk, Continues, Block;
    SameContinues(s, a,
      if a.Wait? || a.Unsignal? then EventCall(s, a) else if DpcLoop(a) then DpcStep(s, a) else ThreadCall(s, a));
  }

  /** After any other step the caller goes on, and the threads it has woken are at the heads of their queues. */
  lemma StepContinues(s: Kernel, a: Action)
    requires Inv(s) && Enabled(s, a) && PlaceOf(s, a) == GoesOn
    ensures Core(s) && Continues(s, a, Step(s, a))
  {
    hide Inv, Core, OnCpu, DomainOk, Continues, ThreadCall, MutexCall, EventCall, SignalCall, DpcStep, Woken;
    InvParts(s);
    if a.Proceed? {
      ProceedContinues(s);
    } else if a.Acquire? || a.ReleaseMutex? {
      MutexCallContinues(s, a);
    } else if a.Signal? || a.QueueCallback? {
      SignalCallContinues(s, a);
    } else {
      OtherContinues(s, a);
    }
  }

  // ---- who runs -----------------------------------------------------------

  /** A mutex release, or a signal with reschedule, that wakes one thread: it runs
      if its priority is not below the caller's, otherwise the caller goes on, as
      long as no ready thread is above both. */
  lemma OneWokenRunsUnlessLower(s: Kernel, a: Action, t: Tid)
    requires Inv(s) && Enabled(s, a) && PlaceOf(s, a) == BehindWoken && Woken(s, a) == [t]
    requires t in s.threads && forall p | 0 <= p < |s.rq.queue| &&
      s.threads[t].priority < p && s.threads[s.current].priority < p :: s.rq.queue[p] == []
    ensures Step(s, a).current == if s.threads[t].priority >= s.threads[s.current].priority then t else s.current
  {
    hide Inv, Core, Woken, PlaceOf, Step, Enabled, ReadyAt;
    InvParts(s);
    CoreSize(s);
    var h := StepSwitches(s, a);
    var top := if s.threads[t].priority >= s.threads[s.current].priority then s.threads[t].priority else s.threads[s.current].priority;
    PriorityKnown(s, t);
    OneWokenQueue(s, a, t, h);
    OneWokenQueue(s, a, t, top);
  }

  lemma PriorityKnown(s: Kernel, t: Tid)
    requires Core(s) && t in s.threads
    ensures s.threads[t].priority < NUM_PRIORITIES
  {
  }

  /** event_signal with reschedule on a clear auto-unsignal event runs its first waiter at once, unless that is lower. */
  lemma SignalRunsWaiter(s: Kernel, e: nat)
    requires Inv(s) && Enabled(s, Signal(e, true)) && !s.events[e].signalled && s.events[e].auto
    requires OfEvent(e) in s.waits && s.waits[OfEvent(e)].list != [] && s.waits[OfEvent(e)].list[0] in s.threads
    requires forall p | 0 <= p < |s.rq.queue| && s.threads[s.current].priority < p
      && s.threads[s.waits[OfEvent(e)].list[0]].priority < p :: s.rq.queue[p] == []
    ensures
      var t := s.waits[OfEvent(e)].list[0];
      Step(s, Signal(e, true)).current == if s.threads[t].priority >= s.threads[s.current].priority then t else s.current
  {
    hide Inv, Step;
    OneWokenRunsUnlessLower(s, Signal(e, true), s.waits[OfEvent(e)].list[0]);
  }

  /** A deferred call queued with reschedule runs the thread that runs such calls at once, unless that is lower. */
  lemma CallbackRunsThread(s: Kernel, id: nat, t: Tid)
    requires Inv(s) && Enabled(s, QueueCallback(id, true)) && DPC_EVENT in s.events && !s.events[DPC_EVENT].signalled
    requires OfEvent(DPC_EVENT) in s.waits && s.waits[OfEvent(DPC_EVENT)].list == [t] && t in s.threads
    requires forall p | 0 <= p < |s.rq.queue| && s.threads[s.current].priority < p && s.threads[t].priority < p ::
      s.rq.queue[p] == []
    ensures Step(s, QueueCallback(id, true)).current ==
      if s.threads[t].priority >= s.threads[s.current].priority then t else s.current
  {
    hide Inv, Step;
    OneWokenRunsUnlessLower(s, QueueCallback(id, true), t);
  }

  lemma OneWokenQueue(s: Kernel, a: Action, t: Tid, p: nat)
    requires s.current in s.threads && p < |s.rq.queue| && PlaceOf(s, a) == BehindWoken && Woken(s, a) == [t] && t in s.threads
    ensures ReadyAt(s, a, p) == (if s.threads[t].priority == p then [t] else []) + Own(s, p) + s.rq.queue[p]
  {
    hide Woken, PlaceOf;
    assert [t][1..] == [];
    assert LastFirst([t], s.threads, p) == if s.threads[t].priority == p then [t] else [];
  }

  /** `t` is the last of `list` with priority `p`. */
  predicate LastOf(list: seq<Tid>, threads: map<Tid, Thread>, p: nat, t: Tid) {
    exists i | 0 <= i < |list| :: list[i] == t && t in threads && threads[t].priority == p &&
      forall j | i < j < |list| :: list[j] !in threads || threads[list[j]].priority != p
  }

  lemma {:induction false} LastFirstHead(list: seq<Tid>, threads: map<Tid, Thread>, p: nat)
    ensures LastFirst(list, threads, p) != [] ==> LastOf(list, threads, p, LastFirst(list, threads, p)[0])
    ensures LastFirst(list, threads, p) == [] ==>
      forall j | 0 <= j < |list| :: list[j] !in threads || threads[list[j]].priority != p
    decreases |list|
  {
    if list != [] {
      LastFirstHead(list[1..], threads, p);
      assert forall j | 0 < j < |list| :: list[j] == list[1..][j - 1];
      if LastFirst(list[1..], threads, p) != [] {
        var t := LastFirst(list[1..], threads, p)[0];
        var i :| 0 <= i < |list[1..]| && list[1..][i] == t && forall j | i < j < |list[1..]| ::
          list[1..][j] !in threads || threads[list[1..][j]].priority != p;
        assert list[i + 1] == t;
      } else if LastFirst(list, threads, p) != [] {
        assert list[0] == LastFirst(list, threads, p)[0];
      }
    }
  }

  /** A timer interrupt, or a signal with reschedule: if `h` is the highest
      priority of those it wakes, above the caller and all ready threads, the last
      one woken at that priority runs. */
  lemma LastWokenRuns(s: Kernel, a: Action, h: nat)
    requires Inv(s) && Enabled(s, a) && PlaceOf(s, a) in {BehindWoken, InFront, AtEnd} && h < NUM_PRIORITIES
    requires LastFirst(Woken(s, a), s.threads, h) != [] && s.threads[s.current].priority < h
    requires forall p | h < p < NUM_PRIORITIES :: LastFirst(Woken(s, a), s.threads, p) == [] && p < |s.rq.queue| && s.rq.queue[p] == []
    ensures LastOf(Woken(s, a), s.threads, h, Step(s, a).current)
  {
    hide Inv, Core, Woken, PlaceOf, Step, Enabled, ReadyAt, LastFirst, LastOf;
    InvParts(s);
    CoreSize(s);
    var k := StepSwitches(s, a);
    ReadyIs(s, a, k);
    ReadyIs(s, a, h);
    LastFirstHead(Woken(s, a), s.threads, h);
  }
}
