/** Time slices, and who runs after a wake. */
module SliceLaws {
  import opened Words
  import opened RunQueues
  import opened TimerQueue
  import opened KernelState
  import opened KernelOps
  import opened KernelCalls
  import opened KernelInv
  import opened KernelSteps
  import opened KernelProofs
  import opened KernelSyncProofs
  import opened KernelTickProofs
  import opened KernelRuns
  import opened MaskLaws
  import opened SchedulerLaws

  // ---- time slices --------------------------------------------------------

  /** The state in which an interrupt that finds no timer due calls thread_preempt. */
  function Ticked(s: Kernel): Kernel
    requires s.current in s.threads
  {
    QuantumTick(Interrupted(s))
  }

  lemma QuietTickShape(s: Kernel, now: Word)
    requires OnCpu(s) && TimersOk(s.timers, s.threads) && !Due(s.timers, now)
    requires forall i | 0 <= i < |s.timers| :: s.timers[i].body.t != s.current
    ensures OnCpu(Ticked(s)) && Tick(s, now) == ThreadPreempt(Ticked(s))
  {
    hide QueuesOk, WaitsOk, ThreadPreempt;
    TickShape(s, now);
    assert FireDue(Interrupted(s), now) == Interrupted(s);
  }

  /** The preempted thread is back in its queue: at the head while its slice lasts, else at the tail. */
  function Preempted(s: Kernel): Kernel
    requires s.current in s.threads && s.threads[s.current].priority < |s.rq.queue|
  {
    MakeReady(SetCont(Enter(s), InPreempt), s.current, s.threads[s.current].quantum > 0)
  }

  lemma PreemptedQueue(s: Kernel)
    requires OnCpu(s)
    ensures
      var p := s.threads[s.current].priority;
      var x := Preempted(s);
      && Indexed(x.rq) && SamePriorities(s, x) && x.current == s.current && x.timers == s.timers
      && x.rq.queue == s.rq.queue[p := if s.threads[s.current].quantum > 0 then [s.current] + s.rq.queue[p]
                                       else s.rq.queue[p] + [s.current]]
      && x.threads == s.threads[s.current := s.threads[s.current].(state := Ready, cont := InPreempt)]
      && (forall t | t in s.rq.queue[p] :: t in s.threads)
      && ThreadPreempt(s) == Resched(x)
  {
    hide WaitsOk, Resched;
    var p := s.threads[s.current].priority;
    PushKeepsIndex(s.rq, p, s.current);
    assert QueueOk(s.rq.queue[p], p, s.threads);
  }

  /** What thread_resched does to the thread it picks. */
  lemma ReschedQuantum(x: Kernel, p: nat)
    requires Indexed(x.rq) && x.current in x.threads && p < NUM_PRIORITIES && x.rq.queue[p] != []
    requires forall q | p < q < NUM_PRIORITIES :: x.rq.queue[q] == []
    requires x.rq.queue[p][0] in x.threads
    ensures
      var t := x.rq.queue[p][0];
      var s' := Resched(x);
      && t in s'.threads && s'.timers == x.timers && s'.threads[t].cont == x.threads[t].cont
      && s'.threads[t].quantum == if t != x.current && x.threads[t].quantum <= 0 then 5 else x.threads[t].quantum
  {
    HighestQueue(x.rq, p);
  }

  /** thread_preempt at the top priority: the caller goes on while its slice
      lasts; when it is used up the next in line runs, with a full slice if it had none. */
  lemma PreemptDecides(s: Kernel)
    requires OnCpu(s) && Top(s)
    ensures
      var s' := ThreadPreempt(s);
      var p := s.threads[s.current].priority;
      var th := s.threads[s.current];
      var line := if th.quantum > 0 then Line(s) else Line(s)[1..] + [s.current];
      && SamePriorities(s, s') && s'.timers == s.timers
      && s'.current == line[0] && s'.rq.queue == s.rq.queue[p := line[1..]]
      && s'.current in s.threads && s'.current in s'.threads
      && s'.threads[s'.current].quantum ==
         (if s'.current == s.current then th.quantum
          else if s.threads[s'.current].quantum <= 0 then 5 else s.threads[s'.current].quantum)
      && (s'.current == s.current ==> s'.threads[s'.current].cont == InPreempt)
  {
    hide QueuesOk, WaitsOk, ThreadPreempt, Preempted, Resched;
    var p := s.threads[s.current].priority;
    var x := Preempted(s);
    assert Line(s)[1..] == s.rq.queue[p];
    PreemptedQueue(s);
    var line := if s.threads[s.current].quantum > 0 then Line(s) else Line(s)[1..] + [s.current];
    assert x.rq.queue[p] == line;
    assert line[0] == s.current || line[0] in s.rq.queue[p];
    ReschedTakes(x, p);
    ReschedQuantum(x, p);
  }

  lemma TickedFacts(s: Kernel)
    requires s.current in s.threads && s.current != s.idle && s.threads[s.current].priority < |s.rq.queue|
    ensures
      var f := Ticked(s);
      && f.current == s.current && f.rq == s.rq && f.timers == s.timers && SamePriorities(s, f)
      && f.threads[s.current].quantum == s.threads[s.current].quantum - 1
      && (forall t | t in s.threads && t != s.current :: f.threads[t] == s.threads[t])
  {
  }

  /** A timer interrupt that finds no timer due, at the top priority. */
  lemma QuietTick(s: Kernel, now: Word)
    requires Busy(s) && !s.masked && s.current != s.idle && Top(s) && !Due(s.timers, now)
    ensures Enabled(s, TimerTick(now)) && Inv(Step(s, TimerTick(now)))
    ensures
      var s' := Step(s, TimerTick(now));
      var p := s.threads[s.current].priority;
      var q := s.threads[s.current].quantum - 1;
      var line := if q > 0 then Line(s) else Line(s)[1..] + [s.current];
      && SamePriorities(s, s') && s'.timers == s.timers
      && s'.current == line[0] && s'.rq.queue == s.rq.queue[p := line[1..]]
      && s'.current in s.threads && s'.current in s'.threads
      && s'.threads[s'.current].quantum ==
         (if s'.current == s.current then q
          else if s.threads[s'.current].quantum <= 0 then 5 else s.threads[s'.current].quantum)
      && (s'.current == s.current ==> s'.threads[s'.current].cont == InPreempt)
  {
    hide QueuesOk, WaitsOk, ThreadsOk, DomainOk, Side, Tick, ThreadPreempt, Ticked;
    StepInv(s, TimerTick(now));
    NoOwnTimer(s);
    QuietTickShape(s, now);
    TickedFacts(s);
    PreemptDecides(Ticked(s));
  }

  /** Returning from the interrupt changes neither queues nor slices. */
  lemma ReturnFromTick(s: Kernel)
    requires Inv(s) && s.threads[s.current].cont.InPreempt?
    ensures Enabled(s, Proceed) && Busy(Step(s, Proceed))
    ensures
      var s' := Step(s, Proceed);
      && s'.current == s.current && s'.rq == s.rq && s'.timers == s.timers && SamePriorities(s, s') && !s'.masked
      && s'.threads[s.current].quantum == s.threads[s.current].quantum
  {
    hide QueuesOk, WaitsOk, ThreadsOk, TimersGood, Side;
    ContinueInv(s);
    ContinueShape(s);
  }

  /** Interrupts and the returns from them. */
  function Ticks(times: seq<Word>): seq<Action> {
    if times == [] then [] else [TimerTick(times[0]), Proceed] + Ticks(times[1..])
  }

  /** A thread of the top priority keeps the CPU through as many timer interrupts as its slice has left but one. */
  lemma {:induction false} SliceLasts(s: Kernel, times: seq<Word>)
    requires Busy(s) && !s.masked && s.current != s.idle && Top(s)
    requires |times| < s.threads[s.current].quantum && forall i | 0 <= i < |times| :: !Due(s.timers, times[i])
    ensures Runs(s, Ticks(times))
    ensures
      var e := End(s, Ticks(times));
      && Busy(e) && !e.masked && e.current == s.current && e.rq.queue == s.rq.queue && e.timers == s.timers
      && SamePriorities(s, e) && e.threads[s.current].quantum == s.threads[s.current].quantum - |times|
    decreases |times|
  {
    hide Inv, Step, Enabled, Due;
    if times != [] {
      var s' := OneTick(s, times[0]);
      SliceLasts(s', times[1..]);
      TwoSteps(s, TimerTick(times[0]), Proceed, Ticks(times[1..]));
    }
  }

  lemma OneTick(s: Kernel, now: Word) returns (s': Kernel)
    requires Busy(s) && !s.masked && s.current != s.idle && Top(s)
    requires s.threads[s.current].quantum > 1 && !Due(s.timers, now)
    ensures Enabled(s, TimerTick(now)) && Inv(Step(s, TimerTick(now))) && Enabled(Step(s, TimerTick(now)), Proceed)
    ensures s' == Step(Step(s, TimerTick(now)), Proceed)
    ensures Busy(s') && !s'.masked && s'.current == s.current && s'.rq.queue == s.rq.queue && s'.timers == s.timers
    ensures SamePriorities(s, s') && s'.threads[s.current].quantum == s.threads[s.current].quantum - 1 && Top(s')
  {
    hide Good, Side, Step, Due;
    InvOthers(s);
    LineHead(s);
    QuietTick(s, now);
    var s1 := Step(s, TimerTick(now));
    ReturnFromTick(s1);
    s' := Step(s1, Proceed);
    var p := s.threads[s.current].priority;
    assert Line(s)[1..] == s.rq.queue[p];
    assert s.rq.queue[p := s.rq.queue[p]] == s.rq.queue;
  }

  /** The interrupt that uses the slice up hands the CPU to the next in line. */
  lemma SliceEnds(s: Kernel, now: Word)
    requires Busy(s) && !s.masked && s.current != s.idle && Top(s) && !Due(s.timers, now)
    requires s.threads[s.current].quantum <= 1
    ensures Enabled(s, TimerTick(now))
    ensures Step(s, TimerTick(now)).current == (Line(s)[1..] + [s.current])[0]
  {
    hide Good, Side, Step, Due;
    LineHead(s);
    QuietTick(s, now);
  }

  // ---- after a wake -------------------------------------------------------

  /** The queues after the current thread and then the woken one went to the heads of theirs. */
  lemma WakeQueues(s: Kernel, w: WaitId, depth: nat)
    requires OnCpu(s) && w in s.waits && s.waits[w].list != []
    ensures WaitOk(s.waits[w], w, s.threads) && s.waits[w].list[0] in s.threads
    ensures
      var t := s.waits[w].list[0];
      var c := s.current;
      var p := s.threads[c].priority;
      var q := s.threads[t].priority;
      var mine := s.rq.queue[p := [c] + s.rq.queue[p]];
      var x := Release(MakeReady(SetCont(s, InWake(depth)), c, true), w, 0, NO_ERROR);
      && q < NUM_PRIORITIES && p < NUM_PRIORITIES
      && Core(x) && x.current == c && x.rq.queue == mine[q := [t] + mine[q]]
      && x.threads[c].state.Ready? && x.threads.Keys == s.threads.Keys
      && WakeOneAndResched(s, w, NO_ERROR, depth) == Resched(x)
  {
    hide Resched;
    ParkCore(s, InWake(depth), true);
    ReleaseReleases(MakeReady(SetCont(s, InWake(depth)), s.current, true), w, 0, NO_ERROR);
  }

  /** After a wake with reschedule the woken thread runs if its priority is not
      below the waker's, and otherwise the waker goes on, as long as no other
      ready thread is above both. */
  lemma WokenRunsUnlessLower(s: Kernel, w: WaitId, depth: nat)
    requires OnCpu(s) && w in s.waits && s.waits[w].list != []
    requires
      var t := s.waits[w].list[0];
      t in s.threads && forall r | 0 <= r < |s.rq.queue| &&
        s.threads[t].priority < r && s.threads[s.current].priority < r :: s.rq.queue[r] == []
    ensures
      var t := s.waits[w].list[0];
      WakeOneAndResched(s, w, NO_ERROR, depth).current ==
      if s.threads[t].priority >= s.threads[s.current].priority then t else s.current
  {
    hide QueuesOk, WaitsOk, Resched, Release, WakeOneAndResched;
    WakeQueues(s, w, depth);
    var t := s.waits[w].list[0];
    var p := s.threads[s.current].priority;
    var q := s.threads[t].priority;
    var x := Release(MakeReady(SetCont(s, InWake(depth)), s.current, true), w, 0, NO_ERROR);
    ReschedTakes(x, if q >= p then q else p);
  }

  // ---- a signal without reschedule ----------------------------------------

  /** The threads of priority `p` in `list`, the last one first. */
  function LastFirst(list: seq<Tid>, threads: map<Tid, Thread>, p: nat): seq<Tid>
    decreases |list|
  {
    if list == [] then [] else
    LastFirst(list[1..], threads, p) + if list[0] in threads && threads[list[0]].priority == p then [list[0]] else []
  }

  lemma {:induction false} LastFirstFrame(list: seq<Tid>, threads: map<Tid, Thread>, threads': map<Tid, Thread>, p: nat)
    requires threads'.Keys == threads.Keys
    requires forall t | t in threads :: threads'[t].priority == threads[t].priority
    ensures LastFirst(list, threads', p) == LastFirst(list, threads, p)
    decreases |list|
  {
    if list != [] {
      LastFirstFrame(list[1..], threads, threads', p);
    }
  }

  lemma ReleaseQueues(s: Kernel, w: WaitId, code: int, p: nat)
    requires Core(s) && w in s.waits && s.waits[w].list != [] && p < NUM_PRIORITIES
    ensures WaitOk(s.waits[w], w, s.threads) && Core(Release(s, w, 0, code))
    ensures
      var t := s.waits[w].list[0];
      var s' := Release(s, w, 0, code);
      && t in s.threads && s'.threads.Keys == s.threads.Keys
      && (forall u | u in s.threads :: s'.threads[u].priority == s.threads[u].priority)
      && w in s'.waits && s'.waits[w].list == s.waits[w].list[1..]
      && s'.rq.queue[p] == (if s.threads[t].priority == p then [t] else []) + s.rq.queue[p]
  {
    ReleaseReleases(s, w, 0, code);
    assert s.waits[w].list[..0] + s.waits[w].list[1..] == s.waits[w].list[1..];
    assert [] + s.rq.queue[p] == s.rq.queue[p];
  }

  lemma {:induction false} WakeAllQueues(s: Kernel, w: WaitId, code: int, p: nat)
    requires Core(s) && w in s.waits && p < NUM_PRIORITIES
    ensures Core(WakeAll(s, w, code))
    ensures WakeAll(s, w, code).rq.queue[p] == LastFirst(s.waits[w].list, s.threads, p) + s.rq.queue[p]
    decreases |s.waits[w].list|
  {
    hide QueuesOk, WaitsOk, Release;
    if s.waits[w].list == [] {
      assert [] + s.rq.queue[p] == s.rq.queue[p];
    } else {
      ReleaseQueues(s, w, code, p);
      var s1 := Release(s, w, 0, code);
      WakeAllQueues(s1, w, code, p);
      LastFirstFrame(s1.waits[w].list, s.threads, s1.threads, p);
      var t := s.waits[w].list[0];
      var mine := if s.threads[t].priority == p then [t] else [];
      assert LastFirst(s.waits[w].list[1..], s.threads, p) + (mine + s.rq.queue[p]) ==
        (LastFirst(s.waits[w].list[1..], s.threads, p) + mine) + s.rq.queue[p];
    }
  }

  /** event_signal without reschedule puts the threads it wakes at the head of
      their run queues: the first waiter of an auto-unsignal event, and all
      waiters of another, the last one in front. */
  lemma SignalPutsAtHead(s: Kernel, e: nat, p: nat)
    requires Inv(s) && Enabled(s, Signal(e, false)) && OfEvent(e) in s.waits && p < NUM_PRIORITIES
    ensures Core(Step(s, Signal(e, false)))
    ensures
      var list := s.waits[OfEvent(e)].list;
      var woken := if s.events[e].signalled then []
                   else if s.events[e].auto && list != [] then [list[0]] else list;
      Step(s, Signal(e, false)).rq.queue[p] == LastFirst(woken, s.threads, p) + s.rq.queue[p]
  {
    hide QueuesOk, WaitsOk, ThreadsOk, TimersGood, Side, SignalAt;
    CoreFrame(s, Enter(s));
    QuietQueues(Enter(s), e, p);
    SignalledCore(Enter(s), e);
  }

  lemma SignalledCore(s: Kernel, e: nat)
    requires OnCpu(s) && e in s.events && OfEvent(e) in s.waits && Core(SignalQuietly(s, e))
    ensures SignalAt(s, e, false, 1).rq == SignalQuietly(s, e).rq && Core(SignalAt(s, e, false, 1))
  {
    hide QueuesOk, WaitsOk, SignalQuietly;
    ExitNCounts(SignalQuietly(s, e), 1);
    CoreFrame(SignalQuietly(s, e), ExitN(SignalQuietly(s, e), 1));
  }

  lemma QuietQueues(s: Kernel, e: nat, p: nat)
    requires Core(s) && e in s.events && OfEvent(e) in s.waits && p < NUM_PRIORITIES
    ensures Core(SignalQuietly(s, e))
    ensures
      var list := s.waits[OfEvent(e)].list;
      var woken := if s.events[e].signalled then []
                   else if s.events[e].auto && list != [] then [list[0]] else list;
      SignalQuietly(s, e).rq.queue[p] == LastFirst(woken, s.threads, p) + s.rq.queue[p]
  {
    hide QueuesOk, WaitsOk, Release, WakeAll;
    var w := OfEvent(e);
    SetSignalledCore(s, e, true);
    assert [] + s.rq.queue[p] == s.rq.queue[p];
    if !s.events[e].signalled {
      if !s.events[e].auto {
        WakeAllQueues(SetSignalled(s, e, true), w, NO_ERROR, p);
      } else if s.waits[w].list != [] {
        ReleaseQueues(s, w, NO_ERROR, p);
        assert [s.waits[w].list[0]][1..] == [];
      }
    }
  }
}
