/** Synchronisation without a scheduler: what mutexes, events, their waiters and
    the deferred calls do, whatever the priorities and the run queues. The kernel
    refines this machine. */
module KernelSync {
  import opened Words
  import opened RunQueues
  import opened TimerQueue
  import opened KernelState
  import opened KernelOps
  import opened KernelCalls
  import opened KernelInv
  import opened KernelSteps
  import opened KernelSide
  import opened KernelProofs
  import opened KernelSyncProofs
  import opened KernelDpcProofs
  import opened KernelTickProofs

  datatype Sync = Sync(
    lists: map<WaitId, seq<Tid>>,
    waiters: map<Tid, Waiter>,
    mutexes: map<nat, Mutex>,
    events: map<nat, Event>,
    calls: seq<Call>,
    pc: DpcPc,
    dead: set<Tid>)

  // ---- the machine --------------------------------------------------------

  /** `t` joins the queue of `w`. */
  function Join(y: Sync, t: Tid, w: WaitId, timed: bool): Sync
    requires w in y.lists
  {
    y.(lists := y.lists[w := y.lists[w] + [t]],
       waiters := y.waiters[t := Waiter(w, timed, true, NO_ERROR)])
  }

  /** The `i`th waiter of `w` is released with `code`. */
  function Grant(y: Sync, w: WaitId, i: nat, code: int): Sync
    requires w in y.lists && i < |y.lists[w]|
  {
    var t := y.lists[w][i];
    y.(lists := y.lists[w := y.lists[w][..i] + y.lists[w][i+1..]],
       waiters := if t in y.waiters then y.waiters[t := y.waiters[t].(blocked := false, ret := code)] else y.waiters)
  }

  function GrantAll(y: Sync, w: WaitId): Sync
    requires w in y.lists
    decreases if w in y.lists then |y.lists[w]| else 0
  {
    if y.lists[w] == [] then y else GrantAll(Grant(y, w, 0, NO_ERROR), w)
  }

  function Flag(y: Sync, e: nat, signalled: bool): Sync
    requires e in y.events
  {
    y.(events := y.events[e := y.events[e].(signalled := signalled)])
  }

  function DoAcquire(y: Sync, t: Tid, m: nat, timeout: Word): Sync
    requires m in y.mutexes && OfMutex(m) in y.lists
  {
    var mx := y.mutexes[m];
    if mx.count == 0 then y.(mutexes := y.mutexes[m := Mutex(1, Some(t))])
    else if timeout == 0 then y
    else Join(y.(mutexes := y.mutexes[m := mx.(count := mx.count + 1)]), t, OfMutex(m), timeout != INFINITE_TIME)
  }

  function DoRelease(y: Sync, m: nat): Sync
    requires m in y.mutexes && OfMutex(m) in y.lists
  {
    var y1 := y.(mutexes := y.mutexes[m := Mutex(y.mutexes[m].count - 1, None)]);
    if y.mutexes[m].count > 1 && y.lists[OfMutex(m)] != [] then Grant(y1, OfMutex(m), 0, NO_ERROR) else y1
  }

  function DoWait(y: Sync, t: Tid, e: nat, timeout: Word): Sync
    requires e in y.events && OfEvent(e) in y.lists
  {
    if y.events[e].signalled then Flag(y, e, !y.events[e].auto)
    else if timeout == 0 then y
    else Join(y, t, OfEvent(e), timeout != INFINITE_TIME)
  }

  function DoSignal(y: Sync, e: nat): Sync
    requires e in y.events && OfEvent(e) in y.lists
  {
    if y.events[e].signalled then y
    else if !y.events[e].auto then GrantAll(Flag(y, e, true), OfEvent(e))
    else if y.lists[OfEvent(e)] == [] then Flag(y, e, true)
    else Grant(y, OfEvent(e), 0, NO_ERROR)
  }

  /** `t` returns from its wait. */
  function DoReturn(y: Sync, t: Tid): Sync
    requires t in y.waiters && (y.waiters[t].w.OfMutex? ==> y.waiters[t].w.m in y.mutexes)
  {
    var y1 := y.(waiters := y.waiters - {t});
    match y.waiters[t].w
    case OfMutex(m) =>
      var mx := y.mutexes[m];
      y1.(mutexes := y.mutexes[m := if y.waiters[t].ret == ERR_TIMED_OUT then mx.(count := mx.count - 1)
                                    else mx.(holder := Some(t))])
    case OfEvent(e) => if e == DPC_EVENT then y1.(pc := AtTake) else y1
  }

  /** The timeout of `t` expires: a waiter that is still queued gives up. */
  function DoTimeout(y: Sync, t: Tid): Sync {
    if t in y.waiters && y.waiters[t].blocked && y.waiters[t].w in y.lists && t in y.lists[y.waiters[t].w] then
      Grant(y, y.waiters[t].w, IndexOf(y.lists[y.waiters[t].w], t), ERR_TIMED_OUT)
    else y
  }

  /** The timers due at `now` expire in queue order. */
  function DoTick(y: Sync, timers: seq<Entry<ThreadTimer>>, now: Word): Sync
    decreases |timers|
  {
    if !Due(timers, now) then y
    else DoTick(if timers[0].body.Timeout? then DoTimeout(y, timers[0].body.t) else y, timers[1..], now)
  }

  function DoTake(y: Sync): Sync
    requires DPC_EVENT in y.events
  {
    if y.calls == [] then Flag(y, DPC_EVENT, false).(pc := AtWait)
    else y.(calls := y.calls[1..], pc := Calling(y.calls[0]))
  }

  /** A deferred call ends; a cleanup frees its thread. */
  function DoFinish(y: Sync): Sync
    requires y.pc.Calling?
  {
    y.(pc := AtWait, dead := if y.pc.call.Cleanup? then y.dead - {y.pc.call.t} else y.dead)
  }

  // ---- abstraction --------------------------------------------------------

  function Lists(waits: map<WaitId, WaitQueue>): map<WaitId, seq<Tid>> {
    map w | w in waits :: waits[w].list
  }

  function Abs(s: Kernel): Sync {
    Sync(Lists(s.waits), ViewOf(s.threads).waiters, s.mutexes, s.events, s.dpcs, s.dpcPc, ViewOf(s.threads).dead)
  }

  lemma AbsExitN(s: Kernel, n: nat)
    ensures Abs(ExitN(s, n)) == Abs(s)
  {
    ExitNCounts(s, n);
  }

  /** The switch is invisible to the machine. */
  lemma AbsResched(s: Kernel)
    requires QueuesOk(s.rq.queue, s.threads)
    requires s.current in s.threads && !s.threads[s.current].state.Running?
    ensures Abs(Resched(s)) == Abs(s)
  {
    if CanResched(s) {
      var p := NextQueue(s.rq);
      assert QueueOk(s.rq.queue[p], p, s.threads);
      ReschedSwitches(s);
      SwitchView(s, Resched(s), Next(s));
    }
  }

  lemma AbsParked(s: Kernel, k: Cont, quantum: int, head: bool)
    requires s.current in s.threads && s.threads[s.current].priority < |s.rq.queue|
    requires !s.threads[s.current].cont.InWait? && !k.InWait? && !s.threads[s.current].state.Death?
    ensures Abs(Parked(s, k, quantum, head)) == Abs(s)
  {
    ParkView(s, k, quantum, head);
  }

  lemma AbsReleased(s: Kernel, s': Kernel, w: WaitId, i: nat, code: int)
    requires w in s.waits && i < |s.waits[w].list| && Released(s, s', s.waits[w].list[i], code)
    requires s.threads[s.waits[w].list[i]].cont.InWait?
    requires s'.waits == s.waits[w := WaitQueue(s.waits[w].list[..i] + s.waits[w].list[i+1..], s.waits[w].count - 1)]
    ensures Abs(s') == Grant(Abs(s), w, i, code)
  {
    ReleasedView(s, s', s.waits[w].list[i], code);
    assert Lists(s'.waits) == Lists(s.waits)[w := s.waits[w].list[..i] + s.waits[w].list[i+1..]];
  }

  lemma AbsRelease(s: Kernel, w: WaitId, i: nat, code: int)
    requires Core(s) && ThreadsOk(s) && w in s.waits && i < |s.waits[w].list|
    ensures WaitOk(s.waits[w], w, s.threads)
    ensures Abs(Release(s, w, i, code)) == Grant(Abs(s), w, i, code)
  {
    ReleaseReleases(s, w, i, code);
    BlockedWaits(s, s.waits[w].list[i]);
    AbsReleased(s, Release(s, w, i, code), w, i, code);
  }

  lemma AbsStopped(s: Kernel, w: WaitId, timeout: Word, now: Word)
    requires s.current in s.threads && w in s.waits
    requires s.threads[s.current].state.Running? && s.threads[s.current].cont.User?
    ensures Abs(Stopped(s, w, timeout, now)) == Join(Abs(s), s.current, w, timeout != INFINITE_TIME)
  {
    StoppedView(s, w, timeout, now);
    var s' := Stopped(s, w, timeout, now);
    assert Lists(s'.waits) == Lists(s.waits)[w := s.waits[w].list + [s.current]];
  }

  // ---- refinement ---------------------------------------------------------

  lemma AbsBlock(s: Kernel, w: WaitId, timeout: Word, now: Word)
    requires OnCpu(s) && w in s.waits && s.threads[s.current].cont.User?
    ensures Abs(Block(s, w, timeout, now)) == Join(Abs(s), s.current, w, timeout != INFINITE_TIME)
  {
    BlockShape(s, w, timeout, now);
    StoppedCore(s, w, timeout, now);
    AbsResched(Stopped(s, w, timeout, now));
    AbsStopped(s, w, timeout, now);
  }

  lemma SetMutexOnCpu(s: Kernel, m: nat, count: int, holder: Option<Tid>)
    requires OnCpu(s)
    ensures OnCpu(SetMutex(Enter(s), m, count, holder)) && OnCpu(Enter(s))
  {
    CoreFrame(s, SetMutex(Enter(s), m, count, holder));
    CoreFrame(s, Enter(s));
  }

  lemma AbsSetMutex(s: Kernel, m: nat, count: int, holder: Option<Tid>)
    ensures Abs(SetMutex(Enter(s), m, count, holder)) == Abs(s).(mutexes := s.mutexes[m := Mutex(count, holder)])
    ensures Abs(KernelOps.Exit(SetMutex(Enter(s), m, count, holder))) == Abs(s).(mutexes := s.mutexes[m := Mutex(count, holder)])
    ensures Abs(KernelOps.Exit(Enter(s))) == Abs(s)
  {
  }

  /** `y` is `s` with the count of `m` raised. */
  lemma AbsAcquireBlocks(s: Kernel, y: Sync, w: WaitId, timeout: Word, now: Word)
    requires OnCpu(s) && s.threads[s.current].cont.User? && w in s.waits && Abs(s) == y
    ensures w in y.lists
    ensures Abs(Block(s, w, timeout, now)) == Join(y, s.current, w, timeout != INFINITE_TIME)
  {
    AbsBlock(s, w, timeout, now);
  }

  lemma RefineAcquire(s: Kernel, m: nat, timeout: Word, now: Word)
    requires OnCpu(s) && s.threads[s.current].cont.User? && m in s.mutexes && OfMutex(m) in s.waits
    requires MutexesOk(s.mutexes, ViewOf(s.threads).waiters)
    ensures Abs(MutexAcquire(s, m, timeout, now)) == DoAcquire(Abs(s), s.current, m, timeout)
  {
    AcquireShape(s, m, timeout, now);
    var mx := s.mutexes[m];
    if mx.count == 0 || timeout == 0 {
      AbsSetMutex(s, m, 1, Some(s.current));
    } else {
      SetMutexOnCpu(s, m, mx.count + 1, mx.holder);
      AbsSetMutex(s, m, mx.count + 1, mx.holder);
      AbsAcquireBlocks(SetMutex(Enter(s), m, mx.count + 1, mx.holder),
                       Abs(s).(mutexes := s.mutexes[m := Mutex(mx.count + 1, mx.holder)]), OfMutex(m), timeout, now);
    }
  }

  lemma RefineWait(s: Kernel, e: nat, timeout: Word, now: Word)
    requires OnCpu(s) && s.threads[s.current].cont.User? && e in s.events && OfEvent(e) in s.waits
    ensures Abs(WaitEvent(s, e, timeout, now)) == DoWait(Abs(s), s.current, e, timeout)
  {
    if !s.events[e].signalled && timeout != 0 {
      CoreFrame(s, Enter(s));
      AbsBlock(Enter(s), OfEvent(e), timeout, now);
    }
  }

  lemma AbsOvertaken(s: Kernel, depth: nat)
    requires OnCpu(s) && s.threads[s.current].cont.User?
    ensures Abs(Overtaken(s, depth)) == Abs(s) && Core(Overtaken(s, depth))
  {
    AbsParked(s, InWake(depth), s.threads[s.current].quantum, true);
    ParkedCore(s, InWake(depth), s.threads[s.current].quantum, true);
  }

  lemma RefineWakeOne(s: Kernel, w: WaitId, depth: nat)
    requires InCall(s) && 1 <= depth <= s.cs && s.current != s.idle && w in s.waits && s.waits[w].list != []
    ensures Abs(WakeOneAndResched(s, w, NO_ERROR, depth)) == Grant(Abs(s), w, 0, NO_ERROR)
  {
    OvertakenShape(s, depth);
    OvertakenInv(s, depth);
    AbsOvertaken(s, depth);
    var p := Overtaken(s, depth);
    AbsRelease(p, w, 0, NO_ERROR);
    ReleaseReleases(p, w, 0, NO_ERROR);
    AbsResched(Release(p, w, 0, NO_ERROR));
  }

  lemma {:induction false} RefineWakeAll(s: Kernel, e: nat)
    requires Good(s) && Layers(s) && OfEvent(e) in s.waits
    ensures Abs(WakeAll(s, OfEvent(e), NO_ERROR)) == GrantAll(Abs(s), OfEvent(e))
    decreases |s.waits[OfEvent(e)].list|
  {
    var w := OfEvent(e);
    if s.waits[w].list != [] {
      WakeKeeps(s, w, 0, NO_ERROR);
      AbsRelease(s, w, 0, NO_ERROR);
      RefineWakeAll(Release(s, w, 0, NO_ERROR), e);
    }
  }

  lemma {:induction false} GrantAllFlag(y: Sync, w: WaitId, e: nat)
    requires w in y.lists && e in y.events
    ensures GrantAll(y, w).events == y.events
    ensures GrantAll(Flag(y, e, true), w) == Flag(GrantAll(y, w), e, true)
    decreases |y.lists[w]|
  {
    if y.lists[w] != [] {
      GrantAllFlag(Grant(y, w, 0, NO_ERROR), w, e);
    }
  }

  /** Raising the flag and waking everyone. */
  lemma RefineSignalAll(s: Kernel, e: nat)
    requires Good(s) && Layers(s) && e in s.events && OfEvent(e) in s.waits
    ensures Core(SetSignalled(s, e, true))
    ensures Abs(WakeAll(SetSignalled(s, e, true), OfEvent(e), NO_ERROR)) == GrantAll(Flag(Abs(s), e, true), OfEvent(e))
  {
    WakeAllCommutes(s, e, OfEvent(e));
    RefineWakeAll(s, e);
    GrantAllFlag(Abs(s), OfEvent(e), e);
  }

  lemma RefineQuiet(s: Kernel, e: nat)
    requires Good(s) && Layers(s) && e in s.events && OfEvent(e) in s.waits
    ensures Abs(SignalQuietly(s, e)) == DoSignal(Abs(s), e)
  {
    if !s.events[e].signalled {
      if !s.events[e].auto {
        RefineSignalAll(s, e);
      } else if s.waits[OfEvent(e)].list != [] {
        AbsRelease(s, OfEvent(e), 0, NO_ERROR);
      }
    }
  }

  lemma RefineSignalAllResched(s: Kernel, e: nat)
    requires Good(s) && Layers(s) && e in s.events && OfEvent(e) in s.waits
    requires s.threads[s.current].state.Ready?
    ensures Core(SetSignalled(s, e, true))
    ensures Abs(Resched(WakeAll(SetSignalled(s, e, true), OfEvent(e), NO_ERROR))) ==
      GrantAll(Flag(Abs(s), e, true), OfEvent(e))
  {
    SignalAllKeeps(s, e);
    RefineSignalAll(s, e);
    AbsResched(WakeAll(SetSignalled(s, e, true), OfEvent(e), NO_ERROR));
  }

  lemma RefineWakeAllAndResched(s: Kernel, e: nat, depth: nat)
    requires InCall(s) && 1 <= depth <= s.cs && s.current != s.idle
    requires e in s.events && OfEvent(e) in s.waits
    ensures OnCpu(SetSignalled(s, e, true))
    ensures Abs(WakeAllAndResched(SetSignalled(s, e, true), OfEvent(e), NO_ERROR, depth)) ==
      GrantAll(Flag(Abs(s), e, true), OfEvent(e))
  {
    WakeAllShape(s, e, depth);
    OvertakenShape(s, depth);
    OvertakenInv(s, depth);
    AbsOvertaken(s, depth);
    RefineSignalAllResched(Overtaken(s, depth), e);
  }

  lemma RefineSignal(s: Kernel, e: nat, reschedule: bool, depth: nat)
    requires InCall(s) && 1 <= depth <= s.cs && s.current != s.idle
    requires e in s.events && OfEvent(e) in s.waits
    ensures Abs(SignalAt(s, e, reschedule, depth)) == DoSignal(Abs(s), e)
  {
    if reschedule && !s.events[e].signalled && s.waits[OfEvent(e)].list != [] {
      if s.events[e].auto {
        RefineWakeOne(s, OfEvent(e), depth);
      } else {
        RefineWakeAllAndResched(s, e, depth);
      }
    } else {
      RefineQuiet(s, e);
      AbsExitN(SignalQuietly(s, e), depth);
    }
  }

  lemma RefineReleaseWakes(s: Kernel, m: nat)
    requires Busy(s) && s.current != s.idle && m in s.mutexes && OfMutex(m) in s.waits && s.mutexes[m].holder.Some?
    requires s.waits[OfMutex(m)].list != []
    ensures
      var s1 := SetMutex(Enter(s), m, s.mutexes[m].count - 1, None);
      && OnCpu(s1)
      && Abs(WakeOneAndResched(s1, OfMutex(m), NO_ERROR, 1)) ==
         Grant(Abs(s).(mutexes := s.mutexes[m := Mutex(s.mutexes[m].count - 1, None)]), OfMutex(m), 0, NO_ERROR)
  {
    DropBusy(s, m);
    assert ThreadOk(s.threads[s.current], true, s.cs);
    AbsSetMutex(s, m, s.mutexes[m].count - 1, None);
    RefineWakeOne(SetMutex(Enter(s), m, s.mutexes[m].count - 1, None), OfMutex(m), 1);
  }

  lemma ReleaseOutcome(s: Kernel, m: nat)
    requires OnCpu(s) && m in s.mutexes && OfMutex(m) in s.waits
    requires
      var s1 := SetMutex(Enter(s), m, s.mutexes[m].count - 1, None);
      s.mutexes[m].count - 1 >= 1 && s.waits[OfMutex(m)].list != [] ==>
        && OnCpu(s1)
        && Abs(WakeOneAndResched(s1, OfMutex(m), NO_ERROR, 1)) ==
           Grant(Abs(s).(mutexes := s.mutexes[m := Mutex(s.mutexes[m].count - 1, None)]), OfMutex(m), 0, NO_ERROR)
    ensures Abs(MutexRelease(s, m)) == DoRelease(Abs(s), m)
  {
    hide Core, WakeOneAndResched, MutexRelease, Resched;
    ReleaseShape(s, m);
    AbsSetMutex(s, m, s.mutexes[m].count - 1, None);
  }

  lemma RefineRelease(s: Kernel, m: nat)
    requires Busy(s) && s.current != s.idle && m in s.mutexes && OfMutex(m) in s.waits && s.mutexes[m].holder.Some?
    ensures Abs(MutexRelease(s, m)) == DoRelease(Abs(s), m)
  {
    if s.waits[OfMutex(m)].list != [] {
      RefineReleaseWakes(s, m);
    }
    ReleaseOutcome(s, m);
  }

  lemma AbsReturned(s: Kernel)
    requires s.current in s.threads && s.threads[s.current].state.Running?
    ensures Abs(Returned(s)) == Abs(s).(waiters := Abs(s).waiters - {s.current})
    ensures s.current in Abs(s).waiters <==> s.threads[s.current].cont.InWait?
    ensures s.current in Abs(s).waiters ==> Abs(s).waiters[s.current] == WaiterOf(s.threads[s.current])
    ensures s.current !in Abs(s).waiters ==> Abs(Returned(s)) == Abs(s)
  {
    ReturnedView(s);
    ReturnedEffect(s);
  }

  lemma AbsAfterWait(s: Kernel, w: WaitId)
    requires s.current in s.threads && s.threads[s.current].state.Running?
    requires s.threads[s.current].cont.InWait? && s.threads[s.current].cont.w == w
    requires w.OfMutex? ==> w.m in s.mutexes
    requires w == OfEvent(DPC_EVENT) ==> s.current == s.dpcThread
    ensures s.current in Abs(s).waiters && Abs(s).waiters[s.current].w == w
    ensures Abs(ExitN(AfterWait(Returned(s), w, s.threads[s.current].blockRet), 2)) == DoReturn(Abs(s), s.current)
  {
    AbsReturned(s);
    ReturnedEffect(s);
    AbsExitN(AfterWait(Returned(s), w, s.threads[s.current].blockRet), 2);
    AbsSettle(Returned(s), Abs(s), w, s.threads[s.current].blockRet);
  }

  lemma AbsSettle(r: Kernel, y: Sync, w: WaitId, ret: int)
    requires Abs(r) == y.(waiters := y.waiters - {r.current})
    requires r.current in y.waiters && y.waiters[r.current].w == w && y.waiters[r.current].ret == ret
    requires w.OfMutex? ==> w.m in r.mutexes
    requires w == OfEvent(DPC_EVENT) ==> r.current == r.dpcThread
    ensures Abs(AfterWait(r, w, ret)) == DoReturn(y, r.current)
  {
    match w
    case OfMutex(m) =>
      assert r.mutexes == y.mutexes;
      var mx := y.mutexes[m];
      assert Mutex(mx.count - 1, mx.holder) == mx.(count := mx.count - 1);
      assert Mutex(mx.count, Some(r.current)) == mx.(holder := Some(r.current));
    case OfEvent(e) =>
  }

  lemma RefineContinue(s: Kernel)
    requires Inv(s)
    ensures s.threads[s.current].cont.InWait? && s.threads[s.current].cont.w.OfMutex? ==>
      s.threads[s.current].cont.w.m in s.mutexes
    ensures s.current in Abs(s).waiters <==> s.threads[s.current].cont.InWait?
    ensures s.current in Abs(s).waiters ==> Abs(s).waiters[s.current].w == s.threads[s.current].cont.w
    ensures Abs(Continue(s)) == if s.current in Abs(s).waiters then DoReturn(Abs(s), s.current) else Abs(s)
  {
    ContinueShape(s);
    AbsReturned(s);
    var k := s.threads[s.current].cont;
    if k.InWait? {
      assert RoleOk(s, s.current, s.threads[s.current]);
      AbsAfterWait(s, k.w);
    } else {
      AbsExitN(Returned(s), k.Exits());
    }
  }

  // ---- the timer interrupt ------------------------------------------------

  lemma AbsFire(s: Kernel)
    requires Good(s) && Side(s) && s.timers != [] && s.cs >= 1
    ensures Core(Popped(s))
    ensures
      var b := s.timers[0].body;
      Abs(Fire(Popped(s), b)) == if b.Timeout? then DoTimeout(Abs(s), b.t) else Abs(s)
  {
    var t := s.timers[0].body.t;
    if s.timers[0].body.Wakeup? {
      FireWakeupShape(s);
      BlockedOrNot(s, t);
      ViewSame(s.threads, t, s.threads[t].(state := Ready));
    } else if s.threads[t].state.Blocked? {
      FireTimeoutShape(s);
      BlockedWaits(s, t);
      var w := s.threads[t].blockedOn.value;
      AbsRelease(s, w, IndexOf(s.waits[w].list, t), ERR_TIMED_OUT);
      AbsWaiter(s, t);
    } else {
      FireStaleShape(s);
      AbsWaiter(s, t);
    }
  }

  lemma AbsWaiter(s: Kernel, t: Tid)
    requires t in s.threads
    ensures t in Abs(s).waiters <==> s.threads[t].cont.InWait?
    ensures t in Abs(s).waiters ==> Abs(s).waiters[t] == WaiterOf(s.threads[t])
  {
  }

  lemma {:induction false} RefineFireDue(s: Kernel, now: Word)
    requires Good(s) && Side(s) && s.cs >= 1
    ensures Abs(FireDue(s, now)) == DoTick(Abs(s), s.timers, now)
    decreases |s.timers|
  {
    if Due(s.timers, now) {
      AbsFire(s);
      FireKeeps(s);
      FireTimers(s);
      RefineFireDue(Fire(Popped(s), s.timers[0].body), now);
    }
  }

  lemma AbsQuantumTick(s: Kernel)
    requires s.current in s.threads && !s.threads[s.current].cont.InWait? && !s.threads[s.current].state.Death?
    ensures Abs(QuantumTick(s)) == Abs(s)
  {
    ViewSame(s.threads, s.current, QuantumTick(s).threads[s.current]);
    assert s.threads[s.current := s.threads[s.current]] == s.threads;
  }

  lemma AbsPreempt(s: Kernel)
    requires OnCpu(s) && s.threads[s.current].cont.User?
    ensures Abs(ThreadPreempt(s)) == Abs(s)
  {
    var e := Enter(s);
    var th := s.threads[s.current];
    CoreFrame(s, e);
    assert SetCont(e, InPreempt) == SetThread(e, s.current, th.(quantum := th.quantum, cont := InPreempt));
    AbsParked(e, InPreempt, th.quantum, th.quantum > 0);
    ParkedCore(e, InPreempt, th.quantum, th.quantum > 0);
    AbsResched(Parked(e, InPreempt, th.quantum, th.quantum > 0));
  }

  lemma RefineTick(s: Kernel, now: Word)
    requires Busy(s)
    ensures forall i | 0 <= i < |s.timers| :: s.timers[i].body.t != s.current
    ensures Abs(Tick(s, now)) == DoTick(Abs(s), s.timers, now)
  {
    NoOwnTimer(s);
    TickShape(s, now);
    assert ThreadOk(s.threads[s.current], true, s.cs);
    CountsBusy(s, Interrupted(s));
    RefineFireDue(Interrupted(s), now);
    var f := FireDue(Interrupted(s), now);
    AbsQuantumTick(f);
    AbsPreempt(QuantumTick(f));
  }

  // ---- the kernel refines the machine --------------------------------------

  /** The objects a step names exist. */
  predicate Applies(y: Sync, t: Tid, a: Action) {
    && DPC_EVENT in y.events && OfEvent(DPC_EVENT) in y.lists
    && match a
       case Acquire(m, _, _) => m in y.mutexes && OfMutex(m) in y.lists
       case ReleaseMutex(m) => m in y.mutexes && OfMutex(m) in y.lists
       case Wait(e, _, _) => e in y.events && OfEvent(e) in y.lists
       case Signal(e, _) => e in y.events && OfEvent(e) in y.lists
       case Unsignal(e) => e in y.events
       case Proceed => t in y.waiters && y.waiters[t].w.OfMutex? ==> y.waiters[t].w.m in y.mutexes
       case DpcFinish => y.pc.Calling?
       case _ => true
  }

  /** A step of thread `t`, or a timer interrupt with the given timer queue. */
  function SyncNext(y: Sync, t: Tid, timers: seq<Entry<ThreadTimer>>, a: Action): Sync
    requires Applies(y, t, a)
  {
    match a
    case Acquire(m, timeout, _) => DoAcquire(y, t, m, timeout)
    case ReleaseMutex(m) => DoRelease(y, m)
    case Wait(e, timeout, _) => DoWait(y, t, e, timeout)
    case Signal(e, _) => DoSignal(y, e)
    case Unsignal(e) => Flag(y, e, false)
    case QueueCallback(id, _) => DoSignal(y.(calls := y.calls + [Callback(id)]), DPC_EVENT)
    case Exit => DoSignal(y.(calls := y.calls + [Cleanup(t)], dead := y.dead + {t}), DPC_EVENT)
    case DpcWait =>
      var y1 := DoWait(y, t, DPC_EVENT, INFINITE_TIME);
      if y.events[DPC_EVENT].signalled then y1.(pc := AtTake) else y1
    case DpcTake => DoTake(y)
    case DpcFinish => DoFinish(y)
    case Proceed => if t in y.waiters then DoReturn(y, t) else y
    case TimerTick(now) => DoTick(y, timers, now)
    case _ => y
  }

  lemma AbsReady(s: Kernel, t: Tid, th: Thread, rq: RunQueue)
    requires t in s.threads && !th.cont.InWait? && !th.state.Death?
    requires !s.threads[t].cont.InWait? && !s.threads[t].state.Death?
    ensures Abs(s.(threads := s.threads[t := th], rq := rq)) == Abs(s)
  {
    ViewSame(s.threads, t, th);
  }

  lemma RefineYield(s: Kernel, k: Cont)
    requires OnCpu(s) && s.threads[s.current].cont.User? && !k.InWait?
    ensures Abs(Resched(Parked(Enter(s), k, 0, false))) == Abs(s)
  {
    CoreFrame(s, Enter(s));
    AbsParked(Enter(s), k, 0, false);
    ParkedCore(Enter(s), k, 0, false);
    AbsResched(Parked(Enter(s), k, 0, false));
  }

  lemma RefineResume(s: Kernel, t: Tid)
    requires Busy(s) && s.current != s.idle && t in s.threads && s.threads[t].state.Suspended?
    ensures Abs(ThreadResume(s, t).0) == Abs(s)
  {
    EnterBusy(s);
    StartReady(Enter(s), t);
    ResumeShape(s, t);
    assert ThreadOk(s.threads[t], t == s.current, Depth(s, t));
    var s1 := MakeReady(Enter(s), t, true);
    AbsReady(Enter(s), t, s.threads[t].(state := Ready), s1.rq);
    RefineYield(s1, InResume);
  }

  lemma RefineSleep(s: Kernel, when: Word)
    requires OnCpu(s) && s.threads[s.current].cont.User?
    ensures Abs(Resched(Asleep(s, when))) == Abs(s)
  {
    AsleepCore(s, when);
    ViewSame(s.threads, s.current, Asleep(s, when).threads[s.current]);
    AbsResched(Asleep(s, when));
  }

  lemma RefineExit(s: Kernel)
    requires Busy(s) && s.current != s.idle && s.current != s.dpcThread
    requires DPC_EVENT in s.events && OfEvent(DPC_EVENT) in s.waits
    ensures Abs(ThreadExit(s)) == DoSignal(Abs(s).(calls := s.dpcs + [Cleanup(s.current)], dead := Abs(s).dead + {s.current}), DPC_EVENT)
  {
    ExitedGood(s);
    ExitedLayers(s);
    AbsExited(s);
    QuietKeeps(Exited(s), DPC_EVENT);
    RefineQuiet(Exited(s), DPC_EVENT);
    AbsResched(SignalQuietly(Exited(s), DPC_EVENT));
  }

  lemma AbsExited(s: Kernel)
    requires s.current in s.threads && s.threads[s.current].cont.User?
    ensures Abs(Exited(s)) == Abs(s).(calls := s.dpcs + [Cleanup(s.current)], dead := Abs(s).dead + {s.current})
  {
    ViewUpdate(s.threads, s.current, Exited(s).threads[s.current]);
    assert s.current !in ViewOf(s.threads).waiters;
  }

  lemma RefineQueueCall(s: Kernel, id: nat, reschedule: bool)
    requires Busy(s) && s.current != s.idle && DPC_EVENT in s.events && OfEvent(DPC_EVENT) in s.waits
    ensures Abs(QueueCall(s, Callback(id), reschedule)) == DoSignal(Abs(s).(calls := s.dpcs + [Callback(id)]), DPC_EVENT)
  {
    EnterBusy(s);
    EnterBusy(Enter(s));
    var n := Enter(Enter(s));
    GoodFrame(n, n.(dpcs := s.dpcs + [Callback(id)]));
    QueuedLayers(n, id);
    RefineSignal(n.(dpcs := s.dpcs + [Callback(id)]), DPC_EVENT, reschedule, 2);
  }

  lemma RefineCreate(s: Kernel, t: Tid, priority: nat)
    requires t !in s.threads && priority < NUM_PRIORITIES
    ensures Abs(ThreadCreate(s, t, priority)) == Abs(s)
  {
    ViewSame(s.threads, t, ThreadCreate(s, t, priority).threads[t]);
  }

  lemma RefinePriority(s: Kernel, to: int)
    requires s.current in s.threads && !s.threads[s.current].cont.InWait? && !s.threads[s.current].state.Death?
    ensures Abs(SetPriority(s, to)) == Abs(s)
  {
    ViewSame(s.threads, s.current, SetPriority(s, to).threads[s.current]);
  }

  lemma RefineThreadCall(s: Kernel, a: Action)
    requires Busy(s) && Enabled(s, a) && !a.Proceed? && !a.TimerTick? && !a.Exit?
    ensures Abs(ThreadCall(s, a)) == Abs(s)
  {
    hide QueuesOk, WaitsOk, ThreadsOk, TimersGood, DomainOk, Side, ThreadCreate, SetPriority;
    match a
    case Yield => RefineYield(s, InYield);
    case Sleep(delay, now) => RefineSleep(s, Add(now, if delay == 0 then 1 else delay));
    case Create(t, priority) => RefineCreate(s, t, priority);
    case Resume(t) =>
      if s.threads[t].state.Suspended? { RefineResume(s, t); }
    case ChangePriority(to) => RefinePriority(s, to);
    case _ =>
  }

  lemma RefineFinish(s: Kernel)
    requires Inv(s) && s.dpcPc.Calling?
    ensures Abs(FinishCall(s)) == DoFinish(Abs(s))
  {
    if s.dpcPc.call.Cleanup? {
      CleanupTarget(s);
      RemoveView(s.threads, s.dpcPc.call.t);
    }
  }

  lemma Known(s: Kernel, a: Action)
    requires DomainOk(s) && s.current in s.threads && Enabled(s, a)
    ensures Applies(Abs(s), s.current, a)
  {
    AbsWaiter(s, s.current);
  }

  lemma RefineDpcStep(s: Kernel, a: Action)
    requires Busy(s) && Enabled(s, a) && DpcLoop(a) && Applies(Abs(s), s.current, a)
    ensures Abs(DpcStep(s, a)) == SyncNext(Abs(s), s.current, s.timers, a)
  {
    hide Side, QueuesOk, WaitsOk, ThreadsOk, TimersGood, WaitEvent;
    match a
    case DpcWait => RefineWait(s, DPC_EVENT, INFINITE_TIME, 0);
    case DpcTake =>
    case DpcFinish => RefineFinish(s);
  }

  lemma RefineMutexCall(s: Kernel, a: Action)
    requires Busy(s) && Enabled(s, a) && Applies(Abs(s), s.current, a) && (a.Acquire? || a.ReleaseMutex?)
    ensures Abs(MutexCall(s, a)) == SyncNext(Abs(s), s.current, s.timers, a)
  {
    match a
    case Acquire(m, timeout, now) => RefineAcquire(s, m, timeout, now);
    case ReleaseMutex(m) => RefineRelease(s, m);
  }

  lemma RefineEventCall(s: Kernel, a: Action)
    requires Busy(s) && Enabled(s, a) && Applies(Abs(s), s.current, a) && (a.Wait? || a.Unsignal?)
    ensures Abs(EventCall(s, a)) == SyncNext(Abs(s), s.current, s.timers, a)
  {
    hide QueuesOk, WaitsOk, ThreadsOk, TimersGood, Side, WaitEvent, DoWait;
    match a
    case Wait(e, timeout, now) => RefineWait(s, e, timeout, now);
    case Unsignal(_) =>
  }

  lemma RefineSignalCall(s: Kernel, a: Action)
    requires Busy(s) && Enabled(s, a) && Applies(Abs(s), s.current, a)
    requires a.Signal? || a.QueueCallback?
    ensures Abs(SignalCall(s, a)) == SyncNext(Abs(s), s.current, s.timers, a)
  {
    hide QueuesOk, WaitsOk, ThreadsOk, TimersGood, SignalAt, DoSignal;
    match a
    case Signal(e, reschedule) => EnterBusy(s); RefineSignal(Enter(s), e, reschedule, 1);
    case QueueCallback(id, reschedule) => RefineQueueCall(s, id, reschedule);
  }

  lemma RefineInterrupt(s: Kernel, a: Action)
    requires Inv(s) && Enabled(s, a) && Applies(Abs(s), s.current, a) && (a.Proceed? || a.TimerTick?)
    ensures Abs(Step(s, a)) == SyncNext(Abs(s), s.current, s.timers, a)
  {
    hide Side, Good, Abs, Continue, Tick, DoReturn, DoTick;
    if a.Proceed? {
      RefineContinue(s);
    } else {
      RefineTick(s, a.now);
    }
  }

  lemma RefineSyncCall(s: Kernel, a: Action)
    requires Busy(s) && Enabled(s, a) && Applies(Abs(s), s.current, a)
    requires a.Acquire? || a.ReleaseMutex? || a.Wait? || a.Unsignal?
    ensures Abs(Step(s, a)) == SyncNext(Abs(s), s.current, s.timers, a)
  {
    hide QueuesOk, WaitsOk, ThreadsOk, TimersGood, Side, MutexCall, EventCall, SyncNext;
    if a.Acquire? || a.ReleaseMutex? {
      RefineMutexCall(s, a);
    } else {
      RefineEventCall(s, a);
    }
  }

  lemma RefineCallsCall(s: Kernel, a: Action)
    requires Busy(s) && Enabled(s, a) && Applies(Abs(s), s.current, a)
    requires a.Signal? || a.QueueCallback? || a.Exit?
    ensures Abs(Step(s, a)) == SyncNext(Abs(s), s.current, s.timers, a)
  {
    hide Side, QueuesOk, WaitsOk, ThreadsOk, TimersGood, SignalCall, ThreadExit, DoSignal;
    if a.Exit? {
      RefineExit(s);
    } else {
      RefineSignalCall(s, a);
    }
  }

  lemma RefineRest(s: Kernel, a: Action)
    requires Busy(s) && Enabled(s, a) && Applies(Abs(s), s.current, a) && !a.Proceed? && !a.TimerTick?
    requires !a.Acquire? && !a.ReleaseMutex? && !a.Wait? && !a.Unsignal? && !a.Signal? && !a.QueueCallback? && !a.Exit?
    ensures Abs(Step(s, a)) == SyncNext(Abs(s), s.current, s.timers, a)
  {
    if DpcLoop(a) {
      RefineDpcStep(s, a);
    } else {
      RefineThreadCall(s, a);
    }
  }

  /** Every step of the kernel is the same step of the synchronisation machine:
      run queues, priorities and time slices do not matter to it. */
  lemma KernelRefinesSync(s: Kernel, a: Action)
    requires Inv(s) && Enabled(s, a)
    ensures Applies(Abs(s), s.current, a)
    ensures Abs(Step(s, a)) == SyncNext(Abs(s), s.current, s.timers, a)
  {
    Known(s, a);
    if a.Proceed? || a.TimerTick? {
      RefineInterrupt(s, a);
    } else if a.Acquire? || a.ReleaseMutex? || a.Wait? || a.Unsignal? {
      RefineSyncCall(s, a);
    } else if a.Signal? || a.QueueCallback? || a.Exit? {
      RefineCallsCall(s, a);
    } else {
      RefineRest(s, a);
    }
  }
}
