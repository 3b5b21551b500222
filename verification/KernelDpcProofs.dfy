/** Deferred calls, thread exit and the code after a switch keep the kernel's invariant. */
module KernelDpcProofs {
  import opened Words
  import opened RunQueues
  import opened TimerQueue
  import opened KernelState
  import opened KernelOps
  import opened KernelCalls
  import opened KernelInv
  import opened KernelSteps
  import opened KernelSide
  import opened KernelProofs
  import opened KernelSyncProofs

  // ---- dpc_queue ----------------------------------------------------------

  lemma PendingCallback(pending: seq<Call>, dead: set<Tid>, id: nat)
    requires PendingOk(pending, dead)
    ensures PendingOk(pending + [Callback(id)], dead)
  {
    assert forall t :: Cleanup(t) in pending + [Callback(id)] <==> Cleanup(t) in pending;
  }

  lemma PendingCleanup(pending: seq<Call>, dead: set<Tid>, t: Tid)
    requires PendingOk(pending, dead) && t !in dead
    ensures PendingOk(pending + [Cleanup(t)], dead + {t})
  {
    assert forall u :: Cleanup(u) in pending + [Cleanup(t)] <==> u == t || Cleanup(u) in pending;
    assert Cleanup(t) !in pending;
  }

  lemma QueueCallbackInv(s: Kernel, id: nat, reschedule: bool)
    requires Busy(s) && s.current != s.idle && DPC_EVENT in s.events && OfEvent(DPC_EVENT) in s.waits
    ensures Inv(QueueCall(s, Callback(id), reschedule))
  {
    EnterBusy(s);
    EnterBusy(Enter(s));
    var n := Enter(Enter(s));
    var s' := n.(dpcs := s.dpcs + [Callback(id)]);
    GoodFrame(n, s');
    QueuedLayers(n, id);
    SignalInv(s', DPC_EVENT, reschedule, 2);
  }

  lemma QueuedLayers(s: Kernel, id: nat)
    requires Layers(s)
    ensures Layers(s.(dpcs := s.dpcs + [Callback(id)]))
  {
    PendingCallback(Pending(s), ViewOf(s.threads).dead, id);
    assert Pending(s) + [Callback(id)] == Pending(s.(dpcs := s.dpcs + [Callback(id)]));
  }

  // ---- thread_exit --------------------------------------------------------

  /** The state in which thread_exit signals the deferred-call thread. */
  function Exited(s: Kernel): Kernel
    requires s.current in s.threads
  {
    SetThread(Enter(s), s.current, s.threads[s.current].(state := Death, cont := Dead))
      .(dpcs := s.dpcs + [Cleanup(s.current)])
  }

  lemma ExitedGood(s: Kernel)
    requires Good(s) && s.threads[s.current].state.Running? && s.threads[s.current].cont.User?
    requires s.current != s.idle && s.current != s.dpcThread
    ensures Good(Exited(s))
  {
    hide QueuesOk, WaitsOk, DomainOk;
    var th := s.threads[s.current].(state := Death, cont := Dead);
    var s1 := SetThread(Enter(s), s.current, th);
    assert ThreadOk(s.threads[s.current], true, s.cs) && RoleOk(s, s.current, s.threads[s.current]);
    DeathCore(s);
    CoreFrame(Exited(s), s1);
    TimersFit(s.timers, s.threads, s.current);
    TimersUpdate(s.timers, s.threads, s.current, th);
    StopGood(s, s1, th);
    GoodFrame(s1, Exited(s));
  }

  lemma ExitedLayers(s: Kernel)
    requires Layers(s) && s.current in s.threads
    requires s.threads[s.current].state.Running? && s.threads[s.current].cont.User?
    ensures Layers(Exited(s))
  {
    var th := s.threads[s.current].(state := Death, cont := Dead);
    ViewUpdate(s.threads, s.current, th);
    assert s.current !in ViewOf(s.threads).waiters && s.current !in ViewOf(s.threads).dead;
    assert ViewOf(Exited(s).threads).waiters == ViewOf(s.threads).waiters;
    PendingCleanup(Pending(s), ViewOf(s.threads).dead, s.current);
    assert Pending(s) + [Cleanup(s.current)] == Pending(Exited(s));
  }

  lemma ExitInv(s: Kernel)
    requires Busy(s) && s.current != s.idle && s.current != s.dpcThread
    requires DPC_EVENT in s.events && OfEvent(DPC_EVENT) in s.waits
    ensures Inv(ThreadExit(s))
  {
    ExitedGood(s);
    ExitedLayers(s);
    QuietKeeps(Exited(s), DPC_EVENT);
    ReschedInv(SignalQuietly(Exited(s), DPC_EVENT));
  }

  // ---- the deferred-call loop ---------------------------------------------

  /** The deferred-call thread moves its program counter while it runs. */
  lemma PcGood(s: Kernel, pc: DpcPc)
    requires Good(s) && s.current == s.dpcThread && s.threads[s.current].cont.User?
    ensures Good(s.(dpcPc := pc))
  {
    var s' := s.(dpcPc := pc);
    CoreFrame(s, s');
    PcThreads(s, pc);
    DomainUpdate(s, s');
  }

  lemma PcThreads(s: Kernel, pc: DpcPc)
    requires ThreadsOk(s) && s.current in s.threads && s.current == s.dpcThread && s.threads[s.current].cont.User?
    ensures ThreadsOk(s.(dpcPc := pc))
  {
    var s' := s.(dpcPc := pc);
    forall t | t in s'.threads
      ensures ThreadOk(s'.threads[t], t == s'.current, Depth(s', t)) && RoleOk(s', t, s'.threads[t])
    {
      assert ThreadOk(s.threads[t], t == s.current, Depth(s, t)) && RoleOk(s, t, s.threads[t]);
    }
  }

  lemma PcSide(s: Kernel, pc: DpcPc)
    requires Side(s) && Pending(s.(dpcPc := pc)) == Pending(s)
    ensures Side(s.(dpcPc := pc))
  {
  }

  lemma DpcWaitInv(s: Kernel)
    requires Busy(s) && s.current != s.idle && s.current == s.dpcThread && s.dpcPc.AtWait?
    requires DPC_EVENT in s.events && OfEvent(DPC_EVENT) in s.waits && !s.events[DPC_EVENT].auto
    ensures
      var s1 := WaitEvent(s, DPC_EVENT, INFINITE_TIME, 0);
      Inv(if s.events[DPC_EVENT].signalled then s1.(dpcPc := AtTake) else s1)
  {
    hide QueuesOk, WaitsOk, ThreadsOk, TimersGood, Layers;
    WaitInv(s, DPC_EVENT, INFINITE_TIME, 0);
    if s.events[DPC_EVENT].signalled {
      var s1 := WaitEvent(s, DPC_EVENT, INFINITE_TIME, 0);
      PcGood(s1, AtTake);
      PcSide(s1, AtTake);
    }
  }

  lemma TakeInv(s: Kernel)
    requires Busy(s) && s.current == s.dpcThread && s.dpcPc.AtTake? && DPC_EVENT in s.events
    ensures Busy(TakeCall(s))
  {
    hide QueuesOk, WaitsOk, TimersGood, Layers;
    if s.dpcs == [] {
      ClearBusy(s, DPC_EVENT);
      PcGood(SetSignalled(s, DPC_EVENT, false), AtWait);
      PcSide(SetSignalled(s, DPC_EVENT, false), AtWait);
    } else {
      PcGood(s, Calling(s.dpcs[0]));
      GoodFrame(s.(dpcPc := Calling(s.dpcs[0])), TakeCall(s));
      TakeSide(s);
    }
  }

  lemma TakeSide(s: Kernel)
    requires Side(s) && s.dpcPc.AtTake? && s.dpcs != []
    ensures Side(s.(dpcs := s.dpcs[1..], dpcPc := Calling(s.dpcs[0])))
  {
    assert Pending(s.(dpcs := s.dpcs[1..], dpcPc := Calling(s.dpcs[0]))) == Pending(s);
  }

  lemma PendingTail(pending: seq<Call>, dead: set<Tid>)
    requires PendingOk(pending, dead) && pending != []
    ensures PendingOk(pending[1..], if pending[0].Cleanup? then dead - {pending[0].t} else dead)
  {
    assert pending == [pending[0]] + pending[1..];
    assert forall c :: c in pending <==> c == pending[0] || c in pending[1..];
  }

  lemma FinishCallbackInv(s: Kernel)
    requires Busy(s) && s.current == s.dpcThread && s.dpcPc.Calling? && s.dpcPc.call.Callback?
    ensures Busy(FinishCall(s))
  {
    PcGood(s, AtWait);
    PendingTail(Pending(s), ViewOf(s.threads).dead);
    assert Pending(s)[1..] == s.dpcs;
  }

  // ---- reclaiming a thread ------------------------------------------------

  lemma RemoveCore(s: Kernel, t: Tid)
    requires Core(s) && t in s.threads && s.threads[t].state.Death? && t != s.current
    ensures Core(s.(threads := s.threads - {t}))
  {
    var threads' := s.threads - {t};
    forall p | 0 <= p < NUM_PRIORITIES ensures QueueOk(s.rq.queue[p], p, threads') {
      assert QueueOk(s.rq.queue[p], p, s.threads);
    }
    forall w | w in s.waits ensures WaitOk(s.waits[w], w, threads') {
      assert WaitOk(s.waits[w], w, s.threads);
    }
  }

  lemma RemoveThreads(s: Kernel, t: Tid)
    requires ThreadsOk(s) && DomainOk(s) && s.current in s.threads
    requires t in s.threads && s.threads[t].state.Death? && t != s.current
    ensures ThreadsOk(s.(threads := s.threads - {t})) && DomainOk(s.(threads := s.threads - {t}))
  {
    var s' := s.(threads := s.threads - {t});
    assert RoleOk(s, t, s.threads[t]);
    forall u | u in s'.threads
      ensures ThreadOk(s'.threads[u], u == s'.current, Depth(s', u)) && RoleOk(s', u, s'.threads[u])
    {
      assert ThreadOk(s.threads[u], u == s.current, Depth(s, u)) && RoleOk(s, u, s.threads[u]);
    }
    DomainUpdate(s, s');
  }

  lemma RemoveTimers(timers: seq<Entry<ThreadTimer>>, threads: map<Tid, Thread>, t: Tid)
    requires TimersGood(timers, threads) && t in threads && threads[t].cont.Dead? && !threads[t].state.Sleeping?
    ensures TimersGood(timers, threads - {t})
  {
  }

  lemma RemoveGood(s: Kernel, t: Tid)
    requires Good(s) && t in s.threads && s.threads[t].state.Death? && t != s.current
    ensures Good(s.(threads := s.threads - {t}))
  {
    assert ThreadOk(s.threads[t], false, Depth(s, t));
    RemoveCore(s, t);
    RemoveThreads(s, t);
    RemoveTimers(s.timers, s.threads, t);
  }

  lemma RemoveView(threads: map<Tid, Thread>, t: Tid)
    requires t in threads && threads[t].cont.Dead?
    ensures ViewOf(threads - {t}).waiters == ViewOf(threads).waiters
    ensures ViewOf(threads - {t}).dead == ViewOf(threads).dead - {t}
  {
  }

  /** A cleanup call names an exited thread that is off the CPU. */
  lemma CleanupTarget(s: Kernel)
    requires Inv(s) && s.dpcPc.Calling? && s.dpcPc.call.Cleanup?
    ensures s.dpcPc.call.t in s.threads && s.threads[s.dpcPc.call.t].state.Death?
    ensures s.dpcPc.call.t != s.current
    ensures ThreadOk(s.threads[s.dpcPc.call.t], false, Depth(s, s.dpcPc.call.t))
  {
    var t := s.dpcPc.call.t;
    assert Pending(s)[0] == Cleanup(t);
    assert t in ViewOf(s.threads).dead;
  }

  lemma FinishCleanupInv(s: Kernel)
    requires Busy(s) && s.current == s.dpcThread && s.dpcPc.Calling? && s.dpcPc.call.Cleanup?
    ensures Busy(FinishCall(s))
  {
    var t := s.dpcPc.call.t;
    CleanupTarget(s);
    PcGood(s, AtWait);
    RemoveGood(s.(dpcPc := AtWait), t);
    FinishSide(s);
  }

  lemma FinishSide(s: Kernel)
    requires Side(s) && s.dpcPc.Calling? && s.dpcPc.call.Cleanup?
    requires s.dpcPc.call.t in s.threads && s.threads[s.dpcPc.call.t].cont.Dead?
    ensures Side(FinishCall(s))
  {
    RemoveView(s.threads, s.dpcPc.call.t);
    PendingTail(Pending(s), ViewOf(s.threads).dead);
    assert Pending(s)[1..] == s.dpcs;
  }
}
