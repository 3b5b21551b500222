/** Runs of the kernel from boot, and what holds along every one of them. */
module KernelRuns {
  import opened Words
  import opened Bits
  import opened RunQueues
  import opened TimerQueue
  import opened KernelState
  import opened KernelOps
  import opened KernelCalls
  import opened KernelInv
  import opened KernelSteps
  import opened KernelSide
  import opened KernelProofs
  import opened KernelTickProofs
  import opened KernelSync
  import opened KernelLaws

  const DPC_PRIORITY: nat := 30
  const DEFAULT_PRIORITY: nat := 16

  // ---- boot ---------------------------------------------------------------

  function BootQueues(dpc: Tid, first: Tid): RunQueue {
    var empty := RunQueue(seq(NUM_PRIORITIES, i => []), 0);
    PushHead(PushHead(empty, DPC_PRIORITY, dpc), DEFAULT_PRIORITY, first)
  }

  function WaitIds(mutexes: set<nat>, events: set<nat>): set<WaitId> {
    (set m | m in mutexes :: OfMutex(m)) + (set e | e in events :: OfEvent(e))
  }

  function BootWaits(mutexes: set<nat>, events: set<nat>): map<WaitId, WaitQueue> {
    map w | w in WaitIds(mutexes, events) :: WaitQueue([], 0)
  }

  function BootThreads(idle: Tid, dpc: Tid, first: Tid): map<Tid, Thread> {
    map[idle := Thread(LOWEST_PRIORITY, Running, 1, 0, None, NO_ERROR, User),
        dpc := Thread(DPC_PRIORITY, Ready, 1, 0, None, NO_ERROR, Start),
        first := Thread(DEFAULT_PRIORITY, Ready, 1, 0, None, NO_ERROR, Start)]
  }

  /** The kernel when its boot thread has become the idle thread: the
      deferred-call thread and the first client thread have been resumed. */
  function Boot(mutexes: set<nat>, events: map<nat, Event>, idle: Tid, dpc: Tid, first: Tid): Kernel {
    Kernel(
      BootThreads(idle, dpc, first), BootQueues(dpc, first), idle, 0, false,
      BootWaits(mutexes, events.Keys),
      map m | m in mutexes :: Mutex(0, None),
      events, [], [], AtWait, dpc, idle)
  }

  /** Three threads, and the private event of the deferred-call thread clear and sticky. */
  ghost predicate Bootable(events: map<nat, Event>, idle: Tid, dpc: Tid, first: Tid) {
    && idle != dpc && idle != first && dpc != first
    && DPC_EVENT in events && events[DPC_EVENT] == Event(false, false)
  }

  lemma BootQueuesOk(dpc: Tid, first: Tid)
    requires dpc != first
    ensures Indexed(BootQueues(dpc, first))
    ensures forall p | 0 <= p < NUM_PRIORITIES ::
      BootQueues(dpc, first).queue[p] == if p == DPC_PRIORITY then [dpc] else if p == DEFAULT_PRIORITY then [first] else []
  {
    var empty := RunQueue(seq(NUM_PRIORITIES, i => []), 0);
    assert Indexed(empty) by {
      forall p | 0 <= p < NUM_PRIORITIES ensures !Bit(0, p) { ZeroHasNoBit(p); }
      assert 0 < Pow2(NUM_PRIORITIES);
    }
    PushKeepsIndex(empty, DPC_PRIORITY, dpc);
    PushKeepsIndex(PushHead(empty, DPC_PRIORITY, dpc), DEFAULT_PRIORITY, first);
  }

  lemma BootQueued(idle: Tid, dpc: Tid, first: Tid)
    requires idle != dpc && idle != first && dpc != first
    ensures QueuesOk(BootQueues(dpc, first).queue, BootThreads(idle, dpc, first))
  {
    BootQueuesOk(dpc, first);
    var threads := BootThreads(idle, dpc, first);
    forall p | 0 <= p < NUM_PRIORITIES ensures QueueOk(BootQueues(dpc, first).queue[p], p, threads) {
    }
  }

  lemma BootWaitsOk(mutexes: set<nat>, events: set<nat>, idle: Tid, dpc: Tid, first: Tid)
    requires idle != dpc && idle != first && dpc != first
    ensures WaitsOk(BootWaits(mutexes, events), BootThreads(idle, dpc, first))
  {
  }

  lemma BootGood(mutexes: set<nat>, events: map<nat, Event>, idle: Tid, dpc: Tid, first: Tid)
    requires Bootable(events, idle, dpc, first)
    ensures Good(Boot(mutexes, events, idle, dpc, first))
  {
    BootQueuesOk(dpc, first);
    BootQueued(idle, dpc, first);
    BootWaitsOk(mutexes, events.Keys, idle, dpc, first);
    BootDomain(mutexes, events, idle, dpc, first);
    BootThreadsOk(mutexes, events, idle, dpc, first);
  }

  lemma BootThreadsOk(mutexes: set<nat>, events: map<nat, Event>, idle: Tid, dpc: Tid, first: Tid)
    requires Bootable(events, idle, dpc, first)
    ensures ThreadsOk(Boot(mutexes, events, idle, dpc, first))
    ensures RunningOk(BootThreads(idle, dpc, first), idle)
    ensures TimersGood([], BootThreads(idle, dpc, first))
  {
    hide BootQueues, BootWaits;
    var s := Boot(mutexes, events, idle, dpc, first);
    forall t | t in s.threads
      ensures ThreadOk(s.threads[t], t == s.current, Depth(s, t)) && RoleOk(s, t, s.threads[t])
    {
      assert t == idle || t == dpc || t == first;
    }
  }

  lemma BootDomain(mutexes: set<nat>, events: map<nat, Event>, idle: Tid, dpc: Tid, first: Tid)
    requires Bootable(events, idle, dpc, first)
    ensures DomainOk(Boot(mutexes, events, idle, dpc, first))
  {
  }

  lemma BootSide(mutexes: set<nat>, events: map<nat, Event>, idle: Tid, dpc: Tid, first: Tid)
    requires Bootable(events, idle, dpc, first)
    ensures Side(Boot(mutexes, events, idle, dpc, first))
  {
    var s := Boot(mutexes, events, idle, dpc, first);
    assert ViewOf(BootThreads(idle, dpc, first)) == View(map[], {});
    forall m | m in s.mutexes ensures MutexOk(s.mutexes[m], m, map[]) {
      assert Acquirers(map[], m) == {} && Handoffs(map[], m) == {};
    }
    assert Pending(s) == [];
  }

  lemma BootInv(mutexes: set<nat>, events: map<nat, Event>, idle: Tid, dpc: Tid, first: Tid)
    requires Bootable(events, idle, dpc, first)
    ensures Inv(Boot(mutexes, events, idle, dpc, first))
  {
    BootGood(mutexes, events, idle, dpc, first);
    BootSide(mutexes, events, idle, dpc, first);
  }

  // ---- runs ---------------------------------------------------------------

  ghost predicate Runs(s: Kernel, run: seq<Action>)
    requires Inv(s)
    decreases |run|
  {
    run == [] || (Enabled(s, run[0]) && (StepInv(s, run[0]); Runs(Step(s, run[0]), run[1..])))
  }

  /** The state after a run. */
  ghost function End(s: Kernel, run: seq<Action>): (s': Kernel)
    requires Inv(s) && Runs(s, run)
    ensures Inv(s')
    decreases |run|
  {
    if run == [] then s else
    StepInv(s, run[0]);
    End(Step(s, run[0]), run[1..])
  }

  /** The state after the first `k` steps of a run. */
  ghost function Nth(s: Kernel, run: seq<Action>, k: nat): (s': Kernel)
    requires Inv(s) && Runs(s, run) && k <= |run|
    ensures Inv(s')
    decreases k
  {
    if k == 0 then s else
    StepInv(s, run[0]);
    Nth(Step(s, run[0]), run[1..], k - 1)
  }

  lemma {:induction false} NthIsEnd(s: Kernel, run: seq<Action>)
    requires Inv(s) && Runs(s, run)
    ensures Nth(s, run, |run|) == End(s, run)
    decreases |run|
  {
    hide Inv, Enabled, Step;
    if run != [] {
      StepInv(s, run[0]);
      NthIsEnd(Step(s, run[0]), run[1..]);
    }
  }

  lemma {:induction false} NthSteps(s: Kernel, run: seq<Action>, k: nat)
    requires Inv(s) && Runs(s, run) && k < |run|
    ensures Enabled(Nth(s, run, k), run[k])
    ensures Nth(s, run, k + 1) == Step(Nth(s, run, k), run[k])
    decreases k
  {
    hide Inv, Enabled, Step;
    StepInv(s, run[0]);
    if k > 0 {
      NthSteps(Step(s, run[0]), run[1..], k - 1);
    }
  }
}
