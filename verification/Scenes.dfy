/** Two runs from boot that reach the races: one mutex, one auto-unsignal event,
    and a second client thread of lower priority. */
module Scenes {
  import opened Words
  import opened RunQueues
  import opened TimerQueue
  import opened KernelState
  import opened KernelOps
  import opened KernelCalls
  import opened KernelInv
  import opened KernelSteps
  import opened KernelProofs
  import opened KernelTickProofs
  import opened KernelRuns
  import opened BareSteps

  const M: nat := 0      // the mutex
  const E: nat := 1      // the event

  function Lists(mutex: seq<Tid>, dpc: seq<Tid>, event: seq<Tid>): map<WaitId, WaitQueue> {
    map[OfMutex(M) := WaitQueue(mutex, |mutex|), OfEvent(DPC_EVENT) := WaitQueue(dpc, |dpc|),
        OfEvent(E) := WaitQueue(event, |event|)]
  }

  function Events(): map<nat, Event> {
    map[DPC_EVENT := Event(false, false), E := Event(false, true)]
  }

  /** Threads 0, 1 and 2 are the idle, the deferred-call and the first client thread. */
  function Scene(threads: map<Tid, Thread>, current: Tid, cs: int, lists: map<WaitId, WaitQueue>, mutex: Mutex,
                 timers: seq<Entry<ThreadTimer>>): Kernel {
    Kernel(threads, RunQueue([], 0), current, cs, cs > 0, lists, map[M := mutex], Events(), timers, [], AtWait, 1, 0)
  }

  function Begin(): Kernel {
    Boot({M}, Events(), 0, 1, 2)
  }

  lemma BeginOk()
    ensures Bootable(Events(), 0, 1, 2) && Inv(Begin())
    ensures Bare(Begin()) == Scene(BootThreads(0, 1, 2), 0, 0, Lists([], [], []), Mutex(0, None), [])
  {
    hide Inv, BootQueues;
    BootInv({M}, Events(), 0, 1, 2);
    assert BootWaits({M}, Events().Keys) == Lists([], [], []);
    assert Begin().mutexes == map[M := Mutex(0, None)];
  }

  // ---- the threads as the runs find them ----------------------------------

  function Calm(priority: nat, state: ThreadState, quantum: int, cont: Cont): Thread {
    Thread(priority, state, 1, quantum, None, NO_ERROR, cont)
  }

  function IdleParked(): Thread {
    Thread(0, Ready, 2, 0, None, NO_ERROR, InPreempt)
  }

  function DpcBlocked(): Thread {
    Thread(30, Blocked, 2, 5, Some(OfEvent(DPC_EVENT)), NO_ERROR, InWait(OfEvent(DPC_EVENT), false))
  }

  function Three(first: Thread): map<Tid, Thread> {
    map[0 := IdleParked(), 1 := DpcBlocked(), 2 := first]
  }

  function Four(idle: Thread, first: Thread, second: Thread): map<Tid, Thread> {
    map[0 := idle, 1 := DpcBlocked(), 2 := first, 3 := second]
  }

  // ---- a run step by step -------------------------------------------------

  /** The step leads to the scene `k`. */
  ghost predicate Goes(s: Kernel, a: Action, k: Kernel)
    requires Inv(s)
  {
    Enabled(s, a) && Bare(Step(s, a)) == k
  }

  ghost predicate LeadsTo(s: Kernel, run: seq<Action>, k: Kernel)
    requires Inv(s)
  {
    Runs(s, run) && Bare(End(s, run)) == k
  }

  lemma {:induction false} RunsSnoc(s: Kernel, run: seq<Action>, a: Action)
    requires Inv(s) && Runs(s, run) && Enabled(End(s, run), a)
    ensures Runs(s, run + [a]) && End(s, run + [a]) == Step(End(s, run), a)
    decreases |run|
  {
    hide Inv, Enabled, Step;
    if run == [] {
      StepInv(s, a);
      assert run + [a] == [a] && [a][1..] == [];
    } else {
      StepInv(s, run[0]);
      RunsSnoc(Step(s, run[0]), run[1..], a);
      assert (run + [a])[0] == run[0] && (run + [a])[1..] == run[1..] + [a];
    }
  }

  // ---- both runs begin alike ----------------------------------------------

  function Quiet(): map<WaitId, WaitQueue> {
    Lists([], [1], [])
  }

  function Begun0(): Kernel {
    Scene(BootThreads(0, 1, 2), 0, 0, Lists([], [], []), Mutex(0, None), [])
  }

  function Begun1(): Kernel {
    Scene(map[0 := IdleParked(), 1 := Calm(30, Running, 5, Start), 2 := Calm(16, Ready, 0, Start)],
          1, 1, Lists([], [], []), Mutex(0, None), [])
  }

  lemma FirstSwitch()
    ensures
      var x := Set(Enter(Interrupted(Begun0())), InPreempt, 0);
      Highest(x.threads, 1) && SwitchTo(x, 1) == Begun1()
  {
    assert SwitchTo(Set(Enter(Interrupted(Begun0())), InPreempt, 0), 1).threads == Begun1().threads;
  }

  lemma FirstTick(s: Kernel)
    requires Inv(s) && Bare(s) == Begun0()
    ensures Goes(s, TimerTick(0), Begun1())
  {
    hide QueuesOk, WaitsOk, ThreadsOk, DomainOk, Side, SwitchTo, Highest;
    NoOwnTimer(s);
    TickShape(s, 0);
    assert FireDue(Interrupted(s), 0) == Interrupted(s);
    FirstSwitch();
    BareTick(s, 0, Interrupted(Begun0()), 1);
  }

  function Begun2(): Kernel {
    Scene(map[0 := IdleParked(), 1 := Calm(30, Running, 5, User), 2 := Calm(16, Ready, 0, Start)],
          1, 0, Lists([], [], []), Mutex(0, None), [])
  }

  lemma DpcStarts(s: Kernel)
    requires Inv(s) && Bare(s) == Begun1()
    ensures Goes(s, Proceed, Begun2())
  {
    hide Good, Side;
    BareProceed(s);
    assert GoOn(Begun1()).threads == Begun2().threads;
  }

  function Begun3(): Kernel {
    Scene(Three(Calm(16, Running, 5, Start)), 2, 1, Quiet(), Mutex(0, None), [])
  }

  lemma DpcSwitch()
    ensures
      var x := Stopped(Enter(Begun2()), OfEvent(DPC_EVENT), INFINITE_TIME, 0);
      Highest(x.threads, 2) && SwitchTo(x, 2) == Begun3()
  {
    var x := SwitchTo(Stopped(Enter(Begun2()), OfEvent(DPC_EVENT), INFINITE_TIME, 0), 2);
    assert [] + [1] == [1];
    assert x.waits == Lists([], [], [])[OfEvent(DPC_EVENT) := WaitQueue([1], 1)];
    assert x.waits == Quiet();
    assert x.threads == Begun3().threads;
  }

  lemma DpcWaits(s: Kernel)
    requires Inv(s) && Bare(s) == Begun2()
    ensures Goes(s, DpcWait, Begun3())
  {
    hide Good, Side, SwitchTo, Highest;
    DpcSwitch();
    BareDpcWait(s, 2);
  }

  function Begun4(): Kernel {
    Scene(Three(Calm(16, Running, 5, User)), 2, 0, Quiet(), Mutex(0, None), [])
  }

  lemma FirstStarts(s: Kernel)
    requires Inv(s) && Bare(s) == Begun3()
    ensures Goes(s, Proceed, Begun4())
  {
    hide Good, Side;
    BareProceed(s);
    assert GoOn(Begun3()).threads == Begun4().threads;
  }

  function Begun5(): Kernel {
    Scene(Four(IdleParked(), Calm(16, Running, 5, User), Calm(8, Suspended, 0, Start)), 2, 0, Quiet(), Mutex(0, None), [])
  }

  lemma SecondCreated(s: Kernel)
    requires Inv(s) && Bare(s) == Begun4()
    ensures Goes(s, Create(3, 8), Begun5())
  {
    hide Good, Side;
    BareCreate(s, 3, 8);
    assert ThreadCreate(Begun4(), 3, 8).threads == Begun5().threads;
  }

  function Begun6(): Kernel {
    Scene(Four(IdleParked(), Calm(16, Running, 0, InResume), Calm(8, Ready, 0, Start)), 2, 2, Quiet(), Mutex(0, None), [])
  }

  lemma ResumeSwitch()
    ensures
      var x := Set(Resumed(Begun5(), 3), InResume, 0);
      Highest(x.threads, 2) && SwitchTo(x, 2) == Begun6()
  {
    assert SwitchTo(Set(Resumed(Begun5(), 3), InResume, 0), 2).threads == Begun6().threads;
  }

  lemma SecondResumed(s: Kernel)
    requires Inv(s) && Bare(s) == Begun5()
    ensures Goes(s, Resume(3), Begun6())
  {
    hide Good, Side, SwitchTo, Highest;
    ResumeSwitch();
    BareResume(s, 3, 2);
  }

  function Begun7(): Kernel {
    Scene(Four(IdleParked(), Calm(16, Running, 0, User), Calm(8, Ready, 0, Start)), 2, 0, Quiet(), Mutex(0, None), [])
  }

  lemma ResumeReturns(s: Kernel)
    requires Inv(s) && Bare(s) == Begun6()
    ensures Goes(s, Proceed, Begun7())
  {
    hide Good, Side;
    BareProceed(s);
    assert ExitN(SetCont(Begun6(), User), 2) == ExitN(KernelOps.Exit(SetCont(Begun6(), User)), 1);
    assert GoOn(Begun6()).threads == Begun7().threads;
  }

  // ---- a timed wait -------------------------------------------------------

  function Waiting(): Thread {
    Thread(16, Blocked, 2, 0, Some(OfEvent(E)), NO_ERROR, InWait(OfEvent(E), true))
  }

  function Timed(second: Cont, cs: int): Kernel {
    Scene(Four(IdleParked(), Waiting(), Calm(8, Running, 5, second)), 3, cs,
          Lists([], [1], [2]), Mutex(0, None), [Entry(10, Timeout(2))])
  }

  lemma WaitSwitch()
    ensures
      var x := Stopped(Enter(Begun7()), OfEvent(E), 10, 0);
      Highest(x.threads, 3) && SwitchTo(x, 3) == Timed(Start, 1)
  {
    var x := SwitchTo(Stopped(Enter(Begun7()), OfEvent(E), 10, 0), 3);
    assert [] + [2] == [2] && Add(0, 10) == 10;
    assert x.waits == Quiet()[OfEvent(E) := WaitQueue([2], 1)] == Lists([], [1], [2]);
    assert x.threads == Timed(Start, 1).threads;
    assert x.timers == [Entry(10, Timeout(2))];
  }

  lemma FirstWaits(s: Kernel)
    requires Inv(s) && Bare(s) == Begun7()
    ensures Goes(s, Wait(E, 10, 0), Timed(Start, 1))
  {
    hide Good, Side, SwitchTo, Highest;
    WaitSwitch();
    BareWait(s, E, 10, 0, 3);
  }

  lemma SecondRuns(s: Kernel)
    requires Inv(s) && Bare(s) == Timed(Start, 1)
    ensures Goes(s, Proceed, Timed(User, 0))
  {
    hide Good, Side;
    BareProceed(s);
    assert GoOn(Timed(Start, 1)).threads == Timed(User, 0).threads;
  }

  // ---- a mutex whose only waiter times out --------------------------------

  function Held(): Kernel {
    Begun7().(mutexes := map[M := Mutex(1, Some(2))])
  }

  lemma FirstAcquires(s: Kernel)
    requires Inv(s) && Bare(s) == Begun7()
    ensures Goes(s, Acquire(M, INFINITE_TIME, 0), Held())
  {
    hide Good, Side;
    BareAcquire(s, M, INFINITE_TIME, 0);
    assert Begun7().mutexes[M := Mutex(1, Some(2))] == Held().mutexes;
  }

  function HolderAsleep(second: Cont, cs: int): Kernel {
    Scene(Four(IdleParked(), Calm(16, Sleeping, 0, InSleep), Calm(8, Running, 5, second)), 3, cs,
          Quiet(), Mutex(1, Some(2)), [Entry(5, Wakeup(2))])
  }

  lemma SleepSwitch()
    ensures
      var x := Asleep(Held(), Add(0, 5));
      Highest(x.threads, 3) && SwitchTo(x, 3) == HolderAsleep(Start, 1)
  {
    var x := SwitchTo(Asleep(Held(), Add(0, 5)), 3);
    assert Add(0, 5) == 5;
    assert x.threads == HolderAsleep(Start, 1).threads;
    assert x.timers == [Entry(5, Wakeup(2))];
  }

  lemma FirstSleeps(s: Kernel)
    requires Inv(s) && Bare(s) == Held()
    ensures Goes(s, Sleep(5, 0), HolderAsleep(Start, 1))
  {
    hide Good, Side, SwitchTo, Highest;
    SleepSwitch();
    BareSleep(s, 5, 0, 3);
  }

  lemma SecondGoesOn(s: Kernel)
    requires Inv(s) && Bare(s) == HolderAsleep(Start, 1)
    ensures Goes(s, Proceed, HolderAsleep(User, 0))
  {
    hide Good, Side;
    BareProceed(s);
    assert GoOn(HolderAsleep(Start, 1)).threads == HolderAsleep(User, 0).threads;
  }

  function Claimant(): Thread {
    Thread(8, Blocked, 2, 5, Some(OfMutex(M)), NO_ERROR, InWait(OfMutex(M), true))
  }

  /** Everybody waits; the idle thread runs. */
  function AllWait(idle: Cont, cs: int): Kernel {
    Scene(Four(Thread(0, Running, 2, 5, None, NO_ERROR, idle), Calm(16, Sleeping, 0, InSleep), Claimant()), 0, cs,
          Lists([3], [1], []), Mutex(2, Some(2)), [Entry(5, Wakeup(2)), Entry(10, Timeout(3))])
  }

  lemma ClaimSwitch()
    ensures
      var x := Stopped(Joining(HolderAsleep(User, 0), M), OfMutex(M), 10, 0);
      Highest(x.threads, 0) && SwitchTo(x, 0) == AllWait(InPreempt, 2)
  {
    var x := SwitchTo(Stopped(Joining(HolderAsleep(User, 0), M), OfMutex(M), 10, 0), 0);
    assert [] + [3] == [3] && Add(0, 10) == 10;
    assert x.waits == Quiet()[OfMutex(M) := WaitQueue([3], 1)] == Lists([3], [1], []);
    assert x.threads == AllWait(InPreempt, 2).threads;
    assert x.mutexes == map[M := Mutex(2, Some(2))];
    TwoTimers();
    assert x.timers == [Entry(5, Wakeup(2)), Entry(10, Timeout(3))];
  }

  lemma TwoTimers()
    ensures Insert([Entry(5, Wakeup(2))], Entry(10, Timeout(3))) == [Entry(5, Wakeup(2)), Entry(10, Timeout(3))]
  {
    PositionIs([Entry(5, Wakeup(2))], 10, 1);
  }

  lemma SecondClaims(s: Kernel)
    requires Inv(s) && Bare(s) == HolderAsleep(User, 0)
    ensures Goes(s, Acquire(M, 10, 0), AllWait(InPreempt, 2))
  {
    hide Good, Side, SwitchTo, Highest;
    ClaimSwitch();
    BareAcquireBlocks(s, M, 10, 0, 0);
  }

  lemma IdleGoesOn(s: Kernel)
    requires Inv(s) && Bare(s) == AllWait(InPreempt, 2)
    ensures Goes(s, Proceed, AllWait(User, 0))
  {
    hide Good, Side;
    BareProceed(s);
    assert GoOn(AllWait(InPreempt, 2)).threads == AllWait(User, 0).threads;
  }

  function GaveUp(): Thread {
    Thread(8, Ready, 2, 5, None, ERR_TIMED_OUT, InWait(OfMutex(M), true))
  }

  /** Both timers have fired. */
  function Fired(): Kernel {
    Scene(Four(Thread(0, Running, 2, 5, None, NO_ERROR, User), Calm(16, Ready, 0, InSleep), GaveUp()), 0, 1,
          Quiet(), Mutex(2, Some(2)), [])
  }

  lemma BothFire(s: Kernel)
    requires Core(s) && TimersOk(s.timers, s.threads) && Bare(s) == Interrupted(AllWait(User, 0))
    ensures Bare(FireDue(s, 10)) == Fired()
  {
    hide Core, TimersOk, Fire;
    FireTimers(s);
    BareWakeup(s.(timers := s.timers[1..]), 2);
    var s1 := Fire(s.(timers := s.timers[1..]), Wakeup(2));
    FireTimers(s1);
    TimeoutFires(s1.(timers := s1.timers[1..]));
    var s2 := Fire(s1.(timers := s1.timers[1..]), Timeout(3));
    assert FireDue(s1, 10) == FireDue(s2, 10) == s2;
  }

  lemma GivesUpScene()
    ensures GivesUp(Awake(Interrupted(AllWait(User, 0)), 2).(timers := []), OfMutex(M), 3) == Fired()
  {
    var x := GivesUp(Awake(Interrupted(AllWait(User, 0)), 2).(timers := []), OfMutex(M), 3);
    assert x.threads == Fired().threads;
    assert x.waits == Lists([3], [1], [])[OfMutex(M) := WaitQueue([], 0)] == Quiet();
  }

  lemma TimeoutFires(s: Kernel)
    requires Core(s) && Bare(s) == Awake(Interrupted(AllWait(User, 0)), 2).(timers := [])
    ensures Bare(Fire(s, Timeout(3))) == Fired()
  {
    hide Core, Fire, GivesUp, Fired;
    assert Bare(s).threads[3] == Claimant() && Bare(s).waits == Lists([3], [1], []);
    BareTimeout(s, OfMutex(M), 3);
    GivesUpScene();
  }

  function HolderBack(first: Cont, cs: int): Kernel {
    Scene(Four(Thread(0, Ready, 2, 5, None, NO_ERROR, InPreempt), Calm(16, Running, 5, first), GaveUp()), 2, cs,
          Quiet(), Mutex(2, Some(2)), [])
  }

  lemma LastSwitch()
    ensures
      var x := Set(Enter(Fired()), InPreempt, 5);
      Highest(x.threads, 2) && SwitchTo(x, 2) == HolderBack(InSleep, 1)
  {
    assert SwitchTo(Set(Enter(Fired()), InPreempt, 5), 2).threads == HolderBack(InSleep, 1).threads;
  }

  lemma LastTick(s: Kernel)
    requires Inv(s) && Bare(s) == AllWait(User, 0)
    ensures Goes(s, TimerTick(10), HolderBack(InSleep, 1))
  {
    hide QueuesOk, WaitsOk, ThreadsOk, DomainOk, Side, SwitchTo, Highest, FireDue;
    NoOwnTimer(s);
    TickShape(s, 10);
    BothFire(Interrupted(s));
    LastSwitch();
    BareTick(s, 10, Fired(), 2);
  }

  lemma HolderRuns(s: Kernel)
    requires Inv(s) && Bare(s) == HolderBack(InSleep, 1)
    ensures Goes(s, Proceed, HolderBack(User, 0))
  {
    hide Good, Side;
    BareProceed(s);
    assert GoOn(HolderBack(InSleep, 1)).threads == HolderBack(User, 0).threads;
  }

  // ---- the runs -----------------------------------------------------------

  /** The first client thread creates and resumes the second. */
  function Opening(): seq<Action> {
    [TimerTick(0), Proceed, DpcWait, Proceed, Create(3, 8), Resume(3), Proceed]
  }

  /** The first thread waits for the event with a timeout; the second runs. */
  function TimedWait(): seq<Action> {
    Opening() + [Wait(E, 10, 0), Proceed]
  }

  /** The first thread takes the mutex and sleeps; the second asks for the mutex
      with a timeout; one tick ends both, and the first runs again. */
  function TimedClaim(): seq<Action> {
    Opening() + [Acquire(M, INFINITE_TIME, 0), Sleep(5, 0), Proceed, Acquire(M, 10, 0), Proceed, TimerTick(10), Proceed]
  }

  lemma Further(s: Kernel, run: seq<Action>, n: nat, k: Kernel)
    requires Inv(s) && n < |run| && Runs(s, run[..n]) && Goes(End(s, run[..n]), run[n], k)
    ensures LeadsTo(s, run[..n + 1], k)
  {
    hide Inv, Enabled, Step, Runs, End;
    assert run[..n + 1] == run[..n] + [run[n]];
    RunsSnoc(s, run[..n], run[n]);
  }

  lemma OpeningLeads(run: seq<Action>)
    requires |run| > 7 && run[..7] == Opening()
    ensures Inv(Begin()) && LeadsTo(Begin(), run[..7], Begun7())
  {
    hide Inv, Goes, Begin, Begun1, Begun2, Begun3, Begun4, Begun5, Begun6, Begun7, Runs, End;
    BeginOk();
    var s := Begin();
    assert run[0] == TimerTick(0) && run[1] == Proceed && run[2] == DpcWait && run[3] == Proceed
        && run[4] == Create(3, 8) && run[5] == Resume(3) && run[6] == Proceed by {
      assert forall i | 0 <= i < 7 :: run[i] == run[..7][i];
    }
    NoSteps(s, run);
    FirstTick(End(s, run[..0]));
    Further(s, run, 0, Begun1());
    DpcStarts(End(s, run[..1]));
    Further(s, run, 1, Begun2());
    DpcWaits(End(s, run[..2]));
    Further(s, run, 2, Begun3());
    FirstStarts(End(s, run[..3]));
    Further(s, run, 3, Begun4());
    SecondCreated(End(s, run[..4]));
    Further(s, run, 4, Begun5());
    SecondResumed(End(s, run[..5]));
    Further(s, run, 5, Begun6());
    ResumeReturns(End(s, run[..6]));
    Further(s, run, 6, Begun7());
  }

  lemma NoSteps(s: Kernel, run: seq<Action>)
    requires Inv(s)
    ensures Runs(s, run[..0]) && End(s, run[..0]) == s
  {
  }

  /** From boot, a state in which a timed waiter can be woken just before its timeout. */
  lemma TimedWaitReached()
    ensures Inv(Begin()) && LeadsTo(Begin(), TimedWait(), Timed(User, 0))
  {
    hide Inv, Goes, Begin, Begun7, Timed, Runs, End;
    var run := TimedWait();
    assert run[..7] == Opening() && run[..9] == run;
    OpeningLeads(run);
    var s := Begin();
    FirstWaits(End(s, run[..7]));
    Further(s, run, 7, Timed(Start, 1));
    SecondRuns(End(s, run[..8]));
    Further(s, run, 8, Timed(User, 0));
  }

  /** From boot, a state in which the holder runs and its only rival has timed out but not run. */
  lemma TimedClaimReached()
    ensures Inv(Begin()) && LeadsTo(Begin(), TimedClaim(), HolderBack(User, 0))
  {
    hide Inv, Goes, Begin, Begun7, Held, HolderAsleep, AllWait, HolderBack, Runs, End;
    var run := TimedClaim();
    assert run[..7] == Opening() && run[..14] == run;
    OpeningLeads(run);
    var s := Begin();
    FirstAcquires(End(s, run[..7]));
    Further(s, run, 7, Held());
    FirstSleeps(End(s, run[..8]));
    Further(s, run, 8, HolderAsleep(Start, 1));
    SecondGoesOn(End(s, run[..9]));
    Further(s, run, 9, HolderAsleep(User, 0));
    SecondClaims(End(s, run[..10]));
    Further(s, run, 10, AllWait(InPreempt, 2));
    IdleGoesOn(End(s, run[..11]));
    Further(s, run, 11, AllWait(User, 0));
    LastTick(End(s, run[..12]));
    Further(s, run, 12, HolderBack(InSleep, 1));
    HolderRuns(End(s, run[..13]));
    Further(s, run, 13, HolderBack(User, 0));
  }
}
