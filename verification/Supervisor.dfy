/** The supervisor as init keeps it: service records updated in place. */
module Supervisor {
  import opened Services
  import opened ServiceLaws
  import opened RestartLaws

  lemma {:induction false} FindNameIs(services: seq<Service>, name: nat, i: nat)
    requires i <= |services| && (i < |services| ==> services[i].name == name)
    requires forall j | 0 <= j < i :: services[j].name != name
    ensures FindName(services, name) == i
    decreases i
  {
    if i > 0 {
      FindNameIs(services[1..], name, i - 1);
    }
  }

  lemma {:induction false} FindPidIs(services: seq<Service>, pid: nat, i: nat)
    requires i <= |services| && (i < |services| ==> services[i].pid == pid)
    requires forall j | 0 <= j < i :: services[j].pid != pid
    ensures FindPid(services, pid) == i
    decreases i
  {
    if i > 0 {
      FindPidIs(services[1..], pid, i - 1);
    }
  }

  /** At most four crashes are counted against service `i` after the run, and it
      has had at most eight in any span of 240 seconds. */
  ghost predicate CrashesBounded(w: World, s: Init, run: seq<Event>, i: nat)
    requires i < |s.services|
  {
    && Run(w, s, run).services[i].nrCrashed <= CRASH_THRESHOLD
    && forall from: int :: InSpan(CrashLog(w, s, run, i), from) <= 2 * CRASH_THRESHOLD
  }

  class InitProcess {
    const world: World
    var services: seq<Service>
    var processNeedsRestart: int
    var readings: nat
    var starts: nat
    var lastPid: nat
    var rebooted: bool
    ghost const boot: Init
    ghost var history: seq<Event>

    function State(): Init
      reads this
    {
      Init(services, processNeedsRestart, readings, starts, lastPid, rebooted)
    }

    /** The object is where the events of its history lead from the start of init. */
    ghost predicate Valid()
      reads this
    {
      Steady(world) && Fresh(boot) && State() == Run(world, boot, history)
    }

    constructor (world: World, services: seq<Service>)
      requires Steady(world) && forall i | 0 <= i < |services| :: Parsed(services[i])
      ensures Valid() && history == [] && this.world == world && boot == State() && this.services == services
    {
      this.world := world;
      this.services := services;
      processNeedsRestart, readings, starts, lastPid, rebooted := 0, 0, 0, 0, false;
      boot := Init(services, 0, 0, 0, 0, false);
      history := [];
    }

    method GetTime() returns (now: int)
      modifies this`readings
      ensures now == world.clock(old(readings)) && readings == old(readings) + 1
    {
      now := world.clock(readings);
      readings := readings + 1;
    }

    method AddFlag(i: nat, f: Flag)
      requires i < |services|
      modifies this`services
      ensures services == old(services)[i := old(services)[i].(flags := old(services)[i].flags + {f})]
    {
      services := services[i := services[i].(flags := services[i].flags + {f})];
    }

    method ServiceStart(i: nat, dynamicArgs: bool)
      requires i < |services|
      modifies this`services, this`processNeedsRestart, this`readings, this`starts, this`lastPid, this`rebooted
      ensures State() == Start(world, old(State()), i, dynamicArgs)
    {
      var v := services[i];
      services := services[i := v.(flags := v.flags - {Disabled, Restarting, Reset, Restart}, timeStarted := 0)];
      if Running in services[i].flags {
        return;
      }
      var fate := world.fate(starts);
      starts := starts + 1;
      if Console in services[i].flags && !fate.console {
        AddFlag(i, Disabled);
        return;
      }
      if !fate.found {
        AddFlag(i, Disabled);
        return;
      }
      if Oneshot !in services[i].flags && dynamicArgs {
        AddFlag(i, Disabled);
        return;
      }
      if !fate.labelled {
        return;
      }
      if !fate.forked {
        services := services[i := services[i].(pid := 0)];
        return;
      }
      lastPid := lastPid + 1;
      var now := GetTime();
      services := services[i := services[i].(timeStarted := now, pid := lastPid)];
      AddFlag(i, Running);
    }

    method ServiceStopOrReset(i: nat, how: How)
      requires i < |services|
      modifies this`services
      ensures State() == Stop(old(State()), i, how)
    {
      var v := services[i];
      services := services[i := v.(flags := v.flags - {Restarting})];
      match how
      case HowReset =>
        if RcDisabled in services[i].flags {
          AddFlag(i, Disabled);
        } else {
          AddFlag(i, Reset);
        }
      case HowDisabled => AddFlag(i, Disabled);
      case HowRestart => AddFlag(i, Restart);
    }

    method ServiceRestart(i: nat)
      requires i < |services|
      modifies this`services, this`processNeedsRestart, this`readings, this`starts, this`lastPid, this`rebooted
      ensures State() == RestartService(world, old(State()), i)
    {
      if Running in services[i].flags {
        ServiceStopOrReset(i, HowRestart);
      } else if Restarting !in services[i].flags {
        ServiceStart(i, false);
      }
    }

    method RestartServiceIfNeeded(i: nat)
      requires i < |services|
      modifies this`services, this`processNeedsRestart, this`readings, this`starts, this`lastPid, this`rebooted
      ensures State() == RestartIfNeeded(world, old(State()), i)
    {
      hide Start;
      var next := services[i].timeStarted + RESTART_DELAY;
      var now := GetTime();
      if next <= now {
        services := services[i := services[i].(flags := services[i].flags - {Restarting})];
        ServiceStart(i, false);
        return;
      }
      if next < processNeedsRestart || processNeedsRestart == 0 {
        processNeedsRestart := next;
      }
    }

    method RestartAll()
      modifies this`services, this`processNeedsRestart, this`readings, this`starts, this`lastPid, this`rebooted
      ensures State() == RestartProcesses(world, old(State()))
    {
      hide RestartIfNeeded;
      processNeedsRestart := 0;
      ghost var s := State();
      var k := 0;
      while k < |services|
        invariant k <= |services| == |s.services|
        invariant RestartFrom(world, State(), k) == RestartFrom(world, s, 0)
      {
        if Restarting in services[k].flags {
          SameLength(world, State(), k);
          RestartServiceIfNeeded(k);
        }
        k := k + 1;
      }
    }

    method ServiceFindByName(name: nat) returns (i: nat)
      ensures i == FindName(services, name)
    {
      i := 0;
      while i < |services| && services[i].name != name
        invariant i <= |services| && forall j | 0 <= j < i :: services[j].name != name
      {
        i := i + 1;
      }
      FindNameIs(services, name, i);
    }

    method ServiceFindByPid(pid: nat) returns (i: nat)
      ensures i == FindPid(services, pid)
    {
      i := 0;
      while i < |services| && services[i].pid != pid
        invariant i <= |services| && forall j | 0 <= j < i :: services[j].pid != pid
      {
        i := i + 1;
      }
      FindPidIs(services, pid, i);
    }

    /** service_for_each_class. */
    method ForEachInClass(act: ClassAct, group: nat)
      modifies this`services, this`processNeedsRestart, this`readings, this`starts, this`lastPid, this`rebooted
      ensures State() == ClassFrom(world, old(State()), 0, act, group)
    {
      hide Start, Stop;
      var k := 0;
      while k < |services|
        invariant k <= |services| == |old(services)|
        invariant ClassFrom(world, State(), k, act, group) == ClassFrom(world, old(State()), 0, act, group)
      {
        ghost var s := State();
        if services[k].group == group {
          match act {
            case StartClass =>
              if Disabled !in services[k].flags {
                ServiceStart(k, false);
              }
            case StopClass => ServiceStopOrReset(k, HowDisabled);
            case ResetClass => ServiceStopOrReset(k, HowReset);
          }
        }
        assert State() == ClassOne(world, s, k, act, group);
        k := k + 1;
      }
    }

    method DoCommand(c: Command)
      modifies this`services, this`processNeedsRestart, this`readings, this`starts, this`lastPid, this`rebooted
      ensures State() == Exec(world, old(State()), c)
    {
      hide Start, Stop, RestartService;
      match c
      case DoClass(act, group) => ForEachInClass(act, group);
      case DoStart(name) =>
        var i := ServiceFindByName(name);
        if i < |services| {
          ServiceStart(i, false);
        }
      case DoStop(name) =>
        var i := ServiceFindByName(name);
        if i < |services| {
          ServiceStopOrReset(i, HowDisabled);
        }
      case DoRestart(name) =>
        var i := ServiceFindByName(name);
        if i < |services| {
          ServiceRestart(i);
        }
    }

    method DoCommands(cs: seq<Command>)
      modifies this`services, this`processNeedsRestart, this`readings, this`starts, this`lastPid, this`rebooted
      ensures State() == ExecAll(world, old(State()), cs)
    {
      hide Exec;
      var i := 0;
      while i < |cs|
        invariant i <= |cs| && ExecAll(world, State(), cs[i..]) == ExecAll(world, old(State()), cs)
      {
        assert cs[i..][0] == cs[i] && cs[i..][1..] == cs[i+1..];
        DoCommand(cs[i]);
        i := i + 1;
      }
    }

    /** The part of wait_for_one_process that looks at the crash window; the result says whether it reboots. */
    method CountCrash(i: nat, now: int) returns (tooMany: bool)
      requires i < |services|
      modifies this`services
      ensures
        var v := old(services)[i];
        var (crashes, many) := Crash(Crashes(v.timeCrashed, v.nrCrashed), now);
        && services == old(services)[i := v.(timeCrashed := crashes.since, nrCrashed := crashes.count)]
        && tooMany == many
    {
      if services[i].timeCrashed + CRASH_WINDOW >= now {
        services := services[i := services[i].(nrCrashed := services[i].nrCrashed + 1)];
        return services[i].nrCrashed > CRASH_THRESHOLD;
      }
      services := services[i := services[i].(timeCrashed := now, nrCrashed := 1)];
      return false;
    }

    /** wait_for_one_process up to the onrestart commands. */
    method ReapService(i: nat) returns (restarts: bool)
      requires i < |services|
      modifies this`services, this`processNeedsRestart, this`readings, this`starts, this`lastPid, this`rebooted
      ensures (State(), restarts) == Reaped(world, old(State()), i)
    {
      hide Crash;
      services := services[i := services[i].(pid := 0, flags := services[i].flags - {Running})];
      if Oneshot in services[i].flags && Restart !in services[i].flags {
        AddFlag(i, Disabled);
      }
      assert services == old(services)[i := Gone(old(services)[i])];
      if Disabled in services[i].flags || Reset in services[i].flags {
        return false;
      }
      var now := GetTime();
      if Critical in services[i].flags && Restart !in services[i].flags {
        var tooMany := CountCrash(i, now);
        if tooMany {
          rebooted := true;
          assert services == old(services)[i := services[i]];
          return false;
        }
      }
      services := services[i := services[i].(flags := services[i].flags - {Restart})];
      AddFlag(i, Restarting);
      assert services == old(services)[i := services[i]];
      assert services[i] == Reaped(world, old(State()), i).0.services[i];
      return true;
    }

    method WaitForOneProcess(pid: nat)
      modifies this`services, this`processNeedsRestart, this`readings, this`starts, this`lastPid, this`rebooted
      ensures State() == Reap(world, old(State()), pid)
    {
      hide Reaped, ExecAll;
      if pid == 0 {
        return;
      }
      var i := ServiceFindByPid(pid);
      if i == |services| {
        return;
      }
      var commands := services[i].onrestart;
      var restarts := ReapService(i);
      if restarts {
        DoCommands(commands);
      }
    }

    method Handle(e: Event)
      modifies this`services, this`processNeedsRestart, this`readings, this`starts, this`lastPid, this`rebooted
      ensures State() == Step(world, old(State()), e)
    {
      hide Start, Exec, Reap, RestartProcesses;
      if rebooted {
        return;
      }
      match e
      case Command(c) => DoCommand(c);
      case Ctl(name, dynamicArgs) =>
        var i := ServiceFindByName(name);
        if i < |services| {
          ServiceStart(i, dynamicArgs);
        }
      case Exited(pid) => WaitForOneProcess(pid);
      case RestartTick => RestartAll();
    }

    /** A run of init's main loop. Wherever it leads, the life cycle holds, and
        no service that has not forced recovery has crashed too often. */
    method HandleAll(run: seq<Event>)
      requires Valid()
      modifies this
      ensures Valid() && history == old(history) + run && |services| == |boot.services|
      ensures forall i | 0 <= i < |services| :: LifeCycle(services[i])
      ensures !rebooted ==> forall i | 0 <= i < |services| :: CrashesBounded(world, boot, history, i)
    {
      hide Step, Run, Fresh, CrashLog, InSpan;
      ghost var past := history;
      var i := 0;
      while i < |run|
        invariant i <= |run| && Valid() && history == past + run[..i]
      {
        RunConcat(world, boot, history, [run[i]]);
        RunOne(world, State(), run[i]);
        Handle(run[i]);
        history := history + [run[i]];
        i := i + 1;
        assert run[..i] == run[..i-1] + [run[i-1]];
      }
      assert run[..i] == run;
      Lawful();
    }

    lemma Lawful()
      requires Valid()
      ensures Good(world, State()) && |services| == |boot.services|
      ensures forall i | 0 <= i < |services| :: LifeCycle(services[i])
      ensures !rebooted ==> forall i | 0 <= i < |services| :: CrashesBounded(world, boot, history, i)
    {
      hide Run, CrashLog, InSpan;
      LifeCycleFromTheStart(world, boot, history);
      if !rebooted {
        forall i | 0 <= i < |services| ensures CrashesBounded(world, boot, history, i) {
          forall from: int ensures InSpan(CrashLog(world, boot, history, i), from) <= 2 * CRASH_THRESHOLD {
            AtMostEightCrashes(world, boot, history, i, from);
          }
          AtMostEightCrashes(world, boot, history, i, 0);
        }
      }
    }

    /** The end of one turn of the main loop: restart what is due, and work out how long to poll. */
    method RestartAndPoll(busy: bool) returns (timeout: int)
      requires Valid() && !rebooted
      modifies this
      ensures Valid() && history == old(history) + [RestartTick]
      ensures Earliest(processNeedsRestart, services, |services|)
      ensures timeout == -1 <==> !busy && forall j | 0 <= j < |services| :: Restarting !in services[j].flags
      ensures -1 <= timeout <= RESTART_DELAY * 1000 && (busy ==> timeout == 0)
      ensures !busy && processNeedsRestart > world.clock(readings) ==>
        world.clock(readings) * 1000 + timeout == processNeedsRestart * 1000
    {
      hide Run, Fresh, RestartProcesses, Good, CrashLog, InSpan;
      Lawful();
      NeedsRestartIsEarliest(world, State());
      PollMeetsTheRestart(world, State(), busy);
      RunConcat(world, boot, history, [RestartTick]);
      RunOne(world, State(), RestartTick);
      RestartAll();
      history := history + [RestartTick];
      if busy {
        return 0;
      }
      if processNeedsRestart == 0 {
        return -1;
      }
      timeout := (processNeedsRestart - world.clock(readings)) * 1000;
      if timeout < 0 {
        timeout := 0;
      }
    }
  }

  lemma RunOne(w: World, s: Init, e: Event)
    ensures Run(w, s, [e]) == Step(w, s, e)
  {
  }

  lemma SameLength(w: World, s: Init, k: nat)
    requires k < |s.services|
    ensures |RestartIfNeeded(w, s, k).services| == |s.services|
  {
  }
}
