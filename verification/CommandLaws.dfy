/** What the commands and events of init come to for one service, flag by flag. */
module CommandLaws {
  import opened Services
  import opened ServiceLaws
  import opened SpacingLaws

  // ---- the exit of a process ----------------------------------------------

  /** The exit leaves the service stopped: it is disabled, reset, or a one-shot that nobody restarts. */
  predicate StaysDown(f: set<Flag>) {
    Disabled in f || Reset in f || (Oneshot in f && Restart !in f)
  }

  /** The exit is held against the service. */
  predicate IsCrash(f: set<Flag>) {
    Critical in f && Disabled !in f && Reset !in f && Restart !in f && Oneshot !in f
  }

  /** The service after its exit at `now`, when it is to be restarted. */
  function Restarted(v: Service, now: int): Service {
    var recent := v.timeCrashed + 240 >= now;
    v.(pid := 0, flags := v.flags - {Running, Restart} + {Restarting},
       timeCrashed := if IsCrash(v.flags) && !recent then now else v.timeCrashed,
       nrCrashed := if !IsCrash(v.flags) then v.nrCrashed else if recent then v.nrCrashed + 1 else 1)
  }

  /** What an exit comes to: a service that stays down waits for a start; a
      critical one whose fifth crash falls within 240 seconds of the first forces
      recovery; any other waits to be restarted, and its onrestart commands run. */
  lemma ExitOutcome(w: World, s: Init, pid: nat, i: nat)
    requires !s.rebooted && pid != 0 && i < |s.services| && FindPid(s.services, pid) == i
    ensures
      var v := s.services[i];
      var now := w.clock(s.readings);
      var s' := Step(w, s, Exited(pid));
      if StaysDown(v.flags) then
        s' == s.(services := s.services[i := v.(pid := 0, flags :=
          v.flags - {Running} + if Oneshot in v.flags && Restart !in v.flags then {Disabled} else {})])
      else if IsCrash(v.flags) && v.timeCrashed + 240 >= now && v.nrCrashed + 1 > 4 then
        s' == s.(services := s.services[i := v.(pid := 0, flags := v.flags - {Running}, nrCrashed := v.nrCrashed + 1)],
                 readings := s.readings + 1, rebooted := true)
      else
        s' == ExecAll(w, s.(services := s.services[i := Restarted(v, now)], readings := s.readings + 1), v.onrestart)
  {
    hide ExecAll;
    var v := s.services[i];
    var f := v.flags - {Running};
    assert f + {} == f;
    assert f - {Restart} == v.flags - {Running, Restart};
  }

  /** The event is the exit of a service's process, and a crash in that sense. */
  predicate CrashOf(s: Init, e: Event, i: nat)
    requires i < |s.services|
  {
    !s.rebooted && e.Exited? && e.pid != 0 && FindPid(s.services, e.pid) == i && IsCrash(s.services[i].flags)
  }

  lemma OtherEventUncounted(w: World, s: Init, e: Event, i: nat)
    requires i < |s.services| && !e.Exited?
    ensures Uncounted(s, Step(w, s, e), i)
  {
    if !s.rebooted {
      match e
      case Command(c) => ExecUncounted(w, s, c, i);
      case Ctl(name, dynamicArgs) =>
      case RestartTick => RestartUncounted(w, s.(needsRestart := 0), 0, i);
    }
  }

  lemma OtherExitUncounted(w: World, s: Init, pid: nat, i: nat)
    requires i < |s.services| && !CrashOf(s, Exited(pid), i)
    ensures CounterOf(Step(w, s, Exited(pid)).services[i]) == CounterOf(s.services[i])
  {
    hide Reaped, ExecAll;
    var j := FindPid(s.services, pid);
    if !s.rebooted && pid != 0 && j < |s.services| {
      hide Step;
      ExitOutcome(w, s, pid, j);
      var s1 := s.(services := s.services[j := Restarted(s.services[j], w.clock(s.readings))], readings := s.readings + 1);
      ExecAllUncounted(w, s1, s.services[j].onrestart, i);
    }
  }

  /** Only such a crash changes a service's crash counter. A service that is not
      critical, or was stopped, reset, restarted or one-shot, never has it changed. */
  lemma CounterChangesOnlyByCrash(w: World, s: Init, e: Event, i: nat)
    requires i < |s.services|
    ensures
      var v' := Step(w, s, e).services[i];
      v'.timeCrashed != s.services[i].timeCrashed || v'.nrCrashed != s.services[i].nrCrashed ==> CrashOf(s, e, i)
  {
    hide Step;
    if !CrashOf(s, e, i) {
      if e.Exited? {
        OtherExitUncounted(w, s, e.pid, i);
      } else {
        OtherEventUncounted(w, s, e, i);
      }
    }
  }

  /** Recovery is forced exactly by a crash of a critical service that is its fifth in the window. */
  lemma RebootExactlyWhen(w: World, s: Init, e: Event)
    requires !s.rebooted
    ensures Step(w, s, e).rebooted <==>
      exists i | 0 <= i < |s.services| :: CrashOf(s, e, i) &&
        s.services[i].timeCrashed + 240 >= w.clock(s.readings) && s.services[i].nrCrashed + 1 > 4
  {
    hide Step;
    if e.Exited? {
      ExitReboots(w, s, e.pid);
    } else {
      OtherEventNoReboot(w, s, e);
    }
  }

  lemma OtherEventNoReboot(w: World, s: Init, e: Event)
    requires !e.Exited? && !s.rebooted
    ensures !Step(w, s, e).rebooted
  {
    hide Step;
    if s.services == [] {
      NoServices(w, s, e);
    } else {
      OtherEventUncounted(w, s, e, 0);
    }
  }

  lemma NoServices(w: World, s: Init, e: Event)
    requires s.services == [] && !s.rebooted
    ensures !Step(w, s, e).rebooted
  {
  }

  lemma ExitReboots(w: World, s: Init, pid: nat)
    requires !s.rebooted
    ensures Step(w, s, Exited(pid)).rebooted <==>
      exists i | 0 <= i < |s.services| :: CrashOf(s, Exited(pid), i) &&
        s.services[i].timeCrashed + 240 >= w.clock(s.readings) && s.services[i].nrCrashed + 1 > 4
  {
    hide Reaped, ExecAll;
    var j := FindPid(s.services, pid);
    if pid != 0 && j < |s.services| {
      hide Step;
      ExitOutcome(w, s, pid, j);
      var s1 := s.(services := s.services[j := Restarted(s.services[j], w.clock(s.readings))], readings := s.readings + 1);
      ExecAllUncounted(w, s1, s.services[j].onrestart, j);
      assert CrashOf(s, Exited(pid), j) <==> IsCrash(s.services[j].flags);
    }
  }

  /** A run of init reboots only at the crash of a critical service. */
  lemma {:induction false} RebootNeedsCritical(w: World, s: Init, run: seq<Event>) returns (k: nat, i: nat)
    requires !s.rebooted && Run(w, s, run).rebooted
    ensures k < |run| && i < |s.services| && !Run(w, s, run[..k]).rebooted
    ensures CrashOf(Run(w, s, run[..k]), run[k], i) && Critical in Run(w, s, run[..k]).services[i].flags
    decreases |run|
  {
    hide Step, CrashOf;
    var s1 := Step(w, s, run[0]);
    RebootExactlyWhen(w, s, run[0]);
    assert run[..0] == [];
    if s1.rebooted {
      k := 0;
      i :| 0 <= i < |s.services| && CrashOf(s, run[0], i);
      CrashIsCritical(s, run[0], i);
    } else {
      var j, m := RebootNeedsCritical(w, s1, run[1..]);
      k, i := j + 1, m;
      assert run[..k][0] == run[0] && run[..k][1..] == run[1..][..j];
    }
  }

  lemma CrashIsCritical(s: Init, e: Event, i: nat)
    requires i < |s.services| && CrashOf(s, e, i)
    ensures Critical in s.services[i].flags
  {
  }

  // ---- starting -----------------------------------------------------------

  /** What a call of service_start begins with: whatever held the service back is forgotten. */
  function Called(v: Service): Service {
    v.(flags := v.flags - {Disabled, Restarting, Reset, Restart}, timeStarted := 0)
  }

  /** The attempt gets a process: the service is not running, has its console if
      it needs one, exists, takes arguments only if it is a one-shot, is labelled, and the fork succeeds. */
  predicate Forks(v: Service, fate: Fate, dynamicArgs: bool) {
    && Running !in v.flags && (Console in v.flags ==> fate.console) && fate.found
    && (dynamicArgs ==> Oneshot in v.flags) && fate.labelled && fate.forked
  }

  /** The attempt disables the service: no console, no program, or arguments for one that is no one-shot. */
  predicate Refuses(v: Service, fate: Fate, dynamicArgs: bool) {
    Running !in v.flags &&
    ((Console in v.flags && !fate.console) || !fate.found || (dynamicArgs && Oneshot !in v.flags))
  }

  ghost predicate Attempted(v: Service, v': Service, fate: Fate, dynamicArgs: bool, clock: int, pid: nat) {
    && (Forks(v, fate, dynamicArgs) ==>
          v' == Called(v).(flags := Called(v).flags + {Running}, timeStarted := clock, pid := pid))
    && (Refuses(v, fate, dynamicArgs) ==> v' == Called(v).(flags := Called(v).flags + {Disabled}))
    && (!Forks(v, fate, dynamicArgs) && !Refuses(v, fate, dynamicArgs) ==> v'.(pid := v.pid) == Called(v))
    && (v'.pid == v.pid || v'.pid == 0 || Forks(v, fate, dynamicArgs))
  }

  lemma StartAttempts(w: World, s: Init, i: nat, dynamicArgs: bool)
    requires i < |s.services|
    ensures Attempted(s.services[i], Start(w, s, i, dynamicArgs).services[i], w.fate(s.starts), dynamicArgs,
                      w.clock(s.readings), s.lastPid + 1)
  {
  }

  /** A start by name, or with arguments through a property. */
  lemma StartOutcome(w: World, s: Init, name: nat, dynamicArgs: bool, i: nat)
    requires !s.rebooted && i < |s.services| && FindName(s.services, name) == i
    ensures Attempted(s.services[i], Step(w, s, Ctl(name, dynamicArgs)).services[i], w.fate(s.starts), dynamicArgs,
                      w.clock(s.readings), s.lastPid + 1)
    ensures Attempted(s.services[i], Step(w, s, Event.Command(DoStart(name))).services[i], w.fate(s.starts), false,
                      w.clock(s.readings), s.lastPid + 1)
    ensures forall k | 0 <= k < |s.services| && k != i ::
      && Step(w, s, Ctl(name, dynamicArgs)).services[k] == s.services[k]
      && Step(w, s, Event.Command(DoStart(name))).services[k] == s.services[k]
  {
    hide Start, Attempted;
    StartAttempts(w, s, i, dynamicArgs);
    StartAttempts(w, s, i, false);
    StartOnly(w, s, i, dynamicArgs);
    StartOnly(w, s, i, false);
  }

  // ---- stopping and restarting --------------------------------------------

  lemma StopOutcome(w: World, s: Init, name: nat, i: nat)
    requires !s.rebooted && i < |s.services| && FindName(s.services, name) == i
    ensures
      var v := s.services[i];
      Step(w, s, Event.Command(DoStop(name))).services == s.services[i := v.(flags := v.flags - {Restarting} + {Disabled})]
  {
  }

  /** service_restart: a running service is to be restarted once its process is
      gone, one that waits to restart is left alone, any other is started. */
  lemma RestartOutcome(w: World, s: Init, name: nat, i: nat)
    requires !s.rebooted && i < |s.services| && FindName(s.services, name) == i
    ensures
      var v := s.services[i];
      var s' := Step(w, s, Event.Command(DoRestart(name)));
      && (Running in v.flags ==>
            s'.services == s.services[i := v.(flags := v.flags - {Restarting} + {Restart})])
      && (Running !in v.flags && Restarting in v.flags ==> s' == s)
      && (Running !in v.flags && Restarting !in v.flags ==>
            Attempted(v, s'.services[i], w.fate(s.starts), false, w.clock(s.readings), s.lastPid + 1))
  {
    hide Start, Attempted;
    StartAttempts(w, s, i, false);
  }

  /** A running service, neither disabled nor reset, that is told to restart waits to be restarted once its process has exited. */
  lemma RestartComesBack(w: World, s: Init, name: nat, i: nat)
    requires !s.rebooted && i < |s.services| && FindName(s.services, name) == i && PidsDistinct(s.services)
    requires
      var v := s.services[i];
      Running in v.flags && v.pid != 0 && Disabled !in v.flags && Reset !in v.flags && v.onrestart == []
    ensures
      var v := s.services[i];
      var s' := Run(w, s, [Event.Command(DoRestart(name)), Exited(v.pid)]);
      && !s'.rebooted && Restarting in s'.services[i].flags && s'.services[i].pid == 0
      && s'.services[i].nrCrashed == v.nrCrashed && s'.services[i].timeCrashed == v.timeCrashed
  {
    hide Step;
    RestartOutcome(w, s, name, i);
    var v := s.services[i];
    var s1 := Step(w, s, Event.Command(DoRestart(name)));
    CommandNoReboot(w, s, DoRestart(name));
    FindOwnPid(s1.services, i);
    ExitOutcome(w, s1, v.pid, i);
    var run := [Event.Command(DoRestart(name)), Exited(v.pid)];
    assert run[1..] == [Exited(v.pid)] && run[1..][1..] == [];
    assert Run(w, s, run) == Run(w, s1, run[1..]) == Step(w, s1, Exited(v.pid));
  }

  lemma CommandNoReboot(w: World, s: Init, c: Command)
    requires !s.rebooted
    ensures !Step(w, s, Event.Command(c)).rebooted
  {
    OtherEventNoReboot(w, s, Event.Command(c));
  }

  /** With distinct processes, the exit of a service's process finds that service. */
  lemma FindOwnPid(services: seq<Service>, i: nat)
    requires i < |services| && services[i].pid != 0
    requires forall k | 0 <= k < |services| && k != i :: services[k].pid != services[i].pid
    ensures FindPid(services, services[i].pid) == i
  {
  }

  /** A command for a name that no service has changes nothing. */
  lemma UnknownNameIgnored(w: World, s: Init, name: nat, dynamicArgs: bool)
    requires forall k | 0 <= k < |s.services| :: s.services[k].name != name
    ensures Step(w, s, Ctl(name, dynamicArgs)) == s && Step(w, s, Event.Command(DoStart(name))) == s
    ensures Step(w, s, Event.Command(DoStop(name))) == s && Step(w, s, Event.Command(DoRestart(name))) == s
  {
    assert FindName(s.services, name) == |s.services|;
  }

  // ---- class commands -----------------------------------------------------

  /** What a class command does to each service: nothing outside its class. A
      stop disables; a reset disables a service that the configuration disables
      and marks any other as reset; a start attempts those that are not disabled. */
  lemma ClassOutcome(w: World, s: Init, act: ClassAct, group: nat, i: nat)
    requires Steady(w) && Good(w, s) && !s.rebooted && i < |s.services|
    ensures
      var v := s.services[i];
      var v' := Step(w, s, Event.Command(DoClass(act, group))).services[i];
      var t := ClassTurn(w, s, 0, act, group, i);
      if v.group != group then v' == v else
      match act
      case StopClass => v' == v.(flags := v.flags - {Restarting} + {Disabled})
      case ResetClass => v' == v.(flags := v.flags - {Restarting} + {if RcDisabled in v.flags then Disabled else Reset})
      case StartClass =>
        if Disabled in v.flags then v' == v
        else Attempted(v, v', w.fate(t.starts), false, w.clock(t.readings), t.lastPid + 1)
  {
    hide Start, Attempted, Good, ClassFrom, ClassTurn;
    ClassFromAt(w, s, 0, act, group, i);
    StartAttempts(w, ClassTurn(w, s, 0, act, group, i), i, false);
  }

  ghost predicate AllSucceeds(w: World) {
    forall n :: w.fate(n) == Fate(true, true, true, true)
  }

  /** A reset of its class, the exit of its process and a start of its class: a
      service that was running and not disabled runs again exactly when the
      configuration does not disable it and its exit does not either, as that of a
      one-shot that nobody restarts does. */
  lemma ResetComesBackExactlyWhen(w: World, s: Init, i: nat)
    requires Steady(w) && Good(w, s) && !s.rebooted && AllSucceeds(w) && i < |s.services|
    requires Running in s.services[i].flags && Disabled !in s.services[i].flags
    ensures
      var v := s.services[i];
      var s1 := Step(w, s, Event.Command(DoClass(ResetClass, v.group)));
      var s2 := Step(w, s1, Exited(v.pid));
      var s3 := Step(w, s2, Event.Command(DoClass(StartClass, v.group)));
      && s2.services[i].pid == 0 && Restarting !in s2.services[i].flags
      && (s3.services[i].pid != 0 <==> RcDisabled !in v.flags && (Oneshot in v.flags ==> Restart in v.flags))
  {
    hide Step, Good, ClassTurn;
    var v := s.services[i];
    var e1 := Event.Command(DoClass(ResetClass, v.group));
    var e3 := Event.Command(DoClass(StartClass, v.group));
    PidKnown(w, s, i);
    ClassOutcome(w, s, ResetClass, v.group, i);
    CommandNoReboot(w, s, e1.command);
    StepGood(w, s, e1);
    var s1 := Step(w, s, e1);
    OwnPidFound(w, s1, i);
    ExitOutcome(w, s1, v.pid, i);
    StepGood(w, s1, Exited(v.pid));
    var s2 := Step(w, s1, Exited(v.pid));
    ClassOutcome(w, s2, StartClass, v.group, i);
  }

  lemma OwnPidFound(w: World, s: Init, i: nat)
    requires Good(w, s) && i < |s.services| && s.services[i].pid != 0
    ensures FindPid(s.services, s.services[i].pid) == i
  {
    FindOwnPid(s.services, i);
  }

  // ---- held back until started --------------------------------------------

  /** Disabled or reset, and not waiting to restart. */
  predicate Held(v: Service) {
    (Disabled in v.flags || Reset in v.flags) && Restarting !in v.flags
  }

  /** `v'` is still held back, and has no new process. */
  ghost predicate StaysHeld(v: Service, v': Service) {
    Held(v) ==> Held(v') && (v'.pid == v.pid || v'.pid == 0)
  }

  lemma ClassOneHeld(w: World, s: Init, i: nat, act: ClassAct, group: nat)
    requires i < |s.services| && !Reaches(s, DoClass(act, group), i)
    ensures StaysHeld(s.services[i], ClassOne(w, s, i, act, group).services[i])
  {
  }

  lemma ExecHeld(w: World, s: Init, c: Command, i: nat)
    requires Steady(w) && Good(w, s) && i < |s.services| && !Reaches(s, c, i)
    ensures StaysHeld(s.services[i], Exec(w, s, c).services[i])
  {
    hide Good, Start, ClassFrom, ClassTurn, ClassOne;
    if c.DoClass? {
      ClassFromAt(w, s, 0, c.act, c.group, i);
      ClassOneHeld(w, ClassTurn(w, s, 0, c.act, c.group, i), i, c.act, c.group);
    } else {
      var j := FindName(s.services, c.name);
      if j < |s.services| && j != i {
        StartOnly(w, s, j, false);
        StopOnly(s, j, HowDisabled);
        StopOnly(s, j, HowRestart);
      }
    }
  }

  /** One of the commands, when its turn comes, calls service_start for service `i`. */
  predicate CommandsReach(w: World, s: Init, cs: seq<Command>, i: nat)
    requires i < |s.services|
    decreases |cs|
  {
    cs != [] && (Reaches(s, cs[0], i) || CommandsReach(w, Exec(w, s, cs[0]), cs[1..], i))
  }

  lemma {:induction false} ExecAllHeld(w: World, s: Init, cs: seq<Command>, i: nat)
    requires Steady(w) && Good(w, s) && i < |s.services| && !CommandsReach(w, s, cs, i)
    ensures StaysHeld(s.services[i], ExecAll(w, s, cs).services[i])
    decreases |cs|
  {
    hide Good, Exec, Reaches;
    if cs != [] {
      ExecGood(w, s, cs[0]);
      ExecHeld(w, s, cs[0], i);
      ExecAllHeld(w, Exec(w, s, cs[0]), cs[1..], i);
    }
  }

  /** The event calls service_start for service `i`, other than to restart it by itself. */
  predicate EventReaches(w: World, s: Init, e: Event, i: nat)
    requires i < |s.services|
  {
    match e
    case Command(c) => Reaches(s, c, i)
    case Ctl(name, _) => FindName(s.services, name) == i
    case Exited(pid) =>
      var j := FindPid(s.services, pid);
      pid != 0 && j < |s.services| && Reaped(w, s, j).1 && CommandsReach(w, Reaped(w, s, j).0, s.services[j].onrestart, i)
    case RestartTick => false
  }

  lemma StepHeld(w: World, s: Init, e: Event, i: nat)
    requires Steady(w) && Good(w, s) && i < |s.services| && !EventReaches(w, s, e, i)
    ensures StaysHeld(s.services[i], Step(w, s, e).services[i])
  {
    hide Good, Start, Exec, ExecAll, RestartProcesses, CommandsReach;
    if !s.rebooted {
      match e
      case Command(c) => ExecHeld(w, s, c, i);
      case Ctl(name, dynamicArgs) =>
        var j := FindName(s.services, name);
        if j < |s.services| {
          StartOnly(w, s, j, dynamicArgs);
        }
      case Exited(pid) =>
        var j := FindPid(s.services, pid);
        if pid != 0 && j < |s.services| {
          ReapedGood(w, s, j);
          if Reaped(w, s, j).1 {
            ExecAllHeld(w, Reaped(w, s, j).0, s.services[j].onrestart, i);
          }
        }
      case RestartTick => TickOne(w, s, i);
    }
  }

  predicate NoneReaches(w: World, s: Init, run: seq<Event>, i: nat)
    requires i < |s.services|
    decreases |run|
  {
    run == [] || (!EventReaches(w, s, run[0], i) && NoneReaches(w, Step(w, s, run[0]), run[1..], i))
  }

  /** A service that was stopped or reset gets no process, from restart ticks or
      anything else, until some start reaches it. */
  lemma {:induction false} HeldUntilStarted(w: World, s: Init, run: seq<Event>, i: nat)
    requires Steady(w) && Good(w, s) && i < |s.services| && NoneReaches(w, s, run, i) && Held(s.services[i])
    ensures
      var v' := Run(w, s, run).services[i];
      Held(v') && (v'.pid == s.services[i].pid || v'.pid == 0)
    decreases |run|
  {
    hide Good, Step, Held, EventReaches;
    if run != [] {
      StepGood(w, s, run[0]);
      StepHeld(w, s, run[0], i);
      HeldUntilStarted(w, Step(w, s, run[0]), run[1..], i);
    }
  }
}
