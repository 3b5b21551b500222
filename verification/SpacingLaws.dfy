/** How soon after its last start init starts a service again by itself. */
module SpacingLaws {
  import opened Services
  import opened ServiceLaws

  /** Running, or waiting to restart. */
  predicate Live(v: Service) {
    Running in v.flags || Restarting in v.flags
  }

  /** What a run has done to a service: when its process was last forked, and
      whether a start has reached it while it ran since then. */
  datatype Mark = Mark(fork: int, forgotten: bool)

  /** The start time that init keeps for a live service. */
  function Kept(m: Mark): int {
    if m.forgotten then 0 else m.fork
  }

  predicate Marked(v: Service, m: Mark) {
    Live(v) ==> v.timeStarted == Kept(m)
  }

  /** The command calls service_start for service `i`. */
  predicate Reaches(s: Init, c: Command, i: nat)
    requires i < |s.services|
  {
    var v := s.services[i];
    match c
    case DoStart(name) => FindName(s.services, name) == i
    case DoRestart(name) => FindName(s.services, name) == i && !Live(v)
    case DoClass(act, group) => act.StartClass? && v.group == group && Disabled !in v.flags
    case DoStop(_) => false
  }

  /** The state in which the walk over a class from the `k`th service on reaches service `i`. */
  function ClassTurn(w: World, s: Init, k: nat, act: ClassAct, group: nat, i: nat): (s': Init)
    requires k <= i < |s.services|
    ensures |s'.services| == |s.services|
    decreases i - k
  {
    if k == i then s else ClassTurn(w, ClassOne(w, s, k, act, group), k + 1, act, group, i)
  }

  /** What the clock shows when the command forks a process for service `i`. */
  function ForkClock(w: World, s: Init, c: Command, i: nat): int
    requires i < |s.services|
  {
    match c
    case DoClass(act, group) => w.clock(ClassTurn(w, s, 0, act, group, i).readings)
    case _ => w.clock(s.readings)
  }

  /** The mark after service `v` has become `v'`, with or without a call of
      service_start; `clock` is what a fork would have read. */
  function Marking(v: Service, v': Service, reached: bool, clock: int, m: Mark): Mark {
    if reached && Running in v.flags then m.(forgotten := true)
    else if v'.pid != v.pid && v'.pid != 0 then Mark(clock, false)
    else m
  }

  function MarkCommand(w: World, s: Init, c: Command, i: nat, m: Mark): Mark
    requires i < |s.services|
  {
    Marking(s.services[i], Exec(w, s, c).services[i], Reaches(s, c, i), ForkClock(w, s, c, i), m)
  }

  function MarkCommands(w: World, s: Init, cs: seq<Command>, i: nat, m: Mark): Mark
    requires i < |s.services|
    decreases |cs|
  {
    if cs == [] then m else MarkCommands(w, Exec(w, s, cs[0]), cs[1..], i, MarkCommand(w, s, cs[0], i, m))
  }

  function MarkStep(w: World, s: Init, e: Event, i: nat, m: Mark): Mark
    requires i < |s.services|
  {
    if s.rebooted then m else
    match e
    case Command(c) => MarkCommand(w, s, c, i, m)
    case Ctl(name, _) =>
      Marking(s.services[i], Step(w, s, e).services[i], FindName(s.services, name) == i, w.clock(s.readings), m)
    case Exited(pid) =>
      var j := FindPid(s.services, pid);
      if pid != 0 && j < |s.services| && Reaped(w, s, j).1 then
        MarkCommands(w, Reaped(w, s, j).0, s.services[j].onrestart, i, m)
      else m
    case RestartTick => Marking(s.services[i], Step(w, s, e).services[i], false, w.clock(TickTurn(w, s, i).readings + 1), m)
  }

  /** The state in which the walk of restart_processes from the `k`th service on reaches service `i`. */
  function Turn(w: World, s: Init, k: nat, i: nat): (s': Init)
    requires k <= i < |s.services|
    ensures |s'.services| == |s.services|
    decreases i - k
  {
    if k == i then s
    else Turn(w, if Restarting in s.services[k].flags then RestartIfNeeded(w, s, k) else s, k + 1, i)
  }

  function TickTurn(w: World, s: Init, i: nat): Init
    requires i < |s.services|
  {
    Turn(w, s.(needsRestart := 0), 0, i)
  }

  function MarkRun(w: World, s: Init, run: seq<Event>, i: nat, m: Mark): Mark
    requires i < |s.services|
    decreases |run|
  {
    if run == [] then m else MarkRun(w, Step(w, s, run[0]), run[1..], i, MarkStep(w, s, run[0], i, m))
  }

  // ---- what a command does to one service ---------------------------------

  /** Without a call of service_start the start time stands. A call forgets it if
      the service runs; otherwise it forks a process and notes the clock, or
      leaves the service dead. */
  ghost predicate CommandEffect(v: Service, v': Service, reached: bool, clock: int) {
    if !reached then v'.timeStarted == v.timeStarted && v'.pid == v.pid && (Live(v') ==> Live(v))
    else if Running in v.flags then v' == Cleared(v)
    else (v'.pid != v.pid && v'.pid != 0 && v'.timeStarted == clock) || !Live(v')
  }

  lemma EffectMarked(v: Service, v': Service, reached: bool, clock: int, m: Mark)
    requires CommandEffect(v, v', reached, clock) && Marked(v, m)
    ensures Marked(v', Marking(v, v', reached, clock, m))
  {
  }

  lemma StartEffect(w: World, s: Init, i: nat, dynamicArgs: bool)
    requires i < |s.services| && s.services[i].pid <= s.lastPid
    ensures CommandEffect(s.services[i], Start(w, s, i, dynamicArgs).services[i], true, w.clock(s.readings))
  {
  }

  lemma StopEffect(s: Init, i: nat, how: How, clock: int)
    requires i < |s.services|
    ensures CommandEffect(s.services[i], Stop(s, i, how).services[i], false, clock)
  {
  }

  lemma PidKnown(w: World, s: Init, i: nat)
    requires Good(w, s) && i < |s.services|
    ensures ServiceOk(s.services[i], s.lastPid, Latest(w, s))
  {
  }

  lemma ClassOneEffect(w: World, s: Init, i: nat, act: ClassAct, group: nat)
    requires Good(w, s) && i < |s.services|
    ensures CommandEffect(s.services[i], ClassOne(w, s, i, act, group).services[i],
                          Reaches(s, DoClass(act, group), i), w.clock(s.readings))
  {
    PidKnown(w, s, i);
    StartEffect(w, s, i, false);
    StopEffect(s, i, HowDisabled, w.clock(s.readings));
    StopEffect(s, i, HowReset, w.clock(s.readings));
  }

  lemma ClassOneOnly(w: World, s: Init, k: nat, act: ClassAct, group: nat)
    requires k < |s.services|
    ensures OnlyAt(s, ClassOne(w, s, k, act, group), k)
  {
    StartOnly(w, s, k, false);
    StopOnly(s, k, HowDisabled);
    StopOnly(s, k, HowReset);
  }

  lemma NoEffect(v: Service, clock: int)
    ensures CommandEffect(v, v, false, clock)
  {
  }

  lemma {:induction false} ClassFromBefore(w: World, s: Init, k: nat, act: ClassAct, group: nat, i: nat)
    requires i < k <= |s.services|
    ensures ClassFrom(w, s, k, act, group).services[i] == s.services[i]
    decreases |s.services| - k
  {
    if k < |s.services| {
      ClassOneOnly(w, s, k, act, group);
      ClassFromBefore(w, ClassOne(w, s, k, act, group), k + 1, act, group, i);
    }
  }

  /** The walk over a class changes each service in its own turn only. */
  lemma {:induction false} ClassFromAt(w: World, s: Init, k: nat, act: ClassAct, group: nat, i: nat)
    requires Steady(w) && Good(w, s) && k <= i < |s.services|
    ensures
      var t := ClassTurn(w, s, k, act, group, i);
      && Good(w, t) && t.services[i] == s.services[i]
      && ClassFrom(w, s, k, act, group).services[i] == ClassOne(w, t, i, act, group).services[i]
    decreases i - k
  {
    hide ClassOne, Good;
    ClassOneGood(w, s, k, act, group);
    ClassOneOnly(w, s, k, act, group);
    if k < i {
      ClassFromAt(w, ClassOne(w, s, k, act, group), k + 1, act, group, i);
    } else {
      ClassFromBefore(w, ClassOne(w, s, k, act, group), k + 1, act, group, i);
    }
  }

  lemma ExecEffect(w: World, s: Init, c: Command, i: nat)
    requires Steady(w) && Good(w, s) && i < |s.services|
    ensures CommandEffect(s.services[i], Exec(w, s, c).services[i], Reaches(s, c, i), ForkClock(w, s, c, i))
  {
    hide Good, CommandEffect, Start, Stop, ClassOne, ClassFrom, ClassTurn;
    NoEffect(s.services[i], ForkClock(w, s, c, i));
    if c.DoClass? {
      ClassFromAt(w, s, 0, c.act, c.group, i);
      ClassOneEffect(w, ClassTurn(w, s, 0, c.act, c.group, i), i, c.act, c.group);
    } else {
      var j := FindName(s.services, c.name);
      if j == i {
        PidKnown(w, s, i);
        StartEffect(w, s, i, false);
        StopEffect(s, i, HowDisabled, w.clock(s.readings));
        StopEffect(s, i, HowRestart, w.clock(s.readings));
      } else if j < |s.services| {
        StartOnly(w, s, j, false);
        StopOnly(s, j, HowDisabled);
        StopOnly(s, j, HowRestart);
      }
    }
  }

  lemma CommandMarked(w: World, s: Init, c: Command, i: nat, m: Mark)
    requires Steady(w) && Good(w, s) && i < |s.services| && Marked(s.services[i], m)
    ensures Marked(Exec(w, s, c).services[i], MarkCommand(w, s, c, i, m))
  {
    hide Good, CommandEffect, Exec, Reaches, Marked, Marking, ForkClock;
    ExecEffect(w, s, c, i);
    EffectMarked(s.services[i], Exec(w, s, c).services[i], Reaches(s, c, i), ForkClock(w, s, c, i), m);
  }

  lemma {:induction false} CommandsMarked(w: World, s: Init, cs: seq<Command>, i: nat, m: Mark)
    requires Steady(w) && Good(w, s) && i < |s.services| && Marked(s.services[i], m)
    ensures Marked(ExecAll(w, s, cs).services[i], MarkCommands(w, s, cs, i, m))
    decreases |cs|
  {
    hide Good, Exec, Marked, MarkCommand;
    if cs != [] {
      ExecGood(w, s, cs[0]);
      CommandMarked(w, s, cs[0], i, m);
      CommandsMarked(w, Exec(w, s, cs[0]), cs[1..], i, MarkCommand(w, s, cs[0], i, m));
    }
  }

  // ---- the walk of restart_processes --------------------------------------

  /** The clock reading that restart_service_if_needed takes for service `i`. */
  function ReadFor(w: World, s: Init, i: nat): int
    requires i < |s.services|
  {
    w.clock(TickTurn(w, s, i).readings)
  }

  lemma {:induction false} RestartFromBefore(w: World, s: Init, k: nat, i: nat)
    requires i < k <= |s.services|
    ensures RestartFrom(w, s, k).services[i] == s.services[i]
    decreases |s.services| - k
  {
    if k < |s.services| {
      RestartIfNeededOnly(w, s, k);
      RestartFromBefore(w, if Restarting in s.services[k].flags then RestartIfNeeded(w, s, k) else s, k + 1, i);
    }
  }

  /** Its own turn is all that a service gets. */
  lemma {:induction false} TurnDecides(w: World, s: Init, k: nat, i: nat)
    requires Steady(w) && Good(w, s) && k <= i < |s.services|
    ensures
      var t := Turn(w, s, k, i);
      && Good(w, t) && t.services[i] == s.services[i]
      && RestartFrom(w, s, k).services[i] ==
           if Restarting in s.services[i].flags then RestartIfNeeded(w, t, i).services[i] else s.services[i]
    decreases i - k
  {
    hide RestartIfNeeded, Good;
    var s1 := if Restarting in s.services[k].flags then RestartIfNeeded(w, s, k) else s;
    RestartIfNeededGood(w, s, k);
    RestartIfNeededOnly(w, s, k);
    if k < i {
      TurnDecides(w, s1, k + 1, i);
    } else {
      RestartFromBefore(w, s1, k + 1, i);
    }
  }

  /** restart_service_if_needed starts the service just when five seconds have passed since its start time. */
  lemma RestartOne(w: World, s: Init, i: nat)
    requires Steady(w) && Good(w, s) && i < |s.services| && Restarting in s.services[i].flags
    ensures
      var v := s.services[i];
      var v' := RestartIfNeeded(w, s, i).services[i];
      if w.clock(s.readings) >= v.timeStarted + RESTART_DELAY then
        && Restarting !in v'.flags && v.pid == 0
        && (v'.pid == 0 ==> !Live(v'))
        && (v'.pid != 0 ==> v'.timeStarted == w.clock(s.readings + 1) >= v.timeStarted + RESTART_DELAY)
      else v' == v
  {
    PidKnown(w, s, i);
    assert w.clock(s.readings) <= w.clock(s.readings + 1);
  }

  /** What a restart tick does to a service that waits to restart. */
  lemma TickOne(w: World, s: Init, i: nat)
    requires Steady(w) && Good(w, s) && i < |s.services| && !s.rebooted
    ensures
      var v := s.services[i];
      var v' := Step(w, s, RestartTick).services[i];
      if Restarting in v.flags && ReadFor(w, s, i) >= v.timeStarted + RESTART_DELAY then
        && Restarting !in v'.flags && v.pid == 0
        && (v'.pid == 0 ==> !Live(v'))
        && (v'.pid != 0 ==> v'.timeStarted == w.clock(TickTurn(w, s, i).readings + 1) >= v.timeStarted + RESTART_DELAY)
      else v' == v
  {
    hide RestartIfNeeded, RestartFrom, Turn;
    var s0 := s.(needsRestart := 0);
    assert Good(w, s0);
    TurnDecides(w, s0, 0, i);
    if Restarting in s.services[i].flags {
      RestartOne(w, Turn(w, s0, 0, i), i);
    }
  }

  // ---- runs ---------------------------------------------------------------

  lemma StepMarked(w: World, s: Init, e: Event, i: nat, m: Mark)
    requires Steady(w) && Good(w, s) && i < |s.services| && Marked(s.services[i], m)
    ensures Marked(Step(w, s, e).services[i], MarkStep(w, s, e, i, m))
  {
    hide Good, CommandEffect, Start, Exec, RestartProcesses, Reaped;
    if !s.rebooted {
      match e
      case Command(c) => CommandMarked(w, s, c, i, m);
      case Ctl(name, dynamicArgs) => CtlMarked(w, s, name, dynamicArgs, i, m);
      case Exited(pid) => ReapMarked(w, s, pid, i, m);
      case RestartTick => TickOne(w, s, i);
    }
  }

  lemma CtlMarked(w: World, s: Init, name: nat, dynamicArgs: bool, i: nat, m: Mark)
    requires Good(w, s) && i < |s.services| && Marked(s.services[i], m) && !s.rebooted
    ensures Marked(Step(w, s, Ctl(name, dynamicArgs)).services[i], MarkStep(w, s, Ctl(name, dynamicArgs), i, m))
  {
    hide Good, CommandEffect, Start, Marking, Marked;
    var j := FindName(s.services, name);
    NoEffect(s.services[i], w.clock(s.readings));
    EffectMarked(s.services[i], s.services[i], false, w.clock(s.readings), m);
    if j == i {
      PidKnown(w, s, i);
      StartOnly(w, s, i, dynamicArgs);
      StartEffect(w, s, i, dynamicArgs);
      EffectMarked(s.services[i], Start(w, s, i, dynamicArgs).services[i], true, w.clock(s.readings), m);
    } else if j < |s.services| {
      StartOnly(w, s, j, dynamicArgs);
    }
  }

  lemma ReapMarked(w: World, s: Init, pid: nat, i: nat, m: Mark)
    requires Steady(w) && Good(w, s) && i < |s.services| && Marked(s.services[i], m) && !s.rebooted
    ensures Marked(Step(w, s, Exited(pid)).services[i], MarkStep(w, s, Exited(pid), i, m))
  {
    hide Good, ExecAll, MarkCommands;
    var j := FindPid(s.services, pid);
    if pid != 0 && j < |s.services| {
      PidKnown(w, s, j);
      ReapedGood(w, s, j);
      ReapedMarked(w, s, j, i, m);
      CommandsMarked(w, Reaped(w, s, j).0, s.services[j].onrestart, i, m);
    }
  }

  lemma ReapedMarked(w: World, s: Init, j: nat, i: nat, m: Mark)
    requires i < |s.services| && j < |s.services| && Running in s.services[j].flags && Marked(s.services[i], m)
    ensures Marked(Reaped(w, s, j).0.services[i], m)
  {
  }

  /** A service that runs or waits to restart keeps the time of its last fork,
      and keeps zero instead just when a start has reached it while it ran. */
  lemma {:induction false} StartTimeAlongRuns(w: World, s: Init, run: seq<Event>, i: nat, m: Mark)
    requires Steady(w) && Good(w, s) && i < |s.services| && Marked(s.services[i], m)
    ensures Marked(Run(w, s, run).services[i], MarkRun(w, s, run, i, m))
    decreases |run|
  {
    hide Good, Step, Marked, MarkStep;
    if run != [] {
      StepGood(w, s, run[0]);
      StepMarked(w, s, run[0], i, m);
      StartTimeAlongRuns(w, Step(w, s, run[0]), run[1..], i, MarkStep(w, s, run[0], i, m));
    }
  }

  /** After any run, the next restart tick takes up a waiting service exactly when
      five seconds have passed since its last fork, or since time zero if a start
      has reached it while it ran. So within five seconds of the last fork it is
      started again exactly when such a start has come. */
  lemma RestartsExactlyWhen(w: World, s: Init, run: seq<Event>, i: nat, m: Mark)
    requires Steady(w) && Good(w, s) && i < |s.services| && Marked(s.services[i], m)
    requires !Run(w, s, run).rebooted && Restarting in Run(w, s, run).services[i].flags
    ensures
      var f := Run(w, s, run);
      var last := MarkRun(w, s, run, i, m);
      var now := ReadFor(w, f, i);
      var v' := Step(w, f, RestartTick).services[i];
      && (Restarting !in v'.flags <==> now >= Kept(last) + RESTART_DELAY)
      && (v'.pid != 0 ==> v'.timeStarted >= Kept(last) + RESTART_DELAY)
      && (RESTART_DELAY <= now < last.fork + RESTART_DELAY ==> (Restarting !in v'.flags <==> last.forgotten))
  {
    hide Good, Step, MarkRun, ReadFor;
    LifeCycleAlongRuns(w, s, run);
    StartTimeAlongRuns(w, s, run, i, m);
    var f := Run(w, s, run);
    PidKnown(w, f, i);
    TickOne(w, f, i);
  }

  /** A start of its class while a service runs forgets when it was started: if
      it then exits, the next tick starts it again at once. The run begins with a
      service as it is parsed. */
  lemma ClassStartForgetsTheDelay()
    ensures
      var w := World(_ => 100, _ => Fate(true, true, true, true));
      var s := Init([Service(0, 0, {}, 0, 0, 0, 0, [])], 0, 0, 0, 0, false);
      var start := Event.Command(DoClass(StartClass, 0));
      var v := Run(w, s, [start, start, Exited(1), RestartTick]).services[0];
      && Steady(w) && Fresh(s)
      && Run(w, s, [start]).services[0].timeStarted == 100
      && v.pid == 2 && v.timeStarted == 100
  {
    var w := World(_ => 100, _ => Fate(true, true, true, true));
    var v := Service(0, 0, {}, 0, 0, 0, 0, []);
    var s := Init([v], 0, 0, 0, 0, false);
    var start := Event.Command(DoClass(StartClass, 0));
    var run := [start, start, Exited(1), RestartTick];
    var v0 := v.(flags := {Running}, pid := 1, timeStarted := 100);
    var s0 := Init([v0], 0, 1, 1, 1, false);
    assert Cleared(v) == v by { assert v.flags - {Disabled, Restarting, Reset, Restart} == v.flags; }
    assert {} + {Running} == v0.flags;
    assert Start(w, s, 0, false) == s0;
    assert ClassOne(w, s, 0, StartClass, 0) == s0 && ClassFrom(w, s0, 1, StartClass, 0) == s0;
    assert Step(w, s, start) == s0;
    SecondRound(w, s0);
    assert run[1..] == [start, Exited(1), RestartTick];
    assert Run(w, s, run) == Run(w, s0, run[1..]);
    assert [start][1..] == [] && Run(w, s, [start]) == Run(w, s0, []);
  }

  lemma SecondRound(w: World, s: Init)
    requires w == World(_ => 100, _ => Fate(true, true, true, true))
    requires s == Init([Service(0, 0, {Running}, 1, 100, 0, 0, [])], 0, 1, 1, 1, false)
    ensures
      var v := Run(w, s, [Event.Command(DoClass(StartClass, 0)), Exited(1), RestartTick]).services[0];
      v.pid == 2 && v.timeStarted == 100
  {
    var v := s.services[0];
    var run := [Event.Command(DoClass(StartClass, 0)), Exited(1), RestartTick];
    var v1 := v.(timeStarted := 0);
    assert Cleared(v) == v1 by { assert v.flags - {Disabled, Restarting, Reset, Restart} == v.flags; }
    var s1 := s.(services := [v1]);
    assert Put(s, 0, v1) == s1;
    assert ClassOne(w, s, 0, StartClass, 0) == s1 && ClassFrom(w, s1, 1, StartClass, 0) == s1;
    assert Step(w, s, run[0]) == s1;
    var v2 := v1.(pid := 0, flags := {Restarting});
    assert Gone(v1) == v1.(pid := 0, flags := {}) by { assert v1.flags - {Running} == {}; }
    var s2 := s1.(services := [v2], readings := 2);
    assert Put(s1.(readings := 2), 0, v2) == s2;
    assert ({} - {Restart}) + {Restarting} == v2.flags;
    assert Reaped(w, s1, 0) == (s2, true);
    assert Step(w, s1, run[1]) == s2;
    var v3 := v2.(flags := {});
    assert v2.flags - {Restarting} == {};
    assert Cleared(v3) == v3;
    var v4 := v3.(flags := {Running}, pid := 2, timeStarted := 100);
    assert {} + {Running} == v4.flags;
    var s3 := RestartIfNeeded(w, s2, 0);
    assert s3.services == [v4] && RestartFrom(w, s3, 1) == s3 && s2.(needsRestart := 0) == s2;
    assert Step(w, s2, run[2]).services[0] == v4;
    assert run[1..] == [run[1], run[2]] && run[1..][1..] == [run[2]];
    assert Run(w, s2, [run[2]]) == Step(w, s2, run[2]);
    assert Run(w, s1, run[1..]) == Step(w, s2, run[2]);
  }
}
