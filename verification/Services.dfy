/** Android init's service supervisor: starting, stopping, restarting and
    reaping services. */
module Services {
  datatype Flag = Disabled | Oneshot | Running | Restarting | Console | Critical | Reset | RcDisabled | Restart

  datatype ClassAct = StartClass | StopClass | ResetClass

  datatype Command =
    | DoStart(name: nat)
    | DoStop(name: nat)
    | DoRestart(name: nat)
    | DoClass(act: ClassAct, group: nat)

  datatype Service = Service(
    name: nat,
    group: nat,
    flags: set<Flag>,
    pid: nat,
    timeStarted: int,
    timeCrashed: int,
    nrCrashed: int,
    onrestart: seq<Command>)

  /** What the operating system answers to one attempt to start a process. */
  datatype Fate = Fate(console: bool, found: bool, labelled: bool, forked: bool)

  /** The clock, reading by reading, and the fate of each attempt. */
  datatype World = World(clock: nat -> int, fate: nat -> Fate)

  datatype Init = Init(
    services: seq<Service>,
    needsRestart: int,       // process_needs_restart
    readings: nat,              // clock readings so far
    starts: nat,             // start attempts so far
    lastPid: nat,
    rebooted: bool)

  const CRASH_THRESHOLD: int := 4
  const CRASH_WINDOW: int := 240
  const RESTART_DELAY: int := 5

  function Put(s: Init, i: nat, v: Service): Init
    requires i < |s.services|
  {
    s.(services := s.services[i := v])
  }

  // ---- init.c -------------------------------------------------------------

  function Cleared(v: Service): Service {
    v.(flags := v.flags - {Disabled, Restarting, Reset, Restart}, timeStarted := 0)
  }

  function Disable(v: Service): Service {
    v.(flags := v.flags + {Disabled})
  }

  /** service_start. */
  function Start(w: World, s: Init, i: nat, dynamicArgs: bool): Init
    requires i < |s.services|
  {
    var v := Cleared(s.services[i]);
    if Running in v.flags then Put(s, i, v) else
    var f := w.fate(s.starts);
    var s1 := s.(starts := s.starts + 1);
    if Console in v.flags && !f.console then Put(s1, i, Disable(v))
    else if !f.found then Put(s1, i, Disable(v))
    else if Oneshot !in v.flags && dynamicArgs then Put(s1, i, Disable(v))
    else if !f.labelled then Put(s1, i, v)
    else if !f.forked then Put(s1, i, v.(pid := 0))
    else Put(s1.(readings := s.readings + 1, lastPid := s.lastPid + 1), i,
             v.(timeStarted := w.clock(s.readings), pid := s.lastPid + 1, flags := v.flags + {Running}))
  }

  datatype How = HowDisabled | HowReset | HowRestart

  /** service_stop_or_reset; a running service stays so until its process has exited. */
  function Stop(s: Init, i: nat, how: How): Init
    requires i < |s.services|
  {
    var v := s.services[i];
    var f := v.flags - {Restarting};
    Put(s, i, v.(flags := match how
                          case HowDisabled => f + {Disabled}
                          case HowReset => f + {if RcDisabled in v.flags then Disabled else Reset}
                          case HowRestart => f + {Restart}))
  }

  /** service_restart. */
  function RestartService(w: World, s: Init, i: nat): Init
    requires i < |s.services|
  {
    if Running in s.services[i].flags then Stop(s, i, HowRestart)
    else if Restarting !in s.services[i].flags then Start(w, s, i, false)
    else s
  }

  /** restart_service_if_needed. */
  function RestartIfNeeded(w: World, s: Init, i: nat): Init
    requires i < |s.services|
  {
    var next := s.services[i].timeStarted + RESTART_DELAY;
    var now := w.clock(s.readings);
    var s1 := s.(readings := s.readings + 1);
    if next <= now then
      var v := s.services[i];
      Start(w, Put(s1, i, v.(flags := v.flags - {Restarting})), i, false)
    else if next < s.needsRestart || s.needsRestart == 0 then s1.(needsRestart := next)
    else s1
  }

  /** The walk of restart_processes over the services from the `k`th on. */
  function RestartFrom(w: World, s: Init, k: nat): (s': Init)
    requires k <= |s.services|
    ensures |s'.services| == |s.services|
    decreases |s.services| - k
  {
    if k == |s.services| then s
    else RestartFrom(w, if Restarting in s.services[k].flags then RestartIfNeeded(w, s, k) else s, k + 1)
  }

  function RestartProcesses(w: World, s: Init): (s': Init)
    ensures |s'.services| == |s.services|
  {
    RestartFrom(w, s.(needsRestart := 0), 0)
  }

  /** The timeout for poll, in milliseconds, or -1 for none. */
  function PollTimeout(needsRestart: int, now: int, busy: bool): int {
    if busy then 0
    else if needsRestart == 0 then -1
    else if (needsRestart - now) * 1000 < 0 then 0
    else (needsRestart - now) * 1000
  }

  // ---- builtins.c ---------------------------------------------------------

  /** service_find_by_name, or the number of services. */
  function FindName(services: seq<Service>, name: nat): (i: nat)
    ensures i <= |services| && (i < |services| ==> services[i].name == name)
    ensures forall j | 0 <= j < i :: services[j].name != name
  {
    if services == [] || services[0].name == name then 0 else 1 + FindName(services[1..], name)
  }

  /** What a class command does to one service. */
  function ClassOne(w: World, s: Init, i: nat, act: ClassAct, group: nat): (s': Init)
    requires i < |s.services|
    ensures |s'.services| == |s.services|
  {
    if s.services[i].group != group then s else
    match act
    case StartClass => if Disabled in s.services[i].flags then s else Start(w, s, i, false)
    case StopClass => Stop(s, i, HowDisabled)
    case ResetClass => Stop(s, i, HowReset)
  }

  function ClassFrom(w: World, s: Init, k: nat, act: ClassAct, group: nat): (s': Init)
    requires k <= |s.services|
    ensures |s'.services| == |s.services|
    decreases |s.services| - k
  {
    if k == |s.services| then s else ClassFrom(w, ClassOne(w, s, k, act, group), k + 1, act, group)
  }

  function Exec(w: World, s: Init, c: Command): (s': Init)
    ensures |s'.services| == |s.services|
  {
    match c
    case DoClass(act, group) => ClassFrom(w, s, 0, act, group)
    case DoStart(name) =>
      var i := FindName(s.services, name);
      if i == |s.services| then s else Start(w, s, i, false)
    case DoStop(name) =>
      var i := FindName(s.services, name);
      if i == |s.services| then s else Stop(s, i, HowDisabled)
    case DoRestart(name) =>
      var i := FindName(s.services, name);
      if i == |s.services| then s else RestartService(w, s, i)
  }

  function ExecAll(w: World, s: Init, cs: seq<Command>): (s': Init)
    ensures |s'.services| == |s.services|
    decreases |cs|
  {
    if cs == [] then s else ExecAll(w, Exec(w, s, cs[0]), cs[1..])
  }

  // ---- signal_handler.c ---------------------------------------------------

  /** service_find_by_pid, or the number of services. */
  function FindPid(services: seq<Service>, pid: nat): (i: nat)
    ensures i <= |services| && (i < |services| ==> services[i].pid == pid)
    ensures forall j | 0 <= j < i :: services[j].pid != pid
  {
    if services == [] || services[0].pid == pid then 0 else 1 + FindPid(services[1..], pid)
  }

  /** The crash counter of a service. */
  datatype Crashes = Crashes(since: int, count: int)

  /** A counted crash: the new counter, and whether it is one too many. */
  function Crash(c: Crashes, now: int): (Crashes, bool) {
    if c.since + CRASH_WINDOW >= now then (c.(count := c.count + 1), c.count + 1 > CRASH_THRESHOLD)
    else (Crashes(now, 1), false)
  }

  /** The service once its process is gone. */
  function Gone(v: Service): Service {
    var f := v.flags - {Running};
    v.(pid := 0, flags := if Oneshot in f && Restart !in f then f + {Disabled} else f)
  }

  /** Whether an exit counts as a crash, given the service that is gone. */
  predicate Counts(v: Service) {
    Disabled !in v.flags && Reset !in v.flags && Critical in v.flags && Restart !in v.flags
  }

  /** wait_for_one_process up to the onrestart commands, and whether it gets to them. */
  function Reaped(w: World, s: Init, i: nat): (Init, bool)
    requires i < |s.services|
  {
    var v := Gone(s.services[i]);
    if Disabled in v.flags || Reset in v.flags then (Put(s, i, v), false) else
    var s1 := s.(readings := s.readings + 1);
    var (crashes, tooMany) :=
      if Counts(v) then Crash(Crashes(v.timeCrashed, v.nrCrashed), w.clock(s.readings))
      else (Crashes(v.timeCrashed, v.nrCrashed), false);
    var v1 := v.(timeCrashed := crashes.since, nrCrashed := crashes.count);
    if tooMany then (Put(s1, i, v1).(rebooted := true), false)
    else (Put(s1, i, v1.(flags := v1.flags - {Restart} + {Restarting})), true)
  }

  /** wait_for_one_process, for a process with this id. */
  function Reap(w: World, s: Init, pid: nat): (s': Init)
    ensures |s'.services| == |s.services|
  {
    var i := FindPid(s.services, pid);
    if pid == 0 || i == |s.services| then s else
    var (s1, restarts) := Reaped(w, s, i);
    if restarts then ExecAll(w, s1, s.services[i].onrestart) else s1
  }

  // ---- runs ---------------------------------------------------------------

  datatype Event =
    | Command(command: Command)              // a command of an action
    | Ctl(name: nat, dynamicArgs: bool)      // ctl.start through a property
    | Exited(pid: nat)                       // SIGCHLD
    | RestartTick                            // restart_processes in the main loop

  function Step(w: World, s: Init, e: Event): (s': Init)
    ensures |s'.services| == |s.services|
  {
    if s.rebooted then s else
    match e
    case Command(c) => Exec(w, s, c)
    case Ctl(name, dynamicArgs) =>
      var i := FindName(s.services, name);
      if i == |s.services| then s else Start(w, s, i, dynamicArgs)
    case Exited(pid) => Reap(w, s, pid)
    case RestartTick => RestartProcesses(w, s)
  }

  function Run(w: World, s: Init, run: seq<Event>): (s': Init)
    ensures |s'.services| == |s.services|
    decreases |run|
  {
    if run == [] then s else Run(w, Step(w, s, run[0]), run[1..])
  }

  // ---- the life cycle -----------------------------------------------------

  ghost predicate Steady(w: World) {
    && w.clock(0) >= 0
    && forall i: nat, j: nat | i <= j :: w.clock(i) <= w.clock(j)
  }

  /** Nothing has been read from a clock later than the latest reading. */
  function Latest(w: World, s: Init): int {
    if s.readings == 0 then 0 else w.clock(s.readings - 1)
  }

  predicate LifeCycle(v: Service) {
    && (Running in v.flags <==> v.pid != 0)
    && (Restarting in v.flags ==>
          v.pid == 0 && Running !in v.flags && Disabled !in v.flags && Reset !in v.flags && Restart !in v.flags)
  }

  ghost predicate ServiceOk(v: Service, lastPid: nat, latest: int) {
    LifeCycle(v) && v.pid <= lastPid && 0 <= v.timeStarted <= latest
  }

  ghost predicate PidsDistinct(services: seq<Service>) {
    forall i, j | 0 <= i < j < |services| && services[i].pid != 0 :: services[i].pid != services[j].pid
  }

  ghost predicate Good(w: World, s: Init) {
    && (forall i | 0 <= i < |s.services| :: ServiceOk(s.services[i], s.lastPid, Latest(w, s)))
    && PidsDistinct(s.services)
    && 0 <= Latest(w, s)
  }

  /** A change to one service, with the clock, the pids and the attempts moving on. */
  ghost predicate Moves(w: World, s: Init, s': Init, i: nat)
    requires i < |s.services|
  {
    && |s'.services| == |s.services| && s'.lastPid >= s.lastPid && s'.readings >= s.readings
    && (forall k | 0 <= k < |s.services| && k != i :: s'.services[k] == s.services[k])
    && (s'.services[i].pid == s.services[i].pid || s'.services[i].pid == 0
        || (s.lastPid < s'.services[i].pid <= s'.lastPid))
  }

  lemma LatestGrows(w: World, s: Init, s': Init)
    requires Steady(w) && s'.readings >= s.readings && 0 <= Latest(w, s)
    ensures Latest(w, s) <= Latest(w, s')
  {
    if s.readings == 0 && s'.readings > 0 {
      assert w.clock(0) <= w.clock(s'.readings - 1);
    }
  }

  lemma MovesGood(w: World, s: Init, s': Init, i: nat)
    requires Steady(w) && Good(w, s) && i < |s.services| && Moves(w, s, s', i)
    requires ServiceOk(s'.services[i], s'.lastPid, Latest(w, s'))
    ensures Good(w, s')
  {
    LatestGrows(w, s, s');
    forall k | 0 <= k < |s'.services| ensures ServiceOk(s'.services[k], s'.lastPid, Latest(w, s')) {
      assert k != i ==> ServiceOk(s.services[k], s.lastPid, Latest(w, s));
    }
    forall j, k | 0 <= j < k < |s'.services| && s'.services[j].pid != 0
      ensures s'.services[j].pid != s'.services[k].pid
    {
      assert ServiceOk(s.services[j], s.lastPid, Latest(w, s)) && ServiceOk(s.services[k], s.lastPid, Latest(w, s));
    }
  }

  lemma StartGood(w: World, s: Init, i: nat, dynamicArgs: bool)
    requires Steady(w) && Good(w, s) && i < |s.services|
    ensures Good(w, Start(w, s, i, dynamicArgs)) && Moves(w, s, Start(w, s, i, dynamicArgs), i)
    ensures Restarting !in Start(w, s, i, dynamicArgs).services[i].flags
  {
    assert ServiceOk(s.services[i], s.lastPid, Latest(w, s));
    LatestGrows(w, s, Start(w, s, i, dynamicArgs));
    MovesGood(w, s, Start(w, s, i, dynamicArgs), i);
  }

  lemma StopGood(w: World, s: Init, i: nat, how: How)
    requires Steady(w) && Good(w, s) && i < |s.services|
    ensures Good(w, Stop(s, i, how)) && Moves(w, s, Stop(s, i, how), i)
  {
    assert ServiceOk(s.services[i], s.lastPid, Latest(w, s));
    MovesGood(w, s, Stop(s, i, how), i);
  }

  lemma RestartGood(w: World, s: Init, i: nat)
    requires Steady(w) && Good(w, s) && i < |s.services|
    ensures Good(w, RestartService(w, s, i))
  {
    if Running in s.services[i].flags {
      StopGood(w, s, i, HowRestart);
    } else if Restarting !in s.services[i].flags {
      StartGood(w, s, i, false);
    }
  }

  lemma ClassOneGood(w: World, s: Init, i: nat, act: ClassAct, group: nat)
    requires Steady(w) && Good(w, s) && i < |s.services|
    ensures Good(w, ClassOne(w, s, i, act, group))
  {
    match act
    case StartClass => StartGood(w, s, i, false);
    case StopClass => StopGood(w, s, i, HowDisabled);
    case ResetClass => StopGood(w, s, i, HowReset);
  }

  lemma {:induction false} ClassGood(w: World, s: Init, k: nat, act: ClassAct, group: nat)
    requires Steady(w) && Good(w, s) && k <= |s.services|
    ensures Good(w, ClassFrom(w, s, k, act, group))
    decreases |s.services| - k
  {
    if k < |s.services| {
      ClassOneGood(w, s, k, act, group);
      ClassGood(w, ClassOne(w, s, k, act, group), k + 1, act, group);
    }
  }

  lemma ExecGood(w: World, s: Init, c: Command)
    requires Steady(w) && Good(w, s)
    ensures Good(w, Exec(w, s, c))
  {
    if c.DoClass? {
      ClassGood(w, s, 0, c.act, c.group);
    } else {
      var i := FindName(s.services, c.name);
      if i < |s.services| {
        StartGood(w, s, i, false);
        StopGood(w, s, i, HowDisabled);
        RestartGood(w, s, i);
      }
    }
  }

  lemma {:induction false} ExecAllGood(w: World, s: Init, cs: seq<Command>)
    requires Steady(w) && Good(w, s)
    ensures Good(w, ExecAll(w, s, cs))
    decreases |cs|
  {
    if cs != [] {
      ExecGood(w, s, cs[0]);
      ExecAllGood(w, Exec(w, s, cs[0]), cs[1..]);
    }
  }

  lemma ReapedGood(w: World, s: Init, i: nat)
    requires Steady(w) && Good(w, s) && i < |s.services| && s.services[i].pid != 0
    ensures Good(w, Reaped(w, s, i).0) && Moves(w, s, Reaped(w, s, i).0, i)
  {
    assert ServiceOk(s.services[i], s.lastPid, Latest(w, s));
    LatestGrows(w, s, Reaped(w, s, i).0);
    MovesGood(w, s, Reaped(w, s, i).0, i);
  }

  lemma RestartIfNeededGood(w: World, s: Init, i: nat)
    requires Steady(w) && Good(w, s) && i < |s.services|
    ensures Good(w, RestartIfNeeded(w, s, i)) && Moves(w, s, RestartIfNeeded(w, s, i), i)
  {
    hide Start, Good;
    var v := s.services[i];
    var s1 := s.(readings := s.readings + 1);
    Rereads(w, s, i, s1, v);
    Rereads(w, s, i, s1.(needsRestart := v.timeStarted + RESTART_DELAY), v);
    var s2 := Put(s1, i, v.(flags := v.flags - {Restarting}));
    Rereads(w, s, i, s2, s2.services[i]);
    StartGood(w, s2, i, false);
    assert s2.lastPid == s.lastPid && s2.readings == s.readings + 1;
  }

  /** One more reading of the clock, and perhaps a restart no longer pending. */
  lemma Rereads(w: World, s: Init, i: nat, s': Init, v: Service)
    requires Steady(w) && Good(w, s) && i < |s.services|
    requires v == s.services[i] || v == s.services[i].(flags := s.services[i].flags - {Restarting})
    requires s'.services == s.services[i := v] && s'.lastPid == s.lastPid && s'.readings == s.readings + 1
    ensures Good(w, s') && Moves(w, s, s', i)
  {
    assert ServiceOk(s.services[i], s.lastPid, Latest(w, s));
    LatestGrows(w, s, s');
    MovesGood(w, s, s', i);
  }

  lemma {:induction false} RestartFromGood(w: World, s: Init, k: nat)
    requires Steady(w) && Good(w, s) && k <= |s.services|
    ensures Good(w, RestartFrom(w, s, k))
    decreases |s.services| - k
  {
    if k < |s.services| {
      RestartIfNeededGood(w, s, k);
      RestartFromGood(w, if Restarting in s.services[k].flags then RestartIfNeeded(w, s, k) else s, k + 1);
    }
  }

  lemma StepGood(w: World, s: Init, e: Event)
    requires Steady(w) && Good(w, s)
    ensures Good(w, Step(w, s, e))
  {
    if !s.rebooted {
      match e
      case Command(c) => ExecGood(w, s, c);
      case Ctl(name, dynamicArgs) =>
        if FindName(s.services, name) < |s.services| {
          StartGood(w, s, FindName(s.services, name), dynamicArgs);
        }
      case Exited(pid) =>
        var i := FindPid(s.services, pid);
        if pid != 0 && i < |s.services| {
          ReapedGood(w, s, i);
          ExecAllGood(w, Reaped(w, s, i).0, s.services[i].onrestart);
        }
      case RestartTick => RestartFromGood(w, s.(needsRestart := 0), 0);
    }
  }

  /** A service as parsed from the configuration: zeroed, and never started. */
  predicate Parsed(v: Service) {
    && v.pid == 0 && Running !in v.flags && Restarting !in v.flags
    && v.timeStarted == 0 && v.timeCrashed == 0 && v.nrCrashed == 0
  }

  /** init before its main loop. */
  ghost predicate Fresh(s: Init) {
    && (forall i | 0 <= i < |s.services| :: Parsed(s.services[i]))
    && s == Init(s.services, 0, 0, 0, 0, false)
  }

  /** The life cycle holds of every service in every state of every run. */
  lemma {:induction false} LifeCycleAlongRuns(w: World, s: Init, run: seq<Event>)
    requires Steady(w) && Good(w, s)
    ensures Good(w, Run(w, s, run))
    decreases |run|
  {
    if run != [] {
      StepGood(w, s, run[0]);
      LifeCycleAlongRuns(w, Step(w, s, run[0]), run[1..]);
    }
  }

  /** Every run from the start of init keeps the life cycle, and hands out no pid twice at a time. */
  lemma LifeCycleFromTheStart(w: World, s: Init, run: seq<Event>)
    requires Steady(w) && Fresh(s)
    ensures Good(w, Run(w, s, run))
    ensures forall i | 0 <= i < |s.services| :: LifeCycle(Run(w, s, run).services[i])
  {
    assert Good(w, s);
    LifeCycleAlongRuns(w, s, run);
    var f := Run(w, s, run);
    forall i | 0 <= i < |s.services| ensures LifeCycle(f.services[i]) {
      assert ServiceOk(f.services[i], f.lastPid, Latest(w, f));
    }
  }

  lemma {:induction false} RunConcat(w: World, s: Init, a: seq<Event>, b: seq<Event>)
    ensures Run(w, s, a + b) == Run(w, Run(w, s, a), b)
    decreases |a|
  {
    if a == [] {
      assert a + b == b;
    } else {
      assert (a + b)[0] == a[0] && (a + b)[1..] == a[1..] + b;
      RunConcat(w, Step(w, s, a[0]), a[1..], b);
    }
  }
}
