/** What holds of init's services over whole runs. */
module ServiceLaws {
  import opened Services

  // ---- what no operation changes ------------------------------------------

  /** The services and what the script says of them. */
  ghost predicate SameScript(s: Init, s': Init) {
    && |s'.services| == |s.services|
    && forall k | 0 <= k < |s.services| ::
         && s'.services[k].name == s.services[k].name
         && s'.services[k].group == s.services[k].group
         && s'.services[k].onrestart == s.services[k].onrestart
  }

  /** Only service `i` may have changed, and not in what the script says of it. */
  ghost predicate OnlyAt(s: Init, s': Init, i: nat)
    requires i < |s.services|
  {
    && SameScript(s, s')
    && (forall k | 0 <= k < |s.services| && k != i :: s'.services[k] == s.services[k])
    && s'.rebooted == s.rebooted
  }

  lemma StartOnly(w: World, s: Init, i: nat, dynamicArgs: bool)
    requires i < |s.services|
    ensures OnlyAt(s, Start(w, s, i, dynamicArgs), i)
    ensures SameCrashes(s.services[i], Start(w, s, i, dynamicArgs).services[i])
  {
  }

  lemma StopOnly(s: Init, i: nat, how: How)
    requires i < |s.services|
    ensures OnlyAt(s, Stop(s, i, how), i)
    ensures SameCrashes(s.services[i], Stop(s, i, how).services[i])
    ensures Stop(s, i, how).services[i].pid == s.services[i].pid
    ensures Stop(s, i, how).services[i].timeStarted == s.services[i].timeStarted
  {
  }

  // ---- which commands start a service -------------------------------------

  predicate SameCrashes(v: Service, v': Service) {
    v'.timeCrashed == v.timeCrashed && v'.nrCrashed == v.nrCrashed
  }

  /** Whether a command starts a service, other than through the restart timer. */
  predicate Starts(c: Command, v: Service) {
    || (c.DoStart? && c.name == v.name)
    || (c.DoRestart? && c.name == v.name)
  }

  ghost predicate NoneStarts(cs: seq<Command>, v: Service) {
    forall j | 0 <= j < |cs| :: !Starts(cs[j], v)
  }

  /** No service's onrestart commands start service `i`. */
  ghost predicate ScriptQuiet(s: Init, i: nat)
    requires i < |s.services|
  {
    forall k | 0 <= k < |s.services| :: NoneStarts(s.services[k].onrestart, s.services[i])
  }

  ghost predicate EventQuiet(e: Event, v: Service) {
    && (e.Command? ==> !Starts(e.command, v))
    && (e.Ctl? ==> e.name != v.name)
  }

  ghost predicate RunQuiet(run: seq<Event>, v: Service) {
    forall j | 0 <= j < |run| :: EventQuiet(run[j], v)
  }

  lemma QuietFrame(s: Init, s': Init, i: nat)
    requires i < |s.services| && SameScript(s, s') && ScriptQuiet(s, i)
    ensures ScriptQuiet(s', i)
  {
    forall k | 0 <= k < |s'.services| ensures NoneStarts(s'.services[k].onrestart, s'.services[i]) {
      assert NoneStarts(s.services[k].onrestart, s.services[i]);
    }
  }

  // ---- a stopped service stays stopped ------------------------------------

  /** Stopped, or gone for good: disabled and not waiting to restart. */
  predicate Stopped(v: Service) {
    Disabled in v.flags && Restarting !in v.flags
  }

  /** Service `i` is still stopped, and has no new process. */
  ghost predicate StaysStopped(s: Init, s': Init, i: nat)
    requires i < |s.services|
  {
    && SameScript(s, s')
    && (Stopped(s.services[i]) ==>
          Stopped(s'.services[i]) && (s'.services[i].pid == s.services[i].pid || s'.services[i].pid == 0))
  }

  lemma StopStays(s: Init, j: nat, how: How, i: nat)
    requires j < |s.services| && i < |s.services|
    ensures StaysStopped(s, Stop(s, j, how), i)
  {
    StopOnly(s, j, how);
  }

  lemma ClassOneStays(w: World, s: Init, j: nat, act: ClassAct, group: nat, i: nat)
    requires j < |s.services| && i < |s.services|
    ensures StaysStopped(s, ClassOne(w, s, j, act, group), i)
  {
    StopStays(s, j, HowDisabled, i);
    StopStays(s, j, HowReset, i);
    StartOnly(w, s, j, false);
  }

  lemma {:induction false} ClassStays(w: World, s: Init, k: nat, act: ClassAct, group: nat, i: nat)
    requires k <= |s.services| && i < |s.services|
    ensures StaysStopped(s, ClassFrom(w, s, k, act, group), i)
    decreases |s.services| - k
  {
    if k < |s.services| {
      ClassOneStays(w, s, k, act, group, i);
      ClassStays(w, ClassOne(w, s, k, act, group), k + 1, act, group, i);
    }
  }

  lemma ExecStays(w: World, s: Init, c: Command, i: nat)
    requires i < |s.services| && !Starts(c, s.services[i])
    ensures StaysStopped(s, Exec(w, s, c), i)
  {
    if c.DoClass? {
      ClassStays(w, s, 0, c.act, c.group, i);
    } else {
      var j := FindName(s.services, c.name);
      if j < |s.services| {
        StartOnly(w, s, j, false);
        StopStays(s, j, HowDisabled, i);
        StopOnly(s, j, HowRestart);
      }
    }
  }

  lemma {:induction false} ExecAllStays(w: World, s: Init, cs: seq<Command>, i: nat)
    requires i < |s.services| && NoneStarts(cs, s.services[i])
    ensures StaysStopped(s, ExecAll(w, s, cs), i)
    decreases |cs|
  {
    if cs != [] {
      ExecStays(w, s, cs[0], i);
      ExecAllStays(w, Exec(w, s, cs[0]), cs[1..], i);
    }
  }

  lemma ReapedStays(w: World, s: Init, j: nat, i: nat)
    requires j < |s.services| && i < |s.services|
    ensures StaysStopped(s, Reaped(w, s, j).0, i)
  {
  }

  lemma {:induction false} RestartFromStays(w: World, s: Init, k: nat, i: nat)
    requires k <= |s.services| && i < |s.services|
    ensures StaysStopped(s, RestartFrom(w, s, k), i)
    decreases |s.services| - k
  {
    if k < |s.services| {
      var s1 := if Restarting in s.services[k].flags then RestartIfNeeded(w, s, k) else s;
      RestartIfNeededOnly(w, s, k);
      RestartFromStays(w, s1, k + 1, i);
    }
  }

  lemma RestartIfNeededOnly(w: World, s: Init, k: nat)
    requires k < |s.services|
    ensures OnlyAt(s, RestartIfNeeded(w, s, k), k)
    ensures SameCrashes(s.services[k], RestartIfNeeded(w, s, k).services[k])
  {
    hide Start;
    var v := s.services[k];
    StartOnly(w, Put(s.(readings := s.readings + 1), k, v.(flags := v.flags - {Restarting})), k, false);
  }

  lemma StepStays(w: World, s: Init, e: Event, i: nat)
    requires i < |s.services| && ScriptQuiet(s, i) && EventQuiet(e, s.services[i])
    ensures StaysStopped(s, Step(w, s, e), i)
  {
    if !s.rebooted {
      match e
      case Command(c) => ExecStays(w, s, c, i);
      case Ctl(name, dynamicArgs) =>
        var j := FindName(s.services, name);
        if j < |s.services| {
          StartOnly(w, s, j, dynamicArgs);
        }
      case Exited(pid) =>
        var j := FindPid(s.services, pid);
        if pid != 0 && j < |s.services| {
          ReapedStays(w, s, j, i);
          assert NoneStarts(s.services[j].onrestart, s.services[i]);
          ExecAllStays(w, Reaped(w, s, j).0, s.services[j].onrestart, i);
        }
      case RestartTick => RestartFromStays(w, s.(needsRestart := 0), 0, i);
    }
  }

  /** After a stop, no sequence of exits, restart ticks, class starts, class
      resets and commands to other services gives a service a new process,
      until it is started or restarted by name. */
  lemma {:induction false} StoppedUntilStarted(w: World, s: Init, run: seq<Event>, i: nat)
    requires i < |s.services| && Stopped(s.services[i])
    requires ScriptQuiet(s, i) && RunQuiet(run, s.services[i])
    ensures StaysStopped(s, Run(w, s, run), i)
    decreases |run|
  {
    if run != [] {
      StepStays(w, s, run[0], i);
      QuietFrame(s, Step(w, s, run[0]), i);
      StoppedUntilStarted(w, Step(w, s, run[0]), run[1..], i);
    }
  }

  /** A stop, and a plain exit of a one-shot service, lead to that state. */
  lemma StopsAreStopped(w: World, s: Init, i: nat)
    requires i < |s.services|
    ensures Stopped(Stop(s, i, HowDisabled).services[i])
    ensures LifeCycle(s.services[i]) && s.services[i].pid != 0 && Oneshot in s.services[i].flags && Restart !in s.services[i].flags ==>
      !Reaped(w, s, i).1 && Stopped(Reaped(w, s, i).0.services[i])
  {
  }

  // ---- the crash window ---------------------------------------------------

  /** The counter after crashes at these times. */
  function Fold(c: Crashes, times: seq<int>): Crashes
    decreases |times|
  {
    if times == [] then c else Fold(Crash(c, times[0]).0, times[1..])
  }

  /** Whether none of these crashes is one too many. */
  predicate Survives(c: Crashes, times: seq<int>)
    decreases |times|
  {
    times == [] || (!Crash(c, times[0]).1 && Survives(Crash(c, times[0]).0, times[1..]))
  }

  ghost predicate Ascending(times: seq<int>) {
    forall i, j | 0 <= i <= j < |times| :: times[i] <= times[j]
  }

  /** How many of the times lie in the window that starts at `from`. */
  function InSpan(times: seq<int>, from: int): nat {
    if times == [] then 0
    else (if from <= times[0] <= from + CRASH_WINDOW then 1 else 0) + InSpan(times[1..], from)
  }

  lemma {:induction false} InSpanConcat(a: seq<int>, b: seq<int>, from: int)
    ensures InSpan(a + b, from) == InSpan(a, from) + InSpan(b, from)
    decreases |a|
  {
    if a == [] {
      assert a + b == b;
    } else {
      assert (a + b)[1..] == a[1..] + b;
      InSpanConcat(a[1..], b, from);
    }
  }

  lemma {:induction false} InSpanBound(times: seq<int>, from: int)
    ensures InSpan(times, from) <= |times|
    decreases |times|
  {
    if times != [] {
      InSpanBound(times[1..], from);
    }
  }

  lemma {:induction false} InSpanNone(times: seq<int>, from: int)
    requires forall i | 0 <= i < |times| :: times[i] < from
    ensures InSpan(times, from) == 0
    decreases |times|
  {
    if times != [] {
      InSpanNone(times[1..], from);
    }
  }

  /** What is known after the crashes `earlier + current`, where `current` are
      those the counter counts: they lie in its window, those before it do not
      lie after its start, and any span that reaches it holds at most four of those. */
  ghost predicate Windowed(c: Crashes, earlier: seq<int>, current: seq<int>) {
    && 0 <= c.count <= CRASH_THRESHOLD && |current| == c.count
    && (forall i | 0 <= i < |current| :: c.since <= current[i] <= c.since + CRASH_WINDOW)
    && (forall i | 0 <= i < |earlier| :: earlier[i] <= c.since)
    && (forall from | from + CRASH_WINDOW >= c.since :: InSpan(earlier, from) <= CRASH_THRESHOLD)
    && (forall from :: InSpan(earlier + current, from) <= 2 * CRASH_THRESHOLD)
  }

  /** Another crash inside the window. */
  lemma WindowedSame(c: Crashes, earlier: seq<int>, current: seq<int>, now: int)
    requires Windowed(c, earlier, current) && c.since <= now <= c.since + CRASH_WINDOW && c.count < CRASH_THRESHOLD
    ensures Windowed(c.(count := c.count + 1), earlier, current + [now])
  {
    forall from ensures InSpan(earlier + (current + [now]), from) <= 2 * CRASH_THRESHOLD {
      assert earlier + (current + [now]) == (earlier + current) + [now];
      InSpanConcat(earlier + current, [now], from);
      InSpanConcat(earlier, current, from);
      InSpanBound(current, from);
      assert InSpan(earlier + current, from) <= 2 * CRASH_THRESHOLD;
      assert InSpan([now], from) == if from <= now <= from + CRASH_WINDOW then 1 else 0;
    }
  }

  /** A crash after the window: it starts the next one. */
  lemma WindowedNext(c: Crashes, earlier: seq<int>, current: seq<int>, now: int)
    requires Windowed(c, earlier, current) && c.since + CRASH_WINDOW < now
    ensures Windowed(Crashes(now, 1), earlier + current, [now])
  {
    var all := earlier + current;
    forall from | from + CRASH_WINDOW >= now ensures InSpan(all, from) <= CRASH_THRESHOLD {
      InSpanConcat(earlier, current, from);
      InSpanNone(earlier, from);
      InSpanBound(current, from);
    }
    forall from ensures InSpan(all + [now], from) <= 2 * CRASH_THRESHOLD {
      InSpanConcat(all, [now], from);
      assert InSpan(all, from) <= 2 * CRASH_THRESHOLD;
      assert InSpan([now], from) == if from <= now <= from + CRASH_WINDOW then 1 else 0;
    }
  }

  lemma {:induction false} WindowedFold(c: Crashes, earlier: seq<int>, current: seq<int>, times: seq<int>)
      returns (e: seq<int>, cur: seq<int>)
    requires Windowed(c, earlier, current) && Ascending(times) && Survives(c, times)
    requires times != [] ==> c.since <= times[0]
    ensures Windowed(Fold(c, times), e, cur) && e + cur == earlier + current + times
    decreases |times|
  {
    if times == [] {
      e, cur := earlier, current;
    } else {
      var now := times[0];
      var c1 := Crash(c, now).0;
      assert Ascending(times[1..]);
      if c.since + CRASH_WINDOW >= now {
        WindowedSame(c, earlier, current, now);
        e, cur := WindowedFold(c1, earlier, current + [now], times[1..]);
        assert earlier + (current + [now]) + times[1..] == earlier + current + times;
      } else {
        WindowedNext(c, earlier, current, now);
        e, cur := WindowedFold(c1, earlier + current, [now], times[1..]);
        assert (earlier + current) + [now] + times[1..] == earlier + current + times;
      }
    }
  }

  /** Crashes that never add up to a reboot: at most four are counted at any
      time, and any 240-second span holds at most eight of them. */
  lemma SurvivingCrashes(times: seq<int>, from: int)
    requires Ascending(times) && (times != [] ==> times[0] >= 0) && Survives(Crashes(0, 0), times)
    ensures 0 <= Fold(Crashes(0, 0), times).count <= CRASH_THRESHOLD
    ensures InSpan(times, from) <= 2 * CRASH_THRESHOLD
  {
    var e, cur := WindowedFold(Crashes(0, 0), [], [], times);
    assert e + cur == times;
  }

  /** The crash that forces the reboot is the fifth of a single 240-second span. */
  lemma RebootMeansFiveCrashes(times: seq<int>, now: int)
    requires Ascending(times) && (times != [] ==> 0 <= times[0] && times[|times| - 1] <= now) && 0 <= now
    requires Survives(Crashes(0, 0), times) && Crash(Fold(Crashes(0, 0), times), now).1
    ensures InSpan(times + [now], Fold(Crashes(0, 0), times).since) >= CRASH_THRESHOLD + 1
  {
    var e, cur := WindowedFold(Crashes(0, 0), [], [], times);
    var since := Fold(Crashes(0, 0), times).since;
    assert e + cur == times;
    FoldSince(Crashes(0, 0), times, now);
    FiveInSpan(e, cur, since, now);
  }

  lemma FiveInSpan(e: seq<int>, cur: seq<int>, since: int, now: int)
    requires forall i | 0 <= i < |cur| :: since <= cur[i] <= since + CRASH_WINDOW
    requires |cur| == CRASH_THRESHOLD && since <= now <= since + CRASH_WINDOW
    ensures InSpan(e + cur + [now], since) >= CRASH_THRESHOLD + 1
  {
    InSpanConcat(e + cur, [now], since);
    InSpanConcat(e, cur, since);
    InSpanAll(cur, since);
    InSpanAll([now], since);
  }

  lemma {:induction false} FoldSince(c: Crashes, times: seq<int>, now: int)
    requires c.since <= now && forall i | 0 <= i < |times| :: times[i] <= now
    ensures Fold(c, times).since <= now
    decreases |times|
  {
    if times != [] {
      FoldSince(Crash(c, times[0]).0, times[1..], now);
    }
  }

  lemma {:induction false} InSpanAll(times: seq<int>, from: int)
    requires forall i | 0 <= i < |times| :: from <= times[i] <= from + CRASH_WINDOW
    ensures InSpan(times, from) == |times|
    decreases |times|
  {
    if times != [] {
      InSpanAll(times[1..], from);
    }
  }

  // ---- the crash window, along runs ---------------------------------------

  /** The time of the counted crash of service `i` in this step, if there is one. */
  function CrashIn(w: World, s: Init, e: Event, i: nat): seq<int>
    requires i < |s.services|
  {
    if !s.rebooted && e.Exited? && e.pid != 0 && FindPid(s.services, e.pid) == i && Counts(Gone(s.services[i]))
    then [w.clock(s.readings)] else []
  }

  function CrashLog(w: World, s: Init, run: seq<Event>, i: nat): seq<int>
    requires i < |s.services|
    decreases |run|
  {
    if run == [] then [] else CrashIn(w, s, run[0], i) + CrashLog(w, Step(w, s, run[0]), run[1..], i)
  }

  function CounterOf(v: Service): Crashes {
    Crashes(v.timeCrashed, v.nrCrashed)
  }

  /** The crash counter of service `i` is as it was. */
  ghost predicate Uncounted(s: Init, s': Init, i: nat)
    requires i < |s.services|
  {
    && |s'.services| == |s.services| && s'.readings >= s.readings && s'.rebooted == s.rebooted
    && CounterOf(s'.services[i]) == CounterOf(s.services[i])
  }

  lemma ExecUncounted(w: World, s: Init, c: Command, i: nat)
    requires i < |s.services|
    ensures Uncounted(s, Exec(w, s, c), i)
  {
    if c.DoClass? {
      ClassUncounted(w, s, 0, c.act, c.group, i);
    }
  }

  lemma {:induction false} ClassUncounted(w: World, s: Init, k: nat, act: ClassAct, group: nat, i: nat)
    requires i < |s.services| && k <= |s.services|
    ensures Uncounted(s, ClassFrom(w, s, k, act, group), i)
    decreases |s.services| - k
  {
    if k < |s.services| {
      ClassUncounted(w, ClassOne(w, s, k, act, group), k + 1, act, group, i);
    }
  }

  lemma {:induction false} ExecAllUncounted(w: World, s: Init, cs: seq<Command>, i: nat)
    requires i < |s.services|
    ensures Uncounted(s, ExecAll(w, s, cs), i)
    decreases |cs|
  {
    if cs != [] {
      ExecUncounted(w, s, cs[0], i);
      ExecAllUncounted(w, Exec(w, s, cs[0]), cs[1..], i);
    }
  }

  lemma {:induction false} RestartUncounted(w: World, s: Init, k: nat, i: nat)
    requires i < |s.services| && k <= |s.services|
    ensures Uncounted(s, RestartFrom(w, s, k), i)
    decreases |s.services| - k
  {
    if k < |s.services| {
      RestartUncounted(w, if Restarting in s.services[k].flags then RestartIfNeeded(w, s, k) else s, k + 1, i);
    }
  }

  /** Only a counted crash moves the counter, and only one too many reboots. */
  lemma StepCounts(w: World, s: Init, e: Event, i: nat)
    requires i < |s.services|
    ensures
      var s' := Step(w, s, e);
      var log := CrashIn(w, s, e, i);
      && s'.readings >= s.readings
      && CounterOf(s'.services[i]) == Fold(CounterOf(s.services[i]), log)
      && (log != [] ==> s'.readings > s.readings && (s'.rebooted <==> Crash(CounterOf(s.services[i]), log[0]).1))
  {
    if !s.rebooted {
      match e
      case Command(c) => ExecUncounted(w, s, c, i);
      case Ctl(_, _) =>
      case Exited(pid) =>
        var j := FindPid(s.services, pid);
        if pid != 0 && j < |s.services| {
          ExecAllUncounted(w, Reaped(w, s, j).0, s.services[j].onrestart, i);
        }
      case RestartTick => RestartUncounted(w, s.(needsRestart := 0), 0, i);
    }
  }

  lemma {:induction false} Rebooted(w: World, s: Init, run: seq<Event>, i: nat)
    requires i < |s.services| && s.rebooted
    ensures Run(w, s, run) == s && CrashLog(w, s, run, i) == []
    decreases |run|
  {
    if run != [] {
      Rebooted(w, s, run[1..], i);
    }
  }

  /** Along a run without reboot the counter is the fold of the logged crashes. */
  lemma {:induction false} CounterFollowsLog(w: World, s: Init, run: seq<Event>, i: nat)
    requires i < |s.services| && Steady(w) && !Run(w, s, run).rebooted
    ensures
      var log := CrashLog(w, s, run, i);
      && CounterOf(Run(w, s, run).services[i]) == Fold(CounterOf(s.services[i]), log)
      && Survives(CounterOf(s.services[i]), log) && Ascending(log)
      && (forall k | 0 <= k < |log| :: log[k] >= w.clock(s.readings))
    decreases |run|
  {
    hide Step;
    if run != [] {
      var s1 := Step(w, s, run[0]);
      if s1.rebooted {
        Rebooted(w, s1, run[1..], i);
      }
      StepCounts(w, s, run[0], i);
      CounterFollowsLog(w, s1, run[1..], i);
      LogStep(w, s, run, i);
      FoldHead(CounterOf(s.services[i]), CrashIn(w, s, run[0], i), CrashLog(w, s1, run[1..], i));
    }
  }

  lemma FoldHead(c: Crashes, head: seq<int>, rest: seq<int>)
    requires |head| <= 1
    ensures Fold(c, head + rest) == Fold(Fold(c, head), rest)
    ensures Survives(c, head + rest) <==> (head != [] ==> !Crash(c, head[0]).1) && Survives(Fold(c, head), rest)
  {
    if head == [] {
      assert head + rest == rest;
    } else {
      assert (head + rest)[1..] == rest && (head + rest)[0] == head[0];
      assert Fold(c, head) == Crash(c, head[0]).0;
    }
  }

  lemma LogStep(w: World, s: Init, run: seq<Event>, i: nat)
    requires i < |s.services| && Steady(w) && run != []
    requires
      var s1 := Step(w, s, run[0]);
      var rest := CrashLog(w, s1, run[1..], i);
      Ascending(rest) && s1.readings >= s.readings && forall k | 0 <= k < |rest| :: rest[k] >= w.clock(s1.readings)
    ensures
      var log := CrashLog(w, s, run, i);
      Ascending(log) && forall k | 0 <= k < |log| :: log[k] >= w.clock(s.readings)
  {
    var s1 := Step(w, s, run[0]);
    assert w.clock(s1.readings) >= w.clock(s.readings);
  }

  /** A critical service that has not forced recovery: at most four crashes are
      counted against it, and it has had at most eight in any 240-second span. */
  lemma AtMostEightCrashes(w: World, s: Init, run: seq<Event>, i: nat, from: int)
    requires i < |s.services| && Steady(w) && s.readings == 0 && !Run(w, s, run).rebooted
    requires s.services[i].timeCrashed == 0 && s.services[i].nrCrashed == 0
    ensures Run(w, s, run).services[i].nrCrashed <= CRASH_THRESHOLD
    ensures InSpan(CrashLog(w, s, run, i), from) <= 2 * CRASH_THRESHOLD
  {
    CounterFollowsLog(w, s, run, i);
    SurvivingCrashes(CrashLog(w, s, run, i), from);
  }

  /** A reboot for service `i` follows five of its crashes within one 240-second span. */
  lemma RebootAfterFiveCrashes(w: World, s: Init, run: seq<Event>, e: Event, i: nat)
    requires i < |s.services| && Steady(w) && s.readings == 0 && !Run(w, s, run).rebooted
    requires s.services[i].timeCrashed == 0 && s.services[i].nrCrashed == 0
    requires CrashIn(w, Run(w, s, run), e, i) != [] && Step(w, Run(w, s, run), e).rebooted
    ensures exists from :: InSpan(CrashLog(w, s, run, i) + CrashIn(w, Run(w, s, run), e, i), from) >= CRASH_THRESHOLD + 1
  {
    CounterFollowsLog(w, s, run, i);
    var log := CrashLog(w, s, run, i);
    var now := CrashIn(w, Run(w, s, run), e, i)[0];
    StepCounts(w, Run(w, s, run), e, i);
    LogBefore(w, s, run, i);
    assert w.clock(0) <= now;
    RebootMeansFiveCrashes(log, now);
    assert CrashIn(w, Run(w, s, run), e, i) == [now];
  }

  /** Logged crashes are read from the clock before the run ends. */
  lemma {:induction false} LogBefore(w: World, s: Init, run: seq<Event>, i: nat)
    requires i < |s.services| && Steady(w)
    ensures Run(w, s, run).readings >= s.readings
    ensures forall k | 0 <= k < |CrashLog(w, s, run, i)| :: CrashLog(w, s, run, i)[k] <= w.clock(Run(w, s, run).readings)
    decreases |run|
  {
    if run != [] {
      StepCounts(w, s, run[0], i);
      LogBefore(w, Step(w, s, run[0]), run[1..], i);
      assert w.clock(s.readings) <= w.clock(Run(w, s, run).readings);
    }
  }

  // ---- the bound is reached -----------------------------------------------

  /** A clock that shows each time twice: when a process is started and when it crashes. */
  function Clock(times: seq<int>, reading: nat): int {
    if reading / 2 < |times| then times[reading / 2]
    else if times == [] then 0 else times[|times| - 1]
  }

  function CrashWorld(times: seq<int>): World {
    World((reading: nat) => Clock(times, reading), (attempt: nat) => Fate(true, true, true, true))
  }

  lemma CrashWorldSteady(times: seq<int>)
    requires Ascending(times) && (times != [] ==> 0 <= times[0])
    ensures Steady(CrashWorld(times))
  {
    forall i: nat, j: nat | i <= j ensures Clock(times, i) <= Clock(times, j) {
      assert i / 2 <= j / 2;
    }
    assert 0 / 2 == 0;
  }

  /** init with one critical service that has been started and has crashed `n` times. */
  function Crashed(n: nat, started: int, c: Crashes): Init {
    var flags := if n == 0 then {Critical} else {Critical, Restarting};
    Init([Service(0, 0, flags, 0, started, c.since, c.count, [])], 0, 2 * n, n, n, false)
  }

  function Round(n: nat): seq<Event> {
    [Event.Command(DoStart(0)), Exited(n + 1)]
  }

  function Rounds(n: nat, last: nat): seq<Event>
    requires n <= last
    decreases last - n
  {
    if n == last then [] else Round(n) + Rounds(n + 1, last)
  }

  lemma RoundStarts(w: World, n: nat, started: int, c: Crashes)
    requires w.fate(n) == Fate(true, true, true, true)
    ensures
      var s := Crashed(n, started, c);
      Step(w, s, Round(n)[0]) ==
      Init([Service(0, 0, {Critical, Running}, n + 1, w.clock(2 * n), c.since, c.count, [])], 0, 2 * n + 1, n + 1, n + 1, false)
  {
    var s := Crashed(n, started, c);
    var v := s.services[0];
    assert v.flags - {Disabled, Restarting, Reset, Restart} == {Critical};
    assert {Critical} + {Running} == {Critical, Running};
    assert FindName(s.services, 0) == 0;
    assert Step(w, s, Round(n)[0]) == Start(w, s, 0, false);
  }

  lemma RoundCrashes(w: World, n: nat, started: int, c: Crashes)
    requires !Crash(c, w.clock(2 * n + 1)).1
    ensures
      var s := Init([Service(0, 0, {Critical, Running}, n + 1, started, c.since, c.count, [])], 0, 2 * n + 1, n + 1, n + 1, false);
      && Step(w, s, Exited(n + 1)) == Crashed(n + 1, started, Crash(c, w.clock(2 * n + 1)).0)
      && CrashIn(w, s, Exited(n + 1), 0) == [w.clock(2 * n + 1)]
  {
    var v := Service(0, 0, {Critical, Running}, n + 1, started, c.since, c.count, []);
    var s := Init([v], 0, 2 * n + 1, n + 1, n + 1, false);
    assert v.flags - {Running} == {Critical};
    assert Gone(v) == v.(pid := 0, flags := {Critical});
    assert {Critical} - {Restart} + {Restarting} == {Critical, Restarting};
    assert FindPid(s.services, n + 1) == 0;
    var c' := Crash(c, w.clock(2 * n + 1)).0;
    var v' := v.(pid := 0, flags := {Critical, Restarting}, timeCrashed := c'.since, nrCrashed := c'.count);
    assert [v][0 := v'] == [v'] && Counts(Gone(v));
    assert Reaped(w, s, 0) == (Crashed(n + 1, started, c'), true);
  }

  lemma {:induction false} RoundsReach(times: seq<int>, n: nat, started: int, c: Crashes)
    requires n <= |times| && Survives(c, times[n..])
    ensures
      var w := CrashWorld(times);
      var s := Crashed(n, started, c);
      && !Run(w, s, Rounds(n, |times|)).rebooted
      && CrashLog(w, s, Rounds(n, |times|), 0) == times[n..]
    decreases |times| - n
  {
    hide Step, CrashIn, Crash;
    if n < |times| {
      var w := CrashWorld(times);
      var s := Crashed(n, started, c);
      var now := times[n];
      assert times[n..][0] == now && times[n..][1..] == times[n + 1..];
      assert (2 * n) / 2 == n && (2 * n + 1) / 2 == n;
      assert w.clock(2 * n) == now && w.clock(2 * n + 1) == now;
      RoundStarts(w, n, started, c);
      var s1 := Step(w, s, Round(n)[0]);
      RoundCrashes(w, n, now, c);
      RoundsReach(times, n + 1, now, Crash(c, now).0);
      var rest := Rounds(n + 1, |times|);
      var run := Rounds(n, |times|);
      assert run[0] == Round(n)[0] && run[1] == Round(n)[1] && run[1..][1..] == rest;
      StartIsNoCrash(w, s, run[0]);
      assert times[n..] == [now] + times[n + 1..];
    }
  }

  lemma StartIsNoCrash(w: World, s: Init, e: Event)
    requires |s.services| > 0 && !e.Exited?
    ensures CrashIn(w, s, e, 0) == []
  {
  }

  /** All crash times that force no reboot are the crashes of a run of init, from a service as it is parsed. */
  lemma SurvivingTimesAreReached(times: seq<int>) returns (w: World, s: Init, run: seq<Event>)
    requires Ascending(times) && (times != [] ==> 0 <= times[0]) && Survives(Crashes(0, 0), times)
    ensures Steady(w) && Fresh(s) && |s.services| == 1
    ensures !Run(w, s, run).rebooted && CrashLog(w, s, run, 0) == times
  {
    hide Run, CrashLog, Survives;
    CrashWorldSteady(times);
    assert times[0..] == times;
    RoundsReach(times, 0, 0, Crashes(0, 0));
    w, s, run := CrashWorld(times), Crashed(0, 0, Crashes(0, 0)), Rounds(0, |times|);
  }

  /** Four crashes just before the end of a window and four just after. */
  function EightTimes(): seq<int> {
    [240, 240, 240, 240] + [241, 241, 241, 241]
  }

  lemma EightTimesSurvive()
    ensures Survives(Crashes(0, 0), EightTimes()) && Ascending(EightTimes()) && EightTimes()[0] == 240
  {
    var b := [241, 241, 241, 241];
    assert b[1..] == [241, 241, 241] && Survives(Crashes(241, 1), [241, 241, 241]);
    assert Survives(Crashes(0, 4), b);
    assert Survives(Crashes(0, 2), [240, 240] + b);
    assert EightTimes()[1..] == [240, 240, 240] + b && ([240, 240, 240] + b)[1..] == [240, 240] + b;
    assert Survives(Crashes(0, 1), [240, 240, 240] + b);
  }

  lemma EightTimesInSpan()
    ensures InSpan(EightTimes(), 240) == 8
  {
    InSpanConcat([240, 240, 240, 240], [241, 241, 241, 241], 240);
    InSpanAll([240, 240, 240, 240], 240);
    InSpanAll([241, 241, 241, 241], 240);
  }

  /** Eight is reached by init itself: a run from a service as it is parsed, with
      eight crashes in one 240-second span and no reboot. */
  lemma EightCrashesSurvive() returns (w: World, s: Init, run: seq<Event>)
    ensures Steady(w) && Fresh(s) && |s.services| == 1
    ensures !Run(w, s, run).rebooted && InSpan(CrashLog(w, s, run, 0), 240) == 2 * CRASH_THRESHOLD
  {
    hide Run, CrashLog, InSpan, Survives;
    EightTimesSurvive();
    EightTimesInSpan();
    w, s, run := SurvivingTimesAreReached(EightTimes());
  }
}
