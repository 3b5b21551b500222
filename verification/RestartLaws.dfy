/** When init restarts services by itself. */
module RestartLaws {
  import opened Services
  import opened ServiceLaws

  // ---- process_needs_restart ----------------------------------------------

  /** `needs` is the earliest start time of the first `k` services that wait to restart, or zero. */
  ghost predicate Earliest(needs: int, services: seq<Service>, k: nat)
    requires k <= |services|
  {
    && (needs == 0 <==> forall j | 0 <= j < k :: Restarting !in services[j].flags)
    && (needs != 0 ==> exists j | 0 <= j < k ::
          Restarting in services[j].flags && services[j].timeStarted + RESTART_DELAY == needs)
    && (forall j | 0 <= j < k && Restarting in services[j].flags :: needs <= services[j].timeStarted + RESTART_DELAY)
  }

  lemma EarliestStep(w: World, s: Init, k: nat)
    requires Steady(w) && Good(w, s) && k < |s.services| && Earliest(s.needsRestart, s.services, k)
    requires Restarting in s.services[k].flags
    ensures
      var s' := RestartIfNeeded(w, s, k);
      Earliest(s'.needsRestart, s'.services, k + 1)
  {
    assert ServiceOk(s.services[k], s.lastPid, Latest(w, s));
    RestartIfNeededOnly(w, s, k);
    var v := s.services[k];
    var s1 := s.(readings := s.readings + 1);
    var s' := RestartIfNeeded(w, s, k);
    if v.timeStarted + RESTART_DELAY <= w.clock(s.readings) {
      EarliestStarted(w, s1, k);
    } else {
      EarliestPending(s, s', k);
    }
  }

  lemma EarliestStarted(w: World, s: Init, k: nat)
    requires k < |s.services| && Earliest(s.needsRestart, s.services, k)
    ensures
      var v := s.services[k];
      var s' := Start(w, Put(s, k, v.(flags := v.flags - {Restarting})), k, false);
      Earliest(s'.needsRestart, s'.services, k + 1)
  {
    var v := s.services[k];
    var s1 := Put(s, k, v.(flags := v.flags - {Restarting}));
    StartOnly(w, s1, k, false);
    var s' := Start(w, s1, k, false);
    assert s'.needsRestart == s.needsRestart && Restarting !in s'.services[k].flags;
    EarliestFrame(s.needsRestart, s.services, s'.services, k);
  }

  lemma EarliestFrame(needs: int, services: seq<Service>, services': seq<Service>, k: nat)
    requires k < |services| == |services'| && Earliest(needs, services, k) && Restarting !in services'[k].flags
    requires forall j | 0 <= j < k :: services'[j] == services[j]
    ensures Earliest(needs, services', k + 1)
  {
    if needs != 0 {
      var j :| 0 <= j < k && Restarting in services[j].flags && services[j].timeStarted + RESTART_DELAY == needs;
      assert services'[j] == services[j];
    }
  }

  lemma EarliestPending(s: Init, s': Init, k: nat)
    requires k < |s.services| && Earliest(s.needsRestart, s.services, k) && s'.services == s.services
    requires Restarting in s.services[k].flags && 0 <= s.services[k].timeStarted
    requires
      var next := s.services[k].timeStarted + RESTART_DELAY;
      s'.needsRestart == if next < s.needsRestart || s.needsRestart == 0 then next else s.needsRestart
    ensures Earliest(s'.needsRestart, s'.services, k + 1)
  {
    if s.needsRestart != 0 {
      var j :| 0 <= j < k && Restarting in s.services[j].flags && s.services[j].timeStarted + RESTART_DELAY == s.needsRestart;
    }
  }

  lemma {:induction false} RestartFromEarliest(w: World, s: Init, k: nat)
    requires Steady(w) && Good(w, s) && k <= |s.services| && Earliest(s.needsRestart, s.services, k)
    ensures
      var s' := RestartFrom(w, s, k);
      Earliest(s'.needsRestart, s'.services, |s'.services|)
    decreases |s.services| - k
  {
    hide Earliest, RestartIfNeeded, Good;
    if k < |s.services| {
      if Restarting in s.services[k].flags {
        EarliestStep(w, s, k);
        RestartIfNeededGood(w, s, k);
        RestartIfNeededOnly(w, s, k);
        RestartFromEarliest(w, RestartIfNeeded(w, s, k), k + 1);
      } else {
        EarliestFrame(s.needsRestart, s.services, s.services, k);
        RestartFromEarliest(w, s, k + 1);
      }
    }
  }

  /** After restart_processes, process_needs_restart is zero exactly when nothing
      waits to restart, and otherwise the earliest pending start. */
  lemma NeedsRestartIsEarliest(w: World, s: Init)
    requires Steady(w) && Good(w, s)
    ensures
      var s' := RestartProcesses(w, s);
      Earliest(s'.needsRestart, s'.services, |s'.services|)
  {
    var s0 := s.(needsRestart := 0);
    assert Good(w, s0);
    RestartFromEarliest(w, s0, 0);
  }

  /** The poll that follows ends no later than the pending start, and waits for
      ever only if there is none. */
  lemma PollMeetsTheRestart(w: World, s: Init, busy: bool)
    requires Steady(w) && Good(w, s)
    ensures
      var s' := RestartProcesses(w, s);
      var now := w.clock(s'.readings);
      var timeout := PollTimeout(s'.needsRestart, now, busy);
      && (timeout == -1 <==> !busy && forall j | 0 <= j < |s'.services| :: Restarting !in s'.services[j].flags)
      && -1 <= timeout <= RESTART_DELAY * 1000 && (busy ==> timeout == 0)
      && (!busy && s'.needsRestart > now ==> now * 1000 + timeout == s'.needsRestart * 1000)
      && (s'.needsRestart != 0 && s'.needsRestart <= now ==> timeout == 0)
  {
    hide RestartProcesses;
    NeedsRestartIsEarliest(w, s);
    StepGoodTick(w, s);
    var s' := RestartProcesses(w, s);
    if s'.needsRestart != 0 {
      var j :| 0 <= j < |s'.services| && Restarting in s'.services[j].flags
            && s'.services[j].timeStarted + RESTART_DELAY == s'.needsRestart;
      assert ServiceOk(s'.services[j], s'.lastPid, Latest(w, s'));
      assert Latest(w, s') <= w.clock(s'.readings);
    }
  }

  lemma StepGoodTick(w: World, s: Init)
    requires Steady(w) && Good(w, s)
    ensures Good(w, RestartProcesses(w, s))
  {
    var s0 := s.(needsRestart := 0);
    assert Good(w, s0);
    RestartFromGood(w, s0, 0);
  }
}
