/** Bridges that exit again during a backoff: which of these exits can lead to an orphaned bridge. The
    others leave at most a timer whose run is gone, and the manager without such timers is one that
    keeps the joint invariant. */
module SupervisionStrays {
  import opened Wrappers
  import opened Supervision
  import opened SupervisionSafety
  import opened SupervisionHistory
  import opened SupervisionRuns
  import opened SupervisionEdges

  // ----- The manager does not look at the timers -----

  /** The state with the timers `gone` struck out. */
  function Drop(s: State, gone: set<TimerId>): State {
    s.(timers := s.timers - gone)
  }

  /** A routine leads from `s` to `z`, and without the timers `gone` to `w`, as it should. */
  ghost predicate Commutes(s: State, z: State, w: State, gone: set<TimerId>) {
    && w == Drop(z, gone) && s.nextTimer <= z.nextTimer
    && forall t :: t in gone && t in z.timers ==> t in s.timers && z.timers[t] == s.timers[t]
  }

  ghost predicate Old(s: State, gone: set<TimerId>) {
    forall t :: t in gone ==> t < s.nextTimer
  }

  lemma Then(s: State, y: State, z: State, w: State, gone: set<TimerId>)
    requires Commutes(s, y, Drop(y, gone), gone) && Commutes(y, z, w, gone)
    ensures Commutes(s, z, w, gone)
  {
  }

  /** Nothing is done to the timers. */
  lemma StillCommutes(s: State, z: State, w: State, gone: set<TimerId>)
    requires z.timers == s.timers && z.nextTimer == s.nextTimer && w == z.(timers := s.timers - gone)
    ensures Commutes(s, z, w, gone)
  {
  }

  lemma ClearCommutes(s: State, t: Option<TimerId>, gone: set<TimerId>)
    ensures Commutes(s, ClearTimer(s, t), ClearTimer(Drop(s, gone), t), gone)
  {
    if t.Some? { assert s.timers - gone - {t.value} == s.timers - {t.value} - gone; }
  }

  lemma ArmCommutes(s: State, delay: int, alarm: Alarm, gone: set<TimerId>)
    requires Old(s, gone)
    ensures Commutes(s, Arm(s, delay, alarm), Arm(Drop(s, gone), delay, alarm), gone)
  {
    var v := Timer(s.now + delay, alarm);
    assert (s.timers - gone)[s.nextTimer := v] == s.timers[s.nextTimer := v] - gone;
  }

  lemma StopBridgeCommutes(s: State, b: Option<BridgeId>, gone: set<TimerId>)
    ensures Commutes(s, StopBridge(s, b), StopBridge(Drop(s, gone), b), gone)
  {
  }

  lemma CloseBridgeCommutes(s: State, r: RunId, gone: set<TimerId>)
    requires r in s.runs
    ensures Commutes(s, CloseBridge(s, r), CloseBridge(Drop(s, gone), r), gone)
  {
  }

  lemma ForgetCommutes(s: State, r: RunId, gone: set<TimerId>)
    ensures Commutes(s, ForgetRun(s, r), ForgetRun(Drop(s, gone), r), gone)
  {
    if r in s.runs && s.runs[r].repo in s.breakers {
      ClearCommutes(Untrack(s, r), s.breakers[s.runs[r].repo].timer, gone);
    }
  }

  lemma GiveUpCommutes(s: State, r: RunId, gone: set<TimerId>)
    requires r in s.runs
    ensures Commutes(s, ForgetRun(CloseBridge(s, r), r), ForgetRun(CloseBridge(Drop(s, gone), r), r), gone)
  {
    var y := CloseBridge(s, r);
    CloseBridgeCommutes(s, r, gone);
    ForgetCommutes(y, r, gone);
    hide ForgetRun, CloseBridge;
    Then(s, y, ForgetRun(y, r), ForgetRun(Drop(y, gone), r), gone);
  }

  lemma RestartCommutes(s: State, r: RunId, gone: set<TimerId>)
    requires r in s.runs && Old(s, gone) && s.runs[r].restartCount < MAX_RESTART_COUNT
    ensures Commutes(s, ScheduleRestart(s, r), ScheduleRestart(Drop(s, gone), r), gone)
  {
    var run, delay := s.runs[r], BackoffDelay(s.runs[r].restartCount);
    var run' := run.(restartCount := run.restartCount + 1, state := Crashed, restartTimer := Some(s.nextTimer));
    var h := s.hist.(upSince := s.hist.upSince - {r}, delays := s.hist.delays[r := Count(s.hist.delays, r) + delay]);
    var y := s.(runs := s.runs[r := run'], hist := h);
    hide BackoffDelay, ForgetRun, CloseBridge, Count;
    assert ScheduleRestart(s, r) == Arm(y, delay, Backoff(r));
    assert ScheduleRestart(Drop(s, gone), r) == Arm(Drop(y, gone), delay, Backoff(r));
    hide ScheduleRestart;
    ArmCommutes(y, delay, Backoff(r), gone);
  }

  lemma ScheduleCommutes(s: State, r: RunId, gone: set<TimerId>)
    requires r in s.runs && Old(s, gone)
    ensures Commutes(s, ScheduleRestart(s, r), ScheduleRestart(Drop(s, gone), r), gone)
  {
    if s.runs[r].restartCount < MAX_RESTART_COUNT { RestartCommutes(s, r, gone); } else { GiveUpCommutes(s, r, gone); }
    hide ForgetRun, CloseBridge, Commutes;
  }

  lemma SpawnCommutes(s: State, r: RunId, o: SpawnOutcome, gone: set<TimerId>)
    requires r in s.runs && Old(s, gone)
    ensures Commutes(s, Spawn(s, r, o), Spawn(Drop(s, gone), r, o), gone)
  {
    if o == Started {
      StillCommutes(s, Spawn(s, r, o), Spawn(Drop(s, gone), r, o), gone);
    } else {
      var y := SpawnFailed(s, r, o);
      StillCommutes(s, y, SpawnFailed(Drop(s, gone), r, o), gone);
      ScheduleCommutes(y, r, gone);
      hide ScheduleRestart;
      Then(s, y, ScheduleRestart(y, r), ScheduleRestart(Drop(y, gone), r), gone);
    }
  }

  lemma InstallCommutes(s: State, p: RepoPath, failed: nat, gone: set<TimerId>)
    requires Old(s, gone)
    ensures Commutes(s, InstallOpen(s, p, failed), InstallOpen(Drop(s, gone), p, failed), gone)
  {
    var b := Breaker(Open, s.now, failed, None, None);
    var h := if p in s.breakers then s.hist else s.hist.(firstTrip := s.hist.firstTrip[p := s.now]);
    var y := s.(breakers := s.breakers[p := b.(timer := Some(s.nextTimer))], hist := h);
    hide CooldownFor;
    ArmCommutes(y, CooldownFor(failed), Cooldown(p), gone);
  }

  lemma TripCommutes(s: State, r: RunId, gone: set<TimerId>)
    requires r in s.runs && Old(s, gone)
    ensures Commutes(s, TripBreaker(s, r), TripBreaker(Drop(s, gone), r), gone)
  {
    var p := s.runs[r].repo;
    var x := ClearTimer(s, BreakerTimer(s, p));
    var y := StopBridge(x, s.runs[r].bridge);
    var v := Untrack(y, r);
    ClearCommutes(s, BreakerTimer(s, p), gone);
    StopBridgeCommutes(x, s.runs[r].bridge, gone);
    Then(s, x, y, Drop(y, gone), gone);
    Then(s, y, v, Drop(v, gone), gone);
    InstallCommutes(v, p, FailedAfterTrip(s, p), gone);
    Then(s, v, TripBreaker(s, r), TripBreaker(Drop(s, gone), r), gone);
    hide InstallOpen, StopBridge;
  }

  lemma NoteProbeCommutes(s: State, p: RepoPath, r: RunId, gone: set<TimerId>)
    requires Old(s, gone)
    ensures Commutes(s, NoteProbeSpawned(s, p, r), NoteProbeSpawned(Drop(s, gone), p, r), gone)
  {
    if p in s.breakers {
      var x := ClearTimer(s, s.breakers[p].timer);
      ClearCommutes(s, s.breakers[p].timer, gone);
      var y := x.(breakers := x.breakers[p := x.breakers[p].(timer := Some(x.nextTimer))]);
      ArmCommutes(y, CIRCUIT_PROBE_HEALTHY_MS, Survival(p, r), gone);
    }
  }

  lemma EvictCommutes(s: State, dead: set<RunId>, gone: set<TimerId>)
    ensures Commutes(s, EvictAll(s, dead), EvictAll(Drop(s, gone), dead), gone)
  {
    var z, w := EvictAll(s, dead), EvictAll(Drop(s, gone), dead);
    assert w.timers == z.timers - gone;
    assert w.bridges == z.bridges && w.breakers == z.breakers;
  }

  lemma AdmitCommutes(s: State, r: RunId, p: RepoPath, o: SpawnOutcome, gone: set<TimerId>)
    requires Old(s, gone)
    ensures Commutes(s, Spawn(Admit(s, r, p), r, o), Spawn(Admit(Drop(s, gone), r, p), r, o), gone)
  {
    var y := Admit(s, r, p);
    StillCommutes(s, y, Admit(Drop(s, gone), r, p), gone);
    SpawnCommutes(y, r, o, gone);
    hide Spawn, Admit;
    Then(s, y, Spawn(y, r, o), Spawn(Drop(y, gone), r, o), gone);
  }

  lemma StartCommutes(s: State, r: RunId, ok: bool, alive: set<BridgeId>, o: SpawnOutcome, gone: set<TimerId>)
    requires r in s.starts && Old(s, gone)
    ensures Commutes(s, StartContinued(s, r, ok, alive, o), StartContinued(Drop(s, gone), r, ok, alive, o), gone)
  {
    var s0, p, dead := s.(starts := s.starts - {r}), s.starts[r], StrandedRuns(s, alive);
    var s1 := EvictAll(s0, dead);
    assert StrandedRuns(Drop(s, gone), alive) == dead && CrashedPending(Drop(s, gone), p) == CrashedPending(s, p);
    EvictCommutes(s0, dead, gone);
    assert Old(s1, gone);
    StillCommutes(s, s0, Drop(s0, gone), gone);
    hide EvictAll, Spawn, Decide, Admit, StrandedRuns, CrashedPending;
    SameVerdict(s, r, ok, alive, gone);
    AdmitCommutes(s1, r, p, o, gone);
    assert EvictAll(Drop(s0, gone), dead) == Drop(s1, gone);
    hide Commutes, Old;
    Then(s, s0, s1, Drop(s1, gone), gone);
    Then(s, s1, Spawn(Admit(s1, r, p), r, o), Spawn(Admit(Drop(s1, gone), r, p), r, o), gone);
  }

  lemma SameVerdict(s: State, r: RunId, ok: bool, alive: set<BridgeId>, gone: set<TimerId>)
    requires r in s.starts
    ensures Decide(Drop(s, gone), r, ok, alive) == Decide(s, r, ok, alive)
  {
    assert StrandedRuns(Drop(s, gone), alive) == StrandedRuns(s, alive);
    EvictCommutes(s, StrandedRuns(s, alive), gone);
    var x := EvictAll(s, StrandedRuns(s, alive));
    assert ActiveRuns(Drop(x, gone)) == ActiveRuns(x);
    hide EvictAll;
  }

  lemma SpawnedCommutes(s: State, b: BridgeId, gone: set<TimerId>)
    requires b in s.bridges && Old(s, gone)
    ensures Commutes(s, BridgeSpawned(s, b), BridgeSpawned(Drop(s, gone), b), gone)
  {
    var r := s.bridges[b].owner;
    if r in s.runs {
      var y := s.(bridges := s.bridges[b := s.bridges[b].(spawned := true)],
                  runs := s.runs[r := s.runs[r].(state := Running)],
                  hist := s.hist.(upSince := s.hist.upSince[r := s.now]));
      NoteProbeCommutes(y, s.runs[r].repo, r, gone);
    }
    hide NoteProbeSpawned;
  }

  lemma LeaveCommutes(s: State, r: RunId, b: Option<BridgeId>, gone: set<TimerId>)
    ensures Commutes(s, StopBridge(ForgetRun(s, r), b), StopBridge(ForgetRun(Drop(s, gone), r), b), gone)
  {
    var y := ForgetRun(s, r);
    ForgetCommutes(s, r, gone);
    StopBridgeCommutes(y, b, gone);
    hide ForgetRun, StopBridge;
    Then(s, y, StopBridge(y, b), StopBridge(Drop(y, gone), b), gone);
  }

  lemma CrashCommutes(s: State, r: RunId, gone: set<TimerId>)
    requires r in s.runs && Old(s, gone)
    ensures var v, w := NoteCrash(s, r), NoteCrash(Drop(s, gone), r);
      && MustTrip(w, r) == MustTrip(v, r)
      && Commutes(s, TripBreaker(v, r), TripBreaker(w, r), gone)
      && Commutes(s, ScheduleRestart(v, r), ScheduleRestart(w, r), gone)
  {
    var v := NoteCrash(s, r);
    assert NoteCrash(Drop(s, gone), r) == Drop(v, gone);
    StillCommutes(s, v, Drop(v, gone), gone);
    TripCommutes(v, r, gone);
    ScheduleCommutes(v, r, gone);
    hide TripBreaker, ScheduleRestart, NoteCrash;
    Then(s, v, TripBreaker(v, r), TripBreaker(Drop(v, gone), r), gone);
    Then(s, v, ScheduleRestart(v, r), ScheduleRestart(Drop(v, gone), r), gone);
  }

  lemma ExitCommutes(s: State, b: BridgeId, clean: bool, gone: set<TimerId>)
    requires b in s.bridges && Old(s, gone)
    ensures Commutes(s, BridgeExited(s, b, clean), BridgeExited(Drop(s, gone), b, clean), gone)
  {
    var r := s.bridges[b].owner;
    var y := MarkExited(s, b);
    assert MarkExited(Drop(s, gone), b) == Drop(y, gone) && y.runs == s.runs && Old(y, gone);
    StillCommutes(s, y, Drop(y, gone), gone);
    if r in s.runs {
      ForgetCommutes(y, r, gone);
      LeaveCommutes(y, r, s.runs[r].bridge, gone);
      CrashCommutes(y, r, gone);
      hide ForgetRun, StopBridge, TripBreaker, ScheduleRestart, NoteCrash, MarkExited, MustTrip;
      Then(s, y, BridgeExited(s, b, clean), BridgeExited(Drop(s, gone), b, clean), gone);
    }
  }

  lemma SurvivalCommutes(s: State, t: TimerId, p: RepoPath, r: RunId, gone: set<TimerId>)
    ensures Commutes(s, SurvivalElapsed(s, t, p, r), SurvivalElapsed(Drop(s, gone), t, p, r), gone)
  {
    var y := s.(timers := s.timers - {t});
    assert Drop(s, gone).timers - {t} == y.timers - gone;
    if p in s.breakers { ClearCommutes(y, s.breakers[p].timer, gone); }
  }

  lemma TimerCommutes(s: State, t: TimerId, o: SpawnOutcome, gone: set<TimerId>)
    requires t in s.timers && t !in gone && Old(s, gone)
    ensures Commutes(s, TimerFired(s, t, o), TimerFired(Drop(s, gone), t, o), gone)
  {
    var y := s.(timers := s.timers - {t});
    assert s.timers - gone - {t} == s.timers - {t} - gone;
    assert Drop(s, gone).(timers := s.timers - gone - {t}) == Drop(y, gone);
    hide SurvivalElapsed, Spawn, CloseBridge, TakeTimer;
    match s.timers[t].alarm {
      case Backoff(r) => if r in s.runs { BackoffCommutes(s, t, r, o, gone); }
      case Cooldown(p) => StillCommutes(y, GoHalfOpen(y, p), GoHalfOpen(Drop(y, gone), p), gone);
      case Survival(p, r) => SurvivalCommutes(s, t, p, r, gone);
    }
  }

  lemma BackoffCommutes(s: State, t: TimerId, r: RunId, o: SpawnOutcome, gone: set<TimerId>)
    requires t in s.timers && r in s.runs && Old(s, gone)
    ensures Commutes(s, BackoffElapsed(s, t, r, o), BackoffElapsed(Drop(s, gone), t, r, o), gone)
  {
    var x := TakeTimer(s, t, r);
    assert TakeTimer(Drop(s, gone), t, r) == Drop(x, gone) by { assert s.timers - gone - {t} == s.timers - {t} - gone; }
    var y := CloseBridge(x, r);
    CloseBridgeCommutes(x, r, gone);
    SpawnCommutes(y, r, o, gone);
    hide CloseBridge, Spawn, TakeTimer;
  }

  lemma StopMarkedCommutes(s: State, r: RunId, gone: set<TimerId>)
    requires r in s.runs
    ensures Commutes(s, StopMarked(s, r), StopMarked(Drop(s, gone), r), gone)
  {
    ClearCommutes(s, s.runs[r].restartTimer, gone);
  }

  lemma StopCommutes(s: State, r: RunId, gone: set<TimerId>)
    ensures Commutes(s, StopRequested(s, r), StopRequested(Drop(s, gone), r), gone)
  {
    if r in s.runs {
      var y := StopMarked(s, r);
      var x := StopBridge(y, s.runs[r].bridge);
      StopMarkedCommutes(s, r, gone);
      ForgetCommutes(y, r, gone);
      StopBridgeCommutes(y, s.runs[r].bridge, gone);
      hide ForgetRun, StopBridge, StopMarked;
      Then(s, y, ForgetRun(y, r), ForgetRun(Drop(y, gone), r), gone);
      Then(s, y, x, Drop(x, gone), gone);
    }
  }

  lemma StopSettledCommutes(s: State, r: RunId, gone: set<TimerId>)
    ensures Commutes(s, StopSettled(s, r), StopSettled(Drop(s, gone), r), gone)
  {
    ForgetCommutes(s.(stops := s.stops - multiset{r}), r, gone);
    hide ForgetRun;
  }

  /** Every event but the firing of a struck timer does the same with and without the struck timers. */
  lemma StepCommutes(s: State, e: Event, gone: set<TimerId>)
    requires Possible(s, e) && Old(s, gone) && (e.TimerDue? ==> e.timer !in gone)
    ensures Possible(Drop(s, gone), e)
    ensures Commutes(s, Step(s, e), Step(Drop(s, gone), e), gone)
  {
    match e {
      case StartResumes(r, ok, alive, o) => StartCommutes(s, r, ok, alive, o, gone);
      case OnSpawned(b) => SpawnedCommutes(s, b, gone);
      case OnExit(b, clean) => ExitCommutes(s, b, clean, gone);
      case TimerDue(t, o) => TimerCommutes(s, t, o, gone);
      case StopCall(r) => StopCommutes(s, r, gone);
      case StopResumes(r) => StopSettledCommutes(s, r, gone);
      case _ => OthersCommute(s, e, gone);
    }
    hide StartContinued, BridgeSpawned, BridgeExited, TimerFired, StopRequested, StopSettled, Commutes;
  }

  lemma OthersCommute(s: State, e: Event, gone: set<TimerId>)
    requires e.StartCall? || e.Activity? || e.Tick?
    ensures Commutes(s, Step(s, e), Step(Drop(s, gone), e), gone)
  {
  }

  // ----- The second exit -----

  /** What the joint invariant says of a bridge that exits during the backoff of its run. */
  lemma SecondExitFacts(s: State, b: BridgeId, clean: bool)
    requires Core(s) && Tolerated(s, OnExit(b, clean)) && ExitsInBackoff(s, b)
    ensures var r := s.bridges[b].owner; var run := s.runs[r]; var t := run.restartTimer.value;
      && run.bridge == Some(b) && run.repo !in s.breakers && !run.userStop && s.bridges[b].exited
      && t in s.timers && s.timers[t].alarm == Backoff(r) && t < s.nextTimer && b < s.nextBridge
      && r in s.hist.used && r !in s.starts
  {
    var r := s.bridges[b].owner;
    assert RunOk(s, r) && BridgeOk(s, b) && TimerOk(s, s.runs[r].restartTimer.value);
  }

  /** It does what it would do if the armed respawn had been taken, and leaves that one behind. */
  lemma SecondExitIs(s: State, b: BridgeId, clean: bool)
    requires Core(s) && Tolerated(s, OnExit(b, clean)) && ExitsInBackoff(s, b)
    ensures var r := s.bridges[b].owner; var t := s.runs[r].restartTimer.value; var y := TakeTimer(s, t, r);
      && MarkExited(y, b) == y
      && Drop(BridgeExited(s, b, clean), {t}) == BridgeExited(y, b, clean)
  {
    SecondExitFacts(s, b, clean);
    var r := s.bridges[b].owner;
    var t := s.runs[r].restartTimer.value;
    var x, y := Drop(s, {t}), TakeTimer(s, t, r);
    assert y == Disarmed(x, r) && s.bridges[b := s.bridges[b].(exited := true)] == s.bridges;
    ExitCommutes(s, b, clean, {t});
    SameExit(x, b, clean);
    hide BridgeExited, Core;
  }

  /** Which respawn a run holds does not matter where the run is dropped or rescheduled. */
  function Disarmed(s: State, r: RunId): State
    requires r in s.runs
  {
    s.(runs := s.runs[r := s.runs[r].(restartTimer := None)])
  }

  lemma SameForget(s: State, r: RunId)
    requires r in s.runs
    ensures ForgetRun(Disarmed(s, r), r) == ForgetRun(s, r)
  {
    assert Disarmed(s, r).runs - {r} == s.runs - {r};
    assert Untrack(Disarmed(s, r), r) == Untrack(s, r);
    hide ReleaseProbe;
  }

  lemma SameClose(s: State, r: RunId)
    requires r in s.runs
    ensures CloseBridge(Disarmed(s, r), r) == Disarmed(CloseBridge(s, r), r)
  {
  }

  lemma SameGiveUp(s: State, r: RunId)
    requires r in s.runs
    ensures ForgetRun(CloseBridge(Disarmed(s, r), r), r) == ForgetRun(CloseBridge(s, r), r)
  {
    SameClose(s, r);
    SameForget(CloseBridge(s, r), r);
    hide CloseBridge, ForgetRun;
  }

  lemma SameRestart(s: State, r: RunId)
    requires r in s.runs && s.runs[r].restartCount < MAX_RESTART_COUNT
    ensures ScheduleRestart(Disarmed(s, r), r) == ScheduleRestart(s, r)
  {
    var n := s.runs[r].restartCount;
    var run' := s.runs[r].(restartCount := n + 1, state := Crashed, restartTimer := Some(s.nextTimer));
    assert Disarmed(s, r).runs[r := run'] == s.runs[r := run'];
    hide CloseBridge, ForgetRun, BackoffDelay, Count, Arm;
  }

  lemma SameSchedule(s: State, r: RunId)
    requires r in s.runs
    ensures ScheduleRestart(Disarmed(s, r), r) == ScheduleRestart(s, r)
  {
    if s.runs[r].restartCount < MAX_RESTART_COUNT { SameRestart(s, r); } else { SameGiveUp(s, r); }
    hide CloseBridge, ForgetRun, BackoffDelay, Count, Arm;
  }

  lemma SameTrip(s: State, r: RunId)
    requires r in s.runs
    ensures TripBreaker(Disarmed(s, r), r) == TripBreaker(s, r)
  {
    var p, b := s.runs[r].repo, s.runs[r].bridge;
    var x, y := StopBridge(ClearTimer(s, BreakerTimer(s, p)), b), Disarmed(s, r);
    assert StopBridge(ClearTimer(y, BreakerTimer(y, p)), b) == Disarmed(x, r);
    assert Untrack(Disarmed(x, r), r) == Untrack(x, r) by { assert Disarmed(x, r).runs - {r} == x.runs - {r}; }
    hide InstallOpen, StopBridge, ClearTimer, Untrack;
  }

  lemma SameExit(s: State, b: BridgeId, clean: bool)
    requires b in s.bridges && s.bridges[b].owner in s.runs
    ensures BridgeExited(Disarmed(s, s.bridges[b].owner), b, clean) == BridgeExited(s, b, clean)
      || s.runs[s.bridges[b].owner].userStop
  {
    var r := s.bridges[b].owner;
    var y := MarkExited(s, b);
    var v := NoteCrash(y, r);
    assert MarkExited(Disarmed(s, r), b) == Disarmed(y, r) && NoteCrash(Disarmed(y, r), r) == Disarmed(v, r);
    assert MustTrip(Disarmed(v, r), r) == MustTrip(v, r);
    SameForget(y, r);
    SameTrip(v, r);
    SameSchedule(v, r);
    hide ForgetRun, StopBridge, TripBreaker, ScheduleRestart, NoteCrash, MarkExited, MustTrip;
  }

  /** Struck of the timer that it leaves behind, the state keeps the joint invariant. */
  lemma SecondExitCore(s: State, b: BridgeId, clean: bool)
    requires Core(s) && Tolerated(s, OnExit(b, clean)) && ExitsInBackoff(s, b)
    ensures Core(Drop(BridgeExited(s, b, clean), {s.runs[s.bridges[b].owner].restartTimer.value}))
  {
    var r := s.bridges[b].owner;
    var t := s.runs[r].restartTimer.value;
    var p, y := s.runs[r].repo, TakeTimer(s, t, r);
    SecondExitFacts(s, b, clean);
    SecondExitIs(s, b, clean);
    BackoffHand(s, t, r);
    if clean {
      LeavesCore(s, y, r, p);
    } else {
      var v := NoteCrash(y, r);
      NoteCrashHand(y, r, p);
      LocalTrans(s, y, v, r, p);
      CrashCore(s, v, r, p, MustTrip(v, r));
    }
    hide Core, Hand, Local, TripBreaker, ScheduleRestart, ForgetRun, StopBridge, NoteCrash;
  }

  lemma LeavesCore(s: State, y: State, r: RunId, p: RepoPath)
    requires Core(s) && Local(s, y, r, p) && Hand(y, r, p) && Alone(s, r, p)
    ensures Core(StopBridge(ForgetRun(y, r), y.runs[r].bridge))
  {
    var x, b := ForgetRun(y, r), y.runs[r].bridge;
    LeavesLocal(y, r, p);
    CleanExitOk(y, r, p);
    hide *;
    LocalTrans(s, y, StopBridge(x, b), r, p);
    LocalCore(s, StopBridge(x, b), r, p);
  }

  lemma LeavesLocal(y: State, r: RunId, p: RepoPath)
    requires Hand(y, r, p)
    ensures Local(y, StopBridge(ForgetRun(y, r), y.runs[r].bridge), r, p)
  {
    var x, b := ForgetRun(y, r), y.runs[r].bridge;
    ForgetLocal(y, r, p);
    assert x.bridges == y.bridges && x.nextBridge == y.nextBridge;
    hide ForgetRun;
    StopBridgeLocal(x, b, r, p);
    hide Hand, StopBridge, Local;
    LocalTrans(y, x, StopBridge(x, b), r, p);
  }

  /** Where it does not arm a second respawn, the run is gone. */
  lemma SecondExitDrops(s: State, b: BridgeId, clean: bool)
    requires Core(s) && Tolerated(s, OnExit(b, clean)) && ExitsInBackoff(s, b) && !ArmsTwice(s, b, clean)
    ensures s.bridges[b].owner !in BridgeExited(s, b, clean).runs
    ensures BridgeExited(s, b, clean).starts == s.starts && BridgeExited(s, b, clean).hist.used == s.hist.used
  {
    var r := s.bridges[b].owner;
    var y := MarkExited(s, b);
    SecondExitFacts(s, b, clean);
    ExitOnlyRun(s, b, clean);
    ExitKeepsQueue(s, b, clean);
    ForgetUnrecorded(y, r);
    StopBridgeEffect(ForgetRun(y, r), s.runs[r].bridge);
    var v := NoteCrash(y, r);
    TripUnrecorded(v, r);
    if GivesUp(v, r) { GiveUpUnrecorded(v, r); }
    hide Core, ForgetRun, StopBridge, TripBreaker, ScheduleRestart;
  }

  // ----- The invariant but for timers whose run is gone -----

  /** The respawns that are armed for nobody. */
  function Strays(s: State): set<TimerId> {
    set t | t in s.timers && s.timers[t].alarm.Backoff? && s.timers[t].alarm.runId !in s.runs
  }

  /** The run was started and is no longer tracked nor being admitted. */
  predicate Gone(s: State, r: RunId) {
    r in s.hist.used && r !in s.starts && r !in s.runs
  }

  predicate GoneAll(s: State, gone: set<TimerId>) {
    forall t | t in gone && t in s.timers ::
      t < s.nextTimer && s.timers[t].alarm.Backoff? && Gone(s, s.timers[t].alarm.runId)
  }

  /** The joint invariant holds once the strays are struck out, and they will never find their runs. */
  ghost predicate CoreButStrays(s: State) {
    Core(Drop(s, Strays(s))) && GoneAll(s, Strays(s))
  }

  /** Any timers of lost runs that make up the difference are the strays. */
  lemma StraysAre(s: State, gone: set<TimerId>)
    requires Core(Drop(s, gone)) && GoneAll(s, gone)
    ensures CoreButStrays(s)
  {
    forall t | t in s.timers ensures t in Strays(s) <==> t in gone {
      if t !in gone { assert TimerOk(Drop(s, gone), t); }
    }
    assert Drop(s, Strays(s)) == Drop(s, gone);
    hide Core;
  }

  lemma StaysGone(w: State, e: Event, r: RunId)
    requires Core(w) && Enabled(w, e) && Fresh(w, e) && Gone(w, r)
    ensures Gone(Step(w, e), r)
  {
    assert Turn(w, e, Step(w, e));
    OverStays(w, e, Step(w, e), r);
    hide Core, Step, Enabled;
  }

  /** An event of the whole contract, in the state without strays and in the one with them. */
  lemma StrictStep(s: State, e: Event)
    requires CoreButStrays(s) && Enabled(s, e) && Fresh(s, e) && (e.TimerDue? ==> e.timer !in Strays(s))
    ensures CoreButStrays(Step(s, e))
  {
    var gone := Strays(s);
    var w, z := Drop(s, gone), Step(s, e);
    StepCommutes(s, e, gone);
    assert Enabled(w, e) && Fresh(w, e);
    StepCore(w, e);
    forall t | t in gone && t in z.timers
      ensures t < z.nextTimer && z.timers[t].alarm.Backoff? && Gone(z, z.timers[t].alarm.runId)
    {
      StaysGone(w, e, s.timers[t].alarm.runId);
    }
    hide Core, Step, Enabled, Strays;
    StraysAre(z, gone);
  }

  lemma StrayFires(s: State, t: TimerId, o: SpawnOutcome)
    requires CoreButStrays(s) && t in Strays(s)
    ensures CoreButStrays(TimerFired(s, t, o))
  {
    var z := TimerFired(s, t, o);
    assert z == s.(timers := s.timers - {t});
    assert s.timers - Strays(s) == z.timers - Strays(s);
    assert Drop(z, Strays(s)) == Drop(s, Strays(s));
    StraysAre(z, Strays(s));
    hide Core;
  }

  lemma DropBoth(s: State, gone: set<TimerId>, t: TimerId)
    ensures Drop(Drop(s, gone), {t}) == Drop(s, gone + {t})
  {
    assert s.timers - gone - {t} == s.timers - (gone + {t});
  }

  lemma SecondExitStruck(s: State, b: BridgeId, clean: bool)
    requires CoreButStrays(s) && Tolerated(s, OnExit(b, clean)) && ExitsInBackoff(s, b)
    ensures Core(Drop(BridgeExited(s, b, clean), Strays(s) + {s.runs[s.bridges[b].owner].restartTimer.value}))
  {
    var gone, t := Strays(s), s.runs[s.bridges[b].owner].restartTimer.value;
    ExitCommutes(s, b, clean, gone);
    hide Core, BridgeExited;
    SecondExitCore(Drop(s, gone), b, clean);
    DropBoth(BridgeExited(s, b, clean), gone, t);
    hide Drop, Strays;
  }

  lemma SecondExitStep(s: State, b: BridgeId, clean: bool)
    requires CoreButStrays(s) && Tolerated(s, OnExit(b, clean)) && ExitsInBackoff(s, b) && !ArmsTwice(s, b, clean)
    ensures CoreButStrays(BridgeExited(s, b, clean))
  {
    SecondExitStruck(s, b, clean);
    SecondExitGone(s, b, clean);
    var t := s.runs[s.bridges[b].owner].restartTimer.value;
    hide *;
    StraysAre(BridgeExited(s, b, clean), Strays(s) + {t});
  }

  lemma FirstRespawnGone(s: State, b: BridgeId, clean: bool)
    requires CoreButStrays(s) && Tolerated(s, OnExit(b, clean)) && ExitsInBackoff(s, b) && !ArmsTwice(s, b, clean)
    ensures GoneAll(BridgeExited(s, b, clean), {s.runs[s.bridges[b].owner].restartTimer.value})
  {
    var w, z := Drop(s, Strays(s)), BridgeExited(s, b, clean);
    ExitCommutes(s, b, clean, Strays(s));
    SecondExitDrops(w, b, clean);
    SecondExitFacts(w, b, clean);
    hide Core, ArmsTwice;
    SecondExitKeeps(w, b, clean);
    hide BridgeExited, Tolerated;
  }

  lemma OldStraysGone(s: State, b: BridgeId, clean: bool)
    requires CoreButStrays(s) && b in s.bridges && s.bridges[b].owner in s.runs
    ensures GoneAll(BridgeExited(s, b, clean), Strays(s))
  {
    var gone, z := Strays(s), BridgeExited(s, b, clean);
    ExitCommutes(s, b, clean, gone);
    ExitOnlyRun(s, b, clean);
    hide Core, BridgeExited;
    forall t | t in gone && t in z.timers
      ensures t < z.nextTimer && z.timers[t].alarm.Backoff? && Gone(z, z.timers[t].alarm.runId)
    {
      OthersStayGone(s, z, s.bridges[b].owner, s.timers[t].alarm.runId);
    }
  }

  lemma SecondExitGone(s: State, b: BridgeId, clean: bool)
    requires CoreButStrays(s) && Tolerated(s, OnExit(b, clean)) && ExitsInBackoff(s, b) && !ArmsTwice(s, b, clean)
    ensures GoneAll(BridgeExited(s, b, clean), Strays(s) + {s.runs[s.bridges[b].owner].restartTimer.value})
  {
    FirstRespawnGone(s, b, clean);
    OldStraysGone(s, b, clean);
    hide CoreButStrays, BridgeExited, Tolerated, ArmsTwice, Strays;
  }

  lemma OthersStayGone(s: State, z: State, r: RunId, q: RunId)
    requires OnlyRun(s, z, r) && Gone(s, q) && r in s.runs
    ensures Gone(z, q)
  {
  }

  /** The timer it leaves behind is the one that was armed. */
  lemma SecondExitKeeps(s: State, b: BridgeId, clean: bool)
    requires Core(s) && Tolerated(s, OnExit(b, clean)) && ExitsInBackoff(s, b)
    ensures var t, z := s.runs[s.bridges[b].owner].restartTimer.value, BridgeExited(s, b, clean);
      t in z.timers ==> z.timers[t] == s.timers[t]
  {
    SecondExitFacts(s, b, clean);
    ExitCommutes(s, b, clean, {s.runs[s.bridges[b].owner].restartTimer.value});
    hide BridgeExited;
  }

  /** No exit that does not arm a second respawn breaks the invariant but for strays. */
  lemma ArmedOnceStep(s: State, e: Event)
    requires CoreButStrays(s) && Allows(ArmedOnce, s, e)
    ensures Possible(s, e) && CoreButStrays(Step(s, e))
  {
    if e.OnExit? && ExitsInBackoff(s, e.bridge) {
      SecondExitStep(s, e.bridge, e.clean);
    } else if e.TimerDue? && e.timer in Strays(s) {
      StrayFires(s, e.timer, e.outcome);
    } else {
      StrictStep(s, e);
    }
    hide CoreButStrays, Tolerated, ArmsTwice;
  }

  lemma {:induction false} ArmedOnceReaches(s: State, events: seq<Event>, z: State)
    requires CoreButStrays(s) && Reaches(ArmedOnce, s, events, z)
    ensures CoreButStrays(z)
    decreases |events|
  {
    hide CoreButStrays, Allows, Step;
    if events != [] {
      ArmedOnceStep(s, events[0]);
      ArmedOnceReaches(Step(s, events[0]), events[1..], z);
    }
  }

  /** No orphaned bridge, also where bridges exit again during a backoff, as long as no such exit arms a
      second respawn. */
  lemma NoOrphanUnlessArmedTwice(now: int, cap: nat, events: seq<Event>, z: State, b: BridgeId)
    requires Reaches(ArmedOnce, Init(now, cap), events, z) && b in z.bridges && !z.bridges[b].stopped
    ensures z.bridges[b].owner in z.runs && z.runs[z.bridges[b].owner].bridge == Some(b)
  {
    InitCore(now, cap);
    assert Strays(Init(now, cap)) == {} && Drop(Init(now, cap), {}) == Init(now, cap);
    ArmedOnceReaches(Init(now, cap), events, z);
    assert BridgeOk(Drop(z, Strays(z)), b);
  }

  // ----- A second respawn orphans a bridge -----

  ghost predicate HasOrphan(s: State) {
    exists b :: b in s.bridges && s.bridges[b].live && !s.bridges[b].stopped && s.bridges[b].owner !in s.runs
  }

  /** The lost respawn fires while a stop awaits, and the stop forgets the run with its new bridge. */
  lemma FiresUnderStop(c: Contract, s: State, r: RunId, t: TimerId) returns (events: seq<Event>, z: State)
    requires r in s.runs && r in s.stops && t in s.timers && s.timers[t].alarm == Backoff(r) && s.timers[t].due <= s.now
    requires s.runs[r].bridge.Some? ==> s.runs[r].bridge.value < s.nextBridge
    ensures Reaches(c, s, events, z) && HasOrphan(z)
  {
    var y := BackoffElapsed(s, t, r, Started);
    var x := CloseBridge(TakeTimer(s, t, r), r);
    StopBridgeEffect(TakeTimer(s, t, r), s.runs[r].bridge);
    assert y == Spawn(x, r, Started) && x.nextBridge == s.nextBridge && x.stops == s.stops;
    z := StopSettled(y, r);
    ForgetBridges(y.(stops := y.stops - multiset{r}), r);
    assert z.bridges[s.nextBridge] == Bridge(r, true, false, false, false) && r !in z.runs;
    assert Allows(c, s, TimerDue(t, Started)) && Step(s, TimerDue(t, Started)) == y;
    assert Allows(c, y, StopResumes(r)) && Step(y, StopResumes(r)) == z;
    hide Allows, Step, BackoffElapsed, StopSettled;
    Prepend(c, y, StopResumes(r), [], z);
    Prepend(c, s, TimerDue(t, Started), [StopResumes(r)] + [], z);
    events := [TimerDue(t, Started)] + ([StopResumes(r)] + []);
  }

  lemma ForgetBridges(s: State, r: RunId)
    ensures ForgetRun(s, r).bridges == s.bridges && r !in ForgetRun(s, r).runs
  {
  }

  /** A stop clears the respawn that the run holds; the lost one comes due. */
  lemma LostRespawnOrphans(c: Contract, s: State, r: RunId, b: BridgeId, t: TimerId)
    returns (events: seq<Event>, z: State)
    requires r in s.runs && s.runs[r].bridge == Some(b) && b in s.bridges && b < s.nextBridge
    requires t in s.timers && s.timers[t].alarm == Backoff(r) && s.runs[r].restartTimer != Some(t)
    ensures Reaches(c, s, events, z) && HasOrphan(z)
  {
    var d := if s.timers[t].due > s.now then s.timers[t].due - s.now else 0;
    var x := StopRequested(s, r);
    var y := x.(now := x.now + d);
    StopsOnly(s, r, t);
    assert Allows(c, s, StopCall(r)) && Step(s, StopCall(r)) == x by { hide StopRequested; }
    assert Allows(c, x, Tick(d)) && Step(x, Tick(d)) == y;
    hide Allows, Step, StopRequested, HasOrphan, Reaches;
    events, z := FiresUnderStop(c, y, r, t);
    Prepend(c, x, Tick(d), events, z);
    Prepend(c, s, StopCall(r), [Tick(d)] + events, z);
    events := [StopCall(r)] + ([Tick(d)] + events);
  }

  lemma StopsOnly(s: State, r: RunId, t: TimerId)
    requires r in s.runs && s.runs[r].bridge.Some? && t in s.timers && s.runs[r].restartTimer != Some(t)
    ensures var x := StopRequested(s, r);
      && r in x.runs && r in x.stops && x.runs[r].bridge == s.runs[r].bridge && x.nextBridge == s.nextBridge
      && t in x.timers && x.timers[t] == s.timers[t] && x.now == s.now
  {
    StopBridgeEffect(StopMarked(s, r), s.runs[r].bridge);
    hide StopBridge;
  }

  /** An exit that arms a second respawn leaves the first one armed for a run that does not hold it. */
  lemma ArmsSecond(s: State, b: BridgeId, clean: bool)
    requires CoreButStrays(s) && Tolerated(s, OnExit(b, clean)) && ArmsTwice(s, b, clean)
    ensures var r := s.bridges[b].owner; var t := s.runs[r].restartTimer.value; var z := BridgeExited(s, b, clean);
      && r in z.runs && z.runs[r].bridge == Some(b) && b in z.bridges && b < z.nextBridge
      && t in z.timers && z.timers[t].alarm == Backoff(r) && z.runs[r].restartTimer != Some(t)
  {
    SecondExitFacts(Drop(s, Strays(s)), b, clean);
    hide Core;
  }

  /** Exactly which exits during a backoff endanger the promise that no bridge is orphaned: in every
      state that was reached without such a danger, an orphan can come after the exit if and only if it
      is a crash that arms a second respawn. */
  lemma SecondExitOrphansIff(now: int, cap: nat, events: seq<Event>, s: State, b: BridgeId, clean: bool)
    requires Reaches(ArmedOnce, Init(now, cap), events, s)
    requires Tolerated(s, OnExit(b, clean)) && ExitsInBackoff(s, b)
    ensures ArmsTwice(s, b, clean) <==>
      exists more, z :: Reaches(ArmedOnce, BridgeExited(s, b, clean), more, z) && HasOrphan(z)
  {
    InitCore(now, cap);
    assert Strays(Init(now, cap)) == {} && Drop(Init(now, cap), {}) == Init(now, cap);
    ArmedOnceReaches(Init(now, cap), events, s);
    var y := BridgeExited(s, b, clean);
    if ArmsTwice(s, b, clean) {
      var r := s.bridges[b].owner;
      ArmsSecond(s, b, clean);
      hide BridgeExited, HasOrphan, Reaches, CoreButStrays;
      var more, z := LostRespawnOrphans(ArmedOnce, y, r, b, s.runs[r].restartTimer.value);
    } else {
      SecondExitStep(s, b, clean);
      hide BridgeExited, CoreButStrays;
      forall more, z | Reaches(ArmedOnce, y, more, z) ensures !HasOrphan(z) {
        ArmedOnceReaches(y, more, z);
        NoOrphan(z);
      }
    }
  }

  lemma NoOrphan(s: State)
    requires CoreButStrays(s)
    ensures !HasOrphan(s)
  {
    forall b | b in s.bridges && !s.bridges[b].stopped ensures s.bridges[b].owner in s.runs {
      assert BridgeOk(Drop(s, Strays(s)), b);
    }
  }
}
