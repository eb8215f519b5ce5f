/** How long a breaker has cooled down by the time its failed-probe counter reaches a value. */
module SupervisionClock {
  import opened Wrappers
  import opened Supervision
  import opened SupervisionSafety
  import opened SupervisionHistory

  /** Cooldown served before the `n`-th failed probe can be charged. */
  function CooldownSum(n: nat): int {
    if n == 0 then 0 else CooldownSum(n - 1) + CooldownFor(n - 1)
  }

  predicate ClockOk(s: State, p: RepoPath)
    requires p in s.breakers
  {
    var b := s.breakers[p];
    p in s.hist.firstTrip &&
    var first := s.hist.firstTrip[p];
    && (b.state == Open ==>
          && first + CooldownSum(b.failedProbes) <= b.openedAt <= s.now
          && (b.timer.Some? && b.timer.value in s.timers ==>
                s.timers[b.timer.value].due == b.openedAt + CooldownFor(b.failedProbes)))
    && (b.state == HalfOpen ==> first + CooldownSum(b.failedProbes + 1) <= s.now)
  }

  ghost predicate ClocksOk(s: State) {
    forall p :: p in s.breakers ==> ClockOk(s, p)
  }

  /** `z` has the breakers of `s` up to the probe and timer bookkeeping of half-open ones. */
  ghost predicate SameClocks(s: State, z: State) {
    && s.now <= z.now && s.nextTimer <= z.nextTimer && z.hist.firstTrip == s.hist.firstTrip
    && z.breakers.Keys == s.breakers.Keys
    && (forall p :: p in z.breakers ==> SameClock(s, z, p))
  }

  ghost predicate SameClock(s: State, z: State, p: RepoPath)
    requires p in s.breakers && p in z.breakers
  {
    var a, b := s.breakers[p], z.breakers[p];
    && b.state == a.state && b.openedAt == a.openedAt && b.failedProbes == a.failedProbes
    && (a.state == Open ==> b.timer == a.timer && SameHandle(s, z, b.timer))
  }

  ghost predicate SameHandle(s: State, z: State, t: Option<TimerId>) {
    t.Some? && t.value < s.nextTimer && t.value in z.timers ==>
      t.value in s.timers && s.timers[t.value] == z.timers[t.value]
  }

  lemma SameClocksOk(s: State, z: State)
    requires BreakersOk(s) && ClocksOk(s) && SameClocks(s, z)
    ensures ClocksOk(z)
  {
    forall p | p in z.breakers ensures ClockOk(z, p) { assert ClockOk(s, p) && BreakerOk(s, p) && SameClock(s, z, p); }
  }

  lemma SameClocksTrans(s: State, y: State, z: State)
    requires SameClocks(s, y) && SameClocks(y, z)
    ensures SameClocks(s, z)
  {
    forall p | p in z.breakers ensures SameClock(s, z, p) {
      assert SameClock(y, z, p) && SameClock(s, y, p);
    }
  }

  lemma HalfOpenClocks(s: State, t: TimerId, p: RepoPath)
    requires Core(s) && ClocksOk(s) && t in s.timers && s.timers[t].alarm == Cooldown(p) && s.timers[t].due <= s.now
    ensures ClocksOk(GoHalfOpen(s.(timers := s.timers - {t}), p))
  {
    var z := GoHalfOpen(s.(timers := s.timers - {t}), p);
    assert TimerOk(s, t) && ClockOk(s, p);
    forall q | q in z.breakers ensures ClockOk(z, q) {
      assert ClockOk(s, q) && BreakerOk(s, q);
    }
  }

  lemma InstallClock(s: State, p: RepoPath, failed: nat)
    requires s.nextTimer !in s.timers
    requires if p in s.breakers then p in s.hist.firstTrip && s.hist.firstTrip[p] + CooldownSum(failed) <= s.now
      else failed == 0
    ensures ClockOk(InstallOpen(s, p, failed), p)
  {
  }

  lemma InstallOther(s: State, p: RepoPath, failed: nat, q: RepoPath)
    requires q in s.breakers && q != p && ClockOk(s, q)
    requires s.breakers[q].timer.Some? ==> s.breakers[q].timer.value < s.nextTimer
    ensures var z := InstallOpen(s, p, failed); q in z.breakers && ClockOk(z, q)
  {
    hide CooldownFor, CooldownSum;
  }

  ghost predicate HandlesBelow(s: State) {
    forall q :: q in s.breakers && s.breakers[q].timer.Some? ==> s.breakers[q].timer.value < s.nextTimer
  }

  lemma InstallClocks(s: State, p: RepoPath, failed: nat)
    requires ClocksOk(s) && HandlesBelow(s) && s.nextTimer !in s.timers
    requires if p in s.breakers then p in s.hist.firstTrip && s.hist.firstTrip[p] + CooldownSum(failed) <= s.now
      else failed == 0
    ensures ClocksOk(InstallOpen(s, p, failed))
  {
    var z := InstallOpen(s, p, failed);
    InstallClock(s, p, failed);
    forall q | q in z.breakers ensures ClockOk(z, q) { if q != p { InstallOther(s, p, failed, q); } }
  }

  lemma DisarmedClocks(s: State, r: RunId)
    requires r in s.runs && ClocksOk(s) && HandlesBelow(s)
    ensures var y := Untrack(StopBridge(ClearTimer(s, BreakerTimer(s, s.runs[r].repo)), s.runs[r].bridge), r);
      && ClocksOk(y) && HandlesBelow(y) && y.breakers == s.breakers && y.now == s.now && y.nextTimer == s.nextTimer
      && y.hist.firstTrip == s.hist.firstTrip && y.timers.Keys <= s.timers.Keys
  {
    var s1 := ClearTimer(s, BreakerTimer(s, s.runs[r].repo));
    StopBridgeEffect(s1, s.runs[r].bridge);
    var y := Untrack(StopBridge(s1, s.runs[r].bridge), r);
    assert y.timers == s1.timers && y.breakers == s.breakers;
    forall q | q in y.breakers ensures ClockOk(y, q) { assert ClockOk(s, q); }
  }

  /** A trip charges a probe only after the cooldown before that probe was served. */
  lemma TripClocks(s: State, r: RunId, p: RepoPath)
    requires r in s.runs && s.runs[r].repo == p && Ungated(s, r, p) && s.nextTimer !in s.timers
    requires ClocksOk(s) && HandlesBelow(s)
    ensures ClocksOk(TripBreaker(s, r))
  {
    if p in s.breakers { assert ClockOk(s, p); }
    DisarmedClocks(s, r);
    InstallClocks(Untrack(StopBridge(ClearTimer(s, BreakerTimer(s, p)), s.runs[r].bridge), r), p,
      FailedAfterTrip(s, p));
  }

  // ----- Everything else leaves the clocks alone -----

  lemma ForgetClocks(s: State, r: RunId)
    requires r in s.runs && s.runs[r].repo in s.breakers && s.breakers[s.runs[r].repo].state == Open ==>
      s.breakers[s.runs[r].repo].probeRunId.None?
    ensures SameClocks(s, ForgetRun(s, r))
  {
  }

  lemma ScheduleClocks(s: State, r: RunId)
    requires r in s.runs && !GivesUp(s, r)
    ensures SameClocks(s, ScheduleRestart(s, r))
  {
  }

  lemma NoteProbeClocks(s: State, p: RepoPath, r: RunId)
    ensures SameClocks(s, NoteProbeSpawned(s, p, r))
  {
  }

  lemma EvictClocks(s: State, dead: set<RunId>)
    requires BreakersOk(s)
    ensures SameClocks(s, EvictAll(s, dead))
  {
    forall p | p in s.breakers ensures SameClock(s, EvictAll(s, dead), p) { assert BreakerOk(s, p); }
  }

  /** Only the runs, the bridges and the crash history differ. */
  lemma StillClocks(s: State, z: State)
    requires z.breakers == s.breakers && z.timers == s.timers && z.nextTimer == s.nextTimer
      && z.hist.firstTrip == s.hist.firstTrip
    requires s.now <= z.now
    ensures SameClocks(s, z)
  {
  }

  ghost predicate ProbeFree(s: State, r: RunId) {
    r in s.runs && s.runs[r].repo in s.breakers && s.breakers[s.runs[r].repo].state == Open ==>
      s.breakers[s.runs[r].repo].probeRunId.None?
  }

  lemma ScheduleAnyClocks(s: State, r: RunId)
    requires r in s.runs && ProbeFree(s, r)
    ensures SameClocks(s, ScheduleRestart(s, r))
  {
    if GivesUp(s, r) {
      var y := CloseBridge(s, r);
      StopBridgeEffect(s, s.runs[r].bridge);
      StillClocks(s, y);
      ForgetClocks(y, r);
      SameClocksTrans(s, y, ForgetRun(y, r));
    } else {
      ScheduleClocks(s, r);
    }
  }

  lemma SpawnClocks(s: State, r: RunId, o: SpawnOutcome)
    requires r in s.runs && ProbeFree(s, r)
    ensures SameClocks(s, Spawn(s, r, o))
  {
    if o == Started {
      StillClocks(s, Spawn(s, r, o));
    } else {
      var y := SpawnFailed(s, r, o);
      StillClocks(s, y);
      ScheduleAnyClocks(y, r);
      SameClocksTrans(s, y, ScheduleRestart(y, r));
    }
  }

  lemma ExitClocks(s: State, b: BridgeId, clean: bool)
    requires Core(s) && ClocksOk(s) && Enabled(s, OnExit(b, clean))
    ensures ClocksOk(BridgeExited(s, b, clean))
  {
    var r := s.bridges[b].owner;
    var y := MarkExited(s, b);
    var z := BridgeExited(s, b, clean);
    StillClocks(s, y);
    if r in s.runs {
      var p := s.runs[r].repo;
      OwnFacts(s, r);
      if s.runs[r].userStop || clean {
        ForgetClocks(y, r);
        SameClocksTrans(s, y, ForgetRun(y, r));
        if !s.runs[r].userStop {
          StopBridgeEffect(ForgetRun(y, r), s.runs[r].bridge);
          StillClocks(ForgetRun(y, r), z);
          SameClocksTrans(s, ForgetRun(y, r), z);
        }
      } else {
        CrashClocks(s, y, r, p);
      }
    }
    if !(r in s.runs && !s.runs[r].userStop && !clean) { SameClocksOk(s, z); }
  }

  lemma CrashClocks(s: State, y: State, r: RunId, p: RepoPath)
    requires BreakersOk(s) && ClocksOk(s) && y == s.(bridges := y.bridges) && s.nextTimer !in s.timers
    requires r in s.runs && s.runs[r].repo == p && Ungated(s, r, p)
    ensures var x := NoteCrash(y, r); ClocksOk(if MustTrip(x, r) then TripBreaker(x, r) else ScheduleRestart(x, r))
  {
    var x := NoteCrash(y, r);
    StillClocks(s, x);
    SameClocksOk(s, x);
    if MustTrip(x, r) {
      assert HandlesBelow(x) by {
        forall q | q in s.breakers && s.breakers[q].timer.Some?
          ensures s.breakers[q].timer.value < s.nextTimer
        {
          assert BreakerOk(s, q);
        }
      }
      TripClocks(x, r, p);
    } else {
      ScheduleAnyClocks(x, r);
      SameClocksTrans(s, x, ScheduleRestart(x, r));
      SameClocksOk(s, ScheduleRestart(x, r));
    }
  }

  lemma AdmitClocks(s: State, r: RunId, p: RepoPath, o: SpawnOutcome)
    requires r !in s.runs && (p in s.breakers ==> s.breakers[p].state == HalfOpen)
    ensures SameClocks(s, Spawn(Admit(s, r, p), r, o))
  {
    var y := Admit(s, r, p);
    assert SameClocks(s, y);
    SpawnClocks(y, r, o);
    SameClocksTrans(s, y, Spawn(y, r, o));
  }

  lemma EvictedBreakersSame(s: State, dead: set<RunId>, p: RepoPath)
    ensures var z := EvictAll(s, dead);
      && (p in z.breakers <==> p in s.breakers)
      && (p in z.breakers ==> z.breakers[p].state == s.breakers[p].state)
  {
  }

  lemma StartClocks(s: State, r: RunId, ok: bool, alive: set<BridgeId>, o: SpawnOutcome)
    requires BreakersOk(s) && r in s.starts && r !in s.runs
    ensures SameClocks(s, StartContinued(s, r, ok, alive, o))
  {
    var s0 := s.(starts := s.starts - {r});
    var dead := StrandedRuns(s, alive);
    var s1 := EvictAll(s0, dead);
    StillClocks(s, s0);
    assert BreakersOk(s0) by { forall p | p in s.breakers ensures BreakerOk(s0, p) { assert BreakerOk(s, p); } }
    EvictClocks(s0, dead);
    SameClocksTrans(s, s0, s1);
    if Decide(s, r, ok, alive) == Admitted {
      assert !BreakerRefuses(s, s.starts[r], r);
      EvictedBreakersSame(s0, dead, s.starts[r]);
      AdmitClocks(s1, r, s.starts[r], o);
      SameClocksTrans(s, s1, Spawn(Admit(s1, r, s.starts[r]), r, o));
    }
  }

  lemma TimerClocks(s: State, t: TimerId, o: SpawnOutcome)
    requires Core(s) && ClocksOk(s) && Enabled(s, TimerDue(t, o))
    ensures ClocksOk(TimerFired(s, t, o))
  {
    match s.timers[t].alarm {
      case Backoff(r) =>
        assert TimerOk(s, t) && GuardedOk(s, r) && RunOk(s, r);
        var y := CloseBridge(TakeTimer(s, t, r), r);
        StopBridgeEffect(TakeTimer(s, t, r), s.runs[r].bridge);
        TakenClocks(s, y, t);
        SpawnClocks(y, r, o);
        SameClocksTrans(s, y, Spawn(y, r, o));
        SameClocksOk(s, Spawn(y, r, o));
      case Cooldown(p) => HalfOpenClocks(s, t, p);
      case Survival(p, r) => SurvivalClocks(s, t, p, r);
    }
  }

  lemma TakenClocks(s: State, y: State, t: TimerId)
    requires y.breakers == s.breakers && y.timers == s.timers - {t} && y.nextTimer == s.nextTimer
    requires y.hist.firstTrip == s.hist.firstTrip && y.now == s.now
    ensures SameClocks(s, y)
  {
  }

  lemma SurvivalClocks(s: State, t: TimerId, p: RepoPath, r: RunId)
    requires BreakersOk(s) && ClocksOk(s)
    ensures ClocksOk(SurvivalElapsed(s, t, p, r))
  {
    var y := s.(timers := s.timers - {t});
    var z := SurvivalElapsed(s, t, p, r);
    TakenClocks(s, y, t);
    SameClocksOk(s, y);
    if z != y {
      forall q | q in z.breakers ensures ClockOk(z, q) { assert q != p && ClockOk(y, q); }
    }
  }

  lemma StopClocks(s: State, r: RunId)
    requires r in s.runs ==> ProbeFree(s, r)
    ensures SameClocks(s, StopRequested(s, r))
  {
    if r in s.runs {
      var y := StopMarked(s, r);
      StopMarkedClocks(s, r);
      if s.runs[r].bridge.None? {
        ForgetClocks(y, r);
        SameClocksTrans(s, y, ForgetRun(y, r));
      } else {
        StopBridgeEffect(y, s.runs[r].bridge);
        StillClocks(y, StopRequested(s, r));
        SameClocksTrans(s, y, StopRequested(s, r));
      }
    }
  }

  lemma StopMarkedClocks(s: State, r: RunId)
    requires r in s.runs
    ensures SameClocks(s, StopMarked(s, r)) && StopMarked(s, r).breakers == s.breakers
  {
  }

  lemma StopSettledClocks(s: State, r: RunId)
    requires r in s.runs ==> ProbeFree(s, r)
    ensures SameClocks(s, StopSettled(s, r))
  {
    var y := s.(stops := s.stops - multiset{r});
    StillClocks(s, y);
    if r in s.runs {
      ForgetClocks(y, r);
      SameClocksTrans(s, y, ForgetRun(y, r));
    }
  }

  lemma SpawnedClocks(s: State, b: BridgeId)
    requires b in s.bridges
    ensures SameClocks(s, BridgeSpawned(s, b))
  {
    var r := s.bridges[b].owner;
    if r in s.runs {
      var y := s.(bridges := s.bridges[b := s.bridges[b].(spawned := true)],
                  runs := s.runs[r := s.runs[r].(state := Running)],
                  hist := s.hist.(upSince := s.hist.upSince[r := s.now]));
      StillClocks(s, y);
      NoteProbeClocks(y, s.runs[r].repo, r);
      SameClocksTrans(s, y, NoteProbeSpawned(y, s.runs[r].repo, r));
    }
  }

  lemma ProbeFreeByCore(s: State, r: RunId)
    requires Core(s)
    ensures ProbeFree(s, r)
  {
    if r in s.runs { OwnFacts(s, r); }
  }

  lemma StepClocks(s: State, e: Event)
    requires Core(s) && ClocksOk(s) && Enabled(s, e)
    ensures ClocksOk(Step(s, e))
  {
    match e {
      case OnExit(b, clean) => ExitClocks(s, b, clean);
      case TimerDue(t, o) => TimerClocks(s, t, o);
      case StartResumes(r, ok, alive, o) => StartClocks(s, r, ok, alive, o); SameClocksOk(s, Step(s, e));
      case OnSpawned(b) => SpawnedClocks(s, b); SameClocksOk(s, Step(s, e));
      case StopCall(r) => ProbeFreeByCore(s, r); StopClocks(s, r); SameClocksOk(s, Step(s, e));
      case StopResumes(r) => ProbeFreeByCore(s, r); StopSettledClocks(s, r); SameClocksOk(s, Step(s, e));
      case StartCall(r, p) => StillClocks(s, Step(s, e)); SameClocksOk(s, Step(s, e));
      case Activity(r) => StillClocks(s, Step(s, e)); SameClocksOk(s, Step(s, e));
      case Tick(d) => StillClocks(s, Step(s, e)); SameClocksOk(s, Step(s, e));
    }
  }

  /** Five failed probes cost at least 95 minutes of cooldown. */
  lemma ExhaustionTakes95Minutes(s: State, p: RepoPath)
    requires ClocksOk(s) && p in s.breakers && s.breakers[p].state == Open
      && s.breakers[p].failedProbes >= CIRCUIT_MAX_PROBES
    requires BreakerOk(s, p)
    ensures p in s.hist.firstTrip && s.breakers[p].openedAt - s.hist.firstTrip[p] >= 95 * 60_000
  {
    assert ClockOk(s, p);
    assert CooldownFor(0) == 300_000 && CooldownFor(1) == 600_000 && CooldownFor(2) == 1_200_000;
    assert Pow2(3) == 8 && Pow2(4) == 16;
    assert CooldownFor(3) == 1_800_000 && CooldownFor(4) == 1_800_000;
    assert CooldownSum(1) == 300_000;
    assert CooldownSum(3) == 2_100_000;
    assert CooldownSum(5) == 5_700_000;
  }
}
