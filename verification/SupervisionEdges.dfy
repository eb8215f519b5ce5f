/** Exactly when the run manager exceeds its concurrency cap, and what can follow a state when the
    environment is held to one contract or another. */
module SupervisionEdges {
  import opened Supervision
  import opened SupervisionSafety
  import opened SupervisionHistory
  import opened SupervisionRuns

  // ----- The concurrency cap -----

  /** The event puts a run back to work that does not count as active. */
  predicate Respawns(s: State, e: Event)
    requires Possible(s, e)
  {
    match e
    case TimerDue(t, o) =>
      && o == Started && s.timers[t].alarm.Backoff?
      && s.timers[t].alarm.runId in s.runs && !Active(s.runs[s.timers[t].alarm.runId])
    case OnSpawned(b) => s.bridges[b].owner in s.runs && s.runs[s.bridges[b].owner].state == Crashed
    case _ => false
  }

  /** Only `r` may have become active. */
  lemma OthersNotWoken(s: State, z: State, r: RunId)
    requires OnlyRun(s, z, r)
    ensures ActiveRuns(z) <= ActiveRuns(s) + {r}
    ensures !(r in z.runs && Active(z.runs[r])) || (r in s.runs && Active(s.runs[r])) ==> ActiveRuns(z) <= ActiveRuns(s)
  {
  }

  lemma BackoffCount(s: State, t: TimerId, r: RunId, o: SpawnOutcome)
    requires Core(s) && t in s.timers && s.timers[t].alarm == Backoff(r)
    ensures r in s.runs
    ensures var z := BackoffElapsed(s, t, r, o);
      if o == Started then ActiveRuns(z) == ActiveRuns(s) + {r} else ActiveRuns(z) <= ActiveRuns(s)
  {
    assert TimerOk(s, t);
    var y := CloseBridge(TakeTimer(s, t, r), r);
    StopBridgeEffect(TakeTimer(s, t, r), s.runs[r].bridge);
    var z := BackoffElapsed(s, t, r, o);
    if o != Started {
      BackoffOnlyRun(s, t, r, o);
      var x := SpawnFailed(y, r, o);
      if GivesUp(x, r) { GiveUpUnrecorded(x, r); } else { ScheduleRecords(x, r); }
      RestartRests(x, r);
      OthersNotWoken(s, z, r);
    }
  }

  /** A run that is rescheduled is not active afterwards. */
  lemma RestartRests(s: State, r: RunId)
    requires r in s.runs
    ensures var z := ScheduleRestart(s, r); !(r in z.runs && Active(z.runs[r]))
  {
    if GivesUp(s, r) { GiveUpUnrecorded(s, r); }
  }

  lemma SpawnedCount(s: State, b: BridgeId)
    requires Core(s) && Enabled(s, OnSpawned(b))
    ensures var r, z := s.bridges[b].owner, BridgeSpawned(s, b);
      && r in s.runs && ActiveRuns(z) == ActiveRuns(s) + {r} && (Active(s.runs[r]) || s.runs[r].state == Crashed)
  {
    var r := s.bridges[b].owner;
    assert BridgeOk(s, b) && RunOk(s, r);
  }

  lemma ExitCount(s: State, b: BridgeId, clean: bool)
    requires b in s.bridges
    ensures ActiveRuns(BridgeExited(s, b, clean)) <= ActiveRuns(s)
  {
    var r := s.bridges[b].owner;
    var y := MarkExited(s, b);
    var z := BridgeExited(s, b, clean);
    ExitOnlyRun(s, b, clean);
    if r in s.runs && !s.runs[r].userStop && !clean {
      var x := NoteCrash(y, r);
      if MustTrip(x, r) { TripUnrecorded(x, r); } else { RestartRests(x, r); }
    } else if r in s.runs {
      ForgetUnrecorded(y, r);
      StopBridgeEffect(ForgetRun(y, r), s.runs[r].bridge);
    }
    hide BridgeExited, NoteCrash, MustTrip, TripBreaker, ScheduleRestart, ForgetRun;
    OthersNotWoken(s, z, r);
  }

  lemma StartCount(s: State, r: RunId, ok: bool, alive: set<BridgeId>, o: SpawnOutcome)
    requires r in s.starts && r !in s.runs
    ensures var z := StartContinued(s, r, ok, alive, o);
      ActiveRuns(z) <= ActiveRuns(s) || |ActiveRuns(z)| <= s.cap
  {
    var z := StartContinued(s, r, ok, alive, o);
    var s1 := EvictAll(s.(starts := s.starts - {r}), StrandedRuns(s, alive));
    if Decide(s, r, ok, alive) == Admitted {
      assert ActiveRuns(s1) == ActiveRuns(EvictAll(s, StrandedRuns(s, alive)));
      AdmitRecords(s1, r, s.starts[r]);
      SpawnOnlyRun(s1, Admit(s1, r, s.starts[r]), r, o);
      OthersNotWoken(s1, z, r);
      SubsetCard(ActiveRuns(z), ActiveRuns(s1) + {r});
    }
  }

  /** No other event wakes a run. */
  lemma QuietCount(s: State, e: Event)
    requires Core(s) && Enabled(s, e) && !Respawns(s, e)
    ensures ActiveRuns(Step(s, e)) <= ActiveRuns(s) || |ActiveRuns(Step(s, e))| <= s.cap
  {
    match e {
      case StartResumes(r, ok, alive, o) => StartCount(s, r, ok, alive, o);
      case OnSpawned(b) => SpawnedCount(s, b);
      case OnExit(b, clean) => ExitCount(s, b, clean);
      case TimerDue(t, o) =>
        if s.timers[t].alarm.Backoff? { BackoffCount(s, t, s.timers[t].alarm.runId, o); } else { TimerStill(s, t, o); }
      case StopCall(r) => StopUnrecorded(s, r); StopCount(s, r);
      case StopResumes(r) => StopCount(s, r);
      case Activity(r) =>
      case StartCall(r, p) =>
      case Tick(d) =>
    }
  }

  lemma StopCount(s: State, r: RunId)
    ensures ActiveRuns(StopRequested(s, r)) <= ActiveRuns(s) && ActiveRuns(StopSettled(s, r)) <= ActiveRuns(s)
  {
    StopUnrecorded(s, r);
    var y := s.(stops := s.stops - multiset{r});
    ForgetUnrecorded(y, r);
    assert ActiveRuns(StopSettled(s, r)) <= ActiveRuns(y);
    OthersNotWoken(s, StopRequested(s, r), r);
  }

  lemma RespawnCount(s: State, e: Event)
    requires Core(s) && Enabled(s, e) && Respawns(s, e)
    ensures |ActiveRuns(Step(s, e))| == |ActiveRuns(s)| + 1
  {
    var r := if e.OnSpawned? then s.bridges[e.bridge].owner else s.timers[e.timer].alarm.runId;
    if e.OnSpawned? { SpawnedCount(s, e.bridge); } else { BackoffCount(s, e.timer, r, e.outcome); }
    assert ActiveRuns(Step(s, e)) == ActiveRuns(s) + {r} && r !in ActiveRuns(s);
    hide Step, ActiveRuns;
  }

  /** An event takes the number of active runs over the cap exactly if the cap is reached and the
      event is a respawn: a backoff timer that starts a run which is not active, or the late
      `onSpawned` of a crashed one. The backoff callback does not look at the cap. */
  lemma ExceedsCapIff(trace: seq<State>, events: seq<Event>, i: nat)
    requires IsRun(trace, events) && i < |events| && |ActiveRuns(trace[i])| <= trace[i].cap
    ensures Possible(trace[i], events[i]) && trace[i + 1].cap == trace[i].cap
    ensures |ActiveRuns(trace[i + 1])| > trace[i].cap
      <==> |ActiveRuns(trace[i])| == trace[i].cap && Respawns(trace[i], events[i])
  {
    RunInv(trace, events, i);
    var s, e := trace[i], events[i];
    assert Turn(s, e, trace[i + 1]);
    hide IsRun;
    StepQueue(s, e);
    if Respawns(s, e) {
      RespawnCount(s, e);
    } else {
      QuietCount(s, e);
      if ActiveRuns(Step(s, e)) <= ActiveRuns(s) { SubsetCard(ActiveRuns(Step(s, e)), ActiveRuns(s)); }
    }
    hide Step, Enabled, Respawns, Core;
  }

  // ----- Continuations of a state -----

  /** The bridge crashes again during the backoff of its run, and the run is rescheduled once more. */
  predicate ArmsTwice(s: State, b: BridgeId, clean: bool)
    requires b in s.bridges
  {
    && ExitsInBackoff(s, b) && !clean
    && var run := s.runs[s.bridges[b].owner];
    run.restartCount < MAX_RESTART_COUNT && |Recent(run.recentCrashes + [s.now], s.now)| < CIRCUIT_THRESHOLD
  }

  /** What the environment is held to: everything, everything but new run ids, everything but bridges
      that do not arm a second respawn, or everything but bridges that keep quiet during a backoff. */
  datatype Contract = Kept | IdsReused | ArmedOnce | ExitsRepeated

  predicate Allows(c: Contract, s: State, e: Event) {
    && Tolerated(s, e) && (c != IdsReused ==> Fresh(s, e))
    && match c
       case Kept => Enabled(s, e)
       case IdsReused => Enabled(s, e)
       case ArmedOnce => e.OnExit? ==> !ArmsTwice(s, e.bridge, e.clean)
       case ExitsRepeated => true
  }

  /** The events lead from `s` to `z`, each allowed where it happens. */
  ghost predicate Reaches(c: Contract, s: State, events: seq<Event>, z: State)
    decreases |events|
  {
    if events == [] then s == z
    else Allows(c, s, events[0]) && Reaches(c, Step(s, events[0]), events[1..], z)
  }

  lemma Prepend(c: Contract, s: State, e: Event, events: seq<Event>, z: State)
    requires Allows(c, s, e) && Reaches(c, Step(s, e), events, z)
    ensures Reaches(c, s, [e] + events, z)
  {
    assert ([e] + events)[1..] == events;
  }
}
