/** Theorems about whole runs of the run manager: every state a run passes through, and what
    the events between two of its states must have been. */
module SupervisionRuns {
  import opened Wrappers
  import opened Supervision
  import opened SupervisionSafety
  import opened SupervisionHistory
  import opened SupervisionClock

  ghost predicate Inv(s: State) {
    Core(s) && HistOk(s) && CapOk(s) && ClocksOk(s)
  }

  /** `trace[i + 1]` is the state after event `i`; every event obeys the environment's contract. */
  ghost predicate IsRun(trace: seq<State>, events: seq<Event>) {
    && |trace| == |events| + 1
    && (exists now, cap :: trace[0] == Init(now, cap))
    && (forall i | 0 <= i < |events| :: Turn(trace[i], events[i], trace[i + 1]))
  }

  predicate Turn(s: State, e: Event, z: State) {
    Enabled(s, e) && Fresh(s, e) && z == Step(s, e)
  }

  lemma InitInv(now: int, cap: nat)
    ensures Inv(Init(now, cap))
  {
    InitCore(now, cap);
  }

  lemma TurnInv(s: State, e: Event, z: State)
    requires Inv(s) && Turn(s, e, z)
    ensures Inv(z)
  {
    StepCore(s, e);
    StepHist(s, e);
    StepCap(s, e);
    StepClocks(s, e);
  }

  lemma {:induction false} RunInv(trace: seq<State>, events: seq<Event>, i: nat)
    requires IsRun(trace, events) && i < |trace|
    ensures Inv(trace[i])
  {
    hide Inv, Step, Enabled;
    if i == 0 {
      var now, cap :| trace[0] == Init(now, cap);
      InitInv(now, cap);
    } else {
      RunInv(trace, events, i - 1);
      TurnInv(trace[i - 1], events[i - 1], trace[i]);
    }
  }

  // ----- What one event can do to the runs -----

  /** The run an event is about. */
  function Subject(s: State, e: Event): Option<RunId>
    requires Enabled(s, e)
  {
    match e
    case StartResumes(r, ok, alive, o) => Some(r)
    case OnSpawned(b) => Some(s.bridges[b].owner)
    case OnExit(b, clean) => Some(s.bridges[b].owner)
    case TimerDue(t, o) => if s.timers[t].alarm.Backoff? then Some(s.timers[t].alarm.runId) else None
    case StopCall(r) => Some(r)
    case StopResumes(r) => Some(r)
    case Activity(r) => Some(r)
    case StartCall(r, p) => None
    case Tick(d) => None
  }

  /** Other runs are dropped at most, and nothing is recorded about them. */
  ghost predicate Bystander(s: State, z: State, q: RunId) {
    && (q in z.runs ==> q in s.runs && z.runs[q] == s.runs[q])
    && Count(z.hist.spawns, q) == Count(s.hist.spawns, q)
  }

  lemma OnlyRunBystander(s: State, z: State, r: RunId, q: RunId)
    requires OnlyRun(s, z, r) && q != r
    ensures Bystander(s, z, q)
  {
    CountOther(z.hist.spawns, s.hist.spawns, r, q);
  }

  lemma SpawnOnlyRun(s: State, y: State, r: RunId, o: SpawnOutcome)
    requires OnlyRun(s, y, r) && r in y.runs
    ensures OnlyRun(s, Spawn(y, r, o), r)
  {
    SpawnRecords(y, r, o);
    if o == Started {
      OnlyRunTrans(s, y, Spawn(y, r, o), r);
    } else {
      var x := SpawnFailed(y, r, o);
      OnlyRunTrans(s, y, x, r);
      ScheduleOnlyRun(s, x, r);
    }
  }

  lemma ScheduleOnlyRun(s: State, y: State, r: RunId)
    requires OnlyRun(s, y, r) && r in y.runs
    ensures OnlyRun(s, ScheduleRestart(y, r), r)
  {
    if GivesUp(y, r) { GiveUpUnrecorded(y, r); } else { ScheduleRecords(y, r); }
    OnlyRunTrans(s, y, ScheduleRestart(y, r), r);
  }

  lemma ExitOnlyRun(s: State, b: BridgeId, clean: bool)
    requires b in s.bridges
    ensures OnlyRun(s, BridgeExited(s, b, clean), s.bridges[b].owner)
  {
    var r := s.bridges[b].owner;
    var y := MarkExited(s, b);
    if r in s.runs {
      var x := NoteCrash(y, r);
      if s.runs[r].userStop {
        ForgetUnrecorded(y, r);
      } else if clean {
        ForgetUnrecorded(y, r);
        StopBridgeEffect(ForgetRun(y, r), s.runs[r].bridge);
      } else {
        assert OnlyRun(s, x, r);
        if MustTrip(x, r) {
          TripUnrecorded(x, r);
          OnlyRunTrans(s, x, TripBreaker(x, r), r);
        } else {
          ScheduleOnlyRun(s, x, r);
        }
      }
    }
  }

  lemma StartOnlyRun(s: State, r: RunId, ok: bool, alive: set<BridgeId>, o: SpawnOutcome)
    requires r in s.starts && r !in s.runs
    ensures OnlyRun(s, StartContinued(s, r, ok, alive, o), r)
  {
    var s1 := EvictAll(s.(starts := s.starts - {r}), StrandedRuns(s, alive));
    if Decide(s, r, ok, alive) == Admitted {
      AdmitRecords(s1, r, s.starts[r]);
      OnlyRunTrans(s, s1, Admit(s1, r, s.starts[r]), r);
      SpawnOnlyRun(s, Admit(s1, r, s.starts[r]), r, o);
    }
  }

  lemma BackoffOnlyRun(s: State, t: TimerId, r: RunId, o: SpawnOutcome)
    requires t in s.timers
    ensures OnlyRun(s, BackoffElapsed(s, t, r, o), r)
  {
    if r in s.runs {
      var y := CloseBridge(TakeTimer(s, t, r), r);
      StopBridgeEffect(TakeTimer(s, t, r), s.runs[r].bridge);
      SpawnOnlyRun(s, y, r, o);
    }
  }

  lemma StepBystander(s: State, e: Event, q: RunId)
    requires Core(s) && Enabled(s, e) && Subject(s, e) != Some(q)
    ensures Bystander(s, Step(s, e), q)
  {
    match e {
      case StartResumes(r, ok, alive, o) => StartOnlyRun(s, r, ok, alive, o); OnlyRunBystander(s, Step(s, e), r, q);
      case OnSpawned(b) => SpawnedUnrecorded(s, b); OnlyRunBystander(s, Step(s, e), s.bridges[b].owner, q);
      case OnExit(b, clean) => ExitOnlyRun(s, b, clean); OnlyRunBystander(s, Step(s, e), s.bridges[b].owner, q);
      case TimerDue(t, o) =>
        if s.timers[t].alarm.Backoff? {
          BackoffOnlyRun(s, t, s.timers[t].alarm.runId, o);
          OnlyRunBystander(s, Step(s, e), s.timers[t].alarm.runId, q);
        } else {
          TimerStill(s, t, o);
        }
      case StopCall(r) => StopUnrecorded(s, r); OnlyRunBystander(s, Step(s, e), r, q);
      case StopResumes(r) =>
        ForgetUnrecorded(s.(stops := s.stops - multiset{r}), r);
        OnlyRunBystander(s, Step(s, e), r, q);
      case Activity(r) =>
      case StartCall(r, p) =>
      case Tick(d) =>
    }
  }

  lemma TimerStill(s: State, t: TimerId, o: SpawnOutcome)
    requires t in s.timers && !s.timers[t].alarm.Backoff?
    ensures TimerFired(s, t, o).runs == s.runs && TimerFired(s, t, o).hist.spawns == s.hist.spawns
  {
    hide BackoffElapsed;
  }

  // ----- Once stopped or forgotten, never again -----

  /** The run was started, is not being admitted, and is stopped by the user or no longer tracked. */
  predicate Over(s: State, r: RunId) {
    r in s.hist.used && r !in s.starts && (r in s.runs ==> s.runs[r].userStop)
  }

  lemma OverStays(s: State, e: Event, z: State, r: RunId)
    requires Core(s) && Turn(s, e, z) && Over(s, r)
    ensures Over(z, r) && Count(z.hist.spawns, r) == Count(s.hist.spawns, r)
    ensures r !in s.runs ==> r !in z.runs
  {
    StepUsed(s, e);
    if r in s.runs { assert RunOk(s, r); }
    if Subject(s, e) != Some(r) {
      StepBystander(s, e, r);
    } else {
      OverSubject(s, e, z, r);
    }
  }

  lemma StepUsed(s: State, e: Event)
    requires Core(s) && Enabled(s, e) && Fresh(s, e)
    ensures s.hist.used <= Step(s, e).hist.used
    ensures forall q :: q in Step(s, e).starts ==> q in s.starts || q !in s.hist.used
  {
    match e {
      case StartResumes(r, ok, alive, o) => StartOnlyRun(s, r, ok, alive, o);
      case OnSpawned(b) => SpawnedUnrecorded(s, b);
      case OnExit(b, clean) => ExitOnlyRun(s, b, clean);
      case TimerDue(t, o) =>
        if s.timers[t].alarm.Backoff? {
          BackoffOnlyRun(s, t, s.timers[t].alarm.runId, o);
        } else {
          TimerQuiet(s, t, o);
        }
      case StopCall(r) => StopUnrecorded(s, r);
      case StopResumes(r) => ForgetUnrecorded(s.(stops := s.stops - multiset{r}), r);
      case Activity(r) =>
      case StartCall(r, p) =>
      case Tick(d) =>
    }
  }

  lemma OverSubject(s: State, e: Event, z: State, r: RunId)
    requires Core(s) && Turn(s, e, z) && Over(s, r) && Subject(s, e) == Some(r)
    requires r in s.runs ==> RunOk(s, r)
    ensures (r in z.runs ==> r in s.runs && z.runs[r].userStop) && Count(z.hist.spawns, r) == Count(s.hist.spawns, r)
  {
    match e {
      case OnSpawned(b) =>
      case OnExit(b, clean) => ForgetUnrecorded(MarkExited(s, b), r);
      case TimerDue(t, o) =>
      case StopCall(_) => StopUnrecorded(s, r);
      case StopResumes(_) => ForgetUnrecorded(s.(stops := s.stops - multiset{r}), r);
      case Activity(_) =>
    }
  }

  lemma OverAt(trace: seq<State>, events: seq<Event>, k: nat, r: RunId)
    requires IsRun(trace, events) && k < |events| && Over(trace[k], r)
    ensures Over(trace[k + 1], r) && Count(trace[k + 1].hist.spawns, r) == Count(trace[k].hist.spawns, r)
    ensures r !in trace[k].runs ==> r !in trace[k + 1].runs
  {
    RunInv(trace, events, k);
    OverStays(trace[k], events[k], trace[k + 1], r);
  }

  /** A run that the user stopped, or that the manager forgot, is never spawned again. */
  lemma {:induction false} NeverSpawnedAgain(trace: seq<State>, events: seq<Event>, i: nat, j: nat, r: RunId)
    requires IsRun(trace, events) && i <= j < |trace| && Over(trace[i], r)
    ensures Over(trace[j], r) && Count(trace[j].hist.spawns, r) == Count(trace[i].hist.spawns, r)
    ensures r !in trace[i].runs ==> r !in trace[j].runs
    decreases j
  {
    if i < j {
      NeverSpawnedAgain(trace, events, i, j - 1, r);
      OverAt(trace, events, j - 1, r);
    }
  }

  // ----- A breaker closes only on a probe that stayed up for the whole health window -----

  ghost predicate UpShrinks(s: State, z: State) {
    forall q :: q in z.hist.upSince ==> q in s.hist.upSince && z.hist.upSince[q] == s.hist.upSince[q]
  }

  lemma ForgetUp(s: State, r: RunId)
    ensures UpShrinks(s, ForgetRun(s, r))
  {
  }

  lemma ScheduleUp(s: State, r: RunId)
    requires r in s.runs
    ensures UpShrinks(s, ScheduleRestart(s, r))
  {
    if GivesUp(s, r) {
      StopBridgeEffect(s, s.runs[r].bridge);
      ForgetUp(CloseBridge(s, r), r);
    }
  }

  lemma SpawnUp(s: State, r: RunId, o: SpawnOutcome)
    requires r in s.runs
    ensures UpShrinks(s, Spawn(s, r, o))
  {
    if o != Started { ScheduleUp(SpawnFailed(s, r, o), r); }
  }

  lemma TripUp(s: State, r: RunId)
    requires r in s.runs
    ensures UpShrinks(s, TripBreaker(s, r))
  {
    var s1 := ClearTimer(s, BreakerTimer(s, s.runs[r].repo));
    StopBridgeEffect(s1, s.runs[r].bridge);
    InstallEffect(Untrack(StopBridge(s1, s.runs[r].bridge), r), s.runs[r].repo, FailedAfterTrip(s, s.runs[r].repo));
  }

  lemma ExitUp(s: State, b: BridgeId, clean: bool)
    requires b in s.bridges
    ensures UpShrinks(s, BridgeExited(s, b, clean))
  {
    var r := s.bridges[b].owner;
    var y := MarkExited(s, b);
    if r in s.runs {
      ForgetUp(y, r);
      StopBridgeEffect(ForgetRun(y, r), s.runs[r].bridge);
      TripUp(NoteCrash(y, r), r);
      ScheduleUp(NoteCrash(y, r), r);
    }
    hide ForgetRun, TripBreaker, ScheduleRestart, StopBridge, MustTrip;
  }

  lemma TimerUp(s: State, t: TimerId, o: SpawnOutcome)
    requires t in s.timers
    ensures UpShrinks(s, TimerFired(s, t, o))
  {
    match s.timers[t].alarm {
      case Backoff(r) =>
        if r in s.runs {
          StopBridgeEffect(TakeTimer(s, t, r), s.runs[r].bridge);
          SpawnUp(CloseBridge(TakeTimer(s, t, r), r), r, o);
        }
      case Cooldown(p) =>
      case Survival(p, r) =>
    }
  }

  lemma StopUp(s: State, r: RunId)
    ensures UpShrinks(s, StopRequested(s, r)) && UpShrinks(s, StopSettled(s, r))
  {
    if r in s.runs {
      ForgetUp(StopMarked(s, r), r);
      StopBridgeEffect(StopMarked(s, r), s.runs[r].bridge);
      ForgetUp(s.(stops := s.stops - multiset{r}), r);
    }
  }

  lemma SpawnedUp(s: State, b: BridgeId)
    requires b in s.bridges
    ensures var z := BridgeSpawned(s, b); forall q :: q in z.hist.upSince ==>
      (q in s.hist.upSince && z.hist.upSince[q] == s.hist.upSince[q])
        || (q == s.bridges[b].owner && z.hist.upSince[q] == s.now)
  {
  }

  lemma StartUp(s: State, r: RunId, ok: bool, alive: set<BridgeId>, o: SpawnOutcome)
    requires r in s.starts
    ensures UpShrinks(s, StartContinued(s, r, ok, alive, o))
  {
    if Decide(s, r, ok, alive) == Admitted {
      SpawnUp(Admit(EvictAll(s.(starts := s.starts - {r}), StrandedRuns(s, alive)), r, s.starts[r]), r, o);
    }
  }

  predicate SpawnOf(s: State, e: Event, r: RunId) {
    e.OnSpawned? && e.bridge in s.bridges && s.bridges[e.bridge].owner == r
  }

  lemma StepUp(s: State, e: Event, r: RunId)
    requires Enabled(s, e) && r in Step(s, e).hist.upSince
    ensures var z := Step(s, e);
      || (r in s.hist.upSince && z.hist.upSince[r] == s.hist.upSince[r])
      || (SpawnOf(s, e, r) && z.hist.upSince[r] == s.now)
  {
    match e {
      case StartResumes(q, ok, alive, o) => StartUp(s, q, ok, alive, o);
      case OnSpawned(b) => SpawnedUp(s, b);
      case OnExit(b, clean) => ExitUp(s, b, clean);
      case TimerDue(t, o) => TimerUp(s, t, o);
      case StopCall(q) => StopUp(s, q);
      case StopResumes(q) => StopUp(s, q);
      case Activity(_) =>
      case StartCall(_, _) =>
      case Tick(_) =>
    }
  }

  /** Run `r` spawned its CLI at event `j` and has been up in every state since. */
  ghost predicate UpFrom(trace: seq<State>, events: seq<Event>, j: nat, i: nat, r: RunId)
    requires |trace| == |events| + 1
  {
    && j < i < |trace|
    && SpawnOf(trace[j], events[j], r)
    && (forall k | j < k <= i :: UpIn(trace[k], r))
  }

  predicate UpIn(s: State, r: RunId) {
    r in s.runs && (s.runs[r].state == Running || s.runs[r].state == Stopping)
  }

  lemma UpAt(trace: seq<State>, events: seq<Event>, i: nat, r: RunId)
    requires IsRun(trace, events) && i < |trace| && r in trace[i].hist.upSince
    ensures UpIn(trace[i], r) && i > 0 && Turn(trace[i - 1], events[i - 1], trace[i])
  {
    hide Turn, HistOk, CapOk, ClocksOk;
    RunInv(trace, events, i);
    UpIsIn(trace[i], r);
    hide Core, Inv;
  }

  lemma UpIsIn(s: State, r: RunId)
    requires Core(s) && r in s.hist.upSince
    ensures UpIn(s, r)
  {
    assert UpOk(s);
    hide Core;
  }

  lemma TurnUp(s: State, e: Event, z: State, r: RunId)
    requires Turn(s, e, z) && r in z.hist.upSince
    ensures (r in s.hist.upSince && z.hist.upSince[r] == s.hist.upSince[r])
      || (SpawnOf(s, e, r) && z.hist.upSince[r] == s.now)
  {
    StepUp(s, e, r);
    hide Step, Enabled, SpawnOf;
  }

  lemma UpFromSpawn(trace: seq<State>, events: seq<Event>, i: nat, r: RunId)
    requires |trace| == |events| + 1 && 0 < i < |trace|
    requires SpawnOf(trace[i - 1], events[i - 1], r) && UpIn(trace[i], r)
    ensures UpFrom(trace, events, i - 1, i, r)
  {
  }

  lemma UpFromBefore(trace: seq<State>, events: seq<Event>, j: nat, i: nat, r: RunId)
    requires |trace| == |events| + 1 && 0 < i < |trace| && UpFrom(trace, events, j, i - 1, r) && UpIn(trace[i], r)
    ensures UpFrom(trace, events, j, i, r)
  {
  }

  lemma {:induction false} UpOrigin(trace: seq<State>, events: seq<Event>, i: nat, r: RunId) returns (j: nat)
    requires IsRun(trace, events) && i < |trace| && r in trace[i].hist.upSince
    ensures UpFrom(trace, events, j, i, r) && trace[j].now == trace[i].hist.upSince[r]
  {
    UpAt(trace, events, i, r);
    var s, e := trace[i - 1], events[i - 1];
    TurnUp(s, e, trace[i], r);
    hide Turn, SpawnOf, UpIn;
    if SpawnOf(s, e, r) && trace[i].hist.upSince[r] == s.now {
      j := i - 1;
      UpFromSpawn(trace, events, i, r);
    } else {
      j := UpOrigin(trace, events, i - 1, r);
      UpFromBefore(trace, events, j, i, r);
    }
    hide IsRun;
  }

  /** The health check that a closing breaker has passed. */
  ghost predicate Healthy(trace: seq<State>, events: seq<Event>, i: nat, p: RepoPath, r: RunId, j: nat)
    requires |trace| == |events| + 1 && i < |events|
  {
    && p in trace[i].breakers && trace[i].breakers[p].state == HalfOpen && trace[i].breakers[p].probeRunId == Some(r)
    && r in trace[i].runs && trace[i].runs[r].repo == p && Active(trace[i].runs[r])
    && UpFrom(trace, events, j, i, r)
    && trace[i].now - trace[j].now >= 30_000
  }

  lemma TripKeepsBreakers(s: State, r: RunId)
    requires r in s.runs
    ensures s.breakers.Keys <= TripBreaker(s, r).breakers.Keys
  {
    var s1 := ClearTimer(s, BreakerTimer(s, s.runs[r].repo));
    StopBridgeEffect(s1, s.runs[r].bridge);
    assert Untrack(StopBridge(s1, s.runs[r].bridge), r).breakers == s.breakers;
  }

  lemma ExitKeepsBreakers(s: State, b: BridgeId, clean: bool)
    requires Core(s) && b in s.bridges
    ensures s.breakers.Keys <= BridgeExited(s, b, clean).breakers.Keys
  {
    var r := s.bridges[b].owner;
    var y := MarkExited(s, b);
    if r in s.runs {
      ProbeFreeByCore(s, r);
      var x := NoteCrash(y, r);
      if s.runs[r].userStop || clean {
        ForgetClocks(y, r);
        StopBridgeEffect(ForgetRun(y, r), s.runs[r].bridge);
      } else if MustTrip(x, r) {
        TripKeepsBreakers(x, r);
      } else {
        ScheduleAnyClocks(x, r);
      }
    }
  }

  lemma BackoffKeepsBreakers(s: State, t: TimerId, r: RunId, o: SpawnOutcome)
    requires Core(s)
    ensures s.breakers.Keys <= BackoffElapsed(s, t, r, o).breakers.Keys
  {
    if r in s.runs {
      ProbeFreeByCore(s, r);
      StopBridgeEffect(TakeTimer(s, t, r), s.runs[r].bridge);
      SpawnClocks(CloseBridge(TakeTimer(s, t, r), r), r, o);
    }
  }

  lemma ClosingTimer(s: State, t: TimerId, o: SpawnOutcome, p: RepoPath)
    requires Core(s) && t in s.timers && s.timers[t].due <= s.now
    requires p in s.breakers && p !in TimerFired(s, t, o).breakers
    ensures s.timers[t].alarm.Survival? && s.timers[t].alarm.probeRepo == p
    ensures var r := s.timers[t].alarm.probe;
      && s.breakers[p].state == HalfOpen && s.breakers[p].probeRunId == Some(r)
      && r in s.runs && s.runs[r].repo == p && Active(s.runs[r])
      && r in s.hist.upSince && s.hist.upSince[r] + CIRCUIT_PROBE_HEALTHY_MS <= s.now
  {
    match s.timers[t].alarm {
      case Backoff(r) => BackoffKeepsBreakers(s, t, r, o);
      case Cooldown(q) =>
      case Survival(q, r) => SurvivalHand(s, t, q, r);
    }
  }

  /** Only a survival timer deletes a breaker, and only that of its own, still healthy probe. */
  lemma ClosingEvent(s: State, e: Event, p: RepoPath)
    requires Core(s) && Enabled(s, e) && p in s.breakers && p !in Step(s, e).breakers
    ensures e.TimerDue? && s.timers[e.timer].alarm.Survival? && s.timers[e.timer].alarm.probeRepo == p
    ensures var r := s.timers[e.timer].alarm.probe;
      && s.breakers[p].state == HalfOpen && s.breakers[p].probeRunId == Some(r)
      && r in s.runs && s.runs[r].repo == p && Active(s.runs[r])
      && r in s.hist.upSince && s.hist.upSince[r] + CIRCUIT_PROBE_HEALTHY_MS <= s.now
  {
    match e {
      case TimerDue(t, o) => ClosingTimer(s, t, o, p);
      case StartResumes(r, ok, alive, o) => StartClocks(s, r, ok, alive, o);
      case OnSpawned(b) => SpawnedClocks(s, b);
      case OnExit(b, clean) => ExitKeepsBreakers(s, b, clean);
      case StopCall(r) => ProbeFreeByCore(s, r); StopClocks(s, r);
      case StopResumes(r) => ProbeFreeByCore(s, r); StopSettledClocks(s, r);
      case StartCall(_, _) =>
      case Activity(_) =>
      case Tick(_) =>
    }
  }

  /** A breaker that event `i` deletes was half-open, and its probe had been spawned at an event
      `j` at least the health window ago and stayed tracked and uncrashed ever since. */
  lemma ClosesOnlyOnHealth(trace: seq<State>, events: seq<Event>, i: nat, p: RepoPath) returns (r: RunId, j: nat)
    requires IsRun(trace, events) && i < |events|
    requires p in trace[i].breakers && p !in trace[i + 1].breakers
    ensures Healthy(trace, events, i, p, r, j)
  {
    RunInv(trace, events, i);
    assert Turn(trace[i], events[i], trace[i + 1]);
    ClosingEvent(trace[i], events[i], p);
    r := trace[i].timers[events[i].timer].alarm.probe;
    j := UpOrigin(trace, events, i, r);
  }

  /** A due survival timer finds its probe starting or running. */
  predicate ProbeSurvived(s: State, e: Event, p: RepoPath) {
    && e.TimerDue? && e.timer in s.timers && s.timers[e.timer].alarm.Survival? && s.timers[e.timer].alarm.probeRepo == p
    && s.timers[e.timer].alarm.probe in s.runs && Active(s.runs[s.timers[e.timer].alarm.probe])
  }

  /** The one event that deletes a breaker. */
  lemma ClosesIff(trace: seq<State>, events: seq<Event>, i: nat, p: RepoPath)
    requires IsRun(trace, events) && i < |events| && p in trace[i].breakers
    ensures p !in trace[i + 1].breakers <==> ProbeSurvived(trace[i], events[i], p)
  {
    RunInv(trace, events, i);
    var s, e := trace[i], events[i];
    assert Turn(s, e, trace[i + 1]);
    hide IsRun;
    if p !in trace[i + 1].breakers { ClosingEvent(s, e, p); }
    if ProbeSurvived(s, e, p) { SurvivalCloses(s, e.timer, e.outcome, p); }
    hide Core, Step;
  }

  lemma SurvivalCloses(s: State, t: TimerId, o: SpawnOutcome, p: RepoPath)
    requires Core(s) && ProbeSurvived(s, TimerDue(t, o), p)
    ensures p !in TimerFired(s, t, o).breakers
  {
    assert TimerOk(s, t);
  }

  /** Spawning is not health: a probe whose CLI comes up is running, and its breaker stays half-open for
      the health window at least. */
  lemma SpawnedProbeIsWatched(trace: seq<State>, events: seq<Event>, i: nat, p: RepoPath, r: RunId)
    requires IsRun(trace, events) && i < |events| && SpawnOf(trace[i], events[i], r)
    requires p in trace[i].breakers
    requires trace[i].breakers[p].state == HalfOpen && trace[i].breakers[p].probeRunId == Some(r)
    ensures var z := trace[i + 1];
      && r in z.runs && z.runs[r].state == Running && p in z.breakers
      && z.breakers[p].state == HalfOpen && z.breakers[p].probeRunId == Some(r)
      && z.breakers[p].timer.Some? && z.breakers[p].timer.value in z.timers
      && z.timers[z.breakers[p].timer.value] == Timer(trace[i].now + 30_000, Survival(p, r))
  {
    RunInv(trace, events, i);
    var s, b := trace[i], events[i].bridge;
    assert Turn(s, events[i], trace[i + 1]);
    hide IsRun;
    assert BreakerOk(s, p) && BridgeOk(s, b);
    hide Core;
  }

  // ----- Every state of every run -----

  /** No orphaned bridge. */
  lemma NoOrphanedBridge(trace: seq<State>, events: seq<Event>, i: nat, b: BridgeId)
    requires IsRun(trace, events) && i < |trace| && b in trace[i].bridges && !trace[i].bridges[b].stopped
    ensures var s := trace[i]; var r := s.bridges[b].owner; r in s.runs && s.runs[r].bridge == Some(b)
  {
    RunInv(trace, events, i);
    assert BridgeOk(trace[i], b);
  }

  /** An open breaker's repo runs nothing; a half-open one's runs nothing but its tracked probe. */
  lemma BreakerGuardsRepo(trace: seq<State>, events: seq<Event>, i: nat, p: RepoPath)
    requires IsRun(trace, events) && i < |trace| && p in trace[i].breakers
    ensures var s := trace[i]; var b := s.breakers[p];
      && (b.state == Open ==> b.probeRunId.None?)
      && (b.probeRunId.Some? ==> b.probeRunId.value in s.runs && s.runs[b.probeRunId.value].repo == p)
      && (forall r :: r in s.runs && s.runs[r].repo == p && Occupying(s.runs[r]) ==>
        b.state == HalfOpen && b.probeRunId == Some(r))
  {
    RunInv(trace, events, i);
    var s := trace[i];
    assert BreakerOk(s, p);
    forall r | r in s.runs && s.runs[r].repo == p && Occupying(s.runs[r])
      ensures s.breakers[p].state == HalfOpen && s.breakers[p].probeRunId == Some(r)
    {
      assert GuardedOk(s, r);
    }
  }

  /** No silent latch: below the probe cap an open breaker has its half-open timer armed for the
      end of its cooldown; at the cap it has served 95 minutes. */
  lemma NoSilentLatch(trace: seq<State>, events: seq<Event>, i: nat, p: RepoPath)
    requires IsRun(trace, events) && i < |trace| && p in trace[i].breakers
    ensures var s := trace[i]; var b := s.breakers[p];
      && b.failedProbes <= CIRCUIT_MAX_PROBES
      && (b.state == HalfOpen ==> b.failedProbes < CIRCUIT_MAX_PROBES)
      && (b.state == Open && b.failedProbes < CIRCUIT_MAX_PROBES ==>
            && b.timer.Some? && b.timer.value in s.timers
            && s.timers[b.timer.value] == Timer(b.openedAt + CooldownFor(b.failedProbes), Cooldown(p)))
      && (b.failedProbes == CIRCUIT_MAX_PROBES ==>
            p in s.hist.firstTrip && b.openedAt - s.hist.firstTrip[p] >= 95 * 60_000)
  {
    RunInv(trace, events, i);
    var s := trace[i];
    assert BreakerOk(s, p) && ClockOk(s, p);
    if s.breakers[p].failedProbes == CIRCUIT_MAX_PROBES { ExhaustionTakes95Minutes(s, p); }
  }

  /** One starting, running or crashed run per repo, and never more first-time runs than slots. */
  lemma OneRunPerRepo(trace: seq<State>, events: seq<Event>, i: nat, r1: RunId, r2: RunId)
    requires IsRun(trace, events) && i < |trace| && r1 in trace[i].runs && r2 in trace[i].runs
    requires Occupying(trace[i].runs[r1]) && Occupying(trace[i].runs[r2])
      && trace[i].runs[r1].repo == trace[i].runs[r2].repo
    ensures r1 == r2
  {
    RunInv(trace, events, i);
  }

  lemma FirstTimersFitTheCap(trace: seq<State>, events: seq<Event>, i: nat)
    requires IsRun(trace, events) && i < |trace|
    ensures |FirstTimers(trace[i])| <= trace[i].cap
  {
    RunInv(trace, events, i);
  }

  /** Active runs beyond the cap are respawns: each was restarted at least once. */
  lemma OnlyRespawnsExceedTheCap(trace: seq<State>, events: seq<Event>, i: nat)
    requires IsRun(trace, events) && i < |trace|
    ensures var s := trace[i];
      |ActiveRuns(s)| <= s.cap + |set r | r in s.runs && Active(s.runs[r]) && s.runs[r].restartCount > 0|
  {
    RunInv(trace, events, i);
    var s := trace[i];
    var again := set r | r in s.runs && Active(s.runs[r]) && s.runs[r].restartCount > 0;
    assert ActiveRuns(s) == FirstTimers(s) + again;
  }

  /** The pruned crash list of a tracked run is its full crash history cut to the window, every
      window of that history stayed below the threshold, and its spawns are within budget. */
  lemma CrashAndSpawnBudget(trace: seq<State>, events: seq<Event>, i: nat, r: RunId)
    requires IsRun(trace, events) && i < |trace|
    ensures var s := trace[i]; var h := CrashesOf(s.hist, r);
      && Count(s.hist.spawns, r) <= 11 && Count(s.hist.delays, r) <= 181_000
      && (r in s.runs ==> WindowsOpen(h) && s.runs[r].recentCrashes == (if h == [] then [] else Recent(h, h[|h| - 1])))
  {
    RunInv(trace, events, i);
    if r in trace[i].runs { assert RunHistOk(trace[i], r); }
  }

  /** No slot is pinned for ever: a crashed run has its respawn armed, a stopping one the
      continuation that drops it, an active one a bridge that is live and was not stopped. */
  lemma NoStrandedEntry(trace: seq<State>, events: seq<Event>, i: nat, r: RunId)
    requires IsRun(trace, events) && i < |trace| && r in trace[i].runs
    ensures var s := trace[i]; var run := s.runs[r];
      && (Active(run) ==>
            && run.bridge.Some? && run.bridge.value in s.bridges
            && s.bridges[run.bridge.value].live && !s.bridges[run.bridge.value].stopped)
      && (run.state == Crashed ==>
            && run.restartTimer.Some? && run.restartTimer.value in s.timers
            && s.timers[run.restartTimer.value].alarm == Backoff(r))
      && (Active(run) || run.state == Crashed || (run.state == Stopping && r in s.stops))
  {
    RunInv(trace, events, i);
    assert RunOk(trace[i], r);
  }
}
