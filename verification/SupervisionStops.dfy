/** What is final in the run manager: a breaker whose probe budget is exhausted, and a stop, exactly
    when no start of the run can still get through. */
module SupervisionStops {
  import opened Wrappers
  import opened Supervision
  import opened SupervisionSafety
  import opened SupervisionHistory
  import opened SupervisionClock
  import opened SupervisionRuns
  import opened SupervisionEdges

  // ----- An exhausted breaker stays open for ever -----

  predicate Exhausted(s: State, p: RepoPath) {
    p in s.breakers && s.breakers[p].failedProbes >= CIRCUIT_MAX_PROBES
  }

  /** An open breaker that a step leaves open, as it leaves every open one: nothing of it changes. */
  lemma StaysOpen(s: State, z: State, p: RepoPath)
    requires BreakersOk(s) && Exhausted(s, p) && SameClocks(s, z)
    ensures p in z.breakers && z.breakers[p].state == Open && z.breakers[p].timer == s.breakers[p].timer
    ensures z.breakers[p].openedAt == s.breakers[p].openedAt && z.breakers[p].failedProbes == s.breakers[p].failedProbes
  {
    assert BreakerOk(s, p) && SameClock(s, z, p);
  }

  /** Whatever trips, it is not a run of an open repo. */
  lemma TripElsewhere(s: State, r: RunId, p: RepoPath)
    requires r in s.runs && s.runs[r].repo != p && p in s.breakers
    ensures p in TripBreaker(s, r).breakers && TripBreaker(s, r).breakers[p] == s.breakers[p]
  {
    var s1 := ClearTimer(s, BreakerTimer(s, s.runs[r].repo));
    StopBridgeEffect(s1, s.runs[r].bridge);
    hide CooldownFor, BreakerTimer, StopBridge, FailedAfterTrip;
  }

  lemma ExitExhausted(s: State, b: BridgeId, clean: bool, p: RepoPath)
    requires Core(s) && Enabled(s, OnExit(b, clean)) && Exhausted(s, p)
    ensures var z := BridgeExited(s, b, clean);
      SameClocks(s, z) || (p in z.breakers && z.breakers[p] == s.breakers[p])
  {
    var r := s.bridges[b].owner;
    var y := MarkExited(s, b);
    StillClocks(s, y);
    if r in s.runs {
      OwnFacts(s, r);
      assert BreakerOk(s, p);
      ExitForgets(s, y, r);
      var x := NoteCrash(y, r);
      StillClocks(s, x);
      ScheduleAnyClocks(x, r);
      SameClocksTrans(s, x, ScheduleRestart(x, r));
      if !s.runs[r].userStop { TripElsewhere(x, r, p); }
    }
    hide SameClocks, TripBreaker, ScheduleRestart, ForgetRun, StopBridge, MustTrip, Core;
  }

  lemma ExitForgets(s: State, y: State, r: RunId)
    requires Core(s) && r in s.runs && y == s.(bridges := y.bridges)
    ensures SameClocks(s, ForgetRun(y, r)) && SameClocks(s, StopBridge(ForgetRun(y, r), s.runs[r].bridge))
  {
    ProbeFreeByCore(s, r);
    StillClocks(s, y);
    ForgetClocks(y, r);
    var x := ForgetRun(y, r);
    SameClocksTrans(s, y, x);
    StopBridgeEffect(x, s.runs[r].bridge);
    StillClocks(x, StopBridge(x, s.runs[r].bridge));
    SameClocksTrans(s, x, StopBridge(x, s.runs[r].bridge));
  }

  lemma BackoffClocks(s: State, t: TimerId, r: RunId, o: SpawnOutcome)
    requires Core(s) && r in s.runs
    ensures SameClocks(s, BackoffElapsed(s, t, r, o))
  {
    ProbeFreeByCore(s, r);
    var y := CloseBridge(TakeTimer(s, t, r), r);
    StopBridgeEffect(TakeTimer(s, t, r), s.runs[r].bridge);
    TakenClocks(s, y, t);
    SpawnClocks(y, r, o);
    SameClocksTrans(s, y, Spawn(y, r, o));
  }

  lemma TimerExhausted(s: State, t: TimerId, o: SpawnOutcome, p: RepoPath)
    requires Core(s) && t in s.timers && Exhausted(s, p)
    ensures var z := TimerFired(s, t, o);
      SameClocks(s, z) || (p in z.breakers && z.breakers[p] == s.breakers[p])
  {
    assert TimerOk(s, t) && BreakerOk(s, p);
    match s.timers[t].alarm {
      case Backoff(r) =>
        BackoffClocks(s, t, r, o);
      case Cooldown(q) =>
      case Survival(q, r) =>
    }
  }

  lemma StepMayMove(s: State, e: Event, p: RepoPath)
    requires Core(s) && Enabled(s, e) && Fresh(s, e) && Exhausted(s, p)
    ensures var z := Step(s, e);
      SameClocks(s, z) || (p in z.breakers && z.breakers[p] == s.breakers[p])
  {
    match e {
      case OnExit(b, clean) => ExitExhausted(s, b, clean, p);
      case TimerDue(t, o) => TimerExhausted(s, t, o, p);
      case StartResumes(r, ok, alive, o) => StartClocks(s, r, ok, alive, o);
      case OnSpawned(b) => SpawnedClocks(s, b);
      case StopCall(r) => ProbeFreeByCore(s, r); StopClocks(s, r);
      case StopResumes(r) => ProbeFreeByCore(s, r); StopSettledClocks(s, r);
      case _ => StillClocks(s, Step(s, e));
    }
    hide SameClocks, BridgeExited, TimerFired, StartContinued, BridgeSpawned, StopRequested, StopSettled;
  }

  /** No event moves an exhausted breaker. */
  lemma StepExhausted(s: State, e: Event, p: RepoPath)
    requires Core(s) && Enabled(s, e) && Fresh(s, e) && Exhausted(s, p)
    ensures var z := Step(s, e); p in z.breakers && z.breakers[p] == s.breakers[p]
  {
    var z := Step(s, e);
    hide *;
    StepCore(s, e);
    StepMayMove(s, e, p);
    if SameClocks(s, z) { Unmoved(s, z, p); }
  }

  lemma Unmoved(s: State, z: State, p: RepoPath)
    requires Core(s) && Core(z) && Exhausted(s, p) && SameClocks(s, z)
    ensures p in z.breakers && z.breakers[p] == s.breakers[p]
  {
    StaysOpen(s, z, p);
    assert BreakerOk(s, p) && BreakerOk(z, p);
  }

  lemma NothingRuns(s: State, p: RepoPath)
    requires Core(s) && Exhausted(s, p)
    ensures s.breakers[p].state == Open
    ensures forall r :: r in s.runs && s.runs[r].repo == p ==> !Occupying(s.runs[r])
  {
    assert BreakerOk(s, p);
    forall r | r in s.runs && s.runs[r].repo == p ensures !Occupying(s.runs[r]) { assert GuardedOk(s, r); }
  }

  lemma ExhaustedAt(trace: seq<State>, events: seq<Event>, i: nat, p: RepoPath)
    requires IsRun(trace, events) && i < |events| && Exhausted(trace[i], p)
    ensures p in trace[i + 1].breakers && trace[i + 1].breakers[p] == trace[i].breakers[p]
  {
    RunInv(trace, events, i);
    assert Turn(trace[i], events[i], trace[i + 1]);
    StepExhausted(trace[i], events[i], p);
    hide *;
  }

  lemma ExhaustedIdles(trace: seq<State>, events: seq<Event>, i: nat, p: RepoPath)
    requires IsRun(trace, events) && i < |trace| && Exhausted(trace[i], p)
    ensures trace[i].breakers[p].state == Open
    ensures forall r :: r in trace[i].runs && trace[i].runs[r].repo == p ==> !Occupying(trace[i].runs[r])
  {
    RunInv(trace, events, i);
    NothingRuns(trace[i], p);
    hide *;
  }

  /** After five failed probes a breaker is open for ever: no event changes it, and no run of its repo
      is starting, running or crashed from then on. */
  lemma {:induction false} ExhaustedForGood(trace: seq<State>, events: seq<Event>, i: nat, j: nat, p: RepoPath)
    requires IsRun(trace, events) && i <= j < |trace| && Exhausted(trace[i], p)
    ensures p in trace[j].breakers && trace[j].breakers[p] == trace[i].breakers[p] && trace[j].breakers[p].state == Open
    ensures forall r :: r in trace[j].runs && trace[j].runs[r].repo == p ==> !Occupying(trace[j].runs[r])
    decreases j
  {
    hide Turn, Occupying;
    if i < j {
      ExhaustedForGood(trace, events, i, j - 1, p);
      ExhaustedAt(trace, events, j - 1, p);
    }
    ExhaustedIdles(trace, events, j, p);
  }

  // ----- A start that can no longer get through -----

  /** The start of `r` that awaits its sandbox check will be refused whenever it goes on. */
  predicate Blocked(s: State, r: RunId) {
    r in s.starts && (s.cap == 0 || Exhausted(s, s.starts[r]))
  }

  /** Neither tracked nor being admitted, or being admitted in vain. */
  predicate Hopeless(s: State, r: RunId) {
    Over(s, r) || (r in s.hist.used && Blocked(s, r))
  }

  lemma BlockedIsRefused(s: State, r: RunId, ok: bool, alive: set<BridgeId>, o: SpawnOutcome)
    requires Core(s) && Blocked(s, r)
    ensures var z := StartContinued(s, r, ok, alive, o);
      r !in z.runs && r !in z.starts && z.hist.used == s.hist.used && z.hist.spawns == s.hist.spawns
  {
    assert StartsOk(s);
    if Exhausted(s, s.starts[r]) { NothingRuns(s, s.starts[r]); }
    assert Decide(s, r, ok, alive) != Admitted;
    StartOutcome(s, r, ok, alive, o);
    hide Core, Decide, StartContinued, StrandedRuns;
  }

  /** Every other event leaves the start as it is. */
  lemma BlockedStays(s: State, e: Event, r: RunId)
    requires Core(s) && Enabled(s, e) && Fresh(s, e) && Blocked(s, r) && r in s.hist.used
    requires !(e.StartResumes? && e.run == r)
    ensures Blocked(Step(s, e), r)
  {
    assert r !in s.runs by { assert StartsOk(s); }
    StepQueue(s, e);
    if Exhausted(s, s.starts[r]) { StepExhausted(s, e, s.starts[r]); }
    hide Core, Step, Enabled;
  }

  /** An event about a run that only awaits its admission does nothing to it. */
  lemma WaitingUnspawned(s: State, e: Event, r: RunId)
    requires Core(s) && Enabled(s, e) && Fresh(s, e) && r in s.starts && !(e.StartResumes? && e.run == r)
    ensures Count(Step(s, e).hist.spawns, r) == Count(s.hist.spawns, r)
  {
    assert r !in s.runs && r !in s.stops by { assert StartsOk(s); }
    assert e.TimerDue? ==> TimerOk(s, e.timer);
    if Subject(s, e) != Some(r) {
      StepBystander(s, e, r);
    } else {
      match e {
        case OnSpawned(b) =>
        case OnExit(b, clean) =>
        case TimerDue(t, o) =>
        case StopCall(_) =>
        case StopResumes(_) =>
        case Activity(_) =>
      }
    }
  }

  lemma StepHopeless(s: State, e: Event, r: RunId)
    requires Inv(s) && Allows(Kept, s, e) && Hopeless(s, r)
    ensures Possible(s, e) && Inv(Step(s, e)) && Hopeless(Step(s, e), r)
    ensures Count(Step(s, e).hist.spawns, r) == Count(s.hist.spawns, r)
  {
    var z := Step(s, e);
    assert Turn(s, e, z);
    TurnInv(s, e, z);
    if Over(s, r) {
      OverStays(s, e, z, r);
    } else if e.StartResumes? && e.run == r {
      BlockedIsRefused(s, r, e.sandboxOk, e.alive, e.outcome);
    } else {
      StepUsed(s, e);
      BlockedStays(s, e, r);
      WaitingUnspawned(s, e, r);
    }
    hide Inv, Core, Blocked, Enabled;
  }

  // ----- When a stop is final -----

  /** There is a way on from `s` in which `r` is spawned. */
  ghost predicate MaySpawn(s: State, r: RunId) {
    exists events, z :: Reaches(Kept, s, events, z) && Count(z.hist.spawns, r) > Count(s.hist.spawns, r)
  }

  lemma {:induction false} HopelessReaches(s: State, events: seq<Event>, z: State, r: RunId)
    requires Inv(s) && Hopeless(s, r) && Reaches(Kept, s, events, z)
    ensures Count(z.hist.spawns, r) == Count(s.hist.spawns, r)
    decreases |events|
  {
    hide Inv, Hopeless, Step, Allows;
    if events != [] {
      StepHopeless(s, events[0], r);
      HopelessReaches(Step(s, events[0]), events[1..], z, r);
    }
  }

  /** An event that leaves the start of `r` waiting. */
  lemma WaitingInv(s: State, e: Event, r: RunId)
    requires Inv(s) && Allows(Kept, s, e) && r in s.starts && !(e.StartResumes? && e.run == r)
    ensures Possible(s, e)
    ensures var z := Step(s, e);
      && Inv(z) && z.cap == s.cap && r in z.starts && z.starts[r] == s.starts[r]
      && Count(z.hist.spawns, r) == Count(s.hist.spawns, r)
  {
    assert Turn(s, e, Step(s, e));
    TurnInv(s, e, Step(s, e));
    assert r !in s.runs && r in s.hist.used by { assert StartsOk(s); }
    StepQueue(s, e);
    WaitingUnspawned(s, e, r);
    hide Inv, Core, Step, Count, Tolerated;
  }

  lemma SpawnsLater(s: State, e: Event, r: RunId)
    requires Allows(Kept, s, e) && Count(Step(s, e).hist.spawns, r) == Count(s.hist.spawns, r)
    ensures MaySpawn(Step(s, e), r) ==> MaySpawn(s, r)
  {
    var z := Step(s, e);
    hide Step, Reaches, Allows, Count;
    if MaySpawn(z, r) {
      var events, x :| Reaches(Kept, z, events, x) && Count(x.hist.spawns, r) > Count(z.hist.spawns, r);
      Prepend(Kept, s, e, events, x);
    }
  }

  /** Seen from before it and from after it. */
  lemma WaitingStep(s: State, e: Event, r: RunId)
    requires Inv(s) && Allows(Kept, s, e) && r in s.starts && !(e.StartResumes? && e.run == r)
    ensures Possible(s, e)
    ensures var z := Step(s, e);
      && Inv(z) && z.cap == s.cap && r in z.starts && z.starts[r] == s.starts[r]
      && (MaySpawn(z, r) ==> MaySpawn(s, r))
  {
    WaitingInv(s, e, r);
    SpawnsLater(s, e, r);
    hide *;
  }

  /** Nothing but runs that hold slots stands in the way of the start. */
  predicate Ready(s: State, r: RunId) {
    r in s.starts && s.cap > 0 && !BreakerRefuses(s, s.starts[r], r) && !CrashedPending(s, s.starts[r])
  }

  predicate AllStale(s: State) {
    forall q | q in s.runs :: s.now - LastSeen(s.runs[q]) >= SLOT_STALE_GRACE_MS
  }

  /** With nobody alive, the reconciler frees every slot. */
  lemma SlotsFreed(s: State, r: RunId)
    requires Ready(s, r) && AllStale(s)
    ensures Decide(s, r, true, {}) == Admitted
  {
    assert ActiveRuns(EvictAll(s, StrandedRuns(s, {}))) == {};
  }

  lemma ResumesAndSpawns(s: State, r: RunId)
    requires Ready(s, r) && AllStale(s)
    ensures MaySpawn(s, r)
  {
    var e := StartResumes(r, true, {}, Started);
    SlotsFreed(s, r);
    var s1 := EvictAll(s.(starts := s.starts - {r}), StrandedRuns(s, {}));
    var z := StartContinued(s, r, true, {}, Started);
    assert z == Spawn(Admit(s1, r, s.starts[r]), r, Started);
    assert Count(z.hist.spawns, r) == Count(s.hist.spawns, r) + 1;
    hide StartContinued;
    Prepend(Kept, s, e, [], z);
  }

  lemma {:induction false} LastOfAll(runs: map<RunId, Run>, keys: set<RunId>) returns (m: int)
    requires keys <= runs.Keys
    ensures forall q | q in keys :: LastSeen(runs[q]) <= m
  {
    if keys == {} {
      m := 0;
    } else {
      var q :| q in keys;
      m := LastOfAll(runs, keys - {q});
      if LastSeen(runs[q]) > m { m := LastSeen(runs[q]); }
    }
  }

  lemma ReadySpawns(s: State, r: RunId)
    requires Inv(s) && Ready(s, r)
    ensures MaySpawn(s, r)
  {
    var m := LastOfAll(s.runs, s.runs.Keys);
    var d := if m + SLOT_STALE_GRACE_MS > s.now then m + SLOT_STALE_GRACE_MS - s.now else 0;
    var z := s.(now := s.now + d);
    assert Ready(z, r) && AllStale(z) && Step(s, Tick(d)) == z && Allows(Kept, s, Tick(d));
    hide Inv, Ready, AllStale, Step, Allows, MaySpawn;
    ResumesAndSpawns(z, r);
    WaitingStep(s, Tick(d), r);
  }

  /** Where the repo has no breaker that refuses, no crashed run is left by the guard. */
  lemma HalfOpenIsReady(s: State, r: RunId)
    requires Inv(s) && r in s.starts && s.cap > 0 && s.starts[r] in s.breakers
    requires s.breakers[s.starts[r]].state == HalfOpen && s.breakers[s.starts[r]].probeRunId.None?
    ensures Ready(s, r)
  {
    forall q | q in s.runs && s.runs[q].repo == s.starts[r] ensures s.runs[q].state != Crashed {
      assert GuardedOk(s, q);
    }
  }

  /** The cooldown of an open breaker can end. */
  lemma CooldownEnds(s: State, r: RunId)
    requires Inv(s) && r in s.starts && s.cap > 0 && s.starts[r] in s.breakers
    requires s.breakers[s.starts[r]].state == Open && !Exhausted(s, s.starts[r])
    ensures MaySpawn(s, r)
  {
    var p := s.starts[r];
    assert BreakerOk(s, p);
    var t := s.breakers[p].timer.value;
    var d := if s.timers[t].due > s.now then s.timers[t].due - s.now else 0;
    var y := s.(now := s.now + d);
    CooldownFires(s, p, t, d);
    hide Inv, Step, Allows, MaySpawn, Ready;
    WaitingStep(s, Tick(d), r);
    WaitingStep(y, TimerDue(t, Started), r);
    HalfOpenIsReady(Step(y, TimerDue(t, Started)), r);
    ReadySpawns(Step(y, TimerDue(t, Started)), r);
  }

  lemma CooldownFires(s: State, p: RepoPath, t: TimerId, d: nat)
    requires p in s.breakers && t in s.timers && s.timers[t].alarm == Cooldown(p) && s.timers[t].due <= s.now + d
    ensures var y := s.(now := s.now + d);
      && Allows(Kept, s, Tick(d)) && Step(s, Tick(d)) == y && Allows(Kept, y, TimerDue(t, Started))
      && var z := Step(y, TimerDue(t, Started));
      p in z.breakers && z.breakers[p].state == HalfOpen && z.breakers[p].probeRunId.None?
  {
  }

  /** From `s` to `z` runs and probes are dropped at most. */
  ghost predicate Fewer(s: State, z: State) {
    && (forall q :: q in z.runs ==> q in s.runs && SameOrDone(s.runs[q], z.runs[q]))
    && z.breakers.Keys == s.breakers.Keys
    && (forall p :: p in z.breakers ==> SameOrProbeless(s.breakers[p], z.breakers[p]))
  }

  predicate SameOrDone(a: Run, b: Run) {
    b.repo == a.repo && (b.state == Crashed ==> a.state == Crashed)
  }

  predicate SameOrProbeless(a: Breaker, b: Breaker) {
    b.state == a.state && (b.probeRunId == a.probeRunId || b.probeRunId.None?)
  }

  lemma FewerTrans(s: State, y: State, z: State)
    requires Fewer(s, y) && Fewer(y, z)
    ensures Fewer(s, z)
  {
  }

  lemma ForgetFewer(s: State, q: RunId)
    ensures Fewer(s, ForgetRun(s, q)) && q !in ForgetRun(s, q).runs && ForgetRun(s, q).stops == s.stops
  {
    if q in s.runs {
      var y := Untrack(s, q);
      assert Fewer(s, y) && y.stops == s.stops && q !in y.runs;
      ReleaseFewer(y, s.runs[q].repo, q);
      hide Untrack, ReleaseProbe;
      FewerTrans(s, y, ForgetRun(s, q));
    }
  }

  lemma ReleaseFewer(s: State, p: RepoPath, q: RunId)
    ensures var z := ReleaseProbe(s, p, q); Fewer(s, z) && z.runs == s.runs && z.stops == s.stops
  {
  }

  lemma StopFewer(s: State, q: RunId)
    ensures Fewer(s, StopRequested(s, q)) && (q in StopRequested(s, q).runs ==> q in StopRequested(s, q).stops)
  {
    if q in s.runs {
      var y := StopMarked(s, q);
      assert Fewer(s, y);
      ForgetFewer(y, q);
      FewerTrans(s, y, ForgetRun(y, q));
      StopBridgeEffect(y, s.runs[q].bridge);
      var x := StopBridge(y, s.runs[q].bridge).(stops := s.stops + multiset{q});
      assert Fewer(y, x);
      FewerTrans(s, y, x);
    }
    hide Fewer, ForgetRun, StopBridge, StopMarked;
  }

  lemma StopSettledFewer(s: State, q: RunId)
    ensures Fewer(s, StopSettled(s, q)) && q !in StopSettled(s, q).runs
  {
    var y := s.(stops := s.stops - multiset{q});
    ForgetFewer(y, q);
    FewerTrans(s, y, ForgetRun(y, q));
  }

  lemma StopTurns(s: State, q: RunId)
    ensures Allows(Kept, s, StopCall(q)) && Step(s, StopCall(q)) == StopRequested(s, q)
    ensures q in s.stops ==> Allows(Kept, s, StopResumes(q)) && Step(s, StopResumes(q)) == StopSettled(s, q)
  {
    hide StopRequested, StopSettled;
  }

  /** A stop gets a run out of the way. */
  lemma StopOut(s: State, q: RunId, r: RunId) returns (z: State)
    requires Inv(s) && q in s.runs && r in s.starts
    ensures Inv(z) && z.cap == s.cap && r in z.starts && z.starts[r] == s.starts[r] && q !in z.runs && Fewer(s, z)
    ensures MaySpawn(z, r) ==> MaySpawn(s, r)
  {
    hide *;
    var y := StopRequested(s, q);
    StopTurns(s, q);
    StopFewer(s, q);
    WaitingStep(s, StopCall(q), r);
    z := y;
    if q in y.runs {
      StopTurns(y, q);
      z := StopSettled(y, q);
      StopSettledFewer(y, q);
      FewerTrans(s, y, z);
      WaitingStep(y, StopResumes(q), r);
    }
  }

  lemma ProbeIsTracked(s: State, p: RepoPath)
    requires Inv(s) && p in s.breakers && s.breakers[p].probeRunId.Some?
    ensures s.breakers[p].probeRunId.value in s.runs
  {
    assert BreakerOk(s, p);
  }

  lemma ProbeStops(s: State, r: RunId, q: RunId)
    requires Inv(s) && r in s.starts && s.cap > 0 && s.starts[r] in s.breakers
    requires s.breakers[s.starts[r]].state == HalfOpen && s.breakers[s.starts[r]].probeRunId == Some(q)
    ensures MaySpawn(s, r)
  {
    var p := s.starts[r];
    ProbeIsTracked(s, p);
    hide Inv, MaySpawn, Ready;
    var z := StopOut(s, q, r);
    assert SameOrProbeless(s.breakers[p], z.breakers[p]);
    if z.breakers[p].probeRunId.Some? { ProbeIsTracked(z, p); }
    HalfOpenIsReady(z, r);
    ReadySpawns(z, r);
  }

  lemma CrashedStops(s: State, r: RunId, q: RunId)
    requires Inv(s) && r in s.starts && s.cap > 0 && s.starts[r] !in s.breakers
    requires q in s.runs && s.runs[q].state == Crashed && s.runs[q].repo == s.starts[r]
    ensures MaySpawn(s, r)
  {
    var z := StopOut(s, q, r);
    assert Ready(z, r) by { assert Exclusive(s); }
    hide Inv, MaySpawn, Ready;
    ReadySpawns(z, r);
  }

  /** A start that is not blocked can still get through. */
  lemma UnblockedSpawns(s: State, r: RunId)
    requires Inv(s) && r in s.starts && !Blocked(s, r)
    ensures MaySpawn(s, r)
  {
    var p := s.starts[r];
    hide Inv, MaySpawn;
    if p !in s.breakers {
      if q :| q in s.runs && s.runs[q].state == Crashed && s.runs[q].repo == p {
        CrashedStops(s, r, q);
      } else {
        ReadySpawns(s, r);
      }
    } else if s.breakers[p].state == Open {
      CooldownEnds(s, r);
    } else if s.breakers[p].probeRunId.Some? {
      ProbeStops(s, r, s.breakers[p].probeRunId.value);
    } else {
      HalfOpenIsReady(s, r);
      ReadySpawns(s, r);
    }
  }

  /** `stop` of a run id that was started is final, except while a `start` of it awaits its sandbox
      check that can still get through: the manager has a slot at all, and the probe budget of the repo
      is not exhausted. The stop does not touch such a `start`. */
  lemma StopIsFinalIff(trace: seq<State>, events: seq<Event>, i: nat, r: RunId)
    requires IsRun(trace, events) && i < |events| && events[i] == StopCall(r) && r in trace[i].hist.used
    ensures var s := trace[i];
      MaySpawn(trace[i + 1], r) <==> r in s.starts && s.cap > 0 && !Exhausted(s, s.starts[r])
    ensures r in trace[i].starts ==> trace[i + 1] == trace[i]
  {
    RunInv(trace, events, i);
    RunInv(trace, events, i + 1);
    assert Turn(trace[i], events[i], trace[i + 1]);
    hide IsRun;
    var s, z := trace[i], trace[i + 1];
    assert r in s.starts ==> r !in s.runs by { assert StartsOk(s); }
    if r in s.starts && !Blocked(s, r) {
      UnblockedSpawns(s, r);
    } else {
      if r !in s.starts { StopEnds(s, r); }
      assert Hopeless(z, r);
      hide Inv, Over, Turn, Hopeless;
      if MaySpawn(z, r) {
        var more, x :| Reaches(Kept, z, more, x) && Count(x.hist.spawns, r) > Count(z.hist.spawns, r);
        HopelessReaches(z, more, x, r);
      }
    }
  }

  lemma StopEnds(s: State, r: RunId)
    requires r in s.hist.used && r !in s.starts
    ensures Over(StopRequested(s, r), r)
  {
    StopUnrecorded(s, r);
  }
}
