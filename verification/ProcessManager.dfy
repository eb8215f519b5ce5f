/** The run manager itself: a class whose fields are updated in place by its methods, its bridge
    callbacks and its timers. Every method is tied to the function of `Supervision` that
    specifies it, and the event methods keep the joint invariant. */
module ProcessManager {
  import opened Wrappers
  import opened Supervision
  import opened SupervisionSafety
  import opened SupervisionHistory
  import opened SupervisionRuns

  // ----- The reconciler, one run at a time -----

  function EvictOne(s: State, r: RunId): State
    requires r in s.runs
  {
    ForgetRun(StopBridge(ClearTimer(s, s.runs[r].restartTimer), s.runs[r].bridge), r)
  }

  function Handle(t: Option<TimerId>): set<TimerId> {
    if t.Some? then {t.value} else {}
  }

  lemma ForgetEffect(s: State, r: RunId)
    requires r in s.runs
    ensures var z := ForgetRun(s, r); var p := s.runs[r].repo;
      && z.runs == s.runs - {r} && z.hist == s.hist.(upSince := s.hist.upSince - {r})
      && z.breakers == (if EvictedProbe(s, {r}, p)
        then s.breakers[p := s.breakers[p].(probeRunId := None, timer := None)] else s.breakers)
      && z.timers == s.timers - (if EvictedProbe(s, {r}, p) then Handle(s.breakers[p].timer) else {})
      && z == s.(runs := z.runs, hist := z.hist, breakers := z.breakers, timers := z.timers)
  {
  }

  lemma EvictOneEffect(s: State, r: RunId)
    requires r in s.runs
    ensures var z := EvictOne(s, r); var p := s.runs[r].repo;
      && z.runs == s.runs - {r} && z.hist == s.hist.(upSince := s.hist.upSince - {r})
      && z.breakers == (if EvictedProbe(s, {r}, p)
        then s.breakers[p := s.breakers[p].(probeRunId := None, timer := None)] else s.breakers)
      && z.timers == s.timers - Handle(s.runs[r].restartTimer)
        - (if EvictedProbe(s, {r}, p) then Handle(s.breakers[p].timer) else {})
      && z == s.(runs := z.runs, hist := z.hist, breakers := z.breakers, timers := z.timers, bridges := z.bridges)
  {
    var y := ClearTimer(s, s.runs[r].restartTimer);
    StopBridgeEffect(y, s.runs[r].bridge);
    ForgetEffect(StopBridge(y, s.runs[r].bridge), r);
    assert y.timers == s.timers - Handle(s.runs[r].restartTimer);
  }

  /** Dropping one run by the manager's own routines is eviction of that run. */
  lemma EvictOneIsEviction(s: State, r: RunId)
    requires r in s.runs && (s.runs[r].bridge.Some? ==> s.runs[r].bridge.value in s.bridges)
    ensures EvictOne(s, r) == EvictAll(s, {r})
  {
    var x, z := EvictOne(s, r), EvictAll(s, {r});
    EvictOneEffect(s, r);
    EvictOneTimers(s, r);
    EvictOneBridges(s, r);
    assert x.runs == z.runs;
    assert x.hist.upSince == z.hist.upSince;
    EvictOneBreakers(s, r);
  }

  lemma EvictOneBreakers(s: State, r: RunId)
    requires r in s.runs
    ensures EvictOne(s, r).breakers == EvictAll(s, {r}).breakers
  {
    EvictOneEffect(s, r);
    forall p | p in s.breakers && EvictedProbe(s, {r}, p) ensures p == s.runs[r].repo {}
  }

  lemma EvictOneTimers(s: State, r: RunId)
    requires r in s.runs
    ensures EvictOne(s, r).timers == EvictAll(s, {r}).timers
  {
    EvictOneEffect(s, r);
    var x, z := EvictOne(s, r), EvictAll(s, {r});
    forall t | t in s.timers ensures t in x.timers <==> t in z.timers {
      forall p | p in s.breakers && EvictedProbe(s, {r}, p) ensures p == s.runs[r].repo {}
    }
  }

  lemma EvictOneBridges(s: State, r: RunId)
    requires r in s.runs && (s.runs[r].bridge.Some? ==> s.runs[r].bridge.value in s.bridges)
    ensures EvictOne(s, r).bridges == EvictAll(s, {r}).bridges
  {
    var y := StopBridge(ClearTimer(s, s.runs[r].restartTimer), s.runs[r].bridge);
    assert ForgetRun(y, r).bridges == y.bridges;
  }

  /** Evicting runs in any order is evicting them together. */
  lemma EvictMore(s: State, dead: set<RunId>, r: RunId)
    requires r in s.runs && r !in dead
    ensures EvictAll(EvictAll(s, dead), {r}) == EvictAll(s, dead + {r})
  {
    var y := EvictAll(s, dead);
    assert y.runs[r] == s.runs[r];
    assert EvictAll(y, {r}).runs == EvictAll(s, dead + {r}).runs;
    EvictMoreBridges(s, dead, r);
    EvictMoreBreakers(s, dead, r);
    EvictMoreTimers(s, dead, r);
    assert EvictAll(y, {r}).hist.upSince == EvictAll(s, dead + {r}).hist.upSince;
  }

  lemma EvictMoreBridges(s: State, dead: set<RunId>, r: RunId)
    requires r in s.runs && r !in dead
    ensures EvictAll(EvictAll(s, dead), {r}).bridges == EvictAll(s, dead + {r}).bridges
  {
    var y := EvictAll(s, dead);
    forall b | b in s.bridges
      ensures EvictedBridge(s, dead + {r}, b) == (EvictedBridge(s, dead, b) || EvictedBridge(y, {r}, b))
    {
      assert y.runs[r] == s.runs[r];
    }
  }

  lemma EvictMoreBreakers(s: State, dead: set<RunId>, r: RunId)
    requires r in s.runs && r !in dead
    ensures EvictAll(EvictAll(s, dead), {r}).breakers == EvictAll(s, dead + {r}).breakers
  {
  }

  lemma EvictMoreTimers(s: State, dead: set<RunId>, r: RunId)
    requires r in s.runs && r !in dead
    ensures EvictAll(EvictAll(s, dead), {r}).timers == EvictAll(s, dead + {r}).timers
  {
    var y := EvictAll(s, dead);
    forall t | t in s.timers
      ensures EvictedTimer(s, dead + {r}, t) == (EvictedTimer(s, dead, t) || EvictedTimer(y, {r}, t))
    {
      assert y.runs[r] == s.runs[r];
      forall p | p in s.breakers
        ensures EvictedProbe(s, dead + {r}, p) == (EvictedProbe(s, dead, p) || EvictedProbe(y, {r}, p))
      {}
    }
  }

  // ----- The manager -----

  class Manager {
    const cap: nat
    var now: int
    var runs: map<RunId, Run>
    var breakers: map<RepoPath, Breaker>
    var timers: map<TimerId, Timer>
    var nextTimer: TimerId
    var bridges: map<BridgeId, Bridge>
    var nextBridge: BridgeId
    var starts: map<RunId, RepoPath>
    var stops: multiset<RunId>
    ghost var hist: History

    ghost function View(): State
      reads this
    {
      State(now, cap, runs, breakers, timers, nextTimer, bridges, nextBridge, starts, stops, hist)
    }

    ghost predicate Valid()
      reads this
    {
      Inv(View())
    }

    constructor (now: int, cap: nat)
      ensures View() == Init(now, cap) && Valid()
    {
      this.cap, this.now := cap, now;
      runs, breakers, timers, nextTimer := map[], map[], map[], 0;
      bridges, nextBridge, starts, stops := map[], 0, map[], multiset{};
      hist := History({}, map[], map[], map[], map[], map[]);
      new;
      InitInv(now, cap);
    }

    method ClearTimeout(t: Option<TimerId>)
      modifies this`timers
      ensures View() == ClearTimer(old(View()), t)
    {
      if t.Some? { timers := timers - {t.value}; }
    }

    method SetTimeout(delay: int, alarm: Alarm) returns (t: TimerId)
      modifies this`timers, this`nextTimer
      ensures View() == Arm(old(View()), delay, alarm) && t == old(nextTimer)
    {
      t := nextTimer;
      timers := timers[t := Timer(now + delay, alarm)];
      nextTimer := nextTimer + 1;
    }

    method BridgeStop(b: Option<BridgeId>)
      modifies this`bridges
      ensures View() == StopBridge(old(View()), b)
    {
      if b.Some? && b.value in bridges {
        bridges := bridges[b.value := bridges[b.value].(stopped := true)];
      }
    }

    method TearDownBridge(r: RunId)
      requires r in runs
      modifies this`bridges, this`runs
      ensures View() == CloseBridge(old(View()), r)
    {
      BridgeStop(runs[r].bridge);
      runs := runs[r := runs[r].(bridge := None)];
    }

    method Forget(r: RunId)
      modifies this`runs, this`breakers, this`timers, this`hist
      ensures View() == ForgetRun(old(View()), r)
    {
      if r in runs {
        var repo := runs[r].repo;
        runs := runs - {r};
        hist := hist.(upSince := hist.upSince - {r});
        if repo in breakers && breakers[repo].probeRunId == Some(r) {
          ClearTimeout(breakers[repo].timer);
          breakers := breakers[repo := breakers[repo].(probeRunId := None, timer := None)];
        }
      }
    }

    /** Install an open breaker and, below the probe cap, arm its half-open transition. */
    method InstallBreaker(repo: RepoPath, failed: nat)
      modifies this
      ensures View() == InstallOpen(old(View()), repo, failed)
    {
      hide CooldownFor;
      if repo !in breakers { hist := hist.(firstTrip := hist.firstTrip[repo := now]); }
      breakers := breakers[repo := Breaker(Open, now, failed, None, None)];
      if failed < CIRCUIT_MAX_PROBES {
        var t := SetTimeout(CooldownFor(failed), Cooldown(repo));
        breakers := breakers[repo := breakers[repo].(timer := Some(t))];
      }
    }

    method Trip(r: RunId)
      requires r in runs
      modifies this
      ensures View() == TripBreaker(old(View()), r)
    {
      hide InstallOpen, StopBridge;
      var run := runs[r];
      var failed := 0;
      if run.repo in breakers {
        failed := breakers[run.repo].failedProbes;
        if breakers[run.repo].state == HalfOpen { failed := failed + 1; }
        ClearTimeout(breakers[run.repo].timer);
      }
      BridgeStop(run.bridge);
      runs := runs - {r};
      hist := hist.(upSince := hist.upSince - {r});
      InstallBreaker(run.repo, failed);
    }

    method BecomeHalfOpen(repo: RepoPath)
      modifies this`breakers
      ensures View() == GoHalfOpen(old(View()), repo)
    {
      if repo in breakers {
        breakers := breakers[repo := breakers[repo].(timer := None, state := HalfOpen, probeRunId := None)];
      }
    }

    method ProbeSpawned(repo: RepoPath, r: RunId)
      modifies this`breakers, this`timers, this`nextTimer
      ensures View() == NoteProbeSpawned(old(View()), repo, r)
    {
      if repo !in breakers || breakers[repo].state != HalfOpen { return; }
      if breakers[repo].probeRunId != Some(r) { return; }
      ClearTimeout(breakers[repo].timer);
      var t := SetTimeout(CIRCUIT_PROBE_HEALTHY_MS, Survival(repo, r));
      breakers := breakers[repo := breakers[repo].(timer := Some(t))];
    }

    method Close(repo: RepoPath)
      modifies this`breakers, this`timers, this`hist
      ensures View() == CloseBreaker(old(View()), repo)
    {
      if repo !in breakers { return; }
      ClearTimeout(breakers[repo].timer);
      breakers := breakers - {repo};
      hist := hist.(firstTrip := hist.firstTrip - {repo});
    }

    method Reschedule(r: RunId)
      requires r in runs
      modifies this
      ensures View() == ScheduleRestart(old(View()), r)
    {
      var run := runs[r];
      if run.restartCount >= MAX_RESTART_COUNT {
        TearDownBridge(r);
        Forget(r);
        return;
      }
      var delay := BackoffDelay(run.restartCount);
      var t := SetTimeout(delay, Backoff(r));
      runs := runs[r := run.(restartCount := run.restartCount + 1, state := Crashed, restartTimer := Some(t))];
      hist := hist.(upSince := hist.upSince - {r}, delays := hist.delays[r := Count(hist.delays, r) + delay]);
    }

    /** The part of a spawn that ran before the constructor or `start` of the bridge threw. */
    method SpawnThrew(r: RunId, outcome: SpawnOutcome)
      requires r in runs && outcome != Started
      modifies this`runs, this`bridges, this`nextBridge, this`hist
      ensures View() == SpawnFailed(old(View()), r, outcome)
    {
      hist := NoteSpawn(hist, r);
      if outcome == StartThrew {
        bridges := bridges[nextBridge := Bridge(r, false, false, false, false)];
        runs := runs[r := runs[r].(bridge := Some(nextBridge))];
        nextBridge := nextBridge + 1;
      }
      runs := runs[r := runs[r].(state := Crashed)];
    }

    method SpawnBridge(r: RunId, outcome: SpawnOutcome)
      requires r in runs
      modifies this
      ensures View() == Spawn(old(View()), r, outcome)
    {
      if outcome == Started {
        hist := NoteSpawn(hist, r);
        bridges := bridges[nextBridge := Bridge(r, true, false, false, false)];
        runs := runs[r := runs[r].(state := Starting, bridge := Some(nextBridge))];
        nextBridge := nextBridge + 1;
      } else {
        SpawnThrew(r, outcome);
        Reschedule(r);
      }
    }

    // ----- Queries -----

    method HasCrashedPending(repo: RepoPath) returns (found: bool)
      ensures found <==> CrashedPending(View(), repo)
    {
      var todo := runs.Keys;
      while todo != {}
        invariant todo <= runs.Keys
        invariant forall r :: r in runs.Keys - todo ==> !(runs[r].state == Crashed && runs[r].repo == repo)
        decreases todo
      {
        var r :| r in todo;
        if runs[r].state == Crashed && runs[r].repo == repo { return true; }
        todo := todo - {r};
      }
      return false;
    }

    method ActiveRunIdForRepo(repo: RepoPath) returns (id: Option<RunId>)
      ensures id.Some? ==> id.value in runs && Active(runs[id.value]) && runs[id.value].repo == repo
      ensures id.None? ==> forall r :: r in runs ==> !(Active(runs[r]) && runs[r].repo == repo)
    {
      var todo := runs.Keys;
      while todo != {}
        invariant todo <= runs.Keys
        invariant forall r :: r in runs.Keys - todo ==> !(Active(runs[r]) && runs[r].repo == repo)
        decreases todo
      {
        var r :| r in todo;
        if Active(runs[r]) && runs[r].repo == repo { return Some(r); }
        todo := todo - {r};
      }
      return None;
    }

    predicate StrandedNow(r: RunId, alive: set<BridgeId>)
      requires r in runs
      reads this
      ensures StrandedNow(r, alive) <==> IsStranded(View(), runs[r], alive)
    {
      var run := runs[r];
      && Active(run)
      && !(run.bridge.Some? && run.bridge.value in alive && run.bridge.value in bridges
        && bridges[run.bridge.value].spawned)
      && now - LastSeen(run) >= SLOT_STALE_GRACE_MS
    }

    method Evict(r: RunId)
      requires r in runs && (runs[r].bridge.Some? ==> runs[r].bridge.value in bridges)
      modifies this
      ensures View() == EvictAll(old(View()), {r})
    {
      EvictOneIsEviction(View(), r);
      var run := runs[r];
      ClearTimeout(run.restartTimer);
      BridgeStop(run.bridge);
      Forget(r);
    }

    /** Evict every stranded run, in whatever order the map is walked. */
    method ReconcileSlots(alive: set<BridgeId>)
      requires RunsOk(View())
      modifies this
      ensures View() == EvictAll(old(View()), StrandedRuns(old(View()), alive))
    {
      ghost var s := View();
      ghost var stranded := StrandedRuns(s, alive);
      var todo := runs.Keys;
      ghost var dead: set<RunId> := {};
      EvictNone(s);
      while todo != {}
        invariant todo <= s.runs.Keys && todo !! dead && dead == stranded - todo
        invariant View() == EvictAll(s, dead)
        decreases todo
      {
        var r :| r in todo;
        todo := todo - {r};
        ReconcileStep(s, dead, r, alive, stranded);
        if StrandedNow(r, alive) {
          Evict(r);
          dead := dead + {r};
        }
      }
      assert dead == stranded;
    }

    method CountActive() returns (n: nat)
      ensures n == |ActiveRuns(View())|
    {
      n := 0;
      var todo := runs.Keys;
      ghost var seen: set<RunId> := {};
      while todo != {}
        invariant todo <= runs.Keys
        invariant seen == ActiveRuns(View()) - todo && n == |seen|
        decreases todo
      {
        var r :| r in todo;
        if Active(runs[r]) {
          n := n + 1;
          seen := seen + {r};
        }
        todo := todo - {r};
      }
      assert seen == ActiveRuns(View());
    }

    method ActiveSlotCount(alive: set<BridgeId>) returns (n: nat)
      requires RunsOk(View())
      modifies this
      ensures View() == EvictAll(old(View()), StrandedRuns(old(View()), alive))
      ensures n == |ActiveRuns(View())|
    {
      ReconcileSlots(alive);
      n := CountActive();
    }

    // ----- Events -----

    /** `start` up to its await. */
    method StartRequest(r: RunId, repo: RepoPath) returns (duplicate: bool)
      requires Valid() && (r in runs || r !in hist.used)
      modifies this`starts, this`hist
      ensures Valid() && View() == Step(old(View()), StartCall(r, repo))
      ensures duplicate <==> r in old(runs)
    {
      hide Inv;
      StepValid(View(), StartCall(r, repo));
      if r in runs { return true; }
      starts := starts[r := repo];
      hist := hist.(used := hist.used + {r});
      return false;
    }

    method Track(r: RunId, repo: RepoPath)
      modifies this`runs, this`breakers
      ensures View() == Admit(old(View()), r, repo)
    {
      if repo in breakers && breakers[repo].state == HalfOpen && breakers[repo].probeRunId == None {
        breakers := breakers[repo := breakers[repo].(probeRunId := Some(r))];
      }
      runs := runs[r := NewRun(repo, now)];
    }

    method RefusedByBreaker(repo: RepoPath, r: RunId) returns (refused: bool)
      ensures refused <==> BreakerRefuses(View(), repo, r)
    {
      if repo !in breakers { return false; }
      var b := breakers[repo];
      return b.state == Open || (b.state == HalfOpen && b.probeRunId.Some? && b.probeRunId.value != r);
    }

    /** The checks of `start` after its await, in the order the source makes them. */
    method CheckStart(r: RunId, repo: RepoPath, sandboxOk: bool, alive: set<BridgeId>, ghost s: State)
      returns (verdict: Verdict)
      requires Core(s) && r in s.starts && s.starts[r] == repo && View() == s.(starts := s.starts - {r})
      modifies this
      ensures verdict == Decide(s, r, sandboxOk, alive)
      ensures View() == AfterChecks(s, r, sandboxOk, alive)
    {
      if !sandboxOk { return SandboxRefused; }
      var refused := RefusedByBreaker(repo, r);
      if refused { return CircuitOpen; }
      var pending := HasCrashedPending(repo);
      if pending { return DuplicateRun; }
      StartDequeued(s, r);
      DequeuedAlike(s, r, alive);
      var slots := ActiveSlotCount(alive);
      var id := ActiveRunIdForRepo(repo);
      if id.Some? && id.value != r { return DuplicateRun; }
      if slots >= cap { return ConcurrencyCap; }
      return Admitted;
    }

    /** `start` after its await: every check, then the probe claim and the spawn. */
    method StartContinue(r: RunId, sandboxOk: bool, alive: set<BridgeId>, outcome: SpawnOutcome)
      returns (verdict: Verdict)
      requires Valid() && r in starts
      modifies this
      ensures Valid() && View() == Step(old(View()), StartResumes(r, sandboxOk, alive, outcome))
      ensures verdict == Decide(old(View()), r, sandboxOk, alive)
    {
      ghost var s := View();
      hide Core, HistOk, CapOk;
      assert Core(s);
      hide Inv;
      StepValid(s, StartResumes(r, sandboxOk, alive, outcome));
      var repo := starts[r];
      starts := starts - {r};
      verdict := CheckStart(r, repo, sandboxOk, alive, s);
      if verdict == Admitted {
        Track(r, repo);
        SpawnBridge(r, outcome);
      }
    }

    method NoteBridgeSpawned(b: BridgeId)
      requires b in bridges
      modifies this
      ensures View() == BridgeSpawned(old(View()), b)
    {
      var r := bridges[b].owner;
      bridges := bridges[b := bridges[b].(spawned := true)];
      if r in runs {
        runs := runs[r := runs[r].(state := Running)];
        hist := hist.(upSince := hist.upSince[r := now]);
        ProbeSpawned(runs[r].repo, r);
      }
    }

    /** `bridge.onSpawned`. */
    method OnSpawnedCallback(b: BridgeId)
      requires Valid() && Enabled(View(), OnSpawned(b))
      modifies this
      ensures Valid() && View() == Step(old(View()), OnSpawned(b))
    {
      hide Inv;
      StepValid(View(), OnSpawned(b));
      NoteBridgeSpawned(b);
    }

    method RecordCrash(r: RunId)
      requires r in runs
      modifies this`runs, this`hist
      ensures View() == NoteCrash(old(View()), r)
    {
      hist := hist.(crashes := hist.crashes[r := CrashesOf(hist, r) + [now]]);
      var kept := Prune(runs[r].recentCrashes + [now], now);
      runs := runs[r := runs[r].(recentCrashes := kept)];
    }

    /** `bridge.onExit`: user stop, clean exit, or crash. */
    method OnExitCallback(b: BridgeId, clean: bool)
      requires Valid() && Enabled(View(), OnExit(b, clean))
      modifies this
      ensures Valid() && View() == Step(old(View()), OnExit(b, clean))
    {
      hide Inv;
      StepValid(View(), OnExit(b, clean));
      var r := bridges[b].owner;
      bridges := bridges[b := bridges[b].(exited := true)];
      if r !in runs { return; }
      var run := runs[r];
      if run.userStop {
        Forget(r);
      } else if clean {
        Forget(r);
        BridgeStop(run.bridge);
      } else {
        RecordCrash(r);
        var probing := run.repo in breakers && breakers[run.repo].state == HalfOpen;
        if probing || |runs[r].recentCrashes| >= CIRCUIT_THRESHOLD { Trip(r); } else { Reschedule(r); }
      }
    }

    method RespawnAfterBackoff(t: TimerId, r: RunId, outcome: SpawnOutcome)
      modifies this
      ensures View() == BackoffElapsed(old(View()), t, r, outcome)
    {
      timers := timers - {t};
      if r !in runs { return; }
      runs := runs[r := runs[r].(restartTimer := None)];
      TearDownBridge(r);
      SpawnBridge(r, outcome);
    }

    method CheckSurvival(t: TimerId, repo: RepoPath, r: RunId)
      modifies this
      ensures View() == SurvivalElapsed(old(View()), t, repo, r)
    {
      timers := timers - {t};
      if repo !in breakers || breakers[repo].state != HalfOpen || breakers[repo].probeRunId != Some(r) { return; }
      if r !in runs || !Active(runs[r]) { return; }
      Close(repo);
    }

    /** The callback of any of the three kinds of timer. */
    method TimerCallback(t: TimerId, outcome: SpawnOutcome)
      requires Valid() && Enabled(View(), TimerDue(t, outcome))
      modifies this
      ensures Valid() && View() == Step(old(View()), TimerDue(t, outcome))
    {
      hide Inv;
      StepValid(View(), TimerDue(t, outcome));
      match timers[t].alarm {
        case Backoff(r) => RespawnAfterBackoff(t, r, outcome);
        case Survival(repo, r) => CheckSurvival(t, repo, r);
        case Cooldown(repo) =>
          timers := timers - {t};
          BecomeHalfOpen(repo);
      }
    }

    method MarkStopping(r: RunId)
      requires r in runs
      modifies this
      ensures View() == StopMarked(old(View()), r)
    {
      ClearTimeout(runs[r].restartTimer);
      runs := runs[r := runs[r].(userStop := true, restartTimer := None, state := Stopping)];
    }

    /** `stop` up to its await, or to its end when the run has no bridge. */
    method StopRequest(r: RunId)
      requires Valid()
      modifies this
      ensures Valid() && View() == Step(old(View()), StopCall(r))
    {
      hide Inv;
      ghost var s := View();
      StepValid(s, StopCall(r));
      assert Step(s, StopCall(r)) == StopRequested(s, r);
      hide Step, StopMarked, StopBridge, ForgetRun;
      if r !in runs { return; }
      var bridge := runs[r].bridge;
      MarkStopping(r);
      if bridge.Some? {
        BridgeStop(bridge);
        stops := stops + multiset{r};
      } else {
        Forget(r);
      }
    }

    method StopContinue(r: RunId)
      requires Valid() && r in stops
      modifies this
      ensures Valid() && View() == Step(old(View()), StopResumes(r))
    {
      hide Inv;
      StepValid(View(), StopResumes(r));
      stops := stops - multiset{r};
      Forget(r);
    }

    method NoteActivity(r: RunId)
      requires Valid()
      modifies this`runs
      ensures Valid() && View() == Step(old(View()), Activity(r))
    {
      hide Inv;
      ghost var s := View();
      StepValid(s, Activity(r));
      assert Step(s, Activity(r)) == ActivitySeen(s, r);
      hide Step;
      if r in runs { runs := runs[r := runs[r].(lastActivityAt := Some(now))]; }
    }

    /** The clock that `Date.now()` reads goes on. */
    method Elapse(elapsed: nat)
      requires Valid()
      modifies this`now
      ensures Valid() && View() == Step(old(View()), Tick(elapsed))
    {
      hide Inv;
      ghost var s := View();
      StepValid(s, Tick(elapsed));
      assert Step(s, Tick(elapsed)) == s.(now := s.now + elapsed);
      hide Step;
      now := now + elapsed;
    }
  }

  /** The pruning loop of the crash path: keep the crashes of the window, in order. */
  method Prune(crashes: seq<int>, now: int) returns (kept: seq<int>)
    ensures kept == Recent(crashes, now)
  {
    kept := [];
    for i := 0 to |crashes|
      invariant kept == Recent(crashes[..i], now)
    {
      assert crashes[..i + 1][..i] == crashes[..i];
      if now - crashes[i] < CIRCUIT_WINDOW_MS { kept := kept + [crashes[i]]; }
    }
    assert crashes[..|crashes|] == crashes;
  }

  lemma StepValid(s: State, e: Event)
    requires Inv(s) && Enabled(s, e) && Fresh(s, e)
    ensures Inv(Step(s, e))
  {
    TurnInv(s, e, Step(s, e));
  }

  /** The state in which the checks of `start` leave the manager. */
  function AfterChecks(s: State, r: RunId, sandboxOk: bool, alive: set<BridgeId>): State
    requires r in s.starts
  {
    var s0 := s.(starts := s.starts - {r});
    if !sandboxOk || BreakerRefuses(s, s.starts[r], r) || CrashedPending(s, s.starts[r]) then s0
    else EvictAll(s0, StrandedRuns(s, alive))
  }

  lemma DequeuedAlike(s: State, r: RunId, alive: set<BridgeId>)
    ensures var s0 := s.(starts := s.starts - {r});
      && StrandedRuns(s0, alive) == StrandedRuns(s, alive)
      && EvictAll(s0, StrandedRuns(s, alive)).runs == EvictAll(s, StrandedRuns(s, alive)).runs
  {
    var s0 := s.(starts := s.starts - {r});
    forall q | q in s.runs ensures IsStranded(s0, s.runs[q], alive) == IsStranded(s, s.runs[q], alive) {}
  }

  lemma EvictNone(s: State)
    ensures EvictAll(s, {}) == s
  {
  }

  /** One turn of the reconciler: the others evicted so far do not change the verdict on `r`. */
  lemma ReconcileStep(s: State, dead: set<RunId>, r: RunId, alive: set<BridgeId>, stranded: set<RunId>)
    requires RunsOk(s) && r in s.runs && r !in dead && stranded == StrandedRuns(s, alive)
    ensures var y := EvictAll(s, dead);
      && r in y.runs && (IsStranded(y, y.runs[r], alive) <==> r in stranded)
      && (y.runs[r].bridge.Some? ==> y.runs[r].bridge.value in y.bridges)
      && EvictAll(y, {r}) == EvictAll(s, dead + {r})
  {
    assert RunOk(s, r);
    EvictMore(s, dead, r);
  }
}
