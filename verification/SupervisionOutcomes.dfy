/** What the events of the run manager come to, in the fields of the states before and after: which runs
    a start evicts and admits, and what an exit does to a run and to the breaker of its repo. */
module SupervisionOutcomes {
  import opened Wrappers
  import opened Supervision
  import opened SupervisionSafety
  import opened SupervisionHistory
  import opened SupervisionClock
  import opened SupervisionRuns

  // ----- What a start evicts -----

  /** The run has a bridge that is alive and has spawned its CLI. */
  predicate HealthyBridge(s: State, q: RunId, alive: set<BridgeId>)
    requires q in s.runs
  {
    var b := s.runs[q].bridge;
    b.Some? && b.value in alive && b.value in s.bridges && s.bridges[b.value].spawned
  }

  /** The run holds a slot without a healthy bridge, and was not seen for half a minute. */
  predicate Reclaimable(s: State, q: RunId, alive: set<BridgeId>) {
    && q in s.runs && (s.runs[q].state == Starting || s.runs[q].state == Running) && !HealthyBridge(s, q, alive)
    && match s.runs[q].lastActivityAt
       case Some(seen) => s.now - seen >= 30_000
       case None => s.now - s.runs[q].startedAt >= 30_000
  }

  /** The start passes the sandbox check, the breaker and the crashed runs of its repo. */
  predicate GetsToSlots(s: State, r: RunId, ok: bool)
    requires r in s.starts
  {
    var p := s.starts[r];
    && ok
    && (p in s.breakers ==>
          s.breakers[p].state == HalfOpen && (s.breakers[p].probeRunId.None? || s.breakers[p].probeRunId == Some(r)))
    && forall q | q in s.runs :: !(s.runs[q].state == Crashed && s.runs[q].repo == p)
  }

  /** The runs that go on holding a slot. */
  function Holding(s: State, alive: set<BridgeId>): set<RunId> {
    set q | q in s.runs && (s.runs[q].state == Starting || s.runs[q].state == Running) && !Reclaimable(s, q, alive)
  }

  lemma StrandedIs(s: State, alive: set<BridgeId>)
    ensures forall q :: q in StrandedRuns(s, alive) <==> Reclaimable(s, q, alive)
  {
  }

  lemma HoldingIs(s: State, alive: set<BridgeId>)
    ensures ActiveRuns(EvictAll(s, StrandedRuns(s, alive))) == Holding(s, alive)
  {
    StrandedIs(s, alive);
    hide IsStranded;
  }

  /** The verdict on a start, case by case. */
  lemma VerdictIff(s: State, r: RunId, ok: bool, alive: set<BridgeId>)
    requires Core(s) && r in s.starts
    ensures var v, p, holding := Decide(s, r, ok, alive), s.starts[r], Holding(s, alive);
      && (v == SandboxRefused <==> !ok)
      && (v == CircuitOpen <==>
            ok && p in s.breakers && (s.breakers[p].state == Open || s.breakers[p].probeRunId.Some?))
      && (v == Admitted <==>
            GetsToSlots(s, r, ok) && (forall q | q in holding :: s.runs[q].repo != p) && |holding| < s.cap)
      && (v == ConcurrencyCap <==>
            GetsToSlots(s, r, ok) && (forall q | q in holding :: s.runs[q].repo != p) && |holding| >= s.cap)
      && (v == DuplicateRun <==>
            && v != SandboxRefused && v != CircuitOpen
            && ((exists q :: q in s.runs && s.runs[q].state == Crashed && s.runs[q].repo == p)
                || exists q :: q in holding && s.runs[q].repo == p))
  {
    var p := s.starts[r];
    HoldingIs(s, alive);
    var x := EvictAll(s, StrandedRuns(s, alive));
    assert OtherActive(x, p, r) <==> exists q :: q in ActiveRuns(x) && x.runs[q].repo == p by {
      assert r !in x.runs by { assert StartsOk(s); }
    }
    assert forall q :: q in ActiveRuns(x) ==> x.runs[q] == s.runs[q];
    if p in s.breakers {
      assert BreakerOk(s, p);
      assert s.breakers[p].probeRunId != Some(r) by { assert StartsOk(s); }
    }
    hide Core, EvictAll, StrandedRuns, Holding, ActiveRuns;
  }

  lemma EvictFields(s: State, dead: set<RunId>)
    ensures var z := EvictAll(s, dead);
      && z.runs == s.runs - dead && z.bridges.Keys == s.bridges.Keys && z.nextBridge == s.nextBridge
      && z.breakers.Keys == s.breakers.Keys && z.now == s.now
    ensures forall b | b in s.bridges ::
      EvictAll(s, dead).bridges[b] == if EvictedBridge(s, dead, b) then s.bridges[b].(stopped := true) else s.bridges[b]
  {
  }

  /** A fresh run is spawned beside the others. */
  lemma SpawnFields(s: State, r: RunId, o: SpawnOutcome)
    requires r in s.runs && s.runs[r].restartCount == 0
    ensures var z := Spawn(s, r, o);
      && r in z.runs && z.runs[r].repo == s.runs[r].repo && z.runs - {r} == s.runs - {r} && z.breakers == s.breakers
      && (forall b | b in s.bridges && b < s.nextBridge :: b in z.bridges && z.bridges[b] == s.bridges[b])
      && (o == Started ==>
            && z.runs[r] == s.runs[r].(state := Starting, bridge := Some(s.nextBridge))
            && s.nextBridge in z.bridges && z.bridges[s.nextBridge] == Bridge(r, true, false, false, false))
      && (o != Started ==>
            && z.runs[r] == s.runs[r].(state := Crashed, restartCount := 1, bridge := z.runs[r].bridge,
                                       restartTimer := Some(s.nextTimer))
            && s.nextTimer in z.timers && z.timers[s.nextTimer] == Timer(s.now + 1000, Backoff(r)))
  {
    hide CloseBridge, ForgetRun, Count;
  }

  lemma OneLess(m: map<RunId, Run>, n: map<RunId, Run>, r: RunId)
    requires m - {r} == n - {r}
    ensures forall q | q != r :: (q in m <==> q in n) && (q in m ==> m[q] == n[q])
  {
    forall q | q != r ensures (q in m <==> q in n) && (q in m ==> m[q] == n[q]) {
      assert q in m <==> q in m - {r};
      assert q in n <==> q in n - {r};
      if q in m { assert m[q] == (m - {r})[q] == (n - {r})[q]; }
    }
  }

  /** What becomes of the runs and bridges that were there: what is evicted, and nothing else. */
  ghost predicate OnlyEvicts(s: State, z: State, r: RunId, dead: set<RunId>) {
    && (forall q | q != r :: (q in z.runs <==> q in s.runs && q !in dead) && (q in z.runs ==> z.runs[q] == s.runs[q]))
    && (forall b | b in s.bridges ::
          && b in z.bridges
          && z.bridges[b] == if EvictedBridge(s, dead, b) then s.bridges[b].(stopped := true) else s.bridges[b])
  }

  lemma EvictsOnly(s: State, r: RunId, dead: set<RunId>)
    requires r in s.starts && r !in s.runs
    ensures OnlyEvicts(s, EvictAll(s.(starts := s.starts - {r}), dead), r, dead)
  {
    var y := s.(starts := s.starts - {r});
    EvictFields(y, dead);
    assert forall b :: EvictedBridge(y, dead, b) <==> EvictedBridge(s, dead, b);
    hide EvictAll, EvictedBridge;
  }

  lemma AdmitFields(x: State, r: RunId, p: RepoPath)
    requires r !in x.runs
    ensures var y := Admit(x, r, p);
      && r in y.runs && y.runs[r] == NewRun(p, x.now) && y.runs - {r} == x.runs - {r}
      && y.bridges == x.bridges && y.nextBridge == x.nextBridge
  {
  }

  lemma AdmitsOnly(x: State, r: RunId, p: RepoPath, o: SpawnOutcome)
    requires r !in x.runs && forall b | b in x.bridges :: b < x.nextBridge
    ensures OnlyEvicts(x, Spawn(Admit(x, r, p), r, o), r, {})
  {
    var y := Admit(x, r, p);
    SpawnFields(y, r, o);
    AdmitFields(x, r, p);
    hide Spawn, Admit;
    OneLess(Spawn(y, r, o).runs, x.runs, r);
    assert forall b :: !EvictedBridge(x, {}, b);
    hide EvictedBridge;
  }

  lemma EvictsThenAdmits(s: State, x: State, z: State, r: RunId, dead: set<RunId>)
    requires OnlyEvicts(s, x, r, dead) && OnlyEvicts(x, z, r, {})
    ensures OnlyEvicts(s, z, r, dead)
  {
    assert forall b :: !EvictedBridge(x, {}, b);
    hide EvictedBridge;
  }

  lemma Unevicted(s: State, r: RunId)
    requires r in s.starts
    ensures OnlyEvicts(s, s.(starts := s.starts - {r}), r, {})
  {
  }

  /** Which eviction a start comes to. */
  lemma StartEvictsOnly(s: State, r: RunId, ok: bool, alive: set<BridgeId>, o: SpawnOutcome)
    requires Core(s) && r in s.starts
    ensures var dead := if GetsToSlots(s, r, ok) then StrandedRuns(s, alive) else {};
      OnlyEvicts(s, StartContinued(s, r, ok, alive, o), r, dead)
    ensures r in StartContinued(s, r, ok, alive, o).runs <==> Decide(s, r, ok, alive) == Admitted
  {
    var s0, dead, p := s.(starts := s.starts - {r}), StrandedRuns(s, alive), s.starts[r];
    var x := EvictAll(s0, dead);
    StartFacts(s, r);
    EvictFields(s0, dead);
    EvictsOnly(s, r, dead);
    Unevicted(s, r);
    AdmitsOnly(x, r, p, o);
    SpawnFields(Admit(x, r, p), r, o);
    assert r in Spawn(Admit(x, r, p), r, o).runs && r !in x.runs;
    GatesIff(s, r, ok, alive);
    hide Core, EvictAll, Spawn, Admit, Decide, StrandedRuns, OnlyEvicts, GetsToSlots, CrashedPending;
    EvictsThenAdmits(s, x, Spawn(Admit(x, r, p), r, o), r, dead);
  }

  lemma StartFacts(s: State, r: RunId)
    requires Core(s) && r in s.starts
    ensures r !in s.runs && r in s.hist.used && (forall b | b in s.bridges :: b < s.nextBridge)
  {
    assert StartsOk(s);
    forall b | b in s.bridges ensures b < s.nextBridge { assert BridgeOk(s, b); }
  }

  lemma GatesIff(s: State, r: RunId, ok: bool, alive: set<BridgeId>)
    requires Core(s) && r in s.starts
    ensures var v := Decide(s, r, ok, alive);
      GetsToSlots(s, r, ok) <==>
        !(v == SandboxRefused || v == CircuitOpen || (v == DuplicateRun && CrashedPending(s, s.starts[r])))
  {
    if s.starts[r] in s.breakers { assert BreakerOk(s, s.starts[r]); }
    hide Core, EvictAll, StrandedRuns, OtherActive;
  }

  /** For every run and every `start` that goes on behind its sandbox check: another run disappears
      exactly if the start gets to the slots and that run holds one without a healthy bridge and was
      last seen half a minute ago; then its bridge is stopped. Whatever stays, stays as it was. */
  lemma StartEvictsIff(
    trace: seq<State>, events: seq<Event>, i: nat, r: RunId, ok: bool, alive: set<BridgeId>, o: SpawnOutcome, q: RunId)
    requires IsRun(trace, events) && i < |events| && events[i] == StartResumes(r, ok, alive, o)
    requires q in trace[i].runs
    ensures r in trace[i].starts
    ensures var s, z := trace[i], trace[i + 1];
      && (q !in z.runs <==> GetsToSlots(s, r, ok) && Reclaimable(s, q, alive))
      && (q in z.runs ==> z.runs[q] == s.runs[q])
      && (s.runs[q].bridge.Some? ==>
            && s.runs[q].bridge.value in s.bridges && s.runs[q].bridge.value in z.bridges
            && var a, b := s.bridges[s.runs[q].bridge.value], z.bridges[s.runs[q].bridge.value];
            b == if q in z.runs then a else a.(stopped := true))
  {
    RunInv(trace, events, i);
    var s, z := trace[i], trace[i + 1];
    assert Turn(s, events[i], z);
    hide IsRun;
    StartFacts(s, r);
    StartEvictsOnly(s, r, ok, alive, o);
    StrandedIs(s, alive);
    assert RunOk(s, q);
    var dead := if GetsToSlots(s, r, ok) then StrandedRuns(s, alive) else {};
    if s.runs[q].bridge.Some? { OwnBridgeEvicted(s, q, dead); }
    hide Inv, Core, StrandedRuns, GetsToSlots, Reclaimable, StartContinued, EvictedBridge;
  }

  lemma OwnBridgeEvicted(s: State, q: RunId, dead: set<RunId>)
    requires Core(s) && q in s.runs && s.runs[q].bridge.Some?
    ensures EvictedBridge(s, dead, s.runs[q].bridge.value) <==> q in dead
  {
    assert RunOk(s, q);
    forall d | d in dead && d in s.runs && s.runs[d].bridge == s.runs[q].bridge ensures d == q { assert RunOk(s, d); }
  }

  /** The run was just admitted: its bridge is up, or its first respawn is armed if that could not be
      constructed or started. */
  ghost predicate NewlySpawned(s: State, z: State, r: RunId, p: RepoPath, o: SpawnOutcome) {
    && r in z.runs
    && if o == Started then
         && z.runs[r] == Run(p, Some(s.nextBridge), Starting, 0, [], None, false, s.now, None)
         && s.nextBridge in z.bridges && z.bridges[s.nextBridge] == Bridge(r, true, false, false, false)
       else
         && z.runs[r] == Run(p, z.runs[r].bridge, Crashed, 1, [], z.runs[r].restartTimer, false, s.now, None)
         && z.runs[r].restartTimer.Some? && z.runs[r].restartTimer.value in z.timers
         && z.timers[z.runs[r].restartTimer.value] == Timer(s.now + 1000, Backoff(r))
  }

  /** And the run itself is tracked afterwards exactly if it gets to the slots, no run of its repo goes on
      holding one, and a slot is left; it has then claimed the probe slot of a half-open breaker. */
  lemma StartAdmitsIff(
    trace: seq<State>, events: seq<Event>, i: nat, r: RunId, ok: bool, alive: set<BridgeId>, o: SpawnOutcome)
    requires IsRun(trace, events) && i < |events| && events[i] == StartResumes(r, ok, alive, o)
    ensures r in trace[i].starts
    ensures var s, z, p, holding := trace[i], trace[i + 1], trace[i].starts[r], Holding(trace[i], alive);
      && (r in z.runs <==>
            GetsToSlots(s, r, ok) && (forall q | q in holding :: s.runs[q].repo != p) && |holding| < s.cap)
      && (r in z.runs ==>
            && (p in s.breakers ==> p in z.breakers && z.breakers[p].probeRunId == Some(r))
            && NewlySpawned(s, z, r, p, o))
  {
    RunInv(trace, events, i);
    var s, z := trace[i], trace[i + 1];
    assert Turn(s, events[i], z);
    hide IsRun;
    StartEvictsOnly(s, r, ok, alive, o);
    VerdictIff(s, r, ok, alive);
    if Decide(s, r, ok, alive) == Admitted { AdmittedFields(s, r, ok, alive, o); }
    hide Inv, Core, Decide, GetsToSlots, Holding, StartContinued, OnlyEvicts;
  }

  lemma AdmittedFields(s: State, r: RunId, ok: bool, alive: set<BridgeId>, o: SpawnOutcome)
    requires Core(s) && r in s.starts && Decide(s, r, ok, alive) == Admitted
    ensures var z, p := StartContinued(s, r, ok, alive, o), s.starts[r];
      && NewlySpawned(s, z, r, p, o) && (p in s.breakers ==> p in z.breakers && z.breakers[p].probeRunId == Some(r))
  {
    var s0, dead, p := s.(starts := s.starts - {r}), StrandedRuns(s, alive), s.starts[r];
    var x := EvictAll(s0, dead);
    AdmittedAlone(s, r, ok, alive);
    EvictFields(s0, dead);
    StartOutcome(s, r, ok, alive, o);
    SpawnFields(Admit(x, r, p), r, o);
    hide Core, EvictAll, Spawn, Decide, StartContinued, StrandedRuns;
  }
  // ----- What a stop and a respawn do -----

  lemma ForgetFields(s: State, r: RunId)
    requires r in s.runs
    ensures var z, p := ForgetRun(s, r), s.runs[r].repo;
      && z.runs == s.runs - {r} && z.now == s.now && z.bridges == s.bridges && z.stops == s.stops
      && z.timers.Keys <= s.timers.Keys
      && z.breakers == if p in s.breakers && s.breakers[p].probeRunId == Some(r)
                       then s.breakers[p := s.breakers[p].(probeRunId := None, timer := None)] else s.breakers
  {
  }

  lemma StopFields(s: State, r: RunId)
    requires r in s.runs && (s.runs[r].bridge.Some? ==> s.runs[r].bridge.value in s.bridges)
    ensures var z := StopRequested(s, r);
      && z.runs - {r} == s.runs - {r}
      && (s.runs[r].bridge.None? ==> r !in z.runs)
      && (s.runs[r].bridge.Some? ==>
            && r in z.runs && z.runs[r] == s.runs[r].(state := Stopping, userStop := true, restartTimer := None)
            && z.stops == s.stops + multiset{r}
            && s.runs[r].bridge.value in z.bridges && z.bridges[s.runs[r].bridge.value].stopped)
      && (s.runs[r].restartTimer.Some? ==> s.runs[r].restartTimer.value !in z.timers)
  {
    var y := StopMarked(s, r);
    assert y.runs - {r} == s.runs - {r} && r in y.runs && y.stops == s.stops && y.bridges == s.bridges;
    assert y.runs[r] == s.runs[r].(state := Stopping, userStop := true, restartTimer := None);
    assert s.runs[r].restartTimer.Some? ==> s.runs[r].restartTimer.value !in y.timers;
    if s.runs[r].bridge.None? { ForgetFields(y, r); }
    hide StopMarked, ForgetRun;
  }

  /** A stop of a tracked run cancels its respawn and stops its bridge; what then waits for the bridge
      drops the run. Without a bridge it is dropped at once. */
  lemma StopIs(trace: seq<State>, events: seq<Event>, i: nat, r: RunId)
    requires IsRun(trace, events) && i < |events| && r in trace[i].runs
    ensures var s, z := trace[i], trace[i + 1];
      && (events[i] == StopResumes(r) ==> z.runs == s.runs - {r} && z.stops == s.stops - multiset{r})
      && (events[i] == StopCall(r) ==>
            && z.runs - {r} == s.runs - {r}
            && (s.runs[r].restartTimer.Some? ==> s.runs[r].restartTimer.value !in z.timers)
            && if s.runs[r].bridge.None? then r !in z.runs
               else
                 && r in z.runs && z.runs[r] == s.runs[r].(state := Stopping, userStop := true, restartTimer := None)
                 && z.stops == s.stops + multiset{r}
                 && s.runs[r].bridge.value in z.bridges && z.bridges[s.runs[r].bridge.value].stopped)
  {
    RunInv(trace, events, i);
    assert Turn(trace[i], events[i], trace[i + 1]);
    hide IsRun;
    assert RunOk(trace[i], r);
    if events[i] == StopCall(r) { StopFields(trace[i], r); }
    hide Core, StopRequested, StopMarked, Inv;
  }

  /** The run of the due backoff is spawned again, or backs off once more, or is given up after ten
      restarts; `y` is the state without its timer and with its bridge closed. */
  ghost predicate SpawnedAgain(s: State, z: State, r: RunId, was: Run, o: SpawnOutcome) {
    && z.runs - {r} == s.runs - {r} && z.breakers.Keys == s.breakers.Keys
    && if o == Started then
         && r in z.runs
         && z.runs[r] == was.(state := Starting, bridge := Some(s.nextBridge), restartTimer := None)
         && s.nextBridge in z.bridges && z.bridges[s.nextBridge] == Bridge(r, true, false, false, false)
       else if was.restartCount >= 10 then r !in z.runs
       else
         && r in z.runs
         && z.runs[r] == was.(state := Crashed, restartCount := was.restartCount + 1, bridge := z.runs[r].bridge,
                              restartTimer := z.runs[r].restartTimer)
         && z.runs[r].restartTimer.Some? && z.runs[r].restartTimer.value in z.timers
         && z.timers[z.runs[r].restartTimer.value].alarm == Backoff(r)
  }

  ghost predicate OldBridgesKept(y: State, z: State) {
    forall b | b in y.bridges && b < y.nextBridge :: b in z.bridges && z.bridges[b] == y.bridges[b]
  }

  lemma SpawnAgain(y: State, r: RunId, o: SpawnOutcome)
    requires r in y.runs && y.runs[r].bridge.None? && y.runs[r].restartTimer.None?
    ensures SpawnedAgain(y, Spawn(y, r, o), r, y.runs[r], o) && OldBridgesKept(y, Spawn(y, r, o))
  {
    if o != Started {
      var x := SpawnFailed(y, r, o);
      FailsAgain(y, r, o);
      hide SpawnFailed, ScheduleRestart;
      RestartAgain(x, r);
    }
  }

  lemma FailsAgain(y: State, r: RunId, o: SpawnOutcome)
    requires r in y.runs && y.runs[r].bridge.None? && o != Started
    ensures var x := SpawnFailed(y, r, o);
      && OldBridgesKept(y, x) && x.runs - {r} == y.runs - {r} && x.breakers == y.breakers
      && r in x.runs && x.runs[r] == y.runs[r].(state := Crashed, bridge := x.runs[r].bridge)
      && (x.runs[r].bridge.Some? ==> x.runs[r].bridge.value >= y.nextBridge)
  {
  }

  lemma RestartAgain(x: State, r: RunId)
    requires r in x.runs
    ensures var z := ScheduleRestart(x, r);
      && z.runs - {r} == x.runs - {r} && z.breakers.Keys == x.breakers.Keys
      && (forall b | b in x.bridges && x.runs[r].bridge != Some(b) :: b in z.bridges && z.bridges[b] == x.bridges[b])
      && if x.runs[r].restartCount >= 10 then r !in z.runs
         else
           && r in z.runs
           && z.runs[r] == x.runs[r].(state := Crashed, restartCount := x.runs[r].restartCount + 1,
                                      restartTimer := Some(x.nextTimer))
           && x.nextTimer in z.timers && z.timers[x.nextTimer].alarm == Backoff(r)
  {
    hide BackoffDelay, Count;
    if x.runs[r].restartCount >= 10 {
      var y := CloseBridge(x, r);
      assert r in y.runs && y.runs - {r} == x.runs - {r} && y.breakers == x.breakers;
      assert forall b | b in x.bridges && x.runs[r].bridge != Some(b) :: b in y.bridges && y.bridges[b] == x.bridges[b];
      hide CloseBridge, ForgetRun;
      ForgetFields(y, r);
    }
  }

  /** A due backoff. */
  lemma RespawnIs(trace: seq<State>, events: seq<Event>, i: nat, t: TimerId, o: SpawnOutcome)
    requires IsRun(trace, events) && i < |events| && events[i] == TimerDue(t, o) && t in trace[i].timers
    requires trace[i].timers[t].alarm.Backoff?
    ensures var s, z, r := trace[i], trace[i + 1], trace[i].timers[t].alarm.runId;
      && r in s.runs && SpawnedAgain(s, z, r, s.runs[r], o)
      && (s.runs[r].bridge.Some? ==>
            s.runs[r].bridge.value in z.bridges && z.bridges[s.runs[r].bridge.value].stopped)
  {
    RunInv(trace, events, i);
    assert Turn(trace[i], events[i], trace[i + 1]);
    hide IsRun;
    var s, r := trace[i], trace[i].timers[t].alarm.runId;
    assert TimerOk(s, t) && RunOk(s, r);
    assert s.runs[r].bridge.Some? ==> BridgeOk(s, s.runs[r].bridge.value);
    hide Core, Inv, BackoffElapsed, SpawnedAgain;
    RespawnFields(s, t, r, o);
  }

  lemma RespawnFields(s: State, t: TimerId, r: RunId, o: SpawnOutcome)
    requires r in s.runs
    requires s.runs[r].bridge.Some? ==> s.runs[r].bridge.value in s.bridges && s.runs[r].bridge.value < s.nextBridge
    ensures var z := BackoffElapsed(s, t, r, o);
      && SpawnedAgain(s, z, r, s.runs[r], o)
      && (s.runs[r].bridge.Some? ==>
            s.runs[r].bridge.value in z.bridges && z.bridges[s.runs[r].bridge.value].stopped)
  {
    var y := CloseBridge(TakeTimer(s, t, r), r);
    assert r in y.runs && y.runs - {r} == s.runs - {r};
    assert y.runs[r] == s.runs[r].(bridge := None, restartTimer := None);
    assert y.breakers == s.breakers && y.nextBridge == s.nextBridge;
    assert s.runs[r].bridge.Some? ==>
      s.runs[r].bridge.value in y.bridges && y.bridges[s.runs[r].bridge.value].stopped;
    hide TakeTimer, CloseBridge, Spawn;
    SpawnAgain(y, r, o);
  }
  // ----- Activity keeps a slot -----

  /** The run is tracked no more, or was seen at `t` or later. */
  predicate SeenSince(s: State, r: RunId, t: int) {
    && r in s.hist.used && r !in s.starts
    && (r in s.runs ==> s.runs[r].lastActivityAt.Some? && s.runs[r].lastActivityAt.value >= t)
  }

  ghost predicate KeepsSeen(s: State, z: State, r: RunId) {
    r in z.runs ==> r in s.runs && z.runs[r].lastActivityAt == s.runs[r].lastActivityAt
  }

  lemma SubjectSeen(s: State, e: Event, r: RunId)
    requires Core(s) && Enabled(s, e) && Subject(s, e) == Some(r) && r !in s.starts && !e.Activity?
    ensures KeepsSeen(s, Step(s, e), r)
  {
    match e {
      case OnSpawned(b) => SpawnedUnrecorded(s, b);
      case OnExit(b, clean) => ExitSeen(s, b, clean, r);
      case TimerDue(t, o) => if r in s.runs { OwnFacts(s, r); RespawnFields(s, t, r, o); }
      case StopCall(_) => StopUnrecorded(s, r);
      case StopResumes(_) => ForgetUnrecorded(s.(stops := s.stops - multiset{r}), r);
    }
    hide Core, BridgeSpawned, BridgeExited, StopRequested, StopSettled, BackoffElapsed;
  }

  lemma ExitSeen(s: State, b: BridgeId, clean: bool, r: RunId)
    requires b in s.bridges && s.bridges[b].owner == r
    ensures KeepsSeen(s, BridgeExited(s, b, clean), r)
  {
    if r in s.runs {
      var y := MarkExited(s, b);
      var x := NoteCrash(y, r);
      ForgetUnrecorded(y, r);
      StopBridgeEffect(ForgetRun(y, r), s.runs[r].bridge);
      TripUnrecorded(x, r);
      RestartAgain(x, r);
    }
    hide ForgetRun, StopBridge, TripBreaker, ScheduleRestart, MustTrip;
  }
  lemma StepSeen(s: State, e: Event, r: RunId, t: int)
    requires Core(s) && Enabled(s, e) && Fresh(s, e) && SeenSince(s, r, t) && t <= s.now
    ensures SeenSince(Step(s, e), r, t)
  {
    var z := Step(s, e);
    StepUsed(s, e);
    if e == Activity(r) {
    } else if Subject(s, e) == Some(r) {
      SubjectSeen(s, e, r);
      hide Step, Core, Enabled;
    } else {
      StepBystander(s, e, r);
      hide Step, Core, Enabled;
    }
  }

  lemma StepNow(s: State, e: Event)
    requires Core(s) && HistOk(s) && Enabled(s, e)
    ensures Step(s, e).now >= s.now
  {
    match e {
      case OnExit(b, clean) => ExitOnlyRun(s, b, clean);
      case TimerDue(t, o) =>
        if s.timers[t].alarm.Backoff? {
          BackoffOnlyRun(s, t, s.timers[t].alarm.runId, o);
        } else {
          TimerQuiet(s, t, o);
        }
      case StartResumes(r, ok, alive, o) => StartFacts(s, r); StartOnlyRun(s, r, ok, alive, o);
      case OnSpawned(b) => SpawnedUnrecorded(s, b);
      case StopCall(r) => StopUnrecorded(s, r);
      case StopResumes(r) => ForgetUnrecorded(s.(stops := s.stops - multiset{r}), r);
      case _ =>
    }
    hide Core, HistOk, BridgeExited, TimerFired, BackoffElapsed, StartContinued, StopRequested, ForgetRun;
    hide BridgeSpawned;
  }

  lemma TurnSeen(trace: seq<State>, events: seq<Event>, k: nat, r: RunId, t: int)
    requires IsRun(trace, events) && k < |events| && t <= trace[k].now
    requires SeenSince(trace[k], r, t) || (events[k] == Activity(r) && r in trace[k].runs)
    ensures SeenSince(trace[k + 1], r, t) && t <= trace[k + 1].now
  {
    RunInv(trace, events, k);
    assert Turn(trace[k], events[k], trace[k + 1]);
    hide IsRun;
    StepNow(trace[k], events[k]);
    if SeenSince(trace[k], r, t) {
      hide Step;
      StepSeen(trace[k], events[k], r, t);
    } else {
      OwnFacts(trace[k], r);
    }
    hide Core, Enabled;
  }

  lemma {:induction false} SeenSinceThen(trace: seq<State>, events: seq<Event>, i: nat, j: nat, r: RunId)
    requires IsRun(trace, events) && i < j < |trace| && events[i] == Activity(r) && r in trace[i].runs
    ensures SeenSince(trace[j], r, trace[i].now) && trace[i].now <= trace[j].now
    decreases j
  {
    if i + 1 < j { SeenSinceThen(trace, events, i, j - 1, r); }
    hide Turn;
    TurnSeen(trace, events, j - 1, r, trace[i].now);
  }

  /** A run that showed activity less than half a minute ago keeps its slot whatever starts. */
  lemma ActivityProtects(
    trace: seq<State>, events: seq<Event>, i: nat, j: nat, r: RunId, q: RunId, ok: bool, alive: set<BridgeId>,
    o: SpawnOutcome)
    requires IsRun(trace, events) && i < j < |events| && events[i] == Activity(r) && r in trace[i].runs
    requires events[j] == StartResumes(q, ok, alive, o) && trace[j].now - trace[i].now < 30_000
    ensures r in trace[j].runs ==> r in trace[j + 1].runs && trace[j + 1].runs[r] == trace[j].runs[r]
  {
    SeenSinceThen(trace, events, i, j, r);
    if r in trace[j].runs { StartEvictsIff(trace, events, j, q, ok, alive, o, r); }
    hide IsRun, GetsToSlots;
  }
}
