/** Runs of the manager in which a probe is up while its breaker is still half-open, and in which five
    probes fail. */
module SupervisionProbes {
  import opened Wrappers
  import opened Supervision
  import opened SupervisionEdges
  import opened SupervisionLimits

  lemma {:induction false} Append(s: State, events: seq<Event>, y: State, more: seq<Event>, z: State)
    requires Reaches(Kept, s, events, y) && Reaches(Kept, y, more, z)
    ensures Reaches(Kept, s, events + more, z)
    decreases |events|
  {
    hide Step;
    if events == [] {
      assert events + more == more;
    } else {
      Append(Step(s, events[0]), events[1..], y, more, z);
      Prepend(Kept, s, events[0], events[1..] + more, z);
      assert [events[0]] + (events[1..] + more) == events + more;
    }
  }

  lemma Three(s: State, e0: Event, x: State, e1: Event, y: State, e2: Event, z: State)
    requires Allows(Kept, s, e0) && Step(s, e0) == x && Allows(Kept, x, e1) && Step(x, e1) == y
    requires Allows(Kept, y, e2) && Step(y, e2) == z
    ensures Reaches(Kept, s, [e0, e1, e2], z)
  {
    hide Tolerated, Enabled, Step, Fresh;
    Prepend(Kept, y, e2, [], z);
    Prepend(Kept, x, e1, [e2], z);
    Prepend(Kept, s, e0, [e1, e2], z);
    assert [e2] + [] == [e2] && [e1] + [e2] == [e1, e2] && [e0] + [e1, e2] == [e0, e1, e2];
  }

  /** The run has crashed and come back `k` times within half a minute, and nothing else is there. */
  ghost predicate Looping(s: State, r: RunId, p: RepoPath, k: nat) {
    && s.runs.Keys == {r} && LoopingRun(s.runs[r], p, k, s.now)
    && s.runs[r].bridge.Some? && s.runs[r].bridge.value in s.bridges && s.runs[r].bridge.value < s.nextBridge
    && s.bridges[s.runs[r].bridge.value] == Bridge(r, true, false, false, false)
    && s.breakers == map[] && s.timers == map[] && s.cap == 1 && s.hist.used == {r}
  }

  predicate LoopingRun(run: Run, p: RepoPath, k: nat, now: int) {
    && run.repo == p && run.state == Starting && run.restartCount == k && run.restartTimer.None? && !run.userStop
    && |run.recentCrashes| == k && forall c | c in run.recentCrashes :: now - c <= k * 8000
  }

  lemma {:induction false} RecentAll(crashes: seq<int>, now: int)
    requires forall c | c in crashes :: now - c < CIRCUIT_WINDOW_MS
    ensures Recent(crashes, now) == crashes
  {
    if crashes != [] {
      var rest := crashes[..|crashes| - 1];
      assert crashes == rest + [crashes[|crashes| - 1]] && crashes[|crashes| - 1] in crashes;
      assert forall c :: c in rest ==> c in crashes;
      RecentAll(rest, now);
    }
  }

  /** A crash below the threshold arms the next respawn. */
  lemma Crashes(s: State, r: RunId, p: RepoPath, k: nat) returns (z: State)
    requires Looping(s, r, p, k) && k < 4
    ensures Allows(Kept, s, OnExit(s.runs[r].bridge.value, false))
    ensures z == Step(s, OnExit(s.runs[r].bridge.value, false))
    ensures z.runs.Keys == {r} && z.runs[r] == s.runs[r].(restartCount := k + 1, state := Crashed,
      recentCrashes := s.runs[r].recentCrashes + [s.now], restartTimer := Some(s.nextTimer))
    ensures z.timers == map[s.nextTimer := Timer(s.now + BackoffDelay(k), Backoff(r))] && z.breakers == map[]
    ensures z.cap == 1 && z.hist.used == {r} && z.now == s.now && z.nextBridge == s.nextBridge
  {
    var b := s.runs[r].bridge.value;
    RecentAll(s.runs[r].recentCrashes + [s.now], s.now);
    var y := NoteCrash(MarkExited(s, b), r);
    assert !MustTrip(y, r);
    hide Recent, BackoffDelay;
    z := ScheduleRestart(y, r);
  }

  lemma Respawns(s: State, r: RunId, p: RepoPath, k: nat, t: TimerId) returns (z: State)
    requires s.runs.Keys == {r} && s.timers == map[t := Timer(s.now, Backoff(r))] && s.breakers == map[]
    requires LoopingRun(s.runs[r].(state := Starting, restartTimer := None), p, k, s.now)
    requires s.cap == 1 && s.hist.used == {r}
    ensures Allows(Kept, s, TimerDue(t, Started)) && z == Step(s, TimerDue(t, Started)) && Looping(z, r, p, k)
  {
    var x := TakeTimer(s, t, r);
    assert x.timers == map[];
    z := Spawn(CloseBridge(x, r), r, Started);
  }

  lemma LoopsOn(s: State, r: RunId, p: RepoPath, k: nat, run: Run)
    requires Looping(s, r, p, k) && k < 4
    requires run == s.runs[r].(restartCount := k + 1, state := Crashed,
      recentCrashes := s.runs[r].recentCrashes + [s.now], restartTimer := run.restartTimer)
    ensures LoopingRun(run.(state := Starting, restartTimer := None), p, k + 1, s.now + BackoffDelay(k))
  {
    assert BackoffDelay(k) <= 8000;
    hide BackoffDelay;
  }

  lemma TickAllowed(s: State, d: nat)
    ensures Allows(Kept, s, Tick(d)) && Step(s, Tick(d)) == s.(now := s.now + d)
  {
  }

  lemma CrashRound(s: State, r: RunId, p: RepoPath, k: nat) returns (events: seq<Event>, z: State)
    requires Looping(s, r, p, k) && k < 4
    ensures Reaches(Kept, s, events, z) && Looping(z, r, p, k + 1)
  {
    var e := OnExit(s.runs[r].bridge.value, false);
    var x := Crashes(s, r, p, k);
    var d, t := BackoffDelay(k), s.nextTimer;
    var y := x.(now := x.now + d);
    LoopsOn(s, r, p, k, x.runs[r]);
    TickAllowed(x, d);
    hide Allows, Step, Looping, LoopingRun, BackoffDelay;
    z := Respawns(y, r, p, k + 1, t);
    Three(s, e, x, Tick(d), y, TimerDue(t, Started), z);
    events := [e, Tick(d), TimerDue(t, Started)];
  }

  lemma {:induction false} CrashLoop(s: State, r: RunId, p: RepoPath, k: nat) returns (events: seq<Event>, z: State)
    requires Looping(s, r, p, k) && k <= 4
    ensures Reaches(Kept, s, events, z) && Looping(z, r, p, 4)
    decreases 4 - k
  {
    hide Looping, Allows, Step;
    if k == 4 {
      events, z := [], s;
    } else {
      var first, y := CrashRound(s, r, p, k);
      var more, x := CrashLoop(y, r, p, k + 1);
      Append(s, first, y, more, x);
      events, z := first + more, x;
    }
  }

  /** Nothing is tracked, and the repo's breaker is in the given state. */
  ghost predicate OnlyBreaker(s: State, used: set<RunId>, p: RepoPath, b: Breaker) {
    && s.runs == map[] && s.breakers == map[p := b] && s.cap == 1 && s.hist.used == used
  }

  /** The breaker has just opened after `n` failed probes, and will cool down unless there were five. */
  ghost predicate JustOpen(s: State, used: set<RunId>, p: RepoPath, n: nat, t: TimerId) {
    && OnlyBreaker(s, used, p, Breaker(Open, s.now, n, if n < 5 then Some(t) else None, None))
    && s.timers == if n < 5 then map[t := Timer(s.now + CooldownFor(n), Cooldown(p))] else map[]
  }

  /** The cooldown is over. */
  ghost predicate Cooled(s: State, used: set<RunId>, p: RepoPath, n: nat, at: int) {
    OnlyBreaker(s, used, p, Breaker(HalfOpen, at, n, None, None)) && s.timers == map[]
  }

  /** The fifth crash opens the breaker. */
  lemma Trips(s: State, r: RunId, p: RepoPath) returns (z: State)
    requires Looping(s, r, p, 4)
    ensures Allows(Kept, s, OnExit(s.runs[r].bridge.value, false))
    ensures z == Step(s, OnExit(s.runs[r].bridge.value, false))
    ensures JustOpen(z, {r}, p, 0, s.nextTimer) && z.now == s.now
  {
    var b := s.runs[r].bridge.value;
    RecentAll(s.runs[r].recentCrashes + [s.now], s.now);
    var y := NoteCrash(MarkExited(s, b), r);
    assert MustTrip(y, r);
    hide Recent, CooldownFor;
    z := TripBreaker(y, r);
    assert z.runs == map[];
  }

  lemma CoolsDown(s: State, used: set<RunId>, p: RepoPath, n: nat, t: TimerId) returns (events: seq<Event>, z: State)
    requires JustOpen(s, used, p, n, t) && n < 5
    ensures Reaches(Kept, s, events, z) && Cooled(z, used, p, n, s.now)
  {
    var d: nat, fire := CooldownFor(n), TimerDue(t, Started);
    var y := s.(now := s.now + d);
    z := GoHalfOpen(y.(timers := y.timers - {t}), p);
    assert Allows(Kept, s, Tick(d)) && Step(s, Tick(d)) == y && Allows(Kept, y, fire) && Step(y, fire) == z;
    assert Cooled(z, used, p, n, s.now);
    hide Allows, Step, OnlyBreaker, GoHalfOpen;
    Prepend(Kept, y, fire, [], z);
    Prepend(Kept, s, Tick(d), [fire], z);
    assert [fire] + [] == [fire] && [Tick(d)] + [fire] == [Tick(d), fire];
    events := [Tick(d), fire];
  }

  lemma TripRound(s: State, r: RunId, p: RepoPath) returns (events: seq<Event>, z: State)
    requires Looping(s, r, p, 4)
    ensures Reaches(Kept, s, events, z) && Cooled(z, {r}, p, 0, s.now)
  {
    var e := OnExit(s.runs[r].bridge.value, false);
    var x := Trips(s, r, p);
    hide Looping, Allows, Step, JustOpen, Cooled;
    events, z := CoolsDown(x, {r}, p, 0, s.nextTimer);
    Prepend(Kept, s, e, events, z);
    events := [e] + events;
  }

  lemma ProbeCalled(s: State, used: set<RunId>, r: RunId, p: RepoPath, n: nat, at: int) returns (y: State)
    requires Cooled(s, used, p, n, at) && r !in used
    ensures Allows(Kept, s, StartCall(r, p)) && y == Step(s, StartCall(r, p))
    ensures Cooled(y, used + {r}, p, n, at) && y.nextBridge == s.nextBridge && y.nextTimer == s.nextTimer
    ensures y.now == s.now
    ensures r in y.starts && y.starts[r] == p
  {
    y := StartRequested(s, r, p);
  }

  /** A probe was just admitted to the half-open breaker. */
  ghost predicate Probing(s: State, used: set<RunId>, r: RunId, p: RepoPath, n: nat, at: int, b: BridgeId) {
    && s.runs.Keys == {r} && s.runs[r].repo == p && s.runs[r].bridge == Some(b) && s.runs[r].state == Starting
    && !s.runs[r].userStop && s.runs[r].restartTimer.None?
    && b in s.bridges && s.bridges[b] == Bridge(r, true, false, false, false)
    && s.breakers == map[p := Breaker(HalfOpen, at, n, None, Some(r))]
    && s.timers == map[] && s.cap == 1 && s.hist.used == used
  }

  /** The next start of the repo is admitted as the probe. */
  lemma ProbeAdmitted(s: State, used: set<RunId>, r: RunId, p: RepoPath, n: nat, at: int) returns (z: State)
    requires Cooled(s, used, p, n, at) && r in s.starts && s.starts[r] == p
    ensures Allows(Kept, s, StartResumes(r, true, {}, Started)) && z == Step(s, StartResumes(r, true, {}, Started))
    ensures Probing(z, used, r, p, n, at, s.nextBridge) && z.now == s.now && z.nextTimer == s.nextTimer
  {
    AdmitsProbe(s, r, p);
    var x := EvictAll(s.(starts := s.starts - {r}), StrandedRuns(s, {}));
    EvictsNothing(s.(starts := s.starts - {r}), StrandedRuns(s, {}));
    hide Decide, EvictAll, StrandedRuns;
    z := Spawn(Admit(x, r, p), r, Started);
  }

  lemma EvictsNothing(s: State, dead: set<RunId>)
    requires s.runs == map[]
    ensures var z := EvictAll(s, dead);
      && z.runs == map[] && z.breakers == s.breakers && z.nextBridge == s.nextBridge && z.timers == s.timers
      && z.nextTimer == s.nextTimer && z.now == s.now && z.cap == s.cap && z.hist.used == s.hist.used
  {
  }

  lemma AdmitsProbe(s: State, r: RunId, p: RepoPath)
    requires s.runs == map[] && p in s.breakers && s.breakers[p].state == HalfOpen && s.breakers[p].probeRunId.None?
    requires r in s.starts && s.starts[r] == p && s.cap == 1
    ensures Decide(s, r, true, {}) == Admitted
  {
    assert ActiveRuns(EvictAll(s, StrandedRuns(s, {}))) == {};
  }

  lemma ProbeStarts(s: State, used: set<RunId>, r: RunId, p: RepoPath, n: nat, at: int)
    returns (events: seq<Event>, z: State)
    requires Cooled(s, used, p, n, at) && r !in used
    ensures Reaches(Kept, s, events, z)
    ensures Probing(z, used + {r}, r, p, n, at, s.nextBridge) && z.now == s.now && z.nextTimer == s.nextTimer
  {
    hide Cooled, Probing, Allows, Step;
    var call, go := StartCall(r, p), StartResumes(r, true, {}, Started);
    var y := ProbeCalled(s, used, r, p, n, at);
    z := ProbeAdmitted(y, used + {r}, r, p, n, at);
    Prepend(Kept, y, go, [], z);
    Prepend(Kept, s, call, [go], z);
    assert [go] + [] == [go] && [call] + [go] == [call, go];
    events := [call, go];
  }

  lemma ProbeUp(s: State, used: set<RunId>, r: RunId, p: RepoPath, n: nat, at: int, b: BridgeId) returns (z: State)
    requires Probing(s, used, r, p, n, at, b)
    ensures Allows(Kept, s, OnSpawned(b)) && z == Step(s, OnSpawned(b))
    ensures r in z.runs && z.runs[r].state == Running
    ensures p in z.breakers && z.breakers[p].state == HalfOpen && z.breakers[p].probeRunId == Some(r)
  {
    z := BridgeSpawned(s, b);
  }

  /** A run crashes five times, its breaker opens and cools down. */
  lemma FirstTrip(r: RunId, p: RepoPath) returns (events: seq<Event>, z: State, at: int)
    ensures Reaches(Kept, Init(1, 1), events, z) && Cooled(z, {r}, p, 0, at)
  {
    var s0 := FirstStart(r, p);
    assert Looping(s0, r, p, 0);
    InitEmpty();
    hide Looping, OnlyStarted, StartRequested, StartContinued, Allows, Step, OnlyBreaker, Starts, Empty;
    var loop, s1 := CrashLoop(s0, r, p, 0);
    at := s1.now;
    var trip, s2 := TripRound(s1, r, p);
    z := s2;
    Append(s0, loop, s1, trip, z);
    PrependStart(Kept, Init(1, 1), r, p, loop + trip, z);
    events := Starts(r, p) + (loop + trip);
  }

  /** And the next start of the repo is up and running while the breaker is half-open. */
  lemma ProbeRunsHalfOpen(r1: RunId, r2: RunId, p: RepoPath) returns (events: seq<Event>, z: State)
    requires r1 != r2
    ensures Reaches(Kept, Init(1, 1), events, z) && r2 in z.runs && z.runs[r2].state == Running
    ensures p in z.breakers && z.breakers[p].state == HalfOpen && z.breakers[p].probeRunId == Some(r2)
  {
    hide Allows, Step, Cooled, Probing;
    var trip, s, at := FirstTrip(r1, p);
    var go, y := ProbeStarts(s, {r1}, r2, p, 0, at);
    z := ProbeUp(y, {r1} + {r2}, r2, p, 0, at, s.nextBridge);
    var up := OnSpawned(s.nextBridge);
    Prepend(Kept, y, up, [], z);
    assert [up] + [] == [up];
    Append(s, go, y, [up], z);
    Append(Init(1, 1), trip, s, go + [up], z);
    events := trip + (go + [up]);
  }

  // ----- Five failed probes -----

  lemma ProbeDies(s: State, used: set<RunId>, r: RunId, p: RepoPath, n: nat, at: int, b: BridgeId) returns (z: State)
    requires Probing(s, used, r, p, n, at, b)
    ensures Allows(Kept, s, OnExit(b, false)) && z == Step(s, OnExit(b, false))
    ensures JustOpen(z, used, p, n + 1, s.nextTimer) && z.now == s.now
  {
    var y := NoteCrash(MarkExited(s, b), r);
    assert MustTrip(y, r);
    hide Recent, CooldownFor;
    z := TripBreaker(y, r);
    assert z.runs == map[];
  }

  lemma ProbeFails(s: State, used: set<RunId>, r: RunId, p: RepoPath, n: nat, at: int)
    returns (events: seq<Event>, z: State)
    requires Cooled(s, used, p, n, at) && r !in used
    ensures Reaches(Kept, s, events, z) && JustOpen(z, used + {r}, p, n + 1, s.nextTimer)
  {
    hide Cooled, Probing, JustOpen, Allows, Step;
    var go, y := ProbeStarts(s, used, r, p, n, at);
    z := ProbeDies(y, used + {r}, r, p, n, at, s.nextBridge);
    var die := OnExit(s.nextBridge, false);
    Prepend(Kept, y, die, [], z);
    assert [die] + [] == [die];
    Append(s, go, y, [die], z);
    events := go + [die];
  }

  predicate AllNew(ids: seq<RunId>, used: set<RunId>) {
    (forall i | 0 <= i < |ids| :: ids[i] !in used) && forall i, j | 0 <= i < j < |ids| :: ids[i] != ids[j]
  }

  /** As many new runs as probes are left all fail. */
  lemma {:induction false} ProbesFail(s: State, used: set<RunId>, ids: seq<RunId>, p: RepoPath, n: nat, at: int)
    returns (events: seq<Event>, z: State)
    requires Cooled(s, used, p, n, at) && n < 5 && |ids| == 5 - n && AllNew(ids, used)
    ensures Reaches(Kept, s, events, z) && p in z.breakers
    ensures z.breakers[p].state == Open && z.breakers[p].failedProbes == 5
    decreases 5 - n
  {
    hide Cooled, Reaches;
    var fail, y := ProbeFails(s, used, ids[0], p, n, at);
    if n == 4 {
      events, z := fail, y;
    } else {
      hide JustOpen;
      var cool, x := CoolsDown(y, used + {ids[0]}, p, n + 1, s.nextTimer);
      var more;
      more, z := ProbesFail(x, used + {ids[0]}, ids[1..], p, n + 1, y.now);
      Append(y, cool, x, more, z);
      Append(s, fail, y, cool + more, z);
      events := fail + (cool + more);
    }
  }

  /** A run of the manager from its start to an exhausted breaker: the first run crashes five times, and
      each of the next five, started after the cooldown, crashes as the probe. */
  lemma FiveProbesExhaust(ids: seq<RunId>, p: RepoPath) returns (events: seq<Event>, z: State)
    requires |ids| == 6 && forall i, j | 0 <= i < j < 6 :: ids[i] != ids[j]
    ensures Reaches(Kept, Init(1, 1), events, z) && p in z.breakers
    ensures z.breakers[p].state == Open && z.breakers[p].failedProbes == 5
  {
    var trip, s, at := FirstTrip(ids[0], p);
    hide Cooled, Reaches;
    var fail;
    fail, z := ProbesFail(s, {ids[0]}, ids[1..], p, 0, at);
    Append(Init(1, 1), trip, s, fail, z);
    events := trip + fail;
  }
}
