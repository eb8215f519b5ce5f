/** Where the guarantees of the run manager end: concrete runs that show what it does not promise. */
module SupervisionLimits {
  import opened Wrappers
  import opened Supervision
  import opened SupervisionEdges
  import opened SupervisionStrays

  ghost predicate Empty(s: State) {
    s.runs == map[] && s.breakers == map[] && s.timers == map[] && s.cap == 1
  }

  lemma InitEmpty()
    ensures Empty(Init(1, 1)) && Init(1, 1).hist.used == {}
  {
  }

  lemma AdmittedWhenEmpty(s: State, r: RunId, p: RepoPath)
    requires Empty(s) && r in s.starts && s.starts[r] == p
    ensures Decide(s, r, true, {}) == Admitted
  {
    assert ActiveRuns(EvictAll(s, StrandedRuns(s, {}))) == {};
  }

  /** `StartCall` and `StartResumes` of a run in an empty manager. */
  lemma StartsWhenEmpty(s: State, r: RunId, p: RepoPath) returns (z: State)
    requires Empty(s)
    ensures z == StartContinued(StartRequested(s, r, p), r, true, {}, Started)
    ensures z.runs == map[r := Run(p, Some(s.nextBridge), Starting, 0, [], None, false, s.now, None)]
    ensures s.nextBridge in z.bridges && z.bridges[s.nextBridge] == Bridge(r, true, false, false, false)
    ensures z.nextBridge == s.nextBridge + 1 && z.nextTimer == s.nextTimer && z.stops == s.stops
    ensures z.breakers == map[] && z.timers == map[] && z.cap == 1 && z.now == s.now && z.hist.used == s.hist.used + {r}
  {
    var s1 := StartRequested(s, r, p);
    AdmittedWhenEmpty(s1, r, p);
    var s2 := EvictAll(s1.(starts := s1.starts - {r}), StrandedRuns(s1, {}));
    assert s2.runs == map[] && s2.breakers == map[] && s2.timers == map[];
    hide Decide, StrandedRuns, EvictAll, Init;
    z := Spawn(Admit(s2, r, p), r, Started);
  }

  /** `StopCall` and the `OnExit` it causes empty the manager; the `stop` itself still waits. */
  lemma StopsToEmpty(s: State, r: RunId, run: Run, b: BridgeId) returns (z: State)
    requires s.runs == map[r := run] && s.breakers == map[] && s.timers == map[] && s.cap == 1
    requires run.bridge == Some(b) && run.restartTimer.None? && b in s.bridges
    requires s.bridges[b] == Bridge(r, true, false, false, false)
    ensures Enabled(StopRequested(s, r), OnExit(b, true)) && z == BridgeExited(StopRequested(s, r), b, true)
    ensures Empty(z) && r in z.stops && z.nextBridge == s.nextBridge
  {
    var y := StopRequested(s, r);
    assert y.runs == map[r := run.(userStop := true, state := Stopping)];
    z := BridgeExited(y, b, true);
    assert z.runs == map[];
  }

  /** A run id that is started again while a `stop` of its first use still awaits the bridge:
      that `stop` then forgets the new run and leaves its bridge open. */
  lemma ReusedIdOrphansBridge(r: RunId, p: RepoPath) returns (events: seq<Event>, z: State)
    ensures Reaches(IdsReused, Init(1, 1), events, z) && HasOrphan(z)
  {
    var y := FirstStart(r, p);
    events, z := StopsAndStarts(y, r, p);
    hide Reaches, HasOrphan, StartRequested, StartContinued;
    PrependStart(IdsReused, Init(1, 1), r, p, events, z);
    events := Starts(r, p) + events;
  }

  lemma StopsAndStarts(s: State, r: RunId, p: RepoPath) returns (events: seq<Event>, z: State)
    requires OnlyStarted(s, r, p)
    ensures Reaches(IdsReused, s, events, z) && HasOrphan(z)
  {
    var y := StopsToEmpty(s, r, s.runs[r], 0);
    hide StopRequested, BridgeExited;
    events, z := StartsUnderStop(y, r, p);
    hide Reaches, HasOrphan;
    Prepend(IdsReused, StopRequested(s, r), OnExit(0, true), events, z);
    events := [OnExit(0, true)] + events;
    Prepend(IdsReused, s, StopCall(r), events, z);
    events := [StopCall(r)] + events;
  }

  lemma StartsUnderStop(s: State, r: RunId, p: RepoPath) returns (events: seq<Event>, z: State)
    requires Empty(s) && r in s.stops
    ensures Reaches(IdsReused, s, events, z) && HasOrphan(z)
  {
    var y := StartsWhenEmpty(s, r, p);
    z := StopSettled(y, r);
    assert z.bridges[s.nextBridge] == Bridge(r, true, false, false, false) && r !in z.runs;
    Prepend(IdsReused, y, StopResumes(r), [], z);
    events := [StopResumes(r)] + [];
    hide StartContinued, StartRequested, StopSettled;
    PrependStart(IdsReused, s, r, p, events, z);
    events := Starts(r, p) + events;
  }

  function Starts(r: RunId, p: RepoPath): seq<Event> {
    [StartCall(r, p), StartResumes(r, true, {}, Started)]
  }

  lemma PrependStart(c: Contract, s: State, r: RunId, p: RepoPath, events: seq<Event>, z: State)
    requires Empty(s) && Reaches(c, StartContinued(StartRequested(s, r, p), r, true, {}, Started), events, z)
    requires c == IdsReused || r !in s.hist.used
    ensures Reaches(c, s, Starts(r, p) + events, z)
  {
    var e0, e1 := StartCall(r, p), StartResumes(r, true, {}, Started);
    Prepend(c, StartRequested(s, r, p), e1, events, z);
    Prepend(c, s, e0, [e1] + events, z);
    assert [e0] + ([e1] + events) == Starts(r, p) + events;
  }

  // ----- A stop that comes while the start still awaits -----

  /** The stop finds no run to stop, and the run starts after it. */
  lemma StopDuringStart(r: RunId, p: RepoPath) returns (z: State)
    ensures Reaches(Kept, Init(1, 1), [StartCall(r, p), StopCall(r), StartResumes(r, true, {}, Started)], z)
    ensures r in z.runs && z.runs[r].state == Starting && !z.runs[r].userStop
  {
    var s0, e := Init(1, 1), StartResumes(r, true, {}, Started);
    var s1 := StartRequested(s0, r, p);
    z := StartsWhenEmpty(s0, r, p);
    Prepend(Kept, s1, e, [], z);
    Prepend(Kept, s1, StopCall(r), [e], z);
    Prepend(Kept, s0, StartCall(r, p), [StopCall(r), e], z);
    assert [e] + [] == [e] && [StopCall(r)] + [e] == [StopCall(r), e];
    assert [StartCall(r, p)] + [StopCall(r), e] == [StartCall(r, p), StopCall(r), e];
  }

  // ----- A bridge that exits twice during one backoff -----

  /** The second exit arms a second respawn and loses the handle of the first; a stop clears the
      second one only; the first spawns a run under the stop, which then forgets it. */
  lemma ExitTwiceOrphansBridge(r: RunId, p: RepoPath) returns (events: seq<Event>, z: State)
    ensures Reaches(ExitsRepeated, Init(1, 1), events, z) && HasOrphan(z)
  {
    var y := FirstStart(r, p);
    events, z := CrashesTwice(y, r, p);
    hide Reaches, HasOrphan, StartRequested, StartContinued;
    PrependStart(ExitsRepeated, Init(1, 1), r, p, events, z);
    events := Starts(r, p) + events;
  }

  lemma CrashesTwice(s: State, r: RunId, p: RepoPath) returns (events: seq<Event>, z: State)
    requires OnlyStarted(s, r, p)
    ensures Reaches(ExitsRepeated, s, events, z) && HasOrphan(z)
  {
    var x := FirstExit(s, r, p);
    hide Reaches, HasOrphan, Allows, OnlyStarted, BridgeExited;
    var y := CrashesAgain(x, r, 0, 0);
    events, z := LostRespawnOrphans(ExitsRepeated, y, r, 0, 0);
    Prepend(ExitsRepeated, x, OnExit(0, false), events, z);
    events := [OnExit(0, false)] + events;
    Prepend(ExitsRepeated, s, OnExit(0, false), events, z);
    events := [OnExit(0, false)] + events;
  }

  lemma FirstExit(s: State, r: RunId, p: RepoPath) returns (x: State)
    requires OnlyStarted(s, r, p)
    ensures Allows(Kept, s, OnExit(0, false)) && Allows(ExitsRepeated, s, OnExit(0, false))
    ensures x == Step(s, OnExit(0, false)) && x.now == s.now && x.cap == 1 && x.hist.used == s.hist.used
    ensures x.runs.Keys == {r} && x.runs[r].repo == p && x.runs[r].state == Crashed && x.runs[r].restartTimer == Some(0)
      && 0 < x.nextTimer == 1
    ensures x.runs[r].bridge == Some(0) && !x.runs[r].userStop && x.runs[r].restartCount == 1
    ensures x.runs[r].recentCrashes == [x.now]
    ensures 0 in x.bridges && x.bridges[0] == Bridge(r, true, false, true, false) && x.nextBridge == 1
    ensures x.breakers == map[] && x.timers == map[0 := Timer(x.now + 1000, Backoff(r))]
  {
    x := CrashesOnce(s, r, s.runs[r], 0);
    hide BridgeExited;
  }

  lemma CrashesAgain(s: State, r: RunId, b: BridgeId, t: TimerId) returns (z: State)
    requires s.runs.Keys == {r} && s.runs[r].state == Crashed && s.runs[r].restartTimer == Some(t) && t < s.nextTimer
    requires s.runs[r].bridge == Some(b) && !s.runs[r].userStop && s.runs[r].restartCount == 1
    requires s.runs[r].recentCrashes == [s.now]
    requires b in s.bridges && s.bridges[b] == Bridge(r, true, false, true, false) && b < s.nextBridge
    requires s.breakers == map[] && s.timers == map[t := Timer(s.now + 1000, Backoff(r))]
    ensures Allows(ExitsRepeated, s, OnExit(b, false)) && z == BridgeExited(s, b, false)
    ensures z.runs.Keys == {r} && z.runs[r].bridge == Some(b) && z.runs[r].restartTimer == Some(s.nextTimer)
    ensures t in z.timers && z.timers[t] == s.timers[t] && z.now == s.now && z.breakers == map[]
    ensures b in z.bridges && z.bridges[b] == s.bridges[b] && z.nextBridge == s.nextBridge && z.stops == s.stops
  {
    var y := NoteCrash(MarkExited(s, b), r);
    var twice := [s.now] + [s.now];
    assert twice[..1] == [s.now] && [s.now][..0] == [];
    assert Recent([s.now], s.now) == [s.now];
    assert Recent(twice, s.now) == twice;
    z := ScheduleRestart(y, r);
  }

  // ----- The plain active count is not bounded by the cap -----

  lemma CrashesOnce(s: State, r: RunId, run: Run, b: BridgeId) returns (z: State)
    requires s.runs == map[r := run] && s.breakers == map[] && s.timers == map[]
    requires run == Run(run.repo, Some(b), Starting, 0, [], None, false, s.now, None)
    requires b in s.bridges && s.bridges[b] == Bridge(r, true, false, false, false)
    ensures Enabled(s, OnExit(b, false)) && z == BridgeExited(s, b, false)
    ensures z.runs == map[r := run.(restartCount := 1, state := Crashed, restartTimer := Some(s.nextTimer),
                                    recentCrashes := [s.now])]
    ensures z.timers == map[s.nextTimer := Timer(s.now + 1000, Backoff(r))] && z.nextTimer == s.nextTimer + 1
    ensures z.breakers == map[] && z.cap == s.cap && z.now == s.now && z.nextBridge == s.nextBridge
    ensures z.hist.used == s.hist.used && b in z.bridges && z.bridges[b] == Bridge(r, true, false, true, false)
  {
    var y := NoteCrash(MarkExited(s, b), r);
    assert [s.now][..0] == [];
    assert Recent([s.now], s.now) == [s.now];
    assert y.runs[r].recentCrashes == [s.now] by { assert [] + [s.now] == [s.now]; }
    z := ScheduleRestart(y, r);
  }

  lemma RespawnsBeside(s: State, r1: RunId, r2: RunId, t: TimerId, d: nat) returns (z: State)
    requires r1 in s.runs && r2 in s.runs && r1 != r2 && s.runs[r2].state == Starting
    requires t in s.timers && s.timers[t].alarm == Backoff(r1) && s.timers[t].due <= s.now + 1000
    ensures Reaches(Kept, s, [Tick(1000), TimerDue(t, Started), Tick(d)], z)
    ensures z.cap == s.cap && r1 in ActiveRuns(z) && r2 in ActiveRuns(z) && z.now == s.now + 1000 + d
  {
    var y := s.(now := s.now + 1000);
    var x := BackoffElapsed(y, t, r1, Started);
    z := x.(now := x.now + d);
    Prepend(Kept, x, Tick(d), [], z);
    Prepend(Kept, y, TimerDue(t, Started), [Tick(d)], z);
    Prepend(Kept, s, Tick(1000), [TimerDue(t, Started), Tick(d)], z);
    assert [Tick(d)] + [] == [Tick(d)] && [TimerDue(t, Started)] + [Tick(d)] == [TimerDue(t, Started), Tick(d)];
    assert [Tick(1000)] + [TimerDue(t, Started), Tick(d)] == [Tick(1000), TimerDue(t, Started), Tick(d)];
  }

  lemma CallsSecond(s: State, r1: RunId, r2: RunId, p2: RepoPath) returns (y: State)
    requires OnlyCrashed(s, r1) && r1 != r2 && r2 !in s.hist.used
    ensures Allows(Kept, s, StartCall(r2, p2)) && y == Step(s, StartCall(r2, p2))
    ensures OnlyCrashed(y, r1) && y.runs == s.runs && y.timers == s.timers && y.now == s.now
    ensures r2 in y.starts && y.starts[r2] == p2
  {
    y := StartRequested(s, r2, p2);
  }

  lemma AdmitsSecond(s: State, r1: RunId, r2: RunId, p2: RepoPath, t: TimerId) returns (x: State)
    requires OnlyCrashed(s, r1) && s.runs[r1].repo != p2 && r1 != r2 && s.runs[r1].restartTimer == Some(t)
    requires s.timers == map[t := Timer(s.now + 1000, Backoff(r1))] && r2 in s.starts && s.starts[r2] == p2
    ensures Allows(Kept, s, StartResumes(r2, true, {}, Started)) && x == Step(s, StartResumes(r2, true, {}, Started))
    ensures r1 in x.runs && r2 in x.runs && x.runs[r2].state == Starting
    ensures x.timers == s.timers && x.now == s.now && x.cap == 1
  {
    AdmittedBeside(s, r1, r2, p2);
    AdmittedState(s, r1, r2, p2);
    hide StartContinued, Decide;
    x := StartContinued(s, r2, true, {}, Started);
  }

  lemma AdmitsBeside(s: State, r1: RunId, r2: RunId, p2: RepoPath, t: TimerId, d: nat)
    returns (events: seq<Event>, z: State)
    requires OnlyCrashed(s, r1) && s.runs[r1].repo != p2 && r1 != r2 && s.runs[r1].restartTimer == Some(t)
    requires s.timers == map[t := Timer(s.now + 1000, Backoff(r1))] && r2 !in s.hist.used
    ensures events == Starts(r2, p2) + [Tick(1000), TimerDue(t, Started), Tick(d)] && Reaches(Kept, s, events, z)
    ensures z.cap == 1 && r1 in ActiveRuns(z) && r2 in ActiveRuns(z) && z.now == s.now + 1000 + d
  {
    hide Allows, Step, OnlyCrashed, ActiveRuns, Reaches;
    var y := CallsSecond(s, r1, r2, p2);
    var x := AdmitsSecond(y, r1, r2, p2, t);
    z := RespawnsBeside(x, r1, r2, t, d);
    events := [Tick(1000), TimerDue(t, Started), Tick(d)];
    Prepend(Kept, y, StartResumes(r2, true, {}, Started), events, z);
    events := [StartResumes(r2, true, {}, Started)] + events;
    Prepend(Kept, s, StartCall(r2, p2), events, z);
    events := [StartCall(r2, p2)] + events;
  }

  /** The manager tracks one run, just started on bridge 0. */
  ghost predicate OnlyStarted(s: State, r: RunId, p: RepoPath) {
    && s.runs == map[r := Run(p, Some(0), Starting, 0, [], None, false, s.now, None)]
    && 0 in s.bridges && s.bridges[0] == Bridge(r, true, false, false, false) && s.nextBridge == 1
    && s.breakers == map[] && s.timers == map[] && s.nextTimer == 0 && s.cap == 1
  }

  lemma FirstStart(r: RunId, p: RepoPath) returns (z: State)
    ensures z == StartContinued(StartRequested(Init(1, 1), r, p), r, true, {}, Started)
    ensures OnlyStarted(z, r, p) && z.now == 1 && z.hist.used == {r}
  {
    z := StartsWhenEmpty(Init(1, 1), r, p);
    hide StartRequested, StartContinued;
  }

  lemma CrashesAndAdmits(s: State, r1: RunId, p1: RepoPath, r2: RunId, p2: RepoPath, d: nat)
    returns (events: seq<Event>, z: State)
    requires OnlyStarted(s, r1, p1) && r1 != r2 && p1 != p2 && r2 !in s.hist.used
    ensures events == [OnExit(0, false)] + Starts(r2, p2) + [Tick(1000), TimerDue(0, Started), Tick(d)]
    ensures Reaches(Kept, s, events, z) && z.now == s.now + 1000 + d
    ensures z.cap == 1 && r1 in ActiveRuns(z) && r2 in ActiveRuns(z)
  {
    var y := FirstExit(s, r1, p1);
    assert OnlyCrashed(y, r1);
    hide *;
    events, z := AdmitsBeside(y, r1, r2, p2, 0, d);
    Prepend(Kept, s, OnExit(0, false), events, z);
    assert [OnExit(0, false)] + events
      == [OnExit(0, false)] + Starts(r2, p2) + [Tick(1000), TimerDue(0, Started), Tick(d)];
    events := [OnExit(0, false)] + events;
  }

  /** A run admitted during another's backoff is active beside it once the backoff fires, and both
      stay active for as long as nothing happens to them. */
  lemma RespawnExceedsCap(r1: RunId, p1: RepoPath, r2: RunId, p2: RepoPath, d: nat)
    returns (events: seq<Event>, z: State)
    requires r1 != r2 && p1 != p2
    ensures events == Starts(r1, p1) + [OnExit(0, false)] + Starts(r2, p2) + [Tick(1000), TimerDue(0, Started), Tick(d)]
    ensures Reaches(Kept, Init(1, 1), events, z) && z.now == 1001 + d
    ensures z.cap == 1 && r1 in ActiveRuns(z) && r2 in ActiveRuns(z)
  {
    var y := FirstStart(r1, p1);
    InitEmpty();
    hide Reaches, ActiveRuns, StartRequested, StartContinued, Starts, OnlyStarted, Empty;
    events, z := CrashesAndAdmits(y, r1, p1, r2, p2, d);
    PrependStart(Kept, Init(1, 1), r1, p1, events, z);
    assert Starts(r1, p1) + events
      == Starts(r1, p1) + [OnExit(0, false)] + Starts(r2, p2) + [Tick(1000), TimerDue(0, Started), Tick(d)];
    events := Starts(r1, p1) + events;
  }

  /** The manager tracks one run, crashed and waiting for its backoff. */
  ghost predicate OnlyCrashed(s: State, r: RunId) {
    s.runs.Keys == {r} && s.runs[r].state == Crashed && s.breakers == map[] && s.cap == 1
  }

  lemma AdmittedBeside(s: State, r1: RunId, r2: RunId, p2: RepoPath)
    requires OnlyCrashed(s, r1) && s.runs[r1].repo != p2 && r1 != r2 && r2 in s.starts && s.starts[r2] == p2
    ensures Decide(s, r2, true, {}) == Admitted
  {
    assert ActiveRuns(EvictAll(s, StrandedRuns(s, {}))) == {};
  }

  lemma AdmittedState(s: State, r1: RunId, r2: RunId, p2: RepoPath)
    requires OnlyCrashed(s, r1) && r1 != r2 && r2 in s.starts && s.starts[r2] == p2
    requires Decide(s, r2, true, {}) == Admitted
    requires forall t :: t in s.timers ==> s.runs[r1].restartTimer == Some(t)
    ensures var z := StartContinued(s, r2, true, {}, Started);
      && r1 in z.runs && z.runs[r1] == s.runs[r1] && r2 in z.runs && z.runs[r2].state == Starting
        && z.runs[r2].repo == p2
      && z.timers == s.timers && z.now == s.now && z.cap == 1
  {
    var dead := StrandedRuns(s, {});
    assert dead == {};
    var s1 := EvictAll(s.(starts := s.starts - {r2}), dead);
    assert s1.timers == s.timers;
  }
}
