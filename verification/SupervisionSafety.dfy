/** The joint invariant of the run manager and the proof that every enabled event keeps it. */
module SupervisionSafety {
  import opened Wrappers
  import opened Supervision

  // ----- The invariant -----

  ghost predicate BridgeSilent(s: State, b: BridgeId) {
    b in s.bridges && (s.bridges[b].exited || !s.bridges[b].live)
  }

  /** One tracked run: a live state has a live bridge, a crashed run has its respawn armed,
      a stopping run has the continuation that will drop it. */
  ghost predicate RunOk(s: State, r: RunId)
    requires r in s.runs
  {
    var run := s.runs[r];
    && (Occupying(run) || run.state == Stopping)
    && r in s.hist.used
    && run.restartCount <= MAX_RESTART_COUNT
    && (run.bridge.Some? ==> run.bridge.value in s.bridges && s.bridges[run.bridge.value].owner == r)
    && (Active(run) ==> run.bridge.Some? && s.bridges[run.bridge.value].live && !s.bridges[run.bridge.value].stopped)
    && (run.userStop <==> run.state == Stopping)
    && (r in s.stops <==> run.state == Stopping)
    && (run.state == Stopping ==>
          && run.restartTimer.None?
          && (run.bridge.Some? ==> s.bridges[run.bridge.value].stopped))
    && (run.state == Crashed ==> run.restartTimer.Some?)
    && (run.restartTimer.Some? ==>
          && run.restartTimer.value in s.timers
          && s.timers[run.restartTimer.value].alarm == Backoff(r)
          && run.restartCount >= 1
          && (run.bridge.Some? ==> BridgeSilent(s, run.bridge.value))
          && (run.bridge.Some? && run.repo in s.breakers ==> !s.bridges[run.bridge.value].live))
  }

  /** No armed timer is stray: each one belongs to the run or the breaker that still holds it. */
  ghost predicate TimerOk(s: State, t: TimerId)
    requires t in s.timers
  {
    t < s.nextTimer &&
    match s.timers[t].alarm
    case Backoff(r) => r in s.runs && s.runs[r].restartTimer == Some(t)
    case Cooldown(p) =>
      && p in s.breakers && s.breakers[p].state == Open && s.breakers[p].timer == Some(t)
      && s.breakers[p].failedProbes < CIRCUIT_MAX_PROBES
    case Survival(p, r) =>
      && p in s.breakers && s.breakers[p].state == HalfOpen && s.breakers[p].timer == Some(t)
      && s.breakers[p].probeRunId == Some(r)
      && r in s.runs && s.runs[r].restartTimer.None?
      && r in s.hist.upSince && s.timers[t].due == s.hist.upSince[r] + CIRCUIT_PROBE_HEALTHY_MS
  }

  /** An open breaker below the probe cap has its half-open transition armed; a half-open one
      is below the cap and its probe, if any, is tracked. */
  ghost predicate BreakerOk(s: State, p: RepoPath)
    requires p in s.breakers
  {
    var b := s.breakers[p];
    && b.failedProbes <= CIRCUIT_MAX_PROBES
    && (b.timer.Some? ==> b.timer.value < s.nextTimer)
    && (b.timer.Some? && b.timer.value in s.timers ==>
          s.timers[b.timer.value].alarm == Cooldown(p)
          || (b.probeRunId.Some? && s.timers[b.timer.value].alarm == Survival(p, b.probeRunId.value)))
    && (b.state == Open ==>
          && b.probeRunId.None?
          && (b.failedProbes < CIRCUIT_MAX_PROBES ==> b.timer.Some? && b.timer.value in s.timers))
    && (b.state == HalfOpen ==>
          && b.failedProbes < CIRCUIT_MAX_PROBES
          && (b.probeRunId.Some? ==> b.probeRunId.value in s.runs && s.runs[b.probeRunId.value].repo == p))
  }

  /** A repo with a breaker has no starting, running or crashed run except the half-open probe. */
  ghost predicate GuardedOk(s: State, r: RunId)
    requires r in s.runs
  {
    var p := s.runs[r].repo;
    Occupying(s.runs[r]) && p in s.breakers ==>
      s.breakers[p].state == HalfOpen && s.breakers[p].probeRunId == Some(r)
  }

  /** No orphaned bridge. */
  ghost predicate BridgeOk(s: State, b: BridgeId)
    requires b in s.bridges
  {
    && b < s.nextBridge
    && (s.bridges[b].stopped
        || (s.bridges[b].owner in s.runs && s.runs[s.bridges[b].owner].bridge == Some(b)))
  }

  ghost predicate Exclusive(s: State) {
    forall r1, r2 | r1 in s.runs && r2 in s.runs && Occupying(s.runs[r1]) && Occupying(s.runs[r2]) ::
      s.runs[r1].repo == s.runs[r2].repo ==> r1 == r2
  }

  ghost predicate RunsOk(s: State) { forall r :: r in s.runs ==> RunOk(s, r) }
  ghost predicate TimersOk(s: State) { forall t :: t in s.timers ==> TimerOk(s, t) }
  ghost predicate BreakersOk(s: State) { forall p :: p in s.breakers ==> BreakerOk(s, p) }
  ghost predicate Guarded(s: State) { forall r :: r in s.runs ==> GuardedOk(s, r) }
  ghost predicate BridgesOk(s: State) { forall b :: b in s.bridges ==> BridgeOk(s, b) }

  ghost predicate UpOk(s: State) {
    forall r :: r in s.hist.upSince ==>
                  r in s.runs && (s.runs[r].state == Running || s.runs[r].state == Stopping)
                    && s.hist.upSince[r] <= s.now
  }

  ghost predicate StartsOk(s: State) {
    && (forall r :: r in s.starts ==> r in s.hist.used && r !in s.runs && r !in s.stops)
    && (forall r :: r in s.stops ==> r in s.hist.used)
  }

  ghost predicate Core(s: State) {
    && RunsOk(s) && TimersOk(s) && BreakersOk(s) && Guarded(s)
    && BridgesOk(s) && Exclusive(s) && UpOk(s) && StartsOk(s)
  }

  lemma InitCore(now: int, cap: nat)
    ensures Core(Init(now, cap))
  {
  }

  // ----- Locality: a step about run `r` of repo `p` cannot disturb any other run or repo -----

  ghost predicate Concerns(a: Alarm, r: RunId, p: RepoPath) {
    a == Backoff(r) || a == Cooldown(p) || (a.Survival? && a.probeRepo == p)
  }

  ghost function OtherTimers(s: State, r: RunId, p: RepoPath): map<TimerId, Timer> {
    map t | t in s.timers && !Concerns(s.timers[t].alarm, r, p) :: s.timers[t]
  }

  ghost function OtherBridges(s: State, r: RunId): map<BridgeId, Bridge> {
    map b | b in s.bridges && s.bridges[b].owner != r :: s.bridges[b]
  }

  ghost predicate NoReuse(s: State, z: State) {
    s.nextTimer <= z.nextTimer && forall t :: t in z.timers && t < s.nextTimer ==> t in s.timers
  }

  ghost predicate Local(s: State, z: State, r: RunId, p: RepoPath) {
    && s.now == z.now && s.starts == z.starts && s.hist.used == z.hist.used && s.nextBridge <= z.nextBridge
    && s.runs - {r} == z.runs - {r}
    && s.breakers - {p} == z.breakers - {p}
    && OtherTimers(s, r, p) == OtherTimers(z, r, p)
    && OtherBridges(s, r) == OtherBridges(z, r)
    && s.hist.upSince - {r} == z.hist.upSince - {r}
    && s.stops[r := 0] == z.stops[r := 0]
    && NoReuse(s, z)
    && (r in s.runs ==> s.runs[r].repo == p)
    && (r in z.runs ==> z.runs[r].repo == p)
  }

  ghost predicate Alone(s: State, r: RunId, p: RepoPath) {
    forall q | q in s.runs && q != r && Occupying(s.runs[q]) :: s.runs[q].repo != p
  }

  ghost predicate SameBreaker(s: State, z: State, p: RepoPath) {
    (p in s.breakers <==> p in z.breakers) && (p in s.breakers ==> s.breakers[p] == z.breakers[p])
  }

  ghost predicate LocalRunOk(z: State, r: RunId, p: RepoPath) {
    && (r in z.runs ==> RunOk(z, r) && GuardedOk(z, r) && r !in z.starts)
    && (p in z.breakers ==> BreakerOk(z, p))
    && (r in z.stops ==> r in z.hist.used && r !in z.starts)
    && (r in z.hist.upSince ==>
          r in z.runs && (z.runs[r].state == Running || z.runs[r].state == Stopping) && z.hist.upSince[r] <= z.now)
  }

  ghost predicate LocalTimersOk(z: State, r: RunId, p: RepoPath) {
    forall t :: t in z.timers && Concerns(z.timers[t].alarm, r, p) ==> TimerOk(z, t)
  }

  ghost predicate LocalBridgesOk(z: State, r: RunId) {
    forall b :: b in z.bridges && z.bridges[b].owner == r ==> BridgeOk(z, b)
  }

  ghost predicate LocalOk(z: State, r: RunId, p: RepoPath) {
    LocalRunOk(z, r, p) && LocalTimersOk(z, r, p) && LocalBridgesOk(z, r)
  }

  lemma FrameRun(s: State, z: State, r: RunId, p: RepoPath, q: RunId)
    requires Local(s, z, r, p) && (Alone(s, r, p) || SameBreaker(s, z, p))
    requires q in z.runs && q != r && (q in s.runs ==> RunOk(s, q) && GuardedOk(s, q))
    ensures q in s.runs && z.runs[q] == s.runs[q]
    ensures RunOk(z, q) && GuardedOk(z, q)
  {
    var run := z.runs[q];
    assert q in z.runs - {r} && q in s.runs - {r};
    assert (z.runs - {r})[q] == (s.runs - {r})[q];
    assert s.stops[r := 0][q] == z.stops[r := 0][q];
    if run.bridge.Some? {
      assert run.bridge.value in OtherBridges(s, r);
      assert OtherBridges(s, r)[run.bridge.value] == OtherBridges(z, r)[run.bridge.value];
    }
    if run.restartTimer.Some? {
      assert run.restartTimer.value in OtherTimers(s, r, p);
      assert OtherTimers(s, r, p)[run.restartTimer.value] == OtherTimers(z, r, p)[run.restartTimer.value];
    }
    FrameOtherRepo(s, z, p, run.repo);
  }

  lemma FrameOtherRepo(s: State, z: State, p: RepoPath, q: RepoPath)
    requires s.breakers - {p} == z.breakers - {p}
    ensures q != p ==> (q in s.breakers <==> q in z.breakers)
    ensures q != p && q in s.breakers ==> z.breakers[q] == s.breakers[q]
  {
    if q != p {
      assert q in s.breakers <==> q in s.breakers - {p};
      assert q in z.breakers <==> q in z.breakers - {p};
      if q in s.breakers {
        assert (s.breakers - {p})[q] == (z.breakers - {p})[q];
      }
    }
  }

  lemma FrameOtherRun(s: State, z: State, r: RunId, q: RunId)
    requires s.runs - {r} == z.runs - {r} && s.hist.upSince - {r} == z.hist.upSince - {r}
    ensures q != r ==> (q in s.runs <==> q in z.runs) && (q in s.hist.upSince <==> q in z.hist.upSince)
    ensures q != r && q in s.runs ==> z.runs[q] == s.runs[q]
    ensures q != r && q in s.hist.upSince ==> z.hist.upSince[q] == s.hist.upSince[q]
  {
    if q != r {
      assert q in s.runs <==> q in s.runs - {r};
      assert q in z.runs <==> q in z.runs - {r};
      assert q in s.hist.upSince <==> q in s.hist.upSince - {r};
      assert q in z.hist.upSince <==> q in z.hist.upSince - {r};
      if q in s.runs { assert (s.runs - {r})[q] == (z.runs - {r})[q]; }
      if q in s.hist.upSince { assert (s.hist.upSince - {r})[q] == (z.hist.upSince - {r})[q]; }
    }
  }

  lemma FrameTimer(s: State, z: State, r: RunId, p: RepoPath, t: TimerId)
    requires Local(s, z, r, p)
    requires t in z.timers && !Concerns(z.timers[t].alarm, r, p)
    requires t in s.timers ==> TimerOk(s, t)
    requires t in s.timers && s.timers[t].alarm.Survival? && s.timers[t].alarm.probeRepo in s.breakers ==>
      BreakerOk(s, s.timers[t].alarm.probeRepo)
    ensures TimerOk(z, t)
  {
    assert t in OtherTimers(z, r, p) && OtherTimers(s, r, p)[t] == OtherTimers(z, r, p)[t];
    match z.timers[t].alarm {
      case Backoff(q) => FrameOtherRun(s, z, r, q);
      case Cooldown(q) => FrameOtherRepo(s, z, p, q);
      case Survival(q, x) => FrameOtherRepo(s, z, p, q); FrameOtherRun(s, z, r, x);
    }
  }

  lemma FrameBreaker(s: State, z: State, r: RunId, p: RepoPath, q: RepoPath)
    requires Local(s, z, r, p)
    requires q in z.breakers && q != p && (q in s.breakers ==> BreakerOk(s, q))
    ensures BreakerOk(z, q)
  {
    FrameOtherRepo(s, z, p, q);
    var b := z.breakers[q];
    if b.probeRunId.Some? { FrameOtherRun(s, z, r, b.probeRunId.value); }
    if b.timer.Some? && (b.timer.value in z.timers || b.timer.value in s.timers) {
      assert b.timer.value in OtherTimers(s, r, p);
      assert OtherTimers(s, r, p)[b.timer.value] == OtherTimers(z, r, p)[b.timer.value];
    }
  }

  lemma FrameBridge(s: State, z: State, r: RunId, p: RepoPath, b: BridgeId)
    requires Local(s, z, r, p)
    requires b in z.bridges && z.bridges[b].owner != r && (b in s.bridges ==> BridgeOk(s, b))
    ensures BridgeOk(z, b)
  {
    assert b in OtherBridges(z, r) && OtherBridges(z, r)[b] == OtherBridges(s, r)[b];
    FrameOtherRun(s, z, r, z.bridges[b].owner);
  }

  lemma FrameExclusive(s: State, z: State, r: RunId, p: RepoPath)
    requires Exclusive(s) && Local(s, z, r, p)
    requires Alone(s, r, p) || !(r in z.runs && Occupying(z.runs[r]))
    ensures Exclusive(z)
  {
    forall r1, r2 | r1 in z.runs && r2 in z.runs && Occupying(z.runs[r1]) && Occupying(z.runs[r2])
      && z.runs[r1].repo == z.runs[r2].repo
      ensures r1 == r2
    {
      FrameOtherRun(s, z, r, r1);
      FrameOtherRun(s, z, r, r2);
    }
  }

  lemma FrameUp(s: State, z: State, r: RunId, p: RepoPath)
    requires UpOk(s) && StartsOk(s) && Local(s, z, r, p) && LocalRunOk(z, r, p)
    ensures UpOk(z) && StartsOk(z)
  {
    forall q | q in z.hist.upSince
      ensures q in z.runs && (z.runs[q].state == Running || z.runs[q].state == Stopping) && z.hist.upSince[q] <= z.now
    {
      FrameOtherRun(s, z, r, q);
    }
    forall q ensures q != r ==> s.stops[q] == z.stops[q] {
      assert s.stops[r := 0][q] == z.stops[r := 0][q];
    }
    forall q | q in z.starts ensures q !in z.runs && q !in z.stops {
      FrameOtherRun(s, z, r, q);
    }
    forall q | q in z.stops ensures q in z.hist.used {
    }
  }

  lemma LocalCore(s: State, z: State, r: RunId, p: RepoPath)
    requires Core(s) && Local(s, z, r, p) && LocalOk(z, r, p)
    requires Alone(s, r, p) || (SameBreaker(s, z, p) && !(r in z.runs && Occupying(z.runs[r])))
    ensures Core(z)
  {
    assert RunsOk(z) && Guarded(z) by {
      forall q | q in z.runs ensures RunOk(z, q) && GuardedOk(z, q) { if q != r { FrameRun(s, z, r, p, q); } }
    }
    assert TimersOk(z) by {
      forall t | t in z.timers
        ensures TimerOk(z, t)
      {
        if !Concerns(z.timers[t].alarm, r, p) { FrameTimer(s, z, r, p, t); }
      }
    }
    assert BreakersOk(z) by {
      forall q | q in z.breakers ensures BreakerOk(z, q) { if q != p { FrameBreaker(s, z, r, p, q); } }
    }
    assert BridgesOk(z) by {
      forall b | b in z.bridges ensures BridgeOk(z, b) { if z.bridges[b].owner != r { FrameBridge(s, z, r, p, b); } }
    }
    FrameExclusive(s, z, r, p);
    FrameUp(s, z, r, p);
  }

  // ----- The routines are local -----

  lemma LocalTrans(s: State, y: State, z: State, r: RunId, p: RepoPath)
    requires Local(s, y, r, p) && Local(y, z, r, p)
    ensures Local(s, z, r, p)
  {
  }

  ghost predicate OwnTimer(s: State, t: Option<TimerId>, r: RunId, p: RepoPath) {
    t.Some? && t.value in s.timers ==> Concerns(s.timers[t.value].alarm, r, p)
  }

  ghost predicate OwnBridge(s: State, b: Option<BridgeId>, r: RunId) {
    b.Some? && b.value in s.bridges ==> s.bridges[b.value].owner == r
  }

  /** Run `r`, if tracked, is a run of `p`, and what it and the breaker hold is their own. */
  ghost predicate Owns(s: State, r: RunId, p: RepoPath) {
    && s.nextTimer !in s.timers && s.nextBridge !in s.bridges
    && (r in s.runs ==>
          s.runs[r].repo == p && OwnBridge(s, s.runs[r].bridge, r) && OwnTimer(s, s.runs[r].restartTimer, r, p))
    && (p in s.breakers ==> OwnTimer(s, s.breakers[p].timer, r, p))
  }

  lemma ClearTimerLocal(s: State, t: Option<TimerId>, r: RunId, p: RepoPath)
    requires Owns(s, r, p) && OwnTimer(s, t, r, p)
    ensures Local(s, ClearTimer(s, t), r, p)
  {
  }

  lemma StopBridgeLocal(s: State, b: Option<BridgeId>, r: RunId, p: RepoPath)
    requires Owns(s, r, p) && OwnBridge(s, b, r)
    ensures Local(s, StopBridge(s, b), r, p)
  {
  }

  lemma ArmLocal(s: State, delay: int, alarm: Alarm, r: RunId, p: RepoPath)
    requires s.nextTimer !in s.timers && (r in s.runs ==> s.runs[r].repo == p) && Concerns(alarm, r, p)
    ensures Local(s, Arm(s, delay, alarm), r, p)
  {
  }

  lemma NoteProbeLocal(s: State, r: RunId, p: RepoPath)
    requires Owns(s, r, p)
    ensures Local(s, NoteProbeSpawned(s, p, r), r, p)
  {
    var z := NoteProbeSpawned(s, p, r);
    if p in s.breakers && z != s {
      var s1 := ClearTimer(s, s.breakers[p].timer);
      ClearTimerLocal(s, s.breakers[p].timer, r, p);
      var s2 := s1.(breakers := z.breakers);
      assert Local(s1, s2, r, p);
      LocalTrans(s, s1, s2, r, p);
      ArmLocal(s2, CIRCUIT_PROBE_HEALTHY_MS, Survival(p, r), r, p);
      LocalTrans(s, s2, z, r, p);
    }
  }

  lemma UntrackLocal(s: State, r: RunId, p: RepoPath)
    requires r in s.runs ==> s.runs[r].repo == p
    ensures Local(s, Untrack(s, r), r, p)
  {
  }

  lemma InstallLocal(s: State, r: RunId, p: RepoPath, failed: nat)
    requires r !in s.runs && s.nextTimer !in s.timers
    ensures Local(s, InstallOpen(s, p, failed), r, p)
  {
    var z := InstallOpen(s, p, failed);
    var s1 := s.(breakers := z.breakers, hist := z.hist);
    assert Local(s, s1, r, p);
    if failed < CIRCUIT_MAX_PROBES {
      ArmLocal(s1, CooldownFor(failed), Cooldown(p), r, p);
      LocalTrans(s, s1, z, r, p);
    }
  }

  lemma TripLocal(s: State, r: RunId, p: RepoPath)
    requires Owns(s, r, p) && r in s.runs
    ensures Local(s, TripBreaker(s, r), r, p)
  {
    var s1 := ClearTimer(s, BreakerTimer(s, p));
    ClearTimerLocal(s, BreakerTimer(s, p), r, p);
    var s2 := StopBridge(s1, s.runs[r].bridge);
    StopBridgeLocal(s1, s.runs[r].bridge, r, p);
    LocalTrans(s, s1, s2, r, p);
    var s3 := Untrack(s2, r);
    UntrackLocal(s2, r, p);
    LocalTrans(s, s2, s3, r, p);
    InstallLocal(s3, r, p, FailedAfterTrip(s, p));
    LocalTrans(s, s3, InstallOpen(s3, p, FailedAfterTrip(s, p)), r, p);
  }

  lemma ScheduleLocal(s: State, r: RunId, p: RepoPath)
    requires Owns(s, r, p) && r in s.runs && s.runs[r].restartCount < MAX_RESTART_COUNT
    ensures Local(s, ScheduleRestart(s, r), r, p)
  {
  }

  lemma CloseBreakerLocal(s: State, r: RunId, p: RepoPath)
    requires Owns(s, r, p)
    ensures Local(s, CloseBreaker(s, p), r, p)
  {
  }

  lemma SpawnLocal(s: State, r: RunId, p: RepoPath)
    requires Owns(s, r, p) && r in s.runs
    ensures Local(s, Spawn(s, r, Started), r, p)
  {
  }

  // ----- A run in hand: tracked, no respawn armed, everything about it its own -----

  ghost predicate Hand(s: State, r: RunId, p: RepoPath) {
    && r in s.runs && s.runs[r].repo == p && r in s.hist.used && r !in s.starts
    && s.runs[r].restartTimer.None? && s.runs[r].restartCount <= MAX_RESTART_COUNT
    && (s.runs[r].bridge.Some? ==> s.runs[r].bridge.value in s.bridges && s.bridges[s.runs[r].bridge.value].owner == r)
    && s.nextTimer !in s.timers && (forall b :: b in s.bridges ==> b < s.nextBridge)
    && (r in s.stops ==> s.runs[r].userStop)
    && (p in s.breakers ==> BreakerOk(s, p))
    && HandTimers(s, r, p) && LocalBridgesOk(s, r)
  }

  ghost predicate HandTimers(s: State, r: RunId, p: RepoPath) {
    forall t :: t in s.timers && Concerns(s.timers[t].alarm, r, p) ==> s.timers[t].alarm != Backoff(r) && TimerOk(s, t)
  }

  ghost predicate Retired(s: State, r: RunId) {
    forall b :: b in s.bridges && s.bridges[b].owner == r ==> s.bridges[b].stopped
  }

  ghost predicate Ungated(s: State, r: RunId, p: RepoPath) {
    p in s.breakers ==> s.breakers[p].state == HalfOpen && s.breakers[p].probeRunId == Some(r)
  }

  lemma ForgetTimers(s: State, r: RunId, p: RepoPath)
    requires Hand(s, r, p)
    ensures LocalTimersOk(ForgetRun(s, r), r, p)
  {
    var z := ForgetRun(s, r);
    forall t | t in z.timers && Concerns(z.timers[t].alarm, r, p) ensures TimerOk(z, t) {
      assert t in s.timers && TimerOk(s, t);
    }
  }

  lemma ForgetRunOk(s: State, r: RunId, p: RepoPath)
    requires Hand(s, r, p)
    ensures LocalRunOk(ForgetRun(s, r), r, p)
  {
  }

  lemma ForgetOk(s: State, r: RunId, p: RepoPath)
    requires Hand(s, r, p) && Retired(s, r)
    ensures LocalOk(ForgetRun(s, r), r, p)
  {
    ForgetTimers(s, r, p);
    ForgetRunOk(s, r, p);
    assert ForgetRun(s, r).bridges == s.bridges;
  }

  lemma ForgetLocal(s: State, r: RunId, p: RepoPath)
    requires Hand(s, r, p)
    ensures Local(s, ForgetRun(s, r), r, p)
  {
    var s1 := Untrack(s, r);
    UntrackLocal(s, r, p);
    var z := ForgetRun(s, r);
    if p in s.breakers && s.breakers[p].probeRunId == Some(r) {
      var s2 := ClearTimer(s1, s.breakers[p].timer);
      ClearTimerLocal(s1, s.breakers[p].timer, r, p);
      assert Local(s2, z, r, p);
      LocalTrans(s, s1, s2, r, p);
      LocalTrans(s, s2, z, r, p);
    }
  }

  lemma ScheduleOk(s: State, r: RunId, p: RepoPath)
    requires Hand(s, r, p) && Ungated(s, r, p) && !s.runs[r].userStop && s.runs[r].restartCount < MAX_RESTART_COUNT
    requires s.runs[r].bridge.Some? ==> BridgeSilent(s, s.runs[r].bridge.value)
    requires p in s.breakers ==>
      r !in s.hist.upSince && (s.runs[r].bridge.Some? ==> !s.bridges[s.runs[r].bridge.value].live)
    ensures LocalOk(ScheduleRestart(s, r), r, p)
  {
    var z := ScheduleRestart(s, r);
    forall t | t in z.timers && Concerns(z.timers[t].alarm, r, p) ensures TimerOk(z, t) {
      if t in s.timers { assert TimerOk(s, t); }
    }
  }

  lemma SpawnOk(s: State, r: RunId, p: RepoPath)
    requires Hand(s, r, p) && Ungated(s, r, p) && !s.runs[r].userStop && Retired(s, r)
    requires r in s.hist.upSince ==> p !in s.breakers
    ensures LocalOk(Spawn(s, r, Started), r, p)
  {
    var z := Spawn(s, r, Started);
    forall t | t in z.timers && Concerns(z.timers[t].alarm, r, p) ensures TimerOk(z, t) {
      if t in s.timers { assert TimerOk(s, t); }
    }
  }

  /** Clearing the breaker's timer and stopping the bridge leaves nothing armed or running. */
  lemma DisarmedBeforeTrip(s: State, r: RunId, p: RepoPath)
    requires Hand(s, r, p) && Ungated(s, r, p)
    ensures var y := StopBridge(ClearTimer(s, BreakerTimer(s, p)), s.runs[r].bridge);
      && Retired(y, r) && LocalBridgesOk(Untrack(y, r), r)
      && (forall t :: t in y.timers ==> !Concerns(y.timers[t].alarm, r, p))
  {
    var y := StopBridge(ClearTimer(s, BreakerTimer(s, p)), s.runs[r].bridge);
    assert forall t :: t in s.timers && Concerns(s.timers[t].alarm, r, p) ==> TimerOk(s, t);
    assert forall t :: t in y.timers ==> t in s.timers && y.timers[t] == s.timers[t];
    hide Hand, BreakerOk, LocalBridgesOk, Retired;
    StoppedBeforeTrip(s, r, p);
  }

  lemma StoppedBeforeTrip(s: State, r: RunId, p: RepoPath)
    requires Hand(s, r, p)
    ensures var y := StopBridge(ClearTimer(s, BreakerTimer(s, p)), s.runs[r].bridge);
      Retired(y, r) && LocalBridgesOk(Untrack(y, r), r)
  {
    var y := StopBridge(ClearTimer(s, BreakerTimer(s, p)), s.runs[r].bridge);
    forall b | b in y.bridges && y.bridges[b].owner == r ensures y.bridges[b].stopped && b < y.nextBridge {
      assert BridgeOk(s, b);
    }
  }

  lemma InstallOk(s: State, r: RunId, p: RepoPath, failed: nat)
    requires r !in s.runs && r !in s.hist.upSince && failed <= CIRCUIT_MAX_PROBES && r in s.hist.used && r !in s.starts
    requires LocalBridgesOk(s, r)
    requires forall t :: t in s.timers ==> !Concerns(s.timers[t].alarm, r, p)
    ensures LocalOk(InstallOpen(s, p, failed), r, p)
  {
    var z := InstallOpen(s, p, failed);
    assert z.bridges == s.bridges && z.runs == s.runs && z.nextBridge == s.nextBridge;
    assert LocalBridgesOk(z, r) by {
      forall b | b in z.bridges && z.bridges[b].owner == r ensures BridgeOk(z, b) { assert BridgeOk(s, b); }
    }
    hide LocalBridgesOk;
    assert LocalTimersOk(z, r, p) by {
      forall t | t in z.timers && Concerns(z.timers[t].alarm, r, p) ensures TimerOk(z, t) { assert t == s.nextTimer; }
    }
    hide LocalTimersOk, InstallOpen;
    InstallRun(s, r, p, failed);
  }

  lemma InstallRun(s: State, r: RunId, p: RepoPath, failed: nat)
    requires r !in s.runs && r !in s.hist.upSince && failed <= CIRCUIT_MAX_PROBES && r in s.hist.used && r !in s.starts
    requires forall t :: t in s.timers ==> !Concerns(s.timers[t].alarm, r, p)
    ensures LocalRunOk(InstallOpen(s, p, failed), r, p)
  {
  }

  lemma TripOk(s: State, r: RunId, p: RepoPath)
    requires Hand(s, r, p) && Ungated(s, r, p)
    ensures LocalOk(TripBreaker(s, r), r, p)
  {
    DisarmedBeforeTrip(s, r, p);
    InstallOk(Untrack(StopBridge(ClearTimer(s, BreakerTimer(s, p)), s.runs[r].bridge), r), r, p, FailedAfterTrip(s, p));
  }

  // ----- The events keep the invariant -----

  lemma OwnFacts(s: State, r: RunId)
    requires Core(s) && r in s.runs
    ensures var p := s.runs[r].repo;
      && RunOk(s, r) && GuardedOk(s, r) && (p in s.breakers ==> BreakerOk(s, p))
      && r !in s.starts && s.nextTimer !in s.timers && (forall b :: b in s.bridges ==> b < s.nextBridge)
      && LocalBridgesOk(s, r) && LocalTimersOk(s, r, p)
      && (Occupying(s.runs[r]) ==> Alone(s, r, p))
  {
    var p := s.runs[r].repo;
    forall t | t in s.timers ensures t < s.nextTimer { assert TimerOk(s, t); }
    forall b | b in s.bridges ensures b < s.nextBridge { assert BridgeOk(s, b); }
  }

  lemma MarkExitedCore(s: State, b: BridgeId)
    requires Core(s) && b in s.bridges
    ensures Core(MarkExited(s, b))
  {
    var z := MarkExited(s, b);
    forall r | r in z.runs ensures RunOk(z, r) { assert RunOk(s, r); }
    forall t | t in z.timers ensures TimerOk(z, t) { assert TimerOk(s, t); }
    forall p | p in z.breakers ensures BreakerOk(z, p) { assert BreakerOk(s, p); }
    forall q | q in z.bridges ensures BridgeOk(z, q) { assert BridgeOk(s, q); }
  }

  lemma HandFromCore(s: State, r: RunId)
    requires Core(s) && r in s.runs && s.runs[r].restartTimer.None?
    ensures Hand(s, r, s.runs[r].repo)
    ensures Occupying(s.runs[r]) ==> Ungated(s, r, s.runs[r].repo) && Alone(s, r, s.runs[r].repo)
    ensures s.runs[r].state == Stopping ==> Retired(s, r)
  {
    OwnFacts(s, r);
    var p := s.runs[r].repo;
    forall t | t in s.timers && Concerns(s.timers[t].alarm, r, p)
      ensures s.timers[t].alarm != Backoff(r) && TimerOk(s, t)
    {
    }
  }

  lemma OwnsFromHand(s: State, r: RunId, p: RepoPath)
    requires Hand(s, r, p)
    ensures Owns(s, r, p)
  {
  }

  lemma ForgetCore(s: State, r: RunId)
    requires Core(s) && (r in s.runs ==> s.runs[r].state == Stopping)
    ensures Core(ForgetRun(s, r))
  {
    if r in s.runs {
      var p := s.runs[r].repo;
      assert RunOk(s, r);
      HandFromCore(s, r);
      ForgetOk(s, r, p);
      ForgetLocal(s, r, p);
      assert GuardedOk(s, r);
      LocalCore(s, ForgetRun(s, r), r, p);
    }
  }

  /** The bridge that exits belongs to a run in hand, unless the user stopped that run. */
  lemma ExitHand(s: State, b: BridgeId)
    requires Core(s) && Enabled(s, OnExit(b, true)) && s.bridges[b].owner in s.runs
    requires !s.runs[s.bridges[b].owner].userStop
    ensures var r := s.bridges[b].owner; var p := s.runs[r].repo; var y := MarkExited(s, b);
      && Core(y) && Hand(y, r, p) && Ungated(y, r, p) && Alone(y, r, p)
      && y.runs[r].bridge == Some(b) && Occupying(y.runs[r])
  {
    var r := s.bridges[b].owner;
    assert RunOk(s, r) && BridgeOk(s, b);
    MarkExitedCore(s, b);
    HandFromCore(MarkExited(s, b), r);
  }

  lemma CleanExitCore(s: State, r: RunId, p: RepoPath)
    requires Core(s) && Hand(s, r, p) && Alone(s, r, p)
    ensures Core(StopBridge(ForgetRun(s, r), s.runs[r].bridge))
  {
    var y := ForgetRun(s, r);
    var b := s.runs[r].bridge;
    ForgetLocal(s, r, p);
    assert y.bridges == s.bridges && y.nextBridge == s.nextBridge;
    StopBridgeLocal(y, b, r, p);
    LocalTrans(s, y, StopBridge(y, b), r, p);
    CleanExitOk(s, r, p);
    LocalCore(s, StopBridge(y, b), r, p);
  }

  lemma CleanExitOk(s: State, r: RunId, p: RepoPath)
    requires Hand(s, r, p)
    ensures LocalOk(StopBridge(ForgetRun(s, r), s.runs[r].bridge), r, p)
  {
    var y := ForgetRun(s, r);
    ForgetTimers(s, r, p);
    ForgetRunOk(s, r, p);
    assert y.bridges == s.bridges && y.nextBridge == s.nextBridge && r !in y.runs;
    RetireOk(y, s.runs[r].bridge, r, p);
  }

  lemma RetireOk(y: State, bridge: Option<BridgeId>, r: RunId, p: RepoPath)
    requires r !in y.runs && LocalTimersOk(y, r, p) && LocalRunOk(y, r, p)
    requires forall b :: b in y.bridges && y.bridges[b].owner == r ==>
      b < y.nextBridge && (y.bridges[b].stopped || bridge == Some(b))
    ensures LocalOk(StopBridge(y, bridge), r, p)
  {
    var z := StopBridge(y, bridge);
    forall t | t in z.timers && Concerns(z.timers[t].alarm, r, p) ensures TimerOk(z, t) { assert TimerOk(y, t); }
  }

  lemma StoppedHand(s: State, r: RunId, p: RepoPath)
    requires Hand(s, r, p)
    ensures Hand(StopBridge(s, s.runs[r].bridge), r, p) && Retired(StopBridge(s, s.runs[r].bridge), r)
  {
    var y := StopBridge(s, s.runs[r].bridge);
    forall t | t in y.timers && Concerns(y.timers[t].alarm, r, p)
      ensures y.timers[t].alarm != Backoff(r) && TimerOk(y, t)
    {
      assert TimerOk(s, t);
    }
    forall b | b in y.bridges && y.bridges[b].owner == r ensures y.bridges[b].stopped && BridgeOk(y, b) {
      assert BridgeOk(s, b);
    }
  }

  lemma NoteCrashHand(s: State, r: RunId, p: RepoPath)
    requires Hand(s, r, p)
    ensures Hand(NoteCrash(s, r), r, p) && Local(s, NoteCrash(s, r), r, p)
    ensures Ungated(s, r, p) ==> Ungated(NoteCrash(s, r), r, p)
  {
    var y := NoteCrash(s, r);
    forall t | t in y.timers && Concerns(y.timers[t].alarm, r, p)
      ensures y.timers[t].alarm != Backoff(r) && TimerOk(y, t)
    {
      assert TimerOk(s, t);
    }
    forall b | b in y.bridges && y.bridges[b].owner == r ensures BridgeOk(y, b) {
      assert BridgeOk(s, b);
    }
  }

  lemma CloseBridgeHand(s: State, r: RunId, p: RepoPath)
    requires Hand(s, r, p)
    ensures Hand(CloseBridge(s, r), r, p) && Retired(CloseBridge(s, r), r) && Local(s, CloseBridge(s, r), r, p)
    ensures Ungated(s, r, p) ==> Ungated(CloseBridge(s, r), r, p)
  {
    var x := StopBridge(s, s.runs[r].bridge);
    var y := CloseBridge(s, r);
    OwnsFromHand(s, r, p);
    StopBridgeLocal(s, s.runs[r].bridge, r, p);
    StoppedHand(s, r, p);
    assert Local(x, y, r, p);
    LocalTrans(s, x, y, r, p);
    forall t | t in y.timers && Concerns(y.timers[t].alarm, r, p)
      ensures y.timers[t].alarm != Backoff(r) && TimerOk(y, t)
    {
      assert TimerOk(x, t);
    }
    forall b | b in y.bridges && y.bridges[b].owner == r ensures BridgeOk(y, b) { assert BridgeOk(x, b); }
  }

  /** `ScheduleRestart` from a run in hand, below the cap and at it. */
  lemma ScheduleHand(s: State, r: RunId, p: RepoPath)
    requires Hand(s, r, p) && Ungated(s, r, p) && !s.runs[r].userStop
    requires s.runs[r].bridge.Some? ==> BridgeSilent(s, s.runs[r].bridge.value)
    requires p in s.breakers ==>
      r !in s.hist.upSince && (s.runs[r].bridge.Some? ==> !s.bridges[s.runs[r].bridge.value].live)
    ensures Local(s, ScheduleRestart(s, r), r, p) && LocalOk(ScheduleRestart(s, r), r, p)
  {
    if s.runs[r].restartCount < MAX_RESTART_COUNT {
      OwnsFromHand(s, r, p);
      ScheduleLocal(s, r, p);
      ScheduleOk(s, r, p);
    } else {
      var y := CloseBridge(s, r);
      CloseBridgeHand(s, r, p);
      ForgetLocal(y, r, p);
      ForgetOk(y, r, p);
      LocalTrans(s, y, ForgetRun(y, r), r, p);
    }
  }

  lemma CrashCore(s: State, y: State, r: RunId, p: RepoPath, trip: bool)
    requires Core(s) && Local(s, y, r, p) && Alone(s, r, p)
    requires Hand(y, r, p) && Ungated(y, r, p) && !y.runs[r].userStop
    requires !trip ==> p !in y.breakers && (y.runs[r].bridge.Some? ==> BridgeSilent(y, y.runs[r].bridge.value))
    ensures Core(if trip then TripBreaker(y, r) else ScheduleRestart(y, r))
  {
    var z := if trip then TripBreaker(y, r) else ScheduleRestart(y, r);
    if trip {
      OwnsFromHand(y, r, p);
      TripLocal(y, r, p);
      TripOk(y, r, p);
    } else {
      ScheduleHand(y, r, p);
    }
    LocalTrans(s, y, z, r, p);
    LocalCore(s, z, r, p);
  }

  lemma BridgeExitedCore(s: State, b: BridgeId, clean: bool)
    requires Core(s) && Enabled(s, OnExit(b, clean))
    ensures Core(BridgeExited(s, b, clean))
  {
    var r := s.bridges[b].owner;
    var y := MarkExited(s, b);
    MarkExitedCore(s, b);
    if r in s.runs {
      var p := s.runs[r].repo;
      if s.runs[r].userStop {
        assert RunOk(s, r);
        ForgetCore(y, r);
      } else if clean {
        ExitHand(s, b);
        CleanExitCore(y, r, p);
      } else {
        ExitHand(s, b);
        NoteCrashHand(y, r, p);
        CrashCore(y, NoteCrash(y, r), r, p, MustTrip(NoteCrash(y, r), r));
      }
    }
  }

  lemma BridgeSpawnedOk(s: State, b: BridgeId, r: RunId, p: RepoPath)
    requires b in s.bridges && s.bridges[b].live && !s.bridges[b].stopped && s.bridges[b].owner == r
    requires r in s.runs && s.runs[r].repo == p && RunOk(s, r) && GuardedOk(s, r) && r !in s.starts
    requires s.runs[r].bridge == Some(b) && (p in s.breakers ==> BreakerOk(s, p))
    requires LocalTimersOk(s, r, p) && LocalBridgesOk(s, r) && s.nextTimer !in s.timers
    ensures LocalOk(BridgeSpawned(s, b), r, p)
  {
    var z := BridgeSpawned(s, b);
    forall t | t in z.timers && Concerns(z.timers[t].alarm, r, p) ensures TimerOk(z, t) {
      if t in s.timers { assert TimerOk(s, t); }
    }
    forall q | q in z.bridges && z.bridges[q].owner == r ensures BridgeOk(z, q) { assert BridgeOk(s, q); }
  }

  lemma BridgeSpawnedLocal(s: State, b: BridgeId, r: RunId, p: RepoPath)
    requires b in s.bridges && s.bridges[b].owner == r && r in s.runs && s.runs[r].repo == p
    requires s.nextTimer !in s.timers && s.nextBridge !in s.bridges && RunOk(s, r)
      && (p in s.breakers ==> BreakerOk(s, p))
    ensures Local(s, BridgeSpawned(s, b), r, p)
  {
    var y := s.(bridges := s.bridges[b := s.bridges[b].(spawned := true)],
                runs := s.runs[r := s.runs[r].(state := Running)],
                hist := s.hist.(upSince := s.hist.upSince[r := s.now]));
    assert Local(s, y, r, p);
    NoteProbeLocal(y, r, p);
    LocalTrans(s, y, NoteProbeSpawned(y, p, r), r, p);
  }

  lemma BridgeSpawnedCore(s: State, b: BridgeId)
    requires Core(s) && Enabled(s, OnSpawned(b))
    ensures Core(BridgeSpawned(s, b))
  {
    var r := s.bridges[b].owner;
    assert BridgeOk(s, b) && RunOk(s, r);
    OwnFacts(s, r);
    BridgeSpawnedOk(s, b, r, s.runs[r].repo);
    BridgeSpawnedLocal(s, b, r, s.runs[r].repo);
    LocalCore(s, BridgeSpawned(s, b), r, s.runs[r].repo);
  }

  lemma SpawnHand(s: State, r: RunId, p: RepoPath, o: SpawnOutcome)
    requires Hand(s, r, p) && Ungated(s, r, p) && !s.runs[r].userStop && Retired(s, r)
    requires (r in s.hist.upSince ==> p !in s.breakers) && s.runs[r].bridge.None?
    ensures Local(s, Spawn(s, r, o), r, p) && LocalOk(Spawn(s, r, o), r, p)
  {
    OwnsFromHand(s, r, p);
    if o == Started {
      SpawnLocal(s, r, p);
      SpawnOk(s, r, p);
    } else {
      var y := SpawnFailed(s, r, o);
      SpawnFailedHand(s, r, p, o);
      ScheduleHand(y, r, p);
      LocalTrans(s, y, ScheduleRestart(y, r), r, p);
    }
  }

  lemma SpawnFailedHand(s: State, r: RunId, p: RepoPath, o: SpawnOutcome)
    requires Hand(s, r, p) && Ungated(s, r, p) && Retired(s, r)
    requires (r in s.hist.upSince ==> p !in s.breakers) && s.runs[r].bridge.None? && o != Started
    ensures var y := SpawnFailed(s, r, o);
      && Local(s, y, r, p) && Hand(y, r, p) && Ungated(y, r, p) && r !in y.hist.upSince
      && (y.runs[r].bridge.Some? ==> BridgeSilent(y, y.runs[r].bridge.value) && !y.bridges[y.runs[r].bridge.value].live)
  {
    var y := SpawnFailed(s, r, o);
    SpawnFailedBridges(s, r, p, o);
    assert HandTimers(y, r, p) by {
      forall t | t in y.timers && Concerns(y.timers[t].alarm, r, p)
        ensures y.timers[t].alarm != Backoff(r) && TimerOk(y, t)
      {
        assert TimerOk(s, t);
      }
    }
  }

  lemma SpawnFailedBridges(s: State, r: RunId, p: RepoPath, o: SpawnOutcome)
    requires Hand(s, r, p) && Retired(s, r) && s.runs[r].bridge.None? && o != Started
    requires forall b :: b in s.bridges ==> b < s.nextBridge
    ensures var y := SpawnFailed(s, r, o); LocalBridgesOk(y, r) && y.nextBridge !in y.bridges && Local(s, y, r, p)
  {
    var y := SpawnFailed(s, r, o);
    forall b | b in y.bridges && y.bridges[b].owner == r ensures BridgeOk(y, b) {
      if b in s.bridges { assert BridgeOk(s, b); }
    }
  }

  /** A backoff timer that fires finds its run crashed (or late-spawned) and puts it in hand. */
  lemma BackoffHand(s: State, t: TimerId, r: RunId)
    requires Core(s) && t in s.timers && s.timers[t].alarm == Backoff(r)
    ensures r in s.runs && Occupying(s.runs[r])
    ensures var p := s.runs[r].repo; var y := TakeTimer(s, t, r);
      && Local(s, y, r, p) && Hand(y, r, p) && Ungated(y, r, p) && Alone(s, r, p)
      && !y.runs[r].userStop && (r in y.hist.upSince ==> p !in y.breakers)
  {
    assert TimerOk(s, t) && RunOk(s, r);
    OwnFacts(s, r);
    var p := s.runs[r].repo;
    var y := TakeTimer(s, t, r);
    if r in s.hist.upSince { assert s.runs[r].state == Running; }
    TakenLocal(s, t, r, p);
    BackoffTimers(s, t, r, p);
    assert LocalBridgesOk(y, r) by {
      forall b | b in y.bridges && y.bridges[b].owner == r ensures BridgeOk(y, b) { assert BridgeOk(s, b); }
    }
    hide Local;
  }

  lemma TakenLocal(s: State, t: TimerId, r: RunId, p: RepoPath)
    requires t in s.timers && s.timers[t].alarm == Backoff(r) && r in s.runs && s.runs[r].repo == p
    ensures Local(s, TakeTimer(s, t, r), r, p)
  {
  }

  lemma BackoffTimers(s: State, t: TimerId, r: RunId, p: RepoPath)
    requires r in s.runs && s.runs[r].repo == p && s.runs[r].restartTimer == Some(t)
    requires t in s.timers && s.timers[t].alarm == Backoff(r) && LocalTimersOk(s, r, p)
    requires p in s.breakers ==> BreakerOk(s, p)
    ensures HandTimers(TakeTimer(s, t, r), r, p) && (p in s.breakers ==> BreakerOk(TakeTimer(s, t, r), p))
  {
    var y := TakeTimer(s, t, r);
    forall q | q in y.timers && Concerns(y.timers[q].alarm, r, p)
      ensures y.timers[q].alarm != Backoff(r) && TimerOk(y, q)
    {
      assert TimerOk(s, q);
    }
  }

  lemma BackoffElapsedCore(s: State, t: TimerId, r: RunId, o: SpawnOutcome)
    requires Core(s) && t in s.timers && s.timers[t].alarm == Backoff(r)
    ensures Core(BackoffElapsed(s, t, r, o))
  {
    BackoffHand(s, t, r);
    var p := s.runs[r].repo;
    var y := TakeTimer(s, t, r);
    CloseBridgeHand(y, r, p);
    var x := CloseBridge(y, r);
    LocalTrans(s, y, x, r, p);
    SpawnHand(x, r, p, o);
    LocalTrans(s, x, Spawn(x, r, o), r, p);
    LocalCore(s, Spawn(x, r, o), r, p);
  }

  lemma HalfOpenCore(s: State, t: TimerId, p: RepoPath)
    requires Core(s) && t in s.timers && s.timers[t].alarm == Cooldown(p)
    ensures Core(GoHalfOpen(s.(timers := s.timers - {t}), p))
  {
    assert TimerOk(s, t) && BreakerOk(s, p);
    var z := GoHalfOpen(s.(timers := s.timers - {t}), p);
    forall r | r in z.runs ensures RunOk(z, r) && GuardedOk(z, r) { assert RunOk(s, r) && GuardedOk(s, r); }
    forall q | q in z.timers ensures TimerOk(z, q) { assert TimerOk(s, q); }
    forall q | q in z.breakers ensures BreakerOk(z, q) { assert BreakerOk(s, q); }
    forall q | q in z.bridges ensures BridgeOk(z, q) { assert BridgeOk(s, q); }
  }

  lemma SurvivalHand(s: State, t: TimerId, p: RepoPath, r: RunId)
    requires Core(s) && t in s.timers && s.timers[t].alarm == Survival(p, r)
    ensures r in s.runs && s.runs[r].repo == p && (s.runs[r].state == Running || s.runs[r].state == Stopping)
    ensures p in s.breakers && s.breakers[p].state == HalfOpen && s.breakers[p].probeRunId == Some(r)
    ensures s.breakers[p].timer == Some(t)
    ensures r in s.hist.upSince && s.timers[t].due == s.hist.upSince[r] + CIRCUIT_PROBE_HEALTHY_MS
    ensures s.runs[r].restartTimer.None? && Alone(s, r, p)
  {
    assert TimerOk(s, t) && BreakerOk(s, p) && RunOk(s, r);
    assert Alone(s, r, p) by {
      forall q | q in s.runs && q != r && Occupying(s.runs[q]) ensures s.runs[q].repo != p { assert GuardedOk(s, q); }
    }
  }

  lemma SurvivalElapsedCore(s: State, t: TimerId, p: RepoPath, r: RunId)
    requires Core(s) && t in s.timers && s.timers[t].alarm == Survival(p, r)
    ensures Core(SurvivalElapsed(s, t, p, r))
  {
    SurvivalHand(s, t, p, r);
    HandFromCore(s, r);
    var y := s.(timers := s.timers - {t});
    assert y == ClearTimer(s, Some(t));
    OwnsFromHand(s, r, p);
    ClearTimerLocal(s, Some(t), r, p);
    var z := SurvivalElapsed(s, t, p, r);
    OwnFacts(s, r);
    if z != y {
      assert z == CloseBreaker(y, p);
      assert Owns(y, r, p);
      CloseBreakerLocal(y, r, p);
      LocalTrans(s, y, z, r, p);
    }
    SurvivalOk(s, t, p, r);
    LocalCore(s, z, r, p);
  }

  lemma SurvivalOk(s: State, t: TimerId, p: RepoPath, r: RunId)
    requires Hand(s, r, p) && RunOk(s, r) && GuardedOk(s, r)
    requires t in s.timers && s.timers[t].alarm == Survival(p, r)
    requires r in s.hist.upSince && s.hist.upSince[r] <= s.now
    requires s.runs[r].state == Running || s.runs[r].state == Stopping
    ensures LocalOk(SurvivalElapsed(s, t, p, r), r, p)
  {
    var z := SurvivalElapsed(s, t, p, r);
    assert TimerOk(s, t);
    forall q | q in z.timers && Concerns(z.timers[q].alarm, r, p) ensures TimerOk(z, q) { assert TimerOk(s, q); }
    forall b | b in z.bridges && z.bridges[b].owner == r ensures BridgeOk(z, b) { assert BridgeOk(s, b); }
  }

  lemma TimerFiredCore(s: State, t: TimerId, o: SpawnOutcome)
    requires Core(s) && t in s.timers
    ensures Core(TimerFired(s, t, o))
  {
    match s.timers[t].alarm {
      case Backoff(r) => BackoffElapsedCore(s, t, r, o); BackoffHand(s, t, r);
      case Cooldown(p) => HalfOpenCore(s, t, p);
      case Survival(p, r) => SurvivalElapsedCore(s, t, p, r);
    }
  }

  lemma StopMarkedHand(s: State, r: RunId, p: RepoPath)
    requires Core(s) && r in s.runs && s.runs[r].repo == p
    ensures Local(s, StopMarked(s, r), r, p) && Hand(StopMarked(s, r), r, p)
  {
    OwnFacts(s, r);
    var y := StopMarked(s, r);
    StopMarkedTimers(s, r, p);
    StopMarkedLocal(s, r, p);
    StopMarkedBridges(s, r);
    assert s.nextTimer !in s.timers && (forall b :: b in s.bridges ==> b < s.nextBridge);
    hide Core, Local, HandTimers, LocalBridgesOk;
  }

  lemma StopMarkedLocal(s: State, r: RunId, p: RepoPath)
    requires r in s.runs && s.runs[r].repo == p && Owns(s, r, p)
    ensures Local(s, StopMarked(s, r), r, p)
  {
    var x := ClearTimer(s, s.runs[r].restartTimer);
    var y := StopMarked(s, r);
    ClearTimerLocal(s, s.runs[r].restartTimer, r, p);
    assert Local(x, y, r, p);
    hide Local;
    LocalTrans(s, x, y, r, p);
  }

  lemma StopMarkedBridges(s: State, r: RunId)
    requires BridgesOk(s) && r in s.runs
    ensures LocalBridgesOk(StopMarked(s, r), r)
  {
    var y := StopMarked(s, r);
    forall b | b in y.bridges && y.bridges[b].owner == r ensures BridgeOk(y, b) { assert BridgeOk(s, b); }
  }

  lemma StopMarkedTimers(s: State, r: RunId, p: RepoPath)
    requires r in s.runs && s.runs[r].repo == p && RunOk(s, r) && LocalTimersOk(s, r, p)
    requires p in s.breakers ==> BreakerOk(s, p)
    ensures HandTimers(StopMarked(s, r), r, p) && (p in s.breakers ==> BreakerOk(StopMarked(s, r), p))
  {
    var y := StopMarked(s, r);
    forall q | q in y.timers && Concerns(y.timers[q].alarm, r, p)
      ensures y.timers[q].alarm != Backoff(r) && TimerOk(y, q)
    {
      assert TimerOk(s, q);
    }
  }

  lemma StopAwaitingOk(y: State, r: RunId, p: RepoPath, stops: multiset<RunId>)
    requires Hand(y, r, p) && y.runs[r].userStop && y.runs[r].state == Stopping
    requires r in y.hist.upSince ==> y.hist.upSince[r] <= y.now
    ensures var z := StopBridge(y, y.runs[r].bridge).(stops := stops + multiset{r}); LocalOk(z, r, p)
  {
    var x := StopBridge(y, y.runs[r].bridge);
    StoppedHand(y, r, p);
    var z := x.(stops := stops + multiset{r});
    forall t | t in z.timers && Concerns(z.timers[t].alarm, r, p) ensures TimerOk(z, t) { assert TimerOk(x, t); }
    forall b | b in z.bridges && z.bridges[b].owner == r ensures BridgeOk(z, b) { assert BridgeOk(x, b); }
  }

  /** A run without a bridge is forgotten by its stop. */
  lemma StopForgets(s: State, r: RunId, p: RepoPath)
    requires Core(s) && r in s.runs && s.runs[r].repo == p && s.runs[r].bridge.None?
    requires Local(s, StopMarked(s, r), r, p) && Hand(StopMarked(s, r), r, p)
    ensures Core(StopRequested(s, r))
  {
    var y, z := StopMarked(s, r), StopRequested(s, r);
    assert GuardedOk(s, r);
    StopAlone(s, r, p);
    NoBridgeRetired(s, r);
    hide Core, Local, LocalOk, StopMarked;
    ForgetLocal(y, r, p);
    ForgetOk(y, r, p);
    LocalTrans(s, y, z, r, p);
    LocalCore(s, z, r, p);
  }

  /** A run with a bridge stays until the bridge has stopped. */
  lemma StopAwaits(s: State, r: RunId, p: RepoPath)
    requires Core(s) && r in s.runs && s.runs[r].repo == p && s.runs[r].bridge.Some?
    requires Local(s, StopMarked(s, r), r, p) && Hand(StopMarked(s, r), r, p)
    ensures Core(StopRequested(s, r))
  {
    var y, z := StopMarked(s, r), StopRequested(s, r);
    var x := StopBridge(y, s.runs[r].bridge);
    assert RunOk(s, r) && GuardedOk(s, r);
    StopAlone(s, r, p);
    assert Local(x, z, r, p);
    StopAwaitingOk(y, r, p, s.stops);
    hide Core, Local, LocalOk, StopMarked;
    OwnsFromHand(y, r, p);
    StopBridgeLocal(y, s.runs[r].bridge, r, p);
    LocalTrans(s, y, x, r, p);
    LocalTrans(s, x, z, r, p);
    LocalCore(s, z, r, p);
  }

  lemma StopRequestedCore(s: State, r: RunId)
    requires Core(s)
    ensures Core(StopRequested(s, r))
  {
    if r in s.runs {
      StopMarkedHand(s, r, s.runs[r].repo);
      assert RunOk(s, r) && GuardedOk(s, r);
      if s.runs[r].bridge.None? { StopForgets(s, r, s.runs[r].repo); } else { StopAwaits(s, r, s.runs[r].repo); }
    }
    hide *;
  }

  lemma NoBridgeRetired(s: State, r: RunId)
    requires BridgesOk(s) && r in s.runs && s.runs[r].bridge.None?
    ensures Retired(StopMarked(s, r), r)
  {
    forall b | b in s.bridges && s.bridges[b].owner == r ensures s.bridges[b].stopped { assert BridgeOk(s, b); }
  }

  lemma StopAlone(s: State, r: RunId, p: RepoPath)
    requires Core(s) && r in s.runs && s.runs[r].repo == p
    ensures Alone(s, r, p) || SameBreaker(s, StopRequested(s, r), p)
  {
    if !Alone(s, r, p) {
      var q :| q in s.runs && q != r && Occupying(s.runs[q]) && s.runs[q].repo == p;
      assert GuardedOk(s, q);
    }
  }

  /** A timer the reconciler clears is one of an evicted run or probe. */
  lemma EvictedAlarm(s: State, dead: set<RunId>, t: TimerId)
    requires RunsOk(s) && BreakersOk(s) && TimersOk(s) && t in s.timers && EvictedTimer(s, dead, t)
    ensures var a := s.timers[t].alarm;
      (a.Backoff? && a.runId in dead) || (a.Survival? && a.probe in dead)
  {
    if r :| r in dead && r in s.runs && s.runs[r].restartTimer == Some(t) {
      assert RunOk(s, r);
    } else {
      var p :| p in s.breakers && EvictedProbe(s, dead, p) && s.breakers[p].timer == Some(t);
      assert BreakerOk(s, p) && TimerOk(s, t);
    }
  }

  lemma EvictedRun(s: State, dead: set<RunId>, r: RunId)
    requires RunsOk(s) && BreakersOk(s) && TimersOk(s) && r in s.runs && r !in dead
    ensures RunOk(EvictAll(s, dead), r) && (GuardedOk(s, r) ==> GuardedOk(EvictAll(s, dead), r))
  {
    var z := EvictAll(s, dead);
    var run := s.runs[r];
    assert RunOk(s, r);
    if run.restartTimer.Some? && EvictedTimer(s, dead, run.restartTimer.value) {
      EvictedAlarm(s, dead, run.restartTimer.value);
    }
  }

  lemma EvictedTimers(s: State, dead: set<RunId>, t: TimerId)
    requires RunsOk(s) && BreakersOk(s) && t in s.timers && TimerOk(s, t) && !EvictedTimer(s, dead, t)
    ensures TimerOk(EvictAll(s, dead), t)
  {
    match s.timers[t].alarm {
      case Backoff(r) => assert r !in dead;
      case Cooldown(p) => assert BreakerOk(s, p);
      case Survival(p, r) =>
        assert BreakerOk(s, p);
        assert r in dead ==> EvictedProbe(s, dead, p);
    }
  }

  lemma EvictedBreaker(s: State, dead: set<RunId>, p: RepoPath)
    requires RunsOk(s) && BreakersOk(s) && TimersOk(s) && p in s.breakers
    ensures BreakerOk(EvictAll(s, dead), p)
  {
    assert BreakerOk(s, p);
    var b := s.breakers[p];
    if b.state == Open && b.timer.Some? && b.timer.value in s.timers && EvictedTimer(s, dead, b.timer.value) {
      EvictedAlarm(s, dead, b.timer.value);
    }
  }

  lemma EvictAllCore(s: State, dead: set<RunId>)
    requires Core(s)
    ensures Core(EvictAll(s, dead))
  {
    var z := EvictAll(s, dead);
    assert RunsOk(z) && Guarded(z) by {
      forall r | r in z.runs ensures RunOk(z, r) && GuardedOk(z, r) { EvictedRun(s, dead, r); assert GuardedOk(s, r); }
    }
    assert TimersOk(z) by {
      forall t | t in z.timers ensures TimerOk(z, t) { assert TimerOk(s, t); EvictedTimers(s, dead, t); }
    }
    assert BreakersOk(z) by {
      forall p | p in z.breakers ensures BreakerOk(z, p) { EvictedBreaker(s, dead, p); }
    }
    assert BridgesOk(z) by {
      forall b | b in z.bridges ensures BridgeOk(z, b) { assert BridgeOk(s, b); }
    }
    assert Exclusive(z) && UpOk(z) && StartsOk(z);
  }

  lemma StartDequeued(s: State, r: RunId)
    requires Core(s) && r in s.starts
    ensures Core(s.(starts := s.starts - {r}))
  {
    var z := s.(starts := s.starts - {r});
    forall q | q in z.runs ensures RunOk(z, q) { assert RunOk(s, q); }
    forall t | t in z.timers ensures TimerOk(z, t) { assert TimerOk(s, t); }
    forall p | p in z.breakers ensures BreakerOk(z, p) { assert BreakerOk(s, p); }
    forall b | b in z.bridges ensures BridgeOk(z, b) { assert BridgeOk(s, b); }
  }

  lemma AdmitLocal(s: State, r: RunId, p: RepoPath)
    requires r !in s.runs
    ensures Local(s, Admit(s, r, p), r, p)
  {
  }

  /** Nothing that is left over concerns a run that is about to be admitted. */
  lemma NothingConcerns(s: State, r: RunId, p: RepoPath)
    requires Core(s) && r !in s.runs && Alone(s, r, p)
    requires p in s.breakers ==> s.breakers[p].state == HalfOpen && s.breakers[p].probeRunId.None?
    ensures forall t :: t in s.timers ==> t < s.nextTimer && !Concerns(s.timers[t].alarm, r, p)
    ensures forall b :: b in s.bridges ==> b < s.nextBridge && (s.bridges[b].owner == r ==> s.bridges[b].stopped)
    ensures p in s.breakers ==> BreakerOk(s, p)
  {
    assert p in s.breakers ==> BreakerOk(s, p);
    forall t | t in s.timers ensures t < s.nextTimer && !Concerns(s.timers[t].alarm, r, p) { assert TimerOk(s, t); }
    forall b | b in s.bridges ensures b < s.nextBridge && (s.bridges[b].owner == r ==> s.bridges[b].stopped) {
      assert BridgeOk(s, b);
    }
  }

  /** An admitted run, probe slot claimed, is in hand. */
  lemma AdmittedHand(s: State, r: RunId, p: RepoPath)
    requires Core(s) && r !in s.runs && r in s.hist.used && r !in s.starts && r !in s.stops && Alone(s, r, p)
    requires p in s.breakers ==> s.breakers[p].state == HalfOpen && s.breakers[p].probeRunId.None?
    ensures var y := Admit(s, r, p);
      Local(s, y, r, p) && Hand(y, r, p) && Ungated(y, r, p) && Retired(y, r) && r !in y.hist.upSince
  {
    AdmitLocal(s, r, p);
    NothingConcerns(s, r, p);
    AdmittedBridges(s, r, p);
    assert r !in s.hist.upSince;
    hide Core, Local, LocalBridgesOk;
  }

  lemma AdmittedBridges(s: State, r: RunId, p: RepoPath)
    requires BridgesOk(s) && r !in s.runs
    ensures LocalBridgesOk(Admit(s, r, p), r)
  {
    var y := Admit(s, r, p);
    forall b | b in y.bridges && y.bridges[b].owner == r ensures BridgeOk(y, b) { assert BridgeOk(s, b); }
  }

  /** An admitted start spawns; any other only may have evicted. */
  lemma StartOutcome(s: State, r: RunId, ok: bool, alive: set<BridgeId>, o: SpawnOutcome)
    requires r in s.starts
    ensures var s0, z := s.(starts := s.starts - {r}), StartContinued(s, r, ok, alive, o);
      var s1 := EvictAll(s0, StrandedRuns(s, alive));
      if Decide(s, r, ok, alive) == Admitted then z == Spawn(Admit(s1, r, s.starts[r]), r, o) else z == s0 || z == s1
  {
    hide Spawn, Admit, EvictAll, Decide, StrandedRuns;
  }

  lemma StartContinuedCore(s: State, r: RunId, ok: bool, alive: set<BridgeId>, o: SpawnOutcome)
    requires Core(s) && r in s.starts
    ensures Core(StartContinued(s, r, ok, alive, o))
  {
    var s0 := s.(starts := s.starts - {r});
    var dead := StrandedRuns(s, alive);
    StartDequeued(s, r);
    hide Core, EvictAll, Spawn, Admit, Decide, StartContinued, StrandedRuns, Alone;
    EvictAllCore(s0, dead);
    StartOutcome(s, r, ok, alive, o);
    if Decide(s, r, ok, alive) == Admitted {
      AdmittedAlone(s, r, ok, alive);
      AdmittedSpawnCore(EvictAll(s0, dead), r, s.starts[r], o);
    }
  }

  lemma AdmittedSpawnCore(s: State, r: RunId, p: RepoPath, o: SpawnOutcome)
    requires Core(s) && r !in s.runs && r in s.hist.used && r !in s.starts && r !in s.stops && Alone(s, r, p)
    requires p in s.breakers ==> s.breakers[p].state == HalfOpen && s.breakers[p].probeRunId.None?
    ensures Core(Spawn(Admit(s, r, p), r, o))
  {
    var y := Admit(s, r, p);
    AdmittedHand(s, r, p);
    SpawnHand(y, r, p, o);
    LocalTrans(s, y, Spawn(y, r, o), r, p);
    LocalCore(s, Spawn(y, r, o), r, p);
  }

  /** What the checks of `start` establish about the repo they admit a run to. */
  lemma AdmittedAlone(s: State, r: RunId, ok: bool, alive: set<BridgeId>)
    requires Core(s) && r in s.starts && Decide(s, r, ok, alive) == Admitted
    ensures var p := s.starts[r]; var s1 := EvictAll(s.(starts := s.starts - {r}), StrandedRuns(s, alive));
      && r !in s1.runs && r in s1.hist.used && r !in s1.starts && r !in s1.stops && Alone(s1, r, p)
      && (p in s1.breakers ==> s1.breakers[p].state == HalfOpen && s1.breakers[p].probeRunId.None?)
  {
    var p := s.starts[r];
    assert r in s.hist.used && r !in s.runs && r !in s.stops;
    assert p in s.breakers ==> BreakerOk(s, p);
    var s1 := EvictAll(s, StrandedRuns(s, alive));
    forall q | q in s1.runs && q != r && Occupying(s1.runs[q]) ensures s1.runs[q].repo != p {
      assert q in s.runs && s1.runs[q] == s.runs[q];
    }
  }

  lemma ActivitySeenCore(s: State, r: RunId)
    requires Core(s)
    ensures Core(ActivitySeen(s, r))
  {
    if r in s.runs {
      var z := ActivitySeen(s, r);
      var p := s.runs[r].repo;
      OwnFacts(s, r);
      assert Local(s, z, r, p);
      ActivityOk(s, r, p);
      LocalCore(s, z, r, p);
    }
  }

  lemma ActivityOk(s: State, r: RunId, p: RepoPath)
    requires r in s.runs && s.runs[r].repo == p && RunOk(s, r) && GuardedOk(s, r) && r !in s.starts
    requires (p in s.breakers ==> BreakerOk(s, p)) && LocalTimersOk(s, r, p) && LocalBridgesOk(s, r)
    requires r in s.hist.upSince ==>
      (s.runs[r].state == Running || s.runs[r].state == Stopping) && s.hist.upSince[r] <= s.now
    ensures LocalOk(ActivitySeen(s, r), r, p)
  {
    var z := ActivitySeen(s, r);
    forall t | t in z.timers && Concerns(z.timers[t].alarm, r, p) ensures TimerOk(z, t) { assert TimerOk(s, t); }
    forall b | b in z.bridges && z.bridges[b].owner == r ensures BridgeOk(z, b) { assert BridgeOk(s, b); }
  }

  lemma ContinuationGone(s: State, r: RunId)
    requires Core(s) && r !in s.runs
    ensures Core(s.(stops := s.stops - multiset{r}))
  {
    var z := s.(stops := s.stops - multiset{r});
    forall q | q in z.runs ensures RunOk(z, q) { assert RunOk(s, q); }
    forall t | t in z.timers ensures TimerOk(z, t) { assert TimerOk(s, t); }
    forall p | p in z.breakers ensures BreakerOk(z, p) { assert BreakerOk(s, p); }
    forall b | b in z.bridges ensures BridgeOk(z, b) { assert BridgeOk(s, b); }
  }

  lemma StopSettledCore(s: State, r: RunId)
    requires Core(s) && r in s.stops
    ensures Core(StopSettled(s, r))
  {
    if r in s.runs { assert RunOk(s, r); }
    hide Core, ForgetRun;
    ForgetCore(s, r);
    ContinuationGone(ForgetRun(s, r), r);
  }

  lemma StartRequestedCore(s: State, r: RunId, p: RepoPath)
    requires Core(s) && (r in s.runs || r !in s.hist.used)
    ensures Core(StartRequested(s, r, p))
  {
    var z := StartRequested(s, r, p);
    forall q | q in z.runs ensures RunOk(z, q) { assert RunOk(s, q); }
    forall t | t in z.timers ensures TimerOk(z, t) { assert TimerOk(s, t); }
    forall p | p in z.breakers ensures BreakerOk(z, p) { assert BreakerOk(s, p); }
    forall b | b in z.bridges ensures BridgeOk(z, b) { assert BridgeOk(s, b); }
  }

  lemma TickCore(s: State, d: nat)
    requires Core(s)
    ensures Core(s.(now := s.now + d))
  {
    var z := s.(now := s.now + d);
    forall q | q in z.runs ensures RunOk(z, q) { assert RunOk(s, q); }
    forall t | t in z.timers ensures TimerOk(z, t) { assert TimerOk(s, t); }
    forall p | p in z.breakers ensures BreakerOk(z, p) { assert BreakerOk(s, p); }
    forall b | b in z.bridges ensures BridgeOk(z, b) { assert BridgeOk(s, b); }
  }

  lemma BridgeOrTimerCore(s: State, e: Event)
    requires Core(s) && Enabled(s, e) && (e.OnSpawned? || e.OnExit? || e.TimerDue?)
    ensures Core(Step(s, e))
  {
    match e {
      case OnSpawned(b) => BridgeSpawnedCore(s, b);
      case OnExit(b, clean) => BridgeExitedCore(s, b, clean);
      case TimerDue(t, o) => TimerFiredCore(s, t, o);
    }
  }

  /** Every event of the contract keeps the joint invariant. */
  lemma StepCore(s: State, e: Event)
    requires Core(s) && Enabled(s, e) && Fresh(s, e)
    ensures Core(Step(s, e))
  {
    hide Core, StartRequested, StartContinued, StopRequested, StopSettled, ActivitySeen;
    match e {
      case StartCall(r, p) => StartRequestedCore(s, r, p);
      case StartResumes(r, ok, alive, o) => StartContinuedCore(s, r, ok, alive, o);
      case StopCall(r) => StopRequestedCore(s, r);
      case StopResumes(r) => StopSettledCore(s, r);
      case Activity(r) => ActivitySeenCore(s, r);
      case Tick(d) => TickCore(s, d);
      case _ => BridgeOrTimerCore(s, e);
    }
  }
}
