/** What a bridge's exit does to its run and to the breaker of its repo, in the fields of the states
    before and after, and what it adds up to over a run: every failed probe is counted. */
module SupervisionCrashes {
  import opened Wrappers
  import opened Supervision
  import opened SupervisionSafety
  import opened SupervisionHistory
  import opened SupervisionClock
  import opened SupervisionRuns
  import opened SupervisionStops
  import opened SupervisionOutcomes

  /** The crashes of a history that lie in the ten minutes before `now`. */
  function Lately(h: seq<int>, now: int): set<nat> {
    set i: nat | i < |h| && now - h[i] < 600_000
  }

  lemma {:induction false} RecentCounts(h: seq<int>, now: int)
    ensures |Recent(h, now)| == |Lately(h, now)|
  {
    if h == [] {
      assert Lately(h, now) == {};
    } else {
      var n := |h| - 1;
      RecentCounts(h[..n], now);
      assert Lately(h, now) == Lately(h[..n], now) + if now - h[n] < 600_000 then {n} else {};
    }
  }

  lemma {:induction false} RecentUnfolds(h: seq<int>, now: int)
    requires h != []
    ensures var n := |h| - 1;
      Recent(h, now) == Recent(h[..n], now) + if now - h[n] < 600_000 then [h[n]] else []
  {
  }

  lemma AppendToTail(h: seq<int>, k: nat)
    requires h != [] && k < |h|
    ensures h[k..] == h[..|h| - 1][k..] + [h[|h| - 1]]
  {
  }

  /** What pruning keeps of a history are its last entries, from the first that is younger than ten minutes. */
  lemma {:induction false} RecentIsLast(h: seq<int>, now: int) returns (k: nat)
    requires forall i, j | 0 <= i < j < |h| :: h[i] <= h[j]
    ensures k <= |h| && Recent(h, now) == h[k..]
    ensures forall i | 0 <= i < |h| :: now - h[i] < 600_000 <==> k <= i
  {
    k := 0;
    if h == [] {
      assert Recent(h, now) == [];
    } else {
      hide Recent;
      var n := |h| - 1;
      var rest := h[..n];
      assert forall i | 0 <= i < n :: rest[i] == h[i] <= h[n];
      k := RecentIsLast(rest, now);
      RecentUnfolds(h, now);
      AppendToTail(h, k);
      if k < n { assert now - rest[k] < 600_000; }
      if now - h[n] >= 600_000 {
        assert rest[k..] == [];
        k := n + 1;
      }
    }
  }

  /** The crash of a run that the user did not stop, on its current bridge. */
  predicate IsCrash(s: State, e: Event, r: RunId) {
    && e.OnExit? && !e.clean && e.bridge in s.bridges && s.bridges[e.bridge].owner == r
    && r in s.runs && !s.runs[r].userStop
  }

  const COOLDOWNS: seq<int> := [300_000, 600_000, 1_200_000, 1_800_000, 1_800_000]
  const DELAYS: seq<int> := [1000, 2000, 4000, 8000, 16000, 30000]

  lemma CooldownIs(n: nat)
    requires n < 5
    ensures CooldownFor(n) == COOLDOWNS[n]
  {
    assert Pow2(1) == 2 && Pow2(2) == 4;
    assert Pow2(3) == 8 && Pow2(4) == 16;
  }

  /** The breaker of `p` is open since now, after `n` failed probes; its cooldown is armed unless there
      were five. */
  ghost predicate OpenedNow(z: State, p: RepoPath, n: nat) {
    && p in z.breakers && z.breakers[p].state == Open && z.breakers[p].openedAt == z.now
    && z.breakers[p].failedProbes == n && z.breakers[p].probeRunId == None
    && (n < 5 ==>
          && z.breakers[p].timer.Some? && z.breakers[p].timer.value in z.timers
          && z.timers[z.breakers[p].timer.value] == Timer(z.now + COOLDOWNS[n], Cooldown(p)))
    && (n >= 5 ==> forall t | t in z.timers :: z.timers[t].alarm != Cooldown(p))
  }

  /** The run waits for its respawn. */
  ghost predicate BacksOff(z: State, r: RunId, was: Run) {
    && r in z.runs
    && z.runs[r] == was.(state := Crashed, restartCount := was.restartCount + 1,
                         recentCrashes := z.runs[r].recentCrashes, restartTimer := z.runs[r].restartTimer)
    && z.runs[r].restartTimer.Some? && z.runs[r].restartTimer.value in z.timers
    && z.timers[z.runs[r].restartTimer.value]
       == Timer(z.now + DELAYS[if was.restartCount < 5 then was.restartCount else 5], Backoff(r))
  }

  lemma InstallFields(s: State, p: RepoPath, n: nat)
    ensures var z := InstallOpen(s, p, n);
      && z.now == s.now && z.runs == s.runs && z.bridges == s.bridges
      && z.breakers == s.breakers[p := Breaker(Open, s.now, n, if n < 5 then Some(s.nextTimer) else None, None)]
      && (n < 5 ==> z.timers == s.timers[s.nextTimer := Timer(s.now + CooldownFor(n), Cooldown(p))])
      && z.hist.crashes == s.hist.crashes
  {
    hide CooldownFor;
  }

  lemma TripFields(s: State, r: RunId, b: BridgeId)
    requires r in s.runs && s.runs[r].bridge == Some(b) && b in s.bridges
    ensures var z, p, n := TripBreaker(s, r), s.runs[r].repo, FailedAfterTrip(s, s.runs[r].repo);
      && z.now == s.now && z.runs == s.runs - {r} && z.bridges == s.bridges[b := s.bridges[b].(stopped := true)]
      && z.breakers == s.breakers[p := Breaker(Open, s.now, n, if n < 5 then Some(s.nextTimer) else None, None)]
      && z.hist.crashes == s.hist.crashes
      && (n < 5 ==>
            s.nextTimer in z.timers && z.timers[s.nextTimer] == Timer(s.now + CooldownFor(n), Cooldown(p)))
  {
    var p := s.runs[r].repo;
    var y := Untrack(StopBridge(ClearTimer(s, BreakerTimer(s, p)), s.runs[r].bridge), r);
    InstallFields(y, p, FailedAfterTrip(s, p));
    hide InstallOpen, FailedAfterTrip, CooldownFor;
  }

  lemma GiveUpFields(s: State, r: RunId, b: BridgeId)
    requires r in s.runs && s.runs[r].bridge == Some(b) && b in s.bridges && s.runs[r].restartCount >= 10
    requires s.runs[r].repo !in s.breakers
    ensures var z := ScheduleRestart(s, r);
      && z.now == s.now && z.runs == s.runs - {r} && z.bridges == s.bridges[b := s.bridges[b].(stopped := true)]
      && z.breakers == s.breakers && z.timers == s.timers && z.hist.crashes == s.hist.crashes
  {
  }

  lemma BackoffFields(s: State, r: RunId)
    requires r in s.runs && s.runs[r].restartCount < 10
    ensures var z, k := ScheduleRestart(s, r), s.runs[r].restartCount;
      && z.now == s.now && z.bridges == s.bridges && z.breakers == s.breakers && z.runs - {r} == s.runs - {r}
      && r in z.runs
      && z.runs[r] == s.runs[r].(restartCount := k + 1, state := Crashed, restartTimer := Some(s.nextTimer))
      && z.timers == s.timers[s.nextTimer := Timer(s.now + DELAYS[if k < 5 then k else 5], Backoff(r))]
      && z.hist.crashes == s.hist.crashes
  {
  }

  /** The bridge that crashes is the one its run holds, and a breaker of its repo is half-open for it. */
  lemma CrashFacts(s: State, b: BridgeId, r: RunId)
    requires Core(s) && HistOk(s) && Enabled(s, OnExit(b, false)) && IsCrash(s, OnExit(b, false), r)
    ensures s.runs[r].bridge == Some(b) && s.nextTimer !in s.timers && Occupying(s.runs[r])
    ensures s.runs[r].repo in s.breakers ==>
      s.breakers[s.runs[r].repo].state == HalfOpen && s.breakers[s.runs[r].repo].probeRunId == Some(r)
    ensures Recent(s.runs[r].recentCrashes + [s.now], s.now) == Recent(CrashesOf(s.hist, r) + [s.now], s.now)
  {
    OwnFacts(s, r);
    assert BridgeOk(s, b) && RunHistOk(s, r);
    PruneIsExact(CrashesOf(s.hist, r), s.now);
  }

  /** Only the run, its bridge and the breaker of its repo are touched. */
  ghost predicate Beside(s: State, z: State, r: RunId, b: BridgeId, p: RepoPath) {
    && z.now == s.now && z.runs - {r} == s.runs - {r} && z.breakers - {p} == s.breakers - {p}
    && z.bridges - {b} == s.bridges - {b}
  }

  /** The run is gone and its bridge is stopped. */
  ghost predicate Dropped(z: State, r: RunId, b: BridgeId) {
    r !in z.runs && b in z.bridges && z.bridges[b].stopped
  }

  /** What a crash comes to. */
  ghost predicate CrashOutcome(s: State, z: State, r: RunId, b: BridgeId)
    requires r in s.runs && b in s.bridges
  {
    var run, p, h := s.runs[r], s.runs[r].repo, CrashesOf(s.hist, r) + [s.now];
    && Beside(s, z, r, b, p) && CrashesOf(z.hist, r) == h
    && if p in s.breakers || |Lately(h, s.now)| >= 5 then
         Dropped(z, r, b) && OpenedNow(z, p, if p in s.breakers then s.breakers[p].failedProbes + 1 else 0)
       else
         && z.breakers == s.breakers
         && if run.restartCount >= 10 then Dropped(z, r, b)
            else BacksOff(z, r, run) && b in z.bridges && z.bridges[b] == s.bridges[b].(exited := true)
  }

  /** Which way a crash goes. */
  lemma CrashBranch(s: State, r: RunId, b: BridgeId)
    requires Core(s) && HistOk(s) && Enabled(s, OnExit(b, false)) && IsCrash(s, OnExit(b, false), r)
    ensures var x, p, h := NoteCrash(MarkExited(s, b), r), s.runs[r].repo, CrashesOf(s.hist, r) + [s.now];
      && Step(s, OnExit(b, false))
         == (if p in s.breakers || |Lately(h, s.now)| >= 5 then TripBreaker(x, r) else ScheduleRestart(x, r))
      && FailedAfterTrip(x, p) == (if p in s.breakers then s.breakers[p].failedProbes + 1 else 0)
  {
    CrashFacts(s, b, r);
    RecentCounts(CrashesOf(s.hist, r) + [s.now], s.now);
    hide Core, HistOk, Recent, Lately, TripBreaker, ScheduleRestart, CrashesOf;
  }

  lemma CrashStep(s: State, z: State, r: RunId, b: BridgeId)
    requires Core(s) && Core(z) && HistOk(s) && Enabled(s, OnExit(b, false)) && IsCrash(s, OnExit(b, false), r)
    requires z == Step(s, OnExit(b, false))
    ensures CrashOutcome(s, z, r, b)
  {
    var p, h, x := s.runs[r].repo, CrashesOf(s.hist, r) + [s.now], NoteCrash(MarkExited(s, b), r);
    hide *;
    CrashBranch(s, r, b);
    CrashFacts(s, b, r);
    NoteFields(s, b, r);
    if p in s.breakers || |Lately(h, s.now)| >= 5 {
      TripStep(s, x, z, r, b);
    } else {
      RestartStep(s, x, z, r, b);
    }
  }

  /** The crash is recorded, and nothing else happened yet. */
  ghost predicate Noted(s: State, x: State, r: RunId, b: BridgeId)
    requires r in s.runs && b in s.bridges
  {
    && x.now == s.now && x.breakers == s.breakers && x.timers == s.timers && x.nextTimer == s.nextTimer
    && x.runs.Keys == s.runs.Keys && x.runs - {r} == s.runs - {r}
    && x.runs[r] == s.runs[r].(recentCrashes := x.runs[r].recentCrashes)
    && x.bridges == s.bridges[b := s.bridges[b].(exited := true)]
    && CrashesOf(x.hist, r) == CrashesOf(s.hist, r) + [s.now]
  }

  lemma NoteFields(s: State, b: BridgeId, r: RunId)
    requires b in s.bridges && r in s.runs
    ensures Noted(s, NoteCrash(MarkExited(s, b), r), r, b)
  {
  }

  lemma NoCooldown(z: State, p: RepoPath)
    requires Core(z) && p in z.breakers && z.breakers[p].failedProbes >= 5
    ensures forall t | t in z.timers :: z.timers[t].alarm != Cooldown(p)
  {
    forall t | t in z.timers ensures z.timers[t].alarm != Cooldown(p) { assert TimerOk(z, t); }
  }

  lemma TripStep(s: State, x: State, z: State, r: RunId, b: BridgeId)
    requires b in s.bridges && r in s.runs && Noted(s, x, r, b) && s.runs[r].bridge == Some(b)
    requires z == TripBreaker(x, r) && Core(z)
    requires var p := s.runs[r].repo;
      if p in s.breakers then FailedAfterTrip(x, p) == s.breakers[p].failedProbes + 1
      else FailedAfterTrip(x, p) == 0 && |Lately(CrashesOf(s.hist, r) + [s.now], s.now)| >= 5
    ensures CrashOutcome(s, z, r, b)
  {
    hide TripBreaker, FailedAfterTrip, CooldownFor, Lately, CrashOutcome, Core, OpenedNow;
    var p, n := s.runs[r].repo, FailedAfterTrip(x, s.runs[r].repo);
    TripFields(x, r, b);
    OpenedFields(z, p, n, x.nextTimer);
    assert Dropped(z, r, b);
    assert CrashesOf(z.hist, r) == CrashesOf(x.hist, r);
    BesideTrip(s, x, z, r, b, p);
    hide Beside, Dropped, CrashesOf;
    TripIs(s, z, r, b, n);
  }

  lemma OpenedFields(z: State, p: RepoPath, n: nat, t: TimerId)
    requires Core(z) && p in z.breakers
    requires z.breakers[p] == Breaker(Open, z.now, n, if n < 5 then Some(t) else None, None)
    requires n < 5 ==> t in z.timers && z.timers[t] == Timer(z.now + CooldownFor(n), Cooldown(p))
    ensures OpenedNow(z, p, n)
  {
    if n < 5 { CooldownIs(n); } else { NoCooldown(z, p); }
    hide Core, CooldownFor;
  }

  lemma TripIs(s: State, z: State, r: RunId, b: BridgeId, n: nat)
    requires r in s.runs && b in s.bridges
    requires var p, h := s.runs[r].repo, CrashesOf(s.hist, r) + [s.now];
      && Beside(s, z, r, b, p) && CrashesOf(z.hist, r) == h && Dropped(z, r, b) && OpenedNow(z, p, n)
      && if p in s.breakers then n == s.breakers[p].failedProbes + 1 else n == 0 && |Lately(h, s.now)| >= 5
    ensures CrashOutcome(s, z, r, b)
  {
    hide Beside, Dropped, CrashesOf, OpenedNow, Lately;
  }

  lemma BesideTrip(s: State, x: State, z: State, r: RunId, b: BridgeId, p: RepoPath)
    requires r in s.runs && b in s.bridges && Noted(s, x, r, b)
    requires z.now == x.now && z.runs - {r} == x.runs - {r} && z.breakers - {p} == x.breakers - {p}
      && z.bridges - {b} == x.bridges - {b}
    ensures Beside(s, z, r, b, p)
  {
    hide CrashesOf;
  }

  lemma RestartStep(s: State, x: State, z: State, r: RunId, b: BridgeId)
    requires b in s.bridges && r in s.runs && Noted(s, x, r, b) && s.runs[r].bridge == Some(b)
    requires s.runs[r].repo !in s.breakers && |Lately(CrashesOf(s.hist, r) + [s.now], s.now)| < 5
    requires z == ScheduleRestart(x, r)
    ensures CrashOutcome(s, z, r, b)
  {
    if s.runs[r].restartCount >= 10 { GiveUpFields(x, r, b); } else { BackoffFields(x, r); }
    hide ScheduleRestart, Lately, CrashOutcome;
    assert CrashesOf(z.hist, r) == CrashesOf(x.hist, r) && z.breakers == s.breakers;
    assert Beside(s, z, r, b, s.runs[r].repo) by { BesideTrip(s, x, z, r, b, s.runs[r].repo); }
    if s.runs[r].restartCount >= 10 {
      assert Dropped(z, r, b);
    } else {
      assert BacksOff(z, r, s.runs[r]) && b in z.bridges && z.bridges[b] == s.bridges[b].(exited := true);
    }
    hide Beside, Dropped, BacksOff, CrashesOf;
    RestartIs(s, z, r, b);
  }

  lemma RestartIs(s: State, z: State, r: RunId, b: BridgeId)
    requires r in s.runs && b in s.bridges
    requires var p, h := s.runs[r].repo, CrashesOf(s.hist, r) + [s.now];
      && Beside(s, z, r, b, p) && CrashesOf(z.hist, r) == h && p !in s.breakers && |Lately(h, s.now)| < 5
      && z.breakers == s.breakers
      && if s.runs[r].restartCount >= 10 then Dropped(z, r, b)
         else BacksOff(z, r, s.runs[r]) && b in z.bridges && z.bridges[b] == s.bridges[b].(exited := true)
    ensures CrashOutcome(s, z, r, b)
  {
    hide Beside, Dropped, CrashesOf, BacksOff, Lately;
  }
  /** Every crash of every run of the manager: a breaker of the repo is half-open with the crashed run as
      its probe, and opens again with one failed probe more; without one, the fifth crash in ten minutes
      opens it; otherwise the run backs off, or is given up after ten restarts. */
  lemma CrashIs(trace: seq<State>, events: seq<Event>, i: nat, r: RunId)
    requires IsRun(trace, events) && i < |events| && IsCrash(trace[i], events[i], r)
    ensures CrashOutcome(trace[i], trace[i + 1], r, events[i].bridge)
    ensures var s, p := trace[i], trace[i].runs[r].repo;
      p in s.breakers ==> s.breakers[p].state == HalfOpen && s.breakers[p].probeRunId == Some(r)
  {
    RunInv(trace, events, i);
    RunInv(trace, events, i + 1);
    assert Turn(trace[i], events[i], trace[i + 1]);
    hide IsRun;
    CrashFacts(trace[i], events[i].bridge, r);
    hide Core, Step, CrashOutcome, Enabled, Recent;
    CrashStep(trace[i], trace[i + 1], r, events[i].bridge);
  }

  // ----- Counting the failed probes -----

  /** A run of the repo crashes. */
  predicate CrashIn(s: State, e: Event, p: RepoPath) {
    && e.OnExit? && e.bridge in s.bridges && IsCrash(s, e, s.bridges[e.bridge].owner)
    && s.runs[s.bridges[e.bridge].owner].repo == p
  }

  /** No breaker appeared for the repo, and the one that stays has its count. */
  ghost predicate SameCount(s: State, z: State, p: RepoPath) {
    p in z.breakers ==> p in s.breakers && z.breakers[p].failedProbes == s.breakers[p].failedProbes
  }

  lemma SameClocksCount(s: State, z: State, p: RepoPath)
    requires SameClocks(s, z)
    ensures SameCount(s, z, p)
  {
    if p in z.breakers { assert SameClock(s, z, p); }
  }

  lemma TimerCount(s: State, t: TimerId, o: SpawnOutcome, p: RepoPath)
    requires Core(s) && t in s.timers
    ensures SameCount(s, TimerFired(s, t, o), p)
  {
    match s.timers[t].alarm {
      case Backoff(r) =>
        assert TimerOk(s, t);
        BackoffClocks(s, t, r, o);
        SameClocksCount(s, BackoffElapsed(s, t, r, o), p);
      case Cooldown(q) =>
      case Survival(q, r) =>
    }
  }

  lemma ExitCount(s: State, z: State, b: BridgeId, clean: bool, p: RepoPath)
    requires Core(s) && Core(z) && HistOk(s) && Enabled(s, OnExit(b, clean)) && z == BridgeExited(s, b, clean)
    requires !CrashIn(s, OnExit(b, clean), p)
    ensures SameCount(s, z, p)
  {
    var r, y := s.bridges[b].owner, MarkExited(s, b);
    if r !in s.runs {
      assert z.breakers == s.breakers;
    } else if s.runs[r].userStop || clean {
      ExitForgets(s, y, r);
      SameClocksCount(s, z, p);
    } else {
      CrashStep(s, z, r, b);
      OtherRepo(s, z, s.runs[r].repo, p);
    }
    hide Core, HistOk, Enabled, ForgetRun, TripBreaker, ScheduleRestart, StopBridge, MustTrip, CrashOutcome;
  }

  lemma OtherRepo(s: State, z: State, q: RepoPath, p: RepoPath)
    requires p != q && s.breakers - {q} == z.breakers - {q}
    ensures SameCount(s, z, p)
  {
    FrameOtherRepo(s, z, q, p);
  }
  lemma OtherCount(s: State, e: Event, p: RepoPath)
    requires Core(s) && Enabled(s, e) && Fresh(s, e) && !e.OnExit? && !e.TimerDue?
    ensures SameCount(s, Step(s, e), p)
  {
    match e {
      case StartResumes(r, ok, alive, o) => StartClocks(s, r, ok, alive, o);
      case OnSpawned(b) => SpawnedClocks(s, b);
      case StopCall(r) => ProbeFreeByCore(s, r); StopClocks(s, r);
      case StopResumes(r) => ProbeFreeByCore(s, r); StopSettledClocks(s, r);
      case StartCall(_, _) => StillClocks(s, Step(s, e));
      case Activity(_) => StillClocks(s, Step(s, e));
      case Tick(_) => StillClocks(s, Step(s, e));
    }
    hide SameClocks, StartContinued, BridgeSpawned, StopRequested, StopSettled, Core, SameCount;
    SameClocksCount(s, Step(s, e), p);
  }

  lemma StepCount(s: State, e: Event, z: State, p: RepoPath)
    requires Inv(s) && Core(z) && Turn(s, e, z) && !CrashIn(s, e, p)
    ensures SameCount(s, z, p)
  {
    hide Core, HistOk, BridgeExited, TimerFired, StartContinued, BridgeSpawned, StopRequested, StopSettled;
    hide CrashIn, SameCount;
    match e {
      case OnExit(b, clean) => ExitCount(s, z, b, clean, p);
      case TimerDue(t, o) => TimerCount(s, t, o, p);
      case _ => OtherCount(s, e, p);
    }
  }

  lemma TurnCount(trace: seq<State>, events: seq<Event>, i: nat, p: RepoPath)
    requires IsRun(trace, events) && i < |events| && !CrashIn(trace[i], events[i], p)
    ensures SameCount(trace[i], trace[i + 1], p)
  {
    RunInv(trace, events, i);
    RunInv(trace, events, i + 1);
    assert Turn(trace[i], events[i], trace[i + 1]);
    hide IsRun, Turn, CrashIn, SameCount, Core;
    StepCount(trace[i], events[i], trace[i + 1], p);
  }

  /** A breaker appears exactly at the fifth crash of a run in ten minutes, and it has no failed probe. */
  lemma OpensIff(trace: seq<State>, events: seq<Event>, i: nat, p: RepoPath)
    requires IsRun(trace, events) && i < |events| && p !in trace[i].breakers
    ensures p in trace[i + 1].breakers <==>
      && CrashIn(trace[i], events[i], p)
      && var s, r := trace[i], trace[i].bridges[events[i].bridge].owner;
      |Lately(CrashesOf(s.hist, r) + [s.now], s.now)| >= 5
    ensures p in trace[i + 1].breakers ==> OpenedNow(trace[i + 1], p, 0)
  {
    hide Turn, Lately, CrashesOf, BacksOff;
    var s, z, e := trace[i], trace[i + 1], events[i];
    if CrashIn(s, e, p) {
      CrashIs(trace, events, i, s.bridges[e.bridge].owner);
    } else {
      TurnCount(trace, events, i, p);
    }
  }

  /** The probe crashes of a repo among the events `i` to `j - 1`. */
  ghost function FailedProbes(trace: seq<State>, events: seq<Event>, i: nat, j: nat, p: RepoPath): set<nat>
    requires |trace| == |events| + 1 && i <= j < |trace|
  {
    set k: nat | i <= k < j && p in trace[k].breakers && CrashIn(trace[k], events[k], p)
  }

  lemma ProbesGrow(trace: seq<State>, events: seq<Event>, i: nat, j: nat, p: RepoPath)
    requires |trace| == |events| + 1 && i <= j < |events| && p in trace[j].breakers
    ensures |FailedProbes(trace, events, i, j + 1, p)|
      == |FailedProbes(trace, events, i, j, p)| + if CrashIn(trace[j], events[j], p) then 1 else 0
  {
    hide CrashIn;
    var was := FailedProbes(trace, events, i, j, p);
    assert FailedProbes(trace, events, i, j + 1, p) == was + if CrashIn(trace[j], events[j], p) then {j} else {};
  }

  /** Every failed probe is counted, and nothing else: as long as a breaker stays, its count has grown by
      the number of crashes in its repo. */
  lemma {:induction false} FailedProbesAreCounted(
    trace: seq<State>, events: seq<Event>, i: nat, j: nat, p: RepoPath)
    requires IsRun(trace, events) && i <= j < |trace| && forall k | i <= k <= j :: p in trace[k].breakers
    ensures trace[j].breakers[p].failedProbes
      == trace[i].breakers[p].failedProbes + |FailedProbes(trace, events, i, j, p)|
  {
    hide Turn, CrashIn;
    if i == j {
      assert FailedProbes(trace, events, i, j, p) == {};
    } else {
      hide FailedProbes;
      FailedProbesAreCounted(trace, events, i, j - 1, p);
      ProbesGrow(trace, events, i, j - 1, p);
      CountsOnce(trace, events, j - 1, p);
    }
  }

  lemma CountsOnce(trace: seq<State>, events: seq<Event>, k: nat, p: RepoPath)
    requires IsRun(trace, events) && k < |events| && p in trace[k].breakers && p in trace[k + 1].breakers
    ensures trace[k + 1].breakers[p].failedProbes
      == trace[k].breakers[p].failedProbes + if CrashIn(trace[k], events[k], p) then 1 else 0
  {
    hide Turn, Lately, CrashesOf, BacksOff;
    var s, z, e := trace[k], trace[k + 1], events[k];
    if CrashIn(s, e, p) {
      CrashIs(trace, events, k, s.bridges[e.bridge].owner);
    } else {
      TurnCount(trace, events, k, p);
    }
  }

  // ----- Exits that are no crash -----

  /** The run is forgotten; if it was the probe of a half-open breaker, the probe slot is free again. */
  ghost predicate Forgotten(s: State, z: State, r: RunId, b: BridgeId)
    requires r in s.runs
  {
    var p := s.runs[r].repo;
    && z.runs == s.runs - {r} && z.now == s.now && z.bridges - {b} == s.bridges - {b}
    && z.breakers == if p in s.breakers && s.breakers[p].probeRunId == Some(r)
                     then s.breakers[p := s.breakers[p].(probeRunId := None, timer := None)] else s.breakers
  }

  /** A run that the user stopped, or whose bridge ends in order, is dropped and never restarted; in the
      second case its bridge is retired. */
  lemma ExitIs(trace: seq<State>, events: seq<Event>, i: nat, b: BridgeId, clean: bool)
    requires IsRun(trace, events) && i < |events| && events[i] == OnExit(b, clean) && b in trace[i].bridges
    ensures var s, z, r := trace[i], trace[i + 1], trace[i].bridges[b].owner;
      && (r !in s.runs ==> z == s.(bridges := s.bridges[b := s.bridges[b].(exited := true)]))
      && (r in s.runs && (s.runs[r].userStop || clean) ==>
            Forgotten(s, z, r, b) && b in z.bridges && z.bridges[b].stopped)
  {
    RunInv(trace, events, i);
    assert Turn(trace[i], events[i], trace[i + 1]);
    hide IsRun;
    var s, r := trace[i], trace[i].bridges[b].owner;
    if r in s.runs && (s.runs[r].userStop || clean) { ExitForgotten(s, b, clean, r); }
    hide Core, Inv, Forgotten, ForgetRun, StopBridge, TripBreaker, ScheduleRestart, NoteCrash;
  }

  lemma ExitForgotten(s: State, b: BridgeId, clean: bool, r: RunId)
    requires Core(s) && Enabled(s, OnExit(b, clean)) && b in s.bridges && s.bridges[b].owner == r && r in s.runs
    requires s.runs[r].userStop || clean
    ensures var z := BridgeExited(s, b, clean); Forgotten(s, z, r, b) && b in z.bridges && z.bridges[b].stopped
  {
    assert BridgeOk(s, b) && RunOk(s, r);
    hide Core;
    ForgetFields(MarkExited(s, b), r);
  }
}
