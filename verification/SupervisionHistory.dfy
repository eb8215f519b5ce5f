/** What the history variables of the run manager satisfy: crash windows, spawn budget, slot
    budget and the cooldown the breaker has served. */
module SupervisionHistory {
  import opened Wrappers
  import opened Supervision
  import opened SupervisionSafety

  // ----- Crash windows and spawn budget of one run -----

  function SumDelays(n: nat): nat {
    if n == 0 then 0 else SumDelays(n - 1) + BackoffDelay(n - 1)
  }

  predicate SortedUpTo(h: seq<int>, now: int) {
    && (forall i, j | 0 <= i < j < |h| :: h[i] <= h[j])
    && (forall i | 0 <= i < |h| :: h[i] <= now)
  }

  /** After every recorded crash fewer than the threshold lie in the window that it ends. */
  predicate WindowsOpen(h: seq<int>) {
    forall i | 0 < i <= |h| :: |Recent(h[..i], h[i - 1])| < CIRCUIT_THRESHOLD
  }

  predicate CrashesOk(run: Run, h: seq<int>, now: int) {
    && SortedUpTo(h, now)
    && WindowsOpen(h)
    && run.recentCrashes == (if h == [] then [] else Recent(h, h[|h| - 1]))
  }

  predicate BudgetOk(run: Run, spawns: nat, delay: nat) {
    && spawns <= run.restartCount + 1
    && (run.restartTimer.Some? ==> spawns <= run.restartCount)
    && delay == SumDelays(run.restartCount)
    && run.restartCount <= MAX_RESTART_COUNT
  }

  lemma {:induction false} RecentTwice(h: seq<int>, t1: int, t2: int)
    requires t1 <= t2
    ensures Recent(Recent(h, t1), t2) == Recent(h, t2)
  {
    if h != [] {
      var rest := h[..|h| - 1];
      var last := h[|h| - 1];
      RecentTwice(rest, t1, t2);
      if t1 - last < CIRCUIT_WINDOW_MS {
        var x := Recent(rest, t1) + [last];
        assert x[..|x| - 1] == Recent(rest, t1);
      }
    }
  }

  /** Pruning at every crash loses nothing: the kept list is the full history cut to the window. */
  lemma PruneIsExact(h: seq<int>, now: int)
    requires SortedUpTo(h, now)
    ensures var kept := if h == [] then [] else Recent(h, h[|h| - 1]);
      Recent(kept + [now], now) == Recent(h + [now], now)
  {
    var kept := if h == [] then [] else Recent(h, h[|h| - 1]);
    assert (kept + [now])[..|kept|] == kept && (h + [now])[..|h|] == h;
    if h != [] { RecentTwice(h, h[|h| - 1], now); }
  }

  lemma WindowsExtend(h: seq<int>, now: int)
    requires WindowsOpen(h) && |Recent(h + [now], now)| < CIRCUIT_THRESHOLD
    ensures WindowsOpen(h + [now])
  {
    var h' := h + [now];
    forall i | 0 < i <= |h'| ensures |Recent(h'[..i], h'[i - 1])| < CIRCUIT_THRESHOLD {
      if i <= |h| { assert h'[..i] == h[..i]; } else { assert h'[..i] == h'; }
    }
  }

  /** One crash appended to the history of a run that stays tracked. */
  lemma CrashAppended(run: Run, h: seq<int>, now: int)
    requires CrashesOk(run, h, now)
    ensures var kept := Recent(run.recentCrashes + [now], now);
      && kept == Recent(h + [now], now)
      && (|kept| < CIRCUIT_THRESHOLD ==> CrashesOk(run.(recentCrashes := kept), h + [now], now))
  {
    PruneIsExact(h, now);
    if |Recent(h + [now], now)| < CIRCUIT_THRESHOLD { WindowsExtend(h, now); }
  }

  lemma DelayBudget(n: nat)
    requires n <= MAX_RESTART_COUNT
    ensures SumDelays(n) <= 181_000
    ensures n == MAX_RESTART_COUNT ==> SumDelays(n) == 181_000
  {
    assert SumDelays(1) == 1000;
    assert SumDelays(2) == 3000;
    assert SumDelays(3) == 7000;
    assert SumDelays(4) == 15000;
    assert SumDelays(5) == 31000;
    assert SumDelays(6) == 61000;
    assert SumDelays(7) == 91000;
    assert SumDelays(8) == 121000;
    assert SumDelays(9) == 151000;
  }

  // ----- The history invariant -----

  predicate RunHistOk(s: State, r: RunId)
    requires r in s.runs
  {
    && CrashesOk(s.runs[r], CrashesOf(s.hist, r), s.now)
    && BudgetOk(s.runs[r], Count(s.hist.spawns, r), Count(s.hist.delays, r))
  }

  ghost predicate HistOk(s: State) {
    && (forall r :: r in s.runs ==> RunHistOk(s, r))
    && (forall r :: Count(s.hist.spawns, r) <= MAX_RESTART_COUNT + 1 && Count(s.hist.delays, r) <= 181_000)
    && (forall r :: r in s.starts || r !in s.hist.used ==>
      Count(s.hist.spawns, r) == 0 && Count(s.hist.delays, r) == 0 && CrashesOf(s.hist, r) == [])
  }

  /** `z` differs from `s` at most in what it records and tracks about `r`. */
  ghost predicate OnlyRun(s: State, z: State, r: RunId) {
    && z.now == s.now
    && (forall q :: q in z.starts ==> q in s.starts)
    && z.hist.used == s.hist.used
    && z.hist.spawns - {r} == s.hist.spawns - {r}
    && z.hist.delays - {r} == s.hist.delays - {r}
    && z.hist.crashes - {r} == s.hist.crashes - {r}
    && (forall q :: q != r && q in z.runs ==> q in s.runs && z.runs[q] == s.runs[q])
  }

  lemma CountOther<K>(a: map<K, nat>, b: map<K, nat>, k: K, q: K)
    requires a - {k} == b - {k} && q != k
    ensures (q in a <==> q in b) && (q in a ==> a[q] == b[q])
  {
    assert q in a <==> q in a - {k};
    assert q in b <==> q in b - {k};
    if q in a { assert (a - {k})[q] == (b - {k})[q]; }
  }

  lemma CrashesOther(a: map<RunId, seq<int>>, b: map<RunId, seq<int>>, k: RunId, q: RunId)
    requires a - {k} == b - {k} && q != k
    ensures (q in a <==> q in b) && (q in a ==> a[q] == b[q])
  {
    assert q in a <==> q in a - {k};
    assert q in b <==> q in b - {k};
    if q in a { assert (a - {k})[q] == (b - {k})[q]; }
  }

  lemma HistFrame(s: State, z: State, r: RunId)
    requires HistOk(s) && OnlyRun(s, z, r)
    requires r in z.runs ==> RunHistOk(z, r)
    requires Count(z.hist.spawns, r) <= MAX_RESTART_COUNT + 1 && Count(z.hist.delays, r) <= 181_000
    requires r !in z.starts && r in z.hist.used
    ensures HistOk(z)
  {
    forall q | q != r ensures Count(z.hist.spawns, q) == Count(s.hist.spawns, q)
                && Count(z.hist.delays, q) == Count(s.hist.delays, q) && CrashesOf(z.hist, q) == CrashesOf(s.hist, q) {
      CountOther(z.hist.spawns, s.hist.spawns, r, q);
      CountOther(z.hist.delays, s.hist.delays, r, q);
      CrashesOther(z.hist.crashes, s.hist.crashes, r, q);
    }
    forall q | q in z.runs ensures RunHistOk(z, q) { if q != r { assert RunHistOk(s, q); } }
  }

  // ----- The routines keep it -----

  /** `z` dropped or kept run `r` but recorded nothing about it. */
  ghost predicate Unrecorded(s: State, z: State, r: RunId) {
    && OnlyRun(s, z, r)
    && z.hist.spawns == s.hist.spawns && z.hist.delays == s.hist.delays && z.hist.crashes == s.hist.crashes
  }

  lemma UnrecordedHist(s: State, z: State, r: RunId)
    requires HistOk(s) && Unrecorded(s, z, r) && r in s.hist.used && r !in z.starts
    requires r in z.runs ==>
      r in s.runs && z.runs[r].recentCrashes == s.runs[r].recentCrashes
        && z.runs[r].restartCount == s.runs[r].restartCount
      && (z.runs[r].restartTimer.Some? ==> z.runs[r].restartTimer == s.runs[r].restartTimer)
    ensures HistOk(z)
  {
    if r in z.runs { assert RunHistOk(s, r); }
    HistFrame(s, z, r);
  }

  lemma ForgetUnrecorded(s: State, r: RunId)
    ensures Unrecorded(s, ForgetRun(s, r), r) && r !in ForgetRun(s, r).runs
  {
    if r in s.runs {
      var y := Untrack(s, r);
      assert Unrecorded(s, y, r) && r !in y.runs;
      ReleaseKeeps(y, s.runs[r].repo, r);
      hide Untrack, ReleaseProbe;
    }
  }

  lemma ReleaseKeeps(s: State, p: RepoPath, r: RunId)
    ensures var z := ReleaseProbe(s, p, r);
      z.now == s.now && z.runs == s.runs && z.starts == s.starts && z.hist == s.hist
  {
  }

  lemma StopBridgeEffect(s: State, b: Option<BridgeId>)
    ensures StopBridge(s, b) == s.(bridges := StopBridge(s, b).bridges)
  {
  }

  lemma InstallEffect(s: State, p: RepoPath, failed: nat)
    ensures var z := InstallOpen(s, p, failed);
      && z.runs == s.runs && z.starts == s.starts && z.now == s.now && z.hist == s.hist.(firstTrip := z.hist.firstTrip)
  {
  }

  lemma TripUnrecorded(s: State, r: RunId)
    requires r in s.runs
    ensures Unrecorded(s, TripBreaker(s, r), r) && r !in TripBreaker(s, r).runs
  {
    var p := s.runs[r].repo;
    var s1 := ClearTimer(s, BreakerTimer(s, p));
    StopBridgeEffect(s1, s.runs[r].bridge);
    var s2 := Untrack(StopBridge(s1, s.runs[r].bridge), r);
    InstallEffect(s2, p, FailedAfterTrip(s, p));
    assert s2.runs == s.runs - {r} && s2.hist == s.hist.(upSince := s2.hist.upSince);
  }

  lemma StopUnrecorded(s: State, r: RunId)
    ensures Unrecorded(s, StopRequested(s, r), r)
    ensures r in StopRequested(s, r).runs ==>
      r in s.runs && StopRequested(s, r).runs[r]
        == s.runs[r].(userStop := true, restartTimer := None, state := Stopping)
  {
    if r in s.runs {
      var y := StopMarked(s, r);
      assert Unrecorded(s, y, r);
      if s.runs[r].bridge.None? {
        ForgetUnrecorded(y, r);
      } else {
        StopBridgeEffect(y, s.runs[r].bridge);
      }
    }
  }

  lemma SpawnedUnrecorded(s: State, b: BridgeId)
    requires b in s.bridges
    ensures var r := s.bridges[b].owner; var z := BridgeSpawned(s, b);
      Unrecorded(s, z, r) && (r in z.runs ==> r in s.runs && z.runs[r] == s.runs[r].(state := Running))
  {
  }

  predicate GivesUp(s: State, r: RunId)
    requires r in s.runs
  {
    s.runs[r].restartCount >= MAX_RESTART_COUNT
  }

  lemma GiveUpUnrecorded(s: State, r: RunId)
    requires r in s.runs && GivesUp(s, r)
    ensures Unrecorded(s, ScheduleRestart(s, r), r) && r !in ScheduleRestart(s, r).runs
  {
    StopBridgeEffect(s, s.runs[r].bridge);
    ForgetUnrecorded(CloseBridge(s, r), r);
  }

  /** One more restart on the books. */
  lemma ScheduleRecords(s: State, r: RunId)
    requires r in s.runs && !GivesUp(s, r)
    ensures var z := ScheduleRestart(s, r);
      && OnlyRun(s, z, r) && z.hist.spawns == s.hist.spawns && z.hist.crashes == s.hist.crashes
      && r in z.runs && z.runs[r].recentCrashes == s.runs[r].recentCrashes
      && z.runs[r].restartCount == s.runs[r].restartCount + 1
      && z.hist.delays == s.hist.delays[r := Count(s.hist.delays, r) + BackoffDelay(s.runs[r].restartCount)]
  {
  }

  lemma ScheduleHist(s: State, y: State, r: RunId)
    requires HistOk(s) && OnlyRun(s, y, r) && r in y.runs && r in s.hist.used && r !in y.starts
    requires CrashesOk(y.runs[r], CrashesOf(y.hist, r), y.now)
    requires Count(y.hist.spawns, r) <= y.runs[r].restartCount + 1 && y.runs[r].restartCount <= MAX_RESTART_COUNT
    requires Count(y.hist.delays, r) == SumDelays(y.runs[r].restartCount)
    ensures HistOk(ScheduleRestart(y, r))
  {
    hide HistOk, ScheduleRestart, OnlyRun, SumDelays, CrashesOk;
    if GivesUp(y, r) { GiveUpHist(s, y, r); } else { RestartHist(s, y, r); }
  }

  lemma GiveUpHist(s: State, y: State, r: RunId)
    requires HistOk(s) && OnlyRun(s, y, r) && r in y.runs && r in s.hist.used && r !in y.starts
    requires CrashesOk(y.runs[r], CrashesOf(y.hist, r), y.now)
    requires Count(y.hist.spawns, r) <= y.runs[r].restartCount + 1 && y.runs[r].restartCount <= MAX_RESTART_COUNT
    requires Count(y.hist.delays, r) == SumDelays(y.runs[r].restartCount)
    requires GivesUp(y, r)
    ensures HistOk(ScheduleRestart(y, r))
  {
    var z := ScheduleRestart(y, r);
    GiveUpUnrecorded(y, r);
    hide ScheduleRestart;
    DelayBudget(y.runs[r].restartCount);
    assert OnlyRun(s, z, r);
    hide OnlyRun, HistOk;
    HistFrame(s, z, r);
  }

  lemma RestartHist(s: State, y: State, r: RunId)
    requires HistOk(s) && OnlyRun(s, y, r) && r in y.runs && r in s.hist.used && r !in y.starts
    requires CrashesOk(y.runs[r], CrashesOf(y.hist, r), y.now)
    requires Count(y.hist.spawns, r) <= y.runs[r].restartCount + 1 && y.runs[r].restartCount <= MAX_RESTART_COUNT
    requires Count(y.hist.delays, r) == SumDelays(y.runs[r].restartCount)
    requires !GivesUp(y, r)
    ensures HistOk(ScheduleRestart(y, r))
  {
    var z := ScheduleRestart(y, r);
    ScheduleRecords(y, r);
    assert y.runs[r].restartCount < MAX_RESTART_COUNT && z.now == y.now && z.hist.used == y.hist.used
      && z.starts == y.starts;
    hide ScheduleRestart;
    DelayBudget(z.runs[r].restartCount);
    assert OnlyRun(s, z, r);
    hide OnlyRun, HistOk;
    assert RunHistOk(z, r);
    HistFrame(s, z, r);
  }

  lemma SpawnRecords(s: State, r: RunId, o: SpawnOutcome)
    requires r in s.runs
    ensures var y := if o == Started then Spawn(s, r, o) else SpawnFailed(s, r, o);
      && OnlyRun(s, y, r) && y.hist.delays == s.hist.delays && y.hist.crashes == s.hist.crashes
      && y.hist.spawns == s.hist.spawns[r := Count(s.hist.spawns, r) + 1]
      && r in y.runs && y.runs[r].recentCrashes == s.runs[r].recentCrashes
      && y.runs[r].restartCount == s.runs[r].restartCount && y.runs[r].restartTimer == s.runs[r].restartTimer
  {
  }

  lemma SpawnHist(s: State, y: State, r: RunId, o: SpawnOutcome)
    requires HistOk(s) && OnlyRun(s, y, r) && r in y.runs && r in s.hist.used && r !in y.starts
    requires CrashesOk(y.runs[r], CrashesOf(y.hist, r), y.now)
    requires Count(y.hist.spawns, r) <= y.runs[r].restartCount <= MAX_RESTART_COUNT
    requires Count(y.hist.delays, r) == SumDelays(y.runs[r].restartCount) && y.runs[r].restartTimer.None?
    ensures HistOk(Spawn(y, r, o))
  {
    SpawnRecords(y, r, o);
    if o == Started {
      var z := Spawn(y, r, o);
      DelayBudget(y.runs[r].restartCount);
      assert OnlyRun(s, z, r);
      HistFrame(s, z, r);
    } else {
      ScheduleHist(s, SpawnFailed(y, r, o), r);
    }
  }

  // ----- The events keep it -----

  lemma ExitHist(s: State, b: BridgeId, clean: bool)
    requires Core(s) && HistOk(s) && Enabled(s, OnExit(b, clean))
    ensures HistOk(BridgeExited(s, b, clean))
  {
    var r := s.bridges[b].owner;
    var y := MarkExited(s, b);
    if r in s.runs {
      assert RunOk(s, r) && RunHistOk(s, r);
      if s.runs[r].userStop {
        ForgetUnrecorded(y, r);
        UnrecordedHist(s, ForgetRun(y, r), r);
      } else if clean {
        ForgetUnrecorded(y, r);
        StopBridgeEffect(ForgetRun(y, r), s.runs[r].bridge);
        UnrecordedHist(s, StopBridge(ForgetRun(y, r), s.runs[r].bridge), r);
      } else {
        CrashHist(s, y, r);
      }
    }
  }

  lemma CrashHist(s: State, y: State, r: RunId)
    requires HistOk(s) && r in s.runs && r in s.hist.used && r !in s.starts
    requires y == s.(bridges := y.bridges)
    ensures var x := NoteCrash(y, r); HistOk(if MustTrip(x, r) then TripBreaker(x, r) else ScheduleRestart(x, r))
  {
    var x := NoteCrash(y, r);
    assert RunHistOk(s, r);
    NoteCrashRecords(s, y, r);
    if MustTrip(x, r) {
      var z := TripBreaker(x, r);
      TripUnrecorded(x, r);
      OnlyRunTrans(s, x, z, r);
      HistFrame(s, z, r);
    } else {
      ScheduleHist(s, x, r);
    }
  }

  lemma OnlyRunTrans(s: State, y: State, z: State, r: RunId)
    requires OnlyRun(s, y, r) && OnlyRun(y, z, r)
    ensures OnlyRun(s, z, r)
  {
  }

  lemma NoteCrashRecords(s: State, y: State, r: RunId)
    requires r in s.runs && y == s.(bridges := y.bridges) && RunHistOk(s, r)
    ensures var x := NoteCrash(y, r);
      && OnlyRun(s, x, r) && x.hist.spawns == s.hist.spawns && x.hist.delays == s.hist.delays
      && x.runs[r].restartCount == s.runs[r].restartCount
      && CrashesOf(x.hist, r) == CrashesOf(s.hist, r) + [s.now]
      && (!MustTrip(x, r) ==> CrashesOk(x.runs[r], CrashesOf(x.hist, r), x.now))
  {
    var x := NoteCrash(y, r);
    var h := CrashesOf(s.hist, r);
    CrashAppended(s.runs[r], h, s.now);
    if !MustTrip(x, r) { CrashesOkAgain(s.runs[r], x.runs[r], h + [s.now], s.now); }
  }

  lemma CrashesOkAgain(a: Run, b: Run, h: seq<int>, now: int)
    requires CrashesOk(a.(recentCrashes := b.recentCrashes), h, now)
    ensures CrashesOk(b, h, now)
  {
  }

  lemma BackoffHist(s: State, t: TimerId, r: RunId, o: SpawnOutcome)
    requires Core(s) && HistOk(s) && t in s.timers && s.timers[t].alarm == Backoff(r)
    ensures HistOk(BackoffElapsed(s, t, r, o))
  {
    assert TimerOk(s, t) && RunOk(s, r) && RunHistOk(s, r);
    var y := CloseBridge(TakeTimer(s, t, r), r);
    StopBridgeEffect(TakeTimer(s, t, r), s.runs[r].bridge);
    assert OnlyRun(s, y, r);
    CrashesOkAgain(s.runs[r], y.runs[r], CrashesOf(s.hist, r), s.now);
    SpawnHist(s, y, r, o);
  }

  /** A step that only removes runs, or touches fields without a history. */
  ghost predicate Quiet(s: State, z: State) {
    && z.hist.used == s.hist.used && s.now <= z.now
    && z.hist.spawns == s.hist.spawns && z.hist.delays == s.hist.delays && z.hist.crashes == s.hist.crashes
    && (forall q :: q in z.starts ==> q in s.starts)
    && (forall q :: q in z.runs ==> q in s.runs && z.runs[q] == s.runs[q].(lastActivityAt := z.runs[q].lastActivityAt))
  }

  lemma QuietRun(s: State, z: State, q: RunId)
    requires Quiet(s, z) && q in z.runs && RunHistOk(s, q)
    ensures RunHistOk(z, q)
  {
    assert CrashesOf(z.hist, q) == CrashesOf(s.hist, q);
    hide CrashesOf;
  }

  lemma QuietRecords(s: State, z: State, q: RunId)
    requires Quiet(s, z)
    ensures Count(z.hist.spawns, q) == Count(s.hist.spawns, q) && Count(z.hist.delays, q) == Count(s.hist.delays, q)
    ensures CrashesOf(z.hist, q) == CrashesOf(s.hist, q)
  {
  }

  lemma QuietHist(s: State, z: State)
    requires HistOk(s) && Quiet(s, z)
    ensures HistOk(z)
  {
    forall q | q in z.runs ensures RunHistOk(z, q) {
      assert RunHistOk(s, q);
      QuietRun(s, z, q);
    }
    hide RunHistOk;
    forall q: RunId
      ensures Count(z.hist.spawns, q) == Count(s.hist.spawns, q) && Count(z.hist.delays, q) == Count(s.hist.delays, q)
      ensures CrashesOf(z.hist, q) == CrashesOf(s.hist, q)
    {
      QuietRecords(s, z, q);
    }
    hide Count, CrashesOf;
  }

  lemma TimerQuiet(s: State, t: TimerId, o: SpawnOutcome)
    requires t in s.timers && !s.timers[t].alarm.Backoff?
    ensures Quiet(s, TimerFired(s, t, o))
  {
    var y := s.(timers := s.timers - {t});
    match s.timers[t].alarm {
      case Cooldown(p) => assert Quiet(s, GoHalfOpen(y, p));
      case Survival(p, r) => CloseQuiet(y, p); assert Quiet(s, y);
    }
  }

  lemma CloseQuiet(s: State, p: RepoPath)
    ensures CloseBreaker(s, p).runs == s.runs && Quiet(s, CloseBreaker(s, p))
  {
  }

  lemma StartQuiet(s: State, r: RunId, dead: set<RunId>)
    ensures Quiet(s, EvictAll(s.(starts := s.starts - {r}), dead))
    ensures r !in EvictAll(s.(starts := s.starts - {r}), dead).starts
  {
  }

  lemma AdmitRecords(s: State, r: RunId, p: RepoPath)
    requires r !in s.runs
    ensures var y := Admit(s, r, p);
      && Unrecorded(s, y, r) && y.starts == s.starts && r in y.runs && y.runs[r] == NewRun(p, s.now)
  {
  }

  lemma FreshCounts(s: State, r: RunId)
    requires HistOk(s) && r in s.starts && r in s.hist.used && r !in s.runs
    ensures Count(s.hist.spawns, r) == 0 && Count(s.hist.delays, r) == 0 && CrashesOf(s.hist, r) == []
  {
  }

  lemma StartHist(s: State, r: RunId, ok: bool, alive: set<BridgeId>, o: SpawnOutcome)
    requires HistOk(s) && r in s.starts && r in s.hist.used && r !in s.runs
    ensures HistOk(StartContinued(s, r, ok, alive, o))
  {
    var s0 := s.(starts := s.starts - {r});
    var s1 := EvictAll(s0, StrandedRuns(s, alive));
    StartQuiet(s, r, StrandedRuns(s, alive));
    assert r !in s1.runs && r in s1.hist.used && r !in s1.starts && s1.hist.spawns == s.hist.spawns;
    assert s1.hist.delays == s.hist.delays && s1.hist.crashes == s.hist.crashes;
    assert Quiet(s, s0) && Quiet(s, s1);
    StartOutcome(s, r, ok, alive, o);
    FreshCounts(s, r);
    hide *;
    QuietHist(s, s0);
    QuietHist(s, s1);
    if Decide(s, r, ok, alive) == Admitted {
      SameCrashes(s, s1, r);
      AdmittedHist(s1, r, s.starts[r], o);
    }
  }

  lemma SameCrashes(s: State, z: State, r: RunId)
    requires z.hist.crashes == s.hist.crashes
    ensures CrashesOf(z.hist, r) == CrashesOf(s.hist, r)
  {
  }

  lemma AdmittedHist(s: State, r: RunId, p: RepoPath, o: SpawnOutcome)
    requires HistOk(s) && r !in s.runs && r in s.hist.used && r !in s.starts
    requires Count(s.hist.spawns, r) == 0 && Count(s.hist.delays, r) == 0 && CrashesOf(s.hist, r) == []
    ensures HistOk(Spawn(Admit(s, r, p), r, o))
  {
    AdmitRecords(s, r, p);
    SpawnHist(s, Admit(s, r, p), r, o);
  }

  lemma OtherHist(s: State, e: Event)
    requires HistOk(s) && Enabled(s, e) && Fresh(s, e)
    requires e.StartCall? || e.Activity? || e.Tick? || (e.TimerDue? && !s.timers[e.timer].alarm.Backoff?)
    ensures HistOk(Step(s, e))
  {
    hide HistOk;
    match e {
      case StartCall(r, p) => if r !in s.runs { StartCallHist(s, r, p); }
      case TimerDue(t, o) => TimerQuiet(s, t, o); QuietHist(s, TimerFired(s, t, o));
      case Activity(r) => QuietHist(s, ActivitySeen(s, r));
      case Tick(d) => QuietHist(s, s.(now := s.now + d));
    }
  }

  lemma StopHist(s: State, r: RunId)
    requires HistOk(s) && r in s.hist.used && r !in s.starts
    ensures HistOk(StopRequested(s, r)) && HistOk(StopSettled(s, r))
  {
    StopUnrecorded(s, r);
    UnrecordedHist(s, StopRequested(s, r), r);
    ForgetUnrecorded(s.(stops := s.stops - multiset{r}), r);
    UnrecordedHist(s, StopSettled(s, r), r);
  }

  lemma SpawnedHist(s: State, b: BridgeId)
    requires HistOk(s) && b in s.bridges && s.bridges[b].owner in s.hist.used && s.bridges[b].owner !in s.starts
    ensures HistOk(BridgeSpawned(s, b))
  {
    SpawnedUnrecorded(s, b);
    UnrecordedHist(s, BridgeSpawned(s, b), s.bridges[b].owner);
  }

  lemma StepHist(s: State, e: Event)
    requires Core(s) && HistOk(s) && Enabled(s, e) && Fresh(s, e)
    ensures HistOk(Step(s, e))
  {
    EventRunKnown(s, e);
    match e {
      case StartResumes(r, ok, alive, o) => StartHist(s, r, ok, alive, o);
      case OnExit(b, clean) => ExitHist(s, b, clean);
      case OnSpawned(b) => SpawnedHist(s, b);
      case StopCall(r) => if r in s.runs { StopHist(s, r); }
      case StopResumes(r) => StopHist(s, r);
      case TimerDue(t, o) =>
        if s.timers[t].alarm.Backoff? {
          BackoffHist(s, t, s.timers[t].alarm.runId, o);
        } else {
          OtherHist(s, e);
        }
      case _ => OtherHist(s, e);
    }
  }

  lemma EventRunKnown(s: State, e: Event)
    requires Core(s) && Enabled(s, e)
    ensures e.StartResumes? ==> e.run in s.hist.used && e.run !in s.runs
    ensures e.OnSpawned? ==> s.bridges[e.bridge].owner in s.hist.used && s.bridges[e.bridge].owner !in s.starts
    ensures (e.StopCall? && e.run in s.runs) || e.StopResumes? ==> e.run in s.hist.used && e.run !in s.starts
  {
    if e.OnSpawned? { assert BridgeOk(s, e.bridge) && RunOk(s, s.bridges[e.bridge].owner); }
    if e.StopCall? && e.run in s.runs { assert RunOk(s, e.run); }
  }

  lemma StartCallHist(s: State, r: RunId, p: RepoPath)
    requires HistOk(s) && r !in s.runs && r !in s.hist.used
    ensures HistOk(StartRequested(s, r, p))
  {
    var z := StartRequested(s, r, p);
    forall q | q in z.runs ensures RunHistOk(z, q) { assert RunHistOk(s, q); }
  }

  // ----- The slot budget -----

  /** Active runs that were never restarted. */
  function FirstTimers(s: State): set<RunId> {
    set r | r in s.runs && Active(s.runs[r]) && s.runs[r].restartCount == 0
  }

  predicate CapOk(s: State) { |FirstTimers(s)| <= s.cap }

  lemma SubsetCard<T>(a: set<T>, b: set<T>)
    requires a <= b
    ensures |a| <= |b|
  {
    assert b == a + (b - a);
  }

  lemma CapShrinks(s: State, z: State)
    requires CapOk(s) && z.cap == s.cap && FirstTimers(z) <= FirstTimers(s)
    ensures CapOk(z)
  {
    SubsetCard(FirstTimers(z), FirstTimers(s));
  }

  predicate SameQueue(s: State, z: State) {
    z.cap == s.cap && z.starts == s.starts
  }

  lemma ForgetKeepsQueue(s: State, r: RunId)
    ensures SameQueue(s, ForgetRun(s, r))
  {
  }

  lemma ScheduleKeepsQueue(s: State, r: RunId)
    requires r in s.runs
    ensures SameQueue(s, ScheduleRestart(s, r))
  {
    StopBridgeEffect(s, s.runs[r].bridge);
    ForgetKeepsQueue(CloseBridge(s, r), r);
    hide ForgetRun, StopBridge;
  }

  lemma SpawnKeepsQueue(s: State, r: RunId, o: SpawnOutcome)
    requires r in s.runs
    ensures SameQueue(s, Spawn(s, r, o))
  {
    if o != Started { ScheduleKeepsQueue(SpawnFailed(s, r, o), r); }
    hide ScheduleRestart;
  }

  lemma TripKeepsQueue(s: State, r: RunId)
    requires r in s.runs
    ensures SameQueue(s, TripBreaker(s, r))
  {
    StopBridgeEffect(ClearTimer(s, BreakerTimer(s, s.runs[r].repo)), s.runs[r].bridge);
    hide StopBridge, CooldownFor, BreakerTimer, FailedAfterTrip;
  }

  lemma ExitKeepsQueue(s: State, b: BridgeId, clean: bool)
    requires b in s.bridges
    ensures SameQueue(s, BridgeExited(s, b, clean))
  {
    var r := s.bridges[b].owner;
    var y := MarkExited(s, b);
    if r in s.runs {
      ForgetKeepsQueue(y, r);
      StopBridgeEffect(ForgetRun(y, r), s.runs[r].bridge);
      TripKeepsQueue(NoteCrash(y, r), r);
      ScheduleKeepsQueue(NoteCrash(y, r), r);
    }
    hide ForgetRun, StopBridge, TripBreaker, ScheduleRestart, MustTrip;
  }

  lemma TimerKeepsQueue(s: State, t: TimerId, o: SpawnOutcome)
    requires t in s.timers
    ensures SameQueue(s, TimerFired(s, t, o))
  {
    if s.timers[t].alarm.Backoff? && s.timers[t].alarm.runId in s.runs {
      var r := s.timers[t].alarm.runId;
      StopBridgeEffect(TakeTimer(s, t, r), s.runs[r].bridge);
      SpawnKeepsQueue(CloseBridge(TakeTimer(s, t, r), r), r, o);
    }
    hide Spawn, StopBridge;
  }

  lemma StopKeepsQueue(s: State, r: RunId)
    ensures SameQueue(s, StopRequested(s, r)) && SameQueue(s, StopSettled(s, r))
  {
    if r in s.runs {
      StopBridgeEffect(StopMarked(s, r), s.runs[r].bridge);
      ForgetKeepsQueue(StopMarked(s, r), r);
    }
    ForgetKeepsQueue(s.(stops := s.stops - multiset{r}), r);
    hide ForgetRun, StopBridge;
  }

  lemma StartQueue(s: State, r: RunId, ok: bool, alive: set<BridgeId>, o: SpawnOutcome)
    requires r in s.starts
    ensures var z := StartContinued(s, r, ok, alive, o); z.cap == s.cap && z.starts == s.starts - {r}
  {
    SpawnKeepsQueue(Admit(EvictAll(s.(starts := s.starts - {r}), StrandedRuns(s, alive)), r, s.starts[r]), r, o);
    hide Spawn, Decide, StrandedRuns;
  }

  /** The cap does not change, and only the two halves of a `start` change the starts under way. */
  lemma StepQueue(s: State, e: Event)
    requires Enabled(s, e)
    ensures Step(s, e).cap == s.cap
    ensures Step(s, e).starts == match e
      case StartCall(r, p) => if r in s.runs then s.starts else s.starts[r := p]
      case StartResumes(r, ok, alive, o) => s.starts - {r}
      case _ => s.starts
  {
    match e {
      case OnExit(b, clean) => ExitKeepsQueue(s, b, clean);
      case TimerDue(t, o) => TimerKeepsQueue(s, t, o);
      case StartResumes(r, ok, alive, o) => StartQueue(s, r, ok, alive, o);
      case StopCall(r) => StopKeepsQueue(s, r);
      case StopResumes(r) => StopKeepsQueue(s, r);
      case _ =>
    }
    hide BridgeExited, TimerFired, StartContinued, StopRequested, StopSettled, CooldownFor;
  }

  lemma OnlyRunFirstTimers(s: State, z: State, r: RunId)
    requires forall q :: q != r && q in z.runs ==> q in s.runs && z.runs[q] == s.runs[q]
    requires r in z.runs && Active(z.runs[r]) && z.runs[r].restartCount == 0 ==>
      r in s.runs && Active(s.runs[r]) && s.runs[r].restartCount == 0
    ensures FirstTimers(z) <= FirstTimers(s)
  {
  }

  /** A respawn is never a first timer: its run was restarted at least once. */
  lemma RespawnRestarted(s: State, y: State, r: RunId, o: SpawnOutcome)
    requires OnlyRun(s, y, r) && r in y.runs && y.runs[r].restartCount >= 1
    ensures var z := Spawn(y, r, o);
      && (forall q :: q != r && q in z.runs ==> q in s.runs && z.runs[q] == s.runs[q])
      && (r in z.runs ==> z.runs[r].restartCount >= 1)
  {
    SpawnRecords(y, r, o);
    if o != Started {
      var x := SpawnFailed(y, r, o);
      if GivesUp(x, r) { GiveUpUnrecorded(x, r); } else { ScheduleRecords(x, r); }
    }
  }

  lemma ExitFirstTimers(s: State, b: BridgeId, clean: bool)
    requires Core(s) && Enabled(s, OnExit(b, clean))
    ensures FirstTimers(BridgeExited(s, b, clean)) <= FirstTimers(s)
  {
    var r := s.bridges[b].owner;
    var y := MarkExited(s, b);
    var z := BridgeExited(s, b, clean);
    if r in s.runs {
      var x := NoteCrash(y, r);
      if s.runs[r].userStop {
        ForgetUnrecorded(y, r);
      } else if clean {
        ForgetUnrecorded(y, r);
        StopBridgeEffect(ForgetRun(y, r), s.runs[r].bridge);
      } else if MustTrip(x, r) {
        TripUnrecorded(x, r);
      } else if GivesUp(x, r) {
        GiveUpUnrecorded(x, r);
      } else {
        ScheduleRecords(x, r);
      }
      OnlyRunFirstTimers(s, z, r);
    }
  }

  lemma BackoffFirstTimers(s: State, t: TimerId, r: RunId, o: SpawnOutcome)
    requires Core(s) && t in s.timers && s.timers[t].alarm == Backoff(r)
    ensures FirstTimers(BackoffElapsed(s, t, r, o)) <= FirstTimers(s)
  {
    assert TimerOk(s, t) && RunOk(s, r);
    var y := CloseBridge(TakeTimer(s, t, r), r);
    StopBridgeEffect(TakeTimer(s, t, r), s.runs[r].bridge);
    assert OnlyRun(s, y, r);
    RespawnRestarted(s, y, r, o);
    OnlyRunFirstTimers(s, BackoffElapsed(s, t, r, o), r);
  }

  lemma SpawnedFirstTimers(s: State, b: BridgeId)
    requires Core(s) && Enabled(s, OnSpawned(b))
    ensures FirstTimers(BridgeSpawned(s, b)) <= FirstTimers(s)
  {
    var r := s.bridges[b].owner;
    assert BridgeOk(s, b) && RunOk(s, r);
    SpawnedUnrecorded(s, b);
    OnlyRunFirstTimers(s, BridgeSpawned(s, b), r);
  }

  lemma OtherFirstTimers(s: State, e: Event)
    requires Enabled(s, e) && (e.StartCall? || e.StopCall? || e.StopResumes? || e.Activity? || e.Tick?)
    ensures FirstTimers(Step(s, e)) <= FirstTimers(s)
  {
    match e {
      case StopCall(r) => StopUnrecorded(s, r); OnlyRunFirstTimers(s, StopRequested(s, r), r);
      case StopResumes(r) =>
        ForgetUnrecorded(s.(stops := s.stops - multiset{r}), r);
        OnlyRunFirstTimers(s, StopSettled(s, r), r);
      case StartCall(r, p) =>
      case Activity(r) =>
      case Tick(d) =>
    }
  }

  lemma AdmittedBelowCap(s: State, r: RunId, ok: bool, alive: set<BridgeId>)
    requires r in s.starts && Decide(s, r, ok, alive) == Admitted
    ensures |ActiveRuns(EvictAll(s.(starts := s.starts - {r}), StrandedRuns(s, alive)))| < s.cap
  {
    var dead := StrandedRuns(s, alive);
    assert ActiveRuns(EvictAll(s.(starts := s.starts - {r}), dead)) == ActiveRuns(EvictAll(s, dead));
  }

  lemma FewerFirstTimers(s: State, r: RunId, dead: set<RunId>)
    ensures FirstTimers(s.(starts := s.starts - {r})) <= FirstTimers(s)
    ensures FirstTimers(EvictAll(s.(starts := s.starts - {r}), dead)) <= FirstTimers(s)
    ensures FirstTimers(EvictAll(s, dead)) <= ActiveRuns(EvictAll(s, dead))
  {
  }

  lemma StartCap(s: State, r: RunId, ok: bool, alive: set<BridgeId>, o: SpawnOutcome)
    requires Core(s) && CapOk(s) && r in s.starts
    ensures |FirstTimers(StartContinued(s, r, ok, alive, o))| <= s.cap
  {
    var z := StartContinued(s, r, ok, alive, o);
    var s0 := s.(starts := s.starts - {r});
    var s1 := EvictAll(s0, StrandedRuns(s, alive));
    StartOutcome(s, r, ok, alive, o);
    FewerFirstTimers(s, r, StrandedRuns(s, alive));
    FewerFirstTimers(s0, r, StrandedRuns(s, alive));
    if Decide(s, r, ok, alive) == Admitted {
      AdmittedBelowCap(s, r, ok, alive);
      AdmittedFirstTimers(s1, r, s.starts[r], o);
      hide Core, StartContinued, EvictAll, StrandedRuns, Decide, FirstTimers, ActiveRuns, Spawn, Admit;
      SubsetCard(FirstTimers(s1), ActiveRuns(s1));
      SubsetCard(FirstTimers(z), FirstTimers(s1) + {r});
    } else {
      hide Core, StartContinued, EvictAll, StrandedRuns, Decide, FirstTimers, ActiveRuns, Spawn, Admit;
      SubsetCard(FirstTimers(z), FirstTimers(s));
    }
  }

  lemma AdmittedFirstTimers(s: State, r: RunId, p: RepoPath, o: SpawnOutcome)
    requires r !in s.runs
    ensures FirstTimers(Spawn(Admit(s, r, p), r, o)) <= FirstTimers(s) + {r}
  {
    var y := Admit(s, r, p);
    AdmitRecords(s, r, p);
    SpawnRecords(y, r, o);
    if o != Started {
      var x := SpawnFailed(y, r, o);
      if GivesUp(x, r) { GiveUpUnrecorded(x, r); } else { ScheduleRecords(x, r); }
    }
  }

  lemma StepCap(s: State, e: Event)
    requires Core(s) && CapOk(s) && Enabled(s, e)
    ensures CapOk(Step(s, e))
  {
    StepQueue(s, e);
    match e {
      case StartResumes(r, ok, alive, o) => StartCap(s, r, ok, alive, o);
      case OnSpawned(b) => SpawnedFirstTimers(s, b); CapShrinks(s, Step(s, e));
      case OnExit(b, clean) => ExitFirstTimers(s, b, clean); CapShrinks(s, Step(s, e));
      case TimerDue(t, o) =>
        if s.timers[t].alarm.Backoff? {
          BackoffFirstTimers(s, t, s.timers[t].alarm.runId, o);
        } else {
          TimerQuiet(s, t, o);
        }
        CapShrinks(s, Step(s, e));
      case StartCall(_, _) => OtherFirstTimers(s, e); CapShrinks(s, Step(s, e));
      case StopCall(_) => OtherFirstTimers(s, e); CapShrinks(s, Step(s, e));
      case StopResumes(_) => OtherFirstTimers(s, e); CapShrinks(s, Step(s, e));
      case Activity(_) => OtherFirstTimers(s, e); CapShrinks(s, Step(s, e));
      case Tick(_) => OtherFirstTimers(s, e); CapShrinks(s, Step(s, e));
    }
  }
}
