/** The run manager of the supervisor as a state machine.

    A `State` holds the two maps of the manager (`runs`, `breakers`), the environment it talks
    to (armed timers, bridge objects, the continuations of `start` and `stop` that wait for an
    `await`), and a `History` that only records what happened. Every function below is one
    routine of the manager; `Step` is one turn of its event loop. */
module Supervision {
  import opened Wrappers

  type RunId = string
  type RepoPath = string
  type BridgeId = nat
  type TimerId = nat

  const BACKOFF_SCHEDULE: seq<nat> := [1000, 2000, 4000, 8000, 16000, 30000]
  const CIRCUIT_WINDOW_MS: int := 600_000
  const CIRCUIT_THRESHOLD: nat := 5
  const CIRCUIT_COOLDOWN_MS: int := 300_000
  const CIRCUIT_MAX_COOLDOWN_MS: int := 1_800_000
  const CIRCUIT_MAX_PROBES: nat := 5
  const CIRCUIT_PROBE_HEALTHY_MS: int := 30_000
  const MAX_RESTART_COUNT: nat := 10
  const SLOT_STALE_GRACE_MS: int := 30_000

  datatype ProcState = Idle | Starting | Running | Stopping | Crashed | Stopped

  datatype Run = Run(
    repo: RepoPath,
    bridge: Option<BridgeId>,
    state: ProcState,
    restartCount: nat,
    recentCrashes: seq<int>,
    restartTimer: Option<TimerId>,
    userStop: bool,
    startedAt: int,
    lastActivityAt: Option<int>)

  datatype BreakerState = Open | HalfOpen

  datatype Breaker = Breaker(
    state: BreakerState,
    openedAt: int,
    failedProbes: nat,
    timer: Option<TimerId>,
    probeRunId: Option<RunId>)

  /** What an armed `setTimeout` will call. */
  datatype Alarm =
    | Backoff(runId: RunId)
    | Cooldown(repo: RepoPath)
    | Survival(probeRepo: RepoPath, probe: RunId)

  datatype Timer = Timer(due: int, alarm: Alarm)

  /** A bridge as the manager can observe it: `live` when its `start` returned, `spawned` and
      `exited` once it made the call of that name, `stopped` once `stop` was invoked on it. */
  datatype Bridge = Bridge(owner: RunId, live: bool, spawned: bool, exited: bool, stopped: bool)

  /** History variables; no routine of the manager reads them. */
  datatype History = History(
    used: set<RunId>,                 // run ids that were ever started
    spawns: map<RunId, nat>,          // calls of `spawn` per run
    delays: map<RunId, nat>,          // sum of the backoff delays armed per run
    crashes: map<RunId, seq<int>>,    // times of all bridge-exit crashes per run
    upSince: map<RunId, int>,         // when the current bridge of a live run spawned its CLI
    firstTrip: map<RepoPath, int>)    // when the present breaker of a repo first opened

  datatype State = State(
    now: int,
    cap: nat,
    runs: map<RunId, Run>,
    breakers: map<RepoPath, Breaker>,
    timers: map<TimerId, Timer>,
    nextTimer: TimerId,
    bridges: map<BridgeId, Bridge>,
    nextBridge: BridgeId,
    starts: map<RunId, RepoPath>,     // `start` calls awaiting the sandbox check
    stops: multiset<RunId>,           // `stop` calls awaiting `bridge.stop()`
    hist: History)

  function Init(now: int, cap: nat): State {
    State(now, cap, map[], map[], map[], 0, map[], 0, map[], multiset{},
          History({}, map[], map[], map[], map[], map[]))
  }

  // ----- Small queries -----

  predicate Active(run: Run) {
    run.state == Starting || run.state == Running
  }

  predicate Occupying(run: Run) {
    Active(run) || run.state == Crashed
  }

  function Min(a: int, b: int): int {
    if a < b then a else b
  }

  function Pow2(n: nat): nat {
    if n == 0 then 1 else 2 * Pow2(n - 1)
  }

  function CooldownFor(failedProbes: nat): int {
    Min(CIRCUIT_COOLDOWN_MS * Pow2(failedProbes), CIRCUIT_MAX_COOLDOWN_MS)
  }

  function BackoffDelay(restartCount: nat): nat {
    if restartCount < |BACKOFF_SCHEDULE| then BACKOFF_SCHEDULE[restartCount]
    else BACKOFF_SCHEDULE[|BACKOFF_SCHEDULE| - 1]
  }

  /** The crash times that lie in the sliding window ending at `now`. */
  function Recent(crashes: seq<int>, now: int): seq<int> {
    if crashes == [] then []
    else
      var rest := Recent(crashes[..|crashes| - 1], now);
      var last := crashes[|crashes| - 1];
      if now - last < CIRCUIT_WINDOW_MS then rest + [last] else rest
  }

  predicate BridgeHealthy(s: State, run: Run, alive: set<BridgeId>) {
    run.bridge.Some? && run.bridge.value in alive
    && run.bridge.value in s.bridges && s.bridges[run.bridge.value].spawned
  }

  function LastSeen(run: Run): int {
    if run.lastActivityAt.Some? then run.lastActivityAt.value else run.startedAt
  }

  /** `alive` holds the bridges whose `isAlive()` answers true. */
  predicate IsStranded(s: State, run: Run, alive: set<BridgeId>) {
    && Active(run)
    && !BridgeHealthy(s, run, alive)
    && s.now - LastSeen(run) >= SLOT_STALE_GRACE_MS
  }

  function StrandedRuns(s: State, alive: set<BridgeId>): set<RunId> {
    set r | r in s.runs && IsStranded(s, s.runs[r], alive)
  }

  function ActiveRuns(s: State): set<RunId> {
    set r | r in s.runs && Active(s.runs[r])
  }

  predicate CrashedPending(s: State, repo: RepoPath) {
    exists r :: r in s.runs && s.runs[r].state == Crashed && s.runs[r].repo == repo
  }

  predicate OtherActive(s: State, repo: RepoPath, self: RunId) {
    exists r :: r in s.runs && r != self && Active(s.runs[r]) && s.runs[r].repo == repo
  }

  // ----- Routines -----

  function ClearTimer(s: State, t: Option<TimerId>): State {
    if t.None? then s else s.(timers := s.timers - {t.value})
  }

  /** `setTimeout`: the handle of the new timer is the `nextTimer` of `s`. */
  function Arm(s: State, delay: int, alarm: Alarm): State {
    s.(timers := s.timers[s.nextTimer := Timer(s.now + delay, alarm)], nextTimer := s.nextTimer + 1)
  }

  function StopBridge(s: State, b: Option<BridgeId>): State {
    if b.None? || b.value !in s.bridges then s
    else s.(bridges := s.bridges[b.value := s.bridges[b.value].(stopped := true)])
  }

  function CloseBridge(s: State, r: RunId): State
    requires r in s.runs
  {
    StopBridge(s, s.runs[r].bridge).(runs := s.runs[r := s.runs[r].(bridge := None)])
  }

  /** `runs.delete`. */
  function Untrack(s: State, r: RunId): State {
    s.(runs := s.runs - {r}, hist := s.hist.(upSince := s.hist.upSince - {r}))
  }

  function BreakerTimer(s: State, repo: RepoPath): Option<TimerId> {
    if repo in s.breakers then s.breakers[repo].timer else None
  }

  /** Free the probe slot of `repo` if `r` holds it. */
  function ReleaseProbe(s: State, repo: RepoPath, r: RunId): State {
    if repo in s.breakers && s.breakers[repo].probeRunId == Some(r) then
      ClearTimer(s, s.breakers[repo].timer).(
      breakers := s.breakers[repo := s.breakers[repo].(probeRunId := None, timer := None)])
    else s
  }

  function ForgetRun(s: State, r: RunId): State {
    if r !in s.runs then s else ReleaseProbe(Untrack(s, r), s.runs[r].repo, r)
  }

  /** The failed-probe count of the breaker that a trip installs. */
  function FailedAfterTrip(s: State, repo: RepoPath): nat {
    if repo !in s.breakers then 0
    else if s.breakers[repo].state == HalfOpen then s.breakers[repo].failedProbes + 1
    else s.breakers[repo].failedProbes
  }

  function InstallOpen(s: State, repo: RepoPath, failed: nat): State {
    var b := Breaker(Open, s.now, failed, None, None);
    var h := if repo in s.breakers then s.hist else s.hist.(firstTrip := s.hist.firstTrip[repo := s.now]);
    if failed >= CIRCUIT_MAX_PROBES then s.(breakers := s.breakers[repo := b], hist := h)
    else
      Arm(s.(breakers := s.breakers[repo := b.(timer := Some(s.nextTimer))], hist := h),
          CooldownFor(failed), Cooldown(repo))
  }

  /** Open (or re-open) the breaker of the run's repo and drop the run. */
  function TripBreaker(s: State, r: RunId): State
    requires r in s.runs
  {
    var repo := s.runs[r].repo;
    var s1 := StopBridge(ClearTimer(s, BreakerTimer(s, repo)), s.runs[r].bridge);
    InstallOpen(Untrack(s1, r), repo, FailedAfterTrip(s, repo))
  }

  function GoHalfOpen(s: State, repo: RepoPath): State {
    if repo !in s.breakers then s
    else s.(breakers := s.breakers[repo := s.breakers[repo].(timer := None, state := HalfOpen, probeRunId := None)])
  }

  function NoteProbeSpawned(s: State, repo: RepoPath, r: RunId): State {
    if repo !in s.breakers || s.breakers[repo].state != HalfOpen || s.breakers[repo].probeRunId != Some(r) then s
    else
      var s1 := ClearTimer(s, s.breakers[repo].timer);
      Arm(s1.(breakers := s1.breakers[repo := s1.breakers[repo].(timer := Some(s1.nextTimer))]),
          CIRCUIT_PROBE_HEALTHY_MS, Survival(repo, r))
  }

  function CloseBreaker(s: State, repo: RepoPath): State {
    if repo !in s.breakers then s
    else
      ClearTimer(s, BreakerTimer(s, repo)).(
      breakers := s.breakers - {repo},
      hist := s.hist.(firstTrip := s.hist.firstTrip - {repo}))
  }

  function Count(m: map<RunId, nat>, r: RunId): nat {
    if r in m then m[r] else 0
  }

  function CrashesOf(h: History, r: RunId): seq<int> {
    if r in h.crashes then h.crashes[r] else []
  }

  function ScheduleRestart(s: State, r: RunId): State
    requires r in s.runs
  {
    var run := s.runs[r];
    if run.restartCount >= MAX_RESTART_COUNT then
      ForgetRun(CloseBridge(s, r), r)
    else
      var delay := BackoffDelay(run.restartCount);
      var run' := run.(restartCount := run.restartCount + 1, state := Crashed, restartTimer := Some(s.nextTimer));
      var h := s.hist.(upSince := s.hist.upSince - {r}, delays := s.hist.delays[r := Count(s.hist.delays, r) + delay]);
      Arm(s.(runs := s.runs[r := run'], hist := h), delay, Backoff(r))
  }

  /** How constructing and starting a bridge ends. */
  datatype SpawnOutcome = Started | StartThrew | ConstructThrew

  function NoteSpawn(h: History, r: RunId): History {
    h.(upSince := h.upSince - {r}, spawns := h.spawns[r := Count(h.spawns, r) + 1])
  }

  /** The state in which a spawn that threw hands the run to `ScheduleRestart`. */
  function SpawnFailed(s: State, r: RunId, outcome: SpawnOutcome): State
    requires r in s.runs
  {
    if outcome == ConstructThrew
    then s.(runs := s.runs[r := s.runs[r].(state := Crashed)], hist := NoteSpawn(s.hist, r))
    else
      var b := s.nextBridge;
      s.(runs := s.runs[r := s.runs[r].(state := Crashed, bridge := Some(b))],
         bridges := s.bridges[b := Bridge(r, false, false, false, false)], nextBridge := b + 1,
         hist := NoteSpawn(s.hist, r))
  }

  function Spawn(s: State, r: RunId, outcome: SpawnOutcome): State
    requires r in s.runs
  {
    if outcome != Started then ScheduleRestart(SpawnFailed(s, r, outcome), r)
    else
      var b := s.nextBridge;
      s.(runs := s.runs[r := s.runs[r].(state := Starting, bridge := Some(b))],
         bridges := s.bridges[b := Bridge(r, true, false, false, false)], nextBridge := b + 1,
         hist := NoteSpawn(s.hist, r))
  }

  /** The reconciler, for all the stranded runs at once: each loses its timer, its bridge and its
      entry, and releases the probe slot it may hold. */
  function EvictAll(s: State, dead: set<RunId>): State {
    s.(runs := s.runs - dead,
       bridges := map b | b in s.bridges ::
         if EvictedBridge(s, dead, b) then s.bridges[b].(stopped := true) else s.bridges[b],
       timers := map t | t in s.timers && !EvictedTimer(s, dead, t) :: s.timers[t],
       breakers := map p | p in s.breakers ::
         if EvictedProbe(s, dead, p) then s.breakers[p].(probeRunId := None, timer := None) else s.breakers[p],
       hist := s.hist.(upSince := s.hist.upSince - (dead * s.runs.Keys)))
  }

  predicate EvictedBridge(s: State, dead: set<RunId>, b: BridgeId) {
    exists r :: r in dead && r in s.runs && s.runs[r].bridge == Some(b)
  }

  predicate EvictedProbe(s: State, dead: set<RunId>, p: RepoPath) {
    && p in s.breakers
    && s.breakers[p].probeRunId.Some?
    && s.breakers[p].probeRunId.value in dead
    && s.breakers[p].probeRunId.value in s.runs
    && s.runs[s.breakers[p].probeRunId.value].repo == p
  }

  predicate EvictedTimer(s: State, dead: set<RunId>, t: TimerId) {
    || (exists r :: r in dead && r in s.runs && s.runs[r].restartTimer == Some(t))
    || (exists p :: p in s.breakers && EvictedProbe(s, dead, p) && s.breakers[p].timer == Some(t))
  }

  // ----- The event handlers -----

  datatype Verdict =
    | Admitted
    | SandboxRefused
    | CircuitOpen
    | DuplicateRun
    | ConcurrencyCap

  /** What `start` answers once the sandbox check settled. */
  function Decide(s: State, r: RunId, sandboxOk: bool, alive: set<BridgeId>): Verdict
    requires r in s.starts
  {
    var repo := s.starts[r];
    if !sandboxOk then SandboxRefused
    else if BreakerRefuses(s, repo, r) then CircuitOpen
    else if CrashedPending(s, repo) then DuplicateRun
    else
      var s1 := EvictAll(s, StrandedRuns(s, alive));
      if OtherActive(s1, repo, r) then DuplicateRun
      else if |ActiveRuns(s1)| >= s.cap then ConcurrencyCap
      else Admitted
  }

  predicate BreakerRefuses(s: State, repo: RepoPath, r: RunId) {
    repo in s.breakers &&
    var b := s.breakers[repo];
    b.state == Open || (b.probeRunId.Some? && b.probeRunId.value != r)
  }

  function ClaimProbe(s: State, repo: RepoPath, r: RunId): State {
    if repo in s.breakers && s.breakers[repo].state == HalfOpen && s.breakers[repo].probeRunId == None
    then s.(breakers := s.breakers[repo := s.breakers[repo].(probeRunId := Some(r))])
    else s
  }

  function NewRun(repo: RepoPath, now: int): Run {
    Run(repo, None, Idle, 0, [], None, false, now, None)
  }

  /** Claim the probe slot, if one is free, and track the run. */
  function Admit(s: State, r: RunId, repo: RepoPath): State {
    var s1 := ClaimProbe(s, repo, r);
    s1.(runs := s1.runs[r := NewRun(repo, s.now)])
  }

  function StartRequested(s: State, r: RunId, repo: RepoPath): State {
    if r in s.runs then s
    else s.(starts := s.starts[r := repo], hist := s.hist.(used := s.hist.used + {r}))
  }

  /** Everything `start` does after its only `await`. */
  function StartContinued(s: State, r: RunId, sandboxOk: bool, alive: set<BridgeId>, outcome: SpawnOutcome): State
    requires r in s.starts
  {
    var repo := s.starts[r];
    var s0 := s.(starts := s.starts - {r});
    var verdict := Decide(s, r, sandboxOk, alive);
    if verdict == SandboxRefused || verdict == CircuitOpen
      || (verdict == DuplicateRun && CrashedPending(s, repo)) then s0
    else
      var s1 := EvictAll(s0, StrandedRuns(s, alive));
      if verdict != Admitted then s1
      else Spawn(Admit(s1, r, repo), r, outcome)
  }

  function BridgeSpawned(s: State, b: BridgeId): State
    requires b in s.bridges
  {
    var r := s.bridges[b].owner;
    var s1 := s.(bridges := s.bridges[b := s.bridges[b].(spawned := true)]);
    if r !in s.runs then s1
    else
      var s2 := s1.(runs := s.runs[r := s.runs[r].(state := Running)],
                    hist := s.hist.(upSince := s.hist.upSince[r := s.now]));
      NoteProbeSpawned(s2, s.runs[r].repo, r)
  }

  function MarkExited(s: State, b: BridgeId): State
    requires b in s.bridges
  {
    s.(bridges := s.bridges[b := s.bridges[b].(exited := true)])
  }

  /** `clean` when the exit code is 0 or the reason is a hub shutdown. */
  function BridgeExited(s: State, b: BridgeId, clean: bool): State
    requires b in s.bridges
  {
    var r := s.bridges[b].owner;
    var s1 := MarkExited(s, b);
    if r !in s.runs then s1
    else if s.runs[r].userStop then ForgetRun(s1, r)
    else if clean then StopBridge(ForgetRun(s1, r), s.runs[r].bridge)
    else
      var s2 := NoteCrash(s1, r);
      if MustTrip(s2, r) then TripBreaker(s2, r) else ScheduleRestart(s2, r)
  }

  /** A crash opens the breaker when the repo is half-open or the window is full. */
  predicate MustTrip(s: State, r: RunId)
    requires r in s.runs
  {
    || (s.runs[r].repo in s.breakers && s.breakers[s.runs[r].repo].state == HalfOpen)
    || |s.runs[r].recentCrashes| >= CIRCUIT_THRESHOLD
  }

  function NoteCrash(s: State, r: RunId): State
    requires r in s.runs
  {
    s.(runs := s.runs[r := s.runs[r].(recentCrashes := Recent(s.runs[r].recentCrashes + [s.now], s.now))],
       hist := s.hist.(crashes := s.hist.crashes[r := CrashesOf(s.hist, r) + [s.now]]))
  }

  function TakeTimer(s: State, t: TimerId, r: RunId): State
    requires r in s.runs
  {
    s.(timers := s.timers - {t}, runs := s.runs[r := s.runs[r].(restartTimer := None)])
  }

  function BackoffElapsed(s: State, t: TimerId, r: RunId, outcome: SpawnOutcome): State {
    if r !in s.runs then s.(timers := s.timers - {t})
    else Spawn(CloseBridge(TakeTimer(s, t, r), r), r, outcome)
  }

  function SurvivalElapsed(s: State, t: TimerId, repo: RepoPath, r: RunId): State {
    var s1 := s.(timers := s.timers - {t});
    if repo !in s.breakers || s.breakers[repo].state != HalfOpen || s.breakers[repo].probeRunId != Some(r) then s1
    else if r !in s.runs || !Active(s.runs[r]) then s1
    else CloseBreaker(s1, repo)
  }

  function TimerFired(s: State, t: TimerId, outcome: SpawnOutcome): State
    requires t in s.timers
  {
    match s.timers[t].alarm
    case Backoff(r) => BackoffElapsed(s, t, r, outcome)
    case Cooldown(repo) => GoHalfOpen(s.(timers := s.timers - {t}), repo)
    case Survival(repo, r) => SurvivalElapsed(s, t, repo, r)
  }

  /** `stop` before it looks at the bridge: the flag, the timer and the state. */
  function StopMarked(s: State, r: RunId): State
    requires r in s.runs
  {
    ClearTimer(s, s.runs[r].restartTimer).(
    runs := s.runs[r := s.runs[r].(userStop := true, restartTimer := None, state := Stopping)])
  }

  /** `stop` up to its await, or to its end when the run has no bridge. */
  function StopRequested(s: State, r: RunId): State {
    if r !in s.runs then s
    else if s.runs[r].bridge.None? then ForgetRun(StopMarked(s, r), r)
    else StopBridge(StopMarked(s, r), s.runs[r].bridge).(stops := s.stops + multiset{r})
  }

  function StopSettled(s: State, r: RunId): State {
    ForgetRun(s.(stops := s.stops - multiset{r}), r)
  }

  function ActivitySeen(s: State, r: RunId): State {
    if r !in s.runs then s
    else s.(runs := s.runs[r := s.runs[r].(lastActivityAt := Some(s.now))])
  }

  // ----- One turn of the event loop -----

  datatype Event =
    | StartCall(run: RunId, repo: RepoPath)
    | StartResumes(run: RunId, sandboxOk: bool, alive: set<BridgeId>, outcome: SpawnOutcome)
    | OnSpawned(bridge: BridgeId)
    | OnExit(bridge: BridgeId, clean: bool)
    | TimerDue(timer: TimerId, outcome: SpawnOutcome)
    | StopCall(run: RunId)
    | StopResumes(run: RunId)
    | Activity(run: RunId)
    | Tick(elapsed: nat)

  /** The event names things that exist. */
  predicate Possible(s: State, e: Event) {
    match e
    case StartResumes(r, ok, alive, outcome) => r in s.starts
    case OnSpawned(b) => b in s.bridges
    case OnExit(b, clean) => b in s.bridges
    case TimerDue(t, outcome) => t in s.timers
    case StartCall(r, repo) => true
    case StopCall(r) => true
    case StopResumes(r) => true
    case Activity(r) => true
    case Tick(d) => true
  }

  /** A bridge that has reported its exit reports another one while the respawn of its run is
      still armed. */
  predicate ExitsInBackoff(s: State, b: BridgeId)
    requires b in s.bridges
  {
    s.bridges[b].exited && s.bridges[b].owner in s.runs && s.runs[s.bridges[b].owner].restartTimer.Some?
  }

  /** What a bridge may do at any time: `onSpawned` once, `onExit` any number of times, and after
      `stop` nothing except the `onExit` of a run the user stopped or that is gone. */
  predicate Tolerated(s: State, e: Event) {
    && Possible(s, e)
    && match e
       case OnSpawned(b) => s.bridges[b].live && !s.bridges[b].spawned && !s.bridges[b].stopped
       case OnExit(b, clean) =>
         && s.bridges[b].live
         && (s.bridges[b].stopped ==> s.bridges[b].owner !in s.runs || s.runs[s.bridges[b].owner].userStop)
       case TimerDue(t, outcome) => s.timers[t].due <= s.now
       case StopResumes(r) => r in s.stops
       case StartResumes(r, ok, alive, outcome) => true
       case StartCall(r, repo) => true
       case StopCall(r) => true
       case Activity(r) => true
       case Tick(d) => true
  }

  /** The contract of the environment: timers are not early, a continuation runs once, and no
      bridge exits a second time before the backoff of its run has fired. */
  predicate Enabled(s: State, e: Event) {
    Tolerated(s, e) && (e.OnExit? ==> !ExitsInBackoff(s, e.bridge))
  }

  /** The hub mints a run id per run row: a `start` names a tracked run or a new one. */
  predicate Fresh(s: State, e: Event) {
    e.StartCall? ==> e.run in s.runs || e.run !in s.hist.used
  }

  function Step(s: State, e: Event): State
    requires Possible(s, e)
  {
    match e
    case StartCall(r, repo) => StartRequested(s, r, repo)
    case StartResumes(r, ok, alive, outcome) => StartContinued(s, r, ok, alive, outcome)
    case OnSpawned(b) => BridgeSpawned(s, b)
    case OnExit(b, clean) => BridgeExited(s, b, clean)
    case TimerDue(t, outcome) => TimerFired(s, t, outcome)
    case StopCall(r) => StopRequested(s, r)
    case StopResumes(r) => StopSettled(s, r)
    case Activity(r) => ActivitySeen(s, r)
    case Tick(d) => s.(now := s.now + d)
  }
}
