# Verified models of five stateful components

This project models five components of the remo-code repository in Dafny and proves what they promise:

1. **The run manager of the supervisor** (`supervisor/src/process-manager.ts`): run lifecycle, concurrency cap,
   restarts with backoff, and the per-repository circuit breaker with its half-open probe.
2. **The forwarder of hub errors** (`hub/src/agentautofix/reporter.ts`): aggregation windows, the hourly throttle and
   the day counter, with requests in flight.
3. **The send ledger of the chat API** (`hub/src/api/chat.ts`): idempotent delivery under concurrent duplicates,
   failures, retries and sweeping.
4. **The repository scanner** (`supervisor/src/repo-scanner.ts`): the single-flight scan, the bounded-concurrency map,
   the introspection cache and the choice of the canonical entry of an origin.
5. **The schema splitters** (`tools/schema-sql-lint.ts` and `hub/src/db/migrate.ts`): the mode-flag loops of the lint
   and of the migrator.

Components 1 to 4 share one shape. A datatype `State` holds the module's variables, its timers and its suspended
calls; each routine is a function on it; `Event`, `Enabled` and `Step` give every turn of the event loop and the
contract of the environment; `Inv` is inductive (`StepCore`, `StepInv`), and the main results are about every state
of every run. The `Outcomes` and `Crashes` files pin the single events of a run: each says, in the fields of
the states before and after and without the routine that does it, what the event comes to. The code itself is a class (`ProcessManager.Manager`, `AgentAutofix.Forwarder`, `ChatApi.Endpoint`,
`ScanCoalescer.Scanner`, `BoundedMap.Mapping`, `IntrospectCache.Cache`) whose methods update its fields and are proved
equal, on `View()`, to those functions, or an array algorithm (`CanonicalRepos.StampCanonical`). For component 5 the
specification is a recursive labelling of every character by the lexeme it belongs to (`SqlLabels`); the loops are
proved to compute what the labels say, and the labels are characterised without any scan. Awaits split a routine:
`start` and `stop` of the manager, a forwarded report, a dispatch and a cached introspection are each several events,
so other turns come in between. The table below names the methods whose loops or order of checks are the point; the
other methods of the classes are proved equal to their functions in the same way.

| files | component |
|---|---|
| `Supervision`, `SupervisionSafety`, `SupervisionHistory`, `SupervisionClock`, `SupervisionRuns`, `SupervisionEdges`, `SupervisionStops`, `SupervisionStrays`, `SupervisionLimits`, `SupervisionProbes`, `SupervisionOutcomes`, `SupervisionCrashes`, `ProcessManager` | run manager |
| `Reporter`, `ReporterSafety`, `ReporterTimers`, `ReporterOutcomes`, `AgentAutofix` | error forwarder |
| `SendLedger`, `SendLedgerSafety`, `SendLedgerRuns`, `SendLedgerOutcomes`, `ChatApi` | send ledger |
| `ScanCoalescer`, `BoundedMap`, `IntrospectCache`, `CanonicalRepos` | scanner |
| `SqlLabels`, `SchemaSplitters`, `SplitterTheorems` | splitters |

## What is assumed of the environment

- A `SessionBridge` does not report a second exit before the backoff of its run has fired, and after `stop()` was
  invoked on it calls nothing except the exit of a user stop. The bridge of the repository does not keep the first
  half: it reports a runner's exit and keeps its socket (`supervisor/src/runners/session-bridge.ts:588-598`), and
  during the backoff it can exit again because the next user message gave it a new runner (`:444-445`, `:497-504`),
  because its socket was closed for good (`:340-351`) or because the hub shut it down (`:478-493`). Such an exit is
  harmless unless it is a crash that the manager answers with a second respawn: without those, no bridge is orphaned
  (`NoOrphanUnlessArmedTwice`), and after one an orphan can follow (`SecondExitOrphansIff`, `ExitTwiceOrphansBridge`).
  A shutdown is a clean exit and so harmless; the other two can crash, so the promise of `NoOrphanedBridge` is not
  kept by the code in general. Callbacks of the manager do not throw (`supervisor/src/safe-logging.ts`).
- Clocks do not run backwards; configuration does not change; a timer fires no earlier than it is due, and a cleared
  one does not fire. Timers may be arbitrarily late and overtake each other, except where a theorem names a contract
  of its own (`Timely`, `Orderly`).
- Starts that overlap carry distinct run ids that were never used before: the hub mints one per run row
  (`hub/src/api/sessions.ts:701`). `ReusedIdOrphansBridge` shows what a reused id would do.
- Requests and database inserts settle once. An insert that throws has inserted nothing.
- For the introspection cache: modification times are positive, and the result is a function of the two times behind
  the key. Only `HitsAreFresh` assumes that no file's time moves back.

## Where the code and its comments disagree

The models follow the code.

- `tools/schema-sql-lint.ts:173-181` says the lint's splitter must agree with the migrator's on statement boundaries.
  They agree exactly when no piece of the script consists of comments alone (`BoundariesAgreeIff`); `-- x` is one
  statement to the migrator and none to the lint (`CommentOnlyDisagrees`).
- `hub/src/agentautofix/reporter.ts:176-185` says an occurrence behind a send in flight is never silently lost. It is
  kept exactly unless the day limit is reached, and then dropped without a log line (`RearmedUnlessAtLimit`,
  `BatchLostBehindRequest`). But a window never closes behind a send in flight unless its timer overtakes the
  timeout of that request, which was due at least 35 s earlier, or runs between that timeout and the settlement it
  causes (`OnlyBehindLateTimeout`, `WindowsCloseAlone`): where timers run in the order in which they are due, nothing
  is lost that way and the re-arming never happens.
- `hub/src/api/chat.ts:104-105` says a retry never inserts a second copy of a failed message. It does unless the
  failed entry outlives the sweep of every request from the failure to the retry: no sweep finds it expired, and
  none that finds more than 5000 unexpired entries has too few older ones to remove instead (`RetryReusesIff`,
  `SecondRowAfterExpiry`, `SecondRowAfterTrimming`).
- `supervisor/src/repo-scanner.ts:90-93` says the worst a key collision does is one extra introspection. A collision
  is a hit, so it answers with the old result, exactly when the two times moved by offsetting amounts (or an
  introspection read files that changed back) and the results differ (`WrongHitIff`, `OffsettingTimesGoStale`).
- `supervisor/src/process-manager.ts:216-221` bounds the excess over the concurrency cap by the backoff delay. The
  backoff callback does not look at the cap: the count goes over it exactly at a respawn into a full manager
  (`ExceedsCapIff`), and stays there for as long as nothing happens to the runs (`RespawnExceedsCap`). Only runs that
  were restarted ever exceed it (`FirstTimersFitTheCap`, `OnlyRespawnsExceedTheCap`).
- `stop` returns at once when it finds no run (`supervisor/src/process-manager.ts:936`), also while a `start` of that
  run still awaits its sandbox check, and the run can start afterwards. Messages of the hub are handled without
  awaiting one another (`supervisor/src/hub-client.ts:200-205`), so the hub can cause this. A stop is final exactly
  unless such a `start` is under way, the manager has a slot at all, and the repo's probe budget is not exhausted
  (`StopIsFinalIff`, `StopDuringStart`).
- `supervisor/src/process-manager.ts:99-100` says the breaker closes when the probe reaches `running`. It closes
  exactly when a survival timer finds its probe still up (`ClosesIff`), which then was up for the whole health window
  (`ClosesOnlyOnHealth`); a probe that reaches `running` leaves it half-open (`SpawnedProbeIsWatched`,
  `ProbeRunsHalfOpen`).

## Model

| member | source | states |
|---|---|---|
| SupervisionSafety.StepCore | supervisor/src/process-manager.ts:450-959 | every event (two-phase start, spawn, exit, three kinds of timer, two-phase stop) keeps the joint invariant over runs, breakers, timers and bridges |
| SupervisionRuns.BreakerGuardsRepo | supervisor/src/process-manager.ts:704-828 | in every reachable state an open breaker's repo has no starting, running or crashed run, a half-open one's none but its probe, and a recorded probe is a tracked run of that repo, whichever path removed earlier probes |
| SupervisionRuns.NoOrphanedBridge | supervisor/src/process-manager.ts:570-589 | in every run of the stated contract, a bridge that was ever started is the current bridge of a tracked run or was stopped |
| SupervisionRuns.NoSilentLatch | supervisor/src/process-manager.ts:444-490 | an open breaker below five failed probes has its half-open timer armed for the end of its cooldown; half-open means below five; five cost at least 95 minutes since the first trip |
| SupervisionRuns.ClosesOnlyOnHealth | supervisor/src/process-manager.ts:525-547 | a breaker disappears only when its probe, spawned at least 30 s before, was tracked and uncrashed in every state since; no timer of an earlier or dead probe does it |
| SupervisionRuns.ClosesIff | supervisor/src/process-manager.ts:538-547 | in every run, an event deletes a breaker if and only if it is a due survival timer that finds its probe starting or running |
| SupervisionRuns.SpawnedProbeIsWatched | supervisor/src/process-manager.ts:846-852 | a probe whose CLI comes up is running while its breaker stays half-open with a survival timer due in 30 s |
| SupervisionProbes.ProbeRunsHalfOpen | supervisor/src/process-manager.ts:525-547 | a run of the manager from its start through five crashes, the cooldown and the next start to a running probe with a half-open breaker |
| SupervisionProbes.FiveProbesExhaust | supervisor/src/process-manager.ts:450-490 | a run of the manager from its start to an exhausted breaker: five crashes of one run, then five probes that each crash after the cooldown |
| SupervisionCrashes.CrashIs | supervisor/src/process-manager.ts:868-932 | every crash of every run: the probe of a half-open breaker opens it again with one failed probe more, the fifth crash in ten minutes opens one with none, each with its cooldown of 5, 10, 20, 30 or 30 minutes below five failed probes and none at five; otherwise the run backs off by its delay, or is dropped after ten restarts; nothing else is touched |
| SupervisionCrashes.OpensIff | supervisor/src/process-manager.ts:870-878 | a breaker appears if and only if a run of the repo crashes for the fifth time in ten minutes |
| SupervisionCrashes.FailedProbesAreCounted | supervisor/src/process-manager.ts:453 | while a breaker stays, its failed-probe count grows by exactly the number of crashes in its repo |
| SupervisionCrashes.ExitIs | supervisor/src/process-manager.ts:855-867 | an exit after a user stop or in order forgets the run, frees the probe slot it held and leaves its bridge stopped; an exit of an untracked run changes nothing else |
| SupervisionCrashes.RecentIsLast | supervisor/src/process-manager.ts:871 | what the filter keeps of a sorted history are its last entries, from the first that is younger than ten minutes |
| SupervisionOutcomes.StartEvictsIff | supervisor/src/process-manager.ts:252-293 | at every start, another run disappears if and only if the start gets past sandbox, breaker and crashed runs, and that run is starting or running on no live, spawned bridge and was last seen 30 s ago; its bridge is then stopped, and every other run stays as it was |
| SupervisionOutcomes.StartAdmitsIff | supervisor/src/process-manager.ts:700-828 | at every start, the run is tracked afterwards if and only if it gets that far, no run of its repo goes on holding a slot and one is left; it then has the probe slot of a half-open breaker and a fresh bridge, or its first respawn armed |
| SupervisionOutcomes.VerdictIff | supervisor/src/process-manager.ts:700-779 | when a start is refused by the sandbox, by the breaker, as a duplicate or by the cap, and when it is admitted |
| SupervisionOutcomes.ActivityProtects | supervisor/src/process-manager.ts:632-636 | a run that showed activity less than 30 s ago keeps its slot whatever starts |
| SupervisionOutcomes.RespawnIs | supervisor/src/process-manager.ts:926-932 | a due backoff stops the old bridge and spawns the run again, or backs off once more, or drops it after ten restarts |
| SupervisionOutcomes.StopIs | supervisor/src/process-manager.ts:935-959 | a stop cancels the respawn and stops the bridge, and what waits for the bridge then drops the run; without a bridge it is dropped at once |
| SupervisionStops.ExhaustedForGood | supervisor/src/process-manager.ts:474-481 | after five failed probes a breaker is open and unchanged for ever, and no run of its repo is starting, running or crashed from then on |
| SupervisionRuns.OneRunPerRepo | supervisor/src/process-manager.ts:746-768 | at most one starting, running or crashed run per repo under any interleaving of two-phase starts |
| SupervisionRuns.FirstTimersFitTheCap | supervisor/src/process-manager.ts:755-779 | active runs that were never restarted do not exceed the cap |
| SupervisionRuns.OnlyRespawnsExceedTheCap | supervisor/src/process-manager.ts:205-230 | active runs exceed the cap by at most the number of restarted ones |
| SupervisionEdges.ExceedsCapIff | supervisor/src/process-manager.ts:926-932 | at any event of any run, the number of active runs goes over the cap if and only if the cap is reached and the event is a respawn: a due backoff of a run that is not active, or the late spawn of a crashed one |
| SupervisionRuns.CrashAndSpawnBudget | supervisor/src/process-manager.ts:869-932 | the kept crash list is the full crash history cut to ten minutes, a tracked run never had five in such a window, and a run id spawns at most 11 times with at most 181 s of backoff |
| SupervisionRuns.NeverSpawnedAgain | supervisor/src/process-manager.ts:935-959 | a run whose user stop found it, or that was forgotten, and that no `start` still awaits, is never spawned or tracked again |
| SupervisionStops.StopIsFinalIff | supervisor/src/process-manager.ts:935-945 | after a stop of a used run id the run can be spawned in some continuation if and only if a `start` of it still awaits, the cap is positive, and the breaker of its repo is not exhausted; the stop then changed nothing |
| SupervisionLimits.StopDuringStart | supervisor/src/process-manager.ts:936-937 | a run that spawns after the stop that came while its start awaited |
| SupervisionRuns.NoStrandedEntry | supervisor/src/process-manager.ts:591-608 | every tracked run has a live bridge that was not stopped, an armed respawn, or a stop that is about to drop it |
| SupervisionHistory.PruneIsExact | supervisor/src/process-manager.ts:870-871 | pruning at every crash gives the same list as cutting the whole history once |
| SupervisionHistory.CrashAppended | supervisor/src/process-manager.ts:870-879 | below the threshold, recording a crash keeps every ten-minute window of the history below it |
| SupervisionLimits.ReusedIdOrphansBridge | supervisor/src/process-manager.ts:935-959 | a run id started again while its stop still awaits loses its new run and leaves the new bridge running |
| SupervisionStrays.NoOrphanUnlessArmedTwice | supervisor/src/process-manager.ts:570-589 | with any number of exits during backoffs, as long as none arms a second respawn, a bridge that was ever started is the current bridge of a tracked run or was stopped |
| SupervisionStrays.SecondExitOrphansIff | supervisor/src/process-manager.ts:855-932 | in every state so reached, a live bridge of no tracked run can follow an exit during a backoff if and only if that exit is a crash below the crash threshold and the restart cap |
| SupervisionLimits.ExitTwiceOrphansBridge | supervisor/src/process-manager.ts:897-932 | a second exit during a backoff loses the first respawn timer; a stop then leaves a live bridge of no tracked run |
| SupervisionLimits.RespawnExceedsCap | supervisor/src/process-manager.ts:926-932 | with a cap of one, two runs are active after a backoff respawn beside an admitted run, and still after any time |
| ProcessManager.Manager.StartContinue | supervisor/src/process-manager.ts:700-828 | the part behind the await: refusals in their order, reconciliation, probe claim, spawn; the state is that of the step |
| ProcessManager.Manager.CheckStart | supervisor/src/process-manager.ts:700-779 | the verdict on a start equals the specified one, and its only effect is the reconciliation |
| ProcessManager.Manager.ReconcileSlots | supervisor/src/process-manager.ts:252-293 | the loop evicts exactly the stranded runs, each with its timer, bridge and probe slot |
| ProcessManager.EvictOneIsEviction | supervisor/src/process-manager.ts:288-291 | the teardown statements of one reclaimed slot amount to evicting that run |
| ProcessManager.Manager.HasCrashedPending | supervisor/src/process-manager.ts:298-303 | true exactly if a crashed run targets the repo |
| ProcessManager.Manager.ActiveRunIdForRepo | supervisor/src/process-manager.ts:312-319 | an active run of the repo if there is one, none otherwise |
| ProcessManager.Manager.CountActive | supervisor/src/process-manager.ts:224-229 | the loop counts exactly the starting and running runs |
| ProcessManager.Manager.OnExitCallback | supervisor/src/process-manager.ts:855-880 | the step for a bridge exit: user stop, clean exit, trip or restart |
| ProcessManager.Prune | supervisor/src/process-manager.ts:871 | the filter loop keeps exactly the crashes of the last ten minutes, in order |
| ReporterSafety.StepInv | hub/src/agentautofix/reporter.ts:320-430 | reports, window timers, settling requests and time passing keep the invariant |
| ReporterSafety.OneSendPerHour | hub/src/agentautofix/reporter.ts:312-318 | per fingerprint at most one send awaits its answer, and any two that were not rolled back were reserved an hour apart, whatever was rolled back or re-armed between |
| ReporterSafety.DayCounterIsExact | hub/src/agentautofix/reporter.ts:349-360 | the day counter is the number of current-window sends in flight or kept, at most 200, so the clamp at zero is never met |
| ReporterSafety.AtMost400InAnyDay | hub/src/agentautofix/reporter.ts:125-132 | any stretch of 24 hours holds at most 400 sends that were not rolled back, because it meets at most two day windows |
| ReporterSafety.OccurrencesAreConserved | hub/src/agentautofix/reporter.ts:170-205 | every accepted occurrence is in exactly one of: bucket, awaited, delivered, rejected or failed send, logged throttle drop, drop at the day limit |
| ReporterTimers.WindowsCloseInTime | hub/src/agentautofix/reporter.ts:189-205 | where window timers are at most a given time late, a bucket that is open is flushed within 45 s and that time, whatever else happens |
| ReporterTimers.OnlyBehindLateTimeout | hub/src/agentautofix/reporter.ts:377-378 | a window closes behind a send in flight only if the timeout of that send was due at least 35 s before the window's timer and has not fired, or has without the request having settled |
| ReporterTimers.WindowsCloseAlone | hub/src/agentautofix/reporter.ts:373-399 | so a window timer that runs in order finds nothing of its fingerprint in flight, and its bucket is not re-armed |
| ReporterTimers.RearmedUnlessAtLimit | hub/src/agentautofix/reporter.ts:326-336 | a window that closes behind a send in flight keeps all its occurrences waiting if and only if the day limit is not reached |
| ReporterTimers.BatchLostBehindRequest | hub/src/agentautofix/reporter.ts:320-336 | a run in which only the last timer is out of order, and that one silently drops a batch behind the 200th send |
| ReporterTimers.RollbackFreesTheHour | hub/src/agentautofix/reporter.ts:402-410 | after a 429 or an error, whatever happens in between, the next window of the fingerprint that closes sends all it has if and only if the day limit is not reached |
| ReporterOutcomes.ThrottlesIff | hub/src/agentautofix/reporter.ts:312-356 | every window that closes with nothing of its fingerprint in flight is dropped at the day limit; below it, it sends all it has if and only if no send of the fingerprint that was not rolled back is less than an hour old, and otherwise all it has is counted as throttled |
| ReporterOutcomes.SettleIs | hub/src/agentautofix/reporter.ts:402-430 | a delivery or refusal keeps the hour and the day used; a rate limit or failure frees the hour, and one of the day if the day is still the same |
| ReporterOutcomes.ReportIs | hub/src/agentautofix/reporter.ts:189-205 | an unfiltered error is one occurrence more in the bucket of its fingerprint, which opens for 45 s or keeps its due time |
| ReporterOutcomes.AbortIs | hub/src/agentautofix/reporter.ts:376-378 | a request is aborted only after ten seconds without an answer |
| AgentAutofix.Forwarder.Send | hub/src/agentautofix/reporter.ts:320-356 | day limit, in-flight, throttle and reservation in the order of the code |
| SendLedgerSafety.StepInv | hub/src/api/chat.ts:136-265 | requests, gate outcomes, inserts, sends, status updates, finishing handlers and waiters keep the invariant |
| SendLedgerRuns.ExactlyOnce | hub/src/api/chat.ts:99-107 | between two evictions of a key at most one row is inserted and at most one frame accepted, over any interleaving of duplicates, failures and retries |
| SendLedgerRuns.OwnerStillOwns | hub/src/api/chat.ts:173-187 | from its request to the end of its handler a dispatch owns the pending entry of its key |
| SendLedgerRuns.DuplicatesShareTheOutcome | hub/src/api/chat.ts:158-163 | a duplicate of a running request is never stranded and is told the outcome of that request, marked duplicate exactly on success |
| SendLedgerRuns.ReplayNamesTheRow | hub/src/api/chat.ts:164-166 | a replay of a delivered request starts nothing and names the delivered row |
| SendLedgerRuns.RetryReusesIff | hub/src/api/chat.ts:122-171 | the next retry after a failure reuses the persisted row if and only if the failed entry outlives the sweep of every request from the failure to the retry: it has not expired, and at least as many older entries as exceed 5000 can be removed instead of it |
| SendLedgerOutcomes.PostIs | hub/src/api/chat.ts:151-171 | what every request comes to behind the sweep: a dispatch of its own on a free key, a note on whom it waits for on a pending one, the delivered row at once on a delivered one, a dispatch that reuses the row on a failed one; nothing is inserted or sent |
| SendLedgerOutcomes.DuplicateWaits | hub/src/api/chat.ts:158-163 | a request whose key is pending waits, unanswered, for the running dispatch of that key, and nothing is inserted or sent for it |
| SendLedgerOutcomes.AcceptedMeansAccepted | hub/src/api/chat.ts:157-188 | a request is told 202 only when a dispatch of its key has ended accepted, and it is told the row of that one |
| SendLedgerOutcomes.AcceptedWasSent | hub/src/api/chat.ts:256-264 | a dispatch that ended accepted had its frame accepted by the runner at an earlier event |
| SendLedgerOutcomes.ToldWhatSettled | hub/src/api/chat.ts:191-265 | what a refusal, an exception, an offline or dropping runner, or the status update settles a dispatch with is what its own request and all its duplicates are told |
| SendLedgerOutcomes.FinishIs | hub/src/api/chat.ts:173-188 | the finishing handler leaves the key delivered or failed for five minutes, or free if no row was inserted; an exception does not prolong it |
| SendLedgerOutcomes.ReplaysIff | hub/src/api/chat.ts:122-166 | the next request after a delivery is answered with its row if and only if the delivered entry outlives every sweep until then, and otherwise starts over |
| SendLedgerSafety.TrimmedKeepsIff | hub/src/api/chat.ts:124-129 | trimming keeps an entry that is not pending if and only if enough older such entries can go |
| SendLedgerRuns.SecondRowAfterExpiry | hub/src/api/chat.ts:104-105 | a run with two rows for one client id, the retry after the expiry |
| SendLedgerRuns.SecondRowAfterTrimming | hub/src/api/chat.ts:124-129 | a run with two rows for one client id without any time passing, after 5000 other requests |
| SendLedgerSafety.SweepIsSound | hub/src/api/chat.ts:122-130 | after a sweep nothing expired is left, pending entries all are, at most 5000 entries or only pending ones remain, and nothing else went unless the ledger was too large |
| SendLedgerSafety.TrimmedIsOldestFirst | hub/src/api/chat.ts:124-129 | trimming removes the oldest entries first |
| ChatApi.Endpoint.LedgerSweep | hub/src/api/chat.ts:122-130 | the two deleting loops compute the specified sweep |
| ChatApi.Endpoint.DropExpired | hub/src/api/chat.ts:123 | the first loop removes exactly the expired entries that are not pending |
| ChatApi.Endpoint.TrimToSize | hub/src/api/chat.ts:124-129 | the second loop removes the oldest ones until the size fits |
| ChatApi.Endpoint.PostMessage | hub/src/api/chat.ts:151-171 | the atomic section: sweep, lookup, then wait, replay or start a dispatch |
| ScanCoalescer.StepInv | supervisor/src/repo-scanner.ts:405-454 | calls, ending scans and their `finally` keep the invariant |
| ScanCoalescer.OneScanAtATime | supervisor/src/repo-scanner.ts:411-412 | at most one scan is not settled, and a queue exists only behind one |
| ScanCoalescer.SettledWithinTwoScans | supervisor/src/repo-scanner.ts:418-454 | every caller is settled by the time two more scans are, also when scans reject, with the result of its own configuration or that of a later caller, never an earlier one |
| ScanCoalescer.SettledForGood | supervisor/src/repo-scanner.ts:428-439 | the scan and the outcome of a call never change once they are there |
| ScanCoalescer.CallIs | supervisor/src/repo-scanner.ts:418-440 | a call starts a scan if none is running, shares the running one if that has its configuration, and otherwise is queued, its configuration replacing the queued one |
| ScanCoalescer.FinallyIs | supervisor/src/repo-scanner.ts:442-454 | when a scan settles, the queue becomes the next scan, every caller without a scan gets that one, and nobody else's changes |
| ScanCoalescer.Scanner.OnFinally | supervisor/src/repo-scanner.ts:443-451 | the queue becomes the next scan and its callers wait for it |
| BoundedMap.StepInv | supervisor/src/repo-scanner.ts:119-131 | every turn of a worker keeps each index with one worker or in the results |
| BoundedMap.CallsOncePerIndex | supervisor/src/repo-scanner.ts:122-127 | calls are made once per index, in input order, by as many workers as limit and items allow, and at most `limit` are outstanding |
| BoundedMap.ResultsArePointwise | supervisor/src/repo-scanner.ts:129-130 | once all workers have returned, the results are the function applied position by position if and only if the limit is positive or there are no items |
| BoundedMap.MapCompletes | supervisor/src/repo-scanner.ts:119-131 | if no call rejects, every run ends after at most two turns per item and one per worker, and where nothing is left to happen the results are complete under the same condition |
| BoundedMap.Mapping.TakeNext | supervisor/src/repo-scanner.ts:123-126 | a worker takes the next index or returns |
| IntrospectCache.WrongHitIff | supervisor/src/repo-scanner.ts:90-106 | in every run, a cached path is answered wrongly if and only if the present times are those of the key or offset against them and the introspection of what was read differs; for files at rest only offsetting times do it |
| IntrospectCache.HitsAreFresh | supervisor/src/repo-scanner.ts:97-115 | while no time moves back, a hit answers what a fresh introspection would, even if files changed while the cached one was under way |
| IntrospectCache.EqualKeysIff | supervisor/src/repo-scanner.ts:90-94 | two pairs of times have the same key if and only if they are equal or offset against each other |
| IntrospectCache.EqualKeysMeanEqualFiles | supervisor/src/repo-scanner.ts:90-94 | among files that do not get older, equal sums come from equal files only |
| IntrospectCache.CacheIsBounded | supervisor/src/repo-scanner.ts:98-113 | nothing is stored under -1, and there are at most 2000 entries |
| IntrospectCache.OffsettingTimesGoStale | supervisor/src/repo-scanner.ts:90-94 | for any times and any that are offset against them, a run that ends with the old result as a hit |
| IntrospectCache.BeganIs | supervisor/src/repo-scanner.ts:97-106 | a call is answered from the cache if and only if a time can be read and their sum is the key of the path's entry; otherwise an introspection begins under the present key |
| IntrospectCache.ReturnIs | supervisor/src/repo-scanner.ts:107-115 | the result is stored under the key of the call; every other entry stays, but for the oldest, which goes if and only if the path is new and 2000 entries are there |
| IntrospectCache.Cache.Lookup | supervisor/src/repo-scanner.ts:60-106 | the key and the hit for the files as they are |
| IntrospectCache.Cache.Remember | supervisor/src/repo-scanner.ts:108-113 | first-in-first-out eviction and insertion |
| CanonicalRepos.CanonicalIff | supervisor/src/repo-scanner.ts:536-544 | an entry with an origin is canonical if and only if it is the best of its origin: a worktree only if all are, shortest of its kind, first among equals |
| CanonicalRepos.OneCanonicalPerOrigin | supervisor/src/repo-scanner.ts:526-544 | every origin has exactly one canonical entry |
| CanonicalRepos.OnlyFlagsChange | supervisor/src/repo-scanner.ts:528-546 | entries without an origin stay canonical; order and other fields are untouched |
| CanonicalRepos.SortedIsOrdered | supervisor/src/repo-scanner.ts:539-542 | the sorted group is a permutation in the order of the comparison |
| CanonicalRepos.Group | supervisor/src/repo-scanner.ts:527-534 | the loop collects, per origin, its entries in scan order |
| CanonicalRepos.StampCanonical | supervisor/src/repo-scanner.ts:526-544 | grouping, sorting and overwriting in place give exactly the specified flags |
| SchemaSplitters.TakeTurn | tools/schema-sql-lint.ts:97-151 | one pass through the chain of mode tests keeps at most one mode flag up and consumes what the quoting rules say |
| SchemaSplitters.SplitStatements | tools/schema-sql-lint.ts:60-155 | the loop emits the statements that the labels define |
| SchemaSplitters.SplitSqlStatements | hub/src/db/migrate.ts:23-162 | the migrator's loop emits the trimmed raw text of every piece that is not blank |
| SplitterTheorems.ErasedScriptIsJoined | tools/schema-sql-lint.ts:77-154 | with comments erased the script is the code of its pieces joined by the top-level semicolons, and dropped pieces are blank |
| SplitterTheorems.StatementsAreReadOff | tools/schema-sql-lint.ts:77-90 | the prefix of a statement is the source from the previous top-level semicolon to its first code character and holds only comments and white space; its line is one plus the newlines before that character |
| SplitterTheorems.PiecesTile | tools/schema-sql-lint.ts:147-153 | the pieces are exactly the stretches between top-level semicolons, without gaps |
| SplitterTheorems.SeparatorsAreSemicolons | tools/schema-sql-lint.ts:147 | the separators are exactly the semicolons outside comments, literals and dollar bodies |
| SplitterTheorems.LabelsIff | tools/schema-sql-lint.ts:97-151 | the labels are the one labelling whose cuts are lexemes: `--` and `/*` open comments, a dollar tag, a quote and a double quote open literals, each up to its end, and every other character stands alone, a separator if and only if it is a semicolon |
| SplitterTheorems.LexemeIff | tools/schema-sql-lint.ts:133-151 | at every place the chain of tests finds the one lexeme that starts there |
| SplitterTheorems.CodeIs | tools/schema-sql-lint.ts:77-85 | the code of a piece is exactly its characters outside comments, in order |
| SplitterTheorems.NewlinesAreCounted | tools/schema-sql-lint.ts:95 | the line of a place counts the newlines before it |
| SplitterTheorems.TrimIs | tools/schema-sql-lint.ts:186 | trimming cuts off the white space on both sides, and nothing else |
| SplitterTheorems.FirstLineIs | tools/schema-sql-lint.ts:196 | the first line is the text before the first newline |
| SplitterTheorems.LineCommentEnds | tools/schema-sql-lint.ts:97-102 | a line comment ends behind the first newline |
| SplitterTheorems.BlockCommentEnds | tools/schema-sql-lint.ts:103-109 | a nested block comment ends at the first place where its closing and opening pairs, read without overlap, balance |
| SplitterTheorems.DollarBodyEnds | tools/schema-sql-lint.ts:110-116 | a dollar body ends behind the first occurrence of its own tag |
| SplitterTheorems.DollarTagOpens | tools/schema-sql-lint.ts:135-142 | a dollar tag opens exactly where `$$` or an identifier between dollars stands, and it is unique |
| SplitterTheorems.LiteralEnds | tools/schema-sql-lint.ts:117-132 | a literal ends at the first odd run of quotes, so doubled quotes never end it |
| SplitterTheorems.PragmaNeedsOwnComment | tools/schema-sql-lint.ts:192-199 | a statement is exempted only by a comment between the previous separator and its own first code |
| SplitterTheorems.LintSchemaSql | tools/schema-sql-lint.ts:184-202 | finding k is that of the k-th statement whose code has a banned keyword: its line, keyword, first line and reason, and no other statement has one |
| SplitterTheorems.BoundariesAgreeIff | tools/schema-sql-lint.ts:173-181 | lint and migrator see the same pieces, and as many statements, if and only if no piece is comments alone |
| SplitterTheorems.CommentOnlyDisagrees | hub/src/db/migrate.ts:159-160 | `-- x` is one statement to the migrator and none to the lint |

## Left out

- Sandbox and git-directory checks of `start` are one input that accepts or refuses; audit records, log text, state-change notifications, process ids, session ids and permission stripping are not modelled.
- Whether a fetch rejects at once when it is aborted: an aborted send may settle at any later time, and `Orderly` names the case that it does so before the next window timer.
- `stopAll` and configuration swaps of the manager: the former is a sequence of stops, the latter is assumed not to happen.
- The microtask between forgetting a run and stopping its bridge is folded into the event that forgets it.
- Run, breaker and bucket records are values in maps, so aliasing of one record by two closures is not captured; ledger entries are objects named by tokens.
- A slot that is stranded behind a half-open breaker is not claimed to be reclaimed by a start for its own repo, because the refusal comes before the reconciliation.
- The contents of a report, token minting, redaction and the noise filter of the forwarder; the immediate forward of triage findings, which bypasses the windows.
- Gates, licence, payload checks, streaming and the texts of answers in the chat API: a gate accepts, refuses or throws.
- Walking directories, glob matching, deduplication of candidate paths and git itself in the scanner; modification times are whole numbers, so rounding of their sum is not modelled.
- BoundedMap.Mapping.TakeNext: the rejection of the whole map by the first rejecting call is not modelled, only that the worker it belongs to stops.
- Masking of legal DDL, the keyword search and the pragma pattern of the lint are uninterpreted functions, so nothing is claimed about which mutations the lint finds; characters are Unicode scalar values, not UTF-16 units.
