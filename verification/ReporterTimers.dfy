/** Timers of the reporter: when windows close, what a window meets that closes behind a request, and
    what it takes for the two to meet at all. */
module ReporterTimers {
  import opened Reporter
  import opened ReporterSafety

  // ----- Every window closes -----

  /** Time does not go on while a window timer is more than `late` overdue. */
  predicate Timely(s: State, e: Event, late: nat) {
    e.Tick? ==> forall fp | fp in s.pending :: s.now + e.elapsed <= s.pending[fp].due + late
  }

  predicate NoneOverdue(s: State, late: nat) {
    forall fp | fp in s.pending :: s.now <= s.pending[fp].due + late
  }

  lemma ResetLeaves(s: State)
    ensures var z := ResetDayWindowIfStale(s);
      z.pending == s.pending && z.lastSentAt == s.lastSentAt && z.inFlight == s.inFlight && z.now == s.now
  {
  }

  /** A flush leaves the other fingerprints alone. */
  lemma FlushLeaves(s: State, fp: Fingerprint, q: Fingerprint)
    requires fp in s.pending && q != fp
    ensures var z := Flush(s, fp);
      && (q in z.pending <==> q in s.pending) && (q in s.pending ==> z.pending[q] == s.pending[q])
      && (q in z.lastSentAt <==> q in s.lastSentAt) && (q in z.inFlight <==> q in s.inFlight)
  {
    ResetLeaves(s.(pending := s.pending - {fp}));
    hide ResetDayWindowIfStale, Add, SlotTaken;
  }

  lemma FlushRearms(s: State, fp: Fingerprint)
    requires fp in s.pending
    ensures var z := Flush(s, fp);
      z.now == s.now && (fp in z.pending ==> z.pending[fp].due == s.now + AGGREGATION_WINDOW_MS)
  {
    ResetLeaves(s.(pending := s.pending - {fp}));
    hide ResetDayWindowIfStale, Add, SlotTaken;
  }

  lemma StepNoneOverdue(s: State, e: Event, late: nat)
    requires Enabled(s, e) && Timely(s, e, late) && NoneOverdue(s, late)
    ensures NoneOverdue(Step(s, e), late)
  {
    hide Flush;
    if e.TimerFired? {
      var z := Flush(s, e.fp);
      FlushRearms(s, e.fp);
      forall q | q in z.pending && q != e.fp ensures q in s.pending && z.pending[q] == s.pending[q] {
        FlushLeaves(s, e.fp, q);
      }
    }
  }

  lemma {:induction false} RunNoneOverdue(trace: seq<State>, events: seq<Event>, late: nat, t: nat)
    requires IsRun(trace, events) && t < |trace| && forall i | 0 <= i < t :: Timely(trace[i], events[i], late)
    ensures NoneOverdue(trace[t], late)
  {
    if t > 0 {
      RunNoneOverdue(trace, events, late, t - 1);
      StepNoneOverdue(trace[t - 1], events[t - 1], late);
    }
  }

  /** A bucket keeps its due time until its timer fires, however many occurrences it takes in. */
  lemma StepKeepsDue(s: State, e: Event, fp: Fingerprint)
    requires Enabled(s, e) && fp in s.pending && e != TimerFired(fp)
    ensures fp in Step(s, e).pending && Step(s, e).pending[fp].due == s.pending[fp].due
  {
    hide Flush;
    if e.TimerFired? { FlushLeaves(s, e.fp, fp); }
  }

  lemma {:induction false} RunKeepsDue(trace: seq<State>, events: seq<Event>, i: nat, j: nat, fp: Fingerprint)
    requires IsRun(trace, events) && i <= j < |trace| && fp in trace[i].pending
    requires forall t | i <= t < j :: events[t] != TimerFired(fp)
    ensures fp in trace[j].pending && trace[j].pending[fp].due == trace[i].pending[fp].due
  {
    if i < j {
      RunKeepsDue(trace, events, i, j - 1, fp);
      StepKeepsDue(trace[j - 1], events[j - 1], fp);
    }
  }

  /** Where timers are at most `late` overdue, a bucket that is open at one time has been flushed by 45 s
      and `late` after it. */
  lemma WindowsCloseInTime(
    trace: seq<State>, events: seq<Event>, i: nat, j: nat, fp: Fingerprint, late: nat) returns (t: nat)
    requires IsRun(trace, events) && i <= j < |trace| && fp in trace[i].pending
    requires forall k | 0 <= k < j :: Timely(trace[k], events[k], late)
    requires trace[j].now > trace[i].now + 45_000 + late
    ensures i <= t < j && events[t] == TimerFired(fp)
  {
    RunInv(trace, events, i);
    assert BucketOk(trace[i], fp);
    RunNoneOverdue(trace, events, late, j);
    if forall t | i <= t < j :: events[t] != TimerFired(fp) {
      RunKeepsDue(trace, events, i, j, fp);
      assert false;
    }
    hide Inv, IsRun, Timely, NoneOverdue;
    t :| i <= t < j && events[t] == TimerFired(fp);
  }

  // ----- Windows that close behind a request -----

  /** A window timer runs neither before the timeout of a request that is due earlier, nor between that
      timeout and the settlement it causes. */
  predicate Orderly(s: State, e: Event) {
    e.TimerFired? && e.fp in s.pending ==>
      forall k | 0 <= k < |s.sends| && s.sends[k].status == Awaiting ::
        k !in s.aborts && s.pending[e.fp].due <= Timeout(s, k)
  }

  /** What it takes for a window to close behind a request of its fingerprint: the window opened after
      the request began, so the request's timeout was due at least 35 s before the window's timer, and
      yet has not fired, or has and the request has not settled. */
  lemma OnlyBehindLateTimeout(trace: seq<State>, events: seq<Event>, t: nat, fp: Fingerprint) returns (k: nat)
    requires IsRun(trace, events) && t < |events| && events[t] == TimerFired(fp) && fp in trace[t].inFlight
    ensures var s := trace[t];
      && Awaits(s, k) && s.sends[k].fingerprint == fp && fp in s.pending
      && Timeout(s, k) + 35_000 <= s.pending[fp].due <= s.now
      && !Orderly(s, events[t])
  {
    RunInv(trace, events, t);
    var s := trace[t];
    assert Enabled(s, events[t]);
    hide IsRun;
    k :| 0 <= k < |s.sends| && s.sends[k].status == Awaiting && s.sends[k].fingerprint == fp;
    assert BucketOk(s, fp) && Awaits(s, k);
    hide SendsOk, Conserved, BucketsOk;
  }

  /** So a window whose timer runs in order closes for good: nothing of its fingerprint is in flight, and
      its occurrences are sent, or counted as dropped. */
  lemma WindowsCloseAlone(trace: seq<State>, events: seq<Event>, t: nat, fp: Fingerprint)
    requires IsRun(trace, events) && t < |events| && events[t] == TimerFired(fp) && Orderly(trace[t], events[t])
    ensures fp !in trace[t].inFlight && fp !in trace[t + 1].pending
  {
    if fp in trace[t].inFlight {
      var k := OnlyBehindLateTimeout(trace, events, t, fp);
      assert false;
    }
    assert Enabled(trace[t], events[t]) && trace[t + 1] == Flush(trace[t], fp);
    hide IsRun, Orderly;
  }

  predicate AtLimit(s: State) {
    s.dayCount >= 200 && s.now - s.dayWindowStart <= 86_400_000
  }

  /** A window that flushes behind a send in flight keeps every occurrence waiting, exactly unless
      the day limit is reached: then the batch is dropped without a trace. */
  lemma RearmedUnlessAtLimit(trace: seq<State>, events: seq<Event>, t: nat, fp: Fingerprint)
    requires IsRun(trace, events) && t < |events| && events[t] == TimerFired(fp) && fp in trace[t].inFlight
    ensures var s, z := trace[t], trace[t + 1];
      && (!AtLimit(s) <==> Waiting(z, fp) == Waiting(s, fp) && fp in z.pending)
      && (AtLimit(s) <==> Tally(z.capped, fp) == Tally(s.capped, fp) + Waiting(s, fp))
      && z.sends == s.sends && z.throttled == s.throttled
  {
    RunInv(trace, events, t);
    assert Enabled(trace[t], events[t]);
    assert BucketOk(trace[t], fp);
    FlushBehindFlight(trace[t], fp);
    hide *;
  }

  lemma FlushBehindFlight(s: State, fp: Fingerprint)
    requires fp in s.inFlight && fp in s.pending && s.pending[fp].occurrences > 0
    ensures var z := Flush(s, fp);
      && (!AtLimit(s) <==> Waiting(z, fp) == Waiting(s, fp) && fp in z.pending)
      && (AtLimit(s) <==> Tally(z.capped, fp) == Tally(s.capped, fp) + Waiting(s, fp))
      && z.sends == s.sends && z.throttled == s.throttled
  {
  }

  // ----- The flush after a rollback -----

  predicate Free(s: State, fp: Fingerprint) {
    fp !in s.inFlight && fp !in s.lastSentAt
  }

  lemma StepKeepsFree(s: State, e: Event, fp: Fingerprint)
    requires Enabled(s, e) && Free(s, fp) && e != TimerFired(fp)
    ensures Free(Step(s, e), fp)
  {
    hide Flush;
    if e.TimerFired? { FlushLeaves(s, e.fp, fp); }
  }

  lemma {:induction false} RunKeepsFree(trace: seq<State>, events: seq<Event>, i: nat, j: nat, fp: Fingerprint)
    requires IsRun(trace, events) && i <= j < |trace| && Free(trace[i], fp)
    requires forall t | i <= t < j :: events[t] != TimerFired(fp)
    ensures Free(trace[j], fp)
  {
    if i < j {
      RunKeepsFree(trace, events, i, j - 1, fp);
      StepKeepsFree(trace[j - 1], events[j - 1], fp);
    }
  }

  /** After a rollback the hour is free: whatever happens in between, the next window of the fingerprint
      that closes sends all it has, exactly unless the day limit is reached. */
  lemma RollbackFreesTheHour(trace: seq<State>, events: seq<Event>, i: nat, k: nat, o: Outcome, j: nat, fp: Fingerprint)
    requires IsRun(trace, events) && i < j < |events|
    requires events[i] == Settled(k, o) && (o == RateLimited || o == Failed) && events[j] == TimerFired(fp)
    requires k < |trace[i].sends| && trace[i].sends[k].fingerprint == fp
    requires forall t | i < t < j :: events[t] != TimerFired(fp)
    ensures var s, z := trace[j], trace[j + 1];
      && (AtLimit(s) <==> z.sends == s.sends)
      && (!AtLimit(s) <==> z.sends == s.sends + [Send(fp, Waiting(s, fp), z.generation, s.now, Awaiting)])
      && (!AtLimit(s) ==> z.capped == s.capped && z.throttled == s.throttled)
  {
    assert Enabled(trace[i], events[i]) && Enabled(trace[j], events[j]);
    assert Free(trace[i + 1], fp);
    RunKeepsFree(trace, events, i + 1, j, fp);
    hide IsRun;
    FlushOfFree(trace[j], fp);
  }

  lemma FlushOfFree(s: State, fp: Fingerprint)
    requires Free(s, fp) && fp in s.pending
    ensures var z := Flush(s, fp);
      && (AtLimit(s) ==> z.sends == s.sends)
      && (!AtLimit(s) ==> z.capped == s.capped && z.throttled == s.throttled)
      && (!AtLimit(s) ==> z.sends == s.sends + [Send(fp, Waiting(s, fp), z.generation, s.now, Awaiting)])
  {
  }

  // ----- A batch lost behind a request -----

  /** What 45 s windows of the fingerprints `fps`, one after the other, have led to: a send each, all
      delivered but the last `awaiting` ones. */
  predicate SentOneByOne(s: State, fps: seq<Fingerprint>, awaiting: nat) {
    && s.capped == map[] && s.generation == 0 && s.now - s.dayWindowStart == |fps| * AGGREGATION_WINDOW_MS
    && s.dayCount == |fps| == |s.sends| && s.aborts == {}
    && (forall fp | fp in s.lastSentAt :: fp in fps)
    && forall k | 0 <= k < |fps| ::
      s.sends[k].fingerprint == fps[k] && s.sends[k].status == if k < |fps| - awaiting then Delivered else Awaiting
  }

  predicate Idle(s: State, fps: seq<Fingerprint>) {
    SentOneByOne(s, fps, 0) && s.inFlight == {} && s.pending == map[]
  }

  /** The last send awaits its answer. */
  predicate Hanging(s: State, fps: seq<Fingerprint>) {
    fps != [] && SentOneByOne(s, fps, 1) && s.inFlight == {fps[|fps| - 1]} && s.pending == map[]
  }

  ghost predicate InOrder(trace: seq<State>, events: seq<Event>) {
    |events| < |trace| && forall i | 0 <= i < |events| :: Orderly(trace[i], events[i])
  }

  lemma Extended(trace: seq<State>, events: seq<Event>, e: Event) returns (trace': seq<State>, events': seq<Event>)
    requires IsRun(trace, events) && Enabled(trace[|events|], e)
    ensures IsRun(trace', events') && trace' == trace + [Step(trace[|events|], e)] && events' == events + [e]
    ensures InOrder(trace, events) && Orderly(trace[|events|], e) ==> InOrder(trace', events')
  {
    trace', events' := trace + [Step(trace[|events|], e)], events + [e];
    hide Enabled, Step, Orderly;
    assert trace'[0] == trace[0];
  }

  /** An error is reported, and its window runs. */
  function Windowed(s: State, fp: Fingerprint): State {
    s.(now := s.now + AGGREGATION_WINDOW_MS, accepted := Add(s.accepted, fp, 1),
       pending := map[fp := Bucket(1, s.now + AGGREGATION_WINDOW_MS)])
  }

  lemma WindowRuns(trace: seq<State>, events: seq<Event>, fp: Fingerprint)
    returns (trace': seq<State>, events': seq<Event>)
    requires IsRun(trace, events) && InOrder(trace, events) && trace[|events|].pending == map[]
    ensures IsRun(trace', events') && InOrder(trace', events')
    ensures trace'[|events'|] == Windowed(trace[|events|], fp) && Enabled(trace'[|events'|], TimerFired(fp))
  {
    var s := trace[|events|];
    trace', events' := Extended(trace, events, Reported(fp, false));
    trace', events' := Extended(trace', events', Tick(AGGREGATION_WINDOW_MS));
    assert s.pending[fp := Bucket(1, s.now + AGGREGATION_WINDOW_MS)]
      == map[fp := Bucket(1, s.now + AGGREGATION_WINDOW_MS)];
  }

  lemma SendsFirst(s: State, fps: seq<Fingerprint>, fp: Fingerprint)
    requires Idle(s, fps) && |fps| < MAX_REPORTS_PER_DAY && fp !in fps
    ensures Hanging(Flush(Windowed(s, fp), fp), fps + [fp]) && Orderly(Windowed(s, fp), TimerFired(fp))
  {
    var w := Windowed(s, fp);
    var out := w.(pending := map[]);
    assert w.pending - {fp} == map[];
    assert ResetDayWindowIfStale(out) == out;
    assert Flush(w, fp) == Reserve(out, fp, 1);
    assert fp !in s.lastSentAt;
  }

  lemma Delivers(s: State, fps: seq<Fingerprint>)
    requires Hanging(s, fps)
    ensures Enabled(s, Settled(|fps| - 1, Ok)) && Idle(Settle(s, |fps| - 1, Ok), fps)
  {
  }

  /** The last send of a run through `fps` hangs. */
  lemma {:induction false} SentUpTo(fps: seq<Fingerprint>) returns (trace: seq<State>, events: seq<Event>)
    requires 0 < |fps| <= MAX_REPORTS_PER_DAY && forall i, j | 0 <= i < j < |fps| :: fps[i] != fps[j]
    ensures IsRun(trace, events) && InOrder(trace, events) && Hanging(trace[|events|], fps)
  {
    var n := |fps| - 1;
    var before, fp := fps[..n], fps[n];
    assert fps == before + [fp] && fp !in before;
    if n == 0 {
      trace, events := [Init(1)], [];
    } else {
      trace, events := SentUpTo(before);
      var s := trace[|events|];
      Delivers(s, before);
      trace, events := Extended(trace, events, Settled(n - 1, Ok));
    }
    var s := trace[|events|];
    assert Idle(s, before);
    IdleIsEmpty(s, before);
    hide Idle, Hanging, IsRun, InOrder;
    trace, events := WindowRuns(trace, events, fp);
    SendsFirst(s, before, fp);
    trace, events := Extended(trace, events, TimerFired(fp));
  }

  lemma IdleIsEmpty(s: State, fps: seq<Fingerprint>)
    requires Idle(s, fps)
    ensures s.pending == map[]
  {
  }

  /** The 200th send of a day hangs, and the next window of its fingerprint closes before its timeout:
      every timer but the last one runs in order, and the last one loses its batch. */
  lemma BatchLostBehindRequest(fps: seq<Fingerprint>, fp: Fingerprint)
    returns (trace: seq<State>, events: seq<Event>, t: nat)
    requires |fps| == MAX_REPORTS_PER_DAY && fp == fps[199]
    requires forall i, j | 0 <= i < j < |fps| :: fps[i] != fps[j]
    ensures IsRun(trace, events) && |events| == t + 1 && events[t] == TimerFired(fp)
    ensures forall i | 0 <= i < t :: Orderly(trace[i], events[i])
    ensures fp in trace[t].inFlight && AtLimit(trace[t])
    ensures Tally(trace[t].capped, fp) == 0 && Tally(trace[t + 1].capped, fp) == 1 && fp !in trace[t + 1].pending
  {
    trace, events := SentUpTo(fps);
    var s := trace[|events|];
    trace, events := WindowRuns(trace, events, fp);
    t := |events|;
    var w := trace[t];
    assert w == Windowed(s, fp);
    trace, events := Extended(trace, events, TimerFired(fp));
    FlushBehindFlight(w, fp);
  }
}
