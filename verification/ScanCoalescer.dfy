/** Single-flight scans: callers share the scan that runs, or wait for the one follow-up that is
    queued behind it with the configuration of the latest caller. */
module ScanCoalescer {
  import opened Wrappers

  /** The serialised configuration of a scan. */
  type Config = string

  /** `Ended` is a scan whose own promise is settled but whose `finally` has not run; a `Settled` one
      has passed its outcome on to everybody who holds its promise. */
  datatype Phase = Running | Ended(ok: bool) | Settled(ok: bool)

  datatype Scan = Scan(config: Config, phase: Phase)

  /** A call of `scanRoots`: the scan whose promise it was given, or none while it is queued.
      `since` is the number of scans that were settled when it came. */
  datatype Caller = Caller(config: Config, scan: Option<nat>, since: nat)

  datatype Queued = Queued(config: Config, resolvers: seq<nat>)

  datatype State = State(
    inFlight: Option<nat>,
    queued: Option<Queued>,
    scans: seq<Scan>,
    callers: seq<Caller>,
    settled: nat)

  const INIT := State(None, None, [], [], 0)

  // ----- Routines -----

  function StartScan(s: State, config: Config): State {
    s.(inFlight := Some(|s.scans|), scans := s.scans + [Scan(config, Running)])
  }

  function Call(s: State, config: Config): State {
    var me := Caller(config, None, s.settled);
    if s.inFlight.None? then StartScan(s, config).(callers := s.callers + [me.(scan := Some(|s.scans|))])
    else if s.inFlight.value < |s.scans| && s.scans[s.inFlight.value].config == config
    then s.(callers := s.callers + [me.(scan := s.inFlight)])
    else
      var resolvers := if s.queued.Some? then s.queued.value.resolvers else [];
      s.(queued := Some(Queued(config, resolvers + [|s.callers|])), callers := s.callers + [me])
  }

  function Resolved(callers: seq<Caller>, resolvers: seq<nat>, scan: nat): seq<Caller> {
    seq(|callers|, i requires 0 <= i < |callers| =>
      if i in resolvers then callers[i].(scan := Some(scan)) else callers[i])
  }

  /** The `finally` of scan `k`: the queue becomes the next scan, and its callers wait for that. */
  function Finally(s: State, k: nat): State
    requires k < |s.scans| && s.scans[k].phase.Ended?
  {
    var free := s.(inFlight := None, settled := s.settled + 1,
                   scans := s.scans[k := s.scans[k].(phase := Settled(s.scans[k].phase.ok))]);
    if s.queued.None? then free
    else
      var q := s.queued.value;
      StartScan(free.(queued := None), q.config).(callers := Resolved(s.callers, q.resolvers, |s.scans|))
  }

  // ----- Events -----

  datatype Event = Called(config: Config) | InnerEnded(k: nat, ok: bool) | FinallyRan(k: nat)

  predicate Enabled(s: State, e: Event) {
    match e
    case Called(config) => true
    case InnerEnded(k, ok) => k < |s.scans| && s.scans[k].phase == Running
    case FinallyRan(k) => k < |s.scans| && s.scans[k].phase.Ended?
  }

  function Step(s: State, e: Event): State
    requires Enabled(s, e)
  {
    match e
    case Called(config) => Call(s, config)
    case InnerEnded(k, ok) => s.(scans := s.scans[k := s.scans[k].(phase := Ended(ok))])
    case FinallyRan(k) => Finally(s, k)
  }

  // ----- The invariant -----

  /** All scans but the last are settled, and the last one is too unless it is in flight. */
  predicate ScansOk(s: State) {
    && (forall k | 0 <= k < |s.scans| - 1 :: s.scans[k].phase.Settled?)
    && (if s.inFlight.Some?
        then |s.scans| > 0 && s.inFlight.value == |s.scans| - 1 == s.settled && !s.scans[|s.scans| - 1].phase.Settled?
        else s.settled == |s.scans| && (|s.scans| > 0 ==> s.scans[|s.scans| - 1].phase.Settled?))
  }

  /** Exactly the callers without a scan are queued; all of them came during the scan in flight, and
      the queued configuration is that of the last one. */
  predicate QueueOk(s: State) {
    if s.queued.None? then forall i | 0 <= i < |s.callers| :: s.callers[i].scan.Some?
    else s.inFlight.Some? && ResolversOk(s.callers, s.queued.value, s.settled)
  }

  predicate ResolversOk(callers: seq<Caller>, q: Queued, settled: nat) {
    && |q.resolvers| > 0
    && (forall i | 0 <= i < |callers| :: callers[i].scan.None? <==> i in q.resolvers)
    && (forall a | 0 <= a < |q.resolvers| :: q.resolvers[a] < |callers| && callers[q.resolvers[a]].since == settled)
    && (forall a, b | 0 <= a < b < |q.resolvers| :: q.resolvers[a] < q.resolvers[b])
    && q.config == callers[q.resolvers[|q.resolvers| - 1]].config
  }

  /** `later` is this very call or one that came after it, and scan `k` runs its configuration. */
  predicate ServedBy(s: State, i: nat, k: nat, later: nat) {
    i <= later < |s.callers| && k < |s.scans| && s.scans[k].config == s.callers[later].config
  }

  ghost predicate CallerOk(s: State, i: nat)
    requires i < |s.callers|
  {
    var c := s.callers[i];
    c.scan.Some? ==>
      && c.since <= c.scan.value <= c.since + 1
      && exists later :: ServedBy(s, i, c.scan.value, later)
  }

  ghost predicate Inv(s: State) {
    ScansOk(s) && QueueOk(s) && forall i | 0 <= i < |s.callers| :: CallerOk(s, i)
  }

  /** Callers of `s` keep what they have when callers and scans are only added to. */
  lemma CallersKeep(s: State, z: State, i: nat)
    requires i < |s.callers| <= |z.callers| && |s.scans| <= |z.scans| && CallerOk(s, i)
    requires forall j | 0 <= j < |s.callers| :: z.callers[j].config == s.callers[j].config
    requires forall k | 0 <= k < |s.scans| :: z.scans[k].config == s.scans[k].config
    requires z.callers[i] == s.callers[i]
    ensures CallerOk(z, i)
  {
    if s.callers[i].scan.Some? {
      var later :| ServedBy(s, i, s.callers[i].scan.value, later);
      assert ServedBy(z, i, s.callers[i].scan.value, later);
    }
  }

  lemma AppendResolver(callers: seq<Caller>, q: Queued, settled: nat, me: Caller)
    requires ResolversOk(callers, q, settled) && me.scan.None? && me.since == settled
    ensures ResolversOk(callers + [me], Queued(me.config, q.resolvers + [|callers|]), settled)
  {
    var more := q.resolvers + [|callers|];
    assert forall i :: i in more <==> i in q.resolvers || i == |callers|;
  }

  lemma CallQueue(s: State, config: Config)
    requires ScansOk(s) && QueueOk(s)
    ensures ScansOk(Call(s, config)) && QueueOk(Call(s, config))
  {
    var me := Caller(config, None, s.settled);
    if s.queued.Some? {
      AppendResolver(s.callers, s.queued.value, s.settled, me);
      if Call(s, config).callers[|s.callers|].scan.Some? { JoinQueue(s, config); }
      hide ResolversOk;
    }
  }

  lemma JoinQueue(s: State, config: Config)
    requires s.queued.Some? && ResolversOk(s.callers, s.queued.value, s.settled)
    requires Call(s, config).callers[|s.callers|].scan.Some?
    ensures ResolversOk(Call(s, config).callers, s.queued.value, s.settled)
  {
  }

  lemma CallInv(s: State, config: Config)
    requires Inv(s)
    ensures Inv(Call(s, config))
  {
    var z, n := Call(s, config), |s.callers|;
    CallQueue(s, config);
    hide QueueOk;
    forall i | 0 <= i < |z.callers| ensures CallerOk(z, i) {
      if i < n {
        CallersKeep(s, z, i);
      } else if z.callers[n].scan.Some? {
        assert ServedBy(z, n, z.callers[n].scan.value, n);
      }
    }
    hide CallerOk, Call;
  }

  lemma EndInv(s: State, k: nat, ok: bool)
    requires Inv(s) && k < |s.scans| && s.scans[k].phase == Running
    ensures Inv(s.(scans := s.scans[k := s.scans[k].(phase := Ended(ok))]))
  {
    var z := s.(scans := s.scans[k := s.scans[k].(phase := Ended(ok))]);
    forall i | 0 <= i < |z.callers| ensures CallerOk(z, i) { CallersKeep(s, z, i); }
    hide CallerOk;
  }

  lemma FinallyQueue(s: State, k: nat)
    requires ScansOk(s) && QueueOk(s) && k < |s.scans| && s.scans[k].phase.Ended?
    ensures ScansOk(Finally(s, k)) && QueueOk(Finally(s, k))
  {
  }

  lemma FinallyCaller(s: State, k: nat, i: nat)
    requires Inv(s) && k < |s.scans| && s.scans[k].phase.Ended? && i < |s.callers|
    ensures |Finally(s, k).callers| == |s.callers| && CallerOk(Finally(s, k), i)
  {
    var z := Finally(s, k);
    if s.callers[i].scan.Some? {
      assert CallerOk(s, i);
      hide CallerOk;
      CallersKeep(s, z, i);
    } else {
      var q := s.queued.value;
      var a :| 0 <= a < |q.resolvers| && q.resolvers[a] == i;
      assert ServedBy(z, i, |s.scans|, q.resolvers[|q.resolvers| - 1]);
    }
  }

  lemma FinallyInv(s: State, k: nat)
    requires Inv(s) && k < |s.scans| && s.scans[k].phase.Ended?
    ensures Inv(Finally(s, k))
  {
    FinallyQueue(s, k);
    forall i | 0 <= i < |s.callers| ensures |Finally(s, k).callers| == |s.callers| && CallerOk(Finally(s, k), i) {
      FinallyCaller(s, k, i);
    }
    if s.callers == [] { FinallyLength(s, k); }
    hide CallerOk, Finally, ScansOk, QueueOk;
  }

  lemma FinallyLength(s: State, k: nat)
    requires k < |s.scans| && s.scans[k].phase.Ended?
    ensures |Finally(s, k).callers| == |s.callers|
  {
  }

  lemma StepInv(s: State, e: Event)
    requires Inv(s) && Enabled(s, e)
    ensures Inv(Step(s, e))
  {
    hide Inv;
    match e
    case Called(config) => CallInv(s, config);
    case InnerEnded(k, ok) => EndInv(s, k, ok);
    case FinallyRan(k) => FinallyInv(s, k);
  }

  // ----- Whole runs -----

  ghost predicate IsRun(trace: seq<State>, events: seq<Event>) {
    && |trace| == |events| + 1 && trace[0] == INIT
    && forall i | 0 <= i < |events| :: Turn(trace[i], events[i], trace[i + 1])
  }

  predicate Turn(s: State, e: Event, z: State) {
    Enabled(s, e) && z == Step(s, e)
  }

  lemma {:induction false} RunInv(trace: seq<State>, events: seq<Event>, t: nat)
    requires IsRun(trace, events) && t < |trace|
    ensures Inv(trace[t])
  {
    if t > 0 {
      RunInv(trace, events, t - 1);
      assert Turn(trace[t - 1], events[t - 1], trace[t]);
      StepInv(trace[t - 1], events[t - 1]);
    }
  }

  /** At most one scan is not settled, and a queue exists only behind it. */
  lemma OneScanAtATime(trace: seq<State>, events: seq<Event>, t: nat)
    requires IsRun(trace, events) && t < |trace|
    ensures var s := trace[t];
      && (forall k | 0 <= k < |s.scans| - 1 :: s.scans[k].phase.Settled?)
      && (s.queued.Some? ==> |s.scans| > 0 && !s.scans[|s.scans| - 1].phase.Settled?)
  {
    RunInv(trace, events, t);
    hide IsRun;
  }

  /** A scan is not settled yet. */
  predicate Busy(s: State) {
    |s.scans| > 0 && !s.scans[|s.scans| - 1].phase.Settled?
  }

  /** What a call gets: a scan of its own if none is running, the running one if that has its configuration,
      and otherwise a place in the queue, whose configuration becomes its own. */
  lemma CallIs(trace: seq<State>, events: seq<Event>, t: nat, config: Config)
    requires IsRun(trace, events) && t < |events| && events[t] == Called(config)
    ensures var s, z := trace[t], trace[t + 1];
      var n, me := |s.scans|, |s.callers|;
      && z.settled == s.settled
      && if !Busy(s) then
           && z.scans == s.scans + [Scan(config, Running)] && z.queued.None?
           && z.callers == s.callers + [Caller(config, Some(n), s.settled)]
         else if s.scans[n - 1].config == config then
           && z.scans == s.scans && z.queued == s.queued
           && z.callers == s.callers + [Caller(config, Some(n - 1), s.settled)]
         else
           && z.scans == s.scans && z.callers == s.callers + [Caller(config, None, s.settled)]
           && z.queued == Some(Queued(config, (if s.queued.Some? then s.queued.value.resolvers else []) + [me]))
  {
    RunInv(trace, events, t);
    assert Turn(trace[t], events[t], trace[t + 1]);
    hide IsRun;
  }

  /** When a scan settles, what is queued becomes the next scan, and every caller without a scan gets that
      one; nobody else's changes. */
  lemma FinallyIs(trace: seq<State>, events: seq<Event>, t: nat, k: nat)
    requires IsRun(trace, events) && t < |events| && events[t] == FinallyRan(k)
    ensures var s, z := trace[t], trace[t + 1];
      && k == |s.scans| - 1 && s.scans[k].phase.Ended? && z.settled == s.settled + 1 && z.queued.None?
      && z.scans == s.scans[k := s.scans[k].(phase := Settled(s.scans[k].phase.ok))]
          + (if s.queued.Some? then [Scan(s.queued.value.config, Running)] else [])
      && |z.callers| == |s.callers|
      && forall i | 0 <= i < |s.callers| ::
        z.callers[i] == if s.callers[i].scan.None? then s.callers[i].(scan := Some(|s.scans|)) else s.callers[i]
  {
    RunInv(trace, events, t);
    assert Turn(trace[t], events[t], trace[t + 1]);
    hide IsRun;
  }

  /** Whether, and how, the promise that call `i` returned is settled. */
  function OutcomeOf(s: State, i: nat): Option<bool>
    requires i < |s.callers|
  {
    var c := s.callers[i];
    if c.scan.Some? && c.scan.value < |s.scans| && s.scans[c.scan.value].phase.Settled?
    then Some(s.scans[c.scan.value].phase.ok) else None
  }

  /** Every caller is settled by the time two more scans are, whether scans resolve or reject, and
      with the outcome of a scan of its own configuration or that of a later caller. */
  lemma SettledWithinTwoScans(trace: seq<State>, events: seq<Event>, t: nat, i: nat)
    requires IsRun(trace, events) && t < |trace| && i < |trace[t].callers|
    ensures var s := trace[t];
      var c := s.callers[i];
      && (s.settled >= c.since + 2 ==> OutcomeOf(s, i).Some?)
      && (OutcomeOf(s, i).Some? ==> exists later :: ServedBy(s, i, c.scan.value, later))
  {
    RunInv(trace, events, t);
    hide IsRun;
    assert CallerOk(trace[t], i);
  }

  /** A call is settled once: its scan and its outcome never change again. */
  lemma {:induction false} SettledForGood(trace: seq<State>, events: seq<Event>, t: nat, u: nat, i: nat)
    requires IsRun(trace, events) && t <= u < |trace| && i < |trace[t].callers|
    ensures i < |trace[u].callers| && trace[u].callers[i].config == trace[t].callers[i].config
    ensures trace[t].callers[i].scan.Some? ==> trace[u].callers[i] == trace[t].callers[i]
    ensures OutcomeOf(trace[t], i).Some? ==> OutcomeOf(trace[u], i) == OutcomeOf(trace[t], i)
  {
    if t < u {
      SettledForGood(trace, events, t, u - 1, i);
      RunInv(trace, events, u - 1);
      assert Turn(trace[u - 1], events[u - 1], trace[u]);
      hide IsRun;
      KeepsOutcome(trace[u - 1], events[u - 1], i);
    }
  }

  lemma KeepsOutcome(s: State, e: Event, i: nat)
    requires Inv(s) && Enabled(s, e) && i < |s.callers|
    ensures var z := Step(s, e);
      && i < |z.callers| && z.callers[i].config == s.callers[i].config
      && (s.callers[i].scan.Some? ==> z.callers[i] == s.callers[i])
      && (OutcomeOf(s, i).Some? ==> OutcomeOf(z, i) == OutcomeOf(s, i))
  {
  }

  // ----- The module's variables -----

  class Scanner {
    var scanRootsInFlight: Option<nat>
    var scanRootsQueued: Option<Queued>
    /** The scans ever started, and the promises ever handed out. */
    var scans: seq<Scan>
    var callers: seq<Caller>
    /** How many scans are settled; only recorded. */
    var settled: nat

    ghost function View(): State
      reads this
    {
      State(scanRootsInFlight, scanRootsQueued, scans, callers, settled)
    }

    ghost predicate Valid()
      reads this
    {
      Inv(View())
    }

    constructor ()
      ensures Valid() && View() == INIT
    {
      scanRootsInFlight, scanRootsQueued, scans, callers, settled := None, None, [], [], 0;
    }

    method StartScanRoots(config: Config) returns (k: nat)
      modifies this
      ensures k == |old(scans)| && View() == StartScan(old(View()), config)
    {
      k := |scans|;
      scans := scans + [Scan(config, Running)];
      scanRootsInFlight := Some(k);
    }

    method ScanRoots(config: Config)
      requires Valid()
      modifies this
      ensures Valid() && View() == Step(old(View()), Called(config))
    {
      StepInv(View(), Called(config));
      if scanRootsInFlight.None? {
        var k := StartScanRoots(config);
        callers := callers + [Caller(config, Some(k), settled)];
      } else if scans[scanRootsInFlight.value].config == config {
        callers := callers + [Caller(config, scanRootsInFlight, settled)];
      } else {
        var resolver := |callers|;
        callers := callers + [Caller(config, None, settled)];
        if scanRootsQueued.Some? {
          scanRootsQueued := Some(Queued(config, scanRootsQueued.value.resolvers + [resolver]));
        } else {
          scanRootsQueued := Some(Queued(config, [resolver]));
          assert [] + [resolver] == [resolver];
        }
      }
    }

    method OnInnerSettled(k: nat, ok: bool)
      requires Valid() && Enabled(View(), InnerEnded(k, ok))
      modifies this
      ensures Valid() && View() == Step(old(View()), InnerEnded(k, ok))
    {
      StepInv(View(), InnerEnded(k, ok));
      scans := scans[k := scans[k].(phase := Ended(ok))];
    }

    method OnFinally(k: nat)
      requires Valid() && Enabled(View(), FinallyRan(k))
      modifies this
      ensures Valid() && View() == Step(old(View()), FinallyRan(k))
    {
      StepInv(View(), FinallyRan(k));
      hide Inv, Resolved;
      scanRootsInFlight := None;
      scans := scans[k := scans[k].(phase := Settled(scans[k].phase.ok))];
      settled := settled + 1;
      if scanRootsQueued.Some? {
        var next := scanRootsQueued.value;
        scanRootsQueued := None;
        var p := StartScanRoots(next.config);
        ResolveAll(next.resolvers, p);
      }
    }

    /** Every queued caller is given the promise of scan `p`. */
    method ResolveAll(resolvers: seq<nat>, p: nat)
      modifies this`callers
      ensures callers == Resolved(old(callers), resolvers, p)
    {
      for n := 0 to |resolvers|
        invariant callers == Resolved(old(callers), resolvers[..n], p)
      {
        var i := resolvers[n];
        assert forall j :: j in resolvers[..n + 1] <==> j in resolvers[..n] || j == i;
        if i < |callers| { callers := callers[i := callers[i].(scan := Some(p))]; }
      }
      assert resolvers[..|resolvers|] == resolvers;
    }
  }
}
