/** What the events of the reporter come to, in the fields of the states before and after: when a window
    sends, when the hour drops it, and what an answer gives back. */
module ReporterOutcomes {
  import opened Reporter
  import opened ReporterSafety
  import opened ReporterTimers

  // ----- A window that closes -----

  /** The window sends all it has. */
  predicate SendsAll(s: State, z: State, fp: Fingerprint) {
    && z.sends == s.sends + [Send(fp, Waiting(s, fp), z.generation, s.now, Awaiting)]
    && z.lastSentAt == s.lastSentAt[fp := s.now] && z.inFlight == s.inFlight + {fp}
    && z.pending == s.pending - {fp} && z.throttled == s.throttled && z.capped == s.capped
  }

  /** The window is dropped, and all it has is counted as throttled. */
  predicate DropsAll(s: State, z: State, fp: Fingerprint) {
    && z.throttled == s.throttled[fp := Tally(s.throttled, fp) + Waiting(s, fp)]
    && z.sends == s.sends && z.lastSentAt == s.lastSentAt && z.inFlight == s.inFlight
    && z.pending == s.pending - {fp} && z.capped == s.capped
  }

  /** The window is dropped, and all it has is counted as beyond the day limit. */
  predicate CapsAll(s: State, z: State, fp: Fingerprint) {
    && z.capped == s.capped[fp := Tally(s.capped, fp) + Waiting(s, fp)]
    && z.sends == s.sends && z.lastSentAt == s.lastSentAt && z.inFlight == s.inFlight
    && z.pending == s.pending - {fp} && z.throttled == s.throttled
  }

  /** The day counter goes on, from 0 in a new window once the old one is more than a day old. */
  predicate DayGoesOn(s: State, z: State, sent: bool) {
    && (if s.now - s.dayWindowStart > 86_400_000
        then z.dayWindowStart == s.now && z.generation == s.generation + 1 && z.dayCount == (if sent then 1 else 0)
        else z.dayWindowStart == s.dayWindowStart && z.generation == s.generation
             && z.dayCount == s.dayCount + if sent then 1 else 0)
  }

  lemma FlushFields(s: State, fp: Fingerprint)
    requires fp in s.pending
    ensures var z := Flush(s, fp);
      if AtLimit(s) then CapsAll(s, z, fp) && DayGoesOn(s, z, false)
      else if fp in s.inFlight then
        z.sends == s.sends && z.lastSentAt == s.lastSentAt && DayGoesOn(s, z, false)
      else
        DayGoesOn(s, z, !SlotTaken(s, fp)) && if SlotTaken(s, fp) then DropsAll(s, z, fp) else SendsAll(s, z, fp)
  {
  }

  // ----- Every stamp has its send -----

  /** Send `k` stands behind the stamp of `fp`. */
  predicate Backs(s: State, k: nat, fp: Fingerprint) {
    && fp in s.lastSentAt && k < |s.sends| && s.sends[k].fingerprint == fp && s.sends[k].status != RolledBack
    && s.sends[k].at == s.lastSentAt[fp]
  }

  ghost predicate Backed(s: State) {
    forall fp | fp in s.lastSentAt :: exists k :: Backs(s, k, fp)
  }

  lemma BackedStays(s: State, z: State, but: Fingerprint)
    requires Backed(s) && forall fp | fp in z.lastSentAt && fp != but :: fp in s.lastSentAt
    requires forall k, fp | fp != but && fp in z.lastSentAt && Backs(s, k, fp) :: Backs(z, k, fp)
    requires but in z.lastSentAt ==> exists k :: Backs(z, k, but)
    ensures Backed(z)
  {
    forall fp | fp in z.lastSentAt ensures exists k :: Backs(z, k, fp) {
      if fp != but {
        var k :| Backs(s, k, fp);
        assert Backs(z, k, fp);
      }
    }
  }

  lemma SettleBacked(s: State, k: nat, o: Outcome)
    requires SendsOk(s) && Awaits(s, k) && Backed(s)
    ensures Backed(Settle(s, k, o))
  {
    var z, fp := Settle(s, k, o), s.sends[k].fingerprint;
    assert z.lastSentAt == if o == RateLimited || o == Failed then s.lastSentAt - {fp} else s.lastSentAt;
    if fp in z.lastSentAt {
      assert Stamped(s, s.sends[k]) by { assert StampsOk(s); }
      assert Backs(z, k, fp);
    }
    BackedStays(s, z, fp);
  }

  lemma FlushBacked(s: State, fp: Fingerprint)
    requires fp in s.pending && Backed(s)
    ensures Backed(Flush(s, fp))
  {
    var z := Flush(s, fp);
    FlushFields(s, fp);
    hide Flush, SlotTaken, AtLimit, DayGoesOn, Waiting, Backed;
    if z.sends == s.sends {
      SameBacked(s, z);
    } else {
      assert Backs(z, |s.sends|, fp);
      BackedStays(s, z, fp);
    }
  }

  lemma StepBacked(s: State, e: Event)
    requires SendsOk(s) && Enabled(s, e) && Backed(s)
    ensures Backed(Step(s, e))
  {
    hide SendsOk, Backed, Flush, Settle;
    match e
    case TimerFired(fp) => FlushBacked(s, fp);
    case Settled(k, o) => SettleBacked(s, k, o);
    case _ => SameBacked(s, Step(s, e));
  }

  lemma {:induction false} RunBacked(trace: seq<State>, events: seq<Event>, t: nat)
    requires IsRun(trace, events) && t < |trace|
    ensures Backed(trace[t])
  {
    if t > 0 {
      RunBacked(trace, events, t - 1);
      RunInv(trace, events, t - 1);
      hide SendsOk, Backed, Step, Enabled, Conserved, BucketsOk;
      StepBacked(trace[t - 1], events[t - 1]);
    }
  }

  lemma SameBacked(s: State, z: State)
    requires Backed(s) && z.sends == s.sends && z.lastSentAt == s.lastSentAt
    ensures Backed(z)
  {
    forall fp | fp in z.lastSentAt ensures exists k :: Backs(z, k, fp) {
      var k :| Backs(s, k, fp);
      assert Backs(z, k, fp);
    }
  }
  // ----- The hour -----

  /** A send of `fp` that was not rolled back was reserved less than an hour ago. */
  predicate SentLately(s: State, fp: Fingerprint) {
    exists k | 0 <= k < |s.sends| ::
      s.sends[k].fingerprint == fp && s.sends[k].status != RolledBack && s.now - s.sends[k].at < 3_600_000
  }

  lemma SlotTakenIff(s: State, fp: Fingerprint)
    requires StampsOk(s) && Backed(s) && fp !in s.inFlight && FlightsOk(s)
    ensures SlotTaken(s, fp) <==> SentLately(s, fp)
  {
    if SlotTaken(s, fp) {
      var k: nat :| Backs(s, k, fp);
      assert s.sends[k].fingerprint == fp;
    }
    forall k | 0 <= k < |s.sends| && s.sends[k].fingerprint == fp && s.sends[k].status != RolledBack
      ensures Stamped(s, s.sends[k])
    {
      assert Live(s.sends[k]);
    }
  }

  /** For every window of every run that closes with nothing of its fingerprint in flight: at the day limit
      it is dropped as such. Below it, the window sends all it has exactly if no send of the fingerprint that
      was not rolled back is less than an hour old; otherwise all it has is counted as throttled. */
  lemma ThrottlesIff(trace: seq<State>, events: seq<Event>, t: nat, fp: Fingerprint)
    requires IsRun(trace, events) && t < |events| && events[t] == TimerFired(fp) && fp !in trace[t].inFlight
    ensures var s, z := trace[t], trace[t + 1];
      && Waiting(s, fp) > 0 && DayGoesOn(s, z, !AtLimit(s) && !SentLately(s, fp))
      && if AtLimit(s) then CapsAll(s, z, fp) else if SentLately(s, fp) then DropsAll(s, z, fp) else SendsAll(s, z, fp)
  {
    RunInv(trace, events, t);
    RunBacked(trace, events, t);
    var s := trace[t];
    assert Enabled(s, events[t]) && trace[t + 1] == Step(s, events[t]);
    hide IsRun;
    assert BucketOk(s, fp);
    SlotTakenIff(s, fp);
    FlushFields(s, fp);
    hide Inv, Flush, SlotTaken, SentLately, DropsAll, SendsAll, CapsAll, DayGoesOn, AtLimit;
  }

  // ----- Reports and answers -----

  /** An error that is not filtered out is one occurrence more, in the bucket of its fingerprint, which is
      opened for 45 s if there was none. */
  lemma ReportIs(trace: seq<State>, events: seq<Event>, t: nat, fp: Fingerprint, filtered: bool)
    requires IsRun(trace, events) && t < |events| && events[t] == Reported(fp, filtered)
    ensures var s, z := trace[t], trace[t + 1];
      && (filtered ==> z == s)
      && (!filtered ==>
            && z == s.(accepted := z.accepted, pending := z.pending)
            && z.accepted == s.accepted[fp := Tally(s.accepted, fp) + 1]
            && fp in z.pending && z.pending[fp].occurrences == Waiting(s, fp) + 1
            && z.pending[fp].due == (if fp in s.pending then s.pending[fp].due else s.now + 45_000)
            && z.pending - {fp} == s.pending - {fp})
  {
    assert Enabled(trace[t], events[t]) && trace[t + 1] == Step(trace[t], events[t]);
    hide IsRun;
  }

  /** A request is aborted only when it has awaited its answer for ten seconds; that alone changes nothing. */
  lemma AbortIs(trace: seq<State>, events: seq<Event>, t: nat, k: nat)
    requires IsRun(trace, events) && t < |events| && events[t] == Aborted(k)
    ensures var s, z := trace[t], trace[t + 1];
      && k < |s.sends| && s.sends[k].status == Awaiting && s.now - s.sends[k].at >= 10_000
      && z == s.(aborts := s.aborts + {k})
  {
    assert Enabled(trace[t], events[t]) && trace[t + 1] == Step(trace[t], events[t]);
    hide IsRun;
  }

  /** What an answer gives back: after a delivery or a refusal the hour and the day stay used; a rate limit or
      a failure frees the hour, and the day if it is still the same. */
  lemma SettleIs(trace: seq<State>, events: seq<Event>, t: nat, k: nat, o: Outcome)
    requires IsRun(trace, events) && t < |events| && events[t] == Settled(k, o)
    ensures k < |trace[t].sends| && trace[t].sends[k].status == Awaiting
    ensures var s, z, fp := trace[t], trace[t + 1], trace[t].sends[k].fingerprint;
      && z.inFlight == s.inFlight - {fp} && z.pending == s.pending
      && z.throttled == s.throttled && z.capped == s.capped
      && (o == Ok || o == Refused ==>
            && z.sends == s.sends[k := s.sends[k].(status := if o == Ok then Delivered else Rejected)]
            && z.dayCount == s.dayCount
            && fp in z.lastSentAt && z.lastSentAt == s.lastSentAt && z.lastSentAt[fp] == s.sends[k].at)
      && (o == RateLimited || o == Failed ==>
            && z.sends == s.sends[k := s.sends[k].(status := RolledBack)] && z.lastSentAt == s.lastSentAt - {fp}
            && z.dayCount == s.dayCount - if s.sends[k].generation == s.generation then 1 else 0)
  {
    RunInv(trace, events, t);
    var s := trace[t];
    assert Enabled(s, events[t]) && trace[t + 1] == Step(s, events[t]);
    hide IsRun;
    assert Stamped(s, s.sends[k]) by { assert StampsOk(s); }
    assert s.sends[k].generation == s.generation ==> s.dayCount > 0 by { Counted(s, k); }
    hide Inv;
  }

  lemma Counted(s: State, k: nat)
    requires Inv(s) && Awaits(s, k)
    ensures s.sends[k].generation == s.generation ==> s.dayCount > 0
  {
    if s.sends[k].generation == s.generation { LiveIsCounted(s.sends, k, s.generation); }
    hide LiveIn;
  }

  lemma {:induction false} LiveIsCounted(sends: seq<Send>, k: nat, g: nat)
    requires k < |sends| && Live(sends[k]) && sends[k].generation == g
    ensures LiveIn(sends, g) > 0
    decreases |sends|
  {
    if k < |sends| - 1 { LiveIsCounted(sends[..|sends| - 1], k, g); }
  }
}
