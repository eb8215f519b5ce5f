/** The reporter as its module keeps it: variables that routines update in place around their
    awaits. Each routine is proved against the function of `Reporter` that specifies it. */
module AgentAutofix {
  import opened Reporter
  import opened ReporterSafety

  class Forwarder {
    var lastSentAt: map<Fingerprint, int>
    var dayWindowStart: int
    var dayCount: int
    var dayWindowGeneration: nat
    var inFlightSend: set<Fingerprint>
    var pendingAggregates: map<Fingerprint, Bucket>
    /** What `Date.now()` answers. */
    var clock: int

    ghost var aborts: set<nat>
    ghost var sends: seq<Send>
    ghost var accepted: map<Fingerprint, nat>
    ghost var throttled: map<Fingerprint, nat>
    ghost var capped: map<Fingerprint, nat>

    ghost function View(): State
      reads this
    {
      State(clock, lastSentAt, dayWindowStart, dayCount, dayWindowGeneration, inFlightSend, pendingAggregates,
            aborts, sends, accepted, throttled, capped)
    }

    ghost predicate Valid()
      reads this
    {
      clock > 0 && Inv(View())
    }

    constructor (now: int)
      requires now > 0
      ensures Valid() && View() == Init(now)
    {
      lastSentAt, dayWindowStart, dayCount, dayWindowGeneration := map[], now, 0, 0;
      inFlightSend, pendingAggregates, clock := {}, map[], now;
      aborts, sends, accepted, throttled, capped := {}, [], map[], map[], map[];
      new;
      InitInv(now);
    }

    // ----- Routines -----

    method ResetWindow()
      modifies this
      ensures View() == ResetDayWindowIfStale(old(View()))
    {
      var now := clock;
      if now - dayWindowStart > 24 * 60 * 60 * 1000 {
        dayWindowStart := now;
        dayCount := 0;
        dayWindowGeneration := dayWindowGeneration + 1;
      }
    }

    method Arm(fp: Fingerprint, occurrences: nat)
      modifies this
      ensures View() == ArmAggregationWindow(old(View()), fp, occurrences)
    {
      if fp in pendingAggregates {
        var existing := pendingAggregates[fp];
        pendingAggregates := pendingAggregates[fp := existing.(occurrences := existing.occurrences + occurrences)];
        return;
      }
      pendingAggregates := pendingAggregates[fp := Bucket(occurrences, clock + AGGREGATION_WINDOW_MS)];
    }

    method ReserveThrottleSlot(fp: Fingerprint, now: int) returns (reserved: bool)
      requires now == clock
      modifies this
      ensures reserved == !SlotTaken(old(View()), fp)
      ensures View() == if reserved
        then old(View()).(lastSentAt := old(lastSentAt)[fp := now], inFlight := old(inFlightSend) + {fp})
        else old(View())
    {
      if fp in lastSentAt {
        var last := lastSentAt[fp];
        if last != 0 && now - last < THROTTLE_MS { return false; }
      }
      lastSentAt := lastSentAt[fp := now];
      inFlightSend := inFlightSend + {fp};
      return true;
    }

    /** `SendAggregatedReport` up to its request; if it gets there, the request captures the window. */
    method Send(fp: Fingerprint, occurrences: nat) returns (requested: bool, reservedDayWindowGeneration: nat)
      modifies this
      ensures View() == SendAggregatedReport(old(View()), fp, occurrences)
      ensures requested <==> |sends| == |old(sends)| + 1
      ensures requested ==>
        sends[|old(sends)|] == Reporter.Send(fp, occurrences, reservedDayWindowGeneration, clock, Awaiting)
    {
      requested, reservedDayWindowGeneration := false, 0;
      ResetWindow();
      if dayCount >= MAX_REPORTS_PER_DAY {
        capped := Add(capped, fp, occurrences);
        return;
      }
      var now := clock;
      if fp in inFlightSend {
        Arm(fp, occurrences);
        return;
      }
      var reserved := ReserveThrottleSlot(fp, now);
      if !reserved {
        throttled := Add(throttled, fp, occurrences);
        return;
      }
      requested, reservedDayWindowGeneration := true, dayWindowGeneration;
      dayCount := dayCount + 1;
      sends := sends + [Reporter.Send(fp, occurrences, dayWindowGeneration, now, Awaiting)];
    }

    method RollbackDayCount(reservedDayWindowGeneration: nat)
      modifies this
      ensures View() == old(View()).(dayCount := RolledBackCount(old(View()), reservedDayWindowGeneration))
    {
      if dayWindowGeneration == reservedDayWindowGeneration {
        dayCount := if dayCount - 1 > 0 then dayCount - 1 else 0;
      }
    }

    // ----- Events -----

    method ReportSelfError(fp: Fingerprint, filtered: bool)
      requires Valid()
      modifies this
      ensures Valid() && View() == Step(old(View()), Reported(fp, filtered))
    {
      hide Inv, SendsOk, Conserved, BucketsOk;
      StepInv(View(), Reported(fp, filtered));
      if filtered { return; }
      accepted := Add(accepted, fp, 1);
      if fp in pendingAggregates {
        var existing := pendingAggregates[fp];
        pendingAggregates := pendingAggregates[fp := existing.(occurrences := existing.occurrences + 1)];
        return;
      }
      Arm(fp, 1);
    }

    /** The callback of an aggregation timer. */
    method OnWindowClosed(fp: Fingerprint) returns (requested: bool, reservedDayWindowGeneration: nat)
      requires Valid() && Enabled(View(), TimerFired(fp))
      modifies this
      ensures Valid() && View() == Step(old(View()), TimerFired(fp))
    {
      hide Inv, SendsOk, Conserved, BucketsOk;
      StepInv(View(), TimerFired(fp));
      requested, reservedDayWindowGeneration := false, 0;
      if fp in pendingAggregates {
        var agg := pendingAggregates[fp];
        pendingAggregates := pendingAggregates - {fp};
        requested, reservedDayWindowGeneration := Send(fp, agg.occurrences);
      }
    }

    /** The timeout of send `k` fires: its request is aborted, and nothing else happens yet. */
    method OnTimeout(ghost k: nat)
      requires Valid() && Enabled(View(), Aborted(k))
      modifies this
      ensures Valid() && View() == Step(old(View()), Aborted(k))
    {
      hide Inv, SendsOk, Conserved, BucketsOk;
      StepInv(View(), Aborted(k));
      aborts := aborts + {k};
    }

    /** What follows the request of send `k`, with what its closure captured. */
    method OnSettled(ghost k: nat, fp: Fingerprint, reservedDayWindowGeneration: nat, outcome: Outcome)
      requires Valid() && Enabled(View(), Settled(k, outcome))
      requires fp == sends[k].fingerprint && reservedDayWindowGeneration == sends[k].generation
      modifies this
      ensures Valid() && View() == Step(old(View()), Settled(k, outcome))
    {
      hide Inv, SendsOk, Conserved, BucketsOk;
      StepInv(View(), Settled(k, outcome));
      sends := sends[k := sends[k].(status := StatusAfter(outcome))];
      match outcome {
        case RateLimited =>
          lastSentAt := lastSentAt - {fp};
          RollbackDayCount(reservedDayWindowGeneration);
          inFlightSend := inFlightSend - {fp};
        case Refused =>
          inFlightSend := inFlightSend - {fp};
        case Ok =>
          inFlightSend := inFlightSend - {fp};
        case Failed =>
          lastSentAt := lastSentAt - {fp};
          RollbackDayCount(reservedDayWindowGeneration);
          inFlightSend := inFlightSend - {fp};
      }
    }

    method Elapse(elapsed: nat)
      requires Valid()
      modifies this
      ensures Valid() && View() == Step(old(View()), Tick(elapsed))
    {
      hide Inv, SendsOk, Conserved, BucketsOk;
      StepInv(View(), Tick(elapsed));
      clock := clock + elapsed;
    }
  }
}
