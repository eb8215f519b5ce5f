/** What holds in every state of the reporter, whatever the interleaving. */
module ReporterSafety {
  import opened Reporter

  // ----- Counting sends -----

  predicate Live(c: Send) {
    c.status != RolledBack
  }

  /** The sends of day window `g` that count against its limit. */
  function LiveIn(sends: seq<Send>, g: nat): (n: nat)
    ensures n <= |sends|
  {
    if sends == [] then 0
    else
      var c := sends[|sends| - 1];
      LiveIn(sends[..|sends| - 1], g) + if Live(c) && c.generation == g then 1 else 0
  }

  /** The occurrences of `fp` in sends with status `st`. */
  function Carried(sends: seq<Send>, fp: Fingerprint, st: Status): nat {
    if sends == [] then 0
    else
      var c := sends[|sends| - 1];
      Carried(sends[..|sends| - 1], fp, st) + if c.fingerprint == fp && c.status == st then c.occurrences else 0
  }

  lemma LiveInAppend(sends: seq<Send>, c: Send, g: nat)
    ensures LiveIn(sends + [c], g) == LiveIn(sends, g) + if Live(c) && c.generation == g then 1 else 0
  {
    assert (sends + [c])[..|sends|] == sends;
  }

  lemma {:induction false} LiveInUpdate(sends: seq<Send>, k: nat, c: Send, g: nat)
    requires k < |sends|
    ensures LiveIn(sends[k := c], g) + (if Live(sends[k]) && sends[k].generation == g then 1 else 0)
      == LiveIn(sends, g) + if Live(c) && c.generation == g then 1 else 0
    decreases |sends|
  {
    var n := |sends| - 1;
    if k < n {
      LiveInUpdate(sends[..n], k, c, g);
      assert sends[k := c][..n] == sends[..n][k := c];
    } else {
      assert sends[k := c][..n] == sends[..n];
    }
  }

  lemma CarriedAppend(sends: seq<Send>, c: Send, fp: Fingerprint, st: Status)
    ensures Carried(sends + [c], fp, st)
      == Carried(sends, fp, st) + if c.fingerprint == fp && c.status == st then c.occurrences else 0
  {
    assert (sends + [c])[..|sends|] == sends;
  }

  lemma {:induction false} CarriedUpdate(sends: seq<Send>, k: nat, c: Send, fp: Fingerprint, st: Status)
    requires k < |sends|
    ensures Carried(sends[k := c], fp, st)
      + (if sends[k].fingerprint == fp && sends[k].status == st then sends[k].occurrences else 0)
      == Carried(sends, fp, st) + if c.fingerprint == fp && c.status == st then c.occurrences else 0
    decreases |sends|
  {
    var n := |sends| - 1;
    if k < n {
      CarriedUpdate(sends[..n], k, c, fp, st);
      assert sends[k := c][..n] == sends[..n][k := c];
    } else {
      assert sends[k := c][..n] == sends[..n];
    }
  }

  function Total(sends: seq<Send>, fp: Fingerprint): nat {
    Carried(sends, fp, Awaiting) + Carried(sends, fp, Delivered)
    + Carried(sends, fp, Rejected) + Carried(sends, fp, RolledBack)
  }

  lemma TotalAppend(sends: seq<Send>, c: Send, fp: Fingerprint)
    ensures Total(sends + [c], fp) == Total(sends, fp) + if c.fingerprint == fp then c.occurrences else 0
  {
    hide Carried;
    CarriedAppend(sends, c, fp, Awaiting);
    CarriedAppend(sends, c, fp, Delivered);
    CarriedAppend(sends, c, fp, Rejected);
    CarriedAppend(sends, c, fp, RolledBack);
  }

  lemma TotalUpdate(sends: seq<Send>, k: nat, st: Status, fp: Fingerprint)
    requires k < |sends|
    ensures Total(sends[k := sends[k].(status := st)], fp) == Total(sends, fp)
  {
    hide Carried;
    var c := sends[k].(status := st);
    CarriedUpdate(sends, k, c, fp, Awaiting);
    CarriedUpdate(sends, k, c, fp, Delivered);
    CarriedUpdate(sends, k, c, fp, Rejected);
    CarriedUpdate(sends, k, c, fp, RolledBack);
  }

  // ----- The invariant -----

  /** A fingerprint is in flight exactly while one of its sends awaits its answer, and never two do. */
  predicate FlightsOk(s: State) {
    && (forall k | 0 <= k < |s.sends| && s.sends[k].status == Awaiting :: s.sends[k].fingerprint in s.inFlight)
    && (forall fp | fp in s.inFlight :: exists k | 0 <= k < |s.sends| ::
      s.sends[k].status == Awaiting && s.sends[k].fingerprint == fp)
    && (forall i, j | 0 <= i < j < |s.sends| && s.sends[i].status == s.sends[j].status == Awaiting ::
          s.sends[i].fingerprint != s.sends[j].fingerprint)
  }

  /** A live send is behind the stamp of its fingerprint, or an hour old. */
  predicate Stamped(s: State, c: Send) {
    || (c.fingerprint in s.lastSentAt && s.lastSentAt[c.fingerprint] == c.at)
    || (c.status != Awaiting && s.now - c.at >= THROTTLE_MS)
  }

  predicate StampsOk(s: State) {
    && (forall k | 0 <= k < |s.sends| :: 0 < s.sends[k].at <= s.now)
    && (forall k | 0 <= k < |s.sends| && Live(s.sends[k]) :: Stamped(s, s.sends[k]))
  }

  predicate Spaced(sends: seq<Send>) {
    forall i, j | 0 <= i < j < |sends| && Live(sends[i]) && Live(sends[j])
      && sends[i].fingerprint == sends[j].fingerprint ::
      sends[j].at - sends[i].at >= THROTTLE_MS
  }

  ghost predicate CountsOk(s: State) {
    && s.dayCount == LiveIn(s.sends, s.generation)
    && (forall g: nat :: LiveIn(s.sends, g) <= MAX_REPORTS_PER_DAY)
  }

  predicate WindowsOk(s: State) {
    && s.dayWindowStart <= s.now && Apart(s.sends)
    && forall k | 0 <= k < |s.sends| :: InWindow(s, s.sends[k])
  }

  /** Day windows come in order, and one that lies between two sends keeps them a day apart. */
  predicate Apart(sends: seq<Send>) {
    forall i, j | 0 <= i < j < |sends| ::
      && sends[i].generation <= sends[j].generation
      && (sends[i].generation + 1 < sends[j].generation ==> sends[i].at + DAY_MS < sends[j].at)
  }

  predicate InWindow(s: State, c: Send) {
    && c.generation <= s.generation
    && (c.generation == s.generation ==> s.dayWindowStart <= c.at <= s.dayWindowStart + DAY_MS)
    && (c.generation + 1 == s.generation ==> c.at <= s.dayWindowStart)
    && (c.generation + 1 < s.generation ==> c.at + DAY_MS < s.dayWindowStart)
  }

  function Waiting(s: State, fp: Fingerprint): nat {
    if fp in s.pending then s.pending[fp].occurrences else 0
  }

  /** Of the accepted occurrences of `fp`, all but `n` are in exactly one place. */
  predicate Lacks(s: State, fp: Fingerprint, n: nat) {
    Tally(s.accepted, fp) == n + Waiting(s, fp) + Total(s.sends, fp) + Tally(s.throttled, fp) + Tally(s.capped, fp)
  }

  /** Only `n` occurrences of `fp` are on their way from one place to another. */
  ghost predicate Moving(s: State, fp: Fingerprint, n: nat) {
    Lacks(s, fp, n) && forall q: Fingerprint | q != fp :: Lacks(s, q, 0)
  }

  ghost predicate Conserved(s: State) {
    forall q: Fingerprint :: Lacks(s, q, 0)
  }

  /** A bucket is never empty and due within its window; if it is open beside an awaiting send of its
      fingerprint, it was opened after that one. */
  ghost predicate BucketOk(s: State, fp: Fingerprint) {
    fp in s.pending ==>
      && s.pending[fp].occurrences > 0 && s.pending[fp].due <= s.now + AGGREGATION_WINDOW_MS
      && forall k: nat | Awaits(s, k) && s.sends[k].fingerprint == fp ::
        s.sends[k].at + AGGREGATION_WINDOW_MS <= s.pending[fp].due
  }

  ghost predicate BucketsOk(s: State) {
    forall fp: Fingerprint :: BucketOk(s, fp)
  }

  ghost predicate SendsOk(s: State) {
    FlightsOk(s) && StampsOk(s) && Spaced(s.sends) && CountsOk(s) && WindowsOk(s)
  }

  ghost predicate Inv(s: State) {
    SendsOk(s) && Conserved(s) && BucketsOk(s)
  }

  lemma InitInv(now: int)
    requires now > 0
    ensures Inv(Init(now))
  {
  }

  // ----- What the routines do to the sends -----

  lemma SameSends(s: State, z: State)
    requires SendsOk(s)
    requires z == s.(pending := z.pending, aborts := z.aborts, accepted := z.accepted,
                     throttled := z.throttled, capped := z.capped)
    ensures SendsOk(z)
  {
    hide LiveIn;
  }

  lemma {:induction false} NoneInFuture(s: State, g: nat, n: nat)
    requires WindowsOk(s) && g > s.generation && n <= |s.sends|
    ensures LiveIn(s.sends[..n], g) == 0 && s.sends[..|s.sends|] == s.sends
  {
    if n > 0 {
      NoneInFuture(s, g, n - 1);
      assert s.sends[..n][..n - 1] == s.sends[..n - 1];
    }
  }

  lemma ResetSends(s: State)
    requires SendsOk(s)
    ensures SendsOk(ResetDayWindowIfStale(s))
    ensures var r := ResetDayWindowIfStale(s); r.now - r.dayWindowStart <= DAY_MS
  {
    ResetStill(s);
    ResetCounts(s);
    ResetWindows(s);
    hide CountsOk, FlightsOk, Spaced, StampsOk, WindowsOk;
  }

  lemma ResetCounts(s: State)
    requires CountsOk(s) && WindowsOk(s)
    ensures CountsOk(ResetDayWindowIfStale(s))
  {
    NoneInFuture(s, s.generation + 1, |s.sends|);
    hide LiveIn;
  }

  lemma ResetWindows(s: State)
    requires WindowsOk(s)
    ensures WindowsOk(ResetDayWindowIfStale(s))
  {
    var z := ResetDayWindowIfStale(s);
    forall k | 0 <= k < |s.sends| ensures InWindow(z, s.sends[k]) { assert InWindow(s, s.sends[k]); }
    hide Apart;
  }

  lemma ResetStill(s: State)
    requires FlightsOk(s) && StampsOk(s)
    ensures FlightsOk(ResetDayWindowIfStale(s)) && StampsOk(ResetDayWindowIfStale(s))
  {
  }

  lemma ReserveFlights(s: State, fp: Fingerprint, n: nat)
    requires FlightsOk(s) && fp !in s.inFlight
    ensures FlightsOk(Reserve(s, fp, n))
  {
    var z := Reserve(s, fp, n);
    forall q | q in z.inFlight
      ensures exists k | 0 <= k < |z.sends| :: z.sends[k].status == Awaiting && z.sends[k].fingerprint == q
    {
      if q == fp {
        assert z.sends[|s.sends|].status == Awaiting;
      } else {
        var k :| 0 <= k < |s.sends| && s.sends[k].status == Awaiting && s.sends[k].fingerprint == q;
        assert z.sends[k] == s.sends[k];
      }
    }
  }

  lemma ReserveStamps(s: State, fp: Fingerprint, n: nat)
    requires StampsOk(s) && Spaced(s.sends) && FlightsOk(s)
    requires s.now > 0 && fp !in s.inFlight && !SlotTaken(s, fp)
    ensures StampsOk(Reserve(s, fp, n)) && Spaced(Reserve(s, fp, n).sends)
  {
    forall k | 0 <= k < |s.sends| && Live(s.sends[k]) && s.sends[k].fingerprint == fp
      ensures s.sends[k].status != Awaiting && s.now - s.sends[k].at >= THROTTLE_MS
    {
      assert Stamped(s, s.sends[k]);
    }
    hide FlightsOk;
  }

  lemma ReserveCounts(s: State, fp: Fingerprint, n: nat)
    requires CountsOk(s) && s.dayCount < MAX_REPORTS_PER_DAY
    ensures CountsOk(Reserve(s, fp, n))
  {
    var z := Reserve(s, fp, n);
    forall g: nat ensures LiveIn(z.sends, g) == LiveIn(s.sends, g) + if g == s.generation then 1 else 0 {
      LiveInAppend(s.sends, z.sends[|s.sends|], g);
    }
    hide LiveIn;
  }

  lemma ReserveSends(s: State, fp: Fingerprint, n: nat)
    requires SendsOk(s) && s.now - s.dayWindowStart <= DAY_MS && s.now > 0
    requires s.dayCount < MAX_REPORTS_PER_DAY && fp !in s.inFlight && !SlotTaken(s, fp)
    ensures SendsOk(Reserve(s, fp, n))
  {
    hide FlightsOk, StampsOk, Spaced, CountsOk;
    ReserveFlights(s, fp, n);
    ReserveStamps(s, fp, n);
    ReserveCounts(s, fp, n);
  }

  lemma SettleFlights(s: State, k: nat, o: Outcome)
    requires FlightsOk(s) && k < |s.sends| && s.sends[k].status == Awaiting
    ensures FlightsOk(Settle(s, k, o))
  {
    var z := Settle(s, k, o);
    assert z.inFlight == s.inFlight - {s.sends[k].fingerprint};
    assert z.sends == s.sends[k := z.sends[k]] && z.sends[k].status != Awaiting;
    hide Settle;
    forall q | q in z.inFlight
      ensures exists j | 0 <= j < |z.sends| :: z.sends[j].status == Awaiting && z.sends[j].fingerprint == q
    {
      var j :| 0 <= j < |s.sends| && s.sends[j].status == Awaiting && s.sends[j].fingerprint == q;
      assert z.sends[j] == s.sends[j];
    }
  }

  lemma SettleStamps(s: State, k: nat, o: Outcome)
    requires StampsOk(s) && Spaced(s.sends) && k < |s.sends| && s.sends[k].status == Awaiting
    ensures StampsOk(Settle(s, k, o)) && Spaced(Settle(s, k, o).sends)
  {
    var z := Settle(s, k, o);
    assert Stamped(s, s.sends[k]);
    forall j | 0 <= j < |z.sends| && Live(z.sends[j]) ensures Stamped(z, z.sends[j]) {
      assert Stamped(s, s.sends[j]);
    }
  }

  lemma SettleCounts(s: State, k: nat, o: Outcome)
    requires CountsOk(s) && k < |s.sends| && s.sends[k].status == Awaiting
    ensures CountsOk(Settle(s, k, o))
  {
    var z := Settle(s, k, o);
    var c := s.sends[k];
    forall g: nat ensures LiveIn(z.sends, g) ==
      LiveIn(s.sends, g) - if g == c.generation && !Live(z.sends[k]) then 1 else 0
    {
      LiveInUpdate(s.sends, k, z.sends[k], g);
    }
    hide LiveIn;
  }

  lemma SettleSends(s: State, k: nat, o: Outcome)
    requires SendsOk(s) && k < |s.sends| && s.sends[k].status == Awaiting
    ensures SendsOk(Settle(s, k, o))
  {
    hide FlightsOk, StampsOk, Spaced, CountsOk;
    SettleFlights(s, k, o);
    SettleStamps(s, k, o);
    SettleCounts(s, k, o);
  }

  // ----- What they do to the occurrences -----

  /** Moving `n` occurrences of `fp` out of sight of the books, and into one place. */
  lemma MoveOut(s: State, fp: Fingerprint)
    requires Conserved(s) && fp in s.pending
    ensures Moving(s.(pending := s.pending - {fp}), fp, s.pending[fp].occurrences)
  {
    hide Total;
    var z := s.(pending := s.pending - {fp});
    assert Lacks(s, fp, 0);
    forall q: Fingerprint | q != fp ensures Lacks(z, q, 0) { assert Lacks(s, q, 0); }
  }

  lemma ResetMoves(s: State, fp: Fingerprint, n: nat)
    requires Moving(s, fp, n)
    ensures Moving(ResetDayWindowIfStale(s), fp, n)
  {
    hide Total;
    var z := ResetDayWindowIfStale(s);
    forall q: Fingerprint | q != fp ensures Lacks(z, q, 0) { assert Lacks(s, q, 0); }
  }

  lemma ArmMoves(s: State, fp: Fingerprint, n: nat)
    requires Moving(s, fp, n)
    ensures Conserved(ArmAggregationWindow(s, fp, n))
  {
    hide Total;
    var z := ArmAggregationWindow(s, fp, n);
    forall q: Fingerprint ensures Lacks(z, q, 0) { if q != fp { assert Lacks(s, q, 0); } }
  }

  lemma DropMoves(s: State, fp: Fingerprint, n: nat)
    requires Moving(s, fp, n)
    ensures Conserved(s.(capped := Add(s.capped, fp, n))) && Conserved(s.(throttled := Add(s.throttled, fp, n)))
  {
    hide Total;
    var c, t := s.(capped := Add(s.capped, fp, n)), s.(throttled := Add(s.throttled, fp, n));
    forall q: Fingerprint ensures Lacks(c, q, 0) && Lacks(t, q, 0) { if q != fp { assert Lacks(s, q, 0); } }
  }

  lemma ReserveMoves(s: State, fp: Fingerprint, n: nat)
    requires Moving(s, fp, n)
    ensures Conserved(Reserve(s, fp, n))
  {
    var z := Reserve(s, fp, n);
    var c := z.sends[|s.sends|];
    forall q: Fingerprint ensures Lacks(z, q, 0) {
      TotalAppend(s.sends, c, q);
      hide Total;
      if q != fp { assert Lacks(s, q, 0); }
    }
  }

  lemma SettleMoves(s: State, k: nat, o: Outcome)
    requires Conserved(s) && k < |s.sends| && s.sends[k].status == Awaiting
    ensures Conserved(Settle(s, k, o))
  {
    hide Total;
    forall q: Fingerprint ensures Lacks(Settle(s, k, o), q, 0) {
      assert Lacks(s, q, 0);
      TotalUpdate(s.sends, k, StatusAfter(o), q);
    }
  }

  // ----- When the buckets are due -----

  lemma ArmBuckets(s: State, fp: Fingerprint, n: nat)
    requires n > 0 && forall k | 0 <= k < |s.sends| :: s.sends[k].at <= s.now
    requires BucketsOk(s)
    ensures BucketsOk(ArmAggregationWindow(s, fp, n))
  {
    var z := ArmAggregationWindow(s, fp, n);
    assert forall k: nat :: Awaits(z, k) <==> Awaits(s, k);
    forall q: Fingerprint ensures BucketOk(z, q) { assert BucketOk(s, q); }
  }

  lemma ReserveBuckets(s: State, fp: Fingerprint, n: nat)
    requires fp !in s.pending && BucketsOk(s)
    ensures BucketsOk(Reserve(s, fp, n))
  {
    var z := Reserve(s, fp, n);
    forall q: Fingerprint ensures BucketOk(z, q) {
      assert BucketOk(s, q);
      forall k: nat | Awaits(z, k) && z.sends[k].fingerprint == q && q in z.pending
        ensures z.sends[k].at + AGGREGATION_WINDOW_MS <= z.pending[q].due
      {
        assert Awaits(s, k) && z.sends[k] == s.sends[k];
      }
    }
  }

  lemma FlushBuckets(s: State, fp: Fingerprint)
    requires fp in s.pending && BucketsOk(s)
    requires forall k | 0 <= k < |s.sends| :: s.sends[k].at <= s.now
    ensures BucketsOk(Flush(s, fp))
  {
    assert BucketOk(s, fp);
    var r := ResetDayWindowIfStale(s.(pending := s.pending - {fp}));
    forall q: Fingerprint ensures BucketOk(r, q) { assert BucketOk(s, q); }
    ArmBuckets(r, fp, s.pending[fp].occurrences);
    ReserveBuckets(r, fp, s.pending[fp].occurrences);
    var z := Flush(s, fp);
    hide ResetDayWindowIfStale, ArmAggregationWindow, Reserve;
    if z != Reserve(r, fp, s.pending[fp].occurrences) && z != ArmAggregationWindow(r, fp, s.pending[fp].occurrences) {
      assert z.pending == r.pending && z.sends == r.sends && z.now == r.now;
      forall q: Fingerprint ensures BucketOk(z, q) { assert BucketOk(r, q); }
    }
  }

  lemma SettleBuckets(s: State, k: nat, o: Outcome)
    requires Awaits(s, k) && BucketsOk(s)
    ensures BucketsOk(Settle(s, k, o))
  {
    var z := Settle(s, k, o);
    forall j: nat | Awaits(z, j) ensures Awaits(s, j) && z.sends[j] == s.sends[j] {}
    forall q: Fingerprint ensures BucketOk(z, q) { assert BucketOk(s, q); }
  }

  lemma StepBuckets(s: State, e: Event)
    requires Enabled(s, e) && BucketsOk(s)
    requires forall k | 0 <= k < |s.sends| :: s.sends[k].at <= s.now
    ensures BucketsOk(Step(s, e))
  {
    match e
    case Reported(fp, filtered) =>
      if !filtered {
        var r := s.(accepted := Add(s.accepted, fp, 1));
        forall q: Fingerprint ensures BucketOk(r, q) { assert BucketOk(s, q); }
        ArmBuckets(r, fp, 1);
      }
    case TimerFired(fp) => FlushBuckets(s, fp);
    case Settled(k, o) => SettleBuckets(s, k, o);
    case _ => forall q: Fingerprint ensures BucketOk(Step(s, e), q) { assert BucketOk(s, q); }
  }

  // ----- Every event keeps the invariant -----

  lemma ReportInv(s: State, fp: Fingerprint)
    requires Inv(s)
    ensures SendsOk(Report(s, fp, false)) && Conserved(Report(s, fp, false))
  {
    hide SendsOk, BucketsOk;
    var r := s.(accepted := Add(s.accepted, fp, 1));
    assert Moving(r, fp, 1) by {
      hide Total;
      assert Lacks(s, fp, 0);
      forall q: Fingerprint | q != fp ensures Lacks(r, q, 0) { assert Lacks(s, q, 0); }
    }
    SameSends(s, Report(s, fp, false));
    ArmMoves(r, fp, 1);
    hide Conserved, Moving;
  }

  lemma FlushInv(s: State, fp: Fingerprint)
    requires Inv(s) && s.now > 0 && fp in s.pending
    ensures SendsOk(Flush(s, fp)) && Conserved(Flush(s, fp))
  {
    hide SendsOk, Conserved, Moving;
    var n, out := s.pending[fp].occurrences, s.(pending := s.pending - {fp});
    var r, z := ResetDayWindowIfStale(out), Flush(s, fp);
    MoveOut(s, fp);
    SameSends(s, out);
    ResetSends(out);
    ResetMoves(out, fp, n);
    if r.dayCount >= MAX_REPORTS_PER_DAY || (fp !in r.inFlight && SlotTaken(r, fp)) {
      DropMoves(r, fp, n);
      SameSends(r, z);
    } else if fp in r.inFlight {
      ArmMoves(r, fp, n);
      SameSends(r, z);
    } else {
      ReserveMoves(r, fp, n);
      ReserveSends(r, fp, n);
    }
  }

  lemma TickInv(s: State, elapsed: nat)
    requires SendsOk(s) && Conserved(s)
    ensures SendsOk(s.(now := s.now + elapsed)) && Conserved(s.(now := s.now + elapsed))
  {
    var z := s.(now := s.now + elapsed);
    assert StampsOk(z) by {
      forall k | 0 <= k < |s.sends| && Live(s.sends[k])
        ensures Stamped(z, z.sends[k])
      {
        assert Stamped(s, s.sends[k]);
      }
    }
    forall q: Fingerprint ensures Lacks(z, q, 0) { assert Lacks(s, q, 0); }
  }

  lemma AbortInv(s: State, k: nat)
    requires SendsOk(s) && Conserved(s)
    ensures SendsOk(s.(aborts := s.aborts + {k})) && Conserved(s.(aborts := s.aborts + {k}))
  {
    var z := s.(aborts := s.aborts + {k});
    SameSends(s, z);
    hide SendsOk;
    forall q: Fingerprint ensures Lacks(z, q, 0) { assert Lacks(s, q, 0); }
  }

  lemma SentBefore(s: State)
    requires SendsOk(s)
    ensures forall k | 0 <= k < |s.sends| :: s.sends[k].at <= s.now
  {
  }

  lemma StepBooks(s: State, e: Event)
    requires Inv(s) && s.now > 0 && Enabled(s, e)
    ensures SendsOk(Step(s, e)) && Conserved(Step(s, e)) && Step(s, e).now > 0
  {
    hide SendsOk, Conserved, BucketsOk;
    match e
    case Reported(fp, filtered) => if !filtered { ReportInv(s, fp); }
    case TimerFired(fp) => FlushInv(s, fp);
    case Aborted(k) => AbortInv(s, k);
    case Settled(k, o) =>
      SettleSends(s, k, o);
      SettleMoves(s, k, o);
    case Tick(elapsed) => TickInv(s, elapsed);
  }

  lemma StepInv(s: State, e: Event)
    requires Inv(s) && s.now > 0 && Enabled(s, e)
    ensures Inv(Step(s, e)) && Step(s, e).now > 0
  {
    SentBefore(s);
    StepBooks(s, e);
    StepBuckets(s, e);
    hide *;
  }

  // ----- Whole runs -----

  ghost predicate IsRun(trace: seq<State>, events: seq<Event>) {
    && |trace| == |events| + 1
    && (exists now | now > 0 :: trace[0] == Init(now))
    && (forall i | 0 <= i < |events| :: Enabled(trace[i], events[i]) && trace[i + 1] == Step(trace[i], events[i]))
  }

  lemma {:induction false} RunInv(trace: seq<State>, events: seq<Event>, t: nat)
    requires IsRun(trace, events) && t < |trace|
    ensures Inv(trace[t]) && trace[t].now > 0
  {
    hide Inv;
    if t == 0 {
      var now :| now > 0 && trace[0] == Init(now);
      InitInv(now);
    } else {
      RunInv(trace, events, t - 1);
      StepInv(trace[t - 1], events[t - 1]);
    }
  }

  /** Per fingerprint, sends that were not rolled back are reserved at least an hour apart, and no
      two await their answer together. */
  lemma OneSendPerHour(trace: seq<State>, events: seq<Event>, t: nat, i: nat, j: nat)
    requires IsRun(trace, events) && t < |trace| && i < j < |trace[t].sends|
    requires trace[t].sends[i].fingerprint == trace[t].sends[j].fingerprint
    ensures var sends := trace[t].sends;
      && (sends[i].status != RolledBack && sends[j].status != RolledBack ==> sends[j].at - sends[i].at >= 3_600_000)
      && !(sends[i].status == Awaiting && sends[j].status == Awaiting)
  {
    hide IsRun;
    RunInv(trace, events, t);
  }

  /** The day counter is exactly the number of sends of the current window that are in flight or
      kept, and at most 200; so a rollback never meets the clamp at zero. */
  lemma DayCounterIsExact(trace: seq<State>, events: seq<Event>, t: nat)
    requires IsRun(trace, events) && t < |trace|
    ensures trace[t].dayCount == LiveIn(trace[t].sends, trace[t].generation) <= 200
    ensures forall k | 0 <= k < |trace[t].sends| && trace[t].sends[k].status == Awaiting &&
        trace[t].sends[k].generation == trace[t].generation ::
      RolledBackCount(trace[t], trace[t].generation) == trace[t].dayCount - 1 >= 0
  {
    RunInv(trace, events, t);
    var s := trace[t];
    hide IsRun, Inv;
    forall k | 0 <= k < |s.sends| && s.sends[k].status == Awaiting && s.sends[k].generation == s.generation
      ensures LiveIn(s.sends, s.generation) > 0
    {
      LiveInUpdate(s.sends, k, s.sends[k].(status := RolledBack), s.generation);
    }
  }

  /** The live sends of the day that starts at `from`. */
  function LiveBetween(sends: seq<Send>, from: int): nat {
    if sends == [] then 0
    else
      var c := sends[|sends| - 1];
      LiveBetween(sends[..|sends| - 1], from) + if Live(c) && from <= c.at <= from + DAY_MS then 1 else 0
  }

  lemma {:induction false} TwoWindowsCover(sends: seq<Send>, from: int, g: nat)
    requires forall k | 0 <= k < |sends| && from <= sends[k].at <= from + DAY_MS :: g <= sends[k].generation <= g + 1
    ensures LiveBetween(sends, from) <= LiveIn(sends, g) + LiveIn(sends, g + 1)
  {
    if sends != [] { TwoWindowsCover(sends[..|sends| - 1], from, g); }
  }

  /** The limit of 200 is one of day windows, which start when a flush finds the last one stale: in
      an arbitrary stretch of 24 hours it allows twice as many sends, and no more. */
  lemma AtMost400InAnyDay(trace: seq<State>, events: seq<Event>, t: nat, from: int)
    requires IsRun(trace, events) && t < |trace|
    ensures LiveBetween(trace[t].sends, from) <= 400
  {
    RunInv(trace, events, t);
    var sends := trace[t].sends;
    hide IsRun;
    var g := WindowsOfDay(sends, from);
    TwoWindowsCover(sends, from, g);
    hide Inv;
  }

  /** The sends of one day lie in two successive windows, `g` and the next. */
  lemma {:induction false} WindowsOfDay(sends: seq<Send>, from: int) returns (g: nat)
    requires Apart(sends)
    ensures forall k | 0 <= k < |sends| && from <= sends[k].at <= from + DAY_MS :: g <= sends[k].generation <= g + 1
  {
    if sends == [] {
      g := 0;
    } else if from <= sends[0].at <= from + DAY_MS {
      g := sends[0].generation;
    } else {
      g := WindowsOfDay(sends[1..], from);
      forall k | 0 <= k < |sends| && from <= sends[k].at <= from + DAY_MS ensures g <= sends[k].generation <= g + 1 {
        assert sends[k] == sends[1..][k - 1];
      }
    }
  }

  /** Every accepted occurrence is waiting in the bucket of its fingerprint, or in exactly one send
      (awaited, delivered, rejected, or failed), or counted in a logged throttle drop or in a
      silent drop at the day limit: none is lost and none is counted twice. */
  lemma OccurrencesAreConserved(trace: seq<State>, events: seq<Event>, t: nat, fp: Fingerprint)
    requires IsRun(trace, events) && t < |trace|
    ensures var s := trace[t];
      Tally(s.accepted, fp) == Waiting(s, fp)
        + Carried(s.sends, fp, Awaiting) + Carried(s.sends, fp, Delivered)
        + Carried(s.sends, fp, Rejected) + Carried(s.sends, fp, RolledBack)
        + Tally(s.throttled, fp) + Tally(s.capped, fp)
  {
    hide IsRun, Carried;
    RunInv(trace, events, t);
    assert Lacks(trace[t], fp, 0);
  }
}
