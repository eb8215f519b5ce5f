/** Theorems about whole runs of the send ledger. */
module SendLedgerRuns {
  import opened Wrappers
  import opened SendLedger
  import opened SendLedgerSafety

  ghost predicate IsRun(trace: seq<State>, events: seq<Event>) {
    && |trace| == |events| + 1
    && (exists now :: trace[0] == Init(now))
    && (forall i | 0 <= i < |events| :: Turn(trace[i], events[i], trace[i + 1]))
  }

  predicate Turn(s: State, e: Event, z: State) {
    Enabled(s, e) && z == Step(s, e)
  }

  lemma {:induction false} RunInv(trace: seq<State>, events: seq<Event>, t: nat)
    requires IsRun(trace, events) && t < |trace|
    ensures Inv(trace[t])
  {
    hide Inv;
    if t == 0 {
      var now :| trace[0] == Init(now);
      InitInv(now);
    } else {
      RunInv(trace, events, t - 1);
      assert Turn(trace[t - 1], events[t - 1], trace[t]);
      StepInv(trace[t - 1], events[t - 1]);
    }
  }

  // ----- Exactly once -----

  /** The event is a request whose sweep throws the entry of `k` out. */
  predicate Evicts(s: State, e: Event, k: Key) {
    e.Posted? && k in s.slots && k !in Sweep(s).slots
  }

  /** The event inserts a message row for `k`. */
  predicate Inserts(s: State, e: Event, k: Key) {
    e.RowInserted? && e.t in s.dispatches && s.dispatches[e.t].key == k
  }

  /** In the event the runner accepts a frame for `k`. */
  predicate Accepts(s: State, e: Event, k: Key) {
    || (e.RowInserted? && e.sending == Sent && e.t in s.dispatches && s.dispatches[e.t].key == k)
    || (e.GatesOpen? && e.sending == Sent && e.t in s.dispatches && s.dispatches[e.t].key == k
        && s.dispatches[e.t].reuse.Some?)
  }

  function InsertsIn(trace: seq<State>, events: seq<Event>, k: Key, i: nat, j: nat): nat
    requires i <= j <= |events| < |trace|
  {
    if i == j then 0
    else InsertsIn(trace, events, k, i, j - 1) + if Inserts(trace[j - 1], events[j - 1], k) then 1 else 0
  }

  function AcceptsIn(trace: seq<State>, events: seq<Event>, k: Key, i: nat, j: nat): nat
    requires i <= j <= |events| < |trace|
  {
    if i == j then 0
    else AcceptsIn(trace, events, k, i, j - 1) + if Accepts(trace[j - 1], events[j - 1], k) then 1 else 0
  }

  lemma StepCounts(s: State, e: Event, k: Key)
    requires Enabled(s, e) && !Evicts(s, e, k)
    ensures Count(Step(s, e).inserts, k) == Count(s.inserts, k) + if Inserts(s, e, k) then 1 else 0
    ensures Count(Step(s, e).accepts, k) == Count(s.accepts, k) + if Accepts(s, e, k) then 1 else 0
  {
    hide Post, GatesPassed, Inserted, Finish;
    match e
    case Posted(p) => PostCounts(s, p, k);
    case GatesOpen(t, sending) => GatesCounts(s, t, sending, k);
    case RowInserted(t, sending) => InsertedCounts(s, t, sending, k);
    case HandlerFinished(t) => FinishCounts(s, t, s.dispatches[t].phase.result);
    case _ =>
  }

  lemma GatesCounts(s: State, t: Token, sending: Sending, k: Key)
    requires t in s.dispatches
    ensures var z, e := GatesPassed(s, t, sending), GatesOpen(t, sending);
      Count(z.inserts, k) == Count(s.inserts, k)
        && Count(z.accepts, k) == Count(s.accepts, k) + if Accepts(s, e, k) then 1 else 0
  {
  }

  lemma InsertedCounts(s: State, t: Token, sending: Sending, k: Key)
    requires t in s.dispatches && t in s.entries
    ensures var z, e := Inserted(s, t, sending), RowInserted(t, sending);
      && Count(z.inserts, k) == Count(s.inserts, k) + (if Inserts(s, e, k) then 1 else 0)
      && Count(z.accepts, k) == Count(s.accepts, k) + (if Accepts(s, e, k) then 1 else 0)
  {
  }

  lemma FinishCounts(s: State, t: Token, r: Result)
    requires t in s.dispatches && t in s.entries
    ensures Finish(s, t, r).inserts == s.inserts && Finish(s, t, r).accepts == s.accepts
  {
  }

  lemma PostCounts(s: State, p: Key, k: Key)
    requires k in s.slots ==> k in Sweep(s).slots
    ensures Count(Post(s, p).inserts, k) == Count(s.inserts, k) && Count(Post(s, p).accepts, k) == Count(s.accepts, k)
  {
    hide Swept;
    assert Count(Sweep(s).inserts, k) == Count(s.inserts, k) && Count(Sweep(s).accepts, k) == Count(s.accepts, k);
    hide Sweep;
  }

  lemma {:induction false} CountsAddUp(trace: seq<State>, events: seq<Event>, k: Key, i: nat, j: nat)
    requires IsRun(trace, events) && i <= j <= |events|
    requires forall t | i <= t < j :: !Evicts(trace[t], events[t], k)
    ensures Count(trace[j].inserts, k) == Count(trace[i].inserts, k) + InsertsIn(trace, events, k, i, j)
    ensures Count(trace[j].accepts, k) == Count(trace[i].accepts, k) + AcceptsIn(trace, events, k, i, j)
  {
    hide Enabled, Step, Evicts, Inserts, Accepts;
    if i < j {
      CountsAddUp(trace, events, k, i, j - 1);
      assert Turn(trace[j - 1], events[j - 1], trace[j]);
      StepCounts(trace[j - 1], events[j - 1], k);
    }
  }

  /** Between two evictions of a key, at most one message row is inserted for it and at most one
      frame is accepted by a runner, over any interleaving of duplicates, failures and retries. */
  lemma ExactlyOnce(trace: seq<State>, events: seq<Event>, k: Key, i: nat, j: nat)
    requires IsRun(trace, events) && i <= j <= |events|
    requires forall t | i <= t < j :: !Evicts(trace[t], events[t], k)
    ensures InsertsIn(trace, events, k, i, j) <= 1 && AcceptsIn(trace, events, k, i, j) <= 1
  {
    hide Evicts;
    CountsAddUp(trace, events, k, i, j);
    RunInv(trace, events, j);
    hide IsRun;
    assert KeyOk(trace[j], k);
  }

  // ----- Ownership -----

  /** From the request that starts a dispatch until its handler has finished, the ledger points at
      the entry of this dispatch and the entry is pending: no sweep and no other request touches it. */
  lemma OwnerStillOwns(trace: seq<State>, events: seq<Event>, i: nat, t: Token)
    requires IsRun(trace, events) && i < |trace| && t in trace[i].dispatches && !trace[i].dispatches[t].phase.Finished?
    ensures var s := trace[i];
      var k := s.dispatches[t].key;
      k in s.slots && s.slots[k] == t && t in s.entries && s.entries[t].state == Pending
  {
    hide IsRun;
    RunInv(trace, events, i);
    var s := trace[i];
    assert Owner(s, t);
    assert KeyOk(s, s.dispatches[t].key);
  }

  /** A request that met a running dispatch is never stranded: that dispatch is known, and once it is
      over the request is told its outcome, marked duplicate exactly if the send was accepted. */
  lemma DuplicatesShareTheOutcome(trace: seq<State>, events: seq<Event>, i: nat, w: Token)
    requires IsRun(trace, events) && i < |trace| && w in trace[i].waiting
    ensures var s := trace[i];
      && s.waiting[w] in s.dispatches
      && var d := s.dispatches[s.waiting[w]];
      && (w !in s.answers && Over(d) ==> Enabled(s, WaiterAnswered(w)))
      && (w in s.answers ==> Over(d) && s.answers[w] == Answer(d.phase.result, d.phase.result.Accepted?))
      && (w in s.answers && s.waiting[w] in s.answers ==> s.answers[s.waiting[w]] == Answer(s.answers[w].result, false))
  {
    hide IsRun;
    RunInv(trace, events, i);
    hide KeysOk, TokensOk, OrderOk;
    assert WaiterOk(trace[i], w);
    assert OwnAnswer(trace[i], trace[i].waiting[w]);
  }

  /** A replay of a delivered request is answered with the row that was delivered, and starts nothing. */
  lemma ReplayNamesTheRow(trace: seq<State>, events: seq<Event>, i: nat, k: Key)
    requires IsRun(trace, events) && i < |events| && events[i] == Posted(k)
    requires k in Sweep(trace[i]).slots && StateOf(Sweep(trace[i]), k) == Delivered
    ensures var s, z := trace[i], trace[i + 1];
      && s.slots[k] in s.entries && s.entries[s.slots[k]].message.Some?
      && z.dispatches == s.dispatches && s.nextToken in z.answers
      && z.answers[s.nextToken] == Answer(Accepted(s.entries[s.slots[k]].message), true)
  {
    assert Turn(trace[i], events[i], trace[i + 1]);
    RunInv(trace, events, i);
    hide IsRun;
    SweepInv(trace[i]);
    assert KeyOk(Sweep(trace[i]), k);
    hide Inv, Swept;
  }

  // ----- Retries -----

  /** The entry of `k`, which is not pending, outlives the sweep of a request: it has not expired, and in a ledger with
      more than 5000 unexpired entries enough older ones can be removed instead. */
  predicate OutlivesSweep(s: State, k: Key) {
    var u := Unexpired(s, s.order);
    !Expired(s, k) && OlderDone(s, u, k) >= Excess(u)
  }

  /** The entry of `k` is still there, or it is gone and with it what was known of `k`. */
  ghost predicate HeldOrGone(s: State, k: Key, t: Token, e: Entry, held: bool) {
    if held then k in s.slots && s.slots[k] == t && t in s.entries && s.entries[t] == e else k !in s.slots
  }

  /** Every sweep from `i` to `j` spares the entry of `k`. */
  ghost predicate OutlivesAll(trace: seq<State>, events: seq<Event>, k: Key, i: nat, j: nat)
    requires j <= |events| < |trace|
  {
    forall n | i <= n < j && events[n].Posted? :: OutlivesSweep(trace[n], k)
  }

  /** Another key's request moves the entry of `k` only by its sweep. */
  lemma OtherPost(s: State, q: Key, k: Key, t: Token, e: Entry, held: bool)
    requires Inv(s) && q != k && e.state != Pending && HeldOrGone(s, k, t, e, held)
    ensures HeldOrGone(Post(s, q), k, t, e, held && OutlivesSweep(s, k))
  {
    var w := Sweep(s);
    SweepHolds(s, k, t, e, held);
    InvSweeps(s);
    hide Inv, Sweep, OutlivesSweep;
    ReservedHolds(w, q, k, t, e, held && OutlivesSweep(s, k));
  }

  lemma SweepHolds(s: State, k: Key, t: Token, e: Entry, held: bool)
    requires Inv(s) && e.state != Pending && HeldOrGone(s, k, t, e, held)
    ensures HeldOrGone(Sweep(s), k, t, e, held && OutlivesSweep(s, k))
  {
    if held { KeptIff(s, k); }
    SweepIsSound(s);
    assert Sweep(s).entries == s.entries;
    hide Inv, Sweep, OutlivesSweep;
  }

  lemma InvSweeps(s: State)
    requires Inv(s)
    ensures forall k: Key :: k in Sweep(s).slots ==> Sweep(s).slots[k] < Sweep(s).nextToken
  {
    SweepIsSound(s);
    assert Sweep(s).nextToken == s.nextToken;
    forall k: Key | k in s.slots ensures s.slots[k] < s.nextToken { assert KeyOk(s, k); }
    hide Inv, Sweep;
  }

  lemma ReservedHolds(w: State, q: Key, k: Key, t: Token, e: Entry, held: bool)
    requires q != k && HeldOrGone(w, k, t, e, held) && (k in w.slots ==> w.slots[k] < w.nextToken)
    ensures HeldOrGone(Reserved(w, q), k, t, e, held)
  {
  }

  lemma FinishHolds(s: State, d: Token, r: Result, k: Key, t: Token, e: Entry, held: bool)
    requires d in s.dispatches && d in s.entries && HeldOrGone(s, k, t, e, held) && (held ==> d != t)
    ensures HeldOrGone(Finish(s, d, r), k, t, e, held)
  {
    hide Without;
  }

  lemma InsertedHolds(s: State, d: Token, sending: Sending, k: Key, t: Token, e: Entry, held: bool)
    requires d in s.dispatches && d in s.entries && HeldOrGone(s, k, t, e, held) && (held ==> d != t)
    ensures HeldOrGone(Inserted(s, d, sending), k, t, e, held)
  {
  }

  lemma GatesHold(s: State, d: Token, sending: Sending, k: Key, t: Token, e: Entry, held: bool)
    requires d in s.dispatches && HeldOrGone(s, k, t, e, held)
    ensures HeldOrGone(GatesPassed(s, d, sending), k, t, e, held)
  {
  }

  lemma OwnerDone(s: State, k: Key, t: Token, e: Entry)
    requires Inv(s) && e.state != Pending && HeldOrGone(s, k, t, e, true)
    ensures t in s.dispatches && s.dispatches[t].phase.Finished?
  {
    assert KeyOk(s, k);
  }

  /** No dispatch touches the entry of one that has finished, and none takes the key's place. */
  lemma OtherStep(s: State, ev: Event, k: Key, t: Token, e: Entry, held: bool)
    requires Inv(s) && Enabled(s, ev) && !ev.Posted? && e.state != Pending && HeldOrGone(s, k, t, e, held)
    ensures HeldOrGone(Step(s, ev), k, t, e, held)
  {
    if held { OwnerDone(s, k, t, e); }
    hide Inv, GatesPassed, Inserted, Finish;
    match ev
    case GatesOpen(d, sending) => GatesHold(s, d, sending, k, t, e, held);
    case RowInserted(d, sending) => InsertedHolds(s, d, sending, k, t, e, held);
    case HandlerFinished(d) => FinishHolds(s, d, s.dispatches[d].phase.result, k, t, e, held);
    case _ =>
  }

  lemma EntryAt(trace: seq<State>, events: seq<Event>, i: nat, k: Key, t: Token, e: Entry, held: bool)
    requires IsRun(trace, events) && i < |events| && e.state != Pending && events[i] != Posted(k)
    requires HeldOrGone(trace[i], k, t, e, held)
    ensures HeldOrGone(trace[i + 1], k, t, e, held && (events[i].Posted? ==> OutlivesSweep(trace[i], k)))
  {
    RunInv(trace, events, i);
    var s, ev := trace[i], events[i];
    assert Turn(s, ev, trace[i + 1]);
    hide IsRun, Inv, HeldOrGone, OutlivesSweep;
    if ev.Posted? { OtherPost(s, ev.key, k, t, e, held); } else { OtherStep(s, ev, k, t, e, held); }
  }

  /** What is left of an entry that is not pending when events have passed that do not ask for its key. */
  lemma {:induction false} EntryWaits(trace: seq<State>, events: seq<Event>, i: nat, j: nat, k: Key, t: Token, e: Entry)
    requires IsRun(trace, events) && i <= j <= |events| && e.state != Pending
    requires HeldOrGone(trace[i], k, t, e, true) && forall n | i <= n < j :: events[n] != Posted(k)
    ensures HeldOrGone(trace[j], k, t, e, OutlivesAll(trace, events, k, i, j))
  {
    hide Turn, HeldOrGone, OutlivesSweep;
    if i < j {
      var held := OutlivesAll(trace, events, k, i, j - 1);
      EntryWaits(trace, events, i, j - 1, k, t, e);
      EntryAt(trace, events, j - 1, k, t, e, held);
      assert OutlivesAll(trace, events, k, i, j)
        <==> held && (events[j - 1].Posted? ==> OutlivesSweep(trace[j - 1], k));
    }
  }

  /** The next retry after a failed delivery reuses the persisted row exactly if the failed entry
      outlives the sweep of every request from the failure to this retry, whosever key they are for;
      otherwise it starts over and will insert a second row. */
  lemma RetryReusesIff(trace: seq<State>, events: seq<Event>, i: nat, j: nat, k: Key)
    requires IsRun(trace, events) && i <= j < |events| && events[j] == Posted(k)
    requires forall n | i <= n < j :: events[n] != Posted(k)
    requires k in trace[i].slots && StateOf(trace[i], k) == Failed
    ensures var s, z := trace[i], trace[j + 1];
      && s.slots[k] in s.entries && trace[j].nextToken in z.dispatches
      && var e := s.entries[s.slots[k]];
      && e.message.Some?
      && z.dispatches[trace[j].nextToken].reuse
        == (if OutlivesAll(trace, events, k, i, j + 1) then e.message else None)
  {
    RunInv(trace, events, i);
    RunInv(trace, events, j);
    assert Turn(trace[j], events[j], trace[j + 1]);
    assert KeyOk(trace[i], k);
    var t := trace[i].slots[k];
    var e := trace[i].entries[t];
    EntryWaits(trace, events, i, j, k, t, e);
    hide IsRun, OutlivesSweep;
    var held := OutlivesAll(trace, events, k, i, j);
    assert OutlivesAll(trace, events, k, i, j + 1) <==> held && OutlivesSweep(trace[j], k);
    if held { RetryReuses(trace[j], k); } else { RetryStartsOver(trace[j], k); }
    hide Inv, Post, KeyOk;
  }

  lemma RetryStartsOver(s: State, k: Key)
    requires OrderOk(s) && k !in s.slots
    ensures s.nextToken in Post(s, k).dispatches && Post(s, k).dispatches[s.nextToken].reuse == None
  {
    SweepIsSound(s);
    assert Sweep(s).nextToken == s.nextToken;
    hide Sweep, OrderOk;
  }

  lemma RetryReuses(s: State, k: Key)
    requires OrderOk(s) && k in s.slots && s.slots[k] in s.entries && s.entries[s.slots[k]].state == Failed
    ensures s.nextToken in Post(s, k).dispatches
    ensures Post(s, k).dispatches[s.nextToken].reuse
      == if OutlivesSweep(s, k) then s.entries[s.slots[k]].message else None
  {
    KeptIff(s, k);
    SweepIsSound(s);
    var w := Sweep(s);
    assert w.entries == s.entries && w.nextToken == s.nextToken && (k in w.slots ==> w.slots[k] == s.slots[k]);
    hide Sweep, OrderOk, OutlivesSweep;
  }

  lemma KeptIff(s: State, k: Key)
    requires OrderOk(s) && k in s.slots && StateOf(s, k) != Pending
    ensures k in Sweep(s).slots <==> OutlivesSweep(s, k)
  {
    SweepKeys(s);
    UnexpiredOk(s, s.order);
    var u := Unexpired(s, s.order);
    TrimmedOk(s, u, Excess(u));
    if !Expired(s, k) { TrimmedKeepsIff(s, u, Excess(u), k); }
    hide Sweep, Unexpired, Trimmed, Expired, StateOf, NoDuplicates;
  }

  /** A request that finds nothing but expired entries starts from scratch. */
  lemma PostWhenEmpty(s: State, k: Key)
    requires OrderOk(s) && forall q | q in s.slots :: Expired(s, q)
    ensures var z, t := Post(s, k), s.nextToken;
      && t in z.dispatches && z.dispatches[t] == Dispatch(k, None, Gating) && z.nextToken == t + 1
      && t in z.entries && z.entries[t] == Entry(Pending, None, s.now + DEDUPE_TTL_MS)
      && z.slots == map[k := t] && z.order == [k]
  {
    SweepIsSound(s);
    SweepKeys(s);
    var w := Sweep(s);
    assert w.slots == map[];
    hide Sweep, OrderOk;
  }

  /** A request that starts from scratch gets through the gates. */
  lemma GateRound(s: State, k: Key) returns (a: State, b: State)
    requires OrderOk(s) && forall q | q in s.slots :: Expired(s, q)
    ensures var t := s.nextToken;
      && Turn(s, Posted(k), a) && Turn(a, GatesOpen(t, Sent), b)
      && b.now == s.now && b.nextToken == t + 1 && b.slots == map[k := t] && b.order == [k]
      && t in b.dispatches && b.dispatches[t] == Dispatch(k, None, Inserting)
      && t in b.entries && b.entries[t] == Entry(Pending, None, s.now + DEDUPE_TTL_MS)
  {
    PostWhenEmpty(s, k);
    PostKeepsClock(s, k);
    a := Post(s, k);
    hide Post;
    b := GatesPassed(a, s.nextToken, Sent);
  }

  lemma PostKeepsClock(s: State, k: Key)
    ensures Post(s, k).now == s.now
  {
    assert Sweep(s).now == s.now;
    hide Sweep;
  }

  /** The row is inserted, the runner is gone, and the entry stays behind as failed. */
  lemma FailRound(s2: State, k: Key) returns (s3: State, s4: State)
    requires 0 in s2.dispatches && s2.dispatches[0] == Dispatch(k, None, Inserting) && 0 in s2.entries
    requires s2.slots == map[k := 0] && s2.order == [k]
    ensures Inserts(s2, RowInserted(0, Offline), k)
    ensures Turn(s2, RowInserted(0, Offline), s3) && Turn(s3, HandlerFinished(0), s4)
    ensures s4.slots == map[k := 0] && s4.order == [k] && s4.nextToken == s2.nextToken && 0 in s4.entries
    ensures s4.entries[0].state == Failed && s4.entries[0].expiresAt == s4.now + DEDUPE_TTL_MS
  {
    s3 := Inserted(s2, 0, Offline);
    s4 := Finish(s3, 0, Refused(409, Some(s2.nextRow)));
  }

  /** Nobody retries before the entry expires. */
  lemma ExpiryRound(s: State, k: Key) returns (z: State)
    requires s.slots == map[k := 0] && s.order == [k] && 0 in s.entries
    requires s.entries[0].state == Failed && s.entries[0].expiresAt == s.now + DEDUPE_TTL_MS
    ensures Turn(s, Tick(DEDUPE_TTL_MS), z) && z.slots == s.slots && z.order == s.order && z.nextToken == s.nextToken
    ensures Expired(z, k)
  {
    z := s.(now := s.now + DEDUPE_TTL_MS);
  }

  lemma InsertRound(s: State, t: Token, k: Key) returns (z: State)
    requires t in s.dispatches && s.dispatches[t] == Dispatch(k, None, Inserting) && t in s.entries
    ensures Turn(s, RowInserted(t, Sent), z) && Inserts(s, RowInserted(t, Sent), k)
  {
    z := Inserted(s, t, Sent);
  }

  lemma StartOfRun(now: int) returns (trace: seq<State>, events: seq<Event>)
    ensures trace == [Init(now)] && events == [] && IsRun(trace, events)
  {
    trace, events := [Init(now)], [];
  }

  /** A run grows by a turn, and its inserts by what the turn inserts. */
  lemma Extended(trace: seq<State>, events: seq<Event>, k: Key, e: Event, z: State)
    returns (trace': seq<State>, events': seq<Event>)
    requires IsRun(trace, events) && |events| < |trace| && Turn(trace[|events|], e, z)
    ensures IsRun(trace', events') && |events'| == |events| + 1 < |trace'| && trace'[|events'|] == z
    ensures InsertsIn(trace', events', k, 0, |events'|)
      == InsertsIn(trace, events, k, 0, |events|) + if Inserts(trace[|events|], e, k) then 1 else 0
  {
    hide Turn, Inserts;
    trace', events' := trace + [z], events + [e];
    assert trace'[0] == trace[0];
    SameInserts(trace, events, trace', events', k, |events|);
  }

  lemma {:induction false} SameInserts(
    trace: seq<State>, events: seq<Event>, trace': seq<State>, events': seq<Event>, k: Key, j: nat)
    requires j <= |events| < |trace| && |events| <= |events'| < |trace'|
    requires trace <= trace' && events <= events'
    ensures InsertsIn(trace', events', k, 0, j) == InsertsIn(trace, events, k, 0, j)
  {
    if j > 0 { SameInserts(trace, events, trace', events', k, j - 1); }
  }

  /** A run that has inserted a row for `k` and left its entry behind as failed. */
  lemma FailedOnce(k: Key) returns (trace: seq<State>, events: seq<Event>)
    ensures IsRun(trace, events) && InsertsIn(trace, events, k, 0, |events|) == 1
    ensures var s := trace[|events|];
      && s.slots == map[k := 0] && s.order == [k] && s.nextToken == 1 && 0 in s.entries
      && s.entries[0].state == Failed && s.entries[0].expiresAt == s.now + DEDUPE_TTL_MS
  {
    var s1, s2 := GateRound(Init(1), k);
    var s3, s4 := FailRound(s2, k);
    trace, events := StartOfRun(1);
    assert !Inserts(Init(1), Posted(k), k) && !Inserts(s1, GatesOpen(0, Sent), k)
      && !Inserts(s3, HandlerFinished(0), k);
    hide Turn, Inserts, OrderOk, IsRun;
    trace, events := Extended(trace, events, k, Posted(k), s1);
    trace, events := Extended(trace, events, k, GatesOpen(0, Sent), s2);
    trace, events := Extended(trace, events, k, RowInserted(0, Offline), s3);
    trace, events := Extended(trace, events, k, HandlerFinished(0), s4);
  }

  /** A run in which the retry comes after the entry expired: two rows for one client id. */
  lemma SecondRowAfterExpiry(k: Key) returns (trace: seq<State>, events: seq<Event>)
    ensures IsRun(trace, events)
    ensures InsertsIn(trace, events, k, 0, |events|) >= 2
  {
    trace, events := FailedOnce(k);
    var s5 := ExpiryRound(trace[|events|], k);
    var s6, s7 := GateRound(s5, k);
    var s8 := InsertRound(s7, 1, k);
    hide Turn, Inserts, OrderOk, IsRun;
    trace, events := Extended(trace, events, k, Tick(DEDUPE_TTL_MS), s5);
    trace, events := Extended(trace, events, k, Posted(k), s6);
    trace, events := Extended(trace, events, k, GatesOpen(1, Sent), s7);
    trace, events := Extended(trace, events, k, RowInserted(1, Sent), s8);
  }

  // ----- A retry that comes too late for the size of the ledger -----

  /** The failed entry of `k` is the oldest, behind it are the pending ones of `others`. */
  predicate Filled(s: State, k: Key, others: seq<Key>) {
    && s.order == [k] + others && s.nextToken == |others| + 1
    && k in s.slots && s.slots[k] in s.entries && s.entries[s.slots[k]].state == Failed
    && s.entries[s.slots[k]].expiresAt > s.now
    && forall q | q in others :: StateOf(s, q) == Pending
  }

  lemma NoneExpired(s: State, k: Key, others: seq<Key>)
    requires Filled(s, k, others)
    ensures !Expired(s, k) && forall q | q in s.order :: !Expired(s, q)
  {
  }

  lemma NewKey(s: State, k: Key, others: seq<Key>, q: Key)
    requires Inv(s) && Filled(s, k, others) && |others| < DEDUPE_MAX && q !in [k] + others
    ensures Filled(Post(s, q), k, others + [q])
  {
    NoneExpired(s, k, others);
    SweepNothing(s);
    hide Sweep;
    assert q !in s.slots by { assert s.slots.Keys == KeysOf(s.order); }
    var t, z := s.nextToken, Post(s, q);
    assert z == StartDispatch(s, q, None);
    forall p | p in s.slots ensures s.slots[p] in s.entries && s.slots[p] != t { assert KeyOk(s, p); }
    hide Inv, Post;
    forall p | p in others + [q] ensures StateOf(z, p) == Pending {
      if p != q { assert p in others && StateOf(s, p) == Pending && p in s.order; }
    }
  }

  /** With more than 5000 entries the sweep of the retry throws the failed one out. */
  lemma RetryTrimmed(s: State, k: Key, others: seq<Key>)
    requires Inv(s) && Filled(s, k, others) && |others| == DEDUPE_MAX
    ensures !OutlivesSweep(s, k) && !Expired(s, k)
  {
    NoneExpired(s, k, others);
    UnexpiredAll(s, s.order);
    hide Inv;
  }

  /** The retry finds no entry, and goes through the gates. */
  lemma RetryRound(s: State, k: Key) returns (a: State, b: State)
    requires Inv(s) && k in s.slots && StateOf(s, k) == Failed && !OutlivesSweep(s, k)
    ensures var t := s.nextToken;
      && Turn(s, Posted(k), a) && Turn(a, GatesOpen(t, Sent), b)
      && t in b.dispatches && b.dispatches[t] == Dispatch(k, None, Inserting) && t in b.entries
  {
    KeptIff(s, k);
    hide Inv, OutlivesSweep;
    var w := Sweep(s);
    hide Sweep;
    a := Post(s, k);
    assert a == StartDispatch(w, k, None) && w.nextToken == s.nextToken by { SweepKeepsTokens(s); }
    hide Post;
    b := GatesPassed(a, s.nextToken, Sent);
  }

  lemma SweepKeepsTokens(s: State)
    ensures Sweep(s).nextToken == s.nextToken
  {
    hide Swept;
  }

  lemma LastIsNew(order: seq<Key>, q: Key)
    requires NoDuplicates(order + [q])
    ensures NoDuplicates(order) && q !in order
  {
    var whole := order + [q];
    assert forall i | 0 <= i < |order| :: whole[i] == order[i] && whole[i] != whole[|order|];
  }

  /** `others` are posted behind the failed request, and wait for their gates. */
  lemma {:induction false} FilledUp(k: Key, others: seq<Key>) returns (trace: seq<State>, events: seq<Event>)
    requires |others| <= DEDUPE_MAX && NoDuplicates([k] + others)
    ensures IsRun(trace, events) && InsertsIn(trace, events, k, 0, |events|) == 1
    ensures Filled(trace[|events|], k, others)
  {
    if others == [] {
      trace, events := FailedOnce(k);
    } else {
      var n := |others| - 1;
      var q := others[n];
      assert others == others[..n] + [q] && [k] + others == [k] + others[..n] + [q];
      LastIsNew([k] + others[..n], q);
      trace, events := FilledUp(k, others[..n]);
      var s := trace[|events|];
      RunInv(trace, events, |events|);
      NewKey(s, k, others[..n], q);
      hide Inv, IsRun, Post, NoDuplicates, Filled;
      assert Turn(s, Posted(q), Post(s, q)) && !Inserts(s, Posted(q), k);
      trace, events := Extended(trace, events, k, Posted(q), Post(s, q));
    }
  }

  /** A run in which 5000 other requests come before the retry, and no time passes at all: two rows for
      one client id. */
  lemma SecondRowAfterTrimming(k: Key, others: seq<Key>) returns (trace: seq<State>, events: seq<Event>)
    requires |others| == DEDUPE_MAX && NoDuplicates([k] + others)
    ensures IsRun(trace, events)
    ensures InsertsIn(trace, events, k, 0, |events|) >= 2
  {
    trace, events := FilledUp(k, others);
    var s := trace[|events|];
    RunInv(trace, events, |events|);
    RetryTrimmed(s, k, others);
    assert k in s.slots && StateOf(s, k) == Failed;
    hide Inv, IsRun, Filled, OutlivesSweep, NoDuplicates, StateOf;
    var s1, s2 := RetryRound(s, k);
    var s3 := InsertRound(s2, s.nextToken, k);
    hide Turn, Inserts;
    trace, events := Extended(trace, events, k, Posted(k), s1);
    trace, events := Extended(trace, events, k, GatesOpen(s.nextToken, Sent), s2);
    trace, events := Extended(trace, events, k, RowInserted(s.nextToken, Sent), s3);
  }
}
