/** What the events of the send ledger come to, in the fields of the states before and after, and what an
    accepted answer means. */
module SendLedgerOutcomes {
  import opened Wrappers
  import opened SendLedger
  import opened SendLedgerSafety
  import opened SendLedgerRuns

  // ----- A request -----

  /** Nothing but the request's own token is new, and no row and no frame. */
  ghost predicate OnlyToken(s: State, w: State, z: State) {
    && z.nextToken == s.nextToken + 1 && z.nextRow == s.nextRow && z.now == s.now
    && z.inserts == w.inserts && z.accepts == w.accepts
  }

  /** The request waits for dispatch `t`: that is all that is noted. */
  ghost predicate Waits(s: State, w: State, z: State, t: Token) {
    && z.waiting == s.waiting[s.nextToken := t] && s.nextToken !in z.answers && z.answers == s.answers
    && z.dispatches == s.dispatches && z.entries == s.entries && z.slots == w.slots && z.order == w.order
  }

  /** The request is answered at once with the delivered row, as a duplicate. */
  ghost predicate Replays(s: State, w: State, z: State, row: Option<Row>) {
    && z.answers == s.answers[s.nextToken := Answer(Accepted(row), true)] && z.waiting == s.waiting
    && z.dispatches == s.dispatches && z.entries == s.entries && z.slots == w.slots && z.order == w.order
  }

  /** The request starts a dispatch of its own, which will send the row `reuse` or insert one, and holds the
      key with a pending entry for five minutes. */
  ghost predicate Starts(s: State, w: State, z: State, k: Key, reuse: Option<Row>) {
    && z.dispatches == s.dispatches[s.nextToken := Dispatch(k, reuse, Gating)]
    && z.entries == s.entries[s.nextToken := Entry(Pending, reuse, s.now + 300_000)]
    && z.slots == w.slots[k := s.nextToken] && z.order == (if k in w.slots then w.order else w.order + [k])
    && z.waiting == s.waiting && z.answers == s.answers
  }

  lemma SweepFields(s: State)
    ensures var w := Sweep(s);
      w == s.(order := w.order, slots := w.slots, inserts := w.inserts, accepts := w.accepts)
  {
    hide Swept;
  }

  /** What a request comes to: behind the sweep its key is free, or pending, delivered or failed. */
  ghost predicate Posts(s: State, w: State, z: State, k: Key) {
    && OnlyToken(s, w, z) && (k in w.slots ==> w.slots[k] in s.dispatches && w.slots[k] in s.entries)
    && if k !in w.slots then Starts(s, w, z, k, None)
       else
         var e := s.entries[w.slots[k]];
         match e.state
         case Pending => Waits(s, w, z, w.slots[k])
         case Delivered => e.message.Some? && Replays(s, w, z, e.message)
         case Failed => e.message.Some? && Starts(s, w, z, k, e.message)
  }

  lemma ReservedStep(w: State, k: Key)
    requires k in w.slots ==>
      && w.slots[k] in w.dispatches && w.slots[k] in w.entries
      && (w.entries[w.slots[k]].state != Pending ==> w.entries[w.slots[k]].message.Some?)
    requires w.nextToken !in w.answers
    ensures Posts(w, w, Reserved(w, k), k)
  {
  }

  lemma PostStep(s: State, k: Key)
    requires Inv(s)
    ensures Posts(s, Sweep(s), Post(s, k), k)
  {
    var w := Sweep(s);
    SweepInv(s);
    SweepFields(s);
    hide Swept, Sweep, Evict, OrderOk, TokensOk, Reserved;
    assert KeyOk(w, k);
    assert w.nextToken !in w.answers;
    hide Inv;
    ReservedStep(w, k);
  }

  /** Every request of every run. */
  lemma PostIs(trace: seq<State>, events: seq<Event>, i: nat, k: Key)
    requires IsRun(trace, events) && i < |events| && events[i] == Posted(k)
    ensures Posts(trace[i], Sweep(trace[i]), trace[i + 1], k)
  {
    RunInv(trace, events, i);
    assert Turn(trace[i], events[i], trace[i + 1]);
    hide IsRun, Inv, Sweep, Posts;
    PostStep(trace[i], k);
  }

  /** A duplicate of a running request: it waits for that request's dispatch, unanswered, and nothing is
      inserted or sent for it. */
  lemma DuplicateWaits(trace: seq<State>, events: seq<Event>, i: nat, k: Key)
    requires IsRun(trace, events) && i < |events| && events[i] == Posted(k)
    requires k in trace[i].slots && trace[i].slots[k] in trace[i].entries
    requires trace[i].entries[trace[i].slots[k]].state == Pending
    ensures var s, z, w := trace[i], trace[i + 1], trace[i].nextToken;
      && w in z.waiting && z.waiting[w] == s.slots[k] && w !in z.answers
      && z.dispatches == s.dispatches && z.entries == s.entries && z.nextRow == s.nextRow
      && s.slots[k] in s.dispatches && s.dispatches[s.slots[k]].key == k && !s.dispatches[s.slots[k]].phase.Finished?
  {
    RunInv(trace, events, i);
    var s := trace[i];
    assert KeyOk(s, k);
    SweepIsSound(s);
    hide Inv, Sweep, Starts, Replays;
    PostIs(trace, events, i, k);
  }

  // ----- What an accepted answer means -----

  /** What a step keeps: dispatches with their keys and outcomes, who waits for what, immediate answers. */
  ghost predicate Persists(s: State, z: State) {
    && s.nextToken <= z.nextToken
    && (forall t | t in s.dispatches ::
          && t in z.dispatches && z.dispatches[t].key == s.dispatches[t].key
          && (Over(s.dispatches[t]) ==>
                Over(z.dispatches[t]) && z.dispatches[t].phase.result == s.dispatches[t].phase.result))
    && (forall t | t in z.dispatches && t !in s.dispatches :: t >= s.nextToken)
    && (forall v | v in s.waiting :: v in z.waiting && z.waiting[v] == s.waiting[v])
    && (forall v | v in z.waiting && v !in s.waiting :: v >= s.nextToken)
    && (forall v | v in s.answers && v !in s.dispatches && v !in s.waiting ::
          v in z.answers && z.answers[v] == s.answers[v])
  }

  lemma StepPersists(s: State, e: Event)
    requires Inv(s) && Enabled(s, e)
    ensures Persists(s, Step(s, e))
  {
    hide Inv, Persists, OnlyDispatch, GatesPassed, Inserted, Finish, Post;
    match e
    case Posted(k) => PostPersists(s, k);
    case WaiterAnswered(w) => AnswerPersists(s, w);
    case HandlerFinished(t) => FinishPersists(s, t, s.dispatches[t].phase.result);
    case Tick(d) => TickPersists(s, d);
    case _ => DispatchStep(s, e); OnlyPersists(s, Step(s, e), e.t);
  }

  lemma DispatchStep(s: State, e: Event)
    requires Inv(s) && Enabled(s, e)
    requires !e.Posted? && !e.WaiterAnswered? && !e.HandlerFinished? && !e.Tick?
    ensures OnlyDispatch(s, Step(s, e), e.t)
  {
    InvHasEntry(s, e.t);
    hide Inv, GatesPassed, Inserted, SettleWith, OnlyDispatch;
    match e
    case GatesOpen(t, sending) => GatesPassedOnly(s, t, sending);
    case RowInserted(t, sending) => InsertedOnly(s, t, sending);
    case GateSaidNo(t, status) => SettleOnly(s, t, Refused(status, None));
    case FoundOffline(t) => SettleOnly(s, t, Refused(409, s.dispatches[t].reuse));
    case StatusUpdated(t) => SettleOnly(s, t, Accepted(Some(s.dispatches[t].phase.row)));
    case GateThrew(t) => SettleOnly(s, t, Threw);
    case InsertThrew(t) => SettleOnly(s, t, Threw);
  }

  lemma SettleOnly(s: State, t: Token, r: Result)
    requires t in s.dispatches && t in s.entries && !Over(s.dispatches[t])
    ensures OnlyDispatch(s, SettleWith(s, t, r), t)
  {
  }

  lemma OnlyPersists(s: State, z: State, t: Token)
    requires OnlyDispatch(s, z, t)
    ensures Persists(s, z)
  {
    SameOthers(s.dispatches, z.dispatches, t);
  }

  lemma TickPersists(s: State, d: nat)
    ensures Persists(s, s.(now := s.now + d))
  {
  }

  lemma AnswerPersists(s: State, w: Token)
    requires Enabled(s, WaiterAnswered(w))
    ensures Persists(s, Step(s, WaiterAnswered(w)))
  {
  }

  lemma PostPersists(s: State, k: Key)
    requires Inv(s)
    ensures Persists(s, Post(s, k))
  {
    PostStep(s, k);
    assert s.nextToken !in s.dispatches && s.nextToken !in s.answers && s.nextToken !in s.waiting;
    hide Inv, Post, Sweep;
    PostsPersist(s, Sweep(s), Post(s, k), k);
  }

  lemma PostsPersist(s: State, w: State, z: State, k: Key)
    requires Posts(s, w, z, k)
    requires s.nextToken !in s.dispatches && s.nextToken !in s.answers && s.nextToken !in s.waiting
    ensures Persists(s, z)
  {
  }

  lemma FinishPersists(s: State, t: Token, r: Result)
    requires t in s.dispatches && t in s.entries && s.dispatches[t].phase == Settled(r)
    ensures Persists(s, Finish(s, t, r))
  {
    FinishShape(s, t, r);
    hide Finish;
    assert Finish(s, t, r).nextToken == s.nextToken;
  }
  /** Dispatch `t` of key `k` came to an accepted frame. */
  predicate Confirmed(s: State, k: Key, t: Token, r: Result) {
    t in s.dispatches && s.dispatches[t].key == k && Over(s.dispatches[t]) && s.dispatches[t].phase.result == r
  }

  /** Request `w` was for key `k`: it runs its own dispatch, waits for one of that key, or was told at once
      what an accepted one had come to. */
  ghost predicate AskedFor(s: State, k: Key, w: Token) {
    || (w in s.dispatches && s.dispatches[w].key == k)
    || (w in s.waiting && s.waiting[w] in s.dispatches && s.dispatches[s.waiting[w]].key == k)
    || (w in s.answers && w !in s.dispatches && w !in s.waiting
        && exists t :: Confirmed(s, k, t, s.answers[w].result))
  }

  lemma ConfirmedStays(s: State, z: State, k: Key, t: Token, r: Result)
    requires Persists(s, z) && Confirmed(s, k, t, r)
    ensures Confirmed(z, k, t, r)
  {
  }

  lemma AskedStays(s: State, z: State, k: Key, w: Token)
    requires Persists(s, z) && AskedFor(s, k, w) && w < s.nextToken
    ensures AskedFor(z, k, w) && w < z.nextToken
  {
    if t :| w in s.answers && w !in s.dispatches && w !in s.waiting && Confirmed(s, k, t, s.answers[w].result) {
      ConfirmedStays(s, z, k, t, s.answers[w].result);
    }
  }

  lemma Asks(s: State, k: Key)
    requires Inv(s)
    ensures AskedFor(Post(s, k), k, s.nextToken) && s.nextToken < Post(s, k).nextToken
  {
    var w, z := Sweep(s), Post(s, k);
    PostStep(s, k);
    SweepInv(s);
    SweepFields(s);
    assert KeyOk(w, k);
    assert s.nextToken !in s.dispatches && s.nextToken !in s.waiting;
    hide Inv, Sweep, Post, KeyOk, Posts, AskedFor, Swept;
    if k in w.slots { SlotKey(w, k); }
    AskedByPost(s, w, z, k);
  }

  lemma AskedByPost(s: State, w: State, z: State, k: Key)
    requires Posts(s, w, z, k) && s.nextToken !in s.dispatches && s.nextToken !in s.waiting
    requires w.dispatches == s.dispatches && w.entries == s.entries
    requires k in w.slots ==>
      && w.slots[k] in w.dispatches && w.dispatches[w.slots[k]].key == k && w.slots[k] in w.entries
      && (w.entries[w.slots[k]].state == Delivered ==>
            Confirmed(w, k, w.slots[k], Accepted(w.entries[w.slots[k]].message)))
    ensures AskedFor(z, k, s.nextToken) && s.nextToken < z.nextToken
  {
    if k in w.slots && s.entries[w.slots[k]].state == Delivered {
      assert Confirmed(z, k, w.slots[k], z.answers[s.nextToken].result);
    }
  }

  lemma SlotKey(w: State, k: Key)
    requires KeyOk(w, k) && k in w.slots
    ensures w.slots[k] in w.dispatches && w.dispatches[w.slots[k]].key == k && w.slots[k] in w.entries
    ensures w.entries[w.slots[k]].state == Delivered ==>
      Confirmed(w, k, w.slots[k], Accepted(w.entries[w.slots[k]].message))
  {
  }

  lemma TurnPersists(trace: seq<State>, events: seq<Event>, i: nat)
    requires IsRun(trace, events) && i < |events|
    ensures Persists(trace[i], trace[i + 1])
  {
    RunInv(trace, events, i);
    assert Turn(trace[i], events[i], trace[i + 1]);
    hide Inv, Persists, IsRun, Step, Enabled;
    StepPersists(trace[i], events[i]);
  }

  lemma TurnAsks(trace: seq<State>, events: seq<Event>, i: nat, k: Key)
    requires IsRun(trace, events) && i < |events| && events[i] == Posted(k)
    ensures AskedFor(trace[i + 1], k, trace[i].nextToken) && trace[i].nextToken < trace[i + 1].nextToken
  {
    RunInv(trace, events, i);
    assert Turn(trace[i], events[i], trace[i + 1]);
    hide Inv, AskedFor, IsRun, Post;
    Asks(trace[i], k);
  }

  lemma {:induction false} AskedSince(trace: seq<State>, events: seq<Event>, i: nat, j: nat, k: Key)
    requires IsRun(trace, events) && i < j < |trace| && events[i] == Posted(k)
    ensures AskedFor(trace[j], k, trace[i].nextToken) && trace[i].nextToken < trace[j].nextToken
    decreases j
  {
    hide Turn, AskedFor, Persists;
    if i + 1 < j {
      AskedSince(trace, events, i, j - 1, k);
      TurnPersists(trace, events, j - 1);
      AskedStays(trace[j - 1], trace[j], k, trace[i].nextToken);
    } else {
      TurnAsks(trace, events, i, k);
    }
  }

  /** A request is told that it was accepted only when a dispatch of its key has come to that, and it is
      told the row of that dispatch. */
  lemma AcceptedMeansAccepted(trace: seq<State>, events: seq<Event>, i: nat, j: nat, k: Key) returns (t: Token)
    requires IsRun(trace, events) && i < j < |trace| && events[i] == Posted(k)
    requires trace[i].nextToken in trace[j].answers && trace[j].answers[trace[i].nextToken].result.Accepted?
    ensures Confirmed(trace[j], k, t, trace[j].answers[trace[i].nextToken].result)
  {
    var s, w := trace[j], trace[i].nextToken;
    AskedSince(trace, events, i, j, k);
    RunInv(trace, events, j);
    assert w in s.dispatches ==> OwnAnswer(s, w);
    assert w in s.waiting ==> WaiterOk(s, w);
    hide Inv, IsRun;
    if w in s.dispatches && s.dispatches[w].key == k {
      t := w;
    } else if w in s.waiting {
      t := s.waiting[w];
    } else {
      t :| Confirmed(s, k, t, s.answers[w].result);
    }
  }
  /** In the event the runner accepts the frame of dispatch `t`. */
  predicate FrameAccepted(s: State, e: Event, t: Token) {
    && t in s.dispatches && Accepts(s, e, s.dispatches[t].key)
    && ((e.RowInserted? && e.t == t) || (e.GatesOpen? && e.t == t))
  }

  /** What a frame comes to. */
  function After(row: Row, sending: Sending): Phase {
    match sending
    case Offline => Settled(Refused(409, Some(row)))
    case Dropped => Settled(Refused(409, Some(row)))
    case Broken => Settled(Threw)
    case Sent => Updating(row)
  }

  lemma TrySendFields(s: State, t: Token, row: Row, sending: Sending)
    requires t in s.dispatches
    ensures var z := TrySend(s, t, row, sending);
      && z.dispatches == s.dispatches[t := s.dispatches[t].(phase := After(row, sending))]
      && z.entries == s.entries && z.nextRow == s.nextRow && z.inserts == s.inserts
  {
  }

  lemma TakenStep(s: State, e: Event, t: Token)
    requires Inv(s) && Enabled(s, e) && t in Step(s, e).dispatches && Taken(Step(s, e).dispatches[t])
    ensures t in s.dispatches && (Taken(s.dispatches[t]) || FrameAccepted(s, e, t))
  {
    hide Inv, OnlyDispatch, GatesPassed, Inserted, Finish, Post, SettleWith, FrameAccepted, Taken;
    match e
    case Posted(k) => PostTaken(s, k, t);
    case HandlerFinished(u) => FinishTaken(s, u, s.dispatches[u].phase.result, t);
    case GatesOpen(u, sending) => GatesTaken(s, u, sending, t);
    case RowInserted(u, sending) => InsertedTaken(s, u, sending, t);
    case WaiterAnswered(w) =>
    case Tick(d) =>
    case GateSaidNo(u, status) => SettleTaken(s, u, Refused(status, None), t);
    case FoundOffline(u) => SettleTaken(s, u, Refused(409, s.dispatches[u].reuse), t);
    case StatusUpdated(u) => SettleTaken(s, u, Accepted(Some(s.dispatches[u].phase.row)), t);
    case GateThrew(u) => SettleTaken(s, u, Threw, t);
    case InsertThrew(u) => SettleTaken(s, u, Threw, t);
  }

  lemma PostTaken(s: State, k: Key, t: Token)
    requires Inv(s) && t in Post(s, k).dispatches && Taken(Post(s, k).dispatches[t])
    ensures t in s.dispatches && Taken(s.dispatches[t])
  {
    PostStep(s, k);
    hide Inv, Sweep, Post, Posts, Taken;
    NewAreGating(s, Sweep(s), Post(s, k), k, t);
    NotYetTaken(Post(s, k).dispatches[t]);
  }

  lemma NewAreGating(s: State, w: State, z: State, k: Key, t: Token)
    requires Posts(s, w, z, k) && t in z.dispatches
    ensures z.dispatches[t].phase == Gating || (t in s.dispatches && z.dispatches[t] == s.dispatches[t])
  {
  }

  lemma NotYetTaken(d: Dispatch)
    ensures d.phase == Gating ==> !Taken(d)
  {
  }

  lemma FinishTaken(s: State, u: Token, r: Result, t: Token)
    requires u in s.dispatches && u in s.entries && s.dispatches[u].phase == Settled(r)
    requires t in Finish(s, u, r).dispatches && Taken(Finish(s, u, r).dispatches[t])
    ensures t in s.dispatches && Taken(s.dispatches[t])
  {
    FinishShape(s, u, r);
    hide Finish;
  }

  lemma SettleTaken(s: State, u: Token, r: Result, t: Token)
    requires u in s.dispatches && (r.Accepted? ==> s.dispatches[u].phase.Updating?)
    requires t in SettleWith(s, u, r).dispatches && Taken(SettleWith(s, u, r).dispatches[t])
    ensures t in s.dispatches && Taken(s.dispatches[t])
  {
  }

  lemma GatesTaken(s: State, u: Token, sending: Sending, t: Token)
    requires InPhase(s, u, Gating) && t in GatesPassed(s, u, sending).dispatches
    requires Taken(GatesPassed(s, u, sending).dispatches[t])
    ensures t in s.dispatches && (Taken(s.dispatches[t]) || FrameAccepted(s, GatesOpen(u, sending), t))
  {
    if s.dispatches[u].reuse.Some? { TrySendFields(s, u, s.dispatches[u].reuse.value, sending); }
    hide TrySend;
  }

  lemma InsertedTaken(s: State, u: Token, sending: Sending, t: Token)
    requires InPhase(s, u, Inserting) && u in s.entries && t in Inserted(s, u, sending).dispatches
    requires Taken(Inserted(s, u, sending).dispatches[t])
    ensures t in s.dispatches && (Taken(s.dispatches[t]) || FrameAccepted(s, RowInserted(u, sending), t))
  {
  }

  /** And such a dispatch had its frame accepted by the runner. */
  lemma {:induction false} AcceptedWasSent(trace: seq<State>, events: seq<Event>, j: nat, t: Token) returns (m: nat)
    requires IsRun(trace, events) && j < |trace| && t in trace[j].dispatches && Taken(trace[j].dispatches[t])
    ensures m < j && FrameAccepted(trace[m], events[m], t)
  {
    hide Inv, Step, Enabled, Taken, FrameAccepted;
    var s, e := trace[j - 1], events[j - 1];
    assert Turn(s, e, trace[j]);
    RunInv(trace, events, j - 1);
    TakenStep(s, e, t);
    m := j - 1;
    if !FrameAccepted(s, e, t) { m := AcceptedWasSent(trace, events, j - 1, t); }
  }
  // ----- What a dispatch is told, and by whom -----

  /** What an event settles a dispatch with: a gate's refusal, an exception, a runner that is not there or
      does not take the frame, and the acceptance only when the row's status is updated. */
  function Settles(s: State, e: Event): Option<Result>
    requires Enabled(s, e)
  {
    match e
    case GateSaidNo(t, status) => Some(Refused(status, None))
    case GateThrew(t) => Some(Threw)
    case InsertThrew(t) => Some(Threw)
    case FoundOffline(t) => Some(Refused(409, s.dispatches[t].reuse))
    case GatesOpen(t, sending) =>
      if s.dispatches[t].reuse.None? || sending == Sent then None
      else Some(if sending == Broken then Threw else Refused(409, s.dispatches[t].reuse))
    case RowInserted(t, sending) =>
      if sending == Sent then None else Some(if sending == Broken then Threw else Refused(409, Some(s.nextRow)))
    case StatusUpdated(t) => Some(Accepted(Some(s.dispatches[t].phase.row)))
    case _ => None
  }

  lemma SettlesStep(s: State, e: Event)
    requires Enabled(s, e) && Settles(s, e).Some?
    ensures var z := Step(s, e); e.t in z.dispatches && z.dispatches[e.t].phase == Settled(Settles(s, e).value)
  {
    match e
    case GatesOpen(t, sending) => TrySendFields(s, t, s.dispatches[t].reuse.value, sending); hide TrySend;
    case RowInserted(t, sending) => TrySendFields(Noted(s, t), t, s.nextRow, sending); hide TrySend;
    case _ =>
  }

  lemma {:induction false} OverSince(trace: seq<State>, events: seq<Event>, i: nat, j: nat, t: Token, r: Result)
    requires IsRun(trace, events) && i <= j < |trace|
    requires t in trace[i].dispatches && Over(trace[i].dispatches[t]) && trace[i].dispatches[t].phase.result == r
    ensures t in trace[j].dispatches && Over(trace[j].dispatches[t]) && trace[j].dispatches[t].phase.result == r
    decreases j
  {
    hide Turn;
    if i < j {
      OverSince(trace, events, i, j - 1, t, r);
      TurnPersists(trace, events, j - 1);
    }
  }

  /** What settles a dispatch is what its own request and every duplicate are told, whenever they are. */
  lemma ToldWhatSettled(trace: seq<State>, events: seq<Event>, i: nat, j: nat)
    requires IsRun(trace, events) && i < j < |trace|
    requires Turn(trace[i], events[i], trace[i + 1]) && Settles(trace[i], events[i]).Some?
    ensures var z, t, r := trace[j], events[i].t, Settles(trace[i], events[i]).value;
      && (t in z.answers ==> z.answers[t] == Answer(r, false))
      && (forall w | w in z.waiting && z.waiting[w] == t && w in z.answers :: z.answers[w] == Answer(r, r.Accepted?))
  {
    var z, t, r := trace[j], events[i].t, Settles(trace[i], events[i]).value;
    SettlesStep(trace[i], events[i]);
    hide Settles, Step, Enabled;
    OverSince(trace, events, i + 1, j, t, r);
    RunInv(trace, events, j);
    hide IsRun;
    assert OwnAnswer(z, t);
    forall w | w in z.waiting && z.waiting[w] == t && w in z.answers ensures z.answers[w] == Answer(r, r.Accepted?) {
      assert WaiterOk(z, w);
    }
  }

  // ----- The handler that finishes -----

  /** The handler of a dispatch finishes: it answers its own request, and the entry of the key is delivered,
      or failed with the row to be sent again, each for five minutes (an exception does not prolong it), or
      gone if no row was inserted. */
  lemma FinishIs(trace: seq<State>, events: seq<Event>, i: nat, t: Token)
    requires IsRun(trace, events) && i < |events| && events[i] == HandlerFinished(t)
    ensures t in trace[i].dispatches && trace[i].dispatches[t].phase.Settled? && t in trace[i].entries
    ensures var s, z, k, e, r := trace[i], trace[i + 1], trace[i].dispatches[t].key, trace[i].entries[t],
        trace[i].dispatches[t].phase.result;
      var later := if r.Threw? then e.expiresAt else s.now + 300_000;
      && z.answers == s.answers[t := Answer(r, false)] && k in s.slots && s.slots[k] == t
      && (r.Accepted? ==>
            && r.row.Some? && z.slots == s.slots && z.order == s.order
            && z.entries == s.entries[t := Entry(Delivered, r.row, later)])
      && (!r.Accepted? && e.message.Some? ==>
            && z.slots == s.slots && z.order == s.order
            && z.entries == s.entries[t := Entry(Failed, e.message, later)])
      && (!r.Accepted? && e.message.None? ==> z.slots == s.slots - {k} && k !in z.order)
  {
    RunInv(trace, events, i);
    var s := trace[i];
    assert Turn(s, events[i], trace[i + 1]);
    hide IsRun;
    assert Owner(s, t);
    assert KeyOk(s, s.dispatches[t].key);
    WithoutOk(s.order, s.dispatches[t].key);
    hide KeysOk, TokensOk, AnswersOk, NoDuplicates, Without;
  }

  /** A delivered request is replayed to the next one of its key exactly if its entry outlives every sweep
      until then: within five minutes, and with enough older entries to remove instead of it. Otherwise the
      next one starts over. */
  lemma ReplaysIff(trace: seq<State>, events: seq<Event>, i: nat, j: nat, k: Key)
    requires IsRun(trace, events) && i <= j < |events| && events[j] == Posted(k)
    requires forall n | i <= n < j :: events[n] != Posted(k)
    requires k in trace[i].slots && StateOf(trace[i], k) == Delivered
    ensures var s, z, w := trace[i], trace[j + 1], trace[j].nextToken;
      && s.slots[k] in s.entries
      && if OutlivesAll(trace, events, k, i, j + 1)
         then w in z.answers && z.answers[w] == Answer(Accepted(s.entries[s.slots[k]].message), true)
         else w in z.dispatches && z.dispatches[w] == Dispatch(k, None, Gating)
  {
    RunInv(trace, events, i);
    RunInv(trace, events, j);
    assert KeyOk(trace[i], k);
    var t := trace[i].slots[k];
    var e := trace[i].entries[t];
    EntryWaits(trace, events, i, j, k, t, e);
    hide OutlivesSweep, Starts, Replays, Waits;
    var held := OutlivesAll(trace, events, k, i, j);
    assert OutlivesAll(trace, events, k, i, j + 1) <==> held && OutlivesSweep(trace[j], k);
    PostIs(trace, events, j, k);
    SweepIsSound(trace[j]);
    if held { KeptIff(trace[j], k); }
    hide IsRun, Inv, Sweep, KeyOk;
  }
}
