/** The idempotency ledger of chat sends: a map in insertion order from (session, client id) keys to
    entry objects, and the dispatches that own those entries. An entry object is named by its token
    and lives in `entries` whether or not the ledger still points at it. */
module SendLedger {
  import opened Wrappers

  type Key = string
  type Token = nat
  type Row = nat

  const DEDUPE_TTL_MS := 300_000
  const DEDUPE_MAX := 5000

  datatype EntryState = Pending | Delivered | Failed
  datatype Entry = Entry(state: EntryState, message: Option<Row>, expiresAt: int)

  /** How a dispatch ends: accepted by the runner (202), refused with a status, or by an exception. */
  datatype Result = Accepted(row: Option<Row>) | Refused(status: nat, row: Option<Row>) | Threw

  /** Where a dispatch awaits: its gates, its insert, its status update; then its promise is settled,
      and at last the handler that started it has finished. */
  datatype Phase = Gating | Inserting | Updating(row: Row) | Settled(result: Result) | Finished(result: Result)

  datatype Dispatch = Dispatch(key: Key, reuse: Option<Row>, phase: Phase)

  datatype Answer = Answer(result: Result, duplicate: bool)

  /** `inserts` and `accepts` count the rows inserted and the frames accepted for a key since it was
      last evicted; `waiting` tells, for requests that awaited another request's dispatch, which one. */
  datatype State = State(
    now: int,
    order: seq<Key>,
    slots: map<Key, Token>,
    entries: map<Token, Entry>,
    dispatches: map<Token, Dispatch>,
    waiting: map<Token, Token>,
    answers: map<Token, Answer>,
    inserts: map<Key, nat>,
    accepts: map<Key, nat>,
    nextToken: Token,
    nextRow: Row)

  function Init(now: int): State {
    State(now, [], map[], map[], map[], map[], map[], map[], map[], 0, 0)
  }

  function Count(m: map<Key, nat>, k: Key): nat {
    if k in m then m[k] else 0
  }

  // ----- The sweep -----

  function StateOf(s: State, k: Key): EntryState {
    if k in s.slots && s.slots[k] in s.entries then s.entries[s.slots[k]].state else Pending
  }

  predicate Expired(s: State, k: Key) {
    k in s.slots && s.slots[k] in s.entries && s.entries[s.slots[k]].state != Pending
    && s.entries[s.slots[k]].expiresAt <= s.now
  }

  /** The first loop: expired entries go, unless pending. */
  function Unexpired(s: State, order: seq<Key>): seq<Key> {
    if order == [] then []
    else (if Expired(s, order[0]) then [] else [order[0]]) + Unexpired(s, order[1..])
  }

  /** The second loop: the oldest entries go, unless pending, until `excess` are gone. */
  function Trimmed(s: State, order: seq<Key>, excess: nat): seq<Key> {
    if order == [] || excess == 0 then order
    else if StateOf(s, order[0]) == Pending then [order[0]] + Trimmed(s, order[1..], excess)
    else Trimmed(s, order[1..], excess - 1)
  }

  function KeysOf(order: seq<Key>): (r: set<Key>)
    ensures forall k :: k in r <==> k in order
  {
    set k | k in order
  }

  /** How many entries the second loop has to remove. */
  function Excess(order: seq<Key>): nat {
    if |order| > DEDUPE_MAX then |order| - DEDUPE_MAX else 0
  }

  function Swept(s: State): seq<Key> {
    var u := Unexpired(s, s.order);
    Trimmed(s, u, Excess(u))
  }

  /** The ledger without the keys `gone`. */
  function Evict(s: State, order: seq<Key>, gone: set<Key>): State {
    s.(order := order, slots := s.slots - gone, inserts := s.inserts - gone, accepts := s.accepts - gone)
  }

  function Sweep(s: State): State {
    var kept := Swept(s);
    Evict(s, kept, s.slots.Keys - KeysOf(kept))
  }

  // ----- The handler -----

  /** `Map.set`: a key that is present keeps its place. */
  function Placed(s: State, k: Key): seq<Key> {
    if k in s.slots then s.order else s.order + [k]
  }

  /** `Map.delete`. */
  function Without(order: seq<Key>, k: Key): seq<Key> {
    if order == [] then [] else if order[0] == k then order[1..] else [order[0]] + Without(order[1..], k)
  }

  function StartDispatch(s: State, k: Key, reuse: Option<Row>): State {
    var t := s.nextToken;
    s.(order := Placed(s, k),
       slots := s.slots[k := t],
       entries := s.entries[t := Entry(Pending, reuse, s.now + DEDUPE_TTL_MS)],
       dispatches := s.dispatches[t := Dispatch(k, reuse, Gating)],
       nextToken := t + 1)
  }

  /** The lookup and the set: the request takes the next token as its name. */
  function Reserved(w: State, k: Key): State {
    if k !in w.slots || w.slots[k] !in w.entries then StartDispatch(w, k, None)
    else
      var t := w.slots[k];
      var e := w.entries[t];
      match e.state
      case Pending => w.(waiting := w.waiting[w.nextToken := t], nextToken := w.nextToken + 1)
      case Delivered =>
        w.(answers := w.answers[w.nextToken := Answer(Accepted(e.message), true)], nextToken := w.nextToken + 1)
      case Failed => StartDispatch(w, k, e.message)
  }

  /** The atomic section of a request for key `k`. */
  function Post(s: State, k: Key): State {
    Reserved(Sweep(s), k)
  }

  // ----- The dispatch -----

  function SettleWith(s: State, t: Token, r: Result): State
    requires t in s.dispatches
  {
    s.(dispatches := s.dispatches[t := s.dispatches[t].(phase := Settled(r))])
  }

  /** What meets the frame: no live channel, a channel that drops it, an exception, or acceptance. */
  datatype Sending = Offline | Dropped | Broken | Sent

  function TrySend(s: State, t: Token, row: Row, sending: Sending): State
    requires t in s.dispatches
  {
    var d := s.dispatches[t];
    match sending
    case Offline => SettleWith(s, t, Refused(409, Some(row)))
    case Dropped => SettleWith(s, t, Refused(409, Some(row)))
    case Broken => SettleWith(s, t, Threw)
    case Sent =>
      s.(dispatches := s.dispatches[t := d.(phase := Updating(row))],
         accepts := s.accepts[d.key := Count(s.accepts, d.key) + 1])
  }

  /** Behind the last gate: a persisted row is sent at once, otherwise a row is inserted first. */
  function GatesPassed(s: State, t: Token, sending: Sending): State
    requires t in s.dispatches
  {
    var d := s.dispatches[t];
    if d.reuse.Some? then TrySend(s, t, d.reuse.value, sending)
    else s.(dispatches := s.dispatches[t := d.(phase := Inserting)])
  }

  /** A row is inserted and noted in the entry object. */
  function Noted(s: State, t: Token): State
    requires t in s.dispatches && t in s.entries
  {
    var k, row := s.dispatches[t].key, s.nextRow;
    s.(nextRow := row + 1, inserts := s.inserts[k := Count(s.inserts, k) + 1],
       entries := s.entries[t := s.entries[t].(message := Some(row))])
  }

  function Inserted(s: State, t: Token, sending: Sending): State
    requires t in s.dispatches && t in s.entries
  {
    TrySend(Noted(s, t), t, s.nextRow, sending)
  }

  /** The handler goes on after its own dispatch. */
  function Finish(s: State, t: Token, r: Result): State
    requires t in s.dispatches && t in s.entries
  {
    var k, e := s.dispatches[t].key, s.entries[t];
    var d := s.(dispatches := s.dispatches[t := s.dispatches[t].(phase := Finished(r))],
                answers := s.answers[t := Answer(r, false)]);
    if !(k in s.slots && s.slots[k] == t) then d
    else
      var expiresAt := if r.Threw? then e.expiresAt else s.now + DEDUPE_TTL_MS;
      if r.Accepted? then d.(entries := s.entries[t := e.(state := Delivered, expiresAt := expiresAt)])
      else if e.message.Some? then d.(entries := s.entries[t := e.(state := Failed, expiresAt := expiresAt)])
      else
        d.(entries := s.entries[t := e.(expiresAt := expiresAt)], order := Without(s.order, k), slots := s.slots - {k})
  }

  // ----- Events -----

  datatype Event =
    | Posted(key: Key)
    | GateSaidNo(t: Token, status: nat)
    | GateThrew(t: Token)
    | FoundOffline(t: Token)
    | GatesOpen(t: Token, sending: Sending)
    | InsertThrew(t: Token)
    | RowInserted(t: Token, sending: Sending)
    | StatusUpdated(t: Token)
    | HandlerFinished(t: Token)
    | WaiterAnswered(w: Token)
    | Tick(elapsed: nat)

  predicate InPhase(s: State, t: Token, p: Phase) {
    t in s.dispatches && s.dispatches[t].phase == p
  }

  predicate Over(d: Dispatch) {
    d.phase.Settled? || d.phase.Finished?
  }

  predicate Enabled(s: State, e: Event) {
    match e
    case Posted(k) => true
    case GateSaidNo(t, status) => InPhase(s, t, Gating) && status != 202
    case GateThrew(t) => InPhase(s, t, Gating)
    case FoundOffline(t) => InPhase(s, t, Gating)
    case GatesOpen(t, sending) => InPhase(s, t, Gating)
    case InsertThrew(t) => InPhase(s, t, Inserting)
    case RowInserted(t, sending) => InPhase(s, t, Inserting) && t in s.entries
    case StatusUpdated(t) => t in s.dispatches && s.dispatches[t].phase.Updating?
    case HandlerFinished(t) => t in s.dispatches && s.dispatches[t].phase.Settled? && t in s.entries
    case WaiterAnswered(w) => w in s.waiting && w !in s.answers && s.waiting[w] in s.dispatches
      && Over(s.dispatches[s.waiting[w]])
    case Tick(elapsed) => true
  }

  function Step(s: State, e: Event): State
    requires Enabled(s, e)
  {
    match e
    case Posted(k) => Post(s, k)
    case GateSaidNo(t, status) => SettleWith(s, t, Refused(status, None))
    case GateThrew(t) => SettleWith(s, t, Threw)
    case FoundOffline(t) => SettleWith(s, t, Refused(409, s.dispatches[t].reuse))
    case GatesOpen(t, sending) => GatesPassed(s, t, sending)
    case InsertThrew(t) => SettleWith(s, t, Threw)
    case RowInserted(t, sending) => Inserted(s, t, sending)
    case StatusUpdated(t) => SettleWith(s, t, Accepted(Some(s.dispatches[t].phase.row)))
    case HandlerFinished(t) => Finish(s, t, s.dispatches[t].phase.result)
    case WaiterAnswered(w) =>
      var r := s.dispatches[s.waiting[w]].phase.result;
      s.(answers := s.answers[w := Answer(r, r.Accepted?)])
    case Tick(elapsed) => s.(now := s.now + elapsed)
  }
}
