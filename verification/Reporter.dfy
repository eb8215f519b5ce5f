/** The forwarder of hub errors: an aggregation window and an hourly throttle per fingerprint, one
    day counter, and any number of requests in flight. One function per routine, one event per
    turn of the event loop. */
module Reporter {
  type Fingerprint = string

  const MAX_REPORTS_PER_DAY := 200
  const THROTTLE_MS := 3_600_000
  const AGGREGATION_WINDOW_MS := 45_000
  const FETCH_TIMEOUT_MS := 10_000
  const DAY_MS := 86_400_000

  /** A pending aggregate, and when its timer fires. */
  datatype Bucket = Bucket(occurrences: nat, due: int)

  datatype Status = Awaiting | Delivered | Rejected | RolledBack

  /** One call that got as far as its request: what its closure captured, and how it ended. */
  datatype Send = Send(fingerprint: Fingerprint, occurrences: nat, generation: nat, at: int, status: Status)

  datatype Outcome = Ok | Refused | RateLimited | Failed

  /** `aborts` are the sends whose timeout has fired; the timeout of any other awaiting send is armed.
      `sends`, `accepted`, `throttled` and `capped` record what happened; no routine reads them. */
  datatype State = State(
    now: int,
    lastSentAt: map<Fingerprint, int>,
    dayWindowStart: int,
    dayCount: int,
    generation: nat,
    inFlight: set<Fingerprint>,
    pending: map<Fingerprint, Bucket>,
    aborts: set<nat>,
    sends: seq<Send>,
    accepted: map<Fingerprint, nat>,
    throttled: map<Fingerprint, nat>,
    capped: map<Fingerprint, nat>)

  function Init(now: int): State {
    State(now, map[], now, 0, 0, {}, map[], {}, [], map[], map[], map[])
  }

  function Tally(m: map<Fingerprint, nat>, fp: Fingerprint): nat {
    if fp in m then m[fp] else 0
  }

  function Add(m: map<Fingerprint, nat>, fp: Fingerprint, n: nat): map<Fingerprint, nat> {
    m[fp := Tally(m, fp) + n]
  }

  // ----- Routines -----

  function ResetDayWindowIfStale(s: State): State {
    if s.now - s.dayWindowStart > DAY_MS
    then s.(dayWindowStart := s.now, dayCount := 0, generation := s.generation + 1)
    else s
  }

  function ArmAggregationWindow(s: State, fp: Fingerprint, occurrences: nat): State {
    var b := if fp in s.pending
      then s.pending[fp].(occurrences := s.pending[fp].occurrences + occurrences)
      else Bucket(occurrences, s.now + AGGREGATION_WINDOW_MS);
    s.(pending := s.pending[fp := b])
  }

  /** A stamp of 0 counts as none, as a number that is tested for truth does. */
  predicate SlotTaken(s: State, fp: Fingerprint) {
    fp in s.lastSentAt && s.lastSentAt[fp] != 0 && s.now - s.lastSentAt[fp] < THROTTLE_MS
  }

  function Reserve(s: State, fp: Fingerprint, occurrences: nat): State {
    s.(lastSentAt := s.lastSentAt[fp := s.now],
       inFlight := s.inFlight + {fp},
       dayCount := s.dayCount + 1,
       sends := s.sends + [Send(fp, occurrences, s.generation, s.now, Awaiting)])
  }

  function SendAggregatedReport(s: State, fp: Fingerprint, occurrences: nat): State {
    var r := ResetDayWindowIfStale(s);
    if r.dayCount >= MAX_REPORTS_PER_DAY then r.(capped := Add(r.capped, fp, occurrences))
    else if fp in r.inFlight then ArmAggregationWindow(r, fp, occurrences)
    else if SlotTaken(r, fp) then r.(throttled := Add(r.throttled, fp, occurrences))
    else Reserve(r, fp, occurrences)
  }

  /** The aggregation timer of `fp` fires. */
  function Flush(s: State, fp: Fingerprint): State {
    if fp in s.pending
    then SendAggregatedReport(s.(pending := s.pending - {fp}), fp, s.pending[fp].occurrences)
    else s
  }

  /** An error occurs; `filtered` if forwarding is off or the noise filter drops it. */
  function Report(s: State, fp: Fingerprint, filtered: bool): State {
    if filtered then s else ArmAggregationWindow(s.(accepted := Add(s.accepted, fp, 1)), fp, 1)
  }

  function RolledBackCount(s: State, generation: nat): int {
    if s.generation != generation then s.dayCount else if s.dayCount - 1 > 0 then s.dayCount - 1 else 0
  }

  function StatusAfter(o: Outcome): Status {
    match o
    case Ok => Delivered
    case Refused => Rejected
    case RateLimited => RolledBack
    case Failed => RolledBack
  }

  /** The request of send `k` settles. */
  function Settle(s: State, k: nat, o: Outcome): State
    requires k < |s.sends|
  {
    var c := s.sends[k];
    var d := s.(inFlight := s.inFlight - {c.fingerprint}, sends := s.sends[k := c.(status := StatusAfter(o))]);
    if o == RateLimited || o == Failed
    then d.(lastSentAt := s.lastSentAt - {c.fingerprint}, dayCount := RolledBackCount(s, c.generation))
    else d
  }

  // ----- Events -----

  datatype Event =
    | Reported(fp: Fingerprint, filtered: bool)
    | TimerFired(fp: Fingerprint)
    | Aborted(k: nat)
    | Settled(k: nat, outcome: Outcome)
    | Tick(elapsed: nat)

  predicate Awaits(s: State, k: nat) {
    k < |s.sends| && s.sends[k].status == Awaiting
  }

  /** When the timeout of send `k` is due. */
  function Timeout(s: State, k: nat): int
    requires k < |s.sends|
  {
    s.sends[k].at + FETCH_TIMEOUT_MS
  }

  /** A timer fires once its time has come; a request settles once, aborted or not. */
  predicate Enabled(s: State, e: Event) {
    match e
    case Reported(fp, filtered) => true
    case TimerFired(fp) => fp in s.pending && s.pending[fp].due <= s.now
    case Aborted(k) => Awaits(s, k) && k !in s.aborts && Timeout(s, k) <= s.now
    case Settled(k, outcome) => Awaits(s, k)
    case Tick(elapsed) => true
  }

  function Step(s: State, e: Event): State
    requires Enabled(s, e)
  {
    match e
    case Reported(fp, filtered) => Report(s, fp, filtered)
    case TimerFired(fp) => Flush(s, fp)
    case Aborted(k) => s.(aborts := s.aborts + {k})
    case Settled(k, outcome) => Settle(s, k, outcome)
    case Tick(elapsed) => s.(now := s.now + elapsed)
  }
}
