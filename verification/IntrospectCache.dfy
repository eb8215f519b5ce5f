/** The introspection cache: one entry per path, keyed by the sum of the modification times of the
    files that the introspection of the path reads. `introspect` is the result for given files. */
module IntrospectCache {
  import opened Wrappers

  type Path = string
  type Info = string

  const MAX_ENTRIES := 2000

  /** Modification times of the two files behind a key (`HEAD` and `config` in a repository, the
      directory alone elsewhere); none if there is no such file or it cannot be read. */
  datatype Stamps = Stamps(first: Option<nat>, second: Option<nat>)

  /** `at` and `seen` record the files when the key was taken and when they were introspected. */
  datatype Entry = Entry(key: int, result: Info, at: Stamps, seen: Stamps)

  /** A call behind its cache miss; what the introspection has read so far. */
  datatype Call = Call(path: Path, key: int, at: Stamps, first: Option<Option<nat>>, second: Option<Option<nat>>)

  datatype State = State(
    files: map<Path, Stamps>,
    order: seq<Path>,
    cache: map<Path, Entry>,
    calls: map<nat, Call>,
    nextCall: nat)

  function StampsOf(s: State, p: Path): Stamps {
    if p in s.files then s.files[p] else Stamps(None, None)
  }

  function Part(stamp: Option<nat>): nat {
    if stamp.Some? then stamp.value else 0
  }

  /** -1 stands for "do not cache". */
  function Key(st: Stamps): int {
    if st.first.None? && st.second.None? then -1 else Part(st.first) + Part(st.second)
  }

  // ----- The cached call -----

  /** The answer from the cache, if there is one for the files as they are. */
  function Hit(s: State, p: Path): Option<Info> {
    var key := Key(StampsOf(s, p));
    if key != -1 && p in s.cache && s.cache[p].key == key then Some(s.cache[p].result) else None
  }

  function Begin(s: State, p: Path): State {
    if Hit(s, p).Some? then s
    else
      var st := StampsOf(s, p);
      s.(calls := s.calls[s.nextCall := Call(p, Key(st), st, None, None)], nextCall := s.nextCall + 1)
  }

  function ReadFirst(s: State, c: nat): State
    requires c in s.calls
  {
    s.(calls := s.calls[c := s.calls[c].(first := Some(StampsOf(s, s.calls[c].path).first))])
  }

  function ReadSecond(s: State, c: nat): State
    requires c in s.calls
  {
    s.(calls := s.calls[c := s.calls[c].(second := Some(StampsOf(s, s.calls[c].path).second))])
  }

  /** First in, first out; a path that is present keeps its place and evicts nobody. */
  function Store(s: State, p: Path, e: Entry): State {
    if p in s.cache then s.(cache := s.cache[p := e])
    else if |s.cache| >= MAX_ENTRIES && s.order != []
    then s.(order := s.order[1..] + [p], cache := (s.cache - {s.order[0]})[p := e])
    else s.(order := s.order + [p], cache := s.cache[p := e])
  }

  /** The introspection of call `c` is done. */
  function Return(s: State, c: nat, introspect: (Path, Stamps) -> Info): State
    requires c in s.calls && s.calls[c].first.Some? && s.calls[c].second.Some?
  {
    var k := s.calls[c];
    var seen := Stamps(k.first.value, k.second.value);
    var done := s.(calls := s.calls - {c});
    if k.key == -1 then done else Store(done, k.path, Entry(k.key, introspect(k.path, seen), k.at, seen))
  }

  // ----- Events -----

  datatype Event =
    | Began(p: Path)
    | FirstRead(c: nat)
    | SecondRead(c: nat)
    | Returned(c: nat)
    | Changed(p: Path, st: Stamps)

  predicate Positive(st: Stamps) {
    (st.first.Some? ==> st.first.value > 0) && (st.second.Some? ==> st.second.value > 0)
  }

  /** Files change at any time, also while an introspection is under way, to any times. */
  predicate Enabled(s: State, e: Event) {
    match e
    case Began(p) => true
    case FirstRead(c) => c in s.calls && s.calls[c].first.None?
    case SecondRead(c) => c in s.calls && s.calls[c].second.None?
    case Returned(c) => c in s.calls && s.calls[c].first.Some? && s.calls[c].second.Some?
    case Changed(p, st) => Positive(st)
  }

  function Step(s: State, e: Event, introspect: (Path, Stamps) -> Info): State
    requires Enabled(s, e)
  {
    match e
    case Began(p) => Begin(s, p)
    case FirstRead(c) => ReadFirst(s, c)
    case SecondRead(c) => ReadSecond(s, c)
    case Returned(c) => Return(s, c, introspect)
    case Changed(p, st) => s.(files := s.files[p := st])
  }

  // ----- The sum of two times -----

  /** No file gets older, and none disappears. */
  predicate NotOlder(a: Stamps, b: Stamps) {
    Part(a.first) <= Part(b.first) && Part(a.second) <= Part(b.second)
  }

  /** One file gets older by as much as the other gets newer. */
  predicate Offset(a: Stamps, b: Stamps) {
    Part(b.first) - Part(a.first) == Part(a.second) - Part(b.second) && Part(a.first) != Part(b.first)
  }

  /** What the key tells apart. */
  lemma EqualKeysIff(a: Stamps, b: Stamps)
    requires Positive(a) && Positive(b) && Key(a) != -1
    ensures Key(a) == Key(b) <==> a == b || Offset(a, b)
  {
    if Key(a) == Key(b) && Part(a.first) == Part(b.first) {
      SamePart(a.first, b.first);
      SamePart(a.second, b.second);
    }
  }

  lemma SamePart(a: Option<nat>, b: Option<nat>)
    requires Part(a) == Part(b) && (a.Some? ==> a.value > 0) && (b.Some? ==> b.value > 0)
    ensures a == b
  {
  }

  /** Among files that do not get older, equal sums come from equal files. */
  lemma EqualKeysMeanEqualFiles(a: Stamps, b: Stamps)
    requires Positive(a) && Positive(b) && NotOlder(a, b)
    ensures Key(a) == Key(b) <==> a == b
  {
  }

  // ----- The invariant -----

  predicate CallOk(c: Call) {
    && c.key == Key(c.at) && Positive(c.at)
    && (c.first.Some? && c.first.value.Some? ==> c.first.value.value > 0)
    && (c.second.Some? && c.second.value.Some? ==> c.second.value.value > 0)
  }

  predicate EntryOk(p: Path, e: Entry, introspect: (Path, Stamps) -> Info) {
    e.key == Key(e.at) && e.key != -1 && Positive(e.at) && Positive(e.seen) && e.result == introspect(p, e.seen)
  }

  predicate NoDuplicates(order: seq<Path>) {
    forall i, j | 0 <= i < j < |order| :: order[i] != order[j]
  }

  ghost predicate OrderOk(s: State) {
    && NoDuplicates(s.order) && |s.order| == |s.cache| <= MAX_ENTRIES
    && forall p :: p in s.order <==> p in s.cache
  }

  predicate FilesOk(s: State) {
    forall p | p in s.files :: Positive(s.files[p])
  }

  predicate CallsOk(s: State) {
    forall c | c in s.calls :: c < s.nextCall && CallOk(s.calls[c])
  }

  predicate EntriesOk(s: State, introspect: (Path, Stamps) -> Info) {
    forall p | p in s.cache :: EntryOk(p, s.cache[p], introspect)
  }

  ghost predicate Inv(s: State, introspect: (Path, Stamps) -> Info) {
    FilesOk(s) && CallsOk(s) && EntriesOk(s, introspect) && OrderOk(s)
  }

  lemma SizeWith(m: map<Path, Entry>, p: Path, e: Entry)
    ensures |m[p := e]| == if p in m then |m| else |m| + 1
  {
    assert m[p := e].Keys == m.Keys + {p};
    assert |m[p := e]| == |m[p := e].Keys| && |m| == |m.Keys|;
  }

  lemma SizeWithout(m: map<Path, Entry>, p: Path)
    requires p in m
    ensures |m - {p}| == |m| - 1
  {
    assert (m - {p}).Keys == m.Keys - {p};
    assert |m - {p}| == |(m - {p}).Keys| && |m| == |m.Keys|;
  }

  /** A new path at the end of the order. */
  lemma AppendOrder(s: State, p: Path, e: Entry)
    requires OrderOk(s) && p !in s.cache && |s.cache| < MAX_ENTRIES
    ensures OrderOk(s.(order := s.order + [p], cache := s.cache[p := e]))
  {
    SizeWith(s.cache, p, e);
    assert p !in s.order;
    assert forall q :: q in s.order + [p] <==> q in s.order || q == p;
  }

  lemma Tail(order: seq<Path>)
    requires order != [] && NoDuplicates(order)
    ensures NoDuplicates(order[1..])
    ensures forall q :: q in order[1..] <==> q in order && q != order[0]
  {
    assert order == [order[0]] + order[1..];
    assert order[0] !in order[1..];
  }

  lemma DropOldest(s: State)
    requires OrderOk(s) && s.order != []
    ensures s.order[0] in s.cache && OrderOk(s.(order := s.order[1..], cache := s.cache - {s.order[0]}))
  {
    var o := s.order[0];
    Tail(s.order);
    hide NoDuplicates;
    assert o in s.order;
    SizeWithout(s.cache, o);
  }

  lemma StoreOrder(s: State, p: Path, e: Entry)
    requires OrderOk(s)
    ensures OrderOk(Store(s, p, e))
  {
    if p in s.cache {
      SizeWith(s.cache, p, e);
    } else if |s.cache| >= MAX_ENTRIES {
      DropOldest(s);
      AppendOrder(s.(order := s.order[1..], cache := s.cache - {s.order[0]}), p, e);
    } else {
      AppendOrder(s, p, e);
    }
    hide NoDuplicates;
  }

  lemma StoreCache(s: State, p: Path, e: Entry)
    ensures var z := Store(s, p, e);
      && z.files == s.files && z.calls == s.calls && z.nextCall == s.nextCall
      && forall q | q in z.cache :: (q == p && z.cache[q] == e) || (q in s.cache && z.cache[q] == s.cache[q])
  {
  }

  /** A returning call leaves, and its entry is the only new one. */
  lemma Returning(s: State, c: nat, introspect: (Path, Stamps) -> Info)
    requires OrderOk(s) && Enabled(s, Returned(c))
    ensures var k, z := s.calls[c], Return(s, c, introspect);
      var seen := Stamps(k.first.value, k.second.value);
      && z.files == s.files && z.calls == s.calls - {c} && z.nextCall == s.nextCall && OrderOk(z)
      && forall q | q in z.cache ::
        || (q in s.cache && z.cache[q] == s.cache[q])
        || (k.key != -1 && q == k.path && z.cache[q] == Entry(k.key, introspect(q, seen), k.at, seen))
  {
    var k := s.calls[c];
    var seen := Stamps(k.first.value, k.second.value);
    var done := s.(calls := s.calls - {c});
    assert OrderOk(done) by { hide NoDuplicates; }
    StoreOrder(done, k.path, Entry(k.key, introspect(k.path, seen), k.at, seen));
    StoreCache(done, k.path, Entry(k.key, introspect(k.path, seen), k.at, seen));
    hide OrderOk, Store;
  }

  lemma ReturnInv(s: State, c: nat, introspect: (Path, Stamps) -> Info)
    requires Inv(s, introspect) && Enabled(s, Returned(c))
    ensures Inv(Return(s, c, introspect), introspect)
  {
    Returning(s, c, introspect);
    assert CallOk(s.calls[c]);
    hide OrderOk, Return;
  }

  lemma OthersInv(s: State, e: Event, introspect: (Path, Stamps) -> Info)
    requires Inv(s, introspect) && Enabled(s, e) && !e.Returned?
    ensures Inv(Step(s, e, introspect), introspect)
  {
    var z := Step(s, e, introspect);
    assert OrderOk(z) by { hide NoDuplicates; }
    assert EntriesOk(z, introspect) by { hide EntryOk, OrderOk; }
    hide OrderOk, EntriesOk;
    assert e.FirstRead? || e.SecondRead? ==> CallOk(s.calls[e.c]);
    assert forall c | c in z.calls :: c in s.calls || c == s.nextCall;
  }

  lemma StepInv(s: State, e: Event, introspect: (Path, Stamps) -> Info)
    requires Inv(s, introspect) && Enabled(s, e)
    ensures Inv(Step(s, e, introspect), introspect)
  {
    if e.Returned? { ReturnInv(s, e.c, introspect); } else { OthersInv(s, e, introspect); }
    hide Inv;
  }

  // ----- Files that do not get older -----

  predicate CallAged(s: State, c: Call) {
    var now := StampsOf(s, c.path);
    && NotOlder(c.at, now)
    && (c.first.Some? ==> Part(c.at.first) <= Part(c.first.value) <= Part(now.first))
    && (c.second.Some? ==> Part(c.at.second) <= Part(c.second.value) <= Part(now.second))
  }

  /** What an entry was made from lies in order before the files as they are. */
  predicate EntryAged(s: State, p: Path, e: Entry) {
    NotOlder(e.at, e.seen) && NotOlder(e.seen, StampsOf(s, p))
  }

  predicate Aged(s: State) {
    (forall c | c in s.calls :: CallAged(s, s.calls[c])) && forall p | p in s.cache :: EntryAged(s, p, s.cache[p])
  }

  predicate Forward(s: State, e: Event) {
    e.Changed? ==> NotOlder(StampsOf(s, e.p), e.st)
  }

  lemma ChangedAged(s: State, p: Path, st: Stamps)
    requires Aged(s) && Forward(s, Changed(p, st))
    ensures Aged(s.(files := s.files[p := st]))
  {
    var z := s.(files := s.files[p := st]);
    forall c | c in z.calls ensures CallAged(z, z.calls[c]) { assert CallAged(s, s.calls[c]); }
    forall q | q in z.cache ensures EntryAged(z, q, z.cache[q]) { assert EntryAged(s, q, s.cache[q]); }
    hide CallAged, EntryAged;
  }

  /** Nothing but the files, or one call, or one entry decides. */
  lemma SameFilesAged(s: State, z: State)
    requires Aged(s) && z.files == s.files
    requires forall c | c in z.calls :: (c in s.calls && z.calls[c] == s.calls[c]) || CallAged(s, z.calls[c])
    requires forall q | q in z.cache :: (q in s.cache && z.cache[q] == s.cache[q]) || EntryAged(s, q, z.cache[q])
    ensures Aged(z)
  {
    forall c | c in z.calls ensures CallAged(z, z.calls[c]) { assert CallAged(s, z.calls[c]); }
    forall q | q in z.cache ensures EntryAged(z, q, z.cache[q]) { assert EntryAged(s, q, z.cache[q]); }
    hide CallAged, EntryAged;
  }

  lemma ReturnAged(s: State, c: nat, introspect: (Path, Stamps) -> Info)
    requires OrderOk(s) && Aged(s) && Enabled(s, Returned(c))
    ensures Aged(Return(s, c, introspect))
  {
    var k := s.calls[c];
    var seen := Stamps(k.first.value, k.second.value);
    assert CallAged(s, k);
    assert EntryAged(s, k.path, Entry(k.key, introspect(k.path, seen), k.at, seen));
    hide Return, OrderOk, Aged, CallAged, EntryAged;
    Returning(s, c, introspect);
    SameFilesAged(s, Return(s, c, introspect));
  }

  lemma OthersAged(s: State, e: Event, introspect: (Path, Stamps) -> Info)
    requires Aged(s) && Enabled(s, e) && !e.Changed? && !e.Returned?
    ensures Aged(Step(s, e, introspect))
  {
    if e.FirstRead? || e.SecondRead? { assert CallAged(s, s.calls[e.c]); }
    var z := Step(s, e, introspect);
    assert z.files == s.files && z.cache == s.cache;
    forall c | c in z.calls && !(c in s.calls && z.calls[c] == s.calls[c]) ensures CallAged(s, z.calls[c]) {}
    hide Aged, CallAged, EntryAged, Step;
    SameFilesAged(s, z);
  }

  lemma StepAged(s: State, e: Event, introspect: (Path, Stamps) -> Info)
    requires OrderOk(s) && Aged(s) && Enabled(s, e) && Forward(s, e)
    ensures Aged(Step(s, e, introspect))
  {
    hide OrderOk, Aged;
    if e.Changed? {
      ChangedAged(s, e.p, e.st);
    } else if e.Returned? {
      ReturnAged(s, e.c, introspect);
    } else {
      OthersAged(s, e, introspect);
    }
  }

  // ----- Whole runs -----

  ghost predicate IsRun(trace: seq<State>, events: seq<Event>, introspect: (Path, Stamps) -> Info) {
    && |trace| == |events| + 1 && trace[0] == State(map[], [], map[], map[], 0)
    && forall i | 0 <= i < |events| :: Turn(trace[i], events[i], trace[i + 1], introspect)
  }

  predicate Turn(s: State, e: Event, z: State, introspect: (Path, Stamps) -> Info) {
    Enabled(s, e) && z == Step(s, e, introspect)
  }

  lemma {:induction false} RunInv(trace: seq<State>, events: seq<Event>, introspect: (Path, Stamps) -> Info, t: nat)
    requires IsRun(trace, events, introspect) && t < |trace|
    ensures Inv(trace[t], introspect)
  {
    if t > 0 {
      RunInv(trace, events, introspect, t - 1);
      assert Turn(trace[t - 1], events[t - 1], trace[t], introspect);
      StepInv(trace[t - 1], events[t - 1], introspect);
    }
  }

  /** The hit is not what a fresh introspection would answer. */
  predicate WrongHit(s: State, p: Path, introspect: (Path, Stamps) -> Info) {
    Hit(s, p).Some? && Hit(s, p).value != introspect(p, StampsOf(s, p))
  }

  /** Exactly when a cached path is answered wrongly: the files are those of the key, or both were
      moved by offsetting amounts, and the introspection read others that tell a different story.
      Where the files rested while they were read, only offsetting amounts do it. */
  lemma WrongHitIff(trace: seq<State>, events: seq<Event>, introspect: (Path, Stamps) -> Info, t: nat, p: Path)
    requires IsRun(trace, events, introspect) && t < |trace| && p in trace[t].cache
    ensures var e, now := trace[t].cache[p], StampsOf(trace[t], p);
      && (WrongHit(trace[t], p, introspect) <==>
          (e.at == now || Offset(e.at, now)) && introspect(p, e.seen) != introspect(p, now))
      && (e.at == e.seen ==> (WrongHit(trace[t], p, introspect) <==>
                              Offset(e.at, now) && introspect(p, e.at) != introspect(p, now)))
  {
    RunInv(trace, events, introspect, t);
    hide IsRun;
    var s := trace[t];
    assert EntryOk(p, s.cache[p], introspect);
    assert Positive(StampsOf(s, p));
    EqualKeysIff(s.cache[p].at, StampsOf(s, p));
    hide OrderOk, CallsOk;
  }

  /** A run in which no file's time is ever moved back. */
  ghost predicate OnlyForward(trace: seq<State>, events: seq<Event>) {
    |trace| == |events| + 1 && forall i | 0 <= i < |events| :: Forward(trace[i], events[i])
  }

  lemma {:induction false} RunAged(trace: seq<State>, events: seq<Event>, introspect: (Path, Stamps) -> Info, t: nat)
    requires IsRun(trace, events, introspect) && OnlyForward(trace, events) && t < |trace|
    ensures Aged(trace[t])
  {
    if t > 0 {
      RunAged(trace, events, introspect, t - 1);
      assert Turn(trace[t - 1], events[t - 1], trace[t], introspect) && Forward(trace[t - 1], events[t - 1]);
      RunInv(trace, events, introspect, t - 1);
      StepAged(trace[t - 1], events[t - 1], introspect);
    }
  }

  /** Then every hit answers what a fresh introspection would, even if files changed while the cached
      one was under way. */
  lemma HitsAreFresh(trace: seq<State>, events: seq<Event>, introspect: (Path, Stamps) -> Info, t: nat, p: Path)
    requires IsRun(trace, events, introspect) && OnlyForward(trace, events) && t < |trace|
    requires Hit(trace[t], p).Some?
    ensures Hit(trace[t], p).value == introspect(p, StampsOf(trace[t], p))
  {
    WrongHitIff(trace, events, introspect, t, p);
    RunAged(trace, events, introspect, t);
    RunInv(trace, events, introspect, t);
    var s := trace[t];
    var e := s.cache[p];
    assert EntryOk(p, e, introspect) && Positive(StampsOf(s, p));
    assert EntryAged(s, p, e);
    hide IsRun, OnlyForward, Inv, Aged;
    EqualKeysMeanEqualFiles(e.at, StampsOf(s, p));
    EqualKeysMeanEqualFiles(e.at, e.seen);
  }

  /** Nothing is stored under -1, and the cache has at most 2000 entries. */
  lemma CacheIsBounded(trace: seq<State>, events: seq<Event>, introspect: (Path, Stamps) -> Info, t: nat)
    requires IsRun(trace, events, introspect) && t < |trace|
    ensures |trace[t].cache| <= 2000
    ensures forall p | p in trace[t].cache :: trace[t].cache[p].key != -1
  {
    RunInv(trace, events, introspect, t);
    hide IsRun;
  }

  /** A call is answered from the cache exactly if a time can be read and their sum is the key of the path's
      entry; then nothing is introspected. Otherwise an introspection begins under the present key. */
  lemma BeganIs(trace: seq<State>, events: seq<Event>, introspect: (Path, Stamps) -> Info, t: nat, p: Path)
    requires IsRun(trace, events, introspect) && t < |events| && events[t] == Began(p)
    ensures var s, z, st := trace[t], trace[t + 1], StampsOf(trace[t], p);
      var readable := st.first.Some? || st.second.Some?;
      var sum := (if st.first.Some? then st.first.value else 0) + if st.second.Some? then st.second.value else 0;
      if readable && p in s.cache && s.cache[p].key == sum
      then z == s && Hit(s, p) == Some(s.cache[p].result)
      else
        && Hit(s, p).None?
        && z == s.(calls := s.calls[s.nextCall := Call(p, if readable then sum else -1, st, None, None)],
                   nextCall := s.nextCall + 1)
  {
    assert Turn(trace[t], events[t], trace[t + 1], introspect);
    hide IsRun;
  }

  /** What a finished call leaves behind: nothing if no time could be read, otherwise its entry. Every other
      entry stays as it is, but for the one that was first in the order, which goes exactly if the path is
      new and the cache is full. */
  lemma ReturnIs(trace: seq<State>, events: seq<Event>, introspect: (Path, Stamps) -> Info, t: nat, c: nat)
    requires IsRun(trace, events, introspect) && t < |events| && events[t] == Returned(c)
    ensures c in trace[t].calls && trace[t].calls[c].first.Some? && trace[t].calls[c].second.Some?
    ensures var s, z, k := trace[t], trace[t + 1], trace[t].calls[c];
      var seen := Stamps(k.first.value, k.second.value);
      && z.files == s.files && z.calls == s.calls - {c}
      && if k.key == -1 then z.cache == s.cache && z.order == s.order
         else
           && k.path in z.cache && z.cache[k.path] == Entry(k.key, introspect(k.path, seen), k.at, seen)
           && (k.path in s.cache || |s.cache| < 2000 ==>
                 && z.cache - {k.path} == s.cache - {k.path}
                 && z.order == if k.path in s.cache then s.order else s.order + [k.path])
           && (k.path !in s.cache && |s.cache| >= 2000 ==>
                 && s.order != [] && s.order[0] in s.cache && z.cache - {k.path} == s.cache - {s.order[0]}
                 && z.order == s.order[1..] + [k.path])
  {
    RunInv(trace, events, introspect, t);
    assert Turn(trace[t], events[t], trace[t + 1], introspect);
    hide IsRun;
    var s := trace[t];
    assert s.order != [] ==> s.order[0] in s.order;
    hide NoDuplicates, EntriesOk, FilesOk, CallsOk;
  }

  /** From any files to any others by offsetting amounts the cache goes on answering for the old
      ones: the run fills an empty cache, moves the times, and is asked again. */
  lemma OffsettingTimesGoStale(p: Path, a: Stamps, b: Stamps, introspect: (Path, Stamps) -> Info)
      returns (trace: seq<State>, events: seq<Event>)
    requires Positive(a) && Positive(b) && Key(a) != -1 && Offset(a, b) && introspect(p, a) != introspect(p, b)
    ensures IsRun(trace, events, introspect) && StampsOf(trace[|events|], p) == b
    ensures Hit(trace[|events|], p) == Some(introspect(p, a)) && WrongHit(trace[|events|], p, introspect)
  {
    events := [Changed(p, a), Began(p), FirstRead(0), SecondRead(0), Returned(0), Changed(p, b)];
    var s0 := State(map[], [], map[], map[], 0);
    var s1 := s0.(files := map[p := a]);
    var s2 := s1.(calls := map[0 := Call(p, Key(a), a, None, None)], nextCall := 1);
    var s3 := s2.(calls := map[0 := Call(p, Key(a), a, Some(a.first), None)]);
    var s4 := s2.(calls := map[0 := Call(p, Key(a), a, Some(a.first), Some(a.second))]);
    var s5 := s1.(nextCall := 1, order := [p], cache := map[p := Entry(Key(a), introspect(p, a), a, a)]);
    var s6 := s5.(files := map[p := b]);
    trace := [s0, s1, s2, s3, s4, s5, s6];
    assert Turn(s0, events[0], s1, introspect) && Turn(s1, events[1], s2, introspect);
    assert Turn(s2, events[2], s3, introspect) && Turn(s3, events[3], s4, introspect);
    assert Turn(s4, events[4], s5, introspect) && Turn(s5, events[5], s6, introspect);
    EqualKeysIff(a, b);
  }

  // ----- The module's variable -----

  class Cache {
    /** The map, with its keys in insertion order. */
    var order: seq<Path>
    var introspectCache: map<Path, Entry>

    /** The lookup; `stamps` are the files as `stat` finds them. */
    method Lookup(path: Path, stamps: Stamps, ghost s: State) returns (key: int, hit: Option<Info>)
      requires introspectCache == s.cache && order == s.order && stamps == StampsOf(s, path)
      ensures key == Key(stamps) && hit == Hit(s, path)
    {
      var headMtime: int, configMtime: int := -1, -1;
      if stamps.first.Some? { headMtime := stamps.first.value; }
      if stamps.second.Some? { configMtime := stamps.second.value; }
      if headMtime == -1 && configMtime == -1 { return -1, None; }
      key := (if headMtime == -1 then 0 else headMtime) + (if configMtime == -1 then 0 else configMtime);
      if path in introspectCache && introspectCache[path].key == key {
        return key, Some(introspectCache[path].result);
      }
      hit := None;
    }

    /** What follows the introspection of a call that may be cached. */
    method Remember(path: Path, e: Entry, ghost s: State)
      requires introspectCache == s.cache && order == s.order
      modifies this
      ensures order == Store(s, path, e).order && introspectCache == Store(s, path, e).cache
    {
      if |introspectCache| >= MAX_ENTRIES && path !in introspectCache {
        if order != [] {
          var oldest := order[0];
          order := order[1..];
          introspectCache := introspectCache - {oldest};
        }
      }
      if path !in introspectCache { order := order + [path]; }
      introspectCache := introspectCache[path := e];
    }
  }
}
