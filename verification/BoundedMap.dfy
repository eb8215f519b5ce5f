/** The bounded-concurrency map: workers share one counter, each takes the next index, awaits the
    call for it, stores the result and comes back. `fn` is the value that the call for an item
    resolves to. */
module BoundedMap {
  import opened Wrappers

  /** A worker is at the head of its loop, awaits the call for an index, has returned, or was thrown
      out of its loop by a call that rejected. */
  datatype Worker = AtHead | Awaiting(index: nat) | Returned | Broken(index: nat)

  datatype State<R> = State(next: nat, workers: seq<Worker>, results: seq<Option<R>>, calls: seq<nat>)

  function Min(a: int, b: int): int {
    if a < b then a else b
  }

  /** `Array.from({ length })` has no elements for a length that is not positive. */
  function WorkerCount(limit: int, n: nat): nat {
    if Min(limit, n) > 0 then Min(limit, n) else 0
  }

  function Start<R>(limit: int, n: nat): State<R> {
    State(0, seq(WorkerCount(limit, n), _ => AtHead), seq(n, _ => None), [])
  }

  datatype Event = Took(w: nat) | Resolved(w: nat) | Rejected(w: nat)

  predicate Enabled<R>(s: State<R>, e: Event) {
    e.w < |s.workers| && if e.Took? then s.workers[e.w].AtHead? else s.workers[e.w].Awaiting?
  }

  function Step<T, R>(s: State<R>, e: Event, items: seq<T>, fn: T -> R): State<R>
    requires |s.results| == |items| && Enabled(s, e)
  {
    match e
    case Took(w) =>
      var i := s.next;
      var taken := s.(next := i + 1);
      if i >= |items| then taken.(workers := s.workers[w := Returned])
      else taken.(workers := s.workers[w := Awaiting(i)], calls := s.calls + [i])
    case Resolved(w) =>
      var i := s.workers[w].index;
      if i >= |items| then s
      else s.(workers := s.workers[w := AtHead], results := s.results[i := Some(fn(items[i]))])
    case Rejected(w) => s.(workers := s.workers[w := Broken(s.workers[w].index)])
  }

  // ----- The invariant -----

  predicate HasIndex(w: Worker, i: nat) {
    (w.Awaiting? || w.Broken?) && w.index == i
  }

  /** An index below `next` has its result or is with exactly one worker; one above is untouched. */
  ghost predicate IndexOk<T, R>(s: State<R>, items: seq<T>, fn: T -> R, i: nat)
    requires |s.results| == |items| && i < |items|
  {
    && (s.results[i].Some? ==> s.results[i].value == fn(items[i]))
    && (s.results[i].Some? <==> i < s.next && forall w | 0 <= w < |s.workers| :: !HasIndex(s.workers[w], i))
  }

  ghost predicate Inv<T, R>(s: State<R>, items: seq<T>, fn: T -> R, limit: int) {
    && |s.results| == |items| && |s.workers| == WorkerCount(limit, |items|)
    && (forall i | 0 <= i < |items| :: IndexOk(s, items, fn, i))
    && (forall w | 0 <= w < |s.workers| && (s.workers[w].Awaiting? || s.workers[w].Broken?) ::
          s.workers[w].index < s.next && s.workers[w].index < |items|)
    && (forall v, w | 0 <= v < w < |s.workers| && (s.workers[v].Awaiting? || s.workers[v].Broken?) ::
          !HasIndex(s.workers[w], s.workers[v].index))
    && ((exists w | 0 <= w < |s.workers| :: s.workers[w] == Returned) ==> s.next >= |items|)
    && (s.workers == [] ==> s.next == 0)
    && s.calls == seq(Min(s.next, |items|), i => i)
  }

  lemma StartInv<T, R>(items: seq<T>, fn: T -> R, limit: int)
    ensures Inv(Start(limit, |items|), items, fn, limit)
  {
  }

  lemma StepInv<T, R>(s: State<R>, e: Event, items: seq<T>, fn: T -> R, limit: int)
    requires Inv(s, items, fn, limit) && Enabled(s, e)
    ensures Inv(Step(s, e, items, fn), items, fn, limit)
  {
    var z := Step(s, e, items, fn);
    forall i | 0 <= i < |items| ensures IndexOk(z, items, fn, i) {
      assert IndexOk(s, items, fn, i);
      StepIndex(s, e, items, fn, limit, i);
    }
    hide IndexOk;
  }

  lemma StepIndex<T, R>(s: State<R>, e: Event, items: seq<T>, fn: T -> R, limit: int, i: nat)
    requires Inv(s, items, fn, limit) && Enabled(s, e) && i < |items| && IndexOk(s, items, fn, i)
    ensures IndexOk(Step(s, e, items, fn), items, fn, i)
  {
    var z := Step(s, e, items, fn);
    if e.Took? {
      if s.next == i { assert HasIndex(z.workers[e.w], i); }
      forall w | 0 <= w < |s.workers| && w != e.w ensures HasIndex(z.workers[w], i) == HasIndex(s.workers[w], i) {}
    } else if s.workers[e.w].index == i {
      assert HasIndex(s.workers[e.w], i);
      if e.Rejected? { assert HasIndex(z.workers[e.w], i); }
    }
    if s.results[i].None? && i < s.next {
      var w :| 0 <= w < |s.workers| && HasIndex(s.workers[w], i);
      assert w != e.w ==> HasIndex(z.workers[w], i);
    }
  }

  // ----- Whole runs -----

  ghost predicate IsRun<T, R>(trace: seq<State<R>>, events: seq<Event>, items: seq<T>, fn: T -> R, limit: int) {
    && |trace| == |events| + 1 && trace[0] == Start(limit, |items|)
    && forall i | 0 <= i < |events| :: Turn(trace[i], events[i], trace[i + 1], items, fn)
  }

  ghost predicate Turn<T, R>(s: State<R>, e: Event, z: State<R>, items: seq<T>, fn: T -> R) {
    |s.results| == |items| && Enabled(s, e) && z == Step(s, e, items, fn)
  }

  lemma {:induction false} RunInv<T, R>(
    trace: seq<State<R>>, events: seq<Event>, items: seq<T>, fn: T -> R, limit: int, t: nat)
    requires IsRun(trace, events, items, fn, limit) && t < |trace|
    ensures Inv(trace[t], items, fn, limit)
  {
    hide Inv;
    if t == 0 {
      StartInv(items, fn, limit);
    } else {
      RunInv(trace, events, items, fn, limit, t - 1);
      assert Turn(trace[t - 1], events[t - 1], trace[t], items, fn);
      StepInv(trace[t - 1], events[t - 1], items, fn, limit);
    }
  }

  /** The calls that await their answer. */
  function Outstanding(workers: seq<Worker>): (n: nat)
    ensures n <= |workers|
  {
    if workers == [] then 0 else (if workers[0].Awaiting? then 1 else 0) + Outstanding(workers[1..])
  }

  /** Calls are made once per index and in input order, by as many workers as the limit and the items
      allow, so at most `limit` of them are outstanding. */
  lemma CallsOncePerIndex<T, R>(
    trace: seq<State<R>>, events: seq<Event>, items: seq<T>, fn: T -> R, limit: int, t: nat)
    requires IsRun(trace, events, items, fn, limit) && t < |trace|
    ensures var s := trace[t];
      && |s.calls| <= |items| && (forall i | 0 <= i < |s.calls| :: s.calls[i] == i)
      && |s.workers| == (if limit <= 0 then 0 else if limit < |items| then limit else |items|)
      && (if limit <= 0 then Outstanding(s.workers) == 0 else Outstanding(s.workers) <= limit)
  {
    RunInv(trace, events, items, fn, limit, t);
    hide IsRun;
  }

  /** When every worker has returned, the results are `fn` of the items, position by position, exactly
      if the limit is positive or there is nothing to do; without workers nothing is called at all. */
  lemma ResultsArePointwise<T, R>(
    trace: seq<State<R>>, events: seq<Event>, items: seq<T>, fn: T -> R, limit: int, t: nat)
    requires IsRun(trace, events, items, fn, limit) && t < |trace|
    requires forall w | 0 <= w < |trace[t].workers| :: trace[t].workers[w] == Returned
    ensures |trace[t].results| == |items|
    ensures limit > 0 || |items| == 0
      <==> forall i | 0 <= i < |items| :: trace[t].results[i] == Some(fn(items[i]))
    ensures limit <= 0 ==> trace[t].calls == []
  {
    RunInv(trace, events, items, fn, limit, t);
    hide IsRun;
    var s := trace[t];
    if limit > 0 && |items| > 0 {
      assert s.workers[0] == Returned;
      forall i | 0 <= i < |items| ensures s.results[i] == Some(fn(items[i])) { assert IndexOk(s, items, fn, i); }
    } else if |items| > 0 {
      assert IndexOk(s, items, fn, 0);
    }
  }

  // ----- Every map comes to its end -----

  /** The turns that a worker has left for what it is doing. */
  function TurnsOf(w: Worker): nat {
    match w
    case AtHead => 1
    case Awaiting(index) => 2
    case _ => 0
  }

  function TurnsOfAll(workers: seq<Worker>): nat {
    if workers == [] then 0 else TurnsOf(workers[0]) + TurnsOfAll(workers[1..])
  }

  /** The turns that are left: two for every index that nobody has taken. */
  function TurnsLeft<R>(s: State<R>): nat {
    TurnsOfAll(s.workers) + if s.next < |s.results| then 2 * (|s.results| - s.next) else 0
  }

  lemma {:induction false} OneWorkerMoves(workers: seq<Worker>, w: nat, z: Worker)
    requires w < |workers|
    ensures TurnsOfAll(workers[w := z]) == TurnsOfAll(workers) - TurnsOf(workers[w]) + TurnsOf(z)
  {
    if w > 0 {
      assert workers[w := z][1..] == workers[1..][w - 1 := z];
      OneWorkerMoves(workers[1..], w - 1, z);
    }
  }

  lemma StepTakesATurn<T, R>(s: State<R>, e: Event, items: seq<T>, fn: T -> R)
    requires |s.results| == |items| && Enabled(s, e)
    requires s.workers[e.w].Awaiting? ==> s.workers[e.w].index < |items|
    ensures TurnsLeft(Step(s, e, items, fn)) < TurnsLeft(s)
  {
    OneWorkerMoves(s.workers, e.w, Step(s, e, items, fn).workers[e.w]);
    hide TurnsOfAll;
  }

  lemma {:induction false} TurnsAtStart(workers: seq<Worker>)
    requires forall w | 0 <= w < |workers| :: workers[w] == AtHead
    ensures TurnsOfAll(workers) == |workers|
  {
    if workers != [] { TurnsAtStart(workers[1..]); }
  }

  /** No run is longer than two turns per item and one per worker. */
  lemma {:induction false} RunsAreShort<T, R>(
    trace: seq<State<R>>, events: seq<Event>, items: seq<T>, fn: T -> R, limit: int, t: nat)
    requires IsRun(trace, events, items, fn, limit) && t < |trace|
    ensures t + TurnsLeft(trace[t]) <= 2 * |items| + WorkerCount(limit, |items|)
  {
    if t == 0 {
      TurnsAtStart(trace[0].workers);
    } else {
      RunsAreShort(trace, events, items, fn, limit, t - 1);
      RunInv(trace, events, items, fn, limit, t - 1);
      assert Turn(trace[t - 1], events[t - 1], trace[t], items, fn);
      StepTakesATurn(trace[t - 1], events[t - 1], items, fn);
      hide *;
    }
  }

  lemma {:induction false} NoneBroken<T, R>(
    trace: seq<State<R>>, events: seq<Event>, items: seq<T>, fn: T -> R, limit: int, t: nat)
    requires IsRun(trace, events, items, fn, limit) && t < |trace| && forall i | 0 <= i < t :: !events[i].Rejected?
    ensures forall w | 0 <= w < |trace[t].workers| :: !trace[t].workers[w].Broken?
  {
    if t > 0 {
      NoneBroken(trace, events, items, fn, limit, t - 1);
      assert Turn(trace[t - 1], events[t - 1], trace[t], items, fn);
    }
  }

  /** A map whose calls all resolve comes to an end, and its end has every result: a run in which no call
      rejects stops after at most two turns per item and one per worker, and where nothing is left to
      happen the results are `fn` of the items exactly if the limit is positive or there are none. */
  lemma MapCompletes<T, R>(trace: seq<State<R>>, events: seq<Event>, items: seq<T>, fn: T -> R, limit: int)
    requires IsRun(trace, events, items, fn, limit) && forall i | 0 <= i < |events| :: !events[i].Rejected?
    ensures |events| <= 2 * |items| + WorkerCount(limit, |items|)
    ensures var s := trace[|events|];
      (forall e: Event :: !Enabled(s, e)) ==>
        && |s.results| == |items|
        && (limit > 0 || |items| == 0 <==> forall i | 0 <= i < |items| :: s.results[i] == Some(fn(items[i])))
  {
    var s := trace[|events|];
    RunsAreShort(trace, events, items, fn, limit, |events|);
    NoneBroken(trace, events, items, fn, limit, |events|);
    if forall e: Event :: !Enabled(s, e) {
      NoWorkerIsStuck(s);
      ResultsArePointwise(trace, events, items, fn, limit, |events|);
    }
  }

  /** Where nothing is left to happen, every worker has returned or broken down. */
  lemma NoWorkerIsStuck<R>(s: State<R>)
    requires forall e: Event :: !Enabled(s, e)
    ensures forall w | 0 <= w < |s.workers| :: s.workers[w].Returned? || s.workers[w].Broken?
  {
    forall w | 0 <= w < |s.workers| ensures s.workers[w].Returned? || s.workers[w].Broken? {
      assert !Enabled(s, Took(w)) && !Enabled(s, Resolved(w));
    }
  }

  // ----- The shared variables -----

  class Mapping<T, R> {
    const items: seq<T>
    const limit: int
    ghost const fn: T -> R
    var results: seq<Option<R>>
    var next: nat
    /** Where the workers stand. */
    var workers: seq<Worker>
    ghost var calls: seq<nat>

    ghost function View(): State<R>
      reads this
    {
      State(next, workers, results, calls)
    }

    ghost predicate Valid()
      reads this
    {
      Inv(View(), items, fn, limit)
    }

    constructor (items: seq<T>, limit: int, ghost fn: T -> R)
      ensures this.items == items && this.limit == limit && this.fn == fn
      ensures Valid() && View() == Start(limit, |items|)
    {
      this.items, this.limit, this.fn := items, limit, fn;
      results, next, calls := seq(|items|, _ => None), 0, [];
      workers := seq(WorkerCount(limit, |items|), _ => AtHead);
      new;
      StartInv(items, fn, limit);
    }

    /** The head of the loop of worker `w`; the index to call for, if there is one left. */
    method TakeNext(w: nat) returns (i: nat, more: bool)
      requires Valid() && Enabled(View(), Took(w))
      modifies this
      ensures Valid() && View() == Step(old(View()), Took(w), items, fn)
      ensures i == old(next) && more == (i < |items|)
    {
      StepInv(View(), Took(w), items, fn, limit);
      hide Inv;
      i := next;
      next := next + 1;
      more := i < |items|;
      if !more {
        workers := workers[w := Returned];
      } else {
        workers := workers[w := Awaiting(i)];
        calls := calls + [i];
      }
    }

    method Store(w: nat, value: R)
      requires Valid() && Enabled(View(), Resolved(w)) && workers[w].index < |items|
        && value == fn(items[workers[w].index])
      modifies this
      ensures Valid() && View() == Step(old(View()), Resolved(w), items, fn)
    {
      StepInv(View(), Resolved(w), items, fn, limit);
      hide Inv;
      results := results[workers[w].index := Some(value)];
      workers := workers[w := AtHead];
    }
  }
}
