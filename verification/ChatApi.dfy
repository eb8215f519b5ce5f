/** The chat endpoint as its module keeps it: the ledger map, entry objects that are changed in
    place, and suspended calls of `dispatchSend`. Each step is proved against `SendLedger`. */
module ChatApi {
  import opened Wrappers
  import opened SendLedger
  import opened SendLedgerSafety

  class Endpoint {
    /** The ledger map: its keys in insertion order, and the entry object of each. */
    var order: seq<Key>
    var slots: map<Key, Token>
    /** The entry objects, by token. */
    var entries: map<Token, Entry>
    /** Calls of `dispatchSend`, each at the await where it stands. */
    var dispatches: map<Token, Dispatch>
    var waiting: map<Token, Token>
    var answers: map<Token, Answer>
    var nextToken: Token
    var nextRow: Row
    /** What `Date.now()` answers. */
    var clock: int

    ghost var inserts: map<Key, nat>
    ghost var accepts: map<Key, nat>

    ghost function View(): State
      reads this
    {
      State(clock, order, slots, entries, dispatches, waiting, answers, inserts, accepts, nextToken, nextRow)
    }

    ghost predicate Valid()
      reads this
    {
      Inv(View())
    }

    constructor (now: int)
      ensures Valid() && View() == Init(now)
    {
      order, slots, entries, dispatches, waiting, answers := [], map[], map[], map[], map[], map[];
      nextToken, nextRow, clock, inserts, accepts := 0, 0, now, map[], map[];
      new;
      InitInv(now);
    }

    // ----- The ledger -----

    /** The loop state of a sweep: what is left is a part of the ledger `s`. */
    ghost predicate PartOf(s: State)
      reads this
    {
      && View() == s.(order := order, slots := slots)
      && NoDuplicates(order) && slots.Keys == KeysOf(order) <= s.slots.Keys
      && forall k | k in slots :: slots[k] == s.slots[k] && slots[k] in s.entries
    }

    method DropAt(i: nat, ghost s: State)
      requires i < |order| && PartOf(s)
      modifies this`order, this`slots
      ensures PartOf(s) && order == old(order[..i] + order[i + 1..])
    {
      var k := order[i];
      ghost var before := order;
      order := order[..i] + order[i + 1..];
      slots := slots - {k};
      assert KeysOf(order) == KeysOf(before) - {k} by {
        assert forall q :: q in before <==> q in before[..i] || q == k || q in before[i + 1..];
        assert forall q :: q in order <==> q in before[..i] || q in before[i + 1..];
      }
    }

    method EntryAt(i: nat, ghost s: State) returns (e: Entry)
      requires i < |order| && PartOf(s)
      ensures e.state == StateOf(s, order[i])
      ensures Expired(s, order[i]) <==> e.state != Pending && e.expiresAt <= s.now
    {
      assert order[i] in KeysOf(order);
      e := entries[slots[order[i]]];
    }

    method DropExpired(now: int, ghost s: State)
      requires now == clock == s.now && PartOf(s) && order == s.order
      modifies this`order, this`slots
      ensures PartOf(s) && order == Unexpired(s, s.order)
    {
      var i: nat := 0;
      LoopsStart(s, order, 0);
      hide Unexpired, ExpiringFrom, PartOf, Expired;
      while i < |order|
        invariant i <= |order| && PartOf(s)
        invariant ExpiringFrom(s, order, i) == Unexpired(s, s.order)
        decreases |order| - i
      {
        var e := EntryAt(i, s);
        UnexpiredTurn(s, order, i);
        if e.state != Pending && e.expiresAt <= now {
          DropAt(i, s);
        } else {
          i := i + 1;
        }
      }
      LoopsEnd(s, order, i, 0);
    }

    method TrimToSize(ghost s: State)
      requires PartOf(s) && |order| > DEDUPE_MAX
      modifies this`order, this`slots
      ensures PartOf(s) && order == Trimmed(s, old(order), |old(order)| - DEDUPE_MAX)
    {
      var i: nat := 0;
      ghost var excess: nat := |order| - DEDUPE_MAX;
      ghost var goal := Trimmed(s, order, excess);
      LoopsStart(s, order, excess);
      hide Trimmed, TrimmingFrom, PartOf, StateOf;
      while i < |order| && |order| > DEDUPE_MAX
        invariant i <= |order| && |order| == DEDUPE_MAX + excess && PartOf(s)
        invariant TrimmingFrom(s, order, i, excess) == goal
        decreases |order| - i
      {
        var e := EntryAt(i, s);
        TrimmedTurn(s, order, i, excess);
        if e.state != Pending {
          DropAt(i, s);
          excess := excess - 1;
        } else {
          i := i + 1;
        }
      }
      LoopsEnd(s, order, i, excess);
    }

    method LedgerSweep(now: int)
      requires now == clock && OrderOk(View()) && forall k | k in slots :: slots[k] in entries
      modifies this`order, this`slots, this`inserts, this`accepts
      ensures View() == Sweep(old(View()))
    {
      ghost var s := View();
      hide Unexpired, Trimmed, StateOf, Expired, NoDuplicates;
      DropExpired(now, s);
      ghost var u := order;
      if |order| > DEDUPE_MAX { TrimToSize(s); }
      SweptIs(s, u, order);
      ghost var gone := s.slots.Keys - KeysOf(order);
      inserts, accepts := inserts - gone, accepts - gone;
      SweepIs(s, View());
      hide Swept, Sweep;
    }

    /** `sendLedger.set(k, entry)` with the new entry and its dispatch. */
    method StartDispatchSend(k: Key, reuse: Option<Row>)
      modifies this
      ensures View() == StartDispatch(old(View()), k, reuse)
    {
      var t := nextToken;
      nextToken := t + 1;
      entries := entries[t := Entry(Pending, reuse, clock + DEDUPE_TTL_MS)];
      dispatches := dispatches[t := Dispatch(k, reuse, Gating)];
      if k !in slots { order := order + [k]; }
      slots := slots[k := t];
    }

    /** The atomic section of the handler, behind its sweep. */
    method Reserve(k: Key)
      modifies this
      requires k in slots ==> slots[k] in entries
      ensures View() == Reserved(old(View()), k)
    {
      var reuse: Option<Row> := None;
      if k in slots {
        var existing := entries[slots[k]];
        if existing.state == Pending {
          waiting := waiting[nextToken := slots[k]];
          nextToken := nextToken + 1;
          return;
        }
        if existing.state == Delivered {
          answers := answers[nextToken := Answer(Accepted(existing.message), true)];
          nextToken := nextToken + 1;
          return;
        }
        reuse := existing.message;
      }
      StartDispatchSend(k, reuse);
    }

    method PostMessage(k: Key)
      requires Valid()
      modifies this
      ensures Valid() && View() == Step(old(View()), Posted(k))
    {
      ghost var s := View();
      StepInv(s, Posted(k));
      SweepInv(s);
      SlotsHaveEntries(s);
      SlotsHaveEntries(Sweep(s));
      hide Sweep, Inv, OrderOk, Reserved;
      LedgerSweep(clock);
      Reserve(k);
    }

    // ----- dispatchSend, from await to await -----

    method SettleDispatch(t: Token, r: Result)
      requires t in dispatches
      modifies this`dispatches
      ensures View() == SettleWith(old(View()), t, r)
    {
      dispatches := dispatches[t := dispatches[t].(phase := Settled(r))];
    }

    method SendToRunner(t: Token, row: Row, sending: Sending)
      requires t in dispatches
      modifies this
      ensures View() == TrySend(old(View()), t, row, sending)
    {
      match sending {
        case Offline => SettleDispatch(t, Refused(409, Some(row)));
        case Broken => SettleDispatch(t, Threw);
        case Dropped => SettleDispatch(t, Refused(409, Some(row)));
        case Sent =>
          var d := dispatches[t];
          accepts := accepts[d.key := Count(accepts, d.key) + 1];
          dispatches := dispatches[t := d.(phase := Updating(row))];
      }
    }

    /** A gate refuses, throws, or the session has no live runner before anything is persisted. */
    method RefuseBeforePersisting(t: Token, e: Event)
      requires Valid() && Enabled(View(), e)
      requires e == FoundOffline(t) || e == GateThrew(t) || (e.GateSaidNo? && e.t == t)
      modifies this
      ensures Valid() && View() == Step(old(View()), e)
    {
      StepInv(View(), e);
      hide Inv;
      match e {
        case GateSaidNo(_, status) => SettleDispatch(t, Refused(status, None));
        case GateThrew(_) => SettleDispatch(t, Threw);
        case FoundOffline(_) => SettleDispatch(t, Refused(409, dispatches[t].reuse));
      }
    }

    method PassGates(t: Token, sending: Sending)
      requires Valid() && Enabled(View(), GatesOpen(t, sending))
      modifies this
      ensures Valid() && View() == Step(old(View()), GatesOpen(t, sending))
    {
      StepInv(View(), GatesOpen(t, sending));
      hide Inv;
      var d := dispatches[t];
      if d.reuse.None? {
        dispatches := dispatches[t := d.(phase := Inserting)];
      } else {
        SendToRunner(t, d.reuse.value, sending);
      }
    }

    method NotePersisted(t: Token) returns (message: Row)
      requires t in dispatches && t in entries
      modifies this
      ensures message == old(nextRow) && View() == Noted(old(View()), t)
    {
      message := nextRow;
      nextRow := nextRow + 1;
      inserts := inserts[dispatches[t].key := Count(inserts, dispatches[t].key) + 1];
      entries := entries[t := entries[t].(message := Some(message))];
    }

    /** `insertMessage` returns: the row is noted in the entry object, then sent. */
    method PersistAndSend(t: Token, sending: Sending)
      requires Valid() && Enabled(View(), RowInserted(t, sending))
      modifies this
      ensures Valid() && View() == Step(old(View()), RowInserted(t, sending))
    {
      StepInv(View(), RowInserted(t, sending));
      hide Inv, TrySend;
      var message := NotePersisted(t);
      SendToRunner(t, message, sending);
    }

    /** `insertMessage` throws, or the status update is done or has failed. */
    method LeaveDispatch(t: Token, e: Event)
      requires Valid() && Enabled(View(), e) && (e == InsertThrew(t) || e == StatusUpdated(t))
      modifies this
      ensures Valid() && View() == Step(old(View()), e)
    {
      StepInv(View(), e);
      hide Inv;
      if e.InsertThrew? {
        SettleDispatch(t, Threw);
      } else {
        SettleDispatch(t, Accepted(Some(dispatches[t].phase.row)));
      }
    }

    // ----- The handler behind its await -----

    method SettleEntry(t: Token)
      requires t in dispatches && t in entries && dispatches[t].phase.Settled?
      modifies this
      ensures View() == Finish(old(View()), t, old(dispatches[t].phase.result))
    {
      var d := dispatches[t];
      var r, lk := d.phase.result, d.key;
      dispatches := dispatches[t := d.(phase := Finished(r))];
      answers := answers[t := Answer(r, false)];
      if lk in slots && slots[lk] == t {
        var entry := entries[t];
        if !r.Threw? { entry := entry.(expiresAt := clock + DEDUPE_TTL_MS); }
        if r.Accepted? {
          entry := entry.(state := Delivered);
        } else if entry.message.Some? {
          entry := entry.(state := Failed);
        } else {
          order := Without(order, lk);
          slots := slots - {lk};
        }
        entries := entries[t := entry];
      }
    }

    method FinishHandler(t: Token)
      requires Valid() && Enabled(View(), HandlerFinished(t))
      modifies this
      ensures Valid() && View() == Step(old(View()), HandlerFinished(t))
    {
      StepInv(View(), HandlerFinished(t));
      hide Inv, Finish;
      SettleEntry(t);
    }

    method AnswerWaiter(w: Token)
      requires Valid() && Enabled(View(), WaiterAnswered(w))
      modifies this
      ensures Valid() && View() == Step(old(View()), WaiterAnswered(w))
    {
      StepInv(View(), WaiterAnswered(w));
      hide Inv;
      var r := dispatches[waiting[w]].phase.result;
      answers := answers[w := Answer(r, r.Accepted?)];
    }

    method Elapse(elapsed: nat)
      requires Valid()
      modifies this
      ensures Valid() && View() == Step(old(View()), Tick(elapsed))
    {
      StepInv(View(), Tick(elapsed));
      hide Inv;
      clock := clock + elapsed;
    }
  }

  lemma SlotsHaveEntries(s: State)
    requires Inv(s)
    ensures OrderOk(s) && forall k | k in s.slots :: s.slots[k] in s.entries
  {
    forall k | k in s.slots ensures s.slots[k] in s.entries { SlotHasEntry(s, k); }
  }

  lemma SweptIs(s: State, u: seq<Key>, r: seq<Key>)
    requires u == Unexpired(s, s.order)
    requires r == if |u| > DEDUPE_MAX then Trimmed(s, u, |u| - DEDUPE_MAX) else u
    ensures r == Swept(s)
  {
    TrimNothing(s, u);
  }

  lemma SweepIs(s: State, z: State)
    requires z.order == Swept(s) && z.slots.Keys == KeysOf(z.order) <= s.slots.Keys
    requires forall k | k in z.slots :: z.slots[k] == s.slots[k]
    requires var gone := s.slots.Keys - KeysOf(z.order);
      z == s.(order := z.order, slots := z.slots, inserts := s.inserts - gone, accepts := s.accepts - gone)
    ensures z == Sweep(s)
  {
    hide Swept;
    PartIs(s.slots, z.slots, KeysOf(z.order));
  }

  lemma PartIs(all: map<Key, Token>, part: map<Key, Token>, keep: set<Key>)
    requires part.Keys == keep <= all.Keys && forall k | k in part :: part[k] == all[k]
    ensures part == all - (all.Keys - keep)
  {
  }

  /** What the first loop makes of `order` when it stands at `i`; likewise the second. */
  function ExpiringFrom(s: State, order: seq<Key>, i: nat): seq<Key>
    requires i <= |order|
  {
    order[..i] + Unexpired(s, order[i..])
  }

  function TrimmingFrom(s: State, order: seq<Key>, i: nat, excess: nat): seq<Key>
    requires i <= |order|
  {
    order[..i] + Trimmed(s, order[i..], excess)
  }

  lemma UnexpiredTurn(s: State, order: seq<Key>, i: nat)
    requires i < |order|
    ensures ExpiringFrom(s, order, i)
      == if Expired(s, order[i]) then ExpiringFrom(s, order[..i] + order[i + 1..], i) else ExpiringFrom(s, order, i + 1)
  {
    var dropped := order[..i] + order[i + 1..];
    assert dropped[..i] == order[..i] && dropped[i..] == order[i + 1..];
    assert order[i..][1..] == order[i + 1..];
    assert order[..i + 1] == order[..i] + [order[i]];
  }

  lemma TrimmedTurn(s: State, order: seq<Key>, i: nat, excess: nat)
    requires i < |order| && excess > 0
    ensures TrimmingFrom(s, order, i, excess)
      == if StateOf(s, order[i]) == Pending then TrimmingFrom(s, order, i + 1, excess)
      else TrimmingFrom(s, order[..i] + order[i + 1..], i, excess - 1)
  {
    var dropped := order[..i] + order[i + 1..];
    assert dropped[..i] == order[..i] && dropped[i..] == order[i + 1..];
    assert order[i..][1..] == order[i + 1..];
    assert order[..i + 1] == order[..i] + [order[i]];
  }

  lemma LoopsStart(s: State, order: seq<Key>, excess: nat)
    ensures ExpiringFrom(s, order, 0) == Unexpired(s, order)
      && TrimmingFrom(s, order, 0, excess) == Trimmed(s, order, excess)
  {
    assert order[0..] == order;
  }

  lemma LoopsEnd(s: State, order: seq<Key>, i: nat, excess: nat)
    requires i <= |order|
    ensures i == |order| ==> ExpiringFrom(s, order, i) == order
    ensures i == |order| || excess == 0 ==> TrimmingFrom(s, order, i, excess) == order
  {
    assert order[..i] + order[i..] == order;
  }
}
