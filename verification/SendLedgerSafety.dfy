/** What holds in every state of the send ledger, whatever the interleaving. */
module SendLedgerSafety {
  import opened Wrappers
  import opened SendLedger

  // ----- The invariant -----

  predicate NoDuplicates(order: seq<Key>) {
    forall i, j | 0 <= i < j < |order| :: order[i] != order[j]
  }

  predicate OrderOk(s: State) {
    NoDuplicates(s.order) && KeysOf(s.order) == s.slots.Keys
  }

  predicate Taken(d: Dispatch) {
    d.phase.Updating? || (Over(d) && d.phase.result.Accepted?)
  }

  /** An entry of the ledger, the dispatch that owns it, and the counts of its key. */
  predicate SlotOk(e: Entry, d: Dispatch, inserts: nat, accepts: nat) {
    && (e.state == Pending <==> !d.phase.Finished?)
    && inserts == (if e.message.Some? then 1 else 0)
    && accepts == (if Taken(d) then 1 else 0)
    && (match d.phase
        case Gating => e.message == d.reuse
        case Inserting => e.message == None && d.reuse == None
        case Updating(row) => e.message == Some(row)
        case Settled(r) => r.Accepted? ==> r.row == e.message && e.message.Some?
        case Finished(r) =>
          && e.message.Some? && (e.state == Delivered <==> r.Accepted?) && (r.Accepted? ==> r.row == e.message))
  }

  predicate KeyOk(s: State, k: Key) {
    if k !in s.slots then Count(s.inserts, k) == 0 && Count(s.accepts, k) == 0
    else
      var t := s.slots[k];
      && t in s.dispatches && t in s.entries && s.dispatches[t].key == k
      && SlotOk(s.entries[t], s.dispatches[t], Count(s.inserts, k), Count(s.accepts, k))
  }

  ghost predicate KeysOk(s: State) {
    forall k: Key :: KeyOk(s, k)
  }

  /** A dispatch that has not finished still owns the entry of its key. */
  predicate Owner(s: State, t: Token)
    requires t in s.dispatches
  {
    !s.dispatches[t].phase.Finished? ==> s.dispatches[t].key in s.slots && s.slots[s.dispatches[t].key] == t
  }

  predicate TokensOk(s: State) {
    forall t | t in s.dispatches :: t < s.nextToken && t in s.entries && Owner(s, t)
  }

  predicate AnswersOk(s: State) {
    && (forall t | t in s.dispatches :: OwnAnswer(s, t))
    && (forall w | w in s.waiting :: WaiterOk(s, w))
    && (forall w | w in s.answers :: w < s.nextToken)
  }

  /** The handler of dispatch `t` answers when it finishes, with the result of the dispatch. */
  predicate OwnAnswer(s: State, t: Token)
    requires t in s.dispatches
  {
    && t !in s.waiting
    && (if s.dispatches[t].phase.Finished?
        then t in s.answers && s.answers[t] == Answer(s.dispatches[t].phase.result, false)
        else t !in s.answers)
  }

  predicate WaiterOk(s: State, w: Token)
    requires w in s.waiting
  {
    w < s.nextToken && s.waiting[w] in s.dispatches && (w in s.answers ==> Echoes(s, w))
  }

  /** Waiter `w` was told what the dispatch it waited for came to. */
  predicate Echoes(s: State, w: Token) {
    && w in s.waiting && w in s.answers && s.waiting[w] in s.dispatches
    && var d := s.dispatches[s.waiting[w]];
    Over(d) && s.answers[w] == Answer(d.phase.result, d.phase.result.Accepted?)
  }

  ghost predicate Inv(s: State) {
    OrderOk(s) && KeysOk(s) && TokensOk(s) && AnswersOk(s)
  }

  lemma InitInv(now: int)
    ensures Inv(Init(now))
  {
  }

  // ----- The sweep -----

  lemma {:induction false} UnexpiredOk(s: State, order: seq<Key>)
    ensures var u := Unexpired(s, order);
      && |u| <= |order| && (NoDuplicates(order) ==> NoDuplicates(u))
      && (forall k :: k in u <==> k in order && !Expired(s, k))
  {
    if order != [] {
      UnexpiredOk(s, order[1..]);
      assert NoDuplicates(order) ==> NoDuplicates(order[1..]) && order[0] !in order[1..];
    }
  }

  lemma {:induction false} TrimmedOk(s: State, order: seq<Key>, excess: nat)
    ensures var r := Trimmed(s, order, excess);
      && |r| <= |order| && (NoDuplicates(order) ==> NoDuplicates(r))
      && (forall k | k in r :: k in order)
      && (forall k | k in order && StateOf(s, k) == Pending :: k in r)
      && (|r| + excess <= |order| || forall k | k in r :: StateOf(s, k) == Pending)
      && |r| + excess >= |order|
  {
    if order != [] && excess > 0 {
      TrimmedOk(s, order[1..], if StateOf(s, order[0]) == Pending then excess else excess - 1);
      assert NoDuplicates(order) ==> NoDuplicates(order[1..]) && order[0] !in order[1..];
    }
  }

  /** In `order`, a key that trimming removes has no unpending key before it that stays. */
  lemma {:induction false} TrimmedIsOldestFirst(s: State, order: seq<Key>, excess: nat, i: nat, j: nat)
    requires i < j < |order| && NoDuplicates(order)
    requires StateOf(s, order[i]) != Pending && order[j] !in Trimmed(s, order, excess)
    ensures order[i] !in Trimmed(s, order, excess)
  {
    var rest := order[1..];
    var less := if StateOf(s, order[0]) == Pending then excess else excess - 1;
    assert excess > 0;
    TrimmedOk(s, rest, less);
    assert order[j] == rest[j - 1];
    if i == 0 {
      assert order[0] !in rest;
    } else {
      assert order[i] == rest[i - 1] && order[i] != order[0];
      TrimmedIsOldestFirst(s, rest, less, i - 1, j - 1);
    }
  }

  /** The entries before `k` that the second loop may remove. */
  function OlderDone(s: State, order: seq<Key>, k: Key): nat {
    if order == [] || order[0] == k then 0
    else (if StateOf(s, order[0]) == Pending then 0 else 1) + OlderDone(s, order[1..], k)
  }

  /** Trimming keeps an entry exactly if enough older ones can go instead. */
  lemma {:induction false} TrimmedKeepsIff(s: State, order: seq<Key>, excess: nat, k: Key)
    requires NoDuplicates(order) && k in order && StateOf(s, k) != Pending
    ensures k in Trimmed(s, order, excess) <==> OlderDone(s, order, k) >= excess
  {
    var rest := order[1..];
    assert order == [order[0]] + rest && order[0] !in rest;
    if order[0] == k {
      TrimmedOk(s, rest, if excess > 0 then excess - 1 else 0);
    } else if excess > 0 {
      TrimmedKeepsIff(s, rest, if StateOf(s, order[0]) == Pending then excess else excess - 1, k);
    }
  }

  lemma SweptOk(s: State)
    ensures var r := Swept(s);
      && (NoDuplicates(s.order) ==> NoDuplicates(r))
      && (forall k | k in r :: k in s.order && !Expired(s, k))
      && (forall k | k in s.order && StateOf(s, k) == Pending :: k in r)
      && (|r| <= DEDUPE_MAX || forall k | k in r :: StateOf(s, k) == Pending)
      && (forall k | k in s.order && k !in r :: Expired(s, k) || |Unexpired(s, s.order)| > DEDUPE_MAX)
  {
    var u := Unexpired(s, s.order);
    UnexpiredOk(s, s.order);
    TrimmedOk(s, u, Excess(u));
    TrimNothing(s, u);
    hide Unexpired, Trimmed;
  }

  /** After a sweep no expired entry is left, pending ones are all there, the size is at most 5000 or
      only pending entries remain, and nothing else went unless the ledger was too large. */
  lemma SweepIsSound(s: State)
    requires OrderOk(s)
    ensures var z := Sweep(s);
      && OrderOk(z) && z.order == Swept(s) && z.slots.Keys <= s.slots.Keys
      && (forall k | k in z.slots :: z.slots[k] == s.slots[k] && !Expired(z, k))
      && (forall k | k in s.slots && StateOf(s, k) == Pending :: k in z.slots)
      && (|z.slots| <= 5000 || forall k | k in z.slots :: StateOf(z, k) == Pending)
      && (forall k | k in s.slots && k !in z.slots :: Expired(s, k) || |Unexpired(s, s.order)| > 5000)
  {
    SweptOk(s);
    SweepKeys(s);
    hide Swept, NoDuplicates;
    var z := Sweep(s);
    forall k | k in z.slots ensures z.slots[k] == s.slots[k] && !Expired(z, k) && StateOf(z, k) == StateOf(s, k) {
      assert !Expired(s, k);
    }
  }

  lemma SweepKeys(s: State)
    requires OrderOk(s)
    ensures var z := Sweep(s);
      && OrderOk(z) && |z.slots| == |z.order|
      && (forall k :: k in z.slots <==> k in Swept(s))
      && (forall k :: k in s.slots <==> k in s.order)
  {
    SweptOk(s);
    hide Swept, Expired, StateOf;
    var kept := KeysOf(Swept(s));
    assert kept <= s.slots.Keys;
    KeepOnly(s.slots, kept);
    SizeOfOrder(Swept(s));
    hide NoDuplicates;
  }

  lemma KeepOnly(m: map<Key, Token>, keep: set<Key>)
    requires keep <= m.Keys
    ensures (m - (m.Keys - keep)).Keys == keep && |m - (m.Keys - keep)| == |keep|
  {
    var r := m - (m.Keys - keep);
    assert r.Keys == keep;
    assert |r| == |r.Keys|;
  }

  lemma {:induction false} SizeOfOrder(order: seq<Key>)
    requires NoDuplicates(order)
    ensures |KeysOf(order)| == |order|
  {
    if order != [] {
      var rest := order[1..];
      SizeOfOrder(rest);
      assert KeysOf(order) == KeysOf(rest) + {order[0]};
    }
  }

  lemma TrimNothing(s: State, order: seq<Key>)
    ensures Trimmed(s, order, 0) == order
  {
  }

  lemma {:induction false} UnexpiredAll(s: State, order: seq<Key>)
    requires forall k | k in order :: !Expired(s, k)
    ensures Unexpired(s, order) == order
  {
    if order != [] { UnexpiredAll(s, order[1..]); }
  }

  lemma EvictNothing(s: State)
    ensures Evict(s, s.order, {}) == s
  {
    assert s.slots - {} == s.slots && s.inserts - {} == s.inserts && s.accepts - {} == s.accepts;
  }

  /** A ledger of at most 5000 entries, none of them expired, is left as it is. */
  lemma SweepNothing(s: State)
    requires OrderOk(s) && |s.order| <= DEDUPE_MAX && forall k | k in s.order :: !Expired(s, k)
    ensures Sweep(s) == s
  {
    UnexpiredAll(s, s.order);
    TrimNothing(s, s.order);
    EvictNothing(s);
    hide NoDuplicates, Expired, Evict, Trimmed, Unexpired;
    assert s.slots.Keys - KeysOf(s.order) == {};
  }

  /** Evicting entries that are not pending. */
  lemma EvictInv(s: State, order: seq<Key>, gone: set<Key>)
    requires Inv(s) && forall k | k in gone && k in s.slots :: StateOf(s, k) != Pending
    requires OrderOk(Evict(s, order, gone))
    ensures Inv(Evict(s, order, gone))
  {
    var z := Evict(s, order, gone);
    hide OrderOk;
    forall k: Key ensures KeyOk(z, k) { assert KeyOk(s, k); }
    forall t | t in z.dispatches ensures Owner(z, t) {
      assert Owner(s, t);
      assert KeyOk(s, s.dispatches[t].key);
    }
    forall u | u in z.dispatches ensures OwnAnswer(z, u) { assert OwnAnswer(s, u); }
    forall w | w in z.waiting ensures WaiterOk(z, w) { assert WaiterOk(s, w); }
  }

  lemma SweepInv(s: State)
    requires Inv(s)
    ensures Inv(Sweep(s))
  {
    SweepIsSound(s);
    hide OrderOk, KeysOk, TokensOk, AnswersOk, Swept;
    EvictInv(s, Sweep(s).order, s.slots.Keys - KeysOf(Swept(s)));
  }

  // ----- A dispatch goes on -----

  /** From `s` to `z` only the running dispatch `t` moves on, with its entry and its key's counts. */
  ghost predicate OnlyDispatch(s: State, z: State, t: Token) {
    && t in s.dispatches && t in z.dispatches && t in s.entries && t in z.entries
    && !Over(s.dispatches[t]) && !z.dispatches[t].phase.Finished?
    && z.dispatches[t].key == s.dispatches[t].key
    && z.dispatches - {t} == s.dispatches - {t} && z.entries - {t} == s.entries - {t}
    && z.inserts - {s.dispatches[t].key} == s.inserts - {s.dispatches[t].key}
    && z.accepts - {s.dispatches[t].key} == s.accepts - {s.dispatches[t].key}
    && z.order == s.order && z.slots == s.slots && z.waiting == s.waiting && z.answers == s.answers
    && z.nextToken == s.nextToken
  }

  lemma OtherKeys(s: State, z: State, t: Token, k: Key)
    requires OnlyDispatch(s, z, t) && KeyOk(s, k) && k != s.dispatches[t].key
    ensures KeyOk(z, k)
  {
    if k in s.slots {
      var u := s.slots[k];
      assert u != t;
      assert u in z.dispatches - {t} && z.dispatches[u] == (z.dispatches - {t})[u] == (s.dispatches - {t})[u];
      assert u in z.entries - {t} && z.entries[u] == (z.entries - {t})[u] == (s.entries - {t})[u];
    }
    SameCount(s.inserts, z.inserts, s.dispatches[t].key, k);
    SameCount(s.accepts, z.accepts, s.dispatches[t].key, k);
  }

  lemma SameCount(m: map<Key, nat>, n: map<Key, nat>, but: Key, k: Key)
    requires n - {but} == m - {but} && k != but
    ensures Count(n, k) == Count(m, k)
  {
    assert k in m <==> k in m - {but};
    assert k in n <==> k in n - {but};
    if k in m { assert m[k] == (m - {but})[k] == (n - {but})[k]; }
  }

  lemma SameOthers<V>(m: map<Token, V>, n: map<Token, V>, t: Token)
    requires n - {t} == m - {t}
    ensures forall u | u != t :: (u in n <==> u in m) && (u in m ==> n[u] == m[u])
  {
    forall u | u != t ensures (u in n <==> u in m) && (u in m ==> n[u] == m[u]) {
      assert u in m <==> u in m - {t};
      assert u in n <==> u in n - {t};
      if u in m { assert m[u] == (m - {t})[u] == (n - {t})[u]; }
    }
  }

  lemma DispatchTokens(s: State, z: State, t: Token)
    requires TokensOk(s) && AnswersOk(s) && OnlyDispatch(s, z, t)
    ensures TokensOk(z) && AnswersOk(z)
  {
    SameOthers(s.dispatches, z.dispatches, t);
    SameOthers(s.entries, z.entries, t);
    assert TokensOk(z) by {
      forall u | u in z.dispatches ensures Owner(z, u) { assert Owner(s, u); }
    }
    forall u | u in z.dispatches ensures OwnAnswer(z, u) { assert u in s.dispatches ==> OwnAnswer(s, u); }
    forall w | w in z.waiting ensures WaiterOk(z, w) { assert WaiterOk(s, w); }
  }

  lemma DispatchInv(s: State, z: State, t: Token)
    requires Inv(s) && OnlyDispatch(s, z, t)
    requires var k := s.dispatches[t].key;
      SlotOk(s.entries[t], s.dispatches[t], Count(s.inserts, k), Count(s.accepts, k)) ==>
        SlotOk(z.entries[t], z.dispatches[t], Count(z.inserts, k), Count(z.accepts, k))
    ensures Inv(z)
  {
    DispatchTokens(s, z, t);
    hide AnswersOk, OrderOk;
    assert Owner(s, t);
    var k := s.dispatches[t].key;
    assert KeyOk(s, k);
    hide SlotOk, OnlyDispatch;
    forall q: Key ensures KeyOk(z, q) { if q != k { OtherKeys(s, z, t, q); } else { assert z.slots == s.slots; } }
  }

  /** A dispatch settles without having been accepted, or with the acceptance it has. */
  lemma SettleInv(s: State, t: Token, r: Result)
    requires Inv(s) && t in s.dispatches && !Over(s.dispatches[t])
    requires match s.dispatches[t].phase
      case Updating(row) => r == Accepted(Some(row))
      case _ => !r.Accepted?
    ensures Inv(SettleWith(s, t, r))
  {
    hide Inv;
    assert t in s.entries by { InvHasEntry(s, t); }
    DispatchInv(s, SettleWith(s, t, r), t);
  }

  lemma InvHasEntry(s: State, t: Token)
    requires Inv(s) && t in s.dispatches
    ensures t in s.entries && t < s.nextToken
  {
  }

  lemma TrySendSlot(s: State, t: Token, row: Row, sending: Sending)
    requires t in s.dispatches && t in s.entries && !Over(s.dispatches[t])
    requires var k := s.dispatches[t].key;
      && s.entries[t].state == Pending && s.entries[t].message == Some(row)
      && Count(s.inserts, k) == 1 && Count(s.accepts, k) == 0
    ensures var z, k := TrySend(s, t, row, sending), s.dispatches[t].key;
      && SlotOk(z.entries[t], z.dispatches[t], Count(z.inserts, k), Count(z.accepts, k))
      && OnlyDispatch(s, z, t)
  {
  }

  lemma GatesPassedSlot(s: State, t: Token, sending: Sending)
    requires InPhase(s, t, Gating) && t in s.entries
    requires var k := s.dispatches[t].key;
      SlotOk(s.entries[t], s.dispatches[t], Count(s.inserts, k), Count(s.accepts, k))
    ensures var z, k := GatesPassed(s, t, sending), s.dispatches[t].key;
      SlotOk(z.entries[t], z.dispatches[t], Count(z.inserts, k), Count(z.accepts, k))
  {
    if s.dispatches[t].reuse.Some? { TrySendSlot(s, t, s.dispatches[t].reuse.value, sending); }
    hide TrySend;
  }

  lemma GatesPassedOnly(s: State, t: Token, sending: Sending)
    requires InPhase(s, t, Gating) && t in s.entries
    ensures OnlyDispatch(s, GatesPassed(s, t, sending), t)
  {
    if s.dispatches[t].reuse.Some? { TrySendOnly(s, t, s.dispatches[t].reuse.value, sending); }
    hide TrySend;
  }

  lemma TrySendOnly(s: State, t: Token, row: Row, sending: Sending)
    requires t in s.dispatches && t in s.entries && !Over(s.dispatches[t])
    ensures OnlyDispatch(s, TrySend(s, t, row, sending), t)
  {
  }

  lemma GatesPassedInv(s: State, t: Token, sending: Sending)
    requires Inv(s) && InPhase(s, t, Gating)
    ensures Inv(GatesPassed(s, t, sending))
  {
    hide Inv;
    InvHasEntry(s, t);
    var k := s.dispatches[t].key;
    if SlotOk(s.entries[t], s.dispatches[t], Count(s.inserts, k), Count(s.accepts, k)) {
      GatesPassedSlot(s, t, sending);
    }
    GatesPassedOnly(s, t, sending);
    hide GatesPassed, SlotOk, OnlyDispatch;
    DispatchInv(s, GatesPassed(s, t, sending), t);
  }

  lemma InsertedSlot(s: State, t: Token, sending: Sending)
    requires InPhase(s, t, Inserting) && t in s.entries && s.entries[t].state == Pending
    requires Count(s.inserts, s.dispatches[t].key) == 0 && Count(s.accepts, s.dispatches[t].key) == 0
    ensures var z, k := Inserted(s, t, sending), s.dispatches[t].key;
      SlotOk(z.entries[t], z.dispatches[t], Count(z.inserts, k), Count(z.accepts, k))
  {
  }

  lemma InsertedOnly(s: State, t: Token, sending: Sending)
    requires InPhase(s, t, Inserting) && t in s.entries
    ensures OnlyDispatch(s, Inserted(s, t, sending), t)
  {
  }

  lemma InsertedInv(s: State, t: Token, sending: Sending)
    requires Inv(s) && InPhase(s, t, Inserting) && t in s.entries
    ensures Inv(Inserted(s, t, sending))
  {
    var k := s.dispatches[t].key;
    if SlotOk(s.entries[t], s.dispatches[t], Count(s.inserts, k), Count(s.accepts, k)) {
      InsertedSlot(s, t, sending);
    }
    hide Inserted, Inv;
    InsertedOnly(s, t, sending);
    hide SlotOk, OnlyDispatch;
    DispatchInv(s, Inserted(s, t, sending), t);
  }

  // ----- A request comes in, and the handler goes on -----

  /** A new dispatch takes over a key that is free, or whose last dispatch failed with a row. */
  predicate MayStart(s: State, k: Key, reuse: Option<Row>) {
    if k in s.slots
    then s.slots[k] in s.entries && s.entries[s.slots[k]].state == Failed && reuse == s.entries[s.slots[k]].message
    else reuse == None
  }

  lemma StartInv(s: State, k: Key, reuse: Option<Row>)
    requires Inv(s) && MayStart(s, k, reuse)
    ensures Inv(StartDispatch(s, k, reuse))
  {
    StartOrder(s, k, reuse);
    StartKeys(s, k, reuse);
    StartTokens(s, k, reuse);
    hide OrderOk, KeysOk, TokensOk;
    var z, t := StartDispatch(s, k, reuse), s.nextToken;
    assert t !in s.answers && t !in s.waiting;
    forall u | u in z.dispatches ensures OwnAnswer(z, u) { assert u in s.dispatches ==> OwnAnswer(s, u); }
    forall w | w in z.waiting ensures WaiterOk(z, w) { assert WaiterOk(s, w); }
  }

  lemma StartKeys(s: State, k: Key, reuse: Option<Row>)
    requires KeysOk(s) && TokensOk(s) && MayStart(s, k, reuse)
    ensures KeysOk(StartDispatch(s, k, reuse))
  {
    hide KeysOk;
    var z := StartDispatch(s, k, reuse);
    assert KeyOk(s, k) by { KeyOfKeys(s, k); }
    assert KeyOk(z, k);
    forall q: Key | q != k ensures KeyOk(z, q) { KeyOfKeys(s, q); }
    AllKeys(z);
  }

  lemma KeyOfKeys(s: State, k: Key)
    requires KeysOk(s)
    ensures KeyOk(s, k)
  {
  }

  lemma AllKeys(s: State)
    requires forall k: Key :: KeyOk(s, k)
    ensures KeysOk(s)
  {
  }

  lemma StartTokens(s: State, k: Key, reuse: Option<Row>)
    requires KeysOk(s) && TokensOk(s) && MayStart(s, k, reuse)
    ensures TokensOk(StartDispatch(s, k, reuse))
  {
    hide KeysOk;
    var z := StartDispatch(s, k, reuse);
    KeyOfKeys(s, k);
    forall u | u in z.dispatches ensures Owner(z, u) { if u != s.nextToken { assert Owner(s, u); } }
  }

  lemma StartOrder(s: State, k: Key, reuse: Option<Row>)
    requires OrderOk(s)
    ensures OrderOk(StartDispatch(s, k, reuse))
  {
    var z := StartDispatch(s, k, reuse);
    assert KeysOf(z.order) == KeysOf(s.order) + {k};
    assert k in KeysOf(s.order) <==> k in s.slots;
  }

  /** A duplicate of a running request only leaves a note; one of a delivered request is answered. */
  lemma NoteInv(s: State, z: State, t: Token, a: Answer)
    requires Inv(s) && t in s.dispatches && s.nextToken == z.nextToken - 1
    requires z == s.(nextToken := z.nextToken, waiting := s.waiting[s.nextToken := t])
      || z == s.(nextToken := z.nextToken, answers := s.answers[s.nextToken := a])
    ensures Inv(z)
  {
    SameKeys(s, z);
    NoteAnswers(s, z, t, a);
    hide KeysOk, OrderOk, AnswersOk;
    forall u | u in z.dispatches ensures Owner(z, u) { assert Owner(s, u); }
  }

  lemma NoteAnswers(s: State, z: State, t: Token, a: Answer)
    requires AnswersOk(s) && TokensOk(s) && t in s.dispatches && s.nextToken == z.nextToken - 1
    requires z == s.(nextToken := z.nextToken, waiting := s.waiting[s.nextToken := t])
      || z == s.(nextToken := z.nextToken, answers := s.answers[s.nextToken := a])
    ensures AnswersOk(z)
  {
    assert s.nextToken !in s.answers && s.nextToken !in s.waiting && s.nextToken !in s.dispatches;
    forall u | u in z.dispatches ensures OwnAnswer(z, u) { assert OwnAnswer(s, u); }
    forall w | w in z.waiting ensures WaiterOk(z, w) { assert w != s.nextToken ==> WaiterOk(s, w); }
  }

  lemma SameKeys(s: State, z: State)
    requires KeysOk(s) && z == s.(nextToken := z.nextToken, waiting := z.waiting, answers := z.answers, now := z.now)
    ensures KeysOk(z)
  {
    forall k: Key ensures KeyOk(z, k) { assert KeyOk(s, k); }
  }

  lemma PostInv(s: State, k: Key)
    requires Inv(s)
    ensures Inv(Post(s, k))
  {
    hide Inv;
    var w := Sweep(s);
    SweepInv(s);
    if k in w.slots { SlotHasEntry(w, k); }
    hide Sweep;
    if k !in w.slots || w.entries[w.slots[k]].state == Failed {
      StartInv(w, k, if k in w.slots then w.entries[w.slots[k]].message else None);
    } else {
      NoteInv(w, Post(s, k), w.slots[k], Answer(Accepted(w.entries[w.slots[k]].message), true));
    }
  }

  lemma SlotHasEntry(s: State, k: Key)
    requires Inv(s) && k in s.slots
    ensures s.slots[k] in s.dispatches && s.slots[k] in s.entries
  {
    assert KeyOk(s, k);
  }

  lemma {:induction false} WithoutOk(order: seq<Key>, k: Key)
    requires NoDuplicates(order)
    ensures NoDuplicates(Without(order, k)) && KeysOf(Without(order, k)) == KeysOf(order) - {k}
  {
    if order != [] && order[0] != k {
      WithoutOk(order[1..], k);
      var r := Without(order[1..], k);
      assert order[0] !in KeysOf(order[1..]);
      assert KeysOf([order[0]] + r) == {order[0]} + KeysOf(r);
      assert KeysOf(order) == {order[0]} + KeysOf(order[1..]);
    } else if order != [] {
      assert KeysOf(order) == {k} + KeysOf(order[1..]);
      assert k !in KeysOf(order[1..]);
    }
  }

  lemma FinishOrder(s: State, t: Token)
    requires OrderOk(s) && t in s.dispatches && s.dispatches[t].phase.Settled? && t in s.entries
    ensures OrderOk(Finish(s, t, s.dispatches[t].phase.result))
  {
    WithoutOk(s.order, s.dispatches[t].key);
    hide NoDuplicates;
  }

  lemma FinishKeys(s: State, t: Token)
    requires KeysOk(s) && TokensOk(s) && t in s.dispatches && s.dispatches[t].phase.Settled? && t in s.entries
    ensures KeysOk(Finish(s, t, s.dispatches[t].phase.result))
  {
    hide KeysOk;
    var k, z := s.dispatches[t].key, Finish(s, t, s.dispatches[t].phase.result);
    assert Owner(s, t);
    KeyOfKeys(s, k);
    assert KeyOk(z, k);
    forall q: Key | q != k ensures KeyOk(z, q) { KeyOfKeys(s, q); }
    AllKeys(z);
  }

  lemma FinishTokens(s: State, t: Token)
    requires TokensOk(s) && t in s.dispatches && s.dispatches[t].phase.Settled? && t in s.entries
    ensures TokensOk(Finish(s, t, s.dispatches[t].phase.result))
  {
    var z := Finish(s, t, s.dispatches[t].phase.result);
    forall u | u in z.dispatches ensures Owner(z, u) { assert Owner(s, u) && Owner(s, t); }
  }

  lemma FinishAnswers(s: State, z: State, t: Token, r: Result)
    requires AnswersOk(s) && t in s.dispatches && s.dispatches[t].phase == Settled(r) && t < s.nextToken
    requires z.dispatches == s.dispatches[t := s.dispatches[t].(phase := Finished(r))]
    requires z.answers == s.answers[t := Answer(r, false)] && z.waiting == s.waiting && z.nextToken == s.nextToken
    ensures AnswersOk(z)
  {
    assert OwnAnswer(s, t);
    forall u | u in z.dispatches ensures OwnAnswer(z, u) { assert OwnAnswer(s, u); }
    forall w | w in z.waiting ensures WaiterOk(z, w) { assert WaiterOk(s, w); }
  }

  lemma FinishInv(s: State, t: Token)
    requires Inv(s) && t in s.dispatches && s.dispatches[t].phase.Settled? && t in s.entries
    ensures Inv(Finish(s, t, s.dispatches[t].phase.result))
  {
    hide OrderOk, KeysOk, TokensOk, AnswersOk;
    InvHasEntry(s, t);
    var r := s.dispatches[t].phase.result;
    FinishShape(s, t, r);
    hide Finish;
    FinishOrder(s, t);
    FinishKeys(s, t);
    FinishTokens(s, t);
    FinishAnswers(s, Finish(s, t, r), t, r);
  }

  lemma FinishShape(s: State, t: Token, r: Result)
    requires t in s.dispatches && t in s.entries
    ensures var z := Finish(s, t, r);
      && z.dispatches == s.dispatches[t := s.dispatches[t].(phase := Finished(r))]
      && z.answers == s.answers[t := Answer(r, false)] && z.waiting == s.waiting && z.nextToken == s.nextToken
  {
    hide Without;
  }

  lemma AnswerInv(s: State, w: Token)
    requires Inv(s) && Enabled(s, WaiterAnswered(w))
    ensures Inv(Step(s, WaiterAnswered(w)))
  {
    var z := Step(s, WaiterAnswered(w));
    SameKeys(s, z);
    hide KeysOk, OrderOk;
    forall u | u in z.dispatches ensures Owner(z, u) { assert Owner(s, u); }
    forall u | u in z.dispatches ensures OwnAnswer(z, u) { assert OwnAnswer(s, u); }
    forall v | v in z.waiting ensures WaiterOk(z, v) { assert WaiterOk(s, v); }
  }

  lemma TickInv(s: State, elapsed: nat)
    requires Inv(s)
    ensures Inv(s.(now := s.now + elapsed))
  {
    var z := s.(now := s.now + elapsed);
    SameKeys(s, z);
    hide KeysOk, OrderOk;
    forall u | u in z.dispatches ensures Owner(z, u) { assert Owner(s, u); }
    forall u | u in z.dispatches ensures OwnAnswer(z, u) { assert u in s.dispatches ==> OwnAnswer(s, u); }
    forall w | w in z.waiting ensures WaiterOk(z, w) { assert WaiterOk(s, w); }
  }

  lemma StepInv(s: State, e: Event)
    requires Inv(s) && Enabled(s, e)
    ensures Inv(Step(s, e))
  {
    hide Inv;
    match e
    case Posted(k) => PostInv(s, k);
    case GateSaidNo(t, status) => SettleInv(s, t, Refused(status, None));
    case GateThrew(t) => SettleInv(s, t, Threw);
    case FoundOffline(t) => SettleInv(s, t, Refused(409, s.dispatches[t].reuse));
    case GatesOpen(t, sending) => GatesPassedInv(s, t, sending);
    case InsertThrew(t) => SettleInv(s, t, Threw);
    case RowInserted(t, sending) => InsertedInv(s, t, sending);
    case StatusUpdated(t) => SettleInv(s, t, Accepted(Some(s.dispatches[t].phase.row)));
    case HandlerFinished(t) => FinishInv(s, t);
    case WaiterAnswered(w) => AnswerInv(s, w);
    case Tick(elapsed) => TickInv(s, elapsed);
  }
}
