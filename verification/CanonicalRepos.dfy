/** The canonical entry of each GitHub origin in a scan: entries are grouped by origin, each group is
    sorted, and the flags of its members are overwritten in place. */
module CanonicalRepos {
  import opened Wrappers

  /** `origin` is the lower-cased owner/repository of the remote, if it is on GitHub. */
  datatype RepoEntry = RepoEntry(path: string, isWorktree: bool, origin: Option<string>, canonical: bool)

  // ----- The order of a group -----

  /** The comparison of the sort: not after, that is, at most 0. */
  predicate NotAfter(a: RepoEntry, b: RepoEntry) {
    if a.isWorktree != b.isWorktree then b.isWorktree else |a.path| <= |b.path|
  }

  predicate Indices(es: seq<RepoEntry>, g: seq<nat>) {
    forall k | 0 <= k < |g| :: g[k] < |es|
  }

  function Insert(es: seq<RepoEntry>, x: nat, g: seq<nat>): (r: seq<nat>)
    requires x < |es| && Indices(es, g)
    ensures Indices(es, r) && |r| == |g| + 1
  {
    if g == [] then [x]
    else if NotAfter(es[x], es[g[0]]) then [x] + g
    else [g[0]] + Insert(es, x, g[1..])
  }

  /** A stable sort of the group. */
  function Sorted(es: seq<RepoEntry>, g: seq<nat>): (r: seq<nat>)
    requires Indices(es, g)
    ensures Indices(es, r) && |r| == |g|
  {
    if g == [] then [] else Insert(es, g[0], Sorted(es, g[1..]))
  }

  /** The members of group `k` among the first `n` entries, in scan order. */
  function Members(es: seq<RepoEntry>, k: string, n: nat): (r: seq<nat>)
    requires n <= |es|
    ensures Indices(es, r)
  {
    if n == 0 then [] else Members(es, k, n - 1) + if es[n - 1].origin == Some(k) then [n - 1] else []
  }

  predicate Ascending(g: seq<nat>) {
    forall a, b | 0 <= a < b < |g| :: g[a] < g[b]
  }

  lemma {:induction false} MembersAre(es: seq<RepoEntry>, k: string, n: nat)
    requires n <= |es|
    ensures Ascending(Members(es, k, n))
    ensures forall i: nat :: i in Members(es, k, n) <==> i < n && es[i].origin == Some(k)
  {
    if n > 0 {
      MembersAre(es, k, n - 1);
      var before := Members(es, k, n - 1);
      forall a | 0 <= a < |before| ensures before[a] < n - 1 { assert before[a] in before; }
    }
  }

  function Flag(es: seq<RepoEntry>, i: nat): bool
    requires i < |es|
  {
    es[i].origin.None? ||
      var g := Members(es, es[i].origin.value, |es|);
      |g| > 0 && i == Sorted(es, g)[0]
  }

  function Stamped(es: seq<RepoEntry>): (z: seq<RepoEntry>)
    ensures |z| == |es|
  {
    seq(|es|, i requires 0 <= i < |es| => es[i].(canonical := Flag(es, i)))
  }

  // ----- What the flags mean -----

  /** `i` is the first of the group for which no other member is strictly before it. */
  ghost predicate IsFirst(es: seq<RepoEntry>, g: seq<nat>, i: nat)
    requires Indices(es, g) && i < |es|
  {
    i in g && forall j | j in g :: NotAfter(es[i], es[j]) && (NotAfter(es[j], es[i]) ==> i <= j)
  }

  lemma {:induction false} InsertKeepsFirst(es: seq<RepoEntry>, x: nat, g: seq<nat>)
    requires x < |es| && Indices(es, g)
    ensures var r := Insert(es, x, g);
      && (forall i :: i in r <==> i == x || i in g)
      && r[0] == if g == [] || NotAfter(es[x], es[g[0]]) then x else g[0]
  {
    if g != [] && !NotAfter(es[x], es[g[0]]) { InsertKeepsFirst(es, x, g[1..]); }
  }

  lemma {:induction false} SortedStartsWithFirst(es: seq<RepoEntry>, g: seq<nat>)
    requires Indices(es, g) && |g| > 0 && Ascending(g)
    ensures IsFirst(es, g, Sorted(es, g)[0])
    ensures forall i :: i in Sorted(es, g) <==> i in g
  {
    var rest := g[1..];
    assert forall i :: i in g <==> i == g[0] || i in rest;
    if rest != [] { SortedStartsWithFirst(es, rest); }
    InsertKeepsFirst(es, g[0], Sorted(es, rest));
    assert forall i | i in rest :: g[0] < i;
  }

  predicate Ordered(es: seq<RepoEntry>, g: seq<nat>)
    requires Indices(es, g)
  {
    forall a, b | 0 <= a < b < |g| :: NotAfter(es[g[a]], es[g[b]])
  }

  lemma {:induction false} SortedIsOrdered(es: seq<RepoEntry>, g: seq<nat>)
    requires Indices(es, g)
    ensures multiset(Sorted(es, g)) == multiset(g) && Ordered(es, Sorted(es, g))
  {
    if g != [] {
      SortedIsOrdered(es, g[1..]);
      InsertIsOrdered(es, g[0], Sorted(es, g[1..]));
      assert g == [g[0]] + g[1..];
    }
  }

  lemma OrderedCons(es: seq<RepoEntry>, x: nat, g: seq<nat>)
    requires x < |es| && Indices(es, g) && Ordered(es, g) && (g != [] ==> NotAfter(es[x], es[g[0]]))
    ensures Indices(es, [x] + g) && Ordered(es, [x] + g)
  {
    forall a | 0 <= a < |g| ensures NotAfter(es[x], es[g[a]]) { assert a > 0 ==> NotAfter(es[g[0]], es[g[a]]); }
  }

  lemma {:induction false} InsertIsOrdered(es: seq<RepoEntry>, x: nat, g: seq<nat>)
    requires x < |es| && Indices(es, g) && Ordered(es, g)
    ensures multiset(Insert(es, x, g)) == multiset(g) + multiset{x} && Ordered(es, Insert(es, x, g))
  {
    if g != [] {
      assert g == [g[0]] + g[1..];
      if NotAfter(es[x], es[g[0]]) {
        OrderedCons(es, x, g);
      } else {
        InsertIsOrdered(es, x, g[1..]);
        InsertKeepsFirst(es, x, g[1..]);
        OrderedCons(es, g[0], Insert(es, x, g[1..]));
      }
      hide Ordered;
    }
  }

  /** An entry with an origin is canonical exactly if it is the best of its origin: a worktree only
      if all are, shortest among its kind, and first in the scan among equals. */
  lemma CanonicalIff(es: seq<RepoEntry>, i: nat)
    requires i < |es| && es[i].origin.Some?
    ensures Stamped(es)[i].canonical <==>
      forall j | 0 <= j < |es| && es[j].origin == es[i].origin ::
        && (es[i].isWorktree ==> es[j].isWorktree)
        && (es[i].isWorktree == es[j].isWorktree ==> |es[i].path| <= |es[j].path|)
        && (es[i].isWorktree == es[j].isWorktree && |es[i].path| == |es[j].path| ==> i <= j)
  {
    var g := Members(es, es[i].origin.value, |es|);
    MembersAre(es, es[i].origin.value, |es|);
    SortedStartsWithFirst(es, g);
    var h := Sorted(es, g)[0];
    hide Sorted, Members;
    assert h in g && NotAfter(es[h], es[i]);
  }

  /** Every origin has exactly one canonical entry. */
  lemma OneCanonicalPerOrigin(es: seq<RepoEntry>, k: string) returns (i: nat)
    requires exists j | 0 <= j < |es| :: es[j].origin == Some(k)
    ensures i < |es| && es[i].origin == Some(k)
    ensures forall j | 0 <= j < |es| && es[j].origin == Some(k) :: Stamped(es)[j].canonical <==> j == i
  {
    var g := Members(es, k, |es|);
    MembersAre(es, k, |es|);
    var j :| 0 <= j < |es| && es[j].origin == Some(k);
    assert j in g;
    SortedStartsWithFirst(es, g);
    i := Sorted(es, g)[0];
    hide Sorted, Members;
    assert i in g;
  }

  /** Entries without an origin stay canonical, and nothing but the flags changes. */
  lemma OnlyFlagsChange(es: seq<RepoEntry>)
    requires forall i | 0 <= i < |es| :: es[i].canonical
    ensures var z := Stamped(es);
      && |z| == |es|
      && forall i | 0 <= i < |es| ::
        z[i] == es[i].(canonical := z[i].canonical) && (es[i].origin.None? ==> z[i] == es[i])
  {
  }

  // ----- The grouping loops -----

  /** The groups of the first `n` entries, and their keys in the order of first appearance. */
  ghost predicate Grouped(es: seq<RepoEntry>, n: nat, keys: seq<string>, groups: map<string, seq<nat>>)
    requires n <= |es|
  {
    KeysAre(keys, groups) && GroupsAre(es, n, groups)
  }

  ghost predicate KeysAre(keys: seq<string>, groups: map<string, seq<nat>>) {
    (forall k :: k in keys <==> k in groups) && (forall a, b | 0 <= a < b < |keys| :: keys[a] != keys[b])
  }

  predicate GroupsAre(es: seq<RepoEntry>, n: nat, groups: map<string, seq<nat>>)
    requires n <= |es|
  {
    && (forall k | k in groups :: groups[k] == Members(es, k, n))
    && (forall i | 0 <= i < n && es[i].origin.Some? :: es[i].origin.value in groups)
  }

  method Group(entries: array<RepoEntry>) returns (keys: seq<string>, groups: map<string, seq<nat>>)
    ensures Grouped(entries[..], entries.Length, keys, groups)
  {
    keys, groups := [], map[];
    ghost var es := entries[..];
    for i := 0 to entries.Length
      invariant entries[..] == es && Grouped(es, i, keys, groups)
    {
      var e := entries[i];
      assert e == es[i];
      GroupedNext(es, i, keys, groups);
      if e.origin.Some? {
        var key := e.origin.value;
        var arr := if key in groups then groups[key] else [];
        if key !in groups { keys := keys + [key]; }
        groups := groups[key := arr + [i]];
      }
    }
  }

  lemma GroupedNext(es: seq<RepoEntry>, i: nat, keys: seq<string>, groups: map<string, seq<nat>>)
    requires i < |es| && Grouped(es, i, keys, groups)
    ensures es[i].origin.None? ==> Grouped(es, i + 1, keys, groups)
    ensures es[i].origin.Some? ==>
      var key := es[i].origin.value;
      var arr := if key in groups then groups[key] else [];
      Grouped(es, i + 1, if key in groups then keys else keys + [key], groups[key := arr + [i]])
  {
    hide Members;
    forall k ensures es[i].origin != Some(k) ==> Members(es, k, i + 1) == Members(es, k, i) { MembersNext(es, k, i); }
    if es[i].origin.Some? {
      var key := es[i].origin.value;
      MembersNext(es, key, i);
      if key !in groups { NoMembers(es, key, i); }
      JoinGroup(es, i, keys, groups, key, if key in groups then groups[key] else []);
    }
  }

  lemma JoinGroup(
    es: seq<RepoEntry>, i: nat, keys: seq<string>, groups: map<string, seq<nat>>, key: string, arr: seq<nat>)
    requires i < |es| && Grouped(es, i, keys, groups) && es[i].origin == Some(key)
    requires Members(es, key, i + 1) == arr + [i]
    requires forall k | k != key :: Members(es, k, i + 1) == Members(es, k, i)
    ensures Grouped(es, i + 1, if key in groups then keys else keys + [key], groups[key := arr + [i]])
  {
    hide Members;
    assert GroupsAre(es, i + 1, groups[key := arr + [i]]);
    hide GroupsAre;
    if key !in groups { assert forall k :: k in keys + [key] <==> k in keys || k == key; }
  }

  lemma MembersNext(es: seq<RepoEntry>, k: string, i: nat)
    requires i < |es|
    ensures Members(es, k, i + 1) == if es[i].origin == Some(k) then Members(es, k, i) + [i] else Members(es, k, i)
  {
  }

  lemma {:induction false} NoMembers(es: seq<RepoEntry>, k: string, n: nat)
    requires n <= |es| && forall i | 0 <= i < n :: es[i].origin != Some(k)
    ensures Members(es, k, n) == []
  {
    if n > 0 { NoMembers(es, k, n - 1); }
  }

  /** The groups `keys[..n]` have their flags, the other entries are as they were. */
  ghost predicate StampedUpTo(es: seq<RepoEntry>, now: seq<RepoEntry>, keys: seq<string>, n: nat)
    requires n <= |keys|
  {
    |now| == |es| && forall i | 0 <= i < |es| ::
      now[i] == if es[i].origin.Some? && es[i].origin.value in keys[..n] then Stamped(es)[i] else es[i]
  }

  /** Overwrite the flags of a sorted group. */
  method Overwrite(entries: array<RepoEntry>, sorted: seq<nat>)
    requires forall n | 0 <= n < |sorted| :: sorted[n] < entries.Length
    requires forall a, b | 0 <= a < b < |sorted| :: sorted[a] != sorted[b]
    modifies entries
    ensures forall i | 0 <= i < entries.Length ::
      entries[i] == if i in sorted then old(entries[i]).(canonical := i == sorted[0]) else old(entries[i])
  {
    for n := 0 to |sorted|
      invariant forall i | 0 <= i < entries.Length ::
        entries[i] == if i in sorted[..n] then old(entries[i]).(canonical := i == sorted[0]) else old(entries[i])
    {
      var i := sorted[n];
      assert i !in sorted[..n];
      entries[i] := entries[i].(canonical := n == 0);
      assert forall j :: j in sorted[..n + 1] <==> j in sorted[..n] || j == i;
    }
    assert sorted[..|sorted|] == sorted;
  }

  method StampGroup(entries: array<RepoEntry>, arr: seq<nat>, ghost es: seq<RepoEntry>, ghost k: string)
    requires |es| == entries.Length && arr == Members(es, k, |es|)
    requires forall i | 0 <= i < |es| :: es[i].canonical
    requires forall i | i in arr :: i < entries.Length && entries[i] == es[i]
    modifies entries
    ensures forall i | 0 <= i < |es| :: entries[i] == if i in arr then Stamped(es)[i] else old(entries[i])
  {
    if |arr| <= 1 {
      OnlyMember(es, k);
      return;
    }
    MembersAre(es, k, |es|);
    var sorted := Sorted(entries[..], arr);
    SortedSame(entries[..], es, arr);
    SortedStartsWithFirst(es, arr);
    SortedDistinct(es, arr);
    forall i | i in arr ensures Stamped(es)[i] == es[i].(canonical := i == sorted[0]) { FlagOfMember(es, k, i); }
    hide Sorted, Stamped, Members, IsFirst;
    Overwrite(entries, sorted);
  }

  /** The sort looks at the members alone. */
  lemma {:induction false} SortedSame(es: seq<RepoEntry>, fs: seq<RepoEntry>, g: seq<nat>)
    requires Indices(es, g) && Indices(fs, g) && forall i | i in g :: es[i] == fs[i]
    ensures Sorted(es, g) == Sorted(fs, g) && forall i | i in Sorted(es, g) :: es[i] == fs[i]
  {
    if g != [] {
      SortedSame(es, fs, g[1..]);
      InsertSame(es, fs, g[0], Sorted(es, g[1..]));
    }
  }

  lemma {:induction false} InsertSame(es: seq<RepoEntry>, fs: seq<RepoEntry>, x: nat, g: seq<nat>)
    requires x < |es| && x < |fs| && Indices(es, g) && Indices(fs, g)
    requires es[x] == fs[x] && forall i | i in g :: es[i] == fs[i]
    ensures Insert(es, x, g) == Insert(fs, x, g) && forall i | i in Insert(es, x, g) :: es[i] == fs[i]
  {
    if g != [] { InsertSame(es, fs, x, g[1..]); }
  }

  lemma FlagOfMember(es: seq<RepoEntry>, k: string, i: nat)
    requires i in Members(es, k, |es|)
    ensures Stamped(es)[i] == es[i].(canonical := i == Sorted(es, Members(es, k, |es|))[0])
  {
    MembersAre(es, k, |es|);
  }

  lemma OnlyMember(es: seq<RepoEntry>, k: string)
    requires |Members(es, k, |es|)| <= 1 && forall i | 0 <= i < |es| :: es[i].canonical
    ensures forall i | i in Members(es, k, |es|) :: Stamped(es)[i] == es[i]
  {
    MembersAre(es, k, |es|);
  }

  lemma SortedDistinct(es: seq<RepoEntry>, g: seq<nat>)
    requires Indices(es, g) && Ascending(g)
    ensures var r := Sorted(es, g); forall a, b | 0 <= a < b < |r| :: r[a] != r[b]
  {
    SortedIsOrdered(es, g);
    DistinctByMultiset(g, Sorted(es, g));
  }

  lemma DistinctByMultiset(g: seq<nat>, r: seq<nat>)
    requires multiset(r) == multiset(g) && forall a, b | 0 <= a < b < |g| :: g[a] != g[b]
    ensures forall a, b | 0 <= a < b < |r| :: r[a] != r[b]
  {
    forall a, b | 0 <= a < b < |r| ensures r[a] != r[b] {
      if r[a] == r[b] {
        assert r == r[..b] + [r[b]] + r[b + 1..];
        assert r[a] in r[..b];
        assert multiset(r)[r[a]] >= 2;
        AtMostOnce(g, r[a]);
      }
    }
  }

  lemma {:induction false} AtMostOnce(g: seq<nat>, x: nat)
    requires forall a, b | 0 <= a < b < |g| :: g[a] != g[b]
    ensures multiset(g)[x] <= 1
  {
    if g != [] {
      assert g == [g[0]] + g[1..];
      AtMostOnce(g[1..], x);
      if g[0] == x { assert x !in g[1..]; }
    }
  }

  method StampCanonical(entries: array<RepoEntry>)
    requires forall i | 0 <= i < entries.Length :: entries[i].canonical
    modifies entries
    ensures entries[..] == Stamped(old(entries[..]))
  {
    ghost var es := entries[..];
    var keys, groups := Group(entries);
    hide Stamped;
    for n := 0 to |keys|
      invariant StampedUpTo(es, entries[..], keys, n)
    {
      var arr := groups[keys[n]];
      MembersAre(es, keys[n], |es|);
      hide Members;
      assert keys[n] !in keys[..n];
      StampGroup(entries, arr, es, keys[n]);
      assert forall k :: k in keys[..n + 1] <==> k in keys[..n] || k == keys[n];
    }
    assert keys[..|keys|] == keys;
  }
}
