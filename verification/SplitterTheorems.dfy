/** What the two schema splitters promise: the quoting rules stated on their own, the pieces of a
    script, the lint that reads them, and when lint and migrator see the same statements. */
module SplitterTheorems {
  import opened Wrappers
  import opened SqlLabels
  import opened SchemaSplitters

  // ----- Where lexemes end, without the scan -----

  /** A line comment ends behind the first newline, or with the script. */
  lemma {:induction false} LineCommentEnds(s: string, i: nat)
    requires i <= |s|
    ensures var e := LineEnd(s, i);
      && (forall k | i <= k < e - 1 :: s[k] != '\n')
      && ((i < e && s[e - 1] == '\n') || (e == |s| && '\n' !in s[i..]))
    decreases |s| - i
  {
    if i < |s| && s[i] != '\n' {
      LineCommentEnds(s, i + 1);
      assert s[i..] == [s[i]] + s[i + 1..];
    }
  }

  /** Opening minus closing pairs in `[i, e)`, read from left to right without overlap. */
  function Balance(s: string, i: nat, e: nat): int
    requires i <= e <= |s|
    decreases e - i
  {
    if e - i < 2 then 0
    else if PairAt(s, i, '/', '*') then Balance(s, i + 2, e) + 1
    else if PairAt(s, i, '*', '/') then Balance(s, i + 2, e) - 1
    else Balance(s, i + 1, e)
  }

  /** Block comments nest: `depth` open ones end at the first place where as many pairs more have closed
      than opened, or with the script. */
  lemma {:induction false} BlockCommentEnds(s: string, i: nat, depth: nat)
    requires i <= |s|
    ensures var e := BlockEnd(s, i, depth);
      && (forall j | i <= j < e :: depth + Balance(s, i, j) > 0)
      && (depth + Balance(s, i, e) == 0 || (e == |s| && depth + Balance(s, i, e) > 0))
    decreases |s| - i
  {
    if i < |s| && depth > 0 {
      var n, more := if PairAt(s, i, '/', '*') || PairAt(s, i, '*', '/') then 2 else 1,
        if PairAt(s, i, '/', '*') then 1 else if PairAt(s, i, '*', '/') then -1 else 0;
      BlockCommentEnds(s, i + n, depth + more);
      forall j | i + n <= j <= |s| ensures Balance(s, i, j) == Balance(s, i + n, j) + more {
        if j - i < 2 { assert n == 1 && j == i + 1; }
      }
    }
  }

  /** A dollar-quoted body ends behind the first occurrence of its own tag, or with the script. */
  lemma {:induction false} DollarBodyEnds(s: string, i: nat, tag: string)
    requires i <= |s| && TagOk(tag)
    ensures var e := DollarEnd(s, i, tag);
      || (e == |s| && forall k | i <= k <= |s| :: !HasAt(s, k, tag))
      || (i <= e - |tag| && HasAt(s, e - |tag|, tag) && forall k | i <= k < e - |tag| :: !HasAt(s, k, tag))
    decreases |s| - i
  {
    if i < |s| {
      if HasAt(s, i, tag) {
        assert s[i] == s[i..i + |tag|][0] == '$';
      } else {
        DollarBodyEnds(s, i + 1, tag);
      }
    }
  }

  /** A dollar tag: `$$`, or an identifier between two dollars. */
  predicate IsTag(t: string) {
    && |t| >= 2 && t[0] == '$' && t[|t| - 1] == '$' && (|t| > 2 ==> !('0' <= t[1] <= '9'))
    && forall k | 0 < k < |t| - 1 ::
      'A' <= t[k] <= 'Z' || 'a' <= t[k] <= 'z' || t[k] == '_' || '0' <= t[k] <= '9'
  }

  /** A tag opens at `i` exactly if the scan finds one, and then there is only one. */
  lemma DollarTagOpens(s: string, i: nat, n: nat)
    requires i < |s| && s[i] == '$' && 0 < n <= |s| - i
    ensures IsTag(s[i..i + n]) <==> TagLength(s, i) == n
  {
    var t := s[i..i + n];
    assert forall k | 0 <= k < n :: t[k] == s[i + k];
    if i + 1 < |s| && IdentStart(s[i + 1]) {
      IdentRuns(s, i + 2);
      var j := IdentEnd(s, i + 2);
      if IsTag(t) {
        assert n > 2 && s[i + n - 1] == '$';
        assert forall k | i + 2 <= k < i + n - 1 :: IdentPart(t[k - i]) && t[k - i] == s[k];
      }
    }
  }

  lemma {:induction false} IdentRuns(s: string, i: nat)
    requires i <= |s|
    ensures forall k | i <= k < IdentEnd(s, i) :: IdentPart(s[k])
    ensures IdentEnd(s, i) < |s| ==> !IdentPart(s[IdentEnd(s, i)])
    decreases |s| - i
  {
    if i < |s| && IdentPart(s[i]) { IdentRuns(s, i + 1); }
  }

  /** How many quotes `q` stand in `[i, j)`. */
  function QuoteCount(s: string, i: nat, j: nat, q: char): nat
    requires i <= j <= |s|
    decreases j - i
  {
    if i == j then 0 else (if s[i] == q then 1 else 0) + QuoteCount(s, i + 1, j, q)
  }

  /** Behind `e` the quotes are closed: an odd number of them, the last one not doubled. */
  predicate QuotesClose(s: string, i: nat, e: nat, q: char)
    requires i <= e <= |s|
  {
    i < e && s[e - 1] == q && QuoteCount(s, i, e, q) % 2 == 1 && (e == |s| || s[e] != q)
  }

  /** A literal ends at the first place where its quotes are closed, or with the script. */
  lemma {:induction false} LiteralEnds(s: string, i: nat, q: char)
    requires i <= |s|
    ensures var e := QuoteEnd(s, i, q);
      && (forall j | i <= j < e :: !QuotesClose(s, i, j, q))
      && (QuotesClose(s, i, e, q) || e == |s|)
    decreases |s| - i
  {
    if i < |s| {
      if s[i] != q {
        LiteralEnds(s, i + 1, q);
        forall j | i < j <= |s| ensures QuotesClose(s, i, j, q) == QuotesClose(s, i + 1, j, q) {
          assert QuoteCount(s, i, j, q) == QuoteCount(s, i + 1, j, q);
        }
      } else if PairAt(s, i, q, q) {
        LiteralEnds(s, i + 2, q);
        forall j | i + 2 <= j <= |s| ensures QuotesClose(s, i, j, q) == QuotesClose(s, i + 2, j, q) {
          assert QuoteCount(s, i, j, q) == 1 + QuoteCount(s, i + 1, j, q) == 2 + QuoteCount(s, i + 2, j, q);
        }
      } else {
        assert QuoteCount(s, i, i + 1, q) == 1 + QuoteCount(s, i + 1, i + 1, q);
      }
    }
  }

  // ----- Where lexemes start, without the scan -----

  ghost predicate TagAt(s: string, i: nat, n: nat) {
    0 < n && i + n <= |s| && IsTag(s[i..i + n])
  }

  /** A lexeme starts at `i`, ends at `e` and is labelled `x`: two characters open a comment, a tag, a
      quote or a double quote a literal, and every other character stands alone. */
  ghost predicate IsLexeme(s: string, i: nat, e: nat, x: Label)
    requires i < |s|
  {
    var two := if i + 1 < |s| then s[i..i + 2] else [];
    if two == "--" then x == Comment && e == LineEnd(s, i + 2)
    else if two == "/*" then x == Comment && e == BlockEnd(s, i + 2, 1)
    else if exists n :: TagAt(s, i, n) then
      x == Literal && exists n :: TagAt(s, i, n) && e == DollarEnd(s, i + n, s[i..i + n])
    else if s[i] == '\'' then x == Literal && e == QuoteEnd(s, i + 1, '\'')
    else if s[i] == '\"' then x == Literal && e == QuoteEnd(s, i + 1, '\"')
    else e == i + 1 && x == if s[i] == ';' then Separator else Plain
  }

  lemma TagIs(s: string, i: nat, n: nat)
    requires i < |s|
    ensures TagAt(s, i, n) <==> n > 0 && s[i] == '$' && TagLength(s, i) == n
  {
    if 0 < n && i + n <= |s| {
      assert s[i..i + n][0] == s[i];
      if s[i] == '$' { DollarTagOpens(s, i, n); }
    }
  }

  lemma TagsIff(s: string, i: nat)
    requires i < |s|
    ensures (exists n :: TagAt(s, i, n)) <==> s[i] == '$' && TagLength(s, i) > 0
    ensures forall n :: TagAt(s, i, n) ==> s[i] == '$' && n == TagLength(s, i)
  {
    forall n: nat ensures TagAt(s, i, n) <==> n > 0 && s[i] == '$' && TagLength(s, i) == n { TagIs(s, i, n); }
    hide TagAt, TagLength;
    if s[i] == '$' && TagLength(s, i) > 0 { assert TagAt(s, i, TagLength(s, i)); }
  }

  lemma PairIff(s: string, i: nat, c: char, d: char)
    requires i < |s|
    ensures PairAt(s, i, c, d) <==> (if i + 1 < |s| then s[i..i + 2] else []) == [c, d]
  {
    if i + 1 < |s| { assert s[i..i + 2] == [s[i], s[i + 1]]; }
  }

  /** At every place the scan finds the one lexeme that starts there. */
  lemma LexemeIff(s: string, i: nat, e: nat, x: Label)
    requires i < |s|
    ensures IsLexeme(s, i, e, x) <==> e == LexemeEnd(s, i) && x == LexemeLabel(s, i)
  {
    TagsIff(s, i);
    PairIff(s, i, '-', '-');
    PairIff(s, i, '/', '*');
    hide PairAt, TagAt, TagLength, LineEnd, BlockEnd, DollarEnd, QuoteEnd;
  }

  /** One lexeme stands in `[i, e)`. */
  ghost predicate IsPart(s: string, l: seq<Label>, i: nat, e: nat)
    requires |l| == |s|
  {
    i < e <= |s| && IsLexeme(s, i, e, l[i]) && forall k | i <= k < e :: l[k] == l[i]
  }

  /** The cuts run from `a` to the end of the script, and between two of them stands one lexeme. */
  ghost predicate IsCut(s: string, l: seq<Label>, a: nat, cuts: seq<nat>) {
    && |l| == |s| && |cuts| > 0 && cuts[0] == a && cuts[|cuts| - 1] == |s|
    && (forall k | 0 < k < |cuts| :: IsPart(s, l, cuts[k - 1], cuts[k]))
  }

  lemma {:induction false} LabelsAreCut(s: string, l: seq<Label>, a: nat) returns (cuts: seq<nat>)
    requires a <= |s| == |l| && l[a..] == LabelsFrom(s, a)
    ensures IsCut(s, l, a, cuts)
    decreases |s| - a
  {
    cuts := [a];
    if a < |s| {
      var e := LexemeEnd(s, a);
      var first := Times(LexemeLabel(s, a), e - a);
      assert l[a..] == first + LabelsFrom(s, e);
      assert l[e..] == l[a..][e - a..] == LabelsFrom(s, e);
      forall k | a <= k < e ensures l[k] == LexemeLabel(s, a) { assert l[k] == l[a..][k - a] == first[k - a]; }
      LexemeIff(s, a, e, l[a]);
      var rest := LabelsAreCut(s, l, e);
      hide IsLexeme, LexemeEnd, LexemeLabel;
      cuts := [a] + rest;
      forall k | 0 < k < |cuts| ensures IsPart(s, l, cuts[k - 1], cuts[k]) {
        if k > 1 { assert cuts[k - 1] == rest[k - 2] && cuts[k] == rest[k - 1]; }
      }
    }
  }

  lemma {:induction false} CutIsLabels(s: string, l: seq<Label>, a: nat, cuts: seq<nat>)
    requires a <= |s| && IsCut(s, l, a, cuts)
    ensures l[a..] == LabelsFrom(s, a)
    decreases |cuts|
  {
    if |cuts| > 1 {
      var e := cuts[1];
      assert IsPart(s, l, cuts[0], cuts[1]);
      LexemeIff(s, a, e, l[a]);
      hide IsLexeme, LexemeEnd, LexemeLabel;
      CutRest(s, l, a, cuts);
      CutIsLabels(s, l, e, cuts[1..]);
      assert l[a..] == l[a..e] + l[e..];
    }
  }

  lemma CutRest(s: string, l: seq<Label>, a: nat, cuts: seq<nat>)
    requires IsCut(s, l, a, cuts) && |cuts| > 1
    ensures IsCut(s, l, cuts[1], cuts[1..])
  {
    hide IsPart;
    var rest := cuts[1..];
    forall k | 0 < k < |rest| ensures IsPart(s, l, rest[k - 1], rest[k]) {
      assert rest[k - 1] == cuts[k] && rest[k] == cuts[k + 1];
    }
  }

  /** The labels of a script are the one labelling that its lexemes cut it into. */
  lemma LabelsIff(s: string, l: seq<Label>)
    ensures l == Labels(s) <==> exists cuts :: IsCut(s, l, 0, cuts)
  {
    hide IsCut, LabelsFrom;
    assert l[0..] == l;
    if l == Labels(s) { var cuts := LabelsAreCut(s, l, 0); }
    forall cuts | IsCut(s, l, 0, cuts) ensures l == Labels(s) { CutIsLabels(s, l, 0, cuts); }
  }

  /** The separators are exactly the semicolons outside comments and literals. */
  lemma {:induction false} SeparatorsAreSemicolons(s: string, l: seq<Label>, i: nat)
    requires i <= |s| == |l| && Labelled(s, l, i)
    ensures forall k | i <= k < |s| :: l[k] == Separator <==> s[k] == ';' && l[k] != Comment && l[k] != Literal
    decreases |s| - i
  {
    if i < |s| { SeparatorsAreSemicolons(s, l, LexemeEnd(s, i)); }
  }

  // ----- The pieces of a script -----

  datatype Piece = Piece(start: nat, end: nat)

  /** The stretches between separators, from the piece start `a` on. */
  function Pieces(l: seq<Label>, a: nat): (r: seq<Piece>)
    requires a <= |l|
    ensures |r| > 0 && r[0].start == a
    decreases |l| - a
  {
    var b := NextSeparator(l, a);
    [Piece(a, b)] + if b < |l| then Pieces(l, b + 1) else []
  }

  predicate PieceOk(l: seq<Label>, p: Piece) {
    && p.start <= p.end <= |l|
    && (p.start == 0 || l[p.start - 1] == Separator) && (p.end == |l| || l[p.end] == Separator)
    && (forall k | p.start <= k < p.end :: l[k] != Separator)
  }

  lemma {:induction false} PiecesFirst(l: seq<Label>, a: nat, b: nat)
    requires a <= |l| && b == NextSeparator(l, a)
    ensures Pieces(l, a) == [Piece(a, b)] + if b < |l| then Pieces(l, b + 1) else []
  {
    hide NextSeparator;
  }

  /** The pieces are exactly the stretches between separators, in order and without gaps. */
  predicate Tiles(l: seq<Label>, r: seq<Piece>) {
    && |r| > 0 && (forall k | 0 <= k < |r| :: PieceOk(l, r[k])) && r[|r| - 1].end == |l|
    && (forall k | 0 < k < |r| :: r[k].start == r[k - 1].end + 1)
  }

  lemma TileCons(l: seq<Label>, p: Piece, rest: seq<Piece>)
    requires PieceOk(l, p) && Tiles(l, rest) && rest[0].start == p.end + 1
    ensures Tiles(l, [p] + rest)
  {
    hide PieceOk;
  }

  lemma {:induction false} PiecesTile(l: seq<Label>, a: nat)
    requires a <= |l| && (a == 0 || l[a - 1] == Separator)
    ensures Tiles(l, Pieces(l, a))
    decreases |l| - a
  {
    hide Pieces;
    var b := NextSeparator(l, a);
    PiecesFirst(l, a, b);
    if b < |l| {
      PiecesTile(l, b + 1);
      TileCons(l, Piece(a, b), Pieces(l, b + 1));
    }
  }

  /** Has the piece any code, so that the lint sees a statement? */
  predicate HasCode(s: string, l: seq<Label>, p: Piece)
    requires |s| == |l|
  {
    p.start <= p.end <= |s| && FirstCode(s, l, p.start, p.end).Some?
  }

  /** Has the piece any text at all, so that the migrator runs it? */
  predicate HasText(s: string, p: Piece) {
    p.start <= p.end <= |s| && !AllBlank(s[p.start..p.end])
  }

  function LintPieces(s: string, l: seq<Label>, a: nat): seq<Piece>
    requires a <= |s| == |l|
    decreases |l| - a
  {
    var p := Piece(a, NextSeparator(l, a));
    (if HasCode(s, l, p) then [p] else []) + if p.end < |l| then LintPieces(s, l, p.end + 1) else []
  }

  function MigratePieces(s: string, l: seq<Label>, a: nat): seq<Piece>
    requires a <= |s| == |l|
    decreases |l| - a
  {
    var p := Piece(a, NextSeparator(l, a));
    (if HasText(s, p) then [p] else []) + if p.end < |l| then MigratePieces(s, l, p.end + 1) else []
  }

  /** Statement `st` was read off piece `p`, whose first code stands at `f`. */
  ghost predicate ReadOff(s: string, l: seq<Label>, st: Statement, p: Piece, f: nat)
    requires |s| == |l|
  {
    && PieceOk(l, p) && p.start <= f < p.end
    && l[f] != Comment && !IsBlank(s[f])
    && (forall k | p.start <= k < f :: l[k] == Comment || IsBlank(s[k]))
    && st.prefix == s[p.start..f] && st.line == 1 + Newlines(s, f) && st.code == CodeIn(s, l, p.start, p.end)
  }

  predicate IsStatementOf(s: string, l: seq<Label>, p: Piece, st: Statement)
    requires |s| == |l|
  {
    HasCode(s, l, p) && PieceStatement(s, l, p.start, p.end) == [st]
  }

  predicate AreStatementsOf(s: string, l: seq<Label>, ps: seq<Piece>, sts: seq<Statement>)
    requires |s| == |l|
  {
    |sts| == |ps| && forall k | 0 <= k < |ps| :: IsStatementOf(s, l, ps[k], sts[k])
  }

  lemma StatementsAppend(
    s: string, l: seq<Label>, p: seq<Piece>, st: seq<Statement>, ps: seq<Piece>, sts: seq<Statement>)
    requires |s| == |l| && AreStatementsOf(s, l, p, st) && AreStatementsOf(s, l, ps, sts)
    ensures AreStatementsOf(s, l, p + ps, st + sts)
  {
    hide IsStatementOf;
  }

  /** The first piece, and the rest behind its separator. */
  lemma {:induction false} LintFirst(s: string, l: seq<Label>, a: nat, b: nat)
    requires a <= |s| == |l| && b == NextSeparator(l, a)
    ensures StatementsFrom(s, l, a)
      == PieceStatement(s, l, a, b) + if b < |l| then StatementsFrom(s, l, b + 1) else []
    ensures LintPieces(s, l, a)
      == (if HasCode(s, l, Piece(a, b)) then [Piece(a, b)] else []) + if b < |l| then LintPieces(s, l, b + 1) else []
  {
    hide *;
    StatementsFirst(s, l, a, b);
    LintPiecesFirst(s, l, a, b);
  }

  lemma {:induction false} StatementsFirst(s: string, l: seq<Label>, a: nat, b: nat)
    requires a <= |s| == |l| && b == NextSeparator(l, a)
    ensures StatementsFrom(s, l, a)
      == PieceStatement(s, l, a, b) + if b < |l| then StatementsFrom(s, l, b + 1) else []
  {
    hide PieceStatement, NextSeparator;
  }

  lemma {:induction false} LintPiecesFirst(s: string, l: seq<Label>, a: nat, b: nat)
    requires a <= |s| == |l| && b == NextSeparator(l, a)
    ensures LintPieces(s, l, a)
      == (if HasCode(s, l, Piece(a, b)) then [Piece(a, b)] else []) + if b < |l| then LintPieces(s, l, b + 1) else []
  {
    hide HasCode, NextSeparator;
  }

  lemma {:induction false} LintPiecesAre(s: string, l: seq<Label>, a: nat)
    requires a <= |s| == |l|
    ensures forall p :: p in LintPieces(s, l, a) <==> p in Pieces(l, a) && HasCode(s, l, p)
    decreases |l| - a
  {
    hide Pieces, LintPieces, HasCode, NextSeparator;
    var b := NextSeparator(l, a);
    PiecesFirst(l, a, b);
    LintPiecesFirst(s, l, a, b);
    if b < |l| { LintPiecesAre(s, l, b + 1); }
  }

  lemma OneStatement(s: string, l: seq<Label>, a: nat, b: nat)
    requires a <= b <= |s| == |l|
    ensures AreStatementsOf(s, l, if HasCode(s, l, Piece(a, b)) then [Piece(a, b)] else [], PieceStatement(s, l, a, b))
  {
    hide CodeIn, FirstCode;
  }

  lemma {:induction false} StatementsOfPieces(s: string, l: seq<Label>, a: nat)
    requires a <= |s| == |l|
    ensures AreStatementsOf(s, l, LintPieces(s, l, a), StatementsFrom(s, l, a))
    decreases |s| - a
  {
    hide *;
    var b := NextSeparator(l, a);
    var st, ps := PieceStatement(s, l, a, b), if HasCode(s, l, Piece(a, b)) then [Piece(a, b)] else [];
    LintFirst(s, l, a, b);
    OneStatement(s, l, a, b);
    if b < |l| {
      StatementsOfPieces(s, l, b + 1);
      StatementsAppend(s, l, ps, st, LintPieces(s, l, b + 1), StatementsFrom(s, l, b + 1));
    } else {
      assert ps + [] == ps && st + [] == st;
    }
  }

  /** The output of the lint splitter, piece by piece: the prefix is the source between the
      previous separator and the first code, and the line is that of the first code. */
  lemma StatementsAreReadOff(s: string, l: seq<Label>, k: nat)
    requires |s| == |l| && k < |LintPieces(s, l, 0)|
    ensures |StatementsFrom(s, l, 0)| == |LintPieces(s, l, 0)|
    ensures var p := LintPieces(s, l, 0)[k];
      HasCode(s, l, p) && ReadOff(s, l, StatementsFrom(s, l, 0)[k], p, FirstCode(s, l, p.start, p.end).value)
  {
    hide StatementsFrom, Pieces, LintPieces;
    StatementsOfPieces(s, l, 0);
    PiecesTile(l, 0);
    LintPiecesAre(s, l, 0);
    assert LintPieces(s, l, 0)[k] in Pieces(l, 0);
    assert IsStatementOf(s, l, LintPieces(s, l, 0)[k], StatementsFrom(s, l, 0)[k]);
  }

  /** A line number counts the newlines before it. */
  lemma {:induction false} NewlinesAreCounted(s: string, n: nat)
    requires n <= |s|
    ensures Newlines(s, n) == |set k: nat | k < n && s[k] == '\n'|
  {
    var all := set k: nat | k < n && s[k] == '\n';
    if n == 0 {
      assert all == {};
    } else {
      NewlinesAreCounted(s, n - 1);
      var before := set k: nat | k < n - 1 && s[k] == '\n';
      assert all == before + if s[n - 1] == '\n' then {n - 1} else {};
    }
  }

  /** `code` stands at the places `at`, which are those of `[a, b)` outside comments, in order. */
  predicate StandsAt(s: string, l: seq<Label>, a: nat, b: nat, code: string, at: seq<nat>)
    requires a <= b <= |s| == |l|
  {
    && |at| == |code| && (forall i, j | 0 <= i < j < |at| :: at[i] < at[j])
    && (forall i | 0 <= i < |at| :: a <= at[i] < b && l[at[i]] != Comment && code[i] == s[at[i]])
    && (forall k | a <= k < b && l[k] != Comment :: k in at)
  }

  lemma OneMoreStands(s: string, l: seq<Label>, a: nat, b: nat, code: string, at: seq<nat>)
    requires a <= b < |s| == |l| && StandsAt(s, l, a, b, code, at) && l[b] != Comment
    ensures StandsAt(s, l, a, b + 1, code + [s[b]], at + [b])
  {
    var more := at + [b];
    assert more[|at|] == b;
    forall k | a <= k < b + 1 && l[k] != Comment ensures k in more {
      if k < b { assert k in at; }
    }
  }

  /** The code of a stretch is what stands there outside comments, character by character. */
  lemma {:induction false} CodeIs(s: string, l: seq<Label>, a: nat, b: nat) returns (at: seq<nat>)
    requires a <= b <= |s| == |l|
    ensures StandsAt(s, l, a, b, CodeIn(s, l, a, b), at)
  {
    at := [];
    if a < b {
      at := CodeIs(s, l, a, b - 1);
      CodeGrows(s, l, a, b);
      var before := CodeIn(s, l, a, b - 1);
      hide CodeIn, StandsAt;
      if l[b - 1] != Comment {
        OneMoreStands(s, l, a, b - 1, before, at);
        at := at + [b - 1];
      } else {
        NoMoreStands(s, l, a, b - 1, before, at);
      }
    }
  }

  lemma {:induction false} CodeGrows(s: string, l: seq<Label>, a: nat, b: nat)
    requires a < b <= |s| == |l|
    ensures CodeIn(s, l, a, b) == CodeIn(s, l, a, b - 1) + if l[b - 1] == Comment then [] else [s[b - 1]]
  {
  }

  lemma NoMoreStands(s: string, l: seq<Label>, a: nat, b: nat, code: string, at: seq<nat>)
    requires a <= b < |s| == |l| && StandsAt(s, l, a, b, code, at) && l[b] == Comment
    ensures StandsAt(s, l, a, b + 1, code, at)
  {
  }

  // ----- Erasing comments -----

  function Joined(parts: seq<string>): string {
    if parts == [] then [] else if |parts| == 1 then parts[0] else parts[0] + ";" + Joined(parts[1..])
  }

  function Codes(s: string, l: seq<Label>, ps: seq<Piece>): (r: seq<string>)
    requires |s| == |l| && forall p | p in ps :: p.start <= p.end <= |s|
    ensures |r| == |ps| && forall k | 0 <= k < |ps| :: r[k] == CodeIn(s, l, ps[k].start, ps[k].end)
  {
    seq(|ps|, k requires 0 <= k < |ps| => CodeIn(s, l, ps[k].start, ps[k].end))
  }

  lemma {:induction false} CodeSplits(s: string, l: seq<Label>, a: nat, b: nat, c: nat)
    requires a <= b <= c <= |s| == |l|
    ensures CodeIn(s, l, a, c) == CodeIn(s, l, a, b) + CodeIn(s, l, b, c)
  {
    if b < c { CodeSplits(s, l, a, b, c - 1); }
  }

  lemma JoinedCons(x: string, xs: seq<string>)
    requires xs != []
    ensures Joined([x] + xs) == x + ";" + Joined(xs)
  {
    assert ([x] + xs)[1..] == xs;
  }

  lemma CodesCons(s: string, l: seq<Label>, p: Piece, ps: seq<Piece>)
    requires |s| == |l| && forall q | q in [p] + ps :: q.start <= q.end <= |s|
    ensures forall q | q in ps :: q.start <= q.end <= |s|
    ensures p.start <= p.end <= |s| && Codes(s, l, [p] + ps) == [CodeIn(s, l, p.start, p.end)] + Codes(s, l, ps)
  {
    hide CodeIn;
    assert p in [p] + ps;
    assert forall q | q in ps :: q in [p] + ps;
  }

  /** The code around the separator at `b`. */
  lemma CodeAround(s: string, l: seq<Label>, a: nat, b: nat)
    requires a <= b < |s| == |l| && l[b] == Separator && s[b] == ';'
    ensures CodeIn(s, l, a, |s|) == CodeIn(s, l, a, b) + ";" + CodeIn(s, l, b + 1, |s|)
  {
    CodeSplits(s, l, a, b, |s|);
    CodeSplits(s, l, b, b + 1, |s|);
    assert CodeIn(s, l, b, b + 1) == CodeIn(s, l, b, b) + [s[b]] == ";";
    hide CodeIn;
  }

  lemma {:induction false} ErasedFrom(s: string, l: seq<Label>, a: nat)
    requires a <= |s| == |l| && forall k | a <= k < |s| && l[k] == Separator :: s[k] == ';'
    requires forall p | p in Pieces(l, a) :: p.start <= p.end <= |s|
    ensures CodeIn(s, l, a, |s|) == Joined(Codes(s, l, Pieces(l, a)))
    decreases |s| - a
  {
    hide Pieces, CodeIn, Codes;
    var b := NextSeparator(l, a);
    PiecesFirst(l, a, b);
    if b < |l| {
      var rest := Pieces(l, b + 1);
      CodesCons(s, l, Piece(a, b), rest);
      ErasedFrom(s, l, b + 1);
      CodeAround(s, l, a, b);
      JoinedCons(CodeIn(s, l, a, b), Codes(s, l, rest));
    } else {
      CodesCons(s, l, Piece(a, b), []);
    }
  }

  /** With comments erased, the script is its pieces' code joined by the top-level semicolons; the
      pieces that are dropped are blank. */
  lemma ErasedScriptIsJoined(s: string)
    ensures var l := Labels(s);
      && (forall p | p in Pieces(l, 0) :: PieceOk(l, p))
      && CodeIn(s, l, 0, |s|) == Joined(Codes(s, l, Pieces(l, 0)))
      && (forall p | p in Pieces(l, 0) && p !in LintPieces(s, l, 0) :: AllBlank(CodeIn(s, l, p.start, p.end)))
  {
    var l := Labels(s);
    assert l[0..] == l;
    LabelsLabel(s, l, 0);
    SeparatorsAreSemicolons(s, l, 0);
    PiecesTile(l, 0);
    ErasedFrom(s, l, 0);
    LintPiecesAre(s, l, 0);
    hide Pieces, LintPieces, CodeIn, AllBlank, Joined, Labelled;
    forall p | p in Pieces(l, 0) && p !in LintPieces(s, l, 0) ensures AllBlank(CodeIn(s, l, p.start, p.end)) {
      BlankCode(s, l, p.start, p.end);
    }
  }

  // ----- Lint and migrator -----

  /** White space is the white space and the line terminators of ECMAScript. */
  lemma BlanksAre(c: char)
    ensures IsBlank(c) <==>
      || c in "\t\n\U{0B}\U{0C}\r \U{A0}\U{1680}\U{2028}\U{2029}\U{202F}\U{205F}\U{3000}\U{FEFF}"
      || '\U{2000}' <= c <= '\U{200A}'
  {
  }

  lemma {:induction false} TrimStartBlank(x: string)
    ensures AllBlank(x) <==> AllBlank(TrimStart(x))
    ensures AllBlank(x) ==> TrimStart(x) == []
  {
    if x != [] && IsBlank(x[0]) {
      TrimStartBlank(x[1..]);
      assert AllBlank(x) <==> AllBlank(x[1..]) by { assert x == [x[0]] + x[1..]; }
    }
  }

  lemma {:induction false} TrimEndBlank(x: string)
    ensures AllBlank(x) <==> TrimEnd(x) == []
  {
    if x != [] && IsBlank(x[|x| - 1]) {
      TrimEndBlank(x[..|x| - 1]);
      assert AllBlank(x) <==> AllBlank(x[..|x| - 1]) by { assert x == x[..|x| - 1] + [x[|x| - 1]]; }
    }
  }

  lemma TrimEmpty(x: string)
    ensures Trim(x) == [] <==> AllBlank(x)
  {
    TrimStartBlank(x);
    TrimEndBlank(TrimStart(x));
  }

  /** Trimming cuts off white space on both sides, and as much as there is. */
  lemma TrimIs(x: string) returns (i: nat, j: nat)
    ensures i <= j <= |x| && Trim(x) == x[i..j] && AllBlank(x[..i]) && AllBlank(x[j..])
    ensures i < j ==> !IsBlank(x[i]) && !IsBlank(x[j - 1])
  {
    i := TrimStartIs(x);
    j := TrimEndIs(x[i..]);
    j := i + j;
    assert x[i..][..j - i] == x[i..j] && x[i..][j - i..] == x[j..];
    hide AllBlank, IsBlank;
  }

  lemma {:induction false} TrimStartIs(x: string) returns (i: nat)
    ensures i <= |x| && TrimStart(x) == x[i..] && AllBlank(x[..i]) && (i < |x| ==> !IsBlank(x[i]))
  {
    i := 0;
    if x != [] && IsBlank(x[0]) {
      i := TrimStartIs(x[1..]);
      assert x[..i + 1] == [x[0]] + x[1..][..i] && x[1..][i..] == x[i + 1..];
      i := i + 1;
    }
  }

  lemma {:induction false} TrimEndIs(x: string) returns (j: nat)
    ensures j <= |x| && TrimEnd(x) == x[..j] && AllBlank(x[j..]) && (0 < j ==> !IsBlank(x[j - 1]))
  {
    j := |x|;
    if x != [] && IsBlank(x[|x| - 1]) {
      var rest := x[..|x| - 1];
      j := TrimEndIs(rest);
      assert x[j..] == rest[j..] + [x[|x| - 1]] && rest[..j] == x[..j];
    }
  }

  /** `script` is the trimmed raw text of piece `p`. */
  predicate IsScriptOf(s: string, p: Piece, script: string) {
    p.start <= p.end <= |s| && script == Trim(s[p.start..p.end])
  }

  predicate AreScriptsOf(s: string, ps: seq<Piece>, scripts: seq<string>) {
    |scripts| == |ps| && forall k | 0 <= k < |ps| :: IsScriptOf(s, ps[k], scripts[k])
  }

  lemma ScriptsAppend(s: string, p: seq<Piece>, x: seq<string>, ps: seq<Piece>, xs: seq<string>)
    requires AreScriptsOf(s, p, x) && AreScriptsOf(s, ps, xs)
    ensures AreScriptsOf(s, p + ps, x + xs)
  {
    hide IsScriptOf;
  }

  lemma KeptIfText(s: string, p: Piece)
    requires p.start <= p.end <= |s|
    ensures AreScriptsOf(s, if HasText(s, p) then [p] else [], Kept(s[p.start..p.end]))
  {
    TrimEmpty(s[p.start..p.end]);
    hide Trim, AllBlank;
  }

  lemma {:induction false} MigrateFirst(s: string, l: seq<Label>, a: nat, b: nat)
    requires a <= |s| == |l| && b == NextSeparator(l, a)
    ensures ScriptsFrom(s, l, a) == Kept(s[a..b]) + if b < |l| then ScriptsFrom(s, l, b + 1) else []
    ensures MigratePieces(s, l, a)
      == (if HasText(s, Piece(a, b)) then [Piece(a, b)] else []) + if b < |l| then MigratePieces(s, l, b + 1) else []
  {
    hide *;
    ScriptsFirst(s, l, a, b);
    MigratePiecesFirst(s, l, a, b);
  }

  lemma {:induction false} ScriptsFirst(s: string, l: seq<Label>, a: nat, b: nat)
    requires a <= |s| == |l| && b == NextSeparator(l, a)
    ensures ScriptsFrom(s, l, a) == Kept(s[a..b]) + if b < |l| then ScriptsFrom(s, l, b + 1) else []
  {
    hide Kept, NextSeparator;
  }

  lemma {:induction false} MigratePiecesFirst(s: string, l: seq<Label>, a: nat, b: nat)
    requires a <= |s| == |l| && b == NextSeparator(l, a)
    ensures MigratePieces(s, l, a)
      == (if HasText(s, Piece(a, b)) then [Piece(a, b)] else []) + if b < |l| then MigratePieces(s, l, b + 1) else []
  {
    hide HasText, NextSeparator;
  }

  /** The output of the migrator's splitter, piece by piece. */
  lemma {:induction false} ScriptsOfPieces(s: string, l: seq<Label>, a: nat)
    requires a <= |s| == |l|
    ensures AreScriptsOf(s, MigratePieces(s, l, a), ScriptsFrom(s, l, a))
    decreases |s| - a
  {
    hide *;
    var b := NextSeparator(l, a);
    var x, ps := Kept(s[a..b]), if HasText(s, Piece(a, b)) then [Piece(a, b)] else [];
    MigrateFirst(s, l, a, b);
    KeptIfText(s, Piece(a, b));
    if b < |l| {
      ScriptsOfPieces(s, l, b + 1);
      ScriptsAppend(s, ps, x, MigratePieces(s, l, b + 1), ScriptsFrom(s, l, b + 1));
    } else {
      assert ps + [] == ps && x + [] == x;
    }
  }

  /** Text, but only comments and white space. */
  predicate CommentOnly(s: string, l: seq<Label>, p: Piece)
    requires |s| == |l|
  {
    HasText(s, p) && !HasCode(s, l, p)
  }

  lemma CodeIsText(s: string, l: seq<Label>, p: Piece)
    requires |s| == |l| && HasCode(s, l, p)
    ensures HasText(s, p)
  {
    var f := FirstCode(s, l, p.start, p.end).value;
    assert s[p.start..p.end][f - p.start] == s[f];
  }

  ghost predicate AgreeUnlessCommentOnly(
    s: string, l: seq<Label>, all: seq<Piece>, lints: seq<Piece>, migrates: seq<Piece>)
    requires |s| == |l|
  {
    if forall p | p in all :: !CommentOnly(s, l, p) then lints == migrates else |lints| < |migrates|
  }

  lemma AgreementAppends(
    s: string, l: seq<Label>, p: Piece, all: seq<Piece>, lints: seq<Piece>, migrates: seq<Piece>)
    requires |s| == |l| && AgreeUnlessCommentOnly(s, l, all, lints, migrates)
    requires HasCode(s, l, p) ==> HasText(s, p)
    ensures AgreeUnlessCommentOnly(
      s, l, [p] + all, (if HasCode(s, l, p) then [p] else []) + lints, (if HasText(s, p) then [p] else []) + migrates)
  {
    hide HasCode, HasText;
    var more := [p] + all;
    assert more[0] == p && more[1..] == all;
    if forall q | q in all :: !CommentOnly(s, l, q) {
      if !CommentOnly(s, l, p) {
        forall q | q in more ensures !CommentOnly(s, l, q) { assert q == p || q in all; }
      }
    } else {
      var q :| q in all && CommentOnly(s, l, q);
      assert q in more;
    }
  }

  lemma {:induction false} PieceListsAgreeIff(s: string, l: seq<Label>, a: nat)
    requires a <= |s| == |l|
    ensures AgreeUnlessCommentOnly(s, l, Pieces(l, a), LintPieces(s, l, a), MigratePieces(s, l, a))
    decreases |l| - a
  {
    hide *;
    var b := NextSeparator(l, a);
    var p := Piece(a, b);
    if HasCode(s, l, p) { CodeIsText(s, l, p); }
    PiecesFirst(l, a, b);
    LintFirst(s, l, a, b);
    MigrateFirst(s, l, a, b);
    if b < |l| {
      PieceListsAgreeIff(s, l, b + 1);
      AgreementAppends(s, l, p, Pieces(l, b + 1), LintPieces(s, l, b + 1), MigratePieces(s, l, b + 1));
    } else {
      assert AgreeUnlessCommentOnly(s, l, [], [], []) by { NothingAgrees(s, l); }
      AgreementAppends(s, l, p, [], [], []);
    }
  }

  lemma NothingAgrees(s: string, l: seq<Label>)
    requires |s| == |l|
    ensures AgreeUnlessCommentOnly(s, l, [], [], [])
  {
  }

  /** Lint and migrator see the same statements, piece for piece, exactly when no piece consists of
      comments alone; one such piece and already their counts differ. */
  lemma BoundariesAgreeIff(s: string)
    ensures var l := Labels(s);
      var agree := forall p | p in Pieces(l, 0) :: !CommentOnly(s, l, p);
      && (agree <==> LintPieces(s, l, 0) == MigratePieces(s, l, 0))
      && (agree <==> |StatementsFrom(s, l, 0)| == |ScriptsFrom(s, l, 0)|)
      && |StatementsFrom(s, l, 0)| <= |ScriptsFrom(s, l, 0)|
  {
    hide StatementsFrom, ScriptsFrom, Pieces, LintPieces, MigratePieces, CommentOnly, IsStatementOf, IsScriptOf;
    var l := Labels(s);
    PieceListsAgreeIff(s, l, 0);
    StatementsOfPieces(s, l, 0);
    ScriptsOfPieces(s, l, 0);
  }

  /** A trailing comment: the migrator runs it, the lint does not see it. */
  lemma CommentOnlyDisagrees()
    ensures var s := "-- x";
      |StatementsFrom(s, Labels(s), 0)| == 0 && ScriptsFrom(s, Labels(s), 0) == [s]
  {
    var s := "-- x";
    var l := Labels(s);
    assert LineEnd(s, 4) == 4 && LineEnd(s, 3) == 4 && LineEnd(s, 2) == 4;
    assert LexemeEnd(s, 0) == 4;
    assert LabelsFrom(s, 4) == [];
    assert l == Times(Comment, 4);
    SeparatorIs(l, 0, 4);
    assert s[0..4] == s;
    assert TrimStart(s) == s && TrimEnd(s) == s;
    FirstOfRun(s, l, 0, 0, 4);
  }

  // ----- The lint -----

  datatype Finding = Finding(line: nat, keyword: string, statement: string, allowedReason: Option<string>)

  function FirstLine(x: string): string {
    if x == [] || x[0] == '\n' then [] else [x[0]] + FirstLine(x[1..])
  }

  /** The first line is the text before the first newline, or all of it. */
  lemma {:induction false} FirstLineIs(x: string)
    ensures var r := FirstLine(x); r <= x && '\n' !in r && (r == x || x[|r|] == '\n')
  {
    if x != [] && x[0] != '\n' {
      FirstLineIs(x[1..]);
      assert x == [x[0]] + x[1..];
    }
  }

  /** `f` is what the lint has to say about statement `st`. `banned` is the search for a mutating keyword
      behind the masking of legal DDL, `pragma` the search for the allow comment. */
  predicate IsFinding(st: Statement, f: Finding, banned: string -> Option<string>, pragma: string -> Option<string>) {
    var code := Trim(st.code);
    && banned(code) == Some(f.keyword) && f.line == st.line && f.statement == Trim(FirstLine(code))
    && f.allowedReason == pragma(st.prefix)
  }

  predicate HasBanned(st: Statement, banned: string -> Option<string>) {
    banned(Trim(st.code)).Some?
  }

  /** The statements `at`, in order, are all those among the first `n` with a banned keyword, and finding
      `k` is that of the `k`-th. */
  predicate AreFindings(
    sts: seq<Statement>, n: nat, at: seq<nat>, findings: seq<Finding>,
    banned: string -> Option<string>, pragma: string -> Option<string>)
    requires n <= |sts|
  {
    && |findings| == |at|
    && (forall i, j | 0 <= i < j < |at| :: at[i] < at[j])
    && (forall k | 0 <= k < |at| :: at[k] < n && IsFinding(sts[at[k]], findings[k], banned, pragma))
    && (forall i | 0 <= i < n :: HasBanned(sts[i], banned) <==> i in at)
  }

  lemma OneMore(
    sts: seq<Statement>, n: nat, at: seq<nat>, findings: seq<Finding>, f: Finding,
    banned: string -> Option<string>, pragma: string -> Option<string>)
    requires n < |sts| && AreFindings(sts, n, at, findings, banned, pragma) && IsFinding(sts[n], f, banned, pragma)
    ensures AreFindings(sts, n + 1, at + [n], findings + [f], banned, pragma)
  {
    hide Trim, FirstLine;
    assert HasBanned(sts[n], banned);
    hide IsFinding, HasBanned;
  }

  lemma NoMore(
    sts: seq<Statement>, n: nat, at: seq<nat>, findings: seq<Finding>,
    banned: string -> Option<string>, pragma: string -> Option<string>)
    requires n < |sts| && AreFindings(sts, n, at, findings, banned, pragma) && !HasBanned(sts[n], banned)
    ensures AreFindings(sts, n + 1, at, findings, banned, pragma)
  {
    hide IsFinding, HasBanned;
  }

  method LintSchemaSql(sqlText: string, banned: string -> Option<string>, pragma: string -> Option<string>)
    returns (findings: seq<Finding>)
    ensures var sts := StatementsFrom(sqlText, Labels(sqlText), 0);
      exists at :: AreFindings(sts, |sts|, at, findings, banned, pragma)
  {
    var sts := SplitStatements(sqlText);
    hide StatementsFrom, Trim, FirstLine;
    findings := [];
    ghost var at: seq<nat> := [];
    for k := 0 to |sts|
      invariant AreFindings(sts, k, at, findings, banned, pragma)
    {
      hide AreFindings;
      var code := Trim(sts[k].code);
      match banned(code) {
        case None => NoMore(sts, k, at, findings, banned, pragma);
        case Some(keyword) =>
          var f := Finding(sts[k].line, keyword, Trim(FirstLine(code)), pragma(sts[k].prefix));
          OneMore(sts, k, at, findings, f, banned, pragma);
          findings, at := findings + [f], at + [k];
      }
    }
  }

  /** A statement is exempted only by a comment of its own, between the previous separator and its
      first code: never by a literal, an earlier statement or a later one. */
  lemma PragmaNeedsOwnComment(
    s: string, k: nat, f: Finding, banned: string -> Option<string>, pragma: string -> Option<string>)
    returns (j: nat)
    requires forall x: string :: AllBlank(x) ==> pragma(x).None?
    requires k < |StatementsFrom(s, Labels(s), 0)| && f.allowedReason.Some?
    requires IsFinding(StatementsFrom(s, Labels(s), 0)[k], f, banned, pragma)
    ensures var l := Labels(s);
      && k < |LintPieces(s, l, 0)|
      && var p := LintPieces(s, l, 0)[k];
      && HasCode(s, l, p) && p.start <= j < FirstCode(s, l, p.start, p.end).value && l[j] == Comment
  {
    hide StatementsFrom, LintPieces, Trim, Labels;
    var l := Labels(s);
    StatementsOfPieces(s, l, 0);
    StatementsAreReadOff(s, l, k);
    var st, p := StatementsFrom(s, l, 0)[k], LintPieces(s, l, 0)[k];
    var c := FirstCode(s, l, p.start, p.end).value;
    assert pragma(st.prefix).Some? && !AllBlank(s[p.start..c]);
    var i :| 0 <= i < |s[p.start..c]| && !IsBlank(s[p.start..c][i]);
    j := p.start + i;
    assert s[p.start..c][i] == s[j];
  }
}
