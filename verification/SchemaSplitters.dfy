/** The two splitter loops: the one of the schema lint and the one of the migrator. Both walk the
    script once with a set of mode flags; both are proved against the labels of `SqlLabels`. */
module SchemaSplitters {
  import opened Wrappers
  import opened SqlLabels

  // ----- One turn of either loop -----

  /** The mode after the next turn, and how many characters the turn consumes. */
  function Advance(s: string, i: nat, m: Mode): (r: (Mode, nat))
    requires i < |s| && ModeOk(m)
    ensures 1 <= r.1 <= |s| - i
  {
    match m
    case Code => Opens(s, i)
    case InLineComment => (if s[i] == '\n' then Code else m, 1)
    case InBlockComment(depth) =>
      if PairAt(s, i, '/', '*') then (InBlockComment(depth + 1), 2)
      else if PairAt(s, i, '*', '/') then (if depth == 1 then Code else InBlockComment(depth - 1), 2)
      else (m, 1)
    case InDollar(tag) => if s[i] == '$' && HasAt(s, i, tag) then (Code, |tag|) else (m, 1)
    case InQuote(q) => if s[i] != q then (m, 1) else if PairAt(s, i, q, q) then (m, 2) else (Code, 1)
  }

  predicate ModeOk(m: Mode) {
    && (m.InBlockComment? ==> m.depth > 0)
    && (m.InDollar? ==> TagOk(m.tag))
    && (m.InQuote? ==> m.quote == '\'' || m.quote == '"')
  }

  predicate TagOk(tag: string) {
    |tag| >= 2 && tag[0] == '$' && '\n' !in tag
  }

  /** `l` labels `s` from the lexeme boundary `i` on. */
  ghost predicate Labelled(s: string, l: seq<Label>, i: nat)
    requires i <= |s| == |l|
    decreases |s| - i
  {
    i < |s| ==> HasLabel(l, i, LexemeEnd(s, i), LexemeLabel(s, i)) && Labelled(s, l, LexemeEnd(s, i))
  }

  predicate HasLabel(l: seq<Label>, i: nat, j: nat, lab: Label)
    requires i <= j <= |l|
  {
    forall k | i <= k < j :: l[k] == lab
  }

  /** `l` labels the unread rest of `s`, seen from inside mode `m`. */
  ghost predicate InStep(s: string, l: seq<Label>, i: nat, m: Mode)
    requires i <= |s| == |l|
  {
    HasLabel(l, i, ModeEnd(s, i, m), ModeLabel(m)) && Labelled(s, l, ModeEnd(s, i, m))
  }

  lemma {:induction false} LabelsLabel(s: string, l: seq<Label>, i: nat)
    requires i <= |s| == |l| && l[i..] == LabelsFrom(s, i)
    ensures Labelled(s, l, i)
    decreases |s| - i
  {
    if i < |s| {
      var e := LexemeEnd(s, i);
      var first := Times(LexemeLabel(s, i), e - i);
      assert l[i..] == first + LabelsFrom(s, e);
      assert l[e..] == l[i..][e - i..] == LabelsFrom(s, e);
      forall k | i <= k < e ensures l[k] == LexemeLabel(s, i) { assert l[k] == l[i..][k - i] == first[k - i]; }
      LabelsLabel(s, l, e);
    }
  }

  /** The labels that one turn passes over. */
  function TurnLabel(s: string, i: nat, m: Mode): Label
    requires i < |s|
  {
    if m == Code then LexemeLabel(s, i) else ModeLabel(m)
  }

  lemma {:induction false} IdentHasNoNewline(s: string, i: nat)
    requires i <= |s|
    ensures forall k | i <= k < IdentEnd(s, i) :: s[k] != '\n' && s[k] != '$'
    decreases |s| - i
  {
    if i < |s| && IdentPart(s[i]) { IdentHasNoNewline(s, i + 1); }
  }

  lemma OpensOk(s: string, i: nat)
    requires i < |s|
    ensures ModeOk(Opens(s, i).0) && (Opens(s, i).0 != Code ==> s[i] != ';')
    ensures forall k | i < k < i + Opens(s, i).1 :: s[k] != '\n'
    ensures Opens(s, i).1 == 1 || !IsBlank(s[i])
  {
    if s[i] == '$' && TagLength(s, i) > 0 {
      if IdentStart(s[i + 1]) { IdentHasNoNewline(s, i + 2); }
    }
  }

  /** Inside a lexeme: the turn stays in it or ends exactly where it ends. */
  lemma InsideTurn(s: string, i: nat, m: Mode)
    requires i < |s| && ModeOk(m) && m != Code
    ensures var (m', k) := Advance(s, i, m);
      && ModeOk(m') && (m' == Code || ModeLabel(m') == ModeLabel(m))
      && i + k <= ModeEnd(s, i, m) == ModeEnd(s, i + k, m')
      && (forall j | i < j < i + k :: s[j] != '\n')
      && (k == 1 || !IsBlank(s[i]))
  {
    var (m', k) := Advance(s, i, m);
    match m
    case InLineComment =>
      assert LineEnd(s, i) == if s[i] == '\n' then i + 1 else LineEnd(s, i + 1);
    case InBlockComment(depth) =>
      assert BlockEnd(s, i + k, 0) == i + k;
    case InDollar(tag) =>
      if k > 1 {
        forall j | i < j < i + k ensures s[j] != '\n' { assert s[j] == s[i..i + k][j - i]; }
      }
    case InQuote(q) =>
  }

  /** One turn keeps the labels of the rest in step with the mode. */
  lemma TurnKeepsLabels(s: string, l: seq<Label>, i: nat, m: Mode, m': Mode, k: nat)
    requires i < |s| == |l| && ModeOk(m) && InStep(s, l, i, m)
    requires (m', k) == Advance(s, i, m)
    ensures InStep(s, l, i + k, m')
    ensures HasLabel(l, i, i + k, TurnLabel(s, i, m))
  {
    if m == Code { OpensOk(s, i); } else { InsideTurn(s, i, m); }
  }

  // ----- What the buffers of the schema lint hold -----

  datatype Buffers = Buffers(raw: string, code: string, prefix: string, codeLine: nat)

  const NO_TEXT := Buffers("", "", "", 0)

  function AddRaw(b: Buffers, t: string): Buffers {
    b.(raw := b.raw + t)
  }

  function PushCode(b: Buffers, t: string, line: nat): Buffers
    requires |t| <= |b.raw|
  {
    var seen := if b.codeLine == 0 && !AllBlank(t)
      then b.(codeLine := line, prefix := b.raw[..|b.raw| - |t|]) else b;
    seen.(code := b.code + t)
  }

  /** What `flush` appends to the output. */
  function Flushed(b: Buffers): seq<Statement> {
    if AllBlank(b.code) then [] else [Statement(b.prefix, b.code, b.codeLine)]
  }

  /** The buffers describe the piece read so far, `[a, i)`. */
  ghost predicate Holds(s: string, l: seq<Label>, a: nat, i: nat, b: Buffers)
    requires a <= i <= |s| == |l|
  {
    HoldsAs(s, a, i, b, CodeIn(s, l, a, i), FirstCode(s, l, a, i))
  }

  ghost predicate HoldsAs(s: string, a: nat, i: nat, b: Buffers, code: string, f: Option<nat>)
    requires a <= i <= |s| && (f.Some? ==> a <= f.value <= |s|)
  {
    b.raw == s[a..i] && b.code == code && Marks(s, a, f, b)
  }

  ghost predicate Marks(s: string, a: nat, f: Option<nat>, b: Buffers)
    requires f.Some? ==> a <= f.value <= |s|
  {
    if f.None? then b.codeLine == 0
    else b.codeLine == 1 + Newlines(s, f.value) && b.prefix == s[a..f.value]
  }

  predicate AllComment(l: seq<Label>, i: nat, j: nat)
    requires i <= j <= |l|
  {
    forall k | i <= k < j :: l[k] == Comment
  }

  predicate NoComment(l: seq<Label>, i: nat, j: nat)
    requires i <= j <= |l|
  {
    forall k | i <= k < j :: l[k] != Comment
  }

  lemma {:induction false} CodeOfComment(s: string, l: seq<Label>, a: nat, i: nat, j: nat)
    requires a <= i <= j <= |s| == |l| && AllComment(l, i, j)
    ensures CodeIn(s, l, a, j) == CodeIn(s, l, a, i)
  {
    if i < j { CodeOfComment(s, l, a, i, j - 1); }
  }

  lemma {:induction false} CodeOfCode(s: string, l: seq<Label>, a: nat, i: nat, t: string)
    requires a <= i <= i + |t| <= |s| == |l| && NoComment(l, i, i + |t|) && t == s[i..i + |t|]
    ensures CodeIn(s, l, a, i + |t|) == CodeIn(s, l, a, i) + t
  {
    if |t| > 0 {
      var most := t[..|t| - 1];
      CodeOfCode(s, l, a, i, most);
      assert t == most + [s[i + |t| - 1]];
    }
  }

  lemma {:induction false} FirstOfRun(s: string, l: seq<Label>, a: nat, i: nat, j: nat)
    requires a <= i < j <= |s| == |l|
    ensures FirstCode(s, l, a, i).Some? ==> FirstCode(s, l, a, j) == FirstCode(s, l, a, i)
    ensures FirstCode(s, l, a, i).None? && l[i] != Comment && !IsBlank(s[i]) ==> FirstCode(s, l, a, j) == Some(i)
    ensures FirstCode(s, l, a, i).None? && (forall k | i <= k < j :: l[k] == Comment || IsBlank(s[k]))
      ==> FirstCode(s, l, a, j) == None
  {
    if i + 1 < j { FirstOfRun(s, l, a, i, j - 1); }
  }

  lemma BlankAppend(x: string, c: char)
    ensures AllBlank(x + [c]) <==> AllBlank(x) && IsBlank(c)
  {
    hide IsBlank;
    var y := x + [c];
    assert y[|x|] == c && forall k | 0 <= k < |x| :: y[k] == x[k];
  }

  lemma {:induction false} BlankCode(s: string, l: seq<Label>, a: nat, b: nat)
    requires a <= b <= |s| == |l|
    ensures AllBlank(CodeIn(s, l, a, b)) <==> FirstCode(s, l, a, b).None?
  {
    hide AllBlank, IsBlank;
    if a < b {
      BlankCode(s, l, a, b - 1);
      var before, last := CodeIn(s, l, a, b - 1), s[b - 1];
      assert CodeIn(s, l, a, b) == if l[b - 1] == Comment then before else before + [last];
      BlankAppend(before, last);
    } else {
      NothingIsBlank();
    }
  }

  lemma NothingIsBlank()
    ensures AllBlank([])
  {
  }

  /** A turn inside a comment only extends the raw text. */
  lemma CommentTurn(s: string, l: seq<Label>, a: nat, i: nat, b: Buffers, t: string)
    requires a <= i < i + |t| <= |s| == |l| && Holds(s, l, a, i, b) && t == s[i..i + |t|]
    requires AllComment(l, i, i + |t|)
    ensures Holds(s, l, a, i + |t|, AddRaw(b, t))
  {
    CodeOfComment(s, l, a, i, i + |t|);
    FirstOfRun(s, l, a, i, i + |t|);
    AddHolds(s, a, i, b, CodeIn(s, l, a, i), FirstCode(s, l, a, i), t);
  }

  /** A turn outside comments extends both texts, and may be the first code of the piece. */
  lemma CodeTurn(s: string, l: seq<Label>, a: nat, i: nat, b: Buffers, t: string, line: nat)
    requires a <= i < i + |t| <= |s| == |l| && Holds(s, l, a, i, b) && t == s[i..i + |t|]
    requires NoComment(l, i, i + |t|)
    requires |t| == 1 || !IsBlank(s[i])
    requires line == 1 + Newlines(s, i) + if s[i] == '\n' then 1 else 0
    ensures Holds(s, l, a, i + |t|, PushCode(AddRaw(b, t), t, line))
  {
    AfterCode(s, l, a, i, t);
    AddHolds(s, a, i, b, CodeIn(s, l, a, i), FirstCode(s, l, a, i), t);
    PushHolds(s, a, i, AddRaw(b, t), CodeIn(s, l, a, i), FirstCode(s, l, a, i), t, line);
  }

  lemma AddHolds(s: string, a: nat, i: nat, b: Buffers, code: string, f: Option<nat>, t: string)
    requires a <= i <= i + |t| <= |s| && (f.Some? ==> a <= f.value <= |s|) && t == s[i..i + |t|]
    requires HoldsAs(s, a, i, b, code, f)
    ensures HoldsAs(s, a, i + |t|, AddRaw(b, t), code, f)
  {
    assert s[a..i] + t == s[a..i + |t|];
  }

  lemma PushHolds(s: string, a: nat, i: nat, b: Buffers, code: string, f: Option<nat>, t: string, line: nat)
    requires a <= i < i + |t| <= |s| && (f.Some? ==> a <= f.value <= |s|) && t == s[i..i + |t|]
    requires HoldsAs(s, a, i + |t|, b, code, f)
    requires |t| == 1 || !IsBlank(s[i])
    requires line == 1 + Newlines(s, i) + if s[i] == '\n' then 1 else 0
    ensures HoldsAs(s, a, i + |t|, PushCode(b, t, line), code + t, if f.Some? || IsBlank(s[i]) then f else Some(i))
  {
    assert t[0] == s[i];
    assert AllBlank(t) <==> IsBlank(s[i]);
    assert |b.raw| - |t| == i - a;
    assert s[a..i + |t|][..i - a] == s[a..i];
    hide AllBlank, IsBlank, Newlines;
  }

  lemma AfterCode(s: string, l: seq<Label>, a: nat, i: nat, t: string)
    requires a <= i < i + |t| <= |s| == |l| && (|t| == 1 || !IsBlank(s[i]))
    requires NoComment(l, i, i + |t|) && t == s[i..i + |t|]
    ensures CodeIn(s, l, a, i + |t|) == CodeIn(s, l, a, i) + t
    ensures var f := FirstCode(s, l, a, i);
      FirstCode(s, l, a, i + |t|) == if f.Some? || IsBlank(s[i]) then f else Some(i)
  {
    CodeOfCode(s, l, a, i, t);
    FirstOfRun(s, l, a, i, i + |t|);
  }

  lemma {:induction false} SeparatorIs(l: seq<Label>, a: nat, b: nat)
    requires a <= b <= |l| && (b < |l| ==> l[b] == Separator)
    requires forall k | a <= k < b :: l[k] != Separator
    ensures NextSeparator(l, a) == b
  {
  }

  lemma FlushedIs(s: string, l: seq<Label>, a: nat, i: nat, b: Buffers)
    requires a <= i <= |s| == |l| && Holds(s, l, a, i, b)
    ensures Flushed(b) == PieceStatement(s, l, a, i)
  {
    BlankCode(s, l, a, i);
  }

  lemma {:induction false} NewlinesInRun(s: string, i: nat, j: nat)
    requires i < j <= |s| && forall k | i < k < j :: s[k] != '\n'
    ensures Newlines(s, j) == Newlines(s, i) + if s[i] == '\n' then 1 else 0
  {
    if i + 1 < j { NewlinesInRun(s, i, j - 1); }
  }

  // ----- The chain of mode tests that both loops run through -----

  datatype Flags = Flags(
    inSingle: bool, inDouble: bool, inLineComment: bool, blockDepth: nat, dollarTag: Option<string>)

  const NO_FLAGS := Flags(false, false, false, 0, None)

  /** The flags that stand for a mode: at most one of them is up. */
  function FlagsOf(m: Mode): Flags {
    match m
    case Code => NO_FLAGS
    case InLineComment => NO_FLAGS.(inLineComment := true)
    case InBlockComment(depth) => NO_FLAGS.(blockDepth := depth)
    case InDollar(tag) => NO_FLAGS.(dollarTag := Some(tag))
    case InQuote(q) => if q == '"' then NO_FLAGS.(inDouble := true) else NO_FLAGS.(inSingle := true)
  }

  /** What a turn consumes: no newline behind its first character, and no blank first unless alone. */
  lemma TurnText(s: string, i: nat, m: Mode)
    requires i < |s| && ModeOk(m)
    ensures var (m', k) := Advance(s, i, m);
      && ModeOk(m') && (k == 1 || !IsBlank(s[i]))
      && Newlines(s, i + k) == Newlines(s, i) + if s[i] == '\n' then 1 else 0
  {
    if m == Code { OpensOk(s, i); } else { InsideTurn(s, i, m); }
    NewlinesInRun(s, i, i + Advance(s, i, m).1);
  }

  /** One turn consumes `t`, which is `kind`, and leads from mode `m` to mode `m'`. */
  predicate IsTurn(s: string, i: nat, m: Mode, m': Mode, t: string, kind: Label)
    requires i < |s| && ModeOk(m)
  {
    (m', |t|) == Advance(s, i, m) && t == s[i..i + |t|] && kind == TurnLabel(s, i, m)
  }

  /** One turn: the text `t` it consumes, what that is, and the flags afterwards. */
  method TakeTurn(s: string, i: nat, f: Flags, ghost m: Mode)
    returns (f': Flags, t: string, kind: Label, ghost m': Mode)
    requires i < |s| && ModeOk(m) && f == FlagsOf(m)
    ensures |t| == Advance(s, i, m).1 && t == s[i..i + |t|] && kind == TurnLabel(s, i, m)
    ensures f' == FlagsOf(Advance(s, i, m).0)
    ensures ModeOk(m') && f' == FlagsOf(m') && IsTurn(s, i, m, m', t, kind)
  {
    m' := Advance(s, i, m).0;
    TurnText(s, i, m);
    var c := s[i];
    f', t, kind := f, s[i..i + 1], Literal;
    if f.inLineComment {
      kind := Comment;
      if c == '\n' { f' := f.(inLineComment := false); }
    } else if f.blockDepth > 0 {
      kind := Comment;
      if PairAt(s, i, '/', '*') {
        f', t := f.(blockDepth := f.blockDepth + 1), s[i..i + 2];
      } else if PairAt(s, i, '*', '/') {
        f', t := f.(blockDepth := f.blockDepth - 1), s[i..i + 2];
      }
    } else if f.dollarTag.Some? {
      if c == '$' && HasAt(s, i, f.dollarTag.value) { f', t := f.(dollarTag := None), f.dollarTag.value; }
    } else if f.inSingle {
      if c == '\'' {
        if PairAt(s, i, '\'', '\'') { t := s[i..i + 2]; } else { f' := f.(inSingle := false); }
      }
    } else if f.inDouble {
      if c == '"' {
        if PairAt(s, i, '"', '"') { t := s[i..i + 2]; } else { f' := f.(inDouble := false); }
      }
    } else if PairAt(s, i, '-', '-') {
      f', t, kind := f.(inLineComment := true), s[i..i + 2], Comment;
    } else if PairAt(s, i, '/', '*') {
      f', t, kind := f.(blockDepth := 1), s[i..i + 2], Comment;
    } else if c == '$' && TagLength(s, i) > 0 {
      t := s[i..i + TagLength(s, i)];
      f' := f.(dollarTag := Some(t));
    } else if c == '\'' {
      f' := f.(inSingle := true);
    } else if c == '"' {
      f' := f.(inDouble := true);
    } else {
      kind := if c == ';' then Separator else Plain;
    }
  }

  // ----- The splitter of the schema lint -----

  /** Between two turns: the labels of the rest, the piece start, the buffers and the output. */
  ghost predicate Between(s: string, l: seq<Label>, m: Mode, a: nat, i: nat, line: nat) {
    && a <= i <= |s| == |l| && l == Labels(s) && ModeOk(m) && InStep(s, l, i, m)
    && (forall k | a <= k < i :: l[k] != Separator) && line == 1 + Newlines(s, i)
  }

  /** A turn that is no separator: `t` is what it passes over. */
  lemma OrdinaryTurn(s: string, l: seq<Label>, m: Mode, a: nat, i: nat, line: nat, t: string, m': Mode)
    requires Between(s, l, m, a, i, line) && i < |s| && TurnLabel(s, i, m) != Separator
    requires (m', |t|) == Advance(s, i, m) && t == s[i..i + |t|]
    ensures Between(s, l, m', a, i + |t|, line + if s[i] == '\n' then 1 else 0)
    ensures TurnLabel(s, i, m) == Comment ==> AllComment(l, i, i + |t|)
    ensures TurnLabel(s, i, m) != Comment ==> NoComment(l, i, i + |t|)
    ensures |t| == 1 || !IsBlank(s[i])
  {
    hide InStep, Newlines, Advance, TurnLabel, ModeOk, IsBlank;
    TurnText(s, i, m);
    TurnKeepsLabels(s, l, i, m, m', |t|);
  }

  lemma SeparatorTurn(s: string, l: seq<Label>, a: nat, i: nat, line: nat)
    requires Between(s, l, Code, a, i, line) && i < |s| && s[i] == ';'
    ensures Between(s, l, Code, i + 1, i + 1, line)
    ensures NextSeparator(l, a) == i
  {
    TurnText(s, i, Code);
    TurnKeepsLabels(s, l, i, Code, Code, 1);
    SeparatorIs(l, a, i);
  }

  lemma AtStart(s: string)
    ensures Between(s, Labels(s), Code, 0, 0, 1)
  {
    assert Labels(s)[0..] == LabelsFrom(s, 0);
    LabelsLabel(s, Labels(s), 0);
  }

  /** The end of a piece, at a separator or at the end of the script. */
  lemma PieceDone(s: string, l: seq<Label>, a: nat, i: nat, b: Buffers)
    requires a <= i <= |s| == |l| && Holds(s, l, a, i, b) && NextSeparator(l, a) == i
    ensures StatementsFrom(s, l, a) == Flushed(b) + if i < |l| then StatementsFrom(s, l, i + 1) else []
  {
    FlushedIs(s, l, a, i, b);
  }

  /** The loop of the lint splitter between two turns. */
  ghost predicate Splitting(
    s: string, l: seq<Label>, m: Mode, a: nat, i: nat, line: nat, b: Buffers, out: seq<Statement>)
  {
    && Between(s, l, m, a, i, line) && Holds(s, l, a, i, b)
    && out + StatementsFrom(s, l, a) == StatementsFrom(s, l, 0)
  }

  lemma SplittingStarts(s: string)
    ensures Splitting(s, Labels(s), Code, 0, 0, 1, NO_TEXT, [])
  {
    AtStart(s);
    assert [] + StatementsFrom(s, Labels(s), 0) == StatementsFrom(s, Labels(s), 0);
  }

  lemma SeparatorMode(s: string, i: nat, m: Mode, m': Mode, t: string)
    requires i < |s| && ModeOk(m) && IsTurn(s, i, m, m', t, Separator)
    ensures m == Code == m' && s[i] == ';' && |t| == 1
  {
  }

  lemma SplittingAtSeparator(
    s: string, l: seq<Label>, m: Mode, a: nat, i: nat, line: nat, b: Buffers, out: seq<Statement>,
    m': Mode, t: string)
    requires Splitting(s, l, m, a, i, line, b, out) && i < |s| && IsTurn(s, i, m, m', t, Separator)
    ensures s[i] != '\n' && Splitting(s, l, m', i + |t|, i + |t|, line, NO_TEXT, out + Flushed(b))
  {
    hide StatementsFrom, Labelled;
    SeparatorMode(s, i, m, m', t);
    SeparatorTurn(s, l, a, i, line);
    PieceDone(s, l, a, i, b);
    assert (out + Flushed(b)) + StatementsFrom(s, l, i + 1) == out + StatementsFrom(s, l, a);
  }

  lemma SplittingInPiece(
    s: string, l: seq<Label>, m: Mode, a: nat, i: nat, line: nat, b: Buffers, out: seq<Statement>,
    m': Mode, t: string, kind: Label)
    requires Splitting(s, l, m, a, i, line, b, out) && i < |s| && ModeOk(m)
    requires IsTurn(s, i, m, m', t, kind) && kind != Separator
    ensures var line' := if s[i] == '\n' then line + 1 else line;
      var b' := if kind == Comment then AddRaw(b, t) else PushCode(AddRaw(b, t), t, line');
      Splitting(s, l, m', a, i + |t|, line', b', out)
  {
    OrdinaryTurn(s, l, m, a, i, line, t, m');
    if kind == Comment {
      CommentTurn(s, l, a, i, b, t);
    } else {
      CodeTurn(s, l, a, i, b, t, if s[i] == '\n' then line + 1 else line);
    }
  }

  lemma SplittingEnds(
    s: string, l: seq<Label>, m: Mode, a: nat, line: nat, b: Buffers, out: seq<Statement>)
    requires Splitting(s, l, m, a, |s|, line, b, out)
    ensures out + Flushed(b) == StatementsFrom(s, l, 0)
  {
    SeparatorIs(l, a, |l|);
    PieceDone(s, l, a, |l|, b);
  }

  method SplitStatements(sqlText: string) returns (out: seq<Statement>)
    ensures out == StatementsFrom(sqlText, Labels(sqlText), 0)
  {
    hide Between, Holds, StatementsFrom;
    var b, f := NO_TEXT, NO_FLAGS;
    var line: nat, i: nat := 1, 0;
    out := [];
    ghost var l, m := Labels(sqlText), Code;
    ghost var a: nat := 0;
    SplittingStarts(sqlText);
    while i < |sqlText|
      invariant i <= |sqlText| && ModeOk(m) && f == FlagsOf(m)
      invariant Splitting(sqlText, l, m, a, i, line, b, out)
    {
      var f', t, kind, m' := TakeTurn(sqlText, i, f, m);
      ghost var i0, line0, b0 := i, line, b;
      if sqlText[i] == '\n' { line := line + 1; }
      i := i + |t|;
      if kind == Separator {
        SplittingAtSeparator(sqlText, l, m, a, i0, line0, b0, out, m', t);
        out := out + Flushed(b);
        b := NO_TEXT;
        a := i;
      } else {
        SplittingInPiece(sqlText, l, m, a, i0, line0, b0, out, m', t, kind);
        b := AddRaw(b, t);
        if kind != Comment { b := PushCode(b, t, line); }
      }
      f, m := f', m';
    }
    SplittingEnds(sqlText, l, m, a, line, b, out);
    out := out + Flushed(b);
  }

  // ----- The splitter of the migrator -----

  function TrimStart(x: string): string {
    if x != [] && IsBlank(x[0]) then TrimStart(x[1..]) else x
  }

  function TrimEnd(x: string): string {
    if x != [] && IsBlank(x[|x| - 1]) then TrimEnd(x[..|x| - 1]) else x
  }

  function Trim(x: string): string {
    TrimEnd(TrimStart(x))
  }

  function Kept(piece: string): seq<string> {
    if Trim(piece) == [] then [] else [Trim(piece)]
  }

  /** The scripts of the pieces from the piece start `a` on: raw text, comments included. */
  function ScriptsFrom(s: string, l: seq<Label>, a: nat): seq<string>
    requires a <= |s| == |l|
    decreases |s| - a
  {
    var b := NextSeparator(l, a);
    Kept(s[a..b]) + if b < |l| then ScriptsFrom(s, l, b + 1) else []
  }

  ghost predicate Migrating(s: string, l: seq<Label>, m: Mode, a: nat, i: nat, buf: string, out: seq<string>)
    requires i <= |s|
  {
    && Between(s, l, m, a, i, 1 + Newlines(s, i)) && buf == s[a..i]
    && out + ScriptsFrom(s, l, a) == ScriptsFrom(s, l, 0)
  }

  lemma MigratingStarts(s: string)
    ensures Migrating(s, Labels(s), Code, 0, 0, [], [])
  {
    AtStart(s);
    assert [] + ScriptsFrom(s, Labels(s), 0) == ScriptsFrom(s, Labels(s), 0);
  }

  lemma MigratingAtSeparator(s: string, l: seq<Label>, m: Mode, a: nat, i: nat, buf: string, out: seq<string>,
                             m': Mode, t: string)
    requires i < |s| && Migrating(s, l, m, a, i, buf, out) && IsTurn(s, i, m, m', t, Separator)
    ensures i + |t| <= |s| && Migrating(s, l, m', i + |t|, i + |t|, [], out + Kept(buf))
  {
    hide Labelled;
    SeparatorMode(s, i, m, m', t);
    SeparatorTurn(s, l, a, i, 1 + Newlines(s, i));
    assert ScriptsFrom(s, l, a) == Kept(buf) + ScriptsFrom(s, l, i + 1);
    hide ScriptsFrom;
    assert (out + Kept(buf)) + ScriptsFrom(s, l, i + 1) == out + ScriptsFrom(s, l, a);
  }

  lemma MigratingInPiece(s: string, l: seq<Label>, m: Mode, a: nat, i: nat, buf: string, out: seq<string>,
                         m': Mode, t: string, kind: Label)
    requires i < |s| && Migrating(s, l, m, a, i, buf, out) && IsTurn(s, i, m, m', t, kind) && kind != Separator
    ensures i + |t| <= |s| && Migrating(s, l, m', a, i + |t|, buf + t, out)
  {
    hide ScriptsFrom;
    OrdinaryTurn(s, l, m, a, i, 1 + Newlines(s, i), t, m');
    assert s[a..i] + t == s[a..i + |t|];
  }

  lemma MigratingEnds(s: string, l: seq<Label>, m: Mode, a: nat, buf: string, out: seq<string>)
    requires Migrating(s, l, m, a, |s|, buf, out)
    ensures out + Kept(buf) == ScriptsFrom(s, l, 0)
  {
    SeparatorIs(l, a, |l|);
  }

  method SplitSqlStatements(sqlText: string) returns (statements: seq<string>)
    ensures statements == ScriptsFrom(sqlText, Labels(sqlText), 0)
  {
    hide Between, ScriptsFrom;
    statements := [];
    var buf, f := "", NO_FLAGS;
    var i: nat := 0;
    ghost var l, m := Labels(sqlText), Code;
    ghost var a: nat := 0;
    MigratingStarts(sqlText);
    while i < |sqlText|
      invariant i <= |sqlText| && ModeOk(m) && f == FlagsOf(m)
      invariant Migrating(sqlText, l, m, a, i, buf, statements)
    {
      var f', t, kind, m' := TakeTurn(sqlText, i, f, m);
      if kind == Separator {
        MigratingAtSeparator(sqlText, l, m, a, i, buf, statements, m', t);
        statements := statements + Kept(buf);
        buf := "";
        a := i + |t|;
      } else {
        MigratingInPiece(sqlText, l, m, a, i, buf, statements, m', t, kind);
        buf := buf + t;
      }
      f, m, i := f', m', i + |t|;
    }
    MigratingEnds(sqlText, l, m, a, buf, statements);
    statements := statements + Kept(buf);
  }
}
