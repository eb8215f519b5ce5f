/** The quoting rules of the schema splitters, as a label for every character of a script.

    A script is cut into lexemes: line comments, nested block comments, dollar-quoted bodies,
    single- and double-quoted literals, top-level semicolons and single plain characters. Each
    lexeme is described by where it ends; labels, pieces and statements follow from that. */
module SqlLabels {
  import opened Wrappers

  datatype Label = Comment | Literal | Separator | Plain

  // ----- Where a lexeme ends -----

  predicate PairAt(s: string, i: nat, c: char, d: char) {
    i + 1 < |s| && s[i] == c && s[i + 1] == d
  }

  function LineEnd(s: string, i: nat): (e: nat)
    requires i <= |s|
    ensures i <= e <= |s|
    decreases |s| - i
  {
    if i == |s| then i else if s[i] == '\n' then i + 1 else LineEnd(s, i + 1)
  }

  /** The end of a block comment from inside `depth` open ones. */
  function BlockEnd(s: string, i: nat, depth: nat): (e: nat)
    requires i <= |s|
    ensures i <= e <= |s|
    decreases |s| - i
  {
    if i == |s| || depth == 0 then i
    else if PairAt(s, i, '/', '*') then BlockEnd(s, i + 2, depth + 1)
    else if PairAt(s, i, '*', '/') then BlockEnd(s, i + 2, depth - 1)
    else BlockEnd(s, i + 1, depth)
  }

  /** The end of a literal quoted by `q`, from inside it; a doubled quote does not end it. */
  function QuoteEnd(s: string, i: nat, q: char): (e: nat)
    requires i <= |s|
    ensures i <= e <= |s|
    decreases |s| - i
  {
    if i == |s| then i
    else if s[i] != q then QuoteEnd(s, i + 1, q)
    else if PairAt(s, i, q, q) then QuoteEnd(s, i + 2, q)
    else i + 1
  }

  predicate HasAt(s: string, i: nat, tag: string) {
    i + |tag| <= |s| && s[i..i + |tag|] == tag
  }

  /** The end of a dollar-quoted body, from inside it: behind the next occurrence of the tag. */
  function DollarEnd(s: string, i: nat, tag: string): (e: nat)
    requires i <= |s|
    ensures i <= e <= |s|
    decreases |s| - i
  {
    if i == |s| then i
    else if s[i] == '$' && HasAt(s, i, tag) then i + |tag|
    else DollarEnd(s, i + 1, tag)
  }

  predicate IdentStart(c: char) {
    'A' <= c <= 'Z' || 'a' <= c <= 'z' || c == '_'
  }

  predicate IdentPart(c: char) {
    IdentStart(c) || '0' <= c <= '9'
  }

  function IdentEnd(s: string, i: nat): (e: nat)
    requires i <= |s|
    ensures i <= e <= |s|
    decreases |s| - i
  {
    if i < |s| && IdentPart(s[i]) then IdentEnd(s, i + 1) else i
  }

  /** The length of the dollar tag that opens at `i`, or 0. */
  function TagLength(s: string, i: nat): (n: nat)
    requires i < |s| && s[i] == '$'
    ensures n == 0 || 2 <= n <= |s| - i
  {
    if i + 1 == |s| then 0
    else if IdentStart(s[i + 1]) then
      var j := IdentEnd(s, i + 2);
      if j < |s| && s[j] == '$' then j + 1 - i else 0
    else if s[i + 1] == '$' then 2
    else 0
  }

  // ----- Labels -----

  datatype Mode =
    | Code
    | InLineComment
    | InBlockComment(depth: nat)
    | InDollar(tag: string)
    | InQuote(quote: char)

  /** Where the lexeme that mode `m` is inside of at `i` ends. */
  function ModeEnd(s: string, i: nat, m: Mode): (e: nat)
    requires i <= |s|
    ensures i <= e <= |s|
  {
    match m
    case Code => i
    case InLineComment => LineEnd(s, i)
    case InBlockComment(depth) => BlockEnd(s, i, depth)
    case InDollar(tag) => DollarEnd(s, i, tag)
    case InQuote(q) => QuoteEnd(s, i, q)
  }

  function ModeLabel(m: Mode): Label {
    if m.InLineComment? || m.InBlockComment? then Comment else Literal
  }

  /** The mode that a lexeme starting at `i` opens, and how many characters open it. */
  function Opens(s: string, i: nat): (r: (Mode, nat))
    requires i < |s|
    ensures 1 <= r.1 <= |s| - i
  {
    if PairAt(s, i, '-', '-') then (InLineComment, 2)
    else if PairAt(s, i, '/', '*') then (InBlockComment(1), 2)
    else if s[i] == '$' && TagLength(s, i) > 0 then (InDollar(s[i..i + TagLength(s, i)]), TagLength(s, i))
    else if s[i] == '\'' || s[i] == '"' then (InQuote(s[i]), 1)
    else (Code, 1)
  }

  function LexemeEnd(s: string, i: nat): (e: nat)
    requires i < |s|
    ensures i < e <= |s|
  {
    ModeEnd(s, i + Opens(s, i).1, Opens(s, i).0)
  }

  function LexemeLabel(s: string, i: nat): Label
    requires i < |s|
  {
    var m := Opens(s, i).0;
    if m != Code then ModeLabel(m) else if s[i] == ';' then Separator else Plain
  }

  function Times(l: Label, n: nat): seq<Label> {
    seq(n, _ => l)
  }

  /** The labels of `s` from the lexeme boundary `i` on. */
  function LabelsFrom(s: string, i: nat): (r: seq<Label>)
    requires i <= |s|
    ensures |r| == |s| - i
    decreases |s| - i
  {
    if i == |s| then []
    else Times(LexemeLabel(s, i), LexemeEnd(s, i) - i) + LabelsFrom(s, LexemeEnd(s, i))
  }

  function Labels(s: string): (r: seq<Label>)
    ensures |r| == |s|
  {
    LabelsFrom(s, 0)
  }

  // ----- Pieces and statements -----

  /** The white space that `String.prototype.trim` removes. */
  predicate IsBlank(c: char) {
    var n := c as int;
    || 9 <= n <= 13 || n == 0x20 || n == 0xA0 || n == 0x1680 || 0x2000 <= n <= 0x200A
    || n == 0x2028 || n == 0x2029 || n == 0x202F || n == 0x205F || n == 0x3000 || n == 0xFEFF
  }

  predicate AllBlank(s: string) {
    forall k | 0 <= k < |s| :: IsBlank(s[k])
  }

  function NextSeparator(l: seq<Label>, a: nat): (b: nat)
    requires a <= |l|
    ensures a <= b <= |l|
    ensures b < |l| ==> l[b] == Separator
    ensures forall k | a <= k < b :: l[k] != Separator
    decreases |l| - a
  {
    if a == |l| || l[a] == Separator then a else NextSeparator(l, a + 1)
  }

  /** The characters of `[a, b)` outside comments. */
  function CodeIn(s: string, l: seq<Label>, a: nat, b: nat): string
    requires a <= b <= |s| == |l|
  {
    if a == b then []
    else CodeIn(s, l, a, b - 1) + if l[b - 1] == Comment then [] else [s[b - 1]]
  }

  /** The first character of `[a, b)` that is neither comment nor white space. */
  function FirstCode(s: string, l: seq<Label>, a: nat, b: nat): (f: Option<nat>)
    requires a <= b <= |s| == |l|
    ensures f.Some? ==> a <= f.value < b && l[f.value] != Comment && !IsBlank(s[f.value])
    ensures forall k | a <= k < (if f.Some? then f.value else b) :: l[k] == Comment || IsBlank(s[k])
  {
    if a == b then None
    else
      var before := FirstCode(s, l, a, b - 1);
      if before.Some? then before
      else if l[b - 1] != Comment && !IsBlank(s[b - 1]) then Some(b - 1)
      else None
  }

  function Newlines(s: string, n: nat): nat
    requires n <= |s|
  {
    if n == 0 then 0 else Newlines(s, n - 1) + if s[n - 1] == '\n' then 1 else 0
  }

  datatype Statement = Statement(prefix: string, code: string, line: nat)

  /** The statement of the piece `[a, b)`, if it has any code. */
  function PieceStatement(s: string, l: seq<Label>, a: nat, b: nat): seq<Statement>
    requires a <= b <= |s| == |l|
  {
    var f := FirstCode(s, l, a, b);
    if f.None? then [] else [Statement(s[a..f.value], CodeIn(s, l, a, b), 1 + Newlines(s, f.value))]
  }

  /** The statements of the pieces from the piece start `a` on. */
  function StatementsFrom(s: string, l: seq<Label>, a: nat): seq<Statement>
    requires a <= |s| == |l|
    decreases |s| - a
  {
    var b := NextSeparator(l, a);
    PieceStatement(s, l, a, b) + if b < |l| then StatementsFrom(s, l, b + 1) else []
  }
}
