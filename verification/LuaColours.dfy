/**
 The colours of a file, line by line and all at once. Each line is tokenized on its own from the scanner's
 state; this module says which characters that shows otherwise than one reading of the whole text.
 */
module LuaColours {
  import opened Wrappers
  import opened LuaSyntax
  import opened LuaSyntaxTheorems

  // -------------------------------------------------------- the colours of a line

  function Repeat<T>(x: T, n: nat): (s: seq<T>)
    ensures |s| == n && forall i :: 0 <= i < n ==> s[i] == x
  {
    seq(n, _ => x)
  }

  /** The kind of every character. */
  function Kinds(runs: seq<Run>): seq<Tok> {
    if runs == [] then []
    else Kinds(runs[..|runs| - 1]) + Repeat(runs[|runs| - 1].kind, |runs[|runs| - 1].text|)
  }

  /** The same token by token, from `i` on. */
  function Colours(u: Unicode, b: string, i: nat): (kinds: seq<Tok>)
    requires i <= |b|
    ensures |kinds| == |b| - i
    decreases |b| - i
  {
    if i == |b| then []
    else
      var (e, kind) := Token(u, b, i);
      Repeat(kind, e - i) + Colours(u, b, e)
  }

  function LineColours(u: Unicode, b: string, startsIn: Option<nat>): (kinds: seq<Tok>)
    ensures |kinds| == |b|
  {
    Repeat(Comment, LeadEnd(b, startsIn)) + Colours(u, b, LeadEnd(b, startsIn))
  }

  lemma KindsOfPush(out: seq<Run>, text: string, kind: Tok)
    ensures Kinds(Push(out, text, kind)) == Kinds(out) + Repeat(kind, |text|)
  {
    var p := Push(out, text, kind);
    if text == "" {
      assert Repeat(kind, 0) == [];
    } else if out != [] && out[|out| - 1].kind == kind {
      var last := out[|out| - 1].text;
      assert p[..|p| - 1] == out[..|out| - 1] && p[|p| - 1].text == last + text;
      assert Repeat(kind, |last + text|) == Repeat(kind, |last|) + Repeat(kind, |text|);
    } else {
      assert p[..|p| - 1] == out;
    }
  }

  lemma {:induction false} KindsOfTokens(u: Unicode, b: string, i: nat, out: seq<Run>)
    requires i <= |b|
    ensures Kinds(TokenizeFrom(u, b, i, out)) == Kinds(out) + Colours(u, b, i)
    decreases |b| - i
  {
    hide Token, Push, Kinds;
    if i < |b| {
      var (e, kind) := Token(u, b, i);
      KindsOfPush(out, b[i..e], kind);
      KindsOfTokens(u, b, e, Push(out, b[i..e], kind));
      assert |b[i..e]| == e - i;
    }
  }

  /** What the tokenizer's runs say of each character. */
  lemma KindsOfLine(u: Unicode, b: string, startsIn: Option<nat>)
    ensures Kinds(Tokenize(u, b, startsIn)) == LineColours(u, b, startsIn)
  {
    hide TokenizeFrom, Push;
    var i := LeadEnd(b, startsIn);
    KindsOfPush([], b[..i], Comment);
    KindsOfTokens(u, b, i, Push([], b[..i], Comment));
    assert [] + Repeat(Comment, i) == Repeat(Comment, i);
  }

  // -------------------------------------------------------- the colours of a text

  /**
   A character of a text: the kind of its token, whether that token began on an earlier line, and whether
   it is a word called by a parenthesis on a later line.
   */
  datatype Cell = Cell(kind: Tok, carried: bool, far: bool)

  /** `IsCall`, but not past the end of the line. */
  predicate CalledHere(u: Unicode, b: string, i: nat)
    requires i <= |b|
    decreases |b| - i
  {
    i < |b| && b[i] != '\n' && if IsWhitespace(u, b[i]) then CalledHere(u, b, i + 1) else b[i] == '('
  }

  /** The token at `i` of a text of many lines: its end and its kind. Comments and quoted strings end with their line. */
  function TextToken(u: Unicode, b: string, i: nat): (r: (nat, Tok))
    requires i < |b|
    ensures i < r.0 <= |b|
  {
    if DashesAt(b, i) && OpenAt(b, i + 2).None? then (LineEnd(b, i + 2, true), Comment)
    else if !DashesAt(b, i) && QuoteAt(b, i) then (SkipQuoted(b, i + 1, b[i], true), Str)
    else Token(u, b, i)
  }

  predicate FarCall(u: Unicode, b: string, i: nat)
    requires i < |b|
  {
    TextToken(u, b, i).1 == Ident && !CalledHere(u, b, TextToken(u, b, i).0)
  }

  predicate NewlineIn(b: string, i: nat, p: nat)
    requires i <= p <= |b|
  {
    '\n' in b[i..p]
  }

  /** The characters of one token that goes from `i` to `e`. */
  function TokenCells(b: string, i: nat, e: nat, kind: Tok, far: bool): (cells: seq<Cell>)
    requires i <= e <= |b|
    ensures |cells| == e - i
  {
    seq(e - i, d requires 0 <= d < e - i => Cell(kind, NewlineIn(b, i, i + d), far))
  }

  function Cells(u: Unicode, b: string, i: nat): (cells: seq<Cell>)
    requires i <= |b|
    ensures |cells| == |b| - i
    decreases |b| - i
  {
    if i == |b| then []
    else
      var (e, kind) := TextToken(u, b, i);
      TokenCells(b, i, e, kind, FarCall(u, b, i)) + Cells(u, b, e)
  }

  /** A text that begins inside a long bracket, a comment's or a string's. */
  function CellsFrom(u: Unicode, b: string, open: Option<(nat, Tok)>): (cells: seq<Cell>)
    ensures |cells| == |b|
  {
    match open
    case None => Cells(u, b, 0)
    case Some((level, kind)) =>
      var e := BlockEnd(b, 0, level);
      Repeat(Cell(kind, true, false), e) + Cells(u, b, e)
  }

  /** What a line on its own shows of a character. */
  function Shown(c: Cell): Tok {
    if c.carried then Comment else if c.far then Plain else c.kind
  }

  function AllShown(cells: seq<Cell>): (kinds: seq<Tok>)
    ensures |kinds| == |cells|
  {
    seq(|cells|, i requires 0 <= i < |cells| => Shown(cells[i]))
  }

  /** The long bracket in which the tokenizer runs off the line, with its kind. */
  function RunsOffIn(u: Unicode, b: string, i: nat): Option<(nat, Tok)>
    requires i <= |b|
    decreases |b| - i
  {
    if i == |b| then None
    else
      match OpenedAt(b, i)
      case Some((j, n)) =>
        if j <= |b| && FindClose(b, j, n) == |b| then Some((n, if DashesAt(b, i) then Comment else Str))
        else RunsOffIn(u, b, Token(u, b, i).0)
      case None => RunsOffIn(u, b, Token(u, b, i).0)
  }

  /** The state after a line that began in `open`. */
  function NextOpen(u: Unicode, b: string, open: Option<(nat, Tok)>): Option<(nat, Tok)> {
    match open
    case Some((level, _)) =>
      if FindClose(b, 0, level) == |b| then open else RunsOffIn(u, b, BlockEnd(b, 0, level))
    case None => RunsOffIn(u, b, 0)
  }

  function Level(open: Option<(nat, Tok)>): Option<nat> {
    match open
    case Some((level, _)) => Some(level)
    case None => None
  }

  lemma {:induction false} RunsOffAgrees(u: Unicode, b: string, i: nat)
    requires i <= |b|
    ensures Level(RunsOffIn(u, b, i)) == RunsOff(u, b, i)
    decreases |b| - i
  {
    if i < |b| {
      hide Token, OpenedAt, NeverCloses;
      RunsOffAgrees(u, b, Token(u, b, i).0);
      if OpenedAt(b, i).Some? {
        var (j, n) := OpenedAt(b, i).value;
        ScanOpens(u, b, i);
        FindCloseFinds(b, j, n);
      }
    }
  }

  /** The scanner keeps the level. */
  lemma NextOpenIsScanned(u: Unicode, b: string, open: Option<(nat, Tok)>)
    ensures Level(NextOpen(u, b, open)) == Scan(b, 0, Level(open), false)
  {
    ScannerAgreesWithTokenizer(u, b, Level(open));
    if open.Some? {
      FindCloseFinds(b, 0, open.value.0);
      RunsOffAgrees(u, b, BlockEnd(b, 0, open.value.0));
    } else {
      RunsOffAgrees(u, b, 0);
    }
  }

  // --------------------------------------------- the first line of a text of many

  lemma {:induction false} CloseOfLine(line: string, rest: string, j: nat, level: nat)
    requires j <= |line|
    ensures var text := line + ['\n'] + rest;
            FindClose(text, j, level) == if FindClose(line, j, level) < |line| then FindClose(line, j, level)
            else FindClose(text, |line| + 1, level)
    decreases |line| - j
  {
    hide BracketAt;
    BracketOfLine(line, rest, j, ']');
    if j < |line| {
      if CloseAt(line, j) != Some(level) {
        CloseOfLine(line, rest, j + 1, level);
      }
    } else {
      NoBracketAtEnd(line, j);
    }
  }

  lemma {:induction false} CloseShift(x: string, y: string, j: nat, level: nat)
    requires j <= |y|
    ensures FindClose(x + y, |x| + j, level) == |x| + FindClose(y, j, level)
    decreases |y| - j
  {
    hide BracketAt;
    BracketShift(x, y, j, ']');
    if j < |y| && CloseAt(y, j) != Some(level) {
      CloseShift(x, y, j + 1, level);
    }
  }

  /** Where a long bracket ends that is open at `j` of the first line. */
  lemma BlockOfLine(line: string, rest: string, j: nat, level: nat)
    requires j <= |line|
    ensures BlockEnd(line + ['\n'] + rest, j, level)
         == if FindClose(line, j, level) < |line| then BlockEnd(line, j, level) else |line| + 1 + BlockEnd(rest, 0, level)
    ensures FindClose(line, j, level) == |line| ==> BlockEnd(line, j, level) == |line|
  {
    hide FindClose;
    CloseOfLine(line, rest, j, level);
    CloseShift(line + ['\n'], rest, 0, level);
    CloseFits(line, j, level);
    CloseFits(rest, 0, level);
  }

  lemma CloseFits(b: string, j: nat, level: nat)
    requires j <= |b|
    ensures FindClose(b, j, level) < |b| ==> FindClose(b, j, level) + level + 2 <= |b|
  {
  }

  lemma {:induction false} NumberOfLine(line: string, rest: string, j: nat)
    requires j <= |line|
    ensures NumberEnd(line + ['\n'] + rest, j) == NumberEnd(line, j)
    decreases |line| - j
  {
    if j < |line| {
      NumberOfLine(line, rest, j + 1);
    }
  }

  lemma {:induction false} WordOfLine(u: Unicode, line: string, rest: string, j: nat)
    requires j <= |line|
    ensures WordEnd(u, line + ['\n'] + rest, j) == WordEnd(u, line, j)
    decreases |line| - j
  {
    if j < |line| {
      WordOfLine(u, line, rest, j + 1);
    }
  }

  lemma {:induction false} CallOfLine(u: Unicode, line: string, rest: string, j: nat)
    requires IsLine(line) && j <= |line|
    ensures var text := line + ['\n'] + rest;
            CalledHere(u, text, j) == IsCall(u, line, j) && (IsCall(u, line, j) ==> IsCall(u, text, j))
    decreases |line| - j
  {
    var text := line + ['\n'] + rest;
    if j < |line| {
      assert text[j] == line[j];
      CallOfLine(u, line, rest, j + 1);
    }
  }

  /** A token that is no long bracket ends where it ends on the line, and shows there what it shows on the line. */
  lemma TokenOfLine(u: Unicode, line: string, rest: string, i: nat)
    requires IsLine(line) && i < |line| && OpenedAt(line, i).None?
    ensures var text := line + ['\n'] + rest;
            TextToken(u, text, i).0 == Token(u, line, i).0
            && (if FarCall(u, text, i) then Plain else TextToken(u, text, i).1) == Token(u, line, i).1
  {
    hide BracketAt, NumberEnd, WordEnd, SkipQuoted, BlockEnd, IsCall, CalledHere, LineEnd;
    var text := line + ['\n'] + rest;
    BracketOfLine(line, rest, i, '[');
    assert text[i] == line[i] && DashesAt(text, i) == DashesAt(line, i) && QuoteAt(text, i) == QuoteAt(line, i);
    if DashesAt(line, i) {
      BracketOfLine(line, rest, i + 2, '[');
      EndOfLine(line, rest, i + 2);
    } else if QuoteAt(line, i) {
      QuotedOfLine(line, rest, i + 1, line[i]);
    } else if IsDigit(line[i]) {
      NumberOfLine(line, rest, i);
    } else if IsAlphabetic(u, line[i]) || line[i] == '_' {
      var j := WordEnd(u, line, i);
      WordOfLine(u, line, rest, i);
      CallOfLine(u, line, rest, j);
      assert text[i..j] == line[i..j];
    }
  }

  /** A long bracket is one in the text too, and goes on to where it closes. */
  lemma BracketOfText(u: Unicode, line: string, rest: string, i: nat)
    requires IsLine(line) && i < |line| && OpenedAt(line, i).Some?
    ensures var (j, n) := OpenedAt(line, i).value;
            var text := line + ['\n'] + rest;
            var kind := if DashesAt(line, i) then Comment else Str;
            && j <= |line| && Token(u, line, i) == (BlockEnd(line, j, n), kind)
            && TextToken(u, text, i) == (BlockEnd(text, j, n), kind) && !FarCall(u, text, i)
  {
    hide BlockEnd;
    var text := line + ['\n'] + rest;
    BracketOfLine(line, rest, i, '[');
    assert DashesAt(text, i) == DashesAt(line, i) && QuoteAt(text, i) == QuoteAt(line, i);
    if DashesAt(line, i) {
      BracketOfLine(line, rest, i + 2, '[');
    }
  }

  /** The newline itself. */
  lemma NewlineToken(u: Unicode, line: string, rest: string)
    ensures var text := line + ['\n'] + rest;
            TextToken(u, text, |line|) == (|line| + 1, Plain) && !FarCall(u, text, |line|)
  {
  }

  lemma {:induction false} NumberShift(x: string, y: string, j: nat)
    requires j <= |y|
    ensures NumberEnd(x + y, |x| + j) == |x| + NumberEnd(y, j)
    decreases |y| - j
  {
    if j < |y| {
      NumberShift(x, y, j + 1);
    }
  }

  lemma {:induction false} WordShift(u: Unicode, x: string, y: string, j: nat)
    requires j <= |y|
    ensures WordEnd(u, x + y, |x| + j) == |x| + WordEnd(u, y, j)
    decreases |y| - j
  {
    if j < |y| {
      WordShift(u, x, y, j + 1);
    }
  }

  lemma {:induction false} CallShift(u: Unicode, x: string, y: string, j: nat)
    requires j <= |y|
    ensures IsCall(u, x + y, |x| + j) == IsCall(u, y, j) && CalledHere(u, x + y, |x| + j) == CalledHere(u, y, j)
    decreases |y| - j
  {
    if j < |y| {
      assert (x + y)[|x| + j] == y[j];
      CallShift(u, x, y, j + 1);
    }
  }

  lemma BlockShift(x: string, y: string, j: nat, level: nat)
    requires j <= |y|
    ensures BlockEnd(x + y, |x| + j, level) == |x| + BlockEnd(y, j, level)
  {
    hide FindClose;
    CloseShift(x, y, j, level);
  }

  lemma TokenShift(u: Unicode, x: string, y: string, i: nat)
    requires i < |y|
    ensures TextToken(u, x + y, |x| + i) == (|x| + TextToken(u, y, i).0, TextToken(u, y, i).1)
    ensures FarCall(u, x + y, |x| + i) == FarCall(u, y, i)
  {
    hide BracketAt, NumberEnd, WordEnd, SkipQuoted, BlockEnd, IsCall, CalledHere, LineEnd, Token;
    var text := x + y;
    TokenShiftOnly(u, x, y, i);
    BracketShift(x, y, i + 2, '[');
    assert text[|x| + i] == y[i] && DashesAt(text, |x| + i) == DashesAt(y, i) && QuoteAt(text, |x| + i) == QuoteAt(y, i);
    if DashesAt(y, i) {
      LineEndShift(x, y, i + 2);
    } else if QuoteAt(y, i) {
      QuotedShift(x, y, i + 1, y[i]);
    }
    CallShift(u, x, y, TextToken(u, y, i).0);
  }

  lemma WordKindShift(u: Unicode, x: string, y: string, i: nat, j: nat)
    requires i <= j <= |y|
    ensures WordKind(u, x + y, |x| + i, |x| + j) == WordKind(u, y, i, j)
  {
    hide IsCall;
    CallShift(u, x, y, j);
    assert (x + y)[|x| + i..|x| + j] == y[i..j];
  }

  lemma TokenShiftOnly(u: Unicode, x: string, y: string, i: nat)
    requires i < |y|
    ensures !(DashesAt(y, i) && OpenAt(y, i + 2).None?) && !(!DashesAt(y, i) && QuoteAt(y, i)) ==>
              Token(u, x + y, |x| + i) == (|x| + Token(u, y, i).0, Token(u, y, i).1)
  {
    hide BracketAt, NumberEnd, WordEnd, SkipQuoted, BlockEnd, IsCall, WordKind;
    var text := x + y;
    BracketShift(x, y, i, '[');
    assert text[|x| + i] == y[i] && DashesAt(text, |x| + i) == DashesAt(y, i) && QuoteAt(text, |x| + i) == QuoteAt(y, i);
    if DashesAt(y, i) {
      BracketShift(x, y, i + 2, '[');
      if OpenAt(y, i + 2).Some? {
        BlockShift(x, y, i + OpenAt(y, i + 2).value + 4, OpenAt(y, i + 2).value);
      }
    } else if OpenAt(y, i).Some? {
      BlockShift(x, y, i + OpenAt(y, i).value + 2, OpenAt(y, i).value);
    } else if IsDigit(y[i]) {
      NumberShift(x, y, i);
    } else if IsAlphabetic(u, y[i]) || y[i] == '_' {
      var j := WordEnd(u, y, i);
      WordShift(u, x, y, i);
      WordKindShift(u, x, y, i, j);
    }
  }

  /** What comes before does not matter to the characters from a token on. */
  lemma {:induction false} CellsShift(u: Unicode, x: string, y: string, i: nat)
    requires i <= |y|
    ensures Cells(u, x + y, |x| + i) == Cells(u, y, i)
    decreases |y| - i
  {
    hide TextToken, FarCall;
    if i < |y| {
      var (e, kind) := TextToken(u, y, i);
      TokenShift(u, x, y, i);
      CellsShift(u, x, y, e);
      TokenCellsShift(x, y, i, e, kind, FarCall(u, y, i));
    }
  }

  lemma TokenCellsShift(x: string, y: string, i: nat, e: nat, kind: Tok, far: bool)
    requires i <= e <= |y|
    ensures TokenCells(x + y, |x| + i, |x| + e, kind, far) == TokenCells(y, i, e, kind, far)
  {
    forall p | i <= p < e ensures NewlineIn(x + y, |x| + i, |x| + p) == NewlineIn(y, i, p) {
      assert (x + y)[|x| + i..|x| + p] == y[i..p];
    }
    var s, t := TokenCells(x + y, |x| + i, |x| + e, kind, far), TokenCells(y, i, e, kind, far);
    forall d | 0 <= d < e - i ensures s[d] == t[d] {
      assert NewlineIn(x + y, |x| + i, |x| + (i + d)) == NewlineIn(y, i, i + d);
    }
  }

  /** Before its first newline a token's characters are not carried; behind it they are. */
  lemma CarriedBehindNewline(line: string, rest: string, i: nat, e: nat, kind: Tok)
    requires IsLine(line) && i <= |line| && |line| < e <= |line + ['\n'] + rest|
    ensures var cells := TokenCells(line + ['\n'] + rest, i, e, kind, false);
            && cells[..|line| - i] == Repeat(Cell(kind, false, false), |line| - i)
            && cells[|line| + 1 - i..] == Repeat(Cell(kind, true, false), e - |line| - 1)
  {
    var text := line + ['\n'] + rest;
    var cells := TokenCells(text, i, e, kind, false);
    forall d | 0 <= d < e - i ensures cells[d] == Cell(kind, d > |line| - i, false) {
      if d > |line| - i {
        assert text[i..i + d][|line| - i] == '\n';
      } else {
        assert text[i..i + d] == line[i..i + d];
      }
    }
  }

  lemma NotCarriedOnLine(line: string, rest: string, i: nat, e: nat, kind: Tok, far: bool)
    requires IsLine(line) && i <= e <= |line|
    ensures TokenCells(line + ['\n'] + rest, i, e, kind, far) == Repeat(Cell(kind, false, far), e - i)
  {
    var text := line + ['\n'] + rest;
    forall p | i <= p < e ensures !NewlineIn(text, i, p) {
      assert text[i..p] == line[i..p];
    }
  }

  lemma ShownJoins(a: seq<Cell>, b: seq<Cell>)
    ensures AllShown(a + b) == AllShown(a) + AllShown(b)
  {
  }

  lemma ShownRepeats(c: Cell, n: nat)
    ensures AllShown(Repeat(c, n)) == Repeat(Shown(c), n)
  {
  }

  /** What the first line of a text shows, and how the rest of the text goes on. */
  ghost predicate LineSplits(u: Unicode, cells: seq<Cell>, n: nat, kinds: seq<Tok>, rest: string, open: Option<(nat, Tok)>) {
    n < |cells| && AllShown(cells[..n]) == kinds && cells[n + 1..] == CellsFrom(u, rest, open)
  }

  lemma SplitsBehind(u: Unicode, first: seq<Cell>, cells: seq<Cell>, n: nat, kinds: seq<Tok>, rest: string, open: Option<(nat, Tok)>)
    requires LineSplits(u, cells, n, kinds, rest, open)
    ensures LineSplits(u, first + cells, |first| + n, AllShown(first) + kinds, rest, open)
  {
    hide CellsFrom;
    assert (first + cells)[..|first| + n] == first + cells[..n];
    assert (first + cells)[|first| + n + 1..] == cells[n + 1..];
    ShownJoins(first, cells[..n]);
  }

  /** The rest of a long bracket that does not close on the line it is on. */
  lemma RestGoesOn(u: Unicode, line: string, rest: string, n: nat, kind: Tok, first: seq<Cell>, level: nat)
    requires n <= |first| && first[n..] == Repeat(Cell(kind, true, false), BlockEnd(rest, 0, level))
    ensures var text, e := line + ['\n'] + rest, |line| + 1 + BlockEnd(rest, 0, level);
            (first + Cells(u, text, e))[n..] == CellsFrom(u, rest, Some((level, kind)))
  {
    hide Cells, BlockEnd;
    var text, e := line + ['\n'] + rest, BlockEnd(rest, 0, level);
    CellsShift(u, line + ['\n'], rest, e);
    assert (first + Cells(u, rest, e))[n..] == first[n..] + Cells(u, rest, e);
  }

  lemma {:induction false} LineOfCells(u: Unicode, line: string, rest: string, i: nat)
    requires IsLine(line) && i <= |line|
    ensures LineSplits(u, Cells(u, line + ['\n'] + rest, i), |line| - i, Colours(u, line, i), rest, RunsOffIn(u, line, i))
    decreases |line| - i
  {
    hide LineSplits, TextToken, Token, FarCall, OpenedAt, BlockEnd, FindClose, TokenCells;
    var text := line + ['\n'] + rest;
    if i == |line| {
      NewlineSplits(u, line, rest);
    } else if OpenedAt(line, i).None? {
      var (e, kind) := TextToken(u, text, i);
      TokenOfLine(u, line, rest, i);
      LineOfCells(u, line, rest, e);
      TokenSplits(u, line, rest, i);
    } else {
      var (j, n) := OpenedAt(line, i).value;
      BracketOfText(u, line, rest, i);
      BlockOfLine(line, rest, j, n);
      if FindClose(line, j, n) < |line| {
        LineOfCells(u, line, rest, Token(u, line, i).0);
        TokenSplits(u, line, rest, i);
      } else {
        OpensLine(u, line, rest, i, j, n);
      }
    }
  }

  lemma NewlineSplits(u: Unicode, line: string, rest: string)
    ensures LineSplits(u, Cells(u, line + ['\n'] + rest, |line|), 0, [], rest, None)
  {
    hide TextToken, FarCall;
    var text := line + ['\n'] + rest;
    NewlineToken(u, line, rest);
    CellsShift(u, line + ['\n'], rest, 0);
    var first := TokenCells(text, |line|, |line| + 1, Plain, false);
    assert Cells(u, text, |line|) == first + Cells(u, rest, 0);
    assert (first + Cells(u, rest, 0))[1..] == Cells(u, rest, 0);
  }

  /** A token that ends on the line. */
  lemma TokenSplits(u: Unicode, line: string, rest: string, i: nat)
    requires IsLine(line) && i < |line|
    requires var text := line + ['\n'] + rest;
             && TextToken(u, text, i).0 == Token(u, line, i).0
             && (if FarCall(u, text, i) then Plain else TextToken(u, text, i).1) == Token(u, line, i).1
             && RunsOffIn(u, line, i) == RunsOffIn(u, line, Token(u, line, i).0)
             && LineSplits(u, Cells(u, text, Token(u, line, i).0), |line| - Token(u, line, i).0,
                           Colours(u, line, Token(u, line, i).0), rest, RunsOffIn(u, line, i))
    ensures LineSplits(u, Cells(u, line + ['\n'] + rest, i), |line| - i, Colours(u, line, i), rest, RunsOffIn(u, line, i))
  {
    hide LineSplits, TextToken, Token, FarCall, RunsOffIn, TokenCells;
    var text := line + ['\n'] + rest;
    var (e, kind) := TextToken(u, text, i);
    var far := FarCall(u, text, i);
    NotCarriedOnLine(line, rest, i, e, kind, far);
    ShownRepeats(Cell(kind, false, far), e - i);
    SplitsBehind(u, TokenCells(text, i, e, kind, far), Cells(u, text, e), |line| - e, Colours(u, line, e), rest,
                 RunsOffIn(u, line, i));
  }

  /** A long bracket that opens on the line and does not close on it. */
  lemma OpensLine(u: Unicode, line: string, rest: string, i: nat, j: nat, n: nat)
    requires IsLine(line) && i < |line| && OpenedAt(line, i) == Some((j, n)) && j <= |line| && FindClose(line, j, n) == |line|
    requires BlockEnd(line, j, n) == |line| && BlockEnd(line + ['\n'] + rest, j, n) == |line| + 1 + BlockEnd(rest, 0, n)
    ensures LineSplits(u, Cells(u, line + ['\n'] + rest, i), |line| - i, Colours(u, line, i), rest, RunsOffIn(u, line, i))
  {
    hide TextToken, Token, FarCall, OpenedAt, BlockEnd, FindClose, TokenCells, CellsFrom;
    var text := line + ['\n'] + rest;
    var kind := if DashesAt(line, i) then Comment else Str;
    BracketOfText(u, line, rest, i);
    var e := BlockEnd(text, j, n);
    var first := TokenCells(text, i, e, kind, false);
    CarriedBehindNewline(line, rest, i, e, kind);
    var cells := first + Cells(u, text, e);
    assert cells == Cells(u, text, i);
    assert cells[..|line| - i] == first[..|line| - i];
    ShownRepeats(Cell(kind, false, false), |line| - i);
    assert Colours(u, line, i) == Repeat(kind, |line| - i) + [];
    RestGoesOn(u, line, rest, |line| + 1 - i, kind, first, n);
  }

  /** The same for a line that begins inside a long bracket. */
  lemma LineOfText(u: Unicode, line: string, rest: string, open: Option<(nat, Tok)>)
    requires IsLine(line)
    ensures LineSplits(u, CellsFrom(u, line + ['\n'] + rest, open), |line|, LineColours(u, line, Level(open)), rest, NextOpen(u, line, open))
  {
    hide Cells, Colours, RunsOffIn, BlockEnd, FindClose;
    var text := line + ['\n'] + rest;
    match open
    case None =>
      LineOfCells(u, line, rest, 0);
      assert Repeat(Comment, 0) + Colours(u, line, 0) == Colours(u, line, 0);
    case Some((level, kind)) =>
      var e := BlockEnd(text, 0, level);
      var lead := Repeat(Cell(kind, true, false), e);
      BlockOfLine(line, rest, 0, level);
      if FindClose(line, 0, level) < |line| {
        LineOfCells(u, line, rest, e);
        ShownRepeats(Cell(kind, true, false), e);
        SplitsBehind(u, lead, Cells(u, text, e), |line| - e, Colours(u, line, e), rest, RunsOffIn(u, line, e));
      } else {
        CarriedLine(u, line, rest, level, kind);
      }
  }

  lemma CarriedLine(u: Unicode, line: string, rest: string, level: nat, kind: Tok)
    requires BlockEnd(line, 0, level) == |line| && BlockEnd(line + ['\n'] + rest, 0, level) == |line| + 1 + BlockEnd(rest, 0, level)
    ensures LineSplits(u, CellsFrom(u, line + ['\n'] + rest, Some((level, kind))), |line|, LineColours(u, line, Some(level)), rest,
                       Some((level, kind)))
  {
    hide Cells, BlockEnd;
    var text, c := line + ['\n'] + rest, Cell(kind, true, false);
    var e := BlockEnd(text, 0, level);
    var cells := Repeat(c, e) + Cells(u, text, e);
    assert cells == CellsFrom(u, text, Some((level, kind)));
    assert cells[..|line|] == Repeat(c, |line|);
    ShownRepeats(c, |line|);
    assert Colours(u, line, |line|) == [];
    assert LineColours(u, line, Some(level)) == Repeat(Comment, |line|) + [];
    RestGoesOn(u, line, rest, |line| + 1, kind, Repeat(c, e), level);
  }

  // ------------------------------------------------------------ every line of a text

  /** Where line `k` begins in the text. */
  function Start(lines: seq<string>, k: nat): nat
    requires k <= |lines|
  {
    |Joined(lines[..k])|
  }

  /** Line `k` as part of the text. */
  function RowOf(cells: seq<Cell>, lines: seq<string>, k: nat): (row: seq<Cell>)
    requires k < |lines| && Start(lines, k) + |lines[k]| <= |cells|
    ensures |row| == |lines[k]|
  {
    cells[Start(lines, k)..Start(lines, k) + |lines[k]|]
  }

  lemma {:induction false} LineLies(lines: seq<string>, k: nat)
    requires k < |lines|
    ensures Start(lines, k) + |lines[k]| < |Joined(lines)|
    ensures k > 0 ==> Start(lines, k) == |lines[0]| + 1 + Start(lines[1..], k - 1)
    decreases k
  {
    if k == 0 {
      assert lines[..0] == [];
    } else {
      LineLies(lines[1..], k - 1);
      assert lines[..k][1..] == lines[1..][..k - 1];
    }
  }

  lemma {:induction false} RowsAreShown(u: Unicode, lines: seq<string>, open: Option<(nat, Tok)>, k: nat)
    requires (forall i :: 0 <= i < |lines| ==> IsLine(lines[i])) && k < |lines|
    ensures Start(lines, k) + |lines[k]| <= |CellsFrom(u, Joined(lines), open)|
    ensures AllShown(RowOf(CellsFrom(u, Joined(lines), open), lines, k)) == LineColours(u, lines[k], After(lines[..k], Level(open)))
    decreases k
  {
    hide CellsFrom, LineColours, NextOpen, Scan;
    var line, rest := lines[0], Joined(lines[1..]);
    var cells := CellsFrom(u, Joined(lines), open);
    LineLies(lines, k);
    LineOfText(u, line, rest, open);
    assert Joined(lines) == line + ['\n'] + rest;
    if k == 0 {
      assert lines[..0] == [] && RowOf(cells, lines, 0) == cells[..|line|];
    } else {
      var next := NextOpen(u, line, open);
      NextOpenIsScanned(u, line, open);
      RowsAreShown(u, lines[1..], next, k - 1);
      assert lines[..k][1..] == lines[1..][..k - 1];
      assert RowOf(cells, lines, k) == RowOf(cells[|line| + 1..], lines[1..], k - 1);
    }
  }

  /** A character that a line on its own does not show in its own kind. */
  predicate Misshown(c: Cell) {
    (c.carried && c.kind != Comment) || (!c.carried && c.far && c.kind != Plain)
  }

  /**
   Line by line against the whole text: each line shows the whole text's kinds, character by character,
   but for the later lines of a long string, which it shows as comment, and for a word that is called by a
   parenthesis on a later line, which it shows as plain.
   */
  lemma LinesShowTheText(u: Unicode, lines: seq<string>, k: nat)
    requires (forall i :: 0 <= i < |lines| ==> IsLine(lines[i])) && k < |lines|
    ensures var text := Joined(lines);
            var kinds := Kinds(Tokenize(u, lines[k], After(lines[..k], None)));
            && Start(lines, k) + |lines[k]| <= |text| && |kinds| == |lines[k]|
            && forall j :: 0 <= j < |kinds| ==>
                             var c := Cells(u, text, 0)[Start(lines, k) + j];
                             && kinds[j] == Shown(c)
                             && (kinds[j] == c.kind <==> !Misshown(c))
  {
    hide Cells, Tokenize, Kinds, LineColours, After;
    RowsAreShown(u, lines, None, k);
    KindsOfLine(u, lines[k], After(lines[..k], None));
    var cells := Cells(u, Joined(lines), 0);
    assert CellsFrom(u, Joined(lines), None) == cells;
    var row := RowOf(cells, lines, k);
    forall j | 0 <= j < |row| ensures AllShown(row)[j] == Shown(cells[Start(lines, k) + j]) {
      assert row[j] == cells[Start(lines, k) + j];
    }
  }

  /** The later line of a long string is shown as comment. */
  lemma LongStringLooksLikeComment(u: Unicode)
    ensures var lines := ["[[", "]]"];
            && Cells(u, Joined(lines), 0)[3] == Cell(Str, true, false)
            && var kinds := Kinds(Tokenize(u, lines[1], After(lines[..1], None))); kinds != [] && kinds[0] == Comment
  {
    hide Cells, Tokenize, Kinds, After, Joined;
    var lines := ["[[", "]]"];
    TwoLines("[[", "]]");
    LongStringCells(u, Joined(lines));
    LinesShowTheText(u, lines, 1);
    assert Cells(u, Joined(lines), 0)[Start(lines, 1) + 0] == Cell(Str, true, false);
  }

  lemma LongStringCells(u: Unicode, text: string)
    requires text == "[[\n]]\n"
    ensures Cells(u, text, 0)[3] == Cell(Str, true, false)
  {
    LongStringEnds(text);
    assert !DashesAt(text, 0) && !QuoteAt(text, 0);
    assert TextToken(u, text, 0) == (5, Str);
    assert Cells(u, text, 0) == TokenCells(text, 0, 5, Str, false) + Cells(u, text, 5) by { hide TextToken; }
    assert text[0..3][2] == '\n';
    assert NewlineIn(text, 0, 0 + 3);
  }

  lemma LongStringEnds(text: string)
    requires text == "[[\n]]\n"
    ensures OpenAt(text, 0) == Some(0) && BlockEnd(text, 2, 0) == 5
  {
    assert Equals(text, 1) == 0 && Equals(text, 4) == 0;
    assert CloseAt(text, 2).None? && CloseAt(text, 3) == Some(0);
    assert FindClose(text, 2, 0) == FindClose(text, 3, 0) == 3;
  }

  lemma TwoLines(a: string, b: string)
    ensures Joined([a, b]) == a + ['\n'] + (b + ['\n']) && Start([a, b], 0) == 0 && Start([a, b], 1) == |a| + 1
  {
    assert [a, b][1..] == [b] && [b][1..] == [] && [a, b][..1] == [a] && [a][1..] == [] && [a, b][..0] == [];
    assert Joined([b]) == b + ['\n'] + "" && Joined([a]) == a + ['\n'] + "";
  }

  /** A word whose parenthesis is on the next line is a call, and is shown as a plain word. */
  lemma CallLooksPlain(u: Unicode)
    ensures var lines := ["f", "("];
            && Cells(u, Joined(lines), 0)[0] == Cell(Ident, false, true)
            && var kinds := Kinds(Tokenize(u, lines[0], None)); kinds != [] && kinds[0] == Plain
  {
    hide Cells, Tokenize, Kinds, Joined;
    var lines := ["f", "("];
    TwoLines("f", "(");
    CallCells(u, Joined(lines));
    LinesShowTheText(u, lines, 0);
    assert lines[..0] == [];
    assert Cells(u, Joined(lines), 0)[Start(lines, 0) + 0] == Cell(Ident, false, true);
  }

  lemma CallCells(u: Unicode, text: string)
    requires text == "f\n(\n"
    ensures Cells(u, text, 0)[0] == Cell(Ident, false, true)
  {
    CallEnds(u, text);
    assert Cells(u, text, 0) == TokenCells(text, 0, 1, Ident, true) + Cells(u, text, 1) by { hide TextToken; }
    assert text[0..0] == [] && !NewlineIn(text, 0, 0 + 0);
  }

  lemma CallEnds(u: Unicode, text: string)
    requires text == "f\n(\n"
    ensures TextToken(u, text, 0) == (1, Ident) && FarCall(u, text, 0)
  {
    hide LITERALS, KEYWORDS;
    CallWord(text[0..1]);
    assert WordEnd(u, text, 1) == 1 && WordEnd(u, text, 0) == 1;
    assert IsCall(u, text, 2) && IsCall(u, text, 1) && !CalledHere(u, text, 1);
    assert !DashesAt(text, 0) && !QuoteAt(text, 0) && OpenAt(text, 0).None?;
  }

  lemma CallWord(word: string)
    requires word == "f"
    ensures word !in LITERALS && word !in KEYWORDS
  {
  }
}
