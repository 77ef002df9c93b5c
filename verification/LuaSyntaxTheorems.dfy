/** The tokenizer loses nothing and agrees with the scanner; line by line agrees with the whole file. */
module LuaSyntaxTheorems {
  import opened Wrappers
  import opened LuaSyntax

  // ---------------------------------------------------------------- lossless

  function Text(runs: seq<Run>): string {
    if runs == [] then "" else Text(runs[..|runs| - 1]) + runs[|runs| - 1].text
  }

  /** No empty run, and no two neighbours of one kind. */
  ghost predicate Tidy(runs: seq<Run>) {
    && (forall i :: 0 <= i < |runs| ==> runs[i].text != "")
    && (forall j :: 0 < j < |runs| ==> runs[j].kind != runs[j - 1].kind)
  }

  lemma PushKeepsText(out: seq<Run>, text: string, kind: Tok)
    ensures Text(Push(out, text, kind)) == Text(out) + text
  {
    var p := Push(out, text, kind);
    if text == "" {
      assert Text(out) + text == Text(out);
    } else if out != [] && out[|out| - 1].kind == kind {
      assert p[..|p| - 1] == out[..|out| - 1];
      assert p[|p| - 1].text == out[|out| - 1].text + text;
    } else {
      assert p[..|p| - 1] == out;
    }
  }

  lemma PushIsTidy(out: seq<Run>, text: string, kind: Tok)
    requires Tidy(out)
    ensures Tidy(Push(out, text, kind)) && Text(Push(out, text, kind)) == Text(out) + text
  {
    hide Text;
    PushKeepsText(out, text, kind);
  }

  lemma {:induction false} TokenizeFromKeeps(u: Unicode, b: string, i: nat, out: seq<Run>)
    requires i <= |b| && Tidy(out) && Text(out) == b[..i]
    ensures Tidy(TokenizeFrom(u, b, i, out)) && Text(TokenizeFrom(u, b, i, out)) == b
    decreases |b| - i
  {
    hide Token, Push, Tidy, Text;
    if i == |b| {
      assert b[..i] == b;
    } else {
      var (e, kind) := Token(u, b, i);
      PushIsTidy(out, b[i..e], kind);
      assert b[..i] + b[i..e] == b[..e];
      TokenizeFromKeeps(u, b, e, Push(out, b[i..e], kind));
    }
  }

  /** Whatever the line and wherever it starts: the runs put together are the line. */
  lemma TokenizeIsLossless(u: Unicode, b: string, startsIn: Option<nat>)
    ensures Text(Tokenize(u, b, startsIn)) == b && Tidy(Tokenize(u, b, startsIn))
  {
    var i := LeadEnd(b, startsIn);
    PushIsTidy([], b[..i], Comment);
    assert "" + b[..i] == b[..i];
    TokenizeFromKeeps(u, b, i, Push([], b[..i], Comment));
  }

  // --------------------------------------------------------------- agreement

  /** Where the inside of a long bracket begins that opens at `i`, and its level. */
  function OpenedAt(b: string, i: nat): Option<(nat, nat)> {
    if DashesAt(b, i) then
      (match OpenAt(b, i + 2)
       case Some(n) => Some((i + n + 4, n))
       case None => None)
    else
      (match OpenAt(b, i)
       case Some(n) => Some((i + n + 2, n))
       case None => None)
  }

  predicate NeverCloses(b: string, j: nat, level: nat) {
    forall k :: j <= k < |b| ==> CloseAt(b, k) != Some(level)
  }

  /** The long bracket in which the tokenizer runs off the line, going token by token from `i`. */
  ghost function RunsOff(u: Unicode, b: string, i: nat): Option<nat>
    requires i <= |b|
    decreases |b| - i
  {
    if i == |b| then None
    else if OpenedAt(b, i).Some? && NeverCloses(b, OpenedAt(b, i).value.0, OpenedAt(b, i).value.1) then
      Some(OpenedAt(b, i).value.1)
    else RunsOff(u, b, Token(u, b, i).0)
  }

  ghost function LineRunsOff(u: Unicode, b: string, startsIn: Option<nat>): Option<nat> {
    if startsIn.Some? && NeverCloses(b, 0, startsIn.value) then startsIn
    else RunsOff(u, b, LeadEnd(b, startsIn))
  }

  lemma {:induction false} FindCloseFinds(b: string, j: nat, level: nat)
    requires j <= |b|
    ensures FindClose(b, j, level) == |b| <==> NeverCloses(b, j, level)
    decreases |b| - j
  {
    if j < |b| && CloseAt(b, j) != Some(level) {
      FindCloseFinds(b, j + 1, level);
    }
  }

  /** Inside a bracket both look for the same close. */
  lemma {:induction false} ScanBlock(b: string, j: nat, level: nat, lines: bool)
    requires j <= |b|
    ensures NeverCloses(b, j, level) ==> Scan(b, j, Some(level), lines) == Some(level)
    ensures !NeverCloses(b, j, level) ==> Scan(b, j, Some(level), lines) == Scan(b, BlockEnd(b, j, level), None, lines)
    decreases |b| - j
  {
    FindCloseFinds(b, j, level);
    if j < |b| && CloseAt(b, j) != Some(level) {
      ScanBlock(b, j + 1, level, lines);
    }
  }

  /** Characters that open nothing are passed over one at a time. */
  lemma {:induction false} ScanOver(b: string, i: nat, e: nat)
    requires i <= e <= |b|
    requires forall k :: i <= k < e ==> b[k] != '-' && b[k] != '[' && b[k] != '"' && b[k] != '\''
    ensures Scan(b, i, None, false) == Scan(b, e, None, false)
    decreases e - i
  {
    if i < e {
      ScanOver(b, i + 1, e);
    }
  }

  lemma {:induction false} NumberIsPlain(b: string, j: nat)
    requires j <= |b|
    ensures forall k :: j <= k < NumberEnd(b, j) ==> b[k] != '-' && b[k] != '[' && b[k] != '"' && b[k] != '\''
    decreases |b| - j
  {
    if j < |b| && (IsAsciiLetter(b[j]) || IsDigit(b[j]) || b[j] == '.') {
      NumberIsPlain(b, j + 1);
    }
  }

  lemma {:induction false} WordIsPlain(u: Unicode, b: string, j: nat)
    requires j <= |b|
    ensures forall k :: j <= k < WordEnd(u, b, j) ==> b[k] != '-' && b[k] != '[' && b[k] != '"' && b[k] != '\''
    decreases |b| - j
  {
    if j < |b| && (IsAlphanumeric(u, b[j]) || b[j] == '_') {
      WordIsPlain(u, b, j + 1);
    }
  }

  /** A token that is no long bracket leaves the scanner in code, at the token's end. */
  lemma ScanToken(u: Unicode, b: string, i: nat)
    requires i < |b| && OpenedAt(b, i).None?
    ensures Scan(b, i, None, false) == Scan(b, Token(u, b, i).0, None, false)
  {
    if !DashesAt(b, i) && !QuoteAt(b, i) {
      if IsDigit(b[i]) {
        NumberIsPlain(b, i);
        ScanOver(b, i, NumberEnd(b, i));
      } else if IsAlphabetic(u, b[i]) || b[i] == '_' {
        WordIsPlain(u, b, i);
        ScanOver(b, i, WordEnd(u, b, i));
      }
    }
  }

  lemma ScanOpens(u: Unicode, b: string, i: nat)
    requires i < |b| && OpenedAt(b, i).Some?
    ensures var (j, n) := OpenedAt(b, i).value;
            j <= |b| && Scan(b, i, None, false) == Scan(b, j, Some(n), false) && Token(u, b, i).0 == BlockEnd(b, j, n)
  {
  }

  lemma {:induction false} ScanIsRunsOff(u: Unicode, b: string, i: nat)
    requires i <= |b|
    ensures Scan(b, i, None, false) == RunsOff(u, b, i)
    decreases |b| - i
  {
    if i < |b| {
      hide Token, OpenedAt, NeverCloses, BlockEnd;
      ScanIsRunsOff(u, b, Token(u, b, i).0);
      if OpenedAt(b, i).Some? {
        var (j, n) := OpenedAt(b, i).value;
        ScanOpens(u, b, i);
        ScanBlock(b, j, n, false);
      } else {
        ScanToken(u, b, i);
      }
    }
  }

  /** The scanner's state after a line is the bracket in which the tokenizer ran off that line, if any. */
  lemma ScannerAgreesWithTokenizer(u: Unicode, b: string, startsIn: Option<nat>)
    ensures Scan(b, 0, startsIn, false) == LineRunsOff(u, b, startsIn)
  {
    if startsIn.Some? {
      ScanBlock(b, 0, startsIn.value, false);
    }
    ScanIsRunsOff(u, b, LeadEnd(b, startsIn));
  }

  // ---------------------------------------------------------- lines and files

  predicate IsLine(line: string) {
    '\n' !in line
  }

  /** The lines of a file, each ended by a newline. */
  function Joined(lines: seq<string>): string {
    if lines == [] then "" else lines[0] + ['\n'] + Joined(lines[1..])
  }

  /** Scanning line by line. */
  function After(lines: seq<string>, open: Option<nat>): Option<nat> {
    if lines == [] then open else After(lines[1..], Scan(lines[0], 0, open, false))
  }

  lemma {:induction false} EqualsOfLine(line: string, rest: string, i: nat)
    requires i <= |line|
    ensures Equals(line + ['\n'] + rest, i) == Equals(line, i)
    decreases |line| - i
  {
    if i < |line| && line[i] == '=' {
      EqualsOfLine(line, rest, i + 1);
    }
  }

  lemma BracketOfLine(line: string, rest: string, i: nat, c: char)
    requires i <= |line| && c != '\n'
    ensures BracketAt(line + ['\n'] + rest, i, c) == BracketAt(line, i, c)
  {
    if i < |line| {
      EqualsOfLine(line, rest, i + 1);
    }
  }

  lemma {:induction false} QuotedOfLine(line: string, rest: string, j: nat, quote: char)
    requires IsLine(line) && j <= |line| && quote != '\n'
    ensures SkipQuoted(line + ['\n'] + rest, j, quote, true) == SkipQuoted(line, j, quote, false) <= |line|
    decreases |line| - j
  {
    if j < |line| {
      if line[j] == '\\' {
        if j + 2 <= |line| {
          QuotedOfLine(line, rest, j + 2, quote);
        }
      } else if line[j] != quote {
        QuotedOfLine(line, rest, j + 1, quote);
      }
    }
  }

  lemma {:induction false} EndOfLine(line: string, rest: string, i: nat)
    requires IsLine(line) && i <= |line|
    ensures LineEnd(line + ['\n'] + rest, i, true) == |line|
    decreases |line| - i
  {
    if i < |line| {
      EndOfLine(line, rest, i + 1);
    }
  }

  /** The first line of a text, scanned as part of it, ends where it ends on its own. */
  lemma {:induction false} ScanLine(line: string, rest: string, i: nat, open: Option<nat>)
    requires IsLine(line) && i <= |line|
    ensures var text := line + ['\n'] + rest;
            Scan(text, i, open, true) == Scan(text, |line| + 1, Scan(line, i, open, false), true)
    decreases |line| - i
  {
    hide BracketAt, SkipQuoted, LineEnd;
    var text := line + ['\n'] + rest;
    BracketOfLine(line, rest, i, ']');
    BracketOfLine(line, rest, i, '[');
    if i < |line| {
      match open
      case Some(level) =>
        if CloseAt(line, i) == Some(level) {
          ScanLine(line, rest, i + level + 2, None);
        } else {
          ScanLine(line, rest, i + 1, open);
        }
      case None =>
        ScanCode(line, rest, i);
    } else {
      NoBracketAtEnd(line, i);
    }
  }

  lemma NoBracketAtEnd(line: string, i: nat)
    requires i >= |line|
    ensures OpenAt(line, i).None? && CloseAt(line, i).None?
  {
  }

  /** One step of `ScanLine` outside brackets. */
  lemma {:induction false} ScanCode(line: string, rest: string, i: nat)
    requires IsLine(line) && i < |line|
    ensures var text := line + ['\n'] + rest;
            Scan(text, i, None, true) == Scan(text, |line| + 1, Scan(line, i, None, false), true)
    decreases |line| - i, 0
  {
    hide BracketAt, SkipQuoted;
    var text := line + ['\n'] + rest;
    BracketOfLine(line, rest, i, '[');
    assert DashesAt(text, i) == DashesAt(line, i) && QuoteAt(text, i) == QuoteAt(line, i);
    if DashesAt(line, i) {
      BracketOfLine(line, rest, i + 2, '[');
      EndOfLine(line, rest, i + 2);
      match OpenAt(line, i + 2)
      case Some(n) => ScanLine(line, rest, i + n + 4, Some(n));
      case None => ScanLine(line, rest, |line|, None);
    } else if OpenAt(line, i).Some? {
      ScanLine(line, rest, i + OpenAt(line, i).value + 2, OpenAt(line, i));
    } else if QuoteAt(line, i) {
      QuotedOfLine(line, rest, i + 1, line[i]);
      ScanLine(line, rest, SkipQuoted(line, i + 1, line[i], false), None);
    } else {
      ScanLine(line, rest, i + 1, None);
    }
  }

  lemma {:induction false} EqualsShift(x: string, y: string, i: nat)
    ensures Equals(x + y, |x| + i) == Equals(y, i)
    decreases if i < |y| then |y| - i else 0
  {
    if i < |y| && y[i] == '=' {
      EqualsShift(x, y, i + 1);
    }
  }

  lemma BracketShift(x: string, y: string, i: nat, c: char)
    ensures BracketAt(x + y, |x| + i, c) == BracketAt(y, i, c)
  {
    EqualsShift(x, y, i + 1);
  }

  lemma {:induction false} QuotedShift(x: string, y: string, j: nat, quote: char)
    ensures SkipQuoted(x + y, |x| + j, quote, true) == |x| + SkipQuoted(y, j, quote, true)
    decreases if j < |y| then |y| - j else 0
  {
    if j < |y| {
      if y[j] == '\\' {
        QuotedShift(x, y, j + 2, quote);
      } else if y[j] != quote {
        QuotedShift(x, y, j + 1, quote);
      }
    }
  }

  lemma {:induction false} LineEndShift(x: string, y: string, i: nat)
    requires i <= |y|
    ensures LineEnd(x + y, |x| + i, true) == |x| + LineEnd(y, i, true)
    decreases |y| - i
  {
    if i < |y| {
      LineEndShift(x, y, i + 1);
    }
  }

  /** What comes before does not matter but for the state it leaves. */
  lemma {:induction false} ScanShift(x: string, y: string, i: nat, open: Option<nat>)
    ensures Scan(x + y, |x| + i, open, true) == Scan(y, i, open, true)
    decreases if i < |y| then |y| - i else 0
  {
    hide BracketAt, SkipQuoted, LineEnd;
    if i < |y| {
      BracketShift(x, y, i, ']');
      match open
      case Some(level) =>
        ScanShift(x, y, if CloseAt(y, i) == Some(level) then i + level + 2 else i + 1,
                  if CloseAt(y, i) == Some(level) then None else open);
      case None => ScanCodeShift(x, y, i);
    }
  }

  lemma {:induction false} ScanCodeShift(x: string, y: string, i: nat)
    requires i < |y|
    ensures Scan(x + y, |x| + i, None, true) == Scan(y, i, None, true)
    decreases |y| - i, 0
  {
    hide BracketAt, SkipQuoted, LineEnd;
    BracketShift(x, y, i, '[');
    BracketShift(x, y, i + 2, '[');
    assert DashesAt(x + y, |x| + i) == DashesAt(y, i) && QuoteAt(x + y, |x| + i) == QuoteAt(y, i);
    if DashesAt(y, i) {
      LineEndShift(x, y, i + 2);
      match OpenAt(y, i + 2)
      case Some(n) => ScanShift(x, y, i + n + 4, Some(n));
      case None => ScanShift(x, y, LineEnd(y, i + 2, true), None);
    } else if OpenAt(y, i).Some? {
      ScanShift(x, y, i + OpenAt(y, i).value + 2, OpenAt(y, i));
    } else if QuoteAt(y, i) {
      QuotedShift(x, y, i + 1, y[i]);
      ScanShift(x, y, SkipQuoted(y, i + 1, y[i], true), None);
    } else {
      ScanShift(x, y, i + 1, None);
    }
  }

  /** Line by line gives what one scan of the whole file gives. */
  lemma {:induction false} LinesAgreeWithFile(lines: seq<string>, open: Option<nat>)
    requires forall i :: 0 <= i < |lines| ==> IsLine(lines[i])
    ensures Scan(Joined(lines), 0, open, true) == After(lines, open)
    decreases |lines|
  {
    hide Scan;
    if lines == [] {
      EmptyScan(open);
    } else {
      var line, rest := lines[0], Joined(lines[1..]);
      ScanLine(line, rest, 0, open);
      ScanShift(line + ['\n'], rest, 0, Scan(line, 0, open, false));
      LinesAgreeWithFile(lines[1..], Scan(line, 0, open, false));
    }
  }

  lemma EmptyScan(open: Option<nat>)
    ensures Scan("", 0, open, true) == open
  {
  }
}
