/**
 The source pane's view of Lua: which lines begin inside a long bracket (Lua 5.4 Reference Manual,
 section 3.1), and the coloured runs of one line. Two readers of the same text that must agree.
 */
module LuaSyntax {
  import opened Wrappers

  datatype Tok = Plain | Keyword | Literal | Str | Comment | Ident

  datatype Run = Run(text: string, kind: Tok)

  /** The character classes of Unicode above ASCII. */
  datatype Unicode = Unicode(alphabetic: char -> bool, numeric: char -> bool, whitespace: char -> bool)

  predicate IsAscii(c: char) {
    c as int < 128
  }

  predicate IsDigit(c: char) {
    '0' <= c <= '9'
  }

  predicate IsAsciiLetter(c: char) {
    'a' <= c <= 'z' || 'A' <= c <= 'Z'
  }

  predicate IsAlphabetic(u: Unicode, c: char) {
    if IsAscii(c) then IsAsciiLetter(c) else u.alphabetic(c)
  }

  predicate IsAlphanumeric(u: Unicode, c: char) {
    if IsAscii(c) then IsAsciiLetter(c) || IsDigit(c) else u.alphabetic(c) || u.numeric(c)
  }

  predicate IsWhitespace(u: Unicode, c: char) {
    if IsAscii(c) then c == ' ' || '\t' <= c <= '\r' else u.whitespace(c)
  }

  const KEYWORDS: seq<string> := [
    "and", "break", "do", "else", "elseif", "end", "false", "for", "function", "goto", "if", "in",
    "local", "nil", "not", "or", "repeat", "return", "then", "true", "until", "while", "self"]

  const LITERALS: seq<string> := ["nil", "true", "false"]

  // --------------------------------------------------------------- brackets

  predicate CharAt(b: string, i: nat, c: char) {
    i < |b| && b[i] == c
  }

  /** The number of equals signs from `i` on. */
  function Equals(b: string, i: nat): (n: nat)
    ensures i <= |b| ==> i + n <= |b|
    decreases if i < |b| then |b| - i else 0
  {
    if CharAt(b, i, '=') then 1 + Equals(b, i + 1) else 0
  }

  /** A bracket character, equals signs, the same bracket character: their number. */
  function BracketAt(b: string, i: nat, c: char): (r: Option<nat>)
    ensures r.Some? ==> i + r.value + 2 <= |b|
  {
    if !CharAt(b, i, c) then None
    else
      var n := Equals(b, i + 1);
      if CharAt(b, i + 1 + n, c) then Some(n) else None
  }

  function OpenAt(b: string, i: nat): Option<nat> {
    BracketAt(b, i, '[')
  }

  function CloseAt(b: string, i: nat): Option<nat> {
    BracketAt(b, i, ']')
  }

  /** A long comment's level, if two dashes and an opening bracket stand at `i`. */
  predicate DashesAt(b: string, i: nat) {
    CharAt(b, i, '-') && CharAt(b, i + 1, '-')
  }

  predicate QuoteAt(b: string, i: nat) {
    CharAt(b, i, '"') || CharAt(b, i, '\'')
  }

  // ------------------------------------------------------------- the scanner

  /**
   Where a quoted string whose inside begins at `j` ends: past its quote, or at the end of the line.
   With `lines`, a line ends at a newline; without, the text is one line.
   */
  function SkipQuoted(b: string, j: nat, quote: char, lines: bool): (e: nat)
    ensures j <= |b| ==> j <= e <= |b|
    decreases if j < |b| then |b| - j else 0
  {
    if j >= |b| then |b|
    else if lines && b[j] == '\n' then j
    else if b[j] == '\\' then (if lines && CharAt(b, j + 1, '\n') then j + 1 else SkipQuoted(b, j + 2, quote, lines))
    else if b[j] == quote then j + 1
    else SkipQuoted(b, j + 1, quote, lines)
  }

  function LineEnd(b: string, i: nat, lines: bool): (e: nat)
    requires i <= |b|
    ensures i <= e <= |b|
    decreases |b| - i
  {
    if !lines || i == |b| then |b|
    else if b[i] == '\n' then i
    else LineEnd(b, i + 1, lines)
  }

  /** The long bracket open at the end, starting at `i` with `open`. */
  function Scan(b: string, i: nat, open: Option<nat>, lines: bool): Option<nat>
    decreases if i < |b| then |b| - i else 0
  {
    if i >= |b| then open
    else
      match open
      case Some(level) =>
        if CloseAt(b, i) == Some(level) then Scan(b, i + level + 2, None, lines) else Scan(b, i + 1, open, lines)
      case None =>
        if DashesAt(b, i) then
          (match OpenAt(b, i + 2)
           case Some(n) => Scan(b, i + n + 4, Some(n), lines)
           case None => Scan(b, LineEnd(b, i + 2, lines), None, lines))
        else if OpenAt(b, i).Some? then Scan(b, i + OpenAt(b, i).value + 2, OpenAt(b, i), lines)
        else if QuoteAt(b, i) then Scan(b, SkipQuoted(b, i + 1, b[i], lines), None, lines)
        else Scan(b, i + 1, None, lines)
  }

  // ----------------------------------------------------------- the tokenizer

  /** The first position from `j` on where a bracket of this level closes, or the end. */
  function FindClose(b: string, j: nat, level: nat): (k: nat)
    requires j <= |b|
    ensures j <= k <= |b|
    ensures k < |b| ==> CloseAt(b, k) == Some(level)
    decreases |b| - j
  {
    if j == |b| || CloseAt(b, j) == Some(level) then j else FindClose(b, j + 1, level)
  }

  /** Where a long bracket whose inside begins at `j` ends. */
  function BlockEnd(b: string, j: nat, level: nat): (e: nat)
    requires j <= |b|
    ensures j <= e <= |b|
  {
    var k := FindClose(b, j, level);
    if k + level + 2 <= |b| then k + level + 2 else |b|
  }

  function NumberEnd(b: string, j: nat): (e: nat)
    requires j <= |b|
    ensures j <= e <= |b|
    ensures j < |b| && IsDigit(b[j]) ==> j < e
    decreases |b| - j
  {
    if j < |b| && (IsAsciiLetter(b[j]) || IsDigit(b[j]) || b[j] == '.') then NumberEnd(b, j + 1) else j
  }

  function WordEnd(u: Unicode, b: string, j: nat): (e: nat)
    requires j <= |b|
    ensures j <= e <= |b|
    ensures j < |b| && (IsAlphabetic(u, b[j]) || b[j] == '_') ==> j < e
    decreases |b| - j
  {
    if j < |b| && (IsAlphanumeric(u, b[j]) || b[j] == '_') then WordEnd(u, b, j + 1) else j
  }

  /** The next character that is not white space opens a call. */
  predicate IsCall(u: Unicode, b: string, i: nat)
    requires i <= |b|
    decreases |b| - i
  {
    i < |b| && (if IsWhitespace(u, b[i]) then IsCall(u, b, i + 1) else b[i] == '(')
  }

  function WordKind(u: Unicode, b: string, i: nat, j: nat): Tok
    requires i <= j <= |b|
  {
    if b[i..j] in LITERALS then Literal
    else if b[i..j] in KEYWORDS then Keyword
    else if IsCall(u, b, j) then Ident
    else Plain
  }

  /** The token at `i`, outside any long bracket: where it ends and what it is. */
  function Token(u: Unicode, b: string, i: nat): (r: (nat, Tok))
    requires i < |b|
    ensures i < r.0 <= |b|
  {
    if DashesAt(b, i) then
      (match OpenAt(b, i + 2)
       case Some(n) => (BlockEnd(b, i + n + 4, n), Comment)
       case None => (|b|, Comment))
    else if QuoteAt(b, i) then (SkipQuoted(b, i + 1, b[i], false), Str)
    else if OpenAt(b, i).Some? then (BlockEnd(b, i + OpenAt(b, i).value + 2, OpenAt(b, i).value), Str)
    else if IsDigit(b[i]) then (NumberEnd(b, i), Literal)
    else if IsAlphabetic(u, b[i]) || b[i] == '_' then
      var j := WordEnd(u, b, i);
      (j, WordKind(u, b, i, j))
    else (i + 1, Plain)
  }

  /** Append a run, merged into the last one if the kind is the same. */
  function Push(out: seq<Run>, text: string, kind: Tok): seq<Run> {
    if text == "" then out
    else if out != [] && out[|out| - 1].kind == kind then
      out[..|out| - 1] + [Run(out[|out| - 1].text + text, kind)]
    else out + [Run(text, kind)]
  }

  function TokenizeFrom(u: Unicode, b: string, i: nat, out: seq<Run>): seq<Run>
    requires i <= |b|
    decreases |b| - i
  {
    if i == |b| then out
    else
      var (e, kind) := Token(u, b, i);
      TokenizeFrom(u, b, e, Push(out, b[i..e], kind))
  }

  /** What belongs to the bracket that was open when the line began. */
  function LeadEnd(b: string, startsIn: Option<nat>): (e: nat)
    ensures e <= |b|
  {
    if startsIn.Some? then BlockEnd(b, 0, startsIn.value) else 0
  }

  function Tokenize(u: Unicode, b: string, startsIn: Option<nat>): seq<Run> {
    var i := LeadEnd(b, startsIn);
    TokenizeFrom(u, b, i, Push([], b[..i], Comment))
  }
}
