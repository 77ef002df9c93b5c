/**
 Lua's own rule for quoted strings, which may run on to the next line behind a backslash or `\z` (Lua
 5.4 Reference Manual, section 3.1). The scanner ends them with the line; this module says when that
 makes no difference.
 */
module LuaStrings {
  import opened Wrappers
  import opened LuaSyntax
  import opened LuaSyntaxTheorems

  /** What Lua is in the middle of at the end of a text: code, a long bracket, a quoted string, or an error. */
  datatype LuaState = Code | InBlock(level: nat) | InString(quote: char) | NotLua

  datatype StringEnd = Closed(end: nat) | Open | Broken

  predicate IsSpace(c: char) {
    c == ' ' || '\t' <= c <= '\r'
  }

  /**
   A quoted string whose inside goes on at `j`. A backslash takes the next character along, be it a
   newline; `\z` skips white space, newlines included; any other newline is an error.
   */
  function LuaString(b: string, j: nat, quote: char, skipping: bool): (r: StringEnd)
    ensures r.Closed? ==> j < r.end <= |b|
    decreases if j < |b| then |b| - j else 0
  {
    if j >= |b| then Open
    else if skipping && IsSpace(b[j]) then LuaString(b, j + 1, quote, true)
    else if b[j] == '\n' then Broken
    else if b[j] == '\\' then LuaString(b, j + 2, quote, CharAt(b, j + 1, 'z'))
    else if b[j] == quote then Closed(j + 1)
    else LuaString(b, j + 1, quote, false)
  }

  /** Lua's reading of a text from `i` on. */
  function LuaScan(b: string, i: nat, state: LuaState): LuaState
    decreases if i < |b| then |b| - i else 0
  {
    if i >= |b| then state
    else
      match state
      case InBlock(level) =>
        if CloseAt(b, i) == Some(level) then LuaScan(b, i + level + 2, Code) else LuaScan(b, i + 1, state)
      case Code =>
        if DashesAt(b, i) then
          (match OpenAt(b, i + 2)
           case Some(n) => LuaScan(b, i + n + 4, InBlock(n))
           case None => LuaScan(b, LineEnd(b, i + 2, true), Code))
        else if OpenAt(b, i).Some? then LuaScan(b, i + OpenAt(b, i).value + 2, InBlock(OpenAt(b, i).value))
        else if QuoteAt(b, i) then
          (match LuaString(b, i + 1, b[i], false)
           case Closed(e) => LuaScan(b, e, Code)
           case Open => InString(b[i])
           case Broken => NotLua)
        else LuaScan(b, i + 1, Code)
      case _ => state
  }

  /** What the scanner knows of these states. */
  function Seen(open: Option<nat>): LuaState {
    if open.Some? then InBlock(open.value) else Code
  }

  /** The scanner finds the closing quote on this line. */
  predicate Closes(line: string, j: nat, quote: char)
    decreases if j < |line| then |line| - j else 0
  {
    j < |line| &&
    if line[j] == '\\' then Closes(line, j + 2, quote)
    else line[j] == quote || Closes(line, j + 1, quote)
  }

  /** Scanning this line from `i`, the scanner comes to a quoted string without its closing quote. */
  predicate LeavesStringOpen(line: string, i: nat, open: Option<nat>)
    decreases if i < |line| then |line| - i else 0
  {
    i < |line| &&
    match open
    case Some(level) =>
      if CloseAt(line, i) == Some(level) then LeavesStringOpen(line, i + level + 2, None)
      else LeavesStringOpen(line, i + 1, open)
    case None =>
      if DashesAt(line, i) then
        (match OpenAt(line, i + 2)
         case Some(n) => LeavesStringOpen(line, i + n + 4, Some(n))
         case None => false)
      else if OpenAt(line, i).Some? then LeavesStringOpen(line, i + OpenAt(line, i).value + 2, OpenAt(line, i))
      else if QuoteAt(line, i) then
        !Closes(line, i + 1, line[i]) || LeavesStringOpen(line, SkipQuoted(line, i + 1, line[i], false), None)
      else LeavesStringOpen(line, i + 1, None)
  }

  // ------------------------------------------------------------------ one line

  predicate IsQuote(c: char) {
    c == '"' || c == '\''
  }

  lemma {:induction false} StringCloses(line: string, rest: string, j: nat, quote: char, skipping: bool)
    requires IsLine(line) && IsQuote(quote) && Closes(line, j, quote)
    ensures LuaString(line + ['\n'] + rest, j, quote, skipping) == Closed(SkipQuoted(line, j, quote, false))
    decreases if j < |line| then |line| - j else 0
  {
    var text := line + ['\n'] + rest;
    assert text[j] == line[j];
    if line[j] == '\\' {
      StringCloses(line, rest, j + 2, quote, CharAt(text, j + 1, 'z'));
    } else if line[j] != quote {
      StringCloses(line, rest, j + 1, quote, skipping && IsSpace(line[j]));
    }
  }

  lemma {:induction false} StringRunsOn(line: string, j: nat, quote: char, skipping: bool)
    requires IsLine(line) && IsQuote(quote) && !Closes(line, j, quote)
    ensures !LuaString(line + ['\n'], j, quote, skipping).Closed?
    decreases if j < |line| then |line| - j else 0
  {
    var text := line + ['\n'];
    if j < |line| {
      assert text[j] == line[j];
      if line[j] == '\\' {
        StringRunsOn(line, j + 2, quote, CharAt(text, j + 1, 'z'));
      } else {
        StringRunsOn(line, j + 1, quote, skipping && IsSpace(line[j]));
      }
    } else if j == |line| {
      assert text[j] == '\n';
      assert LuaString(text, j + 1, quote, true) == Open;
    }
  }

  /** What Lua makes of a line that leaves no string open is what the scanner makes of it. */
  lemma {:induction false} LuaLine(line: string, rest: string, i: nat, open: Option<nat>)
    requires IsLine(line) && i <= |line| && !LeavesStringOpen(line, i, open)
    ensures var text := line + ['\n'] + rest;
            LuaScan(text, i, Seen(open)) == LuaScan(text, |line| + 1, Seen(Scan(line, i, open, false)))
    decreases |line| - i, 1
  {
    hide BracketAt, LuaString, LineEnd, Closes, SkipQuoted;
    var text := line + ['\n'] + rest;
    BracketOfLine(line, rest, i, ']');
    BracketOfLine(line, rest, i, '[');
    if i < |line| {
      match open
      case Some(level) =>
        if CloseAt(line, i) == Some(level) {
          LuaLine(line, rest, i + level + 2, None);
        } else {
          LuaLine(line, rest, i + 1, open);
        }
      case None => LuaCode(line, rest, i);
    } else {
      NoBracketAtEnd(line, i);
    }
  }

  lemma {:induction false} LuaCode(line: string, rest: string, i: nat)
    requires IsLine(line) && i < |line| && !LeavesStringOpen(line, i, None)
    ensures var text := line + ['\n'] + rest;
            LuaScan(text, i, Code) == LuaScan(text, |line| + 1, Seen(Scan(line, i, None, false)))
    decreases |line| - i, 0
  {
    hide BracketAt, LuaString, Closes, SkipQuoted;
    var text := line + ['\n'] + rest;
    BracketOfLine(line, rest, i, '[');
    assert DashesAt(text, i) == DashesAt(line, i) && QuoteAt(text, i) == QuoteAt(line, i);
    if DashesAt(line, i) {
      BracketOfLine(line, rest, i + 2, '[');
      EndOfLine(line, rest, i + 2);
      match OpenAt(line, i + 2)
      case Some(n) => LuaLine(line, rest, i + n + 4, Some(n));
      case None => LuaLine(line, rest, |line|, None);
    } else if OpenAt(line, i).Some? {
      LuaLine(line, rest, i + OpenAt(line, i).value + 2, OpenAt(line, i));
    } else if QuoteAt(line, i) {
      StringCloses(line, rest, i + 1, line[i], false);
      LuaLine(line, rest, SkipQuoted(line, i + 1, line[i], false), None);
    } else {
      LuaLine(line, rest, i + 1, None);
    }
  }

  predicate InTrouble(state: LuaState) {
    state.InString? || state.NotLua?
  }

  /** After a line that leaves a string open Lua is in that string, or has given up. */
  lemma {:induction false} LuaLineRunsOn(line: string, i: nat, open: Option<nat>)
    requires IsLine(line) && LeavesStringOpen(line, i, open)
    ensures InTrouble(LuaScan(line + ['\n'], i, Seen(open)))
    decreases |line| - i
  {
    hide BracketAt, LuaString, LineEnd, Closes, SkipQuoted;
    var text := line + ['\n'];
    assert text + [] == text;
    BracketOfLine(line, [], i, ']');
    BracketOfLine(line, [], i, '[');
    assert DashesAt(text, i) == DashesAt(line, i) && QuoteAt(text, i) == QuoteAt(line, i);
    match open
    case Some(level) =>
      if CloseAt(line, i) == Some(level) {
        LuaLineRunsOn(line, i + level + 2, None);
      } else {
        LuaLineRunsOn(line, i + 1, open);
      }
    case None =>
      if DashesAt(line, i) {
        BracketOfLine(line, [], i + 2, '[');
        LuaLineRunsOn(line, i + OpenAt(line, i + 2).value + 4, OpenAt(line, i + 2));
      } else if OpenAt(line, i).Some? {
        LuaLineRunsOn(line, i + OpenAt(line, i).value + 2, OpenAt(line, i));
      } else if QuoteAt(line, i) {
        if Closes(line, i + 1, line[i]) {
          StringCloses(line, [], i + 1, line[i], false);
          LuaLineRunsOn(line, SkipQuoted(line, i + 1, line[i], false), None);
        } else {
          StringRunsOn(line, i + 1, line[i], false);
        }
      } else {
        LuaLineRunsOn(line, i + 1, None);
      }
  }

  // ------------------------------------------------------------ line after line

  function Shifted(r: StringEnd, n: nat): StringEnd {
    if r.Closed? then Closed(n + r.end) else r
  }

  lemma {:induction false} StringShift(x: string, y: string, j: nat, quote: char, skipping: bool)
    ensures LuaString(x + y, |x| + j, quote, skipping) == Shifted(LuaString(y, j, quote, skipping), |x|)
    decreases if j < |y| then |y| - j else 0
  {
    if j < |y| {
      if skipping && IsSpace(y[j]) {
        StringShift(x, y, j + 1, quote, true);
      } else if y[j] == '\\' {
        assert CharAt(x + y, |x| + j + 1, 'z') == CharAt(y, j + 1, 'z');
        StringShift(x, y, j + 2, quote, CharAt(y, j + 1, 'z'));
      } else if y[j] != quote && y[j] != '\n' {
        StringShift(x, y, j + 1, quote, false);
      }
    }
  }

  /** What comes before does not matter but for the state it leaves. */
  lemma {:induction false} LuaShift(x: string, y: string, i: nat, state: LuaState)
    ensures LuaScan(x + y, |x| + i, state) == LuaScan(y, i, state)
    decreases if i < |y| then |y| - i else 0, 1
  {
    hide BracketAt, LuaString, LineEnd;
    if i < |y| {
      BracketShift(x, y, i, ']');
      match state
      case InBlock(level) =>
        LuaShift(x, y, if CloseAt(y, i) == Some(level) then i + level + 2 else i + 1,
                 if CloseAt(y, i) == Some(level) then Code else state);
      case Code => LuaCodeShift(x, y, i);
      case _ =>
    }
  }

  lemma {:induction false} LuaCodeShift(x: string, y: string, i: nat)
    requires i < |y|
    ensures LuaScan(x + y, |x| + i, Code) == LuaScan(y, i, Code)
    decreases |y| - i, 0
  {
    hide BracketAt, LuaString, LineEnd;
    BracketShift(x, y, i, '[');
    BracketShift(x, y, i + 2, '[');
    assert DashesAt(x + y, |x| + i) == DashesAt(y, i) && QuoteAt(x + y, |x| + i) == QuoteAt(y, i);
    if DashesAt(y, i) {
      LineEndShift(x, y, i + 2);
      match OpenAt(y, i + 2)
      case Some(n) => LuaShift(x, y, i + n + 4, InBlock(n));
      case None => LuaShift(x, y, LineEnd(y, i + 2, true), Code);
    } else if OpenAt(y, i).Some? {
      LuaShift(x, y, i + OpenAt(y, i).value + 2, InBlock(OpenAt(y, i).value));
    } else if QuoteAt(y, i) {
      StringShift(x, y, i + 1, y[i], false);
      var r := LuaString(y, i + 1, y[i], false);
      if r.Closed? {
        LuaShift(x, y, r.end, Code);
      }
    } else {
      LuaShift(x, y, i + 1, Code);
    }
  }

  ghost predicate AllLines(lines: seq<string>) {
    forall k :: 0 <= k < |lines| ==> IsLine(lines[k])
  }

  /** No line, read by the scanner from the state it has there, leaves a quoted string open. */
  ghost predicate StringsClose(lines: seq<string>, open: Option<nat>) {
    forall k :: 0 <= k < |lines| ==> !LeavesStringOpen(lines[k], 0, After(lines[..k], open))
  }

  lemma StringsCloseBelow(lines: seq<string>, open: Option<nat>)
    requires lines != [] && StringsClose(lines, open)
    ensures !LeavesStringOpen(lines[0], 0, open) && StringsClose(lines[1..], Scan(lines[0], 0, open, false))
  {
    assert lines[..0] == [];
    forall k | 0 <= k < |lines| - 1
      ensures !LeavesStringOpen(lines[1..][k], 0, After(lines[1..][..k], Scan(lines[0], 0, open, false)))
    {
      assert lines[..k + 1][1..] == lines[1..][..k] && !LeavesStringOpen(lines[k + 1], 0, After(lines[..k + 1], open));
    }
  }

  lemma {:induction false} LuaFollowsLines(lines: seq<string>, rest: string, open: Option<nat>)
    requires AllLines(lines) && StringsClose(lines, open)
    ensures LuaScan(Joined(lines) + rest, 0, Seen(open)) == LuaScan(rest, 0, Seen(After(lines, open)))
    decreases |lines|
  {
    hide Scan, LuaScan, StringsClose, LeavesStringOpen;
    if lines == [] {
      assert Joined(lines) + rest == rest;
    } else {
      var line, more := lines[0], Joined(lines[1..]) + rest;
      var next := Scan(line, 0, open, false);
      StringsCloseBelow(lines, open);
      assert Joined(lines) + rest == line + ['\n'] + more;
      LuaLine(line, more, 0, open);
      LuaShift(line + ['\n'], more, 0, Seen(next));
      LuaFollowsLines(lines[1..], rest, next);
    }
  }

  lemma {:induction false} JoinedLast(lines: seq<string>, k: nat)
    requires k < |lines|
    ensures Joined(lines[..k + 1]) == Joined(lines[..k]) + (lines[k] + ['\n'])
    decreases k
  {
    if k == 0 {
      assert lines[..1][1..] == [] && lines[..0] == [];
    } else {
      JoinedLast(lines[1..], k - 1);
      assert lines[..k + 1][1..] == lines[1..][..k] && lines[..k][1..] == lines[1..][..k - 1];
    }
  }

  /** At the start of every line the scanner's state is Lua's own. */
  ghost predicate AgreesWithLua(lines: seq<string>, open: Option<nat>) {
    forall k :: 0 <= k <= |lines| ==> LuaScan(Joined(lines[..k]), 0, Seen(open)) == Seen(After(lines[..k], open))
  }

  lemma ClosedPrefix(lines: seq<string>, open: Option<nat>, k: nat)
    requires k <= |lines| && forall m :: 0 <= m < k ==> !LeavesStringOpen(lines[m], 0, After(lines[..m], open))
    ensures StringsClose(lines[..k], open)
  {
    forall m | 0 <= m < k ensures !LeavesStringOpen(lines[..k][m], 0, After(lines[..k][..m], open)) {
      assert lines[..k][..m] == lines[..m];
    }
  }

  lemma AgreesAt(lines: seq<string>, open: Option<nat>, k: nat)
    requires AllLines(lines) && k <= |lines|
    requires forall m :: 0 <= m < k ==> !LeavesStringOpen(lines[m], 0, After(lines[..m], open))
    ensures LuaScan(Joined(lines[..k]), 0, Seen(open)) == Seen(After(lines[..k], open))
    ensures k < |lines| && LeavesStringOpen(lines[k], 0, After(lines[..k], open)) ==>
              InTrouble(LuaScan(Joined(lines[..k + 1]), 0, Seen(open)))
  {
    hide Scan, LeavesStringOpen;
    ClosedPrefix(lines, open, k);
    LuaFollowsLines(lines[..k], "", open);
    assert Joined(lines[..k]) + "" == Joined(lines[..k]);
    if k < |lines| && LeavesStringOpen(lines[k], 0, After(lines[..k], open)) {
      LuaFollowsLines(lines[..k], lines[k] + ['\n'], open);
      JoinedLast(lines, k);
      LuaLineRunsOn(lines[k], 0, After(lines[..k], open));
    }
  }

  /** The first line that leaves a string open. */
  lemma FirstOpen(lines: seq<string>, open: Option<nat>) returns (k: nat)
    requires !StringsClose(lines, open)
    ensures k < |lines| && LeavesStringOpen(lines[k], 0, After(lines[..k], open))
    ensures forall m :: 0 <= m < k ==> !LeavesStringOpen(lines[m], 0, After(lines[..m], open))
  {
    hide LeavesStringOpen, After;
    k := 0;
    while !LeavesStringOpen(lines[k], 0, After(lines[..k], open))
      invariant k < |lines| && forall m :: 0 <= m < k ==> !LeavesStringOpen(lines[m], 0, After(lines[..m], open))
      decreases |lines| - k
    {
      k := k + 1;
    }
  }

  /** The scanner has Lua's own state at every line exactly if, by its own reading, no line leaves a string open. */
  lemma AgreesWithLuaIff(lines: seq<string>, open: Option<nat>)
    requires AllLines(lines)
    ensures AgreesWithLua(lines, open) <==> StringsClose(lines, open)
  {
    hide Scan, LuaScan, LeavesStringOpen, Joined;
    if StringsClose(lines, open) {
      forall k | 0 <= k <= |lines|
        ensures LuaScan(Joined(lines[..k]), 0, Seen(open)) == Seen(After(lines[..k], open)) {
        AgreesAt(lines, open, k);
      }
    } else {
      var k := FirstOpen(lines, open);
      AgreesAt(lines, open, k);
    }
  }

  // ---------------------------------------------------- files that Lua accepts

  /** An error in a string stays one whatever follows. */
  lemma {:induction false} BrokenStays(line: string, rest: string, j: nat, quote: char, skipping: bool)
    requires LuaString(line + ['\n'], j, quote, skipping).Broken?
    ensures LuaString(line + ['\n'] + rest, j, quote, skipping).Broken?
    decreases if j < |line| then |line| - j else 0
  {
    var text := line + ['\n'];
    assert (text + rest)[j] == text[j];
    if j < |line| {
      if skipping && IsSpace(line[j]) {
        BrokenStays(line, rest, j + 1, quote, true);
      } else if line[j] == '\\' {
        BrokenStays(line, rest, j + 2, quote, CharAt(text, j + 1, 'z'));
      } else if line[j] != quote && line[j] != '\n' {
        BrokenStays(line, rest, j + 1, quote, false);
      }
    } else {
      assert skipping ==> LuaString(text, j + 1, quote, true) == Open;
    }
  }

  /** So does an error in a line that leaves a string open. */
  lemma {:induction false} NotLuaStays(line: string, rest: string, i: nat, open: Option<nat>)
    requires IsLine(line) && LeavesStringOpen(line, i, open) && LuaScan(line + ['\n'], i, Seen(open)).NotLua?
    ensures LuaScan(line + ['\n'] + rest, i, Seen(open)).NotLua?
    decreases |line| - i
  {
    hide BracketAt, LuaString, LineEnd, Closes, SkipQuoted;
    var text, more := line + ['\n'], line + ['\n'] + rest;
    assert text + [] == text;
    BracketOfLine(line, [], i, ']');
    BracketOfLine(line, [], i, '[');
    BracketOfLine(line, rest, i, ']');
    BracketOfLine(line, rest, i, '[');
    assert DashesAt(more, i) == DashesAt(text, i) == DashesAt(line, i) && QuoteAt(more, i) == QuoteAt(text, i) == QuoteAt(line, i);
    match open
    case Some(level) =>
      NotLuaStays(line, rest, if CloseAt(line, i) == Some(level) then i + level + 2 else i + 1,
                  if CloseAt(line, i) == Some(level) then None else open);
    case None =>
      if DashesAt(line, i) {
        BracketOfLine(line, [], i + 2, '[');
        BracketOfLine(line, rest, i + 2, '[');
        NotLuaStays(line, rest, i + OpenAt(line, i + 2).value + 4, OpenAt(line, i + 2));
      } else if OpenAt(line, i).Some? {
        NotLuaStays(line, rest, i + OpenAt(line, i).value + 2, OpenAt(line, i));
      } else if QuoteAt(line, i) {
        if Closes(line, i + 1, line[i]) {
          StringCloses(line, [], i + 1, line[i], false);
          StringCloses(line, rest, i + 1, line[i], false);
          NotLuaStays(line, rest, SkipQuoted(line, i + 1, line[i], false), None);
        } else {
          StringRunsOn(line, i + 1, line[i], false);
          BrokenStays(line, rest, i + 1, line[i], false);
        }
      } else {
        NotLuaStays(line, rest, i + 1, None);
      }
  }

  /** Lua reads the file to its end and is in code there. */
  ghost predicate Accepted(lines: seq<string>) {
    LuaScan(Joined(lines), 0, Code) == Code
  }

  /** By Lua's own reading some line begins inside a quoted string. */
  ghost predicate StringRunsOver(lines: seq<string>) {
    exists k :: 0 <= k <= |lines| && LuaScan(Joined(lines[..k]), 0, Code).InString?
  }

  lemma {:induction false} JoinedSplit(lines: seq<string>, k: nat)
    requires k <= |lines|
    ensures Joined(lines) == Joined(lines[..k]) + Joined(lines[k..])
    decreases k
  {
    if k == 0 {
      assert lines[..0] == [] && lines[0..] == lines;
    } else {
      JoinedSplit(lines[1..], k - 1);
      assert lines[..k][1..] == lines[1..][..k - 1] && lines[k..] == lines[1..][k - 1..];
    }
  }

  lemma JoinedAround(lines: seq<string>, k: nat)
    requires k < |lines|
    ensures Joined(lines) == Joined(lines[..k]) + (lines[k] + ['\n'] + Joined(lines[k + 1..]))
  {
    JoinedSplit(lines, k);
    assert lines[k..][1..] == lines[k + 1..];
  }

  /** After the first line that leaves a string open Lua is in that string, if it does not reject the file. */
  lemma FirstOpenRunsOver(lines: seq<string>, k: nat)
    requires AllLines(lines) && k < |lines| && IsLine(lines[k]) && LeavesStringOpen(lines[k], 0, After(lines[..k], None))
    requires forall m :: 0 <= m < k ==> !LeavesStringOpen(lines[m], 0, After(lines[..m], None))
    ensures LuaScan(Joined(lines[..k + 1]), 0, Code).InString? || LuaScan(Joined(lines), 0, Code).NotLua?
  {
    hide Scan, LuaScan, LeavesStringOpen, Joined, After, StringsClose, IsLine;
    var open, rest := After(lines[..k], None), Joined(lines[k + 1..]);
    AgreesAt(lines, None, k);
    if LuaScan(Joined(lines[..k + 1]), 0, Code).NotLua? {
      ClosedPrefix(lines, None, k);
      LuaFollowsLines(lines[..k], lines[k] + ['\n'], None);
      LuaFollowsLines(lines[..k], lines[k] + ['\n'] + rest, None);
      JoinedLast(lines, k);
      JoinedAround(lines, k);
      NotLuaStays(lines[k], rest, 0, open);
    }
  }

  /** In a file that Lua accepts the scanner is right at every line exactly if no string runs over a line end. */
  lemma AcceptedAgreesIff(lines: seq<string>)
    requires AllLines(lines) && Accepted(lines)
    ensures AgreesWithLua(lines, None) <==> !StringRunsOver(lines)
  {
    hide Scan, LuaScan, LeavesStringOpen, Joined, StringsClose;
    AgreesWithLuaIff(lines, None);
    if !StringsClose(lines, None) {
      var k := FirstOpen(lines, None);
      assert IsLine(lines[k]);
      FirstOpenRunsOver(lines, k);
      assert LuaScan(Joined(lines[..k + 1]), 0, Code).InString?;
    }
  }

  /** A string begun on the first line and continued on the second, where it holds two brackets. */
  const CONTINUED: seq<string> := ["\"\\", "[[\""]

  lemma ContinuedText()
    ensures Joined(CONTINUED) == "\"\\\n[[\"\n" && Joined(CONTINUED[..1]) == "\"\\\n"
  {
    var first, second := CONTINUED[0], CONTINUED[1];
    assert CONTINUED[1..] == [second] && [second][1..] == [] && CONTINUED[..1] == [first] && [first][1..] == [];
    assert Joined([second]) == second + ['\n'] + "";
    assert Joined([first]) == first + ['\n'] + "";
  }

  lemma ContinuedForLua()
    ensures LuaScan("\"\\\n[[\"\n", 0, Code) == Code && LuaScan("\"\\\n", 0, Code) == InString('"')
  {
    var text, start := "\"\\\n[[\"\n", "\"\\\n";
    assert LuaString(text, 5, '"', false) == Closed(6);
    assert LuaString(text, 1, '"', false) == Closed(6);
    assert OpenAt(text, 0).None? && OpenAt(text, 6).None?;
    assert LuaScan(text, 6, Code) == LuaScan(text, 7, Code) == Code;
    assert LuaString(start, 1, '"', false) == LuaString(start, 3, '"', false) == Open;
    assert OpenAt(start, 0).None?;
  }

  lemma ContinuedForTheScanner()
    ensures After(CONTINUED, None) == Some(0)
  {
    var first, second := CONTINUED[0], CONTINUED[1];
    assert SkipQuoted(first, 1, '"', false) == SkipQuoted(first, 3, '"', false) == 2;
    assert OpenAt(first, 0).None? && Scan(first, 0, None, false) == None;
    assert Equals(second, 1) == 0 && OpenAt(second, 0) == Some(0);
    assert Scan(second, 2, Some(0), false) == Scan(second, 3, Some(0), false) == Some(0);
    assert Scan(second, 0, None, false) == Some(0);
    assert CONTINUED[1..] == [second] && [second][1..] == [];
    assert After([second], None) == After([], Some(0)) == Some(0);
  }

  /**
   That is such a file: Lua accepts it, and the scanner takes all that would follow for the inside of a
   long bracket.
   */
  lemma ContinuedStringMisleads()
    ensures AllLines(CONTINUED) && Accepted(CONTINUED) && StringRunsOver(CONTINUED)
    ensures After(CONTINUED, None) == Some(0) && !AgreesWithLua(CONTINUED, None)
  {
    hide LuaScan, Joined, After;
    ContinuedText();
    ContinuedForLua();
    ContinuedForTheScanner();
    assert CONTINUED[..2] == CONTINUED;
  }
}
