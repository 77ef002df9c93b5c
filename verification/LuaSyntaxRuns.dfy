/** The scanner and the tokenizer as they run: indices advanced in loops, runs appended to a list. */
module LuaSyntaxRuns {
  import opened Wrappers
  import opened LuaSyntax
  import opened LuaSyntaxTheorems

  method FindBracket(b: string, i: nat, c: char) returns (r: Option<nat>)
    ensures r == BracketAt(b, i, c)
  {
    if !(i < |b| && b[i] == c) {
      return None;
    }
    var n := 0;
    while i + 1 + n < |b| && b[i + 1 + n] == '='
      invariant Equals(b, i + 1) == n + Equals(b, i + 1 + n)
      decreases |b| - n
    {
      n := n + 1;
    }
    if i + 1 + n < |b| && b[i + 1 + n] == c {
      return Some(n);
    }
    return None;
  }

  method SkipString(b: string, i: nat) returns (e: nat)
    requires i < |b|
    ensures e == SkipQuoted(b, i + 1, b[i], false)
  {
    var quote := b[i];
    var j := i + 1;
    while j < |b|
      invariant SkipQuoted(b, j, quote, false) == SkipQuoted(b, i + 1, quote, false)
      decreases |b| - j
    {
      if b[j] == '\\' {
        j := j + 2;
        continue;
      }
      if b[j] == quote {
        return j + 1;
      }
      j := j + 1;
    }
    return |b|;
  }

  method ScanLineBlocks(b: string, startsIn: Option<nat>) returns (open: Option<nat>)
    ensures open == Scan(b, 0, startsIn, false)
  {
    hide BracketAt, SkipQuoted;
    open := startsIn;
    var i := 0;
    while i < |b|
      invariant Scan(b, i, open, false) == Scan(b, 0, startsIn, false)
      decreases |b| - i
    {
      match open {
        case Some(level) =>
          var n := FindBracket(b, i, ']');
          if n == Some(level) {
            open := None;
            i := i + level + 2;
            continue;
          }
          i := i + 1;
        case None =>
          if b[i] == '-' && i + 1 < |b| && b[i + 1] == '-' {
            var n := FindBracket(b, i + 2, '[');
            if n.Some? {
              open := n;
              i := i + n.value + 4;
              continue;
            }
            return None;
          }
          var n := FindBracket(b, i, '[');
          if n.Some? {
            open := n;
            i := i + n.value + 2;
            continue;
          }
          if b[i] == '"' || b[i] == '\'' {
            i := SkipString(b, i);
            continue;
          }
          i := i + 1;
      }
    }
  }

  lemma {:induction false} AfterLast(lines: seq<string>, line: string, open: Option<nat>)
    ensures After(lines + [line], open) == Scan(line, 0, After(lines, open), false)
    decreases |lines|
  {
    hide Scan;
    if lines == [] {
      assert [line][1..] == [] && lines + [line] == [line];
    } else {
      assert (lines + [line])[1..] == lines[1..] + [line];
      AfterLast(lines[1..], line, Scan(lines[0], 0, open, false));
    }
  }

  /** Each line's starting state is the state of one scan over all the text before it. */
  method BlockState(lines: seq<string>) returns (out: seq<Option<nat>>)
    ensures |out| == |lines| && forall k :: 0 <= k < |lines| ==> out[k] == After(lines[..k], None)
    ensures (forall i :: 0 <= i < |lines| ==> IsLine(lines[i])) ==>
              forall k :: 0 <= k < |lines| ==> out[k] == Scan(Joined(lines[..k]), 0, None, true)
  {
    hide Scan, Joined;
    out := [];
    var open: Option<nat> := None;
    var k := 0;
    while k < |lines|
      invariant k == |out| <= |lines| && open == After(lines[..k], None)
      invariant forall i :: 0 <= i < k ==> out[i] == After(lines[..i], None)
    {
      out := out + [open];
      open := ScanLineBlocks(lines[k], open);
      assert lines[..k + 1] == lines[..k] + [lines[k]];
      AfterLast(lines[..k], lines[k], None);
      k := k + 1;
    }
    if forall i :: 0 <= i < |lines| ==> IsLine(lines[i]) {
      forall i | 0 <= i < |lines| ensures out[i] == Scan(Joined(lines[..i]), 0, None, true) {
        LinesAgreeWithFile(lines[..i], None);
      }
    }
  }

  method FindBlockEnd(b: string, start: nat, level: nat) returns (e: nat)
    requires start <= |b|
    ensures e == BlockEnd(b, start, level)
  {
    var j := start;
    while j < |b|
      invariant start <= j <= |b| && FindClose(b, j, level) == FindClose(b, start, level)
    {
      var n := FindBracket(b, j, ']');
      if n == Some(level) {
        break;
      }
      j := j + 1;
    }
    e := if j + level + 2 <= |b| then j + level + 2 else |b|;
  }

  method PushRun(out: seq<Run>, text: string, kind: Tok) returns (runs: seq<Run>)
    ensures runs == Push(out, text, kind)
  {
    if text == "" {
      return out;
    }
    if out != [] && out[|out| - 1].kind == kind {
      var prev := out[|out| - 1];
      return out[..|out| - 1] + [prev.(text := prev.text + text)];
    }
    return out + [Run(text, kind)];
  }

  method OpensCall(u: Unicode, b: string, from: nat) returns (r: bool)
    requires from <= |b|
    ensures r == IsCall(u, b, from)
  {
    var i := from;
    while i < |b| && IsWhitespace(u, b[i])
      invariant i <= |b| && IsCall(u, b, i) == IsCall(u, b, from)
    {
      i := i + 1;
    }
    return i < |b| && b[i] == '(';
  }

  method NextToken(u: Unicode, b: string, i: nat) returns (e: nat, kind: Tok)
    requires i < |b|
    ensures (e, kind) == Token(u, b, i)
  {
    hide BracketAt, SkipQuoted, BlockEnd, IsCall;
    var c := b[i];
    if c == '-' && i + 1 < |b| && b[i + 1] == '-' {
      var n := FindBracket(b, i + 2, '[');
      if n.Some? {
        e := FindBlockEnd(b, i + n.value + 4, n.value);
        return e, Comment;
      }
      return |b|, Comment;
    }
    if c == '"' || c == '\'' {
      e := SkipString(b, i);
      return e, Str;
    }
    var n := FindBracket(b, i, '[');
    if n.Some? {
      e := FindBlockEnd(b, i + n.value + 2, n.value);
      return e, Str;
    }
    if IsDigit(c) {
      e := i;
      while e < |b| && (IsAsciiLetter(b[e]) || IsDigit(b[e]) || b[e] == '.')
        invariant i <= e <= |b| && NumberEnd(b, e) == NumberEnd(b, i)
      {
        e := e + 1;
      }
      return e, Literal;
    }
    if IsAlphabetic(u, c) || c == '_' {
      e := i;
      while e < |b| && (IsAlphanumeric(u, b[e]) || b[e] == '_')
        invariant i <= e <= |b| && WordEnd(u, b, e) == WordEnd(u, b, i)
      {
        e := e + 1;
      }
      var word := b[i..e];
      var call := OpensCall(u, b, e);
      kind := if word in LITERALS then Literal else if word in KEYWORDS then Keyword else if call then Ident else Plain;
      return;
    }
    return i + 1, Plain;
  }

  /** The runs of a line, put together, are the line. */
  method TokenizeLine(u: Unicode, b: string, startsIn: Option<nat>) returns (out: seq<Run>)
    ensures out == Tokenize(u, b, startsIn)
    ensures Text(out) == b && Tidy(out)
  {
    hide Token, Push, Text, Tidy;
    out := [];
    var i := 0;
    if startsIn.Some? {
      i := FindBlockEnd(b, 0, startsIn.value);
      out := PushRun(out, b[..i], Comment);
    } else {
      NothingToPush(b);
    }
    ghost var lead, first := i, out;
    while i < |b|
      invariant i <= |b| && TokenizeFrom(u, b, i, out) == TokenizeFrom(u, b, lead, first)
    {
      var e, kind := NextToken(u, b, i);
      out := PushRun(out, b[i..e], kind);
      i := e;
    }
    TokenizeIsLossless(u, b, startsIn);
  }

  lemma NothingToPush(b: string)
    ensures Push([], b[..0], Comment) == []
  {
  }
}
