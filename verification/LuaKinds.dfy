/**
 What each kind of token is, said of the characters of a line: where comments, strings, numbers and words
 begin and end, and how a word is shown. The tokenizer shows every character so.
 */
module LuaKinds {
  import opened Wrappers
  import opened LuaSyntax
  import opened LuaColours

  // ------------------------------------------------------------ brackets and quotes

  /** A bracket character, `n` equals signs and the bracket character again. */
  predicate IsBracket(b: string, i: nat, n: nat, c: char) {
    i + n + 2 <= |b| && b[i] == c && b[i + n + 1] == c && forall k :: i < k <= i + n ==> b[k] == '='
  }

  ghost predicate HasBracket(b: string, i: nat, c: char) {
    exists n: nat :: IsBracket(b, i, n, c)
  }

  lemma {:induction false} EqualsAreSigns(b: string, i: nat)
    ensures i <= |b| ==> i + Equals(b, i) <= |b|
    ensures forall k :: i <= k < i + Equals(b, i) ==> CharAt(b, k, '=')
    decreases if i < |b| then |b| - i else 0
  {
    if CharAt(b, i, '=') {
      EqualsAreSigns(b, i + 1);
      forall k | i <= k < i + Equals(b, i) ensures CharAt(b, k, '=') {
        assert k == i || i + 1 <= k < i + 1 + Equals(b, i + 1);
      }
    }
  }

  lemma {:induction false} SignsAreCounted(b: string, i: nat, n: nat)
    requires i + n <= |b| && (forall k :: i <= k < i + n ==> b[k] == '=') && (i + n < |b| ==> b[i + n] != '=')
    ensures Equals(b, i) == n
    decreases n
  {
    if n > 0 {
      SignsAreCounted(b, i + 1, n - 1);
    }
  }

  /** Both readers find brackets by this. */
  lemma BracketIsFound(b: string, i: nat, c: char, n: nat)
    requires c != '='
    ensures IsBracket(b, i, n, c) <==> BracketAt(b, i, c) == Some(n)
  {
    if IsBracket(b, i, n, c) {
      SignsAreCounted(b, i + 1, n);
    }
    EqualsAreSigns(b, i + 1);
    if BracketAt(b, i, c) == Some(n) {
      forall k | i < k <= i + n ensures b[k] == '=' {
        assert CharAt(b, k, '=');
      }
    }
  }

  lemma BracketOrNone(b: string, i: nat, c: char)
    requires c != '='
    ensures HasBracket(b, i, c) <==> BracketAt(b, i, c).Some?
    ensures forall n: nat :: IsBracket(b, i, n, c) <==> BracketAt(b, i, c) == Some(n)
  {
    forall n: nat ensures IsBracket(b, i, n, c) <==> BracketAt(b, i, c) == Some(n) {
      BracketIsFound(b, i, c, n);
    }
    if BracketAt(b, i, c).Some? {
      assert IsBracket(b, i, BracketAt(b, i, c).value, c);
    }
  }

  /** A long bracket of level `n` whose inside begins at `j` ends behind its first close, or with the line. */
  ghost predicate EndsBracket(b: string, j: nat, n: nat, e: nat) {
    if exists k: nat :: j <= k && IsBracket(b, k, n, ']') then
      exists k: nat :: j <= k && IsBracket(b, k, n, ']') && e == k + n + 2 && FirstClose(b, j, n, k)
    else e == |b|
  }

  /** A long bracket that opens at `i` ends so. */
  ghost predicate OpensTo(b: string, i: nat, e: nat) {
    forall n: nat :: IsBracket(b, i, n, '[') ==> EndsBracket(b, i + n + 2, n, e)
  }

  ghost predicate FirstClose(b: string, j: nat, n: nat, k: nat) {
    forall m: nat :: j <= m < k ==> !IsBracket(b, m, n, ']')
  }

  lemma {:induction false} FindCloseIsFirst(b: string, j: nat, n: nat)
    requires j <= |b|
    ensures FirstClose(b, j, n, FindClose(b, j, n))
    ensures FindClose(b, j, n) < |b| ==> IsBracket(b, FindClose(b, j, n), n, ']')
    decreases |b| - j
  {
    hide IsBracket;
    if j < |b| {
      BracketIsFound(b, j, ']', n);
      if CloseAt(b, j) != Some(n) {
        FindCloseIsFirst(b, j + 1, n);
      }
    }
  }

  lemma BlockEndsSo(b: string, j: nat, n: nat)
    requires j <= |b|
    ensures EndsBracket(b, j, n, BlockEnd(b, j, n))
  {
    FindCloseIsFirst(b, j, n);
    var k := FindClose(b, j, n);
    if k < |b| {
      assert j <= k && IsBracket(b, k, n, ']');
    } else {
      forall m: nat | j <= m ensures !IsBracket(b, m, n, ']') {
      }
    }
  }

  /** How many backslashes stand right before `p`, counted back to `j`. */
  function Slashes(b: string, j: nat, p: nat): nat
    requires p <= |b|
  {
    if p > j && b[p - 1] == '\\' then 1 + Slashes(b, j, p - 1) else 0
  }

  /** The quote at `p` closes: it is the same character, and not escaped. */
  predicate ClosesQuote(b: string, j: nat, p: nat, quote: char) {
    p < |b| && b[p] == quote && Slashes(b, j, p) % 2 == 0
  }

  /** A quoted string whose inside begins at `j` ends behind its first closing quote, or with the line. */
  ghost predicate EndsQuote(b: string, j: nat, quote: char, e: nat) {
    if exists p: nat :: j <= p && ClosesQuote(b, j, p, quote) then
      exists p: nat :: j <= p && ClosesQuote(b, j, p, quote) && e == p + 1 && NoneClosesBefore(b, j, p, quote)
    else e == |b|
  }

  ghost predicate NoneClosesBefore(b: string, j: nat, p: nat, quote: char) {
    forall m: nat :: j <= m < p ==> !ClosesQuote(b, j, m, quote)
  }

  lemma {:induction false} SkipGoesOn(b: string, j: nat, i: nat, quote: char)
    requires quote != '\\' && j <= i && (i <= |b| ==> Slashes(b, j, i) % 2 == 0) && NoneClosesBefore(b, j, i, quote)
    ensures var e := SkipQuoted(b, i, quote, false);
            (i < e && ClosesQuote(b, j, e - 1, quote) && NoneClosesBefore(b, j, e - 1, quote))
            || (e == |b| && NoneClosesBefore(b, j, |b|, quote))
    decreases if i < |b| then |b| - i else 0
  {
    if i < |b| && b[i] == '\\' {
      if i + 1 < |b| {
        assert Slashes(b, j, i + 1) == 1 + Slashes(b, j, i);
        assert i + 2 <= |b| ==> Slashes(b, j, i + 2) == if b[i + 1] == '\\' then 1 + Slashes(b, j, i + 1) else 0;
      }
      assert !ClosesQuote(b, j, i, quote) && !ClosesQuote(b, j, i + 1, quote);
      SkipGoesOn(b, j, i + 2, quote);
    } else if i < |b| && b[i] != quote {
      assert Slashes(b, j, i + 1) == 0;
      SkipGoesOn(b, j, i + 1, quote);
    }
  }

  lemma QuoteEndsSo(b: string, j: nat, quote: char)
    requires quote != '\\' && j <= |b|
    ensures EndsQuote(b, j, quote, SkipQuoted(b, j, quote, false))
  {
    assert Slashes(b, j, j) == 0;
    SkipGoesOn(b, j, j, quote);
    var e := SkipQuoted(b, j, quote, false);
    if !(j < e && ClosesQuote(b, j, e - 1, quote) && NoneClosesBefore(b, j, e - 1, quote)) {
      forall p: nat | j <= p ensures !ClosesQuote(b, j, p, quote) {
      }
    }
  }

  // ------------------------------------------------------------- numbers and words

  predicate Digit(c: char) {
    48 <= c as int <= 57
  }

  predicate Letter(c: char) {
    65 <= c as int <= 90 || 97 <= c as int <= 122
  }

  predicate NumberChar(c: char) {
    Letter(c) || Digit(c) || c == '.'
  }

  predicate WordStart(u: Unicode, c: char) {
    c == '_' || if (c as int) < 128 then Letter(c) else u.alphabetic(c)
  }

  predicate WordChar(u: Unicode, c: char) {
    WordStart(u, c) || if (c as int) < 128 then Digit(c) else u.numeric(c)
  }

  /** White space: tab, line feed, the two tabs and feeds between, carriage return, space; and what Unicode has above. */
  predicate Blank(u: Unicode, c: char) {
    if (c as int) < 128 then c as int == 32 || 9 <= c as int <= 13 else u.whitespace(c)
  }

  /** A digit and all the letters, digits and points behind it. */
  predicate IsNumber(b: string, s: nat, e: nat) {
    && s < e <= |b| && Digit(b[s]) && (forall k :: s <= k < e ==> NumberChar(b[k]))
    && (e < |b| ==> !NumberChar(b[e]))
  }

  /** A letter or underscore and all the letters, digits and underscores behind it. */
  predicate IsWord(u: Unicode, b: string, s: nat, e: nat) {
    && s < e <= |b| && WordStart(u, b[s]) && (forall k :: s <= k < e ==> WordChar(u, b[k]))
    && (e < |b| ==> !WordChar(u, b[e]))
  }

  predicate IsValueWord(w: string) {
    w == "nil" || w == "true" || w == "false"
  }

  /** The reserved words of Lua that are no values, and `self`. */
  predicate IsReserved(w: string) {
    || w == "and" || w == "break" || w == "do" || w == "else" || w == "elseif" || w == "end" || w == "for"
    || w == "function" || w == "goto" || w == "if" || w == "in" || w == "local" || w == "not" || w == "or"
    || w == "repeat" || w == "return" || w == "then" || w == "until" || w == "while" || w == "self"
  }

  /** The next character that is not white space opens a parenthesis. */
  ghost predicate OpensCall(u: Unicode, b: string, e: nat) {
    exists k :: e <= k < |b| && b[k] == '(' && !Blank(u, b[k]) && forall m :: e <= m < k ==> Blank(u, b[m])
  }

  /** The kind of a word. */
  ghost predicate ShowsWord(u: Unicode, b: string, s: nat, e: nat, kind: Tok)
    requires s <= e <= |b|
  {
    var w := b[s..e];
    && (kind == Literal <==> IsValueWord(w))
    && (kind == Keyword <==> IsReserved(w))
    && (kind == Ident <==> !IsValueWord(w) && !IsReserved(w) && OpensCall(u, b, e))
    && (kind == Plain <==> !IsValueWord(w) && !IsReserved(w) && !OpensCall(u, b, e))
  }

  lemma {:induction false} NumberEndsSo(b: string, j: nat)
    requires j <= |b|
    ensures forall k :: j <= k < NumberEnd(b, j) ==> NumberChar(b[k])
    ensures NumberEnd(b, j) < |b| ==> !NumberChar(b[NumberEnd(b, j)])
    decreases |b| - j
  {
    if j < |b| {
      NumberEndsSo(b, j + 1);
    }
  }

  lemma {:induction false} WordEndsSo(u: Unicode, b: string, j: nat)
    requires j <= |b|
    ensures forall k :: j <= k < WordEnd(u, b, j) ==> WordChar(u, b[k])
    ensures WordEnd(u, b, j) < |b| ==> !WordChar(u, b[WordEnd(u, b, j)])
    decreases |b| - j
  {
    if j < |b| {
      WordEndsSo(u, b, j + 1);
    }
  }

  lemma CallBehindSpace(u: Unicode, b: string, e: nat)
    requires e < |b| && Blank(u, b[e])
    ensures OpensCall(u, b, e) <==> OpensCall(u, b, e + 1)
  {
    if OpensCall(u, b, e) {
      var k :| e <= k < |b| && b[k] == '(' && !Blank(u, b[k]) && forall m :: e <= m < k ==> Blank(u, b[m]);
      assert e + 1 <= k;
    }
    if OpensCall(u, b, e + 1) {
      var k :| e + 1 <= k < |b| && b[k] == '(' && !Blank(u, b[k]) && forall m :: e + 1 <= m < k ==> Blank(u, b[m]);
      assert forall m :: e <= m < k ==> Blank(u, b[m]);
    }
  }

  lemma {:induction false} CallIsOpened(u: Unicode, b: string, e: nat)
    requires e <= |b|
    ensures IsCall(u, b, e) <==> OpensCall(u, b, e)
    decreases |b| - e
  {
    if e < |b| && IsWhitespace(u, b[e]) {
      CallIsOpened(u, b, e + 1);
      CallBehindSpace(u, b, e);
    }
  }

  lemma WordsInLists(w: string)
    ensures w in LITERALS <==> IsValueWord(w)
    ensures w in KEYWORDS <==> IsReserved(w) || IsValueWord(w)
    ensures !(IsReserved(w) && IsValueWord(w))
  {
    hide IsReserved, IsValueWord;
    ListsReserved(w);
    ListsValues(w);
  }

  lemma ListsValues(w: string)
    ensures w in LITERALS <==> IsValueWord(w)
  {
  }

  lemma ListsReserved(w: string)
    ensures w in KEYWORDS <==> IsReserved(w) || IsValueWord(w)
    ensures !(IsReserved(w) && IsValueWord(w))
  {
  }

  lemma WordIsShown(u: Unicode, b: string, s: nat, e: nat)
    requires s <= e <= |b|
    ensures ShowsWord(u, b, s, e, WordKind(u, b, s, e))
  {
    hide OpensCall, IsCall, IsValueWord, IsReserved, LITERALS, KEYWORDS;
    WordsInLists(b[s..e]);
    CallIsOpened(u, b, e);
  }

  // ------------------------------------------------------------ the pieces of a line

  datatype Piece = Piece(start: nat, end: nat, kind: Tok)

  predicate TwoDashes(b: string, s: nat) {
    s + 2 <= |b| && b[s] == '-' && b[s + 1] == '-'
  }

  /** A piece of a line, said of its characters: what begins there decides where it ends and how it is shown. */
  ghost predicate IsPiece(u: Unicode, b: string, p: Piece) {
    p.start < p.end <= |b| &&
    var s, c := p.start, b[p.start];
    if TwoDashes(b, s) then
      p.kind == Comment
      && if HasBracket(b, s + 2, '[') then OpensTo(b, s + 2, p.end) else p.end == |b|
    else if c == '"' || c == '\'' then
      p.kind == Str && EndsQuote(b, s + 1, c, p.end)
    else if HasBracket(b, s, '[') then
      p.kind == Str && OpensTo(b, s, p.end)
    else if Digit(c) then
      p.kind == Literal && IsNumber(b, s, p.end)
    else if WordStart(u, c) then
      IsWord(u, b, s, p.end) && ShowsWord(u, b, s, p.end, p.kind)
    else
      p.kind == Plain && p.end == s + 1
  }

  /** What begins at a place is settled by the characters. */
  lemma PieceIsSettled(u: Unicode, b: string, p: Piece, q: Piece)
    requires IsPiece(u, b, p) && IsPiece(u, b, q) && p.start == q.start
    ensures p == q
  {
    hide IsBracket, ClosesQuote, EndsBracket, EndsQuote, ShowsWord, WordChar, NumberChar;
    var s, c := p.start, b[p.start];
    if TwoDashes(b, s) {
      if HasBracket(b, s + 2, '[') {
        var n: nat :| IsBracket(b, s + 2, n, '[');
        BracketEndIsSettled(b, s + n + 4, n, p.end, q.end);
      }
    } else if c == '"' || c == '\'' {
      QuoteEndIsSettled(b, s + 1, c, p.end, q.end);
    } else if HasBracket(b, s, '[') {
      var n: nat :| IsBracket(b, s, n, '[');
      BracketEndIsSettled(b, s + n + 2, n, p.end, q.end);
    } else if !Digit(c) && WordStart(u, c) {
      WordEndIsSettled(u, b, s, p.end, q.end);
      WordKindIsSettled(u, b, s, p.end, p.kind, q.kind);
    }
  }

  lemma BracketEndIsSettled(b: string, j: nat, n: nat, e: nat, e': nat)
    requires EndsBracket(b, j, n, e) && EndsBracket(b, j, n, e')
    ensures e == e'
  {
    hide IsBracket;
    if exists k: nat :: j <= k && IsBracket(b, k, n, ']') {
      var k: nat :| j <= k && IsBracket(b, k, n, ']') && e == k + n + 2 && FirstClose(b, j, n, k);
      var k': nat :| j <= k' && IsBracket(b, k', n, ']') && e' == k' + n + 2 && FirstClose(b, j, n, k');
      assert !(k < k') && !(k' < k);
    }
  }

  lemma QuoteEndIsSettled(b: string, j: nat, quote: char, e: nat, e': nat)
    requires EndsQuote(b, j, quote, e) && EndsQuote(b, j, quote, e')
    ensures e == e'
  {
    hide ClosesQuote;
    if exists p: nat :: j <= p && ClosesQuote(b, j, p, quote) {
      var p: nat :| j <= p && ClosesQuote(b, j, p, quote) && e == p + 1 && NoneClosesBefore(b, j, p, quote);
      var p': nat :| j <= p' && ClosesQuote(b, j, p', quote) && e' == p' + 1 && NoneClosesBefore(b, j, p', quote);
      assert !(p < p') && !(p' < p);
    }
  }

  lemma WordEndIsSettled(u: Unicode, b: string, s: nat, e: nat, e': nat)
    requires IsWord(u, b, s, e) && IsWord(u, b, s, e')
    ensures e == e'
  {
    hide WordChar;
  }

  lemma WordKindIsSettled(u: Unicode, b: string, s: nat, e: nat, kind: Tok, kind': Tok)
    requires s <= e <= |b| && ShowsWord(u, b, s, e, kind) && ShowsWord(u, b, s, e, kind')
    ensures kind == kind'
  {
    hide OpensCall, IsReserved, IsValueWord;
  }

  // -------------------------------------------------------- the tokenizer shows them

  lemma TokenIsPiece(u: Unicode, b: string, i: nat)
    requires i < |b|
    ensures IsPiece(u, b, Piece(i, Token(u, b, i).0, Token(u, b, i).1))
  {
    hide IsBracket, BracketAt, EndsBracket, EndsQuote, BlockEnd, SkipQuoted, HasBracket, ShowsWord, WordKind, NumberEnd, WordEnd;
    assert DashesAt(b, i) == TwoDashes(b, i);
    BracketOrNone(b, i, '[');
    if DashesAt(b, i) {
      BracketOrNone(b, i + 2, '[');
      if OpenAt(b, i + 2).Some? {
        BlockEndsSo(b, i + OpenAt(b, i + 2).value + 4, OpenAt(b, i + 2).value);
      }
    } else if QuoteAt(b, i) {
      QuoteEndsSo(b, i + 1, b[i]);
    } else if OpenAt(b, i).Some? {
      BlockEndsSo(b, i + OpenAt(b, i).value + 2, OpenAt(b, i).value);
    } else if IsDigit(b[i]) {
      NumberEndsSo(b, i);
    } else if WordStart(u, b[i]) {
      WordEndsSo(u, b, i);
      WordIsShown(u, b, i, WordEnd(u, b, i));
    }
  }

  /** Pieces one behind the other, from `i` to the end of the line. */
  ghost predicate Cover(u: Unicode, b: string, i: nat, pieces: seq<Piece>) {
    && (if pieces == [] then i == |b| else pieces[0].start == i && pieces[|pieces| - 1].end == |b|)
    && (forall k :: 0 <= k < |pieces| ==> IsPiece(u, b, pieces[k]))
    && (forall k :: 0 < k < |pieces| ==> pieces[k].start == pieces[k - 1].end)
  }

  /** Every character of a piece is shown in its kind. */
  ghost predicate ShownSo(kinds: seq<Tok>, pieces: seq<Piece>) {
    forall k :: 0 <= k < |pieces| ==> HasKind(kinds, pieces[k])
  }

  predicate HasKind(kinds: seq<Tok>, p: Piece) {
    p.end <= |kinds| && forall j :: p.start <= j < p.end ==> kinds[j] == p.kind
  }

  lemma {:induction false} ColoursArePieces(u: Unicode, b: string, i: nat, lead: seq<Tok>) returns (pieces: seq<Piece>)
    requires i == |lead| <= |b|
    ensures Cover(u, b, i, pieces) && ShownSo(lead + Colours(u, b, i), pieces)
    decreases |b| - i
  {
    hide Token, IsPiece;
    if i == |b| {
      pieces := [];
    } else {
      var (e, kind) := Token(u, b, i);
      var first := Piece(i, e, kind);
      TokenIsPiece(u, b, i);
      var more := lead + Repeat(kind, e - i);
      var rest := ColoursArePieces(u, b, e, more);
      assert lead + Colours(u, b, i) == more + Colours(u, b, e);
      pieces := [first] + rest;
      FirstPiece(u, b, first, rest, more + Colours(u, b, e));
    }
  }

  lemma FirstPiece(u: Unicode, b: string, p: Piece, rest: seq<Piece>, kinds: seq<Tok>)
    requires IsPiece(u, b, p) && Cover(u, b, p.end, rest) && ShownSo(kinds, rest)
    requires HasKind(kinds, p)
    ensures Cover(u, b, p.start, [p] + rest) && ShownSo(kinds, [p] + rest)
  {
    hide IsPiece;
    var pieces := [p] + rest;
    assert rest == [] ==> p.end == |b|;
    forall k | 0 <= k < |pieces| ensures HasKind(kinds, pieces[k]) {
      assert k == 0 || pieces[k] == rest[k - 1];
    }
    forall k | 0 < k < |pieces| ensures pieces[k].start == pieces[k - 1].end && pieces[k] == rest[k - 1] {
    }
  }

  /**
   How a line is shown. What belongs to a long bracket open at its start is comment; the rest is pieces one
   behind the other, each settled by the characters it begins with, and each character has the kind of its piece.
   */
  lemma LineShowsItsPieces(u: Unicode, b: string, startsIn: Option<nat>) returns (lead: nat, pieces: seq<Piece>)
    ensures if startsIn.Some? then EndsBracket(b, 0, startsIn.value, lead) else lead == 0
    ensures var kinds := Kinds(Tokenize(u, b, startsIn));
            && lead <= |kinds| == |b| && (forall j :: 0 <= j < lead ==> kinds[j] == Comment)
            && Cover(u, b, lead, pieces) && ShownSo(kinds, pieces)
  {
    hide Kinds, Tokenize, Colours, Cover, ShownSo, EndsBracket, BlockEnd;
    lead := LeadEnd(b, startsIn);
    if startsIn.Some? {
      BlockEndsSo(b, 0, startsIn.value);
    }
    KindsOfLine(u, b, startsIn);
    pieces := ColoursArePieces(u, b, lead, Repeat(Comment, lead));
  }
}
