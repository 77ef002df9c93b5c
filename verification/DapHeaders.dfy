/** What the decoder makes of header blocks: which line counts, what number it gives, and what is refused. */
module DapHeaders {
  import opened Wrappers
  import opened Bytes
  import opened DapDecoder
  import opened DapTheorems

  // -------------------------------------------------------------- header lines

  /** Header lines with a carriage return and a line feed between each two. */
  function Block(lines: seq<seq<byte>>): seq<byte>
    requires lines != []
  {
    if |lines| == 1 then lines[0] else lines[0] + [CR, LF] + Block(lines[1..])
  }

  ghost predicate NoFeeds(lines: seq<seq<byte>>) {
    forall i :: 0 <= i < |lines| ==> LF !in lines[i]
  }

  lemma FindInLine(line: seq<byte>, rest: seq<byte>)
    requires LF !in line
    ensures Find(line + [CR, LF] + rest, 0, LF) == |line| + 1 && Find(line, 0, LF) == |line|
  {
    var b := line + [CR, LF] + rest;
    forall j | 0 <= j < |line| + 1 ensures b[j] != LF {
      assert j < |line| ==> b[j] == line[j];
    }
    FindIs(b, 0, LF, |line| + 1);
    FindIs(line, 0, LF, |line|);
  }

  lemma {:induction false} LinesOfBlock(lines: seq<seq<byte>>)
    requires lines != [] && NoFeeds(lines)
    ensures Lines(Block(lines)) == lines
    decreases |lines|
  {
    hide Find;
    var line := lines[0];
    if |lines| == 1 {
      FindInLine(line, []);
      assert Lines(line) == [line];
    } else {
      var rest := Block(lines[1..]);
      var b := line + [CR, LF] + rest;
      FindInLine(line, rest);
      LinesOfBlock(lines[1..]);
      assert b[..|line| + 1] == line + [CR] && b[|line| + 2..] == rest;
      assert DropCr(line + [CR]) == line;
      assert lines == [line] + lines[1..];
    }
  }

  lemma {:induction false} LengthLineIsFirst(pre: seq<seq<byte>>, line: seq<byte>, post: seq<seq<byte>>)
    requires (forall i :: 0 <= i < |pre| ==> !NamesLength(pre[i])) && NamesLength(line)
    ensures LengthLine(pre + [line] + post) == Some(line)
    decreases |pre|
  {
    hide NamesLength;
    var all := pre + [line] + post;
    if pre == [] {
      assert all[0] == line;
    } else {
      assert all[0] == pre[0] && all[1..] == pre[1..] + [line] + post;
      LengthLineIsFirst(pre[1..], line, post);
    }
  }

  lemma {:induction false} NoLengthLine(lines: seq<seq<byte>>)
    requires forall i :: 0 <= i < |lines| ==> !NamesLength(lines[i])
    ensures LengthLine(lines) == None
    decreases |lines|
  {
    hide NamesLength;
    if lines != [] {
      NoLengthLine(lines[1..]);
    }
  }

  // --------------------------------------------------------------------- names

  predicate SameLetter(c: byte, d: byte) {
    c == d || (97 <= d <= 122 && c == d - 32)
  }

  /** `content-length`, each letter small or capital. */
  ghost predicate IsLengthName(name: seq<byte>) {
    |name| == 14 && forall i :: 0 <= i < 14 ==> SameLetter(name[i], LENGTH_NAME[i])
  }

  lemma {:induction false} TrimSpaces(a: seq<byte>, s: seq<byte>, b: seq<byte>)
    requires (forall i :: 0 <= i < |a| ==> IsSpace(a[i])) && (forall i :: 0 <= i < |b| ==> IsSpace(b[i]))
    requires s != [] && !IsSpace(s[0]) && !IsSpace(s[|s| - 1])
    ensures Trim(a + s + b) == s
  {
    TrimLeftSpaces(a, s + b);
    assert a + s + b == a + (s + b);
    TrimRightSpaces(s, b);
  }

  lemma {:induction false} TrimLeftSpaces(a: seq<byte>, s: seq<byte>)
    requires (forall i :: 0 <= i < |a| ==> IsSpace(a[i])) && (s != [] ==> !IsSpace(s[0]))
    ensures TrimLeft(a + s) == s
    decreases |a|
  {
    if a == [] {
      assert a + s == s;
    } else {
      assert (a + s)[1..] == a[1..] + s;
      TrimLeftSpaces(a[1..], s);
    }
  }

  lemma {:induction false} TrimRightSpaces(s: seq<byte>, b: seq<byte>)
    requires (forall i :: 0 <= i < |b| ==> IsSpace(b[i])) && (s != [] ==> !IsSpace(s[|s| - 1]))
    ensures TrimRight(s + b) == s
    decreases |b|
  {
    if b == [] {
      assert s + b == s;
    } else {
      assert (s + b)[..|s + b| - 1] == s + b[..|b| - 1];
      TrimRightSpaces(s, b[..|b| - 1]);
    }
  }

  /** The name counts in any case and with white space around it, and only that name does. */
  lemma NameCounts(a: seq<byte>, name: seq<byte>, b: seq<byte>, value: seq<byte>)
    requires (forall i :: 0 <= i < |a| ==> IsSpace(a[i])) && (forall i :: 0 <= i < |b| ==> IsSpace(b[i]))
    requires name != [] && !IsSpace(name[0]) && !IsSpace(name[|name| - 1]) && COLON !in name
    ensures NamesLength(a + name + b + [COLON] + value) <==> IsLengthName(name)
  {
    var key := a + name + b;
    var line := key + [COLON] + value;
    forall j | 0 <= j < |key| ensures line[j] != COLON {
      assert line[j] == key[j] && (key[j] in a || key[j] in name || key[j] in b);
    }
    FindIs(line, 0, COLON, |key|);
    assert line[..|key|] == key;
    TrimSpaces(a, name, b);
    LowerIsName(name);
  }

  lemma LowerIsName(name: seq<byte>)
    ensures Lower(name) == LENGTH_NAME <==> IsLengthName(name)
  {
    LowerAt(name);
    var l := Lower(name);
    if IsLengthName(name) {
      forall i | 0 <= i < 14 ensures l[i] == LENGTH_NAME[i] {
        assert SameLetter(name[i], LENGTH_NAME[i]);
      }
    }
    if l == LENGTH_NAME {
      forall i | 0 <= i < 14 ensures SameLetter(name[i], LENGTH_NAME[i]) {
        assert l[i] == LENGTH_NAME[i];
      }
    }
  }

  // ------------------------------------------------------------------- numbers

  lemma {:induction false} DigitsThenJunk(d: seq<byte>, junk: seq<byte>, acc: nat)
    requires (forall i :: 0 <= i < |d| ==> IsDigit(d[i])) && (junk != [] ==> !IsDigit(junk[0]))
    ensures Digits(d + junk, acc) == Digits(d, acc)
    decreases |d|
  {
    if d == [] {
      assert d + junk == junk;
    } else {
      assert (d + junk)[1..] == d[1..] + junk;
      DigitsThenJunk(d[1..], junk, 10 * acc + (d[0] - 48));
    }
  }

  lemma PlainNumber(n: nat, junk: seq<byte>)
    requires junk != [] ==> !IsDigit(junk[0])
    ensures DapDecoder.Unsigned(Decimal(n) + junk) == Some(n) && IsDigit((Decimal(n) + junk)[0])
  {
    hide Digits;
    DigitsThenJunk(Decimal(n), junk, 0);
    DigitsOfDecimal(n);
    assert (Decimal(n) + junk)[0] == Decimal(n)[0];
  }

  /** The number behind any white space, and behind a sign if there is one. */
  lemma ParsedBehindSpace(a: seq<byte>, sign: seq<byte>, s: seq<byte>)
    requires (forall i :: 0 <= i < |a| ==> IsSpace(a[i])) && sign in {[], [43], [45]}
    requires DapDecoder.Unsigned(s).Some?
    ensures ParseInt(a + (sign + s)) == Some(if sign == [45] then 0 - DapDecoder.Unsigned(s).value else DapDecoder.Unsigned(s).value)
  {
    hide Digits;
    assert sign == [] ==> sign + s == s;
    assert sign != [] ==> (sign + s)[1..] == s && (sign + s)[0] == sign[0];
    TrimLeftSpaces(a, sign + s);
  }

  /** White space, a sign or none, decimal digits; whatever else follows them is ignored. */
  lemma NumberIsRead(a: seq<byte>, n: nat, junk: seq<byte>)
    requires (forall i :: 0 <= i < |a| ==> IsSpace(a[i])) && (junk != [] ==> !IsDigit(junk[0]))
    ensures ParseInt(a + ([] + (Decimal(n) + junk))) == Some(n)
    ensures ParseInt(a + ([43] + (Decimal(n) + junk))) == Some(n)
    ensures ParseInt(a + ([45] + (Decimal(n) + junk))) == Some(0 - n)
  {
    hide ParseInt, DapDecoder.Unsigned;
    PlainNumber(n, junk);
    ParsedBehindSpace(a, [], Decimal(n) + junk);
    ParsedBehindSpace(a, [43], Decimal(n) + junk);
    ParsedBehindSpace(a, [45], Decimal(n) + junk);
  }

  // ------------------------------------------------------------- whole header blocks

  /**
   A block with other headers before and after: the first line named `Content-Length` gives the length. Over the
   limit it is refused; and a block without such a line has no length.
   */
  lemma FirstLengthCounts(pre: seq<seq<byte>>, n: nat, post: seq<seq<byte>>)
    requires NoFeeds(pre) && NoFeeds(post) && forall i :: 0 <= i < |pre| ==> !NamesLength(pre[i])
    ensures ContentLength(Block(pre + [HeaderOf(n)] + post)) == if n > MAX_BODY then Failure(TooLong) else Success(n)
  {
    hide NamesLength, Lines, LengthLine, ParseInt, ValueOf, Block;
    var lines := pre + [HeaderOf(n)] + post;
    HeaderIsALine(n);
    forall i | 0 <= i < |lines| ensures LF !in lines[i] {
      assert i < |pre| ==> lines[i] == pre[i];
      assert i > |pre| ==> lines[i] == post[i - |pre| - 1];
    }
    LinesOfBlock(lines);
    LengthLineIsFirst(pre, HeaderOf(n), post);
  }

  lemma HeaderParts(n: nat)
    ensures var h := HeaderOf(n);
            && |h| == 16 + |Decimal(n)| && h[..14] == LENGTH_FIELD[..14] && h[14] == COLON && h[15..] == [32] + Decimal(n)
            && forall i :: 0 <= i < |h| ==> h[i] != LF && h[i] != CR && (h[i] == COLON ==> i == 14)
  {
    var h, d := HeaderOf(n), Decimal(n);
    forall i | 0 <= i < |h| ensures h[i] == if i < 16 then LENGTH_FIELD[i] else d[i - 16] {
    }
  }

  lemma HeaderIsNamed(n: nat)
    ensures NamesLength(HeaderOf(n)) && ValueOf(HeaderOf(n)) == Decimal(n)
  {
    hide HeaderOf;
    var h := HeaderOf(n);
    HeaderParts(n);
    FindIs(h, 0, COLON, 14);
    TrimDigits(h[..14]);
    LowerName();
    TrimDigits(Decimal(n));
  }

  lemma HeaderIsALine(n: nat)
    ensures LF !in HeaderOf(n) && NamesLength(HeaderOf(n)) && ParseInt(ValueOf(HeaderOf(n))) == Some(n)
  {
    hide HeaderOf, ParseInt, NamesLength, ValueOf;
    HeaderParts(n);
    HeaderIsNamed(n);
    NumberIsRead([], n, []);
    assert [] + ([] + (Decimal(n) + [])) == Decimal(n);
  }

  lemma WithoutLength(lines: seq<seq<byte>>)
    requires lines != [] && NoFeeds(lines) && forall i :: 0 <= i < |lines| ==> !NamesLength(lines[i])
    ensures ContentLength(Block(lines)) == Failure(NoLength)
  {
    hide NamesLength, Lines, LengthLine, Block;
    LinesOfBlock(lines);
    NoLengthLine(lines);
  }

  // -------------------------------------------------------------------- refusals

  lemma HeaderEnds(h: seq<byte>, rest: seq<byte>)
    requires forall i :: 0 <= i < |h| ==> h[i] != CR
    ensures FindBlankLine(h + BLANK_LINE + rest, 0) == Some(|h|)
  {
    var s := h + BLANK_LINE + rest;
    assert forall i :: 0 <= i < |h| ==> s[i] == h[i];
    assert BlankLineAt(s, |h|);
  }

  /** What comes behind a header: a length over the limit ends the stream, and so does a body that is no JSON. */
  lemma BadBodies<M>(json: Json<M>, n: nat, rest: seq<byte>)
    ensures n > MAX_BODY ==> Whole(json, HeaderOf(n) + BLANK_LINE + rest, None) == Delivered([], Failure(TooLong))
    ensures n <= MAX_BODY && n <= |rest| && json.parse(rest[..n]) == None ==>
              Whole(json, HeaderOf(n) + BLANK_LINE + rest, None) == Delivered([], Failure(NotJson))
    ensures n <= MAX_BODY && n > |rest| ==>
              Whole(json, HeaderOf(n) + BLANK_LINE + rest, None) == Delivered([], Success(Held(rest, Some(n))))
  {
    hide ContentLength, FindBlankLine, HeaderOf;
    var h := HeaderOf(n);
    var s := h + BLANK_LINE + rest;
    HeaderParts(n);
    HeaderEnds(h, rest);
    LengthOfHeader(n);
    assert s[..|h|] == h && s[|h| + 4..] == rest;
    if n <= MAX_BODY {
      assert Step(json, s, None) == Header(rest, n);
      assert n > |rest| ==> Step(json, rest, Some(n)).Wait?;
      assert n <= |rest| && json.parse(rest[..n]) == None ==> Step(json, rest, Some(n)) == Fail(NotJson);
    } else {
      assert Step(json, s, None) == Fail(TooLong);
    }
  }

  lemma LengthOfHeader(n: nat)
    ensures ContentLength(HeaderOf(n)) == if n > MAX_BODY then Failure(TooLong) else Success(n)
  {
    hide HeaderOf, NamesLength;
    FirstLengthCounts([], n, []);
    assert [] + [HeaderOf(n)] + [] == [HeaderOf(n)];
  }
}
