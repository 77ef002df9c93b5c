/** How the stream is cut into chunks does not matter, and encoded messages come back. */
module DapTheorems {
  import opened Wrappers
  import opened Bytes
  import opened DapDecoder

  function Flatten(chunks: seq<seq<byte>>): seq<byte> {
    if chunks == [] then [] else chunks[0] + Flatten(chunks[1..])
  }

  /** What a decoder holds between two feeds. */
  datatype Held = Held(buf: seq<byte>, need: Option<int>)

  /** The messages handed on, and what the decoder then holds or the error it stopped with. */
  datatype Delivered<M> = Delivered(messages: seq<M>, end: Result<Held, DapError>)

  /**
   One `feed` after another, from a decoder that holds `buf` and waits for `need`. A feed that fails
   hands on nothing and is the last; what the feeds before it handed on stays handed on.
   */
  function FeedAll<M>(json: Json<M>, chunks: seq<seq<byte>>, buf: seq<byte>, need: Option<int>): Delivered<M>
    decreases |chunks|
  {
    if chunks == [] then Delivered([], Success(Held(buf, need)))
    else
      match Run(json, buf + chunks[0], need, [])
      case Failure(e) => Delivered([], Failure(e))
      case Success(d) => Then(d.messages, FeedAll(json, chunks[1..], d.buf, d.need))
  }

  function Then<M>(first: seq<M>, later: Delivered<M>): Delivered<M> {
    Delivered(first + later.messages, later.end)
  }

  /** All the messages of a stream, those before an error included, and how it ends. */
  function Whole<M>(json: Json<M>, buf: seq<byte>, need: Option<int>): Delivered<M>
    decreases |buf|, if need.Some? then 1 else 0
  {
    match Step(json, buf, need)
    case Wait => Delivered([], Success(Held(buf, need)))
    case Fail(e) => Delivered([], Failure(e))
    case Header(rest, n) => Whole(json, rest, Some(n))
    case Body(m, rest) => Then([m], Whole(json, rest, None))
  }

  /** No header met in this run gives a negative length. */
  ghost predicate NoNegative<M>(json: Json<M>, buf: seq<byte>, need: Option<int>)
    decreases |buf|, if need.Some? then 1 else 0
  {
    && (need.Some? ==> need.value >= 0)
    && match Step(json, buf, need)
       case Header(rest, n) => NoNegative(json, rest, Some(n))
       case Body(_, rest) => NoNegative(json, rest, None)
       case _ => true
  }

  // ------------------------------------------------------------ more bytes

  lemma BlankLineMore(b: seq<byte>, y: seq<byte>)
    requires FindBlankLine(b, 0).Some?
    ensures FindBlankLine(b + y, 0) == FindBlankLine(b, 0)
  {
    var e := FindBlankLine(b, 0).value;
    assert BlankLineAt(b + y, e);
    forall k | 0 <= k < e ensures !BlankLineAt(b + y, k) {
      assert !BlankLineAt(b, k);
    }
  }

  /** A step that can be taken is the same step when more bytes follow. */
  lemma StepMore<M>(json: Json<M>, buf: seq<byte>, need: Option<int>, y: seq<byte>)
    requires !Step(json, buf, need).Wait? && (need.Some? ==> need.value >= 0)
    ensures Step(json, buf + y, need) ==
            match Step(json, buf, need)
            case Wait => Wait
            case Fail(e) => Fail(e)
            case Header(rest, n) => Header(rest + y, n)
            case Body(m, rest) => Body(m, rest + y)
  {
    hide ContentLength, FindBlankLine;
    match need
    case None =>
      BlankLineMore(buf, y);
      BlankLineFits(buf, 0);
      var end := FindBlankLine(buf, 0).value;
      assert (buf + y)[..end] == buf[..end] && (buf + y)[end + 4..] == buf[end + 4..] + y;
    case Some(n) =>
      assert (buf + y)[..n] == buf[..n] && (buf + y)[n..] == buf[n..] + y;
  }

  /** One feed of everything: all the messages, or only the error. */
  lemma {:induction false} RunIsWhole<M>(json: Json<M>, buf: seq<byte>, need: Option<int>, out: seq<M>)
    ensures var w := Whole(json, buf, need);
            Run(json, buf, need, out) == if w.end.Failure? then Failure(w.end.error)
            else Success(Decoded(out + w.messages, w.end.value.buf, w.end.value.need))
    decreases |buf|, if need.Some? then 1 else 0
  {
    hide Step;
    match Step(json, buf, need)
    case Wait => assert out + [] == out;
    case Fail(e) =>
    case Header(rest, n) => RunIsWhole(json, rest, Some(n), out);
    case Body(m, rest) =>
      RunIsWhole(json, rest, None, out + [m]);
      assert out + [m] + Whole(json, rest, None).messages == out + ([m] + Whole(json, rest, None).messages);
  }

  /** More bytes add to what a stream that has not failed gives, and nothing to one that has. */
  lemma {:induction false} WholeMore<M>(json: Json<M>, buf: seq<byte>, need: Option<int>, y: seq<byte>)
    requires NoNegative(json, buf, need)
    ensures var w := Whole(json, buf, need);
            Whole(json, buf + y, need) == if w.end.Failure? then w
            else Then(w.messages, Whole(json, w.end.value.buf + y, w.end.value.need))
    decreases |buf|, if need.Some? then 1 else 0
  {
    hide Step;
    match Step(json, buf, need)
    case Wait => ThenNothing(Whole(json, buf + y, need));
    case Fail(e) => StepMore(json, buf, need, y);
    case Header(rest, n) =>
      StepMore(json, buf, need, y);
      WholeMore(json, rest, Some(n), y);
    case Body(m, rest) =>
      StepMore(json, buf, need, y);
      WholeMore(json, rest, None, y);
      var w := Whole(json, rest, None);
      if w.end.Success? {
        ThenThen([m], w.messages, Whole(json, w.end.value.buf + y, w.end.value.need));
      }
  }

  lemma ThenNothing<M>(later: Delivered<M>)
    ensures Then([], later) == later
  {
    assert [] + later.messages == later.messages;
  }

  lemma ThenThen<M>(first: seq<M>, second: seq<M>, later: Delivered<M>)
    ensures Then(first, Then(second, later)) == Then(first + second, later)
  {
    assert first + (second + later.messages) == first + second + later.messages;
  }

  /** The same of the lengths met. */
  lemma {:induction false} NoNegativeSplits<M>(json: Json<M>, buf: seq<byte>, need: Option<int>, y: seq<byte>)
    requires NoNegative(json, buf + y, need)
    ensures NoNegative(json, buf, need)
    ensures Whole(json, buf, need).end.Success? ==>
              var h := Whole(json, buf, need).end.value; NoNegative(json, h.buf + y, h.need)
    decreases |buf|, if need.Some? then 1 else 0
  {
    hide Step;
    match Step(json, buf, need)
    case Wait =>
    case Fail(e) => StepMore(json, buf, need, y);
    case Header(rest, n) =>
      StepMore(json, buf, need, y);
      NoNegativeSplits(json, rest, Some(n), y);
    case Body(m, rest) =>
      StepMore(json, buf, need, y);
      NoNegativeSplits(json, rest, None, y);
  }

  lemma {:induction false} WholeRests<M>(json: Json<M>, buf: seq<byte>, need: Option<int>)
    ensures Whole(json, buf, need).end.Success? ==>
              var h := Whole(json, buf, need).end.value; Step(json, h.buf, h.need).Wait?
    decreases |buf|, if need.Some? then 1 else 0
  {
    hide Step;
    match Step(json, buf, need)
    case Wait =>
    case Fail(e) =>
    case Header(rest, n) => WholeRests(json, rest, Some(n));
    case Body(m, rest) => WholeRests(json, rest, None);
  }

  /**
   Unless a header gives a negative length, every way of cutting a stream comes to the same end and
   hands on the messages of the stream: all of them if it decodes, and if it fails those at its front
   that earlier feeds completed.
   */
  lemma {:induction false} ChunksDoNotMatter<M>(json: Json<M>, chunks: seq<seq<byte>>, buf: seq<byte>, need: Option<int>)
    requires Step(json, buf, need).Wait? && NoNegative(json, buf + Flatten(chunks), need)
    ensures var (fed, whole) := (FeedAll(json, chunks, buf, need), Whole(json, buf + Flatten(chunks), need));
            && fed.end == whole.end && fed.messages <= whole.messages
            && (whole.end.Success? ==> fed.messages == whole.messages)
    decreases |chunks|
  {
    hide Step, NoNegative;
    if chunks == [] {
      assert buf + Flatten(chunks) == buf;
    } else {
      var x, y := buf + chunks[0], Flatten(chunks[1..]);
      assert buf + Flatten(chunks) == x + y;
      NoNegativeSplits(json, x, need, y);
      WholeMore(json, x, need, y);
      RunIsWhole(json, x, need, []);
      var w := Whole(json, x, need);
      if w.end.Success? {
        WholeRests(json, x, need);
        ChunksDoNotMatter(json, chunks[1..], w.end.value.buf, w.end.value.need);
        assert [] + w.messages == w.messages;
      }
    }
  }

  // ------------------------------------------------------- encoded messages

  lemma {:induction false} DigitsLast(s: seq<byte>, c: byte, acc: nat)
    requires (forall i :: 0 <= i < |s| ==> IsDigit(s[i])) && IsDigit(c)
    ensures Digits(s + [c], acc) == 10 * Digits(s, acc) + (c - 48)
    decreases |s|
  {
    if s == [] {
      assert s + [c] == [c] && [c][1..] == [];
    } else {
      assert (s + [c])[1..] == s[1..] + [c];
      DigitsLast(s[1..], c, 10 * acc + (s[0] - 48));
    }
  }

  /** Reading a decimal number gives the number. */
  lemma {:induction false} DigitsOfDecimal(n: nat)
    ensures Digits(Decimal(n), 0) == n
    decreases n
  {
    if n < 10 {
      assert Decimal(n)[1..] == [];
    } else {
      DigitsOfDecimal(n / 10);
      DigitsLast(Decimal(n / 10), 48 + n % 10, 0);
    }
  }

  function HeaderOf(n: nat): seq<byte> {
    LENGTH_FIELD + Decimal(n)
  }

  lemma FindIs(b: seq<byte>, i: nat, c: byte, k: nat)
    requires i <= k <= |b| && (k < |b| ==> b[k] == c) && forall j :: i <= j < k ==> b[j] != c
    ensures Find(b, i, c) == k
  {
  }

  lemma TrimDigits(s: seq<byte>)
    requires s != [] && !IsSpace(s[0]) && !IsSpace(s[|s| - 1])
    ensures Trim(s) == s && Trim([32] + s) == s
  {
    assert ([32] + s)[1..] == s;
  }

  lemma LowerName()
    ensures Lower(LENGTH_FIELD[..14]) == LENGTH_NAME
  {
    var s := LENGTH_FIELD[..14];
    assert s == [67, 111, 110, 116, 101, 110, 116, 45, 76, 101, 110, 103, 116, 104];
    LowerAt(s);
    assert Lower(s) == LENGTH_NAME;
  }

  lemma {:induction false} LowerAt(s: seq<byte>)
    ensures |Lower(s)| == |s| && forall i :: 0 <= i < |s| ==> Lower(s)[i] == if 65 <= s[i] <= 90 then s[i] + 32 else s[i]
    decreases |s|
  {
    if s != [] {
      LowerAt(s[1..]);
    }
  }

  /** The header that is written gives the length it was written with. */
  lemma HeaderGivesLength(n: nat)
    requires n <= MAX_BODY
    ensures ContentLength(HeaderOf(n)) == Success(n)
  {
    hide Digits;
    var h, d := HeaderOf(n), Decimal(n);
    assert forall i :: 0 <= i < |h| ==> h[i] == if i < 16 then LENGTH_FIELD[i] else d[i - 16];
    FindIs(h, 0, LF, |h|);
    assert Lines(h) == [h];
    FindIs(h, 0, COLON, 14);
    assert h[..14] == LENGTH_FIELD[..14];
    TrimDigits(h[..14]);
    LowerName();
    assert LengthLine([h]) == Some(h);
    assert h[15..] == [32] + d;
    TrimDigits(d);
    assert ValueOf(h) == d;
    assert TrimLeft(d) == d;
    DigitsOfDecimal(n);
    assert ParseInt(d) == Some(n);
  }

  /** A message at the front of the bytes: its header is read, then its body. */
  lemma EncodedSteps<M>(json: Json<M>, m: M, rest: seq<byte>)
    requires json.parse(json.text(m)) == Some(m) && |json.text(m)| <= MAX_BODY
    ensures Step(json, Encode(json, m) + rest, None) == Header(json.text(m) + rest, |json.text(m)|)
    ensures Step(json, json.text(m) + rest, Some(|json.text(m)|)) == Body(m, rest)
  {
    hide ContentLength;
    var body := json.text(m);
    var h, all := HeaderOf(|body|), Encode(json, m) + rest;
    assert all == h + BLANK_LINE + (body + rest);
    HeaderGivesLength(|body|);
    forall i | 0 <= i < |h| ensures all[i] == h[i] != CR {
      assert h[i] == if i < 16 then LENGTH_FIELD[i] else Decimal(|body|)[i - 16];
    }
    assert BlankLineAt(all, |h|);
    assert FindBlankLine(all, 0) == Some(|h|);
    assert all[..|h|] == h && all[|h| + 4..] == body + rest;
    assert (body + rest)[..|body|] == body && (body + rest)[|body|..] == rest;
  }

  function EncodeAll<M>(json: Json<M>, ms: seq<M>): seq<byte> {
    if ms == [] then [] else Encode(json, ms[0]) + EncodeAll(json, ms[1..])
  }

  ghost predicate AllFit<M>(json: Json<M>, ms: seq<M>) {
    forall i :: 0 <= i < |ms| ==> |json.text(ms[i])| <= MAX_BODY
  }

  lemma {:induction false} EncodedWhole<M(!new)>(json: Json<M>, ms: seq<M>)
    requires Inverse(json) && AllFit(json, ms)
    ensures Whole(json, EncodeAll(json, ms), None) == Delivered(ms, Success(Held([], None)))
    ensures NoNegative(json, EncodeAll(json, ms), None)
    decreases |ms|
  {
    hide Step, Encode;
    if ms == [] {
      EmptyWaits(json);
    } else {
      var rest := EncodeAll(json, ms[1..]);
      EncodedSteps(json, ms[0], rest);
      EncodedWhole(json, ms[1..]);
      assert [ms[0]] + ms[1..] == ms;
    }
  }

  lemma EmptyWaits<M>(json: Json<M>)
    ensures Step(json, [], None).Wait?
  {
  }

  /**
   Any list of messages whose bodies are within the limit, encoded one after the other and cut into
   chunks anywhere: the decoder gives those messages, in order, and is left with nothing.
   */
  lemma MessagesSurviveChunking<M(!new)>(json: Json<M>, ms: seq<M>, chunks: seq<seq<byte>>)
    requires Inverse(json) && AllFit(json, ms) && Flatten(chunks) == EncodeAll(json, ms)
    ensures FeedAll(json, chunks, [], None) == Delivered(ms, Success(Held([], None)))
  {
    EncodedWhole(json, ms);
    EmptyWaits(json);
    assert [] + Flatten(chunks) == Flatten(chunks);
    ChunksDoNotMatter(json, chunks, [], None);
  }

  // ----------------------------------------------------- where the cut matters

  /**
   A message and then a blank line with no header before it. Cut between them the message is handed
   on before the stream fails; in one piece the failure takes the message with it.
   */
  lemma FailureTakesItsFeed<M>(json: Json<M>, m: M)
    requires json.parse(json.text(m)) == Some(m) && |json.text(m)| <= MAX_BODY
    ensures FeedAll(json, [Encode(json, m), BLANK_LINE], [], None) == Delivered([m], Failure(NoLength))
    ensures FeedAll(json, [Encode(json, m) + BLANK_LINE], [], None) == Delivered([], Failure(NoLength))
    ensures NoNegative(json, Encode(json, m) + BLANK_LINE, None)
  {
    hide Encode, Step;
    var e, n := Encode(json, m), |json.text(m)|;
    EmptyWaits(json);
    NothingNamesLength(json);
    assert e + [] == e && json.text(m) + [] == json.text(m);
    EncodedSteps(json, m, []);
    EncodedSteps(json, m, BLANK_LINE);
    assert Whole(json, [], None) == Delivered([], Success(Held([], None)));
    assert Whole(json, e, None) == Delivered([m], Success(Held([], None)));
    assert Whole(json, BLANK_LINE, None) == Delivered([], Failure(NoLength));
    assert Whole(json, e + BLANK_LINE, None) == Delivered([m], Failure(NoLength));
    assert [] + BLANK_LINE == BLANK_LINE;
    assert NoNegative(json, BLANK_LINE, None) && NoNegative(json, json.text(m) + BLANK_LINE, Some(n));
    OneFeed(json, e + BLANK_LINE);
    TwoFeeds(json, e, BLANK_LINE);
  }

  lemma NothingNamesLength<M>(json: Json<M>)
    ensures Step(json, BLANK_LINE, None) == Fail(NoLength)
  {
    assert BlankLineAt(BLANK_LINE, 0);
    assert FindBlankLine(BLANK_LINE, 0) == Some(0);
    assert Lines([]) == [[]];
    assert Lower(Trim([])) == [];
    assert LengthLine([[]]) == None;
  }

  /** A feed that fails hands on no message. */
  function InOneFeed<M>(w: Delivered<M>): Delivered<M> {
    if w.end.Success? then w else Delivered([], w.end)
  }

  /** The stream in one piece. */
  lemma OneFeed<M>(json: Json<M>, s: seq<byte>)
    ensures Flatten([s]) == s
    ensures var w := Whole(json, s, None);
            FeedAll(json, [s], [], None) == InOneFeed(w)
  {
    hide Whole, Run;
    assert [] + s == s && [s][1..] == [] && Flatten([s]) == s + [];
    RunIsWhole(json, s, None, []);
    var w := Whole(json, s, None);
    assert [] + w.messages == w.messages && w.messages + [] == w.messages;
  }

  /** The stream in two pieces. */
  lemma TwoFeeds<M>(json: Json<M>, x: seq<byte>, y: seq<byte>)
    ensures Flatten([x, y]) == x + y
    ensures var w := Whole(json, x, None);
            FeedAll(json, [x, y], [], None) == if w.end.Failure? then InOneFeed(w)
            else Then(w.messages, InOneFeed(Whole(json, w.end.value.buf + y, w.end.value.need)))
  {
    hide Whole, Run;
    assert [] + x == x && [x, y][1..] == [y] && [y][1..] == [];
    assert Flatten([y]) == y + [];
    RunIsWhole(json, x, None, []);
    var w := Whole(json, x, None);
    assert [] + w.messages == w.messages;
    if w.end.Success? {
      var h := w.end.value;
      RunIsWhole(json, h.buf + y, h.need, []);
      var v := Whole(json, h.buf + y, h.need);
      assert [] + v.messages == v.messages && v.messages + [] == v.messages;
      assert FeedAll(json, [y], h.buf, h.need) == InOneFeed(v);
    }
  }

  /** No cut makes a difference: not to what is handed on, and not to the end. */
  ghost predicate SameForEveryCut<M(!new)>(json: Json<M>, s: seq<byte>) {
    forall chunks :: Flatten(chunks) == s ==> FeedAll(json, chunks, [], None) == FeedAll(json, [s], [], None)
  }

  /** The first header gives a negative length, and every front of what follows it ends in a body that is no JSON. */
  ghost predicate OnlyRefusedBodies<M>(json: Json<M>, first: Next<M>) {
    first.Header? && first.need < 0
    && forall x :: 0 <= x <= |first.rest| ==> Whole(json, first.rest[..x], Some(first.need)).end == Failure(NotJson)
  }

  /** Cut right behind a negative length, where the decoder takes an empty body, a stream fails. */
  lemma {:induction false} NegativeCut<M>(json: Json<M>, buf: seq<byte>, need: Option<int>) returns (x: nat)
    requires json.parse([]) == None && !NoNegative(json, buf, need)
    ensures x <= |buf| && Whole(json, buf[..x], need).end.Failure?
    decreases |buf|, if need.Some? then 1 else 0
  {
    hide Step, NoNegative;
    if need.Some? && need.value < 0 {
      x := 0;
      NegativeOnNothing(json, need.value);
    } else {
      NegativeLater(json, buf, need);
      match Step(json, buf, need)
      case Header(rest, n) =>
        var k := NegativeCut(json, rest, Some(n));
        x := |buf| - |rest| + k;
        HeaderCut(json, buf, k);
      case Body(m, rest) =>
        var k := NegativeCut(json, rest, None);
        x := |buf| - |rest| + k;
        BodyCut(json, buf, need.value, k);
    }
  }

  lemma NegativeLater<M>(json: Json<M>, buf: seq<byte>, need: Option<int>)
    requires !NoNegative(json, buf, need) && (need.Some? ==> need.value >= 0)
    ensures match Step(json, buf, need)
            case Header(rest, n) => !NoNegative(json, rest, Some(n))
            case Body(_, rest) => !NoNegative(json, rest, None)
            case _ => false
  {
  }

  lemma NegativeOnNothing<M>(json: Json<M>, n: int)
    requires json.parse([]) == None && n < 0
    ensures Step(json, [], Some(n)) == Fail(NotJson)
  {
    var nothing: seq<byte> := [];
    assert nothing[..Position(0, n)] == [];
  }

  lemma HeaderCut<M>(json: Json<M>, buf: seq<byte>, k: nat)
    requires Step(json, buf, None).Header? && k <= |Step(json, buf, None).rest|
    ensures var next := Step(json, buf, None);
            Step(json, buf[..|buf| - |next.rest| + k], None) == Header(next.rest[..k], next.need)
  {
    hide ContentLength, FindBlankLine;
    BlankLineFits(buf, 0);
    var end := FindBlankLine(buf, 0).value;
    var front := buf[..end + 4 + k];
    BlankLineCut(buf, end + 4 + k);
    assert front[..end] == buf[..end] && front[end + 4..] == buf[end + 4..][..k];
  }

  lemma BlankLineCut(b: seq<byte>, x: nat)
    requires FindBlankLine(b, 0).Some? && FindBlankLine(b, 0).value + 4 <= x <= |b|
    ensures FindBlankLine(b[..x], 0) == FindBlankLine(b, 0)
  {
    var e := FindBlankLine(b, 0).value;
    assert BlankLineAt(b[..x], e);
    forall k | 0 <= k < e ensures !BlankLineAt(b[..x], k) {
      assert !BlankLineAt(b, k);
    }
  }

  lemma BodyCut<M>(json: Json<M>, buf: seq<byte>, n: nat, k: nat)
    requires Step(json, buf, Some(n)).Body? && k <= |Step(json, buf, Some(n)).rest|
    ensures var next := Step(json, buf, Some(n));
            Step(json, buf[..|buf| - |next.rest| + k], Some(n)) == Body(next.message, next.rest[..k])
  {
    var front := buf[..n + k];
    assert front[..n] == buf[..n] && front[n..] == buf[n..][..k];
  }

  /** Cut right behind its first message, a stream hands that message on. */
  lemma FirstMessageCut<M>(json: Json<M>, s: seq<byte>) returns (x: nat)
    requires var first := Step(json, s, None); first.Header? && first.need >= 0 && Step(json, first.rest, Some(first.need)).Body?
    ensures x <= |s|
    ensures var first := Step(json, s, None);
            FeedAll(json, [s[..x], s[x..]], [], None).messages != []
  {
    hide Step;
    var first := Step(json, s, None);
    var next := Step(json, first.rest, Some(first.need));
    var k := |first.rest| - |next.rest|;
    x := |s| - |first.rest| + k;
    BodyCut(json, first.rest, first.need, 0);
    HeaderCut(json, s, k);
    assert first.rest[..k + 0] == first.rest[..k] && next.rest[..0] == [];
    EmptyWaits(json);
    assert Whole(json, [], None) == Delivered([], Success(Held([], None)));
    assert Whole(json, s[..x], None) == Delivered([next.message] + [], Success(Held([], None)));
    TwoFeeds(json, s[..x], s[x..]);
  }

  /** A front that does not reach past the first blank line gives nothing and waits. */
  lemma ShortFrontWaits<M>(json: Json<M>, s: seq<byte>, x: nat)
    requires Step(json, s, None).Header? && x < |s| - |Step(json, s, None).rest|
    ensures Step(json, s[..x], None).Wait?
  {
    hide ContentLength;
    BlankLineFits(s, 0);
    var end := FindBlankLine(s, 0).value;
    forall k | 0 <= k ensures !BlankLineAt(s[..x], k) {
      assert BlankLineAt(s[..x], k) ==> BlankLineAt(s, k);
    }
  }

  /** If every front refuses its body, so does every cut. */
  lemma {:induction false} RefusedHoweverCut<M>(json: Json<M>, s: seq<byte>, chunks: seq<seq<byte>>, x: nat)
    requires Step(json, s, None).Header? && OnlyRefusedBodies(json, Step(json, s, None))
    requires x <= |s| && s[x..] == Flatten(chunks) && x < |s| - |Step(json, s, None).rest|
    ensures FeedAll(json, chunks, s[..x], None) == Delivered([], Failure(NotJson))
    decreases |chunks|
  {
    hide Step;
    var first := Step(json, s, None);
    var h := |s| - |first.rest|;
    assert |Flatten(chunks)| > 0;
    var x' := x + |chunks[0]|;
    assert s == s[..x] + (chunks[0] + Flatten(chunks[1..]));
    assert s[..x] + chunks[0] == s[..x'] && s[x'..] == Flatten(chunks[1..]);
    RunIsWhole(json, s[..x'], None, []);
    if x' < h {
      ShortFrontWaits(json, s, x');
      RefusedHoweverCut(json, s, chunks[1..], x');
    } else {
      HeaderCut(json, s, x' - h);
      assert Whole(json, first.rest[..x' - h], Some(first.need)).end == Failure(NotJson);
    }
  }

  /**
   The cut of a stream matters to nothing if and only if no negative length is met and the stream
   decodes or fails before its first message; or else its first header gives a negative length and
   every front of what follows fails for a body that is no JSON. Otherwise some cut hands on more, or
   ends otherwise.
   */
  lemma CutNeverMattersIff<M(!new)>(json: Json<M>, s: seq<byte>)
    requires json.parse([]) == None
    ensures SameForEveryCut(json, s) <==>
            if NoNegative(json, s, None) then Whole(json, s, None).end.Success? || Whole(json, s, None).messages == []
            else OnlyRefusedBodies(json, Step(json, s, None))
  {
    hide Step, Run, NoNegative, Flatten, FeedAll, OnlyRefusedBodies;
    EmptyWaits(json);
    OneFeed(json, s);
    assert [] + s == s;
    if NoNegative(json, s, None) {
      WithoutNegative(json, s);
    } else if OnlyRefusedBodies(json, Step(json, s, None)) {
      RefusedIsSame(json, s);
    } else {
      NegativeMatters(json, s);
    }
  }

  lemma WithoutNegative<M(!new)>(json: Json<M>, s: seq<byte>)
    requires NoNegative(json, s, None)
    ensures SameForEveryCut(json, s) <==> Whole(json, s, None).end.Success? || Whole(json, s, None).messages == []
  {
    hide Step, Run, Flatten, FeedAll;
    EmptyWaits(json);
    OneFeed(json, s);
    assert [] + s == s;
    var w := Whole(json, s, None);
    if w.end.Success? || w.messages == [] {
      forall chunks | Flatten(chunks) == s ensures FeedAll(json, chunks, [], None) == FeedAll(json, [s], [], None) {
        ChunksDoNotMatter(json, chunks, [], None);
      }
    } else {
      var x := FirstMessageCut(json, s);
      TwoFeeds(json, s[..x], s[x..]);
      assert s[..x] + s[x..] == s;
    }
  }

  lemma RefusedIsSame<M(!new)>(json: Json<M>, s: seq<byte>)
    requires OnlyRefusedBodies(json, Step(json, s, None))
    ensures SameForEveryCut(json, s)
  {
    hide Step, Run, Flatten, FeedAll;
    OneFeed(json, s);
    forall chunks | Flatten(chunks) == s ensures FeedAll(json, chunks, [], None) == FeedAll(json, [s], [], None) {
      HeaderShrinks(json, s);
      assert s[0..] == s && s[..0] == [];
      RefusedHoweverCut(json, s, chunks, 0);
      RefusedHoweverCut(json, s, [s], 0);
    }
  }

  lemma HeaderShrinks<M>(json: Json<M>, s: seq<byte>)
    requires Step(json, s, None).Header?
    ensures |Step(json, s, None).rest| < |s|
  {
  }

  lemma NegativeMatters<M(!new)>(json: Json<M>, s: seq<byte>)
    requires json.parse([]) == None && !NoNegative(json, s, None) && !OnlyRefusedBodies(json, Step(json, s, None))
    ensures !SameForEveryCut(json, s)
  {
    hide Step, Run, NoNegative, Flatten, FeedAll;
    OneFeed(json, s);
    NegativeLater(json, s, None);
    var first := Step(json, s, None);
    var x := NegativeCut(json, s, None);
    assert s[..x] + s[x..] == s;
    TwoFeeds(json, s[..x], s[x..]);
    if first.need >= 0 {
      NegativeLater(json, first.rest, Some(first.need));
      var k := FirstMessageCut(json, s);
      assert s[..k] + s[k..] == s;
      TwoFeeds(json, s[..k], s[k..]);
    } else {
      NegativeFirstMatters(json, s);
    }
  }

  lemma NegativeFirstMatters<M(!new)>(json: Json<M>, s: seq<byte>)
    requires json.parse([]) == None && !OnlyRefusedBodies(json, Step(json, s, None))
    requires Step(json, s, None).Header? && Step(json, s, None).need < 0
    ensures !SameForEveryCut(json, s)
  {
    hide Step, Run, Whole, Flatten, FeedAll;
    var first := Step(json, s, None);
    var y :| 0 <= y <= |first.rest| && Whole(json, first.rest[..y], Some(first.need)).end != Failure(NotJson);
    var h := |s| - |first.rest|;
    HeaderShrinks(json, s);
    NegativeFirstCut(json, s, 0);
    NegativeFirstCut(json, s, y);
    assert first.rest[..0] == [];
    NegativeOnNothing(json, first.need);
    assert Whole(json, [], Some(first.need)) == Delivered([], Failure(NotJson)) by { WholeFails(json, first.need); }
    NegativeTakesAtOnce(json, first.rest[..y], first.need);
  }

  lemma WholeFails<M>(json: Json<M>, n: int)
    requires Step(json, [], Some(n)) == Fail(NotJson)
    ensures Whole(json, [], Some(n)) == Delivered([], Failure(NotJson))
  {
    hide Step;
  }

  /** Cut `x` bytes behind the first header, the first feed comes to what those bytes come to. */
  lemma NegativeFirstCut<M>(json: Json<M>, s: seq<byte>, x: nat)
    requires Step(json, s, None).Header? && x <= |Step(json, s, None).rest| < |s|
    ensures var first := Step(json, s, None);
            var k := |s| - |first.rest| + x;
            var w := Whole(json, first.rest[..x], Some(first.need));
            && Flatten([s[..k], s[k..]]) == s
            && (w.end.Failure? ==> FeedAll(json, [s[..k], s[k..]], [], None) == InOneFeed(w))
            && (w.end.Success? ==> w.messages <= FeedAll(json, [s[..k], s[k..]], [], None).messages)
  {
    hide Step, Run, Flatten, FeedAll;
    var k := |s| - |Step(json, s, None).rest| + x;
    HeaderCut(json, s, x);
    TwoFeeds(json, s[..k], s[k..]);
    assert s[..k] + s[k..] == s;
  }

  /** A stream that is nothing but a header of length -1 fails alike however it is cut. */
  lemma LoneNegativeHeader<M(!new)>(json: Json<M>)
    requires json.parse([]) == None
    ensures !NoNegative(json, NEGATIVE_HEADER, None) && SameForEveryCut(json, NEGATIVE_HEADER)
  {
    hide Step;
    var nothing: seq<byte> := [];
    NegativeHeaderStep(json, nothing);
    assert NEGATIVE_HEADER + nothing == NEGATIVE_HEADER && nothing[..0] == nothing;
    NegativeOnNothing(json, -1);
    RefusedIsSame(json, NEGATIVE_HEADER);
  }

  /**
   A header of length -1, then a body and one byte more. In one piece the body's message is handed on;
   cut right behind the header the stream fails.
   */
  lemma NegativeLengthMatters<M(!new)>(json: Json<M>, b: seq<byte>, m: M, c: byte)
    requires json.parse([]) == None && json.parse(b) == Some(m)
    ensures var h := NEGATIVE_HEADER;
            && FeedAll(json, [h + (b + [c])], [], None) == Delivered([m], Success(Held([c], None)))
            && FeedAll(json, [h, b + [c]], [], None) == Delivered([], Failure(NotJson))
            && !SameForEveryCut(json, h + (b + [c]))
  {
    hide Step, FeedAll, Run, Flatten;
    var h, more := NEGATIVE_HEADER, b + [c];
    NegativeHeaderStep(json, more);
    NegativeHeaderStep(json, []);
    assert h + [] == h && more[..|b|] == b && more[|b|..] == [c];
    NegativeOnNothing(json, -1);
    TakesAllButOne(json, b, m, c);
    OneByteWaits(json, c);
    assert Whole(json, [c], None) == Delivered([], Success(Held([c], None)));
    assert Whole(json, more, Some(-1)) == Delivered([m], Success(Held([c], None)));
    assert Whole(json, h + more, None) == Delivered([m], Success(Held([c], None)));
    assert Whole(json, [], Some(-1)) == Delivered([], Failure(NotJson));
    assert Whole(json, h, None) == Delivered([], Failure(NotJson));
    OneFeed(json, h + more);
    TwoFeeds(json, h, more);
  }

  /** `Content-Length: -1` and a blank line. */
  const NEGATIVE_HEADER: seq<byte> := LENGTH_FIELD + [45, 49] + BLANK_LINE

  lemma NegativeHeaderStep<M>(json: Json<M>, rest: seq<byte>)
    ensures Step(json, NEGATIVE_HEADER + rest, None) == Header(rest, -1)
  {
    hide ContentLength;
    var h: seq<byte> := LENGTH_FIELD + [45, 49];
    var s := NEGATIVE_HEADER + rest;
    NegativeLength(h);
    assert s == h + BLANK_LINE + rest;
    forall i | 0 <= i < |h| ensures s[i] == h[i] != CR {
    }
    assert BlankLineAt(s, |h|);
    assert FindBlankLine(s, 0) == Some(|h|) && s[..|h|] == h && s[|h| + 4..] == rest;
  }

  lemma TakesAllButOne<M>(json: Json<M>, b: seq<byte>, m: M, c: byte)
    requires json.parse(b) == Some(m)
    ensures Step(json, b + [c], Some(-1)) == Body(m, [c])
  {
    var more := b + [c];
    assert Position(|more|, -1) == |b| && more[..|b|] == b && more[|b|..] == [c];
  }

  lemma OneByteWaits<M>(json: Json<M>, c: byte)
    ensures Step(json, [c], None).Wait?
  {
  }

  lemma NegativeLength(h: seq<byte>)
    requires h == LENGTH_FIELD + [45, 49]
    ensures ContentLength(h) == Success(-1)
  {
    FindIs(h, 0, LF, |h|);
    assert Lines(h) == [h];
    FindIs(h, 0, COLON, 14);
    assert h[..14] == LENGTH_FIELD[..14];
    TrimDigits(h[..14]);
    LowerName();
    assert LengthLine([h]) == Some(h);
    var d: seq<byte> := [45, 49];
    assert h[15..] == [32] + d;
    TrimDigits(d);
    assert ValueOf(h) == d && d[1..] == [49] && [49][1..] == [];
    assert Digits([49], 0) == 1;
  }

  /** A decoder that has read a negative length never waits for the body. */
  lemma NegativeTakesAtOnce<M>(json: Json<M>, buf: seq<byte>, n: int)
    requires n < 0
    ensures var w := Whole(json, buf, Some(n)); w.end.Failure? || w.messages != []
  {
  }
}
