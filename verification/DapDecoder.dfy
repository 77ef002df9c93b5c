/**
 The debug client's end of the Debug Adapter Protocol: framed JSON messages (Base Protocol, Header
 Part and Content Part), decoded from chunks of bytes that are cut anywhere.
 */
module DapDecoder {
  import opened Wrappers
  import opened Bytes

  const CR: byte := 13
  const LF: byte := 10
  const COLON: byte := 58
  const MAX_BODY: nat := 8 * 1024 * 1024

  /** JSON text: what a body parses to, if it parses, and how a message is written. */
  datatype Json<!M> = Json(parse: seq<byte> -> Option<M>, text: M -> seq<byte>)

  ghost predicate Inverse<M(!new)>(json: Json<M>) {
    forall m: M :: json.parse(json.text(m)) == Some(m)
  }

  datatype DapError = NoLength | TooLong | NotJson

  // -------------------------------------------------------------- the header

  /** A carriage return and line feed, twice, at `i`. */
  predicate BlankLineAt(b: seq<byte>, i: nat) {
    i + 4 <= |b| && b[i] == CR && b[i + 1] == LF && b[i + 2] == CR && b[i + 3] == LF
  }

  /** The first blank line from `i` on. */
  function FindBlankLine(b: seq<byte>, i: nat): (r: Option<nat>)
    ensures r.Some? ==> i <= r.value && BlankLineAt(b, r.value)
    ensures forall k :: i <= k && (r.None? || k < r.value) ==> !BlankLineAt(b, k)
    decreases if i < |b| then |b| - i else 0
  {
    if BlankLineAt(b, i) then Some(i)
    else if i >= |b| then None
    else FindBlankLine(b, i + 1)
  }

  /** Where a byte first stands from `i` on, or the end. */
  function Find(b: seq<byte>, i: nat, c: byte): (k: nat)
    requires i <= |b|
    ensures i <= k <= |b| && (k < |b| ==> b[k] == c)
    ensures forall j :: i <= j < k ==> b[j] != c
    decreases |b| - i
  {
    if i == |b| || b[i] == c then i else Find(b, i + 1, c)
  }

  function DropCr(line: seq<byte>): seq<byte> {
    if line != [] && line[|line| - 1] == CR then line[..|line| - 1] else line
  }

  /** The lines of a header block. A line feed ends a line, with the carriage return before it if any. */
  function Lines(b: seq<byte>): (r: seq<seq<byte>>)
    ensures |r| >= 1
    decreases |b|
  {
    var k := Find(b, 0, LF);
    if k == |b| then [b] else [DropCr(b[..k])] + Lines(b[k + 1..])
  }

  predicate IsSpace(c: byte) {
    c == 32 || 9 <= c <= 13
  }

  function TrimLeft(s: seq<byte>): seq<byte> {
    if s != [] && IsSpace(s[0]) then TrimLeft(s[1..]) else s
  }

  function TrimRight(s: seq<byte>): seq<byte> {
    if s != [] && IsSpace(s[|s| - 1]) then TrimRight(s[..|s| - 1]) else s
  }

  function Trim(s: seq<byte>): seq<byte> {
    TrimRight(TrimLeft(s))
  }

  function Lower(s: seq<byte>): seq<byte> {
    if s == [] then [] else [if 65 <= s[0] <= 90 then s[0] + 32 else s[0]] + Lower(s[1..])
  }

  /** `content-length` */
  const LENGTH_NAME: seq<byte> := [99, 111, 110, 116, 101, 110, 116, 45, 108, 101, 110, 103, 116, 104]

  predicate NamesLength(line: seq<byte>) {
    Lower(Trim(line[..Find(line, 0, COLON)])) == LENGTH_NAME
  }

  function LengthLine(lines: seq<seq<byte>>): Option<seq<byte>> {
    if lines == [] then None
    else if NamesLength(lines[0]) then Some(lines[0])
    else LengthLine(lines[1..])
  }

  predicate IsDigit(c: byte) {
    48 <= c <= 57
  }

  /** The digits at the front of `s`, if any, as a number. */
  function Digits(s: seq<byte>, acc: nat): nat {
    if s != [] && IsDigit(s[0]) then Digits(s[1..], 10 * acc + (s[0] - 48)) else acc
  }

  function Unsigned(s: seq<byte>): Option<nat> {
    if s != [] && IsDigit(s[0]) then Some(Digits(s, 0)) else None
  }

  /** `parseInt`: white space, a sign, digits; whatever follows them is ignored. */
  function ParseInt(s: seq<byte>): Option<int> {
    var t := TrimLeft(s);
    if t != [] && t[0] == 45 then
      (match Unsigned(t[1..])
       case Some(n) => Some(0 - n)
       case None => None)
    else if t != [] && t[0] == 43 then
      (match Unsigned(t[1..])
       case Some(n) => Some(n)
       case None => None)
    else
      (match Unsigned(t)
       case Some(n) => Some(n)
       case None => None)
  }

  /** The text after the colon, or the whole line if it has none. */
  function ValueOf(line: seq<byte>): seq<byte> {
    var k := Find(line, 0, COLON);
    Trim(if k < |line| then line[k + 1..] else line)
  }

  /** The length a header block gives: any integer, negative ones included. */
  function ContentLength(header: seq<byte>): Result<int, DapError> {
    match LengthLine(Lines(header))
    case None => Failure(NoLength)
    case Some(line) =>
      match ParseInt(ValueOf(line))
      case None => Failure(NoLength)
      case Some(n) => if n > MAX_BODY then Failure(TooLong) else Success(n)
  }

  // ---------------------------------------------------------------- one step

  /** The language's `subarray(0, n)` and `subarray(n)`: a negative index counts from the end. */
  function Position(length: nat, n: int): (p: nat)
    ensures p <= length
  {
    if n < 0 then (if length + n < 0 then 0 else length + n)
    else if n > length then length else n
  }

  /** What the decoder does next with the bytes it holds. */
  datatype Next<M> = Wait | Fail(error: DapError) | Header(rest: seq<byte>, need: int) | Body(message: M, rest: seq<byte>)

  function Step<M>(json: Json<M>, buf: seq<byte>, need: Option<int>): (r: Next<M>)
    ensures r.Header? ==> |r.rest| < |buf|
    ensures r.Body? ==> |r.rest| <= |buf| && need.Some?
    ensures r.Header? ==> need.None?
  {
    match need
    case None =>
      (match FindBlankLine(buf, 0)
       case None => Wait
       case Some(end) =>
         match ContentLength(buf[..end])
         case Failure(e) => Fail(e)
         case Success(n) => Header(buf[end + 4..], n))
    case Some(n) =>
      if |buf| < n then Wait
      else
        match json.parse(buf[..Position(|buf|, n)])
        case None => Fail(NotJson)
        case Some(m) => Body(m, buf[Position(|buf|, n)..])
  }

  datatype Decoded<M> = Decoded(messages: seq<M>, buf: seq<byte>, need: Option<int>)

  /** All the steps that can be taken: the messages, and the bytes and the length left over. */
  function Run<M>(json: Json<M>, buf: seq<byte>, need: Option<int>, out: seq<M>): Result<Decoded<M>, DapError>
    decreases |buf|, if need.Some? then 1 else 0
  {
    match Step(json, buf, need)
    case Wait => Success(Decoded(out, buf, need))
    case Fail(e) => Failure(e)
    case Header(rest, n) => Run(json, rest, Some(n), out)
    case Body(m, rest) => Run(json, rest, None, out + [m])
  }

  class Decoder<M> {
    const json: Json<M>
    var buf: seq<byte>
    var need: Option<int>

    constructor (json: Json<M>)
      ensures this.json == json && buf == [] && need == None
    {
      this.json := json;
      buf, need := [], None;
    }

    /** One chunk in, the whole messages it completes out. */
    method Feed(chunk: seq<byte>) returns (r: Result<seq<M>, DapError>)
      modifies this
      ensures match Run(json, old(buf) + chunk, old(need), [])
              case Failure(e) => r == Failure(e)
              case Success(d) => r == Success(d.messages) && buf == d.buf && need == d.need
    {
      hide ContentLength, FindBlankLine;
      buf := buf + chunk;
      var out := [];
      while true
        invariant Run(json, buf, need, out) == Run(json, old(buf) + chunk, old(need), [])
        decreases |buf|, if need.Some? then 1 else 0
      {
        if need.None? {
          var end := FindBlankLine(buf, 0);
          if end.None? {
            return Success(out);
          }
          BlankLineFits(buf, 0);
          var header := buf[..end.value];
          var rest := buf[end.value + 4..];
          var length :- ContentLength(header);
          buf, need := rest, Some(length);
        } else {
          if |buf| < need.value {
            return Success(out);
          }
          var p := Position(|buf|, need.value);
          var body := buf[..p];
          var parsed := json.parse(body);
          if parsed.None? {
            return Failure(NotJson);
          }
          buf, need := buf[p..], None;
          out := out + [parsed.value];
        }
      }
    }
  }

  lemma BlankLineFits(b: seq<byte>, i: nat)
    ensures FindBlankLine(b, i).Some? ==> FindBlankLine(b, i).value + 4 <= |b|
  {
  }

  // ---------------------------------------------------------------- encoding

  /** `Content-Length: ` */
  const LENGTH_FIELD: seq<byte> := [67, 111, 110, 116, 101, 110, 116, 45, 76, 101, 110, 103, 116, 104, 58, 32]

  const BLANK_LINE: seq<byte> := [CR, LF, CR, LF]

  /** The length counts bytes. */
  function Encode<M>(json: Json<M>, m: M): seq<byte> {
    var body := json.text(m);
    LENGTH_FIELD + Decimal(|body|) + BLANK_LINE + body
  }
}
