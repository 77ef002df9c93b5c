/** Length-prefixed frames on a byte stream. */
module Frames {
  import opened Wrappers
  import opened Bytes

  const MAX_FRAME: nat := 64 * 1024 * 1024

  datatype FrameError = Oversized | Truncated

  /** What a reader makes of the front of a stream: its end, an error, or a body and what follows. */
  datatype FrameRead = End | Failed(error: FrameError) | Body(body: seq<byte>, rest: seq<byte>)

  function Frame(body: seq<byte>): seq<byte> {
    ToLittleEndian(|body|, 4) + body
  }

  /** A stream that ends inside the length is a clean end; one that ends inside the body is not. */
  function NextFrame(stream: seq<byte>): (r: FrameRead)
    ensures r.Body? ==> |r.rest| < |stream| && |r.body| <= MAX_FRAME
  {
    if |stream| < 4 then End
    else
      var n := FromLittleEndian(stream[..4]);
      if n > MAX_FRAME then Failed(Oversized)
      else if |stream| < 4 + n then Failed(Truncated)
      else Body(stream[4..4 + n], stream[4 + n..])
  }

  class Stream {
    var bytes: seq<byte>

    constructor ()
      ensures bytes == []
    {
      bytes := [];
    }

    /** A body over the limit is refused and nothing is written. */
    method WriteFrame(body: seq<byte>) returns (r: Result<(), FrameError>)
      modifies this
      ensures r == if |body| <= MAX_FRAME then Success(()) else Failure(Oversized)
      ensures bytes == if r.Success? then old(bytes) + Frame(body) else old(bytes)
    {
      if |body| > MAX_FRAME {
        return Failure(Oversized);
      }
      bytes := bytes + ToLittleEndian(|body|, 4);
      bytes := bytes + body;
      return Success(());
    }

    /** Takes one frame off the front. */
    method ReadFrame() returns (r: Result<Option<seq<byte>>, FrameError>)
      modifies this
      ensures match NextFrame(old(bytes))
              case End => r == Success(None)
              case Failed(e) => r == Failure(e)
              case Body(body, rest) => r == Success(Some(body)) && bytes == rest
    {
      if |bytes| < 4 {
        bytes := [];
        return Success(None);
      }
      var n := FromLittleEndian(bytes[..4]);
      bytes := bytes[4..];
      if n > MAX_FRAME {
        return Failure(Oversized);
      }
      if |bytes| < n {
        bytes := [];
        return Failure(Truncated);
      }
      var body := bytes[..n];
      assert body == old(bytes)[4..4 + n] && bytes[n..] == old(bytes)[4 + n..];
      bytes := bytes[n..];
      return Success(Some(body));
    }
  }

  // ------------------------------------------------------- streams of frames

  function Concat(bodies: seq<seq<byte>>): seq<byte> {
    if bodies == [] then [] else Frame(bodies[0]) + Concat(bodies[1..])
  }

  /** Everything a reader gets before the stream ends or fails, and which of the two it was. */
  function ReadAll(stream: seq<byte>): (r: (seq<seq<byte>>, Option<FrameError>))
    decreases |stream|
  {
    match NextFrame(stream)
    case End => ([], None)
    case Failed(e) => ([], Some(e))
    case Body(body, rest) =>
      var (bodies, e) := ReadAll(rest);
      ([body] + bodies, e)
  }

  ghost predicate AllFit(bodies: seq<seq<byte>>) {
    forall i :: 0 <= i < |bodies| ==> |bodies[i]| <= MAX_FRAME
  }

  lemma FrameLength(body: seq<byte>)
    requires |body| <= MAX_FRAME
    ensures FromLittleEndian(ToLittleEndian(|body|, 4)) == |body|
  {
    Powers();
    LittleEndianRoundTrip(|body|, 4);
  }

  lemma NextAfterFrame(body: seq<byte>, rest: seq<byte>)
    requires |body| <= MAX_FRAME
    ensures NextFrame(Frame(body) + rest) == Body(body, rest)
  {
    FrameLength(body);
    var s := Frame(body) + rest;
    assert s[..4] == ToLittleEndian(|body|, 4);
    assert s[4..4 + |body|] == body && s[4 + |body|..] == rest;
  }

  /** A frame cut short: a clean end if even its length is incomplete, else an error. */
  lemma NextAfterCut(body: seq<byte>, cut: nat)
    requires |body| <= MAX_FRAME && cut < |Frame(body)|
    ensures NextFrame(Frame(body)[..cut]) == if cut < 4 then End else Failed(Truncated)
  {
    FrameLength(body);
    if cut >= 4 {
      assert Frame(body)[..cut][..4] == ToLittleEndian(|body|, 4);
    }
  }

  /**
   Cut a stream of frames anywhere: the reader gets exactly the bodies that arrived whole, in
   order, and then a clean end if fewer than four bytes were left over, or an error.
   */
  lemma {:induction false} CutStream(bodies: seq<seq<byte>>, cut: nat) returns (whole: nat)
    requires AllFit(bodies) && cut <= |Concat(bodies)|
    ensures whole <= |bodies| && |Concat(bodies[..whole])| <= cut
    ensures whole < |bodies| ==> cut < |Concat(bodies[..whole + 1])|
    ensures ReadAll(Concat(bodies)[..cut])
         == (bodies[..whole], if cut - |Concat(bodies[..whole])| < 4 then None else Some(Truncated))
  {
    hide ToLittleEndian, FromLittleEndian, NextFrame, Frame;
    if bodies == [] {
      whole := 0;
      NothingToRead();
    } else {
      var f, rest := Frame(bodies[0]), bodies[1..];
      if cut < |f| {
        whole := 0;
        assert bodies[..1] == [bodies[0]] && bodies[..1][1..] == [] && f + [] == f;
        assert Concat(bodies)[..cut] == f[..cut];
        NextAfterCut(bodies[0], cut);
      } else {
        var k := CutStream(rest, cut - |f|);
        whole := k + 1;
        assert Concat(bodies)[..cut] == f + Concat(rest)[..cut - |f|];
        NextAfterFrame(bodies[0], Concat(rest)[..cut - |f|]);
        ConcatPrefix(bodies, k);
        if k < |rest| {
          ConcatPrefix(bodies, k + 1);
        }
      }
    }
  }

  lemma NothingToRead()
    ensures NextFrame([]) == End
  {
  }

  lemma ConcatPrefix(bodies: seq<seq<byte>>, k: nat)
    requires k < |bodies|
    ensures bodies[..k + 1] == [bodies[0]] + bodies[1..][..k]
    ensures Concat(bodies[..k + 1]) == Frame(bodies[0]) + Concat(bodies[1..][..k])
  {
    var p := bodies[..k + 1];
    assert p[1..] == bodies[1..][..k];
  }

  /** Uncut, the stream gives back every body and ends cleanly. */
  lemma WholeStream(bodies: seq<seq<byte>>)
    requires AllFit(bodies)
    ensures ReadAll(Concat(bodies)) == (bodies, None)
  {
    var s := Concat(bodies);
    assert s[..|s|] == s;
    var whole := CutStream(bodies, |s|);
    if whole < |bodies| {
      ConcatGrows(bodies, whole + 1);
    }
    assert bodies[..whole] == bodies;
  }

  lemma {:induction false} ConcatGrows(bodies: seq<seq<byte>>, k: nat)
    requires k <= |bodies|
    ensures |Concat(bodies[..k])| <= |Concat(bodies)|
    decreases |bodies|
  {
    if k > 0 {
      ConcatPrefix(bodies, k - 1);
      ConcatGrows(bodies[1..], k - 1);
    }
  }
}
