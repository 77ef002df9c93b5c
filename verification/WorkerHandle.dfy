/**
 The server's end of one worker slot, on the bytes of its two pipes: what is written to the child, and
 which answer a job gets from whatever the child wrote.
 */
module WorkerHandle {
  import opened Wrappers
  import opened Endings
  import opened Bytes
  import opened Wire
  import opened Messages
  import opened Frames

  datatype Outcome = Outcome(ending: Ending, value: LuaData, error: Option<Text>, logs: seq<Log>)

  /** What a reader of a child's output comes to: a message that is no `Ready`, or the loss of the child. */
  datatype Answer = Message(m: ToServer, rest: seq<byte>) | Lost

  function NextAnswer(stream: seq<byte>): Answer
    decreases |stream|
  {
    match NextFrame(stream)
    case End => Lost
    case Failed(_) => Lost
    case Body(body, rest) =>
      match DecodeToServer(body)
      case Failure(_) => Lost
      case Success(m) => if m.Ready? then NextAnswer(rest) else Message(m, rest)
  }

  /** The answer for this job, if the next one is. */
  function AnswerFor(stream: seq<byte>, id: u64): Option<Outcome> {
    match NextAnswer(stream)
    case Lost => None
    case Message(m, _) =>
      if m.Done? && m.id == id then Some(Outcome(m.ending, m.value, m.error, m.logs)) else None
  }

  /** The outcome of a job whose worker is gone. */
  const DIED: Outcome := Outcome(Ending.Error, Nil, None, [])

  /** The live child of a slot: what was written to it, and whether its pipe is still good. */
  class Handle {
    var running: bool
    var broken: bool
    var written: seq<byte>

    constructor ()
      ensures !running && IsBroken()
    {
      running, broken, written := false, false, [];
    }

    predicate IsBroken()
      reads this
    {
      !running || broken
    }

    /**
     The handshake. `spawned` says whether there is a binary and its process started, `pipeOk` whether
     the child's input took the greeting; then the child takes the slot if the first thing it says is
     that it is ready.
     */
    method Start(spawned: bool, hello: seq<byte>, pipeOk: bool, reader: Stream) returns (ok: bool)
      modifies this, reader
      ensures ok <==> spawned && pipeOk && |hello| <= MAX_FRAME && Greets(old(reader.bytes))
      ensures ok ==> running && !broken && written == Frame(hello) && reader.bytes == AfterGreeting(old(reader.bytes))
      ensures !ok ==> running == old(running) && broken == old(broken) && written == old(written)
    {
      if !spawned || !pipeOk || |hello| > MAX_FRAME {
        return false;
      }
      var first := reader.ReadFrame();
      if first.Failure? || first.value.None? {
        return false;
      }
      var m := DecodeToServer(first.value.value);
      if m.Failure? || !m.value.Ready? {
        return false;
      }
      running, broken, written := true, false, Frame(hello);
      return true;
    }

    /** A frame for the child. A failed write marks the slot; so does a frame over the limit. */
    method Write(body: seq<byte>, pipeOk: bool) returns (ok: bool)
      modifies this`broken, this`written
      ensures ok == (old(running) && pipeOk && |body| <= MAX_FRAME)
      ensures written == if ok then old(written) + Frame(body) else old(written)
      ensures broken == (old(broken) || (running && !ok))
    {
      if !running {
        return false;
      }
      if !pipeOk || |body| > MAX_FRAME {
        broken := true;
        return false;
      }
      written := written + Frame(body);
      return true;
    }

    method MarkBroken()
      modifies this`broken
      ensures broken == (old(broken) || running)
    {
      if running {
        broken := true;
      }
    }

    /** Sends a job and reads until it is answered. Anything but its own answer breaks the slot. */
    method Run(reader: Stream, body: seq<byte>, id: u64, pipeOk: bool) returns (out: Outcome)
      modifies this`broken, this`written, reader
      ensures var sent := old(running) && pipeOk && |body| <= MAX_FRAME;
              var answer := if sent then AnswerFor(old(reader.bytes), id) else None;
              && (answer.Some? ==> out == answer.value && broken == old(broken))
              && (answer.None? ==> out == DIED && broken == (old(broken) || running))
              && written == (if sent then old(written) + Frame(body) else old(written))
      ensures old(running) && pipeOk && |body| <= MAX_FRAME && AnswerFor(old(reader.bytes), id).Some? ==>
                reader.bytes == NextAnswer(old(reader.bytes)).rest
    {
      hide DecodeToServer, Frame;
      var ok := Write(body, pipeOk);
      if !ok {
        return DIED;
      }
      while true
        invariant NextAnswer(reader.bytes) == NextAnswer(old(reader.bytes))
        invariant running == old(running) == true && broken == old(broken) && written == old(written) + Frame(body)
        decreases |reader.bytes|
      {
        var frame := reader.ReadFrame();
        if frame.Failure? || frame.value.None? {
          MarkBroken();
          return DIED;
        }
        var m := DecodeToServer(frame.value.value);
        if m.Failure? {
          MarkBroken();
          return DIED;
        }
        match m.value {
          case Ready =>
          case Broken(_) =>
            MarkBroken();
            return DIED;
          case Done(answered, ending, value, error, logs) =>
            if answered != id {
              MarkBroken();
              return DIED;
            }
            return Outcome(ending, value, error, logs);
        }
      }
    }

    method Kill()
      modifies this`broken
      ensures broken == (old(broken) || running)
    {
      MarkBroken();
    }

    /** The slot is empty afterwards, and an empty slot counts as broken. */
    method ShutDown()
      modifies this`running
      ensures !running && IsBroken()
    {
      running := false;
    }
  }

  predicate Greets(stream: seq<byte>) {
    var next := NextFrame(stream);
    next.Body? && DecodeToServer(next.body) == Success(Ready)
  }

  function AfterGreeting(stream: seq<byte>): seq<byte>
    requires Greets(stream)
  {
    NextFrame(stream).rest
  }

  // -------------------------------------------------------- a faithful child

  /** A message a child can send in one frame and the server can read. */
  ghost predicate Sendable(m: ToServer) {
    ToServerFits(m) && |EncodeToServer(m)| <= MAX_FRAME && ToServerHeight(m) <= MAX_DEPTH
  }

  ghost function Sent(m: ToServer): seq<byte>
    requires Sendable(m)
  {
    Frame(EncodeToServer(m))
  }

  lemma SentIsRead(m: ToServer, rest: seq<byte>)
    requires Sendable(m)
    ensures NextFrame(Sent(m) + rest) == Body(EncodeToServer(m), rest) && DecodeToServer(EncodeToServer(m)) == Success(m)
  {
    hide EncodeToServer, Frame, NextFrame, DecodeToServer;
    var e := EncodeToServer(m);
    NextAfterFrame(e, rest);
    ToServerRoundTrip(m, []);
    assert e + [] == e;
  }

  /** A job's own answer is taken whatever follows it, and what follows stays for the next job. */
  lemma OwnAnswerIsTaken(done: ToServer, rest: seq<byte>)
    requires done.Done? && Sendable(done)
    ensures NextAnswer(Sent(done) + rest) == Message(done, rest)
    ensures AnswerFor(Sent(done) + rest, done.id) == Some(Outcome(done.ending, done.value, done.error, done.logs))
    ensures forall id: u64 :: id != done.id ==> AnswerFor(Sent(done) + rest, id).None?
  {
    hide Sent, NextFrame, DecodeToServer;
    SentIsRead(done, rest);
  }

  /** What else a child may say: a second greeting is passed over, and a child that says it is broken is lost. */
  lemma OtherMessages(why: Text, rest: seq<byte>, id: u64)
    requires Sendable(Broken(why))
    ensures NextAnswer(Sent(Ready) + rest) == NextAnswer(rest) && AnswerFor(Sent(Ready) + rest, id) == AnswerFor(rest, id)
    ensures AnswerFor(Sent(Broken(why)) + rest, id) == None
  {
    hide Sent, NextFrame, DecodeToServer;
    SentIsRead(Ready, rest);
    SentIsRead(Broken(why), rest);
  }

  /** A stream that ends, is cut inside a frame, or holds no message gives no answer. */
  lemma NoAnswer(stream: seq<byte>, id: u64)
    requires var next := NextFrame(stream); next.Body? ==> DecodeToServer(next.body).Failure?
    ensures AnswerFor(stream, id) == None
  {
  }

  /** Only a child whose first message is that it is ready takes the slot. */
  lemma OnlyReadyGreets(m: ToServer, rest: seq<byte>)
    requires Sendable(m)
    ensures Greets(Sent(m) + rest) <==> m.Ready?
    ensures m.Ready? ==> AfterGreeting(Sent(m) + rest) == rest
  {
    hide Sent, NextFrame, DecodeToServer;
    SentIsRead(m, rest);
  }

  /** The answers a child writes, one after the other. */
  ghost function SentAll(dones: seq<ToServer>): seq<byte>
    requires forall i :: 0 <= i < |dones| ==> Sendable(dones[i])
  {
    if dones == [] then [] else Sent(dones[0]) + SentAll(dones[1..])
  }

  /** What is left of a stream after `k` answers were taken. */
  function AfterAnswers(stream: seq<byte>, k: nat): seq<byte>
    decreases k
  {
    if k == 0 || NextAnswer(stream).Lost? then stream else AfterAnswers(NextAnswer(stream).rest, k - 1)
  }

  /** If a child answers its jobs in order, the `k`-th job read for gets the `k`-th answer, however long the run. */
  lemma {:induction false} AnswersStayInStep(dones: seq<ToServer>, k: nat)
    requires k < |dones| && forall i :: 0 <= i < |dones| ==> Sendable(dones[i]) && dones[i].Done?
    ensures AnswerFor(AfterAnswers(SentAll(dones), k), dones[k].id)
         == Some(Outcome(dones[k].ending, dones[k].value, dones[k].error, dones[k].logs))
    decreases k
  {
    hide Sent, Sendable, NextAnswer;
    OwnAnswerIsTaken(dones[0], SentAll(dones[1..]));
    if k > 0 {
      AnswersStayInStep(dones[1..], k - 1);
    }
  }
}
