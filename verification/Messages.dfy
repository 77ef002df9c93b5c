/** The messages between the server and a compute worker, and their encodings. */
module Messages {
  import opened Wrappers
  import opened Endings
  import opened Bytes
  import opened Wire
  import opened WireLimits

  datatype Settings = Settings(instructionLimit: u64, memoryMb: u64, maxArgDepth: u64, maxArgNodes: u64)

  datatype ToWorker =
    | Hello(settings: Settings, mudlib: Text, game: Text, salt: u64)
    | Job(id: u64, mod: Text, func: Text, args: LuaData, deadlineMs: u64)
    | Cancel(id: u64)

  datatype Log = Log(level: Text, message: Text)

  datatype ToServer =
    | Ready
    | Broken(why: Text)
    | Done(id: u64, ending: Ending, value: LuaData, error: Option<Text>, logs: seq<Log>)

  const M_HELLO: byte := 1
  const M_JOB: byte := 2
  const M_CANCEL: byte := 3
  const M_READY: byte := 0x81
  const M_BROKEN: byte := 0x82
  const M_DONE: byte := 0x83

  predicate TextFits(t: Text) {
    |t| < U64_LIMIT
  }

  predicate LogsFit(logs: seq<Log>) {
    forall i :: 0 <= i < |logs| ==> TextFits(logs[i].level) && TextFits(logs[i].message)
  }

  /** Every length of the message is a machine length. */
  ghost predicate ToWorkerFits(m: ToWorker) {
    match m
    case Hello(_, mudlib, game, _) => TextFits(mudlib) && TextFits(game)
    case Job(_, mod, func, args, _) => TextFits(mod) && TextFits(func) && WellFormed(args)
    case Cancel(_) => true
  }

  ghost predicate ToServerFits(m: ToServer) {
    match m
    case Ready => true
    case Broken(why) => TextFits(why)
    case Done(_, _, value, error, logs) =>
      WellFormed(value) && (error.Some? ==> TextFits(error.value)) && |logs| < U64_LIMIT && LogsFit(logs)
  }

  // ------------------------------------------------------------------- encoding

  function PutSettings(s: Settings): (r: seq<byte>)
    ensures |r| == 32
  {
    U64Bytes(s.instructionLimit) + (U64Bytes(s.memoryMb) + (U64Bytes(s.maxArgDepth) + U64Bytes(s.maxArgNodes)))
  }

  ghost function EncodeToWorker(m: ToWorker): seq<byte>
    requires ToWorkerFits(m)
  {
    match m
    case Hello(settings, mudlib, game, salt) =>
      [M_HELLO] + (PutSettings(settings) + (PutBytes(mudlib) + (PutBytes(game) + U64Bytes(salt))))
    case Job(id, mod, func, args, deadlineMs) =>
      [M_JOB] + (U64Bytes(id) + (PutBytes(mod) + (PutBytes(func) + (PutData(args) + U64Bytes(deadlineMs)))))
    case Cancel(id) => [M_CANCEL] + U64Bytes(id)
  }

  /** The wire's own numbering of the ways a job ends. */
  function EndingCode(e: Ending): byte {
    match e
    case Ok => 0
    case Error => 1
    case LoadError => 2
    case Timeout => 3
    case Cancelled => 4
    case Budget => 5
    case Refused => 6
  }

  function EndingFrom(code: byte): Result<Ending, DecodeError> {
    if code == 0 then Success(Ending.Ok)
    else if code == 1 then Success(Ending.Error)
    else if code == 2 then Success(LoadError)
    else if code == 3 then Success(Timeout)
    else if code == 4 then Success(Cancelled)
    else if code == 5 then Success(Budget)
    else if code == 6 then Success(Refused)
    else Failure(BadEnding(code))
  }

  /** Each way has one code and each code at most one way. */
  lemma EndingCodes(e: Ending, code: byte)
    ensures EndingFrom(code) == Success(e) <==> code == EndingCode(e)
  {
  }

  function PutError(error: Option<Text>): seq<byte>
    requires error.Some? ==> TextFits(error.value)
  {
    match error
    case None => [0]
    case Some(e) => [1] + PutBytes(e)
  }

  function PutLog(l: Log): seq<byte>
    requires TextFits(l.level) && TextFits(l.message)
  {
    PutBytes(l.level) + PutBytes(l.message)
  }

  function PutLogs(logs: seq<Log>): seq<byte>
    requires LogsFit(logs)
  {
    if logs == [] then [] else PutLog(logs[0]) + PutLogs(logs[1..])
  }

  ghost function PutDone(m: ToServer): seq<byte>
    requires m.Done? && ToServerFits(m)
  {
    U64Bytes(m.id) + ([EndingCode(m.ending)] +
                      (PutData(m.value) + (PutError(m.error) + (U64Bytes(|m.logs|) + PutLogs(m.logs)))))
  }

  ghost function EncodeToServer(m: ToServer): seq<byte>
    requires ToServerFits(m)
  {
    match m
    case Ready => [M_READY]
    case Broken(why) => [M_BROKEN] + PutBytes(why)
    case Done(_, _, _, _, _) => [M_DONE] + PutDone(m)
  }

  // ------------------------------------------------------------------- decoding

  function ReadSettings(b: seq<byte>, i: nat): (r: Decoded<Settings>)
    ensures r.Success? ==> i < r.value.1 <= |b|
  {
    var (limit, j) :- ReadU64(b, i);
    var (memory, k) :- ReadU64(b, j);
    var (depth, l) :- ReadU64(b, k);
    var (nodes, p) :- ReadU64(b, l);
    Success((Settings(limit, memory, depth, nodes), p))
  }

  function ReadHello(b: seq<byte>, i: nat): (r: Decoded<ToWorker>)
    ensures r.Success? ==> i < r.value.1 <= |b|
  {
    var (settings, j) :- ReadSettings(b, i);
    var (mudlib, k) :- ReadText(b, j);
    var (game, l) :- ReadText(b, k);
    var (salt, p) :- ReadU64(b, l);
    Success((Hello(settings, mudlib, game, salt), p))
  }

  function ReadJob(b: seq<byte>, i: nat): (r: Decoded<ToWorker>)
    ensures r.Success? ==> i < r.value.1 <= |b|
  {
    var (id, j) :- ReadU64(b, i);
    var (mod, k) :- ReadText(b, j);
    var (func, l) :- ReadText(b, k);
    var (args, p) :- ReadData(b, l, 0);
    var (deadlineMs, q) :- ReadU64(b, p);
    Success((Job(id, mod, func, args, deadlineMs), q))
  }

  function ReadToWorker(b: seq<byte>, i: nat): (r: Decoded<ToWorker>)
    ensures r.Success? ==> i < r.value.1 <= |b|
  {
    var (tag, j) :- ReadU8(b, i);
    if tag == M_HELLO then ReadHello(b, j)
    else if tag == M_JOB then ReadJob(b, j)
    else if tag == M_CANCEL then
      var (id, k) :- ReadU64(b, j);
      Success((Cancel(id), k))
    else Failure(BadMessageTag(tag))
  }

  /** The message at the start of a frame body; bytes after it are ignored. */
  function DecodeToWorker(body: seq<byte>): Result<ToWorker, DecodeError> {
    var (m, _) :- ReadToWorker(body, 0);
    Success(m)
  }

  function ReadError(b: seq<byte>, i: nat): (r: Decoded<Option<Text>>)
    ensures r.Success? ==> i < r.value.1 <= |b|
  {
    var (present, j) :- ReadU8(b, i);
    if present == 0 then Success((None, j))
    else
      var (e, k) :- ReadText(b, j);
      Success((Some(e), k))
  }

  function ReadLog(b: seq<byte>, i: nat): (r: Decoded<Log>)
    ensures r.Success? ==> i < r.value.1 <= |b|
  {
    var (level, j) :- ReadText(b, i);
    var (message, k) :- ReadText(b, j);
    Success((Log(level, message), k))
  }

  function ReadLogs(b: seq<byte>, i: nat, n: nat, acc: seq<Log>): (r: Decoded<seq<Log>>)
    requires i <= |b|
    ensures r.Success? ==> i <= r.value.1 <= |b|
    decreases n
  {
    if n == 0 then Success((acc, i))
    else
      var (l, j) :- ReadLog(b, i);
      ReadLogs(b, j, n - 1, acc + [l])
  }

  function ReadAllLogs(b: seq<byte>, i: nat): (r: Decoded<seq<Log>>)
    ensures r.Success? ==> i < r.value.1 <= |b|
  {
    var (n, j) :- ReadU64(b, i);
    ReadLogs(b, j, n, [])
  }

  function ReadEnding(b: seq<byte>, i: nat): (r: Decoded<Ending>)
    ensures r.Success? ==> i < r.value.1 <= |b|
  {
    var (code, j) :- ReadU8(b, i);
    var ending :- EndingFrom(code);
    Success((ending, j))
  }

  function ReadDone(b: seq<byte>, i: nat): (r: Decoded<ToServer>)
    ensures r.Success? ==> i < r.value.1 <= |b|
  {
    var (id, j) :- ReadU64(b, i);
    var (ending, k) :- ReadEnding(b, j);
    var (value, l) :- ReadData(b, k, 0);
    var (error, p) :- ReadError(b, l);
    var (logs, q) :- ReadAllLogs(b, p);
    Success((Done(id, ending, value, error, logs), q))
  }

  function ReadToServer(b: seq<byte>, i: nat): (r: Decoded<ToServer>)
    ensures r.Success? ==> i < r.value.1 <= |b|
  {
    var (tag, j) :- ReadU8(b, i);
    if tag == M_READY then Success((Ready, j))
    else if tag == M_BROKEN then
      var (why, k) :- ReadText(b, j);
      Success((Broken(why), k))
    else if tag == M_DONE then ReadDone(b, j)
    else Failure(BadMessageTag(tag))
  }

  function DecodeToServer(body: seq<byte>): Result<ToServer, DecodeError> {
    var (m, _) :- ReadToServer(body, 0);
    Success(m)
  }

  // ------------------------------------------------------------------ round trip

  lemma ReadTextAt(b: seq<byte>, i: nat, t: Text)
    requires TextFits(t) && At(b, i, PutBytes(t)) && |b| < U64_LIMIT
    ensures ReadText(b, i) == Success((t, i + 8 + |t|))
  {
    ReadBytesAt(b, i, t);
  }

  lemma ReadSettingsAt(b: seq<byte>, i: nat, s: Settings)
    requires At(b, i, PutSettings(s)) && |b| < U64_LIMIT
    ensures ReadSettings(b, i) == Success((s, i + 32))
  {
    var j, k, l :=
      AtFour(b, i, U64Bytes(s.instructionLimit), U64Bytes(s.memoryMb), U64Bytes(s.maxArgDepth), U64Bytes(s.maxArgNodes));
    ReadU64At(b, i, s.instructionLimit);
    ReadU64At(b, j, s.memoryMb);
    ReadU64At(b, k, s.maxArgDepth);
    ReadU64At(b, l, s.maxArgNodes);
  }

  lemma HelloParts(b: seq<byte>, i: nat, m: ToWorker) returns (j: nat, k: nat, l: nat)
    requires m.Hello? && ToWorkerFits(m) && |b| < U64_LIMIT
    requires At(b, i, PutSettings(m.settings) + (PutBytes(m.mudlib) + (PutBytes(m.game) + U64Bytes(m.salt))))
    ensures l == i + 48 + |m.mudlib| + |m.game|
    ensures ReadSettings(b, i) == Success((m.settings, j)) && ReadText(b, j) == Success((m.mudlib, k))
    ensures ReadText(b, k) == Success((m.game, l)) && ReadU64(b, l) == Success((m.salt, l + 8))
  {
    hide At, ReadU64, ReadSettings, ReadText, U64Bytes, PutSettings;
    j, k, l := AtFour(b, i, PutSettings(m.settings), PutBytes(m.mudlib), PutBytes(m.game), U64Bytes(m.salt));
    ReadSettingsAt(b, i, m.settings);
    ReadTextAt(b, j, m.mudlib);
    ReadTextAt(b, k, m.game);
    ReadU64At(b, l, m.salt);
  }

  lemma ReadHelloAt(b: seq<byte>, i: nat, m: ToWorker)
    requires m.Hello? && ToWorkerFits(m) && At(b, i, EncodeToWorker(m)) && |b| < U64_LIMIT
    ensures ReadToWorker(b, i) == Success((m, i + |EncodeToWorker(m)|))
  {
    hide At, ReadU64, ReadText, ReadSettings, PutSettings;
    var rest := PutSettings(m.settings) + (PutBytes(m.mudlib) + (PutBytes(m.game) + U64Bytes(m.salt)));
    var j := AtSplit(b, i, [M_HELLO], rest);
    ReadU8At(b, i, M_HELLO);
    var _, _, l := HelloParts(b, j, m);
    assert l + 8 == j + |rest|;
  }

  lemma JobParts(b: seq<byte>, i: nat, m: ToWorker) returns (j: nat, k: nat, l: nat, p: nat)
    requires m.Job? && ToWorkerFits(m) && |b| < U64_LIMIT
    requires At(b, i, U64Bytes(m.id) + (PutBytes(m.mod) + (PutBytes(m.func) + (PutData(m.args) + U64Bytes(m.deadlineMs)))))
    ensures p == i + 24 + |m.mod| + |m.func| + |PutData(m.args)|
    ensures ReadU64(b, i) == Success((m.id, j)) && ReadText(b, j) == Success((m.mod, k))
    ensures ReadText(b, k) == Success((m.func, l)) && ReadData(b, l, 0) == Found(m.args, p, 0, Height(m.args))
    ensures ReadU64(b, p) == Success((m.deadlineMs, p + 8))
  {
    hide At, ReadU64, ReadText, ReadData, PutData, U64Bytes, Found, Height, WellFormed;
    var data, deadline := PutData(m.args), U64Bytes(m.deadlineMs);
    j, k, l := AtFour(b, i, U64Bytes(m.id), PutBytes(m.mod), PutBytes(m.func), data + deadline);
    p := AtSplit(b, l, data, deadline);
    ReadU64At(b, i, m.id);
    ReadTextAt(b, j, m.mod);
    ReadTextAt(b, k, m.func);
    ReadDataAt(b, l, m.args, 0);
    ReadU64At(b, p, m.deadlineMs);
  }

  lemma ReadJobAt(b: seq<byte>, i: nat, m: ToWorker)
    requires m.Job? && ToWorkerFits(m) && At(b, i, EncodeToWorker(m)) && |b| < U64_LIMIT
    ensures ReadToWorker(b, i) == Found(m, i + |EncodeToWorker(m)|, 0, Height(m.args))
  {
    hide At, ReadU64, ReadText, ReadData, PutData, WellFormed, U64Bytes, Height;
    var rest := U64Bytes(m.id) + (PutBytes(m.mod) + (PutBytes(m.func) + (PutData(m.args) + U64Bytes(m.deadlineMs))));
    var j := AtSplit(b, i, [M_JOB], rest);
    ReadU8At(b, i, M_JOB);
    var _, _, _, p := JobParts(b, j, m);
    assert p + 8 == j + |rest|;
  }

  /** How deep the Lua value in a message nests. */
  function ToWorkerHeight(m: ToWorker): nat {
    if m.Job? then Height(m.args) else 0
  }

  function ToServerHeight(m: ToServer): nat {
    if m.Done? then Height(m.value) else 0
  }

  lemma ReadToWorkerAt(b: seq<byte>, i: nat, m: ToWorker)
    requires ToWorkerFits(m) && At(b, i, EncodeToWorker(m)) && |b| < U64_LIMIT
    ensures ReadToWorker(b, i) == Found(m, i + |EncodeToWorker(m)|, 0, ToWorkerHeight(m))
  {
    if m.Hello? {
      ReadHelloAt(b, i, m);
    } else if m.Job? {
      ReadJobAt(b, i, m);
    } else {
      var j := AtSplit(b, i, [M_CANCEL], U64Bytes(m.id));
      ReadU8At(b, i, M_CANCEL);
      ReadU64At(b, j, m.id);
    }
  }

  lemma ReadErrorAt(b: seq<byte>, i: nat, error: Option<Text>) returns (e: nat)
    requires error.Some? ==> TextFits(error.value)
    requires At(b, i, PutError(error)) && |b| < U64_LIMIT
    ensures e == i + |PutError(error)| && ReadError(b, i) == Success((error, e))
  {
    match error
    case None =>
      ReadU8At(b, i, 0);
      e := i + 1;
    case Some(t) =>
      var j := AtSplit(b, i, [1], PutBytes(t));
      ReadU8At(b, i, 1);
      ReadTextAt(b, j, t);
      e := j + 8 + |t|;
  }

  lemma ReadLogAt(b: seq<byte>, i: nat, l: Log) returns (e: nat)
    requires TextFits(l.level) && TextFits(l.message) && At(b, i, PutLog(l)) && |b| < U64_LIMIT
    ensures e == i + |PutLog(l)| && ReadLog(b, i) == Success((l, e))
  {
    var j := AtSplit(b, i, PutBytes(l.level), PutBytes(l.message));
    ReadTextAt(b, i, l.level);
    ReadTextAt(b, j, l.message);
    e := j + 8 + |l.message|;
  }

  lemma {:induction false} ReadLogsAt(b: seq<byte>, i: nat, logs: seq<Log>, acc: seq<Log>) returns (e: nat)
    requires LogsFit(logs) && At(b, i, PutLogs(logs)) && |b| < U64_LIMIT
    ensures e == i + |PutLogs(logs)| && ReadLogs(b, i, |logs|, acc) == Success((acc + logs, e))
    decreases |logs|
  {
    hide At, ReadLog, PutLog;
    if logs == [] {
      assert acc + logs == acc;
      e := i;
    } else {
      var _ := AtSplit(b, i, PutLog(logs[0]), PutLogs(logs[1..]));
      var j := ReadLogAt(b, i, logs[0]);
      e := ReadLogsAt(b, j, logs[1..], acc + [logs[0]]);
      AppendNext(acc, logs);
    }
  }

  lemma ReadAllLogsAt(b: seq<byte>, i: nat, logs: seq<Log>) returns (e: nat)
    requires |logs| < U64_LIMIT && LogsFit(logs) && |b| < U64_LIMIT
    requires At(b, i, U64Bytes(|logs|) + PutLogs(logs))
    ensures e == i + 8 + |PutLogs(logs)| && ReadAllLogs(b, i) == Success((logs, e))
  {
    var j := AtSplit(b, i, U64Bytes(|logs|), PutLogs(logs));
    ReadU64At(b, i, |logs|);
    e := ReadLogsAt(b, j, logs, []);
    assert [] + logs == logs;
  }

  lemma ReadEndingAt(b: seq<byte>, i: nat, e: Ending)
    requires At(b, i, [EndingCode(e)]) && |b| < U64_LIMIT
    ensures ReadEnding(b, i) == Success((e, i + 1))
  {
    ReadU8At(b, i, EndingCode(e));
  }

  lemma DoneParts(b: seq<byte>, i: nat, m: ToServer) returns (j: nat, k: nat, l: nat, p: nat, q: nat)
    requires m.Done? && ToServerFits(m) && At(b, i, PutDone(m)) && |b| < U64_LIMIT
    ensures q == i + |PutDone(m)|
    ensures ReadU64(b, i) == Success((m.id, j)) && ReadEnding(b, j) == Success((m.ending, k))
    ensures ReadData(b, k, 0) == Found(m.value, l, 0, Height(m.value))
    ensures ReadError(b, l) == Success((m.error, p)) && ReadAllLogs(b, p) == Success((m.logs, q))
  {
    hide At, ReadU64, ReadEnding, ReadData, ReadError, ReadAllLogs, PutData, PutError, PutLogs, U64Bytes, Found, Height, WellFormed, LogsFit;
    var data, error, logs := PutData(m.value), PutError(m.error), U64Bytes(|m.logs|) + PutLogs(m.logs);
    j, k, l := AtFour(b, i, U64Bytes(m.id), [EndingCode(m.ending)], data, error + logs);
    var _ := AtSplit(b, l, error, logs);
    ReadU64At(b, i, m.id);
    ReadEndingAt(b, j, m.ending);
    ReadDataAt(b, k, m.value, 0);
    p := ReadErrorAt(b, l, m.error);
    q := ReadAllLogsAt(b, p, m.logs);
  }

  lemma ReadDoneAt(b: seq<byte>, i: nat, m: ToServer)
    requires m.Done? && ToServerFits(m) && At(b, i, EncodeToServer(m)) && |b| < U64_LIMIT
    ensures ReadToServer(b, i) == Found(m, i + |EncodeToServer(m)|, 0, Height(m.value))
  {
    hide At, ReadU64, ReadEnding, ReadData, ReadError, ReadAllLogs, PutDone, WellFormed;
    var j := AtSplit(b, i, [M_DONE], PutDone(m));
    ReadU8At(b, i, M_DONE);
    var _, _, _, _, _ := DoneParts(b, j, m);
  }

  lemma ReadToServerAt(b: seq<byte>, i: nat, m: ToServer)
    requires ToServerFits(m) && At(b, i, EncodeToServer(m)) && |b| < U64_LIMIT
    ensures ReadToServer(b, i) == Found(m, i + |EncodeToServer(m)|, 0, ToServerHeight(m))
  {
    if m.Ready? {
      ReadU8At(b, i, M_READY);
    } else if m.Broken? {
      var j := AtSplit(b, i, [M_BROKEN], PutBytes(m.why));
      ReadU8At(b, i, M_BROKEN);
      ReadTextAt(b, j, m.why);
    } else {
      ReadDoneAt(b, i, m);
    }
  }

  /** Decoding undoes encoding, whatever follows the message, exactly when its value is not too deep. */
  lemma ToWorkerRoundTrip(m: ToWorker, trailing: seq<byte>)
    requires ToWorkerFits(m) && |EncodeToWorker(m) + trailing| < U64_LIMIT
    ensures DecodeToWorker(EncodeToWorker(m) + trailing)
         == if ToWorkerHeight(m) <= MAX_DEPTH then Success(m) else Failure(TooDeep)
  {
    var e := EncodeToWorker(m);
    assert At(e + trailing, 0, e);
    ReadToWorkerAt(e + trailing, 0, m);
  }

  lemma ToServerRoundTrip(m: ToServer, trailing: seq<byte>)
    requires ToServerFits(m) && |EncodeToServer(m) + trailing| < U64_LIMIT
    ensures DecodeToServer(EncodeToServer(m) + trailing)
         == if ToServerHeight(m) <= MAX_DEPTH then Success(m) else Failure(TooDeep)
  {
    var e := EncodeToServer(m);
    assert At(e + trailing, 0, e);
    ReadToServerAt(e + trailing, 0, m);
  }

  // ------------------------------------------------------------ appended bytes

  lemma ReadHelloMore(b: seq<byte>, i: nat, more: seq<byte>)
    requires ReadHello(b, i).Success?
    ensures ReadHello(b + more, i) == ReadHello(b, i)
  {
    hide ReadU64, ReadText;
    ReadU64More(b, i, more);
    ReadU64More(b, i + 8, more);
    ReadU64More(b, i + 16, more);
    ReadU64More(b, i + 24, more);
    var (_, j) := ReadSettings(b, i).value;
    ReadTextMore(b, j, more);
    var (_, k) := ReadText(b, j).value;
    ReadTextMore(b, k, more);
    ReadU64More(b, ReadText(b, k).value.1, more);
  }

  lemma ReadJobMore(b: seq<byte>, i: nat, more: seq<byte>)
    requires ReadJob(b, i).Success?
    ensures ReadJob(b + more, i) == ReadJob(b, i)
  {
    hide ReadU64, ReadText, ReadData;
    ReadU64More(b, i, more);
    ReadTextMore(b, i + 8, more);
    var (_, k) := ReadText(b, i + 8).value;
    ReadTextMore(b, k, more);
    var (_, l) := ReadText(b, k).value;
    ReadDataMore(b, l, 0, more);
    ReadU64More(b, ReadData(b, l, 0).value.1, more);
  }

  /** A body that decodes still decodes to the same message when bytes are added behind it. */
  lemma ReadToWorkerMore(b: seq<byte>, i: nat, more: seq<byte>)
    requires ReadToWorker(b, i).Success?
    ensures ReadToWorker(b + more, i) == ReadToWorker(b, i)
  {
    ReadU8More(b, i, more);
    var (tag, j) := ReadU8(b, i).value;
    if tag == M_HELLO {
      ReadHelloMore(b, j, more);
    } else if tag == M_JOB {
      ReadJobMore(b, j, more);
    } else {
      ReadU64More(b, j, more);
    }
  }

  lemma ReadErrorMore(b: seq<byte>, i: nat, more: seq<byte>)
    requires ReadError(b, i).Success?
    ensures ReadError(b + more, i) == ReadError(b, i)
  {
    ReadU8More(b, i, more);
    if ReadU8(b, i).value.0 != 0 {
      ReadTextMore(b, i + 1, more);
    }
  }

  lemma {:induction false} ReadLogsMore(b: seq<byte>, i: nat, n: nat, acc: seq<Log>, more: seq<byte>)
    requires i <= |b| && ReadLogs(b, i, n, acc).Success?
    ensures ReadLogs(b + more, i, n, acc) == ReadLogs(b, i, n, acc)
    decreases n
  {
    hide ReadText;
    if n > 0 {
      ReadTextMore(b, i, more);
      ReadTextMore(b, ReadText(b, i).value.1, more);
      var (l, j) := ReadLog(b, i).value;
      ReadLogsMore(b, j, n - 1, acc + [l], more);
    }
  }

  lemma ReadDoneMore(b: seq<byte>, i: nat, more: seq<byte>)
    requires ReadDone(b, i).Success?
    ensures ReadDone(b + more, i) == ReadDone(b, i)
  {
    hide ReadU64, ReadU8, ReadData, ReadError, ReadLogs;
    ReadU64More(b, i, more);
    ReadU8More(b, i + 8, more);
    ReadDataMore(b, i + 9, 0, more);
    var (_, l) := ReadData(b, i + 9, 0).value;
    ReadErrorMore(b, l, more);
    var (_, p) := ReadError(b, l).value;
    ReadU64More(b, p, more);
    ReadLogsMore(b, p + 8, ReadU64(b, p).value.0, [], more);
  }

  lemma ReadToServerMore(b: seq<byte>, i: nat, more: seq<byte>)
    requires ReadToServer(b, i).Success?
    ensures ReadToServer(b + more, i) == ReadToServer(b, i)
  {
    ReadU8More(b, i, more);
    var (tag, j) := ReadU8(b, i).value;
    if tag == M_BROKEN {
      ReadTextMore(b, j, more);
    } else if tag == M_DONE {
      ReadDoneMore(b, j, more);
    }
  }

  /** A message cut short is never taken for a message. */
  lemma ToWorkerPrefixRefused(m: ToWorker, cut: nat)
    requires ToWorkerFits(m) && |EncodeToWorker(m)| < U64_LIMIT && cut < |EncodeToWorker(m)|
    ensures DecodeToWorker(EncodeToWorker(m)[..cut]).Failure?
  {
    var e := EncodeToWorker(m);
    assert At(e, 0, e);
    ReadToWorkerAt(e, 0, m);
    assert e[..cut] + e[cut..] == e;
    if ReadToWorker(e[..cut], 0).Success? {
      ReadToWorkerMore(e[..cut], 0, e[cut..]);
    }
  }

  lemma ToServerPrefixRefused(m: ToServer, cut: nat)
    requires ToServerFits(m) && |EncodeToServer(m)| < U64_LIMIT && cut < |EncodeToServer(m)|
    ensures DecodeToServer(EncodeToServer(m)[..cut]).Failure?
  {
    var e := EncodeToServer(m);
    assert At(e, 0, e);
    ReadToServerAt(e, 0, m);
    assert e[..cut] + e[cut..] == e;
    if ReadToServer(e[..cut], 0).Success? {
      ReadToServerMore(e[..cut], 0, e[cut..]);
    }
  }

  /** Two messages whose encodings start a common body are the same message. */
  lemma OneMessagePerBody(m: ToWorker, n: ToWorker, x: seq<byte>, y: seq<byte>)
    requires ToWorkerFits(m) && ToWorkerFits(n)
    requires ToWorkerHeight(m) <= MAX_DEPTH && ToWorkerHeight(n) <= MAX_DEPTH
    requires EncodeToWorker(m) + x == EncodeToWorker(n) + y && |EncodeToWorker(m) + x| < U64_LIMIT
    ensures m == n && x == y
  {
    ghost var whole := EncodeToWorker(m) + x;
    ToWorkerRoundTrip(m, x);
    ToWorkerRoundTrip(n, y);
    assert m == n;
    assert x == whole[|EncodeToWorker(m)|..] == y;
  }

  /** Whatever the body: a decoded job carries a bounded value, no larger than the body. */
  lemma DecodedIsBounded(body: seq<byte>)
    ensures DecodeToWorker(body).Success? && DecodeToWorker(body).value.Job? ==>
              Bounded(DecodeToWorker(body).value.args, 0, |body|)
    ensures DecodeToServer(body).Success? && DecodeToServer(body).value.Done? ==>
              Bounded(DecodeToServer(body).value.value, 0, |body|)
  {
    if DecodeToWorker(body).Success? && DecodeToWorker(body).value.Job? {
      var (_, k) := ReadText(body, 9).value;
      ReadDataBounded(body, ReadText(body, k).value.1, 0);
    }
    if DecodeToServer(body).Success? && DecodeToServer(body).value.Done? {
      ReadDataBounded(body, 10, 0);
    }
  }
}
