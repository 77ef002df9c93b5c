/** The encoder and decoder as they run: an output buffer that grows, and a cursor that advances. */
module WireBuffers {
  import opened Wrappers
  import opened Bytes
  import opened Wire
  import opened Messages

  class Out {
    var bytes: seq<byte>

    constructor ()
      ensures bytes == []
    {
      bytes := [];
    }

    method U8(v: byte)
      modifies this
      ensures bytes == old(bytes) + [v]
    {
      bytes := bytes + [v];
    }

    method U64(v: u64)
      modifies this
      ensures bytes == old(bytes) + U64Bytes(v)
    {
      bytes := bytes + U64Bytes(v);
    }

    method Bytes(s: seq<byte>)
      requires |s| < U64_LIMIT
      modifies this
      ensures bytes == old(bytes) + PutBytes(s)
    {
      U64(|s|);
      bytes := bytes + s;
    }

    method Key(k: Key)
      requires KeyFits(k)
      modifies this
      ensures bytes == old(bytes) + PutKey(k)
    {
      match k {
        case IntKey(i) =>
          U8(T_INT);
          U64(Unsigned(i));
        case StrKey(s) =>
          U8(T_STR);
          Bytes(s);
      }
    }

    method Data(d: LuaData)
      requires WellFormed(d)
      modifies this
      ensures bytes == old(bytes) + PutData(d)
      decreases d
    {
      hide U64Bytes, PutBytes, PutItems, PutEntries;
      match d {
        case Nil => U8(T_NIL);
        case Bool(v) =>
          U8(T_BOOL);
          U8(BoolByte(v));
        case Int(i) =>
          U8(T_INT);
          U64(Unsigned(i));
        case Num(n) =>
          U8(T_NUM);
          U64(n);
        case Str(s) =>
          U8(T_STR);
          Bytes(s);
        case Table(items, entries) =>
          U8(T_TABLE);
          Items(items);
          Entries(entries);
          Append3(old(bytes), [T_TABLE], U64Bytes(|items|) + PutItems(items), U64Bytes(|entries|) + PutEntries(entries));
      }
    }

    method Items(items: seq<LuaData>)
      requires |items| < U64_LIMIT && AllWellFormed(items)
      modifies this
      ensures bytes == old(bytes) + (U64Bytes(|items|) + PutItems(items))
      decreases items
    {
      hide U64Bytes, PutData, WellFormed;
      U64(|items|);
      ghost var whole := bytes + PutItems(items);
      Append2(old(bytes), U64Bytes(|items|), PutItems(items));
      assert items[0..] == items;
      var k := 0;
      while k < |items|
        invariant k <= |items| && bytes + PutItems(items[k..]) == whole
      {
        ghost var before := bytes;
        Data(items[k]);
        Append2(before, PutData(items[k]), PutItems(items[k + 1..]));
        k := k + 1;
      }
      assert bytes == whole;
    }

    method Entries(entries: seq<Entry>)
      requires |entries| < U64_LIMIT && EntriesWellFormed(entries)
      modifies this
      ensures bytes == old(bytes) + (U64Bytes(|entries|) + PutEntries(entries))
      decreases entries
    {
      hide U64Bytes, PutEntry, WellFormed;
      U64(|entries|);
      ghost var whole := bytes + PutEntries(entries);
      Append2(old(bytes), U64Bytes(|entries|), PutEntries(entries));
      assert entries[0..] == entries;
      var k := 0;
      while k < |entries|
        invariant k <= |entries| && bytes + PutEntries(entries[k..]) == whole
      {
        ghost var before := bytes;
        Entry(entries[k]);
        Append2(before, PutEntry(entries[k]), PutEntries(entries[k + 1..]));
        k := k + 1;
      }
      assert bytes == whole;
    }

    method Entry(e: Entry)
      requires KeyFits(e.key) && WellFormed(e.value)
      modifies this
      ensures bytes == old(bytes) + PutEntry(e)
      decreases e
    {
      hide PutKey, PutData;
      Key(e.key);
      Data(e.value);
      Append2(old(bytes), PutKey(e.key), PutData(e.value));
    }

    method Settings(s: Settings)
      modifies this
      ensures bytes == old(bytes) + PutSettings(s)
    {
      hide U64Bytes;
      U64(s.instructionLimit);
      U64(s.memoryMb);
      U64(s.maxArgDepth);
      U64(s.maxArgNodes);
      Append3(old(bytes) + U64Bytes(s.instructionLimit), U64Bytes(s.memoryMb), U64Bytes(s.maxArgDepth), U64Bytes(s.maxArgNodes));
      Append2(old(bytes), U64Bytes(s.instructionLimit), U64Bytes(s.memoryMb) + (U64Bytes(s.maxArgDepth) + U64Bytes(s.maxArgNodes)));
    }

    method MessageToWorker(m: ToWorker)
      requires ToWorkerFits(m)
      modifies this
      ensures bytes == old(bytes) + EncodeToWorker(m)
    {
      hide U64Bytes, PutBytes, PutSettings, PutData, WellFormed;
      match m {
        case Hello(settings, mudlib, game, salt) =>
          U8(M_HELLO);
          Settings(settings);
          Bytes(mudlib);
          Bytes(game);
          U64(salt);
          Append5(old(bytes), [M_HELLO], PutSettings(settings), PutBytes(mudlib), PutBytes(game), U64Bytes(salt));
        case Job(id, mod, func, args, deadlineMs) =>
          U8(M_JOB);
          U64(id);
          Bytes(mod);
          Bytes(func);
          Data(args);
          U64(deadlineMs);
          Append5(old(bytes) + [M_JOB], U64Bytes(id), PutBytes(mod), PutBytes(func), PutData(args), U64Bytes(deadlineMs));
          Append2(old(bytes), [M_JOB], U64Bytes(id) + (PutBytes(mod) + (PutBytes(func) + (PutData(args) + U64Bytes(deadlineMs)))));
        case Cancel(id) =>
          U8(M_CANCEL);
          U64(id);
      }
    }

    method MessageToServer(m: ToServer)
      requires ToServerFits(m)
      modifies this
      ensures bytes == old(bytes) + EncodeToServer(m)
    {
      hide U64Bytes, PutBytes, PutError, PutLogs, PutData, WellFormed, LogsFit;
      match m {
        case Ready => U8(M_READY);
        case Broken(why) =>
          U8(M_BROKEN);
          Bytes(why);
        case Done(id, ending, value, error, logs) =>
          U8(M_DONE);
          U64(id);
          U8(EndingCode(ending));
          Data(value);
          Error(error);
          Logs(logs);
          Append5(old(bytes) + [M_DONE], U64Bytes(id), [EndingCode(ending)], PutData(value), PutError(error), U64Bytes(|logs|) + PutLogs(logs));
          Append2(old(bytes), [M_DONE], PutDone(m));
      }
    }

    method Error(error: Option<Text>)
      requires error.Some? ==> TextFits(error.value)
      modifies this
      ensures bytes == old(bytes) + PutError(error)
    {
      match error {
        case Some(e) =>
          U8(1);
          Bytes(e);
        case None => U8(0);
      }
    }

    method Logs(logs: seq<Log>)
      requires |logs| < U64_LIMIT && LogsFit(logs)
      modifies this
      ensures bytes == old(bytes) + (U64Bytes(|logs|) + PutLogs(logs))
    {
      hide U64Bytes, PutBytes;
      U64(|logs|);
      ghost var whole := bytes + PutLogs(logs);
      Append2(old(bytes), U64Bytes(|logs|), PutLogs(logs));
      assert logs[0..] == logs;
      var k := 0;
      while k < |logs|
        invariant k <= |logs| && bytes + PutLogs(logs[k..]) == whole
      {
        ghost var before := bytes;
        Bytes(logs[k].level);
        Bytes(logs[k].message);
        Append2(before, PutBytes(logs[k].level), PutBytes(logs[k].message));
        Append2(before, PutLog(logs[k]), PutLogs(logs[k + 1..]));
        k := k + 1;
      }
      assert bytes == whole;
    }
  }

  /** What a reading method returns and where it leaves the cursor, against the reader's function. */
  ghost predicate Moved<T>(r: Result<T, DecodeError>, i: nat, spec: Decoded<T>) {
    match spec
    case Success((v, j)) => r == Success(v) && i == j
    case Failure(e) => r == Failure(e)
  }

  class Cursor {
    const b: seq<byte>
    var i: nat

    constructor (body: seq<byte>)
      ensures b == body && i == 0
    {
      b := body;
      i := 0;
    }

    method Take(n: nat) returns (r: Result<seq<byte>, DecodeError>)
      requires i <= |b|
      modifies this
      ensures Moved(r, i, Wire.Take(b, old(i), n)) && old(i) <= i <= |b|
    {
      var end := i + n;
      if end >= U64_LIMIT {
        return Failure(LengthOverflow);
      }
      if end > |b| {
        return Failure(Truncated);
      }
      var out := b[i..end];
      i := end;
      return Success(out);
    }

    method U8() returns (r: Result<byte, DecodeError>)
      requires i <= |b|
      modifies this
      ensures Moved(r, i, ReadU8(b, old(i))) && old(i) <= i <= |b|
    {
      var s :- Take(1);
      return Success(s[0]);
    }

    method U64() returns (r: Result<u64, DecodeError>)
      requires i <= |b|
      modifies this
      ensures Moved(r, i, ReadU64(b, old(i))) && old(i) <= i <= |b|
    {
      var s :- Take(8);
      return Success(U64Of(s));
    }

    method Bytes() returns (r: Result<seq<byte>, DecodeError>)
      requires i <= |b|
      modifies this
      ensures Moved(r, i, ReadBytes(b, old(i))) && old(i) <= i <= |b|
    {
      var n :- U64();
      r := Take(n);
    }

    method String() returns (r: Result<Text, DecodeError>)
      requires i <= |b|
      modifies this
      ensures Moved(r, i, ReadText(b, old(i))) && old(i) <= i <= |b|
    {
      var s :- Bytes();
      if !IsUtf8(s) {
        return Failure(NotUtf8);
      }
      return Success(s);
    }

    method Key() returns (r: Result<Key, DecodeError>)
      requires i <= |b|
      modifies this
      ensures Moved(r, i, ReadKey(b, old(i))) && old(i) <= i <= |b|
    {
      var tag :- U8();
      if tag == T_INT {
        var v :- U64();
        return Success(IntKey(Signed(v)));
      } else if tag == T_STR {
        var s :- Bytes();
        return Success(StrKey(s));
      }
      return Failure(BadKeyTag(tag));
    }

    method Data(depth: nat) returns (r: Result<LuaData, DecodeError>)
      requires i <= |b|
      modifies this
      ensures Moved(r, i, ReadData(b, old(i), depth)) && old(i) <= i <= |b|
      decreases |b| - i, 2
    {
      if depth > MAX_DEPTH {
        return Failure(TooDeep);
      }
      var tag :- U8();
      if tag == T_NIL {
        return Success(Nil);
      } else if tag == T_BOOL {
        var v :- U8();
        return Success(Bool(v != 0));
      } else if tag == T_INT {
        var v :- U64();
        return Success(Int(Signed(v)));
      } else if tag == T_NUM {
        var v :- U64();
        return Success(Num(v));
      } else if tag == T_STR {
        var s :- Bytes();
        return Success(Str(s));
      } else if tag == T_TABLE {
        r := Table(depth);
      } else {
        return Failure(BadValueTag(tag));
      }
    }

    method Table(depth: nat) returns (r: Result<LuaData, DecodeError>)
      requires i <= |b|
      modifies this
      ensures Moved(r, i, ReadTable(b, old(i), depth)) && old(i) <= i <= |b|
      decreases |b| - i, 1
    {
      var items :- Items(depth + 1);
      var entries :- Entries(depth + 1);
      return Success(LuaData.Table(items, entries));
    }

    method Items(depth: nat) returns (r: Result<seq<LuaData>, DecodeError>)
      requires i <= |b|
      modifies this
      ensures ReadU64(b, old(i)).Failure? ==> r == Failure(ReadU64(b, old(i)).error)
      ensures ReadU64(b, old(i)).Success? ==> var (n, j) := ReadU64(b, old(i)).value; Moved(r, i, ReadItems(b, j, depth, n, []))
      ensures old(i) <= i <= |b|
      decreases |b| - i, 0
    {
      hide ReadData;
      var n :- U64();
      var items := [];
      var k := 0;
      ghost var start := i;
      while k < n
        invariant k <= n && start <= i <= |b|
        invariant ReadItems(b, i, depth, n - k, items) == ReadItems(b, start, depth, n, [])
      {
        var v :- Data(depth);
        items := items + [v];
        k := k + 1;
      }
      return Success(items);
    }

    method Entries(depth: nat) returns (r: Result<seq<Entry>, DecodeError>)
      requires i <= |b|
      modifies this
      ensures ReadU64(b, old(i)).Failure? ==> r == Failure(ReadU64(b, old(i)).error)
      ensures ReadU64(b, old(i)).Success? ==> var (n, j) := ReadU64(b, old(i)).value; Moved(r, i, ReadEntries(b, j, depth, n, []))
      ensures old(i) <= i <= |b|
      decreases |b| - i, 0
    {
      hide ReadKey, ReadData, Insert;
      var n :- U64();
      var entries := [];
      var k := 0;
      ghost var start := i;
      while k < n
        invariant k <= n && start <= i <= |b|
        invariant ReadEntries(b, i, depth, n - k, entries) == ReadEntries(b, start, depth, n, [])
      {
        var key :- Key();
        var v :- Data(depth);
        entries := Insert(entries, key, v);
        k := k + 1;
      }
      return Success(entries);
    }

    method MessageToWorker() returns (r: Result<ToWorker, DecodeError>)
      requires i <= |b|
      modifies this
      ensures Moved(r, i, ReadToWorker(b, old(i))) && old(i) <= i <= |b|
    {
      var tag :- U8();
      if tag == M_HELLO {
        r := Hello();
      } else if tag == M_JOB {
        r := Job();
      } else if tag == M_CANCEL {
        var id :- U64();
        return Success(Cancel(id));
      } else {
        return Failure(BadMessageTag(tag));
      }
    }

    method Hello() returns (r: Result<ToWorker, DecodeError>)
      requires i <= |b|
      modifies this
      ensures Moved(r, i, ReadHello(b, old(i))) && old(i) <= i <= |b|
    {
      var limit :- U64();
      var memory :- U64();
      var depth :- U64();
      var nodes :- U64();
      var mudlib :- String();
      var game :- String();
      var salt :- U64();
      return Success(ToWorker.Hello(Settings(limit, memory, depth, nodes), mudlib, game, salt));
    }

    method Job() returns (r: Result<ToWorker, DecodeError>)
      requires i <= |b|
      modifies this
      ensures Moved(r, i, ReadJob(b, old(i))) && old(i) <= i <= |b|
    {
      var id :- U64();
      var mod :- String();
      var func :- String();
      var args :- Data(0);
      var deadlineMs :- U64();
      return Success(ToWorker.Job(id, mod, func, args, deadlineMs));
    }

    method MessageToServer() returns (r: Result<ToServer, DecodeError>)
      requires i <= |b|
      modifies this
      ensures Moved(r, i, ReadToServer(b, old(i))) && old(i) <= i <= |b|
    {
      var tag :- U8();
      if tag == M_READY {
        return Success(Ready);
      } else if tag == M_BROKEN {
        var why :- String();
        return Success(Broken(why));
      } else if tag == M_DONE {
        r := Done();
      } else {
        return Failure(BadMessageTag(tag));
      }
    }

    method Done() returns (r: Result<ToServer, DecodeError>)
      requires i <= |b|
      modifies this
      ensures Moved(r, i, ReadDone(b, old(i))) && old(i) <= i <= |b|
    {
      var id :- U64();
      var code :- U8();
      var ending :- EndingFrom(code);
      var value :- Data(0);
      var error :- Error();
      var logs :- Logs();
      return Success(ToServer.Done(id, ending, value, error, logs));
    }

    method Error() returns (r: Result<Option<Text>, DecodeError>)
      requires i <= |b|
      modifies this
      ensures Moved(r, i, ReadError(b, old(i))) && old(i) <= i <= |b|
    {
      var present :- U8();
      if present == 0 {
        return Success(None);
      }
      var e :- String();
      return Success(Some(e));
    }

    method Logs() returns (r: Result<seq<Log>, DecodeError>)
      requires i <= |b|
      modifies this
      ensures Moved(r, i, ReadAllLogs(b, old(i))) && old(i) <= i <= |b|
    {
      hide ReadText;
      var n :- U64();
      var logs := [];
      var k := 0;
      ghost var start := i;
      while k < n
        invariant k <= n && start <= i <= |b|
        invariant ReadLogs(b, i, n - k, logs) == ReadLogs(b, start, n, [])
      {
        var level :- String();
        var message :- String();
        logs := logs + [Log(level, message)];
        k := k + 1;
      }
      return Success(logs);
    }
  }
}
