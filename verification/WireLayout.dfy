/** The bytes themselves: what a number, a value and each message look like on the wire, and which tags are refused. */
module WireLayout {
  import opened Wrappers
  import opened Endings
  import opened Bytes
  import opened Wire
  import opened Messages

  /** Byte `k` of a number is its `k`-th digit to the base 256. */
  lemma {:induction false} LittleEndianDigit(v: nat, n: nat, k: nat)
    requires k < n
    ensures ToLittleEndian(v, n)[k] == v / Power256(k) % 256
    decreases n
  {
    if k > 0 {
      LittleEndianDigit(v / 256, n - 1, k - 1);
      DivideTwice(v, Power256(k - 1));
    }
  }

  lemma DivideTwice(v: nat, p: nat)
    requires p >= 1
    ensures v / 256 / p == v / (256 * p)
  {
    var q := v / 256 / p;
    var r := v / 256 % p;
    assert v / 256 == q * p + r;
    assert v == 256 * (q * p + r) + v % 256;
    assert 256 * (q * p) == (256 * p) * q;
    QuotientIs(v, 256 * p, q, 256 * r + v % 256);
  }

  lemma QuotientIs(v: nat, d: nat, q: nat, r: nat)
    requires d >= 1 && r < d && v == d * q + r
    ensures v / d == q
  {
    var e := v / d - q;
    assert v == d * (v / d) + v % d;
    assert d * e == d * (v / d) - d * q;
    ProductIsLarge(d, e);
  }

  lemma ProductIsLarge(d: int, e: int)
    requires d >= 1
    ensures e >= 1 ==> d * e >= d
    ensures e <= -1 ==> d * e <= -d
  {
    if e >= 1 {
      assert d * e == d * (e - 1) + d;
    } else if e <= -1 {
      assert d * e == -(d * (-e - 1)) - d;
    }
  }

  /** A signed number is sent as the unsigned one it equals modulo 2^64. */
  lemma TwosComplement(i: i64)
    ensures (Unsigned(i) - i) % U64_LIMIT == 0
  {
  }

  /** `a` and `b` are alike up to `k`, and there `a` ends or has the smaller byte. */
  predicate LessAt(a: seq<byte>, b: seq<byte>, k: nat) {
    k <= |a| && k < |b| && a[..k] == b[..k] && (k == |a| || a[k] < b[k])
  }

  lemma {:induction false} LessHasAPlace(a: seq<byte>, b: seq<byte>) returns (k: nat)
    requires BytesLess(a, b)
    ensures LessAt(a, b, k)
    decreases |a|
  {
    if a == [] || a[0] < b[0] {
      k := 0;
    } else {
      k := LessHasAPlace(a[1..], b[1..]);
      assert a[..k + 1] == [a[0]] + a[1..][..k] && b[..k + 1] == [b[0]] + b[1..][..k];
      k := k + 1;
    }
  }

  lemma {:induction false} PlaceIsLess(a: seq<byte>, b: seq<byte>, k: nat)
    requires LessAt(a, b, k)
    ensures BytesLess(a, b)
    decreases k
  {
    if k > 0 {
      assert a[0] == a[..k][0] && b[0] == b[..k][0];
      assert a[1..][..k - 1] == a[..k][1..] && b[1..][..k - 1] == b[..k][1..];
      PlaceIsLess(a[1..], b[1..], k - 1);
    }
  }

  /** Strings are ordered by the first byte in which they differ, and a string before its continuations. */
  lemma OrderedByFirstDifference(a: seq<byte>, b: seq<byte>)
    ensures BytesLess(a, b) <==> exists k: nat :: LessAt(a, b, k)
  {
    if BytesLess(a, b) {
      var k := LessHasAPlace(a, b);
    }
    if k: nat :| LessAt(a, b, k) {
      PlaceIsLess(a, b, k);
    }
  }

  /** Keys: all integers, by size, before all strings, by their bytes. */
  lemma KeysInOrder(i: i64, j: i64, s: seq<byte>, t: seq<byte>)
    ensures KeyLess(IntKey(i), IntKey(j)) <==> i < j
    ensures KeyLess(IntKey(i), StrKey(s)) && !KeyLess(StrKey(s), IntKey(i))
    ensures KeyLess(StrKey(s), StrKey(t)) <==> exists k: nat :: LessAt(s, t, k)
  {
    OrderedByFirstDifference(s, t);
  }

  // ------------------------------------------------------------------- layout

  /** A small number is its byte and seven zeroes; -1 is eight full bytes. */
  lemma SampleNumbers(v: u64)
    ensures v < 256 ==> U64Bytes(v) == [v, 0, 0, 0, 0, 0, 0, 0]
    ensures U64Bytes(Unsigned(-1)) == [255, 255, 255, 255, 255, 255, 255, 255]
  {
    SmallNumber(v);
    MinusOne();
  }

  lemma SmallNumber(v: u64)
    ensures v < 256 ==> U64Bytes(v) == [v, 0, 0, 0, 0, 0, 0, 0]
  {
    assert ToLittleEndian(0, 3) == [0, 0, 0];
    assert ToLittleEndian(0, 7) == [0, 0, 0, 0, 0, 0, 0];
  }

  lemma MinusOne()
    ensures U64Bytes(Unsigned(-1)) == [255, 255, 255, 255, 255, 255, 255, 255]
  {
    assert ToLittleEndian(0xFFFF_FFFF, 4) == [255, 255, 255, 255];
    assert ToLittleEndian(0xFFFF_FFFF_FFFF_FFFF, 8) == [255, 255, 255, 255] + ToLittleEndian(0xFFFF_FFFF, 4);
  }

  /** Scalars: a tag byte and the value; strings with their length first. */
  lemma ScalarLayout(b: bool, i: i64, n: u64, s: seq<byte>)
    requires |s| < U64_LIMIT
    ensures PutData(Nil) == [0]
    ensures PutData(Bool(b)) == [1, if b then 1 else 0]
    ensures PutData(Int(i)) == [2] + U64Bytes(Unsigned(i))
    ensures PutData(Num(n)) == [3] + U64Bytes(n)
    ensures PutData(Str(s)) == [4] + U64Bytes(|s|) + s
  {
    assert [4] + (U64Bytes(|s|) + s) == [4] + U64Bytes(|s|) + s;
  }

  /** Keys: a tag as for the value they are, and that value. */
  lemma KeyLayout(k: Key)
    requires KeyFits(k)
    ensures PutKey(k) == if k.IntKey? then [2] + U64Bytes(Unsigned(k.i)) else [4] + U64Bytes(|k.s|) + k.s
  {
    hide U64Bytes;
    if k.StrKey? {
      assert [4] + (U64Bytes(|k.s|) + k.s) == [4] + U64Bytes(|k.s|) + k.s;
    }
  }

  /** Tables: a tag, the number of items, the items; the number of entries, the entries. */
  lemma TableLayout(items: seq<LuaData>, entries: seq<Entry>)
    requires WellFormed(Table(items, entries))
    ensures PutData(Table(items, entries)) == [5] + U64Bytes(|items|) + PutItems(items) + (U64Bytes(|entries|) + PutEntries(entries))
  {
    hide U64Bytes, PutItems, PutEntries;
    Flat([5], U64Bytes(|items|), PutItems(items), U64Bytes(|entries|) + PutEntries(entries));
  }

  /** The bytes of items one behind the other are those of each one behind the other. */
  lemma {:induction false} ItemsInARow(a: seq<LuaData>, x: LuaData, b: seq<LuaData>)
    requires AllWellFormed(a + [x] + b) && AllWellFormed(a) && AllWellFormed(b) && WellFormed(x)
    ensures PutItems(a + [x] + b) == PutItems(a) + PutData(x) + PutItems(b)
    decreases |a|
  {
    hide PutData;
    var all := a + [x] + b;
    if a == [] {
      assert all[0] == x && all[1..] == b;
    } else {
      assert all[0] == a[0] && all[1..] == a[1..] + [x] + b;
      ItemsInARow(a[1..], x, b);
    }
  }

  /** So are those of entries, each its key and then its value. */
  lemma {:induction false} EntriesInARow(a: seq<Entry>, e: Entry, b: seq<Entry>)
    requires EntriesWellFormed(a + [e] + b) && EntriesWellFormed(a) && EntriesWellFormed(b) && EntriesWellFormed([e])
    ensures KeyFits(e.key) && WellFormed(e.value)
    ensures PutEntries(a + [e] + b) == PutEntries(a) + (PutKey(e.key) + PutData(e.value)) + PutEntries(b)
    decreases |a|
  {
    hide PutData, PutKey;
    var all := a + [e] + b;
    assert [e][0] == e;
    if a == [] {
      assert all[0] == e && all[1..] == b;
    } else {
      assert all[0] == a[0] && all[1..] == a[1..] + [e] + b;
      EntriesInARow(a[1..], e, b);
    }
  }

  lemma Flat(a: seq<byte>, b: seq<byte>, c: seq<byte>, d: seq<byte>)
    ensures a + ((b + c) + d) == a + b + c + d
    ensures a + (b + (c + d)) == a + b + c + d
  {
  }

  /** Messages to the worker: tag, then the fields in order; texts with their length first. */
  lemma ToWorkerLayout(id: u64, mod: Text, func: Text, args: LuaData, ms: u64)
    requires TextFits(mod) && TextFits(func) && WellFormed(args)
    ensures EncodeToWorker(Cancel(id)) == [3] + U64Bytes(id)
    ensures EncodeToWorker(Job(id, mod, func, args, ms))
         == [2] + U64Bytes(id) + (U64Bytes(|mod|) + mod) + ((U64Bytes(|func|) + func) + PutData(args) + U64Bytes(ms))
    ensures EncodeToWorker(Hello(Settings(1, 2, 3, 4), mod, func, id))
         == [1] + (U64Bytes(1) + (U64Bytes(2) + (U64Bytes(3) + U64Bytes(4)))) + (U64Bytes(|mod|) + mod)
            + ((U64Bytes(|func|) + func) + U64Bytes(id))
  {
    hide U64Bytes, PutData;
    Flat([2], U64Bytes(id), PutBytes(mod), PutBytes(func) + (PutData(args) + U64Bytes(ms)));
    assert PutBytes(func) + (PutData(args) + U64Bytes(ms)) == PutBytes(func) + PutData(args) + U64Bytes(ms);
    var settings := PutSettings(Settings(1, 2, 3, 4));
    assert [1] + (settings + (PutBytes(mod) + (PutBytes(func) + U64Bytes(id))))
        == [1] + settings + PutBytes(mod) + (PutBytes(func) + U64Bytes(id));
  }

  /** Messages to the server but for answers. */
  lemma ToServerLayout(error: Text)
    requires TextFits(error)
    ensures EncodeToServer(Ready) == [0x81] && EncodeToServer(Broken(error)) == [0x82] + (U64Bytes(|error|) + error)
  {
  }

  /** An answer: its id, its ending as one byte, its value, its error behind a flag, its logs behind their number. */
  lemma AnswerLayout(id: u64, ending: Ending, value: LuaData, error: Option<Text>, logs: seq<Log>)
    requires ToServerFits(ToServer.Done(id, ending, value, error, logs))
    ensures EncodeToServer(ToServer.Done(id, ending, value, error, logs))
         == [0x83] + U64Bytes(id) + [EndingCode(ending)]
            + (PutData(value) + ((if error.Some? then [1] + (U64Bytes(|error.value|) + error.value) else [0])
                                 + (U64Bytes(|logs|) + PutLogs(logs))))
  {
    hide U64Bytes, PutData, PutLogs;
    Flat([0x83], U64Bytes(id), [EndingCode(ending)], PutData(value) + (PutError(error) + (U64Bytes(|logs|) + PutLogs(logs))));
  }

  /** A log line: its level, then its message. */
  lemma LogLayout(log: Log, logs: seq<Log>)
    requires LogsFit([log] + logs) && LogsFit(logs) && TextFits(log.level) && TextFits(log.message)
    ensures PutLogs([]) == [] && PutLogs([log] + logs) == PutBytes(log.level) + PutBytes(log.message) + PutLogs(logs)
  {
    assert ([log] + logs)[1..] == logs;
  }

  /** The endings, by number: ok, error, load error, timeout, cancelled, budget, refused. */
  lemma EndingNumbers()
    ensures forall k :: 0 <= k < 7 ==>
                          EndingFrom(k) == Success([Ending.Ok, Ending.Error, LoadError, Timeout, Cancelled, Budget, Refused][k])
  {
  }

  /** A body that begins with no tag of a message is refused for that tag, and an empty one as cut short. */
  lemma UnknownTags(t: byte, rest: seq<byte>)
    ensures t !in {1, 2, 3} ==> DecodeToWorker([t] + rest) == Failure(BadMessageTag(t))
    ensures t !in {0x81, 0x82, 0x83} ==> DecodeToServer([t] + rest) == Failure(BadMessageTag(t))
    ensures DecodeToWorker([]) == Failure(DecodeError.Truncated) && DecodeToServer([]) == Failure(DecodeError.Truncated)
  {
  }

  /** A value or a key with an unknown tag is refused for it, and a value nested too deep for that; a boolean is any byte, true unless zero. */
  lemma UnknownValues(t: byte, rest: seq<byte>, x: byte, depth: nat)
    ensures depth <= MAX_DEPTH && t > 5 ==> ReadData([t] + rest, 0, depth) == Failure(BadValueTag(t))
    ensures depth <= MAX_DEPTH ==> ReadData([1, x] + rest, 0, depth) == Success((Bool(x != 0), 2))
    ensures depth > MAX_DEPTH ==> ReadData([t] + rest, 0, depth) == Failure(DecodeError.TooDeep)
    ensures t !in {2, 4} ==> ReadKey([t] + rest, 0) == Failure(BadKeyTag(t))
  {
  }
}
