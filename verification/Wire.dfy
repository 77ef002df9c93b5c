/**
 The bytes between the server and a compute worker: what is written, and what a reader makes of
 any bytes at all. A reader is a function of the bytes and of where its cursor stands; on success
 it also says where the cursor stands afterwards.
 */
module Wire {
  import opened Wrappers
  import opened Bytes

  datatype Key = IntKey(i: i64) | StrKey(s: seq<byte>)

  /** A floating-point number is its 64-bit pattern. The entries of a table are in key order. */
  datatype LuaData =
    | Nil
    | Bool(b: bool)
    | Int(i: i64)
    | Num(bits: u64)
    | Str(s: seq<byte>)
    | Table(items: seq<LuaData>, entries: seq<Entry>)

  datatype Entry = Entry(key: Key, value: LuaData)

  datatype DecodeError =
    | LengthOverflow
    | Truncated
    | NotUtf8
    | TooDeep
    | BadValueTag(tag: byte)
    | BadKeyTag(tag: byte)
    | BadMessageTag(tag: byte)
    | BadEnding(code: byte)

  type Decoded<T> = Result<(T, nat), DecodeError>

  const MAX_DEPTH: nat := 256
  const T_NIL: byte := 0
  const T_BOOL: byte := 1
  const T_INT: byte := 2
  const T_NUM: byte := 3
  const T_STR: byte := 4
  const T_TABLE: byte := 5

  // ------------------------------------------------------------ ordered entries

  predicate BytesLess(a: seq<byte>, b: seq<byte>) {
    b != [] && (a == [] || a[0] < b[0] || (a[0] == b[0] && BytesLess(a[1..], b[1..])))
  }

  /** Integer keys before string keys, each kind in its own order. */
  predicate KeyLess(a: Key, b: Key) {
    match (a, b)
    case (IntKey(i), IntKey(j)) => i < j
    case (IntKey(_), StrKey(_)) => true
    case (StrKey(_), IntKey(_)) => false
    case (StrKey(s), StrKey(t)) => BytesLess(s, t)
  }

  lemma {:induction false} BytesOrder(a: seq<byte>, b: seq<byte>)
    ensures BytesLess(a, b) ==> a != b && !BytesLess(b, a)
    ensures BytesLess(a, b) || a == b || BytesLess(b, a)
    decreases |a|
  {
    if a != [] && b != [] && a[0] == b[0] {
      BytesOrder(a[1..], b[1..]);
      assert a == [a[0]] + a[1..] && b == [b[0]] + b[1..];
    }
  }

  lemma {:induction false} BytesTransitive(a: seq<byte>, b: seq<byte>, c: seq<byte>)
    requires BytesLess(a, b) && BytesLess(b, c)
    ensures BytesLess(a, c)
    decreases |a|
  {
    if a != [] && a[0] == b[0] && b[0] == c[0] {
      BytesTransitive(a[1..], b[1..], c[1..]);
    }
  }

  lemma KeyOrder(a: Key, b: Key)
    ensures KeyLess(a, b) ==> a != b && !KeyLess(b, a)
    ensures KeyLess(a, b) || a == b || KeyLess(b, a)
  {
    if a.StrKey? && b.StrKey? {
      BytesOrder(a.s, b.s);
    }
  }

  lemma KeyTransitive(a: Key, b: Key, c: Key)
    requires KeyLess(a, b) && KeyLess(b, c)
    ensures KeyLess(a, c)
  {
    if a.StrKey? && b.StrKey? && c.StrKey? {
      BytesTransitive(a.s, b.s, c.s);
    }
  }

  ghost predicate Sorted(es: seq<Entry>) {
    forall i, j :: 0 <= i < j < |es| ==> KeyLess(es[i].key, es[j].key)
  }

  /** Insertion into an ordered map: a key that is already there gets the new value. */
  function Insert(es: seq<Entry>, k: Key, v: LuaData): seq<Entry> {
    if es == [] then [Entry(k, v)]
    else if KeyLess(k, es[0].key) then [Entry(k, v)] + es
    else if k == es[0].key then [Entry(k, v)] + es[1..]
    else [es[0]] + Insert(es[1..], k, v)
  }

  /** The value bound to a key. */
  function Get(es: seq<Entry>, k: Key): Option<LuaData> {
    if es == [] then None
    else if es[0].key == k then Some(es[0].value)
    else Get(es[1..], k)
  }

  /** Insertion changes the binding of that one key. */
  lemma {:induction false} InsertGet(es: seq<Entry>, k: Key, v: LuaData, x: Key)
    ensures Get(Insert(es, k, v), x) == if x == k then Some(v) else Get(es, x)
    decreases |es|
  {
    if es != [] {
      InsertGet(es[1..], k, v, x);
      KeyOrder(k, es[0].key);
      assert ([Entry(k, v)] + es)[1..] == es;
      assert ([Entry(k, v)] + es[1..])[1..] == es[1..];
      assert ([es[0]] + Insert(es[1..], k, v))[1..] == Insert(es[1..], k, v);
    }
  }

  ghost predicate Above(es: seq<Entry>, k: Key) {
    forall i :: 0 <= i < |es| ==> KeyLess(k, es[i].key)
  }

  /** Insertion keeps the order. */
  lemma {:induction false} InsertSorted(es: seq<Entry>, k: Key, v: LuaData)
    requires Sorted(es)
    ensures Sorted(Insert(es, k, v))
    ensures forall x :: KeyLess(x, k) && Above(es, x) ==> Above(Insert(es, k, v), x)
    ensures |Insert(es, k, v)| <= |es| + 1
    decreases |es|
  {
    if es != [] {
      KeyOrder(k, es[0].key);
      if KeyLess(k, es[0].key) {
        forall j | 0 <= j < |es| ensures KeyLess(k, es[j].key) {
          if j > 0 { KeyTransitive(k, es[0].key, es[j].key); }
        }
      } else if k != es[0].key {
        assert Above(es[1..], es[0].key);
        InsertSorted(es[1..], k, v);
      }
    }
  }

  /** A key above all others goes to the end. */
  lemma {:induction false} InsertLast(es: seq<Entry>, k: Key, v: LuaData)
    requires forall i :: 0 <= i < |es| ==> KeyLess(es[i].key, k)
    ensures Insert(es, k, v) == es + [Entry(k, v)]
    decreases |es|
  {
    if es != [] {
      KeyOrder(es[0].key, k);
      InsertLast(es[1..], k, v);
      assert es == [es[0]] + es[1..];
    }
  }

  // -------------------------------------------------------------- what is written

  function PutBytes(s: seq<byte>): seq<byte>
    requires |s| < U64_LIMIT
  {
    U64Bytes(|s|) + s
  }

  function PutKey(k: Key): seq<byte>
    requires KeyFits(k)
  {
    match k
    case IntKey(i) => [T_INT] + U64Bytes(Unsigned(i))
    case StrKey(s) => [T_STR] + PutBytes(s)
  }

  predicate KeyFits(k: Key) {
    k.StrKey? ==> |k.s| < U64_LIMIT
  }

  /** Lengths fit the machine and entries are in order, all the way down. */
  ghost predicate WellFormed(d: LuaData) {
    match d
    case Str(s) => |s| < U64_LIMIT
    case Table(items, entries) =>
      && |items| < U64_LIMIT && |entries| < U64_LIMIT && Sorted(entries)
      && (forall i :: 0 <= i < |items| ==> WellFormed(items[i]))
      && (forall i :: 0 <= i < |entries| ==> KeyFits(entries[i].key) && WellFormed(entries[i].value))
    case _ => true
  }

  ghost predicate AllWellFormed(items: seq<LuaData>) {
    forall i :: 0 <= i < |items| ==> WellFormed(items[i])
  }

  ghost predicate EntriesWellFormed(entries: seq<Entry>) {
    forall i :: 0 <= i < |entries| ==> KeyFits(entries[i].key) && WellFormed(entries[i].value)
  }

  ghost function PutData(d: LuaData): seq<byte>
    requires WellFormed(d)
    decreases d, 1
  {
    [TagOf(d)] + PutBody(d)
  }

  function TagOf(d: LuaData): byte {
    match d
    case Nil => T_NIL
    case Bool(_) => T_BOOL
    case Int(_) => T_INT
    case Num(_) => T_NUM
    case Str(_) => T_STR
    case Table(_, _) => T_TABLE
  }

  function BoolByte(v: bool): byte {
    if v then 1 else 0
  }

  /** A value after its tag. A table is a counted list of items, then a counted list of entries. */
  ghost function PutBody(d: LuaData): seq<byte>
    requires WellFormed(d)
    decreases d, 0
  {
    match d
    case Nil => []
    case Bool(v) => [BoolByte(v)]
    case Int(i) => U64Bytes(Unsigned(i))
    case Num(n) => U64Bytes(n)
    case Str(s) => PutBytes(s)
    case Table(items, entries) =>
      (U64Bytes(|items|) + PutItems(items)) + (U64Bytes(|entries|) + PutEntries(entries))
  }

  ghost function PutItems(items: seq<LuaData>): seq<byte>
    requires AllWellFormed(items)
    decreases items
  {
    if items == [] then [] else PutData(items[0]) + PutItems(items[1..])
  }

  ghost function PutEntries(entries: seq<Entry>): seq<byte>
    requires EntriesWellFormed(entries)
    decreases entries
  {
    if entries == [] then []
    else PutEntry(entries[0]) + PutEntries(entries[1..])
  }

  ghost function PutEntry(e: Entry): seq<byte>
    requires KeyFits(e.key) && WellFormed(e.value)
    decreases e
  {
    PutKey(e.key) + PutData(e.value)
  }

  // ----------------------------------------------------------------- what is read

  function Take(b: seq<byte>, i: nat, n: nat): (r: Decoded<seq<byte>>)
    ensures r.Success? ==> r.value.1 == i + n <= |b| && |r.value.0| == n
  {
    if i + n >= U64_LIMIT then Failure(LengthOverflow)
    else if i + n > |b| then Failure(Truncated)
    else Success((b[i..i + n], i + n))
  }

  function ReadU8(b: seq<byte>, i: nat): (r: Decoded<byte>)
    ensures r.Success? ==> r.value.1 == i + 1 <= |b|
  {
    var (s, j) :- Take(b, i, 1);
    Success((s[0], j))
  }

  function ReadU64(b: seq<byte>, i: nat): (r: Decoded<u64>)
    ensures r.Success? ==> r.value.1 == i + 8 <= |b|
  {
    var (s, j) :- Take(b, i, 8);
    Success((U64Of(s), j))
  }

  function ReadBytes(b: seq<byte>, i: nat): (r: Decoded<seq<byte>>)
    ensures r.Success? ==> i + 8 <= r.value.1 == i + 8 + |r.value.0| <= |b|
    ensures r.Success? ==> |r.value.0| < U64_LIMIT
  {
    var (n, j) :- ReadU64(b, i);
    Take(b, j, n)
  }

  function ReadText(b: seq<byte>, i: nat): (r: Decoded<Text>)
    ensures r.Success? ==> i + 8 <= r.value.1 == i + 8 + |r.value.0| <= |b|
  {
    var (s, j) :- ReadBytes(b, i);
    if IsUtf8(s) then Success((s, j)) else Failure(NotUtf8)
  }

  function ReadKey(b: seq<byte>, i: nat): (r: Decoded<Key>)
    ensures r.Success? ==> i < r.value.1 <= |b| && KeyFits(r.value.0)
  {
    var (tag, j) :- ReadU8(b, i);
    if tag == T_INT then
      var (v, k) :- ReadU64(b, j);
      Success((IntKey(Signed(v)), k))
    else if tag == T_STR then
      var (s, k) :- ReadBytes(b, j);
      Success((StrKey(s), k))
    else Failure(BadKeyTag(tag))
  }

  /** Any bytes at any position and depth: an error, or a value and the position after it. */
  function ReadData(b: seq<byte>, i: nat, depth: nat): (r: Decoded<LuaData>)
    ensures r.Success? ==> i < r.value.1 <= |b|
    decreases if i <= |b| then |b| - i else 0, 4, 0
  {
    if depth > MAX_DEPTH then Failure(TooDeep)
    else
      var (tag, j) :- ReadU8(b, i);
      ReadBody(b, j, tag, depth)
  }

  /** A value after its tag. */
  function ReadBody(b: seq<byte>, i: nat, tag: byte, depth: nat): (r: Decoded<LuaData>)
    requires i <= |b|
    ensures r.Success? ==> i <= r.value.1 <= |b|
    decreases |b| - i, 3, 0
  {
    if tag == T_NIL then Success((Nil, i))
    else if tag == T_BOOL then
      var (v, k) :- ReadU8(b, i);
      Success((Bool(v != 0), k))
    else if tag == T_INT then
      var (v, k) :- ReadU64(b, i);
      Success((Int(Signed(v)), k))
    else if tag == T_NUM then
      var (v, k) :- ReadU64(b, i);
      Success((Num(v), k))
    else if tag == T_STR then
      var (s, k) :- ReadBytes(b, i);
      Success((Str(s), k))
    else if tag == T_TABLE then ReadTable(b, i, depth)
    else Failure(BadValueTag(tag))
  }

  /** The rest of a table, after its tag. */
  function ReadTable(b: seq<byte>, i: nat, depth: nat): (r: Decoded<LuaData>)
    requires i <= |b|
    ensures r.Success? ==> i < r.value.1 <= |b|
    decreases |b| - i, 2, 0
  {
    var (n, k) :- ReadU64(b, i);
    var (items, l) :- ReadItems(b, k, depth + 1, n, []);
    ReadMap(b, l, depth, items)
  }

  /** The rest of a table, after its items. */
  function ReadMap(b: seq<byte>, i: nat, depth: nat, items: seq<LuaData>): (r: Decoded<LuaData>)
    requires i <= |b|
    ensures r.Success? ==> i < r.value.1 <= |b|
    decreases |b| - i, 1, 0
  {
    var (n, k) :- ReadU64(b, i);
    var (entries, l) :- ReadEntries(b, k, depth + 1, n, []);
    Success((Table(items, entries), l))
  }

  function ReadItems(b: seq<byte>, i: nat, depth: nat, n: nat, acc: seq<LuaData>): (r: Decoded<seq<LuaData>>)
    requires i <= |b|
    ensures r.Success? ==> i <= r.value.1 <= |b|
    decreases |b| - i, 5, n
  {
    if n == 0 then Success((acc, i))
    else
      var (v, j) :- ReadData(b, i, depth);
      ReadItems(b, j, depth, n - 1, acc + [v])
  }

  function ReadEntries(b: seq<byte>, i: nat, depth: nat, n: nat, acc: seq<Entry>): (r: Decoded<seq<Entry>>)
    requires i <= |b|
    ensures r.Success? ==> i <= r.value.1 <= |b|
    decreases |b| - i, 5, n
  {
    if n == 0 then Success((acc, i))
    else
      var (e, j) :- ReadEntry(b, i, depth);
      ReadEntries(b, j, depth, n - 1, Insert(acc, e.key, e.value))
  }

  function ReadEntry(b: seq<byte>, i: nat, depth: nat): (r: Decoded<Entry>)
    requires i <= |b|
    ensures r.Success? ==> i < r.value.1 <= |b|
    decreases |b| - i, 4, 1
  {
    var (k, j) :- ReadKey(b, i);
    var (v, l) :- ReadData(b, j, depth);
    Success((Entry(k, v), l))
  }

  // ------------------------------------------------------------------ round trip

  function Max(a: nat, b: nat): nat {
    if a < b then b else a
  }

  /** How far below its root a value has nodes. */
  function Height(d: LuaData): nat
    decreases d
  {
    if d.Table? then Max(ItemsHeight(d.items), EntriesHeight(d.entries)) else 0
  }

  function ItemsHeight(items: seq<LuaData>): nat
    decreases items
  {
    if items == [] then 0 else Max(1 + Height(items[0]), ItemsHeight(items[1..]))
  }

  function EntriesHeight(entries: seq<Entry>): nat
    decreases entries
  {
    if entries == [] then 0 else Max(1 + EntryHeight(entries[0]), EntriesHeight(entries[1..]))
  }

  function EntryHeight(e: Entry): nat
    decreases e
  {
    Height(e.value)
  }

  lemma ReadU8At(b: seq<byte>, i: nat, v: byte)
    requires At(b, i, [v]) && |b| < U64_LIMIT
    ensures ReadU8(b, i) == Success((v, i + 1))
  {
    assert b[i..i + 1] == [v];
  }

  lemma ReadU64At(b: seq<byte>, i: nat, v: u64)
    requires At(b, i, U64Bytes(v)) && |b| < U64_LIMIT
    ensures ReadU64(b, i) == Success((v, i + 8))
  {
    U64RoundTrip(v);
  }

  lemma ReadBytesAt(b: seq<byte>, i: nat, s: seq<byte>)
    requires |s| < U64_LIMIT && At(b, i, PutBytes(s)) && |b| < U64_LIMIT
    ensures ReadBytes(b, i) == Success((s, i + 8 + |s|))
  {
    var _ := AtSplit(b, i, U64Bytes(|s|), s);
    ReadU64At(b, i, |s|);
  }

  lemma ReadKeyAt(b: seq<byte>, i: nat, k: Key)
    requires KeyFits(k) && At(b, i, PutKey(k)) && |b| < U64_LIMIT
    ensures ReadKey(b, i) == Success((k, i + |PutKey(k)|))
  {
    match k
    case IntKey(v) =>
      var j := AtSplit(b, i, [T_INT], U64Bytes(Unsigned(v)));
      ReadU8At(b, i, T_INT);
      ReadU64At(b, j, Unsigned(v));
    case StrKey(s) =>
      var j := AtSplit(b, i, [T_STR], PutBytes(s));
      ReadU8At(b, i, T_STR);
      ReadBytesAt(b, j, s);
  }

  /** What a reader finds where a value was written: the value, or that it nests too deep. */
  function Found<T>(value: T, next: nat, depth: nat, height: nat): Decoded<T> {
    if depth + height <= MAX_DEPTH then Success((value, next)) else Failure(TooDeep)
  }

  lemma {:induction false} ReadDataAt(b: seq<byte>, i: nat, d: LuaData, depth: nat)
    requires WellFormed(d) && At(b, i, PutData(d)) && |b| < U64_LIMIT
    ensures ReadData(b, i, depth) == Found(d, i + |PutData(d)|, depth, Height(d))
    decreases d, 2
  {
    hide At, ReadU8, ReadTable, PutItems, PutEntries, U64Bytes, ItemsHeight, EntriesHeight;
    var j := AtSplit(b, i, [TagOf(d)], PutBody(d));
    ReadU8At(b, i, TagOf(d));
    if depth <= MAX_DEPTH {
      if d.Table? {
        var k, l, m := AtPairs(b, j, U64Bytes(|d.items|), PutItems(d.items), U64Bytes(|d.entries|), PutEntries(d.entries));
        ReadTableAt(b, j, d.items, k, l, d.entries, m, depth);
      } else {
        ReadScalarAt(b, j, d, depth);
      }
    }
  }

  lemma ReadScalarAt(b: seq<byte>, i: nat, d: LuaData, depth: nat)
    requires !d.Table? && WellFormed(d) && At(b, i, PutBody(d)) && |b| < U64_LIMIT
    ensures ReadBody(b, i, TagOf(d), depth) == Success((d, i + |PutBody(d)|))
  {
    match d
    case Nil =>
    case Bool(v) => ReadU8At(b, i, BoolByte(v));
    case Int(v) => ReadU64At(b, i, Unsigned(v));
    case Num(v) => ReadU64At(b, i, v);
    case Str(s) => ReadBytesAt(b, i, s);
  }

  /** The four parts of a table's body, one after the other. */
  lemma {:induction false} ReadTableAt(b: seq<byte>, i: nat, items: seq<LuaData>, k: nat, l: nat,
                                       entries: seq<Entry>, m: nat, depth: nat)
    requires |items| < U64_LIMIT && |entries| < U64_LIMIT
    requires AllWellFormed(items) && EntriesWellFormed(entries) && Sorted(entries)
    requires At(b, i, U64Bytes(|items|)) && k == i + 8 && At(b, k, PutItems(items)) && l == k + |PutItems(items)|
    requires At(b, l, U64Bytes(|entries|)) && m == l + 8 && At(b, m, PutEntries(entries))
    requires |b| < U64_LIMIT && depth <= MAX_DEPTH
    ensures ReadTable(b, i, depth)
         == Found(Table(items, entries), m + |PutEntries(entries)|, depth, Max(ItemsHeight(items), EntriesHeight(entries)))
    decreases Table(items, entries), 1
  {
    hide At, ReadU64, ReadItems, ReadMap, PutItems, PutEntries, ItemsHeight, EntriesHeight, U64Bytes, WellFormed;
    ReadU64At(b, i, |items|);
    ReadAllItemsAt(b, k, items, depth + 1);
    if depth + ItemsHeight(items) <= MAX_DEPTH {
      ReadMapAt(b, l, items, entries, m, depth);
    }
  }

  lemma {:induction false} ReadMapAt(b: seq<byte>, i: nat, items: seq<LuaData>, entries: seq<Entry>, m: nat, depth: nat)
    requires |entries| < U64_LIMIT && EntriesWellFormed(entries) && Sorted(entries)
    requires At(b, i, U64Bytes(|entries|)) && m == i + 8 && At(b, m, PutEntries(entries))
    requires |b| < U64_LIMIT && depth <= MAX_DEPTH
    ensures ReadMap(b, i, depth, items)
         == Found(Table(items, entries), m + |PutEntries(entries)|, depth, EntriesHeight(entries))
    decreases entries, 1
  {
    hide At, ReadU64, ReadEntries, PutEntries, EntriesHeight, U64Bytes, WellFormed;
    ReadU64At(b, i, |entries|);
    assert [] + entries == entries;
    ReadEntriesAt(b, m, entries, depth + 1, []);
  }

  lemma {:induction false} ReadAllItemsAt(b: seq<byte>, i: nat, items: seq<LuaData>, depth: nat)
    requires AllWellFormed(items) && At(b, i, PutItems(items)) && |b| < U64_LIMIT && 1 <= depth <= MAX_DEPTH + 1
    ensures ReadItems(b, i, depth, |items|, []) == Found(items, i + |PutItems(items)|, depth - 1, ItemsHeight(items))
    decreases items, 1
  {
    ReadItemsAt(b, i, items, depth, []);
    assert [] + items == items;
  }

  /** Items one after the other; `depth` is theirs, so the table that holds them is one higher. */
  lemma {:induction false} ReadItemsAt(b: seq<byte>, i: nat, items: seq<LuaData>, depth: nat, acc: seq<LuaData>)
    requires AllWellFormed(items) && At(b, i, PutItems(items)) && |b| < U64_LIMIT && 1 <= depth <= MAX_DEPTH + 1
    ensures ReadItems(b, i, depth, |items|, acc) == Found(acc + items, i + |PutItems(items)|, depth - 1, ItemsHeight(items))
    decreases items, 0
  {
    hide At, ReadData, PutData, Height;
    if items == [] {
      assert acc + items == acc;
    } else {
      var x, rest := PutData(items[0]), items[1..];
      var j := AtSplit(b, i, x, PutItems(rest));
      ReadDataAt(b, i, items[0], depth);
      if depth + Height(items[0]) <= MAX_DEPTH {
        ReadItemsAt(b, j, rest, depth, acc + [items[0]]);
        AppendNext(acc, items);
      }
    }
  }

  lemma {:induction false} ReadEntriesAt(b: seq<byte>, i: nat, entries: seq<Entry>, depth: nat, acc: seq<Entry>)
    requires EntriesWellFormed(entries) && Sorted(acc + entries)
    requires At(b, i, PutEntries(entries)) && |b| < U64_LIMIT && 1 <= depth <= MAX_DEPTH + 1
    ensures ReadEntries(b, i, depth, |entries|, acc)
         == Found(acc + entries, i + |PutEntries(entries)|, depth - 1, EntriesHeight(entries))
    decreases entries, 0
  {
    hide At, ReadEntry, PutEntry, Insert, EntryHeight;
    if entries == [] {
      assert acc + entries == acc;
    } else {
      var e, rest := entries[0], entries[1..];
      var j := AtSplit(b, i, PutEntry(e), PutEntries(rest));
      ReadEntryAt(b, i, e, depth);
      InsertNext(acc, entries);
      if depth + EntryHeight(e) <= MAX_DEPTH {
        ReadEntriesAt(b, j, rest, depth, acc + [e]);
        assert ReadEntries(b, i, depth, |entries|, acc) == ReadEntries(b, j, depth, |rest|, acc + [e]);
      }
    }
  }

  lemma InsertNext(acc: seq<Entry>, entries: seq<Entry>)
    requires entries != [] && Sorted(acc + entries)
    ensures Insert(acc, entries[0].key, entries[0].value) == acc + [entries[0]]
    ensures acc + [entries[0]] + entries[1..] == acc + entries
  {
    forall j | 0 <= j < |acc| ensures KeyLess(acc[j].key, entries[0].key) {
      assert (acc + entries)[j] == acc[j] && (acc + entries)[|acc|] == entries[0];
    }
    InsertLast(acc, entries[0].key, entries[0].value);
  }

  lemma {:induction false} ReadEntryAt(b: seq<byte>, i: nat, e: Entry, depth: nat)
    requires KeyFits(e.key) && WellFormed(e.value) && At(b, i, PutEntry(e)) && |b| < U64_LIMIT
    ensures ReadEntry(b, i, depth) == Found(e, i + |PutEntry(e)|, depth, EntryHeight(e))
    decreases e
  {
    hide At, ReadData, PutData, Height, ReadKey, PutKey;
    var j := AtSplit(b, i, PutKey(e.key), PutData(e.value));
    ReadKeyAt(b, i, e.key);
    ReadDataAt(b, j, e.value, depth);
  }
}
