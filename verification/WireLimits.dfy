/**
 What the value reader promises on bytes nobody vouches for: it never makes more of them than they
 are, never nests past its bound, and bytes added behind a value do not change what was read.
 */
module WireLimits {
  import opened Wrappers
  import opened Bytes
  import opened Wire

  // -------------------------------------------------------- appended bytes

  /** If reading `b` succeeds, reading anything that starts with `b` gives the same. */
  lemma {:induction false} ReadDataMore(b: seq<byte>, i: nat, depth: nat, more: seq<byte>)
    requires ReadData(b, i, depth).Success?
    ensures ReadData(b + more, i, depth) == ReadData(b, i, depth)
    decreases if i <= |b| then |b| - i else 0, 4, 0
  {
    ReadU8More(b, i, more);
    var (tag, j) := ReadU8(b, i).value;
    ReadBodyMore(b, j, tag, depth, more);
  }

  lemma TakeMore(b: seq<byte>, i: nat, n: nat, more: seq<byte>)
    requires Take(b, i, n).Success?
    ensures Take(b + more, i, n) == Take(b, i, n)
  {
    assert (b + more)[i..i + n] == b[i..i + n];
  }

  lemma ReadU8More(b: seq<byte>, i: nat, more: seq<byte>)
    requires ReadU8(b, i).Success?
    ensures ReadU8(b + more, i) == ReadU8(b, i)
  {
    TakeMore(b, i, 1, more);
  }

  lemma ReadU64More(b: seq<byte>, i: nat, more: seq<byte>)
    requires ReadU64(b, i).Success?
    ensures ReadU64(b + more, i) == ReadU64(b, i)
  {
    TakeMore(b, i, 8, more);
  }

  lemma ReadBytesMore(b: seq<byte>, i: nat, more: seq<byte>)
    requires ReadBytes(b, i).Success?
    ensures ReadBytes(b + more, i) == ReadBytes(b, i)
  {
    ReadU64More(b, i, more);
    TakeMore(b, i + 8, ReadU64(b, i).value.0, more);
  }

  lemma ReadTextMore(b: seq<byte>, i: nat, more: seq<byte>)
    requires ReadText(b, i).Success?
    ensures ReadText(b + more, i) == ReadText(b, i)
  {
    ReadBytesMore(b, i, more);
  }

  lemma ReadKeyMore(b: seq<byte>, i: nat, more: seq<byte>)
    requires ReadKey(b, i).Success?
    ensures ReadKey(b + more, i) == ReadKey(b, i)
  {
    ReadU8More(b, i, more);
    if ReadU8(b, i).value.0 == T_INT {
      ReadU64More(b, i + 1, more);
    } else {
      ReadBytesMore(b, i + 1, more);
    }
  }

  lemma {:induction false} ReadBodyMore(b: seq<byte>, i: nat, tag: byte, depth: nat, more: seq<byte>)
    requires i <= |b| && ReadBody(b, i, tag, depth).Success?
    ensures ReadBody(b + more, i, tag, depth) == ReadBody(b, i, tag, depth)
    decreases |b| - i, 3, 0
  {
    if tag == T_BOOL {
      ReadU8More(b, i, more);
    } else if tag == T_INT || tag == T_NUM {
      ReadU64More(b, i, more);
    } else if tag == T_STR {
      ReadBytesMore(b, i, more);
    } else if tag == T_TABLE {
      ReadTableMore(b, i, depth, more);
    }
  }

  lemma {:induction false} ReadTableMore(b: seq<byte>, i: nat, depth: nat, more: seq<byte>)
    requires i <= |b| && ReadTable(b, i, depth).Success?
    ensures ReadTable(b + more, i, depth) == ReadTable(b, i, depth)
    decreases |b| - i, 2, 0
  {
    hide ReadU64, ReadItems, ReadMap;
    ReadU64More(b, i, more);
    var n := ReadU64(b, i).value.0;
    ReadItemsMore(b, i + 8, depth + 1, n, [], more);
    var (items, j) := ReadItems(b, i + 8, depth + 1, n, []).value;
    ReadMapMore(b, j, depth, items, more);
  }

  lemma {:induction false} ReadMapMore(b: seq<byte>, i: nat, depth: nat, items: seq<LuaData>, more: seq<byte>)
    requires i <= |b| && ReadMap(b, i, depth, items).Success?
    ensures ReadMap(b + more, i, depth, items) == ReadMap(b, i, depth, items)
    decreases |b| - i, 1, 0
  {
    ReadU64More(b, i, more);
    ReadEntriesMore(b, i + 8, depth + 1, ReadU64(b, i).value.0, [], more);
  }

  lemma {:induction false} ReadItemsMore(
    b: seq<byte>, i: nat, depth: nat, n: nat, acc: seq<LuaData>, more: seq<byte>)
    requires i <= |b| && ReadItems(b, i, depth, n, acc).Success?
    ensures ReadItems(b + more, i, depth, n, acc) == ReadItems(b, i, depth, n, acc)
    decreases |b| - i, 5, n
  {
    hide ReadData;
    if n > 0 {
      ReadDataMore(b, i, depth, more);
      var (v, j) := ReadData(b, i, depth).value;
      ReadItemsMore(b, j, depth, n - 1, acc + [v], more);
    }
  }

  lemma {:induction false} ReadEntriesMore(
    b: seq<byte>, i: nat, depth: nat, n: nat, acc: seq<Entry>, more: seq<byte>)
    requires i <= |b| && ReadEntries(b, i, depth, n, acc).Success?
    ensures ReadEntries(b + more, i, depth, n, acc) == ReadEntries(b, i, depth, n, acc)
    decreases |b| - i, 5, n
  {
    hide ReadEntry, Insert;
    if n > 0 {
      ReadEntryMore(b, i, depth, more);
      var (e, j) := ReadEntry(b, i, depth).value;
      ReadEntriesMore(b, j, depth, n - 1, Insert(acc, e.key, e.value), more);
    }
  }

  lemma {:induction false} ReadEntryMore(b: seq<byte>, i: nat, depth: nat, more: seq<byte>)
    requires i <= |b| && ReadEntry(b, i, depth).Success?
    ensures ReadEntry(b + more, i, depth) == ReadEntry(b, i, depth)
    decreases |b| - i, 4, 1
  {
    ReadKeyMore(b, i, more);
    ReadDataMore(b, ReadKey(b, i).value.1, depth, more);
  }

  // ---------------------------------------------------------- size and depth

  /** How many values a value is made of, itself included. */
  function Nodes(d: LuaData): (n: nat)
    ensures n >= 1
    decreases d
  {
    if d.Table? then 1 + ItemsNodes(d.items) + EntriesNodes(d.entries) else 1
  }

  function ItemsNodes(items: seq<LuaData>): nat
    decreases items
  {
    if items == [] then 0 else Nodes(items[0]) + ItemsNodes(items[1..])
  }

  function EntriesNodes(entries: seq<Entry>): nat
    decreases entries
  {
    if entries == [] then 0 else EntryNodes(entries[0]) + EntriesNodes(entries[1..])
  }

  function EntryNodes(e: Entry): nat
    decreases e
  {
    Nodes(e.value)
  }

  /** A value a reader may return after `n` bytes at this depth. */
  ghost predicate Bounded(d: LuaData, depth: nat, n: int) {
    WellFormed(d) && Nodes(d) <= n && depth + Height(d) <= MAX_DEPTH
  }

  ghost predicate ItemsBounded(items: seq<LuaData>, depth: nat, n: int) {
    AllWellFormed(items) && ItemsNodes(items) <= n && depth + ItemsHeight(items) <= MAX_DEPTH
  }

  ghost predicate EntriesBounded(entries: seq<Entry>, depth: nat, n: int) {
    Sorted(entries) && EntriesWellFormed(entries) && EntriesNodes(entries) <= n && depth + EntriesHeight(entries) <= MAX_DEPTH
  }

  lemma {:induction false} ItemsAppend(items: seq<LuaData>, v: LuaData)
    ensures ItemsNodes(items + [v]) == ItemsNodes(items) + Nodes(v)
    ensures ItemsHeight(items + [v]) == Max(ItemsHeight(items), 1 + Height(v))
    decreases |items|
  {
    if items == [] {
      assert items + [v] == [v];
      assert [v][1..] == [];
    } else {
      assert (items + [v])[1..] == items[1..] + [v];
      ItemsAppend(items[1..], v);
    }
  }

  lemma {:induction false} InsertBounded(es: seq<Entry>, k: Key, v: LuaData)
    ensures EntriesNodes(Insert(es, k, v)) <= EntriesNodes(es) + Nodes(v)
    ensures EntriesHeight(Insert(es, k, v)) <= Max(EntriesHeight(es), 1 + Height(v))
    decreases |es|
  {
    var e := Entry(k, v);
    if es == [] {
      assert [e][1..] == [];
    } else {
      assert ([e] + es)[1..] == es && ([e] + es[1..])[1..] == es[1..];
      assert ([es[0]] + Insert(es[1..], k, v))[1..] == Insert(es[1..], k, v);
      InsertBounded(es[1..], k, v);
    }
  }

  lemma {:induction false} InsertWellFormed(es: seq<Entry>, k: Key, v: LuaData)
    requires EntriesWellFormed(es) && KeyFits(k) && WellFormed(v)
    ensures EntriesWellFormed(Insert(es, k, v))
    decreases |es|
  {
    if es != [] {
      InsertWellFormed(es[1..], k, v);
    }
  }

  lemma InsertKeepsBounds(es: seq<Entry>, e: Entry, depth: nat, m: nat, n: nat)
    requires depth >= 1 && EntriesBounded(es, depth - 1, m) && KeyFits(e.key) && Bounded(e.value, depth, n)
    ensures EntriesBounded(Insert(es, e.key, e.value), depth - 1, m + n)
    ensures |Insert(es, e.key, e.value)| <= |es| + 1
  {
    InsertBounded(es, e.key, e.value);
    InsertSorted(es, e.key, e.value);
    InsertWellFormed(es, e.key, e.value);
  }

  /** Whatever the bytes: what was read fits in what was consumed and lies within the depth bound. */
  lemma {:induction false} ReadDataBounded(b: seq<byte>, i: nat, depth: nat)
    requires ReadData(b, i, depth).Success?
    ensures Bounded(ReadData(b, i, depth).value.0, depth, ReadData(b, i, depth).value.1 - i)
    decreases if i <= |b| then |b| - i else 0, 4, 0
  {
    var (tag, j) := ReadU8(b, i).value;
    if tag == T_TABLE {
      ReadTableBounded(b, j, depth);
    }
  }

  lemma {:induction false} ReadTableBounded(b: seq<byte>, i: nat, depth: nat)
    requires i <= |b| && depth <= MAX_DEPTH && ReadTable(b, i, depth).Success?
    ensures Bounded(ReadTable(b, i, depth).value.0, depth, ReadTable(b, i, depth).value.1 - i)
    decreases |b| - i, 2, 0
  {
    hide ReadU64, ReadItems, ReadEntries;
    var n := ReadU64(b, i).value.0;
    assert ItemsBounded([], depth, 0);
    ReadItemsBounded(b, i + 8, depth + 1, n, [], i + 8);
    var (items, j) := ReadItems(b, i + 8, depth + 1, n, []).value;
    var m := ReadU64(b, j).value.0;
    ReadEntriesBounded(b, j + 8, depth + 1, m, [], j + 8);
  }

  /** `start` is where the list began; `depth` is the items' own. */
  lemma {:induction false} ReadItemsBounded(b: seq<byte>, i: nat, depth: nat, n: nat, acc: seq<LuaData>, start: nat)
    requires start <= i <= |b| && depth >= 1 && ReadItems(b, i, depth, n, acc).Success?
    requires ItemsBounded(acc, depth - 1, i - start)
    ensures ItemsBounded(ReadItems(b, i, depth, n, acc).value.0, depth - 1, ReadItems(b, i, depth, n, acc).value.1 - start)
    ensures |ReadItems(b, i, depth, n, acc).value.0| == |acc| + n
    decreases |b| - i, 5, n
  {
    hide ReadData;
    if n > 0 {
      ReadDataBounded(b, i, depth);
      var (v, j) := ReadData(b, i, depth).value;
      ItemsAppend(acc, v);
      ReadItemsBounded(b, j, depth, n - 1, acc + [v], start);
    }
  }

  lemma {:induction false} ReadEntriesBounded(b: seq<byte>, i: nat, depth: nat, n: nat, acc: seq<Entry>, start: nat)
    requires start <= i <= |b| && depth >= 1 && ReadEntries(b, i, depth, n, acc).Success?
    requires EntriesBounded(acc, depth - 1, i - start)
    ensures EntriesBounded(ReadEntries(b, i, depth, n, acc).value.0, depth - 1, ReadEntries(b, i, depth, n, acc).value.1 - start)
    ensures |ReadEntries(b, i, depth, n, acc).value.0| <= |acc| + n
    decreases |b| - i, 5, n
  {
    hide ReadEntry, Insert, Bounded, EntriesBounded;
    if n > 0 {
      ReadEntryBounded(b, i, depth);
      var (e, j) := ReadEntry(b, i, depth).value;
      InsertKeepsBounds(acc, e, depth, i - start, j - i);
      ReadEntriesBounded(b, j, depth, n - 1, Insert(acc, e.key, e.value), start);
    }
  }

  lemma {:induction false} ReadEntryBounded(b: seq<byte>, i: nat, depth: nat)
    requires i <= |b| && ReadEntry(b, i, depth).Success?
    ensures ReadEntry(b, i, depth).value.1 >= i
    ensures KeyFits(ReadEntry(b, i, depth).value.0.key)
    ensures Bounded(ReadEntry(b, i, depth).value.0.value, depth, ReadEntry(b, i, depth).value.1 - i)
    decreases |b| - i, 4, 1
  {
    ReadDataBounded(b, ReadKey(b, i).value.1, depth);
  }

  /**
   The values the reader can produce are exactly those that fit the machine and lie within the
   depth bound, and each of them comes back from its own encoding.
   */
  lemma ReadableExactly(d: LuaData)
    requires WellFormed(d) ==> |PutData(d)| < U64_LIMIT
    ensures WellFormed(d) && Height(d) <= MAX_DEPTH <==> exists b: seq<byte>, j: nat :: ReadData(b, 0, 0) == Success((d, j))
  {
    if WellFormed(d) && Height(d) <= MAX_DEPTH {
      var e := PutData(d);
      assert At(e, 0, e);
      ReadDataAt(e, 0, d, 0);
      assert ReadData(e, 0, 0) == Success((d, |e|));
    }
    if b: seq<byte>, j: nat :| ReadData(b, 0, 0) == Success((d, j)) {
      ReadDataBounded(b, 0, 0);
    }
  }
}
