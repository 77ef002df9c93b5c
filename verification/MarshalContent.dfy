/** The copy has the content of the value it was taken from, and so does what is rebuilt from it. */
module MarshalContent {
  import opened Wrappers
  import opened Bytes
  import opened Wire
  import opened WireLimits
  import opened LuaHeap
  import opened Marshal

  // ------------------------------------------------------ what a copy means

  /** What a copied table binds a key to: its entry, else its item at that index, else nil. */
  function Slot(items: seq<LuaData>, entries: seq<Entry>, k: Key): (d: LuaData)
    ensures Weight(d) <= ItemsNodes(items) + EntriesNodes(entries)
  {
    GetWeight(entries, k);
    match Get(entries, k)
    case Some(v) => v
    case None =>
      if k.IntKey? && 1 <= k.i <= |items| then
        ItemWeight(items, k.i - 1);
        items[k.i - 1]
      else Nil
  }

  function Weight(d: LuaData): nat {
    if d.Table? then Nodes(d) else 0
  }

  lemma {:induction false} ItemWeight(items: seq<LuaData>, i: nat)
    requires i < |items|
    ensures Weight(items[i]) <= ItemsNodes(items)
    decreases i
  {
    if i > 0 {
      ItemWeight(items[1..], i - 1);
    }
  }

  lemma {:induction false} GetWeight(entries: seq<Entry>, k: Key)
    ensures Get(entries, k).Some? ==> Weight(Get(entries, k).value) <= EntriesNodes(entries)
    decreases |entries|
  {
    if entries != [] && entries[0].key != k {
      GetWeight(entries[1..], k);
    }
  }

  function Keys(items: seq<LuaData>, entries: seq<Entry>): set<Key> {
    (set i: i64 | 1 <= i <= |items| :: IntKey(i)) + (set j | 0 <= j < |entries| :: entries[j].key)
  }

  /** The content of a copy: the tree of its slots that are not nil. */
  ghost function ContentOf(d: LuaData): Content
    decreases Weight(d), 0
  {
    match d
    case Nil => CNil
    case Bool(b) => CBool(b)
    case Int(i) => CInt(i)
    case Num(n) => CNum(n)
    case Str(s) => CStr(s)
    case Table(items, entries) => CTable(Fields(items, entries))
  }

  ghost function Fields(items: seq<LuaData>, entries: seq<Entry>): map<Key, Content>
    decreases ItemsNodes(items) + EntriesNodes(entries), 1
  {
    map k | k in Keys(items, entries) && !Slot(items, entries, k).Nil? :: ContentOf(Slot(items, entries, k))
  }

  lemma {:induction false} GetNone(entries: seq<Entry>, k: Key)
    ensures Get(entries, k).Some? ==> exists j :: 0 <= j < |entries| && entries[j].key == k
    decreases |entries|
  {
    if entries != [] && entries[0].key != k {
      GetNone(entries[1..], k);
      if Get(entries[1..], k).Some? {
        var rest := entries[1..];
        var j :| 0 <= j < |rest| && rest[j].key == k;
        assert entries[j + 1].key == k;
      }
    }
  }

  /** Field by field. */
  lemma FieldsAt(items: seq<LuaData>, entries: seq<Entry>, k: Key)
    ensures k in Fields(items, entries) <==> !Slot(items, entries, k).Nil?
    ensures k in Fields(items, entries) ==> Fields(items, entries)[k] == ContentOf(Slot(items, entries, k))
  {
    GetNone(entries, k);
  }

  // ----------------------------------------------------- faithful copies

  function Lookup(t: LuaTable, k: Key): LuaValue {
    if Known(k) in t then t[Known(k)] else VNil
  }

  /** Entries are no nil and lie outside the list part. */
  ghost predicate Apart(items: seq<LuaData>, entries: seq<Entry>) {
    Sorted(entries) && forall k :: Get(entries, k).Some? ==> Outside(k, |items|) && !Get(entries, k).value.Nil?
  }

  /** `d` is a copy of `v`: each table cut at one of its borders, nothing added and nothing lost. */
  ghost predicate Reads(h: Heap, v: LuaValue, d: LuaData)
    decreases Weight(d)
  {
    match v
    case VNil => d == Nil
    case VBool(b) => d == Bool(b)
    case VInt(i) => d == Int(i)
    case VNum(n) => d == Num(n)
    case VStr(s) => d == Str(s)
    case VTable(r) =>
      && r < |h| && d.Table? && IsBorder(h[r], |d.items|) && Apart(d.items, d.entries)
      && (forall k :: k in h[r] ==> k.Known?)
      && (forall k :: Reads(h, Lookup(h[r], k), Slot(d.items, d.entries, k)))
    case VOpaque(_) => false
  }

  /** A copy has the content of the original. */
  lemma {:induction false} ReadsUnfolds(h: Heap, v: LuaValue, d: LuaData)
    requires Sound(h) && Reads(h, v, d)
    ensures Unfolds(h, 0, v, ContentOf(d))
    decreases Weight(d)
  {
    if v.VTable? {
      var t := h[v.ref];
      forall k: Key
        ensures Known(k) in t <==> k in Fields(d.items, d.entries)
        ensures Known(k) in t ==> Unfolds(h, 0, t[Known(k)], Fields(d.items, d.entries)[k])
      {
        FieldsAt(d.items, d.entries, k);
        assert Reads(h, Lookup(t, k), Slot(d.items, d.entries, k));
        ReadsUnfolds(h, Lookup(t, k), Slot(d.items, d.entries, k));
      }
    }
  }

  // --------------------------------------------------------- out of the VM

  /** What is known of the items read so far. */
  ghost predicate ItemsRead(h: Heap, t: LuaTable, items: seq<LuaData>) {
    forall i :: 0 <= i < |items| ==> Reads(h, Index(t, i + 1), items[i])
  }

  /** What is known of the entries read so far: they are the keys seen, outside the list part. */
  ghost predicate EntriesRead(h: Heap, t: LuaTable, n: nat, done: seq<LuaKey>, entries: seq<Entry>) {
    && Sorted(entries)
    && (forall k :: Get(entries, k).Some? <==> Known(k) in done && Outside(k, n))
    && (forall k :: Get(entries, k).Some? ==> Reads(h, Lookup(t, k), Get(entries, k).value))
  }

  /** How many levels of tables a copy has. */
  function Levels(d: LuaData): nat
    decreases d
  {
    if d.Table? then 1 + Max(ItemsLevels(d.items), EntriesLevels(d.entries)) else 0
  }

  function ItemsLevels(items: seq<LuaData>): nat
    decreases items
  {
    if items == [] then 0 else Max(Levels(items[0]), ItemsLevels(items[1..]))
  }

  function EntriesLevels(entries: seq<Entry>): nat
    decreases entries
  {
    if entries == [] then 0 else Max(EntryLevels(entries[0]), EntriesLevels(entries[1..]))
  }

  function EntryLevels(e: Entry): nat
    decreases e
  {
    Levels(e.value)
  }

  lemma {:induction false} LevelsAppend(items: seq<LuaData>, v: LuaData)
    ensures ItemsLevels(items + [v]) == Max(ItemsLevels(items), Levels(v))
    decreases |items|
  {
    if items == [] {
      assert items + [v] == [v];
      assert [v][1..] == [];
    } else {
      assert (items + [v])[1..] == items[1..] + [v];
      LevelsAppend(items[1..], v);
    }
  }

  lemma {:induction false} LevelsInsert(es: seq<Entry>, k: Key, v: LuaData)
    ensures EntriesLevels(Insert(es, k, v)) <= Max(EntriesLevels(es), Levels(v))
    decreases |es|
  {
    var e := Entry(k, v);
    if es == [] {
      assert [e][1..] == [];
    } else {
      assert ([e] + es)[1..] == es && ([e] + es[1..])[1..] == es[1..];
      assert ([es[0]] + Insert(es[1..], k, v))[1..] == Insert(es[1..], k, v);
      LevelsInsert(es[1..], k, v);
    }
  }

  /** What a copy used: its values were counted one by one, and it nests within the limit. */
  ghost predicate Costs(d: LuaData, depth: nat, limits: Limits, used: int) {
    Nodes(d) == used && depth + Levels(d) <= limits.depth
  }

  ghost predicate ItemsCost(items: seq<LuaData>, depth: nat, limits: Limits, used: int) {
    ItemsNodes(items) == used && depth + ItemsLevels(items) <= limits.depth
  }

  ghost predicate EntriesCost(entries: seq<Entry>, depth: nat, limits: Limits, used: int) {
    EntriesNodes(entries) == used && depth + EntriesLevels(entries) <= limits.depth
  }

  /** A successful copy is faithful, and its size and nesting are what the limits were charged. */
  lemma {:induction false} FromLuaReads(h: Heap, vm: Vm, v: LuaValue, depth: nat, limits: Limits, budget: nat)
    requires Sound(h) && Legal(h, vm) && Valid(h, v) && depth <= limits.depth
    requires FromLua(h, vm, v, depth, limits, budget).Success?
    ensures var (d, b) := FromLua(h, vm, v, depth, limits, budget).value;
            Reads(h, v, d) && Costs(d, depth, limits, budget - b)
    decreases budget, 1, 0
  {
    if v.VTable? {
      FromTableReads(h, vm, v.ref, depth, limits, budget - 1);
    }
  }

  lemma {:induction false} FromTableReads(h: Heap, vm: Vm, ref: nat, depth: nat, limits: Limits, budget: nat)
    requires Sound(h) && Legal(h, vm) && ref < |h| && depth < limits.depth
    requires FromTable(h, vm, ref, depth, limits, budget).Success?
    ensures var (d, b) := FromTable(h, vm, ref, depth, limits, budget).value;
            Reads(h, VTable(ref), d) && Costs(d, depth, limits, 1 + budget - b)
    decreases budget, 3, 0
  {
    hide Legal, Sound, Enumerates, FromItems, FromPairs, IsBorder, Reads, ItemsRead, EntriesRead, ItemsNodes, EntriesNodes, ItemsLevels, EntriesLevels, Get;
    NothingRead(h, h[ref], vm.border(ref, budget));
    var t, n, keys := h[ref], vm.border(ref, budget), vm.order(ref, budget);
    VisitIsLegal(h, vm, ref, budget);
    FromItemsRead(h, vm, t, 1, n, depth + 1, limits, budget, []);
    var (items, b) := FromItems(h, vm, t, 1, n, depth + 1, limits, budget, []).value;
    assert [] + keys == keys;
    FromPairsRead(h, vm, t, [], keys, n, depth + 1, limits, b, []);
    var (entries, b') := FromPairs(h, vm, t, keys, n, depth + 1, limits, b, []).value;
    TableReads(h, ref, n, keys, items, entries);
  }

  lemma VisitIsLegal(h: Heap, vm: Vm, ref: nat, visit: nat)
    requires Legal(h, vm) && ref < |h|
    ensures h[ref] in h && IsBorder(h[ref], vm.border(ref, visit)) && Enumerates(h[ref], vm.order(ref, visit))
    ensures forall i :: 0 <= i < |vm.order(ref, visit)| ==> vm.order(ref, visit)[i] in h[ref]
  {
  }

  lemma NothingRead(h: Heap, t: LuaTable, n: nat)
    ensures ItemsRead(h, t, []) && ItemsNodes([]) == 0 && ItemsLevels([]) == 0
    ensures EntriesRead(h, t, n, [], []) && EntriesNodes([]) == 0 && EntriesLevels([]) == 0
  {
  }

  lemma TableReads(h: Heap, ref: nat, n: nat, keys: seq<LuaKey>, items: seq<LuaData>, entries: seq<Entry>)
    requires Sound(h) && ref < |h| && IsBorder(h[ref], n) && Enumerates(h[ref], keys)
    requires forall i :: 0 <= i < |keys| ==> keys[i].Known?
    requires |items| == n && ItemsRead(h, h[ref], items) && EntriesRead(h, h[ref], n, keys, entries)
    ensures Reads(h, VTable(ref), Table(items, entries))
  {
    var t := h[ref];
    forall k: Key ensures Reads(h, Lookup(t, k), Slot(items, entries, k)) {
      if !Outside(k, n) {
        assert Lookup(t, k) == Index(t, k.i) && Reads(h, Index(t, (k.i - 1) + 1), items[k.i - 1]);
      } else if Known(k) in t {
        assert Known(k) in keys;
      }
    }
    forall k | Get(entries, k).Some? ensures !Get(entries, k).value.Nil? {
      assert Known(k) in keys && Known(k) in t && Reads(h, Lookup(t, k), Get(entries, k).value);
    }
    assert forall k :: k in t ==> k in keys && k.Known?;
  }

  lemma {:induction false} FromItemsRead(h: Heap, vm: Vm, t: LuaTable, i: nat, n: nat, depth: nat, limits: Limits,
                                         budget: nat, acc: seq<LuaData>)
    requires Sound(h) && Legal(h, vm) && t in h && 1 <= depth <= limits.depth && 1 <= i <= n + 1
    requires FromItems(h, vm, t, i, n, depth, limits, budget, acc).Success?
    requires |acc| == i - 1 && ItemsRead(h, t, acc) && depth + ItemsLevels(acc) <= limits.depth
    ensures var (items, b) := FromItems(h, vm, t, i, n, depth, limits, budget, acc).value;
            && |items| == n && ItemsRead(h, t, items)
            && ItemsCost(items, depth, limits, ItemsNodes(acc) + budget - b)
    decreases budget, 2, n + 1 - i
  {
    hide FromLua, Reads, Index;
    if i <= n {
      assert Valid(h, Index(t, i)) by { IndexValid(h, t, i); }
      FromLuaReads(h, vm, Index(t, i), depth, limits, budget);
      var (d, b) := FromLua(h, vm, Index(t, i), depth, limits, budget).value;
      ItemsAppend(acc, d);
      LevelsAppend(acc, d);
      FromItemsRead(h, vm, t, i + 1, n, depth, limits, b, acc + [d]);
    }
  }

  lemma IndexValid(h: Heap, t: LuaTable, i: nat)
    requires Sound(h) && t in h
    ensures Valid(h, Index(t, i))
  {
  }

  lemma {:induction false} FromPairsRead(h: Heap, vm: Vm, t: LuaTable, done: seq<LuaKey>, keys: seq<LuaKey>, n: nat,
                                         depth: nat, limits: Limits, budget: nat, acc: seq<Entry>)
    requires Sound(h) && Legal(h, vm) && t in h && 1 <= depth <= limits.depth && Enumerates(t, done + keys)
    requires forall i :: 0 <= i < |keys| ==> keys[i] in t
    requires FromPairs(h, vm, t, keys, n, depth, limits, budget, acc).Success?
    requires EntriesRead(h, t, n, done, acc) && depth + EntriesLevels(acc) <= limits.depth
    requires forall i :: 0 <= i < |done| ==> done[i].Known?
    ensures var (entries, b) := FromPairs(h, vm, t, keys, n, depth, limits, budget, acc).value;
            && EntriesRead(h, t, n, done + keys, entries)
            && EntriesCost(entries, depth, limits, EntriesNodes(acc) + budget - b)
    ensures forall i :: 0 <= i < |done + keys| ==> (done + keys)[i].Known?
    decreases budget, 2, |keys|
  {
    hide FromLua, Reads, Insert, EntriesRead, Enumerates, Get;
    if keys == [] {
      assert done + keys == done;
    } else {
      var k := keys[0].key;
      var done', rest := done + [keys[0]], keys[1..];
      AppendNext(done, keys);
      if !Outside(k, n) {
        SkipRead(h, t, n, done, k, acc);
        FromPairsRead(h, vm, t, done', rest, n, depth, limits, budget, acc);
      } else {
        FromLuaReads(h, vm, t[Known(k)], depth, limits, budget);
        var (d, b) := FromLua(h, vm, t[Known(k)], depth, limits, budget).value;
        FirstNotDone(t, done, keys);
        InsertRead(h, t, n, done, k, acc, d);
        LevelsInsert(acc, k, d);
        FromPairsRead(h, vm, t, done', rest, n, depth, limits, b, Insert(acc, k, d));
      }
    }
  }

  lemma FirstNotDone(t: LuaTable, done: seq<LuaKey>, keys: seq<LuaKey>)
    requires keys != [] && Enumerates(t, done + keys)
    ensures keys[0] !in done
  {
    forall i | 0 <= i < |done| ensures done[i] != keys[0] {
      assert (done + keys)[i] != (done + keys)[|done|];
    }
  }

  lemma SkipRead(h: Heap, t: LuaTable, n: nat, done: seq<LuaKey>, k: Key, acc: seq<Entry>)
    requires EntriesRead(h, t, n, done, acc) && !Outside(k, n)
    ensures EntriesRead(h, t, n, done + [Known(k)], acc)
  {
  }

  lemma InsertRead(h: Heap, t: LuaTable, n: nat, done: seq<LuaKey>, k: Key, acc: seq<Entry>, d: LuaData)
    requires EntriesRead(h, t, n, done, acc) && Outside(k, n) && Known(k) !in done && Reads(h, Lookup(t, k), d)
    ensures EntriesRead(h, t, n, done + [Known(k)], Insert(acc, k, d))
    ensures EntriesNodes(Insert(acc, k, d)) == EntriesNodes(acc) + Nodes(d)
  {
    hide Reads;
    InsertSorted(acc, k, d);
    forall x ensures Get(Insert(acc, k, d), x) == if x == k then Some(d) else Get(acc, x) {
      InsertGet(acc, k, d, x);
    }
    InsertNodes(acc, k, d);
  }

  lemma {:induction false} InsertNodes(es: seq<Entry>, k: Key, v: LuaData)
    requires Get(es, k).None?
    ensures EntriesNodes(Insert(es, k, v)) == EntriesNodes(es) + Nodes(v)
    decreases |es|
  {
    var e := Entry(k, v);
    if es == [] {
      assert [e][1..] == [];
    } else {
      assert ([e] + es)[1..] == es;
      assert ([es[0]] + Insert(es[1..], k, v))[1..] == Insert(es[1..], k, v);
      InsertNodes(es[1..], k, v);
    }
  }

  lemma KeyValid(h: Heap, t: LuaTable, k: LuaKey)
    requires Sound(h) && t in h && k in t
    ensures Valid(h, t[k])
  {
  }
}
