/** What survives the way to JSON and back, and what is refused. */
module JsonTheorems {
  import opened Wrappers
  import opened Bytes
  import opened Wire
  import opened WireLimits
  import opened LuaHeap
  import opened Marshal
  import opened MarshalContent
  import opened MarshalRebuild
  import opened MarshalCopies
  import opened JsonConvert

  // -------------------------------------------------------- classification

  ghost predicate HasOdd(t: LuaTable) {
    exists k :: k in t && k.Odd?
  }

  ghost predicate HasIndex(t: LuaTable) {
    exists k :: k in t && IsIndex(k)
  }

  ghost predicate HasName(t: LuaTable) {
    exists k :: k in t && k.Known? && !IsIndex(k)
  }

  /** `n` is the largest list index of the table. */
  ghost predicate LargestIs(t: LuaTable, n: nat) {
    && n <= I64_MAX && Known(IntKey(n)) in t
    && forall k :: k in t && IsIndex(k) ==> k.key.i <= n
  }

  /** What a tally says about the keys counted. */
  ghost predicate Tallied(keys: seq<LuaKey>, tally: Tally) {
    && (forall i :: 0 <= i < |keys| ==> keys[i].Known?)
    && (tally.indices == 0 <==> forall i :: 0 <= i < |keys| ==> !IsIndex(keys[i]))
    && (tally.named == 0 <==> forall i :: 0 <= i < |keys| ==> IsIndex(keys[i]))
    && (forall i :: 0 <= i < |keys| && IsIndex(keys[i]) ==> keys[i].key.i <= tally.maxIndex)
    && (tally.indices > 0 ==> tally.maxIndex <= I64_MAX && tally.maxIndex >= 1 && Known(IntKey(tally.maxIndex)) in keys)
  }

  lemma {:induction false} TallyIsRight(done: seq<LuaKey>, keys: seq<LuaKey>, acc: Tally)
    requires Tallied(done, acc) && (acc.indices == 0 ==> acc.maxIndex == 0)
    ensures TallyKeys(keys, acc).Success? ==> Tallied(done + keys, TallyKeys(keys, acc).value)
    ensures TallyKeys(keys, acc).Failure? ==> exists i :: 0 <= i < |keys| && keys[i].Odd?
    decreases |keys|
  {
    if keys == [] {
      assert done + keys == done;
    } else if keys[0].Known? {
      AppendNext(done, keys);
      var k := keys[0].key;
      var acc' := if IsIndex(keys[0]) then Tally(acc.indices + 1, if acc.maxIndex < k.i then k.i else acc.maxIndex, acc.named)
      else acc.(named := acc.named + 1);
      TallyStep(done, keys[0], acc, acc');
      TallyIsRight(done + [keys[0]], keys[1..], acc');
      if TallyKeys(keys, acc).Failure? {
        var rest := keys[1..];
        var i :| 0 <= i < |rest| && rest[i].Odd?;
        assert keys[i + 1].Odd?;
      }
    }
  }

  lemma TallyStep(done: seq<LuaKey>, k: LuaKey, acc: Tally, acc': Tally)
    requires Tallied(done, acc) && k.Known? && (acc.indices == 0 ==> acc.maxIndex == 0)
    requires IsIndex(k) ==> acc' == Tally(acc.indices + 1, if acc.maxIndex < k.key.i then k.key.i else acc.maxIndex, acc.named)
    requires !IsIndex(k) ==> acc' == acc.(named := acc.named + 1)
    ensures Tallied(done + [k], acc')
  {
    var all := done + [k];
    assert all[|done|] == k;
    assert forall i :: 0 <= i < |done| ==> all[i] == done[i];
  }

  /**
   Whatever the order of the keys: a table is refused exactly if it has a key JSON has no name for,
   or both list indices and names; else it is empty, a list up to its largest index, or an object.
   */
  lemma ClassifyIsRight(t: LuaTable, keys: seq<LuaKey>)
    requires Enumerates(t, keys)
    ensures Classify(keys).Failure? <==> HasOdd(t) || (HasIndex(t) && HasName(t))
    ensures Classify(keys).Failure? && !HasOdd(t) ==> Classify(keys).error == Mixed
    ensures Classify(keys) == Success(Empty) <==> t == map[]
    ensures Classify(keys) == Success(Object) <==> !HasOdd(t) && !HasIndex(t) && HasName(t)
    ensures Classify(keys).Success? && Classify(keys).value.Array? ==>
              HasIndex(t) && !HasName(t) && LargestIs(t, Classify(keys).value.n)
  {
    hide Enumerates, HasOdd, HasIndex, HasName, LargestIs;
    KeyFacts(t, keys);
    TallyIsRight([], keys, Tally(0, 0, 0));
    assert [] + keys == keys;
    if TallyKeys(keys, Tally(0, 0, 0)).Success? && TallyKeys(keys, Tally(0, 0, 0)).value.indices > 0 {
      LargestIsTallied(t, keys, TallyKeys(keys, Tally(0, 0, 0)).value);
    }
  }

  /** What there is among the keys listed is what there is in the table. */
  lemma KeyFacts(t: LuaTable, keys: seq<LuaKey>)
    requires Enumerates(t, keys)
    ensures HasOdd(t) <==> exists i :: 0 <= i < |keys| && keys[i].Odd?
    ensures HasIndex(t) <==> exists i :: 0 <= i < |keys| && IsIndex(keys[i])
    ensures HasName(t) <==> exists i :: 0 <= i < |keys| && keys[i].Known? && !IsIndex(keys[i])
    ensures t == map[] <==> keys == []
  {
    assert forall i :: 0 <= i < |keys| ==> keys[i] in t;
    assert forall k :: k in t ==> k in keys;
    if keys == [] {
      assert forall k :: k !in t;
      assert t == map[];
    } else {
      assert keys[0] in t;
    }
  }

  lemma LargestIsTallied(t: LuaTable, keys: seq<LuaKey>, tally: Tally)
    requires Enumerates(t, keys) && Tallied(keys, tally) && tally.indices > 0
    ensures LargestIs(t, tally.maxIndex)
  {
    forall k | k in t && IsIndex(k) ensures k.key.i <= tally.maxIndex {
      var i :| 0 <= i < |keys| && keys[i] == k;
    }
  }

  // ---------------------------------------------------------- what is accepted

  /** A string key is a name if it is UTF-8; an integer key has its decimal text for a name. */
  predicate Nameable(k: Key) {
    k.StrKey? ==> IsUtf8(k.s)
  }

  /** What JSON can hold, `n` levels of tables deep. */
  ghost predicate Convertible(h: Heap, v: LuaValue, n: nat)
    requires Sound(h) && Valid(h, v)
    decreases n
  {
    match v
    case VNum(bits) => IsFinite(bits)
    case VStr(s) => IsUtf8(s)
    case VOpaque(_) => false
    case VTable(r) =>
      && n > 0 && !HasOdd(h[r]) && !(HasIndex(h[r]) && HasName(h[r]))
      && (forall k :: k in h[r] && k.Known? ==> Nameable(k.key) && Convertible(h, h[r][k], n - 1))
    case _ => true
  }

  function KnownKeys(t: LuaTable): set<Key> {
    set k | k in t && k.Known? :: k.key
  }

  /** The tree of a value, `n` levels down. */
  ghost function Tree(h: Heap, v: LuaValue, n: nat): Content
    requires Sound(h) && Valid(h, v)
    decreases n
  {
    match v
    case VNil => CNil
    case VBool(b) => CBool(b)
    case VInt(i) => CInt(i)
    case VNum(bits) => CNum(bits)
    case VStr(s) => CStr(s)
    case VTable(r) =>
      if n == 0 then CNil else CTable(map k | k in KnownKeys(h[r]) :: Tree(h, h[r][Known(k)], n - 1))
    case VOpaque(_) => CNil
  }

  /** What is accepted unfolds. */
  lemma {:induction false} ConvertibleUnfolds(h: Heap, v: LuaValue, n: nat)
    requires Sound(h) && Valid(h, v) && Convertible(h, v, n)
    ensures Unfolds(h, 0, v, Tree(h, v, n))
    decreases n
  {
    if v.VTable? {
      var t, c := h[v.ref], Tree(h, v, n);
      assert forall k :: k in t ==> k.Known?;
      assert forall k: Key :: k in c.fields <==> Known(k) in t;
      forall k | k in c.fields ensures Unfolds(h, 0, t[Known(k)], c.fields[k]) {
        ConvertibleUnfolds(h, t[Known(k)], n - 1);
      }
    }
  }

  /** No table has an integer key below 1: those would become string keys. */
  ghost predicate NoLow(c: Content) {
    c.CTable? ==> forall k :: k in c.fields ==> (k.IntKey? ==> k.i >= 1) && NoLow(c.fields[k])
  }

  /** Rebuilding makes no such key. */
  lemma {:induction false} RebuiltHasNoLow(j: Json)
    ensures NoLow(ContentOf(AsData(j)))
    decreases j, 1
  {
    match j
    case JArray(items) =>
      forall k | k in Fields(AsItems(items), [])
        ensures (k.IntKey? ==> k.i >= 1) && NoLow(Fields(AsItems(items), [])[k])
      {
        FieldsAt(AsItems(items), [], k);
        AsItemsAt(items, k.i - 1);
        RebuiltHasNoLow(items[k.i - 1]);
      }
    case JObject(fields) =>
      forall k | k in Fields([], AsEntries(fields))
        ensures (k.IntKey? ==> k.i >= 1) && NoLow(Fields([], AsEntries(fields))[k])
      {
        FieldsAt([], AsEntries(fields), k);
        var i := GetIndex(AsEntries(fields), k);
        AsEntriesAt(fields, i);
        RebuiltHasNoLow(fields[i].value);
      }
    case _ =>
  }

  lemma {:induction false} AsItemsAt(items: seq<Json>, i: nat)
    requires i < |items|
    ensures AsItems(items)[i] == AsData(items[i])
    decreases i
  {
    if i > 0 {
      AsItemsAt(items[1..], i - 1);
    }
  }

  lemma {:induction false} AsEntriesAt(fields: seq<Field>, i: nat)
    requires i < |fields|
    ensures AsEntries(fields)[i] == AsEntry(fields[i])
    decreases i
  {
    if i > 0 {
      AsEntriesAt(fields[1..], i - 1);
    }
  }

  // ------------------------------------------------------------- what is kept

  /** A converted value: of an accepted value, of a size, and with its tree unless a key lay too low. */
  ghost predicate Kept(h: Heap, v: LuaValue, n: nat, j: Json)
    requires Sound(h) && Valid(h, v)
  {
    && Convertible(h, v, n)
    && (NoLow(Tree(h, v, n)) ==> ContentOf(AsData(j)) == Tree(h, v, n))
    && (AsData(j).Nil? <==> v.VNil?)
    && (HeapFits(h) && ValueFits(v) ==> WellFormed(AsData(j)))
  }

  lemma ChildNoLow(h: Heap, r: nat, n: nat, k: Key)
    requires Sound(h) && r < |h| && n > 0 && Known(k) in h[r] && NoLow(Tree(h, VTable(r), n))
    ensures (k.IntKey? ==> k.i >= 1) && NoLow(Tree(h, h[r][Known(k)], n - 1))
  {
    assert k in Tree(h, VTable(r), n).fields;
  }

  /** Slot by slot, a table has its tree. */
  lemma SlotsGiveTree(h: Heap, r: nat, n: nat, items: seq<LuaData>, entries: seq<Entry>)
    requires Sound(h) && r < |h| && n > 0
    requires forall k :: Slot(items, entries, k).Nil? <==> Known(k) !in h[r]
    requires forall k :: Known(k) in h[r] ==> ContentOf(Slot(items, entries, k)) == Tree(h, h[r][Known(k)], n - 1)
    ensures ContentOf(Table(items, entries)) == Tree(h, VTable(r), n)
  {
    hide Slot, ContentOf, Tree;
    var f := Fields(items, entries);
    forall k ensures k in f <==> Known(k) in h[r] ensures k in f ==> f[k] == Tree(h, h[r][Known(k)], n - 1) {
      FieldsAt(items, entries, k);
    }
    TreeOf(h, r, n, f);
    ContentOfTable(items, entries);
  }

  lemma TreeOf(h: Heap, r: nat, n: nat, f: map<Key, Content>)
    requires Sound(h) && r < |h| && n > 0
    requires forall k :: k in f <==> Known(k) in h[r]
    requires forall k :: k in f ==> f[k] == Tree(h, h[r][Known(k)], n - 1)
    ensures Tree(h, VTable(r), n) == CTable(f)
  {
    assert Tree(h, VTable(r), n).fields == f;
  }

  lemma ContentOfTable(items: seq<LuaData>, entries: seq<Entry>)
    ensures ContentOf(Table(items, entries)) == CTable(Fields(items, entries))
  {
  }

  ghost predicate ItemKept(h: Heap, t: LuaTable, n: nat, i: nat, j: Json)
    requires Sound(h)
  {
    Valid(h, Index(t, i)) && Kept(h, Index(t, i), n, j)
  }

  ghost predicate ItemsKept(h: Heap, t: LuaTable, n: nat, items: seq<Json>)
    requires Sound(h)
  {
    forall i :: 0 <= i < |items| ==> ItemKept(h, t, n, i + 1, items[i])
  }

  /** A list is kept: its indices are 1 to `n`, with nil for a hole. */
  lemma ListKept(h: Heap, r: nat, n: nat, length: nat, items: seq<Json>)
    requires Sound(h) && r < |h| && n > 0 && |items| == length < I64_MAX
    requires !HasOdd(h[r]) && !HasName(h[r]) && LargestIs(h[r], length)
    requires ItemsKept(h, h[r], n - 1, items)
    ensures Kept(h, VTable(r), n, JArray(items))
  {
    hide Tree, NoLow, ContentOf, Kept, HeapFits, WellFormed;
    var t, ds := h[r], AsItems(items);
    forall k | k in t
      ensures k.Known? && k.key.IntKey? && 1 <= k.key.i <= length && t[k] == Index(t, k.key.i)
      ensures Convertible(h, t[k], n - 1)
    {
      assert IsIndex(k);
      assert ItemKept(h, t, n - 1, (k.key.i - 1) + 1, items[k.key.i - 1]);
      KeptMeans(h, Index(t, k.key.i), n - 1, items[k.key.i - 1]);
    }
    forall k: Key ensures Slot(ds, [], k).Nil? <==> Known(k) !in t
      ensures NoLow(Tree(h, VTable(r), n)) && Known(k) in t ==> ContentOf(Slot(ds, [], k)) == Tree(h, t[Known(k)], n - 1)
    {
      if k.IntKey? && 1 <= k.i <= length {
        AsItemsAt(items, k.i - 1);
        assert ItemKept(h, t, n - 1, (k.i - 1) + 1, items[k.i - 1]);
        KeptMeans(h, Index(t, k.i), n - 1, items[k.i - 1]);
      }
      if NoLow(Tree(h, VTable(r), n)) && Known(k) in t {
        ChildNoLow(h, r, n, k);
      }
    }
    if NoLow(Tree(h, VTable(r), n)) {
      SlotsGiveTree(h, r, n, ds, []);
    }
    if HeapFits(h) {
      ListFits(h, r, n, items);
    }
    KeptTable(h, r, n, JArray(items));
  }

  lemma KeptMeans(h: Heap, v: LuaValue, n: nat, j: Json)
    requires Sound(h) && Valid(h, v) && Kept(h, v, n, j)
    ensures Convertible(h, v, n) && (AsData(j).Nil? <==> v.VNil?)
    ensures NoLow(Tree(h, v, n)) ==> ContentOf(AsData(j)) == Tree(h, v, n)
    ensures HeapFits(h) && ValueFits(v) ==> WellFormed(AsData(j))
  {
  }

  lemma KeptTable(h: Heap, r: nat, n: nat, j: Json)
    requires Sound(h) && r < |h| && Convertible(h, VTable(r), n) && AsData(j).Table?
    requires NoLow(Tree(h, VTable(r), n)) ==> ContentOf(AsData(j)) == Tree(h, VTable(r), n)
    requires HeapFits(h) ==> WellFormed(AsData(j))
    ensures Kept(h, VTable(r), n, j)
  {
  }

  lemma ListFits(h: Heap, r: nat, n: nat, items: seq<Json>)
    requires Sound(h) && HeapFits(h) && r < |h| && n > 0 && |items| < I64_MAX
    requires ItemsKept(h, h[r], n - 1, items)
    ensures WellFormed(AsData(JArray(items)))
  {
    hide Kept, Tree;
    forall i | 0 <= i < |items| ensures WellFormed(AsItems(items)[i]) {
      AsItemsAt(items, i);
      assert ItemKept(h, h[r], n - 1, i + 1, items[i]);
      KeptMeans(h, Index(h[r], i + 1), n - 1, items[i]);
    }
  }

  ghost predicate NoLowKey(keys: seq<LuaKey>) {
    forall i :: 0 <= i < |keys| && keys[i].Known? && keys[i].key.IntKey? ==> keys[i].key.i >= 1
  }

  /**
   What is known of the fields made from the keys seen so far. If no key lies too low, each string key
   has its own field; else two keys may have met in one.
   */
  ghost predicate FieldsKept(h: Heap, t: LuaTable, n: nat, done: seq<LuaKey>, fields: seq<Field>)
    requires Sound(h)
  {
    && (forall i :: 0 <= i < |done| ==> KeyKept(h, t, n, done[i]))
    && (HeapFits(h) ==> EntriesWellFormed(AsEntries(fields)) && Sorted(AsEntries(fields)))
    && (NoLowKey(done) ==> forall k :: FieldKept(h, t, n, done, fields, k))
  }

  ghost predicate KeyKept(h: Heap, t: LuaTable, n: nat, k: LuaKey)
    requires Sound(h)
  {
    k in t && k.Known? && FieldName(k.key).Success? && Valid(h, t[k]) && Convertible(h, t[k], n)
  }

  ghost predicate FieldKept(h: Heap, t: LuaTable, n: nat, done: seq<LuaKey>, fields: seq<Field>, k: Key)
    requires Sound(h)
  {
    var d := Get(AsEntries(fields), k);
    && (d.Some? <==> Known(k) in done)
    && (d.Some? ==> !d.value.Nil? && Known(k) in t && Valid(h, t[Known(k)])
                    && (NoLow(Tree(h, t[Known(k)], n)) ==> ContentOf(d.value) == Tree(h, t[Known(k)], n)))
  }

  lemma {:induction false} AsEntriesInsert(fs: seq<Field>, s: seq<byte>, j: Json)
    ensures AsEntries(InsertField(fs, s, j)) == Insert(AsEntries(fs), StrKey(s), AsData(j))
    decreases |fs|
  {
    var f, e := Field(s, j), Entry(StrKey(s), AsData(j));
    if fs == [] {
      assert [f][1..] == [];
    } else {
      assert ([f] + fs)[1..] == fs && ([f] + fs[1..])[1..] == fs[1..];
      assert ([fs[0]] + InsertField(fs[1..], s, j))[1..] == InsertField(fs[1..], s, j);
      assert AsEntries(fs)[1..] == AsEntries(fs[1..]);
      AsEntriesInsert(fs[1..], s, j);
    }
  }

  /** One more field. */
  lemma FieldsStep(h: Heap, t: LuaTable, n: nat, done: seq<LuaKey>, fields: seq<Field>, k: LuaKey, j: Json)
    requires Sound(h) && t in h && FieldsKept(h, t, n, done, fields)
    requires k in t && k.Known? && FieldName(k.key).Success? && Valid(h, t[k]) && Kept(h, t[k], n, j) && !t[k].VNil?
    requires k !in done && (k.key.IntKey? ==> k.key.i < 1)
    ensures FieldsKept(h, t, n, done + [k], InsertField(fields, FieldName(k.key).value, j))
  {
    hide Kept, Tree, NoLow, ContentOf, HeapFits, AsEntries, InsertField, Decimal, IsUtf8;
    var name := FieldName(k.key).value;
    var es, all := AsEntries(fields), done + [k];
    var d := AsData(j);
    KeptMeans(h, t[k], n, j);
    AsEntriesInsert(fields, name, j);
    if HeapFits(h) {
      FieldFits(h, t, k, name);
      InsertSorted(es, StrKey(name), d);
      InsertWellFormed(es, StrKey(name), d);
    }
    if NoLowKey(all) {
      assert all[|done|] == k && forall i :: 0 <= i < |done| ==> all[i] == done[i];
      assert k.key == StrKey(name);
      forall x ensures FieldKept(h, t, n, all, InsertField(fields, name, j), x) {
        assert FieldKept(h, t, n, done, fields, x);
        InsertGet(es, StrKey(name), d, x);
      }
    }
    forall i | 0 <= i < |all| ensures KeyKept(h, t, n, all[i]) {
      if i < |done| {
        assert all[i] == done[i];
      }
    }
  }

  lemma {:induction false} DigitsShort(n: nat, width: nat)
    requires n < Power10(width) && width >= 1
    ensures |Decimal(n)| <= width
    decreases width
  {
    if n >= 10 {
      DigitsShort(n / 10, width - 1);
    }
  }

  lemma NineteenDigits()
    ensures Power10(19) == 10_000_000_000_000_000_000
  {
    assert Power10(4) == 10_000;
    assert Power10(8) == 100_000_000;
    assert Power10(12) == 1_000_000_000_000;
    assert Power10(16) == 10_000_000_000_000_000;
  }

  lemma IndexNameFits(i: i64)
    ensures |FieldName(IntKey(i)).value| <= 20
  {
    hide Power10, Decimal;
    NineteenDigits();
    DigitsShort(if i < 0 then 0 - i else i, 19);
  }

  lemma FieldFits(h: Heap, t: LuaTable, k: LuaKey, name: seq<byte>)
    requires HeapFits(h) && t in h && k in t && k.Known? && FieldName(k.key) == Success(name)
    ensures ValueFits(t[k]) && |name| < U64_LIMIT
  {
    hide Decimal;
    if k.key.IntKey? {
      IndexNameFits(k.key.i);
    }
  }

  /** An object is kept, or a key lay too low in it. */
  lemma ObjectKept(h: Heap, r: nat, n: nat, keys: seq<LuaKey>, fields: seq<Field>)
    requires Sound(h) && r < |h| && n > 0 && |fields| < U64_LIMIT
    requires !HasIndex(h[r]) && Enumerates(h[r], keys) && FieldsKept(h, h[r], n - 1, keys, fields)
    ensures Kept(h, VTable(r), n, JObject(fields))
  {
    hide Tree, NoLow, ContentOf, HeapFits, FieldKept, Sorted, EntriesWellFormed;
    var t, es := h[r], AsEntries(fields);
    forall k | k in t ensures KeyKept(h, t, n - 1, k) {
      assert k in keys;
    }
    if NoLow(Tree(h, VTable(r), n)) {
      forall i | 0 <= i < |keys| && keys[i].key.IntKey? ensures keys[i].key.i >= 1 {
        ChildNoLow(h, r, n, keys[i].key);
      }
      forall k
        ensures Slot([], es, k).Nil? <==> Known(k) !in t
        ensures Known(k) in t ==> ContentOf(Slot([], es, k)) == Tree(h, t[Known(k)], n - 1)
      {
        FieldKeptMeans(h, t, n - 1, keys, fields, k);
        if Known(k) in t {
          ChildNoLow(h, r, n, k);
        }
      }
      SlotsGiveTree(h, r, n, [], es);
    }
    if HeapFits(h) {
      ObjectFits(fields);
    }
    KeptTable(h, r, n, JObject(fields));
  }

  lemma FieldKeptMeans(h: Heap, t: LuaTable, n: nat, keys: seq<LuaKey>, fields: seq<Field>, k: Key)
    requires Sound(h) && t in h && FieldKept(h, t, n, keys, fields, k)
    ensures Slot([], AsEntries(fields), k).Nil? <==> Known(k) !in keys
    ensures Known(k) in keys ==> Known(k) in t && Valid(h, t[Known(k)])
    ensures Known(k) in keys && NoLow(Tree(h, t[Known(k)], n)) ==>
              ContentOf(Slot([], AsEntries(fields), k)) == Tree(h, t[Known(k)], n)
  {
  }

  lemma ObjectFits(fields: seq<Field>)
    requires EntriesWellFormed(AsEntries(fields)) && Sorted(AsEntries(fields)) && |fields| < U64_LIMIT
    ensures WellFormed(AsData(JObject(fields)))
  {
    hide *;
    AsDataOfTables([], fields);
    TableWellFormed([], AsEntries(fields));
    NoneWellFormed();
  }

  lemma NoneWellFormed()
    ensures AllWellFormed([])
  {
  }

  lemma AsDataOfTables(items: seq<Json>, fields: seq<Field>)
    ensures AsData(JArray(items)) == Table(AsItems(items), []) && AsData(JObject(fields)) == Table([], AsEntries(fields))
    ensures Nodes(AsData(JArray(items))) == 1 + ItemsNodes(AsItems(items))
    ensures Nodes(AsData(JObject(fields))) == 1 + EntriesNodes(AsEntries(fields))
    ensures AsItems([]) == [] && AsEntries([]) == [] && ItemsNodes([]) == 0 && EntriesNodes([]) == 0
  {
  }

  lemma TableWellFormed(items: seq<LuaData>, entries: seq<Entry>)
    requires |items| < U64_LIMIT && |entries| < U64_LIMIT
    requires AllWellFormed(items) && EntriesWellFormed(entries) && Sorted(entries)
    ensures WellFormed(Table(items, entries))
  {
  }

  lemma EmptyKept(h: Heap, r: nat, n: nat)
    requires Sound(h) && r < |h| && n > 0 && h[r] == map[]
    ensures Kept(h, VTable(r), n, JObject([]))
  {
    SlotsGiveTree(h, r, n, [], []);
  }

  /** At most that many values were made. */
  ghost predicate Small(j: Json, used: int) {
    Nodes(AsData(j)) <= used
  }

  /**
   A successful conversion accepted its value, and kept it unless a key lay too low; what it made is
   no larger than what it was charged for.
   */
  lemma {:induction false} ConversionKeeps(h: Heap, vm: Vm, v: LuaValue, depth: nat, budget: nat)
    requires Sound(h) && Legal(h, vm) && Valid(h, v) && depth <= MAX_JSON_DEPTH && budget < I64_MAX
    requires LuaToJson(h, vm, v, depth, budget).Success?
    ensures var (j, b) := LuaToJson(h, vm, v, depth, budget).value;
            Kept(h, v, MAX_JSON_DEPTH - depth, j) && Small(j, budget - b)
    decreases budget, 1, 0
  {
    hide Convertible, NoLow, ContentOf, Tree, TableToJson;
    if v.VTable? {
      TableKeeps(h, vm, v.ref, depth, budget - 1);
    } else {
      ScalarKeeps(h, v, MAX_JSON_DEPTH - depth, LuaToJson(h, vm, v, depth, budget).value.0);
    }
  }

  lemma ScalarKeeps(h: Heap, v: LuaValue, n: nat, j: Json)
    requires Sound(h) && !v.VTable? && !v.VOpaque?
    requires match v
             case VNum(bits) => IsFinite(bits) && j == JFloat(bits)
             case VStr(s) => IsUtf8(s) && j == JString(s)
             case VNil => j == JNull
             case VBool(b) => j == JBool(b)
             case VInt(i) => j == JInt(i)
             case _ => true
    ensures Kept(h, v, n, j) && Small(j, 1)
  {
  }

  lemma {:induction false} TableKeeps(h: Heap, vm: Vm, r: nat, depth: nat, budget: nat)
    requires Sound(h) && Legal(h, vm) && r < |h| && depth < MAX_JSON_DEPTH && budget < I64_MAX
    requires TableToJson(h, vm, r, depth, budget).Success?
    ensures var (j, b) := TableToJson(h, vm, r, depth, budget).value;
            Kept(h, VTable(r), MAX_JSON_DEPTH - depth, j) && Small(j, 1 + budget - b)
    decreases budget, 3, 0
  {
    hide Legal, Sound, Kept, Enumerates, Classify, HasOdd, HasIndex, HasName, LargestIs, FieldsKept, AsData;
    var t, n := h[r], MAX_JSON_DEPTH - depth;
    VisitIsLegal(h, vm, r, 2 * budget);
    ClassifyIsRight(t, vm.order(r, 2 * budget));
    match Classify(vm.order(r, 2 * budget)).value
    case Empty =>
      EmptyKept(h, r, n);
      AsDataOfTables([], []);
    case Array(length) =>
      ListTableKeeps(h, vm, r, length, depth, budget);
    case Object =>
      VisitIsLegal(h, vm, r, 2 * budget + 1);
      ObjectTableKeeps(h, vm, r, vm.order(r, 2 * budget + 1), depth, budget);
  }

  lemma {:induction false} ListTableKeeps(h: Heap, vm: Vm, r: nat, length: nat, depth: nat, budget: nat)
    requires Sound(h) && Legal(h, vm) && r < |h| && depth < MAX_JSON_DEPTH && budget < I64_MAX
    requires !HasOdd(h[r]) && !HasName(h[r]) && LargestIs(h[r], length)
    requires ArrayToJson(h, vm, h[r], 1, length, depth + 1, budget, []).Success?
    ensures var (items, b) := ArrayToJson(h, vm, h[r], 1, length, depth + 1, budget, []).value;
            Kept(h, VTable(r), MAX_JSON_DEPTH - depth, JArray(items)) && Small(JArray(items), 1 + budget - b)
    decreases budget, 2, length + 2
  {
    hide Legal, Sound, Kept, HasOdd, HasName, LargestIs, AsData, ArrayToJson;
    var t, n := h[r], MAX_JSON_DEPTH - depth;
    ListKeeps(h, vm, t, 1, length, depth + 1, budget, []);
    var (items, b) := ArrayToJson(h, vm, t, 1, length, depth + 1, budget, []).value;
    ListKept(h, r, n, length, items);
    AsDataOfTables(items, []);
  }

  lemma {:induction false} ObjectTableKeeps(h: Heap, vm: Vm, r: nat, keys: seq<LuaKey>, depth: nat, budget: nat)
    requires Sound(h) && Legal(h, vm) && r < |h| && depth < MAX_JSON_DEPTH && budget < I64_MAX
    requires !HasOdd(h[r]) && !HasIndex(h[r]) && Enumerates(h[r], keys)
    requires forall i :: 0 <= i < |keys| ==> keys[i] in h[r]
    requires ObjectToJson(h, vm, h[r], keys, depth + 1, budget, []).Success?
    ensures var (fields, b) := ObjectToJson(h, vm, h[r], keys, depth + 1, budget, []).value;
            Kept(h, VTable(r), MAX_JSON_DEPTH - depth, JObject(fields)) && Small(JObject(fields), 1 + budget - b)
    decreases budget, 2, |keys| + 1
  {
    hide Legal, Sound, Kept, Enumerates, HasOdd, HasIndex, FieldsKept, AsData, ObjectToJson;
    var t, n := h[r], MAX_JSON_DEPTH - depth;
    assert [] + keys == keys;
    NoFieldsKept(h, t, n - 1);
    ObjectKeeps(h, vm, t, [], keys, depth + 1, budget, []);
    var (fields, b) := ObjectToJson(h, vm, t, keys, depth + 1, budget, []).value;
    ObjectKept(h, r, n, keys, fields);
    AsDataOfTables([], fields);
  }

  lemma NoFieldsKept(h: Heap, t: LuaTable, n: nat)
    requires Sound(h)
    ensures FieldsKept(h, t, n, [], [])
  {
  }

  lemma {:induction false} AsItemsAppend(items: seq<Json>, j: Json)
    ensures ItemsNodes(AsItems(items + [j])) == ItemsNodes(AsItems(items)) + Nodes(AsData(j))
    decreases |items|
  {
    if items == [] {
      assert items + [j] == [j] && [j][1..] == [];
    } else {
      assert (items + [j])[1..] == items[1..] + [j];
      AsItemsAppend(items[1..], j);
    }
  }

  lemma ItemsKeptMore(h: Heap, t: LuaTable, n: nat, acc: seq<Json>, j: Json)
    requires Sound(h) && ItemsKept(h, t, n, acc) && ItemKept(h, t, n, |acc| + 1, j)
    ensures ItemsKept(h, t, n, acc + [j])
  {
    hide ItemKept;
    var more := acc + [j];
    forall i | 0 <= i < |more| ensures ItemKept(h, t, n, i + 1, more[i]) {
      if i < |acc| {
        assert more[i] == acc[i];
      }
    }
  }

  lemma {:induction false} ListKeeps(h: Heap, vm: Vm, t: LuaTable, i: nat, length: nat, depth: nat, budget: nat, acc: seq<Json>)
    requires Sound(h) && Legal(h, vm) && t in h && 1 <= depth <= MAX_JSON_DEPTH && 1 <= i <= length + 1 && budget < I64_MAX
    requires ArrayToJson(h, vm, t, i, length, depth, budget, acc).Success?
    requires |acc| == i - 1 && ItemsKept(h, t, MAX_JSON_DEPTH - depth, acc)
    ensures var (items, b) := ArrayToJson(h, vm, t, i, length, depth, budget, acc).value;
            && |items| == length && ItemsKept(h, t, MAX_JSON_DEPTH - depth, items)
            && length - |acc| <= budget - b
            && ItemsNodes(AsItems(items)) <= ItemsNodes(AsItems(acc)) + budget - b
    decreases budget, 2, length + 1 - i
  {
    hide Kept, LuaToJson, Sound, Legal;
    if i <= length {
      IndexValid(h, t, i);
      ConversionKeeps(h, vm, Index(t, i), depth, budget);
      var (j, b) := LuaToJson(h, vm, Index(t, i), depth, budget).value;
      AsItemsAppend(acc, j);
      ItemsKeptMore(h, t, MAX_JSON_DEPTH - depth, acc, j);
      ListKeeps(h, vm, t, i + 1, length, depth, b, acc + [j]);
    }
  }

  lemma {:induction false} ObjectKeeps(h: Heap, vm: Vm, t: LuaTable, done: seq<LuaKey>, keys: seq<LuaKey>, depth: nat,
                                       budget: nat, acc: seq<Field>)
    requires Sound(h) && Legal(h, vm) && t in h && 1 <= depth <= MAX_JSON_DEPTH && budget < I64_MAX
    requires Enumerates(t, done + keys) && !HasOdd(t) && !HasIndex(t)
    requires forall i :: 0 <= i < |keys| ==> keys[i] in t
    requires ObjectToJson(h, vm, t, keys, depth, budget, acc).Success?
    requires FieldsKept(h, t, MAX_JSON_DEPTH - depth, done, acc)
    ensures var (fields, b) := ObjectToJson(h, vm, t, keys, depth, budget, acc).value;
            && FieldsKept(h, t, MAX_JSON_DEPTH - depth, done + keys, fields)
            && |fields| <= |acc| + budget - b
            && EntriesNodes(AsEntries(fields)) <= EntriesNodes(AsEntries(acc)) + budget - b
    decreases budget, 2, |keys|
  {
    hide Kept, LuaToJson, Sound, Legal, FieldsKept, Enumerates, InsertField;
    if keys == [] {
      assert done + keys == done;
    } else {
      var k, rest := keys[0], keys[1..];
      AppendNext(done, keys);
      assert k.Known? && !IsIndex(k);
      var name := FieldName(k.key).value;
      KeyValid(h, t, k);
      ConversionKeeps(h, vm, t[k], depth, budget);
      var (j, b) := LuaToJson(h, vm, t[k], depth, budget).value;
      FirstNotDone(t, done, keys);
      NotNil(h, t, k);
      FieldsStep(h, t, MAX_JSON_DEPTH - depth, done, acc, k, j);
      FieldAdded(acc, name, j);
      ObjectKeeps(h, vm, t, done + [k], rest, depth, b, InsertField(acc, name, j));
    }
  }

  lemma NotNil(h: Heap, t: LuaTable, k: LuaKey)
    requires Sound(h) && t in h && k in t
    ensures !t[k].VNil?
  {
  }

  lemma FieldAdded(fs: seq<Field>, s: seq<byte>, j: Json)
    ensures |InsertField(fs, s, j)| <= |fs| + 1
    ensures EntriesNodes(AsEntries(InsertField(fs, s, j))) <= EntriesNodes(AsEntries(fs)) + Nodes(AsData(j))
  {
    AsEntriesInsert(fs, s, j);
    InsertBounded(AsEntries(fs), StrKey(s), AsData(j));
    InsertCount(AsEntries(fs), StrKey(s), AsData(j));
  }

  lemma {:induction false} InsertCount(es: seq<Entry>, k: Key, v: LuaData)
    ensures |Insert(es, k, v)| <= |es| + 1
    decreases |es|
  {
    if es != [] {
      InsertCount(es[1..], k, v);
    }
  }

  // ---------------------------------------------------------------- theorems

  /**
   There and back. A value that was converted unfolds to a tree, and what it is converted back to has
   the same tree if and only if no table in it has an integer key below 1.
   */
  lemma JsonRoundTrip(h: Heap, vm: Vm, v: LuaValue, other: Heap)
    requires Sound(h) && Legal(h, vm) && Valid(h, v) && HeapFits(h) && ValueFits(v)
    requires LuaToJson(h, vm, v, 0, MAX_JSON_NODES).Success?
    ensures var j := LuaToJson(h, vm, v, 0, MAX_JSON_NODES).value.0;
            var c := Tree(h, v, MAX_JSON_DEPTH);
            var (h', v') := ToLua(other, AsData(j));
            && Unfolds(h, 0, v, c)
            && (NoLow(c) <==> Unfolds(h', |other|, v', c))
  {
    hide Tree, NoLow, ContentOf, Kept, AsData, LuaToJson, ToLua, Unfolds;
    ConversionKeeps(h, vm, v, 0, MAX_JSON_NODES);
    KeptRoundTrip(h, v, LuaToJson(h, vm, v, 0, MAX_JSON_NODES).value.0, other);
  }

  lemma KeptRoundTrip(h: Heap, v: LuaValue, j: Json, other: Heap)
    requires Sound(h) && Valid(h, v) && HeapFits(h) && ValueFits(v)
    requires Kept(h, v, MAX_JSON_DEPTH, j) && Small(j, MAX_JSON_NODES)
    ensures var c := Tree(h, v, MAX_JSON_DEPTH);
            var (h', v') := ToLua(other, AsData(j));
            Unfolds(h, 0, v, c) && (NoLow(c) <==> Unfolds(h', |other|, v', c))
  {
    hide Tree, NoLow, ContentOf, Convertible, Kept, AsData, ToLua, Unfolds, HeapFits, WellFormed, Sound;
    var c, d := Tree(h, v, MAX_JSON_DEPTH), AsData(j);
    var (h', v') := ToLua(other, d);
    KeptMeans(h, v, MAX_JSON_DEPTH, j);
    ConvertibleUnfolds(h, v, MAX_JSON_DEPTH);
    ToLuaUnfolds(other, d);
    RebuiltHasNoLow(j);
    if Unfolds(h', |other|, v', c) {
      UnfoldsOnce(h', v', |other|, c, |other|, ContentOf(d));
    }
  }

  /** A VM whose one table is reported with this one key and the border 0. */
  function OneKeyVm(i: i64): Vm {
    Vm((r, visit) => 0, (r, visit) => [Known(IntKey(i))])
  }

  /** The name an integer key below 1 gets: its decimal text. */
  function LowName(i: i64): seq<byte>
    requires i < 1
  {
    if i < 0 then [45] + Decimal(0 - i) else [48]
  }

  /** The table `{[i] = 1}`, for any `i` below 1, is converted to an object with that name, and comes back so: with another content. */
  lemma LowKeyBecomesAName(i: i64, other: Heap)
    requires i < 1
    ensures var (h, v, vm) := ([map[Known(IntKey(i)) := VInt(1)]], VTable(0), OneKeyVm(i));
            && Sound(h) && Legal(h, vm) && HeapFits(h)
            && LuaToJson(h, vm, v, 0, MAX_JSON_NODES) == Success((JObject([Field(LowName(i), JInt(1))]), MAX_JSON_NODES - 2))
            && var (h', v') := ToLua(other, AsData(JObject([Field(LowName(i), JInt(1))])));
            && Unfolds(h, 0, v, CTable(map[IntKey(i) := CInt(1)]))
            && Unfolds(h', |other|, v', CTable(map[StrKey(LowName(i)) := CInt(1)]))
  {
    var t: LuaTable := map[Known(IntKey(i)) := VInt(1)];
    var h: Heap := [t];
    LowIsConverted(h, i);
    LowFits(h, i);
    LowComesBack(i, other);
  }

  lemma LowFits(h: Heap, i: i64)
    requires h == [map[Known(IntKey(i)) := VInt(1)]]
    ensures Sound(h) && HeapFits(h) && Unfolds(h, 0, VTable(0), CTable(map[IntKey(i) := CInt(1)]))
  {
  }

  lemma LowIsConverted(h: Heap, i: i64)
    requires h == [map[Known(IntKey(i)) := VInt(1)]] && i < 1
    ensures Sound(h) && Legal(h, OneKeyVm(i))
    ensures LuaToJson(h, OneKeyVm(i), VTable(0), 0, MAX_JSON_NODES)
         == Success((JObject([Field(LowName(i), JInt(1))]), MAX_JSON_NODES - 2))
  {
    var vm, t, keys := OneKeyVm(i), h[0], [Known(IntKey(i))];
    assert Enumerates(t, keys);
    assert Legal(h, vm);
    assert keys[1..] == [];
    assert TallyKeys(keys, Tally(0, 0, 0)) == TallyKeys([], Tally(0, 0, 1)) == Success(Tally(0, 0, 1));
    assert Classify(keys) == Success(Object);
    var budget := MAX_JSON_NODES - 1;
    assert FieldName(IntKey(i)) == Success(LowName(i));
    assert LuaToJson(h, vm, VInt(1), 1, budget) == Success((JInt(1), budget - 1));
    assert ObjectToJson(h, vm, t, [], 1, budget - 1, [Field(LowName(i), JInt(1))])
        == Success(([Field(LowName(i), JInt(1))], budget - 1));
    assert ObjectToJson(h, vm, t, keys, 1, budget, []) == Success(([Field(LowName(i), JInt(1))], budget - 1));
    assert TableToJson(h, vm, 0, 0, budget) == Success((JObject([Field(LowName(i), JInt(1))]), budget - 1));
  }

  lemma LowComesBack(i: i64, other: Heap)
    requires i < 1
    ensures var (h', v') := ToLua(other, AsData(JObject([Field(LowName(i), JInt(1))])));
            Unfolds(h', |other|, v', CTable(map[StrKey(LowName(i)) := CInt(1)]))
  {
    hide LowName, Fields, Unfolds;
    var name := LowName(i);
    var e := Entry(StrKey(name), Int(1));
    var d := Table([], [e]);
    LowNameIs(i);
    IndexNameFits(i);
    OneFieldAsData(Field(name, JInt(1)));
    assert [] + [e] == [e] && [e][1..] == [];
    NoFields();
    FieldsEntry([], [], e);
    assert ContentOf(d) == CTable(map[StrKey(name) := CInt(1)]);
    assert Nodes(d) == 2 by { OneEntryNodes(e); }
    ToLuaUnfolds(other, d);
  }

  lemma OneFieldAsData(f: Field)
    ensures AsData(JObject([f])) == Table([], [Entry(StrKey(f.key), AsData(f.value))])
  {
    assert [f][1..] == [];
    assert AsEntries([f]) == [AsEntry(f)] + AsEntries([]);
  }

  lemma LowNameIs(i: i64)
    requires i < 1
    ensures FieldName(IntKey(i)) == Success(LowName(i))
  {
  }

  lemma OneEntryNodes(e: Entry)
    requires e.value == Int(1)
    ensures Nodes(Table([], [e])) == 2
  {
    assert [e][1..] == [];
    assert EntriesNodes([e]) == EntryNodes(e) + EntriesNodes([]);
  }

  /** What is reached from an accepted value is accepted. */
  lemma {:induction false} ReachedIsConvertible(h: Heap, v: LuaValue, path: seq<Key>, n: nat)
    requires Sound(h) && Valid(h, v) && Convertible(h, v, n)
    requires Follow(h, v, path).Some? && Follow(h, v, path).value.VTable?
    ensures |path| < n && Valid(h, Follow(h, v, path).value) && Convertible(h, Follow(h, v, path).value, n - |path|)
    decreases |path|
  {
    hide HasOdd, HasIndex, HasName, FieldName, IsUtf8, IsFinite;
    if path != [] {
      ReachedIsConvertible(h, h[v.ref][Known(path[0])], path[1..], n - 1);
    }
  }

  /**
   A value is refused if a table with both list indices and other keys can be reached from it, or a
   table with a key JSON has no name for, or a table that contains itself.
   */
  lemma AmbiguousTablesAreRefused(h: Heap, vm: Vm, v: LuaValue, path: seq<Key>)
    requires Sound(h) && Legal(h, vm) && Valid(h, v)
    requires Follow(h, v, path).Some? && Follow(h, v, path).value.VTable? && Follow(h, v, path).value.ref < |h|
    requires var t := h[Follow(h, v, path).value.ref]; HasOdd(t) || (HasIndex(t) && HasName(t))
    ensures LuaToJson(h, vm, v, 0, MAX_JSON_NODES).Failure?
  {
    hide HasOdd, HasIndex, HasName;
    if LuaToJson(h, vm, v, 0, MAX_JSON_NODES).Success? {
      ConversionKeeps(h, vm, v, 0, MAX_JSON_NODES);
      ReachedIsConvertible(h, v, path, MAX_JSON_DEPTH);
    }
  }

  lemma CyclesAreRefused(h: Heap, vm: Vm, v: LuaValue, path: seq<Key>, loop: seq<Key>)
    requires Sound(h) && Legal(h, vm) && Valid(h, v)
    requires Follow(h, v, path).Some? && Follow(h, v, path).value.VTable?
    requires loop != [] && Follow(h, Follow(h, v, path).value, loop) == Follow(h, v, path)
    ensures LuaToJson(h, vm, v, 0, MAX_JSON_NODES).Failure?
  {
    hide Sound, Legal, LuaToJson, Follow, Convertible;
    if LuaToJson(h, vm, v, 0, MAX_JSON_NODES).Success? {
      ConversionKeeps(h, vm, v, 0, MAX_JSON_NODES);
      ReachedIsConvertible(h, v, path, MAX_JSON_DEPTH);
      LoopIsNotConvertible(h, Follow(h, v, path).value, loop, MAX_JSON_DEPTH - |path|);
    }
  }

  lemma {:induction false} LoopIsNotConvertible(h: Heap, v: LuaValue, loop: seq<Key>, n: nat)
    requires Sound(h) && Valid(h, v) && v.VTable? && loop != [] && Follow(h, v, loop) == Some(v)
    ensures !Convertible(h, v, n)
    decreases n
  {
    if Convertible(h, v, n) {
      ReachedIsConvertible(h, v, loop, n);
      LoopIsNotConvertible(h, v, loop, n - |loop|);
    }
  }

  // ------------------------------------------------------------------- how many

  ghost function Largest(t: LuaTable): nat {
    if exists n: nat :: LargestIs(t, n) then var n: nat :| LargestIs(t, n); n else 0
  }

  /** How many values there are, `n` levels of tables deep; a list has one for each index up to its largest, hole or not. */
  ghost function Values(h: Heap, v: LuaValue, n: nat): nat
    requires Sound(h) && Valid(h, v)
    decreases n, 0, 0
  {
    if v.VTable? && n > 0 then 1 + TableValues(h, h[v.ref], n - 1) else 1
  }

  ghost function TableValues(h: Heap, t: LuaTable, n: nat): nat
    requires Sound(h) && t in h
    decreases n, 2, 0
  {
    if HasIndex(t) then ListValues(h, t, 1, Largest(t), n) else FieldValues(h, t, SomeOrder(t), n)
  }

  ghost function ListValues(h: Heap, t: LuaTable, i: nat, m: nat, n: nat): nat
    requires Sound(h) && t in h
    decreases n, 1, m + 1 - i
  {
    if i > m then 0
    else
      IndexValid(h, t, i);
      Values(h, Index(t, i), n) + ListValues(h, t, i + 1, m, n)
  }

  ghost function FieldValues(h: Heap, t: LuaTable, keys: seq<LuaKey>, n: nat): nat
    requires Sound(h) && t in h && forall i :: 0 <= i < |keys| ==> keys[i] in t
    decreases n, 1, |keys|
  {
    if keys == [] then 0
    else
      KeyValid(h, t, keys[0]);
      Values(h, t[keys[0]], n) + FieldValues(h, t, keys[1..], n)
  }

  lemma {:induction false} FieldValuesWithout(h: Heap, t: LuaTable, keys: seq<LuaKey>, i: nat, n: nat)
    requires Sound(h) && t in h && (forall j :: 0 <= j < |keys| ==> keys[j] in t) && i < |keys|
    ensures Valid(h, t[keys[i]])
    ensures FieldValues(h, t, keys, n) == Values(h, t[keys[i]], n) + FieldValues(h, t, keys[..i] + keys[i + 1..], n)
    decreases i
  {
    hide Sound, Values;
    KeyValid(h, t, keys[i]);
    KeyValid(h, t, keys[0]);
    var less := keys[..i] + keys[i + 1..];
    if i == 0 {
      assert less == keys[1..];
    } else {
      FieldValuesWithout(h, t, keys[1..], i - 1, n);
      assert less[0] == keys[0] && less[1..] == keys[1..][..i - 1] + keys[1..][i..];
    }
  }

  /** Two lists of the same keys, each once. */
  ghost predicate SameKeys(keys: seq<LuaKey>, keys': seq<LuaKey>) {
    && (forall k :: k in keys <==> k in keys')
    && (forall i, j :: 0 <= i < j < |keys| ==> keys[i] != keys[j])
    && (forall i, j :: 0 <= i < j < |keys'| ==> keys'[i] != keys'[j])
  }

  lemma SameKeysWithout(keys: seq<LuaKey>, keys': seq<LuaKey>) returns (i: nat)
    requires SameKeys(keys, keys') && keys != []
    ensures i < |keys'| && keys'[i] == keys[0] && SameKeys(keys[1..], keys'[..i] + keys'[i + 1..])
  {
    assert keys[0] in keys';
    i :| 0 <= i < |keys'| && keys'[i] == keys[0];
    var rest, less := keys[1..], keys'[..i] + keys'[i + 1..];
    forall k ensures k in rest <==> k in less {
      assert k in keys <==> k == keys[0] || k in rest;
      assert k in keys' <==> k == keys[0] || k in less;
    }
  }

  /** The number does not depend on the order of the keys. */
  lemma {:induction false} FieldValuesAnyOrder(h: Heap, t: LuaTable, keys: seq<LuaKey>, keys': seq<LuaKey>, n: nat)
    requires Sound(h) && t in h && SameKeys(keys, keys') && (forall i :: 0 <= i < |keys| ==> keys[i] in t)
    ensures (forall i :: 0 <= i < |keys'| ==> keys'[i] in t)
    ensures FieldValues(h, t, keys, n) == FieldValues(h, t, keys', n)
    decreases |keys|
  {
    hide Sound, Values;
    forall i | 0 <= i < |keys'| ensures keys'[i] in t {
      assert keys'[i] in keys;
    }
    if keys == [] {
      SomeKey(keys');
    } else {
      var i := SameKeysWithout(keys, keys');
      FieldValuesWithout(h, t, keys', i, n);
      FieldValuesAnyOrder(h, t, keys[1..], keys'[..i] + keys'[i + 1..], n);
    }
  }

  lemma LargestIsOne(t: LuaTable, m: nat)
    requires LargestIs(t, m) && m >= 1
    ensures Largest(t) == m && HasIndex(t)
  {
    assert IsIndex(Known(IntKey(m)));
    var n := Largest(t);
    assert LargestIs(t, n);
    assert m <= n && IsIndex(Known(IntKey(n)));
  }

  lemma LargestIsAnIndex(t: LuaTable, m: nat)
    requires LargestIs(t, m) && HasIndex(t)
    ensures m >= 1
  {
    var k :| k in t && IsIndex(k);
  }

  /** Enough budget for that many values, and that much less is left; or it is refused for its number of values. */
  predicate Charged<T>(r: Rendered<T>, cost: nat, budget: nat) {
    if cost <= budget then r.Success? && r.value.1 == budget - cost else r == Failure(TooMany)
  }

  /** What is acceptable is converted exactly if the budget covers its values, and is charged for those. */
  lemma {:induction false} ConvertibleIsConverted(h: Heap, vm: Vm, v: LuaValue, depth: nat, budget: nat)
    requires Sound(h) && Legal(h, vm) && Valid(h, v) && depth <= MAX_JSON_DEPTH && Convertible(h, v, MAX_JSON_DEPTH - depth)
    ensures Charged(LuaToJson(h, vm, v, depth, budget), Values(h, v, MAX_JSON_DEPTH - depth), budget)
    decreases budget, 1, 0
  {
    hide TableToJson, Sound, Legal, HasOdd, HasIndex, HasName, TableValues;
    if budget > 0 && v.VTable? {
      TableIsConverted(h, vm, v.ref, depth, budget - 1);
    }
  }

  lemma {:induction false} TableIsConverted(h: Heap, vm: Vm, r: nat, depth: nat, budget: nat)
    requires Sound(h) && Legal(h, vm) && r < |h| && depth < MAX_JSON_DEPTH
    requires Convertible(h, VTable(r), MAX_JSON_DEPTH - depth)
    ensures h[r] in h
    ensures Charged(TableToJson(h, vm, r, depth, budget), TableValues(h, h[r], MAX_JSON_DEPTH - depth - 1), budget)
    decreases budget, 3, 0
  {
    hide Sound, Legal, HasOdd, HasIndex, HasName, Classify, Enumerates, ArrayToJson, ObjectToJson, Convertible, ChildrenConvertible, LargestIs, Largest, ListValues, FieldValues, SameKeys;
    var t, n := h[r], MAX_JSON_DEPTH - depth - 1;
    ConvertibleChildren(h, r, n + 1);
    VisitIsLegal(h, vm, r, 2 * budget);
    VisitIsLegal(h, vm, r, 2 * budget + 1);
    ClassifyIsRight(t, vm.order(r, 2 * budget));
    match Classify(vm.order(r, 2 * budget)).value
    case Empty => EmptyHasNoValues(h, t, n);
    case Array(length) =>
      LargestIsAnIndex(t, length);
      LargestIsOne(t, length);
      ListIsConverted(h, vm, t, 1, length, depth + 1, budget, []);
    case Object =>
      var keys := vm.order(r, 2 * budget + 1);
      ObjectIsConverted(h, vm, t, keys, depth + 1, budget, []);
      SomeOrderKeys(t, keys);
      FieldValuesAnyOrder(h, t, keys, SomeOrder(t), n);
  }

  lemma SomeKey(keys: seq<LuaKey>)
    ensures keys == [] || exists k :: k in keys
  {
    if keys != [] {
      assert keys[0] in keys;
    }
  }

  lemma SomeOrderKeys(t: LuaTable, keys: seq<LuaKey>)
    requires Enumerates(t, keys)
    ensures SameKeys(keys, SomeOrder(t))
  {
  }

  lemma EmptyHasNoValues(h: Heap, t: LuaTable, n: nat)
    requires Sound(h) && t in h && t == map[]
    ensures TableValues(h, t, n) == 0
  {
    SomeKey(SomeOrder(t));
  }

  lemma ConvertibleChildren(h: Heap, r: nat, n: nat)
    requires Sound(h) && r < |h| && n > 0 && Convertible(h, VTable(r), n)
    ensures h[r] in h && ChildrenConvertible(h, h[r], n - 1)
    ensures !HasOdd(h[r]) && !(HasIndex(h[r]) && HasName(h[r]))
  {
  }

  ghost predicate ChildrenConvertible(h: Heap, t: LuaTable, n: nat)
    requires Sound(h) && t in h
  {
    (forall k :: k in t ==> k.Known?) &&
    forall k :: k in t ==> Nameable(k.key) && Valid(h, t[k]) && Convertible(h, t[k], n)
  }

  lemma {:induction false} ListIsConverted(
    h: Heap, vm: Vm, t: LuaTable, i: nat, length: nat, depth: nat, budget: nat, acc: seq<Json>)
    requires Sound(h) && Legal(h, vm) && t in h && depth <= MAX_JSON_DEPTH
    requires ChildrenConvertible(h, t, MAX_JSON_DEPTH - depth)
    ensures Charged(ArrayToJson(h, vm, t, i, length, depth, budget, acc), ListValues(h, t, i, length, MAX_JSON_DEPTH - depth), budget)
    decreases budget, 2, length + 1 - i
  {
    hide Sound, Legal, LuaToJson, Values;
    if i <= length {
      IndexValid(h, t, i);
      ConvertibleIsConverted(h, vm, Index(t, i), depth, budget);
      var r := LuaToJson(h, vm, Index(t, i), depth, budget);
      if r.Success? {
        ListIsConverted(h, vm, t, i + 1, length, depth, r.value.1, acc + [r.value.0]);
      }
    }
  }

  lemma {:induction false} ObjectIsConverted(
    h: Heap, vm: Vm, t: LuaTable, keys: seq<LuaKey>, depth: nat, budget: nat, acc: seq<Field>)
    requires Sound(h) && Legal(h, vm) && t in h && depth <= MAX_JSON_DEPTH
    requires ChildrenConvertible(h, t, MAX_JSON_DEPTH - depth)
    requires forall i :: 0 <= i < |keys| ==> keys[i] in t
    ensures Charged(ObjectToJson(h, vm, t, keys, depth, budget, acc), FieldValues(h, t, keys, MAX_JSON_DEPTH - depth), budget)
    decreases budget, 2, |keys|
  {
    hide Sound, Legal, LuaToJson, Values;
    if keys != [] {
      var k, rest := keys[0], keys[1..];
      KeyValid(h, t, k);
      ConvertibleIsConverted(h, vm, t[k], depth, budget);
      var r := LuaToJson(h, vm, t[k], depth, budget);
      if r.Success? {
        ObjectIsConverted(h, vm, t, rest, depth, r.value.1, InsertField(acc, FieldName(k.key).value, r.value.0));
      }
    }
  }

  /**
   For every legal VM: a value is converted exactly if JSON can hold it within the depth limit and it has
   no more values than the budget; it is charged for exactly those.
   */
  lemma ConvertedExactly(h: Heap, vm: Vm, v: LuaValue, budget: nat)
    requires Sound(h) && Legal(h, vm) && Valid(h, v) && budget < I64_MAX
    ensures var r := LuaToJson(h, vm, v, 0, budget);
            && (r.Success? <==> Convertible(h, v, MAX_JSON_DEPTH) && Values(h, v, MAX_JSON_DEPTH) <= budget)
            && (r.Success? ==> r.value.1 == budget - Values(h, v, MAX_JSON_DEPTH))
            && (Convertible(h, v, MAX_JSON_DEPTH) && r.Failure? ==> r.error == TooMany)
  {
    hide LuaToJson, Sound, Legal, Values, Convertible;
    if LuaToJson(h, vm, v, 0, budget).Success? {
      ConversionKeeps(h, vm, v, 0, budget);
    }
    if Convertible(h, v, MAX_JSON_DEPTH) {
      ConvertibleIsConverted(h, vm, v, 0, budget);
    }
  }
}
