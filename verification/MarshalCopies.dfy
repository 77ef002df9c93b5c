/**
 One value may have several faithful copies, because a table may have several borders. They agree in
 content; this module says when there is only one.
 */
module MarshalCopies {
  import opened Wrappers
  import opened Bytes
  import opened Wire
  import opened WireLimits
  import opened LuaHeap
  import opened Marshal
  import opened MarshalContent
  import opened MarshalRebuild

  // ------------------------------------------------------- machine lengths

  predicate ValueFits(v: LuaValue) {
    v.VStr? ==> |v.s| < U64_LIMIT
  }

  ghost predicate TableFits(t: LuaTable) {
    forall k :: k in t ==> ValueFits(t[k]) && (k.Known? ==> KeyFits(k.key))
  }

  /** Every string in the heap has a machine length. */
  ghost predicate HeapFits(h: Heap) {
    forall r :: 0 <= r < |h| ==> TableFits(h[r])
  }

  lemma {:induction false} GetSorted(entries: seq<Entry>, j: nat)
    requires Sorted(entries) && j < |entries|
    ensures Get(entries, entries[j].key) == Some(entries[j].value)
    decreases j
  {
    if j > 0 {
      KeyOrder(entries[0].key, entries[j].key);
      GetSorted(entries[1..], j - 1);
    }
  }

  lemma {:induction false} ItemNodes(items: seq<LuaData>, i: nat)
    requires i < |items|
    ensures Nodes(items[i]) <= ItemsNodes(items)
    decreases i
  {
    if i > 0 {
      ItemNodes(items[1..], i - 1);
    }
  }

  lemma {:induction false} EntryNodesBelow(entries: seq<Entry>, j: nat)
    requires j < |entries|
    ensures Nodes(entries[j].value) <= EntriesNodes(entries)
    decreases j
  {
    if j > 0 {
      EntryNodesBelow(entries[1..], j - 1);
    }
  }

  lemma {:induction false} EntriesCount(entries: seq<Entry>)
    ensures |entries| <= EntriesNodes(entries)
    decreases |entries|
  {
    if entries != [] {
      EntriesCount(entries[1..]);
    }
  }

  lemma ItemIsSlot(items: seq<LuaData>, entries: seq<Entry>, i: nat)
    requires i < |items| <= I64_MAX && Apart(items, entries)
    ensures Slot(items, entries, IntKey(i + 1)) == items[i]
  {
  }

  /** A copy of a value from such a heap can be put on the wire. */
  lemma {:induction false} CopyFits(h: Heap, v: LuaValue, d: LuaData)
    requires HeapFits(h) && ValueFits(v) && Reads(h, v, d) && Nodes(d) < U64_LIMIT
    ensures WellFormed(d)
    decreases d
  {
    if v.VTable? {
      var t, items, entries := h[v.ref], d.items, d.entries;
      ItemsCount(items);
      EntriesCount(entries);
      forall i | 0 <= i < |items| ensures WellFormed(items[i]) {
        ItemIsSlot(items, entries, i);
        ItemNodes(items, i);
        assert Reads(h, Lookup(t, IntKey(i + 1)), items[i]);
        CopyFits(h, Lookup(t, IntKey(i + 1)), items[i]);
      }
      forall j | 0 <= j < |entries| ensures KeyFits(entries[j].key) && WellFormed(entries[j].value) {
        var e := entries[j];
        GetSorted(entries, j);
        EntryNodesBelow(entries, j);
        assert Reads(h, Lookup(t, e.key), Slot(items, entries, e.key));
        CopyFits(h, Lookup(t, e.key), e.value);
      }
    }
  }

  // ------------------------------------------------------------ one border only

  /** No table of the copy has a nil in it, or a positive index outside its list part. */
  ghost predicate Tight(d: LuaData)
    decreases d
  {
    d.Table? ==>
      && (forall i :: 0 <= i < |d.items| ==> !d.items[i].Nil? && Tight(d.items[i]))
      && (forall j :: 0 <= j < |d.entries| ==> NoIndex(d.entries[j].key) && !d.entries[j].value.Nil? && Tight(d.entries[j].value))
  }

  predicate NoIndex(k: Key) {
    k.IntKey? ==> k.i < 1
  }

  lemma {:induction false} GetIndex(entries: seq<Entry>, k: Key) returns (j: nat)
    requires Get(entries, k).Some?
    ensures j < |entries| && entries[j] == Entry(k, Get(entries, k).value)
    decreases |entries|
  {
    if entries[0].key == k {
      j := 0;
    } else {
      j := GetIndex(entries[1..], k);
      j := j + 1;
    }
  }

  /** Ordered lists of entries that bind alike are equal. */
  lemma {:induction false} SameBindings(es: seq<Entry>, fs: seq<Entry>)
    requires Sorted(es) && Sorted(fs) && forall k :: Get(es, k) == Get(fs, k)
    ensures es == fs
    decreases |es|
  {
    if fs != [] {
      GetSorted(fs, 0);
      assert Get(es, fs[0].key).Some?;
    }
    if es != [] {
      assert Get(es, es[0].key) == Get(fs, es[0].key);
      var j := GetIndex(fs, es[0].key);
      assert Get(es, fs[0].key) == Get(fs, fs[0].key);
      var i := GetIndex(es, fs[0].key);
      KeyOrder(es[0].key, fs[0].key);
      assert es[0] == fs[0];
      forall k ensures Get(es[1..], k) == Get(fs[1..], k) {
        assert Get(es, k) == Get(fs, k);
        NotInTail(es, k);
        NotInTail(fs, k);
      }
      SameBindings(es[1..], fs[1..]);
    }
  }

  lemma NotInTail(es: seq<Entry>, k: Key)
    requires Sorted(es) && es != []
    ensures k == es[0].key ==> Get(es[1..], k).None?
  {
    if k == es[0].key && Get(es[1..], k).Some? {
      var j := GetIndex(es[1..], k);
      KeyOrder(es[0].key, es[j + 1].key);
      assert false;
    }
  }

  lemma TightSlot(items: seq<LuaData>, entries: seq<Entry>, k: Key)
    requires Tight(Table(items, entries))
    ensures Tight(Slot(items, entries, k))
  {
    if Get(entries, k).Some? {
      var j := GetIndex(entries, k);
    }
  }

  lemma TightIndex(h: Heap, r: nat, d: LuaData, i: nat)
    requires Reads(h, VTable(r), d) && Tight(d) && 1 <= i <= I64_MAX
    ensures Index(h[r], i).VNil? <==> i > |d.items|
  {
    var k := IntKey(i);
    assert Reads(h, Lookup(h[r], k), Slot(d.items, d.entries, k));
    if i <= |d.items| {
      ItemIsSlot(d.items, d.entries, i - 1);
    } else if Get(d.entries, k).Some? {
      var j := GetIndex(d.entries, k);
    }
  }

  /** A tight copy of a table fixes where its list part ends. */
  lemma TightBorder(h: Heap, r: nat, d: LuaData, n: nat)
    requires Reads(h, VTable(r), d) && Tight(d) && IsBorder(h[r], n)
    ensures n == |d.items|
  {
    if n > 0 {
      TightIndex(h, r, d, n);
    }
    if n < I64_MAX {
      TightIndex(h, r, d, n + 1);
    }
  }

  /** A tight copy is the only one. */
  lemma {:induction false} TightIsOnly(h: Heap, v: LuaValue, d: LuaData, d': LuaData)
    requires Reads(h, v, d) && Reads(h, v, d') && Tight(d)
    ensures d' == d
    decreases Weight(d)
  {
    if v.VTable? {
      var t := h[v.ref];
      TightBorder(h, v.ref, d, |d'.items|);
      forall k ensures Slot(d'.items, d'.entries, k) == Slot(d.items, d.entries, k) {
        TightSlot(d.items, d.entries, k);
        assert Reads(h, Lookup(t, k), Slot(d.items, d.entries, k));
        assert Reads(h, Lookup(t, k), Slot(d'.items, d'.entries, k));
        TightIsOnly(h, Lookup(t, k), Slot(d.items, d.entries, k), Slot(d'.items, d'.entries, k));
      }
      SameSlots(d.items, d.entries, d'.items, d'.entries);
    }
  }

  lemma SameSlots(items: seq<LuaData>, entries: seq<Entry>, items': seq<LuaData>, entries': seq<Entry>)
    requires |items| == |items'| <= I64_MAX && Apart(items, entries) && Apart(items', entries')
    requires forall k :: Slot(items', entries', k) == Slot(items, entries, k)
    ensures items' == items && entries' == entries
  {
    forall i | 0 <= i < |items| ensures items'[i] == items[i] {
      ItemIsSlot(items, entries, i);
      ItemIsSlot(items', entries', i);
    }
    forall k ensures Get(entries, k) == Get(entries', k) {
      assert Slot(items', entries', k) == Slot(items, entries, k);
    }
    SameBindings(entries, entries');
  }

  // ------------------------------------------------------ cut somewhere else

  /** The entries of a table whose list part ends at `n`, taken from the slots of a copy. */
  function Rest(items: seq<LuaData>, entries: seq<Entry>, keys: seq<Key>, n: nat): seq<Entry> {
    if keys == [] then []
    else
      var es := Rest(items, entries, keys[1..], n);
      var d := Slot(items, entries, keys[0]);
      if Outside(keys[0], n) && !d.Nil? then Insert(es, keys[0], d) else es
  }

  function RestAt(items: seq<LuaData>, entries: seq<Entry>, keys: seq<Key>, n: nat, k: Key): Option<LuaData> {
    var d := Slot(items, entries, k);
    if k in keys && Outside(k, n) && !d.Nil? then Some(d) else None
  }

  lemma {:induction false} RestBindings(items: seq<LuaData>, entries: seq<Entry>, keys: seq<Key>, n: nat)
    ensures Sorted(Rest(items, entries, keys, n))
    ensures forall k :: Get(Rest(items, entries, keys, n), k) == RestAt(items, entries, keys, n, k)
    decreases |keys|
  {
    if keys != [] {
      var es, x := Rest(items, entries, keys[1..], n), keys[0];
      var d := Slot(items, entries, x);
      RestBindings(items, entries, keys[1..], n);
      if Outside(x, n) && !d.Nil? {
        InsertSorted(es, x, d);
        forall k ensures Get(Insert(es, x, d), k) == if k == x then Some(d) else Get(es, k) {
          InsertGet(es, x, d, k);
        }
      }
    }
  }

  /** All the keys a copy has a slot for. */
  function KeyList(items: seq<LuaData>, entries: seq<Entry>): seq<Key>
    requires |items| <= I64_MAX
  {
    seq(|items|, i requires 0 <= i < |items| => IntKey(i + 1)) + seq(|entries|, j requires 0 <= j < |entries| => entries[j].key)
  }

  lemma KeyListComplete(items: seq<LuaData>, entries: seq<Entry>, k: Key)
    requires |items| <= I64_MAX
    ensures !Slot(items, entries, k).Nil? ==> k in KeyList(items, entries)
  {
    var keys := KeyList(items, entries);
    if Get(entries, k).Some? {
      var j := GetIndex(entries, k);
      assert keys[|items| + j] == k;
    } else if k.IntKey? && 1 <= k.i <= |items| {
      assert keys[k.i - 1] == k;
    }
  }

  /** The same slots, with the list part ending at `n`. */
  function Recut(items: seq<LuaData>, entries: seq<Entry>, n: nat): LuaData
    requires |items| <= I64_MAX && n <= I64_MAX
  {
    Table(seq(n, i requires 0 <= i < n => Slot(items, entries, IntKey(i + 1))),
          Rest(items, entries, KeyList(items, entries), n))
  }

  lemma RecutSlots(items: seq<LuaData>, entries: seq<Entry>, n: nat, k: Key)
    requires |items| <= I64_MAX && n <= I64_MAX
    ensures Slot(Recut(items, entries, n).items, Recut(items, entries, n).entries, k) == Slot(items, entries, k)
  {
    RestBindings(items, entries, KeyList(items, entries), n);
    KeyListComplete(items, entries, k);
  }

  /** Every border of the table gives a copy. */
  lemma RecutReads(h: Heap, r: nat, d: LuaData, n: nat)
    requires Reads(h, VTable(r), d) && IsBorder(h[r], n)
    ensures Reads(h, VTable(r), Recut(d.items, d.entries, n))
  {
    var d' := Recut(d.items, d.entries, n);
    RestBindings(d.items, d.entries, KeyList(d.items, d.entries), n);
    forall k ensures Reads(h, Lookup(h[r], k), Slot(d'.items, d'.entries, k)) {
      RecutSlots(d.items, d.entries, n, k);
      assert Reads(h, Lookup(h[r], k), Slot(d.items, d.entries, k));
    }
  }

  /** The first hole of the list part is a border. */
  lemma HoleIsBorder(h: Heap, r: nat, d: LuaData, i: nat) returns (n: nat)
    requires Reads(h, VTable(r), d) && i < |d.items| && d.items[i].Nil?
    ensures n < |d.items| && IsBorder(h[r], n)
  {
    n := 0;
    while !d.items[n].Nil?
      invariant n <= i && forall m :: 0 <= m < n ==> !d.items[m].Nil?
      decreases i - n
    {
      n := n + 1;
    }
    ItemIsSlot(d.items, d.entries, n);
    assert Reads(h, Lookup(h[r], IntKey(n + 1)), Slot(d.items, d.entries, IntKey(n + 1)));
    if n > 0 {
      ItemIsSlot(d.items, d.entries, n - 1);
      assert Reads(h, Lookup(h[r], IntKey(n)), Slot(d.items, d.entries, IntKey(n)));
    }
  }

  lemma {:induction false} LargestIndex(entries: seq<Entry>, j: nat) returns (m: nat)
    requires j < |entries| && !NoIndex(entries[j].key)
    ensures m < |entries| && !NoIndex(entries[m].key)
    ensures forall i :: 0 <= i < |entries| && !NoIndex(entries[i].key) ==> entries[i].key.i <= entries[m].key.i
  {
    m := j;
    var k := 0;
    while k < |entries|
      invariant k <= |entries| && m < |entries| && !NoIndex(entries[m].key)
      invariant forall i :: 0 <= i < k && !NoIndex(entries[i].key) ==> entries[i].key.i <= entries[m].key.i
    {
      if !NoIndex(entries[k].key) && entries[k].key.i > entries[m].key.i {
        m := k;
      }
      k := k + 1;
    }
  }

  /** The largest index outside the list part is a border. */
  lemma IndexIsBorder(h: Heap, r: nat, d: LuaData, j: nat) returns (n: nat)
    requires Reads(h, VTable(r), d) && j < |d.entries| && !NoIndex(d.entries[j].key)
    ensures n > |d.items| && IsBorder(h[r], n)
  {
    var m := LargestIndex(d.entries, j);
    GetSorted(d.entries, m);
    n := d.entries[m].key.i;
    assert Reads(h, Lookup(h[r], IntKey(n)), Slot(d.items, d.entries, IntKey(n)));
    if n < I64_MAX {
      assert Reads(h, Lookup(h[r], IntKey(n + 1)), Slot(d.items, d.entries, IntKey(n + 1)));
      if Get(d.entries, IntKey(n + 1)).Some? {
        var i := GetIndex(d.entries, IntKey(n + 1));
      }
    }
  }

  lemma {:induction false} GetUpdated(entries: seq<Entry>, j: nat, v: LuaData, k: Key)
    requires Sorted(entries) && j < |entries|
    ensures Get(entries[j := Entry(entries[j].key, v)], k) == if k == entries[j].key then Some(v) else Get(entries, k)
    decreases j
  {
    var es := entries[j := Entry(entries[j].key, v)];
    if j > 0 {
      KeyOrder(entries[0].key, entries[j].key);
      assert es[1..] == entries[1..][j - 1 := Entry(entries[j].key, v)];
      GetUpdated(entries[1..], j - 1, v, k);
    } else {
      assert es[1..] == entries[1..];
    }
  }

  lemma ItemReplaced(h: Heap, r: nat, d: LuaData, i: nat, x: LuaData)
    requires Reads(h, VTable(r), d) && i < |d.items| && Reads(h, Lookup(h[r], IntKey(i + 1)), x)
    ensures Reads(h, VTable(r), Table(d.items[i := x], d.entries))
  {
    forall k ensures Reads(h, Lookup(h[r], k), Slot(d.items[i := x], d.entries, k)) {
      assert Reads(h, Lookup(h[r], k), Slot(d.items, d.entries, k));
    }
  }

  lemma EntryReplaced(h: Heap, r: nat, d: LuaData, j: nat, x: LuaData)
    requires Reads(h, VTable(r), d) && j < |d.entries| && Reads(h, Lookup(h[r], d.entries[j].key), x)
    ensures Reads(h, VTable(r), Table(d.items, d.entries[j := Entry(d.entries[j].key, x)]))
  {
    var es := d.entries[j := Entry(d.entries[j].key, x)];
    GetSorted(d.entries, j);
    assert Reads(h, Lookup(h[r], d.entries[j].key), Slot(d.items, d.entries, d.entries[j].key));
    forall k ensures Get(es, k) == if k == d.entries[j].key then Some(x) else Get(d.entries, k) {
      GetUpdated(d.entries, j, x, k);
    }
    forall k ensures Reads(h, Lookup(h[r], k), Slot(d.items, es, k)) {
      assert Reads(h, Lookup(h[r], k), Slot(d.items, d.entries, k));
    }
  }

  /** A copy that is not tight is not the only one. */
  lemma {:induction false} LooseHasAnother(h: Heap, v: LuaValue, d: LuaData) returns (d': LuaData)
    requires Reads(h, v, d) && !Tight(d)
    ensures Reads(h, v, d') && d' != d
    decreases d
  {
    var r, items, entries := v.ref, d.items, d.entries;
    forall j | 0 <= j < |entries| ensures !entries[j].value.Nil? {
      GetSorted(entries, j);
    }
    if i :| 0 <= i < |items| && items[i].Nil? {
      var n := HoleIsBorder(h, r, d, i);
      d' := Recut(items, entries, n);
      RecutReads(h, r, d, n);
    } else if j :| 0 <= j < |entries| && !NoIndex(entries[j].key) {
      var n := IndexIsBorder(h, r, d, j);
      d' := Recut(items, entries, n);
      RecutReads(h, r, d, n);
    } else if i :| 0 <= i < |items| && !Tight(items[i]) {
      ItemIsSlot(items, entries, i);
      assert Reads(h, Lookup(h[r], IntKey(i + 1)), Slot(items, entries, IntKey(i + 1)));
      var x := LooseHasAnother(h, Lookup(h[r], IntKey(i + 1)), items[i]);
      d' := Table(items[i := x], entries);
      ItemReplaced(h, r, d, i, x);
    } else {
      var j :| 0 <= j < |entries| && !Tight(entries[j].value);
      var e := entries[j];
      GetSorted(entries, j);
      assert Reads(h, Lookup(h[r], e.key), Slot(items, entries, e.key));
      var x := LooseHasAnother(h, Lookup(h[r], e.key), e.value);
      d' := Table(items, entries[j := Entry(e.key, x)]);
      EntryReplaced(h, r, d, j, x);
    }
  }
}
