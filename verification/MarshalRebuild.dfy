/** Rebuilding a copy in a VM: the new value has the copy's content, in tables of its own. */
module MarshalRebuild {
  import opened Wrappers
  import opened Bytes
  import opened Wire
  import opened WireLimits
  import opened LuaHeap
  import opened Marshal
  import opened MarshalContent

  /** Every table of `h` is still there in `h'`, unchanged. */
  ghost predicate Extends(h: Heap, h': Heap) {
    |h| <= |h'| && forall r :: 0 <= r < |h| ==> h'[r] == h[r]
  }

  /** Table `r` is being filled and holds these fields so far, all in tables made after it. */
  ghost predicate Holds(h: Heap, r: nat, fields: map<Key, Content>) {
    && r < |h|
    && (forall k :: k in h[r] <==> k.Known? && k.key in fields)
    && (forall k :: k in fields ==> Unfolds(h, r + 1, h[r][Known(k)], fields[k]))
  }

  /** What assigning a field does to a table's content; assigning nil removes it. */
  function PutField(fields: map<Key, Content>, k: Key, c: Content): map<Key, Content> {
    if c.CNil? then fields - {k} else fields[k := c]
  }

  lemma HoldsStep(h: Heap, h': Heap, r: nat, fields: map<Key, Content>, k: Key, v: LuaValue, c: Content)
    requires Holds(h, r, fields) && Extends(h, h') && Unfolds(h', |h|, v, c) && (v.VNil? <==> c.CNil?)
    ensures Holds(h'[r := RawSet(h'[r], Known(k), v)], r, PutField(fields, k, c))
  {
    hide Unfolds;
    var h2 := h'[r := RawSet(h'[r], Known(k), v)];
    var fields' := PutField(fields, k, c);
    assert h'[r] == h[r];
    forall x | x in fields' ensures Known(x) in h2[r] && Unfolds(h2, r + 1, h2[r][Known(x)], fields'[x]) {
      if x == k {
        UnfoldsFrame(h', h2, |h|, r + 1, v, c);
      } else {
        UnfoldsFrame(h, h2, r + 1, r + 1, h[r][Known(x)], fields[x]);
      }
    }
  }

  lemma NilUnfolds(h: Heap, lo: nat, v: LuaValue, c: Content)
    requires Unfolds(h, lo, v, c)
    ensures v.VNil? <==> c.CNil?
  {
  }

  lemma SlotOfItems(pre: seq<LuaData>, d: LuaData, k: Key)
    requires |pre| < I64_MAX
    ensures Slot(pre + [d], [], k) == if k == IntKey(|pre| + 1) then d else Slot(pre, [], k)
  {
  }

  lemma FieldsItem(pre: seq<LuaData>, d: LuaData)
    requires |pre| < I64_MAX
    ensures Fields(pre + [d], []) == PutField(Fields(pre, []), IntKey(|pre| + 1), ContentOf(d))
  {
    hide Fields, ContentOf, Slot;
    var f, g := Fields(pre + [d], []), PutField(Fields(pre, []), IntKey(|pre| + 1), ContentOf(d));
    forall k ensures k in f <==> k in g ensures k in f ==> f[k] == g[k] {
      FieldsAt(pre + [d], [], k);
      FieldsAt(pre, [], k);
      SlotOfItems(pre, d, k);
      NilContent(d);
    }
  }

  lemma NilContent(d: LuaData)
    ensures ContentOf(d).CNil? <==> d.Nil?
  {
  }

  lemma {:induction false} GetLast(pre: seq<Entry>, e: Entry, k: Key)
    requires Sorted(pre + [e])
    ensures Get(pre + [e], k) == if k == e.key then Some(e.value) else Get(pre, k)
    decreases |pre|
  {
    if pre == [] {
      assert pre + [e] == [e] && [e][1..] == [];
    } else {
      assert (pre + [e])[|pre|] == e && (pre + [e])[0] == pre[0];
      KeyOrder(pre[0].key, e.key);
      assert (pre + [e])[1..] == pre[1..] + [e];
      GetLast(pre[1..], e, k);
    }
  }

  lemma FieldsEntry(items: seq<LuaData>, pre: seq<Entry>, e: Entry)
    requires Sorted(pre + [e])
    ensures Fields(items, pre + [e]) == PutField(Fields(items, pre), e.key, ContentOf(e.value))
  {
    hide Fields, ContentOf, Get, Sorted;
    var f, g := Fields(items, pre + [e]), PutField(Fields(items, pre), e.key, ContentOf(e.value));
    forall k ensures k in f <==> k in g ensures k in f ==> f[k] == g[k] {
      FieldsAt(items, pre + [e], k);
      FieldsAt(items, pre, k);
      GetLast(pre, e, k);
      NilContent(e.value);
    }
  }

  /** The rebuilt value has the copy's content and shares no table with the heap it was put in. */
  lemma {:induction false} ToLuaUnfolds(h: Heap, d: LuaData)
    requires WellFormed(d) && Nodes(d) < I64_MAX
    ensures var (h', v) := ToLua(h, d); Extends(h, h') && Unfolds(h', |h|, v, ContentOf(d))
    decreases d, 2
  {
    if d.Table? {
      ToLuaTable(h, d.items, d.entries);
    }
  }

  lemma {:induction false} ToLuaTable(h: Heap, items: seq<LuaData>, entries: seq<Entry>)
    requires AllWellFormed(items) && EntriesWellFormed(entries) && Sorted(entries)
    requires ItemsNodes(items) + EntriesNodes(entries) < I64_MAX
    ensures var h' := SetEntries(SetItems(h + [map[]], |h|, 0, items), |h|, entries);
            Extends(h, h') && Unfolds(h', |h|, VTable(|h|), CTable(Fields(items, entries)))
    decreases Table(items, entries), 1
  {
    hide Unfolds, WellFormed, Sorted;
    NoFields();
    hide Fields;
    var r, h0 := |h|, h + [map[]];
    var h1 := SetItems(h0, r, 0, items);
    var h2 := SetEntries(h1, r, entries);
    assert [] + items == items && [] + entries == entries;
    ItemsCount(items);
    SetItemsHolds(h0, r, [], items);
    SetEntriesHolds(h1, r, items, [], entries);
    assert forall i :: 0 <= i < r ==> h2[i] == h2[..r][i] == h1[..r][i] == h0[..r][i] == h[i];
    HoldsUnfolds(h2, r, Fields(items, entries));
  }

  lemma NoFields()
    ensures Fields([], []) == map[]
  {
  }

  lemma {:induction false} ItemsCount(items: seq<LuaData>)
    ensures |items| <= ItemsNodes(items)
    decreases |items|
  {
    if items != [] {
      ItemsCount(items[1..]);
    }
  }

  lemma HoldsUnfolds(h: Heap, r: nat, fields: map<Key, Content>)
    requires Holds(h, r, fields)
    ensures Unfolds(h, r, VTable(r), CTable(fields))
  {
    forall k | k in fields ensures Unfolds(h, r, h[r][Known(k)], fields[k]) {
      UnfoldsFrame(h, h, r + 1, r, h[r][Known(k)], fields[k]);
    }
  }

  lemma {:induction false} SetItemsHolds(h: Heap, r: nat, pre: seq<LuaData>, items: seq<LuaData>)
    requires AllWellFormed(items) && ItemsNodes(items) < I64_MAX && |pre + items| < I64_MAX
    requires Holds(h, r, Fields(pre, []))
    ensures var h' := SetItems(h, r, |pre|, items);
            Holds(h', r, Fields(pre + items, [])) && |h| <= |h'| && h'[..r] == h[..r]
    decreases items, 1
  {
    hide Fields, Unfolds, WellFormed;
    if items == [] {
      assert pre + items == pre;
    } else {
      var (h1, v) := ToLua(h, items[0]);
      ToLuaUnfolds(h, items[0]);
      NilUnfolds(h1, |h|, v, ContentOf(items[0]));
      HoldsStep(h, h1, r, Fields(pre, []), IntKey(|pre| + 1), v, ContentOf(items[0]));
      FieldsItem(pre, items[0]);
      AppendNext(pre, items);
      SetItemsHolds(SetField(h1, r, |pre| + 1, v), r, pre + [items[0]], items[1..]);
    }
  }

  lemma {:induction false} SetEntriesHolds(h: Heap, r: nat, items: seq<LuaData>, pre: seq<Entry>, entries: seq<Entry>)
    requires EntriesWellFormed(entries) && EntriesNodes(entries) < I64_MAX && Sorted(pre + entries)
    requires Holds(h, r, Fields(items, pre))
    ensures var h' := SetEntries(h, r, entries);
            Holds(h', r, Fields(items, pre + entries)) && |h| <= |h'| && h'[..r] == h[..r]
    decreases entries, 1
  {
    hide Fields, Unfolds, WellFormed;
    if entries == [] {
      assert pre + entries == pre;
    } else {
      AppendNext(pre, entries);
      assert pre + [entries[0]] == (pre + entries)[..|pre| + 1];
      SetEntryHolds(h, r, items, pre, entries[0]);
      SetEntriesHolds(SetEntry(h, r, entries[0]), r, items, pre + [entries[0]], entries[1..]);
    }
  }

  lemma {:induction false} SetEntryHolds(h: Heap, r: nat, items: seq<LuaData>, pre: seq<Entry>, e: Entry)
    requires WellFormed(e.value) && Nodes(e.value) < I64_MAX && Sorted(pre + [e])
    requires Holds(h, r, Fields(items, pre))
    ensures var h' := SetEntry(h, r, e);
            Holds(h', r, Fields(items, pre + [e])) && |h| <= |h'| && h'[..r] == h[..r]
    decreases e
  {
    hide Fields, Unfolds, WellFormed;
    ToLuaUnfolds(h, e.value);
    var (h1, v) := ToLua(h, e.value);
    NilUnfolds(h1, |h|, v, ContentOf(e.value));
    HoldsStep(h, h1, r, Fields(items, pre), e.key, v, ContentOf(e.value));
    FieldsEntry(items, pre, e);
  }

  /** Rebuilding keeps a heap sound. */
  lemma {:induction false} ToLuaSound(h: Heap, d: LuaData)
    requires Sound(h)
    ensures var (h', v) := ToLua(h, d); Sound(h') && |h| <= |h'| && Valid(h', v)
    decreases d, 2
  {
    if d.Table? {
      SetItemsSound(h + [map[]], |h|, 0, d.items);
      SetEntriesSound(SetItems(h + [map[]], |h|, 0, d.items), |h|, d.entries);
    }
  }

  lemma RawSetSound(h: Heap, r: nat, k: LuaKey, v: LuaValue)
    requires Sound(h) && r < |h| && Valid(h, v)
    ensures Sound(h[r := RawSet(h[r], k, v)])
  {
  }

  lemma {:induction false} SetItemsSound(h: Heap, r: nat, i: nat, items: seq<LuaData>)
    requires Sound(h) && r < |h|
    ensures Sound(SetItems(h, r, i, items)) && |h| <= |SetItems(h, r, i, items)|
    decreases items, 1
  {
    hide Sound;
    if items != [] {
      var (h', v) := ToLua(h, items[0]);
      ToLuaSound(h, items[0]);
      if i + 1 <= I64_MAX {
        RawSetSound(h', r, Known(IntKey(i + 1)), v);
      }
      SetItemsSound(SetField(h', r, i + 1, v), r, i + 1, items[1..]);
    }
  }

  lemma {:induction false} SetEntriesSound(h: Heap, r: nat, entries: seq<Entry>)
    requires Sound(h) && r < |h|
    ensures Sound(SetEntries(h, r, entries)) && |h| <= |SetEntries(h, r, entries)|
    decreases entries, 1
  {
    hide Sound;
    if entries != [] {
      SetEntrySound(h, r, entries[0]);
      SetEntriesSound(SetEntry(h, r, entries[0]), r, entries[1..]);
    }
  }

  lemma {:induction false} SetEntrySound(h: Heap, r: nat, e: Entry)
    requires Sound(h) && r < |h|
    ensures Sound(SetEntry(h, r, e)) && |h| <= |SetEntry(h, r, e)|
    decreases e
  {
    hide Sound;
    ToLuaSound(h, e.value);
    var (h', v) := ToLua(h, e.value);
    RawSetSound(h', r, Known(e.key), v);
  }
}
