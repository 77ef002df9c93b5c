/** What the two conversions promise together, and what the first promises about cyclic values. */
module MarshalTheorems {
  import opened Wrappers
  import opened Wire
  import opened WireLimits
  import opened LuaHeap
  import opened Marshal
  import opened MarshalContent
  import opened MarshalRebuild
  import opened MarshalCopies

  /**
   Whatever borders and orders the VM chose: a value that could be copied is rebuilt elsewhere with
   the same content, its copy has as many values as the limit was charged for, and nests within it.
   */
  lemma CopyKeepsContent(h: Heap, vm: Vm, v: LuaValue, limits: Limits, other: Heap)
    requires Sound(h) && Legal(h, vm) && Valid(h, v) && HeapFits(h) && ValueFits(v)
    requires FromLua(h, vm, v, 0, limits, limits.nodes).Success?
    requires Nodes(FromLua(h, vm, v, 0, limits, limits.nodes).value.0) < I64_MAX
    ensures var (d, left) := FromLua(h, vm, v, 0, limits, limits.nodes).value;
            && WellFormed(d) && Nodes(d) == limits.nodes - left && Levels(d) <= limits.depth
            && var (h', v') := ToLua(other, d);
            Extends(other, h') && exists c :: Unfolds(h, 0, v, c) && Unfolds(h', |other|, v', c)
  {
    FromLuaReads(h, vm, v, 0, limits, limits.nodes);
    var (d, left) := FromLua(h, vm, v, 0, limits, limits.nodes).value;
    ReadsUnfolds(h, v, d);
    CopyFits(h, v, d);
    ToLuaUnfolds(other, d);
  }

  // --------------------------------------------------------------- refusals

  /** A copy's content nests as deep as the copy. */
  lemma {:induction false} ContentWithin(d: LuaData, n: nat)
    requires Levels(d) <= n
    ensures Within(ContentOf(d), n)
    decreases Weight(d)
  {
    if d.Table? {
      var c := ContentOf(d);
      forall k | k in c.fields ensures Within(c.fields[k], n - 1) {
        FieldsAt(d.items, d.entries, k);
        SlotLevels(d.items, d.entries, k);
        ContentWithin(Slot(d.items, d.entries, k), n - 1);
      }
    }
  }

  lemma SlotLevels(items: seq<LuaData>, entries: seq<Entry>, k: Key)
    ensures Levels(Slot(items, entries, k)) <= Max(ItemsLevels(items), EntriesLevels(entries))
  {
    GetLevels(entries, k);
    if Get(entries, k).None? && k.IntKey? && 1 <= k.i <= |items| {
      ItemLevels(items, k.i - 1);
    }
  }

  lemma {:induction false} ItemLevels(items: seq<LuaData>, i: nat)
    requires i < |items|
    ensures Levels(items[i]) <= ItemsLevels(items)
    decreases i
  {
    if i > 0 {
      ItemLevels(items[1..], i - 1);
    }
  }

  lemma {:induction false} GetLevels(entries: seq<Entry>, k: Key)
    ensures Get(entries, k).Some? ==> Levels(Get(entries, k).value) <= EntriesLevels(entries)
    decreases |entries|
  {
    if entries != [] && entries[0].key != k {
      GetLevels(entries[1..], k);
    }
  }

  /** The wire's measure of depth is no larger. */
  lemma {:induction false} HeightWithinLevels(d: LuaData)
    ensures Height(d) <= Levels(d)
    decreases d, 1
  {
    if d.Table? {
      ItemsHeightWithinLevels(d.items);
      EntriesHeightWithinLevels(d.entries);
    }
  }

  lemma {:induction false} ItemsHeightWithinLevels(items: seq<LuaData>)
    ensures ItemsHeight(items) <= 1 + ItemsLevels(items)
    decreases items
  {
    if items != [] {
      HeightWithinLevels(items[0]);
      ItemsHeightWithinLevels(items[1..]);
    }
  }

  lemma {:induction false} EntriesHeightWithinLevels(entries: seq<Entry>)
    ensures EntriesHeight(entries) <= 1 + EntriesLevels(entries)
    decreases entries
  {
    if entries != [] {
      EntryHeightWithinLevels(entries[0]);
      EntriesHeightWithinLevels(entries[1..]);
    }
  }

  lemma {:induction false} EntryHeightWithinLevels(e: Entry)
    ensures EntryHeight(e) <= EntryLevels(e)
    decreases e
  {
    HeightWithinLevels(e.value);
  }

  /** A value from which a table that contains itself can be reached is refused, whatever the limits. */
  lemma CyclesAreRefused(h: Heap, vm: Vm, v: LuaValue, limits: Limits, path: seq<Key>, loop: seq<Key>)
    requires Sound(h) && Legal(h, vm) && Valid(h, v)
    requires Follow(h, v, path).Some? && Follow(h, v, path).value.VTable?
    requires loop != [] && Follow(h, Follow(h, v, path).value, loop) == Follow(h, v, path)
    ensures FromLua(h, vm, v, 0, limits, limits.nodes).Failure?
  {
    hide Sound, Legal, FromLua, Follow, Unfolds, Within, ContentOf, Reads, Levels, Nodes;
    if FromLua(h, vm, v, 0, limits, limits.nodes).Success? {
      FromLuaReads(h, vm, v, 0, limits, limits.nodes);
      var d := FromLua(h, vm, v, 0, limits, limits.nodes).value.0;
      ReadsUnfolds(h, v, d);
      ContentWithin(d, limits.depth);
      var sub := FollowUnfolds(h, v, path, ContentOf(d), limits.depth);
      CycleDoesNotUnfold(h, Follow(h, v, path).value, loop, sub, limits.depth - |path|);
    }
  }

  predicate OnlySizeRefused<T>(r: Copied<T>) {
    r.Failure? ==> r.error.TooManyNodes?
  }

  /** A value that unfolds within the depth limit is refused only for its number of values. */
  lemma {:induction false} FiniteIsCopied(
    h: Heap, vm: Vm, v: LuaValue, c: Content, depth: nat, limits: Limits, budget: nat)
    requires Sound(h) && Legal(h, vm) && Unfolds(h, 0, v, c)
    requires depth <= limits.depth && Within(c, limits.depth - depth)
    ensures OnlySizeRefused(FromLua(h, vm, v, depth, limits, budget))
    decreases budget, 1, 0
  {
    hide FromTable, Unfolds, Within;
    UnfoldsAs(h, v, c, limits.depth - depth);
    if budget > 0 && v.VTable? {
      TableIsCopied(h, vm, v.ref, c, depth, limits, budget - 1);
    }
  }

  lemma UnfoldsAs(h: Heap, v: LuaValue, c: Content, n: nat)
    requires Unfolds(h, 0, v, c) && Within(c, n)
    ensures !v.VOpaque? && (v.VTable? ==> v.ref < |h| && n > 0)
  {
  }

  lemma {:induction false} TableIsCopied(
    h: Heap, vm: Vm, r: nat, c: Content, depth: nat, limits: Limits, budget: nat)
    requires Sound(h) && Legal(h, vm) && r < |h| && Unfolds(h, 0, VTable(r), c)
    requires depth < limits.depth && Within(c, limits.depth - depth)
    ensures OnlySizeRefused(FromTable(h, vm, r, depth, limits, budget))
    decreases budget, 3, 0
  {
    hide Sound, Legal, Enumerates, IsBorder, FromItems, FromPairs;
    var t, n, keys := h[r], vm.border(r, budget), vm.order(r, budget);
    VisitIsLegal(h, vm, r, budget);
    assert FieldsUnfold(h, t, c.fields, limits.depth - depth - 1);
    ItemsAreCopied(h, vm, t, c.fields, 1, n, depth + 1, limits, budget, []);
    var items := FromItems(h, vm, t, 1, n, depth + 1, limits, budget, []);
    if items.Success? {
      PairsAreCopied(h, vm, t, c.fields, keys, n, depth + 1, limits, items.value.1, []);
    }
  }

  /** Every field of a table unfolds, `n` levels down at most. */
  ghost predicate FieldsUnfold(h: Heap, t: LuaTable, fields: map<Key, Content>, n: nat) {
    && (forall k :: k in t <==> k.Known? && k.key in fields)
    && (forall k :: k in fields ==> Unfolds(h, 0, t[Known(k)], fields[k]) && Within(fields[k], n))
  }

  lemma {:induction false} ItemsAreCopied(h: Heap, vm: Vm, t: LuaTable, fields: map<Key, Content>, i: nat, n: nat,
                                          depth: nat, limits: Limits, budget: nat, acc: seq<LuaData>)
    requires Sound(h) && Legal(h, vm) && t in h && depth <= limits.depth
    requires FieldsUnfold(h, t, fields, limits.depth - depth)
    ensures OnlySizeRefused(FromItems(h, vm, t, i, n, depth, limits, budget, acc))
    decreases budget, 2, n + 1 - i
  {
    hide Sound, Legal;
    if i <= n {
      IndexValid(h, t, i);
      var v := Index(t, i);
      if v.VNil? {
        NilIsCopied(h, vm, depth, limits, budget);
      } else {
        FiniteIsCopied(h, vm, v, fields[IntKey(i)], depth, limits, budget);
      }
      var r := FromLua(h, vm, v, depth, limits, budget);
      if r.Success? {
        ItemsAreCopied(h, vm, t, fields, i + 1, n, depth, limits, r.value.1, acc + [r.value.0]);
      }
    }
  }

  lemma NilIsCopied(h: Heap, vm: Vm, depth: nat, limits: Limits, budget: nat)
    requires Sound(h) && Legal(h, vm)
    ensures OnlySizeRefused(FromLua(h, vm, VNil, depth, limits, budget))
  {
  }

  lemma {:induction false} PairsAreCopied(h: Heap, vm: Vm, t: LuaTable, fields: map<Key, Content>, keys: seq<LuaKey>,
                                          n: nat, depth: nat, limits: Limits, budget: nat, acc: seq<Entry>)
    requires Sound(h) && Legal(h, vm) && t in h && depth <= limits.depth
    requires FieldsUnfold(h, t, fields, limits.depth - depth)
    requires forall i :: 0 <= i < |keys| ==> keys[i] in t
    ensures OnlySizeRefused(FromPairs(h, vm, t, keys, n, depth, limits, budget, acc))
    decreases budget, 2, |keys|
  {
    hide Sound, Legal;
    if keys != [] {
      var k, rest := keys[0].key, keys[1..];
      if !Outside(k, n) {
        PairsAreCopied(h, vm, t, fields, rest, n, depth, limits, budget, acc);
      } else {
        assert Valid(h, t[Known(k)]) by { KeyValid(h, t, Known(k)); }
        FiniteIsCopied(h, vm, t[Known(k)], fields[k], depth, limits, budget);
        var r := FromLua(h, vm, t[Known(k)], depth, limits, budget);
        if r.Success? {
          PairsAreCopied(h, vm, t, fields, rest, n, depth, limits, r.value.1, Insert(acc, k, r.value.0));
        }
      }
    }
  }

  // --------------------------------------------------------------- and back

  lemma SlotFits(items: seq<LuaData>, entries: seq<Entry>, k: Key)
    requires AllWellFormed(items) && EntriesWellFormed(entries)
    ensures WellFormed(Slot(items, entries, k))
    ensures Nodes(Slot(items, entries, k)) <= 1 + ItemsNodes(items) + EntriesNodes(entries)
  {
    if Get(entries, k).Some? {
      var j := GetIndex(entries, k);
      EntryNodesBelow(entries, j);
    } else if k.IntKey? && 1 <= k.i <= |items| {
      ItemNodes(items, k.i - 1);
    }
  }

  /** A tight copy is a copy of anything that has its content. */
  lemma {:induction false} TightReads(h: Heap, v: LuaValue, d: LuaData)
    requires Unfolds(h, 0, v, ContentOf(d)) && Tight(d) && WellFormed(d) && Nodes(d) < I64_MAX
    ensures Reads(h, v, d)
    decreases Weight(d)
  {
    if d.Table? {
      var t, items, entries := h[v.ref], d.items, d.entries;
      forall k
        ensures Slot(items, entries, k).Nil? <==> Lookup(t, k).VNil?
        ensures Reads(h, Lookup(t, k), Slot(items, entries, k))
      {
        var x := Slot(items, entries, k);
        FieldsAt(items, entries, k);
        if !x.Nil? {
          NilUnfolds(h, 0, t[Known(k)], ContentOf(x));
          TightSlot(items, entries, k);
          SlotFits(items, entries, k);
          TightReads(h, t[Known(k)], x);
        }
      }
      ItemsCount(items);
      TightIsApart(items, entries);
      TightSlots(t, items, entries);
    }
  }

  lemma TightIsApart(items: seq<LuaData>, entries: seq<Entry>)
    requires Tight(Table(items, entries)) && Sorted(entries)
    ensures Apart(items, entries)
  {
    forall k | Get(entries, k).Some? ensures Outside(k, |items|) && !Get(entries, k).value.Nil? {
      var j := GetIndex(entries, k);
    }
  }

  lemma TightSlots(t: LuaTable, items: seq<LuaData>, entries: seq<Entry>)
    requires Tight(Table(items, entries)) && Apart(items, entries) && |items| < I64_MAX
    requires forall k :: Slot(items, entries, k).Nil? <==> Lookup(t, k).VNil?
    ensures IsBorder(t, |items|)
  {
    var n := |items|;
    if n > 0 {
      ItemIsSlot(items, entries, n - 1);
      assert !Lookup(t, IntKey(n)).VNil?;
    }
    if Get(entries, IntKey(n + 1)).Some? {
      var j := GetIndex(entries, IntKey(n + 1));
    }
    assert Slot(items, entries, IntKey(n + 1)).Nil?;
  }

  /** What a copy was rebuilt into copies again to the same content, and to itself if it is tight. */
  lemma RebuiltCopiesAgain(other: Heap, d: LuaData, vm: Vm, limits: Limits)
    requires WellFormed(d) && Nodes(d) < I64_MAX && Sound(other) && Legal(ToLua(other, d).0, vm)
    ensures var (h', v') := ToLua(other, d);
            Sound(h') && Valid(h', v') &&
            var r := FromLua(h', vm, v', 0, limits, limits.nodes);
            && (r.Success? ==> ContentOf(r.value.0) == ContentOf(d))
            && (r.Success? && Tight(d) ==> r.value.0 == d)
            && (Levels(d) <= limits.depth ==> OnlySizeRefused(r))
  {
    hide ContentOf, Unfolds, Reads, Tight, Levels, Within, WellFormed, FromLua, ToLua, Costs, Legal;
    ToLuaSound(other, d);
    ToLuaUnfolds(other, d);
    var (h', v') := ToLua(other, d);
    UnfoldsFrame(h', h', |other|, 0, v', ContentOf(d));
    var r := FromLua(h', vm, v', 0, limits, limits.nodes);
    if r.Success? {
      FromLuaReads(h', vm, v', 0, limits, limits.nodes);
      ReadsUnfolds(h', v', r.value.0);
      UnfoldsOnce(h', v', 0, ContentOf(d), 0, ContentOf(r.value.0));
      if Tight(d) {
        TightReads(h', v', d);
        TightIsOnly(h', v', d, r.value.0);
      }
    }
    if Levels(d) <= limits.depth {
      ContentWithin(d, limits.depth);
      FiniteIsCopied(h', vm, v', ContentOf(d), 0, limits, limits.nodes);
    }
  }

  /** A VM that reports the largest border. */
  function FarVm(): Vm {
    Vm((r, visit) => 2, (r, visit) => [Known(IntKey(2))])
  }

  /**
   Rebuilding and copying again is not the identity on copies: a table that holds only index 2 has
   the borders 0 and 2, so a copy that was cut at 0 may come back cut at 2.
   */
  lemma HolesMayMove()
    ensures var d := Table([], [Entry(IntKey(2), Int(7))]);
            var (h, v) := ToLua([], d);
            Sound(h) && Legal(h, FarVm()) && Valid(h, v) && Reads(h, v, d) &&
            FromLua(h, FarVm(), v, 0, Limits(64, 100), 100) == Success((Table([Nil, Int(7)], []), 97))
  {
    var d := Table([], [Entry(IntKey(2), Int(7))]);
    var t: LuaTable := map[Known(IntKey(2)) := VInt(7)];
    var h, vm, limits := [t], FarVm(), Limits(64, 100);
    HoleIsRebuilt();
    assert Enumerates(t, [Known(IntKey(2))]);
    assert Legal(h, vm);
    assert [Nil] + [Int(7)] == [Nil, Int(7)] && [] + [Nil] == [Nil];
    assert FromItems(h, vm, t, 3, 2, 1, limits, 97, [Nil, Int(7)]) == Success(([Nil, Int(7)], 97));
    assert FromItems(h, vm, t, 2, 2, 1, limits, 98, [Nil]) == Success(([Nil, Int(7)], 97));
    assert FromItems(h, vm, t, 1, 2, 1, limits, 99, []) == Success(([Nil, Int(7)], 97));
    assert FromPairs(h, vm, t, [], 2, 1, limits, 97, []) == Success(([], 97));
    assert FromPairs(h, vm, t, [Known(IntKey(2))], 2, 1, limits, 97, []) == Success(([], 97));
    assert FromTable(h, vm, 0, 0, limits, 99) == Success((Table([Nil, Int(7)], []), 97));
  }

  lemma HoleIsRebuilt()
    ensures var d, t := Table([], [Entry(IntKey(2), Int(7))]), map[Known(IntKey(2)) := VInt(7)];
            ToLua([], d) == ([t], VTable(0)) && Reads([t], VTable(0), d)
  {
    var d := Table([], [Entry(IntKey(2), Int(7))]);
    var t: LuaTable := map[Known(IntKey(2)) := VInt(7)];
    var h0: Heap := [map[]];
    assert [] + [map[]] == h0;
    assert SetItems(h0, 0, 0, []) == h0;
    var e := Entry(IntKey(2), Int(7));
    assert SetEntry(h0, 0, e) == [t];
    assert SetEntries([t], 0, []) == [t] && [e][1..] == [];
    assert SetEntries(h0, 0, [e]) == [t];
    assert Apart([], [e]);
    forall k ensures Reads([t], Lookup(t, k), Slot([], [e], k)) {
      assert Get([e], k) == if k == IntKey(2) then Some(Int(7)) else Get([], k);
    }
    assert Reads([t], VTable(0), d);
  }
}
