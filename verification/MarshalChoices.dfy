/**
 Which copies a VM may make. Every faithful copy is the one some VM makes, by its choice of borders and
 orders; so what is said of all faithful copies is said of what copying out can return.
 */
module MarshalChoices {
  import opened Wrappers
  import opened Wire
  import opened WireLimits
  import opened LuaHeap
  import opened Marshal
  import opened MarshalContent
  import opened MarshalRebuild
  import opened MarshalCopies
  import opened MarshalTheorems

  // ------------------------------------------------------- a VM that follows a copy

  /** The values of a copy in the order in which they were copied. */
  function Visited(d: LuaData): (plan: seq<LuaData>)
    ensures |plan| == Nodes(d)
    decreases d
  {
    if d.Table? then [d] + (VisitedItems(d.items) + VisitedEntries(d.entries)) else [d]
  }

  function VisitedItems(items: seq<LuaData>): (plan: seq<LuaData>)
    ensures |plan| == ItemsNodes(items)
    decreases items
  {
    if items == [] then [] else Visited(items[0]) + VisitedItems(items[1..])
  }

  function VisitedEntries(entries: seq<Entry>): (plan: seq<LuaData>)
    ensures |plan| == EntriesNodes(entries)
    decreases entries
  {
    if entries == [] then [] else VisitedEntry(entries[0]) + VisitedEntries(entries[1..])
  }

  function VisitedEntry(e: Entry): (plan: seq<LuaData>)
    ensures |plan| == EntryNodes(e)
    decreases e
  {
    Visited(e.value)
  }

  /** `part` is what is visited from position `k` on. */
  ghost predicate PlannedAt(plan: seq<LuaData>, k: nat, part: seq<LuaData>) {
    k + |part| <= |plan| && plan[k..k + |part|] == part
  }

  lemma PlannedFirst(plan: seq<LuaData>, k: nat, a: seq<LuaData>, b: seq<LuaData>)
    requires PlannedAt(plan, k, a + b)
    ensures PlannedAt(plan, k, a) && PlannedAt(plan, k + |a|, b)
  {
    assert plan[k..k + |a|] == (a + b)[..|a|] && plan[k + |a|..k + |a| + |b|] == (a + b)[|a|..];
  }

  function EntryKeys(entries: seq<Entry>): (keys: seq<LuaKey>)
    ensures |keys| == |entries| && forall j :: 0 <= j < |entries| ==> keys[j] == Known(entries[j].key)
  {
    seq(|entries|, j requires 0 <= j < |entries| => Known(entries[j].key))
  }

  ghost function OthersOf(t: LuaTable, entries: seq<Entry>): LuaTable {
    t - (set k | k in EntryKeys(entries))
  }

  /** The table of the copy is the one visited when this budget is left, and it is a copy of table `r`. */
  ghost predicate Follows(h: Heap, plan: seq<LuaData>, r: nat, visit: nat) {
    && r < |h| && visit < |plan|
    && plan[|plan| - 1 - visit].Table? && Reads(h, VTable(r), plan[|plan| - 1 - visit])
  }

  ghost function PlannedBorder(h: Heap, plan: seq<LuaData>, r: nat, visit: nat): nat {
    if Follows(h, plan, r, visit) then |plan[|plan| - 1 - visit].items|
    else if r < |h| then FirstBorder(h[r], 0) else 0
  }

  /** The entries of the copy first, in their order. */
  ghost function PlannedOrder(h: Heap, plan: seq<LuaData>, r: nat, visit: nat): seq<LuaKey> {
    if Follows(h, plan, r, visit) then
      var entries := plan[|plan| - 1 - visit].entries;
      EntryKeys(entries) + SomeOrder(OthersOf(h[r], entries))
    else if r < |h| then SomeOrder(h[r]) else []
  }

  /** A VM that cuts every table where the copy it follows has cut it. */
  ghost function PlannedVm(h: Heap, plan: seq<LuaData>): Vm {
    Vm((r: nat, visit: nat) => PlannedBorder(h, plan, r, visit), (r: nat, visit: nat) => PlannedOrder(h, plan, r, visit))
  }

  lemma NilReads(h: Heap, v: LuaValue, d: LuaData)
    requires Reads(h, v, d)
    ensures v.VNil? <==> d.Nil?
  {
  }

  lemma EntryIsField(h: Heap, r: nat, d: LuaData, j: nat)
    requires Sound(h) && Reads(h, VTable(r), d) && j < |d.entries|
    ensures var e := d.entries[j];
            && Known(e.key) in h[r] && Outside(e.key, |d.items|) && Reads(h, h[r][Known(e.key)], e.value)
            && Valid(h, h[r][Known(e.key)])
  {
    var e := d.entries[j];
    GetSorted(d.entries, j);
    assert Reads(h, Lookup(h[r], e.key), Slot(d.items, d.entries, e.key));
    NilReads(h, Lookup(h[r], e.key), e.value);
  }

  lemma KeyOfEntry(entries: seq<Entry>, k: Key)
    requires Get(entries, k).Some?
    ensures Known(k) in EntryKeys(entries)
  {
    var j := GetIndex(entries, k);
    assert EntryKeys(entries)[j] in EntryKeys(entries);
  }

  /** What the entries leave of a table is its list part. */
  lemma OthersAreListed(h: Heap, r: nat, d: LuaData, k: LuaKey)
    requires Sound(h) && Reads(h, VTable(r), d) && k in OthersOf(h[r], d.entries)
    ensures k.Known? && !Outside(k.key, |d.items|)
  {
    assert Reads(h, Lookup(h[r], k.key), Slot(d.items, d.entries, k.key));
    NilReads(h, Lookup(h[r], k.key), Slot(d.items, d.entries, k.key));
    if Get(d.entries, k.key).Some? {
      KeyOfEntry(d.entries, k.key);
    }
  }

  lemma PlannedEnumerates(h: Heap, r: nat, d: LuaData)
    requires Sound(h) && Reads(h, VTable(r), d)
    ensures Enumerates(h[r], EntryKeys(d.entries) + SomeOrder(OthersOf(h[r], d.entries)))
  {
    var t, es := h[r], EntryKeys(d.entries);
    var others := SomeOrder(OthersOf(t, d.entries));
    var keys := es + others;
    forall j | 0 <= j < |d.entries| ensures es[j] in t {
      EntryIsField(h, r, d, j);
    }
    forall k ensures k in t <==> k in keys {
      assert k in keys <==> k in es || k in others;
    }
    forall i, j | 0 <= i < j < |keys| ensures keys[i] != keys[j] {
      if j < |es| {
        KeyOrder(d.entries[i].key, d.entries[j].key);
      } else if i < |es| {
        assert es[i] in es && keys[j] in others;
      }
    }
  }

  lemma PlannedVisit(h: Heap, plan: seq<LuaData>, r: nat, visit: nat)
    requires Sound(h) && r < |h|
    ensures IsBorder(h[r], PlannedBorder(h, plan, r, visit)) && Enumerates(h[r], PlannedOrder(h, plan, r, visit))
  {
    hide Reads, Sound, IsBorder, Enumerates, OthersOf, EntryKeys, SomeOrder, FirstBorder;
    if Follows(h, plan, r, visit) {
      var d := plan[|plan| - 1 - visit];
      PlannedEnumerates(h, r, d);
      ReadsBorder(h, r, d);
    }
  }

  lemma PlannedIsLegal(h: Heap, plan: seq<LuaData>)
    requires Sound(h)
    ensures Legal(h, PlannedVm(h, plan))
  {
    hide Sound, IsBorder, Enumerates, PlannedBorder, PlannedOrder;
    var vm := PlannedVm(h, plan);
    forall r, visit | 0 <= r < |h| && 0 <= visit
      ensures IsBorder(h[r], vm.border(r, visit)) && Enumerates(h[r], vm.order(r, visit))
    {
      PlannedVisit(h, plan, r, visit);
    }
  }

  lemma ReadsBorder(h: Heap, r: nat, d: LuaData)
    requires Reads(h, VTable(r), d)
    ensures r < |h| && d.Table? && IsBorder(h[r], |d.items|) && Apart(d.items, d.entries)
  {
  }

  // --------------------------------------------------------- it makes that copy

  lemma {:induction false} PlanGives(h: Heap, plan: seq<LuaData>, k: nat, v: LuaValue, d: LuaData, depth: nat, limits: Limits)
    requires Sound(h) && Legal(h, PlannedVm(h, plan)) && Valid(h, v) && Reads(h, v, d)
    requires PlannedAt(plan, k, Visited(d)) && depth + Levels(d) <= limits.depth
    ensures FromLua(h, PlannedVm(h, plan), v, depth, limits, |plan| - k) == Success((d, |plan| - k - Nodes(d)))
    decreases d, 3, 0
  {
    hide Sound, Legal, FromTable, PlannedVm;
    if v.VTable? {
      TablePlanGives(h, plan, k, v.ref, d, depth, limits);
    }
  }

  lemma PlannedChoice(h: Heap, plan: seq<LuaData>, k: nat, r: nat, d: LuaData)
    requires Sound(h) && PlannedAt(plan, k, [d]) && Reads(h, VTable(r), d)
    ensures r < |h| && PlannedVm(h, plan).border(r, |plan| - k - 1) == |d.items|
    ensures PlannedVm(h, plan).order(r, |plan| - k - 1) == EntryKeys(d.entries) + SomeOrder(OthersOf(h[r], d.entries))
  {
    hide Reads, SomeOrder, OthersOf;
    ReadsBorder(h, r, d);
    assert plan[k] == plan[k..k + 1][0] == d;
    assert Follows(h, plan, r, |plan| - k - 1);
  }

  lemma {:induction false} TablePlanGives(
    h: Heap, plan: seq<LuaData>, k: nat, r: nat, d: LuaData, depth: nat, limits: Limits)
    requires Sound(h) && Legal(h, PlannedVm(h, plan)) && Reads(h, VTable(r), d)
    requires PlannedAt(plan, k, Visited(d)) && depth + Levels(d) <= limits.depth
    ensures r < |h|
    ensures FromTable(h, PlannedVm(h, plan), r, depth, limits, |plan| - k - 1) == Success((d, |plan| - k - Nodes(d)))
    decreases d, 2, 0
  {
    hide *;
    ReadsBorder(h, r, d);
    TableMeasures(d);
    var own, items, entries := [d], VisitedItems(d.items), VisitedEntries(d.entries);
    PlannedFirst(plan, k, own, items + entries);
    PlannedFirst(plan, k + 1, items, entries);
    PlannedChoice(h, plan, k, r, d);
    VisitIsLegal(h, PlannedVm(h, plan), r, |plan| - k - 1);
    assert d.items[0..] == d.items && d.items[..0] == [] && d.entries[0..] == d.entries && d.entries[..0] == [];
    ItemsPlanGives(h, plan, k + 1, r, d, 0, depth + 1, limits);
    var others := SomeOrder(OthersOf(h[r], d.entries));
    OthersListed(h, r, d, others);
    EntriesPlanGive(h, plan, k + 1 + |items|, r, d, 0, others, depth + 1, limits);
    PlannedFits(plan, k + 1 + |items|, entries);
    TableFromParts(h, PlannedVm(h, plan), r, d, EntryKeys(d.entries) + others, depth, limits, |plan| - k - 1,
                   |plan| - k - 1 - |items|, |plan| - k - Nodes(d));
  }

  lemma PlannedFits(plan: seq<LuaData>, k: nat, part: seq<LuaData>)
    requires PlannedAt(plan, k, part)
    ensures k + |part| <= |plan|
  {
  }

  lemma TableMeasures(d: LuaData)
    requires d.Table?
    ensures Visited(d) == [d] + (VisitedItems(d.items) + VisitedEntries(d.entries))
    ensures Nodes(d) == 1 + ItemsNodes(d.items) + EntriesNodes(d.entries)
    ensures 1 + ItemsLevels(d.items) <= Levels(d) && 1 + EntriesLevels(d.entries) <= Levels(d)
  {
  }

  /** A table from its two parts. */
  lemma TableFromParts(h: Heap, vm: Vm, r: nat, d: LuaData, keys: seq<LuaKey>, depth: nat, limits: Limits, budget: nat,
                       b: nat, b': nat)
    requires Sound(h) && Legal(h, vm) && r < |h| && h[r] in h && d.Table? && b <= budget
    requires vm.border(r, budget) == |d.items| && vm.order(r, budget) == keys
    requires forall i :: 0 <= i < |keys| ==> keys[i] in h[r]
    requires FromItems(h, vm, h[r], 1, |d.items|, depth + 1, limits, budget, []) == Success((d.items, b))
    requires FromPairs(h, vm, h[r], keys, |d.items|, depth + 1, limits, b, []) == Success((d.entries, b'))
    ensures FromTable(h, vm, r, depth, limits, budget) == Success((d, b'))
  {
    hide Sound, Legal, FromItems, FromPairs;
  }

  lemma OthersListed(h: Heap, r: nat, d: LuaData, others: seq<LuaKey>)
    requires Sound(h) && Reads(h, VTable(r), d) && Enumerates(OthersOf(h[r], d.entries), others)
    ensures forall i :: 0 <= i < |others| ==> others[i].Known? && !Outside(others[i].key, |d.items|) && others[i] in h[r]
  {
    forall i | 0 <= i < |others| ensures others[i].Known? && !Outside(others[i].key, |d.items|) && others[i] in h[r] {
      assert others[i] in others;
      OthersAreListed(h, r, d, others[i]);
    }
  }

  lemma {:induction false} ItemsPlanGives(
    h: Heap, plan: seq<LuaData>, k: nat, r: nat, d: LuaData, i: nat, depth: nat, limits: Limits)
    requires Sound(h) && Legal(h, PlannedVm(h, plan)) && Reads(h, VTable(r), d) && r < |h| && d.Table? && i <= |d.items|
    requires PlannedAt(plan, k, VisitedItems(d.items[i..])) && depth + ItemsLevels(d.items[i..]) <= limits.depth
    ensures h[r] in h
    ensures FromItems(h, PlannedVm(h, plan), h[r], i + 1, |d.items|, depth, limits, |plan| - k, d.items[..i])
         == Success((d.items, |plan| - k - ItemsNodes(d.items[i..])))
    decreases d, 1, |d.items| - i
  {
    hide Reads, Sound, Legal, FromLua, PlannedVm, Levels, Nodes, PlannedAt, Visited, Index;
    assert h[r] in h;
    if i < |d.items| {
      var x, rest := d.items[i], d.items[i + 1..];
      assert d.items[i..][1..] == rest && d.items[i..][0] == x;
      PlannedFirst(plan, k, Visited(x), VisitedItems(rest));
      ItemReads(h, r, d, i);
      IndexValid(h, h[r], i + 1);
      PlanGives(h, plan, k, Index(h[r], i + 1), x, depth, limits);
      assert d.items[..i] + [x] == d.items[..i + 1];
      ItemsPlanGives(h, plan, k + Nodes(x), r, d, i + 1, depth, limits);
    } else {
      assert d.items[i..] == [] && d.items[..i] == d.items;
    }
  }

  lemma ItemReads(h: Heap, r: nat, d: LuaData, i: nat)
    requires Reads(h, VTable(r), d) && i < |d.items|
    ensures Reads(h, Index(h[r], i + 1), d.items[i])
  {
    ItemIsSlot(d.items, d.entries, i);
    assert Reads(h, Lookup(h[r], IntKey(i + 1)), Slot(d.items, d.entries, IntKey(i + 1)));
  }

  lemma {:induction false} EntriesPlanGive(
    h: Heap, plan: seq<LuaData>, k: nat, r: nat, d: LuaData, j: nat, others: seq<LuaKey>, depth: nat, limits: Limits)
    requires Sound(h) && Legal(h, PlannedVm(h, plan)) && Reads(h, VTable(r), d) && r < |h| && d.Table? && j <= |d.entries|
    requires PlannedAt(plan, k, VisitedEntries(d.entries[j..])) && depth + EntriesLevels(d.entries[j..]) <= limits.depth
    requires forall i :: 0 <= i < |others| ==> others[i].Known? && !Outside(others[i].key, |d.items|) && others[i] in h[r]
    ensures var keys := EntryKeys(d.entries[j..]) + others;
            && h[r] in h && (forall i :: 0 <= i < |keys| ==> keys[i] in h[r])
            && FromPairs(h, PlannedVm(h, plan), h[r], keys, |d.items|, depth, limits, |plan| - k, d.entries[..j])
               == Success((d.entries, |plan| - k - EntriesNodes(d.entries[j..])))
    decreases d, 1, |d.entries| - j
  {
    hide Reads, Sound, Legal, FromLua, FromPairs, PlannedVm, Levels, Nodes, Insert, PlannedAt, Visited, EntryKeys;
    assert h[r] in h;
    var keys := EntryKeys(d.entries[j..]) + others;
    if j < |d.entries| {
      var e, rest := d.entries[j], d.entries[j + 1..];
      assert d.entries[j..][1..] == rest && d.entries[j..][0] == e;
      FirstKey(d.entries[j..], others);
      PlannedFirst(plan, k, VisitedEntry(e), VisitedEntries(rest));
      EntryIsField(h, r, d, j);
      PlanGives(h, plan, k, h[r][Known(e.key)], e.value, depth, limits);
      EntryGoesLast(h, r, d, j);
      assert d.entries[..j] + [e] == d.entries[..j + 1];
      PlannedFits(plan, k, VisitedEntry(e));
      EntriesPlanGive(h, plan, k + Nodes(e.value), r, d, j + 1, others, depth, limits);
      PairsStep(h, PlannedVm(h, plan), h[r], keys, e, |d.items|, depth, limits, |plan| - k, |plan| - k - Nodes(e.value), d.entries[..j]);
    } else {
      PlannedFits(plan, k, VisitedEntries(d.entries[j..]));
      assert EntryKeys([]) == [];
      assert keys == others && d.entries[j..] == [] && d.entries[..j] == d.entries;
      ListedAreSkipped(h, PlannedVm(h, plan), h[r], others, |d.items|, depth, limits, |plan| - k, d.entries);
    }
  }

  /** One key of `pairs`, outside the list part. */
  lemma PairsStep(h: Heap, vm: Vm, t: LuaTable, keys: seq<LuaKey>, e: Entry, n: nat, depth: nat, limits: Limits,
                  budget: nat, b: nat, acc: seq<Entry>)
    requires Sound(h) && Legal(h, vm) && t in h && (forall i :: 0 <= i < |keys| ==> keys[i] in t)
    requires keys != [] && keys[0] == Known(e.key) && Outside(e.key, n) && Valid(h, t[Known(e.key)])
    requires FromLua(h, vm, t[Known(e.key)], depth, limits, budget) == Success((e.value, b))
    ensures FromPairs(h, vm, t, keys, n, depth, limits, budget, acc)
         == FromPairs(h, vm, t, keys[1..], n, depth, limits, b, Insert(acc, e.key, e.value))
  {
    hide Sound, Legal, FromLua, Insert;
  }

  lemma FirstKey(entries: seq<Entry>, others: seq<LuaKey>)
    requires entries != []
    ensures var keys := EntryKeys(entries) + others;
            keys[0] == Known(entries[0].key) && keys[1..] == EntryKeys(entries[1..]) + others
  {
  }

  lemma EntryGoesLast(h: Heap, r: nat, d: LuaData, j: nat)
    requires Reads(h, VTable(r), d) && j < |d.entries|
    ensures Insert(d.entries[..j], d.entries[j].key, d.entries[j].value) == d.entries[..j] + [d.entries[j]]
  {
    InsertLast(d.entries[..j], d.entries[j].key, d.entries[j].value);
  }

  lemma {:induction false} ListedAreSkipped(h: Heap, vm: Vm, t: LuaTable, keys: seq<LuaKey>, n: nat, depth: nat,
                                            limits: Limits, budget: nat, acc: seq<Entry>)
    requires Sound(h) && Legal(h, vm) && t in h
    requires forall i :: 0 <= i < |keys| ==> keys[i].Known? && !Outside(keys[i].key, n) && keys[i] in t
    ensures FromPairs(h, vm, t, keys, n, depth, limits, budget, acc) == Success((acc, budget))
    decreases |keys|
  {
    hide Sound, Legal;
    if keys != [] {
      ListedAreSkipped(h, vm, t, keys[1..], n, depth, limits, budget, acc);
    }
  }

  // ------------------------------------------------------------------- exactly

  /** Copying `v` out may return `d`, under some legal VM and some limits. */
  ghost predicate MayCopyTo(h: Heap, v: LuaValue, d: LuaData)
    requires Sound(h) && Valid(h, v)
  {
    exists vm, limits: Limits :: Legal(h, vm) && CopiesTo(h, vm, v, limits, d)
  }

  ghost predicate CopiesTo(h: Heap, vm: Vm, v: LuaValue, limits: Limits, d: LuaData)
    requires Sound(h) && Valid(h, v) && Legal(h, vm)
  {
    var r := FromLua(h, vm, v, 0, limits, limits.nodes);
    r.Success? && r.value.0 == d
  }

  /** The copies that copying out may return are exactly the faithful ones, each within limits of its own size. */
  lemma CopiesAreTheFaithful(h: Heap, v: LuaValue, d: LuaData)
    requires Sound(h) && Valid(h, v)
    ensures MayCopyTo(h, v, d) <==> Reads(h, v, d)
    ensures Reads(h, v, d) ==>
              exists vm :: Legal(h, vm) && FromLua(h, vm, v, 0, Limits(Levels(d), Nodes(d)), Nodes(d)) == Success((d, 0))
  {
    hide FromLua, Reads, Levels, Nodes, Visited, PlannedVm, Legal, Sound;
    if Reads(h, v, d) {
      var plan := Visited(d);
      assert plan[0..0 + |plan|] == plan;
      PlannedIsLegal(h, plan);
      PlanGives(h, plan, 0, v, d, 0, Limits(Levels(d), Nodes(d)));
      assert CopiesTo(h, PlannedVm(h, plan), v, Limits(Levels(d), Nodes(d)), d);
    } else if MayCopyTo(h, v, d) {
      var vm, limits: Limits :| Legal(h, vm) && CopiesTo(h, vm, v, limits, d);
      FromLuaReads(h, vm, v, 0, limits, limits.nodes);
    }
  }

  /** A copy that was returned is the only one that can be, whatever the VM and the limits, exactly if it is tight. */
  lemma OnlyCopyIffTight(h: Heap, v: LuaValue, d: LuaData)
    requires Sound(h) && Valid(h, v) && MayCopyTo(h, v, d)
    ensures Tight(d) <==>
            forall vm, limits: Limits :: Legal(h, vm) && FromLua(h, vm, v, 0, limits, limits.nodes).Success? ==>
                                           FromLua(h, vm, v, 0, limits, limits.nodes).value.0 == d
  {
    hide FromLua, Reads, Tight;
    CopiesAreTheFaithful(h, v, d);
    if Tight(d) {
      forall vm, limits: Limits | Legal(h, vm) && FromLua(h, vm, v, 0, limits, limits.nodes).Success?
        ensures FromLua(h, vm, v, 0, limits, limits.nodes).value.0 == d
      {
        FromLuaReads(h, vm, v, 0, limits, limits.nodes);
        TightIsOnly(h, v, d, FromLua(h, vm, v, 0, limits, limits.nodes).value.0);
      }
    } else {
      var d' := LooseHasAnother(h, v, d);
      CopiesAreTheFaithful(h, v, d');
      var vm, limits: Limits :| Legal(h, vm) && CopiesTo(h, vm, v, limits, d');
    }
  }

  /**
   Copying out what was rebuilt is the identity, for every VM and all limits under which it succeeds,
   exactly if the copy is tight.
   */
  lemma IdentityIffTight(other: Heap, d: LuaData)
    requires WellFormed(d) && Nodes(d) < I64_MAX && Sound(other)
    ensures var (h', v') := ToLua(other, d);
            && Sound(h') && Valid(h', v')
            && (Tight(d) <==>
                forall vm, limits: Limits :: Legal(h', vm) && FromLua(h', vm, v', 0, limits, limits.nodes).Success? ==>
                                               FromLua(h', vm, v', 0, limits, limits.nodes).value.0 == d)
  {
    hide FromLua, ToLua, Reads, Tight, Unfolds, ContentOf, WellFormed;
    ToLuaSound(other, d);
    ToLuaUnfolds(other, d);
    var (h', v') := ToLua(other, d);
    UnfoldsFrame(h', h', |other|, 0, v', ContentOf(d));
    if Tight(d) {
      TightReads(h', v', d);
    }
    if Reads(h', v', d) {
      CopiesAreTheFaithful(h', v', d);
      OnlyCopyIffTight(h', v', d);
    } else {
      LooseComesBackChanged(h', v', d);
    }
  }

  /** A value that unfolds has a faithful copy. */
  lemma {:induction false} SomeCopy(h: Heap, v: LuaValue, c: Content) returns (d: LuaData)
    requires Sound(h) && Unfolds(h, 0, v, c)
    ensures Reads(h, v, d)
    decreases c, 1
  {
    match v
    case VNil => d := Nil;
    case VBool(b) => d := Bool(b);
    case VInt(i) => d := Int(i);
    case VNum(n) => d := Num(n);
    case VStr(s) => d := Str(s);
    case VTable(r) =>
      var t := h[r];
      var n, keys := FirstBorder(t, 0), SomeOrder(t);
      var items := SomeItems(h, t, c, n);
      var entries := SomeEntries(h, t, c, n, keys);
      TableReads(h, r, n, keys, items, entries);
      d := Table(items, entries);
  }

  ghost predicate HasFields(h: Heap, t: LuaTable, c: Content) {
    && c.CTable? && (forall k :: k in t <==> k.Known? && k.key in c.fields)
    && (forall k :: k in c.fields ==> Unfolds(h, 0, t[Known(k)], c.fields[k]))
  }

  lemma {:induction false} SomeItems(h: Heap, t: LuaTable, c: Content, n: nat) returns (items: seq<LuaData>)
    requires Sound(h) && HasFields(h, t, c)
    ensures |items| == n && ItemsRead(h, t, items)
    decreases c, 0
  {
    hide Sound, Reads, Unfolds;
    items := [];
    while |items| < n
      invariant |items| <= n && ItemsRead(h, t, items)
    {
      var v := Index(t, |items| + 1);
      var d := Nil;
      if !v.VNil? {
        d := SomeCopy(h, v, c.fields[IntKey(|items| + 1)]);
      } else {
        NilIsNil(h);
      }
      items := items + [d];
    }
  }

  lemma NilIsNil(h: Heap)
    ensures Reads(h, VNil, Nil)
  {
  }

  lemma {:induction false} SomeEntries(h: Heap, t: LuaTable, c: Content, n: nat, keys: seq<LuaKey>) returns (entries: seq<Entry>)
    requires Sound(h) && HasFields(h, t, c) && Enumerates(t, keys)
    ensures EntriesRead(h, t, n, keys, entries)
    decreases c, 0
  {
    hide Sound, Reads, Unfolds, EntriesRead;
    entries := [];
    NothingRead(h, t, n);
    var i := 0;
    while i < |keys|
      invariant i <= |keys| && EntriesRead(h, t, n, keys[..i], entries)
    {
      assert keys[i] in keys;
      var k := keys[i].key;
      assert keys[..i + 1] == keys[..i] + [Known(k)];
      if Outside(k, n) {
        var d := SomeCopy(h, t[Known(k)], c.fields[k]);
        InsertRead(h, t, n, keys[..i], k, entries, d);
        entries := Insert(entries, k, d);
      } else {
        SkipRead(h, t, n, keys[..i], k, entries);
      }
      i := i + 1;
    }
    assert keys[..i] == keys;
  }

  /** A copy whose content a value has, but which is no copy of it, is not what that value copies to. */
  lemma LooseComesBackChanged(h: Heap, v: LuaValue, d: LuaData)
    requires Sound(h) && Valid(h, v) && Unfolds(h, 0, v, ContentOf(d)) && !Reads(h, v, d)
    ensures exists vm, limits: Limits :: Legal(h, vm) && FromLua(h, vm, v, 0, limits, limits.nodes).Success?
                                         && FromLua(h, vm, v, 0, limits, limits.nodes).value.0 != d
  {
    hide FromLua, Unfolds, ContentOf;
    var d' := SomeCopy(h, v, ContentOf(d));
    CopiesAreTheFaithful(h, v, d');
    var vm, limits: Limits :| Legal(h, vm) && CopiesTo(h, vm, v, limits, d');
    assert FromLua(h, vm, v, 0, limits, limits.nodes).value.0 != d;
  }
}
