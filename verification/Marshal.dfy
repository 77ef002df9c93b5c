/**
 Copying a Lua value out of its VM and back into another: out of a heap that may share and cycle,
 through a finite tree, into new tables of a heap of its own.
 */
module Marshal {
  import opened Wrappers
  import opened Wire
  import opened LuaHeap

  datatype Limits = Limits(depth: nat, nodes: nat)

  datatype MarshalError = TooDeep(limit: nat) | TooManyNodes(limit: nat) | Unsupported(kind: Kind)

  type Copied<T> = Result<(T, nat), MarshalError>

  /**
   What the VM is free to choose: the border it reports for a table and the order of `pairs`. Both
   may differ from one visit of a table to the next; a visit is named by the budget left at it.
   */
  datatype Vm = Vm(border: (nat, nat) -> nat, order: (nat, nat) -> seq<LuaKey>)

  ghost predicate Legal(h: Heap, vm: Vm) {
    forall r, visit :: 0 <= r < |h| && 0 <= visit ==>
                         IsBorder(h[r], vm.border(r, visit)) && Enumerates(h[r], vm.order(r, visit))
  }

  /** A key that the list part `1..=n` does not cover. */
  predicate Outside(k: Key, n: nat) {
    k.IntKey? ==> k.i < 1 || k.i > n
  }

  // ------------------------------------------------------------ out of the VM

  /** The copy and the budget left, or the first error met. */
  ghost function FromLua(h: Heap, vm: Vm, v: LuaValue, depth: nat, limits: Limits, budget: nat): (r: Copied<LuaData>)
    requires Sound(h) && Legal(h, vm) && Valid(h, v)
    ensures r.Success? ==> r.value.1 < budget
    decreases budget, 1, 0
  {
    if budget == 0 then Failure(TooManyNodes(limits.nodes))
    else
      match v
      case VNil => Success((Nil, budget - 1))
      case VBool(b) => Success((Bool(b), budget - 1))
      case VInt(i) => Success((Int(i), budget - 1))
      case VNum(n) => Success((Num(n), budget - 1))
      case VStr(s) => Success((Str(s), budget - 1))
      case VTable(ref) =>
        if depth >= limits.depth then Failure(MarshalError.TooDeep(limits.depth))
        else FromTable(h, vm, ref, depth, limits, budget - 1)
      case VOpaque(kind) => Failure(Unsupported(kind))
  }

  ghost function FromTable(h: Heap, vm: Vm, ref: nat, depth: nat, limits: Limits, budget: nat): (r: Copied<LuaData>)
    requires Sound(h) && Legal(h, vm) && ref < |h|
    ensures r.Success? ==> r.value.1 <= budget
    decreases budget, 3, 0
  {
    var n := vm.border(ref, budget);
    var (items, b) :- FromItems(h, vm, h[ref], 1, n, depth + 1, limits, budget, []);
    var (entries, b') :- FromPairs(h, vm, h[ref], vm.order(ref, budget), n, depth + 1, limits, b, []);
    Success((Table(items, entries), b'))
  }

  ghost function FromItems(h: Heap, vm: Vm, t: LuaTable, i: nat, n: nat, depth: nat, limits: Limits, budget: nat,
                           acc: seq<LuaData>): (r: Copied<seq<LuaData>>)
    requires Sound(h) && Legal(h, vm) && t in h
    ensures r.Success? ==> r.value.1 <= budget
    decreases budget, 2, n + 1 - i
  {
    if i > n then Success((acc, budget))
    else
      var (d, b) :- FromLua(h, vm, Index(t, i), depth, limits, budget);
      FromItems(h, vm, t, i + 1, n, depth, limits, b, acc + [d])
  }

  ghost function FromPairs(h: Heap, vm: Vm, t: LuaTable, keys: seq<LuaKey>, n: nat, depth: nat, limits: Limits,
                           budget: nat, acc: seq<Entry>): (r: Copied<seq<Entry>>)
    requires Sound(h) && Legal(h, vm) && t in h && forall i :: 0 <= i < |keys| ==> keys[i] in t
    ensures r.Success? ==> r.value.1 <= budget
    decreases budget, 2, |keys|
  {
    if keys == [] then Success((acc, budget))
    else
      match keys[0]
      case Odd(_, kind) => Failure(Unsupported(kind))
      case Known(k) =>
        if !Outside(k, n) then FromPairs(h, vm, t, keys[1..], n, depth, limits, budget, acc)
        else
          var (d, b) :- FromLua(h, vm, t[keys[0]], depth, limits, budget);
          FromPairs(h, vm, t, keys[1..], n, depth, limits, b, Insert(acc, k, d))
  }

  // ------------------------------------------------------------- into a VM

  /** The heap afterwards and the value. A table is created before what it holds. */
  function ToLua(h: Heap, d: LuaData): (r: (Heap, LuaValue))
    decreases d, 0
  {
    match d
    case Nil => (h, VNil)
    case Bool(b) => (h, VBool(b))
    case Int(i) => (h, VInt(i))
    case Num(n) => (h, VNum(n))
    case Str(s) => (h, VStr(s))
    case Table(items, entries) =>
      var h1 := SetItems(h + [map[]], |h|, 0, items);
      (SetEntries(h1, |h|, entries), VTable(|h|))
  }

  /** `items` are set from index `i + 1` on. */
  function SetItems(h: Heap, r: nat, i: nat, items: seq<LuaData>): Heap
    decreases items
  {
    if items == [] then h
    else
      var (h', v) := ToLua(h, items[0]);
      SetItems(SetField(h', r, i + 1, v), r, i + 1, items[1..])
  }

  /** `raw_set` of an integer key. */
  function SetField(h: Heap, r: nat, i: nat, v: LuaValue): Heap {
    if r < |h| && i <= I64_MAX then h[r := RawSet(h[r], Known(IntKey(i)), v)] else h
  }

  function SetEntries(h: Heap, r: nat, entries: seq<Entry>): Heap
    decreases entries
  {
    if entries == [] then h
    else SetEntries(SetEntry(h, r, entries[0]), r, entries[1..])
  }

  function SetEntry(h: Heap, r: nat, e: Entry): Heap
    decreases e
  {
    var (h', v) := ToLua(h, e.value);
    if r < |h'| then h'[r := RawSet(h'[r], Known(e.key), v)] else h'
  }
}
