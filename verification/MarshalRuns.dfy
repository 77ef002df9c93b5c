/** The two conversions as they run: a budget counted down, lists filled in loops, tables set in place. */
module MarshalRuns {
  import opened Wrappers
  import opened Wire
  import opened LuaHeap
  import opened Marshal
  import opened MarshalContent

  /** What a conversion returns and the budget it leaves, against its function. */
  ghost predicate Left<T>(r: Result<T, MarshalError>, budget: nat, spec: Copied<T>) {
    match spec
    case Success((d, b)) => r == Success(d) && budget == b
    case Failure(e) => r == Failure(e)
  }

  class Copier {
    const h: Heap
    const vm: Vm
    const limits: Limits
    var budget: nat

    constructor (h: Heap, vm: Vm, limits: Limits)
      ensures this.h == h && this.vm == vm && this.limits == limits && budget == limits.nodes
    {
      this.h, this.vm, this.limits := h, vm, limits;
      budget := limits.nodes;
    }

    method Copy(v: LuaValue, depth: nat) returns (r: Result<LuaData, MarshalError>)
      requires Sound(h) && Legal(h, vm) && Valid(h, v)
      modifies this
      ensures Left(r, budget, FromLua(h, vm, v, depth, limits, old(budget)))
      ensures budget <= old(budget)
      decreases budget, 1
    {
      if budget == 0 {
        return Failure(TooManyNodes(limits.nodes));
      }
      budget := budget - 1;
      match v {
        case VNil => return Success(Nil);
        case VBool(b) => return Success(Bool(b));
        case VInt(i) => return Success(Int(i));
        case VNum(n) => return Success(Num(n));
        case VStr(s) => return Success(Str(s));
        case VTable(ref) =>
          if depth >= limits.depth {
            return Failure(MarshalError.TooDeep(limits.depth));
          }
          r := CopyTable(ref, depth);
        case VOpaque(kind) => return Failure(Unsupported(kind));
      }
    }

    method CopyTable(ref: nat, depth: nat) returns (r: Result<LuaData, MarshalError>)
      requires Sound(h) && Legal(h, vm) && ref < |h|
      modifies this
      ensures Left(r, budget, FromTable(h, vm, ref, depth, limits, old(budget)))
      ensures budget <= old(budget)
      decreases budget, 3
    {
      VisitIsLegal(h, vm, ref, budget);
      var n := vm.border(ref, budget);
      var keys := vm.order(ref, budget);
      var items :- CopyItems(h[ref], n, depth + 1);
      var entries :- CopyPairs(h[ref], keys, n, depth + 1);
      return Success(Table(items, entries));
    }

    method CopyItems(t: LuaTable, n: nat, depth: nat) returns (r: Result<seq<LuaData>, MarshalError>)
      requires Sound(h) && Legal(h, vm) && t in h
      modifies this
      ensures Left(r, budget, FromItems(h, vm, t, 1, n, depth, limits, old(budget), []))
      ensures budget <= old(budget)
      decreases budget, 2
    {
      hide Sound, Legal, FromLua, Index;
      var items := [];
      var i := 1;
      while i <= n
        invariant 1 <= i <= n + 1 && budget <= old(budget)
        invariant FromItems(h, vm, t, i, n, depth, limits, budget, items)
               == FromItems(h, vm, t, 1, n, depth, limits, old(budget), [])
      {
        IndexValid(h, t, i);
        var d :- Copy(Index(t, i), depth);
        items := items + [d];
        i := i + 1;
      }
      return Success(items);
    }

    /** Integer keys of the list part are passed over; other kinds of key are refused. */
    method CopyPairs(t: LuaTable, keys: seq<LuaKey>, n: nat, depth: nat) returns (r: Result<seq<Entry>, MarshalError>)
      requires Sound(h) && Legal(h, vm) && t in h && forall i :: 0 <= i < |keys| ==> keys[i] in t
      modifies this
      ensures Left(r, budget, FromPairs(h, vm, t, keys, n, depth, limits, old(budget), []))
      ensures budget <= old(budget)
      decreases budget, 2
    {
      hide Sound, Legal, FromLua, Insert;
      var entries := [];
      var j := 0;
      while j < |keys|
        invariant j <= |keys| && budget <= old(budget)
        invariant FromPairs(h, vm, t, keys[j..], n, depth, limits, budget, entries)
               == FromPairs(h, vm, t, keys, n, depth, limits, old(budget), [])
      {
        assert keys[j..][1..] == keys[j + 1..] && keys[j..][0] == keys[j];
        if keys[j].Odd? {
          return Failure(Unsupported(keys[j].kind));
        }
        var k := keys[j].key;
        if Outside(k, n) {
          KeyValid(h, t, keys[j]);
          var d :- Copy(t[keys[j]], depth);
          entries := Insert(entries, k, d);
        }
        j := j + 1;
      }
      return Success(entries);
    }
  }

  class LuaVm {
    var tables: Heap

    constructor ()
      ensures tables == []
    {
      tables := [];
    }

    /** A new table is made first, then filled. */
    method Build(d: LuaData) returns (v: LuaValue)
      modifies this
      ensures (tables, v) == ToLua(old(tables), d)
      decreases d, 2
    {
      match d {
        case Nil => v := VNil;
        case Bool(b) => v := VBool(b);
        case Int(i) => v := VInt(i);
        case Num(n) => v := VNum(n);
        case Str(s) => v := VStr(s);
        case Table(items, entries) =>
          var r := |tables|;
          tables := tables + [map[]];
          FillItems(r, items);
          FillEntries(r, entries);
          v := VTable(r);
      }
    }

    method FillItems(r: nat, items: seq<LuaData>)
      modifies this
      ensures tables == SetItems(old(tables), r, 0, items)
      decreases items, 1
    {
      hide ToLua, SetField;
      var i := 0;
      assert items[0..] == items;
      while i < |items|
        invariant i <= |items|
        invariant SetItems(tables, r, i, items[i..]) == SetItems(old(tables), r, 0, items)
      {
        assert items[i..][1..] == items[i + 1..];
        var v := Build(items[i]);
        tables := SetField(tables, r, i + 1, v);
        i := i + 1;
      }
    }

    method FillEntries(r: nat, entries: seq<Entry>)
      modifies this
      ensures tables == SetEntries(old(tables), r, entries)
      decreases entries, 1
    {
      hide ToLua;
      var j := 0;
      assert entries[0..] == entries;
      while j < |entries|
        invariant j <= |entries|
        invariant SetEntries(tables, r, entries[j..]) == SetEntries(old(tables), r, entries)
      {
        assert entries[j..][1..] == entries[j + 1..];
        FillEntry(r, entries[j]);
        j := j + 1;
      }
    }

    method FillEntry(r: nat, e: Entry)
      modifies this
      ensures tables == SetEntry(old(tables), r, e)
      decreases e
    {
      var v := Build(e.value);
      if r < |tables| {
        tables := tables[r := RawSet(tables[r], Known(e.key), v)];
      }
    }
  }
}
