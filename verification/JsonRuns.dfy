/** The JSON conversions as they run: keys tallied in a loop, a budget counted down, a path kept for messages. */
module JsonRuns {
  import opened Wrappers
  import opened Bytes
  import opened Wire
  import opened LuaHeap
  import opened Marshal
  import opened MarshalContent
  import opened JsonConvert

  datatype PathStep = KeyStep(name: seq<byte>) | IndexStep(i: nat)

  /** What a conversion returns and the budget it leaves, against its function. */
  ghost predicate Left<T>(r: Result<T, JsonError>, budget: nat, spec: Rendered<T>) {
    match spec
    case Success((d, b)) => r == Success(d) && budget == b
    case Failure(e) => r == Failure(e)
  }

  /** One pass over the keys of a table. */
  method ClassifyTable(keys: seq<LuaKey>) returns (r: Result<Shape, JsonError>)
    ensures r == Classify(keys)
  {
    var indices: nat, maxIndex: nat, named: nat := 0, 0, 0;
    var j := 0;
    while j < |keys|
      invariant j <= |keys|
      invariant TallyKeys(keys[j..], Tally(indices, maxIndex, named)) == TallyKeys(keys, Tally(0, 0, 0))
    {
      assert keys[j..][1..] == keys[j + 1..];
      match keys[j] {
        case Odd(_, kind) => return Failure(BadKey(kind));
        case Known(k) =>
          if k.IntKey? && k.i >= 1 {
            indices := indices + 1;
            maxIndex := if maxIndex < k.i then k.i else maxIndex;
          } else {
            named := named + 1;
          }
      }
      j := j + 1;
    }
    return ShapeOf(Tally(indices, maxIndex, named));
  }

  lemma TableIn(h: Heap, ref: nat)
    requires ref < |h|
    ensures h[ref] in h
  {
  }

  class Converter {
    const h: Heap
    const vm: Vm
    var budget: nat
    var path: seq<PathStep>

    constructor (h: Heap, vm: Vm)
      ensures this.h == h && this.vm == vm && budget == MAX_JSON_NODES && path == []
    {
      this.h, this.vm := h, vm;
      budget, path := MAX_JSON_NODES, [];
    }

    /** However it ends, the path is what it was. */
    method Convert(v: LuaValue, depth: nat) returns (r: Result<Json, JsonError>)
      requires Sound(h) && Legal(h, vm) && Valid(h, v)
      modifies this
      ensures Left(r, budget, LuaToJson(h, vm, v, depth, old(budget)))
      ensures budget <= old(budget) && path == old(path)
      decreases budget, 1
    {
      if budget == 0 {
        return Failure(TooMany);
      }
      budget := budget - 1;
      match v {
        case VNil => return Success(JNull);
        case VBool(b) => return Success(JBool(b));
        case VInt(i) => return Success(JInt(i));
        case VNum(bits) =>
          if !IsFinite(bits) {
            return Failure(NotFinite);
          }
          return Success(JFloat(bits));
        case VStr(s) =>
          if !IsUtf8(s) {
            return Failure(JsonError.NotUtf8);
          }
          return Success(JString(s));
        case VTable(ref) =>
          if depth >= MAX_JSON_DEPTH {
            return Failure(JsonError.TooDeep);
          }
          r := ConvertTable(ref, depth);
        case VOpaque(kind) => return Failure(NoJson(kind));
      }
    }

    method ConvertTable(ref: nat, depth: nat) returns (r: Result<Json, JsonError>)
      requires Sound(h) && Legal(h, vm) && ref < |h|
      modifies this
      ensures Left(r, budget, TableToJson(h, vm, ref, depth, old(budget)))
      ensures budget <= old(budget) && path == old(path)
      decreases budget, 3
    {
      hide Sound, Legal, Classify, ArrayToJson, ObjectToJson;
      var shape :- ClassifyTable(vm.order(ref, 2 * budget));
      match shape {
        case Empty => return Success(JObject([]));
        case Array(n) =>
          TableIn(h, ref);
          var items :- ConvertArray(h[ref], n, depth + 1);
          return Success(JArray(items));
        case Object =>
          VisitIsLegal(h, vm, ref, 2 * budget + 1);
          var fields :- ConvertObject(h[ref], vm.order(ref, 2 * budget + 1), depth + 1);
          return Success(JObject(fields));
      }
    }

    method ConvertArray(t: LuaTable, n: nat, depth: nat) returns (r: Result<seq<Json>, JsonError>)
      requires Sound(h) && Legal(h, vm) && t in h
      modifies this
      ensures Left(r, budget, ArrayToJson(h, vm, t, 1, n, depth, old(budget), []))
      ensures budget <= old(budget) && path == old(path)
      decreases budget, 2
    {
      hide Sound, Legal, LuaToJson, Index;
      var items := [];
      var i := 1;
      while i <= n
        invariant 1 <= i <= n + 1 && budget <= old(budget) && path == old(path)
        invariant ArrayToJson(h, vm, t, i, n, depth, budget, items)
               == ArrayToJson(h, vm, t, 1, n, depth, old(budget), [])
      {
        IndexValid(h, t, i);
        path := path + [IndexStep(i)];
        var converted := Convert(Index(t, i), depth);
        path := path[..|path| - 1];
        var j :- converted;
        items := items + [j];
        i := i + 1;
      }
      return Success(items);
    }

    method ConvertObject(t: LuaTable, keys: seq<LuaKey>, depth: nat) returns (r: Result<seq<Field>, JsonError>)
      requires Sound(h) && Legal(h, vm) && t in h && forall i :: 0 <= i < |keys| ==> keys[i] in t
      modifies this
      ensures Left(r, budget, ObjectToJson(h, vm, t, keys, depth, old(budget), []))
      ensures budget <= old(budget) && path == old(path)
      decreases budget, 2
    {
      hide Sound, Legal, LuaToJson, InsertField, FieldName;
      var fields := [];
      var i := 0;
      while i < |keys|
        invariant i <= |keys| && budget <= old(budget) && path == old(path)
        invariant ObjectToJson(h, vm, t, keys[i..], depth, budget, fields)
               == ObjectToJson(h, vm, t, keys, depth, old(budget), [])
      {
        assert keys[i..][1..] == keys[i + 1..];
        if keys[i].Known? {
          var name :- FieldName(keys[i].key);
          KeyValid(h, t, keys[i]);
          path := path + [KeyStep(name)];
          var converted := Convert(t[keys[i]], depth);
          path := path[..|path| - 1];
          var j :- converted;
          fields := InsertField(fields, name, j);
        }
        i := i + 1;
      }
      return Success(fields);
    }
  }

  class JsonVm {
    var tables: Heap

    constructor ()
      ensures tables == []
    {
      tables := [];
    }

    /** Builds what rebuilding the value's copy builds. */
    method Build(j: Json) returns (v: LuaValue)
      modifies this
      ensures (tables, v) == ToLua(old(tables), AsData(j))
      decreases j, 2
    {
      match j {
        case JNull => v := VNil;
        case JBool(b) => v := VBool(b);
        case JInt(i) => v := VInt(i);
        case JFloat(bits) => v := VNum(bits);
        case JLarge(bits) => v := VNum(bits);
        case JString(s) => v := VStr(s);
        case JArray(items) =>
          var r := |tables|;
          tables := tables + [map[]];
          FillArray(r, items);
          v := VTable(r);
        case JObject(fields) =>
          var r := |tables|;
          tables := tables + [map[]];
          FillObject(r, fields);
          v := VTable(r);
      }
    }

    method FillArray(r: nat, items: seq<Json>)
      modifies this
      ensures tables == SetItems(old(tables), r, 0, AsItems(items))
      decreases items, 1
    {
      hide ToLua, SetField;
      var i := 0;
      assert items[0..] == items;
      while i < |items|
        invariant i <= |items|
        invariant SetItems(tables, r, i, AsItems(items[i..])) == SetItems(old(tables), r, 0, AsItems(items))
      {
        var rest := items[i..];
        assert rest[1..] == items[i + 1..] && AsItems(rest)[0] == AsData(items[i]) && AsItems(rest)[1..] == AsItems(rest[1..]);
        var v := Build(items[i]);
        tables := SetField(tables, r, i + 1, v);
        i := i + 1;
      }
    }

    method FillObject(r: nat, fields: seq<Field>)
      modifies this
      ensures tables == SetEntries(old(tables), r, AsEntries(fields))
      decreases fields, 1
    {
      hide ToLua;
      var i := 0;
      assert fields[0..] == fields;
      while i < |fields|
        invariant i <= |fields|
        invariant SetEntries(tables, r, AsEntries(fields[i..])) == SetEntries(old(tables), r, AsEntries(fields))
      {
        var rest := fields[i..];
        assert rest[1..] == fields[i + 1..] && AsEntries(rest)[0] == AsEntry(fields[i]) && AsEntries(rest)[1..] == AsEntries(rest[1..]);
        FillField(r, fields[i]);
        i := i + 1;
      }
    }

    method FillField(r: nat, f: Field)
      modifies this
      ensures tables == SetEntry(old(tables), r, AsEntry(f))
      decreases f
    {
      var v := Build(f.value);
      if r < |tables| {
        tables := tables[r := RawSet(tables[r], Known(StrKey(f.key)), v)];
      }
    }
  }
}
