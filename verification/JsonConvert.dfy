/** Lua values to JSON and back: what is converted, and what is refused because JSON cannot hold it. */
module JsonConvert {
  import opened Wrappers
  import opened Bytes
  import opened Wire
  import opened LuaHeap
  import opened Marshal

  /**
   A JSON value. A number is an integer of 64 signed bits, a finite float, or a larger integer, which
   reads as a float. The fields of an object are in key order.
   */
  datatype Json =
    | JNull
    | JBool(b: bool)
    | JInt(i: i64)
    | JFloat(bits: u64)
    | JLarge(asFloat: u64)
    | JString(s: seq<byte>)
    | JArray(items: seq<Json>)
    | JObject(fields: seq<Field>)

  datatype Field = Field(key: seq<byte>, value: Json)

  datatype JsonError =
    | TooMany
    | TooDeep
    | NotFinite
    | NotUtf8
    | BadKey(kind: Kind)
    | Mixed
    | NoJson(kind: Kind)

  type Rendered<T> = Result<(T, nat), JsonError>

  const MAX_JSON_DEPTH: nat := 64
  const MAX_JSON_NODES: nat := 100_000

  /** An IEEE 754 double is finite unless its exponent bits are all ones. */
  predicate IsFinite(bits: u64) {
    (bits / 0x10_0000_0000_0000) % 0x800 != 0x7FF
  }

  // ------------------------------------------------------- what shape a table has

  datatype Shape = Empty | Array(n: nat) | Object

  /** A list index, as against a name. */
  predicate IsIndex(k: LuaKey) {
    k.Known? && k.key.IntKey? && k.key.i >= 1
  }

  /** What one pass over the keys adds up to. */
  datatype Tally = Tally(indices: nat, maxIndex: nat, named: nat)

  function TallyKeys(keys: seq<LuaKey>, acc: Tally): Result<Tally, JsonError>
    decreases |keys|
  {
    if keys == [] then Success(acc)
    else
      match keys[0]
      case Odd(_, kind) => Failure(BadKey(kind))
      case Known(k) =>
        if IsIndex(keys[0]) then
          TallyKeys(keys[1..], Tally(acc.indices + 1, if acc.maxIndex < k.i then k.i else acc.maxIndex, acc.named))
        else
          TallyKeys(keys[1..], acc.(named := acc.named + 1))
  }

  function ShapeOf(tally: Tally): Result<Shape, JsonError> {
    if tally.indices == 0 then
      Success(if tally.named == 0 then Empty else Object)
    else if tally.named == 0 then Success(Array(tally.maxIndex))
    else Failure(Mixed)
  }

  function Classify(keys: seq<LuaKey>): Result<Shape, JsonError> {
    var tally :- TallyKeys(keys, Tally(0, 0, 0));
    ShapeOf(tally)
  }

  // ---------------------------------------------------------------- out of Lua

  /** Insertion into an ordered map: a key that is already there gets the new value. */
  function InsertField(fs: seq<Field>, k: seq<byte>, v: Json): seq<Field> {
    if fs == [] then [Field(k, v)]
    else if BytesLess(k, fs[0].key) then [Field(k, v)] + fs
    else if k == fs[0].key then [Field(k, v)] + fs[1..]
    else [fs[0]] + InsertField(fs[1..], k, v)
  }

  /** The name a field gets. An integer key is written in decimal. */
  function FieldName(k: Key): Result<seq<byte>, JsonError> {
    match k
    case StrKey(s) => if IsUtf8(s) then Success(s) else Failure(JsonError.NotUtf8)
    case IntKey(i) => Success(if i < 0 then [45] + Decimal(0 - i) else Decimal(i))
  }

  /** The JSON value and the budget left, or the first error met. */
  ghost function LuaToJson(h: Heap, vm: Vm, v: LuaValue, depth: nat, budget: nat): (r: Rendered<Json>)
    requires Sound(h) && Legal(h, vm) && Valid(h, v)
    ensures r.Success? ==> r.value.1 < budget
    decreases budget, 1, 0
  {
    if budget == 0 then Failure(TooMany)
    else
      match v
      case VNil => Success((JNull, budget - 1))
      case VBool(b) => Success((JBool(b), budget - 1))
      case VInt(i) => Success((JInt(i), budget - 1))
      case VNum(bits) => if IsFinite(bits) then Success((JFloat(bits), budget - 1)) else Failure(NotFinite)
      case VStr(s) => if IsUtf8(s) then Success((JString(s), budget - 1)) else Failure(JsonError.NotUtf8)
      case VTable(ref) =>
        if depth >= MAX_JSON_DEPTH then Failure(JsonError.TooDeep)
        else TableToJson(h, vm, ref, depth, budget - 1)
      case VOpaque(kind) => Failure(NoJson(kind))
  }

  /** The keys are walked once to find the shape and, for an object, once more, in an order of its own. */
  ghost function TableToJson(h: Heap, vm: Vm, ref: nat, depth: nat, budget: nat): (r: Rendered<Json>)
    requires Sound(h) && Legal(h, vm) && ref < |h|
    ensures r.Success? ==> r.value.1 <= budget
    decreases budget, 3, 0
  {
    var shape :- Classify(vm.order(ref, 2 * budget));
    match shape
    case Empty => Success((JObject([]), budget))
    case Array(n) =>
      var (items, b) :- ArrayToJson(h, vm, h[ref], 1, n, depth + 1, budget, []);
      Success((JArray(items), b))
    case Object =>
      var (fields, b) :- ObjectToJson(h, vm, h[ref], vm.order(ref, 2 * budget + 1), depth + 1, budget, []);
      Success((JObject(fields), b))
  }

  ghost function ArrayToJson(h: Heap, vm: Vm, t: LuaTable, i: nat, n: nat, depth: nat, budget: nat, acc: seq<Json>)
    : (r: Rendered<seq<Json>>)
    requires Sound(h) && Legal(h, vm) && t in h
    ensures r.Success? ==> r.value.1 <= budget
    decreases budget, 2, n + 1 - i
  {
    if i > n then Success((acc, budget))
    else
      var (j, b) :- LuaToJson(h, vm, Index(t, i), depth, budget);
      ArrayToJson(h, vm, t, i + 1, n, depth, b, acc + [j])
  }

  ghost function ObjectToJson(h: Heap, vm: Vm, t: LuaTable, keys: seq<LuaKey>, depth: nat, budget: nat, acc: seq<Field>)
    : (r: Rendered<seq<Field>>)
    requires Sound(h) && Legal(h, vm) && t in h && forall i :: 0 <= i < |keys| ==> keys[i] in t
    ensures r.Success? ==> r.value.1 <= budget
    decreases budget, 2, |keys|
  {
    if keys == [] then Success((acc, budget))
    else if keys[0].Odd? then ObjectToJson(h, vm, t, keys[1..], depth, budget, acc)
    else
      var name :- FieldName(keys[0].key);
      var (j, b) :- LuaToJson(h, vm, t[keys[0]], depth, budget);
      ObjectToJson(h, vm, t, keys[1..], depth, b, InsertField(acc, name, j))
  }

  // ------------------------------------------------------------------ into Lua

  /** The copy that rebuilds to what a JSON value converts to: see `JsonRuns.JsonVm`. */
  function AsData(j: Json): LuaData
    decreases j
  {
    match j
    case JNull => Nil
    case JBool(b) => Bool(b)
    case JInt(i) => Int(i)
    case JFloat(bits) => Num(bits)
    case JLarge(bits) => Num(bits)
    case JString(s) => Str(s)
    case JArray(items) => Table(AsItems(items), [])
    case JObject(fields) => Table([], AsEntries(fields))
  }

  function AsItems(items: seq<Json>): (ds: seq<LuaData>)
    ensures |ds| == |items|
    decreases items
  {
    if items == [] then [] else [AsData(items[0])] + AsItems(items[1..])
  }

  function AsEntries(fields: seq<Field>): (es: seq<Entry>)
    ensures |es| == |fields|
    decreases fields
  {
    if fields == [] then [] else [AsEntry(fields[0])] + AsEntries(fields[1..])
  }

  function AsEntry(f: Field): Entry
    decreases f
  {
    Entry(StrKey(f.key), AsData(f.value))
  }
}
