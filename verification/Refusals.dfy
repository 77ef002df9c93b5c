/**
 Why a value is refused. Copying out and converting to JSON report the first thing they come upon; whatever they
 report is there, at the end of a path of keys from the value.
 */
module Refusals {
  import opened Wrappers
  import opened Bytes
  import opened Wire
  import opened LuaHeap
  import opened Marshal
  import opened MarshalContent
  import opened JsonConvert
  import opened JsonTheorems

  /** One key further: the path from a table goes on from the field. */
  lemma OneKeyDown(h: Heap, r: nat, k: Key, path: seq<Key>)
    requires r < |h| && Known(k) in h[r]
    ensures Follow(h, VTable(r), [k] + path) == Follow(h, h[r][Known(k)], path)
  {
    assert ([k] + path)[1..] == path;
  }

  // ---------------------------------------------------------------- copying out

  /** What the error says is found where the path ends. */
  ghost predicate Blames(h: Heap, v: LuaValue, path: seq<Key>, depth: nat, limits: Limits, error: MarshalError) {
    var at := Follow(h, v, path);
    at.Some? &&
    match error
    case TooDeep(limit) => limit == limits.depth == depth + |path| && at.value.VTable?
    case TooManyNodes(limit) => limit == limits.nodes
    case Unsupported(kind) =>
      || at.value == VOpaque(kind)
      || (at.value.VTable? && at.value.ref < |h| && exists id :: Odd(id, kind) in h[at.value.ref])
  }

  lemma BlamesFurtherUp(h: Heap, r: nat, k: Key, path: seq<Key>, depth: nat, limits: Limits, error: MarshalError)
    requires r < |h| && Known(k) in h[r] && Blames(h, h[r][Known(k)], path, depth + 1, limits, error)
    ensures Blames(h, VTable(r), [k] + path, depth, limits, error)
  {
    OneKeyDown(h, r, k, path);
  }

  /** The error of a refused copy has its cause in the value. */
  lemma {:induction false} CopyRefusedForCause(h: Heap, vm: Vm, v: LuaValue, depth: nat, limits: Limits, budget: nat)
    returns (path: seq<Key>)
    requires Sound(h) && Legal(h, vm) && Valid(h, v) && depth <= limits.depth
    requires FromLua(h, vm, v, depth, limits, budget).Failure?
    ensures Blames(h, v, path, depth, limits, FromLua(h, vm, v, depth, limits, budget).error)
    decreases budget, 1, 0
  {
    hide FromTable, Sound, Legal;
    path := [];
    if budget > 0 && v.VTable? && depth < limits.depth {
      path := TableRefusedForCause(h, vm, v.ref, depth, limits, budget - 1);
    }
  }

  lemma {:induction false} TableRefusedForCause(h: Heap, vm: Vm, r: nat, depth: nat, limits: Limits, budget: nat)
    returns (path: seq<Key>)
    requires Sound(h) && Legal(h, vm) && r < |h| && depth < limits.depth
    requires FromTable(h, vm, r, depth, limits, budget).Failure?
    ensures Blames(h, VTable(r), path, depth, limits, FromTable(h, vm, r, depth, limits, budget).error)
    decreases budget, 3, 0
  {
    hide Blames, Sound, Legal, FromItems, FromPairs, IsBorder, Enumerates;
    VisitIsLegal(h, vm, r, budget);
    var n, keys := vm.border(r, budget), vm.order(r, budget);
    var items := FromItems(h, vm, h[r], 1, n, depth + 1, limits, budget, []);
    if items.Failure? {
      path := ItemsRefusedForCause(h, vm, r, 1, n, depth, limits, budget, []);
    } else {
      path := PairsRefusedForCause(h, vm, r, keys, n, depth, limits, items.value.1, []);
    }
  }

  lemma {:induction false} ItemsRefusedForCause(
    h: Heap, vm: Vm, r: nat, i: nat, n: nat, depth: nat, limits: Limits, budget: nat, acc: seq<LuaData>) returns (path: seq<Key>)
    requires Sound(h) && Legal(h, vm) && r < |h| && depth < limits.depth
    requires h[r] in h && FromItems(h, vm, h[r], i, n, depth + 1, limits, budget, acc).Failure?
    ensures Blames(h, VTable(r), path, depth, limits, FromItems(h, vm, h[r], i, n, depth + 1, limits, budget, acc).error)
    decreases budget, 2, n + 1 - i
  {
    hide Sound, Legal, FromLua, Index, Blames;
    IndexValid(h, h[r], i);
    var v := Index(h[r], i);
    var first := FromLua(h, vm, v, depth + 1, limits, budget);
    if first.Failure? {
      var deeper := CopyRefusedForCause(h, vm, v, depth + 1, limits, budget);
      path := ItemBlamed(h, vm, r, i, deeper, depth, limits, budget);
    } else {
      path := ItemsRefusedForCause(h, vm, r, i + 1, n, depth, limits, first.value.1, acc + [first.value.0]);
    }
  }

  /** A nil is refused for the number of values only; any other item is a field. */
  lemma ItemBlamed(h: Heap, vm: Vm, r: nat, i: nat, deeper: seq<Key>, depth: nat, limits: Limits, budget: nat) returns (path: seq<Key>)
    requires Sound(h) && Legal(h, vm) && r < |h| && Valid(h, Index(h[r], i))
    requires FromLua(h, vm, Index(h[r], i), depth + 1, limits, budget).Failure?
    requires var error := FromLua(h, vm, Index(h[r], i), depth + 1, limits, budget).error;
             Blames(h, Index(h[r], i), deeper, depth + 1, limits, error)
    ensures Blames(h, VTable(r), path, depth, limits, FromLua(h, vm, Index(h[r], i), depth + 1, limits, budget).error)
  {
    hide Sound, Legal, FromTable;
    if Index(h[r], i).VNil? {
      path := [];
    } else {
      path := [IntKey(i)] + deeper;
      BlamesFurtherUp(h, r, IntKey(i), deeper, depth, limits, FromLua(h, vm, Index(h[r], i), depth + 1, limits, budget).error);
    }
  }

  lemma {:induction false} PairsRefusedForCause(
    h: Heap, vm: Vm, r: nat, keys: seq<LuaKey>, n: nat, depth: nat, limits: Limits, budget: nat, acc: seq<Entry>) returns (path: seq<Key>)
    requires Sound(h) && Legal(h, vm) && r < |h| && depth < limits.depth && h[r] in h
    requires forall i :: 0 <= i < |keys| ==> keys[i] in h[r]
    requires FromPairs(h, vm, h[r], keys, n, depth + 1, limits, budget, acc).Failure?
    ensures Blames(h, VTable(r), path, depth, limits, FromPairs(h, vm, h[r], keys, n, depth + 1, limits, budget, acc).error)
    decreases budget, 2, |keys|
  {
    hide Sound, Legal, FromLua;
    if keys[0].Odd? {
      path := [];
      assert keys[0] == Odd(keys[0].id, keys[0].kind) && Follow(h, VTable(r), []) == Some(VTable(r));
    } else if !Outside(keys[0].key, n) {
      path := PairsRefusedForCause(h, vm, r, keys[1..], n, depth, limits, budget, acc);
    } else {
      var k := keys[0].key;
      KeyValid(h, h[r], keys[0]);
      var first := FromLua(h, vm, h[r][keys[0]], depth + 1, limits, budget);
      if first.Failure? {
        var deeper := CopyRefusedForCause(h, vm, h[r][keys[0]], depth + 1, limits, budget);
        path := [k] + deeper;
        BlamesFurtherUp(h, r, k, deeper, depth, limits, first.error);
      } else {
        path := PairsRefusedForCause(h, vm, r, keys[1..], n, depth, limits, first.value.1, Insert(acc, k, first.value.0));
      }
    }
  }

  // --------------------------------------------------------------------- JSON

  /** What the error says is found where the path ends. */
  ghost predicate JsonBlames(h: Heap, v: LuaValue, path: seq<Key>, depth: nat, error: JsonError) {
    var at := Follow(h, v, path);
    at.Some? &&
    match error
    case TooMany => true
    case TooDeep => MAX_JSON_DEPTH == depth + |path| && at.value.VTable?
    case NotFinite => at.value.VNum? && !IsFinite(at.value.bits)
    case NotUtf8 =>
      || (at.value.VStr? && !IsUtf8(at.value.s))
      || (at.value.VTable? && at.value.ref < |h| && exists k :: k in h[at.value.ref] && k.Known? && !Nameable(k.key))
    case BadKey(kind) => at.value.VTable? && at.value.ref < |h| && exists id :: Odd(id, kind) in h[at.value.ref]
    case Mixed => at.value.VTable? && at.value.ref < |h| && HasIndex(h[at.value.ref]) && HasName(h[at.value.ref])
    case NoJson(kind) => at.value == VOpaque(kind)
  }

  lemma JsonBlamesFurtherUp(h: Heap, r: nat, k: Key, path: seq<Key>, depth: nat, error: JsonError)
    requires r < |h| && Known(k) in h[r] && JsonBlames(h, h[r][Known(k)], path, depth + 1, error)
    ensures JsonBlames(h, VTable(r), [k] + path, depth, error)
  {
    OneKeyDown(h, r, k, path);
  }

  lemma {:induction false} BadKeyIsListed(keys: seq<LuaKey>, acc: Tally)
    requires TallyKeys(keys, acc).Failure?
    ensures exists i :: 0 <= i < |keys| && keys[i].Odd? && TallyKeys(keys, acc).error == BadKey(keys[i].kind)
    decreases |keys|
  {
    if keys[0].Odd? {
      assert TallyKeys(keys, acc).error == BadKey(keys[0].kind);
    } else {
      var acc' := if IsIndex(keys[0]) then Tally(acc.indices + 1, if acc.maxIndex < keys[0].key.i then keys[0].key.i else acc.maxIndex, acc.named)
      else acc.(named := acc.named + 1);
      BadKeyIsListed(keys[1..], acc');
      var rest := keys[1..];
      var i :| 0 <= i < |rest| && rest[i].Odd? && TallyKeys(rest, acc').error == BadKey(rest[i].kind);
      assert keys[i + 1] == rest[i];
    }
  }

  lemma ShapeRefusedForCause(h: Heap, r: nat, keys: seq<LuaKey>, depth: nat)
    requires r < |h| && Enumerates(h[r], keys) && Classify(keys).Failure?
    ensures JsonBlames(h, VTable(r), [], depth, Classify(keys).error)
  {
    ClassifyIsRight(h[r], keys);
    assert Follow(h, VTable(r), []) == Some(VTable(r));
    if TallyKeys(keys, Tally(0, 0, 0)).Failure? {
      BadKeyIsListed(keys, Tally(0, 0, 0));
      var i :| 0 <= i < |keys| && keys[i].Odd? && Classify(keys).error == BadKey(keys[i].kind);
      assert keys[i] in keys && keys[i] == Odd(keys[i].id, keys[i].kind);
    } else {
      NoneOdd(h[r], keys);
    }
  }

  lemma NoneOdd(t: LuaTable, keys: seq<LuaKey>)
    requires Enumerates(t, keys) && TallyKeys(keys, Tally(0, 0, 0)).Success?
    ensures !HasOdd(t)
  {
    TallyIsRight([], keys, Tally(0, 0, 0));
    assert [] + keys == keys;
    KeyFacts(t, keys);
  }

  /** The error of a refused conversion has its cause in the value. */
  lemma {:induction false} JsonRefusedForCause(h: Heap, vm: Vm, v: LuaValue, depth: nat, budget: nat) returns (path: seq<Key>)
    requires Sound(h) && Legal(h, vm) && Valid(h, v) && depth <= MAX_JSON_DEPTH
    requires LuaToJson(h, vm, v, depth, budget).Failure?
    ensures JsonBlames(h, v, path, depth, LuaToJson(h, vm, v, depth, budget).error)
    decreases budget, 1, 0
  {
    hide TableToJson, Sound, Legal, HasIndex, HasName, IsUtf8, IsFinite;
    path := [];
    if budget > 0 && v.VTable? && depth < MAX_JSON_DEPTH {
      path := JsonTableRefusedForCause(h, vm, v.ref, depth, budget - 1);
    }
  }

  lemma {:induction false} JsonTableRefusedForCause(h: Heap, vm: Vm, r: nat, depth: nat, budget: nat) returns (path: seq<Key>)
    requires Sound(h) && Legal(h, vm) && r < |h| && depth < MAX_JSON_DEPTH
    requires TableToJson(h, vm, r, depth, budget).Failure?
    ensures JsonBlames(h, VTable(r), path, depth, TableToJson(h, vm, r, depth, budget).error)
    decreases budget, 3, 0
  {
    hide JsonBlames, Sound, Legal, Classify, Enumerates, ArrayToJson, ObjectToJson;
    VisitIsLegal(h, vm, r, 2 * budget);
    VisitIsLegal(h, vm, r, 2 * budget + 1);
    var shape := Classify(vm.order(r, 2 * budget));
    if shape.Failure? {
      path := [];
      ShapeRefusedForCause(h, r, vm.order(r, 2 * budget), depth);
    } else if shape.value.Array? {
      path := ListRefusedForCause(h, vm, r, 1, shape.value.n, depth, budget, []);
    } else {
      path := ObjectRefusedForCause(h, vm, r, vm.order(r, 2 * budget + 1), depth, budget, []);
    }
  }

  lemma {:induction false} ListRefusedForCause(
    h: Heap, vm: Vm, r: nat, i: nat, n: nat, depth: nat, budget: nat, acc: seq<Json>) returns (path: seq<Key>)
    requires Sound(h) && Legal(h, vm) && r < |h| && depth < MAX_JSON_DEPTH && h[r] in h
    requires ArrayToJson(h, vm, h[r], i, n, depth + 1, budget, acc).Failure?
    ensures JsonBlames(h, VTable(r), path, depth, ArrayToJson(h, vm, h[r], i, n, depth + 1, budget, acc).error)
    decreases budget, 2, n + 1 - i
  {
    hide Sound, Legal, LuaToJson, Index, JsonBlames;
    IndexValid(h, h[r], i);
    var v := Index(h[r], i);
    var first := LuaToJson(h, vm, v, depth + 1, budget);
    if first.Failure? {
      var deeper := JsonRefusedForCause(h, vm, v, depth + 1, budget);
      path := JsonItemBlamed(h, vm, r, i, deeper, depth, budget);
    } else {
      path := ListRefusedForCause(h, vm, r, i + 1, n, depth, first.value.1, acc + [first.value.0]);
    }
  }

  lemma JsonItemBlamed(h: Heap, vm: Vm, r: nat, i: nat, deeper: seq<Key>, depth: nat, budget: nat) returns (path: seq<Key>)
    requires Sound(h) && Legal(h, vm) && r < |h| && Valid(h, Index(h[r], i))
    requires LuaToJson(h, vm, Index(h[r], i), depth + 1, budget).Failure?
    requires JsonBlames(h, Index(h[r], i), deeper, depth + 1, LuaToJson(h, vm, Index(h[r], i), depth + 1, budget).error)
    ensures JsonBlames(h, VTable(r), path, depth, LuaToJson(h, vm, Index(h[r], i), depth + 1, budget).error)
  {
    hide Sound, Legal, TableToJson, HasIndex, HasName;
    if Index(h[r], i).VNil? {
      path := [];
    } else {
      path := [IntKey(i)] + deeper;
      JsonBlamesFurtherUp(h, r, IntKey(i), deeper, depth, LuaToJson(h, vm, Index(h[r], i), depth + 1, budget).error);
    }
  }

  lemma {:induction false} ObjectRefusedForCause(
    h: Heap, vm: Vm, r: nat, keys: seq<LuaKey>, depth: nat, budget: nat, acc: seq<Field>) returns (path: seq<Key>)
    requires Sound(h) && Legal(h, vm) && r < |h| && depth < MAX_JSON_DEPTH && h[r] in h
    requires forall i :: 0 <= i < |keys| ==> keys[i] in h[r]
    requires ObjectToJson(h, vm, h[r], keys, depth + 1, budget, acc).Failure?
    ensures JsonBlames(h, VTable(r), path, depth, ObjectToJson(h, vm, h[r], keys, depth + 1, budget, acc).error)
    decreases budget, 2, |keys|
  {
    hide Sound, Legal, LuaToJson, HasIndex, HasName, IsUtf8;
    if keys[0].Odd? {
      path := ObjectRefusedForCause(h, vm, r, keys[1..], depth, budget, acc);
    } else if FieldName(keys[0].key).Failure? {
      path := [];
      assert keys[0].Known? && !Nameable(keys[0].key) && Follow(h, VTable(r), []) == Some(VTable(r));
    } else {
      var k := keys[0].key;
      KeyValid(h, h[r], keys[0]);
      var first := LuaToJson(h, vm, h[r][keys[0]], depth + 1, budget);
      if first.Failure? {
        var deeper := JsonRefusedForCause(h, vm, h[r][keys[0]], depth + 1, budget);
        path := [k] + deeper;
        JsonBlamesFurtherUp(h, r, k, deeper, depth, first.error);
      } else {
        path := ObjectRefusedForCause(h, vm, r, keys[1..], depth, first.value.1, InsertField(acc, FieldName(k).value, first.value.0));
      }
    }
  }
}
