/** What a JSON value becomes in Lua, said of the two values themselves. */
module JsonMeaning {
  import opened Bytes
  import opened Wire
  import opened WireLimits
  import opened LuaHeap
  import opened Marshal
  import opened MarshalContent
  import opened MarshalRebuild
  import opened MarshalCopies
  import opened JsonConvert
  import opened JsonTheorems

  /** Lengths a machine has, and the fields of an object in key order. */
  ghost predicate IsJson(j: Json)
    decreases j
  {
    match j
    case JString(s) => |s| < U64_LIMIT
    case JArray(items) => |items| < I64_MAX && forall i :: 0 <= i < |items| ==> IsJson(items[i])
    case JObject(fields) =>
      && |fields| < U64_LIMIT
      && (forall i, k :: 0 <= i < k < |fields| ==> BytesLess(fields[i].key, fields[k].key))
      && (forall i :: 0 <= i < |fields| ==> |fields[i].key| < U64_LIMIT && IsJson(fields[i].value))
    case _ => true
  }

  /**
   The Lua content of a JSON value: scalars as they are, a large integer as a float; an array as a table with
   its items at 1, 2 and so on, an object as one with its fields under their names; null is nowhere.
   */
  ghost predicate Means(j: Json, c: Content)
    decreases j
  {
    match j
    case JNull => c == CNil
    case JBool(b) => c == CBool(b)
    case JInt(i) => c == CInt(i)
    case JFloat(bits) => c == CNum(bits)
    case JLarge(bits) => c == CNum(bits)
    case JString(s) => c == CStr(s)
    case JArray(items) =>
      && c.CTable?
      && (forall k :: k in c.fields <==> k.IntKey? && 1 <= k.i <= |items| && !items[k.i - 1].JNull?)
      && (forall k :: k in c.fields && k.IntKey? && 1 <= k.i <= |items| ==> Means(items[k.i - 1], c.fields[k]))
    case JObject(fields) =>
      && c.CTable?
      && (forall k :: k in c.fields <==> k.StrKey? && exists i :: 0 <= i < |fields| && fields[i].key == k.s && !fields[i].value.JNull?)
      && (forall i :: 0 <= i < |fields| && StrKey(fields[i].key) in c.fields ==>
                        Means(fields[i].value, c.fields[StrKey(fields[i].key)]))
  }

  lemma NullIsNil(j: Json)
    ensures AsData(j).Nil? <==> j.JNull?
  {
  }

  lemma ItemSlots(items: seq<Json>, k: Key)
    requires |items| < I64_MAX
    ensures Slot(AsItems(items), [], k) == if k.IntKey? && 1 <= k.i <= |items| then AsData(items[k.i - 1]) else Nil
  {
    hide AsItems, AsData;
    if k.IntKey? && 1 <= k.i <= |items| {
      AsItemsAt(items, k.i - 1);
    }
  }

  lemma EntriesInOrder(fields: seq<Field>)
    requires forall i, k :: 0 <= i < k < |fields| ==> BytesLess(fields[i].key, fields[k].key)
    ensures Sorted(AsEntries(fields))
    ensures forall i :: 0 <= i < |fields| ==> AsEntries(fields)[i] == Entry(StrKey(fields[i].key), AsData(fields[i].value))
  {
    forall i | 0 <= i < |fields| ensures AsEntries(fields)[i] == Entry(StrKey(fields[i].key), AsData(fields[i].value)) {
      AsEntriesAt(fields, i);
    }
  }

  lemma FieldSlot(fields: seq<Field>, i: nat)
    requires i < |fields| && forall a, b :: 0 <= a < b < |fields| ==> BytesLess(fields[a].key, fields[b].key)
    ensures Slot([], AsEntries(fields), StrKey(fields[i].key)) == AsData(fields[i].value)
  {
    EntriesInOrder(fields);
    GetSorted(AsEntries(fields), i);
  }

  lemma OtherSlot(fields: seq<Field>, k: Key)
    requires forall a, b :: 0 <= a < b < |fields| ==> BytesLess(fields[a].key, fields[b].key)
    requires k.IntKey? || forall i :: 0 <= i < |fields| ==> fields[i].key != k.s
    ensures Slot([], AsEntries(fields), k) == Nil
  {
    EntriesInOrder(fields);
    GetNone(AsEntries(fields), k);
  }

  lemma {:induction false} ContentMeans(j: Json)
    requires IsJson(j)
    ensures Means(j, ContentOf(AsData(j))) && WellFormed(AsData(j))
    decreases j
  {
    hide Fields, Slot;
    match j
    case JArray(items) => ArrayMeans(items);
    case JObject(fields) => ObjectMeans(fields);
    case _ =>
  }

  lemma {:induction false} ArrayMeans(items: seq<Json>)
    requires IsJson(JArray(items))
    ensures Means(JArray(items), ContentOf(AsData(JArray(items)))) && WellFormed(AsData(JArray(items)))
    decreases JArray(items), 0
  {
    hide Fields, Slot;
    var c := Fields(AsItems(items), []);
    AsDataOfTables(items, []);
    forall k
      ensures k in c <==> k.IntKey? && 1 <= k.i <= |items| && !items[k.i - 1].JNull?
      ensures k in c && k.IntKey? && 1 <= k.i <= |items| ==> Means(items[k.i - 1], c[k])
    {
      FieldsAt(AsItems(items), [], k);
      ItemSlots(items, k);
      if k.IntKey? && 1 <= k.i <= |items| {
        NullIsNil(items[k.i - 1]);
        ContentMeans(items[k.i - 1]);
      }
    }
    forall i | 0 <= i < |items| ensures WellFormed(AsItems(items)[i]) {
      AsItemsAt(items, i);
      ContentMeans(items[i]);
    }
  }

  lemma {:induction false} ObjectMeans(fields: seq<Field>)
    requires IsJson(JObject(fields))
    ensures Means(JObject(fields), ContentOf(AsData(JObject(fields)))) && WellFormed(AsData(JObject(fields)))
    decreases JObject(fields), 0
  {
    hide Fields, Slot;
    var c := Fields([], AsEntries(fields));
    AsDataOfTables([], fields);
    EntriesInOrder(fields);
    forall i | 0 <= i < |fields|
      ensures StrKey(fields[i].key) in c <==> !fields[i].value.JNull?
      ensures StrKey(fields[i].key) in c ==> Means(fields[i].value, c[StrKey(fields[i].key)])
      ensures WellFormed(AsEntries(fields)[i].value) && KeyFits(AsEntries(fields)[i].key)
    {
      FieldsAt([], AsEntries(fields), StrKey(fields[i].key));
      FieldSlot(fields, i);
      NullIsNil(fields[i].value);
      ContentMeans(fields[i].value);
    }
    forall k ensures k in c <==> k.StrKey? && exists i :: 0 <= i < |fields| && fields[i].key == k.s && !fields[i].value.JNull? {
      if k.IntKey? || forall i :: 0 <= i < |fields| ==> fields[i].key != k.s {
        FieldsAt([], AsEntries(fields), k);
        OtherSlot(fields, k);
      } else {
        var i :| 0 <= i < |fields| && fields[i].key == k.s;
        assert k == StrKey(fields[i].key);
        SameField(fields, i, k.s);
      }
    }
  }

  /** A name has one field. */
  lemma SameField(fields: seq<Field>, i: nat, name: seq<byte>)
    requires i < |fields| && fields[i].key == name
    requires forall a, b :: 0 <= a < b < |fields| ==> BytesLess(fields[a].key, fields[b].key)
    ensures forall m :: 0 <= m < |fields| && fields[m].key == name ==> m == i
  {
    BytesOrder(name, name);
  }

  /** Converting a JSON value into Lua gives a value with that content, in tables of its own. */
  lemma JsonBecomes(j: Json, other: Heap) returns (c: Content)
    requires IsJson(j) && Nodes(AsData(j)) < I64_MAX
    ensures Means(j, c)
    ensures var (h, v) := ToLua(other, AsData(j)); Extends(other, h) && Unfolds(h, |other|, v, c)
  {
    ContentMeans(j);
    c := ContentOf(AsData(j));
    ToLuaUnfolds(other, AsData(j));
  }
}
