/**
 A Lua heap and what a value in it means. Tables refer to one another, share and form cycles; the
 meaning of a value is the tree its references unfold to, which a cyclic value does not have.
 */
module LuaHeap {
  import opened Wrappers
  import opened Bytes
  import opened Wire

  /** A kind of value, or of key, that cannot leave its VM: a function, a thread, a boolean key. */
  type Kind = nat

  datatype LuaValue =
    | VNil
    | VBool(b: bool)
    | VInt(i: i64)
    | VNum(bits: u64)
    | VStr(s: seq<byte>)
    | VTable(ref: nat)
    | VOpaque(kind: Kind)

  datatype LuaKey = Known(key: Key) | Odd(id: nat, kind: Kind)

  type LuaTable = map<LuaKey, LuaValue>
  type Heap = seq<LuaTable>

  const I64_MAX: nat := 0x7FFF_FFFF_FFFF_FFFF

  predicate Valid(h: Heap, v: LuaValue) {
    v.VTable? ==> v.ref < |h|
  }

  /** A table never holds nil, and every reference leads to a table. */
  ghost predicate Sound(h: Heap) {
    forall r, k :: 0 <= r < |h| && k in h[r] ==> Valid(h, h[r][k]) && !h[r][k].VNil?
  }

  /** `t[i]` of the language: nil where nothing is stored. */
  function Index(t: LuaTable, i: nat): LuaValue {
    if i <= I64_MAX && Known(IntKey(i)) in t then t[Known(IntKey(i))] else VNil
  }

  /** A border of a table (Lua 5.4 Reference Manual, section 3.4.7). A table may have several. */
  predicate IsBorder(t: LuaTable, n: nat) {
    n <= I64_MAX && (n > 0 ==> !Index(t, n).VNil?) && (n < I64_MAX ==> Index(t, n + 1).VNil?)
  }

  /** Every key of the table once, in any order: what `pairs` may report (section 6.1). */
  ghost predicate Enumerates(t: LuaTable, keys: seq<LuaKey>) {
    && (forall k :: k in t <==> k in keys)
    && (forall i, j :: 0 <= i < j < |keys| ==> keys[i] != keys[j])
  }

  function RawSet(t: LuaTable, k: LuaKey, v: LuaValue): LuaTable {
    if v.VNil? then t - {k} else t[k := v]
  }

  /** The first border from `n` on. */
  function FirstBorder(t: LuaTable, n: nat): (b: nat)
    requires n <= I64_MAX && (n > 0 ==> !Index(t, n).VNil?)
    ensures IsBorder(t, b)
    decreases I64_MAX - n
  {
    if n < I64_MAX && !Index(t, n + 1).VNil? then FirstBorder(t, n + 1) else n
  }

  /** The keys of a table in some order. */
  ghost function SomeOrder(t: LuaTable): (keys: seq<LuaKey>)
    ensures Enumerates(t, keys)
    decreases |t|
  {
    if t == map[] then []
    else
      var k :| k in t;
      assert (t - {k}).Keys == t.Keys - {k};
      [k] + SomeOrder(t - {k})
  }

  // ------------------------------------------------------- what a value means

  datatype Content =
    | CNil
    | CBool(b: bool)
    | CInt(i: i64)
    | CNum(bits: u64)
    | CStr(s: seq<byte>)
    | CTable(fields: map<Key, Content>)

  /** `c` is the tree `v` unfolds to, and every table on the way is numbered `lo` or above. */
  ghost predicate Unfolds(h: Heap, lo: nat, v: LuaValue, c: Content)
    decreases c
  {
    match v
    case VNil => c == CNil
    case VBool(b) => c == CBool(b)
    case VInt(i) => c == CInt(i)
    case VNum(n) => c == CNum(n)
    case VStr(s) => c == CStr(s)
    case VTable(r) =>
      && lo <= r < |h| && c.CTable?
      && (forall k :: k in h[r] <==> k.Known? && k.key in c.fields)
      && (forall k :: k in c.fields ==> Unfolds(h, lo, h[r][Known(k)], c.fields[k]))
    case VOpaque(_) => false
  }

  /** A value unfolds to one tree at most. */
  lemma {:induction false} UnfoldsOnce(h: Heap, v: LuaValue, lo: nat, c: Content, lo': nat, c': Content)
    requires Unfolds(h, lo, v, c) && Unfolds(h, lo', v, c')
    ensures c == c'
    decreases c
  {
    if v.VTable? {
      var t := h[v.ref];
      forall k ensures k in c.fields <==> k in c'.fields {
        assert Known(k) in t <==> k in c.fields;
        assert Known(k) in t <==> k in c'.fields;
      }
      forall k | k in c.fields ensures c.fields[k] == c'.fields[k] {
        UnfoldsOnce(h, t[Known(k)], lo, c.fields[k], lo', c'.fields[k]);
      }
      assert c.fields == c'.fields;
    }
  }

  /** The tree depends only on the tables from `lo` up; a heap may grow and lower tables may change. */
  lemma {:induction false} UnfoldsFrame(h: Heap, h': Heap, lo: nat, lo': nat, v: LuaValue, c: Content)
    requires Unfolds(h, lo, v, c) && lo' <= lo && |h| <= |h'|
    requires forall r :: lo <= r < |h| ==> h'[r] == h[r]
    ensures Unfolds(h', lo', v, c)
    decreases c
  {
    if v.VTable? {
      forall k | k in c.fields ensures Unfolds(h', lo', h'[v.ref][Known(k)], c.fields[k]) {
        UnfoldsFrame(h, h', lo, lo', h[v.ref][Known(k)], c.fields[k]);
      }
    }
  }

  /** Tables nest at most `n` deep in this tree. */
  ghost predicate Within(c: Content, n: nat) {
    c.CTable? ==> n > 0 && forall k :: k in c.fields ==> Within(c.fields[k], n - 1)
  }

  /** The value a key path leads to, if the path exists. */
  function Follow(h: Heap, v: LuaValue, path: seq<Key>): Option<LuaValue>
    decreases |path|
  {
    if path == [] then Some(v)
    else if v.VTable? && v.ref < |h| && Known(path[0]) in h[v.ref] then
      Follow(h, h[v.ref][Known(path[0])], path[1..])
    else None
  }

  /** Whatever an unfolding value leads to unfolds too, to a tree that many levels lower. */
  lemma {:induction false} FollowUnfolds(h: Heap, v: LuaValue, path: seq<Key>, c: Content, n: nat) returns (sub: Content)
    requires Unfolds(h, 0, v, c) && Within(c, n) && Follow(h, v, path).Some?
    requires path == [] || Follow(h, v, path).value.VTable?
    ensures Unfolds(h, 0, Follow(h, v, path).value, sub)
    ensures |path| <= n && Within(sub, n - |path|)
    decreases |path|
  {
    hide Sound;
    if path == [] {
      sub := c;
    } else {
      assert path[0] in c.fields;
      sub := FollowUnfolds(h, h[v.ref][Known(path[0])], path[1..], c.fields[path[0]], n - 1);
    }
  }

  /** A value that contains itself does not unfold. */
  lemma {:induction false} CycleDoesNotUnfold(h: Heap, v: LuaValue, loop: seq<Key>, c: Content, n: nat)
    requires Unfolds(h, 0, v, c) && Within(c, n)
    requires v.VTable? && loop != [] && Follow(h, v, loop) == Some(v)
    ensures false
    decreases n
  {
    var sub := FollowUnfolds(h, v, loop, c, n);
    UnfoldsOnce(h, v, 0, c, 0, sub);
    CycleDoesNotUnfold(h, v, loop, c, n - |loop|);
  }
}
