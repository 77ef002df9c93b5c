/**
 The debug client's variables pane: a tree kept as a flat list of rows with depths, opened by splicing
 rows in behind a parent and closed by draining them out again.
 */
module VarsList {
  import opened Wrappers

  /** What the adapter says of a variable; a reference above 0 can be asked for its children. */
  datatype Var = Var(name: string, value: string, ty: string, varRef: int)

  datatype Node = Node(v: Var, depth: nat, expanded: bool)

  datatype Scope = Scope(name: string, varRef: int, expensive: bool)

  // ---------------------------------------------------------- the operations

  function Header(s: Scope): Node {
    Node(Var(s.name, if s.expensive then "(expensive)" else "", "", s.varRef), 0, false)
  }

  /** One closed header for each scope. */
  function Headers(scopes: seq<Scope>): (vars: seq<Node>)
    ensures |vars| == |scopes|
  {
    seq(|scopes|, i requires 0 <= i < |scopes| => Header(scopes[i]))
  }

  /** The first node with this reference. */
  function FindRef(vars: seq<Node>, ref: int): (i: nat)
    ensures i <= |vars| && (i < |vars| ==> vars[i].v.varRef == ref)
    ensures forall j :: 0 <= j < i ==> vars[j].v.varRef != ref
  {
    if vars == [] || vars[0].v.varRef == ref then 0 else 1 + FindRef(vars[1..], ref)
  }

  function Children(rows: seq<Var>, depth: nat): (nodes: seq<Node>)
    ensures |nodes| == |rows| && forall i :: 0 <= i < |rows| ==> nodes[i] == Node(rows[i], depth, false)
  {
    seq(|rows|, i requires 0 <= i < |rows| => Node(rows[i], depth, false))
  }

  /** Rows spliced in right behind node `i`, which is marked open. */
  function Grown(vars: seq<Node>, i: nat, rows: seq<Var>): seq<Node>
    requires i < |vars|
  {
    vars[..i] + [vars[i].(expanded := true)] + Children(rows, vars[i].depth + 1) + vars[i + 1..]
  }

  /** A reference that matches nothing is a stale handle: the answer is dropped. */
  function InsertChildren(vars: seq<Node>, ref: int, rows: seq<Var>): seq<Node> {
    var i := FindRef(vars, ref);
    if i < |vars| then Grown(vars, i, rows) else vars
  }

  /** Where the nodes deeper than `depth` end, from `j` on. */
  function DeeperEnd(vars: seq<Node>, j: nat, depth: nat): (e: nat)
    requires j <= |vars|
    ensures j <= e <= |vars| && (e < |vars| ==> vars[e].depth <= depth)
    ensures forall k :: j <= k < e ==> vars[k].depth > depth
    decreases |vars| - j
  {
    if j < |vars| && vars[j].depth > depth then DeeperEnd(vars, j + 1, depth) else j
  }

  /** Everything below node `i` drained, and the node marked closed. */
  function Trimmed(vars: seq<Node>, i: nat): seq<Node>
    requires i < |vars|
  {
    vars[..i] + [vars[i].(expanded := false)] + vars[DeeperEnd(vars, i + 1, vars[i].depth)..]
  }

  /** What happens to the list: scopes arrive, children arrive, a node is closed, the program resumes. */
  datatype Event = Scopes(scopes: seq<Scope>) | Variables(ref: int, rows: seq<Var>) | Collapse(i: nat) | Resume

  function Apply(vars: seq<Node>, e: Event): seq<Node> {
    match e
    case Scopes(scopes) => Headers(scopes)
    case Variables(ref, rows) => InsertChildren(vars, ref, rows)
    case Collapse(i) => if i < |vars| then Trimmed(vars, i) else vars
    case Resume => []
  }

  function ApplyAll(vars: seq<Node>, events: seq<Event>): seq<Node>
    decreases |events|
  {
    if events == [] then vars else ApplyAll(Apply(vars, events[0]), events[1..])
  }

  // ----------------------------------------------------- a forest in preorder

  /** The depth starts at 0 and rises by at most one, and only below an open node. */
  ghost predicate IsForest(vars: seq<Node>) {
    && (vars != [] ==> vars[0].depth == 0)
    && (forall j :: 0 < j < |vars| ==> Follows(vars[j - 1], vars[j]))
  }

  predicate Follows(a: Node, b: Node) {
    b.depth <= a.depth + (if a.expanded then 1 else 0)
  }

  lemma GrownIsForest(vars: seq<Node>, i: nat, rows: seq<Var>)
    requires IsForest(vars) && i < |vars|
    ensures IsForest(Grown(vars, i, rows))
  {
    var kids := Children(rows, vars[i].depth + 1);
    var g := Grown(vars, i, rows);
    forall j | 0 < j < |g| ensures Follows(g[j - 1], g[j]) {
      if j < i {
        assert Follows(vars[j - 1], vars[j]);
      } else if j == i {
        assert Follows(vars[i - 1], vars[i]);
      } else if j > i + |kids| {
        assert g[j] == vars[j - |kids|] && Follows(vars[j - |kids| - 1], vars[j - |kids|]);
      }
    }
  }

  lemma TrimmedIsForest(vars: seq<Node>, i: nat)
    requires IsForest(vars) && i < |vars|
    ensures IsForest(Trimmed(vars, i))
  {
    var e := DeeperEnd(vars, i + 1, vars[i].depth);
    var t := Trimmed(vars, i);
    forall j | 0 < j < |t| ensures Follows(t[j - 1], t[j]) {
      if j < i {
        assert Follows(vars[j - 1], vars[j]);
      } else if j == i {
        assert Follows(vars[i - 1], vars[i]);
      } else if j > i + 1 {
        var k := j - i - 1 + e;
        assert t[j] == vars[k] && t[j - 1] == vars[k - 1] && Follows(vars[k - 1], vars[k]);
      }
    }
  }

  lemma EventKeepsForest(vars: seq<Node>, e: Event)
    requires IsForest(vars)
    ensures IsForest(Apply(vars, e))
  {
    match e
    case Scopes(_) =>
    case Variables(ref, rows) =>
      if FindRef(vars, ref) < |vars| {
        GrownIsForest(vars, FindRef(vars, ref), rows);
      }
    case Collapse(i) =>
      if i < |vars| {
        TrimmedIsForest(vars, i);
      }
    case Resume =>
  }

  /** Whatever happens, in whatever order: the list is a forest in preorder. */
  lemma {:induction false} AlwaysAForest(vars: seq<Node>, events: seq<Event>)
    requires IsForest(vars)
    ensures IsForest(ApplyAll(vars, events))
    decreases |events|
  {
    hide IsForest;
    if events != [] {
      EventKeepsForest(vars, events[0]);
      AlwaysAForest(Apply(vars, events[0]), events[1..]);
    }
  }

  /** Closing a node undoes opening it. */
  lemma CollapseUndoesInsert(vars: seq<Node>, i: nat, rows: seq<Var>)
    requires IsForest(vars) && i < |vars| && !vars[i].expanded
    ensures Trimmed(Grown(vars, i, rows), i) == vars
  {
    var g, d := Grown(vars, i, rows), vars[i].depth;
    var e := DeeperEnd(g, i + 1, d);
    if i + 1 < |vars| {
      assert Follows(vars[i], vars[i + 1]);
      assert g[i + 1 + |rows|] == vars[i + 1];
    }
    assert e == i + 1 + |rows|;
    assert g[e..] == vars[i + 1..];
    assert vars == vars[..i] + [vars[i]] + vars[i + 1..];
  }

  /** An answer to a reference the list does not hold, as after a resume, changes nothing. */
  lemma UnknownReferenceChangesNothing(vars: seq<Node>, ref: int, rows: seq<Var>)
    ensures (forall j :: 0 <= j < |vars| ==> vars[j].v.varRef != ref) ==> InsertChildren(vars, ref, rows) == vars
    ensures InsertChildren(Apply(vars, Resume), ref, rows) == []
  {
  }

  // -------------------------------------------------------- the tree it stands for

  datatype Tree = Tree(v: Var, expanded: bool, children: seq<Tree>)

  function Flatten(f: seq<Tree>, depth: nat): seq<Node>
    decreases f
  {
    if f == [] then [] else FlattenTree(f[0], depth) + Flatten(f[1..], depth)
  }

  function FlattenTree(t: Tree, depth: nat): (vars: seq<Node>)
    ensures |vars| >= 1
    decreases t
  {
    [Node(t.v, depth, t.expanded)] + Flatten(t.children, depth + 1)
  }

  /** Only an open node has children. */
  ghost predicate Proper(f: seq<Tree>)
    decreases f
  {
    forall i :: 0 <= i < |f| ==> ProperTree(f[i])
  }

  ghost predicate ProperTree(t: Tree)
    decreases t
  {
    (t.children != [] ==> t.expanded) && Proper(t.children)
  }

  /** The trees of depth `depth` at the front of a list, and what follows them. */
  function Parse(vars: seq<Node>, depth: nat): (r: (seq<Tree>, seq<Node>))
    ensures |r.1| <= |vars|
    decreases |vars|
  {
    if vars == [] || vars[0].depth < depth then ([], vars)
    else
      var (kids, rest) := Parse(vars[1..], depth + 1);
      var (trees, rest') := Parse(rest, depth);
      ([Tree(vars[0].v, vars[0].expanded, kids)] + trees, rest')
  }

  /** A list every next node of which follows the one before, the first at depth `depth` at most. */
  ghost predicate Chained(vars: seq<Node>, depth: nat) {
    (vars != [] ==> vars[0].depth <= depth) && forall j :: 0 < j < |vars| ==> Follows(vars[j - 1], vars[j])
  }

  /** Parsing a chained list loses nothing and stops at the first node above. */
  ghost predicate Parsed(vars: seq<Node>, depth: nat, f: seq<Tree>, rest: seq<Node>) {
    && vars == Flatten(f, depth) + rest && Proper(f)
    && Chained(rest, depth) && (rest != [] ==> rest[0].depth < depth)
    && (vars == [] || vars[0].depth < depth ==> f == [])
  }

  lemma {:induction false} ParseIsRight(vars: seq<Node>, depth: nat)
    requires Chained(vars, depth)
    ensures Parsed(vars, depth, Parse(vars, depth).0, Parse(vars, depth).1)
    decreases |vars|
  {
    hide Parsed, Chained;
    if vars == [] || vars[0].depth < depth {
      NothingParsed(vars, depth);
    } else {
      ChainedBelow(vars, depth);
      ParseIsRight(vars[1..], depth + 1);
      var (kids, rest) := Parse(vars[1..], depth + 1);
      ChainedUp(vars[1..], depth, kids, rest);
      ParseIsRight(rest, depth);
      var (trees, rest') := Parse(rest, depth);
      TreeParsed(vars, depth, kids, rest, trees, rest');
    }
  }

  lemma NothingParsed(vars: seq<Node>, depth: nat)
    requires Chained(vars, depth) && (vars == [] || vars[0].depth < depth)
    ensures Parsed(vars, depth, [], vars)
  {
    assert vars == Flatten([], depth) + vars;
  }

  lemma ChainedBelow(vars: seq<Node>, depth: nat)
    requires Chained(vars, depth) && vars != [] && vars[0].depth >= depth
    ensures vars[0].depth == depth && Chained(vars[1..], depth + 1)
    ensures |vars| > 1 && vars[1].depth > depth ==> vars[0].expanded
  {
    var tail := vars[1..];
    if tail != [] {
      assert Follows(vars[0], vars[1]);
    }
    forall j | 0 < j < |tail| ensures Follows(tail[j - 1], tail[j]) {
      assert tail[j] == vars[j + 1] && tail[j - 1] == vars[j];
    }
  }

  lemma ChainedUp(tail: seq<Node>, depth: nat, kids: seq<Tree>, rest: seq<Node>)
    requires Parsed(tail, depth + 1, kids, rest)
    ensures Chained(rest, depth)
  {
  }

  lemma TreeParsed(vars: seq<Node>, depth: nat, kids: seq<Tree>, rest: seq<Node>, trees: seq<Tree>, rest': seq<Node>)
    requires vars != [] && vars[0].depth == depth && (|vars| > 1 && vars[1].depth > depth ==> vars[0].expanded)
    requires Parsed(vars[1..], depth + 1, kids, rest) && Parsed(rest, depth, trees, rest')
    ensures Parsed(vars, depth, [Tree(vars[0].v, vars[0].expanded, kids)] + trees, rest')
  {
    hide Flatten, Proper, Chained;
    var t := Tree(vars[0].v, vars[0].expanded, kids);
    FlattenJoins(t, trees, depth, rest');
    assert vars == [vars[0]] + vars[1..];
    assert kids != [] ==> vars[1..][0] == vars[1];
    ProperNode(t);
    ProperJoins(t, trees);
  }

  lemma ProperNode(t: Tree)
    requires Proper(t.children) && (t.children != [] ==> t.expanded)
    ensures ProperTree(t)
  {
  }

  lemma FlattenJoins(t: Tree, trees: seq<Tree>, depth: nat, rest: seq<Node>)
    ensures Flatten([t] + trees, depth) + rest
         == [Node(t.v, depth, t.expanded)] + (Flatten(t.children, depth + 1) + (Flatten(trees, depth) + rest))
  {
    assert ([t] + trees)[1..] == trees;
  }

  lemma ProperJoins(t: Tree, trees: seq<Tree>)
    requires ProperTree(t) && Proper(trees)
    ensures Proper([t] + trees)
  {
  }

  // --------------------------------------------------- lists and their trees

  lemma {:induction false} FlattenDeep(f: seq<Tree>, depth: nat)
    ensures forall i :: 0 <= i < |Flatten(f, depth)| ==> Flatten(f, depth)[i].depth >= depth
    ensures f != [] ==> Flatten(f, depth) != [] && Flatten(f, depth)[0].depth == depth
    decreases f
  {
    if f != [] {
      FlattenTreeDeep(f[0], depth);
      FlattenDeep(f[1..], depth);
    }
  }

  lemma {:induction false} FlattenTreeDeep(t: Tree, depth: nat)
    ensures FlattenTree(t, depth)[0].depth == depth
    ensures forall i :: 0 < i < |FlattenTree(t, depth)| ==> FlattenTree(t, depth)[i].depth > depth
    decreases t
  {
    FlattenDeep(t.children, depth + 1);
  }

  /** A forest is what its own list parses to. */
  lemma {:induction false} ParseFlatten(f: seq<Tree>, depth: nat, rest: seq<Node>)
    requires rest != [] ==> rest[0].depth < depth
    ensures Parse(Flatten(f, depth) + rest, depth) == (f, rest)
    decreases f
  {
    hide FlattenTree;
    if f == [] {
      assert Flatten(f, depth) + rest == rest;
    } else {
      var more := Flatten(f[1..], depth) + rest;
      ParseFlatten(f[1..], depth, rest);
      FlattenDeep(f[1..], depth);
      ParseFlattenTree(f[0], depth, more);
      assert Flatten(f, depth) + rest == FlattenTree(f[0], depth) + more;
      FlattenTreeFirst(f[0], depth, more);
      assert f == [f[0]] + f[1..];
    }
  }

  lemma FlattenTreeFirst(t: Tree, depth: nat, more: seq<Node>)
    ensures var vars := FlattenTree(t, depth) + more;
            vars != [] && vars[0] == Node(t.v, depth, t.expanded) && vars[1..] == Flatten(t.children, depth + 1) + more
  {
  }

  lemma {:induction false} ParseFlattenTree(t: Tree, depth: nat, more: seq<Node>)
    requires more != [] ==> more[0].depth <= depth
    ensures Parse((FlattenTree(t, depth) + more)[1..], depth + 1) == (t.children, more)
    decreases t
  {
    FlattenTreeFirst(t, depth, more);
    ParseFlatten(t.children, depth + 1, more);
  }

  /** The list of a proper forest is one the pane can hold. */
  lemma {:induction false} FlattenChained(f: seq<Tree>, depth: nat)
    requires Proper(f)
    ensures Chained(Flatten(f, depth), depth)
    decreases f
  {
    if f != [] {
      FlattenTreeChained(f[0], depth);
      FlattenChained(f[1..], depth);
      FlattenDeep(f[1..], depth);
      FlattenTreeDeep(f[0], depth);
      var a, b := FlattenTree(f[0], depth), Flatten(f[1..], depth);
      ChainedJoin(a, b, depth);
    }
  }

  lemma ChainedJoin(a: seq<Node>, b: seq<Node>, depth: nat)
    requires a != [] && Chained(a, depth) && Chained(b, depth) && forall i :: 0 <= i < |a| ==> a[i].depth >= depth
    ensures Chained(a + b, depth)
  {
    var c := a + b;
    forall j | 0 < j < |c| ensures Follows(c[j - 1], c[j]) {
      if j < |a| {
        assert Follows(a[j - 1], a[j]);
      } else if j > |a| {
        assert Follows(b[j - |a| - 1], b[j - |a|]);
      }
    }
  }

  lemma {:induction false} FlattenTreeChained(t: Tree, depth: nat)
    requires ProperTree(t)
    ensures Chained(FlattenTree(t, depth), depth)
    decreases t
  {
    FlattenChained(t.children, depth + 1);
    FlattenDeep(t.children, depth + 1);
    var vars, kids := FlattenTree(t, depth), Flatten(t.children, depth + 1);
    forall j | 0 < j < |vars| ensures Follows(vars[j - 1], vars[j]) {
      if j > 1 {
        assert Follows(kids[j - 2], kids[j - 1]);
      }
    }
  }

  /**
   The lists that start at depth 0 and rise only below open nodes are exactly the preorders of proper
   forests, and no other forest has the same list.
   */
  lemma ListIsAForest(vars: seq<Node>)
    ensures IsForest(vars) <==> exists f :: Proper(f) && Flatten(f, 0) == vars
    ensures IsForest(vars) ==> Proper(Parse(vars, 0).0) && Flatten(Parse(vars, 0).0, 0) == vars
    ensures forall f :: Flatten(f, 0) == vars ==> f == Parse(vars, 0).0
  {
    hide Proper, Parse, Flatten;
    if IsForest(vars) {
      assert Chained(vars, 0);
      ParseIsRight(vars, 0);
      var (f, rest) := Parse(vars, 0);
      assert rest == [];
      assert Flatten(f, 0) + rest == Flatten(f, 0);
    }
    forall f | Flatten(f, 0) == vars
      ensures f == Parse(vars, 0).0
      ensures Proper(f) ==> IsForest(vars)
    {
      ParseFlatten(f, 0, []);
      assert Flatten(f, 0) + [] == vars;
      if Proper(f) {
        FlattenChained(f, 0);
        assert Chained(vars, 0);
      }
    }
  }

  // ------------------------------------------------ the operations on the tree

  /** A change to one node: new children in front of those it has, or none any more. */
  datatype Edit = Grow(rows: seq<Var>) | Trim

  function Edited(t: Tree, e: Edit): Tree {
    match e
    case Grow(rows) => Tree(t.v, true, Leaves(rows) + t.children)
    case Trim => Tree(t.v, false, [])
  }

  function Leaves(rows: seq<Var>): (ts: seq<Tree>)
    ensures |ts| == |rows| && forall i :: 0 <= i < |rows| ==> ts[i] == Tree(rows[i], false, [])
  {
    seq(|rows|, i requires 0 <= i < |rows| => Tree(rows[i], false, []))
  }

  /** Node `i`, counted in preorder, changed. */
  function EditAt(f: seq<Tree>, i: nat, e: Edit): seq<Tree>
    decreases f
  {
    if f == [] then []
    else
      var n := |FlattenTree(f[0], 0)|;
      if i < n then [EditTree(f[0], i, e)] + f[1..] else [f[0]] + EditAt(f[1..], i - n, e)
  }

  function EditTree(t: Tree, i: nat, e: Edit): Tree
    decreases t
  {
    if i == 0 then Edited(t, e) else Tree(t.v, t.expanded, EditAt(t.children, i - 1, e))
  }

  /** The same change on the list. */
  function EditList(vars: seq<Node>, i: nat, e: Edit): seq<Node>
    requires i < |vars|
  {
    match e
    case Grow(rows) => Grown(vars, i, rows)
    case Trim => Trimmed(vars, i)
  }

  lemma {:induction false} DeeperEndIs(vars: seq<Node>, j: nat, depth: nat, e: nat)
    requires j <= e <= |vars| && (e < |vars| ==> vars[e].depth <= depth)
    requires forall k :: j <= k < e ==> vars[k].depth > depth
    ensures DeeperEnd(vars, j, depth) == e
    decreases e - j
  {
    if j < e {
      DeeperEndIs(vars, j + 1, depth, e);
    }
  }

  /** A change within the first part of a list leaves the second alone, if that begins no deeper. */
  lemma EditFirst(a: seq<Node>, b: seq<Node>, i: nat, e: Edit)
    requires i < |a| && (b != [] ==> b[0].depth <= a[i].depth)
    ensures EditList(a + b, i, e) == EditList(a, i, e) + b
  {
    hide DeeperEnd, Children;
    assert (a + b)[i] == a[i] && (a + b)[..i] == a[..i];
    match e
    case Grow(rows) =>
      assert (a + b)[i + 1..] == a[i + 1..] + b;
    case Trim =>
      FirstDeeperEnd(a, b, i);
      var k := DeeperEnd(a, i + 1, a[i].depth);
      assert (a + b)[k..] == a[k..] + b;
  }

  lemma FirstDeeperEnd(a: seq<Node>, b: seq<Node>, i: nat)
    requires i < |a| && (b != [] ==> b[0].depth <= a[i].depth)
    ensures DeeperEnd(a + b, i + 1, a[i].depth) == DeeperEnd(a, i + 1, a[i].depth)
  {
    DeeperEndIs(a + b, i + 1, a[i].depth, DeeperEnd(a, i + 1, a[i].depth));
  }

  lemma EditSecond(a: seq<Node>, b: seq<Node>, i: nat, e: Edit)
    requires i < |b|
    ensures EditList(a + b, |a| + i, e) == a + EditList(b, i, e)
  {
    hide Grown, Trimmed;
    match e
    case Grow(rows) => GrownSecond(a, b, i, rows);
    case Trim => TrimmedSecond(a, b, i);
  }

  lemma Regroup<T>(a: seq<T>, x: seq<T>, y: seq<T>, z: seq<T>)
    ensures (a + x) + y + z == a + (x + y + z)
  {
  }

  lemma GrownSecond(a: seq<Node>, b: seq<Node>, i: nat, rows: seq<Var>)
    requires i < |b|
    ensures Grown(a + b, |a| + i, rows) == a + Grown(b, i, rows)
  {
    assert (a + b)[..|a| + i] == a + b[..i] && (a + b)[|a| + i + 1..] == b[i + 1..];
  }

  lemma SecondDeeperEnd(a: seq<Node>, b: seq<Node>, j: nat, depth: nat)
    requires j <= |b|
    ensures DeeperEnd(a + b, |a| + j, depth) == |a| + DeeperEnd(b, j, depth)
  {
    var k := DeeperEnd(b, j, depth);
    forall m | |a| + j <= m < |a| + k ensures (a + b)[m].depth > depth {
      assert (a + b)[m] == b[m - |a|];
    }
    DeeperEndIs(a + b, |a| + j, depth, |a| + k);
  }

  lemma TrimmedSecond(a: seq<Node>, b: seq<Node>, i: nat)
    requires i < |b|
    ensures Trimmed(a + b, |a| + i) == a + Trimmed(b, i)
  {
    hide DeeperEnd;
    var k, n := DeeperEnd(b, i + 1, b[i].depth), b[i].(expanded := false);
    SecondDeeperEnd(a, b, i + 1, b[i].depth);
    assert (a + b)[|a| + i] == b[i];
    assert (a + b)[..|a| + i] == a + b[..i] && (a + b)[|a| + k..] == b[k..];
    Regroup(a, b[..i], [n], b[k..]);
  }

  lemma {:induction false} CountAtAnyDepth(t: Tree, d: nat, d': nat)
    ensures |FlattenTree(t, d)| == |FlattenTree(t, d')|
    decreases t
  {
    CountsAtAnyDepth(t.children, d + 1, d' + 1);
  }

  lemma {:induction false} CountsAtAnyDepth(f: seq<Tree>, d: nat, d': nat)
    ensures |Flatten(f, d)| == |Flatten(f, d')|
    decreases f
  {
    if f != [] {
      CountAtAnyDepth(f[0], d, d');
      CountsAtAnyDepth(f[1..], d, d');
    }
  }

  lemma {:induction false} FlattenLeaves(rows: seq<Var>, children: seq<Tree>, depth: nat)
    ensures Flatten(Leaves(rows) + children, depth) == Children(rows, depth) + Flatten(children, depth)
    decreases |rows|
  {
    if rows == [] {
      assert Leaves(rows) + children == children;
    } else {
      var f := Leaves(rows) + children;
      assert f[1..] == Leaves(rows[1..]) + children;
      FlattenLeaves(rows[1..], children, depth);
      assert FlattenTree(f[0], depth) == [Node(rows[0], depth, false)];
      assert Children(rows, depth) == [Node(rows[0], depth, false)] + Children(rows[1..], depth);
    }
  }

  lemma EditRoot(t: Tree, depth: nat, e: Edit)
    ensures EditList(FlattenTree(t, depth), 0, e) == FlattenTree(Edited(t, e), depth)
  {
    var vars := FlattenTree(t, depth);
    match e
    case Grow(rows) => FlattenLeaves(rows, t.children, depth + 1);
    case Trim =>
      FlattenTreeDeep(t, depth);
      DeeperEndIs(vars, 1, depth, |vars|);
  }

  /** Splicing and draining the list is changing one node of the tree it stands for. */
  lemma {:induction false} EditIsOnTheTree(f: seq<Tree>, depth: nat, i: nat, e: Edit)
    requires i < |Flatten(f, depth)|
    ensures EditList(Flatten(f, depth), i, e) == Flatten(EditAt(f, i, e), depth)
    decreases f
  {
    hide EditList, FlattenTree, EditTree;
    var a, b := FlattenTree(f[0], depth), Flatten(f[1..], depth);
    CountAtAnyDepth(f[0], 0, depth);
    FlattenDeep(f[1..], depth);
    FlattenTreeDeep(f[0], depth);
    if i < |a| {
      EditTreeIsOnTheTree(f[0], depth, i, e);
      EditFirst(a, b, i, e);
      FlattenCons(EditTree(f[0], i, e), f[1..], depth);
    } else {
      EditIsOnTheTree(f[1..], depth, i - |a|, e);
      EditSecond(a, b, i - |a|, e);
      FlattenCons(f[0], EditAt(f[1..], i - |a|, e), depth);
    }
  }

  lemma FlattenCons(t: Tree, f: seq<Tree>, depth: nat)
    ensures Flatten([t] + f, depth) == FlattenTree(t, depth) + Flatten(f, depth)
  {
    assert ([t] + f)[1..] == f;
  }

  lemma {:induction false} EditTreeIsOnTheTree(t: Tree, depth: nat, i: nat, e: Edit)
    requires i < |FlattenTree(t, depth)|
    ensures EditList(FlattenTree(t, depth), i, e) == FlattenTree(EditTree(t, i, e), depth)
    decreases t
  {
    hide EditList, Flatten;
    if i == 0 {
      EditRoot(t, depth, e);
    } else {
      var root, kids := [Node(t.v, depth, t.expanded)], Flatten(t.children, depth + 1);
      EditIsOnTheTree(t.children, depth + 1, i - 1, e);
      EditSecond(root, kids, i - 1, e);
    }
  }

  // ----------------------------------------------- what an event does to the list

  /** One closed header at depth 0 for each scope, with its name and reference; an expensive one says so. */
  ghost predicate AreHeaders(vars: seq<Node>, scopes: seq<Scope>) {
    && |vars| == |scopes|
    && forall i :: 0 <= i < |scopes| ==>
                     && vars[i].depth == 0 && !vars[i].expanded
                     && vars[i].v.name == scopes[i].name && vars[i].v.varRef == scopes[i].varRef && vars[i].v.ty == ""
                     && vars[i].v.value == (if scopes[i].expensive then "(expensive)" else "")
  }

  /** The rows stand closed and one level deeper right behind node `i`, which is open; the rest is as it was. */
  ghost predicate Spliced(was: seq<Node>, now: seq<Node>, i: nat, rows: seq<Var>) {
    && i < |was| && |now| == |was| + |rows|
    && (forall j :: 0 <= j < i ==> now[j] == was[j])
    && now[i] == Node(was[i].v, was[i].depth, true)
    && (forall j :: 0 <= j < |rows| ==> now[i + 1 + j] == Node(rows[j], was[i].depth + 1, false))
    && (forall j :: i < j < |was| ==> now[j + |rows|] == was[j])
  }

  /** Spliced in behind the first node with this reference; nothing happens if there is none. */
  ghost predicate Answered(was: seq<Node>, now: seq<Node>, ref: int, rows: seq<Var>) {
    if exists j :: 0 <= j < |was| && was[j].v.varRef == ref then
      exists i :: 0 <= i < |was| && was[i].v.varRef == ref && (forall j :: 0 <= j < i ==> was[j].v.varRef != ref)
                  && Spliced(was, now, i, rows)
    else now == was
  }

  /** Node `i` is closed, and the deeper nodes right behind it are gone, up to the first that is not deeper. */
  ghost predicate Drained(was: seq<Node>, now: seq<Node>, i: nat) {
    && i < |was|
    && exists e :: i < e <= |was| && (forall k :: i < k < e ==> was[k].depth > was[i].depth)
                   && (e < |was| ==> was[e].depth <= was[i].depth)
                   && now == was[..i] + [Node(was[i].v, was[i].depth, false)] + was[e..]
  }

  /** The events do exactly that. */
  lemma EventDoes(vars: seq<Node>, e: Event)
    ensures match e
            case Scopes(scopes) => AreHeaders(Apply(vars, e), scopes)
            case Variables(ref, rows) => Answered(vars, Apply(vars, e), ref, rows)
            case Collapse(i) => if i < |vars| then Drained(vars, Apply(vars, e), i) else Apply(vars, e) == vars
            case Resume => Apply(vars, e) == []
  {
    hide Spliced, Drained, Grown, Trimmed;
    match e
    case Variables(ref, rows) =>
      var i := FindRef(vars, ref);
      if i < |vars| {
        GrownIsSpliced(vars, i, rows);
      }
    case Collapse(i) =>
      if i < |vars| {
        TrimmedIsDrained(vars, i);
      }
    case _ =>
  }

  lemma GrownIsSpliced(vars: seq<Node>, i: nat, rows: seq<Var>)
    requires i < |vars|
    ensures Spliced(vars, Grown(vars, i, rows), i, rows)
  {
  }

  lemma TrimmedIsDrained(vars: seq<Node>, i: nat)
    requires i < |vars|
    ensures Drained(vars, Trimmed(vars, i), i)
  {
    var e := DeeperEnd(vars, i + 1, vars[i].depth);
    assert Trimmed(vars, i) == vars[..i] + [Node(vars[i].v, vars[i].depth, false)] + vars[e..];
  }

  // ------------------------------------------------------------ the running pane

  class VarsPane {
    var vars: seq<Node>
    var varSel: nat
    var inspectPending: bool
    var inspectRef: Option<int>

    ghost predicate Valid()
      reads this
    {
      IsForest(vars) && (varSel < |vars| || varSel == 0)
    }

    constructor ()
      ensures Valid() && vars == []
    {
      vars, varSel := [], 0;
      inspectPending, inspectRef := false, None;
    }

    method OnScopes(scopes: seq<Scope>)
      requires Valid()
      modifies `vars, `varSel
      ensures Valid() && vars == Apply(old(vars), Scopes(scopes)) && varSel == 0
      ensures AreHeaders(vars, scopes)
    {
      EventDoes(vars, Scopes(scopes));
      EventKeepsForest(vars, Scopes(scopes));
      ghost var headers := Headers(scopes);
      vars := [];
      var i := 0;
      while i < |scopes|
        invariant i == |vars| <= |scopes| && vars == headers[..i]
      {
        vars := vars + [Header(scopes[i])];
        i := i + 1;
      }
      assert headers[..i] == headers;
      varSel := 0;
    }

    /** An answer the inspector waits for goes there; any other goes into the list. */
    method OnVariables(asked: int, rows: seq<Var>)
      requires Valid()
      modifies this
      ensures Valid() && varSel == old(varSel)
      ensures var forInspector := old(inspectPending) && old(inspectRef) == Some(asked);
              && vars == (if forInspector then old(vars) else Apply(old(vars), Variables(asked, rows)))
              && (if forInspector then vars == old(vars) else Answered(old(vars), vars, asked, rows))
              && inspectPending == (old(inspectPending) && !forInspector)
    {
      if inspectPending && inspectRef == Some(asked) {
        inspectPending, inspectRef := false, None;
      } else {
        InsertRows(asked, rows);
      }
    }

    method FindNode(ref: int) returns (i: nat)
      ensures i == FindRef(vars, ref)
    {
      i := 0;
      assert vars[0..] == vars;
      while i < |vars| && vars[i].v.varRef != ref
        invariant i <= |vars| && FindRef(vars, ref) == i + FindRef(vars[i..], ref)
      {
        assert vars[i..][1..] == vars[i + 1..];
        i := i + 1;
      }
    }

    method AtDepth(rows: seq<Var>, depth: nat) returns (nodes: seq<Node>)
      ensures nodes == Children(rows, depth)
    {
      nodes := [];
      var k := 0;
      while k < |rows|
        invariant k == |nodes| <= |rows| && forall j :: 0 <= j < k ==> nodes[j] == Node(rows[j], depth, false)
      {
        nodes := nodes + [Node(rows[k], depth, false)];
        k := k + 1;
      }
    }

    method InsertRows(parent: int, rows: seq<Var>)
      requires Valid()
      modifies `vars
      ensures Valid() && vars == Apply(old(vars), Variables(parent, rows))
      ensures Answered(old(vars), vars, parent, rows)
    {
      hide IsForest, FindRef, Children, Answered;
      EventDoes(vars, Variables(parent, rows));
      EventKeepsForest(vars, Variables(parent, rows));
      var i := FindNode(parent);
      if i == |vars| {
        return;
      }
      var nodes := AtDepth(rows, vars[i].depth + 1);
      vars := vars[i := vars[i].(expanded := true)];
      vars := vars[..i + 1] + nodes + vars[i + 1..];
      assert vars == Grown(old(vars), i, rows);
    }

    /** Enter on an open node. */
    method CollapseSelected()
      requires Valid() && varSel < |vars| && vars[varSel].expanded
      modifies `vars
      ensures Valid() && vars == Apply(old(vars), Collapse(varSel))
      ensures Drained(old(vars), vars, varSel)
    {
      hide Drained;
      EventDoes(vars, Collapse(varSel));
      EventKeepsForest(vars, Collapse(varSel));
      var index, depth := varSel, vars[varSel].depth;
      ghost var was := vars;
      vars := vars[index := vars[index].(expanded := false)];
      var end := index + 1;
      while end < |vars| && vars[end].depth > depth
        invariant index + 1 <= end <= |vars|
        invariant forall k :: index + 1 <= k < end ==> was[k].depth > depth
      {
        end := end + 1;
      }
      DeeperEndIs(was, index + 1, depth, end);
      vars := vars[..index + 1] + vars[end..];
      assert vars == Trimmed(was, index);
    }

    /** A resume invalidates every reference, so nothing of the list is kept. */
    method SetRunning()
      modifies this
      ensures Valid() && vars == Apply(old(vars), Resume) == [] && varSel == 0 && !inspectPending && inspectRef == None
    {
      vars, varSel := [], 0;
      inspectPending, inspectRef := false, None;
    }
  }
}
