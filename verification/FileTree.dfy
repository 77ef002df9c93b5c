/**
 The collapsed file tree of the debug client: the rows shown are computed from a sorted list of paths
 and the set of directories that are open.
 */
module FileTree {
  import opened Bytes
  import opened Wire

  type Name = seq<byte>

  /** The components of a relative path. */
  type Path = seq<Name>

  datatype Row = Row(path: Path, depth: nat, isDir: bool, expanded: bool)

  // ----------------------------------------------------------- order of paths

  /** Component by component; a directory comes before what is under it. */
  predicate PathLess(a: Path, b: Path) {
    b != [] && (a == [] || BytesLess(a[0], b[0]) || (a[0] == b[0] && PathLess(a[1..], b[1..])))
  }

  lemma {:induction false} PathLessStrict(a: Path, b: Path)
    requires PathLess(a, b)
    ensures a != b && !PathLess(b, a)
    decreases |a|
  {
    if a != [] {
      BytesOrder(a[0], b[0]);
      if a[0] == b[0] {
        PathLessStrict(a[1..], b[1..]);
      }
    }
  }

  lemma {:induction false} PathLessTransitive(a: Path, b: Path, c: Path)
    requires PathLess(a, b) && PathLess(b, c)
    ensures PathLess(a, c)
    decreases |a|
  {
    if a != [] {
      if BytesLess(a[0], b[0]) && BytesLess(b[0], c[0]) {
        BytesTransitive(a[0], b[0], c[0]);
      } else if a[0] == b[0] == c[0] {
        PathLessTransitive(a[1..], b[1..], c[1..]);
      }
    }
  }

  lemma {:induction false} PrefixLess(p: Path, q: Path)
    requires p < q
    ensures PathLess(p, q)
    decreases |p|
  {
    if p != [] {
      PrefixLess(p[1..], q[1..]);
    }
  }

  lemma PrefixOfLess(p: Path, g: Path, q: Path)
    requires p <= g && PathLess(g, q)
    ensures PathLess(p, q)
  {
    if p < g {
      PrefixLess(p, g);
      PathLessTransitive(p, g, q);
    }
  }

  lemma TailPrefix(a: Path, b: Path)
    requires a != [] && b != [] && a[0] == b[0]
    ensures a <= b <==> a[1..] <= b[1..]
  {
    if a[1..] <= b[1..] {
      assert a == [a[0]] + a[1..] && b == [b[0]] + b[1..];
    }
  }

  /** A path between two that neither contains comes between them. */
  lemma {:induction false} PrefixBetween(g: Path, f: Path, q: Path)
    requires PathLess(g, f) && q <= f && !(q <= g) && !(g <= f)
    ensures PathLess(g, q)
    decreases |g|
  {
    BytesOrder(g[0], f[0]);
    if g[0] == f[0] {
      TailPrefix(q, g);
      TailPrefix(g, f);
      PrefixBetween(g[1..], f[1..], q[1..]);
    }
  }

  // ------------------------------------------------------------ what is shown

  /** What the client's file list is: sorted, without doubles, no file the ancestor of another. */
  ghost predicate Listed(files: seq<Path>) {
    && (forall i, j :: 0 <= i < j < |files| ==> PathLess(files[i], files[j]))
    && (forall i, j :: 0 <= i < |files| && 0 <= j < |files| && i != j ==> !(files[i] <= files[j]))
  }

  /** A listed file, or a directory above one. */
  ghost predicate InTree(files: seq<Path>, p: Path) {
    p != [] && exists k :: 0 <= k < |files| && p <= files[k]
  }

  ghost predicate IsDir(files: seq<Path>, p: Path) {
    exists k :: 0 <= k < |files| && p < files[k]
  }

  /** Every directory above `p` is open. */
  predicate AllOpen(expanded: set<Path>, p: Path) {
    forall i :: 0 < i < |p| ==> p[..i] in expanded
  }

  ghost predicate Visible(files: seq<Path>, expanded: set<Path>, p: Path) {
    InTree(files, p) && AllOpen(expanded, p)
  }

  ghost function RowOf(files: seq<Path>, expanded: set<Path>, p: Path): Row
    requires p != []
  {
    Row(p, |p| - 1, IsDir(files, p), IsDir(files, p) && p in expanded)
  }

  ghost predicate Increasing(rows: seq<Row>) {
    forall i, j :: 0 <= i < j < |rows| ==> PathLess(rows[i].path, rows[j].path)
  }

  /** The rows are those of `paths`, once each, in preorder. */
  ghost predicate Lists(rows: seq<Row>, files: seq<Path>, expanded: set<Path>, paths: set<Path>) {
    && Increasing(rows)
    && (forall i :: 0 <= i < |rows| ==> rows[i].path != [] && rows[i].path in paths && rows[i] == RowOf(files, expanded, rows[i].path))
    && (forall p :: p in paths ==> exists i :: 0 <= i < |rows| && rows[i].path == p)
  }

  /** What the tree should show: everything visible, once, in preorder, with its depth and its marks. */
  ghost predicate Shows(rows: seq<Row>, files: seq<Path>, expanded: set<Path>) {
    && Increasing(rows)
    && (forall i :: 0 <= i < |rows| ==>
                      Visible(files, expanded, rows[i].path) && rows[i] == RowOf(files, expanded, rows[i].path))
    && (forall p :: Visible(files, expanded, p) ==> exists i :: 0 <= i < |rows| && rows[i].path == p)
  }

  lemma AddRow(rows: seq<Row>, files: seq<Path>, expanded: set<Path>, paths: set<Path>, p: Path)
    requires Lists(rows, files, expanded, paths) && p != []
    requires forall q :: q in paths ==> PathLess(q, p)
    ensures Lists(rows + [RowOf(files, expanded, p)], files, expanded, paths + {p})
  {
    hide PathLess, RowOf;
    var more := rows + [RowOf(files, expanded, p)];
    assert more[|rows|].path == p by { RowPath(files, expanded, p); }
    forall q | q in paths + {p} ensures exists i :: 0 <= i < |more| && more[i].path == q {
      if q in paths {
        var i :| 0 <= i < |rows| && rows[i].path == q;
        assert more[i].path == q;
      }
    }
  }

  lemma RowPath(files: seq<Path>, expanded: set<Path>, p: Path)
    requires p != []
    ensures RowOf(files, expanded, p).path == p
  {
  }

  /** What has been shown when `d` components of file `k` have been gone through. */
  ghost predicate Reached(files: seq<Path>, expanded: set<Path>, k: nat, d: nat, paths: set<Path>)
    requires k <= |files| && (k < |files| ==> d <= |files[k]|) && (k == |files| ==> d == 0)
  {
    forall p :: p in paths <==>
                Visible(files[..k], expanded, p) || (p != [] && |p| <= d && p <= files[k] && AllOpen(expanded, p))
  }

  lemma UnderIsVisible(files: seq<Path>, expanded: set<Path>, k: nat, g: nat, q: Path)
    requires g < k <= |files| && q != [] && AllOpen(expanded, q)
    ensures q <= files[g] ==> Visible(files[..k], expanded, q)
  {
    assert files[..k][g] == files[g];
  }

  /** The next directory of file `k`, if it was not shown yet, comes after all that was. */
  lemma NextDirIsLast(files: seq<Path>, expanded: set<Path>, k: nat, d: nat, paths: set<Path>, q: Path)
    requires Listed(files) && k < |files| && d < |files[k]| && Reached(files, expanded, k, d, paths)
    requires q == files[k][..d + 1] && q < files[k] && AllOpen(expanded, q) && q !in paths
    ensures forall p :: p in paths ==> PathLess(p, q)
  {
    hide PathLess;
    var f := files[k];
    forall p | p in paths ensures PathLess(p, q) {
      if Visible(files[..k], expanded, p) {
        var g :| 0 <= g < k && p <= files[..k][g];
        assert files[..k][g] == files[g];
        UnderIsVisible(files, expanded, k, g, q);
        PrefixBetween(files[g], f, q);
        PrefixOfLess(p, files[g], q);
      } else {
        assert p < q;
        PrefixLess(p, q);
      }
    }
  }

  lemma FileIsLast(files: seq<Path>, expanded: set<Path>, k: nat, paths: set<Path>)
    requires Listed(files) && k < |files| && files[k] != [] && Reached(files, expanded, k, |files[k]| - 1, paths)
    ensures forall p :: p in paths ==> PathLess(p, files[k])
  {
    hide PathLess;
    var f := files[k];
    forall p | p in paths ensures PathLess(p, f) {
      if Visible(files[..k], expanded, p) {
        var g :| 0 <= g < k && p <= files[..k][g];
        assert files[..k][g] == files[g];
        PrefixOfLess(p, files[g], f);
      } else {
        PrefixLess(p, f);
      }
    }
  }

  // ------------------------------------------------------------- `build_rows`

  lemma EmptyShowsNothing(files: seq<Path>, expanded: set<Path>, k: nat)
    requires k < |files| && files[k] == []
    ensures forall p :: Visible(files[..k + 1], expanded, p) <==> Visible(files[..k], expanded, p)
  {
    assert files[..k + 1] == files[..k] + [files[k]];
    forall p ensures InTree(files[..k + 1], p) <==> InTree(files[..k], p) {
      InTreeMore(files[..k], files[k], p);
    }
  }

  /** One component more: its path is shown if everything above it is open. */
  lemma OneMoreReached(files: seq<Path>, expanded: set<Path>, k: nat, d: nat, paths: set<Path>, paths': set<Path>)
    requires k < |files| && d < |files[k]| && Reached(files, expanded, k, d, paths)
    requires paths' == if AllOpen(expanded, files[k][..d + 1]) then paths + {files[k][..d + 1]} else paths
    ensures Reached(files, expanded, k, d + 1, paths')
  {
    var f, acc := files[k], files[k][..d + 1];
    assert acc <= f && |acc| == d + 1;
    assert forall p: Path :: p <= f && |p| == d + 1 ==> p == acc;
  }

  lemma AllOpenMore(expanded: set<Path>, f: Path, d: nat)
    requires d + 1 < |f|
    ensures AllOpen(expanded, f[..d + 2]) <==> AllOpen(expanded, f[..d + 1]) && f[..d + 1] in expanded
  {
    var p, q := f[..d + 1], f[..d + 2];
    assert forall i :: 0 < i < |p| ==> p[..i] == q[..i];
    assert q[..d + 1] == p;
  }

  lemma DirRow(files: seq<Path>, expanded: set<Path>, k: nat, p: Path)
    requires k < |files| && p != [] && p < files[k]
    ensures IsDir(files, p) && RowOf(files, expanded, p) == Row(p, |p| - 1, true, p in expanded)
  {
  }

  lemma FileRow(files: seq<Path>, expanded: set<Path>, k: nat)
    requires Listed(files) && k < |files| && files[k] != []
    ensures !IsDir(files, files[k])
    ensures RowOf(files, expanded, files[k]) == Row(files[k], |files[k]| - 1, false, false)
  {
  }

  lemma NothingShown(files: seq<Path>, expanded: set<Path>)
    ensures Lists([], files, expanded, {}) && forall p :: !Visible(files[..0], expanded, p)
  {
  }

  lemma FileBegins(files: seq<Path>, expanded: set<Path>, k: nat, paths: set<Path>)
    requires k < |files| && files[k] != [] && forall p :: p in paths <==> Visible(files[..k], expanded, p)
    ensures Reached(files, expanded, k, 0, paths) && AllOpen(expanded, files[k][..1])
  {
  }

  lemma ListsShows(rows: seq<Row>, files: seq<Path>, expanded: set<Path>, paths: set<Path>)
    requires Lists(rows, files, expanded, paths) && forall p :: p in paths <==> Visible(files, expanded, p)
    ensures Shows(rows, files, expanded)
  {
  }

  /** Going on to the next file forgets nothing. */
  lemma FileReached(files: seq<Path>, expanded: set<Path>, k: nat, paths: set<Path>)
    requires k < |files| && Reached(files, expanded, k, |files[k]|, paths)
    ensures forall p :: p in paths <==> Visible(files[..k + 1], expanded, p)
  {
    var f := files[k];
    assert files[..k + 1] == files[..k] + [f];
    forall p ensures InTree(files[..k + 1], p) <==> InTree(files[..k], p) || (p != [] && p <= f) {
      InTreeMore(files[..k], f, p);
    }
  }

  lemma InTreeMore(files: seq<Path>, f: Path, p: Path)
    ensures InTree(files + [f], p) <==> InTree(files, p) || (p != [] && p <= f)
  {
    var more := files + [f];
    assert more[|files|] == f;
    if InTree(files, p) {
      var k :| 0 <= k < |files| && p <= files[k];
      assert more[k] == files[k];
    }
  }

  /**
   The rows a collapsed tree shows. A directory's row is made when the first file below it is met; the
   rest of a file's components are passed over once a closed directory is met.
   */
  method BuildRows(files: seq<Path>, expanded: set<Path>) returns (rows: seq<Row>)
    requires Listed(files)
    ensures Shows(rows, files, expanded)
  {
    hide PathLess, Listed, Lists, Reached, Visible, InTree, IsDir, AllOpen, Shows, RowOf;
    NothingShown(files, expanded);
    rows := [];
    var seen: set<Path> := {};
    ghost var paths: set<Path> := {};
    var k := 0;
    while k < |files|
      invariant k <= |files| && Lists(rows, files, expanded, paths)
      invariant forall p :: p in paths <==> Visible(files[..k], expanded, p)
      invariant forall p :: p in seen <==> p in paths && IsDir(files, p)
    {
      var parts := files[k];
      if parts == [] {
        EmptyShowsNothing(files, expanded, k);
        k := k + 1;
        continue;
      }
      var acc: Path := [];
      var visible := true;
      var d := 0;
      FileBegins(files, expanded, k, paths);
      while d < |parts| - 1
        invariant d <= |parts| - 1 && acc == parts[..d]
        invariant visible <==> AllOpen(expanded, parts[..d + 1])
        invariant Lists(rows, files, expanded, paths) && Reached(files, expanded, k, d, paths)
        invariant forall p :: p in seen <==> p in paths && IsDir(files, p)
      {
        ghost var before := paths;
        acc := acc + [parts[d]];
        assert acc == parts[..d + 1] && acc < parts;
        DirRow(files, expanded, k, acc);
        if visible && acc !in seen {
          NextDirIsLast(files, expanded, k, d, paths, acc);
          AddRow(rows, files, expanded, paths, acc);
          seen := seen + {acc};
          rows := rows + [Row(acc, d, true, acc in expanded)];
          paths := paths + {acc};
        }
        OneMoreReached(files, expanded, k, d, before, paths);
        AllOpenMore(expanded, parts, d);
        if acc !in expanded {
          visible := false;
        }
        d := d + 1;
      }
      assert parts[..d + 1] == parts;
      ghost var before := paths;
      if visible {
        FileIsLast(files, expanded, k, paths);
        FileRow(files, expanded, k);
        AddRow(rows, files, expanded, paths, parts);
        rows := rows + [Row(parts, |parts| - 1, false, false)];
        paths := paths + {parts};
      }
      OneMoreReached(files, expanded, k, d, before, paths);
      FileReached(files, expanded, k, paths);
      k := k + 1;
    }
    assert files[..k] == files;
    ListsShows(rows, files, expanded, paths);
  }
}
