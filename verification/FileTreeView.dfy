/** The file tree of a running client: open and close directories, reveal a file, keep the selection. */
module FileTreeView {
  import opened Wrappers
  import opened FileTree

  // -------------------------------------------------- what the rows determine

  /** The rows are settled by the files and the open directories. */
  lemma {:induction false} ShowsOnce(rows: seq<Row>, rows': seq<Row>, files: seq<Path>, expanded: set<Path>)
    requires Shows(rows, files, expanded) && Shows(rows', files, expanded)
    ensures rows == rows'
  {
    hide PathLess, Visible, RowOf;
    SameCount(rows, rows', files, expanded);
    SameCount(rows', rows, files, expanded);
    forall i | 0 <= i < |rows| ensures rows[i] == rows'[i] {
      SamePath(rows, rows', files, expanded, i);
    }
  }

  /** The first `i` rows of one list are among those of the other that come before its row `i`. */
  lemma {:induction false} SamePath(rows: seq<Row>, rows': seq<Row>, files: seq<Path>, expanded: set<Path>, i: nat)
    requires Shows(rows, files, expanded) && Shows(rows', files, expanded) && i < |rows| && i < |rows'|
    ensures rows[i].path == rows'[i].path
    decreases i
  {
    hide Visible, RowOf;
    forall m | 0 <= m < i ensures rows[m].path == rows'[m].path {
      SamePath(rows, rows', files, expanded, m);
    }
    var j := Position(rows', files, expanded, rows[i].path);
    var m := Position(rows, files, expanded, rows'[i].path);
    if j < i {
      PathLessStrict(rows[j].path, rows[i].path);
    } else if m < i {
      PathLessStrict(rows[m].path, rows'[i].path);
    } else if j > i && m > i {
      PathLessStrict(rows[i].path, rows[m].path);
    }
  }

  lemma Position(rows: seq<Row>, files: seq<Path>, expanded: set<Path>, p: Path) returns (i: nat)
    requires Shows(rows, files, expanded) && Visible(files, expanded, p)
    ensures i < |rows| && rows[i].path == p
  {
    i :| 0 <= i < |rows| && rows[i].path == p;
  }

  lemma SameCount(rows: seq<Row>, rows': seq<Row>, files: seq<Path>, expanded: set<Path>)
    requires Shows(rows, files, expanded) && Shows(rows', files, expanded)
    ensures |rows| <= |rows'|
  {
    hide Visible, RowOf;
    if |rows| > |rows'| {
      forall m | 0 <= m < |rows'| ensures rows[m].path == rows'[m].path {
        SamePath(rows, rows', files, expanded, m);
      }
      var n := |rows'|;
      var j := Position(rows', files, expanded, rows[n].path);
      PathLessStrict(rows[j].path, rows[n].path);
    }
  }

  /** Closing a directory hides exactly what is below it; opening it again shows that again. */
  lemma ClosingHidesBelow(files: seq<Path>, expanded: set<Path>, dir: Path, p: Path)
    requires dir != []
    ensures Visible(files, expanded - {dir}, p) <==> Visible(files, expanded, p) && !(dir < p)
  {
    if dir < p {
      assert p[..|dir|] == dir;
    }
    if AllOpen(expanded, p) && !(dir < p) {
      forall i | 0 < i < |p| ensures p[..i] in expanded - {dir} {
        assert p[..i] < p;
      }
    }
  }

  ghost predicate ShownIn(rows: seq<Row>, p: Path) {
    exists i :: 0 <= i < |rows| && rows[i].path == p
  }

  lemma ShownIsVisible(rows: seq<Row>, files: seq<Path>, expanded: set<Path>, p: Path)
    requires Shows(rows, files, expanded)
    ensures ShownIn(rows, p) <==> Visible(files, expanded, p)
  {
  }

  /** The one directory is open where it was closed and closed where it was open; all others are as they were. */
  ghost predicate TurnedOver(expanded: set<Path>, expanded': set<Path>, dir: Path) {
    (dir in expanded' <==> dir !in expanded) && forall p :: p != dir ==> (p in expanded' <==> p in expanded)
  }

  /** What a closed directory that is opened adds to the rows is what is below it; an open one takes just that away. */
  lemma TurningOverShows(files: seq<Path>, expanded: set<Path>, expanded': set<Path>, dir: Path,
                         rows: seq<Row>, rows': seq<Row>, p: Path)
    requires dir != [] && TurnedOver(expanded, expanded', dir)
    requires Shows(rows, files, expanded) && Shows(rows', files, expanded')
    ensures dir in expanded ==> (ShownIn(rows', p) <==> ShownIn(rows, p) && !(dir < p))
    ensures dir !in expanded ==> (ShownIn(rows, p) <==> ShownIn(rows', p) && !(dir < p))
  {
    hide Shows, Visible;
    ShownIsVisible(rows, files, expanded, p);
    ShownIsVisible(rows', files, expanded', p);
    if dir in expanded {
      assert expanded' == expanded - {dir};
      ClosingHidesBelow(files, expanded, dir, p);
    } else {
      assert expanded == expanded' - {dir};
      ClosingHidesBelow(files, expanded', dir, p);
    }
  }

  /** Toggling a directory twice brings back the very same rows. */
  lemma TogglingTwiceRestores(files: seq<Path>, expanded: set<Path>, expanded': set<Path>, expanded'': set<Path>, dir: Path,
                              rows: seq<Row>, rows'': seq<Row>)
    requires TurnedOver(expanded, expanded', dir) && TurnedOver(expanded', expanded'', dir)
    requires Shows(rows, files, expanded) && Shows(rows'', files, expanded'')
    ensures rows'' == rows
  {
    assert expanded'' == expanded;
    ShowsOnce(rows, rows'', files, expanded);
  }

  function Ancestors(path: Path): set<Path> {
    set i | 0 < i < |path| :: path[..i]
  }

  lemma AncestorsAreAbove(path: Path)
    ensures forall p :: p in Ancestors(path) <==> [] < p < path
  {
    forall p | [] < p < path ensures p in Ancestors(path) {
      assert p == path[..|p|];
    }
  }

  /** Once everything above a listed file is open, the file is visible. */
  lemma RevealedIsVisible(files: seq<Path>, expanded: set<Path>, path: Path)
    requires path != [] && path in files && Ancestors(path) <= expanded
    ensures Visible(files, expanded, path)
  {
    var k :| 0 <= k < |files| && files[k] == path;
    assert path <= files[k];
    forall i | 0 < i < |path| ensures path[..i] in expanded {
      assert path[..i] in Ancestors(path);
    }
  }

  /** A top-level directory, or a top-level file, of the first `k` files. */
  ghost predicate IsRoot(files: seq<Path>, k: nat, p: Path)
    requires k <= |files|
  {
    |p| == 1 && exists j :: 0 <= j < k && p <= files[j]
  }

  lemma NoRoots(files: seq<Path>)
    ensures forall p :: !IsRoot(files, 0, p)
  {
  }

  lemma RootsMore(files: seq<Path>, k: nat, p: Path)
    requires k < |files|
    ensures IsRoot(files, k + 1, p) <==> IsRoot(files, k, p) || (files[k] != [] && p == [files[k][0]])
  {
    if files[k] != [] {
      assert [files[k][0]] <= files[k];
    }
  }

  function Min(a: nat, b: nat): nat {
    if a < b then a else b
  }

  class DebugView {
    var files: seq<Path>
    var expanded: set<Path>
    var rows: seq<Row>
    var fileSel: nat

    ghost predicate Valid()
      reads this
    {
      Listed(files) && Shows(rows, files, expanded) && (fileSel < |rows| || fileSel == 0)
    }

    /** Only the roots are open. */
    constructor (files: seq<Path>)
      requires Listed(files)
      ensures Valid() && this.files == files
      ensures forall p :: p in expanded <==> IsRoot(files, |files|, p)
    {
      hide Listed, Shows, PathLess, IsRoot;
      this.files := files;
      expanded, rows, fileSel := {}, [], 0;
      new;
      NoRoots(files);
      var k := 0;
      while k < |files|
        invariant k <= |files| && this.files == files && rows == [] && fileSel == 0
        invariant forall p :: p in expanded <==> IsRoot(files, k, p)
      {
        forall p ensures IsRoot(files, k + 1, p) <==> IsRoot(files, k, p) || (files[k] != [] && p == [files[k][0]]) {
          RootsMore(files, k, p);
        }
        if files[k] != [] {
          expanded := expanded + {[files[k][0]]};
        }
        k := k + 1;
      }
      RebuildRows();
    }

    method FindRow(path: Path) returns (r: Option<nat>)
      ensures r.Some? ==> r.value < |rows| && rows[r.value].path == path
      ensures r.None? ==> forall i :: 0 <= i < |rows| ==> rows[i].path != path
    {
      var i := 0;
      while i < |rows|
        invariant i <= |rows| && forall j :: 0 <= j < i ==> rows[j].path != path
      {
        if rows[i].path == path {
          return Some(i);
        }
        i := i + 1;
      }
      return None;
    }

    /** The selection stays on the entry it was on, if that is still shown; else it stays in range. */
    method RebuildRows()
      requires Listed(files)
      modifies `rows, `fileSel
      ensures Valid()
      ensures old(fileSel) < |old(rows)| && Visible(files, expanded, old(rows[fileSel].path)) ==>
                fileSel < |rows| && rows[fileSel].path == old(rows[fileSel].path)
      ensures !(old(fileSel) < |old(rows)| && Visible(files, expanded, old(rows[fileSel].path))) ==>
                fileSel == Min(old(fileSel), if rows == [] then 0 else |rows| - 1)
    {
      hide Visible, Listed, PathLess, RowOf;
      var was := if fileSel < |rows| then Some(rows[fileSel].path) else None;
      rows := BuildRows(files, expanded);
      var sel := fileSel;
      if was.Some? {
        var at := FindRow(was.value);
        if at.Some? {
          sel := at.value;
        }
      }
      fileSel := Min(sel, if rows == [] then 0 else |rows| - 1);
    }

    /** Opens everything above `path`; a listed file is then shown and selected. */
    method Reveal(path: Path)
      requires Valid()
      modifies `expanded, `rows, `fileSel
      ensures Valid() && forall p :: p in expanded <==> p in old(expanded) || ([] < p < path)
      ensures path != [] && path in files ==> fileSel < |rows| && rows[fileSel].path == path
      ensures Visible(files, expanded, path) ==> fileSel < |rows| && rows[fileSel].path == path
      ensures !Visible(files, expanded, path) && old(fileSel) < |old(rows)| && Visible(files, expanded, old(rows[fileSel].path)) ==>
                fileSel < |rows| && rows[fileSel].path == old(rows[fileSel].path)
    {
      hide Listed, Visible, PathLess, RowOf;
      var acc: Path := [];
      var i := 0;
      while i < |path|
        invariant i <= |path| && acc == path[..i] && Listed(files) && rows == old(rows) && fileSel == old(fileSel)
        invariant expanded == old(expanded) + set j | 0 < j <= i && j < |path| :: path[..j]
      {
        acc := acc + [path[i]];
        assert acc == path[..i + 1];
        if acc != path {
          expanded := expanded + {acc};
        }
        i := i + 1;
      }
      RebuildRows();
      var at := FindRow(path);
      if at.Some? {
        assert Visible(files, expanded, rows[at.value].path);
        fileSel := at.value;
      }
      assert expanded == old(expanded) + Ancestors(path);
      AncestorsAreAbove(path);
      if path != [] && path in files {
        RevealedIsVisible(files, expanded, path);
      }
    }

    /** A closed directory opens and an open one closes; a directory that was selected stays selected. */
    method ToggleDir(path: Path)
      requires Valid()
      modifies `expanded, `rows, `fileSel
      ensures Valid()
      ensures (path in expanded <==> path !in old(expanded)) && forall p :: p != path ==> (p in expanded <==> p in old(expanded))
      ensures path != [] && path in old(expanded) ==>
                forall p :: ShownIn(rows, p) <==> ShownIn(old(rows), p) && !(path < p)
      ensures path != [] && path !in old(expanded) ==>
                forall p :: ShownIn(old(rows), p) <==> ShownIn(rows, p) && !(path < p)
      ensures old(fileSel) < |old(rows)| && old(rows[fileSel].path) == path ==>
                fileSel < |rows| && rows[fileSel].path == path
    {
      if path in expanded {
        expanded := expanded - {path};
      } else {
        expanded := expanded + {path};
      }
      RebuildRows();
      if path != [] {
        forall p
          ensures path in old(expanded) ==> (ShownIn(rows, p) <==> ShownIn(old(rows), p) && !(path < p))
          ensures path !in old(expanded) ==> (ShownIn(old(rows), p) <==> ShownIn(rows, p) && !(path < p))
        {
          TurningOverShows(files, old(expanded), expanded, path, old(rows), rows, p);
        }
      }
    }
  }
}
