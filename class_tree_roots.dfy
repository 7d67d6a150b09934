/** The class-tree root inference that both graph normalizers run over the class files of a
    scanned directory: repeatedly take a class with a longest fully qualified name, derive the
    directory its package path must end in, and either drop it (mismatch) or take the
    directory above the package path as a root and drop every class at or below it. */
module ClassTreeRoots {
  import opened Common

  /** A row of the class-file query: a class's fully qualified name and its file path. */
  datatype ClassFile = ClassFile(fqn: string, path: string)

  /** No two entries share a name (the entries of a dictionary keyed by name). */
  predicate DistinctFqns(d: seq<ClassFile>) {
    forall i, j :: 0 <= i < j < |d| ==> d[i].fqn != d[j].fqn
  }

  /** Some entry carries the name. */
  predicate HasName(d: seq<ClassFile>, fqn: string) {
    exists e :: e in d && e.fqn == fqn
  }

  /** `d[c.fqn] = c.path` on an insertion-ordered dictionary: a known name keeps its place and
      takes the new path, a new name goes last; every other entry stays. */
  function Insert(d: seq<ClassFile>, c: ClassFile): (r: seq<ClassFile>)
    requires DistinctFqns(d)
    ensures DistinctFqns(r) && c in r
    ensures forall e :: e in r ==> e == c || e in d
    ensures forall j :: 0 <= j < |d| ==> d[j].fqn == c.fqn || d[j] in r
    decreases |d|
  {
    if |d| == 0 then [c]
    else if d[0].fqn == c.fqn then
      [c] + d[1..]
    else
      var rest := Insert(d[1..], c);
      assert forall e :: e in rest ==> e.fqn != d[0].fqn by {
        forall e | e in rest ensures e.fqn != d[0].fqn {
          if e != c {
            var m :| 0 <= m < |d[1..]| && d[1..][m] == e;
            assert d[m + 1] == e;
          }
        }
      }
      assert forall j :: 1 <= j < |d| ==> d[j] == d[1..][j - 1];
      [d[0]] + rest
  }

  /** The dictionary of the first n rows. */
  function DictUpTo(rows: seq<ClassFile>, n: nat): (r: seq<ClassFile>)
    requires n <= |rows|
    ensures DistinctFqns(r)
    ensures forall e :: e in r ==> e in rows
    ensures n > 0 ==> rows[n - 1] in r
    ensures forall k :: 0 <= k < n ==> HasName(r, rows[k].fqn)
    decreases n
  {
    if n == 0 then []
    else
      var d := DictUpTo(rows, n - 1);
      var c := rows[n - 1];
      var r := Insert(d, c);
      assert forall k :: 0 <= k < n ==> HasName(r, rows[k].fqn) by {
        forall k | 0 <= k < n ensures HasName(r, rows[k].fqn) {
          if k == n - 1 || rows[k].fqn == c.fqn {
            assert c in r;
          } else {
            var e :| e in d && e.fqn == rows[k].fqn;
            var j :| 0 <= j < |d| && d[j] == e;
            assert e in r;
          }
        }
      }
      r
  }

  /** `{c['fqn']: c['path'] for c in class_files}`: one entry per name, in order of first
      appearance, each taken from the rows, the last row's among them. */
  function DictOf(rows: seq<ClassFile>): (r: seq<ClassFile>)
    ensures DistinctFqns(r)
    ensures forall e :: e in r ==> e in rows
    ensures |rows| > 0 ==> rows[|rows| - 1] in r
    ensures forall k :: 0 <= k < |rows| ==> HasName(r, rows[k].fqn)
    ensures Drains(rows) ==> Drains(r)
  {
    DictUpTo(rows, |rows|)
  }

  /** `max(keys, key=len)`: the first entry whose name is a longest one. */
  function LongestIndex(d: seq<ClassFile>): (i: nat)
    requires |d| > 0
    ensures i < |d|
    ensures forall j :: 0 <= j < |d| ==> |d[j].fqn| <= |d[i].fqn|
    ensures forall j :: 0 <= j < i ==> |d[j].fqn| < |d[i].fqn|
    decreases |d|
  {
    if |d| == 1 then 0
    else
      var k := LongestIndex(d[..|d| - 1]);
      assert forall j :: 0 <= j < |d| - 1 ==> d[..|d| - 1][j] == d[j];
      if |d[|d| - 1].fqn| > |d[k].fqn| then |d| - 1 else k
  }

  /** The package of a name as a path: `/` and the dotted segments but the last, joined by
      `/`, or empty for a name without a package. */
  function PackagePath(fqn: string): (r: string)
    ensures r == "" <==> '.' !in fqn
    ensures r != "" ==> r[0] == '/'
  {
    var parts := Split(fqn, '.');
    var packageParts := parts[..|parts| - 1];
    if packageParts == [] then "" else "/" + Join("/", packageParts)
  }

  /** The directory of a file path: its `/`-segments but the last, joined by `/`. */
  function AnchorDir(path: string): string {
    var parts := Split(path, '/');
    Join("/", parts[..|parts| - 1])
  }

  /** The last `/`-segment of a path. */
  function FileName(path: string): string {
    var parts := Split(path, '/');
    parts[|parts| - 1]
  }

  /** A path with a `/` in it is its directory, a `/` and its file name. */
  lemma AnchorDirSplits(path: string)
    requires '/' in path
    ensures path == AnchorDir(path) + "/" + FileName(path)
  {
    var parts := Split(path, '/');
    assert AnchorDir(path) == Join("/", parts[..|parts| - 1]);
    assert FileName(path) == parts[|parts| - 1];
    SplitLast(path, '/', parts);
  }

  /** The root a matching anchor gives: its directory minus the package path. */
  function RootPath(anchorDir: string, packageAsPath: string): (r: string)
    requires EndsWith(anchorDir, packageAsPath)
    ensures r + packageAsPath == anchorDir
  {
    if packageAsPath != "" then anchorDir[..|anchorDir| - |packageAsPath|] else anchorDir
  }

  /** The classes at or below a root: the root itself or a path under `root + "/"`. */
  predicate Covered(path: string, root: string) {
    StartsWith(path, root + "/") || path == root
  }

  /** What one anchor decides: a mismatch between its directory and its package path, or a
      root. */
  datatype Anchoring = Mismatch(fqn: string, anchorDir: string, packagePath: string) | Root(path: string)

  /** The decision for an anchor. */
  function Decide(anchor: ClassFile): (r: Anchoring)
    ensures r.Mismatch? <==> !EndsWith(AnchorDir(anchor.path), PackagePath(anchor.fqn))
    ensures r.Root? ==> r.path + PackagePath(anchor.fqn) == AnchorDir(anchor.path)
  {
    var packageAsPath := PackagePath(anchor.fqn);
    var anchorDir := AnchorDir(anchor.path);
    if !EndsWith(anchorDir, packageAsPath) then Mismatch(anchor.fqn, anchorDir, packageAsPath)
    else Root(RootPath(anchorDir, packageAsPath))
  }

  /** The anchor a root comes from lies under that root, so it is removed with the rest. A
      path without `/` has the empty directory: a qualified name then mismatches, and an empty
      path is the empty root itself. */
  lemma AnchorCovered(anchor: ClassFile)
    requires Leaves(anchor)
    ensures Decide(anchor).Root? ==> Covered(anchor.path, Decide(anchor).path)
  {
    if '/' in anchor.path {
      AnchorDirSplits(anchor.path);
      if Decide(anchor).Root? {
        UnderRoot(anchor.path, Decide(anchor).path, PackagePath(anchor.fqn), FileName(anchor.path));
      }
    } else {
      assert Split(anchor.path, '/') == [anchor.path];
    }
  }

  /** A path made of a root, a package path, `/` and a file name lies under the root. */
  lemma UnderRoot(p: string, root: string, pkg: string, name: string)
    requires p == root + pkg + "/" + name
    requires pkg == "" || pkg[0] == '/'
    ensures Covered(p, root)
  {
    if pkg == "" {
      assert p == root + "/" + name;
      assert p[..|root| + 1] == root + "/";
    } else {
      assert p == root + "/" + (pkg[1..] + "/" + name);
      assert p[..|root| + 1] == root + "/";
    }
  }

  /** The list without entry `i`, the others in order. */
  function RemoveAt(d: seq<ClassFile>, i: nat): (r: seq<ClassFile>)
    requires i < |d|
    ensures |r| == |d| - 1
    ensures forall e :: e in r ==> e in d
  {
    assert forall e :: e in d[..i] ==> e in d;
    assert forall e :: e in d[i + 1..] ==> e in d;
    d[..i] + d[i + 1..]
  }

  /** The entries not at or below `root`, in order. */
  function Uncovered(d: seq<ClassFile>, root: string): (r: seq<ClassFile>)
    ensures |r| <= |d|
    ensures forall e :: e in r <==> e in d && !Covered(e.path, root)
    decreases |d|
  {
    if |d| == 0 then []
    else if Covered(d[0].path, root) then Uncovered(d[1..], root)
    else [d[0]] + Uncovered(d[1..], root)
  }

  /** Removing the classes under a root that one of them lies under shortens the list. */
  lemma {:induction false} UncoveredShrinks(d: seq<ClassFile>, root: string, i: nat)
    requires i < |d| && Covered(d[i].path, root)
    ensures |Uncovered(d, root)| < |d|
    decreases |d|
  {
    if i > 0 {
      assert d[1..][i - 1] == d[i];
      UncoveredShrinks(d[1..], root, i - 1);
    }
  }

  /** An entry that leaves the dictionary once it is the anchor: its path has a `/`, its name
      has a package, or its path is empty. The remaining case, an unqualified name whose path
      is a bare file name, is never dropped (`UnslashedAnchorStays`). */
  predicate Leaves(c: ClassFile) {
    '/' in c.path || '.' in c.fqn || c.path == ""
  }

  /** Every entry leaves once it is the anchor, so the drain loop ends. */
  predicate Drains(d: seq<ClassFile>) {
    forall c :: c in d ==> Leaves(c)
  }

  /** Entries taken from a draining list drain too. */
  lemma DrainsWithin(d: seq<ClassFile>, r: seq<ClassFile>)
    requires Drains(d) && forall e :: e in r ==> e in d
    ensures Drains(r)
  {
  }

  /** The entries left after the anchor's decision: the mismatching anchor alone is dropped,
      or every entry at or below the root. */
  function Remaining(d: seq<ClassFile>): (r: seq<ClassFile>)
    requires |d| > 0 && Drains(d)
    ensures |r| < |d| && Drains(r)
  {
    var i := LongestIndex(d);
    var outcome := Decide(d[i]);
    if outcome.Mismatch? then
      var r := RemoveAt(d, i);
      DrainsWithin(d, r);
      r
    else
      AnchorCovered(d[i]);
      UncoveredShrinks(d, outcome.path, i);
      var r := Uncovered(d, outcome.path);
      DrainsWithin(d, r);
      r
  }

  /** The shared algorithm: the decisions of the successive anchors, in order, until no class
      is left. */
  function Anchorings(d: seq<ClassFile>): seq<Anchoring>
    requires Drains(d)
    decreases |d|
  {
    if |d| == 0 then [] else [Decide(d[LongestIndex(d)])] + Anchorings(Remaining(d))
  }

  /** A mismatch drops only the anchor; a root drops exactly the entries at or below it, the
      anchor among them. */
  lemma RemainingSpec(d: seq<ClassFile>)
    requires |d| > 0 && Drains(d)
    ensures var i := LongestIndex(d);
      var outcome := Decide(d[i]);
      && (outcome.Mismatch? ==> Remaining(d) == d[..i] + d[i + 1..])
      && (outcome.Root? ==>
            && Covered(d[i].path, outcome.path)
            && forall e :: e in Remaining(d) <==> e in d && !Covered(e.path, outcome.path))
  {
    if Decide(d[LongestIndex(d)]).Root? {
      RootDropsCovered(d);
    } else {
      MismatchDropsAnchor(d);
    }
  }

  /** A mismatching anchor is the only entry dropped. */
  lemma MismatchDropsAnchor(d: seq<ClassFile>)
    requires |d| > 0 && Drains(d) && Decide(d[LongestIndex(d)]).Mismatch?
    ensures Remaining(d) == d[..LongestIndex(d)] + d[LongestIndex(d) + 1..]
  {
  }

  /** A root drops exactly the entries at or below it, its anchor among them. */
  lemma RootDropsCovered(d: seq<ClassFile>)
    requires |d| > 0 && Drains(d) && Decide(d[LongestIndex(d)]).Root?
    ensures var i := LongestIndex(d);
      && Covered(d[i].path, Decide(d[i]).path)
      && forall e :: e in Remaining(d) <==> e in d && !Covered(e.path, Decide(d[i]).path)
  {
    var i := LongestIndex(d);
    AnchorCovered(d[i]);
    assert Remaining(d) == Uncovered(d, Decide(d[i]).path);
  }

  /** The roots the algorithm finds, in order. */
  function Roots(outcomes: seq<Anchoring>): (r: seq<string>)
    ensures |r| <= |outcomes|
    decreases |outcomes|
  {
    if |outcomes| == 0 then []
    else (if outcomes[0].Root? then [outcomes[0].path] else []) + Roots(outcomes[1..])
  }

  /** An anchor without a package is its own directory's root. */
  lemma UnqualifiedAnchorIsItsDirectory(anchor: ClassFile)
    requires '.' !in anchor.fqn
    ensures Decide(anchor) == Root(AnchorDir(anchor.path))
  {
  }

  /** An anchor whose directory is some root followed by its package path gives that root. */
  lemma RootOfMatchingDir(anchor: ClassFile, root: string)
    requires AnchorDir(anchor.path) == root + PackagePath(anchor.fqn)
    ensures Decide(anchor) == Root(root)
  {
    var pkg := PackagePath(anchor.fqn);
    var dir := AnchorDir(anchor.path);
    assert dir[|dir| - |pkg|..] == pkg;
    assert dir[..|dir| - |pkg|] == root;
  }

  /** Why `Drains` is needed: an unqualified class whose path is a bare non-empty name gives
      the empty root, and its own path is not under that root, so the loop would never drop it. */
  lemma UnslashedAnchorStays(anchor: ClassFile)
    requires '.' !in anchor.fqn && '/' !in anchor.path && anchor.path != ""
    ensures Decide(anchor) == Root("") && !Covered(anchor.path, "")
  {
    assert Split(anchor.path, '/') == [anchor.path];
    assert anchor.path[0] in anchor.path;
  }

  /** An entry of a bulk FQN update: a directory and its corrected name. */
  datatype FqnUpdate = FqnUpdate(path: string, fqn: string)

  /** The corrections for the directories returned under a root: every directory path longer
      than the root gets the text after `root + "/"` with `/` replaced by `.`; the root itself
      (and anything no longer than it) is skipped. */
  function FqnUpdates(root: string, dirs: seq<string>): (r: seq<FqnUpdate>)
    ensures |r| <= |dirs|
    ensures forall u :: u in r ==>
      u.path in dirs && |u.path| > |root| && u.fqn == ReplaceChar(u.path[|root| + 1..], '/', '.')
    ensures forall d :: d in dirs && |d| > |root| ==> FqnUpdate(d, ReplaceChar(d[|root| + 1..], '/', '.')) in r
    decreases |dirs|
  {
    if |dirs| == 0 then []
    else
      var init := dirs[..|dirs| - 1];
      var d := dirs[|dirs| - 1];
      assert dirs == init + [d];
      FqnUpdates(root, init) + (if |d| > |root| then [FqnUpdate(d, ReplaceChar(d[|root| + 1..], '/', '.'))] else [])
  }

  /** A directory `root + "/" + rel` gets `rel` with dots for slashes, and turning the dots
      back into slashes gives `rel` again when `rel` had no dot. */
  lemma FqnOfSubdirectory(root: string, rel: string)
    requires '.' !in rel
    ensures var d := root + "/" + rel;
      FqnUpdates(root, [d]) == [FqnUpdate(d, ReplaceChar(rel, '/', '.'))]
      && ReplaceChar(ReplaceChar(rel, '/', '.'), '.', '/') == rel
  {
    var d: string := root + "/" + rel;
    assert [d][..0] == [];
    assert d[|root| + 1..] == rel;
    ReplaceCharRoundTrip(rel, '/', '.');
  }

  /** The root's own directory is never renamed. */
  lemma RootSkipped(root: string)
    ensures FqnUpdates(root, [root]) == []
  {
    var single: seq<string> := [root];
    assert single[..0] == [];
  }

  /** `_correct_fqns_in_subtree`'s loop: one update per directory longer than the root, in
      the order the query returned them. */
  method CollectFqnUpdates(root: string, dirs: seq<string>) returns (updates: seq<FqnUpdate>)
    ensures updates == FqnUpdates(root, dirs)
  {
    updates := [];
    for k := 0 to |dirs|
      invariant updates == FqnUpdates(root, dirs[..k])
    {
      assert dirs[..k + 1][..k] == dirs[..k];
      var dirPath := dirs[k];
      if |dirPath| > |root| {
        var relativePath := dirPath[|root| + 1..];
        var correctFqn := ReplaceChar(relativePath, '/', '.');
        updates := updates + [FqnUpdate(dirPath, correctFqn)];
      }
    }
    assert dirs[..|dirs|] == dirs;
  }

  /** A directory row of the hierarchy query: its path and its `/`-segment count. */
  datatype DirRow = DirRow(path: string, depth: int)

  /** The rows' paths in row order, as the file-linking write receives them. */
  function RowPaths(rows: seq<DirRow>): (r: seq<string>)
    ensures |r| == |rows| && forall k :: 0 <= k < |rows| ==> r[k] == rows[k].path
  {
    seq(|rows|, k requires 0 <= k < |rows| => rows[k].path)
  }

  /** The paths of the first n rows at one depth, in row order. */
  function PathsUpTo(rows: seq<DirRow>, n: nat, depth: int): (r: seq<string>)
    requires n <= |rows|
    ensures |r| <= n
    ensures forall k :: 0 <= k < n && rows[k].depth == depth ==> rows[k].path in r
    ensures forall p :: p in r ==> exists k :: 0 <= k < n && rows[k].depth == depth && rows[k].path == p
    ensures (forall k :: 0 <= k < n ==> rows[k].depth != depth) ==> r == []
    decreases n
  {
    if n == 0 then []
    else PathsUpTo(rows, n - 1, depth) + (if rows[n - 1].depth == depth then [rows[n - 1].path] else [])
  }

  /** The distinct depths of the first n rows, in order of first appearance. */
  function DepthsUpTo(rows: seq<DirRow>, n: nat): (r: seq<int>)
    requires n <= |rows|
    ensures forall d :: d in r <==> exists k :: 0 <= k < n && rows[k].depth == d
    decreases n
  {
    if n == 0 then []
    else
      var prev := DepthsUpTo(rows, n - 1);
      if rows[n - 1].depth in prev then prev else prev + [rows[n - 1].depth]
  }

  /** `nodes_by_depth`: the paths of the rows grouped by depth with `defaultdict(list)`
      appends; `depths` is its key order. */
  method GroupByDepth(rows: seq<DirRow>) returns (depths: seq<int>, byDepth: map<int, seq<string>>)
    ensures depths == DepthsUpTo(rows, |rows|)
    ensures forall d :: d in byDepth <==> d in depths
    ensures forall d :: d in byDepth ==> byDepth[d] == PathsUpTo(rows, |rows|, d)
  {
    depths := [];
    byDepth := map[];
    for k := 0 to |rows|
      invariant depths == DepthsUpTo(rows, k)
      invariant forall d :: d in byDepth <==> d in depths
      invariant forall d :: d in byDepth ==> byDepth[d] == PathsUpTo(rows, k, d)
    {
      depths, byDepth := AddRow(rows, k, depths, byDepth);
    }
  }

  /** One row of the grouping loop: a new depth is listed and given an empty group, then the
      row's path joins the group of its depth. */
  method AddRow(rows: seq<DirRow>, k: nat, depths: seq<int>, byDepth: map<int, seq<string>>)
    returns (nextDepths: seq<int>, nextByDepth: map<int, seq<string>>)
    requires k < |rows| && depths == DepthsUpTo(rows, k)
    requires forall d :: d in byDepth <==> d in depths
    requires forall d :: d in byDepth ==> byDepth[d] == PathsUpTo(rows, k, d)
    ensures nextDepths == DepthsUpTo(rows, k + 1)
    ensures forall d :: d in nextByDepth <==> d in nextDepths
    ensures forall d :: d in nextByDepth ==> nextByDepth[d] == PathsUpTo(rows, k + 1, d)
  {
    var item := rows[k];
    nextDepths, nextByDepth := depths, byDepth;
    if item.depth !in byDepth {
      assert PathsUpTo(rows, k, item.depth) == [];
      nextDepths := depths + [item.depth];
      nextByDepth := byDepth[item.depth := []];
    }
    nextByDepth := nextByDepth[item.depth := nextByDepth[item.depth] + [item.path]];
  }

  /** Whether a list of depths is strictly decreasing. */
  predicate StrictlyDescending(s: seq<int>) {
    forall i, j :: 0 <= i < j < |s| ==> s[i] > s[j]
  }

  /** Inserts a depth into a strictly decreasing list. */
  function InsertDescending(x: int, s: seq<int>): (r: seq<int>)
    requires StrictlyDescending(s)
    ensures StrictlyDescending(r)
    ensures forall e :: e in r <==> e == x || e in s
    decreases |s|
  {
    if |s| == 0 then [x]
    else if x > s[0] then
      assert forall e :: e in s ==> e < x by {
        forall e | e in s ensures e < x {
          var m :| 0 <= m < |s| && s[m] == e;
        }
      }
      ConsDescending(x, s);
      [x] + s
    else if x == s[0] then s
    else
      var rest := InsertDescending(x, s[1..]);
      assert forall e :: e in rest ==> e < s[0] by {
        forall e | e in rest ensures e < s[0] {
          if e != x {
            var m :| 0 <= m < |s[1..]| && s[1..][m] == e;
            assert s[m + 1] == e;
          }
        }
      }
      ConsDescending(s[0], rest);
      assert s == [s[0]] + s[1..];
      [s[0]] + rest
  }

  /** A depth above every depth of a decreasing list can be put in front of it. */
  lemma ConsDescending(h: int, t: seq<int>)
    requires StrictlyDescending(t) && forall e :: e in t ==> e < h
    ensures StrictlyDescending([h] + t)
  {
    var r := [h] + t;
    forall i, j | 0 <= i < j < |r| ensures r[i] > r[j] {
      assert r[j] == t[j - 1];
      if i > 0 {
        assert r[i] == t[i - 1];
      } else {
        assert t[j - 1] in t;
      }
    }
  }

  /** `sorted(depths, reverse=True)`: the same depths, greatest first. */
  function SortDescending(s: seq<int>): (r: seq<int>)
    ensures StrictlyDescending(r)
    ensures forall e :: e in r <==> e in s
    decreases |s|
  {
    if |s| == 0 then [] else InsertDescending(s[0], SortDescending(s[1..]))
  }

  /** The depth groups deepest first: the paths at each depth, in row order, one group per
      depth that occurs. */
  function DepthGroups(rows: seq<DirRow>): (r: seq<seq<string>>)
    ensures var order := SortDescending(DepthsUpTo(rows, |rows|));
      |r| == |order| && forall k :: 0 <= k < |order| ==> r[k] == PathsUpTo(rows, |rows|, order[k])
  {
    var order := SortDescending(DepthsUpTo(rows, |rows|));
    seq(|order|, k requires 0 <= k < |order| => PathsUpTo(rows, |rows|, order[k]))
  }

  /** `for depth in sorted(nodes_by_depth.keys(), reverse=True)`: the groups, deepest first. */
  method DeepestFirst(rows: seq<DirRow>) returns (groups: seq<seq<string>>)
    ensures groups == DepthGroups(rows)
  {
    var depths, byDepth := GroupByDepth(rows);
    var order := SortDescending(depths);
    forall j | 0 <= j < |order| ensures order[j] in byDepth {
      assert order[j] in order;
    }
    groups := CollectGroups(order, byDepth);
  }

  /** The loop over the sorted depths: each depth's group from the map, in order. */
  method CollectGroups(order: seq<int>, byDepth: map<int, seq<string>>) returns (groups: seq<seq<string>>)
    requires forall j :: 0 <= j < |order| ==> order[j] in byDepth
    ensures |groups| == |order| && forall j :: 0 <= j < |order| ==> groups[j] == byDepth[order[j]]
  {
    groups := [];
    for k := 0 to |order|
      invariant |groups| == k
      invariant forall j :: 0 <= j < k ==> groups[j] == byDepth[order[j]]
    {
      groups := groups + [byDepth[order[k]]];
    }
  }

  /** Every group of a deeper depth comes before every group of a shallower one, and each
      row's path is in the group of its own depth. */
  lemma DepthGroupsOrdered(rows: seq<DirRow>, k: nat)
    requires k < |rows|
    ensures var order := SortDescending(DepthsUpTo(rows, |rows|));
      exists j :: 0 <= j < |order| && order[j] == rows[k].depth && rows[k].path in DepthGroups(rows)[j]
  {
    var order := SortDescending(DepthsUpTo(rows, |rows|));
    assert rows[k].depth in DepthsUpTo(rows, |rows|);
    var j :| 0 <= j < |order| && order[j] == rows[k].depth;
    assert rows[k].path in DepthGroups(rows)[j];
  }
}
