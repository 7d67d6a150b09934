/** Relocation of the `:Artifact` label inside scanned directory artifacts: the scanned
    directory is demoted and the class-tree roots found in it are promoted, their directory
    names corrected; then each artifact's class hierarchy is linked depth by depth. Query
    results are inputs and every database write is an entry of the returned log. */
module ArtifactDataNormalizer {
  import opened Common
  import opened ClassTreeRoots

  /** The writes of the pass, in the order they are issued. */
  datatype Write =
    | DemoteArtifact(container: string)
    | PromoteArtifact(container: string, root: string)
    | SetDirectoryFqns(container: string, updates: seq<FqnUpdate>)
    | LinkClassFiles(artifact: string, dirs: seq<string>)
    | LinkDirectories(artifact: string, parents: seq<string>)
    | LinkArtifactChildren(artifact: string)

  /** The FQN correction under a root: one bulk write when some directory is renamed, none
      otherwise. */
  function FqnCorrection(container: string, root: string, dirs: seq<string>): (r: seq<Write>)
    ensures r == [] <==> FqnUpdates(root, dirs) == []
    ensures r != [] ==> r == [SetDirectoryFqns(container, FqnUpdates(root, dirs))]
  {
    var updates := FqnUpdates(root, dirs);
    if updates == [] then [] else [SetDirectoryFqns(container, updates)]
  }

  /** `_correct_fqns_in_subtree`: `dirs` is what the subtree query returns for the root. */
  method CorrectFqnsInSubtree(container: string, root: string, dirs: seq<string>) returns (writes: seq<Write>)
    ensures writes == FqnCorrection(container, root, dirs)
  {
    var updateParams := CollectFqnUpdates(root, dirs);
    writes := [];
    if updateParams != [] {
      writes := [SetDirectoryFqns(container, updateParams)];
    }
  }

  /** The writes that follow one anchor's decision: a root is promoted, then its subtree's
      names are corrected; a mismatch writes nothing. */
  function OutcomeWrites(container: string, outcome: Anchoring, dirsUnder: string -> seq<string>): seq<Write> {
    match outcome
    case Mismatch(_, _, _) => []
    case Root(root) => [PromoteArtifact(container, root)] + FqnCorrection(container, root, dirsUnder(root))
  }

  /** The writes that follow the anchors' decisions, in order. */
  function PromotionWrites(container: string, outcomes: seq<Anchoring>, dirsUnder: string -> seq<string>): seq<Write>
    decreases |outcomes|
  {
    if |outcomes| == 0 then []
    else OutcomeWrites(container, outcomes[0], dirsUnder) + PromotionWrites(container, outcomes[1..], dirsUnder)
  }

  /** The roots a log promotes, in order. */
  function PromotedRoots(writes: seq<Write>): seq<string>
    decreases |writes|
  {
    if |writes| == 0 then []
    else (if writes[0].PromoteArtifact? then [writes[0].root] else []) + PromotedRoots(writes[1..])
  }

  /** The promoted roots of two logs one after the other. */
  lemma {:induction false} PromotedRootsAppend(a: seq<Write>, b: seq<Write>)
    ensures PromotedRoots(a + b) == PromotedRoots(a) + PromotedRoots(b)
    decreases |a|
  {
    if |a| == 0 {
      assert a + b == b;
    } else {
      var head := if a[0].PromoteArtifact? then [a[0].root] else [];
      assert (a + b)[0] == a[0];
      assert (a + b)[1..] == a[1..] + b;
      assert PromotedRoots(a + b) == head + PromotedRoots(a[1..] + b);
      PromotedRootsAppend(a[1..], b);
      AppendAssoc(head, PromotedRoots(a[1..]), PromotedRoots(b));
    }
  }

  /** The roots promoted are exactly the roots of the shared algorithm, in its order. */
  lemma {:induction false} PromotionWritesRoots(container: string, outcomes: seq<Anchoring>, dirsUnder: string -> seq<string>)
    ensures PromotedRoots(PromotionWrites(container, outcomes, dirsUnder)) == Roots(outcomes)
    decreases |outcomes|
  {
    if |outcomes| > 0 {
      PromotionWritesRoots(container, outcomes[1..], dirsUnder);
      if outcomes[0].Root? {
        var root := outcomes[0].path;
        var fix := FqnCorrection(container, root, dirsUnder(root));
        var rest := PromotionWrites(container, outcomes[1..], dirsUnder);
        PromotedRootsAppend([PromoteArtifact(container, root)] + fix, rest);
        PromotedRootsAppend([PromoteArtifact(container, root)], fix);
        assert PromotedRoots(fix) == [] by {
          if fix != [] {
            assert fix[1..] == [];
          }
        }
        assert PromotedRoots([PromoteArtifact(container, root)]) == [root] by {
          assert [PromoteArtifact(container, root)][1..] == [];
        }
      } else {
        assert PromotionWrites(container, outcomes, dirsUnder) == PromotionWrites(container, outcomes[1..], dirsUnder);
      }
    }
  }

  /** Unfolding the drain once: the first anchor's writes, then those of what remains. */
  lemma PromotionStep(container: string, d: seq<ClassFile>, dirsUnder: string -> seq<string>)
    requires |d| > 0 && Drains(d)
    ensures PromotionWrites(container, Anchorings(d), dirsUnder)
      == OutcomeWrites(container, Decide(d[LongestIndex(d)]), dirsUnder)
         + PromotionWrites(container, Anchorings(Remaining(d)), dirsUnder)
  {
    var outcomes := Anchorings(d);
    assert outcomes[1..] == Anchorings(Remaining(d));
  }

  /** One turn of the drain loop: the anchor with a longest name is dropped on a mismatch,
      or its root is promoted, the root's subtree names corrected and every class at or below
      the root dropped. */
  method DrainAnchor(container: string, unprocessed: seq<ClassFile>, dirsUnder: string -> seq<string>)
    returns (stepWrites: seq<Write>, remaining: seq<ClassFile>)
    requires |unprocessed| > 0 && Drains(unprocessed)
    ensures stepWrites == OutcomeWrites(container, Decide(unprocessed[LongestIndex(unprocessed)]), dirsUnder)
    ensures remaining == Remaining(unprocessed)
  {
    var i := LongestIndex(unprocessed);
    var anchor := unprocessed[i];
    var packageAsPath := PackagePath(anchor.fqn);
    var anchorDir := AnchorDir(anchor.path);
    if !EndsWith(anchorDir, packageAsPath) {
      return [], RemoveAt(unprocessed, i);
    }
    var root := RootPath(anchorDir, packageAsPath);
    stepWrites := [PromoteArtifact(container, root)];
    var fix := CorrectFqnsInSubtree(container, root, dirsUnder(root));
    stepWrites := stepWrites + fix;
    remaining := Uncovered(unprocessed, root);
  }

  /** `_process_single_directory_artifact`: demote the scanned directory, then, when it holds
      class files, drain their dictionary; each root found is promoted and its subtree's names
      corrected, so the log is the shared algorithm's roots turned into writes. */
  method ProcessSingleDirectoryArtifact(container: string, classFiles: seq<ClassFile>,
                                        dirsUnder: string -> seq<string>)
    returns (writes: seq<Write>)
    requires Drains(classFiles)
    ensures writes == [DemoteArtifact(container)]
      + (if classFiles == [] then [] else PromotionWrites(container, Anchorings(DictOf(classFiles)), dirsUnder))
  {
    writes := [DemoteArtifact(container)];
    if classFiles == [] {
      return;
    }
    var unprocessed := DictOf(classFiles);
    while unprocessed != []
      invariant Drains(unprocessed)
      invariant writes + PromotionWrites(container, Anchorings(unprocessed), dirsUnder)
        == [DemoteArtifact(container)] + PromotionWrites(container, Anchorings(DictOf(classFiles)), dirsUnder)
      decreases |unprocessed|
    {
      var stepWrites, remaining := DrainAnchor(container, unprocessed, dirsUnder);
      PromotionStep(container, unprocessed, dirsUnder);
      AppendAssoc(writes, stepWrites, PromotionWrites(container, Anchorings(remaining), dirsUnder));
      writes := writes + stepWrites;
      unprocessed := remaining;
    }
  }

  /** One directory-linking write per depth group, in the given order. */
  function DirectoryLinks(artifact: string, groups: seq<seq<string>>): (r: seq<Write>)
    ensures |r| == |groups| && forall k :: 0 <= k < |groups| ==> r[k] == LinkDirectories(artifact, groups[k])
  {
    seq(|groups|, k requires 0 <= k < |groups| => LinkDirectories(artifact, groups[k]))
  }
  /** The loop over the depth groups, deepest first: one directory-linking write each. */
  method LinkDepthGroups(artifact: string, groups: seq<seq<string>>) returns (links: seq<Write>)
    ensures links == DirectoryLinks(artifact, groups)
  {
    links := [];
    for k := 0 to |groups|
      invariant links == DirectoryLinks(artifact, groups[..k])
    {
      links := links + [LinkDirectories(artifact, groups[k])];
    }
    assert groups[..|groups|] == groups;
  }


  /** `_establish_class_hierarchy_in_single_artifact`: class files to their directories, then
      directories to their parents one depth at a time, deepest first, then the artifact to its
      direct children. `rows` is what the directory query returns. */
  method EstablishClassHierarchyInSingleArtifact(artifact: string, rows: seq<DirRow>) returns (writes: seq<Write>)
    ensures writes == [LinkClassFiles(artifact, RowPaths(rows))] + DirectoryLinks(artifact, DepthGroups(rows))
      + [LinkArtifactChildren(artifact)]
  {
    writes := [LinkClassFiles(artifact, RowPaths(rows))];
    var groups := DeepestFirst(rows);
    var links := LinkDepthGroups(artifact, groups);
    writes := writes + links;
    writes := writes + [LinkArtifactChildren(artifact)];
  }
}
