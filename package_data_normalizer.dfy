/** Validation of package structures inside directory artifacts: the class-tree roots found
    in an artifact are labelled `:ClassTree` and their directory names corrected; then each
    class tree's hierarchy is linked depth by depth. Query results are inputs and every
    database write is an entry of the returned log. */
module PackageDataNormalizer {
  import opened Common
  import opened ClassTreeRoots
  import Artifact = ArtifactDataNormalizer

  /** The writes of the pass, in the order they are issued. */
  datatype Write =
    | LabelClassTree(artifact: string, root: string)
    | SetDirectoryFqns(artifact: string, updates: seq<FqnUpdate>)
    | LinkClassFiles(classtree: string, dirs: seq<string>)
    | LinkDirectories(classtree: string, parents: seq<string>)
    | LinkClassTreeChildren(classtree: string)

  /** The FQN correction under a root: one bulk write when some directory is renamed, none
      otherwise. */
  function FqnCorrection(artifact: string, root: string, dirs: seq<string>): (r: seq<Write>)
    ensures r == [] <==> FqnUpdates(root, dirs) == []
    ensures r != [] ==> r == [SetDirectoryFqns(artifact, FqnUpdates(root, dirs))]
  {
    var updates := FqnUpdates(root, dirs);
    if updates == [] then [] else [SetDirectoryFqns(artifact, updates)]
  }

  /** `_correct_fqns_in_subtree`: `dirs` is what the subtree query returns for the root. */
  method CorrectFqnsInSubtree(artifact: string, root: string, dirs: seq<string>) returns (writes: seq<Write>)
    ensures writes == FqnCorrection(artifact, root, dirs)
  {
    var updateParams := CollectFqnUpdates(root, dirs);
    writes := [];
    if updateParams != [] {
      writes := [SetDirectoryFqns(artifact, updateParams)];
    }
  }

  /** The writes that follow one anchor's decision: a root is labelled, then its subtree's
      names are corrected; a mismatch (logged as a warning) writes nothing. */
  function OutcomeWrites(artifact: string, outcome: Anchoring, dirsUnder: string -> seq<string>): seq<Write> {
    match outcome
    case Mismatch(_, _, _) => []
    case Root(root) => [LabelClassTree(artifact, root)] + FqnCorrection(artifact, root, dirsUnder(root))
  }

  /** The writes that follow the anchors' decisions, in order. */
  function LabelWrites(artifact: string, outcomes: seq<Anchoring>, dirsUnder: string -> seq<string>): seq<Write>
    decreases |outcomes|
  {
    if |outcomes| == 0 then []
    else OutcomeWrites(artifact, outcomes[0], dirsUnder) + LabelWrites(artifact, outcomes[1..], dirsUnder)
  }

  /** The roots a log labels, in order. */
  function LabelledRoots(writes: seq<Write>): seq<string>
    decreases |writes|
  {
    if |writes| == 0 then []
    else (if writes[0].LabelClassTree? then [writes[0].root] else []) + LabelledRoots(writes[1..])
  }

  /** The labelled roots of two logs one after the other. */
  lemma {:induction false} LabelledRootsAppend(a: seq<Write>, b: seq<Write>)
    ensures LabelledRoots(a + b) == LabelledRoots(a) + LabelledRoots(b)
    decreases |a|
  {
    if |a| == 0 {
      assert a + b == b;
    } else {
      var head := if a[0].LabelClassTree? then [a[0].root] else [];
      assert (a + b)[0] == a[0];
      assert (a + b)[1..] == a[1..] + b;
      assert LabelledRoots(a + b) == head + LabelledRoots(a[1..] + b);
      LabelledRootsAppend(a[1..], b);
      AppendAssoc(head, LabelledRoots(a[1..]), LabelledRoots(b));
    }
  }

  /** The roots labelled are exactly the roots of the shared algorithm, in its order. */
  lemma {:induction false} LabelWritesRoots(artifact: string, outcomes: seq<Anchoring>, dirsUnder: string -> seq<string>)
    ensures LabelledRoots(LabelWrites(artifact, outcomes, dirsUnder)) == Roots(outcomes)
    decreases |outcomes|
  {
    if |outcomes| > 0 {
      LabelWritesRoots(artifact, outcomes[1..], dirsUnder);
      if outcomes[0].Root? {
        var root := outcomes[0].path;
        var fix := FqnCorrection(artifact, root, dirsUnder(root));
        var rest := LabelWrites(artifact, outcomes[1..], dirsUnder);
        LabelledRootsAppend([LabelClassTree(artifact, root)] + fix, rest);
        LabelledRootsAppend([LabelClassTree(artifact, root)], fix);
        assert LabelledRoots(fix) == [] by {
          if fix != [] {
            assert fix[1..] == [];
          }
        }
        assert LabelledRoots([LabelClassTree(artifact, root)]) == [root] by {
          assert [LabelClassTree(artifact, root)][1..] == [];
        }
      } else {
        assert LabelWrites(artifact, outcomes, dirsUnder) == LabelWrites(artifact, outcomes[1..], dirsUnder);
      }
    }
  }

  /** The artifact pass's write that plays the same part: labelling a root corresponds to
      promoting it, and the correction and linking writes to their namesakes. */
  function Counterpart(w: Write): Artifact.Write {
    match w
    case LabelClassTree(a, root) => Artifact.PromoteArtifact(a, root)
    case SetDirectoryFqns(a, updates) => Artifact.SetDirectoryFqns(a, updates)
    case LinkClassFiles(t, dirs) => Artifact.LinkClassFiles(t, dirs)
    case LinkDirectories(t, parents) => Artifact.LinkDirectories(t, parents)
    case LinkClassTreeChildren(t) => Artifact.LinkArtifactChildren(t)
  }

  /** A log's counterparts, write by write. */
  function Counterparts(writes: seq<Write>): (r: seq<Artifact.Write>)
    ensures |r| == |writes| && forall k :: 0 <= k < |writes| ==> r[k] == Counterpart(writes[k])
  {
    seq(|writes|, k requires 0 <= k < |writes| => Counterpart(writes[k]))
  }

  /** Counterparts are taken write by write, so they distribute over concatenation. */
  lemma CounterpartsAppend(a: seq<Write>, b: seq<Write>)
    ensures Counterparts(a + b) == Counterparts(a) + Counterparts(b)
  {
    var l, r := Counterparts(a + b), Counterparts(a) + Counterparts(b);
    forall k | 0 <= k < |a + b| ensures l[k] == r[k] {
      if k < |a| {
        assert (a + b)[k] == a[k];
      } else {
        assert (a + b)[k] == b[k - |a|];
      }
    }
  }

  /** One decision's writes correspond to the artifact pass's writes for the same decision. */
  lemma SameOutcomeAsArtifactPass(artifact: string, outcome: Anchoring, dirsUnder: string -> seq<string>)
    ensures Counterparts(OutcomeWrites(artifact, outcome, dirsUnder)) == Artifact.OutcomeWrites(artifact, outcome, dirsUnder)
  {
    if outcome.Root? {
      var root := outcome.path;
      var fix := FqnCorrection(artifact, root, dirsUnder(root));
      CounterpartsAppend([LabelClassTree(artifact, root)], fix);
      if fix != [] {
        assert Counterparts(fix) == [Artifact.SetDirectoryFqns(artifact, FqnUpdates(root, dirsUnder(root)))];
      }
    }
  }

  /** Both passes are instances of the same drain: for the same decisions, the labelling log
      is the promotion log with each promotion read as a labelling. */
  lemma {:induction false} SameDrainAsArtifactPass(artifact: string, outcomes: seq<Anchoring>, dirsUnder: string -> seq<string>)
    ensures Counterparts(LabelWrites(artifact, outcomes, dirsUnder)) == Artifact.PromotionWrites(artifact, outcomes, dirsUnder)
    decreases |outcomes|
  {
    if |outcomes| > 0 {
      SameDrainAsArtifactPass(artifact, outcomes[1..], dirsUnder);
      CounterpartsAppend(OutcomeWrites(artifact, outcomes[0], dirsUnder), LabelWrites(artifact, outcomes[1..], dirsUnder));
      SameOutcomeAsArtifactPass(artifact, outcomes[0], dirsUnder);
    }
  }

  /** Unfolding the drain once: the first anchor's writes, then those of what remains. */
  lemma LabelStep(artifact: string, d: seq<ClassFile>, dirsUnder: string -> seq<string>)
    requires |d| > 0 && Drains(d)
    ensures LabelWrites(artifact, Anchorings(d), dirsUnder)
      == OutcomeWrites(artifact, Decide(d[LongestIndex(d)]), dirsUnder)
         + LabelWrites(artifact, Anchorings(Remaining(d)), dirsUnder)
  {
    var outcomes := Anchorings(d);
    assert outcomes[1..] == Anchorings(Remaining(d));
  }

  /** One turn of the drain loop: the anchor with a longest name is dropped on a mismatch,
      or its root is labelled, the root's subtree names corrected and every class at or below
      the root dropped. */
  method DrainAnchor(artifact: string, unprocessed: seq<ClassFile>, dirsUnder: string -> seq<string>)
    returns (stepWrites: seq<Write>, remaining: seq<ClassFile>)
    requires |unprocessed| > 0 && Drains(unprocessed)
    ensures stepWrites == OutcomeWrites(artifact, Decide(unprocessed[LongestIndex(unprocessed)]), dirsUnder)
    ensures remaining == Remaining(unprocessed)
  {
    var i := LongestIndex(unprocessed);
    var anchor := unprocessed[i];
    var packageAsPath := PackagePath(anchor.fqn);
    var anchorDir := AnchorDir(anchor.path);
    if !EndsWith(anchorDir, packageAsPath) {
      return [], RemoveAt(unprocessed, i);
    }
    var root := RootPath(anchorDir, packageAsPath);
    stepWrites := [LabelClassTree(artifact, root)];
    var fix := CorrectFqnsInSubtree(artifact, root, dirsUnder(root));
    stepWrites := stepWrites + fix;
    remaining := Uncovered(unprocessed, root);
  }

  /** `_process_single_directory_artifact`: an artifact without class files is skipped with
      nothing written; otherwise its dictionary is drained and each root found is labelled and
      its subtree's names corrected. */
  method ProcessSingleDirectoryArtifact(artifact: string, classFiles: seq<ClassFile>,
                                        dirsUnder: string -> seq<string>)
    returns (writes: seq<Write>)
    requires Drains(classFiles)
    ensures writes == (if classFiles == [] then [] else LabelWrites(artifact, Anchorings(DictOf(classFiles)), dirsUnder))
  {
    writes := [];
    if classFiles == [] {
      return;
    }
    var unprocessed := DictOf(classFiles);
    while unprocessed != []
      invariant Drains(unprocessed)
      invariant writes + LabelWrites(artifact, Anchorings(unprocessed), dirsUnder)
        == LabelWrites(artifact, Anchorings(DictOf(classFiles)), dirsUnder)
      decreases |unprocessed|
    {
      var stepWrites, remaining := DrainAnchor(artifact, unprocessed, dirsUnder);
      LabelStep(artifact, unprocessed, dirsUnder);
      AppendAssoc(writes, stepWrites, LabelWrites(artifact, Anchorings(remaining), dirsUnder));
      writes := writes + stepWrites;
      unprocessed := remaining;
    }
    AppendEmpty(writes);
  }

  /** The package pass labels exactly the roots the artifact pass promotes for the same class
      files, and issues the same corrections, without the artifact pass's leading demotion. */
  lemma SameRootsAsArtifactPass(artifact: string, classFiles: seq<ClassFile>, dirsUnder: string -> seq<string>)
    requires Drains(classFiles) && classFiles != []
    ensures var outcomes := Anchorings(DictOf(classFiles));
      [Artifact.DemoteArtifact(artifact)] + Counterparts(LabelWrites(artifact, outcomes, dirsUnder))
        == [Artifact.DemoteArtifact(artifact)] + Artifact.PromotionWrites(artifact, outcomes, dirsUnder)
      && LabelledRoots(LabelWrites(artifact, outcomes, dirsUnder)) == Roots(outcomes)
  {
    var outcomes := Anchorings(DictOf(classFiles));
    SameDrainAsArtifactPass(artifact, outcomes, dirsUnder);
    LabelWritesRoots(artifact, outcomes, dirsUnder);
  }

  /** One directory-linking write per depth group, in the given order. */
  function DirectoryLinks(classtree: string, groups: seq<seq<string>>): (r: seq<Write>)
    ensures |r| == |groups| && forall k :: 0 <= k < |groups| ==> r[k] == LinkDirectories(classtree, groups[k])
  {
    seq(|groups|, k requires 0 <= k < |groups| => LinkDirectories(classtree, groups[k]))
  }
  /** The loop over the depth groups, deepest first: one directory-linking write each. */
  method LinkDepthGroups(classtree: string, groups: seq<seq<string>>) returns (links: seq<Write>)
    ensures links == DirectoryLinks(classtree, groups)
  {
    links := [];
    for k := 0 to |groups|
      invariant links == DirectoryLinks(classtree, groups[..k])
    {
      links := links + [LinkDirectories(classtree, groups[k])];
    }
    assert groups[..|groups|] == groups;
  }


  /** `_establish_class_hierarchy_in_single_classtree`: nothing is written for a class tree
      without files; otherwise class files are linked to their directories, then directories to
      their parents one depth at a time, deepest first, then the class tree to its direct
      children. `files` and `dirs` are what the two queries return. */
  method EstablishClassHierarchyInSingleClasstree(classtree: string, files: seq<DirRow>, dirs: seq<DirRow>)
    returns (writes: seq<Write>)
    ensures files == [] ==> writes == []
    ensures files != [] ==>
      writes == [LinkClassFiles(classtree, RowPaths(dirs))] + DirectoryLinks(classtree, DepthGroups(dirs))
        + [LinkClassTreeChildren(classtree)]
  {
    if files == [] {
      return [];
    }
    writes := [LinkClassFiles(classtree, RowPaths(dirs))];
    var groups := DeepestFirst(dirs);
    var links := LinkDepthGroups(classtree, groups);
    writes := writes + links;
    writes := writes + [LinkClassTreeChildren(classtree)];
  }

  /** The hierarchy writes of a class tree are those of an artifact with the same directories,
      with the class tree in the artifact's place. */
  lemma SameHierarchyAsArtifactPass(classtree: string, dirs: seq<DirRow>)
    ensures Counterparts([LinkClassFiles(classtree, RowPaths(dirs))] + DirectoryLinks(classtree, DepthGroups(dirs))
                         + [LinkClassTreeChildren(classtree)])
      == [Artifact.LinkClassFiles(classtree, RowPaths(dirs))] + Artifact.DirectoryLinks(classtree, DepthGroups(dirs))
         + [Artifact.LinkArtifactChildren(classtree)]
  {
    var links := DirectoryLinks(classtree, DepthGroups(dirs));
    CounterpartsAppend([LinkClassFiles(classtree, RowPaths(dirs))], links);
    CounterpartsAppend([LinkClassFiles(classtree, RowPaths(dirs))] + links, [LinkClassTreeChildren(classtree)]);
    assert Counterparts(links) == Artifact.DirectoryLinks(classtree, DepthGroups(dirs));
  }
}
