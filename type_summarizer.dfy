/** The type pass: types are grouped into inheritance levels (a type comes after every
    source-linked type it extends or implements) and summarized one level after the other,
    each level as one batch. The graph queries become a given graph. */
module TypeSummarizer {
  import opened Common
  import opened SummaryCache
  import opened NodeSummaryProcessor
  import opened BaseSummarizer
  import TM = TokenManager

  /** What the levelling queries read from the graph. */
  datatype TypeGraph = TypeGraph(
    /** Class, Interface, Enum and Record types linked to a source file by WITH_SOURCE. */
    sourceTypes: set<string>,
    /** The EXTENDS and IMPLEMENTS targets of each type (a missing key means none). */
    parents: map<string, set<string>>,
    /** The types with any outgoing WITH_SOURCE edge, whatever its target. */
    withSource: set<string>)

  /** A graph as the database produces it: a type linked to a source file has a WITH_SOURCE edge. */
  predicate ValidGraph(g: TypeGraph) {
    g.sourceTypes <= g.withSource
  }

  /** The EXTENDS and IMPLEMENTS targets of a type. */
  function Parents(g: TypeGraph, t: string): set<string> {
    if t in g.parents then g.parents[t] else {}
  }

  /** The parents of a type that are themselves source types. */
  function SourceParents(g: TypeGraph, t: string): set<string> {
    Parents(g, t) * g.sourceTypes
  }

  /** Level 0: the source types with no parent that has any WITH_SOURCE edge. */
  function Level0(g: TypeGraph): (r: set<string>)
    ensures r <= g.sourceTypes
  {
    set t | t in g.sourceTypes && Parents(g, t) * g.withSource == {}
  }

  /** The next level: the unvisited source types that have a source parent and whose source
      parents are all visited. */
  function NextLevel(g: TypeGraph, visited: set<string>): (r: set<string>)
    ensures r <= g.sourceTypes && r * visited == {}
  {
    set t | t in g.sourceTypes && t !in visited && SourceParents(g, t) != {} && SourceParents(g, t) <= visited
  }

  /** The levels after the visited ones, up to the first empty one. */
  function LevelsFrom(g: TypeGraph, visited: set<string>): seq<set<string>>
    requires visited <= g.sourceTypes
    decreases g.sourceTypes - visited
  {
    var next := NextLevel(g, visited);
    if next == {} then []
    else
      assert g.sourceTypes - (visited + next) < g.sourceTypes - visited by {
        var t :| t in next;
        assert t in g.sourceTypes - visited;
      }
      [next] + LevelsFrom(g, visited + next)
  }

  /** The inheritance levels, numbered from 0; none when level 0 is empty. */
  function Levels(g: TypeGraph): seq<set<string>> {
    var level0 := Level0(g);
    if level0 == {} then [] else [level0] + LevelsFrom(g, level0)
  }

  /** A list of levels as the level-number dictionary. */
  function AsMap<X>(levels: seq<X>): (r: map<nat, X>)
    ensures forall k: nat :: k in r <==> k < |levels|
    ensures forall k: nat :: k < |levels| ==> r[k] == levels[k]
  {
    map k: nat | k < |levels| :: levels[k]
  }

  /** Each level after `visited` is non-empty, made of unvisited source types, and each of its
      types has a source parent. */
  lemma {:induction false} LevelsFromAt(g: TypeGraph, visited: set<string>, k: nat)
    requires visited <= g.sourceTypes && k < |LevelsFrom(g, visited)|
    ensures var level := LevelsFrom(g, visited)[k];
      && level != {} && level <= g.sourceTypes && level * visited == {}
      && forall t :: t in level ==> SourceParents(g, t) != {}
    decreases k
  {
    var next := NextLevel(g, visited);
    var rest := LevelsFrom(g, visited + next);
    assert LevelsFrom(g, visited) == [next] + rest;
    if k > 0 {
      LevelsFromAt(g, visited + next, k - 1);
    }
  }

  /** Two levels after `visited` share no type. */
  lemma {:induction false} LevelsFromDisjoint(g: TypeGraph, visited: set<string>, i: nat, j: nat)
    requires visited <= g.sourceTypes && i < j < |LevelsFrom(g, visited)|
    ensures LevelsFrom(g, visited)[i] * LevelsFrom(g, visited)[j] == {}
    decreases i
  {
    var next := NextLevel(g, visited);
    var rest := LevelsFrom(g, visited + next);
    assert LevelsFrom(g, visited) == [next] + rest;
    if i == 0 {
      LevelsFromAt(g, visited + next, j - 1);
    } else {
      LevelsFromDisjoint(g, visited + next, i - 1, j - 1);
    }
  }

  /** A source parent of a type on level k after `visited` is visited or on an earlier level;
      `j` is that level, or -1 for a visited parent. */
  lemma {:induction false} LevelsFromParent(g: TypeGraph, visited: set<string>, k: nat, t: string, p: string)
    returns (j: int)
    requires visited <= g.sourceTypes && k < |LevelsFrom(g, visited)|
    requires t in LevelsFrom(g, visited)[k] && p in SourceParents(g, t)
    ensures -1 <= j < k
    ensures j == -1 ==> p in visited
    ensures j >= 0 ==> p in LevelsFrom(g, visited)[j]
    decreases k
  {
    var next := NextLevel(g, visited);
    var rest := LevelsFrom(g, visited + next);
    assert LevelsFrom(g, visited) == [next] + rest;
    if k == 0 {
      j := -1;
    } else {
      var j1 := LevelsFromParent(g, visited + next, k - 1, t, p);
      if j1 == -1 {
        j := if p in visited then -1 else 0;
      } else {
        j := j1 + 1;
      }
    }
  }

  /** Every level is non-empty and made of source types; level 0 is exactly `Level0`, and
      every type on a later level has a source parent. */
  lemma LevelAt(g: TypeGraph, k: nat)
    requires k < |Levels(g)|
    ensures Levels(g)[k] != {} && Levels(g)[k] <= g.sourceTypes
    ensures k == 0 ==> Levels(g)[k] == Level0(g)
    ensures k > 0 ==> forall t :: t in Levels(g)[k] ==> SourceParents(g, t) != {}
  {
    var level0 := Level0(g);
    assert Levels(g) == [level0] + LevelsFrom(g, level0);
    if k > 0 {
      LevelsFromAt(g, level0, k - 1);
    }
  }

  /** No type is on two levels. */
  lemma LevelsDisjoint(g: TypeGraph, i: nat, j: nat)
    requires i < j < |Levels(g)|
    ensures Levels(g)[i] * Levels(g)[j] == {}
  {
    var level0 := Level0(g);
    assert Levels(g) == [level0] + LevelsFrom(g, level0);
    if i == 0 {
      LevelsFromAt(g, level0, j - 1);
    } else {
      LevelsFromDisjoint(g, level0, i - 1, j - 1);
    }
  }

  /** A type on level i is not on a later level j. */
  lemma NotOnLaterLevel(g: TypeGraph, i: nat, j: nat, t: string)
    requires i < j < |Levels(g)| && t in Levels(g)[i]
    ensures t !in Levels(g)[j]
  {
    LevelsDisjoint(g, i, j);
    assert t !in Levels(g)[i] * Levels(g)[j];
  }

  /** Every source parent of a type on a level k > 0 sits on a level j < k. */
  lemma LevelOfParent(g: TypeGraph, k: nat, t: string, p: string) returns (j: nat)
    requires 0 < k < |Levels(g)| && t in Levels(g)[k] && p in SourceParents(g, t)
    ensures j < k && p in Levels(g)[j]
  {
    var level0 := Level0(g);
    assert Levels(g) == [level0] + LevelsFrom(g, level0);
    var j1 := LevelsFromParent(g, level0, k - 1, t, p);
    j := j1 + 1;
  }

  /** The levels of a type graph: every level is non-empty and made of source types, no type
      is on two levels, level 0 is exactly `Level0`, and every type on a later level has a
      source parent, all of its source parents sitting on earlier levels. */
  lemma LevelsProperties(g: TypeGraph)
    ensures var ls := Levels(g);
      && (ls != [] ==> ls[0] == Level0(g))
      && (forall k :: 0 <= k < |ls| ==> ls[k] != {} && ls[k] <= g.sourceTypes)
      && (forall i, j :: 0 <= i < j < |ls| ==> ls[i] * ls[j] == {})
      && (forall k, t :: 0 < k < |ls| && t in ls[k] ==> SourceParents(g, t) != {})
      && (forall k, t, p :: 0 < k < |ls| && t in ls[k] && p in SourceParents(g, t) ==>
            exists j :: 0 <= j < k && p in ls[j])
  {
    var ls := Levels(g);
    forall k | 0 <= k < |ls| ensures ls[k] != {} && ls[k] <= g.sourceTypes && (k == 0 ==> ls[k] == Level0(g)) {
      LevelAt(g, k);
    }
    forall i, j | 0 <= i < j < |ls| ensures ls[i] * ls[j] == {} {
      LevelsDisjoint(g, i, j);
    }
    forall k, t | 0 < k < |ls| && t in ls[k] ensures SourceParents(g, t) != {} {
      LevelAt(g, k);
    }
    forall k, t, p | 0 < k < |ls| && t in ls[k] && p in SourceParents(g, t)
      ensures exists j :: 0 <= j < k && p in ls[j]
    {
      var j := LevelOfParent(g, k, t, p);
    }
  }

  /** Without source types there are no levels. */
  lemma NoSourceTypesNoLevels(g: TypeGraph)
    requires g.sourceTypes == {}
    ensures Levels(g) == []
  {
    assert Level0(g) == {};
  }

  /** On a valid graph a level-0 type has no source parent. */
  lemma Level0HasNoSourceParent(g: TypeGraph, t: string)
    requires ValidGraph(g) && t in Level0(g)
    ensures SourceParents(g, t) == {}
  {
  }

  /** A type whose only parents with a WITH_SOURCE edge are outside the source types is on no
      level: it is excluded from level 0, and it never has a source parent to wait for. */
  lemma OutsideParentOmitted(g: TypeGraph, t: string, p: string)
    requires p in Parents(g, t) && p in g.withSource && SourceParents(g, t) == {}
    ensures forall k :: 0 <= k < |Levels(g)| ==> t !in Levels(g)[k]
  {
    forall k | 0 <= k < |Levels(g)| ensures t !in Levels(g)[k] {
      LevelAt(g, k);
      if k == 0 {
        assert p in Parents(g, t) * g.withSource;
      }
    }
  }

  /** Along a chain of source parents starting at a type on level k, the i-th type sits on a
      level j at most k - i. */
  lemma {:induction false} ChainDescends(g: TypeGraph, chain: seq<string>, k: nat, i: nat) returns (j: nat)
    requires ValidGraph(g)
    requires forall m :: 0 <= m < |chain| - 1 ==> chain[m + 1] in SourceParents(g, chain[m])
    requires k < |Levels(g)| && |chain| > 0 && chain[0] in Levels(g)[k]
    requires i < |chain|
    ensures i <= k && j <= k - i && chain[i] in Levels(g)[j]
    decreases i
  {
    if i == 0 {
      j := k;
    } else {
      var j1 := ChainDescends(g, chain, k, i - 1);
      assert chain[i] in SourceParents(g, chain[i - 1]);
      if j1 == 0 {
        LevelAt(g, 0);
        Level0HasNoSourceParent(g, chain[i - 1]);
        assert false;
      }
      j := LevelOfParent(g, j1, chain[i - 1], chain[i]);
    }
  }

  /** A type that is its own ancestor through source parents is on no level: the loop never
      assigns the types of an inheritance cycle, and raises no error about them. */
  lemma CycleOmitted(g: TypeGraph, chain: seq<string>)
    requires ValidGraph(g)
    requires |chain| >= 2 && chain[0] == chain[|chain| - 1]
    requires forall m :: 0 <= m < |chain| - 1 ==> chain[m + 1] in SourceParents(g, chain[m])
    ensures forall k :: 0 <= k < |Levels(g)| ==> chain[0] !in Levels(g)[k]
  {
    forall k | 0 <= k < |Levels(g)| ensures chain[0] !in Levels(g)[k] {
      if chain[0] in Levels(g)[k] {
        var j := ChainDescends(g, chain, k, |chain| - 1);
        NotOnLaterLevel(g, j, k, chain[0]);
        assert false;
      }
    }
  }

  /** A type one of whose source parents is on no level is on no level either. */
  lemma UnassignedParentOmitted(g: TypeGraph, t: string, p: string)
    requires ValidGraph(g) && p in SourceParents(g, t)
    requires forall k :: 0 <= k < |Levels(g)| ==> p !in Levels(g)[k]
    ensures forall k :: 0 <= k < |Levels(g)| ==> t !in Levels(g)[k]
  {
    forall k | 0 <= k < |Levels(g)| ensures t !in Levels(g)[k] {
      if t in Levels(g)[k] {
        if k == 0 {
          LevelAt(g, 0);
          Level0HasNoSourceParent(g, t);
          assert false;
        }
        var j := LevelOfParent(g, k, t, p);
        assert false;
      }
    }
  }

  /** Adding a level to the list adds its number to the dictionary. */
  lemma AsMapSnoc<X>(levels: seq<X>, x: X)
    ensures AsMap(levels + [x]) == AsMap(levels)[|levels| := x]
  {
    var l := AsMap(levels + [x]);
    var r := AsMap(levels)[|levels| := x];
    assert l.Keys == r.Keys;
    forall k | k in l ensures l[k] == r[k] {
      if k < |levels| { assert (levels + [x])[k] == levels[k]; }
    }
  }

  /** `_get_types_by_inheritance_level`: level 0 from its query, then one frontier query per
      level until one comes back empty. */
  method GetTypesByInheritanceLevel(g: TypeGraph) returns (typesByLevel: map<nat, set<string>>)
    ensures typesByLevel == AsMap(Levels(g))
  {
    var allSourceTypeIds := g.sourceTypes;
    if allSourceTypeIds == {} {
      assert Level0(g) == {};
      assert AsMap<set<string>>([]) == map[];
      return map[];
    }
    var level0Ids := Level0(g);
    typesByLevel := map[];
    var visitedIds: set<string> := {};
    if level0Ids != {} {
      typesByLevel := typesByLevel[0 := level0Ids];
      visitedIds := visitedIds + level0Ids;
      assert visitedIds == level0Ids;
    }
    ghost var done: seq<set<string>> := if level0Ids == {} then [] else [level0Ids];
    AsMapSnoc([], level0Ids);
    assert AsMap<set<string>>([]) == map[];
    assert level0Ids != {} ==> Levels(g) == done + LevelsFrom(g, visitedIds);
    var currentLevel: nat := 0;
    while true
      invariant visitedIds <= allSourceTypeIds
      invariant typesByLevel == AsMap(done)
      invariant done == [] ==> Levels(g) == [] && currentLevel == 0
      invariant done != [] ==> |done| == currentLevel + 1 && done[currentLevel] != {}
      invariant done != [] ==> Levels(g) == done + LevelsFrom(g, visitedIds)
      decreases allSourceTypeIds - visitedIds
    {
      var levelNodes := if currentLevel in typesByLevel then typesByLevel[currentLevel] else {};
      if levelNodes == {} {
        break;
      }
      currentLevel := currentLevel + 1;
      var nextLevelIds := NextLevel(g, visitedIds);
      if nextLevelIds == {} {
        assert LevelsFrom(g, visitedIds) == [];
        AppendEmpty(done);
        break;
      }
      assert allSourceTypeIds - (visitedIds + nextLevelIds) < allSourceTypeIds - visitedIds by {
        var t :| t in nextLevelIds;
        assert t in allSourceTypeIds - visitedIds;
      }
      assert currentLevel == |done|;
      AsMapSnoc(done, nextLevelIds);
      typesByLevel := typesByLevel[currentLevel := nextLevelIds];
      assert typesByLevel == AsMap(done + [nextLevelIds]);
      ghost var rest := LevelsFrom(g, visitedIds + nextLevelIds);
      assert LevelsFrom(g, visitedIds) == [nextLevelIds] + rest;
      AppendAssoc(done, [nextLevelIds], rest);
      done := done + [nextLevelIds];
      visitedIds := visitedIds + nextLevelIds;
    }
  }

  /** An item of the type pass: the node record and the node's labels. */
  datatype TypeItem = TypeItem(node: NodeData, labels: seq<string>)

  /** Whether a label names a kind of type. */
  predicate TypeKind(name: string) {
    name == "Class" || name == "Interface" || name == "Enum" || name == "Record"
  }

  /** The label a type is summarized under: the first of its labels naming a kind of type, in
      the order the labels are listed, or `Type` when none does. */
  function TypeLabel(labels: seq<string>): (r: string)
    ensures (exists k :: 0 <= k < |labels| && TypeKind(labels[k])) ==>
      exists k :: 0 <= k < |labels| && r == labels[k] && TypeKind(r) && forall j :: 0 <= j < k ==> !TypeKind(labels[j])
    ensures (forall k :: 0 <= k < |labels| ==> !TypeKind(labels[k])) ==> r == "Type"
    decreases |labels|
  {
    if |labels| == 0 then "Type"
    else if TypeKind(labels[0]) then labels[0]
    else
      var r := TypeLabel(labels[1..]);
      assert forall k :: 1 <= k < |labels| ==> labels[1..][k - 1] == labels[k];
      r
  }

  /** `_prepare_item`: sets the node's label and leaves the rest of the item. */
  function PrepareItem(item: TypeItem): (r: TypeItem)
    ensures r.node.typeLabel == TypeLabel(item.labels)
    ensures r.labels == item.labels && r.node.(typeLabel := item.node.typeLabel) == item.node
  {
    item.(node := item.node.(typeLabel := TypeLabel(item.labels)))
  }

  /** `_get_processor_result`: the type waterfall on the current cache and runtime status. */
  function TypeProcessor(llm: string -> string, hash: string -> string, tm: TM.TokenManager): ProcessorHook<TypeItem> {
    (item: TypeItem, cache: Cache, status: Status) => GetTypeSummary(Processor(llm, hash, tm, cache, status), item.node).outcome
  }

  /** What the pass has done so far: the cache and runtime status, the summed write counts,
      and the bulk writes in order. */
  datatype PassState = PassState(cache: Cache, status: Status, total: nat, writes: seq<seq<NodeResult>>)

  /** One level: its items are fetched; an empty fetch is skipped, otherwise they form a batch. */
  function LevelStep<T>(ps: PassState, items: seq<T>, prepare: T -> T, process: ProcessorHook<T>,
                        write: seq<NodeResult> -> nat): PassState
  {
    if items == [] then ps
    else
      var st := BatchFrom(BatchState(ps.cache, ps.status, []), items, prepare, process);
      var (count, written) := BatchWrite(st.updates, write);
      PassState(st.cache, st.status, ps.total + count, ps.writes + (if written.Some? then [written.value] else []))
  }

  /** The levels from `k` on, in ascending order. */
  function PassFrom<T>(ps: PassState, levels: seq<set<string>>, k: nat, context: set<string> -> seq<T>,
                       prepare: T -> T, process: ProcessorHook<T>, write: seq<NodeResult> -> nat): PassState
    requires k <= |levels|
    decreases |levels| - k
  {
    if k == |levels| then ps
    else PassFrom(LevelStep(ps, context(levels[k]), prepare, process, write), levels, k + 1, context, prepare, process, write)
  }

  /** The pass only adds to the count and to the writes: earlier writes stay, in order, and a
      level whose fetch is empty writes nothing. */
  lemma {:induction false} PassAccumulates<T>(ps: PassState, levels: seq<set<string>>, k: nat, context: set<string> -> seq<T>,
                                             prepare: T -> T, process: ProcessorHook<T>, write: seq<NodeResult> -> nat)
    requires k <= |levels|
    ensures var r := PassFrom(ps, levels, k, context, prepare, process, write);
      && ps.total <= r.total
      && |ps.writes| <= |r.writes| <= |ps.writes| + (|levels| - k)
      && r.writes[..|ps.writes|] == ps.writes
      && forall m :: |ps.writes| <= m < |r.writes| ==> r.writes[m] != []
    decreases |levels| - k
  {
    if k < |levels| {
      var next := LevelStep(ps, context(levels[k]), prepare, process, write);
      PassAccumulates(next, levels, k + 1, context, prepare, process, write);
      var r := PassFrom(ps, levels, k, context, prepare, process, write);
      assert next.writes[..|ps.writes|] == ps.writes;
      assert r.writes[..|ps.writes|] == r.writes[..|next.writes|][..|ps.writes|];
    }
  }

  /** `run`: the levels in ascending order, each level's fetched items as one batch; the total
      of the batch counts. */
  method Run<T>(cm: SummaryCacheManager, g: TypeGraph, context: set<string> -> seq<T>, prepare: T -> T,
                process: ProcessorHook<T>, write: seq<NodeResult> -> nat)
    returns (total: nat, writes: seq<seq<NodeResult>>)
    modifies cm
    ensures var r := PassFrom(PassState(old(cm.cache), old(cm.runtimeStatus), 0, []), Levels(g), 0,
                              context, prepare, process, write);
      && total == r.total && writes == r.writes
      && cm.cache == r.cache && cm.runtimeStatus == r.status && cm.files == old(cm.files)
  {
    var typesByLevel := GetTypesByInheritanceLevel(g);
    ghost var levels := Levels(g);
    if typesByLevel == map[] {
      assert 0 !in AsMap(levels);
      return 0, [];
    }
    ghost var start := PassState(cm.cache, cm.runtimeStatus, 0, []);
    total := 0;
    writes := [];
    var level: nat := 0;
    while level in typesByLevel
      invariant level <= |levels|
      invariant cm.files == old(cm.files)
      invariant PassFrom(start, levels, 0, context, prepare, process, write)
        == PassFrom(PassState(cm.cache, cm.runtimeStatus, total, writes), levels, level, context, prepare, process, write)
      decreases |levels| - level
    {
      ghost var before := PassState(cm.cache, cm.runtimeStatus, total, writes);
      var levelIds := typesByLevel[level];
      assert levelIds == levels[level];
      var itemsToProcess := context(levelIds);
      if itemsToProcess != [] {
        var updatedCount, written := ProcessBatch(cm, itemsToProcess, prepare, process, write);
        total := total + updatedCount;
        if written.Some? {
          writes := writes + [written.value];
        }
      }
      assert PassState(cm.cache, cm.runtimeStatus, total, writes) == LevelStep(before, itemsToProcess, prepare, process, write);
      level := level + 1;
    }
  }
}
