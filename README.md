# jQAssistant graph RAG: a Dafny model of the summary engine and the graph normalizers

The repository enriches a jQAssistant Neo4j graph of a Java/Kotlin code base. It infers
class-tree roots and package names, assembles fully qualified names from the sources, and then
computes LLM summaries bottom-up: code analyses of methods, method summaries, type summaries in
inheritance order, and hierarchical summaries of files, directories, packages and the project.
The summaries are incremental. For each node the engine first checks the value in the database,
then the on-disk summary cache, and calls the LLM only when neither is current. A runtime
change tracker marks regenerated nodes so that the nodes depending on them are regenerated too.

This project models that core in Dafny, one module per source file:

- `SummaryCache` (summary_cache_manager.py) is a class holding the in-memory cache, the runtime
  status and the cache directory. The directory is an abstract map from the four file slots to
  parsed or corrupt contents. The model covers the load, the save through a temporary file, the
  size sanity check before promotion, and the two-level backup rotation.
- `TokenManager` (token_manager.py) covers the chunk sizes, the special-token sanitizer, the
  sliding-window text chunker and the greedy summary grouper.
- `BaseSummarizer` (base_summarizer.py) covers what a processor result puts in the cache and
  the change tracker, what is written back, and the batch loop.
- `NodeSummaryProcessor` (node_summary_processor.py) covers the three summary waterfalls, the
  code-analysis waterfall, and the chunk folds they use. The LLM is an oracle where `""` means
  failure.
- `PromptManager` (prompt_manager.py) covers every prompt builder, its template choice and its
  error cases.
- `TypeSummarizer` (type_summarizer.py) covers the inheritance levelling and the level loop of
  the type pass.
- `MethodAnalyzer` (method_analyzer.py) covers the extraction of a method's line range.
- `ClassTreeRoots` is the root-inference algorithm that the artifact normalizer and the package
  normalizer share. It also holds the path-to-name correction and the grouping of directories
  by depth.
- `ArtifactDataNormalizer` and `PackageDataNormalizer` are the two normalizer passes, once
  each, as write logs over the shared algorithm. The package normalizer is proved to issue the
  artifact normalizer's writes, read label for promotion.
- `SourceMetadata`, `JavaSourceParser` and `KotlinSourceParser` assemble the stored path, the
  package and the names of a parsed file. This includes the Kotlin `…Kt` facade class and the
  `/src` cut.
- `McpServer` (mcp_server.py) covers the read-only Cypher guard, the line slicing and the
  choice between a slice and the whole file.
- `Common` holds the Python string helpers the modules share (`join`, `split`, `startswith`,
  `replace`, ASCII case).

Two behaviours of the source are modelled as written:

- **The hierarchical summary calls the LLM twice.** On the single-shot path it makes a second
  call with the same prompt and keeps that answer (node_summary_processor.py:455). On the
  iterative path `prompt` is unbound at that line, so the call raises.
- **First-chunk prompts carry a literal `{chunk}`.** They are plain strings, not f-strings
  (prompt_manager.py:23-39), so the code of the first chunk never reaches the LLM.

## Model

| member | source | states |
|---|---|---|
| SummaryCache.SummaryCacheManager.constructor | summary_cache_manager.py:14-24 | a new manager has an empty cache and no runtime status, over the given directory |
| SummaryCache.LoadedCache | summary_cache_manager.py:27-39 | a load yields the primary file's entries when it parses, and the empty cache when it is missing or corrupt |
| SummaryCache.SummaryCacheManager.Load | summary_cache_manager.py:27-39 | loading replaces only the cache, by the loaded cache; the files and the runtime status stay |
| SummaryCache.SaveThenLoad | summary_cache_manager.py:41-53 | a successful save followed by a load gives back exactly the saved cache, unless the size check refused the promotion |
| SummaryCache.SummaryCacheManager.Save | summary_cache_manager.py:41-53 | saving writes the cache and never the runtime status, then promotes; memory is unchanged |
| SummaryCache.FailedWriteKeepsFiles | summary_cache_manager.py:46-53 | a failed temporary write leaves the primary and both backups as they were |
| SummaryCache.PromotionOutcome | summary_cache_manager.py:55-89 | refusal (readable primary, over 100 entries, new size under 95% of old) keeps every file and leaves the temporary file; otherwise the new content becomes primary, the old primary bak1 and the old bak1 bak2 |
| SummaryCache.SummaryCacheManager.PromoteTmpCache | summary_cache_manager.py:55-80 | the directory becomes the promotion outcome for the in-memory size; memory is unchanged |
| SummaryCache.UnreadablePrimaryPromotes | summary_cache_manager.py:60-78 | a missing or corrupt primary never blocks promotion |
| SummaryCache.SmallPrimaryPromotes | summary_cache_manager.py:68 | an old cache of at most 100 entries is always replaced |
| SummaryCache.Rotated | summary_cache_manager.py:82-90 | rotation moves the primary to bak1 and bak1 to bak2, drops the old bak2, and keeps the temporary file |
| SummaryCache.SummaryCacheManager.RotateBackups | summary_cache_manager.py:82-90 | the directory becomes its rotation; memory is unchanged |
| SummaryCache.SummaryCacheManager.GetNodeCache | summary_cache_manager.py:94-95 | a known node's entry, the empty entry for an unknown node; nothing is inserted |
| SummaryCache.Updated | summary_cache_manager.py:97-100 | the entry is created if absent, exactly the keys of the data are overwritten, and other keys and other nodes are kept |
| SummaryCache.SummaryCacheManager.UpdateNodeCache | summary_cache_manager.py:97-100 | the cache becomes its update; the files and the runtime status stay |
| SummaryCache.WithStatus | summary_cache_manager.py:102-107 | a node is marked changed exactly when the new status is `regenerated` or it was already marked; other nodes are kept |
| SummaryCache.SummaryCacheManager.SetRuntimeStatus | summary_cache_manager.py:102-107 | the runtime status becomes its update; the cache and files stay |
| SummaryCache.SummaryCacheManager.WasDependencyChanged | summary_cache_manager.py:110-115 | true exactly when some given node is marked changed (so false for no nodes), without changing anything |
| TokenManager.SpecialTokenAt | token_manager.py:10 | the inner length of a `<\|…\|>` token at the start of a text exactly when one is there |
| TokenManager.Sanitize | token_manager.py:10-19 | sanitizing never shortens a text and leaves a text with no `<\|` untouched |
| TokenManager.SanitizeSingleToken | token_manager.py:17-19 | a text that is one special token gets spaces inside its brackets |
| TokenManager.TruncDiv | token_manager.py:42-44 | Python `int()` of a quotient truncates toward zero, for both signs |
| TokenManager.SizesOfManager | token_manager.py:40-44 | the stride is positive exactly when the chunk size is at least 1, which holds exactly for a context of at least 2; the overlap is below the chunk size |
| TokenManager.DefaultSizes | token_manager.py:28-44 | the default context of 8192 gives chunks of 4096, an overlap of 409 and a stride of 3687 |
| TokenManager.WindowsFrom | token_manager.py:86-102 | the loop emits at least one window from any position |
| TokenManager.DecodeAll | token_manager.py:104 | one decoded text per window, in order |
| TokenManager.ChunkTextByTokens | token_manager.py:66-104 | the loop returns the decoded windows of the sanitized tokens |
| TokenManager.SlideWindows | token_manager.py:84-102 | the `while True` loop builds exactly the reference windows: full windows a stride apart, the last running to the end and absorbing a short remainder |
| TokenManager.WindowsShape | token_manager.py:76-93 | no windows exactly for no tokens; window k starts at token k times the stride |
| TokenManager.WindowAt | token_manager.py:86-93 | every window but the last holds exactly chunk-size tokens, taken from k times the stride |
| TokenManager.LastWindow | token_manager.py:86-102 | the last window runs to the final token |
| TokenManager.WindowsReconstruct | token_manager.py:86-102 | dropping the overlap of every window after the first and concatenating gives back the tokens |
| TokenManager.LastWindowNotTiny | token_manager.py:95-102 | with two windows or more the last one holds at least half a chunk: a shorter tail is merged into the window before it |
| TokenManager.CountAll | token_manager.py:124-126 | each summary paired with its token count, in order |
| TokenManager.GroupCostIsSumPlusSeparators | token_manager.py:143-155 | a group's cost is the sum of its counts plus one separator between each two |
| TokenManager.GroupFromPreserves | token_manager.py:128-159 | the groups flatten to the pending group followed by the items, and none is empty |
| TokenManager.GroupFromBudget | token_manager.py:135-155 | every group either fits the chunk size or is one oversized summary alone |
| TokenManager.GroupsProperties | token_manager.py:116-161 | no groups exactly for no summaries; in order, the groups flatten to the summaries with none split, dropped or empty, each within budget or an oversized summary alone |
| TokenManager.JoinGroups | token_manager.py:137-159 | each group is its texts joined with `"; "`, in order |
| TokenManager.ChunkSummariesByTokens | token_manager.py:116-161 | the loop returns the joined greedy groups |
| BaseSummarizer.CacheData | base_summarizer.py:57-60 | exactly those of summary, code analysis and code hash that the result holds, with their values |
| BaseSummarizer.ForwardedResult | base_summarizer.py:62-70 | a result is returned exactly when it is `regenerated` or `restored`, and unchanged |
| BaseSummarizer.HandleNothing | base_summarizer.py:51-70 | `None` or a status other than the three changes nothing and forwards nothing |
| BaseSummarizer.HandleMerges | base_summarizer.py:62-68 | a merged result puts its cached keys into the node's entry and leaves the other nodes |
| BaseSummarizer.HandleMarksChanged | base_summarizer.py:64-65 | only a `regenerated` result marks its node changed, so that its dependents are stale |
| BaseSummarizer.ForwardedSummaryCached | base_summarizer.py:62-66 | a forwarded summary is what the cache serves for its node afterwards |
| BaseSummarizer.HandleResult | base_summarizer.py:47-70 | the manager's cache and status become the handled ones, its files stay, the forwarded result is returned |
| BaseSummarizer.ProcessAndHandleItem | base_summarizer.py:72-78 | prepare, process on the current cache, then handle |
| BaseSummarizer.BatchAppend | base_summarizer.py:91-98 | handling a batch in two parts is handling the second from where the first left off |
| BaseSummarizer.BatchUpdates | base_summarizer.py:91-98 | the collected updates keep the earlier ones in order, and each is `regenerated` or `restored` |
| BaseSummarizer.BatchSkipsRaised | base_summarizer.py:99-101 | an item that raises leaves the batch's outcome as if it were absent |
| BaseSummarizer.BatchWrite | base_summarizer.py:103-112 | no write and a count of 0 without updates; otherwise exactly one write of all updates |
| BaseSummarizer.ProcessBatch | base_summarizer.py:80-112 | the batch handles the items one after the other, then writes once; an empty batch returns 0 with no write |
| NodeSummaryProcessor.GetMethodCodeAnalysis | node_summary_processor.py:34-82 | no code gives `None` with no call; a current database analysis is `unchanged` and a current cached one `restored`, both with no call; otherwise a non-empty analysis is `regenerated` with the new hash, and a failed one is `None` |
| NodeSummaryProcessor.CodeChunks | node_summary_processor.py:88-95 | the whole code alone when its token count is at most the maximum; never empty |
| NodeSummaryProcessor.AnalyzeCodeIteratively | node_summary_processor.py:84-113 | the loop computes the fold over the code's chunks |
| NodeSummaryProcessor.AnalyzeSmallCode | node_summary_processor.py:89-113 | code that fits is analysed with exactly one call, the whole-method prompt |
| NodeSummaryProcessor.FoldFrom | node_summary_processor.py:97-113 | a fold from chunk i makes at most one call per remaining chunk |
| NodeSummaryProcessor.FoldCallAt | node_summary_processor.py:97-113 | call j of the fold is chunk j's prompt with the running summary after j answers |
| NodeSummaryProcessor.FoldEnd | node_summary_processor.py:97-113 | the fold ends with the last answer after one call per chunk, or with `None` after at least one call |
| NodeSummaryProcessor.FoldAnswerAt | node_summary_processor.py:97-113 | an answer is empty exactly when it is the last call of a fold that failed |
| NodeSummaryProcessor.FoldSpec | node_summary_processor.py:97-113 | each answer replaces the running summary; success exactly when no answer is empty; the first empty answer aborts |
| NodeSummaryProcessor.FoldChunks | node_summary_processor.py:97-113 | the shared `for` loop computes the fold |
| NodeSummaryProcessor.FoldStep | node_summary_processor.py:199-234 | the loop over one step's chunks computes its fold |
| NodeSummaryProcessor.ChainSpec | node_summary_processor.py:199-234 | all calls of the first fold come before any of the second, which is seeded with the first's result; any empty answer gives `None` |
| NodeSummaryProcessor.SummarizeMethodContextIteratively | node_summary_processor.py:189-234 | the callers fold seeded with the code analysis, then the callees fold |
| NodeSummaryProcessor.MethodRegeneration | node_summary_processor.py:139-187 | no cached analysis gives `None`; a context strictly below the limit gives one call; otherwise the chained folds run |
| NodeSummaryProcessor.GetMethodSummary | node_summary_processor.py:115-187 | the waterfall, stale only through the method itself |
| NodeSummaryProcessor.TypeRegeneration | node_summary_processor.py:260-298 | one call strictly below the limit, else the parents fold from the fixed sentence, then the members fold |
| NodeSummaryProcessor.GetTypeSummary | node_summary_processor.py:236-298 | the waterfall, stale through the parents and the members |
| NodeSummaryProcessor.SummarizeTypeContextIteratively | node_summary_processor.py:336-380 | the loops compute the parents fold, then the members fold |
| NodeSummaryProcessor.NodeName | node_summary_processor.py:432-436 | the first truthy of path, fqn and name |
| NodeSummaryProcessor.SummarizeHierarchicalIteratively | node_summary_processor.py:300-334 | the loop computes the children fold |
| NodeSummaryProcessor.Regenerate | node_summary_processor.py:180-187 | a truthy new summary becomes a `regenerated` result holding only it; an empty one `None` |
| NodeSummaryProcessor.Waterfall | node_summary_processor.py:400-413 | `unchanged` exactly when the database serves and `restored` exactly when the cache serves, both with no call and only when not stale; otherwise the regeneration's outcome |
| NodeSummaryProcessor.HierarchicalRegeneration | node_summary_processor.py:415-462 | no cached child summaries give `None`; below the limit an unknown type raises, else two calls with one prompt keep the second answer; at or above it the fold runs and then raises |
| NodeSummaryProcessor.GetHierarchicalSummary | node_summary_processor.py:382-462 | a `Type` node goes to the type waterfall; any other, to the waterfall stale through its children |
| NodeSummaryProcessor.CachedSummaries | node_summary_processor.py:146-156 | at most one summary per node, none of them empty |
| NodeSummaryProcessor.AnalysisRestoredAfterRegeneration | node_summary_processor.py:59-70 | a regenerated analysis, once merged into the cache, is served without a call on the next run |
| PromptManager.MethodAnalysisPrompt | prompt_manager.py:12-54 | a first-chunk prompt holds the literal `{chunk}` placeholder; a later one holds the chunk, the running summary and the closing sentence for whether the chunk is last |
| PromptManager.FirstChunkPromptIgnoresChunk | prompt_manager.py:23-39 | the first-chunk prompt depends on neither the chunk nor the running summary |
| PromptManager.ListText | prompt_manager.py:67-68 | `None` for an empty list; otherwise every item occurs in it |
| PromptManager.MethodSummaryPrompt | prompt_manager.py:56-80 | the prompt holds the method name, the analysis and every caller and callee, and `None` after the label of an empty list |
| PromptManager.CallersRefinementPrompt | prompt_manager.py:95-105 | the callers step holds the running summary and the chunk |
| PromptManager.CalleesRefinementPrompt | prompt_manager.py:106-115 | the callees step holds the running summary and the chunk |
| PromptManager.IterativeMethodSummaryPrompt | prompt_manager.py:82-117 | callers and callees select their step; any other relation is an error |
| PromptManager.ListSentence | prompt_manager.py:126-135 | empty exactly for an empty list; otherwise every item occurs in it |
| PromptManager.ParentSentence | prompt_manager.py:126-130 | empty exactly for no parents; otherwise every parent summary occurs in it |
| PromptManager.MemberSentence | prompt_manager.py:131-135 | empty exactly for no members; otherwise every member summary occurs in it |
| PromptManager.TypeSummaryPrompt | prompt_manager.py:119-141 | the prompt holds the type name, its label and every parent and member summary |
| PromptManager.ParentsRefinementPrompt | prompt_manager.py:154-162 | the parents step holds the running summary and the chunk |
| PromptManager.MembersRefinementPrompt | prompt_manager.py:163-171 | the members step holds the running summary and the chunk |
| PromptManager.IterativeTypeSummaryPrompt | prompt_manager.py:143-173 | parents and members select their step; any other relation is an error |
| PromptManager.HierarchicalSummaryPrompt | prompt_manager.py:175-197 | a prompt exactly for a file, directory, package or project, otherwise the unknown-type error whatever the context; an empty context gives the fixed unclear sentence; otherwise the prompt holds the name and the context |
| PromptManager.IterativeHierarchicalPrompt | prompt_manager.py:199-216 | the prompt holds the node type, the name, the running summary and the chunk |
| TypeSummarizer.Level0 | type_summarizer.py:77-94 | level 0 is made of source types only |
| TypeSummarizer.NextLevel | type_summarizer.py:104-130 | a next level is made of unvisited source types only |
| TypeSummarizer.LevelsFromAt | type_summarizer.py:97-132 | each later level is non-empty, unvisited, and made of source types with a source parent |
| TypeSummarizer.LevelsFromDisjoint | type_summarizer.py:97-132 | two later levels share no type |
| TypeSummarizer.LevelsFromParent | type_summarizer.py:97-132 | a source parent of a later-level type is visited or on an earlier level |
| TypeSummarizer.LevelAt | type_summarizer.py:97-132 | level 0 is exactly `Level0`; every level is non-empty and of source types |
| TypeSummarizer.LevelsDisjoint | type_summarizer.py:88-132 | no type is on two levels |
| TypeSummarizer.NotOnLaterLevel | type_summarizer.py:97-132 | a type on level i is not on a later level |
| TypeSummarizer.LevelOfParent | type_summarizer.py:114 | every source parent of a type on level k > 0 sits on a level below k |
| TypeSummarizer.LevelsProperties | type_summarizer.py:77-134 | level 0 is `Level0`; every level is non-empty and of source types; no type is on two levels; every later type has a source parent, and all of its source parents sit on earlier levels |
| TypeSummarizer.AsMap | type_summarizer.py:88-134 | the dictionary's keys are exactly 0 to the number of levels, each key holding its level |
| TypeSummarizer.AsMapSnoc | type_summarizer.py:129 | adding a level adds its number |
| TypeSummarizer.NoSourceTypesNoLevels | type_summarizer.py:67-75 | no source types give no levels |
| TypeSummarizer.Level0HasNoSourceParent | type_summarizer.py:78-83 | a level-0 type has no source parent |
| TypeSummarizer.OutsideParentOmitted | type_summarizer.py:81-114 | a type whose only parents with a source edge lie outside the source types is on no level |
| TypeSummarizer.ChainDescends | type_summarizer.py:99-132 | along a chain of source parents from level k, the i-th type sits on a level at most k - i |
| TypeSummarizer.CycleOmitted | type_summarizer.py:99-132 | a type on an inheritance cycle is on no level, with no error |
| TypeSummarizer.UnassignedParentOmitted | type_summarizer.py:125-132 | a type above an unassigned parent is on no level |
| TypeSummarizer.GetTypesByInheritanceLevel | type_summarizer.py:59-134 | the loop returns the level dictionary of the levelling |
| TypeSummarizer.TypeLabel | type_summarizer.py:168-175 | the first label naming a kind of type, in label order, else `Type` |
| TypeSummarizer.PrepareItem | type_summarizer.py:167-176 | sets the label and keeps the rest of the item |
| TypeSummarizer.PassAccumulates | type_summarizer.py:38-51 | the pass only adds to the count and the writes, keeping earlier writes in order, with at most one non-empty write per level |
| TypeSummarizer.Run | type_summarizer.py:26-57 | the levels ascending, each level's items one batch, the total the sum of the batch counts |
| MethodAnalyzer.ExtractMethodCodeSnippet | method_analyzer.py:63-85 | `None` for a relative, missing or unreadable file or a range outside 1..n or reversed; otherwise lines first..last joined |
| MethodAnalyzer.SnippetSplits | method_analyzer.py:75-82 | the snippet splits at any middle line: lines in order, none dropped or repeated |
| MethodAnalyzer.SingleLineSnippet | method_analyzer.py:82 | a one-line range is that line |
| MethodAnalyzer.WholeFileSnippet | method_analyzer.py:75-82 | the range 1..n is the whole file |
| MethodAnalyzer.PrepareItem | method_analyzer.py:48-55 | stores the snippet or `None` and keeps the rest of the item |
| MethodAnalyzer.UnextractableMakesNoCall | method_analyzer.py:48-55 | an item whose snippet fails gets no analysis and no LLM call |
| ClassTreeRoots.Insert | artifact_data_normalizer.py:62 | the inserted class is in the result, names stay distinct, and every other entry is kept unless it had the same name |
| ClassTreeRoots.DictUpTo | artifact_data_normalizer.py:62 | the first n rows' dictionary has distinct names, every entry from the rows, every one of those rows' names present, and the n-th row among the entries |
| ClassTreeRoots.DictOf | artifact_data_normalizer.py:62 | the dictionary has one entry per name, every entry from the rows, every row's name present, and the last row itself among the entries; when every row leaves as an anchor, so does every entry |
| ClassTreeRoots.LongestIndex | artifact_data_normalizer.py:65 | an entry whose name is at least as long as every other, and strictly longer than every entry before it |
| ClassTreeRoots.PackagePath | artifact_data_normalizer.py:68-69 | empty exactly for a name without a dot; otherwise it starts with `/` |
| ClassTreeRoots.AnchorDirSplits | artifact_data_normalizer.py:71 | a path with a `/` is its directory, a `/` and its file name |
| ClassTreeRoots.RootPath | artifact_data_normalizer.py:77 | root followed by the package path is the anchor's directory |
| ClassTreeRoots.Decide | artifact_data_normalizer.py:73-77 | a root exactly when the directory ends with the package path, else a mismatch |
| ClassTreeRoots.UnqualifiedAnchorIsItsDirectory | artifact_data_normalizer.py:73-77 | an anchor without a package is its directory's root |
| ClassTreeRoots.RootOfMatchingDir | artifact_data_normalizer.py:73-77 | an anchor in root plus its package path gives that root |
| ClassTreeRoots.UnderRoot | artifact_data_normalizer.py:92-97 | root, package path, `/` and a file name lie under the root |
| ClassTreeRoots.AnchorCovered | artifact_data_normalizer.py:92-97 | the anchor lies under the root it gives, so it is removed with the rest |
| ClassTreeRoots.RemoveAt | artifact_data_normalizer.py:74-75 | the list one entry shorter |
| ClassTreeRoots.Uncovered | artifact_data_normalizer.py:92-97 | exactly the entries not at or below the root |
| ClassTreeRoots.UncoveredShrinks | artifact_data_normalizer.py:92-97 | removing a root's classes shortens the list when one lies under it |
| ClassTreeRoots.Remaining | artifact_data_normalizer.py:64-97 | each turn strictly shrinks the dictionary, and every entry left still leaves once it is the anchor, so the drain ends |
| ClassTreeRoots.RemainingSpec | artifact_data_normalizer.py:92-97 | a mismatch drops only the anchor; a root drops exactly the entries at or below it |
| ClassTreeRoots.Roots | artifact_data_normalizer.py:64-97 | at most one root per decision |
| ClassTreeRoots.UnslashedAnchorStays | artifact_data_normalizer.py:64-97 | an unqualified class with a bare file name is never dropped, so the loop would not end |
| ClassTreeRoots.FqnUpdates | artifact_data_normalizer.py:108-114 | one update per directory longer than the root, its relative path with dots for slashes |
| ClassTreeRoots.FqnOfSubdirectory | artifact_data_normalizer.py:108-114 | `root/rel` gets `rel` with dots, which turn back into `rel` when it had no dot |
| ClassTreeRoots.RootSkipped | artifact_data_normalizer.py:108-114 | the root's own directory is never renamed |
| ClassTreeRoots.CollectFqnUpdates | artifact_data_normalizer.py:108-114 | the loop collects the updates in query order |
| ClassTreeRoots.RowPaths | artifact_data_normalizer.py:202 | the rows' paths in order |
| ClassTreeRoots.PathsUpTo | artifact_data_normalizer.py:206-208 | exactly the paths of the rows at one depth; empty when no row has that depth |
| ClassTreeRoots.DepthsUpTo | artifact_data_normalizer.py:206-208 | exactly the depths that occur among the rows |
| ClassTreeRoots.GroupByDepth | artifact_data_normalizer.py:206-208 | the `defaultdict(list)` loop groups every path under its own depth, in row order |
| ClassTreeRoots.AddRow | artifact_data_normalizer.py:207-208 | one row lists a new depth once and appends the row's path to its depth's group, keeping every group equal to the paths of its depth so far |
| ClassTreeRoots.InsertDescending | artifact_data_normalizer.py:210 | inserting keeps the depths strictly decreasing |
| ClassTreeRoots.SortDescending | artifact_data_normalizer.py:210 | the same depths, strictly decreasing |
| ClassTreeRoots.DepthGroups | artifact_data_normalizer.py:206-210 | one group per distinct depth, deepest first, holding exactly that depth's paths in row order |
| ClassTreeRoots.DeepestFirst | artifact_data_normalizer.py:210 | the loop yields the groups deepest first |
| ClassTreeRoots.CollectGroups | artifact_data_normalizer.py:210-211 | each sorted depth's group is read from the map, in order |
| ClassTreeRoots.DepthGroupsOrdered | artifact_data_normalizer.py:206-210 | each row's path lies in the group of its own depth in the descending order |
| ArtifactDataNormalizer.FqnCorrection | artifact_data_normalizer.py:115-122 | one bulk write when some directory is renamed, none otherwise |
| ArtifactDataNormalizer.CorrectFqnsInSubtree | artifact_data_normalizer.py:99-122 | the writes are the correction |
| ArtifactDataNormalizer.PromotionWritesRoots | artifact_data_normalizer.py:64-97 | the roots promoted are exactly the algorithm's roots, in order |
| ArtifactDataNormalizer.PromotedRootsAppend | artifact_data_normalizer.py:64-97 | the promoted roots of two logs |
| ArtifactDataNormalizer.PromotionStep | artifact_data_normalizer.py:64-97 | the drain unfolds to the first anchor's writes, then those of what remains |
| ArtifactDataNormalizer.DrainAnchor | artifact_data_normalizer.py:64-97 | one turn appends the writes for the longest anchor's decision and leaves exactly the remaining classes |
| ArtifactDataNormalizer.ProcessSingleDirectoryArtifact | artifact_data_normalizer.py:41-97 | the demotion first, even without class files, then the promotions and corrections of the shared algorithm's roots |
| ArtifactDataNormalizer.DirectoryLinks | artifact_data_normalizer.py:206-224 | one linking write per depth group, in order |
| ArtifactDataNormalizer.EstablishClassHierarchyInSingleArtifact | artifact_data_normalizer.py:178-235 | file links, then directory links deepest first, then the artifact's children |
| ArtifactDataNormalizer.LinkDepthGroups | artifact_data_normalizer.py:210-224 | one directory-linking write per depth group, in the order given |
| PackageDataNormalizer.FqnCorrection | package_data_normalizer.py:119-126 | one bulk write when some directory is renamed, none otherwise |
| PackageDataNormalizer.CorrectFqnsInSubtree | package_data_normalizer.py:102-126 | the writes are the correction |
| PackageDataNormalizer.LabelWritesRoots | package_data_normalizer.py:66-100 | the roots labelled are exactly the algorithm's roots, in order |
| PackageDataNormalizer.LabelledRootsAppend | package_data_normalizer.py:66-100 | the labelled roots of two logs |
| PackageDataNormalizer.Counterparts | package_data_normalizer.py:84-93 | the counterpart of each write, one for one |
| PackageDataNormalizer.CounterpartsAppend | package_data_normalizer.py:84-93 | counterparts distribute over concatenation |
| PackageDataNormalizer.SameOutcomeAsArtifactPass | package_data_normalizer.py:77-93 | one decision's writes match the artifact pass's for it |
| PackageDataNormalizer.SameDrainAsArtifactPass | package_data_normalizer.py:66-100 | for the same decisions, the labelling log read through counterparts is the promotion log |
| PackageDataNormalizer.LabelStep | package_data_normalizer.py:66-100 | the drain unfolds to the first anchor's writes, then those of what remains |
| PackageDataNormalizer.DrainAnchor | package_data_normalizer.py:66-100 | one turn appends the writes for the longest anchor's decision and leaves exactly the remaining classes |
| PackageDataNormalizer.ProcessSingleDirectoryArtifact | package_data_normalizer.py:51-100 | no class files write nothing; otherwise the labels and corrections of the shared algorithm's roots |
| PackageDataNormalizer.SameRootsAsArtifactPass | package_data_normalizer.py:51-100 | the same roots, and the same writes read through counterparts, as the artifact pass after its demotion |
| PackageDataNormalizer.DirectoryLinks | package_data_normalizer.py:195-214 | one linking write per depth group, in order |
| PackageDataNormalizer.EstablishClassHierarchyInSingleClasstree | package_data_normalizer.py:147-225 | nothing without files; otherwise file links, directory links deepest first, then the class tree's children |
| PackageDataNormalizer.LinkDepthGroups | package_data_normalizer.py:199-214 | one directory-linking write per depth group, in the order given |
| PackageDataNormalizer.SameHierarchyAsArtifactPass | package_data_normalizer.py:147-225 | the class tree's writes are the artifact's, with the class tree in its place |
| SourceMetadata.FirstOfKind | java_source_parser.py:53-57 | the position of the first part of the kind, or the length |
| SourceMetadata.FindIdentifier | java_source_parser.py:53-57 | the loop with `break` finds that part's text, or `None` exactly when there is none |
| SourceMetadata.DeclaredUpTo | java_source_parser.py:62-71 | the collected declarations of the first n children, each of a collected kind |
| SourceMetadata.DeclaredAt | java_source_parser.py:62-71 | a collected child is found at the position counted before it |
| SourceMetadata.DeclaredFrom | java_source_parser.py:62-71 | every found entry comes from a collected child, in order |
| SourceMetadata.DeclaredGrows | java_source_parser.py:62-71 | more children never collect fewer declarations |
| JavaSourceParser.ScanChildren | java_source_parser.py:53-71 | the loop yields the package and the collected declarations |
| JavaSourceParser.FqnsOf | java_source_parser.py:74-82 | one name per declaration, in order |
| JavaSourceParser.BuildFqns | java_source_parser.py:74-82 | the loop builds those names |
| JavaSourceParser.JavaMetadata | java_source_parser.py:35-100 | path `/` and the relative path; an error exactly on failure, with no package and no names; else the package and names |
| JavaSourceParser.GetJavaFileMetadata | java_source_parser.py:35-100 | the imperative parser returns that metadata |
| JavaSourceParser.DeclarationName | java_source_parser.py:74-82 | a module name is used verbatim, a type name behind `package.`, bare in the default package |
| JavaSourceParser.NameOrigin | java_source_parser.py:74-82 | every declared name comes from a collected child |
| JavaSourceParser.PackageInfoNames | java_source_parser.py:85-86 | only `package-info.java` adds its non-empty package, once and when not listed |
| JavaSourceParser.DefaultPackage | java_source_parser.py:48-59 | no package declaration gives the default package |
| JavaSourceParser.NoPackageDeclaration | java_source_parser.py:48-59 | the package stays empty over children without a declaration |
| KotlinSourceParser.KotlinPath | kotlin_source_parser.py:38-42 | `/` and rel, cut after the first `/src` when there is one |
| KotlinSourceParser.TopLevelSrcDropped | kotlin_source_parser.py:38-42 | a file in a top-level `src` is stored by its path below it |
| KotlinSourceParser.MembersUpTo | kotlin_source_parser.py:57-73 | true exactly when some earlier child is a top-level function or property |
| KotlinSourceParser.ScanChildren | kotlin_source_parser.py:57-73 | the loop yields the package, the collected types and whether a top-level function or property exists |
| KotlinSourceParser.LastIndexOf | kotlin_source_parser.py:85 | the position of the last occurrence, or -1 when there is none |
| KotlinSourceParser.Stem | kotlin_source_parser.py:85 | a prefix of the name; when shorter, it stops at the last dot, with something other than dots before it |
| KotlinSourceParser.StemOfSourceFile | kotlin_source_parser.py:85 | a source file's stem is its name without `.kt` |
| KotlinSourceParser.Capitalize | kotlin_source_parser.py:86 | the first character upper case, every other lower case |
| KotlinSourceParser.CapitalizeIdempotent | kotlin_source_parser.py:86 | capitalizing twice is capitalizing once |
| KotlinSourceParser.InnerCapitalsLowered | kotlin_source_parser.py:84-87 | an inner capital of the file name is lowered in the facade name |
| KotlinSourceParser.NamesOf | kotlin_source_parser.py:76-91 | the types behind the prefix, in order, and at most two more names |
| KotlinSourceParser.BuildFqns | kotlin_source_parser.py:76-91 | the loop and the appends build those names |
| KotlinSourceParser.TypeName | kotlin_source_parser.py:76-81 | each type gives one name behind `package.`, in order |
| KotlinSourceParser.FacadeAfterTypes | kotlin_source_parser.py:84-91 | exactly one facade follows the types exactly when there are top-level members; the package follows exactly when it is not empty and not listed |
| KotlinSourceParser.PackageListed | kotlin_source_parser.py:90-91 | a named package is always among the names |
| KotlinSourceParser.KotlinMetadata | kotlin_source_parser.py:93-105 | the cut path; an error exactly on failure, with no package or names |
| KotlinSourceParser.GetKotlinFileMetadata | kotlin_source_parser.py:93-105 | the imperative parser returns that metadata |
| McpServer.ExecuteCypherQuery | mcp_server.py:131-146 | no read keyword as a whole word gives the read-only error; then a write keyword gives the write error; else the query runs |
| McpServer.WordCharCaseless | mcp_server.py:135 | upper-casing keeps a character a word character or not |
| McpServer.WordCharUpper | mcp_server.py:135 | characters equal up to case agree on being word characters |
| McpServer.OccurrenceCaseless | mcp_server.py:135 | an occurrence ignoring case ignores the query's case |
| McpServer.BoundaryCaseless | mcp_server.py:135 | word boundaries do not depend on case |
| McpServer.MatchesAtCaseless | mcp_server.py:135 | a whole-word match ignores the query's case |
| McpServer.GuardCaseless | mcp_server.py:135-140 | a query and its lower-case form are answered alike |
| McpServer.NoMatchInsideWord | mcp_server.py:135-139 | a keyword inside a longer word does not match |
| McpServer.ReadCheckFirst | mcp_server.py:135-140 | a query without a read keyword gets the read error even when it writes |
| McpServer.SliceBound | mcp_server.py:44-47 | a negative bound counts from the end; both are clamped |
| McpServer.PySlice | mcp_server.py:44-47 | the clamped range when it is not reversed, else nothing |
| McpServer.ReadFileSlice | mcp_server.py:40-50 | an unreadable file gives the read error |
| McpServer.SliceInRange | mcp_server.py:44-47 | a range inside the file is exactly its lines |
| McpServer.SliceEndClamped | mcp_server.py:44-47 | an end past the file reads to the last line |
| McpServer.SliceReversed | mcp_server.py:44-47 | a reversed range reads nothing |
| McpServer.ZeroStartIsLastLine | mcp_server.py:44-47 | a start of 0 reads the last line alone |
| McpServer.GetSourceCodeById | mcp_server.py:86-129 | a method with truthy lines gets the slice, any other entity the whole file; no row, path or file gives an error |
| McpServer.SourceErrors | mcp_server.py:86-129 | the error answers for no row, no path and a missing file |
| McpServer.MethodServedItsLines | mcp_server.py:121-125 | a method in range gets exactly its lines; another entity its file |
| Common.ReplaceCharRoundTrip | artifact_data_normalizer.py:113 | replacing `/` by `.` and back restores a path without dots |

## Left out

- The LLM is a deterministic function from prompt to answer, where `""` stands for a failed or empty response. The HTTP clients in llm_client.py, their retries and their sampling are not part of this model.
- The tokenizer's encode and decode are uninterpreted functions held by `TokenManager`. Token counts are the length of the encoding of the sanitized text; tiktoken's actual tokenization is not modelled.
- The file hash (md5 of the source code) is an uninterpreted function of the processor.
- The chunk-size precondition: tiktoken is not modelled, and a chunk size of 0 makes the source's `while True` loop run forever. The source only uses the default context of 8192, which meets it. The members that carry it are listed on the next four lines.
- TokenManager.ChunkTextByTokens: requires a chunk size of at least 1 (a context of at least 2 tokens).
- NodeSummaryProcessor.GetMethodCodeAnalysis: requires a chunk size of at least 1, because it may chunk the code.
- NodeSummaryProcessor.AnalyzeCodeIteratively: requires a chunk size of at least 1, for the same reason.
- MethodAnalyzer.UnextractableMakesNoCall: requires a chunk size of at least 1, as it is stated through the code-analysis waterfall.
- ArtifactDataNormalizer.ProcessSingleDirectoryArtifact: requires that every class file leaves the dictionary once it is the anchor, which means its path has a `/`, its name has a package, or its path is empty. Paths from the database always start with `/`. An unqualified class with a bare file name would make the source loop forever (`ClassTreeRoots.UnslashedAnchorStays`).
- PackageDataNormalizer.ProcessSingleDirectoryArtifact: requires the same of every class file, for the same reason.
- Floating point: the 0.95 promotion ratio, the 0.5 and 0.1 chunk factors and the half-chunk tail test are integer arithmetic. The comparison `new < 0.95 * old` is `100 * new < 95 * old`. The double nearest 0.95 lies just below it, and no integer falls between the two products. `int()` truncation is `TruncDiv`.
- Concurrency: `process_batch` runs its items on a thread pool that updates the shared cache without locks. The model handles the items one after the other in the given order, and each item sees the cache its predecessors left.
- Neo4j: every read query is an input to the member that uses its result, and every write query is an entry of an emitted write log. The Cypher semantics behind the queries (the `STARTS WITH` and depth filters, `MERGE`, `EXISTS`) are the database's and are not modelled.
- The Cypher-only passes are not modelled because their logic is the queries themselves:
  - `rewrite_containment_relationships` and `label_jar_artifacts_as_class_trees`;
  - `cleanup_package_semantics`, `link_project_to_artifacts` and `link_project_to_class_trees`;
  - the outer loops of `relocate_directory_artifacts`, `normalize_directory_packages` and both `establish_class_hierarchy`, which only call the per-directory members, once per query row.
- JSON and `shutil`: a cache file is either parsed content or corrupt, and a move or copy always succeeds. Only the write of the temporary file can fail, in the ways `WriteOutcome` lists.
- The temporary file's content, as a serialised cache, is taken to equal the in-memory cache.
- Logging and warnings are not modelled; a logged mismatch or skipped item writes nothing.
- Python dictionaries are sequences in insertion order where order matters. This covers the class-file dictionary that `max` scans and the depth groups. The level dictionary and the caches are maps.
- The inheritance levels are sets: the order of the ids inside one level, which only the database decides, is not modelled.
- tree-sitter: a parsed file is the list of its top-level children, each with its node type, its `name` field and its own children. The grammar and the parser are not modelled. A reading or decoding failure is the `Failed` parse.
- `\w`, `re.IGNORECASE`, `str.upper`, `str.lower` and `str.capitalize` are modelled on ASCII only; Unicode letters and case mappings are not.
- `os.path.isabs` is a leading `/`; `os.path.exists` and the readable files are membership in a map of files.
- `os.walk`, the orchestrators (graph_orchestrator.py, rag_orchestrator.py), main.py and the MCP framework are not part of this model.
- The summarizer subclasses (method, source-file, directory, package and project summarizers) are not part of this model. They only build their query, call the shared batch loop and write back. `MethodAnalyzer.run` and `TypeSummarizer._get_context_for_ids` are modelled as inputs: the items and the per-level contexts are given.
- entity_embedder.py, the graph builders and enrichers, neo4j_manager.py, schema_analyzer.py, source_file_linker.py and rag_adk_agent/ are not part of this model.
- A node dictionary without a required key, which raises `KeyError` in the source, is not modelled: nodes are records whose fields are always present.
