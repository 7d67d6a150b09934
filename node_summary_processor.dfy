/** The per-node decision waterfall (database value, then cache, then the LLM) and the folds
    that refine a running summary one chunk of context at a time. The LLM is a deterministic
    oracle whose empty answer means failure; md5 is an uninterpreted hash; the cache and the
    runtime status are the snapshot the processor reads. */
module NodeSummaryProcessor {
  import opened Common
  import opened PromptManager
  import opened SummaryCache
  import TM = TokenManager

  const StatusUnchanged := "unchanged"
  const StatusRestored := "restored"

  const KeySummary := "summary"
  const KeyCodeAnalysis := "code_analysis"
  const KeyCodeHash := "code_hash"

  const TypeSeedTail := "' that serves a purpose to be defined by its relationships."
  const HierarchicalSeedTail := "' that serves a purpose to be defined by its contents."

  /** The error raised when the hierarchical waterfall reads a `prompt` it never assigned. */
  const UnboundPrompt := "UnboundLocalError: prompt"

  /** The node record a summarizer hands to the processor (absent keys are `None` or `[]`). */
  datatype NodeData = NodeData(
    id: string,
    name: string,
    typeLabel: string,
    sourceCode: Option<string>,
    dbAnalysis: Option<string>,
    dbHash: Option<string>,
    dbSummary: Option<string>,
    callers: seq<string>,
    callees: seq<string>,
    parentIds: seq<string>,
    memberIds: seq<string>,
    dependencyIds: seq<string>,
    path: Option<string>,
    fqn: Option<string>)

  /** A result dictionary: its status, its node id, and its other keys. */
  datatype NodeResult = NodeResult(status: string, id: string, fields: map<string, string>)

  /** What a `get_*` call ends with: a result or `None`, or an exception. */
  datatype Outcome = Returned(result: Option<NodeResult>) | Raised(error: string)

  /** An outcome and the prompts sent to the LLM, in order. */
  datatype Run = Run(outcome: Outcome, calls: seq<string>)

  /** A summary or `None`, and the prompts sent to the LLM, in order. */
  datatype FoldRun = FoldRun(summary: Option<string>, calls: seq<string>)

  /** The processor's collaborators: the LLM, md5, the token manager, and what it reads of the
      cache manager. */
  datatype Processor = Processor(
    llm: string -> string,
    hash: string -> string,
    tm: TM.TokenManager,
    cache: Cache,
    status: Status)

  /** `get_node_cache(id).get(key)`. */
  function Lookup(cache: Cache, id: string, key: string): Option<string> {
    var e := EntryOf(cache, id);
    if key in e then Some(e[key]) else None
  }

  /** The truthy cached summaries of the given nodes, in order. */
  function CachedSummaries(cache: Cache, ids: seq<string>): (r: seq<string>)
    ensures |r| <= |ids| && forall k :: 0 <= k < |r| ==> r[k] != ""
  {
    KeepTruthy(seq(|ids|, k requires 0 <= k < |ids| => Lookup(cache, ids[k], KeySummary)))
  }

  /** `was_dependency_changed(ids)`: some node of the list was regenerated in this run. */
  predicate Stale(status: Status, ids: seq<string>) {
    exists k :: 0 <= k < |ids| && Changed(status, ids[k])
  }

  // ---------------------------------------------------------------------------------------
  // Folds
  // ---------------------------------------------------------------------------------------

  /** Which prompt a fold sends for each chunk. */
  datatype Step =
    | AnalysisStep
    | CallersStep
    | CalleesStep
    | ParentsStep(typeName: string, typeLabel: string)
    | MembersStep(typeName: string, typeLabel: string)
    | ChildrenStep(nodeType: string, nodeName: string)

  /** The prompt for chunk i with the given running summary. */
  function StepPrompt(step: Step, chunks: seq<string>, i: nat, running: string): string
    requires i < |chunks|
  {
    match step
    case AnalysisStep => MethodAnalysisPrompt(chunks[i], i == 0, i == |chunks| - 1, running)
    case CallersStep => IterativeMethodSummaryPrompt(running, chunks[i], "callers").value
    case CalleesStep => IterativeMethodSummaryPrompt(running, chunks[i], "callees").value
    case ParentsStep(n, l) => IterativeTypeSummaryPrompt(n, l, running, chunks[i], "parents").value
    case MembersStep(n, l) => IterativeTypeSummaryPrompt(n, l, running, chunks[i], "members").value
    case ChildrenStep(t, n) => IterativeHierarchicalPrompt(t, n, running, chunks[i])
  }

  /** The prompt a fold sends for chunk i, given the running summary. */
  type Prompter = (nat, string) -> string

  /** The prompts of a fold over the given chunks. */
  function StepPrompter(step: Step, chunks: seq<string>): Prompter {
    (i: nat, running: string) => if i < |chunks| then StepPrompt(step, chunks, i, running) else ""
  }

  /** The fold over n chunks from chunk i on: one call per chunk, each answer replacing the
      running summary, the first empty answer aborting with `None`. */
  function FoldFrom(llm: string -> string, prompter: Prompter, n: nat, i: nat, running: string): (r: FoldRun)
    requires i <= n
    ensures i + |r.calls| <= n
    decreases n - i
  {
    if i == n then FoldRun(Some(running), [])
    else
      var prompt := prompter(i, running);
      var answer := llm(prompt);
      if answer == "" then FoldRun(None, [prompt])
      else
        var rest := FoldFrom(llm, prompter, n, i + 1, answer);
        FoldRun(rest.summary, [prompt] + rest.calls)
  }

  /** The running summary after k answers, if every answer were kept: the reference sequence
      the fold is measured against. */
  function RunningAt(llm: string -> string, prompter: Prompter, seed: string, k: nat): string {
    if k == 0 then seed
    else llm(prompter(k - 1, RunningAt(llm, prompter, seed, k - 1)))
  }

  /** No reference summary after the seed, up to the n-th, is empty. */
  predicate AllAnswered(llm: string -> string, prompter: Prompter, seed: string, n: nat) {
    forall k: nat :: 0 < k <= n ==> RunningAt(llm, prompter, seed, k) != ""
  }

  /** Call j of a fold started at chunk i from the reference summary at i is the prompt of
      chunk j with the reference summary at j. */
  lemma {:induction false} FoldCallAt(llm: string -> string, prompter: Prompter, n: nat, seed: string,
                                      i: nat, running: string, j: nat)
    requires i <= n && running == RunningAt(llm, prompter, seed, i)
    requires i <= j < i + |FoldFrom(llm, prompter, n, i, running).calls|
    ensures FoldFrom(llm, prompter, n, i, running).calls[j - i] == prompter(j, RunningAt(llm, prompter, seed, j))
    decreases n - i
  {
    var prompt := prompter(i, running);
    var answer := llm(prompt);
    var r := FoldFrom(llm, prompter, n, i, running);
    if j == i {
      assert r.calls[0] == prompt;
    } else {
      var rest := FoldFrom(llm, prompter, n, i + 1, answer);
      assert r.calls == [prompt] + rest.calls;
      assert r.calls[j - i] == rest.calls[j - (i + 1)];
      assert RunningAt(llm, prompter, seed, i + 1) == answer;
      FoldCallAt(llm, prompter, n, seed, i + 1, answer, j);
    }
  }

  /** A fold from the reference summary ends in success with one call per chunk and the last
      reference summary, or in `None` after at least one call. */
  lemma {:induction false} FoldEnd(llm: string -> string, prompter: Prompter, n: nat, seed: string,
                                   i: nat, running: string)
    requires i <= n && running == RunningAt(llm, prompter, seed, i)
    ensures var r := FoldFrom(llm, prompter, n, i, running);
      && (r.summary.Some? ==> |r.calls| == n - i && r.summary.value == RunningAt(llm, prompter, seed, n))
      && (r.summary.None? ==> |r.calls| >= 1)
    decreases n - i
  {
    if i < n {
      var answer := llm(prompter(i, running));
      if answer != "" {
        assert RunningAt(llm, prompter, seed, i + 1) == answer;
        FoldEnd(llm, prompter, n, seed, i + 1, answer);
      }
    }
  }

  /** Among the answers a fold received, the reference summary after answer k is empty exactly
      when k is the last call of a fold that failed. */
  lemma {:induction false} FoldAnswerAt(llm: string -> string, prompter: Prompter, n: nat, seed: string,
                                        i: nat, running: string, k: nat)
    requires i <= n && running == RunningAt(llm, prompter, seed, i)
    requires i < k <= i + |FoldFrom(llm, prompter, n, i, running).calls|
    ensures var r := FoldFrom(llm, prompter, n, i, running);
      RunningAt(llm, prompter, seed, k) == "" <==> r.summary.None? && k == i + |r.calls|
    decreases n - i
  {
    var prompt := prompter(i, running);
    var answer := llm(prompt);
    var r := FoldFrom(llm, prompter, n, i, running);
    assert RunningAt(llm, prompter, seed, i + 1) == answer;
    if answer == "" {
      assert |r.calls| == 1;
    } else {
      var rest := FoldFrom(llm, prompter, n, i + 1, answer);
      assert r.calls == [prompt] + rest.calls && r.summary == rest.summary;
      if k > i + 1 {
        FoldAnswerAt(llm, prompter, n, seed, i + 1, answer, k);
      } else {
        FoldEnd(llm, prompter, n, seed, i + 1, answer);
      }
    }
  }

  /** A whole fold from the seed: call k is the prompt of chunk k with the k-th reference
      summary; the fold succeeds exactly when no reference summary after the seed is empty,
      yielding the last one after one call per chunk; otherwise it stops at the first empty
      answer, every earlier answer being non-empty. */
  lemma FoldSpec(llm: string -> string, prompter: Prompter, n: nat, seed: string)
    ensures var r := FoldFrom(llm, prompter, n, 0, seed);
      && (forall k: nat :: k < |r.calls| ==> r.calls[k] == prompter(k, RunningAt(llm, prompter, seed, k)))
      && (forall k: nat :: 0 < k < |r.calls| ==> RunningAt(llm, prompter, seed, k) != "")
      && (r.summary.Some? <==> AllAnswered(llm, prompter, seed, n))
      && (r.summary.Some? ==> |r.calls| == n && r.summary.value == RunningAt(llm, prompter, seed, n))
      && (r.summary.None? ==> 1 <= |r.calls| && RunningAt(llm, prompter, seed, |r.calls|) == "")
  {
    var r := FoldFrom(llm, prompter, n, 0, seed);
    forall k: nat | k < |r.calls| ensures r.calls[k] == prompter(k, RunningAt(llm, prompter, seed, k)) {
      FoldCallAt(llm, prompter, n, seed, 0, seed, k);
    }
    FoldEnd(llm, prompter, n, seed, 0, seed);
    forall k: nat | 0 < k <= |r.calls|
      ensures RunningAt(llm, prompter, seed, k) == "" <==> r.summary.None? && k == |r.calls|
    {
      FoldAnswerAt(llm, prompter, n, seed, 0, seed, k);
    }
    assert forall k: nat :: 0 < k < |r.calls| ==> RunningAt(llm, prompter, seed, k) != "";
    if r.summary.None? {
      var last := |r.calls|;
      assert 0 < last <= n && RunningAt(llm, prompter, seed, last) == "";
      assert !AllAnswered(llm, prompter, seed, n);
    } else {
      assert |r.calls| == n;
      assert AllAnswered(llm, prompter, seed, n);
    }
  }

  /** The calls of a fold prefixed by calls made before it. */
  function Prepend(calls: seq<string>, r: FoldRun): FoldRun {
    FoldRun(r.summary, calls + r.calls)
  }

  /** The `for i, chunk in enumerate(chunks)` loop shared by every iterative summary. */
  method FoldChunks(llm: string -> string, prompter: Prompter, n: nat, seed: string)
    returns (summary: Option<string>, prompts: seq<string>)
    ensures FoldRun(summary, prompts) == FoldFrom(llm, prompter, n, 0, seed)
  {
    var runningSummary := seed;
    prompts := [];
    for i := 0 to n
      invariant FoldFrom(llm, prompter, n, 0, seed) == Prepend(prompts, FoldFrom(llm, prompter, n, i, runningSummary))
    {
      var prompt := prompter(i, runningSummary);
      var newSummary := llm(prompt);
      ghost var rest := FoldFrom(llm, prompter, n, i + 1, newSummary);
      assert newSummary != "" ==> prompts + ([prompt] + rest.calls) == (prompts + [prompt]) + rest.calls;
      prompts := prompts + [prompt];
      if newSummary == "" {
        return None, prompts;
      }
      runningSummary := newSummary;
    }
    return Some(runningSummary), prompts;
  }

  /** A second fold seeded with the result of the first, run only if the first succeeded. */
  function Chain(llm: string -> string, first: FoldRun, prompter: Prompter, n: nat): FoldRun {
    if first.summary.None? then first
    else Prepend(first.calls, FoldFrom(llm, prompter, n, 0, first.summary.value))
  }

  /** Two chained folds: all calls of the first come before any of the second, the second is
      seeded with the first's final summary, and any empty answer gives `None`. */
  lemma ChainSpec(llm: string -> string, p1: Prompter, n1: nat, seed: string, p2: Prompter, n2: nat)
    ensures var r := Chain(llm, FoldFrom(llm, p1, n1, 0, seed), p2, n2);
      var mid := RunningAt(llm, p1, seed, n1);
      && |r.calls| <= n1 + n2
      && (forall k: nat :: k < |r.calls| && k < n1 ==> r.calls[k] == p1(k, RunningAt(llm, p1, seed, k)))
      && (forall k: nat :: n1 <= k < |r.calls| ==> r.calls[k] == p2(k - n1, RunningAt(llm, p2, mid, k - n1)))
      && (r.summary.Some? <==> AllAnswered(llm, p1, seed, n1) && AllAnswered(llm, p2, mid, n2))
      && (r.summary.Some? ==> |r.calls| == n1 + n2 && r.summary.value == RunningAt(llm, p2, mid, n2))
  {
    var a := FoldFrom(llm, p1, n1, 0, seed);
    FoldSpec(llm, p1, n1, seed);
    if a.summary.Some? {
      var mid := RunningAt(llm, p1, seed, n1);
      FoldSpec(llm, p2, n2, mid);
      var b := FoldFrom(llm, p2, n2, 0, mid);
      var r := Chain(llm, a, p2, n2);
      assert r.calls == a.calls + b.calls;
      forall k: nat | n1 <= k < |r.calls|
        ensures r.calls[k] == p2(k - n1, RunningAt(llm, p2, mid, k - n1))
      {
        assert r.calls[k] == b.calls[k - n1];
      }
    }
  }

  /** The fold over a list of chunks with the prompts of one step. */
  function FoldOver(llm: string -> string, step: Step, chunks: seq<string>, seed: string): FoldRun {
    FoldFrom(llm, StepPrompter(step, chunks), |chunks|, 0, seed)
  }

  /** The loop over the chunks of one step. */
  method FoldStep(llm: string -> string, step: Step, chunks: seq<string>, seed: string)
    returns (summary: Option<string>, prompts: seq<string>)
    ensures FoldRun(summary, prompts) == FoldOver(llm, step, chunks, seed)
  {
    summary, prompts := FoldChunks(llm, StepPrompter(step, chunks), |chunks|, seed);
  }

  // ---------------------------------------------------------------------------------------
  // The iterative summaries
  // ---------------------------------------------------------------------------------------

  /** The chunks of a method's code: the whole code when it fits the context, else the token
      windows. */
  function CodeChunks(p: Processor, sourceCode: string): (r: seq<string>)
    requires p.tm.ChunkSize() >= 1
    ensures p.tm.GetTokenCount(sourceCode) <= p.tm.maxContextTokenSize ==> r == [sourceCode]
    ensures |r| >= 1
  {
    if p.tm.GetTokenCount(sourceCode) <= p.tm.maxContextTokenSize then [sourceCode]
    else
      TM.SizesOfManager(p.tm);
      TM.WindowsShape(p.tm.Tokens(sourceCode), p.tm.ChunkSize(), p.tm.Stride());
      TM.TextChunks(p.tm, sourceCode)
  }

  /** What `_analyze_code_iteratively` computes. */
  function AnalyzeCode(p: Processor, sourceCode: string): FoldRun
    requires p.tm.ChunkSize() >= 1
  {
    FoldOver(p.llm, AnalysisStep, CodeChunks(p, sourceCode), "")
  }

  /** `_analyze_code_iteratively`. */
  method AnalyzeCodeIteratively(p: Processor, sourceCode: string) returns (summary: Option<string>, prompts: seq<string>)
    requires p.tm.ChunkSize() >= 1
    ensures FoldRun(summary, prompts) == AnalyzeCode(p, sourceCode)
  {
    var tokenCount := p.tm.GetTokenCount(sourceCode);
    var chunks: seq<string>;
    if tokenCount <= p.tm.maxContextTokenSize {
      chunks := [sourceCode];
    } else {
      chunks := TM.ChunkTextByTokens(p.tm, sourceCode);
    }
    summary, prompts := FoldStep(p.llm, AnalysisStep, chunks, "");
  }

  /** Code that fits is analysed with exactly one call, the whole-method prompt. */
  lemma AnalyzeSmallCode(p: Processor, sourceCode: string)
    requires p.tm.ChunkSize() >= 1
    requires p.tm.GetTokenCount(sourceCode) <= p.tm.maxContextTokenSize
    ensures AnalyzeCode(p, sourceCode).calls == [WholeMethodAnalysis]
    ensures var answer := p.llm(WholeMethodAnalysis);
      AnalyzeCode(p, sourceCode).summary == if answer == "" then None else Some(answer)
  {
  }

  /** What `_summarize_method_context_iteratively` computes: the callers fold, seeded with the
      code analysis, then the callees fold. */
  function MethodContext(p: Processor, codeAnalysis: string, callerSummaries: seq<string>,
                         calleeSummaries: seq<string>): FoldRun
  {
    var callerChunks := TM.SummaryChunks(p.tm, callerSummaries);
    var calleeChunks := TM.SummaryChunks(p.tm, calleeSummaries);
    Chain(p.llm, FoldOver(p.llm, CallersStep, callerChunks, codeAnalysis),
      StepPrompter(CalleesStep, calleeChunks), |calleeChunks|)
  }

  /** `_summarize_method_context_iteratively`. */
  method SummarizeMethodContextIteratively(p: Processor, codeAnalysis: string, callerSummaries: seq<string>,
                                           calleeSummaries: seq<string>)
    returns (summary: Option<string>, prompts: seq<string>)
    ensures FoldRun(summary, prompts) == MethodContext(p, codeAnalysis, callerSummaries, calleeSummaries)
  {
    var callerChunks := TM.ChunkSummariesByTokens(p.tm, callerSummaries);
    var s1, calls1 := FoldStep(p.llm, CallersStep, callerChunks, codeAnalysis);
    if s1.None? {
      return None, calls1;
    }
    var calleeChunks := TM.ChunkSummariesByTokens(p.tm, calleeSummaries);
    var s2, calls2 := FoldStep(p.llm, CalleesStep, calleeChunks, s1.value);
    return s2, calls1 + calls2;
  }

  /** The running summary a type fold starts from. */
  function TypeSeed(typeName: string, typeLabel: string): string {
    Article + typeLabel + NamedQuote + typeName + TypeSeedTail
  }

  /** What `_summarize_type_context_iteratively` computes: the parents fold from the fixed
      sentence, then the members fold. */
  function TypeContext(p: Processor, node: NodeData, parentSummaries: seq<string>,
                       memberSummaries: seq<string>): FoldRun
  {
    var parentChunks := TM.SummaryChunks(p.tm, parentSummaries);
    var memberChunks := TM.SummaryChunks(p.tm, memberSummaries);
    var seed := TypeSeed(node.name, node.typeLabel);
    Chain(p.llm, FoldOver(p.llm, ParentsStep(node.name, node.typeLabel), parentChunks, seed),
      StepPrompter(MembersStep(node.name, node.typeLabel), memberChunks), |memberChunks|)
  }

  /** `_summarize_type_context_iteratively`. */
  method SummarizeTypeContextIteratively(p: Processor, node: NodeData, parentSummaries: seq<string>,
                                         memberSummaries: seq<string>)
    returns (summary: Option<string>, prompts: seq<string>)
    ensures FoldRun(summary, prompts) == TypeContext(p, node, parentSummaries, memberSummaries)
  {
    var typeName := node.name;
    var typeLabel := node.typeLabel;
    var runningSummary := TypeSeed(typeName, typeLabel);
    var parentChunks := TM.ChunkSummariesByTokens(p.tm, parentSummaries);
    var s1, calls1 := FoldStep(p.llm, ParentsStep(typeName, typeLabel), parentChunks, runningSummary);
    if s1.None? {
      return None, calls1;
    }
    var memberChunks := TM.ChunkSummariesByTokens(p.tm, memberSummaries);
    var s2, calls2 := FoldStep(p.llm, MembersStep(typeName, typeLabel), memberChunks, s1.value);
    return s2, calls1 + calls2;
  }

  /** `node_data.get("path") or node_data.get("fqn") or node_data.get("name")`. */
  function NodeName(node: NodeData): (r: string)
    ensures Truthy(node.path) ==> r == node.path.value
    ensures !Truthy(node.path) && Truthy(node.fqn) ==> r == node.fqn.value
    ensures !Truthy(node.path) && !Truthy(node.fqn) ==> r == node.name
  {
    if Truthy(node.path) then node.path.value
    else if Truthy(node.fqn) then node.fqn.value
    else node.name
  }

  /** The running summary a hierarchical fold starts from. */
  function HierarchicalSeed(nodeType: string, nodeName: string): string {
    Article + nodeType + NamedQuote + nodeName + HierarchicalSeedTail
  }

  /** What `_summarize_hierarchical_iteratively` computes. */
  function HierarchicalContext(p: Processor, node: NodeData, nodeType: string, childSummaries: seq<string>): FoldRun {
    var name := NodeName(node);
    FoldOver(p.llm, ChildrenStep(nodeType, name), TM.SummaryChunks(p.tm, childSummaries),
      HierarchicalSeed(nodeType, name))
  }

  /** `_summarize_hierarchical_iteratively`. */
  method SummarizeHierarchicalIteratively(p: Processor, node: NodeData, nodeType: string, childSummaries: seq<string>)
    returns (summary: Option<string>, prompts: seq<string>)
    ensures FoldRun(summary, prompts) == HierarchicalContext(p, node, nodeType, childSummaries)
  {
    var nodeName := NodeName(node);
    var runningSummary := HierarchicalSeed(nodeType, nodeName);
    var childChunks := TM.ChunkSummariesByTokens(p.tm, childSummaries);
    summary, prompts := FoldStep(p.llm, ChildrenStep(nodeType, nodeName), childChunks, runningSummary);
  }

  // ---------------------------------------------------------------------------------------
  // The waterfalls
  // ---------------------------------------------------------------------------------------

  /** A summary result with the given status. */
  function SummaryResult(status: string, id: string, summary: string): Outcome {
    Returned(Some(NodeResult(status, id, map[KeySummary := summary])))
  }

  /** What a regeneration can end with: nothing, an exception, or a `regenerated` summary
      result for the node with a non-empty summary as its only field. */
  predicate RegenOutcome(r: Run, id: string) {
    r.outcome.Returned? && r.outcome.result.Some? ==>
      var res := r.outcome.result.value;
      res.status == Regenerated && res.id == id && res.fields.Keys == {KeySummary} && res.fields[KeySummary] != ""
  }

  /** The regenerate step: a truthy new summary becomes a `regenerated` result. */
  function Regenerate(id: string, f: FoldRun): (r: Run)
    ensures RegenOutcome(r, id) && r.outcome.Returned? && r.calls == f.calls
    ensures r.outcome.result.Some? <==> f.summary.Some? && f.summary.value != ""
    ensures r.outcome.result.Some? ==> r.outcome.result.value.fields[KeySummary] == f.summary.value
  {
    if f.summary.Some? && f.summary.value != "" then Run(SummaryResult(Regenerated, id, f.summary.value), f.calls)
    else Run(Returned(None), f.calls)
  }

  /** A single-shot generation: one call; its answer is the new summary. */
  function SingleShot(llm: string -> string, prompt: string): FoldRun {
    FoldRun(Some(llm(prompt)), [prompt])
  }

  /** Whether the database summary is used: present, non-empty, and nothing it depends on
      changed. */
  predicate DbServes(node: NodeData, stale: bool) {
    Truthy(node.dbSummary) && !stale
  }

  /** Whether the cached summary is used, the database check having failed. */
  predicate CacheServes(node: NodeData, cached: Option<string>, stale: bool) {
    !DbServes(node, stale) && Truthy(cached) && !stale
  }

  /** What the three summary waterfalls share: `unchanged` exactly when the database value
      serves, `restored` exactly when the cache serves, both without any LLM call and both only
      when not stale; otherwise a `regenerated` result with a non-empty summary, `None`, or an
      exception. */
  predicate SummaryWaterfall(r: Run, node: NodeData, cached: Option<string>, stale: bool) {
    && (DbServes(node, stale) ==> r == Run(SummaryResult(StatusUnchanged, node.id, node.dbSummary.value), []))
    && (CacheServes(node, cached, stale) ==> r == Run(SummaryResult(StatusRestored, node.id, cached.value), []))
    && (r.outcome.Returned? && r.outcome.result.Some? ==>
          var res := r.outcome.result.value;
          && res.id == node.id
          && res.fields.Keys == {KeySummary}
          && (res.status == StatusUnchanged || res.status == StatusRestored ==> !stale && res.fields[KeySummary] != "")
          && (res.status == StatusUnchanged <==> DbServes(node, stale))
          && (res.status == StatusRestored <==> CacheServes(node, cached, stale))
          && (res.status == Regenerated <==> !DbServes(node, stale) && !CacheServes(node, cached, stale)))
  }

  /** The database check, then the cache check, then the given regeneration. */
  function Waterfall(node: NodeData, cached: Option<string>, stale: bool, regen: Run): (r: Run)
    requires RegenOutcome(regen, node.id)
    ensures SummaryWaterfall(r, node, cached, stale)
    ensures !DbServes(node, stale) && !CacheServes(node, cached, stale) ==> r == regen
    ensures regen.outcome.Returned? ==> r.outcome.Returned?
  {
    if Truthy(node.dbSummary) && !stale then
      Run(SummaryResult(StatusUnchanged, node.id, node.dbSummary.value), [])
    else if Truthy(cached) && !stale then
      Run(SummaryResult(StatusRestored, node.id, cached.value), [])
    else regen
  }

  /** Whether the method code analysis in the database is current. */
  predicate DbAnalysisServes(p: Processor, node: NodeData) {
    Truthy(node.sourceCode) && Truthy(node.dbAnalysis) && node.dbHash == Some(p.hash(node.sourceCode.value))
  }

  /** Whether the cached code analysis is current, the database check having failed. */
  predicate CacheAnalysisServes(p: Processor, node: NodeData) {
    Truthy(node.sourceCode) && !DbAnalysisServes(p, node)
    && Lookup(p.cache, node.id, KeyCodeHash) == Some(p.hash(node.sourceCode.value))
    && Truthy(Lookup(p.cache, node.id, KeyCodeAnalysis))
  }

  /** A code analysis result. */
  function AnalysisResult(status: string, id: string, analysis: string, hash: string): Outcome {
    Returned(Some(NodeResult(status, id, map[KeyCodeAnalysis := analysis, KeyCodeHash := hash])))
  }

  /** `get_method_code_analysis`. */
  function GetMethodCodeAnalysis(p: Processor, node: NodeData): (r: Run)
    requires p.tm.ChunkSize() >= 1
    ensures !Truthy(node.sourceCode) ==> r == Run(Returned(None), [])
    ensures r.outcome.Returned?
    ensures DbAnalysisServes(p, node) ==>
      r == Run(AnalysisResult(StatusUnchanged, node.id, node.dbAnalysis.value, p.hash(node.sourceCode.value)), [])
    ensures CacheAnalysisServes(p, node) ==>
      r == Run(AnalysisResult(StatusRestored, node.id, Lookup(p.cache, node.id, KeyCodeAnalysis).value,
                              p.hash(node.sourceCode.value)), [])
    ensures Truthy(node.sourceCode) && !DbAnalysisServes(p, node) && !CacheAnalysisServes(p, node) ==>
      var a := AnalyzeCode(p, node.sourceCode.value);
      && r.calls == a.calls
      && (r.outcome.result.Some? <==> a.summary.Some? && a.summary.value != "")
      && (r.outcome.result.Some? ==>
            r.outcome == AnalysisResult(Regenerated, node.id, a.summary.value, p.hash(node.sourceCode.value)))
    ensures r.calls != [] ==> Truthy(node.sourceCode) && !DbAnalysisServes(p, node) && !CacheAnalysisServes(p, node)
  {
    if !Truthy(node.sourceCode) then Run(Returned(None), [])
    else
      var sourceCode := node.sourceCode.value;
      var newHash := p.hash(sourceCode);
      if Truthy(node.dbAnalysis) && node.dbHash == Some(newHash) then
        Run(AnalysisResult(StatusUnchanged, node.id, node.dbAnalysis.value, newHash), [])
      else if Lookup(p.cache, node.id, KeyCodeHash) == Some(newHash) && Truthy(Lookup(p.cache, node.id, KeyCodeAnalysis)) then
        Run(AnalysisResult(StatusRestored, node.id, Lookup(p.cache, node.id, KeyCodeAnalysis).value, newHash), [])
      else
        var a := AnalyzeCode(p, sourceCode);
        if a.summary.Some? && a.summary.value != "" then
          Run(AnalysisResult(Regenerated, node.id, a.summary.value, newHash), a.calls)
        else
          Run(Returned(None), a.calls)
  }

  /** The cached callers' and callees' summaries and the code analysis, space-joined: the
      context whose size picks single-shot or iterative generation. */
  function MethodFullContext(codeAnalysis: string, callers: seq<string>, callees: seq<string>): string {
    Join(" ", [codeAnalysis] + callers + callees)
  }

  /** The regeneration of a method summary: nothing without a cached code analysis; one call
      with the whole-context prompt when the context is strictly below the limit; else the
      callers fold then the callees fold. */
  function MethodRegeneration(p: Processor, node: NodeData): (r: Run)
    ensures RegenOutcome(r, node.id) && r.outcome.Returned?
    ensures var ca := Lookup(p.cache, node.id, KeyCodeAnalysis);
      var callers := CachedSummaries(p.cache, node.callers);
      var callees := CachedSummaries(p.cache, node.callees);
      && (!Truthy(ca) ==> r == Run(Returned(None), []))
      && (Truthy(ca) && p.tm.GetTokenCount(MethodFullContext(ca.value, callers, callees)) < p.tm.maxContextTokenSize ==>
            r == Regenerate(node.id, SingleShot(p.llm, MethodSummaryPrompt(node.name, ca.value, callers, callees))))
      && (Truthy(ca) && p.tm.GetTokenCount(MethodFullContext(ca.value, callers, callees)) >= p.tm.maxContextTokenSize ==>
            r == Regenerate(node.id, MethodContext(p, ca.value, callers, callees)))
  {
    var codeAnalysis := Lookup(p.cache, node.id, KeyCodeAnalysis);
    if !Truthy(codeAnalysis) then Run(Returned(None), [])
    else
      var callers := CachedSummaries(p.cache, node.callers);
      var callees := CachedSummaries(p.cache, node.callees);
      var fullContext := MethodFullContext(codeAnalysis.value, callers, callees);
      if p.tm.GetTokenCount(fullContext) < p.tm.maxContextTokenSize then
        Regenerate(node.id, SingleShot(p.llm, MethodSummaryPrompt(node.name, codeAnalysis.value, callers, callees)))
      else
        Regenerate(node.id, MethodContext(p, codeAnalysis.value, callers, callees))
  }

  /** `get_method_summary`. Staleness looks at the method itself only. */
  function GetMethodSummary(p: Processor, node: NodeData): (r: Run)
    ensures var stale := Stale(p.status, [node.id]);
      var cached := Lookup(p.cache, node.id, KeySummary);
      && SummaryWaterfall(r, node, cached, stale)
      && (!DbServes(node, stale) && !CacheServes(node, cached, stale) ==> r == MethodRegeneration(p, node))
    ensures r.outcome.Returned?
  {
    Waterfall(node, Lookup(p.cache, node.id, KeySummary), Stale(p.status, [node.id]), MethodRegeneration(p, node))
  }

  /** The regeneration of a type summary: one call with the whole-context prompt when the
      parents' and members' summaries are strictly below the limit; else the parents fold then
      the members fold. */
  function TypeRegeneration(p: Processor, node: NodeData): (r: Run)
    ensures RegenOutcome(r, node.id) && r.outcome.Returned?
    ensures var parents := CachedSummaries(p.cache, node.parentIds);
      var members := CachedSummaries(p.cache, node.memberIds);
      && (p.tm.GetTokenCount(Join(" ", parents + members)) < p.tm.maxContextTokenSize ==>
            r == Regenerate(node.id, SingleShot(p.llm, TypeSummaryPrompt(node.name, node.typeLabel, parents, members))))
      && (p.tm.GetTokenCount(Join(" ", parents + members)) >= p.tm.maxContextTokenSize ==>
            r == Regenerate(node.id, TypeContext(p, node, parents, members)))
  {
    var parents := CachedSummaries(p.cache, node.parentIds);
    var members := CachedSummaries(p.cache, node.memberIds);
    if p.tm.GetTokenCount(Join(" ", parents + members)) < p.tm.maxContextTokenSize then
      Regenerate(node.id, SingleShot(p.llm, TypeSummaryPrompt(node.name, node.typeLabel, parents, members)))
    else
      Regenerate(node.id, TypeContext(p, node, parents, members))
  }

  /** `get_type_summary`. Staleness looks at the parents and the members. */
  function GetTypeSummary(p: Processor, node: NodeData): (r: Run)
    ensures var stale := Stale(p.status, node.parentIds + node.memberIds);
      var cached := Lookup(p.cache, node.id, KeySummary);
      && SummaryWaterfall(r, node, cached, stale)
      && (!DbServes(node, stale) && !CacheServes(node, cached, stale) ==> r == TypeRegeneration(p, node))
    ensures r.outcome.Returned?
  {
    Waterfall(node, Lookup(p.cache, node.id, KeySummary), Stale(p.status, node.parentIds + node.memberIds),
      TypeRegeneration(p, node))
  }

  /** The regeneration of a hierarchical summary: nothing without cached child summaries; below
      the limit, an exception for an unknown node type or else two calls with the same prompt
      (lines 440 and 455), the second answer kept; at or above the limit, the children fold and
      then an exception, since `prompt` was never assigned on that path. */
  function HierarchicalRegeneration(p: Processor, node: NodeData, nodeType: string): (r: Run)
    ensures RegenOutcome(r, node.id)
    ensures var children := CachedSummaries(p.cache, node.dependencyIds);
      var small := p.tm.GetTokenCount(Join(" ", children)) < p.tm.maxContextTokenSize;
      var prompt := HierarchicalSummaryPrompt(nodeType, NodeName(node), Join("; ", children));
      && (children == [] ==> r == Run(Returned(None), []))
      && (children != [] && small && prompt.Err? ==> r == Run(Raised(prompt.error), []))
      && (children != [] && small && prompt.Ok? ==>
            r.calls == [prompt.value, prompt.value]
            && r.outcome == Regenerate(node.id, SingleShot(p.llm, prompt.value)).outcome)
      && (children != [] && !small ==>
            r == Run(Raised(UnboundPrompt), HierarchicalContext(p, node, nodeType, children).calls))
  {
    var children := CachedSummaries(p.cache, node.dependencyIds);
    if children == [] then Run(Returned(None), [])
    else if p.tm.GetTokenCount(Join(" ", children)) < p.tm.maxContextTokenSize then
      var context := Join("; ", children);
      match HierarchicalSummaryPrompt(nodeType, NodeName(node), context)
      case Err(e) => Run(Raised(e), [])
      case Ok(prompt) =>
        var first := p.llm(prompt);
        var second := SingleShot(p.llm, prompt);
        Run(Regenerate(node.id, second).outcome, [prompt] + second.calls)
    else
      var folded := HierarchicalContext(p, node, nodeType, children);
      Run(Raised(UnboundPrompt), folded.calls)
  }

  /** `get_hierarchical_summary`. A `Type` node goes to the type waterfall; any other node
      depends on its children. */
  function GetHierarchicalSummary(p: Processor, node: NodeData, nodeType: string): (r: Run)
    ensures nodeType == "Type" ==> r == GetTypeSummary(p, node)
    ensures nodeType != "Type" ==>
      var stale := Stale(p.status, node.dependencyIds);
      var cached := Lookup(p.cache, node.id, KeySummary);
      && SummaryWaterfall(r, node, cached, stale)
      && (!DbServes(node, stale) && !CacheServes(node, cached, stale) ==> r == HierarchicalRegeneration(p, node, nodeType))
  {
    if nodeType == "Type" then GetTypeSummary(p, node)
    else
      Waterfall(node, Lookup(p.cache, node.id, KeySummary), Stale(p.status, node.dependencyIds),
        HierarchicalRegeneration(p, node, nodeType))
  }

  /** A regenerated analysis, once merged into the cache, is served from the cache on the next
      run of the same node without calling the LLM (unless the database already serves it). */
  lemma AnalysisRestoredAfterRegeneration(p: Processor, node: NodeData)
    requires p.tm.ChunkSize() >= 1
    requires var r := GetMethodCodeAnalysis(p, node);
      r.outcome.Returned? && r.outcome.result.Some? && r.outcome.result.value.status == Regenerated
    ensures var res := GetMethodCodeAnalysis(p, node).outcome.result.value;
      var next := GetMethodCodeAnalysis(p.(cache := Updated(p.cache, node.id, res.fields)), node);
      && next.calls == []
      && next.outcome == AnalysisResult(StatusRestored, node.id, res.fields[KeyCodeAnalysis], res.fields[KeyCodeHash])
  {
    var res := GetMethodCodeAnalysis(p, node).outcome.result.value;
    var p2 := p.(cache := Updated(p.cache, node.id, res.fields));
    assert Lookup(p2.cache, node.id, KeyCodeHash) == Some(res.fields[KeyCodeHash]);
    assert Lookup(p2.cache, node.id, KeyCodeAnalysis) == Some(res.fields[KeyCodeAnalysis]);
  }
}
