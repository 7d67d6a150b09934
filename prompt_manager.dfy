/** The prompt templates sent to the LLM. Every template is conditional string formatting;
    the ones that reject an unknown relation or node type return `Err` with the message of
    the `ValueError` the source raises. Each contract says which inputs reach the prompt text.
    The fixed pieces of text are named constants, adjacent literals already concatenated. */
module PromptManager {
  import opened Common

  const NoReasoning := "Do not respond with your reasoning process, only the summary."
  const NewParagraph := "Provide a new, single-paragraph summary. " + NoReasoning

  // ---- get_method_analysis_prompt ----
  const WholeMethodHead :=
    "Summarize the purpose of this method based on its code. "
    + "Provide a concise, one-paragraph technical analysis. " + NoReasoning
  const FirstPartHead :=
    "Summarize this code, which is the beginning of a larger "
    + "method. Provide a concise, one-paragraph technical analysis. " + NoReasoning
  const OpenFence := "\n\n```\n"
  const CloseFence := "\n```"
  /** The literal placeholder of the first-chunk prompts. */
  const ChunkPlaceholder := "{chunk}"
  /** The first-chunk analysis prompts are plain strings, not f-strings: `{chunk}` is sent
      as it is and the chunk itself never appears. */
  const WholeMethodAnalysis := WholeMethodHead + OpenFence + ChunkPlaceholder + CloseFence
  const FirstPartAnalysis := FirstPartHead + OpenFence + ChunkPlaceholder + CloseFence
  const NextPartHead := "The summary of the first part of a large method so far is: \n" + "'"
  const NextPartMiddle := "'\n\n" + "Here is the next part of the code:\n```\n"
  const NextPartFence := "\n```\n\n"
  const LastPartSentence := "This is the end of the method body."
  const MorePartSentence := "The method body continues after this code."
  const NextPartTail := "\n\n" + "Please provide a new, single-paragraph summary that combines "
    + "the previous summary with this new code. " + NoReasoning

  // ---- get_method_summary_prompt ----
  const MethodNameHead := "A method named '"
  const AnalyzedAs := "' is technically analyzed as: " + "'"
  const CalledBy := "'.\n" + "It is called by other methods with these responsibilities: " + "["
  const Calls := "].\n" + "It calls other methods to accomplish these tasks: " + "["
  const MethodSummaryTail := "].\n\n" + "Based on this full context, what is the high-level purpose of "
    + "this method in the overall system? Describe it in a concise "
    + "paragraph. " + NoReasoning
  const NoneText := "None"

  // ---- get_iterative_method_summary_prompt ----
  const CallersHead := "A method's purpose is summarized as: " + "'"
  const CallersMiddle := "'.\n" + "It is used by other methods with the following responsibilities: " + "["
  const CallersTail := "].\n\n" + "Refine the summary of the method's role in relation to its callers. "
    + NewParagraph
  const CalleesHead := "So far, a method's role is summarized as: " + "'"
  const CalleesMiddle := "'.\n" + "It accomplishes this by calling other methods for these purposes: " + "["
  const CalleesTail := "].\n\n" + "Provide a final, comprehensive summary of the method's "
    + "overall purpose based on its callees. " + NewParagraph

  // ---- get_type_summary_prompt ----
  const ParentLead := "It inherits from or implements the following types: ["
  const MemberLead := "It contains members (methods, fields) with these responsibilities: ["
  const ListClose := "]."
  const Article := "A "
  const NamedQuote := " named '"
  const IsDefined := "' is defined. "
  const Space := " "
  const TypeQuestion := "\n\n" + "Based on its inheritance and members, what is the primary responsibility and role of the '"
  const InTheSystem := " in the system? " + "Describe it in a concise paragraph. " + NoReasoning
  const QuoteSpace := "' "

  // ---- get_iterative_type_summary_prompt ----
  const SummaryForThe := "The summary for the "
  const SpaceQuote := " '"
  const IsCurrently := "' is currently: '"
  const ParentsMiddle := "'.\n" + "It inherits from or implements types with these roles: " + "["
  const ParentsTail := "].\n\n" + "Refine the summary to include the role of its inheritance. " + NewParagraph
  const SoFarRoleOfThe := "So far, the role of the "
  const IsSummarizedAs := "' is summarized as: '"
  const MembersMiddle := "'.\n" + "It implements members (methods, fields) to perform these functions: " + "["
  const MembersTail := "].\n\n" + "Provide a final, comprehensive summary of the type's overall purpose. "
    + NewParagraph

  // ---- get_hierarchical_summary_prompt / get_iterative_hierarchical_prompt ----
  const HierarchicalLead := "Based on the following context, provide a concise summary for the "
  const ContextHeader := "'." + "\nContext:\n"
  const SummaryHeader := "\nSummary:\n"
  const PurposeOf := "Purpose of "
  const UnclearTail := "' is unclear due to missing context."
  const ChildrenMiddle := "'.\n" + "It contains child components with the following responsibilities: " + "["
  const RefineFor := "].\n\n" + "Refine the summary for the "
  const NewInformation := "' based on this new information. " + NewParagraph

  /** A text of the shape head, x, middle, y, tail, which holds both x and y. */
  function Frame(head: string, x: string, middle: string, y: string, tail: string): (r: string)
    ensures IsInfix(x, r) && IsInfix(y, r)
  {
    InfixOfConcat(head, x, middle + y + tail);
    assert head + x + (middle + y + tail) == head + x + middle + y + tail;
    InfixOfConcat(head + x + middle, y, tail);
    head + x + middle + y + tail
  }

  /** Whatever occurs in the tail of a framed text occurs in the text. */
  lemma FrameTail(head: string, x: string, middle: string, y: string, tail: string, p: string)
    requires IsInfix(p, tail)
    ensures IsInfix(p, Frame(head, x, middle, y, tail))
  {
    InfixPrepend(p, head + x + middle + y, tail);
  }

  /** Whatever occurs in the first slot of a framed text occurs in the text. */
  lemma FrameFirst(head: string, x: string, middle: string, y: string, tail: string, p: string)
    requires IsInfix(p, x)
    ensures IsInfix(p, Frame(head, x, middle, y, tail))
  {
    InfixExtend(p, x, head, middle + y + tail);
    assert head + x + (middle + y + tail) == head + x + middle + y + tail;
  }

  /** Whatever occurs in the second slot of a framed text occurs in the text. */
  lemma FrameSecond(head: string, x: string, middle: string, y: string, tail: string, p: string)
    requires IsInfix(p, y)
    ensures IsInfix(p, Frame(head, x, middle, y, tail))
  {
    InfixExtend(p, y, head + x + middle, tail);
  }

  /** The closing sentence of a non-first analysis prompt. */
  function PositionSentence(isLastChunk: bool): string {
    if isLastChunk then LastPartSentence else MorePartSentence
  }

  /** `get_method_analysis_prompt`: the prompt for one chunk of a method's source code. */
  function MethodAnalysisPrompt(chunk: string, isFirstChunk: bool, isLastChunk: bool,
                                runningSummary: string): (r: string)
    ensures isFirstChunk ==> IsInfix(ChunkPlaceholder, r)
    ensures !isFirstChunk ==>
              IsInfix(chunk, r) && IsInfix(runningSummary, r) && IsInfix(PositionSentence(isLastChunk), r)
  {
    if isFirstChunk then
      InfixOfConcat(WholeMethodHead + OpenFence, ChunkPlaceholder, CloseFence);
      InfixOfConcat(FirstPartHead + OpenFence, ChunkPlaceholder, CloseFence);
      if isLastChunk then WholeMethodAnalysis else FirstPartAnalysis
    else
      var pos := PositionSentence(isLastChunk);
      var tail := NextPartFence + pos + NextPartTail;
      InfixOfConcat(NextPartFence, pos, NextPartTail);
      FrameTail(NextPartHead, runningSummary, NextPartMiddle, chunk, tail, pos);
      Frame(NextPartHead, runningSummary, NextPartMiddle, chunk, tail)
  }

  /** `"; ".join(xs) if xs else "None"`: how the caller and callee lists are rendered. */
  function ListText(xs: seq<string>): (r: string)
    ensures xs == [] ==> r == NoneText
    ensures forall k :: 0 <= k < |xs| ==> IsInfix(xs[k], r)
  {
    forall k | 0 <= k < |xs| ensures IsInfix(xs[k], Join("; ", xs)) {
      JoinContains("; ", xs, k);
    }
    if xs == [] then NoneText else Join("; ", xs)
  }

  /** `get_method_summary_prompt`: the single-shot prompt for a method's role. An empty list of
      callers or callees is rendered as `[None]`. */
  function MethodSummaryPrompt(methodName: string, codeAnalysis: string,
                               callers: seq<string>, callees: seq<string>): (r: string)
    ensures IsInfix(methodName, r) && IsInfix(codeAnalysis, r)
    ensures callers == [] ==> IsInfix(CalledBy + NoneText, r)
    ensures callees == [] ==> IsInfix(Calls + NoneText, r)
    ensures forall k :: 0 <= k < |callers| ==> IsInfix(callers[k], r)
    ensures forall k :: 0 <= k < |callees| ==> IsInfix(callees[k], r)
  {
    var ct := ListText(callers);
    var et := ListText(callees);
    var lists := Frame("", CalledBy + ct, "", Calls + et, MethodSummaryTail);
    var prompt := Frame(MethodNameHead, methodName, AnalyzedAs, codeAnalysis, lists);
    forall k | 0 <= k < |callers| ensures IsInfix(callers[k], prompt) {
      InfixPrepend(callers[k], CalledBy, ct);
      FrameFirst("", CalledBy + ct, "", Calls + et, MethodSummaryTail, callers[k]);
      FrameTail(MethodNameHead, methodName, AnalyzedAs, codeAnalysis, lists, callers[k]);
    }
    forall k | 0 <= k < |callees| ensures IsInfix(callees[k], prompt) {
      InfixPrepend(callees[k], Calls, et);
      FrameSecond("", CalledBy + ct, "", Calls + et, MethodSummaryTail, callees[k]);
      FrameTail(MethodNameHead, methodName, AnalyzedAs, codeAnalysis, lists, callees[k]);
    }
    assert callers == [] ==> IsInfix(CalledBy + NoneText, prompt) by {
      InfixSelf(CalledBy + ct);
      FrameFirst("", CalledBy + ct, "", Calls + et, MethodSummaryTail, CalledBy + ct);
      FrameTail(MethodNameHead, methodName, AnalyzedAs, codeAnalysis, lists, CalledBy + ct);
    }
    assert callees == [] ==> IsInfix(Calls + NoneText, prompt) by {
      InfixSelf(Calls + et);
      FrameSecond("", CalledBy + ct, "", Calls + et, MethodSummaryTail, Calls + et);
      FrameTail(MethodNameHead, methodName, AnalyzedAs, codeAnalysis, lists, Calls + et);
    }
    prompt
  }

  /** The callers step of the iterative method summary. */
  function CallersRefinementPrompt(runningSummary: string, relationChunk: string): (r: string)
    ensures IsInfix(runningSummary, r) && IsInfix(relationChunk, r)
  {
    Frame(CallersHead, runningSummary, CallersMiddle, relationChunk, CallersTail)
  }

  /** The callees step of the iterative method summary. */
  function CalleesRefinementPrompt(runningSummary: string, relationChunk: string): (r: string)
    ensures IsInfix(runningSummary, r) && IsInfix(relationChunk, r)
  {
    Frame(CalleesHead, runningSummary, CalleesMiddle, relationChunk, CalleesTail)
  }

  /** `get_iterative_method_summary_prompt`: only "callers" and "callees" are accepted. */
  function IterativeMethodSummaryPrompt(runningSummary: string, relationChunk: string,
                                        relationType: string): (r: Result<string>)
    ensures r.Ok? <==> relationType == "callers" || relationType == "callees"
    ensures r.Ok? ==> IsInfix(runningSummary, r.value) && IsInfix(relationChunk, r.value)
    ensures r.Err? ==> r.error == "Unknown relation_type: " + relationType
  {
    if relationType == "callers" then Ok(CallersRefinementPrompt(runningSummary, relationChunk))
    else if relationType == "callees" then Ok(CalleesRefinementPrompt(runningSummary, relationChunk))
    else Err("Unknown relation_type: " + relationType)
  }

  /** A bracketed list sentence that is empty when the list is. */
  function ListSentence(lead: string, xs: seq<string>): (r: string)
    ensures r == "" <==> xs == []
    ensures forall k :: 0 <= k < |xs| ==> IsInfix(xs[k], r)
  {
    if xs == [] then ""
    else
      var j := Join("; ", xs);
      forall k | 0 <= k < |xs| ensures IsInfix(xs[k], lead + j + ListClose) {
        JoinContains("; ", xs, k);
        InfixExtend(xs[k], j, lead, ListClose);
      }
      lead + j + ListClose
  }

  /** The parent sentence of the single-shot type prompt. */
  function ParentSentence(parentSummaries: seq<string>): (r: string)
    ensures r == "" <==> parentSummaries == []
    ensures forall k :: 0 <= k < |parentSummaries| ==> IsInfix(parentSummaries[k], r)
  {
    ListSentence(ParentLead, parentSummaries)
  }

  /** The member sentence of the single-shot type prompt. */
  function MemberSentence(memberSummaries: seq<string>): (r: string)
    ensures r == "" <==> memberSummaries == []
    ensures forall k :: 0 <= k < |memberSummaries| ==> IsInfix(memberSummaries[k], r)
  {
    ListSentence(MemberLead, memberSummaries)
  }

  /** `get_type_summary_prompt`: the single-shot prompt for a type. */
  function TypeSummaryPrompt(typeName: string, typeLabel: string,
                             parentSummaries: seq<string>, memberSummaries: seq<string>): (r: string)
    ensures IsInfix(typeName, r) && IsInfix(typeLabel, r)
    ensures forall k :: 0 <= k < |parentSummaries| ==> IsInfix(parentSummaries[k], r)
    ensures forall k :: 0 <= k < |memberSummaries| ==> IsInfix(memberSummaries[k], r)
  {
    var pt := ParentSentence(parentSummaries);
    var mt := MemberSentence(memberSummaries);
    var question := TypeQuestion + typeName + QuoteSpace + typeLabel + InTheSystem;
    var sentences := Frame(IsDefined, pt, Space, mt, question);
    var prompt := Frame(Article, typeLabel, NamedQuote, typeName, sentences);
    forall k | 0 <= k < |parentSummaries| ensures IsInfix(parentSummaries[k], prompt) {
      FrameFirst(IsDefined, pt, Space, mt, question, parentSummaries[k]);
      FrameTail(Article, typeLabel, NamedQuote, typeName, sentences, parentSummaries[k]);
    }
    forall k | 0 <= k < |memberSummaries| ensures IsInfix(memberSummaries[k], prompt) {
      FrameSecond(IsDefined, pt, Space, mt, question, memberSummaries[k]);
      FrameTail(Article, typeLabel, NamedQuote, typeName, sentences, memberSummaries[k]);
    }
    prompt
  }

  /** The parents step of the iterative type summary. */
  function ParentsRefinementPrompt(typeName: string, typeLabel: string, runningSummary: string,
                                   relationChunk: string): (r: string)
    ensures IsInfix(runningSummary, r) && IsInfix(relationChunk, r)
  {
    Frame(SummaryForThe + typeLabel + SpaceQuote + typeName + IsCurrently, runningSummary,
      ParentsMiddle, relationChunk, ParentsTail)
  }

  /** The members step of the iterative type summary. */
  function MembersRefinementPrompt(typeName: string, typeLabel: string, runningSummary: string,
                                   relationChunk: string): (r: string)
    ensures IsInfix(runningSummary, r) && IsInfix(relationChunk, r)
  {
    Frame(SoFarRoleOfThe + typeLabel + SpaceQuote + typeName + IsSummarizedAs, runningSummary,
      MembersMiddle, relationChunk, MembersTail)
  }

  /** `get_iterative_type_summary_prompt`: only "parents" and "members" are accepted. */
  function IterativeTypeSummaryPrompt(typeName: string, typeLabel: string, runningSummary: string,
                                      relationChunk: string, relationType: string): (r: Result<string>)
    ensures r.Ok? <==> relationType == "parents" || relationType == "members"
    ensures r.Ok? ==> IsInfix(runningSummary, r.value) && IsInfix(relationChunk, r.value)
    ensures r.Err? ==> r.error == "Unknown relation_type for type summary: " + relationType
  {
    if relationType == "parents" then
      Ok(ParentsRefinementPrompt(typeName, typeLabel, runningSummary, relationChunk))
    else if relationType == "members" then
      Ok(MembersRefinementPrompt(typeName, typeLabel, runningSummary, relationChunk))
    else Err("Unknown relation_type for type summary: " + relationType)
  }

  /** The node types the single-shot hierarchical prompt knows, with the noun it uses for each. */
  function HierarchicalNoun(nodeType: string): Option<string> {
    if nodeType == "SourceFile" then Some("source file")
    else if nodeType == "Directory" then Some("directory")
    else if nodeType == "Package" then Some("package")
    else if nodeType == "Project" then Some("project")
    else None
  }

  /** `get_hierarchical_summary_prompt`. An unknown node type is rejected before the context
      is looked at; an empty context gives the fixed "unclear" sentence. */
  function HierarchicalSummaryPrompt(nodeType: string, nodeName: string, context: string): (r: Result<string>)
    ensures r.Ok? <==> nodeType in ["SourceFile", "Directory", "Package", "Project"]
    ensures r.Err? ==> r.error == "Unknown node_type for hierarchical summary: " + nodeType
    ensures r.Ok? && context == "" ==> r.value == PurposeOf + nodeType + SpaceQuote + nodeName + UnclearTail
    ensures r.Ok? && context != "" ==> IsInfix(context, r.value) && IsInfix(nodeName, r.value)
  {
    var noun := HierarchicalNoun(nodeType);
    if noun.None? then Err("Unknown node_type for hierarchical summary: " + nodeType)
    else if context == "" then Ok(PurposeOf + nodeType + SpaceQuote + nodeName + UnclearTail)
    else Ok(Frame(HierarchicalLead + noun.value + NamedQuote, nodeName, ContextHeader, context, SummaryHeader))
  }

  /** `get_iterative_hierarchical_prompt`: one fold step for a file, directory, package or project. */
  function IterativeHierarchicalPrompt(nodeType: string, nodeName: string, runningSummary: string,
                                       childSummariesChunk: string): (r: string)
    ensures IsInfix(nodeType, r) && IsInfix(nodeName, r)
    ensures IsInfix(runningSummary, r) && IsInfix(childSummariesChunk, r)
  {
    var tail := RefineFor + nodeType + SpaceQuote + nodeName + NewInformation;
    var refinement := Frame(IsCurrently, runningSummary, ChildrenMiddle, childSummariesChunk, tail);
    FrameTail(SummaryForThe, nodeType, SpaceQuote, nodeName, refinement, runningSummary);
    FrameTail(SummaryForThe, nodeType, SpaceQuote, nodeName, refinement, childSummariesChunk);
    Frame(SummaryForThe, nodeType, SpaceQuote, nodeName, refinement)
  }

  /** The first-chunk prompts do not depend on the chunk or the running summary: the code of
      the first chunk never reaches the LLM. */
  lemma FirstChunkPromptIgnoresChunk(c1: string, c2: string, isLastChunk: bool, s1: string, s2: string)
    ensures MethodAnalysisPrompt(c1, true, isLastChunk, s1) == MethodAnalysisPrompt(c2, true, isLastChunk, s2)
  {
  }
}
