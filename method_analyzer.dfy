/** The method pass's snippet extraction: a method's code is the range of lines of its source
    file between its first and last line numbers, both inclusive and counted from 1. */
module MethodAnalyzer {
  import opened Common
  import opened NodeSummaryProcessor

  /** What reading a file gives: its lines as `readlines` returns them (each with its line
      ending), or an exception (a decoding error, a permission error). */
  datatype FileContent = Lines(lines: seq<string>) | Unreadable

  /** The file system: a path that is not a key does not exist. */
  type Files = map<string, FileContent>

  /** `os.path.isabs` on POSIX: the path starts with `/`. */
  predicate IsAbsolute(path: string) {
    |path| > 0 && path[0] == '/'
  }

  /** Whether the 1-based inclusive range fits a file of n lines and is not empty or reversed. */
  predicate ValidRange(first: int, last: int, n: nat) {
    1 <= first <= last <= n
  }

  /** `_extract_method_code_snippet`: `None` for a relative, missing or unreadable file and for
      line numbers out of range; otherwise the lines first..last joined without separator. */
  function ExtractMethodCodeSnippet(files: Files, path: string, first: int, last: int): (r: Option<string>)
    ensures r.Some? <==>
      IsAbsolute(path) && path in files && files[path].Lines?
      && ValidRange(first, last, |files[path].lines|)
    ensures r.Some? ==> r.value == Concat(files[path].lines[first - 1..last])
  {
    if !IsAbsolute(path) || path !in files then None
    else
      match files[path]
      case Unreadable => None
      case Lines(lines) =>
        var startIndex := first - 1;
        var endIndex := last;
        if !(0 <= startIndex < endIndex <= |lines|) then None
        else Some(Concat(lines[startIndex..endIndex]))
  }

  /** A valid range's snippet is the snippet of lines first..mid followed by that of lines
      mid+1..last, for any mid in between: lines are taken in order, none dropped or repeated. */
  lemma SnippetSplits(files: Files, path: string, first: int, mid: int, last: int)
    requires first <= mid < last
    requires ExtractMethodCodeSnippet(files, path, first, last).Some?
    ensures var whole := ExtractMethodCodeSnippet(files, path, first, last);
      var left := ExtractMethodCodeSnippet(files, path, first, mid);
      var right := ExtractMethodCodeSnippet(files, path, mid + 1, last);
      left.Some? && right.Some? && whole.value == left.value + right.value
  {
    var lines := files[path].lines;
    assert lines[first - 1..last] == lines[first - 1..mid] + lines[mid..last];
    ConcatAppend(lines[first - 1..mid], lines[mid..last]);
  }

  /** A one-line range is that line. */
  lemma SingleLineSnippet(files: Files, path: string, line: int)
    requires ExtractMethodCodeSnippet(files, path, line, line).Some?
    ensures ExtractMethodCodeSnippet(files, path, line, line).value == files[path].lines[line - 1]
  {
    var lines := files[path].lines;
    assert lines[line - 1..line] == [lines[line - 1]];
    assert Concat([lines[line - 1]]) == lines[line - 1] + Concat([]);
  }

  /** The range 1..n of an n-line file is the whole file. */
  lemma WholeFileSnippet(files: Files, path: string)
    requires IsAbsolute(path) && path in files && files[path].Lines? && |files[path].lines| > 0
    ensures ExtractMethodCodeSnippet(files, path, 1, |files[path].lines|) == Some(Concat(files[path].lines))
  {
    var lines := files[path].lines;
    assert lines[0..|lines|] == lines;
  }

  /** A row of the method query: the node record (with its stored analysis and hash), the
      source file's absolute path and the two line numbers. */
  datatype MethodItem = MethodItem(node: NodeData, sourceFilePath: string, firstLine: int, lastLine: int)

  /** `_prepare_item`: stores the extracted snippet (or `None`) as the item's source code and
      leaves the rest of the item. */
  function PrepareItem(files: Files, item: MethodItem): (r: MethodItem)
    ensures r.node.sourceCode == ExtractMethodCodeSnippet(files, item.sourceFilePath, item.firstLine, item.lastLine)
    ensures r.(node := r.node.(sourceCode := item.node.sourceCode)) == item
  {
    item.(node := item.node.(sourceCode := ExtractMethodCodeSnippet(files, item.sourceFilePath, item.firstLine, item.lastLine)))
  }

  /** A prepared item whose snippet could not be extracted makes the analysis return `None`
      without calling the LLM. */
  lemma UnextractableMakesNoCall(p: Processor, files: Files, item: MethodItem)
    requires p.tm.ChunkSize() >= 1
    requires ExtractMethodCodeSnippet(files, item.sourceFilePath, item.firstLine, item.lastLine).None?
    ensures GetMethodCodeAnalysis(p, PrepareItem(files, item).node) == Run(Returned(None), [])
  {
  }
}
