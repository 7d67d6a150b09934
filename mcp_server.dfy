/** The MCP server's pure pieces: the read-only guard in front of ad-hoc Cypher queries, the
    file slicing that serves a method's source, and the choice between a slice and the
    whole file. Database lookups and file reads are inputs. */
module McpServer {
  import opened Common

  // ---------------------------------------------------------------- read-only guard

  const ReadOnlyKeywords: seq<string> := ["MATCH", "OPTIONAL MATCH", "WHERE", "RETURN", "UNWIND", "CALL", "WITH"]
  const WriteKeywords: seq<string> := ["CREATE", "SET", "DELETE", "MERGE", "REMOVE", "DETACH"]

  const ReadOnlyError := "Query must contain a read-only keyword."
  const WriteError := "Write operations are not allowed."

  /** A character of the `\w` class: an ASCII letter or digit, or `_`. */
  predicate IsWordChar(c: char) {
    ('a' <= c <= 'z') || ('A' <= c <= 'Z') || ('0' <= c <= '9') || c == '_'
  }

  /** Whether position i of q is a word boundary (`\b`): exactly one of the characters on
      either side of it is a word character, the ends counting as non-word. */
  predicate Boundary(q: string, i: nat)
    requires i <= |q|
  {
    (i > 0 && IsWordChar(q[i - 1])) != (i < |q| && IsWordChar(q[i]))
  }

  /** kw occurs in q at position i, ignoring case. */
  predicate OccursCaseless(q: string, kw: string, i: nat) {
    i + |kw| <= |q| && forall j :: 0 <= j < |kw| ==> UpperChar(q[i + j]) == UpperChar(kw[j])
  }

  /** `\bkw\b` matches q at position i, ignoring case. */
  predicate MatchesAt(q: string, kw: string, i: nat) {
    OccursCaseless(q, kw, i) && Boundary(q, i) && Boundary(q, i + |kw|)
  }

  /** `re.search(r'\b' + kw + r'\b', q, re.IGNORECASE)` finds a match. */
  predicate ContainsWord(q: string, kw: string) {
    exists i: nat | i <= |q| :: MatchesAt(q, kw, i)
  }

  /** `any(...)` over a keyword list. */
  predicate ContainsAnyWord(q: string, kws: seq<string>) {
    exists k :: 0 <= k < |kws| && ContainsWord(q, kws[k])
  }

  /** The answer of the query tool: an error, or the rows the database returned. */
  datatype Response<T> = ErrorResponse(error: string) | ResultsResponse(results: T)

  /** `execute_cypher_query`: the read check first, then the write check, then the query is
      run (`run` is the database, `Err` its exception). */
  function ExecuteCypherQuery<T>(query: string, run: string -> Result<T>): (r: Response<T>)
    ensures !ContainsAnyWord(query, ReadOnlyKeywords) <==> r == ErrorResponse(ReadOnlyError)
    ensures r == ErrorResponse(WriteError) <==>
      ContainsAnyWord(query, ReadOnlyKeywords) && ContainsAnyWord(query, WriteKeywords)
    ensures r.ResultsResponse? <==>
      ContainsAnyWord(query, ReadOnlyKeywords) && !ContainsAnyWord(query, WriteKeywords) && run(query).Ok?
    ensures r.ResultsResponse? ==> r.results == run(query).value
  {
    if !ContainsAnyWord(query, ReadOnlyKeywords) then ErrorResponse(ReadOnlyError)
    else if ContainsAnyWord(query, WriteKeywords) then ErrorResponse(WriteError)
    else match run(query)
      case Ok(rows) => ResultsResponse(rows)
      case Err(e) =>
        var message := "Could not execute query: " + e;
        assert message[0] == 'C' && WriteError[0] == 'W' && ReadOnlyError[0] == 'Q';
        ErrorResponse(message)
  }

  /** Upper-casing a character does not change whether it is a word character. */
  lemma WordCharCaseless(c: char)
    ensures IsWordChar(LowerChar(c)) == IsWordChar(c)
    ensures UpperChar(LowerChar(c)) == UpperChar(c)
  {
  }

  /** An occurrence ignoring case ignores the case of the query. */
  lemma OccurrenceCaseless(q: string, kw: string, i: nat)
    ensures OccursCaseless(Lower(q), kw, i) <==> OccursCaseless(q, kw, i)
  {
    var l := Lower(q);
    if i + |kw| <= |q| {
      forall k | i <= k < i + |kw| ensures UpperChar(l[k]) == UpperChar(q[k]) {
        WordCharCaseless(q[k]);
      }
    }
  }

  /** Word boundaries do not depend on case. */
  lemma BoundaryCaseless(q: string, i: nat)
    requires i <= |q|
    ensures Boundary(Lower(q), i) == Boundary(q, i)
  {
    if i > 0 {
      WordCharCaseless(q[i - 1]);
    }
    if i < |q| {
      WordCharCaseless(q[i]);
    }
  }

  /** Matching at a position ignores the case of the query. */
  lemma MatchesAtCaseless(q: string, kw: string, i: nat)
    ensures MatchesAt(Lower(q), kw, i) <==> MatchesAt(q, kw, i)
  {
    OccurrenceCaseless(q, kw, i);
    if i + |kw| <= |q| {
      BoundaryCaseless(q, i);
      BoundaryCaseless(q, i + |kw|);
    }
  }

  /** The guard ignores the case of the query: a query and its lower-case form are answered
      alike. */
  lemma GuardCaseless(q: string, kw: string)
    ensures ContainsWord(Lower(q), kw) <==> ContainsWord(q, kw)
  {
    if ContainsWord(q, kw) {
      var i: nat :| i <= |q| && MatchesAt(q, kw, i);
      MatchesAtCaseless(q, kw, i);
    }
    if ContainsWord(Lower(q), kw) {
      var i: nat :| i <= |Lower(q)| && MatchesAt(Lower(q), kw, i);
      MatchesAtCaseless(q, kw, i);
    }
  }

  /** A keyword does not match inside a longer word: not when a word character precedes it
      (`OFFSET` holds no `SET`), nor when one follows it (`CREATED` holds no `CREATE`). */
  lemma NoMatchInsideWord(q: string, kw: string, i: nat)
    requires kw != "" && IsWordChar(kw[0]) && IsWordChar(kw[|kw| - 1])
    requires OccursCaseless(q, kw, i)
    requires (i > 0 && IsWordChar(q[i - 1])) || (i + |kw| < |q| && IsWordChar(q[i + |kw|]))
    ensures !MatchesAt(q, kw, i)
  {
    assert UpperChar(q[i + 0]) == UpperChar(kw[0]);
    assert UpperChar(q[i + (|kw| - 1)]) == UpperChar(kw[|kw| - 1]);
    WordCharUpper(q[i], kw[0]);
    WordCharUpper(q[i + |kw| - 1], kw[|kw| - 1]);
  }

  /** Two characters equal up to case are both word characters or neither. */
  lemma WordCharUpper(a: char, b: char)
    requires UpperChar(a) == UpperChar(b)
    ensures IsWordChar(a) == IsWordChar(b)
  {
  }

  /** A query with no read keyword is refused as not read-only even when it writes. */
  lemma ReadCheckFirst<T>(query: string, run: string -> Result<T>)
    requires !ContainsAnyWord(query, ReadOnlyKeywords) && ContainsAnyWord(query, WriteKeywords)
    ensures ExecuteCypherQuery(query, run) == ErrorResponse(ReadOnlyError)
  {
  }

  // ---------------------------------------------------------------- file slicing

  /** What reading a file gives: its lines, or the message of the exception raised. */
  datatype FileRead = Text(lines: seq<string>) | ReadError(message: string)

  /** A Python slice bound: a negative bound counts from the end; both are clamped to 0..n. */
  function SliceBound(x: int, n: nat): (r: nat)
    ensures r <= n
    ensures 0 <= x <= n ==> r == x
    ensures x > n ==> r == n
    ensures 0 <= x + n && x < 0 ==> r == x + n
    ensures x + n < 0 ==> r == 0
  {
    if x < 0 then (if x + n < 0 then 0 else x + n) else if x > n then n else x
  }

  /** `xs[a:b]`. */
  function PySlice<X>(xs: seq<X>, a: int, b: int): (r: seq<X>)
    ensures SliceBound(a, |xs|) < SliceBound(b, |xs|) ==> r == xs[SliceBound(a, |xs|)..SliceBound(b, |xs|)]
    ensures SliceBound(a, |xs|) >= SliceBound(b, |xs|) ==> r == []
  {
    var lo, hi := SliceBound(a, |xs|), SliceBound(b, |xs|);
    if lo < hi then xs[lo..hi] else []
  }

  /** `_read_file_slice`: lines start..end (1-based, inclusive) joined, with Python's slice
      clamping; a read failure gives its message. */
  function ReadFileSlice(file: FileRead, startLine: int, endLine: int): (r: string)
    ensures file.ReadError? ==> r == "Error reading file: " + file.message
  {
    match file
    case ReadError(e) => "Error reading file: " + e
    case Text(lines) => Concat(PySlice(lines, startLine - 1, endLine))
  }

  /** A range inside the file is its lines first..last, as the method pass extracts them. */
  lemma SliceInRange(lines: seq<string>, startLine: int, endLine: int)
    requires 1 <= startLine <= endLine <= |lines|
    ensures ReadFileSlice(Text(lines), startLine, endLine) == Concat(lines[startLine - 1..endLine])
  {
  }

  /** An end past the last line is read as the last line. */
  lemma SliceEndClamped(lines: seq<string>, startLine: int, endLine: int)
    requires endLine > |lines|
    ensures ReadFileSlice(Text(lines), startLine, endLine) == ReadFileSlice(Text(lines), startLine, |lines|)
  {
  }

  /** A reversed or empty range reads nothing. */
  lemma SliceReversed(lines: seq<string>, startLine: int, endLine: int)
    requires 1 <= endLine < startLine
    ensures ReadFileSlice(Text(lines), startLine, endLine) == ""
  {
  }

  /** A start of 0 counts from the end: a slice from line 0 is the last line alone. */
  lemma ZeroStartIsLastLine(lines: seq<string>, endLine: int)
    requires |lines| > 0 && endLine >= |lines|
    ensures ReadFileSlice(Text(lines), 0, endLine) == lines[|lines| - 1]
  {
    assert lines[|lines| - 1..|lines|] == [lines[|lines| - 1]];
    assert Concat([lines[|lines| - 1]]) == lines[|lines| - 1] + Concat([]);
  }

  // ---------------------------------------------------------------- source by id

  /** The lookup row of an entity: its labels, line numbers and source file path. */
  datatype NodeInfo = NodeInfo(labels: seq<string>, startLine: Option<int>, endLine: Option<int>, filePath: Option<string>)

  /** The answer of the source tool. */
  datatype SourceResponse = SourceResponse(id: string, sourceCode: string)

  /** Whether an optional line number is truthy: present and not 0. */
  predicate TruthyLine(x: Option<int>) {
    x.Some? && x.value != 0
  }

  /** Whether a slice is served: the entity is a method with both line numbers truthy. */
  predicate ServesSlice(info: NodeInfo) {
    "Method" in info.labels && TruthyLine(info.startLine) && TruthyLine(info.endLine)
  }

  /** `get_source_code_by_id`: `lookup` is the query's first row (`None` when there is none,
      `Err` when the query raises), `files` the readable files by path. */
  function GetSourceCodeById(entityId: string, lookup: Result<Option<NodeInfo>>, files: map<string, FileRead>): (r: SourceResponse)
    ensures r.id == entityId
    ensures (lookup.Ok? && lookup.value.Some? && Truthy(lookup.value.value.filePath)
             && lookup.value.value.filePath.value in files) ==>
      var info := lookup.value.value;
      var file := files[info.filePath.value];
      if ServesSlice(info) then r.sourceCode == ReadFileSlice(file, info.startLine.value, info.endLine.value)
      else r.sourceCode == (if file.Text? then Concat(file.lines)
                            else "Error: Could not retrieve source code: " + file.message)
  {
    match lookup
    case Err(e) => SourceResponse(entityId, "Error: Could not retrieve source code: " + e)
    case Ok(None) => SourceResponse(entityId, "Error: Node not found.")
    case Ok(Some(info)) =>
      if !Truthy(info.filePath) then SourceResponse(entityId, "Error: Node has no associated source file.")
      else if info.filePath.value !in files then
        SourceResponse(entityId, "Error: File not found on disk: " + info.filePath.value)
      else
        var file := files[info.filePath.value];
        if ServesSlice(info) then
          SourceResponse(entityId, ReadFileSlice(file, info.startLine.value, info.endLine.value))
        else match file
          case Text(lines) => SourceResponse(entityId, Concat(lines))
          case ReadError(e) => SourceResponse(entityId, "Error: Could not retrieve source code: " + e)
  }

  /** The error answers: no row, no path, a missing file. */
  lemma SourceErrors(entityId: string, info: NodeInfo, files: map<string, FileRead>)
    ensures GetSourceCodeById(entityId, Ok(None), files).sourceCode == "Error: Node not found."
    ensures !Truthy(info.filePath) ==>
      GetSourceCodeById(entityId, Ok(Some(info)), files).sourceCode == "Error: Node has no associated source file."
    ensures Truthy(info.filePath) && info.filePath.value !in files ==>
      GetSourceCodeById(entityId, Ok(Some(info)), files).sourceCode == "Error: File not found on disk: " + info.filePath.value
  {
  }

  /** A method with its line range inside the file is served exactly those lines; any other
      entity with a readable file is served the whole file. */
  lemma MethodServedItsLines(entityId: string, info: NodeInfo, lines: seq<string>, files: map<string, FileRead>)
    requires Truthy(info.filePath) && info.filePath.value in files && files[info.filePath.value] == Text(lines)
    ensures ServesSlice(info) && 1 <= info.startLine.value <= info.endLine.value <= |lines| ==>
      GetSourceCodeById(entityId, Ok(Some(info)), files).sourceCode == Concat(lines[info.startLine.value - 1..info.endLine.value])
    ensures !ServesSlice(info) ==> GetSourceCodeById(entityId, Ok(Some(info)), files).sourceCode == Concat(lines)
  {
    if ServesSlice(info) && 1 <= info.startLine.value <= info.endLine.value <= |lines| {
      SliceInRange(lines, info.startLine.value, info.endLine.value);
    }
  }
}
