/** Token counting and the two chunkers. The tokenizer is a pair of uninterpreted functions
    (`encode`, `decode`) carried by the manager; everything else is the arithmetic and list
    handling of the source. */
module TokenManager {
  import opened Common

  // ---------------------------------------------------------------------------------------
  // Special-token sanitizing: the regex `<\|[^|]+?\|>` replaced by `< |inner| >`.
  // ---------------------------------------------------------------------------------------

  /** s starts with a special token whose inner part has n characters. */
  predicate SpecialTokenOfLength(s: string, n: nat) {
    n >= 1 && n + 4 <= |s| && s[0] == '<' && s[1] == '|' && '|' !in s[2..2 + n]
    && s[2 + n] == '|' && s[3 + n] == '>'
  }

  /** The inner length of the special token at the start of s, if there is one. The inner part
      cannot hold `|`, so the lazy match has at most one candidate length. */
  function SpecialTokenAt(s: string): (r: Option<nat>)
    ensures forall n: nat :: r == Some(n) <==> SpecialTokenOfLength(s, n)
  {
    if |s| >= 2 && s[0] == '<' && s[1] == '|' && '|' in s[2..] then
      var j := FirstIndex(s[2..], '|');
      assert s[2..][..j] == s[2..2 + j];
      forall n: nat | SpecialTokenOfLength(s, n) ensures n == j {
        assert s[2..][n] == '|';
      }
      if j >= 1 && 2 + j + 1 < |s| && s[3 + j] == '>' then Some(j) else None
    else
      None
  }

  /** No `<|` occurs in s: nothing the pattern could match. */
  predicate NoOpener(s: string) {
    forall i :: 0 <= i < |s| - 1 ==> !(s[i] == '<' && s[i + 1] == '|')
  }

  lemma NoOpenerTail(s: string)
    requires s != [] && NoOpener(s)
    ensures NoOpener(s[1..])
  {
    forall i | 0 <= i < |s[1..]| - 1 ensures !(s[1..][i] == '<' && s[1..][i + 1] == '|') {
      assert s[1..][i] == s[i + 1] && s[1..][i + 1] == s[i + 2];
    }
  }

  /** `_sanitize_special_tokens`: a leftmost, non-overlapping scan, as `re.sub` performs it. */
  function Sanitize(s: string): (r: string)
    ensures |r| >= |s|
    ensures NoOpener(s) ==> r == s
    decreases |s|
  {
    if s == [] then []
    else match SpecialTokenAt(s)
      case Some(n) =>
        assert SpecialTokenOfLength(s, n);
        "< |" + s[2..2 + n] + "| >" + Sanitize(s[n + 4..])
      case None =>
        assert NoOpener(s) ==> NoOpener(s[1..]) by {
          if NoOpener(s) { NoOpenerTail(s); }
        }
        [s[0]] + Sanitize(s[1..])
  }

  /** A text that is exactly one special token is rewritten with spaces inside its brackets. */
  lemma SanitizeSingleToken(s: string)
    requires |s| >= 4 && SpecialTokenOfLength(s, |s| - 4)
    ensures Sanitize(s) == "< |" + s[2..|s| - 2] + "| >"
  {
    assert SpecialTokenAt(s) == Some(|s| - 4);
    assert s[|s|..] == [];
  }

  // ---------------------------------------------------------------------------------------
  // Sizes.
  // ---------------------------------------------------------------------------------------

  /** Python `int(x)` of a float: truncation toward zero. */
  function TruncDiv(a: int, d: nat): (r: int)
    requires d > 0
    ensures a >= 0 ==> r == a / d
    ensures a < 0 ==> r == -((-a) / d)
  {
    if a >= 0 then a / d else -((-a) / d)
  }

  /** The manager: the context size it was built with and the tokenizer. */
  datatype TokenManager = TokenManager(maxContextTokenSize: int,
                                       encode: string -> seq<int>,
                                       decode: seq<int> -> string)
  {
    /** `int(0.5 * max_context_token_size)`; a halving is exact in binary floating point. */
    function ChunkSize(): int {
      TruncDiv(maxContextTokenSize, 2)
    }

    /** `int(0.1 * iterative_chunk_size)`. The double nearest to 0.1 lies above 0.1, so the product
        never drops below the exact tenth, and the integer part is that of the exact tenth. */
    function Overlap(): int {
      TruncDiv(ChunkSize(), 10)
    }

    function Stride(): int {
      ChunkSize() - Overlap()
    }

    /** `get_token_count`: the length of the encoding of the sanitized text. */
    function GetTokenCount(text: string): nat {
      |encode(Sanitize(text))|
    }

    /** The tokens `chunk_text_by_tokens` slices. */
    function Tokens(text: string): seq<int> {
      encode(Sanitize(text))
    }
  }

  /** The stride is positive exactly when the chunk size is, which happens exactly when the
      context size is at least 2; the overlap then lies in [0, chunk size). */
  lemma SizesOfManager(tm: TokenManager)
    ensures tm.Stride() > 0 <==> tm.ChunkSize() >= 1
    ensures tm.ChunkSize() >= 1 <==> tm.maxContextTokenSize >= 2
    ensures tm.ChunkSize() >= 1 ==> 0 <= tm.Overlap() < tm.ChunkSize() && tm.Stride() <= tm.ChunkSize()
  {
  }

  /** The default context size of 8192 gives chunks of 4096 tokens with 409 tokens of overlap. */
  lemma DefaultSizes(tm: TokenManager)
    requires tm.maxContextTokenSize == 8192
    ensures tm.ChunkSize() == 4096 && tm.Overlap() == 409 && tm.Stride() == 3687
  {
  }

  // ---------------------------------------------------------------------------------------
  // chunk_text_by_tokens
  // ---------------------------------------------------------------------------------------

  /** The windows the loop emits from position i on: a window of `cs` tokens per stride, the
      rest taken whole once it fits, and a short tail (under half a chunk) merged into the
      window before it. */
  function WindowsFrom(t: seq<int>, cs: nat, st: nat, i: nat): (r: seq<seq<int>>)
    requires 1 <= st <= cs && i < |t|
    ensures |r| >= 1
    decreases |t| - i
  {
    if i + cs >= |t| then [t[i..]]
    else if i + st + cs >= |t| && 2 * (|t| - (i + st)) < cs then [t[i..]]
    else [t[i..i + cs]] + WindowsFrom(t, cs, st, i + st)
  }

  /** The token windows of a whole sequence; none for an empty sequence. */
  function Windows(t: seq<int>, cs: nat, st: nat): seq<seq<int>>
    requires 1 <= st <= cs
  {
    if t == [] then [] else WindowsFrom(t, cs, st, 0)
  }

  /** `[decode(c) for c in chunks]`. */
  function DecodeAll(decode: seq<int> -> string, ws: seq<seq<int>>): (r: seq<string>)
    ensures |r| == |ws| && forall k :: 0 <= k < |ws| ==> r[k] == decode(ws[k])
  {
    seq(|ws|, k requires 0 <= k < |ws| => decode(ws[k]))
  }

  /** The decoded windows of the sanitized, encoded text. */
  function TextChunks(tm: TokenManager, text: string): seq<string>
    requires tm.ChunkSize() >= 1
  {
    SizesOfManager(tm);
    DecodeAll(tm.decode, Windows(tm.Tokens(text), tm.ChunkSize(), tm.Stride()))
  }

  /** `chunk_text_by_tokens`. A chunk size below 1 makes the source loop forever, hence the
      precondition; the default context size satisfies it. */
  method ChunkTextByTokens(tm: TokenManager, text: string) returns (chunks: seq<string>)
    requires tm.ChunkSize() >= 1
    ensures chunks == TextChunks(tm, text)
  {
    SizesOfManager(tm);
    var tokens := tm.encode(Sanitize(text));
    if |tokens| == 0 {
      return [];
    }
    var windows := SlideWindows(tokens, tm.ChunkSize(), tm.Stride());
    chunks := DecodeAll(tm.decode, windows);
  }

  /** The `while True` loop: windows of `chunkSize` tokens a stride apart, the last one
      running to the end and absorbing a small remainder. */
  method SlideWindows(tokens: seq<int>, chunkSize: nat, stride: nat) returns (windows: seq<seq<int>>)
    requires 1 <= stride <= chunkSize && |tokens| > 0
    ensures windows == WindowsFrom(tokens, chunkSize, stride, 0)
  {
    windows := [];
    var i: nat := 0;
    ghost var all := WindowsFrom(tokens, chunkSize, stride, 0);
    while true
      invariant i < |tokens|
      invariant windows + WindowsFrom(tokens, chunkSize, stride, i) == all
      decreases |tokens| - i
    {
      if i + chunkSize >= |tokens| {
        WindowsTail(tokens, chunkSize, stride, i, windows, all);
        windows := windows + [tokens[i..]];
        break;
      }
      ghost var before := windows;
      windows := windows + [tokens[i..i + chunkSize]];
      i := i + stride;
      if i + chunkSize >= |tokens| && 2 * (|tokens| - i) < chunkSize {
        windows := windows[|windows| - 1 := tokens[i - stride..]];
        assert windows == before + [tokens[i - stride..]];
        WindowsMerge(tokens, chunkSize, stride, i - stride, before, all);
        break;
      }
      WindowsAdvance(tokens, chunkSize, stride, i - stride, before, all);
    }
  }

  /** The loop's exit when the rest fits one window: it is the last window. */
  lemma WindowsTail(t: seq<int>, cs: nat, st: nat, i: nat, before: seq<seq<int>>, all: seq<seq<int>>)
    requires 1 <= st <= cs && i < |t| && i + cs >= |t| && before + WindowsFrom(t, cs, st, i) == all
    ensures before + [t[i..]] == all
  {
  }

  /** The loop's exit when the rest after one more stride is small: the window at i is
      widened to the end and is the last. */
  lemma WindowsMerge(t: seq<int>, cs: nat, st: nat, i: nat, before: seq<seq<int>>, all: seq<seq<int>>)
    requires 1 <= st <= cs && i < |t| && i + cs < |t|
    requires i + st + cs >= |t| && 2 * (|t| - (i + st)) < cs
    requires before + WindowsFrom(t, cs, st, i) == all
    ensures before + [t[i..]] == all
  {
  }

  /** One full window and a stride forward keep the loop's invariant. */
  lemma WindowsAdvance(t: seq<int>, cs: nat, st: nat, i: nat, before: seq<seq<int>>, all: seq<seq<int>>)
    requires 1 <= st <= cs && i < |t| && i + cs < |t|
    requires !(i + st + cs >= |t| && 2 * (|t| - (i + st)) < cs)
    requires before + WindowsFrom(t, cs, st, i) == all
    ensures i + st < |t| && (before + [t[i..i + cs]]) + WindowsFrom(t, cs, st, i + st) == all
  {
    assert WindowsFrom(t, cs, st, i) == [t[i..i + cs]] + WindowsFrom(t, cs, st, i + st);
    AppendAssoc(before, [t[i..i + cs]], WindowsFrom(t, cs, st, i + st));
  }

  /** Before the last window, the recursion took its third branch. */
  lemma WindowsFromStep(t: seq<int>, cs: nat, st: nat, i: nat)
    requires 1 <= st <= cs && i < |t| && |WindowsFrom(t, cs, st, i)| >= 2
    ensures i + cs < |t| && i + st < |t|
    ensures WindowsFrom(t, cs, st, i) == [t[i..i + cs]] + WindowsFrom(t, cs, st, i + st)
  {
  }

  /** Window k (not the last) starts at token i + k * stride and holds exactly `cs` tokens. */
  lemma WindowAt(t: seq<int>, cs: nat, st: nat, i: nat, k: nat)
    requires 1 <= st <= cs && i < |t| && k < |WindowsFrom(t, cs, st, i)| - 1
    ensures i + k * st + cs < |t| && WindowsFrom(t, cs, st, i)[k] == t[i + k * st..i + k * st + cs]
  {
    WindowStarting(t, cs, st, i, k, i + k * st);
  }

  /** Window k of those from i, for `start` the token i + k * stride. */
  lemma {:induction false} WindowStarting(t: seq<int>, cs: nat, st: nat, i: nat, k: nat, start: nat)
    requires 1 <= st <= cs && i < |t| && k < |WindowsFrom(t, cs, st, i)| - 1 && start == i + k * st
    ensures start + cs < |t| && WindowsFrom(t, cs, st, i)[k] == t[start..start + cs]
    decreases k
  {
    WindowsFromIndex(t, cs, st, i);
    if k > 0 {
      MulStep(k - 1, st);
      WindowStarting(t, cs, st, i + st, k - 1, start);
    }
  }

  /** Before the last window, window k > 0 from i is window k - 1 from one stride on. */
  lemma WindowsFromIndex(t: seq<int>, cs: nat, st: nat, i: nat)
    requires 1 <= st <= cs && i < |t| && |WindowsFrom(t, cs, st, i)| >= 2
    ensures i + cs < |t| && i + st < |t|
    ensures var ws := WindowsFrom(t, cs, st, i);
      var rest := WindowsFrom(t, cs, st, i + st);
      ws[0] == t[i..i + cs] && |rest| == |ws| - 1
      && forall k :: 0 < k < |ws| ==> ws[k] == rest[k - 1]
  {
    WindowsFromStep(t, cs, st, i);
  }

  /** The last window starts at token i + (n - 1) * stride and runs to the final token. */
  lemma {:induction false} LastWindow(t: seq<int>, cs: nat, st: nat, i: nat)
    requires 1 <= st <= cs && i < |t|
    ensures var ws := WindowsFrom(t, cs, st, i);
      i + (|ws| - 1) * st < |t| && ws[|ws| - 1] == t[i + (|ws| - 1) * st..]
    decreases |t| - i
  {
    var ws := WindowsFrom(t, cs, st, i);
    var n := |ws| - 1;
    if n == 0 {
      assert n * st == 0;
      assert ws == [t[i..]];
    } else {
      WindowsFromStep(t, cs, st, i);
      var rest := WindowsFrom(t, cs, st, i + st);
      LastWindow(t, cs, st, i + st);
      assert |rest| - 1 == n - 1;
      assert ws[n] == rest[n - 1];
      assert i + st + (n - 1) * st == i + n * st by { MulStep(n - 1, st); }
    }
  }

  lemma MulStep(k: nat, st: nat)
    ensures (k + 1) * st == k * st + st
  {
  }

  /** The windows of the text: the empty list exactly for no tokens; window k starts at
      k * stride; all but the last are full; the last ends at the final token. */
  lemma WindowsShape(t: seq<int>, cs: nat, st: nat)
    requires 1 <= st <= cs
    ensures var ws := Windows(t, cs, st);
      (ws == [] <==> t == [])
      && (t != [] ==>
        (forall k :: 0 <= k < |ws| - 1 ==> k * st + cs < |t| && |ws[k]| == cs && ws[k] == t[k * st..k * st + cs])
        && (|ws| - 1) * st < |t| && ws[|ws| - 1] == t[(|ws| - 1) * st..])
  {
    if t != [] {
      var ws := Windows(t, cs, st);
      forall k | 0 <= k < |ws| - 1 ensures k * st + cs < |t| && |ws[k]| == cs && ws[k] == t[k * st..k * st + cs] {
        WindowAt(t, cs, st, 0, k);
      }
      LastWindow(t, cs, st, 0);
    }
  }

  /** Once there are two windows or more, the last one is at least half a chunk long: a shorter
      tail was merged. A merged last window is longer than a chunk by less than half a chunk
      plus the overlap: its part after the previous window's start plus one stride is under
      half a chunk. */
  lemma {:induction false} LastWindowNotTiny(t: seq<int>, cs: nat, st: nat, i: nat)
    requires 1 <= st <= cs && i < |t|
    requires i > 0 ==> !(i + cs >= |t| && 2 * (|t| - i) < cs)
    ensures var ws := WindowsFrom(t, cs, st, i);
      var last := ws[|ws| - 1];
      (|ws| >= 2 || i > 0 ==> 2 * |last| >= cs)
      && (|last| <= cs || 2 * (|last| - st) < cs)
    decreases |t| - i
  {
    var ws := WindowsFrom(t, cs, st, i);
    if i + cs >= |t| {
      if i > 0 {
        // The step that reached i did not merge, so this tail is at least half a chunk.
        assert ws == [t[i..]];
      }
    } else if i + st + cs >= |t| && 2 * (|t| - (i + st)) < cs {
    } else {
      LastWindowNotTiny(t, cs, st, i + st);
      var rest := WindowsFrom(t, cs, st, i + st);
      assert ws == [t[i..i + cs]] + rest;
      assert ws[|ws| - 1] == rest[|rest| - 1];
    }
  }

  /** The tail of a window after its overlap, or nothing when the window is shorter. */
  function DropOverlap(w: seq<int>, ov: nat): seq<int> {
    if ov <= |w| then w[ov..] else []
  }

  /** The later windows with their first `ov` tokens dropped, concatenated. */
  function ConcatDropped(ws: seq<seq<int>>, ov: nat): seq<int>
    decreases |ws|
  {
    if ws == [] then [] else DropOverlap(ws[0], ov) + ConcatDropped(ws[1..], ov)
  }

  /** The first window, then every later window without its overlap. */
  function Stitch(ws: seq<seq<int>>, ov: nat): seq<int> {
    if ws == [] then [] else ws[0] + ConcatDropped(ws[1..], ov)
  }

  /** Stitching a window in front of a list whose first window covers the overlap. */
  lemma StitchCons(w: seq<int>, rest: seq<seq<int>>, ov: nat)
    requires rest != [] && |rest[0]| >= ov
    ensures Stitch([w] + rest, ov) == w + Stitch(rest, ov)[ov..]
  {
    assert ([w] + rest)[1..] == rest;
    assert ConcatDropped(rest, ov) == rest[0][ov..] + ConcatDropped(rest[1..], ov);
    assert (rest[0] + ConcatDropped(rest[1..], ov))[ov..] == rest[0][ov..] + ConcatDropped(rest[1..], ov);
  }

  lemma StitchSingle(t: seq<int>, cs: nat, st: nat, i: nat)
    requires 1 <= st <= cs && i < |t| && |WindowsFrom(t, cs, st, i)| == 1
    ensures Stitch(WindowsFrom(t, cs, st, i), cs - st) == t[i..]
  {
    var ws := WindowsFrom(t, cs, st, i);
    LastWindow(t, cs, st, i);
    assert ws == [t[i..]];
    assert ws[1..] == [];
  }

  lemma {:induction false} StitchFrom(t: seq<int>, cs: nat, st: nat, i: nat)
    requires 1 <= st <= cs && i < |t|
    ensures Stitch(WindowsFrom(t, cs, st, i), cs - st) == t[i..]
    decreases |t| - i
  {
    var ws := WindowsFrom(t, cs, st, i);
    if |ws| == 1 {
      StitchSingle(t, cs, st, i);
    } else {
      WindowsFromStep(t, cs, st, i);
      var rest := WindowsFrom(t, cs, st, i + st);
      assert |rest[0]| >= cs - st by {
        if |rest| >= 2 {
          WindowsFromStep(t, cs, st, i + st);
        } else {
          LastWindow(t, cs, st, i + st);
        }
      }
      StitchFrom(t, cs, st, i + st);
      StitchStep(t, cs, st, i, rest);
    }
  }

  /** A full window followed by windows that stitch back to the tokens a stride on
      stitches back to the tokens from the window's start. */
  lemma StitchStep(t: seq<int>, cs: nat, st: nat, i: nat, rest: seq<seq<int>>)
    requires 1 <= st <= cs && i + cs <= |t|
    requires rest != [] && |rest[0]| >= cs - st && Stitch(rest, cs - st) == t[i + st..]
    ensures Stitch([t[i..i + cs]] + rest, cs - st) == t[i..]
  {
    var ov := cs - st;
    assert t[i + st..][ov..] == t[i + cs..];
    assert t[i..i + cs] + t[i + cs..] == t[i..];
    StitchCons(t[i..i + cs], rest, ov);
  }

  /** Dropping the overlap of every window after the first and concatenating gives back the
      token sequence: nothing is lost, duplicated or reordered. */
  lemma WindowsReconstruct(t: seq<int>, cs: nat, st: nat)
    requires 1 <= st <= cs
    ensures Stitch(Windows(t, cs, st), cs - st) == t
  {
    if t != [] {
      StitchFrom(t, cs, st, 0);
    }
  }

  // ---------------------------------------------------------------------------------------
  // chunk_summaries_by_tokens
  // ---------------------------------------------------------------------------------------

  /** The separator `chunk_summaries_by_tokens` joins a group with. */
  const Separator := "; "

  /** A summary with its token count. */
  datatype Counted = Counted(text: string, tokens: nat)

  function SumTokens(g: seq<Counted>): nat
    decreases |g|
  {
    if g == [] then 0 else g[0].tokens + SumTokens(g[1..])
  }

  /** The token cost of a group joined with separators: counts plus one separator between
      neighbours. */
  function GroupCost(g: seq<Counted>, sepCost: nat): nat
    decreases |g|
  {
    if g == [] then 0
    else if |g| == 1 then g[0].tokens
    else GroupCost(g[..|g| - 1], sepCost) + sepCost + g[|g| - 1].tokens
  }

  /** The cost of a non-empty group is the sum of its counts plus one separator between each
      pair of neighbours. */
  lemma {:induction false} GroupCostIsSumPlusSeparators(g: seq<Counted>, sepCost: nat)
    requires g != []
    ensures GroupCost(g, sepCost) == SumTokens(g) + (|g| - 1) * sepCost
    decreases |g|
  {
    if |g| == 1 {
      assert g[1..] == [];
    } else {
      var init := g[..|g| - 1];
      GroupCostIsSumPlusSeparators(init, sepCost);
      SumTokensSnoc(init, g[|g| - 1]);
      assert init + [g[|g| - 1]] == g;
      MulStep(|init| - 1, sepCost);
      assert |init| - 1 + 1 == |g| - 1;
    }
  }

  function Texts(g: seq<Counted>): (r: seq<string>)
    ensures |r| == |g| && forall k :: 0 <= k < |g| ==> r[k] == g[k].text
  {
    seq(|g|, k requires 0 <= k < |g| => g[k].text)
  }

  lemma TextsSnoc(g: seq<Counted>, x: Counted)
    ensures Texts(g + [x]) == Texts(g) + [x.text]
  {
  }

  function Flatten(gs: seq<seq<Counted>>): seq<Counted>
    decreases |gs|
  {
    if gs == [] then [] else gs[0] + Flatten(gs[1..])
  }

  /** The groups the loop emits from `items` on, `current` being the group it is filling. */
  function GroupFrom(items: seq<Counted>, sepCost: nat, cs: int, current: seq<Counted>): seq<seq<Counted>>
    decreases |items|
  {
    var pending: seq<seq<Counted>> := if current == [] then [] else [current];
    if items == [] then pending
    else
      var x := items[0];
      if x.tokens > cs then pending + [[x]] + GroupFrom(items[1..], sepCost, cs, [])
      else
        var cost := x.tokens + (if current == [] then 0 else sepCost);
        if GroupCost(current, sepCost) + cost > cs then [current] + GroupFrom(items[1..], sepCost, cs, [x])
        else GroupFrom(items[1..], sepCost, cs, current + [x])
  }

  function Groups(items: seq<Counted>, sepCost: nat, cs: int): seq<seq<Counted>> {
    GroupFrom(items, sepCost, cs, [])
  }

  lemma {:induction false} SumTokensSnoc(g: seq<Counted>, x: Counted)
    ensures SumTokens(g + [x]) == SumTokens(g) + x.tokens
    decreases |g|
  {
    if g == [] {
      assert [x][1..] == [];
    } else {
      assert (g + [x])[1..] == g[1..] + [x];
      SumTokensSnoc(g[1..], x);
    }
  }

  lemma GroupCostSnoc(g: seq<Counted>, x: Counted, sepCost: nat)
    ensures GroupCost(g + [x], sepCost) == GroupCost(g, sepCost) + x.tokens + (if g == [] then 0 else sepCost)
  {
    assert (g + [x])[..|g|] == g;
  }

  /** The groups, in order, are exactly the current group and then the items: no summary is
      split, dropped or reordered; and every group is non-empty. */
  lemma {:induction false} GroupFromPreserves(items: seq<Counted>, sepCost: nat, cs: int, current: seq<Counted>)
    ensures Flatten(GroupFrom(items, sepCost, cs, current)) == current + items
    ensures forall k :: 0 <= k < |GroupFrom(items, sepCost, cs, current)| ==> GroupFrom(items, sepCost, cs, current)[k] != []
    decreases |items|
  {
    var gs := GroupFrom(items, sepCost, cs, current);
    if items == [] {
      PendingGroups(current, [], []);
      assert current + items == current;
    } else {
      var x := items[0];
      var tail := items[1..];
      assert current + items == current + ([x] + tail);
      if x.tokens > cs {
        var rest := GroupFrom(tail, sepCost, cs, []);
        assert gs == (if current == [] then [] else [current]) + [[x]] + rest;
        GroupFromPreserves(tail, sepCost, cs, []);
        PendingGroups(current, [[x]] + rest, [x] + tail);
        OneGroupFirst([x], rest, tail);
        AppendAssoc(if current == [] then [] else [current], [[x]], rest);
      } else {
        var cost := x.tokens + (if current == [] then 0 else sepCost);
        if GroupCost(current, sepCost) + cost > cs {
          var rest := GroupFrom(tail, sepCost, cs, [x]);
          assert current != [] && gs == [current] + rest;
          GroupFromPreserves(tail, sepCost, cs, [x]);
          OneGroupFirst(current, rest, [x] + tail);
        } else {
          GroupFromPreserves(tail, sepCost, cs, current + [x]);
          AppendAssoc(current, [x], tail);
        }
      }
    }
  }

  /** A non-empty group in front of groups that flatten to `tail` and are non-empty. */
  lemma OneGroupFirst(g: seq<Counted>, rest: seq<seq<Counted>>, tail: seq<Counted>)
    requires g != [] && Flatten(rest) == tail && forall k :: 0 <= k < |rest| ==> rest[k] != []
    ensures Flatten([g] + rest) == g + tail
    ensures forall k :: 0 <= k < |[g] + rest| ==> ([g] + rest)[k] != []
  {
    assert ([g] + rest)[1..] == rest;
  }

  /** The group being filled, if any, in front of groups that flatten to `tail` and are
      non-empty. */
  lemma PendingGroups(current: seq<Counted>, rest: seq<seq<Counted>>, tail: seq<Counted>)
    requires Flatten(rest) == tail && forall k :: 0 <= k < |rest| ==> rest[k] != []
    ensures var gs := (if current == [] then [] else [current]) + rest;
      Flatten(gs) == current + tail && forall k :: 0 <= k < |gs| ==> gs[k] != []
  {
    if current == [] {
      assert [] + rest == rest;
    } else {
      OneGroupFirst(current, rest, tail);
    }
  }

  /** The budget: every group either fits (`GroupCost <= cs`) or is a single summary that
      alone is over the chunk size; and a summary over the chunk size always sits alone. */
  lemma {:induction false} GroupFromBudget(items: seq<Counted>, sepCost: nat, cs: int, current: seq<Counted>)
    requires current != [] ==> GroupCost(current, sepCost) <= cs
    requires forall y :: y in current ==> y.tokens <= cs
    ensures forall g: seq<Counted> :: g in GroupFrom(items, sepCost, cs, current) ==>
      GroupCost(g, sepCost) <= cs || (|g| == 1 && g[0].tokens > cs)
    ensures forall g: seq<Counted>, y: Counted :: g in GroupFrom(items, sepCost, cs, current) && y in g && y.tokens > cs ==> g == [y]
    decreases |items|
  {
    if items != [] {
      var x := items[0];
      if x.tokens > cs {
        GroupFromBudget(items[1..], sepCost, cs, []);
      } else {
        var cost := x.tokens + (if current == [] then 0 else sepCost);
        if GroupCost(current, sepCost) + cost > cs {
          assert GroupCost([x], sepCost) == x.tokens by { assert [x][1..] == []; }
          GroupFromBudget(items[1..], sepCost, cs, [x]);
        } else {
          GroupCostSnoc(current, x, sepCost);
          GroupFromBudget(items[1..], sepCost, cs, current + [x]);
        }
      }
    }
  }

  /** The grouping of a whole list: empty for no summaries; otherwise its groups flatten to the
      input, none is empty, each fits the budget or is a lone oversized summary. */
  lemma GroupsProperties(items: seq<Counted>, sepCost: nat, cs: int)
    ensures Groups(items, sepCost, cs) == [] <==> items == []
    ensures Flatten(Groups(items, sepCost, cs)) == items
    ensures forall g: seq<Counted> :: g in Groups(items, sepCost, cs) ==> g != []
    ensures forall g: seq<Counted> :: g in Groups(items, sepCost, cs) ==>
      GroupCost(g, sepCost) <= cs || (|g| == 1 && g[0].tokens > cs)
    ensures forall g: seq<Counted>, y: Counted :: g in Groups(items, sepCost, cs) && y in g && y.tokens > cs ==> g == [y]
  {
    GroupFromPreserves(items, sepCost, cs, []);
    GroupFromBudget(items, sepCost, cs, []);
  }

  /** The summaries with their token counts. */
  function CountAll(tm: TokenManager, summaries: seq<string>): (r: seq<Counted>)
    ensures |r| == |summaries| && forall k :: 0 <= k < |r| ==> r[k] == Counted(summaries[k], tm.GetTokenCount(summaries[k]))
  {
    seq(|summaries|, k requires 0 <= k < |summaries| => Counted(summaries[k], tm.GetTokenCount(summaries[k])))
  }

  /** Each group joined with the separator. */
  function JoinGroups(gs: seq<seq<Counted>>): (r: seq<string>)
    ensures |r| == |gs| && forall k :: 0 <= k < |gs| ==> r[k] == Join("; ", Texts(gs[k]))
  {
    seq(|gs|, k requires 0 <= k < |gs| => Join(Separator, Texts(gs[k])))
  }

  lemma JoinGroupsSnoc(a: seq<seq<Counted>>, g: seq<Counted>)
    ensures JoinGroups(a + [g]) == JoinGroups(a) + [Join(Separator, Texts(g))]
  {
  }

  /** The current group as a list of groups: empty when nothing is pending. */
  function Pending(current: seq<Counted>): seq<seq<Counted>> {
    if current == [] then [] else [current]
  }

  /** One loop step for a summary over the chunk size: flush, then the summary alone. */
  lemma OversizedStep(items: seq<Counted>, k: nat, sepCost: nat, cs: int, current: seq<Counted>)
    requires k < |items| && items[k].tokens > cs
    ensures GroupFrom(items[k..], sepCost, cs, current)
      == Pending(current) + [[items[k]]] + GroupFrom(items[k + 1..], sepCost, cs, [])
  {
    assert items[k..][0] == items[k] && items[k..][1..] == items[k + 1..];
  }

  lemma OversizedPreserves(items: seq<Counted>, k: nat, sepCost: nat, cs: int,
                           done: seq<seq<Counted>>, current: seq<Counted>, all: seq<seq<Counted>>)
    requires k < |items| && items[k].tokens > cs
    requires done + GroupFrom(items[k..], sepCost, cs, current) == all
    ensures done + Pending(current) + [[items[k]]] + GroupFrom(items[k + 1..], sepCost, cs, []) == all
  {
    OversizedStep(items, k, sepCost, cs, current);
  }

  lemma JoinGroupsPending(done: seq<seq<Counted>>, current: seq<Counted>, x: Counted)
    ensures JoinGroups(done + Pending(current) + [[x]])
      == JoinGroups(done) + (if current == [] then [] else [Join(Separator, Texts(current))]) + [x.text]
  {
    assert Texts([x]) == [x.text];
    assert Join(Separator, [x.text]) == x.text;
  }

  /** One loop step that closes the current group and starts a new one with the summary. */
  lemma FlushStep(items: seq<Counted>, k: nat, sepCost: nat, cs: int, current: seq<Counted>)
    requires k < |items| && items[k].tokens <= cs
    requires GroupCost(current, sepCost) + items[k].tokens + (if current == [] then 0 else sepCost) > cs
    ensures current != []
    ensures GroupFrom(items[k..], sepCost, cs, current) == [current] + GroupFrom(items[k + 1..], sepCost, cs, [items[k]])
  {
    assert items[k..][0] == items[k] && items[k..][1..] == items[k + 1..];
  }

  /** One loop step that adds the summary to the current group. */
  lemma AddStep(items: seq<Counted>, k: nat, sepCost: nat, cs: int, current: seq<Counted>)
    requires k < |items| && items[k].tokens <= cs
    requires GroupCost(current, sepCost) + items[k].tokens + (if current == [] then 0 else sepCost) <= cs
    ensures GroupFrom(items[k..], sepCost, cs, current) == GroupFrom(items[k + 1..], sepCost, cs, current + [items[k]])
  {
    assert items[k..][0] == items[k] && items[k..][1..] == items[k + 1..];
  }

  /** The chunks `chunk_summaries_by_tokens` returns. */
  function SummaryChunks(tm: TokenManager, summaries: seq<string>): seq<string> {
    JoinGroups(Groups(CountAll(tm, summaries), tm.GetTokenCount(Separator), tm.ChunkSize()))
  }

  /** One turn of the grouping loop on summary k: an oversized summary flushes the current group
      and is emitted alone; one that would overflow the current group closes it and starts the
      next; any other joins the current group. */
  method GroupStep(items: seq<Counted>, k: nat, sepCost: nat, cs: int, chunks: seq<string>,
                   currentStrings: seq<string>, currentTokenCount: int,
                   ghost current: seq<Counted>, ghost done: seq<seq<Counted>>, ghost all: seq<seq<Counted>>)
    returns (nextChunks: seq<string>, nextStrings: seq<string>, nextTokenCount: int,
             ghost nextCurrent: seq<Counted>, ghost nextDone: seq<seq<Counted>>)
    requires k < |items|
    requires currentStrings == Texts(current) && currentTokenCount == GroupCost(current, sepCost)
    requires chunks == JoinGroups(done)
    requires done + GroupFrom(items[k..], sepCost, cs, current) == all
    ensures nextStrings == Texts(nextCurrent) && nextTokenCount == GroupCost(nextCurrent, sepCost)
    ensures nextChunks == JoinGroups(nextDone)
    ensures nextDone + GroupFrom(items[k + 1..], sepCost, cs, nextCurrent) == all
  {
    var summaryText := items[k].text;
    var tokenCount := items[k].tokens;
    if tokenCount > cs {
      OversizedPreserves(items, k, sepCost, cs, done, current, all);
      JoinGroupsPending(done, current, items[k]);
      nextChunks := chunks;
      if |currentStrings| > 0 {
        nextChunks := nextChunks + [Join(Separator, currentStrings)];
      }
      nextChunks := nextChunks + [summaryText];
      nextDone := done + Pending(current) + [[items[k]]];
      nextStrings, nextTokenCount, nextCurrent := [], 0, [];
      return;
    }
    var cost := tokenCount;
    if |currentStrings| > 0 {
      cost := cost + sepCost;
    }
    if currentTokenCount + cost > cs {
      FlushStep(items, k, sepCost, cs, current);
      ghost var later := GroupFrom(items[k + 1..], sepCost, cs, [items[k]]);
      AppendAssoc(done, [current], later);
      JoinGroupsSnoc(done, current);
      nextChunks := chunks + [Join(Separator, currentStrings)];
      nextDone := done + [current];
      nextStrings := [summaryText];
      nextTokenCount := tokenCount;
      nextCurrent := [items[k]];
      assert GroupCost(nextCurrent, sepCost) == tokenCount by { assert nextCurrent[1..] == []; }
    } else {
      AddStep(items, k, sepCost, cs, current);
      GroupCostSnoc(current, items[k], sepCost);
      TextsSnoc(current, items[k]);
      nextChunks := chunks;
      nextDone := done;
      nextStrings := currentStrings + [summaryText];
      nextTokenCount := currentTokenCount + cost;
      nextCurrent := current + [items[k]];
    }
  }

  /** `chunk_summaries_by_tokens`: greedy grouping under the chunk size. */
  method ChunkSummariesByTokens(tm: TokenManager, summaries: seq<string>) returns (chunks: seq<string>)
    ensures chunks == SummaryChunks(tm, summaries)
  {
    if |summaries| == 0 {
      return [];
    }
    var sepTokenCost := tm.GetTokenCount(Separator);
    var chunkSize := tm.ChunkSize();
    var encoded := CountAll(tm, summaries);
    chunks := [];
    var currentStrings: seq<string> := [];
    var currentTokenCount := 0;
    ghost var current: seq<Counted> := [];
    ghost var done: seq<seq<Counted>> := [];
    ghost var all := Groups(encoded, sepTokenCost, chunkSize);
    assert encoded[0..] == encoded;
    for k := 0 to |encoded|
      invariant currentStrings == Texts(current)
      invariant currentTokenCount == GroupCost(current, sepTokenCost)
      invariant chunks == JoinGroups(done)
      invariant done + GroupFrom(encoded[k..], sepTokenCost, chunkSize, current) == all
    {
      chunks, currentStrings, currentTokenCount, current, done :=
        GroupStep(encoded, k, sepTokenCost, chunkSize, chunks, currentStrings, currentTokenCount, current, done, all);
    }
    assert encoded[|encoded|..] == [];
    assert GroupFrom([], sepTokenCost, chunkSize, current) == Pending(current);
    if |currentStrings| > 0 {
      JoinGroupsSnoc(done, current);
      chunks := chunks + [Join(Separator, currentStrings)];
      done := done + [current];
    }
    assert done == all;
  }
}
