/** Values and Python-style string helpers shared by every module of the model. */
module Common {

  /** Python `None` or a value. */
  datatype Option<T> = None | Some(value: T) {
    function GetOr(default: T): T {
      if Some? then value else default
    }
  }

  /** A value, or the message of the exception the source raises instead. */
  datatype Result<T> = Ok(value: T) | Err(error: string)

  /** Python truthiness of an optional string: present and not empty. */
  predicate Truthy(o: Option<string>) {
    o.Some? && o.value != ""
  }

  /** `sep.join(xs)`. */
  function Join(sep: string, xs: seq<string>): string
    decreases |xs|
  {
    if |xs| == 0 then ""
    else if |xs| == 1 then xs[0]
    else xs[0] + sep + Join(sep, xs[1..])
  }

  /** `"".join(xs)`. */
  function Concat(xs: seq<string>): string
    decreases |xs|
  {
    if |xs| == 0 then "" else xs[0] + Concat(xs[1..])
  }

  /** Joining n >= 2 pieces is joining the first n-1, the separator and the last. */
  lemma {:induction false} JoinSnoc(sep: string, xs: seq<string>)
    requires |xs| >= 2
    ensures Join(sep, xs) == Join(sep, xs[..|xs| - 1]) + sep + xs[|xs| - 1]
    decreases |xs|
  {
    if |xs| == 2 {
      assert xs[..1] == [xs[0]];
      assert xs[1..] == [xs[1]];
    } else {
      JoinSnoc(sep, xs[1..]);
      assert xs[1..][..|xs[1..]| - 1] == xs[..|xs| - 1][1..];
      assert xs[1..][|xs[1..]| - 1] == xs[|xs| - 1];
    }
  }

  /** Concatenation distributes over appending sequences of strings. */
  lemma {:induction false} ConcatAppend(xs: seq<string>, ys: seq<string>)
    ensures Concat(xs + ys) == Concat(xs) + Concat(ys)
    decreases |xs|
  {
    if |xs| == 0 {
      assert xs + ys == ys;
    } else {
      assert (xs + ys)[1..] == xs[1..] + ys;
      ConcatAppend(xs[1..], ys);
    }
  }

  /** `s.startswith(p)`. */
  predicate StartsWith(s: string, p: string) {
    |p| <= |s| && s[..|p|] == p
  }

  /** `s.endswith(p)`. */
  predicate EndsWith(s: string, p: string) {
    |p| <= |s| && s[|s| - |p|..] == p
  }

  /** `p in s` for strings: p occurs in s at position i. */
  predicate OccursAt(p: string, s: string, i: nat) {
    i + |p| <= |s| && s[i..i + |p|] == p
  }

  /** `p in s` for strings. */
  predicate IsInfix(p: string, s: string) {
    exists i: nat | i <= |s| :: OccursAt(p, s, i)
  }

  /** Surrounding a string keeps it an infix: the witness is the prefix length. */
  lemma InfixOfConcat(a: string, p: string, b: string)
    ensures IsInfix(p, a + p + b)
  {
    var s := a + p + b;
    assert s[|a|..|a| + |p|] == p;
    assert OccursAt(p, s, |a|);
  }

  /** An infix stays an infix when text is added on both sides. */
  lemma InfixExtend(p: string, s: string, a: string, b: string)
    requires IsInfix(p, s)
    ensures IsInfix(p, a + s + b)
  {
    var i: nat :| i <= |s| && OccursAt(p, s, i);
    var t := a + s + b;
    assert t[|a| + i..|a| + i + |p|] == s[i..i + |p|];
    assert OccursAt(p, t, |a| + i);
  }

  /** Every string is an infix of itself. */
  lemma InfixSelf(p: string)
    ensures IsInfix(p, p)
  {
    assert OccursAt(p, p, 0);
  }

  /** An infix stays an infix when text is added after it. */
  lemma InfixAppend(p: string, s: string, b: string)
    requires IsInfix(p, s)
    ensures IsInfix(p, s + b)
  {
    InfixExtend(p, s, "", b);
    assert "" + s + b == s + b;
  }

  /** An infix stays an infix when text is added before it. */
  lemma InfixPrepend(p: string, a: string, s: string)
    requires IsInfix(p, s)
    ensures IsInfix(p, a + s)
  {
    InfixExtend(p, s, a, "");
    assert a + s + "" == a + s;
  }

  /** Every piece of a join occurs in the joined string. */
  lemma {:induction false} JoinContains(sep: string, xs: seq<string>, k: nat)
    requires k < |xs|
    ensures IsInfix(xs[k], Join(sep, xs))
    decreases k
  {
    if |xs| == 1 {
      InfixOfConcat("", xs[0], "");
      assert "" + xs[0] + "" == xs[0];
    } else if k == 0 {
      InfixOfConcat("", xs[0], sep + Join(sep, xs[1..]));
      assert "" + xs[0] + (sep + Join(sep, xs[1..])) == Join(sep, xs);
    } else {
      JoinContains(sep, xs[1..], k - 1);
      InfixExtend(xs[k], Join(sep, xs[1..]), xs[0] + sep, "");
      assert xs[0] + sep + Join(sep, xs[1..]) + "" == Join(sep, xs);
    }
  }

  /** Position of the first occurrence of p in s at or after i. */
  function FirstOccurrenceFrom(p: string, s: string, i: nat): (r: nat)
    requires exists j: nat | i <= j <= |s| :: OccursAt(p, s, j)
    ensures i <= r && OccursAt(p, s, r)
    ensures forall j :: i <= j < r ==> !OccursAt(p, s, j)
    decreases |s| - i
  {
    if OccursAt(p, s, i) then i else FirstOccurrenceFrom(p, s, i + 1)
  }

  /** Position of the first occurrence of p in s. */
  function FirstOccurrence(p: string, s: string): (r: nat)
    requires IsInfix(p, s)
    ensures OccursAt(p, s, r)
    ensures forall j :: 0 <= j < r ==> !OccursAt(p, s, j)
  {
    FirstOccurrenceFrom(p, s, 0)
  }

  /** Index of the first occurrence of c in s. */
  function FirstIndex(s: string, c: char): (r: nat)
    requires c in s
    ensures r < |s| && s[r] == c && c !in s[..r]
  {
    if s[0] == c then 0
    else
      assert c in s[1..] by {
        var k :| 0 <= k < |s| && s[k] == c;
        assert s[1..][k - 1] == c;
      }
      var r := 1 + FirstIndex(s[1..], c);
      assert s[..r] == [s[0]] + s[1..][..r - 1];
      r
  }

  /** `s.split(c)` for a one-character separator. */
  function Split(s: string, c: char): (r: seq<string>)
    ensures |r| >= 1
    ensures |r| == 1 <==> c !in s
    ensures forall k :: 0 <= k < |r| ==> c !in r[k]
    ensures Join([c], r) == s
    decreases |s|
  {
    if c !in s then [s]
    else
      var i := FirstIndex(s, c);
      var rest := Split(s[i + 1..], c);
      var r := [s[..i]] + rest;
      assert r[1..] == rest;
      assert s == s[..i] + [c] + s[i + 1..];
      r
  }

  /** A string with the separator in it is its split pieces but the last, the separator, and the last. */
  lemma SplitLast(s: string, c: char, parts: seq<string>)
    requires c in s && parts == Split(s, c)
    ensures s == Join([c], parts[..|parts| - 1]) + [c] + parts[|parts| - 1]
  {
    JoinLast([c], parts, s);
  }

  /** A string joined from n >= 2 pieces is the first n-1 joined, the separator and the last. */
  lemma JoinLast(sep: string, parts: seq<string>, s: string)
    requires |parts| >= 2 && Join(sep, parts) == s
    ensures s == Join(sep, parts[..|parts| - 1]) + sep + parts[|parts| - 1]
  {
    JoinSnoc(sep, parts);
  }

  /** `s.replace(a, b)` for single characters. */
  function ReplaceChar(s: string, a: char, b: char): (r: string)
    ensures |r| == |s|
    ensures forall i :: 0 <= i < |s| ==> r[i] == if s[i] == a then b else s[i]
    decreases |s|
  {
    if |s| == 0 then "" else [if s[0] == a then b else s[0]] + ReplaceChar(s[1..], a, b)
  }

  /** Replacing a by b and then b by a restores a string that had no b in it. */
  lemma ReplaceCharRoundTrip(s: string, a: char, b: char)
    requires b !in s
    ensures ReplaceChar(ReplaceChar(s, a, b), b, a) == s
  {
    var r := ReplaceChar(ReplaceChar(s, a, b), b, a);
    assert |r| == |s|;
    forall i | 0 <= i < |s| ensures r[i] == s[i] {
      assert s[i] != b;
    }
  }

  /** ASCII upper case of one character (str.upper on ASCII letters). */
  function UpperChar(c: char): char {
    if 'a' <= c <= 'z' then (c as int - 32) as char else c
  }

  /** ASCII lower case of one character (str.lower on ASCII letters). */
  function LowerChar(c: char): char {
    if 'A' <= c <= 'Z' then (c as int + 32) as char else c
  }

  /** ASCII upper case of a string. */
  function Upper(s: string): (r: string)
    ensures |r| == |s| && forall i :: 0 <= i < |s| ==> r[i] == UpperChar(s[i])
    decreases |s|
  {
    if |s| == 0 then "" else [UpperChar(s[0])] + Upper(s[1..])
  }

  /** ASCII lower case of a string. */
  function Lower(s: string): (r: string)
    ensures |r| == |s| && forall i :: 0 <= i < |s| ==> r[i] == LowerChar(s[i])
    decreases |s|
  {
    if |s| == 0 then "" else [LowerChar(s[0])] + Lower(s[1..])
  }

  /** Keeps the truthy strings of a list of optional strings, in order
      (`[s for s in xs if s]`). */
  function KeepTruthy(xs: seq<Option<string>>): (r: seq<string>)
    ensures |r| <= |xs|
    ensures forall k :: 0 <= k < |r| ==> r[k] != ""
    ensures (forall k :: 0 <= k < |xs| ==> !Truthy(xs[k])) <==> r == []
    decreases |xs|
  {
    if |xs| == 0 then []
    else if Truthy(xs[0]) then [xs[0].value] + KeepTruthy(xs[1..])
    else
      assert forall k :: 1 <= k < |xs| ==> xs[1..][k - 1] == xs[k];
      KeepTruthy(xs[1..])
  }

  /** Sequence concatenation is associative. */
  lemma AppendAssoc<X>(a: seq<X>, b: seq<X>, c: seq<X>)
    ensures a + (b + c) == (a + b) + c
  {
  }

  /** Appending nothing changes nothing. */
  lemma AppendEmpty<X>(a: seq<X>)
    ensures a + [] == a
  {
  }
}
