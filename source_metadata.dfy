/** What the source parsers see of a parsed file, and the metadata they return. The syntax
    tree itself is abstract: a file is the list of its top-level children. */
module SourceMetadata {
  import opened Common

  /** A child node of a top-level declaration: its node type and its text. */
  datatype Token = Token(kind: string, text: string)

  /** A top-level child of the source file: its node type, the text of its `name` field when
      it has one, and its own children. */
  datatype Declaration = Declaration(kind: string, name: Option<string>, parts: seq<Token>)

  /** Reading and parsing a file: its top-level children, or the message of the exception
      raised on the way (an unreadable file, a name that is not UTF-8). */
  datatype Parse = Parsed(children: seq<Declaration>) | Failed(error: string)

  /** The dictionary a parser returns for one file; `error` is present only on failure. */
  datatype Metadata = Metadata(path: string, packageName: string, fqns: seq<string>, error: Option<string>)

  /** A collected declaration: its name and its node type. */
  datatype Found = Found(name: string, kind: string)

  /** Position of the first part of a kind; `|parts|` when there is none. */
  function FirstOfKind(parts: seq<Token>, kind: string): (i: nat)
    ensures i <= |parts|
    ensures i < |parts| ==> parts[i].kind == kind
    ensures forall j :: 0 <= j < i ==> parts[j].kind != kind
    decreases |parts|
  {
    if |parts| == 0 then 0
    else if parts[0].kind == kind then 0
    else
      var i := 1 + FirstOfKind(parts[1..], kind);
      assert forall j :: 1 <= j < i ==> parts[j] == parts[1..][j - 1];
      i
  }

  /** The inner loop over a package declaration's children: the text of the first child of
      the identifier kind, with `break` after it; `None` when there is none. */
  method FindIdentifier(parts: seq<Token>, idKind: string) returns (r: Option<string>)
    ensures r.None? <==> FirstOfKind(parts, idKind) == |parts|
    ensures r.Some? ==> r.value == parts[FirstOfKind(parts, idKind)].text
  {
    r := None;
    var k := 0;
    while k < |parts|
      invariant k <= FirstOfKind(parts, idKind)
      invariant r == None
      decreases |parts| - k
    {
      if parts[k].kind == idKind {
        r := Some(parts[k].text);
        return;
      }
      k := k + 1;
    }
  }

  /** The package after the first n children: each declaration of `declKind` with a child of
      `idKind` sets it to that child's text, any other child leaves it; `""` to begin with. */
  function PackageUpTo(children: seq<Declaration>, n: nat, declKind: string, idKind: string): string
    requires n <= |children|
    decreases n
  {
    if n == 0 then ""
    else
      var c := children[n - 1];
      var i := FirstOfKind(c.parts, idKind);
      if c.kind == declKind && i < |c.parts| then c.parts[i].text
      else PackageUpTo(children, n - 1, declKind, idKind)
  }

  /** Whether a child is collected: one of the given node types, with a name. */
  predicate Collected(c: Declaration, kinds: set<string>) {
    c.kind in kinds && c.name.Some?
  }

  /** The collected children among the first n, with their names and kinds, in order. */
  function DeclaredUpTo(children: seq<Declaration>, n: nat, kinds: set<string>): (r: seq<Found>)
    requires n <= |children|
    ensures |r| <= n
    ensures forall f :: f in r ==> f.kind in kinds
    decreases n
  {
    if n == 0 then []
    else
      var c := children[n - 1];
      DeclaredUpTo(children, n - 1, kinds) + (if Collected(c, kinds) then [Found(c.name.value, c.kind)] else [])
  }

  /** A collected child k is found at the position given by the collected children before it. */
  lemma {:induction false} DeclaredAt(children: seq<Declaration>, n: nat, kinds: set<string>, k: nat)
    requires k < n <= |children| && Collected(children[k], kinds)
    ensures |DeclaredUpTo(children, k, kinds)| < |DeclaredUpTo(children, n, kinds)|
    ensures DeclaredUpTo(children, n, kinds)[|DeclaredUpTo(children, k, kinds)|]
      == Found(children[k].name.value, children[k].kind)
    decreases n
  {
    if n - 1 > k {
      DeclaredAt(children, n - 1, kinds, k);
    }
  }

  /** Every found entry comes from a collected child, and the entries keep the children's
      order: entry j is the child before which exactly j children are collected. */
  lemma {:induction false} DeclaredFrom(children: seq<Declaration>, n: nat, kinds: set<string>, j: nat)
    returns (k: nat)
    requires n <= |children| && j < |DeclaredUpTo(children, n, kinds)|
    ensures k < n && Collected(children[k], kinds)
    ensures |DeclaredUpTo(children, k, kinds)| == j
    ensures DeclaredUpTo(children, n, kinds)[j] == Found(children[k].name.value, children[k].kind)
    decreases n
  {
    var prev := DeclaredUpTo(children, n - 1, kinds);
    if j < |prev| {
      k := DeclaredFrom(children, n - 1, kinds, j);
    } else {
      k := n - 1;
    }
  }

  /** More children never collect fewer declarations. */
  lemma {:induction false} DeclaredGrows(children: seq<Declaration>, m: nat, n: nat, kinds: set<string>)
    requires m <= n <= |children|
    ensures |DeclaredUpTo(children, m, kinds)| <= |DeclaredUpTo(children, n, kinds)|
    decreases n
  {
    if m < n {
      DeclaredGrows(children, m, n - 1, kinds);
    }
  }

  /** `f"{package_name}." if package_name else ""`. */
  function Prefix(packageName: string): string {
    if packageName == "" then "" else packageName + "."
  }
}
