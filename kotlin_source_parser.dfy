/** The Kotlin parser's metadata for one `.kt` file: its path cut below `/src`, its package and
    the fully qualified names of its top-level types, with the synthetic `…Kt` facade class
    of a file that has top-level functions or properties. */
module KotlinSourceParser {
  import opened Common
  import opened SourceMetadata

  const PackageKind := "package_header"
  const PackageIdKind := "qualified_identifier"

  /** The top-level type declarations whose names are collected. */
  const TypeKinds: set<string> := {"class_declaration", "object_declaration", "interface_declaration", "annotation_class"}

  /** The top-level members that call for a facade class. */
  const MemberKinds: set<string> := {"function_declaration", "property_declaration"}

  const SrcMarker := "/src"

  /** The stored path of a file at `rel` below the project root: `/` and rel, cut to what
      follows the first `/src` when there is one. */
  function KotlinPath(rel: string): (r: string)
    ensures !IsInfix(SrcMarker, "/" + rel) ==> r == "/" + rel
    ensures IsInfix(SrcMarker, "/" + rel) ==>
      "/" + rel == ("/" + rel)[..FirstOccurrence(SrcMarker, "/" + rel)] + SrcMarker + r
  {
    var relativePath := "/" + rel;
    if IsInfix(SrcMarker, relativePath) then
      var i := FirstOccurrence(SrcMarker, relativePath);
      assert relativePath == relativePath[..i] + relativePath[i..i + |SrcMarker|] + relativePath[i + |SrcMarker|..];
      relativePath[i + |SrcMarker|..]
    else relativePath
  }

  /** A file in a top-level `src` directory is stored by its path below it. */
  lemma TopLevelSrcDropped(tail: string)
    ensures KotlinPath("src" + tail) == tail
  {
    var relativePath := "/" + ("src" + tail);
    assert relativePath[0..4] == SrcMarker;
    assert OccursAt(SrcMarker, relativePath, 0);
    var i := FirstOccurrence(SrcMarker, relativePath);
    assert i == 0;
    assert relativePath[4..] == tail;
  }

  /** The package of a file's children. */
  function PackageOf(children: seq<Declaration>): string {
    PackageUpTo(children, |children|, PackageKind, PackageIdKind)
  }

  /** The collected type declarations of a file's children, in source order. */
  function DeclaredOf(children: seq<Declaration>): seq<Found> {
    DeclaredUpTo(children, |children|, TypeKinds)
  }

  /** Whether one of the first n children is a top-level function or property. */
  function MembersUpTo(children: seq<Declaration>, n: nat): (r: bool)
    requires n <= |children|
    ensures r <==> exists k :: 0 <= k < n && children[k].kind in MemberKinds
    decreases n
  {
    if n == 0 then false else children[n - 1].kind in MemberKinds || MembersUpTo(children, n - 1)
  }

  /** Whether the file has a top-level function or property. */
  function HasMembers(children: seq<Declaration>): bool {
    MembersUpTo(children, |children|)
  }

  /** The loop over the top-level children: the package, the collected types in source order
      and the facade flag. */
  method ScanChildren(children: seq<Declaration>)
    returns (packageName: string, foundTypesWithKind: seq<Found>, hasTopLevelMembers: bool)
    ensures packageName == PackageOf(children)
    ensures foundTypesWithKind == DeclaredOf(children)
    ensures hasTopLevelMembers == HasMembers(children)
  {
    packageName := "";
    foundTypesWithKind := [];
    hasTopLevelMembers := false;
    for k := 0 to |children|
      invariant packageName == PackageUpTo(children, k, PackageKind, PackageIdKind)
      invariant foundTypesWithKind == DeclaredUpTo(children, k, TypeKinds)
      invariant hasTopLevelMembers == MembersUpTo(children, k)
    {
      var child := children[k];
      if child.kind == PackageKind {
        var id := FindIdentifier(child.parts, PackageIdKind);
        if id.Some? {
          packageName := id.value;
        }
      } else if child.kind in TypeKinds {
        if child.name.Some? {
          foundTypesWithKind := foundTypesWithKind + [Found(child.name.value, child.kind)];
        }
      } else if child.kind in MemberKinds {
        hasTopLevelMembers := true;
      }
    }
  }

  /** Position of the last c in s, or -1. */
  function LastIndexOf(s: string, c: char): (r: int)
    ensures -1 <= r < |s|
    ensures r >= 0 ==> s[r] == c
    ensures forall j :: r < j < |s| ==> s[j] != c
    decreases |s|
  {
    if |s| == 0 then -1
    else if s[|s| - 1] == c then |s| - 1
    else LastIndexOf(s[..|s| - 1], c)
  }

  /** `os.path.splitext(name)[0]` for a file name: the name without its last `.`-extension,
      unless every character before that dot is a dot (a hidden file keeps its name). */
  function Stem(name: string): (r: string)
    ensures StartsWith(name, r)
    ensures r != name ==>
      name[|r|] == '.' && '.' !in name[|r| + 1..] && exists j :: 0 <= j < |r| && r[j] != '.'
  {
    var dotIndex := LastIndexOf(name, '.');
    if dotIndex > 0 && exists j :: 0 <= j < dotIndex && name[j] != '.' then name[..dotIndex] else name
  }

  /** A source file's stem is its name without `.kt`. */
  lemma StemOfSourceFile(base: string)
    requires base != "" && '.' !in base
    ensures Stem(base + ".kt") == base
  {
    var name := base + ".kt";
    assert name[|base|] == '.';
    assert name[0] == base[0];
  }

  /** `str.capitalize` on ASCII: the first character upper case, every other one lower case. */
  function Capitalize(s: string): (r: string)
    ensures |r| == |s|
    ensures |s| > 0 ==> r[0] == UpperChar(s[0])
    ensures forall i :: 0 < i < |s| ==> r[i] == LowerChar(s[i])
  {
    if |s| == 0 then "" else [UpperChar(s[0])] + Lower(s[1..])
  }

  /** Capitalizing twice is capitalizing once. */
  lemma CapitalizeIdempotent(s: string)
    ensures Capitalize(Capitalize(s)) == Capitalize(s)
  {
    var c := Capitalize(s);
    var cc := Capitalize(c);
    forall i | 0 <= i < |s| ensures cc[i] == c[i] {
      if i == 0 {
        assert UpperChar(UpperChar(s[0])) == UpperChar(s[0]);
      } else {
        assert LowerChar(LowerChar(s[i])) == LowerChar(s[i]);
      }
    }
  }

  /** The simple name of the facade class of a file. */
  function FacadeName(fileName: string): string {
    Capitalize(Stem(fileName)) + "Kt"
  }

  /** The facade of `base.kt` is named after base capitalized: a capital letter inside the
      base is lowered (`stringUtils.kt` gives `StringutilsKt`, not `StringUtilsKt`). */
  lemma InnerCapitalsLowered(base: string, i: nat)
    requires base != "" && '.' !in base
    requires 0 < i < |base| && 'A' <= base[i] <= 'Z'
    ensures FacadeName(base + ".kt") == Capitalize(base) + "Kt"
    ensures FacadeName(base + ".kt")[i] == LowerChar(base[i]) != base[i]
  {
    StemOfSourceFile(base);
  }

  /** The names built after the loop: each type behind the prefix, then the facade when
      there are top-level members, then the package when it is not empty and not yet listed. */
  function NamesOf(packageName: string, found: seq<Found>, hasMembers: bool, fileName: string): (r: seq<string>)
    ensures |found| <= |r| <= |found| + 2
    ensures forall k :: 0 <= k < |found| ==> r[k] == Prefix(packageName) + found[k].name
  {
    var prefix := Prefix(packageName);
    var types := seq(|found|, k requires 0 <= k < |found| => prefix + found[k].name);
    var withFacade := if hasMembers then types + [prefix + FacadeName(fileName)] else types;
    if packageName != "" && packageName !in withFacade then withFacade + [packageName] else withFacade
  }

  /** The loop and the two appends that build the names. */
  method BuildFqns(packageName: string, foundTypesWithKind: seq<Found>, hasTopLevelMembers: bool, fileName: string)
    returns (fqns: seq<string>)
    ensures fqns == NamesOf(packageName, foundTypesWithKind, hasTopLevelMembers, fileName)
  {
    fqns := [];
    var prefix := Prefix(packageName);
    for k := 0 to |foundTypesWithKind|
      invariant |fqns| == k && forall j :: 0 <= j < k ==> fqns[j] == prefix + foundTypesWithKind[j].name
    {
      fqns := fqns + [prefix + foundTypesWithKind[k].name];
    }
    if hasTopLevelMembers {
      fqns := fqns + [prefix + FacadeName(fileName)];
    }
    if packageName != "" && packageName !in fqns {
      fqns := fqns + [packageName];
    }
  }

  /** The names of a parsed file. */
  function FileFqns(fileName: string, children: seq<Declaration>): seq<string> {
    NamesOf(PackageOf(children), DeclaredOf(children), HasMembers(children), fileName)
  }

  /** `_get_kotlin_file_metadata`: the cut path whatever the file holds; a failure gives an
      empty package, no names and the error; otherwise the package and the names. */
  function KotlinMetadata(rel: string, fileName: string, parse: Parse): (m: Metadata)
    ensures m.path == KotlinPath(rel)
    ensures m.error.Some? <==> parse.Failed?
    ensures parse.Failed? ==> m.packageName == "" && m.fqns == [] && m.error == Some(parse.error)
    ensures parse.Parsed? ==>
      m.packageName == PackageOf(parse.children) && m.fqns == FileFqns(fileName, parse.children)
  {
    match parse
    case Failed(e) => Metadata(KotlinPath(rel), "", [], Some(e))
    case Parsed(children) => Metadata(KotlinPath(rel), PackageOf(children), FileFqns(fileName, children), None)
  }

  /** The imperative parser: cut the path, scan the children, build the names. */
  method GetKotlinFileMetadata(rel: string, fileName: string, parse: Parse) returns (m: Metadata)
    ensures m == KotlinMetadata(rel, fileName, parse)
  {
    var relativePath := "/" + rel;
    if IsInfix(SrcMarker, relativePath) {
      relativePath := relativePath[FirstOccurrence(SrcMarker, relativePath) + |SrcMarker|..];
    }
    if parse.Failed? {
      return Metadata(relativePath, "", [], Some(parse.error));
    }
    var packageName, foundTypesWithKind, hasTopLevelMembers := ScanChildren(parse.children);
    var fqns := BuildFqns(packageName, foundTypesWithKind, hasTopLevelMembers, fileName);
    m := Metadata(relativePath, packageName, fqns, None);
  }

  /** Each collected type gives one name, in source order: its name behind `package.`, or
      bare in the default package. */
  lemma TypeName(rel: string, fileName: string, children: seq<Declaration>, k: nat)
    requires k < |children| && Collected(children[k], TypeKinds)
    ensures var m := KotlinMetadata(rel, fileName, Parsed(children));
      var j := |DeclaredUpTo(children, k, TypeKinds)|;
      var name := children[k].name.value;
      j < |m.fqns| && m.fqns[j] == (if m.packageName == "" then name else m.packageName + "." + name)
  {
    DeclaredAt(children, |children|, TypeKinds, k);
  }

  /** Exactly one facade name follows the type names when, and only when, the file has a
      top-level function or property; after them comes the package, exactly when it is not
      empty and not among them. */
  lemma FacadeAfterTypes(rel: string, fileName: string, children: seq<Declaration>)
    ensures var m := KotlinMetadata(rel, fileName, Parsed(children));
      var n := |DeclaredOf(children)|;
      var base := n + (if HasMembers(children) then 1 else 0);
      base <= |m.fqns| <= base + 1
      && (HasMembers(children) ==> m.fqns[n] == Prefix(m.packageName) + FacadeName(fileName))
      && (|m.fqns| == base + 1 <==> m.packageName != "" && m.packageName !in m.fqns[..base])
      && (|m.fqns| == base + 1 ==> m.fqns[base] == m.packageName)
  {
    var packageName := PackageOf(children);
    var found := DeclaredOf(children);
    var prefix := Prefix(packageName);
    var types := seq(|found|, k requires 0 <= k < |found| => prefix + found[k].name);
    var withFacade := if HasMembers(children) then types + [prefix + FacadeName(fileName)] else types;
    var fqns := FileFqns(fileName, children);
    assert fqns == NamesOf(packageName, found, HasMembers(children), fileName);
    assert fqns[..|withFacade|] == withFacade;
  }

  /** A file in a named package always lists the package among its names. */
  lemma PackageListed(rel: string, fileName: string, children: seq<Declaration>)
    requires PackageOf(children) != ""
    ensures PackageOf(children) in KotlinMetadata(rel, fileName, Parsed(children)).fqns
  {
  }
}
