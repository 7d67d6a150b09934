/** The Java parser's metadata for one `.java` file: its path as the graph stores it, its
    package and the fully qualified names of its top-level types. */
module JavaSourceParser {
  import opened Common
  import opened SourceMetadata

  const PackageKind := "package_declaration"
  const PackageIdKind := "scoped_identifier"
  const ModuleKind := "module_declaration"

  /** The top-level children whose names are collected: the five type declarations and a
      module declaration. */
  const CollectedKinds: set<string> := {"class_declaration", "interface_declaration", "enum_declaration",
                                        "annotation_type_declaration", "record_declaration", ModuleKind}

  const PackageInfo := "package-info.java"

  /** The package of a file's children. */
  function PackageOf(children: seq<Declaration>): string {
    PackageUpTo(children, |children|, PackageKind, PackageIdKind)
  }

  /** The collected declarations of a file's children, in source order. */
  function DeclaredOf(children: seq<Declaration>): seq<Found> {
    DeclaredUpTo(children, |children|, CollectedKinds)
  }

  /** The loop over the top-level children: the package and the collected declarations, in
      source order. */
  method ScanChildren(children: seq<Declaration>) returns (packageName: string, foundTypesWithKind: seq<Found>)
    ensures packageName == PackageOf(children)
    ensures foundTypesWithKind == DeclaredOf(children)
  {
    packageName := "";
    foundTypesWithKind := [];
    for k := 0 to |children|
      invariant packageName == PackageUpTo(children, k, PackageKind, PackageIdKind)
      invariant foundTypesWithKind == DeclaredUpTo(children, k, CollectedKinds)
    {
      var child := children[k];
      if child.kind == PackageKind {
        var id := FindIdentifier(child.parts, PackageIdKind);
        if id.Some? {
          packageName := id.value;
        }
      } else if child.kind in CollectedKinds - {ModuleKind} {
        if child.name.Some? {
          foundTypesWithKind := foundTypesWithKind + [Found(child.name.value, child.kind)];
        }
      } else if child.kind == ModuleKind {
        if child.name.Some? {
          foundTypesWithKind := foundTypesWithKind + [Found(child.name.value, child.kind)];
        }
      }
    }
  }

  /** The name a declaration stands for: a module's name as it is, a type's name behind the
      package prefix. */
  function FqnOf(prefix: string, f: Found): string {
    if f.kind == ModuleKind then f.name else prefix + f.name
  }

  /** The names of the declarations, one each, in order. */
  function FqnsOf(prefix: string, found: seq<Found>): (r: seq<string>)
    ensures |r| == |found| && forall k :: 0 <= k < |found| ==> r[k] == FqnOf(prefix, found[k])
  {
    seq(|found|, k requires 0 <= k < |found| => FqnOf(prefix, found[k]))
  }

  /** The loop building the names. */
  method BuildFqns(packageName: string, foundTypesWithKind: seq<Found>) returns (fqns: seq<string>)
    ensures fqns == FqnsOf(Prefix(packageName), foundTypesWithKind)
  {
    fqns := [];
    var prefix := Prefix(packageName);
    for k := 0 to |foundTypesWithKind|
      invariant fqns == FqnsOf(prefix, foundTypesWithKind[..k])
    {
      var f := foundTypesWithKind[k];
      if f.kind == ModuleKind {
        fqns := fqns + [f.name];
      } else {
        fqns := fqns + [prefix + f.name];
      }
      assert FqnsOf(prefix, foundTypesWithKind[..k + 1]) == FqnsOf(prefix, foundTypesWithKind[..k]) + [FqnOf(prefix, f)];
    }
    assert foundTypesWithKind[..|foundTypesWithKind|] == foundTypesWithKind;
  }

  /** The names of a parsed file: its declarations' names, then for `package-info.java` the
      package itself when it is not empty and not yet listed. */
  function FileFqns(fileName: string, children: seq<Declaration>): seq<string> {
    var packageName := PackageOf(children);
    var fqns := FqnsOf(Prefix(packageName), DeclaredOf(children));
    if fileName == PackageInfo && packageName != "" && packageName !in fqns then fqns + [packageName] else fqns
  }

  /** `_get_java_file_metadata` on a file at `rel` below the project root: the path is `/`
      and rel whatever the file holds (the `/src` trimming is switched off); a failure gives an
      empty package, no names and the error; otherwise the package and the names. */
  function JavaMetadata(rel: string, fileName: string, parse: Parse): (m: Metadata)
    ensures m.path == "/" + rel
    ensures m.error.Some? <==> parse.Failed?
    ensures parse.Failed? ==> m.packageName == "" && m.fqns == [] && m.error == Some(parse.error)
    ensures parse.Parsed? ==>
      m.packageName == PackageOf(parse.children) && m.fqns == FileFqns(fileName, parse.children)
  {
    match parse
    case Failed(e) => Metadata("/" + rel, "", [], Some(e))
    case Parsed(children) => Metadata("/" + rel, PackageOf(children), FileFqns(fileName, children), None)
  }

  /** The imperative parser: scan the children, build the names, add the package for
      `package-info.java`. */
  method GetJavaFileMetadata(rel: string, fileName: string, parse: Parse) returns (m: Metadata)
    ensures m == JavaMetadata(rel, fileName, parse)
  {
    var relativePath := "/" + rel;
    if parse.Failed? {
      return Metadata(relativePath, "", [], Some(parse.error));
    }
    var packageName, foundTypesWithKind := ScanChildren(parse.children);
    var fqns := BuildFqns(packageName, foundTypesWithKind);
    if fileName == PackageInfo && packageName != "" && packageName !in fqns {
      fqns := fqns + [packageName];
    }
    m := Metadata(relativePath, packageName, fqns, None);
  }

  /** Each collected declaration gives one name, in source order: a module its bare name, a
      type its name behind `package.` (or bare in the default package). */
  lemma DeclarationName(rel: string, fileName: string, children: seq<Declaration>, k: nat)
    requires k < |children| && Collected(children[k], CollectedKinds)
    ensures var m := JavaMetadata(rel, fileName, Parsed(children));
      var j := |DeclaredUpTo(children, k, CollectedKinds)|;
      var name := children[k].name.value;
      j < |m.fqns|
      && m.fqns[j] == (if children[k].kind == ModuleKind then name
                       else if m.packageName == "" then name
                       else m.packageName + "." + name)
  {
    DeclaredAt(children, |children|, CollectedKinds, k);
  }

  /** Every name but a `package-info.java` package entry comes from a collected declaration:
      name j from the child before which exactly j declarations are collected. */
  lemma NameOrigin(rel: string, fileName: string, children: seq<Declaration>, j: nat) returns (k: nat)
    requires j < |DeclaredOf(children)|
    ensures k < |children| && Collected(children[k], CollectedKinds)
    ensures |DeclaredUpTo(children, k, CollectedKinds)| == j
    ensures JavaMetadata(rel, fileName, Parsed(children)).fqns[j]
      == FqnOf(Prefix(PackageOf(children)), Found(children[k].name.value, children[k].kind))
  {
    k := DeclaredFrom(children, |children|, CollectedKinds, j);
  }

  /** Only `package-info.java` can list more names than declarations, and only its package:
      once, when the package is not empty; a declared name equal to it is not repeated. */
  lemma PackageInfoNames(rel: string, fileName: string, children: seq<Declaration>)
    ensures var m := JavaMetadata(rel, fileName, Parsed(children));
      var n := |DeclaredOf(children)|;
      m.fqns[..n] == FqnsOf(Prefix(m.packageName), DeclaredOf(children))
      && (fileName != PackageInfo || m.packageName == "" ==> |m.fqns| == n)
      && (fileName == PackageInfo && m.packageName != "" ==>
            m.packageName in m.fqns && n <= |m.fqns| <= n + 1)
  {
    var fqns := FqnsOf(Prefix(PackageOf(children)), DeclaredOf(children));
    assert (fqns + [PackageOf(children)])[..|fqns|] == fqns;
    assert fqns[..|fqns|] == fqns;
  }

  /** A file without a package declaration is in the default package, so its type names are
      bare. */
  lemma DefaultPackage(children: seq<Declaration>)
    requires forall k :: 0 <= k < |children| ==> children[k].kind != PackageKind
    ensures PackageOf(children) == ""
  {
    NoPackageDeclaration(children, |children|);
  }

  /** No package declaration among the first n children leaves the package empty. */
  lemma {:induction false} NoPackageDeclaration(children: seq<Declaration>, n: nat)
    requires n <= |children|
    requires forall k :: 0 <= k < n ==> children[k].kind != PackageKind
    ensures PackageUpTo(children, n, PackageKind, PackageIdKind) == ""
    decreases n
  {
    if n > 0 {
      NoPackageDeclaration(children, n - 1);
    }
  }
}
