/** What the loader of Go files returns (builder/build.go), told by the paths along which
    packages import one another. */
module ImportPaths {
  import opened Collections
  import opened BuildGraph
  import opened GoInputs

  /** The file is one of the package: of Go, cgo, C, headers or assembler, or one that is ignored. */
  predicate Has(p: Package, name: string) {
    || name in p.goFiles || name in p.cgoFiles || name in p.cFiles
    || name in p.hFiles || name in p.sFiles || name in p.ignoredGoFiles
  }

  /** The path is that of a file of the package. */
  ghost predicate FileOf(w: World, p: Package, f: string) {
    exists name :: Has(p, name) && f == w.rel(p.dir, name)
  }

  /** The sources of a package are all its files, and no other. */
  lemma {:induction false} SourcesAre(w: World, p: Package, f: string)
    ensures f in Sources(w, p) <==> FileOf(w, p, f)
    ensures |Sources(w, p)| == |p.goFiles| + |p.cgoFiles| + |p.cFiles| + |p.hFiles| + |p.sFiles| + |p.ignoredGoFiles|
  {
    assert forall name :: name in AllFiles(p) <==> Has(p, name);
    if FileOf(w, p, f) {
      var name :| Has(p, name) && f == w.rel(p.dir, name);
      var i :| 0 <= i < |AllFiles(p)| && AllFiles(p)[i] == name;
      assert Sources(w, p)[i] == f;
    }
    if i :| 0 <= i < |Sources(w, p)| && Sources(w, p)[i] == f {
      assert AllFiles(p)[i] in AllFiles(p);
      assert Has(p, AllFiles(p)[i]);
    }
  }

  /** Each package on the path imports the next one, and is neither cgo's "C" nor of the
      standard library. */
  ghost predicate ImportPath(w: World, path: seq<string>) {
    path != [] && forall k | 0 <= k < |path| - 1 ::
      && path[k] != "C" && path[k] in w.packages && !w.packages[path[k]].goroot
      && path[k + 1] in w.packages[path[k]].imports
  }

  function End(path: seq<string>): string
    requires path != []
  {
    path[|path| - 1]
  }

  /** A package that cannot be imported. */
  predicate Missing(w: World, pkg: string) {
    pkg != "C" && pkg !in w.packages
  }

  /** The file is one of a package that is neither cgo's "C" nor of the standard library. */
  ghost predicate HoldsFile(w: World, pkg: string, f: string) {
    pkg != "C" && pkg in w.packages && !w.packages[pkg].goroot && FileOf(w, w.packages[pkg], f)
  }

  /** The imports of pkg lead to a package with the file. */
  ghost predicate LeadsToFile(w: World, pkg: string, f: string) {
    exists path :: ImportPath(w, path) && path[0] == pkg && HoldsFile(w, End(path), f)
  }

  /** The imports of pkg lead to a package that cannot be imported. */
  ghost predicate LeadsNowhere(w: World, pkg: string) {
    exists path :: ImportPath(w, path) && path[0] == pkg && Missing(w, End(path))
  }

  lemma {:induction false} PathMore(w: World, pkg: string, rest: seq<string>)
    requires Expands(w, pkg) && ImportPath(w, rest) && rest[0] in w.packages[pkg].imports
    ensures ImportPath(w, [pkg] + rest) && End([pkg] + rest) == End(rest)
  {
    var path := [pkg] + rest;
    assert forall k | 0 < k < |path| :: path[k] == rest[k - 1];
  }

  /** A load that returns files found every package on every path. */
  lemma {:induction false} AlongPath(w: World, loading: set<string>, path: seq<string>, f: string)
    requires ImportPath(w, path) && Plain(w, loading, path[0]).Files?
    ensures !Missing(w, End(path))
    ensures HoldsFile(w, End(path), f) ==> f in Plain(w, loading, path[0]).files
    decreases |path|
  {
    var pkg := path[0];
    if |path| == 1 {
      if Expands(w, pkg) {
        SourcesAre(w, w.packages[pkg], f);
      }
    } else {
      var imports, rest := w.packages[pkg].imports, path[1..];
      var k :| 0 <= k < |imports| && imports[k] == path[1];
      EachReturned(w, loading + {pkg}, imports, k);
      AlongPath(w, loading + {pkg}, rest, f);
      if HoldsFile(w, End(path), f) {
        OfImport(w, loading + {pkg}, imports, k, f);
      }
    }
  }

  lemma {:induction false} OfImport(w: World, loading: set<string>, imports: seq<string>, k: nat, f: string)
    requires PlainAll(w, loading, imports).Files? && k < |imports|
    requires Plain(w, loading, imports[k]).Files? && f in Plain(w, loading, imports[k]).files
    ensures f in PlainAll(w, loading, imports).files
    decreases |imports|
  {
    if k < |imports| - 1 {
      OfImport(w, loading, imports[..|imports| - 1], k, f);
    }
  }

  /** Every file that a load returns is that of a package on some path. */
  lemma {:induction false} PathToFile(w: World, loading: set<string>, pkg: string, f: string)
    requires Plain(w, loading, pkg).Files? && f in Plain(w, loading, pkg).files
    ensures LeadsToFile(w, pkg, f)
    decreases |w.packages.Keys - loading|, 0
  {
    SourcesAre(w, w.packages[pkg], f);
    if f in Sources(w, w.packages[pkg]) {
      assert ImportPath(w, [pkg]) && End([pkg]) == pkg;
    } else {
      SubsetSize(w.packages.Keys - (loading + {pkg}), w.packages.Keys - loading);
      var k := FromImport(w, loading + {pkg}, w.packages[pkg].imports, f);
      PathToFile(w, loading + {pkg}, w.packages[pkg].imports[k], f);
      var rest :| ImportPath(w, rest) && rest[0] == w.packages[pkg].imports[k] && HoldsFile(w, End(rest), f);
      PathMore(w, pkg, rest);
      assert ([pkg] + rest)[0] == pkg;
    }
  }

  lemma {:induction false} FromImport(w: World, loading: set<string>, imports: seq<string>, f: string) returns (k: nat)
    requires PlainAll(w, loading, imports).Files? && f in PlainAll(w, loading, imports).files
    ensures k < |imports| && Plain(w, loading, imports[k]).Files? && f in Plain(w, loading, imports[k]).files
    decreases |imports|
  {
    var n := |imports| - 1;
    if f in Plain(w, loading, imports[n]).files {
      k := n;
    } else {
      k := FromImport(w, loading, imports[..n], f);
    }
  }

  /** A load fails only where a path leads to a package that cannot be imported. */
  lemma {:induction false} PathToMissing(w: World, loading: set<string>, pkg: string)
    requires Plain(w, loading, pkg) == Failed
    ensures LeadsNowhere(w, pkg)
    decreases |w.packages.Keys - loading|, 0
  {
    if Missing(w, pkg) {
      assert ImportPath(w, [pkg]) && End([pkg]) == pkg;
    } else {
      SubsetSize(w.packages.Keys - (loading + {pkg}), w.packages.Keys - loading);
      var k := FailedImport(w, loading + {pkg}, w.packages[pkg].imports);
      PathToMissing(w, loading + {pkg}, w.packages[pkg].imports[k]);
      var rest :| ImportPath(w, rest) && rest[0] == w.packages[pkg].imports[k] && Missing(w, End(rest));
      PathMore(w, pkg, rest);
      assert ([pkg] + rest)[0] == pkg;
    }
  }

  lemma {:induction false} FailedImport(w: World, loading: set<string>, imports: seq<string>) returns (k: nat)
    requires PlainAll(w, loading, imports) == Failed
    ensures k < |imports| && Plain(w, loading, imports[k]) == Failed
    decreases |imports|
  {
    var n := |imports| - 1;
    if PlainAll(w, loading, imports[..n]).Files? {
      k := n;
    } else {
      k := FailedImport(w, loading, imports[..n]);
    }
  }

  /** What a load returns: exactly the files of the packages outside the standard library
      that its imports lead to. It fails only if they lead to a package that cannot be
      imported, and always then, unless packages import one another in a cycle. */
  lemma {:induction false} LoadReturns(w: World, pkg: string)
    ensures Plain(w, {}, pkg).Files? ==>
              forall f :: f in Plain(w, {}, pkg).files <==> LeadsToFile(w, pkg, f)
    ensures Plain(w, {}, pkg) == Failed ==> LeadsNowhere(w, pkg)
    ensures LeadsNowhere(w, pkg) && !Cyclic(ImportGraph(w)) ==> Plain(w, {}, pkg) == Failed
  {
    if Plain(w, {}, pkg).Files? {
      forall f
        ensures f in Plain(w, {}, pkg).files <==> LeadsToFile(w, pkg, f)
      {
        if f in Plain(w, {}, pkg).files {
          PathToFile(w, {}, pkg, f);
        }
        if path :| ImportPath(w, path) && path[0] == pkg && HoldsFile(w, End(path), f) {
          AlongPath(w, {}, path, f);
        }
      }
      if path :| ImportPath(w, path) && path[0] == pkg && Missing(w, End(path)) {
        AlongPath(w, {}, path, "");
      }
    } else if Plain(w, {}, pkg) == Failed {
      PathToMissing(w, {}, pkg);
    } else if !Cyclic(ImportGraph(w)) {
      AcyclicLoadsEnd(w, pkg);
    }
  }
}
