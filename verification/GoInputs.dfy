/** The Go files that a program needs (builder/build.go, GoInputs): a recursive loader
    over the imports of packages, with a cache. */
module GoInputs {
  import opened Collections
  import opened BuildGraph

  /** What the go/build context reports about a package. */
  datatype Package = Package(
    goroot: bool,
    dir: string,
    goFiles: seq<string>,
    cgoFiles: seq<string>,
    cFiles: seq<string>,
    hFiles: seq<string>,
    sFiles: seq<string>,
    ignoredGoFiles: seq<string>,
    imports: seq<string>)

  /** Everything the loader asks the outside world: the packages that can be imported,
      the path of a file relative to the source directory, and a file's path in a directory. */
  datatype World = World(
    packages: map<string, Package>,
    rel: (string, string) -> string,
    join: (string, string) -> string)

  function AllFiles(p: Package): seq<string> {
    p.goFiles + p.cgoFiles + p.cFiles + p.hFiles + p.sFiles + p.ignoredGoFiles
  }

  function Sources(w: World, p: Package): seq<string> {
    seq(|AllFiles(p)|, i requires 0 <= i < |AllFiles(p)| => w.rel(p.dir, AllFiles(p)[i]))
  }

  /** A load returns files, fails, or waits for itself: a call for a package that the
      same goroutine is already loading never returns. */
  datatype Outcome = Files(files: seq<string>) | Failed | Deadlock

  function Then(a: Outcome, b: Outcome): Outcome {
    if a.Files? && b.Files? then Files(a.files + b.files) else if a.Files? then b else a
  }

  /** The uncached recursion, with the packages that are being loaded. */
  ghost function Plain(w: World, loading: set<string>, pkg: string): Outcome
    decreases |w.packages.Keys - loading|, 0
  {
    if pkg in loading then Deadlock
    else if pkg == "C" then Files([])
    else if pkg !in w.packages then Failed
    else if w.packages[pkg].goroot then Files([])
    else
      assert w.packages.Keys - (loading + {pkg}) < w.packages.Keys - loading;
      SubsetSize(w.packages.Keys - (loading + {pkg}), w.packages.Keys - loading);
      Then(Files(Sources(w, w.packages[pkg])), PlainAll(w, loading + {pkg}, w.packages[pkg].imports))
  }

  /** One import after the other, up to the first that does not return files. */
  ghost function PlainAll(w: World, loading: set<string>, imports: seq<string>): Outcome
    decreases |w.packages.Keys - loading|, |imports| + 1
  {
    if imports == [] then Files([])
    else Then(PlainAll(w, loading, imports[..|imports| - 1]), Plain(w, loading, imports[|imports| - 1]))
  }

  /** A package is loaded by recursion. */
  predicate Expands(w: World, pkg: string) {
    pkg != "C" && pkg in w.packages && !w.packages[pkg].goroot
  }

  /** With fewer packages being loaded, a load that returned files returns the same. */
  lemma {:induction false} FewerLoading(w: World, some: set<string>, all: set<string>, pkg: string)
    requires some <= all && Plain(w, all, pkg).Files?
    ensures Plain(w, some, pkg) == Plain(w, all, pkg)
    decreases |w.packages.Keys - all|, 0
  {
    if Expands(w, pkg) {
      SubsetSize(w.packages.Keys - (all + {pkg}), w.packages.Keys - all);
      FewerLoadingAll(w, some + {pkg}, all + {pkg}, w.packages[pkg].imports);
    }
  }

  lemma {:induction false} FewerLoadingAll(w: World, some: set<string>, all: set<string>, imports: seq<string>)
    requires some <= all && PlainAll(w, all, imports).Files?
    ensures PlainAll(w, some, imports) == PlainAll(w, all, imports)
    decreases |w.packages.Keys - all|, |imports| + 1
  {
    if imports != [] {
      FewerLoadingAll(w, some, all, imports[..|imports| - 1]);
      FewerLoading(w, some, all, imports[|imports| - 1]);
    }
  }

  /** With a package, the imports that it was loaded by are in the set. */
  ghost predicate Complete(w: World, pkgs: set<string>) {
    forall p, k | p in pkgs && Expands(w, p) && 0 <= k < |w.packages[p].imports| :: w.packages[p].imports[k] in pkgs
  }

  /** A complete set of packages does not lead to any other that is being loaded. */
  lemma {:induction false} OthersLoading(w: World, pkgs: set<string>, few: set<string>, many: set<string>, pkg: string)
    requires Complete(w, pkgs) && pkg in pkgs && many * pkgs <= few && Plain(w, few, pkg).Files?
    ensures Plain(w, many, pkg) == Plain(w, few, pkg)
    decreases |w.packages.Keys - few|, 0
  {
    if Expands(w, pkg) {
      SubsetSize(w.packages.Keys - (few + {pkg}), w.packages.Keys - few);
      OthersLoadingAll(w, pkgs, few + {pkg}, many + {pkg}, w.packages[pkg].imports);
    }
  }

  lemma {:induction false} OthersLoadingAll(w: World, pkgs: set<string>, few: set<string>, many: set<string>,
                                            imports: seq<string>)
    requires Complete(w, pkgs) && many * pkgs <= few && PlainAll(w, few, imports).Files?
    requires forall k | 0 <= k < |imports| :: imports[k] in pkgs
    ensures PlainAll(w, many, imports) == PlainAll(w, few, imports)
    decreases |w.packages.Keys - few|, |imports| + 1
  {
    if imports != [] {
      OthersLoadingAll(w, pkgs, few, many, imports[..|imports| - 1]);
      OthersLoading(w, pkgs, few, many, imports[|imports| - 1]);
    }
  }

  /** What the cache may hold: of a package all its imports too, and for each package
      what the uncached recursion returns. */
  ghost predicate CacheOk(w: World, inputs: map<string, seq<string>>) {
    Complete(w, inputs.Keys) && forall p | p in inputs :: Plain(w, {}, p) == Files(inputs[p])
  }

  /** A hit returns what the uncached recursion would return. */
  lemma {:induction false} HitIsPlain(w: World, inputs: map<string, seq<string>>, loading: set<string>, pkg: string)
    requires CacheOk(w, inputs) && pkg in inputs && loading !! inputs.Keys
    ensures Plain(w, loading, pkg) == Files(inputs[pkg])
  {
    OthersLoading(w, inputs.Keys, {}, loading, pkg);
  }

  /** A load that returned files may be cached. */
  lemma {:induction false} StoreKeeps(w: World, inputs: map<string, seq<string>>, loading: set<string>, pkg: string,
                                      files: seq<string>)
    requires CacheOk(w, inputs) && Plain(w, loading, pkg) == Files(files)
    requires Expands(w, pkg) ==> forall k | 0 <= k < |w.packages[pkg].imports| :: w.packages[pkg].imports[k] in inputs
    ensures CacheOk(w, inputs[pkg := files])
  {
    FewerLoading(w, {}, loading, pkg);
  }

  class Loader {
    const w: World
    var inputs: map<string, seq<string>>

    constructor (w: World)
      ensures this.w == w && inputs == map[] && CacheOk(w, inputs)
    {
      this.w, inputs := w, map[];
    }

    /** The files of a package itself. */
    method OwnSources(p: Package) returns (inputs: seq<string>)
      ensures inputs == Sources(w, p)
    {
      var files := p.goFiles + p.cgoFiles + p.cFiles + p.hFiles + p.sFiles + p.ignoredGoFiles;
      inputs := [];
      for i := 0 to |files|
        invariant inputs == Sources(w, p)[..i]
      {
        inputs := inputs + [w.rel(p.dir, files[i])];
      }
    }

    /** Load a package and what it imports, from the cache where it can; `loading` are the
        packages whose loads are waiting for this one. */
    method Load(pkg: string, loading: set<string>) returns (out: Outcome)
      requires CacheOk(w, inputs) && loading !! inputs.Keys
      modifies this`inputs
      ensures CacheOk(w, inputs) && loading !! inputs.Keys
      ensures old(inputs).Keys <= inputs.Keys
      ensures out == Plain(w, loading, pkg)
      ensures out.Files? ==> pkg in inputs
      decreases |w.packages.Keys - loading|, 0
    {
      if pkg in inputs {
        HitIsPlain(w, inputs, loading, pkg);
        return Files(inputs[pkg]);
      }
      if pkg in loading {
        return Deadlock;
      }
      if pkg == "C" {
        out := Files([]);
      } else {
        if pkg !in w.packages {
          return Failed;
        }
        var p := w.packages[pkg];
        if p.goroot {
          StoreKeeps(w, inputs, loading, pkg, []);
          inputs := inputs[pkg := []];
          out := Files([]);
        } else {
          SubsetSize(w.packages.Keys - (loading + {pkg}), w.packages.Keys - loading);
          out := LoadImports(p, loading + {pkg});
          if !out.Files? {
            return;
          }
        }
      }
      StoreKeeps(w, inputs, loading, pkg, out.files);
      inputs := inputs[pkg := out.files];
    }

    /** The files of a package and, one after the other, those of its imports. */
    method LoadImports(p: Package, loading: set<string>) returns (out: Outcome)
      requires CacheOk(w, inputs) && loading !! inputs.Keys
      modifies this`inputs
      ensures CacheOk(w, inputs) && loading !! inputs.Keys
      ensures old(inputs).Keys <= inputs.Keys
      ensures out == Then(Files(Sources(w, p)), PlainAll(w, loading, p.imports))
      ensures out.Files? ==> forall k | 0 <= k < |p.imports| :: p.imports[k] in inputs
      decreases |w.packages.Keys - loading|, |p.imports| + 1
    {
      var files := OwnSources(p);
      ghost var own, got := files, [];
      for k := 0 to |p.imports|
        invariant CacheOk(w, inputs) && loading !! inputs.Keys
        invariant old(inputs).Keys <= inputs.Keys
        invariant PlainAll(w, loading, p.imports[..k]) == Files(got) && files == own + got
        invariant forall j | 0 <= j < k :: p.imports[j] in inputs
      {
        out := Load(p.imports[k], loading);
        if !out.Files? {
          FirstStop(w, loading, p.imports, k);
          return;
        }
        OneMore(w, loading, p.imports, k);
        Assoc(own, got, out.files);
        files, got := files + out.files, got + out.files;
      }
      assert p.imports[..|p.imports|] == p.imports;
      out := Files(files);
    }

    method JoinAll(dir: string, p: Package) returns (inputs: seq<string>)
      ensures inputs == OwnFiles(w, dir, p)
    {
      inputs := [];
      for i := 0 to |p.goFiles|
        invariant inputs == OwnFiles(w, dir, p)[..i]
      {
        inputs := inputs + [w.join(dir, p.goFiles[i])];
      }
    }

    /** Append the files that were not appended before. */
    method AppendNew(inputs: seq<string>, dedupe: set<string>, files: seq<string>, ghost own: seq<string>,
                     ghost all: seq<string>)
      returns (more: seq<string>, seen: set<string>)
      requires inputs == own + Dedupe(all) && forall f :: f in dedupe <==> f in Dedupe(all)
      ensures more == own + Dedupe(all + files) && forall f :: f in seen <==> f in Dedupe(all + files)
    {
      more, seen := inputs, dedupe;
      assert all + files[..0] == all;
      for j := 0 to |files|
        invariant more == own + Dedupe(all + files[..j]) && forall f :: f in seen <==> f in Dedupe(all + files[..j])
      {
        var f := files[j];
        DedupeMore(all, files, j);
        if f !in seen {
          more, seen := more + [f], seen + {f};
        }
      }
      assert files[..|files|] == files;
    }

    /** GoInputs.Load. */
    method LoadDir(dir: string, found: Directory) returns (out: Outcome)
      requires CacheOk(w, inputs)
      modifies this`inputs
      ensures CacheOk(w, inputs) && out == Required(w, dir, found)
    {
      if found.NoPackage? {
        return Failed;
      }
      var p := found.package;
      var files := JoinAll(dir, p);
      ghost var own, all := files, [];
      var dedupe := {};
      for k := 0 to |p.imports|
        invariant CacheOk(w, inputs) && PlainAll(w, {}, p.imports[..k]) == Files(all)
        invariant files == own + Dedupe(all) && forall f :: f in dedupe <==> f in Dedupe(all)
      {
        out := Load(p.imports[k], {});
        if !out.Files? {
          FirstStop(w, {}, p.imports, k);
          return;
        }
        OneMore(w, {}, p.imports, k);
        files, dedupe := AppendNew(files, dedupe, out.files, own, all);
        all := all + out.files;
      }
      assert p.imports[..|p.imports|] == p.imports;
      out := Files(files);
    }
  }

  lemma {:induction false} DedupeMore(all: seq<string>, files: seq<string>, j: nat)
    requires j < |files|
    ensures var init := Dedupe(all + files[..j]);
            Dedupe(all + files[..j + 1]) == if files[j] in init then init else init + [files[j]]
  {
    assert (all + files[..j + 1])[..|all| + j] == all + files[..j];
  }

  lemma {:induction false} Assoc(a: seq<string>, b: seq<string>, c: seq<string>)
    ensures (a + b) + c == a + (b + c)
  {
  }

  lemma {:induction false} OneMore(w: World, loading: set<string>, imports: seq<string>, k: nat)
    requires k < |imports|
    ensures PlainAll(w, loading, imports[..k + 1]) ==
            Then(PlainAll(w, loading, imports[..k]), Plain(w, loading, imports[k]))
  {
    assert imports[..k + 1][..k] == imports[..k];
  }

  /** The first import that does not return files decides. */
  lemma {:induction false} FirstStop(w: World, loading: set<string>, imports: seq<string>, k: nat)
    requires k < |imports| && PlainAll(w, loading, imports[..k]).Files? && !Plain(w, loading, imports[k]).Files?
    ensures PlainAll(w, loading, imports) == Plain(w, loading, imports[k])
    decreases |imports|
  {
    if k == |imports| - 1 {
    } else {
      assert imports[..|imports| - 1][..k] == imports[..k];
      FirstStop(w, loading, imports[..|imports| - 1], k);
    }
  }

  /** Which packages a package that is loaded by recursion imports. */
  ghost function ImportGraph(w: World): Graph {
    map p | p in w.packages && Expands(w, p) :: set k | 0 <= k < |w.packages[p].imports| :: w.packages[p].imports[k]
  }

  /** q is loaded by recursion when pkg is. */
  ghost predicate Pulls(w: World, pkg: string, q: string) {
    Expands(w, q) && (q == pkg || Reaches(ImportGraph(w), pkg, q))
  }

  /** The file belongs to a package outside the standard library that pkg is or imports,
      directly or not. */
  ghost predicate Needs(w: World, pkg: string, f: string) {
    exists q :: Pulls(w, pkg, q) && f in Sources(w, w.packages[q])
  }

  ghost predicate SomeNeeds(w: World, imports: seq<string>, f: string) {
    exists k :: 0 <= k < |imports| && Needs(w, imports[k], f)
  }

  lemma {:induction false} LeafNeeds(w: World, pkg: string, f: string)
    requires !Expands(w, pkg)
    ensures !Needs(w, pkg, f)
  {
    forall q, n: nat | ReachesIn(ImportGraph(w), pkg, q, n)
      ensures false
    {
    }
  }

  lemma {:induction false} NeedsStep(w: World, pkg: string, f: string)
    requires Expands(w, pkg)
    ensures Needs(w, pkg, f) <==> f in Sources(w, w.packages[pkg]) || SomeNeeds(w, w.packages[pkg].imports, f)
  {
    var g, p := ImportGraph(w), w.packages[pkg];
    if Needs(w, pkg, f) && f !in Sources(w, p) {
      var q :| Pulls(w, pkg, q) && f in Sources(w, w.packages[q]);
      var d := FirstHop(g, pkg, q);
      var k :| 0 <= k < |p.imports| && p.imports[k] == d;
      assert Pulls(w, p.imports[k], q);
      assert Needs(w, p.imports[k], f);
    }
    if SomeNeeds(w, p.imports, f) {
      var k :| 0 <= k < |p.imports| && Needs(w, p.imports[k], f);
      var q :| Pulls(w, p.imports[k], q) && f in Sources(w, w.packages[q]);
      if q == p.imports[k] {
        ReachesOne(g, pkg, q);
      } else {
        ReachesMore(g, pkg, p.imports[k], q);
      }
      assert Pulls(w, pkg, q);
    }
    if f in Sources(w, p) {
      assert Pulls(w, pkg, pkg);
    }
  }

  lemma {:induction false} FirstHop(g: Graph, i: string, j: string) returns (d: string)
    requires Reaches(g, i, j)
    ensures i in g && d in g[i] && (d == j || Reaches(g, d, j))
  {
    var n: nat :| ReachesIn(g, i, j, n);
    if j in g[i] {
      d := j;
    } else {
      d :| d in g[i] && ReachesIn(g, d, j, n - 1);
    }
  }

  /** A load returns exactly the files of the packages outside the standard library that
      the package is or imports, directly or not. */
  lemma {:induction false} PlainIsComplete(w: World, loading: set<string>, pkg: string, f: string)
    requires Plain(w, loading, pkg).Files?
    ensures f in Plain(w, loading, pkg).files <==> Needs(w, pkg, f)
    decreases |w.packages.Keys - loading|, 0
  {
    if Expands(w, pkg) {
      SubsetSize(w.packages.Keys - (loading + {pkg}), w.packages.Keys - loading);
      PlainAllIsComplete(w, loading + {pkg}, w.packages[pkg].imports, f);
      NeedsStep(w, pkg, f);
    } else {
      LeafNeeds(w, pkg, f);
    }
  }

  lemma {:induction false} PlainAllIsComplete(w: World, loading: set<string>, imports: seq<string>, f: string)
    requires PlainAll(w, loading, imports).Files?
    ensures f in PlainAll(w, loading, imports).files <==> SomeNeeds(w, imports, f)
    decreases |w.packages.Keys - loading|, |imports| + 1
  {
    if imports != [] {
      var n := |imports| - 1;
      PlainAllIsComplete(w, loading, imports[..n], f);
      PlainIsComplete(w, loading, imports[n], f);
      assert SomeNeeds(w, imports, f) <==> SomeNeeds(w, imports[..n], f) || Needs(w, imports[n], f) by {
        if SomeNeeds(w, imports[..n], f) {
          var k :| 0 <= k < n && Needs(w, imports[..n][k], f);
          assert imports[k] == imports[..n][k];
        }
        if k :| 0 <= k < |imports| && Needs(w, imports[k], f) {
          assert k < n ==> imports[..n][k] == imports[k];
        }
      }
    }
  }

  /** A load waits for itself only where packages import one another in a cycle. */
  lemma {:induction false} DeadlockIsCycle(w: World, loading: set<string>, pkg: string)
    requires Plain(w, loading, pkg) == Deadlock
    ensures pkg in loading || (exists s :: s in loading && Reaches(ImportGraph(w), pkg, s)) || Cyclic(ImportGraph(w))
    decreases |w.packages.Keys - loading|, 0
  {
    if pkg !in loading {
      var g, imports := ImportGraph(w), w.packages[pkg].imports;
      SubsetSize(w.packages.Keys - (loading + {pkg}), w.packages.Keys - loading);
      var k := DeadlockAt(w, loading + {pkg}, imports);
      var d := imports[k];
      DeadlockIsCycle(w, loading + {pkg}, d);
      if d in loading + {pkg} {
        ReachesOne(g, pkg, d);
      } else if s :| s in loading + {pkg} && Reaches(g, d, s) {
        ReachesMore(g, pkg, d, s);
      }
    }
  }

  lemma {:induction false} DeadlockAt(w: World, loading: set<string>, imports: seq<string>) returns (k: nat)
    requires PlainAll(w, loading, imports) == Deadlock
    ensures k < |imports| && Plain(w, loading, imports[k]) == Deadlock
    decreases |imports|
  {
    if PlainAll(w, loading, imports[..|imports| - 1]) == Deadlock {
      k := DeadlockAt(w, loading, imports[..|imports| - 1]);
    } else {
      k := |imports| - 1;
    }
  }

  /** On an acyclic import graph no load waits for itself. */
  lemma {:induction false} AcyclicLoadsEnd(w: World, pkg: string)
    requires !Cyclic(ImportGraph(w))
    ensures Plain(w, {}, pkg) != Deadlock
  {
    if Plain(w, {}, pkg) == Deadlock {
      DeadlockIsCycle(w, {}, pkg);
    }
  }

  /** A load that returned files has not met a package that was being loaded. */
  lemma {:induction false} LoadedAvoids(w: World, loading: set<string>, pkg: string, q: string, n: nat)
    requires Plain(w, loading, pkg).Files? && ReachesIn(ImportGraph(w), pkg, q, n)
    ensures q !in loading + {pkg}
    decreases n
  {
    var g, imports := ImportGraph(w), w.packages[pkg].imports;
    var d := q;
    if q !in g[pkg] {
      d :| d in g[pkg] && ReachesIn(g, d, q, n - 1);
    }
    var k :| 0 <= k < |imports| && imports[k] == d;
    EachReturned(w, loading + {pkg}, imports, k);
    if q !in g[pkg] {
      LoadedAvoids(w, loading + {pkg}, d, q, n - 1);
    }
  }

  lemma {:induction false} EachReturned(w: World, loading: set<string>, imports: seq<string>, k: nat)
    requires PlainAll(w, loading, imports).Files? && k < |imports|
    ensures Plain(w, loading, imports[k]).Files?
    decreases |imports|
  {
    if k < |imports| - 1 {
      EachReturned(w, loading, imports[..|imports| - 1], k);
    }
  }

  /** What was loaded does not import itself. */
  lemma {:induction false} LoadedIsAcyclic(w: World, pkg: string)
    requires Plain(w, {}, pkg).Files?
    ensures !Reaches(ImportGraph(w), pkg, pkg)
  {
    forall n: nat | ReachesIn(ImportGraph(w), pkg, pkg, n)
      ensures false
    {
      LoadedAvoids(w, {}, pkg, pkg, n);
    }
  }

  /** Every file once, at its first place. */
  ghost function Dedupe(files: seq<string>): seq<string> {
    if files == [] then []
    else
      var init, last := Dedupe(files[..|files| - 1]), files[|files| - 1];
      if last in init then init else init + [last]
  }

  lemma {:induction false} DedupeKeepsOnce(files: seq<string>)
    ensures forall i, j | 0 <= i < j < |Dedupe(files)| :: Dedupe(files)[i] != Dedupe(files)[j]
    ensures forall f :: f in Dedupe(files) <==> f in files
  {
    if files != [] {
      DedupeKeepsOnce(files[..|files| - 1]);
      assert files == files[..|files| - 1] + [files[|files| - 1]];
    }
  }

  /** What ImportDir returns. */
  datatype Directory = NoPackage | Found(package: Package)

  function OwnFiles(w: World, dir: string, p: Package): seq<string> {
    seq(|p.goFiles|, i requires 0 <= i < |p.goFiles| => w.join(dir, p.goFiles[i]))
  }

  /** What Load returns for a directory: its own files and then, each once, the files of
      the packages that it imports. */
  ghost function Required(w: World, dir: string, found: Directory): Outcome {
    match found
    case NoPackage => Failed
    case Found(p) =>
      match PlainAll(w, {}, p.imports)
      case Files(all) => Files(OwnFiles(w, dir, p) + Dedupe(all))
      case Failed => Failed
      case Deadlock => Deadlock
  }

  /** The files after the directory's own are each there once, and are exactly those of the
      packages outside the standard library that the directory imports, directly or not. */
  lemma {:induction false} RequiredIsExact(w: World, dir: string, p: Package)
    requires Required(w, dir, Found(p)).Files?
    ensures var own, files := OwnFiles(w, dir, p), Required(w, dir, Found(p)).files;
            && |own| == |p.goFiles| <= |files|
            && (forall i | 0 <= i < |own| :: files[i] == w.join(dir, p.goFiles[i]))
            && (forall i, j | |own| <= i < j < |files| :: files[i] != files[j])
            && (forall f :: f in files[|own|..] <==> SomeNeeds(w, p.imports, f))
  {
    var own, all := OwnFiles(w, dir, p), PlainAll(w, {}, p.imports).files;
    var files := own + Dedupe(all);
    DedupeKeepsOnce(all);
    assert files[|own|..] == Dedupe(all);
    forall f
      ensures f in all <==> SomeNeeds(w, p.imports, f)
    {
      PlainAllIsComplete(w, {}, p.imports, f);
    }
  }
}
