/** Image dependencies (builder/build.go): which images must be built before which. */
module BuildGraph {
  datatype Layer = Layer(protoBuild: seq<string>, goBuild: map<string, string>, cgoBuild: map<string, string>,
                         goBin: seq<string>, buildWith: string)
  datatype Image = Image(id: string, base: string, layers: seq<Layer>)

  /** The image that builds a layer, or none. */
  function BuildWith(l: Layer): string {
    if l.buildWith != "" then l.buildWith
    else if |l.protoBuild| > 0 then "protoc"
    else if |l.goBuild| > 0 || |l.cgoBuild| > 0 || |l.goBin| > 0 then "go"
    else ""
  }

  /** The empty name names nothing. */
  ghost function Named(name: string): set<string> {
    if name != "" then {name} else {}
  }

  /** The base of an image, and the builders of its layers. */
  ghost function Names(image: Image): seq<string> {
    [image.base] + Builders(image.layers)
  }

  ghost function Builders(layers: seq<Layer>): (names: seq<string>)
    ensures |names| == |layers| && forall k | 0 <= k < |layers| :: names[k] == BuildWith(layers[k])
  {
    if layers == [] then [] else Builders(layers[..|layers| - 1]) + [BuildWith(layers[|layers| - 1])]
  }

  /** The known images among those named. */
  ghost function Wants(names: seq<string>, known: set<string>): set<string> {
    if names == [] then {} else Wants(names[..|names| - 1], known) + Named(names[|names| - 1]) * known
  }

  lemma {:induction false} WantsOne(name: string, known: set<string>)
    ensures Wants([name], known) == {} + Named(name) * known
  {
    assert Wants([name][..0], known) == {};
  }

  lemma {:induction false} WantsAre(names: seq<string>, known: set<string>, id: string)
    ensures id in Wants(names, known) <==> id in names && id in known && id != ""
  {
    if names != [] {
      var init, last := names[..|names| - 1], names[|names| - 1];
      WantsAre(init, known, id);
      assert names == init + [last];
    }
  }

  /** The layer is built with the image: with the one that it says, else with "protoc" if it
      compiles protocols, else with "go" if it compiles Go. */
  ghost predicate IsBuilder(l: Layer, id: string) {
    id != "" && (id == l.buildWith || (l.buildWith == "" && IsDefaultBuilder(l, id)))
  }

  ghost predicate IsDefaultBuilder(l: Layer, id: string) {
    || (l.protoBuild != [] && id == "protoc")
    || (l.protoBuild == [] && (l.goBuild != map[] || l.cgoBuild != map[] || l.goBin != []) && id == "go")
  }

  /** The image is built from, or some layer of it with, the image of this ID. */
  ghost predicate Needs(image: Image, id: string) {
    (id == image.base && id != "") || exists k :: 0 <= k < |image.layers| && IsBuilder(image.layers[k], id)
  }

  lemma {:induction false} BuildWithIs(l: Layer, id: string)
    ensures IsBuilder(l, id) <==> id != "" && id == BuildWith(l)
  {
    assert |l.goBuild| > 0 <==> l.goBuild != map[];
    assert |l.cgoBuild| > 0 <==> l.cgoBuild != map[];
  }

  /** The dependencies of an image are the known ones among its base and the builders of its layers. */
  lemma {:induction false} WantsNeeded(image: Image, known: set<string>, id: string)
    ensures id in Wants(Names(image), known) <==> id in known && Needs(image, id)
  {
    var names := Names(image);
    WantsAre(names, known, id);
    if id in names && id != "" && id != image.base {
      var k :| 0 <= k < |names| && names[k] == id;
      BuildWithIs(image.layers[k - 1], id);
    }
    if Needs(image, id) && id != image.base {
      var k :| 0 <= k < |image.layers| && IsBuilder(image.layers[k], id);
      BuildWithIs(image.layers[k], id);
      assert names[k + 1] == id;
    }
  }

  /** Dependencies by image ID. */
  type Graph = map<string, set<string>>

  /** The images by ID; of several with one ID the last counts. */
  ghost function Catalog(images: seq<Image>): map<string, Image> {
    if images == [] then map[]
    else
      var last := images[|images| - 1];
      Catalog(images[..|images| - 1])[last.id := last]
  }

  /** Dependencies on images that are not built are dropped. */
  ghost function Deps(catalog: map<string, Image>): Graph {
    map id | id in catalog :: Wants(Names(catalog[id]), catalog.Keys)
  }

  /** The catalog holds the last image of each ID. */
  lemma {:induction false} CatalogIs(images: seq<Image>, id: string)
    ensures id in Catalog(images) <==> exists k :: 0 <= k < |images| && images[k].id == id
    ensures id in Catalog(images) ==>
              exists k :: 0 <= k < |images| && images[k] == Catalog(images)[id] && images[k].id == id
                          && forall j | k < j < |images| :: images[j].id != id
  {
    if images != [] {
      var n := |images| - 1;
      var init, last := images[..n], images[n];
      CatalogIs(init, id);
      if last.id == id {
        assert images[n] == Catalog(images)[id];
      } else if id in Catalog(init) {
        var k :| 0 <= k < |init| && init[k] == Catalog(init)[id] && init[k].id == id
                 && forall j | k < j < |init| :: init[j].id != id;
        assert images[k] == init[k] && forall j | k < j < n :: images[j] == init[j];
      } else {
        assert forall k | 0 <= k < n :: images[k] == init[k];
      }
    }
  }

  /** The graph of Build: an image depends on the images that it needs and that are built too. */
  lemma {:induction false} DepsAre(images: seq<Image>, id: string, d: string)
    requires id in Catalog(images)
    ensures d in Deps(Catalog(images))[id] <==> d in Catalog(images) && Needs(Catalog(images)[id], d)
  {
    WantsNeeded(Catalog(images)[id], Catalog(images).Keys, d);
  }

  ghost predicate Closed(g: Graph) {
    forall i, d | i in g && d in g[i] :: d in g
  }

  /** j is reached from i over at most n + 1 dependencies. */
  ghost predicate ReachesIn(g: Graph, i: string, j: string, n: nat)
    decreases n
  {
    i in g && (j in g[i] || (n > 0 && exists d :: d in g[i] && ReachesIn(g, d, j, n - 1)))
  }

  /** i depends on j, directly or through other images. */
  ghost predicate Reaches(g: Graph, i: string, j: string) {
    exists n: nat :: ReachesIn(g, i, j, n)
  }

  /** Some image depends on itself. */
  ghost predicate Cyclic(g: Graph) {
    exists i :: Reaches(g, i, i)
  }

  ghost function Dependents(g: Graph, i: string): set<string> {
    set j | j in g && i in g[j]
  }

  lemma {:induction false} ReachesOne(g: Graph, i: string, j: string)
    requires i in g && j in g[i]
    ensures Reaches(g, i, j)
  {
    assert ReachesIn(g, i, j, 0);
  }

  lemma {:induction false} ReachesMore(g: Graph, i: string, d: string, j: string)
    requires i in g && d in g[i] && Reaches(g, d, j)
    ensures Reaches(g, i, j)
  {
    var n: nat :| ReachesIn(g, d, j, n);
    assert ReachesIn(g, i, j, n + 1);
  }

  /** Every dependency has a smaller rank. */
  ghost predicate Ranked(g: Graph, rank: map<string, int>) {
    && g.Keys <= rank.Keys
    && forall i, d | i in g && d in g[i] :: d in rank && rank[d] < rank[i]
  }

  lemma {:induction false} RankFalls(g: Graph, rank: map<string, int>, i: string, j: string, n: nat)
    requires Closed(g) && Ranked(g, rank) && ReachesIn(g, i, j, n)
    ensures j in g && rank[j] < rank[i]
    decreases n
  {
    if j !in g[i] {
      var d :| d in g[i] && ReachesIn(g, d, j, n - 1);
      RankFalls(g, rank, d, j, n - 1);
    }
  }

  lemma {:induction false} RankedIsAcyclic(g: Graph, rank: map<string, int>)
    requires Closed(g) && Ranked(g, rank)
    ensures !Cyclic(g)
  {
    forall i, n: nat | ReachesIn(g, i, i, n)
      ensures false
    {
      RankFalls(g, rank, i, i, n);
    }
  }

  /** A walk along dependencies. */
  ghost predicate Walk(g: Graph, p: seq<string>) {
    forall k | 0 <= k < |p| - 1 :: p[k] in g && p[k + 1] in g[p[k]]
  }

  lemma {:induction false} WalkReaches(g: Graph, p: seq<string>, a: nat, b: nat)
    requires Walk(g, p) && a < b < |p|
    ensures Reaches(g, p[a], p[b])
    decreases b - a
  {
    assert p[a + 1] in g[p[a]];
    if a + 1 == b {
      ReachesOne(g, p[a], p[b]);
    } else {
      WalkReaches(g, p, a + 1, b);
      ReachesMore(g, p[a], p[a + 1], p[b]);
    }
  }

  /** From a set in which every image depends on another of the set, walks never end. */
  lemma {:induction false} LongWalk(g: Graph, u: set<string>, n: nat) returns (p: seq<string>)
    requires u != {} && u <= g.Keys && forall i | i in u :: g[i] * u != {}
    ensures |p| == n + 1 && Walk(g, p) && forall k | 0 <= k < |p| :: p[k] in u
  {
    if n == 0 {
      var i :| i in u;
      p := [i];
    } else {
      var q := LongWalk(g, u, n - 1);
      var d :| d in g[q[n - 1]] * u;
      p := q + [d];
    }
  }

  lemma {:induction false} DistinctFit(p: seq<string>, u: set<string>)
    requires forall k | 0 <= k < |p| :: p[k] in u
    requires forall a, b | 0 <= a < b < |p| :: p[a] != p[b]
    ensures |p| <= |u|
  {
    if p != [] {
      var init, last := p[..|p| - 1], p[|p| - 1];
      DistinctFit(init, u - {last});
    }
  }

  /** A non-empty set in which every image depends on another of the set holds a cycle. */
  lemma {:induction false} NoWayOut(g: Graph, u: set<string>)
    requires u != {} && u <= g.Keys && forall i | i in u :: g[i] * u != {}
    ensures Cyclic(g)
  {
    var p := LongWalk(g, u, |u|);
    if forall a, b | 0 <= a < b < |p| :: p[a] != p[b] {
      DistinctFit(p, u);
    }
    var a, b :| 0 <= a < b < |p| && p[a] == p[b];
    WalkReaches(g, p, a, b);
  }
}
