/** Builder.Build (builder/build.go): track every image build, start those without
    pending dependencies, and take finished builds out one by one. */
module BuildScheduler {
  import opened BuildGraph
  import opened BuildMachine
  import opened BuildRuns

  class Build {
    const image: Image
    var failed: bool
    var once: bool
    var abort: bool
    var dependencies: set<Build>
    var dependents: set<Build>

    constructor (image: Image)
      ensures this.image == image && !failed && !once && !abort && dependencies == {} && dependents == {}
    {
      this.image := image;
      failed, once, abort, dependencies, dependents := false, false, false, {}, {};
    }

    method AddDependency(dep: Build)
      modifies this`dependencies
      ensures dependencies == old(dependencies) + {dep}
    {
      dependencies := dependencies + {dep};
    }

    method RemoveDependency(dep: Build)
      modifies this`dependencies
      ensures dependencies == old(dependencies) - {dep}
    {
      dependencies := dependencies - {dep};
    }

    method AddDependent(dep: Build)
      modifies this`dependents
      ensures dependents == old(dependents) + {dep}
    {
      dependents := dependents + {dep};
    }
  }

  /** Each build is filed under the ID of its image. */
  ghost predicate Filed(builds: map<string, Build>) {
    forall id | id in builds :: builds[id].image.id == id
  }

  /** The builds are those with the IDs. */
  ghost predicate Same(builds: map<string, Build>, objects: set<Build>, ids: set<string>) {
    && (forall b | b in objects :: b.image.id in ids && b.image.id in builds && builds[b.image.id] == b)
    && (forall id | id in ids :: id in builds && builds[id] in objects)
  }

  ghost predicate EdgesAt(builds: map<string, Build>, g: Graph, id: string)
    requires id in builds
    reads builds[id]
  {
    id in g && Same(builds, builds[id].dependencies, g[id]) && Same(builds, builds[id].dependents, Dependents(g, id))
  }

  /** Dependencies and Dependents hold the edges of the graph, forwards and backwards. */
  ghost predicate Edges(builds: map<string, Build>, g: Graph)
    reads builds.Values
  {
    Filed(builds) && g.Keys == builds.Keys && forall id {:trigger EdgesAt(builds, g, id)} | id in builds ::
                                                EdgesAt(builds, g, id)
  }

  /** The closure addDependency of Build: an unknown image is no dependency. */
  method AddDependency(builds: map<string, Build>, build: Build, dependsOn: string, ghost g: Graph)
    returns (ok: bool, ghost more: Graph)
    requires Edges(builds, g) && build in builds.Values
    modifies builds.Values
    ensures forall b: Build | b in builds.Values ::
              b.failed == old(b.failed) && b.once == old(b.once) && b.abort == old(b.abort)
    ensures ok == (dependsOn in builds)
    ensures build.image.id in g && more == g[build.image.id := g[build.image.id] + ({dependsOn} * builds.Keys)]
    ensures Edges(builds, more)
  {
    ghost var from :| from in builds && builds[from] == build;
    assert EdgesAt(builds, g, from);
    ok, more := dependsOn in builds, g[from := g[from] + ({dependsOn} * builds.Keys)];
    if !ok {
      assert g[from] + ({dependsOn} * builds.Keys) == g[from];
      assert more == g;
      return;
    }
    var dep := builds[dependsOn];
    assert EdgesAt(builds, g, dependsOn);
    build.AddDependency(dep);
    dep.AddDependent(build);
    forall id | id in builds
      ensures EdgesAt(builds, more, id)
    {
      assert old(EdgesAt(builds, g, id));
      assert Dependents(more, id) == Dependents(g, id) + (if id == dependsOn then {from} else {});
    }
  }

  /** The builds are as NewBuild made them, one for each image of the catalog. */
  ghost predicate Blank(builds: map<string, Build>, catalog: map<string, Image>)
    reads builds.Values
  {
    && builds.Keys == catalog.Keys
    && (forall id | id in builds :: builds[id].image == catalog[id] && catalog[id].id == id)
    && (forall b | b in builds.Values :: !b.failed && !b.once && !b.abort)
  }

  method NewBuilds(images: seq<Image>) returns (builds: map<string, Build>)
    ensures fresh(builds.Values) && Blank(builds, Catalog(images))
    ensures forall b | b in builds.Values :: b.dependencies == {} && b.dependents == {}
  {
    builds := map[];
    for k := 0 to |images|
      invariant fresh(builds.Values) && Blank(builds, Catalog(images[..k]))
      invariant forall b | b in builds.Values :: b.dependencies == {} && b.dependents == {}
    {
      var image := images[k];
      var build := new Build(image);
      ghost var were := builds;
      builds := builds[image.id := build];
      assert builds.Values <= were.Values + {build};
      assert images[..k + 1][..k] == images[..k];
    }
    assert images[..|images|] == images;
  }

  ghost predicate Flags(b: Build)
    reads b
  {
    !b.failed && !b.once && !b.abort
  }

  /** An image that is named is a dependency; the empty name is none. */
  method AddNamed(builds: map<string, Build>, build: Build, name: string, ghost g: Graph) returns (ghost more: Graph)
    requires Edges(builds, g) && build in builds.Values && build.image.id in g
    requires forall b | b in builds.Values :: Flags(b)
    modifies builds.Values
    ensures forall b | b in builds.Values :: Flags(b)
    ensures more == g[build.image.id := g[build.image.id] + Named(name) * builds.Keys] && Edges(builds, more)
  {
    more := g;
    if name != "" {
      var ok;
      ok, more := AddDependency(builds, build, name, g);
    } else {
      assert g[build.image.id] + Named(name) * builds.Keys == g[build.image.id];
    }
  }

  /** The builder of a layer, as the loop body finds it. */
  method LayerBuilder(l: Layer) returns (with: string)
    ensures with == BuildWith(l)
  {
    with := l.buildWith;
    if |l.protoBuild| > 0 && with == "" {
      with := "protoc";
    }
    if |l.goBuild| > 0 || |l.cgoBuild| > 0 || |l.goBin| > 0 {
      if with == "" {
        with := "go";
      }
    }
  }

  /** The builders of the layers of one build. */
  method AddBuilders(builds: map<string, Build>, build: Build, ghost names: seq<string>, ghost g: Graph)
    returns (ghost more: Graph)
    requires Edges(builds, g) && build in builds.Values && build.image.id in g
    requires |names| == |build.image.layers| + 1
    requires forall k | 0 <= k < |build.image.layers| :: names[k + 1] == BuildWith(build.image.layers[k])
    requires g[build.image.id] == Wants(names[..1], builds.Keys)
    requires forall b | b in builds.Values :: Flags(b)
    modifies builds.Values
    ensures forall b | b in builds.Values :: Flags(b)
    ensures more == g[build.image.id := Wants(names, builds.Keys)] && Edges(builds, more)
  {
    var layers := build.image.layers;
    more := g;
    for k := 0 to |layers|
      invariant Edges(builds, more) && more == g[build.image.id := Wants(names[..k + 1], builds.Keys)]
      invariant forall b | b in builds.Values :: Flags(b)
    {
      assert names[..k + 2][..k + 1] == names[..k + 1];
      var with := LayerBuilder(layers[k]);
      more := AddNamed(builds, build, with, more);
    }
    assert names[..|names|] == names;
  }

  ghost predicate Wanted(builds: map<string, Build>, deps: Graph, id: string)
    requires id in builds
  {
    id in deps && deps[id] == Wants(Names(builds[id].image), builds.Keys)
  }

  /** The dependencies of one build: its base and the builders of its layers. */
  method AddDependencies(builds: map<string, Build>, build: Build, ghost deps: Graph, ghost g: Graph)
    returns (ghost more: Graph)
    requires Edges(builds, g) && build in builds.Values && build.image.id in g && g[build.image.id] == {}
    requires build.image.id in builds && builds[build.image.id] == build && Wanted(builds, deps, build.image.id)
    requires forall b | b in builds.Values :: Flags(b)
    modifies builds.Values
    ensures forall b | b in builds.Values :: Flags(b)
    ensures more == g[build.image.id := deps[build.image.id]] && Edges(builds, more)
  {
    more := AddNamed(builds, build, build.image.base, g);
    WantsOne(build.image.base, builds.Keys);
    ghost var names := Names(build.image);
    assert names[..1] == [build.image.base];
    more := AddBuilders(builds, build, names, more);
  }

  /** The graph with the dependencies of the IDs outside `left`. */
  ghost function Partial(deps: Graph, left: set<string>): Graph {
    map id | id in deps :: if id in left then {} else deps[id]
  }

  lemma {:induction false} PartialStep(deps: Graph, left: set<string>, id: string)
    requires id in deps
    ensures Partial(deps, left)[id := deps[id]] == Partial(deps, left - {id})
  {
  }

  /** One round of the loop that determines the dependencies. */
  method AddNext(builds: map<string, Build>, id: string, ghost deps: Graph, ghost left: set<string>)
    requires id in builds && id in left && deps.Keys == builds.Keys && Wanted(builds, deps, id)
    requires Edges(builds, Partial(deps, left)) && forall b | b in builds.Values :: Flags(b)
    modifies builds.Values
    ensures Edges(builds, Partial(deps, left - {id})) && forall b | b in builds.Values :: Flags(b)
  {
    ghost var g := Partial(deps, left);
    PartialStep(deps, left, id);
    g := AddDependencies(builds, builds[id], deps, g);
  }

  /** The loop that determines the dependencies, over the builds in any order. */
  method AddAllDependencies(builds: map<string, Build>, ghost deps: Graph)
    requires Edges(builds, Partial(deps, deps.Keys)) && deps.Keys == builds.Keys
    requires forall id {:trigger Wanted(builds, deps, id)} | id in builds :: Wanted(builds, deps, id)
    requires forall b | b in builds.Values :: Flags(b)
    modifies builds.Values
    ensures forall b | b in builds.Values :: Flags(b)
    ensures Edges(builds, deps)
  {
    var left := builds.Keys;
    while left != {}
      invariant left <= builds.Keys && Edges(builds, Partial(deps, left))
      invariant forall b | b in builds.Values :: Flags(b)
      decreases |left|
    {
      var id :| id in left;
      assert Wanted(builds, deps, id);
      AddNext(builds, id, deps, left);
      left := left - {id};
    }
    assert Partial(deps, {}) == deps;
  }

  /** The builds with their dependencies. */
  method Setup(images: seq<Image>) returns (builds: map<string, Build>)
    ensures fresh(builds.Values) && builds.Keys == Catalog(images).Keys
    ensures forall b | b in builds.Values :: Flags(b)
    ensures Edges(builds, Deps(Catalog(images)))
  {
    builds := NewBuilds(images);
    ghost var deps := Deps(Catalog(images));
    NoEdges(builds, deps);
    AddAllDependencies(builds, deps);
  }

  /** So two builds are linked, in both directions, exactly if the image of one needs the other. */
  lemma {:induction false} EdgesAreNeeds(images: seq<Image>, builds: map<string, Build>, i: string, d: string)
    requires Edges(builds, Deps(Catalog(images))) && i in builds && d in builds
    ensures builds[d] in builds[i].dependencies <==> Needs(Catalog(images)[i], d)
    ensures builds[i] in builds[d].dependents <==> Needs(Catalog(images)[i], d)
  {
    var g := Deps(Catalog(images));
    DepsAre(images, i, d);
    assert EdgesAt(builds, g, i) && EdgesAt(builds, g, d);
    assert builds[i].image.id == i && builds[d].image.id == d;
  }

  lemma {:induction false} NoEdges(builds: map<string, Build>, deps: Graph)
    requires Filed(builds) && deps.Keys == builds.Keys
    requires forall b | b in builds.Values :: b.dependencies == {} && b.dependents == {}
    ensures Edges(builds, Partial(deps, deps.Keys))
  {
    forall id | id in builds
      ensures EdgesAt(builds, Partial(deps, deps.Keys), id)
    {
      assert builds[id] in builds.Values;
    }
  }

  /** Strike a finished build off its dependents, aborting them if it failed or was aborted. */
  method Strike(build: Build)
    requires build !in build.dependents
    modifies build.dependents`abort, build.dependents`dependencies
    ensures forall d | d in build.dependents ::
              && d.abort == (old(d.abort) || build.failed || build.abort)
              && d.dependencies == old(d.dependencies) - {build}
  {
    var rest := build.dependents;
    while rest != {}
      invariant rest <= build.dependents
      invariant forall d | d in rest :: d.abort == old(d.abort) && d.dependencies == old(d.dependencies)
      invariant forall d | d in build.dependents - rest ::
                  && d.abort == (old(d.abort) || build.failed || build.abort)
                  && d.dependencies == old(d.dependencies) - {build}
      decreases |rest|
    {
      var dependent :| dependent in rest;
      rest := rest - {dependent};
      if build.failed || build.abort {
        dependent.abort := true;
      }
      dependent.RemoveDependency(build);
    }
  }

  /** The fields of a build are what the state says about it. */
  ghost predicate Reflects(all: map<string, Build>, b: Build, s: State, id: string)
    reads b
  {
    && id in s.phase && id in s.waits
    && (b.once <==> s.phase[id] != Idle) && (b.abort <==> id in s.abort) && (b.failed <==> id in s.failed)
    && Same(all, b.dependencies, s.waits[id]) && Same(all, b.dependents, Dependents(s.deps, id))
  }

  /** Receiving a build strikes it off its dependents, and no other build waits for it. */
  lemma {:induction false} WaitsAfterReceive(all: map<string, Build>, s: State, i: string, id: string, had: set<Build>,
                                             dependents: set<Build>, has: set<Build>)
    requires Reachable(s) && Filed(all) && all.Keys == s.deps.Keys && i in all && id in all
    requires Enabled(s, Receive(i)) && At(s.phase, i, Sent) && id in s.waits && id in s.phase && i in s.phase
    requires Same(all, had, s.waits[id]) && Same(all, dependents, Dependents(s.deps, i))
    requires has == if all[id] in dependents then had - {all[i]} else had
    ensures all[id] in dependents <==> id in Dependents(s.deps, i)
    ensures var t := Next(s, Receive(i));
            && id in t.waits && Same(all, has, t.waits[id]) && t.deps == s.deps && t.failed == s.failed
            && t.phase == s.phase[i := Received]
            && (id in t.abort <==> id in s.abort || (id in Dependents(s.deps, i) && (i in s.failed || i in s.abort)))
  {
    if all[id] in dependents {
      SameDrop(all, had, s.waits[id], i);
    } else {
      WaitersAreDependents(s, i, id);
    }
  }

  /** The local variables of Build, and its goroutines by what they are about to do. */
  datatype Locals = Locals(
    builds: map<string, Build>,
    failures: set<string>,
    inside: nat,                // len(sem)
    done: seq<Build>,
    waiting: set<Build>,        // to enter the semaphore
    running: set<Build>,        // BuildImage
    sending: set<Build>,        // to send the build to `done`
    leaving: set<Build>)        // to leave the semaphore

  ghost function With(phase: Phases, p: Phase): set<string> {
    set i | i in phase && phase[i] == p
  }

  ghost function Leaving(phase: Phases, held: set<string>): set<string> {
    set i | i in held && Past(phase, i, 4)
  }

  ghost predicate Groups(all: map<string, Build>, l: Locals, s: State) {
    && Same(all, l.waiting, With(s.phase, Queued)) && Same(all, l.running, With(s.phase, Building))
    && Same(all, l.sending, With(s.phase, Built)) && Same(all, l.leaving, Leaving(s.phase, s.held))
  }

  ghost predicate Queue(all: map<string, Build>, done: seq<Build>, ids: seq<string>) {
    |done| == |ids| && forall k | 0 <= k < |done| :: ids[k] in all && done[k] == all[ids[k]]
  }

  ghost predicate Counters(all: map<string, Build>, builds: map<string, Build>, inside: nat, failures: set<string>,
                           s: State) {
    && builds.Keys == Unreceived(s.phase) && (forall id | id in builds :: id in all && builds[id] == all[id])
    && inside == |s.held| && failures == s.failed * With(s.phase, Received)
  }

  /** The local variables and the goroutines are what the state says about them. */
  ghost predicate Sound(all: map<string, Build>, l: Locals, s: State) {
    && Reachable(s) && Filed(all) && all.Keys == s.deps.Keys
    && Counters(all, l.builds, l.inside, l.failures, s) && Groups(all, l, s) && Queue(all, l.done, s.done)
  }

  /** A build moves on, short of being received. */
  lemma {:induction false} CountersMove(all: map<string, Build>, builds: map<string, Build>, inside: nat,
                                        failures: set<string>,
                                        s: State, i: string, t: State)
    requires Counters(all, builds, inside, failures, s) && i in s.phase && i in t.phase
    requires t.phase == s.phase[i := t.phase[i]]
    requires s.phase[i] != Received && t.phase[i] != Received && s.failed <= t.failed <= s.failed + {i}
    ensures Counters(all, builds, |t.held|, failures, t)
  {
    assert Unreceived(t.phase) == Unreceived(s.phase);
    assert With(t.phase, Received) == With(s.phase, Received) && i !in With(s.phase, Received);
    assert t.failed * With(t.phase, Received) == s.failed * With(s.phase, Received);
  }

  lemma {:induction false} WithMove(phase: Phases, i: string, p: Phase, q: Phase)
    ensures With(phase[i := p], q) == if q == p then With(phase, q) + {i} else With(phase, q) - {i}
  {
  }

  lemma {:induction false} LeavingMove(phase: Phases, held: set<string>, i: string, p: Phase)
    requires i in phase && Level(phase[i]) < 4
    ensures Leaving(phase[i := p], held) == Leaving(phase, held) + (if Level(p) >= 4 && i in held then {i} else {})
  {
  }

  lemma {:induction false} SameAdd(all: map<string, Build>, objects: set<Build>, ids: set<string>, id: string)
    requires Filed(all) && Same(all, objects, ids) && id in all
    ensures Same(all, objects + {all[id]}, ids + {id})
  {
  }

  lemma {:induction false} SameDrop(all: map<string, Build>, objects: set<Build>, ids: set<string>, id: string)
    requires Filed(all) && Same(all, objects, ids) && id in all
    ensures Same(all, objects - {all[id]}, ids - {id})
  {
  }

  /** A build moves from one group of goroutines to the next. */
  lemma {:induction false} GroupMoves(all: map<string, Build>, phase: Phases, q: Phase, group: set<Build>, i: string,
                                      p: Phase)
    requires Filed(all) && i in all && Same(all, group, With(phase, q))
    ensures Same(all, if q == p then group + {all[i]} else group - {all[i]}, With(phase[i := p], q))
  {
    WithMove(phase, i, p, q);
    if q == p {
      SameAdd(all, group, With(phase, q), i);
    } else {
      SameDrop(all, group, With(phase, q), i);
    }
  }

  lemma {:induction false} GroupStays(all: map<string, Build>, phase: Phases, q: Phase, group: set<Build>, i: string,
                                      p: Phase)
    requires Filed(all) && i in all && Same(all, group, With(phase, q)) && i in phase && phase[i] != q && q != p
    ensures Same(all, group, With(phase[i := p], q))
  {
    WithMove(phase, i, p, q);
    assert i !in With(phase, q) && With(phase, q) - {i} == With(phase, q);
  }

  /** What a step leaves of the locals and the state. */
  ghost predicate Went(l: Locals, s: State, l': Locals, s': State) {
    && s'.left == s.left && s'.deps == s.deps && s'.limit == s.limit && l'.builds == l.builds
    && l.done <= l'.done && Measure(s') < Measure(s)
  }

  /** One step of the machine. */
  ghost predicate Took(s: State, step: Step, t: State) {
    Enabled(s, step) && t == Next(s, step)
  }

  /** BuildImage has returned what it returns. */
  ghost predicate Heard(works: string -> bool, log: seq<Event>) {
    forall i, ok | Ended(i, ok) in log :: ok == works(i)
  }

  lemma {:induction false} HeardOn(works: string -> bool, s: State, step: Step, t: State)
    requires Took(s, step, t) && Heard(works, s.log) && (step.Finish? ==> step.ok == works(step.id))
    ensures Heard(works, t.log)
  {
  }

  function Entered(l: Locals, b: Build): Locals {
    l.(waiting := l.waiting - {b}, running := l.running + {b}, inside := l.inside + 1)
  }

  /** A goroutine outside the semaphore waits for it. */
  lemma {:induction false} OutsideUntilIn(s: State, i: string)
    requires Reachable(s) && At(s.phase, i, Queued)
    ensures i !in s.held
  {
    ReachableInv(s);
  }

  lemma {:induction false} AcquireSound(all: map<string, Build>, l: Locals, s: State, i: string)
    requires Sound(all, l, s) && i in all && Enabled(s, Acquire(i))
    ensures Sound(all, Entered(l, all[i]), Next(s, Acquire(i)))
    ensures Went(l, s, Entered(l, all[i]), Next(s, Acquire(i)))
  {
    ReachableNext(s, Acquire(i));
    OutsideUntilIn(s, i);
    GroupsEnter(all, l, s, i, Next(s, Acquire(i)));
    CountersMove(all, l.builds, l.inside, l.failures, s, i, Next(s, Acquire(i)));
  }

  lemma {:induction false} GroupsEnter(all: map<string, Build>, l: Locals, s: State, i: string, t: State)
    requires Filed(all) && Groups(all, l, s) && i in all && At(s.phase, i, Queued)
    requires t.phase == s.phase[i := Building] && t.held == s.held + {i}
    ensures Groups(all, Entered(l, all[i]), t)
  {
    GroupMoves(all, s.phase, Queued, l.waiting, i, Building);
    GroupMoves(all, s.phase, Building, l.running, i, Building);
    GroupStays(all, s.phase, Built, l.sending, i, Building);
    LeavingMove(s.phase, t.held, i, Building);
    assert Leaving(s.phase, t.held) == Leaving(s.phase, s.held);
  }

  lemma {:induction false} NotFailedYet(s: State, i: string)
    requires Reachable(s) && At(s.phase, i, Building)
    ensures i !in s.failed
  {
    ReachableInv(s);
    assert !Past(s.phase, i, 3);
  }

  function Returned(l: Locals, b: Build): Locals {
    l.(running := l.running - {b}, sending := l.sending + {b})
  }

  lemma {:induction false} FinishSound(all: map<string, Build>, l: Locals, s: State, i: string, ok: bool)
    requires Sound(all, l, s) && i in all && Enabled(s, Finish(i, ok))
    ensures Sound(all, Returned(l, all[i]), Next(s, Finish(i, ok)))
    ensures Went(l, s, Returned(l, all[i]), Next(s, Finish(i, ok)))
  {
    ReachableNext(s, Finish(i, ok));
    GroupStays(all, s.phase, Queued, l.waiting, i, Built);
    GroupMoves(all, s.phase, Building, l.running, i, Built);
    GroupMoves(all, s.phase, Built, l.sending, i, Built);
    LeavingMove(s.phase, s.held, i, Built);
    CountersMove(all, l.builds, l.inside, l.failures, s, i, Next(s, Finish(i, ok)));
  }

  function Passed(l: Locals, b: Build): Locals {
    l.(sending := l.sending - {b}, leaving := l.leaving + {b}, done := l.done + [b])
  }

  /** A goroutine that sends is inside the semaphore, and finds room in the channel. */
  lemma {:induction false} SenderIsInside(s: State, i: string)
    requires Reachable(s) && At(s.phase, i, Built)
    ensures i in s.held && Enabled(s, Send(i))
  {
    ReachableInv(s);
    SendsNeverBlock(s, i);
  }

  lemma {:induction false} SendSound(all: map<string, Build>, l: Locals, s: State, i: string)
    requires Sound(all, l, s) && i in all && i in s.held && Enabled(s, Send(i))
    ensures Sound(all, Passed(l, all[i]), Next(s, Send(i)))
    ensures Went(l, s, Passed(l, all[i]), Next(s, Send(i)))
  {
    ReachableNext(s, Send(i));
    GroupsPass(all, l, s, i, Next(s, Send(i)));
    CountersMove(all, l.builds, l.inside, l.failures, s, i, Next(s, Send(i)));
  }

  lemma {:induction false} GroupsPass(all: map<string, Build>, l: Locals, s: State, i: string, t: State)
    requires Filed(all) && Groups(all, l, s) && i in all && i in s.held && At(s.phase, i, Built)
    requires t.phase == s.phase[i := Sent] && t.held == s.held
    ensures Groups(all, Passed(l, all[i]), t)
  {
    GroupStays(all, s.phase, Queued, l.waiting, i, Sent);
    GroupStays(all, s.phase, Building, l.running, i, Sent);
    GroupMoves(all, s.phase, Built, l.sending, i, Sent);
    LeavingMove(s.phase, s.held, i, Sent);
    SameAdd(all, l.leaving, Leaving(s.phase, s.held), i);
  }

  function Left(l: Locals, b: Build): Locals
    requires l.inside > 0
  {
    l.(leaving := l.leaving - {b}, inside := l.inside - 1)
  }

  lemma {:induction false} ReleaseSound(all: map<string, Build>, l: Locals, s: State, i: string)
    requires Sound(all, l, s) && i in all && Enabled(s, Release(i)) && l.inside > 0
    ensures Sound(all, Left(l, all[i]), Next(s, Release(i)))
    ensures Went(l, s, Left(l, all[i]), Next(s, Release(i)))
  {
    ReachableNext(s, Release(i));
    assert Leaving(s.phase, s.held - {i}) == Leaving(s.phase, s.held) - {i};
    SameDrop(all, l.leaving, Leaving(s.phase, s.held), i);
  }

  /** A build starts as a goroutine, or is sent as aborted. */
  function Begun(l: Locals, b: Build, abort: bool): Locals {
    if abort then l.(done := l.done + [b]) else l.(waiting := l.waiting + {b})
  }

  lemma {:induction false} BeginSound(all: map<string, Build>, l: Locals, s: State, i: string, p: Phase)
    requires Sound(all, l, s) && i in all && At(s.phase, i, Idle) && p == if i in s.abort then Sent else Queued
    requires Enabled(s, Visit(i)) && s.waits[i] == {} && Reachable(Next(s, Visit(i)))
    ensures Sound(all, Begun(l, all[i], i in s.abort), Next(s, Visit(i)))
  {
    NotInsideYet(s, i);
    if p == Queued {
      GroupMoves(all, s.phase, Queued, l.waiting, i, p);
    } else {
      GroupStays(all, s.phase, Queued, l.waiting, i, p);
    }
    GroupStays(all, s.phase, Building, l.running, i, p);
    GroupStays(all, s.phase, Built, l.sending, i, p);
    LeavingMove(s.phase, s.held, i, p);
    CountersMove(all, l.builds, l.inside, l.failures, s, i, Next(s, Visit(i)));
  }

  lemma {:induction false} StartSound(all: map<string, Build>, l: Locals, s: State, i: string)
    requires Sound(all, l, s) && i in all && At(s.phase, i, Idle) && Enabled(s, Visit(i)) && s.waits[i] == {}
    ensures Sound(all, Begun(l, all[i], i in s.abort), Next(s, Visit(i))) && |s.done| < |s.deps|
  {
    RoomForAborted(s, i);
    ReachableNext(s, Visit(i));
    BeginSound(all, l, s, i, if i in s.abort then Sent else Queued);
  }

  /** A build with pending dependencies, or one that has started, is passed over. */
  lemma {:induction false} PassSound(all: map<string, Build>, l: Locals, s: State, i: string)
    requires Sound(all, l, s) && i in all && Enabled(s, Visit(i)) && !(s.phase[i] == Idle && s.waits[i] == {})
    ensures Sound(all, l, Next(s, Visit(i))) && Measure(Next(s, Visit(i))) < Measure(s)
    ensures Next(s, Visit(i)) == s.(left := s.left - {i})
  {
    ReachableNext(s, Visit(i));
  }

  lemma {:induction false} NotInsideYet(s: State, i: string)
    requires Reachable(s) && At(s.phase, i, Idle)
    ensures i !in s.held
  {
    ReachableInv(s);
  }

  lemma {:induction false} RoomForAborted(s: State, i: string)
    requires Reachable(s) && At(s.phase, i, Idle)
    ensures |s.done| < |s.deps|
  {
    ReachableInv(s);
    SendsNeverBlock(s, i);
  }

  function Taken(l: Locals, i: string, failed: bool): Locals
    requires l.done != []
  {
    l.(builds := l.builds - {i}, done := l.done[1..], failures := if failed then l.failures + {i} else l.failures)
  }

  lemma {:induction false} CountersReceive(all: map<string, Build>, builds: map<string, Build>, inside: nat,
                                           failures: set<string>,
                                           s: State, i: string, t: State)
    requires Counters(all, builds, inside, failures, s) && i in s.phase && t.phase == s.phase[i := Received]
    requires t.failed == s.failed && t.held == s.held
    ensures Counters(all, builds - {i}, inside, if i in s.failed then failures + {i} else failures, t)
  {
    assert Unreceived(t.phase) == Unreceived(s.phase) - {i};
    WithMove(s.phase, i, Received, Received);
    assert s.failed * (With(s.phase, Received) + {i})
        == s.failed * With(s.phase, Received) + (if i in s.failed then {i} else {});
  }

  lemma {:induction false} LeavingReceive(phase: Phases, held: set<string>, i: string)
    requires At(phase, i, Sent)
    ensures Leaving(phase[i := Received], held) == Leaving(phase, held)
  {
  }

  lemma {:induction false} QueueTake(all: map<string, Build>, done: seq<Build>, ids: seq<string>)
    requires Queue(all, done, ids) && done != []
    ensures Queue(all, done[1..], ids[1..])
  {
  }

  /** The groups of goroutines do not change when a build is received. */
  lemma {:induction false} GroupsReceive(all: map<string, Build>, l: Locals, s: State, i: string, l': Locals, s': State)
    requires Filed(all) && i in all && At(s.phase, i, Sent) && Groups(all, l, s)
    requires s'.phase == s.phase[i := Received] && s'.held == s.held
    requires l'.waiting == l.waiting && l'.running == l.running && l'.sending == l.sending && l'.leaving == l.leaving
    ensures Groups(all, l', s')
  {
    GroupStays(all, s.phase, Queued, l.waiting, i, Received);
    GroupStays(all, s.phase, Building, l.running, i, Received);
    GroupStays(all, s.phase, Built, l.sending, i, Received);
    LeavingReceive(s.phase, s.held, i);
  }

  lemma {:induction false} ReceiveSound(all: map<string, Build>, l: Locals, s: State, i: string)
    requires Sound(all, l, s) && i in all && Enabled(s, Receive(i)) && At(s.phase, i, Sent)
    ensures Sound(all, Taken(l, i, i in s.failed), Next(s, Receive(i)))
    ensures Measure(Next(s, Receive(i))) < Measure(s)
  {
    ReachableNext(s, Receive(i));
    GroupsReceive(all, l, s, i, Taken(l, i, i in s.failed), Next(s, Receive(i)));
    QueueTake(all, l.done, s.done);
    CountersReceive(all, l.builds, l.inside, l.failures, s, i, Next(s, Receive(i)));
  }

  /** What is in the channel was sent, and does not depend on itself. */
  lemma {:induction false} FirstInChannel(s: State, i: string)
    requires Reachable(s) && s.left == {} && s.done != [] && s.done[0] == i
    ensures Enabled(s, Receive(i)) && At(s.phase, i, Sent) && i !in Dependents(s.deps, i) && i in s.deps
  {
    ReachableInv(s);
    assert i in s.done;
    if i in Dependents(s.deps, i) {
      DependentsAreIdle(s.deps, s.waits, s.phase, s.left, i, i);
    }
  }

  /** Only dependents wait for a build. */
  lemma {:induction false} WaitersAreDependents(s: State, i: string, j: string)
    requires Reachable(s) && j in s.deps && j !in Dependents(s.deps, i)
    ensures j in s.waits && s.waits[j] - {i} == s.waits[j]
  {
    ReachableInv(s);
    assert WaitsAt(s.deps, s.waits, s.phase, s.left, j);
  }

  lemma {:induction false} NoneGoes(all: map<string, Build>, l: Locals, s: State, step: Step)
    requires Groups(all, l, s) && Queue(all, l.done, s.done) && l.done == [] && s.left == {} && l.inside == |s.held|
    requires (l.waiting == {} || l.inside >= s.limit) && l.running == {} && l.sending == {} && l.leaving == {}
    ensures !Enabled(s, step)
  {
    match step
    case Visit(i) =>
    case Acquire(i) => assert At(s.phase, i, Queued) ==> i in With(s.phase, Queued);
    case Finish(i, _) => assert At(s.phase, i, Building) ==> i in With(s.phase, Building);
    case Send(i) => assert At(s.phase, i, Built) ==> i in With(s.phase, Built);
    case Release(i) => assert Enabled(s, step) ==> i in Leaving(s.phase, s.held);
    case Receive(i) =>
  }

  /** One call of Build, with the goroutines that it started. */
  class Scheduler {
    var l: Locals
    const limit: nat             // cap(sem)
    const capacity: nat          // cap(done)
    const works: string -> bool  // what BuildImage returns for an image
    ghost const all: map<string, Build>
    ghost var s: State

    ghost predicate Objects()
      reads this`s, all.Values
    {
      forall id {:trigger Reflects(all, all[id], s, id)} | id in all :: Reflects(all, all[id], s, id)
    }

    ghost predicate Valid()
      reads this, all.Values
    {
      Sound(all, l, s) && Objects() && s.limit == limit >= 1 && capacity == |s.deps|
    }

    constructor (builds: map<string, Build>, limit: nat, works: string -> bool, ghost deps: Graph)
      requires Edges(builds, deps) && Closed(deps) && limit >= 1 && forall b | b in builds.Values :: Flags(b)
      ensures Valid() && all == builds && s == Start(deps, limit) && this.limit == limit && this.works == works
    {
      this.limit, this.capacity, this.works := limit, |builds|, works;
      this.l := Locals(builds, {}, 0, [], {}, {}, {}, {});
      this.all, this.s := builds, Start(deps, limit);
      new;
      ReachableStart(deps, limit);
      forall id | id in all
        ensures Reflects(all, all[id], s, id)
      {
        assert all[id] in all.Values && Flags(all[id]) && EdgesAt(builds, deps, id);
      }
    }

    /** Steps that leave the builds alone: a started build stays started. */
    twostate lemma ObjectsStay(i: string)
      requires old(Objects()) && i in old(s.phase) && i in s.phase && old(s.phase[i]) != Idle && s.phase[i] != Idle
      requires s.phase == old(s.phase)[i := s.phase[i]] && s.abort == old(s.abort) && s.failed == old(s.failed)
      requires s.waits == old(s.waits) && s.deps == old(s.deps)
      requires forall id | id in all :: unchanged(all[id])
      ensures Objects()
    {
      forall id | id in all
        ensures Reflects(all, all[id], s, id)
      {
        assert old(Reflects(all, all[id], s, id));
      }
    }

    twostate lemma ObjectsFinish(i: string)
      requires old(Objects()) && i in all && i in old(s.phase) && i !in old(s.failed) && old(s.phase[i]) != Idle
      requires s.phase == old(s.phase)[i := Built] && s.abort == old(s.abort) && s.waits == old(s.waits)
      requires s.deps == old(s.deps)
      requires s.failed == if all[i].failed then old(s.failed) + {i} else old(s.failed)
      requires all[i].once == old(all[i].once) && all[i].abort == old(all[i].abort)
      requires all[i].dependencies == old(all[i].dependencies) && all[i].dependents == old(all[i].dependents)
      requires forall id | id in all && id != i :: unchanged(all[id])
      ensures Objects()
    {
      forall id | id in all
        ensures Reflects(all, all[id], s, id)
      {
        assert old(Reflects(all, all[id], s, id));
      }
    }

    twostate lemma ObjectsRelease()
      requires old(Objects()) && forall id | id in all :: unchanged(all[id])
      requires s.phase == old(s.phase) && s.abort == old(s.abort) && s.failed == old(s.failed)
      requires s.waits == old(s.waits) && s.deps == old(s.deps)
      ensures Objects()
    {
      forall id | id in all
        ensures Reflects(all, all[id], s, id)
      {
        assert old(Reflects(all, all[id], s, id));
      }
    }

    twostate lemma ObjectsVisit(i: string)
      requires old(Objects()) && i in all && i in old(s.phase) && i in s.phase
      requires s.phase == old(s.phase)[i := s.phase[i]]
      requires s.abort == old(s.abort) && s.failed == old(s.failed) && s.waits == old(s.waits) && s.deps == old(s.deps)
      requires all[i].once <==> s.phase[i] != Idle
      requires all[i].failed == old(all[i].failed) && all[i].abort == old(all[i].abort)
      requires all[i].dependencies == old(all[i].dependencies) && all[i].dependents == old(all[i].dependents)
      requires forall id | id in all && id != i :: unchanged(all[id])
      ensures Objects()
    {
      forall id | id in all
        ensures Reflects(all, all[id], s, id)
      {
        assert old(Reflects(all, all[id], s, id));
      }
    }

    /** A goroutine enters the semaphore and calls BuildImage. */
    method Acquire(build: Build)
      requires Valid() && build in l.waiting && l.inside < limit
      modifies this`l, this`s
      ensures Valid() && Went(old(l), old(s), l, s) && Took(old(s), BuildMachine.Acquire(build.image.id), s)
    {
      ghost var i := build.image.id;
      assert i in With(s.phase, Queued) && all[i] == build;
      AcquireSound(all, l, s, i);
      l := Entered(l, build);
      s := Next(s, BuildMachine.Acquire(i));
      ObjectsStay(i);
    }

    method SetErr(build: Build, ok: bool, ghost next: State)
      modifies this`l, this`s, build`failed
      ensures build.failed == !ok && l == Returned(old(l), build) && s == next
    {
      build.failed := !ok;
      l := Returned(l, build);
      s := next;
    }

    /** BuildImage returns. */
    method Finish(build: Build, ok: bool)
      requires Valid() && build in l.running
      modifies this`l, this`s, build`failed
      ensures Valid() && Went(old(l), old(s), l, s) && Took(old(s), BuildMachine.Finish(build.image.id, ok), s)
    {
      ghost var i := build.image.id;
      assert i in With(s.phase, Building) && all[i] == build;
      FinishSound(all, l, s, i, ok);
      NotFailedYet(s, i);
      ghost var next := Next(s, BuildMachine.Finish(i, ok));
      SetErr(build, ok, next);
      ObjectsFinish(i);
    }

    /** A goroutine sends its build to the channel. */
    method Send(build: Build)
      requires Valid() && build in l.sending
      modifies this`l, this`s
      ensures Valid() && Went(old(l), old(s), l, s) && Took(old(s), BuildMachine.Send(build.image.id), s)
    {
      ghost var i := build.image.id;
      assert i in With(s.phase, Built) && all[i] == build;
      SenderIsInside(s, i);
      assert |l.done| < capacity;
      SendSound(all, l, s, i);
      l := Passed(l, build);
      s := Next(s, BuildMachine.Send(i));
      ObjectsStay(i);
    }

    /** A goroutine leaves the semaphore and ends. */
    method Release(build: Build)
      requires Valid() && build in l.leaving
      modifies this`l, this`s
      ensures Valid() && Went(old(l), old(s), l, s) && Took(old(s), BuildMachine.Release(build.image.id), s)
    {
      ghost var i := build.image.id;
      assert i in Leaving(s.phase, s.held) && all[i] == build;
      assert i in s.held;
      ReleaseSound(all, l, s, i);
      l := Left(l, build);
      s := Next(s, BuildMachine.Release(i));
      ObjectsRelease();
    }

    /** The function of Once.Do: a build without pending dependencies starts. */
    method Begin(build: Build, ghost next: State)
      requires build.abort ==> |l.done| < capacity
      modifies this`l, this`s, build`once
      ensures build.once && l == Begun(old(l), build, build.abort) && s == next
    {
      build.once := true;
      if build.abort {
        l := l.(done := l.done + [build]);
      } else {
        l := l.(waiting := l.waiting + {build});
      }
      s := next;
    }

    /** What the fields of a build say about its state. */
    lemma {:induction false} Ready(i: string)
      requires Valid() && i in all
      ensures i in s.waits && i in s.phase
      ensures all[i].dependencies == {} <==> s.waits[i] == {}
      ensures (all[i].once <==> s.phase[i] != Idle) && (all[i].abort <==> i in s.abort)
    {
      assert Reflects(all, all[i], s, i);
    }

    method StartBuild(build: Build)
      requires Valid() && build.image.id in all && all[build.image.id] == build && build.image.id in s.left
      requires build.dependencies == {} && !build.once
      modifies this`l, this`s, build`once
      ensures Valid() && l.builds == old(l.builds) && Took(old(s), BuildMachine.Visit(build.image.id), s)
    {
      ghost var i := build.image.id;
      Ready(i);
      ghost var next := Next(s, BuildMachine.Visit(i));
      StartSound(all, l, s, i);
      Begin(build, next);
      ObjectsVisit(i);
    }

    ghost method PassOver(i: string)
      requires Valid() && i in all && Enabled(s, BuildMachine.Visit(i)) && !(s.phase[i] == Idle && s.waits[i] == {})
      modifies this`s
      ensures Valid() && s.left == old(s.left) - {i} && s.deps == old(s.deps)
      ensures Took(old(s), BuildMachine.Visit(i), s) && Measure(s) < old(Measure(s))
    {
      PassSound(all, l, s, i);
      s := Next(s, BuildMachine.Visit(i));
      ObjectsRelease();
    }

    /** The scan looks at one build. */
    method Visit(build: Build)
      requires Valid() && build.image.id in l.builds && l.builds[build.image.id] == build && build.image.id in s.left
      modifies this`l, this`s, build`once
      ensures Valid() && Measure(s) < old(Measure(s)) && l.builds == old(l.builds)
      ensures s.left == old(s.left) - {build.image.id} && s.deps == old(s.deps)
      ensures Took(old(s), BuildMachine.Visit(build.image.id), s)
    {
      ghost var i := build.image.id;
      assert all[i] == build;
      Ready(i);
      if |build.dependencies| == 0 && !build.once {
        ReachableNext(s, BuildMachine.Visit(i));
        StartBuild(build);
      } else {
        PassOver(i);
      }
    }

    /** What striking a build off its dependents changes. */
    twostate predicate Struck(i: string)
      requires i in all
      reads all.Values
    {
      && (forall id | id in all :: all[id].once == old(all[id].once) && all[id].failed == old(all[id].failed)
                                   && all[id].dependents == old(all[id].dependents))
      && (forall id | id in all && all[id] in all[i].dependents ::
            && all[id].abort == (old(all[id].abort) || all[i].failed || old(all[i].abort))
            && all[id].dependencies == old(all[id].dependencies) - {all[i]})
      && (forall id | id in all && all[id] !in all[i].dependents ::
            all[id].abort == old(all[id].abort) && all[id].dependencies == old(all[id].dependencies))
    }

    twostate lemma ObjectsReceive(i: string)
      requires old(Valid()) && i in all && Struck(i) && old(Enabled(s, BuildMachine.Receive(i)))
      requires At(old(s.phase), i, Sent)
      requires s == Next(old(s), BuildMachine.Receive(i))
      ensures Objects()
    {
      assert old(Reflects(all, all[i], s, i));
      forall id | id in all
        ensures Reflects(all, all[id], s, id)
      {
        assert old(Reflects(all, all[id], s, id));
        WaitsAfterReceive(all, old(s), i, id, old(all[id].dependencies), all[i].dependents, all[id].dependencies);
      }
    }

    method Complete(build: Build, ghost i: string, ghost next: State)
      requires l.done != [] && i in all && all[i] == build && build.image.id == i
      requires build !in build.dependents && build.dependents <= all.Values
      modifies this`l, this`s, all.Values
      ensures Struck(i) && l == Taken(old(l), i, build.failed) && s == next
    {
      l := l.(builds := l.builds - {build.image.id}, done := l.done[1..]);
      Strike(build);
      if build.failed {
        l := l.(failures := l.failures + {build.image.id});
      }
      s := next;
    }

    lemma {:induction false} DependentsAreKnown(i: string)
      requires Valid() && i in all && i !in Dependents(s.deps, i)
      ensures all[i].dependents <= all.Values && all[i] !in all[i].dependents && (all[i].failed <==> i in s.failed)
    {
      assert Reflects(all, all[i], s, i);
    }

    /** Take a finished build out of the channel and out of the pending builds. */
    method Receive()
      requires Valid() && s.left == {} && l.done != []
      modifies this`l, this`s, all.Values
      ensures Valid() && Measure(s) < old(Measure(s)) && s.deps == old(s.deps)
      ensures s.left == l.builds.Keys && Took(old(s), BuildMachine.Receive(old(l).done[0].image.id), s)
    {
      var build := l.done[0];
      ghost var i := s.done[0];
      FirstInChannel(s, i);
      ReceiveSound(all, l, s, i);
      DependentsAreKnown(i);
      ghost var next := Next(s, BuildMachine.Receive(i));
      Complete(build, i, next);
      ObjectsReceive(i);
    }

    /** Some goroutine can go on. */
    predicate CanGo()
      reads this
    {
      (l.waiting != {} && l.inside < limit) || l.running != {} || l.sending != {} || l.leaving != {}
    }

    /** Any goroutine that can go on takes a step. */
    method Go()
      requires Valid() && CanGo() && Heard(works, s.log)
      modifies this`l, this`s, l.running`failed
      ensures Valid() && Went(old(l), old(s), l, s) && Heard(works, s.log)
    {
      ghost var step;
      if {
        case l.waiting != {} && l.inside < limit =>
          var build :| build in l.waiting;
          step := BuildMachine.Acquire(build.image.id);
          Acquire(build);
        case l.running != {} =>
          var build :| build in l.running;
          step := BuildMachine.Finish(build.image.id, works(build.image.id));
          Finish(build, works(build.image.id));
        case l.sending != {} =>
          var build :| build in l.sending;
          step := BuildMachine.Send(build.image.id);
          Send(build);
        case l.leaving != {} =>
          var build :| build in l.leaving;
          step := BuildMachine.Release(build.image.id);
          Release(build);
      }
      HeardOn(works, old(s), step, s);
    }

    /** What any number of steps of the goroutines leaves alone. */
    ghost predicate Later(l: Locals, s: State, l': Locals, s': State) {
      s'.left == s.left && s'.deps == s.deps && l'.builds == l.builds && l.done <= l'.done && Measure(s') <= Measure(s)
    }

    lemma {:induction false} RunningAreKnown()
      requires Valid()
      ensures l.running <= all.Values
    {
    }

    /** Meanwhile the goroutines take any number of steps. */
    method Meanwhile()
      requires Valid() && Heard(works, s.log)
      modifies this`l, this`s, all.Values`failed
      ensures Valid() && Later(old(l), old(s), l, s) && Heard(works, s.log)
    {
      var more: bool := *;
      while more && CanGo()
        invariant Valid() && Later(old(l), old(s), l, s) && Heard(works, s.log)
        decreases Measure(s)
      {
        RunningAreKnown();
        Go();
        more := *;
      }
    }

    lemma {:induction false} PendingIsKnown(id: string)
      requires Valid() && id in l.builds
      ensures l.builds[id] in all.Values && l.builds[id].image.id == id
    {
    }

    /** What a scan leaves alone. */
    ghost predicate Onward(l: Locals, s: State, l': Locals, s': State) {
      s'.deps == s.deps && l'.builds == l.builds && Measure(s') <= Measure(s)
    }

    /** The scan comes to a build. */
    method VisitOne(build: Build)
      requires Valid() && build.image.id in l.builds && l.builds[build.image.id] == build && build.image.id in s.left
      requires Heard(works, s.log)
      modifies this`l, this`s, build`once
      ensures Valid() && s.left == old(s.left) - {build.image.id} && Onward(old(l), old(s), l, s)
      ensures Heard(works, s.log)
    {
      Visit(build);
      HeardOn(works, old(s), BuildMachine.Visit(build.image.id), s);
    }

    /** It comes to its next build, whatever the goroutines did in between. */
    method VisitNext(id: string)
      requires Valid() && id in l.builds && id in s.left && Heard(works, s.log)
      modifies this`l, this`s, all.Values`failed, all.Values`once
      ensures Valid() && s.left == old(s.left) - {id} && Onward(old(l), old(s), l, s) && Heard(works, s.log)
    {
      Meanwhile();
      PendingIsKnown(id);
      VisitOne(l.builds[id]);
    }

    /** And that may be any that is left. */
    method VisitAny(left: set<string>) returns (rest: set<string>)
      requires Valid() && left != {} && left == s.left && left <= l.builds.Keys && Heard(works, s.log)
      modifies this`l, this`s, all.Values`failed, all.Values`once
      ensures Valid() && rest == s.left && rest < left && Onward(old(l), old(s), l, s) && Heard(works, s.log)
    {
      var id :| id in left;
      rest := left - {id};
      VisitNext(id);
    }

    /** The scan over the pending builds, in any order. */
    method Scan()
      requires Valid() && s.left == l.builds.Keys && Heard(works, s.log)
      modifies this`l, this`s, all.Values`failed, all.Values`once
      ensures Valid() && s.left == {} && Onward(old(l), old(s), l, s) && Heard(works, s.log)
    {
      var left := l.builds.Keys;
      while left != {}
        invariant Valid() && left == s.left && left <= l.builds.Keys && Onward(old(l), old(s), l, s)
        invariant Heard(works, s.log)
        decreases left
      {
        left := VisitAny(left);
      }
    }

    /** If no goroutine can go on and the channel is empty after a scan, nothing can happen. */
    lemma {:induction false} NothingGoes()
      requires Valid() && !CanGo() && l.done == [] && s.left == {}
      ensures Stuck(s)
    {
      forall step
        ensures !Enabled(s, step)
      {
        NoneGoes(all, l, s, step);
      }
    }

    /** Wait for the channel; without a goroutine that can go on, this waits forever. */
    method Await() returns (deadlock: bool)
      requires Valid() && s.left == {} && l.builds != map[] && Heard(works, s.log)
      modifies this`l, this`s, all.Values`failed
      ensures Valid() && Later(old(l), old(s), l, s) && Heard(works, s.log)
      ensures !deadlock ==> l.done != []
      ensures deadlock ==> Cyclic(s.deps)
    {
      while l.done == []
        invariant Valid() && Later(old(l), old(s), l, s) && Heard(works, s.log)
        decreases Measure(s)
      {
        if !CanGo() {
          NothingGoes();
          assert l.builds.Keys != {};
          EndsIffAcyclic(s);
          return true;
        }
        RunningAreKnown();
        Go();
      }
      Meanwhile();
      deadlock := false;
    }

    /** Take one finished build out. */
    method ReceiveOne()
      requires Valid() && s.left == {} && l.done != [] && Heard(works, s.log)
      modifies this`l, this`s, all.Values
      ensures Valid() && Measure(s) < old(Measure(s)) && s.deps == old(s.deps)
      ensures s.left == l.builds.Keys && Heard(works, s.log)
    {
      ghost var i := l.done[0].image.id;
      Receive();
      HeardOn(works, old(s), BuildMachine.Receive(i), s);
    }

    /** Build images until there are no pending builds left. */
    method Loop() returns (deadlock: bool)
      requires Valid() && s.left == l.builds.Keys && Heard(works, s.log)
      modifies this, all.Values
      ensures Valid() && s.deps == old(s.deps) && Heard(works, s.log)
      ensures deadlock ==> Cyclic(s.deps)
      ensures !deadlock ==> s.Finished()
    {
      deadlock := false;
      while l.builds != map[]
        invariant Valid() && s.left == l.builds.Keys && s.deps == old(s.deps) && Heard(works, s.log)
        decreases Measure(s)
      {
        Scan();
        deadlock := Await();
        if deadlock {
          return;
        }
        ReceiveOne();
      }
    }
  }

  lemma {:induction false} DepsClosed(catalog: map<string, Image>)
    ensures Closed(Deps(catalog))
  {
    forall i, d | i in catalog && d in Deps(catalog)[i]
      ensures d in catalog
    {
      WantsAre(Names(catalog[i]), catalog.Keys, d);
    }
  }

  /** How a call of Build may end: every image completed, BuildImage began for an image only
      after it succeeded for each of its dependencies and ran for at most `limit` images at a
      time, an image was skipped exactly when one that it depends on failed, and the failures
      are exactly the images that were not skipped and for which BuildImage fails. */
  ghost predicate EndsWell(deps: Graph, limit: nat, works: string -> bool, failures: set<string>, log: seq<Event>) {
    && InTime(deps, log) && Spaced(log, limit) && failures <= deps.Keys
    && forall i | i in deps ::
         && Completed(i) in log
         && (Began(i) !in log <==> exists j :: j in failures && Reaches(deps, i, j))
         && (i in failures <==> Began(i) in log && !works(i))
         && (Began(i) in log ==> Ended(i, works(i)) in log)
  }

  /** Build comes to an end if and only if no image depends on itself; and however the
      goroutines were interleaved, it ends well. */
  method BuildImages(images: seq<Image>, concurrency: int, works: string -> bool)
    returns (deadlock: bool, failures: set<string>, ghost log: seq<Event>)
    ensures deadlock <==> Cyclic(Deps(Catalog(images)))
    ensures !deadlock ==>
              EndsWell(Deps(Catalog(images)), if concurrency < 1 then 1 else concurrency, works, failures, log)
  {
    var builds := Setup(images);
    ghost var deps := Deps(Catalog(images));
    DepsClosed(Catalog(images));
    var limit := if concurrency < 1 then 1 else concurrency;
    var scheduler := new Scheduler(builds, limit, works, deps);
    deadlock := scheduler.Loop();
    failures, log := scheduler.l.failures, scheduler.s.log;
    if !deadlock {
      EndOfLoop(scheduler.all, scheduler.l, scheduler.s, works);
    }
  }

  lemma {:induction false} EndOfLoop(all: map<string, Build>, l: Locals, s: State, works: string -> bool)
    requires Sound(all, l, s) && s.Finished() && Heard(works, s.log)
    ensures !Cyclic(s.deps) && EndsWell(s.deps, s.limit, works, l.failures, s.log)
  {
    FinishedWell(s);
    NeverCrowded(s);
    assert l.failures == s.failed;
    forall i | i in s.deps
      ensures Completed(i) in s.log
      ensures Began(i) !in s.log <==> exists j :: j in l.failures && Reaches(s.deps, i, j)
      ensures i in l.failures <==> Began(i) in s.log && !works(i)
      ensures Began(i) in s.log ==> Ended(i, works(i)) in s.log
    {
      EndedWell(s, i);
      if i in s.failed {
        FailedBegan(s, i);
      }
    }
  }

  lemma {:induction false} FailedBegan(s: State, i: string)
    requires Reachable(s) && i in s.failed
    ensures Began(i) in s.log
  {
    ReachableInv(s);
  }

  lemma {:induction false} FinishedWell(s: State)
    requires Reachable(s) && s.Finished()
    ensures !Cyclic(s.deps) && InTime(s.deps, s.log)
    ensures s.failed <= s.deps.Keys && s.failed * With(s.phase, Received) == s.failed
  {
    ReachableInv(s);
    FinishedIsAcyclic(s);
    forall i | i in s.failed
      ensures i in With(s.phase, Received)
    {
      assert Past(s.phase, i, 3) && i !in Unreceived(s.phase);
    }
  }
}
