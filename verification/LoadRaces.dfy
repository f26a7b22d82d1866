/** Loads of Go packages that run at once (builder/build.go, GoInputs.load): each goroutine
    looks in the cache and enters singleflight.Group.Do, where one of them loads a package and
    the others wait for what it returns. Every step is one critical section. */
module LoadRaces {
  import opened Collections
  import opened Options
  import opened BuildGraph
  import opened GoInputs

  /** How far a call of load is. */
  datatype Phase =
    | Looking                                                // about to look in the cache
    | Entering                                               // about to enter Do
    | Waiting(call: nat)                                     // for the call of another goroutine
    | Starting(call: nat)                                    // alone in Do
    | Importing(call: nat, files: seq<string>, k: nat)       // has loaded k imports
    | Calling(call: nat, files: seq<string>, k: nat)         // is loading the next one
    | Leaving(call: nat, out: Outcome)                       // has told the others
    | Storing(out: Outcome)                                  // has left Do

  datatype Frame = Frame(pkg: string, phase: Phase)

  /** A goroutine that loads a package, with the calls of load that it is in. */
  datatype Thread = Thread(target: string, frames: seq<Frame>, out: Option<Outcome>)

  /** A call of Do, with the goroutine and the call of load that made it. */
  datatype Call = Call(pkg: string, thread: nat, depth: nat, result: Option<Outcome>)

  datatype State = State(
    cache: map<string, seq<string>>,
    group: map<string, nat>,       // the calls of Do under way
    calls: seq<Call>,
    threads: seq<Thread>)

  ghost predicate Busy(s: State, i: nat) {
    i < |s.threads| && s.threads[i].frames != []
  }

  ghost function Depth(s: State, i: nat): nat
    requires Busy(s, i)
  {
    |s.threads[i].frames| - 1
  }

  ghost function Top(s: State, i: nat): Frame
    requires Busy(s, i)
  {
    s.threads[i].frames[Depth(s, i)]
  }

  /** The calls that phases speak of exist. */
  ghost predicate Legal(s: State, i: nat) {
    && Busy(s, i)
    && match Top(s, i).phase
       case Waiting(c) => c < |s.calls|
       case Starting(c) => c < |s.calls|
       case Importing(c, _, _) => c < |s.calls|
       case Calling(_, _, _) => false
       case _ => true
  }

  /** A goroutine can go on unless it waits for a call that has not returned. */
  ghost predicate Enabled(s: State, i: nat) {
    Legal(s, i) && (Top(s, i).phase.Waiting? ==> s.calls[Top(s, i).phase.call].result.Some?)
  }

  ghost function WithTop(s: State, i: nat, phase: Phase): State
    requires Busy(s, i)
  {
    var fs := s.threads[i].frames;
    s.(threads := s.threads[i := s.threads[i].(frames := fs[|fs| - 1 := fs[|fs| - 1].(phase := phase)])])
  }

  /** fn returns, and whoever waits is told. */
  ghost function Finish(s: State, i: nat, c: nat, out: Outcome): State
    requires Busy(s, i) && c < |s.calls|
  {
    WithTop(s.(calls := s.calls[c := s.calls[c].(result := Some(out))]), i, Leaving(c, out))
  }

  ghost function Popped(s: State, i: nat): State
    requires Busy(s, i)
  {
    s.(threads := s.threads[i := s.threads[i].(frames := s.threads[i].frames[..Depth(s, i)])])
  }

  /** load returns to whoever called it. */
  ghost function Return(s: State, i: nat, out: Outcome): State
    requires Busy(s, i)
  {
    var t := Popped(s, i);
    if t.threads[i].frames == [] then t.(threads := t.threads[i := t.threads[i].(out := Some(out))])
    else
      match Top(t, i).phase
      case Calling(c, files, k) =>
        if out.Files? then WithTop(t, i, Importing(c, files + out.files, k + 1))
        else if c < |t.calls| then Finish(t, i, c, out)
        else t
      case _ => t
  }

  ghost function Pushed(s: State, i: nat, pkg: string): State
    requires i < |s.threads|
  {
    s.(threads := s.threads[i := s.threads[i].(frames := s.threads[i].frames + [Frame(pkg, Looking)])])
  }

  /** A goroutine enters Do: it waits for a call under way, or makes one. */
  ghost function Entered(s: State, i: nat): State
    requires Busy(s, i)
  {
    var pkg, c := Top(s, i).pkg, |s.calls|;
    if pkg in s.group then WithTop(s, i, Waiting(s.group[pkg]))
    else WithTop(s.(calls := s.calls + [Call(pkg, i, Depth(s, i), None)], group := s.group[pkg := c]), i, Starting(c))
  }

  /** The start of fn. */
  ghost function Begun(w: World, s: State, i: nat, c: nat): State
    requires Busy(s, i) && c < |s.calls|
  {
    var pkg := Top(s, i).pkg;
    if pkg == "C" then Finish(s, i, c, Files([]))
    else if pkg !in w.packages then Finish(s, i, c, Failed)
    else if w.packages[pkg].goroot then Finish(s.(cache := s.cache[pkg := []]), i, c, Files([]))
    else WithTop(s, i, Importing(c, Sources(w, w.packages[pkg]), 0))
  }

  /** The goroutine's next step. */
  ghost function Next(w: World, s: State, i: nat): State
    requires Enabled(s, i)
  {
    var pkg := Top(s, i).pkg;
    match Top(s, i).phase
    case Looking => if pkg in s.cache then Return(s, i, Files(s.cache[pkg])) else WithTop(s, i, Entering)
    case Entering => Entered(s, i)
    case Waiting(c) => WithTop(s, i, Storing(s.calls[c].result.value))
    case Starting(c) => Begun(w, s, i, c)
    case Importing(c, files, k) =>
      if Expands(w, pkg) && k < |w.packages[pkg].imports|
      then Pushed(WithTop(s, i, Calling(c, files, k)), i, w.packages[pkg].imports[k])
      else Finish(s, i, c, Files(files))
    case Calling(_, _, _) => s
    case Leaving(_, out) => WithTop(s.(group := s.group - {pkg}), i, Storing(out))
    case Storing(out) => Return(if out.Files? then s.(cache := s.cache[pkg := out.files]) else s, i, out)
  }

  /** A load returns what the uncached recursion returns. */
  ghost predicate Right(w: World, pkg: string, out: Outcome) {
    out == Plain(w, {}, pkg)
  }

  /** One import after the other, each loaded on its own. */
  ghost function Each(w: World, imports: seq<string>): Outcome {
    if imports == [] then Files([])
    else Then(Each(w, imports[..|imports| - 1]), Plain(w, {}, imports[|imports| - 1]))
  }

  /** The files so far are the package's own and those of the first k imports. */
  ghost predicate Partial(w: World, pkg: string, files: seq<string>, k: nat) {
    && Expands(w, pkg) && k <= |w.packages[pkg].imports|
    && Then(Files(Sources(w, w.packages[pkg])), Each(w, w.packages[pkg].imports[..k])) == Files(files)
  }

  ghost predicate LeadsCall(p: Phase, c: nat) {
    match p
    case Starting(call) => call == c
    case Importing(call, _, _) => call == c
    case Calling(call, _, _) => call == c
    case Leaving(call, _) => call == c
    case _ => false
  }

  /** The call of Do is that of the call of load at this depth, and is under way. */
  ghost predicate Owned(calls: seq<Call>, group: map<string, nat>, i: nat, d: nat, pkg: string, c: nat) {
    && c < |calls| && calls[c].pkg == pkg && calls[c].thread == i && calls[c].depth == d
    && pkg in group && group[pkg] == c
  }

  /** What a call of load at depth d has reached. */
  ghost predicate FrameOk(w: World, calls: seq<Call>, group: map<string, nat>, frames: seq<Frame>, i: nat, d: nat)
    requires d < |frames|
  {
    var pkg := frames[d].pkg;
    && (frames[d].phase.Calling? <==> d + 1 < |frames|)
    && match frames[d].phase
       case Looking => true
       case Entering => true
       case Waiting(c) => c < |calls| && calls[c].pkg == pkg
       case Starting(c) => Owned(calls, group, i, d, pkg, c) && calls[c].result.None?
       case Importing(c, files, k) =>
         Owned(calls, group, i, d, pkg, c) && calls[c].result.None? && Partial(w, pkg, files, k)
       case Calling(c, files, k) =>
         && Owned(calls, group, i, d, pkg, c) && calls[c].result.None? && Partial(w, pkg, files, k)
         && k < |w.packages[pkg].imports| && frames[d + 1].pkg == w.packages[pkg].imports[k]
       case Leaving(c, out) => Owned(calls, group, i, d, pkg, c) && calls[c].result == Some(out)
       case Storing(out) => Right(w, pkg, out)
  }

  ghost predicate ThreadOk(w: World, calls: seq<Call>, group: map<string, nat>, th: Thread, i: nat) {
    && (if th.frames == [] then th.out.Some? && Right(w, th.target, th.out.value) else th.frames[0].pkg == th.target)
    && forall d {:trigger FrameOk(w, calls, group, th.frames, i, d)} | 0 <= d < |th.frames| ::
         FrameOk(w, calls, group, th.frames, i, d)
  }

  /** A call has returned what it should, or is under way. */
  ghost predicate CallOk(w: World, group: map<string, nat>, call: Call, c: nat) {
    if call.result.Some? then Right(w, call.pkg, call.result.value) else call.pkg in group && group[call.pkg] == c
  }

  /** A call under way is led by the call of load that made it. */
  ghost predicate LedOk(calls: seq<Call>, threads: seq<Thread>, pkg: string, c: nat) {
    && c < |calls| && calls[c].pkg == pkg && calls[c].thread < |threads|
    && calls[c].depth < |threads[calls[c].thread].frames|
    && threads[calls[c].thread].frames[calls[c].depth].pkg == pkg
    && LeadsCall(threads[calls[c].thread].frames[calls[c].depth].phase, c)
  }

  ghost predicate CacheRight(w: World, cache: map<string, seq<string>>) {
    forall p | p in cache :: Plain(w, {}, p) == Files(cache[p])
  }

  ghost predicate Inv(w: World, s: State) {
    && CacheRight(w, s.cache)
    && (forall i {:trigger ThreadOk(w, s.calls, s.group, s.threads[i], i)} | 0 <= i < |s.threads| ::
          ThreadOk(w, s.calls, s.group, s.threads[i], i))
    && (forall c {:trigger CallOk(w, s.group, s.calls[c], c)} | 0 <= c < |s.calls| :: CallOk(w, s.group, s.calls[c], c))
    && (forall p {:trigger LedOk(s.calls, s.threads, p, s.group[p])} | p in s.group ::
          LedOk(s.calls, s.threads, p, s.group[p]))
  }

  /** Nothing that is being loaded is reached from the package. */
  ghost predicate Apart(w: World, loading: set<string>, pkg: string) {
    forall q | q in loading :: q != pkg && !Reaches(ImportGraph(w), pkg, q)
  }

  lemma {:induction false} ApartStep(w: World, loading: set<string>, pkg: string, k: nat)
    requires !Cyclic(ImportGraph(w)) && Apart(w, loading, pkg) && Expands(w, pkg) && k < |w.packages[pkg].imports|
    ensures Apart(w, loading + {pkg}, w.packages[pkg].imports[k])
  {
    var g, d := ImportGraph(w), w.packages[pkg].imports[k];
    assert pkg in g && d in g[pkg];
    ReachesOne(g, pkg, d);
    forall q | q in loading + {pkg}
      ensures q != d && !Reaches(g, d, q)
    {
      if Reaches(g, d, q) {
        ReachesMore(g, pkg, d, q);
      }
    }
  }

  /** On an acyclic graph a load does not depend on what else is being loaded. */
  lemma {:induction false} PlainApart(w: World, a: set<string>, b: set<string>, pkg: string)
    requires !Cyclic(ImportGraph(w)) && Apart(w, a, pkg) && Apart(w, b, pkg)
    ensures Plain(w, a, pkg) == Plain(w, b, pkg)
    decreases |w.packages.Keys - a|, 0
  {
    if Expands(w, pkg) {
      var imports := w.packages[pkg].imports;
      SubsetSize(w.packages.Keys - (a + {pkg}), w.packages.Keys - a);
      assert imports[..|imports|] == imports;
      PlainAllApart(w, a, b, pkg, |imports|);
    }
  }

  lemma {:induction false} PlainAllApart(w: World, a: set<string>, b: set<string>, pkg: string, k: nat)
    requires !Cyclic(ImportGraph(w)) && Apart(w, a, pkg) && Apart(w, b, pkg)
    requires Expands(w, pkg) && k <= |w.packages[pkg].imports|
    ensures PlainAll(w, a + {pkg}, w.packages[pkg].imports[..k]) == PlainAll(w, b + {pkg}, w.packages[pkg].imports[..k])
    decreases |w.packages.Keys - (a + {pkg})|, k + 1
  {
    var imports := w.packages[pkg].imports;
    if k > 0 {
      assert imports[..k][..k - 1] == imports[..k - 1];
      PlainAllApart(w, a, b, pkg, k - 1);
      ApartStep(w, a, pkg, k - 1);
      ApartStep(w, b, pkg, k - 1);
      PlainApart(w, a + {pkg}, b + {pkg}, imports[k - 1]);
    }
  }

  lemma {:induction false} EachIsPlain(w: World, pkg: string, k: nat)
    requires !Cyclic(ImportGraph(w)) && Expands(w, pkg) && k <= |w.packages[pkg].imports|
    ensures PlainAll(w, {pkg}, w.packages[pkg].imports[..k]) == Each(w, w.packages[pkg].imports[..k])
  {
    var imports := w.packages[pkg].imports;
    if k > 0 {
      assert imports[..k][..k - 1] == imports[..k - 1];
      EachIsPlain(w, pkg, k - 1);
      assert {} + {pkg} == {pkg};
      ApartStep(w, {}, pkg, k - 1);
      PlainApart(w, {pkg}, {}, imports[k - 1]);
    }
  }

  /** On an acyclic graph a package's files are its own and those of its imports. */
  lemma {:induction false} PlainIsEach(w: World, pkg: string)
    requires !Cyclic(ImportGraph(w)) && Expands(w, pkg)
    ensures Plain(w, {}, pkg) == Then(Files(Sources(w, w.packages[pkg])), Each(w, w.packages[pkg].imports))
  {
    var imports := w.packages[pkg].imports;
    assert imports[..|imports|] == imports && {} + {pkg} == {pkg};
    EachIsPlain(w, pkg, |imports|);
  }

  /** From s to t one goroutine has changed its calls of load from depth n on, and at most the
      call x of Do. */
  ghost predicate Local(s: State, t: State, i: nat, n: nat, x: int) {
    && i < |s.threads| == |t.threads| && t.threads == s.threads[i := t.threads[i]]
    && t.threads[i].target == s.threads[i].target
    && n <= |s.threads[i].frames| && n <= |t.threads[i].frames|
    && t.threads[i].frames[..n] == s.threads[i].frames[..n]
    && (n > 0 ==> n < |s.threads[i].frames| && n < |t.threads[i].frames|
                  && t.threads[i].frames[n].pkg == s.threads[i].frames[n].pkg)
    && |s.calls| <= |t.calls| <= |s.calls| + 1 && (|t.calls| > |s.calls| ==> x == |s.calls|)
    && (forall c | 0 <= c < |s.calls| && c != x :: t.calls[c] == s.calls[c])
    && (0 <= x < |s.calls| ==> s.calls[x].thread == i && s.calls[x].depth >= n && t.calls[x].pkg == s.calls[x].pkg)
    && (forall p | p in s.group && s.group[p] != x :: p in t.group && t.group[p] == s.group[p])
    && (forall p | p in t.group && t.group[p] != x :: p in s.group && s.group[p] == t.group[p])
  }

  lemma {:induction false} FrameStays(w: World, s: State, t: State, i: nat, n: nat, x: int, j: nat, d: nat)
    requires Local(s, t, i, n, x) && j < |s.threads| && d < |s.threads[j].frames| && (j != i || d < n)
    requires FrameOk(w, s.calls, s.group, s.threads[j].frames, j, d)
    ensures d < |t.threads[j].frames| && FrameOk(w, t.calls, t.group, t.threads[j].frames, j, d)
  {
    if j == i {
      assert t.threads[i].frames[..n][d] == s.threads[i].frames[..n][d];
      assert d + 1 < n ==> t.threads[i].frames[..n][d + 1] == s.threads[i].frames[..n][d + 1];
    }
  }

  lemma {:induction false} OthersStay(w: World, s: State, t: State, i: nat, n: nat, x: int, j: nat)
    requires Inv(w, s) && Local(s, t, i, n, x) && j < |s.threads| && j != i
    ensures ThreadOk(w, t.calls, t.group, t.threads[j], j)
  {
    assert ThreadOk(w, s.calls, s.group, s.threads[j], j);
    forall d {:trigger FrameOk(w, t.calls, t.group, t.threads[j].frames, j, d)} | 0 <= d < |t.threads[j].frames|
      ensures FrameOk(w, t.calls, t.group, t.threads[j].frames, j, d)
    {
      assert FrameOk(w, s.calls, s.group, s.threads[j].frames, j, d);
      FrameStays(w, s, t, i, n, x, j, d);
    }
  }

  /** The changed part of the goroutine is as it should be. */
  ghost predicate EndOk(w: World, t: State, i: nat, n: nat) {
    && i < |t.threads|
    && var th := t.threads[i];
    && (n == 0 ==> if th.frames == [] then th.out.Some? && Right(w, th.target, th.out.value)
                   else t.threads[i].frames[0].pkg == t.threads[i].target)
    && forall d {:trigger FrameOk(w, t.calls, t.group, t.threads[i].frames, i, d)} | n <= d < |t.threads[i].frames| ::
         FrameOk(w, t.calls, t.group, t.threads[i].frames, i, d)
  }

  lemma {:induction false} SelfStays(w: World, s: State, t: State, i: nat, n: nat, x: int)
    requires Inv(w, s) && Local(s, t, i, n, x) && EndOk(w, t, i, n)
    ensures ThreadOk(w, t.calls, t.group, t.threads[i], i)
  {
    assert ThreadOk(w, s.calls, s.group, s.threads[i], i);
    if n > 0 {
      assert t.threads[i].frames[..n][0] == s.threads[i].frames[..n][0];
    }
    forall d {:trigger FrameOk(w, t.calls, t.group, t.threads[i].frames, i, d)} | 0 <= d < |t.threads[i].frames|
      ensures FrameOk(w, t.calls, t.group, t.threads[i].frames, i, d)
    {
      if d < n {
        assert FrameOk(w, s.calls, s.group, s.threads[i].frames, i, d);
        FrameStays(w, s, t, i, n, x, i, d);
      }
    }
  }

  /** From depth n on the goroutine leads no call but x. */
  ghost predicate LeadsOnly(th: Thread, n: nat, x: int) {
    forall d, c | n <= d < |th.frames| && LeadsCall(th.frames[d].phase, c) :: c == x
  }

  lemma {:induction false} LedStays(w: World, s: State, t: State, i: nat, n: nat, x: int, p: string)
    requires Inv(w, s) && Local(s, t, i, n, x) && LeadsOnly(s.threads[i], n, x) && p in t.group && t.group[p] != x
    ensures LedOk(t.calls, t.threads, p, t.group[p])
  {
    var c := t.group[p];
    assert LedOk(s.calls, s.threads, p, s.group[p]);
    var j, d := s.calls[c].thread, s.calls[c].depth;
    if j == i {
      assert d < n;
      assert t.threads[i].frames[..n][d] == s.threads[i].frames[..n][d];
    }
  }

  /** The changed call is as it should be. */
  ghost predicate ChangeOk(w: World, t: State, x: int) {
    && (0 <= x < |t.calls| ==> CallOk(w, t.group, t.calls[x], x))
    && forall p {:trigger LedOk(t.calls, t.threads, p, t.group[p])} | p in t.group && t.group[p] == x ::
         LedOk(t.calls, t.threads, p, t.group[p])
  }

  /** A local change that is as it should be keeps the invariant. */
  lemma {:induction false} LocalKeeps(w: World, s: State, t: State, i: nat, n: nat, x: int)
    requires Inv(w, s) && Local(s, t, i, n, x) && LeadsOnly(s.threads[i], n, x)
    requires CacheRight(w, t.cache) && EndOk(w, t, i, n) && ChangeOk(w, t, x)
    ensures Inv(w, t)
  {
    forall j {:trigger ThreadOk(w, t.calls, t.group, t.threads[j], j)} | 0 <= j < |t.threads|
      ensures ThreadOk(w, t.calls, t.group, t.threads[j], j)
    {
      if j == i {
        SelfStays(w, s, t, i, n, x);
      } else {
        OthersStay(w, s, t, i, n, x, j);
      }
    }
    forall c {:trigger CallOk(w, t.group, t.calls[c], c)} | 0 <= c < |t.calls|
      ensures CallOk(w, t.group, t.calls[c], c)
    {
      if c != x {
        assert CallOk(w, s.group, s.calls[c], c);
      }
    }
    forall p {:trigger LedOk(t.calls, t.threads, p, t.group[p])} | p in t.group
      ensures LedOk(t.calls, t.threads, p, t.group[p])
    {
      if t.group[p] != x {
        LedStays(w, s, t, i, n, x, p);
      }
    }
  }

  /** What the invariant says about the top. */
  lemma {:induction false} TopOk(w: World, s: State, i: nat)
    requires Inv(w, s) && Busy(s, i)
    ensures FrameOk(w, s.calls, s.group, s.threads[i].frames, i, Depth(s, i)) && Legal(s, i)
    ensures Depth(s, i) == 0 ==> Top(s, i).pkg == s.threads[i].target
  {
    assert ThreadOk(w, s.calls, s.group, s.threads[i], i);
    assert FrameOk(w, s.calls, s.group, s.threads[i].frames, i, Depth(s, i));
  }

  /** The top goes on without a call of its own. */
  lemma {:induction false} IdleKeeps(w: World, s: State, i: nat, phase: Phase)
    requires Inv(w, s) && Busy(s, i) && (forall c :: !LeadsCall(Top(s, i).phase, c))
    requires match phase
             case Entering => true
             case Waiting(c) => c < |s.calls| && s.calls[c].pkg == Top(s, i).pkg
             case Storing(out) => Right(w, Top(s, i).pkg, out)
             case _ => false
    ensures Inv(w, WithTop(s, i, phase))
  {
    TopOk(w, s, i);
    LocalKeeps(w, s, WithTop(s, i, phase), i, Depth(s, i), -1);
  }

  lemma {:induction false} MakeCall(w: World, s: State, i: nat)
    requires Inv(w, s) && Busy(s, i) && Top(s, i).phase == Entering && Top(s, i).pkg !in s.group
    ensures Inv(w, Entered(s, i))
  {
    TopOk(w, s, i);
    var t := Entered(s, i);
    assert t.threads[i].frames[Depth(s, i)] == Frame(Top(s, i).pkg, Starting(|s.calls|));
    forall p {:trigger LedOk(t.calls, t.threads, p, t.group[p])} | p in t.group && t.group[p] == |s.calls|
      ensures LedOk(t.calls, t.threads, p, t.group[p])
    {
      assert p in s.group ==> LedOk(s.calls, s.threads, p, s.group[p]);
    }
    LocalKeeps(w, s, t, i, Depth(s, i), |s.calls|);
  }

  lemma {:induction false} EnterKeeps(w: World, s: State, i: nat)
    requires Inv(w, s) && Busy(s, i) && Top(s, i).phase == Entering
    ensures Inv(w, Entered(s, i))
  {
    var pkg := Top(s, i).pkg;
    if pkg in s.group {
      assert LedOk(s.calls, s.threads, pkg, s.group[pkg]);
      IdleKeeps(w, s, i, Waiting(s.group[pkg]));
    } else {
      MakeCall(w, s, i);
    }
  }

  /** The top leads the call c and goes on with it, or returns from fn. */
  lemma {:induction false} LeadKeeps(w: World, s: State, i: nat, c: nat, phase: Phase, result: Option<Outcome>)
    requires Inv(w, s) && Busy(s, i) && LeadsCall(Top(s, i).phase, c) && !Top(s, i).phase.Leaving?
    requires c < |s.calls|
    requires match phase
             case Importing(call, files, k) => call == c && result.None? && Partial(w, Top(s, i).pkg, files, k)
             case Leaving(call, out) => call == c && result == Some(out) && Right(w, Top(s, i).pkg, out)
             case _ => false
    ensures Inv(w, WithTop(s.(calls := s.calls[c := s.calls[c].(result := result)]), i, phase))
  {
    TopOk(w, s, i);
    var t := WithTop(s.(calls := s.calls[c := s.calls[c].(result := result)]), i, phase);
    forall p {:trigger LedOk(t.calls, t.threads, p, t.group[p])} | p in t.group && t.group[p] == c
      ensures LedOk(t.calls, t.threads, p, t.group[p])
    {
      assert LedOk(s.calls, s.threads, p, s.group[p]);
    }
    LocalKeeps(w, s, t, i, Depth(s, i), c);
  }

  lemma {:induction false} CacheMore(w: World, s: State, pkg: string, files: seq<string>)
    requires Inv(w, s) && Right(w, pkg, Files(files))
    ensures Inv(w, s.(cache := s.cache[pkg := files]))
  {
  }

  lemma {:induction false} BeginKeeps(w: World, s: State, i: nat, c: nat)
    requires Inv(w, s) && Busy(s, i) && Top(s, i).phase == Starting(c) && c < |s.calls|
    ensures Inv(w, Begun(w, s, i, c))
  {
    var pkg := Top(s, i).pkg;
    TopOk(w, s, i);
    if Expands(w, pkg) {
      assert w.packages[pkg].imports[..0] == [];
      assert s.calls[c].(result := None) == s.calls[c] && s.calls[c := s.calls[c]] == s.calls;
      LeadKeeps(w, s, i, c, Importing(c, Sources(w, w.packages[pkg]), 0), None);
    } else if pkg != "C" && pkg in w.packages {
      CacheMore(w, s, pkg, []);
      LeadKeeps(w, s.(cache := s.cache[pkg := []]), i, c, Leaving(c, Files([])), Some(Files([])));
    } else {
      var out := if pkg == "C" then Files([]) else Failed;
      LeadKeeps(w, s, i, c, Leaving(c, out), Some(out));
    }
  }

  /** The next import is loaded. */
  lemma {:induction false} CallKeeps(w: World, s: State, i: nat)
    requires Inv(w, s) && Busy(s, i) && Top(s, i).phase.Importing? && Expands(w, Top(s, i).pkg)
    requires Top(s, i).phase.k < |w.packages[Top(s, i).pkg].imports|
    ensures var p, pkg := Top(s, i).phase, Top(s, i).pkg;
            Inv(w, Pushed(WithTop(s, i, Calling(p.call, p.files, p.k)), i, w.packages[pkg].imports[p.k]))
  {
    TopOk(w, s, i);
    var p, pkg, d := Top(s, i).phase, Top(s, i).pkg, Depth(s, i);
    var t := Pushed(WithTop(s, i, Calling(p.call, p.files, p.k)), i, w.packages[pkg].imports[p.k]);
    var fs := t.threads[i].frames;
    assert fs[d] == Frame(pkg, Calling(p.call, p.files, p.k)) && fs[d + 1].phase == Looking;
    forall q {:trigger LedOk(t.calls, t.threads, q, t.group[q])} | q in t.group && t.group[q] == p.call
      ensures LedOk(t.calls, t.threads, q, t.group[q])
    {
      assert LedOk(s.calls, s.threads, q, s.group[q]);
    }
    LocalKeeps(w, s, t, i, d, p.call);
  }

  /** All imports are loaded. */
  lemma {:induction false} ImportedKeeps(w: World, s: State, i: nat)
    requires Inv(w, s) && Busy(s, i) && Top(s, i).phase.Importing? && !Cyclic(ImportGraph(w))
    requires !(Expands(w, Top(s, i).pkg) && Top(s, i).phase.k < |w.packages[Top(s, i).pkg].imports|)
    ensures Legal(s, i) && Inv(w, Finish(s, i, Top(s, i).phase.call, Files(Top(s, i).phase.files)))
  {
    TopOk(w, s, i);
    var p, pkg := Top(s, i).phase, Top(s, i).pkg;
    assert w.packages[pkg].imports[..p.k] == w.packages[pkg].imports;
    PlainIsEach(w, pkg);
    LeadKeeps(w, s, i, p.call, Leaving(p.call, Files(p.files)), Some(Files(p.files)));
  }

  /** The call of Do is over. */
  lemma {:induction false} LeaveKeeps(w: World, s: State, i: nat)
    requires Inv(w, s) && Busy(s, i) && Top(s, i).phase.Leaving?
    ensures Inv(w, WithTop(s.(group := s.group - {Top(s, i).pkg}), i, Storing(Top(s, i).phase.out)))
  {
    TopOk(w, s, i);
    var p, pkg := Top(s, i).phase, Top(s, i).pkg;
    var t := WithTop(s.(group := s.group - {pkg}), i, Storing(p.out));
    assert CallOk(w, s.group, s.calls[p.call], p.call);
    forall q | q in s.group && s.group[q] == p.call
      ensures q == pkg
    {
      assert LedOk(s.calls, s.threads, q, s.group[q]);
    }
    LocalKeeps(w, s, t, i, Depth(s, i), p.call);
  }

  /** The first import that does not return files decides. */
  lemma {:induction false} EachStops(w: World, imports: seq<string>, k: nat)
    requires k < |imports| && Each(w, imports[..k]).Files? && !Plain(w, {}, imports[k]).Files?
    ensures Each(w, imports) == Plain(w, {}, imports[k])
    decreases |imports|
  {
    if k < |imports| - 1 {
      assert imports[..|imports| - 1][..k] == imports[..k];
      EachStops(w, imports[..|imports| - 1], k);
    }
  }

  /** An import returns files. */
  lemma {:induction false} PartialMore(w: World, pkg: string, files: seq<string>, k: nat, more: seq<string>)
    requires Partial(w, pkg, files, k) && k < |w.packages[pkg].imports|
    requires Right(w, w.packages[pkg].imports[k], Files(more))
    ensures Partial(w, pkg, files + more, k + 1)
  {
    var imports := w.packages[pkg].imports;
    assert imports[..k + 1][..k] == imports[..k];
    Assoc(Sources(w, w.packages[pkg]), Each(w, imports[..k]).files, more);
  }

  /** An import fails, and so does the package. */
  lemma {:induction false} PartialFails(w: World, pkg: string, files: seq<string>, k: nat, out: Outcome)
    requires !Cyclic(ImportGraph(w)) && Partial(w, pkg, files, k) && k < |w.packages[pkg].imports|
    requires Right(w, w.packages[pkg].imports[k], out) && !out.Files?
    ensures Right(w, pkg, out)
  {
    PlainIsEach(w, pkg);
    EachStops(w, w.packages[pkg].imports, k);
  }

  lemma {:induction false} ReturnLast(w: World, s: State, i: nat, out: Outcome)
    requires Inv(w, s) && Busy(s, i) && Depth(s, i) == 0 && Right(w, Top(s, i).pkg, out)
    requires Top(s, i).phase.Looking? || Top(s, i).phase.Storing?
    ensures Inv(w, Return(s, i, out))
  {
    TopOk(w, s, i);
    LocalKeeps(w, s, Return(s, i, out), i, 0, -1);
  }

  /** The caller of the top. */
  lemma {:induction false} CallerOk(w: World, s: State, i: nat)
    requires Inv(w, s) && Busy(s, i) && Depth(s, i) > 0
    ensures var d := Depth(s, i) - 1;
            FrameOk(w, s.calls, s.group, s.threads[i].frames, i, d) && s.threads[i].frames[d].phase.Calling?
  {
    assert ThreadOk(w, s.calls, s.group, s.threads[i], i);
    assert FrameOk(w, s.calls, s.group, s.threads[i].frames, i, Depth(s, i) - 1);
  }

  /** After a return the caller goes on with its call of Do. */
  lemma {:induction false} CallerKeeps(w: World, s: State, i: nat, phase: Phase, result: Option<Outcome>, t: State)
    requires Inv(w, s) && Busy(s, i) && Depth(s, i) > 0 && (Top(s, i).phase.Looking? || Top(s, i).phase.Storing?)
    requires var d := Depth(s, i) - 1;
             var caller := s.threads[i].frames[d];
             && caller.phase.Calling? && caller.phase.call < |s.calls|
             && var c := caller.phase.call;
             && t == WithTop(Popped(s, i).(calls := s.calls[c := s.calls[c].(result := result)]), i, phase)
             && match phase
                case Importing(call, files, k) => call == c && result.None? && Partial(w, caller.pkg, files, k)
                case Leaving(call, out) => call == c && result == Some(out) && Right(w, caller.pkg, out)
                case _ => false
    ensures Inv(w, t)
  {
    var d := Depth(s, i) - 1;
    var caller := s.threads[i].frames[d];
    CallerOk(w, s, i);
    assert t.threads[i].frames[d] == Frame(caller.pkg, phase);
    var c := caller.phase.call;
    forall p {:trigger LedOk(t.calls, t.threads, p, t.group[p])} | p in t.group && t.group[p] == c
      ensures LedOk(t.calls, t.threads, p, t.group[p])
    {
      assert LedOk(s.calls, s.threads, p, s.group[p]);
    }
    if d == 0 {
      assert ThreadOk(w, s.calls, s.group, s.threads[i], i);
    }
    LocalKeeps(w, s, t, i, d, c);
  }

  lemma {:induction false} ReturnKeeps(w: World, s: State, i: nat, out: Outcome)
    requires Inv(w, s) && Busy(s, i) && !Cyclic(ImportGraph(w)) && Right(w, Top(s, i).pkg, out)
    requires Top(s, i).phase.Looking? || Top(s, i).phase.Storing?
    ensures Inv(w, Return(s, i, out))
  {
    if Depth(s, i) == 0 {
      ReturnLast(w, s, i, out);
    } else {
      CallerOk(w, s, i);
      var caller := s.threads[i].frames[Depth(s, i) - 1];
      var p := caller.phase;
      assert Popped(s, i).threads[i].frames[Depth(s, i) - 1] == caller;
      if out.Files? {
        PartialMore(w, caller.pkg, p.files, p.k, out.files);
        assert s.calls[p.call := s.calls[p.call].(result := None)] == s.calls;
        CallerKeeps(w, s, i, Importing(p.call, p.files + out.files, p.k + 1), None, Return(s, i, out));
      } else {
        PartialFails(w, caller.pkg, p.files, p.k, out);
        CallerKeeps(w, s, i, Leaving(p.call, out), Some(out), Return(s, i, out));
      }
    }
  }

  lemma {:induction false} StoreKeeps(w: World, s: State, i: nat)
    requires Inv(w, s) && Busy(s, i) && !Cyclic(ImportGraph(w)) && Top(s, i).phase.Storing?
    ensures Legal(s, i) && Inv(w, Next(w, s, i))
  {
    TopOk(w, s, i);
    var out, pkg := Top(s, i).phase.out, Top(s, i).pkg;
    if out.Files? {
      CacheMore(w, s, pkg, out.files);
      ReturnKeeps(w, s.(cache := s.cache[pkg := out.files]), i, out);
    } else {
      ReturnKeeps(w, s, i, out);
    }
  }

  /** On an acyclic graph every step keeps the invariant. */
  lemma {:induction false} StepKeeps(w: World, s: State, i: nat)
    requires Inv(w, s) && Enabled(s, i) && !Cyclic(ImportGraph(w))
    ensures Inv(w, Next(w, s, i))
  {
    TopOk(w, s, i);
    match Top(s, i).phase
    case Looking =>
      if Top(s, i).pkg in s.cache {
        ReturnKeeps(w, s, i, Files(s.cache[Top(s, i).pkg]));
      } else {
        IdleKeeps(w, s, i, Entering);
      }
    case Entering => EnterKeeps(w, s, i);
    case Waiting(c) =>
      assert CallOk(w, s.group, s.calls[c], c);
      IdleKeeps(w, s, i, Storing(s.calls[c].result.value));
    case Starting(c) => BeginKeeps(w, s, i, c);
    case Importing(_, _, k) =>
      if Expands(w, Top(s, i).pkg) && k < |w.packages[Top(s, i).pkg].imports| {
        CallKeeps(w, s, i);
      } else {
        ImportedKeeps(w, s, i);
      }
    case Calling(_, _, _) =>
    case Leaving(_, _) => LeaveKeeps(w, s, i);
    case Storing(_) => StoreKeeps(w, s, i);
  }

  /** The packages that are being loaded. */
  ghost function Loading(frames: seq<Frame>): set<string> {
    set f | f in frames :: f.pkg
  }

  /** How many steps a load may take. */
  ghost function Work(w: World, loading: set<string>, pkg: string): nat
    decreases |w.packages.Keys - loading|, 0
  {
    if Expands(w, pkg) && pkg !in loading then
      SubsetSize(w.packages.Keys - (loading + {pkg}), w.packages.Keys - loading);
      6 + WorkAll(w, loading + {pkg}, w.packages[pkg].imports)
    else 6
  }

  ghost function WorkAll(w: World, loading: set<string>, imports: seq<string>): nat
    decreases |w.packages.Keys - loading|, |imports| + 1
  {
    if imports == [] then 0 else 1 + Work(w, loading, imports[0]) + WorkAll(w, loading, imports[1..])
  }

  /** What is left of it. */
  ghost function FrameLeft(w: World, loading: set<string>, f: Frame): nat {
    match f.phase
    case Looking => Work(w, loading, f.pkg)
    case Entering => Work(w, loading, f.pkg) - 1
    case Starting(_) => Work(w, loading, f.pkg) - 2
    case Importing(_, _, k) => 3 + ImportsLeft(w, loading + {f.pkg}, f.pkg, k)
    case Calling(_, _, k) => 3 + ImportsLeft(w, loading + {f.pkg}, f.pkg, k + 1)
    case Waiting(_) => 2
    case Leaving(_, _) => 2
    case Storing(_) => 1
  }

  ghost function ImportsLeft(w: World, loading: set<string>, pkg: string, k: nat): nat {
    if Expands(w, pkg) && k <= |w.packages[pkg].imports| then WorkAll(w, loading, w.packages[pkg].imports[k..]) else 0
  }

  ghost function ThreadLeft(w: World, frames: seq<Frame>): nat {
    if frames == [] then 0
    else
      var below, top := frames[..|frames| - 1], frames[|frames| - 1];
      ThreadLeft(w, below) + FrameLeft(w, Loading(below), top)
  }

  ghost function AllLeft(w: World, threads: seq<Thread>): nat {
    if threads == [] then 0 else ThreadLeft(w, threads[0].frames) + AllLeft(w, threads[1..])
  }

  lemma {:induction false} LessLeft(w: World, threads: seq<Thread>, i: nat, th: Thread)
    requires i < |threads| && ThreadLeft(w, th.frames) < ThreadLeft(w, threads[i].frames)
    ensures AllLeft(w, threads[i := th]) < AllLeft(w, threads)
  {
    if i == 0 {
      assert threads[0 := th][1..] == threads[1..];
    } else {
      assert threads[i := th][1..] == threads[1..][i - 1 := th];
      LessLeft(w, threads[1..], i - 1, th);
    }
  }

  lemma {:induction false} OneMoreFrame(w: World, below: seq<Frame>, top: Frame)
    ensures ThreadLeft(w, below + [top]) == ThreadLeft(w, below) + FrameLeft(w, Loading(below), top)
  {
    assert (below + [top])[..|below|] == below;
  }

  /** The top changes to a phase with less left. */
  lemma {:induction false} TopFalls(w: World, s: State, i: nat, phase: Phase)
    requires Busy(s, i)
    requires var below := Loading(s.threads[i].frames[..Depth(s, i)]);
             FrameLeft(w, below, Top(s, i).(phase := phase)) < FrameLeft(w, below, Top(s, i))
    ensures AllLeft(w, WithTop(s, i, phase).threads) < AllLeft(w, s.threads)
  {
    var fs, t := s.threads[i].frames, WithTop(s, i, phase);
    assert t.threads[i].frames[..|fs| - 1] == fs[..|fs| - 1];
    LessLeft(w, s.threads, i, t.threads[i]);
  }

  /** A call of load returns, and its caller has no more left than before. */
  lemma {:induction false} PopFalls(w: World, below: seq<Frame>, caller: Frame, top: Frame, after: Frame)
    requires FrameLeft(w, Loading(below), after) <= FrameLeft(w, Loading(below), caller)
    requires FrameLeft(w, Loading(below + [caller]), top) > 0
    ensures ThreadLeft(w, below + [after]) < ThreadLeft(w, below + [caller] + [top])
  {
    OneMoreFrame(w, below, after);
    OneMoreFrame(w, below, caller);
    OneMoreFrame(w, below + [caller], top);
  }

  /** The caller of the top waits for it. */
  ghost predicate CallerWaits(s: State, i: nat) {
    && Busy(s, i) && (Top(s, i).phase.Looking? || Top(s, i).phase.Storing?)
    && (Depth(s, i) > 0 ==>
          var p := s.threads[i].frames[Depth(s, i) - 1].phase;
          p.Calling? && p.call < |s.calls|)
  }

  /** What a return makes of the caller. */
  ghost function Back(caller: Frame, out: Outcome): Frame
    requires caller.phase.Calling?
  {
    var p := caller.phase;
    caller.(phase := if out.Files? then Importing(p.call, p.files + out.files, p.k + 1) else Leaving(p.call, out))
  }

  lemma {:induction false} CallerBack(s: State, i: nat, out: Outcome)
    requires CallerWaits(s, i) && Depth(s, i) > 0
    ensures var d, fs := Depth(s, i), s.threads[i].frames;
            && fs == fs[..d - 1] + [fs[d - 1]] + [fs[d]]
            && Return(s, i, out).threads == s.threads[i := Return(s, i, out).threads[i]]
            && Return(s, i, out).threads[i].frames == fs[..d - 1] + [Back(fs[d - 1], out)]
  {
    var d, fs := Depth(s, i), s.threads[i].frames;
    var t := Popped(s, i);
    assert t.threads[i].frames == fs[..d] && fs[..d][..d - 1] == fs[..d - 1] && Top(t, i) == fs[d - 1];
    assert fs[..d][d - 1 := Back(fs[d - 1], out)] == fs[..d - 1] + [Back(fs[d - 1], out)];
  }

  lemma {:induction false} BackIsLess(w: World, loading: set<string>, caller: Frame, out: Outcome)
    requires caller.phase.Calling?
    ensures FrameLeft(w, loading, Back(caller, out)) <= FrameLeft(w, loading, caller)
  {
  }

  lemma {:induction false} FramesFall(w: World, fs: seq<Frame>, out: Outcome)
    requires |fs| > 1 && (fs[|fs| - 1].phase.Looking? || fs[|fs| - 1].phase.Storing?) && fs[|fs| - 2].phase.Calling?
    ensures ThreadLeft(w, fs[..|fs| - 2] + [Back(fs[|fs| - 2], out)]) < ThreadLeft(w, fs)
  {
    var d := |fs| - 1;
    assert fs == fs[..d - 1] + [fs[d - 1]] + [fs[d]];
    BackIsLess(w, Loading(fs[..d - 1]), fs[d - 1], out);
    SomeLeft(w, Loading(fs[..d - 1] + [fs[d - 1]]), fs[d]);
    PopFalls(w, fs[..d - 1], fs[d - 1], fs[d], Back(fs[d - 1], out));
  }

  lemma {:induction false} LastFalls(w: World, s: State, i: nat, out: Outcome)
    requires CallerWaits(s, i) && Depth(s, i) == 0
    ensures AllLeft(w, Return(s, i, out).threads) < AllLeft(w, s.threads)
  {
    var th := Thread(s.threads[i].target, [], Some(out));
    assert Popped(s, i).threads[i].frames == [];
    assert Return(s, i, out).threads == s.threads[i := th];
    OneFrameLeft(w, s.threads[i].frames);
    LessLeft(w, s.threads, i, th);
  }

  lemma {:induction false} OneFrameLeft(w: World, fs: seq<Frame>)
    requires |fs| == 1 && (fs[0].phase.Looking? || fs[0].phase.Storing?)
    ensures ThreadLeft(w, fs) > ThreadLeft(w, [])
  {
    assert fs == [] + [fs[0]];
    SomeLeft(w, Loading([]), fs[0]);
    OneMoreFrame(w, [], fs[0]);
  }

  lemma {:induction false} SomeLeft(w: World, loading: set<string>, f: Frame)
    requires f.phase.Looking? || f.phase.Storing?
    ensures FrameLeft(w, loading, f) > 0
  {
  }

  /** The top returns. */
  lemma {:induction false} ReturnFalls(w: World, s: State, i: nat, out: Outcome)
    requires CallerWaits(s, i)
    ensures AllLeft(w, Return(s, i, out).threads) < AllLeft(w, s.threads)
  {
    if Depth(s, i) == 0 {
      LastFalls(w, s, i, out);
    } else {
      CallerBack(s, i, out);
      FramesFall(w, s.threads[i].frames, out);
      LessLeft(w, s.threads, i, Return(s, i, out).threads[i]);
    }
  }

  /** The next import is loaded. */
  lemma {:induction false} PushFalls(w: World, below: seq<Frame>, top: Frame)
    requires top.phase.Importing? && Expands(w, top.pkg) && top.phase.k < |w.packages[top.pkg].imports|
    ensures var p := top.phase;
            var caller := top.(phase := Calling(p.call, p.files, p.k));
            var child := Frame(w.packages[top.pkg].imports[p.k], Looking);
            ThreadLeft(w, below + [caller] + [child]) < ThreadLeft(w, below + [top])
  {
    var p, imports := top.phase, w.packages[top.pkg].imports;
    var caller, child := top.(phase := Calling(p.call, p.files, p.k)), Frame(imports[p.k], Looking);
    OneMoreFrame(w, below, top);
    OneMoreFrame(w, below, caller);
    OneMoreFrame(w, below + [caller], child);
    LoadingMore(below, caller);
    assert imports[p.k..][0] == imports[p.k] && imports[p.k..][1..] == imports[p.k + 1..];
  }

  lemma {:induction false} CallFalls(w: World, s: State, i: nat)
    requires Busy(s, i) && Top(s, i).phase.Importing? && Expands(w, Top(s, i).pkg)
    requires Top(s, i).phase.k < |w.packages[Top(s, i).pkg].imports|
    ensures var p, pkg := Top(s, i).phase, Top(s, i).pkg;
            var t := Pushed(WithTop(s, i, Calling(p.call, p.files, p.k)), i, w.packages[pkg].imports[p.k]);
            AllLeft(w, t.threads) < AllLeft(w, s.threads)
  {
    var p, pkg, d := Top(s, i).phase, Top(s, i).pkg, Depth(s, i);
    var t := Pushed(WithTop(s, i, Calling(p.call, p.files, p.k)), i, w.packages[pkg].imports[p.k]);
    var fs, gs := s.threads[i].frames, t.threads[i].frames;
    assert fs == fs[..d] + [fs[d]];
    var caller, child := Frame(pkg, Calling(p.call, p.files, p.k)), Frame(w.packages[pkg].imports[p.k], Looking);
    assert gs == fs[..d] + [caller] + [child];
    PushFalls(w, fs[..d], fs[d]);
    assert t.threads == s.threads[i := t.threads[i]];
    LessLeft(w, s.threads, i, t.threads[i]);
  }

  lemma {:induction false} LoadingMore(frames: seq<Frame>, f: Frame)
    ensures Loading(frames + [f]) == Loading(frames) + {f.pkg}
  {
    assert (frames + [f])[|frames|] == f;
    forall q | q in frames
      ensures q in frames + [f]
    {
    }
  }

  /** A package whose call of Do starts is not being loaded below. */
  lemma {:induction false} NotBelow(w: World, s: State, i: nat)
    requires Inv(w, s) && Busy(s, i) && Top(s, i).phase.Starting?
    ensures Top(s, i).pkg !in Loading(s.threads[i].frames[..Depth(s, i)])
  {
    TopOk(w, s, i);
    var fs, n := s.threads[i].frames, Depth(s, i);
    forall f | f in fs[..n]
      ensures f.pkg != Top(s, i).pkg
    {
      var d :| 0 <= d < n && fs[..n][d] == f;
      assert ThreadOk(w, s.calls, s.group, s.threads[i], i);
      assert FrameOk(w, s.calls, s.group, fs, i, d) && fs[d] == f;
    }
  }

  lemma {:induction false} BeginIsLess(w: World, loading: set<string>, f: Frame, phase: Phase)
    requires f.phase.Starting? && f.pkg !in loading && (phase.Leaving? || (phase.Importing? && phase.k == 0))
    ensures FrameLeft(w, loading, f.(phase := phase)) < FrameLeft(w, loading, f)
  {
    if Expands(w, f.pkg) {
      assert w.packages[f.pkg].imports[0..] == w.packages[f.pkg].imports;
    }
  }

  lemma {:induction false} BeginFalls(w: World, s: State, i: nat, c: nat)
    requires Inv(w, s) && Busy(s, i) && Top(s, i).phase == Starting(c) && c < |s.calls|
    ensures AllLeft(w, Begun(w, s, i, c).threads) < AllLeft(w, s.threads)
  {
    NotBelow(w, s, i);
    var phase := Top(Begun(w, s, i, c), i).phase;
    assert Begun(w, s, i, c).threads == WithTop(s, i, phase).threads;
    BeginIsLess(w, Loading(s.threads[i].frames[..Depth(s, i)]), Top(s, i), phase);
    TopFalls(w, s, i, phase);
  }

  lemma {:induction false} CallerIsWaiting(w: World, s: State, i: nat)
    requires Inv(w, s) && Busy(s, i) && (Top(s, i).phase.Looking? || Top(s, i).phase.Storing?)
    ensures CallerWaits(s, i)
  {
    if Depth(s, i) > 0 {
      CallerOk(w, s, i);
    }
  }

  lemma {:induction false} LookFalls(w: World, s: State, i: nat)
    requires CallerWaits(s, i) && Top(s, i).phase.Looking?
    ensures AllLeft(w, Next(w, s, i).threads) < AllLeft(w, s.threads)
  {
    if Top(s, i).pkg in s.cache {
      ReturnFalls(w, s, i, Files(s.cache[Top(s, i).pkg]));
    } else {
      TopFalls(w, s, i, Entering);
    }
  }

  lemma {:induction false} StoreFalls(w: World, s: State, i: nat)
    requires CallerWaits(s, i) && Top(s, i).phase.Storing?
    ensures AllLeft(w, Next(w, s, i).threads) < AllLeft(w, s.threads)
  {
    var out := Top(s, i).phase.out;
    ReturnFalls(w, if out.Files? then s.(cache := s.cache[Top(s, i).pkg := out.files]) else s, i, out);
  }

  lemma {:induction false} LeaveFalls(w: World, s: State, i: nat)
    requires Busy(s, i) && Top(s, i).phase.Leaving?
    ensures AllLeft(w, Next(w, s, i).threads) < AllLeft(w, s.threads)
  {
    TopFalls(w, s, i, Storing(Top(s, i).phase.out));
  }

  lemma {:induction false} WakeFalls(w: World, s: State, i: nat)
    requires Enabled(s, i) && Top(s, i).phase.Waiting?
    ensures AllLeft(w, Next(w, s, i).threads) < AllLeft(w, s.threads)
  {
    TopFalls(w, s, i, Storing(s.calls[Top(s, i).phase.call].result.value));
  }

  lemma {:induction false} EnterFalls(w: World, s: State, i: nat)
    requires Busy(s, i) && Top(s, i).phase.Entering?
    ensures AllLeft(w, Entered(s, i).threads) < AllLeft(w, s.threads)
  {
    var pkg := Top(s, i).pkg;
    TopFalls(w, s, i, if pkg in s.group then Waiting(s.group[pkg]) else Starting(|s.calls|));
  }

  lemma {:induction false} ImportFalls(w: World, s: State, i: nat)
    requires Enabled(s, i) && Top(s, i).phase.Importing?
    ensures AllLeft(w, Next(w, s, i).threads) < AllLeft(w, s.threads)
  {
    var pkg, p := Top(s, i).pkg, Top(s, i).phase;
    if Expands(w, pkg) && p.k < |w.packages[pkg].imports| {
      CallFalls(w, s, i);
    } else {
      TopFalls(w, s, i, Leaving(p.call, Files(p.files)));
    }
  }

  /** Every step leaves less to do. */
  lemma {:induction false} StepFalls(w: World, s: State, i: nat)
    requires Inv(w, s) && Enabled(s, i)
    ensures AllLeft(w, Next(w, s, i).threads) < AllLeft(w, s.threads)
  {
    match Top(s, i).phase
    case Looking =>
      CallerIsWaiting(w, s, i);
      LookFalls(w, s, i);
    case Entering => EnterFalls(w, s, i);
    case Waiting(_) => WakeFalls(w, s, i);
    case Starting(c) => BeginFalls(w, s, i, c);
    case Importing(_, _, _) => ImportFalls(w, s, i);
    case Calling(_, _, _) =>
    case Leaving(_, _) => LeaveFalls(w, s, i);
    case Storing(_) =>
      CallerIsWaiting(w, s, i);
      StoreFalls(w, s, i);
  }

  /** No goroutine can go on. */
  ghost predicate Stuck(s: State) {
    forall i :: !Enabled(s, i)
  }

  ghost predicate AllDone(s: State) {
    forall i | 0 <= i < |s.threads| :: s.threads[i].frames == []
  }

  /** A goroutine that cannot go on waits for a call under way. */
  lemma {:induction false} StuckWaits(w: World, s: State, i: nat)
    requires Inv(w, s) && Busy(s, i) && !Enabled(s, i)
    ensures Top(s, i).phase.Waiting? && Top(s, i).pkg in s.group
  {
    TopOk(w, s, i);
    var c := Top(s, i).phase.call;
    assert CallOk(w, s.group, s.calls[c], c);
  }

  /** When nobody can go on, a package whose call is under way imports another one. */
  lemma {:induction false} StuckImports(w: World, s: State, p: string)
    requires Inv(w, s) && Stuck(s) && p in s.group
    ensures Expands(w, p) && exists k :: 0 <= k < |w.packages[p].imports| && w.packages[p].imports[k] in s.group
  {
    assert LedOk(s.calls, s.threads, p, s.group[p]);
    var i, d := s.calls[s.group[p]].thread, s.calls[s.group[p]].depth;
    var fs := s.threads[i].frames;
    assert !Enabled(s, i);
    StuckWaits(w, s, i);
    assert ThreadOk(w, s.calls, s.group, s.threads[i], i);
    assert FrameOk(w, s.calls, s.group, fs, i, d);
    assert d < Depth(s, i) && fs[d].phase.Calling?;
    assert FrameOk(w, s.calls, s.group, fs, i, d + 1);
    assert fs[d + 1].pkg in s.group;
  }

  /** Goroutines wait for one another forever only where packages import one another in a cycle. */
  lemma {:induction false} StuckIsCyclic(w: World, s: State)
    requires Inv(w, s) && Stuck(s) && !AllDone(s)
    ensures Cyclic(ImportGraph(w))
  {
    var i :| 0 <= i < |s.threads| && s.threads[i].frames != [];
    assert !Enabled(s, i);
    StuckWaits(w, s, i);
    var g, u := ImportGraph(w), s.group.Keys;
    forall p | p in u
      ensures p in g && g[p] * u != {}
    {
      StuckImports(w, s, p);
      var k :| 0 <= k < |w.packages[p].imports| && w.packages[p].imports[k] in s.group;
      assert w.packages[p].imports[k] in g[p] * u;
    }
    NoWayOut(g, u);
  }

  ghost predicate IsRun(w: World, s: State, steps: seq<nat>)
    decreases |steps|
  {
    steps == [] || (Enabled(s, steps[0]) && IsRun(w, Next(w, s, steps[0]), steps[1..]))
  }

  ghost function EndOf(w: World, s: State, steps: seq<nat>): State
    requires IsRun(w, s, steps)
    decreases |steps|
  {
    if steps == [] then s else EndOf(w, Next(w, s, steps[0]), steps[1..])
  }

  lemma {:induction false} RunKeeps(w: World, s: State, steps: seq<nat>)
    requires Inv(w, s) && IsRun(w, s, steps) && !Cyclic(ImportGraph(w))
    ensures Inv(w, EndOf(w, s, steps)) && |steps| + AllLeft(w, EndOf(w, s, steps).threads) <= AllLeft(w, s.threads)
    decreases |steps|
  {
    if steps != [] {
      StepKeeps(w, s, steps[0]);
      StepFalls(w, s, steps[0]);
      RunKeeps(w, Next(w, s, steps[0]), steps[1..]);
    }
  }

  /** Goroutines that are about to load the packages, with an empty cache. */
  ghost function First(targets: seq<string>): State {
    State(map[], map[], [],
          seq(|targets|, i requires 0 <= i < |targets| => Thread(targets[i], [Frame(targets[i], Looking)], None)))
  }

  lemma {:induction false} FirstOk(w: World, targets: seq<string>)
    ensures Inv(w, First(targets))
  {
    var s := First(targets);
    forall i {:trigger ThreadOk(w, s.calls, s.group, s.threads[i], i)} | 0 <= i < |s.threads|
      ensures ThreadOk(w, s.calls, s.group, s.threads[i], i)
    {
    }
  }

  /** On an acyclic import graph, however any number of loads are interleaved: every run
      comes to an end, no load waits forever, and each returns what the uncached recursion
      returns. */
  lemma {:induction false} RacingLoadsEnd(w: World, targets: seq<string>, steps: seq<nat>)
    requires !Cyclic(ImportGraph(w)) && IsRun(w, First(targets), steps)
    ensures |steps| <= AllLeft(w, First(targets).threads)
    ensures var s := EndOf(w, First(targets), steps);
            && (Stuck(s) ==> AllDone(s))
            && CacheRight(w, s.cache)
            && (forall i | 0 <= i < |s.threads| && s.threads[i].frames == [] ::
                  s.threads[i].out == Some(Plain(w, {}, s.threads[i].target)))
  {
    FirstOk(w, targets);
    RunKeeps(w, First(targets), steps);
    var s := EndOf(w, First(targets), steps);
    if Stuck(s) && !AllDone(s) {
      StuckIsCyclic(w, s);
    }
    forall i | 0 <= i < |s.threads| && s.threads[i].frames == []
      ensures s.threads[i].out == Some(Plain(w, {}, s.threads[i].target))
    {
      assert ThreadOk(w, s.calls, s.group, s.threads[i], i);
    }
  }
}
