/** The build loop as a state machine: the main goroutine scans the pending builds and
    receives from `done`; every started build has a goroutine of its own. */
module BuildMachine {
  import opened BuildGraph

  /** How far a build is: waiting for its dependencies, waiting for the semaphore, inside
      BuildImage, about to send itself to `done`, in the channel, taken out of it. */
  datatype Phase = Idle | Queued | Building | Built | Sent | Received

  function Level(p: Phase): nat {
    match p
    case Idle => 0
    case Queued => 1
    case Building => 2
    case Built => 3
    case Sent => 4
    case Received => 5
  }

  type Phases = map<string, Phase>

  ghost predicate At(phase: Phases, i: string, p: Phase) {
    i in phase && phase[i] == p
  }

  ghost predicate Past(phase: Phases, i: string, k: nat) {
    i in phase && Level(phase[i]) >= k
  }

  /** The builds that are in the `builds` map. */
  ghost function Unreceived(phase: Phases): set<string> {
    set i | i in phase && phase[i] != Received
  }

  /** BuildImage begins, returns, or a build is taken out of `done`. */
  datatype Event = Began(id: string) | Ended(id: string, ok: bool) | Completed(id: string)

  datatype State = State(
    deps: Graph,
    limit: nat,
    waits: Graph,               // Dependencies, as they shrink
    phase: Phases,
    abort: set<string>,
    failed: set<string>,        // builds with Err != nil
    done: seq<string>,
    held: set<string>,          // goroutines inside the semaphore
    left: set<string>,          // builds that the current scan has yet to visit
    log: seq<Event>)
  {
    ghost predicate Finished() {
      Unreceived(phase) == {}
    }
  }

  datatype Step = Visit(id: string) | Acquire(id: string) | Finish(id: string, ok: bool) | Send(id: string)
                | Release(id: string) | Receive(id: string)

  ghost function Start(deps: Graph, limit: nat): State {
    State(deps, limit, deps, (map i | i in deps :: Idle), {}, {}, [], {}, deps.Keys, [])
  }

  /** What can happen next. The channel has room for every build. */
  ghost predicate Enabled(s: State, step: Step) {
    match step
    case Visit(i) => i in s.left && i in s.waits && i in s.phase
    case Acquire(i) => At(s.phase, i, Queued) && |s.held| < s.limit
    case Finish(i, _) => At(s.phase, i, Building)
    case Send(i) => At(s.phase, i, Built) && |s.done| < |s.deps|
    case Release(i) => i in s.held && (At(s.phase, i, Sent) || At(s.phase, i, Received))
    case Receive(i) => s.left == {} && s.done != [] && s.done[0] == i
  }

  /** Once.Do on a build without pending dependencies. */
  ghost function AfterVisit(s: State, i: string): State
    requires i in s.waits && i in s.phase
  {
    var t := s.(left := s.left - {i});
    if s.waits[i] != {} || s.phase[i] != Idle then t
    else if i in s.abort then t.(phase := s.phase[i := Sent], done := s.done + [i])
    else t.(phase := s.phase[i := Queued])
  }

  /** Take a build out of `done` and out of the pending builds, and strike it off the
      dependencies of its dependents, aborting them if it failed or was aborted. */
  ghost function AfterReceive(s: State, i: string): State
    requires s.done != []
  {
    s.(phase := s.phase[i := Received],
       done := s.done[1..],
       waits := (map j | j in s.waits :: s.waits[j] - {i}),
       abort := s.abort + (if i in s.failed || i in s.abort then Dependents(s.deps, i) else {}),
       left := Unreceived(s.phase[i := Received]),
       log := s.log + [Completed(i)])
  }

  ghost function Next(s: State, step: Step): State
    requires Enabled(s, step)
  {
    match step
    case Visit(i) => AfterVisit(s, i)
    case Acquire(i) => s.(phase := s.phase[i := Building], held := s.held + {i}, log := s.log + [Began(i)])
    case Finish(i, ok) =>
      s.(phase := s.phase[i := Built], failed := if ok then s.failed else s.failed + {i}, log := s.log + [Ended(i, ok)])
    case Send(i) => s.(phase := s.phase[i := Sent], done := s.done + [i])
    case Release(i) => s.(held := s.held - {i})
    case Receive(i) => AfterReceive(s, i)
  }

  /** The sets and maps speak of the images of the graph. */
  ghost predicate Typed(s: State) {
    && Closed(s.deps) && s.waits.Keys == s.deps.Keys && s.phase.Keys == s.deps.Keys
    && s.abort <= s.deps.Keys && s.left <= s.deps.Keys
  }

  /** Dependencies is what is left of the dependencies; only a build without any starts,
      and the scan misses none of those. */
  ghost predicate Waits(deps: Graph, waits: Graph, phase: Phases, left: set<string>) {
    forall i {:trigger WaitsAt(deps, waits, phase, left, i)} | i in deps :: WaitsAt(deps, waits, phase, left, i)
  }

  ghost predicate WaitsAt(deps: Graph, waits: Graph, phase: Phases, left: set<string>, i: string)
    requires i in deps
  {
    && i in waits && i in phase
    && (forall d :: d in waits[i] <==> d in deps[i] && !At(phase, d, Received))
    && (phase[i] != Idle ==> waits[i] == {})
    && (phase[i] == Idle && i !in left ==> waits[i] != {})
  }

  ghost predicate Bad(phase: Phases, failed: set<string>, abort: set<string>, d: string) {
    At(phase, d, Received) && (d in failed || d in abort)
  }

  ghost predicate HasBad(deps: Graph, phase: Phases, failed: set<string>, abort: set<string>, i: string) {
    i in deps && exists d :: d in deps[i] && Bad(phase, failed, abort, d)
  }

  /** A build is to be aborted exactly when a completed dependency failed or was aborted. */
  ghost predicate Aborts(deps: Graph, phase: Phases, failed: set<string>, abort: set<string>) {
    forall i {:trigger HasBad(deps, phase, failed, abort, i)} :: i in abort <==> HasBad(deps, phase, failed, abort, i)
  }

  /** Only builds that ran fail, and aborted builds do not run. */
  ghost predicate Ran(phase: Phases, failed: set<string>, abort: set<string>) {
    && (forall i | i in failed :: Past(phase, i, 3) && i !in abort)
    && (forall i | i in abort :: At(phase, i, Idle) || Past(phase, i, 4))
  }

  /** The channel holds each sent build once. */
  ghost predicate Channel(phase: Phases, done: seq<string>) {
    && (forall a, b | 0 <= a < b < |done| :: done[a] != done[b])
    && (forall i :: i in done <==> At(phase, i, Sent))
  }

  /** Builds inside BuildImage are inside the semaphore. */
  ghost predicate Semaphore(phase: Phases, held: set<string>, limit: nat) {
    && |held| <= limit
    && (forall i | At(phase, i, Building) || At(phase, i, Built) :: i in held)
    && (forall i | i in held :: Past(phase, i, 2))
  }

  /** What the log records. */
  ghost predicate Logged(phase: Phases, failed: set<string>, abort: set<string>, log: seq<Event>) {
    && (forall i :: Began(i) in log <==> Past(phase, i, 2) && i !in abort)
    && (forall i, ok :: Ended(i, ok) in log <==> Past(phase, i, 3) && i !in abort && (ok <==> i !in failed))
    && (forall i :: Completed(i) in log <==> At(phase, i, Received))
  }

  /** Nothing happens twice, and BuildImage begins for an image only after it returned
      without error for each of the image's dependencies, which have completed by then. */
  ghost predicate InTime(deps: Graph, log: seq<Event>) {
    && (forall a, b | 0 <= a < b < |log| :: log[a] != log[b])
    && (forall a {:trigger log[a]} | 0 <= a < |log| :: Timely(deps, log[..a], log[a]))
  }

  ghost predicate Timely(deps: Graph, past: seq<Event>, e: Event) {
    match e
    case Began(i) => i in deps && forall d | d in deps[i] :: Ended(d, true) in past && Completed(d) in past
    case Ended(i, _) => Began(i) in past
    case Completed(i) => i in deps && forall d | d in deps[i] :: Completed(d) in past
  }

  ghost predicate Inv(s: State) {
    && Typed(s) && Waits(s.deps, s.waits, s.phase, s.left) && Aborts(s.deps, s.phase, s.failed, s.abort)
    && Ran(s.phase, s.failed, s.abort) && Channel(s.phase, s.done) && Semaphore(s.phase, s.held, s.limit)
    && Logged(s.phase, s.failed, s.abort, s.log) && InTime(s.deps, s.log)
  }

  lemma {:induction false} StartInv(deps: Graph, limit: nat)
    requires Closed(deps)
    ensures Inv(Start(deps, limit))
  {
    var s := Start(deps, limit);
    forall i | i in deps
      ensures WaitsAt(s.deps, s.waits, s.phase, s.left, i)
    {
    }
  }

  lemma {:induction false} InTimeSnoc(deps: Graph, log: seq<Event>, e: Event)
    requires InTime(deps, log) && e !in log && Timely(deps, log, e)
    ensures InTime(deps, log + [e])
  {
    var more := log + [e];
    forall a {:trigger more[a]} | 0 <= a < |more|
      ensures Timely(deps, more[..a], more[a])
    {
      if a < |log| {
        assert more[a] == log[a] && more[..a] == log[..a];
      } else {
        assert more[..a] == log;
      }
    }
  }

  /** A build without pending dependencies moves on, short of being received. */
  lemma {:induction false} WaitsMove(deps: Graph, waits: Graph, phase: Phases, left: set<string>, i: string, p: Phase)
    requires Waits(deps, waits, phase, left) && i in deps && i in waits && waits[i] == {}
    requires i in phase && phase[i] != Received && p != Received && p != Idle
    ensures Waits(deps, waits, phase[i := p], left)
  {
    forall j | j in deps
      ensures WaitsAt(deps, waits, phase[i := p], left, j)
    {
      assert WaitsAt(deps, waits, phase, left, j);
    }
  }

  lemma {:induction false} AbortsMove(deps: Graph, phase: Phases, failed: set<string>, abort: set<string>, i: string,
                                      p: Phase, more: set<string>)
    requires Aborts(deps, phase, failed, abort) && i in phase && phase[i] != Received && p != Received && more <= {i}
    ensures Aborts(deps, phase[i := p], failed + more, abort)
  {
    forall j
      ensures j in abort <==> HasBad(deps, phase[i := p], failed + more, abort, j)
    {
      assert j in abort <==> HasBad(deps, phase, failed, abort, j);
      assert forall d {:trigger Bad(phase, failed, abort, d)} {:trigger Bad(phase[i := p], failed + more, abort, d)} ::
          Bad(phase[i := p], failed + more, abort, d) <==> Bad(phase, failed, abort, d);
    }
  }

  lemma {:induction false} RanMove(phase: Phases, failed: set<string>, abort: set<string>, i: string, p: Phase,
                                   more: set<string>)
    requires Ran(phase, failed, abort) && i in phase && Level(phase[i]) <= Level(p) && more <= {i}
    requires i in abort ==> p == Sent && more == {}
    requires more == {i} ==> Level(p) >= 3
    ensures Ran(phase[i := p], failed + more, abort)
  {
  }

  lemma {:induction false} ChannelMove(phase: Phases, done: seq<string>, i: string, p: Phase)
    requires Channel(phase, done) && i in phase && phase[i] != Sent && p != Sent
    ensures Channel(phase[i := p], done)
  {
  }

  lemma {:induction false} ChannelSend(phase: Phases, done: seq<string>, i: string)
    requires Channel(phase, done) && i in phase && phase[i] != Sent
    ensures Channel(phase[i := Sent], done + [i])
  {
    assert i !in done by {
      assert !At(phase, i, Sent);
    }
    forall j
      ensures j in done + [i] <==> At(phase[i := Sent], j, Sent)
    {
      assert j in done <==> At(phase, j, Sent);
    }
  }

  lemma {:induction false} SemaphoreMove(phase: Phases, held: set<string>, limit: nat, i: string, p: Phase)
    requires Semaphore(phase, held, limit) && i in phase && Level(phase[i]) <= Level(p)
    requires p == Building || p == Built ==> i in held
    ensures Semaphore(phase[i := p], held, limit)
  {
  }

  lemma {:induction false} SemaphoreAcquire(phase: Phases, held: set<string>, limit: nat, i: string)
    requires Semaphore(phase, held, limit) && At(phase, i, Queued) && |held| < limit
    ensures Semaphore(phase[i := Building], held + {i}, limit)
  {
  }

  /** Moves that the log does not record. */
  lemma {:induction false} LoggedMove(phase: Phases, failed: set<string>, abort: set<string>, log: seq<Event>,
                                      i: string, p: Phase)
    requires Logged(phase, failed, abort, log) && i in phase && phase[i] != Received && p != Received
    requires i !in abort ==> (Level(phase[i]) >= 2 <==> Level(p) >= 2) && (Level(phase[i]) >= 3 <==> Level(p) >= 3)
    ensures Logged(phase[i := p], failed, abort, log)
  {
  }

  lemma {:induction false} LoggedAcquire(phase: Phases, failed: set<string>, abort: set<string>, log: seq<Event>,
                                         i: string)
    requires Logged(phase, failed, abort, log) && At(phase, i, Queued) && i !in abort
    ensures Logged(phase[i := Building], failed, abort, log + [Began(i)])
  {
  }

  lemma {:induction false} LoggedFinish(phase: Phases, failed: set<string>, abort: set<string>, log: seq<Event>,
                                        i: string, ok: bool)
    requires Logged(phase, failed, abort, log) && At(phase, i, Building) && i !in abort && i !in failed
    ensures Logged(phase[i := Built], failed + (if ok then {} else {i}), abort, log + [Ended(i, ok)])
  {
  }

  /** What holds of a build that was started: its dependencies completed, and none of them
      failed or was aborted unless it is itself aborted. */
  lemma {:induction false} StartedIsReady(s: State, i: string, d: string)
    requires Inv(s) && Past(s.phase, i, 1) && d in s.deps[i]
    ensures At(s.phase, d, Received)
    ensures i !in s.abort ==> Ended(d, true) in s.log && Completed(d) in s.log
  {
    assert WaitsAt(s.deps, s.waits, s.phase, s.left, i);
    assert d !in s.waits[i];
    if i !in s.abort {
      assert !HasBad(s.deps, s.phase, s.failed, s.abort, i);
      assert !Bad(s.phase, s.failed, s.abort, d);
    }
  }

  lemma {:induction false} AcquireKeeps(s: State, i: string)
    requires Inv(s) && Enabled(s, Acquire(i))
    ensures Inv(Next(s, Acquire(i)))
  {
    assert WaitsAt(s.deps, s.waits, s.phase, s.left, i);
    WaitsMove(s.deps, s.waits, s.phase, s.left, i, Building);
    AbortsMove(s.deps, s.phase, s.failed, s.abort, i, Building, {});
    RanMove(s.phase, s.failed, s.abort, i, Building, {});
    ChannelMove(s.phase, s.done, i, Building);
    SemaphoreAcquire(s.phase, s.held, s.limit, i);
    LoggedAcquire(s.phase, s.failed, s.abort, s.log, i);
    assert s.failed + {} == s.failed;
    forall d | d in s.deps[i]
      ensures Ended(d, true) in s.log && Completed(d) in s.log
    {
      StartedIsReady(s, i, d);
    }
    InTimeSnoc(s.deps, s.log, Began(i));
  }

  lemma {:induction false} FinishKeeps(s: State, i: string, ok: bool)
    requires Inv(s) && Enabled(s, Finish(i, ok))
    ensures Inv(Next(s, Finish(i, ok)))
  {
    var more := if ok then {} else {i};
    assert s.failed + more == if ok then s.failed else s.failed + {i};
    assert WaitsAt(s.deps, s.waits, s.phase, s.left, i);
    WaitsMove(s.deps, s.waits, s.phase, s.left, i, Built);
    AbortsMove(s.deps, s.phase, s.failed, s.abort, i, Built, more);
    RanMove(s.phase, s.failed, s.abort, i, Built, more);
    ChannelMove(s.phase, s.done, i, Built);
    SemaphoreMove(s.phase, s.held, s.limit, i, Built);
    LoggedFinish(s.phase, s.failed, s.abort, s.log, i, ok);
    assert Began(i) in s.log;
    InTimeSnoc(s.deps, s.log, Ended(i, ok));
  }

  lemma {:induction false} SendKeeps(s: State, i: string)
    requires Inv(s) && Enabled(s, Send(i))
    ensures Inv(Next(s, Send(i)))
  {
    assert s.failed + {} == s.failed;
    assert WaitsAt(s.deps, s.waits, s.phase, s.left, i);
    WaitsMove(s.deps, s.waits, s.phase, s.left, i, Sent);
    AbortsMove(s.deps, s.phase, s.failed, s.abort, i, Sent, {});
    RanMove(s.phase, s.failed, s.abort, i, Sent, {});
    ChannelSend(s.phase, s.done, i);
    SemaphoreMove(s.phase, s.held, s.limit, i, Sent);
    LoggedMove(s.phase, s.failed, s.abort, s.log, i, Sent);
  }

  lemma {:induction false} ReleaseKeeps(s: State, i: string)
    requires Inv(s) && Enabled(s, Release(i))
    ensures Inv(Next(s, Release(i)))
  {
  }

  lemma {:induction false} WaitsVisit(deps: Graph, waits: Graph, phase: Phases, left: set<string>, i: string)
    requires Waits(deps, waits, phase, left) && i in deps && i in waits && i in phase
    requires (waits[i] != {} || phase[i] != Idle)
    ensures Waits(deps, waits, phase, left - {i})
  {
    forall j | j in deps
      ensures WaitsAt(deps, waits, phase, left - {i}, j)
    {
      assert WaitsAt(deps, waits, phase, left, j);
    }
  }

  /** A visited build that starts, to be built or to be passed on as aborted. */
  lemma {:induction false} VisitStarts(s: State, i: string)
    requires Inv(s) && Enabled(s, Visit(i)) && s.waits[i] == {} && s.phase[i] == Idle
    ensures Inv(Next(s, Visit(i)))
  {
    var p := if i in s.abort then Sent else Queued;
    assert s.failed + {} == s.failed;
    WaitsMove(s.deps, s.waits, s.phase, s.left, i, p);
    WaitsVisit(s.deps, s.waits, s.phase[i := p], s.left, i);
    AbortsMove(s.deps, s.phase, s.failed, s.abort, i, p, {});
    RanMove(s.phase, s.failed, s.abort, i, p, {});
    if i in s.abort {
      ChannelSend(s.phase, s.done, i);
    } else {
      ChannelMove(s.phase, s.done, i, p);
    }
    SemaphoreMove(s.phase, s.held, s.limit, i, p);
    LoggedMove(s.phase, s.failed, s.abort, s.log, i, p);
  }

  lemma {:induction false} VisitKeeps(s: State, i: string)
    requires Inv(s) && Enabled(s, Visit(i))
    ensures Inv(Next(s, Visit(i)))
  {
    if s.waits[i] == {} && s.phase[i] == Idle {
      VisitStarts(s, i);
    } else {
      WaitsVisit(s.deps, s.waits, s.phase, s.left, i);
    }
  }

  lemma {:induction false} WaitsReceive(deps: Graph, waits: Graph, phase: Phases, left: set<string>, i: string)
    requires Waits(deps, waits, phase, left) && At(phase, i, Sent) && deps.Keys == phase.Keys == waits.Keys
    ensures Waits(deps, map j | j in waits :: waits[j] - {i}, phase[i := Received], Unreceived(phase[i := Received]))
  {
    var waits', phase' := map j | j in waits :: waits[j] - {i}, phase[i := Received];
    var left' := Unreceived(phase');
    forall j | j in deps
      ensures WaitsAt(deps, waits', phase', left', j)
    {
      assert WaitsAt(deps, waits, phase, left, j);
    }
  }

  /** The dependents of a build that is not received yet have not started. */
  lemma {:induction false} DependentsAreIdle(deps: Graph, waits: Graph, phase: Phases, left: set<string>, i: string,
                                             j: string)
    requires Waits(deps, waits, phase, left) && At(phase, i, Sent) && j in Dependents(deps, i)
    ensures At(phase, j, Idle) && j != i
  {
    assert WaitsAt(deps, waits, phase, left, j);
    assert i in waits[j];
  }

  lemma {:induction false} AbortsReceive(deps: Graph, phase: Phases, failed: set<string>, abort: set<string>,
                                         i: string, more: set<string>)
    requires Aborts(deps, phase, failed, abort) && At(phase, i, Sent)
    requires more == if i in failed || i in abort then Dependents(deps, i) else {}
    requires forall j | j in more :: At(phase, j, Idle) && j != i
    ensures Aborts(deps, phase[i := Received], failed, abort + more)
  {
    var phase', abort' := phase[i := Received], abort + more;
    assert forall d {:trigger Bad(phase, failed, abort, d)} {:trigger Bad(phase', failed, abort', d)} ::
        Bad(phase', failed, abort', d) <==> Bad(phase, failed, abort, d) || (d == i && (i in failed || i in abort));
    forall j
      ensures j in abort' <==> HasBad(deps, phase', failed, abort', j)
    {
      assert j in abort <==> HasBad(deps, phase, failed, abort, j);
      if j in more {
        assert Bad(phase', failed, abort', i);
      }
    }
  }

  lemma {:induction false} RestReceive(s: State, i: string, more: set<string>)
    requires Ran(s.phase, s.failed, s.abort) && Channel(s.phase, s.done) && At(s.phase, i, Sent)
    requires Logged(s.phase, s.failed, s.abort, s.log) && s.done != [] && s.done[0] == i
    requires forall j | j in more :: At(s.phase, j, Idle) && j != i
    ensures Ran(s.phase[i := Received], s.failed, s.abort + more)
    ensures Channel(s.phase[i := Received], s.done[1..])
    ensures Logged(s.phase[i := Received], s.failed, s.abort + more, s.log + [Completed(i)])
  {
    forall j
      ensures j in s.done[1..] <==> At(s.phase[i := Received], j, Sent)
    {
      assert j in s.done <==> At(s.phase, j, Sent);
      assert s.done == [i] + s.done[1..];
    }
  }

  lemma {:induction false} ReceiveKeeps(s: State, i: string)
    requires Inv(s) && Enabled(s, Receive(i))
    ensures Inv(Next(s, Receive(i)))
  {
    assert i in s.done;
    var more := if i in s.failed || i in s.abort then Dependents(s.deps, i) else {};
    forall j | j in more
      ensures At(s.phase, j, Idle) && j != i
    {
      DependentsAreIdle(s.deps, s.waits, s.phase, s.left, i, j);
    }
    WaitsReceive(s.deps, s.waits, s.phase, s.left, i);
    AbortsReceive(s.deps, s.phase, s.failed, s.abort, i, more);
    RestReceive(s, i, more);
    SemaphoreMove(s.phase, s.held, s.limit, i, Received);
    forall d | d in s.deps[i]
      ensures Completed(d) in s.log
    {
      StartedIsReady(s, i, d);
    }
    assert !At(s.phase, i, Received);
    InTimeSnoc(s.deps, s.log, Completed(i));
  }

  /** Every step keeps the invariant. */
  lemma {:induction false} StepKeeps(s: State, step: Step)
    requires Inv(s) && Enabled(s, step)
    ensures Inv(Next(s, step))
  {
    match step
    case Visit(i) => VisitKeeps(s, i);
    case Acquire(i) => AcquireKeeps(s, i);
    case Finish(i, ok) => FinishKeeps(s, i, ok);
    case Send(i) => SendKeeps(s, i);
    case Release(i) => ReleaseKeeps(s, i);
    case Receive(i) => ReceiveKeeps(s, i);
  }
}
