/** When PostgreSQL is opened for writes (appliance/postgresql/process.go): the methods of
    Process, one at a time under its mutex, and the goroutines that wait for a downstream
    to catch up, as steps over the configuration, postgresql.conf and the waiters. */
module SyncWaiter {
  import opened Options

  datatype Role = Unknown | Primary | Sync | Async | NoRole

  /** A peer; two are the same if address, protocol and metadata are. */
  datatype Peer = Peer(addr: string, proto: string, meta: map<string, string>)

  const ID_KEY := "POSTGRES_ID"

  function IdOf(p: Peer): string {
    if ID_KEY in p.meta then p.meta[ID_KEY] else ""
  }

  datatype Config = Config(role: Role, upstream: Option<Peer>, downstream: Option<Peer>)

  /** Config.IsNewDownstream. */
  predicate IsNewDownstream(x: Option<Config>, y: Option<Config>) {
    && x.Some? && y.Some? && x.value.upstream == y.value.upstream
    && y.value.downstream.Some? && x.value.downstream != y.value.downstream
  }

  /** What matters of postgresql.conf. */
  datatype Conf = Conf(readOnly: bool, sync: string)

  /** What the running method still has to do. */
  datatype Code =
    | Close                                   // close(stopCh)
    | Join                                    // <-doneCh
    | Forget                                  // no synced downstream
    | Decide(config: Option<Config>)          // reconfigure, after the cancellation
    | DecideNew(config: Option<Config>)       // is it only another downstream?
    | TakeRole(role: Config)                   // assumePrimary or assumeStandby
    | CheckStopped                            // panics if the database is running
    | Write(conf: Conf)
    | Outside                                 // a command that may fail
    | Reload                                  // sighup
    | SetUp                                   // the transaction after a start
    | Launch                                  // start
    | Kill                                    // the end of stop
    | Spawn(inst: Peer, enableWrites: bool)   // waitForSync
    | Commit(commit: Config)                  // the deferred setConfig

  datatype WaiterPc = Looping | Querying | Sleeping | CaughtUp | Opening | Signalling | Ended

  datatype Waiter = Waiter(inst: Peer, enableWrites: bool, stop: bool, pc: WaiterPc)

  datatype Writer = Method | Goroutine(id: nat)

  datatype Event =
    | Spawned(id: nat, inst: Peer, enableWrites: bool)
    | Saw(id: nat, sent: string, flushed: string)
    | Wrote(writer: Writer, written: Conf)
    | Over(id: nat)                           // the goroutine has returned
    | Cancelled(id: nat)                      // cancelSyncWait has returned

  datatype State = State(
    singleton: bool,
    config: Option<Config>,
    applied: bool,
    running: bool,
    synced: Option<Peer>,
    conf: Option<Conf>,                       // the file; None if it was not written in full
    loaded: Option<Conf>,                     // what the running daemon has read of it
    rest: seq<Code>,
    waiters: seq<Waiter>,                     // the last one is the one that cancelSyncWait cancels
    log: seq<Event>)

  const STOP: seq<Code> := [Close, Join, Kill]

  /** The check at the start of Reconfigure. */
  predicate Acceptable(singleton: bool, c: Config) {
    match c.role
    case Primary => singleton || c.downstream.Some?
    case Sync => c.upstream.Some?
    case Async => c.upstream.Some?
    case NoRole => true
    case Unknown => false
  }

  /** reconfigure, up to the cancellation. */
  function Reconfigured(s: State, c: Config): State {
    if c.role == NoRole
       || (s.applied && s.config == Some(c))
       || (s.applied && s.running && s.config.Some? && s.config.value.role == Async && c.role == Sync
           && s.config.value.upstream.Some? && c.upstream.Some?
           && IdOf(c.upstream.value) == IdOf(s.config.value.upstream.value))
    then s.(rest := [Commit(c)])
    else s.(rest := [Close, Join, Forget, Decide(Some(c))])
  }

  /** What becomes of a method when it decides. */
  function Decided(s: State, c: Option<Config>): seq<Code> {
    if s.running && s.config.Some? && c.Some? && s.config.value.role == Primary && c.value.role == Primary
       && c.value.downstream.Some?
    then
      var d := c.value.downstream.value;
      [Write(Conf(true, IdOf(d))), Reload, Spawn(d, true), Commit(c.value)]
    else [DecideNew(c)]
  }

  function DecidedNew(s: State, c: Option<Config>): seq<Code> {
    if s.running && IsNewDownstream(s.config, c) then [Spawn(c.value.downstream.value, false), Commit(c.value)]
    else if c.Some? then [TakeRole(c.value)]
    else if s.config.Some? then [TakeRole(s.config.value)]
    else []
  }

  function Waiting(d: Option<Peer>, enableWrites: bool): seq<Code> {
    if d.Some? then [Spawn(d.value, enableWrites)] else []
  }

  function RoleTaken(s: State, c: Config): seq<Code> {
    if c.role == Primary then
      if s.running && s.config.Some? && s.config.value.role == Sync
      then [Outside] + Waiting(c.downstream, true) + [Commit(c)]
      else
        [CheckStopped, Outside, Write(Conf(c.downstream.Some?, "")), Launch, SetUp]
        + Waiting(c.downstream, true) + [Commit(c)]
    else
      (if s.running then STOP else [Outside])
      + [Write(Conf(true, "")), Launch] + Waiting(c.downstream, false) + [Commit(c)]
  }

  datatype Step =
    | Reconfigure(config: Config)
    | Start
    | Stop
    | Proceed                                 // the method does the next thing
    | Fail(cleanUp: bool)                     // or the next thing fails
    | Crash                                   // the daemon exits by itself
    | Check(id: nat)                          // a waiter looks at stopCh
    | Query(id: nat, result: Option<(string, string)>, giveUp: bool)
    | Wake(id: nat, timer: bool)
    | Note(id: nat)                           // a waiter notes that its downstream is synced
    | Open(id: nat, ok: bool)
    | Signal(id: nat, ok: bool)

  ghost predicate At(s: State, i: nat, pc: WaiterPc) {
    i < |s.waiters| && s.waiters[i].pc == pc
  }

  predicate MayFail(c: Code) {
    c.Write? || c.Outside? || c.Reload? || c.SetUp? || c.Launch? || c.Kill?
  }

  /** What can happen: a method starts only when none is running, and waits for the
      waiter that it cancels. */
  ghost predicate Enabled(s: State, step: Step) {
    match step
    case Reconfigure(c) => s.rest == [] && Acceptable(s.singleton, c)
    case Start => s.rest == [] && !s.running && s.config.Some? && s.config.value.role != NoRole
    case Stop => s.rest == [] && s.running
    case Proceed =>
      && s.rest != []
      && (s.rest[0].Join? && s.waiters != [] ==> s.waiters[|s.waiters| - 1].pc == Ended)
      && (s.rest[0].CheckStopped? ==> !s.running)
    case Fail(_) => s.rest != [] && MayFail(s.rest[0])
    case Crash => s.running
    case Check(i) => At(s, i, Looping)
    case Query(i, _, _) => At(s, i, Querying)
    case Wake(i, timer) => At(s, i, Sleeping) && (timer || s.waiters[i].stop)
    case Note(i) => At(s, i, CaughtUp)
    case Open(i, _) => At(s, i, Opening)
    case Signal(i, _) => At(s, i, Signalling)
  }

  function Move(s: State, i: nat, pc: WaiterPc): State
    requires i < |s.waiters|
  {
    s.(waiters := s.waiters[i := s.waiters[i].(pc := pc)], log := if pc == Ended then s.log + [Over(i)] else s.log)
  }

  /** A method does the next thing. */
  function Did(s: State): State
    requires s.rest != []
  {
    var t, n := s.(rest := s.rest[1..]), |s.waiters|;
    match s.rest[0]
    case Close => if n == 0 then t else t.(waiters := s.waiters[n - 1 := s.waiters[n - 1].(stop := true)])
    case Join => if n == 0 then t else t.(log := s.log + [Cancelled(n - 1)])
    case Forget => t.(synced := None)
    case Decide(c) => t.(rest := Decided(s, c) + t.rest)
    case DecideNew(c) => t.(rest := DecidedNew(s, c) + t.rest)
    case TakeRole(c) => t.(rest := RoleTaken(s, c) + t.rest)
    case CheckStopped => t
    case Write(conf) => t.(conf := Some(conf), log := s.log + [Wrote(Method, conf)])
    case Outside => t
    case SetUp => t
    case Reload => t.(loaded := s.conf)
    case Launch => t.(running := true, loaded := s.conf)
    case Kill => t.(running := false)
    case Spawn(inst, enable) =>
      t.(waiters := s.waiters + [Waiter(inst, enable, false, Looping)], log := s.log + [Spawned(n, inst, enable)])
    case Commit(c) => t.(config := Some(c), applied := true)
  }

  /** The next thing fails: after a start the database is stopped again. */
  function Failed(s: State, cleanUp: bool): State
    requires s.rest != []
  {
    match s.rest[0]
    case Write(_) => s.(rest := [], conf := None)
    case SetUp => s.(rest := STOP)
    case Launch => if cleanUp then s.(rest := STOP, running := true, loaded := s.conf) else s.(rest := [])
    case _ => s.(rest := [])
  }

  /** What a waiter does about the replication status: without one it tries again later,
      and it stops if the downstream makes no progress. */
  function Queried(s: State, i: nat, result: Option<(string, string)>, giveUp: bool): State
    requires i < |s.waiters|
  {
    match result
    case None => Move(s, i, Sleeping)
    case Some((sent, flushed)) =>
      var t := s.(log := s.log + [Saw(i, sent, flushed)]);
      if giveUp then Move(t, i, Ended)
      else if sent == flushed then Move(t, i, CaughtUp)
      else Move(t, i, Sleeping)
  }

  ghost function Next(s: State, step: Step): State
    requires Enabled(s, step)
  {
    match step
    case Reconfigure(c) => if s.running then Reconfigured(s, c) else s.(config := Some(c), applied := false)
    case Start => s.(rest := [Close, Join, Forget, Decide(None)])
    case Stop => s.(rest := STOP)
    case Proceed => Did(s)
    case Fail(cleanUp) => Failed(s, cleanUp)
    case Crash => s.(running := false)
    case Check(i) => Move(s, i, if s.waiters[i].stop then Ended else Querying)
    case Query(i, result, giveUp) => Queried(s, i, result, giveUp)
    case Wake(i, timer) => Move(s, i, if timer then Looping else Ended)
    case Note(i) => Move(s.(synced := Some(s.waiters[i].inst)), i, if s.waiters[i].enableWrites then Opening else Ended)
    case Open(i, ok) =>
      var conf := Conf(false, IdOf(s.waiters[i].inst));
      if ok then Move(s.(conf := Some(conf), log := s.log + [Wrote(Goroutine(i), conf)]), i, Signalling)
      else Move(s.(conf := None), i, Ended)
    case Signal(i, ok) => Move(if ok then s.(loaded := s.conf) else s, i, Ended)
  }

  /** Codes that may start a waiter. */
  predicate Risky(c: Code) {
    c.Spawn? || c.Decide? || c.DecideNew? || c.TakeRole?
  }

  /** A code that may start a waiter comes at most once, and while a waiter is live only
      after that waiter is waited for. */
  ghost predicate Guarded(rest: seq<Code>, live: bool) {
    && (forall a, b | 0 <= a < b < |rest| :: !(Risky(rest[a]) && Risky(rest[b])))
    && (live ==> forall b | 0 <= b < |rest| && Risky(rest[b]) :: exists a :: 0 <= a < b && rest[a].Join?)
  }

  /** The last waiter is live; the others are not. */
  predicate LiveLast(waiters: seq<Waiter>) {
    waiters != [] && waiters[|waiters| - 1].pc != Ended
  }

  ghost predicate OneLive(waiters: seq<Waiter>) {
    forall i | 0 <= i < |waiters| - 1 :: waiters[i].pc == Ended
  }

  /** Only a singleton is opened for writes by a method. */
  predicate CodeOk(singleton: bool, c: Code) {
    match c
    case Write(conf) => conf.readOnly || singleton
    case Decide(config) => config.Some? ==> Acceptable(singleton, config.value)
    case DecideNew(config) => config.Some? ==> Acceptable(singleton, config.value)
    case TakeRole(config) => Acceptable(singleton, config)
    case Commit(config) => Acceptable(singleton, config)
    case _ => true
  }

  ghost predicate CodesOk(singleton: bool, rest: seq<Code>) {
    forall k | 0 <= k < |rest| :: CodeOk(singleton, rest[k])
  }

  lemma {:induction false} DecidedOk(s: State, c: Option<Config>)
    requires (s.config.Some? ==> Acceptable(s.singleton, s.config.value))
    requires (c.Some? ==> Acceptable(s.singleton, c.value))
    ensures CodesOk(s.singleton, Decided(s, c)) && Guarded(Decided(s, c), false)
    ensures CodesOk(s.singleton, DecidedNew(s, c)) && Guarded(DecidedNew(s, c), false)
  {
  }

  lemma {:induction false} RoleTakenOk(s: State, c: Config)
    requires Acceptable(s.singleton, c)
    ensures CodesOk(s.singleton, RoleTaken(s, c)) && Guarded(RoleTaken(s, c), false)
  {
  }

  ghost predicate HasCaughtUp(log: seq<Event>, i: nat) {
    exists pos :: Saw(i, pos, pos) in log
  }

  /** What the log tells about a waiter. */
  ghost predicate Story(w: Waiter, i: nat, log: seq<Event>) {
    && Spawned(i, w.inst, w.enableWrites) in log
    && (Over(i) in log <==> w.pc == Ended) && (Cancelled(i) in log ==> w.pc == Ended)
    && (w.pc == CaughtUp || w.pc == Opening || w.pc == Signalling ==> HasCaughtUp(log, i))
    && (w.pc == Opening || w.pc == Signalling ==> w.enableWrites)
  }

  /** The log tells about the waiters that there are, and about no other. */
  ghost predicate Logged(waiters: seq<Waiter>, log: seq<Event>) {
    && (forall i {:trigger Story(waiters[i], i, log)} | 0 <= i < |waiters| :: Story(waiters[i], i, log))
    && (forall k | 0 <= k < |log| :: match log[k]
                                      case Spawned(i, _, _) => i < |waiters|
                                      case Over(i) => i < |waiters|
                                      case Cancelled(i) => i < |waiters|
                                      case _ => true)
  }

  /** A waiter may open the database: it was started for this downstream and to enable
      writes, it saw everything sent flushed, it is neither over nor cancelled, and every
      other waiter is over. */
  ghost predicate Entitled(past: seq<Event>, i: nat, conf: Conf) {
    && (exists inst :: Spawned(i, inst, true) in past && conf.sync == IdOf(inst))
    && HasCaughtUp(past, i) && Over(i) !in past && Cancelled(i) !in past
    && (forall j: nat, inst, enable | j != i && Spawned(j, inst, enable) in past :: Over(j) in past)
  }

  /** Who writes a configuration that is not read-only. */
  ghost predicate Timely(singleton: bool, past: seq<Event>, e: Event) {
    e.Wrote? && !e.written.readOnly ==>
      match e.writer
      case Method => singleton
      case Goroutine(i) => Entitled(past, i, e.written)
  }

  ghost predicate Proper(singleton: bool, log: seq<Event>) {
    forall k {:trigger log[k]} | 0 <= k < |log| :: Timely(singleton, log[..k], log[k])
  }

  ghost predicate Inv(s: State) {
    && (s.config.Some? ==> Acceptable(s.singleton, s.config.value))
    && CodesOk(s.singleton, s.rest) && Guarded(s.rest, LiveLast(s.waiters)) && OneLive(s.waiters)
    && Logged(s.waiters, s.log) && Proper(s.singleton, s.log)
  }

  lemma {:induction false} ProperMore(singleton: bool, log: seq<Event>, e: Event)
    requires Proper(singleton, log) && Timely(singleton, log, e)
    ensures Proper(singleton, log + [e])
  {
    var more := log + [e];
    forall k {:trigger more[k]} | 0 <= k < |more|
      ensures Timely(singleton, more[..k], more[k])
    {
      if k < |log| {
        assert more[k] == log[k] && more[..k] == log[..k];
      } else {
        assert more[..k] == log;
      }
    }
  }

  lemma {:induction false} StoryMore(w: Waiter, i: nat, log: seq<Event>, e: Event)
    requires Story(w, i, log) && (e == Over(i) || e == Cancelled(i) ==> w.pc == Ended)
    ensures Story(w, i, log + [e])
  {
    if HasCaughtUp(log, i) {
      var pos :| Saw(i, pos, pos) in log;
      assert Saw(i, pos, pos) in log + [e];
    }
  }

  /** An event that leaves the waiters alone. */
  lemma {:induction false} LoggedMore(waiters: seq<Waiter>, log: seq<Event>, e: Event)
    requires Logged(waiters, log) && !e.Spawned? && !e.Over?
    requires e.Cancelled? ==> e.id < |waiters| && waiters[e.id].pc == Ended
    ensures Logged(waiters, log + [e])
  {
    forall i {:trigger Story(waiters[i], i, log + [e])} | 0 <= i < |waiters|
      ensures Story(waiters[i], i, log + [e])
    {
      assert Story(waiters[i], i, log);
      StoryMore(waiters[i], i, log, e);
    }
  }

  /** A waiter goes on. */
  lemma {:induction false} LoggedMove(waiters: seq<Waiter>, log: seq<Event>, i: nat, pc: WaiterPc)
    requires Logged(waiters, log) && i < |waiters| && waiters[i].pc != Ended
    requires pc == CaughtUp || pc == Opening || pc == Signalling ==> HasCaughtUp(log, i)
    requires pc == Opening || pc == Signalling ==> waiters[i].enableWrites
    ensures Logged(waiters[i := waiters[i].(pc := pc)], if pc == Ended then log + [Over(i)] else log)
  {
    var waiters', log' := waiters[i := waiters[i].(pc := pc)], if pc == Ended then log + [Over(i)] else log;
    forall j {:trigger Story(waiters'[j], j, log')} | 0 <= j < |waiters'|
      ensures Story(waiters'[j], j, log')
    {
      assert Story(waiters[j], j, log);
      if j != i && pc == Ended {
        StoryMore(waiters[j], j, log, Over(i));
      }
    }
  }

  lemma {:induction false} LoggedSpawn(waiters: seq<Waiter>, log: seq<Event>, inst: Peer, enable: bool)
    requires Logged(waiters, log)
    ensures Logged(waiters + [Waiter(inst, enable, false, Looping)], log + [Spawned(|waiters|, inst, enable)])
  {
    var n := |waiters|;
    var waiters', log' := waiters + [Waiter(inst, enable, false, Looping)], log + [Spawned(n, inst, enable)];
    forall j {:trigger Story(waiters'[j], j, log')} | 0 <= j < |waiters'|
      ensures Story(waiters'[j], j, log')
    {
      if j < n {
        assert Story(waiters[j], j, log);
        StoryMore(waiters[j], j, log, Spawned(n, inst, enable));
      }
    }
  }

  lemma {:induction false} LoggedClose(waiters: seq<Waiter>, log: seq<Event>, i: nat)
    requires Logged(waiters, log) && i < |waiters|
    ensures Logged(waiters[i := waiters[i].(stop := true)], log)
  {
    var waiters' := waiters[i := waiters[i].(stop := true)];
    forall j {:trigger Story(waiters'[j], j, log)} | 0 <= j < |waiters'|
      ensures Story(waiters'[j], j, log)
    {
      assert Story(waiters[j], j, log);
    }
  }

  /** A waiter at the point of writing may write. */
  lemma {:induction false} OpenerIsEntitled(waiters: seq<Waiter>, log: seq<Event>, i: nat)
    requires Logged(waiters, log) && OneLive(waiters) && i < |waiters| && waiters[i].pc == Opening
    ensures Entitled(log, i, Conf(false, IdOf(waiters[i].inst)))
  {
    assert Story(waiters[i], i, log);
    forall j: nat, inst, enable | j != i && Spawned(j, inst, enable) in log
      ensures Over(j) in log
    {
      assert j < |waiters|;
      assert Story(waiters[j], j, log);
    }
  }

  lemma {:induction false} GuardedTail(rest: seq<Code>, live: bool)
    requires rest != [] && Guarded(rest, live)
    ensures Guarded(rest[1..], live && !rest[0].Join?)
    ensures Risky(rest[0]) ==> !live && forall live' :: Guarded(rest[1..], live')
  {
    var tail := rest[1..];
    forall b | 0 <= b < |tail| && Risky(tail[b]) && live && !rest[0].Join?
      ensures exists a :: 0 <= a < b && tail[a].Join?
    {
      assert Risky(rest[b + 1]);
      var a :| 0 <= a < b + 1 && rest[a].Join?;
      assert tail[a - 1].Join?;
    }
    forall b | 0 <= b < |tail| && Risky(rest[0])
      ensures !Risky(tail[b])
    {
      assert tail[b] == rest[b + 1];
    }
  }

  /** In the place of a code that may start a waiter come codes of which one may. */
  lemma {:induction false} GuardedExpand(rest: seq<Code>, codes: seq<Code>)
    requires rest != [] && Risky(rest[0]) && Guarded(rest, false) && Guarded(codes, false)
    ensures Guarded(codes + rest[1..], false)
  {
    var tail := rest[1..];
    forall b | 0 <= b < |tail|
      ensures !Risky(tail[b])
    {
      assert tail[b] == rest[b + 1];
    }
  }

  /** A waiter goes on, perhaps to its end. */
  lemma {:induction false} MoveKeeps(s: State, i: nat, pc: WaiterPc)
    requires Inv(s) && i < |s.waiters| && s.waiters[i].pc != Ended
    requires pc == CaughtUp || pc == Opening || pc == Signalling ==> HasCaughtUp(s.log, i)
    requires pc == Opening || pc == Signalling ==> s.waiters[i].enableWrites
    ensures Inv(Move(s, i, pc))
  {
    LoggedMove(s.waiters, s.log, i, pc);
    if pc == Ended {
      ProperMore(s.singleton, s.log, Over(i));
    }
  }

  lemma {:induction false} MoreKeeps(s: State, e: Event)
    requires Inv(s) && !e.Spawned? && !e.Over? && !e.Cancelled? && Timely(s.singleton, s.log, e)
    ensures Inv(s.(log := s.log + [e]))
  {
    LoggedMore(s.waiters, s.log, e);
    ProperMore(s.singleton, s.log, e);
  }

  lemma {:induction false} WaiterKeeps(s: State, step: Step)
    requires Inv(s) && Enabled(s, step)
    requires step.Check? || step.Query? || step.Wake? || step.Note? || step.Signal?
    ensures Inv(Next(s, step))
  {
    var i := step.id;
    assert Story(s.waiters[i], i, s.log);
    match step
    case Check(_) => MoveKeeps(s, i, if s.waiters[i].stop then Ended else Querying);
    case Wake(_, timer) => MoveKeeps(s, i, if timer then Looping else Ended);
    case Note(_) =>
      MoveKeeps(s.(synced := Some(s.waiters[i].inst)), i, if s.waiters[i].enableWrites then Opening else Ended);
    case Signal(_, ok) => MoveKeeps(if ok then s.(loaded := s.conf) else s, i, Ended);
    case Query(_, result, giveUp) =>
      match result {
        case None => MoveKeeps(s, i, Sleeping);
        case Some((sent, flushed)) => QueryKeeps(s, i, sent, flushed, giveUp);
      }
  }

  lemma {:induction false} QueryKeeps(s: State, i: nat, sent: string, flushed: string, giveUp: bool)
    requires Inv(s) && At(s, i, Querying)
    ensures Inv(Queried(s, i, Some((sent, flushed)), giveUp))
  {
    var e := Saw(i, sent, flushed);
    MoreKeeps(s, e);
    var t := s.(log := s.log + [e]);
    assert sent == flushed ==> Saw(i, sent, sent) in t.log;
    MoveKeeps(t, i, if giveUp then Ended else if sent == flushed then CaughtUp else Sleeping);
  }

  lemma {:induction false} OpenKeeps(s: State, i: nat, ok: bool)
    requires Inv(s) && At(s, i, Opening)
    ensures Inv(Next(s, Open(i, ok)))
  {
    assert Story(s.waiters[i], i, s.log);
    if ok {
      var conf := Conf(false, IdOf(s.waiters[i].inst));
      var e := Wrote(Goroutine(i), conf);
      OpenerIsEntitled(s.waiters, s.log, i);
      MoreKeeps(s, e);
      var t := s.(conf := Some(conf), log := s.log + [e]);
      var pos :| Saw(i, pos, pos) in s.log;
      assert Saw(i, pos, pos) in t.log;
      MoveKeeps(t, i, Signalling);
    } else {
      MoveKeeps(s.(conf := None), i, Ended);
    }
  }

  lemma {:induction false} CloseKeeps(s: State)
    requires Inv(s) && s.rest != [] && s.rest[0].Close?
    ensures Inv(Did(s))
  {
    GuardedTail(s.rest, LiveLast(s.waiters));
    if s.waiters != [] {
      LoggedClose(s.waiters, s.log, |s.waiters| - 1);
    }
  }

  lemma {:induction false} JoinKeeps(s: State)
    requires Inv(s) && s.rest != [] && s.rest[0].Join? && Enabled(s, Proceed)
    ensures Inv(Did(s))
  {
    GuardedTail(s.rest, LiveLast(s.waiters));
    if s.waiters != [] {
      var e := Cancelled(|s.waiters| - 1);
      LoggedMore(s.waiters, s.log, e);
      ProperMore(s.singleton, s.log, e);
    }
  }

  lemma {:induction false} SpawnKeeps(s: State)
    requires Inv(s) && s.rest != [] && s.rest[0].Spawn?
    ensures Inv(Did(s))
  {
    var inst, enable := s.rest[0].inst, s.rest[0].enableWrites;
    GuardedTail(s.rest, LiveLast(s.waiters));
    LoggedSpawn(s.waiters, s.log, inst, enable);
    ProperMore(s.singleton, s.log, Spawned(|s.waiters|, inst, enable));
    assert Guarded(s.rest[1..], true);
  }

  lemma {:induction false} DecideKeeps(s: State, codes: seq<Code>)
    requires Inv(s) && s.rest != [] && Risky(s.rest[0]) && CodesOk(s.singleton, codes) && Guarded(codes, false)
    ensures Inv(s.(rest := codes + s.rest[1..]))
  {
    GuardedTail(s.rest, LiveLast(s.waiters));
    GuardedExpand(s.rest, codes);
  }

  lemma {:induction false} ProceedKeeps(s: State)
    requires Inv(s) && Enabled(s, Proceed)
    ensures Inv(Did(s))
  {
    assert CodeOk(s.singleton, s.rest[0]);
    match s.rest[0] {
      case Close => CloseKeeps(s);
      case Join => JoinKeeps(s);
      case Spawn(_, _) => SpawnKeeps(s);
      case Decide(c) => ChoiceKeeps(s);
      case DecideNew(c) => ChoiceKeeps(s);
      case TakeRole(c) => ChoiceKeeps(s);
      case Write(conf) => WriteKeeps(s, conf);
      case _ => QuietKeeps(s);
    }
  }

  lemma {:induction false} ChoiceKeeps(s: State)
    requires Inv(s) && s.rest != [] && (s.rest[0].Decide? || s.rest[0].DecideNew? || s.rest[0].TakeRole?)
    ensures Inv(Did(s))
  {
    var c := s.rest[0];
    assert CodeOk(s.singleton, c);
    if c.TakeRole? {
      RoleTakenOk(s, c.role);
      DecideKeeps(s, RoleTaken(s, c.role));
    } else {
      DecidedOk(s, c.config);
      DecideKeeps(s, if c.Decide? then Decided(s, c.config) else DecidedNew(s, c.config));
    }
  }

  lemma {:induction false} QuietKeeps(s: State)
    requires Inv(s) && s.rest != [] && !Risky(s.rest[0])
    requires !s.rest[0].Close? && !s.rest[0].Join? && !s.rest[0].Write?
    ensures Inv(Did(s))
  {
    assert CodeOk(s.singleton, s.rest[0]);
    GuardedTail(s.rest, LiveLast(s.waiters));
  }

  lemma {:induction false} WriteKeeps(s: State, conf: Conf)
    requires Inv(s) && s.rest != [] && s.rest[0] == Write(conf)
    ensures Inv(Did(s))
  {
    assert CodeOk(s.singleton, s.rest[0]);
    GuardedTail(s.rest, LiveLast(s.waiters));
    MoreKeeps(s, Wrote(Method, conf));
  }

  /** Every step keeps the invariant. */
  lemma {:induction false} StepKeeps(s: State, step: Step)
    requires Inv(s) && Enabled(s, step)
    ensures Inv(Next(s, step))
  {
    match step
    case Proceed => ProceedKeeps(s);
    case Open(i, ok) => OpenKeeps(s, i, ok);
    case Check(_) => WaiterKeeps(s, step);
    case Query(_, _, _) => WaiterKeeps(s, step);
    case Wake(_, _) => WaiterKeeps(s, step);
    case Note(_) => WaiterKeeps(s, step);
    case Signal(_, _) => WaiterKeeps(s, step);
    case Fail(cleanUp) => FailKeeps(s, cleanUp);
    case _ => MethodKeeps(s, step);
  }

  lemma {:induction false} PlansAreGuarded(c: Option<Config>, live: bool)
    ensures Guarded([Close, Join, Forget, Decide(c)], live) && Guarded(STOP, live) && Guarded([], live)
  {
    assert [Close, Join, Forget, Decide(c)][1].Join?;
  }

  lemma {:induction false} FailKeeps(s: State, cleanUp: bool)
    requires Inv(s) && Enabled(s, Fail(cleanUp))
    ensures Inv(Failed(s, cleanUp))
  {
    var t := Failed(s, cleanUp);
    AbandonKeeps(s, t);
  }

  lemma {:induction false} AbandonKeeps(s: State, t: State)
    requires Inv(s) && (t.rest == [] || t.rest == STOP)
    requires t == s.(running := t.running, conf := t.conf, loaded := t.loaded, rest := t.rest)
    ensures Inv(t)
  {
    PlansAreGuarded(None, LiveLast(s.waiters));
  }

  lemma {:induction false} MethodKeeps(s: State, step: Step)
    requires Inv(s) && Enabled(s, step) && (step.Reconfigure? || step.Start? || step.Stop? || step.Crash?)
    ensures Inv(Next(s, step))
  {
    var live := LiveLast(s.waiters);
    if step.Reconfigure? {
      PlansAreGuarded(Some(step.config), live);
      assert Guarded([Commit(step.config)], live);
    } else {
      PlansAreGuarded(None, live);
    }
  }

  /** A new process. */
  function First(singleton: bool): State {
    State(singleton, None, false, false, None, None, None, [], [], [])
  }

  ghost predicate IsRun(s: State, steps: seq<Step>)
    decreases |steps|
  {
    steps == [] || (Enabled(s, steps[0]) && IsRun(Next(s, steps[0]), steps[1..]))
  }

  ghost function EndOf(s: State, steps: seq<Step>): (end: State)
    requires IsRun(s, steps)
    ensures end.singleton == s.singleton
    decreases |steps|
  {
    if steps == [] then s else EndOf(Next(s, steps[0]), steps[1..])
  }

  lemma {:induction false} RunKeeps(s: State, steps: seq<Step>)
    requires IsRun(s, steps) && Inv(s)
    ensures Inv(EndOf(s, steps))
    decreases |steps|
  {
    if steps != [] {
      StepKeeps(s, steps[0]);
      RunKeeps(Next(s, steps[0]), steps[1..]);
    }
  }

  /** On every interleaving of a process that is no singleton: whenever postgresql.conf is
      written without read-only, a waiter writes it that is neither over nor cancelled,
      that is the only one, for the downstream it was started with, and after it saw
      that everything sent to it was flushed. At no time is there more than one waiter. */
  lemma {:induction false} OnlyTheWaiterOpens(steps: seq<Step>, k: nat)
    requires IsRun(First(false), steps) && k < |EndOf(First(false), steps).log|
    ensures var log := EndOf(First(false), steps).log;
            log[k].Wrote? && !log[k].written.readOnly ==>
              log[k].writer.Goroutine? && Entitled(log[..k], log[k].writer.id, log[k].written)
    ensures OneLive(EndOf(First(false), steps).waiters)
  {
    RunKeeps(First(false), steps);
    var end := EndOf(First(false), steps);
    assert Timely(false, end.log[..k], end.log[k]);
  }

  /** The waiter that is waited for was told to stop, or there is none. */
  predicate ToldLast(waiters: seq<Waiter>) {
    waiters == [] || waiters[|waiters| - 1].stop
  }

  /** Telling a waiter to stop and waiting for it go together. */
  ghost predicate Paired(rest: seq<Code>) {
    && (forall k | 0 < k < |rest| && rest[k].Join? :: rest[k - 1].Close?)
    && (forall k | 0 <= k < |rest| && rest[k].Close? :: k + 1 < |rest| && rest[k + 1].Join?)
  }

  /** A method waits exactly for a waiter that it has told to stop. */
  ghost predicate Told(rest: seq<Code>, waiters: seq<Waiter>) {
    && Paired(rest) && (rest != [] && rest[0].Join? ==> ToldLast(waiters))
    && (LiveLast(waiters) && ToldLast(waiters) ==> rest != [] && rest[0].Join?)
  }

  lemma {:induction false} PairedTail(rest: seq<Code>)
    requires rest != [] && Paired(rest)
    ensures Paired(rest[1..])
    ensures rest[0].Close? <==> |rest| > 1 && rest[1].Join?
  {
    var tail := rest[1..];
    forall k | 0 <= k < |tail|
      ensures k > 0 && tail[k].Join? ==> tail[k - 1].Close?
      ensures tail[k].Close? ==> k + 1 < |tail| && tail[k + 1].Join?
    {
      assert tail[k] == rest[k + 1];
    }
  }

  lemma {:induction false} PlansArePaired(s: State, c: Option<Config>)
    ensures Paired([Close, Join, Forget, Decide(c)]) && Paired(STOP) && Paired([])
    ensures Paired(Decided(s, c)) && Paired(DecidedNew(s, c))
  {
  }

  lemma {:induction false} RoleIsPaired(s: State, c: Config)
    ensures Paired(RoleTaken(s, c)) && RoleTaken(s, c) != [] && !RoleTaken(s, c)[0].Join?
  {
  }

  lemma {:induction false} PairedExpand(rest: seq<Code>, codes: seq<Code>)
    requires rest != [] && !rest[0].Close? && Paired(rest) && Paired(codes)
    ensures Paired(codes + rest[1..])
  {
    PairedTail(rest);
    var all, n := codes + rest[1..], |codes|;
    forall k | 0 <= k < |all|
      ensures k > 0 && all[k].Join? ==> all[k - 1].Close?
      ensures all[k].Close? ==> k + 1 < |all| && all[k + 1].Join?
    {
      if k >= n {
        assert all[k] == rest[k - n + 1];
      }
    }
  }

  /** A choice puts codes in its place that do not begin by waiting. */
  lemma {:induction false} ChoiceTells(rest: seq<Code>, codes: seq<Code>, waiters: seq<Waiter>)
    requires rest != [] && Risky(rest[0]) && Told(rest, waiters) && Paired(codes) && (codes != [] ==> !codes[0].Join?)
    ensures Told(codes + rest[1..], waiters)
  {
    PairedTail(rest);
    PairedExpand(rest, codes);
    assert (codes + rest[1..]) != [] ==> (codes + rest[1..])[0] == if codes == [] then rest[1] else codes[0];
  }

  lemma {:induction false} DecideTells(s: State)
    requires s.rest != [] && Told(s.rest, s.waiters) && (s.rest[0].Decide? || s.rest[0].DecideNew?)
    ensures Told(Did(s).rest, Did(s).waiters)
  {
    var c := s.rest[0];
    PlansArePaired(s, c.config);
    ChoiceTells(s.rest, if c.Decide? then Decided(s, c.config) else DecidedNew(s, c.config), s.waiters);
  }

  lemma {:induction false} RoleTells(s: State)
    requires s.rest != [] && Told(s.rest, s.waiters) && s.rest[0].TakeRole?
    ensures Told(Did(s).rest, Did(s).waiters)
  {
    RoleIsPaired(s, s.rest[0].role);
    ChoiceTells(s.rest, RoleTaken(s, s.rest[0].role), s.waiters);
  }

  /** Any other code, after which the last waiter is told to stop only by a Close, and a
      Join finds it ended. */
  lemma {:induction false} CodeTells(rest: seq<Code>, waiters: seq<Waiter>, after: seq<Waiter>)
    requires rest != [] && Told(rest, waiters)
    requires if rest[0].Close? then ToldLast(after)
             else after == waiters || (after != [] && !ToldLast(after))
    requires rest[0].Join? ==> !LiveLast(after)
    ensures Told(rest[1..], after)
  {
    PairedTail(rest);
  }

  lemma {:induction false} CancelTells(s: State)
    requires Enabled(s, Proceed) && Told(s.rest, s.waiters) && (s.rest[0].Close? || s.rest[0].Join?)
    ensures Told(Did(s).rest, Did(s).waiters)
  {
    CodeTells(s.rest, s.waiters, Did(s).waiters);
  }

  lemma {:induction false} OtherTells(s: State)
    requires s.rest != [] && Told(s.rest, s.waiters) && !s.rest[0].Close? && !s.rest[0].Join?
    requires !s.rest[0].Decide? && !s.rest[0].DecideNew? && !s.rest[0].TakeRole?
    ensures Told(Did(s).rest, Did(s).waiters)
  {
    CodeTells(s.rest, s.waiters, Did(s).waiters);
  }

  lemma {:induction false} DidTells(s: State)
    requires Enabled(s, Proceed) && Told(s.rest, s.waiters)
    ensures Told(Did(s).rest, Did(s).waiters)
  {
    match s.rest[0]
    case Decide(_) => DecideTells(s);
    case DecideNew(_) => DecideTells(s);
    case TakeRole(_) => RoleTells(s);
    case Close => CancelTells(s);
    case Join => CancelTells(s);
    case _ => OtherTells(s);
  }

  lemma {:induction false} MoveTells(s: State, i: nat, pc: WaiterPc)
    requires i < |s.waiters| && s.waiters[i].pc != Ended && Told(s.rest, s.waiters)
    ensures Told(s.rest, Move(s, i, pc).waiters)
  {
  }

  lemma {:induction false} QueryTells(s: State, i: nat, result: Option<(string, string)>, giveUp: bool)
    requires At(s, i, Querying) && Told(s.rest, s.waiters)
    ensures Told(s.rest, Queried(s, i, result, giveUp).waiters) && Queried(s, i, result, giveUp).rest == s.rest
  {
    MoveTells(s, i, Queried(s, i, result, giveUp).waiters[i].pc);
  }

  lemma {:induction false} WaiterTells(s: State, step: Step)
    requires Enabled(s, step) && Told(s.rest, s.waiters)
    requires step.Check? || step.Query? || step.Wake? || step.Note? || step.Open? || step.Signal?
    ensures Told(Next(s, step).rest, Next(s, step).waiters)
  {
    match step
    case Check(i) => MoveTells(s, i, if s.waiters[i].stop then Ended else Querying);
    case Query(i, result, giveUp) => QueryTells(s, i, result, giveUp);
    case Wake(i, timer) => MoveTells(s, i, if timer then Looping else Ended);
    case Note(i) => MoveTells(s, i, if s.waiters[i].enableWrites then Opening else Ended);
    case Open(i, ok) => MoveTells(s, i, if ok then Signalling else Ended);
    case Signal(i, _) => MoveTells(s, i, Ended);
  }

  lemma {:induction false} FailTells(s: State, cleanUp: bool)
    requires Enabled(s, Fail(cleanUp)) && Told(s.rest, s.waiters)
    ensures Told(Failed(s, cleanUp).rest, s.waiters) && Failed(s, cleanUp).waiters == s.waiters
  {
    assert Failed(s, cleanUp).rest == [] || Failed(s, cleanUp).rest == STOP;
  }

  lemma {:induction false} MethodTells(s: State, step: Step)
    requires Enabled(s, step) && Told(s.rest, s.waiters)
    requires step.Reconfigure? || step.Start? || step.Stop? || step.Crash?
    ensures Told(Next(s, step).rest, s.waiters) && Next(s, step).waiters == s.waiters
  {
  }

  lemma {:induction false} StepTells(s: State, step: Step)
    requires Enabled(s, step) && Told(s.rest, s.waiters)
    ensures Told(Next(s, step).rest, Next(s, step).waiters)
  {
    match step
    case Proceed => DidTells(s);
    case Fail(cleanUp) => FailTells(s, cleanUp);
    case Reconfigure(_) => MethodTells(s, step);
    case Start => MethodTells(s, step);
    case Stop => MethodTells(s, step);
    case Crash => MethodTells(s, step);
    case _ => WaiterTells(s, step);
  }

  /** How far a waiter that was told to stop is from its end. */
  function Left(pc: WaiterPc): nat {
    match pc
    case Ended => 0
    case Looping => 1
    case Sleeping => 2
    case Signalling => 3
    case Opening => 4
    case CaughtUp => 5
    case Querying => 6
  }

  ghost predicate StepOf(step: Step, i: nat) {
    (step.Check? || step.Query? || step.Wake? || step.Note? || step.Open? || step.Signal?) && step.id == i
  }

  /** cancelSyncWait returns: on every run, a method that waits for a waiter waits for one
      that can go on, and that gets closer to its end with every step it takes. */
  lemma {:induction false} CancelReturns(singleton: bool, steps: seq<Step>)
    requires IsRun(First(singleton), steps)
    ensures var s := EndOf(First(singleton), steps);
            s.rest != [] && s.rest[0].Join? && LiveLast(s.waiters) ==>
              var i := |s.waiters| - 1;
              && (exists step :: StepOf(step, i) && Enabled(s, step))
              && forall step | StepOf(step, i) && Enabled(s, step) ::
                   Left(Next(s, step).waiters[i].pc) < Left(s.waiters[i].pc)
  {
    RunTells(First(singleton), steps);
    var s := EndOf(First(singleton), steps);
    if s.rest != [] && s.rest[0].Join? && LiveLast(s.waiters) {
      WaiterCanGo(s, |s.waiters| - 1);
      forall step | StepOf(step, |s.waiters| - 1) && Enabled(s, step)
        ensures Left(Next(s, step).waiters[|s.waiters| - 1].pc) < Left(s.waiters[|s.waiters| - 1].pc)
      {
        StoppedFalls(s, step, |s.waiters| - 1);
      }
    }
  }

  lemma {:induction false} RunTells(s: State, steps: seq<Step>)
    requires IsRun(s, steps) && Told(s.rest, s.waiters)
    ensures Told(EndOf(s, steps).rest, EndOf(s, steps).waiters)
    decreases |steps|
  {
    if steps != [] {
      StepTells(s, steps[0]);
      RunTells(Next(s, steps[0]), steps[1..]);
    }
  }

  lemma {:induction false} WaiterCanGo(s: State, i: nat)
    requires i < |s.waiters| && s.waiters[i].pc != Ended
    ensures exists step :: StepOf(step, i) && Enabled(s, step)
  {
    var step := match s.waiters[i].pc
      case Looping => Check(i)
      case Querying => Query(i, None, false)
      case Sleeping => Wake(i, true)
      case CaughtUp => Note(i)
      case Opening => Open(i, true)
      case Signalling => Signal(i, true)
      case Ended => Proceed;
    assert StepOf(step, i) && Enabled(s, step);
  }

  lemma {:induction false} StoppedFalls(s: State, step: Step, i: nat)
    requires Enabled(s, step) && StepOf(step, i) && i < |s.waiters| && s.waiters[i].stop
    ensures Left(Next(s, step).waiters[i].pc) < Left(s.waiters[i].pc)
  {
    match step
    case Query(_, result, giveUp) =>
    case _ =>
  }
}
