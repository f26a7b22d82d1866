/** For whom PostgreSQL is open (appliance/postgresql/process.go): while it runs, it accepts
    writes only as the primary of the downstream that it is configured for. */
module WriteSafety {
  import opened Options
  import opened SyncWaiter

  /** A primary has a downstream and no upstream, a standby has an upstream. */
  predicate Sensible(c: Config) {
    match c.role
    case Primary => c.upstream.None? && c.downstream.Some?
    case Sync => c.upstream.Some?
    case Async => c.upstream.Some?
    case NoRole => c.upstream.None?
    case Unknown => false
  }

  predicate Writable(conf: Option<Conf>) {
    conf.Some? && !conf.value.readOnly
  }

  predicate ReadOnly(conf: Option<Conf>) {
    conf.Some? && conf.value.readOnly
  }

  function Latest(waiters: seq<Waiter>): Waiter
    requires waiters != []
  {
    waiters[|waiters| - 1]
  }

  /** Writes wait for the peer with this ID, or a live waiter is about to see to that. */
  ghost predicate Exposed(s: State, id: string) {
    || s.loaded == Some(Conf(false, id))
    || (LiveLast(s.waiters) && Latest(s.waiters).enableWrites && IdOf(Latest(s.waiters).inst) == id)
  }

  ghost predicate SomeExposed(s: State) {
    exists id :: Exposed(s, id)
  }

  /** What is asked of the process: sensible configurations, and no role only of a database
      that is not running or is not open and not about to be. */
  ghost predicate Asked(s: State, step: Step) {
    step.Reconfigure? ==> Sensible(step.config) && (s.running && step.config.role == NoRole ==> !SomeExposed(s))
  }

  ghost predicate PrimaryOf(c: Config, id: string) {
    c.role == Primary && c.downstream.Some? && IdOf(c.downstream.value) == id
  }

  /** The configuration that holds, or that is about to be noted. */
  function Claim(s: State): Option<Config> {
    if |s.rest| == 1 && s.rest[0].Commit? then Some(s.rest[0].commit) else s.config
  }

  /** The database is open only for the downstream of the primary that it is configured to be. */
  ghost predicate OpenForItsOwn(s: State) {
    forall id | s.running && Exposed(s, id) :: Claim(s).Some? && PrimaryOf(Claim(s).value, id)
  }

  predicate Role(c: Config) {
    Sensible(c) && c.role != NoRole
  }

  /** Codes speak of sensible roles, and methods write read-only configurations. */
  predicate Fit(c: Code) {
    match c
    case Write(conf) => conf.readOnly
    case Decide(config) => config.Some? ==> Role(config.value)
    case DecideNew(config) => config.Some? ==> Role(config.value)
    case TakeRole(config) => Role(config)
    case Commit(config) => Sensible(config)
    case _ => true
  }

  predicate Choice(c: Code) {
    c.Decide? || c.DecideNew? || c.TakeRole?
  }

  /** Codes after which the daemon has read the file. */
  predicate Loads(c: Code) {
    c.Launch? || c.Reload?
  }

  /** A choice comes last, and a waiter is started just before the configuration is noted. */
  ghost predicate Shaped(rest: seq<Code>) {
    && (forall k | 0 <= k < |rest| :: Fit(rest[k]))
    && (forall k | 0 <= k < |rest| && Choice(rest[k]) :: k == |rest| - 1 && (rest[k].DecideNew? ==> k == 0))
    && (forall k | 0 <= k < |rest| && rest[k].Commit? ::
          k == |rest| - 1 && (k == 0 || rest[k - 1].Spawn? || rest[k - 1].Launch?))
    && (forall k | 0 <= k < |rest| && rest[k].Spawn? ::
          k == |rest| - 2 && rest[k + 1].Commit?
          && (rest[k].enableWrites ==>
                rest[k + 1].commit.role == Primary && rest[k + 1].commit.downstream == Some(rest[k].inst)))
  }

  ghost predicate WriteBefore(rest: seq<Code>, k: nat)
    requires k < |rest|
  {
    exists a :: 0 <= a < k && rest[a].Write?
  }

  ghost predicate LoadBefore(rest: seq<Code>, k: nat)
    requires k < |rest|
  {
    exists a :: 0 <= a < k && Loads(rest[a])
  }

  /** Unless the file is read-only it is written before the daemon reads it, and unless the
      daemon is not open it reads the file before a waiter is started. */
  ghost predicate Ordered(rest: seq<Code>, readOnly: bool, open: bool) {
    && (!readOnly ==> forall k | 0 <= k < |rest| && Loads(rest[k]) :: WriteBefore(rest, k))
    && (open ==> forall k | 0 <= k < |rest| && rest[k].Spawn? :: LoadBefore(rest, k))
  }

  ghost predicate Planned(rest: seq<Code>, conf: Option<Conf>, loaded: Option<Conf>) {
    Shaped(rest) && Ordered(rest, ReadOnly(conf), Writable(loaded))
  }

  /** While the file is to be written or read or a waiter is to be started, none is live. */
  ghost predicate Quiet(rest: seq<Code>, live: bool) {
    live ==> forall k | 0 <= k < |rest| :: !rest[k].Write? && !Loads(rest[k]) && !rest[k].Spawn?
  }

  /** A waiter that is about to send a signal has written for its downstream. */
  ghost predicate Signed(waiters: seq<Waiter>, conf: Option<Conf>) {
    LiveLast(waiters) && Latest(waiters).pc == Signalling ==>
      Latest(waiters).enableWrites && conf == Some(Conf(false, IdOf(Latest(waiters).inst)))
  }

  /** Start goes back to the configuration, which is a role then. */
  ghost predicate Restartable(rest: seq<Code>, config: Option<Config>) {
    forall k | 0 <= k < |rest| && (rest[k].Decide? || rest[k].DecideNew?) && rest[k].config.None? ::
      config.Some? && config.value.role != NoRole
  }

  /** That only the downstream is another is found of no running primary that stays one. */
  ghost predicate NoPrimaryStays(s: State) {
    s.rest != [] && s.rest[0].DecideNew? && s.running && s.config.Some? ==>
      !(s.config.value.role == Primary && s.rest[0].config.Some? && s.rest[0].config.value.role == Primary)
  }

  ghost predicate Safe(s: State) {
    && !s.singleton && OpenForItsOwn(s)
    && (s.config.Some? ==> Sensible(s.config.value))
    && (s.running || s.rest != [] ==> s.config.Some?) && Restartable(s.rest, s.config)
    && Planned(s.rest, s.conf, s.loaded) && Quiet(s.rest, LiveLast(s.waiters)) && Signed(s.waiters, s.conf)
    && NoPrimaryStays(s)
  }

  /** Without codes that read the file or start a waiter, the order does not matter. */
  lemma {:induction false} QuietIsOrdered(rest: seq<Code>, readOnly: bool, open: bool)
    requires Quiet(rest, true)
    ensures Ordered(rest, readOnly, open)
  {
  }

  /** Steps of a live waiter, or of nobody, that expose nobody else. */
  lemma {:induction false} CalmKeeps(s: State, t: State)
    requires Safe(s) && t.singleton == s.singleton && t.config == s.config && t.rest == s.rest
    requires (t.running ==> s.running)
    requires forall id | Exposed(t, id) :: Exposed(s, id)
    requires LiveLast(t.waiters) ==> LiveLast(s.waiters)
    requires LiveLast(s.waiters) || (t.conf == s.conf && t.loaded == s.loaded)
    requires Signed(t.waiters, t.conf)
    ensures Safe(t)
  {
    assert Claim(t) == Claim(s);
    if LiveLast(s.waiters) {
      QuietIsOrdered(t.rest, ReadOnly(t.conf), Writable(t.loaded));
    }
  }

  lemma {:induction false} MoveSafe(s: State, i: nat, pc: WaiterPc)
    requires Safe(s) && Inv(s) && i < |s.waiters| && s.waiters[i].pc != Ended && pc != Signalling
    ensures Safe(Move(s, i, pc))
  {
    assert i == |s.waiters| - 1;
    CalmKeeps(s, Move(s, i, pc));
  }

  lemma {:induction false} WaiterSafe(s: State, step: Step)
    requires Safe(s) && Inv(s) && Enabled(s, step)
    requires (step.Check? || step.Query? || step.Wake? || step.Note? || step.Signal?)
    ensures Safe(Next(s, step))
  {
    var i := step.id;
    match step
    case Check(_) => MoveSafe(s, i, if s.waiters[i].stop then Ended else Querying);
    case Wake(_, timer) => MoveSafe(s, i, if timer then Looping else Ended);
    case Signal(_, ok) => SignalSafe(s, i, ok);
    case Note(_) => NoteSafe(s, i);
    case Query(_, result, giveUp) => QuerySafe(s, i, result, giveUp);
  }

  lemma {:induction false} NoteSafe(s: State, i: nat)
    requires Safe(s) && Inv(s) && At(s, i, CaughtUp)
    ensures Safe(Next(s, Note(i)))
  {
    var pc := if s.waiters[i].enableWrites then Opening else Ended;
    MoveSafe(s, i, pc);
    SameButLog(Move(s, i, pc), Next(s, Note(i)));
  }

  lemma {:induction false} QuerySafe(s: State, i: nat, result: Option<(string, string)>, giveUp: bool)
    requires Safe(s) && Inv(s) && At(s, i, Querying)
    ensures Safe(Queried(s, i, result, giveUp))
  {
    match result
    case None => MoveSafe(s, i, Sleeping);
    case Some((sent, flushed)) =>
      var pc := if giveUp then Ended else if sent == flushed then CaughtUp else Sleeping;
      MoveSafe(s, i, pc);
      SameButLog(Move(s, i, pc), Queried(s, i, result, giveUp));
  }

  lemma {:induction false} SameButLog(s: State, t: State)
    requires Safe(s) && t.singleton == s.singleton && t.config == s.config && t.rest == s.rest && t.running == s.running
    requires t.conf == s.conf && t.loaded == s.loaded && t.waiters == s.waiters
    ensures Safe(t)
  {
    CalmKeeps(s, t);
  }

  /** A waiter writes for its own downstream. */
  lemma {:induction false} OpenSafe(s: State, i: nat, ok: bool)
    requires Safe(s) && Inv(s) && At(s, i, Opening)
    ensures Safe(Next(s, Open(i, ok)))
  {
    assert i == |s.waiters| - 1;
    assert Story(s.waiters[i], i, s.log);
    CalmKeeps(s, Next(s, Open(i, ok)));
  }

  /** A waiter that sends the signal opens the database for its own downstream only. */
  lemma {:induction false} SignalSafe(s: State, i: nat, ok: bool)
    requires Safe(s) && Inv(s) && At(s, i, Signalling)
    ensures Safe(Next(s, Signal(i, ok)))
  {
    assert i == |s.waiters| - 1;
    CalmKeeps(s, Next(s, Signal(i, ok)));
  }

  /** A code that chooses is reached only without a live waiter. */
  lemma {:induction false} ChoiceIsQuiet(s: State)
    requires Inv(s) && s.rest != [] && Risky(s.rest[0])
    ensures !LiveLast(s.waiters)
  {
    GuardedTail(s.rest, LiveLast(s.waiters));
  }

  lemma {:induction false} TailShaped(rest: seq<Code>)
    requires rest != [] && Shaped(rest)
    ensures Shaped(rest[1..])
    ensures |rest| == 2 && rest[1].Commit? ==> rest[0].Spawn? || rest[0].Launch?
  {
    var tail := rest[1..];
    assert forall k | 0 <= k < |tail| :: tail[k] == rest[k + 1];
    forall k | 0 <= k < |tail| && tail[k].Commit?
      ensures k == |tail| - 1 && (k == 0 || tail[k - 1].Spawn? || tail[k - 1].Launch?)
    {
      assert rest[k + 1].Commit?;
    }
  }

  lemma {:induction false} TailOrdered(rest: seq<Code>, readOnly: bool, open: bool)
    requires rest != [] && Ordered(rest, readOnly, open)
    ensures Ordered(rest[1..], readOnly || rest[0].Write?, open && !Loads(rest[0]))
    ensures Loads(rest[0]) ==> readOnly
    ensures rest[0].Spawn? ==> !open
  {
    var tail := rest[1..];
    forall k | 0 <= k < |tail| && Loads(tail[k]) && !readOnly && !rest[0].Write?
      ensures WriteBefore(tail, k)
    {
      assert Loads(rest[k + 1]) && WriteBefore(rest, k + 1);
      var a :| 0 <= a < k + 1 && rest[a].Write?;
      assert tail[a - 1].Write?;
    }
    forall k | 0 <= k < |tail| && tail[k].Spawn? && open && !Loads(rest[0])
      ensures LoadBefore(tail, k)
    {
      assert rest[k + 1].Spawn? && LoadBefore(rest, k + 1);
      var a :| 0 <= a < k + 1 && Loads(rest[a]);
      assert Loads(tail[a - 1]);
    }
  }

  lemma {:induction false} TailRestartable(rest: seq<Code>, config: Option<Config>)
    requires rest != [] && Restartable(rest, config)
    ensures Restartable(rest[1..], config)
  {
    assert forall k | 0 <= k < |rest[1..]| :: rest[1..][k] == rest[k + 1];
  }

  lemma {:induction false} TailQuiet(rest: seq<Code>, live: bool)
    requires rest != [] && Quiet(rest, live)
    ensures Quiet(rest[1..], live)
  {
    assert forall k | 0 <= k < |rest[1..]| :: rest[1..][k] == rest[k + 1];
  }

  /** What the end of a plan is like after its first code. */
  lemma {:induction false} TailFits(s: State)
    requires Safe(s) && s.rest != []
    ensures var tail, read := s.rest[1..], if s.rest[0].Write? then Some(s.rest[0].conf) else s.conf;
            && Planned(tail, read, if Loads(s.rest[0]) then s.conf else s.loaded)
            && Restartable(tail, s.config) && Quiet(tail, LiveLast(s.waiters)) && Fit(s.rest[0])
            && (|tail| == 1 && tail[0].Commit? ==> s.rest[0].Spawn? || s.rest[0].Launch?)
            && (tail != [] ==> !tail[0].DecideNew?)
    ensures Loads(s.rest[0]) ==> ReadOnly(s.conf)
    ensures s.rest[0].Spawn? ==> !Writable(s.loaded)
  {
    TailShaped(s.rest);
    TailOrdered(s.rest, ReadOnly(s.conf), Writable(s.loaded));
    TailRestartable(s.rest, s.config);
    TailQuiet(s.rest, LiveLast(s.waiters));
    assert s.rest[1..] != [] ==> s.rest[1..][0] == s.rest[1];
  }

  /** A code that exposes nobody and decides nothing. */
  lemma {:induction false} PlainSafe(s: State, t: State)
    requires Safe(s) && s.rest != [] && !Choice(s.rest[0])
    requires !s.rest[0].Commit? && !s.rest[0].Spawn? && !s.rest[0].Launch?
    requires t.singleton == s.singleton && t.config == s.config && t.rest == s.rest[1..] && (t.running ==> s.running)
    requires t.conf == (if s.rest[0].Write? then Some(s.rest[0].conf) else s.conf)
    requires t.loaded == (if Loads(s.rest[0]) then s.conf else s.loaded)
    requires forall id | Exposed(t, id) :: Exposed(s, id)
    requires LiveLast(t.waiters) ==> LiveLast(s.waiters)
    requires Signed(t.waiters, t.conf)
    ensures Safe(t)
  {
    TailFits(s);
    assert Claim(t) == s.config && Claim(s) == s.config;
  }

  lemma {:induction false} CloseSafe(s: State)
    requires Safe(s) && s.rest != [] && s.rest[0].Close?
    ensures Safe(Did(s))
  {
    PlainSafe(s, Did(s));
  }

  lemma {:induction false} WriteSafe(s: State)
    requires Safe(s) && s.rest != [] && s.rest[0].Write?
    ensures Safe(Did(s))
  {
    PlainSafe(s, Did(s));
  }

  /** After a reload the daemon is not open. */
  lemma {:induction false} ReloadSafe(s: State)
    requires Safe(s) && s.rest != [] && s.rest[0].Reload?
    ensures Safe(Did(s))
  {
    TailFits(s);
    PlainSafe(s, Did(s));
  }

  lemma {:induction false} StepsSafe(s: State)
    requires Safe(s) && s.rest != []
    requires match s.rest[0] case Join => true case Forget => true case CheckStopped => true case Outside => true
                             case SetUp => true case Kill => true case _ => false
    ensures Safe(Did(s))
  {
    PlainSafe(s, Did(s));
  }

  /** Nobody is exposed when the database is started. */
  lemma {:induction false} LaunchSafe(s: State)
    requires Safe(s) && s.rest != [] && s.rest[0].Launch?
    ensures Safe(Did(s)) && !SomeExposed(Did(s)) && ReadOnly(s.conf) && !LiveLast(s.waiters)
  {
    TailFits(s);
    assert !LiveLast(s.waiters);
  }

  /** A waiter that may open the database is started for the downstream that is noted next. */
  lemma {:induction false} SpawnSafe(s: State)
    requires Safe(s) && s.rest != [] && s.rest[0].Spawn?
    ensures Safe(Did(s))
  {
    TailFits(s);
    var t := Did(s);
    assert |s.rest| == 2 && t.rest == [s.rest[1]] && s.rest[1].Commit?;
    assert Claim(t) == Some(s.rest[1].commit);
  }

  lemma {:induction false} CommitSafe(s: State)
    requires Safe(s) && s.rest != [] && s.rest[0].Commit?
    ensures Safe(Did(s))
  {
    var t := Did(s);
    assert Fit(s.rest[0]) && t.rest == [];
    assert Claim(t) == Claim(s);
  }

  /** A choice puts a plan in its place. */
  lemma {:induction false} ChoiceSafe(s: State, codes: seq<Code>)
    requires Safe(s) && Inv(s) && s.rest != [] && Choice(s.rest[0]) && Planned(codes, s.conf, s.loaded)
    requires codes != [] && !codes[0].Commit? && Restartable(codes, s.config)
    requires NoPrimaryStays(s.(rest := codes))
    ensures Safe(s.(rest := codes + s.rest[1..]))
  {
    ChoiceIsQuiet(s);
    assert s.rest[1..] == [] && codes + [] == codes;
    var t := s.(rest := codes + s.rest[1..]);
    assert Claim(t) == s.config && Claim(s) == s.config;
  }

  lemma {:induction false} DecidedPlanned(s: State, c: Option<Config>)
    requires c.Some? ==> Role(c.value)
    ensures Planned(Decided(s, c), s.conf, s.loaded)
  {
    var codes := Decided(s, c);
    if !codes[0].DecideNew? {
      assert codes[0].Write? && Loads(codes[1]);
    }
  }

  lemma {:induction false} DecideSafe(s: State)
    requires Safe(s) && Inv(s) && s.rest != [] && s.rest[0].Decide?
    ensures Safe(Did(s))
  {
    var c := s.rest[0].config;
    assert Fit(s.rest[0]);
    DecidedPlanned(s, c);
    ChoiceSafe(s, Decided(s, c));
  }

  /** A database that is not configured to be a primary is not open. */
  lemma {:induction false} OnlyPrimaryIsOpen(s: State)
    requires Safe(s) && s.running && s.rest != [] && Choice(s.rest[0]) && s.config.value.role != Primary
    ensures !Writable(s.loaded)
  {
    if Writable(s.loaded) {
      assert Exposed(s, s.loaded.value.sync);
    }
  }

  lemma {:induction false} NewDownstreamPlanned(s: State, c: Config)
    requires Role(c) && c.downstream.Some? && !Writable(s.loaded)
    ensures Planned([Spawn(c.downstream.value, false), Commit(c)], s.conf, s.loaded)
  {
  }

  /** Only another downstream: the database is not open then. */
  lemma {:induction false} DecideNewSafe(s: State)
    requires Safe(s) && Inv(s) && s.rest != [] && s.rest[0].DecideNew?
    ensures Safe(Did(s))
  {
    var c := s.rest[0].config;
    assert Fit(s.rest[0]);
    if s.running && IsNewDownstream(s.config, c) {
      OnlyPrimaryIsOpen(s);
      NewDownstreamPlanned(s, c.value);
    }
    ChoiceSafe(s, DecidedNew(s, c));
  }

  lemma {:induction false} RolePlanned(s: State, c: Config)
    requires Role(c) && (s.running && s.config.Some? && s.config.value.role == Sync ==> !Writable(s.loaded))
    ensures Planned(RoleTaken(s, c), s.conf, s.loaded)
  {
    if c.role != Primary {
      StandbyPlanned(s, c);
    } else if s.running && s.config.Some? && s.config.value.role == Sync {
      PromotedPlanned(s, c);
    } else {
      PrimaryPlanned(s, c);
    }
  }

  lemma {:induction false} PromotedPlanned(s: State, c: Config)
    requires Role(c) && c.role == Primary && !Writable(s.loaded)
    requires s.running && s.config.Some? && s.config.value.role == Sync
    ensures Planned(RoleTaken(s, c), s.conf, s.loaded)
  {
    assert RoleTaken(s, c) == [Outside, Spawn(c.downstream.value, true), Commit(c)];
  }

  lemma {:induction false} PrimaryPlanned(s: State, c: Config)
    requires Role(c) && c.role == Primary && !(s.running && s.config.Some? && s.config.value.role == Sync)
    ensures Planned(RoleTaken(s, c), s.conf, s.loaded)
  {
    var codes, d := RoleTaken(s, c), c.downstream.value;
    assert codes == [CheckStopped, Outside, Write(Conf(true, "")), Launch, SetUp, Spawn(d, true), Commit(c)];
    assert codes[2].Write? && Loads(codes[3]);
  }

  /** A plan that does not begin by noting a configuration and leaves nothing to choose. */
  ghost predicate Settled(plan: seq<Code>, conf: Option<Conf>, loaded: Option<Conf>) {
    Planned(plan, conf, loaded) && plan != [] && !plan[0].Commit? && forall k | 0 <= k < |plan| :: !Choice(plan[k])
  }

  lemma {:induction false} StandbyPlanned(s: State, c: Config)
    requires Role(c) && c.role != Primary
    ensures Planned(RoleTaken(s, c), s.conf, s.loaded)
  {
    var end := [Write(Conf(true, "")), Launch] + Waiting(c.downstream, false) + [Commit(c)];
    EndSettled(c, s.conf, s.loaded);
    AfterStop(end, s.conf, s.loaded);
    AfterPlain(Outside, end, s.conf, s.loaded);
    assert RoleTaken(s, c) == (if s.running then STOP else [Outside]) + end;
  }

  lemma {:induction false} EndSettled(c: Config, conf: Option<Conf>, loaded: Option<Conf>)
    requires Role(c) && c.role != Primary
    ensures Settled([Write(Conf(true, "")), Launch] + Waiting(c.downstream, false) + [Commit(c)], conf, loaded)
  {
    var codes := [Write(Conf(true, "")), Launch] + Waiting(c.downstream, false) + [Commit(c)];
    assert codes[0].Write? && Loads(codes[1]);
  }

  lemma {:induction false} AfterStop(plan: seq<Code>, conf: Option<Conf>, loaded: Option<Conf>)
    requires Settled(plan, conf, loaded)
    ensures Settled(STOP + plan, conf, loaded)
  {
    AfterPlain(Kill, plan, conf, loaded);
    AfterPlain(Join, [Kill] + plan, conf, loaded);
    AfterPlain(Close, [Join] + ([Kill] + plan), conf, loaded);
    assert STOP + plan == [Close] + ([Join] + ([Kill] + plan));
  }

  /** It may begin with a code that only stops something. */
  lemma {:induction false} AfterPlain(c: Code, plan: seq<Code>, conf: Option<Conf>, loaded: Option<Conf>)
    requires (c == Close || c == Join || c == Kill || c == Outside) && Settled(plan, conf, loaded)
    ensures Settled([c] + plan, conf, loaded)
  {
    var codes := [c] + plan;
    assert forall k | 0 < k < |codes| :: codes[k] == plan[k - 1];
    AfterPlainOrdered(c, plan, ReadOnly(conf), Writable(loaded));
  }

  lemma {:induction false} AfterPlainOrdered(c: Code, plan: seq<Code>, readOnly: bool, open: bool)
    requires !Loads(c) && !c.Spawn? && Ordered(plan, readOnly, open)
    ensures Ordered([c] + plan, readOnly, open)
  {
    var codes := [c] + plan;
    forall k | 0 <= k < |codes| && Loads(codes[k]) && !readOnly
      ensures WriteBefore(codes, k)
    {
      assert WriteBefore(plan, k - 1);
      var a :| 0 <= a < k - 1 && plan[a].Write?;
      assert codes[a + 1].Write?;
    }
    forall k | 0 <= k < |codes| && codes[k].Spawn? && open
      ensures LoadBefore(codes, k)
    {
      assert LoadBefore(plan, k - 1);
      var a :| 0 <= a < k - 1 && Loads(plan[a]);
      assert Loads(codes[a + 1]);
    }
  }

  lemma {:induction false} TakeRoleSafe(s: State)
    requires Safe(s) && Inv(s) && s.rest != [] && s.rest[0].TakeRole?
    ensures Safe(Did(s))
  {
    var c := s.rest[0].role;
    assert Fit(s.rest[0]);
    if s.running && s.config.value.role == Sync {
      OnlyPrimaryIsOpen(s);
    }
    RolePlanned(s, c);
    RoleIsPlain(s, c);
    ChoiceSafe(s, RoleTaken(s, c));
  }

  lemma {:induction false} RoleIsPlain(s: State, c: Config)
    ensures RoleTaken(s, c) != [] && !RoleTaken(s, c)[0].Commit? && !RoleTaken(s, c)[0].DecideNew?
    ensures Restartable(RoleTaken(s, c), s.config)
  {
  }

  lemma {:induction false} ProceedSafe(s: State)
    requires Safe(s) && Inv(s) && Enabled(s, Proceed)
    ensures Safe(Did(s))
  {
    match s.rest[0]
    case Close => CloseSafe(s);
    case Write(_) => WriteSafe(s);
    case Reload => ReloadSafe(s);
    case Launch => LaunchSafe(s);
    case Spawn(_, _) => SpawnSafe(s);
    case Commit(_) => CommitSafe(s);
    case Decide(_) => DecideSafe(s);
    case DecideNew(_) => DecideNewSafe(s);
    case TakeRole(_) => TakeRoleSafe(s);
    case _ => StepsSafe(s);
  }

  lemma {:induction false} StopPlanned(conf: Option<Conf>, loaded: Option<Conf>, config: Option<Config>, live: bool)
    ensures Planned(STOP, conf, loaded) && Restartable(STOP, config) && Quiet(STOP, live)
    ensures Planned([], conf, loaded) && Restartable([], config) && Quiet([], live)
  {
  }

  lemma {:induction false} FailSafe(s: State, cleanUp: bool)
    requires Safe(s) && Enabled(s, Fail(cleanUp))
    ensures Safe(Failed(s, cleanUp))
  {
    if s.rest[0].Launch? {
      FailedLaunchSafe(s, cleanUp);
    } else {
      AbandonSafe(s, Failed(s, cleanUp));
    }
  }

  lemma {:induction false} FailedLaunchSafe(s: State, cleanUp: bool)
    requires Safe(s) && s.rest != [] && s.rest[0].Launch?
    ensures Safe(Failed(s, cleanUp))
  {
    LaunchSafe(s);
    if cleanUp {
      StopAnyway(Did(s), Failed(s, cleanUp));
    } else {
      AbandonSafe(s, Failed(s, cleanUp));
    }
  }

  /** What was started is stopped again. */
  lemma {:induction false} StopAnyway(s: State, t: State)
    requires Safe(s) && !SomeExposed(s) && t == s.(rest := STOP) && s.config.Some? && !LiveLast(s.waiters)
    ensures Safe(t)
  {
    StopPlanned(t.conf, t.loaded, t.config, LiveLast(t.waiters));
    assert forall id :: Exposed(t, id) <==> Exposed(s, id);
  }

  /** Giving up, or stopping what was started, changes nothing about who is exposed. */
  lemma {:induction false} AbandonSafe(s: State, t: State)
    requires Safe(s) && s.rest != [] && !s.rest[0].Commit? && (t.rest == [] || t.rest == STOP)
    requires t == s.(rest := t.rest, conf := t.conf) && (t.conf == s.conf || (t.conf == None && s.rest[0].Write?))
    ensures Safe(t)
  {
    StopPlanned(t.conf, t.loaded, t.config, LiveLast(t.waiters));
    assert Claim(t) == s.config && Claim(s) == s.config;
    assert forall id | Exposed(t, id) :: Exposed(s, id);
  }

  lemma {:induction false} PlansFit(s: State, c: Option<Config>)
    requires c.Some? ==> Role(c.value)
    requires c.None? ==> s.config.Some? && s.config.value.role != NoRole
    ensures var plan := [Close, Join, Forget, Decide(c)];
            Planned(plan, s.conf, s.loaded) && Quiet(plan, LiveLast(s.waiters)) && Restartable(plan, s.config)
  {
  }

  lemma {:induction false} NotingFits(s: State, c: Config)
    requires Sensible(c)
    ensures Planned([Commit(c)], s.conf, s.loaded) && Quiet([Commit(c)], LiveLast(s.waiters))
    ensures Restartable([Commit(c)], s.config)
  {
  }

  lemma {:induction false} ReconfigureSafe(s: State, c: Config)
    requires Safe(s) && Enabled(s, Reconfigure(c)) && Asked(s, Reconfigure(c))
    ensures Safe(Next(s, Reconfigure(c)))
  {
    var t := Next(s, Reconfigure(c));
    assert forall id :: Exposed(t, id) <==> Exposed(s, id);
    if s.running {
      if t.rest == [Commit(c)] {
        NotingFits(s, c);
        assert Claim(t) == Some(c);
      } else {
        PlansFit(s, Some(c));
        assert t.rest == [Close, Join, Forget, Decide(Some(c))];
      }
    }
  }

  lemma {:induction false} StartSafe(s: State)
    requires Safe(s) && Enabled(s, Start)
    ensures Safe(Next(s, Start))
  {
    PlansFit(s, None);
    assert Claim(Next(s, Start)) == s.config;
  }

  lemma {:induction false} StopSafe(s: State)
    requires Safe(s) && Enabled(s, Stop)
    ensures Safe(Next(s, Stop))
  {
    var t := Next(s, Stop);
    StopPlanned(s.conf, s.loaded, s.config, LiveLast(s.waiters));
    assert forall id :: Exposed(t, id) <==> Exposed(s, id);
    assert Claim(t) == s.config && Claim(s) == s.config;
  }

  /** Every step that is sensibly asked keeps the database open for its own downstream only. */
  lemma {:induction false} StepSafe(s: State, step: Step)
    requires Safe(s) && Inv(s) && Enabled(s, step) && Asked(s, step)
    ensures Safe(Next(s, step))
  {
    match step
    case Reconfigure(c) => ReconfigureSafe(s, c);
    case Start => StartSafe(s);
    case Stop => StopSafe(s);
    case Proceed => ProceedSafe(s);
    case Fail(cleanUp) => FailSafe(s, cleanUp);
    case Crash => CalmKeeps(s, s.(running := false));
    case Open(i, ok) => OpenSafe(s, i, ok);
    case _ => WaiterSafe(s, step);
  }

  ghost predicate AllAsked(s: State, steps: seq<Step>)
    requires IsRun(s, steps)
    decreases |steps|
  {
    steps == [] || (Asked(s, steps[0]) && AllAsked(Next(s, steps[0]), steps[1..]))
  }

  lemma {:induction false} RunSafe(s: State, steps: seq<Step>)
    requires Safe(s) && Inv(s) && IsRun(s, steps) && AllAsked(s, steps)
    ensures Safe(EndOf(s, steps))
    decreases |steps|
  {
    if steps != [] {
      StepSafe(s, steps[0]);
      StepKeeps(s, steps[0]);
      RunSafe(Next(s, steps[0]), steps[1..]);
    }
  }

  /** Between operations, a running database that accepts writes is the primary it is
      configured to be, and its writes wait for the downstream it is configured for. */
  ghost predicate AsConfigured(s: State) {
    s.rest == [] && s.running && Writable(s.loaded) ==>
      s.config.Some? && PrimaryOf(s.config.value, s.loaded.value.sync)
  }

  lemma {:induction false} SafeIsAsConfigured(s: State)
    requires Safe(s)
    ensures AsConfigured(s)
  {
    if Writable(s.loaded) {
      assert Exposed(s, s.loaded.value.sync);
    }
  }

  /** On every interleaving of a process that is no singleton, is sensibly configured and is
      asked to have no role only while it is not open and not about to be: it is open only as
      it is configured. */
  lemma {:induction false} OpenOnlyAsConfigured(steps: seq<Step>)
    requires IsRun(First(false), steps) && AllAsked(First(false), steps)
    ensures AsConfigured(EndOf(First(false), steps))
  {
    RunSafe(First(false), steps);
    SafeIsAsConfigured(EndOf(First(false), steps));
  }

  lemma {:induction false} Before(s: State, step: Step, steps: seq<Step>)
    requires Enabled(s, step) && IsRun(Next(s, step), steps)
    ensures IsRun(s, [step] + steps) && EndOf(s, [step] + steps) == EndOf(Next(s, step), steps)
    ensures Asked(s, step) && AllAsked(Next(s, step), steps) ==> AllAsked(s, [step] + steps)
  {
    assert ([step] + steps)[1..] == steps;
  }

  lemma {:induction false} Then(s: State, step: Step, more: seq<Step>) returns (steps: seq<Step>)
    requires Enabled(s, step) && IsRun(Next(s, step), more) && !step.Reconfigure? && AllAsked(Next(s, step), more)
    ensures IsRun(s, steps) && AllAsked(s, steps) && EndOf(s, steps) == EndOf(Next(s, step), more)
  {
    Before(s, step, more);
    steps := [step] + more;
  }

  /** How far a waiter is from the signal. */
  function ToSignal(pc: WaiterPc): nat {
    match pc
    case Ended => 0
    case Signalling => 1
    case Opening => 2
    case CaughtUp => 3
    case Querying => 4
    case Looping => 5
    case Sleeping => 6
  }

  /** A live waiter that enables writes and was not told to stop may always open the database. */
  lemma {:induction false} WaiterMayOpen(s: State, i: nat) returns (steps: seq<Step>)
    requires i < |s.waiters| && s.waiters[i].pc != Ended && s.waiters[i].enableWrites && !s.waiters[i].stop
    requires At(s, i, Signalling) ==> s.conf == Some(Conf(false, IdOf(s.waiters[i].inst)))
    ensures IsRun(s, steps) && AllAsked(s, steps)
    ensures var t := EndOf(s, steps);
            && t.loaded == Some(Conf(false, IdOf(s.waiters[i].inst)))
            && t.rest == s.rest && t.running == s.running && t.config == s.config
    decreases ToSignal(s.waiters[i].pc)
  {
    var step := match s.waiters[i].pc
      case Looping => Check(i)
      case Querying => Query(i, Some(("0/3000060", "0/3000060")), false)
      case Sleeping => Wake(i, true)
      case CaughtUp => Note(i)
      case Opening => Open(i, true)
      case Signalling => Signal(i, true)
      case Ended => Proceed;
    var more := [];
    if s.waiters[i].pc != Signalling {
      more := WaiterMayOpen(Next(s, step), i);
    }
    steps := Then(s, step, more);
  }

  /** An open database that is asked to have no role stays open. */
  lemma {:induction false} NoRoleStaysOpen(s: State, c: Config) returns (steps: seq<Step>)
    requires s.rest == [] && s.running && c.role == NoRole && Writable(s.loaded)
    ensures Next(s, Reconfigure(c)).rest == [Commit(c)]
    ensures var t := Next(s, Reconfigure(c));
            IsRun(t, steps) && AllAsked(t, steps) && EndOf(t, steps) == s.(config := Some(c), applied := true)
  {
    steps := Then(Next(s, Reconfigure(c)), Proceed, []);
  }

  /** A database that a waiter is about to open, and that is asked to have no role, may be
      opened by it: the waiter is not told to stop. */
  lemma {:induction false} NoRoleIsOpened(s: State, c: Config) returns (steps: seq<Step>)
    requires s.rest == [] && s.running && c.role == NoRole && LiveLast(s.waiters)
    requires Latest(s.waiters).enableWrites && !Latest(s.waiters).stop && Signed(s.waiters, s.conf)
    ensures var t := Next(s, Reconfigure(c));
            && IsRun(t, steps) && AllAsked(t, steps)
            && var end := EndOf(t, steps);
               end.rest == [] && end.running && end.config == Some(c) && Writable(end.loaded)
  {
    var t := Next(s, Reconfigure(c));
    var u := Did(t);
    assert u == s.(config := Some(c), applied := true);
    steps := WaiterMayOpen(u, |s.waiters| - 1);
    steps := Then(t, Proceed, steps);
  }

  /** The condition is exact: whatever a running process was sensibly asked before, a sensible
      configuration keeps it open only as configured, on every run from there on, if and only
      if it is a role or the database is not open and not about to be. */
  lemma {:induction false} RoleIsNeeded(before: seq<Step>, c: Config)
    requires IsRun(First(false), before) && AllAsked(First(false), before) && Sensible(c)
    requires EndOf(First(false), before).running && Enabled(EndOf(First(false), before), Reconfigure(c))
    ensures var s := EndOf(First(false), before);
            var t := Next(s, Reconfigure(c));
            (forall steps | IsRun(t, steps) && AllAsked(t, steps) :: AsConfigured(EndOf(t, steps)))
            <==> c.role != NoRole || !SomeExposed(s)
  {
    var s := EndOf(First(false), before);
    RunSafe(First(false), before);
    RunKeeps(First(false), before);
    RunTells(First(false), before);
    if c.role != NoRole || !SomeExposed(s) {
      StaysAsConfigured(s, c);
    } else {
      NoRoleBreaks(s, c);
    }
  }

  lemma {:induction false} StaysAsConfigured(s: State, c: Config)
    requires Safe(s) && Inv(s) && Enabled(s, Reconfigure(c)) && Asked(s, Reconfigure(c))
    ensures var t := Next(s, Reconfigure(c));
            forall steps | IsRun(t, steps) && AllAsked(t, steps) :: AsConfigured(EndOf(t, steps))
  {
    var t := Next(s, Reconfigure(c));
    StepSafe(s, Reconfigure(c));
    StepKeeps(s, Reconfigure(c));
    forall steps | IsRun(t, steps) && AllAsked(t, steps)
      ensures AsConfigured(EndOf(t, steps))
    {
      RunSafe(t, steps);
      SafeIsAsConfigured(EndOf(t, steps));
    }
  }

  lemma {:induction false} NoRoleBreaks(s: State, c: Config)
    requires Safe(s) && Told(s.rest, s.waiters) && s.rest == [] && s.running && c.role == NoRole && SomeExposed(s)
    ensures var t := Next(s, Reconfigure(c));
            exists steps :: IsRun(t, steps) && AllAsked(t, steps) && !AsConfigured(EndOf(t, steps))
  {
    var t := Next(s, Reconfigure(c));
    var id :| Exposed(s, id);
    var steps;
    if s.loaded == Some(Conf(false, id)) {
      steps := NoRoleStaysOpen(s, c);
    } else {
      steps := NoRoleIsOpened(s, c);
    }
    assert !AsConfigured(EndOf(t, steps));
  }

  /** Cancelling without a live waiter. */
  lemma {:induction false} CancelDone(s: State, c: Option<Config>) returns (a: State, b: State, t: State)
    requires s.rest == [Close, Join, Forget, Decide(c)] && !LiveLast(s.waiters)
    ensures Enabled(s, Proceed) && a == Did(s) && Enabled(a, Proceed) && b == Did(a) && Enabled(b, Proceed)
    ensures t == Did(b)
    ensures t.rest == [Decide(c)] && t.running == s.running && t.loaded == s.loaded && t.config == s.config
  {
    a := Did(s);
    assert a.rest == [Join, Forget, Decide(c)];
    b := Did(a);
    assert b.rest == [Forget, Decide(c)];
    t := Did(b);
  }

  /** A configuration that differs in the downstream only. */
  lemma {:induction false} NewDownstreamRun(s: State, c: Config) returns (steps: seq<Step>)
    requires s.rest == [Decide(Some(c))] && s.running && IsNewDownstream(s.config, Some(c))
    requires s.config.value.role != Primary
    ensures IsRun(s, steps) && AllAsked(s, steps)
    ensures var t := EndOf(s, steps);
            t.rest == [] && t.running && t.loaded == s.loaded && t.config == Some(c)
  {
    var a := Did(s);
    assert a.rest == [DecideNew(Some(c))];
    var b := Did(a);
    assert b.rest == [Spawn(c.downstream.value, false), Commit(c)];
    var e := Did(b);
    assert e.rest == [Commit(c)];
    steps := Then(e, Proceed, []);
    steps := Then(b, Proceed, steps);
    steps := Then(a, Proceed, steps);
    steps := Then(s, Proceed, steps);
  }

  /** And if an open database without a role is then configured for another downstream, its
      writes go on waiting for the former one only: the configuration is not loaded again. */
  lemma {:induction false} FormerDownstreamRemains(s: State, d: Peer) returns (steps: seq<Step>)
    requires s.rest == [] && s.running && s.config == Some(Config(NoRole, None, None)) && Writable(s.loaded)
    requires !s.singleton && !LiveLast(s.waiters)
    ensures IsRun(s, steps) && AllAsked(s, steps)
    ensures var t := EndOf(s, steps);
            && t.rest == [] && t.running && t.loaded == s.loaded && t.config == Some(Config(Primary, None, Some(d)))
            && (AsConfigured(t) <==> IdOf(d) == s.loaded.value.sync)
  {
    var c := Config(Primary, None, Some(d));
    var a := Next(s, Reconfigure(c));
    assert a == s.(rest := [Close, Join, Forget, Decide(Some(c))]);
    var b, e, f := CancelDone(a, Some(c));
    steps := NewDownstreamRun(f, c);
    steps := Then(e, Proceed, steps);
    steps := Then(b, Proceed, steps);
    steps := Then(a, Proceed, steps);
    Before(s, Reconfigure(c), steps);
    steps := [Reconfigure(c)] + steps;
  }
}
