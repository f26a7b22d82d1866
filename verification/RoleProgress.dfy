/** What a process of PostgreSQL comes to when nothing fails (appliance/postgresql/process.go):
    a primary is opened for its downstream, a standby runs read-only, and stopping stops. */
module RoleProgress {
  import opened Options
  import opened SyncWaiter

  /** A step of the running method or of a waiter. */
  predicate Own(step: Step) {
    step.Proceed? || step.Check? || step.Query? || step.Wake? || step.Note? || step.Open? || step.Signal?
  }

  ghost predicate OwnRun(s: State, steps: seq<Step>) {
    IsRun(s, steps) && forall k | 0 <= k < |steps| :: Own(steps[k])
  }

  /** The method and the waiters can get from s to t: no call comes between, and nothing fails
      but what their own steps may answer. */
  ghost predicate Leads(s: State, t: State) {
    exists steps :: OwnRun(s, steps) && EndOf(s, steps) == t
  }

  lemma {:induction false} LeadsSelf(s: State)
    ensures Leads(s, s)
  {
    assert OwnRun(s, []) && EndOf(s, []) == s;
  }

  /** One step first. */
  lemma {:induction false} LeadsBy(s: State, step: Step, t: State)
    requires Enabled(s, step) && Own(step) && Leads(Next(s, step), t)
    ensures Leads(s, t)
  {
    var more :| OwnRun(Next(s, step), more) && EndOf(Next(s, step), more) == t;
    var steps := [step] + more;
    assert steps[1..] == more;
    assert OwnRun(s, steps) && EndOf(s, steps) == t;
  }

  lemma {:induction false} LeadsOn(s: State, t: State, u: State)
    requires Leads(s, t) && Leads(t, u)
    ensures Leads(s, u)
  {
    var steps :| OwnRun(s, steps) && EndOf(s, steps) == t;
    RunOn(s, steps, u);
  }

  lemma {:induction false} RunOn(s: State, steps: seq<Step>, u: State)
    requires OwnRun(s, steps) && Leads(EndOf(s, steps), u)
    ensures Leads(s, u)
    decreases |steps|
  {
    if steps != [] {
      assert OwnRun(Next(s, steps[0]), steps[1..]);
      RunOn(Next(s, steps[0]), steps[1..], u);
      LeadsBy(s, steps[0], u);
    }
  }

  /** The method does the next thing. */
  lemma {:induction false} Does(s: State)
    requires Enabled(s, Proceed)
    ensures Leads(s, Did(s))
  {
    LeadsSelf(Did(s));
    LeadsBy(s, Proceed, Did(s));
  }

  /** The method does the next two things first. */
  lemma {:induction false} LeadsByTwo(s: State, t: State)
    requires Enabled(s, Proceed) && Enabled(Did(s), Proceed) && Leads(Did(Did(s)), t)
    ensures Leads(s, t)
  {
    LeadsBy(Did(s), Proceed, t);
    LeadsBy(s, Proceed, t);
  }

  /** Only waiters have moved on. */
  ghost predicate SameMethod(s: State, t: State) {
    && t.singleton == s.singleton && t.config == s.config && t.applied == s.applied && t.running == s.running
    && t.rest == s.rest && |t.waiters| == |s.waiters|
  }

  /** What a waiter that was told to stop can do next. */
  function WayOut(pc: WaiterPc, i: nat): Step {
    match pc
    case Looping => Check(i)
    case Querying => Query(i, None, false)
    case Sleeping => Wake(i, false)
    case CaughtUp => Note(i)
    case Opening => Open(i, true)
    case Signalling => Signal(i, true)
    case Ended => Proceed
  }

  lemma {:induction false} GoesOut(s: State, i: nat)
    requires i < |s.waiters| && s.waiters[i].stop && s.waiters[i].pc != Ended
    ensures var step := WayOut(s.waiters[i].pc, i);
            && Enabled(s, step) && SameMethod(s, Next(s, step)) && Next(s, step).waiters[i].stop
            && Left(Next(s, step).waiters[i].pc) < Left(s.waiters[i].pc)
  {
  }

  /** A waiter that was told to stop comes to its end. */
  lemma {:induction false} StoppedEnds(s: State, i: nat) returns (t: State)
    requires i < |s.waiters| && s.waiters[i].stop
    ensures Leads(s, t) && SameMethod(s, t) && t.waiters[i].pc == Ended
    decreases Left(s.waiters[i].pc)
  {
    if s.waiters[i].pc == Ended {
      t := s;
      LeadsSelf(s);
    } else {
      GoesOut(s, i);
      t := StoppedEnds(Next(s, WayOut(s.waiters[i].pc, i)), i);
      LeadsBy(s, WayOut(s.waiters[i].pc, i), t);
    }
  }

  /** A method gets past a waiter that it has told to stop. */
  lemma {:induction false} Joins(s: State, more: seq<Code>) returns (t: State)
    requires s.rest == [Join] + more && ToldLast(s.waiters)
    ensures Leads(s, t) && SameMethod(s.(rest := more), t) && !LiveLast(t.waiters)
  {
    if s.waiters == [] {
      t := Did(s);
      Does(s);
    } else {
      var a := StoppedEnds(s, |s.waiters| - 1);
      t := Did(a);
      Does(a);
      LeadsOn(s, a, t);
    }
    assert s.rest[1..] == more;
  }

  /** A method that cancels the waiter gets past it. */
  lemma {:induction false} Cancels(s: State, more: seq<Code>) returns (t: State)
    requires s.rest == [Close, Join] + more
    ensures Leads(s, t) && SameMethod(s.(rest := more), t) && !LiveLast(t.waiters)
  {
    var a := Did(s);
    assert a.rest == [Join] + more;
    t := Joins(a, more);
    LeadsBy(s, Proceed, t);
  }

  /** reconfigure gets to its choice, with no synced downstream. */
  lemma {:induction false} GetsToChoice(s: State, c: Option<Config>) returns (t: State)
    requires s.rest == [Close, Join, Forget, Decide(c)]
    ensures Leads(s, t) && SameMethod(s.(rest := [Decide(c)]), t) && t.synced == None && !LiveLast(t.waiters)
  {
    assert s.rest == [Close, Join] + [Forget, Decide(c)];
    var a := Cancels(s, [Forget, Decide(c)]);
    t := Did(a);
    Does(a);
    LeadsOn(s, a, t);
  }

  /** The latest waiter, just started. */
  ghost predicate Started(s: State, d: Peer, enableWrites: bool) {
    s.waiters != [] && s.waiters[|s.waiters| - 1] == Waiter(d, enableWrites, false, Looping)
  }

  /** A waiter just started sees its downstream caught up, and reports it. */
  lemma {:induction false} Catches(s: State, d: Peer, enable: bool) returns (t: State)
    requires Started(s, d, enable)
    ensures Leads(s, t) && SameMethod(s, t) && t.synced == Some(d) && t.loaded == s.loaded && t.conf == s.conf
    ensures t.waiters[|t.waiters| - 1] == Waiter(d, enable, false, if enable then Opening else Ended)
  {
    var i, pos := |s.waiters| - 1, "0/3000060";
    var a := Next(s, Check(i));
    var b := Next(a, Query(i, Some((pos, pos)), false));
    t := Next(b, Note(i));
    LeadsSelf(t);
    LeadsBy(b, Note(i), t);
    LeadsBy(a, Query(i, Some((pos, pos)), false), t);
    LeadsBy(s, Check(i), t);
  }

  /** A waiter just started to enable writes opens the database for its downstream. */
  lemma {:induction false} Opens(s: State, d: Peer) returns (t: State)
    requires Started(s, d, true)
    ensures Leads(s, t) && SameMethod(s, t) && t.synced == Some(d) && t.loaded == Some(Conf(false, IdOf(d)))
  {
    var a := Catches(s, d, true);
    var i := |s.waiters| - 1;
    var b := Next(a, Open(i, true));
    t := Next(b, Signal(i, true));
    LeadsSelf(t);
    LeadsBy(b, Signal(i, true), t);
    LeadsBy(a, Open(i, true), t);
    LeadsOn(s, a, t);
  }

  /** The process runs as configured, and no method is running. */
  ghost predicate RunsAs(s: State, c: Config) {
    s.rest == [] && s.running && s.config == Some(c) && s.applied
  }

  /** A primary that accepts writes, which wait for its downstream. */
  ghost predicate OpenFor(s: State, c: Config, d: Peer) {
    RunsAs(s, c) && s.loaded == Some(Conf(false, IdOf(d))) && s.synced == Some(d)
  }

  /** Whoever runs or is at work was configured. */
  ghost predicate Configured(s: State) {
    s.running || s.rest != [] ==> s.config.Some?
  }

  lemma {:induction false} RunConfigured(s: State, steps: seq<Step>)
    requires IsRun(s, steps) && Configured(s)
    ensures Configured(EndOf(s, steps))
    decreases |steps|
  {
    if steps != [] {
      StepConfigured(s, steps[0]);
      RunConfigured(Next(s, steps[0]), steps[1..]);
    }
  }

  lemma {:induction false} StepConfigured(s: State, step: Step)
    requires Enabled(s, step) && Configured(s)
    ensures Configured(Next(s, step))
  {
  }

  /** The end of every plan for a primary. */
  lemma {:induction false} SpawnOpens(s: State, c: Config, d: Peer) returns (t: State)
    requires s.rest == [Spawn(d, true), Commit(c)] && s.running
    ensures Leads(s, t) && OpenFor(t, c, d)
  {
    var a := Did(Did(s));
    assert Started(a, d, true);
    t := Opens(a, d);
    LeadsByTwo(s, t);
  }

  /** A running primary gets another downstream. */
  lemma {:induction false} PrimaryChanges(s: State, c: Config, d: Peer) returns (t: State)
    requires s.rest == [Decide(Some(c))] && s.running && s.config.Some? && s.config.value.role == Primary
    requires c.role == Primary && c.downstream == Some(d)
    ensures Leads(s, t) && OpenFor(t, c, d)
  {
    var a := Did(s);
    assert a.rest == [Write(Conf(true, IdOf(d))), Reload, Spawn(d, true), Commit(c)];
    var b := Did(Did(a));
    assert b.rest == [Spawn(d, true), Commit(c)];
    t := SpawnOpens(b, c, d);
    LeadsByTwo(a, t);
    LeadsBy(s, Proceed, t);
  }

  /** A running process takes the role that it is asked for, unless the downstream alone is another. */
  lemma {:induction false} ComesToRole(s: State, c: Config) returns (t: State)
    requires s.rest == [Decide(Some(c))] && s.running && s.config.Some? && !IsNewDownstream(s.config, Some(c))
    requires s.config.value.role != Primary || c.role != Primary
    ensures Leads(s, t) && t == s.(rest := RoleTaken(s, c))
  {
    var a := Did(s);
    assert a == s.(rest := [DecideNew(Some(c))]);
    var b := Did(a);
    assert b == s.(rest := [TakeRole(c)]);
    t := Did(b);
    assert RoleTaken(b, c) + [] == RoleTaken(s, c);
    Does(b);
    LeadsByTwo(s, t);
  }

  /** A running sync becomes the primary. */
  lemma {:induction false} SyncIsPromoted(s: State, c: Config, d: Peer) returns (t: State)
    requires s.rest == [Decide(Some(c))] && s.running && s.config.Some? && s.config.value.role == Sync
    requires c.role == Primary && c.downstream == Some(d) && s.config.value.upstream != c.upstream
    ensures Leads(s, t) && OpenFor(t, c, d)
  {
    var a := ComesToRole(s, c);
    assert a.rest == [Outside, Spawn(d, true), Commit(c)];
    var b := Did(a);
    assert b.rest == [Spawn(d, true), Commit(c)];
    t := SpawnOpens(b, c, d);
    LeadsBy(a, Proceed, t);
    LeadsOn(s, a, t);
  }

  /** A stopped process gets to its role. */
  lemma {:induction false} GetsToRole(s: State, c: Config) returns (t: State)
    requires s.rest == [Close, Join, Forget, Decide(None)] && !s.running && s.config == Some(c)
    ensures Leads(s, t) && !t.running && t.synced == None && t.rest == RoleTaken(t, c) && !LiveLast(t.waiters)
  {
    var a := GetsToChoice(s, None);
    var b := Did(a);
    assert b.rest == [DecideNew(None)];
    var e := Did(b);
    assert e.rest == [TakeRole(c)];
    t := Did(e);
    assert t.rest == RoleTaken(e, c) + [] == RoleTaken(t, c);
    Does(e);
    LeadsByTwo(a, t);
    LeadsOn(s, a, t);
  }

  /** The plan that starts a primary, up to the waiter. */
  lemma {:induction false} LaunchesPrimary(s: State, conf: Conf, more: seq<Code>) returns (t: State)
    requires s.rest == [CheckStopped, Outside, Write(conf), Launch, SetUp] + more && !s.running
    ensures Leads(s, t) && t.rest == more && t.running && t.loaded == Some(conf) && t.synced == s.synced
  {
    var a := Did(s);
    assert a.rest == [Outside, Write(conf), Launch, SetUp] + more;
    var b := Did(a);
    assert b.rest == [Write(conf), Launch, SetUp] + more;
    t := Launches(b, conf, more);
    LeadsByTwo(s, t);
  }

  lemma {:induction false} Launches(s: State, conf: Conf, more: seq<Code>) returns (t: State)
    requires s.rest == [Write(conf), Launch, SetUp] + more
    ensures Leads(s, t) && t.rest == more && t.running && t.loaded == Some(conf) && t.synced == s.synced
  {
    var a := Did(s);
    assert a.rest == [Launch, SetUp] + more;
    var b := Did(a);
    assert b.rest == [SetUp] + more;
    t := Did(b);
    assert t.rest == more;
    Does(b);
    LeadsByTwo(s, t);
  }

  /** A stopped process starts as the primary. */
  lemma {:induction false} StartsPrimary(s: State, c: Config) returns (t: State)
    requires s.rest == [Close, Join, Forget, Decide(None)] && !s.running && s.config == Some(c) && c.role == Primary
    ensures Leads(s, t)
    ensures if c.downstream.Some? then OpenFor(t, c, c.downstream.value)
            else RunsAs(t, c) && t.loaded == Some(Conf(false, "")) && t.synced == None
  {
    var a := GetsToRole(s, c);
    var more := Waiting(c.downstream, true) + [Commit(c)];
    var b := LaunchesPrimary(a, Conf(c.downstream.Some?, ""), more);
    if c.downstream.Some? {
      t := SpawnOpens(b, c, c.downstream.value);
    } else {
      t := Did(b);
      Does(b);
    }
    LeadsOn(a, b, t);
    LeadsOn(s, a, t);
  }

  /** A primary as it is asked for: with a downstream, and no upstream. */
  predicate IsPrimaryOf(c: Config, d: Peer) {
    c == Config(Primary, None, Some(d))
  }

  /** It runs as sync or as primary, and not as configured here. */
  ghost predicate Becomes(s: State, c: Config) {
    && s.config.Some? && (s.config.value.role == Primary || s.config.value.role == Sync)
    && !(s.applied && s.config == Some(c))
  }

  ghost predicate ComesToOpen(s: State, c: Config, d: Peer) {
    exists t :: Leads(s, t) && OpenFor(t, c, d)
  }

  /** Asked to be the primary of a downstream, a process opens for it once the downstream has
      caught up: when it is started if it is stopped, and at once if it is running as sync or
      as primary, unless it is configured like that already. */
  lemma {:induction false} PrimaryOpens(steps: seq<Step>, singleton: bool, c: Config, d: Peer)
    requires IsRun(First(singleton), steps) && IsPrimaryOf(c, d) && EndOf(First(singleton), steps).rest == []
    ensures var s := EndOf(First(singleton), steps);
            && Enabled(s, Reconfigure(c))
            && var t := Next(s, Reconfigure(c));
               if !s.running then Enabled(t, Start) && ComesToOpen(Next(t, Start), c, d)
               else Becomes(s, c) ==> ComesToOpen(t, c, d)
  {
    RunKeeps(First(singleton), steps);
    var s := EndOf(First(singleton), steps);
    var t := Next(s, Reconfigure(c));
    if !s.running {
      var end := StartsPrimary(Next(t, Start), c);
    } else if Becomes(s, c) {
      RunningOpens(s, c, d);
    }
  }

  lemma {:induction false} RunningOpens(s: State, c: Config, d: Peer)
    requires Inv(s) && s.rest == [] && s.running && Becomes(s, c) && IsPrimaryOf(c, d)
    ensures ComesToOpen(Next(s, Reconfigure(c)), c, d)
  {
    var t := Next(s, Reconfigure(c));
    var a := GetsToChoice(t, Some(c));
    var b;
    if s.config.value.role == Primary {
      b := PrimaryChanges(a, c, d);
    } else {
      b := SyncIsPromoted(a, c, d);
    }
    LeadsOn(t, a, b);
  }

  /** A running async that is asked to be a primary gets to where the process panics. */
  lemma {:induction false} AsyncPanics(s: State, c: Config, d: Peer)
    requires Inv(s) && s.rest == [] && s.running && s.config.Some? && s.config.value.role == Async && IsPrimaryOf(c, d)
    ensures exists t :: Leads(Next(s, Reconfigure(c)), t) && t.rest != [] && t.rest[0].CheckStopped? && t.running
  {
    var a := GetsToChoice(Next(s, Reconfigure(c)), Some(c));
    var b := ComesToRole(a, c);
    LeadsOn(Next(s, Reconfigure(c)), a, b);
  }

  /** A singleton without a downstream is open when it was started. */
  lemma {:induction false} SingletonOpens(s: State, c: Config)
    requires s.rest == [] && !s.running && s.singleton && c == Config(Primary, None, None)
    ensures var t := Next(s, Reconfigure(c));
            Enabled(t, Start)
            && exists u :: Leads(Next(t, Start), u) && RunsAs(u, c) && u.loaded == Some(Conf(false, ""))
  {
    var u := StartsPrimary(Next(Next(s, Reconfigure(c)), Start), c);
  }

  /** STOP stops. */
  lemma {:induction false} Stops(s: State, more: seq<Code>) returns (t: State)
    requires s.rest == STOP + more
    ensures Leads(s, t) && !t.running && t.rest == more && t.config == s.config && t.applied == s.applied
    ensures t.singleton == s.singleton && !LiveLast(t.waiters)
  {
    assert s.rest == [Close, Join] + ([Kill] + more);
    var a := Cancels(s, [Kill] + more);
    t := Did(a);
    assert t.rest == more;
    Does(a);
    LeadsOn(s, a, t);
  }

  /** The end of every plan: the downstream, if there is one, is seen caught up. */
  lemma {:induction false} Watches(s: State, c: Config) returns (t: State)
    requires s.rest == Waiting(c.downstream, false) + [Commit(c)] && s.running
    ensures Leads(s, t) && RunsAs(t, c) && t.loaded == s.loaded
    ensures t.synced == if c.downstream.Some? then c.downstream else s.synced
  {
    if c.downstream.Some? {
      var d := c.downstream.value;
      assert s.rest == [Spawn(d, false), Commit(c)];
      var a := Did(Did(s));
      assert Started(a, d, false);
      t := Catches(a, d, false);
      LeadsByTwo(s, t);
    } else {
      assert s.rest == [Commit(c)];
      t := Did(s);
      Does(s);
    }
  }

  /** A standby that runs read-only; its downstream, if it has one, has caught up. */
  ghost predicate Follows(s: State, c: Config) {
    RunsAs(s, c) && s.loaded == Some(Conf(true, "")) && (c.downstream.Some? ==> s.synced == c.downstream)
  }

  lemma {:induction false} LaunchesStandby(s: State, c: Config) returns (t: State)
    requires s.rest == [Write(Conf(true, "")), Launch] + (Waiting(c.downstream, false) + [Commit(c)])
    ensures Leads(s, t) && Follows(t, c)
  {
    var end := Waiting(c.downstream, false) + [Commit(c)];
    var a := Did(s);
    assert a.rest == [Launch] + end;
    var b := Did(a);
    assert b.rest == end;
    t := Watches(b, c);
    LeadsByTwo(s, t);
  }

  lemma {:induction false} TakesStandby(s: State, c: Config) returns (t: State)
    requires s.rest == RoleTaken(s, c) && c.role != Primary
    ensures Leads(s, t) && Follows(t, c)
  {
    var more := [Write(Conf(true, "")), Launch] + (Waiting(c.downstream, false) + [Commit(c)]);
    var a;
    if s.running {
      assert s.rest == STOP + more;
      a := Stops(s, more);
    } else {
      assert s.rest == [Outside] + more;
      a := Did(s);
      assert a.rest == more;
      Does(s);
    }
    t := LaunchesStandby(a, c);
    LeadsOn(s, a, t);
  }

  /** A running process takes only another downstream. */
  lemma {:induction false} TakesDownstream(s: State, c: Config) returns (t: State)
    requires s.rest == [Decide(Some(c))] && s.running && c.role != Primary && IsNewDownstream(s.config, Some(c))
    ensures Leads(s, t) && RunsAs(t, c) && t.loaded == s.loaded && t.synced == c.downstream
  {
    var a := Did(s);
    assert a.rest == [DecideNew(Some(c))];
    var b := Did(a);
    assert b.rest == Waiting(c.downstream, false) + [Commit(c)];
    t := Watches(b, c);
    LeadsByTwo(s, t);
  }

  /** reconfigure has nothing to do: the configuration is the same, or an async becomes the sync
      of the same upstream. */
  ghost predicate NothingToDo(s: State, c: Config) {
    s.applied && s.config.Some?
    && (s.config.value == c
        || (s.config.value.role == Async && c.role == Sync && s.config.value.upstream.Some? && c.upstream.Some?
            && IdOf(s.config.value.upstream.value) == IdOf(c.upstream.value)))
  }

  /** Then it notes the configuration, and neither the database nor the waiter is disturbed. */
  lemma {:induction false} OnlyNoted(s: State, c: Config)
    requires Enabled(s, Reconfigure(c)) && s.running && NothingToDo(s, c)
    ensures Leads(Next(s, Reconfigure(c)), s.(config := Some(c), applied := true))
  {
    var t := Did(Next(s, Reconfigure(c)));
    Does(Next(s, Reconfigure(c)));
    assert t == s.(config := Some(c), applied := true);
  }

  ghost predicate ComesToFollow(s: State, c: Config) {
    exists t :: Leads(s, t) && Follows(t, c)
  }

  /** Asked to be a standby, a process comes to run read-only and to see its downstream caught
      up: when it is started if it is stopped, and at once if it is running, unless there is
      nothing to do, or the downstream alone is another: then the database goes on as it is. */
  lemma {:induction false} StandbyFollows(steps: seq<Step>, singleton: bool, c: Config)
    requires IsRun(First(singleton), steps) && EndOf(First(singleton), steps).rest == []
    requires (c.role == Sync || c.role == Async) && c.upstream.Some?
    ensures var s := EndOf(First(singleton), steps);
            var t := Next(s, Reconfigure(c));
            if !s.running then Enabled(t, Start) && ComesToFollow(Next(t, Start), c)
            else if NothingToDo(s, c) then Leads(t, s.(config := Some(c), applied := true))
            else if IsNewDownstream(s.config, Some(c)) then
              exists u :: Leads(t, u) && RunsAs(u, c) && u.synced == c.downstream
            else ComesToFollow(t, c)
  {
    RunConfigured(First(singleton), steps);
    var s := EndOf(First(singleton), steps);
    if !s.running {
      StartFollows(s, c);
    } else if NothingToDo(s, c) {
      OnlyNoted(s, c);
    } else {
      RunningFollows(s, c);
    }
  }

  lemma {:induction false} StartFollows(s: State, c: Config)
    requires s.rest == [] && !s.running && (c.role == Sync || c.role == Async) && c.upstream.Some?
    ensures var t := Next(s, Reconfigure(c));
            Enabled(t, Start) && ComesToFollow(Next(t, Start), c)
  {
    var t := Next(Next(s, Reconfigure(c)), Start);
    var a := GetsToRole(t, c);
    var u := TakesStandby(a, c);
    LeadsOn(t, a, u);
  }

  lemma {:induction false} RunningFollows(s: State, c: Config)
    requires s.rest == [] && (c.role == Sync || c.role == Async) && c.upstream.Some?
    requires s.running && s.config.Some? && !NothingToDo(s, c)
    ensures var t := Next(s, Reconfigure(c));
            if IsNewDownstream(s.config, Some(c)) then
              exists u :: Leads(t, u) && RunsAs(u, c) && u.synced == c.downstream
            else ComesToFollow(t, c)
  {
    var t := Next(s, Reconfigure(c));
    var a := GetsToChoice(t, Some(c));
    var u;
    if IsNewDownstream(s.config, Some(c)) {
      u := TakesDownstream(a, c);
    } else {
      var b := ComesToRole(a, c);
      u := TakesStandby(b, c);
      LeadsOn(a, b, u);
    }
    LeadsOn(t, a, u);
  }

  /** Stop comes to an end, and the database is stopped. */
  lemma {:induction false} StopStops(s: State)
    requires Enabled(s, Stop)
    ensures exists t :: Leads(Next(s, Stop), t) && t.rest == [] && !t.running && t.config == s.config
  {
    assert STOP + [] == STOP;
    var t := Stops(Next(s, Stop), []);
  }

  /** A start that fails after the daemon is up stops it again. */
  lemma {:induction false} FailedStartStops(s: State, cleanUp: bool)
    requires Enabled(s, Fail(cleanUp)) && (s.rest[0].SetUp? || (s.rest[0].Launch? && cleanUp))
    ensures exists t :: Leads(Next(s, Fail(cleanUp)), t) && t.rest == [] && !t.running && t.config == s.config
  {
    assert STOP + [] == STOP;
    var t := Stops(Next(s, Fail(cleanUp)), []);
  }
}
