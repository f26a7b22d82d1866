/** The synced downstream that a process reports (appliance/postgresql/process.go): it was
    caught up, and it is the one that is waited for. */
module SyncedDownstream {
  import opened Options
  import opened SyncWaiter

  /** The synced downstream is the one of the latest waiter, which saw it caught up. */
  ghost predicate Reported(s: State) {
    s.synced.Some? ==>
      && s.waiters != [] && s.waiters[|s.waiters| - 1].inst == s.synced.value
      && HasCaughtUp(s.log, |s.waiters| - 1)
  }

  /** Before the code at k the synced downstream is forgotten, and before that a live waiter
      is waited for. */
  ghost predicate ForgottenBefore(rest: seq<Code>, k: nat, live: bool)
    requires k < |rest|
  {
    exists f :: 0 <= f < k && rest[f].Forget? && (live ==> exists j :: 0 <= j < f && rest[j].Join?)
  }

  /** A new waiter starts only after the synced downstream is forgotten. */
  ghost predicate Forgetting(rest: seq<Code>, live: bool, synced: bool) {
    live || synced ==>
      forall k {:trigger ForgottenBefore(rest, k, live)} | 0 <= k < |rest| && Risky(rest[k]) ::
        ForgottenBefore(rest, k, live)
  }

  ghost predicate True(s: State) {
    Reported(s) && Forgetting(s.rest, LiveLast(s.waiters), s.synced.Some?)
  }

  lemma {:induction false} CaughtUpStays(log: seq<Event>, e: Event, i: nat)
    requires HasCaughtUp(log, i)
    ensures HasCaughtUp(log + [e], i)
  {
    var pos :| Saw(i, pos, pos) in log;
    assert Saw(i, pos, pos) in log + [e];
  }

  /** A waiter that is no longer live, or a report that is gone, asks for less. */
  lemma {:induction false} ForgettingLess(rest: seq<Code>, live: bool, synced: bool, less: bool, fewer: bool)
    requires Forgetting(rest, live, synced) && (less ==> live) && (fewer ==> synced || live)
    ensures Forgetting(rest, less, fewer)
  {
    if less || fewer {
      forall k {:trigger ForgottenBefore(rest, k, less)} | 0 <= k < |rest| && Risky(rest[k])
        ensures ForgottenBefore(rest, k, less)
      {
        assert ForgottenBefore(rest, k, live);
      }
    }
  }

  lemma {:induction false} ForgettingTail(rest: seq<Code>, live: bool, synced: bool)
    requires rest != [] && Forgetting(rest, live, synced)
    ensures Forgetting(rest[1..], live && !rest[0].Join?, synced && !rest[0].Forget?)
    ensures Risky(rest[0]) ==> !live && !synced
  {
    var tail, live', synced' := rest[1..], live && !rest[0].Join?, synced && !rest[0].Forget?;
    if live || synced {
      assert Risky(rest[0]) ==> ForgottenBefore(rest, 0, live);
    }
    if live' || synced' {
      forall k {:trigger ForgottenBefore(tail, k, live')} | 0 <= k < |tail| && Risky(tail[k])
        ensures ForgottenBefore(tail, k, live')
      {
        assert ForgottenBefore(rest, k + 1, live);
        var f :| 0 <= f < k + 1 && rest[f].Forget? && (live ==> exists j :: 0 <= j < f && rest[j].Join?);
        if live' {
          var j :| 0 <= j < f && rest[j].Join?;
          assert tail[j - 1].Join? && tail[f - 1].Forget?;
        } else {
          assert tail[f - 1].Forget?;
        }
      }
    }
  }

  /** A waiter goes on. */
  lemma {:induction false} MoveTrue(s: State, i: nat, pc: WaiterPc)
    requires True(s) && Inv(s) && i < |s.waiters| && s.waiters[i].pc != Ended
    ensures True(Move(s, i, pc))
  {
    var t := Move(s, i, pc);
    assert i == |s.waiters| - 1;
    ForgettingLess(s.rest, LiveLast(s.waiters), s.synced.Some?, LiveLast(t.waiters), s.synced.Some?);
    if s.synced.Some? && pc == Ended {
      CaughtUpStays(s.log, Over(i), i);
    }
  }

  lemma {:induction false} MoreTrue(s: State, e: Event)
    requires True(s)
    ensures True(s.(log := s.log + [e]))
  {
    if s.synced.Some? {
      CaughtUpStays(s.log, e, |s.waiters| - 1);
    }
  }

  /** A waiter reports the downstream that it saw caught up. */
  lemma {:induction false} NoteTrue(s: State, i: nat)
    requires True(s) && Inv(s) && At(s, i, CaughtUp)
    ensures True(Next(s, Note(i)))
  {
    assert i == |s.waiters| - 1;
    assert Story(s.waiters[i], i, s.log);
    var t := s.(synced := Some(s.waiters[i].inst));
    ForgettingLess(s.rest, true, s.synced.Some?, true, true);
    MoveTrue(t, i, if s.waiters[i].enableWrites then Opening else Ended);
  }

  lemma {:induction false} WaiterTrue(s: State, step: Step)
    requires True(s) && Inv(s) && Enabled(s, step)
    requires (step.Check? || step.Query? || step.Wake? || step.Open? || step.Signal?)
    ensures True(Next(s, step))
  {
    var i := step.id;
    match step
    case Check(_) => MoveTrue(s, i, if s.waiters[i].stop then Ended else Querying);
    case Wake(_, timer) => MoveTrue(s, i, if timer then Looping else Ended);
    case Signal(_, ok) => MoveTrue(if ok then s.(loaded := s.conf) else s, i, Ended);
    case Open(_, ok) => OpenTrue(s, i, ok);
    case Query(_, result, giveUp) => QueryTrue(s, i, result, giveUp);
  }

  lemma {:induction false} OpenTrue(s: State, i: nat, ok: bool)
    requires True(s) && Inv(s) && At(s, i, Opening)
    ensures True(Next(s, Open(i, ok)))
  {
    assert i == |s.waiters| - 1;
    if ok {
      var e := Wrote(Goroutine(i), Conf(false, IdOf(s.waiters[i].inst)));
      MoreTrue(s, e);
      var t := Next(s, Open(i, ok));
      ForgettingLess(s.rest, true, s.synced.Some?, true, s.synced.Some?);
      assert t.waiters[i].inst == s.waiters[i].inst && t.log == s.log + [e];
    } else {
      MoveTrue(s, i, Ended);
    }
  }

  lemma {:induction false} QueryTrue(s: State, i: nat, result: Option<(string, string)>, giveUp: bool)
    requires True(s) && Inv(s) && At(s, i, Querying)
    ensures True(Queried(s, i, result, giveUp))
  {
    match result
    case None => MoveTrue(s, i, Sleeping);
    case Some((sent, flushed)) =>
      assert i == |s.waiters| - 1;
      var e := Saw(i, sent, flushed);
      MoreTrue(s, e);
      MoreKeeps(s, e);
      MoveTrue(s.(log := s.log + [e]), i, if giveUp then Ended else if sent == flushed then CaughtUp else Sleeping);
  }

  lemma {:induction false} SpawnTrue(s: State)
    requires True(s) && Inv(s) && s.rest != [] && s.rest[0].Spawn?
    ensures True(Did(s))
  {
    ForgettingTail(s.rest, LiveLast(s.waiters), s.synced.Some?);
    GuardedTail(s.rest, LiveLast(s.waiters));
    assert Guarded(s.rest[1..], true);
    NoMoreRisky(s.rest);
  }

  lemma {:induction false} NoMoreRisky(rest: seq<Code>)
    requires rest != [] && Risky(rest[0]) && Guarded(rest, false)
    ensures forall live, synced :: Forgetting(rest[1..], live, synced)
  {
    forall k | 0 <= k < |rest[1..]|
      ensures !Risky(rest[1..][k])
    {
      assert rest[1..][k] == rest[k + 1];
    }
  }

  lemma {:induction false} ProceedTrue(s: State)
    requires True(s) && Inv(s) && Enabled(s, Proceed)
    ensures True(Did(s))
  {
    match s.rest[0]
    case Spawn(_, _) => SpawnTrue(s);
    case Close => CloseTrue(s);
    case Join => JoinTrue(s);
    case Write(conf) =>
      ForgettingTail(s.rest, LiveLast(s.waiters), s.synced.Some?);
      MoreTrue(s, Wrote(Method, conf));
    case Decide(_) => ChoiceTrue(s);
    case DecideNew(_) => ChoiceTrue(s);
    case TakeRole(_) => ChoiceTrue(s);
    case _ => QuietTrue(s);
  }

  /** A method chooses only when nothing is live and nothing reported. */
  lemma {:induction false} ChoiceTrue(s: State)
    requires True(s) && s.rest != [] && (s.rest[0].Decide? || s.rest[0].DecideNew? || s.rest[0].TakeRole?)
    ensures True(Did(s))
  {
    ForgettingTail(s.rest, LiveLast(s.waiters), s.synced.Some?);
  }

  lemma {:induction false} QuietTrue(s: State)
    requires True(s) && s.rest != [] && !Risky(s.rest[0])
    requires !s.rest[0].Close? && !s.rest[0].Join? && !s.rest[0].Write?
    ensures True(Did(s))
  {
    ForgettingTail(s.rest, LiveLast(s.waiters), s.synced.Some?);
  }

  lemma {:induction false} CloseTrue(s: State)
    requires True(s) && s.rest != [] && s.rest[0].Close?
    ensures True(Did(s))
  {
    ForgettingTail(s.rest, LiveLast(s.waiters), s.synced.Some?);
    assert LiveLast(Did(s).waiters) == LiveLast(s.waiters);
  }

  lemma {:induction false} JoinTrue(s: State)
    requires True(s) && Enabled(s, Proceed) && s.rest[0].Join?
    ensures True(Did(s))
  {
    ForgettingTail(s.rest, LiveLast(s.waiters), s.synced.Some?);
    if s.waiters != [] && s.synced.Some? {
      CaughtUpStays(s.log, Cancelled(|s.waiters| - 1), |s.waiters| - 1);
    }
  }

  lemma {:induction false} PlansForget(c: Option<Config>, live: bool, synced: bool)
    ensures Forgetting([Close, Join, Forget, Decide(c)], live, synced) && Forgetting(STOP, live, synced)
    ensures Forgetting([], live, synced)
  {
    var plan := [Close, Join, Forget, Decide(c)];
    assert plan[1].Join? && plan[2].Forget?;
    assert ForgottenBefore(plan, 3, live);
  }

  lemma {:induction false} MethodTrue(s: State, step: Step)
    requires True(s) && Enabled(s, step)
    requires (step.Reconfigure? || step.Start? || step.Stop? || step.Crash? || step.Fail?)
    ensures True(Next(s, step))
  {
    PlansForget(if step.Reconfigure? then Some(step.config) else None, LiveLast(s.waiters), s.synced.Some?);
    assert step.Reconfigure? ==> Forgetting([Commit(step.config)], LiveLast(s.waiters), s.synced.Some?);
  }

  lemma {:induction false} StepTrue(s: State, step: Step)
    requires True(s) && Inv(s) && Enabled(s, step)
    ensures True(Next(s, step))
  {
    match step
    case Proceed => ProceedTrue(s);
    case Note(i) => NoteTrue(s, i);
    case Check(_) => WaiterTrue(s, step);
    case Query(_, _, _) => WaiterTrue(s, step);
    case Wake(_, _) => WaiterTrue(s, step);
    case Open(_, _) => WaiterTrue(s, step);
    case Signal(_, _) => WaiterTrue(s, step);
    case _ => MethodTrue(s, step);
  }

  lemma {:induction false} RunTrue(s: State, steps: seq<Step>)
    requires True(s) && Inv(s) && IsRun(s, steps)
    ensures True(EndOf(s, steps))
    decreases |steps|
  {
    if steps != [] {
      StepTrue(s, steps[0]);
      StepKeeps(s, steps[0]);
      RunTrue(Next(s, steps[0]), steps[1..]);
    }
  }

  /** On every interleaving, a downstream is reported as synced only if the latest waiter was
      started for it and saw that everything sent to it was flushed. */
  lemma {:induction false} SyncedIsCaughtUp(singleton: bool, steps: seq<Step>)
    requires IsRun(First(singleton), steps)
    ensures Reported(EndOf(First(singleton), steps))
  {
    RunTrue(First(singleton), steps);
  }
}
