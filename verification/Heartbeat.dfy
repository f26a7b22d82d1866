/** Registering a host with discoverd (host/discoverd.go): concurrent attempts race to
    register, one of them becomes the heartbeat, and the others close what they opened. */
module Heartbeat {
  import opened Options

  /** How far a call of heartbeat is. */
  datatype Phase =
    | Called
    | Registering              // no heartbeat was there; outside the lock
    | Registered               // before it takes the lock again
    | Returned(ok: bool)

  datatype State = State(
    attempts: seq<Phase>,
    current: Option<nat>,      // d.hb: the attempt whose registration it is
    open: set<nat>)            // registrations that are open, by attempt

  datatype Step =
    | Call
    | Look(id: nat)
    | Register(id: nat, ok: bool)
    | Commit(id: nat)
    | Close

  ghost predicate At(s: State, i: nat, p: Phase) {
    i < |s.attempts| && s.attempts[i] == p
  }

  ghost predicate Enabled(s: State, step: Step) {
    match step
    case Call => true
    case Look(i) => At(s, i, Called)
    case Register(i, _) => At(s, i, Registering)
    case Commit(i) => At(s, i, Registered)
    case Close => true
  }

  ghost function Next(s: State, step: Step): State
    requires Enabled(s, step)
  {
    match step
    case Call => s.(attempts := s.attempts + [Called])
    case Look(i) => s.(attempts := s.attempts[i := if s.current.Some? then Returned(true) else Registering])
    case Register(i, ok) =>
      if ok then s.(attempts := s.attempts[i := Registered], open := s.open + {i})
      else s.(attempts := s.attempts[i := Returned(false)])
    case Commit(i) =>
      if s.current.Some? then s.(attempts := s.attempts[i := Returned(true)], open := s.open - {i})
      else s.(attempts := s.attempts[i := Returned(true)], current := Some(i))
    case Close => if s.current.Some? then s.(current := None, open := s.open - {s.current.value}) else s
  }

  /** Open are the registrations of the attempts that have yet to take the lock again, and
      the current one. */
  ghost predicate Inv(s: State) {
    && (forall i :: i in s.open <==> At(s, i, Registered) || s.current == Some(i))
    && (s.current.Some? ==> At(s, s.current.value, Returned(true)))
  }

  lemma {:induction false} StepKeeps(s: State, step: Step)
    requires Inv(s) && Enabled(s, step)
    ensures Inv(Next(s, step))
  {
    var t := Next(s, step);
    forall i: nat
      ensures i in t.open <==> At(t, i, Registered) || t.current == Some(i)
    {
      assert i in s.open <==> At(s, i, Registered) || s.current == Some(i);
    }
  }

  ghost predicate IsRun(s: State, steps: seq<Step>)
    decreases |steps|
  {
    steps == [] || (Enabled(s, steps[0]) && IsRun(Next(s, steps[0]), steps[1..]))
  }

  ghost function EndOf(s: State, steps: seq<Step>): State
    requires IsRun(s, steps)
    decreases |steps|
  {
    if steps == [] then s else EndOf(Next(s, steps[0]), steps[1..])
  }

  lemma {:induction false} RunKeeps(s: State, steps: seq<Step>)
    requires Inv(s) && IsRun(s, steps)
    ensures Inv(EndOf(s, steps))
    decreases |steps|
  {
    if steps != [] {
      StepKeeps(s, steps[0]);
      RunKeeps(Next(s, steps[0]), steps[1..]);
    }
  }

  /** No attempt is under way. */
  ghost predicate AtRest(s: State) {
    forall i | 0 <= i < |s.attempts| :: s.attempts[i].Returned?
  }

  function First(): State {
    State([], None, {})
  }

  /** On every interleaving of attempts and Close: open are exactly the registrations of the
      attempts between registering and committing and the current one; so at rest at most
      one is open, the current one. */
  lemma {:induction false} LosersClose(steps: seq<Step>)
    requires IsRun(First(), steps)
    ensures var s := EndOf(First(), steps);
            && (forall i :: i in s.open <==> At(s, i, Registered) || s.current == Some(i))
            && (AtRest(s) ==> s.open == if s.current.Some? then {s.current.value} else {})
  {
    RunKeeps(First(), steps);
  }

  /** Without a Close the host is registered once some attempt returned without error. */
  lemma {:induction false} ConnectedUntilClosed(s: State, steps: seq<Step>, i: nat)
    requires IsRun(s, steps) && forall k | 0 <= k < |steps| :: !steps[k].Close?
    requires At(EndOf(s, steps), i, Returned(true)) && (At(s, i, Returned(true)) ==> s.current.Some?)
    ensures EndOf(s, steps).current.Some?
    decreases |steps|
  {
    if steps != [] {
      ConnectedUntilClosed(Next(s, steps[0]), steps[1..], i);
    }
  }

  /** The steps begin no new attempt. */
  ghost predicate NoCalls(steps: seq<Step>) {
    forall k | 0 <= k < |steps| :: !steps[k].Call?
  }

  /** After a Close with all attempts returned, nothing is open until somebody calls again. */
  lemma {:induction false} StaysClosed(s: State, steps: seq<Step>)
    requires Inv(s) && s.current.None? && AtRest(s) && NoCalls(steps) && IsRun(s, steps)
    ensures EndOf(s, steps) == s && s.open == {}
    decreases |steps|
  {
    assert s.open == {};
    if steps != [] {
      assert steps[0] == Close;
      StaysClosed(Next(s, steps[0]), steps[1..]);
    }
  }

  /** The attempt goes on and commits. */
  ghost function Win(s: State, i: nat): seq<Step>
    requires i < |s.attempts| && !s.attempts[i].Returned?
  {
    match s.attempts[i]
    case Called => [Look(i), Register(i, true), Commit(i)]
    case Registering => [Register(i, true), Commit(i)]
    case Registered => [Commit(i)]
    case Returned(_) => []
  }

  lemma {:induction false} MayReopen(s: State, i: nat)
    requires s.current.None? && i < |s.attempts| && !s.attempts[i].Returned?
    ensures var steps := Win(s, i);
            NoCalls(steps) && IsRun(s, steps) && EndOf(s, steps).current == Some(i)
  {
    match s.attempts[i]
    case Registered =>
      OneStep(s, Commit(i));
    case Registering =>
      var t := Next(s, Register(i, true));
      assert [Register(i, true), Commit(i)][1..] == [Commit(i)];
      OneStep(t, Commit(i));
    case Called =>
      var t := Next(s, Look(i));
      var u := Next(t, Register(i, true));
      assert [Look(i), Register(i, true), Commit(i)][1..] == [Register(i, true), Commit(i)];
      assert [Register(i, true), Commit(i)][1..] == [Commit(i)];
      OneStep(u, Commit(i));
  }

  lemma {:induction false} OneStep(s: State, step: Step)
    requires Enabled(s, step)
    ensures IsRun(s, [step]) && EndOf(s, [step]) == Next(s, step)
  {
    assert [step][1..] == [];
  }

  /** A Close is final, as long as nobody calls again, if and only if no attempt is under way. */
  lemma {:induction false} CloseIsFinalIff(s: State)
    requires Inv(s)
    ensures var t := Next(s, Close);
            AtRest(s) <==> forall steps | NoCalls(steps) && IsRun(t, steps) :: EndOf(t, steps).current.None?
  {
    var t := Next(s, Close);
    StepKeeps(s, Close);
    if AtRest(s) {
      forall steps | NoCalls(steps) && IsRun(t, steps)
        ensures EndOf(t, steps).current.None?
      {
        StaysClosed(t, steps);
      }
    } else {
      var i :| 0 <= i < |s.attempts| && !s.attempts[i].Returned?;
      MayReopen(t, i);
    }
  }

  /** ConnectPeer: the results of the attempts, one for each peer, in the order in which
      they come in. */
  datatype Result = Ok | Err(error: string)

  method ConnectPeer(connected: bool, results: seq<Result>) returns (r: Result, taken: nat)
    ensures connected ==> r == Ok && taken == 0
    ensures !connected ==> (r == Ok <==> Ok in results) && (results != [] && r.Err? ==> r == results[|results| - 1])
    ensures taken <= |results| && forall k | 0 <= k < taken - 1 :: results[k].Err?
  {
    taken := 0;
    if connected {
      return Ok, taken;
    }
    if |results| == 0 {
      return Err("host: no discoverd peers available"), taken;
    }
    r := results[0];
    while taken < |results|
      invariant taken <= |results| && forall k | 0 <= k < taken :: results[k].Err?
      invariant taken > 0 ==> r == results[taken - 1]
    {
      r := results[taken];
      taken := taken + 1;
      if r == Ok {
        return;
      }
    }
  }
}
