/** All runs of the build loop: what every reachable state satisfies, that every run is
    finite, and how a run can end. */
module BuildRuns {
  import opened Collections
  import opened BuildGraph
  import opened BuildMachine

  /** A send to `done` always finds room. */
  lemma {:induction false} SendsNeverBlock(s: State, i: string)
    requires Inv(s) && i in s.phase && s.phase[i] != Sent
    ensures |s.done| < |s.deps|
  {
    forall a | 0 <= a < |s.done|
      ensures s.done[a] in s.deps.Keys - {i}
    {
      assert s.done[a] in s.done;
    }
    DistinctFit(s.done, s.deps.Keys - {i});
  }

  /** At most `limit` BuildImage calls run at once. */
  lemma {:induction false} AtMostLimit(s: State)
    requires Inv(s)
    ensures |set i | i in s.phase && s.phase[i] == Building| <= s.limit
  {
    var building := set i | i in s.phase && s.phase[i] == Building;
    assert forall i | i in building :: At(s.phase, i, Building);
    assert building <= s.held;
    var rest := s.held - building;
    assert s.held == building + rest;
  }

  /** Nothing is left to happen. */
  ghost predicate Stuck(s: State) {
    forall step :: !Enabled(s, step)
  }

  /** After a scan, pending builds of which none is under way wait for one another. */
  lemma {:induction false} AllIdleIsCyclic(s: State)
    requires Inv(s) && s.left == {} && !s.Finished() && forall i | i in Unreceived(s.phase) :: At(s.phase, i, Idle)
    ensures Cyclic(s.deps)
  {
    forall i | i in Unreceived(s.phase)
      ensures s.deps[i] * Unreceived(s.phase) != {}
    {
      assert WaitsAt(s.deps, s.waits, s.phase, s.left, i);
      var d :| d in s.waits[i];
      assert d in s.deps[i] * Unreceived(s.phase);
    }
    NoWayOut(s.deps, Unreceived(s.phase));
  }

  /** A loop that is stuck before its end waits for a cycle of dependencies. */
  lemma {:induction false} StuckIsCyclic(s: State)
    requires Inv(s) && Stuck(s) && s.limit >= 1 && !s.Finished()
    ensures Cyclic(s.deps)
  {
    assert forall i :: i in s.left ==> Enabled(s, Visit(i));
    assert s.left == {} && (s.done != [] ==> Enabled(s, Receive(s.done[0])));
    NoneHeld(s);
    forall i | i in Unreceived(s.phase)
      ensures At(s.phase, i, Idle)
    {
      assert !Enabled(s, Acquire(i)) && !Enabled(s, Finish(i, true));
      assert i !in s.done && s.phase[i] != Sent;
      SendsNeverBlock(s, i);
      assert !Enabled(s, Send(i));
    }
    AllIdleIsCyclic(s);
  }

  lemma {:induction false} NoneHeld(s: State)
    requires Inv(s) && Stuck(s)
    ensures s.held == {}
  {
    forall i
      ensures i !in s.held
    {
      assert !Enabled(s, Finish(i, true)) && !Enabled(s, Send(i)) && !Enabled(s, Release(i));
      if i in s.phase && s.phase[i] != Sent {
        SendsNeverBlock(s, i);
      }
      assert i in s.held ==> Past(s.phase, i, 2);
    }
  }

  /** The position of an image's completion in the log. */
  ghost function IndexIn(log: seq<Event>, e: Event): (k: int)
    ensures e in log ==> 0 <= k < |log| && log[k] == e
  {
    if e in log then var k :| 0 <= k < |log| && log[k] == e; k else -1
  }

  /** A loop that ends has no cycle of dependencies. */
  lemma {:induction false} FinishedIsAcyclic(s: State)
    requires Inv(s) && s.Finished()
    ensures !Cyclic(s.deps)
  {
    var rank := map i | i in s.deps :: IndexIn(s.log, Completed(i));
    forall i, d | i in s.deps && d in s.deps[i]
      ensures d in rank && rank[d] < rank[i]
    {
      assert i !in Unreceived(s.phase) && d !in Unreceived(s.phase);
      assert Completed(i) in s.log && Completed(d) in s.log;
      var a, b := rank[i], rank[d];
      assert Timely(s.deps, s.log[..a], s.log[a]);
      var c :| 0 <= c < a && s.log[..a][c] == Completed(d);
      assert s.log[c] == s.log[b];
    }
    RankedIsAcyclic(s.deps, rank);
  }

  /** Some image that i depends on failed. */
  ghost predicate HasFailedBelow(s: State, i: string) {
    exists j :: j in s.failed && Reaches(s.deps, i, j)
  }

  lemma {:induction false} AbortHasCause(s: State, i: string, a: nat)
    requires Inv(s) && i in s.abort && a <= |s.log|
    requires forall d | i in s.deps && d in s.deps[i] && At(s.phase, d, Received) :: Completed(d) in s.log[..a]
    ensures HasFailedBelow(s, i)
    decreases a
  {
    assert HasBad(s.deps, s.phase, s.failed, s.abort, i);
    var d :| d in s.deps[i] && Bad(s.phase, s.failed, s.abort, d);
    if d in s.failed {
      ReachesOne(s.deps, i, d);
    } else {
      var b :| 0 <= b < a && s.log[..a][b] == Completed(d);
      assert Timely(s.deps, s.log[..b], s.log[b]);
      AbortHasCause(s, d, b);
      var j :| j in s.failed && Reaches(s.deps, d, j);
      ReachesMore(s.deps, i, d, j);
    }
  }

  lemma {:induction false} FailureAborts(s: State, i: string, j: string, n: nat)
    requires Inv(s) && Past(s.phase, i, 1) && j in s.failed && ReachesIn(s.deps, i, j, n)
    ensures i in s.abort
    decreases n
  {
    var d := j;
    if j !in s.deps[i] {
      d :| d in s.deps[i] && ReachesIn(s.deps, d, j, n - 1);
      StartedIsReady(s, i, d);
      FailureAborts(s, d, j, n - 1);
    }
    StartedIsReady(s, i, d);
    assert Bad(s.phase, s.failed, s.abort, d);
    assert HasBad(s.deps, s.phase, s.failed, s.abort, i);
  }

  /** A started build is skipped as aborted exactly when an image that it depends on,
      directly or not, failed. */
  lemma {:induction false} AbortedIffFailedBelow(s: State, i: string)
    requires Inv(s) && Past(s.phase, i, 1)
    ensures i in s.abort <==> HasFailedBelow(s, i)
  {
    if i in s.abort {
      assert s.log[..|s.log|] == s.log;
      AbortHasCause(s, i, |s.log|);
    }
    if HasFailedBelow(s, i) {
      var j :| j in s.failed && Reaches(s.deps, i, j);
      var n: nat :| ReachesIn(s.deps, i, j, n);
      FailureAborts(s, i, j, n);
    }
  }

  /** The builds before a phase. */
  ghost function Before(phase: Phases, k: nat): set<string> {
    set i | i in phase && Level(phase[i]) < k
  }

  ghost function Distance(phase: Phases): nat {
    |Before(phase, 1)| + |Before(phase, 2)| + |Before(phase, 3)| + |Before(phase, 4)| + |Before(phase, 5)|
  }

  ghost function Weight(n: nat, distance: nat, pending: nat, left: nat, held: nat): nat {
    2 * distance + (n + 1) * pending + left + held
  }

  /** How many steps are left at most. */
  ghost function Measure(s: State): nat {
    Weight(|s.deps|, Distance(s.phase), |Unreceived(s.phase)|, |s.left|, |s.held|)
  }

  lemma {:induction false} BeforeMove(phase: Phases, i: string, p: Phase, k: nat)
    requires i in phase && Level(phase[i]) < Level(p)
    ensures |Before(phase[i := p], k)| == |Before(phase, k)| - (if Level(phase[i]) < k <= Level(p) then 1 else 0)
  {
    if Level(phase[i]) < k <= Level(p) {
      assert Before(phase[i := p], k) == Before(phase, k) - {i};
    } else {
      assert Before(phase[i := p], k) == Before(phase, k);
    }
  }

  lemma {:induction false} DistanceFalls(phase: Phases, i: string, p: Phase)
    requires i in phase && Level(phase[i]) < Level(p)
    ensures Distance(phase[i := p]) <= Distance(phase) - 1
    ensures |Unreceived(phase[i := p])| == |Unreceived(phase)| - (if p == Received then 1 else 0)
  {
    BeforeMove(phase, i, p, 1);
    BeforeMove(phase, i, p, 2);
    BeforeMove(phase, i, p, 3);
    BeforeMove(phase, i, p, 4);
    BeforeMove(phase, i, p, 5);
    assert Unreceived(phase) == Before(phase, 5) && Unreceived(phase[i := p]) == Before(phase[i := p], 5);
  }

  lemma {:induction false} WeightDrops(n: nat, less: nat, distance: nat, pending: nat, fewer: nat, left: nat,
                                       more: nat, held: nat)
    requires less < distance && fewer <= left && more <= held + 1
    ensures Weight(n, less, pending, fewer, more) < Weight(n, distance, pending, left, held)
  {
  }

  /** A build moves on, short of being received. */
  lemma {:induction false} MoveFalls(s: State, i: string, p: Phase, fewer: nat, more: nat)
    requires i in s.phase && Level(s.phase[i]) < Level(p) && p != Received && fewer <= |s.left| && more <= |s.held| + 1
    ensures Weight(|s.deps|, Distance(s.phase[i := p]), |Unreceived(s.phase[i := p])|, fewer, more) < Measure(s)
  {
    DistanceFalls(s.phase, i, p);
    WeightDrops(|s.deps|, Distance(s.phase[i := p]), Distance(s.phase), |Unreceived(s.phase)|, fewer, |s.left|,
                more, |s.held|);
  }

  /** Every step brings the end closer. */
  lemma {:induction false} StepFalls(s: State, step: Step)
    requires Inv(s) && Enabled(s, step)
    ensures Measure(Next(s, step)) < Measure(s)
  {
    match step
    case Visit(i) => VisitFalls(s, i);
    case Acquire(i) => AcquireFalls(s, i);
    case Finish(i, ok) => FinishFalls(s, i, ok);
    case Send(i) => SendFalls(s, i);
    case Release(i) => ReleaseFalls(s, i);
    case Receive(i) => ReceiveFalls(s, i);
  }

  lemma {:induction false} AcquireFalls(s: State, i: string)
    requires Inv(s) && Enabled(s, Acquire(i))
    ensures Measure(Next(s, Acquire(i))) < Measure(s)
  {
    MoveFalls(s, i, Building, |s.left|, |s.held + {i}|);
  }

  lemma {:induction false} FinishFalls(s: State, i: string, ok: bool)
    requires Inv(s) && Enabled(s, Finish(i, ok))
    ensures Measure(Next(s, Finish(i, ok))) < Measure(s)
  {
    MoveFalls(s, i, Built, |s.left|, |s.held|);
  }

  lemma {:induction false} SendFalls(s: State, i: string)
    requires Inv(s) && Enabled(s, Send(i))
    ensures Measure(Next(s, Send(i))) < Measure(s)
  {
    MoveFalls(s, i, Sent, |s.left|, |s.held|);
  }

  lemma {:induction false} ReleaseFalls(s: State, i: string)
    requires Inv(s) && Enabled(s, Release(i))
    ensures Measure(Next(s, Release(i))) < Measure(s)
  {
    assert |s.held - {i}| == |s.held| - 1;
  }

  lemma {:induction false} VisitFalls(s: State, i: string)
    requires Inv(s) && Enabled(s, Visit(i))
    ensures Measure(Next(s, Visit(i))) < Measure(s)
  {
    if s.waits[i] == {} && s.phase[i] == Idle {
      MoveFalls(s, i, if i in s.abort then Sent else Queued, |s.left - {i}|, |s.held|);
    }
  }

  lemma {:induction false} ReceiveFalls(s: State, i: string)
    requires Inv(s) && Enabled(s, Receive(i))
    ensures Measure(Next(s, Receive(i))) < Measure(s)
  {
    var phase := s.phase[i := Received];
    assert i in s.done && At(s.phase, i, Sent);
    DistanceFalls(s.phase, i, Received);
    SubsetSize(Unreceived(phase), s.deps.Keys);
    WeightFalls(|s.deps|, Distance(phase), Distance(s.phase), |Unreceived(s.phase)|, |Unreceived(phase)|, |s.held|);
  }

  lemma {:induction false} WeightFalls(n: nat, less: nat, distance: nat, pending: nat, left: nat, held: nat)
    requires less <= distance && pending > 0 && left <= n
    ensures Weight(n, less, pending - 1, left, held) < Weight(n, distance, pending, 0, held)
  {
    assert (n + 1) * (pending - 1) == (n + 1) * pending - (n + 1);
  }

  /** The steps can happen one after the other. */
  ghost predicate IsRun(s: State, steps: seq<Step>)
    decreases |steps|
  {
    steps == [] || (Enabled(s, steps[0]) && IsRun(Next(s, steps[0]), steps[1..]))
  }

  ghost function EndOf(s: State, steps: seq<Step>): (end: State)
    requires IsRun(s, steps)
    ensures end.deps == s.deps && end.limit == s.limit
    decreases |steps|
  {
    if steps == [] then s else EndOf(Next(s, steps[0]), steps[1..])
  }

  /** Every run keeps the invariant. */
  lemma {:induction false} RunKeeps(s: State, steps: seq<Step>)
    requires Inv(s) && IsRun(s, steps)
    ensures Inv(EndOf(s, steps))
    decreases |steps|
  {
    if steps != [] {
      StepKeeps(s, steps[0]);
      RunKeeps(Next(s, steps[0]), steps[1..]);
    }
  }

  /** Every run is finite. */
  lemma {:induction false} RunsEnd(s: State, steps: seq<Step>)
    requires Inv(s) && IsRun(s, steps)
    ensures |steps| + Measure(EndOf(s, steps)) <= Measure(s)
    decreases |steps|
  {
    if steps != [] {
      StepKeeps(s, steps[0]);
      StepFalls(s, steps[0]);
      RunsEnd(Next(s, steps[0]), steps[1..]);
    }
  }

  lemma {:induction false} RunSnoc(s: State, steps: seq<Step>, step: Step)
    requires IsRun(s, steps) && Enabled(EndOf(s, steps), step)
    ensures IsRun(s, steps + [step]) && EndOf(s, steps + [step]) == Next(EndOf(s, steps), step)
    decreases |steps|
  {
    if steps == [] {
      assert steps + [step] == [step] && [step][1..] == [];
    } else {
      assert (steps + [step])[0] == steps[0] && (steps + [step])[1..] == steps[1..] + [step];
      RunSnoc(Next(s, steps[0]), steps[1..], step);
    }
  }

  /** Some run leads from the start to the state. */
  ghost predicate Reachable(s: State) {
    Closed(s.deps) && exists steps :: IsRun(Start(s.deps, s.limit), steps) && EndOf(Start(s.deps, s.limit), steps) == s
  }

  lemma {:induction false} ReachableInv(s: State)
    requires Reachable(s)
    ensures Inv(s)
  {
    var steps :| IsRun(Start(s.deps, s.limit), steps) && EndOf(Start(s.deps, s.limit), steps) == s;
    StartInv(s.deps, s.limit);
    RunKeeps(Start(s.deps, s.limit), steps);
  }

  lemma {:induction false} ReachableStart(deps: Graph, limit: nat)
    requires Closed(deps)
    ensures Reachable(Start(deps, limit))
  {
    assert IsRun(Start(deps, limit), []);
  }

  /** Steps lead from reachable states to reachable states, closer to the end. */
  lemma {:induction false} ReachableNext(s: State, step: Step)
    requires Reachable(s) && Enabled(s, step)
    ensures Reachable(Next(s, step)) && Measure(Next(s, step)) < Measure(s)
  {
    var steps :| IsRun(Start(s.deps, s.limit), steps) && EndOf(Start(s.deps, s.limit), steps) == s;
    RunSnoc(Start(s.deps, s.limit), steps, step);
    ReachableInv(s);
    StepFalls(s, step);
  }

  /** On every interleaving: once nothing can happen any more, the loop has ended if
      and only if no image depends on itself. */
  lemma {:induction false} EndsIffAcyclic(s: State)
    requires Reachable(s) && s.limit >= 1 && Stuck(s)
    ensures s.Finished() <==> !Cyclic(s.deps)
  {
    ReachableInv(s);
    if s.Finished() {
      FinishedIsAcyclic(s);
    } else {
      StuckIsCyclic(s);
    }
  }

  /** When the loop has ended, every image completed, each event happened once and in
      time, and an image was skipped exactly when one that it depends on failed. */
  lemma {:induction false} EndedWell(s: State, i: string)
    requires Reachable(s) && s.Finished() && i in s.deps
    ensures Completed(i) in s.log && InTime(s.deps, s.log)
    ensures Began(i) !in s.log <==> HasFailedBelow(s, i)
    ensures i in s.failed <==> Ended(i, false) in s.log
    ensures Began(i) in s.log ==> Ended(i, i !in s.failed) in s.log
  {
    ReachableInv(s);
    assert i !in Unreceived(s.phase) && At(s.phase, i, Received) && Past(s.phase, i, 2) && Past(s.phase, i, 3);
    AbortedIffFailedBelow(s, i);
  }

  /** While builds are pending, and no image depends on itself, a completed scan leaves
      some build in flight or in the channel; and never are more than `limit` BuildImage
      calls running. */
  lemma {:induction false} SomeInFlight(s: State)
    requires Reachable(s)
    ensures s.left == {} && !s.Finished() && !Cyclic(s.deps) ==>
              exists i :: i in Unreceived(s.phase) && s.phase[i] != Idle
    ensures |set i | i in s.phase && s.phase[i] == Building| <= s.limit
  {
    ReachableInv(s);
    AtMostLimit(s);
    if s.left == {} && !s.Finished() && forall i | i in Unreceived(s.phase) :: At(s.phase, i, Idle) {
      AllIdleIsCyclic(s);
    }
  }

  /** The images inside BuildImage after some events. */
  ghost function Inside(past: seq<Event>): set<string> {
    if past == [] then {}
    else
      var before, last := Inside(past[..|past| - 1]), past[|past| - 1];
      match last
      case Began(i) => before + {i}
      case Ended(i, _) => before - {i}
      case Completed(_) => before
  }

  /** At no time are more than `limit` images inside BuildImage. */
  ghost predicate Spaced(log: seq<Event>, limit: nat) {
    log == [] || (Spaced(log[..|log| - 1], limit) && |Inside(log)| <= limit)
  }

  /** Who is inside began and has not ended. */
  lemma {:induction false} InsideAre(deps: Graph, log: seq<Event>, i: string)
    requires InTime(deps, log) && i in Inside(log)
    ensures Began(i) in log && Ended(i, true) !in log && Ended(i, false) !in log
  {
    var init, last := log[..|log| - 1], log[|log| - 1];
    assert log == init + [last];
    InTimeInit(deps, log);
    if last == Began(i) {
      NotEndedYet(deps, log, i, true);
      NotEndedYet(deps, log, i, false);
    } else {
      InsideAre(deps, init, i);
    }
  }

  lemma {:induction false} NotEndedYet(deps: Graph, log: seq<Event>, i: string, ok: bool)
    requires InTime(deps, log) && log != [] && log[|log| - 1] == Began(i)
    ensures Ended(i, ok) !in log
  {
    forall k | 0 <= k < |log|
      ensures log[k] != Ended(i, ok)
    {
      assert Timely(deps, log[..k], log[k]);
      assert forall j | 0 <= j < k :: log[..k][j] == log[j] && log[j] != log[|log| - 1];
    }
  }

  lemma {:induction false} InTimeInit(deps: Graph, log: seq<Event>)
    requires InTime(deps, log) && log != []
    ensures InTime(deps, log[..|log| - 1])
  {
    var init := log[..|log| - 1];
    forall a {:trigger init[a]} | 0 <= a < |init|
      ensures Timely(deps, init[..a], init[a])
    {
      assert init[a] == log[a] && init[..a] == log[..a];
    }
  }

  lemma {:induction false} FewInside(s: State)
    requires Inv(s)
    ensures |Inside(s.log)| <= s.limit
  {
    forall i | i in Inside(s.log)
      ensures i in s.held
    {
      InsideAre(s.deps, s.log, i);
      assert Past(s.phase, i, 2) && !Past(s.phase, i, 3);
    }
    SubsetSize(Inside(s.log), s.held);
  }

  lemma {:induction false} SpacedStep(s: State, step: Step)
    requires Inv(s) && Enabled(s, step) && Spaced(s.log, s.limit)
    ensures Spaced(Next(s, step).log, s.limit)
  {
    StepKeeps(s, step);
    FewInside(Next(s, step));
    LogGrows(s, step);
  }

  lemma {:induction false} LogGrows(s: State, step: Step)
    requires Enabled(s, step)
    ensures var log := Next(s, step).log;
            log == s.log || (log != [] && log[..|log| - 1] == s.log)
  {
  }

  lemma {:induction false} RunSpaced(s: State, steps: seq<Step>)
    requires Inv(s) && IsRun(s, steps) && Spaced(s.log, s.limit)
    ensures Spaced(EndOf(s, steps).log, s.limit)
    decreases |steps|
  {
    if steps != [] {
      SpacedStep(s, steps[0]);
      StepKeeps(s, steps[0]);
      RunSpaced(Next(s, steps[0]), steps[1..]);
    }
  }

  /** On every run, at every moment of its history, at most `limit` BuildImage calls run. */
  lemma {:induction false} NeverCrowded(s: State)
    requires Reachable(s)
    ensures Spaced(s.log, s.limit)
  {
    var steps :| IsRun(Start(s.deps, s.limit), steps) && EndOf(Start(s.deps, s.limit), steps) == s;
    StartInv(s.deps, s.limit);
    RunSpaced(Start(s.deps, s.limit), steps);
  }
}
