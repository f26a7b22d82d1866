/** Draining backends (router/http.go): a service counts the requests in flight to each of
    its backends, and says that a backend is drained after a check that found none. Every
    method is one critical section; any order of calls is an interleaving. */
module Drain {
  import opened Collections

  /** How far the handling of a backend that went down is. */
  datatype Phase =
    | Checking               // about to look at the count
    | Sleeping               // in cond.Wait
    | Ready                  // found the count at zero
    | Drained                // has sent the drained event

  datatype Drainer = Drainer(backend: string, phase: Phase)

  datatype Event =
    | Checked(id: nat, backend: string, idle: bool)   // idle: nothing was counted as in flight
    | SentDrained(id: nat, backend: string)

  /** Broadcast wakes everybody who sleeps. */
  ghost predicate Woken(before: seq<Drainer>, after: seq<Drainer>) {
    |after| == |before| && forall i | 0 <= i < |before| ::
      after[i] == if before[i].phase == Sleeping then before[i].(phase := Checking) else before[i]
  }

  /** Who sleeps has something to wait for. */
  ghost predicate NoneForgotten(drainers: seq<Drainer>, reqs: map<string, int>) {
    forall i | 0 <= i < |drainers| && drainers[i].phase == Sleeping :: CountOf(reqs, drainers[i].backend) > 0
  }

  /** Who is ready or done has found nothing in flight. */
  ghost predicate Founded(drainers: seq<Drainer>, log: seq<Event>) {
    forall i | 0 <= i < |drainers| && (drainers[i].phase == Ready || drainers[i].phase == Drained) ::
      Checked(i, drainers[i].backend, true) in log
  }

  /** A drained event comes after a check of its own that found nothing in flight. */
  ghost predicate Honest(log: seq<Event>) {
    forall k {:trigger log[k]} | 0 <= k < |log| && log[k].SentDrained? ::
      Checked(log[k].id, log[k].backend, true) in log[..k]
  }

  lemma {:induction false} HonestMore(log: seq<Event>, e: Event)
    requires Honest(log) && (e.SentDrained? ==> Checked(e.id, e.backend, true) in log)
    ensures Honest(log + [e])
  {
    var more := log + [e];
    forall k {:trigger more[k]} | 0 <= k < |more| && more[k].SentDrained?
      ensures Checked(more[k].id, more[k].backend, true) in more[..k]
    {
      if k < |log| {
        assert more[k] == log[k] && more[..k] == log[..k];
      } else {
        assert more[..k] == log;
      }
    }
  }

  class Service {
    var reqs: map<string, int>
    var drainers: seq<Drainer>
    ghost var started: multiset<string>    // the backends of the requests that were started
    ghost var done: multiset<string>       // and of those that were done
    ghost var log: seq<Event>

    constructor ()
      ensures Valid() && started == multiset{} && done == multiset{} && drainers == [] && log == []
    {
      reqs, drainers, started, done, log := map[], [], multiset{}, multiset{}, [];
    }

    /** The requests in flight to a backend. */
    ghost function InFlight(backend: string): int
      reads this`started, this`done
    {
      started[backend] as int - done[backend] as int
    }

    ghost predicate Counted()
      reads this`reqs, this`started, this`done
    {
      forall b :: CountOf(reqs, b) == InFlight(b)
    }

    ghost predicate Valid()
      reads this
    {
      Counted() && NoneForgotten(drainers, reqs) && Founded(drainers, log) && Honest(log)
    }

    method TrackRequestStart(backend: string)
      requires Valid()
      modifies this`reqs, this`started
      ensures Valid() && started == old(started) + multiset{backend}
    {
      assert CountOf(reqs, backend) == InFlight(backend);
      reqs := reqs[backend := CountOf(reqs, backend) + 1];
      started := started + multiset{backend};
    }

    /** Nobody is woken unless the last request to the backend is done; then everybody is. */
    method TrackRequestDone(backend: string)
      requires Valid()
      modifies this`reqs, this`drainers, this`done
      ensures Valid() && done == old(done) + multiset{backend}
      ensures if InFlight(backend) == 0 then Woken(old(drainers), drainers) else drainers == old(drainers)
    {
      assert CountOf(reqs, backend) == InFlight(backend);
      reqs := reqs[backend := CountOf(reqs, backend) - 1];
      done := done + multiset{backend};
      if CountOf(reqs, backend) == 0 {
        Broadcast();
      }
    }

    method Broadcast()
      modifies this`drainers
      ensures Woken(old(drainers), drainers)
    {
      for i := 0 to |drainers|
        invariant |drainers| == old(|drainers|)
        invariant Woken(old(drainers)[..i], drainers[..i]) && drainers[i..] == old(drainers)[i..]
      {
        ghost var before := drainers;
        assert drainers[i] == old(drainers)[i];
        if drainers[i].phase == Sleeping {
          drainers := drainers[i := drainers[i].(phase := Checking)];
        }
        assert drainers[..i + 1] == before[..i] + [drainers[i]];
      }
      assert drainers[..|drainers|] == drainers && old(drainers)[..|drainers|] == old(drainers);
    }

    /** A backend goes down: somebody starts to wait until it is drained. */
    method BackendDown(backend: string)
      requires Valid()
      modifies this`drainers
      ensures Valid() && drainers == old(drainers) + [Drainer(backend, Checking)]
    {
      drainers := drainers + [Drainer(backend, Checking)];
    }

    /** The condition of the waiting loop. */
    method Check(i: nat)
      requires Valid() && i < |drainers| && drainers[i].phase == Checking
      modifies this`drainers, this`log
      ensures Valid()
      ensures var b := old(drainers)[i].backend;
              && drainers == old(drainers)[i := Drainer(b, if InFlight(b) > 0 then Sleeping else Ready)]
              && log == old(log) + [Checked(i, b, InFlight(b) <= 0)]
    {
      var b := drainers[i].backend;
      assert CountOf(reqs, b) == InFlight(b);
      ghost var e := Checked(i, b, InFlight(b) <= 0);
      HonestMore(log, e);
      log := log + [e];
      if CountOf(reqs, b) > 0 {
        drainers := drainers[i := Drainer(b, Sleeping)];
      } else {
        drainers := drainers[i := Drainer(b, Ready)];
      }
    }

    method SendDrained(i: nat)
      requires Valid() && i < |drainers| && drainers[i].phase == Ready
      modifies this`drainers, this`log
      ensures Valid() && log == old(log) + [SentDrained(i, old(drainers)[i].backend)]
      ensures drainers == old(drainers)[i := Drainer(old(drainers)[i].backend, Drained)]
    {
      var b := drainers[i].backend;
      HonestMore(log, SentDrained(i, b));
      log := log + [SentDrained(i, b)];
      drainers := drainers[i := Drainer(b, Drained)];
    }

    /** No wake-up is lost: once nothing is in flight to a backend, nobody sleeps for it. */
    lemma NobodySleepsForNothing(i: nat)
      requires Valid() && i < |drainers| && InFlight(drainers[i].backend) <= 0
      ensures drainers[i].phase != Sleeping
    {
      assert CountOf(reqs, drainers[i].backend) == InFlight(drainers[i].backend);
    }

    /** Every drained event follows a check of its own that found nothing in flight. */
    lemma DrainedAfterCheck(k: nat)
      requires Valid() && k < |log| && log[k].SentDrained?
      ensures exists j :: 0 <= j < k && log[j] == Checked(log[k].id, log[k].backend, true)
    {
      var j :| 0 <= j < k && log[..k][j] == Checked(log[k].id, log[k].backend, true);
      assert log[j] == log[..k][j];
    }
  }
}
