/** Fan-out of router events (router/watcher.go): the manager keeps the backends that are
    up, and tells every watcher what changes. */
module WatchManager {
  import opened Options

  datatype Backend = Backend(service: string, jobID: string, addr: string)

  datatype Event =
    | BackendUp(backend: Backend)
    | BackendDown(backend: Backend)
    | RouteRemove(service: string)
    | Other(kind: string)

  /** Backends by service and job. */
  type Backends = map<string, map<string, Backend>>

  predicate Is(b: Backend, s: string, j: string) {
    b.service == s && b.jobID == j
  }

  /** The backend of a job for a service, if it is up. */
  function At(backends: Backends, s: string, j: string): Option<Backend> {
    if s in backends && j in backends[s] then Some(backends[s][j]) else None
  }

  /** What an event makes of what is known about a job's backend. */
  function See(known: Option<Backend>, e: Event, s: string, j: string): Option<Backend> {
    match e
    case BackendUp(b) => if Is(b, s, j) then Some(b) else known
    case BackendDown(b) => if Is(b, s, j) then None else known
    case _ => known
  }

  /** Replaying the events that a watcher received. */
  function Replay(events: seq<Event>, s: string, j: string): Option<Backend> {
    if events == [] then None else See(Replay(events[..|events| - 1], s, j), events[|events| - 1], s, j)
  }

  lemma {:induction false} ReplayMore(events: seq<Event>, e: Event, s: string, j: string)
    ensures Replay(events + [e], s, j) == See(Replay(events, s, j), e, s, j)
  {
    assert (events + [e])[..|events|] == events;
  }

  /** The event is about the job's backend. */
  ghost predicate About(e: Event, s: string, j: string) {
    (e.BackendUp? || e.BackendDown?) && Is(e.backend, s, j)
  }

  /** A replay shows a backend exactly if the last event about it said that it is up. */
  lemma {:induction false} ReplayIs(events: seq<Event>, s: string, j: string, b: Backend)
    ensures Replay(events, s, j) == Some(b) <==>
            exists k :: 0 <= k < |events| && events[k] == BackendUp(b) && Is(b, s, j)
                        && forall i | k < i < |events| :: !About(events[i], s, j)
  {
    if events != [] {
      var n := |events| - 1;
      var init, last := events[..n], events[n];
      ReplayIs(init, s, j, b);
      if About(last, s, j) {
        assert last == BackendUp(b) ==> events[n] == BackendUp(b);
      } else {
        if k :| 0 <= k < |init| && init[k] == BackendUp(b) && Is(b, s, j)
                && forall i | k < i < |init| :: !About(init[i], s, j) {
          assert events[k] == BackendUp(b) && forall i | k < i < n :: events[i] == init[i];
        }
        if k :| 0 <= k < |events| && events[k] == BackendUp(b) && Is(b, s, j)
                && forall i | k < i < |events| :: !About(events[i], s, j) {
          assert init[k] == BackendUp(b) && forall i | k < i < n :: events[i] == init[i];
        }
      }
    }
  }

  /** Backends are filed under their service and job. */
  ghost predicate Filed(backends: Backends) {
    forall s, j | s in backends && j in backends[s] :: Is(backends[s][j], s, j)
  }

  /** The events replay to exactly the backends that are up. */
  ghost predicate Mirrors(events: seq<Event>, backends: Backends) {
    forall s, j :: Replay(events, s, j) == At(backends, s, j)
  }

  /** The events replay to some of the backends that are up. */
  ghost predicate Knows(events: seq<Event>, backends: Backends) {
    forall s, j | Replay(events, s, j).Some? :: Replay(events, s, j) == At(backends, s, j)
  }

  /** The backends changed as the event says. */
  ghost predicate Follows(before: Backends, e: Event, after: Backends) {
    forall s, j :: At(after, s, j) == See(At(before, s, j), e, s, j)
  }

  /** A watcher that is told of a change keeps up with it. */
  lemma {:induction false} ToldMirrors(events: seq<Event>, e: Event, before: Backends, after: Backends)
    requires Follows(before, e, after)
    ensures Mirrors(events, before) ==> Mirrors(events + [e], after)
    ensures Knows(events, before) ==> Knows(events + [e], after)
  {
    forall s, j
      ensures Replay(events + [e], s, j) == See(Replay(events, s, j), e, s, j)
      ensures At(after, s, j) == See(At(before, s, j), e, s, j)
    {
      ReplayMore(events, e, s, j);
    }
  }

  /** A channel, with the events that were sent to it. */
  class Channel {
    var events: seq<Event>

    constructor ()
      ensures events == []
    {
      events := [];
    }
  }

  class WatchManager {
    var watchers: set<Channel>
    var backends: Backends
    ghost var full: set<Channel>    // those that were told what was up when they joined

    constructor ()
      ensures Valid() && watchers == {} && backends == map[]
    {
      watchers, backends, full := {}, map[], {};
    }

    /** Every watcher that was told what was up can replay its events to exactly the
        backends that are up; any other knows a part of them. */
    ghost predicate Valid()
      reads this, watchers
    {
      Filed(backends) && Told(backends)
    }

    /** Send an event to every watcher. */
    method Broadcast(e: Event)
      modifies watchers
      ensures forall ch | ch in watchers :: ch.events == old(ch.events) + [e]
    {
      var left := watchers;
      while left != {}
        invariant left <= watchers
        invariant forall ch | ch in watchers :: ch.events == old(ch.events) + (if ch in left then [] else [e])
        decreases |left|
      {
        var ch :| ch in left;
        left := left - {ch};
        ch.events := ch.events + [e];
      }
    }

    /** The watchers know the backends. */
    ghost predicate Told(backends: Backends)
      reads this`full, this`watchers, watchers
    {
      && full <= watchers && (forall ch | ch in full :: Mirrors(ch.events, backends))
      && (forall ch | ch in watchers :: Knows(ch.events, backends))
    }

    /** Tell every watcher of a change. */
    method Tell(e: Event, ghost before: Backends, ghost after: Backends)
      requires Told(before) && Follows(before, e, after)
      modifies watchers
      ensures Told(after) && forall ch | ch in watchers :: ch.events == old(ch.events) + [e]
    {
      Broadcast(e);
      forall ch | ch in watchers
        ensures ch in full ==> Mirrors(ch.events, after)
        ensures Knows(ch.events, after)
      {
        ToldMirrors(old(ch.events), e, before, after);
      }
    }

    /** Tell every watcher that the backends of a service are down, one after the other. */
    method TellDown(s: string) returns (ghost told: seq<Event>)
      requires Valid() && s in backends
      modifies watchers
      ensures Told(backends - {s})
      ensures forall ch | ch in watchers :: ch.events == old(ch.events) + told
      ensures forall e :: e in told <==> e.BackendDown? && At(backends, s, e.backend.jobID) == Some(e.backend)
    {
      ghost var now := backends;
      told := [];
      var left := backends[s].Keys;
      while left != {}
        invariant left <= backends[s].Keys && Told(now)
        invariant forall r, j :: At(now, r, j) == if r == s && j !in left then None else At(backends, r, j)
        invariant forall ch | ch in watchers :: ch.events == old(ch.events) + told
        invariant forall e :: e in told <==> e.BackendDown? && e.backend.jobID !in left
                                             && At(backends, s, e.backend.jobID) == Some(e.backend)
        decreases |left|
      {
        var j :| j in left;
        left := left - {j};
        ghost var after := now[s := ServiceOf(now, s) - {j}];
        Tell(BackendDown(backends[s][j]), now, after);
        told := told + [BackendDown(backends[s][j])];
        now := after;
      }
      forall ch | ch in watchers
        ensures ch in full ==> Mirrors(ch.events, backends - {s})
        ensures Knows(ch.events, backends - {s})
      {
        SameForAll(ch.events, now, backends - {s});
      }
    }

    /** Send: note what goes up and down, and pass the event on, as the last one, to every
        watcher. When a route is removed, the backends of its service go down first. */
    method Send(event: Event) returns (ghost told: seq<Event>)
      requires Valid()
      modifies this`backends, watchers
      ensures Valid() && watchers == old(watchers) && full == old(full)
      ensures match event
              case BackendUp(b) => forall s, j ::
                                     At(backends, s, j) == if Is(b, s, j) then Some(b) else At(old(backends), s, j)
              case BackendDown(b) => forall s, j ::
                                       At(backends, s, j) == if Is(b, s, j) then None else At(old(backends), s, j)
              case RouteRemove(s) => forall r, j ::
                                       At(backends, r, j) == if r == s then None else At(old(backends), r, j)
              case Other(_) => backends == old(backends)
      ensures forall ch | ch in watchers :: ch.events == old(ch.events) + told + [event]
      ensures forall e :: e in told <==> event.RouteRemove? && e.BackendDown?
                                         && At(old(backends), event.service, e.backend.jobID) == Some(e.backend)
    {
      told := [];
      ghost var before := backends;
      match event {
        case BackendUp(b) =>
          if b.service !in backends {
            backends := backends[b.service := map[]];
          }
          backends := backends[b.service := backends[b.service][b.jobID := b]];
        case BackendDown(b) =>
          if b.service in backends {
            backends := backends[b.service := backends[b.service] - {b.jobID}];
          }
        case RouteRemove(s) =>
          if s in backends {
            told := TellDown(s);
            backends := backends - {s};
            before := backends;
          }
        case Other(_) =>
      }
      Tell(event, before, backends);
    }

    /** Watch: with the current state, a watcher learns of every backend that is up. */
    method Watch(ch: Channel, sendCurrent: bool)
      requires Valid() && (ch in watchers || ch.events == [])
      modifies this`watchers, this`full, ch
      ensures Valid() && backends == old(backends) && watchers == old(watchers) + {ch}
      ensures full == if sendCurrent then old(full) + {ch} else old(full)
      ensures !sendCurrent ==> ch.events == old(ch.events)
    {
      if sendCurrent {
        SendCurrent(ch);
        full := full + {ch};
      }
      watchers := watchers + {ch};
    }

    /** Send every backend that is up, in any order. */
    method SendCurrent(ch: Channel)
      requires Filed(backends) && Knows(ch.events, backends)
      modifies ch
      ensures Mirrors(ch.events, backends)
    {
      var services := backends.Keys;
      while services != {}
        invariant services <= backends.Keys && Knows(ch.events, backends)
        invariant forall s, j | s !in services :: Replay(ch.events, s, j) == At(backends, s, j)
        decreases |services|
      {
        var s :| s in services;
        services := services - {s};
        SendService(ch, s);
      }
    }

    method SendService(ch: Channel, s: string)
      requires Filed(backends) && s in backends && Knows(ch.events, backends)
      modifies ch
      ensures Knows(ch.events, backends)
      ensures forall r, j ::
                Replay(ch.events, r, j) == if r == s then At(backends, r, j) else old(Replay(ch.events, r, j))
    {
      var left := backends[s].Keys;
      while left != {}
        invariant left <= backends[s].Keys && Knows(ch.events, backends)
        invariant forall j | j !in left :: Replay(ch.events, s, j) == At(backends, s, j)
        invariant forall r, j | r != s :: Replay(ch.events, r, j) == old(Replay(ch.events, r, j))
        decreases |left|
      {
        var j :| j in left;
        left := left - {j};
        var e := BackendUp(backends[s][j]);
        ghost var events := ch.events;
        ch.events := ch.events + [e];
        forall r, i
          ensures Replay(ch.events, r, i) == See(Replay(events, r, i), e, r, i)
        {
          ReplayMore(events, e, r, i);
        }
      }
    }

    method Unwatch(ch: Channel)
      requires Valid()
      modifies this`watchers, this`full
      ensures Valid() && watchers == old(watchers) - {ch} && backends == old(backends)
    {
      watchers := watchers - {ch};
      full := full - {ch};
    }
  }

  function ServiceOf(backends: Backends, s: string): map<string, Backend> {
    if s in backends then backends[s] else map[]
  }

  lemma {:induction false} SameForAll(events: seq<Event>, a: Backends, b: Backends)
    requires forall s, j :: At(a, s, j) == At(b, s, j)
    ensures (Mirrors(events, a) ==> Mirrors(events, b)) && (Knows(events, a) ==> Knows(events, b))
  {
  }
}
