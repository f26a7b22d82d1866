/** The syncer (router/sync.go) driving an HTTP listener. */
module Syncer {
  import opened Collections
  import opened Options
  import opened Paths
  import opened Routes
  import opened RouteTable
  import opened RouteSync
  import opened HttpListener
  import opened HostKeys

  datatype EventKind = RouteSet | RouteRemove | OtherKind
  datatype Event = Event(kind: EventKind, route: Route)

  /** The listed routes of one type, in order. */
  ghost function OwnRoutes(listed: seq<Route>, kind: string): seq<Route> {
    if listed == [] then []
    else
      var init, last := listed[..|listed| - 1], listed[|listed| - 1];
      OwnRoutes(init, kind) + (if last.kind == kind then [last] else [])
  }

  ghost function DataOf(all: seq<HttpRoute>): seq<Route> {
    seq(|all|, i requires 0 <= i < |all| => all[i].data)
  }

  lemma {:induction false} RunSnoc(t: Table, ops: seq<Op>, op: Op)
    ensures Run(t, ops + [op]) == Apply(Run(t, ops), op)
    decreases |ops|
  {
    if ops == [] {
      assert ops + [op] == [op];
    } else {
      assert (ops + [op])[1..] == ops[1..] + [op];
      RunSnoc(Apply(t, ops[0]), ops[1..], op);
    }
  }

  lemma {:induction false} SetsSnoc(all: seq<HttpRoute>, r: HttpRoute, n: nat)
    requires n <= |all|
    ensures Sets(all + [r], n) == Sets(all, n) + [SetOp(r)]
    decreases |all| - n
  {
    if n < |all| {
      SetsSnoc(all, r, n + 1);
    } else {
      assert Sets(all + [r], n + 1) == [];
    }
  }

  lemma {:induction false} RemovesSnoc(ids: seq<string>, id: string)
    ensures Removes(ids + [id]) == Removes(ids) + [RemoveOp(id)]
  {
    if ids == [] {
      assert ids + [id] == [id];
    } else {
      assert (ids + [id])[1..] == ids[1..] + [id];
      RemovesSnoc(ids[1..], id);
    }
  }

  /** The route objects are made from their data. */
  ghost predicate AllMadeSane(all: seq<HttpRoute>) {
    forall i {:trigger MadeSane(all[i])} | 0 <= i < |all| :: MadeSane(all[i])
  }

  ghost predicate MadeSane(r: HttpRoute) {
    Made(r) && Sane(r)
  }

  /** How far the first loop is: the routes of the type among the first k listed ones are
      set, in order, and their IDs are struck off. */
  ghost predicate Listed(all: seq<HttpRoute>, listed: seq<Route>, k: nat, kind: string, current: set<string>,
                         toRemove: set<string>)
    requires k <= |listed|
  {
    && AllMadeSane(all) && DataOf(all) == OwnRoutes(listed[..k], kind)
    && toRemove == current - IdsFrom(all, 0)
  }

  lemma {:induction false} ListedSkip(all: seq<HttpRoute>, listed: seq<Route>, k: nat, kind: string,
                                      current: set<string>, toRemove: set<string>)
    requires k < |listed| && Listed(all, listed, k, kind, current, toRemove) && listed[k].kind != kind
    ensures Listed(all, listed, k + 1, kind, current, toRemove)
  {
    assert listed[..k + 1][..k] == listed[..k];
  }

  /** Setting one more route. */
  lemma {:induction false} ListedOneMore(t: Table, all: seq<HttpRoute>, listed: seq<Route>, k: nat, kind: string,
                                         current: set<string>, toRemove: set<string>, r: HttpRoute)
    requires k < |listed| && Listed(all, listed, k, kind, current, toRemove)
    requires listed[k].kind == kind && r.data == listed[k] && MadeSane(r)
    ensures Listed(all + [r], listed, k + 1, kind, current, toRemove - {r.data.id})
    ensures Run(t, Sets(all + [r], 0)) == Run(t, Sets(all, 0)).Set(r)
  {
    SetsSnoc(all, r, 0);
    RunSnoc(t, Sets(all, 0), SetOp(r));
    IdsSnoc(all, r);
    MadeSnoc(all, r);
    assert listed[..k + 1][..k] == listed[..k];
  }

  lemma {:induction false} MadeSnoc(all: seq<HttpRoute>, r: HttpRoute)
    requires AllMadeSane(all) && MadeSane(r)
    ensures AllMadeSane(all + [r])
  {
    var more := all + [r];
    forall i {:trigger MadeSane(more[i])} | 0 <= i < |more|
      ensures MadeSane(more[i])
    {
      if i < |all| {
        assert MadeSane(all[i]);
      }
    }
  }

  lemma {:induction false} LiveIsMade(h: Listener, id: string)
    requires h.TableOk() && id in h.routes
    ensures MadeSane(h.routes[id])
  {
    assert Made(h.routes[id]) && Sane(h.View().routes[id]);
  }

  lemma {:induction false} IdsSnoc(all: seq<HttpRoute>, r: HttpRoute)
    ensures IdsFrom(all + [r], 0) == IdsFrom(all, 0) + {r.data.id}
  {
    var more := all + [r];
    forall id
      ensures id in IdsFrom(more, 0) <==> id in IdsFrom(all, 0) + {r.data.id}
    {
      if id in IdsFrom(all, 0) {
        var i :| 0 <= i < |all| && all[i].data.id == id;
        assert more[i] == all[i];
      }
      assert more[|all|] == r;
    }
  }

  /** The listener owns new objects only, beside those that it had. */
  twostate predicate Grown(h: Listener)
    reads h
  {
    h.closed == old(h.closed) && fresh(h.nodes - old(h.nodes)) && fresh(h.known - old(h.known))
  }

  /** h.Set(route): on an open listener that accepts it, the table gains a route object for it. */
  method SetOne(h: Listener, route: Route, certOk: bool, cacheOk: bool) returns (ok: bool, ghost r: Option<HttpRoute>)
    requires h.Valid()
    modifies h, h.nodes, h.known
    ensures h.Valid() && Grown(h)
    ensures ok <==> certOk && (h.closed || route.service in old(h.services) || cacheOk)
    ensures !ok || h.closed ==> h.View() == old(h.View())
    ensures ok && !h.closed ==>
              r.Some? && r.value.data == route && MadeSane(r.value) && h.View() == old(h.View()).Set(r.value)
  {
    var out := h.Set(route, certOk, cacheOk);
    ok, r := out == Done, None;
    if ok && !h.closed {
      LiveIsMade(h, route.id);
      r := Some(h.routes[route.id]);
    }
  }

  /** Where the first loop stands: on a closed listener nothing changes. */
  ghost predicate SetSoFar(view: Table, closed: bool, t: Table, all: seq<HttpRoute>, listed: seq<Route>, k: nat,
                           kind: string, toRemove: set<string>)
  {
    && k <= |listed|
    && if closed then view == t
       else view == Run(t, Sets(all, 0)) && Listed(all, listed, k, kind, t.routes.Keys, toRemove)
  }

  lemma {:induction false} SetNothingYet(t: Table, closed: bool, listed: seq<Route>, kind: string)
    ensures SetSoFar(t, closed, t, [], listed, 0, kind, t.routes.Keys)
  {
    assert listed[..0] == [];
  }

  /** One round of the first loop. */
  method SetNextListed(h: Listener, kind: string, listed: seq<Route>, k: nat, toRemove: set<string>, ghost t: Table,
                       ghost all: seq<HttpRoute>, certOk: bool, cacheOk: bool)
    returns (ok: bool, left: set<string>, ghost more: seq<HttpRoute>)
    requires h.Valid() && k < |listed| && SetSoFar(h.View(), h.closed, t, all, listed, k, kind, toRemove)
    modifies h, h.nodes, h.known
    ensures h.Valid() && Grown(h)
    ensures listed[k].kind != kind || (certOk && cacheOk) ==> ok
    ensures listed[k].kind == kind && !certOk ==> !ok
    ensures ok ==> SetSoFar(h.View(), h.closed, t, more, listed, k + 1, kind, left)
    ensures !ok ==> SetSoFar(h.View(), h.closed, t, more, listed, k, kind, toRemove)
  {
    ok, left, more := true, toRemove, all;
    var route := listed[k];
    if route.kind == kind {
      ghost var r;
      left := toRemove - {route.id};
      ok, r := SetOne(h, route, certOk, cacheOk);
      if ok && !h.closed {
        ListedOneMore(t, all, listed, k, kind, t.routes.Keys, toRemove, r.value);
        more := all + [r.value];
      }
    } else if !h.closed {
      ListedSkip(all, listed, k, kind, t.routes.Keys, toRemove);
    }
  }

  /** A Set of each route of the type may succeed: its certificate parses. */
  ghost predicate AllParse(routes: seq<Route>, kind: string, certOk: Route -> bool) {
    forall i | 0 <= i < |routes| && routes[i].kind == kind :: certOk(routes[i])
  }

  /** A Set of some route of the type may fail: its certificate does not parse, or discoverd fails. */
  ghost predicate SomeFails(routes: seq<Route>, kind: string, certOk: Route -> bool, cacheOk: Route -> bool) {
    exists i :: 0 <= i < |routes| && routes[i].kind == kind && !(certOk(routes[i]) && cacheOk(routes[i]))
  }

  /** The first loop of the initial phase: set every listed route of the type, and
      strike its ID off the IDs that are to be removed. It fails only where a Set fails. */
  method SetListed(h: Listener, kind: string, listed: seq<Route>, certOk: Route -> bool, cacheOk: Route -> bool)
    returns (ok: bool, toRemove: set<string>, ghost all: seq<HttpRoute>)
    requires h.Valid()
    modifies h, h.nodes, h.known
    ensures h.Valid() && Grown(h)
    ensures ok ==> AllParse(listed, kind, certOk)
    ensures !ok ==> SomeFails(listed, kind, certOk, cacheOk)
    ensures exists k :: SetSoFar(h.View(), h.closed, old(h.View()), all, listed, k, kind, toRemove)
                        && (ok ==> k == |listed|)
  {
    ok, toRemove, all := true, h.routes.Keys, [];
    ghost var t := h.View();
    SetNothingYet(t, h.closed, listed, kind);
    var k := 0;
    while k < |listed|
      invariant k <= |listed| && h.Valid() && Grown(h) && ok
      invariant forall i | 0 <= i < k && listed[i].kind == kind :: certOk(listed[i])
      invariant SetSoFar(h.View(), h.closed, t, all, listed, k, kind, toRemove)
    {
      var left;
      ok, left, all := SetNextListed(h, kind, listed, k, toRemove, t, all, certOk(listed[k]), cacheOk(listed[k]));
      if !ok {
        return;
      }
      toRemove, k := left, k + 1;
    }
  }

  /** How far the second loop is: `ids` are removed, in order, and `left` are not. */
  ghost predicate Removed(t: Table, ids: seq<string>, toRemove: set<string>, left: set<string>) {
    && Elems(ids) == toRemove - left && left <= toRemove && left <= Run(t, Removes(ids)).routes.Keys
    && forall i, j | 0 <= i < j < |ids| :: ids[i] != ids[j]
  }

  /** Removing one more route. */
  lemma {:induction false} RemovedOneMore(t: Table, ids: seq<string>, toRemove: set<string>, left: set<string>,
                                          id: string)
    requires Removed(t, ids, toRemove, left) && id in left
    ensures Removed(t, ids + [id], toRemove, left - {id})
    ensures Run(t, Removes(ids + [id])) == Run(t, Removes(ids)).Remove(id)
  {
    RemovesSnoc(ids, id);
    RunSnoc(t, Removes(ids), RemoveOp(id));
    assert forall i | 0 <= i < |ids| :: ids[i] in Elems(ids);
    assert Elems(ids + [id]) == Elems(ids) + {id};
  }

  /** The second loop of the initial phase: remove the routes that are no longer in the
      store, in any order. */
  method RemoveUnlisted(h: Listener, toRemove: set<string>) returns (ok: bool, ghost ids: seq<string>)
    requires h.Valid() && (!h.closed ==> toRemove <= h.routes.Keys)
    modifies h, h.nodes, h.known
    ensures h.Valid() && h.closed == old(h.closed) && h.nodes == old(h.nodes) && h.known == old(h.known)
    ensures ok && (h.closed ==> h.View() == old(h.View()))
    ensures !h.closed ==> h.View() == Run(old(h.View()), Removes(ids)) && Removed(old(h.View()), ids, toRemove, {})
  {
    ok, ids := true, [];
    ghost var t := h.View();
    var left := toRemove;
    while left != {}
      invariant h.Valid() && h.closed == old(h.closed) && h.nodes == old(h.nodes) && h.known == old(h.known)
      invariant h.closed ==> h.View() == t
      invariant !h.closed ==> h.View() == Run(t, Removes(ids)) && Removed(t, ids, toRemove, left)
      decreases |left|
    {
      var id :| id in left;
      if !h.closed {
        RemovedOneMore(t, ids, toRemove, left, id);
        ids := ids + [id];
      }
      left := left - {id};
      var out := h.Remove(id);
      if out != Done {
        ok := false;
        return;
      }
    }
  }

  /** Sync up to the point where it reports that it has started: set what is listed,
      remove what is not. */
  method SyncInitial(h: Listener, kind: string, listed: seq<Route>, certOk: Route -> bool, cacheOk: Route -> bool)
    returns (ok: bool, ghost all: seq<HttpRoute>, ghost ids: seq<string>)
    requires h.Valid()
    modifies h, h.nodes, h.known
    ensures h.Valid() && Grown(h)
    ensures ok ==> AllParse(listed, kind, certOk)
    ensures !ok ==> SomeFails(listed, kind, certOk, cacheOk)
    ensures h.closed ==> h.View() == old(h.View())
    ensures ok && !h.closed ==>
              && AllMadeSane(all) && DataOf(all) == OwnRoutes(listed, kind)
              && Removed(Run(old(h.View()), Sets(all, 0)), ids, old(h.routes.Keys) - IdsFrom(all, 0), {})
              && h.View() == Run(Run(old(h.View()), Sets(all, 0)), Removes(ids))
  {
    var toRemove;
    ids := [];
    ok, toRemove, all := SetListed(h, kind, listed, certOk, cacheOk);
    if ok {
      assert SetSoFar(h.View(), h.closed, old(h.View()), all, listed, |listed|, kind, toRemove);
      assert listed[..|listed|] == listed;
      if !h.closed {
        SetsKeys(old(h.View()), all, 0);
      }
      ok, ids := RemoveUnlisted(h, toRemove);
    }
  }

  /** The place that a route's domain, port and path determine. */
  function SpotFor(route: Route): Spot {
    Spot(route, FileKey(route), Segments(route.path))
  }

  /** The change that an event reports. */
  function ChangeOf(e: Event): Change {
    if e.kind == RouteSet then Put(SpotFor(e.route)) else Drop(e.route.id)
  }

  /** The events of one type, in order. */
  ghost function OwnEvents(events: seq<Event>, kind: string): seq<Event> {
    if events == [] then []
    else
      var init, last := events[..|events| - 1], events[|events| - 1];
      OwnEvents(init, kind) + (if last.route.kind == kind then [last] else [])
  }

  /** The operation carries out what the event reports. */
  ghost predicate Handles(op: Op, e: Event) {
    match e.kind
    case RouteSet => op.SetOp? && op.route.data == e.route && MadeSane(op.route)
    case RouteRemove => op == RemoveOp(e.route.id)
    case OtherKind => false
  }

  ghost predicate HandlesAll(ops: seq<Op>, events: seq<Event>) {
    |ops| == |events| && forall i {:trigger Handles(ops[i], events[i])} | 0 <= i < |ops| :: Handles(ops[i], events[i])
  }

  lemma {:induction false} HandlesOneMore(ops: seq<Op>, events: seq<Event>, op: Op, e: Event)
    requires HandlesAll(ops, events) && Handles(op, e)
    ensures HandlesAll(ops + [op], events + [e])
  {
    var ops', events' := ops + [op], events + [e];
    forall i {:trigger Handles(ops'[i], events'[i])} | 0 <= i < |ops'|
      ensures Handles(ops'[i], events'[i])
    {
      if i < |ops| {
        assert Handles(ops[i], events[i]);
      }
    }
  }

  /** How far the event loop is. */
  ghost predicate Replayed(ops: seq<Op>, events: seq<Event>, k: nat, kind: string)
    requires k <= |events|
  {
    HandlesAll(ops, OwnEvents(events[..k], kind))
  }

  lemma {:induction false} ReplayedSkip(ops: seq<Op>, events: seq<Event>, k: nat, kind: string)
    requires k < |events| && Replayed(ops, events, k, kind) && events[k].route.kind != kind
    ensures Replayed(ops, events, k + 1, kind)
  {
    assert events[..k + 1][..k] == events[..k];
  }

  lemma {:induction false} ReplayedOneMore(t: Table, ops: seq<Op>, events: seq<Event>, k: nat, kind: string, op: Op)
    requires k < |events| && Replayed(ops, events, k, kind) && events[k].route.kind == kind && Handles(op, events[k])
    ensures Replayed(ops + [op], events, k + 1, kind)
    ensures Run(t, ops + [op]) == Apply(Run(t, ops), op)
  {
    RunSnoc(t, ops, op);
    assert events[..k + 1][..k] == events[..k];
    HandlesOneMore(ops, OwnEvents(events[..k], kind), op, events[k]);
  }

  /** handleUpdate: carry out an event; that a route to remove is not there is no error. */
  method HandleUpdate(h: Listener, event: Event, certOk: bool, cacheOk: bool) returns (ok: bool, ghost op: Op)
    requires h.Valid()
    modifies h, h.nodes, h.known
    ensures h.Valid() && Grown(h)
    ensures !ok || h.closed ==> h.View() == old(h.View())
    ensures match event.kind
            case RouteSet => ok <==> certOk && (h.closed || event.route.service in old(h.services) || cacheOk)
            case RouteRemove => ok
            case OtherKind => !ok
    ensures ok && !h.closed ==> Handles(op, event) && h.View() == Apply(old(h.View()), op)
  {
    op := RemoveOp(event.route.id);
    match event.kind {
      case RouteSet =>
        ghost var r;
        ok, r := SetOne(h, event.route, certOk, cacheOk);
        if ok && !h.closed {
          op := SetOp(r.value);
        }
      case RouteRemove =>
        var out := h.Remove(event.route.id);
        ok := true;
      case OtherKind =>
        ok := false;
    }
  }

  /** How Sync returns. */
  datatype SyncEnd = HandlerFailed | StreamEnded | Cancelled

  /** The event cannot be carried out, whatever the listener knows: it is of an unknown kind,
      or its certificate does not parse. */
  ghost predicate Refused(e: Event, certOk: Route -> bool) {
    e.kind == OtherKind || (e.kind == RouteSet && !certOk(e.route))
  }

  /** The event may fail: it is refused, or discoverd fails. */
  ghost predicate MayFail(e: Event, certOk: Route -> bool, cacheOk: Route -> bool) {
    Refused(e, certOk) || (e.kind == RouteSet && !cacheOk(e.route))
  }

  /** The event loop of Sync, over the events that the watch delivers until its stream ends;
      `done` says before which events the context is found done. It fails only at an event that
      fails. */
  method SyncEvents(h: Listener, kind: string, events: seq<Event>, certOk: Route -> bool, cacheOk: Route -> bool,
                    done: nat -> bool)
    returns (end: SyncEnd, taken: nat, ghost ops: seq<Op>)
    requires h.Valid()
    modifies h, h.nodes, h.known
    ensures h.Valid() && Grown(h)
    ensures taken <= |events| && (end == StreamEnded ==> taken == |events|)
    ensures (end == Cancelled <==> done(taken)) && forall i | 0 <= i < taken :: !done(i)
    ensures end == HandlerFailed ==>
              taken < |events| && events[taken].route.kind == kind && MayFail(events[taken], certOk, cacheOk)
    ensures forall i | 0 <= i < taken && events[i].route.kind == kind :: !Refused(events[i], certOk)
    ensures h.closed ==> h.View() == old(h.View())
    ensures !h.closed ==> HandlesAll(ops, OwnEvents(events[..taken], kind)) && h.View() == Run(old(h.View()), ops)
  {
    taken, ops := 0, [];
    ghost var t := h.View();
    while true
      invariant taken <= |events| && h.Valid() && Grown(h) && forall i | 0 <= i < taken :: !done(i)
      invariant forall i | 0 <= i < taken && events[i].route.kind == kind :: !Refused(events[i], certOk)
      invariant h.closed ==> h.View() == t
      invariant !h.closed ==> h.View() == Run(t, ops) && Replayed(ops, events, taken, kind)
      decreases |events| - taken
    {
      if done(taken) {
        return Cancelled, taken, ops;
      }
      if taken == |events| {
        return StreamEnded, taken, ops;
      }
      var event := events[taken];
      if event.route.kind == kind {
        ghost var op;
        var ok;
        ok, op := HandleUpdate(h, event, certOk(event.route), cacheOk(event.route));
        if !ok {
          return HandlerFailed, taken, ops;
        }
        if !h.closed {
          ReplayedOneMore(t, ops, events, taken, kind, op);
          ops := ops + [op];
        }
      } else if !h.closed {
        ReplayedSkip(ops, events, taken, kind);
      }
      taken := taken + 1;
    }
  }

  /** The changes that a list of events reports. */
  function ChangesOf(events: seq<Event>): seq<Change> {
    seq(|events|, i requires 0 <= i < |events| => ChangeOf(events[i]))
  }

  /** The route's domain has no upper-case letters. */
  predicate Lowered(route: Route) {
    Lower(route.domain) == route.domain
  }

  lemma {:induction false} LoweredKeys(r: HttpRoute)
    requires MadeSane(r) && Lowered(r.data)
    ensures r.seek == r.file
  {
    KeysAgree(r.data);
  }

  ghost predicate AllLowered(routes: seq<Route>) {
    forall i {:trigger Lowered(routes[i])} | 0 <= i < |routes| :: Lowered(routes[i])
  }

  /** The route objects stand for the routes of a store, each of them once. */
  ghost predicate Enumerates(all: seq<HttpRoute>, s: Store) {
    && AllMadeSane(all) && IdsFrom(all, 0) == s.Keys
    && (forall i | 0 <= i < |all| :: all[i].data.id in s && s[all[i].data.id] == SpotOf(all[i]))
    && (forall i, j | 0 <= i < j < |all| :: all[i].data.id != all[j].data.id)
  }

  /** They are sorted as sortInitialRoutes sorts them, and under lower-case domains. */
  ghost predicate Tidy(all: seq<HttpRoute>) {
    InOrder(DataOf(all)) && AllLowered(DataOf(all))
  }

  /** A list of a store that is in order is one that the initial phase can take. */
  lemma {:induction false} EnumerationIsListing(homes: Homes, all: seq<HttpRoute>, s: Store)
    requires StoreOk(homes, s) && Enumerates(all, s) && Tidy(all)
    ensures Listing(homes, all)
  {
    forall i {:trigger Sane(all[i])} | 0 <= i < |all|
      ensures Sane(all[i])
    {
      assert MadeSane(all[i]);
    }
    forall i | 0 <= i < |all|
      ensures all[i].seek == all[i].file && AtHome(homes, SpotOf(all[i]))
    {
      assert MadeSane(all[i]) && Lowered(DataOf(all)[i]);
      LoweredKeys(all[i]);
      assert AtHome(homes, s[all[i].data.id]);
    }
    forall i {:trigger RootBefore(all, i)} | 0 <= i < |all|
      ensures RootBefore(all, i)
    {
      RootComesBefore(homes, all, s, i);
    }
    forall i, j | 0 <= i < j < |all|
      ensures !SamePlace(all[i], all[j])
    {
      assert s[all[i].data.id] == SpotOf(all[i]) && s[all[j].data.id] == SpotOf(all[j]);
    }
  }

  lemma {:induction false} RootComesBefore(homes: Homes, all: seq<HttpRoute>, s: Store, i: nat)
    requires StoreOk(homes, s) && Enumerates(all, s) && Tidy(all) && i < |all|
    ensures RootBefore(all, i)
  {
    var id := all[i].data.id;
    assert HasRoot(s, s[id].file);
    var root :| root in s && IsRoot(s[root]) && s[root].file == s[id].file;
    assert root in IdsFrom(all, 0);
    var j :| 0 <= j < |all| && all[j].data.id == root;
    assert s[root] == SpotOf(all[j]);
    if all[i].data.path != "/" {
      assert all[i].key != Top;
      assert MadeSane(all[i]) && MadeSane(all[j]) && Lowered(DataOf(all)[i]) && Lowered(DataOf(all)[j]);
      OneDomain(all[i], all[j]);
      SortPutsRootsFirst(DataOf(all), i, j);
    }
  }

  lemma {:induction false} OneDomain(r: HttpRoute, q: HttpRoute)
    requires MadeSane(r) && MadeSane(q) && Lowered(r.data) && Lowered(q.data) && r.file == q.file
    ensures r.data.domain == q.data.domain
  {
    KeyGivesHost(r.data, q.data);
  }

  lemma {:induction false} OkAt(homes: Homes, s: Store, cs: seq<Change>, n: nat)
    requires n <= |cs| && OkThroughout(homes, s, cs)
    ensures StoreOk(homes, Replay(s, cs[..n]))
    ensures n < |cs| && cs[n].Put? ==> AtHome(homes, cs[n].spot)
    decreases |cs|
  {
    if n > 0 {
      assert cs[..n][0] == cs[0] && cs[..n][1..] == cs[1..][..n - 1];
      OkAt(homes, After(s, cs[0]), cs[1..], n - 1);
    } else if n < |cs| && cs[0].Put? {
      assert StoreOk(homes, After(s, cs[0]));
      assert AtHome(homes, After(s, cs[0])[cs[0].spot.data.id]);
    }
  }

  /** Handling the events of a store that is in order carries out its changes. */
  lemma {:induction false} HandlingCarries(homes: Homes, s: Store, events: seq<Event>, ops: seq<Op>)
    requires OkThroughout(homes, s, ChangesOf(events)) && HandlesAll(ops, events)
    requires forall i {:trigger Lowered(events[i].route)} | 0 <= i < |events| :: Lowered(events[i].route)
    ensures CarriesAll(homes, ops, ChangesOf(events))
  {
    var cs := ChangesOf(events);
    forall i | 0 <= i < |cs|
      ensures Carries(homes, ops[i], cs[i])
    {
      assert Handles(ops[i], events[i]);
      OkAt(homes, s, cs, i);
      if events[i].kind == RouteSet {
        assert Lowered(events[i].route);
        LoweredKeys(ops[i].route);
      }
    }
  }

  lemma {:induction false} HandlingMirrors(events: seq<Event>, ops: seq<Op>)
    requires HandlesAll(ops, events)
    ensures MirrorsAll(ops, ChangesOf(events))
  {
    forall i | 0 <= i < |ops|
      ensures Mirrors(ops[i], ChangesOf(events)[i])
    {
      assert Handles(ops[i], events[i]);
    }
  }

  /** The table after the initial phase and the events. */
  ghost function Final(t: Table, all: seq<HttpRoute>, ids: seq<string>, ops: seq<Op>): Table {
    Run(Run(Run(t, Sets(all, 0)), Removes(ids)), ops)
  }

  /** From any table, the initial phase and the events lead to what the events make of the
      listed routes. */
  lemma {:induction false} TableFollows(t: Table, snapshot: Store, events: seq<Event>, all: seq<HttpRoute>,
                                        ids: seq<string>, ops: seq<Op>)
    requires Enumerates(all, snapshot) && Elems(ids) == t.routes.Keys - IdsFrom(all, 0) && HandlesAll(ops, events)
    ensures Spots(Final(t, all, ids, ops)) == Replay(snapshot, ChangesOf(events))
  {
    InitialPhaseLists(t, all, ids);
    var u := Run(Run(t, Sets(all, 0)), Removes(ids));
    TableIsSnapshot(u, all, snapshot);
    HandlingMirrors(events, ops);
    SpotsRun(u, ops, ChangesOf(events));
  }

  /** Sync converges, from any table and against every history of a store: setting and
      removing by a list taken after `listed` of the watched changes and then handling every
      watched event ends with exactly the store's current routes in the table. */
  lemma {:induction false} TableConverges(t: Table, s: Store, events: seq<Event>, listed: nat, all: seq<HttpRoute>,
                                          ids: seq<string>, ops: seq<Op>)
    requires listed <= |events| && Enumerates(all, Replay(s, ChangesOf(events)[..listed]))
    requires Elems(ids) == t.routes.Keys - IdsFrom(all, 0) && HandlesAll(ops, events)
    ensures Spots(Final(t, all, ids, ops)) == Replay(s, ChangesOf(events))
  {
    var cs := ChangesOf(events);
    TableFollows(t, Replay(s, cs[..listed]), events, all, ids, ops);
    WatchThenListConverges(s, cs, listed);
  }

  /** Where the store is in order throughout and the stale table has no stale trie entries,
      table and tries agree in the end. */
  lemma {:induction false} TriesConverge(homes: Homes, t: Table, s: Store, events: seq<Event>, listed: nat,
                                         all: seq<HttpRoute>, ids: seq<string>, ops: seq<Op>)
    requires listed <= |events| && OkThroughout(homes, s, ChangesOf(events)) && TableFit(homes, t)
    requires forall i {:trigger Lowered(events[i].route)} | 0 <= i < |events| :: Lowered(events[i].route)
    requires Enumerates(all, Replay(s, ChangesOf(events)[..listed])) && Tidy(all)
    requires Removed(Run(t, Sets(all, 0)), ids, t.routes.Keys - IdsFrom(all, 0), {})
    requires HandlesAll(ops, events)
    ensures Final(t, all, ids, ops).Agree()
  {
    var cs := ChangesOf(events);
    var snapshot := Replay(s, cs[..listed]);
    OkAt(homes, s, cs, listed);
    EnumerationIsListing(homes, all, snapshot);
    InitialPhaseLists(t, all, ids);
    InitialPhaseAgrees(homes, t, all, ids);
    var u := Run(Run(t, Sets(all, 0)), Removes(ids));
    TableIsSnapshot(u, all, snapshot);
    HandlingCarries(homes, s, events, ops);
    ReplayAgrees(homes, u, s, cs, listed, ops);
  }

  lemma {:induction false} TableIsSnapshot(u: Table, all: seq<HttpRoute>, s: Store)
    requires Enumerates(all, s) && u.routes.Keys == IdsFrom(all, 0) && forall i | 0 <= i < |all| :: u.Live(all[i])
    ensures Spots(u) == s
  {
    forall id | id in s
      ensures id in u.routes && SpotOf(u.routes[id]) == s[id]
    {
      assert id in IdsFrom(all, 0);
      var i :| 0 <= i < |all| && all[i].data.id == id;
      assert u.Live(all[i]);
    }
  }

  /** r is the store's route for the k-th key whose path is the longest match, and no route of
      the store has one of the keys before. */
  ghost predicate ServesFrom(s: Store, keys: seq<string>, path: Key, r: Spot, k: nat) {
    && k < |keys| && r.data.id in s && s[r.data.id] == r && r.file == keys[k] && Leads(r.key, path)
    && (forall id | id in s && s[id].file == keys[k] && Leads(s[id].key, path) :: Leads(s[id].key, r.key))
    && (forall j, id | 0 <= j < k && id in s :: s[id].file != keys[j])
  }

  /** After a Sync, a served request gets the route of the store's current routes whose
      path is the longest match under the first key that has any. */
  lemma {:induction false} SyncedTableServesStore(t: Table, s: Store, keys: seq<string>, path: Key)
    requires t.Agree() && t.Formed() && Spots(t) == s && Serve(t, keys, path).Some?
    ensures exists k: nat :: ServesFrom(s, keys, path, SpotOf(Serve(t, keys, path).value), k)
  {
    ServedIsLongestLive(t, keys, path);
    var found := Serve(t, keys, path).value;
    var k :| 0 <= k < |keys| && IsLongestLive(t, keys[k], path, found)
             && forall j, id | 0 <= j < k && id in t.routes :: t.routes[id].file != keys[j];
    assert forall id | id in s :: id in t.routes && s[id] == SpotOf(t.routes[id]);
    assert found.data.id in t.routes && found.data.id in Spots(t);
    assert ServesFrom(s, keys, path, SpotOf(found), k);
  }

  lemma {:induction false} OwnAreListed(listed: seq<Route>, kind: string, i: nat)
    requires i < |OwnRoutes(listed, kind)|
    ensures OwnRoutes(listed, kind)[i] in listed
  {
    var init, last := listed[..|listed| - 1], listed[|listed| - 1];
    if i < |OwnRoutes(init, kind)| {
      OwnAreListed(init, kind, i);
    }
  }

  /** Passing over the other types keeps the order that sortInitialRoutes made. */
  lemma {:induction false} OwnInOrder(listed: seq<Route>, kind: string, name: Route -> string)
    requires InOrderBy(listed, name)
    ensures InOrderBy(OwnRoutes(listed, kind), name)
  {
    if listed != [] {
      var init, last := listed[..|listed| - 1], listed[|listed| - 1];
      OwnInOrder(init, kind, name);
      var own := OwnRoutes(init, kind);
      forall i | 0 <= i < |own|
        ensures !StringLess(name(last), name(own[i]))
      {
        OwnAreListed(init, kind, i);
        var k :| 0 <= k < |init| && init[k] == own[i];
        assert listed[k] == init[k];
      }
    }
  }

  /** The routes are those of the store, each of them once. */
  ghost predicate Lists(routes: seq<Route>, s: Store) {
    && (forall i | 0 <= i < |routes| :: routes[i].id in s && s[routes[i].id] == SpotFor(routes[i]))
    && (forall id | id in s :: exists i :: 0 <= i < |routes| && routes[i].id == id)
    && (forall i, j | 0 <= i < j < |routes| :: routes[i].id != routes[j].id)
  }

  lemma {:induction false} ListedIds(all: seq<HttpRoute>, s: Store)
    requires Lists(DataOf(all), s)
    ensures IdsFrom(all, 0) == s.Keys
  {
    var routes := DataOf(all);
    forall id | id in s
      ensures id in IdsFrom(all, 0)
    {
      var i :| 0 <= i < |routes| && routes[i].id == id;
      assert all[i].data.id == id;
    }
    forall id | id in IdsFrom(all, 0)
      ensures id in s
    {
      var i :| 0 <= i < |all| && all[i].data.id == id;
      assert routes[i].id in s;
    }
  }

  lemma {:induction false} ListedEnumerate(all: seq<HttpRoute>, s: Store)
    requires AllMadeSane(all) && Lists(DataOf(all), s)
    ensures Enumerates(all, s)
  {
    var routes := DataOf(all);
    ListedIds(all, s);
    forall i | 0 <= i < |all|
      ensures all[i].data.id in s && s[all[i].data.id] == SpotOf(all[i])
    {
      assert MadeSane(all[i]) && routes[i].id in s;
    }
    forall i, j | 0 <= i < j < |all|
      ensures all[i].data.id != all[j].data.id
    {
      assert routes[i].id != routes[j].id;
    }
  }

  ghost function Times(routes: seq<Route>, r: Route): nat {
    multiset(routes)[r]
  }

  /** Passing over the other types keeps every route of the type as often as it was listed. */
  lemma {:induction false} OwnTimes(listed: seq<Route>, kind: string, r: Route)
    ensures Times(OwnRoutes(listed, kind), r) == if r.kind == kind then Times(listed, r) else 0
  {
    if listed != [] {
      var init, last := listed[..|listed| - 1], listed[|listed| - 1];
      OwnTimes(init, kind, r);
      assert listed == init + [last];
    }
  }

  lemma {:induction false} OnceIsDistinct(routes: seq<Route>, i: nat, j: nat)
    requires i < j < |routes| && Times(routes, routes[i]) <= 1
    ensures routes[i] != routes[j]
  {
    assert routes == routes[..i] + [routes[i]] + routes[i + 1..j] + [routes[j]] + routes[j + 1..];
  }

  lemma {:induction false} Once(routes: seq<Route>, r: Route)
    requires forall i, j | 0 <= i < j < |routes| :: routes[i].id != routes[j].id
    ensures Times(routes, r) <= 1
  {
    if routes != [] {
      var init, last := routes[..|routes| - 1], routes[|routes| - 1];
      Once(init, r);
      assert routes == init + [last];
      assert forall k | 0 <= k < |init| :: init[k] == routes[k] && routes[k].id != last.id;
    }
  }

  ghost predicate Permuted(a: seq<Route>, b: seq<Route>) {
    forall r :: Times(a, r) == Times(b, r)
  }

  lemma {:induction false} PermutedHolds(a: seq<Route>, b: seq<Route>, r: Route)
    requires Permuted(a, b)
    ensures r in a <==> r in b
  {
    assert Times(a, r) == Times(b, r);
  }

  /** Sorting does not change what is listed. */
  lemma {:induction false} ListsPermuted(a: seq<Route>, b: seq<Route>, s: Store)
    requires Lists(a, s) && Permuted(a, b)
    ensures Lists(b, s)
  {
    forall i | 0 <= i < |b|
      ensures b[i].id in s && s[b[i].id] == SpotFor(b[i])
    {
      PermutedHolds(a, b, b[i]);
      var k :| 0 <= k < |a| && a[k] == b[i];
    }
    forall id | id in s
      ensures exists i :: 0 <= i < |b| && b[i].id == id
    {
      var k :| 0 <= k < |a| && a[k].id == id;
      PermutedHolds(a, b, a[k]);
      var i :| 0 <= i < |b| && b[i] == a[k];
    }
    forall i, j | 0 <= i < j < |b|
      ensures b[i].id != b[j].id
    {
      Once(a, b[i]);
      assert Times(a, b[i]) == Times(b, b[i]);
      OnceIsDistinct(b, i, j);
      assert s[b[i].id].data == b[i] && s[b[j].id].data == b[j];
    }
  }

  lemma {:induction false} LoweredPermuted(a: seq<Route>, b: seq<Route>)
    requires AllLowered(a) && Permuted(a, b)
    ensures AllLowered(b)
  {
    forall i {:trigger Lowered(b[i])} | 0 <= i < |b|
      ensures Lowered(b[i])
    {
      PermutedHolds(a, b, b[i]);
      var k :| 0 <= k < |a| && a[k] == b[i];
      assert Lowered(a[k]);
    }
  }

  /** A store that goes through the events and is listed in between, after `n` of them. */
  ghost predicate History(s: Store, events: seq<Event>, n: nat, listed: seq<Route>) {
    n <= |events| && Lists(listed, Replay(s, ChangesOf(events)[..n]))
  }

  /** It is in order throughout: its routes stay where they are, no two in one place, under
      lower-case domains, and sub-path routes have a root route. */
  ghost predicate Orderly(homes: Homes, s: Store, events: seq<Event>, listed: seq<Route>) {
    && OkThroughout(homes, s, ChangesOf(events)) && AllLowered(listed)
    && forall i {:trigger Lowered(events[i].route)} | 0 <= i < |events| :: Lowered(events[i].route)
  }

  /** What sort.Sort makes of the listed routes. */
  ghost predicate Sorts(sorted: seq<Route>, listed: seq<Route>) {
    multiset(sorted) == multiset(listed) && InOrder(sorted)
  }

  /** Sync: from any stale table, however Sync ends once it has started, the table is what the
      events that were taken make of the listed routes. If these are the routes at some point
      among the events taken, it is exactly the store's routes of the type after them. If
      moreover the store is orderly and no trie entry was stale, table and tries agree.
      Sync fails only where a Set fails, or at an event of an unknown kind. `sorted` is the
      list after sortInitialRoutes. */
  method Sync(h: Listener, kind: string, ghost listed: seq<Route>, sorted: seq<Route>, events: seq<Event>,
              certOk: Route -> bool, cacheOk: Route -> bool, done: nat -> bool, ghost homes: Homes, ghost s: Store,
              ghost n: nat)
    returns (end: SyncEnd, started: bool, taken: nat)
    requires h.Valid() && Sorts(sorted, listed)
    modifies h, h.nodes, h.known
    ensures h.Valid() && h.closed == old(h.closed)
    ensures taken <= |events| && (end == StreamEnded ==> started && taken == |events|)
    ensures started ==> (end == Cancelled <==> done(taken)) && forall i | 0 <= i < taken :: !done(i)
    ensures end == Cancelled ==> started
    ensures !started ==> SomeFails(listed, kind, certOk, cacheOk)
    ensures started ==> AllParse(listed, kind, certOk)
    ensures started && end == HandlerFailed ==>
              taken < |events| && events[taken].route.kind == kind && MayFail(events[taken], certOk, cacheOk)
    ensures forall i | 0 <= i < taken && events[i].route.kind == kind :: !Refused(events[i], certOk)
    ensures started && !h.closed ==>
              forall snapshot | Lists(OwnRoutes(listed, kind), snapshot) ::
                Spots(h.View()) == Replay(snapshot, ChangesOf(OwnEvents(events[..taken], kind)))
    ensures started && !h.closed && History(s, OwnEvents(events[..taken], kind), n, OwnRoutes(listed, kind)) ==>
              Spots(h.View()) == Replay(s, ChangesOf(OwnEvents(events[..taken], kind)))
    ensures started && !h.closed && History(s, OwnEvents(events[..taken], kind), n, OwnRoutes(listed, kind))
            && TableFit(homes, old(h.View()))
            && Orderly(homes, s, OwnEvents(events[..taken], kind), OwnRoutes(listed, kind)) ==>
              h.View().Agree()
  {
    ghost var t, all, ids, ops := h.View(), [], [], [];
    end, taken := HandlerFailed, 0;
    started, all, ids := SyncInitial(h, kind, sorted, certOk, cacheOk);
    SortedSame(listed, sorted, kind, certOk, cacheOk);
    if started {
      end, taken, ops := SyncEvents(h, kind, events, certOk, cacheOk, done);
      ghost var own, list := OwnEvents(events[..taken], kind), OwnRoutes(listed, kind);
      if !h.closed {
        forall snapshot | Lists(list, snapshot)
          ensures Spots(h.View()) == Replay(snapshot, ChangesOf(own))
        {
          SortedEnumerates(listed, sorted, kind, all, snapshot);
          TableFollows(t, snapshot, own, all, ids, ops);
        }
        if History(s, own, n, list) {
          SortedEnumerates(listed, sorted, kind, all, Replay(s, ChangesOf(own)[..n]));
          TableConverges(t, s, own, n, all, ids, ops);
          if TableFit(homes, t) && Orderly(homes, s, own, list) {
            SortedTidy(listed, sorted, kind, all);
            TriesConverge(homes, t, s, own, n, all, ids, ops);
          }
        }
      }
    }
  }

  /** Sorting does not change what fails. */
  lemma {:induction false} SortedSame(listed: seq<Route>, sorted: seq<Route>, kind: string, certOk: Route -> bool,
                                      cacheOk: Route -> bool)
    requires Sorts(sorted, listed)
    ensures AllParse(listed, kind, certOk) <==> AllParse(sorted, kind, certOk)
    ensures SomeFails(listed, kind, certOk, cacheOk) <==> SomeFails(sorted, kind, certOk, cacheOk)
  {
    forall i | 0 <= i < |sorted|
      ensures sorted[i] in listed
    {
      assert sorted[i] in multiset(sorted);
    }
    forall i | 0 <= i < |listed|
      ensures listed[i] in sorted
    {
      assert listed[i] in multiset(listed);
    }
  }

  lemma {:induction false} OwnPermuted(listed: seq<Route>, sorted: seq<Route>, kind: string)
    requires Sorts(sorted, listed)
    ensures Permuted(OwnRoutes(listed, kind), OwnRoutes(sorted, kind))
  {
    forall r
      ensures Times(OwnRoutes(listed, kind), r) == Times(OwnRoutes(sorted, kind), r)
    {
      OwnTimes(listed, kind, r);
      OwnTimes(sorted, kind, r);
    }
  }

  lemma {:induction false} SortedEnumerates(listed: seq<Route>, sorted: seq<Route>, kind: string,
                                            all: seq<HttpRoute>, s: Store)
    requires Sorts(sorted, listed) && Lists(OwnRoutes(listed, kind), s)
    requires AllMadeSane(all) && DataOf(all) == OwnRoutes(sorted, kind)
    ensures Enumerates(all, s)
  {
    OwnPermuted(listed, sorted, kind);
    ListsPermuted(OwnRoutes(listed, kind), OwnRoutes(sorted, kind), s);
    ListedEnumerate(all, s);
  }

  lemma {:induction false} SortedTidy(listed: seq<Route>, sorted: seq<Route>, kind: string, all: seq<HttpRoute>)
    requires Sorts(sorted, listed) && AllLowered(OwnRoutes(listed, kind)) && DataOf(all) == OwnRoutes(sorted, kind)
    ensures Tidy(all)
  {
    OwnPermuted(listed, sorted, kind);
    LoweredPermuted(OwnRoutes(listed, kind), OwnRoutes(sorted, kind));
    OwnInOrder(sorted, kind, SortName);
  }
}
