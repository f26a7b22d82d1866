/** Streaming events to a client (controller/events.go): subscribe first, list what is past,
    and then pass on what the subscription delivers and the list did not hold. */
module EventStream {
  datatype Event = Event(id: int, app: string, objectType: string, objectID: string)

  datatype Filter = Filter(apps: seq<string>, types: seq<string>, objects: seq<string>)

  /** An empty list of a filter lets everything through. */
  predicate Matches(f: Filter, e: Event) {
    && (f.apps == [] || e.app in f.apps)
    && (f.types == [] || e.objectType in f.types)
    && (f.objects == [] || e.objectID in f.objects)
  }

  /** The matching events after an ID, in order. */
  function After(f: Filter, events: seq<Event>, id: int): seq<Event> {
    if events == [] then []
    else
      var init, last := After(f, events[..|events| - 1], id), events[|events| - 1];
      if Matches(f, last) && last.id > id then init + [last] else init
  }

  function Reverse(events: seq<Event>): (r: seq<Event>)
    ensures |r| == |events| && forall k | 0 <= k < |r| :: r[k] == events[|events| - 1 - k]
  {
    if events == [] then [] else [events[|events| - 1]] + Reverse(events[..|events| - 1])
  }

  /** ListEvents without a before ID: the latest matching events first, at most `count` of
      them if it is positive. */
  function List(f: Filter, events: seq<Event>, since: int, count: int): seq<Event> {
    var all := Reverse(After(f, events, since));
    if 0 < count < |all| then all[..count] else all
  }

  /** Nothing but what has an ID above `id`. */
  ghost function Above(events: seq<Event>, id: int): seq<Event> {
    if events == [] then []
    else
      var init, last := Above(events[..|events| - 1], id), events[|events| - 1];
      if last.id <= id then init else init + [last]
  }

  ghost function LastId(events: seq<Event>): int {
    if events == [] then 0 else events[|events| - 1].id
  }

  /** What is streamed: the list, oldest first, and what the subscription delivered after it. */
  ghost function Streamed(list: seq<Event>, delivered: seq<Event>): seq<Event> {
    Reverse(list) + Above(delivered, LastId(Reverse(list)))
  }

  /** The loop over the list, which is in descending order, from its end. */
  method SendPast(list: seq<Event>) returns (sent: seq<Event>, currID: int)
    ensures sent == Reverse(list) && currID == LastId(sent)
  {
    sent, currID := [], 0;
    var i := |list| - 1;
    while i >= 0
      invariant -1 <= i < |list|
      invariant sent == Reverse(list)[..|list| - 1 - i] && currID == LastId(sent)
    {
      sent := sent + [list[i]];
      currID := list[i].id;
      i := i - 1;
    }
  }

  /** The loop over what the subscription delivers. */
  method SendNew(delivered: seq<Event>, currID: int) returns (sent: seq<Event>)
    ensures sent == Above(delivered, currID)
  {
    sent := [];
    for k := 0 to |delivered|
      invariant sent == Above(delivered[..k], currID)
    {
      assert delivered[..k + 1][..k] == delivered[..k];
      if delivered[k].id > currID {
        sent := sent + [delivered[k]];
      }
    }
    assert delivered[..|delivered|] == delivered;
  }

  /** streamEvents, for the events that the subscription delivered so far. */
  method StreamEvents(f: Filter, lastID: int, past: bool, count: int, committed: seq<Event>, delivered: seq<Event>)
    returns (sent: seq<Event>)
    ensures sent == Streamed(if past || lastID > 0 then List(f, committed, lastID, count) else [], delivered)
  {
    var currID := 0;
    sent := [];
    if past || lastID > 0 {
      sent, currID := SendPast(List(f, committed, lastID, count));
    }
    var rest := SendNew(delivered, currID);
    sent := sent + rest;
  }

  /** Events are committed with growing positive IDs. */
  ghost predicate Ordered(events: seq<Event>) {
    && (forall i | 0 <= i < |events| :: events[i].id > 0)
    && (forall i, j | 0 <= i < j < |events| :: events[i].id < events[j].id)
  }

  lemma {:induction false} AfterJoin(f: Filter, a: seq<Event>, b: seq<Event>, id: int)
    ensures After(f, a + b, id) == After(f, a, id) + After(f, b, id)
  {
    if b == [] {
      assert a + b == a;
    } else {
      assert (a + b)[..|a + b| - 1] == a + b[..|b| - 1];
      AfterJoin(f, a, b[..|b| - 1], id);
    }
  }

  /** Filtering what was delivered is filtering what was committed. */
  lemma {:induction false} AboveIsAfter(f: Filter, events: seq<Event>, low: int, id: int)
    requires low <= id
    ensures Above(After(f, events, low), id) == After(f, events, id)
  {
    if events != [] {
      var init, last := events[..|events| - 1], events[|events| - 1];
      AboveIsAfter(f, init, low, id);
      if Matches(f, last) && last.id > low {
        var a := After(f, init, low);
        assert (a + [last])[..|a|] == a;
      }
    }
  }

  /** The matching events after an ID are those of the events, in their order. */
  lemma {:induction false} AfterIs(f: Filter, events: seq<Event>, id: int, e: Event)
    ensures e in After(f, events, id) <==> e in events && Matches(f, e) && e.id > id
  {
    if events != [] {
      var init, last := events[..|events| - 1], events[|events| - 1];
      AfterIs(f, init, id, e);
      assert events == init + [last];
    }
  }

  lemma {:induction false} AfterOrdered(f: Filter, events: seq<Event>, id: int)
    requires Ordered(events)
    ensures Ordered(After(f, events, id))
  {
    if events != [] {
      var init, last := events[..|events| - 1], events[|events| - 1];
      AfterOrdered(f, init, id);
      forall k | 0 <= k < |After(f, init, id)|
        ensures After(f, init, id)[k].id < last.id
      {
        AfterIs(f, init, id, After(f, init, id)[k]);
      }
    }
  }

  /** None of the events has an ID above. */
  lemma {:induction false} NoneAbove(f: Filter, events: seq<Event>, id: int)
    requires forall k | 0 <= k < |events| && Matches(f, events[k]) :: events[k].id <= id
    ensures After(f, events, id) == []
  {
    if events != [] {
      NoneAbove(f, events[..|events| - 1], id);
    }
  }

  /** All of the events have IDs above both. */
  lemma {:induction false} AllAbove(f: Filter, events: seq<Event>, low: int, high: int)
    requires forall k | 0 <= k < |events| :: events[k].id > low && events[k].id > high
    ensures After(f, events, low) == After(f, events, high)
  {
    if events != [] {
      AllAbove(f, events[..|events| - 1], low, high);
    }
  }

  function Max(a: nat, b: nat): nat {
    if a < b then b else a
  }

  /** How many of the oldest events a limit leaves out. */
  function Dropped(n: nat, count: int): (d: nat)
    ensures d <= n
  {
    if 0 < count < n then n - count else 0
  }

  /** The list, oldest first, is the end of what is wanted of the past. */
  lemma {:induction false} ListIsSuffix(f: Filter, events: seq<Event>, since: int, count: int)
    ensures var w := After(f, events, since);
            && Reverse(List(f, events, since, count)) == w[Dropped(|w|, count)..]
            && |List(f, events, since, count)| == if 0 < count < |w| then count else |w|
  {
  }

  /** The last listed event is committed and wanted, and nothing listed is newer. */
  lemma {:induction false} LastListed(f: Filter, events: seq<Event>, lastID: int)
    requires Ordered(events) && After(f, events, lastID) != []
    ensures var curr := LastId(After(f, events, lastID));
            curr > lastID && curr > 0 && (exists k :: 0 <= k < |events| && events[k].id == curr)
            && forall k | 0 <= k < |events| && Matches(f, events[k]) :: events[k].id <= curr
  {
    var w := After(f, events, lastID);
    AfterIs(f, events, lastID, w[|w| - 1]);
    AfterOrdered(f, events, lastID);
    forall k | 0 <= k < |events| && Matches(f, events[k])
      ensures events[k].id <= LastId(w)
    {
      AfterIs(f, events, lastID, events[k]);
    }
  }

  lemma {:induction false} LastOfPrefix(f: Filter, all: seq<Event>, b: nat, lastID: int)
    requires Ordered(all) && b <= |all| && After(f, all[..b], lastID) != []
    ensures var curr := LastId(After(f, all[..b], lastID));
            curr > lastID && curr > 0 && (exists k :: 0 <= k < b && all[k].id == curr)
            && forall k | 0 <= k < b && Matches(f, all[k]) :: all[k].id <= curr
  {
    var curr := LastId(After(f, all[..b], lastID));
    LastListed(f, all[..b], lastID);
    var k :| 0 <= k < b && all[..b][k].id == curr;
    assert all[k].id == curr;
    forall k | 0 <= k < b && Matches(f, all[k])
      ensures all[k].id <= curr
    {
      assert all[..b][k] == all[k];
    }
  }

  /** Up to the list everything that matches was listed or is not wanted; after the list
      everything that matches is wanted. */
  lemma {:induction false} RestIsNew(f: Filter, all: seq<Event>, a: nat, b: nat, n: nat, lastID: int, curr: int)
    requires Ordered(all) && a <= b <= |all| && a <= n <= |all| && lastID < curr
    requires exists k :: 0 <= k < b && all[k].id == curr
    requires forall k | 0 <= k < b && Matches(f, all[k]) :: all[k].id <= curr
    ensures After(f, all[..b], lastID) + After(f, all[a..n], curr) == After(f, all[..Max(b, n)], lastID)
  {
    if n <= b {
      NothingNew(f, all, a, n, b, curr);
    } else {
      NothingNew(f, all, a, b, b, curr);
      NewerAreAbove(f, all, b, n, lastID, curr);
      Split(f, all, a, b, n, curr);
      Split(f, all, 0, b, n, lastID);
    }
  }

  lemma {:induction false} NothingNew(f: Filter, all: seq<Event>, a: nat, n: nat, b: nat, curr: int)
    requires a <= n <= b <= |all| && forall k | 0 <= k < b && Matches(f, all[k]) :: all[k].id <= curr
    ensures After(f, all[a..n], curr) == []
  {
    NoneAbove(f, all[a..n], curr);
  }

  lemma {:induction false} Split(f: Filter, all: seq<Event>, a: nat, b: nat, n: nat, id: int)
    requires a <= b <= n <= |all|
    ensures After(f, all[a..n], id) == After(f, all[a..b], id) + After(f, all[b..n], id)
    ensures a == 0 ==> After(f, all[..n], id) == After(f, all[..b], id) + After(f, all[b..n], id)
  {
    assert all[a..n] == all[a..b] + all[b..n];
    AfterJoin(f, all[a..b], all[b..n], id);
    assert all[..n] == all[0..n] && all[..b] == all[0..b];
  }

  lemma {:induction false} NewerAreAbove(f: Filter, all: seq<Event>, b: nat, n: nat, low: int, curr: int)
    requires Ordered(all) && b <= n <= |all| && low < curr && exists k :: 0 <= k < b && all[k].id == curr
    ensures After(f, all[b..n], curr) == After(f, all[b..n], low)
  {
    AllAbove(f, all[b..n], curr, low);
  }

  /** Whenever the list is not empty, and wherever between the commits the subscription and
      the list were taken, the stream holds every matching event after the client's last
      one exactly once and in order, but for the oldest that a limit leaves out. */
  lemma {:induction false} StreamContinuesList(f: Filter, all: seq<Event>, a: nat, b: nat, n: nat, lastID: int,
                                               count: int)
    requires Ordered(all) && a <= b <= |all| && a <= n <= |all| && After(f, all[..b], lastID) != []
    ensures var wanted, d := After(f, all[..Max(b, n)], lastID), Dropped(|After(f, all[..b], lastID)|, count);
            d <= |wanted| && Streamed(List(f, all[..b], lastID, count), After(f, all[a..n], 0)) == wanted[d..]
  {
    var w, rest := After(f, all[..b], lastID), After(f, all[a..n], 0);
    var curr, d := LastId(w), Dropped(|w|, count);
    LastOfPrefix(f, all, b, lastID);
    RestIsNew(f, all, a, b, n, lastID, curr);
    ListIsSuffix(f, all[..b], lastID, count);
    AboveIsAfter(f, all[a..n], 0, curr);
    Suffixes(w, Above(rest, curr), d);
  }

  lemma {:induction false} Suffixes(w: seq<Event>, rest: seq<Event>, d: nat)
    requires d < |w|
    ensures LastId(w[d..]) == LastId(w) && (w + rest)[d..] == w[d..] + rest
  {
  }

  lemma {:induction false} StreamWithoutList(f: Filter, all: seq<Event>, a: nat, n: nat)
    requires a <= n <= |all|
    ensures Streamed([], After(f, all[a..n], 0)) == After(f, all[a..n], 0)
  {
    AboveIsAfter(f, all[a..n], 0, 0);
  }

  /** Without a limit the stream is exactly the matching events after the client's last one,
      each once and in order, if and only if something was listed or the subscription
      delivered nothing up to the client's last event. */
  lemma {:induction false} StreamIsExactIff(f: Filter, all: seq<Event>, a: nat, b: nat, n: nat, lastID: int, count: int)
    requires Ordered(all) && a <= b <= |all| && a <= n <= |all| && count <= 0
    ensures Streamed(List(f, all[..b], lastID, count), After(f, all[a..n], 0)) == After(f, all[..Max(b, n)], lastID)
       <==> After(f, all[..b], lastID) != [] || forall k | a <= k < n && Matches(f, all[k]) :: all[k].id > lastID
  {
    if After(f, all[..b], lastID) != [] {
      StreamContinuesList(f, all, a, b, n, lastID, count);
    } else {
      StreamWithoutList(f, all, a, n);
      EmptyListIff(f, all, a, b, n, lastID);
    }
  }

  lemma {:induction false} EmptyListIff(f: Filter, all: seq<Event>, a: nat, b: nat, n: nat, lastID: int)
    requires Ordered(all) && a <= b <= |all| && a <= n <= |all| && After(f, all[..b], lastID) == []
    ensures After(f, all[a..n], 0) == After(f, all[..Max(b, n)], lastID)
       <==> forall k | a <= k < n && Matches(f, all[k]) :: all[k].id > lastID
  {
    var m := Max(b, n);
    if k :| a <= k < n && Matches(f, all[k]) && all[k].id <= lastID {
      AfterIs(f, all[a..n], 0, all[k]);
      assert all[a..n][k - a] == all[k];
      AfterIs(f, all[..m], lastID, all[k]);
    } else {
      SameFilter(f, all[a..n], lastID);
      assert all[..m] == all[..b] + all[b..m];
      AfterJoin(f, all[..b], all[b..m], lastID);
      TailOfEmpty(f, all, a, b, n, lastID);
    }
  }

  lemma {:induction false} SameFilter(f: Filter, events: seq<Event>, id: int)
    requires forall k | 0 <= k < |events| :: events[k].id > 0
    requires forall k | 0 <= k < |events| && Matches(f, events[k]) :: events[k].id > id
    ensures After(f, events, 0) == After(f, events, id)
  {
    if events != [] {
      SameFilter(f, events[..|events| - 1], id);
    }
  }

  lemma {:induction false} TailOfEmpty(f: Filter, all: seq<Event>, a: nat, b: nat, n: nat, lastID: int)
    requires a <= b <= |all| && a <= n <= |all| && After(f, all[..b], lastID) == []
    ensures After(f, all[a..n], lastID) == After(f, all[b..Max(b, n)], lastID)
  {
    assert all[..b] == all[..a] + all[a..b];
    AfterJoin(f, all[..a], all[a..b], lastID);
    if n <= b {
      assert all[a..b] == all[a..n] + all[n..b];
      AfterJoin(f, all[a..n], all[n..b], lastID);
    } else {
      assert all[a..n] == all[a..b] + all[b..n];
      AfterJoin(f, all[a..b], all[b..n], lastID);
    }
  }

  /** The promise to a client that saw nothing newer than the subscription: every matching
      event after its last one is streamed exactly once, in order. */
  lemma {:induction false} StreamIsExact(f: Filter, all: seq<Event>, a: nat, b: nat, n: nat, lastID: int, count: int)
    requires Ordered(all) && a <= b <= |all| && a <= n <= |all| && count <= 0
    requires forall k | a <= k < |all| :: all[k].id > lastID
    ensures var sent := Streamed(List(f, all[..b], lastID, count), After(f, all[a..n], 0));
            && (forall e :: e in sent <==> e in all[..Max(b, n)] && Matches(f, e) && e.id > lastID)
            && Ordered(sent)
  {
    StreamIsExactIff(f, all, a, b, n, lastID, count);
    var sent := Streamed(List(f, all[..b], lastID, count), After(f, all[a..n], 0));
    forall e
      ensures e in sent <==> e in all[..Max(b, n)] && Matches(f, e) && e.id > lastID
    {
      AfterIs(f, all[..Max(b, n)], lastID, e);
    }
    AfterOrdered(f, all[..Max(b, n)], lastID);
  }

  /** A client that claims to have seen a later event gets an earlier one nevertheless. */
  lemma {:induction false} StreamBeforeLastId(e: Event)
    requires 0 < e.id
    ensures var f := Filter([], [], []);
            Streamed(List(f, [], e.id + 1, 0), After(f, [e], 0)) == [e] && After(f, [e], e.id + 1) == []
  {
    var f := Filter([], [], []);
    assert After(f, [e][..0], 0) == [] && After(f, [e][..0], e.id + 1) == [];
    assert After(f, [e], 0) == [e];
    assert Above([e][..0], 0) == [];
  }
}
