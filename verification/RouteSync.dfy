/** Reconciling the route table with the store (router/sync.go): watch first, list
    second, then replay the events, those included that the list reflects already. */
module RouteSync {
  import opened Collections
  import opened Options
  import opened Paths
  import opened Routes
  import opened RouteTable

  /** A route together with the place that its domain, port and path determine. */
  datatype Spot = Spot(data: Route, file: string, key: Key)

  function SpotOf(r: HttpRoute): Spot {
    Spot(r.data, r.file, r.key)
  }

  predicate IsRoot(s: Spot) {
    s.data.path == "/"
  }

  /** The store: the routes of one type by ID. */
  type Store = map<string, Spot>

  /** A committed change, as its event reports it. */
  datatype Change = Put(spot: Spot) | Drop(id: string)

  function IdOf(c: Change): string {
    match c
    case Put(spot) => spot.data.id
    case Drop(id) => id
  }

  function After(s: Store, c: Change): Store {
    match c
    case Put(spot) => s[spot.data.id := spot]
    case Drop(id) => s - {id}
  }

  function Replay(s: Store, cs: seq<Change>): Store
    decreases |cs|
  {
    if cs == [] then s else Replay(After(s, cs[0]), cs[1..])
  }

  predicate Touched(cs: seq<Change>, id: string) {
    exists i :: 0 <= i < |cs| && IdOf(cs[i]) == id
  }

  predicate SameAt(a: Store, b: Store, id: string) {
    if id in a then id in b && a[id] == b[id] else id !in b
  }

  /** Replaying the same changes over two stores that differ only on touched IDs ends
      in the same store. */
  lemma {:induction false} ReplayForgets(a: Store, b: Store, cs: seq<Change>)
    requires forall id :: SameAt(a, b, id) || Touched(cs, id)
    ensures Replay(a, cs) == Replay(b, cs)
    decreases |cs|
  {
    if cs == [] {
      forall id
        ensures (id in a <==> id in b) && (id in a ==> a[id] == b[id])
      {
        assert SameAt(a, b, id) || Touched(cs, id);
      }
      assert a == b;
    } else {
      var c, rest := cs[0], cs[1..];
      forall id
        ensures SameAt(After(a, c), After(b, c), id) || Touched(rest, id)
      {
        if id != IdOf(c) && !SameAt(a, b, id) {
          var i :| 0 <= i < |cs| && IdOf(cs[i]) == id;
          assert rest[i - 1] == cs[i];
        }
      }
      ReplayForgets(After(a, c), After(b, c), rest);
    }
  }

  lemma {:induction false} ReplayTouches(s: Store, cs: seq<Change>, id: string)
    ensures SameAt(Replay(s, cs), s, id) || Touched(cs, id)
    decreases |cs|
  {
    if cs != [] {
      var c, rest := cs[0], cs[1..];
      ReplayTouches(After(s, c), rest, id);
      if Touched(rest, id) {
        var i :| 0 <= i < |rest| && IdOf(rest[i]) == id;
        assert cs[i + 1] == rest[i];
      }
    }
  }

  /** Watch before list converges: wherever in the watched changes the list was taken,
      replaying all of them over the list ends at the store's current state. */
  lemma {:induction false} WatchThenListConverges(s: Store, cs: seq<Change>, listed: nat)
    requires listed <= |cs|
    ensures Replay(Replay(s, cs[..listed]), cs) == Replay(s, cs)
  {
    var snapshot := Replay(s, cs[..listed]);
    forall id
      ensures SameAt(snapshot, s, id) || Touched(cs, id)
    {
      ReplayTouches(s, cs[..listed], id);
      if Touched(cs[..listed], id) {
        var i :| 0 <= i < |cs[..listed]| && IdOf(cs[..listed][i]) == id;
        assert cs[i] == cs[..listed][i];
      }
    }
    ReplayForgets(snapshot, s, cs);
  }

  /** The routes of a table, with their places. */
  ghost function Spots(t: Table): Store {
    map id | id in t.routes :: SpotOf(t.routes[id])
  }

  /** The operation does to a table what the change does to the store. */
  ghost predicate Mirrors(op: Op, c: Change) {
    match c
    case Put(spot) => op.SetOp? && SpotOf(op.route) == spot
    case Drop(id) => op == RemoveOp(id)
  }

  ghost predicate MirrorsAll(ops: seq<Op>, cs: seq<Change>) {
    |ops| == |cs| && forall i | 0 <= i < |cs| :: Mirrors(ops[i], cs[i])
  }

  lemma {:induction false} SpotsAfter(t: Table, op: Op, c: Change)
    requires Mirrors(op, c)
    ensures Spots(Apply(t, op)) == After(Spots(t), c)
  {
  }

  /** Whatever the table holds, its routes follow the changes. */
  lemma {:induction false} SpotsRun(t: Table, ops: seq<Op>, cs: seq<Change>)
    requires MirrorsAll(ops, cs)
    ensures Spots(Run(t, ops)) == Replay(Spots(t), cs)
    decreases |ops|
  {
    if ops != [] {
      SpotsAfter(t, ops[0], cs[0]);
      SpotsRun(Apply(t, ops[0]), ops[1..], cs[1..]);
    }
  }

  /** Where each ID stands, once and for all. */
  type Homes = map<string, (string, Key)>

  predicate AtHome(homes: Homes, s: Spot) {
    s.data.id in homes && homes[s.data.id] == (s.file, s.key)
  }

  /** What the store guarantees: its routes are filed under their IDs and at their
      homes, no two have one place, and sub-path routes have a root route. */
  ghost predicate StoreOk(homes: Homes, s: Store) {
    && (forall id | id in s :: s[id].data.id == id && AtHome(homes, s[id]) && (IsRoot(s[id]) ==> s[id].key == Top))
    && (forall i, j | i in s && j in s && s[i].file == s[j].file && s[i].key == s[j].key :: i == j)
    && (forall id {:trigger HasRoot(s, s[id].file)} | id in s :: HasRoot(s, s[id].file))
  }

  ghost predicate HasRoot(s: Store, file: string) {
    exists id :: id in s && IsRoot(s[id]) && s[id].file == file
  }

  /** The store is in order now and after each of the changes. */
  ghost predicate OkThroughout(homes: Homes, s: Store, cs: seq<Change>)
    decreases |cs|
  {
    StoreOk(homes, s) && (cs == [] || OkThroughout(homes, After(s, cs[0]), cs[1..]))
  }

  /** The ID is in the store now and after each of the changes. */
  predicate Alive(s: Store, cs: seq<Change>, id: string)
    decreases |cs|
  {
    id in s && (cs == [] || Alive(After(s, cs[0]), cs[1..], id))
  }

  /** The root route of a key stays as long as a route under the key stays. */
  lemma {:induction false} RootStaysAlive(homes: Homes, s: Store, cs: seq<Change>, id: string, root: string)
    requires OkThroughout(homes, s, cs) && Alive(s, cs, id)
    requires root in s && IsRoot(s[root]) && s[root].file == s[id].file
    ensures Alive(s, cs, root)
    decreases |cs|
  {
    if cs != [] {
      var u := After(s, cs[0]);
      assert StoreOk(homes, u) && AtHome(homes, s[id]) && AtHome(homes, u[id]);
      assert HasRoot(u, u[id].file);
      var next :| next in u && IsRoot(u[next]) && u[next].file == u[id].file;
      SameRoot(homes, s, cs[0], root, next);
      RootStaysAlive(homes, u, cs[1..], id, root);
    }
  }

  /** One change does not replace the root route of a key by another one. */
  lemma {:induction false} SameRoot(homes: Homes, s: Store, c: Change, root: string, next: string)
    requires StoreOk(homes, s) && StoreOk(homes, After(s, c))
    requires root in s && IsRoot(s[root])
    requires next in After(s, c) && IsRoot(After(s, c)[next]) && After(s, c)[next].file == s[root].file
    ensures next == root
  {
    var u := After(s, c);
    if root in u {
      assert AtHome(homes, s[root]) && AtHome(homes, u[root]);
      assert u[root].file == u[next].file && u[root].key == u[next].key;
    } else {
      assert next in s && s[next] == u[next];
    }
  }

  /** The table's routes stand at their homes, under lower-case domains, and no trie
      entry is stale. */
  ghost predicate TableFit(homes: Homes, t: Table) {
    && t.Formed() && t.NoneStale()
    && forall id | id in t.routes :: AtHome(homes, SpotOf(t.routes[id])) && t.routes[id].seek == t.routes[id].file
  }

  /** The listener's operation for a change. */
  ghost predicate Carries(homes: Homes, op: Op, c: Change) {
    && Mirrors(op, c)
    && (c.Put? ==> Sane(op.route) && op.route.seek == op.route.file && AtHome(homes, c.spot))
  }

  /** Every ID that stays in the store is live in the table and filed. */
  ghost predicate AliveFiled(t: Table, s: Store, cs: seq<Change>) {
    forall id {:trigger Alive(s, cs, id)} | Alive(s, cs, id) :: id in t.routes && t.Filed(t.routes[id])
  }

  lemma {:induction false} CarriedFit(homes: Homes, t: Table, op: Op, c: Change)
    requires TableFit(homes, t) && Carries(homes, op, c)
    ensures TableFit(homes, Apply(t, op))
  {
    match c {
      case Put(spot) =>
        SetKeepsFormed(t, op.route);
        if spot.data.id in t.routes {
          assert AtHome(homes, SpotOf(t.routes[spot.data.id]));
        }
        SetKeepsNoneStale(t, op.route);
      case Drop(id) =>
        if id in t.routes {
          RemoveKeepsFormed(t, id);
          RemoveKeepsNoneStale(t, id);
        }
    }
  }

  /** Filing a route that stays: its trie exists, because its root route stays too. */
  lemma {:induction false} PutFiles(homes: Homes, t: Table, s: Store, cs: seq<Change>, r: HttpRoute)
    requires TableFit(homes, t) && cs != [] && cs[0].Put? && Carries(homes, SetOp(r), cs[0])
    requires OkThroughout(homes, s, cs) && AliveFiled(t, s, cs)
    requires Alive(After(s, cs[0]), cs[1..], r.data.id)
    ensures r.data.path == "/" || r.file in t.tries
  {
    var u, id := After(s, cs[0]), r.data.id;
    if r.data.path != "/" {
      assert StoreOk(homes, u);
      assert HasRoot(u, u[id].file);
      var root :| root in u && IsRoot(u[root]) && u[root].file == u[id].file;
      assert root != id && root in s;
      RootStaysAlive(homes, u, cs[1..], id, root);
      assert Alive(s, cs, root);
      assert t.Filed(t.routes[root]);
      assert AtHome(homes, SpotOf(t.routes[root])) && AtHome(homes, u[root]);
    }
  }

  /** What stays in the store stays filed when a put is carried out. */
  lemma {:induction false} PutKeepsAlive(homes: Homes, t: Table, s: Store, cs: seq<Change>, r: HttpRoute)
    requires TableFit(homes, t) && cs != [] && cs[0].Put? && Carries(homes, SetOp(r), cs[0])
    requires OkThroughout(homes, s, cs) && AliveFiled(t, s, cs)
    ensures AliveFiled(t.Set(r), After(s, cs[0]), cs[1..])
  {
    var t', u, rest := t.Set(r), After(s, cs[0]), cs[1..];
    forall id {:trigger Alive(u, rest, id)} | Alive(u, rest, id)
      ensures id in t'.routes && t'.Filed(t'.routes[id])
    {
      if id == r.data.id {
        PutFiles(homes, t, s, cs, r);
        SetAt(t, r, r.file, r.key);
      } else {
        assert Alive(s, cs, id);
        var q := t.routes[id];
        assert t.Filed(q);
        SetAt(t, r, q.file, q.key);
        assert StoreOk(homes, u) && AtHome(homes, u[id]) && AtHome(homes, SpotOf(q));
        assert u[r.data.id] == SpotOf(r) && (u[id].file != r.file || u[id].key != r.key);
      }
    }
  }

  /** What stays in the store stays filed when a drop is carried out. */
  lemma {:induction false} DropKeepsAlive(homes: Homes, t: Table, s: Store, cs: seq<Change>)
    requires TableFit(homes, t) && cs != [] && cs[0].Drop?
    requires OkThroughout(homes, s, cs) && AliveFiled(t, s, cs)
    ensures AliveFiled(Apply(t, RemoveOp(cs[0].id)), After(s, cs[0]), cs[1..])
  {
    var gone, u, rest := cs[0].id, After(s, cs[0]), cs[1..];
    var t' := Apply(t, RemoveOp(gone));
    forall id {:trigger Alive(u, rest, id)} | Alive(u, rest, id)
      ensures id in t'.routes && t'.Filed(t'.routes[id])
    {
      assert Alive(s, cs, id);
      var q := t.routes[id];
      assert t.Filed(q);
      if gone in t.routes {
        RemoveAt(t, gone, q.file, q.key);
        RootStaysFiled(homes, t, s, cs, id);
      }
    }
  }

  /** While a route stays in the store, the root entry of its trie is a route that stays too. */
  lemma {:induction false} RootStaysFiled(homes: Homes, t: Table, s: Store, cs: seq<Change>, id: string)
    requires TableFit(homes, t) && OkThroughout(homes, s, cs) && AliveFiled(t, s, cs) && Alive(s, cs, id)
    ensures id in t.routes
    ensures exists root :: Alive(s, cs, root) && root in t.routes
                           && t.At(t.routes[id].file, Top) == Some(t.routes[root])
  {
    assert StoreOk(homes, s) && HasRoot(s, s[id].file);
    var root :| root in s && IsRoot(s[root]) && s[root].file == s[id].file;
    RootStaysAlive(homes, s, cs, id, root);
    assert Alive(s, cs, root) && t.Filed(t.routes[root]);
    assert AtHome(homes, SpotOf(t.routes[root])) && AtHome(homes, s[root]);
    assert AtHome(homes, SpotOf(t.routes[id])) && AtHome(homes, s[id]);
  }

  ghost predicate CarriesAll(homes: Homes, ops: seq<Op>, cs: seq<Change>) {
    |ops| == |cs| && forall i | 0 <= i < |cs| :: Carries(homes, ops[i], cs[i])
  }

  /** Carrying out all watched changes keeps filed what stays, and files what the
      store holds in the end. */
  lemma {:induction false} ReplayFiles(homes: Homes, t: Table, s: Store, cs: seq<Change>, ops: seq<Op>)
    requires TableFit(homes, t) && OkThroughout(homes, s, cs) && AliveFiled(t, s, cs) && CarriesAll(homes, ops, cs)
    ensures TableFit(homes, Run(t, ops))
    ensures forall id | id in Replay(s, cs) :: id in Run(t, ops).routes && Run(t, ops).Filed(Run(t, ops).routes[id])
    decreases |cs|
  {
    if cs == [] {
      forall id | id in s
        ensures id in t.routes && t.Filed(t.routes[id])
      {
        assert Alive(s, cs, id);
      }
    } else {
      CarriedFit(homes, t, ops[0], cs[0]);
      match cs[0] {
        case Put(spot) => PutKeepsAlive(homes, t, s, cs, ops[0].route);
        case Drop(id) => DropKeepsAlive(homes, t, s, cs);
      }
      ReplayFiles(homes, Apply(t, ops[0]), After(s, cs[0]), cs[1..], ops[1..]);
    }
  }

  /** From a table that holds and files exactly the listed routes, carrying out all
      changes since the watch opened ends with table and tries in agreement. */
  lemma {:induction false} ReplayAgrees(homes: Homes, t: Table, s: Store, cs: seq<Change>, listed: nat, ops: seq<Op>)
    requires listed <= |cs| && OkThroughout(homes, s, cs) && CarriesAll(homes, ops, cs)
    requires TableFit(homes, t) && t.Agree() && Spots(t) == Replay(s, cs[..listed])
    ensures Run(t, ops).Agree()
  {
    forall id {:trigger Alive(s, cs, id)} | Alive(s, cs, id)
      ensures id in t.routes && t.Filed(t.routes[id])
    {
      AliveIsListed(s, cs, listed, id);
      assert id in Spots(t);
    }
    ReplayFiles(homes, t, s, cs, ops);
    WatchThenListConverges(s, cs, listed);
    SpotsRun(t, ops, cs);
    var u := Run(t, ops);
    assert Spots(u) == Replay(s, cs);
    forall id | id in u.routes
      ensures u.Filed(u.routes[id])
    {
      assert id in Spots(u);
    }
  }

  lemma {:induction false} AliveIsListed(s: Store, cs: seq<Change>, listed: nat, id: string)
    requires listed <= |cs| && Alive(s, cs, id)
    ensures id in Replay(s, cs[..listed])
    decreases |cs|
  {
    if listed > 0 {
      assert cs[..listed][0] == cs[0] && cs[..listed][1..] == cs[1..][..listed - 1];
      AliveIsListed(After(s, cs[0]), cs[1..], listed - 1, id);
    }
  }

  /** A list of routes as the initial phase sets them: at their homes, no ID and no
      place twice, and every sub-path route after the root route of its key. */
  ghost predicate Listing(homes: Homes, all: seq<HttpRoute>) {
    && (forall i {:trigger Sane(all[i])} | 0 <= i < |all| :: Sane(all[i]))
    && (forall i | 0 <= i < |all| :: all[i].seek == all[i].file && AtHome(homes, SpotOf(all[i])))
    && (forall i, j | 0 <= i < j < |all| :: all[i].data.id != all[j].data.id && !SamePlace(all[i], all[j]))
    && (forall i {:trigger RootBefore(all, i)} | 0 <= i < |all| :: RootBefore(all, i))
  }

  ghost predicate RootBefore(all: seq<HttpRoute>, i: nat)
    requires i < |all|
  {
    all[i].data.path == "/" || exists j :: 0 <= j < i && all[j].data.path == "/" && all[j].file == all[i].file
  }

  ghost predicate FiledUpTo(t: Table, all: seq<HttpRoute>, n: nat)
    requires n <= |all|
  {
    forall i | 0 <= i < n :: t.Live(all[i]) && t.Filed(all[i])
  }

  ghost function Sets(all: seq<HttpRoute>, n: nat): seq<Op>
    requires n <= |all|
    decreases |all| - n
  {
    if n == |all| then [] else [SetOp(all[n])] + Sets(all, n + 1)
  }

  ghost function Removes(ids: seq<string>): seq<Op> {
    if ids == [] then [] else [RemoveOp(ids[0])] + Removes(ids[1..])
  }

  ghost function IdsFrom(all: seq<HttpRoute>, n: nat): set<string> {
    set i | n <= i < |all| :: all[i].data.id
  }

  /** The first loop of the initial phase makes every listed route live, whatever the table holds. */
  lemma {:induction false} SetsAreLive(t: Table, all: seq<HttpRoute>, n: nat)
    requires n <= |all| && forall i, j | 0 <= i < j < |all| :: all[i].data.id != all[j].data.id
    requires forall i | 0 <= i < n :: t.Live(all[i])
    ensures forall i | 0 <= i < |all| :: Run(t, Sets(all, n)).Live(all[i])
    decreases |all| - n
  {
    if n < |all| {
      RunFirst(t, SetOp(all[n]), Sets(all, n + 1));
      forall i | 0 <= i < n + 1
        ensures t.Set(all[n]).Live(all[i])
      {
        assert i < n ==> t.Live(all[i]);
      }
      SetsAreLive(t.Set(all[n]), all, n + 1);
    }
  }

  /** The second loop takes exactly the given routes out of the table. */
  lemma {:induction false} RemovesRoutes(t: Table, ids: seq<string>)
    ensures Run(t, Removes(ids)).routes == t.routes - Elems(ids)
    decreases |ids|
  {
    ElemsStep(ids);
    if ids != [] {
      RunFirst(t, RemoveOp(ids[0]), Removes(ids[1..]));
      RemovesRoutes(Apply(t, RemoveOp(ids[0])), ids[1..]);
    }
  }

  /** The initial phase ends, from any table, with exactly the listed routes in the table. */
  lemma {:induction false} InitialPhaseLists(t: Table, all: seq<HttpRoute>, ids: seq<string>)
    requires forall i, j | 0 <= i < j < |all| :: all[i].data.id != all[j].data.id
    requires Elems(ids) == t.routes.Keys - IdsFrom(all, 0)
    ensures var u := Run(Run(t, Sets(all, 0)), Removes(ids));
            u.routes.Keys == IdsFrom(all, 0) && forall i | 0 <= i < |all| :: u.Live(all[i])
  {
    SetsAreLive(t, all, 0);
    SetsKeys(t, all, 0);
    var v := Run(t, Sets(all, 0));
    RemovesRoutes(v, ids);
    forall i | 0 <= i < |all|
      ensures Run(v, Removes(ids)).Live(all[i])
    {
      assert v.Live(all[i]) && all[i].data.id in IdsFrom(all, 0);
    }
  }

  /** The first loop of the initial phase files every listed route. */
  lemma {:induction false} SetsFile(homes: Homes, t: Table, all: seq<HttpRoute>, n: nat)
    requires n <= |all| && Listing(homes, all) && TableFit(homes, t) && FiledUpTo(t, all, n)
    ensures TableFit(homes, Run(t, Sets(all, n))) && FiledUpTo(Run(t, Sets(all, n)), all, |all|)
    decreases |all| - n
  {
    if n < |all| {
      SetNext(homes, t, all, n);
      RunFirst(t, SetOp(all[n]), Sets(all, n + 1));
      SetsFile(homes, t.Set(all[n]), all, n + 1);
    }
  }

  lemma {:induction false} SetNext(homes: Homes, t: Table, all: seq<HttpRoute>, n: nat)
    requires n < |all| && Listing(homes, all) && TableFit(homes, t) && FiledUpTo(t, all, n)
    ensures TableFit(homes, t.Set(all[n])) && FiledUpTo(t.Set(all[n]), all, n + 1)
  {
    assert Sane(all[n]);
    CarriedFit(homes, t, SetOp(all[n]), Put(SpotOf(all[n])));
    SetFilesNext(homes, t, all, n);
  }

  lemma {:induction false} SetsKeys(t: Table, all: seq<HttpRoute>, n: nat)
    requires n <= |all|
    ensures Run(t, Sets(all, n)).routes.Keys == t.routes.Keys + IdsFrom(all, n)
    decreases |all| - n
  {
    IdsFromStep(all, n);
    if n < |all| {
      RunFirst(t, SetOp(all[n]), Sets(all, n + 1));
      SetsKeys(t.Set(all[n]), all, n + 1);
    }
  }

  lemma {:induction false} IdsFromStep(all: seq<HttpRoute>, n: nat)
    requires n <= |all|
    ensures IdsFrom(all, n) == if n == |all| then {} else {all[n].data.id} + IdsFrom(all, n + 1)
  {
  }

  lemma {:induction false} RunFirst(t: Table, op: Op, ops: seq<Op>)
    ensures Run(t, [op] + ops) == Run(Apply(t, op), ops)
  {
    assert ([op] + ops)[1..] == ops;
  }

  lemma {:induction false} SetFilesNext(homes: Homes, t: Table, all: seq<HttpRoute>, n: nat)
    requires n < |all| && Listing(homes, all) && FiledUpTo(t, all, n)
    ensures FiledUpTo(t.Set(all[n]), all, n + 1)
  {
    var r := all[n];
    assert RootBefore(all, n);
    if r.data.path != "/" {
      var j :| 0 <= j < n && all[j].data.path == "/" && all[j].file == r.file;
      assert t.Filed(all[j]);
    }
    forall i | 0 <= i < n + 1
      ensures t.Set(r).Live(all[i]) && t.Set(r).Filed(all[i])
    {
      SetAt(t, r, all[i].file, all[i].key);
      if i < n {
        assert t.Live(all[i]) && t.Filed(all[i]);
      }
    }
  }

  /** The second loop removes the routes that are not listed, and no other. */
  lemma {:induction false} RemovesKeep(homes: Homes, t: Table, all: seq<HttpRoute>, ids: seq<string>)
    requires Listing(homes, all) && TableFit(homes, t) && FiledUpTo(t, all, |all|)
    requires forall i | 0 <= i < |ids| :: ids[i] in t.routes && ids[i] !in IdsFrom(all, 0)
    requires forall i, j | 0 <= i < j < |ids| :: ids[i] != ids[j]
    ensures TableFit(homes, Run(t, Removes(ids))) && FiledUpTo(Run(t, Removes(ids)), all, |all|)
    decreases |ids|
  {
    if ids != [] {
      CarriedFit(homes, t, RemoveOp(ids[0]), Drop(ids[0]));
      RemoveKeepsListed(homes, t, all, ids[0]);
      RunFirst(t, RemoveOp(ids[0]), Removes(ids[1..]));
      RemovesKeep(homes, t.Remove(ids[0]), all, ids[1..]);
    }
  }

  lemma {:induction false} ElemsStep(ids: seq<string>)
    ensures Elems(ids) == if ids == [] then {} else {ids[0]} + Elems(ids[1..])
  {
    assert ids != [] ==> ids == [ids[0]] + ids[1..];
  }

  lemma {:induction false} RemoveKeepsListed(homes: Homes, t: Table, all: seq<HttpRoute>, id: string)
    requires Listing(homes, all) && TableFit(homes, t) && FiledUpTo(t, all, |all|)
    requires id in t.routes && id !in IdsFrom(all, 0)
    ensures FiledUpTo(t.Remove(id), all, |all|)
  {
    var r := t.routes[id];
    assert Sane(t.routes[id]);
    forall i | 0 <= i < |all|
      ensures t.Remove(id).Live(all[i]) && t.Remove(id).Filed(all[i])
    {
      assert all[i].data.id in IdsFrom(all, 0);
      assert t.Live(all[i]) && t.Filed(all[i]);
      RemoveAt(t, id, all[i].file, all[i].key);
      if r.data.path == "/" && r.file == all[i].file {
        ListedRootStands(homes, t, all, i);
      }
    }
  }

  /** The root entry of a listed route's trie is a listed route. */
  lemma {:induction false} ListedRootStands(homes: Homes, t: Table, all: seq<HttpRoute>, i: nat)
    requires i < |all| && Listing(homes, all) && FiledUpTo(t, all, |all|)
    ensures exists j :: 0 <= j < |all| && all[j].data.id in IdsFrom(all, 0) && t.At(all[i].file, Top) == Some(all[j])
  {
    assert RootBefore(all, i);
    var j := if all[i].data.path == "/" then i
             else var j :| 0 <= j < i && all[j].data.path == "/" && all[j].file == all[i].file; j;
    assert t.Filed(all[j]) && Sane(all[j]);
    assert all[j].data.id in IdsFrom(all, 0);
  }

  lemma {:induction false} StaleIds(ids: seq<string>, live: set<string>, listed: set<string>)
    requires Elems(ids) == live - listed
    ensures forall i | 0 <= i < |ids| :: ids[i] in live && ids[i] !in listed
  {
    forall i | 0 <= i < |ids|
      ensures ids[i] in live - listed
    {
      assert ids[i] in Elems(ids);
    }
  }

  /** Without stale entries before, the initial phase ends with exactly the listed routes
      filed. */
  lemma {:induction false} InitialPhaseAgrees(homes: Homes, t: Table, all: seq<HttpRoute>, ids: seq<string>)
    requires Listing(homes, all) && TableFit(homes, t)
    requires forall i, j | 0 <= i < j < |ids| :: ids[i] != ids[j]
    requires Elems(ids) == t.routes.Keys - IdsFrom(all, 0)
    ensures var u := Run(Run(t, Sets(all, 0)), Removes(ids));
            TableFit(homes, u) && u.Agree()
  {
    InitialPhaseLists(t, all, ids);
    SetsFile(homes, t, all, 0);
    SetsKeys(t, all, 0);
    var v := Run(t, Sets(all, 0));
    StaleIds(ids, t.routes.Keys, IdsFrom(all, 0));
    assert forall i | 0 <= i < |ids| :: ids[i] in v.routes.Keys;
    RemovesKeep(homes, v, all, ids);
    OnlyListedAgrees(Run(v, Removes(ids)), all);
  }

  lemma {:induction false} OnlyListedAgrees(u: Table, all: seq<HttpRoute>)
    requires u.NoneStale() && FiledUpTo(u, all, |all|) && u.routes.Keys == IdsFrom(all, 0)
    ensures u.Agree()
  {
    forall id | id in u.routes
      ensures u.Filed(u.routes[id])
    {
      assert id in IdsFrom(all, 0);
      var i :| 0 <= i < |all| && all[i].data.id == id;
      assert u.Live(all[i]) && u.Filed(all[i]);
    }
  }

  /** Lexicographic order of strings. */
  predicate StringLess(a: string, b: string) {
    b != "" && (a == "" || a[0] < b[0] || (a[0] == b[0] && StringLess(a[1..], b[1..])))
  }

  /** path.Join(Domain, Path), for names without dot segments. */
  function SortName(route: Route): string {
    route.domain + Spell(Segments(route.path))
  }

  lemma {:induction false} PrefixIsLess(p: string, w: string)
    requires w != ""
    ensures StringLess(p, p + w) && !StringLess(p + w, p)
  {
    if p == "" {
      assert p + w == w;
    } else {
      assert (p + w)[0] == p[0] && (p + w)[1..] == p[1..] + w;
      PrefixIsLess(p[1..], w);
    }
  }

  ghost predicate InOrderBy(routes: seq<Route>, name: Route -> string) {
    forall i, j | 0 <= i < j < |routes| :: !StringLess(name(routes[j]), name(routes[i]))
  }

  ghost predicate InOrder(routes: seq<Route>) {
    InOrderBy(routes, SortName)
  }

  /** Sorting by domain and path puts every root route before the sub-path routes of its domain. */
  lemma {:induction false} SortPutsRootsFirst(routes: seq<Route>, i: nat, j: nat)
    requires InOrder(routes) && i < |routes| && j < |routes| && routes[j].domain == routes[i].domain
    requires Segments(routes[i].path) != Top && Segments(routes[j].path) == Top
    ensures j < i
  {
    var domain, w := routes[i].domain, Spell(Segments(routes[i].path));
    assert domain + "" == domain;
    PrefixIsLess(domain, w);
    assert StringLess(SortName(routes[j]), SortName(routes[i]));
  }
}
