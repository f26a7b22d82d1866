/** The routes that the router serves, and the keys under which it files them. */
module Routes {

  /** router.Route, without the fields that only the proxy reads. */
  datatype Route = Route(
    kind: string,
    id: string,
    service: string,
    port: int,
    domain: string,
    path: string,
    drainBackends: bool
  )

  /** strings.ToLower, on ASCII. */
  function LowerChar(c: char): char {
    if 'A' <= c <= 'Z' then c + 32 as char else c
  }

  function Lower(s: string): (r: string)
    ensures |r| == |s|
    ensures forall i | 0 <= i < |s| :: r[i] == LowerChar(s[i])
  {
    if s == "" then "" else [LowerChar(s[0])] + Lower(s[1..])
  }

  function Digits(n: nat): string {
    if n < 10 then ["0123456789"[n]] else Digits(n / 10) + ["0123456789"[n % 10]]
  }

  /** strconv.Itoa. */
  function Itoa(n: int): string {
    if n < 0 then "-" + Digits(-n) else Digits(n)
  }

  /** net.JoinHostPort. */
  function JoinHostPort(host: string, port: string): string {
    if ':' in host then "[" + host + "]:" + port else host + ":" + port
  }

  /** The key under which Set files a route: its domain is lower-cased. */
  function FileKey(r: Route): string {
    JoinHostPort(Lower(r.domain), Itoa(r.port))
  }

  /** The key under which Remove looks for it: its domain is taken as it is. */
  function SeekKey(r: Route): string {
    JoinHostPort(r.domain, Itoa(r.port))
  }

  lemma {:induction false} LowerIdempotent(s: string)
    ensures Lower(Lower(s)) == Lower(s)
  {
  }

  lemma {:induction false} LowerJoin(s: string, t: string)
    ensures Lower(s + t) == Lower(s) + Lower(t)
  {
  }

  lemma {:induction false} LowerDigits(n: nat)
    ensures Lower(Digits(n)) == Digits(n)
  {
    if n >= 10 {
      LowerDigits(n / 10);
      LowerJoin(Digits(n / 10), ["0123456789"[n % 10]]);
    }
  }

  lemma {:induction false} LowerItoa(n: int)
    ensures Lower(Itoa(n)) == Itoa(n)
  {
    if n < 0 {
      LowerDigits(-n);
      LowerJoin("-", Digits(-n));
    } else {
      LowerDigits(n);
    }
  }

  lemma {:induction false} LowerJoinHostPort(host: string, port: string)
    requires Lower(port) == port
    ensures Lower(JoinHostPort(host, port)) == JoinHostPort(Lower(host), port)
  {
    assert ':' in host ==> ':' in Lower(host) by {
      if ':' in host {
        var i :| 0 <= i < |host| && host[i] == ':';
        assert Lower(host)[i] == ':';
      }
    }
    if ':' in host {
      LowerJoin("[" + host + "]:", port);
      LowerJoin("[" + host, "]:");
      LowerJoin("[", host);
      assert Lower("[") == "[" && Lower("]:") == "]:";
    } else {
      LowerJoin(host + ":", port);
      LowerJoin(host, ":");
      assert Lower(":") == ":";
    }
  }

  /** Lower-casing a key lower-cases the host in it. */
  lemma {:induction false} LowerSeekKey(r: Route)
    ensures Lower(SeekKey(r)) == FileKey(r)
  {
    LowerItoa(r.port);
    LowerJoinHostPort(r.domain, Itoa(r.port));
  }

  /** Set and Remove use one key exactly for a domain without upper-case letters. */
  lemma {:induction false} KeysAgree(r: Route)
    ensures SeekKey(r) == FileKey(r) <==> Lower(r.domain) == r.domain
    ensures SeekKey(r) == FileKey(r) <==> forall i | 0 <= i < |r.domain| :: !('A' <= r.domain[i] <= 'Z')
    ensures Lower(FileKey(r)) == FileKey(r)
  {
    LowerSeekKey(r);
    LowerIdempotent(SeekKey(r));
    var port := Itoa(r.port);
    if SeekKey(r) == FileKey(r) {
      var at := if ':' in r.domain then 1 else 0;
      forall i | 0 <= i < |r.domain|
        ensures Lower(r.domain)[i] == r.domain[i]
      {
        assert SeekKey(r)[i + at] == r.domain[i];
        assert Lower(SeekKey(r))[i + at] == LowerChar(SeekKey(r)[i + at]);
      }
    }
  }
}

/** Keys tell hosts apart. */
module HostKeys {
  import opened Routes

  lemma {:induction false} DigitsHaveNoColon(n: nat)
    ensures ':' !in Digits(n)
  {
    if n >= 10 {
      DigitsHaveNoColon(n / 10);
    }
  }

  /** The number that decimal digits denote. */
  function Value(digits: string): int {
    if digits == "" then 0 else Value(digits[..|digits| - 1]) * 10 + (digits[|digits| - 1] as int - '0' as int)
  }

  /** Digits are decimal, without leading zeros. */
  lemma {:induction false} DigitsDenote(n: nat)
    ensures Value(Digits(n)) == n && Digits(n) != ""
    ensures forall c | c in Digits(n) :: '0' <= c <= '9'
    ensures Digits(n)[0] == '0' ==> n == 0
  {
    var digit := ["0123456789"[n % 10]];
    assert Value(digit) == n % 10 && '0' <= digit[0] <= '9' by {
      assert digit[..0] == "";
    }
    if n >= 10 {
      var ten := Digits(n / 10);
      DigitsDenote(n / 10);
      assert (ten + digit)[..|ten|] == ten;
    }
  }

  lemma {:induction false} ItoaInjective(m: int, n: int)
    requires Itoa(m) == Itoa(n)
    ensures m == n
  {
    DigitsDenote(if m < 0 then -m else m);
    DigitsDenote(if n < 0 then -n else n);
    if m < 0 && n < 0 {
      assert Digits(-m) == Itoa(m)[1..] == Digits(-n);
    } else {
      assert (m < 0) == (Itoa(m)[0] == '-') by {
        assert m >= 0 ==> Itoa(m)[0] in Digits(m);
      }
      assert (n < 0) == (Itoa(n)[0] == '-') by {
        assert n >= 0 ==> Itoa(n)[0] in Digits(n);
      }
    }
  }

  lemma {:induction false} ItoaHasNoColon(n: int)
    ensures ':' !in Itoa(n)
  {
    DigitsHaveNoColon(if n < 0 then -n else n);
  }

  lemma {:induction false} LastColon(a: string, p: string, b: string, q: string)
    requires ':' !in p && ':' !in q && a + ":" + p == b + ":" + q
    ensures a == b && p == q
  {
    var k := a + ":" + p;
    assert k[|a|] == ':' && forall i | |a| < i < |k| :: k[i] == p[i - |a| - 1];
    assert k[|b|] == ':' && forall i | |b| < i < |k| :: k[i] == q[i - |b| - 1];
    assert a == k[..|a|] && b == k[..|b|] && p == k[|a| + 1..] && q == k[|b| + 1..];
  }

  /** Routes are filed under one key exactly if they have one lower-case domain and one port. */
  lemma {:induction false} KeyGivesHost(r: Route, q: Route)
    ensures FileKey(r) == FileKey(q) <==> Lower(r.domain) == Lower(q.domain) && r.port == q.port
  {
    KeyIsFor(r, Lower(q.domain), q.port);
  }

  /** A route is filed under the key of a host and a port exactly if they are its own. */
  lemma {:induction false} KeyIsFor(r: Route, host: string, port: int)
    ensures FileKey(r) == JoinHostPort(host, Itoa(port)) <==> Lower(r.domain) == host && r.port == port
  {
    if FileKey(r) == JoinHostPort(host, Itoa(port)) {
      ItoaHasNoColon(r.port);
      ItoaHasNoColon(port);
      KeyGivesName(Lower(r.domain), Itoa(r.port), host, Itoa(port));
      ItoaInjective(r.port, port);
    }
  }

  lemma {:induction false} KeyGivesName(a: string, p: string, b: string, q: string)
    requires ':' !in p && ':' !in q && JoinHostPort(a, p) == JoinHostPort(b, q)
    ensures a == b && p == q
  {
    var a', b' := if ':' in a then "[" + a + "]" else a, if ':' in b then "[" + b + "]" else b;
    assert ':' in a ==> JoinHostPort(a, p) == a' + ":" + p;
    assert ':' in b ==> JoinHostPort(b, q) == b' + ":" + q;
    LastColon(a', p, b', q);
    if ':' in a {
      var i :| 0 <= i < |a| && a[i] == ':';
      assert a'[i + 1] == ':';
      assert a == a'[1..|a'| - 1];
    }
    if ':' in b {
      var i :| 0 <= i < |b| && b[i] == ':';
      assert b'[i + 1] == ':';
      assert b == b'[1..|b'| - 1];
    }
  }
}

/** The router's route table: the routes by ID and, per domain and port, by path. */
module RouteTable {
  import opened Options
  import opened Paths
  import opened TrieShape
  import opened Routes

  /** A service with its discoverd cache. */
  class Service {
    const name: string
    var refs: int
    var closed: bool

    constructor (name: string)
      ensures this.name == name && refs == 0 && !closed
    {
      this.name := name;
      refs := 0;
      closed := false;
    }
  }

  /** A route as the listener holds it. The handle numbers these objects in order of
      creation, so that two of them are equal only if they are one object. The keys
      and the path segments are those that its route determines. */
  datatype HttpRoute = HttpRoute(handle: nat, data: Route, service: Service, file: string, seek: string, key: Key)

  function NewHttpRoute(handle: nat, data: Route, service: Service): (r: HttpRoute)
    ensures Sane(r) && Made(r) && r.handle == handle && r.data == data && r.service == service
  {
    LowerSeekKey(data); RootPath();
    HttpRoute(handle, data, service, FileKey(data), SeekKey(data), Segments(data.path))
  }

  /** What the table theory needs to know about keys and segments of a route. */
  ghost predicate Sane(r: HttpRoute) {
    Lower(r.seek) == r.file && (r.data.path == "/" ==> r.key == Top)
  }

  lemma {:induction false} RootPath()
    ensures Segments("/") == Top
  {
    assert "/"[..0] == "" && "/"[1..] == "";
  }

  /** Two routes compete for one place: same key, same path segments. */
  predicate SamePlace(r: HttpRoute, q: HttpRoute) {
    r.file == q.file && r.key == q.key
  }

  /** The tries after filing a route: a route of the path "/" may start a trie, a
      sub-path route without a trie for its key is left out. */
  ghost function With(tries: map<string, map<Key, HttpRoute>>, r: HttpRoute): map<string, map<Key, HttpRoute>> {
    if r.file in tries then tries[r.file := tries[r.file][r.key := r]]
    else if r.data.path == "/" then tries[r.file := map[r.key := r]]
    else tries
  }

  /** The tries after withdrawing a route: a root route takes its whole trie with it,
      and an entry that is not the route itself stays. */
  ghost function Without(tries: map<string, map<Key, HttpRoute>>, r: HttpRoute): map<string, map<Key, HttpRoute>> {
    if r.seek !in tries then tries
    else if r.data.path == "/" && Top in tries[r.seek] && tries[r.seek][Top] == r then tries - {r.seek}
    else if BestMatch(tries[r.seek], r.key) == Some(r) then tries[r.seek := tries[r.seek] - {r.key}]
    else tries
  }

  /** The listener's two indexes: routes by ID, and per key the map that the trie represents. */
  datatype Table = Table(routes: map<string, HttpRoute>, tries: map<string, map<Key, HttpRoute>>)
  {
    /** IDs name their routes, and no trie is filed under a key with upper-case letters. */
    ghost predicate Formed() {
      && (forall id | id in routes :: routes[id].data.id == id)
      && (forall id {:trigger Sane(routes[id])} | id in routes :: Sane(routes[id]))
      && (forall k | k in tries :: Lower(k) == k)
    }

    ghost predicate Live(r: HttpRoute) {
      r.data.id in routes && routes[r.data.id] == r
    }

    /** What stands at a place of the tries. */
    ghost function At(file: string, key: Key): Option<HttpRoute> {
      if file in tries && key in tries[file] then Some(tries[file][key]) else None
    }

    /** Every entry of every trie is a live route at its own place. */
    ghost predicate NoneStale() {
      forall k, p {:trigger At(k, p)} | At(k, p).Some? ::
        Live(At(k, p).value) && At(k, p).value.file == k && At(k, p).value.key == p
    }

    /** The trie for the route's key holds the route at the route's path. */
    ghost predicate Filed(r: HttpRoute) {
      At(r.file, r.key) == Some(r)
    }

    /** Table and tries agree: each live route is filed, and nothing else is. */
    ghost predicate Agree() {
      NoneStale() && forall id | id in routes :: Filed(routes[id])
    }

    /** The route object is in neither index. */
    ghost predicate Unknown(r: HttpRoute) {
      && (forall id | id in routes :: routes[id] != r)
      && (forall k, p {:trigger At(k, p)} :: At(k, p) != Some(r))
    }

    /** httpSyncHandler.Set. */
    ghost function Set(r: HttpRoute): Table {
      Table(routes[r.data.id := r], With(tries, r))
    }

    /** httpSyncHandler.Remove. */
    ghost function Remove(id: string): Table
      requires id in routes
    {
      Table(routes - {id}, Without(tries, routes[id]))
    }
  }

  /** When a Set is safe: a sub-path route finds its domain, an ID keeps its place,
      and no other live route has that place. */
  ghost predicate SafeSet(t: Table, r: HttpRoute) {
    && (r.data.path == "/" || r.file in t.tries)
    && (r.data.id in t.routes ==> SamePlace(t.routes[r.data.id], r))
    && (forall id | id in t.routes && id != r.data.id :: !SamePlace(t.routes[id], r))
  }

  /** When a Remove is safe: Set and Remove compute one key for the route, and the route
      of the path "/" is the last one of its domain and port. */
  ghost predicate SafeRemove(t: Table, id: string) {
    id in t.routes ==>
      var r := t.routes[id];
      && r.seek == r.file
      && (r.data.path == "/" ==> forall other | other in t.routes && other != id :: t.routes[other].file != r.file)
  }

  /** What a Set does to each place. */
  lemma {:induction false} SetAt(t: Table, r: HttpRoute, k: string, p: Key)
    ensures t.Set(r).At(k, p) ==
            if k == r.file && p == r.key && (r.file in t.tries || r.data.path == "/") then Some(r) else t.At(k, p)
  {
  }

  lemma {:induction false} SetKeepsFormed(t: Table, r: HttpRoute)
    requires t.Formed() && Sane(r)
    ensures t.Set(r).Formed()
  {
    LowerIdempotent(r.seek);
    var u := t.Set(r);
    forall id {:trigger Sane(u.routes[id])} | id in u.routes
      ensures Sane(u.routes[id])
    {
      if id != r.data.id {
        assert Sane(t.routes[id]);
      }
    }
  }

  /** The table holds no route object from the n-th on. */
  ghost predicate Below(t: Table, n: nat) {
    && (forall id | id in t.routes :: t.routes[id].handle < n)
    && (forall k, p {:trigger t.At(k, p)} | t.At(k, p).Some? :: t.At(k, p).value.handle < n)
  }

  lemma {:induction false} SetStaysBelow(t: Table, r: HttpRoute)
    requires Below(t, r.handle)
    ensures t.Unknown(r) && Below(t.Set(r), r.handle + 1)
  {
    var u := t.Set(r);
    forall k, p | u.At(k, p).Some?
      ensures u.At(k, p).value.handle < r.handle + 1
    {
      SetAt(t, r, k, p);
    }
  }

  lemma {:induction false} RemoveStaysBelow(t: Table, id: string, n: nat)
    requires Below(t, n) && id in t.routes
    ensures Below(t.Remove(id), n)
  {
    var u := t.Remove(id);
    forall k, p | u.At(k, p).Some?
      ensures u.At(k, p).value.handle < n
    {
      assert t.At(k, p) == u.At(k, p);
    }
  }

  /** The keys and the segments of a route object are those of its data. */
  ghost predicate Made(r: HttpRoute) {
    r.file == FileKey(r.data) && r.seek == SeekKey(r.data) && r.key == Segments(r.data.path)
  }

  ghost predicate AllMade(routes: map<string, HttpRoute>) {
    forall id {:trigger Made(routes[id])} | id in routes :: Made(routes[id])
  }

  lemma {:induction false} AllMadeUpdate(routes: map<string, HttpRoute>, r: HttpRoute)
    requires AllMade(routes) && Made(r)
    ensures AllMade(routes[r.data.id := r])
  {
    var after := routes[r.data.id := r];
    forall id {:trigger Made(after[id])} | id in after
      ensures Made(after[id])
    {
      if id != r.data.id {
        assert Made(routes[id]);
      }
    }
  }

  lemma {:induction false} AllMadeRemove(routes: map<string, HttpRoute>, id: string)
    requires AllMade(routes)
    ensures AllMade(routes - {id})
  {
    var after := routes - {id};
    forall other {:trigger Made(after[other])} | other in after
      ensures Made(after[other])
    {
      assert Made(routes[other]);
    }
  }

  /** Set keeps table and tries in agreement exactly when it is safe. */
  lemma {:induction false} SetAgreesIff(t: Table, r: HttpRoute)
    requires t.Formed() && t.Agree() && t.Unknown(r)
    ensures t.Set(r).Agree() <==> SafeSet(t, r)
  {
    if SafeSet(t, r) {
      SafeSetAgrees(t, r);
    }
    if t.Set(r).Agree() {
      AgreeingSetIsSafe(t, r);
    }
  }

  lemma {:induction false} AgreeingSetIsSafe(t: Table, r: HttpRoute)
    requires t.Formed() && t.Agree() && t.Unknown(r) && t.Set(r).Agree()
    ensures SafeSet(t, r)
  {
    var u := t.Set(r);
    assert u.routes[r.data.id] == r && u.Filed(r);
    SetAt(t, r, r.file, r.key);
    if r.data.id in t.routes {
      var prior := t.routes[r.data.id];
      assert t.Filed(prior);
      SetAt(t, r, prior.file, prior.key);
    }
    forall id | id in t.routes && id != r.data.id
      ensures !SamePlace(t.routes[id], r)
    {
      assert u.routes[id] == t.routes[id] && u.Filed(t.routes[id]);
    }
  }

  lemma {:induction false} SafeSetAgrees(t: Table, r: HttpRoute)
    requires t.Formed() && t.Agree() && SafeSet(t, r)
    ensures t.Set(r).Agree()
  {
    var u := t.Set(r);
    forall k, p | u.At(k, p).Some?
      ensures u.Live(u.At(k, p).value) && u.At(k, p).value.file == k && u.At(k, p).value.key == p
    {
      SetAt(t, r, k, p);
      if k != r.file || p != r.key {
        assert t.Live(t.At(k, p).value);
      }
    }
    forall id | id in u.routes
      ensures u.Filed(u.routes[id])
    {
      SetAt(t, r, u.routes[id].file, u.routes[id].key);
      if id != r.data.id {
        assert t.Filed(t.routes[id]);
      }
    }
  }

  lemma {:induction false} RemoveKeepsFormed(t: Table, id: string)
    requires t.Formed() && id in t.routes
    ensures t.Remove(id).Formed()
  {
    var u := t.Remove(id);
    forall other {:trigger Sane(u.routes[other])} | other in u.routes
      ensures Sane(u.routes[other])
    {
      assert Sane(t.routes[other]);
    }
  }

  /** A key with upper-case letters leads to no trie. */
  lemma {:induction false} SeekMisses(t: Table, r: HttpRoute)
    requires t.Formed() && Sane(r) && r.seek != r.file
    ensures r.seek !in t.tries
  {
  }

  /** What a Remove does to each place, when no stale entry stands in the tries. */
  lemma {:induction false} RemoveAt(t: Table, id: string, k: string, p: Key)
    requires t.Formed() && t.NoneStale() && id in t.routes
    ensures t.Remove(id).At(k, p) ==
            var r := t.routes[id];
            if r.seek == r.file == k && t.At(r.file, r.key) == Some(r) && (r.data.path == "/" || p == r.key) then None
            else t.At(k, p)
  {
    var r := t.routes[id];
    assert Sane(t.routes[id]);
    if r.seek != r.file {
      SeekMisses(t, r);
    } else if r.file in t.tries {
      MatchIsOwn(t, r);
    }
  }

  /** Looking up its own path finds a route exactly when it stands at its own place. */
  lemma {:induction false} MatchIsOwn(t: Table, r: HttpRoute)
    requires t.NoneStale() && r.file in t.tries
    ensures BestMatch(t.tries[r.file], r.key) == Some(r) <==> t.At(r.file, r.key) == Some(r)
  {
    BestMatchIsLongest(t.tries[r.file], r.key);
    if BestMatch(t.tries[r.file], r.key) == Some(r) {
      var p :| p in t.tries[r.file] && t.tries[r.file][p] == r;
      assert t.At(r.file, p) == Some(r);
    }
  }

  /** Remove keeps table and tries in agreement exactly when it is safe. */
  lemma {:induction false} RemoveAgreesIff(t: Table, id: string)
    requires t.Formed() && t.Agree() && id in t.routes
    ensures t.Remove(id).Agree() <==> SafeRemove(t, id)
  {
    var r, u := t.routes[id], t.Remove(id);
    assert t.Filed(r);
    RemoveAt(t, id, r.file, r.key);
    if r.seek != r.file {
      assert u.At(r.file, r.key) == Some(r) && !u.Live(r);
    } else if SafeRemove(t, id) {
      SafeRemoveAgrees(t, id);
    } else {
      var other :| other in t.routes && other != id && t.routes[other].file == r.file;
      RemoveAt(t, id, r.file, t.routes[other].key);
      assert u.routes[other] == t.routes[other] && !u.Filed(u.routes[other]);
    }
  }

  lemma {:induction false} SafeRemoveAgrees(t: Table, id: string)
    requires t.Formed() && t.Agree() && id in t.routes && SafeRemove(t, id)
    ensures t.Remove(id).Agree()
  {
    var r, u := t.routes[id], t.Remove(id);
    assert t.Filed(r);
    forall k, p | u.At(k, p).Some?
      ensures u.Live(u.At(k, p).value) && u.At(k, p).value.file == k && u.At(k, p).value.key == p
    {
      RemoveAt(t, id, k, p);
      assert t.Live(t.At(k, p).value);
    }
    forall other | other in u.routes
      ensures u.Filed(u.routes[other])
    {
      RemoveAt(t, id, t.routes[other].file, t.routes[other].key);
      assert t.Filed(t.routes[other]);
    }
  }

  /** Without stale entries before, a Set of a route that keeps its ID's place leaves none. */
  lemma {:induction false} SetKeepsNoneStale(t: Table, r: HttpRoute)
    requires t.Formed() && t.NoneStale() && (r.data.id in t.routes ==> SamePlace(t.routes[r.data.id], r))
    ensures t.Set(r).NoneStale()
  {
    var u := t.Set(r);
    forall k, p | u.At(k, p).Some?
      ensures u.Live(u.At(k, p).value) && u.At(k, p).value.file == k && u.At(k, p).value.key == p
    {
      SetAt(t, r, k, p);
      if u.At(k, p) != Some(r) {
        assert t.Live(t.At(k, p).value);
      }
    }
  }

  /** Without stale entries before, a Remove under the key of the Set leaves none. */
  lemma {:induction false} RemoveKeepsNoneStale(t: Table, id: string)
    requires t.Formed() && t.NoneStale() && id in t.routes && t.routes[id].seek == t.routes[id].file
    ensures t.Remove(id).NoneStale()
  {
    var u := t.Remove(id);
    forall k, p | u.At(k, p).Some?
      ensures u.Live(u.At(k, p).value) && u.At(k, p).value.file == k && u.At(k, p).value.key == p
    {
      RemoveAt(t, id, k, p);
      assert t.Live(t.At(k, p).value);
    }
  }

  /** The answer of the tries for a key and a path. */
  ghost function Answer(t: Table, file: string, key: Key): Option<HttpRoute> {
    if file in t.tries then BestMatch(t.tries[file], key) else None
  }

  /** r is the live route for the key whose path is the longest prefix of the path. */
  ghost predicate IsLongestLive(t: Table, file: string, key: Key, r: HttpRoute) {
    && t.Live(r) && r.file == file && Leads(r.key, key)
    && forall id | id in t.routes && t.routes[id].file == file && Leads(t.routes[id].key, key) ::
         Leads(t.routes[id].key, r.key)
  }

  /** Where table and tries agree, the tries answer with the longest path match among
      the live routes, and with nothing exactly when no live route matches. */
  lemma {:induction false} AnswerIsLongestLive(t: Table, file: string, key: Key)
    requires t.Agree()
    ensures Answer(t, file, key).Some? ==> IsLongestLive(t, file, key, Answer(t, file, key).value)
    ensures Answer(t, file, key).None? ==>
              forall id | id in t.routes && t.routes[id].file == file :: !Leads(t.routes[id].key, key)
  {
    if file in t.tries {
      BestMatchIsLongest(t.tries[file], key);
      if Answer(t, file, key).Some? {
        var r := Answer(t, file, key).value;
        var p :| p in t.tries[file] && Leads(p, key) && t.tries[file][p] == r
                 && forall q | q in t.tries[file] && Leads(q, key) :: Leads(q, p);
        assert t.At(file, p) == Some(r);
        forall id | id in t.routes && t.routes[id].file == file && Leads(t.routes[id].key, key)
          ensures Leads(t.routes[id].key, r.key)
        {
          assert t.Filed(t.routes[id]);
        }
      }
    }
    forall id | id in t.routes && t.routes[id].file == file
      ensures t.routes[id].key in t.tries[file]
    {
      assert t.Filed(t.routes[id]);
    }
  }

  /** A change to the table. */
  datatype Op = SetOp(route: HttpRoute) | RemoveOp(id: string)

  ghost function Apply(t: Table, op: Op): Table {
    match op
    case SetOp(r) => t.Set(r)
    case RemoveOp(id) => if id in t.routes then t.Remove(id) else t
  }

  ghost function Run(t: Table, ops: seq<Op>): Table
    decreases |ops|
  {
    if ops == [] then t else Run(Apply(t, ops[0]), ops[1..])
  }

  ghost predicate SafeOp(t: Table, op: Op) {
    match op
    case SetOp(r) => SafeSet(t, r)
    case RemoveOp(id) => SafeRemove(t, id)
  }

  /** Every Set brings a route object that the table does not hold yet. */
  ghost predicate Possible(t: Table, ops: seq<Op>)
    decreases |ops|
  {
    ops == []
    || ((ops[0].SetOp? ==> Sane(ops[0].route) && t.Unknown(ops[0].route)) && Possible(Apply(t, ops[0]), ops[1..]))
  }

  ghost predicate SafeRun(t: Table, ops: seq<Op>)
    decreases |ops|
  {
    ops == [] || (SafeOp(t, ops[0]) && SafeRun(Apply(t, ops[0]), ops[1..]))
  }

  ghost predicate AlwaysAgree(t: Table, ops: seq<Op>)
    decreases |ops|
  {
    t.Agree() && (ops == [] || AlwaysAgree(Apply(t, ops[0]), ops[1..]))
  }

  /** On every run of Set and Remove from an agreeing table, table and tries agree
      throughout exactly when every operation of the run is safe where it stands. */
  lemma {:induction false} RunAgreesIff(t: Table, ops: seq<Op>)
    requires t.Formed() && t.Agree() && Possible(t, ops)
    ensures AlwaysAgree(t, ops) <==> SafeRun(t, ops)
    decreases |ops|
  {
    if ops != [] {
      var u := Apply(t, ops[0]);
      match ops[0] {
        case SetOp(r) =>
          SetAgreesIff(t, r);
          SetKeepsFormed(t, r);
        case RemoveOp(id) =>
          if id in t.routes {
            RemoveAgreesIff(t, id);
            RemoveKeepsFormed(t, id);
          }
      }
      if u.Agree() {
        RunAgreesIff(u, ops[1..]);
      }
    }
  }

  /** An upper-case domain breaks agreement: Remove looks under another key than Set
      used, and the removed route stays in its trie. */
  lemma {:induction false} UpperCaseRouteStaysFiled(service: Service)
    ensures var r := NewHttpRoute(0, Route("http", "1", "s", 80, "A", "/", false), service);
            var end := Run(Table(map[], map[]), [SetOp(r), RemoveOp("1")]);
            end.routes == map[] && end.At(r.file, r.key) == Some(r)
  {
    var r := NewHttpRoute(0, Route("http", "1", "s", 80, "A", "/", false), service);
    var start := Table(map[], map[]);
    var t := start.Set(r);
    assert Lower("A")[0] == 'a';
    KeysAgree(r.data);
    SetKeepsFormed(start, r);
    SeekMisses(t, r);
    assert [SetOp(r), RemoveOp("1")][1..] == [RemoveOp("1")] && [RemoveOp("1")][1..] == [];
    assert Apply(t, RemoveOp("1")) == t.Remove("1");
    assert t.Remove("1").tries == t.tries;
  }

  /** A route that moves leaves its former entry behind: Set never withdraws it. */
  lemma {:induction false} MovedRouteStaysFiled(t: Table, r: HttpRoute)
    requires t.Formed() && t.Agree() && t.Unknown(r) && r.data.id in t.routes && !SamePlace(t.routes[r.data.id], r)
    ensures var was, u := t.routes[r.data.id], t.Set(r);
            u.At(was.file, was.key) == Some(was) && !u.Live(was)
  {
    var was := t.routes[r.data.id];
    assert t.Filed(was);
    SetAt(t, r, was.file, was.key);
  }

  /** Two spellings of one path are one place: the route that is set later displaces the
      other, which stays live. */
  lemma {:induction false} SpellingsCollide(t: Table, r: HttpRoute, q: HttpRoute)
    requires t.Formed() && t.Agree() && t.Unknown(q) && t.Live(r) && Made(r) && Made(q) && q.data.id != r.data.id
    requires q.data.domain == r.data.domain && q.data.port == r.data.port && q.data.path == "/" + r.data.path
    ensures var u := t.Set(q);
            u.Live(r) && u.Live(q) && u.At(r.file, r.key) == Some(q) && !u.Agree()
  {
    WalkJoin(Top, "", r.data.path);
    assert "" + "/" + r.data.path == q.data.path;
    assert t.Filed(r);
    SetAt(t, q, r.file, r.key);
    assert t.Set(q).routes[r.data.id] == r;
  }
}
