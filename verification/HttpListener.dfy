/** The HTTP listener's route table (router/http.go): routes by ID, a trie per domain
    and port, and reference-counted services, updated in place. */
module HttpListener {
  import opened Collections
  import opened DomainSearch
  import opened Options
  import opened Paths
  import opened PathTrie
  import opened HostKeys
  import opened Routes
  import opened RouteTable

  /** What Set and Remove return. */
  datatype Outcome = Done | BadCertificate | NoCache | NotFound

  /** The live routes that use a service. */
  ghost function Users(routes: map<string, HttpRoute>, name: string): set<string> {
    set id | id in routes && routes[id].service.name == name
  }

  function HostOf(host: string, withoutPort: string -> string): string {
    var name := Lower(host);
    if ':' in name then withoutPort(name) else name
  }

  /** A default port is filed as port 0. */
  function PortOf(port: int, defaultPorts: seq<int>): string {
    if port in defaultPorts then "0" else Itoa(port)
  }

  /** A request looks first for the routes of its own host and port, a default port being port 0. */
  lemma {:induction false} RequestSeeks(r: Route, host: string, port: int, withoutPort: string -> string,
                                        defaultPorts: seq<int>)
    ensures FileKey(r) == Candidates(HostOf(host, withoutPort), PortOf(port, defaultPorts))[0] <==>
            && Lower(r.domain) == (if ':' in Lower(host) then withoutPort(Lower(host)) else Lower(host))
            && r.port == (if port in defaultPorts then 0 else port)
  {
    var number := if port in defaultPorts then 0 else port;
    assert PortOf(port, defaultPorts) == Itoa(number);
    KeyIsFor(r, HostOf(host, withoutPort), number);
  }

  /** The answer of the first key that has a trie, even if it is none. */
  ghost function Serve(t: Table, keys: seq<string>, path: Key): Option<HttpRoute>
    decreases |keys|
  {
    if keys == [] then None
    else if keys[0] in t.tries then Answer(t, keys[0], path)
    else Serve(t, keys[1..], path)
  }

  lemma {:induction false} ServeFirst(t: Table, keys: seq<string>, path: Key, k: nat)
    requires k < |keys| && keys[k] in t.tries && forall j | 0 <= j < k :: keys[j] !in t.tries
    ensures Serve(t, keys, path) == Answer(t, keys[k], path)
    decreases k
  {
    if k > 0 {
      assert keys[1..][k - 1] == keys[k];
      ServeFirst(t, keys[1..], path, k - 1);
    }
  }

  lemma {:induction false} ServeNone(t: Table, keys: seq<string>, path: Key)
    requires forall j | 0 <= j < |keys| :: keys[j] !in t.tries
    ensures Serve(t, keys, path) == None
    decreases |keys|
  {
    if keys != [] {
      ServeNone(t, keys[1..], path);
    }
  }

  /** The wildcard of s has a trie, and s is the longest such tail of the domain. */
  ghost predicate LongestTail(t: Table, domain: string, s: string) {
    && IsTail(domain, 4, s) && Wild(s) in t.tries
    && forall s' | IsTail(domain, 4, s') && Wild(s') in t.tries :: |s'| <= |s|
  }

  /** What findRoute promises: the domain's own trie answers, or else that of the most specific
      wildcard, or else the catch-all. */
  ghost predicate AnswersFor(t: Table, host: string, port: string, path: Key, found: Option<HttpRoute>) {
    var domain := JoinHostPort(host, port);
    var all := JoinHostPort("*", port);
    if domain in t.tries then found == Answer(t, domain, path)
    else if exists s :: IsTail(domain, 4, s) && Wild(s) in t.tries then
      exists s :: LongestTail(t, domain, s) && found == Answer(t, Wild(s), path)
    else if all in t.tries then found == Answer(t, all, path)
    else found == None
  }

  lemma {:induction false} ServeAnswers(t: Table, host: string, port: string, path: Key)
    ensures AnswersFor(t, host, port, path, Serve(t, Candidates(host, port), path))
  {
    var domain, keys := JoinHostPort(host, port), Candidates(host, port);
    var wild := keys[1..|keys| - 1];
    CandidatesAre(host, port);
    assert keys == [domain] + wild + [JoinHostPort("*", port)];
    if domain in t.tries {
      ServeFirst(t, keys, path, 0);
    } else if exists k :: 0 <= k < |wild| && wild[k] in t.tries {
      var k, s := WildcardServes(t, domain, wild);
      forall j | 0 <= j < k + 1
        ensures keys[j] !in t.tries
      {
        assert j == 0 || keys[j] == wild[j - 1];
      }
      assert keys[k + 1] == wild[k];
      ServeFirst(t, keys, path, k + 1);
    } else {
      forall s | IsTail(domain, 4, s)
        ensures Wild(s) !in t.tries
      {
        assert Wild(s) in wild;
      }
      if keys[|keys| - 1] in t.tries {
        ServeFirst(t, keys, path, |keys| - 1);
      } else {
        ServeNone(t, keys, path);
      }
    }
  }

  /** The first wildcard that has a trie is the longest one. */
  lemma {:induction false} FirstIsLongest(t: Table, domain: string, wild: seq<string>, k: nat, s: string)
    requires AreTails(wild, domain, 4) && IsTail(domain, 4, s)
    requires k < |wild| && wild[k] == Wild(s) && Wild(s) in t.tries && forall j | 0 <= j < k :: wild[j] !in t.tries
    ensures LongestTail(t, domain, s)
  {
    forall s' | IsTail(domain, 4, s') && Wild(s') in t.tries
      ensures |s'| <= |s|
    {
      assert Wild(s') in wild;
      var j :| 0 <= j < |wild| && wild[j] == Wild(s');
      assert |wild[j]| <= |wild[k]|;
    }
  }

  lemma {:induction false} FirstOf(keys: seq<string>, within: set<string>) returns (k: nat)
    requires exists j :: 0 <= j < |keys| && keys[j] in within
    ensures k < |keys| && keys[k] in within && forall j | 0 <= j < k :: keys[j] !in within
  {
    k := 0;
    while keys[k] !in within
      invariant k < |keys| && forall j | 0 <= j < k :: keys[j] !in within
      decreases |keys| - k
    {
      k := k + 1;
    }
  }

  lemma {:induction false} WildcardServes(t: Table, domain: string, wild: seq<string>) returns (k: nat, s: string)
    requires AreTails(wild, domain, 4) && exists k :: 0 <= k < |wild| && wild[k] in t.tries
    ensures k < |wild| && wild[k] == Wild(s) && wild[k] in t.tries && forall j | 0 <= j < k :: wild[j] !in t.tries
    ensures LongestTail(t, domain, s)
  {
    k := FirstOf(wild, t.tries.Keys);
    s := TailOf(wild, domain, 4, k);
    FirstIsLongest(t, domain, wild, k, s);
  }

  /** Where table and tries agree, the served route is the longest path match among
      the live routes under its key, and no live route is filed under an earlier key. */
  lemma {:induction false} ServedIsLongestLive(t: Table, keys: seq<string>, path: Key)
    requires t.Agree() && Serve(t, keys, path).Some?
    ensures exists k :: 0 <= k < |keys| && IsLongestLive(t, keys[k], path, Serve(t, keys, path).value)
                        && forall j, id | 0 <= j < k && id in t.routes :: t.routes[id].file != keys[j]
    decreases |keys|
  {
    if keys[0] in t.tries {
      AnswerIsLongestLive(t, keys[0], path);
    } else {
      ServedIsLongestLive(t, keys[1..], path);
      var k :| 0 <= k < |keys[1..]| && IsLongestLive(t, keys[1..][k], path, Serve(t, keys, path).value)
               && forall j, id | 0 <= j < k && id in t.routes :: t.routes[id].file != keys[1..][j];
      assert keys[k + 1] == keys[1..][k];
      forall j, id | 0 <= j < k + 1 && id in t.routes
        ensures t.routes[id].file != keys[j]
      {
        if j == 0 {
          assert t.Filed(t.routes[id]);
        } else {
          assert keys[j] == keys[1..][j - 1];
        }
      }
    }
  }

  /** Where table and tries agree, an unserved request matches no live route under the
      exact name that it asked for. */
  lemma {:induction false} UnservedMatchesNone(t: Table, keys: seq<string>, path: Key, id: string)
    requires t.Agree() && keys != [] && Serve(t, keys, path).None?
    requires id in t.routes && t.routes[id].file == keys[0]
    ensures !Leads(t.routes[id].key, path)
  {
    assert t.Filed(t.routes[id]);
    AnswerIsLongestLive(t, keys[0], path);
  }

  /** Live routes use listed services, and each listed service counts at least its live routes. */
  ghost predicate Counted(routes: map<string, HttpRoute>, services: map<string, Service>, refs: map<string, int>) {
    && services.Keys == refs.Keys
    && (forall n | n in services :: services[n].name == n && 0 < refs[n] && |Users(routes, n)| <= refs[n])
    && (forall id | id in routes ::
          routes[id].service.name in services && services[routes[id].service.name] == routes[id].service)
  }

  lemma {:induction false} CountedAfterSet(routes: map<string, HttpRoute>, services: map<string, Service>,
                                           refs: map<string, int>, r: HttpRoute)
    requires Counted(routes, services, refs)
    requires r.service.name in services ==> services[r.service.name] == r.service
    ensures Counted(routes[r.data.id := r], services[r.service.name := r.service],
                    refs[r.service.name := CountOf(refs, r.service.name) + 1])
  {
    var name := r.service.name;
    var after, services', refs' :=
      routes[r.data.id := r], services[name := r.service], refs[name := CountOf(refs, name) + 1];
    if name !in services {
      assert Users(routes, name) == {};
    }
    forall n | n in services'
      ensures services'[n].name == n && 0 < refs'[n] && |Users(after, n)| <= refs'[n]
    {
      UsersAfterSet(routes, r, n);
    }
    forall id | id in after
      ensures after[id].service.name in services' && services'[after[id].service.name] == after[id].service
    {
      assert id in routes || id == r.data.id;
    }
  }

  lemma {:induction false} CountedAfterRemove(routes: map<string, HttpRoute>, services: map<string, Service>,
                                              refs: map<string, int>, id: string)
    requires Counted(routes, services, refs) && id in routes
    ensures var name := routes[id].service.name;
            if refs[name] <= 1 then Counted(routes - {id}, services - {name}, refs - {name})
            else Counted(routes - {id}, services, refs[name := refs[name] - 1])
  {
    var name := routes[id].service.name;
    forall n | n in services
      ensures |Users(routes - {id}, n)| <= refs[n] - (if n == name then 1 else 0)
    {
      UsersAfterRemove(routes, id, n);
    }
    if refs[name] <= 1 {
      assert Users(routes - {id}, name) == {};
      forall other | other in routes && other != id
        ensures routes[other].service.name != name
      {
        assert other !in Users(routes - {id}, name);
      }
    }
  }

  /** Setting a route adds at most itself to the users of its service. */
  lemma {:induction false} UsersAfterSet(routes: map<string, HttpRoute>, r: HttpRoute, name: string)
    ensures |Users(routes[r.data.id := r], name)| <= |Users(routes, name)| + (if r.service.name == name then 1 else 0)
  {
    UsersExactly(routes, r, name);
  }

  lemma {:induction false} UsersExactly(routes: map<string, HttpRoute>, r: HttpRoute, name: string)
    ensures |Users(routes[r.data.id := r], name)| ==
            |Users(routes, name)| + (if r.service.name == name then 1 else 0)
            - (if r.data.id in routes && routes[r.data.id].service.name == name then 1 else 0)
  {
    var was, now := Users(routes, name), Users(routes[r.data.id := r], name);
    if r.service.name == name {
      assert now == was + {r.data.id};
    } else {
      assert now == was - {r.data.id};
    }
  }

  /** Removing a route takes exactly itself from the users of its service. */
  lemma {:induction false} UsersAfterRemove(routes: map<string, HttpRoute>, id: string, name: string)
    requires id in routes
    ensures |Users(routes - {id}, name)| == |Users(routes, name)| - (if routes[id].service.name == name then 1 else 0)
  {
    var was, now := Users(routes, name), Users(routes - {id}, name);
    assert now == was - {id};
  }

  /** Each service counts exactly its live routes. */
  ghost predicate Exact(routes: map<string, HttpRoute>, refs: map<string, int>) {
    forall n | n in refs :: refs[n] == |Users(routes, n)|
  }

  /** Exact counts stay exact on a Set if and only if the route's ID is new: a Set of a
      known ID counts again, and never gives the earlier reference back. */
  lemma {:induction false} ExactAfterSetIff(routes: map<string, HttpRoute>, services: map<string, Service>,
                                            refs: map<string, int>, r: HttpRoute)
    requires Counted(routes, services, refs) && Exact(routes, refs)
    ensures Exact(routes[r.data.id := r], refs[r.service.name := CountOf(refs, r.service.name) + 1])
            <==> r.data.id !in routes
  {
    var counts := refs[r.service.name := CountOf(refs, r.service.name) + 1];
    if r.data.id in routes {
      var had := routes[r.data.id].service.name;
      assert had in refs;
      UsersExactly(routes, r, had);
    } else {
      forall n | n in counts
        ensures counts[n] == |Users(routes[r.data.id := r], n)|
      {
        UsersExactly(routes, r, n);
        assert n !in refs ==> Users(routes, n) == {};
      }
    }
  }

  /** Exact counts stay exact on a Remove. */
  lemma {:induction false} ExactAfterRemove(routes: map<string, HttpRoute>, services: map<string, Service>,
                                            refs: map<string, int>, id: string)
    requires Counted(routes, services, refs) && Exact(routes, refs) && id in routes
    ensures var name := routes[id].service.name;
            Exact(routes - {id}, if refs[name] <= 1 then refs - {name} else refs[name := refs[name] - 1])
  {
    forall n | n in refs
      ensures |Users(routes - {id}, n)| == refs[n] - (if n == routes[id].service.name then 1 else 0)
    {
      UsersAfterRemove(routes, id, n);
    }
  }

  /** One use of a service was discounted, and with the last one it was closed and unlisted. */
  ghost predicate Released(services: map<string, Service>, counts: map<string, int>, services': map<string, Service>,
                           counts': map<string, int>, name: string, closed: bool) {
    && name in counts && closed == (counts[name] <= 1)
    && if counts[name] <= 1 then services' == services - {name} && counts' == counts - {name}
       else services' == services && counts' == counts[name := counts[name] - 1]
  }

  class Listener {
    var domains: map<string, Node<HttpRoute>>
    var routes: map<string, HttpRoute>
    var services: map<string, Service>
    var closed: bool
    var defaultPorts: seq<int>

    /** How many route objects were created. */
    var handles: nat

    /** What the tries represent, and the nodes of all of them. */
    ghost var tries: map<string, map<Key, HttpRoute>>
    ghost var nodes: set<Node<HttpRoute>>

    /** The service objects that the listener has created, and how often each listed one is counted. */
    ghost var known: set<Service>
    ghost var counts: map<string, int>

    /** The two indexes as values. */
    ghost function View(): Table
      reads this`routes, this`tries
    {
      Table(routes, tries)
    }

    /** Each trie is sound and represents what it should, and no two share a node. */
    ghost predicate TriesOk()
      reads this`domains, this`tries, this`nodes, nodes
    {
      && domains.Keys == tries.Keys
      && (forall k | k in domains :: domains[k] in nodes && domains[k].repr <= nodes)
      && (forall k | k in domains :: domains[k].Valid() && domains[k].view == tries[k])
      && (forall k, j | k in domains && j in domains && k != j :: domains[k].repr !! domains[j].repr)
    }

    /** The table is well formed and holds no route object that is still to be created. */
    ghost predicate TableOk()
      reads this`routes, this`tries, this`handles
    {
      View().Formed() && Below(View(), handles) && AllMade(routes)
    }

    /** Every live route refers to a listed, open service, and every listed service
        counts at least its live routes. */
    ghost predicate ServicesOk()
      reads this`services, this`routes, this`counts, this`known, known
    {
      && Counted(routes, services, counts)
      && Open()
    }

    /** The listed services are open and hold their counts. */
    ghost predicate Open()
      reads this`services, this`counts, this`known, known
    {
      && services.Keys == counts.Keys
      && forall n | n in services :: services[n] in known && services[n].refs == counts[n] && !services[n].closed
    }

    ghost predicate Valid()
      reads this, nodes, known
    {
      TriesOk() && TableOk() && ServicesOk()
    }

    /** An empty listener. */
    constructor (defaultPorts: seq<int>)
      ensures Valid() && fresh(nodes) && fresh(known) && !closed
      ensures View() == Table(map[], map[]) && services == map[] && this.defaultPorts == defaultPorts
    {
      domains, routes, services := map[], map[], map[];
      closed, this.defaultPorts, handles := false, defaultPorts, 0;
      tries, nodes, known, counts := map[], {}, {}, map[];
    }

    /** The trie under a key was changed on its own nodes and new ones; every other
        trie is as it was. */
    twostate predicate OneTrie(k: string)
      reads this, nodes
    {
      && domains == old(domains) && old(nodes) <= nodes
      && k in domains && domains[k] in old(nodes) && domains[k].repr <= nodes
      && domains[k].Valid()
      && (forall n | n in domains[k].repr :: n in old(domains[k].repr) || fresh(n))
      && tries == old(tries)[k := domains[k].view]
      && (forall n | n in old(nodes) && n !in old(domains[k].repr) :: unchanged(n))
    }

    twostate lemma OneTrieOk(k: string)
      requires old(TriesOk()) && OneTrie(k)
      ensures TriesOk()
    {
      forall j | j in domains && j != k
        ensures domains[j].repr == old(domains[j].repr) && domains[j].Valid() && domains[j].view == tries[j]
      {
        assert domains[j] in old(nodes) && domains[j].repr !! old(domains[k].repr);
      }
    }

    /** tree.backend = r. */
    method PutRootRoute(k: string, r: HttpRoute)
      requires TriesOk() && k in domains
      modifies this`tries, nodes
      ensures TriesOk() && tries == old(tries)[k := old(tries)[k][Top := r]]
    {
      var tree := domains[k];
      tree.PutRoot(r);
      tries := tries[k := tree.view];
      OneTrieOk(k);
    }

    /** tree.Insert(r.Path, r). */
    method InsertRoute(k: string, path: string, r: HttpRoute)
      requires TriesOk() && k in domains
      modifies this`tries, this`nodes, nodes
      ensures TriesOk() && tries == old(tries)[k := old(tries)[k][Segments(path) := r]]
      ensures fresh(nodes - old(nodes))
    {
      InsertInTrie(k, path, r);
      OneTrieOk(k);
    }

    method InsertInTrie(k: string, path: string, r: HttpRoute)
      requires k in domains && domains[k] in nodes && domains[k].repr <= nodes && domains[k].Valid()
      modifies this`tries, this`nodes, nodes
      ensures OneTrie(k) && domains[k].view == old(domains[k].view)[Segments(path) := r]
      ensures fresh(nodes - old(nodes))
    {
      var tree := domains[k];
      tree.Insert(path, r);
      nodes := nodes + tree.repr;
      tries := tries[k := tree.view];
    }

    method RemoveRoute(k: string, path: string)
      requires TriesOk() && k in domains
      modifies this`tries, nodes
      ensures TriesOk() && tries == old(tries)[k := old(tries)[k] - {Segments(path)}]
    {
      var tree := domains[k];
      tree.Remove(path);
      tries := tries[k := tree.view];
      OneTrieOk(k);
    }

    /** There is a trie of new nodes under a key that had none; the others are as they were. */
    twostate predicate NewTrie(k: string)
      reads this, nodes
    {
      && k in domains && k !in old(domains) && domains == old(domains)[k := domains[k]]
      && domains[k] in nodes && nodes == old(nodes) + domains[k].repr
      && domains[k].Valid() && fresh(domains[k].repr)
      && tries == old(tries)[k := domains[k].view]
      && (forall n | n in old(nodes) :: unchanged(n))
    }

    twostate lemma NewTrieOk(k: string)
      requires old(TriesOk()) && NewTrie(k)
      ensures TriesOk()
    {
      assert forall j | j in old(domains) :: domains[j].repr <= old(nodes);
    }

    /** h.l.domains[domain] = NewTree(r). */
    method AddTrie(k: string, r: HttpRoute)
      requires TriesOk() && k !in domains
      modifies this`tries, this`nodes, this`domains
      ensures TriesOk() && tries == old(tries)[k := map[Top := r]]
      ensures fresh(nodes - old(nodes))
    {
      var tree := new Node(r);
      domains := domains[k := tree];
      nodes := nodes + tree.repr;
      tries := tries[k := map[Top := r]];
      NewTrieOk(k);
    }

    /** delete(h.l.domains, domain). */
    method DropTrie(k: string)
      requires TriesOk()
      modifies this`tries, this`domains
      ensures TriesOk() && tries == old(tries) - {k}
    {
      domains := domains - {k};
      tries := tries - {k};
    }

    /** The end of Set: file a route in the trie of its domain and port. */
    method File(r: HttpRoute, domain: string)
      requires TriesOk() && Sane(r) && domain == r.file && r.key == Segments(r.data.path)
      modifies this`tries, this`nodes, this`domains, nodes
      ensures TriesOk() && tries == With(old(tries), r)
      ensures fresh(nodes - old(nodes))
    {
      if r.data.path == "/" {
        if domain in domains {
          PutRootRoute(domain, r);
        } else {
          AddTrie(domain, r);
        }
      } else if domain in domains {
        InsertRoute(domain, r.data.path, r);
      }
    }

    /** The end of Remove: take a route out of the trie where it is looked for. */
    method Withdraw(r: HttpRoute, domain: string)
      requires TriesOk() && domain == r.seek && r.key == Segments(r.data.path)
      modifies this`tries, this`domains, nodes
      ensures TriesOk() && tries == Without(old(tries), r)
    {
      if domain in domains {
        var tree := domains[domain];
        var best := tree.Lookup(r.data.path);
        if r.data.path == "/" && tree.backend == Some(r) {
          DropTrie(domain);
        } else if best == Some(r) {
          RemoveRoute(domain, r.data.path);
        }
      }
    }

    /** The middle of Set: find or create the service of a route, and count the route. */
    method AcquireService(name: string, cacheOk: bool) returns (service: Service?)
      requires Open() && forall n, m | n in services && m in services && services[n] == services[m] :: n == m
      requires name in services ==> services[name].name == name
      modifies this`services, this`counts, this`known, known
      ensures Open() && fresh(known - old(known))
      ensures service == null <==> name !in old(services) && !cacheOk
      ensures service == null ==> services == old(services) && counts == old(counts)
      ensures service != null ==>
                && service.name == name && services == old(services)[name := service]
                && counts == old(counts)[name := CountOf(old(counts), name) + 1]
                && (name in old(services) ==> service == old(services)[name])
    {
      if name in services {
        // A service is listed under its own name, so Set never drops a misfiled one.
        service := services[name];
      } else {
        if !cacheOk {
          return null;
        }
        service := new Service(name);
        services := services[name := service];
        known := known + {service};
      }
      service.refs := service.refs + 1;
      counts := counts[name := CountOf(counts, name) + 1];
    }

    /** The start of Remove: discount a route, and close its service with the last one. */
    method ReleaseService(service: Service)
      requires Open() && service.name in services && services[service.name] == service
      requires forall n, m | n in services && m in services && services[n] == services[m] :: n == m
      modifies this`services, this`counts, service
      ensures Open()
      ensures service.refs == old(service.refs) - 1 && service.closed == (old(service.refs) <= 1)
      ensures if old(counts)[service.name] <= 1
              then services == old(services) - {service.name} && counts == old(counts) - {service.name}
              else services == old(services) && counts == old(counts)[service.name := old(counts)[service.name] - 1]
    {
      service.refs := service.refs - 1;
      if service.refs <= 0 {
        service.closed := true;
        services := services - {service.name};
        counts := counts - {service.name};
      } else {
        counts := counts[service.name := service.refs];
      }
    }

    twostate predicate SameTries()
      reads this, nodes
    {
      && unchanged(`domains) && unchanged(`tries) && unchanged(`nodes) && forall n | n in old(nodes) :: unchanged(n)
    }

    twostate lemma TriesStand()
      requires old(TriesOk()) && SameTries()
      ensures TriesOk()
    {
    }

    /** Create a route, whose service is counted already, and enter it in both indexes. */
    method Admit(data: Route, service: Service) returns (r: HttpRoute)
      requires TriesOk() && TableOk()
      modifies this`handles, this`routes, this`tries, this`nodes, this`domains, nodes
      ensures TriesOk() && TableOk() && fresh(nodes - old(nodes))
      ensures r.data == data && r.service == service
      ensures old(View()).Unknown(r) && View() == old(View()).Set(r)
    {
      r := NewHttpRoute(handles, data, service);
      SetKeepsFormed(View(), r);
      SetStaysBelow(View(), r);
      AllMadeUpdate(routes, r);
      handles := handles + 1;
      routes := routes[r.data.id := r];
      TriesStand();
      File(r, r.file);
      assert View() == old(View()).Set(r);
    }

    /** The part of Set that runs on an open listener. */
    method SetOpen(data: Route, cacheOk: bool) returns (ok: bool)
      requires Valid()
      modifies this`handles, this`routes, this`tries, this`nodes, this`domains
      modifies this`services, this`counts, this`known, nodes, known
      ensures Valid() && fresh(nodes - old(nodes)) && fresh(known - old(known))
      ensures ok <==> data.service in old(services) || cacheOk
      ensures !ok ==> View() == old(View()) && services == old(services) && counts == old(counts)
      ensures ok ==> WasSet(data)
    {
      ghost var before, counted := services, counts;
      var service := CountIn(data.service, cacheOk);
      IndexesStand();
      if service == null {
        return false;
      }
      AdmitCounted(data, service, before, counted);
      return true;
    }

    method CountIn(name: string, cacheOk: bool) returns (service: Service?)
      requires ServicesOk()
      modifies this`services, this`counts, this`known, known
      ensures Open() && fresh(known - old(known))
      ensures service == null <==> name !in old(services) && !cacheOk
      ensures service == null ==> services == old(services) && counts == old(counts)
      ensures service != null ==>
                && service.name == name && services == old(services)[name := service]
                && counts == old(counts)[name := CountOf(old(counts), name) + 1]
                && (name in old(services) ==> service == old(services)[name])
    {
      service := AcquireService(name, cacheOk);
    }

    /** A route object for the data entered both indexes, and its service counts it. */
    twostate predicate WasSet(data: Route)
      reads this
    {
      && data.id in routes && routes[data.id].data == data && routes[data.id].service.name == data.service
      && old(View()).Unknown(routes[data.id]) && View() == old(View()).Set(routes[data.id])
      && counts == old(counts)[data.service := CountOf(old(counts), data.service) + 1]
    }

    method AdmitCounted(data: Route, service: Service, ghost before: map<string, Service>,
                        ghost counted: map<string, int>)
      requires TriesOk() && TableOk() && Open() && service.name == data.service
      requires Counted(routes, before, counted) && (service.name in before ==> before[service.name] == service)
      requires services == before[service.name := service]
      requires counts == counted[service.name := CountOf(counted, service.name) + 1]
      modifies this`handles, this`routes, this`tries, this`nodes, this`domains, nodes
      ensures Valid() && fresh(nodes - old(nodes))
      ensures data.id in routes && routes[data.id].data == data && routes[data.id].service == service
      ensures old(View()).Unknown(routes[data.id]) && View() == old(View()).Set(routes[data.id])
    {
      var r := Admit(data, service);
      CountedAfterSet(old(routes), before, counted, r);
    }

    /** Set: count the route with its service, and enter it in both indexes. A bad
        certificate, a closed listener and a failing discoverd cache change nothing. */
    method Set(data: Route, certOk: bool, cacheOk: bool) returns (out: Outcome)
      requires Valid()
      modifies this, nodes, known
      ensures Valid() && closed == old(closed) && defaultPorts == old(defaultPorts)
      ensures fresh(nodes - old(nodes)) && fresh(known - old(known))
      ensures out == if !certOk then BadCertificate
                     else if closed || data.service in old(services) || cacheOk then Done
                     else NoCache
      ensures out != Done || closed ==> View() == old(View()) && services == old(services) && counts == old(counts)
      ensures out == Done && !closed ==> WasSet(data)
    {
      if !certOk {
        return BadCertificate;
      }
      if closed {
        return Done;
      }
      var ok := SetOpen(data, cacheOk);
      return if ok then Done else NoCache;
    }

    /** Take a live route, whose service is discounted already, out of both indexes. */
    method Expel(id: string)
      requires TriesOk() && TableOk() && id in routes
      modifies this`routes, this`tries, this`domains, nodes
      ensures TriesOk() && TableOk() && View() == old(View()).Remove(id)
    {
      var r := routes[id];
      assert Made(routes[id]);
      RemoveKeepsFormed(View(), id);
      RemoveStaysBelow(View(), id, handles);
      AllMadeRemove(routes, id);
      routes := routes - {id};
      Withdraw(r, r.seek);
    }

    /** The part of Remove that runs on a known route. */
    method RemoveKnown(id: string)
      requires Valid() && id in routes
      modifies this`routes, this`tries, this`domains, this`services, this`counts, nodes, known
      ensures Valid() && View() == old(View()).Remove(id)
      ensures WasReleased(old(routes)[id].service)
    {
      DiscountKnown(id);
      ExpelCounted(id);
    }

    method DiscountKnown(id: string)
      requires Valid() && id in routes
      modifies this`services, this`counts, routes[id].service
      ensures TriesOk() && TableOk() && Open() && Counted(routes - {id}, services, counts)
      ensures WasReleased(routes[id].service)
    {
      Discount(id);
      IndexesStand();
    }

    /** Counting services does not touch the tries and the table. */
    twostate lemma IndexesStand()
      requires old(TriesOk()) && old(TableOk()) && unchanged(`routes) && unchanged(`handles) && SameTries()
      ensures TriesOk() && TableOk()
    {
      TriesStand();
    }

    /** Discount a live route: afterwards the counts are those without it. */
    method Discount(id: string)
      requires ServicesOk() && id in routes
      modifies this`services, this`counts, routes[id].service
      ensures Open() && Counted(routes - {id}, services, counts) && WasReleased(routes[id].service)
    {
      CountedAfterRemove(routes, services, counts, id);
      ReleaseService(routes[id].service);
    }

    method ExpelCounted(id: string)
      requires TriesOk() && TableOk() && Open() && id in routes && Counted(routes - {id}, services, counts)
      modifies this`routes, this`tries, this`domains, nodes
      ensures Valid() && View() == old(View()).Remove(id)
    {
      Expel(id);
    }

    twostate predicate WasReleased(service: Service)
      reads this, service
    {
      Released(old(services), old(counts), services, counts, service.name, service.closed)
    }

    /** Remove: discount the route with its service, and take it out of both indexes. */
    method Remove(id: string) returns (out: Outcome)
      requires Valid()
      modifies this, nodes, known
      ensures Valid() && closed == old(closed) && defaultPorts == old(defaultPorts)
      ensures nodes == old(nodes) && known == old(known)
      ensures out == if closed || id in old(routes) then Done else NotFound
      ensures closed || id !in old(routes) ==>
                View() == old(View()) && services == old(services) && counts == old(counts)
      ensures !closed && id in old(routes) ==> View() == old(View()).Remove(id) && WasReleased(old(routes)[id].service)
    {
      if closed {
        return Done;
      }
      if id !in routes {
        return NotFound;
      }
      RemoveKnown(id);
      return Done;
    }

    /** findRoute. The parameter stands for net.SplitHostPort, which takes the port off a host. */
    method FindRoute(host: string, portNumber: int, path: string, withoutPort: string -> string)
      returns (found: Option<HttpRoute>)
      requires TriesOk()
      ensures found ==
              Serve(View(), Candidates(HostOf(host, withoutPort), PortOf(portNumber, defaultPorts)), Segments(path))
      ensures AnswersFor(View(), HostOf(host, withoutPort), PortOf(portNumber, defaultPorts), Segments(path), found)
    {
      var name := HostOf(host, withoutPort);
      var port := Itoa(portNumber);
      for k := 0 to |defaultPorts|
        invariant port == PortOf(portNumber, defaultPorts[..k])
      {
        if defaultPorts[k] == portNumber {
          port := "0";
        }
      }
      assert defaultPorts[..|defaultPorts|] == defaultPorts;
      ServeAnswers(View(), name, port, Segments(path));
      found := FindFirst(Candidates(name, port), path);
    }

    /** The chain of attempts of findRoute: the first key that has a trie answers. */
    method FindFirst(keys: seq<string>, path: string) returns (found: Option<HttpRoute>)
      requires TriesOk()
      ensures found == Serve(View(), keys, Segments(path))
    {
      var k := 0;
      while k < |keys|
        invariant 0 <= k <= |keys|
        invariant Serve(View(), keys, Segments(path)) == Serve(View(), keys[k..], Segments(path))
      {
        if keys[k] in domains {
          found := domains[keys[k]].Lookup(path);
          return;
        }
        k := k + 1;
      }
      found := None;
    }
  }
}
