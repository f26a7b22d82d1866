/** The replica set configuration that MongoDB is given (appliance/mongodb/process.go):
    members keep their IDs, and new members get free ones. */
module ReplicaSet {
  import opened Collections

  datatype Member = Member(id: int, host: string, priority: int)
  datatype ReplSetConfig = ReplSetConfig(id: string, members: seq<Member>, version: int)

  /** state.State: the addresses of the peers; a singleton has no sync. */
  datatype ClusterState = ClusterState(singleton: bool, primary: string, sync: string, async: seq<string>)

  function ClusterSize(s: ClusterState): nat {
    if s.singleton then 1 else 2 + |s.async|
  }

  /** The addresses whose IDs are preserved. */
  function Addrs(s: ClusterState): seq<string> {
    if s.singleton then [s.primary] else [s.primary, s.sync] + s.async
  }

  /** The addresses that become members. */
  function Hosts(s: ClusterState): seq<string> {
    if s.singleton then [s.primary] + s.async else [s.primary, s.sync] + s.async
  }

  predicate Injective(ids: map<string, int>) {
    forall a, b | a in ids && b in ids && ids[a] == ids[b] :: a == b
  }

  predicate Uses(ids: map<string, int>, id: int) {
    exists h :: h in ids && ids[h] == id
  }

  /** The first ID from i on that is not in use, or 0 if there is none below the size. */
  function FirstFree(ids: map<string, int>, i: nat, size: nat): (id: nat)
    requires i <= size
    ensures forall k | i <= k < id :: Uses(ids, k)
    ensures if forall k | i <= k < size :: Uses(ids, k) then id == 0 else i <= id < size && !Uses(ids, id)
    decreases size - i
  {
    if i == size then 0 else if Uses(ids, i) then FirstFree(ids, i + 1, size) else i
  }

  function IdFor(ids: map<string, int>, addr: string, size: nat): int {
    if addr in ids then ids[addr] else FirstFree(ids, 0, size)
  }

  /** The IDs after the hosts were given theirs, one after the other. */
  ghost function Assigned(ids: map<string, int>, hosts: seq<string>, size: nat): map<string, int> {
    if hosts == [] then ids
    else
      var before, last := Assigned(ids, hosts[..|hosts| - 1], size), hosts[|hosts| - 1];
      before[last := IdFor(before, last, size)]
  }

  /** The IDs of the members that stay. */
  ghost function Kept(members: seq<Member>, addrs: seq<string>): map<string, int> {
    if members == [] then map[]
    else
      var before, last := Kept(members[..|members| - 1], addrs), members[|members| - 1];
      if last.host in addrs then before[last.host := last.id] else before
  }

  ghost function Range(n: nat): (r: set<int>)
    ensures |r| == n && forall k :: k in r <==> 0 <= k < n
  {
    if n == 0 then {} else Range(n - 1) + {n - 1}
  }

  ghost function IdsOf(ids: map<string, int>, hosts: set<string>): set<int>
    requires hosts <= ids.Keys
  {
    set h | h in hosts :: ids[h]
  }

  lemma {:induction false} NoMoreIdsThanHosts(ids: map<string, int>, hosts: set<string>)
    requires hosts <= ids.Keys
    ensures |IdsOf(ids, hosts)| <= |hosts|
    decreases |hosts|
  {
    if hosts != {} {
      var h :| h in hosts;
      NoMoreIdsThanHosts(ids, hosts - {h});
      assert IdsOf(ids, hosts) == IdsOf(ids, hosts - {h}) + {ids[h]};
    }
  }

  lemma {:induction false} UsedAre(ids: map<string, int>, id: int)
    requires Uses(ids, id)
    ensures id in IdsOf(ids, ids.Keys)
  {
  }

  /** The pigeonhole: with fewer hosts than places, some ID below the size is free. */
  lemma {:induction false} SomeFree(ids: map<string, int>, size: nat)
    requires |ids| < size
    ensures exists k :: 0 <= k < size && !Uses(ids, k)
  {
    var used := IdsOf(ids, ids.Keys);
    NoMoreIdsThanHosts(ids, ids.Keys);
    if Range(size) <= used {
      SubsetSize(Range(size), used);
    } else {
      var k :| k in Range(size) && k !in used;
      if Uses(ids, k) {
        UsedAre(ids, k);
      }
    }
  }

  lemma {:induction false} FreeIsFound(ids: map<string, int>, size: nat)
    requires |ids| < size
    ensures FirstFree(ids, 0, size) < size && !Uses(ids, FirstFree(ids, 0, size))
  {
    SomeFree(ids, size);
  }

  /** From one assignment to another: what had an ID keeps it, IDs stay distinct, and an ID
      that is given anew is below the size. */
  ghost predicate Extends(ids: map<string, int>, after: map<string, int>, size: nat) {
    && Injective(after) && ids.Keys <= after.Keys && (forall h | h in ids :: after[h] == ids[h])
    && (forall h | h in after && h !in ids :: 0 <= after[h] < size)
  }

  lemma {:induction false} GiveOne(ids: map<string, int>, before: map<string, int>, addr: string, all: set<string>,
                                   size: nat)
    requires Extends(ids, before, size) && before.Keys <= all && addr in all && |all| <= size
    ensures Extends(ids, before[addr := IdFor(before, addr, size)], size)
  {
    if addr in before {
      assert before[addr := before[addr]] == before;
    } else {
      SubsetSize(before.Keys, all - {addr});
      FreeIsFound(before, size);
      var id := FirstFree(before, 0, size);
      assert forall h | h in before :: before[h] != id;
    }
  }

  /** Giving the hosts of a cluster their IDs. */
  lemma {:induction false} AssignedWell(ids: map<string, int>, hosts: seq<string>, all: set<string>, size: nat)
    requires Injective(ids) && ids.Keys <= all && (forall h | h in hosts :: h in all) && |all| <= size
    ensures Extends(ids, Assigned(ids, hosts, size), size)
    ensures forall h :: h in Assigned(ids, hosts, size) <==> h in ids || h in hosts
  {
    if hosts != [] {
      var init, last := hosts[..|hosts| - 1], hosts[|hosts| - 1];
      assert hosts == init + [last];
      AssignedWell(ids, init, all, size);
      GiveOne(ids, Assigned(ids, init, size), last, all, size);
    }
  }

  /** What is kept is kept right: hosts of the current configuration that stay, with the
      IDs they have there. */
  lemma {:induction false} KeptWell(members: seq<Member>, addrs: seq<string>)
    requires forall a, b | 0 <= a < b < |members| ::
               members[a].host != members[b].host && members[a].id != members[b].id
    ensures forall h ::
              h in Kept(members, addrs) <==> h in addrs && exists k :: 0 <= k < |members| && members[k].host == h
    ensures forall k | 0 <= k < |members| && members[k].host in addrs ::
              Kept(members, addrs)[members[k].host] == members[k].id
    ensures Injective(Kept(members, addrs))
  {
    if members != [] {
      var init, last := members[..|members| - 1], members[|members| - 1];
      KeptWell(init, addrs);
      assert forall k | 0 <= k < |init| :: init[k] == members[k];
    }
  }

  /** Whether an ID is in use, by looking at all of them. */
  method InUse(curIds: map<string, int>, i: int) returns (found: bool)
    ensures found == Uses(curIds, i)
  {
    found := false;
    var left := curIds.Keys;
    while left != {}
      invariant left <= curIds.Keys && (found <==> exists h :: h in curIds && h !in left && curIds[h] == i)
      decreases |left|
    {
      var h :| h in left;
      left := left - {h};
      if i == curIds[h] {
        found := true;
      }
    }
  }

  /** newMember: a member keeps its ID, or else gets the first free one; it is reserved. */
  method NewMember(addr: string, s: ClusterState, curIds: map<string, int>, priority: int)
    returns (m: Member, ids: map<string, int>)
    ensures m == Member(IdFor(curIds, addr, ClusterSize(s)), addr, priority) && ids == curIds[addr := m.id]
  {
    var maxId, id := ClusterSize(s), 0;
    if addr in curIds {
      id := curIds[addr];
    } else {
      var i := 0;
      while i < maxId
        invariant 0 <= i <= maxId && id == 0
        invariant FirstFree(curIds, i, maxId) == FirstFree(curIds, 0, maxId)
      {
        var found := InUse(curIds, i);
        if !found {
          id := i;
          break;
        }
        i := i + 1;
      }
    }
    ids := curIds[addr := id];
    m := Member(id, addr, priority);
  }

  /** The members for the hosts, the first one with priority 1. */
  ghost predicate MembersFor(members: seq<Member>, hosts: seq<string>, ids: map<string, int>) {
    && |members| == |hosts|
    && forall k | 0 <= k < |hosts| ::
         members[k].host == hosts[k] && hosts[k] in ids && members[k].id == ids[hosts[k]]
         && members[k].priority == if k == 0 then 1 else 0
  }

  lemma {:induction false} OneMoreMember(members: seq<Member>, hosts: seq<string>, k: nat, start: map<string, int>,
                                         size: nat, m: Member)
    requires k < |hosts| && MembersFor(members, hosts[..k], Assigned(start, hosts[..k], size))
    requires m == Member(IdFor(Assigned(start, hosts[..k], size), hosts[k], size), hosts[k], if k == 0 then 1 else 0)
    ensures MembersFor(members + [m], hosts[..k + 1], Assigned(start, hosts[..k + 1], size))
    ensures Assigned(start, hosts[..k + 1], size) == Assigned(start, hosts[..k], size)[hosts[k] := m.id]
  {
    assert hosts[..k + 1][..k] == hosts[..k];
  }

  method ClusterAddrs(s: ClusterState) returns (addrs: seq<string>)
    ensures addrs == Addrs(s)
  {
    addrs := [s.primary];
    if s.singleton {
      return;
    }
    addrs := addrs + [s.sync];
    for k := 0 to |s.async|
      invariant addrs == [s.primary, s.sync] + s.async[..k]
    {
      addrs := addrs + [s.async[k]];
    }
  }

  /** The loop that preserves the IDs of peers that stay. */
  method KeepIds(members: seq<Member>, addrs: seq<string>) returns (curIds: map<string, int>)
    ensures curIds == Kept(members, addrs)
  {
    curIds := map[];
    for k := 0 to |members|
      invariant curIds == Kept(members[..k], addrs)
    {
      assert members[..k + 1][..k] == members[..k];
      var m := members[k];
      for j := 0 to |addrs|
        invariant m.host !in addrs[..j]
      {
        if m.host == addrs[j] {
          curIds := curIds[m.host := m.id];
          break;
        }
        assert addrs[..j + 1] == addrs[..j] + [addrs[j]];
      }
    }
    assert members[..|members|] == members;
  }

  /** The IDs that the new configuration gives. */
  ghost function FinalIds(current: ReplSetConfig, s: ClusterState): map<string, int> {
    Assigned(Kept(current.members, Addrs(s)), Hosts(s), ClusterSize(s))
  }

  /** replSetConfigFromState. */
  method ReplSetConfigFromState(current: ReplSetConfig, s: ClusterState) returns (config: ReplSetConfig)
    ensures config.id == "rs0" && config.version == current.version + 1
    ensures MembersFor(config.members, Hosts(s), FinalIds(current, s))
  {
    var addrs := ClusterAddrs(s);
    var curIds := KeepIds(current.members, addrs);
    ghost var start, hosts, size := curIds, Hosts(s), ClusterSize(s);
    var members, m := [], Member(0, "", 0);
    m, curIds := NewMember(s.primary, s, curIds, 1);
    OneMoreMember(members, hosts, 0, start, size, m);
    members := members + [m];
    ghost var n := 1;
    if !s.singleton {
      m, curIds := NewMember(s.sync, s, curIds, 0);
      OneMoreMember(members, hosts, 1, start, size, m);
      members, n := members + [m], 2;
    }
    for k := 0 to |s.async|
      invariant curIds == Assigned(start, hosts[..n + k], size)
      invariant MembersFor(members, hosts[..n + k], Assigned(start, hosts[..n + k], size))
    {
      m, curIds := NewMember(s.async[k], s, curIds, 0);
      OneMoreMember(members, hosts, n + k, start, size, m);
      members := members + [m];
    }
    assert hosts[..n + |s.async|] == hosts;
    config := ReplSetConfig("rs0", members, current.version + 1);
  }

  ghost predicate DistinctMembers(members: seq<Member>) {
    forall a, b | 0 <= a < b < |members| :: members[a].host != members[b].host && members[a].id != members[b].id
  }

  ghost predicate DistinctIds(members: seq<Member>) {
    forall a, b | 0 <= a < b < |members| :: members[a].id != members[b].id
  }

  /** The members are the primary, the sync unless it is a singleton, and the asyncs, in this order. */
  lemma {:induction false} MembersAre(members: seq<Member>, s: ClusterState, ids: map<string, int>)
    requires MembersFor(members, Hosts(s), ids)
    ensures var peers := if s.singleton then 1 else 2;
            && |members| == peers + |s.async| && members[0] == Member(members[0].id, s.primary, 1)
            && (!s.singleton ==> members[1] == Member(members[1].id, s.sync, 0))
            && forall k | 0 <= k < |s.async| ::
                 members[peers + k] == Member(members[peers + k].id, s.async[k], 0)
  {
    var hosts, peers := Hosts(s), if s.singleton then 1 else 2;
    assert forall k | 0 <= k < |s.async| :: hosts[peers + k] == s.async[k];
  }

  /** The member with the host, if the host is one of the current configuration. */
  ghost predicate Retained(current: ReplSetConfig, host: string, id: int) {
    exists k :: 0 <= k < |current.members| && current.members[k].host == host && current.members[k].id == id
  }

  /** For distinct peers, and no asyncs beside a singleton: IDs are distinct, every host that
      stays keeps its ID, and every new host gets an ID below the number of members. */
  lemma {:induction false} ConfigIsSound(current: ReplSetConfig, s: ClusterState, members: seq<Member>)
    requires DistinctMembers(current.members) && Distinct(Hosts(s)) && (s.singleton ==> s.async == [])
    requires MembersFor(members, Hosts(s), FinalIds(current, s))
    ensures DistinctIds(members)
    ensures forall k | 0 <= k < |members| :: members[k].priority == if members[k].host == s.primary then 1 else 0
    ensures forall k, id | 0 <= k < |members| && Retained(current, members[k].host, id) :: members[k].id == id
    ensures forall k | 0 <= k < |members| && (forall id :: !Retained(current, members[k].host, id)) ::
              0 <= members[k].id < |members|
  {
    var hosts, kept := Hosts(s), Kept(current.members, Addrs(s));
    assert Addrs(s) == hosts;
    KeptWell(current.members, hosts);
    ElemsSize(hosts);
    AssignedWell(kept, hosts, Elems(hosts), ClusterSize(s));
    assert forall k | 0 < k < |hosts| :: hosts[0] != hosts[k];
    forall k, id | 0 <= k < |members| && Retained(current, members[k].host, id)
      ensures members[k].id == id
    {
      assert members[k].host in hosts;
    }
    forall k | 0 <= k < |members| && forall id :: !Retained(current, members[k].host, id)
      ensures 0 <= members[k].id < |members|
    {
      if j :| 0 <= j < |current.members| && current.members[j].host == members[k].host {
        assert Retained(current, members[k].host, current.members[j].id);
      }
    }
  }

  lemma {:induction false} AssignedKeys(ids: map<string, int>, hosts: seq<string>, size: nat)
    ensures forall h :: h in Assigned(ids, hosts, size) <==> h in ids || h in hosts
    ensures forall h | h in ids :: Assigned(ids, hosts, size)[h] == ids[h]
  {
    if hosts != [] {
      var init, last := hosts[..|hosts| - 1], hosts[|hosts| - 1];
      assert hosts == init + [last];
      AssignedKeys(ids, init, size);
    }
  }

  /** Once given, an ID stays. */
  lemma {:induction false} AssignedAt(ids: map<string, int>, hosts: seq<string>, k: nat, size: nat)
    requires k < |hosts|
    ensures hosts[k] in Assigned(ids, hosts, size)
    ensures Assigned(ids, hosts, size)[hosts[k]] == IdFor(Assigned(ids, hosts[..k], size), hosts[k], size)
    decreases |hosts|
  {
    if k < |hosts| - 1 {
      var init := hosts[..|hosts| - 1];
      assert init[..k] == hosts[..k] && init[k] == hosts[k];
      AssignedAt(ids, init, k, size);
    }
  }

  /** A singleton gives every async the ID 0. */
  lemma {:induction false} AsyncBesideSingleton(current: ReplSetConfig, s: ClusterState, members: seq<Member>, k: nat)
    requires DistinctMembers(current.members) && Distinct(Hosts(s)) && s.singleton && 0 < k < |Hosts(s)|
    requires MembersFor(members, Hosts(s), FinalIds(current, s))
    ensures members[k].id == 0
  {
    var hosts, kept := Hosts(s), Kept(current.members, Addrs(s));
    KeptWell(current.members, Addrs(s));
    AssignedAt(kept, hosts, k, 1);
    AssignedKeys(kept, hosts[..k], 1);
    assert hosts[0] != hosts[k] && forall i | 0 <= i < k :: hosts[..k][i] == hosts[i] != hosts[k];
  }

  lemma {:induction false} PrimaryOfSingleton(current: ReplSetConfig, s: ClusterState, members: seq<Member>)
    requires DistinctMembers(current.members) && s.singleton
    requires MembersFor(members, Hosts(s), FinalIds(current, s))
    ensures members[0].id != 0 <==> exists id :: id != 0 && Retained(current, s.primary, id)
  {
    var hosts, kept := Hosts(s), Kept(current.members, Addrs(s));
    KeptWell(current.members, Addrs(s));
    AssignedAt(kept, hosts, 0, 1);
    assert hosts[..0] == [];
    if s.primary in kept {
      var j :| 0 <= j < |current.members| && current.members[j].host == s.primary;
      assert Retained(current, s.primary, current.members[j].id);
    }
    if id :| id != 0 && Retained(current, s.primary, id) {
      assert s.primary in kept && kept[s.primary] == id;
    }
  }

  /** IDs are distinct if and only if the cluster is no singleton, or has no asyncs, or has
      one async and a primary that stays with another ID than 0. */
  lemma {:induction false} DistinctIdsIff(current: ReplSetConfig, s: ClusterState, members: seq<Member>)
    requires DistinctMembers(current.members) && Distinct(Hosts(s))
    requires MembersFor(members, Hosts(s), FinalIds(current, s))
    ensures DistinctIds(members) <==>
            !s.singleton || s.async == []
            || (|s.async| == 1 && exists id :: id != 0 && Retained(current, s.primary, id))
  {
    if !s.singleton || s.async == [] {
      ConfigIsSound(current, s, members);
    } else {
      PrimaryOfSingleton(current, s, members);
      AsyncBesideSingleton(current, s, members, 1);
      if |s.async| > 1 {
        AsyncBesideSingleton(current, s, members, 2);
        assert members[1].id == members[2].id;
      }
    }
  }
}
