/** The agent store of pkg/registry.  A store maps an agent id to its record; the
    functions below say what each operation leaves in the store, and the class
    carries them out on a field.  The concurrent model takes each operation as one
    atomic step; SplitRegistry.dfy drops that assumption. */
module AgentRegistry {
  import opened Models

  type Store = map<string, Agent>

  /** A record is stored under its own id (pkg/memory/redis.go:129-137). */
  ghost predicate Keyed(m: Store) {
    forall id :: id in m ==> m[id].id == id
  }

  function WithAgent(m: Store, status: AgentStatus, id: string, address: string, providerID: string,
                      instanceType: string, provider: string, now: int): Store
  {
    m[id := Agent(id, address, 0, now, status, providerID, instanceType, provider, None)]
  }

  function WithOffline(m: Store, id: string): Store {
    if id in m && m[id].status != Draining then m[id := m[id].(status := Offline)] else m
  }

  function WithDraining(m: Store, id: string): Store {
    if id in m then m[id := m[id].(status := Draining)] else m
  }

  function Promoted(status: AgentStatus): AgentStatus {
    if status == Offline then Online else status
  }

  function WithHeartbeat(m: Store, id: string, activeCount: int, now: int): Store {
    if id in m
    then m[id := m[id].(lastHeartbeat := now, activeCount := activeCount, status := Promoted(m[id].status))]
    else m
  }

  function WithNodeStatus(m: Store, id: string, ns: NodeStatus): Store {
    if id in m
    then m[id := m[id].(nodeStatus := Some(ns), activeCount := ns.activeTasks,
                        lastHeartbeat := ns.collectedAt, status := Promoted(m[id].status))]
    else m
  }

  /** The part of a record that only registration writes. */
  datatype Identity = Identity(id: string, address: string, providerID: string, instanceType: string, provider: string)

  function IdentityOf(a: Agent): Identity {
    Identity(a.id, a.address, a.providerID, a.instanceType, a.provider)
  }

  /** The same agents with the same identities, and no agent has left Draining. */
  ghost predicate SameFleet(m: Store, m': Store) {
    && m'.Keys == m.Keys
    && forall id :: id in m ==>
         && IdentityOf(m'[id]) == IdentityOf(m[id])
         && (m[id].status == Draining ==> m'[id].status == Draining)
  }

  /** A change to the status and the readings of one record. */
  lemma RecordUpdateKeepsFleet(m: Store, id: string, a: Agent)
    requires id in m ==> IdentityOf(a) == IdentityOf(m[id]) && (m[id].status == Draining ==> a.status == Draining)
    ensures SameFleet(m, if id in m then m[id := a] else m)
  {
  }

  lemma StatusKeepsFleet(m: Store, id: string)
    ensures SameFleet(m, WithOffline(m, id))
    ensures SameFleet(m, WithDraining(m, id))
  {
    if id in m {
      RecordUpdateKeepsFleet(m, id, WithOffline(m, id)[id]);
      RecordUpdateKeepsFleet(m, id, WithDraining(m, id)[id]);
    }
  }

  lemma HeartbeatKeepsFleet(m: Store, id: string, activeCount: int, now: int)
    ensures SameFleet(m, WithHeartbeat(m, id, activeCount, now))
  {
    if id in m { RecordUpdateKeepsFleet(m, id, WithHeartbeat(m, id, activeCount, now)[id]); }
  }

  lemma NodeStatusKeepsFleet(m: Store, id: string, ns: NodeStatus)
    ensures SameFleet(m, WithNodeStatus(m, id, ns))
  {
    if id in m { RecordUpdateKeepsFleet(m, id, WithNodeStatus(m, id, ns)[id]); }
  }

  /** No status update changes who is in the fleet, and none revives a draining agent. */
  lemma UpdatesKeepFleet(m: Store, id: string, activeCount: int, now: int, ns: NodeStatus)
    ensures SameFleet(m, WithOffline(m, id))
    ensures SameFleet(m, WithDraining(m, id))
    ensures SameFleet(m, WithHeartbeat(m, id, activeCount, now))
    ensures SameFleet(m, WithNodeStatus(m, id, ns))
  {
    StatusKeepsFleet(m, id);
    HeartbeatKeepsFleet(m, id, activeCount, now);
    NodeStatusKeepsFleet(m, id, ns);
  }

  // ------------------------------------------------------------------ listings

  ghost predicate DistinctIds(l: seq<Agent>) {
    forall i, j :: 0 <= i < j < |l| ==> l[i].id != l[j].id
  }

  /** l lists every record of m exactly once; the store fixes no order. */
  ghost predicate Listing(m: Store, l: seq<Agent>) {
    && (forall i :: 0 <= i < |l| ==> l[i].id in m && m[l[i].id] == l[i])
    && DistinctIds(l)
    && (forall id :: id in m ==> exists i :: 0 <= i < |l| && l[i].id == id)
  }

  predicate IsOnline(a: Agent) { a.status == Online }

  /** The online records of a listing, in its order. */
  function OnlineOf(l: seq<Agent>): seq<Agent> {
    if l == [] then [] else
    OnlineOf(l[..|l|-1]) + if IsOnline(l[|l|-1]) then [l[|l|-1]] else []
  }

  /** The records a provider owns, in listing order. */
  function ManagedOf(l: seq<Agent>, provider: string): seq<Agent> {
    if l == [] then [] else
    ManagedOf(l[..|l|-1], provider) + if l[|l|-1].provider == provider then [l[|l|-1]] else []
  }

  lemma {:induction false} OnlineOfMembers(l: seq<Agent>, a: Agent)
    ensures a in OnlineOf(l) <==> a in l && IsOnline(a)
  {
    if l != [] {
      OnlineOfMembers(l[..|l|-1], a);
      assert l == l[..|l|-1] + [l[|l|-1]];
    }
  }

  lemma {:induction false} ManagedOfMembers(l: seq<Agent>, provider: string, a: Agent)
    ensures a in ManagedOf(l, provider) <==> a in l && a.provider == provider
  {
    if l != [] {
      ManagedOfMembers(l[..|l|-1], provider, a);
      assert l == l[..|l|-1] + [l[|l|-1]];
    }
  }

  ghost function ManagedIds(m: Store, provider: string): set<string> {
    set id | id in m && m[id].provider == provider
  }

  ghost function IdsOf(l: seq<Agent>): set<string> {
    set a | a in l :: a.id
  }

  lemma {:induction false} DistinctIdsCount(l: seq<Agent>)
    requires DistinctIds(l)
    ensures |IdsOf(l)| == |l|
  {
    if l != [] {
      var front, last := l[..|l|-1], l[|l|-1];
      DistinctIdsCount(front);
      assert l == front + [last];
      assert IdsOf(l) == IdsOf(front) + {last.id};
      assert last.id !in IdsOf(front);
    }
  }

  lemma {:induction false} ManagedOfDistinct(l: seq<Agent>, provider: string)
    requires DistinctIds(l)
    ensures DistinctIds(ManagedOf(l, provider))
  {
    if l != [] {
      var front, last := l[..|l|-1], l[|l|-1];
      ManagedOfDistinct(front, provider);
      forall a | a in ManagedOf(front, provider) ensures a.id != last.id {
        ManagedOfMembers(front, provider, a);
      }
    }
  }

  /** Counting a provider's records on any listing counts its agents in the store. */
  lemma ManagedCount(m: Store, l: seq<Agent>, provider: string)
    requires Keyed(m) && Listing(m, l)
    ensures |ManagedOf(l, provider)| == |ManagedIds(m, provider)|
  {
    var r := ManagedOf(l, provider);
    ManagedOfDistinct(l, provider);
    DistinctIdsCount(r);
    forall id ensures id in IdsOf(r) <==> id in ManagedIds(m, provider) {
      if id in m {
        ManagedOfMembers(l, provider, m[id]);
      }
      forall a | a in r ensures a in l && a.provider == provider {
        ManagedOfMembers(l, provider, a);
      }
    }
    assert IdsOf(r) == ManagedIds(m, provider);
  }

  // --------------------------------------------------------------------- class

  /** No record but that of the id is touched. */
  ghost predicate SameElsewhere(m: Store, m': Store, id: string) {
    forall k :: k != id ==> (k in m' <==> k in m) && (k in m ==> m'[k] == m[k])
  }

  class Registry {
    var agents: Store

    constructor ()
      ensures agents == map[]
    {
      agents := map[];
    }

    method RegisterAgent(id: string, address: string, providerID: string, instanceType: string,
                         provider: string, now: int)
      modifies this
      ensures agents == WithAgent(old(agents), Online, id, address, providerID, instanceType, provider, now)
      ensures SameElsewhere(old(agents), agents, id) && id in agents && agents[id].status == Online
      ensures agents[id].activeCount == 0 && agents[id].lastHeartbeat == now && agents[id].nodeStatus == None
      ensures agents[id].id == id && agents[id].address == address && agents[id].providerID == providerID
      ensures agents[id].instanceType == instanceType && agents[id].provider == provider
      ensures old(Keyed(agents)) ==> Keyed(agents)
    {
      var agent := Agent(id, address, 0, now, Online, providerID, instanceType, provider, None);
      agents := agents[agent.id := agent];
    }

    method RegisterOfflineAgent(id: string, address: string, providerID: string, instanceType: string,
                                provider: string, now: int)
      modifies this
      ensures agents == WithAgent(old(agents), Offline, id, address, providerID, instanceType, provider, now)
      ensures SameElsewhere(old(agents), agents, id) && id in agents && agents[id].status == Offline
      ensures agents[id].activeCount == 0 && agents[id].lastHeartbeat == now && agents[id].nodeStatus == None
      ensures agents[id].id == id && agents[id].address == address && agents[id].providerID == providerID
      ensures agents[id].instanceType == instanceType && agents[id].provider == provider
      ensures old(Keyed(agents)) ==> Keyed(agents)
    {
      var agent := Agent(id, address, 0, now, Offline, providerID, instanceType, provider, None);
      agents := agents[agent.id := agent];
    }

    method DeregisterAgent(id: string)
      modifies this
      ensures agents == old(agents) - {id}
      ensures SameElsewhere(old(agents), agents, id) && id !in agents
    {
      agents := agents - {id};
    }

    method Flush()
      modifies this
      ensures agents == map[]
    {
      agents := map[];
    }

    method GetAgent(id: string) returns (r: Option<Agent>)
      ensures r.Some? <==> id in agents
      ensures r.Some? ==> r.value == agents[id]
    {
      if id in agents { r := Some(agents[id]); } else { r := None; }
    }

    method SetOffline(id: string)
      requires Keyed(agents)
      modifies this
      ensures agents == WithOffline(old(agents), id) && Keyed(agents)
      ensures SameElsewhere(old(agents), agents, id) && (id in agents <==> id in old(agents))
      ensures id in agents ==>
                var a := old(agents[id]);
                agents[id] == if a.status == Draining then a else a.(status := Offline)
    {
      var found := GetAgent(id);
      if found.None? { return; }
      var agent := found.value;
      if agent.status == Draining { return; }
      agent := agent.(status := Offline);
      agents := agents[agent.id := agent];
    }

    method SetDraining(id: string)
      requires Keyed(agents)
      modifies this
      ensures agents == WithDraining(old(agents), id) && Keyed(agents)
      ensures SameElsewhere(old(agents), agents, id) && (id in agents <==> id in old(agents))
      ensures id in agents ==> agents[id] == old(agents[id]).(status := Draining)
    {
      var found := GetAgent(id);
      if found.None? { return; }
      var agent := found.value.(status := Draining);
      agents := agents[agent.id := agent];
    }

    method UpdateHeartbeat(id: string, activeCount: int, now: int)
      requires Keyed(agents)
      modifies this
      ensures agents == WithHeartbeat(old(agents), id, activeCount, now) && Keyed(agents)
      ensures SameElsewhere(old(agents), agents, id) && (id in agents <==> id in old(agents))
      ensures id in agents ==>
                var a := old(agents[id]);
                && agents[id].activeCount == activeCount && agents[id].lastHeartbeat == now
                && agents[id].nodeStatus == a.nodeStatus && IdentityOf(agents[id]) == IdentityOf(a)
                && agents[id].status == if a.status == Offline then Online else a.status
    {
      var found := GetAgent(id);
      if found.None? { return; }
      var agent := found.value.(lastHeartbeat := now, activeCount := activeCount);
      if agent.status == Offline {
        agent := agent.(status := Online);
      }
      agents := agents[agent.id := agent];
    }

    method UpdateNodeStatus(id: string, ns: NodeStatus)
      requires Keyed(agents)
      modifies this
      ensures agents == WithNodeStatus(old(agents), id, ns) && Keyed(agents)
      ensures SameElsewhere(old(agents), agents, id) && (id in agents <==> id in old(agents))
      ensures id in agents ==>
                var a := old(agents[id]);
                && agents[id].activeCount == ns.activeTasks && agents[id].lastHeartbeat == ns.collectedAt
                && agents[id].nodeStatus == Some(ns) && IdentityOf(agents[id]) == IdentityOf(a)
                && agents[id].status == if a.status == Offline then Online else a.status
    {
      var found := GetAgent(id);
      if found.None? { return; }
      var agent := found.value.(nodeStatus := Some(ns), activeCount := ns.activeTasks,
                                lastHeartbeat := ns.collectedAt);
      if agent.status == Offline {
        agent := agent.(status := Online);
      }
      agents := agents[agent.id := agent];
    }

    /** Reads the keys in whatever order the store gives them. */
    method GetAllAgents() returns (all: seq<Agent>)
      requires Keyed(agents)
      ensures Listing(agents, all)
    {
      all := [];
      var keys := agents.Keys;
      while keys != {}
        invariant keys <= agents.Keys
        invariant forall i :: 0 <= i < |all| ==> all[i].id in agents && agents[all[i].id] == all[i] && all[i].id !in keys
        invariant forall i, j :: 0 <= i < j < |all| ==> all[i].id != all[j].id
        invariant forall id :: id in agents ==> id in keys || exists i :: 0 <= i < |all| && all[i].id == id
        decreases keys
      {
        var id :| id in keys;
        ghost var before := all;
        all := all + [agents[id]];
        keys := keys - {id};
        forall k | k in agents && k !in keys ensures exists i :: 0 <= i < |all| && all[i].id == k {
          if k == id {
            assert all[|before|].id == k;
          } else {
            var i :| 0 <= i < |before| && before[i].id == k;
            assert all[i].id == k;
          }
        }
      }
    }

    /** Also GetAvailableAgents: the source has the same loop twice. */
    method GetOnlineAgents() returns (online: seq<Agent>, ghost all: seq<Agent>)
      requires Keyed(agents)
      ensures Listing(agents, all) && online == OnlineOf(all)
      ensures forall a :: a in online <==> a.id in agents && agents[a.id] == a && a.status == Online
    {
      var l := GetAllAgents();
      online := [];
      for i := 0 to |l|
        invariant online == OnlineOf(l[..i])
      {
        assert l[..i+1][..i] == l[..i];
        if IsOnline(l[i]) {
          online := online + [l[i]];
        }
      }
      assert l[..|l|] == l;
      all := l;
      forall a ensures a in online <==> a.id in agents && agents[a.id] == a && a.status == Online {
        OnlineOfMembers(l, a);
      }
    }
  }
}
