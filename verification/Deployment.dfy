/** The race between a deploy and a joining agent.  handleDeploy saves the archive,
    lists the online agents and sends to each; a join puts the agent online, lists
    the functions and, for each, reads and sends the stored archive.  Any number of
    deploys, joins and promotions run at once; replies of agents are arbitrary. */
module Deployment {
  import opened Models
  import opened AgentRegistry

  /** Where a join stands: the health poller's probe of an offline agent, then the
      sync goroutine of syncFunctionsToAgent. */
  datatype SyncPc =
    | Probing
    | Announced                                  // the agent has been put online
    | Found                                      // its record has been read
    | Registering(todo: seq<string>)             // RegisterFunction of todo[0] is next
    | Reading(todo: seq<string>)                 // GetCodeArchive of todo[0] is next
    | Sending(todo: seq<string>, version: nat)   // DeployFunction of todo[0] is next
    | Synced

  datatype Join = Join(agent: string, pc: SyncPc, missed: set<string>)

  /** One handleDeploy call: targets is None until it has listed the agents. */
  datatype Deploy = Deploy(fn: string, version: nat, targets: Option<set<string>>, todo: seq<string>, missed: set<string>)

  datatype Delivery = Delivery(agent: string, fn: string, version: nat)

  /** Archives are numbered in the order they are saved. */
  datatype State = State(
    agents: map<string, AgentStatus>,
    functions: set<string>,
    archives: map<string, nat>,
    saves: nat,
    joins: map<nat, Join>,
    deploys: map<nat, Deploy>,
    delivered: seq<Delivery>)

  datatype Label =
    | Provisioned(id: string)                    // RegisterOfflineAgent
    | Register(j: nat, id: string)               // POST /agents/register
    | Probe(j: nat, id: string)                  // the health poller sees the agent offline
    | ProbeFails(j: nat)
    | Promote(j: nat)                            // UpdateNodeStatus by the health poller
    | ScalerPromote(id: string)                  // UpdateNodeStatus by an autoscaler poll
    | MarkOffline(id: string)
    | Drain(id: string)
    | Deregister(id: string)
    | Flush
    | NewFunction(f: string)
    | Fetch(j: nat)
    | ListFunctions(j: nat, l: seq<string>)
    | SendFunction(j: nat, ok: bool)
    | ReadArchive(j: nat)
    | SyncArchive(j: nat, ok: bool)
    | Save(d: nat, f: string)
    | ListAgents(d: nat, l: seq<string>)
    | Send(d: nat, ok: bool)

  ghost predicate Lists(l: seq<string>, members: set<string>) { forall x :: x in l <==> x in members }

  ghost function OnlineIds(agents: map<string, AgentStatus>): set<string> {
    set id | id in agents && agents[id] == Online
  }

  ghost predicate Enabled(s: State, l: Label) {
    match l
    case Register(j, id) => j !in s.joins
    case Probe(j, id) => j !in s.joins && id in s.agents && s.agents[id] == Offline
    case ProbeFails(j) => j in s.joins && s.joins[j].pc == Probing
    case Promote(j) => j in s.joins && s.joins[j].pc == Probing
    case Fetch(j) => j in s.joins && s.joins[j].pc == Announced
    case ListFunctions(j, l) => j in s.joins && s.joins[j].pc == Found && Lists(l, s.functions)
    case SendFunction(j, ok) => j in s.joins && s.joins[j].pc.Registering? && s.joins[j].pc.todo != []
    case ReadArchive(j) => j in s.joins && s.joins[j].pc.Reading? && s.joins[j].pc.todo != []
    case SyncArchive(j, ok) => j in s.joins && s.joins[j].pc.Sending? && s.joins[j].pc.todo != []
    case Save(d, f) => d !in s.deploys && f in s.functions
    case ListAgents(d, l) => d in s.deploys && s.deploys[d].targets == None && Lists(l, OnlineIds(s.agents))
    case Send(d, ok) => d in s.deploys && s.deploys[d].todo != []
    case _ => true
  }

  ghost function At(s: State, j: nat, pc: SyncPc): State
    requires j in s.joins
  {
    s.(joins := s.joins[j := s.joins[j].(pc := pc)])
  }

  /** The sync goes on with the functions that are left. */
  ghost function Rest(todo: seq<string>): SyncPc
    requires todo != []
  {
    if |todo| == 1 then Synced else Registering(todo[1..])
  }

  ghost function Missed(s: State, j: nat, f: string): State
    requires j in s.joins
  {
    s.(joins := s.joins[j := s.joins[j].(missed := s.joins[j].missed + {f})])
  }

  ghost function Delivered(s: State, agent: string, f: string, version: nat): State {
    s.(delivered := s.delivered + [Delivery(agent, f, version)])
  }

  ghost function Raised(agents: map<string, AgentStatus>, id: string): map<string, AgentStatus> {
    if id in agents then agents[id := Promoted(agents[id])] else agents
  }

  ghost function Apply(s: State, l: Label): State
    requires Enabled(s, l)
  {
    match l
    case Provisioned(id) => s.(agents := s.agents[id := Offline])
    case Register(j, id) => s.(agents := s.agents[id := Online], joins := s.joins[j := Join(id, Announced, {})])
    case Probe(j, id) => s.(joins := s.joins[j := Join(id, Probing, {})])
    case ProbeFails(j) => At(s, j, Synced)
    case Promote(j) => At(s, j, Announced).(agents := Raised(s.agents, s.joins[j].agent))
    case ScalerPromote(id) => s.(agents := Raised(s.agents, id))
    case MarkOffline(id) =>
      s.(agents := if id in s.agents && s.agents[id] != Draining then s.agents[id := Offline] else s.agents)
    case Drain(id) => s.(agents := if id in s.agents then s.agents[id := Draining] else s.agents)
    case Deregister(id) => s.(agents := s.agents - {id})
    case Flush => s.(agents := map[], functions := {}, archives := map[])
    case NewFunction(f) => s.(functions := s.functions + {f})
    case Fetch(j) => At(s, j, if s.joins[j].agent in s.agents then Found else Synced)
    case ListFunctions(j, l) => At(s, j, if l == [] then Synced else Registering(l))
    case SendFunction(j, ok) =>
      var todo := s.joins[j].pc.todo;
      if ok then At(s, j, Reading(todo)) else Missed(At(s, j, Rest(todo)), j, todo[0])
    case ReadArchive(j) =>
      var todo := s.joins[j].pc.todo;
      At(s, j, if todo[0] in s.archives then Sending(todo, s.archives[todo[0]]) else Rest(todo))
    case SyncArchive(j, ok) =>
      var join := s.joins[j];
      var s' := At(s, j, Rest(join.pc.todo));
      if ok then Delivered(s', join.agent, join.pc.todo[0], join.pc.version) else Missed(s', j, join.pc.todo[0])
    case Save(d, f) =>
      s.(archives := s.archives[f := s.saves + 1], saves := s.saves + 1,
         deploys := s.deploys[d := Deploy(f, s.saves + 1, None, [], {})])
    case ListAgents(d, l) =>
      s.(deploys := s.deploys[d := s.deploys[d].(targets := Some(OnlineIds(s.agents)), todo := l)])
    case Send(d, ok) =>
      var deploy := s.deploys[d];
      var missed := deploy.missed + if ok then {} else {deploy.todo[0]};
      var s' := s.(deploys := s.deploys[d := deploy.(todo := deploy.todo[1..], missed := missed)]);
      if ok then Delivered(s', deploy.todo[0], deploy.fn, deploy.version) else s'
  }

  ghost predicate Initial(s: State) {
    s.joins == map[] && s.deploys == map[] && s.delivered == []
    && (forall f :: f in s.archives ==> s.archives[f] <= s.saves)
  }

  ghost predicate Run(states: seq<State>, labels: seq<Label>) {
    && |states| == |labels| + 1 && Initial(states[0])
    && forall i :: 0 <= i < |labels| ==> Enabled(states[i], labels[i]) && states[i+1] == Apply(states[i], labels[i])
  }

  // ------------------------------------------------------------------- invariants

  ghost predicate Has(delivered: seq<Delivery>, agent: string, f: string, version: nat) {
    exists k :: 0 <= k < |delivered| && delivered[k].agent == agent && delivered[k].fn == f
                && delivered[k].version >= version
  }

  /** The deploy owes its archive to exactly the targets it has not reached yet. */
  ghost predicate DeployOk(s: State, d: nat)
    requires d in s.deploys
  {
    var deploy := s.deploys[d];
    && (deploy.targets == None ==> deploy.todo == [])
    && (deploy.targets.Some? ==> forall a :: a in deploy.targets.value ==>
          a in deploy.todo || a in deploy.missed || Has(s.delivered, a, deploy.fn, deploy.version))
  }

  /** Version v of f or a later one is what new agents get. */
  ghost predicate Kept(s: State, f: string, v: nat) {
    f in s.functions && f in s.archives && v <= s.archives[f]
  }

  /** The sync will read version v of f or a later one, or has already done so. */
  ghost predicate Reaches(s: State, j: nat, f: string, v: nat)
    requires j in s.joins
  {
    var pc := s.joins[j].pc;
    || f in s.joins[j].missed
    || Has(s.delivered, s.joins[j].agent, f, v)
    || pc == Announced || pc == Found
    || (pc.Registering? && f in pc.todo)
    || (pc.Reading? && f in pc.todo)
    || (pc.Sending? && pc.todo != [] && (f in pc.todo[1..] || (f == pc.todo[0] && v <= pc.version)))
  }

  lemma HasStep(delivered: seq<Delivery>, x: Delivery, agent: string, f: string, version: nat)
    ensures Has(delivered + [x], agent, f, version) <==>
              Has(delivered, agent, f, version) || (x.agent == agent && x.fn == f && x.version >= version)
  {
    var more := delivered + [x];
    if Has(more, agent, f, version) {
      var k :| 0 <= k < |more| && more[k].agent == agent && more[k].fn == f && more[k].version >= version;
      assert k < |delivered| ==> delivered[k] == more[k];
    }
    if Has(delivered, agent, f, version) {
      var k :| 0 <= k < |delivered| && delivered[k].agent == agent && delivered[k].fn == f
               && delivered[k].version >= version;
      assert more[k] == delivered[k];
    }
    assert more[|delivered|] == x;
  }

  lemma HasStays(s: State, l: Label, agent: string, f: string, version: nat)
    requires Enabled(s, l) && Has(s.delivered, agent, f, version)
    ensures Has(Apply(s, l).delivered, agent, f, version)
  {
    match l
    case SyncArchive(j, true) =>
      HasStep(s.delivered, Delivery(s.joins[j].agent, s.joins[j].pc.todo[0], s.joins[j].pc.version), agent, f, version);
    case Send(d, true) =>
      HasStep(s.delivered, Delivery(s.deploys[d].todo[0], s.deploys[d].fn, s.deploys[d].version), agent, f, version);
    case _ =>
  }

  lemma SaveKept(s: State, l: Label, f: string, v: nat)
    requires Enabled(s, l) && l != Flush && Kept(s, f, v) && v <= s.saves
    ensures Kept(Apply(s, l), f, v) && v <= Apply(s, l).saves
  {
  }

  lemma StepKeepsDeploy(s: State, l: Label, d: nat)
    requires Enabled(s, l) && d in s.deploys && DeployOk(s, d)
    ensures var s' := Apply(s, l);
            && d in s'.deploys && DeployOk(s', d)
            && s'.deploys[d].fn == s.deploys[d].fn && s'.deploys[d].version == s.deploys[d].version
            && (s.deploys[d].targets.Some? ==> s'.deploys[d].targets == s.deploys[d].targets)
  {
    var s', deploy := Apply(s, l), s.deploys[d];
    if deploy.targets.Some? {
      forall a | a in deploy.targets.value
        ensures a in s'.deploys[d].todo || a in s'.deploys[d].missed || Has(s'.delivered, a, deploy.fn, deploy.version)
      {
        if Has(s.delivered, a, deploy.fn, deploy.version) {
          HasStays(s, l, a, deploy.fn, deploy.version);
        } else if l.Send? && l.d == d && l.ok && a == deploy.todo[0] {
          HasStep(s.delivered, Delivery(a, deploy.fn, deploy.version), a, deploy.fn, deploy.version);
        }
      }
    }
  }

  lemma StepKeepsReach(s: State, l: Label, j: nat, f: string, v: nat)
    requires Enabled(s, l) && j in s.joins && s.joins[j].agent in s.agents && Kept(s, f, v) && Reaches(s, j, f, v)
    ensures var s' := Apply(s, l); j in s'.joins && s'.joins[j].agent == s.joins[j].agent && Reaches(s', j, f, v)
  {
    var s', agent := Apply(s, l), s.joins[j].agent;
    if Has(s.delivered, agent, f, v) {
      HasStays(s, l, agent, f, v);
    } else if s'.joins[j] != s.joins[j] {
      if l == SyncArchive(j, true) {
        HasStep(s.delivered, Delivery(agent, s.joins[j].pc.todo[0], s.joins[j].pc.version), agent, f, v);
      }
    }
  }

  // -------------------------------------------------------------------- theorems

  /** The step that puts the agent online and starts its sync. */
  ghost predicate Announces(l: Label, j: nat) { (l.Register? && l.j == j) || l == Promote(j) }

  ghost predicate NoFlush(labels: seq<Label>, from: nat) {
    forall k :: from <= k < |labels| ==> labels[k] != Flush
  }

  ghost predicate StaysOnline(states: seq<State>, agent: string, from: nat) {
    forall k :: from <= k < |states| ==> agent in states[k].agents && states[k].agents[agent] == Online
  }

  lemma SaveStep(s: State, d: nat, f: string)
    requires Enabled(s, Save(d, f))
    ensures var s' := Apply(s, Save(d, f));
            && d in s'.deploys && s'.deploys[d] == Deploy(f, s.saves + 1, None, [], {})
            && DeployOk(s', d) && Kept(s', f, s.saves + 1) && s.saves + 1 <= s'.saves
  {
  }

  lemma AnnounceStep(s: State, l: Label, j: nat)
    requires Enabled(s, l) && Announces(l, j)
    ensures j in Apply(s, l).joins && Apply(s, l).joins[j].pc == Announced
  {
  }

  lemma ListStep(s: State, l: Label, d: nat)
    requires Enabled(s, l) && d in s.deploys && s.deploys[d].targets == None
    ensures var s' := Apply(s, l);
            d in s'.deploys && (s'.deploys[d].targets.Some? ==> s'.deploys[d].targets.value == OnlineIds(s.agents))
  {
  }

  lemma StepKeepsJoin(s: State, l: Label, j: nat)
    requires Enabled(s, l) && j in s.joins
    ensures j in Apply(s, l).joins && Apply(s, l).joins[j].agent == s.joins[j].agent
  {
  }

  lemma {:induction false} DeployAt(states: seq<State>, labels: seq<Label>, q: nat, d: nat, f: string, i: nat)
    requires Run(states, labels) && q < i < |states| && labels[q] == Save(d, f) && NoFlush(labels, q)
    ensures var v := states[q].saves + 1;
            && d in states[i].deploys && states[i].deploys[d].fn == f && states[i].deploys[d].version == v
            && DeployOk(states[i], d) && Kept(states[i], f, v) && v <= states[i].saves
    ensures i == q + 1 ==> states[i].deploys[d].targets == None
  {
    if i == q + 1 {
      SaveStep(states[q], d, f);
    } else {
      DeployAt(states, labels, q, d, f, i - 1);
      SaveKept(states[i-1], labels[i-1], f, states[q].saves + 1);
      StepKeepsDeploy(states[i-1], labels[i-1], d);
    }
  }

  lemma {:induction false} JoinAt(states: seq<State>, labels: seq<Label>, p: nat, j: nat, i: nat)
    requires Run(states, labels) && p < i < |states| && Announces(labels[p], j)
    ensures j in states[p+1].joins && j in states[i].joins && states[i].joins[j].agent == states[p+1].joins[j].agent
    ensures i == p + 1 ==> states[i].joins[j].pc == Announced
  {
    if i == p + 1 {
      AnnounceStep(states[p], labels[p], j);
    } else {
      JoinAt(states, labels, p, j, i - 1);
      StepKeepsJoin(states[i-1], labels[i-1], j);
    }
  }

  /** Once the deploy has listed the agents, the joiner is among them or its sync
      gets the archive. */
  ghost predicate Covered(s: State, j: nat, d: nat, f: string, v: nat) {
    j in s.joins && d in s.deploys
    && (s.deploys[d].targets.Some? ==> s.joins[j].agent in s.deploys[d].targets.value || Reaches(s, j, f, v))
  }

  lemma StepKeepsCovered(s: State, l: Label, j: nat, d: nat, f: string, v: nat)
    requires Enabled(s, l) && Covered(s, j, d, f, v) && DeployOk(s, d) && Kept(s, f, v)
    requires s.joins[j].agent in OnlineIds(s.agents)
    ensures Covered(Apply(s, l), j, d, f, v)
  {
    StepKeepsJoin(s, l, j);
    StepKeepsDeploy(s, l, d);
    if s.deploys[d].targets == None {
      ListStep(s, l, d);
    } else if Reaches(s, j, f, v) {
      StepKeepsReach(s, l, j, f, v);
    }
  }

  lemma CoveredAtFirst(states: seq<State>, labels: seq<Label>, p: nat, q: nat, j: nat, d: nat, f: string, i: nat)
    requires Run(states, labels) && p < i < |states| && q < i && (i == p + 1 || i == q + 1)
    requires Announces(labels[p], j) && labels[q] == Save(d, f) && NoFlush(labels, q)
    ensures Covered(states[i], j, d, f, states[q].saves + 1)
  {
    JoinAt(states, labels, p, j, i);
    DeployAt(states, labels, q, d, f, i);
  }

  /** What covers the joiner now keeps covering it while it stays online. */
  lemma {:induction false} StaysCovered(states: seq<State>, labels: seq<Label>, m: nat, j: nat, d: nat, f: string, v: nat, i: nat)
    requires Run(states, labels) && m <= i < |states| && Covered(states[m], j, d, f, v)
    requires StaysOnline(states, states[m].joins[j].agent, m)
    requires forall k :: m <= k < |states| ==> d in states[k].deploys && DeployOk(states[k], d) && Kept(states[k], f, v)
    ensures Covered(states[i], j, d, f, v) && states[i].joins[j].agent == states[m].joins[j].agent
  {
    if i > m {
      StaysCovered(states, labels, m, j, d, f, v, i - 1);
      StepKeepsCovered(states[i-1], labels[i-1], j, d, f, v);
      StepKeepsJoin(states[i-1], labels[i-1], j);
    }
  }

  /** No deployment is missed: whatever the interleaving of a deploy with a join, an
      agent that stays online from its announcement has been sent that archive, or a
      later one of the same function, once both have finished, unless a call to that
      agent failed. */
  lemma NoMissedDeployment(states: seq<State>, labels: seq<Label>, p: nat, q: nat, j: nat, d: nat, f: string)
    requires Run(states, labels) && p < |labels| && q < |labels|
    requires Announces(labels[p], j) && labels[q] == Save(d, f) && NoFlush(labels, q)
    requires j in states[p+1].joins && StaysOnline(states, states[p+1].joins[j].agent, p + 1)
    requires var last := states[|labels|];
             && j in last.joins && last.joins[j].pc == Synced && f !in last.joins[j].missed
             && d in last.deploys && last.deploys[d].targets.Some? && last.deploys[d].todo == []
             && states[p+1].joins[j].agent !in last.deploys[d].missed
    ensures Has(states[|labels|].delivered, states[p+1].joins[j].agent, f, states[q].saves + 1)
  {
    var m := if p < q then q + 1 else p + 1;
    CoveredAtFirst(states, labels, p, q, j, d, f, m);
    JoinAt(states, labels, p, j, m);
    forall k | m <= k < |states|
      ensures d in states[k].deploys && DeployOk(states[k], d) && Kept(states[k], f, states[q].saves + 1)
    {
      DeployAt(states, labels, q, d, f, k);
    }
    StaysCovered(states, labels, m, j, d, f, states[q].saves + 1, |labels|);
    DeployAt(states, labels, q, d, f, |labels|);
  }

  // ------------------------------------------------- what deploys have listed

  ghost predicate DeploysOk(s: State) {
    && VersionsOk(s.deploys, s.saves)
    && forall d :: d in s.deploys ==> OwesTargets(s.deploys[d])
  }

  ghost predicate VersionsOk(deploys: map<nat, Deploy>, saves: nat) {
    && (forall d :: d in deploys ==> deploys[d].version <= saves)
    && (forall d, e :: d in deploys && e in deploys && d != e ==> deploys[d].version != deploys[e].version)
  }

  ghost predicate OwesTargets(deploy: Deploy) {
    forall x :: x in deploy.todo ==> deploy.targets.Some? && x in deploy.targets.value
  }

  ghost predicate Skipped(s: State, d: nat, agent: string) {
    d in s.deploys && s.deploys[d].targets.Some? && agent !in s.deploys[d].targets.value
  }

  /** A step that starts a sync of the agent, or lets the health poller start one. */
  ghost predicate Rejoins(l: Label, agent: string) {
    (l.Register? && l.id == agent) || l == MarkOffline(agent) || l == Provisioned(agent)
  }

  lemma StepKeepsVersions(s: State, l: Label)
    requires Enabled(s, l) && VersionsOk(s.deploys, s.saves)
    ensures VersionsOk(Apply(s, l).deploys, Apply(s, l).saves)
  {
    var s' := Apply(s, l);
    if !l.Save? {
      assert s'.saves == s.saves;
      assert forall d :: d in s'.deploys ==> d in s.deploys && s'.deploys[d].version == s.deploys[d].version;
    }
  }

  lemma StepKeepsOwes(s: State, l: Label)
    requires Enabled(s, l) && forall d :: d in s.deploys ==> OwesTargets(s.deploys[d])
    ensures forall d :: d in Apply(s, l).deploys ==> OwesTargets(Apply(s, l).deploys[d])
  {
    var s' := Apply(s, l);
    match l
    case Send(e, ok) => assert forall x :: x in s'.deploys[e].todo ==> x in s.deploys[e].todo;
    case _ =>
  }

  lemma {:induction false} AllDeploysOk(states: seq<State>, labels: seq<Label>, i: nat)
    requires Run(states, labels) && i < |states|
    ensures DeploysOk(states[i])
  {
    if i > 0 {
      AllDeploysOk(states, labels, i - 1);
      StepKeepsVersions(states[i-1], labels[i-1]);
      StepKeepsOwes(states[i-1], labels[i-1]);
    }
  }

  // ------------------------------------------------- which archive an agent ends with

  /** The version of f that was delivered to the agent last. */
  ghost function LastFor(delivered: seq<Delivery>, agent: string, f: string): Option<nat> {
    if delivered == [] then None else
    var x := delivered[|delivered|-1];
    if x.agent == agent && x.fn == f then Some(x.version) else LastFor(delivered[..|delivered|-1], agent, f)
  }

  /** What the agent runs is what is stored. */
  ghost predicate Current(s: State, agent: string, f: string) {
    f in s.archives && LastFor(s.delivered, agent, f) == Some(s.archives[f])
  }

  /** A sync is about to send the agent another version than the stored one. */
  ghost predicate StaleSync(s: State, j: nat, agent: string, f: string) {
    && j in s.joins && s.joins[j].agent == agent && f in s.archives
    && s.joins[j].pc.Sending? && s.joins[j].pc.todo != [] && s.joins[j].pc.todo[0] == f
    && s.joins[j].pc.version != s.archives[f]
  }

  /** A deploy of another version has yet to list the agents, or to send to this one. */
  ghost predicate StaleDeploy(s: State, d: nat, agent: string, f: string) {
    && d in s.deploys && s.deploys[d].fn == f && f in s.archives && s.deploys[d].version != s.archives[f]
    && (s.deploys[d].targets == None || agent in s.deploys[d].todo)
  }

  ghost predicate NoneStale(s: State, agent: string, f: string) {
    && (forall j :: !StaleSync(s, j, agent, f))
    && (forall d :: !StaleDeploy(s, d, agent, f))
  }

  /** What may follow s when f is not deployed again and nothing is flushed. */
  ghost predicate Follows(s: State, states: seq<State>, labels: seq<Label>, f: string) {
    && |states| == |labels| + 1 && states[0] == s
    && forall i :: 0 <= i < |labels| ==>
         && Enabled(states[i], labels[i]) && states[i+1] == Apply(states[i], labels[i])
         && labels[i] != Flush && !(labels[i].Save? && labels[i].f == f)
  }

  lemma LastAfter(delivered: seq<Delivery>, x: Delivery, agent: string, f: string)
    ensures LastFor(delivered + [x], agent, f) ==
            if x.agent == agent && x.fn == f then Some(x.version) else LastFor(delivered, agent, f)
  {
    assert (delivered + [x])[..|delivered|] == delivered;
  }

  lemma StepKeepsCurrent(s: State, l: Label, agent: string, f: string)
    requires Enabled(s, l) && l != Flush && !(l.Save? && l.f == f)
    requires Current(s, agent, f) && NoneStale(s, agent, f)
    ensures Current(Apply(s, l), agent, f)
  {
    match l
    case SyncArchive(j, true) =>
      assert !StaleSync(s, j, agent, f);
      LastAfter(s.delivered, Delivery(s.joins[j].agent, s.joins[j].pc.todo[0], s.joins[j].pc.version), agent, f);
    case Send(d, true) =>
      assert !StaleDeploy(s, d, agent, f);
      LastAfter(s.delivered, Delivery(s.deploys[d].todo[0], s.deploys[d].fn, s.deploys[d].version), agent, f);
    case _ =>
  }

  lemma StepKeepsSyncsFresh(s: State, l: Label, agent: string, f: string, j: nat)
    requires Enabled(s, l) && l != Flush && !(l.Save? && l.f == f) && f in s.archives && !StaleSync(s, j, agent, f)
    ensures !StaleSync(Apply(s, l), j, agent, f)
  {
  }

  lemma StepKeepsDeploysFresh(s: State, l: Label, agent: string, f: string, d: nat)
    requires Enabled(s, l) && l != Flush && !(l.Save? && l.f == f) && f in s.archives && !StaleDeploy(s, d, agent, f)
    ensures !StaleDeploy(Apply(s, l), d, agent, f)
  {
  }

  lemma {:induction false} CurrentFollows(s: State, states: seq<State>, labels: seq<Label>, agent: string, f: string, i: nat)
    requires Current(s, agent, f) && NoneStale(s, agent, f) && Follows(s, states, labels, f) && i < |states|
    ensures Current(states[i], agent, f) && NoneStale(states[i], agent, f)
  {
    if i > 0 {
      CurrentFollows(s, states, labels, agent, f, i - 1);
      StepKeepsCurrent(states[i-1], labels[i-1], agent, f);
      forall j ensures !StaleSync(states[i], j, agent, f) {
        StepKeepsSyncsFresh(states[i-1], labels[i-1], agent, f, j);
      }
      forall d ensures !StaleDeploy(states[i], d, agent, f) {
        StepKeepsDeploysFresh(states[i-1], labels[i-1], agent, f, d);
      }
    }
  }

  /** One more step of what follows. */
  lemma FollowsMore(s: State, states: seq<State>, labels: seq<Label>, f: string, l: Label)
    returns (states': seq<State>, labels': seq<Label>)
    requires Follows(s, states, labels, f) && Enabled(states[|labels|], l) && l != Flush && !(l.Save? && l.f == f)
    ensures Follows(s, states', labels', f) && states'[|labels'|] == Apply(states[|labels|], l)
  {
    states', labels' := states + [Apply(states[|labels|], l)], labels + [l];
  }

  /** The deploy sends on until it has reached the agent. */
  lemma {:induction false} SendUpTo(s: State, states: seq<State>, labels: seq<Label>, d: nat, agent: string, f: string)
    returns (states': seq<State>, labels': seq<Label>)
    requires Follows(s, states, labels, f) && StaleDeploy(states[|labels|], d, agent, f)
    requires agent in states[|labels|].deploys[d].todo
    ensures Follows(s, states', labels', f) && !Current(states'[|labels'|], agent, f)
    decreases |states[|labels|].deploys[d].todo|
  {
    var now := states[|labels|];
    var deploy := now.deploys[d];
    LastAfter(now.delivered, Delivery(deploy.todo[0], f, deploy.version), agent, f);
    states', labels' := FollowsMore(s, states, labels, f, Send(d, true));
    if deploy.todo[0] != agent {
      assert deploy.todo == [deploy.todo[0]] + deploy.todo[1..];
      states', labels' := SendUpTo(s, states', labels', d, agent, f);
    }
  }

  lemma {:induction false} Enumerate(ids: set<string>) returns (l: seq<string>)
    ensures Lists(l, ids)
  {
    l := [];
    if ids != {} {
      var x :| x in ids;
      var rest := Enumerate(ids - {x});
      l := [x] + rest;
    }
  }

  lemma StaleSyncWins(s: State, j: nat, agent: string, f: string) returns (states: seq<State>, labels: seq<Label>)
    requires StaleSync(s, j, agent, f)
    ensures Follows(s, states, labels, f) && !Current(states[|labels|], agent, f)
  {
    states, labels := FollowsMore(s, [s], [], f, SyncArchive(j, true));
    LastAfter(s.delivered, Delivery(agent, f, s.joins[j].pc.version), agent, f);
  }

  lemma StaleDeployWins(s: State, d: nat, agent: string, f: string) returns (states: seq<State>, labels: seq<Label>)
    requires StaleDeploy(s, d, agent, f)
    ensures Follows(s, states, labels, f) && !Current(states[|labels|], agent, f)
  {
    states, labels := [s], [];
    if agent !in s.deploys[d].todo {
      var j := AboveAll(s.joins.Keys);
      states, labels := FollowsMore(s, states, labels, f, Register(j, agent));
      var l := Enumerate(OnlineIds(states[|labels|].agents));
      states, labels := FollowsMore(s, states, labels, f, ListAgents(d, l));
    }
    states, labels := SendUpTo(s, states, labels, d, agent, f);
  }

  /** In a reachable state in which the agent has last been sent the stored archive,
      it stays so, whatever follows short of a deploy of f or a flush, if and only if
      nobody holds another version of f to send it. */
  lemma StaysCurrentIff(run: seq<State>, done: seq<Label>, agent: string, f: string)
    requires Run(run, done) && Current(run[|done|], agent, f)
    ensures (forall states, labels :: Follows(run[|done|], states, labels, f) ==> Current(states[|labels|], agent, f))
            <==> NoneStale(run[|done|], agent, f)
  {
    var s := run[|done|];
    if j :| StaleSync(s, j, agent, f) {
      var states, labels := StaleSyncWins(s, j, agent, f);
    } else if d :| StaleDeploy(s, d, agent, f) {
      var states, labels := StaleDeployWins(s, d, agent, f);
    } else {
      forall states, labels | Follows(s, states, labels, f) ensures Current(states[|labels|], agent, f) {
        CurrentFollows(s, states, labels, agent, f, |labels|);
      }
    }
  }

  // A stale sender does arise: a sync reads an archive, a deploy replaces it and
  // reaches the agent first, and the sync sends what it read.

  function StaleStep(agent: string, f: string, k: nat): Label {
    match k
    case 0 => Register(0, agent)
    case 1 => Fetch(0)
    case 2 => ListFunctions(0, [f])
    case 3 => SendFunction(0, true)
    case 4 => ReadArchive(0)
    case 5 => Save(0, f)
    case 6 => ListAgents(0, [agent])
    case 7 => Send(0, true)
    case _ => SyncArchive(0, true)
  }

  ghost function StaleState(agent: string, f: string, k: nat): State {
    var pc := if k <= 1 then Announced else if k == 2 then Found else if k == 3 then SyncPc.Registering([f])
              else if k == 4 then Reading([f]) else if k <= 8 then Sending([f], 1) else Synced;
    var deploy := Deploy(f, 2, if k <= 6 then None else Some({agent}), if k == 7 then [agent] else [], {});
    var sent := Delivery(agent, f, 2);
    State(if k == 0 then map[] else map[agent := Online], {f}, map[f := if k <= 5 then 1 else 2], if k <= 5 then 1 else 2,
          if k == 0 then map[] else map[0 := Join(agent, pc, {})],
          if k <= 5 then map[] else map[0 := deploy],
          if k <= 7 then [] else if k == 8 then [sent] else [sent, Delivery(agent, f, 1)])
  }

  lemma StaleSyncSteps(agent: string, f: string, k: nat)
    requires k <= 4 || k == 8
    ensures Enabled(StaleState(agent, f, k), StaleStep(agent, f, k))
    ensures StaleState(agent, f, k + 1) == Apply(StaleState(agent, f, k), StaleStep(agent, f, k))
  {
    var s, s' := StaleState(agent, f, k), StaleState(agent, f, k + 1);
    var next := Apply(s, StaleStep(agent, f, k));
    assert next.agents == s'.agents && next.joins == s'.joins;
    assert next.delivered == s'.delivered;
  }

  lemma StaleSaveSteps(agent: string, f: string)
    ensures var s, l := StaleState(agent, f, 5), StaleStep(agent, f, 5);
            Enabled(s, l) && StaleState(agent, f, 6) == Apply(s, l)
  {
    var s, s' := StaleState(agent, f, 5), StaleState(agent, f, 6);
    var next := Apply(s, StaleStep(agent, f, 5));
    assert next.archives == s'.archives;
    assert next.deploys == s'.deploys;
  }

  lemma StaleListSteps(agent: string, f: string)
    ensures var s, l := StaleState(agent, f, 6), StaleStep(agent, f, 6);
            Enabled(s, l) && StaleState(agent, f, 7) == Apply(s, l)
  {
    var s, s' := StaleState(agent, f, 6), StaleState(agent, f, 7);
    assert OnlineIds(s.agents) == {agent};
    assert Apply(s, StaleStep(agent, f, 6)).deploys == s'.deploys;
  }

  lemma StaleSendSteps(agent: string, f: string)
    ensures var s, l := StaleState(agent, f, 7), StaleStep(agent, f, 7);
            Enabled(s, l) && StaleState(agent, f, 8) == Apply(s, l)
  {
    var s, s' := StaleState(agent, f, 7), StaleState(agent, f, 8);
    var next := Apply(s, StaleStep(agent, f, 7));
    var none: set<string> := {};
    assert [agent][1..] == [] && none + none == none;
    assert next.deploys[0] == s'.deploys[0];
    assert next.deploys == s'.deploys;
    assert next.delivered == s'.delivered;
  }

  /** With a sync and a deploy that both end well, the agent is left running the older
      archive. */
  lemma StaleArchiveCanWin(agent: string, f: string) returns (states: seq<State>, labels: seq<Label>)
    ensures Run(states, labels)
    ensures var s := states[|labels|];
            && (forall j :: j in s.joins ==> s.joins[j].pc == Synced && s.joins[j].missed == {})
            && (forall d :: d in s.deploys ==> s.deploys[d].todo == [] && s.deploys[d].missed == {})
            && f in s.archives && s.archives[f] == 2 && LastFor(s.delivered, agent, f) == Some(1)
  {
    states := seq(10, k requires 0 <= k < 10 => StaleState(agent, f, k));
    labels := seq(9, k requires 0 <= k < 9 => StaleStep(agent, f, k));
    forall k | 0 <= k < 9 ensures Enabled(states[k], labels[k]) && states[k+1] == Apply(states[k], labels[k]) {
      if k == 5 {
        StaleSaveSteps(agent, f);
      } else if k == 6 {
        StaleListSteps(agent, f);
      } else if k == 7 {
        StaleSendSteps(agent, f);
      } else {
        StaleSyncSteps(agent, f, k);
      }
    }
  }
}
