/** Upgrades make progress: how often a run can replace a node by the largest type. */
module FleetUpgrades {
  import opened Models
  import opened AgentRegistry
  import opened NodeTypes
  import opened Scaling
  import opened FleetModel
  import opened FleetIdentity
  import opened FleetBounds

  /** p's registered agents that are not of the largest type. */
  ghost function Lesser(m: Store, p: string, maxType: string): set<string> {
    set id | id in m && m[id].provider == p && m[id].instanceType != maxType
  }

  ghost predicate WellSized(nodeTypes: seq<NodeType>, maxType: string) {
    IsLargestType(nodeTypes, maxType) && OneLargestName(nodeTypes, maxType)
  }

  lemma LargestTypeIsUnique(nodeTypes: seq<NodeType>, a: string, b: string)
    requires IsLargestType(nodeTypes, a) && IsLargestType(nodeTypes, b)
    ensures a == b
  {
    if nodeTypes != [] {
      var i :| 0 <= i < |nodeTypes| && nodeTypes[i].instanceType == a && IsLargest(nodeTypes, ResourcesOf(nodeTypes[i]))
               && forall j :: 0 <= j < i ==> ResourcesOf(nodeTypes[j]) != ResourcesOf(nodeTypes[i]);
      var k :| 0 <= k < |nodeTypes| && nodeTypes[k].instanceType == b && IsLargest(nodeTypes, ResourcesOf(nodeTypes[k]))
               && forall j :: 0 <= j < k ==> ResourcesOf(nodeTypes[j]) != ResourcesOf(nodeTypes[k]);
      assert !Smaller(ResourcesOf(nodeTypes[i]), ResourcesOf(nodeTypes[k]));
      assert !Smaller(ResourcesOf(nodeTypes[k]), ResourcesOf(nodeTypes[i]));
    }
  }

  /** An upgrade in flight claims a lesser node and brings one of the largest type. */
  ghost predicate UpgradeActOk(a: Activity, m: Store, p: string, maxType: string) {
    && (IsClaim(a, p) && a.node.id in ManagedIds(m, p) ==> m[a.node.id].instanceType != maxType)
    && (a.p == p && a.role == Upgrade && a.phase == Registering ==> a.node.instanceType == maxType)
  }

  ghost predicate UpgradesOk(acts: map<nat, Activity>, m: Store, p: string, maxType: string) {
    forall t :: t in acts ==> UpgradeActOk(acts[t], m, p, maxType)
  }

  ghost function Spent(s: State, p: string, maxType: string): int
    requires p in s.scalers
  {
    |Lesser(s.agents, p, maxType)| + s.scalers[p].tally.upgraded - s.scalers[p].tally.smallest
  }

  /** No managed record of p appears or changes its type. */
  ghost predicate TypesStay(m: Store, m': Store, p: string) {
    forall id :: id in ManagedIds(m', p) ==> id in ManagedIds(m, p) && m'[id].instanceType == m[id].instanceType
  }

  lemma SameFleetTypes(m: Store, m': Store, p: string)
    requires SameFleet(m, m')
    ensures TypesStay(m, m', p)
  {
    forall id | id in m ensures IdentityOf(m'[id]) == IdentityOf(m[id]) {
    }
  }

  lemma StayLesser(m: Store, m': Store, p: string, maxType: string)
    requires TypesStay(m, m', p)
    ensures Lesser(m', p, maxType) <= Lesser(m, p, maxType)
    ensures |Lesser(m', p, maxType)| <= |Lesser(m, p, maxType)|
  {
    forall id | id in Lesser(m', p, maxType) ensures id in Lesser(m, p, maxType) {
      assert id in ManagedIds(m', p);
    }
    SubsetSize(Lesser(m', p, maxType), Lesser(m, p, maxType));
  }

  ghost predicate Upgrading(env: Env, s: State, p: string, maxType: string, budget: int) {
    && OfFleet(env, s, p) && Spent(s, p, maxType) <= budget && UpgradesOk(s.acts, s.agents, p, maxType)
  }

  ghost predicate SameCounts(s: State, s': State, p: string)
    requires p in s.scalers
  {
    && p in s'.scalers
    && s'.scalers[p].tally.upgraded == s.scalers[p].tally.upgraded
    && s'.scalers[p].tally.smallest == s.scalers[p].tally.smallest
  }

  /** Steps that touch no count: types stay, and any new goroutine is in order. */
  lemma PlainKeeps(env: Env, s: State, s': State, p: string, maxType: string, budget: int)
    requires Upgrading(env, s, p, maxType, budget) && SameCounts(s, s', p) && TypesStay(s.agents, s'.agents, p)
    requires forall t :: t in s'.acts ==>
               (t in s.acts && s'.acts[t] == s.acts[t]) || UpgradeActOk(s'.acts[t], s'.agents, p, maxType)
    ensures Upgrading(env, s', p, maxType, budget)
  {
    StayLesser(s.agents, s'.agents, p, maxType);
    forall t | t in s'.acts ensures UpgradeActOk(s'.acts[t], s'.agents, p, maxType) {
      if t in s.acts && s'.acts[t] == s.acts[t] {
        assert UpgradeActOk(s.acts[t], s.agents, p, maxType);
      }
    }
  }

  lemma DecisionCounts(env: Env, s: State, q: string, action: Action, u: nat, p: string)
    requires OfFleet(env, s, q) && p in s.scalers
    ensures SameCounts(s, AfterDecideUp(env, s, q, action, u), p)
    ensures SameCounts(s, AfterDecideDown(env, s, q, action, u), p)
  {
  }

  lemma DecideUpKeeps(env: Env, s: State, q: string, l: seq<Agent>, action: Action, u: nat,
                      p: string, maxType: string, budget: int)
    requires Upgrading(env, s, p, maxType, budget) && WellSized(env.fleet[p].nodeTypes, maxType)
    requires OfFleet(env, s, q) && FromStore(s.agents, q, action) && UpChoice(env.fleet[q], ManagedOf(l, q), action)
    ensures Upgrading(env, AfterDecideUp(env, s, q, action, u), p, maxType, budget)
  {
    var s' := AfterDecideUp(env, s, q, action, u);
    DecisionCounts(env, s, q, action, u, p);
    if q == p && action.UpgradeNode? {
      ClaimIsLesser(env.fleet[p], ManagedOf(l, q), action, maxType);
    }
    PlainKeeps(env, s, s', p, maxType, budget);
  }

  lemma ClaimIsLesser(cfg: Config, managed: seq<Agent>, action: Action, maxType: string)
    requires UpChoice(cfg, managed, action) && action.UpgradeNode? && IsLargestType(cfg.nodeTypes, maxType)
    ensures action.target.instanceType != maxType
  {
    var name, c :| && IsLargestType(cfg.nodeTypes, name) && IsUpgradeChoice(managed, name, c)
                   && action == if c.Some? then UpgradeNode(c.value) else NothingToUpgrade;
    LargestTypeIsUnique(cfg.nodeTypes, name, maxType);
  }

  lemma PollKeepsUpgrades(env: Env, s: State, q: string, x: PollStep, p: string, maxType: string, budget: int)
    requires Upgrading(env, s, p, maxType, budget) && WellSized(env.fleet[p].nodeTypes, maxType)
    requires OfFleet(env, s, q) && PollEnabled(env, s, q, x)
    ensures Upgrading(env, PollApply(env, s, q, x), p, maxType, budget)
  {
    var s' := PollApply(env, s, q, x);
    match x
    case DecideUp(l, action, u) =>
      ChosenFromStore(env.fleet[q], s.agents, l, q, action);
      DecideUpKeeps(env, s, q, l, action, u, p, maxType, budget);
    case DecideDown(l, action, u) => DecideDownKeepsUpgrades(env, s, q, action, u, p, maxType, budget);
    case _ =>
      CalmPoll(env, s, q, x);
      SameFleetTypes(s.agents, s'.agents, p);
      CalmPollTally(env, s, q, x, p);
      PlainKeeps(env, s, s', p, maxType, budget);
  }

  lemma DecideDownKeepsUpgrades(env: Env, s: State, q: string, action: Action, u: nat, p: string, maxType: string, budget: int)
    requires Upgrading(env, s, p, maxType, budget) && OfFleet(env, s, q)
    ensures Upgrading(env, AfterDecideDown(env, s, q, action, u), p, maxType, budget)
  {
    DecisionCounts(env, s, q, action, u, p);
    PlainKeeps(env, s, AfterDecideDown(env, s, q, action, u), p, maxType, budget);
  }

  // ------------------------------------------------------------------ goroutines

  /** An upgrade's deregistration of a registered node lowers the measure. */
  lemma DeregisterKeepsUpgrades(env: Env, s: State, t: nat, p: string, maxType: string, budget: int)
    requires Upgrading(env, s, p, maxType, budget) && Live(env, s, t) && s.acts[t].phase == Deregistering
    ensures Upgrading(env, AfterDeregister(s, t), p, maxType, budget)
  {
    var s', a := AfterDeregister(s, t), s.acts[t];
    DeregisterDropsRecord(s, t);
    DeregisterCounts(s, t, p);
    DropManaged(s.agents, a.node.id, p);
    assert TypesStay(s.agents, s'.agents, p);
    StayLesser(s.agents, s'.agents, p, maxType);
    assert UpgradeActOk(a, s.agents, p, maxType);
    if IsClaim(a, p) && a.node.id in ManagedIds(s.agents, p) {
      assert a.node.id in Lesser(s.agents, p, maxType) && a.node.id !in Lesser(s'.agents, p, maxType);
      DropOne(Lesser(s.agents, p, maxType), Lesser(s'.agents, p, maxType), a.node.id);
    }
    forall v | v in s'.acts ensures UpgradeActOk(s'.acts[v], s'.agents, p, maxType) {
      assert UpgradeActOk(s.acts[v], s.agents, p, maxType);
    }
  }

  lemma DeregisterCounts(s: State, t: nat, p: string)
    requires t in s.acts && s.acts[t].p in s.scalers && p in s.scalers && s.acts[t].phase == Deregistering
    ensures var s', a := AfterDeregister(s, t), s.acts[t];
            && p in s'.scalers && s'.scalers[p].tally.smallest == s.scalers[p].tally.smallest
            && s'.scalers[p].tally.upgraded == s.scalers[p].tally.upgraded +
                 if IsClaim(a, p) && a.node.id in ManagedIds(s.agents, p) then 1 else 0
  {
    match s.acts[t].role
    case Kill =>
    case Boot =>
    case Upgrade =>
    case _ =>
  }

  lemma RegisterKeepsClaims(env: Env, s: State, t: nat, u: nat, p: string, maxType: string)
    requires UpgradesOk(s.acts, s.agents, p, maxType) && HoldersOk(s.acts)
    requires Live(env, s, t) && s.acts[t].phase == Registering && u !in s.acts
    ensures UpgradesOk(AfterRegister(s, t, u).acts, AfterRegister(s, t, u).agents, p, maxType)
  {
    var s', a := AfterRegister(s, t, u), s.acts[t];
    RegisteredIds(s.agents, s'.agents[a.node.id], p);
    forall v | v in s'.acts ensures UpgradeActOk(s'.acts[v], s'.agents, p, maxType) {
      if v in s.acts { assert UpgradeActOk(s.acts[v], s.agents, p, maxType); }
    }
  }

  lemma RegisterKeepsUpgrades(env: Env, s: State, t: nat, u: nat, p: string, maxType: string, budget: int)
    requires Upgrading(env, s, p, maxType, budget) && HoldersOk(s.acts)
    requires Live(env, s, t) && s.acts[t].phase == Registering && u !in s.acts && RoleFits(s.acts[t])
    requires !IsManaged(s.agents, s.acts[t].node.id) && p != ""
    ensures Upgrading(env, AfterRegister(s, t, u), p, maxType, budget)
  {
    var s', a := AfterRegister(s, t, u), s.acts[t];
    RegisterKeepsClaims(env, s, t, u, p, maxType);
    RegisterCounts(s, t, u, p);
    assert UpgradeActOk(a, s.agents, p, maxType);
    RegisterLesser(s.agents, s'.agents[a.node.id], p, maxType);
  }

  lemma RegisterLesser(m: Store, a: Agent, p: string, maxType: string)
    requires !IsManaged(m, a.id) && p != ""
    ensures |Lesser(m[a.id := a], p, maxType)| ==
            |Lesser(m, p, maxType)| + if a.provider == p && a.instanceType != maxType then 1 else 0
  {
    var b, b' := Lesser(m, p, maxType), Lesser(m[a.id := a], p, maxType);
    assert a.id !in b;
    if a.provider == p && a.instanceType != maxType {
      assert b' == b + {a.id};
      AddSize(b, a.id);
    } else {
      assert b' == b;
    }
  }

  lemma RegisterCounts(s: State, t: nat, u: nat, p: string)
    requires t in s.acts && s.acts[t].p in s.scalers && p in s.scalers
    ensures var s', a := AfterRegister(s, t, u), s.acts[t];
            && p in s'.scalers && s'.scalers[p].tally.upgraded == s.scalers[p].tally.upgraded
            && s'.scalers[p].tally.smallest == s.scalers[p].tally.smallest +
                 if a.p == p && (a.role == Direct || a.role == Init) then 1 else 0
  {
  }

  lemma ActKeepsUpgrades(env: Env, s: State, t: nat, x: ActStep, p: string, maxType: string, budget: int)
    requires Upgrading(env, s, p, maxType, budget) && WellSized(env.fleet[p].nodeTypes, maxType)
    requires Inv(env, s) && Live(env, s, t) && ActEnabled(env, s, t, x)
    ensures Upgrading(env, ActApply(env, s, t, x), p, maxType, budget)
  {
    assert ActOk(env, s.acts[t], s.agents, s.origin, s.called);
    assert UpgradeActOk(s.acts[t], s.agents, p, maxType);
    match x
    case Deregister => DeregisterKeepsUpgrades(env, s, t, p, maxType, budget);
    case RegisterNode(u) => RegisterKeepsUpgrades(env, s, t, u, p, maxType, budget);
    case LaunchOk(node) =>
      if s.acts[t].p == p && s.acts[t].role == Upgrade { LaunchIsLargest(env, s, t, node, maxType); }
      PlainAct(env, s, t, x, p, maxType);
      PlainKeeps(env, s, ActApply(env, s, t, x), p, maxType, budget);
    case _ =>
      PlainAct(env, s, t, x, p, maxType);
      PlainKeeps(env, s, ActApply(env, s, t, x), p, maxType, budget);
  }

  lemma LaunchIsLargest(env: Env, s: State, t: nat, node: Node, maxType: string)
    requires Live(env, s, t) && ActEnabled(env, s, t, LaunchOk(node)) && s.acts[t].role == Upgrade
    requires WellSized(env.fleet[s.acts[t].p].nodeTypes, maxType)
    ensures node.instanceType == maxType
  {
    var nodeTypes := env.fleet[s.acts[t].p].nodeTypes;
    var r :| IsLargest(nodeTypes, r) && IsSelection(nodeTypes, r, Selected(node.instanceType));
    UpgradeReachesLargestType(nodeTypes, r, maxType, node.instanceType);
  }

  lemma PlainAct(env: Env, s: State, t: nat, x: ActStep, p: string, maxType: string)
    requires Live(env, s, t) && ActEnabled(env, s, t, x) && !x.Deregister? && !x.RegisterNode? && OfFleet(env, s, p)
    requires UpgradeActOk(s.acts[t], s.agents, p, maxType) && RoleFits(s.acts[t])
    requires x.LaunchOk? && s.acts[t].p == p && s.acts[t].role == Upgrade ==> x.node.instanceType == maxType
    ensures var s' := ActApply(env, s, t, x);
            && SameCounts(s, s', p) && TypesStay(s.agents, s'.agents, p)
            && forall v :: v in s'.acts ==>
                 (v in s.acts && s'.acts[v] == s.acts[v]) || UpgradeActOk(s'.acts[v], s'.agents, p, maxType)
  {
    var s' := ActApply(env, s, t, x);
    PlainActStore(env, s, t, x, p);
    PlainActMove(env, s, t, x, p, maxType);
    ActMoves(env, s, t, x);
  }

  lemma PlainActStore(env: Env, s: State, t: nat, x: ActStep, p: string)
    requires Live(env, s, t) && ActEnabled(env, s, t, x) && !x.Deregister? && !x.RegisterNode? && OfFleet(env, s, p)
    ensures var s' := ActApply(env, s, t, x);
            && SameCounts(s, s', p) && TypesStay(s.agents, s'.agents, p)
            && forall v :: v in s'.acts ==> v in s.acts
  {
    match x
    case Mark => SameFleetTypes(s.agents, AfterMark(s, t).agents, p);
    case _ =>
  }

  lemma PlainActMove(env: Env, s: State, t: nat, x: ActStep, p: string, maxType: string)
    requires Live(env, s, t) && ActEnabled(env, s, t, x) && !x.Deregister? && !x.RegisterNode? && OfFleet(env, s, p)
    requires UpgradeActOk(s.acts[t], s.agents, p, maxType) && RoleFits(s.acts[t])
    requires x.LaunchOk? && s.acts[t].p == p && s.acts[t].role == Upgrade ==> x.node.instanceType == maxType
    ensures var s' := ActApply(env, s, t, x);
            t in s'.acts ==> UpgradeActOk(s'.acts[t], s'.agents, p, maxType)
  {
    match x
    case Mark => SameFleetTypes(s.agents, AfterMark(s, t).agents, p);
    case _ =>
  }

  lemma OpKeepsUpgrades(env: Env, s: State, x: OpStep, p: string, maxType: string, budget: int)
    requires Upgrading(env, s, p, maxType, budget) && OpEnabled(env, s, x) && p != ""
    ensures Upgrading(env, OpApply(env, s, x), p, maxType, budget)
  {
    var s' := OpApply(env, s, x);
    match x {
      case Report(id, ns) =>
        UpdatesKeepFleet(s.agents, id, 0, 0, ns);
        SameFleetTypes(s.agents, s'.agents, p);
      case Heartbeat(id, n) =>
        UpdatesKeepFleet(s.agents, id, n, s.clock, NO_STATUS);
        SameFleetTypes(s.agents, s'.agents, p);
      case Manual(id, address) => RegisteredIds(s.agents, s'.agents[id], p);
      case _ =>
    }
    PlainKeeps(env, s, s', p, maxType, budget);
  }

  lemma UpgradeStep(env: Env, s: State, l: Label, p: string, maxType: string, budget: int)
    requires Inv(env, s) && Enabled(env, s, l)
    requires Upgrading(env, s, p, maxType, budget) && WellSized(env.fleet[p].nodeTypes, maxType)
    ensures Upgrading(env, Apply(env, s, l), p, maxType, budget)
  {
    match l
    case Tick(_) =>
    case Poll(q, x) => PollKeepsUpgrades(env, s, q, x, p, maxType, budget);
    case Act(t, x) => ActKeepsUpgrades(env, s, t, x, p, maxType, budget);
    case Operator(x) => OpKeepsUpgrades(env, s, x, p, maxType, budget);
  }

  lemma {:induction false} UpgradeRun(env: Env, states: seq<State>, labels: seq<Label>, i: nat, p: string,
                                      maxType: string, budget: int)
    requires Run(env, states, labels) && i < |states| && p in env.fleet && WellSized(env.fleet[p].nodeTypes, maxType)
    requires Upgrading(env, states[0], p, maxType, budget)
    ensures Upgrading(env, states[i], p, maxType, budget)
  {
    if i > 0 {
      UpgradeRun(env, states, labels, i - 1, p, maxType, budget);
      RunStep(env, states, labels, i - 1);
      UpgradeStep(env, states[i-1], labels[i-1], p, maxType, budget);
    }
  }

  /** If the largest entries share a name, the upgrades that took a registered node away, and
      the lesser nodes left, are paid for by the lesser nodes at the start and the
      smallest-type nodes registered since. */
  lemma UpgradesTerminate(env: Env, states: seq<State>, labels: seq<Label>, i: nat, p: string, maxType: string)
    requires Run(env, states, labels) && i < |states| && p in env.fleet && WellSized(env.fleet[p].nodeTypes, maxType)
    ensures OfFleet(env, states[i], p)
    ensures var tally := states[i].scalers[p].tally;
            |Lesser(states[i].agents, p, maxType)| + tally.upgraded
            <= |Lesser(states[0].agents, p, maxType)| + tally.smallest
  {
    assert states[0].scalers[p] == FRESH_SCALER;
    UpgradeRun(env, states, labels, i, p, maxType, |Lesser(states[0].agents, p, maxType)|);
  }
}
