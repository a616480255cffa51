/** How small a provider's fleet can get, over every interleaving. */
module FleetFloor {
  import opened Models
  import opened AgentRegistry
  import opened Scaling
  import opened FleetModel
  import opened FleetIdentity
  import opened FleetBounds

  /** What may have taken the fleet below its minimum. */
  ghost function Slack(tally: Tally): int {
    tally.crossed + tally.bootFailures + tally.removals
  }

  /** Registered agents less drains in flight. */
  ghost function Margin(s: State, p: string): int {
    |ManagedIds(s.agents, p)| - |Drains(s.acts, p)|
  }

  ghost predicate Lower(s: State, p: string, floor: int) {
    && p in s.scalers
    && floor <= Margin(s, p) + Slack(s.scalers[p].tally)
    && 0 <= s.scalers[p].tally.removals
  }

  ghost predicate NoWorse(s: State, s': State, p: string)
    requires p in s.scalers
  {
    && p in s'.scalers
    && Margin(s, p) + Slack(s.scalers[p].tally) <= Margin(s', p) + Slack(s'.scalers[p].tally)
    && s.scalers[p].tally.removals <= s'.scalers[p].tally.removals
  }

  ghost predicate SameDrains(acts: map<nat, Activity>, acts': map<nat, Activity>, p: string) {
    forall t :: (t in acts && IsDrain(acts[t], p)) <==> (t in acts' && IsDrain(acts'[t], p))
  }

  lemma SameDrainsSame(acts: map<nat, Activity>, acts': map<nat, Activity>, p: string)
    requires SameDrains(acts, acts', p)
    ensures Drains(acts', p) == Drains(acts, p)
  {
  }

  lemma WithoutOne<T>(a: set<T>, x: T)
    ensures |a - {x}| >= |a| - 1
    ensures x in a ==> |a - {x}| == |a| - 1
  {
    if x in a { assert a == (a - {x}) + {x}; } else { assert a - {x} == a; }
  }

  // ------------------------------------------------------------------- decisions

  lemma NewDrain(acts: map<nat, Activity>, u: nat, a: Activity, p: string)
    requires u !in acts
    ensures Drains(acts[u := a], p) == if IsDrain(a, p) then Drains(acts, p) + {u} else Drains(acts, p)
    ensures |Drains(acts[u := a], p)| == |Drains(acts, p)| + if IsDrain(a, p) then 1 else 0
  {
    assert Drains(acts[u := a], p) == if IsDrain(a, p) then Drains(acts, p) + {u} else Drains(acts, p);
    AddSize(Drains(acts, p), u);
  }

  /** A drain is decided: on a count above the minimum, or while others are in flight. */
  lemma LowerDecision(s: State, s': State, p: string, u: nat, a: Activity, floor: int)
    requires Lower(s, p, floor) && u !in s.acts && Starts(s, s', p, u, a)
    requires floor < |ManagedIds(s.agents, p)| || !IsDrain(a, p)
    requires var tally, tally' := s.scalers[p].tally, s'.scalers[p].tally;
             && tally'.bootFailures == tally.bootFailures && tally'.removals == tally.removals
             && tally'.crossed == tally.crossed + if IsDrain(a, p) && Drains(s.acts, p) != {} then 1 else 0
    ensures Lower(s', p, floor)
  {
    NewDrain(s.acts, u, a, p);
  }

  lemma OtherDecision(s: State, s': State, q: string, u: nat, a: Activity, p: string)
    requires u !in s.acts && Starts(s, s', q, u, a) && p in s.scalers && q != p
    ensures NoWorse(s, s', p)
  {
    NewDrain(s.acts, u, a, p);
  }

  lemma LowerDecideUp(env: Env, s: State, q: string, action: Action, u: nat, p: string, floor: int)
    requires OfFleet(env, s, q) && u !in s.acts
    requires action.UpgradeNode? ==> env.fleet[q].maxNodes <= |ManagedIds(s.agents, q)|
    requires OfFleet(env, s, p) && floor < env.fleet[p].maxNodes && Lower(s, p, floor)
    ensures Lower(AfterDecideUp(env, s, q, action, u), p, floor)
  {
    var s' := AfterDecideUp(env, s, q, action, u);
    if action.SpawnSmallest? || action.UpgradeNode? {
      var a := s'.acts[u];
      if q == p { LowerDecision(s, s', p, u, a, floor); } else { OtherDecision(s, s', q, u, a, p); }
    }
  }

  lemma LowerDecideDown(env: Env, s: State, q: string, action: Action, u: nat, p: string, floor: int)
    requires OfFleet(env, s, q) && u !in s.acts
    requires action.RemoveNode? ==> env.fleet[q].minNodes < |ManagedIds(s.agents, q)|
    requires OfFleet(env, s, p) && floor <= env.fleet[p].minNodes && Lower(s, p, floor)
    ensures Lower(AfterDecideDown(env, s, q, action, u), p, floor)
  {
    var s' := AfterDecideDown(env, s, q, action, u);
    if action.RemoveNode? {
      var a := s'.acts[u];
      if q == p { LowerDecision(s, s', p, u, a, floor); } else { OtherDecision(s, s', q, u, a, p); }
    }
  }

  lemma LowerPoll(env: Env, s: State, q: string, x: PollStep, p: string, floor: int)
    requires Keyed(s.agents) && OfFleet(env, s, q) && PollEnabled(env, s, q, x)
    requires OfFleet(env, s, p) && floor <= env.fleet[p].minNodes < env.fleet[p].maxNodes && Lower(s, p, floor)
    ensures Lower(PollApply(env, s, q, x), p, floor)
  {
    var s' := PollApply(env, s, q, x);
    match x
    case DecideUp(l, action, u) =>
      ManagedCount(s.agents, l, q);
      LowerDecideUp(env, s, q, action, u, p, floor);
    case DecideDown(l, action, u) =>
      ManagedCount(s.agents, l, q);
      LowerDecideDown(env, s, q, action, u, p, floor);
    case _ =>
      CalmPoll(env, s, q, x);
      SameFleetManages(s.agents, s'.agents);
      CalmPollTally(env, s, q, x, p);
  }

  // ------------------------------------------------------------------- goroutines

  lemma RemovedTally(s: State, m: Store, p: string)
    requires p in s.scalers && ManagedIds(m, p) <= ManagedIds(s.agents, p)
    ensures NoWorse(s, Removed(s, m), p)
  {
    SubsetSize(ManagedIds(m, p), ManagedIds(s.agents, p));
  }

  lemma OneMoveDrains(acts: map<nat, Activity>, acts': map<nat, Activity>, t: nat, p: string)
    requires t in acts && OnlyMoves(acts, acts', t)
    requires (t in acts' && IsDrain(acts'[t], p)) <==> IsDrain(acts[t], p)
    ensures Drains(acts', p) == Drains(acts, p)
  {
    assert SameDrains(acts, acts', p);
    SameDrainsSame(acts, acts', p);
  }

  /** The drain t is over once it deregisters its node. */
  lemma DrainEnds(acts: map<nat, Activity>, t: nat, p: string)
    requires t in acts && acts[t].phase == Deregistering
    ensures |Drains(acts[t := acts[t].(phase := Terminating)], p)| == |Drains(acts, p)| - if IsDrain(acts[t], p) then 1 else 0
  {
    assert Drains(acts[t := acts[t].(phase := Terminating)], p) == Drains(acts, p) - {t};
    WithoutOne(Drains(acts, p), t);
    if !IsDrain(acts[t], p) { assert Drains(acts, p) - {t} == Drains(acts, p); }
  }

  lemma DroppedSize(m: Store, id: string, p: string)
    ensures |ManagedIds(m, p)| - 1 <= |ManagedIds(m - {id}, p)| <= |ManagedIds(m, p)|
    ensures id !in ManagedIds(m, p) ==> ManagedIds(m - {id}, p) == ManagedIds(m, p)
  {
    DropManaged(m, id, p);
    WithoutOne(ManagedIds(m, p), id);
    SubsetSize(ManagedIds(m, p) - {id}, ManagedIds(m, p));
  }

  lemma OthersNode(env: Env, s: State, t: nat, p: string)
    requires ActsOk(env, s.acts, s.agents, s.origin, s.called) && StoreOk(s.agents, s.seen, s.origin)
    requires t in s.acts && s.acts[t].phase == Deregistering && s.acts[t].p != p && p != ""
    ensures s.acts[t].node.id !in ManagedIds(s.agents, p)
  {
    assert ActOk(env, s.acts[t], s.agents, s.origin, s.called);
  }

  lemma LowerDeregister(env: Env, s: State, t: nat, p: string)
    requires StoreOk(s.agents, s.seen, s.origin) && ActsOk(env, s.acts, s.agents, s.origin, s.called)
    requires Live(env, s, t) && s.acts[t].phase == Deregistering && p in s.scalers && p != ""
    ensures NoWorse(s, AfterDeregister(s, t), p)
  {
    var a := s.acts[t];
    assert ActOk(env, a, s.agents, s.origin, s.called);
    DrainEnds(s.acts, t, p);
    DroppedSize(s.agents, a.node.id, p);
    if a.p != p { OthersNode(env, s, t, p); }
    DeregisterSlack(s, t, p);
  }

  lemma DeregisterSlack(s: State, t: nat, p: string)
    requires t in s.acts && s.acts[t].p in s.scalers && p in s.scalers
    ensures var s', a := AfterDeregister(s, t), s.acts[t];
            && p in s'.scalers && s'.agents == s.agents - {a.node.id}
            && s'.acts == s.acts[t := a.(phase := Terminating)]
            && Slack(s'.scalers[p].tally) == Slack(s.scalers[p].tally) +
                 (if a.role == Kill then |ManagedIds(s.agents, p)| - |ManagedIds(s'.agents, p)|
                  else if a.role == Boot && a.p == p then 1 else 0)
            && s'.scalers[p].tally.removals == s.scalers[p].tally.removals +
                 (if a.role == Kill then |ManagedIds(s.agents, p)| - |ManagedIds(s'.agents, p)| else 0)
  {
    match s.acts[t].role
    case Kill =>
    case Boot =>
    case Upgrade =>
    case _ =>
  }

  lemma LowerRegister(env: Env, s: State, t: nat, u: nat, p: string)
    requires ActsOk(env, s.acts, s.agents, s.origin, s.called) && p != ""
    requires Live(env, s, t) && s.acts[t].phase == Registering && u !in s.acts && p in s.scalers
    ensures NoWorse(s, AfterRegister(s, t, u), p)
  {
    RegisterMargin(env, s, t, u, p);
    RegisterSlack(s, t, u, p);
  }

  lemma RegisterMargin(env: Env, s: State, t: nat, u: nat, p: string)
    requires ActsOk(env, s.acts, s.agents, s.origin, s.called) && p != ""
    requires Live(env, s, t) && s.acts[t].phase == Registering && u !in s.acts && p in s.scalers
    ensures Margin(s, p) <= Margin(AfterRegister(s, t, u), p)
  {
    var a := s.acts[t];
    assert ActOk(env, a, s.agents, s.origin, s.called);
    RegisterShape(env, s, t, u, p);
    OneMoveDrains(s.acts, AfterRegister(s, t, u).acts, t, p);
    ArrivalSize(ManagedIds(s.agents, p), a.node.id);
  }

  lemma ArrivalSize(m: set<string>, id: string)
    requires id !in m
    ensures |m + {id}| == |m| + 1 && m - {id} == m
  {
  }

  lemma RegisterSlack(s: State, t: nat, u: nat, p: string)
    requires t in s.acts && s.acts[t].p in s.scalers && p in s.scalers
    ensures var s' := AfterRegister(s, t, u);
            p in s'.scalers && Slack(s'.scalers[p].tally) == Slack(s.scalers[p].tally)
            && s'.scalers[p].tally.removals == s.scalers[p].tally.removals
  {
  }

  lemma LowerAct(env: Env, s: State, t: nat, x: ActStep, p: string)
    requires Inv(env, s) && Live(env, s, t) && ActEnabled(env, s, t, x) && OfFleet(env, s, p)
    ensures NoWorse(s, ActApply(env, s, t, x), p)
  {
    match x
    case Deregister => LowerDeregister(env, s, t, p);
    case RegisterNode(u) => LowerRegister(env, s, t, u, p);
    case _ =>
      ActMoves(env, s, t, x);
      ActKeepsDrain(env, s, t, x, p);
      OneMoveDrains(s.acts, ActApply(env, s, t, x).acts, t, p);
  }

  lemma ActKeepsDrain(env: Env, s: State, t: nat, x: ActStep, p: string)
    requires Live(env, s, t) && ActEnabled(env, s, t, x) && !x.Deregister? && !x.RegisterNode? && p in s.scalers
    requires RoleFits(s.acts[t])
    ensures var s' := ActApply(env, s, t, x);
            && ((t in s'.acts && IsDrain(s'.acts[t], p)) <==> IsDrain(s.acts[t], p))
            && ManagedIds(s'.agents, p) == ManagedIds(s.agents, p)
            && p in s'.scalers && s'.scalers[p].tally == s.scalers[p].tally
  {
    match x
    case Mark => SameFleetManages(s.agents, AfterMark(s, t).agents);
    case _ =>
  }

  lemma LowerOp(env: Env, s: State, x: OpStep, p: string)
    requires OpEnabled(env, s, x) && p in s.scalers && p != ""
    ensures NoWorse(s, OpApply(env, s, x), p)
  {
    var s' := OpApply(env, s, x);
    match x
    case InitStart(q, u) => LowerStart(s, u, s'.acts[u], p);
    case KillStart(q, u, id) => LowerStart(s, u, s'.acts[u], p);
    case Manual(id, address) => LowerManual(s, s'.agents[id], p);
    case Flush => RemovedTally(s, map[], p);
    case Report(id, ns) => UpdatesKeepFleet(s.agents, id, 0, 0, ns); LowerUpdate(s, s'.agents, p);
    case Heartbeat(id, n) => UpdatesKeepFleet(s.agents, id, n, s.clock, NO_STATUS); LowerUpdate(s, s'.agents, p);
  }

  lemma LowerStart(s: State, u: nat, a: Activity, p: string)
    requires u !in s.acts && !IsDrain(a, p) && p in s.scalers
    ensures NoWorse(s, s.(acts := s.acts[u := a]), p)
  {
    NewDrain(s.acts, u, a, p);
  }

  lemma LowerManual(s: State, a: Agent, p: string)
    requires p in s.scalers && p != "" && a.provider == ""
    ensures NoWorse(s, Removed(s, s.agents[a.id := a]), p)
  {
    RegisteredIds(s.agents, a, p);
    RemovedTally(s, s.agents[a.id := a], p);
  }

  lemma LowerUpdate(s: State, m: Store, p: string)
    requires p in s.scalers && SameFleet(s.agents, m)
    ensures NoWorse(s, s.(agents := m), p)
  {
    SameFleetManages(s.agents, m);
  }

  lemma LowerStep(env: Env, s: State, l: Label, p: string, floor: int)
    requires Inv(env, s) && Enabled(env, s, l) && OfFleet(env, s, p)
    requires floor <= env.fleet[p].minNodes < env.fleet[p].maxNodes && Lower(s, p, floor)
    ensures Lower(Apply(env, s, l), p, floor)
  {
    match l
    case Tick(_) =>
    case Poll(q, x) => LowerPoll(env, s, q, x, p, floor);
    case Act(t, x) => LowerAct(env, s, t, x, p);
    case Operator(x) => LowerOp(env, s, x, p);
  }

  lemma LowerStepAt(env: Env, states: seq<State>, labels: seq<Label>, i: nat, p: string, floor: int)
    requires Run(env, states, labels) && i < |labels| && p in env.fleet
    requires floor <= env.fleet[p].minNodes < env.fleet[p].maxNodes && Lower(states[i], p, floor)
    ensures Lower(states[i+1], p, floor)
  {
    RunStep(env, states, labels, i);
    LowerStep(env, states[i], labels[i], p, floor);
  }

  lemma {:induction false} LowerRun(env: Env, states: seq<State>, labels: seq<Label>, i: nat, p: string, floor: int)
    requires Run(env, states, labels) && i < |states| && p in env.fleet
    requires floor <= env.fleet[p].minNodes < env.fleet[p].maxNodes && Lower(states[0], p, floor)
    ensures Lower(states[i], p, floor)
  {
    if i > 0 {
      LowerRun(env, states, labels, i - 1, p, floor);
      LowerStepAt(env, states, labels, i - 1, p, floor);
    }
  }

  function Min(a: int, b: int): int { if a < b then a else b }

  lemma LowerInitial(env: Env, s: State, p: string, floor: int)
    requires Initial(env, s) && p in env.fleet && floor <= |ManagedIds(s.agents, p)|
    ensures Lower(s, p, floor)
  {
    assert Drains(s.acts, p) == {};
    assert s.scalers[p] == FRESH_SCALER;
  }

  /** Even with every drain in flight carried out, the fleet stays at its minimum (or
      its starting size) but for drains decided while another was in flight, failed
      bootstraps, and agents an operator took away. */
  lemma LowerFleetBound(env: Env, states: seq<State>, labels: seq<Label>, i: nat, p: string)
    requires Run(env, states, labels) && i < |states| && p in env.fleet
    requires env.fleet[p].minNodes < env.fleet[p].maxNodes
    ensures p in states[i].scalers
    ensures var s, tally := states[i], states[i].scalers[p].tally;
            |ManagedIds(s.agents, p)| - |Drains(s.acts, p)|
            >= Min(env.fleet[p].minNodes, |ManagedIds(states[0].agents, p)|)
               - tally.crossed - tally.bootFailures - tally.removals
  {
    var floor := Min(env.fleet[p].minNodes, |ManagedIds(states[0].agents, p)|);
    LowerInitial(env, states[0], p, floor);
    LowerRun(env, states, labels, i, p, floor);
  }
}
