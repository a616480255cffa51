/** The fleet bounds over whole runs, with what they allow for counted from the
    steps of the run itself. */
module FleetCounts {
  import opened Models
  import opened AgentRegistry
  import opened Scaling
  import opened FleetModel
  import opened FleetIdentity
  import opened FleetBounds
  import opened FleetFloor
  import opened FleetUpgrades

  datatype Event =
    | Overlap              // a direct spawn over an open upgrade, or an upgrade of a node already being upgraded
    | Placement            // InitializeNodes registers a node
    | CrossedDrain         // a drain is decided while another is in flight
    | BootFailure          // a node is deregistered because its bootstrap failed
    | EffectiveUpgrade     // an upgrade deregisters its node while it is registered
    | SmallestRegistered   // a node launched as the smallest type is registered

  ghost predicate Happens(s: State, l: Label, p: string, e: Event) {
    match l
    case Poll(q, DecideUp(_, action, _)) =>
      && q == p
      && match e {
           case Overlap =>
             || (action.SpawnSmallest? && OpenUpgrades(s.acts, ManagedIds(s.agents, p), p) != {})
             || (action.UpgradeNode? && action.target.id in Targets(s.acts, ManagedIds(s.agents, p), p))
           case CrossedDrain => action.UpgradeNode? && Drains(s.acts, p) != {}
           case _ => false
         }
    case Poll(q, DecideDown(_, action, _)) =>
      q == p && e == CrossedDrain && action.RemoveNode? && Drains(s.acts, p) != {}
    case Act(t, Deregister) =>
      && t in s.acts && s.acts[t].p == p
      && match e {
           case BootFailure => s.acts[t].role == Boot
           case EffectiveUpgrade => s.acts[t].role == Upgrade && s.acts[t].node.id in ManagedIds(s.agents, p)
           case _ => false
         }
    case Act(t, RegisterNode(_)) =>
      && t in s.acts && s.acts[t].p == p
      && match e {
           case Placement => s.acts[t].role == Init
           case SmallestRegistered => s.acts[t].role == Init || s.acts[t].role == Direct
           case _ => false
         }
    case _ => false
  }

  /** An operator's step: TerminateNodes, manual registration, flush. */
  ghost predicate ByOperator(s: State, l: Label) {
    match l
    case Act(t, Deregister) => t in s.acts && s.acts[t].role == Kill
    case Operator(Manual(_, _)) => true
    case Operator(Flush) => true
    case _ => false
  }

  /** How often e happens among the first n steps. */
  ghost function Count(states: seq<State>, labels: seq<Label>, n: nat, p: string, e: Event): nat
    requires n <= |labels| < |states|
  {
    if n == 0 then 0 else
    Count(states, labels, n - 1, p, e) + if Happens(states[n-1], labels[n-1], p, e) then 1 else 0
  }

  /** How many of p's agents operators took away in the first n steps. */
  ghost function TakenAway(states: seq<State>, labels: seq<Label>, n: nat, p: string): int
    requires n <= |labels| < |states|
  {
    if n == 0 then 0 else
    TakenAway(states, labels, n - 1, p) +
      if ByOperator(states[n-1], labels[n-1])
      then |ManagedIds(states[n-1].agents, p)| - |ManagedIds(states[n].agents, p)| else 0
  }

  ghost function Bit(b: bool): nat { if b then 1 else 0 }

  /** The tally moves by exactly what happens. */
  ghost predicate Tallies(s: State, l: Label, s': State, p: string)
    requires p in s.scalers
  {
    p in s'.scalers && CountsMove(s, l, s', p) && RemovalsMove(s, l, s', p)
  }

  ghost predicate CountsMove(s: State, l: Label, s': State, p: string)
    requires p in s.scalers && p in s'.scalers
  {
    var a, b := s.scalers[p].tally, s'.scalers[p].tally;
    && b.overlaps == a.overlaps + Bit(Happens(s, l, p, Overlap))
    && b.placed == a.placed + Bit(Happens(s, l, p, Placement))
    && b.crossed == a.crossed + Bit(Happens(s, l, p, CrossedDrain))
    && b.bootFailures == a.bootFailures + Bit(Happens(s, l, p, BootFailure))
    && b.upgraded == a.upgraded + Bit(Happens(s, l, p, EffectiveUpgrade))
    && b.smallest == a.smallest + Bit(Happens(s, l, p, SmallestRegistered))
  }

  ghost predicate RemovalsMove(s: State, l: Label, s': State, p: string)
    requires p in s.scalers && p in s'.scalers
  {
    s'.scalers[p].tally.removals == s.scalers[p].tally.removals +
      if ByOperator(s, l) then |ManagedIds(s.agents, p)| - |ManagedIds(s'.agents, p)| else 0
  }

  lemma TallyPoll(env: Env, s: State, q: string, x: PollStep, p: string)
    requires OfFleet(env, s, q) && PollEnabled(env, s, q, x) && p in s.scalers
    ensures Tallies(s, Poll(q, x), PollApply(env, s, q, x), p)
  {
    match x
    case DecideUp(l, action, u) => TallyDecideUp(env, s, q, l, action, u, p);
    case DecideDown(l, action, u) => TallyDecideDown(env, s, q, l, action, u, p);
    case _ => CalmPollTally(env, s, q, x, p);
  }

  lemma TallyDecideUp(env: Env, s: State, q: string, l: seq<Agent>, action: Action, u: nat, p: string)
    requires OfFleet(env, s, q) && p in s.scalers
    ensures Tallies(s, Poll(q, DecideUp(l, action, u)), AfterDecideUp(env, s, q, action, u), p)
  {
  }

  lemma TallyDecideDown(env: Env, s: State, q: string, l: seq<Agent>, action: Action, u: nat, p: string)
    requires OfFleet(env, s, q) && p in s.scalers
    ensures Tallies(s, Poll(q, DecideDown(l, action, u)), AfterDecideDown(env, s, q, action, u), p)
  {
  }

  lemma TallyDeregister(s: State, t: nat, p: string)
    requires t in s.acts && s.acts[t].p in s.scalers && p in s.scalers
    ensures Tallies(s, Act(t, Deregister), AfterDeregister(s, t), p)
  {
    DeregisterCounted(s, t, p);
    DeregisterRemoved(s, t, p);
  }

  lemma DeregisterCounted(s: State, t: nat, p: string)
    requires t in s.acts && s.acts[t].p in s.scalers && p in s.scalers
    ensures var s' := AfterDeregister(s, t); p in s'.scalers && CountsMove(s, Act(t, Deregister), s', p)
  {
    DeregisterTallies(s, t, p);
    DeregisterHappens(s, t, p);
  }

  lemma DeregisterHappens(s: State, t: nat, p: string)
    requires t in s.acts
    ensures var a, l := s.acts[t], Act(t, Deregister);
            && !Happens(s, l, p, Overlap) && !Happens(s, l, p, Placement) && !Happens(s, l, p, CrossedDrain)
            && !Happens(s, l, p, SmallestRegistered)
            && (Happens(s, l, p, BootFailure) <==> a.p == p && a.role == Boot)
            && (Happens(s, l, p, EffectiveUpgrade) <==>
                  a.p == p && a.role == Upgrade && a.node.id in ManagedIds(s.agents, p))
  {
  }

  /** The tally but for what operators remove. */
  lemma DeregisterTallies(s: State, t: nat, p: string)
    requires t in s.acts && s.acts[t].p in s.scalers && p in s.scalers
    ensures var a, s', tally := s.acts[t], AfterDeregister(s, t), s.scalers[p].tally;
            && p in s'.scalers
            && s'.scalers[p].tally == tally.(
                 removals := s'.scalers[p].tally.removals,
                 bootFailures := tally.bootFailures + Bit(a.p == p && a.role == Boot),
                 upgraded := tally.upgraded + Bit(a.p == p && a.role == Upgrade && a.node.id in ManagedIds(s.agents, p)))
  {
    match s.acts[t].role
    case Kill =>
    case Boot =>
    case Upgrade =>
    case _ =>
  }

  lemma DeregisterRemoved(s: State, t: nat, p: string)
    requires t in s.acts && s.acts[t].p in s.scalers && p in s.scalers
    ensures var s' := AfterDeregister(s, t); p in s'.scalers && RemovalsMove(s, Act(t, Deregister), s', p)
  {
    match s.acts[t].role
    case Kill =>
    case Boot =>
    case Upgrade =>
    case _ =>
  }

  lemma TallyRegister(s: State, t: nat, u: nat, p: string)
    requires t in s.acts && s.acts[t].p in s.scalers && p in s.scalers
    ensures Tallies(s, Act(t, RegisterNode(u)), AfterRegister(s, t, u), p)
  {
  }

  lemma TallyAct(env: Env, s: State, t: nat, x: ActStep, p: string)
    requires Live(env, s, t) && ActEnabled(env, s, t, x) && p in s.scalers
    ensures Tallies(s, Act(t, x), ActApply(env, s, t, x), p)
  {
    match x
    case Deregister => TallyDeregister(s, t, p);
    case RegisterNode(u) => TallyRegister(s, t, u, p);
    case _ => PlainActTally(env, s, t, x, p);
  }

  lemma PlainActTally(env: Env, s: State, t: nat, x: ActStep, p: string)
    requires Live(env, s, t) && ActEnabled(env, s, t, x) && p in s.scalers && !x.Deregister? && !x.RegisterNode?
    ensures var s' := ActApply(env, s, t, x); p in s'.scalers && s'.scalers[p].tally == s.scalers[p].tally
  {
  }

  lemma TallyOp(env: Env, s: State, x: OpStep, p: string)
    requires OpEnabled(env, s, x) && p in s.scalers
    ensures Tallies(s, Operator(x), OpApply(env, s, x), p)
  {
  }

  lemma TallyStep(env: Env, s: State, l: Label, p: string)
    requires Enabled(env, s, l) && p in s.scalers
    ensures Tallies(s, l, Apply(env, s, l), p)
  {
    match l
    case Tick(_) =>
    case Poll(q, x) => TallyPoll(env, s, q, x, p);
    case Act(t, x) => TallyAct(env, s, t, x, p);
    case Operator(x) => TallyOp(env, s, x, p);
  }

  lemma {:induction false} TallyRun(env: Env, states: seq<State>, labels: seq<Label>, n: nat, p: string)
    requires Run(env, states, labels) && n <= |labels| && p in env.fleet
    ensures p in states[n].scalers
    ensures var tally := states[n].scalers[p].tally;
            && tally.overlaps == Count(states, labels, n, p, Overlap)
            && tally.placed == Count(states, labels, n, p, Placement)
            && tally.crossed == Count(states, labels, n, p, CrossedDrain)
            && tally.bootFailures == Count(states, labels, n, p, BootFailure)
            && tally.upgraded == Count(states, labels, n, p, EffectiveUpgrade)
            && tally.smallest == Count(states, labels, n, p, SmallestRegistered)
            && tally.removals == TakenAway(states, labels, n, p)
  {
    if n == 0 {
      assert states[0].scalers[p] == FRESH_SCALER;
    } else {
      TallyRun(env, states, labels, n - 1, p);
      assert Step(env, states[n-1], labels[n-1], states[n]);
      TallyStep(env, states[n-1], labels[n-1], p);
    }
  }

  /** Upper bound.  At every point of every run, the registered agents, the
      replacements still to come and the direct spawn still to come exceed the limit
      (or the starting size) by at most the overlaps and placements so far. */
  lemma FleetStaysUnderLimit(env: Env, states: seq<State>, labels: seq<Label>, n: nat, p: string)
    requires Run(env, states, labels) && n <= |labels| && p in env.fleet
    ensures var s := states[n];
            var managed := ManagedIds(s.agents, p);
            |managed| + |OpenUpgrades(s.acts, managed, p)| + |DirectSpawns(s.acts, p)|
            <= Max(env.fleet[p].maxNodes, |ManagedIds(states[0].agents, p)|)
               + Count(states, labels, n, p, Overlap) + Count(states, labels, n, p, Placement)
  {
    UpperFleetBound(env, states, labels, n, p);
    TallyRun(env, states, labels, n, p);
  }

  /** Lower bound.  Even with every drain in flight carried out, the fleet falls below
      its minimum (or its starting size) by at most the drains decided while another
      was in flight, the failed bootstraps and the agents operators took away. */
  lemma FleetStaysOverMinimum(env: Env, states: seq<State>, labels: seq<Label>, n: nat, p: string)
    requires Run(env, states, labels) && n <= |labels| && p in env.fleet
    requires env.fleet[p].minNodes < env.fleet[p].maxNodes
    ensures |ManagedIds(states[n].agents, p)| - |Drains(states[n].acts, p)|
            >= Min(env.fleet[p].minNodes, |ManagedIds(states[0].agents, p)|)
               - Count(states, labels, n, p, CrossedDrain) - Count(states, labels, n, p, BootFailure)
               - TakenAway(states, labels, n, p)
  {
    LowerFleetBound(env, states, labels, n, p);
    TallyRun(env, states, labels, n, p);
  }

  /** Upgrades run out.  If the largest entries share a name, the effective upgrades so far
      and the lesser nodes left are at most the lesser nodes at the start plus the
      smallest-type nodes registered since. */
  lemma UpgradesRunOut(env: Env, states: seq<State>, labels: seq<Label>, n: nat, p: string, maxType: string)
    requires Run(env, states, labels) && n <= |labels| && p in env.fleet && WellSized(env.fleet[p].nodeTypes, maxType)
    ensures |Lesser(states[n].agents, p, maxType)| + Count(states, labels, n, p, EffectiveUpgrade)
            <= |Lesser(states[0].agents, p, maxType)| + Count(states, labels, n, p, SmallestRegistered)
  {
    UpgradesTerminate(env, states, labels, n, p, maxType);
    TallyRun(env, states, labels, n, p);
  }

  /** The measure, step by step: an effective upgrade lowers the number of lesser
      nodes, only the registration of a smallest-type node can raise it, and neither
      by more than one. */
  lemma UpgradeMeasure(env: Env, states: seq<State>, labels: seq<Label>, n: nat, p: string, maxType: string)
    requires Run(env, states, labels) && n < |labels| && p in env.fleet && WellSized(env.fleet[p].nodeTypes, maxType)
    ensures |Lesser(states[n+1].agents, p, maxType)|
            <= |Lesser(states[n].agents, p, maxType)|
               - Bit(Happens(states[n], labels[n], p, EffectiveUpgrade))
               + Bit(Happens(states[n], labels[n], p, SmallestRegistered))
  {
    assert states[0].scalers[p] == FRESH_SCALER;
    UpgradeRun(env, states, labels, n, p, maxType, |Lesser(states[0].agents, p, maxType)|);
    RunStep(env, states, labels, n);
    StepMeasure(env, states[n], labels[n], states[n+1], p, maxType);
  }

  lemma StepMeasure(env: Env, s: State, l: Label, s': State, p: string, maxType: string)
    requires Inv(env, s) && Step(env, s, l, s') && OfFleet(env, s, p)
    requires WellSized(env.fleet[p].nodeTypes, maxType) && UpgradesOk(s.acts, s.agents, p, maxType)
    ensures |Lesser(s'.agents, p, maxType)|
            <= |Lesser(s.agents, p, maxType)|
               - Bit(Happens(s, l, p, EffectiveUpgrade)) + Bit(Happens(s, l, p, SmallestRegistered))
  {
    UpgradeStep(env, s, l, p, maxType, Spent(s, p, maxType));
    TallyStep(env, s, l, p);
  }
}
