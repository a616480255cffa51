/** The fleet as a concurrent step system: any number of per-provider autoscalers,
    their drain, upgrade, spawn and bootstrap goroutines, fleet initialisation and
    termination, health promotion, manual registration and flush, all over one agent
    store.  A step is a section of the source between two accesses to shared state;
    replies of the cloud and of agents are arbitrary.  The labels say which section
    runs; Enabled says when it may, Apply what it leaves behind. */
module FleetModel {
  import opened Models
  import opened AgentRegistry
  import opened NodeTypes
  import opened Scaling

  datatype Instance = Instance(provider: string, providerID: string)

  datatype Node = Node(id: string, providerID: string, instanceType: string, address: string)

  const NO_NODE := Node("", "", "", "")

  /** What a goroutine is for. */
  datatype Role =
    | ScaleDown   // drain and terminate
    | Upgrade     // drain and terminate, then spawn the largest type
    | Direct      // the poll loop's own call of spawnNode
    | Boot        // bootstrap of a node that spawnNode registered
    | Init        // one spawn of InitializeNodes
    | Kill        // one node of TerminateNodes

  /** What a goroutine is about to do. */
  datatype Phase =
    | Marking        // SetDraining
    | Waiting        // poll the node until idle or timed out
    | Deregistering
    | Terminating
    | Launching      // SpawnNode
    | Registering    // RegisterOfflineAgent
    | Bootstrapping
    | Resetting      // empty the pressure histories

  datatype Activity = Activity(role: Role, phase: Phase, p: string, node: Node, decided: int, since: int)

  /** Where the poll loop stands. */
  datatype Pc =
    | Resting
    | Sampling(now: int, todo: seq<Agent>, sampled: set<string>)
    | Recording(now: int, agent: Agent, ns: NodeStatus, todo: seq<Agent>, sampled: set<string>)
    | CheckingUp | DecidingUp
    | CheckingDown | DecidingDown
    | Blocked(t: nat)
    | Emptying

  /** History variables: they record what happened and no step depends on them. */
  datatype Tally = Tally(
    ups: seq<int>,       // times of scale-up decisions
    downs: seq<int>,     // times of scale-down decisions
    overlaps: nat,       // direct spawns over an open upgrade, upgrades of a node already being upgraded
    placed: nat,         // nodes registered by InitializeNodes
    crossed: nat,        // drains decided while another was in flight
    bootFailures: nat,   // nodes deregistered because their bootstrap failed
    removals: int,       // managed agents taken away by an operator
    upgraded: nat,       // registered nodes deregistered by their upgrade
    smallest: nat)       // smallest-type nodes registered

  datatype Scaler = Scaler(
    pc: Pc,
    lastUp: Option<int>, lastDown: Option<int>,
    history: History,
    lastPoll: Option<int>,     // start of the latest poll
    quietFrom: Option<int>,    // when the poll loop last emptied the histories
    tally: Tally)

  datatype State = State(
    clock: int,
    agents: Store,
    acts: map<nat, Activity>,
    scalers: map<string, Scaler>,
    seen: set<string>,               // agent ids ever used
    origin: map<string, Instance>,   // the instance behind each provisioned id
    launched: set<Instance>,
    called: set<Instance>,           // TerminateNode has been called
    terminated: set<Instance>)       // TerminateNode has succeeded

  /** The configured providers, and the least time between two poll starts of one
      autoscaler (0 asks nothing). */
  datatype Env = Env(fleet: map<string, Config>, gap: nat)

  /** Steps of a poll loop. */
  datatype PollStep =
    | PollStart(l: seq<Agent>)
    | ProbeSkip
    | ProbeError
    | ProbeReply(ns: NodeStatus)
    | Record
    | Evaluate(l: seq<Agent>)
    | CheckUp
    | DecideUp(l: seq<Agent>, action: Action, u: nat)
    | CheckDown
    | DecideDown(l: seq<Agent>, action: Action, u: nat)
    | Empty

  /** Steps of a goroutine. */
  datatype ActStep =
    | Mark
    | ObserveIdle(ns: NodeStatus)
    | DrainTimeout
    | Deregister
    | Terminate(ok: bool)
    | LaunchOk(node: Node)
    | LaunchFail
    | LaunchLost(providerID: string)
    | RegisterNode(u: nat)
    | Reset
    | BootOk
    | BootFail

  /** Steps of operators and of the health poller. */
  datatype OpStep =
    | InitStart(p: string, u: nat)
    | KillStart(p: string, u: nat, id: string)
    | Manual(id: string, address: string)
    | Report(id: string, ns: NodeStatus)
    | Heartbeat(id: string, n: int)
    | Flush

  datatype Label =
    | Tick(d: nat)
    | Poll(p: string, poll: PollStep)
    | Act(t: nat, act: ActStep)
    | Operator(op: OpStep)

  /** A drain asks its node every five seconds, for at most five minutes. */
  const DRAIN_TICK := 5
  const DRAIN_TIMEOUT := 300

  // ------------------------------------------------------------------ counting

  /** Upgrades and direct spawns that have not yet registered, or given up, their node. */
  ghost predicate IsSlot(a: Activity, p: string) {
    a.p == p && (a.role == Upgrade || a.role == Direct) && a.phase != Resetting
  }

  ghost predicate BeforeDeregister(a: Activity) {
    a.phase == Marking || a.phase == Waiting || a.phase == Deregistering
  }

  ghost predicate IsClaim(a: Activity, p: string) { a.p == p && a.role == Upgrade && BeforeDeregister(a) }

  ghost predicate IsDrain(a: Activity, p: string) {
    a.p == p && (a.role == Upgrade || a.role == ScaleDown) && BeforeDeregister(a)
  }

  ghost function Slots(acts: map<nat, Activity>, p: string): set<nat> {
    set t | t in acts && IsSlot(acts[t], p)
  }

  ghost function Drains(acts: map<nat, Activity>, p: string): set<nat> {
    set t | t in acts && IsDrain(acts[t], p)
  }

  /** Upgrades whose node is still registered. */
  ghost function Owned(acts: map<nat, Activity>, managed: set<string>, p: string): set<nat> {
    set t | t in acts && IsClaim(acts[t], p) && acts[t].node.id in managed
  }

  /** The registered nodes some upgrade is about to replace. */
  ghost function Targets(acts: map<nat, Activity>, managed: set<string>, p: string): set<string> {
    set t | t in Owned(acts, managed, p) :: acts[t].node.id
  }

  /** Upgrades whose node is gone and whose replacement is not registered yet. */
  ghost function OpenUpgrades(acts: map<nat, Activity>, managed: set<string>, p: string): set<nat> {
    set t | t in acts && IsSlot(acts[t], p) && acts[t].role == Upgrade && t !in Owned(acts, managed, p)
  }

  ghost function DirectSpawns(acts: map<nat, Activity>, p: string): set<nat> {
    set t | t in acts && IsSlot(acts[t], p) && acts[t].role == Direct
  }

  // ------------------------------------------------------------------- enabling

  ghost predicate OfFleet(env: Env, s: State, p: string) { p in env.fleet && p in s.scalers }

  /** What SpawnNode is asked for: an upgrade asks for the largest resources, the
      other spawns for the smallest. */
  ghost predicate Asked(nodeTypes: seq<NodeType>, role: Role, instanceType: string) {
    exists r :: (if role == Upgrade then IsLargest(nodeTypes, r) else IsSmallest(nodeTypes, r))
                && IsSelection(nodeTypes, r, Selected(instanceType))
  }

  ghost predicate PollEnabled(env: Env, s: State, p: string, x: PollStep)
    requires OfFleet(env, s, p)
  {
    var sc := s.scalers[p];
    match x
    case PollStart(l) =>
      && sc.pc == Resting && Listing(s.agents, l)
      && (sc.lastPoll.Some? ==> sc.lastPoll.value + env.gap <= s.clock)
    case ProbeSkip => Probing(sc.pc) && sc.pc.todo[0].status == Draining
    case ProbeError => Probing(sc.pc) && sc.pc.todo[0].status != Draining
    case ProbeReply(ns) => Probing(sc.pc) && sc.pc.todo[0].status != Draining
    case Record => sc.pc.Recording?
    case Evaluate(l) => sc.pc.Sampling? && sc.pc.todo == [] && Listing(s.agents, l)
    case CheckUp => sc.pc == CheckingUp
    case CheckDown => sc.pc == CheckingDown
    case DecideUp(l, action, u) =>
      sc.pc == DecidingUp && Listing(s.agents, l) && u !in s.acts && UpChoice(env.fleet[p], ManagedOf(l, p), action)
    case DecideDown(l, action, u) =>
      sc.pc == DecidingDown && Listing(s.agents, l) && u !in s.acts && DownChoice(env.fleet[p], ManagedOf(l, p), action)
    case Empty => sc.pc == Emptying
  }

  predicate Probing(pc: Pc) { pc.Sampling? && pc.todo != [] }

  /** The goroutine exists and belongs to a configured provider. */
  ghost predicate Live(env: Env, s: State, t: nat) {
    t in s.acts && OfFleet(env, s, s.acts[t].p)
  }

  ghost predicate ActEnabled(env: Env, s: State, t: nat, x: ActStep)
    requires Live(env, s, t)
  {
    var a := s.acts[t];
    match x
    case Mark => a.phase == Marking
    case ObserveIdle(ns) => a.phase == Waiting && a.since + DRAIN_TICK <= s.clock && ns.activeTasks == 0
    case DrainTimeout => a.phase == Waiting && a.since + DRAIN_TIMEOUT <= s.clock
    case Deregister => a.phase == Deregistering
    case Terminate(ok) => a.phase == Terminating
    case LaunchOk(node) =>
      && a.phase == Launching
      && node.id != "" && node.id !in s.seen && Instance(a.p, node.providerID) !in s.launched
      && Asked(env.fleet[a.p].nodeTypes, a.role, node.instanceType)
    case LaunchFail => a.phase == Launching
    case LaunchLost(providerID) => a.phase == Launching && Instance(a.p, providerID) !in s.launched
    case RegisterNode(u) => a.phase == Registering && u !in s.acts
    case Reset => a.phase == Resetting
    case BootOk => a.phase == Bootstrapping
    case BootFail => a.phase == Bootstrapping
  }

  ghost predicate OpEnabled(env: Env, s: State, x: OpStep) {
    match x
    case InitStart(p, u) => OfFleet(env, s, p) && u !in s.acts
    case KillStart(p, u, id) => OfFleet(env, s, p) && u !in s.acts && id in s.agents && s.agents[id].provider == p
    case Manual(id, address) => id != ""
    case Report(id, ns) => true
    case Heartbeat(id, n) => true
    case Flush => true
  }

  ghost predicate Enabled(env: Env, s: State, l: Label) {
    match l
    case Tick(d) => true
    case Poll(p, x) => OfFleet(env, s, p) && PollEnabled(env, s, p, x)
    case Act(t, x) => Live(env, s, t) && ActEnabled(env, s, t, x)
    case Operator(x) => OpEnabled(env, s, x)
  }

  // -------------------------------------------------------------------- effects

  ghost function WithScaler(s: State, p: string, sc: Scaler): State { s.(scalers := s.scalers[p := sc]) }

  ghost function WithPc(s: State, p: string, pc: Pc): State
    requires p in s.scalers
  {
    WithScaler(s, p, s.scalers[p].(pc := pc))
  }

  ghost function WithTally(s: State, p: string, tally: Tally): State
    requires p in s.scalers
  {
    WithScaler(s, p, s.scalers[p].(tally := tally))
  }

  ghost function WithPhase(s: State, t: nat, phase: Phase): State
    requires t in s.acts
  {
    s.(acts := s.acts[t := s.acts[t].(phase := phase)])
  }

  ghost function Ended(s: State, t: nat): State { s.(acts := s.acts - {t}) }

  /** A store change by an operator, charged to the provider whose agents it took. */
  ghost function Removed(s: State, agents: Store): State {
    s.(agents := agents,
       scalers := map q | q in s.scalers ::
         var sc := s.scalers[q];
         var gone := |ManagedIds(s.agents, q)| - |ManagedIds(agents, q)|;
         sc.(tally := sc.tally.(removals := sc.tally.removals + gone)))
  }

  function NodeOf(a: Agent): Node { Node(a.id, a.providerID, a.instanceType, a.address) }

  function Next(pc: Pc): Pc
    requires pc.Sampling? && pc.todo != []
  {
    Sampling(pc.now, pc.todo[1..], pc.sampled)
  }

  ghost function AfterDecideUp(env: Env, s: State, p: string, action: Action, t: nat): State
    requires OfFleet(env, s, p)
  {
    var sc := s.scalers[p];
    var managed := ManagedIds(s.agents, p);
    match action
    case SpawnSmallest =>
      var over := OpenUpgrades(s.acts, managed, p) != {};
      s.(acts := s.acts[t := Activity(Direct, Launching, p, NO_NODE, s.clock, s.clock)],
         scalers := s.scalers[p := sc.(pc := Blocked(t), lastUp := Some(s.clock),
           tally := sc.tally.(ups := sc.tally.ups + [s.clock],
                              overlaps := sc.tally.overlaps + if over then 1 else 0))])
    case UpgradeNode(a) =>
      var over := a.id in Targets(s.acts, managed, p);
      var crosses := Drains(s.acts, p) != {};
      s.(acts := s.acts[t := Activity(Upgrade, Marking, p, NodeOf(a), s.clock, s.clock)],
         scalers := s.scalers[p := sc.(pc := Blocked(t), lastUp := Some(s.clock),
           tally := sc.tally.(ups := sc.tally.ups + [s.clock],
                              overlaps := sc.tally.overlaps + (if over then 1 else 0),
                              crossed := sc.tally.crossed + if crosses then 1 else 0))])
    case _ => WithPc(s, p, Resting)
  }

  ghost function AfterDecideDown(env: Env, s: State, p: string, action: Action, t: nat): State
    requires OfFleet(env, s, p)
  {
    var sc := s.scalers[p];
    match action
    case RemoveNode(a) =>
      var crosses := Drains(s.acts, p) != {};
      s.(acts := s.acts[t := Activity(ScaleDown, Marking, p, NodeOf(a), s.clock, s.clock)],
         scalers := s.scalers[p := sc.(pc := Blocked(t), lastDown := Some(s.clock),
           tally := sc.tally.(downs := sc.tally.downs + [s.clock],
                              crossed := sc.tally.crossed + if crosses then 1 else 0))])
    case _ => WithPc(s, p, Resting)
  }

  /** A spawn call gives up; the poll loop goes on if it was waiting for it. */
  ghost function SpawnOver(s: State, t: nat): State
    requires t in s.acts && s.acts[t].p in s.scalers
  {
    var e := Ended(s, t);
    if s.acts[t].role == Direct then WithPc(e, s.acts[t].p, Resting) else e
  }

  ghost function AfterDeregister(s: State, t: nat): State
    requires t in s.acts && s.acts[t].p in s.scalers
  {
    var a := s.acts[t];
    var agents := s.agents - {a.node.id};
    var tally := s.scalers[a.p].tally;
    var e := WithPhase(s, t, Terminating);
    match a.role
    case Kill => Removed(e, agents)
    case Boot => WithTally(e, a.p, tally.(bootFailures := tally.bootFailures + 1)).(agents := agents)
    case Upgrade =>
      var effective := a.node.id in ManagedIds(s.agents, a.p);
      WithTally(e, a.p, tally.(upgraded := tally.upgraded + if effective then 1 else 0)).(agents := agents)
    case _ => e.(agents := agents)
  }

  ghost function AfterTerminate(s: State, t: nat, ok: bool): State
    requires t in s.acts
  {
    var a := s.acts[t];
    var i := Instance(a.p, a.node.providerID);
    var e := s.(called := s.called + {i}, terminated := s.terminated + if ok then {i} else {});
    if a.role == Upgrade
    then e.(acts := s.acts[t := a.(phase := Launching, node := NO_NODE)])
    else Ended(e, t)
  }

  ghost function AfterRegister(s: State, t: nat, u: nat): State
    requires t in s.acts && s.acts[t].p in s.scalers
  {
    var a := s.acts[t];
    var n := a.node;
    var tally := s.scalers[a.p].tally;
    var e := s.(agents := WithAgent(s.agents, Offline, n.id, n.address, n.providerID, n.instanceType, a.p, s.clock));
    if a.role == Init then
      WithTally(Ended(e, t), a.p, tally.(placed := tally.placed + 1, smallest := tally.smallest + 1))
    else
      var f := e.(acts := s.acts[t := a.(phase := Resetting)]
                           [u := Activity(Boot, Bootstrapping, a.p, n, s.clock, s.clock)]);
      if a.role == Direct then WithTally(f, a.p, tally.(smallest := tally.smallest + 1)) else f
  }

  ghost function AfterReset(s: State, t: nat): State
    requires t in s.acts && s.acts[t].p in s.scalers
  {
    var a := s.acts[t];
    var sc := s.scalers[a.p].(history := map[]);
    WithScaler(Ended(s, t), a.p,
               if a.role == Direct then sc.(pc := Resting, quietFrom := Some(s.clock)) else sc)
  }

  ghost function AfterMark(s: State, t: nat): State
    requires t in s.acts && s.acts[t].p in s.scalers
  {
    var a := s.acts[t];
    WithPc(s, a.p, if a.role == ScaleDown then Emptying else Resting)
      .(agents := WithDraining(s.agents, a.node.id), acts := s.acts[t := a.(phase := Waiting, since := s.clock)])
  }

  ghost function AfterLaunch(s: State, t: nat, node: Node): State
    requires t in s.acts
  {
    var a := s.acts[t];
    var i := Instance(a.p, node.providerID);
    s.(acts := s.acts[t := a.(phase := if a.role == Init then Bootstrapping else Registering, node := node)],
       seen := s.seen + {node.id}, origin := s.origin[node.id := i], launched := s.launched + {i})
  }

  ghost function AfterBoot(s: State, t: nat, ok: bool): State
    requires t in s.acts
  {
    if s.acts[t].role == Init then WithPhase(s, t, if ok then Registering else Terminating)
    else if ok then Ended(s, t) else WithPhase(s, t, Deregistering)
  }

  ghost function PollApply(env: Env, s: State, p: string, x: PollStep): State
    requires OfFleet(env, s, p) && PollEnabled(env, s, p, x)
  {
    var sc := s.scalers[p];
    var pc := sc.pc;
    match x
    case PollStart(l) => WithScaler(s, p, sc.(pc := Sampling(s.clock, l, {}), lastPoll := Some(s.clock)))
    case ProbeSkip => WithPc(s, p, Next(pc))
    case ProbeError => WithPc(s, p, Next(pc)).(agents := WithOffline(s.agents, pc.todo[0].id))
    case ProbeReply(ns) =>
      var a := pc.todo[0];
      WithPc(s, p, if a.provider == p then Recording(pc.now, a, ns, pc.todo[1..], pc.sampled) else Next(pc))
        .(agents := WithNodeStatus(s.agents, a.id, ns))
    case Record =>
      WithScaler(s, p, sc.(
        pc := Sampling(pc.now, pc.todo, pc.sampled + {pc.agent.id}),
        history := Recorded(sc.history, pc.agent.id, SampleOf(pc.ns, pc.now), env.fleet[p].window)))
    case Evaluate(l) =>
      var dir := Verdict(env.fleet[p], sc.history, ManagedOf(OnlineOf(l), p), s.clock);
      WithPc(s, p, if dir == Up then CheckingUp else if dir == Down then CheckingDown else Resting)
    case CheckUp =>
      WithPc(s, p, if Cooled(sc.lastUp, s.clock, env.fleet[p].cooldown) then DecidingUp else Resting)
    case CheckDown =>
      WithPc(s, p, if Cooled(sc.lastDown, s.clock, env.fleet[p].cooldown) then DecidingDown else Resting)
    case DecideUp(l, action, u) => AfterDecideUp(env, s, p, action, u)
    case DecideDown(l, action, u) => AfterDecideDown(env, s, p, action, u)
    case Empty => WithScaler(s, p, sc.(pc := Resting, history := map[], quietFrom := Some(s.clock)))
  }

  ghost function ActApply(env: Env, s: State, t: nat, x: ActStep): State
    requires Live(env, s, t) && ActEnabled(env, s, t, x)
  {
    match x
    case Mark => AfterMark(s, t)
    case ObserveIdle(ns) => WithPhase(s, t, Deregistering)
    case DrainTimeout => WithPhase(s, t, Deregistering)
    case Deregister => AfterDeregister(s, t)
    case Terminate(ok) => AfterTerminate(s, t, ok)
    case LaunchOk(node) => AfterLaunch(s, t, node)
    case LaunchFail => SpawnOver(s, t)
    case LaunchLost(providerID) =>
      SpawnOver(s, t).(launched := s.launched + {Instance(s.acts[t].p, providerID)})
    case RegisterNode(u) => AfterRegister(s, t, u)
    case Reset => AfterReset(s, t)
    case BootOk => AfterBoot(s, t, true)
    case BootFail => AfterBoot(s, t, false)
  }

  ghost function OpApply(env: Env, s: State, x: OpStep): State
    requires OpEnabled(env, s, x)
  {
    match x
    case InitStart(p, u) =>
      s.(acts := s.acts[u := Activity(Init, Launching, p, NO_NODE, s.clock, s.clock)])
    case KillStart(p, u, id) =>
      s.(acts := s.acts[u := Activity(Kill, Deregistering, p, NodeOf(s.agents[id]), s.clock, s.clock)])
    case Manual(id, address) =>
      Removed(s, WithAgent(s.agents, Online, id, address, "", "", "", s.clock)).(seen := s.seen + {id})
    case Report(id, ns) => s.(agents := WithNodeStatus(s.agents, id, ns))
    case Heartbeat(id, n) => s.(agents := WithHeartbeat(s.agents, id, n, s.clock))
    case Flush => Removed(s, map[])
  }

  ghost function Apply(env: Env, s: State, l: Label): State
    requires Enabled(env, s, l)
  {
    match l
    case Tick(d) => s.(clock := s.clock + d)
    case Poll(p, x) => PollApply(env, s, p, x)
    case Act(t, x) => ActApply(env, s, t, x)
    case Operator(x) => OpApply(env, s, x)
  }

  // ----------------------------------------------------------------------- runs

  const FRESH_SCALER :=
    Scaler(Resting, None, None, map[], None, None, Tally([], [], 0, 0, 0, 0, 0, 0, 0))

  /** A start over whatever agents the store still holds: no goroutines, no
      histories, and each managed record names its own instance. */
  ghost predicate Initial(env: Env, s: State) {
    && "" !in env.fleet
    && s.acts == map[] && s.called == {} && s.terminated == {}
    && s.scalers == (map p | p in env.fleet :: FRESH_SCALER)
    && Keyed(s.agents) && s.seen == s.agents.Keys
    && (forall id :: id in s.agents && s.agents[id].provider == "" ==> s.agents[id].providerID == "")
    && s.origin == (map id | id in s.agents && s.agents[id].provider != "" ::
                      Instance(s.agents[id].provider, s.agents[id].providerID))
    && (forall i, j :: i in s.origin && j in s.origin && s.origin[i] == s.origin[j] ==> i == j)
    && s.launched == s.origin.Values
  }

  ghost predicate Step(env: Env, s: State, l: Label, s': State) {
    Enabled(env, s, l) && s' == Apply(env, s, l)
  }

  ghost predicate Run(env: Env, states: seq<State>, labels: seq<Label>) {
    && |states| == |labels| + 1 && Initial(env, states[0])
    && forall i :: 0 <= i < |labels| ==> Step(env, states[i], labels[i], states[i+1])
  }
}
