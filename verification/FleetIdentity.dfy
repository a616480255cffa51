/** What every reachable state of the fleet keeps: which agent record stands for
    which cloud instance, who holds an instance, and where each instance is. */
module FleetIdentity {
  import opened Models
  import opened AgentRegistry
  import opened Scaling
  import opened FleetModel

  ghost predicate IsManaged(m: Store, id: string) { id in m && m[id].provider != "" }

  /** The activity works on a node it knows. */
  ghost predicate HasNode(a: Activity) { a.phase != Launching && a.phase != Resetting }

  /** The activity launched its node and has not registered it yet. */
  ghost predicate Holding(a: Activity) {
    a.phase == Registering || (a.role == Init && a.phase == Bootstrapping)
  }

  ghost predicate RoleFits(a: Activity) {
    match a.phase
    case Marking => a.role == ScaleDown || a.role == Upgrade
    case Waiting => a.role == ScaleDown || a.role == Upgrade
    case Deregistering => a.role != Direct && a.role != Init
    case Terminating => a.role != Direct
    case Launching => a.role == Upgrade || a.role == Direct || a.role == Init
    case Registering => a.role == Upgrade || a.role == Direct || a.role == Init
    case Bootstrapping => a.role == Boot || a.role == Init
    case Resetting => a.role == Upgrade || a.role == Direct
  }

  function InstanceOf(a: Activity): Instance { Instance(a.p, a.node.providerID) }

  // ----------------------------------------------------------------- invariants

  ghost predicate StoreOk(m: Store, seen: set<string>, origin: map<string, Instance>) {
    && Keyed(m) && m.Keys <= seen
    && forall id :: id in m ==>
         if m[id].provider == "" then m[id].providerID == ""
         else id in origin && origin[id] == Instance(m[id].provider, m[id].providerID)
  }

  ghost predicate OriginOk(seen: set<string>, origin: map<string, Instance>, launched: set<Instance>) {
    && origin.Keys <= seen
    && (forall id :: id in origin ==> origin[id] in launched && origin[id].provider != "")
    && (forall i, j :: i in origin && j in origin && origin[i] == origin[j] ==> i == j)
  }

  ghost predicate ActOk(env: Env, a: Activity, m: Store, origin: map<string, Instance>, called: set<Instance>) {
    && RoleFits(a) && a.p in env.fleet && a.p != ""
    && (HasNode(a) ==> a.node.id in origin && origin[a.node.id] == InstanceOf(a))
    && (a.phase == Terminating ==> !IsManaged(m, a.node.id))
    && (Holding(a) ==> !IsManaged(m, a.node.id) && InstanceOf(a) !in called)
  }

  ghost predicate ActsOk(env: Env, acts: map<nat, Activity>, m: Store, origin: map<string, Instance>, called: set<Instance>) {
    forall t :: t in acts ==> ActOk(env, acts[t], m, origin, called)
  }

  /** Nobody else works on a node before it is registered. */
  ghost predicate HoldersOk(acts: map<nat, Activity>) {
    forall t, u :: t in acts && u in acts && t != u && Holding(acts[t]) && HasNode(acts[u]) ==>
      acts[t].node.id != acts[u].node.id
  }

  /** Deregister before terminate: no managed record names an instance that
      TerminateNode has been called on. */
  ghost predicate CalledOk(m: Store, origin: map<string, Instance>, called: set<Instance>) {
    && (forall id :: id in origin && origin[id] in called ==> !IsManaged(m, id))
    && forall i :: i in called ==> i.provider != ""
  }

  /** The poll loop waits for its own spawns and for its own marking of a drain. */
  ghost predicate BlockedOk(acts: map<nat, Activity>, scalers: map<string, Scaler>) {
    forall t :: t in acts && (acts[t].role == Direct || acts[t].phase == Marking) ==>
      acts[t].p in scalers && scalers[acts[t].p].pc == Blocked(t)
  }

  ghost predicate Inv(env: Env, s: State) {
    && "" !in env.fleet
    && StoreOk(s.agents, s.seen, s.origin)
    && OriginOk(s.seen, s.origin, s.launched)
    && ActsOk(env, s.acts, s.agents, s.origin, s.called)
    && HoldersOk(s.acts)
    && CalledOk(s.agents, s.origin, s.called)
    && s.terminated <= s.called <= s.launched
    && BlockedOk(s.acts, s.scalers)
  }

  lemma InitialInv(env: Env, s: State)
    requires Initial(env, s)
    ensures Inv(env, s)
  {
  }

  // -------------------------------------------------------------- preservation

  /** Steps of the poll loop, the clock and status updates: nobody's instance moves. */
  ghost predicate Calm(s: State, s': State) {
    && s'.acts == s.acts && s'.seen == s.seen && s'.origin == s.origin && s'.launched == s.launched
    && s'.called == s.called && s'.terminated == s.terminated
    && SameFleet(s.agents, s'.agents)
  }

  const NO_STATUS := NodeStatus("", 0.0, 0.0, 0, 0, 0, 0)

  lemma SameFleetManages(m: Store, m': Store)
    requires SameFleet(m, m')
    ensures forall id :: IsManaged(m, id) <==> IsManaged(m', id)
    ensures forall p :: ManagedIds(m', p) == ManagedIds(m, p)
    ensures Keyed(m) ==> Keyed(m')
  {
    forall id | id in m ensures m[id].provider == m'[id].provider && m[id].id == m'[id].id {
      assert IdentityOf(m'[id]) == IdentityOf(m[id]);
    }
    forall p ensures ManagedIds(m', p) == ManagedIds(m, p) {
    }
  }

  lemma CalmKeeps(env: Env, s: State, s': State)
    requires Inv(env, s) && Calm(s, s') && BlockedOk(s'.acts, s'.scalers)
    ensures Inv(env, s')
  {
    SameFleetManages(s.agents, s'.agents);
    forall id | id in s.agents ensures IdentityOf(s'.agents[id]) == IdentityOf(s.agents[id]) {
    }
    forall t | t in s'.acts ensures ActOk(env, s'.acts[t], s'.agents, s'.origin, s'.called) {
      assert ActOk(env, s.acts[t], s.agents, s.origin, s.called);
    }
  }

  /** Only goroutine t is touched. */
  ghost predicate OthersStay(s: State, s': State, t: nat) {
    forall v :: v in s'.acts && v != t ==> v in s.acts && s'.acts[v] == s.acts[v]
  }

  ghost predicate ManagedShrinks(m: Store, m': Store) {
    forall id :: IsManaged(m', id) ==> IsManaged(m, id)
  }

  /** t may go on holding its node; it may take up a registered node; it never
      takes up a node that someone holds. */
  ghost predicate TakesNoHeldNode(s: State, s': State, t: nat) {
    t in s'.acts && HasNode(s'.acts[t]) ==>
      var a := s'.acts[t];
      if t in s.acts && HasNode(s.acts[t]) && s.acts[t].node == a.node then Holding(a) ==> Holding(s.acts[t])
      else !Holding(a) && IsManaged(s.agents, a.node.id)
  }

  ghost predicate CallsOwnNode(s: State, s': State, t: nat) {
    || s'.called == s.called
    || (t in s.acts && s.acts[t].phase == Terminating && s'.called == s.called + {InstanceOf(s.acts[t])})
  }

  /** What the others are doing stays in order. */
  lemma OthersKeep(env: Env, s: State, s': State, t: nat, v: nat)
    requires ActsOk(env, s.acts, s.agents, s.origin, s.called) && HoldersOk(s.acts)
    requires OthersStay(s, s', t) && ManagedShrinks(s.agents, s'.agents) && s'.origin == s.origin
    requires CallsOwnNode(s, s', t) && OriginOk(s.seen, s.origin, s.launched) && v in s'.acts && v != t
    ensures ActOk(env, s'.acts[v], s'.agents, s'.origin, s'.called)
  {
    assert ActOk(env, s.acts[v], s.agents, s.origin, s.called);
    if t in s.acts { assert ActOk(env, s.acts[t], s.agents, s.origin, s.called); }
  }

  lemma OneActHolders(env: Env, s: State, s': State, t: nat)
    requires ActsOk(env, s.acts, s.agents, s.origin, s.called) && HoldersOk(s.acts)
    requires OthersStay(s, s', t) && TakesNoHeldNode(s, s', t)
    ensures HoldersOk(s'.acts)
  {
    forall v, u | v in s'.acts && u in s'.acts && v != u && Holding(s'.acts[v]) && HasNode(s'.acts[u])
      ensures s'.acts[v].node.id != s'.acts[u].node.id
    {
      assert v != t ==> ActOk(env, s.acts[v], s.agents, s.origin, s.called);
    }
  }

  lemma OneActCalled(env: Env, s: State, s': State, t: nat)
    requires ActsOk(env, s.acts, s.agents, s.origin, s.called) && CalledOk(s.agents, s.origin, s.called)
    requires OriginOk(s.seen, s.origin, s.launched) && ManagedShrinks(s.agents, s'.agents) && s'.origin == s.origin
    requires CallsOwnNode(s, s', t)
    ensures CalledOk(s'.agents, s'.origin, s'.called)
  {
    if t in s.acts { assert ActOk(env, s.acts[t], s.agents, s.origin, s.called); }
  }

  /** One goroutine moves, is started or ends; records may go or be blanked, but no
      managed record appears. */
  lemma OneActKeeps(env: Env, s: State, s': State, t: nat)
    requires Inv(env, s) && OthersStay(s, s', t) && ManagedShrinks(s.agents, s'.agents)
    requires s'.origin == s.origin && s.launched <= s'.launched && s.seen <= s'.seen
    requires StoreOk(s'.agents, s'.seen, s'.origin)
    requires CallsOwnNode(s, s', t) && s'.terminated <= s'.called
    requires t in s'.acts ==> ActOk(env, s'.acts[t], s'.agents, s'.origin, s'.called)
    requires TakesNoHeldNode(s, s', t)
    requires BlockedOk(s'.acts, s'.scalers)
    ensures Inv(env, s')
  {
    forall v | v in s'.acts && v != t ensures ActOk(env, s'.acts[v], s'.agents, s'.origin, s'.called) {
      OthersKeep(env, s, s', t, v);
    }
    OneActHolders(env, s, s', t);
    OneActCalled(env, s, s', t);
    if t in s.acts { assert ActOk(env, s.acts[t], s.agents, s.origin, s.called); }
  }

  lemma DecideKeepsInv(env: Env, s: State, p: string, a: Agent, s': State, u: nat, role: Role)
    requires Inv(env, s) && OfFleet(env, s, p) && u !in s.acts && (role == Upgrade || role == ScaleDown)
    requires a.id in s.agents && s.agents[a.id] == a && a.provider == p
    requires s' == s.(acts := s'.acts, scalers := s'.scalers)
    requires s'.acts == s.acts[u := Activity(role, Marking, p, NodeOf(a), s.clock, s.clock)]
    requires BlockedOk(s'.acts, s'.scalers)
    ensures Inv(env, s')
  {
    OneActKeeps(env, s, s', u);
  }

  lemma DirectKeepsInv(env: Env, s: State, p: string, s': State, u: nat)
    requires Inv(env, s) && OfFleet(env, s, p) && u !in s.acts
    requires s' == s.(acts := s'.acts, scalers := s'.scalers)
    requires s'.acts == s.acts[u := Activity(Direct, Launching, p, NO_NODE, s.clock, s.clock)]
    requires BlockedOk(s'.acts, s'.scalers)
    ensures Inv(env, s')
  {
    OneActKeeps(env, s, s', u);
  }

  /** An agent picked from a listing is the store's own record of a managed agent. */
  ghost predicate FromStore(m: Store, p: string, action: Action) {
    action.UpgradeNode? || action.RemoveNode? ==>
      action.target.id in m && m[action.target.id] == action.target && action.target.provider == p
  }

  lemma ChosenFromStore(cfg: Config, m: Store, l: seq<Agent>, p: string, action: Action)
    requires Listing(m, l)
    requires UpChoice(cfg, ManagedOf(l, p), action) || DownChoice(cfg, ManagedOf(l, p), action)
    ensures FromStore(m, p, action)
  {
    if action.UpgradeNode? || action.RemoveNode? { ManagedOfMembers(l, p, action.target); }
  }

  lemma DecideUpKeepsInv(env: Env, s: State, p: string, action: Action, u: nat)
    requires Inv(env, s) && OfFleet(env, s, p) && !s.scalers[p].pc.Blocked? && u !in s.acts && FromStore(s.agents, p, action)
    ensures Inv(env, AfterDecideUp(env, s, p, action, u))
  {
    var s' := AfterDecideUp(env, s, p, action, u);
    assert BlockedOk(s'.acts, s'.scalers);
    match action
    case UpgradeNode(a) => DecideKeepsInv(env, s, p, a, s', u, Upgrade);
    case SpawnSmallest => DirectKeepsInv(env, s, p, s', u);
    case _ => CalmKeeps(env, s, s');
  }

  lemma DecideDownKeepsInv(env: Env, s: State, p: string, action: Action, u: nat)
    requires Inv(env, s) && OfFleet(env, s, p) && !s.scalers[p].pc.Blocked? && u !in s.acts && FromStore(s.agents, p, action)
    ensures Inv(env, AfterDecideDown(env, s, p, action, u))
  {
    var s' := AfterDecideDown(env, s, p, action, u);
    assert BlockedOk(s'.acts, s'.scalers);
    match action
    case RemoveNode(a) => DecideKeepsInv(env, s, p, a, s', u, ScaleDown);
    case _ => CalmKeeps(env, s, s');
  }

  lemma CalmPoll(env: Env, s: State, p: string, x: PollStep)
    requires OfFleet(env, s, p) && PollEnabled(env, s, p, x) && !x.DecideUp? && !x.DecideDown?
    ensures Calm(s, PollApply(env, s, p, x))
  {
    match x
    case ProbeError => UpdatesKeepFleet(s.agents, s.scalers[p].pc.todo[0].id, 0, 0, NO_STATUS);
    case ProbeReply(ns) => UpdatesKeepFleet(s.agents, s.scalers[p].pc.todo[0].id, 0, 0, ns);
    case _ =>
  }

  lemma CalmPollStaysBlocked(env: Env, s: State, p: string, x: PollStep)
    requires OfFleet(env, s, p) && PollEnabled(env, s, p, x) && !x.DecideUp? && !x.DecideDown?
    requires BlockedOk(s.acts, s.scalers)
    ensures BlockedOk(PollApply(env, s, p, x).acts, PollApply(env, s, p, x).scalers)
  {
    var s' := PollApply(env, s, p, x);
    assert !s.scalers[p].pc.Blocked?;
    assert s'.acts == s.acts && s'.scalers == s.scalers[p := s'.scalers[p]];
  }

  lemma PollKeepsInv(env: Env, s: State, p: string, x: PollStep)
    requires Inv(env, s) && OfFleet(env, s, p) && PollEnabled(env, s, p, x)
    ensures Inv(env, PollApply(env, s, p, x))
  {
    match x
    case DecideUp(l, action, u) =>
      ChosenFromStore(env.fleet[p], s.agents, l, p, action);
      DecideUpKeepsInv(env, s, p, action, u);
    case DecideDown(l, action, u) =>
      ChosenFromStore(env.fleet[p], s.agents, l, p, action);
      DecideDownKeepsInv(env, s, p, action, u);
    case _ =>
      CalmPoll(env, s, p, x);
      CalmPollStaysBlocked(env, s, p, x);
      CalmKeeps(env, s, PollApply(env, s, p, x));
  }

  lemma MarkKeepsInv(env: Env, s: State, t: nat)
    requires Inv(env, s) && Live(env, s, t) && s.acts[t].phase == Marking
    ensures Inv(env, AfterMark(s, t))
  {
    var s' := AfterMark(s, t);
    SameFleetManages(s.agents, s'.agents);
    assert ActOk(env, s.acts[t], s.agents, s.origin, s.called);
    OneActKeeps(env, s, s', t);
  }

  /** The shape of a deregistration, whoever makes it: the record goes, no pc moves. */
  ghost predicate DropsRecord(s: State, s': State, t: nat)
    requires t in s.acts
  {
    && s' == s.(agents := s'.agents, acts := s'.acts, scalers := s'.scalers)
    && s'.agents == s.agents - {s.acts[t].node.id}
    && s'.acts == s.acts[t := s.acts[t].(phase := Terminating)]
    && s'.scalers.Keys == s.scalers.Keys
    && forall q :: q in s.scalers ==> s'.scalers[q].pc == s.scalers[q].pc
  }

  lemma DeregisterDropsRecord(s: State, t: nat)
    requires t in s.acts && s.acts[t].p in s.scalers
    ensures DropsRecord(s, AfterDeregister(s, t), t)
  {
    match s.acts[t].role
    case Kill => assert AfterDeregister(s, t).scalers.Keys == s.scalers.Keys;
    case Boot =>
    case Upgrade =>
    case _ =>
  }

  lemma DropKeepsInv(env: Env, s: State, s': State, t: nat)
    requires Inv(env, s) && Live(env, s, t) && s.acts[t].phase == Deregistering && DropsRecord(s, s', t)
    ensures Inv(env, s')
  {
    assert ActOk(env, s.acts[t], s.agents, s.origin, s.called);
    OneActKeeps(env, s, s', t);
  }

  lemma TerminateKeepsInv(env: Env, s: State, t: nat, ok: bool)
    requires Inv(env, s) && Live(env, s, t) && s.acts[t].phase == Terminating
    ensures Inv(env, AfterTerminate(s, t, ok))
  {
    assert ActOk(env, s.acts[t], s.agents, s.origin, s.called);
    OneActKeeps(env, s, AfterTerminate(s, t, ok), t);
  }

  lemma LaunchKeepsActs(env: Env, s: State, t: nat, node: Node)
    requires Inv(env, s) && Live(env, s, t) && ActEnabled(env, s, t, LaunchOk(node))
    ensures var s' := AfterLaunch(s, t, node);
            ActsOk(env, s'.acts, s'.agents, s'.origin, s'.called) && HoldersOk(s'.acts)
  {
    var s' := AfterLaunch(s, t, node);
    forall v | v in s'.acts ensures ActOk(env, s'.acts[v], s'.agents, s'.origin, s'.called) {
      assert v in s.acts && ActOk(env, s.acts[v], s.agents, s.origin, s.called);
    }
  }

  lemma LaunchKeepsInv(env: Env, s: State, t: nat, node: Node)
    requires Inv(env, s) && Live(env, s, t) && ActEnabled(env, s, t, LaunchOk(node))
    ensures Inv(env, AfterLaunch(s, t, node))
  {
    LaunchKeepsActs(env, s, t, node);
    assert ActOk(env, s.acts[t], s.agents, s.origin, s.called);
  }

  lemma SpawnOverKeepsInv(env: Env, s: State, t: nat, lost: set<Instance>)
    requires Inv(env, s) && Live(env, s, t) && s.acts[t].phase == Launching
    ensures Inv(env, SpawnOver(s, t).(launched := s.launched + lost))
  {
    OneActKeeps(env, s, SpawnOver(s, t).(launched := s.launched + lost), t);
  }

  lemma RegisterKeepsActs(env: Env, s: State, t: nat, u: nat)
    requires ActsOk(env, s.acts, s.agents, s.origin, s.called) && HoldersOk(s.acts)
    requires Live(env, s, t) && s.acts[t].phase == Registering && u !in s.acts
    ensures var s' := AfterRegister(s, t, u);
            ActsOk(env, s'.acts, s'.agents, s'.origin, s'.called)
  {
    var s' := AfterRegister(s, t, u);
    var a := s.acts[t];
    assert ActOk(env, a, s.agents, s.origin, s.called);
    assert forall id :: id != a.node.id ==> (IsManaged(s'.agents, id) <==> IsManaged(s.agents, id));
    forall v | v in s'.acts ensures ActOk(env, s'.acts[v], s'.agents, s'.origin, s'.called) {
      if v in s.acts { assert ActOk(env, s.acts[v], s.agents, s.origin, s.called); }
    }
  }

  lemma RegisterKeepsHolders(env: Env, s: State, t: nat, u: nat)
    requires HoldersOk(s.acts)
    requires Live(env, s, t) && s.acts[t].phase == Registering && u !in s.acts
    ensures HoldersOk(AfterRegister(s, t, u).acts)
  {
    var s' := AfterRegister(s, t, u);
    forall v, w | v in s'.acts && w in s'.acts && v != w && Holding(s'.acts[v]) && HasNode(s'.acts[w])
      ensures s'.acts[v].node.id != s'.acts[w].node.id
    {
      assert v != t && v != u && v in s.acts;
    }
  }

  lemma RegisterKeepsRecords(env: Env, s: State, t: nat, u: nat)
    requires Inv(env, s) && Live(env, s, t) && s.acts[t].phase == Registering && u !in s.acts
    ensures var s' := AfterRegister(s, t, u);
            StoreOk(s'.agents, s'.seen, s'.origin) && CalledOk(s'.agents, s'.origin, s'.called)
  {
    assert ActOk(env, s.acts[t], s.agents, s.origin, s.called);
  }

  lemma RegisterKeepsBlocked(env: Env, s: State, t: nat, u: nat)
    requires BlockedOk(s.acts, s.scalers)
    requires Live(env, s, t) && s.acts[t].phase == Registering && u !in s.acts
    ensures BlockedOk(AfterRegister(s, t, u).acts, AfterRegister(s, t, u).scalers)
  {
  }

  /** The node's holder registers it: the only step that adds a managed record. */
  lemma RegisterKeepsInv(env: Env, s: State, t: nat, u: nat)
    requires Inv(env, s) && Live(env, s, t) && s.acts[t].phase == Registering && u !in s.acts
    ensures Inv(env, AfterRegister(s, t, u))
  {
    RegisterKeepsActs(env, s, t, u);
    RegisterKeepsHolders(env, s, t, u);
    RegisterKeepsRecords(env, s, t, u);
    RegisterKeepsBlocked(env, s, t, u);
  }

  lemma ResetKeepsInv(env: Env, s: State, t: nat)
    requires Inv(env, s) && Live(env, s, t) && s.acts[t].phase == Resetting
    ensures Inv(env, AfterReset(s, t))
  {
    OneActKeeps(env, s, AfterReset(s, t), t);
  }

  lemma PhaseKeepsInv(env: Env, s: State, t: nat, phase: Phase)
    requires Inv(env, s) && Live(env, s, t) && s.acts[t].phase == Bootstrapping
    requires if s.acts[t].role == Init then phase == Registering || phase == Terminating else phase == Deregistering
    ensures Inv(env, WithPhase(s, t, phase))
  {
    assert ActOk(env, s.acts[t], s.agents, s.origin, s.called);
    OneActKeeps(env, s, WithPhase(s, t, phase), t);
  }

  lemma BootKeepsInv(env: Env, s: State, t: nat, ok: bool)
    requires Inv(env, s) && Live(env, s, t) && s.acts[t].phase == Bootstrapping
    ensures Inv(env, AfterBoot(s, t, ok))
  {
    if s.acts[t].role == Init {
      PhaseKeepsInv(env, s, t, if ok then Registering else Terminating);
    } else if ok {
      OneActKeeps(env, s, Ended(s, t), t);
    } else {
      PhaseKeepsInv(env, s, t, Deregistering);
    }
  }

  lemma DrainedKeepsInv(env: Env, s: State, t: nat)
    requires Inv(env, s) && Live(env, s, t) && s.acts[t].phase == Waiting
    ensures Inv(env, WithPhase(s, t, Deregistering))
  {
    assert ActOk(env, s.acts[t], s.agents, s.origin, s.called);
    OneActKeeps(env, s, WithPhase(s, t, Deregistering), t);
  }

  lemma ActKeepsInv(env: Env, s: State, t: nat, x: ActStep)
    requires Inv(env, s) && Live(env, s, t) && ActEnabled(env, s, t, x)
    ensures Inv(env, ActApply(env, s, t, x))
  {
    match x
    case Mark => MarkKeepsInv(env, s, t);
    case Deregister =>
      DeregisterDropsRecord(s, t);
      DropKeepsInv(env, s, AfterDeregister(s, t), t);
    case Terminate(ok) => TerminateKeepsInv(env, s, t, ok);
    case LaunchOk(node) => LaunchKeepsInv(env, s, t, node);
    case LaunchFail => SpawnOverKeepsInv(env, s, t, {});
    case LaunchLost(id) => SpawnOverKeepsInv(env, s, t, {Instance(s.acts[t].p, id)});
    case RegisterNode(u) => RegisterKeepsInv(env, s, t, u);
    case Reset => ResetKeepsInv(env, s, t);
    case BootOk => BootKeepsInv(env, s, t, true);
    case BootFail => BootKeepsInv(env, s, t, false);
    case ObserveIdle(_) => DrainedKeepsInv(env, s, t);
    case DrainTimeout => DrainedKeepsInv(env, s, t);
  }

  /** Records go or are blanked; no goroutine moves. */
  lemma StoreGoesKeeps(env: Env, s: State, s': State)
    requires Inv(env, s) && ManagedShrinks(s.agents, s'.agents)
    requires s'.acts == s.acts && s'.origin == s.origin && s'.launched == s.launched && s.seen <= s'.seen
    requires s'.called == s.called && s'.terminated == s.terminated
    requires StoreOk(s'.agents, s'.seen, s'.origin) && BlockedOk(s'.acts, s'.scalers)
    ensures Inv(env, s')
  {
    forall v | v in s'.acts ensures ActOk(env, s'.acts[v], s'.agents, s'.origin, s'.called) {
      assert ActOk(env, s.acts[v], s.agents, s.origin, s.called);
    }
  }

  lemma ManualKeepsInv(env: Env, s: State, id: string, address: string)
    requires Inv(env, s) && id != ""
    ensures Inv(env, OpApply(env, s, Manual(id, address)))
  {
    StoreGoesKeeps(env, s, OpApply(env, s, Manual(id, address)));
  }

  lemma FlushKeepsInv(env: Env, s: State)
    requires Inv(env, s)
    ensures Inv(env, OpApply(env, s, Flush))
  {
    StoreGoesKeeps(env, s, OpApply(env, s, Flush));
  }

  lemma StartKeepsInv(env: Env, s: State, x: OpStep)
    requires Inv(env, s) && OpEnabled(env, s, x) && (x.InitStart? || x.KillStart?)
    ensures Inv(env, OpApply(env, s, x))
  {
    OneActKeeps(env, s, OpApply(env, s, x), x.u);
  }

  lemma OpKeepsInv(env: Env, s: State, x: OpStep)
    requires Inv(env, s) && OpEnabled(env, s, x)
    ensures Inv(env, OpApply(env, s, x))
  {
    match x
    case Report(id, ns) =>
      UpdatesKeepFleet(s.agents, id, 0, 0, ns);
      CalmKeeps(env, s, OpApply(env, s, x));
    case Heartbeat(id, n) =>
      UpdatesKeepFleet(s.agents, id, n, s.clock, NO_STATUS);
      CalmKeeps(env, s, OpApply(env, s, x));
    case Manual(id, address) => ManualKeepsInv(env, s, id, address);
    case Flush => FlushKeepsInv(env, s);
    case _ => StartKeepsInv(env, s, x);
  }

  lemma StepKeepsInv(env: Env, s: State, l: Label)
    requires Inv(env, s) && Enabled(env, s, l)
    ensures Inv(env, Apply(env, s, l))
  {
    match l
    case Tick(d) => CalmKeeps(env, s, Apply(env, s, l));
    case Poll(p, x) => PollKeepsInv(env, s, p, x);
    case Act(t, x) => ActKeepsInv(env, s, t, x);
    case Operator(x) => OpKeepsInv(env, s, x);
  }

  lemma {:induction false} RunKeepsInv(env: Env, states: seq<State>, labels: seq<Label>, i: nat)
    requires Run(env, states, labels) && i < |states|
    ensures Inv(env, states[i])
  {
    if i == 0 {
      InitialInv(env, states[0]);
    } else {
      RunKeepsInv(env, states, labels, i - 1);
      assert Step(env, states[i-1], labels[i-1], states[i]);
      StepKeepsInv(env, states[i-1], labels[i-1]);
    }
  }

  lemma RunStep(env: Env, states: seq<State>, labels: seq<Label>, i: nat)
    requires Run(env, states, labels) && i < |labels|
    ensures Inv(env, states[i]) && Step(env, states[i], labels[i], states[i+1])
  {
    RunKeepsInv(env, states, labels, i);
  }
}
