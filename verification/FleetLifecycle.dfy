/** The life of every goroutine, told from the steps of the run alone: what starts it, for
    which node, the order of its calls, and what ends it.  A node whose bootstrap fails is
    deregistered and terminated, or never registered. */
module FleetLifecycle {
  import opened Models
  import opened Scaling
  import opened FleetModel
  import opened FleetIdentity
  import opened FleetSafety
  import opened FleetReach

  /** Not running; or running for a role, a provider and a node since a time, with the
      last call it made. */
  datatype Life = NotRunning | Alive(role: Role, p: string, node: Node, born: int, last: Option<ActStep>)

  /** The life that a step starts under the number t. */
  ghost function Begun(s: State, l: Label, t: nat): Life {
    match l
    case Poll(p, DecideUp(_, SpawnSmallest, u)) => if u == t then Alive(Direct, p, NO_NODE, s.clock, None) else NotRunning
    case Poll(p, DecideUp(_, UpgradeNode(a), u)) => if u == t then Alive(Upgrade, p, NodeNamed(a), s.clock, None) else NotRunning
    case Poll(p, DecideDown(_, RemoveNode(a), u)) =>
      if u == t then Alive(ScaleDown, p, NodeNamed(a), s.clock, None) else NotRunning
    case Act(x, RegisterNode(u)) =>
      if u == t && x in s.acts && (s.acts[x].role == Upgrade || s.acts[x].role == Direct)
      then Alive(Boot, s.acts[x].p, s.acts[x].node, s.clock, None) else NotRunning
    case Operator(InitStart(p, u)) => if u == t then Alive(Init, p, NO_NODE, s.clock, None) else NotRunning
    case Operator(KillStart(p, u, id)) =>
      if u == t && id in s.agents then Alive(Kill, p, NodeNamed(s.agents[id]), s.clock, None) else NotRunning
    case _ => NotRunning
  }

  function NodeNamed(a: Agent): Node { Node(a.id, a.providerID, a.instanceType, a.address) }

  /** The calls after which a goroutine of the role returns. */
  predicate IsLast(role: Role, x: ActStep) {
    match role
    case ScaleDown => x.Terminate?
    case Upgrade => x.LaunchFail? || x.LaunchLost? || x.Reset?
    case Direct => x.LaunchFail? || x.LaunchLost? || x.Reset?
    case Boot => x.BootOk? || x.Terminate?
    case Init => x.LaunchFail? || x.LaunchLost? || x.RegisterNode? || x.Terminate?
    case Kill => x.Terminate?
  }

  /** The node it works on after a call. */
  function NodeAfter(role: Role, node: Node, x: ActStep): Node {
    if x.LaunchOk? then x.node else if role == Upgrade && x.Terminate? then NO_NODE else node
  }

  ghost function LifeAfter(was: Life, s: State, l: Label, t: nat): Life {
    if was.Alive? && l.Act? && l.t == t then
      if IsLast(was.role, l.act) then NotRunning
      else was.(node := NodeAfter(was.role, was.node, l.act), last := Some(l.act))
    else if was.NotRunning? then Begun(s, l, t) else was
  }

  ghost function LifeAt(states: seq<State>, labels: seq<Label>, n: nat, t: nat): Life
    requires n <= |labels| && n <= |states|
  {
    if n == 0 then NotRunning else LifeAfter(LifeAt(states, labels, n - 1, t), states[n-1], labels[n-1], t)
  }

  /** The call that a goroutine of the role makes next, by the one it made last. */
  predicate MayCall(role: Role, last: Option<ActStep>, x: ActStep) {
    match x
    case Mark => (role == ScaleDown || role == Upgrade) && last == None
    case ObserveIdle(_) => (role == ScaleDown || role == Upgrade) && last == Some(Mark)
    case DrainTimeout => (role == ScaleDown || role == Upgrade) && last == Some(Mark)
    case Deregister =>
      || ((role == ScaleDown || role == Upgrade) && last.Some? && (last.value.ObserveIdle? || last.value.DrainTimeout?))
      || (role == Boot && last == Some(BootFail))
      || (role == Kill && last == None)
    case Terminate(_) => if role == Init then last == Some(BootFail) else role != Direct && last == Some(Deregister)
    case LaunchOk(_) => IsLaunching(role, last)
    case LaunchFail => IsLaunching(role, last)
    case LaunchLost(_) => IsLaunching(role, last)
    case RegisterNode(_) =>
      if role == Init then last == Some(BootOk)
      else (role == Upgrade || role == Direct) && last.Some? && last.value.LaunchOk?
    case Reset => (role == Upgrade || role == Direct) && last.Some? && last.value.RegisterNode?
    case BootOk => IsBooting(role, last)
    case BootFail => IsBooting(role, last)
  }

  /** A drain that upgrades goes on to the launch whatever TerminateNode returned. */
  predicate IsLaunching(role: Role, last: Option<ActStep>) {
    || ((role == Direct || role == Init) && last == None)
    || (role == Upgrade && last.Some? && last.value.Terminate?)
  }

  predicate IsBooting(role: Role, last: Option<ActStep>) {
    (role == Boot && last == None) || (role == Init && last.Some? && last.value.LaunchOk?)
  }

  function PhaseOf(x: ActStep): Phase {
    match x
    case Mark => Marking
    case ObserveIdle(_) => Waiting
    case DrainTimeout => Waiting
    case Deregister => Deregistering
    case Terminate(_) => Terminating
    case LaunchOk(_) => Launching
    case LaunchFail => Launching
    case LaunchLost(_) => Launching
    case RegisterNode(_) => Registering
    case Reset => Resetting
    case BootOk => Bootstrapping
    case BootFail => Bootstrapping
  }

  /** What it is about to do after its last call. */
  function StageAfter(role: Role, last: Option<ActStep>): Option<Phase> {
    match last
    case None =>
      (match role
       case ScaleDown => Some(Marking)
       case Upgrade => Some(Marking)
       case Direct => Some(Launching)
       case Boot => Some(Bootstrapping)
       case Init => Some(Launching)
       case Kill => Some(Deregistering))
    case Some(Mark) => Some(Waiting)
    case Some(ObserveIdle(_)) => Some(Deregistering)
    case Some(DrainTimeout) => Some(Deregistering)
    case Some(Deregister) => Some(Terminating)
    case Some(Terminate(_)) => if role == Upgrade then Some(Launching) else None
    case Some(LaunchOk(_)) => Some(if role == Init then Bootstrapping else Registering)
    case Some(RegisterNode(_)) => if role == Init then None else Some(Resetting)
    case Some(BootOk) => if role == Init then Some(Registering) else None
    case Some(BootFail) => Some(if role == Init then Terminating else Deregistering)
    case _ => None
  }

  /** The role ever makes the call. */
  predicate Makes(role: Role, x: ActStep) {
    match x
    case Mark => role == ScaleDown || role == Upgrade
    case ObserveIdle(_) => role == ScaleDown || role == Upgrade
    case DrainTimeout => role == ScaleDown || role == Upgrade
    case Deregister => role != Direct && role != Init
    case Terminate(_) => role != Direct
    case LaunchOk(_) => role == Upgrade || role == Direct || role == Init
    case LaunchFail => role == Upgrade || role == Direct || role == Init
    case LaunchLost(_) => role == Upgrade || role == Direct || role == Init
    case RegisterNode(_) => role == Upgrade || role == Direct || role == Init
    case Reset => role == Upgrade || role == Direct
    case BootOk => role == Boot || role == Init
    case BootFail => role == Boot || role == Init
  }

  /** The goroutine is what its life says, and about to make the calls it may. */
  ghost predicate Lives(a: Activity, life: Life) {
    && life.Alive? && a.role == life.role && a.p == life.p && a.node == life.node && a.decided == life.born
    && StageAfter(life.role, life.last) == Some(a.phase)
    && (life.last.Some? ==> Makes(life.role, life.last.value) && !IsLast(life.role, life.last.value))
  }

  lemma StageAllowsIff(role: Role, last: Option<ActStep>, x: ActStep)
    requires last.Some? ==> Makes(role, last.value) && !IsLast(role, last.value)
    ensures MayCall(role, last, x) <==> StageAfter(role, last) == Some(PhaseOf(x)) && Makes(role, x)
  {
  }

  ghost predicate LivesAt(s: State, t: nat, life: Life) {
    if t in s.acts then Lives(s.acts[t], life) else life == NotRunning
  }

  lemma StepFitsRole(env: Env, s: State, t: nat, x: ActStep)
    requires Live(env, s, t) && ActEnabled(env, s, t, x) && RoleFits(s.acts[t])
    ensures s.acts[t].phase == PhaseOf(x) && Makes(s.acts[t].role, x)
  {
  }

  lemma OwnCall(env: Env, s: State, t: nat, x: ActStep, life: Life)
    requires Live(env, s, t) && ActEnabled(env, s, t, x) && RoleFits(s.acts[t]) && Lives(s.acts[t], life)
    ensures LivesAt(ActApply(env, s, t, x), t, LifeAfter(life, s, Act(t, x), t))
  {
    StepFitsRole(env, s, t, x);
  }

  lemma ActStarts(env: Env, s: State, u: nat, x: ActStep, t: nat)
    requires Live(env, s, u) && ActEnabled(env, s, u, x) && RoleFits(s.acts[u]) && t !in s.acts
    ensures LivesAt(ActApply(env, s, u, x), t, Begun(s, Act(u, x), t))
  {
  }

  lemma UpStarts(env: Env, s: State, p: string, action: Action, u: nat, t: nat, l: seq<Agent>)
    requires OfFleet(env, s, p) && t !in s.acts
    ensures LivesAt(AfterDecideUp(env, s, p, action, u), t, Begun(s, Poll(p, DecideUp(l, action, u)), t))
  {
  }

  lemma DownStarts(env: Env, s: State, p: string, action: Action, u: nat, t: nat, l: seq<Agent>)
    requires OfFleet(env, s, p) && t !in s.acts
    ensures LivesAt(AfterDecideDown(env, s, p, action, u), t, Begun(s, Poll(p, DecideDown(l, action, u)), t))
  {
  }

  lemma PollStarts(env: Env, s: State, p: string, x: PollStep, t: nat)
    requires OfFleet(env, s, p) && PollEnabled(env, s, p, x) && t !in s.acts
    ensures LivesAt(PollApply(env, s, p, x), t, Begun(s, Poll(p, x), t))
  {
    match x
    case DecideUp(l, action, u) => UpStarts(env, s, p, action, u, t, l);
    case DecideDown(l, action, u) => DownStarts(env, s, p, action, u, t, l);
    case _ => CalmPollShape(env, s, p, x);
  }

  lemma OperatorStarts(env: Env, s: State, x: OpStep, t: nat)
    requires OpEnabled(env, s, x) && t !in s.acts
    ensures LivesAt(OpApply(env, s, x), t, Begun(s, Operator(x), t))
  {
  }

  lemma StepLives(env: Env, s: State, l: Label, t: nat, life: Life)
    requires Inv(env, s) && Enabled(env, s, l) && LivesAt(s, t, life)
    ensures LivesAt(Apply(env, s, l), t, LifeAfter(life, s, l, t))
  {
    if l.Act? { assert ActOk(env, s.acts[l.t], s.agents, s.origin, s.called); }
    if t in s.acts {
      if l.Act? && l.t == t { OwnCall(env, s, t, l.act, life); } else { OtherActStays(env, s, t, l); }
    } else {
      match l
      case Tick(_) =>
      case Poll(p, x) => PollStarts(env, s, p, x, t);
      case Act(u, x) => ActStarts(env, s, u, x, t);
      case Operator(x) => OperatorStarts(env, s, x, t);
    }
  }

  /** In every run each goroutine is what its life so far says: it runs exactly from the
      step that starts it to its last call, for the role, provider and node it was started
      or has launched, and the calls it can make next are those its last call leads to. */
  lemma {:induction false} GoroutinesFollowTheirCalls(env: Env, states: seq<State>, labels: seq<Label>, n: nat, t: nat)
    requires Run(env, states, labels) && n < |states|
    ensures LivesAt(states[n], t, LifeAt(states, labels, n, t))
  {
    if n > 0 {
      GoroutinesFollowTheirCalls(env, states, labels, n - 1, t);
      RunStep(env, states, labels, n - 1);
      StepLives(env, states[n-1], labels[n-1], t, LifeAt(states, labels, n - 1, t));
    }
  }

  // --------------------------------------------------------------- in terms of calls

  /** The goroutine t that is running at n has been since m. */
  ghost predicate RunsOn(states: seq<State>, m: nat, n: nat, t: nat) {
    forall k :: m <= k <= n && k < |states| ==> t in states[k].acts
  }

  /** The last call that t made before n, if any, was made at k, in the same life. */
  ghost predicate CalledLast(states: seq<State>, labels: seq<Label>, k: nat, n: nat, t: nat, x: ActStep) {
    && k < n <= |labels| && labels[k] == Act(t, x) && RunsOn(states, k, n, t)
    && forall j :: k < j < n ==> !(labels[j].Act? && labels[j].t == t)
  }

  lemma CalledLastStays(states: seq<State>, labels: seq<Label>, k: nat, n: nat, t: nat, x: ActStep)
    requires CalledLast(states, labels, k, n, t, x) && n < |labels| && n + 1 < |states| && t in states[n+1].acts
    requires !(labels[n].Act? && labels[n].t == t)
    ensures CalledLast(states, labels, k, n + 1, t, x)
  {
  }

  /** One step back: the last call was just made, or it was the last one before. */
  lemma LastCallStep(was: Life, s: State, l: Label, t: nat)
    requires LifeAfter(was, s, l, t).Alive? && LifeAfter(was, s, l, t).last.Some?
    ensures was.Alive? && was.role == LifeAfter(was, s, l, t).role
    ensures if l.Act? && l.t == t then l == Act(t, LifeAfter(was, s, l, t).last.value)
            else was == LifeAfter(was, s, l, t)
  {
  }

  lemma {:induction false} LastCall(env: Env, states: seq<State>, labels: seq<Label>, n: nat, t: nat) returns (k: nat)
    requires Run(env, states, labels) && n < |states|
    requires LifeAt(states, labels, n, t).Alive? && LifeAt(states, labels, n, t).last.Some?
    ensures k < n && CalledLast(states, labels, k, n, t, LifeAt(states, labels, n, t).last.value)
    ensures states[k].acts[t].role == LifeAt(states, labels, n, t).role
  {
    var m, was := n - 1, LifeAt(states, labels, n - 1, t);
    GoroutinesFollowTheirCalls(env, states, labels, n, t);
    GoroutinesFollowTheirCalls(env, states, labels, m, t);
    LastCallStep(was, states[m], labels[m], t);
    if labels[m].Act? && labels[m].t == t {
      k := m;
    } else {
      k := LastCall(env, states, labels, m, t);
      CalledLastStays(states, labels, k, m, t, was.last.value);
    }
  }

  /** Every call is made in its place: after the very call before it in the source, made
      by the same goroutine, or as its first. */
  lemma CallsInOrder(env: Env, states: seq<State>, labels: seq<Label>, n: nat, t: nat, x: ActStep)
    requires Run(env, states, labels) && n < |labels| && labels[n] == Act(t, x)
    ensures t in states[n].acts
    ensures var role := states[n].acts[t].role;
            || MayCall(role, None, x)
            || exists k, y :: 0 <= k < n && CalledLast(states, labels, k, n, t, y) && MayCall(role, Some(y), x)
  {
    assert Step(env, states[n], labels[n], states[n+1]);
    GoroutinesFollowTheirCalls(env, states, labels, n, t);
    var life := LifeAt(states, labels, n, t);
    StageAllowsIff(life.role, life.last, x);
    RunStep(env, states, labels, n);
    assert ActOk(env, states[n].acts[t], states[n].agents, states[n].origin, states[n].called);
    StepFitsRole(env, states[n], t, x);
    if life.last.Some? {
      var k := LastCall(env, states, labels, n, t);
      assert CalledLast(states, labels, k, n, t, life.last.value);
    }
  }

  /** What a call waits for: a drain for its first tick and an idle node, or for its
      timeout; a launch is of a fresh node of a type asked for. */
  ghost predicate NothingHolds(env: Env, s: State, t: nat, x: ActStep)
    requires t in s.acts
  {
    match x
    case ObserveIdle(ns) => s.acts[t].since + 5 <= s.clock && ns.activeTasks == 0
    case DrainTimeout => s.acts[t].since + 300 <= s.clock
    case LaunchOk(node) =>
      && node.id != "" && node.id !in s.seen && Instance(s.acts[t].p, node.providerID) !in s.launched
      && s.acts[t].p in env.fleet && Asked(env.fleet[s.acts[t].p].nodeTypes, s.acts[t].role, node.instanceType)
    case LaunchLost(providerID) => Instance(s.acts[t].p, providerID) !in s.launched
    case RegisterNode(u) => u !in s.acts
    case _ => true
  }

  lemma FreeStep(env: Env, s: State, t: nat, x: ActStep)
    requires Live(env, s, t) && s.acts[t].phase == PhaseOf(x)
    ensures Enabled(env, s, Act(t, x)) <==> NothingHolds(env, s, t, x)
  {
  }

  /** And every call it may make can be made, whatever the reply, once nothing holds it. */
  lemma CallsAreFree(env: Env, states: seq<State>, labels: seq<Label>, n: nat, t: nat, x: ActStep)
    requires Run(env, states, labels) && n < |states|
    requires var life := LifeAt(states, labels, n, t); life.Alive? && MayCall(life.role, life.last, x)
    ensures t in states[n].acts
    ensures Enabled(env, states[n], Act(t, x)) <==> NothingHolds(env, states[n], t, x)
  {
    GoroutinesFollowTheirCalls(env, states, labels, n, t);
    StageAllowsIff(LifeAt(states, labels, n, t).role, LifeAt(states, labels, n, t).last, x);
    RunKeepsInv(env, states, labels, n);
    assert ActOk(env, states[n].acts[t], states[n].agents, states[n].origin, states[n].called);
    InFleet(env, states, labels, n, states[n].acts[t].p);
    FreeStep(env, states[n], t, x);
  }

  // --------------------------------------------------------------------- bootstraps

  ghost predicate IsCall(l: Label, t: nat, x: ActStep) { l == Act(t, x) }

  ghost predicate IsTerminate(l: Label, t: nat) { l.Act? && l.t == t && l.act.Terminate? }

  /** Goroutine t works on the node at k. */
  ghost predicate WorksOn(states: seq<State>, k: nat, t: nat, node: Node) {
    k < |states| && t in states[k].acts && states[k].acts[t].node == node
  }

  /** Between m and n the goroutine deregistered the node and then terminated it. */
  ghost predicate CleanedUp(states: seq<State>, labels: seq<Label>, m: nat, n: nat, t: nat, node: Node) {
    exists i, j :: && m < i < j < n <= |labels| && IsCall(labels[i], t, Deregister) && WorksOn(states, i, t, node)
                   && IsTerminate(labels[j], t) && WorksOn(states, j, t, node)
  }

  ghost predicate Deregistered(states: seq<State>, labels: seq<Label>, m: nat, n: nat, t: nat, node: Node) {
    exists i :: m < i < n <= |labels| && IsCall(labels[i], t, Deregister) && WorksOn(states, i, t, node)
  }

  /** How far the cleanup that began after m has come. */
  ghost predicate CleaningUp(states: seq<State>, labels: seq<Label>, m: nat, n: nat, t: nat, node: Node)
    requires n <= |labels| && n <= |states|
  {
    var life := LifeAt(states, labels, n, t);
    || CleanedUp(states, labels, m, n, t, node)
    || (life.Alive? && life.role == Boot && life.node == node && life.last == Some(BootFail))
    || (life.Alive? && life.role == Boot && life.node == node && life.last == Some(Deregister)
        && Deregistered(states, labels, m, n, t, node))
  }

  lemma CleanupStep(env: Env, states: seq<State>, labels: seq<Label>, m: nat, n: nat, t: nat, node: Node)
    requires Run(env, states, labels) && m < n < |labels| && labels[n].Act? && labels[n].t == t
    requires LifeAt(states, labels, n, t).Alive? && CleaningUp(states, labels, m, n, t, node)
    requires !CleanedUp(states, labels, m, n, t, node)
    ensures labels[n] == Act(t, Deregister) ==> Deregistered(states, labels, m, n + 1, t, node)
    ensures labels[n] != Act(t, Deregister) ==> CleanedUp(states, labels, m, n + 1, t, node)
  {
    GoroutinesFollowTheirCalls(env, states, labels, n, t);
    RunStep(env, states, labels, n);
    assert ActOk(env, states[n].acts[t], states[n].agents, states[n].origin, states[n].called);
    StepFitsRole(env, states[n], t, labels[n].act);
    assert WorksOn(states, n, t, node);
    if LifeAt(states, labels, n, t).last == Some(Deregister) {
      var i :| m < i < n <= |labels| && IsCall(labels[i], t, Deregister) && WorksOn(states, i, t, node);
      assert IsTerminate(labels[n], t);
    }
  }

  lemma CleanupStays(states: seq<State>, labels: seq<Label>, m: nat, n: nat, t: nat, node: Node)
    requires n < |labels|
    ensures CleanedUp(states, labels, m, n, t, node) ==> CleanedUp(states, labels, m, n + 1, t, node)
    ensures Deregistered(states, labels, m, n, t, node) ==> Deregistered(states, labels, m, n + 1, t, node)
  {
  }

  lemma CleanupGoesOn(env: Env, states: seq<State>, labels: seq<Label>, m: nat, n: nat, t: nat, node: Node)
    requires Run(env, states, labels) && m < n < |labels| && CleaningUp(states, labels, m, n, t, node)
    ensures CleaningUp(states, labels, m, n + 1, t, node)
  {
    CleanupStays(states, labels, m, n, t, node);
    if !CleanedUp(states, labels, m, n, t, node) && labels[n].Act? && labels[n].t == t {
      CleanupStep(env, states, labels, m, n, t, node);
    }
  }

  lemma CleanupBegins(env: Env, states: seq<State>, labels: seq<Label>, m: nat, t: nat)
    requires Run(env, states, labels) && m < |labels| && labels[m] == Act(t, BootFail)
    requires t in states[m].acts && states[m].acts[t].role == Boot
    ensures CleaningUp(states, labels, m, m + 1, t, states[m].acts[t].node)
  {
    GoroutinesFollowTheirCalls(env, states, labels, m, t);
  }

  lemma {:induction false} CleanupHolds(env: Env, states: seq<State>, labels: seq<Label>, m: nat, n: nat, t: nat)
    requires Run(env, states, labels) && m < n < |states| && labels[m] == Act(t, BootFail)
    requires t in states[m].acts && states[m].acts[t].role == Boot
    ensures CleaningUp(states, labels, m, n, t, states[m].acts[t].node)
    decreases n
  {
    if n == m + 1 {
      CleanupBegins(env, states, labels, m, t);
    } else {
      CleanupHolds(env, states, labels, m, n - 1, t);
      CleanupGoesOn(env, states, labels, m, n - 1, t, states[m].acts[t].node);
    }
  }

  /** A bootstrap goroutine whose bootstrap failed does not return before it has taken
      its node out of the registry and then called TerminateNode on it. */
  lemma BootFailureIsCleanedUp(env: Env, states: seq<State>, labels: seq<Label>, m: nat, n: nat, t: nat)
    requires Run(env, states, labels) && m < n < |states| && labels[m] == Act(t, BootFail)
    requires t in states[m].acts && states[m].acts[t].role == Boot && t !in states[n].acts
    ensures CleanedUp(states, labels, m, n, t, states[m].acts[t].node)
  {
    CleanupHolds(env, states, labels, m, n, t);
    GoroutinesFollowTheirCalls(env, states, labels, n, t);
  }

  /** It deregisters its node only after its bootstrap failed, and one that succeeded
      makes no further call. */
  lemma BootDeregistersOnlyAfterFailure(env: Env, states: seq<State>, labels: seq<Label>, n: nat, t: nat)
    requires Run(env, states, labels) && n < |labels| && t in states[n].acts && states[n].acts[t].role == Boot
    ensures labels[n] == Act(t, Deregister) ==> exists k :: 0 <= k < n && CalledLast(states, labels, k, n, t, BootFail)
    ensures labels[n] == Act(t, BootOk) ==> t !in states[n+1].acts
  {
    if labels[n] == Act(t, Deregister) { CallsInOrder(env, states, labels, n, t, Deregister); }
    if labels[n] == Act(t, BootOk) {
      GoroutinesFollowTheirCalls(env, states, labels, n, t);
      GoroutinesFollowTheirCalls(env, states, labels, n + 1, t);
    }
  }

  /** A goroutine of InitializeNodes registers its node only after the bootstrap
      succeeded, and terminates it only after it failed. */
  lemma InitFollowsItsBootstrap(env: Env, states: seq<State>, labels: seq<Label>, n: nat, t: nat)
    requires Run(env, states, labels) && n < |labels| && t in states[n].acts && states[n].acts[t].role == Init
    ensures labels[n].Act? && labels[n].t == t && labels[n].act.RegisterNode? ==>
              exists k :: 0 <= k < n && CalledLast(states, labels, k, n, t, BootOk)
    ensures IsTerminate(labels[n], t) ==> exists k :: 0 <= k < n && CalledLast(states, labels, k, n, t, BootFail)
  {
    if labels[n].Act? && labels[n].t == t { CallsInOrder(env, states, labels, n, t, labels[n].act); }
  }
}
