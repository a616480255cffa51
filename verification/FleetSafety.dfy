/** Safety of the fleet over whole runs: terminated instances are never named by the
    store, every launched instance is in one known place, draining is final, and a
    drain is patient. */
module FleetSafety {
  import opened Models
  import opened AgentRegistry
  import opened Scaling
  import opened FleetModel
  import opened FleetIdentity

  // ------------------------------------------------- deregister before terminate

  /** Whatever races on a node - drains, a failing bootstrap, TerminateNodes - no
      stored record names an instance that TerminateNode has been called on. */
  lemma DeregisterBeforeTerminate(env: Env, states: seq<State>, labels: seq<Label>, i: nat, id: string)
    requires Run(env, states, labels) && i < |states| && id in states[i].agents
    ensures var a := states[i].agents[id]; Instance(a.provider, a.providerID) !in states[i].called
  {
    RunKeepsInv(env, states, labels, i);
  }

  /** No two records name one instance of a provider. */
  lemma OneRecordPerInstance(env: Env, states: seq<State>, labels: seq<Label>, i: nat, id: string, id': string)
    requires Run(env, states, labels) && i < |states|
    requires id in states[i].agents && id' in states[i].agents && states[i].agents[id].provider != ""
    requires states[i].agents[id].provider == states[i].agents[id'].provider
    requires states[i].agents[id].providerID == states[i].agents[id'].providerID
    ensures id == id'
  {
    RunKeepsInv(env, states, labels, i);
  }

  // ------------------------------------------------------- instance conservation

  datatype Place = Held | Registered | AwaitingTerminate | Gone | Lost

  ghost predicate IsHeld(s: State, i: Instance) {
    exists t :: t in s.acts && Holding(s.acts[t]) && InstanceOf(s.acts[t]) == i
  }

  ghost predicate IsRegistered(s: State, i: Instance) {
    exists id :: id in s.agents && s.agents[id].provider == i.provider != "" && s.agents[id].providerID == i.providerID
  }

  ghost predicate WillTerminate(a: Activity) {
    a.phase == Marking || a.phase == Waiting || a.phase == Deregistering || a.phase == Terminating
  }

  /** Some goroutine has the instance in hand and calls TerminateNode on it later. */
  ghost predicate IsClaimed(s: State, i: Instance) {
    exists t :: t in s.acts && WillTerminate(s.acts[t]) && InstanceOf(s.acts[t]) == i
  }

  ghost predicate At(s: State, i: Instance, place: Place) {
    match place
    case Held => IsHeld(s, i)
    case Registered => IsRegistered(s, i)
    case Gone => i in s.terminated
    case AwaitingTerminate => IsClaimed(s, i) && !IsHeld(s, i) && !IsRegistered(s, i) && i !in s.terminated
    case Lost => !IsClaimed(s, i) && !IsHeld(s, i) && !IsRegistered(s, i) && i !in s.terminated
  }

  lemma PlacesExclude(env: Env, s: State, i: Instance)
    requires Inv(env, s)
    ensures !(IsHeld(s, i) && IsRegistered(s, i))
    ensures !(IsHeld(s, i) && i in s.terminated)
    ensures !(IsRegistered(s, i) && i in s.terminated)
  {
    if IsHeld(s, i) {
      var t :| t in s.acts && Holding(s.acts[t]) && InstanceOf(s.acts[t]) == i;
      assert ActOk(env, s.acts[t], s.agents, s.origin, s.called);
    }
  }

  /** In every reachable state each launched instance is in exactly one place. */
  lemma ExactlyOnePlace(env: Env, states: seq<State>, labels: seq<Label>, n: nat, i: Instance)
    requires Run(env, states, labels) && n < |states| && i in states[n].launched
    ensures exists place :: At(states[n], i, place) && forall other :: At(states[n], i, other) ==> other == place
  {
    RunKeepsInv(env, states, labels, n);
    var s := states[n];
    PlacesExclude(env, s, i);
    var place := if IsHeld(s, i) then Held else if IsRegistered(s, i) then Registered
                 else if i in s.terminated then Gone else if IsClaimed(s, i) then AwaitingTerminate else Lost;
    assert At(s, i, place);
    forall other | At(s, i, other) ensures other == place {
    }
  }

  /** A poll loop leaves every goroutine alone, starts at most new ones, and keeps
      every agent in the fleet. */
  ghost predicate PollShaped(s: State, s': State) {
    && s' == s.(agents := s'.agents, acts := s'.acts, scalers := s'.scalers)
    && SameFleet(s.agents, s'.agents)
    && (forall t :: t in s.acts ==> t in s'.acts && s'.acts[t] == s.acts[t])
    && (forall t :: t in s'.acts && t !in s.acts ==> s'.acts[t].phase == Marking || s'.acts[t].phase == Launching)
  }

  lemma DecideShape(env: Env, s: State, p: string, action: Action, u: nat)
    requires OfFleet(env, s, p) && u !in s.acts
    ensures PollShaped(s, AfterDecideUp(env, s, p, action, u))
    ensures PollShaped(s, AfterDecideDown(env, s, p, action, u))
  {
  }

  lemma PollShape(env: Env, s: State, p: string, x: PollStep)
    requires OfFleet(env, s, p) && PollEnabled(env, s, p, x)
    ensures PollShaped(s, PollApply(env, s, p, x))
  {
    match x
    case DecideUp(_, action, u) => DecideShape(env, s, p, action, u);
    case DecideDown(_, action, u) => DecideShape(env, s, p, action, u);
    case _ => CalmPoll(env, s, p, x); CalmPollShape(env, s, p, x);
  }

  lemma CalmPollShape(env: Env, s: State, p: string, x: PollStep)
    requires OfFleet(env, s, p) && PollEnabled(env, s, p, x) && !x.DecideUp? && !x.DecideDown?
    ensures var s' := PollApply(env, s, p, x); s' == s.(agents := s'.agents, scalers := s'.scalers)
  {
  }

  ghost predicate Names(a: Agent, i: Instance) { a.provider == i.provider != "" && a.providerID == i.providerID }

  /** The ways to lose an instance: TerminateNode fails, SpawnNode fails after the
      launch, the store is flushed over its record, or a manual registration blanks it. */
  ghost predicate Loses(s: State, l: Label, i: Instance) {
    match l
    case Act(t, Terminate(ok)) => !ok && t in s.acts && InstanceOf(s.acts[t]) == i
    case Act(t, LaunchLost(id)) => t in s.acts && Instance(s.acts[t].p, id) == i
    case Operator(Flush) => IsRegistered(s, i)
    case Operator(Manual(id, _)) => id in s.agents && Names(s.agents[id], i)
    case _ => false
  }

  lemma HeldStaysPlaced(env: Env, s: State, t: nat, l: Label)
    requires Inv(env, s) && Enabled(env, s, l) && t in s.acts && Holding(s.acts[t])
    ensures !At(Apply(env, s, l), InstanceOf(s.acts[t]), Lost)
  {
    if l.Act? && l.t == t {
      assert ActOk(env, s.acts[t], s.agents, s.origin, s.called);
      OwnStepStaysPlaced(env, s, t, l.act);
    } else {
      var s', i := Apply(env, s, l), InstanceOf(s.acts[t]);
      OtherActStays(env, s, t, l);
      assert t in s'.acts && Holding(s'.acts[t]) && InstanceOf(s'.acts[t]) == i;
    }
  }

  lemma OwnStepStaysPlaced(env: Env, s: State, t: nat, x: ActStep)
    requires Live(env, s, t) && ActEnabled(env, s, t, x) && Holding(s.acts[t])
    requires ActOk(env, s.acts[t], s.agents, s.origin, s.called)
    ensures !At(ActApply(env, s, t, x), InstanceOf(s.acts[t]), Lost)
  {
    var s', a := ActApply(env, s, t, x), s.acts[t];
    var i := InstanceOf(a);
    match x
    case RegisterNode(u) => assert a.node.id in s'.agents && Names(s'.agents[a.node.id], i);
    case BootOk => assert t in s'.acts && Holding(s'.acts[t]) && InstanceOf(s'.acts[t]) == i;
    case BootFail => assert t in s'.acts && WillTerminate(s'.acts[t]) && InstanceOf(s'.acts[t]) == i;
  }

  lemma ActLeavesOthers(env: Env, s: State, u: nat, x: ActStep, t: nat)
    requires Live(env, s, u) && ActEnabled(env, s, u, x) && t in s.acts && t != u
    ensures t in ActApply(env, s, u, x).acts && ActApply(env, s, u, x).acts[t] == s.acts[t]
  {
  }

  lemma OtherActStays(env: Env, s: State, t: nat, l: Label)
    requires Enabled(env, s, l) && t in s.acts && !(l.Act? && l.t == t)
    ensures t in Apply(env, s, l).acts && Apply(env, s, l).acts[t] == s.acts[t]
  {
    match l
    case Tick(_) =>
    case Poll(p, x) => PollShape(env, s, p, x);
    case Act(u, x) => ActLeavesOthers(env, s, u, x, t);
    case Operator(x) =>
  }

  lemma ClaimedStaysPlaced(env: Env, s: State, t: nat, l: Label)
    requires Enabled(env, s, l) && t in s.acts && WillTerminate(s.acts[t])
    requires !Loses(s, l, InstanceOf(s.acts[t]))
    ensures !At(Apply(env, s, l), InstanceOf(s.acts[t]), Lost)
  {
    var s' := Apply(env, s, l);
    var i := InstanceOf(s.acts[t]);
    if l == Act(t, Terminate(true)) {
      assert i in s'.terminated;
    } else {
      if l.Act? && l.t == t {
        assert l.act != Terminate(false);
      } else {
        OtherActStays(env, s, t, l);
      }
      assert t in s'.acts && WillTerminate(s'.acts[t]) && InstanceOf(s'.acts[t]) == i;
    }
  }

  /** The step takes the record of this id away or writes it anew. */
  ghost predicate Rewrites(s: State, l: Label, id: string) {
    match l
    case Act(t, Deregister) => t in s.acts && s.acts[t].node.id == id
    case Act(t, RegisterNode(_)) => t in s.acts && s.acts[t].node.id == id
    case Operator(Flush) => true
    case Operator(Manual(id', _)) => id' == id
    case _ => false
  }

  /** Any other step keeps the record's identity, and keeps it draining if it is. */
  lemma RecordStays(env: Env, s: State, id: string, l: Label)
    requires Enabled(env, s, l) && id in s.agents && !Rewrites(s, l, id)
    ensures var m := Apply(env, s, l).agents;
            && id in m && IdentityOf(m[id]) == IdentityOf(s.agents[id])
            && (s.agents[id].status == Draining ==> m[id].status == Draining)
  {
    match l
    case Tick(_) =>
    case Poll(p, x) => PollShape(env, s, p, x);
    case Act(t, x) => ActKeepsRecord(env, s, t, x, id);
    case Operator(x) => OpKeepsRecord(env, s, x, id);
  }

  lemma ActKeepsRecord(env: Env, s: State, t: nat, x: ActStep, id: string)
    requires Live(env, s, t) && ActEnabled(env, s, t, x)
    requires id in s.agents && !Rewrites(s, Act(t, x), id)
    ensures var m := ActApply(env, s, t, x).agents;
            && id in m && IdentityOf(m[id]) == IdentityOf(s.agents[id])
            && (s.agents[id].status == Draining ==> m[id].status == Draining)
  {
  }

  lemma OpKeepsRecord(env: Env, s: State, x: OpStep, id: string)
    requires OpEnabled(env, s, x) && id in s.agents && !Rewrites(s, Operator(x), id)
    ensures var m := OpApply(env, s, x).agents;
            && id in m && IdentityOf(m[id]) == IdentityOf(s.agents[id])
            && (s.agents[id].status == Draining ==> m[id].status == Draining)
  {
  }

  lemma DeregisterClaims(env: Env, s: State, id: string, t: nat, x: ActStep, i: Instance)
    requires Inv(env, s) && Live(env, s, t) && ActEnabled(env, s, t, x) && id in s.agents && Names(s.agents[id], i)
    requires Rewrites(s, Act(t, x), id)
    ensures IsClaimed(ActApply(env, s, t, x), i)
  {
    assert ActOk(env, s.acts[t], s.agents, s.origin, s.called);
    assert InstanceOf(s.acts[t]) == i;
    assert x == Deregister;
    var s' := ActApply(env, s, t, x);
    assert t in s'.acts && WillTerminate(s'.acts[t]) && InstanceOf(s'.acts[t]) == i;
  }

  lemma RewrittenStaysPlaced(env: Env, s: State, id: string, l: Label, i: Instance)
    requires Inv(env, s) && Enabled(env, s, l) && id in s.agents && Names(s.agents[id], i)
    requires Rewrites(s, l, id) && !Loses(s, l, i)
    ensures IsClaimed(Apply(env, s, l), i)
  {
    assert IsRegistered(s, i);
    DeregisterClaims(env, s, id, l.t, l.act, i);
  }

  lemma KeptStaysRegistered(env: Env, s: State, id: string, l: Label, i: Instance)
    requires Enabled(env, s, l) && id in s.agents && Names(s.agents[id], i) && !Rewrites(s, l, id)
    ensures IsRegistered(Apply(env, s, l), i)
  {
    RecordStays(env, s, id, l);
    var m := Apply(env, s, l).agents;
    assert id in m && Names(m[id], i);
  }

  lemma PlacedIsNotLost(s: State, i: Instance)
    requires IsRegistered(s, i) || IsClaimed(s, i)
    ensures !At(s, i, Lost)
  {
  }

  lemma RegisteredStaysPlaced(env: Env, s: State, id: string, l: Label, i: Instance)
    requires Inv(env, s) && Enabled(env, s, l) && id in s.agents && Names(s.agents[id], i)
    requires !Loses(s, l, i)
    ensures !At(Apply(env, s, l), i, Lost)
  {
    if Rewrites(s, l, id) {
      RewrittenStaysPlaced(env, s, id, l, i);
    } else {
      KeptStaysRegistered(env, s, id, l, i);
    }
    PlacedIsNotLost(Apply(env, s, l), i);
  }

  /** An instance is lost only in those ways. */
  lemma LostOnlyBy(env: Env, states: seq<State>, labels: seq<Label>, n: nat, i: Instance)
    requires Run(env, states, labels) && n < |labels|
    requires i in states[n+1].launched && At(states[n+1], i, Lost)
    requires !(i in states[n].launched && At(states[n], i, Lost))
    ensures Loses(states[n], labels[n], i)
  {
    RunKeepsInv(env, states, labels, n);
    assert Step(env, states[n], labels[n], states[n+1]);
    var s, l, s' := states[n], labels[n], states[n+1];
    if i !in s.launched {
      NewInstanceIsHeldOrLost(env, s, l, i);
    } else if IsHeld(s, i) {
      var t :| t in s.acts && Holding(s.acts[t]) && InstanceOf(s.acts[t]) == i;
      HeldStaysPlaced(env, s, t, l);
    } else if IsRegistered(s, i) {
      var id :| id in s.agents && Names(s.agents[id], i);
      if !Loses(s, l, i) { RegisteredStaysPlaced(env, s, id, l, i); }
    } else if IsClaimed(s, i) {
      var t :| t in s.acts && WillTerminate(s.acts[t]) && InstanceOf(s.acts[t]) == i;
      if !Loses(s, l, i) { ClaimedStaysPlaced(env, s, t, l); }
    } else {
      TerminatedGrows(env, s, l);
    }
  }

  lemma NewInstanceIsHeldOrLost(env: Env, s: State, l: Label, i: Instance)
    requires Enabled(env, s, l) && i !in s.launched && i in Apply(env, s, l).launched
    ensures Loses(s, l, i) || !At(Apply(env, s, l), i, Lost)
  {
    LaunchesOnlyByActs(env, s, l);
    var s' := Apply(env, s, l);
    match l.act
    case LaunchOk(node) => assert l.t in s'.acts && Holding(s'.acts[l.t]) && InstanceOf(s'.acts[l.t]) == i;
    case LaunchLost(_) =>
  }

  lemma LaunchesOnlyByActs(env: Env, s: State, l: Label)
    requires Enabled(env, s, l) && Apply(env, s, l).launched != s.launched
    ensures l.Act? && (l.act.LaunchOk? || l.act.LaunchLost?)
  {
    match l
    case Tick(_) =>
    case Poll(p, x) => PollShape(env, s, p, x);
    case Act(t, x) => ActLaunches(env, s, t, x);
    case Operator(_) =>
  }

  lemma ActLaunches(env: Env, s: State, t: nat, x: ActStep)
    requires Live(env, s, t) && ActEnabled(env, s, t, x) && ActApply(env, s, t, x).launched != s.launched
    ensures x.LaunchOk? || x.LaunchLost?
  {
  }

  lemma TerminatedGrows(env: Env, s: State, l: Label)
    requires Enabled(env, s, l)
    ensures s.terminated <= Apply(env, s, l).terminated
  {
    match l
    case Poll(p, x) => PollShape(env, s, p, x);
    case _ =>
  }

  // ------------------------------------------------------------ draining is final

  /** Once provisioned, and now draining or gone: nobody can register the id again. */
  ghost predicate Retired(s: State, id: string) {
    && id in s.origin
    && (id in s.agents ==> s.agents[id].status == Draining)
    && forall t :: t in s.acts && Holding(s.acts[t]) ==> s.acts[t].node.id != id
  }

  ghost predicate Reregisters(l: Label, id: string) {
    l.Operator? && l.op.Manual? && l.op.id == id
  }

  lemma MarkingRetires(env: Env, s: State, t: nat)
    requires Inv(env, s) && Enabled(env, s, Act(t, Mark))
    ensures Retired(Apply(env, s, Act(t, Mark)), s.acts[t].node.id)
  {
    assert ActOk(env, s.acts[t], s.agents, s.origin, s.called);
  }

  /** A goroutine that holds a node after a step held it before, or just launched it. */
  lemma HoldersAreOldOrFresh(env: Env, s: State, l: Label, t: nat)
    requires Enabled(env, s, l)
    requires t in Apply(env, s, l).acts && Holding(Apply(env, s, l).acts[t])
    ensures var id := Apply(env, s, l).acts[t].node.id;
            || (t in s.acts && Holding(s.acts[t]) && s.acts[t].node.id == id)
            || id !in s.seen
  {
    match l
    case Tick(_) =>
    case Poll(p, x) => PollShape(env, s, p, x);
    case Act(u, x) => ActHolders(env, s, u, x, t);
    case Operator(x) =>
  }

  lemma ActHolders(env: Env, s: State, u: nat, x: ActStep, t: nat)
    requires Live(env, s, u) && ActEnabled(env, s, u, x)
    requires t in ActApply(env, s, u, x).acts && Holding(ActApply(env, s, u, x).acts[t])
    ensures var id := ActApply(env, s, u, x).acts[t].node.id;
            || (t in s.acts && Holding(s.acts[t]) && s.acts[t].node.id == id)
            || id !in s.seen
  {
  }

  lemma OriginGrows(env: Env, s: State, l: Label, id: string)
    requires Enabled(env, s, l) && id in s.origin
    ensures id in Apply(env, s, l).origin
  {
    match l
    case Poll(p, x) => PollShape(env, s, p, x);
    case _ =>
  }

  /** A record that was not there before is registered by its holder or by hand. */
  lemma NewRecordIsRegistered(env: Env, s: State, l: Label, id: string)
    requires Enabled(env, s, l) && id !in s.agents && id in Apply(env, s, l).agents
    ensures || Reregisters(l, id)
            || (l.Act? && l.act.RegisterNode? && s.acts[l.t].node.id == id)
  {
    match l
    case Tick(_) =>
    case Poll(p, x) => PollShape(env, s, p, x);
    case Act(u, x) => ActAddsOnlyItsNode(env, s, u, x, id);
    case Operator(x) =>
  }

  lemma ActAddsOnlyItsNode(env: Env, s: State, u: nat, x: ActStep, id: string)
    requires Live(env, s, u) && ActEnabled(env, s, u, x) && id !in s.agents && id in ActApply(env, s, u, x).agents
    ensures x.RegisterNode? && s.acts[u].node.id == id
  {
  }

  lemma RetiredStays(env: Env, s: State, l: Label, id: string)
    requires Inv(env, s) && Enabled(env, s, l) && Retired(s, id) && !Reregisters(l, id)
    ensures Retired(Apply(env, s, l), id)
  {
    var s' := Apply(env, s, l);
    OriginGrows(env, s, l, id);
    forall t | t in s'.acts && Holding(s'.acts[t]) ensures s'.acts[t].node.id != id {
      HoldersAreOldOrFresh(env, s, l, t);
    }
    if id in s'.agents {
      if id in s.agents && !Rewrites(s, l, id) {
        RecordStays(env, s, id, l);
      } else if id !in s.agents {
        NewRecordIsRegistered(env, s, l, id);
      }
    }
  }

  lemma {:induction false} RetiredRun(env: Env, states: seq<State>, labels: seq<Label>, i: nat, j: nat, id: string)
    requires Run(env, states, labels) && i <= j < |states| && Retired(states[i], id)
    requires forall k :: i <= k < j ==> !Reregisters(labels[k], id)
    ensures Retired(states[j], id)
    decreases j
  {
    if i < j {
      RetiredRun(env, states, labels, i, j - 1, id);
      RunKeepsInv(env, states, labels, j - 1);
      assert Step(env, states[j-1], labels[j-1], states[j]);
      RetiredStays(env, states[j-1], labels[j-1], id);
    }
  }

  /** From the moment SetDraining takes effect, and as long as nobody registers the
      id by hand, the agent is draining or absent, whatever else happens. */
  lemma DrainingIsFinal(env: Env, states: seq<State>, labels: seq<Label>, i: nat, j: nat, t: nat)
    requires Run(env, states, labels) && i < j < |states|
    requires labels[i] == Act(t, Mark) && t in states[i].acts
    requires forall k :: i < k < j ==> !Reregisters(labels[k], states[i].acts[t].node.id)
    ensures Retired(states[j], states[i].acts[t].node.id)
  {
    RunKeepsInv(env, states, labels, i);
    assert Step(env, states[i], labels[i], states[i+1]);
    MarkingRetires(env, states[i], t);
    RetiredRun(env, states, labels, i + 1, j, states[i].acts[t].node.id);
  }

  lemma RetiredIsNotPicked(s: State, id: string, l: seq<Agent>, p: string, c: Option<Agent>)
    requires Retired(s, id) && Listing(s.agents, l) && IsRemovalChoice(ManagedOf(l, p), c)
    ensures c.Some? ==> c.value.id != id
  {
    if c.Some? { ManagedOfMembers(l, p, c.value); }
  }

  /** From that moment on no listing offers the agent for work, no verdict judges it,
      and no autoscaler picks it for removal. */
  lemma DrainingIsNotPicked(env: Env, states: seq<State>, labels: seq<Label>, i: nat, j: nat, t: nat)
    requires Run(env, states, labels) && i < j < |labels|
    requires labels[i] == Act(t, Mark) && t in states[i].acts
    requires forall k :: i < k < j ==> !Reregisters(labels[k], states[i].acts[t].node.id)
    ensures var id := states[i].acts[t].node.id;
            && (forall l :: Listing(states[j].agents, l) ==> forall a :: a in OnlineOf(l) ==> a.id != id)
            && (labels[j].Poll? && labels[j].poll.Evaluate? ==>
                  forall a :: a in ManagedOf(OnlineOf(labels[j].poll.l), labels[j].p) ==> a.id != id)
            && (labels[j].Poll? && labels[j].poll.DecideDown? && labels[j].poll.action.RemoveNode? ==>
                  labels[j].poll.action.target.id != id)
  {
    var s, id := states[j], states[i].acts[t].node.id;
    DrainingIsFinal(env, states, labels, i, j, t);
    forall l, a | Listing(s.agents, l) && a in OnlineOf(l) ensures a.id != id { OnlineOfMembers(l, a); }
    assert Step(env, states[j], labels[j], states[j+1]);
    match labels[j]
    case Poll(p, Evaluate(l)) =>
      forall a | a in ManagedOf(OnlineOf(l), p) ensures a.id != id { ManagedOfMembers(OnlineOf(l), p, a); }
    case Poll(p, DecideDown(l, RemoveNode(a), u)) =>
      assert IsRemovalChoice(ManagedOf(l, p), Some(a));
      RetiredIsNotPicked(s, id, l, p, Some(a));
    case _ =>
  }

  // ------------------------------------------------------------ a drain is patient

  /** The goroutine is draining its node and has not deregistered it. */
  ghost predicate InDrain(a: Activity) {
    (a.role == ScaleDown || a.role == Upgrade) && (a.phase == Waiting || a.phase == Deregistering)
  }

  /** The same goroutine, draining the same node since the same time. */
  ghost predicate SameDrain(s: State, s': State, t: nat) {
    && t in s.acts && t in s'.acts && InDrain(s.acts[t]) && InDrain(s'.acts[t])
    && s'.acts[t].node == s.acts[t].node && s'.acts[t].since == s.acts[t].since
  }

  /** What lets goroutine t stop waiting. */
  ghost predicate Relents(s: State, l: Label, t: nat) {
    && t in s.acts && l.Act? && l.t == t
    && ((l.act.ObserveIdle? && l.act.ns.activeTasks == 0) || s.acts[t].since + DRAIN_TIMEOUT <= s.clock)
  }

  ghost predicate DrainShaped(s: State, l: Label, s': State, t: nat) {
    t in s'.acts && InDrain(s'.acts[t]) ==>
      || (l == Act(t, Mark) && s'.acts[t].since == s.clock && s'.acts[t].phase == Waiting && !SameDrain(s, s', t))
      || (SameDrain(s, s', t) && (s'.acts[t].phase != s.acts[t].phase ==> Relents(s, l, t)))
  }

  lemma OwnDrainStep(env: Env, s: State, x: ActStep, t: nat)
    requires Live(env, s, t) && ActEnabled(env, s, t, x) && RoleFits(s.acts[t])
    ensures DrainShaped(s, Act(t, x), ActApply(env, s, t, x), t)
  {
  }

  lemma NewActIsNoDrain(env: Env, s: State, u: nat, x: ActStep, t: nat)
    requires Live(env, s, u) && ActEnabled(env, s, u, x) && t !in s.acts && t in ActApply(env, s, u, x).acts
    ensures !InDrain(ActApply(env, s, u, x).acts[t])
  {
  }

  lemma ActDrainStep(env: Env, s: State, u: nat, x: ActStep, t: nat)
    requires Inv(env, s) && Live(env, s, u) && ActEnabled(env, s, u, x)
    ensures DrainShaped(s, Act(u, x), ActApply(env, s, u, x), t)
  {
    if t !in s.acts {
      if t in ActApply(env, s, u, x).acts { NewActIsNoDrain(env, s, u, x, t); }
    } else if u == t {
      assert ActOk(env, s.acts[t], s.agents, s.origin, s.called);
      OwnDrainStep(env, s, x, t);
    } else {
      ActLeavesOthers(env, s, u, x, t);
    }
  }

  lemma DrainStep(env: Env, s: State, l: Label, s': State, t: nat)
    requires Inv(env, s) && Step(env, s, l, s')
    ensures DrainShaped(s, l, s', t) && s.clock <= s'.clock
  {
    ClockGrows(env, s, l);
    match l
    case Tick(_) =>
    case Poll(p, x) => PollShape(env, s, p, x);
    case Act(u, x) => ActDrainStep(env, s, u, x, t);
    case Operator(x) => OpDrainStep(env, s, x, t);
  }

  lemma OpDrainStep(env: Env, s: State, x: OpStep, t: nat)
    requires OpEnabled(env, s, x)
    ensures DrainShaped(s, Operator(x), OpApply(env, s, x), t)
  {
  }

  lemma ClockGrows(env: Env, s: State, l: Label)
    requires Enabled(env, s, l)
    ensures s.clock <= Apply(env, s, l).clock
  {
    match l
    case Poll(p, x) => PollShape(env, s, p, x);
    case _ =>
  }

  /** The drain in progress at n began when labels[m] marked its node. */
  ghost predicate BeganAt(states: seq<State>, labels: seq<Label>, m: nat, n: nat, t: nat)
    requires n < |states| && |states| == |labels| + 1
  {
    && m < n && labels[m] == Act(t, Mark)
    && t in states[n].acts && states[n].acts[t].since == states[m].clock
    && forall k :: m < k <= n ==> SameDrain(states[k], states[n], t)
  }

  /** Between its mark and n the drain saw its node idle, or five minutes went by. */
  ghost predicate HasWaited(states: seq<State>, labels: seq<Label>, m: nat, n: nat, t: nat)
    requires n < |states| && |states| == |labels| + 1
  {
    || (m < n && states[m].clock + DRAIN_TIMEOUT <= states[n].clock)
    || exists k :: m < k < n && labels[k].Act? && labels[k].t == t && labels[k].act.ObserveIdle?
                   && labels[k].act.ns.activeTasks == 0
  }

  lemma BeganStays(states: seq<State>, labels: seq<Label>, m: nat, n: nat, t: nat)
    requires 0 < n < |states| && |states| == |labels| + 1
    requires BeganAt(states, labels, m, n - 1, t) && SameDrain(states[n-1], states[n], t)
    ensures BeganAt(states, labels, m, n, t)
  {
  }

  lemma WaitedStays(states: seq<State>, labels: seq<Label>, m: nat, n: nat, t: nat)
    requires 0 < n < |states| && |states| == |labels| + 1 && states[n-1].clock <= states[n].clock
    requires BeganAt(states, labels, m, n - 1, t)
    requires HasWaited(states, labels, m, n - 1, t) || Relents(states[n-1], labels[n-1], t)
    ensures HasWaited(states, labels, m, n, t)
  {
  }

  ghost predicate DrainsShaped(states: seq<State>, labels: seq<Label>, t: nat) {
    && |states| == |labels| + 1 && t !in states[0].acts
    && forall k :: 0 <= k < |labels| ==>
         DrainShaped(states[k], labels[k], states[k+1], t) && states[k].clock <= states[k+1].clock
  }

  lemma {:induction false} DrainBegan(states: seq<State>, labels: seq<Label>, n: nat, t: nat) returns (m: nat)
    requires DrainsShaped(states, labels, t) && n < |states| && t in states[n].acts && InDrain(states[n].acts[t])
    ensures BeganAt(states, labels, m, n, t)
    ensures states[n].acts[t].phase == Deregistering ==> HasWaited(states, labels, m, n, t)
  {
    assert DrainShaped(states[n-1], labels[n-1], states[n-1+1], t);
    if SameDrain(states[n-1], states[n], t) {
      m := DrainBegan(states, labels, n - 1, t);
      BeganStays(states, labels, m, n, t);
      if states[n].acts[t].phase == Deregistering { WaitedStays(states, labels, m, n, t); }
    } else {
      m := n - 1;
    }
  }

  lemma RunDrainsShaped(env: Env, states: seq<State>, labels: seq<Label>, t: nat)
    requires Run(env, states, labels)
    ensures DrainsShaped(states, labels, t)
  {
    forall k | 0 <= k < |labels|
      ensures DrainShaped(states[k], labels[k], states[k+1], t) && states[k].clock <= states[k+1].clock
    {
      RunStep(env, states, labels, k);
      DrainStep(env, states[k], labels[k], states[k+1], t);
    }
  }

  /** A drain takes its node out of the store only after it has seen it without an
      active task since the moment it was set draining, or after five minutes. */
  lemma DrainsArePatient(env: Env, states: seq<State>, labels: seq<Label>, n: nat, t: nat)
    requires Run(env, states, labels) && n < |labels| && labels[n] == Act(t, Deregister)
    requires t in states[n].acts && (states[n].acts[t].role == ScaleDown || states[n].acts[t].role == Upgrade)
    ensures exists m :: BeganAt(states, labels, m, n, t) && HasWaited(states, labels, m, n, t)
  {
    assert Step(env, states[n], labels[n], states[n+1]);
    RunDrainsShaped(env, states, labels, t);
    var m := DrainBegan(states, labels, n, t);
  }
}
