/** Every record of the store and every instance of the cloud, told from the steps of the
    run alone: who put it there, which calls changed it, and what took it away. */
module FleetRecords {
  import opened Models
  import opened AgentRegistry
  import opened FleetModel
  import opened FleetIdentity
  import opened FleetSafety

  // ------------------------------------------------------------- what a step is about

  /** An autoscaler's probe of the agent is answered, or not. */
  ghost predicate Probes(s: State, l: Label, id: string) {
    && l.Poll? && (l.poll.ProbeReply? || l.poll.ProbeError?) && l.p in s.scalers
    && Probing(s.scalers[l.p].pc) && s.scalers[l.p].pc.todo[0].id == id
  }

  ghost predicate Falls(s: State, l: Label, id: string) { Probes(s, l, id) && l.poll.ProbeError? }

  /** A report of the agent arrives: by a probe or from the health poller. */
  ghost predicate Reports(s: State, l: Label, id: string, ns: NodeStatus) {
    (Probes(s, l, id) && l.poll == ProbeReply(ns)) || l == Operator(Report(id, ns))
  }

  ghost predicate Beats(l: Label, id: string, count: int) { l == Operator(Heartbeat(id, count)) }

  ghost predicate Heard(s: State, l: Label, id: string) {
    (exists ns :: Reports(s, l, id, ns)) || (exists count :: Beats(l, id, count))
  }

  ghost predicate CallOn(s: State, l: Label, id: string) { l.Act? && l.t in s.acts && s.acts[l.t].node.id == id }

  ghost predicate Marks(s: State, l: Label, id: string) { CallOn(s, l, id) && l.act.Mark? }

  ghost predicate Registers(s: State, l: Label, id: string) { CallOn(s, l, id) && l.act.RegisterNode? }

  ghost predicate Removes(s: State, l: Label, id: string) { (CallOn(s, l, id) && l.act.Deregister?) || l == Operator(Flush) }

  ghost predicate Enrolls(l: Label, id: string) { l.Operator? && l.op.Manual? && l.op.id == id }

  // ---------------------------------------------------------------------- the record

  ghost function RecordOf(m: Store, id: string): Option<Agent> { if id in m then Some(m[id]) else None }

  function Awake(status: AgentStatus): AgentStatus { if status == Offline then Online else status }

  /** The agent's record after the step, field by field. */
  ghost function RecordAfter(was: Option<Agent>, s: State, l: Label, id: string): Option<Agent> {
    if Removes(s, l, id) then None
    else if Registers(s, l, id) then
      var a := s.acts[l.t];
      Some(Agent(id, a.node.address, 0, s.clock, Offline, a.node.providerID, a.node.instanceType, a.p, None))
    else if Enrolls(l, id) then Some(Agent(id, l.op.address, 0, s.clock, Online, "", "", "", None))
    else if was.None? then None
    else if Marks(s, l, id) then Some(was.value.(status := Draining))
    else if Falls(s, l, id) then Some(if was.value.status == Draining then was.value else was.value.(status := Offline))
    else if Probes(s, l, id) then Some(Told(was.value, l.poll.ns))
    else if l.Operator? && l.op.Report? && l.op.id == id then Some(Told(was.value, l.op.ns))
    else if l.Operator? && l.op.Heartbeat? && l.op.id == id then
      Some(was.value.(activeCount := l.op.n, lastHeartbeat := s.clock, status := Awake(was.value.status)))
    else was
  }

  function Told(a: Agent, ns: NodeStatus): Agent {
    a.(nodeStatus := Some(ns), activeCount := ns.activeTasks, lastHeartbeat := ns.collectedAt, status := Awake(a.status))
  }

  lemma PollRecord(env: Env, s: State, p: string, x: PollStep, id: string)
    requires OfFleet(env, s, p) && PollEnabled(env, s, p, x)
    ensures RecordOf(PollApply(env, s, p, x).agents, id) == RecordAfter(RecordOf(s.agents, id), s, Poll(p, x), id)
  {
    match x
    case DecideUp(_, action, u) =>
    case DecideDown(_, action, u) =>
    case _ =>
  }

  lemma ActRecord(env: Env, s: State, t: nat, x: ActStep, id: string)
    requires Live(env, s, t) && ActEnabled(env, s, t, x)
    ensures RecordOf(ActApply(env, s, t, x).agents, id) == RecordAfter(RecordOf(s.agents, id), s, Act(t, x), id)
  {
    match x
    case Deregister => DeregisterDropsRecord(s, t);
    case _ =>
  }

  lemma OperatorRecord(env: Env, s: State, x: OpStep, id: string)
    requires OpEnabled(env, s, x)
    ensures RecordOf(OpApply(env, s, x).agents, id) == RecordAfter(RecordOf(s.agents, id), s, Operator(x), id)
  {
  }

  /** Each step of a run leaves every record as the calls made in it say, and touches no
      other record. */
  lemma RecordsFollowTheirCalls(env: Env, states: seq<State>, labels: seq<Label>, n: nat, id: string)
    requires Run(env, states, labels) && n < |labels|
    ensures RecordOf(states[n+1].agents, id) == RecordAfter(RecordOf(states[n].agents, id), states[n], labels[n], id)
  {
    assert Step(env, states[n], labels[n], states[n+1]);
    match labels[n]
    case Tick(_) =>
    case Poll(p, x) => PollRecord(env, states[n], p, x, id);
    case Act(t, x) => ActRecord(env, states[n], t, x, id);
    case Operator(x) => OperatorRecord(env, states[n], x, id);
  }

  // ------------------------------------------------------------- who is online, and since when

  ghost predicate HeardBetween(states: seq<State>, labels: seq<Label>, m: nat, n: nat, id: string) {
    exists k :: m <= k < n && k < |states| && k < |labels| && (Heard(states[k], labels[k], id) || Enrolls(labels[k], id))
  }

  lemma HearingIsHeard(s: State, l: Label, id: string)
    ensures Probes(s, l, id) && l.poll.ProbeReply? ==> Heard(s, l, id)
    ensures l.Operator? && (l.op.Report? || l.op.Heartbeat?) && l.op.id == id ==> Heard(s, l, id)
  {
    if Probes(s, l, id) && l.poll.ProbeReply? { assert Reports(s, l, id, l.poll.ns); }
    if l.Operator? && l.op.Report? && l.op.id == id { assert Reports(s, l, id, l.op.ns); }
    if l.Operator? && l.op.Heartbeat? && l.op.id == id { assert Beats(l, id, l.op.n); }
  }

  predicate Asleep(a: Option<Agent>) { a.None? || a.value.status == Offline || a.value.status == Draining }

  lemma StaysAsleep(was: Option<Agent>, s: State, l: Label, id: string)
    requires Asleep(was) && !Heard(s, l, id) && !Enrolls(l, id)
    ensures Asleep(RecordAfter(was, s, l, id))
  {
    HearingIsHeard(s, l, id);
  }

  lemma {:induction false} SleepsUntilHeard(env: Env, states: seq<State>, labels: seq<Label>, m: nat, n: nat, id: string)
    requires Run(env, states, labels) && m <= n < |states| && Asleep(RecordOf(states[m].agents, id))
    requires !HeardBetween(states, labels, m, n, id)
    ensures Asleep(RecordOf(states[n].agents, id))
    decreases n
  {
    if m < n {
      var k := n - 1;
      SleepsUntilHeard(env, states, labels, m, k, id);
      RecordsFollowTheirCalls(env, states, labels, k, id);
      StaysAsleep(RecordOf(states[k].agents, id), states[k], labels[k], id);
    }
  }

  /** A node that a spawner registers is offered to nobody before it is heard of: it is in
      no listing of online agents until a probe of it is answered, a report or a heartbeat
      of it arrives, or someone registers it by hand. */
  lemma RegisteredWaitsToBeHeard(env: Env, states: seq<State>, labels: seq<Label>, m: nat, n: nat, id: string)
    requires Run(env, states, labels) && m < n < |states| && Registers(states[m], labels[m], id)
    requires !HeardBetween(states, labels, m + 1, n, id)
    ensures id in states[n].agents ==> states[n].agents[id].status == Offline || states[n].agents[id].status == Draining
    ensures forall l :: Listing(states[n].agents, l) ==> forall a :: a in OnlineOf(l) ==> a.id != id
  {
    RecordsFollowTheirCalls(env, states, labels, m, id);
    SleepsUntilHeard(env, states, labels, m + 1, n, id);
    forall l, a | Listing(states[n].agents, l) && a in OnlineOf(l) ensures a.id != id { OnlineOfMembers(l, a); }
  }

  ghost predicate IsOnlineAt(states: seq<State>, n: nat, id: string) {
    n < |states| && id in states[n].agents && states[n].agents[id].status == Online
  }

  /** From k to n nothing put the agent offline, set it draining, replaced or removed it. */
  ghost predicate Undisturbed(states: seq<State>, labels: seq<Label>, k: nat, n: nat, id: string) {
    forall j :: k <= j < n && j < |states| && j < |labels| ==>
      !Falls(states[j], labels[j], id) && !Marks(states[j], labels[j], id)
      && !Removes(states[j], labels[j], id) && !Registers(states[j], labels[j], id)
  }

  lemma OnlineStep(was: Option<Agent>, s: State, l: Label, id: string)
    requires var a := RecordAfter(was, s, l, id); a.Some? && a.value.status == Online
    ensures !Falls(s, l, id) && !Marks(s, l, id) && !Removes(s, l, id) && !Registers(s, l, id)
    ensures (was.Some? && was.value.status == Online) || Heard(s, l, id) || Enrolls(l, id)
  {
    HearingIsHeard(s, l, id);
  }

  ghost predicate CameOnline(states: seq<State>, labels: seq<Label>, k: nat, id: string) {
    || (k == 0 && IsOnlineAt(states, 0, id))
    || (0 < k <= |states| && k <= |labels| && (Heard(states[k-1], labels[k-1], id) || Enrolls(labels[k-1], id)))
  }

  lemma UndisturbedStays(states: seq<State>, labels: seq<Label>, k: nat, n: nat, id: string)
    requires k <= n && Undisturbed(states, labels, k, n, id) && n < |states| && n < |labels|
    requires !Falls(states[n], labels[n], id) && !Marks(states[n], labels[n], id)
    requires !Removes(states[n], labels[n], id) && !Registers(states[n], labels[n], id)
    ensures Undisturbed(states, labels, k, n + 1, id)
  {
  }

  /** Whoever is online was so at the start or has been heard of or enrolled since, and
      nothing has taken it off since then. */
  lemma {:induction false} OnlineSince(env: Env, states: seq<State>, labels: seq<Label>, n: nat, id: string) returns (k: nat)
    requires Run(env, states, labels) && IsOnlineAt(states, n, id)
    ensures k <= n && Undisturbed(states, labels, k, n, id) && CameOnline(states, labels, k, id)
    decreases n
  {
    if n == 0 { return 0; }
    var m := n - 1;
    RecordsFollowTheirCalls(env, states, labels, m, id);
    OnlineStep(RecordOf(states[m].agents, id), states[m], labels[m], id);
    if Heard(states[m], labels[m], id) || Enrolls(labels[m], id) { return n; }
    k := OnlineSince(env, states, labels, m, id);
    UndisturbedStays(states, labels, k, m, id);
  }

  // ------------------------------------------------------------------------ instances

  /** The step launches the instance. */
  ghost predicate Launches(s: State, l: Label, i: Instance) {
    && l.Act? && l.t in s.acts
    && match l.act
       case LaunchOk(node) => i == Instance(s.acts[l.t].p, node.providerID)
       case LaunchLost(providerID) => i == Instance(s.acts[l.t].p, providerID)
       case _ => false
  }

  /** The step calls TerminateNode on the instance. */
  ghost predicate Terminates(s: State, l: Label, i: Instance) {
    && l.Act? && l.t in s.acts && l.act.Terminate?
    && i == Instance(s.acts[l.t].p, s.acts[l.t].node.providerID)
  }

  lemma ActInstances(env: Env, s: State, t: nat, x: ActStep, i: Instance)
    requires Live(env, s, t) && ActEnabled(env, s, t, x)
    ensures var s' := ActApply(env, s, t, x);
            && (i in s'.launched <==> i in s.launched || Launches(s, Act(t, x), i))
            && (i in s'.called <==> i in s.called || Terminates(s, Act(t, x), i))
            && (i in s'.terminated <==> i in s.terminated || (Terminates(s, Act(t, x), i) && x.ok))
  {
  }

  lemma InstanceStep(env: Env, s: State, l: Label, i: Instance)
    requires Enabled(env, s, l)
    ensures i in Apply(env, s, l).launched <==> i in s.launched || Launches(s, l, i)
    ensures i in Apply(env, s, l).called <==> i in s.called || Terminates(s, l, i)
    ensures i in Apply(env, s, l).terminated <==> i in s.terminated || (Terminates(s, l, i) && l.act.ok)
  {
    match l
    case Poll(p, x) => PollShape(env, s, p, x);
    case Act(t, x) => ActInstances(env, s, t, x, i);
    case _ =>
  }

  ghost predicate WasLaunched(states: seq<State>, labels: seq<Label>, n: nat, i: Instance) {
    exists k :: 0 <= k < n && k < |states| && k < |labels| && Launches(states[k], labels[k], i)
  }

  ghost predicate WasCalled(states: seq<State>, labels: seq<Label>, n: nat, i: Instance) {
    exists k :: 0 <= k < n && k < |states| && k < |labels| && Terminates(states[k], labels[k], i)
  }

  ghost predicate WasEnded(states: seq<State>, labels: seq<Label>, n: nat, i: Instance) {
    exists k :: 0 <= k < n && k < |states| && k < |labels| && Terminates(states[k], labels[k], i) && labels[k].act.ok
  }

  lemma OneMoreCall(states: seq<State>, labels: seq<Label>, n: nat, i: Instance)
    requires n < |states| && n < |labels|
    ensures WasLaunched(states, labels, n + 1, i) <==> WasLaunched(states, labels, n, i) || Launches(states[n], labels[n], i)
    ensures WasCalled(states, labels, n + 1, i) <==> WasCalled(states, labels, n, i) || Terminates(states[n], labels[n], i)
    ensures WasEnded(states, labels, n + 1, i) <==>
              WasEnded(states, labels, n, i) || (Terminates(states[n], labels[n], i) && labels[n].act.ok)
  {
  }

  /** The instances there are, those TerminateNode was called on, and those it ended, are
      exactly those that some call of the run launched, named, or ended. */
  lemma {:induction false} InstancesFollowTheCalls(env: Env, states: seq<State>, labels: seq<Label>, n: nat, i: Instance)
    requires Run(env, states, labels) && n < |states|
    ensures i in states[n].launched <==> i in states[0].launched || WasLaunched(states, labels, n, i)
    ensures i in states[n].called <==> WasCalled(states, labels, n, i)
    ensures i in states[n].terminated <==> WasEnded(states, labels, n, i)
  {
    if n > 0 {
      var m := n - 1;
      InstancesFollowTheCalls(env, states, labels, m, i);
      RunStep(env, states, labels, m);
      InstanceStep(env, states[m], labels[m], i);
      OneMoreCall(states, labels, m, i);
    }
  }
}
