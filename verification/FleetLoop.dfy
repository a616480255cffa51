/** The order of one autoscaler's own steps: a sweep asks every agent it listed before the
    loop judges them, and the loop waits for the spawn or the mark that it started. */
module FleetLoop {
  import opened Models
  import opened AgentRegistry
  import opened FleetModel
  import opened FleetIdentity
  import opened FleetReach
  import opened FleetTiming
  import opened FleetDecisions
  import opened FleetSamples
  import opened FleetSafety

  // --------------------------------------------------------------- the sweep is complete

  /** At j the loop is at agent a: it skips it if the listing shows it draining, asks it
      otherwise. */
  ghost predicate VisitsAt(states: seq<State>, labels: seq<Label>, j: nat, p: string, a: Agent) {
    && j < |states| && j < |labels| && IsOwn(labels[j], p) && p in states[j].scalers
    && Probing(states[j].scalers[p].pc) && states[j].scalers[p].pc.todo[0] == a
    && if a.status == Draining then labels[j].poll.ProbeSkip? else labels[j].poll.ProbeReply? || labels[j].poll.ProbeError?
  }

  /** An agent of its own provider that replied was recorded. */
  ghost predicate Noted(states: seq<State>, labels: seq<Label>, j: nat, n: nat, p: string, a: Agent) {
    j < |labels| && IsOwn(labels[j], p) && labels[j].poll.ProbeReply? && a.provider == p ==>
      exists r, sample :: j < r < n && RecordsAt(states, labels, r, p, a.id, sample)
                          && sample.cpu == labels[j].poll.ns.cpuPercent && sample.mem == labels[j].poll.ns.memPercent
  }

  ghost predicate Visited(states: seq<State>, labels: seq<Label>, m: nat, n: nat, p: string, a: Agent) {
    exists j :: m < j < n && VisitsAt(states, labels, j, p, a) && Noted(states, labels, j, n, p, a)
  }

  ghost predicate ListsAt(labels: seq<Label>, m: nat, p: string, l: seq<Agent>) {
    m < |labels| && labels[m] == Poll(p, PollStart(l))
  }

  /** The sweep that began at m over l has come to l[k..]. */
  ghost predicate SweptTo(states: seq<State>, labels: seq<Label>, m: nat, n: nat, p: string, l: seq<Agent>, k: nat) {
    && m < n && ListsAt(labels, m, p, l) && k <= |l|
    && (forall j :: m < j < n && j < |labels| ==> !(IsOwn(labels[j], p) && labels[j].poll.PollStart?))
    && forall i :: 0 <= i < k ==> Visited(states, labels, m, n, p, l[i])
  }

  /** The record the loop is about to make is of the reply to its last probe. */
  ghost predicate Answering(states: seq<State>, labels: seq<Label>, m: nat, n: nat, p: string, pc: Pc) {
    pc.Recording? ==> exists j :: && m < j < n && VisitsAt(states, labels, j, p, pc.agent)
                                  && labels[j] == Poll(p, ProbeReply(pc.ns))
  }

  ghost predicate SweepingAt(states: seq<State>, labels: seq<Label>, m: nat, n: nat, p: string, l: seq<Agent>, k: nat, pc: Pc) {
    match pc
    case Sampling(_, todo, _) => SweptTo(states, labels, m, n, p, l, k) && todo == l[k..]
    case Recording(_, a, _, todo, _) =>
      && SweptTo(states, labels, m, n, p, l, k) && k < |l| && l[k] == a && todo == l[k+1..]
      && Answering(states, labels, m, n, p, pc)
    case _ => true
  }

  ghost predicate Sweeping(states: seq<State>, labels: seq<Label>, n: nat, p: string, pc: Pc) {
    pc.Sampling? || pc.Recording? ==>
      exists m: nat, k: nat, l: seq<Agent> :: SweepingAt(states, labels, m, n, p, l, k, pc)
  }

  lemma SweptStays(states: seq<State>, labels: seq<Label>, m: nat, n: nat, p: string, l: seq<Agent>, k: nat)
    requires SweptTo(states, labels, m, n, p, l, k) && n < |labels| && !(IsOwn(labels[n], p) && labels[n].poll.PollStart?)
    ensures SweptTo(states, labels, m, n + 1, p, l, k)
  {
    forall i | 0 <= i < k ensures Visited(states, labels, m, n + 1, p, l[i]) {
      VisitedStays(states, labels, m, n, p, l[i]);
    }
  }

  lemma VisitedStays(states: seq<State>, labels: seq<Label>, m: nat, n: nat, p: string, a: Agent)
    requires Visited(states, labels, m, n, p, a)
    ensures Visited(states, labels, m, n + 1, p, a)
  {
    var j :| m < j < n && VisitsAt(states, labels, j, p, a) && Noted(states, labels, j, n, p, a);
    assert Noted(states, labels, j, n + 1, p, a);
  }

  lemma SweepingStays(states: seq<State>, labels: seq<Label>, n: nat, p: string, pc: Pc)
    requires Sweeping(states, labels, n, p, pc) && n < |labels| && !IsOwn(labels[n], p)
    ensures Sweeping(states, labels, n + 1, p, pc)
  {
    if pc.Sampling? || pc.Recording? {
      var m: nat, k: nat, l: seq<Agent> :| SweepingAt(states, labels, m, n, p, l, k, pc);
      SweptStays(states, labels, m, n, p, l, k);
      if pc.Recording? {
        var j :| m < j < n && VisitsAt(states, labels, j, p, pc.agent) && labels[j] == Poll(p, ProbeReply(pc.ns));
      }
      assert SweepingAt(states, labels, m, n + 1, p, l, k, pc);
    }
  }

  lemma StartSweeps(states: seq<State>, labels: seq<Label>, n: nat, p: string, l: seq<Agent>, pc: Pc)
    requires ListsAt(labels, n, p, l) && pc.Sampling? && pc.todo == l
    ensures Sweeping(states, labels, n + 1, p, pc)
  {
    assert SweepingAt(states, labels, n, n + 1, p, l, 0, pc);
  }

  /** The loop passes an agent that it does not record. */
  lemma PassSweeps(states: seq<State>, labels: seq<Label>, n: nat, p: string, pc: Pc, pc': Pc)
    requires n < |labels| && n < |states| && p in states[n].scalers && states[n].scalers[p].pc == pc
    requires Sweeping(states, labels, n, p, pc) && Probing(pc) && VisitsAt(states, labels, n, p, pc.todo[0])
    requires pc'.Sampling? && pc'.todo == pc.todo[1..] && (labels[n].poll.ProbeReply? ==> pc.todo[0].provider != p)
    ensures Sweeping(states, labels, n + 1, p, pc')
  {
    var m: nat, k: nat, l: seq<Agent> :| SweepingAt(states, labels, m, n, p, l, k, pc);
    SweptStays(states, labels, m, n, p, l, k);
    assert l[k] == pc.todo[0] && Noted(states, labels, n, n + 1, p, l[k]);
    assert Visited(states, labels, m, n + 1, p, l[k]);
    assert l[k..][1..] == l[k+1..];
    assert SweepingAt(states, labels, m, n + 1, p, l, k + 1, pc');
  }

  lemma ReplySweeps(states: seq<State>, labels: seq<Label>, n: nat, p: string, pc: Pc, pc': Pc)
    requires n < |labels| && n < |states| && p in states[n].scalers && states[n].scalers[p].pc == pc
    requires Sweeping(states, labels, n, p, pc) && Probing(pc) && VisitsAt(states, labels, n, p, pc.todo[0])
    requires pc'.Recording? && pc'.agent == pc.todo[0] && pc'.todo == pc.todo[1..] && labels[n] == Poll(p, ProbeReply(pc'.ns))
    ensures Sweeping(states, labels, n + 1, p, pc')
  {
    var m: nat, k: nat, l: seq<Agent> :| SweepingAt(states, labels, m, n, p, l, k, pc);
    SweptStays(states, labels, m, n, p, l, k);
    assert l[k..][1..] == l[k+1..];
    assert SweepingAt(states, labels, m, n + 1, p, l, k, pc');
  }

  lemma RecordSweeps(states: seq<State>, labels: seq<Label>, n: nat, p: string, pc: Pc, pc': Pc)
    requires n < |labels| && n < |states| && p in states[n].scalers && states[n].scalers[p].pc == pc
    requires Sweeping(states, labels, n, p, pc) && pc.Recording? && labels[n] == Poll(p, Record)
    requires pc'.Sampling? && pc'.todo == pc.todo
    ensures Sweeping(states, labels, n + 1, p, pc')
  {
    var m: nat, k: nat, l: seq<Agent> :| SweepingAt(states, labels, m, n, p, l, k, pc);
    SweptStays(states, labels, m, n, p, l, k);
    var j :| m < j < n && VisitsAt(states, labels, j, p, pc.agent) && labels[j] == Poll(p, ProbeReply(pc.ns));
    assert RecordsAt(states, labels, n, p, l[k].id, NewSample(pc));
    assert Noted(states, labels, j, n + 1, p, l[k]);
    assert Visited(states, labels, m, n + 1, p, l[k]);
    assert SweepingAt(states, labels, m, n + 1, p, l, k + 1, pc');
  }

  /** What the loop's own step makes of its place in the sweep. */
  lemma OwnPlace(env: Env, s: State, p: string, x: PollStep)
    requires OfFleet(env, s, p) && PollEnabled(env, s, p, x)
    ensures p in PollApply(env, s, p, x).scalers
    ensures var pc, pc' := s.scalers[p].pc, PollApply(env, s, p, x).scalers[p].pc;
            match x
            case PollStart(l) => pc'.Sampling? && pc'.todo == l
            case ProbeSkip => Probing(pc) && pc.todo[0].status == Draining && pc'.Sampling? && pc'.todo == pc.todo[1..]
            case ProbeError => Probing(pc) && pc.todo[0].status != Draining && pc'.Sampling? && pc'.todo == pc.todo[1..]
            case ProbeReply(ns) =>
              && Probing(pc) && pc.todo[0].status != Draining
              && if pc.todo[0].provider == p
                 then pc'.Recording? && pc'.agent == pc.todo[0] && pc'.ns == ns && pc'.todo == pc.todo[1..]
                 else pc'.Sampling? && pc'.todo == pc.todo[1..]
            case Record => pc.Recording? && pc'.Sampling? && pc'.todo == pc.todo
            case _ => !pc'.Sampling? && !pc'.Recording?
  {
    match x
    case DecideUp(_, action, u) => DecideRests(env, s, p, action, u);
    case DecideDown(_, action, u) => DecideRests(env, s, p, action, u);
    case _ =>
  }

  lemma OwnSweeps(env: Env, states: seq<State>, labels: seq<Label>, n: nat, p: string, x: PollStep)
    requires n < |labels| && n + 1 < |states| && labels[n] == Poll(p, x) && OfFleet(env, states[n], p)
    requires Step(env, states[n], labels[n], states[n+1]) && Sweeping(states, labels, n, p, states[n].scalers[p].pc)
    ensures p in states[n+1].scalers && Sweeping(states, labels, n + 1, p, states[n+1].scalers[p].pc)
  {
    OwnPlace(env, states[n], p, x);
    var pc, pc' := states[n].scalers[p].pc, states[n+1].scalers[p].pc;
    match x
    case PollStart(l) => StartSweeps(states, labels, n, p, l, pc');
    case ProbeReply(ns) =>
      if pc.todo[0].provider == p {
        ReplySweeps(states, labels, n, p, pc, pc');
      } else {
        PassSweeps(states, labels, n, p, pc, pc');
      }
    case ProbeSkip => PassSweeps(states, labels, n, p, pc, pc');
    case ProbeError => PassSweeps(states, labels, n, p, pc, pc');
    case Record => RecordSweeps(states, labels, n, p, pc, pc');
    case _ =>
  }

  lemma {:induction false} RunSweeps(env: Env, states: seq<State>, labels: seq<Label>, n: nat, p: string)
    requires Run(env, states, labels) && n < |states| && p in env.fleet
    ensures p in states[n].scalers && Sweeping(states, labels, n, p, states[n].scalers[p].pc)
  {
    if n > 0 {
      var m := n - 1;
      RunSweeps(env, states, labels, m, p);
      assert Step(env, states[m], labels[m], states[m+1]);
      if IsOwn(labels[m], p) {
        OwnSweeps(env, states, labels, m, p, labels[m].poll);
      } else {
        OtherSweeps(env, states, labels, m, p);
      }
    }
  }

  lemma OtherSweeps(env: Env, states: seq<State>, labels: seq<Label>, n: nat, p: string)
    requires n < |labels| && n + 1 < |states| && !IsOwn(labels[n], p) && OfFleet(env, states[n], p)
    requires Step(env, states[n], labels[n], states[n+1]) && Sweeping(states, labels, n, p, states[n].scalers[p].pc)
    ensures p in states[n+1].scalers && Sweeping(states, labels, n + 1, p, states[n+1].scalers[p].pc)
  {
    if !labels[n].Tick? { OthersSoft(env, states[n], labels[n], p); }
    SweepingStays(states, labels, n, p, states[n].scalers[p].pc);
  }

  /** Before it judges, the loop has been at every agent that it listed when its poll
      began: it skipped those the listing showed draining and asked each of the others,
      and recorded the reply of each of its own provider's that gave one. */
  lemma SweepsAreComplete(env: Env, states: seq<State>, labels: seq<Label>, n: nat, p: string)
    returns (m: nat, l: seq<Agent>)
    requires Run(env, states, labels) && n < |labels| && Evaluates(labels[n], p)
    ensures m < n && ListsAt(labels, m, p, l) && Listing(states[m].agents, l)
    ensures forall j :: m < j < n ==> !(IsOwn(labels[j], p) && labels[j].poll.PollStart?)
    ensures forall a :: a in l ==> Visited(states, labels, m, n, p, a)
  {
    assert Step(env, states[n], labels[n], states[n+1]);
    RunSweeps(env, states, labels, n, p);
    var k: nat;
    m, k, l :| SweepingAt(states, labels, m, n, p, l, k, states[n].scalers[p].pc);
    assert Step(env, states[m], labels[m], states[m+1]);
  }

  // -------------------------------------------------------- it waits for what it started

  /** What the loop waits for after starting t: its own spawn is over, or the node to be
      drained has been set draining. */
  ghost predicate Releases(l: Label, t: nat, spawns: bool) {
    && l.Act? && l.t == t
    && if spawns then l.act.LaunchFail? || l.act.LaunchLost? || l.act.Reset? else l.act.Mark?
  }

  ghost predicate WaitsFor(s: State, p: string, t: nat, role: Role) {
    p in s.scalers && s.scalers[p].pc == Blocked(t) && t in s.acts && s.acts[t].role == role && s.acts[t].p == p
  }

  lemma OwnActWaits(env: Env, s: State, x: ActStep, p: string, t: nat, role: Role)
    requires Live(env, s, t) && ActEnabled(env, s, t, x) && RoleFits(s.acts[t]) && WaitsFor(s, p, t, role)
    requires !Releases(Act(t, x), t, role == Direct) && (role == Direct || s.acts[t].phase == Marking)
    ensures WaitsFor(ActApply(env, s, t, x), p, t, role)
    ensures role != Direct ==> ActApply(env, s, t, x).acts[t].phase == Marking
  {
  }

  lemma OtherActWaits(env: Env, s: State, u: nat, x: ActStep, p: string, t: nat, role: Role)
    requires Live(env, s, u) && ActEnabled(env, s, u, x) && RoleFits(s.acts[u]) && BlockedOk(s.acts, s.scalers)
    requires u != t && WaitsFor(s, p, t, role)
    ensures WaitsFor(ActApply(env, s, u, x), p, t, role)
    ensures ActApply(env, s, u, x).acts[t] == s.acts[t]
  {
    OtherActStays(env, s, t, Act(u, x));
    match x
    case Deregister => DeregisterSoft(s, u, p); DeregisterKeepsPc(s, u, p);
    case _ =>
  }

  lemma DeregisterKeepsPc(s: State, u: nat, p: string)
    requires u in s.acts && s.acts[u].p in s.scalers && p in s.scalers
    ensures p in AfterDeregister(s, u).scalers && AfterDeregister(s, u).scalers[p].pc == s.scalers[p].pc
  {
    match s.acts[u].role
    case Kill =>
    case Boot =>
    case Upgrade =>
    case _ =>
  }

  lemma StillWaits(env: Env, s: State, l: Label, p: string, t: nat, role: Role)
    requires Inv(env, s) && Enabled(env, s, l) && OfFleet(env, s, p) && !IsOwn(l, p) && WaitsFor(s, p, t, role)
    requires !Releases(l, t, role == Direct) && (role == Direct || s.acts[t].phase == Marking)
    ensures WaitsFor(Apply(env, s, l), p, t, role)
    ensures role != Direct ==> Apply(env, s, l).acts[t].phase == Marking
  {
    match l
    case Tick(_) =>
    case Poll(q, x) => OtherPoll(env, s, q, x, p); OtherActStays(env, s, t, l);
    case Act(u, x) =>
      assert ActOk(env, s.acts[u], s.agents, s.origin, s.called);
      if u == t { OwnActWaits(env, s, x, p, t, role); } else { OtherActWaits(env, s, u, x, p, t, role); }
    case Operator(x) => OtherActStays(env, s, t, l);
  }

  /** The goroutine that a decision starts. */
  ghost predicate StartsAs(l: Label, p: string, t: nat, role: Role) {
    match l
    case Poll(q, DecideUp(_, SpawnSmallest, u)) => q == p && u == t && role == Direct
    case Poll(q, DecideUp(_, UpgradeNode(_), u)) => q == p && u == t && role == Upgrade
    case Poll(q, DecideDown(_, RemoveNode(_), u)) => q == p && u == t && role == ScaleDown
    case _ => false
  }

  lemma StartWaits(env: Env, s: State, l: Label, p: string, t: nat, role: Role)
    requires Enabled(env, s, l) && StartsAs(l, p, t, role)
    ensures WaitsFor(Apply(env, s, l), p, t, role)
    ensures role != Direct ==> Apply(env, s, l).acts[t].phase == Marking
  {
  }

  lemma {:induction false} WaitsUntilReleased(env: Env, states: seq<State>, labels: seq<Label>, d: nat, n: nat,
                                              p: string, t: nat, role: Role)
    requires Run(env, states, labels) && d < n < |states| && p in env.fleet && StartsAs(labels[d], p, t, role)
    requires forall k :: d < k < n ==> !IsOwn(labels[k], p) && !Releases(labels[k], t, role == Direct)
    ensures WaitsFor(states[n], p, t, role) && (role != Direct ==> states[n].acts[t].phase == Marking)
    decreases n
  {
    if n == d + 1 {
      RunStep(env, states, labels, d);
      StartWaits(env, states[d], labels[d], p, t, role);
    } else {
      var m := n - 1;
      WaitsUntilReleased(env, states, labels, d, m, p, t, role);
      RunStep(env, states, labels, m);
      InFleet(env, states, labels, m, p);
      StillWaits(env, states[m], labels[m], p, t, role);
    }
  }

  lemma {:induction false} FirstOwnStep(labels: seq<Label>, d: nat, n: nat, p: string) returns (k: nat)
    requires d < n < |labels| && IsOwn(labels[n], p)
    ensures d < k <= n && IsOwn(labels[k], p) && forall j :: d < j < k ==> !IsOwn(labels[j], p)
    decreases n
  {
    k := n;
    if j :| d < j < n && IsOwn(labels[j], p) { k := FirstOwnStep(labels, d, j, p); }
  }

  /** The loop takes no further step before what it started allows it to: a spawn of its
      own must have failed or ended, a node to be drained must have been set draining. */
  lemma LoopWaits(env: Env, states: seq<State>, labels: seq<Label>, d: nat, n: nat, p: string, t: nat, role: Role)
    requires Run(env, states, labels) && d < n < |labels| && StartsAs(labels[d], p, t, role) && IsOwn(labels[n], p)
    ensures exists e :: d < e < n && Releases(labels[e], t, role == Direct)
  {
    assert Step(env, states[d], labels[d], states[d+1]);
    var k := FirstOwnStep(labels, d, n, p);
    assert Step(env, states[k], labels[k], states[k+1]);
    if forall e :: d < e < k ==> !Releases(labels[e], t, role == Direct) {
      WaitsUntilReleased(env, states, labels, d, k, p, t, role);
      assert false;
    }
  }

  /** Where the loop goes once released: a scale-down empties the histories first. */
  function GoalOf(role: Role): Pc { if role == ScaleDown then Emptying else Resting }

  ghost predicate Rests(s: State, p: string, role: Role) { p in s.scalers && s.scalers[p].pc == GoalOf(role) }

  lemma ReleaseRests(env: Env, s: State, x: ActStep, p: string, t: nat, role: Role)
    requires Live(env, s, t) && ActEnabled(env, s, t, x) && WaitsFor(s, p, t, role)
    requires Releases(Act(t, x), t, role == Direct) && (role == Direct || role == Upgrade || role == ScaleDown)
    ensures Rests(ActApply(env, s, t, x), p, role)
  {
  }

  lemma ActLeavesIdle(env: Env, s: State, u: nat, x: ActStep, p: string, role: Role)
    requires Live(env, s, u) && ActEnabled(env, s, u, x) && BlockedOk(s.acts, s.scalers) && RoleFits(s.acts[u])
    requires p in s.scalers && Rests(s, p, role)
    ensures Rests(ActApply(env, s, u, x), p, role)
  {
    match x
    case Deregister => DeregisterKeepsPc(s, u, p);
    case _ =>
  }

  lemma OperatorLeavesIdle(env: Env, s: State, x: OpStep, p: string, role: Role)
    requires OpEnabled(env, s, x) && Rests(s, p, role)
    ensures Rests(OpApply(env, s, x), p, role)
  {
  }

  lemma IdleStays(env: Env, s: State, l: Label, p: string, role: Role)
    requires Inv(env, s) && Enabled(env, s, l) && OfFleet(env, s, p) && !IsOwn(l, p) && Rests(s, p, role)
    ensures Rests(Apply(env, s, l), p, role)
  {
    match l
    case Tick(_) =>
    case Poll(q, x) => OtherPoll(env, s, q, x, p);
    case Act(u, x) =>
      assert ActOk(env, s.acts[u], s.agents, s.origin, s.called);
      ActLeavesIdle(env, s, u, x, p, role);
    case Operator(x) => OperatorLeavesIdle(env, s, x, p, role);
  }

  ghost predicate WaitsOrRests(s: State, p: string, t: nat, role: Role) {
    Rests(s, p, role) || (WaitsFor(s, p, t, role) && (role != Direct ==> s.acts[t].phase == Marking))
  }

  lemma WaitsOrRestsStep(env: Env, s: State, l: Label, p: string, t: nat, role: Role)
    requires Inv(env, s) && Enabled(env, s, l) && OfFleet(env, s, p) && !IsOwn(l, p) && WaitsOrRests(s, p, t, role)
    requires role == Direct || role == Upgrade || role == ScaleDown
    ensures WaitsOrRests(Apply(env, s, l), p, t, role)
  {
    if Rests(s, p, role) {
      IdleStays(env, s, l, p, role);
    } else if Releases(l, t, role == Direct) {
      ReleaseRests(env, s, l.act, p, t, role);
    } else {
      StillWaits(env, s, l, p, t, role);
    }
  }

  lemma {:induction false} WaitsOrRestsRun(env: Env, states: seq<State>, labels: seq<Label>, d: nat, n: nat,
                                           p: string, t: nat, role: Role)
    requires Run(env, states, labels) && d < n < |states| && p in env.fleet && StartsAs(labels[d], p, t, role)
    requires forall k :: d < k < n ==> !IsOwn(labels[k], p)
    ensures WaitsOrRests(states[n], p, t, role)
    decreases n
  {
    if n == d + 1 {
      RunStep(env, states, labels, d);
      StartWaits(env, states[d], labels[d], p, t, role);
    } else {
      var m := n - 1;
      WaitsOrRestsRun(env, states, labels, d, m, p, t, role);
      RunStep(env, states, labels, m);
      InFleet(env, states, labels, m, p);
      WaitsOrRestsStep(env, states[m], labels[m], p, t, role);
    }
  }

  /** The loop's next step after it started something: a scale-down empties the histories,
      an upgrade or a spawn leads on to the next poll. */
  lemma NextStepIs(env: Env, states: seq<State>, labels: seq<Label>, d: nat, n: nat, p: string, t: nat, role: Role)
    requires Run(env, states, labels) && d < n < |labels| && StartsAs(labels[d], p, t, role) && IsOwn(labels[n], p)
    requires forall k :: d < k < n ==> !IsOwn(labels[k], p)
    ensures if role == ScaleDown then labels[n].poll.Empty? else labels[n].poll.PollStart?
  {
    RunStep(env, states, labels, n);
    WaitsOrRestsRun(env, states, labels, d, n, p, t, role);
  }
}
