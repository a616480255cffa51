/** Scripted runs of one autoscaler over a fleet of workers that all report alike:
    single steps and whole polls, with every poll on the tick of its interval and no
    drain past its timeout. */
module FleetScripts {
  import opened Models
  import opened AgentRegistry
  import opened NodeTypes
  import opened Scaling
  import opened FleetModel
  import opened FleetReach

  /** The workers and their instance type, the configuration, the poll interval, and
      whether the drains are those of upgrades or of scale-downs. */
  datatype Plan = Plan(ids: seq<string>, kind: string, cfg: Config, interval: nat, upgrades: bool)

  ghost predicate Distinct(ids: seq<string>) { forall i, j :: 0 <= i < j < |ids| ==> ids[i] != ids[j] }

  /** The window is one poll interval long and the cooldown two.  Upgrades start at the
      limit, with workers of a lesser type; scale-downs start one above the minimum. */
  ghost predicate Sound(w: Plan) {
    && Distinct(w.ids) && w.ids != [] && DRAIN_TICK <= w.interval
    && ThresholdsApart(w.cfg) && w.cfg.window == w.interval && w.cfg.cooldown == 2 * w.interval
    && if w.upgrades
       then w.cfg.maxNodes == |w.ids| && exists name :: IsLargestType(w.cfg.nodeTypes, name) && name != w.kind
       else w.cfg.minNodes == |w.ids| - 1
  }

  function EnvOf(w: Plan): Env { Env(map["p" := w.cfg], w.interval) }

  /** What every worker reports: always hot, or always cold. */
  function ReplyOf(w: Plan): NodeStatus {
    if w.upgrades then NodeStatus("", w.cfg.cpuUpper, w.cfg.memUpper, 0, 0, 0, 0)
    else NodeStatus("", w.cfg.cpuLower, w.cfg.memLower, 0, 0, 0, 0)
  }

  function Toward(w: Plan): Direction { if w.upgrades then Up else Down }

  function Worker(w: Plan, id: string): Agent {
    Agent(id, id, 0, 0, Online, id, w.kind, "p", Some(ReplyOf(w)))
  }

  // -------------------------------------------------------------------------- views

  /** What the steps below depend on. */
  datatype View = View(
    clock: int, agents: Store, acts: map<nat, Activity>, sc: Scaler, seen: set<string>, launched: set<Instance>)

  ghost predicate Looks(s: State, v: View) {
    "p" in s.scalers && View(s.clock, s.agents, s.acts, s.scalers["p"], s.seen, s.launched) == v
  }

  ghost predicate Late(a: Activity, clock: int) {
    (a.phase == Waiting || a.phase == Deregistering) && clock > a.since + DRAIN_TIMEOUT
  }

  /** No poll is overdue and no drain goes on past its timeout. */
  ghost predicate OnTime(clock: int, sc: Scaler, acts: map<nat, Activity>, interval: nat) {
    && (sc.lastPoll.Some? ==> clock <= sc.lastPoll.value + interval)
    && forall t :: t in acts ==> !Late(acts[t], clock)
  }

  ghost predicate Punctual(w: Plan, s: State) {
    "p" in s.scalers && OnTime(s.clock, s.scalers["p"], s.acts, w.interval)
  }

  ghost predicate ViewOnTime(w: Plan, v: View) { OnTime(v.clock, v.sc, v.acts, w.interval) }

  /** All the workers, online. */
  ghost function Crewed(w: Plan): Store { map id | id in w.ids :: Worker(w, id) }

  ghost predicate Shows(states: seq<State>, labels: seq<Label>, w: Plan, v: View) {
    && Run(EnvOf(w), states, labels) && states[0].agents == Crewed(w) && Looks(states[|labels|], v)
    && forall i :: 0 <= i < |states| ==> Punctual(w, states[i])
  }

  /** Some punctual run of the workers comes to v. */
  ghost predicate Reaches(w: Plan, v: View) {
    ViewOnTime(w, v) && exists states: seq<State>, labels: seq<Label> :: Shows(states, labels, w, v)
  }

  lemma Appended(env: Env, states: seq<State>, labels: seq<Label>, l: Label, s': State)
    requires Run(env, states, labels) && Step(env, states[|labels|], l, s')
    ensures Run(env, states + [s'], labels + [l])
  {
    var states', labels' := states + [s'], labels + [l];
    forall i | 0 <= i < |labels'| ensures Step(env, states'[i], labels'[i], states'[i+1]) {
      if i < |labels| { assert Step(env, states[i], labels[i], states[i+1]); }
    }
  }

  lemma OneMore(states: seq<State>, labels: seq<Label>, w: Plan, v: View, l: Label, v': View)
    requires Shows(states, labels, w, v) && ViewOnTime(w, v')
    requires Enabled(EnvOf(w), states[|labels|], l) && Looks(Apply(EnvOf(w), states[|labels|], l), v')
    ensures Reaches(w, v')
  {
    var s' := Apply(EnvOf(w), states[|labels|], l);
    Appended(EnvOf(w), states, labels, l, s');
    assert Punctual(w, s');
    assert Shows(states + [s'], labels + [l], w, v');
  }

  /** One more step, enabled in every state that looks like v. */
  lemma Goes(w: Plan, v: View, l: Label, v': View)
    requires Reaches(w, v) && ViewOnTime(w, v')
    requires forall s :: Looks(s, v) ==> Enabled(EnvOf(w), s, l) && Looks(Apply(EnvOf(w), s, l), v')
    ensures Reaches(w, v')
  {
    var states, labels :| Shows(states, labels, w, v);
    assert Looks(states[|labels|], v);
    OneMore(states, labels, w, v, l, v');
  }

  ghost function Instances(w: Plan): map<string, Instance> { map id | id in w.ids :: Instance("p", id) }

  ghost function IdSet(ids: seq<string>): set<string> { set id | id in ids }

  ghost function Start(w: Plan): State {
    State(0, Crewed(w), map[], map["p" := FRESH_SCALER], IdSet(w.ids), Instances(w), Instances(w).Values, {}, {})
  }

  ghost function StartView(w: Plan): View {
    View(0, Crewed(w), map[], FRESH_SCALER, IdSet(w.ids), Instances(w).Values)
  }

  lemma StartInitial(w: Plan)
    ensures Initial(EnvOf(w), Start(w))
  {
    var s := Start(w);
    assert s.agents.Keys == IdSet(w.ids);
    assert s.scalers == (map p | p in EnvOf(w).fleet :: FRESH_SCALER);
    assert s.origin == (map id | id in s.agents && s.agents[id].provider != "" ::
                          Instance(s.agents[id].provider, s.agents[id].providerID));
  }

  lemma Begin(w: Plan)
    ensures Reaches(w, StartView(w))
  {
    StartInitial(w);
    assert Shows([Start(w)], [], w, StartView(w));
  }

  // ------------------------------------------------------------------- single steps

  lemma GoTick(w: Plan, v: View, d: nat)
    requires Reaches(w, v) && ViewOnTime(w, v.(clock := v.clock + d))
    ensures Reaches(w, v.(clock := v.clock + d))
  {
    Goes(w, v, Tick(d), v.(clock := v.clock + d));
  }

  ghost function Started(v: View, l: seq<Agent>): View {
    v.(sc := v.sc.(pc := Sampling(v.clock, l, {}), lastPoll := Some(v.clock)))
  }

  lemma GoStart(w: Plan, v: View, l: seq<Agent>)
    requires Reaches(w, v) && v.sc.pc == Resting && Listing(v.agents, l)
    requires v.sc.lastPoll.Some? ==> v.sc.lastPoll.value + w.interval <= v.clock
    ensures Reaches(w, Started(v, l))
  {
    Goes(w, v, Poll("p", PollStart(l)), Started(v, l));
  }

  ghost function Skipped(v: View): View
    requires Probing(v.sc.pc)
  {
    v.(sc := v.sc.(pc := Next(v.sc.pc)))
  }

  lemma GoSkip(w: Plan, v: View)
    requires Reaches(w, v) && Probing(v.sc.pc) && v.sc.pc.todo[0].status == Draining
    ensures Reaches(w, Skipped(v))
  {
    Goes(w, v, Poll("p", ProbeSkip), Skipped(v));
  }

  /** The agent replies what it replied before. */
  ghost predicate Answers(m: Store, a: Agent, ns: NodeStatus) {
    a.status == Online && a.provider == "p" && WithNodeStatus(m, a.id, ns) == m
  }

  lemma SameReply(w: Plan, m: Store, id: string)
    requires id in m && m[id] == Worker(w, id)
    ensures Answers(m, m[id], ReplyOf(w))
  {
  }

  ghost function Probed(w: Plan, v: View): View
    requires Probing(v.sc.pc)
  {
    var pc := v.sc.pc;
    v.(sc := v.sc.(pc := Recording(pc.now, pc.todo[0], ReplyOf(w), pc.todo[1..], pc.sampled)))
  }

  /** The next agent of the sweep is probed and recorded. */
  ghost function Sampled(w: Plan, v: View): View
    requires Probing(v.sc.pc)
  {
    var pc := v.sc.pc;
    v.(sc := v.sc.(pc := Sampling(pc.now, pc.todo[1..], pc.sampled + {pc.todo[0].id}),
                   history := Recorded(v.sc.history, pc.todo[0].id, SampleOf(ReplyOf(w), pc.now), w.cfg.window)))
  }

  lemma GoProbe(w: Plan, v: View)
    requires Reaches(w, v) && Probing(v.sc.pc) && Answers(v.agents, v.sc.pc.todo[0], ReplyOf(w))
    ensures Reaches(w, Probed(w, v))
  {
    Goes(w, v, Poll("p", ProbeReply(ReplyOf(w))), Probed(w, v));
  }

  lemma GoSample(w: Plan, v: View)
    requires Reaches(w, v) && Probing(v.sc.pc) && Answers(v.agents, v.sc.pc.todo[0], ReplyOf(w))
    ensures Reaches(w, Sampled(w, v))
  {
    GoProbe(w, v);
    Goes(w, Probed(w, v), Poll("p", PollStep.Record), Sampled(w, v));
  }

  function Checking(dir: Direction): Pc { if dir == Up then CheckingUp else if dir == Down then CheckingDown else Resting }

  ghost function AtPc(v: View, pc: Pc): View { v.(sc := v.sc.(pc := pc)) }

  lemma GoEvaluate(w: Plan, v: View, l: seq<Agent>)
    requires Reaches(w, v) && v.sc.pc.Sampling? && v.sc.pc.todo == [] && Listing(v.agents, l)
    ensures Reaches(w, AtPc(v, Checking(Verdict(w.cfg, v.sc.history, ManagedOf(OnlineOf(l), "p"), v.clock))))
  {
    var dir := Verdict(w.cfg, v.sc.history, ManagedOf(OnlineOf(l), "p"), v.clock);
    Goes(w, v, Poll("p", Evaluate(l)), AtPc(v, Checking(dir)));
  }

  function Deciding(w: Plan): Pc { if w.upgrades then DecidingUp else DecidingDown }

  /** When the plan's kind of decision was last taken. */
  ghost function LastDecision(w: Plan, sc: Scaler): Option<int> { if w.upgrades then sc.lastUp else sc.lastDown }

  lemma GoCheck(w: Plan, v: View)
    requires Reaches(w, v) && v.sc.pc == Checking(Toward(w))
    ensures var cooled := Cooled(LastDecision(w, v.sc), v.clock, w.cfg.cooldown);
            Reaches(w, AtPc(v, if cooled then Deciding(w) else Resting))
  {
    var cooled := Cooled(LastDecision(w, v.sc), v.clock, w.cfg.cooldown);
    Goes(w, v, Poll("p", if w.upgrades then CheckUp else CheckDown), AtPc(v, if cooled then Deciding(w) else Resting));
  }

  // ------------------------------------------------------------------ drains

  ghost function DrainOf(w: Plan, phase: Phase, a: Agent, at: int): Activity {
    Activity(if w.upgrades then Upgrade else ScaleDown, phase, "p", NodeOf(a), at, at)
  }

  /** What a decision starts, and how it counts. */
  ghost function Decided(w: Plan, v: View, a: Agent, t: nat): View {
    var sc := v.sc;
    var over := if w.upgrades && a.id in Targets(v.acts, ManagedIds(v.agents, "p"), "p") then 1 else 0;
    var tally := sc.tally.(overlaps := sc.tally.overlaps + over,
                           crossed := sc.tally.crossed + if Drains(v.acts, "p") != {} then 1 else 0);
    v.(acts := v.acts[t := DrainOf(w, Marking, a, v.clock)],
       sc := if w.upgrades
             then sc.(pc := Blocked(t), lastUp := Some(v.clock), tally := tally.(ups := tally.ups + [v.clock]))
             else sc.(pc := Blocked(t), lastDown := Some(v.clock), tally := tally.(downs := tally.downs + [v.clock])))
  }

  ghost predicate IsChoice(w: Plan, managed: seq<Agent>, a: Agent) {
    if w.upgrades then UpChoice(w.cfg, managed, UpgradeNode(a))
    else DownChoice(w.cfg, managed, RemoveNode(a))
  }

  function DecideStep(w: Plan, l: seq<Agent>, a: Agent, t: nat): Label {
    Poll("p", if w.upgrades then DecideUp(l, UpgradeNode(a), t) else DecideDown(l, RemoveNode(a), t))
  }

  lemma UpLooks(w: Plan, s: State, v: View, a: Agent, t: nat)
    requires Looks(s, v) && w.upgrades
    ensures Looks(AfterDecideUp(EnvOf(w), s, "p", UpgradeNode(a), t), Decided(w, v, a, t))
  {
  }

  lemma DownLooks(w: Plan, s: State, v: View, a: Agent, t: nat)
    requires Looks(s, v) && !w.upgrades
    ensures Looks(AfterDecideDown(EnvOf(w), s, "p", RemoveNode(a), t), Decided(w, v, a, t))
  {
  }

  lemma DecisionLooks(w: Plan, s: State, v: View, l: seq<Agent>, a: Agent, t: nat)
    requires Looks(s, v) && Listing(v.agents, l) && t !in v.acts && v.sc.pc == Deciding(w)
    requires IsChoice(w, ManagedOf(l, "p"), a)
    ensures Enabled(EnvOf(w), s, DecideStep(w, l, a, t))
    ensures Looks(Apply(EnvOf(w), s, DecideStep(w, l, a, t)), Decided(w, v, a, t))
  {
    if w.upgrades { UpLooks(w, s, v, a, t); } else { DownLooks(w, s, v, a, t); }
  }

  lemma DecidedOnTime(w: Plan, v: View, a: Agent, t: nat)
    requires ViewOnTime(w, v)
    ensures ViewOnTime(w, Decided(w, v, a, t))
  {
    var v' := Decided(w, v, a, t);
    forall x | x in v'.acts ensures !Late(v'.acts[x], v'.clock) {
      assert x != t ==> x in v.acts && v'.acts[x] == v.acts[x];
    }
  }

  lemma GoDecide(w: Plan, v: View, l: seq<Agent>, a: Agent, t: nat)
    requires Reaches(w, v) && Listing(v.agents, l) && t !in v.acts && v.sc.pc == Deciding(w)
    requires IsChoice(w, ManagedOf(l, "p"), a)
    ensures Reaches(w, Decided(w, v, a, t))
  {
    forall s | Looks(s, v)
      ensures Enabled(EnvOf(w), s, DecideStep(w, l, a, t))
              && Looks(Apply(EnvOf(w), s, DecideStep(w, l, a, t)), Decided(w, v, a, t))
    {
      DecisionLooks(w, s, v, l, a, t);
    }
    DecidedOnTime(w, v, a, t);
    Goes(w, v, DecideStep(w, l, a, t), Decided(w, v, a, t));
  }

  /** The drain has marked its agent. */
  ghost function Marked(v: View, t: nat): View
    requires t in v.acts
  {
    var a := v.acts[t];
    v.(agents := WithDraining(v.agents, a.node.id), acts := v.acts[t := a.(phase := Waiting, since := v.clock)],
       sc := v.sc.(pc := if a.role == ScaleDown then Emptying else Resting))
  }

  ghost predicate At(v: View, t: nat, phase: Phase) { t in v.acts && v.acts[t].p == "p" && v.acts[t].phase == phase }

  lemma GoMark(w: Plan, v: View, t: nat)
    requires Reaches(w, v) && At(v, t, Marking)
    ensures Reaches(w, Marked(v, t))
  {
    Goes(w, v, Act(t, Mark), Marked(v, t));
  }

  ghost function Emptied(v: View): View { v.(sc := v.sc.(pc := Resting, history := map[], quietFrom := Some(v.clock))) }

  lemma GoEmpty(w: Plan, v: View)
    requires Reaches(w, v) && v.sc.pc == Emptying
    ensures Reaches(w, Emptied(v))
  {
    Goes(w, v, Poll("p", Empty), Emptied(v));
  }

  ghost function WithPhaseOf(v: View, t: nat, phase: Phase): View
    requires t in v.acts
  {
    v.(acts := v.acts[t := v.acts[t].(phase := phase)])
  }

  lemma GoIdle(w: Plan, v: View, t: nat)
    requires Reaches(w, v) && At(v, t, Waiting) && v.acts[t].since + DRAIN_TICK <= v.clock
    ensures Reaches(w, WithPhaseOf(v, t, Deregistering))
  {
    Goes(w, v, Act(t, ObserveIdle(IDLE)), WithPhaseOf(v, t, Deregistering));
  }

  /** The drain has deregistered its agent. */
  ghost function Gone(v: View, t: nat): View
    requires t in v.acts
  {
    var a, tally := v.acts[t], v.sc.tally;
    var effective := a.role == Upgrade && a.node.id in ManagedIds(v.agents, "p");
    WithPhaseOf(v, t, Terminating).(
      agents := v.agents - {a.node.id},
      sc := v.sc.(tally := tally.(upgraded := tally.upgraded + if effective then 1 else 0)))
  }

  lemma GoDeregister(w: Plan, v: View, t: nat)
    requires Reaches(w, v) && At(v, t, Deregistering) && (v.acts[t].role == Upgrade || v.acts[t].role == ScaleDown)
    ensures Reaches(w, Gone(v, t))
  {
    Goes(w, v, Act(t, Deregister), Gone(v, t));
  }

  lemma GoTerminate(w: Plan, v: View, t: nat)
    requires Reaches(w, v) && At(v, t, Terminating) && v.acts[t].role == Upgrade
    ensures Reaches(w, v.(acts := v.acts[t := v.acts[t].(phase := Launching, node := NO_NODE)]))
  {
    Goes(w, v, Act(t, Terminate(true)), v.(acts := v.acts[t := v.acts[t].(phase := Launching, node := NO_NODE)]));
  }

  ghost function Launched(v: View, t: nat, node: Node): View
    requires t in v.acts
  {
    v.(acts := v.acts[t := v.acts[t].(phase := Registering, node := node)],
       seen := v.seen + {node.id}, launched := v.launched + {Instance("p", node.providerID)})
  }

  lemma GoLaunch(w: Plan, v: View, t: nat, node: Node)
    requires Reaches(w, v) && At(v, t, Launching) && v.acts[t].role == Upgrade
    requires node.id != "" && node.id !in v.seen && Instance("p", node.providerID) !in v.launched
    requires Asked(w.cfg.nodeTypes, Upgrade, node.instanceType)
    ensures Reaches(w, Launched(v, t, node))
  {
    Goes(w, v, Act(t, LaunchOk(node)), Launched(v, t, node));
  }

  ghost function Registered(v: View, t: nat, u: nat): View
    requires t in v.acts
  {
    var a := v.acts[t];
    var n := a.node;
    v.(agents := WithAgent(v.agents, Offline, n.id, n.address, n.providerID, n.instanceType, "p", v.clock),
       acts := v.acts[t := a.(phase := Resetting)][u := Activity(Boot, Bootstrapping, "p", n, v.clock, v.clock)])
  }

  lemma GoRegister(w: Plan, v: View, t: nat, u: nat)
    requires Reaches(w, v) && At(v, t, Registering) && v.acts[t].role == Upgrade && u !in v.acts
    ensures Reaches(w, Registered(v, t, u))
  {
    Goes(w, v, Act(t, RegisterNode(u)), Registered(v, t, u));
  }

  // -------------------------------------------------------------------- whole polls

  /** What a worker polled from `first` on has in its history after the poll at t. */
  function Track(w: Plan, t: int, first: int): seq<Sample> {
    if t == first then [SampleOf(ReplyOf(w), t)] else [SampleOf(ReplyOf(w), t - w.interval), SampleOf(ReplyOf(w), t)]
  }

  /** The history is that of the poll before, if there was one. */
  ghost predicate Tracked(w: Plan, h: History, id: string, t: int, first: int) {
    if t == first then id !in h
    else first + w.interval <= t && id in h && h[id] == Track(w, t - w.interval, first)
  }

  lemma OneSample(s: Sample, now: int, window: int)
    ensures Kept([s], now, window) == if Recent(s, now, window) then [s] else []
  {
    assert [s][..0] == [] && [s][0] == s;
  }

  lemma MoreSamples(h: seq<Sample>, s: Sample, now: int, window: int)
    ensures Kept(h + [s], now, window) == Kept(h, now, window) + if Recent(s, now, window) then [s] else []
  {
    assert (h + [s])[..|h|] == h && (h + [s])[|h|] == s;
  }

  /** The next sample of a track leaves the one before it and itself. */
  lemma TwoKept(last: Sample, now: Sample, window: nat)
    requires last.at == now.at - window
    ensures Kept([last] + [now], now.at, window) == [last, now]
  {
    MoreSamples([last], now, now.at, window);
    OneSample(last, now.at, window);
    assert [last] + [now] == [last, now];
  }

  lemma TwoOfThreeKept(older: Sample, last: Sample, now: Sample, window: nat)
    requires window > 0 && older.at == now.at - 2 * window && last.at == now.at - window
    ensures Kept([older, last] + [now], now.at, window) == [last, now]
  {
    MoreSamples([older, last], now, now.at, window);
    assert [older, last] == [older] + [last];
    MoreSamples([older], last, now.at, window);
    OneSample(older, now.at, window);
    assert [] + [last] == [last] && [last] + [now] == [last, now];
  }

  lemma RecordedKeeps(h: History, id: string, s: Sample, window: int)
    ensures Recorded(h, id, s, window)[id] == Kept((if id in h then h[id] else []) + [s], s.at, window)
  {
  }

  lemma TrackGrows(w: Plan, h: History, id: string, t: int, first: int)
    requires w.interval > 0 && Tracked(w, h, id, t, first)
    ensures Recorded(h, id, SampleOf(ReplyOf(w), t), w.interval)[id] == Track(w, t, first)
  {
    var ns, d := ReplyOf(w), w.interval;
    RecordedKeeps(h, id, SampleOf(ns, t), d);
    if t == first {
      OneSample(SampleOf(ns, t), t, d);
      assert [] + [SampleOf(ns, t)] == [SampleOf(ns, t)];
    } else if t - d == first {
      TwoKept(SampleOf(ns, t - d), SampleOf(ns, t), d);
    } else {
      TwoOfThreeKept(SampleOf(ns, t - 2 * d), SampleOf(ns, t - d), SampleOf(ns, t), d);
      assert h[id] == [SampleOf(ns, t - 2 * d), SampleOf(ns, t - d)];
    }
  }

  ghost predicate Polled(w: Plan, v: View, a: Agent, first: int) {
    a.status == Draining || (Answers(v.agents, a, ReplyOf(w)) && Tracked(w, v.sc.history, a.id, v.clock, first))
  }

  ghost predicate HasTrack(w: Plan, h: History, a: Agent, t: int, first: int) {
    a.status != Draining ==> a.id in h && h[a.id] == Track(w, t, first)
  }

  ghost predicate KeepsTracks(h: History, h': History, l: seq<Agent>) {
    forall id :: id in h && (forall k :: 0 <= k < |l| ==> l[k].id != id) ==> id in h' && h'[id] == h[id]
  }

  /** What a view is after the sweep has passed its next agent. */
  ghost predicate Passed(w: Plan, v: View, v': View, first: int)
    requires Probing(v.sc.pc)
  {
    && v' == v.(sc := v.sc.(pc := v'.sc.pc, history := v'.sc.history))
    && v'.sc.pc.Sampling? && v'.sc.pc.now == v.sc.pc.now && v'.sc.pc.todo == v.sc.pc.todo[1..]
    && HasTrack(w, v'.sc.history, v.sc.pc.todo[0], v.clock, first)
    && forall id :: id != v.sc.pc.todo[0].id ==>
         (id in v'.sc.history <==> id in v.sc.history)
         && (id in v.sc.history ==> v'.sc.history[id] == v.sc.history[id])
  }

  lemma SampledPasses(w: Plan, v: View, first: int)
    requires Sound(w) && Probing(v.sc.pc) && v.sc.pc.now == v.clock
    requires Tracked(w, v.sc.history, v.sc.pc.todo[0].id, v.clock, first)
    ensures Passed(w, v, Sampled(w, v), first)
  {
    TrackGrows(w, v.sc.history, v.sc.pc.todo[0].id, v.clock, first);
  }

  lemma SweepOne(w: Plan, v: View, first: int) returns (v': View)
    requires Sound(w) && Reaches(w, v) && Probing(v.sc.pc) && v.sc.pc.now == v.clock
    requires Polled(w, v, v.sc.pc.todo[0], first)
    ensures Reaches(w, v') && Passed(w, v, v', first)
    ensures v.sc.pc.todo[0].status == Draining ==> v'.sc.history == v.sc.history
  {
    if v.sc.pc.todo[0].status == Draining {
      GoSkip(w, v);
      v' := Skipped(v);
    } else {
      SampledPasses(w, v, first);
      GoSample(w, v);
      v' := Sampled(w, v);
    }
  }

  lemma TracksJoin(w: Plan, h: History, h': History, h'': History, l: seq<Agent>, t: int, first: int)
    requires l != [] && DistinctIds(l)
    requires HasTrack(w, h', l[0], t, first) && KeepsTracks(h', h'', l[1..])
    requires forall id :: id in h && id != l[0].id ==> id in h' && h'[id] == h[id]
    requires forall k :: 0 <= k < |l[1..]| ==> HasTrack(w, h'', l[1..][k], t, first)
    ensures forall k :: 0 <= k < |l| ==> HasTrack(w, h'', l[k], t, first)
    ensures KeepsTracks(h, h'', l)
  {
    forall k | 0 <= k < |l| ensures HasTrack(w, h'', l[k], t, first) {
      if k > 0 { assert l[k] == l[1..][k-1]; }
    }
    forall id | id in h && (forall k :: 0 <= k < |l| ==> l[k].id != id) ensures id in h'' && h''[id] == h[id] {
      assert forall k :: 0 <= k < |l[1..]| ==> l[1..][k] == l[k+1];
    }
  }

  /** Recording one agent leaves the others as they were. */
  lemma RestPolled(w: Plan, v: View, v': View, first: int)
    requires Probing(v.sc.pc) && DistinctIds(v.sc.pc.todo) && Passed(w, v, v', first)
    requires forall k :: 0 <= k < |v.sc.pc.todo| ==> Polled(w, v, v.sc.pc.todo[k], first)
    ensures DistinctIds(v'.sc.pc.todo)
    ensures forall k :: 0 <= k < |v'.sc.pc.todo| ==> Polled(w, v', v'.sc.pc.todo[k], first)
  {
    forall k | 0 <= k < |v'.sc.pc.todo| ensures Polled(w, v', v'.sc.pc.todo[k], first) {
      assert v'.sc.pc.todo[k] == v.sc.pc.todo[k+1] && Polled(w, v, v.sc.pc.todo[k+1], first);
    }
  }

  lemma {:induction false} SweepRest(w: Plan, v: View, first: int) returns (v': View)
    requires Sound(w) && Reaches(w, v) && v.sc.pc.Sampling? && v.sc.pc.now == v.clock && DistinctIds(v.sc.pc.todo)
    requires forall k :: 0 <= k < |v.sc.pc.todo| ==> Polled(w, v, v.sc.pc.todo[k], first)
    ensures Reaches(w, v') && v' == v.(sc := v.sc.(pc := v'.sc.pc, history := v'.sc.history))
    ensures v'.sc.pc.Sampling? && v'.sc.pc.todo == []
    ensures forall k :: 0 <= k < |v.sc.pc.todo| ==> HasTrack(w, v'.sc.history, v.sc.pc.todo[k], v.clock, first)
    ensures KeepsTracks(v.sc.history, v'.sc.history, v.sc.pc.todo)
    decreases |v.sc.pc.todo|
  {
    if v.sc.pc.todo == [] { return v; }
    var next := SweepOne(w, v, first);
    RestPolled(w, v, next, first);
    v' := SweepRest(w, next, first);
    TracksJoin(w, v.sc.history, next.sc.history, v'.sc.history, v.sc.pc.todo, v.clock, first);
  }

  lemma JudgeTracks(w: Plan, h: History, ms: seq<Agent>, t: int, first: int)
    requires Sound(w) && ms != [] && first <= t
    requires forall a :: a in ms ==> a.id in h && h[a.id] == Track(w, t, first)
    ensures Verdict(w.cfg, h, ms, t) == if t == first then Neutral else Toward(w)
  {
    var a, ns := ms[0], ReplyOf(w);
    assert a in ms && h[a.id] == Track(w, t, first) && h[a.id][0] in h[a.id];
    if t == first {
      assert !SpansWindow(h, a.id, t, w.interval);
    } else {
      forall x | x in ms ensures SpansWindow(h, x.id, t, w.interval) {}
      forall x, s | x in ms && s in h[x.id] ensures s == SampleOf(ns, t) || s == SampleOf(ns, t - w.interval) {}
      assert w.upgrades ==> AllHigh(w.cfg, h, ms);
      assert !w.upgrades ==> AllLow(w.cfg, h, ms) && !HighSample(w.cfg, h[a.id][0]);
    }
  }

  lemma OnlineTracked(w: Plan, h: History, l: seq<Agent>, v: View, first: int)
    requires forall k :: 0 <= k < |l| ==> Polled(w, v, l[k], first) && HasTrack(w, h, l[k], v.clock, first)
    requires exists k :: 0 <= k < |l| && l[k].status != Draining
    ensures var ms := ManagedOf(OnlineOf(l), "p");
            ms != [] && forall a :: a in ms ==> a.id in h && h[a.id] == Track(w, v.clock, first)
  {
    var ms := ManagedOf(OnlineOf(l), "p");
    forall a ensures a in ms <==> a in l && a.provider == "p" && IsOnline(a) { JudgedAgents(l, "p", a); }
    var k :| 0 <= k < |l| && l[k].status != Draining;
    assert Polled(w, v, l[k], first) && l[k] in ms;
    forall a | a in ms ensures a.id in h && h[a.id] == Track(w, v.clock, first) {
      var j :| 0 <= j < |l| && l[j] == a;
      assert HasTrack(w, h, l[j], v.clock, first);
    }
  }

  ghost function PolledView(v: View, pc: Pc, h: History): View {
    v.(sc := v.sc.(pc := pc, history := h, lastPoll := Some(v.clock)))
  }

  /** A whole poll of workers that report alike, up to its verdict. */
  lemma PollAll(w: Plan, v: View, l: seq<Agent>, first: int) returns (h: History)
    requires Sound(w) && Reaches(w, v) && v.sc.pc == Resting && Listing(v.agents, l) && first <= v.clock
    requires v.sc.lastPoll.Some? ==> v.sc.lastPoll.value + w.interval <= v.clock
    requires forall k :: 0 <= k < |l| ==> Polled(w, v, l[k], first)
    requires exists k :: 0 <= k < |l| && l[k].status != Draining
    ensures Reaches(w, PolledView(v, Checking(if v.clock == first then Neutral else Toward(w)), h))
    ensures forall k :: 0 <= k < |l| ==> HasTrack(w, h, l[k], v.clock, first)
  {
    GoStart(w, v, l);
    var start := Started(v, l);
    forall k | 0 <= k < |l| ensures Polled(w, start, l[k], first) { assert Polled(w, v, l[k], first); }
    var swept := SweepRest(w, start, first);
    h := swept.sc.history;
    OnlineTracked(w, h, l, v, first);
    JudgeTracks(w, h, ManagedOf(OnlineOf(l), "p"), v.clock, first);
    GoEvaluate(w, swept, l);
  }
}
