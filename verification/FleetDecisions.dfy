/** Why an autoscaler acts, over whole runs: which agents' replies a verdict rests on, which
    way it sends the poll loop, when the cooldown lets it through, and whom it picks. */
module FleetDecisions {
  import opened Models
  import opened AgentRegistry
  import opened NodeTypes
  import opened Scaling
  import opened FleetModel
  import opened FleetIdentity
  import opened FleetSafety
  import opened FleetReach
  import opened FleetTiming

  // ------------------------------------------------------------- what a verdict means

  /** The agents of p that a listing shows online. */
  predicate Judged(l: seq<Agent>, p: string, a: Agent) { a in l && a.provider == p && a.status == Online }

  /** The agent's samples reach back a whole window. */
  predicate Spans(hist: History, id: string, clock: int, window: int) {
    id in hist && |hist[id]| > 0 && hist[id][0].at + window <= clock
  }

  /** There are agents to judge, each has been sampled over a whole window, and every
      sample is at an upper threshold or above it. */
  ghost predicate HighThroughout(cfg: Config, hist: History, clock: int, l: seq<Agent>, p: string) {
    && (exists a :: Judged(l, p, a))
    && forall a :: Judged(l, p, a) ==>
         && Spans(hist, a.id, clock, cfg.window)
         && forall k :: 0 <= k < |hist[a.id]| ==> hist[a.id][k].cpu >= cfg.cpuUpper || hist[a.id][k].mem >= cfg.memUpper
  }

  /** Likewise with every sample at or below both lower thresholds. */
  ghost predicate LowThroughout(cfg: Config, hist: History, clock: int, l: seq<Agent>, p: string) {
    && (exists a :: Judged(l, p, a))
    && forall a :: Judged(l, p, a) ==>
         && Spans(hist, a.id, clock, cfg.window)
         && forall k :: 0 <= k < |hist[a.id]| ==> hist[a.id][k].cpu <= cfg.cpuLower && hist[a.id][k].mem <= cfg.memLower
  }

  lemma SamplesHigh(cfg: Config, h: seq<Sample>)
    ensures (forall s :: s in h ==> HighSample(cfg, s)) <==>
            forall k :: 0 <= k < |h| ==> h[k].cpu >= cfg.cpuUpper || h[k].mem >= cfg.memUpper
  {
    assert forall k :: 0 <= k < |h| ==> h[k] in h;
  }

  lemma SamplesLow(cfg: Config, h: seq<Sample>)
    ensures (forall s :: s in h ==> LowSample(cfg, s)) <==>
            forall k :: 0 <= k < |h| ==> h[k].cpu <= cfg.cpuLower && h[k].mem <= cfg.memLower
  {
    assert forall k :: 0 <= k < |h| ==> h[k] in h;
  }

  lemma HighMeans(cfg: Config, hist: History, ms: seq<Agent>, a: Agent)
    requires AllHigh(cfg, hist, ms) && a in ms && a.id in hist
    ensures forall k :: 0 <= k < |hist[a.id]| ==> hist[a.id][k].cpu >= cfg.cpuUpper || hist[a.id][k].mem >= cfg.memUpper
  {
    assert forall s :: s in hist[a.id] ==> HighSample(cfg, s);
    SamplesHigh(cfg, hist[a.id]);
  }

  lemma LowMeans(cfg: Config, hist: History, ms: seq<Agent>, a: Agent)
    requires AllLow(cfg, hist, ms) && a in ms && a.id in hist
    ensures forall k :: 0 <= k < |hist[a.id]| ==> hist[a.id][k].cpu <= cfg.cpuLower && hist[a.id][k].mem <= cfg.memLower
  {
    assert forall s :: s in hist[a.id] ==> LowSample(cfg, s);
    SamplesLow(cfg, hist[a.id]);
  }

  lemma HighIs(cfg: Config, hist: History, clock: int, l: seq<Agent>, p: string)
    ensures HighThroughout(cfg, hist, clock, l, p) <==>
            var ms := ManagedOf(OnlineOf(l), p); Decidable(cfg, hist, ms, clock) && AllHigh(cfg, hist, ms)
  {
    var ms := ManagedOf(OnlineOf(l), p);
    forall a ensures a in ms <==> Judged(l, p, a) { JudgedAgents(l, p, a); }
    if ms != [] { assert ms[0] in ms; }
    if Decidable(cfg, hist, ms, clock) && AllHigh(cfg, hist, ms) {
      forall a | Judged(l, p, a)
        ensures Spans(hist, a.id, clock, cfg.window)
                && forall k :: 0 <= k < |hist[a.id]| ==>
                     hist[a.id][k].cpu >= cfg.cpuUpper || hist[a.id][k].mem >= cfg.memUpper
      {
        assert SpansWindow(hist, a.id, clock, cfg.window);
        HighMeans(cfg, hist, ms, a);
      }
    }
    if HighThroughout(cfg, hist, clock, l, p) {
      forall a | a in ms
        ensures SpansWindow(hist, a.id, clock, cfg.window) && forall s :: s in hist[a.id] ==> HighSample(cfg, s)
      {
        SamplesHigh(cfg, hist[a.id]);
      }
    }
  }

  lemma LowIs(cfg: Config, hist: History, clock: int, l: seq<Agent>, p: string)
    ensures LowThroughout(cfg, hist, clock, l, p) <==>
            var ms := ManagedOf(OnlineOf(l), p); Decidable(cfg, hist, ms, clock) && AllLow(cfg, hist, ms)
  {
    var ms := ManagedOf(OnlineOf(l), p);
    forall a ensures a in ms <==> Judged(l, p, a) { JudgedAgents(l, p, a); }
    if ms != [] { assert ms[0] in ms; }
    if Decidable(cfg, hist, ms, clock) && AllLow(cfg, hist, ms) {
      forall a | Judged(l, p, a)
        ensures Spans(hist, a.id, clock, cfg.window)
                && forall k :: 0 <= k < |hist[a.id]| ==>
                     hist[a.id][k].cpu <= cfg.cpuLower && hist[a.id][k].mem <= cfg.memLower
      {
        assert SpansWindow(hist, a.id, clock, cfg.window);
        LowMeans(cfg, hist, ms, a);
      }
    }
    if LowThroughout(cfg, hist, clock, l, p) {
      forall a | a in ms ensures SpansWindow(hist, a.id, clock, cfg.window) && forall s :: s in hist[a.id] ==> LowSample(cfg, s) {
        SamplesLow(cfg, hist[a.id]);
      }
    }
  }

  lemma VerdictMeans(cfg: Config, hist: History, clock: int, l: seq<Agent>, p: string)
    ensures var dir := Verdict(cfg, hist, ManagedOf(OnlineOf(l), p), clock);
            && (dir == Up <==> HighThroughout(cfg, hist, clock, l, p))
            && (dir == Down <==> LowThroughout(cfg, hist, clock, l, p) && !HighThroughout(cfg, hist, clock, l, p))
  {
    HighIs(cfg, hist, clock, l, p);
    LowIs(cfg, hist, clock, l, p);
  }

  // -------------------------------------------------------- where a verdict sends the loop

  ghost predicate Evaluates(l: Label, p: string) { l.Poll? && l.p == p && l.poll.Evaluate? }

  /** The verdict at m warrants scaling up, or down. */
  ghost predicate Warrants(env: Env, s: State, l: Label, p: string, up: bool) {
    && Evaluates(l, p) && OfFleet(env, s, p) && Listing(s.agents, l.poll.l)
    && var cfg, hist := env.fleet[p], s.scalers[p].history;
       if up then HighThroughout(cfg, hist, s.clock, l.poll.l, p)
       else LowThroughout(cfg, hist, s.clock, l.poll.l, p) && !HighThroughout(cfg, hist, s.clock, l.poll.l, p)
  }

  /** The poll loop's last evaluation before n warrants the direction. */
  ghost predicate Warranted(env: Env, states: seq<State>, labels: seq<Label>, n: nat, p: string, up: bool) {
    exists m :: && 0 <= m < n && m < |states| && m < |labels| && Warrants(env, states[m], labels[m], p, up)
                && forall k :: m < k < n && k < |labels| ==> !Evaluates(labels[k], p)
  }

  ghost predicate Heads(pc: Pc, up: bool) {
    if up then pc == CheckingUp || pc == DecidingUp else pc == CheckingDown || pc == DecidingDown
  }

  ghost predicate HeadsFor(s: State, p: string, up: bool) { p in s.scalers && Heads(s.scalers[p].pc, up) }

  /** Only an evaluation turns the loop toward a decision. */
  lemma HeadedBefore(env: Env, s: State, l: Label, p: string, up: bool)
    requires Enabled(env, s, l) && OfFleet(env, s, p) && !Evaluates(l, p) && HeadsFor(Apply(env, s, l), p, up)
    ensures HeadsFor(s, p, up)
  {
    match l
    case Tick(_) =>
    case Poll(q, x) => if q == p { OwnHeaded(env, s, p, x, up); } else { OthersSoft(env, s, l, p); }
    case _ => OthersSoft(env, s, l, p);
  }

  lemma OwnHeaded(env: Env, s: State, p: string, x: PollStep, up: bool)
    requires OfFleet(env, s, p) && PollEnabled(env, s, p, x) && !x.Evaluate? && HeadsFor(PollApply(env, s, p, x), p, up)
    ensures HeadsFor(s, p, up)
  {
    match x
    case DecideUp(_, action, u) => DecideRests(env, s, p, action, u);
    case DecideDown(_, action, u) => DecideRests(env, s, p, action, u);
    case _ =>
  }

  lemma DecideRests(env: Env, s: State, p: string, action: Action, u: nat)
    requires OfFleet(env, s, p)
    ensures p in AfterDecideUp(env, s, p, action, u).scalers && p in AfterDecideDown(env, s, p, action, u).scalers
    ensures var pc := AfterDecideUp(env, s, p, action, u).scalers[p].pc; pc == Resting || pc.Blocked?
    ensures var pc := AfterDecideDown(env, s, p, action, u).scalers[p].pc; pc == Resting || pc.Blocked?
  {
  }

  lemma EvaluateHeads(env: Env, s: State, p: string, l: seq<Agent>, up: bool)
    requires OfFleet(env, s, p) && PollEnabled(env, s, p, Evaluate(l))
    ensures HeadsFor(PollApply(env, s, p, Evaluate(l)), p, up) <==> Warrants(env, s, Poll(p, Evaluate(l)), p, up)
  {
    VerdictMeans(env.fleet[p], s.scalers[p].history, s.clock, l, p);
  }

  lemma WarrantedStays(env: Env, states: seq<State>, labels: seq<Label>, n: nat, p: string, up: bool)
    requires Warranted(env, states, labels, n, p, up) && n < |labels| && !Evaluates(labels[n], p)
    ensures Warranted(env, states, labels, n + 1, p, up)
  {
  }

  lemma WarrantedStep(env: Env, states: seq<State>, labels: seq<Label>, n: nat, p: string, up: bool)
    requires n < |labels| && n + 1 < |states| && Step(env, states[n], labels[n], states[n+1]) && OfFleet(env, states[n], p)
    requires HeadsFor(states[n], p, up) ==> Warranted(env, states, labels, n, p, up)
    ensures HeadsFor(states[n+1], p, up) ==> Warranted(env, states, labels, n + 1, p, up)
  {
    if HeadsFor(states[n+1], p, up) {
      if Evaluates(labels[n], p) {
        EvaluateHeads(env, states[n], p, labels[n].poll.l, up);
      } else {
        HeadedBefore(env, states[n], labels[n], p, up);
        WarrantedStays(env, states, labels, n, p, up);
      }
    }
  }

  lemma {:induction false} HeadedIsWarranted(env: Env, states: seq<State>, labels: seq<Label>, n: nat, p: string, up: bool)
    requires Run(env, states, labels) && n < |states| && p in env.fleet && HeadsFor(states[n], p, up)
    ensures Warranted(env, states, labels, n, p, up)
  {
    if n > 0 {
      var m := n - 1;
      if HeadsFor(states[m], p, up) { HeadedIsWarranted(env, states, labels, m, p, up); }
      InFleet(env, states, labels, m, p);
      assert Step(env, states[m], labels[m], states[m+1]);
      WarrantedStep(env, states, labels, m, p, up);
    }
  }

  /** The autoscaler of p decides something at n. */
  ghost predicate Decides(l: Label, p: string, up: bool) {
    l.Poll? && l.p == p && if up then l.poll.DecideUp? else l.poll.DecideDown?
  }

  /** Every decision to scale up, or down, follows an evaluation at which all online agents
      of the provider had been high, or low, for a whole window, and no evaluation since. */
  lemma DecisionsAreWarranted(env: Env, states: seq<State>, labels: seq<Label>, n: nat, p: string, up: bool)
    requires Run(env, states, labels) && n < |labels| && Decides(labels[n], p, up)
    ensures Warranted(env, states, labels, n, p, up)
  {
    assert Step(env, states[n], labels[n], states[n+1]);
    HeadedIsWarranted(env, states, labels, n, p, up);
  }

  lemma EvaluateRests(env: Env, s: State, p: string, l: seq<Agent>)
    requires OfFleet(env, s, p) && PollEnabled(env, s, p, Evaluate(l))
    ensures var s' := PollApply(env, s, p, Evaluate(l));
            p in s'.scalers && (s'.scalers[p].pc == Resting || s'.scalers[p].pc == CheckingUp || s'.scalers[p].pc == CheckingDown)
  {
  }

  lemma EvaluateEnables(env: Env, s: State, p: string, l: seq<Agent>)
    requires OfFleet(env, s, p) && PollEnabled(env, s, p, Evaluate(l))
    ensures var s' := PollApply(env, s, p, Evaluate(l));
            && (Enabled(env, s', Poll(p, CheckUp)) <==> HeadsFor(s', p, true))
            && (Enabled(env, s', Poll(p, CheckDown)) <==> HeadsFor(s', p, false))
  {
    EvaluateRests(env, s, p, l);
  }

  /** And every such evaluation leads on: the loop goes to the cooldown check of exactly
      the direction warranted, and otherwise rests until its next poll. */
  lemma EvaluationLeadsOn(env: Env, states: seq<State>, labels: seq<Label>, m: nat, p: string)
    requires Run(env, states, labels) && m < |labels| && Evaluates(labels[m], p)
    ensures Enabled(env, states[m+1], Poll(p, CheckUp)) <==> Warrants(env, states[m], labels[m], p, true)
    ensures Enabled(env, states[m+1], Poll(p, CheckDown)) <==> Warrants(env, states[m], labels[m], p, false)
    ensures p in states[m+1].scalers
    ensures states[m+1].scalers[p].pc == Resting <==>
              !Warrants(env, states[m], labels[m], p, true) && !Warrants(env, states[m], labels[m], p, false)
  {
    var s, s', l := states[m], states[m+1], labels[m].poll.l;
    assert Step(env, s, labels[m], s') && labels[m] == Poll(p, Evaluate(l));
    EvaluateHeads(env, s, p, l, true);
    EvaluateHeads(env, s, p, l, false);
    EvaluateRests(env, s, p, l);
    EvaluateEnables(env, s, p, l);
  }

  // ---------------------------------------------------------------------- the cooldown

  /** The autoscaler of p starts something at n. */
  ghost predicate Starts(l: Label, p: string, up: bool) {
    && Decides(l, p, up)
    && if up then l.poll.action.SpawnSmallest? || l.poll.action.UpgradeNode? else l.poll.action.RemoveNode?
  }

  function LastOf(sc: Scaler, up: bool): Option<int> { if up then sc.lastUp else sc.lastDown }

  /** The time of the last start before n. */
  ghost predicate IsLastStart(states: seq<State>, labels: seq<Label>, n: nat, p: string, up: bool, last: Option<int>) {
    match last
    case None => forall d :: 0 <= d < n && d < |labels| ==> !Starts(labels[d], p, up)
    case Some(x) =>
      && (exists d :: 0 <= d < n && d < |labels| && d < |states| && Starts(labels[d], p, up) && states[d].clock == x)
      && (forall d :: 0 <= d < n && d < |labels| && d < |states| && Starts(labels[d], p, up) ==> states[d].clock <= x)
  }

  lemma DecideLast(env: Env, s: State, p: string, action: Action, u: nat)
    requires OfFleet(env, s, p)
    ensures var s' := AfterDecideUp(env, s, p, action, u);
            && p in s'.scalers && s'.scalers[p].lastDown == s.scalers[p].lastDown
            && s'.scalers[p].lastUp == if action.SpawnSmallest? || action.UpgradeNode? then Some(s.clock) else s.scalers[p].lastUp
    ensures var s' := AfterDecideDown(env, s, p, action, u);
            && p in s'.scalers && s'.scalers[p].lastUp == s.scalers[p].lastUp
            && s'.scalers[p].lastDown == if action.RemoveNode? then Some(s.clock) else s.scalers[p].lastDown
  {
  }

  lemma LastStep(env: Env, s: State, l: Label, p: string, up: bool)
    requires Enabled(env, s, l) && OfFleet(env, s, p)
    ensures p in Apply(env, s, l).scalers
    ensures LastOf(Apply(env, s, l).scalers[p], up) ==
            if Starts(l, p, up) then Some(s.clock) else LastOf(s.scalers[p], up)
  {
    match l
    case Tick(_) =>
    case Poll(q, x) =>
      if q != p {
        OthersSoft(env, s, l, p);
      } else {
        match x
        case DecideUp(_, action, u) => DecideLast(env, s, p, action, u);
        case DecideDown(_, action, u) => DecideLast(env, s, p, action, u);
        case _ =>
      }
    case _ => OthersSoft(env, s, l, p);
  }

  lemma LastStartStep(states: seq<State>, labels: seq<Label>, n: nat, p: string, up: bool, last: Option<int>)
    requires n < |labels| && n < |states| && IsLastStart(states, labels, n, p, up, last)
    requires last.Some? ==> last.value <= states[n].clock
    ensures IsLastStart(states, labels, n + 1, p, up, if Starts(labels[n], p, up) then Some(states[n].clock) else last)
  {
    if last.Some? && !Starts(labels[n], p, up) {
      var d :| 0 <= d < n && d < |labels| && d < |states| && Starts(labels[d], p, up) && states[d].clock == last.value;
    }
  }

  lemma {:induction false} LastStartIs(env: Env, states: seq<State>, labels: seq<Label>, n: nat, p: string, up: bool)
    requires Run(env, states, labels) && n < |states| && p in env.fleet
    ensures p in states[n].scalers
    ensures IsLastStart(states, labels, n, p, up, LastOf(states[n].scalers[p], up))
    ensures LastOf(states[n].scalers[p], up).Some? ==> LastOf(states[n].scalers[p], up).value <= states[n].clock
  {
    if n > 0 {
      var m := n - 1;
      LastStartIs(env, states, labels, m, p, up);
      assert Step(env, states[m], labels[m], states[m+1]);
      LastStep(env, states[m], labels[m], p, up);
      LastStartStep(states, labels, m, p, up, LastOf(states[m].scalers[p], up));
      ClockGrows(env, states[m], labels[m]);
    }
  }

  /** After its cooldown check the loop is to decide, up or down, if and only if a cooldown
      has passed since everything it started in that direction. */
  lemma CooldownIff(env: Env, states: seq<State>, labels: seq<Label>, n: nat, p: string, up: bool)
    requires Run(env, states, labels) && n < |labels| && p in env.fleet
    requires labels[n] == Poll(p, if up then CheckUp else CheckDown)
    ensures p in states[n+1].scalers
    ensures states[n+1].scalers[p].pc == (if up then DecidingUp else DecidingDown) <==>
              forall d :: 0 <= d < n && Starts(labels[d], p, up) ==>
                states[d].clock + env.fleet[p].cooldown <= states[n].clock
    ensures states[n+1].scalers[p].pc == (if up then DecidingUp else DecidingDown) || states[n+1].scalers[p].pc == Resting
  {
    assert Step(env, states[n], labels[n], states[n+1]);
    LastStartIs(env, states, labels, n, p, up);
    var last := LastOf(states[n].scalers[p], up);
    if last.Some? {
      var d :| 0 <= d < n && d < |labels| && d < |states| && Starts(labels[d], p, up) && states[d].clock == last.value;
    }
  }

  // ------------------------------------------------------------------- whom it picks

  /** Where the o-th record of p stands in the listing. */
  lemma {:induction false} ManagedAt(l: seq<Agent>, p: string, o: nat) returns (k: nat)
    requires o < |ManagedOf(l, p)|
    ensures k < |l| && l[k] == ManagedOf(l, p)[o] && ManagedOf(l[..k], p) == ManagedOf(l, p)[..o]
  {
    var n := |l| - 1;
    var front := ManagedOf(l[..n], p);
    if o < |front| {
      k := ManagedAt(l[..n], p, o);
      assert l[..n][..k] == l[..k];
    } else {
      k := n;
    }
  }

  lemma EarlierManaged(l: seq<Agent>, p: string, o: nat, k: nat, j: nat)
    requires o < |ManagedOf(l, p)| && k < |l| && ManagedOf(l[..k], p) == ManagedOf(l, p)[..o] && j < k && l[j].provider == p
    ensures exists i :: 0 <= i < o && ManagedOf(l, p)[i] == l[j]
  {
    assert l[..k][j] == l[j];
    ManagedOfMembers(l[..k], p, l[j]);
    var i :| 0 <= i < |ManagedOf(l[..k], p)| && ManagedOf(l[..k], p)[i] == l[j];
  }

  /** How many agents of the provider the store holds. */
  ghost function FleetSize(s: State, p: string): nat { |set id | id in s.agents && s.agents[id].provider == p| }

  /** An idle node of another type than the largest. */
  predicate Outdated(a: Agent, p: string, largest: string) {
    a.provider == p && a.activeCount == 0 && a.instanceType != largest
  }

  /** An idle node that is not draining. */
  predicate Spare(a: Agent, p: string) { a.provider == p && a.activeCount <= 0 && a.status != Draining }

  /** Reported CPU and memory load together; none without a report. */
  function LoadOfAgent(a: Agent): real {
    if a.nodeStatus.Some? then a.nodeStatus.value.cpuPercent + a.nodeStatus.value.memPercent else 0.0
  }

  /** The largest entry's name: no entry before it is as large, none after it larger. */
  ghost predicate NamesLargest(nodeTypes: seq<NodeType>, name: string) {
    if nodeTypes == [] then name == "" else
    exists k :: && 0 <= k < |nodeTypes| && nodeTypes[k].instanceType == name
                && forall j :: 0 <= j < |nodeTypes| ==>
                     AsLarge(nodeTypes[k], nodeTypes[j]) && (j < k ==> !AsLarge(nodeTypes[j], nodeTypes[k]))
  }

  predicate AsLarge(x: NodeType, y: NodeType) {
    y.vcpus < x.vcpus || (y.vcpus == x.vcpus && y.memoryGB <= x.memoryGB)
  }

  lemma LargestNamed(nodeTypes: seq<NodeType>, name: string)
    requires IsLargestType(nodeTypes, name)
    ensures NamesLargest(nodeTypes, name)
  {
    if nodeTypes != [] {
      var k :| && 0 <= k < |nodeTypes| && nodeTypes[k].instanceType == name
               && IsLargest(nodeTypes, ResourcesOf(nodeTypes[k]))
               && forall j :: 0 <= j < k ==> ResourcesOf(nodeTypes[j]) != ResourcesOf(nodeTypes[k]);
      SizesAreByCpuThenMemory(nodeTypes, ResourcesOf(nodeTypes[k]));
    }
  }

  /** The record at k is the first of the listing that an upgrade can take. */
  ghost predicate PicksForUpgrade(l: seq<Agent>, p: string, largest: string, k: nat) {
    k < |l| && Outdated(l[k], p, largest) && forall j :: 0 <= j < k ==> !Outdated(l[j], p, largest)
  }

  /** The record at k is the first of the least loaded ones that can be spared. */
  ghost predicate PicksForRemoval(l: seq<Agent>, p: string, k: nat) {
    && k < |l| && Spare(l[k], p)
    && forall j :: 0 <= j < |l| && Spare(l[j], p) ==>
         LoadOfAgent(l[k]) <= LoadOfAgent(l[j]) && (j < k ==> LoadOfAgent(l[k]) < LoadOfAgent(l[j]))
  }

  lemma UpgradePick(l: seq<Agent>, p: string, largest: string, c: Option<Agent>)
    requires IsUpgradeChoice(ManagedOf(l, p), largest, c)
    ensures match c
            case Some(a) => exists k: nat :: PicksForUpgrade(l, p, largest, k) && l[k] == a
            case None => forall j :: 0 <= j < |l| ==> !Outdated(l[j], p, largest)
  {
    var ms := ManagedOf(l, p);
    match c
    case Some(a) =>
      var o :| 0 <= o < |ms| && ms[o] == a && Upgradable(a, largest) && forall j :: 0 <= j < o ==> !Upgradable(ms[j], largest);
      var k := ManagedAt(l, p, o);
      ManagedOfMembers(l, p, a);
      forall j | 0 <= j < k ensures !Outdated(l[j], p, largest) {
        if l[j].provider == p { EarlierManaged(l, p, o, k, j); }
      }
      assert PicksForUpgrade(l, p, largest, k);
    case None =>
      forall j | 0 <= j < |l| ensures !Outdated(l[j], p, largest) {
        ManagedOfMembers(l, p, l[j]);
        if l[j].provider == p { var i :| 0 <= i < |ms| && ms[i] == l[j]; }
      }
  }

  lemma RemovalPick(l: seq<Agent>, p: string, c: Option<Agent>)
    requires IsRemovalChoice(ManagedOf(l, p), c)
    ensures match c
            case Some(a) => exists k: nat :: PicksForRemoval(l, p, k) && l[k] == a
            case None => forall j :: 0 <= j < |l| ==> !Spare(l[j], p)
  {
    var ms := ManagedOf(l, p);
    forall j | 0 <= j < |l| && l[j].provider == p ensures exists i :: 0 <= i < |ms| && ms[i] == l[j] {
      ManagedOfMembers(l, p, l[j]);
    }
    match c
    case Some(a) =>
      var o :| && 0 <= o < |ms| && ms[o] == a && Removable(a)
               && (forall j :: 0 <= j < |ms| && Removable(ms[j]) ==> a.Pressure() <= ms[j].Pressure())
               && (forall j :: 0 <= j < o && Removable(ms[j]) ==> a.Pressure() < ms[j].Pressure());
      var k := ManagedAt(l, p, o);
      ManagedOfMembers(l, p, a);
      LeastPicked(l, p, o, k);
      assert PicksForRemoval(l, p, k);
    case None =>
      forall j | 0 <= j < |l| ensures !Spare(l[j], p) {
        if l[j].provider == p { var i :| 0 <= i < |ms| && ms[i] == l[j]; }
      }
  }

  lemma LeastPicked(l: seq<Agent>, p: string, o: nat, k: nat)
    requires var ms := ManagedOf(l, p);
             && o < |ms| && k < |l| && l[k] == ms[o] && ManagedOf(l[..k], p) == ms[..o]
             && (forall j :: 0 <= j < |l| && l[j].provider == p ==> exists i :: 0 <= i < |ms| && ms[i] == l[j])
             && (forall j :: 0 <= j < |ms| && Removable(ms[j]) ==> ms[o].Pressure() <= ms[j].Pressure())
             && (forall j :: 0 <= j < o && Removable(ms[j]) ==> ms[o].Pressure() < ms[j].Pressure())
    ensures forall j :: 0 <= j < |l| && Spare(l[j], p) ==>
              LoadOfAgent(l[k]) <= LoadOfAgent(l[j]) && (j < k ==> LoadOfAgent(l[k]) < LoadOfAgent(l[j]))
  {
    forall j | 0 <= j < |l| && Spare(l[j], p)
      ensures LoadOfAgent(l[k]) <= LoadOfAgent(l[j]) && (j < k ==> LoadOfAgent(l[k]) < LoadOfAgent(l[j]))
    {
      var i :| 0 <= i < |ManagedOf(l, p)| && ManagedOf(l, p)[i] == l[j];
      if j < k { EarlierManaged(l, p, o, k, j); }
    }
  }

  lemma FleetCounted(s: State, l: seq<Agent>, p: string)
    requires Keyed(s.agents) && Listing(s.agents, l)
    ensures |ManagedOf(l, p)| == FleetSize(s, p)
  {
    ManagedCount(s.agents, l, p);
    assert ManagedIds(s.agents, p) == (set id | id in s.agents && s.agents[id].provider == p);
  }

  /** What scaling up does: spawn if and only if the provider's agents are fewer than the
      limit, else upgrade the first idle node that is not of the largest type. */
  lemma UpPicks(env: Env, states: seq<State>, labels: seq<Label>, n: nat, p: string, l: seq<Agent>, action: Action, u: nat)
    returns (largest: string)
    requires Run(env, states, labels) && n < |labels| && labels[n] == Poll(p, DecideUp(l, action, u))
    ensures p in env.fleet && Listing(states[n].agents, l)
    ensures action == SpawnSmallest <==> FleetSize(states[n], p) < env.fleet[p].maxNodes
    ensures action != SpawnSmallest ==> NamesLargest(env.fleet[p].nodeTypes, largest)
    ensures match action
            case SpawnSmallest => true
            case UpgradeNode(a) => exists k: nat :: PicksForUpgrade(l, p, largest, k) && l[k] == a
            case NothingToUpgrade => forall j :: 0 <= j < |l| ==> !Outdated(l[j], p, largest)
            case _ => false
  {
    RunStep(env, states, labels, n);
    FleetCounted(states[n], l, p);
    var ms := ManagedOf(l, p);
    largest := "";
    if |ms| >= env.fleet[p].maxNodes {
      var name, c :| && IsLargestType(env.fleet[p].nodeTypes, name) && IsUpgradeChoice(ms, name, c)
                     && action == if c.Some? then UpgradeNode(c.value) else NothingToUpgrade;
      LargestNamed(env.fleet[p].nodeTypes, name);
      UpgradePick(l, p, name, c);
      largest := name;
    }
  }

  /** What scaling down does: nothing at or under the minimum, else remove the first of the
      least loaded idle nodes that are not draining, if there is one. */
  lemma DownPicks(env: Env, states: seq<State>, labels: seq<Label>, n: nat, p: string, l: seq<Agent>, action: Action, u: nat)
    requires Run(env, states, labels) && n < |labels| && labels[n] == Poll(p, DecideDown(l, action, u))
    ensures p in env.fleet && Listing(states[n].agents, l)
    ensures action == AtMinimum <==> FleetSize(states[n], p) <= env.fleet[p].minNodes
    ensures match action
            case AtMinimum => true
            case RemoveNode(a) => exists k: nat :: PicksForRemoval(l, p, k) && l[k] == a
            case NothingIdle => forall j :: 0 <= j < |l| ==> !Spare(l[j], p)
            case _ => false
  {
    RunStep(env, states, labels, n);
    FleetCounted(states[n], l, p);
    var ms := ManagedOf(l, p);
    if |ms| > env.fleet[p].minNodes {
      var c :| IsRemovalChoice(ms, c) && action == if c.Some? then RemoveNode(c.value) else NothingIdle;
      RemovalPick(l, p, c);
    }
  }
}
