/** A poll of the step system that nothing interleaves with is a poll of the sequential
    autoscaler, and every poll of the sequential autoscaler is one. */
module FleetSolo {
  import opened Models
  import opened AgentRegistry
  import opened Scaling
  import opened FleetModel

  ghost function SeenBy(s: State, p: string): Snapshot
    requires p in s.scalers
  {
    Snapshot(s.agents, s.scalers[p].history, s.scalers[p].lastUp, s.scalers[p].lastDown)
  }

  /** The loop's own step, the mark it waits for, or time going by while it sweeps. */
  ghost predicate IsSolo(s: State, l: Label, p: string) {
    && p in s.scalers
    && match l
       case Poll(q, x) => q == p && !x.PollStart?
       case Act(t, x) => s.scalers[p].pc == Blocked(t) && x == Mark
       case Tick(_) => s.scalers[p].pc.Sampling?
       case Operator(_) => false
  }

  ghost predicate Solo(env: Env, s: State, p: string, l: seq<Agent>, states: seq<State>, labels: seq<Label>) {
    && |states| == |labels| + 1 && states[0] == s && labels != [] && labels[0] == Poll(p, PollStart(l))
    && (forall i :: 0 <= i < |labels| ==> Step(env, states[i], labels[i], states[i+1]))
    && (forall i :: 0 < i < |labels| ==> IsSolo(states[i], labels[i], p))
  }

  /** The loop rests again, or is inside the spawn that it called. */
  ghost predicate Over(s: State, p: string) {
    && p in s.scalers
    && match s.scalers[p].pc
       case Resting => true
       case Blocked(t) => t in s.acts && s.acts[t].role == Direct
       case _ => false
  }

  /** What an action starts: at most one goroutine. */
  ghost predicate Starts(acts: map<nat, Activity>, p: string, action: Action, now: int, acts': map<nat, Activity>) {
    match action
    case SpawnSmallest => exists t: nat :: t !in acts && acts' == acts[t := Activity(Direct, Launching, p, NO_NODE, now, now)]
    case UpgradeNode(a) => exists t: nat :: t !in acts && acts' == acts[t := Activity(Upgrade, Waiting, p, NodeOf(a), now, now)]
    case RemoveNode(a) => exists t: nat :: t !in acts && acts' == acts[t := Activity(ScaleDown, Waiting, p, NodeOf(a), now, now)]
    case _ => acts' == acts
  }

  /** What the sequential poll may leave. */
  ghost predicate PollLeaves(env: Env, s: State, p: string, l: seq<Agent>, replies: seq<Option<NodeStatus>>, end: State,
                             dir: Direction, action: Action)
    requires OfFleet(env, s, p)
  {
    && |replies| == |l| && p in end.scalers
    && Outcome(env.fleet[p], p, Swept(SeenBy(s, p), p, l, replies, s.clock, env.fleet[p].window), end.clock,
               dir, action, SeenBy(end, p))
    && Starts(s.acts, p, action, end.clock, end.acts)
  }

  ghost predicate Leaves(env: Env, s: State, p: string, l: seq<Agent>, end: State)
    requires OfFleet(env, s, p)
  {
    exists replies, dir, action :: PollLeaves(env, s, p, l, replies, end, dir, action)
  }

  // ------------------------------------------------------- each solo poll is a poll

  /** What is seen after the first agents of the listing were probed. */
  ghost function SweptTo(env: Env, s: State, p: string, l: seq<Agent>, replies: seq<Option<NodeStatus>>): Snapshot
    requires OfFleet(env, s, p) && |replies| <= |l|
  {
    Swept(SeenBy(s, p), p, l[..|replies|], replies, s.clock, env.fleet[p].window)
  }

  lemma SweptMore(env: Env, s: State, p: string, l: seq<Agent>, replies: seq<Option<NodeStatus>>, r: Option<NodeStatus>)
    requires OfFleet(env, s, p) && |replies| < |l|
    ensures var a, v, v' := l[|replies|], SweptTo(env, s, p, l, replies), SweptTo(env, s, p, l, replies + [r]);
            && v'.lastUp == v.lastUp && v'.lastDown == v.lastDown
            && v'.agents == (if a.status == Draining then v.agents
                             else if r.None? then WithOffline(v.agents, a.id) else WithNodeStatus(v.agents, a.id, r.value))
            && v'.history == if a.status == Draining || r.None? || a.provider != p then v.history
                             else Recorded(v.history, a.id, SampleOf(r.value, s.clock), env.fleet[p].window)
  {
    var k := |replies|;
    assert l[..k+1][..k] == l[..k] && (replies + [r])[..k] == replies;
  }

  ghost predicate SampledTo(env: Env, s: State, p: string, l: seq<Agent>, now: State, replies: seq<Option<NodeStatus>>)
    requires OfFleet(env, s, p) && p in now.scalers
  {
    var pc := now.scalers[p].pc;
    && pc.Sampling? && pc.now == s.clock && now.acts == s.acts && |replies| <= |l|
    && pc.todo == l[|replies|..] && SeenBy(now, p) == SweptTo(env, s, p, l, replies)
  }

  /** The last agent asked has answered and is to be recorded. */
  ghost predicate AnsweredTo(env: Env, s: State, p: string, l: seq<Agent>, now: State, replies: seq<Option<NodeStatus>>)
    requires OfFleet(env, s, p) && p in now.scalers
  {
    var pc := now.scalers[p].pc;
    && pc.Recording? && pc.now == s.clock && now.acts == s.acts && |replies| < |l|
    && pc.agent == l[|replies|] && pc.todo == l[|replies|+1..] && pc.agent.status != Draining && pc.agent.provider == p
    && SeenBy(now, p) == SweptTo(env, s, p, l, replies).(agents := SweptTo(env, s, p, l, replies + [Some(pc.ns)]).agents)
  }

  ghost predicate JudgedAs(env: Env, s: State, p: string, l: seq<Agent>, now: State, dir: Direction,
                           replies: seq<Option<NodeStatus>>)
    requires OfFleet(env, s, p) && p in now.scalers
  {
    && |replies| == |l| && now.acts == s.acts
    && SeenBy(now, p) == Swept(SeenBy(s, p), p, l, replies, s.clock, env.fleet[p].window)
    && IsVerdict(env.fleet[p], p, SeenBy(now, p), now.clock, dir)
  }

  /** With the mark set and the histories emptied that the loop is about to. */
  ghost function Settled(s: State, p: string): State
    requires p in s.scalers
  {
    match s.scalers[p].pc
    case Blocked(t) =>
      if t in s.acts && s.acts[t].p == p && s.acts[t].role != Direct then Emptied(AfterMark(s, t), p) else s
    case _ => Emptied(s, p)
  }

  ghost function Emptied(s: State, p: string): State
    requires p in s.scalers
  {
    if s.scalers[p].pc == Emptying
    then WithScaler(s, p, s.scalers[p].(pc := Resting, history := map[], quietFrom := Some(s.clock))) else s
  }

  /** Where a solo poll stands. */
  ghost predicate Stands(env: Env, s: State, p: string, l: seq<Agent>, now: State)
    requires OfFleet(env, s, p)
  {
    && p in now.scalers && s.clock <= now.clock
    && match now.scalers[p].pc
       case Sampling(_, _, _) => exists replies :: SampledTo(env, s, p, l, now, replies)
       case Recording(_, _, _, _, _) => exists replies :: AnsweredTo(env, s, p, l, now, replies)
       case CheckingUp => exists replies :: JudgedAs(env, s, p, l, now, Up, replies)
       case CheckingDown => exists replies :: JudgedAs(env, s, p, l, now, Down, replies)
       case DecidingUp =>
         && Cooled(now.scalers[p].lastUp, now.clock, env.fleet[p].cooldown)
         && exists replies :: JudgedAs(env, s, p, l, now, Up, replies)
       case DecidingDown =>
         && Cooled(now.scalers[p].lastDown, now.clock, env.fleet[p].cooldown)
         && exists replies :: JudgedAs(env, s, p, l, now, Down, replies)
       case Blocked(t) =>
         && t in now.acts && now.acts[t].p == p && (now.acts[t].role == Direct ==> now.acts[t].phase == Launching)
         && Leaves(env, s, p, l, Settled(now, p))
       case _ => Leaves(env, s, p, l, Settled(now, p))
  }

  lemma SweepStands(env: Env, s: State, p: string, l: seq<Agent>, now: State, x: PollStep)
    requires OfFleet(env, s, p) && Stands(env, s, p, l, now) && PollEnabled(env, now, p, x)
    requires x.ProbeSkip? || x.ProbeError? || x.ProbeReply?
    ensures Stands(env, s, p, l, PollApply(env, now, p, x))
  {
    var pc, now' := now.scalers[p].pc, PollApply(env, now, p, x);
    var replies :| SampledTo(env, s, p, l, now, replies);
    assert pc.todo[0] == l[|replies|] && pc.todo[1..] == l[|replies|+1..];
    var r := if x.ProbeReply? then Some(x.ns) else None;
    SweptMore(env, s, p, l, replies, r);
    if now'.scalers[p].pc.Recording? {
      assert AnsweredTo(env, s, p, l, now', replies);
    } else {
      assert SampledTo(env, s, p, l, now', replies + [r]);
    }
  }

  lemma RecordStands(env: Env, s: State, p: string, l: seq<Agent>, now: State)
    requires OfFleet(env, s, p) && Stands(env, s, p, l, now) && PollEnabled(env, now, p, Record)
    ensures Stands(env, s, p, l, PollApply(env, now, p, Record))
  {
    var pc := now.scalers[p].pc;
    var replies :| AnsweredTo(env, s, p, l, now, replies);
    SweptMore(env, s, p, l, replies, Some(pc.ns));
    assert SampledTo(env, s, p, l, PollApply(env, now, p, Record), replies + [Some(pc.ns)]);
  }

  lemma EvaluateStands(env: Env, s: State, p: string, l: seq<Agent>, now: State, all: seq<Agent>)
    requires OfFleet(env, s, p) && Stands(env, s, p, l, now) && PollEnabled(env, now, p, Evaluate(all))
    ensures Stands(env, s, p, l, PollApply(env, now, p, Evaluate(all)))
  {
    var now' := PollApply(env, now, p, Evaluate(all));
    var replies :| SampledTo(env, s, p, l, now, replies);
    assert l[..|l|] == l;
    var dir := Verdict(env.fleet[p], now.scalers[p].history, ManagedOf(OnlineOf(all), p), now.clock);
    assert SeenBy(now', p) == SeenBy(now, p);
    assert JudgedAs(env, s, p, l, now', dir, replies);
    if dir == Neutral { assert PollLeaves(env, s, p, l, replies, now', Neutral, Idle); }
  }

  lemma CheckStands(env: Env, s: State, p: string, l: seq<Agent>, now: State, x: PollStep)
    requires OfFleet(env, s, p) && Stands(env, s, p, l, now) && PollEnabled(env, now, p, x) && (x == CheckUp || x == CheckDown)
    ensures Stands(env, s, p, l, PollApply(env, now, p, x))
  {
    var now' := PollApply(env, now, p, x);
    var dir := if x == CheckUp then Up else Down;
    var replies :| JudgedAs(env, s, p, l, now, dir, replies);
    assert SeenBy(now', p) == SeenBy(now, p);
    assert JudgedAs(env, s, p, l, now', dir, replies);
    if now'.scalers[p].pc == Resting { assert PollLeaves(env, s, p, l, replies, now', dir, Cooling); }
  }

  lemma UpStarts(env: Env, s: State, p: string, now: State, action: Action, u: nat)
    requires OfFleet(env, s, p) && OfFleet(env, now, p) && now.acts == s.acts
    requires u !in s.acts && (action.SpawnSmallest? || action.UpgradeNode? || action.NothingToUpgrade?)
    ensures var now' := AfterDecideUp(env, now, p, action, u);
            && p in now'.scalers && now'.clock == now.clock
            && (now'.scalers[p].pc == Resting || (now'.scalers[p].pc == Blocked(u) && u in now'.acts && now'.acts[u].p == p
                    && (now'.acts[u].role == Direct ==> now'.acts[u].phase == Launching)))
            && var end := Settled(now', p);
               && p in end.scalers && end.clock == now.clock && SeenBy(end, p) == Effects(SeenBy(now, p), now.clock, action)
               && Starts(s.acts, p, action, now.clock, end.acts)
  {
    var end := Settled(AfterDecideUp(env, now, p, action, u), p);
    match action
    case SpawnSmallest => assert end.acts == s.acts[u := Activity(Direct, Launching, p, NO_NODE, now.clock, now.clock)];
    case UpgradeNode(a) => assert end.acts == s.acts[u := Activity(Upgrade, Waiting, p, NodeOf(a), now.clock, now.clock)];
    case _ =>
  }

  lemma DownStarts(env: Env, s: State, p: string, now: State, action: Action, u: nat)
    requires OfFleet(env, s, p) && OfFleet(env, now, p) && now.acts == s.acts
    requires u !in s.acts && (action.RemoveNode? || action.AtMinimum? || action.NothingIdle?)
    ensures var now' := AfterDecideDown(env, now, p, action, u);
            && p in now'.scalers && now'.clock == now.clock
            && (now'.scalers[p].pc == Resting || (now'.scalers[p].pc == Blocked(u) && u in now'.acts && now'.acts[u].p == p
                    && (now'.acts[u].role == Direct ==> now'.acts[u].phase == Launching)))
            && var end := Settled(now', p);
               && p in end.scalers && end.clock == now.clock && SeenBy(end, p) == Effects(SeenBy(now, p), now.clock, action)
               && Starts(s.acts, p, action, now.clock, end.acts)
  {
    var end := Settled(AfterDecideDown(env, now, p, action, u), p);
    match action
    case RemoveNode(a) => assert end.acts == s.acts[u := Activity(ScaleDown, Waiting, p, NodeOf(a), now.clock, now.clock)];
    case _ =>
  }

  lemma ActionLeaves(env: Env, s: State, p: string, l: seq<Agent>, now: State, dir: Direction, action: Action, end: State)
    requires OfFleet(env, s, p) && p in now.scalers && exists replies :: JudgedAs(env, s, p, l, now, dir, replies)
    requires ActsOn(env.fleet[p], p, dir, SeenBy(now, p), now.clock, action)
    requires p in end.scalers && end.clock == now.clock && SeenBy(end, p) == Effects(SeenBy(now, p), now.clock, action)
    requires Starts(s.acts, p, action, now.clock, end.acts)
    ensures Leaves(env, s, p, l, end)
  {
    var replies :| JudgedAs(env, s, p, l, now, dir, replies);
    assert PollLeaves(env, s, p, l, replies, end, dir, action);
  }

  lemma ChoiceActs(cfg: Config, p: string, v: Snapshot, now: int, all: seq<Agent>, action: Action)
    requires Listing(v.agents, all)
    ensures Cooled(v.lastUp, now, cfg.cooldown) && UpChoice(cfg, ManagedOf(all, p), action) ==>
              ActsOn(cfg, p, Up, v, now, action) && (action.SpawnSmallest? || action.UpgradeNode? || action.NothingToUpgrade?)
    ensures Cooled(v.lastDown, now, cfg.cooldown) && DownChoice(cfg, ManagedOf(all, p), action) ==>
              ActsOn(cfg, p, Down, v, now, action) && (action.RemoveNode? || action.AtMinimum? || action.NothingIdle?)
  {
  }

  lemma UpStands(env: Env, s: State, p: string, l: seq<Agent>, now: State, all: seq<Agent>, action: Action, u: nat)
    requires OfFleet(env, s, p) && Stands(env, s, p, l, now) && PollEnabled(env, now, p, DecideUp(all, action, u))
    ensures Stands(env, s, p, l, AfterDecideUp(env, now, p, action, u))
  {
    ChoiceActs(env.fleet[p], p, SeenBy(now, p), now.clock, all, action);
    UpStarts(env, s, p, now, action, u);
    ActionLeaves(env, s, p, l, now, Up, action, Settled(AfterDecideUp(env, now, p, action, u), p));
  }

  lemma DownStands(env: Env, s: State, p: string, l: seq<Agent>, now: State, all: seq<Agent>, action: Action, u: nat)
    requires OfFleet(env, s, p) && Stands(env, s, p, l, now) && PollEnabled(env, now, p, DecideDown(all, action, u))
    ensures Stands(env, s, p, l, AfterDecideDown(env, now, p, action, u))
  {
    ChoiceActs(env.fleet[p], p, SeenBy(now, p), now.clock, all, action);
    DownStarts(env, s, p, now, action, u);
    ActionLeaves(env, s, p, l, now, Down, action, Settled(AfterDecideDown(env, now, p, action, u), p));
  }

  lemma MarkStands(env: Env, s: State, p: string, l: seq<Agent>, now: State, t: nat)
    requires OfFleet(env, s, p) && Stands(env, s, p, l, now) && now.scalers[p].pc == Blocked(t)
    requires now.acts[t].role != Direct
    ensures Stands(env, s, p, l, AfterMark(now, t))
  {
    assert Settled(AfterMark(now, t), p) == Settled(now, p);
  }

  lemma OwnStands(env: Env, s: State, p: string, l: seq<Agent>, now: State, x: PollStep)
    requires OfFleet(env, s, p) && Stands(env, s, p, l, now) && PollEnabled(env, now, p, x) && !x.PollStart?
    ensures Stands(env, s, p, l, PollApply(env, now, p, x))
  {
    match x
    case ProbeSkip => SweepStands(env, s, p, l, now, x);
    case ProbeError => SweepStands(env, s, p, l, now, x);
    case ProbeReply(_) => SweepStands(env, s, p, l, now, x);
    case Record => RecordStands(env, s, p, l, now);
    case Evaluate(all) => EvaluateStands(env, s, p, l, now, all);
    case CheckUp => CheckStands(env, s, p, l, now, x);
    case CheckDown => CheckStands(env, s, p, l, now, x);
    case DecideUp(all, action, u) => UpStands(env, s, p, l, now, all, action, u);
    case DecideDown(all, action, u) => DownStands(env, s, p, l, now, all, action, u);
    case Empty => assert Settled(PollApply(env, now, p, Empty), p) == Settled(now, p);
  }

  lemma SoloStepStands(env: Env, s: State, p: string, l: seq<Agent>, now: State, x: Label)
    requires OfFleet(env, s, p) && Stands(env, s, p, l, now) && Enabled(env, now, x) && IsSolo(now, x, p)
    ensures Stands(env, s, p, l, Apply(env, now, x))
  {
    match x
    case Tick(d) =>
      var replies :| SampledTo(env, s, p, l, now, replies);
      assert SampledTo(env, s, p, l, Apply(env, now, x), replies);
    case Act(t, _) => MarkStands(env, s, p, l, now, t);
    case Poll(_, y) => OwnStands(env, s, p, l, now, y);
  }

  lemma StartStands(env: Env, s: State, p: string, l: seq<Agent>)
    requires OfFleet(env, s, p) && PollEnabled(env, s, p, PollStart(l))
    ensures Stands(env, s, p, l, PollApply(env, s, p, PollStart(l)))
  {
    assert SampledTo(env, s, p, l, PollApply(env, s, p, PollStart(l)), []);
  }

  lemma {:induction false} SoloStands(env: Env, s: State, p: string, l: seq<Agent>, states: seq<State>,
                                      labels: seq<Label>, n: nat)
    requires Solo(env, s, p, l, states, labels) && 0 < n < |states|
    ensures OfFleet(env, s, p) && Stands(env, s, p, l, states[n])
  {
    var m := n - 1;
    assert Step(env, states[m], labels[m], states[n]);
    if m == 0 {
      StartStands(env, s, p, l);
    } else {
      SoloStands(env, s, p, l, states, labels, m);
      SoloStepStands(env, s, p, l, states[m], labels[m]);
    }
  }

  // ------------------------------------------------------------- each poll is a solo poll

  ghost predicate Comes(env: Env, s: State, p: string, l: seq<Agent>, now: State) {
    exists states, labels :: Solo(env, s, p, l, states, labels) && states[|labels|] == now
  }

  lemma ComesOn(env: Env, s: State, p: string, l: seq<Agent>, now: State, x: Label)
    requires Comes(env, s, p, l, now) && Enabled(env, now, x) && IsSolo(now, x, p)
    ensures Comes(env, s, p, l, Apply(env, now, x))
  {
    var states, labels :| Solo(env, s, p, l, states, labels) && states[|labels|] == now;
    var more := states + [Apply(env, now, x)];
    assert Solo(env, s, p, l, more, labels + [x]) && more[|labels + [x]|] == Apply(env, now, x);
  }

  lemma ComesFirst(env: Env, s: State, p: string, l: seq<Agent>)
    requires OfFleet(env, s, p) && PollEnabled(env, s, p, PollStart(l))
    ensures Comes(env, s, p, l, PollApply(env, s, p, PollStart(l)))
  {
    var states, labels := [s, PollApply(env, s, p, PollStart(l))], [Poll(p, PollStart(l))];
    assert Solo(env, s, p, l, states, labels) && states[|labels|] == PollApply(env, s, p, PollStart(l));
  }

  /** What the k-th agent of the listing answers. */
  function Probe(a: Agent, reply: Option<NodeStatus>): PollStep {
    if a.status == Draining then ProbeSkip else if reply.None? then ProbeError else ProbeReply(reply.value)
  }

  lemma ProbeOne(env: Env, s: State, p: string, l: seq<Agent>, now: State, replies: seq<Option<NodeStatus>>,
                 r: Option<NodeStatus>)
    returns (next: State)
    requires OfFleet(env, s, p) && OfFleet(env, now, p) && Comes(env, s, p, l, now)
    requires SampledTo(env, s, p, l, now, replies) && |replies| < |l|
    ensures OfFleet(env, next, p) && Comes(env, s, p, l, next) && next.clock == now.clock
    ensures SampledTo(env, s, p, l, next, replies + [r])
  {
    var pc, a := now.scalers[p].pc, l[|replies|];
    assert pc.todo[0] == a && pc.todo[1..] == l[|replies|+1..];
    SweptMore(env, s, p, l, replies, r);
    var x := Probe(a, r);
    ComesOn(env, s, p, l, now, Poll(p, x));
    next := PollApply(env, now, p, x);
    if next.scalers[p].pc.Recording? {
      ComesOn(env, s, p, l, next, Poll(p, Record));
      next := PollApply(env, next, p, Record);
    }
  }

  lemma ProbeNone(env: Env, s: State, p: string, l: seq<Agent>) returns (now: State)
    requires OfFleet(env, s, p) && PollEnabled(env, s, p, PollStart(l))
    ensures OfFleet(env, now, p) && Comes(env, s, p, l, now) && now.clock == s.clock
    ensures SampledTo(env, s, p, l, now, [])
  {
    ComesFirst(env, s, p, l);
    now := PollApply(env, s, p, PollStart(l));
  }

  lemma {:induction false} ProbeAll(env: Env, s: State, p: string, l: seq<Agent>, replies: seq<Option<NodeStatus>>)
    returns (now: State)
    requires OfFleet(env, s, p) && PollEnabled(env, s, p, PollStart(l)) && |replies| <= |l|
    ensures OfFleet(env, now, p) && Comes(env, s, p, l, now) && now.clock == s.clock
    ensures SampledTo(env, s, p, l, now, replies)
    decreases |replies|
  {
    if replies == [] {
      now := ProbeNone(env, s, p, l);
    } else {
      var k := |replies| - 1;
      var front, r := replies[..k], replies[k];
      assert replies == front + [r];
      now := ProbeAll(env, s, p, l, front);
      now := ProbeOne(env, s, p, l, now, front, r);
    }
  }

  ghost function CheckedPc(dir: Direction): Pc {
    match dir
    case Up => CheckingUp
    case Down => CheckingDown
    case Neutral => Resting
  }

  /** Sweep, wait, judge. */
  lemma ReachVerdict(env: Env, s: State, p: string, l: seq<Agent>, replies: seq<Option<NodeStatus>>, later: int, dir: Direction)
    returns (now: State)
    requires OfFleet(env, s, p) && PollEnabled(env, s, p, PollStart(l)) && |replies| == |l| && s.clock <= later
    requires IsVerdict(env.fleet[p], p, Swept(SeenBy(s, p), p, l, replies, s.clock, env.fleet[p].window), later, dir)
    ensures OfFleet(env, now, p) && Comes(env, s, p, l, now) && now.clock == later && now.acts == s.acts
    ensures SeenBy(now, p) == Swept(SeenBy(s, p), p, l, replies, s.clock, env.fleet[p].window)
    ensures now.scalers[p].pc == CheckedPc(dir)
  {
    now := ProbeAll(env, s, p, l, replies);
    assert l[..|l|] == l;
    var waited := now.(clock := later);
    assert waited == Apply(env, now, Tick(later - s.clock));
    ComesOn(env, s, p, l, now, Tick(later - s.clock));
    now := EvaluateOne(env, s, p, l, waited, dir);
  }

  lemma EvaluateOne(env: Env, s: State, p: string, l: seq<Agent>, now: State, dir: Direction) returns (next: State)
    requires OfFleet(env, now, p) && Comes(env, s, p, l, now) && now.scalers[p].pc.Sampling? && now.scalers[p].pc.todo == []
    requires IsVerdict(env.fleet[p], p, SeenBy(now, p), now.clock, dir)
    ensures OfFleet(env, next, p) && Comes(env, s, p, l, next) && next.clock == now.clock && next.acts == now.acts
    ensures SeenBy(next, p) == SeenBy(now, p) && next.scalers[p].pc == CheckedPc(dir)
  {
    var all :| Listing(now.agents, all)
               && dir == Verdict(env.fleet[p], now.scalers[p].history, ManagedOf(OnlineOf(all), p), now.clock);
    next := PollApply(env, now, p, Evaluate(all));
    EvaluateShape(env, p, now, all, dir);
    ComesOn(env, s, p, l, now, Poll(p, Evaluate(all)));
  }

  lemma EvaluateShape(env: Env, p: string, now: State, all: seq<Agent>, dir: Direction)
    requires OfFleet(env, now, p) && PollEnabled(env, now, p, Evaluate(all))
    requires dir == Verdict(env.fleet[p], now.scalers[p].history, ManagedOf(OnlineOf(all), p), now.clock)
    ensures var next := PollApply(env, now, p, Evaluate(all));
            && OfFleet(env, next, p) && next.clock == now.clock && next.acts == now.acts
            && SeenBy(next, p) == SeenBy(now, p) && next.scalers[p].pc == CheckedPc(dir)
  {
  }

  lemma SettleDown(env: Env, s: State, p: string, l: seq<Agent>, now: State)
    returns (end: State)
    requires OfFleet(env, now, p) && Comes(env, s, p, l, now)
    requires match now.scalers[p].pc
             case Resting => true
             case Emptying => true
             case Blocked(t) =>
               t in now.acts && now.acts[t].p == p && (now.acts[t].role == Direct || now.acts[t].phase == Marking)
             case _ => false
    ensures Comes(env, s, p, l, end) && end == Settled(now, p) && Over(end, p)
  {
    end := now;
    var pc := now.scalers[p].pc;
    if pc.Blocked? && now.acts[pc.t].role != Direct {
      ComesOn(env, s, p, l, now, Act(pc.t, Mark));
      end := ActApply(env, now, pc.t, Mark);
    }
    if end.scalers[p].pc == Emptying {
      ComesOn(env, s, p, l, end, Poll(p, Empty));
      end := PollApply(env, end, p, Empty);
    }
  }

  lemma CheckOne(env: Env, s: State, p: string, l: seq<Agent>, now: State, up: bool) returns (next: State)
    requires OfFleet(env, now, p) && Comes(env, s, p, l, now)
    requires now.scalers[p].pc == if up then CheckingUp else CheckingDown
    ensures OfFleet(env, next, p) && Comes(env, s, p, l, next) && next.clock == now.clock && next.acts == now.acts
    ensures SeenBy(next, p) == SeenBy(now, p)
    ensures var last := if up then now.scalers[p].lastUp else now.scalers[p].lastDown;
            next.scalers[p].pc == if !Cooled(last, now.clock, env.fleet[p].cooldown) then Resting
                                  else if up then DecidingUp else DecidingDown
  {
    var x := if up then CheckUp else CheckDown;
    ComesOn(env, s, p, l, now, Poll(p, x));
    next := PollApply(env, now, p, x);
  }

  /** Decide, mark, and empty the histories. */
  lemma UpOne(env: Env, s: State, p: string, l: seq<Agent>, now: State, action: Action) returns (end: State)
    requires OfFleet(env, s, p) && OfFleet(env, now, p) && Comes(env, s, p, l, now) && now.acts == s.acts
    requires now.scalers[p].pc == DecidingUp && UpAction(env.fleet[p], p, now.agents, now.scalers[p].lastUp, now.clock, action)
    requires Cooled(now.scalers[p].lastUp, now.clock, env.fleet[p].cooldown)
    ensures Comes(env, s, p, l, end) && Over(end, p) && end.clock == now.clock
    ensures SeenBy(end, p) == Effects(SeenBy(now, p), now.clock, action) && Starts(s.acts, p, action, now.clock, end.acts)
  {
    var u := AboveAll(now.acts.Keys);
    var all :| Listing(now.agents, all) && UpChoice(env.fleet[p], ManagedOf(all, p), action);
    ComesOn(env, s, p, l, now, Poll(p, DecideUp(all, action, u)));
    ChoiceActs(env.fleet[p], p, SeenBy(now, p), now.clock, all, action);
    UpStarts(env, s, p, now, action, u);
    end := SettleDown(env, s, p, l, AfterDecideUp(env, now, p, action, u));
  }

  lemma DownOne(env: Env, s: State, p: string, l: seq<Agent>, now: State, action: Action) returns (end: State)
    requires OfFleet(env, s, p) && OfFleet(env, now, p) && Comes(env, s, p, l, now) && now.acts == s.acts
    requires now.scalers[p].pc == DecidingDown
             && DownAction(env.fleet[p], p, now.agents, now.scalers[p].lastDown, now.clock, action)
    requires Cooled(now.scalers[p].lastDown, now.clock, env.fleet[p].cooldown)
    ensures Comes(env, s, p, l, end) && Over(end, p) && end.clock == now.clock
    ensures SeenBy(end, p) == Effects(SeenBy(now, p), now.clock, action) && Starts(s.acts, p, action, now.clock, end.acts)
  {
    var u := AboveAll(now.acts.Keys);
    var all :| Listing(now.agents, all) && DownChoice(env.fleet[p], ManagedOf(all, p), action);
    ComesOn(env, s, p, l, now, Poll(p, DecideDown(all, action, u)));
    ChoiceActs(env.fleet[p], p, SeenBy(now, p), now.clock, all, action);
    DownStarts(env, s, p, now, action, u);
    end := SettleDown(env, s, p, l, AfterDecideDown(env, now, p, action, u));
  }

  lemma ActOne(env: Env, s: State, p: string, l: seq<Agent>, now: State, dir: Direction, action: Action) returns (end: State)
    requires OfFleet(env, s, p) && OfFleet(env, now, p) && Comes(env, s, p, l, now) && now.acts == s.acts
    requires now.scalers[p].pc == CheckedPc(dir) && ActsOn(env.fleet[p], p, dir, SeenBy(now, p), now.clock, action)
    ensures Comes(env, s, p, l, end) && Over(end, p) && end.clock == now.clock
    ensures SeenBy(end, p) == Effects(SeenBy(now, p), now.clock, action) && Starts(s.acts, p, action, now.clock, end.acts)
  {
    end := now;
    if dir != Neutral {
      end := CheckOne(env, s, p, l, now, dir == Up);
      assert SeenBy(end, p) == SeenBy(now, p);
      if end.scalers[p].pc == DecidingUp { end := UpOne(env, s, p, l, end, action); }
      else if end.scalers[p].pc == DecidingDown { end := DownOne(env, s, p, l, end, action); }
    }
  }

  lemma PollIsSolo(env: Env, s: State, p: string, l: seq<Agent>, replies: seq<Option<NodeStatus>>, later: int,
                   dir: Direction, action: Action, after: Snapshot)
    returns (end: State)
    requires OfFleet(env, s, p) && PollEnabled(env, s, p, PollStart(l)) && |replies| == |l| && s.clock <= later
    requires Outcome(env.fleet[p], p, Swept(SeenBy(s, p), p, l, replies, s.clock, env.fleet[p].window), later, dir, action, after)
    ensures Comes(env, s, p, l, end) && Over(end, p) && end.clock == later && SeenBy(end, p) == after
    ensures Starts(s.acts, p, action, later, end.acts)
  {
    var now := ReachVerdict(env, s, p, l, replies, later, dir);
    end := ActOne(env, s, p, l, now, dir, action);
  }

  /** What a poll of the step system leaves when nothing interleaves with it, in the store,
      the histories and the decision times, is exactly what Autoscaler.Poll may leave for
      some replies of the agents; and it starts exactly the goroutine its action names. */
  lemma SoloPollIff(env: Env, s: State, p: string, l: seq<Agent>, later: int, after: Snapshot)
    requires OfFleet(env, s, p) && PollEnabled(env, s, p, PollStart(l)) && s.clock <= later
    ensures (exists end :: SoloLeaves(env, s, p, l, end, later, after)) <==>
            exists replies, dir, action :: SequentialLeaves(env, s, p, l, replies, later, dir, action, after)
    ensures forall end :: SoloLeaves(env, s, p, l, end, later, after) ==> Leaves(env, s, p, l, end)
  {
    forall end | SoloLeaves(env, s, p, l, end, later, after) ensures Leaves(env, s, p, l, end) {
      var states, labels :| Solo(env, s, p, l, states, labels) && states[|labels|] == end;
      SoloStands(env, s, p, l, states, labels, |labels|);
    }
    if end :| SoloLeaves(env, s, p, l, end, later, after) {
      var replies, dir, action :| PollLeaves(env, s, p, l, replies, end, dir, action);
      assert SequentialLeaves(env, s, p, l, replies, later, dir, action, after);
    }
    if replies, dir, action :| SequentialLeaves(env, s, p, l, replies, later, dir, action, after) {
      var end := PollIsSolo(env, s, p, l, replies, later, dir, action, after);
      assert SoloLeaves(env, s, p, l, end, later, after);
    }
  }

  ghost predicate SoloLeaves(env: Env, s: State, p: string, l: seq<Agent>, end: State, later: int, after: Snapshot) {
    Comes(env, s, p, l, end) && Over(end, p) && end.clock == later && SeenBy(end, p) == after
  }

  ghost predicate SequentialLeaves(env: Env, s: State, p: string, l: seq<Agent>, replies: seq<Option<NodeStatus>>, later: int,
                                   dir: Direction, action: Action, after: Snapshot)
    requires OfFleet(env, s, p)
  {
    && |replies| == |l|
    && Outcome(env.fleet[p], p, Swept(SeenBy(s, p), p, l, replies, s.clock, env.fleet[p].window), later, dir, action, after)
  }
}
