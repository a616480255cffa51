/** When an autoscaler decides: cooldowns between decisions, what a verdict says
    about the samples it judged, and how long a reset keeps it quiet. */
module FleetTiming {
  import opened Models
  import opened AgentRegistry
  import opened Scaling
  import opened FleetModel
  import opened FleetIdentity
  import opened FleetBounds

  // ------------------------------------------------------------------ invariants

  /** Decision times are a cooldown apart, and the last one is remembered. */
  ghost predicate Paced(times: seq<int>, last: Option<int>, cooldown: int) {
    && (forall i :: 0 < i < |times| ==> times[i-1] + cooldown <= times[i])
    && (times == [] <==> last == None)
    && (times != [] ==> last == Some(times[|times|-1]))
  }

  ghost predicate Past(time: Option<int>, clock: int) { time.Some? ==> time.value <= clock }

  ghost predicate PaceOk(sc: Scaler, cooldown: int, clock: int) {
    && Paced(sc.tally.ups, sc.lastUp, cooldown) && Paced(sc.tally.downs, sc.lastDown, cooldown)
    && (sc.pc == DecidingUp ==> Cooled(sc.lastUp, clock, cooldown))
    && (sc.pc == DecidingDown ==> Cooled(sc.lastDown, clock, cooldown))
  }

  ghost predicate InSweep(pc: Pc) { pc.Sampling? || pc.Recording? }

  ghost predicate ClockOk(sc: Scaler, clock: int) {
    && Past(sc.lastPoll, clock) && Past(sc.quietFrom, clock)
    && (InSweep(sc.pc) ==> sc.lastPoll == Some(sc.pc.now) && Past(sc.quietFrom, sc.pc.now))
  }

  /** An agent is sampled at most once in a sweep. */
  ghost predicate SweepOk(pc: Pc) {
    && (InSweep(pc) ==> DistinctIds(pc.todo) && forall a :: a in pc.todo ==> a.id !in pc.sampled)
    && (pc.Recording? ==> pc.agent.id !in pc.sampled && forall a :: a in pc.todo ==> a.id != pc.agent.id)
  }

  ghost predicate AllBetween(h: seq<Sample>, from: Option<int>, upTo: int) {
    forall k :: 0 <= k < |h| ==> h[k].at <= upTo && (from.Some? ==> from.value <= h[k].at)
  }

  /** Not empty, and no longer than the window. */
  ghost predicate Compact(h: seq<Sample>, window: int) {
    h != [] && h[|h|-1].at - h[0].at <= window
  }

  ghost predicate TrackOk(h: seq<Sample>, quietFrom: Option<int>, lastPoll: int, gap: nat, window: int) {
    && Spaced(h, gap) && AllBetween(h, quietFrom, lastPoll)
    && (0 <= window ==> Compact(h, window))
  }

  /** In a sweep, an agent's samples are trimmed to the window if it was sampled
      already, and a gap older than the sweep if it was not. */
  ghost predicate SweptOk(h: seq<Sample>, sampled: bool, now: int, gap: nat, window: int) {
    if sampled then forall k :: 0 <= k < |h| ==> now - h[k].at <= window
    else forall k :: 0 <= k < |h| ==> h[k].at + gap <= now
  }

  ghost predicate HistoryOk(sc: Scaler, gap: nat, window: int) {
    forall id :: id in sc.history ==>
      && sc.lastPoll.Some?
      && TrackOk(sc.history[id], sc.quietFrom, sc.lastPoll.value, gap, window)
      && (InSweep(sc.pc) ==> SweptOk(sc.history[id], id in sc.pc.sampled, sc.pc.now, gap, window))
  }

  ghost predicate Timed(env: Env, s: State, p: string) {
    && OfFleet(env, s, p)
    && PaceOk(s.scalers[p], env.fleet[p].cooldown, s.clock)
    && ClockOk(s.scalers[p], s.clock)
    && SweepOk(s.scalers[p].pc)
    && HistoryOk(s.scalers[p], env.gap, env.fleet[p].window)
  }

  // ------------------------------------------------------------------ preservation

  /** What goroutines and operators may do to a scaler: wake its poll loop, empty its
      histories. */
  ghost predicate Soft(sc: Scaler, sc': Scaler, clock: int) {
    && sc'.lastUp == sc.lastUp && sc'.lastDown == sc.lastDown && sc'.lastPoll == sc.lastPoll
    && sc'.tally.ups == sc.tally.ups && sc'.tally.downs == sc.tally.downs
    && (sc'.history == sc.history || sc'.history == map[])
    && (sc'.pc == sc.pc || sc'.pc == Resting || sc'.pc == Emptying)
    && (sc'.quietFrom == sc.quietFrom ||
        (sc'.quietFrom == Some(clock) && sc'.history == map[] && sc'.pc == Resting))
  }

  lemma SoftKeeps(env: Env, s: State, s': State, p: string)
    requires Timed(env, s, p) && OfFleet(env, s', p) && s.clock == s'.clock && Soft(s.scalers[p], s'.scalers[p], s.clock)
    ensures Timed(env, s', p)
  {
  }

  lemma OthersSoft(env: Env, s: State, l: Label, p: string)
    requires Enabled(env, s, l) && OfFleet(env, s, p) && !l.Tick? && (l.Poll? ==> l.p != p)
    ensures var s' := Apply(env, s, l);
            s'.clock == s.clock && OfFleet(env, s', p) && Soft(s.scalers[p], s'.scalers[p], s.clock)
  {
    match l
    case Poll(q, x) => OtherPoll(env, s, q, x, p);
    case Act(t, x) => ActSoft(env, s, t, x, p);
    case Operator(x) => OpSoft(env, s, x, p);
  }

  lemma OpSoft(env: Env, s: State, x: OpStep, p: string)
    requires OpEnabled(env, s, x) && OfFleet(env, s, p)
    ensures var s' := OpApply(env, s, x);
            s'.clock == s.clock && p in s'.scalers && Soft(s.scalers[p], s'.scalers[p], s.clock)
  {
  }

  lemma OtherPoll(env: Env, s: State, q: string, x: PollStep, p: string)
    requires OfFleet(env, s, q) && PollEnabled(env, s, q, x) && OfFleet(env, s, p) && q != p
    ensures var s' := PollApply(env, s, q, x);
            s'.clock == s.clock && p in s'.scalers && s'.scalers[p] == s.scalers[p]
  {
    match x
    case DecideUp(_, action, u) =>
    case DecideDown(_, action, u) =>
    case _ =>
  }

  lemma ActSoft(env: Env, s: State, t: nat, x: ActStep, p: string)
    requires Live(env, s, t) && ActEnabled(env, s, t, x) && OfFleet(env, s, p)
    ensures var s' := ActApply(env, s, t, x);
            s'.clock == s.clock && p in s'.scalers && Soft(s.scalers[p], s'.scalers[p], s.clock)
  {
    match x
    case Deregister => DeregisterSoft(s, t, p);
    case Mark => MarkSoft(s, t, p);
    case RegisterNode(u) => RegisterSoft(s, t, u, p);
    case Reset => ResetSoft(s, t, p);
    case LaunchFail => SpawnOverSoft(s, t, p);
    case LaunchLost(_) => SpawnOverSoft(s, t, p);
    case _ =>
  }

  lemma MarkSoft(s: State, t: nat, p: string)
    requires t in s.acts && s.acts[t].p in s.scalers && p in s.scalers
    ensures var s' := AfterMark(s, t);
            s'.clock == s.clock && p in s'.scalers && Soft(s.scalers[p], s'.scalers[p], s.clock)
  {
  }

  lemma RegisterSoft(s: State, t: nat, u: nat, p: string)
    requires t in s.acts && s.acts[t].p in s.scalers && p in s.scalers
    ensures var s' := AfterRegister(s, t, u);
            s'.clock == s.clock && p in s'.scalers && Soft(s.scalers[p], s'.scalers[p], s.clock)
  {
  }

  lemma ResetSoft(s: State, t: nat, p: string)
    requires t in s.acts && s.acts[t].p in s.scalers && p in s.scalers
    ensures var s' := AfterReset(s, t);
            s'.clock == s.clock && p in s'.scalers && Soft(s.scalers[p], s'.scalers[p], s.clock)
  {
  }

  lemma SpawnOverSoft(s: State, t: nat, p: string)
    requires t in s.acts && s.acts[t].p in s.scalers && p in s.scalers
    ensures var s' := SpawnOver(s, t);
            s'.clock == s.clock && p in s'.scalers && Soft(s.scalers[p], s'.scalers[p], s.clock)
  {
  }

  lemma DeregisterSoft(s: State, t: nat, p: string)
    requires t in s.acts && s.acts[t].p in s.scalers && p in s.scalers
    ensures var s' := AfterDeregister(s, t);
            s'.clock == s.clock && p in s'.scalers && Soft(s.scalers[p], s'.scalers[p], s.clock)
  {
    match s.acts[t].role
    case Kill =>
    case Boot =>
    case Upgrade =>
    case _ =>
  }

  lemma StartKeeps(env: Env, s: State, p: string, l: seq<Agent>)
    requires Timed(env, s, p) && PollEnabled(env, s, p, PollStart(l))
    ensures Timed(env, PollApply(env, s, p, PollStart(l)), p)
  {
    var sc := s.scalers[p];
    forall id | id in sc.history ensures SweptOk(sc.history[id], false, s.clock, env.gap, env.fleet[p].window) {
      assert AllBetween(sc.history[id], sc.quietFrom, sc.lastPoll.value);
    }
  }

  lemma ProbeKeeps(env: Env, s: State, p: string, x: PollStep)
    requires Timed(env, s, p) && PollEnabled(env, s, p, x) && (x.ProbeSkip? || x.ProbeError? || x.ProbeReply?)
    ensures Timed(env, PollApply(env, s, p, x), p)
  {
    var pc := s.scalers[p].pc;
    var rest := pc.todo[1..];
    assert pc.todo[0] in pc.todo;
    forall a | a in rest ensures a in pc.todo && a.id != pc.todo[0].id {
    }
    assert DistinctIds(rest);
    assert SweepOk(PollApply(env, s, p, x).scalers[p].pc);
  }

  lemma TrackRecorded(h: seq<Sample>, s: Sample, quietFrom: Option<int>, gap: nat, window: int)
    requires Spaced(h, gap) && AllBetween(h, quietFrom, s.at) && Past(quietFrom, s.at)
    requires forall k :: 0 <= k < |h| ==> h[k].at + gap <= s.at
    ensures TrackOk(Kept(h + [s], s.at, window), quietFrom, s.at, gap, window)
    ensures SweptOk(Kept(h + [s], s.at, window), true, s.at, gap, window)
  {
    var all := h + [s];
    assert Spaced(all, gap);
    var d := KeptIsSuffix(all, gap, s.at, window);
    var k := all[d..];
    forall i | 0 <= i < |k| ensures k[i] == all[d + i] && Recent(k[i], s.at, window) {
    }
    if 0 <= window {
      TrimmedLength(h, s, gap, window);
    }
  }

  /** The sampled agent's new track replaces its old one. */
  lemma NewTrackKeeps(sc: Scaler, sc': Scaler, id: string, k: seq<Sample>, gap: nat, window: int)
    requires HistoryOk(sc, gap, window) && sc.pc.Recording? && sc.lastPoll.Some?
    requires TrackOk(k, sc.quietFrom, sc.lastPoll.value, gap, window) && SweptOk(k, true, sc.pc.now, gap, window)
    requires sc'.history == sc.history[id := k] && sc'.lastPoll == sc.lastPoll && sc'.quietFrom == sc.quietFrom
    requires sc'.pc == Sampling(sc.pc.now, sc.pc.todo, sc.pc.sampled + {id})
    ensures HistoryOk(sc', gap, window)
  {
  }

  lemma RecordKeeps(env: Env, s: State, p: string)
    requires Timed(env, s, p) && PollEnabled(env, s, p, Record)
    ensures Timed(env, PollApply(env, s, p, Record), p)
  {
    var sc := s.scalers[p];
    var pc, id, window := sc.pc, sc.pc.agent.id, env.fleet[p].window;
    var h := if id in sc.history then sc.history[id] else [];
    var sample := SampleOf(pc.ns, pc.now);
    if id in sc.history {
      assert TrackOk(h, sc.quietFrom, sc.lastPoll.value, env.gap, window);
      assert SweptOk(h, false, pc.now, env.gap, window);
    }
    TrackRecorded(h, sample, sc.quietFrom, env.gap, window);
    NewTrackStep(env, s, p, Kept(h + [sample], sample.at, window));
  }

  lemma NewTrackStep(env: Env, s: State, p: string, k: seq<Sample>)
    requires Timed(env, s, p) && s.scalers[p].pc.Recording?
    requires var sc, window := s.scalers[p], env.fleet[p].window;
             && TrackOk(k, sc.quietFrom, sc.lastPoll.value, env.gap, window)
             && SweptOk(k, true, sc.pc.now, env.gap, window)
             && Recorded(sc.history, sc.pc.agent.id, SampleOf(sc.pc.ns, sc.pc.now), window) == sc.history[sc.pc.agent.id := k]
    ensures Timed(env, PollApply(env, s, p, Record), p)
  {
    var sc, sc' := s.scalers[p], PollApply(env, s, p, Record).scalers[p];
    NewTrackKeeps(sc, sc', sc.pc.agent.id, k, env.gap, env.fleet[p].window);
  }

  lemma DecideUpKeeps(env: Env, s: State, p: string, action: Action, u: nat)
    requires Timed(env, s, p) && s.scalers[p].pc == DecidingUp
    ensures Timed(env, AfterDecideUp(env, s, p, action, u), p)
  {
  }

  lemma DecideDownKeeps(env: Env, s: State, p: string, action: Action, u: nat)
    requires Timed(env, s, p) && s.scalers[p].pc == DecidingDown
    ensures Timed(env, AfterDecideDown(env, s, p, action, u), p)
  {
  }

  lemma PollKeeps(env: Env, s: State, p: string, x: PollStep)
    requires Timed(env, s, p) && PollEnabled(env, s, p, x)
    ensures Timed(env, PollApply(env, s, p, x), p)
  {
    match x
    case PollStart(l) => StartKeeps(env, s, p, l);
    case ProbeSkip => ProbeKeeps(env, s, p, x);
    case ProbeError => ProbeKeeps(env, s, p, x);
    case ProbeReply(_) => ProbeKeeps(env, s, p, x);
    case Record => RecordKeeps(env, s, p);
    case DecideUp(_, action, u) => DecideUpKeeps(env, s, p, action, u);
    case DecideDown(_, action, u) => DecideDownKeeps(env, s, p, action, u);
    case _ =>
  }

  lemma TimedStep(env: Env, s: State, l: Label, p: string)
    requires Timed(env, s, p) && Enabled(env, s, l)
    ensures Timed(env, Apply(env, s, l), p)
  {
    if l.Poll? && l.p == p {
      PollKeeps(env, s, p, l.poll);
    } else if !l.Tick? {
      OthersSoft(env, s, l, p);
      SoftKeeps(env, s, Apply(env, s, l), p);
    }
  }

  lemma {:induction false} TimedRun(env: Env, states: seq<State>, labels: seq<Label>, i: nat, p: string)
    requires Run(env, states, labels) && i < |states| && p in env.fleet
    ensures Timed(env, states[i], p)
  {
    if i > 0 {
      TimedRun(env, states, labels, i - 1, p);
      assert Step(env, states[i-1], labels[i-1], states[i]);
      TimedStep(env, states[i-1], labels[i-1], p);
    }
  }

  // ---------------------------------------------------------- spacing of decisions

  ghost predicate DecidesUp(l: Label, p: string) {
    l.Poll? && l.p == p && l.poll.DecideUp? && (l.poll.action.SpawnSmallest? || l.poll.action.UpgradeNode?)
  }

  ghost predicate DecidesDown(l: Label, p: string) {
    l.Poll? && l.p == p && l.poll.DecideDown? && l.poll.action.RemoveNode?
  }

  /** The times of p's decisions among the first n steps. */
  ghost function DecisionTimes(states: seq<State>, labels: seq<Label>, n: nat, p: string, up: bool): seq<int>
    requires n <= |labels| < |states|
  {
    if n == 0 then [] else
    DecisionTimes(states, labels, n - 1, p, up) +
      if (if up then DecidesUp(labels[n-1], p) else DecidesDown(labels[n-1], p)) then [states[n-1].clock] else []
  }

  lemma LogStep(env: Env, s: State, l: Label, p: string)
    requires Enabled(env, s, l) && OfFleet(env, s, p)
    ensures var s' := Apply(env, s, l);
            && p in s'.scalers
            && s'.scalers[p].tally.ups == s.scalers[p].tally.ups + (if DecidesUp(l, p) then [s.clock] else [])
            && s'.scalers[p].tally.downs == s.scalers[p].tally.downs + (if DecidesDown(l, p) then [s.clock] else [])
  {
    if l.Poll? && l.p == p {
      OwnPollLog(env, s, p, l.poll);
    } else if !l.Tick? {
      OthersSoft(env, s, l, p);
    }
  }

  lemma CalmOwn(env: Env, s: State, p: string, x: PollStep)
    requires OfFleet(env, s, p) && PollEnabled(env, s, p, x) && !x.DecideUp? && !x.DecideDown?
    ensures var s' := PollApply(env, s, p, x);
            && p in s'.scalers && s'.clock == s.clock && s'.acts == s.acts
            && s'.scalers[p].tally == s.scalers[p].tally && s'.scalers[p].lastDown == s.scalers[p].lastDown
            && s'.scalers[p].quietFrom == if x.Empty? then Some(s.clock) else s.scalers[p].quietFrom
  {
  }

  lemma DecideUpOwn(env: Env, s: State, p: string, action: Action, u: nat)
    requires OfFleet(env, s, p)
    ensures var s' := AfterDecideUp(env, s, p, action, u);
            && p in s'.scalers && s'.clock == s.clock && s'.scalers[p].quietFrom == s.scalers[p].quietFrom
            && s'.scalers[p].lastDown == s.scalers[p].lastDown
            && s'.scalers[p].tally.downs == s.scalers[p].tally.downs
            && s'.scalers[p].tally.ups == s.scalers[p].tally.ups +
                 (if action.SpawnSmallest? || action.UpgradeNode? then [s.clock] else [])
  {
  }

  lemma DecideDownOwn(env: Env, s: State, p: string, action: Action, u: nat)
    requires OfFleet(env, s, p)
    ensures var s' := AfterDecideDown(env, s, p, action, u);
            && p in s'.scalers && s'.clock == s.clock && s'.scalers[p].quietFrom == s.scalers[p].quietFrom
            && s'.scalers[p].tally.ups == s.scalers[p].tally.ups
            && s'.scalers[p].tally.downs == s.scalers[p].tally.downs + (if action.RemoveNode? then [s.clock] else [])
  {
  }

  lemma OwnPollLog(env: Env, s: State, p: string, x: PollStep)
    requires OfFleet(env, s, p) && PollEnabled(env, s, p, x)
    ensures var s' := PollApply(env, s, p, x);
            && p in s'.scalers
            && s'.scalers[p].tally.ups == s.scalers[p].tally.ups + (if DecidesUp(Poll(p, x), p) then [s.clock] else [])
            && s'.scalers[p].tally.downs == s.scalers[p].tally.downs + (if DecidesDown(Poll(p, x), p) then [s.clock] else [])
  {
    match x
    case DecideUp(_, action, u) => DecideUpOwn(env, s, p, action, u);
    case DecideDown(_, action, u) => DecideDownOwn(env, s, p, action, u);
    case _ => CalmOwn(env, s, p, x);
  }

  lemma {:induction false} LogRun(env: Env, states: seq<State>, labels: seq<Label>, n: nat, p: string)
    requires Run(env, states, labels) && n <= |labels| && p in env.fleet
    ensures OfFleet(env, states[n], p)
    ensures states[n].scalers[p].tally.ups == DecisionTimes(states, labels, n, p, true)
    ensures states[n].scalers[p].tally.downs == DecisionTimes(states, labels, n, p, false)
  {
    if n > 0 {
      LogRun(env, states, labels, n - 1, p);
      assert Step(env, states[n-1], labels[n-1], states[n]);
      LogStep(env, states[n-1], labels[n-1], p);
    }
  }

  lemma {:induction false} PacedSpan(times: seq<int>, last: Option<int>, cooldown: int, i: nat, j: nat)
    requires Paced(times, last, cooldown) && i <= j < |times|
    ensures times[i] + (j - i) * cooldown <= times[j]
    decreases j
  {
    if i < j {
      PacedSpan(times, last, cooldown, i, j - 1);
      assert (j - i) * cooldown == (j - 1 - i) * cooldown + cooldown;
    }
  }

  /** In every run, k scale-up decisions of one autoscaler span at least k - 1
      cooldowns, and so do k scale-down decisions. */
  lemma CooldownSpacing(env: Env, states: seq<State>, labels: seq<Label>, p: string, up: bool, i: nat, j: nat)
    requires Run(env, states, labels) && p in env.fleet
    requires i <= j < |DecisionTimes(states, labels, |labels|, p, up)|
    ensures var times := DecisionTimes(states, labels, |labels|, p, up);
            times[i] + (j - i) * env.fleet[p].cooldown <= times[j]
  {
    LogRun(env, states, labels, |labels|, p);
    TimedRun(env, states, labels, |labels|, p);
    var sc := states[|labels|].scalers[p];
    PacedSpan(if up then sc.tally.ups else sc.tally.downs, if up then sc.lastUp else sc.lastDown,
              env.fleet[p].cooldown, i, j);
  }

  // ------------------------------------------------------------------- verdicts

  /** The verdict of an Evaluate step. */
  ghost function VerdictAt(env: Env, s: State, p: string, l: seq<Agent>): Direction
    requires OfFleet(env, s, p)
  {
    Verdict(env.fleet[p], s.scalers[p].history, ManagedOf(OnlineOf(l), p), s.clock)
  }

  /** A verdict other than neutral: each agent it judged has its oldest sample at
      least a window before the evaluation, and, if this very poll sampled the agent,
      at most a window before the start of the poll. */
  lemma VerdictWindow(env: Env, states: seq<State>, labels: seq<Label>, i: nat, p: string, l: seq<Agent>, a: Agent)
    requires Run(env, states, labels) && i < |labels| && p in env.fleet && OfFleet(env, states[i], p)
    requires labels[i] == Poll(p, Evaluate(l)) && VerdictAt(env, states[i], p, l) != Neutral
    requires a in ManagedOf(OnlineOf(l), p)
    ensures var sc, window := states[i].scalers[p], env.fleet[p].window;
            && a.id in sc.history && sc.history[a.id] != [] && sc.pc.Sampling?
            && sc.history[a.id][0].at <= states[i].clock - window
            && (a.id in sc.pc.sampled ==> sc.pc.now - window <= sc.history[a.id][0].at)
  {
    TimedRun(env, states, labels, i, p);
    assert Step(env, states[i], labels[i], states[i+1]);
    var sc := states[i].scalers[p];
    assert SpansWindow(sc.history, a.id, states[i].clock, env.fleet[p].window);
    if a.id in sc.pc.sampled {
      assert SweptOk(sc.history[a.id], true, sc.pc.now, env.gap, env.fleet[p].window);
    }
  }

  ghost predicate QuietSince(s: State, p: string, time: int) {
    p in s.scalers && s.scalers[p].quietFrom.Some? && time <= s.scalers[p].quietFrom.value
  }

  /** The step empties the histories after a scale-down, or after the poll loop's own spawn. */
  ghost predicate PollResets(s: State, l: Label, p: string) {
    || l == Poll(p, Empty)
    || (l.Act? && l.act == Reset && l.t in s.acts && s.acts[l.t].p == p && s.acts[l.t].role == Direct)
  }

  lemma QuietStep(env: Env, s: State, l: Label, p: string, time: int)
    requires Enabled(env, s, l) && OfFleet(env, s, p) && time <= s.clock
    requires QuietSince(s, p, time) || PollResets(s, l, p)
    ensures QuietSince(Apply(env, s, l), p, time) && s.clock <= Apply(env, s, l).clock
  {
    if l.Poll? && l.p == p {
      OwnPollQuiet(env, s, p, l.poll);
    } else if !l.Tick? {
      OthersSoft(env, s, l, p);
    }
  }

  lemma OwnPollQuiet(env: Env, s: State, p: string, x: PollStep)
    requires OfFleet(env, s, p) && PollEnabled(env, s, p, x)
    ensures var s' := PollApply(env, s, p, x);
            && p in s'.scalers && s'.clock == s.clock
            && s'.scalers[p].quietFrom == if x.Empty? then Some(s.clock) else s.scalers[p].quietFrom
  {
    match x
    case DecideUp(_, action, u) => DecideUpOwn(env, s, p, action, u);
    case DecideDown(_, action, u) => DecideDownOwn(env, s, p, action, u);
    case _ => CalmOwn(env, s, p, x);
  }

  lemma {:induction false} QuietRun(env: Env, states: seq<State>, labels: seq<Label>, j: nat, i: nat, p: string, time: int)
    requires Run(env, states, labels) && j <= i < |states| && p in env.fleet
    requires QuietSince(states[j], p, time) && time <= states[j].clock
    ensures QuietSince(states[i], p, time) && time <= states[i].clock
    decreases i
  {
    if j < i {
      QuietRun(env, states, labels, j, i - 1, p, time);
      assert Step(env, states[i-1], labels[i-1], states[i]);
      QuietStep(env, states[i-1], labels[i-1], p, time);
    }
  }

  lemma QuietFromReset(env: Env, states: seq<State>, labels: seq<Label>, j: nat, i: nat, p: string)
    requires Run(env, states, labels) && j < i < |states| && p in env.fleet
    requires PollResets(states[j], labels[j], p)
    ensures QuietSince(states[i], p, states[j].clock)
  {
    TimedRun(env, states, labels, j, p);
    assert Step(env, states[j], labels[j], states[j+1]);
    QuietStep(env, states[j], labels[j], p, states[j].clock);
    QuietRun(env, states, labels, j + 1, i, p, states[j].clock);
  }

  /** After a scale-down, and after a direct spawn that went through, no verdict but
      neutral comes for a whole evaluation window. */
  lemma QuietAfterReset(env: Env, states: seq<State>, labels: seq<Label>, j: nat, i: nat, p: string, l: seq<Agent>)
    requires Run(env, states, labels) && j < i < |labels| && p in env.fleet && OfFleet(env, states[i], p)
    requires PollResets(states[j], labels[j], p)
    requires labels[i] == Poll(p, Evaluate(l)) && VerdictAt(env, states[i], p, l) != Neutral
    ensures states[j].clock + env.fleet[p].window <= states[i].clock
  {
    QuietFromReset(env, states, labels, j, i, p);
    TimedRun(env, states, labels, i, p);
    var sc := states[i].scalers[p];
    var a := ManagedOf(OnlineOf(l), p)[0];
    assert a in ManagedOf(OnlineOf(l), p);
    assert SpansWindow(sc.history, a.id, states[i].clock, env.fleet[p].window);
    assert TrackOk(sc.history[a.id], sc.quietFrom, sc.lastPoll.value, env.gap, env.fleet[p].window);
  }

  /** Every history a run reaches is in time order, not empty, and holds at most
      window / gap + 1 samples when poll starts are at least gap apart. */
  lemma HistoryLength(env: Env, states: seq<State>, labels: seq<Label>, i: nat, p: string, id: string)
    requires Run(env, states, labels) && i < |states| && p in env.fleet && OfFleet(env, states[i], p)
    requires id in states[i].scalers[p].history && 0 <= env.fleet[p].window
    ensures var h := states[i].scalers[p].history[id];
            && Spaced(h, env.gap) && h != []
            && (0 < env.gap ==> |h| <= env.fleet[p].window / env.gap + 1)
  {
    TimedRun(env, states, labels, i, p);
    var sc := states[i].scalers[p];
    var h := sc.history[id];
    assert TrackOk(h, sc.quietFrom, sc.lastPoll.value, env.gap, env.fleet[p].window);
    SpacedSpan(h, env.gap, 0, |h| - 1);
    if 0 < env.gap { ProductBound(|h| - 1, env.gap, env.fleet[p].window); }
  }

  // --------------------------------------------------- one scale-down drain at a time

  ghost predicate IsScaleDown(a: Activity, p: string) { IsDrain(a, p) && a.role == ScaleDown }

  /** Every scale-down drain of p is over within the bound of its decision. */
  ghost predicate Prompt(s: State, p: string, bound: int) {
    forall t :: t in s.acts && IsScaleDown(s.acts[t], p) ==> s.clock <= s.acts[t].decided + bound
  }

  ghost predicate Single(acts: map<nat, Activity>, lastDown: Option<int>, p: string) {
    && (forall t :: t in acts && IsScaleDown(acts[t], p) ==> lastDown == Some(acts[t].decided))
    && (forall t, u :: t in acts && u in acts && IsScaleDown(acts[t], p) && IsScaleDown(acts[u], p) ==> t == u)
  }

  ghost predicate NoNewScaleDowns(acts: map<nat, Activity>, acts': map<nat, Activity>, p: string) {
    forall t :: t in acts' && IsScaleDown(acts'[t], p) ==>
      t in acts && IsScaleDown(acts[t], p) && acts'[t].decided == acts[t].decided
  }

  lemma SingleStep(env: Env, s: State, l: Label, p: string, bound: int)
    requires Timed(env, s, p) && Enabled(env, s, l) && Prompt(s, p, bound) && bound < env.fleet[p].cooldown
    requires ActsOk(env, s.acts, s.agents, s.origin, s.called)
    requires Single(s.acts, s.scalers[p].lastDown, p)
    ensures var s' := Apply(env, s, l); p in s'.scalers && Single(s'.acts, s'.scalers[p].lastDown, p)
  {
    match l
    case Tick(_) =>
    case Poll(q, x) =>
      if q == p { OwnPollSingle(env, s, p, x, bound); } else { OtherPollSingle(env, s, q, x, p); }
    case Act(t, x) => ActSingle(env, s, t, x, p);
    case Operator(x) =>
      OpSoft(env, s, x, p);
      assert NoNewScaleDowns(s.acts, OpApply(env, s, x).acts, p);
  }

  lemma ActSingle(env: Env, s: State, t: nat, x: ActStep, p: string)
    requires Live(env, s, t) && ActEnabled(env, s, t, x) && OfFleet(env, s, p)
    requires ActsOk(env, s.acts, s.agents, s.origin, s.called)
    requires Single(s.acts, s.scalers[p].lastDown, p)
    ensures var s' := ActApply(env, s, t, x); p in s'.scalers && Single(s'.acts, s'.scalers[p].lastDown, p)
  {
    ActSoft(env, s, t, x, p);
    ActMoves(env, s, t, x);
    assert ActOk(env, s.acts[t], s.agents, s.origin, s.called);
    ActKeepsScaleDown(env, s, t, x, p);
    assert NoNewScaleDowns(s.acts, ActApply(env, s, t, x).acts, p);
  }

  lemma ActKeepsScaleDown(env: Env, s: State, t: nat, x: ActStep, p: string)
    requires Live(env, s, t) && ActEnabled(env, s, t, x) && RoleFits(s.acts[t])
    ensures var s' := ActApply(env, s, t, x);
            t in s'.acts && IsScaleDown(s'.acts[t], p) ==>
              IsScaleDown(s.acts[t], p) && s'.acts[t].decided == s.acts[t].decided
  {
  }

  lemma OtherPollSingle(env: Env, s: State, q: string, x: PollStep, p: string)
    requires OfFleet(env, s, q) && PollEnabled(env, s, q, x) && q != p && OfFleet(env, s, p)
    requires Single(s.acts, s.scalers[p].lastDown, p)
    ensures var s' := PollApply(env, s, q, x); p in s'.scalers && Single(s'.acts, s'.scalers[p].lastDown, p)
  {
    OtherPoll(env, s, q, x, p);
    PollStartsFor(env, s, q, x);
    assert NoNewScaleDowns(s.acts, PollApply(env, s, q, x).acts, p);
  }

  lemma UpStartsFor(env: Env, s: State, q: string, action: Action, u: nat)
    requires OfFleet(env, s, q) && u !in s.acts
    ensures var acts' := AfterDecideUp(env, s, q, action, u).acts;
            forall t :: t in acts' ==> (t in s.acts && acts'[t] == s.acts[t]) || (acts'[t].p == q && acts'[t].role != ScaleDown)
  {
  }

  lemma DownStartsFor(env: Env, s: State, q: string, action: Action, u: nat)
    requires OfFleet(env, s, q) && u !in s.acts
    ensures var acts' := AfterDecideDown(env, s, q, action, u).acts;
            forall t :: t in acts' ==> (t in s.acts && acts'[t] == s.acts[t]) || (acts'[t].p == q && action.RemoveNode?)
  {
  }

  /** The poll loop of q starts goroutines of q only, and drains only by decision. */
  lemma PollStartsFor(env: Env, s: State, q: string, x: PollStep)
    requires OfFleet(env, s, q) && PollEnabled(env, s, q, x)
    ensures var acts' := PollApply(env, s, q, x).acts;
            forall t :: t in acts' ==> (t in s.acts && acts'[t] == s.acts[t])
                                       || (acts'[t].p == q
                                           && ((x.DecideDown? && x.action.RemoveNode?) || acts'[t].role != ScaleDown))
  {
    match x
    case DecideUp(_, action, u) => UpStartsFor(env, s, q, action, u);
    case DecideDown(_, action, u) => DownStartsFor(env, s, q, action, u);
    case _ => CalmOwn(env, s, q, x);
  }

  lemma FirstScaleDown(env: Env, s: State, p: string, action: Action, u: nat)
    requires OfFleet(env, s, p) && forall t :: t in s.acts ==> !IsScaleDown(s.acts[t], p)
    ensures var s' := AfterDecideDown(env, s, p, action, u);
            p in s'.scalers && Single(s'.acts, s'.scalers[p].lastDown, p)
  {
  }

  lemma OwnPollSingle(env: Env, s: State, p: string, x: PollStep, bound: int)
    requires Timed(env, s, p) && PollEnabled(env, s, p, x) && Prompt(s, p, bound) && bound < env.fleet[p].cooldown
    requires Single(s.acts, s.scalers[p].lastDown, p)
    ensures var s' := PollApply(env, s, p, x); p in s'.scalers && Single(s'.acts, s'.scalers[p].lastDown, p)
  {
    match x
    case DecideDown(_, action, u) => NoneInFlight(env, s, p, bound); FirstScaleDown(env, s, p, action, u);
    case DecideUp(_, action, u) => DecideUpOwn(env, s, p, action, u); PollStartsFor(env, s, p, x);
    case _ => CalmOwn(env, s, p, x);
  }

  /** A cooldown after the last decision, the drain it started is over. */
  lemma NoneInFlight(env: Env, s: State, p: string, bound: int)
    requires Timed(env, s, p) && s.scalers[p].pc == DecidingDown
    requires Prompt(s, p, bound) && bound < env.fleet[p].cooldown && Single(s.acts, s.scalers[p].lastDown, p)
    ensures forall t :: t in s.acts ==> !IsScaleDown(s.acts[t], p)
  {
  }

  lemma {:induction false} SingleRun(env: Env, states: seq<State>, labels: seq<Label>, i: nat, p: string, bound: int)
    requires Run(env, states, labels) && i < |states| && p in env.fleet && bound < env.fleet[p].cooldown
    requires forall k :: 0 <= k < i ==> Prompt(states[k], p, bound)
    ensures OfFleet(env, states[i], p) && Single(states[i].acts, states[i].scalers[p].lastDown, p)
  {
    if i > 0 {
      SingleRun(env, states, labels, i - 1, p, bound);
      TimedRun(env, states, labels, i - 1, p);
      RunStep(env, states, labels, i - 1);
      SingleStep(env, states[i-1], labels[i-1], p, bound);
    }
  }

  /** If every scale-down drain is over within a bound shorter than the cooldown,
      two of them are never in flight together. */
  lemma ScaleDownsDoNotOverlap(env: Env, states: seq<State>, labels: seq<Label>, i: nat, p: string, bound: int,
                               t: nat, u: nat)
    requires Run(env, states, labels) && i < |states| && p in env.fleet && bound < env.fleet[p].cooldown
    requires forall k :: 0 <= k < i ==> Prompt(states[k], p, bound)
    requires t in states[i].acts && IsScaleDown(states[i].acts[t], p)
    requires u in states[i].acts && IsScaleDown(states[i].acts[u], p)
    ensures t == u
  {
    SingleRun(env, states, labels, i, p, bound);
  }
}
