/** What is in a pressure history, told from the steps of the run alone: exactly the
    readings that agents replied to probes, stamped with the start of the poll, that no
    later recording found too old and that nothing has emptied since. */
module FleetSamples {
  import opened Models
  import opened Scaling
  import opened FleetModel
  import opened FleetIdentity
  import opened FleetTiming

  ghost predicate IsOwn(l: Label, p: string) { l.Poll? && l.p == p }

  // ------------------------------------------------------- what is recorded, and whence

  /** The poll that p's loop is in began at k. */
  ghost predicate StartsAt(states: seq<State>, labels: seq<Label>, k: nat, p: string, now: int) {
    k < |states| && k < |labels| && labels[k].Poll? && labels[k].p == p && labels[k].poll.PollStart? && states[k].clock == now
  }

  ghost predicate InPollSince(states: seq<State>, labels: seq<Label>, n: nat, p: string, now: int) {
    exists k :: 0 <= k < n && StartsAt(states, labels, k, p, now)
                && forall j :: k < j < n && j < |labels| ==> !(IsOwn(labels[j], p) && labels[j].poll.PollStart?)
  }

  /** At k the loop asked the agent, one of its provider's, and this was the reply. */
  ghost predicate RepliesAt(states: seq<State>, labels: seq<Label>, k: nat, p: string, id: string, ns: NodeStatus) {
    && k < |states| && k < |labels| && labels[k] == Poll(p, ProbeReply(ns)) && p in states[k].scalers
    && Probing(states[k].scalers[p].pc) && states[k].scalers[p].pc.todo[0].id == id
    && states[k].scalers[p].pc.todo[0].provider == p
  }

  /** The loop's last step before n. */
  ghost predicate RepliedLast(states: seq<State>, labels: seq<Label>, n: nat, p: string, id: string, ns: NodeStatus) {
    exists k :: 0 <= k < n && RepliesAt(states, labels, k, p, id, ns)
                && forall j :: k < j < n && j < |labels| ==> !IsOwn(labels[j], p)
  }

  /** What the loop is about is what its own steps made it. */
  ghost predicate SweepTraced(states: seq<State>, labels: seq<Label>, n: nat, p: string, pc: Pc) {
    && (pc.Sampling? || pc.Recording? ==> InPollSince(states, labels, n, p, pc.now))
    && (pc.Recording? ==> RepliedLast(states, labels, n, p, pc.agent.id, pc.ns))
  }

  lemma OwnSweep(env: Env, s: State, p: string, x: PollStep)
    requires OfFleet(env, s, p) && PollEnabled(env, s, p, x)
    ensures p in PollApply(env, s, p, x).scalers
    ensures var pc, pc' := s.scalers[p].pc, PollApply(env, s, p, x).scalers[p].pc;
            && (pc'.Sampling? || pc'.Recording? ==>
                  if x.PollStart? then pc'.now == s.clock else (pc.Sampling? || pc.Recording?) && pc'.now == pc.now)
            && (pc'.Recording? ==>
                  && x.ProbeReply? && Probing(pc) && pc'.agent == pc.todo[0] && pc'.agent.provider == p && pc'.ns == x.ns)
  {
    match x
    case DecideUp(_, action, u) => DecideEndsSweep(env, s, p, action, u);
    case DecideDown(_, action, u) => DecideEndsSweep(env, s, p, action, u);
    case _ =>
  }

  lemma DecideEndsSweep(env: Env, s: State, p: string, action: Action, u: nat)
    requires OfFleet(env, s, p)
    ensures var s' := AfterDecideUp(env, s, p, action, u);
            p in s'.scalers && !s'.scalers[p].pc.Sampling? && !s'.scalers[p].pc.Recording?
    ensures var s' := AfterDecideDown(env, s, p, action, u);
            p in s'.scalers && !s'.scalers[p].pc.Sampling? && !s'.scalers[p].pc.Recording?
  {
  }

  lemma SweepStays(states: seq<State>, labels: seq<Label>, n: nat, p: string, now: int, id: string, ns: NodeStatus)
    requires n < |labels|
    ensures InPollSince(states, labels, n, p, now) && !(IsOwn(labels[n], p) && labels[n].poll.PollStart?) ==>
              InPollSince(states, labels, n + 1, p, now)
    ensures RepliedLast(states, labels, n, p, id, ns) && !IsOwn(labels[n], p) ==>
              RepliedLast(states, labels, n + 1, p, id, ns)
  {
  }

  lemma OwnTraced(env: Env, states: seq<State>, labels: seq<Label>, n: nat, p: string, x: PollStep)
    requires n < |labels| && n + 1 < |states| && labels[n] == Poll(p, x) && OfFleet(env, states[n], p)
    requires Step(env, states[n], labels[n], states[n+1]) && SweepTraced(states, labels, n, p, states[n].scalers[p].pc)
    ensures p in states[n+1].scalers && SweepTraced(states, labels, n + 1, p, states[n+1].scalers[p].pc)
  {
    OwnSweep(env, states[n], p, x);
    var pc, pc' := states[n].scalers[p].pc, states[n+1].scalers[p].pc;
    if pc'.Sampling? || pc'.Recording? {
      if x.PollStart? {
        assert StartsAt(states, labels, n, p, pc'.now);
      } else {
        SweepStays(states, labels, n, p, pc.now, "", NO_STATUS);
      }
    }
    if pc'.Recording? { assert RepliesAt(states, labels, n, p, pc'.agent.id, x.ns); }
  }

  lemma OtherTraced(env: Env, states: seq<State>, labels: seq<Label>, n: nat, p: string)
    requires n < |labels| && n + 1 < |states| && !IsOwn(labels[n], p) && OfFleet(env, states[n], p)
    requires Step(env, states[n], labels[n], states[n+1]) && SweepTraced(states, labels, n, p, states[n].scalers[p].pc)
    ensures p in states[n+1].scalers && SweepTraced(states, labels, n + 1, p, states[n+1].scalers[p].pc)
  {
    if !labels[n].Tick? { OthersSoft(env, states[n], labels[n], p); }
    var pc := states[n].scalers[p].pc;
    if pc.Sampling? || pc.Recording? {
      var id, ns := if pc.Recording? then pc.agent.id else "", if pc.Recording? then pc.ns else NO_STATUS;
      SweepStays(states, labels, n, p, pc.now, id, ns);
    }
  }

  lemma {:induction false} RunSweepTraced(env: Env, states: seq<State>, labels: seq<Label>, n: nat, p: string)
    requires Run(env, states, labels) && n < |states| && p in env.fleet
    ensures p in states[n].scalers && SweepTraced(states, labels, n, p, states[n].scalers[p].pc)
  {
    if n > 0 {
      var m := n - 1;
      RunSweepTraced(env, states, labels, m, p);
      assert Step(env, states[m], labels[m], states[m+1]);
      if IsOwn(labels[m], p) {
        OwnTraced(env, states, labels, m, p, labels[m].poll);
      } else {
        OtherTraced(env, states, labels, m, p);
      }
    }
  }

  /** At n the loop of p records the sample for the agent. */
  ghost predicate RecordsAt(states: seq<State>, labels: seq<Label>, n: nat, p: string, id: string, sample: Sample) {
    && n < |states| && n < |labels| && labels[n] == Poll(p, Record) && p in states[n].scalers
    && states[n].scalers[p].pc.Recording? && states[n].scalers[p].pc.agent.id == id
    && sample.cpu == states[n].scalers[p].pc.ns.cpuPercent && sample.mem == states[n].scalers[p].pc.ns.memPercent
    && sample.at == states[n].scalers[p].pc.now
  }

  /** Every recording is of the reply that the agent has just given: its CPU and memory
      percentages, at the time the poll began. */
  lemma RecordingsAreReplies(env: Env, states: seq<State>, labels: seq<Label>, n: nat, p: string)
    returns (id: string, ns: NodeStatus, sample: Sample)
    requires Run(env, states, labels) && n < |labels| && labels[n] == Poll(p, Record)
    ensures RecordsAt(states, labels, n, p, id, sample) && RepliedLast(states, labels, n, p, id, ns)
    ensures sample.cpu == ns.cpuPercent && sample.mem == ns.memPercent && InPollSince(states, labels, n, p, sample.at)
  {
    assert Step(env, states[n], labels[n], states[n+1]);
    RunSweepTraced(env, states, labels, n, p);
    var pc := states[n].scalers[p].pc;
    id, ns, sample := pc.agent.id, pc.ns, Sample(pc.ns.cpuPercent, pc.ns.memPercent, pc.now);
  }

  // ---------------------------------------------------------------- what stays recorded

  /** The step empties the histories of p: after a scale-down's mark, or when a goroutine of
      p has registered the node it spawned. */
  ghost predicate Empties(s: State, l: Label, p: string) {
    l == Poll(p, Empty) || (l.Act? && l.act.Reset? && l.t in s.acts && s.acts[l.t].p == p)
  }

  /** From k on the sample was not emptied, and never older than the window at a recording
      of the agent. */
  ghost predicate Survives(env: Env, states: seq<State>, labels: seq<Label>, k: nat, n: nat, p: string,
                           id: string, sample: Sample)
    requires p in env.fleet
  {
    && (forall j :: k <= j < n && j < |states| && j < |labels| ==> !Empties(states[j], labels[j], p))
    && (forall j, later :: k <= j < n && RecordsAt(states, labels, j, p, id, later) ==>
          later.at - sample.at <= env.fleet[p].window)
  }

  ghost predicate IsKept(env: Env, states: seq<State>, labels: seq<Label>, n: nat, p: string, id: string, sample: Sample)
    requires p in env.fleet
  {
    exists k :: 0 <= k < n && RecordsAt(states, labels, k, p, id, sample)
                && Survives(env, states, labels, k, n, p, id, sample)
  }

  ghost predicate Has(hist: History, id: string, sample: Sample) { id in hist && sample in hist[id] }

  /** What one step does to the histories of p. */
  lemma HistoryStep(env: Env, s: State, l: Label, p: string)
    requires Enabled(env, s, l) && OfFleet(env, s, p)
    ensures p in Apply(env, s, l).scalers
    ensures var h, h' := s.scalers[p].history, Apply(env, s, l).scalers[p].history;
            h' == if Empties(s, l, p) then map[]
                  else if l == Poll(p, Record) then
                    var pc := s.scalers[p].pc;
                    Recorded(h, pc.agent.id, SampleOf(pc.ns, pc.now), env.fleet[p].window)
                  else h
  {
    match l
    case Tick(_) =>
    case Poll(q, x) => if q == p && x.Record? { RecordHistory(env, s, p); } else { PollHistory(env, s, q, x, p); }
    case Act(t, x) => ActHistory(env, s, t, x, p);
    case Operator(x) => OperatorHistory(env, s, x, p);
  }

  lemma OperatorHistory(env: Env, s: State, x: OpStep, p: string)
    requires OpEnabled(env, s, x) && p in s.scalers
    ensures var s' := OpApply(env, s, x); p in s'.scalers && s'.scalers[p].history == s.scalers[p].history
  {
  }

  lemma DecideHistory(env: Env, s: State, q: string, action: Action, u: nat, p: string)
    requires OfFleet(env, s, q) && p in s.scalers
    ensures var s' := AfterDecideUp(env, s, q, action, u); p in s'.scalers && s'.scalers[p].history == s.scalers[p].history
    ensures var s' := AfterDecideDown(env, s, q, action, u); p in s'.scalers && s'.scalers[p].history == s.scalers[p].history
  {
  }

  lemma RecordHistory(env: Env, s: State, p: string)
    requires OfFleet(env, s, p) && PollEnabled(env, s, p, Record)
    ensures var s', pc := PollApply(env, s, p, Record), s.scalers[p].pc;
            && p in s'.scalers
            && s'.scalers[p].history ==
                 Recorded(s.scalers[p].history, pc.agent.id, SampleOf(pc.ns, pc.now), env.fleet[p].window)
  {
  }

  /** No other step of a poll loop but emptying touches a history. */
  lemma PollHistory(env: Env, s: State, q: string, x: PollStep, p: string)
    requires OfFleet(env, s, q) && PollEnabled(env, s, q, x) && OfFleet(env, s, p) && (q != p || !x.Record?)
    ensures var s' := PollApply(env, s, q, x);
            && p in s'.scalers
            && s'.scalers[p].history == if q == p && x.Empty? then map[] else s.scalers[p].history
  {
    if q != p {
      OtherPoll(env, s, q, x, p);
    } else {
      match x
      case DecideUp(_, action, u) => DecideHistory(env, s, p, action, u, p);
      case DecideDown(_, action, u) => DecideHistory(env, s, p, action, u, p);
      case _ =>
    }
  }

  lemma ActHistory(env: Env, s: State, t: nat, x: ActStep, p: string)
    requires Live(env, s, t) && ActEnabled(env, s, t, x) && OfFleet(env, s, p)
    ensures var s' := ActApply(env, s, t, x);
            && p in s'.scalers
            && s'.scalers[p].history == if x.Reset? && s.acts[t].p == p then map[] else s.scalers[p].history
  {
    match x
    case Deregister => DeregisterHistory(s, t, p);
    case _ =>
  }

  lemma DeregisterHistory(s: State, t: nat, p: string)
    requires t in s.acts && s.acts[t].p in s.scalers && p in s.scalers
    ensures var s' := AfterDeregister(s, t); p in s'.scalers && s'.scalers[p].history == s.scalers[p].history
  {
    match s.acts[t].role
    case Kill =>
    case Boot =>
    case Upgrade =>
    case _ =>
  }

  lemma RecordedHas(hist: History, id: string, s: Sample, window: int, other: string, sample: Sample)
    ensures Has(Recorded(hist, id, s, window), other, sample) <==>
            if other == id then (Has(hist, id, sample) || sample == s) && s.at - sample.at <= window
            else Has(hist, other, sample)
  {
    var h := (if id in hist then hist[id] else []) + [s];
    KeptMembers(h, s.at, window, sample);
  }

  /** The step records something for the agent. */
  ghost predicate Updates(s: State, l: Label, p: string, id: string) {
    l == Poll(p, Record) && p in s.scalers && s.scalers[p].pc.Recording? && s.scalers[p].pc.agent.id == id
  }

  function NewSample(pc: Pc): Sample
    requires pc.Recording?
  {
    Sample(pc.ns.cpuPercent, pc.ns.memPercent, pc.now)
  }

  lemma KeptStep(env: Env, states: seq<State>, labels: seq<Label>, n: nat, p: string, id: string, sample: Sample)
    requires n < |labels| && n < |states| && p in env.fleet
    ensures var s, l := states[n], labels[n];
            IsKept(env, states, labels, n + 1, p, id, sample) <==>
            && !Empties(s, l, p)
            && if Updates(s, l, p, id)
               then (IsKept(env, states, labels, n, p, id, sample) || sample == NewSample(s.scalers[p].pc))
                    && s.scalers[p].pc.now - sample.at <= env.fleet[p].window
               else IsKept(env, states, labels, n, p, id, sample)
  {
    var s, l := states[n], labels[n];
    if Updates(s, l, p, id) {
      assert RecordsAt(states, labels, n, p, id, NewSample(s.scalers[p].pc));
      assert !Empties(s, l, p);
      if sample == NewSample(s.scalers[p].pc) && 0 <= env.fleet[p].window {
        assert Survives(env, states, labels, n, n + 1, p, id, sample);
      }
    }
    if IsKept(env, states, labels, n, p, id, sample) {
      var k :| 0 <= k < n && RecordsAt(states, labels, k, p, id, sample) && Survives(env, states, labels, k, n, p, id, sample);
      SurvivesStep(env, states, labels, k, n, p, id, sample);
    }
    if IsKept(env, states, labels, n + 1, p, id, sample) {
      var k :| && 0 <= k < n + 1 && RecordsAt(states, labels, k, p, id, sample)
               && Survives(env, states, labels, k, n + 1, p, id, sample);
      SurvivesStep(env, states, labels, k, n, p, id, sample);
    }
  }

  lemma SurvivesStep(env: Env, states: seq<State>, labels: seq<Label>, k: nat, n: nat, p: string, id: string, sample: Sample)
    requires k <= n < |labels| && n < |states| && p in env.fleet
    ensures Survives(env, states, labels, k, n + 1, p, id, sample) <==>
            && Survives(env, states, labels, k, n, p, id, sample) && !Empties(states[n], labels[n], p)
            && (Updates(states[n], labels[n], p, id) ==>
                  states[n].scalers[p].pc.now - sample.at <= env.fleet[p].window)
  {
    if Updates(states[n], labels[n], p, id) {
      assert RecordsAt(states, labels, n, p, id, NewSample(states[n].scalers[p].pc));
    }
  }

  lemma HistoryHolds(env: Env, s: State, l: Label, p: string, id: string, sample: Sample)
    requires Enabled(env, s, l) && OfFleet(env, s, p)
    ensures p in Apply(env, s, l).scalers
    ensures Has(Apply(env, s, l).scalers[p].history, id, sample) <==>
            && !Empties(s, l, p)
            && if Updates(s, l, p, id)
               then (Has(s.scalers[p].history, id, sample) || sample == NewSample(s.scalers[p].pc))
                    && s.scalers[p].pc.now - sample.at <= env.fleet[p].window
               else Has(s.scalers[p].history, id, sample)
  {
    HistoryStep(env, s, l, p);
    if l == Poll(p, Record) && !Empties(s, l, p) {
      var pc := s.scalers[p].pc;
      RecordedHas(s.scalers[p].history, pc.agent.id, SampleOf(pc.ns, pc.now), env.fleet[p].window, id, sample);
    }
  }

  /** A sample is in the history of an agent if and only if it was recorded for it, nothing
      has emptied the histories since, and it was within the window at each recording of
      the agent from then on. */
  lemma {:induction false} InHistoryIff(env: Env, states: seq<State>, labels: seq<Label>, n: nat, p: string,
                                        id: string, sample: Sample)
    requires Run(env, states, labels) && n < |states| && p in env.fleet
    ensures p in states[n].scalers
    ensures Has(states[n].scalers[p].history, id, sample) <==> IsKept(env, states, labels, n, p, id, sample)
  {
    if n > 0 {
      var m := n - 1;
      InHistoryIff(env, states, labels, m, p, id, sample);
      assert Step(env, states[m], labels[m], states[m+1]);
      HistoryHolds(env, states[m], labels[m], p, id, sample);
      KeptStep(env, states, labels, m, p, id, sample);
    }
  }
}
