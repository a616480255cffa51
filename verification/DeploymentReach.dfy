/** When an agent can still be sent an archive: exactly while the health poller may
    start a sync of it, or some sync or deploy under way owes it that archive. */
module DeploymentReach {
  import opened Models
  import opened Deployment

  /** What may follow s while nobody registers the agent again and it is not marked
      offline: any deploys, syncs, promotions, drains and flushes. */
  ghost predicate Continues(s: State, states: seq<State>, labels: seq<Label>, agent: string) {
    && |states| == |labels| + 1 && states[0] == s
    && forall i :: 0 <= i < |labels| ==>
         && Enabled(states[i], labels[i]) && states[i+1] == Apply(states[i], labels[i])
         && !Rejoins(labels[i], agent)
  }

  /** From the n-th delivery on, the agent has been sent one of the wanted versions of f. */
  ghost predicate SentSince(delivered: seq<Delivery>, n: nat, agent: string, f: string, wanted: set<nat>) {
    exists k :: n <= k < |delivered| && IsSent(delivered[k], agent, f, wanted)
  }

  ghost predicate IsSent(x: Delivery, agent: string, f: string, wanted: set<nat>) {
    x.agent == agent && x.fn == f && x.version in wanted
  }

  ghost predicate CanGet(s: State, agent: string, f: string, wanted: set<nat>) {
    exists states: seq<State>, labels: seq<Label> ::
      Continues(s, states, labels, agent)
      && SentSince(states[|labels|].delivered, |s.delivered|, agent, f, wanted)
  }

  ghost predicate Stored(s: State, f: string, wanted: set<nat>) { f in s.archives && s.archives[f] in wanted }

  /** The health poller still probes the agent. */
  ghost predicate Probed(s: State, agent: string, f: string, wanted: set<nat>) {
    agent in s.agents && s.agents[agent] == Offline && Stored(s, f, wanted)
  }

  /** A sync of the agent has yet to read f, or has read a wanted version and not sent it. */
  ghost predicate SyncOwes(s: State, j: nat, agent: string, f: string, wanted: set<nat>) {
    && j in s.joins && s.joins[j].agent == agent
    && match s.joins[j].pc
       case Probing => agent in s.agents && Stored(s, f, wanted)
       case Announced => agent in s.agents && Stored(s, f, wanted)
       case Found => Stored(s, f, wanted)
       case Registering(todo) => f in todo && Stored(s, f, wanted)
       case Reading(todo) => f in todo && Stored(s, f, wanted)
       case Sending(todo, version) =>
         todo != [] && ((f == todo[0] && version in wanted) || (f in todo[1..] && Stored(s, f, wanted)))
       case Synced => false
  }

  /** A deploy of a wanted version has yet to list the agents, or to send to this one. */
  ghost predicate DeployOwes(s: State, d: nat, agent: string, f: string, wanted: set<nat>) {
    && d in s.deploys && s.deploys[d].fn == f && s.deploys[d].version in wanted
    && (agent in s.deploys[d].todo
        || (s.deploys[d].targets == None && Listable(s, agent)))
  }

  /** It is online, or an autoscaler may yet put it online. */
  ghost predicate Listable(s: State, agent: string) {
    agent in s.agents && (s.agents[agent] == Online || s.agents[agent] == Offline)
  }

  ghost predicate Owed(s: State, agent: string, f: string, wanted: set<nat>) {
    || Probed(s, agent, f, wanted)
    || (exists j :: SyncOwes(s, j, agent, f, wanted))
    || (exists d :: DeployOwes(s, d, agent, f, wanted))
  }

  ghost predicate SavedSoFar(s: State, wanted: set<nat>) { forall v :: v in wanted ==> v <= s.saves }

  // ------------------------------------------------------ what is not owed never comes

  lemma StoredBefore(s: State, l: Label, f: string, wanted: set<nat>)
    requires Enabled(s, l) && SavedSoFar(s, wanted) && Stored(Apply(s, l), f, wanted)
    ensures Stored(s, f, wanted) && SavedSoFar(Apply(s, l), wanted)
  {
  }

  lemma ProbedBefore(s: State, l: Label, agent: string, f: string, wanted: set<nat>)
    requires Enabled(s, l) && !Rejoins(l, agent) && SavedSoFar(s, wanted) && Probed(Apply(s, l), agent, f, wanted)
    ensures Probed(s, agent, f, wanted)
  {
    StoredBefore(s, l, f, wanted);
  }

  /** A step of the sync itself: it owed before what it owes after. */
  lemma OwnSyncBefore(s: State, l: Label, j: nat, agent: string, f: string, wanted: set<nat>)
    requires Enabled(s, l) && SavedSoFar(s, wanted) && j in s.joins && SyncOwes(Apply(s, l), j, agent, f, wanted)
    requires Apply(s, l).joins[j] != s.joins[j]
    ensures SyncOwes(s, j, agent, f, wanted)
  {
    match l
    case ListFunctions(_, fs) => assert f in fs ==> fs != [];
    case SendFunction(_, ok) => StoredBefore(s, l, f, wanted);
    case _ =>
  }

  lemma SyncBefore(s: State, l: Label, j: nat, agent: string, f: string, wanted: set<nat>)
    requires Enabled(s, l) && !Rejoins(l, agent) && SavedSoFar(s, wanted) && SyncOwes(Apply(s, l), j, agent, f, wanted)
    ensures SyncOwes(s, j, agent, f, wanted) || Probed(s, agent, f, wanted)
  {
    if j in s.joins {
      if Apply(s, l).joins[j] != s.joins[j] {
        OwnSyncBefore(s, l, j, agent, f, wanted);
      }
    }
  }

  lemma DeployBefore(s: State, l: Label, d: nat, agent: string, f: string, wanted: set<nat>)
    requires Enabled(s, l) && !Rejoins(l, agent) && SavedSoFar(s, wanted) && DeployOwes(Apply(s, l), d, agent, f, wanted)
    ensures DeployOwes(s, d, agent, f, wanted)
  {
    match l
    case ListAgents(_, ids) => assert agent in ids ==> agent in OnlineIds(s.agents);
    case _ =>
  }

  lemma NothingSent(s: State, l: Label, agent: string, f: string, wanted: set<nat>)
    requires Enabled(s, l) && !Owed(s, agent, f, wanted)
    ensures var now := Apply(s, l).delivered;
            && s.delivered <= now
            && forall k :: |s.delivered| <= k < |now| ==> !IsSent(now[k], agent, f, wanted)
  {
    match l
    case SyncArchive(j, ok) => assert !SyncOwes(s, j, agent, f, wanted);
    case Send(d, ok) => assert !DeployOwes(s, d, agent, f, wanted);
    case _ => assert Apply(s, l).delivered == s.delivered;
  }

  lemma StaysUnowed(s: State, l: Label, agent: string, f: string, wanted: set<nat>)
    requires Enabled(s, l) && !Rejoins(l, agent) && SavedSoFar(s, wanted) && !Owed(s, agent, f, wanted)
    ensures SavedSoFar(Apply(s, l), wanted) && !Owed(Apply(s, l), agent, f, wanted)
  {
    var s' := Apply(s, l);
    if Probed(s', agent, f, wanted) {
      ProbedBefore(s, l, agent, f, wanted);
    } else if j :| SyncOwes(s', j, agent, f, wanted) {
      SyncBefore(s, l, j, agent, f, wanted);
    } else if d :| DeployOwes(s', d, agent, f, wanted) {
      DeployBefore(s, l, d, agent, f, wanted);
    }
  }

  lemma {:induction false} NeverSent(s: State, states: seq<State>, labels: seq<Label>, agent: string, f: string,
                                     wanted: set<nat>, i: nat)
    requires Continues(s, states, labels, agent) && i < |states| && SavedSoFar(s, wanted) && !Owed(s, agent, f, wanted)
    ensures SavedSoFar(states[i], wanted) && !Owed(states[i], agent, f, wanted)
    ensures s.delivered <= states[i].delivered && !SentSince(states[i].delivered, |s.delivered|, agent, f, wanted)
  {
    if i > 0 {
      NeverSent(s, states, labels, agent, f, wanted, i - 1);
      StaysUnowed(states[i-1], labels[i-1], agent, f, wanted);
      NothingSent(states[i-1], labels[i-1], agent, f, wanted);
    }
  }

  // ------------------------------------------------------------ what is owed can come

  lemma BeforeRun(s: State, l: Label, states: seq<State>, labels: seq<Label>, agent: string, f: string, wanted: set<nat>)
    requires Enabled(s, l) && !Rejoins(l, agent) && Continues(Apply(s, l), states, labels, agent)
    requires SentSince(states[|labels|].delivered, |s.delivered|, agent, f, wanted)
    ensures CanGet(s, agent, f, wanted)
  {
    OneMore(s, l, states, labels, agent);
    var more, steps := [s] + states, [l] + labels;
    assert more[|steps|] == states[|labels|];
    assert Continues(s, more, steps, agent);
  }

  /** A first step after which the agent can get it, or with which it does. */
  lemma Before(s: State, l: Label, agent: string, f: string, wanted: set<nat>)
    requires Enabled(s, l) && !Rejoins(l, agent) && |s.delivered| <= |Apply(s, l).delivered|
    requires CanGet(Apply(s, l), agent, f, wanted) || SentSince(Apply(s, l).delivered, |s.delivered|, agent, f, wanted)
    ensures CanGet(s, agent, f, wanted)
  {
    var n, s' := |s.delivered|, Apply(s, l);
    if SentSince(s'.delivered, n, agent, f, wanted) {
      BeforeRun(s, l, [s'], [], agent, f, wanted);
    } else {
      var states: seq<State>, labels: seq<Label> :|
        Continues(s', states, labels, agent) && SentSince(states[|labels|].delivered, |s'.delivered|, agent, f, wanted);
      BeforeRun(s, l, states, labels, agent, f, wanted);
    }
  }

  lemma OneMore(s: State, l: Label, states: seq<State>, labels: seq<Label>, agent: string)
    requires Enabled(s, l) && !Rejoins(l, agent) && Continues(Apply(s, l), states, labels, agent)
    ensures Continues(s, [s] + states, [l] + labels, agent)
  {
    var more, steps := [s] + states, [l] + labels;
    forall i | 0 <= i < |steps|
      ensures Enabled(more[i], steps[i]) && more[i+1] == Apply(more[i], steps[i]) && !Rejoins(steps[i], agent)
    {
      if i > 0 { assert more[i] == states[i-1] && steps[i] == labels[i-1] && more[i+1] == states[i]; }
    }
  }

  function Left(pc: SyncPc): nat {
    match pc
    case Registering(todo) => 3 * |todo| + 2
    case Reading(todo) => 3 * |todo| + 1
    case Sending(todo, _) => 3 * |todo|
    case _ => 0
  }

  lemma LaterTodo(todo: seq<string>, f: string)
    requires f in todo && f != todo[0]
    ensures |todo| > 1 && f in todo[1..]
  {
    assert todo == [todo[0]] + todo[1..];
  }

  ghost predicate Busy(pc: SyncPc) { pc.Registering? || pc.Reading? || pc.Sending? }

  /** The sync's next call succeeds: it is one step nearer to what it owes. */
  lemma BusyGoesOn(s: State, j: nat, agent: string, f: string, wanted: set<nat>) returns (l: Label)
    requires SyncOwes(s, j, agent, f, wanted) && Busy(s.joins[j].pc)
    requires s.joins[j].pc.Sending? ==> f != s.joins[j].pc.todo[0] || s.joins[j].pc.version !in wanted
    ensures Enabled(s, l) && !Rejoins(l, agent) && |s.delivered| <= |Apply(s, l).delivered|
    ensures var s' := Apply(s, l);
            && SyncOwes(s', j, agent, f, wanted) && Busy(s'.joins[j].pc)
            && Left(s'.joins[j].pc) < Left(s.joins[j].pc)
  {
    match s.joins[j].pc
    case Registering(todo) => l := SendFunction(j, true);
    case Reading(todo) =>
      if f != todo[0] { LaterTodo(todo, f); }
      l := ReadArchive(j);
    case Sending(todo, version) => l := SyncArchive(j, true);
  }

  /** A sync under way runs to its end. */
  lemma {:induction false} BusyDelivers(s: State, j: nat, agent: string, f: string, wanted: set<nat>)
    requires SyncOwes(s, j, agent, f, wanted) && Busy(s.joins[j].pc)
    ensures CanGet(s, agent, f, wanted)
    decreases Left(s.joins[j].pc)
  {
    var pc := s.joins[j].pc;
    if pc.Sending? && f == pc.todo[0] && pc.version in wanted {
      SentNow(s, SyncArchive(j, true), Delivery(agent, f, pc.version), agent, f, wanted);
    } else {
      var l := BusyGoesOn(s, j, agent, f, wanted);
      BusyDelivers(Apply(s, l), j, agent, f, wanted);
      Before(s, l, agent, f, wanted);
    }
  }

  lemma FoundDelivers(s: State, j: nat, agent: string, f: string, wanted: set<nat>)
    requires SyncOwes(s, j, agent, f, wanted) && s.joins[j].pc == Found
    ensures CanGet(s, agent, f, wanted)
  {
    var s' := Apply(s, NewFunction(f));
    var l := Enumerate(s'.functions);
    assert f in l;
    BusyDelivers(Apply(s', ListFunctions(j, l)), j, agent, f, wanted);
    Before(s', ListFunctions(j, l), agent, f, wanted);
    Before(s, NewFunction(f), agent, f, wanted);
  }

  lemma AnnouncedDelivers(s: State, j: nat, agent: string, f: string, wanted: set<nat>)
    requires SyncOwes(s, j, agent, f, wanted) && s.joins[j].pc == Announced
    ensures CanGet(s, agent, f, wanted)
  {
    FoundDelivers(Apply(s, Fetch(j)), j, agent, f, wanted);
    Before(s, Fetch(j), agent, f, wanted);
  }

  lemma SyncDelivers(s: State, j: nat, agent: string, f: string, wanted: set<nat>)
    requires SyncOwes(s, j, agent, f, wanted)
    ensures CanGet(s, agent, f, wanted)
  {
    match s.joins[j].pc
    case Probing =>
      AnnouncedDelivers(Apply(s, Promote(j)), j, agent, f, wanted);
      Before(s, Promote(j), agent, f, wanted);
    case Announced => AnnouncedDelivers(s, j, agent, f, wanted);
    case Found => FoundDelivers(s, j, agent, f, wanted);
    case _ => BusyDelivers(s, j, agent, f, wanted);
  }

  lemma SentNow(s: State, l: Label, x: Delivery, agent: string, f: string, wanted: set<nat>)
    requires Enabled(s, l) && !Rejoins(l, agent) && Apply(s, l).delivered == s.delivered + [x] && IsSent(x, agent, f, wanted)
    ensures CanGet(s, agent, f, wanted)
  {
    assert Apply(s, l).delivered[|s.delivered|] == x;
    Before(s, l, agent, f, wanted);
  }

  /** A deploy under way sends on until it has reached the agent. */
  lemma {:induction false} DeployDelivers(s: State, d: nat, agent: string, f: string, wanted: set<nat>)
    requires DeployOwes(s, d, agent, f, wanted) && agent in s.deploys[d].todo
    ensures CanGet(s, agent, f, wanted)
    decreases |s.deploys[d].todo|
  {
    var todo := s.deploys[d].todo;
    if todo[0] == agent {
      SentNow(s, Send(d, true), Delivery(agent, f, s.deploys[d].version), agent, f, wanted);
    } else {
      assert todo == [todo[0]] + todo[1..];
      DeployDelivers(Apply(s, Send(d, true)), d, agent, f, wanted);
      Before(s, Send(d, true), agent, f, wanted);
    }
  }

  lemma ListedDelivers(s: State, d: nat, agent: string, f: string, wanted: set<nat>)
    requires DeployOwes(s, d, agent, f, wanted) && agent !in s.deploys[d].todo
    ensures CanGet(s, agent, f, wanted)
  {
    var s' := Apply(s, ScalerPromote(agent));
    assert agent in OnlineIds(s'.agents);
    var l := Enumerate(OnlineIds(s'.agents));
    assert agent in l;
    DeployDelivers(Apply(s', ListAgents(d, l)), d, agent, f, wanted);
    Before(s', ListAgents(d, l), agent, f, wanted);
    Before(s, ScalerPromote(agent), agent, f, wanted);
  }

  lemma ProbeDelivers(s: State, agent: string, f: string, wanted: set<nat>)
    requires Probed(s, agent, f, wanted)
    ensures CanGet(s, agent, f, wanted)
  {
    var j := AboveAll(s.joins.Keys);
    SyncDelivers(Apply(s, Probe(j, agent)), j, agent, f, wanted);
    Before(s, Probe(j, agent), agent, f, wanted);
  }

  /** Whatever the agent's status: unless it rejoins, it can still be sent one of the
      wanted archives saved so far if and only if somebody owes it one. */
  lemma CanStillGetIff(s: State, agent: string, f: string, wanted: set<nat>)
    requires SavedSoFar(s, wanted)
    ensures CanGet(s, agent, f, wanted) <==> Owed(s, agent, f, wanted)
  {
    if Probed(s, agent, f, wanted) {
      ProbeDelivers(s, agent, f, wanted);
    } else if j :| SyncOwes(s, j, agent, f, wanted) {
      SyncDelivers(s, j, agent, f, wanted);
    } else if d :| DeployOwes(s, d, agent, f, wanted) {
      if agent in s.deploys[d].todo {
        DeployDelivers(s, d, agent, f, wanted);
      } else {
        ListedDelivers(s, d, agent, f, wanted);
      }
    } else {
      forall states: seq<State>, labels: seq<Label> | Continues(s, states, labels, agent)
        ensures !SentSince(states[|labels|].delivered, |s.delivered|, agent, f, wanted)
      {
        NeverSent(s, states, labels, agent, f, wanted, |labels|);
      }
    }
  }

  // ------------------------------------------- an agent that an autoscaler promotes

  /** With no join of it under way, an agent that an autoscaler puts online is not
      synced by anyone: an archive whose deploy had listed the agents without it never
      reaches it, whatever follows, until it rejoins. */
  lemma ScalerPromotionSkipsSync(states: seq<State>, labels: seq<Label>, p: nat, agent: string, d: nat)
    requires Run(states, labels) && p < |labels| && labels[p] == ScalerPromote(agent)
    requires forall j :: j in states[p].joins && states[p].joins[j].agent == agent ==> states[p].joins[j].pc == Synced
    requires Skipped(states[p], d, agent)
    ensures !CanGet(states[p+1], agent, states[p].deploys[d].fn, {states[p].deploys[d].version})
  {
    var s, deploy := states[p+1], states[p].deploys[d];
    AllDeploysOk(states, labels, p + 1);
    assert Enabled(states[p], labels[p]) && s == Apply(states[p], labels[p]);
    assert s.deploys[d] == deploy;
    forall e ensures !DeployOwes(s, e, agent, deploy.fn, {deploy.version}) {}
    CanStillGetIff(s, agent, deploy.fn, {deploy.version});
  }

  function UnsyncedStep(agent: string, f: string, k: nat): Label {
    match k
    case 0 => NewFunction(f)
    case 1 => Save(0, f)
    case 2 => Provisioned(agent)
    case 3 => ListAgents(0, [])
    case _ => ScalerPromote(agent)
  }

  ghost function UnsyncedState(agent: string, f: string, k: nat): State {
    State(if k <= 2 then map[] else map[agent := if k <= 4 then Offline else Online],
          if k == 0 then {} else {f}, if k <= 1 then map[] else map[f := 1], if k <= 1 then 0 else 1, map[],
          if k <= 1 then map[] else map[0 := Deploy(f, 1, if k <= 3 then None else Some({}), [], {})], [])
  }

  lemma UnsyncedSteps(agent: string, f: string, k: nat)
    requires k < 5
    ensures Enabled(UnsyncedState(agent, f, k), UnsyncedStep(agent, f, k))
    ensures UnsyncedState(agent, f, k + 1) == Apply(UnsyncedState(agent, f, k), UnsyncedStep(agent, f, k))
  {
    var s, s' := UnsyncedState(agent, f, k), UnsyncedState(agent, f, k + 1);
    var next := Apply(s, UnsyncedStep(agent, f, k));
    assert OnlineIds(s.agents) == {};
    assert next.agents == s'.agents && next.deploys == s'.deploys;
  }

  /** From an empty store: an agent is provisioned while a deploy is between saving its
      archive and listing the agents, and an autoscaler promotes it.  It is online, the
      archive is stored and was never sent to it, and unless the agent rejoins no
      continuation sends it. */
  lemma ScalerPromotedMissesArchive(agent: string, f: string) returns (states: seq<State>, labels: seq<Label>)
    ensures Run(states, labels)
    ensures var s := states[|labels|];
            && agent in s.agents && s.agents[agent] == Online && f in s.functions && f in s.archives
            && s.delivered == [] && !CanGet(s, agent, f, {s.archives[f]})
  {
    states := seq(6, k requires 0 <= k < 6 => UnsyncedState(agent, f, k));
    labels := seq(5, k requires 0 <= k < 5 => UnsyncedStep(agent, f, k));
    forall k | 0 <= k < 5 ensures Enabled(states[k], labels[k]) && states[k+1] == Apply(states[k], labels[k]) {
      UnsyncedSteps(agent, f, k);
    }
    CanStillGetIff(states[5], agent, f, {1});
  }
}
