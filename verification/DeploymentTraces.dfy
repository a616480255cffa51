/** What reached an agent, told from the calls that were made: nothing is delivered but
    by a call that succeeded, no call sends what was not read or saved before, and a sync
    leaves out no function it listed. */
module DeploymentTraces {
  import opened Models
  import opened AgentRegistry
  import opened Deployment

  // ------------------------------------------------------------------- deliveries

  /** The step is a call that succeeds in sending x. */
  ghost predicate Sends(s: State, l: Label, x: Delivery) {
    match l
    case SyncArchive(j, true) =>
      && j in s.joins && s.joins[j].pc.Sending? && s.joins[j].pc.todo != []
      && x == Delivery(s.joins[j].agent, s.joins[j].pc.todo[0], s.joins[j].pc.version)
    case Send(d, true) =>
      && d in s.deploys && s.deploys[d].todo != []
      && x == Delivery(s.deploys[d].todo[0], s.deploys[d].fn, s.deploys[d].version)
    case _ => false
  }

  lemma DeliveredBy(s: State, l: Label, x: Delivery)
    requires Enabled(s, l)
    ensures x in Apply(s, l).delivered <==> x in s.delivered || Sends(s, l, x)
  {
  }

  ghost predicate WasSent(states: seq<State>, labels: seq<Label>, i: nat, x: Delivery) {
    exists k :: 0 <= k < i && k < |states| && k < |labels| && Sends(states[k], labels[k], x)
  }

  lemma SentNext(states: seq<State>, labels: seq<Label>, i: nat, x: Delivery)
    requires i < |states| && i < |labels|
    ensures WasSent(states, labels, i + 1, x) <==> WasSent(states, labels, i, x) || Sends(states[i], labels[i], x)
  {
  }

  /** An agent has been sent a version of a function if and only if some call that
      succeeded sent it. */
  lemma {:induction false} DeliveredIff(states: seq<State>, labels: seq<Label>, i: nat, x: Delivery)
    requires Run(states, labels) && i < |states|
    ensures x in states[i].delivered <==> WasSent(states, labels, i, x)
  {
    if i > 0 {
      var k := i - 1;
      DeliveredIff(states, labels, k, x);
      assert Enabled(states[k], labels[k]) && states[k+1] == Apply(states[k], labels[k]);
      DeliveredBy(states[k], labels[k], x);
      SentNext(states, labels, k, x);
    }
  }

  // ---------------------------------------------------------- what a sync has done

  predicate Head(todo: seq<string>, f: string) { todo != [] && todo[0] == f }

  /** At k the sync calls RegisterFunction for f. */
  ghost predicate RegistersAt(states: seq<State>, labels: seq<Label>, k: nat, j: nat, f: string, ok: bool) {
    && k < |states| && k < |labels| && labels[k] == SendFunction(j, ok) && j in states[k].joins
    && states[k].joins[j].pc.Registering? && Head(states[k].joins[j].pc.todo, f)
  }

  /** At k it reads the archive of f, if there is one. */
  ghost predicate ReadsAt(states: seq<State>, labels: seq<Label>, k: nat, j: nat, f: string, version: Option<nat>) {
    && k < |states| && k < |labels| && labels[k] == ReadArchive(j) && j in states[k].joins
    && states[k].joins[j].pc.Reading? && Head(states[k].joins[j].pc.todo, f)
    && version == if f in states[k].archives then Some(states[k].archives[f]) else None
  }

  /** At k it calls DeployFunction with version v of f. */
  ghost predicate SendsAt(states: seq<State>, labels: seq<Label>, k: nat, j: nat, f: string, v: nat, ok: bool) {
    && k < |states| && k < |labels| && labels[k] == SyncArchive(j, ok) && j in states[k].joins
    && states[k].joins[j].pc.Sending? && Head(states[k].joins[j].pc.todo, f) && states[k].joins[j].pc.version == v
  }

  ghost predicate HasRegistered(states: seq<State>, labels: seq<Label>, i: nat, j: nat, f: string) {
    exists k :: 0 <= k < i && RegistersAt(states, labels, k, j, f, true)
  }

  ghost predicate HasRead(states: seq<State>, labels: seq<Label>, i: nat, j: nat, f: string, v: nat) {
    exists k :: 0 <= k < i && ReadsAt(states, labels, k, j, f, Some(v)) && HasRegistered(states, labels, k, j, f)
  }

  /** The sync is through with f: the agent refused it, it has no archive, or the archive
      was sent, for better or worse. */
  ghost predicate Through(states: seq<State>, labels: seq<Label>, i: nat, j: nat, f: string) {
    || (exists k :: 0 <= k < i && RegistersAt(states, labels, k, j, f, false))
    || (exists k :: 0 <= k < i && ReadsAt(states, labels, k, j, f, None) && HasRegistered(states, labels, k, j, f))
    || (exists k, v, ok :: 0 <= k < i && SendsAt(states, labels, k, j, f, v, ok) && HasRead(states, labels, k, j, f, v))
  }

  function TodoOf(pc: SyncPc): seq<string> {
    match pc
    case Registering(todo) => todo
    case Reading(todo) => todo
    case Sending(todo, _) => todo
    case _ => []
  }

  /** Of every listing the sync made, each function is still to do or done with. */
  ghost predicate NoneLeftOut(states: seq<State>, labels: seq<Label>, i: nat, j: nat, todo: seq<string>) {
    forall m, l, f :: 0 <= m < i && m < |labels| && labels[m] == ListFunctions(j, l) && f in l ==>
      f in todo || Through(states, labels, i, j, f)
  }

  ghost predicate NeverListed(labels: seq<Label>, i: nat, j: nat) {
    forall m :: 0 <= m < i && m < |labels| ==> !(labels[m].ListFunctions? && labels[m].j == j)
  }

  ghost predicate SyncTraced(states: seq<State>, labels: seq<Label>, i: nat, j: nat, pc: SyncPc) {
    && NoneLeftOut(states, labels, i, j, TodoOf(pc))
    && match pc
       case Probing => NeverListed(labels, i, j)
       case Announced => NeverListed(labels, i, j)
       case Found => NeverListed(labels, i, j)
       case Reading(todo) => todo != [] ==> HasRegistered(states, labels, i, j, todo[0])
       case Sending(todo, v) => todo != [] ==> HasRead(states, labels, i, j, todo[0], v)
       case _ => true
  }

  lemma PastStays(states: seq<State>, labels: seq<Label>, i: nat, j: nat, f: string)
    ensures HasRegistered(states, labels, i, j, f) ==> HasRegistered(states, labels, i + 1, j, f)
    ensures forall v :: HasRead(states, labels, i, j, f, v) ==> HasRead(states, labels, i + 1, j, f, v)
    ensures Through(states, labels, i, j, f) ==> Through(states, labels, i + 1, j, f)
  {
  }

  /** A step that is not of this sync. */
  lemma TracedElsewhere(states: seq<State>, labels: seq<Label>, i: nat, j: nat, pc: SyncPc)
    requires i < |labels| && !(labels[i].ListFunctions? && labels[i].j == j) && SyncTraced(states, labels, i, j, pc)
    ensures SyncTraced(states, labels, i + 1, j, pc)
  {
    forall f { PastStays(states, labels, i, j, f); }
  }

  ghost predicate StepAt(states: seq<State>, labels: seq<Label>, i: nat) {
    i < |labels| && i + 1 < |states| && Enabled(states[i], labels[i]) && states[i+1] == Apply(states[i], labels[i])
  }

  lemma RestLeavesNoneOut(states: seq<State>, labels: seq<Label>, i: nat, j: nat, todo: seq<string>)
    requires i < |labels| && !labels[i].ListFunctions? && todo != [] && NoneLeftOut(states, labels, i, j, todo)
    requires Through(states, labels, i + 1, j, todo[0])
    ensures NoneLeftOut(states, labels, i + 1, j, TodoOf(Rest(todo)))
  {
    assert todo == [todo[0]] + todo[1..];
    forall m, l, f | 0 <= m < i + 1 && m < |labels| && labels[m] == ListFunctions(j, l) && f in l
      ensures f in TodoOf(Rest(todo)) || Through(states, labels, i + 1, j, f)
    {
      PastStays(states, labels, i, j, f);
    }
  }

  lemma RegisterTraced(states: seq<State>, labels: seq<Label>, i: nat, j: nat, ok: bool)
    requires StepAt(states, labels, i) && labels[i] == SendFunction(j, ok)
    requires SyncTraced(states, labels, i, j, states[i].joins[j].pc)
    ensures j in states[i+1].joins && SyncTraced(states, labels, i + 1, j, states[i+1].joins[j].pc)
  {
    var todo := states[i].joins[j].pc.todo;
    assert RegistersAt(states, labels, i, j, todo[0], ok);
    if ok {
      forall f { PastStays(states, labels, i, j, f); }
      assert HasRegistered(states, labels, i + 1, j, todo[0]);
    } else {
      assert Through(states, labels, i + 1, j, todo[0]);
      RestLeavesNoneOut(states, labels, i, j, todo);
    }
  }

  lemma ReadTraced(states: seq<State>, labels: seq<Label>, i: nat, j: nat)
    requires StepAt(states, labels, i) && labels[i] == ReadArchive(j)
    requires SyncTraced(states, labels, i, j, states[i].joins[j].pc)
    ensures j in states[i+1].joins && SyncTraced(states, labels, i + 1, j, states[i+1].joins[j].pc)
  {
    var todo := states[i].joins[j].pc.todo;
    if todo[0] in states[i].archives {
      var v := states[i].archives[todo[0]];
      assert ReadsAt(states, labels, i, j, todo[0], Some(v));
      forall f { PastStays(states, labels, i, j, f); }
      assert HasRead(states, labels, i + 1, j, todo[0], v);
    } else {
      assert ReadsAt(states, labels, i, j, todo[0], None);
      assert Through(states, labels, i + 1, j, todo[0]);
      RestLeavesNoneOut(states, labels, i, j, todo);
    }
  }

  lemma SendTraced(states: seq<State>, labels: seq<Label>, i: nat, j: nat, ok: bool)
    requires StepAt(states, labels, i) && labels[i] == SyncArchive(j, ok)
    requires SyncTraced(states, labels, i, j, states[i].joins[j].pc)
    ensures j in states[i+1].joins && SyncTraced(states, labels, i + 1, j, states[i+1].joins[j].pc)
  {
    var todo, v := states[i].joins[j].pc.todo, states[i].joins[j].pc.version;
    assert SendsAt(states, labels, i, j, todo[0], v, ok);
    assert Through(states, labels, i + 1, j, todo[0]);
    RestLeavesNoneOut(states, labels, i, j, todo);
  }

  /** Before its listing a sync only moves along, or ends. */
  lemma EntryMoves(s: State, l: Label, j: nat)
    requires Enabled(s, l) && j in s.joins && j in Apply(s, l).joins && Apply(s, l).joins[j] != s.joins[j]
    requires !l.SendFunction? && !l.ReadArchive? && !l.SyncArchive?
    ensures var pc, pc' := s.joins[j].pc, Apply(s, l).joins[j].pc;
            && (pc == Probing || pc == Announced || pc == Found)
            && if l.ListFunctions? && l.j == j then pc' == (if l.l == [] then Synced else SyncPc.Registering(l.l))
               else pc' == Announced || pc' == Found || pc' == Synced
  {
  }

  lemma EntryTraced(states: seq<State>, labels: seq<Label>, i: nat, j: nat)
    requires StepAt(states, labels, i) && j in states[i].joins && states[i+1].joins[j] != states[i].joins[j]
    requires SyncTraced(states, labels, i, j, states[i].joins[j].pc)
    requires !labels[i].SendFunction? && !labels[i].ReadArchive? && !labels[i].SyncArchive?
    ensures SyncTraced(states, labels, i + 1, j, states[i+1].joins[j].pc)
  {
    EntryMoves(states[i], labels[i], j);
    assert NeverListed(labels, i, j);
  }

  ghost predicate TracedAt(states: seq<State>, labels: seq<Label>, i: nat, j: nat)
    requires i < |states|
  {
    if j in states[i].joins then SyncTraced(states, labels, i, j, states[i].joins[j].pc) else NeverListed(labels, i, j)
  }

  lemma StepTraced(states: seq<State>, labels: seq<Label>, i: nat, j: nat)
    requires StepAt(states, labels, i) && TracedAt(states, labels, i, j)
    ensures TracedAt(states, labels, i + 1, j)
  {
    var l := labels[i];
    if j !in states[i].joins {
    } else if l.SendFunction? && l.j == j {
      RegisterTraced(states, labels, i, j, l.ok);
    } else if l.ReadArchive? && l.j == j {
      ReadTraced(states, labels, i, j);
    } else if l.SyncArchive? && l.j == j {
      SendTraced(states, labels, i, j, l.ok);
    } else if states[i+1].joins[j] != states[i].joins[j] {
      EntryTraced(states, labels, i, j);
    } else {
      TracedElsewhere(states, labels, i, j, states[i].joins[j].pc);
    }
  }

  lemma {:induction false} RunTraced(states: seq<State>, labels: seq<Label>, i: nat, j: nat)
    requires Run(states, labels) && i < |states|
    ensures TracedAt(states, labels, i, j)
  {
    if i > 0 {
      RunTraced(states, labels, i - 1, j);
      assert Enabled(states[i-1], labels[i-1]) && states[i-1+1] == Apply(states[i-1], labels[i-1]);
      StepTraced(states, labels, i - 1, j);
    }
  }

  /** A sync sends an agent only what it has read after registering the function there. */
  lemma SyncSendsWhatItRead(states: seq<State>, labels: seq<Label>, i: nat, j: nat, f: string, v: nat, ok: bool)
    requires Run(states, labels) && SendsAt(states, labels, i, j, f, v, ok)
    ensures HasRead(states, labels, i, j, f, v)
  {
    RunTraced(states, labels, i, j);
  }

  /** A sync that is over is through with every function it listed: one refusal, one
      missing archive or one failed call does not keep it from the others. */
  lemma SyncLeavesNothingOut(states: seq<State>, labels: seq<Label>, m: nat, i: nat, j: nat, l: seq<string>, f: string)
    requires Run(states, labels) && m < i < |states| && labels[m] == ListFunctions(j, l) && f in l
    requires j in states[i].joins && states[i].joins[j].pc == Synced
    ensures Through(states, labels, i, j, f)
  {
    RunTraced(states, labels, i, j);
  }

  // ------------------------------------------------------------- what failed calls leave

  /** A call of the sync about f fails. */
  ghost predicate FailsAt(states: seq<State>, labels: seq<Label>, k: nat, j: nat, f: string) {
    RegistersAt(states, labels, k, j, f, false) || exists v :: SendsAt(states, labels, k, j, f, v, false)
  }

  lemma MissedStep(states: seq<State>, labels: seq<Label>, i: nat, j: nat, f: string)
    requires StepAt(states, labels, i) && j in states[i].joins
    ensures j in states[i+1].joins
    ensures f in states[i+1].joins[j].missed <==> f in states[i].joins[j].missed || FailsAt(states, labels, i, j, f)
  {
    var pc := states[i].joins[j].pc;
    if labels[i] == SyncArchive(j, false) { assert SendsAt(states, labels, i, j, pc.todo[0], pc.version, false); }
  }

  ghost predicate HasFailed(states: seq<State>, labels: seq<Label>, i: nat, j: nat, f: string) {
    exists k :: 0 <= k < i && FailsAt(states, labels, k, j, f)
  }

  lemma FailedNext(states: seq<State>, labels: seq<Label>, i: nat, j: nat, f: string)
    ensures HasFailed(states, labels, i + 1, j, f) <==> HasFailed(states, labels, i, j, f) || FailsAt(states, labels, i, j, f)
  {
  }

  lemma MissedNext(states: seq<State>, labels: seq<Label>, i: nat, j: nat, f: string)
    requires StepAt(states, labels, i) && j in states[i+1].joins
    requires if j in states[i].joins then f in states[i].joins[j].missed <==> HasFailed(states, labels, i, j, f)
             else !HasFailed(states, labels, i, j, f)
    ensures f in states[i+1].joins[j].missed <==> HasFailed(states, labels, i + 1, j, f)
  {
    FailedNext(states, labels, i, j, f);
    if j in states[i].joins { MissedStep(states, labels, i, j, f); }
  }

  /** The functions a sync counts as missed are exactly those a call of it failed for. */
  lemma {:induction false} MissedIff(states: seq<State>, labels: seq<Label>, i: nat, j: nat, f: string)
    requires Run(states, labels) && i < |states|
    ensures if j in states[i].joins then f in states[i].joins[j].missed <==> HasFailed(states, labels, i, j, f)
            else !HasFailed(states, labels, i, j, f)
  {
    if i > 0 {
      var k := i - 1;
      MissedIff(states, labels, k, j, f);
      assert Enabled(states[k], labels[k]) && states[k+1] == Apply(states[k], labels[k]);
      if j in states[i].joins {
        MissedNext(states, labels, k, j, f);
      } else {
        FailedNext(states, labels, k, j, f);
      }
    }
  }

  // -------------------------------------------------------------- what a deploy sends

  ghost predicate SavesAt(states: seq<State>, labels: seq<Label>, k: nat, d: nat, f: string, v: nat) {
    && k + 1 < |states| && k < |labels| && labels[k] == Save(d, f)
    && f in states[k].functions && f in states[k+1].archives && states[k+1].archives[f] == v
  }

  /** At k the deploy lists the agents that are online. */
  ghost predicate ListsAt(states: seq<State>, labels: seq<Label>, k: nat, d: nat, online: set<string>) {
    && k < |states| && k < |labels| && labels[k].ListAgents? && labels[k].d == d
    && forall a :: a in online <==> a in states[k].agents && states[k].agents[a] == Online
  }

  ghost predicate HasSaved(states: seq<State>, labels: seq<Label>, i: nat, d: nat, f: string, v: nat) {
    exists k :: 0 <= k < i && SavesAt(states, labels, k, d, f, v)
  }

  ghost predicate HasListed(states: seq<State>, labels: seq<Label>, i: nat, d: nat, f: string, v: nat, online: set<string>) {
    exists k :: 0 <= k < i && ListsAt(states, labels, k, d, online) && HasSaved(states, labels, k, d, f, v)
  }

  ghost predicate DeployTraced(states: seq<State>, labels: seq<Label>, i: nat, d: nat, deploy: Deploy) {
    && HasSaved(states, labels, i, d, deploy.fn, deploy.version)
    && (deploy.targets == None ==> deploy.todo == [])
    && (deploy.targets.Some? ==>
          && HasListed(states, labels, i, d, deploy.fn, deploy.version, deploy.targets.value)
          && forall a :: a in deploy.todo ==> a in deploy.targets.value)
  }

  lemma DeployPastStays(states: seq<State>, labels: seq<Label>, i: nat, d: nat, f: string, v: nat)
    ensures HasSaved(states, labels, i, d, f, v) ==> HasSaved(states, labels, i + 1, d, f, v)
    ensures forall online :: HasListed(states, labels, i, d, f, v, online) ==> HasListed(states, labels, i + 1, d, f, v, online)
  {
  }

  lemma ListTraced(states: seq<State>, labels: seq<Label>, i: nat, d: nat)
    requires StepAt(states, labels, i) && labels[i].ListAgents? && labels[i].d == d
    requires DeployTraced(states, labels, i, d, states[i].deploys[d])
    ensures d in states[i+1].deploys && DeployTraced(states, labels, i + 1, d, states[i+1].deploys[d])
  {
    var deploy := states[i].deploys[d];
    DeployPastStays(states, labels, i, d, deploy.fn, deploy.version);
    assert ListsAt(states, labels, i, d, OnlineIds(states[i].agents));
    assert HasListed(states, labels, i + 1, d, deploy.fn, deploy.version, OnlineIds(states[i].agents));
  }

  /** Only its own steps change a deploy. */
  lemma DeployChanges(states: seq<State>, labels: seq<Label>, i: nat, d: nat)
    requires StepAt(states, labels, i) && d in states[i].deploys && !(labels[i].ListAgents? && labels[i].d == d)
    ensures d in states[i+1].deploys
    ensures var was, now := states[i].deploys[d], states[i+1].deploys[d];
            && now.fn == was.fn && now.version == was.version && now.targets == was.targets
            && forall a :: a in now.todo ==> a in was.todo
  {
    if labels[i].Send? && labels[i].d == d {
      assert forall a :: a in states[i].deploys[d].todo[1..] ==> a in states[i].deploys[d].todo;
    }
  }

  lemma StepDeployTraced(states: seq<State>, labels: seq<Label>, i: nat, d: nat)
    requires StepAt(states, labels, i) && d in states[i].deploys && DeployTraced(states, labels, i, d, states[i].deploys[d])
    ensures d in states[i+1].deploys && DeployTraced(states, labels, i + 1, d, states[i+1].deploys[d])
  {
    if labels[i].ListAgents? && labels[i].d == d {
      ListTraced(states, labels, i, d);
    } else {
      DeployChanges(states, labels, i, d);
      DeployPastStays(states, labels, i, d, states[i].deploys[d].fn, states[i].deploys[d].version);
    }
  }

  lemma {:induction false} RunDeployTraced(states: seq<State>, labels: seq<Label>, i: nat, d: nat)
    requires Run(states, labels) && i < |states|
    ensures d in states[i].deploys ==> DeployTraced(states, labels, i, d, states[i].deploys[d])
  {
    if i > 0 {
      RunDeployTraced(states, labels, i - 1, d);
      assert Enabled(states[i-1], labels[i-1]) && states[i-1+1] == Apply(states[i-1], labels[i-1]);
      if d in states[i-1].deploys {
        StepDeployTraced(states, labels, i - 1, d);
      } else if d in states[i].deploys {
        assert SavesAt(states, labels, i - 1, d, states[i].deploys[d].fn, states[i].deploys[d].version);
      }
    }
  }

  /** A deploy sends the archive it saved, to agents that were online when it listed them. */
  lemma DeploySendsWhatItSaved(states: seq<State>, labels: seq<Label>, i: nat, d: nat, ok: bool) returns (online: set<string>)
    requires Run(states, labels) && i < |labels| && labels[i] == Send(d, ok) && d in states[i].deploys
             && states[i].deploys[d].todo != []
    ensures var deploy := states[i].deploys[d];
            HasListed(states, labels, i, d, deploy.fn, deploy.version, online) && deploy.todo[0] in online
  {
    RunDeployTraced(states, labels, i, d);
    online := states[i].deploys[d].targets.value;
  }

  // --------------------------------------------------------- the store it speaks of

  function StatusesOf(m: Store): map<string, AgentStatus> { map id | id in m :: m[id].status }

  lemma JoinsFollowRegistry(s: State, l: Label, m: Store, ns: NodeStatus, now: int)
    requires Enabled(s, l) && s.agents == StatusesOf(m) && (l.Provisioned? || l.Register? || l.Promote? || l.ScalerPromote?)
    ensures Apply(s, l).agents ==
            match l {
              case Provisioned(id) => StatusesOf(WithAgent(m, Offline, id, "", "", "", "", now))
              case Register(_, id) => StatusesOf(WithAgent(m, Online, id, "", "", "", "", now))
              case Promote(j) => StatusesOf(WithNodeStatus(m, s.joins[j].agent, ns))
              case ScalerPromote(id) => StatusesOf(WithNodeStatus(m, id, ns))
              case _ => s.agents
            }
  {
  }

  /** The agents of this model are those of the registry: each step on them is the
      registry operation that the source calls there. */
  lemma FollowsRegistry(s: State, l: Label, m: Store, ns: NodeStatus, now: int)
    requires Enabled(s, l) && s.agents == StatusesOf(m)
    ensures Apply(s, l).agents ==
            match l {
              case Provisioned(id) => StatusesOf(WithAgent(m, Offline, id, "", "", "", "", now))
              case Register(_, id) => StatusesOf(WithAgent(m, Online, id, "", "", "", "", now))
              case Promote(j) => StatusesOf(WithNodeStatus(m, s.joins[j].agent, ns))
              case ScalerPromote(id) => StatusesOf(WithNodeStatus(m, id, ns))
              case MarkOffline(id) => StatusesOf(WithOffline(m, id))
              case Drain(id) => StatusesOf(WithDraining(m, id))
              case Deregister(id) => StatusesOf(m - {id})
              case Flush => map[]
              case _ => s.agents
            }
  {
    if l.Provisioned? || l.Register? || l.Promote? || l.ScalerPromote? { JoinsFollowRegistry(s, l, m, ns, now); }
  }
}
