/** The agent store without the assumption of atomic operations: an update reads a
    record, and saves its changed copy later, with anything in between.  Updates can
    be lost and deleted agents can come back; who an agent is cannot change. */
module SplitRegistry {
  import opened Models
  import opened AgentRegistry

  /** An update in flight, with the copy it read. */
  datatype Kind = Offlining | MarkingDraining | Heartbeat(activeCount: int, now: int) | Status(ns: NodeStatus)

  datatype Update = Update(id: string, kind: Kind, copy: Agent)

  datatype State = State(store: Store, updates: map<nat, Update>, registered: set<Identity>)

  datatype Label =
    | Register(status: AgentStatus, who: Identity, now: int)
    | Delete(id: string)
    | FlushAll
    | Read(t: nat, id: string, kind: Kind)
    | Save(t: nat)

  /** What an update saves; None when it finds nothing to do. */
  function Saved(copy: Agent, kind: Kind): Option<Agent> {
    match kind
    case Offlining => if copy.status == Draining then None else Some(copy.(status := Offline))
    case MarkingDraining => Some(copy.(status := Draining))
    case Heartbeat(n, now) =>
      Some(copy.(lastHeartbeat := now, activeCount := n, status := Promoted(copy.status)))
    case Status(ns) =>
      Some(copy.(nodeStatus := Some(ns), activeCount := ns.activeTasks, lastHeartbeat := ns.collectedAt,
                 status := Promoted(copy.status)))
  }

  ghost predicate Enabled(s: State, l: Label) {
    match l
    case Register(_, _, _) => true
    case Delete(_) => true
    case FlushAll => true
    case Read(t, _, _) => t !in s.updates
    case Save(t) => t in s.updates
  }

  ghost function Apply(s: State, l: Label): State
    requires Enabled(s, l)
  {
    match l
    case Register(status, who, now) =>
      s.(store := WithAgent(s.store, status, who.id, who.address, who.providerID, who.instanceType, who.provider, now),
         registered := s.registered + {who})
    case Delete(id) => s.(store := s.store - {id})
    case FlushAll => s.(store := map[])
    case Read(t, id, kind) =>
      if id in s.store then s.(updates := s.updates[t := Update(id, kind, s.store[id])]) else s
    case Save(t) =>
      var u := s.updates[t];
      var e := s.(updates := s.updates - {t});
      match Saved(u.copy, u.kind) {
        case None => e
        case Some(a) => e.(store := s.store[a.id := a])
      }
  }

  /** The store after the update of this kind as one atomic operation. */
  function Atomically(m: Store, id: string, kind: Kind): Store {
    match kind
    case Offlining => WithOffline(m, id)
    case MarkingDraining => WithDraining(m, id)
    case Heartbeat(n, now) => WithHeartbeat(m, id, n, now)
    case Status(ns) => WithNodeStatus(m, id, ns)
  }

  /** An update that nothing comes between is the atomic one, and it leaves no trace but
      that; one that finds no record does nothing. */
  lemma UninterruptedIsAtomic(s: State, t: nat, id: string, kind: Kind)
    requires Keyed(s.store) && t !in s.updates
    ensures id !in s.store ==> Apply(s, Read(t, id, kind)) == s && Atomically(s.store, id, kind) == s.store
    ensures id in s.store ==>
              var reading := Apply(s, Read(t, id, kind));
              Enabled(reading, Save(t)) && Apply(reading, Save(t)) == s.(store := Atomically(s.store, id, kind))
  {
    if id in s.store {
      var reading := Apply(s, Read(t, id, kind));
      assert reading.updates - {t} == s.updates;
      if kind.Offlining? && s.store[id].status == Draining { assert WithOffline(s.store, id) == s.store; }
    }
  }

  /** A start over any store; its records were registered by earlier runs. */
  ghost predicate Initial(s: State) {
    && s.updates == map[] && Keyed(s.store)
    && s.registered == (set id | id in s.store :: IdentityOf(s.store[id]))
  }

  ghost predicate Run(states: seq<State>, labels: seq<Label>) {
    && |states| == |labels| + 1 && Initial(states[0])
    && forall i :: 0 <= i < |labels| ==> Enabled(states[i], labels[i]) && states[i+1] == Apply(states[i], labels[i])
  }

  ghost predicate Genuine(a: Agent, id: string, registered: set<Identity>) {
    a.id == id && IdentityOf(a) in registered
  }

  ghost predicate Inv(s: State) {
    && (forall id :: id in s.store ==> Genuine(s.store[id], id, s.registered))
    && (forall t :: t in s.updates ==> Genuine(s.updates[t].copy, s.updates[t].id, s.registered))
  }

  lemma SavedKeepsIdentity(copy: Agent, kind: Kind)
    ensures Saved(copy, kind).Some? ==> IdentityOf(Saved(copy, kind).value) == IdentityOf(copy)
  {
  }

  lemma StepKeepsInv(s: State, l: Label)
    requires Inv(s) && Enabled(s, l)
    ensures Inv(Apply(s, l)) && s.registered <= Apply(s, l).registered
  {
    match l
    case Save(t) => SavedKeepsIdentity(s.updates[t].copy, s.updates[t].kind);
    case Register(status, who, now) =>
      var s' := Apply(s, l);
      assert IdentityOf(s'.store[who.id]) == who;
    case _ =>
  }

  /** Whatever is lost or resurrected, every stored record and every copy in flight
      carries its own id and an identity that some registration of that id gave. */
  lemma {:induction false} IdentitySurvives(states: seq<State>, labels: seq<Label>, i: nat)
    requires Run(states, labels) && i < |states|
    ensures Inv(states[i])
  {
    if i > 0 {
      IdentitySurvives(states, labels, i - 1);
      StepKeepsInv(states[i-1], labels[i-1]);
    }
  }

  // ------------------------------------------------------ what may come back

  /** The update t of id has read its record and will save a copy. */
  ghost predicate WouldSave(s: State, t: nat, id: string) {
    t in s.updates && s.updates[t].id == id && Saved(s.updates[t].copy, s.updates[t].kind).Some?
  }

  /** And the copy is not draining. */
  ghost predicate WouldRevive(s: State, t: nat, id: string) {
    WouldSave(s, t, id) && Saved(s.updates[t].copy, s.updates[t].kind).value.status != Draining
  }

  ghost predicate Gone(s: State, id: string) { id !in s.store }

  ghost predicate GoneOrDraining(s: State, id: string) { id in s.store ==> s.store[id].status == Draining }

  /** What may follow s when nobody registers the id. */
  ghost predicate Follows(s: State, states: seq<State>, labels: seq<Label>, id: string) {
    && |states| == |labels| + 1 && states[0] == s
    && forall i :: 0 <= i < |labels| ==>
         && Enabled(states[i], labels[i]) && states[i+1] == Apply(states[i], labels[i])
         && !(labels[i].Register? && labels[i].who.id == id)
  }

  lemma StepKeepsGone(s: State, l: Label, id: string)
    requires Inv(s) && Enabled(s, l) && !(l.Register? && l.who.id == id)
    requires Gone(s, id) && forall t :: !WouldSave(s, t, id)
    ensures Gone(Apply(s, l), id) && forall t :: !WouldSave(Apply(s, l), t, id)
  {
    var s' := Apply(s, l);
    forall t ensures !WouldSave(s', t, id) { assert !WouldSave(s, t, id); }
    if l.Save? { assert !WouldSave(s, l.t, id); SavedKeepsIdentity(s.updates[l.t].copy, s.updates[l.t].kind); }
  }

  lemma StepKeepsDraining(s: State, l: Label, id: string)
    requires Inv(s) && Enabled(s, l) && !(l.Register? && l.who.id == id)
    requires GoneOrDraining(s, id) && forall t :: !WouldRevive(s, t, id)
    ensures GoneOrDraining(Apply(s, l), id) && forall t :: !WouldRevive(Apply(s, l), t, id)
  {
    var s' := Apply(s, l);
    forall t ensures !WouldRevive(s', t, id) { assert !WouldRevive(s, t, id); }
    if l.Save? { assert !WouldRevive(s, l.t, id); SavedKeepsIdentity(s.updates[l.t].copy, s.updates[l.t].kind); }
  }

  lemma {:induction false} GoneFollows(s: State, states: seq<State>, labels: seq<Label>, id: string, i: nat)
    requires Inv(s) && Gone(s, id) && (forall t :: !WouldSave(s, t, id))
    requires Follows(s, states, labels, id) && i < |states|
    ensures Inv(states[i]) && Gone(states[i], id) && forall t :: !WouldSave(states[i], t, id)
  {
    if i > 0 {
      GoneFollows(s, states, labels, id, i - 1);
      StepKeepsInv(states[i-1], labels[i-1]);
      StepKeepsGone(states[i-1], labels[i-1], id);
    }
  }

  lemma {:induction false} DrainingFollows(s: State, states: seq<State>, labels: seq<Label>, id: string, i: nat)
    requires Inv(s) && GoneOrDraining(s, id) && (forall t :: !WouldRevive(s, t, id))
    requires Follows(s, states, labels, id) && i < |states|
    ensures Inv(states[i]) && GoneOrDraining(states[i], id) && forall t :: !WouldRevive(states[i], t, id)
  {
    if i > 0 {
      DrainingFollows(s, states, labels, id, i - 1);
      StepKeepsInv(states[i-1], labels[i-1]);
      StepKeepsDraining(states[i-1], labels[i-1], id);
    }
  }

  lemma OneSave(s: State, t: nat, id: string) returns (states: seq<State>, labels: seq<Label>)
    requires Inv(s) && WouldSave(s, t, id)
    ensures Follows(s, states, labels, id) && |labels| == 1 && id in states[1].store
    ensures states[1].store[id] == Saved(s.updates[t].copy, s.updates[t].kind).value
  {
    SavedKeepsIdentity(s.updates[t].copy, s.updates[t].kind);
    states, labels := [s, Apply(s, Save(t))], [Save(t)];
  }

  /** In any reachable state, an absent agent stays away, whatever follows but its
      registration, if and only if no update that read its record has yet to save. */
  lemma StaysGoneIff(run: seq<State>, done: seq<Label>, id: string)
    requires Run(run, done) && Gone(run[|done|], id)
    ensures (forall states, labels :: Follows(run[|done|], states, labels, id) ==> Gone(states[|labels|], id))
            <==> (forall t :: !WouldSave(run[|done|], t, id))
  {
    IdentitySurvives(run, done, |done|);
    var s := run[|done|];
    if t :| WouldSave(s, t, id) {
      var states, labels := OneSave(s, t, id);
      assert !Gone(states[|labels|], id);
    } else {
      forall states, labels | Follows(s, states, labels, id) ensures Gone(states[|labels|], id) {
        GoneFollows(s, states, labels, id, |labels|);
      }
    }
  }

  /** And a draining or absent agent stays so, whatever follows but its registration,
      if and only if no update in flight is to save a copy that is not draining. */
  lemma StaysDrainingIff(run: seq<State>, done: seq<Label>, id: string)
    requires Run(run, done) && GoneOrDraining(run[|done|], id)
    ensures (forall states, labels :: Follows(run[|done|], states, labels, id) ==> GoneOrDraining(states[|labels|], id))
            <==> (forall t :: !WouldRevive(run[|done|], t, id))
  {
    IdentitySurvives(run, done, |done|);
    var s := run[|done|];
    if t :| WouldRevive(s, t, id) {
      var states, labels := OneSave(s, t, id);
      assert !GoneOrDraining(states[|labels|], id);
    } else {
      forall states, labels | Follows(s, states, labels, id) ensures GoneOrDraining(states[|labels|], id) {
        DrainingFollows(s, states, labels, id, |labels|);
      }
    }
  }

  /** Such updates do arise.  A deregistered agent comes back when a status update
      straddles the deregistration. */
  lemma DeregisteredCanReturn(a: Agent, ns: NodeStatus) returns (states: seq<State>, labels: seq<Label>)
    requires a.status == Online
    ensures Run(states, labels) && |labels| == 3
    ensures labels[1] == Delete(a.id) && a.id !in states[2].store
    ensures labels[2] == Save(0) && a.id in states[3].store && states[3].store[a.id].status == Online
  {
    var s0 := State(map[a.id := a], map[], {IdentityOf(a)});
    var l0, l1, l2 := Read(0, a.id, Status(ns)), Delete(a.id), Save(0);
    var s1 := Apply(s0, l0);
    var s2 := Apply(s1, l1);
    var s3 := Apply(s2, l2);
    states, labels := [s0, s1, s2, s3], [l0, l1, l2];
    assert Initial(s0);
  }

  /** And a draining agent goes back online when one straddles SetDraining. */
  lemma DrainingCanBeLost(a: Agent, ns: NodeStatus) returns (states: seq<State>, labels: seq<Label>)
    requires a.status == Online
    ensures Run(states, labels) && |labels| == 4
    ensures a.id in states[3].store && states[3].store[a.id].status == Draining
    ensures labels[3] == Save(0) && a.id in states[4].store && states[4].store[a.id].status == Online
  {
    var s0 := State(map[a.id := a], map[], {IdentityOf(a)});
    var l0 := Read(0, a.id, Status(ns));
    var s1 := Apply(s0, l0);
    var l1 := Read(1, a.id, MarkingDraining);
    var s2 := Apply(s1, l1);
    var l2 := Save(1);
    var s3 := Apply(s2, l2);
    var l3 := Save(0);
    var s4 := Apply(s3, l3);
    states, labels := [s0, s1, s2, s3, s4], [l0, l1, l2, l3];
    assert Initial(s0);
  }
}
