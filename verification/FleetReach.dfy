/** How large and how small the fleet can still get when nobody decides anything any
    more: exactly as its load and its drains say. */
module FleetReach {
  import opened Models
  import opened AgentRegistry
  import opened NodeTypes
  import opened FleetModel
  import opened FleetIdentity
  import opened FleetBounds
  import opened FleetFloor

  /** A step of the clock, or of a goroutine other than InitializeNodes'. */
  ghost predicate Unattended(s: State, l: Label) {
    l.Tick? || (l.Act? && l.t in s.acts && s.acts[l.t].role != Init)
  }

  /** What may follow s without a decision, an operator or an initialisation. */
  ghost predicate Leads(env: Env, s: State, states: seq<State>, labels: seq<Label>) {
    && |states| == |labels| + 1 && states[0] == s
    && forall i :: 0 <= i < |labels| ==> Step(env, states[i], labels[i], states[i+1]) && Unattended(states[i], labels[i])
  }

  /** SpawnNode can launch something for this kind of spawn. */
  ghost predicate CanLaunch(nodeTypes: seq<NodeType>, role: Role) {
    exists instanceType :: Asked(nodeTypes, role, instanceType)
  }

  /** Nothing can come of the slot: its node is not launched and cannot be. */
  ghost predicate Futile(nodeTypes: seq<NodeType>, a: Activity, p: string) {
    IsSlot(a, p) && a.phase != Registering && !CanLaunch(nodeTypes, a.role)
  }

  /** The goroutines without the slots nothing can come of. */
  ghost function Fruitful(nodeTypes: seq<NodeType>, acts: map<nat, Activity>, p: string): map<nat, Activity> {
    map t | t in acts && !Futile(nodeTypes, acts[t], p) :: acts[t]
  }

  ghost function FruitfulActs(env: Env, s: State, p: string): map<nat, Activity>
    requires p in env.fleet
  {
    Fruitful(env.fleet[p].nodeTypes, s.acts, p)
  }

  ghost function FruitfulOf(env: Env, s: State, p: string): State
    requires p in env.fleet
  {
    s.(acts := FruitfulActs(env, s, p))
  }

  /** The upgrades and direct spawns that can still bring a node, and the registered
      nodes that none of these upgrades is about to replace. */
  ghost function LoadOf(env: Env, s: State, p: string): int
    requires p in env.fleet
  {
    Load(FruitfulActs(env, s, p), ManagedIds(s.agents, p), p)
  }

  // ------------------------------------------------------- the load never grows

  lemma UnattendedTally(env: Env, s: State, l: Label, s': State, p: string)
    requires Inv(env, s) && Step(env, s, l, s') && Unattended(s, l) && OfFleet(env, s, p)
    ensures OfFleet(env, s', p)
    ensures s'.scalers[p].tally.overlaps == s.scalers[p].tally.overlaps
    ensures s'.scalers[p].tally.placed == s.scalers[p].tally.placed
  {
    match l
    case Tick(_) =>
    case Act(t, x) =>
      if x.RegisterNode? {
        RegisterTally(env, s, t, x.u, p);
      } else {
        assert ActOk(env, s.acts[t], s.agents, s.origin, s.called);
        QuietAct(env, s, t, x, p);
      }
  }

  ghost predicate FruitfulUpper(env: Env, s: State, p: string, cap: int) {
    OfFleet(env, s, p) && Upper(FruitfulOf(env, s, p), p, cap)
  }

  /** A slot that can bring a node still can, or is one no more. */
  lemma StaysFruitful(env: Env, s: State, t: nat, x: ActStep, p: string)
    requires Live(env, s, t) && ActEnabled(env, s, t, x) && OfFleet(env, s, p) && RoleFits(s.acts[t])
    requires !Futile(env.fleet[p].nodeTypes, s.acts[t], p) && t in ActApply(env, s, t, x).acts
    ensures !Futile(env.fleet[p].nodeTypes, ActApply(env, s, t, x).acts[t], p)
  {
  }

  /** And one that cannot never will. */
  lemma StaysFutile(env: Env, s: State, t: nat, x: ActStep, p: string)
    requires Live(env, s, t) && ActEnabled(env, s, t, x) && OfFleet(env, s, p)
    requires Futile(env.fleet[p].nodeTypes, s.acts[t], p)
    ensures var acts' := ActApply(env, s, t, x).acts;
            && !x.RegisterNode? && SameBut(s.acts, acts', t)
            && (t in acts' ==> Futile(env.fleet[p].nodeTypes, acts'[t], p))
  {
  }

  ghost predicate SameBut(acts: map<nat, Activity>, acts': map<nat, Activity>, t: nat) {
    forall v :: v != t ==> (v in acts' <==> v in acts) && (v in acts ==> acts'[v] == acts[v])
  }

  lemma FutileSame(nodeTypes: seq<NodeType>, acts: map<nat, Activity>, acts': map<nat, Activity>, t: nat, p: string)
    requires SameBut(acts, acts', t) && t in acts && Futile(nodeTypes, acts[t], p)
    requires t in acts' ==> Futile(nodeTypes, acts'[t], p)
    ensures Fruitful(nodeTypes, acts', p) == Fruitful(nodeTypes, acts, p)
  {
  }

  lemma FruitfulMoves(nodeTypes: seq<NodeType>, acts: map<nat, Activity>, acts': map<nat, Activity>, t: nat, p: string)
    requires OnlyMoves(acts, acts', t)
    ensures OnlyMoves(Fruitful(nodeTypes, acts, p), Fruitful(nodeTypes, acts', p), t)
  {
  }

  lemma FutileUpper(env: Env, s: State, t: nat, x: ActStep, p: string, cap: int)
    requires Inv(env, s) && Live(env, s, t) && ActEnabled(env, s, t, x) && FruitfulUpper(env, s, p, cap)
    requires Futile(env.fleet[p].nodeTypes, s.acts[t], p)
    ensures FruitfulUpper(env, ActApply(env, s, t, x), p, cap)
  {
    var s' := ActApply(env, s, t, x);
    StaysFutile(env, s, t, x, p);
    QuietActFleet(env, s, t, x, p);
    FutileSame(env.fleet[p].nodeTypes, s.acts, s'.acts, t, p);
    UpperQuiet(FruitfulOf(env, s, p), FruitfulOf(env, s', p), p, cap);
  }

  lemma QuietUpper(env: Env, s: State, t: nat, x: ActStep, p: string, cap: int)
    requires Inv(env, s) && Live(env, s, t) && ActEnabled(env, s, t, x) && FruitfulUpper(env, s, p, cap)
    requires !Futile(env.fleet[p].nodeTypes, s.acts[t], p) && !x.RegisterNode?
    ensures FruitfulUpper(env, ActApply(env, s, t, x), p, cap)
  {
    var s', nodeTypes := ActApply(env, s, t, x), env.fleet[p].nodeTypes;
    assert ActOk(env, s.acts[t], s.agents, s.origin, s.called);
    QuietActFleet(env, s, t, x, p);
    QuietActMove(env, s, t, x, p);
    ActMoves(env, s, t, x);
    FruitfulMoves(nodeTypes, s.acts, s'.acts, t, p);
    if t in s'.acts { StaysFruitful(env, s, t, x, p); }
    MovesQuietly(FruitfulOf(env, s, p).acts, FruitfulOf(env, s', p).acts, t, ManagedIds(s'.agents, p), p);
    UpperQuiet(FruitfulOf(env, s, p), FruitfulOf(env, s', p), p, cap);
  }

  lemma RegisterUpper(env: Env, s: State, t: nat, u: nat, p: string, cap: int)
    requires Inv(env, s) && Live(env, s, t) && s.acts[t].phase == Registering && u !in s.acts
    requires FruitfulUpper(env, s, p, cap)
    ensures FruitfulUpper(env, AfterRegister(s, t, u), p, cap)
  {
    var s' := AfterRegister(s, t, u);
    RegisterShape(env, s, t, u, p);
    RegisterTally(env, s, t, u, p);
    assert ActOk(env, s.acts[t], s.agents, s.origin, s.called);
    FruitfulMoves(env.fleet[p].nodeTypes, s.acts, s'.acts, t, p);
    RegisterIntoLoad(FruitfulOf(env, s, p), FruitfulOf(env, s', p), t, p, cap);
  }

  lemma UnattendedUpper(env: Env, s: State, l: Label, s': State, p: string, cap: int)
    requires Inv(env, s) && Step(env, s, l, s') && Unattended(s, l) && FruitfulUpper(env, s, p, cap)
    ensures FruitfulUpper(env, s', p, cap)
  {
    match l
    case Tick(_) => UpperQuiet(FruitfulOf(env, s, p), FruitfulOf(env, s', p), p, cap);
    case Act(t, x) =>
      if Futile(env.fleet[p].nodeTypes, s.acts[t], p) {
        FutileUpper(env, s, t, x, p, cap);
      } else if x.RegisterNode? {
        RegisterUpper(env, s, t, x.u, p, cap);
      } else {
        QuietUpper(env, s, t, x, p, cap);
      }
  }

  lemma InvStepAt(env: Env, s: State, states: seq<State>, labels: seq<Label>, i: nat)
    requires Leads(env, s, states, labels) && i < |labels| && Inv(env, states[i])
    ensures Inv(env, states[i+1])
  {
    assert Step(env, states[i], labels[i], states[i+1]);
    StepKeepsInv(env, states[i], labels[i]);
  }

  lemma {:induction false} InvHolds(env: Env, s: State, states: seq<State>, labels: seq<Label>, i: nat)
    requires Inv(env, s) && Leads(env, s, states, labels) && i < |states|
    ensures Inv(env, states[i])
  {
    if i > 0 {
      InvHolds(env, s, states, labels, i - 1);
      InvStepAt(env, s, states, labels, i - 1);
    }
  }

  lemma LoadStep(env: Env, s: State, states: seq<State>, labels: seq<Label>, i: nat, p: string, cap: int)
    requires Inv(env, s) && Leads(env, s, states, labels) && i < |labels| && FruitfulUpper(env, states[i], p, cap)
    ensures FruitfulUpper(env, states[i+1], p, cap)
    ensures states[i+1].scalers[p].tally.overlaps == states[i].scalers[p].tally.overlaps
    ensures states[i+1].scalers[p].tally.placed == states[i].scalers[p].tally.placed
  {
    InvHolds(env, s, states, labels, i);
    UnattendedTally(env, states[i], labels[i], states[i+1], p);
    UnattendedUpper(env, states[i], labels[i], states[i+1], p, cap);
  }

  lemma {:induction false} LoadHolds(env: Env, s: State, states: seq<State>, labels: seq<Label>, i: nat, p: string, cap: int)
    requires Inv(env, s) && FruitfulUpper(env, s, p, cap) && Leads(env, s, states, labels) && i < |states|
    ensures FruitfulUpper(env, states[i], p, cap)
    ensures states[i].scalers[p].tally.overlaps == s.scalers[p].tally.overlaps
    ensures states[i].scalers[p].tally.placed == s.scalers[p].tally.placed
  {
    if i > 0 {
      LoadHolds(env, s, states, labels, i - 1, p, cap);
      LoadStep(env, s, states, labels, i - 1, p, cap);
    }
  }

  /** Either every upgrade can launch, or none that is left claims a node. */
  lemma FruitfulClaims(nodeTypes: seq<NodeType>, acts: map<nat, Activity>, m: set<string>, p: string)
    ensures var o := Owned(Fruitful(nodeTypes, acts, p), m, p);
            if CanLaunch(nodeTypes, Upgrade)
            then o == Owned(acts, m, p) && Targets(Fruitful(nodeTypes, acts, p), m, p) == Targets(acts, m, p)
            else o == {}
  {
    var kept := Fruitful(nodeTypes, acts, p);
    if CanLaunch(nodeTypes, Upgrade) {
      assert Owned(kept, m, p) == Owned(acts, m, p);
      assert forall t :: t in Owned(acts, m, p) ==> kept[t] == acts[t];
    }
  }

  lemma StartsAtLoad(env: Env, s: State, p: string, cap: int)
    requires OfFleet(env, s, p) && Upper(s, p, cap)
    ensures FruitfulUpper(env, s, p, LoadOf(env, s, p) - s.scalers[p].tally.overlaps - s.scalers[p].tally.placed)
  {
    FruitfulClaims(env.fleet[p].nodeTypes, s.acts, ManagedIds(s.agents, p), p);
  }

  lemma ManagedWithinLoad(env: Env, s: State, states: seq<State>, labels: seq<Label>, p: string, cap: int)
    requires Inv(env, s) && OfFleet(env, s, p) && Upper(s, p, cap) && Leads(env, s, states, labels)
    ensures |ManagedIds(states[|labels|].agents, p)| <= LoadOf(env, s, p)
  {
    var tally, last := s.scalers[p].tally, states[|labels|];
    StartsAtLoad(env, s, p, cap);
    LoadHolds(env, s, states, labels, |labels|, p, LoadOf(env, s, p) - tally.overlaps - tally.placed);
    LoadBounds(FruitfulOf(env, last, p).acts, ManagedIds(last.agents, p), p);
  }

  // -------------------------------------- every fruitful slot can become a node

  ghost function FruitfulSlots(env: Env, s: State, p: string): set<nat>
    requires p in env.fleet
  {
    Slots(FruitfulActs(env, s, p), p)
  }

  /** t moves on in its slot: the same node is registered, claimed or launched. */
  ghost predicate SlotMoves(env: Env, s: State, s': State, t: nat, p: string)
    requires p in env.fleet
  {
    && t in s.acts && t in s'.acts && s'.acts == s.acts[t := s'.acts[t]]
    && ManagedIds(s'.agents, p) == ManagedIds(s.agents, p)
    && IsSlot(s.acts[t], p) && IsSlot(s'.acts[t], p)
    && !Futile(env.fleet[p].nodeTypes, s.acts[t], p) && !Futile(env.fleet[p].nodeTypes, s'.acts[t], p)
    && (IsClaim(s.acts[t], p) <==> IsClaim(s'.acts[t], p))
    && (IsClaim(s.acts[t], p) ==> s'.acts[t].node == s.acts[t].node)
  }

  lemma FruitfulUpdate(nodeTypes: seq<NodeType>, acts: map<nat, Activity>, t: nat, a: Activity, p: string)
    requires !Futile(nodeTypes, a, p)
    ensures Fruitful(nodeTypes, acts[t := a], p) == Fruitful(nodeTypes, acts, p)[t := a]
  {
  }

  lemma MoveKeepsLoad(env: Env, s: State, s': State, t: nat, p: string)
    requires p in env.fleet && SlotMoves(env, s, s', t, p)
    ensures FruitfulSlots(env, s', p) == FruitfulSlots(env, s, p) && LoadOf(env, s', p) == LoadOf(env, s, p)
  {
    FruitfulUpdate(env.fleet[p].nodeTypes, s.acts, t, s'.acts[t], p);
    ClaimsKeptSame(FruitfulActs(env, s, p), FruitfulActs(env, s', p), ManagedIds(s.agents, p), p);
  }

  lemma DropTarget(acts: map<nat, Activity>, acts': map<nat, Activity>, m: set<string>, t: nat, p: string)
    requires t in acts && IsClaim(acts[t], p) && t in acts' && acts' == acts[t := acts'[t]]
    requires IsSlot(acts'[t], p) && !IsClaim(acts'[t], p)
    ensures Slots(acts', p) == Slots(acts, p)
    ensures Load(acts', m - {acts[t].node.id}, p) == Load(acts, m, p)
  {
    var id := acts[t].node.id;
    var m' := m - {id};
    forall x ensures x in Targets(acts', m', p) <==> x in Targets(acts, m, p) && x != id {
      if x in Targets(acts, m, p) && x != id {
        var v :| v in Owned(acts, m, p) && acts[v].node.id == x;
        assert v in Owned(acts', m', p) && acts'[v].node.id == x;
      }
      if x in Targets(acts', m', p) {
        var v :| v in Owned(acts', m', p) && acts'[v].node.id == x;
        assert v in Owned(acts, m, p) && acts[v].node.id == x;
      }
    }
    if id in m {
      assert t in Owned(acts, m, p);
      assert id in Targets(acts, m, p);
    }
    assert m' - Targets(acts', m', p) == m - Targets(acts, m, p);
  }

  lemma FillSlot(acts: map<nat, Activity>, acts': map<nat, Activity>, m: set<string>, t: nat, u: nat, p: string)
    requires t in acts && IsSlot(acts[t], p) && !IsClaim(acts[t], p) && u !in acts
    requires t in acts' && u in acts' && acts' == acts[t := acts'[t]][u := acts'[u]]
    requires !IsSlot(acts'[t], p) && acts'[u].role == Boot && !IsClaim(acts'[t], p)
    requires acts[t].node.id !in m
    requires forall v :: v in acts && IsClaim(acts[v], p) ==> acts[v].node.id != acts[t].node.id
    ensures Slots(acts', p) == Slots(acts, p) - {t}
    ensures Load(acts', m + {acts[t].node.id}, p) == Load(acts, m, p)
  {
    var id := acts[t].node.id;
    ClaimsKeptSame(acts, acts', m + {id}, p);
    SameClaims(acts, m, id, p);
    BringOne(m, Targets(acts, m, p), id);
    SlotEnds(acts, acts', t, u, p);
  }

  lemma SameClaims(acts: map<nat, Activity>, m: set<string>, id: string, p: string)
    requires forall v :: v in acts && IsClaim(acts[v], p) ==> acts[v].node.id != id
    ensures Targets(acts, m + {id}, p) == Targets(acts, m, p)
  {
    assert Owned(acts, m + {id}, p) == Owned(acts, m, p);
  }

  lemma SlotEnds(acts: map<nat, Activity>, acts': map<nat, Activity>, t: nat, u: nat, p: string)
    requires t in acts && IsSlot(acts[t], p) && u !in acts
    requires t in acts' && u in acts' && acts' == acts[t := acts'[t]][u := acts'[u]]
    requires !IsSlot(acts'[t], p) && acts'[u].role == Boot
    ensures Slots(acts', p) == Slots(acts, p) - {t} && |Slots(acts', p)| == |Slots(acts, p)| - 1
  {
    assert t in Slots(acts, p);
    assert Slots(acts', p) == Slots(acts, p) - {t};
  }

  lemma SizeIsSelected(nodeTypes: seq<NodeType>, r: Resources)
    requires exists k :: 0 <= k < |nodeTypes| && ResourcesOf(nodeTypes[k]) == r
    requires Positive(r)
    ensures exists name :: IsSelection(nodeTypes, r, Selected(name))
  {
    var k :| 0 <= k < |nodeTypes| && ResourcesOf(nodeTypes[k]) == r;
    ExactEntryIsSelected(nodeTypes, k);
  }

  /** A direct spawn can launch something if and only if there are node types and their
      smallest size is positive; an upgrade likewise with the largest. */
  lemma LaunchableIff(nodeTypes: seq<NodeType>, small: Resources, large: Resources)
    requires IsSmallest(nodeTypes, small) && IsLargest(nodeTypes, large)
    ensures CanLaunch(nodeTypes, Direct) <==> nodeTypes != [] && Positive(small)
    ensures CanLaunch(nodeTypes, Upgrade) <==> nodeTypes != [] && Positive(large)
  {
    if nodeTypes != [] && Positive(small) {
      SizeIsSelected(nodeTypes, small);
      var x :| IsSelection(nodeTypes, small, Selected(x));
      assert Asked(nodeTypes, Direct, x);
    }
    if nodeTypes != [] && Positive(large) {
      SizeIsSelected(nodeTypes, large);
      var y :| IsSelection(nodeTypes, large, Selected(y));
      assert Asked(nodeTypes, Upgrade, y);
    }
    if x :| Asked(nodeTypes, Direct, x) {
      var r :| IsSmallest(nodeTypes, r) && IsSelection(nodeTypes, r, Selected(x));
      SmallestIsUnique(nodeTypes, r, small);
    }
    if y :| Asked(nodeTypes, Upgrade, y) {
      var q :| IsLargest(nodeTypes, q) && IsSelection(nodeTypes, q, Selected(y));
      LargestIsUnique(nodeTypes, q, large);
    }
  }

  const IDLE := NodeStatus("", 0.0, 0.0, 0, 0, 0, 0)

  function Rank(phase: Phase): nat {
    match phase
    case Marking => 6
    case Waiting => 5
    case Deregistering => 4
    case Terminating => 3
    case Launching => 2
    case Registering => 1
    case _ => 0
  }

  lemma {:induction false} LongerThan(ids: set<string>) returns (id: string)
    ensures id != "" && id !in ids
    ensures forall x :: x in ids ==> |x| < |id|
  {
    id := "a";
    if ids != {} {
      var x :| x in ids;
      var longer := LongerThan(ids - {x});
      id := longer + x;
    }
  }

  /** One step of t toward its registration. */
  ghost predicate Shifts(env: Env, s: State, s': State, t: nat, p: string)
    requires p in env.fleet
  {
    && t in s.acts && p in s'.scalers && LoadOf(env, s', p) == LoadOf(env, s, p)
    && (FruitfulSlots(env, s', p) == FruitfulSlots(env, s, p) - {t}
        || (FruitfulSlots(env, s', p) == FruitfulSlots(env, s, p) && t in s'.acts
            && Rank(s'.acts[t].phase) < Rank(s.acts[t].phase)))
  }

  ghost predicate Advances(env: Env, s: State, s': State, t: nat, p: string) {
    Inv(env, s') && OfFleet(env, s', p) && Shifts(env, s, s', t, p)
  }

  /** What a step of a fruitful slot needs of the state. */
  ghost predicate InSlot(env: Env, s: State, t: nat, p: string) {
    && OfFleet(env, s, p) && t in s.acts && IsSlot(s.acts[t], p) && RoleFits(s.acts[t])
    && !Futile(env.fleet[p].nodeTypes, s.acts[t], p)
  }

  ghost predicate AtSlot(env: Env, s: State, t: nat, p: string) {
    && Inv(env, s) && OfFleet(env, s, p) && t in s.acts && IsSlot(s.acts[t], p)
    && !Futile(env.fleet[p].nodeTypes, s.acts[t], p)
  }

  lemma SlotFacts(env: Env, s: State, t: nat, p: string)
    requires AtSlot(env, s, t, p)
    ensures InSlot(env, s, t, p) && (s.acts[t].phase == Registering ==> Free(s, t, p))
  {
    assert ActOk(env, s.acts[t], s.agents, s.origin, s.called);
  }

  /** The launched node is not registered, and no upgrade works on it. */
  ghost predicate Free(s: State, t: nat, p: string)
    requires t in s.acts
  {
    && s.acts[t].node.id !in ManagedIds(s.agents, p)
    && forall v :: v in s.acts && IsClaim(s.acts[v], p) ==> s.acts[v].node.id != s.acts[t].node.id
  }

  lemma MarkShape(s: State, t: nat, p: string)
    requires t in s.acts && s.acts[t].p in s.scalers && p in s.scalers
    ensures var s' := AfterMark(s, t);
            && s'.acts == s.acts[t := s.acts[t].(phase := Waiting, since := s.clock)] && p in s'.scalers
            && ManagedIds(s'.agents, p) == ManagedIds(s.agents, p)
  {
    StatusKeepsFleet(s.agents, s.acts[t].node.id);
    SameFleetManages(s.agents, WithDraining(s.agents, s.acts[t].node.id));
  }

  lemma ShiftMark(env: Env, s: State, t: nat, p: string)
    requires InSlot(env, s, t, p) && s.acts[t].phase == Marking
    ensures Shifts(env, s, AfterMark(s, t), t, p)
  {
    var s' := AfterMark(s, t);
    MarkShape(s, t, p);
    assert SlotMoves(env, s, s', t, p);
    MoveKeepsLoad(env, s, s', t, p);
  }

  lemma ShiftWait(env: Env, s: State, t: nat, p: string)
    requires InSlot(env, s, t, p) && s.acts[t].phase == Waiting
    ensures Shifts(env, s, WithPhase(s, t, Deregistering), t, p)
  {
    assert SlotMoves(env, s, WithPhase(s, t, Deregistering), t, p);
    MoveKeepsLoad(env, s, WithPhase(s, t, Deregistering), t, p);
  }

  lemma DeregisterSlot(s: State, t: nat, p: string)
    requires t in s.acts && p in s.scalers && s.acts[t].p == p
    requires s.acts[t].role == Upgrade && s.acts[t].phase == Deregistering
    ensures var s' := AfterDeregister(s, t);
            && p in s'.scalers && s'.agents == s.agents - {s.acts[t].node.id}
            && s'.acts == s.acts[t := s.acts[t].(phase := Terminating)]
  {
  }

  lemma ShiftDeregister(env: Env, s: State, t: nat, p: string)
    requires InSlot(env, s, t, p) && s.acts[t].phase == Deregistering
    ensures Shifts(env, s, AfterDeregister(s, t), t, p)
  {
    var s' := AfterDeregister(s, t);
    DeregisterSlot(s, t, p);
    DropManaged(s.agents, s.acts[t].node.id, p);
    FruitfulUpdate(env.fleet[p].nodeTypes, s.acts, t, s'.acts[t], p);
    DropTarget(FruitfulActs(env, s, p), FruitfulActs(env, s', p), ManagedIds(s.agents, p), t, p);
  }

  lemma ShiftTerminate(env: Env, s: State, t: nat, p: string)
    requires InSlot(env, s, t, p) && s.acts[t].phase == Terminating
    ensures Shifts(env, s, AfterTerminate(s, t, true), t, p)
  {
    assert SlotMoves(env, s, AfterTerminate(s, t, true), t, p);
    MoveKeepsLoad(env, s, AfterTerminate(s, t, true), t, p);
  }

  lemma FreshNode(seen: set<string>, launched: set<Instance>, p: string, nodeTypes: seq<NodeType>, role: Role)
    returns (node: Node)
    requires CanLaunch(nodeTypes, role)
    ensures node.id != "" && node.id !in seen && Instance(p, node.providerID) !in launched
    ensures Asked(nodeTypes, role, node.instanceType)
  {
    var id := LongerThan(seen);
    var used := set i | i in launched :: i.providerID;
    var providerID := LongerThan(used);
    assert Instance(p, providerID) in launched ==> providerID in used;
    var instanceType :| Asked(nodeTypes, role, instanceType);
    node := Node(id, providerID, instanceType, "");
  }

  lemma ShiftLaunch(env: Env, s: State, t: nat, node: Node, p: string)
    requires InSlot(env, s, t, p) && s.acts[t].phase == Launching
    ensures Shifts(env, s, AfterLaunch(s, t, node), t, p)
  {
    assert SlotMoves(env, s, AfterLaunch(s, t, node), t, p);
    MoveKeepsLoad(env, s, AfterLaunch(s, t, node), t, p);
  }

  lemma RegisterSlotShape(s: State, t: nat, u: nat, p: string)
    requires t in s.acts && p in s.scalers && IsSlot(s.acts[t], p) && s.acts[t].phase == Registering && u !in s.acts
    ensures var s', a := AfterRegister(s, t, u), s.acts[t];
            && t in s'.acts && u in s'.acts && s'.acts == s.acts[t := s'.acts[t]][u := s'.acts[u]]
            && s'.acts[t].phase == Resetting && s'.acts[u].role == Boot && p in s'.scalers
            && ManagedIds(s'.agents, p) == ManagedIds(s.agents, p) + {a.node.id}
  {
    var s' := AfterRegister(s, t, u);
    RegisteredIds(s.agents, s'.agents[s.acts[t].node.id], p);
  }

  lemma ShiftRegister(env: Env, s: State, t: nat, u: nat, p: string)
    requires InSlot(env, s, t, p) && s.acts[t].phase == Registering && u !in s.acts && Free(s, t, p)
    ensures Shifts(env, s, AfterRegister(s, t, u), t, p)
  {
    var s', nodeTypes := AfterRegister(s, t, u), env.fleet[p].nodeTypes;
    RegisterSlotShape(s, t, u, p);
    FruitfulUpdate(nodeTypes, s.acts, t, s'.acts[t], p);
    FruitfulUpdate(nodeTypes, s.acts[t := s'.acts[t]], u, s'.acts[u], p);
    FillSlot(FruitfulActs(env, s, p), FruitfulActs(env, s', p), ManagedIds(s.agents, p), t, u, p);
  }

  // ------------------------------------------------------------ the continuation

  /** Some continuation of s comes to s'. */
  ghost predicate CanLead(env: Env, s: State, s': State) {
    exists states: seq<State>, labels: seq<Label> :: Leads(env, s, states, labels) && states[|labels|] == s'
  }

  lemma Stays(env: Env, s: State)
    ensures CanLead(env, s, s)
  {
    var states, labels: seq<Label> := [s], [];
    assert Leads(env, s, states, labels) && states[|labels|] == s;
  }

  lemma Go(env: Env, s: State, now: State, l: Label)
    requires CanLead(env, s, now) && Enabled(env, now, l) && Unattended(now, l)
    ensures CanLead(env, s, Apply(env, now, l))
  {
    var states, labels :| Leads(env, s, states, labels) && states[|labels|] == now;
    var states', labels' := states + [Apply(env, now, l)], labels + [l];
    forall i | 0 <= i < |labels'|
      ensures Step(env, states'[i], labels'[i], states'[i+1]) && Unattended(states'[i], labels'[i])
    {
      if i < |labels| { assert Step(env, states[i], labels[i], states[i+1]); }
    }
    assert Leads(env, s, states', labels') && states'[|labels'|] == Apply(env, now, l);
  }

  /** One step of t that a continuation can take. */
  lemma Take(env: Env, s: State, now: State, t: nat, x: ActStep, p: string) returns (later: State)
    requires CanLead(env, s, now) && Inv(env, now) && OfFleet(env, now, p) && Live(env, now, t)
    requires ActEnabled(env, now, t, x) && now.acts[t].role != Init && Shifts(env, now, ActApply(env, now, t, x), t, p)
    ensures later == ActApply(env, now, t, x) && CanLead(env, s, later) && Advances(env, now, later, t, p)
  {
    Go(env, s, now, Act(t, x));
    StepKeepsInv(env, now, Act(t, x));
    later := Apply(env, now, Act(t, x));
  }

  /** Waits for the next tick of the drain, if that is what t needs. */
  lemma Wait(env: Env, s: State, now: State, t: nat, p: string) returns (later: State)
    requires CanLead(env, s, now) && AtSlot(env, now, t, p)
    ensures CanLead(env, s, later) && AtSlot(env, later, t, p)
    ensures later.acts == now.acts && later.agents == now.agents && now.acts[t].since + DRAIN_TICK <= later.clock
  {
    var wait := now.acts[t].since + DRAIN_TICK - now.clock;
    if wait <= 0 { return now; }
    StepKeepsInv(env, now, Tick(wait));
    Go(env, s, now, Tick(wait));
    later := Apply(env, now, Tick(wait));
  }

  lemma AdvanceWaiting(env: Env, s: State, now: State, t: nat, p: string) returns (later: State)
    requires CanLead(env, s, now) && AtSlot(env, now, t, p) && now.acts[t].phase == Waiting
    ensures CanLead(env, s, later) && Advances(env, now, later, t, p)
  {
    var ready := Wait(env, s, now, t, p);
    SlotFacts(env, ready, t, p);
    ShiftWait(env, ready, t, p);
    later := Take(env, s, ready, t, ObserveIdle(IDLE), p);
  }

  lemma AdvanceSpawn(env: Env, s: State, now: State, t: nat, p: string) returns (later: State)
    requires CanLead(env, s, now) && AtSlot(env, now, t, p)
    requires now.acts[t].phase == Launching || now.acts[t].phase == Registering
    ensures CanLead(env, s, later) && Advances(env, now, later, t, p)
  {
    SlotFacts(env, now, t, p);
    if now.acts[t].phase == Launching {
      var node := FreshNode(now.seen, now.launched, p, env.fleet[p].nodeTypes, now.acts[t].role);
      ShiftLaunch(env, now, t, node, p);
      later := Take(env, s, now, t, LaunchOk(node), p);
    } else {
      var u := AboveAll(now.acts.Keys);
      assert u !in now.acts;
      ShiftRegister(env, now, t, u, p);
      later := Take(env, s, now, t, RegisterNode(u), p);
    }
  }

  lemma Advance(env: Env, s: State, now: State, t: nat, p: string) returns (later: State)
    requires CanLead(env, s, now) && AtSlot(env, now, t, p)
    ensures CanLead(env, s, later) && Advances(env, now, later, t, p)
  {
    SlotFacts(env, now, t, p);
    match now.acts[t].phase
    case Marking => ShiftMark(env, now, t, p); later := Take(env, s, now, t, Mark, p);
    case Waiting => later := AdvanceWaiting(env, s, now, t, p);
    case Deregistering => ShiftDeregister(env, now, t, p); later := Take(env, s, now, t, Deregister, p);
    case Terminating => ShiftTerminate(env, now, t, p); later := Take(env, s, now, t, Terminate(true), p);
    case _ => later := AdvanceSpawn(env, s, now, t, p);
  }

  lemma {:induction false} FillOne(env: Env, s: State, now: State, t: nat, p: string) returns (later: State)
    requires CanLead(env, s, now) && AtSlot(env, now, t, p)
    ensures CanLead(env, s, later) && Inv(env, later) && OfFleet(env, later, p)
    ensures LoadOf(env, later, p) == LoadOf(env, now, p) && FruitfulSlots(env, later, p) == FruitfulSlots(env, now, p) - {t}
    decreases Rank(now.acts[t].phase)
  {
    later := Advance(env, s, now, t, p);
    if t in FruitfulSlots(env, later, p) {
      later := FillOne(env, s, later, t, p);
    }
  }

  lemma FewerSlots(slots: set<nat>, t: nat)
    requires t in slots
    ensures |slots - {t}| < |slots|
  {
  }

  lemma {:induction false} FillAll(env: Env, s: State, now: State, p: string) returns (later: State)
    requires CanLead(env, s, now) && Inv(env, now) && OfFleet(env, now, p)
    ensures CanLead(env, s, later) && LoadOf(env, later, p) == LoadOf(env, now, p) && FruitfulSlots(env, later, p) == {}
    decreases |FruitfulSlots(env, now, p)|
  {
    if FruitfulSlots(env, now, p) == {} { return now; }
    var t :| t in FruitfulSlots(env, now, p);
    later := FillOne(env, s, now, t, p);
    FewerSlots(FruitfulSlots(env, now, p), t);
    later := FillAll(env, s, later, p);
  }

  lemma NoSlotsLoad(acts: map<nat, Activity>, m: set<string>, p: string)
    requires Slots(acts, p) == {}
    ensures Load(acts, m, p) == |m|
  {
    forall t ensures t !in Owned(acts, m, p) { assert t !in Slots(acts, p); }
    assert Owned(acts, m, p) == {} && Targets(acts, m, p) == {};
    assert m - Targets(acts, m, p) == m;
  }

  /** The fleet a reachable state can still grow to, with no further decision, is its
      load: some continuation takes it over a size if and only if the load is over
      that size. */
  lemma LoadIsReachableIff(env: Env, run: seq<State>, done: seq<Label>, n: nat, p: string, size: int)
    requires Run(env, run, done) && n < |run| && p in env.fleet
    ensures (exists states: seq<State>, labels: seq<Label> ::
               Leads(env, run[n], states, labels) && |ManagedIds(states[|labels|].agents, p)| > size)
            <==> LoadOf(env, run[n], p) > size
  {
    var s, cap := run[n], Max(env.fleet[p].maxNodes, |ManagedIds(run[0].agents, p)|);
    RunKeepsInv(env, run, done, n);
    UpperInitial(env, run[0], p);
    UpperRun(env, run, done, n, p, cap);
    forall states: seq<State>, labels: seq<Label> | Leads(env, s, states, labels)
      ensures |ManagedIds(states[|labels|].agents, p)| <= LoadOf(env, s, p)
    {
      ManagedWithinLoad(env, s, states, labels, p, cap);
    }
    if LoadOf(env, s, p) > size {
      Stays(env, s);
      var later := FillAll(env, s, s, p);
      NoSlotsLoad(FruitfulActs(env, later, p), ManagedIds(later.agents, p), p);
      var states, labels :| Leads(env, s, states, labels) && states[|labels|] == later;
    }
  }

  // ------------------------------------------------------------ how small it can get

  /** A step of the clock, or of a drain that has not deregistered its node. */
  ghost predicate Draining(s: State, l: Label) {
    || l.Tick?
    || (l.Act? && l.t in s.acts && (s.acts[l.t].role == Upgrade || s.acts[l.t].role == ScaleDown)
        && BeforeDeregister(s.acts[l.t]))
  }

  ghost predicate Drained(env: Env, s: State, states: seq<State>, labels: seq<Label>) {
    && |states| == |labels| + 1 && states[0] == s
    && forall i :: 0 <= i < |labels| ==> Step(env, states[i], labels[i], states[i+1]) && Draining(states[i], labels[i])
  }

  /** The registered agents that no drain is working on. */
  ghost function Remaining(s: State, p: string): set<string> {
    ManagedIds(s.agents, p) - NodeIds(s.acts, Drains(s.acts, p))
  }

  lemma SameDrainNodes(acts: map<nat, Activity>, acts': map<nat, Activity>, t: nat, p: string)
    requires t in acts && t in acts' && acts' == acts[t := acts'[t]]
    requires IsDrain(acts[t], p) == IsDrain(acts'[t], p) && acts'[t].node == acts[t].node
    ensures Drains(acts', p) == Drains(acts, p)
    ensures NodeIds(acts', Drains(acts', p)) == NodeIds(acts, Drains(acts, p))
  {
    assert Drains(acts', p) == Drains(acts, p);
  }

  lemma DrainNodeGoes(acts: map<nat, Activity>, acts': map<nat, Activity>, m: set<string>, t: nat, p: string)
    requires t in acts && t in acts' && acts' == acts[t := acts'[t]] && !IsDrain(acts'[t], p)
    requires IsDrain(acts[t], p) || acts[t].node.id !in m
    ensures Drains(acts', p) == Drains(acts, p) - {t}
    ensures m - {acts[t].node.id} - NodeIds(acts', Drains(acts', p)) == m - NodeIds(acts, Drains(acts, p))
  {
    var id := acts[t].node.id;
    assert Drains(acts', p) == Drains(acts, p) - {t};
    forall x | x != id ensures x in NodeIds(acts', Drains(acts', p)) <==> x in NodeIds(acts, Drains(acts, p)) {
      if x in NodeIds(acts, Drains(acts, p)) {
        var v :| v in Drains(acts, p) && acts[v].node.id == x;
        assert v in Drains(acts', p) && acts'[v].node.id == x;
      }
    }
    if IsDrain(acts[t], p) { assert t in Drains(acts, p) && id in NodeIds(acts, Drains(acts, p)); }
  }

  /** A drain step takes no agent but one that is being drained. */
  ghost predicate KeepsRemaining(env: Env, s: State, s': State, p: string) {
    Inv(env, s') && OfFleet(env, s', p) && Remaining(s', p) == Remaining(s, p)
  }

  lemma DeregisterKeepsRemaining(env: Env, s: State, t: nat, p: string)
    requires Inv(env, s) && OfFleet(env, s, p) && Live(env, s, t) && Draining(s, Act(t, Deregister))
    requires s.acts[t].phase == Deregistering
    ensures KeepsRemaining(env, s, AfterDeregister(s, t), p)
    ensures Drains(AfterDeregister(s, t).acts, p) == Drains(s.acts, p) - {t}
  {
    StepKeepsInv(env, s, Act(t, Deregister));
    DeregisterDropsRecord(s, t);
    DeregisterSlack(s, t, p);
    DropManaged(s.agents, s.acts[t].node.id, p);
    if s.acts[t].p != p { OthersNode(env, s, t, p); }
    DrainNodeGoes(s.acts, AfterDeregister(s, t).acts, ManagedIds(s.agents, p), t, p);
  }

  lemma MarkKeepsRemaining(env: Env, s: State, t: nat, p: string)
    requires Inv(env, s) && OfFleet(env, s, p) && Live(env, s, t) && s.acts[t].phase == Marking
    ensures KeepsRemaining(env, s, AfterMark(s, t), p) && Drains(AfterMark(s, t).acts, p) == Drains(s.acts, p)
  {
    StepKeepsInv(env, s, Act(t, Mark));
    MarkShape(s, t, p);
    SameDrainNodes(s.acts, AfterMark(s, t).acts, t, p);
  }

  lemma WaitKeepsRemaining(env: Env, s: State, t: nat, x: ActStep, p: string)
    requires Inv(env, s) && OfFleet(env, s, p) && Live(env, s, t) && ActEnabled(env, s, t, x) && s.acts[t].phase == Waiting
    ensures ActApply(env, s, t, x) == WithPhase(s, t, Deregistering)
    ensures KeepsRemaining(env, s, WithPhase(s, t, Deregistering), p)
    ensures Drains(WithPhase(s, t, Deregistering).acts, p) == Drains(s.acts, p)
  {
    StepKeepsInv(env, s, Act(t, x));
    SameDrainNodes(s.acts, WithPhase(s, t, Deregistering).acts, t, p);
  }

  lemma DrainingKeepsRemaining(env: Env, s: State, l: Label, s': State, p: string)
    requires Inv(env, s) && Step(env, s, l, s') && Draining(s, l) && OfFleet(env, s, p)
    ensures KeepsRemaining(env, s, s', p)
  {
    match l
    case Tick(_) => StepKeepsInv(env, s, l);
    case Act(t, x) =>
      match s.acts[t].phase
      case Marking => MarkKeepsRemaining(env, s, t, p);
      case Waiting => WaitKeepsRemaining(env, s, t, x, p);
      case Deregistering => DeregisterKeepsRemaining(env, s, t, p);
  }

  lemma RemainingStep(env: Env, s: State, states: seq<State>, labels: seq<Label>, i: nat, p: string)
    requires Drained(env, s, states, labels) && i < |labels| && KeepsRemaining(env, s, states[i], p)
    ensures KeepsRemaining(env, s, states[i+1], p)
  {
    assert Step(env, states[i], labels[i], states[i+1]) && Draining(states[i], labels[i]);
    DrainingKeepsRemaining(env, states[i], labels[i], states[i+1], p);
  }

  lemma {:induction false} RemainingStays(env: Env, s: State, states: seq<State>, labels: seq<Label>, i: nat, p: string)
    requires Inv(env, s) && OfFleet(env, s, p) && Drained(env, s, states, labels) && i < |states|
    ensures KeepsRemaining(env, s, states[i], p)
  {
    if i > 0 {
      RemainingStays(env, s, states, labels, i - 1, p);
      RemainingStep(env, s, states, labels, i - 1, p);
    }
  }

  ghost predicate CanDrain(env: Env, s: State, s': State) {
    exists states: seq<State>, labels: seq<Label> :: Drained(env, s, states, labels) && states[|labels|] == s'
  }

  lemma StaysDrained(env: Env, s: State)
    ensures CanDrain(env, s, s)
  {
    var states, labels: seq<Label> := [s], [];
    assert Drained(env, s, states, labels) && states[|labels|] == s;
  }

  lemma GoDrain(env: Env, s: State, now: State, l: Label)
    requires CanDrain(env, s, now) && Enabled(env, now, l) && Draining(now, l)
    ensures CanDrain(env, s, Apply(env, now, l))
  {
    var states, labels :| Drained(env, s, states, labels) && states[|labels|] == now;
    var states', labels' := states + [Apply(env, now, l)], labels + [l];
    forall i | 0 <= i < |labels'|
      ensures Step(env, states'[i], labels'[i], states'[i+1]) && Draining(states'[i], labels'[i])
    {
      if i < |labels| { assert Step(env, states[i], labels[i], states[i+1]); }
    }
    assert Drained(env, s, states', labels') && states'[|labels'|] == Apply(env, now, l);
  }

  ghost predicate AtDrain(env: Env, s: State, t: nat, p: string) {
    Inv(env, s) && OfFleet(env, s, p) && t in s.acts && IsDrain(s.acts[t], p)
  }

  lemma {:induction false} FinishDrain(env: Env, s: State, now: State, t: nat, p: string) returns (later: State)
    requires CanDrain(env, s, now) && AtDrain(env, now, t, p)
    ensures CanDrain(env, s, later) && Inv(env, later) && OfFleet(env, later, p)
    ensures Drains(later.acts, p) == Drains(now.acts, p) - {t}
    decreases Rank(now.acts[t].phase)
  {
    match now.acts[t].phase
    case Marking =>
      MarkKeepsRemaining(env, now, t, p);
      GoDrain(env, s, now, Act(t, Mark));
      later := FinishDrain(env, s, AfterMark(now, t), t, p);
    case Waiting =>
      var wait := Tick(Gap(now.acts[t].since + DRAIN_TIMEOUT, now.clock));
      StepKeepsInv(env, now, wait);
      GoDrain(env, s, now, wait);
      later := Apply(env, now, wait);
      WaitKeepsRemaining(env, later, t, DrainTimeout, p);
      GoDrain(env, s, later, Act(t, DrainTimeout));
      later := FinishDrain(env, s, WithPhase(later, t, Deregistering), t, p);
    case Deregistering =>
      DeregisterKeepsRemaining(env, now, t, p);
      GoDrain(env, s, now, Act(t, Deregister));
      later := AfterDeregister(now, t);
  }

  /** How long it is until then. */
  function Gap(due: int, clock: int): nat { if clock < due then due - clock else 0 }

  lemma {:induction false} FinishDrains(env: Env, s: State, now: State, p: string) returns (later: State)
    requires CanDrain(env, s, now) && Inv(env, now) && OfFleet(env, now, p)
    ensures CanDrain(env, s, later) && Drains(later.acts, p) == {}
    decreases |Drains(now.acts, p)|
  {
    if Drains(now.acts, p) == {} { return now; }
    var t :| t in Drains(now.acts, p);
    later := FinishDrain(env, s, now, t, p);
    FewerSlots(Drains(now.acts, p), t);
    later := FinishDrains(env, s, later, p);
  }

  /** Once its drains have ended, the fleet is what no drain was working on. */
  lemma ReachRemaining(env: Env, s: State, p: string) returns (later: State)
    requires Inv(env, s) && OfFleet(env, s, p)
    ensures CanDrain(env, s, later) && Drains(later.acts, p) == {} && ManagedIds(later.agents, p) == Remaining(s, p)
  {
    StaysDrained(env, s);
    later := FinishDrains(env, s, s, p);
    var states, labels :| Drained(env, s, states, labels) && states[|labels|] == later;
    RemainingStays(env, s, states, labels, |labels|, p);
    assert NodeIds(later.acts, {}) == {};
  }

  /** The fleet a reachable state can still shrink to by the drains in flight is what
      they leave: some continuation takes it under a size if and only if the agents
      that no drain works on are fewer than that. */
  lemma RemainingIsReachableIff(env: Env, run: seq<State>, done: seq<Label>, n: nat, p: string, size: int)
    requires Run(env, run, done) && n < |run| && p in env.fleet
    ensures (exists states: seq<State>, labels: seq<Label> ::
               Drained(env, run[n], states, labels) && |ManagedIds(states[|labels|].agents, p)| < size)
            <==> |Remaining(run[n], p)| < size
  {
    var s := run[n];
    RunKeepsInv(env, run, done, n);
    InFleet(env, run, done, n, p);
    forall states: seq<State>, labels: seq<Label> | Drained(env, s, states, labels)
      ensures |ManagedIds(states[|labels|].agents, p)| >= |Remaining(s, p)|
    {
      RemainingStays(env, s, states, labels, |labels|, p);
      SubsetSize(Remaining(s, p), ManagedIds(states[|labels|].agents, p));
    }
    if |Remaining(s, p)| < size {
      var later := ReachRemaining(env, s, p);
      var states, labels :| Drained(env, s, states, labels) && states[|labels|] == later;
    }
  }

  lemma InFleet(env: Env, run: seq<State>, done: seq<Label>, n: nat, p: string)
    requires Run(env, run, done) && n < |run| && p in env.fleet
    ensures OfFleet(env, run[n], p)
  {
    UpperInitial(env, run[0], p);
    UpperRun(env, run, done, n, p, Max(env.fleet[p].maxNodes, |ManagedIds(run[0].agents, p)|));
  }
}
