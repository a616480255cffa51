/** How large and how small a provider's fleet can get, over every interleaving. */
module FleetBounds {
  import opened Models
  import opened AgentRegistry
  import opened Scaling
  import opened FleetModel
  import opened FleetIdentity

  // ----------------------------------------------------------------- cardinality

  lemma {:induction false} SubsetSize<T>(a: set<T>, b: set<T>)
    requires a <= b
    ensures |a| <= |b|
  {
    assert b == a + (b - a);
  }

  lemma AddSize<T>(a: set<T>, x: T)
    requires x !in a
    ensures |a + {x}| == |a| + 1
  {
  }

  lemma SplitSize<T>(a: set<T>, part: set<T>)
    requires part <= a
    ensures |a| == |part| + |a - part|
  {
    assert a == part + (a - part);
  }

  lemma TakeOne<T>(m: set<T>, t: set<T>, x: T)
    requires x in m && x !in t
    ensures |m - (t + {x})| == |m - t| - 1
  {
    assert m - t == (m - (t + {x})) + {x};
  }

  lemma BringOne<T>(m: set<T>, t: set<T>, x: T)
    requires x !in m && x !in t
    ensures |(m + {x}) - t| == |m - t| + 1
  {
    assert (m + {x}) - t == (m - t) + {x};
  }

  lemma DropOne<T>(a: set<T>, b: set<T>, x: T)
    requires b <= a && x in a && x !in b
    ensures |b| <= |a| - 1
  {
    SubsetSize(b, a - {x});
  }

  ghost function NodeIds(acts: map<nat, Activity>, ts: set<nat>): set<string>
    requires ts <= acts.Keys
  {
    set t | t in ts :: acts[t].node.id
  }

  lemma {:induction false} NodeIdsSize(acts: map<nat, Activity>, ts: set<nat>)
    requires ts <= acts.Keys
    ensures |NodeIds(acts, ts)| <= |ts|
  {
    if ts != {} {
      var t :| t in ts;
      NodeIdsSize(acts, ts - {t});
      assert NodeIds(acts, ts) == NodeIds(acts, ts - {t}) + {acts[t].node.id};
    }
  }

  // ----------------------------------------------------------------- upper bound

  /** Each upgrade in flight and each pending direct spawn takes a slot, and so does
      each registered node no upgrade is about to replace. */
  ghost function Load(acts: map<nat, Activity>, managed: set<string>, p: string): int {
    |Slots(acts, p)| + |managed - Targets(acts, managed, p)|
  }

  ghost predicate UpperOk(acts: map<nat, Activity>, managed: set<string>, p: string, tally: Tally, cap: int) {
    && Load(acts, managed, p) <= cap + tally.overlaps + tally.placed
    && |Owned(acts, managed, p)| <= |Targets(acts, managed, p)| + tally.overlaps
  }

  ghost predicate SlotsShrink(acts: map<nat, Activity>, acts': map<nat, Activity>, p: string) {
    forall t :: t in acts' && IsSlot(acts'[t], p) ==> t in acts && IsSlot(acts[t], p)
  }

  /** The same upgrades claim the agents of the set. */
  ghost predicate ClaimsKept(acts: map<nat, Activity>, acts': map<nat, Activity>, managed: set<string>, p: string) {
    && (forall t :: t in acts && IsClaim(acts[t], p) && acts[t].node.id in managed ==>
          t in acts' && IsClaim(acts'[t], p) && acts'[t].node.id == acts[t].node.id)
    && (forall t :: t in acts' && IsClaim(acts'[t], p) && acts'[t].node.id in managed ==>
          t in acts && IsClaim(acts[t], p) && acts[t].node.id == acts'[t].node.id)
  }

  lemma ClaimsKeptSame(acts: map<nat, Activity>, acts': map<nat, Activity>, managed: set<string>, p: string)
    requires ClaimsKept(acts, acts', managed, p)
    ensures Owned(acts', managed, p) == Owned(acts, managed, p)
    ensures Targets(acts', managed, p) == Targets(acts, managed, p)
  {
  }

  lemma FewerManaged(acts: map<nat, Activity>, m: set<string>, m': set<string>, p: string)
    requires m' <= m
    ensures |m' - Targets(acts, m', p)| <= |m - Targets(acts, m, p)|
    ensures |Owned(acts, m', p)| - |Targets(acts, m', p)| <= |Owned(acts, m, p)| - |Targets(acts, m, p)|
  {
    var o, o' := Owned(acts, m, p), Owned(acts, m', p);
    var t, t' := Targets(acts, m, p), Targets(acts, m', p);
    forall id | id in m' && id in t ensures id in t' {
      var v :| v in o && acts[v].node.id == id;
      assert v in o';
    }
    SubsetSize(m' - t', m - t);
    assert o' <= o && t' <= t;
    assert t - t' <= NodeIds(acts, o - o');
    SubsetSize(t - t', NodeIds(acts, o - o'));
    NodeIdsSize(acts, o - o');
    assert |o| == |o'| + |o - o'|;
    assert |t| == |t'| + |t - t'|;
  }

  lemma UpperWeakens(acts: map<nat, Activity>, m: set<string>, acts': map<nat, Activity>, m': set<string>,
                     p: string, tally: Tally, tally': Tally, cap: int)
    requires UpperOk(acts, m, p, tally, cap)
    requires m' <= m && SlotsShrink(acts, acts', p) && ClaimsKept(acts, acts', m', p)
    requires tally'.overlaps == tally.overlaps && tally'.placed == tally.placed
    ensures UpperOk(acts', m', p, tally', cap)
  {
    FewerManaged(acts, m, m', p);
    ClaimsKeptSame(acts, acts', m', p);
    SubsetSize(Slots(acts', p), Slots(acts, p));
  }

  lemma NewSlot(acts: map<nat, Activity>, u: nat, a: Activity, p: string)
    requires u !in acts && IsSlot(a, p)
    ensures |Slots(acts[u := a], p)| == |Slots(acts, p)| + 1
  {
    assert Slots(acts[u := a], p) == Slots(acts, p) + {u};
    AddSize(Slots(acts, p), u);
  }

  /** With no direct spawn pending and no upgrade open, every slot owns its node. */
  lemma AllSlotsOwned(acts: map<nat, Activity>, m: set<string>, p: string)
    requires DirectSpawns(acts, p) == {} && OpenUpgrades(acts, m, p) == {}
    ensures |Slots(acts, p)| <= |Owned(acts, m, p)|
  {
    forall t | t in Slots(acts, p) ensures t in Owned(acts, m, p) {
      assert t !in DirectSpawns(acts, p) && t !in OpenUpgrades(acts, m, p);
    }
    SubsetSize(Slots(acts, p), Owned(acts, m, p));
  }

  /** A direct spawn, decided on a count below the limit. */
  lemma UpperDirect(acts: map<nat, Activity>, m: set<string>, u: nat, a: Activity, p: string,
                    tally: Tally, tally': Tally, cap: int)
    requires UpperOk(acts, m, p, tally, cap) && u !in acts && a.p == p && a.role == Direct && a.phase == Launching
    requires |m| < cap && DirectSpawns(acts, p) == {}
    requires tally'.placed == tally.placed
    requires tally'.overlaps == tally.overlaps + if OpenUpgrades(acts, m, p) != {} then 1 else 0
    ensures UpperOk(acts[u := a], m, p, tally', cap)
  {
    TakesOneSlot(acts, m, u, a, p);
    if OpenUpgrades(acts, m, p) == {} { NothingOpenLoad(acts, m, p); }
  }

  lemma TakesOneSlot(acts: map<nat, Activity>, m: set<string>, u: nat, a: Activity, p: string)
    requires u !in acts && IsSlot(a, p) && !IsClaim(a, p)
    ensures Load(acts[u := a], m, p) == Load(acts, m, p) + 1
    ensures Owned(acts[u := a], m, p) == Owned(acts, m, p) && Targets(acts[u := a], m, p) == Targets(acts, m, p)
  {
    ClaimsKeptSame(acts, acts[u := a], m, p);
    NewSlot(acts, u, a, p);
  }

  /** Then each slot is paid for by a registered node. */
  lemma NothingOpenLoad(acts: map<nat, Activity>, m: set<string>, p: string)
    requires DirectSpawns(acts, p) == {} && OpenUpgrades(acts, m, p) == {}
    ensures Load(acts, m, p) <= |m| + |Owned(acts, m, p)| - |Targets(acts, m, p)|
  {
    AllSlotsOwned(acts, m, p);
    assert Targets(acts, m, p) <= m;
    SplitSize(m, Targets(acts, m, p));
  }

  lemma NewClaim(acts: map<nat, Activity>, m: set<string>, u: nat, a: Activity, p: string)
    requires u !in acts && IsClaim(a, p) && a.node.id in m
    ensures Owned(acts[u := a], m, p) == Owned(acts, m, p) + {u}
    ensures Targets(acts[u := a], m, p) == Targets(acts, m, p) + {a.node.id}
  {
    var acts' := acts[u := a];
    var o, o' := Owned(acts, m, p), Owned(acts', m, p);
    assert o' == o + {u};
    assert acts'[u].node.id in Targets(acts', m, p);
    forall id | id in Targets(acts, m, p) ensures id in Targets(acts', m, p) {
      var v :| v in o && acts[v].node.id == id;
      assert v in o' && acts'[v].node.id == id;
    }
    forall id | id in Targets(acts', m, p) ensures id in Targets(acts, m, p) + {a.node.id} {
      var v :| v in o' && acts'[v].node.id == id;
      assert v == u || (v in o && acts[v].node.id == id);
    }
  }

  /** An upgrade claims a registered node. */
  lemma UpperUpgrade(acts: map<nat, Activity>, m: set<string>, u: nat, a: Activity, p: string,
                     tally: Tally, tally': Tally, cap: int)
    requires UpperOk(acts, m, p, tally, cap) && u !in acts && IsClaim(a, p) && a.node.id in m
    requires tally'.placed == tally.placed
    requires tally'.overlaps == tally.overlaps + if a.node.id in Targets(acts, m, p) then 1 else 0
    ensures UpperOk(acts[u := a], m, p, tally', cap)
  {
    var t := Targets(acts, m, p);
    NewSlot(acts, u, a, p);
    NewClaim(acts, m, u, a, p);
    AddSize(Owned(acts, m, p), u);
    if a.node.id in t {
      assert t + {a.node.id} == t;
    } else {
      AddSize(t, a.node.id);
      TakeOne(m, t, a.node.id);
    }
  }

  /** A spawner registers its node: its slot becomes a node, or InitializeNodes adds one. */
  lemma UpperRegister(acts: map<nat, Activity>, acts': map<nat, Activity>, m: set<string>, t: nat, id: string, p: string,
                      tally: Tally, tally': Tally, cap: int)
    requires UpperOk(acts, m, p, tally, cap) && id !in m
    requires ClaimsKept(acts, acts', m + {id}, p)
    requires forall v :: v in acts && IsClaim(acts[v], p) ==> acts[v].node.id != id
    requires SlotsShrink(acts, acts', p)
    requires tally'.overlaps == tally.overlaps
    requires if t in Slots(acts, p) then t !in Slots(acts', p) && tally'.placed == tally.placed
             else tally'.placed == tally.placed + 1
    ensures UpperOk(acts', m + {id}, p, tally', cap)
  {
    ClaimsKeptSame(acts, acts', m + {id}, p);
    assert Owned(acts, m + {id}, p) == Owned(acts, m, p);
    var ts := Targets(acts, m, p);
    assert Targets(acts, m + {id}, p) == ts;
    BringOne(m, ts, id);
    if t in Slots(acts, p) {
      DropOne(Slots(acts, p), Slots(acts', p), t);
    } else {
      SubsetSize(Slots(acts', p), Slots(acts, p));
    }
  }

  /** What the load bounds. */
  lemma LoadBounds(acts: map<nat, Activity>, m: set<string>, p: string)
    ensures |m| + |OpenUpgrades(acts, m, p)| + |DirectSpawns(acts, p)| <= Load(acts, m, p)
  {
    var o, d, w := Owned(acts, m, p), DirectSpawns(acts, p), OpenUpgrades(acts, m, p);
    SplitSize(Slots(acts, p), o);
    SplitSize(Slots(acts, p) - o, d);
    SubsetSize(w, Slots(acts, p) - o - d);
    assert Targets(acts, m, p) == NodeIds(acts, o);
    NodeIdsSize(acts, o);
    SplitSize(m, Targets(acts, m, p));
  }

  ghost predicate Upper(s: State, p: string, cap: int) {
    p in s.scalers && UpperOk(s.acts, ManagedIds(s.agents, p), p, s.scalers[p].tally, cap)
  }

  ghost predicate QuietFor(s: State, s': State, p: string)
    requires p in s.scalers
  {
    && p in s'.scalers
    && s'.scalers[p].tally.overlaps == s.scalers[p].tally.overlaps
    && s'.scalers[p].tally.placed == s.scalers[p].tally.placed
    && ManagedIds(s'.agents, p) <= ManagedIds(s.agents, p)
    && SlotsShrink(s.acts, s'.acts, p)
    && ClaimsKept(s.acts, s'.acts, ManagedIds(s'.agents, p), p)
  }

  lemma UpperQuiet(s: State, s': State, p: string, cap: int)
    requires Upper(s, p, cap) && QuietFor(s, s', p)
    ensures Upper(s', p, cap)
  {
    UpperWeakens(s.acts, ManagedIds(s.agents, p), s'.acts, ManagedIds(s'.agents, p), p,
                 s.scalers[p].tally, s'.scalers[p].tally, cap);
  }

  /** What a decision starts: one goroutine, and only the decider's tally moves. */
  ghost predicate Starts(s: State, s': State, q: string, u: nat, a: Activity) {
    && s'.agents == s.agents && s'.acts == s.acts[u := a] && a.p == q
    && q in s.scalers && q in s'.scalers && s'.scalers == s.scalers[q := s'.scalers[q]]
  }

  lemma UpperDirectStep(env: Env, s: State, s': State, p: string, u: nat, a: Activity, cap: int)
    requires BlockedOk(s.acts, s.scalers) && u !in s.acts && Starts(s, s', p, u, a) && !s.scalers[p].pc.Blocked?
    requires a.role == Direct && a.phase == Launching && |ManagedIds(s.agents, p)| < cap && Upper(s, p, cap)
    requires s'.scalers[p].tally.placed == s.scalers[p].tally.placed
    requires s'.scalers[p].tally.overlaps == s.scalers[p].tally.overlaps +
               if OpenUpgrades(s.acts, ManagedIds(s.agents, p), p) != {} then 1 else 0
    ensures Upper(s', p, cap)
  {
    assert DirectSpawns(s.acts, p) == {};
    UpperDirect(s.acts, ManagedIds(s.agents, p), u, a, p, s.scalers[p].tally, s'.scalers[p].tally, cap);
  }

  lemma UpperUpgradeStep(s: State, s': State, p: string, u: nat, a: Activity, cap: int)
    requires u !in s.acts && Starts(s, s', p, u, a)
    requires IsClaim(a, p) && a.node.id in ManagedIds(s.agents, p) && Upper(s, p, cap)
    requires s'.scalers[p].tally.placed == s.scalers[p].tally.placed
    requires s'.scalers[p].tally.overlaps == s.scalers[p].tally.overlaps +
               if a.node.id in Targets(s.acts, ManagedIds(s.agents, p), p) then 1 else 0
    ensures Upper(s', p, cap)
  {
    UpperUpgrade(s.acts, ManagedIds(s.agents, p), u, a, p, s.scalers[p].tally, s'.scalers[p].tally, cap);
  }

  lemma QuietStart(s: State, s': State, q: string, u: nat, a: Activity, p: string)
    requires u !in s.acts && Starts(s, s', q, u, a) && p in s.scalers
    requires q != p || (a.role != Direct && a.role != Upgrade)
    requires s'.scalers[q].tally.overlaps == s.scalers[q].tally.overlaps || q != p
    requires s'.scalers[q].tally.placed == s.scalers[q].tally.placed || q != p
    ensures QuietFor(s, s', p)
  {
  }

  lemma QuietPc(s: State, q: string, pc: Pc, p: string)
    requires q in s.scalers && p in s.scalers
    ensures QuietFor(s, WithPc(s, q, pc), p)
  {
  }

  lemma UpperDecideUp(env: Env, s: State, q: string, action: Action, u: nat, p: string, cap: int)
    requires BlockedOk(s.acts, s.scalers) && OfFleet(env, s, q) && s.scalers[q].pc == DecidingUp && u !in s.acts
    requires FromStore(s.agents, q, action)
    requires action.SpawnSmallest? ==> |ManagedIds(s.agents, q)| < env.fleet[q].maxNodes
    requires OfFleet(env, s, p) && env.fleet[p].maxNodes <= cap && Upper(s, p, cap)
    ensures Upper(AfterDecideUp(env, s, q, action, u), p, cap)
  {
    var s' := AfterDecideUp(env, s, q, action, u);
    if !action.SpawnSmallest? && !action.UpgradeNode? {
      QuietPc(s, q, Resting, p);
      UpperQuiet(s, s', p, cap);
    } else if q != p {
      QuietStart(s, s', q, u, s'.acts[u], p);
      UpperQuiet(s, s', p, cap);
    } else if action.SpawnSmallest? {
      UpperDirectStep(env, s, s', p, u, s'.acts[u], cap);
    } else {
      UpperUpgradeStep(s, s', p, u, s'.acts[u], cap);
    }
  }

  lemma QuietPoll(env: Env, s: State, q: string, x: PollStep, p: string)
    requires OfFleet(env, s, q) && PollEnabled(env, s, q, x) && !x.DecideUp? && !x.DecideDown? && p in s.scalers
    ensures QuietFor(s, PollApply(env, s, q, x), p)
  {
    CalmPoll(env, s, q, x);
    SameFleetManages(s.agents, PollApply(env, s, q, x).agents);
    CalmPollTally(env, s, q, x, p);
  }

  lemma UpperPoll(env: Env, s: State, q: string, x: PollStep, p: string, cap: int)
    requires Keyed(s.agents) && BlockedOk(s.acts, s.scalers) && OfFleet(env, s, q) && PollEnabled(env, s, q, x)
    requires OfFleet(env, s, p) && env.fleet[p].maxNodes <= cap && Upper(s, p, cap)
    ensures Upper(PollApply(env, s, q, x), p, cap)
  {
    var s' := PollApply(env, s, q, x);
    match x
    case DecideUp(l, action, u) =>
      ManagedCount(s.agents, l, q);
      ChosenFromStore(env.fleet[q], s.agents, l, q, action);
      UpperDecideUp(env, s, q, action, u, p, cap);
    case DecideDown(l, action, u) => QuietDecideDown(env, s, q, action, u, p); UpperQuiet(s, s', p, cap);
    case _ => QuietPoll(env, s, q, x, p); UpperQuiet(s, s', p, cap);
  }

  lemma QuietDecideDown(env: Env, s: State, q: string, action: Action, u: nat, p: string)
    requires OfFleet(env, s, q) && u !in s.acts && p in s.scalers
    ensures QuietFor(s, AfterDecideDown(env, s, q, action, u), p)
  {
  }

  lemma CalmPollTally(env: Env, s: State, q: string, x: PollStep, p: string)
    requires OfFleet(env, s, q) && PollEnabled(env, s, q, x) && !x.DecideUp? && !x.DecideDown? && p in s.scalers
    ensures p in PollApply(env, s, q, x).scalers && PollApply(env, s, q, x).scalers[p].tally == s.scalers[p].tally
  {
  }

  lemma RegisteredIds(m: Store, a: Agent, p: string)
    ensures ManagedIds(m[a.id := a], p) ==
            if a.provider == p then ManagedIds(m, p) + {a.id} else ManagedIds(m, p) - {a.id}
  {
  }

  lemma DropManaged(m: Store, id: string, p: string)
    ensures ManagedIds(m - {id}, p) == ManagedIds(m, p) - {id}
  {
  }

  lemma UpperAct(env: Env, s: State, t: nat, x: ActStep, p: string, cap: int)
    requires Inv(env, s) && Live(env, s, t) && ActEnabled(env, s, t, x)
    requires OfFleet(env, s, p) && Upper(s, p, cap)
    ensures Upper(ActApply(env, s, t, x), p, cap)
  {
    var s' := ActApply(env, s, t, x);
    match x
    case RegisterNode(u) => UpperRegisterStep(env, s, t, u, p, cap);
    case _ => QuietAct(env, s, t, x, p); UpperQuiet(s, s', p, cap);
  }

  /** Outside t the goroutines are the same, but for new ones that only bootstrap. */
  ghost predicate OnlyMoves(acts: map<nat, Activity>, acts': map<nat, Activity>, t: nat) {
    && (forall v :: v in acts && v != t ==> v in acts' && acts'[v] == acts[v])
    && (forall v :: v in acts' && v != t && v !in acts ==> acts'[v].role == Boot)
  }

  lemma ActMoves(env: Env, s: State, t: nat, x: ActStep)
    requires Live(env, s, t) && ActEnabled(env, s, t, x)
    ensures OnlyMoves(s.acts, ActApply(env, s, t, x).acts, t)
  {
    match x
    case RegisterNode(u) => assert AfterRegister(s, t, u).acts.Keys <= s.acts.Keys + {u};
    case Deregister => assert AfterDeregister(s, t).acts == WithPhase(s, t, Terminating).acts;
    case _ =>
  }

  ghost predicate ClaimMoves(a: Activity, b: Activity, managed: set<string>, p: string) {
    && (IsClaim(a, p) && a.node.id in managed ==> IsClaim(b, p) && b.node.id == a.node.id)
    && (IsClaim(b, p) && b.node.id in managed ==> IsClaim(a, p) && a.node.id == b.node.id)
  }

  lemma MovesQuietly(acts: map<nat, Activity>, acts': map<nat, Activity>, t: nat, managed: set<string>, p: string)
    requires t in acts && OnlyMoves(acts, acts', t)
    requires if t in acts' then (IsSlot(acts'[t], p) ==> IsSlot(acts[t], p)) && ClaimMoves(acts[t], acts'[t], managed, p)
             else !(IsClaim(acts[t], p) && acts[t].node.id in managed)
    ensures SlotsShrink(acts, acts', p) && ClaimsKept(acts, acts', managed, p)
  {
  }

  lemma QuietAct(env: Env, s: State, t: nat, x: ActStep, p: string)
    requires Live(env, s, t) && ActEnabled(env, s, t, x) && !x.RegisterNode? && OfFleet(env, s, p)
    requires RoleFits(s.acts[t])
    ensures QuietFor(s, ActApply(env, s, t, x), p)
  {
    var s' := ActApply(env, s, t, x);
    QuietActFleet(env, s, t, x, p);
    ActMoves(env, s, t, x);
    QuietActMove(env, s, t, x, p);
    MovesQuietly(s.acts, s'.acts, t, ManagedIds(s'.agents, p), p);
  }

  lemma QuietActMove(env: Env, s: State, t: nat, x: ActStep, p: string)
    requires Live(env, s, t) && ActEnabled(env, s, t, x) && !x.RegisterNode? && RoleFits(s.acts[t])
    ensures var s' := ActApply(env, s, t, x);
            var managed := ManagedIds(s'.agents, p);
            if t in s'.acts then
              (IsSlot(s'.acts[t], p) ==> IsSlot(s.acts[t], p)) && ClaimMoves(s.acts[t], s'.acts[t], managed, p)
            else !(IsClaim(s.acts[t], p) && s.acts[t].node.id in managed)
  {
  }

  lemma QuietActFleet(env: Env, s: State, t: nat, x: ActStep, p: string)
    requires Live(env, s, t) && ActEnabled(env, s, t, x) && !x.RegisterNode? && OfFleet(env, s, p)
    ensures var s' := ActApply(env, s, t, x);
            && p in s'.scalers
            && s'.scalers[p].tally.overlaps == s.scalers[p].tally.overlaps
            && s'.scalers[p].tally.placed == s.scalers[p].tally.placed
            && ManagedIds(s'.agents, p) <= ManagedIds(s.agents, p)
  {
    match x
    case Mark => SameFleetManages(s.agents, AfterMark(s, t).agents);
    case Deregister => DeregisterTally(s, t, p);
    case _ =>
  }

  lemma DeregisterTally(s: State, t: nat, p: string)
    requires t in s.acts && s.acts[t].p in s.scalers && p in s.scalers
    ensures var s' := AfterDeregister(s, t);
            && p in s'.scalers
            && s'.scalers[p].tally.overlaps == s.scalers[p].tally.overlaps
            && s'.scalers[p].tally.placed == s.scalers[p].tally.placed
  {
    match s.acts[t].role
    case Kill =>
    case Boot =>
    case Upgrade =>
    case _ =>
  }

  /** What registration leaves: the record, and no more slots or claims than before. */
  lemma RegisterShape(env: Env, s: State, t: nat, u: nat, p: string)
    requires Live(env, s, t) && s.acts[t].phase == Registering && u !in s.acts && p in s.scalers
    ensures var s', a := AfterRegister(s, t, u), s.acts[t];
            && ManagedIds(s'.agents, p) ==
               (if a.p == p then ManagedIds(s.agents, p) + {a.node.id} else ManagedIds(s.agents, p) - {a.node.id})
            && OnlyMoves(s.acts, s'.acts, t) && t !in Slots(s'.acts, p)
            && (t in s'.acts ==> !IsClaim(s'.acts[t], p))
  {
    var s', a := AfterRegister(s, t, u), s.acts[t];
    RegisteredIds(s.agents, s'.agents[a.node.id], p);
  }

  lemma RegisterTally(env: Env, s: State, t: nat, u: nat, p: string)
    requires Live(env, s, t) && s.acts[t].phase == Registering && p in s.scalers
    ensures var s' := AfterRegister(s, t, u);
            && p in s'.scalers
            && s'.scalers[p].tally.overlaps == s.scalers[p].tally.overlaps
            && s'.scalers[p].tally.placed == s.scalers[p].tally.placed +
                 if s.acts[t].p == p && s.acts[t].role == Init then 1 else 0
  {
  }

  lemma UpperRegisterStep(env: Env, s: State, t: nat, u: nat, p: string, cap: int)
    requires ActsOk(env, s.acts, s.agents, s.origin, s.called) && HoldersOk(s.acts) && "" !in env.fleet
    requires Live(env, s, t) && s.acts[t].phase == Registering && u !in s.acts
    requires OfFleet(env, s, p) && Upper(s, p, cap)
    ensures Upper(AfterRegister(s, t, u), p, cap)
  {
    RegisterShape(env, s, t, u, p);
    RegisterTally(env, s, t, u, p);
    assert ActOk(env, s.acts[t], s.agents, s.origin, s.called);
    RegisterIntoLoad(s, AfterRegister(s, t, u), t, p, cap);
  }

  lemma RegisterIntoLoad(s: State, s': State, t: nat, p: string, cap: int)
    requires t in s.acts && s.acts[t].phase == Registering && RoleFits(s.acts[t]) && HoldersOk(s.acts)
    requires !IsManaged(s.agents, s.acts[t].node.id) && p != ""
    requires Upper(s, p, cap) && p in s'.scalers
    requires s'.scalers[p].tally.overlaps == s.scalers[p].tally.overlaps
    requires s'.scalers[p].tally.placed == s.scalers[p].tally.placed +
               if s.acts[t].p == p && s.acts[t].role == Init then 1 else 0
    requires ManagedIds(s'.agents, p) ==
             if s.acts[t].p == p then ManagedIds(s.agents, p) + {s.acts[t].node.id}
             else ManagedIds(s.agents, p) - {s.acts[t].node.id}
    requires OnlyMoves(s.acts, s'.acts, t) && t !in Slots(s'.acts, p)
    requires t in s'.acts ==> !IsClaim(s'.acts[t], p)
    ensures Upper(s', p, cap)
  {
    var a := s.acts[t];
    MovesQuietly(s.acts, s'.acts, t, ManagedIds(s'.agents, p), p);
    if a.p == p {
      UpperRegister(s.acts, s'.acts, ManagedIds(s.agents, p), t, a.node.id, p,
                    s.scalers[p].tally, s'.scalers[p].tally, cap);
    } else {
      UpperQuiet(s, s', p, cap);
    }
  }

  lemma QuietOp(env: Env, s: State, x: OpStep, p: string)
    requires OpEnabled(env, s, x) && p in s.scalers && p != ""
    ensures QuietFor(s, OpApply(env, s, x), p)
  {
    var s' := OpApply(env, s, x);
    match x
    case Report(id, ns) => UpdatesKeepFleet(s.agents, id, 0, 0, ns); SameFleetManages(s.agents, s'.agents);
    case Heartbeat(id, n) => UpdatesKeepFleet(s.agents, id, n, s.clock, NO_STATUS); SameFleetManages(s.agents, s'.agents);
    case Manual(id, address) => RegisteredIds(s.agents, s'.agents[id], p);
    case _ =>
  }

  lemma UpperStep(env: Env, s: State, l: Label, p: string, cap: int)
    requires Inv(env, s) && Enabled(env, s, l)
    requires OfFleet(env, s, p) && env.fleet[p].maxNodes <= cap && Upper(s, p, cap)
    ensures Upper(Apply(env, s, l), p, cap)
  {
    match l
    case Tick(_) => UpperQuiet(s, Apply(env, s, l), p, cap);
    case Poll(q, x) => UpperPoll(env, s, q, x, p, cap);
    case Act(t, x) => UpperAct(env, s, t, x, p, cap);
    case Operator(x) => QuietOp(env, s, x, p); UpperQuiet(s, Apply(env, s, l), p, cap);
  }

  function Max(a: int, b: int): int { if a < b then b else a }

  lemma UpperInitial(env: Env, s: State, p: string)
    requires Initial(env, s) && p in env.fleet
    ensures Upper(s, p, Max(env.fleet[p].maxNodes, |ManagedIds(s.agents, p)|))
  {
    var m := ManagedIds(s.agents, p);
    assert Slots(s.acts, p) == {} && Owned(s.acts, m, p) == {} && Targets(s.acts, m, p) == {};
    assert m - Targets(s.acts, m, p) == m;
  }

  lemma UpperStepAt(env: Env, states: seq<State>, labels: seq<Label>, i: nat, p: string, cap: int)
    requires Run(env, states, labels) && i < |labels| && p in env.fleet && env.fleet[p].maxNodes <= cap
    requires Upper(states[i], p, cap)
    ensures Upper(states[i+1], p, cap)
  {
    RunStep(env, states, labels, i);
    UpperStep(env, states[i], labels[i], p, cap);
  }

  lemma {:induction false} UpperRun(env: Env, states: seq<State>, labels: seq<Label>, i: nat, p: string, cap: int)
    requires Run(env, states, labels) && i < |states| && p in env.fleet
    requires env.fleet[p].maxNodes <= cap && Upper(states[0], p, cap)
    ensures Upper(states[i], p, cap)
  {
    if i > 0 {
      UpperRun(env, states, labels, i - 1, p, cap);
      UpperStepAt(env, states, labels, i - 1, p, cap);
    }
  }

  /** The fleet never exceeds its limit (or its starting size) by more than the
      overlaps so far and the nodes InitializeNodes placed, even counting the
      replacements and the spawn still to come. */
  lemma UpperFleetBound(env: Env, states: seq<State>, labels: seq<Label>, i: nat, p: string)
    requires Run(env, states, labels) && i < |states| && p in env.fleet
    ensures p in states[i].scalers
    ensures var s := states[i];
            var managed := ManagedIds(s.agents, p);
            |managed| + |OpenUpgrades(s.acts, managed, p)| + |DirectSpawns(s.acts, p)|
            <= Max(env.fleet[p].maxNodes, |ManagedIds(states[0].agents, p)|)
               + s.scalers[p].tally.overlaps + s.scalers[p].tally.placed
  {
    UpperInitial(env, states[0], p);
    UpperRun(env, states, labels, i, p, Max(env.fleet[p].maxNodes, |ManagedIds(states[0].agents, p)|));
    LoadBounds(states[i].acts, ManagedIds(states[i].agents, p), p);
  }
}
