/** Both fleet bounds are attained: for every fleet, configuration and number k whose
    k cooldowns fit into a drain's timeout, one punctual run has exactly k overlaps and
    ends k agents over the limit, another has exactly k crossed drains and ends k agents
    under the minimum. */
module FleetExamples {
  import opened Models
  import opened AgentRegistry
  import opened NodeTypes
  import opened Scaling
  import opened FleetModel
  import opened FleetBounds
  import opened FleetFloor
  import opened FleetReach
  import opened FleetCounts
  import opened FleetScripts

  // ------------------------------------------------------------------------ the crew

  /** The worker that the t-th drain works on: upgrades take the first one again and
      again, scale-downs the next one each time. */
  function Target(w: Plan, t: nat): nat { if w.upgrades then 0 else t }

  /** How many workers are draining after j decisions. */
  function Drained(w: Plan, j: nat): nat { if w.upgrades && j > 0 then 1 else j }

  ghost predicate Room(w: Plan, j: nat) { if w.upgrades then |w.ids| >= 2 else j <= |w.ids| }

  function Member(w: Plan, d: nat, i: nat): Agent
    requires i < |w.ids|
  {
    if i < d then Worker(w, w.ids[i]).(status := Draining) else Worker(w, w.ids[i])
  }

  function Crew(w: Plan, d: nat): seq<Agent> { seq(|w.ids|, i requires 0 <= i < |w.ids| => Member(w, d, i)) }

  /** The store when the first d workers are draining. */
  ghost function Manned(w: Plan, d: nat): Store {
    map id | id in w.ids ::
      if exists i :: 0 <= i < d && i < |w.ids| && w.ids[i] == id then Worker(w, id).(status := Draining) else Worker(w, id)
  }

  lemma MannedAt(w: Plan, d: nat, i: nat)
    requires Distinct(w.ids) && i < |w.ids|
    ensures w.ids[i] in Manned(w, d) && Manned(w, d)[w.ids[i]] == Member(w, d, i)
  {
    assert w.ids[i] in w.ids;
  }

  lemma {:induction false} AllManaged(l: seq<Agent>, p: string)
    requires forall k :: 0 <= k < |l| ==> l[k].provider == p
    ensures ManagedOf(l, p) == l
  {
    if l != [] {
      AllManaged(l[..|l|-1], p);
      assert l == l[..|l|-1] + [l[|l|-1]];
    }
  }

  lemma CrewIsStored(w: Plan, d: nat)
    requires Distinct(w.ids)
    ensures var l, m := Crew(w, d), Manned(w, d);
            forall i :: 0 <= i < |l| ==> l[i].id in m && m[l[i].id] == l[i]
  {
    forall i | 0 <= i < |w.ids| ensures w.ids[i] in Manned(w, d) && Manned(w, d)[w.ids[i]] == Crew(w, d)[i] {
      MannedAt(w, d, i);
    }
  }

  lemma CrewIsAll(w: Plan, d: nat, id: string)
    requires id in w.ids
    ensures exists i :: 0 <= i < |Crew(w, d)| && Crew(w, d)[i].id == id
  {
    var i :| 0 <= i < |w.ids| && w.ids[i] == id;
    assert Crew(w, d)[i].id == id;
  }

  lemma CrewListed(w: Plan, d: nat)
    requires Distinct(w.ids)
    ensures Listing(Manned(w, d), Crew(w, d)) && ManagedOf(Crew(w, d), "p") == Crew(w, d)
  {
    var l, m := Crew(w, d), Manned(w, d);
    CrewIsStored(w, d);
    assert DistinctIds(l);
    forall id | id in m ensures exists i :: 0 <= i < |l| && l[i].id == id {
      assert id in w.ids;
      CrewIsAll(w, d, id);
    }
    AllManaged(l, "p");
  }

  lemma NextDrainsAt(w: Plan, d: nat, i: nat, next: nat, k: nat)
    requires Distinct(w.ids) && i < |w.ids| && k < |w.ids| && i <= d && next == if i == d then d + 1 else d
    ensures w.ids[k] in Manned(w, d) && WithDraining(Manned(w, d), w.ids[i])[w.ids[k]] == Member(w, next, k)
  {
    MannedAt(w, d, i);
    MannedAt(w, d, k);
    assert w.ids[k] == w.ids[i] ==> k == i;
  }

  /** Draining one more worker, or one that is draining already. */
  lemma NextDrains(w: Plan, d: nat, i: nat, next: nat)
    requires Distinct(w.ids) && i < |w.ids| && i <= d && next == if i == d then d + 1 else d
    ensures WithDraining(Manned(w, d), w.ids[i]) == Manned(w, next)
  {
    var m, m' := WithDraining(Manned(w, d), w.ids[i]), Manned(w, next);
    MannedAt(w, d, i);
    forall id | id in w.ids ensures id in m && m[id] == m'[id] {
      var k :| 0 <= k < |w.ids| && w.ids[k] == id;
      NextDrainsAt(w, d, i, next, k);
      MannedAt(w, next, k);
    }
  }

  lemma {:induction false} IdSetSize(ids: seq<string>)
    requires Distinct(ids)
    ensures |IdSet(ids)| == |ids|
  {
    if ids != [] {
      IdSetSize(ids[1..]);
      assert ids == [ids[0]] + ids[1..];
      assert IdSet(ids) == {ids[0]} + IdSet(ids[1..]);
      assert ids[0] !in IdSet(ids[1..]);
    }
  }

  lemma CrewIds(w: Plan, d: nat)
    requires Distinct(w.ids)
    ensures ManagedIds(Manned(w, d), "p") == IdSet(w.ids) && |IdSet(w.ids)| == |w.ids|
  {
    IdSetSize(w.ids);
  }

  // ---------------------------------------------------------------------- the drains

  /** The time of the t-th decision: after one window, then every cooldown. */
  function Moment(w: Plan, t: nat): nat {
    if t == 0 then w.interval else Moment(w, t - 1) + 2 * w.interval
  }

  lemma {:induction false} MomentIs(w: Plan, t: nat)
    ensures Moment(w, t) == w.interval + t * (2 * w.interval)
  {
    if t > 0 {
      MomentIs(w, t - 1);
      assert t * (2 * w.interval) == (t - 1) * (2 * w.interval) + 2 * w.interval;
    }
  }

  lemma {:induction false} MomentsGrow(w: Plan, t: nat, u: nat)
    requires t <= u
    ensures Moment(w, t) <= Moment(w, u) && (t < u ==> Moment(w, t) + 2 * w.interval <= Moment(w, u))
    decreases u
  {
    if t < u { MomentsGrow(w, t, u - 1); }
  }

  /** The t-th drain while it waits for its node. */
  ghost function WaitingDrain(w: Plan, t: nat): Activity {
    DrainOf(w, Waiting, Worker(w, if Target(w, t) < |w.ids| then w.ids[Target(w, t)] else ""), Moment(w, t))
  }

  ghost function Working(w: Plan, j: nat): map<nat, Activity> { map t: nat | t < j :: WaitingDrain(w, t) }

  lemma WorkInTime(w: Plan, j: nat, clock: int)
    requires clock <= w.interval + DRAIN_TIMEOUT
    ensures forall t :: t in Working(w, j) ==> !Late(Working(w, j)[t], clock)
  {
    forall t | t in Working(w, j) ensures !Late(Working(w, j)[t], clock) { MomentsGrow(w, 0, t); }
  }

  /** What holds after j decisions. */
  ghost predicate Base(w: Plan, j: nat, v: View) {
    && v.agents == Manned(w, Drained(w, j)) && v.acts == Working(w, j)
    && v.seen == IdSet(w.ids) && v.launched == Instances(w).Values
    && v.sc.tally.placed == 0
    && (if w.upgrades then v.sc.tally.overlaps else v.sc.tally.crossed) == if j == 0 then 0 else j - 1
  }

  ghost predicate Tracks(w: Plan, h: History, d: nat, t: int, first: int) {
    forall i :: d <= i < |w.ids| ==> w.ids[i] in h && h[w.ids[i]] == Track(w, t, first)
  }

  /** A decision is due. */
  ghost predicate Ready(w: Plan, j: nat, v: View) {
    && Base(w, j, v) && v.clock == Moment(w, j) && v.sc.pc == Deciding(w) && v.sc.lastPoll == Some(v.clock)
    && (w.upgrades ==> Tracks(w, v.sc.history, Drained(w, j), v.clock, 0))
  }

  /** The last of j decisions has been taken. */
  ghost predicate Rested(w: Plan, j: nat, v: View) {
    && j > 0 && Base(w, j, v) && v.clock == Moment(w, j - 1) && v.sc.pc == Resting && v.sc.lastPoll == Some(v.clock)
    && LastDecision(w, v.sc) == Some(v.clock)
    && if w.upgrades then Tracks(w, v.sc.history, Drained(w, j), v.clock, 0) else v.sc.history == map[]
  }

  // --------------------------------------------------------------------------- polls

  ghost predicate Fresh(w: Plan, h: History, d: nat, t: int, first: int) {
    if t == first then forall i :: d <= i < |w.ids| ==> w.ids[i] !in h
    else first + w.interval <= t && Tracks(w, h, d, t - w.interval, first)
  }

  lemma CrewPolled(w: Plan, v: View, d: nat, first: int)
    requires Sound(w) && d < |w.ids| && v.agents == Manned(w, d) && Fresh(w, v.sc.history, d, v.clock, first)
    ensures forall k :: 0 <= k < |Crew(w, d)| ==> Polled(w, v, Crew(w, d)[k], first)
    ensures Crew(w, d)[d].status != Draining
  {
    forall k | 0 <= k < |w.ids| ensures Polled(w, v, Crew(w, d)[k], first) {
      MannedAt(w, d, k);
      if d <= k { SameReply(w, v.agents, w.ids[k]); }
    }
  }

  lemma CrewTracked(w: Plan, h: History, d: nat, t: int, first: int)
    requires forall k :: 0 <= k < |Crew(w, d)| ==> HasTrack(w, h, Crew(w, d)[k], t, first)
    ensures Tracks(w, h, d, t, first)
  {
    forall i | d <= i < |w.ids| ensures w.ids[i] in h && h[w.ids[i]] == Track(w, t, first) {
      assert HasTrack(w, h, Crew(w, d)[i], t, first);
    }
  }

  lemma PollCrew(w: Plan, v: View, d: nat, first: int) returns (h: History)
    requires Sound(w) && Reaches(w, v) && d < |w.ids| && v.agents == Manned(w, d) && v.sc.pc == Resting
    requires first <= v.clock && Fresh(w, v.sc.history, d, v.clock, first)
    requires v.sc.lastPoll.Some? ==> v.sc.lastPoll.value + w.interval <= v.clock
    ensures Reaches(w, PolledView(v, Checking(if v.clock == first then Neutral else Toward(w)), h))
    ensures Tracks(w, h, d, v.clock, first)
  {
    var l := Crew(w, d);
    assert Listing(v.agents, l) by { CrewListed(w, d); }
    CrewPolled(w, v, d, first);
    h := PollAll(w, v, l, first);
    CrewTracked(w, h, d, v.clock, first);
  }

  lemma GoInterval(w: Plan, v: View, j: nat)
    requires Reaches(w, v) && v.acts == Working(w, j) && v.sc.lastPoll == Some(v.clock)
    requires j > 0 ==> v.clock + w.interval <= w.interval + DRAIN_TIMEOUT
    ensures Reaches(w, v.(clock := v.clock + w.interval))
  {
    if j > 0 { WorkInTime(w, j, v.clock + w.interval); }
    GoTick(w, v, w.interval);
  }

  ghost function AtStart(w: Plan, h: History): View { PolledView(StartView(w), Resting, h) }

  lemma FirstPoll(w: Plan) returns (h: History)
    requires Sound(w)
    ensures Reaches(w, AtStart(w, h)) && Tracks(w, h, 0, 0, 0)
  {
    Begin(w);
    assert StartView(w).agents == Manned(w, 0);
    h := PollCrew(w, StartView(w), 0, 0);
  }

  /** A poll of those still at work, and its check. */
  lemma PollAndCheck(w: Plan, v: View, d: nat, first: int) returns (h: History)
    requires Sound(w) && Reaches(w, v) && d < |w.ids| && v.agents == Manned(w, d) && v.sc.pc == Resting
    requires first + w.interval <= v.clock && Tracks(w, v.sc.history, d, v.clock - w.interval, first)
    requires v.sc.lastPoll.Some? ==> v.sc.lastPoll.value + w.interval <= v.clock
    ensures var cooled := Cooled(LastDecision(w, v.sc), v.clock, w.cfg.cooldown);
            Reaches(w, PolledView(v, if cooled then Deciding(w) else Resting, h))
    ensures Tracks(w, h, d, v.clock, first)
  {
    h := PollCrew(w, v, d, first);
    GoCheck(w, PolledView(v, Checking(Toward(w)), h));
  }

  /** The first verdict, one window after the first poll. */
  lemma Opening(w: Plan) returns (v: View)
    requires Sound(w)
    ensures Reaches(w, v) && Ready(w, 0, v)
  {
    var h := FirstPoll(w);
    v := AtStart(w, h);
    assert v.agents == Manned(w, 0) && v.acts == Working(w, 0);
    GoInterval(w, v, 0);
    v := v.(clock := w.interval);
    h := PollAndCheck(w, v, 0, 0);
    v := PolledView(v, Deciding(w), h);
  }

  /** The poll in the middle of a cooldown decides nothing. */
  lemma CoolingPoll(w: Plan, v: View, d: nat, since: int) returns (h: History, first: int)
    requires Sound(w) && Reaches(w, v) && d < |w.ids| && v.agents == Manned(w, d) && v.sc.pc == Resting
    requires v.clock == since + w.interval && LastDecision(w, v.sc) == Some(since) && v.sc.lastPoll == Some(since)
    requires if w.upgrades then 0 <= since && Tracks(w, v.sc.history, d, since, 0) else v.sc.history == map[]
    ensures Reaches(w, PolledView(v, Resting, h)) && Tracks(w, h, d, v.clock, first)
    ensures first == if w.upgrades then 0 else v.clock
  {
    first := if w.upgrades then 0 else v.clock;
    if w.upgrades {
      h := PollAndCheck(w, v, d, first);
    } else {
      h := PollCrew(w, v, d, first);
    }
  }

  /** Half a cooldown after j decisions. */
  ghost predicate Halfway(w: Plan, j: nat, v: View, first: int) {
    && j > 0 && Base(w, j, v) && v.clock == Moment(w, j - 1) + w.interval && v.sc.pc == Resting
    && v.sc.lastPoll == Some(v.clock) && LastDecision(w, v.sc) == Some(Moment(w, j - 1))
    && first <= v.clock && (w.upgrades ==> first == 0) && Tracks(w, v.sc.history, Drained(w, j), v.clock, first)
  }

  /** The clock and the poll loop do not matter to it. */
  lemma KeepsBase(w: Plan, j: nat, v: View, v': View)
    requires Base(w, j, v) && v' == v.(clock := v'.clock, sc := v'.sc) && v'.sc.tally == v.sc.tally
    ensures Base(w, j, v')
  {
  }

  lemma ToHalfway(w: Plan, j: nat, v: View) returns (v': View, first: int)
    requires Sound(w) && Reaches(w, v) && Rested(w, j, v) && Drained(w, j) < |w.ids|
    requires Moment(w, j) <= w.interval + DRAIN_TIMEOUT
    ensures Reaches(w, v') && Halfway(w, j, v', first)
  {
    GoInterval(w, v, j);
    var now, h := v.(clock := v.clock + w.interval), v.sc.history;
    h, first := CoolingPoll(w, now, Drained(w, j), v.clock);
    v' := PolledView(now, Resting, h);
    KeepsBase(w, j, v, v');
  }

  /** A cooldown later a decision is due again. */
  lemma ToReady(w: Plan, j: nat, v: View, first: int) returns (v': View)
    requires Sound(w) && Reaches(w, v) && Halfway(w, j, v, first) && Drained(w, j) < |w.ids|
    requires Moment(w, j) <= w.interval + DRAIN_TIMEOUT
    ensures Reaches(w, v') && Ready(w, j, v')
  {
    GoInterval(w, v, j);
    var now := v.(clock := v.clock + w.interval);
    var h := PollAndCheck(w, now, Drained(w, j), first);
    v' := PolledView(now, Deciding(w), h);
    KeepsBase(w, j, v, v');
  }

  // ----------------------------------------------------------------------- decisions

  lemma UpgradeIsChosen(w: Plan, d: nat)
    requires Sound(w) && w.upgrades
    ensures IsChoice(w, Crew(w, d), Member(w, d, 0))
  {
    var name :| IsLargestType(w.cfg.nodeTypes, name) && name != w.kind;
    var l := Crew(w, d);
    assert l[0] == Member(w, d, 0) && Upgradable(l[0], name);
    assert IsUpgradeChoice(l, name, Some(l[0]));
  }

  lemma RemovalIsChosen(w: Plan, d: nat)
    requires Sound(w) && !w.upgrades && d < |w.ids|
    ensures IsChoice(w, Crew(w, d), Member(w, d, d))
  {
    var l := Crew(w, d);
    assert forall k :: 0 <= k < |l| ==> l[k].Pressure() == l[d].Pressure() && (Removable(l[k]) <==> d <= k);
    assert l[d] == Member(w, d, d);
    assert IsRemovalChoice(l, Some(l[d]));
  }

  lemma Counted(w: Plan, j: nat, v: View)
    requires Sound(w) && Base(w, j, v) && Room(w, j + 1)
    ensures if w.upgrades then w.ids[0] in Targets(v.acts, ManagedIds(v.agents, "p"), "p") <==> j > 0
            else Drains(v.acts, "p") != {} <==> j > 0
  {
    var m := ManagedIds(v.agents, "p");
    CrewIds(w, Drained(w, j));
    if j > 0 {
      assert 0 in v.acts && v.acts[0] == WaitingDrain(w, 0);
      assert 0 in Drains(v.acts, "p");
      if w.upgrades { assert 0 in Owned(v.acts, m, "p"); }
    }
  }

  /** The decision and its drain's mark. */
  ghost function Taken(w: Plan, v: View, a: Agent, t: nat): View { Marked(Decided(w, v, a, t), t) }

  lemma MoreWork(w: Plan, j: nat, a: Agent)
    requires j < |w.ids| || w.upgrades
    requires w.ids != [] && NodeOf(a) == NodeOf(Worker(w, w.ids[Target(w, j)]))
    ensures var marking := DrainOf(w, Marking, a, Moment(w, j));
            Working(w, j)[j := marking][j := marking.(phase := Waiting, since := Moment(w, j))] == Working(w, j + 1)
  {
    var marking := DrainOf(w, Marking, a, Moment(w, j));
    assert marking.(phase := Waiting, since := Moment(w, j)) == WaitingDrain(w, j);
  }

  lemma TakenBase(w: Plan, j: nat, v: View)
    requires Sound(w) && Ready(w, j, v) && Room(w, j + 1)
    ensures Base(w, j + 1, Taken(w, v, Member(w, Drained(w, j), Target(w, j)), j))
  {
    var i := Target(w, j);
    var a := Member(w, Drained(w, j), i);
    Counted(w, j, v);
    NextDrains(w, Drained(w, j), i, Drained(w, j + 1));
    MoreWork(w, j, a);
    var v' := Taken(w, v, a, j);
    assert v'.acts == Working(w, j + 1);
    assert v'.agents == Manned(w, Drained(w, j + 1));
  }

  lemma GoTaken(w: Plan, v: View, l: seq<Agent>, a: Agent, t: nat)
    requires Reaches(w, v) && Listing(v.agents, l) && t !in v.acts && v.sc.pc == Deciding(w)
    requires IsChoice(w, ManagedOf(l, "p"), a)
    ensures Reaches(w, Taken(w, v, a, t))
  {
    GoDecide(w, v, l, a, t);
    GoMark(w, Decided(w, v, a, t), t);
  }

  lemma Choice(w: Plan, j: nat)
    requires Sound(w) && Room(w, j + 1)
    ensures Target(w, j) < |w.ids|
    ensures IsChoice(w, ManagedOf(Crew(w, Drained(w, j)), "p"), Member(w, Drained(w, j), Target(w, j)))
  {
    CrewListed(w, Drained(w, j));
    if w.upgrades { UpgradeIsChosen(w, Drained(w, j)); } else { RemovalIsChosen(w, Drained(w, j)); }
  }

  /** After a scale-down's mark the histories are emptied. */
  ghost function Settled(w: Plan, v: View): View { if w.upgrades then v else Emptied(v) }

  lemma TakenScaler(w: Plan, v: View, a: Agent, t: nat)
    ensures var sc := Settled(w, Taken(w, v, a, t)).sc;
            && sc.pc == Resting && sc.lastPoll == v.sc.lastPoll && LastDecision(w, sc) == Some(v.clock)
            && sc.history == if w.upgrades then v.sc.history else map[]
    ensures Settled(w, Taken(w, v, a, t)).clock == v.clock
  {
  }

  lemma TakenRests(w: Plan, j: nat, next: nat, v: View)
    requires Sound(w) && Ready(w, j, v) && Room(w, next) && next == j + 1
    ensures Rested(w, next, Settled(w, Taken(w, v, Member(w, Drained(w, j), Target(w, j)), j)))
  {
    var a := Member(w, Drained(w, j), Target(w, j));
    TakenBase(w, j, v);
    TakenScaler(w, v, a, j);
    assert Base(w, next, Settled(w, Taken(w, v, a, j)));
  }

  lemma Decide(w: Plan, j: nat, next: nat, v: View) returns (v': View)
    requires Sound(w) && Reaches(w, v) && Ready(w, j, v) && Room(w, next) && next == j + 1
    ensures Reaches(w, v') && Rested(w, next, v')
  {
    Choice(w, j);
    var a := Member(w, Drained(w, j), Target(w, j));
    assert Listing(v.agents, Crew(w, Drained(w, j))) by { CrewListed(w, Drained(w, j)); }
    GoTaken(w, v, Crew(w, Drained(w, j)), a, j);
    TakenRests(w, j, next, v);
    v' := Taken(w, v, a, j);
    if !w.upgrades { GoEmpty(w, v'); }
    v' := Settled(w, v');
  }

  lemma DecideNext(w: Plan, j: nat, next: nat, v: View) returns (v': View)
    requires Sound(w) && Reaches(w, v) && Rested(w, j, v) && Room(w, next) && next == j + 1
    requires Moment(w, j) <= w.interval + DRAIN_TIMEOUT
    ensures Reaches(w, v') && Rested(w, next, v')
  {
    var half, first := ToHalfway(w, j, v);
    var ready := ToReady(w, j, half, first);
    v' := Decide(w, j, next, ready);
  }

  lemma FirstDecision(w: Plan) returns (v: View)
    requires Sound(w) && Room(w, 1)
    ensures Reaches(w, v) && Rested(w, 1, v)
  {
    var ready := Opening(w);
    v := Decide(w, 0, 1, ready);
  }

  lemma {:induction false} Decisions(w: Plan, j: nat) returns (v: View)
    requires Sound(w) && 0 < j && Room(w, j) && Moment(w, j - 1) <= w.interval + DRAIN_TIMEOUT
    ensures Reaches(w, v) && Rested(w, j, v)
  {
    if j == 1 {
      v := FirstDecision(w);
    } else {
      var i := j - 1;
      assert Moment(w, i - 1) <= Moment(w, i);
      var before := Decisions(w, i);
      v := DecideNext(w, i, j, before);
    }
  }

  // ------------------------------------------------------------------- how drains end

  /** Drains t to k still wait, and no other goroutine is a drain. */
  ghost predicate Ending(w: Plan, t: nat, k: nat, v: View) {
    && (forall u :: t <= u <= k ==> u in v.acts && v.acts[u] == WaitingDrain(w, u))
    && (forall u :: u in v.acts && (u < t || k < u) ==> !BeforeDeregister(v.acts[u]))
    && v.sc.lastPoll == Some(Moment(w, k)) && v.sc.tally.placed == 0
    && (if w.upgrades then v.sc.tally.overlaps else v.sc.tally.crossed) == k
    && v.clock == if t <= k then Moment(w, k) else Moment(w, k) + DRAIN_TICK
  }

  /** The last drain's first look at its node is a tick of it later. */
  lemma AwaitLast(w: Plan, t: nat, k: nat, v: View) returns (v': View)
    requires Sound(w) && Reaches(w, v) && t <= k && Ending(w, t, k, v)
    ensures v' == v.(clock := if t < k then v.clock else v.clock + DRAIN_TICK)
    ensures Reaches(w, v') && Moment(w, t) + DRAIN_TICK <= v'.clock
  {
    v' := v.(clock := if t < k then v.clock else v.clock + DRAIN_TICK);
    if t < k {
      MomentsGrow(w, t, k);
    } else {
      GoTick(w, v, DRAIN_TICK);
    }
  }

  ghost function EndedDrain(v: View, t: nat): View
    requires t in v.acts
  {
    Gone(WithPhaseOf(v, t, Deregistering), t)
  }

  lemma GoEndDrain(w: Plan, v: View, t: nat)
    requires Reaches(w, v) && At(v, t, Waiting) && v.acts[t].since + DRAIN_TICK <= v.clock
    requires v.acts[t].role == Upgrade || v.acts[t].role == ScaleDown
    ensures Reaches(w, EndedDrain(v, t))
  {
    GoIdle(w, v, t);
    GoDeregister(w, WithPhaseOf(v, t, Deregistering), t);
  }

  lemma EndedEnding(w: Plan, t: nat, k: nat, v: View)
    requires t <= k && Ending(w, t, k, v)
    ensures Ending(w, t + 1, k, EndedDrain(v.(clock := if t < k then v.clock else v.clock + DRAIN_TICK), t))
  {
    var v' := EndedDrain(v.(clock := if t < k then v.clock else v.clock + DRAIN_TICK), t);
    assert v'.acts == v.acts[t := WaitingDrain(w, t).(phase := Terminating)];
  }

  /** Drain t sees its node idle and deregisters it. */
  lemma EndDrain(w: Plan, t: nat, k: nat, v: View) returns (v': View)
    requires Sound(w) && Reaches(w, v) && t <= k && Ending(w, t, k, v)
    ensures Reaches(w, v') && Ending(w, t + 1, k, v')
    ensures v'.agents == v.agents - {WaitingDrain(w, t).node.id}
    ensures t in v'.acts && v'.acts[t] == WaitingDrain(w, t).(phase := Terminating)
    ensures v'.seen == v.seen && v'.launched == v.launched
  {
    v' := AwaitLast(w, t, k, v);
    GoEndDrain(w, v', t);
    EndedEnding(w, t, k, v);
    v' := EndedDrain(v', t);
  }

  lemma RestedEnding(w: Plan, j: nat, k: nat, v: View)
    requires Sound(w) && Rested(w, j, v) && j == k + 1
    ensures Ending(w, 0, k, v)
  {
  }

  lemma OneFewer(m: Store, m': Store, ids: seq<string>, t: nat)
    requires Distinct(ids) && t < |ids| && m' == m - {ids[t]} && ManagedIds(m, "p") == IdSet(ids[t..])
    ensures ManagedIds(m', "p") == IdSet(ids[t+1..])
  {
    DropManaged(m, ids[t], "p");
    assert ids[t..] == [ids[t]] + ids[t+1..];
  }

  lemma {:induction false} EndScaleDowns(w: Plan, t: nat, k: nat, v: View) returns (v': View)
    requires Sound(w) && !w.upgrades && Reaches(w, v) && t <= k + 1 <= |w.ids| && Ending(w, t, k, v)
    requires ManagedIds(v.agents, "p") == IdSet(w.ids[t..])
    ensures Reaches(w, v') && Ending(w, k + 1, k, v') && ManagedIds(v'.agents, "p") == IdSet(w.ids[k+1..])
    decreases k + 1 - t
  {
    v' := v;
    if t <= k {
      var ended := EndDrain(w, t, k, v);
      OneFewer(v.agents, ended.agents, w.ids, t);
      v' := EndScaleDowns(w, t + 1, k, ended);
    }
  }

  // ------------------------------------------------------------ how upgrades end

  ghost function Relaunching(v: View, t: nat): View
    requires t in v.acts
  {
    v.(acts := v.acts[t := v.acts[t].(phase := Launching, node := NO_NODE)])
  }

  ghost function Brought(v: View, t: nat, node: Node, u: nat): View
    requires t in v.acts
  {
    Registered(Launched(Relaunching(v, t), t, node), t, u)
  }

  lemma GoBring(w: Plan, v: View, t: nat, node: Node, u: nat)
    requires Reaches(w, v) && At(v, t, Terminating) && v.acts[t].role == Upgrade && u !in v.acts
    requires node.id != "" && node.id !in v.seen && Instance("p", node.providerID) !in v.launched
    requires Asked(w.cfg.nodeTypes, Upgrade, node.instanceType)
    ensures Reaches(w, Brought(v, t, node, u))
  {
    GoTerminate(w, v, t);
    GoLaunch(w, Relaunching(v, t), t, node);
    GoRegister(w, Launched(Relaunching(v, t), t, node), t, u);
  }

  lemma BroughtEnding(w: Plan, v: View, t: nat, k: nat, node: Node, u: nat)
    requires t <= k && Ending(w, t + 1, k, v) && u !in v.acts && t in v.acts && v.acts[t].phase == Terminating
    ensures Ending(w, t + 1, k, Brought(v, t, node, u))
  {
    var a := v.acts[t].(phase := Resetting, node := node);
    assert Brought(v, t, node, u).acts == v.acts[t := a][u := Activity(Boot, Bootstrapping, "p", node, v.clock, v.clock)];
  }

  /** A node that was upgraded is replaced. */
  lemma Replace(w: Plan, t: nat, k: nat, v: View) returns (v': View, id: string)
    requires Sound(w) && w.upgrades && Reaches(w, v) && t <= k && Ending(w, t + 1, k, v)
    requires t in v.acts && v.acts[t] == WaitingDrain(w, t).(phase := Terminating) && CanLaunch(w.cfg.nodeTypes, Upgrade)
    ensures Reaches(w, v') && Ending(w, t + 1, k, v')
    ensures id !in v.seen && v'.seen == v.seen + {id}
    ensures ManagedIds(v'.agents, "p") == ManagedIds(v.agents, "p") + {id}
  {
    var node := FreshNode(v.seen, v.launched, "p", w.cfg.nodeTypes, Upgrade);
    var u := AboveAll(v.acts.Keys);
    assert u !in v.acts;
    GoBring(w, v, t, node, u);
    BroughtEnding(w, v, t, k, node, u);
    v', id := Brought(v, t, node, u), node.id;
    RegisteredIds(v.agents, v'.agents[id], "p");
  }

  /** t upgrades of the first worker are over: it is gone, and each has brought a node. */
  ghost predicate Replaced(w: Plan, t: nat, v: View) {
    var m := ManagedIds(v.agents, "p");
    && w.ids != [] && m <= v.seen && w.ids[0] in v.seen
    && |m - {w.ids[0]}| == |w.ids| - 1 + t && (t > 0 ==> w.ids[0] !in m)
  }

  lemma OneReplaced(m: set<string>, m': set<string>, gone: string, id: string)
    requires m' == m - {gone} + {id} && id !in m && id != gone
    ensures |m' - {gone}| == |m - {gone}| + 1
  {
    assert m' - {gone} == (m - {gone}) + {id};
  }

  lemma {:induction false} EndUpgrades(w: Plan, t: nat, k: nat, v: View) returns (v': View)
    requires Sound(w) && w.upgrades && Reaches(w, v) && t <= k + 1 && Ending(w, t, k, v)
    requires CanLaunch(w.cfg.nodeTypes, Upgrade) && Replaced(w, t, v)
    ensures Reaches(w, v') && Ending(w, k + 1, k, v') && Replaced(w, k + 1, v')
    decreases k + 1 - t
  {
    if t == k + 1 { return v; }
    var ended := EndDrain(w, t, k, v);
    DropManaged(v.agents, w.ids[0], "p");
    var id;
    v', id := Replace(w, t, k, ended);
    OneReplaced(ManagedIds(v.agents, "p"), ManagedIds(v'.agents, "p"), w.ids[0], id);
    v' := EndUpgrades(w, t + 1, k, v');
  }

  // -------------------------------------------------------------------- both bounds

  ghost predicate AllPunctual(w: Plan, states: seq<State>) {
    forall i :: 0 <= i < |states| ==> Punctual(w, states[i])
  }

  /** The history variables of the last state count the events of the run. */
  lemma Shown(w: Plan, v: View) returns (states: seq<State>, labels: seq<Label>)
    requires Sound(w) && Reaches(w, v)
    ensures Shows(states, labels, w, v) && ManagedIds(states[0].agents, "p") == IdSet(w.ids)
    ensures Count(states, labels, |labels|, "p", Overlap) == v.sc.tally.overlaps
    ensures Count(states, labels, |labels|, "p", Placement) == v.sc.tally.placed
    ensures Count(states, labels, |labels|, "p", CrossedDrain) == v.sc.tally.crossed
  {
    states, labels :| Shows(states, labels, w, v);
    TallyRun(EnvOf(w), states, labels, |labels|, "p");
    assert Looks(states[|labels|], v);
  }

  lemma AllDecided(w: Plan, j: nat, k: nat) returns (v: View)
    requires Sound(w) && j == k + 1 && Room(w, j) && k * w.cfg.cooldown <= DRAIN_TIMEOUT
    ensures Reaches(w, v) && Ending(w, 0, k, v) && v.seen == IdSet(w.ids)
    ensures ManagedIds(v.agents, "p") == IdSet(w.ids)
  {
    MomentIs(w, k);
    v := Decisions(w, j);
    RestedEnding(w, j, k, v);
    CrewIds(w, Drained(w, j));
  }

  lemma StartsReplaced(w: Plan, k: nat, v: View)
    requires Sound(w) && v.seen == IdSet(w.ids) && ManagedIds(v.agents, "p") == IdSet(w.ids)
    ensures Replaced(w, 0, v)
  {
    IdSetSize(w.ids);
    assert w.ids[0] in IdSet(w.ids);
    WithoutOne(IdSet(w.ids), w.ids[0]);
  }

  lemma NothingToDrop(m: set<string>, id: string)
    requires id !in m
    ensures m - {id} == m
  {
  }

  lemma AllReplaced(w: Plan, k: nat) returns (v: View)
    requires Sound(w) && w.upgrades && |w.ids| >= 2 && CanLaunch(w.cfg.nodeTypes, Upgrade)
    requires k * w.cfg.cooldown <= DRAIN_TIMEOUT
    ensures Reaches(w, v) && Ending(w, k + 1, k, v) && |ManagedIds(v.agents, "p")| == |w.ids| + k
  {
    var decided := AllDecided(w, k + 1, k);
    StartsReplaced(w, k, decided);
    v := EndUpgrades(w, 0, k, decided);
    NothingToDrop(ManagedIds(v.agents, "p"), w.ids[0]);
  }

  /** The upper bound is attained.  Every cooldown one worker of a fleet at its limit is
      upgraded again while its first drain still waits: k overlaps, and in the end k
      agents more than the limit. */
  lemma LimitIsExceeded(w: Plan, k: nat) returns (states: seq<State>, labels: seq<Label>)
    requires Sound(w) && w.upgrades && |w.ids| >= 2 && CanLaunch(w.cfg.nodeTypes, Upgrade)
    requires k * w.cfg.cooldown <= DRAIN_TIMEOUT
    ensures Run(EnvOf(w), states, labels) && AllPunctual(w, states)
    ensures |ManagedIds(states[0].agents, "p")| == w.cfg.maxNodes
    ensures |ManagedIds(states[|labels|].agents, "p")| == w.cfg.maxNodes + k
    ensures Count(states, labels, |labels|, "p", Overlap) == k && Count(states, labels, |labels|, "p", Placement) == 0
    ensures states[|labels|].clock == w.interval + k * w.cfg.cooldown + DRAIN_TICK
  {
    MomentIs(w, k);
    IdSetSize(w.ids);
    var v := AllReplaced(w, k);
    states, labels := Shown(w, v);
  }

  /** The lower bound is attained.  The workers of a fleet one above its minimum are
      drained one by one while the first drain still waits: k crossed drains, and in
      the end k agents less than the minimum. */
  lemma MinimumIsUndercut(w: Plan, k: nat) returns (states: seq<State>, labels: seq<Label>)
    requires Sound(w) && !w.upgrades && k <= w.cfg.minNodes && k * w.cfg.cooldown <= DRAIN_TIMEOUT
    ensures Run(EnvOf(w), states, labels) && AllPunctual(w, states)
    ensures |ManagedIds(states[0].agents, "p")| == w.cfg.minNodes + 1
    ensures |ManagedIds(states[|labels|].agents, "p")| == w.cfg.minNodes - k && Drains(states[|labels|].acts, "p") == {}
    ensures Count(states, labels, |labels|, "p", CrossedDrain) == k
    ensures states[|labels|].clock == w.interval + k * w.cfg.cooldown + DRAIN_TICK
  {
    MomentIs(w, k);
    IdSetSize(w.ids);
    IdSetSize(w.ids[k+1..]);
    var v := AllDecided(w, k + 1, k);
    assert w.ids[0..] == w.ids;
    v := EndScaleDowns(w, 0, k, v);
    states, labels := Shown(w, v);
  }
}
