/** The decisions of one autoscaler (pkg/resource/scaler.go), run without
    interference: the pressure histories, the verdict, and what a verdict leads to.
    The predicates and functions here are what the concurrent model steps with. */
module Scaling {
  import opened Models
  import opened AgentRegistry
  import opened NodeTypes

  datatype Config = Config(
    cpuUpper: real, cpuLower: real, memUpper: real, memLower: real,
    window: int, cooldown: int, maxNodes: int, minNodes: int,
    nodeTypes: seq<NodeType>)

  datatype Direction = Up | Neutral | Down

  datatype Sample = Sample(cpu: real, mem: real, at: int)

  type History = map<string, seq<Sample>>

  // --------------------------------------------------------- pressure histories

  predicate Recent(s: Sample, now: int, window: int) { now - s.at <= window }

  /** The samples no older than the window, in their order. */
  function Kept(h: seq<Sample>, now: int, window: int): seq<Sample> {
    if h == [] then [] else
    Kept(h[..|h|-1], now, window) + if Recent(h[|h|-1], now, window) then [h[|h|-1]] else []
  }

  function Recorded(hist: History, id: string, s: Sample, window: int): History {
    hist[id := Kept((if id in hist then hist[id] else []) + [s], s.at, window)]
  }

  lemma {:induction false} KeptMembers(h: seq<Sample>, now: int, window: int, s: Sample)
    ensures s in Kept(h, now, window) <==> s in h && Recent(s, now, window)
  {
    if h != [] {
      KeptMembers(h[..|h|-1], now, window, s);
      assert h == h[..|h|-1] + [h[|h|-1]];
    }
  }

  /** Consecutive samples are at least gap apart (gap 0: in time order). */
  ghost predicate Spaced(h: seq<Sample>, gap: nat) {
    forall i :: 0 < i < |h| ==> h[i-1].at + gap <= h[i].at
  }

  lemma {:induction false} SpacedSpan(h: seq<Sample>, gap: nat, i: nat, j: nat)
    requires Spaced(h, gap) && i <= j < |h|
    ensures h[i].at + (j - i) * gap <= h[j].at
    decreases j
  {
    if i < j {
      SpacedSpan(h, gap, i, j - 1);
      assert (j - i) * gap == (j - 1 - i) * gap + gap;
    }
  }

  lemma {:induction false} SpacedSorted(h: seq<Sample>, gap: nat, i: nat, j: nat)
    requires Spaced(h, gap) && i <= j < |h|
    ensures h[i].at <= h[j].at
    decreases j
  {
    if i < j { SpacedSorted(h, gap, i, j - 1); }
  }

  /** The first k samples are too old and the others are not. */
  ghost predicate SplitsAt(h: seq<Sample>, k: nat, now: int, window: int) {
    && k <= |h|
    && (forall i :: 0 <= i < k ==> !Recent(h[i], now, window))
    && (forall i :: k <= i < |h| ==> Recent(h[i], now, window))
  }

  lemma {:induction false} KeptOfSplit(h: seq<Sample>, k: nat, now: int, window: int)
    requires SplitsAt(h, k, now, window)
    ensures Kept(h, now, window) == h[k..]
  {
    if h != [] {
      var n := |h| - 1;
      var front := h[..n];
      if k == |h| {
        assert SplitsAt(front, n, now, window) && !Recent(h[n], now, window);
        KeptOfSplit(front, n, now, window);
        assert front[n..] == [] && h[k..] == [];
        assert Kept(h, now, window) == Kept(front, now, window) + [];
      } else {
        assert SplitsAt(front, k, now, window) && Recent(h[n], now, window);
        KeptOfSplit(front, k, now, window);
        assert Kept(h, now, window) == Kept(front, now, window) + [h[n]];
        assert h[k..] == front[k..] + [h[n]];
      }
    }
  }

  lemma {:induction false} SplitPoint(h: seq<Sample>, gap: nat, now: int, window: int) returns (k: nat)
    requires Spaced(h, gap)
    ensures SplitsAt(h, k, now, window)
  {
    if h == [] { return 0; }
    var n := |h| - 1;
    if Recent(h[n], now, window) {
      k := SplitPoint(h[..n], gap, now, window);
    } else {
      forall i | 0 <= i < |h| ensures !Recent(h[i], now, window) {
        SpacedSorted(h, gap, i, n);
      }
      k := |h|;
    }
  }

  /** On a history in time order, trimming drops exactly a prefix. */
  lemma KeptIsSuffix(h: seq<Sample>, gap: nat, now: int, window: int) returns (k: nat)
    requires Spaced(h, gap)
    ensures k <= |h| && Kept(h, now, window) == h[k..]
    ensures forall i :: 0 <= i < k ==> !Recent(h[i], now, window)
    ensures forall i :: k <= i < |h| ==> Recent(h[i], now, window)
  {
    k := SplitPoint(h, gap, now, window);
    KeptOfSplit(h, k, now, window);
  }

  lemma Cancel(a: int, b: int, g: nat)
    requires a * g < b * g
    ensures a < b
  {
  }

  lemma ProductBound(k: nat, gap: nat, span: int)
    requires gap > 0 && k * gap <= span
    ensures k <= span / gap
  {
    assert span == span / gap * gap + span % gap;
    assert (span / gap + 1) * gap == span / gap * gap + gap;
    Cancel(k, span / gap + 1, gap);
  }

  /** With samples at least gap apart, a trimmed history that ends with the current
      sample holds between one and window / gap + 1 samples. */
  lemma TrimmedLength(h: seq<Sample>, s: Sample, gap: nat, window: int)
    requires window >= 0 && Spaced(h + [s], gap)
    ensures var k := Kept(h + [s], s.at, window);
            && k != [] && k[|k|-1] == s
            && (gap > 0 ==> |k| <= window / gap + 1)
  {
    var all := h + [s];
    var d := KeptIsSuffix(all, gap, s.at, window);
    var k := all[d..];
    assert Recent(all[|h|], s.at, window);
    assert k[|k|-1] == s;
    assert Spaced(k, gap);
    SpacedSpan(k, gap, 0, |k| - 1);
    assert k[0] == all[d];
    if gap > 0 { ProductBound(|k| - 1, gap, window); }
  }

  /** The slice trick of the poll loop: compact the first n cells into the front of
      the same array while reading it. */
  method TrimInPlace(a: array<Sample>, n: nat, now: int, window: int) returns (m: nat)
    requires n <= a.Length
    modifies a
    ensures m <= n
    ensures a[..m] == Kept(old(a[..n]), now, window)
    ensures a[n..] == old(a[n..])
  {
    m := 0;
    ghost var was := a[..n];
    for i := 0 to n
      invariant m <= i
      invariant a[..m] == Kept(was[..i], now, window)
      invariant forall k :: i <= k < a.Length ==> a[k] == old(a[k])
    {
      assert was[..i+1][..i] == was[..i];
      assert was[i] == a[i];
      if now - a[i].at <= window {
        a[m] := a[i];
        m := m + 1;
      }
    }
    assert was[..n] == was;
  }

  // -------------------------------------------------------------------- verdict

  predicate HighSample(cfg: Config, s: Sample) { s.cpu >= cfg.cpuUpper || s.mem >= cfg.memUpper }

  predicate LowSample(cfg: Config, s: Sample) { s.cpu <= cfg.cpuLower && s.mem <= cfg.memLower }

  predicate SpansWindow(hist: History, id: string, now: int, window: int) {
    id in hist && hist[id] != [] && now - hist[id][0].at >= window
  }

  ghost predicate AllHigh(cfg: Config, hist: History, ms: seq<Agent>) {
    forall a, s :: a in ms && a.id in hist && s in hist[a.id] ==> HighSample(cfg, s)
  }

  ghost predicate AllLow(cfg: Config, hist: History, ms: seq<Agent>) {
    forall a, s :: a in ms && a.id in hist && s in hist[a.id] ==> LowSample(cfg, s)
  }

  ghost predicate Decidable(cfg: Config, hist: History, ms: seq<Agent>, now: int) {
    ms != [] && forall a :: a in ms ==> SpansWindow(hist, a.id, now, cfg.window)
  }

  /** What the documentation promises of a verdict over the managed online agents. */
  ghost function Verdict(cfg: Config, hist: History, ms: seq<Agent>, now: int): Direction {
    if !Decidable(cfg, hist, ms, now) then Neutral
    else if AllHigh(cfg, hist, ms) then Up
    else if AllLow(cfg, hist, ms) then Down
    else Neutral
  }

  ghost predicate ThresholdsApart(cfg: Config) {
    cfg.cpuLower < cfg.cpuUpper && cfg.memLower < cfg.memUpper
  }

  /** High and low pressure exclude each other, on every history, exactly when both
      lower thresholds are below their upper ones. */
  lemma HighExcludesLowIff(cfg: Config)
    ensures ThresholdsApart(cfg) <==>
            forall hist: History, ms: seq<Agent>, now: int | Decidable(cfg, hist, ms, now) ::
              !(AllHigh(cfg, hist, ms) && AllLow(cfg, hist, ms))
  {
    if ThresholdsApart(cfg) {
      forall hist: History, ms: seq<Agent>, now: int | Decidable(cfg, hist, ms, now)
        ensures !(AllHigh(cfg, hist, ms) && AllLow(cfg, hist, ms))
      {
        var a := ms[0];
        assert a in ms && SpansWindow(hist, a.id, now, cfg.window);
        var s := hist[a.id][0];
        assert s in hist[a.id];
        assert !(HighSample(cfg, s) && LowSample(cfg, s));
      }
    } else {
      var both := Sample(cfg.cpuLower, cfg.memLower, 0);
      var a := Agent("a", "", 0, 0, Online, "", "", "p", None);
      var hist: History := map["a" := [both]];
      assert a in [a];
      assert Decidable(cfg, hist, [a], cfg.window);
      assert AllHigh(cfg, hist, [a]) && AllLow(cfg, hist, [a]);
    }
  }

  lemma JudgedAgents(l: seq<Agent>, p: string, a: Agent)
    ensures a in ManagedOf(l, p) <==> a in l && a.provider == p
    ensures a in ManagedOf(OnlineOf(l), p) <==> a in ManagedOf(l, p) && IsOnline(a)
  {
    ManagedOfMembers(l, p, a);
    ManagedOfMembers(OnlineOf(l), p, a);
    OnlineOfMembers(l, a);
  }

  /** The managed agents that are not online span the window, with every sample high
      (or every sample low). */
  ghost predicate AwayAgree(cfg: Config, hist: History, l: seq<Agent>, p: string, now: int, high: bool) {
    forall a :: a in ManagedOf(l, p) && !IsOnline(a) ==>
      && SpansWindow(hist, a.id, now, cfg.window)
      && forall s :: s in hist[a.id] ==> if high then HighSample(cfg, s) else LowSample(cfg, s)
  }

  /** The verdict over the online managed agents is the one over every managed agent
      if and only if the agents that are away would have agreed with it; and a
      provider with no agent online gets no verdict, so they must not form one. */
  lemma OnlineVerdictIsManagedVerdictIff(cfg: Config, hist: History, l: seq<Agent>, p: string, now: int)
    ensures var online, managed := ManagedOf(OnlineOf(l), p), ManagedOf(l, p);
            var dir := Verdict(cfg, hist, online, now);
            dir == Verdict(cfg, hist, managed, now) <==>
              match dir {
                case Up => AwayAgree(cfg, hist, l, p, now, true)
                case Down => AwayAgree(cfg, hist, l, p, now, false)
                case Neutral =>
                  || online != [] || managed == []
                  || (!AwayAgree(cfg, hist, l, p, now, true) && !AwayAgree(cfg, hist, l, p, now, false))
              }
  {
    var online, managed := ManagedOf(OnlineOf(l), p), ManagedOf(l, p);
    forall a ensures a in online <==> a in managed && IsOnline(a) { JudgedAgents(l, p, a); }
    if online != [] { assert online[0] in online; }
    ManagedVerdict(cfg, hist, l, p, now, true);
    ManagedVerdict(cfg, hist, l, p, now, false);
  }

  /** All managed agents span the window and agree exactly when the online ones do
      and those away do. */
  lemma ManagedVerdict(cfg: Config, hist: History, l: seq<Agent>, p: string, now: int, high: bool)
    ensures var online, managed := ManagedOf(OnlineOf(l), p), ManagedOf(l, p);
            (&& (forall a :: a in managed ==> SpansWindow(hist, a.id, now, cfg.window))
             && if high then AllHigh(cfg, hist, managed) else AllLow(cfg, hist, managed)) <==>
            (&& (forall a :: a in online ==> SpansWindow(hist, a.id, now, cfg.window))
             && (if high then AllHigh(cfg, hist, online) else AllLow(cfg, hist, online))
             && AwayAgree(cfg, hist, l, p, now, high))
  {
    var online, managed := ManagedOf(OnlineOf(l), p), ManagedOf(l, p);
    forall a ensures a in online <==> a in managed && IsOnline(a) { JudgedAgents(l, p, a); }
  }

  // ----------------------------------------------------------- what to do about it

  predicate Cooled(last: Option<int>, now: int, cooldown: int) {
    last.None? || now - last.value >= cooldown
  }

  predicate Upgradable(a: Agent, maxType: string) { a.instanceType != maxType && a.activeCount == 0 }

  /** The first upgradable agent of the list, if there is one. */
  ghost predicate IsUpgradeChoice(l: seq<Agent>, maxType: string, c: Option<Agent>) {
    match c
    case None => forall k :: 0 <= k < |l| ==> !Upgradable(l[k], maxType)
    case Some(a) => exists k :: && 0 <= k < |l| && l[k] == a && Upgradable(a, maxType)
                                && forall j :: 0 <= j < k ==> !Upgradable(l[j], maxType)
  }

  predicate Removable(a: Agent) { a.activeCount <= 0 && a.status != Draining }

  /** The first of the least pressured removable agents, if there is one. */
  ghost predicate IsRemovalChoice(l: seq<Agent>, c: Option<Agent>) {
    match c
    case None => forall k :: 0 <= k < |l| ==> !Removable(l[k])
    case Some(a) => exists k :: && 0 <= k < |l| && l[k] == a && Removable(a)
                                && (forall j :: 0 <= j < |l| && Removable(l[j]) ==> a.Pressure() <= l[j].Pressure())
                                && (forall j :: 0 <= j < k && Removable(l[j]) ==> a.Pressure() < l[j].Pressure())
  }

  lemma ChoicesAreUnique(l: seq<Agent>, maxType: string, c: Option<Agent>, d: Option<Agent>)
    ensures IsUpgradeChoice(l, maxType, c) && IsUpgradeChoice(l, maxType, d) ==> c == d
    ensures IsRemovalChoice(l, c) && IsRemovalChoice(l, d) ==> c == d
  {
  }

  datatype Action =
    | Idle
    | Cooling
    | SpawnSmallest
    | UpgradeNode(target: Agent)
    | NothingToUpgrade
    | AtMinimum
    | NothingIdle
    | RemoveNode(target: Agent)

  /** What a scale-up past its cooldown does, given the managed agents it reads. */
  ghost predicate UpChoice(cfg: Config, managed: seq<Agent>, action: Action) {
    if |managed| < cfg.maxNodes then action == SpawnSmallest
    else exists maxType, c ::
           && IsLargestType(cfg.nodeTypes, maxType) && IsUpgradeChoice(managed, maxType, c)
           && action == if c.Some? then UpgradeNode(c.value) else NothingToUpgrade
  }

  ghost predicate DownChoice(cfg: Config, managed: seq<Agent>, action: Action) {
    if |managed| <= cfg.minNodes then action == AtMinimum
    else exists c :: IsRemovalChoice(managed, c) && action == if c.Some? then RemoveNode(c.value) else NothingIdle
  }

  ghost predicate UpAction(cfg: Config, provider: string, m: Store, lastUp: Option<int>, now: int, action: Action) {
    if !Cooled(lastUp, now, cfg.cooldown) then action == Cooling
    else exists all :: Listing(m, all) && UpChoice(cfg, ManagedOf(all, provider), action)
  }

  ghost predicate DownAction(cfg: Config, provider: string, m: Store, lastDown: Option<int>, now: int, action: Action) {
    if !Cooled(lastDown, now, cfg.cooldown) then action == Cooling
    else exists all :: Listing(m, all) && DownChoice(cfg, ManagedOf(all, provider), action)
  }

  // --------------------------------------------------------------- one poll's sweep

  /** The store after probing the first agents of a listing; a None reply is an RPC error. */
  function SweptStore(m: Store, l: seq<Agent>, replies: seq<Option<NodeStatus>>): Store
    requires |l| == |replies|
  {
    if l == [] then m else
    var n := |l| - 1;
    var before := SweptStore(m, l[..n], replies[..n]);
    if l[n].status == Draining then before
    else if replies[n].None? then WithOffline(before, l[n].id)
    else WithNodeStatus(before, l[n].id, replies[n].value)
  }

  function SampleOf(ns: NodeStatus, now: int): Sample { Sample(ns.cpuPercent, ns.memPercent, now) }

  function SweptHistory(hist: History, provider: string, l: seq<Agent>, replies: seq<Option<NodeStatus>>,
                        now: int, window: int): History
    requires |l| == |replies|
  {
    if l == [] then hist else
    var n := |l| - 1;
    var before := SweptHistory(hist, provider, l[..n], replies[..n], now, window);
    if l[n].status == Draining || replies[n].None? || l[n].provider != provider then before
    else Recorded(before, l[n].id, SampleOf(replies[n].value, now), window)
  }

  // ------------------------------------------------------------------- a whole poll

  /** What an autoscaler reads and writes. */
  datatype Snapshot = Snapshot(agents: Store, history: History, lastUp: Option<int>, lastDown: Option<int>)

  /** After probing the agents of the listing. */
  function Swept(v: Snapshot, provider: string, l: seq<Agent>, replies: seq<Option<NodeStatus>>, now: int, window: int): Snapshot
    requires |l| == |replies|
  {
    v.(agents := SweptStore(v.agents, l, replies), history := SweptHistory(v.history, provider, l, replies, now, window))
  }

  ghost predicate IsVerdict(cfg: Config, provider: string, v: Snapshot, now: int, dir: Direction) {
    exists all :: Listing(v.agents, all) && dir == Verdict(cfg, v.history, ManagedOf(OnlineOf(all), provider), now)
  }

  ghost predicate ActsOn(cfg: Config, provider: string, dir: Direction, v: Snapshot, now: int, action: Action) {
    match dir
    case Neutral => action == Idle
    case Up => UpAction(cfg, provider, v.agents, v.lastUp, now, action)
    case Down => DownAction(cfg, provider, v.agents, v.lastDown, now, action)
  }

  function Effects(v: Snapshot, now: int, action: Action): Snapshot {
    match action
    case SpawnSmallest => v.(lastUp := Some(now))
    case UpgradeNode(a) => v.(agents := WithDraining(v.agents, a.id), lastUp := Some(now))
    case RemoveNode(a) => v.(agents := WithDraining(v.agents, a.id), history := map[], lastDown := Some(now))
    case _ => v
  }

  /** Verdict and action follow from what is seen, and leave what the action says. */
  ghost predicate Outcome(cfg: Config, provider: string, v: Snapshot, now: int, dir: Direction, action: Action, after: Snapshot) {
    IsVerdict(cfg, provider, v, now, dir) && ActsOn(cfg, provider, dir, v, now, action) && after == Effects(v, now, action)
  }

  // ---------------------------------------------------------------------- class

  class Autoscaler {
    const cfg: Config
    const provider: string
    const registry: Registry
    var pressureHistory: History
    var lastScaleUp: Option<int>
    var lastScaleDown: Option<int>

    constructor (registry: Registry, provider: string, cfg: Config)
      ensures this.registry == registry && this.provider == provider && this.cfg == cfg
      ensures pressureHistory == map[] && lastScaleUp == None && lastScaleDown == None
    {
      this.registry, this.provider, this.cfg := registry, provider, cfg;
      pressureHistory, lastScaleUp, lastScaleDown := map[], None, None;
    }

    method Record(id: string, s: Sample)
      modifies this`pressureHistory
      ensures pressureHistory == Recorded(old(pressureHistory), id, s, cfg.window)
    {
      var h := if id in pressureHistory then pressureHistory[id] else [];
      var slice := new Sample[|h| + 1](i requires 0 <= i <= |h| => if i < |h| then h[i] else s);
      assert slice[..|h| + 1] == h + [s];
      var m := TrimInPlace(slice, |h| + 1, s.at, cfg.window);
      pressureHistory := pressureHistory[id := slice[..m]];
    }

    /** The sampling loop of poll, over the listing it read. */
    method Sweep(l: seq<Agent>, replies: seq<Option<NodeStatus>>, now: int)
      requires Keyed(registry.agents) && |l| == |replies|
      modifies registry, this`pressureHistory
      ensures Keyed(registry.agents)
      ensures registry.agents == SweptStore(old(registry.agents), l, replies)
      ensures pressureHistory == SweptHistory(old(pressureHistory), provider, l, replies, now, cfg.window)
    {
      for i := 0 to |l|
        invariant Keyed(registry.agents)
        invariant registry.agents == SweptStore(old(registry.agents), l[..i], replies[..i])
        invariant pressureHistory == SweptHistory(old(pressureHistory), provider, l[..i], replies[..i], now, cfg.window)
      {
        assert l[..i+1][..i] == l[..i] && replies[..i+1][..i] == replies[..i];
        var agent := l[i];
        if agent.status == Draining {
          continue;
        }
        if replies[i].None? {
          registry.SetOffline(agent.id);
          continue;
        }
        registry.UpdateNodeStatus(agent.id, replies[i].value);
        if agent.provider != provider {
          continue;
        }
        Record(agent.id, SampleOf(replies[i].value, now));
      }
      assert l[..|l|] == l && replies[..|l|] == replies;
    }

    method ManagedAgents() returns (managed: seq<Agent>)
      requires Keyed(registry.agents)
      ensures exists all :: Listing(registry.agents, all) && managed == ManagedOf(all, provider)
    {
      var l := registry.GetAllAgents();
      managed := [];
      for i := 0 to |l|
        invariant managed == ManagedOf(l[..i], provider)
      {
        assert l[..i+1][..i] == l[..i];
        if l[i].provider == provider {
          managed := managed + [l[i]];
        }
      }
      assert l[..|l|] == l;
    }

    /** Flags over agents and samples, with early exits. */
    method ShouldScale(online: seq<Agent>, now: int) returns (dir: Direction)
      ensures dir == Verdict(cfg, pressureHistory, ManagedOf(online, provider), now)
    {
      var agents := [];
      for i := 0 to |online|
        invariant agents == ManagedOf(online[..i], provider)
      {
        assert online[..i+1][..i] == online[..i];
        if online[i].provider == provider {
          agents := agents + [online[i]];
        }
      }
      assert online[..|online|] == online;
      if |agents| == 0 { return Neutral; }

      var allHigh, allLow := true, true;
      for i := 0 to |agents|
        invariant forall k :: 0 <= k < i ==> SpansWindow(pressureHistory, agents[k].id, now, cfg.window)
        invariant allHigh <==> forall k :: 0 <= k < i ==> EverySample(agents[k].id, true)
        invariant allLow <==> forall k :: 0 <= k < i ==> EverySample(agents[k].id, false)
      {
        var id := agents[i].id;
        assert agents[i] in agents;
        if id !in pressureHistory || |pressureHistory[id]| == 0 { return Neutral; }
        var history := pressureHistory[id];
        if now - history[0].at < cfg.window { return Neutral; }

        var agentHigh, agentLow := true, true;
        for j := 0 to |history|
          invariant agentHigh <==> forall k :: 0 <= k < j ==> HighSample(cfg, history[k])
          invariant agentLow <==> forall k :: 0 <= k < j ==> LowSample(cfg, history[k])
        {
          var s := history[j];
          if s.cpu < cfg.cpuUpper && s.mem < cfg.memUpper { agentHigh := false; }
          if s.cpu > cfg.cpuLower || s.mem > cfg.memLower { agentLow := false; }
        }
        if !agentHigh { allHigh := false; }
        if !agentLow { allLow := false; }
      }
      assert Decidable(cfg, pressureHistory, agents, now);
      AllIsEvery(agents, true);
      AllIsEvery(agents, false);
      if allHigh { return Up; }
      if allLow { return Down; }
      return Neutral;
    }

    ghost predicate EverySample(id: string, high: bool)
      reads this`pressureHistory
    {
      id in pressureHistory ==>
        forall k :: 0 <= k < |pressureHistory[id]| ==>
          if high then HighSample(cfg, pressureHistory[id][k]) else LowSample(cfg, pressureHistory[id][k])
    }

    lemma AllIsEvery(agents: seq<Agent>, high: bool)
      ensures (forall k :: 0 <= k < |agents| ==> EverySample(agents[k].id, high)) <==>
              if high then AllHigh(cfg, pressureHistory, agents) else AllLow(cfg, pressureHistory, agents)
    {
      if high {
        if AllHigh(cfg, pressureHistory, agents) {
          forall k | 0 <= k < |agents| ensures EverySample(agents[k].id, high) {
            assert agents[k] in agents;
            assert forall s :: agents[k].id in pressureHistory && s in pressureHistory[agents[k].id] ==> HighSample(cfg, s);
          }
        }
      } else {
        if AllLow(cfg, pressureHistory, agents) {
          forall k | 0 <= k < |agents| ensures EverySample(agents[k].id, high) {
            assert agents[k] in agents;
            assert forall s :: agents[k].id in pressureHistory && s in pressureHistory[agents[k].id] ==> LowSample(cfg, s);
          }
        }
      }
    }

    /** Returns what it decides; the spawn and the drain themselves are steps of the
        concurrent model. */
    method TryScaleUp(now: int) returns (action: Action)
      requires Keyed(registry.agents)
      modifies registry, this`lastScaleUp
      ensures Keyed(registry.agents)
      ensures UpAction(cfg, provider, old(registry.agents), old(lastScaleUp), now, action)
      ensures lastScaleUp == if action.SpawnSmallest? || action.UpgradeNode? then Some(now) else old(lastScaleUp)
      ensures registry.agents == if action.UpgradeNode? then WithDraining(old(registry.agents), action.target.id)
                                 else old(registry.agents)
    {
      if lastScaleUp.Some? && now - lastScaleUp.value < cfg.cooldown { return Cooling; }
      var managed := ManagedAgents();
      if |managed| < cfg.maxNodes {
        lastScaleUp := Some(now);
        return SpawnSmallest;
      }
      var maxType := LargestInstanceType(cfg.nodeTypes);
      var candidate: Option<Agent> := None;
      for i := 0 to |managed|
        invariant candidate == None
        invariant forall j :: 0 <= j < i ==> !Upgradable(managed[j], maxType)
      {
        if managed[i].instanceType != maxType && managed[i].activeCount == 0 {
          candidate := Some(managed[i]);
          break;
        }
      }
      assert IsUpgradeChoice(managed, maxType, candidate);
      if candidate.None? { return NothingToUpgrade; }
      lastScaleUp := Some(now);
      registry.SetDraining(candidate.value.id);
      action := UpgradeNode(candidate.value);
    }

    /** The scale-down half of checkAndTriggerScale. */
    method TryScaleDown(now: int) returns (action: Action)
      requires Keyed(registry.agents)
      modifies registry, this`lastScaleDown, this`pressureHistory
      ensures Keyed(registry.agents)
      ensures DownAction(cfg, provider, old(registry.agents), old(lastScaleDown), now, action)
      ensures lastScaleDown == if action.RemoveNode? then Some(now) else old(lastScaleDown)
      ensures pressureHistory == if action.RemoveNode? then map[] else old(pressureHistory)
      ensures registry.agents == if action.RemoveNode? then WithDraining(old(registry.agents), action.target.id)
                                 else old(registry.agents)
    {
      if lastScaleDown.Some? && now - lastScaleDown.value < cfg.cooldown { return Cooling; }
      var managed := ManagedAgents();
      if |managed| <= cfg.minNodes { return AtMinimum; }
      var target: Option<Agent> := None;
      ghost var at := 0;
      for i := 0 to |managed|
        invariant target.None? ==> forall j :: 0 <= j < i ==> !Removable(managed[j])
        invariant target.Some? ==>
                    && 0 <= at < i && managed[at] == target.value && Removable(target.value)
                    && (forall j :: 0 <= j < i && Removable(managed[j]) ==> target.value.Pressure() <= managed[j].Pressure())
                    && (forall j :: 0 <= j < at && Removable(managed[j]) ==> target.value.Pressure() < managed[j].Pressure())
      {
        var ag := managed[i];
        if ag.activeCount > 0 || ag.status == Draining {
          continue;
        }
        if target.None? || ag.Pressure() < target.value.Pressure() {
          target := Some(ag);
          at := i;
        }
      }
      assert IsRemovalChoice(managed, target);
      if target.None? { return NothingIdle; }
      lastScaleDown := Some(now);
      registry.SetDraining(target.value.id);
      pressureHistory := map[];
      action := RemoveNode(target.value);
    }

    ghost function Seen(): Snapshot
      reads this, registry
    {
      Snapshot(registry.agents, pressureHistory, lastScaleUp, lastScaleDown)
    }

    method Evaluate(now: int) returns (dir: Direction)
      requires Keyed(registry.agents)
      ensures IsVerdict(cfg, provider, Seen(), now, dir)
    {
      ghost var all;
      var online;
      online, all := registry.GetOnlineAgents();
      dir := ShouldScale(online, now);
    }

    method Trigger(dir: Direction, now: int) returns (action: Action)
      requires Keyed(registry.agents)
      modifies registry, this
      ensures ActsOn(cfg, provider, dir, old(Seen()), now, action) && Seen() == Effects(old(Seen()), now, action)
    {
      match dir
      case Neutral => action := Idle;
      case Up => action := TryScaleUp(now);
      case Down => action := TryScaleDown(now);
    }

    method CheckAndTriggerScale(now: int) returns (dir: Direction, action: Action)
      requires Keyed(registry.agents)
      modifies registry, this
      ensures Outcome(cfg, provider, old(Seen()), now, dir, action, Seen())
    {
      dir := Evaluate(now);
      action := Trigger(dir, now);
    }

    /** One poll that nothing interleaves with.  The poll's clock reading stamps the
        samples; a later one judges them. */
    method Poll(l: seq<Agent>, replies: seq<Option<NodeStatus>>, now: int, later: int)
      returns (dir: Direction, action: Action)
      requires Keyed(registry.agents) && Listing(registry.agents, l) && |replies| == |l|
      modifies registry, this
      ensures Outcome(cfg, provider, Swept(old(Seen()), provider, l, replies, now, cfg.window), later, dir, action, Seen())
    {
      Sweep(l, replies, now);
      dir, action := CheckAndTriggerScale(later);
    }
  }
}
