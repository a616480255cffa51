/** Polls that take no time, exactly on the ticks of the poll interval: such an
    autoscaler can decide anything only if the interval divides the evaluation window. */
module PollGrid {
  import opened Models
  import opened AgentRegistry
  import opened Scaling

  // ------------------------------------------------------------ one poll's sweep

  function Swept(a: Agent, reply: Option<NodeStatus>): Agent {
    if a.status == Draining then a
    else if reply.None? then a.(status := Offline)
    else a.(nodeStatus := Some(reply.value), activeCount := reply.value.activeTasks,
            lastHeartbeat := reply.value.collectedAt, status := Promoted(a.status))
  }

  /** The sweep visits each listed record once and leaves the others alone. */
  lemma {:induction false} SweptStoreAt(m: Store, l: seq<Agent>, replies: seq<Option<NodeStatus>>, id: string)
    requires Keyed(m) && |l| == |replies| && DistinctIds(l)
    requires forall k :: 0 <= k < |l| ==> l[k].id in m && m[l[k].id] == l[k]
    ensures SweptStore(m, l, replies).Keys == m.Keys
    ensures id in m && (forall k :: 0 <= k < |l| ==> l[k].id != id) ==> SweptStore(m, l, replies)[id] == m[id]
    ensures forall k :: 0 <= k < |l| && l[k].id == id ==> SweptStore(m, l, replies)[id] == Swept(l[k], replies[k])
  {
    if l != [] {
      var n := |l| - 1;
      SweptStoreAt(m, l[..n], replies[..n], id);
      SweptStoreAt(m, l[..n], replies[..n], l[n].id);
    }
  }

  ghost predicate AllRecent(h: seq<Sample>, now: int, window: int) {
    h != [] && forall k :: 0 <= k < |h| ==> Recent(h[k], now, window)
  }

  lemma RecordedIsRecent(hist: History, id: string, s: Sample, window: int)
    requires 0 <= window
    ensures AllRecent(Recorded(hist, id, s, window)[id], s.at, window)
  {
    var h := (if id in hist then hist[id] else []) + [s];
    var k := Kept(h, s.at, window);
    assert h[|h|-1] == s;
    KeptMembers(h, s.at, window, s);
    assert s in k;
    forall i | 0 <= i < |k| ensures Recent(k[i], s.at, window) {
      KeptMembers(h, s.at, window, k[i]);
    }
  }

  predicate IsSampled(a: Agent, reply: Option<NodeStatus>, p: string) {
    a.status != Draining && reply.Some? && a.provider == p
  }

  /** The last step of a sweep records one sample, or nothing. */
  lemma LastSample(hist: History, p: string, l: seq<Agent>, replies: seq<Option<NodeStatus>>, now: int, window: int)
    requires |l| == |replies| && l != []
    ensures var n := |l| - 1;
            var before := SweptHistory(hist, p, l[..n], replies[..n], now, window);
            SweptHistory(hist, p, l, replies, now, window) ==
              if IsSampled(l[n], replies[n], p)
              then Recorded(before, l[n].id, SampleOf(replies[n].value, now), window) else before
  {
  }

  ghost predicate HasRecent(h: History, id: string, now: int, window: int) {
    id in h && AllRecent(h[id], now, window)
  }

  lemma StaysRecent(before: History, after: History, sampled: bool, id: string, s: Sample, other: string, window: int)
    requires 0 <= window && after == if sampled then Recorded(before, id, s, window) else before
    requires (sampled && other == id) || HasRecent(before, other, s.at, window)
    ensures HasRecent(after, other, s.at, window)
  {
    if sampled { RecordedIsRecent(before, id, s, window); }
  }

  /** The last agent of a sweep leaves the histories of the others recent. */
  lemma LastStaysRecent(hist: History, p: string, l: seq<Agent>, replies: seq<Option<NodeStatus>>, now: int, window: int,
                        other: string)
    requires |l| == |replies| && l != [] && 0 <= window
    requires var n := |l| - 1;
             || (IsSampled(l[n], replies[n], p) && other == l[n].id)
             || HasRecent(SweptHistory(hist, p, l[..n], replies[..n], now, window), other, now, window)
    ensures HasRecent(SweptHistory(hist, p, l, replies, now, window), other, now, window)
  {
    var n := |l| - 1;
    var before, after := SweptHistory(hist, p, l[..n], replies[..n], now, window), SweptHistory(hist, p, l, replies, now, window);
    LastSample(hist, p, l, replies, now, window);
    var sampled := IsSampled(l[n], replies[n], p);
    var s := if sampled then SampleOf(replies[n].value, now) else Sample(0.0, 0.0, now);
    StaysRecent(before, after, sampled, l[n].id, s, other, window);
  }

  /** An agent the sweep sampled has a history trimmed to the window. */
  lemma {:induction false} SampledIsRecent(hist: History, p: string, l: seq<Agent>, replies: seq<Option<NodeStatus>>,
                                           now: int, window: int, k: nat)
    requires |l| == |replies| && k < |l| && 0 <= window && IsSampled(l[k], replies[k], p)
    ensures HasRecent(SweptHistory(hist, p, l, replies, now, window), l[k].id, now, window)
  {
    var n := |l| - 1;
    if k < n { SampledIsRecent(hist, p, l[..n], replies[..n], now, window, k); }
    LastStaysRecent(hist, p, l, replies, now, window, l[k].id);
  }

  // --------------------------------------------------------------------- the grid

  ghost predicate OnGrid(hist: History, interval: int)
    requires interval != 0
  {
    forall id, k :: id in hist && 0 <= k < |hist[id]| ==> hist[id][k].at % interval == 0
  }

  lemma RecordedOnGrid(hist: History, id: string, s: Sample, window: int, interval: int)
    requires interval > 0 && OnGrid(hist, interval) && s.at % interval == 0
    ensures OnGrid(Recorded(hist, id, s, window), interval)
  {
    var h := (if id in hist then hist[id] else []) + [s];
    var k := Kept(h, s.at, window);
    forall i | 0 <= i < |k| ensures k[i].at % interval == 0 {
      KeptMembers(h, s.at, window, k[i]);
    }
  }

  lemma {:induction false} SweepStaysOnGrid(hist: History, p: string, l: seq<Agent>, replies: seq<Option<NodeStatus>>,
                                            now: int, window: int, interval: int)
    requires |l| == |replies| && interval > 0 && OnGrid(hist, interval) && now % interval == 0
    ensures OnGrid(SweptHistory(hist, p, l, replies, now, window), interval)
  {
    if l != [] {
      var n := |l| - 1;
      SweepStaysOnGrid(hist, p, l[..n], replies[..n], now, window, interval);
      var before := SweptHistory(hist, p, l[..n], replies[..n], now, window);
      if l[n].status != Draining && replies[n].Some? && l[n].provider == p {
        RecordedOnGrid(before, l[n].id, SampleOf(replies[n].value, now), window, interval);
      }
    }
  }

  /** One instantaneous poll: when, over which store and listing, with which replies,
      and how the swept store is listed for the verdict. */
  datatype Tick = Tick(now: int, m: Store, l: seq<Agent>, replies: seq<Option<NodeStatus>>, all: seq<Agent>)

  ghost predicate IsTick(x: Tick, interval: int)
    requires interval > 0
  {
    && x.now % interval == 0 && Keyed(x.m) && Listing(x.m, x.l) && |x.replies| == |x.l|
    && Listing(SweptStore(x.m, x.l, x.replies), x.all)
  }

  ghost function HistoryAfter(hist: History, p: string, cfg: Config, x: Tick): History
    requires |x.replies| == |x.l|
  {
    SweptHistory(hist, p, x.l, x.replies, x.now, cfg.window)
  }

  ghost function VerdictOf(hist: History, p: string, cfg: Config, x: Tick): Direction
    requires |x.replies| == |x.l|
  {
    Verdict(cfg, HistoryAfter(hist, p, cfg, x), ManagedOf(OnlineOf(x.all), p), x.now)
  }

  /** Any number of such polls, at any ticks, over any stores; between polls the
      histories may have been emptied. */
  ghost predicate GridRun(p: string, cfg: Config, interval: int, ticks: seq<Tick>, hists: seq<History>)
    requires interval > 0
  {
    && |hists| == |ticks| + 1 && hists[0] == map[]
    && forall i :: 0 <= i < |ticks| ==>
         && IsTick(ticks[i], interval)
         && (hists[i+1] == HistoryAfter(hists[i], p, cfg, ticks[i]) || hists[i+1] == map[])
  }

  lemma {:induction false} RunStaysOnGrid(p: string, cfg: Config, interval: int, ticks: seq<Tick>, hists: seq<History>, i: nat)
    requires interval > 0 && GridRun(p, cfg, interval, ticks, hists) && i < |hists|
    ensures OnGrid(hists[i], interval)
  {
    if i > 0 {
      RunStaysOnGrid(p, cfg, interval, ticks, hists, i - 1);
      var x := ticks[i-1];
      assert IsTick(x, interval);
      SweepStaysOnGrid(hists[i-1], p, x.l, x.replies, x.now, cfg.window, interval);
    }
  }

  /** A managed agent online after an uninterrupted sweep was sampled by it. */
  lemma OnlineWasSampled(p: string, x: Tick, interval: int, a: Agent) returns (k: nat)
    requires interval > 0 && IsTick(x, interval) && a in ManagedOf(OnlineOf(x.all), p)
    ensures k < |x.l| && x.l[k].id == a.id
    ensures IsSampled(x.l[k], x.replies[k], p)
  {
    ManagedOfMembers(OnlineOf(x.all), p, a);
    OnlineOfMembers(x.all, a);
    SweptStoreAt(x.m, x.l, x.replies, a.id);
    k :| 0 <= k < |x.l| && x.l[k].id == a.id;
  }

  lemma DivisibleDifference(a: int, b: int, n: int)
    requires n > 0 && a % n == 0 && b % n == 0
    ensures (a - b) % n == 0
  {
    var q := a / n - b / n;
    assert a == a / n * n + a % n && b == b / n * n + b % n;
    assert a - b == q * n;
    MultipleOf(q, n);
  }

  lemma OnlyZeroTimes(k: int, n: int)
    requires 0 <= k * n < n
    ensures k == 0
  {
  }

  lemma MultipleOf(q: int, n: int)
    requires n > 0
    ensures q * n % n == 0
  {
    var x := q * n;
    assert x == x / n * n + x % n;
    assert (q - x / n) * n == x % n;
    OnlyZeroTimes(q - x / n, n);
  }

  /** A verdict other than neutral on the grid pins the window to a whole number of
      intervals. */
  lemma VerdictNeedsDivisor(p: string, cfg: Config, interval: int, ticks: seq<Tick>, hists: seq<History>, i: nat)
    requires interval > 0 && 0 <= cfg.window && GridRun(p, cfg, interval, ticks, hists) && i < |ticks|
    requires IsTick(ticks[i], interval) && VerdictOf(hists[i], p, cfg, ticks[i]) != Neutral
    ensures cfg.window % interval == 0
  {
    var x := ticks[i];
    var hist := HistoryAfter(hists[i], p, cfg, x);
    RunStaysOnGrid(p, cfg, interval, ticks, hists, i);
    SweepStaysOnGrid(hists[i], p, x.l, x.replies, x.now, cfg.window, interval);
    var a := ManagedOf(OnlineOf(x.all), p)[0];
    assert a in ManagedOf(OnlineOf(x.all), p);
    var k := OnlineWasSampled(p, x, interval, a);
    SampledIsRecent(hists[i], p, x.l, x.replies, x.now, cfg.window, k);
    assert SpansWindow(hist, a.id, x.now, cfg.window);
    assert Recent(hist[a.id][0], x.now, cfg.window);
    DivisibleDifference(x.now, hist[a.id][0].at, interval);
  }

  // ------------------------------------------------------------- and it is enough

  function Hot(cpu: real): NodeStatus { NodeStatus("a", cpu, 0.0, 0, 0, 0, 0) }

  function HotAgent(p: string, cpu: real): Agent { Agent("a", "", 0, 0, Online, "i", "t", p, Some(Hot(cpu))) }

  function HotTick(p: string, cpu: real, now: int): Tick {
    Tick(now, map["a" := HotAgent(p, cpu)], [HotAgent(p, cpu)], [Some(Hot(cpu))], [HotAgent(p, cpu)])
  }

  function HotSamples(cpu: real, n: nat, interval: int): (h: seq<Sample>)
    ensures |h| == n
  {
    if n == 0 then [] else HotSamples(cpu, n - 1, interval) + [Sample(cpu, 0.0, (n - 1) * interval)]
  }

  function HotHistory(cpu: real, n: nat, interval: int): History {
    if n == 0 then map[] else map["a" := HotSamples(cpu, n, interval)]
  }

  lemma {:induction false} HotSamplesAt(cpu: real, n: nat, interval: int, k: nat)
    requires k < n
    ensures HotSamples(cpu, n, interval)[k] == Sample(cpu, 0.0, k * interval)
  {
    if k < n - 1 {
      HotSamplesAt(cpu, n - 1, interval, k);
    }
  }

  lemma {:induction false} KeptAll(h: seq<Sample>, now: int, window: int)
    requires forall k :: 0 <= k < |h| ==> Recent(h[k], now, window)
    ensures Kept(h, now, window) == h
  {
    if h != [] {
      KeptAll(h[..|h|-1], now, window);
      assert h == h[..|h|-1] + [h[|h|-1]];
    }
  }

  lemma HotPoll(p: string, cfg: Config, interval: int, n: nat)
    requires interval > 0 && n * interval <= cfg.window
    ensures IsTick(HotTick(p, cfg.cpuUpper, n * interval), interval)
    ensures HistoryAfter(HotHistory(cfg.cpuUpper, n, interval), p, cfg, HotTick(p, cfg.cpuUpper, n * interval))
            == HotHistory(cfg.cpuUpper, n + 1, interval)
  {
    var x := HotTick(p, cfg.cpuUpper, n * interval);
    MultipleOf(n, interval);
    assert x.l[..0] == [] && x.replies[..0] == [];
    assert x.l[0].id == "a";
    assert SweptStore(x.m, x.l[..0], x.replies[..0]) == x.m;
    assert SweptStore(x.m, x.l, x.replies)
           == x.m["a" := HotAgent(p, cfg.cpuUpper).(lastHeartbeat := Hot(cfg.cpuUpper).collectedAt)];
    assert SweptStore(x.m, x.l, x.replies) == x.m;
    var h := HotSamples(cfg.cpuUpper, n + 1, interval);
    forall k | 0 <= k < |h| ensures Recent(h[k], x.now, cfg.window) {
      HotSamplesAt(cfg.cpuUpper, n + 1, interval, 0);
      HotSamplesAt(cfg.cpuUpper, n + 1, interval, k);
      assert 0 <= k * interval;
    }
    KeptAll(h, x.now, cfg.window);
    assert SweptHistory(HotHistory(cfg.cpuUpper, n, interval), p, x.l[..0], x.replies[..0], x.now, cfg.window)
           == HotHistory(cfg.cpuUpper, n, interval);
  }

  lemma HotVerdict(p: string, cfg: Config, h: seq<Sample>, l: seq<Agent>)
    requires h != [] && h[0].at == 0 && l == [HotAgent(p, cfg.cpuUpper)]
    requires forall k :: 0 <= k < |h| ==> h[k].cpu == cfg.cpuUpper
    ensures Verdict(cfg, map["a" := h], l, cfg.window) == Up
  {
    var hist: History := map["a" := h];
    assert l[0] == HotAgent(p, cfg.cpuUpper);
    forall a: Agent | a in l ensures SpansWindow(hist, a.id, cfg.window, cfg.window) {
    }
    forall a: Agent, s: Sample | a in l && a.id in hist && s in hist[a.id] ensures HighSample(cfg, s) {
    }
  }

  lemma HotListing(p: string, cpu: real)
    ensures ManagedOf(OnlineOf([HotAgent(p, cpu)]), p) == [HotAgent(p, cpu)]
  {
    assert [HotAgent(p, cpu)][..0] == [];
    assert OnlineOf([HotAgent(p, cpu)]) == [HotAgent(p, cpu)];
  }

  ghost predicate Decides(p: string, cfg: Config, interval: int, ticks: seq<Tick>, hists: seq<History>)
    requires interval > 0
  {
    && GridRun(p, cfg, interval, ticks, hists)
    && exists i :: 0 <= i < |ticks| && IsTick(ticks[i], interval) && VerdictOf(hists[i], p, cfg, ticks[i]) != Neutral
  }

  function HotTicks(p: string, cpu: real, n: nat, interval: int): seq<Tick> {
    seq(n, i requires 0 <= i < n => HotTick(p, cpu, i * interval))
  }

  function HotHistories(cpu: real, n: nat, interval: int): seq<History> {
    seq(n, i requires 0 <= i < n => HotHistory(cpu, i, interval))
  }

  lemma HotRun(p: string, cfg: Config, interval: int, n: nat)
    requires interval > 0 && n * interval <= cfg.window
    ensures GridRun(p, cfg, interval, HotTicks(p, cfg.cpuUpper, n + 1, interval), HotHistories(cfg.cpuUpper, n + 2, interval))
  {
    var ticks, hists := HotTicks(p, cfg.cpuUpper, n + 1, interval), HotHistories(cfg.cpuUpper, n + 2, interval);
    forall i | 0 <= i < |ticks|
      ensures IsTick(ticks[i], interval) && hists[i+1] == HistoryAfter(hists[i], p, cfg, ticks[i])
    {
      assert i * interval <= n * interval;
      HotPoll(p, cfg, interval, i);
    }
  }

  lemma DivisorDecides(p: string, cfg: Config, interval: int) returns (ticks: seq<Tick>, hists: seq<History>)
    requires interval > 0 && 0 <= cfg.window && cfg.window % interval == 0
    ensures Decides(p, cfg, interval, ticks, hists)
  {
    var n := cfg.window / interval;
    assert n * interval == cfg.window;
    ticks, hists := HotTicks(p, cfg.cpuUpper, n + 1, interval), HotHistories(cfg.cpuUpper, n + 2, interval);
    HotRun(p, cfg, interval, n);
    assert ticks[n] == HotTick(p, cfg.cpuUpper, n * interval) && hists[n] == HotHistory(cfg.cpuUpper, n, interval);
    LastHotVerdict(p, cfg, interval, n);
    assert IsTick(ticks[n], interval) && VerdictOf(hists[n], p, cfg, ticks[n]) != Neutral;
  }

  lemma LastHotVerdict(p: string, cfg: Config, interval: int, n: nat)
    requires interval > 0 && n * interval == cfg.window
    ensures VerdictOf(HotHistory(cfg.cpuUpper, n, interval), p, cfg, HotTick(p, cfg.cpuUpper, n * interval)) == Up
  {
    HotPoll(p, cfg, interval, n);
    HotListing(p, cfg.cpuUpper);
    var h := HotSamples(cfg.cpuUpper, n + 1, interval);
    forall k | 0 <= k < |h| ensures h[k] == Sample(cfg.cpuUpper, 0.0, k * interval) {
      HotSamplesAt(cfg.cpuUpper, n + 1, interval, k);
    }
    HotSamplesAt(cfg.cpuUpper, n + 1, interval, 0);
    HotVerdict(p, cfg, h, [HotAgent(p, cfg.cpuUpper)]);
  }

  /** On the grid some run decides something if and only if the poll interval divides
      the evaluation window. */
  lemma GridDecidesIff(p: string, cfg: Config, interval: int)
    requires interval > 0 && 0 <= cfg.window
    ensures (exists ticks, hists :: Decides(p, cfg, interval, ticks, hists)) <==> cfg.window % interval == 0
  {
    if cfg.window % interval == 0 {
      var ticks, hists := DivisorDecides(p, cfg, interval);
    }
    forall ticks, hists | Decides(p, cfg, interval, ticks, hists) ensures cfg.window % interval == 0 {
      var i :| 0 <= i < |ticks| && IsTick(ticks[i], interval) && VerdictOf(hists[i], p, cfg, ticks[i]) != Neutral;
      VerdictNeedsDivisor(p, cfg, interval, ticks, hists, i);
    }
  }

  // ------------------------------------------- an agent that goes away is not judged

  /** Two agents, and what each replies to a poll. */
  function PairTick(now: int, a: Agent, b: Agent, replyA: Option<NodeStatus>, replyB: Option<NodeStatus>): Tick {
    Tick(now, map[a.id := a, b.id := b], [a, b], [replyA, replyB], [Swept(a, replyA), Swept(b, replyB)])
  }

  lemma PairListed(a: Agent, b: Agent)
    requires a.id != b.id
    ensures Listing(map[a.id := a, b.id := b], [a, b])
  {
    assert [a, b][0].id == a.id && [a, b][1].id == b.id;
  }

  lemma PairStore(x: Tick, a: Agent, b: Agent, replyA: Option<NodeStatus>, replyB: Option<NodeStatus>)
    requires a.id != b.id && x == PairTick(x.now, a, b, replyA, replyB)
    ensures SweptStore(x.m, x.l, x.replies) == map[a.id := Swept(a, replyA), b.id := Swept(b, replyB)]
  {
    var swept := SweptStore(x.m, x.l, x.replies);
    PairListed(a, b);
    SweptStoreAt(x.m, x.l, x.replies, a.id);
    SweptStoreAt(x.m, x.l, x.replies, b.id);
    assert swept[x.l[0].id] == Swept(a, replyA) && swept[x.l[1].id] == Swept(b, replyB);
  }

  lemma PairIsTick(x: Tick, a: Agent, b: Agent, replyA: Option<NodeStatus>, replyB: Option<NodeStatus>, interval: int)
    requires a.id != b.id && x == PairTick(x.now, a, b, replyA, replyB) && interval > 0 && x.now % interval == 0
    ensures IsTick(x, interval)
  {
    PairStore(x, a, b, replyA, replyB);
    PairListed(a, b);
    PairListed(Swept(a, replyA), Swept(b, replyB));
  }

  function ReplyRecorded(hist: History, a: Agent, reply: Option<NodeStatus>, now: int, window: int): History {
    if a.status == Draining || reply.None? then hist else Recorded(hist, a.id, SampleOf(reply.value, now), window)
  }

  lemma OneHistory(hist: History, p: string, a: Agent, reply: Option<NodeStatus>, now: int, window: int)
    requires a.provider == p
    ensures SweptHistory(hist, p, [a], [reply], now, window) == ReplyRecorded(hist, a, reply, now, window)
  {
    LastSample(hist, p, [a], [reply], now, window);
    assert [a][..0] == [] && [reply][..0] == [];
  }

  lemma PairHistory(hist: History, p: string, cfg: Config, x: Tick, a: Agent, b: Agent,
                    replyA: Option<NodeStatus>, replyB: Option<NodeStatus>)
    requires x == PairTick(x.now, a, b, replyA, replyB) && a.provider == p && b.provider == p
    ensures HistoryAfter(hist, p, cfg, x) ==
            ReplyRecorded(ReplyRecorded(hist, a, replyA, x.now, cfg.window), b, replyB, x.now, cfg.window)
  {
    LastSample(hist, p, x.l, x.replies, x.now, cfg.window);
    assert x.l[..1] == [a] && x.replies[..1] == [replyA];
    OneHistory(hist, p, a, replyA, x.now, cfg.window);
  }

  /** An agent's first sample, and its second. */
  lemma FirstRecorded(hist: History, id: string, s: Sample, window: int)
    requires id !in hist && 0 <= window
    ensures Recorded(hist, id, s, window) == hist[id := [s]]
  {
    KeptAll([s], s.at, window);
    assert [] + [s] == [s];
  }

  lemma SecondRecorded(hist: History, id: string, first: Sample, s: Sample, window: int)
    requires id in hist && hist[id] == [first] && 0 <= window && Recent(first, s.at, window)
    ensures Recorded(hist, id, s, window) == hist[id := [first, s]]
  {
    assert [first] + [s] == [first, s];
    KeptAll([first, s], s.at, window);
  }

  function HighReply(cfg: Config): NodeStatus { NodeStatus("", cfg.cpuUpper, cfg.memUpper, 0, 0, 0, 0) }

  function LowReply(cfg: Config): NodeStatus { NodeStatus("", cfg.cpuLower, cfg.memLower, 0, 0, 0, 0) }

  function HighAgent(p: string, cfg: Config): Agent {
    Agent("a", "", 0, 0, Online, "", "", p, Some(HighReply(cfg)))
  }

  function LowAgent(p: string, cfg: Config): Agent {
    Agent("b", "", 0, 0, Online, "", "", p, Some(LowReply(cfg)))
  }

  function BothReply(p: string, cfg: Config): Tick {
    PairTick(0, HighAgent(p, cfg), LowAgent(p, cfg), Some(HighReply(cfg)), Some(LowReply(cfg)))
  }

  function LowIsAway(p: string, cfg: Config): Tick {
    PairTick(cfg.window, HighAgent(p, cfg), LowAgent(p, cfg), Some(HighReply(cfg)), None)
  }

  function FirstHistory(cfg: Config): History {
    map["a" := [SampleOf(HighReply(cfg), 0)], "b" := [SampleOf(LowReply(cfg), 0)]]
  }

  function SecondHistory(cfg: Config): History {
    FirstHistory(cfg)["a" := [SampleOf(HighReply(cfg), 0), SampleOf(HighReply(cfg), cfg.window)]]
  }

  lemma FirstSamples(p: string, cfg: Config)
    requires 0 < cfg.window
    ensures HistoryAfter(map[], p, cfg, BothReply(p, cfg)) == FirstHistory(cfg)
  {
    var high, low := HighReply(cfg), LowReply(cfg);
    PairHistory(map[], p, cfg, BothReply(p, cfg), HighAgent(p, cfg), LowAgent(p, cfg), Some(high), Some(low));
    FirstRecorded(map[], "a", SampleOf(high, 0), cfg.window);
    FirstRecorded(map["a" := [SampleOf(high, 0)]], "b", SampleOf(low, 0), cfg.window);
  }

  lemma SecondSamples(p: string, cfg: Config)
    requires 0 < cfg.window
    ensures HistoryAfter(FirstHistory(cfg), p, cfg, LowIsAway(p, cfg)) == SecondHistory(cfg)
  {
    var high := HighReply(cfg);
    PairHistory(FirstHistory(cfg), p, cfg, LowIsAway(p, cfg), HighAgent(p, cfg), LowAgent(p, cfg), Some(high), None);
    SecondRecorded(FirstHistory(cfg), "a", SampleOf(high, 0), SampleOf(high, cfg.window), cfg.window);
  }

  lemma AwayVerdicts(p: string, cfg: Config)
    requires ThresholdsApart(cfg) && 0 < cfg.window
    ensures var hist, all := SecondHistory(cfg), LowIsAway(p, cfg).all;
            && all[1] in ManagedOf(all, p) && all[1] !in OnlineOf(all)
            && Verdict(cfg, hist, ManagedOf(OnlineOf(all), p), cfg.window) == Up
            && Verdict(cfg, hist, ManagedOf(all, p), cfg.window) == Neutral
  {
    var hist, all := SecondHistory(cfg), LowIsAway(p, cfg).all;
    var online, managed := ManagedOf(OnlineOf(all), p), ManagedOf(all, p);
    forall x ensures (x in managed <==> x == all[0] || x == all[1]) && (x in online <==> x == all[0]) {
      JudgedAgents(all, p, x);
      assert x in all <==> x == all[0] || x == all[1];
    }
    OnlineOfMembers(all, all[1]);
    var high, low := hist["a"][0], hist["b"][0];
    assert low in hist[all[1].id] && !HighSample(cfg, low) && high in hist[all[0].id] && !LowSample(cfg, high);
    assert all[0] in managed && all[1] in managed && all[0] in online;
    assert Decidable(cfg, hist, online, cfg.window) && AllHigh(cfg, hist, online);
  }

  function AwayTicks(p: string, cfg: Config): seq<Tick> { [BothReply(p, cfg), LowIsAway(p, cfg)] }

  function AwayHistories(cfg: Config): seq<History> { [map[], FirstHistory(cfg), SecondHistory(cfg)] }

  lemma AwayRun(p: string, cfg: Config)
    requires 0 < cfg.window
    ensures GridRun(p, cfg, cfg.window, AwayTicks(p, cfg), AwayHistories(cfg))
    ensures IsTick(BothReply(p, cfg), cfg.window) && IsTick(LowIsAway(p, cfg), cfg.window)
  {
    var a, b, high, low := HighAgent(p, cfg), LowAgent(p, cfg), HighReply(cfg), LowReply(cfg);
    MultipleOf(1, cfg.window);
    PairIsTick(BothReply(p, cfg), a, b, Some(high), Some(low), cfg.window);
    PairIsTick(LowIsAway(p, cfg), a, b, Some(high), None, cfg.window);
    FirstSamples(p, cfg);
    SecondSamples(p, cfg);
  }

  /** With any thresholds that are apart: two polls a window apart, of one store.  In the
      second an agent that has only ever reported low pressure does not answer; it is
      managed and offline, and the verdict is nevertheless up. */
  lemma OfflineAgentIsNotJudged(p: string, cfg: Config) returns (ticks: seq<Tick>, hists: seq<History>, away: Agent)
    requires ThresholdsApart(cfg) && 0 < cfg.window
    ensures |ticks| == 2 && |hists| == 3 && GridRun(p, cfg, cfg.window, ticks, hists)
    ensures IsTick(ticks[0], cfg.window) && SweptStore(ticks[0].m, ticks[0].l, ticks[0].replies) == ticks[1].m
    ensures hists[1] == HistoryAfter(hists[0], p, cfg, ticks[0])
    ensures IsTick(ticks[1], cfg.window) && hists[2] == HistoryAfter(hists[1], p, cfg, ticks[1])
    ensures away in ManagedOf(ticks[1].all, p) && away.status == Offline
    ensures SpansWindow(hists[2], away.id, ticks[1].now, cfg.window)
    ensures forall s :: s in hists[2][away.id] ==> LowSample(cfg, s)
    ensures VerdictOf(hists[1], p, cfg, ticks[1]) == Up
    ensures Verdict(cfg, hists[2], ManagedOf(ticks[1].all, p), ticks[1].now) == Neutral
  {
    ticks, hists := AwayTicks(p, cfg), AwayHistories(cfg);
    away := ticks[1].all[1];
    AwayRun(p, cfg);
    PairStore(ticks[0], HighAgent(p, cfg), LowAgent(p, cfg), Some(HighReply(cfg)), Some(LowReply(cfg)));
    FirstSamples(p, cfg);
    SecondSamples(p, cfg);
    AwayVerdicts(p, cfg);
  }
}
