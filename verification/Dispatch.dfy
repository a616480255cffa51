/** Choosing an agent for an execution and the dispatch loop (pkg/api/handlers.go). */
module Dispatch {
  import opened Models
  import opened AgentRegistry

  // -------------------------------------------------------------------- selection

  predicate Suits(a: Agent, fn: Function) { IsOnline(a) && a.CanFit(fn) }

  /** The first suitable agent of maximal score, or none if no agent suits. */
  ghost predicate IsBest(all: seq<Agent>, fn: Function, best: Option<Agent>) {
    match best
    case None => forall k :: 0 <= k < |all| ==> !Suits(all[k], fn)
    case Some(a) =>
      exists k :: && 0 <= k < |all| && all[k] == a && Suits(a, fn)
                  && (forall j :: 0 <= j < |all| && Suits(all[j], fn) ==> all[j].AvailableScore() <= a.AvailableScore())
                  && (forall j :: 0 <= j < k && Suits(all[j], fn) ==> all[j].AvailableScore() < a.AvailableScore())
  }

  /** The choice is determined, so the synchronous and the asynchronous handler, which
      run the same selection, agree on the same snapshot. */
  lemma BestIsUnique(all: seq<Agent>, fn: Function, b: Option<Agent>, c: Option<Agent>)
    requires IsBest(all, fn, b) && IsBest(all, fn, c)
    ensures b == c
  {
  }

  /** Best of the online list is best of the whole listing. */
  lemma BestOfOnline(all: seq<Agent>, fn: Function, best: Option<Agent>)
    requires IsBest(OnlineOf(all), fn, best)
    ensures IsBest(all, fn, best)
  {
    var online := OnlineOf(all);
    forall a ensures a in online <==> a in all && IsOnline(a) { OnlineOfMembers(all, a); }
    match best
    case None =>
      forall k | 0 <= k < |all| ensures !Suits(all[k], fn) {
        if IsOnline(all[k]) { assert all[k] in online; }
      }
    case Some(a) =>
      var o :| && 0 <= o < |online| && online[o] == a && Suits(a, fn)
               && (forall j :: 0 <= j < |online| && Suits(online[j], fn) ==> online[j].AvailableScore() <= a.AvailableScore())
               && (forall j :: 0 <= j < o && Suits(online[j], fn) ==> online[j].AvailableScore() < a.AvailableScore());
      var k := FirstAt(all, o);
      forall j | 0 <= j < |all| && Suits(all[j], fn) ensures all[j].AvailableScore() <= a.AvailableScore() {
        assert all[j] in online;
      }
      forall j | 0 <= j < k && Suits(all[j], fn) ensures all[j].AvailableScore() < a.AvailableScore() {
        OnlineOfMembers(all[..k], all[j]);
        assert all[j] == all[..k][j] && all[j] in OnlineOf(all[..k]);
      }
  }

  /** Where the o-th online agent stands in the listing. */
  lemma {:induction false} FirstAt(all: seq<Agent>, o: nat) returns (k: nat)
    requires o < |OnlineOf(all)|
    ensures k < |all| && all[k] == OnlineOf(all)[o] && OnlineOf(all[..k]) == OnlineOf(all)[..o]
  {
    var n := |all| - 1;
    var front := OnlineOf(all[..n]);
    if o < |front| {
      k := FirstAt(all[..n], o);
      assert all[..n][..k] == all[..k];
    } else {
      k := n;
    }
  }

  /** The inner loop of both handlers, over the list of available agents. */
  method SelectAgent(available: seq<Agent>, fn: Function) returns (best: Option<Agent>)
    requires forall k :: 0 <= k < |available| ==> IsOnline(available[k])
    ensures IsBest(available, fn, best)
  {
    best := None;
    ghost var at := 0;
    for i := 0 to |available|
      invariant best.None? ==> forall k :: 0 <= k < i ==> !Suits(available[k], fn)
      invariant best.Some? ==>
                  && 0 <= at < i && available[at] == best.value && Suits(best.value, fn)
                  && (forall j :: 0 <= j < i && Suits(available[j], fn) ==>
                        available[j].AvailableScore() <= best.value.AvailableScore())
                  && (forall j :: 0 <= j < at && Suits(available[j], fn) ==>
                        available[j].AvailableScore() < best.value.AvailableScore())
    {
      var a := available[i];
      if !a.CanFit(fn) {
        continue;
      }
      if best.None? || a.AvailableScore() > best.value.AvailableScore() {
        best := Some(a);
        at := i;
      }
    }
  }

  // ---------------------------------------------------------------- dispatch loop

  predicate OccursAt(s: string, part: string, i: nat) {
    i + |part| <= |s| && s[i..i + |part|] == part
  }

  predicate Contains(s: string, part: string) {
    exists i :: 0 <= i <= |s| && OccursAt(s, part, i)
  }

  const AT_CAPACITY := "at capacity"

  /** The part stands anywhere in the string. */
  lemma ContainsIff(s: string, part: string)
    ensures Contains(s, part) <==> exists before: string, after: string :: s == before + part + after
  {
    if i :| 0 <= i <= |s| && OccursAt(s, part, i) {
      assert s == s[..i] + part + s[i + |part|..];
    }
    if before: string, after: string :| s == before + part + after {
      assert s[|before|..|before| + |part|] == part;
      assert OccursAt(s, part, |before|);
    }
  }

  datatype Reply = CommunicationError(message: string) | Result(error: string)

  predicate AtCapacity(r: Reply) { r.Result? && Contains(r.error, AT_CAPACITY) }

  /** What one round meets: a snapshot of the store, the agent's reply to a dispatch,
      and whether the client has gone when the round ends in a pause. */
  datatype Round = Round(snapshot: seq<Agent>, reply: Reply, gone: bool)

  datatype Response =
    | NotFound
    | NoAgents
    | AgentError(message: string)
    | Capacity(message: string)
    | Completed(agentID: string, executionID: string, error: string)
    | Accepted(executionID: string)

  datatype Sent = Sent(agentID: string, executionID: string, reply: Reply)

  ghost predicate Misses(fn: Function, r: Round) {
    forall k :: 0 <= k < |r.snapshot| ==> !Suits(r.snapshot[k], fn)
  }

  /** The round neither answers nor gives up, but for the client leaving. */
  ghost predicate Pauses(fn: Function, r: Round) {
    if Misses(fn, r) then fn.resourcePressureBehavior != Exit
    else AtCapacity(r.reply) && fn.maxConcurrencyBehavior != Exit
  }

  /** The answer of a round that does not pause. */
  ghost predicate Answers(fn: Function, r: Round, executionID: string, w: Response) {
    if Misses(fn, r) then w == NoAgents
    else if r.reply.CommunicationError? then w == AgentError(r.reply.message)
    else if AtCapacity(r.reply) then w == Capacity(r.reply.error)
    else exists a :: IsBest(r.snapshot, fn, Some(a)) && w == Completed(a.id, executionID, r.reply.error)
  }

  /** d is a dispatch of round r: to its best agent, under the request's execution id. */
  ghost predicate IsSent(fn: Function, r: Round, executionID: string, d: Sent) {
    && d.executionID == executionID && d.reply == r.reply
    && exists a :: IsBest(r.snapshot, fn, Some(a)) && d.agentID == a.id
  }

  /** How a request for fn may go over the rounds the world offers it: which rounds it
      used, what it sent, the round of each dispatch, and what it wrote. */
  ghost predicate Served(fn: Function, executionID: string, rounds: seq<Round>,
                         written: seq<Response>, sent: seq<Sent>, used: nat, from: seq<nat>)
  {
    && |written| <= 1 && used <= |rounds|
    // every round before the last pauses, with the client still there
    && (forall k :: 0 <= k < used - 1 ==> Pauses(fn, rounds[k]) && !rounds[k].gone)
    // the last round answers, or pauses and loses the client or the rounds
    && (written != [] ==>
          used > 0 && !Pauses(fn, rounds[used-1]) && Answers(fn, rounds[used-1], executionID, written[0]))
    && (written == [] ==>
          if used > 0 then Pauses(fn, rounds[used-1]) && (rounds[used-1].gone || used == |rounds|) else rounds == [])
    && SentFrom(fn, executionID, rounds, sent, used, from)
  }

  /** One dispatch for each used round with a suitable agent, in order. */
  ghost predicate SentFrom(fn: Function, executionID: string, rounds: seq<Round>, sent: seq<Sent>, used: nat, from: seq<nat>)
    requires used <= |rounds|
  {
    && |from| == |sent|
    && (forall j :: 0 <= j < |sent| ==> from[j] < used && IsSent(fn, rounds[from[j]], executionID, sent[j]))
    && (forall i, j :: 0 <= i < j < |from| ==> from[i] < from[j])
    && (forall k :: 0 <= k < used && !Misses(fn, rounds[k]) ==> k in from)
  }

  method SelectFrom(snapshot: seq<Agent>, fn: Function) returns (best: Option<Agent>)
    ensures IsBest(snapshot, fn, best)
  {
    var available := FilterOnline(snapshot);
    best := SelectAgent(available, fn);
    BestOfOnline(snapshot, fn, best);
  }

  lemma SentMore(fn: Function, executionID: string, rounds: seq<Round>, sent: seq<Sent>, used: nat, from: seq<nat>, a: Agent)
    requires used < |rounds| && SentFrom(fn, executionID, rounds, sent, used, from)
    requires IsBest(rounds[used].snapshot, fn, Some(a))
    ensures SentFrom(fn, executionID, rounds, sent + [Sent(a.id, executionID, rounds[used].reply)], used + 1, from + [used])
  {
    assert IsSent(fn, rounds[used], executionID, Sent(a.id, executionID, rounds[used].reply));
  }

  /** handleExecute for a registered function; it is cut off when the rounds run out. */
  method HandleExecute(fn: Option<Function>, executionID: string, rounds: seq<Round>)
    returns (written: seq<Response>, sent: seq<Sent>, used: nat, ghost from: seq<nat>)
    ensures fn.None? ==> written == [NotFound] && sent == [] && used == 0
    ensures fn.Some? ==> Served(fn.value, executionID, rounds, written, sent, used, from)
  {
    written, sent, used, from := [], [], 0, [];
    if fn.None? {
      written := [NotFound];
      return;
    }
    var f := fn.value;
    while used < |rounds|
      invariant used <= |rounds| && written == []
      invariant forall k :: 0 <= k < used ==> Pauses(f, rounds[k]) && !rounds[k].gone
      invariant SentFrom(f, executionID, rounds, sent, used, from)
    {
      var r := rounds[used];
      var best := SelectFrom(r.snapshot, f);
      if best.None? {
        used := used + 1;
        if f.resourcePressureBehavior == Exit {
          written := [NoAgents];
          return;
        }
        if r.gone { return; }
        continue;
      }
      SentMore(f, executionID, rounds, sent, used, from, best.value);
      sent, from := sent + [Sent(best.value.id, executionID, r.reply)], from + [used];
      used := used + 1;
      if r.reply.CommunicationError? {
        written := [AgentError(r.reply.message)];
        return;
      }
      if r.reply.error != "" && Contains(r.reply.error, AT_CAPACITY) {
        if f.maxConcurrencyBehavior == Exit {
          written := [Capacity(r.reply.error)];
          return;
        }
      } else {
        written := [Completed(best.value.id, executionID, r.reply.error)];
        return;
      }
      if r.gone { return; }
    }
  }

  method FilterOnline(all: seq<Agent>) returns (available: seq<Agent>)
    ensures available == OnlineOf(all)
    ensures forall k :: 0 <= k < |available| ==> IsOnline(available[k])
  {
    available := [];
    for i := 0 to |all|
      invariant available == OnlineOf(all[..i])
      invariant forall k :: 0 <= k < |available| ==> IsOnline(available[k])
    {
      assert all[..i+1][..i] == all[..i];
      if IsOnline(all[i]) { available := available + [all[i]]; }
    }
    assert all[..|all|] == all;
  }

  lemma SuitedIsNoMiss(fn: Function, r: Round, executionID: string, d: Sent)
    requires IsSent(fn, r, executionID, d)
    ensures !Misses(fn, r)
  {
    var a :| IsBest(r.snapshot, fn, Some(a)) && d.agentID == a.id;
  }

  /** Every dispatch of a request but its last was refused for capacity, they all
      carry one execution id, retries need a behaviour other than "exit", and with
      both behaviours "exit" the first round answers. */
  lemma ExecuteIsCareful(fn: Function, executionID: string, rounds: seq<Round>,
                         written: seq<Response>, sent: seq<Sent>, used: nat, from: seq<nat>)
    requires Served(fn, executionID, rounds, written, sent, used, from)
    ensures forall j :: 0 <= j < |sent| - 1 ==> AtCapacity(sent[j].reply)
    ensures forall j :: 0 <= j < |sent| ==> sent[j].executionID == executionID
    ensures |sent| > 1 ==> fn.maxConcurrencyBehavior != Exit
    ensures used > 1 ==> fn.resourcePressureBehavior != Exit || fn.maxConcurrencyBehavior != Exit
    ensures fn.resourcePressureBehavior == Exit && fn.maxConcurrencyBehavior == Exit && rounds != [] ==>
              used == 1 && |written| == 1
  {
    forall j | 0 <= j < |sent| - 1 ensures AtCapacity(sent[j].reply) && fn.maxConcurrencyBehavior != Exit {
      assert from[j] < from[j+1] < used;
      assert IsSent(fn, rounds[from[j]], executionID, sent[j]);
      SuitedIsNoMiss(fn, rounds[from[j]], executionID, sent[j]);
      assert Pauses(fn, rounds[from[j]]);
    }
    forall j | 0 <= j < |sent| ensures sent[j].executionID == executionID {
      assert IsSent(fn, rounds[from[j]], executionID, sent[j]);
    }
    if |sent| > 1 { assert AtCapacity(sent[0].reply); }
    if used > 0 { assert used > 1 ==> Pauses(fn, rounds[0]); }
  }

  // --------------------------------------------------------- whom a request reaches

  /** An online agent that can take fn: it has not reported, or its report leaves the
      memory asked for (as far as the report is sound) and CPU below 90 percent. */
  ghost predicate CanTake(a: Agent, fn: Function) {
    && a.status == Online
    && (a.nodeStatus.Some? ==>
          var ns := a.nodeStatus.value;
          ns.memUsedMB <= ns.memTotalMB
          && (fn.memoryMB > 0 && ns.memTotalMB > 0 ==> fn.memoryMB <= ns.memTotalMB - ns.memUsedMB)
          && (fn.cpuMillicores > 0 ==> ns.cpuPercent < 90.0))
  }

  /** Among sound reports, what the handlers call suitable is exactly what can take it. */
  lemma SuitsIff(a: Agent, fn: Function)
    requires a.nodeStatus.Some? ==> a.nodeStatus.value.memUsedMB <= a.nodeStatus.value.memTotalMB
    ensures Suits(a, fn) <==> CanTake(a, fn)
  {
    if a.nodeStatus.Some? { CanFitIsHasRoomIff(a, fn); }
  }

  /** Both reports are sound, and x has no more CPU load and no smaller free share. */
  ghost predicate AsFree(x: NodeStatus, y: NodeStatus) {
    && x.memUsedMB <= x.memTotalMB && y.memUsedMB <= y.memTotalMB
    && x.cpuPercent <= y.cpuPercent && FreeShare(y) <= FreeShare(x)
  }

  /** b, whose report is sound, or who has not reported, ranks no lower than a: if both have
      reported, b is not beaten on one of CPU load and free share without being better on
      the other; one that has not reported ranks with fifty points. */
  ghost predicate HoldsAgainst(b: Agent, a: Agent) {
    match (a.nodeStatus, b.nodeStatus)
    case (Some(x), Some(y)) => AsFree(x, y) ==> AsFree(y, x)
    case (None, Some(y)) => y.memUsedMB <= y.memTotalMB ==> y.cpuPercent <= 50.0 + FreeShare(y) * 100.0
    case (Some(x), None) => x.memUsedMB <= x.memTotalMB ==> 50.0 + FreeShare(x) * 100.0 <= x.cpuPercent
    case (None, None) => true
  }

  /** No earlier agent is its equal. */
  ghost predicate EqualsOnly(b: Agent, a: Agent) {
    match (a.nodeStatus, b.nodeStatus)
    case (Some(x), Some(y)) => AsFree(x, y) && AsFree(y, x)
    case (None, None) => true
    case _ => false
  }

  lemma ScoreHolds(a: Agent, b: Agent)
    requires a.AvailableScore() <= b.AvailableScore()
    ensures HoldsAgainst(b, a)
  {
    match (a.nodeStatus, b.nodeStatus)
    case (Some(x), Some(y)) => if AsFree(x, y) { ScoreOrderIff(a, b); }
    case (None, Some(y)) => if y.memUsedMB <= y.memTotalMB { ScoreIs(b); }
    case (Some(x), None) => if x.memUsedMB <= x.memTotalMB { ScoreIs(a); }
    case (None, None) =>
  }

  lemma EqualsScoreAlike(a: Agent, b: Agent)
    requires EqualsOnly(b, a)
    ensures a.AvailableScore() == b.AvailableScore()
  {
    if a.nodeStatus.Some? {
      ScoreOrderIff(a, b);
      ScoreOrderIff(b, a);
    }
  }

  /** The k-th agent of the snapshot is online, ranks no lower than any that can take the
      function, and is the first of its equals. */
  ghost predicate LeastLoaded(snapshot: seq<Agent>, fn: Function, k: nat) {
    && k < |snapshot| && snapshot[k].status == Online
    && forall j :: 0 <= j < |snapshot| && CanTake(snapshot[j], fn) ==>
         HoldsAgainst(snapshot[k], snapshot[j]) && (EqualsOnly(snapshot[k], snapshot[j]) ==> k <= j)
  }

  lemma SentToLeastLoaded(fn: Function, r: Round, executionID: string, d: Sent) returns (k: nat)
    requires IsSent(fn, r, executionID, d)
    ensures LeastLoaded(r.snapshot, fn, k) && r.snapshot[k].id == d.agentID
  {
    var a :| IsBest(r.snapshot, fn, Some(a)) && d.agentID == a.id;
    k :| && 0 <= k < |r.snapshot| && r.snapshot[k] == a && Suits(a, fn)
         && (forall j :: 0 <= j < |r.snapshot| && Suits(r.snapshot[j], fn) ==>
               r.snapshot[j].AvailableScore() <= a.AvailableScore())
         && (forall j :: 0 <= j < k && Suits(r.snapshot[j], fn) ==>
               r.snapshot[j].AvailableScore() < a.AvailableScore());
    forall j | 0 <= j < |r.snapshot| && CanTake(r.snapshot[j], fn)
      ensures HoldsAgainst(a, r.snapshot[j]) && (EqualsOnly(a, r.snapshot[j]) ==> k <= j)
    {
      SuitsIff(r.snapshot[j], fn);
      ScoreHolds(r.snapshot[j], a);
      if EqualsOnly(a, r.snapshot[j]) { EqualsScoreAlike(r.snapshot[j], a); }
    }
  }

  /** Every dispatch of a request goes to an agent that no agent of its round's snapshot
      able to take the function beats on CPU load or free memory without losing on the
      other, and that no earlier one equals. */
  lemma DispatchesGoToLeastLoaded(fn: Function, executionID: string, rounds: seq<Round>,
                                  written: seq<Response>, sent: seq<Sent>, used: nat, from: seq<nat>, j: nat)
    returns (k: nat)
    requires Served(fn, executionID, rounds, written, sent, used, from) && j < |sent|
    ensures var snapshot := rounds[from[j]].snapshot; LeastLoaded(snapshot, fn, k) && snapshot[k].id == sent[j].agentID
  {
    k := SentToLeastLoaded(fn, rounds[from[j]], executionID, sent[j]);
  }

  /** What the rounds and the answer mean in terms of the agents and the replies, when
      every report is sound: a round goes on without anyone able to take the function
      only under resource pressure "wait", and after a refusal for capacity only under
      concurrency "wait"; and each answer has its own cause in the last round. */
  lemma RoundsMean(fn: Function, executionID: string, rounds: seq<Round>,
                   written: seq<Response>, sent: seq<Sent>, used: nat, from: seq<nat>)
    requires Served(fn, executionID, rounds, written, sent, used, from)
    requires forall k, a :: 0 <= k < |rounds| && a in rounds[k].snapshot && a.nodeStatus.Some? ==>
               a.nodeStatus.value.memUsedMB <= a.nodeStatus.value.memTotalMB
    ensures forall k :: 0 <= k < used - 1 ==>
              if NobodyCan(rounds[k], fn) then fn.resourcePressureBehavior == Wait
              else fn.maxConcurrencyBehavior == Wait && RefusedForCapacity(rounds[k].reply)
    ensures written != [] ==> used > 0 && Means(fn, rounds[used-1], executionID, written[0])
    ensures written != [] && written[0].Completed? ==> sent != [] && written[0].agentID == sent[|sent|-1].agentID
    ensures written == [] && used > 0 ==> rounds[used-1].gone || used == |rounds|
  {
    forall k | 0 <= k < used
      ensures (NobodyCan(rounds[k], fn) <==> Misses(fn, rounds[k]))
              && (RefusedForCapacity(rounds[k].reply) <==> AtCapacity(rounds[k].reply))
    {
      SoundRound(fn, rounds[k]);
    }
    if written != [] && written[0].Completed? { LastSent(fn, executionID, rounds, sent, used, from, written[0]); }
  }

  ghost predicate NobodyCan(r: Round, fn: Function) { forall a :: a in r.snapshot ==> !CanTake(a, fn) }

  ghost predicate RefusedForCapacity(reply: Reply) {
    reply.Result? && exists before: string, after: string :: reply.error == before + "at capacity" + after
  }

  /** The cause of an answer, in the round that gave it. */
  ghost predicate Means(fn: Function, r: Round, executionID: string, w: Response) {
    match w
    case NoAgents => NobodyCan(r, fn) && fn.resourcePressureBehavior == Exit
    case Capacity(m) =>
      !NobodyCan(r, fn) && fn.maxConcurrencyBehavior == Exit && RefusedForCapacity(r.reply) && m == r.reply.error
    case AgentError(m) => !NobodyCan(r, fn) && r.reply == CommunicationError(m)
    case Completed(_, e, m) =>
      !NobodyCan(r, fn) && r.reply == Result(m) && !RefusedForCapacity(r.reply) && e == executionID
    case _ => false
  }

  lemma SoundRound(fn: Function, r: Round)
    requires forall a :: a in r.snapshot && a.nodeStatus.Some? ==> a.nodeStatus.value.memUsedMB <= a.nodeStatus.value.memTotalMB
    ensures NobodyCan(r, fn) <==> Misses(fn, r)
    ensures RefusedForCapacity(r.reply) <==> AtCapacity(r.reply)
  {
    forall k | 0 <= k < |r.snapshot| ensures Suits(r.snapshot[k], fn) <==> CanTake(r.snapshot[k], fn) {
      SuitsIff(r.snapshot[k], fn);
    }
    if r.reply.Result? { ContainsIff(r.reply.error, AT_CAPACITY); }
  }

  lemma LastComesLast(from: seq<nat>, used: nat, j: nat)
    requires forall i, k :: 0 <= i < k < |from| ==> from[i] < from[k]
    requires forall k :: 0 <= k < |from| ==> from[k] < used
    requires j < |from| && from[j] == used - 1
    ensures j == |from| - 1
  {
    var last := from[|from|-1];
    assert forall i :: 0 <= i < |from| - 1 ==> from[i] < last;
  }

  lemma SameBest(snapshot: seq<Agent>, fn: Function, id: string, other: string)
    requires exists a :: IsBest(snapshot, fn, Some(a)) && a.id == id
    requires exists a :: IsBest(snapshot, fn, Some(a)) && a.id == other
    ensures id == other
  {
    var a :| IsBest(snapshot, fn, Some(a)) && a.id == id;
    var b :| IsBest(snapshot, fn, Some(b)) && b.id == other;
    BestIsUnique(snapshot, fn, Some(a), Some(b));
  }

  /** The last dispatch is that of the last round, if it reached anyone. */
  lemma LastRoundSentLast(fn: Function, executionID: string, rounds: seq<Round>, sent: seq<Sent>, used: nat, from: seq<nat>)
    requires 0 < used <= |rounds| && SentFrom(fn, executionID, rounds, sent, used, from) && !Misses(fn, rounds[used-1])
    ensures sent != [] && from[|sent|-1] == used - 1
  {
    var j :| 0 <= j < |from| && from[j] == used - 1;
    LastComesLast(from, used, j);
  }

  /** A completed answer names the agent of the last dispatch. */
  lemma LastSent(fn: Function, executionID: string, rounds: seq<Round>, sent: seq<Sent>, used: nat, from: seq<nat>, w: Response)
    requires 0 < used <= |rounds| && SentFrom(fn, executionID, rounds, sent, used, from)
    requires w.Completed? && !Misses(fn, rounds[used-1]) && Answers(fn, rounds[used-1], executionID, w)
    ensures sent != [] && w.agentID == sent[|sent|-1].agentID
  {
    LastRoundSentLast(fn, executionID, rounds, sent, used, from);
    OneTarget(fn, rounds[used-1], executionID, w, sent[|sent|-1]);
  }

  lemma OneTarget(fn: Function, r: Round, executionID: string, w: Response, d: Sent)
    requires w.Completed? && !Misses(fn, r) && Answers(fn, r, executionID, w) && IsSent(fn, r, executionID, d)
    ensures w.agentID == d.agentID
  {
    SameBest(r.snapshot, fn, w.agentID, d.agentID);
  }

  // ------------------------------------------------------------- the async handler

  /** How an asynchronous request for fn may go: one attempt, and the execution is
      routed to the agent it was sent to exactly when that agent took the call. */
  ghost predicate AsyncServed(fn: Function, executionID: string, r: Round, executions: map<string, string>,
                              written: Response, sent: seq<Sent>, routed: map<string, string>)
  {
    if Misses(fn, r) then written == NoAgents && sent == [] && routed == executions
    else
      && |sent| == 1 && IsSent(fn, r, executionID, sent[0])
      && if r.reply.CommunicationError?
         then written == AgentError(r.reply.message) && routed == executions
         else written == Accepted(executionID) && routed == executions[executionID := sent[0].agentID]
  }

  /** handleAsyncExecute; whatever the agent answers counts as taken. */
  method HandleAsyncExecute(fn: Option<Function>, executionID: string, r: Round, executions: map<string, string>)
    returns (written: Response, sent: seq<Sent>, routed: map<string, string>)
    ensures fn.None? ==> written == NotFound && sent == [] && routed == executions
    ensures fn.Some? ==> AsyncServed(fn.value, executionID, r, executions, written, sent, routed)
  {
    sent, routed := [], executions;
    if fn.None? { return NotFound, sent, routed; }
    var best := SelectFrom(r.snapshot, fn.value);
    if best.None? { return NoAgents, sent, routed; }
    sent := [Sent(best.value.id, executionID, r.reply)];
    if r.reply.CommunicationError? { return AgentError(r.reply.message), sent, routed; }
    routed := routed[executionID := best.value.id];
    written := Accepted(executionID);
  }

  /** An asynchronous request over sound reports is refused exactly when nobody can take
      the function; else it is sent once, and routed unless the call itself failed. */
  lemma AsyncMeans(fn: Function, executionID: string, r: Round, executions: map<string, string>,
                   written: Response, sent: seq<Sent>, routed: map<string, string>)
    requires AsyncServed(fn, executionID, r, executions, written, sent, routed)
    requires forall a :: a in r.snapshot && a.nodeStatus.Some? ==> a.nodeStatus.value.memUsedMB <= a.nodeStatus.value.memTotalMB
    ensures written == NoAgents <==> NobodyCan(r, fn)
    ensures sent == [] <==> NobodyCan(r, fn)
    ensures written == Accepted(executionID) <==> !NobodyCan(r, fn) && r.reply.Result?
    ensures written == Accepted(executionID) ==>
              |sent| == 1 && executionID in routed && routed[executionID] == sent[0].agentID
    ensures forall e :: e != executionID || written != Accepted(executionID) ==>
              (e in routed <==> e in executions) && (e in routed ==> routed[e] == executions[e])
  {
    SoundRound(fn, r);
  }

  lemma AsyncGoesToLeastLoaded(fn: Function, executionID: string, r: Round, executions: map<string, string>,
                               written: Response, sent: seq<Sent>, routed: map<string, string>)
    returns (k: nat)
    requires AsyncServed(fn, executionID, r, executions, written, sent, routed) && sent != []
    ensures LeastLoaded(r.snapshot, fn, k) && r.snapshot[k].id == sent[0].agentID
    ensures written == Accepted(executionID) ==> executionID in routed && routed[executionID] == r.snapshot[k].id
  {
    k := SentToLeastLoaded(fn, r, executionID, sent[0]);
  }

  /** On the same snapshot the two handlers dispatch to the same agent, or neither does. */
  lemma HandlersAgree(fn: Function, executionID: string, rounds: seq<Round>,
                      written: seq<Response>, sent: seq<Sent>, used: nat, from: seq<nat>,
                      asyncID: string, executions: map<string, string>,
                      asyncWritten: Response, asyncSent: seq<Sent>, routed: map<string, string>)
    requires rounds != [] && Served(fn, executionID, rounds, written, sent, used, from)
    requires AsyncServed(fn, asyncID, rounds[0], executions, asyncWritten, asyncSent, routed)
    ensures asyncSent == [] <==> 0 !in from
    ensures asyncSent != [] ==> sent != [] && from[0] == 0 && sent[0].agentID == asyncSent[0].agentID
    ensures asyncSent != [] && asyncWritten == Accepted(asyncID) ==>
              asyncID in routed && routed[asyncID] == sent[0].agentID
  {
    if Misses(fn, rounds[0]) {
      forall j | 0 <= j < |from| ensures from[j] != 0 {
        assert IsSent(fn, rounds[from[j]], executionID, sent[j]);
        SuitedIsNoMiss(fn, rounds[from[j]], executionID, sent[j]);
      }
    } else {
      assert 0 in from;
      assert from[0] == 0;
      assert IsSent(fn, rounds[from[0]], executionID, sent[0]);
      var a :| IsBest(rounds[0].snapshot, fn, Some(a)) && sent[0].agentID == a.id;
      var b :| IsBest(rounds[0].snapshot, fn, Some(b)) && asyncSent[0].agentID == b.id;
      BestIsUnique(rounds[0].snapshot, fn, Some(a), Some(b));
    }
  }
}
