/** The records of pkg/models: agents, their last reported load, functions, and
    the placement arithmetic on them.  Percentages and scores are reals; memory
    sizes are 64-bit unsigned, with the wrap-around of subtraction written out. */
module Models {

  datatype Option<+T> = None | Some(value: T)

  const TWO_TO_THE_64: int := 0x1_0000_0000_0000_0000
  const TWO_TO_THE_62: int := 0x4000_0000_0000_0000

  type Uint64 = x: int | 0 <= x < TWO_TO_THE_64

  datatype AgentStatus = Online | Offline | Busy | Draining

  datatype Behavior = Wait | Exit

  /** Times are integers (seconds on a common clock). */
  datatype NodeStatus = NodeStatus(
    agentID: string,
    cpuPercent: real,
    memPercent: real,
    memTotalMB: Uint64,
    memUsedMB: Uint64,
    activeTasks: int,
    collectedAt: int)

  datatype Function = Function(
    name: string,
    cpuMillicores: int,
    memoryMB: int,
    maxConcurrencyBehavior: Behavior,
    resourcePressureBehavior: Behavior)

  datatype Agent = Agent(
    id: string,
    address: string,
    activeCount: int,
    lastHeartbeat: int,
    status: AgentStatus,
    providerID: string,
    instanceType: string,
    provider: string,
    nodeStatus: Option<NodeStatus>)
  {
    function Pressure(): real {
      match nodeStatus
      case None => 0.0
      case Some(ns) => ns.cpuPercent + ns.memPercent
    }

    predicate CanFit(fn: Function) {
      match nodeStatus
      case None => true
      case Some(ns) =>
        && !(fn.memoryMB > 0 && ns.memTotalMB > 0 && fn.memoryMB > Sub64(ns.memTotalMB, ns.memUsedMB))
        && !(fn.cpuMillicores > 0 && ns.cpuPercent >= 90.0)
    }

    function AvailableScore(): real {
      match nodeStatus
      case None => 50.0
      case Some(ns) =>
        var cpuAvail := 100.0 - ns.cpuPercent;
        var memAvail := if ns.memTotalMB > 0
                        then Sub64(ns.memTotalMB, ns.memUsedMB) as real / ns.memTotalMB as real * 100.0
                        else 0.0;
        cpuAvail + memAvail
    }
  }

  /** Unsigned subtraction of the source language: wraps below zero. */
  function Sub64(a: Uint64, b: Uint64): (r: Uint64)
    ensures b <= a ==> r == a - b
    ensures a < b ==> r == TWO_TO_THE_64 - (b - a)
  {
    if b <= a then a - b else a - b + TWO_TO_THE_64
  }

  /** A report an agent can honestly give. */
  predicate Honest(ns: NodeStatus) {
    ns.memUsedMB <= ns.memTotalMB && 0.0 <= ns.cpuPercent <= 100.0
  }

  /** There is always a number that is not taken. */
  lemma {:induction false} AboveAll(ts: set<nat>) returns (u: nat)
    ensures forall t :: t in ts ==> t < u
  {
    u := 0;
    if ts != {} {
      var t :| t in ts;
      var above := AboveAll(ts - {t});
      u := above + t + 1;
      assert forall x :: x in ts ==> x == t || x in ts - {t};
    }
  }

  // ---------------------------------------------------------------- placement

  lemma CanFitAntitone(a: Agent, small: Function, large: Function)
    requires small.memoryMB <= large.memoryMB && small.cpuMillicores <= large.cpuMillicores
    requires a.CanFit(large)
    ensures a.CanFit(small)
  {
  }

  /** What the check is for: the free memory, taken as an ordinary difference,
      covers the request, and the CPU is not saturated. */
  predicate HasRoom(ns: NodeStatus, fn: Function) {
    && (fn.memoryMB > 0 && ns.memTotalMB > 0 ==> fn.memoryMB <= ns.memTotalMB - ns.memUsedMB)
    && (fn.cpuMillicores > 0 ==> ns.cpuPercent < 90.0)
  }

  /** The wrapped subtraction decides placement as intended on exactly the reports
      whose used memory is within the total, plus those where memory is not
      consulted or the CPU already refuses, plus requests beyond the wrapped value. */
  lemma CanFitIsHasRoomIff(a: Agent, fn: Function)
    requires a.nodeStatus.Some?
    ensures var ns := a.nodeStatus.value;
            (a.CanFit(fn) <==> HasRoom(ns, fn)) <==>
            (|| ns.memUsedMB <= ns.memTotalMB
             || fn.memoryMB <= 0 || ns.memTotalMB == 0
             || (fn.cpuMillicores > 0 && ns.cpuPercent >= 90.0)
             || fn.memoryMB > TWO_TO_THE_64 - (ns.memUsedMB - ns.memTotalMB))
  {
    var ns := a.nodeStatus.value;
    if ns.memTotalMB < ns.memUsedMB {
      assert Sub64(ns.memTotalMB, ns.memUsedMB) == TWO_TO_THE_64 - (ns.memUsedMB - ns.memTotalMB);
    }
  }

  lemma Fraction(x: real, y: real)
    requires 0.0 <= x <= y && 0.0 < y
    ensures 0.0 <= x / y <= 1.0
  {
    assert x / y * y == x;
  }

  lemma ScoreRange(a: Agent)
    requires a.nodeStatus.Some? ==> Honest(a.nodeStatus.value)
    ensures 0.0 <= a.AvailableScore() <= 200.0
  {
    if a.nodeStatus.Some? && a.nodeStatus.value.memTotalMB > 0 {
      var ns := a.nodeStatus.value;
      Fraction((ns.memTotalMB - ns.memUsedMB) as real, ns.memTotalMB as real);
    }
  }

  /** The share of the memory that a report leaves free; none without any memory. */
  function FreeShare(ns: NodeStatus): real {
    if ns.memTotalMB == 0 then 0.0 else (ns.memTotalMB - ns.memUsedMB) as real / ns.memTotalMB as real
  }

  /** Of two agents whose reports do not claim more memory used than there is, one scores
      at least as much as the other if and only if what it has more of free memory, in
      percent, makes up for what it has more of CPU load.  So less load on both counts
      never scores less, and strictly less on either scores more. */
  lemma ScoreOrderIff(a: Agent, b: Agent)
    requires a.nodeStatus.Some? && a.nodeStatus.value.memUsedMB <= a.nodeStatus.value.memTotalMB
    requires b.nodeStatus.Some? && b.nodeStatus.value.memUsedMB <= b.nodeStatus.value.memTotalMB
    ensures var x, y := a.nodeStatus.value, b.nodeStatus.value;
            && (b.AvailableScore() <= a.AvailableScore() <==>
                  x.cpuPercent - y.cpuPercent <= (FreeShare(x) - FreeShare(y)) * 100.0)
            && (x.cpuPercent <= y.cpuPercent && FreeShare(y) <= FreeShare(x) ==>
                  b.AvailableScore() <= a.AvailableScore()
                  && (x.cpuPercent < y.cpuPercent || FreeShare(y) < FreeShare(x) ==>
                        b.AvailableScore() < a.AvailableScore()))
  {
    ScoreIs(a);
    ScoreIs(b);
  }

  lemma ScoreIs(a: Agent)
    requires a.nodeStatus.Some? && a.nodeStatus.value.memUsedMB <= a.nodeStatus.value.memTotalMB
    ensures a.AvailableScore() == 100.0 - a.nodeStatus.value.cpuPercent + FreeShare(a.nodeStatus.value) * 100.0
  {
  }

  /** An agent that has not reported yet ranks with one whose free memory, in percent,
      falls short of its CPU load by fifty points; it counts as fitting anything. */
  lemma UnreportedRanksIff(unheard: Agent, a: Agent, fn: Function)
    requires unheard.nodeStatus.None?
    requires a.nodeStatus.Some? && a.nodeStatus.value.memUsedMB <= a.nodeStatus.value.memTotalMB
    ensures unheard.CanFit(fn)
    ensures var ns := a.nodeStatus.value;
            && (unheard.AvailableScore() <= a.AvailableScore() <==> ns.cpuPercent <= 50.0 + FreeShare(ns) * 100.0)
            && (a.AvailableScore() <= unheard.AvailableScore() <==> 50.0 + FreeShare(ns) * 100.0 <= ns.cpuPercent)
  {
    ScoreIs(a);
  }

  lemma Quotient(x: real, y: real, k: real)
    requires 0.0 < y && k * y <= x
    ensures k <= x / y
  {
    assert x / y * y == x;
  }

  const BEST := Agent("", "", 0, 0, Online, "", "", "", Some(NodeStatus("", 0.0, 0.0, 1, 0, 0, 0)))

  /** A node that reports more memory used than it has outranks every honest node,
      instead of ranking below them, if and only if the wrapped free memory, as a
      percentage of the total, exceeds 100 by more than the reported CPU load. */
  lemma OverfullOutranksHonestIff(bad: Agent)
    requires bad.nodeStatus.Some? && 0 < bad.nodeStatus.value.memTotalMB < bad.nodeStatus.value.memUsedMB
    ensures var ns := bad.nodeStatus.value;
            (forall good: Agent :: good.nodeStatus.Some? && Honest(good.nodeStatus.value) ==>
               good.AvailableScore() < bad.AvailableScore())
            <==> 100.0 + ns.cpuPercent < Sub64(ns.memTotalMB, ns.memUsedMB) as real / ns.memTotalMB as real * 100.0
  {
    var ns := bad.nodeStatus.value;
    assert BEST.AvailableScore() == 200.0 && Honest(BEST.nodeStatus.value);
    forall good: Agent | good.nodeStatus.Some? && Honest(good.nodeStatus.value) ensures good.AvailableScore() <= 200.0 {
      ScoreRange(good);
    }
  }

  /** With sizes up to 2^62 MB and a CPU load up to 100 it always does. */
  lemma OverfullOutranksHonest(bad: Agent, good: Agent)
    requires bad.nodeStatus.Some? && good.nodeStatus.Some?
    requires var ns := bad.nodeStatus.value;
             0 < ns.memTotalMB < ns.memUsedMB <= TWO_TO_THE_62 && ns.cpuPercent <= 100.0
    requires Honest(good.nodeStatus.value)
    ensures bad.AvailableScore() > good.AvailableScore()
  {
    var ns := bad.nodeStatus.value;
    Quotient(Sub64(ns.memTotalMB, ns.memUsedMB) as real, ns.memTotalMB as real, 3.0);
    OverfullOutranksHonestIff(bad);
  }
}
