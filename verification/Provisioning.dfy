/** ProvidersManager.InitializeNodes: a loop over the configured providers starts
    one goroutine for each node that is missing, each goroutine spawns, bootstraps
    and registers a node, and the call returns when all have ended.  Goroutines run
    interleaved with the loop and with each other, and, where a property allows it,
    with anything else that changes the fleet. */
module Provisioning {

  datatype Entry = Entry(minNodes: int, hasTypes: bool)

  datatype Task =
    | Spawning
    | Booting(id: string)
    | Cleaning(id: string)       // bootstrap failed, TerminateNode is next
    | Registering(id: string)
    | Counting(id: string)       // registered, succeeded.Add(1) is next
    | Succeeded(id: string)
    | Failed

  datatype State = State(
    agents: set<string>,         // registered agent ids
    owner: map<string, int>,     // the entry whose provider an agent belongs to, if any
    next: nat,                   // entries the loop has visited
    counts: seq<nat>,            // how many agents it found at each of them
    pending: nat,                // goroutines the loop has still to start for the last of them
    tasks: map<nat, Task>,
    entry: map<nat, int>,        // the entry a goroutine was started for
    attempted: nat,
    succeeded: nat,
    returned: bool,
    launched: set<string>,       // nodes spawned by this call
    placed: set<string>,         // nodes registered by this call
    cleaned: set<string>)        // nodes this call handed to TerminateNode

  datatype Label =
    | Visit
    | Start(t: nat)
    | SpawnOk(t: nat, id: string)
    | SpawnFail(t: nat)
    | BootOk(t: nat)
    | BootFail(t: nat)
    | Clean(t: nat)
    | Register(t: nat)
    | Count(t: nat)
    | Return
    | Others(agents: set<string>, owner: map<string, int>)   // the rest of the program changes the fleet

  ghost predicate Enabled(entries: seq<Entry>, s: State, l: Label) {
    match l
    case Visit => s.next < |entries| && s.pending == 0
    case Start(t) => s.pending > 0 && t !in s.tasks
    case SpawnOk(t, id) => t in s.tasks && s.tasks[t].Spawning? && id !in s.launched && id !in s.agents
    case SpawnFail(t) => t in s.tasks && s.tasks[t].Spawning?
    case BootOk(t) => t in s.tasks && s.tasks[t].Booting?
    case BootFail(t) => t in s.tasks && s.tasks[t].Booting?
    case Clean(t) => t in s.tasks && s.tasks[t].Cleaning?
    case Register(t) => t in s.tasks && s.tasks[t].Registering?
    case Count(t) => t in s.tasks && s.tasks[t].Counting?
    case Return => s.next == |entries| && s.pending == 0 && forall t :: t in s.tasks ==> Over(s.tasks[t])
    case Others(_, _) => true
  }

  predicate Over(task: Task) { task.Succeeded? || task.Failed? }

  /** How many nodes the loop asks for when it finds `total` agents. */
  function Need(e: Entry, total: nat): nat {
    if e.hasTypes && e.minNodes > total then e.minNodes - total else 0
  }

  ghost function EntryOf(s: State, t: nat): int { if t in s.entry then s.entry[t] else -1 }

  ghost function At(s: State, t: nat, task: Task): State { s.(tasks := s.tasks[t := task]) }

  ghost function Apply(entries: seq<Entry>, s: State, l: Label): State
    requires Enabled(entries, s, l)
  {
    match l
    case Visit =>
      s.(next := s.next + 1, counts := s.counts + [|s.agents|], pending := Need(entries[s.next], |s.agents|))
    case Start(t) =>
      At(s, t, Spawning).(pending := s.pending - 1, attempted := s.attempted + 1, entry := s.entry[t := s.next - 1])
    case SpawnOk(t, id) => At(s, t, Booting(id)).(launched := s.launched + {id})
    case SpawnFail(t) => At(s, t, Failed)
    case BootOk(t) => At(s, t, Registering(s.tasks[t].id))
    case BootFail(t) => At(s, t, Cleaning(s.tasks[t].id))
    case Clean(t) => At(s, t, Failed).(cleaned := s.cleaned + {s.tasks[t].id})
    case Register(t) =>
      var id := s.tasks[t].id;
      At(s, t, Counting(id)).(agents := s.agents + {id}, owner := s.owner[id := EntryOf(s, t)], placed := s.placed + {id})
    case Count(t) => At(s, t, Succeeded(s.tasks[t].id)).(succeeded := s.succeeded + 1)
    case Return => s.(returned := true)
    case Others(agents, owner) => s.(agents := agents, owner := owner)
  }

  /** The start of the call. */
  ghost function Fresh(agents: set<string>, owner: map<string, int>): State {
    State(agents, owner, 0, [], 0, map[], map[], 0, 0, false, {}, {}, {})
  }

  ghost predicate Run(entries: seq<Entry>, states: seq<State>, labels: seq<Label>) {
    && |states| == |labels| + 1
    && states[0] == Fresh(states[0].agents, states[0].owner)
    && forall i :: 0 <= i < |labels| ==>
         Enabled(entries, states[i], labels[i]) && states[i+1] == Apply(entries, states[i], labels[i])
  }

  // ------------------------------------------------------------------- the nodes

  predicate Holds(task: Task) { task.Booting? || task.Cleaning? || task.Registering? }

  predicate HasPlaced(task: Task) { task.Counting? || task.Succeeded? }

  predicate HasNode(task: Task) { Holds(task) || HasPlaced(task) }

  ghost function Placers(tasks: map<nat, Task>): set<nat> { set t | t in tasks && HasPlaced(tasks[t]) }

  ghost function Counted(tasks: map<nat, Task>): set<nat> { set t | t in tasks && tasks[t].Succeeded? }

  ghost predicate NodesLaunched(s: State) {
    forall t :: t in s.tasks && HasNode(s.tasks[t]) ==> s.tasks[t].id in s.launched
  }

  /** Each node a goroutine holds or has placed is its own. */
  ghost predicate NodesOwn(s: State) {
    forall t, u :: t in s.tasks && u in s.tasks && t != u && HasNode(s.tasks[t]) && HasNode(s.tasks[u]) ==>
      s.tasks[t].id != s.tasks[u].id
  }

  /** A node still held is neither placed nor given up. */
  ghost predicate NodesOpen(s: State) {
    forall t :: t in s.tasks && Holds(s.tasks[t]) ==> s.tasks[t].id !in s.placed && s.tasks[t].id !in s.cleaned
  }

  ghost predicate NodesOk(s: State) { NodesLaunched(s) && NodesOwn(s) && NodesOpen(s) && s.placed !! s.cleaned }

  /** Every node spawned is held by a goroutine, placed, or handed to TerminateNode. */
  ghost predicate NodesAccounted(s: State) {
    && s.placed <= s.launched && s.cleaned <= s.launched
    && forall id :: id in s.launched ==>
         id in s.placed || id in s.cleaned || exists t :: t in s.tasks && Holds(s.tasks[t]) && s.tasks[t].id == id
  }

  ghost predicate CountsOk(s: State) {
    && s.attempted == |s.tasks|
    && s.succeeded == |Counted(s.tasks)|
    && |s.placed| == |Placers(s.tasks)|
  }

  lemma StepKeepsLaunched(entries: seq<Entry>, s: State, l: Label)
    requires NodesLaunched(s) && Enabled(entries, s, l)
    ensures NodesLaunched(Apply(entries, s, l))
  {
  }

  lemma StepKeepsOwn(entries: seq<Entry>, s: State, l: Label)
    requires NodesLaunched(s) && NodesOwn(s) && Enabled(entries, s, l)
    ensures NodesOwn(Apply(entries, s, l))
  {
  }

  lemma StepKeepsOpen(entries: seq<Entry>, s: State, l: Label)
    requires NodesOwn(s) && NodesOpen(s) && Enabled(entries, s, l)
    requires s.placed <= s.launched && s.cleaned <= s.launched
    ensures NodesOpen(Apply(entries, s, l))
  {
    var s' := Apply(entries, s, l);
    forall t | t in s'.tasks && Holds(s'.tasks[t])
      ensures s'.tasks[t].id !in s'.placed && s'.tasks[t].id !in s'.cleaned
    {
      if t in s.tasks { assert Holds(s.tasks[t]) || l.SpawnOk?; }
    }
  }

  lemma StepKeepsApart(entries: seq<Entry>, s: State, l: Label)
    requires NodesOpen(s) && s.placed !! s.cleaned && Enabled(entries, s, l)
    ensures Apply(entries, s, l).placed !! Apply(entries, s, l).cleaned
  {
  }

  lemma StepKeepsAccounted(entries: seq<Entry>, s: State, l: Label)
    requires NodesAccounted(s) && Enabled(entries, s, l)
    requires NodesOk(s)
    ensures NodesAccounted(Apply(entries, s, l))
  {
    var s' := Apply(entries, s, l);
    forall id | id in s'.launched
      ensures id in s'.placed || id in s'.cleaned
              || exists t :: t in s'.tasks && Holds(s'.tasks[t]) && s'.tasks[t].id == id
    {
      if id in s.launched && id !in s.placed && id !in s.cleaned {
        var t :| t in s.tasks && Holds(s.tasks[t]) && s.tasks[t].id == id;
        assert t in s'.tasks;
      } else if id !in s.launched {
        assert l.SpawnOk? && s'.tasks[l.t] == Booting(id);
      }
    }
  }

  lemma MoveKeepsTotal(tasks: map<nat, Task>, t: nat, task: Task)
    requires t in tasks
    ensures |tasks[t := task]| == |tasks|
  {
    assert tasks[t := task].Keys == tasks.Keys;
  }

  lemma MovePlacers(tasks: map<nat, Task>, t: nat, task: Task)
    requires t in tasks && (HasPlaced(tasks[t]) ==> HasPlaced(task))
    ensures Placers(tasks[t := task]) == Placers(tasks) + if HasPlaced(task) then {t} else {}
  {
  }

  lemma MoveCounted(tasks: map<nat, Task>, t: nat, task: Task)
    requires t in tasks && !tasks[t].Succeeded?
    ensures t !in Counted(tasks)
    ensures Counted(tasks[t := task]) == Counted(tasks) + if task.Succeeded? then {t} else {}
  {
  }

  lemma StartCounts(tasks: map<nat, Task>, t: nat)
    requires t !in tasks
    ensures |tasks[t := Spawning]| == |tasks| + 1
    ensures Placers(tasks[t := Spawning]) == Placers(tasks) && Counted(tasks[t := Spawning]) == Counted(tasks)
  {
    assert tasks[t := Spawning].Keys == tasks.Keys + {t};
  }

  ghost predicate Begins(s: State, s': State, t: nat) {
    && t !in s.tasks && s'.tasks == s.tasks[t := Spawning]
    && s'.attempted == s.attempted + 1 && s'.succeeded == s.succeeded && s'.placed == s.placed
  }

  ghost predicate Moves(s: State, s': State, t: nat, task: Task) {
    && t in s.tasks && !s.tasks[t].Succeeded? && (HasPlaced(s.tasks[t]) ==> HasPlaced(task))
    && s'.tasks == s.tasks[t := task] && s'.attempted == s.attempted
    && s'.succeeded == s.succeeded + (if task.Succeeded? then 1 else 0)
    && if HasPlaced(task) && !HasPlaced(s.tasks[t])
       then exists id :: id !in s.placed && s'.placed == s.placed + {id}
       else s'.placed == s.placed
  }

  /** A step begins one goroutine, moves one, or touches none of them. */
  ghost predicate Shaped(s: State, s': State) {
    || (s'.tasks == s.tasks && s'.attempted == s.attempted && s'.succeeded == s.succeeded && s'.placed == s.placed)
    || (exists t :: Begins(s, s', t))
    || (exists t, task :: Moves(s, s', t, task))
  }

  lemma StepIsShaped(entries: seq<Entry>, s: State, l: Label)
    requires NodesOk(s) && Enabled(entries, s, l)
    ensures Shaped(s, Apply(entries, s, l))
  {
    var s' := Apply(entries, s, l);
    match l
    case Start(t) => assert Begins(s, s', t);
    case SpawnOk(t, id) => assert Moves(s, s', t, s'.tasks[t]);
    case SpawnFail(t) => assert Moves(s, s', t, s'.tasks[t]);
    case BootOk(t) => assert Moves(s, s', t, s'.tasks[t]);
    case BootFail(t) => assert Moves(s, s', t, s'.tasks[t]);
    case Clean(t) => assert Moves(s, s', t, s'.tasks[t]);
    case Register(t) => assert Moves(s, s', t, s'.tasks[t]);
    case Count(t) => assert Moves(s, s', t, s'.tasks[t]);
    case _ =>
  }

  lemma AddSize<T>(a: set<T>, x: T)
    ensures |a + {x}| == |a| + if x in a then 0 else 1
  {
    if x in a { assert a + {x} == a; }
  }

  lemma MoveKeepsCounts(s: State, s': State, t: nat, task: Task)
    requires CountsOk(s) && Moves(s, s', t, task)
    ensures CountsOk(s')
  {
    MoveKeepsTotal(s.tasks, t, task);
    MovePlacers(s.tasks, t, task);
    MoveCounted(s.tasks, t, task);
    AddSize(Placers(s.tasks), t);
    AddSize(Counted(s.tasks), t);
    if HasPlaced(task) && !HasPlaced(s.tasks[t]) {
      var id :| id !in s.placed && s'.placed == s.placed + {id};
      AddSize(s.placed, id);
    }
  }

  lemma StepKeepsCounts(entries: seq<Entry>, s: State, l: Label)
    requires CountsOk(s) && NodesOk(s) && Enabled(entries, s, l)
    ensures CountsOk(Apply(entries, s, l))
  {
    StepIsShaped(entries, s, l);
    ShapeKeepsCounts(s, Apply(entries, s, l));
  }

  lemma ShapeKeepsCounts(s: State, s': State)
    requires CountsOk(s) && Shaped(s, s')
    ensures CountsOk(s')
  {
    if t, task :| Moves(s, s', t, task) {
      MoveKeepsCounts(s, s', t, task);
    } else if t :| Begins(s, s', t) {
      StartCounts(s.tasks, t);
    }
  }

  /** What InitializeNodes reports is what it placed, whatever else goes on: the
      nodes registered by this call number exactly `succeeded`, no more than
      `attempted`, and every other node it spawned was handed to TerminateNode. */
  lemma ReportIsExact(entries: seq<Entry>, states: seq<State>, labels: seq<Label>, i: nat)
    requires Run(entries, states, labels) && i < |labels| && labels[i] == Return
    ensures var s := states[i+1];
            && s.succeeded == |s.placed| <= s.attempted
            && s.launched == s.placed + s.cleaned && s.placed !! s.cleaned
  {
    RunKeepsNodes(entries, states, labels, i);
    var s := states[i];
    assert Counted(s.tasks) == Placers(s.tasks);
    PlacersFit(s.tasks);
  }

  lemma PlacersFit(tasks: map<nat, Task>)
    ensures |Placers(tasks)| <= |tasks|
  {
    SubsetFits(Placers(tasks), tasks.Keys);
  }

  lemma {:induction false} SubsetFits(a: set<nat>, b: set<nat>)
    requires a <= b
    ensures |a| <= |b|
  {
    if a != {} {
      var x :| x in a;
      SubsetFits(a - {x}, b - {x});
    }
  }

  lemma {:induction false} RunKeepsNodes(entries: seq<Entry>, states: seq<State>, labels: seq<Label>, i: nat)
    requires Run(entries, states, labels) && i < |states|
    ensures NodesOk(states[i]) && NodesAccounted(states[i]) && CountsOk(states[i])
  {
    if i == 0 {
      assert Placers(map[]) == {} && Counted(map[]) == {};
    } else {
      RunKeepsNodes(entries, states, labels, i - 1);
      StepKeepsLaunched(entries, states[i-1], labels[i-1]);
      StepKeepsOwn(entries, states[i-1], labels[i-1]);
      StepKeepsOpen(entries, states[i-1], labels[i-1]);
      StepKeepsApart(entries, states[i-1], labels[i-1]);
      StepKeepsAccounted(entries, states[i-1], labels[i-1]);
      StepKeepsCounts(entries, states[i-1], labels[i-1]);
    }
  }

  // ------------------------------------------------------- when nothing else runs

  ghost predicate Alone(labels: seq<Label>) { forall i :: 0 <= i < |labels| ==> !labels[i].Others? }

  /** What is missing for each entry, measured against the fleet before the call. */
  function Shortfalls(entries: seq<Entry>, total: nat): nat {
    if entries == [] then 0
    else Shortfalls(entries[..|entries|-1], total) + Need(entries[|entries|-1], total)
  }

  /** The fleet is what it was plus what this call placed. */
  ghost predicate Grown(s: State, before: set<string>) {
    s.agents == before + s.placed && before !! s.launched && s.placed <= s.launched
  }

  ghost predicate Enough(entries: seq<Entry>, s: State, total: nat) {
    && s.next <= |entries|
    && forall k :: 0 <= k < s.next && entries[k].hasTypes ==> total + s.attempted + s.pending >= entries[k].minNodes
  }

  ghost predicate Frugal(entries: seq<Entry>, s: State, total: nat)
    requires s.next <= |entries|
  {
    s.attempted + s.pending <= Shortfalls(entries[..s.next], total)
  }

  lemma StepKeepsGrown(entries: seq<Entry>, s: State, l: Label, before: set<string>)
    requires Grown(s, before) && NodesOk(s) && Enabled(entries, s, l) && !l.Others?
    ensures Grown(Apply(entries, s, l), before)
  {
  }

  lemma Size(s: State, before: set<string>)
    requires Grown(s, before)
    ensures |s.agents| == |before| + |s.placed|
  {
  }

  lemma ShortfallsGrow(entries: seq<Entry>, next: nat, total: nat)
    requires next < |entries|
    ensures Shortfalls(entries[..next+1], total) == Shortfalls(entries[..next], total) + Need(entries[next], total)
  {
    assert entries[..next+1][..next] == entries[..next];
  }

  /** The loop asks for no more than it would have on the fleet before the call, and
      for enough to lift everything asked so far to the entry's minimum. */
  lemma VisitFits(e: Entry, before: nat, agents: nat, attempted: nat)
    requires before <= agents <= before + attempted
    ensures Need(e, agents) <= Need(e, before)
    ensures e.hasTypes ==> before + attempted + Need(e, agents) >= e.minNodes
  {
  }

  lemma VisitKeepsPlan(entries: seq<Entry>, s: State, before: set<string>)
    requires Grown(s, before) && CountsOk(s) && Enabled(entries, s, Visit)
    requires Enough(entries, s, |before|) && Frugal(entries, s, |before|)
    ensures var s' := Apply(entries, s, Visit); Enough(entries, s', |before|) && Frugal(entries, s', |before|)
  {
    Size(s, before);
    PlacersFit(s.tasks);
    VisitFits(entries[s.next], |before|, |s.agents|, s.attempted);
    ShortfallsGrow(entries, s.next, |before|);
  }

  lemma StepKeepsPlan(entries: seq<Entry>, s: State, l: Label, before: set<string>)
    requires Grown(s, before) && CountsOk(s) && Enabled(entries, s, l)
    requires Enough(entries, s, |before|) && Frugal(entries, s, |before|)
    ensures var s' := Apply(entries, s, l); Enough(entries, s', |before|) && Frugal(entries, s', |before|)
  {
    if l.Visit? { VisitKeepsPlan(entries, s, before); }
  }

  lemma {:induction false} RunKeepsPlan(entries: seq<Entry>, states: seq<State>, labels: seq<Label>, i: nat)
    requires Run(entries, states, labels) && Alone(labels) && i < |states|
    ensures var before := states[0].agents;
            Grown(states[i], before) && Enough(entries, states[i], |before|) && Frugal(entries, states[i], |before|)
  {
    if i > 0 {
      RunKeepsPlan(entries, states, labels, i - 1);
      RunKeepsNodes(entries, states, labels, i - 1);
      StepKeepsGrown(entries, states[i-1], labels[i-1], states[0].agents);
      StepKeepsPlan(entries, states[i-1], labels[i-1], states[0].agents);
    }
  }

  /** Alone, the call never asks for more than the entries' shortfalls, the fleet
      grows by exactly `succeeded`, and if every spawn succeeds it reaches the
      minimum of every entry that has node types. */
  lemma MinimumIsReached(entries: seq<Entry>, states: seq<State>, labels: seq<Label>, i: nat)
    requires Run(entries, states, labels) && Alone(labels) && i < |labels| && labels[i] == Return
    ensures var before, s := |states[0].agents|, states[i+1];
            && s.attempted <= Shortfalls(entries, before)
            && |s.agents| == before + s.succeeded
            && (s.succeeded == s.attempted ==>
                  forall k :: 0 <= k < |entries| && entries[k].hasTypes ==> |s.agents| >= entries[k].minNodes)
  {
    RunKeepsPlan(entries, states, labels, i);
    ReportIsExact(entries, states, labels, i);
    Size(states[i], states[0].agents);
    assert entries[..|entries|] == entries;
  }

  lemma {:induction false} SingleShortfall(entries: seq<Entry>, k: nat, total: nat)
    requires k < |entries| && forall j :: 0 <= j < |entries| && j != k ==> !entries[j].hasTypes
    ensures Shortfalls(entries, total) == Need(entries[k], total)
  {
    var init := entries[..|entries|-1];
    if k < |init| {
      SingleShortfall(init, k, total);
    } else {
      NoShortfall(init, total);
    }
  }

  lemma {:induction false} NoShortfall(entries: seq<Entry>, total: nat)
    requires forall j :: 0 <= j < |entries| ==> !entries[j].hasTypes
    ensures Shortfalls(entries, total) == 0
  {
    if entries != [] { NoShortfall(entries[..|entries|-1], total); }
  }

  /** With one such entry the fleet ends at exactly the larger of its size before
      and that entry's minimum. */
  lemma SingleProviderIsExact(entries: seq<Entry>, states: seq<State>, labels: seq<Label>, i: nat, k: nat)
    requires Run(entries, states, labels) && Alone(labels) && i < |labels| && labels[i] == Return
    requires states[i+1].succeeded == states[i+1].attempted
    requires k < |entries| && entries[k].hasTypes && forall j :: 0 <= j < |entries| && j != k ==> !entries[j].hasTypes
    ensures var before := |states[0].agents|;
            |states[i+1].agents| == if entries[k].minNodes > before then entries[k].minNodes else before
  {
    MinimumIsReached(entries, states, labels, i);
    SingleShortfall(entries, k, |states[0].agents|);
  }

  // ------------------------------------------------------- one provider's own nodes

  /** The agents that belong to entry k's provider. */
  ghost function Own(s: State, k: int): set<string> {
    set id | id in s.agents && id in s.owner && s.owner[id] == k
  }

  /** Entry k's goroutines, and those of them that have registered their node. */
  ghost function Started(s: State, k: int): set<nat> { set t | t in s.tasks && EntryOf(s, t) == k }

  ghost function PlacedFor(s: State, k: int): set<nat> {
    set t | t in s.tasks && EntryOf(s, t) == k && HasPlaced(s.tasks[t])
  }

  /** Each node this call registered went to the provider it was started for. */
  ghost predicate OwnOk(s: State, before: nat, k: int) {
    |Own(s, k)| == before + |PlacedFor(s, k)|
  }

  ghost predicate EntriesOk(s: State) { s.entry.Keys == s.tasks.Keys && |s.counts| == s.next }

  /** Each entry visited has started, or is still starting, what it lacked. */
  ghost predicate StartedOk(entries: seq<Entry>, s: State, k: nat)
    requires k < |entries|
  {
    if k < s.next
    then k < |s.counts| && |Started(s, k)| + (if s.next == k + 1 then s.pending else 0) == Need(entries[k], s.counts[k])
    else Started(s, k) == {}
  }

  ghost predicate StartsBelow(s: State) { forall t :: t in s.entry ==> s.entry[t] < s.next }

  /** The fleet only grew, by no more than the entries before could ask for. */
  ghost predicate CountsFit(entries: seq<Entry>, s: State, before: nat) {
    && s.next <= |entries| && |s.counts| == s.next
    && forall j :: 0 <= j < s.next ==> before <= s.counts[j] <= before + Shortfalls(entries[..j], before)
  }

  lemma StepKeepsEntries(entries: seq<Entry>, s: State, l: Label)
    requires EntriesOk(s) && StartsBelow(s) && Enabled(entries, s, l)
    ensures EntriesOk(Apply(entries, s, l)) && StartsBelow(Apply(entries, s, l))
  {
  }

  lemma StepKeepsCounted(entries: seq<Entry>, s: State, l: Label, before: set<string>)
    requires Grown(s, before) && CountsOk(s) && Enabled(entries, s, l)
    requires CountsFit(entries, s, |before|) && Frugal(entries, s, |before|)
    ensures CountsFit(entries, Apply(entries, s, l), |before|)
  {
    if l.Visit? {
      Size(s, before);
      PlacersFit(s.tasks);
      assert s.next < |entries|;
    }
  }

  /** A set that gains one element, or none. */
  lemma Gains<T>(a: set<T>, b: set<T>, x: T, gains: bool)
    requires x !in a && forall y :: y in b <==> y in a || (gains && y == x)
    ensures |b| == |a| + if gains then 1 else 0
  {
    assert b == if gains then a + {x} else a;
  }

  lemma OnlyStartStarts(entries: seq<Entry>, s: State, l: Label, k: int)
    requires EntriesOk(s) && Enabled(entries, s, l)
    ensures forall t :: t in Started(Apply(entries, s, l), k) <==>
              t in Started(s, k) || (l.Start? && t == l.t && s.next - 1 == k)
  {
    var s' := Apply(entries, s, l);
    forall t ensures t in s'.tasks <==> t in s.tasks || (l.Start? && t == l.t) {}
    forall t | t in s.tasks ensures EntryOf(s', t) == EntryOf(s, t) {}
  }

  lemma StepKeepsStarted(entries: seq<Entry>, s: State, l: Label, k: nat)
    requires k < |entries| && EntriesOk(s) && StartsBelow(s) && StartedOk(entries, s, k) && Enabled(entries, s, l)
    ensures StartedOk(entries, Apply(entries, s, l), k)
  {
    OnlyStartStarts(entries, s, l, k);
    if l.Start? {
      Gains(Started(s, k), Started(Apply(entries, s, l), k), l.t, s.next - 1 == k);
    } else {
      assert Started(Apply(entries, s, l), k) == Started(s, k);
    }
  }

  lemma OnlyRegisterPlaces(entries: seq<Entry>, s: State, l: Label, k: int)
    requires EntriesOk(s) && Enabled(entries, s, l) && !l.Register?
    ensures PlacedFor(Apply(entries, s, l), k) == PlacedFor(s, k)
  {
    var s' := Apply(entries, s, l);
    assert forall t :: t in s.tasks ==> EntryOf(s', t) == EntryOf(s, t);
    assert forall t :: t in s'.tasks && HasPlaced(s'.tasks[t]) <==> t in s.tasks && HasPlaced(s.tasks[t]);
  }

  lemma RegisterOwns(entries: seq<Entry>, s: State, t: nat, k: int)
    requires Enabled(entries, s, Register(t)) && s.tasks[t].id !in s.agents
    ensures |Own(Apply(entries, s, Register(t)), k)| == |Own(s, k)| + if EntryOf(s, t) == k then 1 else 0
  {
    var s', id := Apply(entries, s, Register(t)), s.tasks[t].id;
    forall x ensures x in Own(s', k) <==> x in Own(s, k) || (x == id && EntryOf(s, t) == k) {
    }
    Gains(Own(s, k), Own(s', k), id, EntryOf(s, t) == k);
  }

  lemma RegisterPlaces(entries: seq<Entry>, s: State, t: nat, k: int)
    requires Enabled(entries, s, Register(t))
    ensures |PlacedFor(Apply(entries, s, Register(t)), k)| == |PlacedFor(s, k)| + if EntryOf(s, t) == k then 1 else 0
  {
    var s' := Apply(entries, s, Register(t));
    forall x ensures x in PlacedFor(s', k) <==> x in PlacedFor(s, k) || (x == t && EntryOf(s, t) == k) {
    }
    Gains(PlacedFor(s, k), PlacedFor(s', k), t, EntryOf(s, t) == k);
  }

  lemma StepKeepsOwnNodes(entries: seq<Entry>, s: State, l: Label, grown: set<string>, before: nat, k: int)
    requires Grown(s, grown) && NodesOk(s) && EntriesOk(s) && OwnOk(s, before, k) && Enabled(entries, s, l) && !l.Others?
    ensures OwnOk(Apply(entries, s, l), before, k)
  {
    if l.Register? {
      RegisterOwns(entries, s, l.t, k);
      RegisterPlaces(entries, s, l.t, k);
    } else {
      OnlyRegisterPlaces(entries, s, l, k);
      assert Own(Apply(entries, s, l), k) == Own(s, k);
    }
  }

  lemma {:induction false} RunKeepsOwn(entries: seq<Entry>, states: seq<State>, labels: seq<Label>, i: nat, k: nat)
    requires Run(entries, states, labels) && Alone(labels) && i < |states| && k < |entries|
    ensures EntriesOk(states[i]) && StartsBelow(states[i]) && StartedOk(entries, states[i], k)
    ensures CountsFit(entries, states[i], |states[0].agents|)
    ensures OwnOk(states[i], |Own(states[0], k)|, k)
  {
    if i == 0 {
      assert PlacedFor(states[0], k) == {} && Started(states[0], k) == {};
    } else {
      RunKeepsOwn(entries, states, labels, i - 1, k);
      RunKeepsNodes(entries, states, labels, i - 1);
      RunKeepsPlan(entries, states, labels, i - 1);
      var s, l, before := states[i-1], labels[i-1], states[0].agents;
      StepKeepsEntries(entries, s, l);
      StepKeepsCounted(entries, s, l, before);
      StepKeepsStarted(entries, s, l, k);
      StepKeepsOwnNodes(entries, s, l, before, |Own(states[0], k)|, k);
    }
  }

  /** The call has returned, every spawn succeeded, and nothing else ran. */
  ghost predicate Succeeds(entries: seq<Entry>, states: seq<State>, labels: seq<Label>) {
    && Run(entries, states, labels) && Alone(labels) && |labels| > 0 && labels[|labels|-1] == Return
    && states[|labels|].succeeded == states[|labels|].attempted
  }

  lemma {:induction false} SameSize<T>(a: set<T>, b: set<T>)
    requires a <= b && |a| == |b|
    ensures a == b
  {
    if a != {} {
      var x :| x in a;
      SameSize(a - {x}, b - {x});
    }
  }

  /** A provider gains exactly what its entry lacked when it was counted. */
  lemma OwnNodesGained(entries: seq<Entry>, states: seq<State>, labels: seq<Label>, k: nat)
    requires Succeeds(entries, states, labels) && k < |entries|
    ensures var s := states[|labels|];
            && k < |s.counts| && |Own(s, k)| == |Own(states[0], k)| + Need(entries[k], s.counts[k])
            && |states[0].agents| <= s.counts[k] <= |states[0].agents| + Shortfalls(entries[..k], |states[0].agents|)
  {
    var n, s := |labels|, states[|labels|];
    RunKeepsOwn(entries, states, labels, n, k);
    RunKeepsOwn(entries, states, labels, n - 1, k);
    RunKeepsNodes(entries, states, labels, n);
    SameSize(Counted(s.tasks), s.tasks.Keys);
    forall t | t in s.tasks ensures HasPlaced(s.tasks[t]) { assert t in Counted(s.tasks); }
    assert PlacedFor(s, k) == Started(s, k);
  }

  // --------------------------------------------------- the run that gains the least

  datatype Trace = Trace(states: seq<State>, labels: seq<Label>)

  ghost predicate IsTrace(entries: seq<Entry>, tr: Trace) {
    Run(entries, tr.states, tr.labels) && Alone(tr.labels)
  }

  ghost function Last(tr: Trace): State
    requires |tr.states| == |tr.labels| + 1
  {
    tr.states[|tr.labels|]
  }

  lemma Go(entries: seq<Entry>, tr: Trace, l: Label) returns (tr': Trace)
    requires IsTrace(entries, tr) && Enabled(entries, Last(tr), l) && !l.Others?
    ensures IsTrace(entries, tr') && tr'.states[0] == tr.states[0] && tr'.labels == tr.labels + [l]
    ensures Last(tr') == Apply(entries, Last(tr), l)
  {
    tr' := Trace(tr.states + [Apply(entries, Last(tr), l)], tr.labels + [l]);
    forall i | 0 <= i < |tr'.labels|
      ensures Enabled(entries, tr'.states[i], tr'.labels[i])
              && tr'.states[i+1] == Apply(entries, tr'.states[i], tr'.labels[i])
    {
      if i < |tr.labels| { assert tr'.states[i] == tr.states[i] && tr'.labels[i] == tr.labels[i]; }
    }
  }

  /** Each goroutine has either done nothing yet or ended well. */
  ghost predicate Ready(s: State) {
    forall t :: t in s.tasks ==> t < s.attempted && (s.tasks[t].Spawning? || s.tasks[t].Succeeded?)
  }

  /** The loop stands between two entries, or at the same point of one. */
  ghost predicate SamePoint(s: State, s': State) {
    s'.next == s.next && s'.counts == s.counts && s'.pending == s.pending && s'.attempted == s.attempted
  }

  lemma {:induction false} StartAll(entries: seq<Entry>, tr: Trace) returns (tr': Trace)
    requires IsTrace(entries, tr) && Ready(Last(tr))
    ensures IsTrace(entries, tr') && tr'.states[0] == tr.states[0] && Ready(Last(tr'))
    ensures var s, s' := Last(tr), Last(tr');
            && s'.agents == s.agents && s'.next == s.next && s'.counts == s.counts
            && s'.pending == 0 && s'.attempted == s.attempted + s.pending
    decreases Last(tr).pending
  {
    if Last(tr).pending == 0 { return tr; }
    tr' := Go(entries, tr, Start(Last(tr).attempted));
    tr' := StartAll(entries, tr');
  }

  lemma {:induction false} Longer(ids: set<string>) returns (n: nat)
    ensures forall id :: id in ids ==> |id| < n
  {
    n := 0;
    if ids != {} {
      var x :| x in ids;
      n := Longer(ids - {x});
      n := if |x| < n then n else |x| + 1;
    }
  }

  lemma FinishOne(entries: seq<Entry>, tr: Trace, t: nat) returns (tr': Trace)
    requires IsTrace(entries, tr) && Ready(Last(tr)) && t in Last(tr).tasks && Last(tr).tasks[t].Spawning?
    ensures IsTrace(entries, tr') && tr'.states[0] == tr.states[0] && Ready(Last(tr'))
    ensures SamePoint(Last(tr), Last(tr'))
    ensures exists id :: Last(tr').tasks == Last(tr).tasks[t := Task.Succeeded(id)]
  {
    var s := Last(tr);
    var n := Longer(s.launched + s.agents);
    var id := seq(n, _ => 'a');
    tr' := Go(entries, tr, SpawnOk(t, id));
    tr' := Go(entries, tr', BootOk(t));
    tr' := Go(entries, tr', Label.Register(t));
    tr' := Go(entries, tr', Count(t));
    assert Last(tr').tasks == s.tasks[t := Task.Succeeded(id)];
  }

  ghost function Unfinished(s: State): set<nat> { set t | t in s.tasks && s.tasks[t].Spawning? }

  lemma {:induction false} FinishAll(entries: seq<Entry>, tr: Trace) returns (tr': Trace)
    requires IsTrace(entries, tr) && Ready(Last(tr))
    ensures IsTrace(entries, tr') && tr'.states[0] == tr.states[0] && Ready(Last(tr'))
    ensures SamePoint(Last(tr), Last(tr')) && Unfinished(Last(tr')) == {}
    decreases |Unfinished(Last(tr))|
  {
    if Unfinished(Last(tr)) == {} { return tr; }
    var t :| t in Unfinished(Last(tr));
    tr' := FinishOne(entries, tr, t);
    assert Unfinished(Last(tr')) == Unfinished(Last(tr)) - {t};
    tr' := FinishAll(entries, tr');
  }

  /** Once all have ended well, everything asked for is registered and counted. */
  lemma AllPlaced(entries: seq<Entry>, tr: Trace)
    requires IsTrace(entries, tr) && Ready(Last(tr)) && Unfinished(Last(tr)) == {}
    ensures |Last(tr).agents| == |tr.states[0].agents| + Last(tr).attempted
    ensures Last(tr).succeeded == Last(tr).attempted
    ensures forall t :: t in Last(tr).tasks ==> Over(Last(tr).tasks[t])
  {
    var s := Last(tr);
    RunKeepsNodes(entries, tr.states, tr.labels, |tr.labels|);
    RunKeepsPlan(entries, tr.states, tr.labels, |tr.labels|);
    Size(s, tr.states[0].agents);
    forall t | t in s.tasks ensures s.tasks[t].Succeeded? { assert t !in Unfinished(s); }
    assert Placers(s.tasks) == s.tasks.Keys && Counted(s.tasks) == s.tasks.Keys;
  }

  lemma VisitOne(entries: seq<Entry>, tr: Trace) returns (tr': Trace)
    requires IsTrace(entries, tr) && Ready(Last(tr)) && Last(tr).pending == 0 && Last(tr).next < |entries|
    ensures IsTrace(entries, tr') && tr'.states[0] == tr.states[0] && Ready(Last(tr'))
    ensures var s, s' := Last(tr), Last(tr');
            && s'.agents == s.agents && s'.next == s.next + 1 && s'.counts == s.counts + [|s.agents|]
            && s'.pending == 0 && s'.attempted == s.attempted + Need(entries[s.next], |s.agents|)
  {
    tr' := Go(entries, tr, Visit);
    tr' := StartAll(entries, tr');
  }

  /** The loop visits entries while no goroutine makes progress. */
  lemma {:induction false} VisitUpTo(entries: seq<Entry>, tr: Trace, k: nat) returns (tr': Trace)
    requires IsTrace(entries, tr) && Ready(Last(tr)) && Last(tr).pending == 0 && Last(tr).next <= k <= |entries|
    ensures IsTrace(entries, tr') && tr'.states[0] == tr.states[0] && Ready(Last(tr'))
    ensures var s, s' := Last(tr), Last(tr');
            && s'.agents == s.agents && s'.next == k && s.counts <= s'.counts && s'.pending == 0
            && s'.attempted - Shortfalls(entries[..k], |s.agents|) == s.attempted - Shortfalls(entries[..s.next], |s.agents|)
    decreases k - Last(tr).next
  {
    if Last(tr).next == k { return tr; }
    ShortfallsGrow(entries, Last(tr).next, |Last(tr).agents|);
    tr' := VisitOne(entries, tr);
    tr' := VisitUpTo(entries, tr', k);
  }

  /** All earlier entries are visited before any node is registered, and all their
      nodes are registered before entry k is counted. */
  lemma LeastRun(entries: seq<Entry>, agents: set<string>, owner: map<string, int>, k: nat) returns (tr: Trace)
    requires k < |entries|
    ensures Succeeds(entries, tr.states, tr.labels) && tr.states[0] == Fresh(agents, owner)
    ensures k < |Last(tr).counts| && Last(tr).counts[k] == |agents| + Shortfalls(entries[..k], |agents|)
  {
    tr := Trace([Fresh(agents, owner)], []);
    tr := VisitUpTo(entries, tr, k);
    tr := FinishAll(entries, tr);
    AllPlaced(entries, tr);
    RunKeepsOwn(entries, tr.states, tr.labels, |tr.labels|, k);
    tr := VisitOne(entries, tr);
    tr := VisitUpTo(entries, tr, |entries|);
    tr := FinishAll(entries, tr);
    AllPlaced(entries, tr);
    tr := Go(entries, tr, Return);
  }

  /** A provider's minimum is reached by its own nodes in every run in which nothing
      else runs and every spawn succeeds, if and only if what its entry lacks is
      enough even when all earlier entries have already filled the fleet. */
  lemma ProviderMinimumIff(entries: seq<Entry>, agents: set<string>, owner: map<string, int>, k: nat)
    requires k < |entries|
    ensures var own := |Own(Fresh(agents, owner), k)|;
            (forall states, labels :: Succeeds(entries, states, labels) && states[0] == Fresh(agents, owner) ==>
               |Own(states[|labels|], k)| >= entries[k].minNodes)
            <==> own + Need(entries[k], |agents| + Shortfalls(entries[..k], |agents|)) >= entries[k].minNodes
  {
    var own, most := |Own(Fresh(agents, owner), k)|, |agents| + Shortfalls(entries[..k], |agents|);
    if own + Need(entries[k], most) >= entries[k].minNodes {
      forall states, labels | Succeeds(entries, states, labels) && states[0] == Fresh(agents, owner)
        ensures |Own(states[|labels|], k)| >= entries[k].minNodes
      {
        OwnNodesGained(entries, states, labels, k);
      }
    } else {
      var tr := LeastRun(entries, agents, owner, k);
      OwnNodesGained(entries, tr.states, tr.labels, k);
    }
  }

  const TWO_PROVIDERS := [Entry(1, true), Entry(1, true)]

  /** So of two providers that each ask for one node, the second can be left with none. */
  lemma SecondProviderCanGetNone() returns (states: seq<State>, labels: seq<Label>)
    ensures Succeeds(TWO_PROVIDERS, states, labels) && states[0] == Fresh({}, map[])
    ensures Own(states[|labels|], 1) == {}
  {
    var tr := LeastRun(TWO_PROVIDERS, {}, map[], 1);
    states, labels := tr.states, tr.labels;
    OwnNodesGained(TWO_PROVIDERS, states, labels, 1);
    assert TWO_PROVIDERS[..1] == [Entry(1, true)] && TWO_PROVIDERS[..1][..0] == [];
    assert Own(states[0], 1) == {};
  }
}
