/** What became of each node that InitializeNodes spawned, told from the steps of its
    goroutine: registered exactly after its bootstrap succeeded, handed to TerminateNode
    exactly after it failed. */
module ProvisioningTraces {
  import opened Provisioning

  ghost predicate Did(labels: seq<Label>, i: nat, l: Label) {
    exists k :: 0 <= k < i && k < |labels| && labels[k] == l
  }

  /** l, and later m. */
  ghost predicate Then(labels: seq<Label>, i: nat, l: Label, m: Label) {
    exists k :: 0 <= k < i && k < |labels| && labels[k] == m && Did(labels, k, l)
  }

  /** l, later m, and still later n. */
  ghost predicate ThenThen(labels: seq<Label>, i: nat, l: Label, m: Label, n: Label) {
    exists k :: 0 <= k < i && k < |labels| && labels[k] == n && Then(labels, k, l, m)
  }

  ghost predicate WasPlaced(labels: seq<Label>, i: nat, t: nat, id: string) {
    ThenThen(labels, i, SpawnOk(t, id), BootOk(t), Register(t))
  }

  ghost predicate WasCleaned(labels: seq<Label>, i: nat, t: nat, id: string) {
    ThenThen(labels, i, SpawnOk(t, id), BootFail(t), Clean(t))
  }

  /** Some goroutine spawned the node, then saw it boot, and then registered it. */
  ghost predicate IsPlaced(labels: seq<Label>, i: nat, id: string) { exists t :: WasPlaced(labels, i, t, id) }

  /** Some goroutine spawned the node, then saw it fail to boot, and then terminated it. */
  ghost predicate IsCleaned(labels: seq<Label>, i: nat, id: string) { exists t :: WasCleaned(labels, i, t, id) }

  /** The goroutine has spawned this node and no other. */
  ghost predicate Spawned(labels: seq<Label>, i: nat, t: nat, id: string) {
    forall x :: Did(labels, i, SpawnOk(t, x)) <==> x == id
  }

  ghost predicate Never(labels: seq<Label>, i: nat, l: Label) { !Did(labels, i, l) }

  /** How the goroutine came to where it stands. */
  ghost predicate Traced(labels: seq<Label>, i: nat, t: nat, task: Task, placed: set<string>, cleaned: set<string>) {
    match task
    case Spawning =>
      && (forall x :: Never(labels, i, SpawnOk(t, x)))
      && Never(labels, i, BootOk(t)) && Never(labels, i, BootFail(t)) && Never(labels, i, Register(t))
      && Never(labels, i, Clean(t))
    case Booting(id) =>
      && Spawned(labels, i, t, id)
      && Never(labels, i, BootOk(t)) && Never(labels, i, BootFail(t)) && Never(labels, i, Register(t))
      && Never(labels, i, Clean(t))
    case Registering(id) =>
      && Spawned(labels, i, t, id) && Then(labels, i, SpawnOk(t, id), BootOk(t))
      && Never(labels, i, BootFail(t)) && Never(labels, i, Register(t)) && Never(labels, i, Clean(t))
    case Cleaning(id) =>
      && Spawned(labels, i, t, id) && Then(labels, i, SpawnOk(t, id), BootFail(t))
      && Never(labels, i, BootOk(t)) && Never(labels, i, Register(t)) && Never(labels, i, Clean(t))
    case Counting(id) =>
      && Spawned(labels, i, t, id) && WasPlaced(labels, i, t, id) && id in placed
      && Never(labels, i, BootFail(t)) && Never(labels, i, Clean(t))
    case Succeeded(id) =>
      && Spawned(labels, i, t, id) && WasPlaced(labels, i, t, id) && id in placed
      && Never(labels, i, BootFail(t)) && Never(labels, i, Clean(t))
    case Failed =>
      && Never(labels, i, BootOk(t)) && Never(labels, i, Register(t))
      && forall x :: Did(labels, i, SpawnOk(t, x)) ==> WasCleaned(labels, i, t, x) && x in cleaned
  }

  ghost predicate TracedAt(s: State, labels: seq<Label>, i: nat, t: nat) {
    if t in s.tasks then Traced(labels, i, t, s.tasks[t], s.placed, s.cleaned)
    else Traced(labels, i, t, Spawning, s.placed, s.cleaned)
  }

  ghost predicate AllTraced(s: State, labels: seq<Label>, i: nat) {
    && (forall t :: TracedAt(s, labels, i, t))
    && (forall id :: id in s.placed ==> IsPlaced(labels, i, id))
    && (forall id :: id in s.cleaned ==> IsCleaned(labels, i, id))
  }

  lemma DidNext(labels: seq<Label>, i: nat, l: Label)
    requires i < |labels|
    ensures Did(labels, i + 1, l) <==> Did(labels, i, l) || labels[i] == l
  {
  }

  lemma ThenStays(labels: seq<Label>, i: nat, l: Label, m: Label, n: Label)
    ensures Then(labels, i, l, m) ==> Then(labels, i + 1, l, m)
    ensures ThenThen(labels, i, l, m, n) ==> ThenThen(labels, i + 1, l, m, n)
  {
  }

  /** The goroutine a step belongs to. */
  ghost predicate IsOf(l: Label, t: nat) {
    match l
    case SpawnOk(u, _) => u == t
    case BootOk(u) => u == t
    case BootFail(u) => u == t
    case Clean(u) => u == t
    case Register(u) => u == t
    case _ => false
  }

  lemma DidOwn(labels: seq<Label>, i: nat, t: nat)
    requires i < |labels|
    ensures forall x :: Did(labels, i + 1, SpawnOk(t, x)) <==> Did(labels, i, SpawnOk(t, x)) || labels[i] == SpawnOk(t, x)
    ensures Did(labels, i + 1, BootOk(t)) <==> Did(labels, i, BootOk(t)) || labels[i] == BootOk(t)
    ensures Did(labels, i + 1, BootFail(t)) <==> Did(labels, i, BootFail(t)) || labels[i] == BootFail(t)
    ensures Did(labels, i + 1, Register(t)) <==> Did(labels, i, Register(t)) || labels[i] == Register(t)
    ensures Did(labels, i + 1, Clean(t)) <==> Did(labels, i, Clean(t)) || labels[i] == Clean(t)
  {
    forall x ensures Did(labels, i + 1, SpawnOk(t, x)) <==> Did(labels, i, SpawnOk(t, x)) || labels[i] == SpawnOk(t, x) {
      DidNext(labels, i, SpawnOk(t, x));
    }
    DidNext(labels, i, BootOk(t));
    DidNext(labels, i, BootFail(t));
    DidNext(labels, i, Register(t));
    DidNext(labels, i, Clean(t));
  }

  /** A step that spawns, boots, cleans or registers nothing for t. */
  lemma TracedElsewhere(labels: seq<Label>, i: nat, t: nat, task: Task, placed: set<string>, cleaned: set<string>,
                        placed': set<string>, cleaned': set<string>)
    requires i < |labels| && !IsOf(labels[i], t) && placed <= placed' && cleaned <= cleaned'
    requires Traced(labels, i, t, task, placed, cleaned)
    ensures Traced(labels, i + 1, t, task, placed', cleaned')
  {
    DidOwn(labels, i, t);
    forall x ensures WasPlaced(labels, i, t, x) ==> WasPlaced(labels, i + 1, t, x) {
      ThenStays(labels, i, SpawnOk(t, x), BootOk(t), Register(t));
    }
    forall x ensures WasCleaned(labels, i, t, x) ==> WasCleaned(labels, i + 1, t, x) {
      ThenStays(labels, i, SpawnOk(t, x), BootFail(t), Clean(t));
    }
  }

  lemma BootTraced(entries: seq<Entry>, s: State, labels: seq<Label>, i: nat, t: nat)
    requires i < |labels| && Enabled(entries, s, labels[i]) && IsOf(labels[i], t) && TracedAt(s, labels, i, t)
    requires !labels[i].Register? && !labels[i].Clean?
    ensures TracedAt(Apply(entries, s, labels[i]), labels, i + 1, t)
  {
    DidOwn(labels, i, t);
    match labels[i]
    case BootOk(_) => assert Then(labels, i + 1, SpawnOk(t, s.tasks[t].id), BootOk(t));
    case BootFail(_) => assert Then(labels, i + 1, SpawnOk(t, s.tasks[t].id), BootFail(t));
    case _ =>
  }

  lemma EndTraced(entries: seq<Entry>, s: State, labels: seq<Label>, i: nat, t: nat)
    requires i < |labels| && Enabled(entries, s, labels[i]) && IsOf(labels[i], t) && TracedAt(s, labels, i, t)
    requires labels[i].Register? || labels[i].Clean?
    ensures TracedAt(Apply(entries, s, labels[i]), labels, i + 1, t)
  {
    DidOwn(labels, i, t);
    match labels[i]
    case Register(_) => assert WasPlaced(labels, i + 1, t, s.tasks[t].id);
    case Clean(_) => assert WasCleaned(labels, i + 1, t, s.tasks[t].id);
  }

  /** A goroutine that starts, counts itself or fails to spawn. */
  lemma QuietTraced(entries: seq<Entry>, s: State, labels: seq<Label>, i: nat, t: nat)
    requires i < |labels| && Enabled(entries, s, labels[i]) && !IsOf(labels[i], t) && TracedAt(s, labels, i, t)
    ensures TracedAt(Apply(entries, s, labels[i]), labels, i + 1, t)
  {
    var s' := Apply(entries, s, labels[i]);
    var task := if t in s.tasks then s.tasks[t] else Spawning;
    TracedElsewhere(labels, i, t, task, s.placed, s.cleaned, s'.placed, s'.cleaned);
  }

  lemma NewlyPlaced(entries: seq<Entry>, s: State, labels: seq<Label>, i: nat, id: string)
    requires i < |labels| && Enabled(entries, s, labels[i]) && AllTraced(s, labels, i)
    requires id in Apply(entries, s, labels[i]).placed
    ensures IsPlaced(labels, i + 1, id)
  {
    if id in s.placed {
      var t :| WasPlaced(labels, i, t, id);
      ThenStays(labels, i, SpawnOk(t, id), BootOk(t), Register(t));
      assert WasPlaced(labels, i + 1, t, id);
    } else {
      var t := labels[i].t;
      assert TracedAt(s, labels, i, t) && s.tasks[t] == Registering(id);
      assert WasPlaced(labels, i + 1, t, id);
    }
  }

  lemma NewlyCleaned(entries: seq<Entry>, s: State, labels: seq<Label>, i: nat, id: string)
    requires i < |labels| && Enabled(entries, s, labels[i]) && AllTraced(s, labels, i)
    requires id in Apply(entries, s, labels[i]).cleaned
    ensures IsCleaned(labels, i + 1, id)
  {
    if id in s.cleaned {
      var t :| WasCleaned(labels, i, t, id);
      ThenStays(labels, i, SpawnOk(t, id), BootFail(t), Clean(t));
      assert WasCleaned(labels, i + 1, t, id);
    } else {
      var t := labels[i].t;
      assert TracedAt(s, labels, i, t) && s.tasks[t] == Cleaning(id);
      assert WasCleaned(labels, i + 1, t, id);
    }
  }

  lemma StepTraced(entries: seq<Entry>, s: State, labels: seq<Label>, i: nat)
    requires i < |labels| && Enabled(entries, s, labels[i]) && AllTraced(s, labels, i)
    ensures AllTraced(Apply(entries, s, labels[i]), labels, i + 1)
  {
    var s' := Apply(entries, s, labels[i]);
    var next := i + 1;
    forall t ensures TracedAt(s', labels, next, t) {
      assert TracedAt(s, labels, i, t);
      if !IsOf(labels[i], t) {
        QuietTraced(entries, s, labels, i, t);
      } else if labels[i].Register? || labels[i].Clean? {
        EndTraced(entries, s, labels, i, t);
      } else {
        BootTraced(entries, s, labels, i, t);
      }
    }
    forall id | id in s'.placed ensures IsPlaced(labels, i + 1, id) { NewlyPlaced(entries, s, labels, i, id); }
    forall id | id in s'.cleaned ensures IsCleaned(labels, i + 1, id) { NewlyCleaned(entries, s, labels, i, id); }
  }

  lemma {:induction false} RunTraced(entries: seq<Entry>, states: seq<State>, labels: seq<Label>, i: nat)
    requires Run(entries, states, labels) && i < |states|
    ensures AllTraced(states[i], labels, i)
  {
    if i > 0 {
      RunTraced(entries, states, labels, i - 1);
      StepTraced(entries, states[i-1], labels, i - 1);
    }
  }

  lemma PlacedIsIn(s: State, labels: seq<Label>, i: nat, t: nat, id: string)
    requires AllTraced(s, labels, i) && WasPlaced(labels, i, t, id)
    ensures id in s.placed
  {
    InOrder(labels, i, SpawnOk(t, id), BootOk(t), Register(t));
    assert TracedAt(s, labels, i, t);
  }

  lemma CleanedIsIn(s: State, labels: seq<Label>, i: nat, t: nat, id: string)
    requires AllTraced(s, labels, i) && WasCleaned(labels, i, t, id)
    ensures id in s.cleaned
  {
    InOrder(labels, i, SpawnOk(t, id), BootFail(t), Clean(t));
    assert TracedAt(s, labels, i, t);
  }

  lemma InOrder(labels: seq<Label>, i: nat, l: Label, m: Label, n: Label)
    requires ThenThen(labels, i, l, m, n)
    ensures Did(labels, i, l) && Did(labels, i, m) && Did(labels, i, n)
  {
    var k :| 0 <= k < i && k < |labels| && labels[k] == n && Then(labels, k, l, m);
    var j :| 0 <= j < k && j < |labels| && labels[j] == m && Did(labels, j, l);
  }

  /** At any time a node has been registered by this call if and only if a goroutine
      spawned it, then saw its bootstrap succeed, and then registered it; it has been
      handed to TerminateNode if and only if a goroutine spawned it, then saw its
      bootstrap fail, and then did so. */
  lemma NodesFollowTheirBootstrap(entries: seq<Entry>, states: seq<State>, labels: seq<Label>, i: nat, id: string)
    requires Run(entries, states, labels) && i < |states|
    ensures id in states[i].placed <==> IsPlaced(labels, i, id)
    ensures id in states[i].cleaned <==> IsCleaned(labels, i, id)
  {
    RunTraced(entries, states, labels, i);
    if IsPlaced(labels, i, id) {
      var t :| WasPlaced(labels, i, t, id);
      PlacedIsIn(states[i], labels, i, t, id);
    }
    if IsCleaned(labels, i, id) {
      var t :| WasCleaned(labels, i, t, id);
      CleanedIsIn(states[i], labels, i, t, id);
    }
  }

  /** A node whose bootstrap failed is never registered, whatever else happens. */
  lemma FailedBootIsNotRegistered(entries: seq<Entry>, states: seq<State>, labels: seq<Label>, i: nat, j: nat, t: nat)
    requires Run(entries, states, labels) && i < |labels| && j < |labels| && labels[i] == BootFail(t)
    ensures labels[j] != Register(t) && labels[j] != BootOk(t)
  {
    RunTraced(entries, states, labels, |labels|);
    assert TracedAt(states[|labels|], labels, |labels|, t);
    assert Did(labels, |labels|, BootFail(t));
    if labels[j] == Register(t) || labels[j] == BootOk(t) {
      assert Did(labels, |labels|, labels[j]);
    }
  }
}
