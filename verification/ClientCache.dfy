/** AgentClient.get (pkg/client/agent.go): a cache of clients behind a read/write
    lock, looked up under the read lock and filled under the write lock. */
module ClientCache {
  import opened Models

  type Client = nat

  // ------------------------------------------------------------- one call, alone

  class AgentClient {
    var clients: map<string, Client>

    /** The critical section: look again, then build and store.  None is the build
        error; the caller gives the client a build would return. */
    method GetLocked(address: string, built: Option<Client>) returns (r: Option<Client>)
      modifies this
      ensures address in old(clients) ==> r == Some(old(clients[address])) && clients == old(clients)
      ensures address !in old(clients) ==> r == built
      ensures address !in old(clients) ==>
                clients == if built.Some? then old(clients)[address := built.value] else old(clients)
    {
      if address in clients { return Some(clients[address]); }
      if built.None? { return None; }
      clients := clients[address := built.value];
      r := built;
    }

    method Get(address: string, built: Option<Client>) returns (r: Option<Client>)
      modifies this
      ensures r == if address in old(clients) then Some(old(clients[address])) else built
      ensures forall k :: k in old(clients) ==> k in clients && clients[k] == old(clients[k])
      ensures r.Some? ==> address in clients && clients[address] == r.value
      ensures clients.Keys == old(clients.Keys) + if r.Some? then {address} else {}
    {
      if address in clients { return Some(clients[address]); }
      r := GetLocked(address, built);
    }
  }

  // ------------------------------------------------------------ any number of calls

  /** Where a call stands. */
  datatype Pc =
    | Start
    | Reading               // holds the read lock
    | Read(found: Option<Client>)
    | Missed                // released the read lock, found nothing
    | Locked                // holds the write lock
    | Building
    | Storing(built: Client)
    | Written(built: Client)
    | Done(result: Option<Client>)

  datatype Call = Call(address: string, pc: Pc)

  datatype State = State(
    clients: map<string, Client>,
    calls: map<nat, Call>,
    readers: set<nat>,
    writer: Option<nat>,
    builds: seq<(string, Client)>)    // every client ever built

  datatype Label =
    | Begin(t: nat, address: string)
    | RLock(t: nat)
    | Lookup(t: nat)
    | RUnlock(t: nat)
    | Lock(t: nat)
    | LookAgain(t: nat)
    | BuildFails(t: nat)
    | BuildOk(t: nat, client: Client)
    | Store(t: nat)
    | Unlock(t: nat)

  ghost predicate AtPc(s: State, t: nat, pc: Pc) { t in s.calls && s.calls[t].pc == pc }

  ghost predicate Enabled(s: State, l: Label) {
    match l
    case Begin(t, address) => t !in s.calls
    case RLock(t) => AtPc(s, t, Start) && s.writer == None
    case Lookup(t) => AtPc(s, t, Reading)
    case RUnlock(t) => t in s.calls && s.calls[t].pc.Read?
    case Lock(t) => AtPc(s, t, Missed) && s.writer == None && s.readers == {}
    case LookAgain(t) => AtPc(s, t, Locked)
    case BuildFails(t) => AtPc(s, t, Building)
    case BuildOk(t, client) => AtPc(s, t, Building) && forall k :: 0 <= k < |s.builds| ==> s.builds[k].1 != client
    case Store(t) => t in s.calls && s.calls[t].pc.Storing?
    case Unlock(t) => t in s.calls && s.calls[t].pc.Written?
  }

  ghost function At(s: State, t: nat, pc: Pc): State
    requires t in s.calls
  {
    s.(calls := s.calls[t := s.calls[t].(pc := pc)])
  }

  ghost function Find(s: State, t: nat): Option<Client>
    requires t in s.calls
  {
    if s.calls[t].address in s.clients then Some(s.clients[s.calls[t].address]) else None
  }

  ghost function Apply(s: State, l: Label): State
    requires Enabled(s, l)
  {
    match l
    case Begin(t, address) => s.(calls := s.calls[t := Call(address, Start)])
    case RLock(t) => At(s, t, Reading).(readers := s.readers + {t})
    case Lookup(t) => At(s, t, Pc.Read(Find(s, t)))
    case RUnlock(t) =>
      var found := s.calls[t].pc.found;
      At(s, t, if found.Some? then Done(found) else Missed).(readers := s.readers - {t})
    case Lock(t) => At(s, t, Locked).(writer := Some(t))
    case LookAgain(t) =>
      var found := Find(s, t);
      if found.Some? then At(s, t, Done(found)).(writer := None) else At(s, t, Building)
    case BuildFails(t) => At(s, t, Done(None)).(writer := None)
    case BuildOk(t, client) => At(s, t, Storing(client)).(builds := s.builds + [(s.calls[t].address, client)])
    case Store(t) =>
      var c := s.calls[t];
      At(s, t, Written(c.pc.built)).(clients := s.clients[c.address := c.pc.built])
    case Unlock(t) => At(s, t, Done(Some(s.calls[t].pc.built))).(writer := None)
  }

  ghost predicate Run(states: seq<State>, labels: seq<Label>) {
    && |states| == |labels| + 1 && states[0] == State(map[], map[], {}, None, [])
    && forall i :: 0 <= i < |labels| ==> Enabled(states[i], labels[i]) && states[i+1] == Apply(states[i], labels[i])
  }

  // ------------------------------------------------------------------- invariants

  ghost predicate HoldsRead(pc: Pc) { pc.Reading? || pc.Read? }

  ghost predicate HoldsWrite(pc: Pc) { pc.Locked? || pc.Building? || pc.Storing? || pc.Written? }

  /** The lock's view and the calls' views agree, and a writer excludes everyone else. */
  ghost predicate LockOk(s: State) {
    && (forall t :: t in s.readers <==> t in s.calls && HoldsRead(s.calls[t].pc))
    && (forall t :: s.writer == Some(t) <==> t in s.calls && HoldsWrite(s.calls[t].pc))
    && (s.writer.Some? ==> s.readers == {})
  }

  ghost predicate CallOk(s: State, t: nat)
    requires t in s.calls
  {
    var address, pc := s.calls[t].address, s.calls[t].pc;
    && (pc.Building? ==> address !in s.clients)
    && (pc.Storing? ==> address !in s.clients && |s.builds| > 0 && s.builds[|s.builds|-1] == (address, pc.built))
    && (pc.Written? ==> address in s.clients && s.clients[address] == pc.built)
    && (pc.Read? && pc.found.Some? ==> address in s.clients && s.clients[address] == pc.found.value)
    && (pc.Done? && pc.result.Some? ==> address in s.clients && s.clients[address] == pc.result.value)
  }

  /** The client being stored is the last one built; all others are in the cache. */
  ghost predicate Pending(s: State, k: int)
    requires 0 <= k < |s.builds|
  {
    k == |s.builds| - 1 && s.writer.Some? && s.writer.value in s.calls && s.calls[s.writer.value].pc.Storing?
  }

  ghost predicate BuiltApart(s: State) {
    forall j, k :: 0 <= j < k < |s.builds| ==> s.builds[j].0 != s.builds[k].0 && s.builds[j].1 != s.builds[k].1
  }

  ghost predicate BuiltIsStored(s: State, k: int)
    requires 0 <= k < |s.builds|
  {
    if Pending(s, k) then s.builds[k].0 !in s.clients
    else s.builds[k].0 in s.clients && s.clients[s.builds[k].0] == s.builds[k].1
  }

  ghost predicate EntriesWereBuilt(s: State) {
    forall a :: a in s.clients ==> exists k :: 0 <= k < |s.builds| && s.builds[k].0 == a
  }

  ghost predicate BuildsOk(s: State) {
    BuiltApart(s) && EntriesWereBuilt(s) && forall k :: 0 <= k < |s.builds| ==> BuiltIsStored(s, k)
  }

  ghost predicate Inv(s: State) {
    LockOk(s) && BuildsOk(s) && forall t :: t in s.calls ==> CallOk(s, t)
  }

  lemma StepKeepsLock(s: State, l: Label)
    requires LockOk(s) && Enabled(s, l)
    ensures LockOk(Apply(s, l))
  {
  }

  ghost predicate Extends(s: State, s': State) {
    forall a :: a in s.clients ==> a in s'.clients && s'.clients[a] == s.clients[a]
  }

  lemma StepExtends(s: State, l: Label)
    requires Enabled(s, l) && forall t :: t in s.calls ==> CallOk(s, t)
    ensures Extends(s, Apply(s, l))
  {
    if l.Store? { assert CallOk(s, l.t); }
  }

  lemma StepKeepsCall(s: State, l: Label, t: nat)
    requires LockOk(s) && Enabled(s, l) && t in Apply(s, l).calls
    requires forall u :: u in s.calls ==> CallOk(s, u)
    ensures CallOk(Apply(s, l), t)
  {
    StepExtends(s, l);
    if t in s.calls { assert CallOk(s, t); }
    if l.BuildOk? || l.Store? { assert s.writer == Some(l.t); }
  }

  lemma StepKeepsApart(s: State, l: Label)
    requires Inv(s) && Enabled(s, l)
    ensures BuiltApart(Apply(s, l))
  {
    if l.BuildOk? {
      assert CallOk(s, l.t) && s.writer == Some(l.t);
      forall k | 0 <= k < |s.builds| ensures s.builds[k].0 != s.calls[l.t].address {
        assert BuiltIsStored(s, k);
      }
    }
  }

  lemma StepKeepsEntries(s: State, l: Label)
    requires Inv(s) && Enabled(s, l)
    ensures EntriesWereBuilt(Apply(s, l))
  {
    var s' := Apply(s, l);
    if l.Store? { assert CallOk(s, l.t) && s'.builds[|s'.builds|-1].0 == s.calls[l.t].address; }
    forall a | a in s'.clients ensures exists k :: 0 <= k < |s'.builds| && s'.builds[k].0 == a {
      if a in s.clients {
        var k :| 0 <= k < |s.builds| && s.builds[k].0 == a;
        assert s'.builds[k].0 == a;
      }
    }
  }

  lemma StepKeepsStored(s: State, l: Label, k: int)
    requires Inv(s) && Enabled(s, l) && 0 <= k < |Apply(s, l).builds|
    ensures BuiltIsStored(Apply(s, l), k)
  {
    var s' := Apply(s, l);
    if k < |s.builds| { assert BuiltIsStored(s, k); }
    match l
    case BuildOk(t, client) => assert CallOk(s, t) && s.writer == Some(t);
    case Store(t) =>
      assert CallOk(s, t) && s.writer == Some(t);
      assert k < |s.builds| - 1 ==> s.builds[k].0 != s.builds[|s.builds|-1].0;
    case _ => assert Pending(s, k) == Pending(s', k);
  }

  lemma {:induction false} RunKeepsInv(states: seq<State>, labels: seq<Label>, i: nat)
    requires Run(states, labels) && i < |states|
    ensures Inv(states[i])
  {
    if i > 0 {
      RunKeepsInv(states, labels, i - 1);
      StepKeepsLock(states[i-1], labels[i-1]);
      forall t | t in states[i].calls ensures CallOk(states[i], t) {
        StepKeepsCall(states[i-1], labels[i-1], t);
      }
      StepKeepsApart(states[i-1], labels[i-1]);
      StepKeepsEntries(states[i-1], labels[i-1]);
      forall k | 0 <= k < |states[i].builds| ensures BuiltIsStored(states[i], k) {
        StepKeepsStored(states[i-1], labels[i-1], k);
      }
    }
  }

  lemma {:induction false} EntriesStay(states: seq<State>, labels: seq<Label>, i: nat, j: nat)
    requires Run(states, labels) && i <= j < |states|
    ensures Extends(states[i], states[j])
    decreases j
  {
    if i < j {
      EntriesStay(states, labels, i, j - 1);
      RunKeepsInv(states, labels, j - 1);
      StepExtends(states[j-1], labels[j-1]);
    }
  }

  // -------------------------------------------------------------------- theorems

  /** All successful calls for one address, at any times, return the same client. */
  lemma CallsAgree(states: seq<State>, labels: seq<Label>, i: nat, j: nat, t: nat, u: nat)
    requires Run(states, labels) && i <= j < |states|
    requires t in states[i].calls && u in states[j].calls && states[i].calls[t].address == states[j].calls[u].address
    requires states[i].calls[t].pc.Done? && states[i].calls[t].pc.result.Some?
    requires states[j].calls[u].pc.Done? && states[j].calls[u].pc.result.Some?
    ensures states[i].calls[t].pc.result == states[j].calls[u].pc.result
  {
    RunKeepsInv(states, labels, i);
    RunKeepsInv(states, labels, j);
    EntriesStay(states, labels, i, j);
    assert CallOk(states[i], t) && CallOk(states[j], u);
  }

  /** At most one client is ever built for an address, and every client built is in
      the cache or about to be stored by the writer. */
  lemma BuiltOncePerAddress(states: seq<State>, labels: seq<Label>, i: nat)
    requires Run(states, labels) && i < |states|
    ensures forall j, k :: 0 <= j < k < |states[i].builds| ==> states[i].builds[j].0 != states[i].builds[k].0
    ensures forall k :: 0 <= k < |states[i].builds| ==>
              var (address, client) := states[i].builds[k];
              || (address in states[i].clients && states[i].clients[address] == client)
              || exists t :: t in states[i].calls && states[i].calls[t] == Call(address, Storing(client))
  {
    RunKeepsInv(states, labels, i);
    var s := states[i];
    forall k | 0 <= k < |s.builds|
      ensures var (address, client) := s.builds[k];
              || (address in s.clients && s.clients[address] == client)
              || exists t :: t in s.calls && s.calls[t] == Call(address, Storing(client))
    {
      assert BuiltIsStored(s, k);
      if Pending(s, k) {
        assert CallOk(s, s.writer.value);
        assert s.calls[s.writer.value] == Call(s.builds[k].0, Storing(s.builds[k].1));
      }
    }
  }

  lemma EntriesAreNeverReplaced(states: seq<State>, labels: seq<Label>, i: nat, j: nat, address: string)
    requires Run(states, labels) && i <= j < |states| && address in states[i].clients
    ensures address in states[j].clients && states[j].clients[address] == states[i].clients[address]
  {
    EntriesStay(states, labels, i, j);
  }

  /** While the map is being written nobody reads it and nobody else writes it. */
  lemma WritesAreExclusive(states: seq<State>, labels: seq<Label>, i: nat, t: nat, u: nat)
    requires Run(states, labels) && i < |labels| && labels[i] == Store(t) && u in states[i].calls && u != t
    ensures !HoldsRead(states[i].calls[u].pc) && !HoldsWrite(states[i].calls[u].pc)
  {
    RunKeepsInv(states, labels, i);
  }

  // --------------------------------------------------- what a call did, and returns

  ghost predicate Did(labels: seq<Label>, i: nat, l: Label) {
    exists k :: 0 <= k < i && k < |labels| && labels[k] == l
  }

  ghost predicate Built(labels: seq<Label>, i: nat, t: nat, c: Client) { Did(labels, i, BuildOk(t, c)) }

  /** The call looked and found nothing cached for its address. */
  ghost predicate SawNothing(states: seq<State>, labels: seq<Label>, i: nat, look: Label, address: string) {
    exists k :: 0 <= k < i && k < |labels| && k < |states| && labels[k] == look && address !in states[k].clients
  }

  /** The call looked, under either lock, and found c cached for its address. */
  ghost predicate Saw(states: seq<State>, labels: seq<Label>, i: nat, t: nat, address: string, c: Client) {
    exists k :: && 0 <= k < i && k < |labels| && k < |states| && (labels[k] == Lookup(t) || labels[k] == LookAgain(t))
                && address in states[k].clients && states[k].clients[address] == c
  }

  /** How the call came to where it stands. */
  ghost predicate Traced(states: seq<State>, labels: seq<Label>, i: nat, t: nat, call: Call) {
    var address := call.address;
    && (Did(labels, i, BuildFails(t)) <==> call.pc == Done(None))
    && (forall c :: Built(labels, i, t, c) ==> call.pc == Storing(c) || call.pc == Written(c) || call.pc == Done(Some(c)))
    && match call.pc
       case Read(None) => SawNothing(states, labels, i, Lookup(t), address)
       case Read(Some(c)) => Saw(states, labels, i, t, address, c)
       case Missed => SawNothing(states, labels, i, Lookup(t), address)
       case Locked => SawNothing(states, labels, i, Lookup(t), address)
       case Building => SawNothing(states, labels, i, Lookup(t), address) && SawNothing(states, labels, i, LookAgain(t), address)
       case Storing(c) => Built(labels, i, t, c)
       case Written(c) => Built(labels, i, t, c)
       case Done(Some(c)) => Saw(states, labels, i, t, address, c) || Built(labels, i, t, c)
       case _ => true
  }

  /** What was done stays done. */
  lemma PastStays(states: seq<State>, labels: seq<Label>, i: nat, t: nat, address: string)
    ensures forall l :: Did(labels, i, l) ==> Did(labels, i + 1, l)
    ensures forall look :: SawNothing(states, labels, i, look, address) ==> SawNothing(states, labels, i + 1, look, address)
    ensures forall c :: Saw(states, labels, i, t, address, c) ==> Saw(states, labels, i + 1, t, address, c)
  {
  }

  lemma DidNext(labels: seq<Label>, i: nat, l: Label)
    requires i < |labels|
    ensures Did(labels, i + 1, l) <==> Did(labels, i, l) || labels[i] == l
  {
  }

  /** A step of another call. */
  lemma TracedByOther(states: seq<State>, labels: seq<Label>, i: nat, t: nat, call: Call)
    requires i < |labels| && labels[i].t != t && Traced(states, labels, i, t, call)
    ensures Traced(states, labels, i + 1, t, call)
  {
    PastStays(states, labels, i, t, call.address);
    DidNext(labels, i, BuildFails(t));
    forall c | Built(labels, i + 1, t, c) ensures Built(labels, i, t, c) { DidNext(labels, i, BuildOk(t, c)); }
  }

  ghost predicate StepAt(states: seq<State>, labels: seq<Label>, i: nat, t: nat) {
    && i < |labels| && i + 1 < |states| && Enabled(states[i], labels[i]) && states[i+1] == Apply(states[i], labels[i])
    && labels[i].t == t && t in states[i].calls
  }

  lemma LookTraced(states: seq<State>, labels: seq<Label>, i: nat, t: nat)
    requires StepAt(states, labels, i, t) && (labels[i] == Lookup(t) || labels[i] == LookAgain(t))
    requires Traced(states, labels, i, t, states[i].calls[t])
    ensures t in states[i+1].calls && Traced(states, labels, i + 1, t, states[i+1].calls[t])
  {
    var address := states[i].calls[t].address;
    PastStays(states, labels, i, t, address);
    DidNext(labels, i, BuildFails(t));
    forall c ensures Built(labels, i + 1, t, c) <==> Built(labels, i, t, c) { DidNext(labels, i, BuildOk(t, c)); }
    if address in states[i].clients {
      assert Saw(states, labels, i + 1, t, address, states[i].clients[address]);
    } else {
      assert SawNothing(states, labels, i + 1, labels[i], address);
    }
  }

  lemma OtherStepTraced(states: seq<State>, labels: seq<Label>, i: nat, t: nat)
    requires StepAt(states, labels, i, t) && labels[i] != Lookup(t) && labels[i] != LookAgain(t)
    requires Traced(states, labels, i, t, states[i].calls[t])
    ensures t in states[i+1].calls && Traced(states, labels, i + 1, t, states[i+1].calls[t])
  {
    PastStays(states, labels, i, t, states[i].calls[t].address);
    DidNext(labels, i, BuildFails(t));
    forall c ensures Built(labels, i + 1, t, c) <==> Built(labels, i, t, c) || labels[i] == BuildOk(t, c) {
      DidNext(labels, i, BuildOk(t, c));
    }
  }

  ghost predicate TracedAt(states: seq<State>, labels: seq<Label>, i: nat, t: nat)
    requires i < |states|
  {
    if t in states[i].calls then Traced(states, labels, i, t, states[i].calls[t])
    else forall k :: 0 <= k < i && k < |labels| ==> labels[k].t != t
  }

  lemma TracedStep(states: seq<State>, labels: seq<Label>, i: nat, t: nat)
    requires i < |labels| && i + 1 < |states| && Enabled(states[i], labels[i]) && states[i+1] == Apply(states[i], labels[i])
    requires TracedAt(states, labels, i, t)
    ensures TracedAt(states, labels, i + 1, t)
  {
    if labels[i].t != t {
      if t in states[i].calls { TracedByOther(states, labels, i, t, states[i].calls[t]); }
    } else if t !in states[i].calls {
      assert Traced(states, labels, i + 1, t, states[i+1].calls[t]);
    } else if labels[i] == Lookup(t) || labels[i] == LookAgain(t) {
      LookTraced(states, labels, i, t);
    } else {
      OtherStepTraced(states, labels, i, t);
    }
  }

  lemma {:induction false} RunTraced(states: seq<State>, labels: seq<Label>, i: nat, t: nat)
    requires Run(states, labels) && i < |states|
    ensures TracedAt(states, labels, i, t)
  {
    if i > 0 {
      RunTraced(states, labels, i - 1, t);
      assert Enabled(states[i-1], labels[i-1]) && states[i-1+1] == Apply(states[i-1], labels[i-1]);
      TracedStep(states, labels, i - 1, t);
    }
  }

  /** A call returns an error if and only if its own build failed; a call that built a
      client never returns anything else; and any other call returns a client it found
      in the cache for its address. */
  lemma ResultIs(states: seq<State>, labels: seq<Label>, i: nat, t: nat)
    requires Run(states, labels) && i < |states| && t in states[i].calls
    ensures states[i].calls[t].pc == Done(None) <==> exists k :: 0 <= k < i && labels[k] == BuildFails(t)
    ensures forall k, c: Client :: 0 <= k < i && labels[k] == BuildOk(t, c) && states[i].calls[t].pc.Done? ==>
              states[i].calls[t].pc.result == Some(c)
    ensures states[i].calls[t].pc.Done? && states[i].calls[t].pc.result.Some? ==>
              var address, c := states[i].calls[t].address, states[i].calls[t].pc.result.value;
              || (exists k :: 0 <= k < i && labels[k] == BuildOk(t, c))
              || exists k :: && 0 <= k < i && (labels[k] == Lookup(t) || labels[k] == LookAgain(t))
                             && address in states[k].clients && states[k].clients[address] == c
  {
    RunTraced(states, labels, i, t);
    assert forall k, c: Client :: 0 <= k < i && labels[k] == BuildOk(t, c) ==> Built(labels, i, t, c);
  }

  /** A call takes the write lock only after it found nothing under the read lock, and
      builds only after it found nothing under the write lock either. */
  lemma LooksFirst(states: seq<State>, labels: seq<Label>, i: nat, t: nat)
    requires Run(states, labels) && i < |labels| && t in states[i].calls
    ensures labels[i] == Lock(t) ==>
              exists k :: 0 <= k < i && labels[k] == Lookup(t) && states[i].calls[t].address !in states[k].clients
    ensures labels[i] == BuildFails(t) || (labels[i].BuildOk? && labels[i].t == t) ==>
              exists k :: 0 <= k < i && labels[k] == LookAgain(t) && states[i].calls[t].address !in states[k].clients
  {
    RunTraced(states, labels, i, t);
    assert Enabled(states[i], labels[i]);
  }

  /** No call is ever stuck for good: some call that has not returned can move. */
  lemma SomeoneMoves(states: seq<State>, labels: seq<Label>, i: nat, t: nat)
    requires Run(states, labels) && i < |states| && t in states[i].calls && !states[i].calls[t].pc.Done?
    ensures exists l :: Enabled(states[i], l) && l.t in states[i].calls && !states[i].calls[l.t].pc.Done?
  {
    RunKeepsInv(states, labels, i);
    var s := states[i];
    var u := t;
    if s.writer.Some? { u := s.writer.value; } else if u' :| u' in s.readers { u := u'; }
    assert u in s.calls && !s.calls[u].pc.Done?;
    match s.calls[u].pc
    case Start => assert Enabled(s, RLock(u));
    case Reading => assert Enabled(s, Lookup(u));
    case Read(_) => assert Enabled(s, RUnlock(u));
    case Missed => assert Enabled(s, Lock(u));
    case Locked => assert Enabled(s, LookAgain(u));
    case Building => assert Enabled(s, BuildFails(u));
    case Storing(_) => assert Enabled(s, Store(u));
    case Written(_) => assert Enabled(s, Unlock(u));
  }

  // ------------------------------------------------------------- one call among the steps

  /** A call that nothing interleaves with, from its beginning. */
  ghost predicate Alone(states: seq<State>, labels: seq<Label>, t: nat, address: string) {
    && |states| == |labels| + 1 && labels != [] && labels[0] == Begin(t, address)
    && forall i :: 0 <= i < |labels| ==> StepOf(t, states[i], labels[i], states[i+1])
  }

  ghost predicate StepOf(t: nat, s: State, l: Label, s': State) { l.t == t && Enabled(s, l) && s' == Apply(s, l) }

  /** The cache found by the call, and what it makes of it. */
  ghost predicate AloneAt(clients: map<string, Client>, s: State, t: nat, address: string) {
    && t in s.calls && s.calls[t].address == address
    && match s.calls[t].pc
       case Start => s.clients == clients
       case Reading => s.clients == clients
       case Read(found) => s.clients == clients && found == CachedAs(clients, address)
       case Missed => s.clients == clients && address !in clients
       case Locked => s.clients == clients && address !in clients
       case Building => s.clients == clients && address !in clients
       case Storing(_) => s.clients == clients && address !in clients
       case Written(built) => s.clients == clients[address := built] && address !in clients
       case Done(result) => GetLeaves(clients, address, result, s.clients)
  }

  function CachedAs(clients: map<string, Client>, address: string): Option<Client> {
    if address in clients then Some(clients[address]) else None
  }

  /** What AgentClient.Get leaves, for some client or error of the build. */
  ghost predicate GetLeaves(clients: map<string, Client>, address: string, result: Option<Client>,
                            clients': map<string, Client>) {
    && (address in clients ==> result == Some(clients[address]))
    && clients' == if result.Some? then clients[address := result.value] else clients
  }

  lemma {:induction false} AloneHolds(states: seq<State>, labels: seq<Label>, t: nat, address: string, n: nat)
    requires Alone(states, labels, t, address) && 0 < n < |states|
    ensures AloneAt(states[0].clients, states[n], t, address)
  {
    var m := n - 1;
    assert StepOf(t, states[m], labels[m], states[n]);
    if m > 0 { AloneHolds(states, labels, t, address, m); }
  }

  ghost predicate Reached(s: State, t: nat, address: string, now: State) {
    exists states, labels :: Alone(states, labels, t, address) && states[0] == s && states[|labels|] == now
  }

  lemma GoesOn(s: State, t: nat, address: string, now: State, l: Label) returns (next: State)
    requires Reached(s, t, address, now) && l.t == t && Enabled(now, l)
    ensures Reached(s, t, address, next) && next == Apply(now, l)
  {
    var states, labels :| Alone(states, labels, t, address) && states[0] == s && states[|labels|] == now;
    next := Apply(now, l);
    var more, done := states + [next], labels + [l];
    forall i | 0 <= i < |done| ensures StepOf(t, more[i], done[i], more[i+1]) {
      if i < |labels| { assert StepOf(t, states[i], labels[i], states[i+1]); }
    }
    assert Alone(more, done, t, address) && more[0] == s && more[|done|] == next;
  }

  lemma LookOnce(s: State, t: nat, address: string) returns (now: State)
    requires s.writer == None && s.readers == {} && t !in s.calls
    ensures Reached(s, t, address, now) && now.clients == s.clients && now.builds == s.builds
    ensures now.writer == None && now.readers == {} && t in now.calls
    ensures now.calls[t] == Call(address, if address in s.clients then Done(Some(s.clients[address])) else Missed)
  {
    now := Apply(s, Begin(t, address));
    assert Alone([s, now], [Begin(t, address)], t, address) && [s, now][1] == now;
    now := GoesOn(s, t, address, now, RLock(t));
    now := GoesOn(s, t, address, now, Lookup(t));
    now := GoesOn(s, t, address, now, RUnlock(t));
  }

  lemma BuildOnce(s: State, t: nat, address: string, now: State, built: Option<Client>) returns (end: State)
    requires Reached(s, t, address, now) && t in now.calls && now.calls[t] == Call(address, Missed)
    requires now.writer == None && now.readers == {} && address !in now.clients
    requires built.Some? ==> forall k :: 0 <= k < |now.builds| ==> now.builds[k].1 != built.value
    ensures Reached(s, t, address, end) && t in end.calls && end.calls[t].pc == Done(built)
    ensures end.clients == if built.Some? then now.clients[address := built.value] else now.clients
  {
    end := GoesOn(s, t, address, now, Lock(t));
    end := GoesOn(s, t, address, end, LookAgain(t));
    if built.None? {
      end := GoesOn(s, t, address, end, BuildFails(t));
    } else {
      end := GoesOn(s, t, address, end, BuildOk(t, built.value));
      end := GoesOn(s, t, address, end, Store(t));
      end := GoesOn(s, t, address, end, Unlock(t));
    }
  }

  /** A call that finds the lock free and that nothing interleaves with can end exactly as
      AgentClient.Get does: with the cached client, or with whatever the build gives, and
      the cache changed accordingly. */
  lemma AloneIsGetIff(s: State, t: nat, address: string, result: Option<Client>, clients': map<string, Client>)
    requires s.writer == None && s.readers == {} && t !in s.calls
    requires address !in s.clients && result.Some? ==> forall k :: 0 <= k < |s.builds| ==> s.builds[k].1 != result.value
    ensures (exists end :: Reached(s, t, address, end) && AtPc(end, t, Done(result)) && end.clients == clients') <==>
            GetLeaves(s.clients, address, result, clients')
  {
    if end :| Reached(s, t, address, end) && AtPc(end, t, Done(result)) && end.clients == clients' {
      var states, labels :| Alone(states, labels, t, address) && states[0] == s && states[|labels|] == end;
      AloneHolds(states, labels, t, address, |labels|);
    }
    if GetLeaves(s.clients, address, result, clients') {
      var end := LookOnce(s, t, address);
      if address in s.clients {
        assert clients' == s.clients;
      } else {
        end := BuildOnce(s, t, address, end, result);
      }
      assert Reached(s, t, address, end) && AtPc(end, t, Done(result)) && end.clients == clients';
    }
  }
}
