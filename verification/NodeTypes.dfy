/** Choosing an instance type: pkg/resource/instance_catalog.go and the
    smallest/largest helpers of pkg/resource/scaler.go. */
module NodeTypes {

  datatype NodeType = NodeType(instanceType: string, vcpus: int, memoryGB: real)
  datatype Resources = Resources(vcpus: int, memoryGB: real)
  datatype Selection = Selected(instanceType: string) | InvalidRequirements | NoNodeTypes | NoneFits

  function ResourcesOf(nt: NodeType): Resources { Resources(nt.vcpus, nt.memoryGB) }

  /** Fewer vCPUs, or as many and less memory. */
  predicate Smaller(a: Resources, b: Resources) {
    a.vcpus < b.vcpus || (a.vcpus == b.vcpus && a.memoryGB < b.memoryGB)
  }

  predicate Fits(nt: NodeType, required: Resources) {
    required.vcpus <= nt.vcpus && required.memoryGB <= nt.memoryGB
  }

  function Product(x: real, y: real): (r: real)
    ensures (0.0 < x && 0.0 < y) || (x < 0.0 && y < 0.0) ==> 0.0 < r
    ensures x == 0.0 || y == 0.0 ==> r == 0.0
  {
    x * y
  }

  /** Square of the distance the source takes the root of; the root keeps the order. */
  function Excess(nt: NodeType, required: Resources): real {
    var excessCPU := (nt.vcpus - required.vcpus) as real;
    var excessMem := nt.memoryGB - required.memoryGB;
    Product(excessCPU, excessCPU) + Product(excessMem, excessMem)
  }

  ghost predicate IsSmallest(nodeTypes: seq<NodeType>, r: Resources) {
    if nodeTypes == [] then r == Resources(1, 1.0) else
    && (exists k :: 0 <= k < |nodeTypes| && ResourcesOf(nodeTypes[k]) == r)
    && (forall k :: 0 <= k < |nodeTypes| ==> !Smaller(ResourcesOf(nodeTypes[k]), r))
  }

  ghost predicate IsLargest(nodeTypes: seq<NodeType>, r: Resources) {
    if nodeTypes == [] then r == Resources(1, 1.0) else
    && (exists k :: 0 <= k < |nodeTypes| && ResourcesOf(nodeTypes[k]) == r)
    && (forall k :: 0 <= k < |nodeTypes| ==> !Smaller(r, ResourcesOf(nodeTypes[k])))
  }

  /** k is a tightest entry: it fits, and no entry that fits is tighter. */
  ghost predicate Tightest(nodeTypes: seq<NodeType>, required: Resources, k: int) {
    && 0 <= k < |nodeTypes| && Fits(nodeTypes[k], required)
    && forall j :: 0 <= j < |nodeTypes| && Fits(nodeTypes[j], required) ==>
         Excess(nodeTypes[k], required) <= Excess(nodeTypes[j], required)
  }

  /** What a selection may be.  The sort is not stable, so among equally tight
      entries any may come first. */
  ghost predicate IsSelection(nodeTypes: seq<NodeType>, required: Resources, r: Selection) {
    if required.vcpus <= 0 || required.memoryGB <= 0.0 then r == InvalidRequirements
    else if nodeTypes == [] then r == NoNodeTypes
    else if forall k :: 0 <= k < |nodeTypes| ==> !Fits(nodeTypes[k], required) then r == NoneFits
    else exists k :: Tightest(nodeTypes, required, k) && r == Selected(nodeTypes[k].instanceType)
  }

  /** The name is that of the first entry with the largest resources. */
  ghost predicate IsLargestType(nodeTypes: seq<NodeType>, name: string) {
    if nodeTypes == [] then name == "" else
    exists k :: && 0 <= k < |nodeTypes| && nodeTypes[k].instanceType == name
                && IsLargest(nodeTypes, ResourcesOf(nodeTypes[k]))
                && forall j :: 0 <= j < k ==> ResourcesOf(nodeTypes[j]) != ResourcesOf(nodeTypes[k])
  }

  method SmallestNodeResources(nodeTypes: seq<NodeType>) returns (r: Resources)
    ensures IsSmallest(nodeTypes, r)
  {
    if |nodeTypes| == 0 { return Resources(1, 1.0); }
    var smallest := nodeTypes[0];
    for i := 1 to |nodeTypes|
      invariant exists k :: 0 <= k < i && nodeTypes[k] == smallest
      invariant forall k :: 0 <= k < i ==> !Smaller(ResourcesOf(nodeTypes[k]), ResourcesOf(smallest))
    {
      var nt := nodeTypes[i];
      if nt.vcpus < smallest.vcpus || (nt.vcpus == smallest.vcpus && nt.memoryGB < smallest.memoryGB) {
        smallest := nt;
      }
    }
    r := Resources(smallest.vcpus, smallest.memoryGB);
  }

  method LargestNodeResources(nodeTypes: seq<NodeType>) returns (r: Resources)
    ensures IsLargest(nodeTypes, r)
  {
    if |nodeTypes| == 0 { return Resources(1, 1.0); }
    var largest := nodeTypes[0];
    for i := 1 to |nodeTypes|
      invariant exists k :: 0 <= k < i && nodeTypes[k] == largest
      invariant forall k :: 0 <= k < i ==> !Smaller(ResourcesOf(largest), ResourcesOf(nodeTypes[k]))
    {
      var nt := nodeTypes[i];
      if nt.vcpus > largest.vcpus || (nt.vcpus == largest.vcpus && nt.memoryGB > largest.memoryGB) {
        largest := nt;
      }
    }
    r := Resources(largest.vcpus, largest.memoryGB);
  }

  method LargestInstanceType(nodeTypes: seq<NodeType>) returns (name: string)
    ensures IsLargestType(nodeTypes, name)
  {
    var r := LargestNodeResources(nodeTypes);
    for i := 0 to |nodeTypes|
      invariant forall j :: 0 <= j < i ==> ResourcesOf(nodeTypes[j]) != r
    {
      if nodeTypes[i].vcpus == r.vcpus && nodeTypes[i].memoryGB == r.memoryGB {
        return nodeTypes[i].instanceType;
      }
    }
    return "";
  }

  method SelectInstanceType(nodeTypes: seq<NodeType>, required: Resources) returns (r: Selection)
    ensures IsSelection(nodeTypes, required, r)
  {
    if required.vcpus <= 0 || required.memoryGB <= 0.0 { return InvalidRequirements; }
    if |nodeTypes| == 0 { return NoNodeTypes; }
    var candidates: seq<(string, real)> := [];
    ghost var from: seq<int> := [];
    for i := 0 to |nodeTypes|
      invariant |from| == |candidates|
      invariant forall c :: 0 <= c < |from| ==>
                  && 0 <= from[c] < i && Fits(nodeTypes[from[c]], required)
                  && candidates[c] == (nodeTypes[from[c]].instanceType, Excess(nodeTypes[from[c]], required))
      invariant forall k :: 0 <= k < i && Fits(nodeTypes[k], required) ==> k in from
    {
      var nt := nodeTypes[i];
      if nt.vcpus < required.vcpus || nt.memoryGB < required.memoryGB {
        continue;
      }
      candidates := candidates + [(nt.instanceType, Excess(nt, required))];
      from := from + [i];
    }
    if |candidates| == 0 { return NoneFits; }
    MinimalExists(candidates);
    // The candidate an unstable sort puts first: any one of least score.
    var first :| 0 <= first < |candidates| && IsMinimal(candidates, first);
    assert Tightest(nodeTypes, required, from[first]) by {
      forall j | 0 <= j < |nodeTypes| && Fits(nodeTypes[j], required)
        ensures Excess(nodeTypes[from[first]], required) <= Excess(nodeTypes[j], required)
      {
        var c :| 0 <= c < |from| && from[c] == j;
        assert candidates[first].1 <= candidates[c].1;
      }
    }
    r := Selected(candidates[first].0);
  }

  predicate IsMinimal(candidates: seq<(string, real)>, k: int)
    requires 0 <= k < |candidates|
  {
    forall j :: 0 <= j < |candidates| ==> candidates[k].1 <= candidates[j].1
  }

  lemma {:induction false} MinimalExists(candidates: seq<(string, real)>)
    requires candidates != []
    ensures exists k :: 0 <= k < |candidates| && IsMinimal(candidates, k)
  {
    var n := |candidates|;
    if n == 1 {
      assert IsMinimal(candidates, 0);
    } else {
      var front := candidates[..n-1];
      MinimalExists(front);
      var k :| 0 <= k < n - 1 && IsMinimal(front, k);
      var m := if candidates[k].1 <= candidates[n-1].1 then k else n - 1;
      forall j | 0 <= j < n ensures candidates[m].1 <= candidates[j].1 {
        if j < n - 1 { assert front[j] == candidates[j] && front[k] == candidates[k]; }
      }
      assert IsMinimal(candidates, m);
    }
  }

  // ---------------------------------------------------------------- properties

  /** Smallest means no entry with fewer vCPUs and, at as many, none with less memory;
      largest likewise the other way round. */
  lemma SizesAreByCpuThenMemory(nodeTypes: seq<NodeType>, r: Resources)
    requires nodeTypes != [] && exists k :: 0 <= k < |nodeTypes| && ResourcesOf(nodeTypes[k]) == r
    ensures IsSmallest(nodeTypes, r) <==>
            forall j :: 0 <= j < |nodeTypes| ==>
              r.vcpus <= nodeTypes[j].vcpus && (nodeTypes[j].vcpus == r.vcpus ==> r.memoryGB <= nodeTypes[j].memoryGB)
    ensures IsLargest(nodeTypes, r) <==>
            forall j :: 0 <= j < |nodeTypes| ==>
              nodeTypes[j].vcpus <= r.vcpus && (nodeTypes[j].vcpus == r.vcpus ==> nodeTypes[j].memoryGB <= r.memoryGB)
  {
    forall j | 0 <= j < |nodeTypes|
      ensures !Smaller(ResourcesOf(nodeTypes[j]), r) <==>
              r.vcpus <= nodeTypes[j].vcpus && (nodeTypes[j].vcpus == r.vcpus ==> r.memoryGB <= nodeTypes[j].memoryGB)
      ensures !Smaller(r, ResourcesOf(nodeTypes[j])) <==>
              nodeTypes[j].vcpus <= r.vcpus && (nodeTypes[j].vcpus == r.vcpus ==> nodeTypes[j].memoryGB <= r.memoryGB)
    {
    }
  }

  lemma MoreIsFarther(x: real, y: real)
    requires 0.0 <= x <= y
    ensures Product(x, x) <= Product(y, y) && (x < y ==> Product(x, x) < Product(y, y))
  {
    assert Product(y, y) - Product(x, x) == Product(y - x, y + x);
  }

  /** x is no farther from the request than y, in vCPUs and gigabytes. */
  predicate Nearer(x: NodeType, y: NodeType, required: Resources) {
    var cpu, mem := (x.vcpus - required.vcpus) as real, x.memoryGB - required.memoryGB;
    var cpu', mem' := (y.vcpus - required.vcpus) as real, y.memoryGB - required.memoryGB;
    cpu * cpu + mem * mem <= cpu' * cpu' + mem' * mem'
  }

  lemma NoneInside(x: NodeType, y: NodeType, required: Resources)
    requires Fits(x, required) && Fits(y, required) && Excess(x, required) <= Excess(y, required)
    ensures Nearer(x, y, required)
    ensures y.vcpus <= x.vcpus && y.memoryGB <= x.memoryGB ==> ResourcesOf(y) == ResourcesOf(x)
  {
    if y.vcpus <= x.vcpus && y.memoryGB <= x.memoryGB {
      MoreIsFarther((y.vcpus - required.vcpus) as real, (x.vcpus - required.vcpus) as real);
      MoreIsFarther(y.memoryGB - required.memoryGB, x.memoryGB - required.memoryGB);
    }
  }

  /** A selected type offers what was asked for; of the entries that do, none is nearer to
      the request, and none is smaller in one of vCPUs and memory without being larger in
      the other. */
  lemma SelectionIsNotWasteful(nodeTypes: seq<NodeType>, required: Resources, name: string) returns (k: nat)
    requires IsSelection(nodeTypes, required, Selected(name))
    ensures required.vcpus > 0 && required.memoryGB > 0.0
    ensures k < |nodeTypes| && nodeTypes[k].instanceType == name
    ensures required.vcpus <= nodeTypes[k].vcpus && required.memoryGB <= nodeTypes[k].memoryGB
    ensures forall j :: 0 <= j < |nodeTypes|
                        && required.vcpus <= nodeTypes[j].vcpus && required.memoryGB <= nodeTypes[j].memoryGB ==>
              Nearer(nodeTypes[k], nodeTypes[j], required)
    ensures forall j :: 0 <= j < |nodeTypes|
                        && required.vcpus <= nodeTypes[j].vcpus <= nodeTypes[k].vcpus
                        && required.memoryGB <= nodeTypes[j].memoryGB <= nodeTypes[k].memoryGB ==>
              ResourcesOf(nodeTypes[j]) == ResourcesOf(nodeTypes[k])
  {
    k :| Tightest(nodeTypes, required, k) && Selected(name) == Selected(nodeTypes[k].instanceType);
    forall j | 0 <= j < |nodeTypes| && Fits(nodeTypes[j], required)
      ensures Nearer(nodeTypes[k], nodeTypes[j], required)
      ensures nodeTypes[j].vcpus <= nodeTypes[k].vcpus && nodeTypes[j].memoryGB <= nodeTypes[k].memoryGB ==>
                ResourcesOf(nodeTypes[j]) == ResourcesOf(nodeTypes[k])
    {
      NoneInside(nodeTypes[k], nodeTypes[j], required);
    }
  }

  /** Nothing is selected exactly when the request is not positive, there are no
      entries, or none offers as much. */
  lemma NothingSelectedIff(nodeTypes: seq<NodeType>, required: Resources, r: Selection)
    requires IsSelection(nodeTypes, required, r)
    ensures r == InvalidRequirements <==> required.vcpus <= 0 || required.memoryGB <= 0.0
    ensures r == NoNodeTypes <==> required.vcpus > 0 && required.memoryGB > 0.0 && nodeTypes == []
    ensures r == NoneFits <==>
            && required.vcpus > 0 && required.memoryGB > 0.0 && nodeTypes != []
            && forall j :: 0 <= j < |nodeTypes| ==>
                 nodeTypes[j].vcpus < required.vcpus || nodeTypes[j].memoryGB < required.memoryGB
  {
    forall j | 0 <= j < |nodeTypes|
      ensures Fits(nodeTypes[j], required) <==>
              !(nodeTypes[j].vcpus < required.vcpus || nodeTypes[j].memoryGB < required.memoryGB)
    {
    }
  }

  /** Nothing fits a request tighter than an entry of exactly that size. */
  lemma ExactEntryIsTightest(nodeTypes: seq<NodeType>, k: int)
    requires 0 <= k < |nodeTypes|
    ensures Tightest(nodeTypes, ResourcesOf(nodeTypes[k]), k)
  {
    var required := ResourcesOf(nodeTypes[k]);
    assert Excess(nodeTypes[k], required) == 0.0;
    forall j | 0 <= j < |nodeTypes| ensures Excess(nodeTypes[j], required) >= 0.0 {
      var dc, dm := (nodeTypes[j].vcpus - required.vcpus) as real, nodeTypes[j].memoryGB - required.memoryGB;
      assert Product(dc, dc) >= 0.0 && Product(dm, dm) >= 0.0;
    }
  }

  /** So that entry may be what such a request selects. */
  lemma ExactEntryIsSelected(nodeTypes: seq<NodeType>, k: int)
    requires 0 <= k < |nodeTypes| && nodeTypes[k].vcpus > 0 && nodeTypes[k].memoryGB > 0.0
    ensures IsSelection(nodeTypes, ResourcesOf(nodeTypes[k]), Selected(nodeTypes[k].instanceType))
  {
    ExactEntryIsTightest(nodeTypes, k);
    assert Fits(nodeTypes[k], ResourcesOf(nodeTypes[k]));
  }

  /** Asking for the resources of a configured entry, when positive, selects an
      entry with exactly those resources. */
  lemma ExactRequestSelectsExact(nodeTypes: seq<NodeType>, k: int, r: Selection)
    requires 0 <= k < |nodeTypes| && nodeTypes[k].vcpus > 0 && nodeTypes[k].memoryGB > 0.0
    requires IsSelection(nodeTypes, ResourcesOf(nodeTypes[k]), r)
    ensures exists j :: 0 <= j < |nodeTypes| && ResourcesOf(nodeTypes[j]) == ResourcesOf(nodeTypes[k])
                        && r == Selected(nodeTypes[j].instanceType)
  {
    var required := ResourcesOf(nodeTypes[k]);
    assert Fits(nodeTypes[k], required) && Excess(nodeTypes[k], required) == 0.0;
    var j :| Tightest(nodeTypes, required, j) && r == Selected(nodeTypes[j].instanceType);
    var dc, dm := (nodeTypes[j].vcpus - required.vcpus) as real, nodeTypes[j].memoryGB - required.memoryGB;
    assert Product(dc, dc) + Product(dm, dm) <= 0.0;
    assert Product(dc, dc) >= 0.0 && Product(dm, dm) >= 0.0;
    assert dc == 0.0 && dm == 0.0;
    assert ResourcesOf(nodeTypes[j]) == required;
  }

  predicate Positive(r: Resources) { r.vcpus > 0 && r.memoryGB > 0.0 }

  /** The entries of the largest size, if that is positive, all carry the name. */
  ghost predicate OneLargestName(nodeTypes: seq<NodeType>, name: string) {
    forall k :: 0 <= k < |nodeTypes| && IsLargest(nodeTypes, ResourcesOf(nodeTypes[k]))
                && Positive(ResourcesOf(nodeTypes[k])) ==>
      nodeTypes[k].instanceType == name
  }

  lemma LargestIsUnique(nodeTypes: seq<NodeType>, a: Resources, b: Resources)
    requires IsLargest(nodeTypes, a) && IsLargest(nodeTypes, b)
    ensures a == b
  {
    if nodeTypes != [] {
      var i :| 0 <= i < |nodeTypes| && ResourcesOf(nodeTypes[i]) == a;
      var j :| 0 <= j < |nodeTypes| && ResourcesOf(nodeTypes[j]) == b;
      assert !Smaller(ResourcesOf(nodeTypes[i]), ResourcesOf(nodeTypes[j]));
      assert !Smaller(ResourcesOf(nodeTypes[j]), ResourcesOf(nodeTypes[i]));
    }
  }

  lemma SmallestIsUnique(nodeTypes: seq<NodeType>, a: Resources, b: Resources)
    requires IsSmallest(nodeTypes, a) && IsSmallest(nodeTypes, b)
    ensures a == b
  {
    if nodeTypes != [] {
      var i :| 0 <= i < |nodeTypes| && ResourcesOf(nodeTypes[i]) == a;
      var j :| 0 <= j < |nodeTypes| && ResourcesOf(nodeTypes[j]) == b;
      assert !Smaller(ResourcesOf(nodeTypes[i]), ResourcesOf(nodeTypes[j]));
      assert !Smaller(ResourcesOf(nodeTypes[j]), ResourcesOf(nodeTypes[i]));
    }
  }

  /** What a spawn of the largest resources launches carries the very name the
      upgrade test compares against, whatever order equally tight entries come in, if
      and only if the entries of the largest size share that name. */
  lemma UpgradeReachesLargestTypeIff(nodeTypes: seq<NodeType>, largest: Resources, name: string)
    requires IsLargest(nodeTypes, largest) && IsLargestType(nodeTypes, name)
    ensures (forall launched :: IsSelection(nodeTypes, largest, Selected(launched)) ==> launched == name)
            <==> OneLargestName(nodeTypes, name)
  {
    if OneLargestName(nodeTypes, name) {
      forall launched | IsSelection(nodeTypes, largest, Selected(launched)) ensures launched == name {
        UpgradeReachesLargestType(nodeTypes, largest, name, launched);
      }
    } else {
      var k :| 0 <= k < |nodeTypes| && IsLargest(nodeTypes, ResourcesOf(nodeTypes[k]))
               && Positive(ResourcesOf(nodeTypes[k])) && nodeTypes[k].instanceType != name;
      LargestIsUnique(nodeTypes, ResourcesOf(nodeTypes[k]), largest);
      ExactEntryIsSelected(nodeTypes, k);
      assert IsSelection(nodeTypes, largest, Selected(nodeTypes[k].instanceType));
    }
  }

  lemma UpgradeReachesLargestType(nodeTypes: seq<NodeType>, largest: Resources, name: string, launched: string)
    requires IsLargest(nodeTypes, largest) && OneLargestName(nodeTypes, name)
    requires IsSelection(nodeTypes, largest, Selected(launched))
    ensures launched == name
  {
    var k :| 0 <= k < |nodeTypes| && ResourcesOf(nodeTypes[k]) == largest;
    ExactRequestSelectsExact(nodeTypes, k, Selected(launched));
  }

  /** With two entries of equal size the name can differ: an upgraded node is then
      still counted as upgradable. */
  lemma EqualSizesCanMissLargestType()
    ensures var nts := [NodeType("a", 2, 4.0), NodeType("b", 2, 4.0)];
            IsLargest(nts, Resources(2, 4.0)) && IsLargestType(nts, "a") && IsSelection(nts, Resources(2, 4.0), Selected("b"))
  {
    var nts := [NodeType("a", 2, 4.0), NodeType("b", 2, 4.0)];
    assert ResourcesOf(nts[0]) == Resources(2, 4.0);
    assert nts[0].instanceType == "a";
    assert Fits(nts[1], Resources(2, 4.0));
    assert Tightest(nts, Resources(2, 4.0), 1);
  }
}
