/**
 * The volume-group reconciler of pkg/manager/volumegroup/volumegroup.go.
 * AnalyseConfigMap turns the matching rules into the volume groups wanted
 * on this node, over devices or over pmem regions; ApplyResourceDiff
 * compares them with the groups `pvs` reports and creates or extends
 * groups. Nothing is ever removed from a group.
 */
module VolumeGroup {
  import opened Wrappers
  import opened GoStd
  import opened Model
  import opened Utils
  import opened Lvm
  import opened Pmem
  import opened Host
  import opened CusErr

  const VgTypeDevice: string := "device"
  const VgTypePvc: string := "pvc"
  const VgTypeLocal: string := "alibabacloud-local-disk"
  const VgTypePmem: string := "pmem"

  /** A volume group and its physical volumes. */
  datatype VgDeviceConfig = VgDeviceConfig(name: string, physicalVolumes: seq<string>)

  /** How a sequence of host commands ends: the node afterwards and the status returned. */
  datatype Run = Run(state: HostState, status: Status)

  // ---------------------------------------------------------------------------
  // difference

  /** The elements of `a` that are not in `b`, in order, duplicates kept. */
  function Without(a: seq<string>, b: seq<string>): seq<string> {
    if a == [] then [] else (if a[0] in b then [] else [a[0]]) + Without(a[1..], b)
  }

  /** difference: a set of `b`, then one pass over `a`. */
  method Difference(a: seq<string>, b: seq<string>) returns (diff: seq<string>)
    ensures diff == Without(a, b)
  {
    var mb: set<string> := {};
    for i := 0 to |b|
      invariant forall x :: x in mb <==> x in b[..i]
    {
      assert b[..i + 1] == b[..i] + [b[i]];
      mb := mb + {b[i]};
    }
    assert b[..|b|] == b;
    diff := [];
    for i := 0 to |a|
      invariant diff + Without(a[i..], b) == Without(a, b)
    {
      assert a[i..][1..] == a[i + 1..];
      if a[i] !in mb {
        diff := diff + [a[i]];
      }
    }
    assert a[|a|..] == [];
  }

  /** An element is in the difference iff it is in `a` and not in `b`. */
  lemma {:induction false} WithoutMembers(a: seq<string>, b: seq<string>)
    ensures forall x :: x in Without(a, b) <==> x in a && x !in b
  {
    if a != [] {
      WithoutMembers(a[1..], b);
      assert a == [a[0]] + a[1..];
    }
  }

  /** The difference is empty iff every element of `a` is in `b`. */
  lemma WithoutEmpty(a: seq<string>, b: seq<string>)
    ensures Without(a, b) == [] <==> forall x :: x in a ==> x in b
  {
    WithoutMembers(a, b);
    if Without(a, b) != [] {
      assert Without(a, b)[0] in Without(a, b);
    }
  }

  /** A list minus itself is empty. */
  lemma WithoutSelf(a: seq<string>)
    ensures Without(a, a) == []
  {
    WithoutEmpty(a, a);
  }

  /** The difference distributes over concatenation, so the order of `a` is kept. */
  lemma {:induction false} WithoutAppend(a1: seq<string>, a2: seq<string>, b: seq<string>)
    ensures Without(a1 + a2, b) == Without(a1, b) + Without(a2, b)
  {
    if a1 == [] {
      assert a1 + a2 == a2;
    } else {
      assert (a1 + a2)[1..] == a1[1..] + a2;
      WithoutAppend(a1[1..], a2, b);
    }
  }

  /** Where nothing of `a` is in `b`, the difference is all of `a`, duplicates included. */
  lemma {:induction false} WithoutDisjoint(a: seq<string>, b: seq<string>)
    requires forall x :: x in a ==> x !in b
    ensures Without(a, b) == a
  {
    if a != [] {
      WithoutDisjoint(a[1..], b);
      assert a == [a[0]] + a[1..];
    }
  }

  // ---------------------------------------------------------------------------
  // getPvListForLocalDisk

  /** The letters of the local disks vdb, vdc, ..., vdz. */
  const DeviceChars: seq<string> := ["b", "c", "d", "e", "f", "g", "h", "i", "j", "k", "l", "m", "n",
                                     "o", "p", "q", "r", "s", "t", "u", "v", "w", "x", "y", "z"]

  /** The last index below `n` whose letter is `c`, or 0 if there is none. */
  function LastLetterIndex(c: string, n: nat): (index: nat)
    requires n <= |DeviceChars|
    ensures index < |DeviceChars|
    ensures index > 0 ==> index < n && DeviceChars[index] == c
  {
    if n == 0 then 0 else if DeviceChars[n - 1] == c then n - 1 else LastLetterIndex(c, n - 1)
  }

  /**
   * The name prefix and the letter index the local disks start from: for a
   * name of at least two characters, all but its last character and the
   * last of the first 15 letters equal to its last character.
   */
  method DeviceStart(startWith: string) returns (prefix: string, index: nat)
    ensures |startWith| > 1 ==> prefix == startWith[..|startWith| - 1] && index == LastLetterIndex(startWith[|startWith| - 1..], 15)
    ensures |startWith| <= 1 ==> prefix == "vd" && index == 0
  {
    prefix := "vd";
    index := 0;
    if |startWith| > 1 {
      var startChar := startWith[|startWith| - 1..];
      for i := 0 to 15
        invariant index == LastLetterIndex(startChar, i)
      {
        assert LastLetterIndex(startChar, i + 1) == if DeviceChars[i] == startChar then i else LastLetterIndex(startChar, i);
        if startChar == DeviceChars[i] {
          index := i;
        }
      }
      prefix := startWith[..|startWith| - 1];
    }
  }

  /** The letters are distinct, so the search for "vdb" starts at "vd" and index 0. */
  lemma DeviceStartVdb()
    ensures "vdb"[..2] == "vd" && LastLetterIndex("vdb"[2..], 15) == 0
  {
    assert "vdb"[2..] == "b";
    assert forall i :: 0 < i < |DeviceChars| ==> DeviceChars[i] != "b";
  }

  /** The paths of the first `n` local disks. */
  function LocalDiskPaths(n: nat): (paths: seq<string>)
    requires n <= |DeviceChars|
    ensures |paths| == n
  {
    seq(n, i requires 0 <= i < n => JoinDev("vd" + DeviceChars[i]))
  }

  lemma LocalDiskPathsStep(i: nat)
    requires i < |DeviceChars|
    ensures LocalDiskPaths(i + 1) == LocalDiskPaths(i) + [JoinDev("vd" + DeviceChars[i])]
  {
    var a, b := LocalDiskPaths(i + 1), LocalDiskPaths(i) + [JoinDev("vd" + DeviceChars[i])];
    assert forall k :: 0 <= k < i + 1 ==> a[k] == b[k];
  }

  /**
   * getPvListForLocalDisk, given what getLocalDeviceNum returns: nothing
   * without a positive count or without "vdb" (a path relative to the working
   * directory); a panic (`None`) past the 25th letter.
   */
  function LocalDiskPvs(count: Result<int>, files: set<string>): Option<seq<string>> {
    if count.Err? || count.value < 1 then Some([])
    else if "vdb" !in files then Some([])
    else if count.value > |DeviceChars| then None
    else Some(LocalDiskPaths(count.value))
  }

  method PvListForLocalDisk(count: Result<int>, host: Node) returns (r: Option<seq<string>>)
    ensures r == LocalDiskPvs(count, host.state.view.files)
  {
    if count.Err? || count.value < 1 {
      return Some([]);
    }
    var prefix, start := DeviceStart("vdb");
    DeviceStartVdb();
    var list: seq<string> := [];
    if host.FileExists(prefix + DeviceChars[start]) {
      assert prefix + DeviceChars[start] == "vdb";
      var i := start;
      while i < count.value
        invariant i <= count.value && i <= |DeviceChars|
        invariant list == LocalDiskPaths(i)
      {
        if i >= |DeviceChars| {
          return None;
        }
        LocalDiskPathsStep(i);
        list := list + [JoinDev(prefix + DeviceChars[i])];
        i := i + 1;
      }
      return Some(list);
    }
    assert prefix + DeviceChars[start] == "vdb";
    return Some(list);
  }

  /** With a count from 1 to 25 and "vdb" present, the disks are /dev/vdb, /dev/vdc, ... in order. */
  lemma LocalDiskNames(count: int, files: set<string>)
    requires 1 <= count <= |DeviceChars| && "vdb" in files
    ensures var r := LocalDiskPvs(Ok(count), files);
      r.Some? && |r.value| == count && forall i :: 0 <= i < count ==> r.value[i] == "/dev/vd" + DeviceChars[i]
  {
    forall i | 0 <= i < count
      ensures LocalDiskPaths(count)[i] == "/dev/vd" + DeviceChars[i]
    {
      assert |DeviceChars[i]| == 1 && DeviceChars[i][0] != '/';
      JoinDevPlain("vd" + DeviceChars[i]);
    }
  }

  /** More than 25 local disks make the Go code index past the letters. */
  lemma LocalDiskPanics(count: int, files: set<string>)
    requires count > |DeviceChars| && "vdb" in files
    ensures LocalDiskPvs(Ok(count), files).None?
  {
  }

  // ---------------------------------------------------------------------------
  // getRealVgList

  function Names(groups: seq<VgDeviceConfig>): (names: seq<string>)
    ensures |names| == |groups|
  {
    seq(|groups|, k requires 0 <= k < |groups| => groups[k].name)
  }

  /** A group with the volume's group name gets the volume appended. */
  function Joined(g: VgDeviceConfig, pv: PV): VgDeviceConfig {
    if g.name == pv.vgName then g.(physicalVolumes := g.physicalVolumes + [pv.name]) else g
  }

  function JoinedAll(groups: seq<VgDeviceConfig>, pv: PV): (r: seq<VgDeviceConfig>)
    ensures |r| == |groups|
  {
    seq(|groups|, k requires 0 <= k < |groups| => Joined(groups[k], pv))
  }

  /** One volume of the listing: appended to every group of its name, or a new group at the end. */
  function AddPv(groups: seq<VgDeviceConfig>, pv: PV): seq<VgDeviceConfig> {
    if pv.vgName in Names(groups) then JoinedAll(groups, pv)
    else groups + [VgDeviceConfig(pv.vgName, [pv.name])]
  }

  function GroupPvs(pvs: seq<PV>, groups: seq<VgDeviceConfig>): seq<VgDeviceConfig> {
    if pvs == [] then groups else GroupPvs(pvs[1..], AddPv(groups, pvs[0]))
  }

  /** What getRealVgList computes from the `pvs` output. */
  function RealVgList(out: Result<string>): Result<seq<VgDeviceConfig>> {
    match ListPhysicalVolumeSpec(out)
    case Err(e) => Err(e)
    case Ok(pvs) => Ok(GroupPvs(pvs, []))
  }

  /** The inner loop of getRealVgList: one volume joins the groups of its name, or starts a group. */
  method AddToGroups(groups: seq<VgDeviceConfig>, pv: PV) returns (r: seq<VgDeviceConfig>)
    ensures r == AddPv(groups, pv)
  {
    r := groups;
    var added := false;
    for j := 0 to |groups|
      invariant |r| == |groups|
      invariant forall k :: 0 <= k < j ==> r[k] == Joined(groups[k], pv)
      invariant forall k :: j <= k < |groups| ==> r[k] == groups[k]
      invariant added <==> exists k :: 0 <= k < j && groups[k].name == pv.vgName
    {
      if r[j].name == pv.vgName {
        r := r[j := r[j].(physicalVolumes := r[j].physicalVolumes + [pv.name])];
        added := true;
      }
    }
    if !added {
      r := r + [VgDeviceConfig(pv.vgName, [pv.name])];
      assert pv.vgName !in Names(groups);
    } else {
      assert r == JoinedAll(groups, pv);
      var k :| 0 <= k < |groups| && groups[k].name == pv.vgName;
      assert Names(groups)[k] == pv.vgName;
    }
  }

  /** getRealVgList. */
  method GetRealVgList(host: Node) returns (r: Result<seq<VgDeviceConfig>>)
    ensures r == RealVgList(host.state.view.pvsOutput)
  {
    var listed := ListPhysicalVolume(host.state.view.pvsOutput);
    if listed.Err? {
      return Err(listed.error);
    }
    var nodeVgList := GroupAll(listed.value);
    return Ok(nodeVgList);
  }

  /** The grouping loop of getRealVgList. */
  method GroupAll(pvs: seq<PV>) returns (nodeVgList: seq<VgDeviceConfig>)
    ensures nodeVgList == GroupPvs(pvs, [])
  {
    nodeVgList := [];
    for i := 0 to |pvs|
      invariant GroupPvs(pvs, []) == GroupPvs(pvs[i..], nodeVgList)
    {
      assert pvs[i..][1..] == pvs[i + 1..];
      nodeVgList := AddToGroups(nodeVgList, pvs[i]);
    }
    assert pvs[|pvs|..] == [];
  }

  /** The group names of the volumes, in listing order. */
  function VgNames(pvs: seq<PV>): (names: seq<string>)
    ensures |names| == |pvs|
  {
    seq(|pvs|, i requires 0 <= i < |pvs| => pvs[i].vgName)
  }

  /** The names not yet in `seen`, at their first occurrence. */
  function FirstSeen(names: seq<string>, seen: seq<string>): seq<string> {
    if names == [] then seen
    else FirstSeen(names[1..], if names[0] in seen then seen else seen + [names[0]])
  }

  /** The volumes of the first group called `name`, or none. */
  function GroupOf(groups: seq<VgDeviceConfig>, name: string): seq<string> {
    if groups == [] then []
    else if groups[0].name == name then groups[0].physicalVolumes
    else GroupOf(groups[1..], name)
  }

  /** The volumes of a group, in listing order. */
  function PvsNamed(pvs: seq<PV>, name: string): seq<string> {
    if pvs == [] then []
    else (if pvs[0].vgName == name then [pvs[0].name] else []) + PvsNamed(pvs[1..], name)
  }

  predicate Distinct(names: seq<string>) {
    forall i, j :: 0 <= i < j < |names| ==> names[i] != names[j]
  }

  lemma AddPvNames(groups: seq<VgDeviceConfig>, pv: PV)
    ensures Names(AddPv(groups, pv)) == if pv.vgName in Names(groups) then Names(groups) else Names(groups) + [pv.vgName]
  {
    if pv.vgName !in Names(groups) {
      assert Names(groups + [VgDeviceConfig(pv.vgName, [pv.name])]) == Names(groups) + [pv.vgName];
    } else {
      assert Names(JoinedAll(groups, pv)) == Names(groups);
    }
  }

  /** The groups come in the order their names first appear in the listing. */
  lemma {:induction false} GroupPvsNames(pvs: seq<PV>, groups: seq<VgDeviceConfig>)
    ensures Names(GroupPvs(pvs, groups)) == FirstSeen(VgNames(pvs), Names(groups))
  {
    if pvs != [] {
      AddPvNames(groups, pvs[0]);
      assert VgNames(pvs)[1..] == VgNames(pvs[1..]);
      GroupPvsNames(pvs[1..], AddPv(groups, pvs[0]));
    }
  }

  /** First occurrences are distinct, and they are exactly the names seen. */
  lemma {:induction false} FirstSeenDistinct(names: seq<string>, seen: seq<string>)
    requires Distinct(seen)
    ensures Distinct(FirstSeen(names, seen))
    ensures forall x :: x in FirstSeen(names, seen) <==> x in seen || x in names
  {
    if names != [] {
      var next := if names[0] in seen then seen else seen + [names[0]];
      FirstSeenDistinct(names[1..], next);
      assert names == [names[0]] + names[1..];
    }
  }

  lemma {:induction false} GroupOfJoined(groups: seq<VgDeviceConfig>, pv: PV, name: string)
    ensures GroupOf(JoinedAll(groups, pv), name)
            == if pv.vgName == name && name in Names(groups) then GroupOf(groups, name) + [pv.name] else GroupOf(groups, name)
  {
    if groups != [] {
      assert JoinedAll(groups, pv)[1..] == JoinedAll(groups[1..], pv);
      assert Names(groups)[1..] == Names(groups[1..]);
      assert Names(groups) == [groups[0].name] + Names(groups[1..]);
      GroupOfJoined(groups[1..], pv, name);
    }
  }

  lemma {:induction false} GroupOfAbsent(groups: seq<VgDeviceConfig>, name: string)
    requires name !in Names(groups)
    ensures GroupOf(groups, name) == []
  {
    if groups != [] {
      assert Names(groups) == [groups[0].name] + Names(groups[1..]);
      GroupOfAbsent(groups[1..], name);
    }
  }

  lemma {:induction false} GroupOfAppend(groups: seq<VgDeviceConfig>, g: VgDeviceConfig, name: string)
    ensures GroupOf(groups + [g], name)
            == if name in Names(groups) then GroupOf(groups, name) else if g.name == name then g.physicalVolumes else []
  {
    if groups != [] {
      assert (groups + [g])[1..] == groups[1..] + [g];
      assert Names(groups) == [groups[0].name] + Names(groups[1..]);
      GroupOfAppend(groups[1..], g, name);
    }
  }

  lemma AddPvGroupOf(groups: seq<VgDeviceConfig>, pv: PV, name: string)
    ensures GroupOf(AddPv(groups, pv), name) == GroupOf(groups, name) + (if pv.vgName == name then [pv.name] else [])
  {
    if pv.vgName in Names(groups) {
      GroupOfJoined(groups, pv, name);
    } else {
      GroupOfAppend(groups, VgDeviceConfig(pv.vgName, [pv.name]), name);
      if name !in Names(groups) {
        GroupOfAbsent(groups, name);
      }
    }
  }

  /** Each group collects the volumes of its name, in listing order. */
  lemma {:induction false} GroupPvsMembers(pvs: seq<PV>, groups: seq<VgDeviceConfig>, name: string)
    ensures GroupOf(GroupPvs(pvs, groups), name) == GroupOf(groups, name) + PvsNamed(pvs, name)
  {
    if pvs != [] {
      AddPvGroupOf(groups, pvs[0], name);
      GroupPvsMembers(pvs[1..], AddPv(groups, pvs[0]), name);
    }
  }

  /**
   * getRealVgList lists each group name once, in the order of first
   * appearance, and every group holds exactly the volumes of its name in
   * listing order.
   */
  lemma RealVgListShape(pvs: seq<PV>)
    ensures Names(GroupPvs(pvs, [])) == FirstSeen(VgNames(pvs), [])
    ensures Distinct(Names(GroupPvs(pvs, [])))
    ensures forall x :: x in Names(GroupPvs(pvs, [])) <==> x in VgNames(pvs)
    ensures forall name :: GroupOf(GroupPvs(pvs, []), name) == PvsNamed(pvs, name)
  {
    GroupPvsNames(pvs, []);
    FirstSeenDistinct(VgNames(pvs), []);
    forall name
      ensures GroupOf(GroupPvs(pvs, []), name) == PvsNamed(pvs, name)
    {
      GroupPvsMembers(pvs, [], name);
    }
  }

  // ---------------------------------------------------------------------------
  // The steps of applyDeivce and applyRegion as methods

  /** The inner scan of applyDeivce: does the group exist, and which volumes does it hold if it lacks some? */
  method GroupAction(name: string, expected: seq<string>, actual: seq<VgDeviceConfig>)
    returns (isVgExist: bool, isVgNeedUpdate: bool, currentPvs: seq<string>)
    ensures DeviceActionFor(name, expected, actual)
            == if !isVgExist then CreateGroup else if isVgNeedUpdate then UpdateGroup(currentPvs) else NoChange
  {
    isVgExist, isVgNeedUpdate, currentPvs := false, false, [];
    for j := 0 to |actual|
      invariant FindGroup(actual, name) == FindGroup(actual[j..], name)
    {
      assert actual[j..][1..] == actual[j + 1..];
      if name == actual[j].name {
        isVgExist := true;
        var diffs := Difference(expected, actual[j].physicalVolumes);
        if |diffs| != 0 {
          currentPvs := actual[j].physicalVolumes;
          isVgNeedUpdate := true;
        }
        return;
      }
    }
    assert actual[|actual|..] == [];
  }

  /** The innermost loop of applyRegion's first pass over the listing. */
  method FillRegionCmds(host: Node, listing: seq<PmemRegion>, region: string) returns (found: bool)
    modifies host
    ensures host.state == FillRegion(old(host.state), listing, region)
    ensures found == HasRegion(listing, region)
  {
    ghost var s0 := host.state;
    found := false;
    for i := 0 to |listing|
      invariant FillRegion(s0, listing, region) == FillRegion(host.state, listing[i..], region)
      invariant found <==> exists k :: 0 <= k < i && listing[k].dev == region
    {
      assert listing[i..][1..] == listing[i + 1..];
      if listing[i].dev == region {
        found := true;
        if listing[i].namespaces == [] {
          var _ := host.Issue(CreateNamespace(listing[i].dev, "lvm"));
        }
      }
    }
    assert listing[|listing|..] == [];
  }

  /** applyRegion's first pass for one wanted group. */
  method PrepareVgRegions(host: Node, regions: seq<string>, listing: seq<PmemRegion>) returns (st: Status)
    modifies host
    ensures Run(host.state, st) == PrepareRegions(old(host.state), regions, listing)
  {
    ghost var s0 := host.state;
    for j := 0 to |regions|
      invariant PrepareRegions(s0, regions, listing) == PrepareRegions(host.state, regions[j..], listing)
    {
      assert regions[j..][1..] == regions[j + 1..];
      var found := FillRegionCmds(host, listing, regions[j]);
      if !found {
        return Failed("applyRegion:: expect region " + regions[j] + " not exists");
      }
      var ns := ConvertRegion2Namespace(regions[j]);
      if ns.None? {
        return Panicked(SliceBoundsPanic);
      }
    }
    assert regions[|regions|..] == [];
    return Done;
  }

  /** applyRegion's device resolution for one wanted group. */
  method ResolveRegionDevices(host: Node, regions: seq<string>, updated: seq<PmemRegion>)
    returns (r: Option<(seq<string>, seq<string>)>)
    ensures r == RegionDevices(host.state.view, regions, updated, [], [])
  {
    var inUse: seq<string> := [];
    var all: seq<string> := [];
    for j := 0 to |regions|
      invariant RegionDevices(host.state.view, regions, updated, [], [])
                == RegionDevices(host.state.view, regions[j..], updated, inUse, all)
    {
      assert regions[j..][1..] == regions[j + 1..];
      var ns := ConvertRegion2Namespace(regions[j]);
      if ns.None? {
        return None;
      }
      var devicePath := ConvertNamespace2LVMDevicePath(ns.value, updated);
      if NamespaceUsed(ProbeOf(host.state.view, devicePath)) {
        inUse := inUse + [devicePath];
      }
      all := all + [devicePath];
    }
    assert regions[|regions|..] == [];
    return Some((inUse, all));
  }

  /** updatePmemVg. */
  method UpdatePmemVg(host: Node, name: string, pvs: seq<string>) returns (st: Status)
    modifies host
    ensures Run(host.state, st) == UpdatePmemVgRun(old(host.state), name, pvs)
  {
    var err := host.Issue(ExtendVG(name, Join(pvs, " ")));
    if err.Some? {
      return Failed("updatePmemVg:: Extend vg(" + name + ") error: " + err.value);
    }
    return Done;
  }

  /** applyRegion's second pass for one wanted group, once its devices are resolved. */
  method ExtendOrCreate(host: Node, name: string, inUse: seq<string>, all: seq<string>, actual: seq<VgDeviceConfig>)
    modifies host
    ensures host.state == RegionVgStep(old(host.state), name, inUse, all, actual)
  {
    ghost var s0 := host.state;
    var isVgNeedCreate := true;
    var k := 0;
    while k < |actual|
      invariant 0 <= k <= |actual|
      invariant ExtendScan(s0, name, inUse, all, actual) == ExtendScan(host.state, name, inUse, all, actual[k..])
      invariant isVgNeedCreate <==> name !in Names(actual[..k])
    {
      assert actual[k..][1..] == actual[k + 1..];
      assert Names(actual[..k + 1]) == Names(actual[..k]) + [actual[k].name];
      if name == actual[k].name {
        isVgNeedCreate := false;
        assert name in Names(actual) by {
          assert Names(actual)[k] == name;
        }
        var otherUsage := Difference(inUse, actual[k].physicalVolumes);
        if |otherUsage| != 0 {
          break;
        }
        var updatePvs := Difference(all, actual[k].physicalVolumes);
        if |updatePvs| == 0 {
          break;
        }
        var _ := UpdatePmemVg(host, name, all);
      }
      k := k + 1;
    }
    assert k == |actual| ==> actual[..k] == actual;
    assert host.state == ExtendScan(s0, name, inUse, all, actual);
    assert isVgNeedCreate <==> name !in Names(actual);
    if isVgNeedCreate {
      if |inUse| != 0 {
        return;
      }
      var _ := CreateVg(host, name, all);
    }
  }

  /** ApplyResourceDiff: group the node's volumes, then apply the device groups and the region groups. */
  function ApplyResourceDiffRun(s: HostState, deviceOrder: seq<string>, order1: seq<string>, order2: seq<string>,
                                devices: map<string, seq<string>>, regions: map<string, seq<string>>): Run
  {
    match RealVgList(s.view.pvsOutput)
    case Err(e) => Run(s, Failed(e))
    case Ok(actual) =>
      var d := if |devices| > 0 then ApplyDeviceRun(s, deviceOrder, devices, actual).state else s;
      var r := if |regions| > 0 then ApplyRegionRun(d, order1, order2, regions, actual) else Run(d, Done);
      Run(r.state, if r.status.Panicked? then r.status else Done)
  }

  /**
   * ApplyResourceDiff fails only when the volumes cannot be listed, and then
   * issues nothing; the errors of the two apply steps are dropped, and only
   * a panic gets through.
   */
  lemma ApplyResourceDiffStatus(s: HostState, deviceOrder: seq<string>, order1: seq<string>, order2: seq<string>,
                                devices: map<string, seq<string>>, regions: map<string, seq<string>>)
    ensures var run := ApplyResourceDiffRun(s, deviceOrder, order1, order2, devices, regions);
      (run.status.Failed? <==> RealVgList(s.view.pvsOutput).Err?)
      && (run.status.Failed? ==> run == Run(s, Failed(RealVgList(s.view.pvsOutput).error)))
  {
  }

  /** With no wanted group at all, ApplyResourceDiff only lists the volumes. */
  lemma ApplyResourceDiffNothingWanted(s: HostState, deviceOrder: seq<string>, order1: seq<string>, order2: seq<string>)
    ensures ApplyResourceDiffRun(s, deviceOrder, order1, order2, map[], map[]).state == s
  {
  }

  // ---------------------------------------------------------------------------
  // AnalyseConfigMap

  /** The event recorded for a configured device or region that is not on the node. */
  function MissingEvent(device: string): Command {
    Event("Normal", "DeviceNotExists", DeviceNotExistsMessage(DeviceNotExistsErr(device)))
  }

  /** The configured entries FileExists confirms, in order. */
  function ExistingDevices(devices: seq<string>, files: set<string>): seq<string> {
    if devices == [] then []
    else (if devices[0] in files then [devices[0]] else []) + ExistingDevices(devices[1..], files)
  }

  /** The events for the configured entries FileExists does not confirm, in order. */
  function MissingEvents(devices: seq<string>, files: set<string>): seq<Command> {
    if devices == [] then []
    else (if devices[0] in files then [] else [MissingEvent(devices[0])]) + MissingEvents(devices[1..], files)
  }

  /** getExistDevices: keeps the entries that exist and records an event for each other one. */
  method GetExistDevices(devices: seq<string>, host: Node) returns (present: seq<string>)
    modifies host
    ensures present == ExistingDevices(devices, old(host.state.view.files))
    ensures host.state == old(host.state).(log := old(host.state.log) + MissingEvents(devices, old(host.state.view.files)))
  {
    ghost var s0 := host.state;
    present := [];
    for i := 0 to |devices|
      invariant present + ExistingDevices(devices[i..], s0.view.files) == ExistingDevices(devices, s0.view.files)
      invariant host.state.log + MissingEvents(devices[i..], s0.view.files) == s0.log + MissingEvents(devices, s0.view.files)
      invariant host.state == s0.(log := host.state.log)
    {
      assert devices[i..][1..] == devices[i + 1..];
      var device := devices[i];
      if !host.FileExists(device) {
        var _ := host.Issue(MissingEvent(device));
        assert host.state.log + MissingEvents(devices[i + 1..], s0.view.files)
            == s0.log + MissingEvents(devices, s0.view.files);
      } else {
        present := present + [device];
      }
    }
    assert devices[|devices|..] == [];
  }

  /** An entry is kept iff it is configured and exists; every other entry gets exactly one event. */
  lemma {:induction false} ExistingDevicesSplit(devices: seq<string>, files: set<string>)
    ensures forall x :: x in ExistingDevices(devices, files) <==> x in devices && x in files
    ensures |ExistingDevices(devices, files)| + |MissingEvents(devices, files)| == |devices|
    ensures forall e :: e in MissingEvents(devices, files) ==> exists d :: d in devices && d !in files && e == MissingEvent(d)
  {
    if devices != [] {
      ExistingDevicesSplit(devices[1..], files);
      assert devices == [devices[0]] + devices[1..];
    }
  }

  /** When every entry exists, all are kept, in order, and no event is recorded. */
  lemma {:induction false} ExistingDevicesAll(devices: seq<string>, files: set<string>)
    requires forall x :: x in devices ==> x in files
    ensures ExistingDevices(devices, files) == devices && MissingEvents(devices, files) == []
  {
    if devices != [] {
      assert devices == [devices[0]] + devices[1..];
      ExistingDevicesAll(devices[1..], files);
    }
  }

  /** The wanted groups built so far, the events recorded, and whether the Go code panicked. */
  datatype Analysis = Analysis(
    devices: map<string, seq<string>>,
    regions: map<string, seq<string>>,
    events: seq<Command>,
    panicked: bool)

  /** The run-time error getPvListForLocalDisk panics with past the 25th letter. */
  const LocalDiskPanic: string := "runtime error: index out of range [25] with length 25"

  /** One rule of AnalyseConfigMap's loop. */
  function AnalyseRule(r: ResourceYaml, labels: map<string, string>, files: set<string>,
                       count: Result<int>, acc: Analysis): Analysis
  {
    var t := r.topology;
    if !Selects(r.operator, r.key, r.value, labels) then acc
    else if t.topologyType == VgTypeDevice then
      acc.(devices := acc.devices[r.name := ExistingDevices(t.devices, files)],
           events := acc.events + MissingEvents(t.devices, files))
    else if t.topologyType == VgTypeLocal then
      match LocalDiskPvs(count, files)
      case None => acc.(panicked := true)
      case Some(pvs) => acc.(devices := acc.devices[r.name := pvs])
    else if t.topologyType == VgTypePmem then
      acc.(regions := acc.regions[r.name := ExistingDevices(t.regions, files)],
           events := acc.events + MissingEvents(t.regions, files))
    else acc
  }

  /** The rule loop of AnalyseConfigMap; a panic ends it. */
  function AnalyseRules(rules: seq<ResourceYaml>, labels: map<string, string>, files: set<string>,
                        count: Result<int>, acc: Analysis): Analysis
  {
    if rules == [] then acc
    else
      var next := AnalyseRule(rules[0], labels, files, count, acc);
      if next.panicked then next else AnalyseRules(rules[1..], labels, files, count, next)
  }

  /** What AnalyseConfigMap starts from: two empty maps. */
  const NoAnalysis: Analysis := Analysis(map[], map[], [], false)

  /** The names of the rules that select the node and have one of the given types. */
  function SelectedNames(rules: seq<ResourceYaml>, labels: map<string, string>, types: set<string>): set<string> {
    if rules == [] then {}
    else
      SelectedName(rules[0], labels, types) + SelectedNames(rules[1..], labels, types)
  }

  /** The name one rule adds to a map of the given types, if any. */
  function SelectedName(r: ResourceYaml, labels: map<string, string>, types: set<string>): set<string> {
    if Selects(r.operator, r.key, r.value, labels) && r.topology.topologyType in types then {r.name} else {}
  }

  lemma AnalyseRuleKeys(r: ResourceYaml, labels: map<string, string>, files: set<string>, count: Result<int>, acc: Analysis)
    requires !AnalyseRule(r, labels, files, count, acc).panicked
    ensures AnalyseRule(r, labels, files, count, acc).devices.Keys
            == acc.devices.Keys + SelectedName(r, labels, {VgTypeDevice, VgTypeLocal})
    ensures AnalyseRule(r, labels, files, count, acc).regions.Keys
            == acc.regions.Keys + SelectedName(r, labels, {VgTypePmem})
  {
  }

  lemma KeysChain(last: set<string>, next: set<string>, first: set<string>, added: set<string>, rest: set<string>)
    requires next == first + added && last == next + rest
    ensures last == first + (added + rest)
  {
  }

  /**
   * Without a panic, the device groups are named by the matching device and
   * local-disk rules and the region groups by the matching pmem rules; no
   * other rule (unmatched, pvc, unknown type) adds a name.
   */
  lemma {:induction false} AnalyseKeys(rules: seq<ResourceYaml>, labels: map<string, string>, files: set<string>,
                                      count: Result<int>, acc: Analysis)
    requires !AnalyseRules(rules, labels, files, count, acc).panicked
    ensures AnalyseRules(rules, labels, files, count, acc).devices.Keys
            == acc.devices.Keys + SelectedNames(rules, labels, {VgTypeDevice, VgTypeLocal})
    ensures AnalyseRules(rules, labels, files, count, acc).regions.Keys
            == acc.regions.Keys + SelectedNames(rules, labels, {VgTypePmem})
  {
    if rules != [] {
      var next := AnalyseRule(rules[0], labels, files, count, acc);
      assert !next.panicked;
      assert AnalyseRules(rules, labels, files, count, acc) == AnalyseRules(rules[1..], labels, files, count, next);
      AnalyseRuleKeys(rules[0], labels, files, count, acc);
      AnalyseKeys(rules[1..], labels, files, count, next);
      var a := AnalyseRules(rules[1..], labels, files, count, next);
      var dt, rt := {VgTypeDevice, VgTypeLocal}, {VgTypePmem};
      assert SelectedNames(rules, labels, dt) == SelectedName(rules[0], labels, dt) + SelectedNames(rules[1..], labels, dt);
      assert SelectedNames(rules, labels, rt) == SelectedName(rules[0], labels, rt) + SelectedNames(rules[1..], labels, rt);
      KeysChain(a.devices.Keys, next.devices.Keys, acc.devices.Keys,
                SelectedName(rules[0], labels, dt), SelectedNames(rules[1..], labels, dt));
      KeysChain(a.regions.Keys, next.regions.Keys, acc.regions.Keys,
                SelectedName(rules[0], labels, rt), SelectedNames(rules[1..], labels, rt));
    }
  }

  /** A device group lists existing devices only, unless it is the local-disk list. */
  predicate DeviceEntryOk(pvs: seq<string>, files: set<string>, count: Result<int>) {
    (forall x :: x in pvs ==> x in files) || LocalDiskPvs(count, files) == Some(pvs)
  }

  /** What AnalyseConfigMap promises about the groups and events, whatever the rules. */
  ghost predicate AnalysisOk(a: Analysis, files: set<string>, count: Result<int>) {
    (forall n :: n in a.devices ==> DeviceEntryOk(a.devices[n], files, count))
    && (forall n, x :: n in a.regions && x in a.regions[n] ==> x in files)
    && (forall e :: e in a.events ==> exists d :: d !in files && e == MissingEvent(d))
  }

  lemma AnalyseRuleKeepsExisting(r: ResourceYaml, labels: map<string, string>, files: set<string>,
                                 count: Result<int>, acc: Analysis)
    requires AnalysisOk(acc, files, count)
    ensures AnalysisOk(AnalyseRule(r, labels, files, count, acc), files, count)
  {
    var t := r.topology;
    if Selects(r.operator, r.key, r.value, labels) {
      if t.topologyType == VgTypeDevice {
        ExistingDevicesSplit(t.devices, files);
      } else if t.topologyType != VgTypeLocal && t.topologyType == VgTypePmem {
        ExistingDevicesSplit(t.regions, files);
      }
    }
  }

  /** Only regions that exist are kept, device groups list existing devices, and events name missing entries. */
  lemma {:induction false} AnalyseKeepsExisting(rules: seq<ResourceYaml>, labels: map<string, string>, files: set<string>,
                                               count: Result<int>, acc: Analysis)
    requires AnalysisOk(acc, files, count)
    ensures AnalysisOk(AnalyseRules(rules, labels, files, count, acc), files, count)
  {
    if rules != [] {
      var next := AnalyseRule(rules[0], labels, files, count, acc);
      AnalyseRuleKeepsExisting(rules[0], labels, files, count, acc);
      AnalyseKeepsExisting(rules[1..], labels, files, count, next);
    }
  }

  // ---------------------------------------------------------------------------
  // createVg and updateVg

  /** The status of a command: nil, or its error. */
  function StatusOf(err: Option<string>): Status {
    match err
    case None => Done
    case Some(e) => Failed(e)
  }

  /** createVg: one CreateVG over the volumes joined by spaces, with no tags. */
  function CreateVgRun(s: HostState, name: string, pvs: seq<string>): Run {
    var c := CreateVG(name, Join(pvs, " "), []);
    Run(Perform(s, c), StatusOf(Outcome(s, c)))
  }

  method CreateVg(host: Node, name: string, pvs: seq<string>) returns (st: Status)
    modifies host
    ensures Run(host.state, st) == CreateVgRun(old(host.state), name, pvs)
  {
    var pvListStr := Join(pvs, " ");
    var err := host.Issue(CreateVG(name, pvListStr, []));
    st := StatusOf(err);
  }

  function ShrinkMessage(name: string, expected: seq<string>, current: seq<string>): string {
    "updateVg:: VolumeGroup: " + name + ", expected pv list should be more than current pv list when update volume group: "
    + SliceString(expected) + ", " + SliceString(current)
  }

  function RemoveMessage(name: string, expected: seq<string>, current: seq<string>): string {
    "updateVg:: VolumeGroup: " + name + ", expected pv list should be more than current pv list when update volume group: expect "
    + SliceString(expected) + ", current " + SliceString(current) + ", and not support remove pv now"
  }

  function SameMessage(name: string, expected: seq<string>, current: seq<string>): string {
    "updateVg:: VolumeGroup: " + name + ", expected pv list same with current pv list, expect "
    + SliceString(expected) + ", current " + SliceString(current)
  }

  /**
   * updateVg: refuses a shorter list, a removal and a no-op; otherwise one
   * ExtendVG with the missing volumes.
   */
  function UpdateVgRun(s: HostState, name: string, expected: seq<string>, current: seq<string>): Run {
    if |expected| < |current| then Run(s, Failed(ShrinkMessage(name, expected, current)))
    else if Without(current, expected) != [] then Run(s, Failed(RemoveMessage(name, expected, current)))
    else if Without(expected, current) == [] then Run(s, Failed(SameMessage(name, expected, current)))
    else
      var c := ExtendVG(name, Join(Without(expected, current), " "));
      match Outcome(s, c)
      case None => Run(Perform(s, c), Done)
      case Some(e) => Run(Perform(s, c), Failed("updateVg:: Extend vg(" + name + ") error: " + e))
  }

  method UpdateVg(host: Node, name: string, expected: seq<string>, current: seq<string>) returns (st: Status)
    modifies host
    ensures Run(host.state, st) == UpdateVgRun(old(host.state), name, expected, current)
  {
    if |expected| < |current| {
      return Failed(ShrinkMessage(name, expected, current));
    }
    var removePv := Difference(current, expected);
    if |removePv| > 0 {
      return Failed(RemoveMessage(name, expected, current));
    }
    var addedPv := Difference(expected, current);
    if |addedPv| == 0 {
      return Failed(SameMessage(name, expected, current));
    }
    var err := host.Issue(ExtendVG(name, Join(addedPv, " ")));
    if err.Some? {
      return Failed("updateVg:: Extend vg(" + name + ") error: " + err.value);
    }
    return Done;
  }

  /**
   * updateVg issues nothing, and fails, when the expected list is shorter,
   * when a current volume is not expected, or when nothing is missing.
   */
  lemma UpdateVgRefuses(s: HostState, name: string, expected: seq<string>, current: seq<string>)
    requires |expected| < |current| || (exists x :: x in current && x !in expected) || (forall x :: x in expected ==> x in current)
    ensures UpdateVgRun(s, name, expected, current).state == s
    ensures UpdateVgRun(s, name, expected, current).status.Failed?
  {
    WithoutEmpty(current, expected);
    WithoutEmpty(expected, current);
  }

  /** Otherwise it extends the group exactly once, with exactly the expected volumes not yet in it. */
  lemma UpdateVgExtends(s: HostState, name: string, expected: seq<string>, current: seq<string>)
    requires |expected| >= |current| && (forall x :: x in current ==> x in expected) && (exists x :: x in expected && x !in current)
    ensures var run := UpdateVgRun(s, name, expected, current);
      run.state == Perform(s, ExtendVG(name, Join(Without(expected, current), " ")))
      && (run.status == Done <==> !Fails(s, ExtendVG(name, Join(Without(expected, current), " "))))
    ensures forall x :: x in Without(expected, current) <==> x in expected && x !in current
  {
    WithoutEmpty(current, expected);
    WithoutEmpty(expected, current);
    WithoutMembers(expected, current);
  }

  // ---------------------------------------------------------------------------
  // applyDeivce

  /** The first group called `name`. */
  function FindGroup(groups: seq<VgDeviceConfig>, name: string): (r: Option<VgDeviceConfig>)
    ensures r.Some? ==> r.value in groups && r.value.name == name
    ensures r.None? <==> name !in Names(groups)
  {
    if groups == [] then None
    else if groups[0].name == name then
      assert Names(groups)[0] == name;
      Some(groups[0])
    else
      assert Names(groups) == [groups[0].name] + Names(groups[1..]);
      FindGroup(groups[1..], name)
  }

  /** What applyDeivce decides for one wanted group. */
  datatype DeviceAction = CreateGroup | UpdateGroup(current: seq<string>) | NoChange

  function DeviceActionFor(name: string, expected: seq<string>, actual: seq<VgDeviceConfig>): DeviceAction {
    match FindGroup(actual, name)
    case None => CreateGroup
    case Some(g) => if Without(expected, g.physicalVolumes) != [] then UpdateGroup(g.physicalVolumes) else NoChange
  }

  /** A group is left alone iff it exists and already holds every expected volume. */
  lemma DeviceActionCases(name: string, expected: seq<string>, actual: seq<VgDeviceConfig>)
    ensures DeviceActionFor(name, expected, actual) == CreateGroup <==> name !in Names(actual)
    ensures DeviceActionFor(name, expected, actual) == NoChange <==>
      name in Names(actual) && forall x :: x in expected ==> x in FindGroup(actual, name).value.physicalVolumes
  {
    if FindGroup(actual, name).Some? {
      WithoutEmpty(expected, FindGroup(actual, name).value.physicalVolumes);
    }
  }

  function DeviceActionRun(s: HostState, name: string, expected: seq<string>, a: DeviceAction): Run {
    match a
    case CreateGroup => CreateVgRun(s, name, expected)
    case UpdateGroup(current) => UpdateVgRun(s, name, expected, current)
    case NoChange => Run(s, Done)
  }

  /** applyDeivce over one order of the wanted groups: it returns after the first group that needs work. */
  function ApplyDeviceRun(s: HostState, order: seq<string>, wanted: map<string, seq<string>>, actual: seq<VgDeviceConfig>): Run {
    if order == [] then Run(s, Done)
    else if order[0] !in wanted then ApplyDeviceRun(s, order[1..], wanted, actual)
    else
      var a := DeviceActionFor(order[0], wanted[order[0]], actual);
      if a == NoChange then ApplyDeviceRun(s, order[1..], wanted, actual)
      else DeviceActionRun(s, order[0], wanted[order[0]], a)
  }

  /** The first group, in the order visited, that needs work decides the whole call. */
  lemma {:induction false} ApplyDeviceFirst(s: HostState, order: seq<string>, wanted: map<string, seq<string>>,
                                           actual: seq<VgDeviceConfig>, i: nat)
    requires i < |order| && order[i] in wanted && DeviceActionFor(order[i], wanted[order[i]], actual) != NoChange
    requires forall j :: 0 <= j < i ==> order[j] in wanted && DeviceActionFor(order[j], wanted[order[j]], actual) == NoChange
    ensures ApplyDeviceRun(s, order, wanted, actual)
            == DeviceActionRun(s, order[i], wanted[order[i]], DeviceActionFor(order[i], wanted[order[i]], actual))
  {
    if i > 0 {
      ApplyDeviceFirst(s, order[1..], wanted, actual, i - 1);
    }
  }

  /** When every group exists with all its volumes, nothing is issued. */
  lemma {:induction false} ApplyDeviceNoChange(s: HostState, order: seq<string>, wanted: map<string, seq<string>>,
                                              actual: seq<VgDeviceConfig>)
    requires forall j :: 0 <= j < |order| && order[j] in wanted ==> DeviceActionFor(order[j], wanted[order[j]], actual) == NoChange
    ensures ApplyDeviceRun(s, order, wanted, actual) == Run(s, Done)
  {
    if order != [] {
      assert forall j :: 1 <= j < |order| ==> order[1..][j - 1] == order[j];
      ApplyDeviceNoChange(s, order[1..], wanted, actual);
    }
  }

  /** applyDeivce issues at most one command. */
  lemma {:induction false} ApplyDeviceAtMostOne(s: HostState, order: seq<string>, wanted: map<string, seq<string>>,
                                               actual: seq<VgDeviceConfig>)
    ensures Extends(s, ApplyDeviceRun(s, order, wanted, actual).state)
    ensures |ApplyDeviceRun(s, order, wanted, actual).state.log| <= |s.log| + 1
  {
    if order != [] {
      if order[0] !in wanted || DeviceActionFor(order[0], wanted[order[0]], actual) == NoChange {
        ApplyDeviceAtMostOne(s, order[1..], wanted, actual);
      } else {
        DeviceActionAtMostOne(s, order[0], wanted[order[0]], DeviceActionFor(order[0], wanted[order[0]], actual));
      }
    }
  }

  lemma DeviceActionAtMostOne(s: HostState, name: string, expected: seq<string>, a: DeviceAction)
    ensures Extends(s, DeviceActionRun(s, name, expected, a).state)
    ensures |DeviceActionRun(s, name, expected, a).state.log| <= |s.log| + 1
  {
    match a
    case CreateGroup =>
      PerformExtends(s, CreateVG(name, Join(expected, " "), []));
    case UpdateGroup(current) =>
      UpdateVgAtMostOne(s, name, expected, current);
    case NoChange =>
  }

  lemma UpdateVgAtMostOne(s: HostState, name: string, expected: seq<string>, current: seq<string>)
    ensures Extends(s, UpdateVgRun(s, name, expected, current).state)
    ensures |UpdateVgRun(s, name, expected, current).state.log| <= |s.log| + 1
  {
    var r := UpdateVgRun(s, name, expected, current);
    var c := ExtendVG(name, Join(Without(expected, current), " "));
    PerformExtends(s, c);
    assert r.state == s || r.state == Perform(s, c);
  }

  /** The case of the reconciler test: no volume group on the node, two configured devices. */
  lemma ApplyDeviceExample(s: HostState)
    ensures ApplyDeviceRun(s, ["volumegroup1"], map["volumegroup1" := ["/dev/vdb", "/dev/vdc"]], []).state.log
            == s.log + [CreateVG("volumegroup1", "/dev/vdb /dev/vdc", [])]
  {
    assert Join(["/dev/vdb", "/dev/vdc"], " ") == "/dev/vdb /dev/vdc";
  }

  // ---------------------------------------------------------------------------
  // applyRegion

  /**
   * The run-time error a region name shorter than "region" panics with,
   * abbreviated: Go's message also gives the bounds, "[6:N]" for a name of
   * length N.
   */
  const SliceBoundsPanic: string := "runtime error: slice bounds out of range"

  predicate HasRegion(listing: seq<PmemRegion>, region: string) {
    exists i :: 0 <= i < |listing| && listing[i].dev == region
  }

  /** Every listed region of that name that has no namespace gets one created, in listing order. */
  function FillRegion(s: HostState, listing: seq<PmemRegion>, region: string): HostState
    decreases |listing|
  {
    if listing == [] then s
    else
      var next := if listing[0].dev == region && listing[0].namespaces == [] then Perform(s, CreateNamespace(listing[0].dev, "lvm")) else s;
      FillRegion(next, listing[1..], region)
  }

  /** The first pass over one group's regions: fill each, and stop at one that is absent or misnamed. */
  function PrepareRegions(s: HostState, regions: seq<string>, listing: seq<PmemRegion>): Run
    decreases |regions|
  {
    if regions == [] then Run(s, Done)
    else
      var t := FillRegion(s, listing, regions[0]);
      if !HasRegion(listing, regions[0]) then Run(t, Failed("applyRegion:: expect region " + regions[0] + " not exists"))
      else if ConvertRegion2Namespace(regions[0]).None? then Run(t, Panicked(SliceBoundsPanic))
      else PrepareRegions(t, regions[1..], listing)
  }

  /** The first pass of applyRegion, over one order of the wanted groups. */
  function PrepareAll(s: HostState, order: seq<string>, wanted: map<string, seq<string>>, listing: seq<PmemRegion>): Run
    decreases |order|
  {
    if order == [] then Run(s, Done)
    else if order[0] !in wanted then PrepareAll(s, order[1..], wanted, listing)
    else
      var r := PrepareRegions(s, wanted[order[0]], listing);
      if r.status != Done then r else PrepareAll(r.state, order[1..], wanted, listing)
  }

  /** The devices of one group's regions: those in use, and all of them, in order; `None` is a panic. */
  function RegionDevices(v: View, regions: seq<string>, updated: seq<PmemRegion>, inUse: seq<string>, all: seq<string>)
    : Option<(seq<string>, seq<string>)>
  {
    if regions == [] then Some((inUse, all))
    else
      match ConvertRegion2Namespace(regions[0])
      case None => None
      case Some(ns) =>
        var path := LvmDevicePath(ns, updated);
        var used := NamespaceUsed(ProbeOf(v, path));
        RegionDevices(v, regions[1..], updated, if used then inUse + [path] else inUse, all + [path])
  }

  /** updatePmemVg: one ExtendVG with every device given. */
  function UpdatePmemVgRun(s: HostState, name: string, pvs: seq<string>): Run {
    var c := ExtendVG(name, Join(pvs, " "));
    match Outcome(s, c)
    case None => Run(Perform(s, c), Done)
    case Some(e) => Run(Perform(s, c), Failed("updatePmemVg:: Extend vg(" + name + ") error: " + e))
  }

  /**
   * The scan over the existing groups for one wanted group: a group of that
   * name is extended unless an in-use device is not in it or it already
   * holds every device; either of those ends the scan.
   */
  function ExtendScan(s: HostState, name: string, inUse: seq<string>, all: seq<string>, actual: seq<VgDeviceConfig>): HostState
    decreases |actual|
  {
    if actual == [] then s
    else if actual[0].name != name then ExtendScan(s, name, inUse, all, actual[1..])
    else if Without(inUse, actual[0].physicalVolumes) != [] then s
    else if Without(all, actual[0].physicalVolumes) == [] then s
    else ExtendScan(UpdatePmemVgRun(s, name, all).state, name, inUse, all, actual[1..])
  }

  /** The second pass for one wanted group: extend it, or create it when no device is in use. */
  function RegionVgStep(s: HostState, name: string, inUse: seq<string>, all: seq<string>, actual: seq<VgDeviceConfig>): HostState {
    var t := ExtendScan(s, name, inUse, all, actual);
    if name in Names(actual) || inUse != [] then t
    else CreateVgRun(t, name, all).state
  }

  /** The second pass of applyRegion, over one order of the wanted groups. */
  function BuildAll(s: HostState, order: seq<string>, wanted: map<string, seq<string>>, updated: seq<PmemRegion>,
                    actual: seq<VgDeviceConfig>): Run
    decreases |order|
  {
    if order == [] then Run(s, Done)
    else if order[0] !in wanted then BuildAll(s, order[1..], wanted, updated, actual)
    else
      match RegionDevices(s.view, wanted[order[0]], updated, [], [])
      case None => Run(s, Panicked(SliceBoundsPanic))
      case Some(devices) => BuildAll(RegionVgStep(s, order[0], devices.0, devices.1, actual), order[1..], wanted, updated, actual)
  }

  /** applyRegion: list the regions, fill them, list them again, then extend or create each group. */
  function ApplyRegionRun(s: HostState, order1: seq<string>, order2: seq<string>, wanted: map<string, seq<string>>,
                          actual: seq<VgDeviceConfig>): Run
  {
    match s.view.regions
    case Err(e) => Run(s, Failed(e))
    case Ok(listing) =>
      var p := PrepareAll(s, order1, wanted, listing);
      if p.status != Done then p
      else
        match p.state.view.regions
        case Err(e) => Run(p.state, Failed(e))
        case Ok(updated) => BuildAll(p.state, order2, wanted, updated, actual)
  }

  /** `t` only added CreateNamespace commands to what `s` had logged. */
  predicate NamespacesOnly(s: HostState, t: HostState) {
    Extends(s, t) && forall k :: |s.log| <= k < |t.log| ==> t.log[k].CreateNamespace?
  }

  lemma NamespacesOnlyTrans(s: HostState, t: HostState, u: HostState)
    requires NamespacesOnly(s, t) && NamespacesOnly(t, u)
    ensures NamespacesOnly(s, u)
  {
    ExtendsTrans(s, t, u);
    forall k | |s.log| <= k < |u.log|
      ensures u.log[k].CreateNamespace?
    {
      if k < |t.log| {
        assert u.log[k] == u.log[..|t.log|][k] == t.log[k];
      }
    }
  }

  lemma {:induction false} FillRegionNamespaces(s: HostState, listing: seq<PmemRegion>, region: string)
    ensures NamespacesOnly(s, FillRegion(s, listing, region))
    decreases |listing|
  {
    if listing != [] {
      var next := if listing[0].dev == region && listing[0].namespaces == [] then Perform(s, CreateNamespace(listing[0].dev, "lvm")) else s;
      PerformExtends(s, CreateNamespace(listing[0].dev, "lvm"));
      assert NamespacesOnly(s, next);
      FillRegionNamespaces(next, listing[1..], region);
      NamespacesOnlyTrans(s, next, FillRegion(next, listing[1..], region));
    }
  }

  /** A region the listing lacks gets nothing created. */
  lemma {:induction false} FillRegionAbsent(s: HostState, listing: seq<PmemRegion>, region: string)
    requires !HasRegion(listing, region)
    ensures FillRegion(s, listing, region) == s
    decreases |listing|
  {
    if listing != [] {
      assert listing[0].dev != region;
      assert forall i :: 0 <= i < |listing| - 1 ==> listing[1..][i] == listing[i + 1];
      FillRegionAbsent(s, listing[1..], region);
    }
  }

  lemma {:induction false} PrepareRegionsNamespaces(s: HostState, regions: seq<string>, listing: seq<PmemRegion>)
    ensures NamespacesOnly(s, PrepareRegions(s, regions, listing).state)
    decreases |regions|
  {
    if regions != [] {
      var t := FillRegion(s, listing, regions[0]);
      FillRegionNamespaces(s, listing, regions[0]);
      PrepareRegionsNamespaces(t, regions[1..], listing);
      NamespacesOnlyTrans(s, t, PrepareRegions(t, regions[1..], listing).state);
    }
  }

  /** A region that is listed and named "region..." passes the first pass. */
  predicate RegionOk(listing: seq<PmemRegion>, r: string) {
    HasRegion(listing, r) && |r| >= 6
  }

  /** Regions that are all listed and well named pass the first step; otherwise it stops with an error or a panic. */
  lemma {:induction false} PrepareRegionsDone(s: HostState, regions: seq<string>, listing: seq<PmemRegion>)
    ensures PrepareRegions(s, regions, listing).status == Done <==> forall r :: r in regions ==> RegionOk(listing, r)
    decreases |regions|
  {
    if regions != [] {
      var t := FillRegion(s, listing, regions[0]);
      PrepareRegionsDone(t, regions[1..], listing);
      assert PrepareRegions(s, regions, listing).status == Done
        <==> RegionOk(listing, regions[0]) && PrepareRegions(t, regions[1..], listing).status == Done;
      assert regions == [regions[0]] + regions[1..];
    }
  }

  lemma {:induction false} PrepareAllNamespaces(s: HostState, order: seq<string>, wanted: map<string, seq<string>>, listing: seq<PmemRegion>)
    ensures NamespacesOnly(s, PrepareAll(s, order, wanted, listing).state)
    decreases |order|
  {
    if order != [] {
      if order[0] !in wanted {
        PrepareAllNamespaces(s, order[1..], wanted, listing);
      } else {
        var r := PrepareRegions(s, wanted[order[0]], listing);
        PrepareRegionsNamespaces(s, wanted[order[0]], listing);
        if r.status == Done {
          PrepareAllNamespaces(r.state, order[1..], wanted, listing);
          NamespacesOnlyTrans(s, r.state, PrepareAll(r.state, order[1..], wanted, listing).state);
        }
      }
    }
  }

  /** Every region of the group visited `j`-th is well placed. */
  predicate GroupRegionsOk(order: seq<string>, wanted: map<string, seq<string>>, listing: seq<PmemRegion>, j: nat)
    requires j < |order|
  {
    order[j] in wanted ==> forall r :: r in wanted[order[j]] ==> RegionOk(listing, r)
  }

  lemma GroupRegionsOkCons(order: seq<string>, wanted: map<string, seq<string>>, listing: seq<PmemRegion>)
    requires order != []
    ensures (forall j :: 0 <= j < |order| ==> GroupRegionsOk(order, wanted, listing, j))
            <==> GroupRegionsOk(order, wanted, listing, 0)
                 && forall j :: 0 <= j < |order[1..]| ==> GroupRegionsOk(order[1..], wanted, listing, j)
  {
    if GroupRegionsOk(order, wanted, listing, 0) && forall j :: 0 <= j < |order[1..]| ==> GroupRegionsOk(order[1..], wanted, listing, j) {
      forall j | 0 <= j < |order|
        ensures GroupRegionsOk(order, wanted, listing, j)
      {
        if j > 0 {
          assert GroupRegionsOk(order[1..], wanted, listing, j - 1);
        }
      }
    }
    if forall j :: 0 <= j < |order| ==> GroupRegionsOk(order, wanted, listing, j) {
      forall j | 0 <= j < |order[1..]|
        ensures GroupRegionsOk(order[1..], wanted, listing, j)
      {
        assert GroupRegionsOk(order, wanted, listing, j + 1);
      }
    }
  }

  /** The first pass succeeds iff every region of every wanted group is listed and well named. */
  lemma {:induction false} PrepareAllDone(s: HostState, order: seq<string>, wanted: map<string, seq<string>>, listing: seq<PmemRegion>)
    ensures PrepareAll(s, order, wanted, listing).status == Done <==>
      forall j :: 0 <= j < |order| ==> GroupRegionsOk(order, wanted, listing, j)
    decreases |order|
  {
    if order != [] {
      GroupRegionsOkCons(order, wanted, listing);
      if order[0] !in wanted {
        PrepareAllDone(s, order[1..], wanted, listing);
      } else {
        var r := PrepareRegions(s, wanted[order[0]], listing);
        PrepareRegionsDone(s, wanted[order[0]], listing);
        if r.status == Done {
          PrepareAllDone(r.state, order[1..], wanted, listing);
        }
      }
    }
  }

  /**
   * A wanted region that the listing lacks, or a misnamed one, makes
   * applyRegion return no success, and then it has created no volume group:
   * it issued namespace creations only.
   */
  lemma ApplyRegionRefusesMissing(s: HostState, order1: seq<string>, order2: seq<string>, wanted: map<string, seq<string>>,
                                  actual: seq<VgDeviceConfig>, j: nat, r: string)
    requires s.view.regions.Ok? && KeyOrder(order1, wanted)
    requires j < |order1| && order1[j] in wanted && r in wanted[order1[j]]
    requires !RegionOk(s.view.regions.value, r)
    ensures ApplyRegionRun(s, order1, order2, wanted, actual).status != Done
    ensures NamespacesOnly(s, ApplyRegionRun(s, order1, order2, wanted, actual).state)
  {
    PrepareAllDone(s, order1, wanted, s.view.regions.value);
    PrepareAllNamespaces(s, order1, wanted, s.view.regions.value);
    assert !GroupRegionsOk(order1, wanted, s.view.regions.value, j);
  }

  lemma {:induction false} ExtendScanAbsent(s: HostState, name: string, inUse: seq<string>, all: seq<string>, actual: seq<VgDeviceConfig>)
    requires name !in Names(actual)
    ensures ExtendScan(s, name, inUse, all, actual) == s
    decreases |actual|
  {
    if actual != [] {
      assert Names(actual) == [actual[0].name] + Names(actual[1..]);
      ExtendScanAbsent(s, name, inUse, all, actual[1..]);
    }
  }

  /** With distinct group names, only the group of that name matters. */
  lemma {:induction false} ExtendScanDistinct(s: HostState, name: string, inUse: seq<string>, all: seq<string>, actual: seq<VgDeviceConfig>)
    requires Distinct(Names(actual))
    ensures ExtendScan(s, name, inUse, all, actual)
            == match FindGroup(actual, name)
               case None => s
               case Some(g) =>
                 if Without(inUse, g.physicalVolumes) != [] || Without(all, g.physicalVolumes) == [] then s
                 else UpdatePmemVgRun(s, name, all).state
    decreases |actual|
  {
    if actual != [] {
      assert Names(actual) == [actual[0].name] + Names(actual[1..]);
      assert Distinct(Names(actual[1..])) by {
        assert forall i :: 0 <= i < |actual| - 1 ==> Names(actual[1..])[i] == Names(actual)[i + 1];
      }
      if actual[0].name != name {
        ExtendScanDistinct(s, name, inUse, all, actual[1..]);
      } else {
        assert name !in Names(actual[1..]) by {
          assert forall i :: 0 <= i < |actual| - 1 ==> Names(actual[1..])[i] == Names(actual)[i + 1];
          assert forall i :: 0 < i < |actual| ==> Names(actual)[i] != Names(actual)[0];
        }
        ExtendScanAbsent(UpdatePmemVgRun(s, name, all).state, name, inUse, all, actual[1..]);
      }
    }
  }

  /**
   * The decision for one pmem-backed group, given its devices in use and all
   * its devices. An existing group is extended, with every device, unless an
   * in-use device is not already in it or it already holds every device; an
   * absent group is created unless some device is in use.
   */
  lemma RegionVgStepCases(s: HostState, name: string, inUse: seq<string>, all: seq<string>, actual: seq<VgDeviceConfig>)
    requires Distinct(Names(actual))
    ensures FindGroup(actual, name).None? ==>
      RegionVgStep(s, name, inUse, all, actual) == if inUse != [] then s else Perform(s, CreateVG(name, Join(all, " "), []))
    ensures FindGroup(actual, name).Some? ==>
      var g := FindGroup(actual, name).value;
      RegionVgStep(s, name, inUse, all, actual)
      == if (exists x :: x in inUse && x !in g.physicalVolumes) || (forall x :: x in all ==> x in g.physicalVolumes) then s
         else Perform(s, ExtendVG(name, Join(all, " ")))
  {
    ExtendScanDistinct(s, name, inUse, all, actual);
    if FindGroup(actual, name).Some? {
      var g := FindGroup(actual, name).value;
      WithoutEmpty(inUse, g.physicalVolumes);
      WithoutEmpty(all, g.physicalVolumes);
    }
  }

  /** A rule only appends to the events already recorded. */
  lemma AnalyseRuleEvents(r: ResourceYaml, labels: map<string, string>, files: set<string>, count: Result<int>, acc: Analysis)
    ensures AnalyseRule(r, labels, files, count, acc)
            == var b := AnalyseRule(r, labels, files, count, acc.(events := [])); b.(events := acc.events + b.events)
  {
    var t := r.topology;
    if Selects(r.operator, r.key, r.value, labels) {
      if t.topologyType == VgTypeDevice {
        assert [] + MissingEvents(t.devices, files) == MissingEvents(t.devices, files);
      } else if t.topologyType != VgTypeLocal && t.topologyType == VgTypePmem {
        assert [] + MissingEvents(t.regions, files) == MissingEvents(t.regions, files);
      }
    }
  }

  lemma AnalyseRulesStep(rules: seq<ResourceYaml>, labels: map<string, string>, files: set<string>, count: Result<int>, acc: Analysis)
    requires rules != []
    ensures AnalyseRules(rules, labels, files, count, acc)
            == var next := AnalyseRule(rules[0], labels, files, count, acc);
               if next.panicked then next else AnalyseRules(rules[1..], labels, files, count, next)
  {
  }

  /** One iteration of AnalyseConfigMap's rule loop. */
  method AnalyseOne(r: ResourceYaml, labels: map<string, string>, host: Node, count: Result<int>,
                    devices: map<string, seq<string>>, regions: map<string, seq<string>>)
    returns (newDevices: map<string, seq<string>>, newRegions: map<string, seq<string>>, panicked: bool, ghost events: seq<Command>)
    modifies host
    ensures AnalyseRule(r, labels, old(host.state.view.files), count, Analysis(devices, regions, [], false))
            == Analysis(newDevices, newRegions, events, panicked)
    ensures host.state == old(host.state).(log := old(host.state.log) + events)
  {
    newDevices, newRegions, panicked, events := devices, regions, false, [];
    var isMatched := NodeFilter(r.operator, r.key, r.value, labels);
    if isMatched {
      var t := r.topology;
      if t.topologyType == VgTypeDevice {
        events := MissingEvents(t.devices, host.state.view.files);
        var present := GetExistDevices(t.devices, host);
        newDevices := devices[r.name := present];
      } else if t.topologyType == VgTypeLocal {
        var pvs := PvListForLocalDisk(count, host);
        if pvs.None? {
          panicked := true;
        } else {
          newDevices := devices[r.name := pvs.value];
        }
      } else if t.topologyType == VgTypePmem {
        events := MissingEvents(t.regions, host.state.view.files);
        var present := GetExistDevices(t.regions, host);
        newRegions := regions[r.name := present];
      }
    }
  }

  /** The rule loop of AnalyseConfigMap, building the two maps in local variables. */
  method CollectRules(rules: seq<ResourceYaml>, labels: map<string, string>, host: Node, count: Result<int>)
    returns (devices: map<string, seq<string>>, regions: map<string, seq<string>>, panicked: bool)
    modifies host
    ensures var a := AnalyseRules(rules, labels, old(host.state.view.files), count, NoAnalysis);
      host.state == old(host.state).(log := old(host.state.log) + a.events)
      && panicked == a.panicked && (!panicked ==> devices == a.devices && regions == a.regions)
  {
    ghost var s0 := host.state;
    ghost var files := s0.view.files;
    ghost var events: seq<Command> := [];
    devices, regions := map[], map[];
    for i := 0 to |rules|
      invariant AnalyseRules(rules, labels, files, count, NoAnalysis)
                == AnalyseRules(rules[i..], labels, files, count, Analysis(devices, regions, events, false))
      invariant host.state == s0.(log := s0.log + events)
    {
      assert rules[i..][1..] == rules[i + 1..];
      AnalyseRulesStep(rules[i..], labels, files, count, Analysis(devices, regions, events, false));
      AnalyseRuleEvents(rules[i], labels, files, count, Analysis(devices, regions, events, false));
      var newDevices, newRegions, stop;
      ghost var newEvents;
      newDevices, newRegions, stop, newEvents := AnalyseOne(rules[i], labels, host, count, devices, regions);
      if stop {
        return devices, regions, true;
      }
      devices, regions, events := newDevices, newRegions, events + newEvents;
    }
    assert rules[|rules|..] == [];
    return devices, regions, false;
  }

  // ---------------------------------------------------------------------------
  // The reconciler

  /** The ResourceManager of volumegroup.go: the wanted groups over devices and over regions. */
  class VgManager {
    var deviceMap: map<string, seq<string>>
    var regionMap: map<string, seq<string>>

    /** NewResourceManager: nothing wanted yet. */
    constructor ()
      ensures deviceMap == map[] && regionMap == map[]
    {
      deviceMap := map[];
      regionMap := map[];
    }

    /**
     * AnalyseConfigMap: a missing file changes nothing; an unreadable one is
     * an error; otherwise both maps are replaced by what the matching rules
     * give, and an event is recorded for each configured entry that is missing.
     */
    method AnalyseConfigMap(config: ConfigFile, labels: map<string, string>, host: Node, localDiskCount: Result<int>)
      returns (st: Status)
      modifies this, host
      ensures !config.Rules? ==> deviceMap == old(deviceMap) && regionMap == old(regionMap) && host.state == old(host.state)
      ensures config.Missing? ==> st == Done
      ensures config.Unreadable? ==> st == Failed(config.error)
      ensures config.Rules? ==>
        var a := AnalyseRules(config.rules, labels, old(host.state.view.files), localDiskCount, NoAnalysis);
        host.state == old(host.state).(log := old(host.state.log) + a.events)
        && (a.panicked ==> st == Panicked(LocalDiskPanic) && deviceMap == old(deviceMap) && regionMap == old(regionMap))
        && (!a.panicked ==> st == Done && deviceMap == a.devices && regionMap == a.regions)
    {
      if config.Missing? {
        return Done;
      }
      if config.Unreadable? {
        return Failed(config.error);
      }
      var devices, regions, panicked := CollectRules(config.rules, labels, host, localDiskCount);
      if panicked {
        return Panicked(LocalDiskPanic);
      }
      deviceMap := devices;
      regionMap := regions;
      return Done;
    }

    /** applyDeivce, over the order in which `range` visits the device groups. */
    method ApplyDevice(actual: seq<VgDeviceConfig>, host: Node) returns (st: Status, order: seq<string>)
      modifies host
      ensures KeyOrder(order, deviceMap)
      ensures Run(host.state, st) == ApplyDeviceRun(old(host.state), order, deviceMap, actual)
    {
      order := MapKeys(deviceMap);
      ghost var s0 := host.state;
      for i := 0 to |order|
        invariant host.state == s0
        invariant ApplyDeviceRun(s0, order, deviceMap, actual) == ApplyDeviceRun(s0, order[i..], deviceMap, actual)
      {
        assert order[i..][1..] == order[i + 1..];
        var name := order[i];
        var isVgExist, isVgNeedUpdate, currentPvs := GroupAction(name, deviceMap[name], actual);
        if !isVgExist {
          st := CreateVg(host, name, deviceMap[name]);
          return;
        } else if isVgNeedUpdate {
          st := UpdateVg(host, name, deviceMap[name], currentPvs);
          return;
        }
      }
      assert order[|order|..] == [];
      st := Done;
    }

    /** applyRegion, over the two orders in which its `range` loops visit the region groups. */
    method ApplyRegion(actual: seq<VgDeviceConfig>, host: Node) returns (st: Status, order1: seq<string>, order2: seq<string>)
      modifies host
      ensures KeyOrder(order1, regionMap) && KeyOrder(order2, regionMap)
      ensures Run(host.state, st) == ApplyRegionRun(old(host.state), order1, order2, regionMap, actual)
    {
      order1 := MapKeys(regionMap);
      order2 := MapKeys(regionMap);
      var regions := host.state.view.regions;
      if regions.Err? {
        return Failed(regions.error), order1, order2;
      }
      ghost var s0 := host.state;
      for i := 0 to |order1|
        invariant PrepareAll(s0, order1, regionMap, regions.value) == PrepareAll(host.state, order1[i..], regionMap, regions.value)
      {
        assert order1[i..][1..] == order1[i + 1..];
        var prepared := PrepareVgRegions(host, regionMap[order1[i]], regions.value);
        if prepared != Done {
          return prepared, order1, order2;
        }
      }
      assert order1[|order1|..] == [];
      var updatedRegions := host.state.view.regions;
      if updatedRegions.Err? {
        return Failed(updatedRegions.error), order1, order2;
      }
      ghost var s1 := host.state;
      for i := 0 to |order2|
        invariant BuildAll(s1, order2, regionMap, updatedRegions.value, actual)
                  == BuildAll(host.state, order2[i..], regionMap, updatedRegions.value, actual)
      {
        assert order2[i..][1..] == order2[i + 1..];
        var devices := ResolveRegionDevices(host, regionMap[order2[i]], updatedRegions.value);
        if devices.None? {
          return Panicked(SliceBoundsPanic), order1, order2;
        }
        ExtendOrCreate(host, order2[i], devices.value.0, devices.value.1, actual);
      }
      assert order2[|order2|..] == [];
      return Done, order1, order2;
    }

    /** ApplyResourceDiff. */
    method ApplyResourceDiff(host: Node) returns (st: Status, deviceOrder: seq<string>, order1: seq<string>, order2: seq<string>)
      modifies host
      ensures KeyOrder(deviceOrder, deviceMap) && KeyOrder(order1, regionMap) && KeyOrder(order2, regionMap)
      ensures Run(host.state, st) == ApplyResourceDiffRun(old(host.state), deviceOrder, order1, order2, deviceMap, regionMap)
    {
      deviceOrder := MapKeys(deviceMap);
      order1 := MapKeys(regionMap);
      order2 := order1;
      var actual := GetRealVgList(host);
      if actual.Err? {
        return Failed(actual.error), deviceOrder, order1, order2;
      }
      if |deviceMap| > 0 {
        var _, order := ApplyDevice(actual.value, host);
        deviceOrder := order;
      }
      if |regionMap| > 0 {
        var r, o1, o2 := ApplyRegion(actual.value, host);
        order1, order2 := o1, o2;
        if r.Panicked? {
          return r, deviceOrder, order1, order2;
        }
      }
      return Done, deviceOrder, order1, order2;
    }
  }
}
