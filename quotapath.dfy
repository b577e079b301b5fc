/**
 * The quota-path reconciler of pkg/manager/quotapath/quotapath.go.
 * AnalyseConfigMap turns the matching rules into the mount paths wanted on
 * this node, each backed by a list of candidate devices or by one pmem
 * region; ApplyResourceDiff creates each mount path's folder and formats
 * and mounts a device on it with project quotas enabled.
 */
module QuotaPath {
  import opened Wrappers
  import opened GoStd
  import opened Model
  import opened Utils
  import opened Pmem
  import opened Host

  const QpTypeDevice: string := "device"
  const QpTypePmem: string := "pmem"

  /** The mkfs options ApplyResourceDiff sets: `strings.Split("-O project,quota", " ")`. */
  const MkfsOption: seq<string> := ["-O", "project,quota"]

  lemma MkfsOptionSplit()
    ensures Split("-O project,quota", " ") == MkfsOption
  {
    assert Join(MkfsOption, " ") == "-O project,quota";
    SplitJoin(MkfsOption, " ");
  }

  /** What one mount path is backed by. */
  datatype QpConfig = QpConfig(devices: seq<string>, fstype: string, options: string, qpType: string, region: string)

  // ---------------------------------------------------------------------------
  // AnalyseConfigMap

  /** The quota path a rule describes, whether or not it selects the node; `None` for a rule that is skipped. */
  function RuleConfig(r: ResourceYaml): (c: Option<QpConfig>)
    ensures c.Some? <==> r.topology.topologyType == QpTypeDevice
                         || (r.topology.topologyType == QpTypePmem && |r.topology.regions| == 1)
    ensures c.Some? ==> c.value.qpType == r.topology.topologyType
                        && c.value.fstype == r.topology.fstype && c.value.options == r.topology.options
    ensures c.Some? && c.value.qpType == QpTypeDevice ==> c.value.devices == r.topology.devices
    ensures c.Some? && c.value.qpType == QpTypePmem ==> c.value.region == r.topology.regions[0] && c.value.devices == []
  {
    var t := r.topology;
    if t.topologyType == QpTypeDevice then Some(QpConfig(t.devices, t.fstype, t.options, t.topologyType, ""))
    else if t.topologyType == QpTypePmem && |t.regions| == 1 then Some(QpConfig([], t.fstype, t.options, t.topologyType, t.regions[0]))
    else None
  }

  /** The two maps being built and the mount paths already configured. */
  datatype QpAnalysis = QpAnalysis(devices: map<string, QpConfig>, regions: map<string, QpConfig>, mountPaths: set<string>)

  /** One rule of AnalyseConfigMap's loop: a selecting rule for a mount path not yet configured. */
  function QpRule(r: ResourceYaml, labels: map<string, string>, acc: QpAnalysis): QpAnalysis {
    if !Selects(r.operator, r.key, r.value, labels) || r.name in acc.mountPaths then acc
    else
      match RuleConfig(r)
      case None => acc
      case Some(c) =>
        if c.qpType == QpTypeDevice then acc.(devices := acc.devices[r.name := c], mountPaths := acc.mountPaths + {r.name})
        else acc.(regions := acc.regions[r.name := c], mountPaths := acc.mountPaths + {r.name})
  }

  function QpRules(rules: seq<ResourceYaml>, labels: map<string, string>, acc: QpAnalysis): QpAnalysis {
    if rules == [] then acc else QpRules(rules[1..], labels, QpRule(rules[0], labels, acc))
  }

  const NoQuotaPaths: QpAnalysis := QpAnalysis(map[], map[], {})

  /** Reference definition: the quota path of the first rule for `name` that selects the node and is not skipped. */
  function FirstAccepted(rules: seq<ResourceYaml>, labels: map<string, string>, name: string): Option<QpConfig> {
    if rules == [] then None
    else if rules[0].name == name && Selects(rules[0].operator, rules[0].key, rules[0].value, labels) && RuleConfig(rules[0]).Some?
    then RuleConfig(rules[0])
    else FirstAccepted(rules[1..], labels, name)
  }

  /** The configured mount paths are exactly the keys of the two maps, which share none. */
  predicate Consistent(a: QpAnalysis) {
    a.mountPaths == a.devices.Keys + a.regions.Keys && a.devices.Keys !! a.regions.Keys
  }

  /** Where `name` ends up: in the map its type selects, with that configuration, or nowhere. */
  predicate Entry(a: QpAnalysis, name: string, c: Option<QpConfig>) {
    match c
    case None => name !in a.devices && name !in a.regions
    case Some(conf) =>
      if conf.qpType == QpTypeDevice then name in a.devices && a.devices[name] == conf && name !in a.regions
      else name in a.regions && a.regions[name] == conf && name !in a.devices
  }

  /** `name` has the same entry in `b` as in `a`. */
  predicate Kept(a: QpAnalysis, b: QpAnalysis, name: string) {
    (name in b.devices <==> name in a.devices) && (name in a.devices ==> b.devices[name] == a.devices[name])
    && (name in b.regions <==> name in a.regions) && (name in a.regions ==> b.regions[name] == a.regions[name])
  }

  /**
   * The first accepted rule for a mount path wins, and the rest for that
   * path are ignored; a mount path already configured keeps its entry.
   */
  lemma {:induction false} QpRulesFirstWins(rules: seq<ResourceYaml>, labels: map<string, string>, acc: QpAnalysis, name: string)
    requires Consistent(acc)
    ensures Consistent(QpRules(rules, labels, acc))
    ensures name in acc.mountPaths ==> Kept(acc, QpRules(rules, labels, acc), name)
    ensures name !in acc.mountPaths ==> Entry(QpRules(rules, labels, acc), name, FirstAccepted(rules, labels, name))
  {
    if rules != [] {
      var next := QpRule(rules[0], labels, acc);
      assert Consistent(next);
      QpRulesFirstWins(rules[1..], labels, next, name);
      if name in acc.mountPaths {
        assert Kept(acc, next, name);
      } else if rules[0].name == name && Selects(rules[0].operator, rules[0].key, rules[0].value, labels) && RuleConfig(rules[0]).Some? {
        assert name in next.mountPaths;
      } else {
        assert name !in next.mountPaths;
      }
    }
  }

  /** Starting from nothing, the maps hold exactly the first accepted rule of every mount path. */
  lemma QpAnalysisIsFirstAccepted(rules: seq<ResourceYaml>, labels: map<string, string>, name: string)
    ensures Entry(QpRules(rules, labels, NoQuotaPaths), name, FirstAccepted(rules, labels, name))
  {
    QpRulesFirstWins(rules, labels, NoQuotaPaths, name);
  }

  /** Every device entry is of type "device"; every region entry is of type "pmem" and came from a rule with exactly one region. */
  lemma {:induction false} QpRulesTypes(rules: seq<ResourceYaml>, labels: map<string, string>, acc: QpAnalysis)
    requires forall n :: n in acc.devices ==> acc.devices[n].qpType == QpTypeDevice
    requires forall n :: n in acc.regions ==> acc.regions[n].qpType == QpTypePmem && acc.regions[n].devices == []
    ensures var a := QpRules(rules, labels, acc);
      (forall n :: n in a.devices ==> a.devices[n].qpType == QpTypeDevice)
      && (forall n :: n in a.regions ==> a.regions[n].qpType == QpTypePmem && a.regions[n].devices == [])
  {
    if rules != [] {
      var next := QpRule(rules[0], labels, acc);
      assert forall n :: n in next.devices ==> next.devices[n].qpType == QpTypeDevice;
      assert forall n :: n in next.regions ==> next.regions[n].qpType == QpTypePmem && next.regions[n].devices == [];
      QpRulesTypes(rules[1..], labels, next);
      assert QpRules(rules, labels, acc) == QpRules(rules[1..], labels, next);
    }
  }

  // ---------------------------------------------------------------------------
  // applyDeivceQuotaPath

  /** The FormatAndMount call for one device of a quota path. */
  function MountCmd(device: string, mountPath: string, c: QpConfig, mkfs: seq<string>): Command {
    FormatAndMount(device, mountPath, c.fstype, mkfs, c.options)
  }

  /** The device loop: skip devices FileExists does not confirm, stop at the first mount that succeeds. */
  function MountFirst(s: HostState, devices: seq<string>, mountPath: string, c: QpConfig, mkfs: seq<string>): HostState
    decreases |devices|
  {
    if devices == [] then s
    else if devices[0] !in s.view.files then MountFirst(s, devices[1..], mountPath, c, mkfs)
    else
      var cmd := MountCmd(devices[0], mountPath, c, mkfs);
      if Fails(s, cmd) then MountFirst(Perform(s, cmd), devices[1..], mountPath, c, mkfs) else Perform(s, cmd)
  }

  /** One mount path of applyDeivceQuotaPath: its folder first, and no device when that fails. */
  function DeviceQuotaStep(s: HostState, mountPath: string, c: QpConfig, mkfs: seq<string>): HostState {
    var ensure := EnsureFolder(mountPath);
    if Fails(s, ensure) then Perform(s, ensure) else MountFirst(Perform(s, ensure), c.devices, mountPath, c, mkfs)
  }

  /** applyDeivceQuotaPath over one order of the mount paths. */
  function DeviceQuotaAll(s: HostState, order: seq<string>, wanted: map<string, QpConfig>, mkfs: seq<string>): HostState
    decreases |order|
  {
    if order == [] then s
    else if order[0] !in wanted then DeviceQuotaAll(s, order[1..], wanted, mkfs)
    else DeviceQuotaAll(DeviceQuotaStep(s, order[0], wanted[order[0]], mkfs), order[1..], wanted, mkfs)
  }

  predicate IsMountOf(cmd: Command, devices: seq<string>, mountPath: string, c: QpConfig, mkfs: seq<string>) {
    cmd.FormatAndMount? && cmd.source in devices && cmd == MountCmd(cmd.source, mountPath, c, mkfs)
  }

  /**
   * The device loop only mounts configured devices on the mount path, and
   * every mount it tries but the last has failed: it stops at the first success.
   */
  lemma {:induction false} MountFirstShape(s: HostState, devices: seq<string>, mountPath: string, c: QpConfig, mkfs: seq<string>)
    ensures var r := MountFirst(s, devices, mountPath, c, mkfs);
      Extends(s, r)
      && (forall k :: |s.log| <= k < |r.log| ==> IsMountOf(r.log[k], devices, mountPath, c, mkfs))
      && (forall k :: |s.log| <= k < |r.log| - 1 ==> r.log[k] in s.failures)
    decreases |devices|
  {
    var r := MountFirst(s, devices, mountPath, c, mkfs);
    if devices == [] {
    } else if devices[0] !in s.view.files {
      MountFirstShape(s, devices[1..], mountPath, c, mkfs);
    } else {
      var cmd := MountCmd(devices[0], mountPath, c, mkfs);
      var t := Perform(s, cmd);
      PerformExtends(s, cmd);
      if Fails(s, cmd) {
        MountFirstShape(t, devices[1..], mountPath, c, mkfs);
        ExtendsTrans(s, t, r);
        assert r.log[..|t.log|] == t.log;
        assert r.log[|s.log|] == t.log[|s.log|] == cmd;
      }
    }
  }

  /** With none of its devices on the node, a mount path is left alone. */
  lemma {:induction false} MountFirstNone(s: HostState, devices: seq<string>, mountPath: string, c: QpConfig, mkfs: seq<string>)
    requires forall d :: d in devices ==> d !in s.view.files
    ensures MountFirst(s, devices, mountPath, c, mkfs) == s
    decreases |devices|
  {
    if devices != [] {
      MountFirstNone(s, devices[1..], mountPath, c, mkfs);
    }
  }

  /** The first configured device that is on the node is the first one mounted. */
  lemma {:induction false} MountFirstTries(s: HostState, devices: seq<string>, mountPath: string, c: QpConfig, mkfs: seq<string>, i: nat)
    requires i < |devices| && devices[i] in s.view.files
    requires forall j :: 0 <= j < i ==> devices[j] !in s.view.files
    ensures var r := MountFirst(s, devices, mountPath, c, mkfs);
      |r.log| > |s.log| && r.log[|s.log|] == MountCmd(devices[i], mountPath, c, mkfs)
    decreases |devices|
  {
    var cmd := MountCmd(devices[0], mountPath, c, mkfs);
    if i > 0 {
      MountFirstTries(s, devices[1..], mountPath, c, mkfs, i - 1);
    } else if Fails(s, cmd) {
      var t := Perform(s, cmd);
      MountFirstShape(t, devices[1..], mountPath, c, mkfs);
      var r := MountFirst(t, devices[1..], mountPath, c, mkfs);
      assert r.log[..|t.log|] == t.log;
      assert r.log[|s.log|] == t.log[|s.log|];
    }
  }

  /** One mount path issues its EnsureFolder first, and mounts only when that succeeds. */
  lemma DeviceQuotaStepShape(s: HostState, mountPath: string, c: QpConfig, mkfs: seq<string>)
    ensures var r := DeviceQuotaStep(s, mountPath, c, mkfs);
      Extends(s, r) && |r.log| > |s.log| && r.log[|s.log|] == EnsureFolder(mountPath)
      && (EnsureFolder(mountPath) in s.failures ==> |r.log| == |s.log| + 1)
      && (forall k :: |s.log| < k < |r.log| ==> IsMountOf(r.log[k], c.devices, mountPath, c, mkfs))
      && (forall k :: |s.log| < k < |r.log| - 1 ==> r.log[k] in s.failures)
  {
    var ensure := EnsureFolder(mountPath);
    var t := Perform(s, ensure);
    PerformExtends(s, ensure);
    if !Fails(s, ensure) {
      var r := MountFirst(t, c.devices, mountPath, c, mkfs);
      MountFirstShape(t, c.devices, mountPath, c, mkfs);
      ExtendsTrans(s, t, r);
      assert r.log[..|t.log|] == t.log;
      assert r.log[|s.log|] == t.log[|s.log|];
    }
  }

  // ---------------------------------------------------------------------------
  // applyRegionQuotaPath

  /**
   * The fsdax device of a region: when the lookup reports zero or several
   * namespaces, create one and look once more; any other error gives none.
   */
  function FsdaxDevice(s: HostState, region: string): (HostState, Option<string>) {
    var first := NamespaceDevicePath(region, ModeFsdax, RegionListing(s.view, region));
    if first.Ok? then (s, Some(first.value.0))
    else if !Contains(first.error, ZeroOrMultiNamespaces) then (s, None)
    else
      var create := CreateNamespace(region, "lvm");
      var t := Perform(s, create);
      if Fails(s, create) then (t, None)
      else
        var second := NamespaceDevicePath(region, ModeFsdax, RegionListing(t.view, region));
        if second.Err? then (t, None) else (t, Some(second.value.0))
  }

  /** One mount path of applyRegionQuotaPath. */
  function RegionQuotaStep(s: HostState, mountPath: string, c: QpConfig, mkfs: seq<string>): HostState {
    var (t, device) := FsdaxDevice(s, c.region);
    if device.None? then t
    else
      var ensure := EnsureFolder(mountPath);
      var u := Perform(t, ensure);
      if Fails(t, ensure) then u else Perform(u, MountCmd(device.value, mountPath, c, mkfs))
  }

  /** applyRegionQuotaPath over one order of the mount paths. */
  function RegionQuotaAll(s: HostState, order: seq<string>, wanted: map<string, QpConfig>, mkfs: seq<string>): HostState
    decreases |order|
  {
    if order == [] then s
    else if order[0] !in wanted then RegionQuotaAll(s, order[1..], wanted, mkfs)
    else RegionQuotaAll(RegionQuotaStep(s, order[0], wanted[order[0]], mkfs), order[1..], wanted, mkfs)
  }

  /**
   * The device found is the fsdax device the node lists for the region at
   * that point, and a namespace is created only when the first lookup
   * reported zero or several namespaces.
   */
  lemma FsdaxDeviceFound(s: HostState, region: string)
    ensures var (t, device) := FsdaxDevice(s, region);
      var first := NamespaceDevicePath(region, ModeFsdax, RegionListing(s.view, region));
      (device.Some? ==> NamespaceDevicePath(region, ModeFsdax, RegionListing(t.view, region)).Ok?
                        && NamespaceDevicePath(region, ModeFsdax, RegionListing(t.view, region)).value.0 == device.value)
      && (t == s || (t == Perform(s, CreateNamespace(region, "lvm")) && first.Err? && Contains(first.error, ZeroOrMultiNamespaces)))
      && (first.Ok? ==> t == s)
  {
  }

  /** A region whose first listing has zero or several namespaces gets one created. */
  lemma FsdaxDeviceCreates(s: HostState, region: string)
    requires RegionListing(s.view, region).Ok? && RegionListing(s.view, region).value != []
    requires |RegionListing(s.view, region).value[0].namespaces| != 1
    ensures FsdaxDevice(s, region).0 == Perform(s, CreateNamespace(region, "lvm"))
  {
    ZeroOrMultiReported(region, ModeFsdax, RegionListing(s.view, region));
  }

  /**
   * A pmem mount path issues at most a namespace creation, then its
   * EnsureFolder, then one mount of its region's fsdax device, and the
   * mount only once the folder exists.
   */
  lemma RegionQuotaStepShape(s: HostState, mountPath: string, c: QpConfig, mkfs: seq<string>)
    ensures var r := RegionQuotaStep(s, mountPath, c, mkfs);
      var (t, device) := FsdaxDevice(s, c.region);
      r.failures == s.failures && r.effects == s.effects
      && (t.log == s.log || t.log == s.log + [CreateNamespace(c.region, "lvm")])
      && (r.log == t.log
          || r.log == t.log + [EnsureFolder(mountPath)]
          || (device.Some? && EnsureFolder(mountPath) !in s.failures
              && r.log == t.log + [EnsureFolder(mountPath), MountCmd(device.value, mountPath, c, mkfs)]))
  {
    var (t, device) := FsdaxDevice(s, c.region);
    if device.Some? {
      var u := Perform(t, EnsureFolder(mountPath));
      assert u.log + [MountCmd(device.value, mountPath, c, mkfs)]
          == t.log + [EnsureFolder(mountPath), MountCmd(device.value, mountPath, c, mkfs)];
    }
  }

  // ---------------------------------------------------------------------------
  // The methods

  /** The device loop of applyDeivceQuotaPath for one mount path. */
  method MountDevices(host: Node, devices: seq<string>, mountPath: string, c: QpConfig, mkfs: seq<string>)
    modifies host
    ensures host.state == MountFirst(old(host.state), devices, mountPath, c, mkfs)
  {
    ghost var s0 := host.state;
    var i := 0;
    while i < |devices|
      invariant 0 <= i <= |devices|
      invariant MountFirst(s0, devices, mountPath, c, mkfs) == MountFirst(host.state, devices[i..], mountPath, c, mkfs)
    {
      assert devices[i..][1..] == devices[i + 1..];
      var device := devices[i];
      if !host.FileExists(device) {
        i := i + 1;
        continue;
      }
      var err := host.Issue(FormatAndMount(device, mountPath, c.fstype, mkfs, c.options));
      if err.Some? {
        i := i + 1;
        continue;
      }
      break;
    }
    assert i == |devices| ==> devices[i..] == [];
  }

  /** The fsdax lookup of applyRegionQuotaPath, with its one retry. */
  method ResolveFsdax(host: Node, region: string) returns (device: Option<string>)
    modifies host
    ensures (host.state, device) == FsdaxDevice(old(host.state), region)
  {
    var first := NamespaceDevicePath(region, ModeFsdax, RegionListing(host.state.view, region));
    if first.Ok? {
      return Some(first.value.0);
    }
    if !Contains(first.error, ZeroOrMultiNamespaces) {
      return None;
    }
    var err := host.Issue(CreateNamespace(region, "lvm"));
    if err.Some? {
      return None;
    }
    var second := NamespaceDevicePath(region, ModeFsdax, RegionListing(host.state.view, region));
    if second.Err? {
      return None;
    }
    return Some(second.value.0);
  }

  /** One mount path of applyRegionQuotaPath. */
  method MountRegion(host: Node, mountPath: string, c: QpConfig, mkfs: seq<string>)
    modifies host
    ensures host.state == RegionQuotaStep(old(host.state), mountPath, c, mkfs)
  {
    var device := ResolveFsdax(host, c.region);
    if device.None? {
      return;
    }
    var err := host.Issue(EnsureFolder(mountPath));
    if err.Some? {
      return;
    }
    var _ := host.Issue(FormatAndMount(device.value, mountPath, c.fstype, mkfs, c.options));
  }

  /** The quota-path reconciler. */
  class QpManager {
    var deviceQuotaPath: map<string, QpConfig>
    var regionQuotaPath: map<string, QpConfig>
    var mkfsOption: seq<string>

    /** NewResourceManager: no quota path wanted yet. */
    constructor ()
      ensures deviceQuotaPath == map[] && regionQuotaPath == map[] && mkfsOption == []
    {
      deviceQuotaPath := map[];
      regionQuotaPath := map[];
      mkfsOption := [];
    }

    /**
     * AnalyseConfigMap: a missing file changes nothing; an unreadable one is
     * an error; otherwise both maps are replaced by what the matching rules give.
     */
    method AnalyseConfigMap(config: ConfigFile, labels: map<string, string>) returns (st: Status)
      modifies this
      ensures mkfsOption == old(mkfsOption)
      ensures !config.Rules? ==> deviceQuotaPath == old(deviceQuotaPath) && regionQuotaPath == old(regionQuotaPath)
      ensures config.Missing? ==> st == Done
      ensures config.Unreadable? ==> st == Failed(config.error)
      ensures config.Rules? ==>
        (st == Done
         && deviceQuotaPath == QpRules(config.rules, labels, NoQuotaPaths).devices
         && regionQuotaPath == QpRules(config.rules, labels, NoQuotaPaths).regions)
    {
      if config.Missing? {
        return Done;
      }
      if config.Unreadable? {
        return Failed(config.error);
      }
      var rules := config.rules;
      var devices: map<string, QpConfig> := map[];
      var regions: map<string, QpConfig> := map[];
      var mountPaths: set<string> := {};
      for i := 0 to |rules|
        invariant QpRules(rules, labels, NoQuotaPaths) == QpRules(rules[i..], labels, QpAnalysis(devices, regions, mountPaths))
        invariant mkfsOption == old(mkfsOption)
      {
        assert rules[i..][1..] == rules[i + 1..];
        var r := rules[i];
        var isMatched := NodeFilter(r.operator, r.key, r.value, labels);
        if !isMatched || r.name in mountPaths {
          continue;
        }
        var t := r.topology;
        if t.topologyType == QpTypeDevice {
          devices := devices[r.name := QpConfig(t.devices, t.fstype, t.options, t.topologyType, "")];
        } else if t.topologyType == QpTypePmem {
          if |t.regions| != 1 {
            continue;
          }
          regions := regions[r.name := QpConfig([], t.fstype, t.options, t.topologyType, t.regions[0])];
        } else {
          continue;
        }
        mountPaths := mountPaths + {r.name};
      }
      assert rules[|rules|..] == [];
      deviceQuotaPath := devices;
      regionQuotaPath := regions;
      return Done;
    }

    /** applyDeivceQuotaPath, over the order in which `range` visits the mount paths. */
    method ApplyDeviceQuotaPath(host: Node) returns (order: seq<string>)
      modifies host
      ensures KeyOrder(order, deviceQuotaPath)
      ensures host.state == DeviceQuotaAll(old(host.state), order, deviceQuotaPath, mkfsOption)
    {
      order := MapKeys(deviceQuotaPath);
      ghost var s0 := host.state;
      for i := 0 to |order|
        invariant DeviceQuotaAll(s0, order, deviceQuotaPath, mkfsOption)
                  == DeviceQuotaAll(host.state, order[i..], deviceQuotaPath, mkfsOption)
      {
        assert order[i..][1..] == order[i + 1..];
        var mountPath := order[i];
        var c := deviceQuotaPath[mountPath];
        var err := host.Issue(EnsureFolder(mountPath));
        if err.Some? {
          continue;
        }
        MountDevices(host, c.devices, mountPath, c, mkfsOption);
      }
      assert order[|order|..] == [];
    }

    /** applyRegionQuotaPath, over the order in which `range` visits the mount paths. */
    method ApplyRegionQuotaPath(host: Node) returns (order: seq<string>)
      modifies host
      ensures KeyOrder(order, regionQuotaPath)
      ensures host.state == RegionQuotaAll(old(host.state), order, regionQuotaPath, mkfsOption)
    {
      order := MapKeys(regionQuotaPath);
      ghost var s0 := host.state;
      for i := 0 to |order|
        invariant RegionQuotaAll(s0, order, regionQuotaPath, mkfsOption)
                  == RegionQuotaAll(host.state, order[i..], regionQuotaPath, mkfsOption)
      {
        assert order[i..][1..] == order[i + 1..];
        MountRegion(host, order[i], regionQuotaPath[order[i]], mkfsOption);
      }
      assert order[|order|..] == [];
    }

    /** ApplyResourceDiff: the device mount paths, then the pmem ones; it never reports an error. */
    method ApplyResourceDiff(host: Node) returns (st: Status, deviceOrder: seq<string>, regionOrder: seq<string>)
      modifies this, host
      ensures st == Done
      ensures deviceQuotaPath == old(deviceQuotaPath) && regionQuotaPath == old(regionQuotaPath) && mkfsOption == MkfsOption
      ensures KeyOrder(deviceOrder, deviceQuotaPath) && KeyOrder(regionOrder, regionQuotaPath)
      ensures host.state == RegionQuotaAll(DeviceQuotaAll(old(host.state), deviceOrder, deviceQuotaPath, MkfsOption),
                                           regionOrder, regionQuotaPath, MkfsOption)
    {
      mkfsOption := MkfsOption;
      deviceOrder := ApplyDeviceQuotaPath(host);
      regionOrder := ApplyRegionQuotaPath(host);
      return Done, deviceOrder, regionOrder;
    }
  }
}
