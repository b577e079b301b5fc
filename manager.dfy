/**
 * pkg/manager/manager.go: BuildResource runs one reconciler (analyse the
 * configuration, then apply it only if that succeeded), and
 * BuildUnifiedResource sweeps the volume-group, quota-path and memory
 * reconcilers in that order, whatever each of them reports.
 */
module Manager {
  import opened Wrappers
  import opened GoStd
  import opened Lvm
  import opened Host
  import opened VolumeGroup
  import opened QuotaPath
  import opened Memory

  /** Where each reconciler reads its configuration. */
  const VolumeGroupConfigPath: string := "/etc/unified-config/volumegroup"
  const QuotaPathConfigPath: string := "/etc/unified-config/quotapath"
  const MemoryConfigPath: string := "/etc/unified-config/memory"

  // ---------------------------------------------------------------------------
  // BuildResource for the volume-group reconciler

  /** What the volume-group AnalyseConfigMap leaves: its status, the node, and the wanted groups. */
  datatype VgAnalysed = VgAnalysed(status: Status, state: HostState,
                                   devices: map<string, seq<string>>, regions: map<string, seq<string>>)

  function VgAnalyse(s: HostState, config: ConfigFile, labels: map<string, string>, count: Result<int>,
                     devices: map<string, seq<string>>, regions: map<string, seq<string>>): VgAnalysed
  {
    match config
    case Missing => VgAnalysed(Done, s, devices, regions)
    case Unreadable(e) => VgAnalysed(Failed(e), s, devices, regions)
    case Rules(rules) =>
      var a := AnalyseRules(rules, labels, s.view.files, count, NoAnalysis);
      var t := s.(log := s.log + a.events);
      if a.panicked then VgAnalysed(Panicked(LocalDiskPanic), t, devices, regions)
      else VgAnalysed(Done, t, a.devices, a.regions)
  }

  /** BuildResource on the volume-group reconciler. */
  function VgBuildRun(s: HostState, config: ConfigFile, labels: map<string, string>, count: Result<int>,
                      devices: map<string, seq<string>>, regions: map<string, seq<string>>,
                      deviceOrder: seq<string>, order1: seq<string>, order2: seq<string>): Run
  {
    var a := VgAnalyse(s, config, labels, count, devices, regions);
    if a.status != Done then Run(a.state, a.status)
    else ApplyResourceDiffRun(a.state, deviceOrder, order1, order2, a.devices, a.regions)
  }

  /**
   * The volume-group reconciler reports an error only for an unreadable
   * configuration or an unreadable `pvs` listing: the errors of creating or
   * extending a group are dropped.
   */
  lemma VgBuildFails(s: HostState, config: ConfigFile, labels: map<string, string>, count: Result<int>,
                     devices: map<string, seq<string>>, regions: map<string, seq<string>>,
                     deviceOrder: seq<string>, order1: seq<string>, order2: seq<string>)
    ensures VgBuildRun(s, config, labels, count, devices, regions, deviceOrder, order1, order2).status.Failed?
            <==> config.Unreadable? || (!VgAnalyse(s, config, labels, count, devices, regions).status.Panicked?
                                       && RealVgList(s.view.pvsOutput).Err?)
  {
    var a := VgAnalyse(s, config, labels, count, devices, regions);
    assert a.state.view == s.view;
    if a.status == Done {
      ApplyResourceDiffStatus(a.state, deviceOrder, order1, order2, a.devices, a.regions);
    }
  }

  /** When the analysis does not succeed, nothing is applied: the node has at most the analysis's events. */
  lemma VgBuildSkipsApply(s: HostState, config: ConfigFile, labels: map<string, string>, count: Result<int>,
                          devices: map<string, seq<string>>, regions: map<string, seq<string>>,
                          deviceOrder: seq<string>, order1: seq<string>, order2: seq<string>)
    requires config.Unreadable? || (config.Rules? && AnalyseRules(config.rules, labels, s.view.files, count, NoAnalysis).panicked)
    ensures var r := VgBuildRun(s, config, labels, count, devices, regions, deviceOrder, order1, order2);
      r.status != Done && r.state.view == s.view
      && forall k :: |s.log| <= k < |r.state.log| ==> r.state.log[k].Event?
  {
    var r := VgBuildRun(s, config, labels, count, devices, regions, deviceOrder, order1, order2);
    if config.Rules? {
      var a := AnalyseRules(config.rules, labels, s.view.files, count, NoAnalysis);
      AnalyseKeepsExisting(config.rules, labels, s.view.files, count, NoAnalysis);
      assert r.state.log == s.log + a.events;
      forall k | |s.log| <= k < |r.state.log|
        ensures r.state.log[k].Event?
      {
        assert r.state.log[k] == a.events[k - |s.log|];
        assert r.state.log[k] in a.events;
      }
    }
  }

  method BuildVolumeGroups(vg: VgManager, config: ConfigFile, labels: map<string, string>, host: Node, localDiskCount: Result<int>)
    returns (st: Status, deviceOrder: seq<string>, order1: seq<string>, order2: seq<string>)
    modifies vg, host
    ensures Run(host.state, st)
            == VgBuildRun(old(host.state), config, labels, localDiskCount, old(vg.deviceMap), old(vg.regionMap), deviceOrder, order1, order2)
    ensures var a := VgAnalyse(old(host.state), config, labels, localDiskCount, old(vg.deviceMap), old(vg.regionMap));
      vg.deviceMap == a.devices && vg.regionMap == a.regions
  {
    deviceOrder, order1, order2 := [], [], [];
    st := vg.AnalyseConfigMap(config, labels, host, localDiskCount);
    if st != Done {
      return;
    }
    st, deviceOrder, order1, order2 := vg.ApplyResourceDiff(host);
  }

  // ---------------------------------------------------------------------------
  // BuildResource for the quota-path and memory reconcilers

  /** The quota paths wanted after the quota-path AnalyseConfigMap: new rules replace the old ones. */
  function QpWanted(config: ConfigFile, labels: map<string, string>,
                    devices: map<string, QpConfig>, regions: map<string, QpConfig>): QpAnalysis
  {
    if config.Rules? then QpRules(config.rules, labels, NoQuotaPaths) else QpAnalysis(devices, regions, {})
  }

  /** The regions wanted after the memory AnalyseConfigMap. */
  function MemWanted(config: ConfigFile, labels: map<string, string>, memory: seq<MConfig>): seq<MConfig> {
    if config.Rules? then MemConfigs(config.rules, labels) else memory
  }

  /** BuildResource on the quota-path reconciler. */
  function QpBuildRun(s: HostState, config: ConfigFile, labels: map<string, string>,
                      devices: map<string, QpConfig>, regions: map<string, QpConfig>,
                      deviceOrder: seq<string>, regionOrder: seq<string>): Run
  {
    match config
    case Unreadable(e) => Run(s, Failed(e))
    case _ =>
      var a := QpWanted(config, labels, devices, regions);
      Run(RegionQuotaAll(DeviceQuotaAll(s, deviceOrder, a.devices, MkfsOption), regionOrder, a.regions, MkfsOption), Done)
  }

  /** BuildResource on the memory reconciler. */
  function MemBuildRun(s: HostState, config: ConfigFile, labels: map<string, string>, memory: seq<MConfig>): Run {
    match config
    case Unreadable(e) => Run(s, Failed(e))
    case _ => Run(KmemAll(s, MemWanted(config, labels, memory)), Done)
  }

  /** The quota-path and memory reconcilers report an error only for an unreadable configuration, and never panic. */
  lemma QpMemBuildFails(s: HostState, config: ConfigFile, labels: map<string, string>,
                        devices: map<string, QpConfig>, regions: map<string, QpConfig>,
                        deviceOrder: seq<string>, regionOrder: seq<string>, memory: seq<MConfig>)
    ensures var q := QpBuildRun(s, config, labels, devices, regions, deviceOrder, regionOrder).status;
      var m := MemBuildRun(s, config, labels, memory).status;
      (q.Failed? <==> config.Unreadable?) && (m.Failed? <==> config.Unreadable?)
      && !q.Panicked? && !m.Panicked?
  {
  }

  method BuildQuotaPaths(qp: QpManager, config: ConfigFile, labels: map<string, string>, host: Node)
    returns (st: Status, deviceOrder: seq<string>, regionOrder: seq<string>)
    modifies qp, host
    ensures Run(host.state, st)
            == QpBuildRun(old(host.state), config, labels, old(qp.deviceQuotaPath), old(qp.regionQuotaPath), deviceOrder, regionOrder)
    ensures var a := QpWanted(config, labels, old(qp.deviceQuotaPath), old(qp.regionQuotaPath));
      qp.deviceQuotaPath == a.devices && qp.regionQuotaPath == a.regions
  {
    deviceOrder, regionOrder := [], [];
    st := qp.AnalyseConfigMap(config, labels);
    if st != Done {
      return;
    }
    st, deviceOrder, regionOrder := qp.ApplyResourceDiff(host);
  }

  method BuildMemory(mem: MemManager, config: ConfigFile, labels: map<string, string>, host: Node) returns (st: Status)
    modifies mem, host
    ensures Run(host.state, st) == MemBuildRun(old(host.state), config, labels, old(mem.memory))
    ensures mem.memory == MemWanted(config, labels, old(mem.memory))
  {
    st := mem.AnalyseConfigMap(config, labels);
    if st != Done {
      return;
    }
    st := mem.ApplyResourceDiff(host);
  }

  // ---------------------------------------------------------------------------
  // BuildUnifiedResource

  /**
   * One sweep of BuildUnifiedResource: the volume-group, quota-path and
   * memory reconcilers have their turn in that order, each on the node the
   * previous one left and whatever the previous one reported; only a panic,
   * which ends the agent, stops the sweep. The statuses are reported in the
   * order run, and each reconciler keeps what it analysed for the next sweep.
   * The key orders of the `range` loops are returned.
   */
  method Sweep(vg: VgManager, qp: QpManager, mem: MemManager,
               vgConfig: ConfigFile, qpConfig: ConfigFile, memConfig: ConfigFile,
               labels: map<string, string>, host: Node, localDiskCount: Result<int>)
    returns (statuses: seq<Status>, deviceOrder: seq<string>, order1: seq<string>, order2: seq<string>,
             qpDevices: seq<string>, qpRegions: seq<string>)
    modifies vg, qp, mem, host
    ensures var v := VgBuildRun(old(host.state), vgConfig, labels, localDiskCount, old(vg.deviceMap), old(vg.regionMap),
                                deviceOrder, order1, order2);
      var q := QpBuildRun(v.state, qpConfig, labels, old(qp.deviceQuotaPath), old(qp.regionQuotaPath), qpDevices, qpRegions);
      var m := MemBuildRun(q.state, memConfig, labels, old(mem.memory));
      (v.status.Panicked? ==> statuses == [v.status] && host.state == v.state)
      && (!v.status.Panicked? ==> statuses == [v.status, q.status, m.status] && host.state == m.state)
    ensures var a := VgAnalyse(old(host.state), vgConfig, labels, localDiskCount, old(vg.deviceMap), old(vg.regionMap));
      vg.deviceMap == a.devices && vg.regionMap == a.regions
    ensures !statuses[0].Panicked? ==>
      var a := QpWanted(qpConfig, labels, old(qp.deviceQuotaPath), old(qp.regionQuotaPath));
      qp.deviceQuotaPath == a.devices && qp.regionQuotaPath == a.regions
      && mem.memory == MemWanted(memConfig, labels, old(mem.memory))
    ensures statuses[0].Panicked? ==>
      qp.deviceQuotaPath == old(qp.deviceQuotaPath) && qp.regionQuotaPath == old(qp.regionQuotaPath)
      && mem.memory == old(mem.memory)
    ensures |statuses| == 1 || |statuses| == 3
    ensures |statuses| == 1 <==> statuses[0].Panicked?
    ensures |statuses| == 3 ==> (statuses[1].Failed? <==> qpConfig.Unreadable?) && !statuses[1].Panicked?
    ensures |statuses| == 3 ==> (statuses[2].Failed? <==> memConfig.Unreadable?) && !statuses[2].Panicked?
  {
    var vgStatus;
    vgStatus, deviceOrder, order1, order2 := BuildVolumeGroups(vg, vgConfig, labels, host, localDiskCount);
    qpDevices, qpRegions := [], [];
    if vgStatus.Panicked? {
      return [vgStatus], deviceOrder, order1, order2, qpDevices, qpRegions;
    }
    ghost var s1 := host.state;
    var qpStatus;
    qpStatus, qpDevices, qpRegions := BuildQuotaPaths(qp, qpConfig, labels, host);
    ghost var s2 := host.state;
    var memStatus := BuildMemory(mem, memConfig, labels, host);
    QpMemBuildFails(s1, qpConfig, labels, old(qp.deviceQuotaPath), old(qp.regionQuotaPath), qpDevices, qpRegions, []);
    QpMemBuildFails(s2, memConfig, labels, map[], map[], [], [], old(mem.memory));
    statuses := [vgStatus, qpStatus, memStatus];
  }
}
