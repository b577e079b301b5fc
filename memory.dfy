/**
 * The memory reconciler of pkg/manager/memory/memory.go. AnalyseConfigMap
 * keeps, in order, the matching rules that name exactly one pmem region;
 * ApplyResourceDiff makes sure each such region has a devdax namespace and
 * that its character device is online as system memory (KMEM).
 */
module Memory {
  import opened Wrappers
  import opened Model
  import opened Utils
  import opened Pmem
  import opened Host

  /** The namespace mode that gives a character device. */
  const ModeDevdax: string := "devdax"

  /** One region to turn into memory, with the rule's type. */
  datatype MConfig = MConfig(region: string, mType: string)

  // ---------------------------------------------------------------------------
  // AnalyseConfigMap

  /** The configuration one rule gives: it must select the node and name exactly one region. */
  function MemRule(r: ResourceYaml, labels: map<string, string>): Option<MConfig> {
    if Selects(r.operator, r.key, r.value, labels) && |r.topology.regions| == 1
    then Some(MConfig(r.topology.regions[0], r.topology.topologyType))
    else None
  }

  /** The configurations of the rules that give one, in the rules' order. */
  function MemConfigs(rules: seq<ResourceYaml>, labels: map<string, string>): seq<MConfig> {
    if rules == [] then []
    else (match MemRule(rules[0], labels) case None => [] case Some(c) => [c]) + MemConfigs(rules[1..], labels)
  }

  /** A configuration is kept iff some rule gives it. */
  lemma {:induction false} MemConfigsMembers(rules: seq<ResourceYaml>, labels: map<string, string>, c: MConfig)
    ensures c in MemConfigs(rules, labels) <==> exists i :: 0 <= i < |rules| && MemRule(rules[i], labels) == Some(c)
  {
    if rules != [] {
      MemConfigsMembers(rules[1..], labels, c);
      if c in MemConfigs(rules[1..], labels) {
        var i :| 0 <= i < |rules[1..]| && MemRule(rules[1..][i], labels) == Some(c);
        assert MemRule(rules[i + 1], labels) == Some(c);
      }
      if exists i :: 0 <= i < |rules| && MemRule(rules[i], labels) == Some(c) {
        var i :| 0 <= i < |rules| && MemRule(rules[i], labels) == Some(c);
        if i > 0 {
          assert MemRule(rules[1..][i - 1], labels) == Some(c);
        }
      }
    }
  }

  /** The rules are read independently and in order: the configurations of two lists of rules are concatenated. */
  lemma {:induction false} MemConfigsAppend(rules1: seq<ResourceYaml>, rules2: seq<ResourceYaml>, labels: map<string, string>)
    ensures MemConfigs(rules1 + rules2, labels) == MemConfigs(rules1, labels) + MemConfigs(rules2, labels)
  {
    if rules1 != [] {
      assert (rules1 + rules2)[1..] == rules1[1..] + rules2;
      MemConfigsAppend(rules1[1..], rules2, labels);
    } else {
      assert rules1 + rules2 == rules2;
    }
  }

  lemma MemConfigsStep(configs: seq<MConfig>, rules: seq<ResourceYaml>, i: nat, labels: map<string, string>)
    requires i < |rules|
    ensures MemRule(rules[i], labels).None? ==>
      configs + MemConfigs(rules[i..], labels) == configs + MemConfigs(rules[i + 1..], labels)
    ensures MemRule(rules[i], labels).Some? ==>
      configs + MemConfigs(rules[i..], labels) == (configs + [MemRule(rules[i], labels).value]) + MemConfigs(rules[i + 1..], labels)
  {
    assert rules[i..][1..] == rules[i + 1..];
  }

  // ---------------------------------------------------------------------------
  // ApplyResourceDiff

  /**
   * The devdax device of a region: on any lookup error, create a devdax
   * namespace and look once more.
   */
  function DaxDevice(s: HostState, region: string): (r: (HostState, Option<string>))
    ensures r.1.Some? ==> |r.1.value| >= 5 && r.1.value[..5] == "/dev/"
  {
    var first := NamespaceDevicePath(region, ModeDevdax, RegionListing(s.view, region));
    if first.Ok? then (s, Some(first.value.0))
    else
      var create := CreateNamespace(region, "dax");
      var t := Perform(s, create);
      if Fails(s, create) then (t, None)
      else
        var second := NamespaceDevicePath(region, ModeDevdax, RegionListing(t.view, region));
        if second.Err? then (t, None) else (t, Some(second.value.0))
  }

  /** One configuration of ApplyResourceDiff's loop. */
  function KmemStep(s: HostState, c: MConfig): HostState {
    var (t, path) := DaxDevice(s, c.region);
    if path.None? then t
    else
      var chardev := path.value[5..];
      match t.view.dax
      case Err(_) => t
      case Ok(mems) => if DaxctrlMem(chardev, ModeSystemRam) in mems then t else Perform(t, MakeNamespaceMemory(chardev))
  }

  /** ApplyResourceDiff's loop. */
  function KmemAll(s: HostState, configs: seq<MConfig>): HostState
    decreases |configs|
  {
    if configs == [] then s else KmemAll(KmemStep(s, configs[0]), configs[1..])
  }

  /**
   * The device used is the devdax device the node lists for the region at
   * that point; a namespace is created only after a failed lookup, at most once.
   */
  lemma DaxDeviceFound(s: HostState, region: string)
    ensures var (t, path) := DaxDevice(s, region);
      var first := NamespaceDevicePath(region, ModeDevdax, RegionListing(s.view, region));
      (path.Some? ==> NamespaceDevicePath(region, ModeDevdax, RegionListing(t.view, region)).Ok?
                      && NamespaceDevicePath(region, ModeDevdax, RegionListing(t.view, region)).value.0 == path.value)
      && (first.Ok? ==> t == s)
      && (first.Err? ==> t == Perform(s, CreateNamespace(region, "dax")))
  {
  }

  /**
   * One configuration issues at most a namespace creation and then one
   * MakeNamespaceMemory, for the char device behind the region's devdax
   * path, and the latter only when `daxctl` does not list it as system memory.
   */
  lemma KmemStepShape(s: HostState, c: MConfig)
    ensures var r := KmemStep(s, c);
      var (t, path) := DaxDevice(s, c.region);
      r.failures == s.failures && r.effects == s.effects
      && (t.log == s.log || t.log == s.log + [CreateNamespace(c.region, "dax")])
      && (r.log == t.log
          || (path.Some? && t.view.dax.Ok? && DaxctrlMem(path.value[5..], ModeSystemRam) !in t.view.dax.value
              && "/dev/" + path.value[5..] == path.value
              && r.log == t.log + [MakeNamespaceMemory(path.value[5..])]))
  {
    var (t, path) := DaxDevice(s, c.region);
    if path.Some? {
      assert path.value == path.value[..5] + path.value[5..];
    }
  }

  /** A region whose devdax device is already online as system memory is left alone. */
  lemma KmemStepSettled(s: HostState, c: MConfig)
    requires NamespaceDevicePath(c.region, ModeDevdax, RegionListing(s.view, c.region)).Ok?
    requires s.view.dax.Ok?
    requires DaxctrlMem(NamespaceDevicePath(c.region, ModeDevdax, RegionListing(s.view, c.region)).value.0[5..], ModeSystemRam)
             in s.view.dax.value
    ensures KmemStep(s, c) == s
  {
  }

  /** One configuration only logs a namespace creation and a MakeNamespaceMemory call. */
  lemma KmemStepCommands(s: HostState, c: MConfig)
    ensures var r := KmemStep(s, c);
      Extends(s, r) && forall k :: |s.log| <= k < |r.log| ==> r.log[k].CreateNamespace? || r.log[k].MakeNamespaceMemory?
  {
    KmemStepShape(s, c);
  }

  /** ApplyResourceDiff only ever logs namespace creations and MakeNamespaceMemory calls. */
  lemma {:induction false} KmemAllCommands(s: HostState, configs: seq<MConfig>)
    ensures var r := KmemAll(s, configs);
      Extends(s, r)
      && forall k :: |s.log| <= k < |r.log| ==> r.log[k].CreateNamespace? || r.log[k].MakeNamespaceMemory?
    decreases |configs|
  {
    if configs != [] {
      var t := KmemStep(s, configs[0]);
      KmemStepCommands(s, configs[0]);
      KmemAllCommands(t, configs[1..]);
      var r := KmemAll(t, configs[1..]);
      ExtendsTrans(s, t, r);
      assert r.log[..|t.log|] == t.log;
      forall k | |s.log| <= k < |t.log|
        ensures r.log[k].CreateNamespace? || r.log[k].MakeNamespaceMemory?
      {
        assert r.log[k] == t.log[k];
      }
    }
  }

  // ---------------------------------------------------------------------------
  // The methods

  /** The devdax lookup of ApplyResourceDiff, with its one retry. */
  method ResolveDevdax(host: Node, region: string) returns (path: Option<string>)
    modifies host
    ensures (host.state, path) == DaxDevice(old(host.state), region)
  {
    var first := NamespaceDevicePath(region, ModeDevdax, RegionListing(host.state.view, region));
    if first.Ok? {
      return Some(first.value.0);
    }
    var err := host.Issue(CreateNamespace(region, "dax"));
    if err.Some? {
      return None;
    }
    var second := NamespaceDevicePath(region, ModeDevdax, RegionListing(host.state.view, region));
    if second.Err? {
      return None;
    }
    return Some(second.value.0);
  }

  /** One configuration of ApplyResourceDiff. */
  method OnlineRegion(host: Node, c: MConfig)
    modifies host
    ensures host.state == KmemStep(old(host.state), c)
  {
    var path := ResolveDevdax(host, c.region);
    if path.None? {
      return;
    }
    var isCreated := CheckKMEMCreated(path.value[5..], host.state.view.dax);
    if isCreated.Err? {
      return;
    }
    if !isCreated.value {
      var _ := host.Issue(MakeNamespaceMemory(path.value[5..]));
    }
  }

  /** The memory reconciler. */
  class MemManager {
    var memory: seq<MConfig>

    /** NewResourceManager: no region wanted yet. */
    constructor ()
      ensures memory == []
    {
      memory := [];
    }

    /**
     * AnalyseConfigMap: a missing file changes nothing; an unreadable one is
     * an error; otherwise the list is replaced by what the matching rules give.
     */
    method AnalyseConfigMap(config: ConfigFile, labels: map<string, string>) returns (st: Status)
      modifies this
      ensures !config.Rules? ==> memory == old(memory)
      ensures config.Missing? ==> st == Done
      ensures config.Unreadable? ==> st == Failed(config.error)
      ensures config.Rules? ==> st == Done && memory == MemConfigs(config.rules, labels)
    {
      if config.Missing? {
        return Done;
      }
      if config.Unreadable? {
        return Failed(config.error);
      }
      var rules := config.rules;
      var configs: seq<MConfig> := [];
      for i := 0 to |rules|
        invariant configs + MemConfigs(rules[i..], labels) == MemConfigs(rules, labels)
      {
        var r := rules[i];
        MemConfigsStep(configs, rules, i, labels);
        var isMatched := NodeFilter(r.operator, r.key, r.value, labels);
        if isMatched {
          if |r.topology.regions| != 1 {
            continue;
          }
          configs := configs + [MConfig(r.topology.regions[0], r.topology.topologyType)];
        }
      }
      assert rules[|rules|..] == [];
      memory := configs;
      return Done;
    }

    /** ApplyResourceDiff: every configured region, in order; it never reports an error. */
    method ApplyResourceDiff(host: Node) returns (st: Status)
      modifies host
      ensures st == Done
      ensures host.state == KmemAll(old(host.state), memory)
    {
      ghost var s0 := host.state;
      for i := 0 to |memory|
        invariant KmemAll(s0, memory) == KmemAll(host.state, memory[i..])
      {
        assert memory[i..][1..] == memory[i + 1..];
        OnlineRegion(host, memory[i]);
      }
      assert memory[|memory|..] == [];
      return Done;
    }
  }
}
