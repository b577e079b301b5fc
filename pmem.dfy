/**
 * The decisions of pkg/utils/pmem.go around the `ndctl`, `daxctl`, `pvs`,
 * `file` and `blkid` commands. A listing is an input: `Ok` with the
 * decoded records, or `Err` with the message of the failed command or of
 * the failed decoding.
 */
module Pmem {
  import opened Wrappers
  import opened GoStd
  import opened Model
  import opened Utils

  /** The namespace mode that gives a block device. */
  const ModeFsdax: string := "fsdax"

  /** The mode a tiered device reports in `daxctl list`. */
  const ModeSystemRam: string := "system-ram"

  /** The message of the listing check that the reconcilers look for. */
  const ZeroOrMultiNamespaces: string := "list Namespace for region get 0 or multi namespaces"

  // ---------------------------------------------------------------------------
  // CreateNamespace

  function CreateNamespaceBase(region: string): string {
    NsenterCmd + " ndctl create-namespace -r " + region
  }

  /** CreateNamespace's command line: type "lvm" gives the default (fsdax) mode, any other type devdax. */
  function CreateNamespaceLine(region: string, pmemType: string): (line: string)
    ensures |line| >= |CreateNamespaceBase(region)|
    ensures line[..|CreateNamespaceBase(region)|] == CreateNamespaceBase(region)
    ensures pmemType == "lvm" ==> line == CreateNamespaceBase(region)
    ensures pmemType != "lvm" ==> line[|CreateNamespaceBase(region)|..] == " --mode=devdax"
  {
    var base := CreateNamespaceBase(region);
    if pmemType == "lvm" then base
    else
      var line := base + " --mode=devdax";
      assert line[..|base|] == base && line[|base|..] == " --mode=devdax";
      line
  }

  /** The two command lines for a region differ exactly by the devdax option. */
  lemma CreateNamespaceModes(region: string, other: string)
    requires other != "lvm"
    ensures CreateNamespaceLine(region, other) == CreateNamespaceLine(region, "lvm") + " --mode=devdax"
  {
  }

  // ---------------------------------------------------------------------------
  // getRegionNamespaceInfo and GetPmemNamespaceDeivcePath

  /**
   * getRegionNamespaceInfo, given the decoded `ndctl list -RN -r region`:
   * the listing must have a region, and its first region exactly one namespace.
   */
  function RegionNamespaceInfo(region: string, listing: Result<seq<PmemRegion>>): (r: Result<seq<PmemRegion>>)
    ensures r.Ok? <==> listing.Ok? && |listing.value| > 0 && |listing.value[0].namespaces| == 1
    ensures r.Ok? ==> r == listing
    ensures listing.Err? ==> r == listing
    ensures listing.Ok? && listing.value == [] ==> r == Err("list Namespace get 0 region by " + region)
    ensures listing.Ok? && listing.value != [] && |listing.value[0].namespaces| != 1 ==> r == Err(ZeroOrMultiNamespaces + region)
  {
    if listing.Err? then listing
    else if |listing.value| == 0 then Err("list Namespace get 0 region by " + region)
    else if |listing.value[0].namespaces| != 1 then Err(ZeroOrMultiNamespaces + region)
    else listing
  }

  /** The path of a namespace's device for a mode: the block device for fsdax, the char device otherwise. */
  function DevicePathFor(ns: PmemNamespace, mode: string): (path: string)
    ensures |path| >= 5 && path[..5] == "/dev/"
    ensures path[5..] == if mode == ModeFsdax then ns.blockDev else ns.charDev
  {
    "/dev/" + if mode == ModeFsdax then ns.blockDev else ns.charDev
  }

  /**
   * GetPmemNamespaceDeivcePath: the device path and the namespace name of
   * the region's only namespace, which must already be in `mode`.
   */
  function NamespaceDevicePath(region: string, mode: string, listing: Result<seq<PmemRegion>>): (r: Result<(string, string)>)
    ensures r.Ok? <==> RegionNamespaceInfo(region, listing).Ok? && listing.value[0].namespaces[0].mode == mode
    ensures r.Ok? ==> r.value == (DevicePathFor(listing.value[0].namespaces[0], mode), listing.value[0].namespaces[0].dev)
    ensures RegionNamespaceInfo(region, listing).Err? ==> r == Err(RegionNamespaceInfo(region, listing).error)
  {
    var info := RegionNamespaceInfo(region, listing);
    if info.Err? then Err(info.error)
    else
      var ns := info.value[0].namespaces[0];
      if ns.mode != mode then Err("GetPmemNamespaceDeivcePath pmem namespace wrong mode" + ns.mode)
      else Ok((DevicePathFor(ns, mode), ns.dev))
  }

  /** A first region with zero or several namespaces gives the error the reconcilers look for. */
  lemma ZeroOrMultiReported(region: string, mode: string, listing: Result<seq<PmemRegion>>)
    requires listing.Ok? && listing.value != [] && |listing.value[0].namespaces| != 1
    ensures NamespaceDevicePath(region, mode, listing).Err?
    ensures Contains(NamespaceDevicePath(region, mode, listing).error, ZeroOrMultiNamespaces)
  {
    var e := ZeroOrMultiNamespaces + region;
    assert e[0..|ZeroOrMultiNamespaces|] == ZeroOrMultiNamespaces;
    ContainsAt(e, ZeroOrMultiNamespaces, 0);
  }

  /** A successful lookup gives a "/dev/" path, so removing its first five characters is safe. */
  lemma DevicePathShape(region: string, mode: string, listing: Result<seq<PmemRegion>>)
    requires NamespaceDevicePath(region, mode, listing).Ok?
    ensures var path := NamespaceDevicePath(region, mode, listing).value.0;
      |path| >= 5 && path[..5] == "/dev/" && "/dev/" + path[5..] == path
  {
    var path := NamespaceDevicePath(region, mode, listing).value.0;
    assert path == path[..5] + path[5..];
  }

  // ---------------------------------------------------------------------------
  // CheckKMEMCreated and CheckNamespaceUsed

  /** CheckKMEMCreated, given the decoded `daxctl list`: is the char device listed as system memory? */
  method CheckKMEMCreated(chardev: string, listing: Result<seq<DaxctrlMem>>) returns (r: Result<bool>)
    ensures listing.Err? ==> r == Err(listing.error)
    ensures listing.Ok? ==> r.Ok? && (r.value <==> DaxctrlMem(chardev, ModeSystemRam) in listing.value)
  {
    if listing.Err? {
      return Err(listing.error);
    }
    var mems := listing.value;
    for i := 0 to |mems|
      invariant forall k :: 0 <= k < i ==> mems[k] != DaxctrlMem(chardev, ModeSystemRam)
    {
      if mems[i].chardev == chardev && mems[i].mode == ModeSystemRam {
        return Ok(true);
      }
    }
    return Ok(false);
  }

  /** The outputs CheckNamespaceUsed sees for one device: the PV count and the two filesystem probes. */
  datatype DeviceProbe = DeviceProbe(pvCount: Result<string>, fileOut: Result<string>, blkidOut: Result<string>)

  /** CheckNamespaceUsed: a physical volume, or else a detected filesystem, makes the device used. */
  function NamespaceUsed(p: DeviceProbe): (used: bool)
    ensures p.pvCount.Ok? && TrimSpace(p.pvCount.value) != "0" ==> used
    ensures !(p.pvCount.Ok? && TrimSpace(p.pvCount.value) != "0") ==>
      (used <==> FSType(p.fileOut, p.blkidOut).Ok? && TrimSpace(FSType(p.fileOut, p.blkidOut).value) != "")
  {
    if p.pvCount.Ok? && TrimSpace(p.pvCount.value) != "0" then true
    else
      var fs := FSType(p.fileOut, p.blkidOut);
      fs.Ok? && TrimSpace(fs.value) != ""
  }

  /** A device with no physical volume that `file` reports as plain data is free. */
  lemma UnusedWhenData(p: DeviceProbe)
    requires p.pvCount.Ok? && TrimSpace(p.pvCount.value) == "0"
    requires p.fileOut.Ok? && TrimSpace(p.fileOut.value) == "data"
    ensures !NamespaceUsed(p)
  {
    FSTypeData(p.fileOut, p.blkidOut);
    assert TrimSpace("") == "";
  }

  /** A device whose `blkid` output names a filesystem type is in use, even with no physical volume. */
  lemma UsedByFilesystem(p: DeviceProbe, t: string, i: nat)
    requires p.fileOut.Ok? && TrimSpace(p.fileOut.value) != "data" && p.blkidOut.Ok?
    requires FirstTypeAt(Split(p.blkidOut.value, "\n"), t, i) && TrimSpace(t) != ""
    ensures NamespaceUsed(p)
  {
    FSTypeLoopComplete(Split(p.blkidOut.value, "\n"), t, i);
  }
}
