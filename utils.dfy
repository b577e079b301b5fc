/**
 * The pure helpers of pkg/utils/utils.go: the node label selector, the
 * region and namespace naming, the subset test and the interpretation of the
 * filesystem probes' output.
 */
module Utils {
  import opened Wrappers
  import opened GoStd
  import opened Model

  /** The prefix that runs a command in the host's mount, IPC, network and UTS namespaces. */
  const NsenterCmd: string := "/usr/bin/nsenter --mount=/proc/1/ns/mnt --ipc=/proc/1/ns/ipc --net=/proc/1/ns/net --uts=/proc/1/ns/uts "

  // ---------------------------------------------------------------------------
  // NodeFilter

  /** The label selector operators of the Kubernetes API. */
  const OpIn: string := "In"
  const OpNotIn: string := "NotIn"
  const OpExists: string := "Exists"
  const OpDoesNotExist: string := "DoesNotExist"

  /** Whether a rule with this operator, key and value selects a node with these labels. */
  predicate Selects(op: string, key: string, value: string, labels: map<string, string>) {
    if op == OpIn then key in labels && labels[key] == value
    else if op == OpNotIn then !(key in labels && labels[key] == value)
    else if op == OpExists then key in labels
    else if op == OpDoesNotExist then key !in labels
    else false
  }

  /**
   * NodeFilter: each operator scans every label, in whatever order the map
   * gives, and sets a flag on the first hit; the flag never goes back.
   */
  method NodeFilter(op: string, key: string, value: string, labels: map<string, string>) returns (matched: bool)
    ensures matched == Selects(op, key, value, labels)
  {
    matched := false;
    if op == OpIn || op == OpNotIn || op == OpExists || op == OpDoesNotExist {
      var valueMatters := op == OpIn || op == OpNotIn;
      var flag := false;
      var remaining := labels.Keys;
      while remaining != {}
        invariant remaining <= labels.Keys
        invariant flag <==> key in labels.Keys - remaining && (valueMatters ==> labels[key] == value)
        decreases remaining
      {
        var k :| k in remaining;
        if k == key && (valueMatters ==> labels[k] == value) {
          flag := true;
        }
        remaining := remaining - {k};
      }
      matched := if op == OpIn || op == OpExists then flag else !flag;
    }
  }

  /** `NotIn` is the negation of `In`, and `DoesNotExist` that of `Exists`. */
  lemma SelectsNegations(key: string, value: string, labels: map<string, string>)
    ensures Selects(OpNotIn, key, value, labels) == !Selects(OpIn, key, value, labels)
    ensures Selects(OpDoesNotExist, key, value, labels) == !Selects(OpExists, key, value, labels)
  {
  }

  /** `Exists` ignores the value: it holds iff the key is a label, whatever its value. */
  lemma ExistsIgnoresValue(key: string, v1: string, v2: string, labels: map<string, string>)
    ensures Selects(OpExists, key, v1, labels) == Selects(OpExists, key, v2, labels) == (key in labels)
    ensures Selects(OpIn, key, v1, labels) ==> Selects(OpExists, key, v2, labels)
  {
  }

  /** An operator other than the four selects no node. */
  lemma UnknownOperator(op: string, key: string, value: string, labels: map<string, string>)
    requires op != OpIn && op != OpNotIn && op != OpExists && op != OpDoesNotExist
    ensures !Selects(op, key, value, labels)
  {
  }

  // ---------------------------------------------------------------------------
  // Region and namespace names

  /**
   * ConvertRegion2Namespace: "regionN" becomes "namespaceN.0". The Go slice
   * `region[6:]` panics on a name shorter than six; that is `None` here.
   */
  function ConvertRegion2Namespace(region: string): (r: Option<string>)
    ensures r.Some? <==> |region| >= 6
    ensures r.Some? ==>
      |r.value| == |region| + 5 && r.value[..9] == "namespace"
      && r.value[9..|r.value| - 2] == region[6..] && r.value[|r.value| - 2..] == ".0"
  {
    if |region| < 6 then None
    else
      var r := "namespace" + region[6..] + ".0";
      assert r[..9] == "namespace" && r[9..|r| - 2] == region[6..] && r[|r| - 2..] == ".0";
      Some(r)
  }

  /** The region's suffix carries over: "region" + i gives "namespace" + i + ".0". */
  lemma ConvertRegionName(index: string)
    ensures ConvertRegion2Namespace("region" + index) == Some("namespace" + index + ".0")
  {
    assert ("region" + index)[6..] == index;
  }

  /** Regions with the same six-character prefix get different namespaces. */
  lemma ConvertRegionInjective(a: string, b: string)
    requires |a| >= 6 && |b| >= 6 && a[..6] == b[..6]
    ensures ConvertRegion2Namespace(a) == ConvertRegion2Namespace(b) <==> a == b
  {
    if ConvertRegion2Namespace(a) == ConvertRegion2Namespace(b) {
      var n := ConvertRegion2Namespace(a).value;
      assert a[6..] == n[9..|n| - 2] == b[6..];
      assert a == a[..6] + a[6..] && b == b[..6] + b[6..];
    }
  }

  /** Every namespace of the listing, region by region, in order. */
  function AllNamespaces(regions: seq<PmemRegion>): seq<PmemNamespace> {
    if regions == [] then [] else regions[0].namespaces + AllNamespaces(regions[1..])
  }

  /** The first namespace called `name`. */
  function FirstNamed(nss: seq<PmemNamespace>, name: string): (r: Option<PmemNamespace>)
    ensures r.Some? ==> r.value in nss && r.value.dev == name
    ensures r.None? <==> forall i :: 0 <= i < |nss| ==> nss[i].dev != name
  {
    if nss == [] then None
    else if nss[0].dev == name then Some(nss[0])
    else FirstNamed(nss[1..], name)
  }

  /** The block device path of the first namespace called `name`, or "" if there is none. */
  function LvmDevicePath(name: string, regions: seq<PmemRegion>): string {
    match FirstNamed(AllNamespaces(regions), name)
    case None => ""
    case Some(ns) => JoinDev(ns.blockDev)
  }

  /** The first match is found among the namespaces that come after those skipped. */
  lemma FirstNamedSkip(nss: seq<PmemNamespace>, rest: seq<PmemNamespace>, j: nat, name: string)
    requires j < |nss| && nss[j].dev != name
    ensures FirstNamed(nss[j..] + rest, name) == FirstNamed(nss[j + 1..] + rest, name)
  {
    assert (nss[j..] + rest)[1..] == nss[j + 1..] + rest;
  }

  /** ConvertNamespace2LVMDevicePath: regions, then namespaces, in order; the first match wins. */
  method ConvertNamespace2LVMDevicePath(name: string, regions: seq<PmemRegion>) returns (path: string)
    ensures path == LvmDevicePath(name, regions)
  {
    for i := 0 to |regions|
      invariant FirstNamed(AllNamespaces(regions), name) == FirstNamed(AllNamespaces(regions[i..]), name)
    {
      assert regions[i..][1..] == regions[i + 1..];
      var nss := regions[i].namespaces;
      var rest := AllNamespaces(regions[i + 1..]);
      assert nss[0..] == nss;
      for j := 0 to |nss|
        invariant FirstNamed(AllNamespaces(regions), name) == FirstNamed(nss[j..] + rest, name)
      {
        if nss[j].dev == name {
          assert (nss[j..] + rest)[0] == nss[j];
          return JoinDev(nss[j].blockDev);
        }
        FirstNamedSkip(nss, rest, j, name);
      }
      assert nss[|nss|..] + rest == rest;
    }
    assert regions[|regions|..] == [];
    return "";
  }

  /** The path is empty iff no namespace of the listing has that name. */
  lemma LvmDevicePathFound(name: string, regions: seq<PmemRegion>)
    ensures LvmDevicePath(name, regions) == "" <==> forall ns :: ns in AllNamespaces(regions) ==> ns.dev != name
  {
    var all := AllNamespaces(regions);
    match FirstNamed(all, name)
    case None =>
    case Some(ns) =>
      JoinDevNonEmpty(ns.blockDev);
  }

  /** For a device name without slashes or dots, the path is "/dev/" followed by it. */
  lemma LvmDevicePathPlain(name: string, regions: seq<PmemRegion>)
    requires FirstNamed(AllNamespaces(regions), name).Some?
    requires IsPlainName(FirstNamed(AllNamespaces(regions), name).value.blockDev)
    ensures LvmDevicePath(name, regions) == "/dev/" + FirstNamed(AllNamespaces(regions), name).value.blockDev
  {
    JoinDevPlain(FirstNamed(AllNamespaces(regions), name).value.blockDev);
  }

  lemma JoinDevNonEmpty(name: string)
    ensures JoinDev(name) != ""
  {
    assert JoinDev(name)[0] == '/';
  }

  // ---------------------------------------------------------------------------
  // IsPart

  /** IsPart: every element of `small` occurs in `large`; true for an empty `small`. */
  method IsPart(large: seq<string>, small: seq<string>) returns (isPart: bool)
    ensures isPart <==> forall x :: x in small ==> x in large
  {
    isPart := true;
    for i := 0 to |small|
      invariant isPart <==> forall k :: 0 <= k < i ==> small[k] in large
    {
      var flag := false;
      for j := 0 to |large|
        invariant flag <==> small[i] in large[..j]
      {
        if small[i] == large[j] {
          flag := true;
        }
        assert large[..j + 1] == large[..j] + [large[j]];
      }
      assert large[..|large|] == large;
      if !flag {
        isPart := false;
      }
    }
  }

  // ---------------------------------------------------------------------------
  // checkFSType

  /** The error returned for `blkid` output that cannot be read. */
  const ErrParse: string := "Cannot parse output of blkid"

  /** The `=`-separated fields of a trimmed `blkid -o export` line. */
  function LineFields(line: string): seq<string> {
    Split(TrimSpace(line), "=")
  }

  /** A line of exactly one `key=value`. */
  predicate PairLine(line: string) {
    |LineFields(line)| == 2
  }

  /** A `key=value` line whose key is not TYPE. */
  predicate OtherPairLine(line: string) {
    PairLine(line) && LineFields(line)[0] != "TYPE"
  }

  /** The line `TYPE=t`. */
  predicate TypeLine(line: string, t: string) {
    PairLine(line) && LineFields(line)[0] == "TYPE" && LineFields(line)[1] == t
  }

  function FSTypeLoop(lines: seq<string>): Result<string> {
    if lines == [] then Err(ErrParse)
    else if !PairLine(lines[0]) then Err(ErrParse)
    else if LineFields(lines[0])[0] == "TYPE" then Ok(LineFields(lines[0])[1])
    else FSTypeLoop(lines[1..])
  }

  /**
   * The filesystem found from the output of `file -bsL` and of
   * `blkid -o export`: "" for "data"; a failed command fails.
   */
  function FSType(fileOut: Result<string>, blkidOut: Result<string>): Result<string> {
    if fileOut.Err? then Err(fileOut.error)
    else if TrimSpace(fileOut.value) == "data" then Ok("")
    else if blkidOut.Err? then Err(blkidOut.error)
    else FSTypeLoop(Split(blkidOut.value, "\n"))
  }

  /** checkFSType, given the outputs of its two commands. */
  method CheckFSType(fileOut: Result<string>, blkidOut: Result<string>) returns (r: Result<string>)
    ensures r == FSType(fileOut, blkidOut)
  {
    if fileOut.Err? {
      return Err(fileOut.error);
    }
    if TrimSpace(fileOut.value) == "data" {
      return Ok("");
    }
    if blkidOut.Err? {
      return Err(blkidOut.error);
    }
    var lines := Split(blkidOut.value, "\n");
    for i := 0 to |lines|
      invariant FSTypeLoop(lines) == FSTypeLoop(lines[i..])
    {
      assert lines[i..][1..] == lines[i + 1..];
      var fields := Split(TrimSpace(lines[i]), "=");
      if |fields| != 2 {
        return Err(ErrParse);
      }
      if fields[0] == "TYPE" {
        return Ok(fields[1]);
      }
    }
    assert lines[|lines|..] == [];
    return Err(ErrParse);
  }

  /** The scan fails only with ErrParse. */
  lemma {:induction false} FSTypeLoopError(lines: seq<string>)
    ensures FSTypeLoop(lines).Err? ==> FSTypeLoop(lines).error == ErrParse
  {
    if lines != [] && OtherPairLine(lines[0]) {
      FSTypeLoopError(lines[1..]);
    }
  }

  /** Line `i` is `TYPE=t` and every line before it is another `key=value`. */
  predicate FirstTypeAt(lines: seq<string>, t: string, i: nat) {
    i < |lines| && TypeLine(lines[i], t) && forall j :: 0 <= j < i ==> OtherPairLine(lines[j])
  }

  /** Moving past one other `key=value` line in front. */
  lemma FirstTypeAtTail(lines: seq<string>, t: string, i: nat)
    requires lines != [] && OtherPairLine(lines[0])
    ensures FirstTypeAt(lines, t, i + 1) <==> FirstTypeAt(lines[1..], t, i)
  {
    if FirstTypeAt(lines, t, i + 1) {
      assert lines[1..][i] == lines[i + 1];
      forall j | 0 <= j < i ensures OtherPairLine(lines[1..][j]) {
        assert lines[1..][j] == lines[j + 1];
      }
    }
    if FirstTypeAt(lines[1..], t, i) {
      assert lines[1..][i] == lines[i + 1];
      forall j | 0 <= j < i + 1 ensures OtherPairLine(lines[j]) {
        if j > 0 {
          assert lines[j] == lines[1..][j - 1];
        }
      }
    }
  }

  /** The scan yields `t` only if some line is `TYPE=t` and every line before it is another `key=value`. */
  lemma {:induction false} FSTypeLoopSound(lines: seq<string>, t: string)
    requires FSTypeLoop(lines) == Ok(t)
    ensures exists i :: FirstTypeAt(lines, t, i)
  {
    if !TypeLine(lines[0], t) {
      assert OtherPairLine(lines[0]);
      FSTypeLoopSound(lines[1..], t);
      var i :| FirstTypeAt(lines[1..], t, i);
      FirstTypeAtTail(lines, t, i);
    } else {
      assert FirstTypeAt(lines, t, 0);
    }
  }

  /** A line `TYPE=t` preceded only by other `key=value` lines makes the scan yield `t`. */
  lemma {:induction false} FSTypeLoopComplete(lines: seq<string>, t: string, i: nat)
    requires FirstTypeAt(lines, t, i)
    ensures FSTypeLoop(lines) == Ok(t)
  {
    if i > 0 {
      assert OtherPairLine(lines[0]);
      FirstTypeAtTail(lines, t, i - 1);
      FSTypeLoopComplete(lines[1..], t, i - 1);
    }
  }

  /** A "data" answer from `file` means no filesystem, whatever `blkid` would say. */
  lemma FSTypeData(fileOut: Result<string>, blkidOut: Result<string>)
    requires fileOut.Ok? && TrimSpace(fileOut.value) == "data"
    ensures FSType(fileOut, blkidOut) == Ok("")
  {
  }
}
