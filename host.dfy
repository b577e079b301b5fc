/**
 * The node as the reconcilers see it: what their queries return, and an
 * append-only log of the commands they issue through the LVM, Pmemer,
 * Mounter and event-recorder collaborators. Whether a command fails, and
 * how a command that succeeds changes what later queries return, are
 * parameters of the node.
 */
module Host {
  import opened Wrappers
  import opened Model
  import opened Pmem
  import opened CusErr

  /** What reading and decoding a reconciler's configuration file gives. */
  datatype ConfigFile =
    | Missing                 // the file does not exist
    | Unreadable(error: string) // reading or decoding failed
    | Rules(rules: seq<ResourceYaml>)

  /** How a reconciler step ends: a nil error, an error, or a Go run-time panic. */
  datatype Status =
    | Done
    | Failed(error: string)
    | Panicked(reason: string)

  /** A command issued to a collaborator, with its arguments. */
  datatype Command =
    | CreateVG(vgName: string, pvs: string, tags: seq<string>)
    | ExtendVG(vgName: string, pvs: string)
    | CreateNamespace(region: string, pmemType: string)
    | EnsureFolder(path: string)
    | FormatAndMount(source: string, target: string, fstype: string, mkfsOptions: seq<string>, mountOptions: string)
    | MakeNamespaceMemory(chardev: string)
    | Event(eventType: string, reason: string, message: string)

  /** Why a command failed: a plain error, or a mount refused over an existing filesystem. */
  datatype Failure =
    | CmdError(msg: string)
    | ExistsFormat(err: ExistsFormatErr)

  function FailureMessage(f: Failure): string {
    match f
    case CmdError(msg) => msg
    case ExistsFormat(err) => ExistsFormatMessage(err)
  }

  /**
   * What the queries return: the paths FileExists confirms, the raw `pvs`
   * output, the decoded `ndctl list -RN` (GetRegions), the decoded
   * per-region listings, the probes of each device and the decoded
   * `daxctl list`.
   */
  datatype View = View(
    files: set<string>,
    pvsOutput: Result<string>,
    regions: Result<seq<PmemRegion>>,
    regionInfo: map<string, Result<seq<PmemRegion>>>,
    probes: map<string, DeviceProbe>,
    dax: Result<seq<DaxctrlMem>>)

  /** The listing of one region; a region `ndctl` does not know lists nothing. */
  function RegionListing(v: View, region: string): Result<seq<PmemRegion>> {
    if region in v.regionInfo then v.regionInfo[region] else Ok([])
  }

  /** The probes of one device; for a device with no entry every probe command fails. */
  function ProbeOf(v: View, device: string): DeviceProbe {
    if device in v.probes then v.probes[device]
    else DeviceProbe(Err("no such device"), Err("no such device"), Err("no such device"))
  }

  datatype HostState = HostState(
    view: View,
    failures: map<Command, Failure>,
    effects: map<Command, View>,
    log: seq<Command>)

  /** Events are only recorded; every other command fails iff the node says so. */
  predicate Fails(s: HostState, c: Command) {
    !c.Event? && c in s.failures
  }

  /** The error a command returns, if it fails. */
  function Outcome(s: HostState, c: Command): (err: Option<string>)
    ensures err.Some? <==> Fails(s, c)
  {
    if Fails(s, c) then Some(FailureMessage(s.failures[c])) else None
  }

  /** Issuing a command logs it; one that succeeds and has an effect changes what later queries see. */
  function Perform(s: HostState, c: Command): (t: HostState)
    ensures t.log == s.log + [c] && t.failures == s.failures && t.effects == s.effects
    ensures t.view == if !Fails(s, c) && !c.Event? && c in s.effects then s.effects[c] else s.view
  {
    var view := if !Fails(s, c) && !c.Event? && c in s.effects then s.effects[c] else s.view;
    s.(view := view, log := s.log + [c])
  }

  /** The log only grows: `t` has logged everything `s` had, and the node's parameters are the same. */
  predicate Extends(s: HostState, t: HostState) {
    |s.log| <= |t.log| && t.log[..|s.log|] == s.log && t.failures == s.failures && t.effects == s.effects
  }

  lemma ExtendsTrans(s: HostState, t: HostState, u: HostState)
    requires Extends(s, t) && Extends(t, u)
    ensures Extends(s, u)
  {
    assert u.log[..|s.log|] == u.log[..|t.log|][..|s.log|];
  }

  lemma PerformExtends(s: HostState, c: Command)
    ensures Extends(s, Perform(s, c))
    ensures Perform(s, c).log[|s.log|..] == [c]
  {
    assert (s.log + [c])[..|s.log|] == s.log;
  }

  /** The node the agent runs on. */
  class Node {
    var state: HostState

    constructor (s: HostState)
      ensures state == s
    {
      state := s;
    }

    /** FileExists. */
    function FileExists(path: string): bool
      reads this
    {
      path in state.view.files
    }

    /** Runs one command and returns its error, if any. */
    method Issue(c: Command) returns (err: Option<string>)
      modifies this
      ensures err == Outcome(old(state), c)
      ensures state == Perform(old(state), c)
    {
      err := Outcome(state, c);
      state := Perform(state, c);
    }
  }
}
