/**
 * The LVM front end of pkg/utils/lvm.go: reading the listings printed by
 * `lvs`, `vgs` and `pvs`, and deciding what `lvcreate`, `lvremove`,
 * `vgremove` and `lvchange` command to run. The command output is an input
 * (`Ok(text)` or `Err(message)` of the `Run` call); a decision says which
 * command would be run, or why none is.
 */
module Lvm {
  import opened Wrappers
  import opened GoStd
  import opened Model
  import opened Utils

  /** The tag that protects a volume or group from removal. */
  const ProtectedTagName: string := "protected"

  /** What an LVM operation does before running anything. */
  datatype Decision =
    | Refuse(error: string)    // returns an error, runs nothing
    | Skip(message: string)    // returns success, runs nothing
    | Execute(command: string) // runs this command line

  /** The lines of `text` once trimmed as a whole. */
  function OutputLines(text: string): seq<string> {
    Split(TrimSpace(text), "\n")
  }

  // ---------------------------------------------------------------------------
  // The listing loop shared by ListLV, ListVG and ListPhysicalVolume
  //
  // Each listing trims every line (`trim`), skips the lines `keep` rejects, parses the
  // others with `parse`, fails on the first that does not parse (with the
  // error `wrap(line, error)`), and appends the records that `retain` accepts.

  function ListLoop<T>(lines: seq<string>, trim: string -> string, keep: string -> bool, parse: string -> Result<T>,
                       wrap: (string, string) -> string, retain: T -> bool, acc: seq<T>): Result<seq<T>>
    decreases |lines|
  {
    if lines == [] then Ok(acc)
    else
      var line := trim(lines[0]);
      if !keep(line) then ListLoop(lines[1..], trim, keep, parse, wrap, retain, acc)
      else
        var x := parse(line);
        if x.Err? then Err(wrap(line, x.error))
        else ListLoop(lines[1..], trim, keep, parse, wrap, retain, if retain(x.value) then acc + [x.value] else acc)
  }

  /** One step of the listing loop. */
  lemma ListLoopStep<T>(lines: seq<string>, trim: string -> string, keep: string -> bool, parse: string -> Result<T>,
                        wrap: (string, string) -> string, retain: T -> bool, acc: seq<T>)
    requires lines != []
    ensures var line := trim(lines[0]);
      ListLoop(lines, trim, keep, parse, wrap, retain, acc)
      == if !keep(line) then ListLoop(lines[1..], trim, keep, parse, wrap, retain, acc)
         else if parse(line).Err? then Err(wrap(line, parse(line).error))
         else ListLoop(lines[1..], trim, keep, parse, wrap, retain, if retain(parse(line).value) then acc + [parse(line).value] else acc)
  {
  }

  /** The trimmed lines that `keep` accepts, in order. */
  function Kept(lines: seq<string>, trim: string -> string, keep: string -> bool): (kept: seq<string>)
    ensures |kept| <= |lines|
  {
    if lines == [] then []
    else
      var line := trim(lines[0]);
      (if keep(line) then [line] else []) + Kept(lines[1..], trim, keep)
  }

  /** Every one of `lines` parses. */
  predicate AllParse<T>(lines: seq<string>, parse: string -> Result<T>) {
    forall i :: 0 <= i < |lines| ==> parse(lines[i]).Ok?
  }

  /** The records of lines that all parse, in order. */
  function ParsedAll<T>(lines: seq<string>, parse: string -> Result<T>): (xs: seq<T>)
    requires AllParse(lines, parse)
    ensures |xs| == |lines| && forall i :: 0 <= i < |lines| ==> parse(lines[i]) == Ok(xs[i])
  {
    if lines == [] then [] else [parse(lines[0]).value] + ParsedAll(lines[1..], parse)
  }

  /** The records that `retain` accepts, in order. */
  function Retained<T>(xs: seq<T>, retain: T -> bool): (ys: seq<T>)
    ensures forall i :: 0 <= i < |ys| ==> retain(ys[i]) && ys[i] in xs
    ensures forall x :: x in xs && retain(x) ==> x in ys
  {
    if xs == [] then [] else (if retain(xs[0]) then [xs[0]] else []) + Retained(xs[1..], retain)
  }

  /** A line followed by others all parse iff the first and the others do. */
  lemma AllParseCons<T>(line: string, rest: seq<string>, parse: string -> Result<T>)
    ensures AllParse([line] + rest, parse) <==> parse(line).Ok? && AllParse(rest, parse)
  {
    var kept := [line] + rest;
    if AllParse(kept, parse) {
      assert parse(kept[0]).Ok?;
      forall i | 0 <= i < |rest| ensures parse(rest[i]).Ok? {
        assert kept[i + 1] == rest[i];
      }
    }
    if parse(line).Ok? && AllParse(rest, parse) {
      forall i | 0 <= i < |kept| ensures parse(kept[i]).Ok? {
        if i > 0 {
          assert kept[i] == rest[i - 1];
        }
      }
    }
  }

  /** Parsing one more line in front adds its record in front. */
  lemma ParsedAllCons<T>(line: string, rest: seq<string>, parse: string -> Result<T>)
    requires parse(line).Ok? && AllParse(rest, parse)
    ensures AllParse([line] + rest, parse)
    ensures ParsedAll([line] + rest, parse) == [parse(line).value] + ParsedAll(rest, parse)
  {
    AllParseCons(line, rest, parse);
    assert ([line] + rest)[1..] == rest;
  }

  /** Retaining from a sequence with one more record in front. */
  lemma RetainedCons<T>(x: T, p: seq<T>, retain: T -> bool, acc: seq<T>)
    ensures acc + Retained([x] + p, retain) == (if retain(x) then acc + [x] else acc) + Retained(p, retain)
  {
    assert ([x] + p)[1..] == p;
    assert Retained([x] + p, retain) == (if retain(x) then [x] else []) + Retained(p, retain);
  }

  /** The loop succeeds iff every kept line parses. */
  lemma {:induction false} ListLoopOk<T>(lines: seq<string>, trim: string -> string, keep: string -> bool, parse: string -> Result<T>,
                                          wrap: (string, string) -> string, retain: T -> bool, acc: seq<T>)
    ensures ListLoop(lines, trim, keep, parse, wrap, retain, acc).Ok? <==> AllParse(Kept(lines, trim, keep), parse)
    decreases |lines|
  {
    if lines != [] {
      var line := trim(lines[0]);
      var rest := Kept(lines[1..], trim, keep);
      var kept := Kept(lines, trim, keep);
      if !keep(line) {
        assert kept == rest;
        ListLoopOk(lines[1..], trim, keep, parse, wrap, retain, acc);
      } else {
        assert kept == [line] + rest;
        AllParseCons(line, rest, parse);
        if parse(line).Ok? {
          var x := parse(line).value;
          var acc' := if retain(x) then acc + [x] else acc;
          assert ListLoop(lines, trim, keep, parse, wrap, retain, acc) == ListLoop(lines[1..], trim, keep, parse, wrap, retain, acc');
          ListLoopOk(lines[1..], trim, keep, parse, wrap, retain, acc');
        }
      }
    }
  }

  /** On success the loop has appended the retained records of the kept lines, in order. */
  lemma {:induction false} ListLoopValue<T>(lines: seq<string>, trim: string -> string, keep: string -> bool, parse: string -> Result<T>,
                                             wrap: (string, string) -> string, retain: T -> bool, acc: seq<T>)
    requires AllParse(Kept(lines, trim, keep), parse)
    ensures ListLoop(lines, trim, keep, parse, wrap, retain, acc) == Ok(acc + Retained(ParsedAll(Kept(lines, trim, keep), parse), retain))
    decreases |lines|
  {
    if lines == [] {
      assert acc + [] == acc;
    } else {
      var line := trim(lines[0]);
      var rest := Kept(lines[1..], trim, keep);
      var kept := Kept(lines, trim, keep);
      if !keep(line) {
        assert kept == rest;
        ListLoopValue(lines[1..], trim, keep, parse, wrap, retain, acc);
      } else {
        assert kept == [line] + rest;
        AllParseCons(line, rest, parse);
        var x := parse(line).value;
        var acc' := if retain(x) then acc + [x] else acc;
        assert ListLoop(lines, trim, keep, parse, wrap, retain, acc) == ListLoop(lines[1..], trim, keep, parse, wrap, retain, acc');
        ListLoopValue(lines[1..], trim, keep, parse, wrap, retain, acc');
        ParsedAllCons(line, rest, parse);
        RetainedCons(x, ParsedAll(rest, parse), retain, acc);
      }
    }
  }

  /** On failure the error is that of a kept line that does not parse; there is no partial result. */
  lemma {:induction false} ListLoopError<T>(lines: seq<string>, trim: string -> string, keep: string -> bool, parse: string -> Result<T>,
                                             wrap: (string, string) -> string, retain: T -> bool, acc: seq<T>)
    requires ListLoop(lines, trim, keep, parse, wrap, retain, acc).Err?
    ensures exists i :: (0 <= i < |Kept(lines, trim, keep)| && parse(Kept(lines, trim, keep)[i]).Err?
      && ListLoop(lines, trim, keep, parse, wrap, retain, acc).error == wrap(Kept(lines, trim, keep)[i], parse(Kept(lines, trim, keep)[i]).error))
    decreases |lines|
  {
    var line := trim(lines[0]);
    var rest := Kept(lines[1..], trim, keep);
    var kept := Kept(lines, trim, keep);
    var e := ListLoop(lines, trim, keep, parse, wrap, retain, acc).error;
    if !keep(line) {
      assert kept == rest;
      ListLoopError(lines[1..], trim, keep, parse, wrap, retain, acc);
    } else {
      assert kept == [line] + rest;
      if parse(line).Ok? {
        var x := parse(line).value;
        var acc' := if retain(x) then acc + [x] else acc;
        assert ListLoop(lines, trim, keep, parse, wrap, retain, acc) == ListLoop(lines[1..], trim, keep, parse, wrap, retain, acc');
        ListLoopError(lines[1..], trim, keep, parse, wrap, retain, acc');
        var i :| 0 <= i < |rest| && parse(rest[i]).Err? && e == wrap(rest[i], parse(rest[i]).error);
        assert kept[i + 1] == rest[i];
        assert 0 <= i + 1 < |kept| && parse(kept[i + 1]).Err? && e == wrap(kept[i + 1], parse(kept[i + 1]).error);
      } else {
        assert kept[0] == line;
        assert 0 <= 0 < |kept| && parse(kept[0]).Err? && e == wrap(kept[0], parse(kept[0]).error);
      }
    }
  }

  // ---------------------------------------------------------------------------
  // ListLV, ListVG, ListPhysicalVolume

  predicate NamesLV(line: string) {
    Contains(line, "LVM2_LV_NAME")
  }

  predicate NotWarning(line: string) {
    !HasPrefix(line, "WARNING")
  }

  function ParseLVError(line: string, e: string): string {
    "Parse LVM: " + line + ", with error: " + e
  }

  function PassError(line: string, e: string): string {
    e
  }

  predicate AnyLV(lv: LV) {
    true
  }

  predicate AnyVG(vg: VG) {
    true
  }

  /** A physical volume is listed only with both a group and a name. */
  predicate NamedPV(pv: PV) {
    pv.vgName != "" && pv.name != ""
  }

  function ListLVSpec(out: Result<string>): Result<seq<LV>> {
    if out.Err? then Err(out.error)
    else if TrimSpace(out.value) == "" then Ok([])
    else ListLoop(OutputLines(out.value), TrimSpace, NamesLV, ParseLV, ParseLVError, AnyLV, [])
  }

  /** ListLV, given the output of `lvs`. */
  method ListLV(out: Result<string>) returns (r: Result<seq<LV>>)
    ensures r == ListLVSpec(out)
    ensures out.Err? ==> r == Err(out.error)
    ensures out.Ok? && TrimSpace(out.value) == "" ==> r == Ok([])
  {
    if out.Err? {
      return Err(out.error);
    }
    var outStr := TrimSpace(out.value);
    if outStr == "" {
      return Ok([]);
    }
    var outLines := Split(outStr, "\n");
    r := ListLVLines(outLines);
  }

  /** ListLV's loop over the lines of the output. */
  method ListLVLines(outLines: seq<string>) returns (r: Result<seq<LV>>)
    ensures r == ListLoop(outLines, TrimSpace, NamesLV, ParseLV, ParseLVError, AnyLV, [])
  {
    var lvs: seq<LV> := [];
    for i := 0 to |outLines|
      invariant ListLoop(outLines, TrimSpace, NamesLV, ParseLV, ParseLVError, AnyLV, [])
            == ListLoop(outLines[i..], TrimSpace, NamesLV, ParseLV, ParseLVError, AnyLV, lvs)
    {
      assert outLines[i..][1..] == outLines[i + 1..];
      var line := TrimSpace(outLines[i]);
      ListLoopStep(outLines[i..], TrimSpace, NamesLV, ParseLV, ParseLVError, AnyLV, lvs);
      if !NamesLV(line) {
        continue;
      }
      var lv := ParseLV(line);
      if lv.Err? {
        return Err(ParseLVError(line, lv.error));
      }
      lvs := lvs + [lv.value];
    }
    assert outLines[|outLines|..] == [];
    return Ok(lvs);
  }

  function ListVGSpec(out: Result<string>): Result<seq<VG>> {
    if out.Err? then Err(out.error)
    else if TrimSpace(out.value) == "" then Ok([])
    else ListLoop(OutputLines(out.value), TrimSpace, NotWarning, ParseVG, PassError, AnyVG, [])
  }

  /** ListVG, given the output of `vgs`. */
  method ListVG(out: Result<string>) returns (r: Result<seq<VG>>)
    ensures r == ListVGSpec(out)
    ensures out.Err? ==> r == Err(out.error)
    ensures out.Ok? && TrimSpace(out.value) == "" ==> r == Ok([])
  {
    if out.Err? {
      return Err(out.error);
    }
    var outStr := TrimSpace(out.value);
    if outStr == "" {
      return Ok([]);
    }
    var outLines := Split(outStr, "\n");
    r := ListVGLines(outLines);
  }

  /** ListVG's loop over the lines of the output. */
  method ListVGLines(outLines: seq<string>) returns (r: Result<seq<VG>>)
    ensures r == ListLoop(outLines, TrimSpace, NotWarning, ParseVG, PassError, AnyVG, [])
  {
    var vgs: seq<VG> := [];
    for i := 0 to |outLines|
      invariant ListLoop(outLines, TrimSpace, NotWarning, ParseVG, PassError, AnyVG, [])
            == ListLoop(outLines[i..], TrimSpace, NotWarning, ParseVG, PassError, AnyVG, vgs)
    {
      assert outLines[i..][1..] == outLines[i + 1..];
      var line := TrimSpace(outLines[i]);
      ListLoopStep(outLines[i..], TrimSpace, NotWarning, ParseVG, PassError, AnyVG, vgs);
      if HasPrefix(line, "WARNING") {
        continue;
      }
      var vg := ParseVG(line);
      if vg.Err? {
        return Err(vg.error);
      }
      vgs := vgs + [vg.value];
    }
    assert outLines[|outLines|..] == [];
    return Ok(vgs);
  }

  function ListPhysicalVolumeSpec(out: Result<string>): Result<seq<PV>> {
    if out.Err? then Err(out.error)
    else if TrimSpace(out.value) == "" then Ok([])
    else ListLoop(OutputLines(out.value), TrimSpace, NotWarning, ParsePV, PassError, NamedPV, [])
  }

  /** ListPhysicalVolume, given the output of `pvs`. */
  method ListPhysicalVolume(out: Result<string>) returns (r: Result<seq<PV>>)
    ensures r == ListPhysicalVolumeSpec(out)
    ensures out.Err? ==> r == Err(out.error)
    ensures out.Ok? && TrimSpace(out.value) == "" ==> r == Ok([])
  {
    if out.Err? {
      return Err(out.error);
    }
    var outStr := TrimSpace(out.value);
    if outStr == "" {
      return Ok([]);
    }
    var outLines := Split(outStr, "\n");
    r := ListPVLines(outLines);
  }

  /** ListPhysicalVolume's loop over the lines of the output. */
  method ListPVLines(outLines: seq<string>) returns (r: Result<seq<PV>>)
    ensures r == ListLoop(outLines, TrimSpace, NotWarning, ParsePV, PassError, NamedPV, [])
  {
    var pvs: seq<PV> := [];
    for i := 0 to |outLines|
      invariant ListLoop(outLines, TrimSpace, NotWarning, ParsePV, PassError, NamedPV, [])
            == ListLoop(outLines[i..], TrimSpace, NotWarning, ParsePV, PassError, NamedPV, pvs)
    {
      assert outLines[i..][1..] == outLines[i + 1..];
      var line := TrimSpace(outLines[i]);
      ListLoopStep(outLines[i..], TrimSpace, NotWarning, ParsePV, PassError, NamedPV, pvs);
      if HasPrefix(line, "WARNING") {
        continue;
      }
      var pv := ParsePV(line);
      if pv.Err? {
        return Err(pv.error);
      }
      if pv.value.vgName != "" && pv.value.name != "" {
        pvs := pvs + [pv.value];
      }
    }
    assert outLines[|outLines|..] == [];
    return Ok(pvs);
  }

  /**
   * ListLV: a failed `lvs` fails; a blank output is the empty list; otherwise
   * the records of the lines naming a volume, in order, all or nothing.
   */
  lemma ListLVCases(out: Result<string>)
    requires out.Ok? && TrimSpace(out.value) != ""
    ensures var kept := Kept(OutputLines(out.value), TrimSpace, NamesLV);
      (ListLVSpec(out).Ok? <==> forall i :: 0 <= i < |kept| ==> ParseLV(kept[i]).Ok?)
      && (ListLVSpec(out).Ok? ==> ListLVSpec(out).value == ParsedAll(kept, ParseLV))
      && (ListLVSpec(out).Err? ==> exists i :: (0 <= i < |kept| && ParseLV(kept[i]).Err?
            && ListLVSpec(out).error == ParseLVError(kept[i], ParseLV(kept[i]).error)))
  {
    var lines := OutputLines(out.value);
    var kept := Kept(lines, TrimSpace, NamesLV);
    ListLoopOk(lines, TrimSpace, NamesLV, ParseLV, ParseLVError, AnyLV, []);
    if ListLVSpec(out).Ok? {
      ListLoopValue(lines, TrimSpace, NamesLV, ParseLV, ParseLVError, AnyLV, []);
      RetainedAll(ParsedAll(kept, ParseLV), AnyLV);
    } else {
      ListLoopError(lines, TrimSpace, NamesLV, ParseLV, ParseLVError, AnyLV, []);
    }
  }

  /** ListVG: a blank output is the empty list; otherwise the records of the non-warning lines, all or nothing. */
  lemma ListVGCases(out: Result<string>)
    requires out.Ok? && TrimSpace(out.value) != ""
    ensures var kept := Kept(OutputLines(out.value), TrimSpace, NotWarning);
      (ListVGSpec(out).Ok? <==> forall i :: 0 <= i < |kept| ==> ParseVG(kept[i]).Ok?)
      && (ListVGSpec(out).Ok? ==> ListVGSpec(out).value == ParsedAll(kept, ParseVG))
  {
    var lines := OutputLines(out.value);
    ListLoopOk(lines, TrimSpace, NotWarning, ParseVG, PassError, AnyVG, []);
    if ListVGSpec(out).Ok? {
      ListLoopValue(lines, TrimSpace, NotWarning, ParseVG, PassError, AnyVG, []);
      RetainedAll(ParsedAll(Kept(lines, TrimSpace, NotWarning), ParseVG), AnyVG);
    }
  }

  /**
   * ListPhysicalVolume: a blank output is the empty list; otherwise the
   * volumes of the non-warning lines that have both a group and a name, in
   * order, or an error if one of the lines does not parse.
   */
  lemma ListPhysicalVolumeCases(out: Result<string>)
    requires out.Ok? && TrimSpace(out.value) != ""
    ensures var kept := Kept(OutputLines(out.value), TrimSpace, NotWarning);
      (ListPhysicalVolumeSpec(out).Ok? <==> forall i :: 0 <= i < |kept| ==> ParsePV(kept[i]).Ok?)
      && (ListPhysicalVolumeSpec(out).Ok? ==> ListPhysicalVolumeSpec(out).value == Retained(ParsedAll(kept, ParsePV), NamedPV))
  {
    var lines := OutputLines(out.value);
    ListLoopOk(lines, TrimSpace, NotWarning, ParsePV, PassError, NamedPV, []);
    if ListPhysicalVolumeSpec(out).Ok? {
      ListLoopValue(lines, TrimSpace, NotWarning, ParsePV, PassError, NamedPV, []);
    }
  }

  lemma {:induction false} RetainedAll<T>(xs: seq<T>, retain: T -> bool)
    requires forall i :: 0 <= i < |xs| ==> retain(xs[i])
    ensures Retained(xs, retain) == xs
    decreases |xs|
  {
    if xs != [] {
      assert forall i :: 0 <= i < |xs[1..]| ==> xs[1..][i] == xs[i + 1];
      RetainedAll(xs[1..], retain);
    }
  }

  // ---------------------------------------------------------------------------
  // Commands

  /** One `flag value` pair per tag, in order. */
  function TagArgs(tags: seq<string>, flag: string): (args: seq<string>)
    ensures |args| == 2 * |tags|
    ensures forall i :: 0 <= i < |tags| ==> args[2 * i] == flag && args[2 * i + 1] == tags[i]
  {
    if tags == [] then []
    else
      var rest := TagArgs(tags[1..], flag);
      var args := [flag, tags[0]] + rest;
      forall i | 1 <= i < |tags|
        ensures args[2 * i] == flag && args[2 * i + 1] == tags[i]
      {
        var j := i - 1;
        assert 2 * i == 2 * j + 2;
        assert args[2 * j + 2] == rest[2 * j] && args[2 * j + 3] == rest[2 * j + 1];
        assert tags[1..][j] == tags[i];
      }
      args
  }

  /** Appends the tag arguments one pair at a time, as the commands' loops do. */
  method AppendTagArgs(args: seq<string>, tags: seq<string>, flag: string) returns (r: seq<string>)
    ensures r == args + TagArgs(tags, flag)
  {
    r := args;
    for i := 0 to |tags|
      invariant r + TagArgs(tags[i..], flag) == args + TagArgs(tags, flag)
    {
      assert tags[i..][1..] == tags[i + 1..];
      r := r + [flag, tags[i]];
    }
    assert tags[|tags|..] == [];
  }

  /** The arguments of `lvcreate`; the mirror options appear only for a positive mirror count. */
  function CreateLVArgs(vg: string, name: string, size: nat, mirrors: nat, tags: seq<string>): seq<string> {
    ["lvcreate", "-v", "-n", name, "-L", Itoa(size) + "b"]
    + (if mirrors > 0 then ["-m", Itoa(mirrors), "--nosync"] else [])
    + TagArgs(tags, "--add-tag")
    + [vg]
  }

  /** CreateLV: a zero size is refused before anything runs. */
  method CreateLV(vg: string, name: string, size: nat, mirrors: nat, tags: seq<string>) returns (d: Decision)
    ensures size == 0 <==> d == Refuse("size must be greater than 0")
    ensures size > 0 ==> d == Execute(Join(CreateLVArgs(vg, name, size, mirrors, tags), " "))
  {
    if size == 0 {
      return Refuse("size must be greater than 0");
    }
    var args := ["lvcreate", "-v", "-n", name, "-L", Itoa(size) + "b"];
    if mirrors > 0 {
      args := args + ["-m", Itoa(mirrors), "--nosync"];
    }
    var base := args;
    assert base == ["lvcreate", "-v", "-n", name, "-L", Itoa(size) + "b"]
      + (if mirrors > 0 then ["-m", Itoa(mirrors), "--nosync"] else []);
    args := AppendTagArgs(args, tags, "--add-tag");
    args := args + [vg];
    assert args == base + TagArgs(tags, "--add-tag") + [vg];
    return Execute(Join(args, " "));
  }

  /** The shape of the `lvcreate` arguments: the size, the optional mirrors, a flag before each tag, the group last. */
  lemma CreateLVArgsShape(vg: string, name: string, size: nat, mirrors: nat, tags: seq<string>)
    ensures var args := CreateLVArgs(vg, name, size, mirrors, tags);
      var m := if mirrors > 0 then 3 else 0;
      |args| == 7 + m + 2 * |tags|
      && args[..6] == ["lvcreate", "-v", "-n", name, "-L", Itoa(size) + "b"]
      && (mirrors > 0 ==> args[6..9] == ["-m", Itoa(mirrors), "--nosync"])
      && (forall i :: 0 <= i < |tags| ==> args[6 + m + 2 * i] == "--add-tag" && args[6 + m + 2 * i + 1] == tags[i])
      && args[|args| - 1] == vg
  {
  }

  /** True iff `tags` holds the protected tag; the loop the removal commands run. */
  method HasProtectedTag(tags: seq<string>) returns (found: bool)
    ensures found <==> ProtectedTagName in tags
  {
    for i := 0 to |tags|
      invariant ProtectedTagName !in tags[..i]
    {
      if tags[i] == ProtectedTagName {
        return true;
      }
      assert tags[..i + 1] == tags[..i] + [tags[i]];
    }
    assert tags[..|tags|] == tags;
    return false;
  }

  function RemoveLVSpec(vg: string, name: string, listing: Result<seq<LV>>): Decision {
    if listing.Err? then Refuse("failed to list LVs: " + listing.error)
    else if |listing.value| == 0 then Skip("lvm " + vg + "/" + name + " is not exist, skip remove")
    else if |listing.value| != 1 then Refuse("expected 1 LV, got " + Itoa(|listing.value|))
    else if ProtectedTagName in listing.value[0].tags then Refuse("volume is protected")
    else Execute(Join([NsenterCmd, "lvremove", "-v", "-f", vg + "/" + name], " "))
  }

  /** RemoveLV, given the `lvs vg/name` output. */
  method RemoveLV(vg: string, name: string, lvsOut: Result<string>) returns (d: Decision)
    ensures d == RemoveLVSpec(vg, name, ListLVSpec(lvsOut))
  {
    var lvs := ListLV(lvsOut);
    if lvs.Err? {
      return Refuse("failed to list LVs: " + lvs.error);
    }
    if |lvs.value| == 0 {
      return Skip("lvm " + vg + "/" + name + " is not exist, skip remove");
    }
    if |lvs.value| != 1 {
      return Refuse("expected 1 LV, got " + Itoa(|lvs.value|));
    }
    var isProtected := HasProtectedTag(lvs.value[0].tags);
    if isProtected {
      return Refuse("volume is protected");
    }
    return Execute(Join([NsenterCmd, "lvremove", "-v", "-f", vg + "/" + name], " "));
  }

  /**
   * `lvremove` runs iff the listing succeeds with exactly one unprotected
   * volume; a listing with no volume succeeds without removing anything.
   */
  lemma RemoveLVRuns(vg: string, name: string, listing: Result<seq<LV>>)
    ensures RemoveLVSpec(vg, name, listing).Execute? <==>
      listing.Ok? && |listing.value| == 1 && ProtectedTagName !in listing.value[0].tags
    ensures RemoveLVSpec(vg, name, listing).Skip? <==> listing.Ok? && listing.value == []
    ensures listing.Ok? && |listing.value| > 1 ==> RemoveLVSpec(vg, name, listing).Refuse?
  {
  }

  /** The first listed group with the given name. */
  function FindVG(vgs: seq<VG>, name: string): (r: Option<VG>)
    ensures r.Some? ==> r.value in vgs && r.value.name == name
    ensures r.None? <==> forall i :: 0 <= i < |vgs| ==> vgs[i].name != name
  {
    if vgs == [] then None else if vgs[0].name == name then Some(vgs[0]) else FindVG(vgs[1..], name)
  }

  function RemoveVGSpec(name: string, listing: Result<seq<VG>>): Decision {
    if listing.Err? then Refuse("failed to list VGs: " + listing.error)
    else
      var vg := FindVG(listing.value, name);
      if vg.None? then Refuse("could not find vg to delete")
      else if ProtectedTagName in vg.value.tags then Refuse("volume is protected")
      else Execute(Join([NsenterCmd, "vgremove", "-v", "-f", name], " "))
  }

  /** RemoveVG, given the `vgs` output. */
  method RemoveVG(name: string, vgsOut: Result<string>) returns (d: Decision)
    ensures d == RemoveVGSpec(name, ListVGSpec(vgsOut))
  {
    var vgs := ListVG(vgsOut);
    if vgs.Err? {
      return Refuse("failed to list VGs: " + vgs.error);
    }
    var vg: Option<VG> := None;
    for i := 0 to |vgs.value|
      invariant FindVG(vgs.value, name) == FindVG(vgs.value[i..], name)
    {
      assert vgs.value[i..][1..] == vgs.value[i + 1..];
      if vgs.value[i].name == name {
        vg := Some(vgs.value[i]);
        break;
      }
    }
    if vg.None? {
      assert vgs.value[|vgs.value|..] == [];
      return Refuse("could not find vg to delete");
    }
    var isProtected := HasProtectedTag(vg.value.tags);
    if isProtected {
      return Refuse("volume is protected");
    }
    return Execute(Join([NsenterCmd, "vgremove", "-v", "-f", name], " "));
  }

  /** `vgremove` runs iff the group is listed and its first listing is not protected. */
  lemma RemoveVGRuns(name: string, listing: Result<seq<VG>>)
    ensures RemoveVGSpec(name, listing).Execute? <==>
      listing.Ok? && exists i :: (0 <= i < |listing.value| && listing.value[i].name == name
        && (forall j :: 0 <= j < i ==> listing.value[j].name != name) && ProtectedTagName !in listing.value[i].tags)
  {
    if listing.Ok? {
      FindVGFirst(listing.value, name);
    }
  }

  lemma {:induction false} FindVGFirst(vgs: seq<VG>, name: string)
    ensures FindVG(vgs, name).Some? ==>
      exists i :: 0 <= i < |vgs| && vgs[i] == FindVG(vgs, name).value && forall j :: 0 <= j < i ==> vgs[j].name != name
    ensures forall i :: (0 <= i < |vgs| && vgs[i].name == name && (forall j :: 0 <= j < i ==> vgs[j].name != name)
      ==> FindVG(vgs, name) == Some(vgs[i]))
    decreases |vgs|
  {
    if vgs != [] && vgs[0].name != name {
      FindVGFirst(vgs[1..], name);
      if FindVG(vgs, name).Some? {
        var i :| 0 <= i < |vgs[1..]| && vgs[1..][i] == FindVG(vgs, name).value
          && forall j :: 0 <= j < i ==> vgs[1..][j].name != name;
        assert vgs[i + 1] == vgs[1..][i];
      }
      forall i | 0 <= i < |vgs| && vgs[i].name == name && (forall j :: 0 <= j < i ==> vgs[j].name != name)
        ensures FindVG(vgs, name) == Some(vgs[i])
      {
        assert vgs[1..][i - 1] == vgs[i];
        assert forall j :: 0 <= j < i - 1 ==> vgs[1..][j] == vgs[j + 1];
      }
    }
  }

  /** The `lvchange` decision shared by AddTagLV and RemoveTagLV, which differ in the flag. */
  function TagLVSpec(vg: string, name: string, tags: seq<string>, flag: string, listing: Result<seq<LV>>): Decision {
    if listing.Err? then Refuse("failed to list LVs: " + listing.error)
    else if |listing.value| != 1 then Refuse("expected 1 LV, got " + Itoa(|listing.value|))
    else Execute(Join([NsenterCmd, "lvchange"] + TagArgs(tags, flag) + [vg + "/" + name], " "))
  }

  /** AddTagLV, given the `lvs vg/name` output. */
  method AddTagLV(vg: string, name: string, tags: seq<string>, lvsOut: Result<string>) returns (d: Decision)
    ensures d == TagLVSpec(vg, name, tags, "--addtag", ListLVSpec(lvsOut))
  {
    var lvs := ListLV(lvsOut);
    if lvs.Err? {
      return Refuse("failed to list LVs: " + lvs.error);
    }
    if |lvs.value| != 1 {
      return Refuse("expected 1 LV, got " + Itoa(|lvs.value|));
    }
    var args := AppendTagArgs([NsenterCmd, "lvchange"], tags, "--addtag");
    args := args + [vg + "/" + name];
    return Execute(Join(args, " "));
  }

  /** RemoveTagLV, given the `lvs vg/name` output. */
  method RemoveTagLV(vg: string, name: string, tags: seq<string>, lvsOut: Result<string>) returns (d: Decision)
    ensures d == TagLVSpec(vg, name, tags, "--deltag", ListLVSpec(lvsOut))
  {
    var lvs := ListLV(lvsOut);
    if lvs.Err? {
      return Refuse("failed to list LVs: " + lvs.error);
    }
    if |lvs.value| != 1 {
      return Refuse("expected 1 LV, got " + Itoa(|lvs.value|));
    }
    var args := AppendTagArgs([NsenterCmd, "lvchange"], tags, "--deltag");
    args := args + [vg + "/" + name];
    return Execute(Join(args, " "));
  }

  /** Tagging runs `lvchange` iff the listing holds exactly one volume; an empty listing is an error here. */
  lemma TagLVRuns(vg: string, name: string, tags: seq<string>, flag: string, listing: Result<seq<LV>>)
    ensures TagLVSpec(vg, name, tags, flag, listing).Execute? <==> listing.Ok? && |listing.value| == 1
    ensures listing == Ok([]) ==> TagLVSpec(vg, name, tags, flag, listing) == Refuse("expected 1 LV, got 0")
  {
  }
}
