/**
 * The records of pkg/model/type.go and the parser for the rows that `lvs`,
 * `vgs` and `pvs` print with `--nameprefixes --separator="<:SEP:>"`:
 * `KEY='value'` components joined by the separator.
 */
module Model {
  import opened Wrappers
  import opened GoStd

  /** The separator LVM is asked to put between the components of a row. */
  const Separator: string := "<:SEP:>"

  /** The attribute characters that `toProto` turns into flags. */
  const VolumeFixedMinorEnabled: char := 'm'
  const VolumeActivationSkippedIsSkipped: char := 's'

  // ---------------------------------------------------------------------------
  // Records

  /** One rule of the resource configuration file, after YAML decoding. */
  datatype Topology = Topology(
    topologyType: string,
    options: string,
    fstype: string,
    devices: seq<string>,
    volumes: seq<map<string, string>>,
    regions: seq<string>)

  datatype ResourceYaml = ResourceYaml(
    name: string,
    key: string,
    operator: string,
    value: string,
    topology: Topology)

  /** The fields of `ndctl list` output that the agent reads. */
  datatype PmemNamespace = PmemNamespace(dev: string, mode: string, blockDev: string, charDev: string)

  datatype PmemRegion = PmemRegion(dev: string, namespaces: seq<PmemNamespace>)

  /** The fields of `daxctl list` output that the agent reads. */
  datatype DaxctrlMem = DaxctrlMem(chardev: string, mode: string)

  /** The ten characters of `lv_attr`, one field per position. */
  datatype LVAttributes = LVAttributes(
    volumeType: char,
    permissions: char,
    allocation: char,
    fixedMinor: char,
    state: char,
    open: char,
    targetType: char,
    zeroing: char,
    health: char,
    activationSkipped: char)

  datatype LV = LV(
    name: string,
    size: nat,
    uuid: string,
    attributes: LVAttributes,
    copyPercent: string,
    actualDevMajNumber: nat,
    actualDevMinNumber: nat,
    tags: seq<string>)

  datatype VG = VG(name: string, size: nat, freeSize: nat, uuid: string, tags: seq<string>)

  datatype PV = PV(name: string, vgName: string, size: nat, uuid: string)

  // ---------------------------------------------------------------------------
  // Attribute flags

  /** VolumeFixedMinor.toProto. */
  function FixedMinorToProto(c: char): (b: bool)
    ensures b <==> c == VolumeFixedMinorEnabled
  {
    c == VolumeFixedMinorEnabled
  }

  /** VolumeActivationSkipped.toProto. */
  function ActivationSkippedToProto(c: char): (b: bool)
    ensures b <==> c == VolumeActivationSkippedIsSkipped
  {
    c == VolumeActivationSkippedIsSkipped
  }

  // ---------------------------------------------------------------------------
  // Components

  /** The text of a component `key='value'`. */
  function Component(key: string, value: string): string {
    key + "='" + value + "'"
  }

  function ArityError(expected: nat, got: nat): string {
    "expected " + Itoa(expected) + " components, got " + Itoa(got)
  }

  function ComponentError(c: string): string {
    "failed to parse component '" + c + "'"
  }

  /**
   * One component: the key is the text before the first `=`, the value the
   * rest, which must be at least two characters long and wrapped in single
   * quotes; the quotes are stripped.
   */
  function ParseComponent(c: string): (r: Result<(string, string)>)
    ensures r.Ok? ==> '=' !in r.value.0 && c == Component(r.value.0, r.value.1)
    ensures r.Err? ==> r.error == ComponentError(c)
  {
    var idx := Index(c, "=");
    if idx == -1 then Err(ComponentError(c))
    else
      var value := c[idx + 1..];
      if |value| < 2 || value[0] != '\'' || value[|value| - 1] != '\'' then Err(ComponentError(c))
      else
        IndexChar(c, '=');
        ComponentSplit(c, idx);
        Ok((c[..idx], value[1..|value| - 1]))
  }

  /** A string with `=` at `idx`, followed by a quoted value, is the component of its two halves. */
  lemma ComponentSplit(c: string, idx: nat)
    requires idx < |c| && c[idx] == '='
    requires var value := c[idx + 1..]; |value| >= 2 && value[0] == '\'' && value[|value| - 1] == '\''
    ensures var value := c[idx + 1..]; c == Component(c[..idx], value[1..|value| - 1])
  {
    var key, value := c[..idx], c[idx + 1..];
    var inner := value[1..|value| - 1];
    assert value == "'" + inner + "'";
    assert c == key + "=" + value;
    assert key + "=" + value == key + "='" + inner + "'";
  }

  /** Every key without `=` and every value round-trip through a component. */
  lemma ParseComponentOfComponent(key: string, value: string)
    requires '=' !in key
    ensures ParseComponent(Component(key, value)) == Ok((key, value))
  {
    var c := Component(key, value);
    IndexPastPrefix(key, "=", "'" + value + "'");
    assert c == key + "=" + ("'" + value + "'");
    var quoted := "'" + value + "'";
    assert c[|key| + 1..] == quoted;
    assert c[..|key|] == key;
    assert quoted[1..|quoted| - 1] == value;
  }

  /** The key of a well-formed component, "" otherwise. */
  function KeyOf(c: string): string {
    if ParseComponent(c).Ok? then ParseComponent(c).value.0 else ""
  }

  /** The value of a well-formed component, "" otherwise. */
  function ValueOf(c: string): string {
    if ParseComponent(c).Ok? then ParseComponent(c).value.1 else ""
  }

  // ---------------------------------------------------------------------------
  // Rows

  /** The component loop of `parse`, continuing from the map built so far. */
  function FieldsLoop(comps: seq<string>, fields: map<string, string>): Result<map<string, string>>
    decreases |comps|
  {
    if comps == [] then Ok(fields)
    else
      var c := ParseComponent(comps[0]);
      if c.Err? then Err(c.error) else FieldsLoop(comps[1..], fields[c.value.0 := c.value.1])
  }

  /** `parse(line, n)`: split on the separator, check the count, then read the components. */
  function ParseFields(line: string, n: nat): Result<map<string, string>> {
    var comps := Split(line, Separator);
    if |comps| != n then Err(ArityError(n, |comps|)) else FieldsLoop(comps, map[])
  }

  /** `parse`, with its loop filling the map in place. */
  method Parse(line: string, n: nat) returns (r: Result<map<string, string>>)
    ensures r == ParseFields(line, n)
  {
    var components := Split(line, Separator);
    if |components| != n {
      return Err(ArityError(n, |components|));
    }
    var fields: map<string, string> := map[];
    for i := 0 to |components|
      invariant FieldsLoop(components, map[]) == FieldsLoop(components[i..], fields)
    {
      assert components[i..][1..] == components[i + 1..];
      FieldsLoopStep(components[i..], fields);
      var kv := ParseOne(components[i]);
      if kv.Err? {
        return Err(kv.error);
      }
      fields := fields[kv.value.0 := kv.value.1];
    }
    assert components[|components|..] == [];
    return Ok(fields);
  }

  /** The body of `parse`'s loop: one component into its key and unquoted value. */
  method ParseOne(c: string) returns (r: Result<(string, string)>)
    ensures r == ParseComponent(c)
  {
    var idx := Index(c, "=");
    if idx == -1 {
      return Err(ComponentError(c));
    }
    var key := c[..idx];
    var value := c[idx + 1..];
    if |value| < 2 {
      return Err(ComponentError(c));
    }
    if value[0] != '\'' || value[|value| - 1] != '\'' {
      return Err(ComponentError(c));
    }
    value := value[1..|value| - 1];
    return Ok((key, value));
  }

  lemma FieldsLoopStep(comps: seq<string>, fields: map<string, string>)
    requires comps != []
    ensures FieldsLoop(comps, fields)
            == var c := ParseComponent(comps[0]);
               if c.Err? then Err(c.error) else FieldsLoop(comps[1..], fields[c.value.0 := c.value.1])
  {
  }

  /** The component loop succeeds exactly when every component is well formed. */
  lemma {:induction false} FieldsLoopOk(comps: seq<string>, acc: map<string, string>)
    ensures FieldsLoop(comps, acc).Ok? <==> forall j :: 0 <= j < |comps| ==> ParseComponent(comps[j]).Ok?
    decreases |comps|
  {
    if comps != [] {
      FieldsLoopOk(comps[1..], acc[KeyOf(comps[0]) := ValueOf(comps[0])]);
      assert forall j :: 1 <= j < |comps| ==> comps[j] == comps[1..][j - 1];
    }
  }

  /** On failure the error is the first malformed component's. */
  lemma {:induction false} FieldsLoopFirstError(comps: seq<string>, acc: map<string, string>, j: nat)
    requires j < |comps| && ParseComponent(comps[j]).Err?
    requires forall l :: 0 <= l < j ==> ParseComponent(comps[l]).Ok?
    ensures FieldsLoop(comps, acc) == Err(ComponentError(comps[j]))
    decreases |comps|
  {
    if j > 0 {
      assert comps[1..][j - 1] == comps[j];
      assert forall l :: 0 <= l < j - 1 ==> comps[1..][l] == comps[l + 1];
      FieldsLoopFirstError(comps[1..], acc[KeyOf(comps[0]) := ValueOf(comps[0])], j - 1);
    }
  }

  /** The keys of the result: those already there and the key of every component. */
  lemma {:induction false} FieldsLoopKeys(comps: seq<string>, acc: map<string, string>)
    requires FieldsLoop(comps, acc).Ok?
    ensures FieldsLoop(comps, acc).value.Keys == acc.Keys + set j | 0 <= j < |comps| :: KeyOf(comps[j])
    decreases |comps|
  {
    if comps != [] {
      var acc' := acc[KeyOf(comps[0]) := ValueOf(comps[0])];
      FieldsLoopStep(comps, acc);
      assert FieldsLoop(comps, acc) == FieldsLoop(comps[1..], acc');
      FieldsLoopKeys(comps[1..], acc');
      KeysOfCons(comps);
      var first, rest := FieldsLoop(comps, acc).value.Keys, set j | 0 <= j < |comps[1..]| :: KeyOf(comps[1..][j]);
      assert first == acc'.Keys + rest;
      assert acc'.Keys == acc.Keys + {KeyOf(comps[0])};
    }
  }

  /** The keys of a list of components are the first one's and the rest's. */
  lemma KeysOfCons(comps: seq<string>)
    requires comps != []
    ensures (set j | 0 <= j < |comps| :: KeyOf(comps[j]))
            == {KeyOf(comps[0])} + set j | 0 <= j < |comps[1..]| :: KeyOf(comps[1..][j])
  {
    var later := set j | 0 <= j < |comps[1..]| :: KeyOf(comps[1..][j]);
    var all := set j | 0 <= j < |comps| :: KeyOf(comps[j]);
    forall k | k in all ensures k in {KeyOf(comps[0])} + later {
      var j :| 0 <= j < |comps| && KeyOf(comps[j]) == k;
      if j > 0 {
        assert comps[1..][j - 1] == comps[j];
      }
    }
    forall k | k in later ensures k in all {
      var j :| 0 <= j < |comps[1..]| && KeyOf(comps[1..][j]) == k;
      assert comps[j + 1] == comps[1..][j];
    }
  }

  /** A later component overrides an earlier one with the same key: the last one wins. */
  lemma {:induction false} FieldsLoopLastWins(comps: seq<string>, acc: map<string, string>, j: nat)
    requires FieldsLoop(comps, acc).Ok?
    requires j < |comps|
    requires forall l :: j < l < |comps| ==> KeyOf(comps[l]) != KeyOf(comps[j])
    ensures KeyOf(comps[j]) in FieldsLoop(comps, acc).value
    ensures FieldsLoop(comps, acc).value[KeyOf(comps[j])] == ValueOf(comps[j])
    decreases |comps|
  {
    var acc' := acc[KeyOf(comps[0]) := ValueOf(comps[0])];
    if j == 0 {
      FieldsLoopUntouched(comps[1..], acc', KeyOf(comps[0]));
    } else {
      assert comps[1..][j - 1] == comps[j];
      assert forall l :: j - 1 < l < |comps[1..]| ==> comps[1..][l] == comps[l + 1];
      FieldsLoopLastWins(comps[1..], acc', j - 1);
    }
  }

  /** A key that no component mentions keeps the value it had. */
  lemma {:induction false} FieldsLoopUntouched(comps: seq<string>, acc: map<string, string>, k: string)
    requires FieldsLoop(comps, acc).Ok?
    requires k in acc
    requires forall l :: 0 <= l < |comps| ==> KeyOf(comps[l]) != k
    ensures k in FieldsLoop(comps, acc).value && FieldsLoop(comps, acc).value[k] == acc[k]
    decreases |comps|
  {
    if comps != [] {
      assert forall l :: 0 <= l < |comps[1..]| ==> comps[1..][l] == comps[l + 1];
      FieldsLoopUntouched(comps[1..], acc[KeyOf(comps[0]) := ValueOf(comps[0])], k);
    }
  }

  /** `parse` rejects a row whose component count is not the expected one. */
  lemma ParseFieldsArity(line: string, n: nat)
    requires |Split(line, Separator)| != n
    ensures ParseFields(line, n) == Err(ArityError(n, |Split(line, Separator)|))
  {
  }

  /**
   * `parse` succeeds exactly when the count matches and every component is
   * well formed; then every key is present with its last value.
   */
  lemma ParseFieldsOk(line: string, n: nat)
    ensures ParseFields(line, n).Ok? <==>
      |Split(line, Separator)| == n && forall j :: 0 <= j < n ==> ParseComponent(Split(line, Separator)[j]).Ok?
    ensures ParseFields(line, n).Ok? ==>
      ParseFields(line, n).value.Keys == set j | 0 <= j < n :: KeyOf(Split(line, Separator)[j])
  {
    var comps := Split(line, Separator);
    FieldsLoopOk(comps, map[]);
    if ParseFields(line, n).Ok? {
      FieldsLoopKeys(comps, map[]);
    }
  }

  // ---------------------------------------------------------------------------
  // Attributes

  function AttrsError(attrs: string): string {
    "incorrect attrs block size, expected 10, got " + Itoa(|attrs|) + " in " + attrs
  }

  /** parseAttrs: a block of exactly ten characters, field i being character i. */
  function ParseAttrs(attrs: string): (r: Result<LVAttributes>)
    ensures r.Ok? <==> |attrs| == 10
    ensures r.Err? ==> r.error == AttrsError(attrs)
  {
    if |attrs| != 10 then Err(AttrsError(attrs))
    else Ok(LVAttributes(attrs[0], attrs[1], attrs[2], attrs[3], attrs[4],
                         attrs[5], attrs[6], attrs[7], attrs[8], attrs[9]))
  }

  /** The ten attribute characters in order. */
  function AttrsString(a: LVAttributes): (s: string)
    ensures |s| == 10
  {
    [a.volumeType, a.permissions, a.allocation, a.fixedMinor, a.state,
     a.open, a.targetType, a.zeroing, a.health, a.activationSkipped]
  }

  /** Reassembling the parsed fields in order gives back the block. */
  lemma AttrsStringOfParse(attrs: string)
    requires |attrs| == 10
    ensures AttrsString(ParseAttrs(attrs).value) == attrs
  {
  }

  lemma ParseAttrsOfString(a: LVAttributes)
    ensures ParseAttrs(AttrsString(a)) == Ok(a)
  {
  }

  /** The two flags read positions 3 and 9 of the block. */
  lemma AttrsFlags(attrs: string)
    requires |attrs| == 10
    ensures FixedMinorToProto(ParseAttrs(attrs).value.fixedMinor) <==> attrs[3] == 'm'
    ensures ActivationSkippedToProto(ParseAttrs(attrs).value.activationSkipped) <==> attrs[9] == 's'
  {
  }

  // ---------------------------------------------------------------------------
  // ParseLV, ParseVG, ParsePV

  /** A Go map read: a missing key reads as "". */
  function Field(fields: map<string, string>, key: string): string {
    if key in fields then fields[key] else ""
  }

  /** ParseLV: eight components, a 64-bit size, 32-bit kernel numbers and a ten-character attribute block. */
  function ParseLV(line: string): (r: Result<LV>)
    ensures r.Ok? <==>
      var f := ParseFields(line, 8);
      f.Ok? && ParseUint(Field(f.value, "LVM2_LV_SIZE"), 64).Ok?
      && ParseUint(Field(f.value, "LVM2_LV_KERNEL_MAJOR"), 32).Ok?
      && ParseUint(Field(f.value, "LVM2_LV_KERNEL_MINOR"), 32).Ok?
      && |Field(f.value, "LVM2_LV_ATTR")| == 10
    ensures r.Ok? ==>
      var f := ParseFields(line, 8).value;
      r.value.name == Field(f, "LVM2_LV_NAME") && r.value.uuid == Field(f, "LVM2_LV_UUID")
      && r.value.size == ParseUint(Field(f, "LVM2_LV_SIZE"), 64).value
      && r.value.actualDevMajNumber == ParseUint(Field(f, "LVM2_LV_KERNEL_MAJOR"), 32).value
      && r.value.actualDevMinNumber == ParseUint(Field(f, "LVM2_LV_KERNEL_MINOR"), 32).value
      && r.value.copyPercent == Field(f, "LVM2_COPY_PERCENT")
      && AttrsString(r.value.attributes) == Field(f, "LVM2_LV_ATTR")
      && r.value.tags == Split(Field(f, "LVM2_LV_TAGS"), ",")
  {
    var f := ParseFields(line, 8);
    if f.Err? then Err(f.error)
    else
      var fields := f.value;
      var size := ParseUint(Field(fields, "LVM2_LV_SIZE"), 64);
      if size.Err? then Err(size.error)
      else
        var major := ParseUint(Field(fields, "LVM2_LV_KERNEL_MAJOR"), 32);
        if major.Err? then Err(major.error)
        else
          var minor := ParseUint(Field(fields, "LVM2_LV_KERNEL_MINOR"), 32);
          if minor.Err? then Err(minor.error)
          else
            var attrs := ParseAttrs(Field(fields, "LVM2_LV_ATTR"));
            if attrs.Err? then Err(attrs.error)
            else Ok(LV(Field(fields, "LVM2_LV_NAME"), size.value, Field(fields, "LVM2_LV_UUID"),
                       attrs.value, Field(fields, "LVM2_COPY_PERCENT"), major.value, minor.value,
                       Split(Field(fields, "LVM2_LV_TAGS"), ",")))
  }

  /** ParseVG: five components and two 64-bit sizes. */
  function ParseVG(line: string): (r: Result<VG>)
    ensures r.Ok? <==>
      var f := ParseFields(line, 5);
      f.Ok? && ParseUint(Field(f.value, "LVM2_VG_SIZE"), 64).Ok? && ParseUint(Field(f.value, "LVM2_VG_FREE"), 64).Ok?
    ensures r.Ok? ==>
      var f := ParseFields(line, 5).value;
      r.value.name == Field(f, "LVM2_VG_NAME") && r.value.uuid == Field(f, "LVM2_VG_UUID")
      && r.value.size == ParseUint(Field(f, "LVM2_VG_SIZE"), 64).value
      && r.value.freeSize == ParseUint(Field(f, "LVM2_VG_FREE"), 64).value
      && r.value.tags == Split(Field(f, "LVM2_VG_TAGS"), ",")
  {
    var f := ParseFields(line, 5);
    if f.Err? then Err(f.error)
    else
      var fields := f.value;
      var size := ParseUint(Field(fields, "LVM2_VG_SIZE"), 64);
      if size.Err? then Err(size.error)
      else
        var free := ParseUint(Field(fields, "LVM2_VG_FREE"), 64);
        if free.Err? then Err(free.error)
        else Ok(VG(Field(fields, "LVM2_VG_NAME"), size.value, free.value, Field(fields, "LVM2_VG_UUID"),
                   Split(Field(fields, "LVM2_VG_TAGS"), ",")))
  }

  /** ParsePV: four components and a 64-bit size. */
  function ParsePV(line: string): (r: Result<PV>)
    ensures r.Ok? <==>
      var f := ParseFields(line, 4);
      f.Ok? && ParseUint(Field(f.value, "LVM2_PV_SIZE"), 64).Ok?
    ensures r.Ok? ==>
      var f := ParseFields(line, 4).value;
      r.value.name == Field(f, "LVM2_PV_NAME") && r.value.vgName == Field(f, "LVM2_VG_NAME")
      && r.value.uuid == Field(f, "LVM2_PV_UUID") && r.value.size == ParseUint(Field(f, "LVM2_PV_SIZE"), 64).value
  {
    var f := ParseFields(line, 4);
    if f.Err? then Err(f.error)
    else
      var fields := f.value;
      var size := ParseUint(Field(fields, "LVM2_PV_SIZE"), 64);
      if size.Err? then Err(size.error)
      else Ok(PV(Field(fields, "LVM2_PV_NAME"), Field(fields, "LVM2_VG_NAME"), size.value, Field(fields, "LVM2_PV_UUID")))
  }

  /** A row made of two separator-free pieces has two components. */
  lemma SplitTwo(p: string, q: string)
    requires '<' !in p && '<' !in q
    ensures Split(p + Separator + q, Separator) == [p, q]
  {
    SplitJoin([p, q], Separator);
    assert [p, q][1..] == [q];
  }

  /** A row with a component count other than eight is not a logical volume. */
  lemma ParseLVArity(line: string)
    requires |Split(line, Separator)| != 8
    ensures ParseLV(line) == Err(ArityError(8, |Split(line, Separator)|))
  {
  }

  /**
   * A line that holds the separator exactly once has two components, so it
   * is rejected as "expected 8 components, got 2"; the parser's test feeds it
   * the `vgs` command line itself, which is such a line.
   */
  lemma ParseLVOfTwoPieces(p: string, q: string)
    requires '<' !in p && '<' !in q
    ensures ParseLV(p + Separator + q) == Err("expected 8 components, got 2")
  {
    var line := p + Separator + q;
    SplitTwo(p, q);
    assert |Split(line, Separator)| == 2;
    ParseLVArity(line);
    ArityEightTwo();
  }

  lemma ArityEightTwo()
    ensures ArityError(8, 2) == "expected 8 components, got 2"
  {
    assert Itoa(8) == "8";
    assert Itoa(2) == "2";
    var m := "expected " + "8" + " components, got " + "2";
    assert m == "expected 8 components, got 2";
  }

  // ---------------------------------------------------------------------------
  // Round trips: the rows LVM prints parse back into the records they describe

  /** The components of a row, in order. */
  function Components(pairs: seq<(string, string)>): (cs: seq<string>)
    ensures |cs| == |pairs|
    ensures forall i :: 0 <= i < |pairs| ==> cs[i] == Component(pairs[i].0, pairs[i].1)
  {
    if pairs == [] then [] else [Component(pairs[0].0, pairs[0].1)] + Components(pairs[1..])
  }

  /** The map that assigning the pairs in order produces. */
  function Assign(acc: map<string, string>, pairs: seq<(string, string)>): map<string, string>
    decreases |pairs|
  {
    if pairs == [] then acc else Assign(acc[pairs[0].0 := pairs[0].1], pairs[1..])
  }

  /** A row as `lvs`, `vgs` or `pvs` prints it. */
  function Row(pairs: seq<(string, string)>): string {
    Join(Components(pairs), Separator)
  }

  /** Keys without `=`, and no `<` anywhere, so that the separator cannot be confused with the text. */
  predicate PrintablePairs(pairs: seq<(string, string)>) {
    forall i :: 0 <= i < |pairs| ==> '=' !in pairs[i].0 && '<' !in pairs[i].0 && '<' !in pairs[i].1
  }

  lemma {:induction false} FieldsLoopComponents(pairs: seq<(string, string)>, acc: map<string, string>)
    requires PrintablePairs(pairs)
    ensures FieldsLoop(Components(pairs), acc) == Ok(Assign(acc, pairs))
    decreases |pairs|
  {
    if pairs != [] {
      ParseComponentOfComponent(pairs[0].0, pairs[0].1);
      assert Components(pairs)[1..] == Components(pairs[1..]);
      assert forall i :: 0 <= i < |pairs[1..]| ==> pairs[1..][i] == pairs[i + 1];
      FieldsLoopComponents(pairs[1..], acc[pairs[0].0 := pairs[0].1]);
    }
  }

  /** Parsing a printed row gives back its key/value assignments. */
  lemma ParseFieldsOfRow(pairs: seq<(string, string)>)
    requires pairs != [] && PrintablePairs(pairs)
    ensures ParseFields(Row(pairs), |pairs|) == Ok(Assign(map[], pairs))
  {
    var cs := Components(pairs);
    forall k | 0 <= k < |cs| ensures Separator[0] !in cs[k] {
      assert cs[k] == pairs[k].0 + "='" + pairs[k].1 + "'";
    }
    SplitJoin(cs, Separator);
    FieldsLoopComponents(pairs, map[]);
  }

  lemma DigitsPrintable(n: nat)
    ensures '<' !in Itoa(n) && '=' !in Itoa(n) && ',' !in Itoa(n)
  {
    var s := Itoa(n);
    assert forall i :: 0 <= i < |s| ==> IsDigit(s[i]);
  }

  /** The tag list printed as LVM does, comma-separated. */
  function TagsField(tags: seq<string>): string {
    Join(tags, ",")
  }

  predicate PrintableTags(tags: seq<string>) {
    tags != [] && forall i :: 0 <= i < |tags| ==> ',' !in tags[i] && '<' !in tags[i]
  }

  lemma TagsRoundTrip(tags: seq<string>)
    requires PrintableTags(tags)
    ensures Split(TagsField(tags), ",") == tags
    ensures '<' !in TagsField(tags)
  {
    SplitJoin(tags, ",");
    JoinAvoids(tags, ",", '<');
  }

  lemma {:induction false} JoinAvoids(parts: seq<string>, sep: string, ch: char)
    requires ch !in sep
    requires forall i :: 0 <= i < |parts| ==> ch !in parts[i]
    ensures ch !in Join(parts, sep)
    decreases |parts|
  {
    if |parts| > 1 {
      assert forall i :: 0 <= i < |parts[1..]| ==> parts[1..][i] == parts[i + 1];
      JoinAvoids(parts[1..], sep, ch);
    }
  }

  /** After the assignments, a key holds the value of the last pair that names it. */
  lemma {:induction false} AssignLookup(acc: map<string, string>, pairs: seq<(string, string)>, i: nat)
    requires i < |pairs|
    requires forall l :: i < l < |pairs| ==> pairs[l].0 != pairs[i].0
    ensures pairs[i].0 in Assign(acc, pairs) && Assign(acc, pairs)[pairs[i].0] == pairs[i].1
    decreases |pairs|
  {
    if i == 0 {
      AssignUntouched(acc[pairs[0].0 := pairs[0].1], pairs[1..], pairs[0].0);
    } else {
      assert forall l :: i - 1 < l < |pairs[1..]| ==> pairs[1..][l] == pairs[l + 1];
      AssignLookup(acc[pairs[0].0 := pairs[0].1], pairs[1..], i - 1);
    }
  }

  lemma {:induction false} AssignUntouched(acc: map<string, string>, pairs: seq<(string, string)>, k: string)
    requires k in acc
    requires forall l :: 0 <= l < |pairs| ==> pairs[l].0 != k
    ensures k in Assign(acc, pairs) && Assign(acc, pairs)[k] == acc[k]
    decreases |pairs|
  {
    if pairs != [] {
      assert forall l :: 0 <= l < |pairs[1..]| ==> pairs[1..][l] == pairs[l + 1];
      AssignUntouched(acc[pairs[0].0 := pairs[0].1], pairs[1..], k);
    }
  }

  /** Distinct keys: every key reads back as its own value. */
  predicate DistinctKeys(pairs: seq<(string, string)>) {
    forall i, j :: 0 <= i < j < |pairs| ==> pairs[i].0 != pairs[j].0
  }

  lemma AssignDistinct(pairs: seq<(string, string)>, i: nat)
    requires DistinctKeys(pairs) && i < |pairs|
    ensures Field(Assign(map[], pairs), pairs[i].0) == pairs[i].1
  {
    AssignLookup(map[], pairs, i);
  }

  /** The `pvs -o vg_name,pv_name,pv_size,pv_uuid --nameprefixes` row of a physical volume. */
  function PVPairs(pv: PV): seq<(string, string)> {
    [("LVM2_VG_NAME", pv.vgName), ("LVM2_PV_NAME", pv.name),
     ("LVM2_PV_SIZE", Itoa(pv.size)), ("LVM2_PV_UUID", pv.uuid)]
  }

  function PVRow(pv: PV): string {
    Row(PVPairs(pv))
  }

  /** ParsePV reads back every physical volume whose fields print unambiguously. */
  lemma ParsePVOfRow(pv: PV)
    requires '<' !in pv.name && '<' !in pv.vgName && '<' !in pv.uuid
    requires pv.size < UintBound(64)
    ensures ParsePV(PVRow(pv)) == Ok(pv)
  {
    var pairs := PVPairs(pv);
    DigitsPrintable(pv.size);
    assert PrintablePairs(pairs) && DistinctKeys(pairs);
    ParseFieldsOfRow(pairs);
    var m := Assign(map[], pairs);
    AssignDistinct(pairs, 0);
    AssignDistinct(pairs, 1);
    AssignDistinct(pairs, 2);
    AssignDistinct(pairs, 3);
    ParseUintItoa(pv.size, 64);
  }

  /** The `vgs -o vg_name,vg_size,vg_free,vg_uuid,vg_tags --nameprefixes` row of a volume group. */
  function VGPairs(vg: VG): seq<(string, string)> {
    [("LVM2_VG_NAME", vg.name), ("LVM2_VG_SIZE", Itoa(vg.size)), ("LVM2_VG_FREE", Itoa(vg.freeSize)),
     ("LVM2_VG_UUID", vg.uuid), ("LVM2_VG_TAGS", TagsField(vg.tags))]
  }

  lemma VGKeysDistinct(vg: VG)
    ensures DistinctKeys(VGPairs(vg))
  {
  }

  function VGRow(vg: VG): string {
    Row(VGPairs(vg))
  }

  /** ParseVG reads back every volume group whose fields print unambiguously. */
  lemma ParseVGOfRow(vg: VG)
    requires '<' !in vg.name && '<' !in vg.uuid && PrintableTags(vg.tags)
    requires vg.size < UintBound(64) && vg.freeSize < UintBound(64)
    ensures ParseVG(VGRow(vg)) == Ok(vg)
  {
    var pairs := VGPairs(vg);
    DigitsPrintable(vg.size);
    DigitsPrintable(vg.freeSize);
    TagsRoundTrip(vg.tags);
    assert PrintablePairs(pairs);
    VGKeysDistinct(vg);
    ParseFieldsOfRow(pairs);
    AssignDistinct(pairs, 0);
    AssignDistinct(pairs, 1);
    AssignDistinct(pairs, 2);
    AssignDistinct(pairs, 3);
    AssignDistinct(pairs, 4);
    ParseUintItoa(vg.size, 64);
    ParseUintItoa(vg.freeSize, 64);
  }

  /**
   * The `lvs -o lv_name,lv_size,lv_uuid,lv_attr,copy_percent,lv_kernel_major,
   * lv_kernel_minor,lv_tags --nameprefixes` row of a logical volume.
   */
  function LVPairs(lv: LV): seq<(string, string)> {
    [("LVM2_LV_NAME", lv.name), ("LVM2_LV_SIZE", Itoa(lv.size)), ("LVM2_LV_UUID", lv.uuid),
     ("LVM2_LV_ATTR", AttrsString(lv.attributes)), ("LVM2_COPY_PERCENT", lv.copyPercent),
     ("LVM2_LV_KERNEL_MAJOR", Itoa(lv.actualDevMajNumber)), ("LVM2_LV_KERNEL_MINOR", Itoa(lv.actualDevMinNumber)),
     ("LVM2_LV_TAGS", TagsField(lv.tags))]
  }

  function LVRow(lv: LV): string {
    Row(LVPairs(lv))
  }

  lemma LVPairsPrintable(lv: LV)
    requires '<' !in lv.name && '<' !in lv.uuid && '<' !in lv.copyPercent && '<' !in AttrsString(lv.attributes)
    requires PrintableTags(lv.tags)
    ensures PrintablePairs(LVPairs(lv)) && DistinctKeys(LVPairs(lv))
  {
    DigitsPrintable(lv.size);
    DigitsPrintable(lv.actualDevMajNumber);
    DigitsPrintable(lv.actualDevMinNumber);
    TagsRoundTrip(lv.tags);
    LVKeysDistinct(lv);
  }

  lemma LVKeysDistinct(lv: LV)
    ensures DistinctKeys(LVPairs(lv))
  {
  }

  /** The fields that `parse` reads from the row of a logical volume. */
  lemma LVRowFields(lv: LV)
    requires PrintablePairs(LVPairs(lv)) && DistinctKeys(LVPairs(lv))
    ensures ParseFields(LVRow(lv), 8).Ok?
    ensures var f := ParseFields(LVRow(lv), 8).value;
      Field(f, "LVM2_LV_NAME") == lv.name && Field(f, "LVM2_LV_SIZE") == Itoa(lv.size)
      && Field(f, "LVM2_LV_UUID") == lv.uuid && Field(f, "LVM2_LV_ATTR") == AttrsString(lv.attributes)
      && Field(f, "LVM2_COPY_PERCENT") == lv.copyPercent
      && Field(f, "LVM2_LV_KERNEL_MAJOR") == Itoa(lv.actualDevMajNumber)
      && Field(f, "LVM2_LV_KERNEL_MINOR") == Itoa(lv.actualDevMinNumber)
      && Field(f, "LVM2_LV_TAGS") == TagsField(lv.tags)
  {
    var pairs := LVPairs(lv);
    ParseFieldsOfRow(pairs);
    AssignDistinct(pairs, 0);
    AssignDistinct(pairs, 1);
    AssignDistinct(pairs, 2);
    AssignDistinct(pairs, 3);
    AssignDistinct(pairs, 4);
    AssignDistinct(pairs, 5);
    AssignDistinct(pairs, 6);
    AssignDistinct(pairs, 7);
  }

  /** ParseLV reads back every logical volume whose fields print unambiguously. */
  lemma ParseLVOfRow(lv: LV)
    requires '<' !in lv.name && '<' !in lv.uuid && '<' !in lv.copyPercent && '<' !in AttrsString(lv.attributes)
    requires PrintableTags(lv.tags)
    requires lv.size < UintBound(64) && lv.actualDevMajNumber < UintBound(32) && lv.actualDevMinNumber < UintBound(32)
    ensures ParseLV(LVRow(lv)) == Ok(lv)
  {
    LVPairsPrintable(lv);
    LVRowFields(lv);
    TagsRoundTrip(lv.tags);
    ParseUintItoa(lv.size, 64);
    ParseUintItoa(lv.actualDevMajNumber, 32);
    ParseUintItoa(lv.actualDevMinNumber, 32);
    ParseAttrsOfString(lv.attributes);
  }
}
