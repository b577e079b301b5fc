/**
 * The pure helpers of pkg/manager/volumegroup/utils.go: comparing two
 * device lists, removing PKCS#5 padding, and reading `pvscan` output.
 */
module VgUtils {
  import opened Wrappers
  import opened GoStd
  import opened Lvm

  // ---------------------------------------------------------------------------
  // diffDevice

  /** The lists differ in length, or some device of the first is missing from the second. */
  predicate DevicesDiffer(list1: seq<string>, list2: seq<string>) {
    |list1| != |list2| || exists i :: 0 <= i < |list1| && list1[i] !in list2
  }

  /** diffDevice. */
  method DiffDevice(list1: seq<string>, list2: seq<string>) returns (differ: bool)
    ensures differ == DevicesDiffer(list1, list2)
  {
    if |list1| != |list2| {
      return true;
    }
    for i := 0 to |list1|
      invariant forall k :: 0 <= k < i ==> list1[k] in list2
    {
      var searched := false;
      for j := 0 to |list2|
        invariant searched <==> list1[i] in list2[..j]
      {
        assert list2[..j + 1] == list2[..j] + [list2[j]];
        if list1[i] == list2[j] {
          searched := true;
          break;
        }
      }
      assert list2[..|list2|] == list2;
      if !searched {
        return true;
      }
    }
    return false;
  }

  /** A list never differs from itself. */
  lemma DevicesDifferSelf(list: seq<string>)
    ensures !DevicesDiffer(list, list)
  {
  }

  /**
   * Only membership is compared, not multiplicity: [a, a] does not differ from
   * [a, b], although [a, b] differs from [a, a].
   */
  lemma DevicesDifferAsymmetric(a: string, b: string)
    requires a != b
    ensures !DevicesDiffer([a, a], [a, b])
    ensures DevicesDiffer([a, b], [a, a])
  {
    assert [a, b][1] !in [a, a];
  }

  // ---------------------------------------------------------------------------
  // PKCS5UnPadding

  type byte = bv8

  /**
   * PKCS5UnPadding: drops as many trailing bytes as the last byte says. The
   * Go code panics on an empty input or on a count beyond the length; that
   * is `None` here.
   */
  function UnPad(data: seq<byte>): (r: Option<seq<byte>>)
    ensures r.Some? <==> |data| > 0 && data[|data| - 1] as int <= |data|
    ensures r.Some? ==> r.value == data[..|data| - data[|data| - 1] as int]
  {
    if |data| == 0 || data[|data| - 1] as int > |data| then None
    else Some(data[..|data| - data[|data| - 1] as int])
  }

  /** PKCS#5 padding to `n` bytes: `n` copies of the byte `n`. */
  function Pad(data: seq<byte>, n: nat): (r: seq<byte>)
    requires 1 <= n <= 255
    ensures |r| == |data| + n && r[..|data|] == data
    ensures forall i :: |data| <= i < |r| ==> r[i] == n as byte
  {
    data + seq(n, _ => n as byte)
  }

  /** Removing the padding undoes adding it. */
  lemma UnPadPad(data: seq<byte>, n: nat)
    requires 1 <= n <= 255
    ensures UnPad(Pad(data, n)) == Some(data)
  {
    var p := Pad(data, n);
    assert p[|p| - 1] == n as byte;
    assert (n as byte) as int == n;
  }

  // ---------------------------------------------------------------------------
  // ListDevice

  /** A trimmed `pvscan` line that names a device. */
  predicate DeviceLine(line: string) {
    line != "" && !HasPrefix(line, "WARNING")
  }

  /** The trimmed lines that name a device, in order. */
  function DeviceLines(lines: seq<string>): seq<string> {
    Kept(lines, TrimSpace, DeviceLine)
  }

  /** Every line kept is accepted and is one of the lines, trimmed. */
  lemma {:induction false} KeptShape(lines: seq<string>, trim: string -> string, keep: string -> bool)
    ensures forall d :: d in Kept(lines, trim, keep) ==> keep(d) && exists i :: 0 <= i < |lines| && d == trim(lines[i])
  {
    if lines != [] {
      KeptShape(lines[1..], trim, keep);
      forall d | d in Kept(lines[1..], trim, keep)
        ensures exists i :: 0 <= i < |lines| && d == trim(lines[i])
      {
        var i :| 0 <= i < |lines[1..]| && d == trim(lines[1..][i]);
        assert d == trim(lines[i + 1]);
      }
    }
  }

  /** Every device kept is a trimmed line that is neither blank nor a warning. */
  lemma DeviceLinesShape(lines: seq<string>)
    ensures |DeviceLines(lines)| <= |lines|
    ensures forall d :: d in DeviceLines(lines) ==> DeviceLine(d) && d == TrimSpace(d)
  {
    KeptShape(lines, TrimSpace, DeviceLine);
    forall d | d in DeviceLines(lines)
      ensures d == TrimSpace(d)
    {
      var i :| 0 <= i < |lines| && d == TrimSpace(lines[i]);
      TrimSpaceIdempotent(lines[i]);
    }
  }

  lemma TrimSpaceIdempotent(s: string)
    ensures TrimSpace(TrimSpace(s)) == TrimSpace(s)
  {
    var t := TrimSpace(s);
    if t != [] {
      TrimSpaceShape(s);
      TrimNothing(t);
    }
  }

  lemma TrimNothing(t: string)
    requires t != [] && !IsSpace(t[0]) && !IsSpace(t[|t| - 1])
    ensures TrimSpace(t) == t
  {
  }

  lemma KeptStep(devs: seq<string>, lines: seq<string>, i: nat, trim: string -> string, keep: string -> bool)
    requires i < |lines|
    ensures keep(trim(lines[i])) ==>
      devs + Kept(lines[i..], trim, keep) == (devs + [trim(lines[i])]) + Kept(lines[i + 1..], trim, keep)
    ensures !keep(trim(lines[i])) ==> devs + Kept(lines[i..], trim, keep) == devs + Kept(lines[i + 1..], trim, keep)
  {
    assert lines[i..][1..] == lines[i + 1..];
  }

  /** ListDevice, given the output of `pvscan | grep | awk`: nothing when the command fails. */
  method ListDevice(out: Result<string>) returns (devs: seq<string>)
    ensures out.Err? ==> devs == []
    ensures out.Ok? ==> devs == DeviceLines(Split(out.value, "\n"))
  {
    if out.Err? {
      return [];
    }
    devs := DeviceLoop(Split(out.value, "\n"));
  }

  /** ListDevice's loop over the lines of the output. */
  method DeviceLoop(lines: seq<string>) returns (devs: seq<string>)
    ensures devs == DeviceLines(lines)
  {
    devs := [];
    for i := 0 to |lines|
      invariant devs + Kept(lines[i..], TrimSpace, DeviceLine) == DeviceLines(lines)
    {
      var line := TrimSpace(lines[i]);
      KeptStep(devs, lines, i, TrimSpace, DeviceLine);
      if !DeviceLine(line) {
        continue;
      }
      devs := devs + [line];
    }
    assert lines[|lines|..] == [];
  }

  /** Every line that, trimmed, `keep` accepts is kept. */
  lemma {:induction false} KeptFilter(lines: seq<string>, i: nat, trim: string -> string, keep: string -> bool)
    requires i < |lines| && keep(trim(lines[i]))
    ensures trim(lines[i]) in Kept(lines, trim, keep)
  {
    if i > 0 {
      assert lines[1..][i - 1] == lines[i];
      KeptFilter(lines[1..], i - 1, trim, keep);
    }
  }

  /** The lines kept are those, trimmed, that are neither blank nor warnings. */
  lemma DeviceLinesFilter(lines: seq<string>, i: nat)
    requires i < |lines| && DeviceLine(TrimSpace(lines[i]))
    ensures TrimSpace(lines[i]) in DeviceLines(lines)
  {
    KeptFilter(lines, i, TrimSpace, DeviceLine);
  }
}
