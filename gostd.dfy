/**
 * The parts of Go's standard library that the agent's logic depends on, stated
 * over `string` (a sequence of characters): `strings.TrimSpace`, `strings.Index`,
 * `strings.Contains`, `strings.HasPrefix`, `strings.Split`, `strings.Join`,
 * `strconv.ParseUint` in base 10 with its error text and `strconv.Quote`, `%d` formatting, `%v` of a string slice and
 * `filepath.Join("/dev", name)`.
 */
module GoStd {
  import opened Wrappers

  // ---------------------------------------------------------------------------
  // White space

  /** unicode.IsSpace: the Latin-1 spaces and the Unicode White_Space characters. */
  predicate IsSpace(c: char) {
    c == ' ' || c == '\t' || c == '\n' || c == '\r' || c == '\U{0B}' || c == '\U{0C}'
    || c == '\U{85}' || c == '\U{A0}' || c == '\U{1680}' || ('\U{2000}' <= c <= '\U{200A}')
    || c == '\U{2028}' || c == '\U{2029}' || c == '\U{202F}' || c == '\U{205F}' || c == '\U{3000}'
  }

  function TrimLeft(s: string): (r: string)
    ensures |r| <= |s| && r == s[|s| - |r|..]
    ensures r == [] || !IsSpace(r[0])
    ensures forall i :: 0 <= i < |s| - |r| ==> IsSpace(s[i])
    decreases |s|
  {
    if s != [] && IsSpace(s[0]) then TrimLeft(s[1..]) else s
  }

  function TrimRight(s: string): (r: string)
    ensures |r| <= |s| && r == s[..|r|]
    ensures r == [] || !IsSpace(r[|r| - 1])
    ensures forall i :: |r| <= i < |s| ==> IsSpace(s[i])
    decreases |s|
  {
    if s != [] && IsSpace(s[|s| - 1]) then TrimRight(s[..|s| - 1]) else s
  }

  /** strings.TrimSpace: `s` without its leading and trailing white space. */
  function TrimSpace(s: string): string {
    TrimRight(TrimLeft(s))
  }

  /** The result has no white space at either end, and is empty iff `s` is all white space. */
  lemma TrimSpaceShape(s: string)
    ensures |TrimSpace(s)| <= |s|
    ensures var r := TrimSpace(s); r == [] || (!IsSpace(r[0]) && !IsSpace(r[|r| - 1]))
    ensures TrimSpace(s) == [] <==> forall i :: 0 <= i < |s| ==> IsSpace(s[i])
  {
    var l := TrimLeft(s);
    var r := TrimRight(l);
    if r != [] {
      assert r[0] == l[0];
    }
  }

  // ---------------------------------------------------------------------------
  // Searching

  predicate HasPrefix(s: string, prefix: string) {
    |prefix| <= |s| && s[..|prefix|] == prefix
  }

  /** `sub` occurs in `s` starting at position `i`. */
  predicate OccursAt(s: string, sub: string, i: nat) {
    i + |sub| <= |s| && s[i..i + |sub|] == sub
  }

  /** strings.Index: the first position at which `sub` occurs in `s`, or -1. */
  function Index(s: string, sub: string): (r: int)
    ensures -1 <= r <= |s|
    ensures r >= 0 ==> OccursAt(s, sub, r)
    ensures r >= 0 ==> forall i: nat :: i < r ==> !OccursAt(s, sub, i)
    ensures r == -1 ==> forall i: nat :: !OccursAt(s, sub, i)
    decreases |s|
  {
    if |s| < |sub| then -1
    else if s[..|sub|] == sub then 0
    else
      var k := Index(s[1..], sub);
      forall i: nat | 1 <= i ensures OccursAt(s, sub, i) <==> OccursAt(s[1..], sub, i - 1) {
        OccursShift(s, sub, i);
      }
      assert !OccursAt(s, sub, 0);
      if k == -1 then -1 else k + 1
  }

  lemma OccursShift(s: string, sub: string, i: nat)
    requires 1 <= i && s != []
    ensures OccursAt(s, sub, i) <==> OccursAt(s[1..], sub, i - 1)
  {
    if i + |sub| <= |s| {
      var a, b := s[i..i + |sub|], s[1..][i - 1..i - 1 + |sub|];
      forall k | 0 <= k < |sub| ensures a[k] == b[k] {
        assert a[k] == s[i + k];
        assert b[k] == s[1..][i - 1 + k] == s[i + k];
      }
      assert a == b;
    }
  }

  /** strings.Contains. */
  predicate Contains(s: string, sub: string) {
    Index(s, sub) >= 0
  }

  lemma ContainsAt(s: string, sub: string, i: nat)
    requires OccursAt(s, sub, i)
    ensures Contains(s, sub)
  {
  }

  /** When the first character of `sep` does not occur in `p`, `sep` is first found right after `p`. */
  lemma IndexPastPrefix(p: string, sep: string, rest: string)
    requires sep != [] && sep[0] !in p
    ensures Index(p + sep + rest, sep) == |p|
  {
    var s := p + sep + rest;
    assert OccursAt(s, sep, |p|);
    assert forall i: nat :: i < |p| ==> !OccursAt(s, sep, i) by {
      forall i: nat | i < |p| ensures !OccursAt(s, sep, i) {
        assert s[i] == p[i];
      }
    }
  }

  lemma IndexAbsent(p: string, sep: string)
    requires sep != [] && sep[0] !in p
    ensures Index(p, sep) == -1
  {
    assert forall i: nat :: !OccursAt(p, sep, i) by {
      forall i: nat ensures !OccursAt(p, sep, i) {
        if i + |sep| <= |p| {
          assert p[i..i + |sep|][0] == p[i];
        }
      }
    }
  }

  /** Searching for a single character: it is found at its first occurrence. */
  lemma IndexChar(s: string, ch: char)
    ensures Index(s, [ch]) >= 0 <==> ch in s
    ensures Index(s, [ch]) >= 0 ==> s[Index(s, [ch])] == ch && ch !in s[..Index(s, [ch])]
  {
    var r := Index(s, [ch]);
    if r >= 0 {
      assert s[r..r + 1] == [ch];
      forall i | 0 <= i < r ensures s[i] != ch {
        assert !OccursAt(s, [ch], i);
        assert s[i..i + 1] == [s[i]];
      }
      assert s[r] == [ch][0];
      assert forall i | 0 <= i < r :: s[..r][i] == s[i];
    } else {
      forall i | 0 <= i < |s| ensures s[i] != ch {
        assert !OccursAt(s, [ch], i);
        assert s[i..i + 1] == [s[i]];
      }
    }
  }

  // ---------------------------------------------------------------------------
  // Splitting and joining

  /** strings.Split for a non-empty separator: the pieces between the occurrences of `sep`. */
  function Split(s: string, sep: string): (parts: seq<string>)
    requires sep != []
    ensures |parts| >= 1
    decreases |s|
  {
    var i := Index(s, sep);
    if i < 0 then [s] else [s[..i]] + Split(s[i + |sep|..], sep)
  }

  /** strings.Join. */
  function Join(parts: seq<string>, sep: string): string {
    if parts == [] then ""
    else if |parts| == 1 then parts[0]
    else parts[0] + sep + Join(parts[1..], sep)
  }

  /** Joining the pieces of a split with the same separator gives back the string. */
  lemma {:induction false} JoinSplit(s: string, sep: string)
    requires sep != []
    ensures Join(Split(s, sep), sep) == s
    decreases |s|
  {
    var i := Index(s, sep);
    if i >= 0 {
      var head, tail := s[..i], s[i + |sep|..];
      var rest := Split(tail, sep);
      JoinSplit(tail, sep);
      assert Split(s, sep) == [head] + rest;
      JoinCons(head, rest, sep);
      SplitAround(s, sep, i);
    }
  }

  lemma JoinCons(head: string, rest: seq<string>, sep: string)
    requires rest != []
    ensures Join([head] + rest, sep) == head + sep + Join(rest, sep)
  {
    assert ([head] + rest)[1..] == rest;
  }

  lemma SplitAround(s: string, sep: string, i: nat)
    requires OccursAt(s, sep, i)
    ensures s == s[..i] + sep + s[i + |sep|..]
  {
    assert s == s[..i] + s[i..i + |sep|] + s[i + |sep|..];
  }

  /** Splitting a join gives back the pieces, when no piece holds the separator's first character. */
  lemma {:induction false} SplitJoin(parts: seq<string>, sep: string)
    requires sep != [] && parts != []
    requires forall k :: 0 <= k < |parts| ==> sep[0] !in parts[k]
    ensures Split(Join(parts, sep), sep) == parts
    decreases |parts|
  {
    if |parts| == 1 {
      IndexAbsent(parts[0], sep);
    } else {
      var rest := Join(parts[1..], sep);
      SplitPastPrefix(parts[0], sep, rest);
      assert Join(parts, sep) == parts[0] + sep + rest;
      SplitJoin(parts[1..], sep);
      assert parts == [parts[0]] + parts[1..];
    }
  }

  /** The first piece of a split is everything before the first separator. */
  lemma SplitPastPrefix(p: string, sep: string, rest: string)
    requires sep != [] && sep[0] !in p
    ensures Split(p + sep + rest, sep) == [p] + Split(rest, sep)
  {
    var s := p + sep + rest;
    IndexPastPrefix(p, sep, rest);
    assert s[..|p|] == p;
    assert s[|p| + |sep|..] == rest;
  }

  /** `fmt.Sprintf("%v", s)` for a string slice. */
  function SliceString(s: seq<string>): string {
    "[" + Join(s, " ") + "]"
  }

  // ---------------------------------------------------------------------------
  // Decimal numbers

  predicate IsDigit(c: char) {
    '0' <= c <= '9'
  }

  predicate AllDigits(s: string) {
    forall i :: 0 <= i < |s| ==> IsDigit(s[i])
  }

  function DecimalValue(s: string): nat
    requires AllDigits(s)
    decreases |s|
  {
    if s == [] then 0 else DecimalValue(s[..|s| - 1]) * 10 + (s[|s| - 1] as int - '0' as int)
  }

  /** One more than the largest unsigned integer of the given bit size. */
  function UintBound(bitSize: nat): nat
    requires bitSize == 32 || bitSize == 64
  {
    if bitSize == 32 then 0x1_0000_0000 else 0x1_0000_0000_0000_0000
  }

  /** The length of the longest run of decimal digits that starts `s`. */
  function DigitRun(s: string): (k: nat)
    ensures k <= |s| && AllDigits(s[..k]) && (k < |s| ==> !IsDigit(s[k]))
    decreases |s|
  {
    if s == [] || !IsDigit(s[0]) then 0
    else
      var k := 1 + DigitRun(s[1..]);
      assert forall i :: 1 <= i < k ==> s[..k][i] == s[1..][..k - 1][i - 1];
      k
  }

  /**
   * strconv.ParseUint(s, 10, bitSize): only decimal digits (no sign, no
   * underscores, at least one digit), and the value must fit in `bitSize` bits.
   * The digits are read from the left: once the value read so far no longer
   * fits, the range error is reported without looking at what follows; a
   * character that is not a digit before that point is a syntax error.
   */
  function ParseUint(s: string, bitSize: nat): (r: Result<nat>)
    requires bitSize == 32 || bitSize == 64
    ensures r.Ok? <==> s != [] && AllDigits(s) && DecimalValue(s) < UintBound(bitSize)
    ensures r.Ok? ==> r.value == DecimalValue(s)
  {
    var k := DigitRun(s);
    assert k == |s| ==> s[..k] == s;
    if DecimalValue(s[..k]) >= UintBound(bitSize) then Err(NumError("ParseUint", s, ErrRange))
    else if s == [] || k < |s| then Err(NumError("ParseUint", s, ErrSyntax))
    else Ok(DecimalValue(s))
  }

  const ErrRange: string := "value out of range"
  const ErrSyntax: string := "invalid syntax"

  /** The text of a *strconv.NumError: the function, the quoted input and the reason. */
  function NumError(fn: string, input: string, reason: string): string {
    "strconv." + fn + ": parsing " + Quote(input) + ": " + reason
  }

  /** Some run of leading digits of `s` has a value that does not fit in `bitSize` bits. */
  predicate Overflows(s: string, bitSize: nat)
    requires bitSize == 32 || bitSize == 64
  {
    exists j :: 0 < j <= |s| && AllDigits(s[..j]) && DecimalValue(s[..j]) >= UintBound(bitSize)
  }

  /** A longer run of digits never has a smaller value. */
  lemma {:induction false} DecimalValuePrefix(s: string, j: nat)
    requires AllDigits(s) && j <= |s|
    ensures DecimalValue(s[..j]) <= DecimalValue(s)
    decreases |s|
  {
    if j < |s| {
      var t := s[..|s| - 1];
      assert s[..j] == t[..j];
      DecimalValuePrefix(t, j);
    } else {
      assert s[..j] == s;
    }
  }

  /**
   * ParseUint's two errors: "value out of range" exactly when some leading
   * run of digits overflows, "invalid syntax" for every other failure; the
   * input appears quoted as strconv.Quote writes it.
   */
  lemma ParseUintErrors(s: string, bitSize: nat)
    requires bitSize == 32 || bitSize == 64
    ensures ParseUint(s, bitSize).Err? ==>
      ParseUint(s, bitSize).error == NumError("ParseUint", s, if Overflows(s, bitSize) then ErrRange else ErrSyntax)
  {
    var k := DigitRun(s);
    if DecimalValue(s[..k]) >= UintBound(bitSize) {
      assert s[..0] == [];
      assert Overflows(s, bitSize);
    }
    if Overflows(s, bitSize) {
      var j :| 0 < j <= |s| && AllDigits(s[..j]) && DecimalValue(s[..j]) >= UintBound(bitSize);
      assert j <= k;
      assert s[..j] == s[..k][..j];
      DecimalValuePrefix(s[..k], j);
    }
  }

  /**
   * A run of digits that overflows is a range error even when a letter
   * follows ("4294967296x" at 32 bits): the scan stops at the overflow.
   */
  lemma ParseUintOverflowFirst()
    ensures var s := Itoa(UintBound(32)) + "x";
      ParseUint(s, 32) == Err(NumError("ParseUint", s, ErrRange))
  {
    var t := Itoa(UintBound(32));
    var s := t + "x";
    DecimalValueItoa(UintBound(32));
    assert s[..|t|] == t;
    assert Overflows(s, 32);
    assert !AllDigits(s) by { assert !IsDigit(s[|s| - 1]); }
    ParseUintErrors(s, 32);
  }

  // ---------------------------------------------------------------------------
  // strconv.Quote

  const HexDigits: string := "0123456789abcdef"

  /**
   * The escape strconv.Quote writes for one character: a backslash before
   * `"` and `\`, the named escapes for the seven C control characters,
   * `\x` and two lower-case hex digits for the other ASCII control
   * characters and DEL, and the character itself otherwise.
   */
  function QuoteChar(c: char): (r: string)
    ensures r == [c] <==> ' ' <= c && c != '"' && c != '\\' && c != '\U{7F}'
  {
    if c == '"' || c == '\\' then ['\\', c]
    else if c == '\U{07}' then "\\a"
    else if c == '\U{08}' then "\\b"
    else if c == '\U{0C}' then "\\f"
    else if c == '\n' then "\\n"
    else if c == '\r' then "\\r"
    else if c == '\t' then "\\t"
    else if c == '\U{0B}' then "\\v"
    else if c < ' ' || c == '\U{7F}' then ['\\', 'x', HexDigits[c as int / 16], HexDigits[c as int % 16]]
    else [c]
  }

  function QuoteChars(s: string): string
    decreases |s|
  {
    if s == [] then [] else QuoteChar(s[0]) + QuoteChars(s[1..])
  }

  /** strconv.Quote: the escaped characters between double quotes. */
  function Quote(s: string): string {
    "\"" + QuoteChars(s) + "\""
  }

  /** A string with nothing to escape is quoted as it is. */
  lemma {:induction false} QuotePlain(s: string)
    requires forall i :: 0 <= i < |s| ==> ' ' <= s[i] && s[i] != '"' && s[i] != '\\' && s[i] != '\U{7F}'
    ensures Quote(s) == "\"" + s + "\""
    ensures QuoteChars(s) == s
    decreases |s|
  {
    if s != [] {
      QuotePlain(s[1..]);
      assert s == [s[0]] + s[1..];
    }
  }

  /** Quoting escapes a double quote, a backslash and a newline. */
  lemma QuoteEscapes()
    ensures Quote("a\"b\\c\n") == "\"a\\\"b\\\\c\\n\""
  {
    assert QuoteChars("\n") == "\\n";
    assert QuoteChars("c\n") == "c\\n";
    assert QuoteChars("\\c\n") == "\\\\c\\n";
    assert QuoteChars("b\\c\n") == "b\\\\c\\n";
    assert QuoteChars("\"b\\c\n") == "\\\"b\\\\c\\n";
  }

  function DigitChar(d: nat): (c: char)
    requires d < 10
    ensures IsDigit(c) && c as int - '0' as int == d
  {
    ('0' as int + d) as char
  }

  /** `%d` of a natural number. */
  function Itoa(n: nat): (s: string)
    ensures s != [] && AllDigits(s)
    decreases n
  {
    if n < 10 then [DigitChar(n)] else Itoa(n / 10) + [DigitChar(n % 10)]
  }

  lemma {:induction false} DecimalValueItoa(n: nat)
    ensures DecimalValue(Itoa(n)) == n
    decreases n
  {
    if n >= 10 {
      DecimalValueItoa(n / 10);
      var s := Itoa(n);
      assert s[..|s| - 1] == Itoa(n / 10);
    }
  }

  /** Parsing the decimal text of a number that fits gives the number back. */
  lemma ParseUintItoa(n: nat, bitSize: nat)
    requires bitSize == 32 || bitSize == 64
    requires n < UintBound(bitSize)
    ensures ParseUint(Itoa(n), bitSize) == Ok(n)
  {
    DecimalValueItoa(n);
  }

  // ---------------------------------------------------------------------------
  // Paths

  /** The element-by-element part of filepath.Clean for a rooted path. */
  function CleanParts(parts: seq<string>, stack: seq<string>): seq<string>
    decreases |parts|
  {
    if parts == [] then stack
    else if parts[0] == "" || parts[0] == "." then CleanParts(parts[1..], stack)
    else if parts[0] == ".." then CleanParts(parts[1..], if stack == [] then [] else stack[..|stack| - 1])
    else CleanParts(parts[1..], stack + [parts[0]])
  }

  /** filepath.Join("/dev", name): "/dev/" + name, lexically cleaned. */
  function JoinDev(name: string): string {
    "/" + Join(CleanParts(Split("/dev/" + name, "/"), []), "/")
  }

  /** A single path element: what a device or namespace name normally is. */
  predicate IsPlainName(name: string) {
    name != "" && '/' !in name && name != "." && name != ".."
  }

  lemma JoinDevPlain(name: string)
    requires IsPlainName(name)
    ensures JoinDev(name) == "/dev/" + name
  {
    var parts := ["", "dev", name];
    assert parts[1..] == ["dev", name] && parts[1..][1..] == [name];
    assert Join(["dev", name], "/") == "dev/" + name;
    assert Join(parts, "/") == "/dev/" + name;
    SplitJoin(parts, "/");
    assert CleanParts([], ["dev", name]) == ["dev", name];
    assert CleanParts([name], ["dev"]) == ["dev", name];
    assert ["dev", name][1..] == [name] && [] + ["dev"] == ["dev"];
    assert CleanParts(["dev", name], []) == ["dev", name];
    assert CleanParts(parts, []) == ["dev", name];
    assert "/" + ("dev/" + name) == "/dev/" + name;
  }

  /** An empty name joins to "/dev" itself. */
  lemma JoinDevEmpty()
    ensures JoinDev("") == "/dev"
  {
    var parts := ["", "dev", ""];
    assert parts[1..] == ["dev", ""] && parts[1..][1..] == [""];
    assert Join(["dev", ""], "/") == "dev/";
    assert Join(parts, "/") == "/dev/";
    SplitJoin(parts, "/");
    assert CleanParts([""], ["dev"]) == ["dev"];
    assert ["dev", ""][1..] == [""] && [] + ["dev"] == ["dev"];
    assert CleanParts(["dev", ""], []) == ["dev"];
    assert CleanParts(parts, []) == ["dev"];
    assert "/dev/" + "" == "/dev/";
    assert Join(["dev"], "/") == "dev";
  }

  // ---------------------------------------------------------------------------
  // Map iteration

  /** An order in which a `range` loop may visit the keys of a map: each key exactly once. */
  predicate KeyOrder<V>(keys: seq<string>, m: map<string, V>) {
    (forall k :: k in keys ==> k in m)
    && (forall k :: k in m ==> k in keys)
    && (forall i, j :: 0 <= i < j < |keys| ==> keys[i] != keys[j])
  }

  /** The keys of a map in an unspecified order, as Go's `range` visits them. */
  method MapKeys<V>(m: map<string, V>) returns (keys: seq<string>)
    ensures KeyOrder(keys, m)
  {
    keys := [];
    var rest := m.Keys;
    while rest != {}
      invariant forall k :: k in m <==> k in rest || k in keys
      invariant forall k :: k in rest ==> k !in keys
      invariant forall i, j :: 0 <= i < j < |keys| ==> keys[i] != keys[j]
      decreases |rest|
    {
      var k :| k in rest;
      keys := keys + [k];
      rest := rest - {k};
    }
  }
}
