/**
 * The handful of Python string operations the bot relies on, written out:
 * `str.split()` with no argument, `str.split(sep)`, `"".join(...)`,
 * `str.strip()`, `str(int)` and `int(str)` (ASCII digits only).
 */
module PyText {
  import opened Vk

  /** Python's `str.isspace` on one character: what `split()` and `strip()` treat as blank. */
  predicate IsSpace(c: char) {
    var n := c as int;
    (9 <= n <= 13) || (28 <= n <= 32) || n == 0x85 || n == 0xA0 || n == 0x1680 ||
    (0x2000 <= n <= 0x200A) || n == 0x2028 || n == 0x2029 || n == 0x202F ||
    n == 0x205F || n == 0x3000
  }

  predicate NoSpace(s: string) {
    forall k :: 0 <= k < |s| ==> !IsSpace(s[k])
  }

  predicate IsDigit(c: char) {
    '0' <= c <= '9'
  }

  // ---------------------------------------------------------------------------
  // "".join(s.split())
  // ---------------------------------------------------------------------------

  /** `s.split()`: the maximal runs of non-blank characters, blanks dropped. */
  function Fields(s: string): (parts: seq<string>)
    ensures forall k :: 0 <= k < |parts| ==> parts[k] != [] && NoSpace(parts[k])
    ensures |s| > 0 && !IsSpace(s[0]) ==> |parts| > 0 && parts[0][0] == s[0]
    decreases |s|
  {
    if s == [] then []
    else
      var rest := Fields(s[1..]);
      if IsSpace(s[0]) then rest
      else if |s| > 1 && !IsSpace(s[1]) then [[s[0]] + rest[0]] + rest[1..]
      else [[s[0]]] + rest
  }

  /** `"".join(parts)`. */
  function Concat(parts: seq<string>): string {
    if parts == [] then [] else parts[0] + Concat(parts[1..])
  }

  /** Reference definition: the characters of `s` that are not blank, in order. */
  function Squeeze(s: string): (r: string)
    ensures NoSpace(r) && |r| <= |s|
  {
    if s == [] then [] else (if IsSpace(s[0]) then [] else [s[0]]) + Squeeze(s[1..])
  }

  /** `"".join(s.split())` removes exactly the blank characters of `s`, keeping the rest in order. */
  lemma {:induction false} ConcatFields(s: string)
    ensures Concat(Fields(s)) == Squeeze(s)
    decreases |s|
  {
    if s != [] {
      ConcatFields(s[1..]);
      var rest := Fields(s[1..]);
      if !IsSpace(s[0]) && |s| > 1 && !IsSpace(s[1]) {
        assert Concat(rest) == rest[0] + Concat(rest[1..]);
        assert Concat([[s[0]] + rest[0]] + rest[1..]) == [s[0]] + rest[0] + Concat(rest[1..]);
      } else if !IsSpace(s[0]) {
        assert Concat([[s[0]]] + rest) == [s[0]] + Concat(rest);
      }
    }
  }

  lemma {:induction false} SqueezeNoSpace(s: string)
    requires NoSpace(s)
    ensures Squeeze(s) == s
    decreases |s|
  {
    if s != [] {
      SqueezeNoSpace(s[1..]);
    }
  }

  // ---------------------------------------------------------------------------
  // s.split(sep) and sep.join(parts)
  // ---------------------------------------------------------------------------

  /** `s.split(sep)` for a one-character separator: never empty, `""` gives `[""]`. */
  function Split(s: string, sep: char): (parts: seq<string>)
    ensures |parts| >= 1
    ensures forall k :: 0 <= k < |parts| ==> sep !in parts[k]
    decreases |s|
  {
    if s == [] then [""]
    else
      var rest := Split(s[1..], sep);
      if s[0] == sep then [""] + rest
      else [[s[0]] + rest[0]] + rest[1..]
  }

  /** `sep.join(parts)`. */
  function Join(parts: seq<string>, sep: char): string
    decreases |parts|
  {
    if parts == [] then ""
    else if |parts| == 1 then parts[0]
    else parts[0] + [sep] + Join(parts[1..], sep)
  }

  /** Joining the pieces of a split gives back the original text. */
  lemma {:induction false} JoinSplit(s: string, sep: char)
    ensures Join(Split(s, sep), sep) == s
    decreases |s|
  {
    if s != [] {
      JoinSplit(s[1..], sep);
      var rest := Split(s[1..], sep);
      if s[0] == sep {
        assert Join([""] + rest, sep) == "" + [sep] + Join(rest, sep);
      } else if |rest| == 1 {
        assert [[s[0]] + rest[0]] + rest[1..] == [[s[0]] + rest[0]];
      } else {
        var parts := [[s[0]] + rest[0]] + rest[1..];
        assert parts[1..] == rest[1..];
        assert Join(rest, sep) == rest[0] + [sep] + Join(rest[1..], sep);
      }
    }
  }

  /** Splitting `p + s` where `p` holds no separator glues `p` onto the first piece of `s`. */
  lemma {:induction false} SplitPrefix(p: string, s: string, sep: char)
    requires sep !in p
    ensures Split(p + s, sep) == [p + Split(s, sep)[0]] + Split(s, sep)[1..]
    decreases |p|
  {
    if p != [] {
      SplitPrefix(p[1..], s, sep);
      assert (p + s)[0] == p[0];
      assert (p + s)[1..] == p[1..] + s;
      assert [p[0]] + (p[1..] + Split(s, sep)[0]) == p + Split(s, sep)[0];
    } else {
      var parts := Split(s, sep);
      assert p + s == s && p + parts[0] == parts[0];
      assert parts == [parts[0]] + parts[1..];
    }
  }

  /** Splitting a join of separator-free pieces gives back the pieces. */
  lemma {:induction false} SplitJoin(parts: seq<string>, sep: char)
    requires |parts| >= 1
    requires forall k :: 0 <= k < |parts| ==> sep !in parts[k]
    ensures Split(Join(parts, sep), sep) == parts
    decreases |parts|
  {
    if |parts| == 1 {
      SplitPrefix(parts[0], "", sep);
      assert parts[0] + "" == parts[0];
    } else {
      var tail := Join(parts[1..], sep);
      SplitJoin(parts[1..], sep);
      assert Join(parts, sep) == parts[0] + ([sep] + tail);
      SplitPrefix(parts[0], [sep] + tail, sep);
      assert ([sep] + tail)[1..] == tail;
      assert Split([sep] + tail, sep) == [""] + parts[1..];
      assert parts[0] + "" == parts[0];
    }
  }

  /** A join begins with its first piece. */
  lemma JoinStartsWith(parts: seq<string>, sep: char)
    requires |parts| >= 1
    ensures |Join(parts, sep)| >= |parts[0]| && Join(parts, sep)[..|parts[0]|] == parts[0]
  {
  }

  lemma {:induction false} JoinNoSpace(parts: seq<string>, sep: char)
    requires !IsSpace(sep)
    requires forall k :: 0 <= k < |parts| ==> NoSpace(parts[k])
    ensures NoSpace(Join(parts, sep))
    decreases |parts|
  {
    if |parts| > 1 {
      JoinNoSpace(parts[1..], sep);
    }
  }

  // ---------------------------------------------------------------------------
  // s.strip(), and the blanks int() skips
  // ---------------------------------------------------------------------------

  /**
   * The blanks `int()` skips around its digits: the `str.isspace` set except
   * U+001C to U+001F. CPython hands ASCII text to its number parser as it is,
   * and that parser skips only space and `\t\n\v\f\r`; non-ASCII whitespace
   * is turned into spaces first.
   */
  predicate IsIntSpace(c: char) {
    IsSpace(c) && !(0x1C <= c as int <= 0x1F)
  }

  function TrimStart(s: string, blank: char -> bool): (r: string)
    ensures |r| <= |s| && r == s[|s| - |r|..]
    ensures r == [] || !blank(r[0])
    ensures forall k :: 0 <= k < |s| - |r| ==> blank(s[k])
    decreases |s|
  {
    if |s| > 0 && blank(s[0]) then TrimStart(s[1..], blank) else s
  }

  function TrimEnd(s: string, blank: char -> bool): (r: string)
    ensures |r| <= |s| && r == s[..|r|]
    ensures r == [] || !blank(r[|r| - 1])
    ensures forall k :: |r| <= k < |s| ==> blank(s[k])
    decreases |s|
  {
    if |s| > 0 && blank(s[|s| - 1]) then TrimEnd(s[..|s| - 1], blank) else s
  }

  /**
   * `s` without its leading and trailing `blank` characters: `s.strip()` when
   * `blank` is `IsSpace`.
   */
  function Strip(s: string, blank: char -> bool): (r: string)
    ensures r == [] || (!blank(r[0]) && !blank(r[|r| - 1]))
    ensures r == [] <==> forall k :: 0 <= k < |s| ==> blank(s[k])
    ensures s == [] || (!blank(s[0]) && !blank(s[|s| - 1])) ==> r == s
  {
    var t := TrimStart(s, blank);
    var r := TrimEnd(t, blank);
    assert r != [] ==> r[0] == t[0];
    r
  }

  // ---------------------------------------------------------------------------
  // str(i) and int(s)
  // ---------------------------------------------------------------------------

  function DigitChar(d: nat): (c: char)
    requires d < 10
    ensures IsDigit(c)
  {
    ('0' as int + d) as char
  }

  function DigitValue(c: char): nat {
    if IsDigit(c) then c as int - '0' as int else 0
  }

  /** `str(n)` for a non-negative integer: decimal, no leading zero. */
  function NatToString(n: nat): (r: string)
    ensures |r| > 0 && forall k :: 0 <= k < |r| ==> IsDigit(r[k])
    ensures (r[0] == '0') == (n == 0)
  {
    if n < 10 then [DigitChar(n)] else NatToString(n / 10) + [DigitChar(n % 10)]
  }

  /** `str(i)`: a minus sign for negative numbers, then the decimal digits. */
  function IntToString(i: int): (r: string)
    ensures |r| > 0 && IsDigit(r[|r| - 1])
    ensures forall k :: 0 <= k < |r| ==> IsDigit(r[k]) || (k == 0 && r[k] == '-')
  {
    if i < 0 then "-" + NatToString(-i) else NatToString(i)
  }

  /** The decimal numerals of a list of ids, `[str(i) for i in ids]`. */
  function Numerals(ids: seq<int>): (r: seq<string>)
    ensures |r| == |ids|
    ensures forall k :: 0 <= k < |r| ==> r[k] == IntToString(ids[k])
  {
    if ids == [] then [] else [IntToString(ids[0])] + Numerals(ids[1..])
  }

  /**
   * The body accepted by Python's `int()` after sign and blanks: ASCII digits,
   * a single `_` allowed between two digits.
   */
  predicate IsDigitGroup(b: string) {
    && |b| > 0 && IsDigit(b[0]) && IsDigit(b[|b| - 1])
    && (forall k :: 0 <= k < |b| ==> IsDigit(b[k]) || b[k] == '_')
    && (forall i, j :: 0 <= i < |b| && j == i + 1 && j < |b| && b[i] == '_' ==> b[j] != '_')
  }

  /** Value of a digit group read left to right, underscores skipped. */
  function DigitsValue(b: string): nat
    decreases |b|
  {
    if b == [] then 0
    else if b[|b| - 1] == '_' then DigitsValue(b[..|b| - 1])
    else 10 * DigitsValue(b[..|b| - 1]) + DigitValue(b[|b| - 1])
  }

  /** `int(s)` on text without surrounding blanks; `None` where Python raises `ValueError`. */
  function ParseIntLiteral(s: string): Option<int> {
    if |s| > 0 && (s[0] == '+' || s[0] == '-') then
      if IsDigitGroup(s[1..]) then
        var magnitude: int := DigitsValue(s[1..]);
        Some(if s[0] == '-' then -magnitude else magnitude)
      else None
    else if IsDigitGroup(s) then Some(DigitsValue(s))
    else None
  }

  /** `int(s)`: the literal between the blanks `int()` skips. */
  function PyInt(s: string): Option<int> {
    ParseIntLiteral(Strip(s, IsIntSpace))
  }

  lemma {:induction false} NatToStringValue(n: nat)
    ensures DigitsValue(NatToString(n)) == n
  {
    var s := NatToString(n);
    if n < 10 {
      assert s[..|s| - 1] == [];
    } else {
      NatToStringValue(n / 10);
      assert s[..|s| - 1] == NatToString(n / 10);
    }
  }

  /** The digits of `str(n)` form a digit group. */
  lemma NatToStringDigitGroup(n: nat)
    ensures IsDigitGroup(NatToString(n))
  {
    var s := NatToString(n);
    assert forall k :: 0 <= k < |s| ==> IsDigit(s[k]);
  }

  /** `int` reads back a numeral that has no surrounding blanks. */
  lemma ParseIntLiteralOfIntToString(i: int)
    ensures ParseIntLiteral(IntToString(i)) == Some(i)
  {
    if i < 0 {
      var d := NatToString(-i);
      NatToStringValue(-i);
      NatToStringDigitGroup(-i);
      assert ("-" + d)[1..] == d;
    } else {
      var d := NatToString(i);
      NatToStringValue(i);
      NatToStringDigitGroup(i);
      assert IsDigit(d[0]);
    }
  }

  /** `int(str(i)) == i`. */
  lemma PyIntOfIntToString(i: int)
    ensures PyInt(IntToString(i)) == Some(i)
  {
    StripNumeral(i);
    ParseIntLiteralOfIntToString(i);
  }

  /** Stripping keeps a first character that is not blank. */
  lemma StripKeepsFirst(s: string, blank: char -> bool)
    requires |s| > 0 && !blank(s[0])
    ensures |Strip(s, blank)| > 0 && Strip(s, blank)[0] == s[0]
  {
    assert TrimStart(s, blank) == s;
  }

  /** A literal must open with a sign or a digit. */
  lemma LiteralOpensWithSignOrDigit(s: string)
    requires |s| > 0 && !IsDigit(s[0]) && s[0] != '+' && s[0] != '-'
    ensures ParseIntLiteral(s) == None
  {
  }

  /**
   * `int()` raises on text that starts with one of U+001C to U+001F, although
   * `strip()` would remove it: `int("\x1c50")` is an error.
   */
  lemma PyIntRejectsSeparators(s: string)
    requires |s| > 0 && 0x1C <= s[0] as int <= 0x1F
    ensures PyInt(s) == None
  {
    assert !IsIntSpace(s[0]);
    StripKeepsFirst(s, IsIntSpace);
    LiteralOpensWithSignOrDigit(Strip(s, IsIntSpace));
  }

  /** A numeral has no blank to strip, for `strip()` and for `int()`. */
  lemma StripNumeral(i: int)
    ensures Strip(IntToString(i), IsSpace) == IntToString(i)
    ensures Strip(IntToString(i), IsIntSpace) == IntToString(i)
  {
    var s := IntToString(i);
    assert !IsSpace(s[0]) && !IsSpace(s[|s| - 1]);
  }

  /** Distinct integers print differently. */
  lemma IntToStringInjective(a: int, b: int)
    requires IntToString(a) == IntToString(b)
    ensures a == b
  {
    PyIntOfIntToString(a);
    PyIntOfIntToString(b);
  }

  /** Decimal numerals contain no separator and no blank. */
  lemma NumeralsClean(ids: seq<int>)
    ensures forall k :: 0 <= k < |ids| ==> ',' !in Numerals(ids)[k] && NoSpace(Numerals(ids)[k])
  {
    forall k | 0 <= k < |ids|
      ensures ',' !in Numerals(ids)[k] && NoSpace(Numerals(ids)[k])
    {
      var s := IntToString(ids[k]);
      assert forall j :: 0 <= j < |s| ==> s[j] != ',' && !IsSpace(s[j]);
    }
  }
}
