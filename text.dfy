/**
  The .NET string primitives the services rely on: `char.IsWhiteSpace`,
  `string.Trim`, `string.Contains`, `int.TryParse` / `long.TryParse`,
  integer formatting, and the line splitting of `File.ReadAllLines`.
  Strings are sequences of `char`; the UTF-16 code-unit view of .NET is not modelled.
*/
module Text {
  import opened Wrappers

  const Int32Min: int := -0x8000_0000
  const Int32Max: int := 0x7FFF_FFFF
  const Int64Min: int := -0x8000_0000_0000_0000
  const Int64Max: int := 0x7FFF_FFFF_FFFF_FFFF

  /** `char.IsWhiteSpace`: the Unicode space, line and paragraph separators,
      U+0009..U+000D and U+0085. */
  predicate IsWhiteSpace(c: char) {
    c == ' ' || '\t' <= c <= '\r' || c == '\U{85}' || c == '\U{A0}' || c == '\U{1680}'
    || '\U{2000}' <= c <= '\U{200A}' || c == '\U{2028}' || c == '\U{2029}'
    || c == '\U{202F}' || c == '\U{205F}' || c == '\U{3000}'
  }

  /** `string.IsNullOrWhiteSpace` (strings of the model are never null). */
  predicate IsNullOrWhiteSpace(s: string) {
    forall i | 0 <= i < |s| :: IsWhiteSpace(s[i])
  }

  /** `string.Trim()`: the text with its leading and then its trailing white space
      removed. */
  function Trim(s: string): (r: string)
    ensures |r| <= |s|
    ensures r == [] || (!IsWhiteSpace(r[0]) && !IsWhiteSpace(r[|r| - 1]))
    ensures r == [] <==> IsNullOrWhiteSpace(s)
    decreases |s|
  {
    if s != [] && IsWhiteSpace(s[0]) then Trim(s[1..])
    else if s != [] && IsWhiteSpace(s[|s| - 1]) then Trim(s[..|s| - 1])
    else s
  }

  /** Text that starts and ends with a character other than white space is its own trim. */
  lemma {:induction false} TrimOfTrimmed(s: string)
    requires s != [] && !IsWhiteSpace(s[0]) && !IsWhiteSpace(s[|s| - 1])
    ensures Trim(s) == s
  {
  }

  /** Trimming text that starts with a non-blank character keeps that character first. */
  lemma {:induction false} TrimKeepsFirst(s: string)
    requires s != [] && !IsWhiteSpace(s[0])
    ensures Trim(s) != [] && Trim(s)[0] == s[0]
    decreases |s|
  {
    if IsWhiteSpace(s[|s| - 1]) {
      TrimKeepsFirst(s[..|s| - 1]);
    }
  }

  /** A `key=value` line whose key starts with a non-blank character and whose value is
      already trimmed is left alone by `Trim`. */
  lemma {:induction false} TrimOfAssignment(key: string, value: string)
    requires key != [] && !IsWhiteSpace(key[0])
    requires Trim(value) == value
    ensures Trim(key + "=" + value) == key + "=" + value
  {
    var s := key + "=" + value;
    if value == [] {
      assert s[|s| - 1] == '=';
    } else {
      assert s[|s| - 1] == value[|value| - 1];
    }
    TrimOfTrimmed(s);
  }

  /** `s.StartsWith(t)`, comparing characters exactly. */
  predicate StartsWith(s: string, t: string) {
    |t| <= |s| && s[..|t|] == t
  }

  /** `s.EndsWith(t)`, comparing characters exactly. */
  predicate EndsWith(s: string, t: string) {
    |t| <= |s| && s[|s| - |t|..] == t
  }

  /** A letter 'A'..'Z' as its lower-case form; every other character unchanged. */
  function LowerAscii(c: char): char {
    if 'A' <= c <= 'Z' then (c as int + 32) as char else c
  }

  function LowerAsciiText(s: string): (r: string)
    ensures |r| == |s|
  {
    seq(|s|, i requires 0 <= i < |s| => LowerAscii(s[i]))
  }

  /** `s.EndsWith(t)` comparing letters without regard to their ASCII case, as a file
      name pattern matches on a case-insensitive file system. */
  predicate EndsWithIgnoreCase(s: string, t: string) {
    |t| <= |s| && LowerAsciiText(s[|s| - |t|..]) == LowerAsciiText(t)
  }

  /** `s.Contains(t)` (ordinal, case-sensitive). */
  predicate Contains(s: string, t: string)
    decreases |s|
  {
    StartsWith(s, t) || (s != [] && Contains(s[1..], t))
  }

  /** `s.Contains(c)` for a one-character `c` holds exactly when `IndexOf` finds it. */
  lemma {:induction false} ContainsChar(s: string, c: char)
    ensures Contains(s, [c]) <==> IndexOfChar(s, c) < |s|
  {
    if s != [] {
      ContainsChar(s[1..], c);
    }
  }

  /** The index of the first `c` in `s`, or `|s|` when there is none. */
  function IndexOfChar(s: string, c: char): (r: nat)
    ensures r <= |s|
    ensures r < |s| ==> s[r] == c
    ensures forall j | 0 <= j < r :: s[j] != c
  {
    if s == [] then 0
    else if s[0] == c then 0
    else 1 + IndexOfChar(s[1..], c)
  }

  // ---------------------------------------------------------------------------
  // Decimal integers
  // ---------------------------------------------------------------------------

  /** An ASCII decimal digit. */
  predicate IsDigit(c: char) {
    '0' <= c <= '9'
  }

  predicate AllDigits(s: string) {
    forall i | 0 <= i < |s| :: IsDigit(s[i])
  }

  /** The first code point of each block of ten decimal digits in the Basic
      Multilingual Plane (Unicode category Nd). */
  const DecimalDigitZeros: seq<int> := [
    0x0030, 0x0660, 0x06F0, 0x07C0, 0x0966, 0x09E6, 0x0A66, 0x0AE6, 0x0B66, 0x0BE6,
    0x0C66, 0x0CE6, 0x0D66, 0x0DE6, 0x0E50, 0x0ED0, 0x0F20, 0x1040, 0x1090, 0x17E0,
    0x1810, 0x1946, 0x19D0, 0x1A80, 0x1A90, 0x1B50, 0x1BB0, 0x1C40, 0x1C50, 0xA620,
    0xA8D0, 0xA900, 0xA9D0, 0xA9F0, 0xAA50, 0xABF0, 0xFF10]

  /** `char.IsDigit`: any decimal digit of any script, not only '0'..'9'. */
  predicate IsDecimalDigit(c: char) {
    exists i | 0 <= i < |DecimalDigitZeros| :: DecimalDigitZeros[i] <= c as int < DecimalDigitZeros[i] + 10
  }

  predicate AllDecimalDigits(s: string) {
    forall i | 0 <= i < |s| :: IsDecimalDigit(s[i])
  }

  /** Every ASCII digit is a decimal digit, so text `int.TryParse` accepts also passes
      `char.IsDigit`. */
  lemma {:induction false} AllDigitsAreDecimalDigits(s: string)
    requires AllDigits(s)
    ensures AllDecimalDigits(s)
  {
    forall i | 0 <= i < |s| ensures IsDecimalDigit(s[i]) {
      assert DecimalDigitZeros[0] <= s[i] as int < DecimalDigitZeros[0] + 10;
    }
  }

  function DigitValue(c: char): (r: nat)
    requires IsDigit(c)
    ensures r < 10
  {
    (c as int) - ('0' as int)
  }

  function DigitChar(d: nat): (c: char)
    requires d < 10
    ensures IsDigit(c) && DigitValue(c) == d
  {
    (('0' as int) + d) as char
  }

  /** The value of a string of decimal digits, most significant first. */
  function DigitsValue(s: string): nat
    requires AllDigits(s)
  {
    if s == [] then 0 else DigitsValue(s[..|s| - 1]) * 10 + DigitValue(s[|s| - 1])
  }

  /** The decimal text of a natural number, as `ToString()` writes it. */
  function NatToString(n: nat): (r: string)
    ensures r != [] && AllDigits(r)
    ensures DigitsValue(r) == n
  {
    if n < 10 then [DigitChar(n)]
    else
      var prefix := NatToString(n / 10);
      var r := prefix + [DigitChar(n % 10)];
      assert r[..|r| - 1] == prefix;
      r
  }

  /** The decimal text of an integer, with a leading '-' when it is negative. */
  function IntToString(n: int): (r: string)
    ensures r != []
  {
    if n < 0 then "-" + NatToString(-n) else NatToString(n)
  }

  /** The decimal text of an integer is one line with no white space around it. */
  lemma {:induction false} IntToStringIsClean(n: int)
    ensures SingleLine(IntToString(n)) && Trim(IntToString(n)) == IntToString(n)
  {
    var s := IntToString(n);
    var digits := if n < 0 then NatToString(-n) else NatToString(n);
    assert s[|s| - 1] == digits[|digits| - 1];
    assert IsDigit(s[|s| - 1]);
    assert forall i | 0 <= i < |s| :: s[i] == '-' || IsDigit(s[i]) by {
      forall i | 0 <= i < |s| ensures s[i] == '-' || IsDigit(s[i]) {
        if n < 0 && i > 0 {
          assert s[i] == digits[i - 1];
        }
      }
    }
    TrimOfTrimmed(s);
  }

  /** `TryParse` of an integer type whose range is `lo..hi`, applied to text that has
      already been trimmed: an optional sign followed by at least one digit, and a value
      inside the range. */
  function ParseInteger(s: string, lo: int, hi: int): (r: Option<int>)
    ensures r.Some? ==> lo <= r.value <= hi
  {
    var signed := s != [] && (s[0] == '-' || s[0] == '+');
    var digits := if signed then s[1..] else s;
    if digits == [] || !AllDigits(digits) then None
    else
      var v: int := if signed && s[0] == '-' then 0 - (DigitsValue(digits) as int) else DigitsValue(digits);
      if lo <= v <= hi then Some(v) else None
  }

  /** `int.TryParse` on trimmed text. */
  function ParseInt32(s: string): (r: Option<int>)
    ensures r.Some? ==> Int32Min <= r.value <= Int32Max
  {
    ParseInteger(s, Int32Min, Int32Max)
  }

  /** `long.TryParse` on trimmed text. */
  function ParseInt64(s: string): (r: Option<int>)
    ensures r.Some? ==> Int64Min <= r.value <= Int64Max
  {
    ParseInteger(s, Int64Min, Int64Max)
  }

  /** Parsing the text of an integer inside the range gives the integer back. */
  lemma {:induction false} ParseIntegerOfIntToString(n: int, lo: int, hi: int)
    requires lo <= n <= hi
    ensures ParseInteger(IntToString(n), lo, hi) == Some(n)
  {
    var s := IntToString(n);
    if n < 0 {
      assert s[1..] == NatToString(-n);
    } else {
      assert s == NatToString(n);
      assert s[0] != '-' && s[0] != '+' by { assert IsDigit(s[0]); }
    }
  }

  // ---------------------------------------------------------------------------
  // Lines
  // ---------------------------------------------------------------------------

  predicate IsLineBreak(c: char) {
    c == '\r' || c == '\n'
  }

  /** Text holding no line break. */
  predicate SingleLine(s: string) {
    forall i | 0 <= i < |s| :: !IsLineBreak(s[i])
  }

  /** The index of the first line break of `s`, or `|s|`. */
  function IndexOfLineBreak(s: string): (r: nat)
    ensures r <= |s| && SingleLine(s[..r])
    ensures r < |s| ==> IsLineBreak(s[r])
  {
    if s == [] || IsLineBreak(s[0]) then 0 else 1 + IndexOfLineBreak(s[1..])
  }

  /** `File.ReadAllLines` on decoded text: lines end at "\r\n", "\n" or "\r", and a
      final line is present only when it is not empty. */
  function Lines(text: string): (r: seq<string>)
    ensures forall i | 0 <= i < |r| :: SingleLine(r[i])
    decreases |text|
  {
    if text == [] then []
    else
      var i := IndexOfLineBreak(text);
      if i == |text| then [text]
      else if text[i] == '\r' && i + 1 < |text| && text[i + 1] == '\n' then [text[..i]] + Lines(text[i + 2..])
      else [text[..i]] + Lines(text[i + 1..])
  }

  /** The text a `StringBuilder` holds after one `AppendLine` per line, with the
      Windows line terminator "\r\n". */
  function JoinLines(ls: seq<string>): string {
    if ls == [] then "" else ls[0] + "\r\n" + JoinLines(ls[1..])
  }

  lemma {:induction false} JoinLinesAppend(ls: seq<string>, l: string)
    ensures JoinLines(ls + [l]) == JoinLines(ls) + l + "\r\n"
  {
    if ls != [] {
      assert (ls + [l])[1..] == ls[1..] + [l];
      JoinLinesAppend(ls[1..], l);
    } else {
      assert JoinLines([l]) == l + "\r\n" + JoinLines([]);
    }
  }

  lemma {:induction false} JoinLinesConcat(a: seq<string>, b: seq<string>)
    ensures JoinLines(a + b) == JoinLines(a) + JoinLines(b)
  {
    if a != [] {
      assert (a + b)[1..] == a[1..] + b;
      JoinLinesConcat(a[1..], b);
    } else {
      assert a + b == b;
    }
  }

  /** Reading back the lines that were written gives the same lines, as long as none of
      them holds a line break. */
  lemma {:induction false} LinesOfJoinLines(ls: seq<string>)
    requires forall i | 0 <= i < |ls| :: SingleLine(ls[i])
    ensures Lines(JoinLines(ls)) == ls
  {
    if ls != [] {
      LinesOfTerminatedLine(ls[0], JoinLines(ls[1..]));
      LinesOfJoinLines(ls[1..]);
    }
  }

  /** A line followed by "\r\n" is read back as that line. */
  lemma {:induction false} LinesOfTerminatedLine(l: string, rest: string)
    requires SingleLine(l)
    ensures Lines(l + "\r\n" + rest) == [l] + Lines(rest)
  {
    var text := l + "\r\n" + rest;
    IndexOfLineBreakOfLine(l, "\r\n" + rest);
    assert text[..|l|] == l;
    assert text[|l|] == '\r' && text[|l| + 1] == '\n';
    assert text[|l| + 2..] == rest;
    var i := IndexOfLineBreak(text);
    assert i == |l| && i != |text|;
    assert text[i] == '\r' && i + 1 < |text| && text[i + 1] == '\n';
    assert Lines(text) == [text[..i]] + Lines(text[i + 2..]);
  }

  lemma {:induction false} IndexOfLineBreakOfLine(l: string, rest: string)
    requires SingleLine(l) && rest != [] && IsLineBreak(rest[0])
    ensures IndexOfLineBreak(l + rest) == |l|
  {
    if l != [] {
      assert (l + rest)[1..] == l[1..] + rest;
      IndexOfLineBreakOfLine(l[1..], rest);
    }
  }
}
