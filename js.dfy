/**
 * The few pieces of JavaScript's built-in string and number behaviour the
 * server and its scripts rely on: `null`/`undefined` as an option, `\s` and
 * `String.prototype.trim`, `toUpperCase`, `startsWith`/`includes`,
 * `split(',')`, `String(n)` for integers and `parseInt`.
 * Strings are sequences of code points.
 */
module Js {

  /** A value that may be `null` or `undefined`. */
  datatype Option<T> = None | Some(value: T) {
    function GetOr(default: T): T {
      match this
      case Some(v) => v
      case None => default
    }
  }

  /** JavaScript truthiness of a value that is a string or missing. */
  predicate Truthy(s: Option<string>) { s.Some? && s.value != "" }

  /** `s || fallback` for a string or missing value. */
  function OrElse(s: Option<string>, fallback: string): string {
    if Truthy(s) then s.value else fallback
  }

  // ---------------------------------------------------------------------
  // Whitespace, line terminators, trimming
  // ---------------------------------------------------------------------

  /** ECMAScript LineTerminator: the characters `.` in a regular expression does not match. */
  predicate IsLineTerminator(c: char) {
    c == '\n' || c == '\r' || c == '\U{2028}' || c == '\U{2029}'
  }

  /** ECMAScript WhiteSpace or LineTerminator: what `\s` matches and `trim` removes. */
  predicate IsSpace(c: char) {
    || c == '\t' || c == '\U{000B}' || c == '\U{000C}' || c == ' ' || c == '\U{00A0}'
    || c == '\U{1680}' || ('\U{2000}' <= c <= '\U{200A}') || c == '\U{202F}'
    || c == '\U{205F}' || c == '\U{3000}' || c == '\U{FEFF}'
    || IsLineTerminator(c)
  }

  predicate NoLineTerminator(s: string) {
    forall i :: 0 <= i < |s| ==> !IsLineTerminator(s[i])
  }

  /** Number of whitespace characters `s` starts with. */
  function LeadingSpaces(s: string): (k: nat)
    ensures k <= |s|
    ensures forall i :: 0 <= i < k ==> IsSpace(s[i])
    ensures k < |s| ==> !IsSpace(s[k])
  {
    if |s| > 0 && IsSpace(s[0]) then 1 + LeadingSpaces(s[1..]) else 0
  }

  /** Number of whitespace characters `s` ends with. */
  function TrailingSpaces(s: string): (k: nat)
    ensures k <= |s|
    ensures forall i :: |s| - k <= i < |s| ==> IsSpace(s[i])
    ensures k < |s| ==> !IsSpace(s[|s| - k - 1])
  {
    if |s| > 0 && IsSpace(s[|s| - 1]) then 1 + TrailingSpaces(s[..|s| - 1]) else 0
  }

  /** `s.trimStart()`: drops the leading whitespace and nothing else. */
  function TrimStart(s: string): string {
    s[LeadingSpaces(s)..]
  }

  /** `s.trimEnd()`: drops the trailing whitespace and nothing else. */
  function TrimEnd(s: string): string {
    s[..|s| - TrailingSpaces(s)]
  }

  /**
   * `s.trim()`: what remains is a stretch of `s` with only whitespace
   * outside it, and it neither starts nor ends with whitespace.
   */
  function Trim(s: string): (r: string)
    ensures |r| <= |s|
    ensures exists i, j :: 0 <= i <= j <= |s| && r == s[i..j]
                           && (forall k :: 0 <= k < i ==> IsSpace(s[k]))
                           && (forall k :: j <= k < |s| ==> IsSpace(s[k]))
    ensures r == [] || (!IsSpace(r[0]) && !IsSpace(r[|r| - 1]))
  {
    var i := LeadingSpaces(s);
    TrimIsStretch(s, i, |s| - TrailingSpaces(s[i..]));
    SpacesAfterStretch(s, i);
    TrimEnd(TrimStart(s))
  }

  /** Where the stretch `Trim` keeps starts and ends. */
  lemma TrimIsStretch(s: string, i: nat, j: int)
    requires i == LeadingSpaces(s) && j == |s| - TrailingSpaces(s[i..])
    ensures 0 <= i <= j <= |s| && TrimEnd(TrimStart(s)) == s[i..j]
  {
  }

  /** The whitespace `s[i..]` ends with is whitespace of `s`. */
  lemma SpacesAfterStretch(s: string, i: nat)
    requires i <= |s|
    ensures forall k :: |s| - TrailingSpaces(s[i..]) <= k < |s| ==> IsSpace(s[k])
  {
    var t := s[i..];
    forall k | |s| - TrailingSpaces(t) <= k < |s|
      ensures IsSpace(s[k])
    {
      assert s[k] == t[k - i];
    }
  }

  /** A text of whitespace only trims to nothing. */
  lemma {:induction false} TrimOfSpaces(s: string)
    requires forall i :: 0 <= i < |s| ==> IsSpace(s[i])
    ensures LeadingSpaces(s) == |s| && Trim(s) == []
  {
    if s != [] {
      TrimOfSpaces(s[1..]);
    }
  }

  /** `trim()` applied after `\s*` has eaten the leading whitespace gives the same text. */
  lemma TrimAfterTrimStart(s: string)
    ensures Trim(TrimStart(s)) == Trim(s)
  {
    assert LeadingSpaces(TrimStart(s)) == 0;
  }

  // ---------------------------------------------------------------------
  // Case mapping
  // ---------------------------------------------------------------------

  predicate IsUpperAscii(c: char) { 'A' <= c <= 'Z' }
  predicate IsLowerAscii(c: char) { 'a' <= c <= 'z' }

  /** The two letters outside ASCII whose capital is a single ASCII letter: dotless `ı` and long `ſ`. */
  predicate UppersToAscii(c: char) {
    c == '\U{0131}' || c == '\U{017F}'
  }

  /**
   * `toUpperCase` of one code point, for the ASCII and Latin-1 letters and
   * the two letters that become ASCII capitals (`ı` to `I`, `ſ` to `S`).
   * Every other code point, `ß` included, is left as it is.
   */
  function UpperChar(c: char): (u: char)
    ensures IsLowerAscii(c) ==> IsUpperAscii(u) && u as int == c as int - 32
    ensures UppersToAscii(c) ==> IsUpperAscii(u)
    ensures !IsLowerAscii(c) && !UppersToAscii(c) ==> !IsUpperAscii(u) || u == c
  {
    if IsLowerAscii(c) then (c as int - 32) as char
    else if c == '\U{0131}' then 'I'
    else if c == '\U{017F}' then 'S'
    else if '\U{00E0}' <= c <= '\U{00FE}' && c != '\U{00F7}' then (c as int - 32) as char
    else if c == '\U{00FF}' then '\U{0178}'
    else if c == '\U{00B5}' then '\U{039C}'
    else c
  }

  /** `s.toUpperCase()`, one code point to one code point (so the length is kept). */
  function ToUpper(s: string): (r: string)
    ensures |r| == |s|
    ensures forall i :: 0 <= i < |s| ==> r[i] == UpperChar(s[i])
  {
    seq(|s|, i requires 0 <= i < |s| => UpperChar(s[i]))
  }

  /** Upper-cases ASCII letters only: how a `/.../i` pattern made of ASCII compares characters. */
  function FoldAscii(c: char): (u: char)
    ensures IsUpperAscii(c) || IsLowerAscii(c) ==> IsUpperAscii(u)
    ensures !IsLowerAscii(c) ==> u == c
  {
    if IsLowerAscii(c) then (c as int - 32) as char else c
  }

  function FoldAsciiString(s: string): (r: string)
    ensures |r| == |s|
    ensures forall i :: 0 <= i < |s| ==> r[i] == FoldAscii(s[i])
  {
    seq(|s|, i requires 0 <= i < |s| => FoldAscii(s[i]))
  }

  /** `toLowerCase` of an ASCII-only string. */
  function LowerAscii(s: string): (r: string)
    ensures |r| == |s|
  {
    seq(|s|, i requires 0 <= i < |s| => if IsUpperAscii(s[i]) then (s[i] as int + 32) as char else s[i])
  }

  /** Lower-casing leaves no capital letter and changes nothing else. */
  lemma LowerAsciiChars(s: string)
    ensures forall i :: 0 <= i < |s| ==> !IsUpperAscii(LowerAscii(s)[i])
    ensures forall i :: 0 <= i < |s| && !IsUpperAscii(s[i]) ==> LowerAscii(s)[i] == s[i]
    ensures forall i :: 0 <= i < |s| && IsUpperAscii(s[i]) ==> LowerAscii(s)[i] as int == s[i] as int + 32
  {
  }

  // ---------------------------------------------------------------------
  // Searching
  // ---------------------------------------------------------------------

  predicate StartsWith(s: string, prefix: string) {
    |prefix| <= |s| && s[..|prefix|] == prefix
  }

  /** `s.includes(p)`. */
  predicate Contains(s: string, p: string)
    decreases |s|
  {
    StartsWith(s, p) || (|s| > 0 && Contains(s[1..], p))
  }

  lemma {:induction false} ContainsAt(s: string, p: string, i: nat)
    requires i + |p| <= |s| && s[i..i + |p|] == p
    ensures Contains(s, p)
  {
    if i > 0 {
      assert s[1..][i - 1..i - 1 + |p|] == s[i..i + |p|];
      ContainsAt(s[1..], p, i - 1);
    }
  }

  lemma {:induction false} ContainsWitness(s: string, p: string) returns (i: nat)
    requires Contains(s, p)
    ensures i + |p| <= |s| && s[i..i + |p|] == p
    decreases |s|
  {
    if StartsWith(s, p) {
      i := 0;
    } else {
      var j := ContainsWitness(s[1..], p);
      assert s[1..][j..j + |p|] == s[j + 1..j + 1 + |p|];
      i := j + 1;
    }
  }

  /** A test with a case-insensitive regular expression `/P/i` whose pattern P is upper-case ASCII. */
  predicate ContainsIgnoringCase(s: string, pattern: string) {
    Contains(FoldAsciiString(s), pattern)
  }

  // ---------------------------------------------------------------------
  // split(',')
  // ---------------------------------------------------------------------

  /** Index of the first `sep` in `s`, or `|s|` when there is none. */
  function IndexOf(s: string, sep: char): (k: nat)
    ensures k <= |s|
    ensures k < |s| ==> s[k] == sep
    ensures forall i :: 0 <= i < k ==> s[i] != sep
  {
    if |s| == 0 then 0 else if s[0] == sep then 0 else 1 + IndexOf(s[1..], sep)
  }

  /** `s.split(sep)` for a one-character separator: always at least one piece. */
  function Split(s: string, sep: char): (pieces: seq<string>)
    ensures |pieces| >= 1
    ensures forall k :: 0 <= k < |pieces| ==> sep !in pieces[k]
    decreases |s|
  {
    var k := IndexOf(s, sep);
    if k == |s| then [s] else [s[..k]] + Split(s[k + 1..], sep)
  }

  function Join(pieces: seq<string>, sep: char): string
    requires |pieces| >= 1
  {
    if |pieces| == 1 then pieces[0] else pieces[0] + [sep] + Join(pieces[1..], sep)
  }

  /** Joining a head piece in front of at least one more piece puts one separator between them. */
  lemma JoinCons(head: string, rest: seq<string>, sep: char)
    requires |rest| >= 1
    ensures Join([head] + rest, sep) == head + [sep] + Join(rest, sep)
  {
    assert ([head] + rest)[1..] == rest;
  }

  /** Splitting loses nothing: joining the pieces back gives the original text. */
  lemma {:induction false} SplitJoin(s: string, sep: char)
    ensures Join(Split(s, sep), sep) == s
    decreases |s|
  {
    var k := IndexOf(s, sep);
    if k < |s| {
      var tail := s[k + 1..];
      var rest := Split(tail, sep);
      SplitJoin(tail, sep);
      JoinCons(s[..k], rest, sep);
      assert s == s[..k] + [sep] + tail;
    }
  }

  // ---------------------------------------------------------------------
  // String(n) and parseInt
  // ---------------------------------------------------------------------

  predicate IsDecimalDigit(c: char) { '0' <= c <= '9' }

  /** The value of `c` as a digit in `radix` (10 or 16), or -1 when it is not one. */
  function DigitValue(c: char, radix: nat): (d: int)
    requires radix == 10 || radix == 16
    ensures -1 <= d < radix as int
    ensures IsDecimalDigit(c) ==> d == c as int - '0' as int
  {
    if IsDecimalDigit(c) then c as int - '0' as int
    else if radix == 16 && 'a' <= c <= 'f' then c as int - 'a' as int + 10
    else if radix == 16 && 'A' <= c <= 'F' then c as int - 'A' as int + 10
    else -1
  }

  function DigitChar(d: nat): (c: char)
    requires d < 10
    ensures IsDecimalDigit(c) && c as int - '0' as int == d
  {
    ('0' as int + d) as char
  }

  /** `String(n)` for a non-negative integer: its shortest decimal numeral. */
  function NatToString(n: nat): (s: string)
    ensures |s| >= 1
    ensures forall i :: 0 <= i < |s| ==> IsDecimalDigit(s[i])
    ensures s[0] == '0' ==> n == 0
  {
    if n < 10 then [DigitChar(n)] else NatToString(n / 10) + [DigitChar(n % 10)]
  }

  /** `String(n)` for an integer. */
  function IntToString(n: int): (s: string)
    ensures |s| >= 1
    ensures n < 0 <==> s[0] == '-'
  {
    if n < 0 then "-" + NatToString(-n) else NatToString(n)
  }

  /** Length of the longest prefix of `s` made of `radix` digits. */
  function DigitRun(s: string, radix: nat): (k: nat)
    requires radix == 10 || radix == 16
    ensures k <= |s|
    ensures forall i :: 0 <= i < k ==> DigitValue(s[i], radix) >= 0
    ensures k < |s| ==> DigitValue(s[k], radix) < 0
  {
    if |s| > 0 && DigitValue(s[0], radix) >= 0 then 1 + DigitRun(s[1..], radix) else 0
  }

  /** The value of a numeral, most significant digit first. */
  function NumeralValue(s: string, radix: nat): (v: nat)
    requires radix == 10 || radix == 16
    requires forall i :: 0 <= i < |s| ==> DigitValue(s[i], radix) >= 0
  {
    if |s| == 0 then 0
    else NumeralValue(s[..|s| - 1], radix) * radix + DigitValue(s[|s| - 1], radix)
  }

  /**
   * The digits part of `parseInt`, after the sign: a `0x`/`0X` prefix
   * selects hexadecimal, and the longest run of digits that follows is read.
   * `None` when there is no digit.
   */
  function ParseUnsigned(u: string): (r: Option<nat>)
  {
    var hex := |u| >= 2 && u[0] == '0' && (u[1] == 'x' || u[1] == 'X');
    var radix := if hex then 16 else 10;
    var digits := if hex then u[2..] else u;
    var k := DigitRun(digits, radix);
    if k == 0 then None else Some(NumeralValue(digits[..k], radix))
  }

  /**
   * `parseInt(s)` (no radix argument); `None` stands for NaN. Leading
   * whitespace is skipped and one sign is accepted before the digits.
   */
  function ParseInt(s: string): (r: Option<int>)
  {
    var t := TrimStart(s);
    var negative := |t| > 0 && t[0] == '-';
    var u := if |t| > 0 && (t[0] == '-' || t[0] == '+') then t[1..] else t;
    match ParseUnsigned(u)
    case None => None
    case Some(v) => Some(if negative then -(v as int) else v)
  }

  /** `parseInt` of a value that may be missing: `parseInt(undefined)` is NaN. */
  function ParseIntOpt(s: Option<string>): (r: Option<int>)
    ensures s.None? ==> r.None?
  {
    match s
    case None => None
    case Some(t) => ParseInt(t)
  }

  lemma {:induction false} NumeralOfNatToString(n: nat)
    ensures NumeralValue(NatToString(n), 10) == n
  {
    var s := NatToString(n);
    if n >= 10 {
      NumeralOfNatToString(n / 10);
      assert s[..|s| - 1] == NatToString(n / 10);
    }
  }

  /** A canonical decimal numeral: digits only, no leading zero. */
  predicate CanonicalDecimal(d: string) {
    |d| >= 1 && (forall i :: 0 <= i < |d| ==> IsDecimalDigit(d[i])) && (d[0] == '0' ==> |d| == 1)
  }

  lemma DigitRunOfDecimal(d: string)
    requires forall i :: 0 <= i < |d| ==> IsDecimalDigit(d[i])
    ensures DigitRun(d, 10) == |d|
  {
  }

  lemma {:induction false} ParseUnsignedOfNumeral(d: string)
    requires CanonicalDecimal(d)
    ensures ParseUnsigned(d) == Some(NumeralValue(d, 10))
  {
    assert |d| >= 2 ==> d[0] != '0';
    DigitRunOfDecimal(d);
    assert d[..|d|] == d;
  }

  /** `parseInt` reads a canonical numeral, with or without a minus sign, exactly. */
  lemma {:induction false} ParseIntOfNumeral(d: string, negative: bool)
    requires CanonicalDecimal(d)
    ensures ParseInt(if negative then "-" + d else d)
         == Some(if negative then -(NumeralValue(d, 10) as int) else NumeralValue(d, 10))
  {
    var s := if negative then "-" + d else d;
    assert !IsSpace(s[0]);
    assert TrimStart(s) == s;
    assert (|s| > 0 && s[0] == '-') == negative;
    assert (if |s| > 0 && (s[0] == '-' || s[0] == '+') then s[1..] else s) == d;
    ParseUnsignedOfNumeral(d);
    var v := NumeralValue(d, 10);
    assert ParseUnsigned(d) == Some(v);
    assert ParseInt(s) == Some(if negative then -(v as int) else v);
  }

  /** `parseInt(String(n))` gives `n` back. */
  lemma {:induction false} ParseIntOfIntToString(n: int)
    ensures ParseInt(IntToString(n)) == Some(n)
  {
    var m: nat := if n < 0 then -n else n;
    var d := NatToString(m);
    NumeralOfNatToString(m);
    ParseIntOfNumeral(d, n < 0);
    assert IntToString(n) == if n < 0 then "-" + d else d;
  }

  /** Distinct integers print differently. */
  lemma IntToStringInjective(a: int, b: int)
    requires IntToString(a) == IntToString(b)
    ensures a == b
  {
    ParseIntOfIntToString(a);
    ParseIntOfIntToString(b);
  }
}
