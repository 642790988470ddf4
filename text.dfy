/** The few string operations of JavaScript the components rely on:
    ASCII case mapping, UTF-16 code units, `String(n)` of an integer, and
    `parseInt`. */
module Text {
  import opened Common

  // ---------------------------------------------------------------- case

  predicate IsLowerAscii(c: char) { 'a' <= c <= 'z' }
  predicate IsUpperAscii(c: char) { 'A' <= c <= 'Z' }

  /** `toUpperCase` of one character, on the ASCII letters. */
  function UpperChar(c: char): (r: char)
    ensures IsLowerAscii(c) ==> IsUpperAscii(r)
    ensures !IsLowerAscii(c) ==> r == c
    ensures LowerChar(r) == LowerChar(c)
  {
    if IsLowerAscii(c) then (c as int - 32) as char else c
  }

  /** `toLowerCase` of one character, on the ASCII letters. */
  function LowerChar(c: char): (r: char)
    ensures IsUpperAscii(c) ==> IsLowerAscii(r)
    ensures !IsUpperAscii(c) ==> r == c
  {
    if IsUpperAscii(c) then (c as int + 32) as char else c
  }

  /** `toLowerCase` of a string, on the ASCII letters. */
  function ToLower(s: string): (r: string)
    ensures |r| == |s|
    ensures forall i :: 0 <= i < |s| ==> r[i] == LowerChar(s[i])
  {
    if s == [] then [] else [LowerChar(s[0])] + ToLower(s[1..])
  }

  // -------------------------------------------------------------- UTF-16

  /** A UTF-16 code unit. A JavaScript string is a sequence of these, and
      its `length` and `slice` count them, not characters. */
  type CodeUnit = u: int | 0 <= u < 0x1_0000

  /** A character outside the Basic Multilingual Plane (most emoji): it
      takes two code units, a surrogate pair. */
  predicate IsAstral(c: char) { c as int >= 0x1_0000 }

  /** The code units of one character. */
  function Utf16Char(c: char): (units: seq<CodeUnit>)
    ensures |units| == if IsAstral(c) then 2 else 1
    ensures !IsAstral(c) ==> units == [c as int]
  {
    if IsAstral(c) then
      var v := c as int - 0x1_0000;
      [0xD800 + v / 0x400, 0xDC00 + v % 0x400]
    else [c as int]
  }

  /** How many characters of `s` lie outside the Basic Multilingual Plane. */
  function AstralCount(s: string): (n: nat)
    ensures n <= |s|
    ensures n == 0 <==> forall i :: 0 <= i < |s| ==> !IsAstral(s[i])
    ensures n == |s| <==> forall i :: 0 <= i < |s| ==> IsAstral(s[i])
  {
    if s == [] then 0
    else
      assert forall i :: 1 <= i < |s| ==> s[i] == s[1..][i - 1];
      (if IsAstral(s[0]) then 1 else 0) + AstralCount(s[1..])
  }

  /** The JavaScript string holding `s`: one code unit per character, two
      for each character outside the Basic Multilingual Plane. */
  function Utf16(s: string): (units: seq<CodeUnit>)
    ensures |units| == |s| + AstralCount(s)
  {
    if s == [] then [] else Utf16Char(s[0]) + Utf16(s[1..])
  }

  /** For text inside the Basic Multilingual Plane the code units are the
      characters themselves. */
  lemma {:induction false} Utf16OfBmpText(s: string)
    requires forall i :: 0 <= i < |s| ==> !IsAstral(s[i])
    ensures |Utf16(s)| == |s|
    ensures forall i :: 0 <= i < |s| ==> Utf16(s)[i] == s[i] as int
  {
    if s != [] {
      assert forall i :: 1 <= i < |s| ==> s[i] == s[1..][i - 1];
      Utf16OfBmpText(s[1..]);
    }
  }

  // ------------------------------------------------------------- decimal

  predicate IsDigit(c: char) { '0' <= c <= '9' }

  predicate AllDigits(s: string) { forall i :: 0 <= i < |s| ==> IsDigit(s[i]) }

  function DigitChar(d: nat): (c: char)
    requires d < 10
    ensures IsDigit(c)
  {
    ('0' as int + d) as char
  }

  function DigitValue(c: char): (d: nat)
    requires IsDigit(c)
    ensures d < 10
  {
    c as int - '0' as int
  }

  /** The decimal digits of `n`, most significant first, without leading zeros. */
  function NatToString(n: nat): (s: string)
    ensures |s| > 0 && AllDigits(s)
    ensures n > 0 ==> s[0] != '0'
  {
    if n < 10 then [DigitChar(n)] else NatToString(n / 10) + [DigitChar(n % 10)]
  }

  /** `String(i)` of an integer (what a template literal shows). */
  function IntToString(i: int): (s: string)
    ensures |s| > 0
    ensures s[0] == '-' <==> i < 0
  {
    if i < 0 then "-" + NatToString(-i) else NatToString(i)
  }

  /** The number a string of digits denotes. */
  function DigitsValue(s: string): nat
    requires AllDigits(s)
  {
    if s == [] then 0 else DigitsValue(s[..|s| - 1]) * 10 + DigitValue(s[|s| - 1])
  }

  /** The length of the run of digits at the start of `s`. */
  function DigitRun(s: string): (k: nat)
    ensures k <= |s| && AllDigits(s[..k])
    ensures k < |s| ==> !IsDigit(s[k])
  {
    if s == [] || !IsDigit(s[0]) then 0
    else
      var k := 1 + DigitRun(s[1..]);
      assert s[..k] == [s[0]] + s[1..][..k - 1];
      k
  }

  /** `parseInt` without a sign: the value of the leading digits, or
      nothing (JavaScript's NaN) when `s` does not start with a digit. */
  function ParseUnsigned(s: string): (r: Option<nat>)
    ensures r.None? <==> (s == [] || !IsDigit(s[0]))
  {
    var k := DigitRun(s);
    if k == 0 then None else Some(DigitsValue(s[..k]))
  }

  /** `parseInt(s)` in base 10: an optional sign, then the leading run of
      digits; trailing characters are ignored; no digits gives NaN (None). */
  function ParseInt(s: string): (r: Option<int>)
    ensures r.Some? <==>
      (|s| > 0 && IsDigit(s[0])) || (|s| > 1 && (s[0] == '-' || s[0] == '+') && IsDigit(s[1]))
    ensures r.Some? && |s| > 0 && IsDigit(s[0]) ==> r.value >= 0
    ensures r.Some? && s[0] == '-' ==> r.value <= 0
  {
    if |s| > 0 && (s[0] == '-' || s[0] == '+') then
      match ParseUnsigned(s[1..])
      case None => None
      case Some(n) =>
        var v: int := if s[0] == '-' then 0 - n else n;
        Some(v)
    else
      match ParseUnsigned(s)
      case None => None
      case Some(n) => Some(n)
  }

  lemma {:induction false} DigitsValueOfNatToString(n: nat)
    ensures DigitsValue(NatToString(n)) == n
  {
    var s := NatToString(n);
    if n >= 10 {
      DigitsValueOfNatToString(n / 10);
      assert s[..|s| - 1] == NatToString(n / 10);
    }
  }

  lemma DigitRunOfAllDigits(s: string)
    requires AllDigits(s)
    ensures DigitRun(s) == |s|
  {
    if s != [] {
      DigitRunOfAllDigits(s[1..]);
    }
  }

  /** `parseInt` reads back what `String` wrote: an option whose value is
      `String(id)` yields `id` again. */
  lemma ParseIntOfIntToString(i: int)
    ensures ParseInt(IntToString(i)) == Some(i)
  {
    var n: nat := if i < 0 then -i else i;
    var digits := NatToString(n);
    DigitRunOfAllDigits(digits);
    DigitsValueOfNatToString(n);
    assert digits[..|digits|] == digits;
    assert ParseUnsigned(digits) == Some(n);
    if i < 0 {
      assert IntToString(i)[1..] == digits;
    }
  }

  /** Two integers with the same decimal text are equal. */
  lemma IntToStringInjective(i: int, j: int)
    requires IntToString(i) == IntToString(j)
    ensures i == j
  {
    ParseIntOfIntToString(i);
    ParseIntOfIntToString(j);
  }
}
