/** String operations the pages use through JavaScript's `String` methods.
    A Dafny `string` is a sequence of Unicode scalar values, while
    JavaScript counts UTF-16 code units: where a page tests `.length`, the
    model measures with `Utf16Length`. Every character `trim` removes, and
    every character the pages search for, is a single code unit. */
module Text {

  /** `s.startsWith(prefix)`. */
  predicate StartsWith(s: string, prefix: string)
  {
    |prefix| <= |s| && s[..|prefix|] == prefix
  }

  /** The characters `String.prototype.trim` removes: ECMAScript's
      WhiteSpace (tab, vertical tab, form feed, space, no-break space,
      the byte-order mark and the other Unicode space separators) and
      LineTerminator (line feed, carriage return, U+2028, U+2029). */
  predicate IsSpace(c: char)
  {
    || c == '\t' || c == '\U{B}' || c == '\U{C}' || c == ' '
    || c == '\U{A0}' || c == '\U{FEFF}'
    || c == '\n' || c == '\r' || c == '\U{2028}' || c == '\U{2029}'
    || c == '\U{1680}' || ('\U{2000}' <= c <= '\U{200A}')
    || c == '\U{202F}' || c == '\U{205F}' || c == '\U{3000}'
  }

  /** The number of UTF-16 code units of one character: two for a
      character outside the Basic Multilingual Plane (a surrogate pair). */
  function Utf16Units(c: char): nat
  {
    if c as int > 0xFFFF then 2 else 1
  }

  /** JavaScript's `s.length`: the UTF-16 code units of `s`. */
  function Utf16Length(s: string): (n: nat)
    ensures n >= |s|
    ensures n <= 2 * |s|
    ensures n == 0 <==> s == ""
    ensures n == |s| <==> forall k :: 0 <= k < |s| ==> s[k] as int <= 0xFFFF
  {
    if |s| == 0 then 0 else Utf16Units(s[0]) + Utf16Length(s[1..])
  }

  /** Index of the first character of `s` that is not a space, or `|s|`. */
  function TrimStart(s: string): (i: nat)
    ensures i <= |s|
    ensures forall k :: 0 <= k < i ==> IsSpace(s[k])
    ensures i < |s| ==> !IsSpace(s[i])
  {
    if |s| == 0 || !IsSpace(s[0]) then 0 else 1 + TrimStart(s[1..])
  }

  /** One past the index of the last character of `s` that is not a space, or 0. */
  function TrimEnd(s: string): (j: nat)
    ensures j <= |s|
    ensures forall k :: j <= k < |s| ==> IsSpace(s[k])
    ensures j > 0 ==> !IsSpace(s[j - 1])
  {
    if |s| == 0 || !IsSpace(s[|s| - 1]) then |s| else TrimEnd(s[..|s| - 1])
  }

  /** `s.trim()`: the longest infix of `s` with no space at either end. */
  function Trim(s: string): (r: string)
    ensures |r| <= |s|
    ensures r == "" <==> forall k :: 0 <= k < |s| ==> IsSpace(s[k])
    ensures r != "" ==> !IsSpace(r[0]) && !IsSpace(r[|r| - 1])
    ensures exists i, j :: 0 <= i <= j <= |s| && r == s[i..j] &&
              (forall k :: 0 <= k < i ==> IsSpace(s[k])) && (forall k :: j <= k < |s| ==> IsSpace(s[k]))
  {
    var i := TrimStart(s);
    var j := TrimEnd(s);
    if i < j then s[i..j]
    else
      assert j <= i;
      assert s[0..0] == "";
      ""
  }

  /** Trimming a string that has no space at either end changes nothing. */
  lemma TrimUnpadded(s: string)
    requires s != "" ==> !IsSpace(s[0]) && !IsSpace(s[|s| - 1])
    ensures Trim(s) == s
  {
    if s != "" {
      assert TrimStart(s) == 0;
      assert TrimEnd(s) == |s|;
    }
  }

  /** `toLowerCase` on one character (ASCII letters only; see README). */
  function LowerChar(c: char): char
  {
    if 'A' <= c <= 'Z' then (c as int + 32) as char else c
  }

  /** `s.toLowerCase()`. */
  function ToLower(s: string): (r: string)
    ensures |r| == |s|
    ensures forall k :: 0 <= k < |s| ==> r[k] == LowerChar(s[k])
  {
    seq(|s|, k requires 0 <= k < |s| => LowerChar(s[k]))
  }

  /** Index of the first occurrence of `c` in `s`, or -1 (`s.indexOf(c)`). */
  function IndexOf(s: string, c: char): (i: int)
    ensures -1 <= i < |s|
    ensures i == -1 <==> c !in s
    ensures i >= 0 ==> s[i] == c && forall k :: 0 <= k < i ==> s[k] != c
  {
    if |s| == 0 then -1
    else if s[0] == c then 0
    else
      var j := IndexOf(s[1..], c);
      if j == -1 then -1 else j + 1
  }

  /** `s.replace(from, to)` with a one-character string pattern: only the
      FIRST occurrence is replaced. */
  function ReplaceFirst(s: string, from: char, to: char): (r: string)
    ensures |r| == |s|
    ensures from !in s ==> r == s
    ensures from in s ==> r[IndexOf(s, from)] == to
    ensures forall k :: 0 <= k < |s| && k != IndexOf(s, from) ==> r[k] == s[k]
  {
    var i := IndexOf(s, from);
    if i < 0 then s else s[i := to]
  }

  // ---- Decimal rendering of numbers (`String(n)` for an integer n) ----

  function DigitChar(d: nat): char
    requires d < 10
  {
    "0123456789"[d]
  }

  function DigitValue(c: char): nat
  {
    if '0' <= c <= '9' then (c as int - '0' as int) as nat else 0
  }

  predicate IsDigit(c: char)
  {
    '0' <= c <= '9'
  }

  /** The shortest decimal rendering of a natural number, no leading zeros. */
  function NatToDecimal(n: nat): (r: string)
    ensures |r| >= 1
    ensures forall k :: 0 <= k < |r| ==> IsDigit(r[k])
    ensures |r| > 1 ==> r[0] != '0'
  {
    if n < 10 then [DigitChar(n)] else NatToDecimal(n / 10) + [DigitChar(n % 10)]
  }

  /** `String(n)` for an integer-valued JavaScript number. */
  function IntToDecimal(n: int): string
  {
    if n < 0 then "-" + NatToDecimal(-n) else NatToDecimal(n)
  }

  /** The value of a string of decimal digits. */
  function ParseNat(s: string): nat
  {
    if |s| == 0 then 0 else 10 * ParseNat(s[..|s| - 1]) + DigitValue(s[|s| - 1])
  }

  /** Reading an integer back from its decimal rendering. */
  function ParseInt(s: string): int
  {
    if |s| > 0 && s[0] == '-' then -(ParseNat(s[1..]) as int) else ParseNat(s)
  }

  /** Decimal rendering of a natural number round-trips through parsing. */
  lemma {:induction false} NatDecimalRoundTrip(n: nat)
    ensures ParseNat(NatToDecimal(n)) == n
  {
    if n >= 10 {
      var s := NatToDecimal(n);
      NatDecimalRoundTrip(n / 10);
      assert s[..|s| - 1] == NatToDecimal(n / 10);
      assert s[|s| - 1] == DigitChar(n % 10);
    } else {
      assert NatToDecimal(n) == [DigitChar(n)];
    }
  }

  /** A leading minus sign negates the digits after it. */
  lemma ParseIntNegative(digits: string)
    ensures ParseInt("-" + digits) == -(ParseNat(digits) as int)
  {
    var s := "-" + digits;
    assert s[0] == '-';
    assert s[1..] == digits;
  }

  /** A string starting with a digit parses as a natural number. */
  lemma ParseIntUnsigned(digits: string)
    requires |digits| > 0 && IsDigit(digits[0])
    ensures ParseInt(digits) == ParseNat(digits)
  {
  }

  /** `String(n)` round-trips through parsing for every integer. */
  lemma IntDecimalRoundTrip(n: int)
    ensures ParseInt(IntToDecimal(n)) == n
  {
    var m: nat := if n < 0 then -n else n;
    var digits := NatToDecimal(m);
    NatDecimalRoundTrip(m);
    if n < 0 {
      assert IntToDecimal(n) == "-" + digits;
      ParseIntNegative(digits);
    } else {
      assert IntToDecimal(n) == digits;
      assert IsDigit(digits[0]);
      ParseIntUnsigned(digits);
    }
  }
}
