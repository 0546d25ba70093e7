/**
 * The few JavaScript string primitives the controllers rely on, stated over
 * Dafny strings (sequences of Unicode scalar values): UTF-16 code units as
 * `split('')`, `charCodeAt` and `length` see them, the `\s` class of regular
 * expressions, ASCII lower-casing, substring search and decimal rendering of
 * non-negative integers.
 */
module JsText {

  /** The UTF-16 code units of one character (one unit, or a surrogate pair). */
  function CharUnits(c: char): (r: seq<int>)
    ensures 1 <= |r| <= 2
    ensures |r| == 1 <==> (c as int) < 0x1_0000
    ensures forall i :: 0 <= i < |r| ==> 0 <= r[i] < 0x1_0000
  {
    var v := c as int;
    if v < 0x1_0000 then [v]
    else [0xD800 + (v - 0x1_0000) / 0x400, 0xDC00 + (v - 0x1_0000) % 0x400]
  }

  /** The UTF-16 code units of a string, in order. */
  function CodeUnits(s: string): (r: seq<int>)
    ensures |s| <= |r| <= 2 * |s|
    ensures forall i :: 0 <= i < |r| ==> 0 <= r[i] < 0x1_0000
  {
    if |s| == 0 then [] else CodeUnits(s[..|s| - 1]) + CharUnits(s[|s| - 1])
  }

  /** What a JavaScript string's `length` reports. */
  function Utf16Length(s: string): (n: nat)
    ensures n >= |s|
    ensures (forall i :: 0 <= i < |s| ==> (s[i] as int) < 0x1_0000) ==> n == |s|
  {
    if |s| == 0 then 0
    else Utf16Length(s[..|s| - 1]) + |CharUnits(s[|s| - 1])|
  }

  lemma {:induction false} CodeUnitsLength(s: string)
    ensures |CodeUnits(s)| == Utf16Length(s)
  {
    if |s| > 0 {
      CodeUnitsLength(s[..|s| - 1]);
    }
  }

  /** Membership in the `\s` class of ECMAScript regular expressions
      (WhiteSpace and LineTerminator code points). */
  predicate IsJsWhitespace(c: char) {
    || c == '\t' || c == '\n' || c == '\U{000B}' || c == '\U{000C}' || c == '\r'
    || c == ' ' || c == '\U{00A0}' || c == '\U{1680}'
    || ('\U{2000}' <= c <= '\U{200A}')
    || c == '\U{2028}' || c == '\U{2029}' || c == '\U{202F}' || c == '\U{205F}'
    || c == '\U{3000}' || c == '\U{FEFF}'
  }

  predicate IsAsciiDigit(c: char) {
    '0' <= c <= '9'
  }

  predicate AllAsciiDigits(s: string) {
    forall i :: 0 <= i < |s| ==> IsAsciiDigit(s[i])
  }

  /** `s.replace(/\s+/g, '')`: the string with every whitespace character removed. */
  function StripWhitespace(s: string): (r: string)
    ensures |r| <= |s|
    ensures forall i :: 0 <= i < |r| ==> !IsJsWhitespace(r[i])
    ensures (forall i :: 0 <= i < |s| ==> !IsJsWhitespace(s[i])) ==> r == s
  {
    if |s| == 0 then []
    else if IsJsWhitespace(s[0]) then StripWhitespace(s[1..])
    else [s[0]] + StripWhitespace(s[1..])
  }

  /** Removing whitespace keeps exactly the other characters. */
  lemma {:induction false} StripKeepsOthers(s: string)
    ensures forall c :: c in StripWhitespace(s) <==> c in s && !IsJsWhitespace(c)
  {
    if |s| > 0 {
      StripKeepsOthers(s[1..]);
      assert forall c :: c in s <==> c == s[0] || c in s[1..];
    }
  }

  /** Removing whitespace distributes over concatenation. */
  lemma {:induction false} StripConcat(a: string, b: string)
    ensures StripWhitespace(a + b) == StripWhitespace(a) + StripWhitespace(b)
    decreases |a|
  {
    if |a| == 0 {
      assert a + b == b;
    } else {
      assert (a + b)[0] == a[0];
      assert (a + b)[1..] == a[1..] + b;
      StripConcat(a[1..], b);
      if !IsJsWhitespace(a[0]) {
        assert [a[0]] + (StripWhitespace(a[1..]) + StripWhitespace(b))
            == ([a[0]] + StripWhitespace(a[1..])) + StripWhitespace(b);
      }
    }
  }

  /** A string of digits has no whitespace to remove. */
  lemma StripDigits(s: string)
    requires AllAsciiDigits(s)
    ensures StripWhitespace(s) == s
  {
  }

  /** The value of an ASCII digit character. */
  function DigitValue(c: char): (d: int)
    requires IsAsciiDigit(c)
    ensures 0 <= d < 10
  {
    c as int - '0' as int
  }

  /** The ASCII digit character for a value in 0..9. */
  function DigitChar(d: int): (c: char)
    requires 0 <= d < 10
    ensures IsAsciiDigit(c) && DigitValue(c) == d
  {
    ('0' as int + d) as char
  }

  /** Lower-casing restricted to the ASCII letters A-Z; every other character is kept. */
  function AsciiLower(s: string): (r: string)
    ensures |r| == |s|
    ensures forall i :: 0 <= i < |s| ==> ('A' <= s[i] <= 'Z' ==> r[i] as int == s[i] as int + 32)
    ensures forall i :: 0 <= i < |s| ==> (!('A' <= s[i] <= 'Z') ==> r[i] == s[i])
  {
    if |s| == 0 then []
    else
      var c := s[0];
      var lc := if 'A' <= c <= 'Z' then (c as int + 32) as char else c;
      [lc] + AsciiLower(s[1..])
  }

  /** A string without upper-case ASCII letters is its own lower-case form. */
  lemma AsciiLowerKeepsLower(s: string)
    requires forall i :: 0 <= i < |s| ==> !('A' <= s[i] <= 'Z')
    ensures AsciiLower(s) == s
  {
  }

  /** `s.includes(sub)`: `sub` occurs in `s` at some offset. */
  predicate Includes(s: string, sub: string)
    decreases |s|
  {
    if |s| < |sub| then false
    else s[..|sub|] == sub || (|s| > 0 && Includes(s[1..], sub))
  }

  /** An occurrence at a given offset is found by `Includes`. */
  lemma {:induction false} IncludesAt(s: string, sub: string, k: nat)
    requires k + |sub| <= |s| && s[k..k + |sub|] == sub
    ensures Includes(s, sub)
    decreases k
  {
    if k > 0 {
      assert s[1..][k - 1..k - 1 + |sub|] == s[k..k + |sub|];
      IncludesAt(s[1..], sub, k - 1);
    }
  }

  /** `s.endsWith(suffix)`. */
  predicate EndsWith(s: string, suffix: string) {
    |suffix| <= |s| && s[|s| - |suffix|..] == suffix
  }

  /** `s.slice(-n)` for n > 0: the last n characters, or the whole string when shorter. */
  function SliceLast(s: string, n: nat): (r: string)
    ensures |r| == if |s| < n then |s| else n
    ensures EndsWith(s, r)
  {
    if |s| < n then s else s[|s| - n..]
  }

  /** The decimal rendering of a non-negative integer (`String(n)`), without leading zeros. */
  function Decimal(n: nat): (r: string)
    ensures |r| >= 1 && AllAsciiDigits(r)
    ensures |r| > 1 ==> r[0] != '0'
    decreases n
  {
    if n < 10 then [DigitChar(n)] else Decimal(n / 10) + [DigitChar(n % 10)]
  }

  /** The value of a string of ASCII digits read in base 10. */
  function ParseDecimal(s: string): nat
    requires AllAsciiDigits(s)
  {
    if |s| == 0 then 0 else 10 * ParseDecimal(s[..|s| - 1]) + DigitValue(s[|s| - 1])
  }

  /** Rendering a number and reading it back gives the number. */
  lemma {:induction false} ParseDecimalOfDecimal(n: nat)
    ensures ParseDecimal(Decimal(n)) == n
    decreases n
  {
    if n >= 10 {
      var r := Decimal(n);
      assert r[..|r| - 1] == Decimal(n / 10);
      ParseDecimalOfDecimal(n / 10);
    }
  }

  /** Four-digit numbers render as exactly four characters. */
  lemma DecimalOfFourDigits(n: nat)
    requires 1000 <= n <= 9999
    ensures |Decimal(n)| == 4
  {
    assert Decimal(n) == Decimal(n / 10) + [DigitChar(n % 10)];
    assert Decimal(n / 10) == Decimal(n / 100) + [DigitChar(n / 10 % 10)];
    assert Decimal(n / 100) == Decimal(n / 1000) + [DigitChar(n / 100 % 10)];
  }

  /** Rendering is injective: distinct numbers give distinct strings. */
  lemma DecimalInjective(m: nat, n: nat)
    requires Decimal(m) == Decimal(n)
    ensures m == n
  {
    ParseDecimalOfDecimal(m);
    ParseDecimalOfDecimal(n);
  }

  /** `parts.join(sep)`. */
  function Join(parts: seq<string>, sep: string): (r: string)
    ensures |parts| == 1 ==> r == parts[0]
  {
    if |parts| == 0 then []
    else if |parts| == 1 then parts[0]
    else parts[0] + sep + Join(parts[1..], sep)
  }
}
