/**
 * Aadhaar number validation (`validateAadhaar`) and the Verhoeff check-digit
 * algorithm it ends with (`validateVerhoeff`). The multiplication table is the
 * Cayley table of the dihedral group D5 and each permutation-table row is a
 * bijection on the digits, which is why a single mistyped digit is always caught.
 */
module AadhaarValidator {
  import opened Wrappers
  import opened JsText

  const MultiplicationTable: seq<seq<int>> := [
    [0, 1, 2, 3, 4, 5, 6, 7, 8, 9],
    [1, 2, 3, 4, 0, 6, 7, 8, 9, 5],
    [2, 3, 4, 0, 1, 7, 8, 9, 5, 6],
    [3, 4, 0, 1, 2, 8, 9, 5, 6, 7],
    [4, 0, 1, 2, 3, 9, 5, 6, 7, 8],
    [5, 9, 8, 7, 6, 0, 4, 3, 2, 1],
    [6, 5, 9, 8, 7, 1, 0, 4, 3, 2],
    [7, 6, 5, 9, 8, 2, 1, 0, 4, 3],
    [8, 7, 6, 5, 9, 3, 2, 1, 0, 4],
    [9, 8, 7, 6, 5, 4, 3, 2, 1, 0]
  ]

  const PermutationTable: seq<seq<int>> := [
    [0, 1, 2, 3, 4, 5, 6, 7, 8, 9],
    [1, 5, 7, 6, 2, 8, 3, 0, 9, 4],
    [5, 8, 0, 3, 7, 9, 6, 1, 4, 2],
    [8, 9, 1, 6, 0, 4, 3, 5, 2, 7],
    [9, 4, 5, 3, 1, 2, 6, 8, 7, 0],
    [4, 2, 8, 6, 5, 7, 3, 9, 0, 1],
    [2, 7, 9, 3, 8, 0, 6, 4, 1, 5],
    [7, 0, 4, 6, 9, 1, 3, 2, 5, 8]
  ]

  predicate IsDigit(x: int) {
    0 <= x < 10
  }

  predicate DigitRow(r: seq<int>) {
    |r| == 10 && forall i :: 0 <= i < 10 ==> IsDigit(r[i])
  }

  /** No value occurs twice: a digit row with this property is a bijection on 0..9. */
  predicate Distinct(r: seq<int>) {
    forall i, j :: 0 <= i < j < |r| ==> r[i] != r[j]
  }

  lemma PermLowRow(i: int)
    requires 0 <= i < 4
    ensures DigitRow(PermutationTable[i]) && Distinct(PermutationTable[i])
  {
  }

  lemma PermHighRow(i: int)
    requires 4 <= i < 8
    ensures DigitRow(PermutationTable[i]) && Distinct(PermutationTable[i])
  {
  }

  /** Every row of the permutation table is a permutation of the digits. */
  lemma PermRow(i: int)
    requires 0 <= i < 8
    ensures DigitRow(PermutationTable[i]) && Distinct(PermutationTable[i])
  {
    if i < 4 { PermLowRow(i); } else { PermHighRow(i); }
  }

  /**
   * The group operation of D5: rotations are 0-4 and reflections 5-9.
   * `MulIsTable` shows it agrees with every entry of `MultiplicationTable`.
   */
  function Mul(a: int, b: int): (r: int)
    requires IsDigit(a) && IsDigit(b)
    ensures IsDigit(r)
  {
    if a < 5 && b < 5 then (a + b) % 5
    else if a < 5 then 5 + (a + b) % 5
    else if b < 5 then 5 + (a - b) % 5
    else (a - b) % 5
  }

  lemma MulIsTableRow(a: int, b: int)
    requires 0 <= a < 10 && IsDigit(b)
    ensures |MultiplicationTable[a]| == 10 && Mul(a, b) == MultiplicationTable[a][b]
  {
    var row := MultiplicationTable[a];
    if a == 0 { assert row == [0, 1, 2, 3, 4, 5, 6, 7, 8, 9]; }
    else if a == 1 { assert row == [1, 2, 3, 4, 0, 6, 7, 8, 9, 5]; }
    else if a == 2 { assert row == [2, 3, 4, 0, 1, 7, 8, 9, 5, 6]; }
    else if a == 3 { assert row == [3, 4, 0, 1, 2, 8, 9, 5, 6, 7]; }
    else if a == 4 { assert row == [4, 0, 1, 2, 3, 9, 5, 6, 7, 8]; }
    else if a == 5 { assert row == [5, 9, 8, 7, 6, 0, 4, 3, 2, 1]; }
    else if a == 6 { assert row == [6, 5, 9, 8, 7, 1, 0, 4, 3, 2]; }
    else if a == 7 { assert row == [7, 6, 5, 9, 8, 2, 1, 0, 4, 3]; }
    else if a == 8 { assert row == [8, 7, 6, 5, 9, 3, 2, 1, 0, 4]; }
    else { assert row == [9, 8, 7, 6, 5, 4, 3, 2, 1, 0]; }
  }

  /** The closed form is the source's table: `d[a][b]` for all digits. */
  lemma MulIsTable(a: int, b: int)
    requires IsDigit(a) && IsDigit(b)
    ensures Mul(a, b) == MultiplicationTable[a][b]
  {
    MulIsTableRow(a, b);
  }

  /** The permutation applied to the digit at position `i` from the right. */
  function Perm(i: nat, d: int): (r: int)
    requires IsDigit(d)
    ensures IsDigit(r)
  {
    PermRow(i % 8);
    PermutationTable[i % 8][d]
  }

  /** Numbers less than five apart have different remainders modulo five. */
  lemma ModDistinct(u: int, v: int)
    requires u != v && -5 < u - v < 5
    ensures u % 5 != v % 5
  {
    assert u == 5 * (u / 5) + u % 5 && v == 5 * (v / 5) + v % 5;
  }

  /** 0 is the identity of the table. */
  lemma MulIdentity(a: int)
    requires IsDigit(a)
    ensures Mul(0, a) == a && Mul(a, 0) == a
  {
  }

  /** Every element has an inverse: some `b` with `a·b = 0`. */
  lemma MulInverse(a: int) returns (b: int)
    requires IsDigit(a)
    ensures IsDigit(b) && Mul(a, b) == 0
  {
    b := if 1 <= a <= 4 then 5 - a else a;
  }

  /** Left multiplication by any element is injective (rows are permutations). */
  lemma MulLeftInjective(c: int, x: int, y: int)
    requires IsDigit(c) && IsDigit(x) && IsDigit(y) && x != y
    ensures Mul(c, x) != Mul(c, y)
  {
    if (x < 5) == (y < 5) {
      if c < 5 { ModDistinct(c + x, c + y); } else { ModDistinct(c - x, c - y); }
    }
  }

  /** Right multiplication by any element is injective (columns are permutations). */
  lemma MulRightInjective(x: int, y: int, p: int)
    requires IsDigit(x) && IsDigit(y) && IsDigit(p) && x != y
    ensures Mul(x, p) != Mul(y, p)
  {
    if (x < 5) == (y < 5) {
      if x < 5 { ModDistinct(x + p, y + p); } else { ModDistinct(x - p, y - p); }
    }
  }

  /** Each position's permutation is injective. */
  lemma PermInjective(i: nat, a: int, b: int)
    requires IsDigit(a) && IsDigit(b) && a != b
    ensures Perm(i, a) != Perm(i, b)
  {
    PermRow(i % 8);
  }

  predicate AllDigits(ds: seq<int>) {
    forall i :: 0 <= i < |ds| ==> IsDigit(ds[i])
  }

  /** `value.split('').map(Number)` for a string of ASCII digits. */
  function Digits(s: string): (ds: seq<int>)
    requires AllAsciiDigits(s)
    ensures |ds| == |s| && AllDigits(ds)
    ensures forall i :: 0 <= i < |s| ==> ds[i] == DigitValue(s[i])
  {
    seq(|s|, i requires 0 <= i < |s| => DigitValue(s[i]))
  }

  function Reverse(ds: seq<int>): (r: seq<int>)
    ensures |r| == |ds|
    ensures forall i :: 0 <= i < |ds| ==> r[i] == ds[|ds| - 1 - i]
  {
    seq(|ds|, i requires 0 <= i < |ds| => ds[|ds| - 1 - i])
  }

  /** The accumulator after the first `n` steps over the reversed digits:
      `c := d5[c][p[i mod 8][digit]]`, starting from 0. */
  function Acc(rd: seq<int>, n: nat): (c: int)
    requires AllDigits(rd) && n <= |rd|
    ensures IsDigit(c)
  {
    if n == 0 then 0 else Mul(Acc(rd, n - 1), Perm(n - 1, rd[n - 1]))
  }

  /** A digit string carries a correct Verhoeff check digit. */
  predicate VerhoeffValid(ds: seq<int>)
    requires AllDigits(ds)
  {
    Acc(Reverse(ds), |ds|) == 0
  }

  /** `validateVerhoeff`: runs the accumulator loop over the reversed digits. */
  method ValidateVerhoeff(value: string) returns (valid: bool)
    requires AllAsciiDigits(value)
    ensures valid <==> VerhoeffValid(Digits(value))
  {
    var reversed := Reverse(Digits(value));
    var c := 0;
    var i := 0;
    while i < |reversed|
      invariant 0 <= i <= |reversed|
      invariant c == Acc(reversed, i)
    {
      c := Mul(c, Perm(i, reversed[i]));
      i := i + 1;
    }
    valid := c == 0;
  }

  /** Equal prefixes give equal accumulators. */
  lemma {:induction false} AccAgree(r1: seq<int>, r2: seq<int>, n: nat)
    requires AllDigits(r1) && AllDigits(r2) && n <= |r1| && n <= |r2|
    requires forall i :: 0 <= i < n ==> r1[i] == r2[i]
    ensures Acc(r1, n) == Acc(r2, n)
    decreases n
  {
    if n > 0 {
      AccAgree(r1, r2, n - 1);
      assert r1[n - 1] == r2[n - 1];
    }
  }

  /** Once the accumulators part at the changed position they never meet again. */
  lemma {:induction false} AccSeparate(r1: seq<int>, r2: seq<int>, k: nat, n: nat)
    requires AllDigits(r1) && AllDigits(r2) && |r1| == |r2|
    requires k < n <= |r1|
    requires r1[k] != r2[k]
    requires forall i :: 0 <= i < |r1| && i != k ==> r1[i] == r2[i]
    ensures Acc(r1, n) != Acc(r2, n)
    decreases n
  {
    if n == k + 1 {
      AccAgree(r1, r2, k);
      PermInjective(k, r1[k], r2[k]);
      MulLeftInjective(Acc(r1, k), Perm(k, r1[k]), Perm(k, r2[k]));
    } else {
      AccSeparate(r1, r2, k, n - 1);
      MulRightInjective(Acc(r1, n - 1), Acc(r2, n - 1), Perm(n - 1, r1[n - 1]));
    }
  }

  /** Changing any single digit of a checksum-valid number makes it invalid. */
  lemma SubstitutionDetected(ds: seq<int>, es: seq<int>, k: nat)
    requires AllDigits(ds) && AllDigits(es) && |ds| == |es|
    requires k < |ds| && ds[k] != es[k]
    requires forall i :: 0 <= i < |ds| && i != k ==> ds[i] == es[i]
    requires VerhoeffValid(ds)
    ensures !VerhoeffValid(es)
  {
    var r1, r2 := Reverse(ds), Reverse(es);
    var j := |ds| - 1 - k;
    forall i | 0 <= i < |r1| && i != j
      ensures r1[i] == r2[i]
    {
      assert r1[i] == ds[|ds| - 1 - i];
    }
    AccSeparate(r1, r2, j, |r1|);
  }

  /** Why a number was refused, in the order the checks run. */
  datatype AadhaarError =
    | Required            // missing or empty input
    | WrongLength         // not 12 characters once whitespace is removed
    | NotNumeric          // a character other than 0-9
    | BadFirstDigit       // starts with 0 or 1
    | ChecksumFailed      // Verhoeff check digit wrong

  function ErrorMessage(e: AadhaarError): (msg: string)
    ensures |msg| > 0
  {
    match e
    case Required => "Aadhaar number is required"
    case WrongLength => "Aadhaar number must be exactly 12 digits"
    case NotNumeric => "Aadhaar number must contain only numeric digits"
    case BadFirstDigit => "Aadhaar number is invalid (must start with 2-9)"
    case ChecksumFailed => "Aadhaar number failed checksum validation (invalid structure)"
  }

  /** A cleaned candidate number: twelve ASCII digits, the first 2-9, with a
      correct Verhoeff check digit. */
  predicate WellFormed(cleaned: string) {
    && |cleaned| == 12
    && AllAsciiDigits(cleaned)
    && cleaned[0] >= '2'
    && VerhoeffValid(Digits(cleaned))
  }

  /** The checks `validateAadhaar` runs on the whitespace-free string, in order;
      the first failing one is reported. */
  function ValidateCleaned(cleaned: string): (r: Result<string, AadhaarError>)
    ensures r.Success? <==> WellFormed(cleaned)
    ensures r.Success? ==> r.value == cleaned
    ensures r == Failure(WrongLength) <==> Utf16Length(cleaned) != 12
    ensures r == Failure(NotNumeric) <==> Utf16Length(cleaned) == 12 && !AllAsciiDigits(cleaned)
    ensures r == Failure(BadFirstDigit) <==>
      |cleaned| == 12 && AllAsciiDigits(cleaned) && cleaned[0] < '2'
    ensures r == Failure(ChecksumFailed) <==>
      |cleaned| == 12 && AllAsciiDigits(cleaned) && cleaned[0] >= '2' && !VerhoeffValid(Digits(cleaned))
    ensures r != Failure(Required)
  {
    if Utf16Length(cleaned) != 12 then Failure(WrongLength)
    else if !AllAsciiDigits(cleaned) then Failure(NotNumeric)
    else if DigitValue(cleaned[0]) < 2 then Failure(BadFirstDigit)
    else if !VerhoeffValid(Digits(cleaned)) then Failure(ChecksumFailed)
    else Success(cleaned)
  }

  /** `validateAadhaar` on a string input (`None` is a missing field): a falsy
      input is refused first, then whitespace is removed and the checks run. */
  function ValidateAadhaar(input: Option<string>): (r: Result<string, AadhaarError>)
    ensures r == Failure(Required) <==> input.None? || input == Some("")
    ensures r.Success? <==> input.Some? && input.value != "" && WellFormed(StripWhitespace(input.value))
    ensures r.Success? ==> r.value == StripWhitespace(input.value)
  {
    if input.None? || input.value == "" then Failure(Required)
    else ValidateCleaned(StripWhitespace(input.value))
  }

  /** A valid number with any one digit changed to another digit is refused. */
  lemma MistypedDigitRefused(s: string, k: nat, d: char)
    requires WellFormed(s)
    requires k < 12 && IsAsciiDigit(d) && d != s[k]
    ensures ValidateAadhaar(Some(s[k := d])).Failure?
  {
    var t := s[k := d];
    StripDigits(t);
    assert Digits(s)[k] != Digits(t)[k];
    SubstitutionDetected(Digits(s), Digits(t), k);
  }

  /** The reversed digits of the worked example 234567890124. */
  const SampleReversed: seq<int> := [4, 2, 1, 0, 9, 8, 7, 6, 5, 4, 3, 2]

  /** The worked example's digits, read right to left. */
  lemma SampleReverse()
    requires AllAsciiDigits("234567890124")
    ensures Reverse(Digits("234567890124")) == SampleReversed
  {
    var r := Reverse(Digits("234567890124"));
    forall i | 0 <= i < 12
      ensures r[i] == SampleReversed[i]
    {
      assert r[i] == DigitValue("234567890124"[11 - i]);
    }
  }

  /** The first six steps of the accumulator on the worked example. */
  lemma SampleTraceFirstHalf()
    ensures Acc(SampleReversed, 6) == 6
  {
    assert Acc(SampleReversed, 1) == 4;
    assert Acc(SampleReversed, 2) == 6;
    assert Acc(SampleReversed, 3) == 3;
    assert Acc(SampleReversed, 4) == 6;
    assert Acc(SampleReversed, 5) == 6;
  }

  /** The remaining six steps bring the accumulator to 0. */
  lemma SampleTrace()
    ensures Acc(SampleReversed, 12) == 0
  {
    SampleTraceFirstHalf();
    assert Acc(SampleReversed, 7) == 7;
    assert Acc(SampleReversed, 8) == 9;
    assert Acc(SampleReversed, 9) == 4;
    assert Acc(SampleReversed, 10) == 1;
    assert Acc(SampleReversed, 11) == 4;
  }

  lemma SampleChecksum()
    ensures VerhoeffValid(Digits("234567890124"))
  {
    SampleDigitsOnly();
    SampleReverse();
    SampleTrace();
  }

  /** Two non-empty inputs with the same cleaned form get the same verdict. */
  lemma SameCleanedSameVerdict(x: string, y: string)
    requires x != "" && y != "" && StripWhitespace(x) == StripWhitespace(y)
    ensures ValidateAadhaar(Some(x)) == ValidateAadhaar(Some(y))
  {
  }

  lemma StripSkipsOne(a: string, b: string, w: char)
    requires IsJsWhitespace(w)
    ensures StripWhitespace(a + [w] + b) == StripWhitespace(a + b)
  {
    assert StripWhitespace([w]) == StripWhitespace([w][1..]);
    StripConcat(a, [w]);
    assert StripWhitespace(a + [w]) == StripWhitespace(a);
    StripConcat(a + [w], b);
    StripConcat(a, b);
  }

  /** Whitespace anywhere in a non-empty input is ignored. */
  lemma WhitespaceIgnored(a: string, b: string, w: char)
    requires IsJsWhitespace(w) && a + b != ""
    ensures ValidateAadhaar(Some(a + [w] + b)) == ValidateAadhaar(Some(a + b))
  {
    assert |a + [w] + b| > 0;
    StripSkipsOne(a, b, w);
    SameCleanedSameVerdict(a + [w] + b, a + b);
  }

  lemma SampleDigitsOnly()
    ensures AllAsciiDigits("234567890124") && AllAsciiDigits("234567890125")
  {
  }

  lemma SampleWellFormed()
    ensures WellFormed("234567890124")
  {
    SampleDigitsOnly();
    SampleChecksum();
  }

  lemma SampleValidCleaned()
    ensures ValidateCleaned("234567890124") == Success("234567890124")
  {
    SampleWellFormed();
  }

  lemma SampleSpacing()
    ensures "234567" + [' '] + "890124" == "234567 890124"
    ensures "234567" + "890124" == "234567890124"
  {
  }

  /** A worked example: 234567890124 passes, and so does it with a space inside. */
  lemma SampleAccepted()
    ensures ValidateAadhaar(Some("234567890124")) == Success("234567890124")
    ensures ValidateAadhaar(Some("234567 890124")) == Success("234567890124")
  {
    SampleValidCleaned();
    StripDigits("234567890124");
    SampleSpacing();
    WhitespaceIgnored("234567", "890124", ' ');
  }

  lemma SampleNeighbourUpdate()
    ensures "234567890124"[11 := '5'] == "234567890125"
  {
  }

  lemma SampleNeighbourShape()
    ensures Utf16Length("234567890125") == 12 && "234567890125"[0] >= '2'
  {
  }

  lemma SampleNeighbourFails()
    ensures ValidateCleaned("234567890125").Failure?
  {
    SampleWellFormed();
    MistypedDigitRefused("234567890124", 11, '5');
    SampleNeighbourUpdate();
    StripDigits("234567890125");
  }

  /** Its neighbour 234567890125 fails the checksum. */
  lemma SampleNeighbourRefused()
    ensures ValidateAadhaar(Some("234567890125")) == Failure(ChecksumFailed)
  {
    SampleNeighbourFails();
    SampleNeighbourShape();
    SampleDigitsOnly();
    StripDigits("234567890125");
  }
}
