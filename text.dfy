/** The string primitives the pipeline relies on: `String.indexOf(char, from)`,
    `String.toLowerCase()` (ASCII letters only) and `String.format("%05d", n)`
    for non-negative `n`, with the decimal reading that inverts it. */
module Text {

  /** Position of the first `c` in `s` at or after `from`, or -1 when there is
      none (also when `from` is past the end), as `String.indexOf` answers. */
  function IndexOf(s: string, c: char, from: nat): (r: int)
    ensures r == -1 || (from <= r < |s| && s[r] == c)
    decreases |s| - from
  {
    if from >= |s| then -1
    else if s[from] == c then from
    else IndexOf(s, c, from + 1)
  }

  /** The answer is the first occurrence: -1 exactly when `c` does not occur
      from `from` on, and otherwise no `c` comes before the answer. */
  lemma {:induction false} IndexOfFirst(s: string, c: char, from: nat)
    ensures IndexOf(s, c, from) == -1 <==> forall i :: from <= i < |s| ==> s[i] != c
    ensures IndexOf(s, c, from) != -1 ==> forall i :: from <= i < IndexOf(s, c, from) ==> s[i] != c
    decreases |s| - from
  {
    if from < |s| && s[from] != c {
      IndexOfFirst(s, c, from + 1);
    }
  }

  /** Conversely, a `c` at `r` with none before it from `from` on is what
      `IndexOf` answers. */
  lemma {:induction false} IndexOfAt(s: string, c: char, from: nat, r: nat)
    requires from <= r < |s| && s[r] == c
    requires forall i :: from <= i < r ==> s[i] != c
    ensures IndexOf(s, c, from) == r
    decreases r - from
  {
    if from < r {
      IndexOfAt(s, c, from + 1, r);
    }
  }

  predicate IsUpper(c: char) { 'A' <= c <= 'Z' }

  /** Lower-cases an ASCII capital letter and leaves every other character. */
  function LowerChar(c: char): (r: char)
    ensures !IsUpper(r)
    ensures IsUpper(c) ==> r as int == c as int + 32
    ensures !IsUpper(c) ==> r == c
  {
    if IsUpper(c) then (c as int + 32) as char else c
  }

  function ToLower(s: string): (r: string)
    ensures |r| == |s|
    ensures forall i :: 0 <= i < |s| ==> r[i] == LowerChar(s[i])
  {
    seq(|s|, i requires 0 <= i < |s| => LowerChar(s[i]))
  }

  /** Lower-casing leaves no capital letter behind and is idempotent, so the
      counter keys and the values handed to the matchers are already in
      canonical form. */
  lemma ToLowerCanonical(s: string)
    ensures forall i :: 0 <= i < |s| ==> !IsUpper(ToLower(s)[i])
    ensures ToLower(ToLower(s)) == ToLower(s)
  {
    var t := ToLower(s);
    assert forall i :: 0 <= i < |t| ==> ToLower(t)[i] == t[i];
  }

  predicate IsDigit(c: char) { '0' <= c <= '9' }

  predicate AllDigits(s: string) { forall i :: 0 <= i < |s| ==> IsDigit(s[i]) }

  function DigitChar(d: nat): (c: char)
    requires d < 10
    ensures IsDigit(c) && c as int - '0' as int == d
  {
    ('0' as int + d) as char
  }

  function DigitValue(c: char): nat
    requires IsDigit(c)
  {
    c as int - '0' as int
  }

  /** The shortest decimal rendering of `n` ("0" for zero). */
  function DecimalDigits(n: nat): (r: string)
    ensures 1 <= |r|
    decreases n
  {
    if n < 10 then [DigitChar(n)] else DecimalDigits(n / 10) + [DigitChar(n % 10)]
  }

  /** The number a digit string denotes, most significant digit first. */
  function ParseDecimal(s: string): nat
    requires AllDigits(s)
  {
    if s == [] then 0 else ParseDecimal(s[..|s| - 1]) * 10 + DigitValue(s[|s| - 1])
  }

  function Zeros(k: nat): (r: string)
    ensures |r| == k
  {
    if k == 0 then [] else Zeros(k - 1) + ['0']
  }

  /** `String.format("%05d", n)`: the decimal digits of `n`, left-padded with
      zeros to at least five characters, so every number below 100000 takes
      exactly five. */
  function Format05(n: nat): (r: string)
    ensures 5 <= |r|
    ensures n < 100000 ==> |r| == 5
  {
    var d := DecimalDigits(n);
    assert n < 100000 ==> |d| <= 5 by {
      if n < 100000 {
        DecimalDigitsLength(n, 5);
      }
    }
    if |d| >= 5 then d else Zeros(5 - |d|) + d
  }

  /** The rendering is made of digits and reads back to the number. */
  lemma {:induction false} ParseDecimalDigits(n: nat)
    ensures AllDigits(DecimalDigits(n)) && ParseDecimal(DecimalDigits(n)) == n
    decreases n
  {
    if n >= 10 {
      var d := DecimalDigits(n);
      ParseDecimalDigits(n / 10);
      assert d[..|d| - 1] == DecimalDigits(n / 10);
    }
  }

  /** A string of k digits denotes a number below 10^k. */
  lemma {:induction false} ParseDecimalBound(s: string)
    requires AllDigits(s)
    ensures ParseDecimal(s) < Pow10(|s|)
    decreases |s|
  {
    if s != [] {
      ParseDecimalBound(s[..|s| - 1]);
    }
  }

  /** A number below 10^k needs at most k digits. */
  lemma {:induction false} DecimalDigitsLength(n: nat, k: nat)
    requires 1 <= k && n < Pow10(k)
    ensures |DecimalDigits(n)| <= k
    decreases k
  {
    if n >= 10 {
      assert Pow10(1) == 10;
      DecimalDigitsLength(n / 10, k - 1);
    }
  }

  function Pow10(k: nat): (r: nat)
    ensures r >= 1
  {
    if k == 0 then 1 else 10 * Pow10(k - 1)
  }

  /** Leading zeros do not change the value a digit string denotes. */
  lemma {:induction false} ParseDecimalLeadingZeros(k: nat, s: string)
    requires AllDigits(s)
    ensures AllDigits(Zeros(k) + s)
    ensures ParseDecimal(Zeros(k) + s) == ParseDecimal(s)
    decreases |s|
  {
    var z := Zeros(k) + s;
    if s == [] {
      assert z == Zeros(k);
      ZerosParseToZero(k);
    } else {
      assert z[..|z| - 1] == Zeros(k) + s[..|s| - 1];
      ParseDecimalLeadingZeros(k, s[..|s| - 1]);
    }
  }

  lemma {:induction false} ZerosParseToZero(k: nat)
    ensures AllDigits(Zeros(k)) && ParseDecimal(Zeros(k)) == 0
    decreases k
  {
    if k > 0 {
      assert Zeros(k)[..k - 1] == Zeros(k - 1);
      ZerosParseToZero(k - 1);
    }
  }

  /** The padded rendering is made of digits and reads back to the number:
      the padding does not change the value. */
  lemma Format05RoundTrip(n: nat)
    ensures AllDigits(Format05(n)) && ParseDecimal(Format05(n)) == n
  {
    var d := DecimalDigits(n);
    ParseDecimalDigits(n);
    if |d| < 5 {
      ParseDecimalLeadingZeros(5 - |d|, d);
    }
  }
}
