/** Decimal digits: printing naturals and reading them back.

    Shared by the JSON printer, canonical decimals and checkpoint file names.
 */
module Digits {

  predicate IsDigit(c: char) { '0' <= c <= '9' }

  predicate AllDigits(s: string) {
    forall i :: 0 <= i < |s| ==> IsDigit(s[i])
  }

  function DigitChar(d: nat): char
    requires d < 10
  {
    ('0' as int + d) as char
  }

  function DigitValue(c: char): nat
    requires IsDigit(c)
  {
    c as int - '0' as int
  }

  function ToText(n: nat): string {
    if n < 10 then [DigitChar(n)] else ToText(n / 10) + [DigitChar(n % 10)]
  }

  function FromText(s: string): nat
    requires AllDigits(s)
  {
    if s == "" then 0 else FromText(s[..|s| - 1]) * 10 + DigitValue(s[|s| - 1])
  }

  function Pow10(k: nat): nat {
    if k == 0 then 1 else 10 * Pow10(k - 1)
  }

  function Zeros(k: nat): (s: string)
    ensures |s| == k && AllDigits(s) && forall i :: 0 <= i < k ==> s[i] == '0'
  {
    if k == 0 then "" else Zeros(k - 1) + "0"
  }

  /** The digit strings a number is printed as. */
  predicate Numeral(s: string) {
    s != "" && AllDigits(s) && (|s| > 1 ==> s[0] != '0')
  }

  lemma {:induction false} ToTextIsNumeral(n: nat)
    ensures Numeral(ToText(n))
    ensures n > 0 ==> ToText(n)[0] != '0'
    ensures FromText(ToText(n)) == n
  {
    if n >= 10 {
      ToTextIsNumeral(n / 10);
      assert ToText(n)[..|ToText(n)| - 1] == ToText(n / 10);
    }
  }

  lemma {:induction false} Pow10Positive(k: nat)
    ensures Pow10(k) > 0
  {
    if k > 0 { Pow10Positive(k - 1); }
  }

  lemma {:induction false} Pow10Adds(a: nat, b: nat)
    ensures Pow10(a + b) == Pow10(a) * Pow10(b)
  {
    if a > 0 {
      Pow10Adds(a - 1, b);
      assert Pow10(a + b) == 10 * (Pow10(a - 1) * Pow10(b));
    }
  }

  lemma {:induction false} FromTextBound(s: string)
    requires AllDigits(s)
    ensures FromText(s) < Pow10(|s|)
  {
    if s != "" { FromTextBound(s[..|s| - 1]); }
  }

  lemma {:induction false} FromTextConcat(a: string, b: string)
    requires AllDigits(a) && AllDigits(b)
    ensures AllDigits(a + b) && FromText(a + b) == FromText(a) * Pow10(|b|) + FromText(b)
  {
    if b == "" {
      assert a + b == a;
    } else {
      var b' := b[..|b| - 1];
      FromTextConcat(a, b');
      assert (a + b)[..|a + b| - 1] == a + b';
      assert FromText(a) * Pow10(|b|) == FromText(a) * Pow10(|b'|) * 10;
    }
  }

  lemma {:induction false} FromTextZeros(k: nat)
    ensures FromText(Zeros(k)) == 0
  {
    if k > 0 {
      FromTextZeros(k - 1);
      assert Zeros(k)[..k - 1] == Zeros(k - 1);
    }
  }

  /** Digit strings of one length are determined by their value. */
  lemma {:induction false} FixedLengthUnique(a: string, b: string)
    requires AllDigits(a) && AllDigits(b) && |a| == |b| && FromText(a) == FromText(b)
    ensures a == b
  {
    if a != "" {
      var a', b' := a[..|a| - 1], b[..|b| - 1];
      assert FromText(a) % 10 == DigitValue(a[|a| - 1]) && FromText(a) / 10 == FromText(a');
      assert FromText(b) % 10 == DigitValue(b[|b| - 1]) && FromText(b) / 10 == FromText(b');
      FixedLengthUnique(a', b');
      assert a == a' + [a[|a| - 1]] && b == b' + [b[|b| - 1]];
    }
  }

  lemma {:induction false} LeadingDigitBound(s: string)
    requires AllDigits(s) && s != "" && s[0] != '0'
    ensures FromText(s) >= Pow10(|s| - 1)
  {
    if |s| == 1 {
      assert s[..0] == "";
    } else {
      LeadingDigitBound(s[..|s| - 1]);
    }
  }

  lemma {:induction false} Pow10Monotone(a: nat, b: nat)
    requires a <= b
    ensures Pow10(a) <= Pow10(b)
  {
    if a < b { Pow10Monotone(a, b - 1); }
  }

  /** Numerals are determined by their value. */
  lemma NumeralUnique(a: string, b: string)
    requires Numeral(a) && Numeral(b) && FromText(a) == FromText(b)
    ensures a == b
  {
    NumeralLength(a, b);
    NumeralLength(b, a);
    FixedLengthUnique(a, b);
  }

  lemma NumeralLength(a: string, b: string)
    requires Numeral(a) && Numeral(b) && FromText(a) == FromText(b)
    ensures |a| <= |b|
  {
    if |a| > |b| {
      LeadingDigitBound(a);
      FromTextBound(b);
      Pow10Monotone(|b|, |a| - 1);
    }
  }

  /** How many digits the text starts with. */
  function LeadingDigits(s: string): (n: nat)
    ensures n <= |s| && AllDigits(s[..n]) && (n < |s| ==> !IsDigit(s[n]))
  {
    if s != "" && IsDigit(s[0]) then
      var n := LeadingDigits(s[1..]);
      assert s[..n + 1] == [s[0]] + s[1..][..n];
      n + 1
    else 0
  }

  lemma {:induction false} LeadingDigitsOf(a: string, b: string)
    requires AllDigits(a) && (b == "" || !IsDigit(b[0]))
    ensures LeadingDigits(a + b) == |a|
  {
    if a == "" {
      assert a + b == b;
    } else {
      assert (a + b)[1..] == a[1..] + b;
      LeadingDigitsOf(a[1..], b);
    }
  }
}
