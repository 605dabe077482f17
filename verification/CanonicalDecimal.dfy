/** Canonical decimal text: `canonical_decimal_text` and the JSON decimal validator. */
module CanonicalDecimals {
  import opened Wrappers
  import opened Digits

  /** A `decimal.Decimal`: sign, digits and exponent, or an infinity or NaN. */
  datatype Decimal = Finite(negative: bool, coefficient: nat, exponent: int) | NonFinite

  datatype DecimalError = NotFinite | Negative | NotText | NotANumber | NotCanonical

  /** Ten to the power `exponent`. */
  ghost function Scale(exponent: int): (r: real)
    ensures r > 0.0
    decreases if exponent < 0 then -exponent else exponent
  {
    if exponent == 0 then 1.0
    else if exponent > 0 then 10.0 * Scale(exponent - 1)
    else Scale(exponent + 1) / 10.0
  }

  ghost function Amount(coefficient: nat, exponent: int): real {
    (coefficient as real) * Scale(exponent)
  }

  ghost function Value(d: Decimal): real
    requires d.Finite?
  {
    if d.negative then -Amount(d.coefficient, d.exponent) else Amount(d.coefficient, d.exponent)
  }

  function Padded(digits: string, length: nat): string {
    if |digits| < length then Zeros(length - |digits|) + digits else digits
  }

  /** `format(value, "f")` without the sign: a zero loses a positive exponent. */
  function FormatFixed(coefficient: nat, exponent: int): string {
    if exponent >= 0 then
      if coefficient == 0 then "0" else ToText(coefficient) + Zeros(exponent)
    else
      var digits := Padded(ToText(coefficient), 1 - exponent);
      digits[..|digits| + exponent] + "." + digits[|digits| + exponent..]
  }

  function RStrip(s: string, c: char): string {
    if s != "" && s[|s| - 1] == c then RStrip(s[..|s| - 1], c) else s
  }

  function CanonicalText(d: Decimal): Result<string, DecimalError> {
    if d.NonFinite? then Err(NotFinite)
    else if d.negative && d.coefficient > 0 then Err(Negative)
    else
      var text := (if d.negative then "-" else "") + FormatFixed(d.coefficient, d.exponent);
      var stripped := if '.' in text then RStrip(RStrip(text, '0'), '.') else text;
      Ok(if stripped == "" || stripped == "-0" then "0" else stripped)
  }

  /** A numeral, optionally followed by a point and a fraction that ends in a non-zero digit. */
  /** Whole part and fraction of a canonical spelling. */
  predicate CanonicalParts(whole: string, fraction: string) {
    Numeral(whole) && AllDigits(fraction) && (fraction == "" || fraction[|fraction| - 1] != '0')
  }

  ghost predicate Spells(s: string, whole: string, fraction: string) {
    && CanonicalParts(whole, fraction)
    && s == if fraction == "" then whole else whole + "." + fraction
  }

  /** The language of `CANONICAL_DECIMAL_PATTERN`. */
  ghost predicate MatchesPattern(s: string) {
    exists whole, fraction :: Spells(s, whole, fraction)
  }

  ghost function Denotes(whole: string, fraction: string): real
    requires AllDigits(whole) && AllDigits(fraction)
  {
    Amount(FromText(whole + fraction), -|fraction|)
  }

  lemma {:induction false} ScaleAdds(a: int, k: nat)
    ensures Scale(a) == (Pow10(k) as real) * Scale(a - k)
  {
    if k > 0 {
      ScaleAdds(a, k - 1);
      var p, x := Pow10(k - 1) as real, Scale(a - k);
      assert Scale(a - k + 1) == 10.0 * x;
      assert p * (10.0 * x) == (10.0 * p) * x;
    }
  }

  lemma {:induction false} RStripShape(s: string, c: char)
    ensures var r := RStrip(s, c);
            && |r| <= |s| && r == s[..|r|]
            && (r == "" || r[|r| - 1] != c)
            && forall i :: |r| <= i < |s| ==> s[i] == c
  {
    if s != "" && s[|s| - 1] == c {
      RStripShape(s[..|s| - 1], c);
    }
  }

  lemma {:induction false} RStripAfterPoint(whole: string, fraction: string)
    ensures RStrip(whole + "." + fraction, '0') == whole + "." + RStrip(fraction, '0')
  {
    var s := whole + "." + fraction;
    if fraction != "" && fraction[|fraction| - 1] == '0' {
      assert s[..|s| - 1] == whole + "." + fraction[..|fraction| - 1];
      RStripAfterPoint(whole, fraction[..|fraction| - 1]);
    } else {
      assert RStrip(fraction, '0') == fraction;
    }
  }

  /** Dropping trailing zeros of the fraction keeps the value. */
  lemma {:induction false} StrippedFraction(whole: string, fraction: string)
    requires AllDigits(whole) && AllDigits(fraction)
    ensures AllDigits(RStrip(fraction, '0'))
    ensures Denotes(whole, fraction) == Denotes(whole, RStrip(fraction, '0'))
  {
    if fraction != "" && fraction[|fraction| - 1] == '0' {
      var shorter := fraction[..|fraction| - 1];
      StrippedFraction(whole, shorter);
      assert (whole + fraction)[..|whole + fraction| - 1] == whole + shorter;
      var n, x := FromText(whole + shorter) as real, Scale(-|shorter|);
      assert FromText(whole + fraction) as real == n * 10.0;
      assert (n * 10.0) * (x / 10.0) == n * x;
    }
  }

  lemma LeadingZeros(k: nat, digits: string)
    requires AllDigits(digits)
    ensures FromText(Zeros(k) + digits) == FromText(digits)
  {
    FromTextConcat(Zeros(k), digits);
    FromTextZeros(k);
    assert 0 * Pow10(|digits|) == 0;
  }

  lemma PaddedDigits(coefficient: nat, length: nat)
    ensures var p := Padded(ToText(coefficient), length);
            |p| >= length && AllDigits(p) && FromText(p) == coefficient
  {
    ToTextIsNumeral(coefficient);
    if |ToText(coefficient)| < length {
      LeadingZeros(length - |ToText(coefficient)|, ToText(coefficient));
    }
  }

  /** What `format(…, "f")` prints for a negative exponent: a numeral, a point, a fraction. */
  function FixedParts(coefficient: nat, exponent: int): (parts: (string, string))
    requires exponent < 0
    ensures FormatFixed(coefficient, exponent) == parts.0 + "." + parts.1
    ensures |parts.1| == -exponent
  {
    var digits := Padded(ToText(coefficient), 1 - exponent);
    (digits[..|digits| + exponent], digits[|digits| + exponent..])
  }

  lemma FixedPartsSpell(coefficient: nat, exponent: int)
    requires exponent < 0
    ensures var (whole, fraction) := FixedParts(coefficient, exponent);
            Numeral(whole) && AllDigits(fraction) && FromText(whole + fraction) == coefficient
  {
    var padded := Padded(ToText(coefficient), 1 - exponent);
    PaddedDigits(coefficient, 1 - exponent);
    ToTextIsNumeral(coefficient);
    WholeIsNumeral(ToText(coefficient), -exponent);
    SplitDigits(padded, |padded| + exponent);
  }

  lemma SplitDigits(digits: string, at: nat)
    requires AllDigits(digits) && at <= |digits|
    ensures AllDigits(digits[at..]) && digits[..at] + digits[at..] == digits
  {
  }

  lemma WholeIsNumeral(digits: string, places: nat)
    requires Numeral(digits) && places > 0
    ensures var padded := Padded(digits, 1 + places);
            && |padded| > places && AllDigits(padded)
            && Numeral(padded[..|padded| - places])
  {
    var padded := Padded(digits, 1 + places);
    var whole := padded[..|padded| - places];
    if |digits| < 1 + places {
      assert whole == "0";
    } else {
      assert whole[0] == digits[0];
    }
  }

  lemma ZeroParts(exponent: int)
    requires exponent < 0
    ensures FixedParts(0, exponent).0 == "0" && RStrip(FixedParts(0, exponent).1, '0') == ""
  {
    var digits := Padded(ToText(0), 1 - exponent);
    assert ToText(0) == "0";
    assert forall i :: 0 <= i < |digits| ==> digits[i] == '0';
    RStripShape(digits[1..], '0');
  }

  /** Every non-negative finite decimal prints as a spelling of its own value. */
  lemma CanonicalTextSpells(d: Decimal) returns (whole: string, fraction: string)
    requires d.Finite? && (d.negative ==> d.coefficient == 0)
    ensures CanonicalText(d).Ok?
    ensures Spells(CanonicalText(d).value, whole, fraction)
    ensures Denotes(whole, fraction) == Value(d)
  {
    if d.coefficient == 0 {
      ZeroText(d);
      ZeroSpelled(d);
      whole, fraction := "0", "";
    } else if d.exponent >= 0 {
      whole, fraction := IntegerSpelled(d);
    } else {
      whole, fraction := PointSpelled(d);
    }
  }

  lemma ZeroSpelled(d: Decimal)
    requires d.Finite? && d.coefficient == 0
    ensures Spells("0", "0", "") && Denotes("0", "") == Value(d)
  {
    assert "0" + "" == "0" && FromText("0"[..0]) == 0 && FromText("0") == 0;
    assert Amount(0, 0) == 0.0;
  }

  lemma PointSpelled(d: Decimal) returns (whole: string, fraction: string)
    requires d.Finite? && !d.negative && d.exponent < 0
    ensures CanonicalText(d).Ok?
    ensures Spells(CanonicalText(d).value, whole, fraction)
    ensures Denotes(whole, fraction) == Value(d)
  {
    FixedPartsSpell(d.coefficient, d.exponent);
    var (w, f) := FixedParts(d.coefficient, d.exponent);
    StrippedFraction(w, f);
    RStripShape(f, '0');
    PointedText(d, w, f);
    whole, fraction := w, RStrip(f, '0');
  }

  lemma PointedText(d: Decimal, w: string, f: string)
    requires d.Finite? && !d.negative && d.exponent < 0
    requires Numeral(w) && AllDigits(f) && AllDigits(RStrip(f, '0'))
    requires FormatFixed(d.coefficient, d.exponent) == w + "." + f
    ensures var kept := RStrip(f, '0');
            CanonicalText(d) == Ok(if kept == "" then w else w + "." + kept)
  {
    var text := w + "." + f;
    RStripAfterPoint(w, f);
    PointStripped(w, RStrip(f, '0'));
    assert "" + text == text;
    assert text[|w|] == '.';
    assert IsDigit(w[0]);
  }

  lemma ZeroText(d: Decimal)
    requires d.Finite? && d.coefficient == 0
    ensures CanonicalText(d) == Ok("0")
  {
    var sign := if d.negative then "-" else "";
    var zero := if d.negative then "-0" else "0";
    assert sign + "0" == zero;
    if d.exponent >= 0 {
      assert '.' !in zero;
    } else {
      ZeroStripped(sign, zero, d.exponent);
    }
  }

  /** A signed zero with decimal places keeps only its sign and its zero. */
  lemma ZeroStripped(sign: string, zero: string, exponent: int)
    requires sign + "0" == zero && exponent < 0
    ensures var text := sign + FormatFixed(0, exponent);
            '.' in text && RStrip(RStrip(text, '0'), '.') == zero
  {
    ZeroParts(exponent);
    var f := FixedParts(0, exponent).1;
    var text := sign + FormatFixed(0, exponent);
    assert text == zero + "." + f;
    assert text[|zero|] == '.';
    RStripAfterPoint(zero, f);
    PointStripped(zero, "");
  }

  lemma IntegerSpelled(d: Decimal) returns (whole: string, fraction: string)
    requires d.Finite? && !d.negative && d.coefficient > 0 && d.exponent >= 0
    ensures CanonicalText(d).Ok?
    ensures Spells(CanonicalText(d).value, whole, fraction)
    ensures Denotes(whole, fraction) == Value(d)
  {
    whole, fraction := FormatFixed(d.coefficient, d.exponent), "";
    IntegerDigits(d.coefficient, d.exponent);
    IntegerAmount(d.coefficient, d.exponent);
    assert "" + whole == whole && whole + fraction == whole;
    assert '.' !in whole;
    assert IsDigit(whole[0]);
  }

  lemma IntegerDigits(coefficient: nat, exponent: nat)
    requires coefficient > 0
    ensures var s := ToText(coefficient) + Zeros(exponent);
            Numeral(s) && FromText(s) == coefficient * Pow10(exponent)
  {
    ToTextIsNumeral(coefficient);
    FromTextConcat(ToText(coefficient), Zeros(exponent));
    FromTextZeros(exponent);
  }

  lemma {:induction false} IntegerAmount(coefficient: nat, exponent: nat)
    ensures Amount(coefficient * Pow10(exponent), 0) == Amount(coefficient, exponent)
  {
    ScaleIsPow10(exponent);
    RealProduct(coefficient, Pow10(exponent));
  }

  lemma {:induction false} ScaleIsPow10(k: nat)
    ensures Scale(k) == Pow10(k) as real
  {
    if k > 0 {
      ScaleIsPow10(k - 1);
    }
  }

  lemma {:induction false} RealProduct(a: nat, b: nat)
    ensures (a * b) as real == (a as real) * (b as real)
  {
    if a > 0 {
      RealProduct(a - 1, b);
      assert a * b == (a - 1) * b + b;
    }
  }

  lemma PointStripped(whole: string, fraction: string)
    requires whole != "" && whole[|whole| - 1] != '.'
    requires AllDigits(fraction)
    ensures RStrip(whole + "." + fraction, '.') == if fraction == "" then whole else whole + "." + fraction
  {
    var s := whole + "." + fraction;
    if fraction == "" {
      assert s[..|s| - 1] == whole;
    }
  }

  /** Two spellings of one value are the same text. */
  lemma SpellingUnique(w1: string, f1: string, w2: string, f2: string)
    requires CanonicalParts(w1, f1) && CanonicalParts(w2, f2) && Denotes(w1, f1) == Denotes(w2, f2)
    ensures w1 == w2 && f1 == f2
  {
    FractionNotLonger(w1, f1, w2, f2);
    FractionNotLonger(w2, f2, w1, f1);
    SameNumber(FromText(w1 + f1), FromText(w2 + f2), -|f1|);
    SameDigits(w1, f1, w2, f2);
    FixedLengthUnique(f1, f2);
    NumeralUnique(w1, w2);
  }

  lemma SameDigits(w1: string, f1: string, w2: string, f2: string)
    requires AllDigits(w1) && AllDigits(f1) && AllDigits(w2) && AllDigits(f2) && |f1| == |f2|
    requires FromText(w1 + f1) == FromText(w2 + f2)
    ensures FromText(w1) == FromText(w2) && FromText(f1) == FromText(f2)
  {
    var b := Pow10(|f1|);
    Parted(w1, f1, b);
    Parted(w2, f2, b);
    SplitUnique(FromText(w1), FromText(f1), FromText(w2), FromText(f2), b);
  }

  lemma Parted(w: string, f: string, b: nat)
    requires AllDigits(w) && AllDigits(f) && b == Pow10(|f|)
    ensures FromText(w + f) == FromText(w) * b + FromText(f) && FromText(f) < b
  {
    FromTextConcat(w, f);
    FromTextBound(f);
  }

  lemma SameNumber(m: nat, n: nat, k: int)
    requires Amount(m, k) == Amount(n, k)
    ensures m == n
  {
    Cancel(m as real, n as real, Scale(k));
  }

  lemma Cancel(x: real, y: real, c: real)
    requires c > 0.0 && x * c == y * c
    ensures x == y
  {
  }

  lemma SplitUnique(q1: nat, r1: nat, q2: nat, r2: nat, b: nat)
    requires r1 < b && r2 < b && q1 * b + r1 == q2 * b + r2
    ensures q1 == q2 && r1 == r2
  {
    if q1 < q2 {
      MulMonotone(q1 + 1, q2, b);
    } else if q2 < q1 {
      MulMonotone(q2 + 1, q1, b);
    }
  }

  lemma MulMonotone(x: nat, y: nat, b: nat)
    requires x <= y
    ensures x * b <= y * b
  {
  }

  lemma CancelScaled(n1: nat, n2: nat, p: nat, x: real)
    requires x > 0.0 && (n1 as real) * x == (n2 as real) * ((p as real) * x)
    ensures n1 == n2 * p
  {
    assert (n2 as real) * ((p as real) * x) == ((n2 as real) * (p as real)) * x;
    Cancel(n1 as real, (n2 as real) * (p as real), x);
    assert (n2 as real) * (p as real) == (n2 * p) as real;
  }

  lemma LastDigitShows(w: string, f: string)
    requires AllDigits(w) && AllDigits(f) && f != "" && f[|f| - 1] != '0'
    ensures FromText(w + f) % 10 != 0
  {
    assert (w + f)[|w + f| - 1] == f[|f| - 1];
  }

  lemma MultipleOfTen(n: nat, k: nat)
    requires k > 0
    ensures (n * Pow10(k)) % 10 == 0
  {
    assert n * Pow10(k) == 10 * (n * Pow10(k - 1));
  }

  /** Equal amounts with more decimal places on the left: the left digits are a multiple of ten. */
  lemma LongerIsMultiple(n1: nat, k1: nat, n2: nat, k2: nat)
    requires k2 < k1 && Amount(n1, 0 - k1) == Amount(n2, 0 - k2)
    ensures n1 % 10 == 0
  {
    var k := k1 - k2;
    MultipleOfTen(n2, k);
    ScaleAdds(0 - k2, k);
    CancelScaled(n1, n2, Pow10(k), Scale(0 - k1));
  }

  lemma FractionNotLonger(w1: string, f1: string, w2: string, f2: string)
    requires AllDigits(w1) && AllDigits(f1) && AllDigits(w2) && AllDigits(f2)
    requires f1 == "" || f1[|f1| - 1] != '0'
    requires Denotes(w1, f1) == Denotes(w2, f2)
    ensures |f1| <= |f2|
  {
    if |f1| > |f2| {
      LastDigitShows(w1, f1);
      LongerIsMultiple(FromText(w1 + f1), |f1|, FromText(w2 + f2), |f2|);
    }
  }

  // ---- reading decimals back ----

  function IsSign(s: string): bool {
    s != "" && (s[0] == '-' || s[0] == '+')
  }

  /** The exponent part of a numeric string: nothing, or a marker, a sign and digits. */
  function ParseExponent(s: string): Option<int> {
    if s == "" then Some(0)
    else if s[0] != 'e' && s[0] != 'E' then None
    else
      var signed := IsSign(s[1..]);
      var digits := if signed then s[2..] else s[1..];
      if digits == "" || LeadingDigits(digits) != |digits| then None
      else
        assert digits[..|digits|] == digits;
        var magnitude: int := FromText(digits);
        Some(if signed && s[1] == '-' then -magnitude else magnitude)
  }

  /** `Decimal(text)` on numeric strings: sign, digits, fraction, exponent. */
  function ParseDecimal(s: string): Option<Decimal> {
    var negative := s != "" && s[0] == '-';
    var body := if IsSign(s) then s[1..] else s;
    var w := LeadingDigits(body);
    var whole := body[..w];
    var pointed := w < |body| && body[w] == '.';
    var tail := if pointed then body[w + 1..] else body[w..];
    var f := if pointed then LeadingDigits(tail) else 0;
    var fraction := tail[..f];
    if w + f == 0 then None
    else
      match ParseExponent(tail[f..])
      case None => None
      case Some(e) => Some(Finite(negative, FromText(whole + fraction), e - f))
  }

  /** `_validate_decimal` on a JSON string. */
  function ValidateJson(s: string): Result<Decimal, DecimalError> {
    match ParseDecimal(s)
    case None => Err(NotANumber)
    case Some(parsed) =>
      match CanonicalText(parsed)
      case Err(e) => Err(e)
      case Ok(text) => if s == text then Ok(parsed) else Err(NotCanonical)
  }

  predicate NonNegative(d: Decimal) {
    d.Finite? && (d.negative ==> d.coefficient == 0)
  }

  /** A spelling is read as the number it spells. */
  lemma SpellingParses(s: string, whole: string, fraction: string)
    requires Spells(s, whole, fraction)
    ensures ParseDecimal(s) == Some(Finite(false, FromText(whole + fraction), -|fraction|))
  {
    assert IsDigit(whole[0]) && s[0] == whole[0];
    if fraction == "" {
      assert s == whole + "";
      LeadingDigitsOf(whole, "");
    } else {
      PointedParses(whole, fraction);
    }
  }

  lemma PointedParses(whole: string, fraction: string)
    requires Numeral(whole) && AllDigits(fraction)
    ensures ParseDecimal(whole + "." + fraction) == Some(Finite(false, FromText(whole + fraction), -|fraction|))
  {
    var s := whole + "." + fraction;
    assert IsDigit(whole[0]) && s[0] == whole[0];
    PointAfterDigits(whole, fraction);
    assert s[|whole| + 1..] == fraction && s[..|whole|] == whole;
    LeadingDigitsOf(fraction, "");
    assert fraction + "" == fraction && fraction[..|fraction|] == fraction && fraction[|fraction|..] == "";
  }

  lemma PointAfterDigits(whole: string, fraction: string)
    requires AllDigits(whole)
    ensures LeadingDigits(whole + "." + fraction) == |whole|
  {
    assert whole + "." + fraction == whole + ("." + fraction);
    LeadingDigitsOf(whole, "." + fraction);
  }

  // ---- the promises ----

  /** Canonical text is the same exactly for numerically equal numbers, whatever their
      coefficients, exponents and signs of zero. */
  lemma SameTextIffEqual(a: Decimal, b: Decimal)
    requires NonNegative(a) && NonNegative(b)
    ensures CanonicalText(a) == CanonicalText(b) <==> Value(a) == Value(b)
  {
    if CanonicalText(a) == CanonicalText(b) {
      var wa, fa := CanonicalTextSpells(a);
      var wb, fb := CanonicalTextSpells(b);
      SpellingParses(CanonicalText(a).value, wa, fa);
      SpellingParses(CanonicalText(a).value, wb, fb);
    } else if Value(a) == Value(b) {
      SameValueSameText(a, b);
    }
  }

  lemma SameValueSameText(a: Decimal, b: Decimal)
    requires NonNegative(a) && NonNegative(b) && Value(a) == Value(b)
    ensures CanonicalText(a) == CanonicalText(b)
  {
    var wa, fa := CanonicalTextSpells(a);
    var wb, fb := CanonicalTextSpells(b);
    SpellingUnique(wa, fa, wb, fb);
  }

  /** The text is a canonical spelling of the decimal's amount. */
  ghost predicate Shows(text: string, d: Decimal) {
    d.Finite? && exists whole, fraction :: Spells(text, whole, fraction) && Denotes(whole, fraction) == Value(d)
  }

  /** A decimal has a canonical text exactly when it is a finite amount of zero or more. */
  lemma CanonicalTextIff(d: Decimal, text: string)
    ensures CanonicalText(d) == Ok(text) <==> Shows(text, d)
    ensures CanonicalText(d) == Err(NotFinite) <==> d.NonFinite?
    ensures CanonicalText(d) == Err(Negative) <==> d.Finite? && Value(d) < 0.0
  {
    if d.Finite? {
      if d.negative && d.coefficient > 0 {
        BelowZeroIsNotShown(d, text);
      } else {
        ShownIsText(d, text);
      }
    }
  }

  lemma BelowZeroIsNotShown(d: Decimal, text: string)
    requires d.Finite? && d.negative && d.coefficient > 0
    ensures Value(d) < 0.0 && !Shows(text, d)
  {
    AmountSign(d.coefficient, d.exponent);
    forall w, f | Spells(text, w, f)
      ensures Denotes(w, f) != Value(d)
    {
      AmountSign(FromText(w + f), -|f|);
    }
  }

  lemma ShownIsText(d: Decimal, text: string)
    requires d.Finite? && (d.negative ==> d.coefficient == 0)
    ensures Value(d) >= 0.0 && CanonicalText(d).Ok? && (CanonicalText(d).value == text <==> Shows(text, d))
  {
    AmountSign(d.coefficient, d.exponent);
    var whole, fraction := CanonicalTextSpells(d);
    forall w, f | Spells(text, w, f) && Denotes(w, f) == Value(d)
      ensures CanonicalText(d).value == text
    {
      SpellingUnique(w, f, whole, fraction);
    }
  }

  lemma AmountSign(coefficient: nat, exponent: int)
    ensures Amount(coefficient, exponent) >= 0.0
    ensures coefficient > 0 ==> Amount(coefficient, exponent) > 0.0
  {
    Positive(coefficient as real, Scale(exponent));
  }

  lemma Positive(x: real, y: real)
    requires x >= 0.0 && y > 0.0
    ensures x * y >= 0.0 && (x > 0.0 ==> x * y > 0.0)
  {
  }

  /** Printing and reading keep the value. */
  lemma ParseOfCanonicalText(d: Decimal)
    requires NonNegative(d)
    ensures CanonicalText(d).Ok?
    ensures var back := ParseDecimal(CanonicalText(d).value);
            back.Some? && NonNegative(back.value) && Value(back.value) == Value(d)
  {
    var whole, fraction := CanonicalTextSpells(d);
    SpellingParses(CanonicalText(d).value, whole, fraction);
  }

  /** The validator accepts exactly the strings of the published pattern, as the number read. */
  lemma AcceptedIffPattern(s: string)
    ensures ValidateJson(s).Ok? <==> MatchesPattern(s)
  {
    if ValidateJson(s).Ok? {
      var d := ParseDecimal(s).value;
      var whole, fraction := CanonicalTextSpells(d);
      assert Spells(s, whole, fraction);
    }
    if MatchesPattern(s) {
      PatternIsAccepted(s);
    }
  }

  lemma PatternIsAccepted(s: string)
    requires MatchesPattern(s)
    ensures ValidateJson(s).Ok?
  {
    var whole, fraction :| Spells(s, whole, fraction);
    SpellingParses(s, whole, fraction);
    var d := ParseDecimal(s).value;
    var w, f := CanonicalTextSpells(d);
    SpellingUnique(w, f, whole, fraction);
  }

  /** There is exactly one accepted string per non-negative number: its canonical text. */
  lemma OneStringPerValue(s: string, d: Decimal)
    requires NonNegative(d)
    ensures ValidateJson(s).Ok? && Value(ValidateJson(s).value) == Value(d) <==> CanonicalText(d) == Ok(s)
  {
    var whole, fraction := CanonicalTextSpells(d);
    if ValidateJson(s).Ok? {
      SameTextIffEqual(ValidateJson(s).value, d);
    }
    if CanonicalText(d) == Ok(s) {
      assert MatchesPattern(s);
      AcceptedIffPattern(s);
      SpellingParses(s, whole, fraction);
    }
  }
}
