/** Canonical UUID text and its order.

    A UUID is its 128-bit value here; the text is 32 hexadecimal digits in five groups.
 */
module Uuids {
  import opened Wrappers
  import opened TextOrder
  import opened Json

  function Pow16(k: nat): nat {
    if k == 0 then 1 else 16 * Pow16(k - 1)
  }

  /** `k` lower-case hexadecimal digits. */
  function HexText(n: nat, k: nat): (s: string)
    ensures |s| == k
  {
    if k == 0 then "" else HexText(n / 16, k - 1) + [HexDigit(n % 16)]
  }

  function Hyphenate(s: string): (r: string)
    requires |s| == 32
    ensures |r| == 36
  {
    s[..8] + "-" + s[8..12] + "-" + s[12..16] + "-" + s[16..20] + "-" + s[20..]
  }

  /** `str(uuid.UUID(int=n))` */
  function UuidText(n: nat): (r: string)
    ensures |r| == 36
  {
    Hyphenate(HexText(n, 32))
  }

  predicate IsUuid(n: nat) {
    n < Pow16(32)
  }

  function HexDigitValue(c: char): (r: Option<nat>)
    ensures r.Some? ==> r.value < 16 && HexDigit(r.value) == c
  {
    if '0' <= c <= '9' then Some(c as int - '0' as int)
    else if 'a' <= c <= 'f' then Some(c as int - 'a' as int + 10)
    else None
  }

  function ParseHex(s: string): Option<nat> {
    if s == "" then Some(0)
    else
      match (ParseHex(s[..|s| - 1]), HexDigitValue(s[|s| - 1]))
      case (Some(high), Some(low)) => Some(high * 16 + low)
      case _ => None
  }

  function Unhyphenate(r: string): (s: string)
    requires |r| == 36
    ensures |s| == 32
  {
    r[..8] + r[9..13] + r[14..18] + r[19..23] + r[24..]
  }

  /** `_parse_uuid`: only the canonical text of a UUID is accepted. */
  function ParseUuid(r: string): Option<nat> {
    if |r| == 36 && r[8] == r[13] == r[18] == r[23] == '-' then ParseHex(Unhyphenate(r)) else None
  }

  lemma {:induction false} ParseOfHexText(n: nat, k: nat)
    requires n < Pow16(k)
    ensures ParseHex(HexText(n, k)) == Some(n)
  {
    if k > 0 {
      ParseOfHexText(n / 16, k - 1);
      assert HexText(n, k)[..k - 1] == HexText(n / 16, k - 1);
    }
  }

  lemma {:induction false} HexTextOfParse(s: string)
    requires ParseHex(s).Some?
    ensures ParseHex(s).value < Pow16(|s|) && HexText(ParseHex(s).value, |s|) == s
  {
    if s != "" {
      HexTextOfParse(s[..|s| - 1]);
      assert s == s[..|s| - 1] + [s[|s| - 1]];
    }
  }

  lemma UnhyphenateOfHyphenate(s: string)
    requires |s| == 32
    ensures var r := Hyphenate(s); r[8] == r[13] == r[18] == r[23] == '-' && Unhyphenate(r) == s
  {
    var r := Hyphenate(s);
    assert r[..8] == s[..8] && r[9..13] == s[8..12] && r[14..18] == s[12..16];
    assert r[19..23] == s[16..20] && r[24..] == s[20..];
  }

  lemma HyphenateOfUnhyphenate(r: string)
    requires |r| == 36 && r[8] == r[13] == r[18] == r[23] == '-'
    ensures Hyphenate(Unhyphenate(r)) == r
  {
    var s := Unhyphenate(r);
    assert s[..8] == r[..8] && s[8..12] == r[9..13] && s[12..16] == r[14..18];
    assert s[16..20] == r[19..23] && s[20..] == r[24..];
    assert r == r[..8] + [r[8]] + r[9..13] + [r[13]] + r[14..18] + [r[18]] + r[19..23] + [r[23]] + r[24..];
  }

  /** Exactly the canonical text of each 128-bit value is accepted, and read as that value. */
  lemma ParseUuidExact(r: string, n: nat)
    ensures ParseUuid(r) == Some(n) <==> IsUuid(n) && r == UuidText(n)
  {
    if ParseUuid(r) == Some(n) {
      HexTextOfParse(Unhyphenate(r));
      HyphenateOfUnhyphenate(r);
    }
    if IsUuid(n) && r == UuidText(n) {
      ParseOfHexText(n, 32);
      UnhyphenateOfHyphenate(HexText(n, 32));
    }
  }

  // ---- text order is numeric order ----

  lemma {:induction false} BeforeOfConcat(a: string, b: string, a': string, b': string)
    requires |a| == |a'|
    ensures Before(a + b, a' + b') <==> Before(a, a') || (a == a' && Before(b, b'))
  {
    if a == "" {
      assert a + b == b && a' + b' == b';
    } else {
      assert (a + b)[1..] == a[1..] + b && (a' + b')[1..] == a'[1..] + b';
      BeforeOfConcat(a[1..], b, a'[1..], b');
      assert a == [a[0]] + a[1..] && a' == [a'[0]] + a'[1..];
    }
  }

  lemma {:induction false} HexOrder(m: nat, n: nat, k: nat)
    requires m < Pow16(k) && n < Pow16(k)
    ensures Before(HexText(m, k), HexText(n, k)) <==> m < n
    ensures HexText(m, k) == HexText(n, k) <==> m == n
  {
    if k > 0 {
      HexOrder(m / 16, n / 16, k - 1);
      BeforeOfConcat(HexText(m / 16, k - 1), [HexDigit(m % 16)], HexText(n / 16, k - 1), [HexDigit(n % 16)]);
      DigitOrder(m % 16, n % 16);
      assert HexText(m, k)[..k - 1] == HexText(m / 16, k - 1) && HexText(n, k)[..k - 1] == HexText(n / 16, k - 1);
      assert HexText(m, k)[k - 1] == HexDigit(m % 16) && HexText(n, k)[k - 1] == HexDigit(n % 16);
    }
  }

  lemma DigitOrder(a: nat, b: nat)
    requires a < 16 && b < 16
    ensures Before([HexDigit(a)], [HexDigit(b)]) <==> a < b
    ensures HexDigit(a) == HexDigit(b) <==> a == b
  {
  }

  /** A hyphen in the same place of two texts does not change their order. */
  lemma Joined(a: string, y: string, w: string, a': string, y': string, w': string)
    requires |a| == |a'| && (Before(y, y') <==> Before(w, w'))
    ensures Before(a + ("-" + y), a' + ("-" + y')) <==> Before(a + w, a' + w')
  {
    BeforeIsStrict("-");
    BeforeOfConcat(a, "-" + y, a', "-" + y');
    BeforeOfConcat("-", y, "-", y');
    BeforeOfConcat(a, w, a', w');
  }

  /** The text from group `i` on, with its hyphens. */
  function HyphenTail(s: string, i: nat): string
    requires |s| == 32 && 1 <= i <= 4
    decreases 4 - i
  {
    if i == 4 then s[20..] else s[4 * i + 4..4 * i + 8] + ("-" + HyphenTail(s, i + 1))
  }

  lemma HyphenTails(s: string)
    requires |s| == 32
    ensures Hyphenate(s) == s[..8] + ("-" + HyphenTail(s, 1))
  {
    assert HyphenTail(s, 3) == s[16..20] + ("-" + s[20..]);
    assert HyphenTail(s, 2) == s[12..16] + ("-" + HyphenTail(s, 3));
    assert HyphenTail(s, 1) == s[8..12] + ("-" + HyphenTail(s, 2));
  }

  lemma {:induction false} TailOrder(s: string, t: string, i: nat)
    requires |s| == |t| == 32 && 1 <= i <= 4
    ensures Before(HyphenTail(s, i), HyphenTail(t, i)) <==> Before(s[4 * i + 4..], t[4 * i + 4..])
    decreases 4 - i
  {
    if i < 4 {
      var at := 4 * i + 4;
      TailOrder(s, t, i + 1);
      Joined(s[at..at + 4], HyphenTail(s, i + 1), s[at + 4..], t[at..at + 4], HyphenTail(t, i + 1), t[at + 4..]);
      assert s[at..] == s[at..at + 4] + s[at + 4..] && t[at..] == t[at..at + 4] + t[at + 4..];
    }
  }

  lemma HyphenOrder(s: string, t: string)
    requires |s| == |t| == 32
    ensures Before(Hyphenate(s), Hyphenate(t)) <==> Before(s, t)
  {
    HyphenTails(s);
    HyphenTails(t);
    TailOrder(s, t, 1);
    Joined(s[..8], HyphenTail(s, 1), s[8..], t[..8], HyphenTail(t, 1), t[8..]);
    assert s == s[..8] + s[8..] && t == t[..8] + t[8..];
  }

  /** Canonical UUID texts compare as the 128-bit values they stand for. */
  lemma TextOrderIsNumeric(m: nat, n: nat)
    requires IsUuid(m) && IsUuid(n)
    ensures Before(UuidText(m), UuidText(n)) <==> m < n
    ensures UuidText(m) == UuidText(n) <==> m == n
  {
    HexOrder(m, n, 32);
    HyphenOrder(HexText(m, 32), HexText(n, 32));
    UnhyphenateOfHyphenate(HexText(m, 32));
    UnhyphenateOfHyphenate(HexText(n, 32));
  }
}
