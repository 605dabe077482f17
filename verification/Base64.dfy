/** The URL-safe base64 of section 5 of RFC 4648, with padding stripped and restored.

    Bytes are characters below 256.
 */
module Base64 {
  import opened Wrappers

  /** Texts that are byte strings. */
  predicate AllBytes(s: string) {
    forall i :: 0 <= i < |s| ==> s[i] as int < 256
  }

  function Symbol(n: nat): char
    requires n < 64
  {
    if n < 26 then ('A' as int + n) as char
    else if n < 52 then ('a' as int + n - 26) as char
    else if n < 62 then ('0' as int + n - 52) as char
    else if n == 62 then '-' else '_'
  }

  /** The decoder also takes the two symbols of the standard alphabet. */
  function SymbolValue(c: char): (r: Option<nat>)
    ensures r.Some? ==> r.value < 64
  {
    if 'A' <= c <= 'Z' then Some(c as int - 'A' as int)
    else if 'a' <= c <= 'z' then Some(c as int - 'a' as int + 26)
    else if '0' <= c <= '9' then Some(c as int - '0' as int + 52)
    else if c == '-' || c == '+' then Some(62)
    else if c == '_' || c == '/' then Some(63)
    else None
  }

  lemma SymbolsRead(n: nat)
    requires n < 64
    ensures SymbolValue(Symbol(n)) == Some(n) && Symbol(n) != '='
  {
  }

  function Equals(k: nat): (s: string)
    ensures |s| == k && forall i :: 0 <= i < k ==> s[i] == '='
  {
    seq(k, _ => '=')
  }

  /** How much padding a body of `n` symbols lacks. */
  function Missing(n: nat): nat {
    (4 - n % 4) % 4
  }

  function Block(a: nat, b: nat, c: nat): string
    requires a < 256 && b < 256 && c < 256
  {
    [Symbol(a / 4), Symbol(a % 4 * 16 + b / 16), Symbol(b % 16 * 4 + c / 64), Symbol(c % 64)]
  }

  /** The symbols before the padding. */
  function Body(s: string): string
    requires AllBytes(s)
  {
    if s == "" then ""
    else if |s| == 1 then Block(s[0] as int, 0, 0)[..2]
    else if |s| == 2 then Block(s[0] as int, s[1] as int, 0)[..3]
    else Block(s[0] as int, s[1] as int, s[2] as int) + Body(s[3..])
  }

  /** `urlsafe_b64encode` */
  function Encode(s: string): string
    requires AllBytes(s)
  {
    Body(s) + Equals(Missing(|Body(s)|))
  }

  /** `rstrip("=")` */
  function StripEquals(s: string): string {
    if s != "" && s[|s| - 1] == '=' then StripEquals(s[..|s| - 1]) else s
  }

  function ByteChar(n: nat): char
    requires n < 256
  {
    n as char
  }

  /** Four symbols, the last two of which may be padding. */
  function DecodeBlock(t: string): (r: Option<string>)
    requires |t| == 4
    ensures r.Some? ==> AllBytes(r.value)
  {
    match (SymbolValue(t[0]), SymbolValue(t[1]), SymbolValue(t[2]), SymbolValue(t[3]))
    case (Some(w), Some(x), Some(y), Some(z)) =>
      Some([ByteChar(w * 4 + x / 16), ByteChar(x % 16 * 16 + y / 4), ByteChar(y % 4 * 64 + z)])
    case (Some(w), Some(x), Some(y), None) =>
      if t[3] == '=' then Some([ByteChar(w * 4 + x / 16), ByteChar(x % 16 * 16 + y / 4)]) else None
    case (Some(w), Some(x), None, None) =>
      if t[2] == '=' && t[3] == '=' then Some([ByteChar(w * 4 + x / 16)]) else None
    case _ => None
  }

  /** `b64decode` with validation, on padded text. */
  function Decode(t: string): (r: Option<string>)
    ensures r.Some? ==> AllBytes(r.value)
  {
    if t == "" then Some("")
    else if |t| < 4 then None
    else if |t| == 4 then DecodeBlock(t)
    else if '=' in t[..4] then None
    else
      match (DecodeBlock(t[..4]), Decode(t[4..]))
      case (Some(first), Some(more)) => Some(first + more)
      case _ => None
  }

  predicate SymbolOrPadding(t: string, i: nat)
    requires i < |t|
  {
    || SymbolValue(t[i]).Some?
    || (t[i] == '=' && (i == |t| - 1 || (i == |t| - 2 && t[|t| - 1] == '=')))
  }

  /** Symbols, and at most two characters of padding at the end. */
  predicate Padded(t: string) {
    |t| % 4 == 0 && forall i: nat :: i < |t| ==> SymbolOrPadding(t, i)
  }

  /** Exactly the padded texts of symbols decode. */
  lemma {:induction false} DecodesIff(t: string)
    ensures Decode(t).Some? <==> Padded(t)
  {
    if |t| > 4 {
      DecodesIff(t[4..]);
      BlockDecodesIff(t[..4]);
      PaddedLong(t);
    } else if |t| == 4 {
      BlockDecodesIff(t);
    }
  }

  /** Padding ends a text, so every block before the last is symbols only. */
  lemma PaddedLong(t: string)
    requires |t| > 4
    ensures Padded(t) <==> '=' !in t[..4] && Padded(t[..4]) && Padded(t[4..])
  {
    var first, rest := t[..4], t[4..];
    assert forall i :: 0 <= i < 4 ==> first[i] == t[i];
    assert forall i :: 0 <= i < |rest| ==> rest[i] == t[i + 4];
    if '=' !in first && Padded(first) && Padded(rest) {
      forall i: nat | i < |t|
        ensures SymbolOrPadding(t, i)
      {
        if i < 4 {
          assert first[i] in first && SymbolOrPadding(first, i);
        } else {
          assert SymbolOrPadding(rest, i - 4);
        }
      }
    }
    if Padded(t) {
      forall i: nat | i < 4
        ensures SymbolValue(first[i]).Some? && SymbolOrPadding(first, i)
      {
        assert SymbolOrPadding(t, i);
      }
      forall i: nat | i < |rest|
        ensures SymbolOrPadding(rest, i)
      {
        assert SymbolOrPadding(t, i + 4);
      }
    }
  }

  lemma BlockDecodesIff(t: string)
    requires |t| == 4
    ensures DecodeBlock(t).Some? <==> Padded(t)
  {
    assert Padded(t) <==> SymbolOrPadding(t, 0) && SymbolOrPadding(t, 1) && SymbolOrPadding(t, 2)
                          && SymbolOrPadding(t, 3);
  }

  /** Four symbols are the 24 bits of three bytes; before padding the spare low bits are dropped. */
  lemma BlockBits(t: string)
    requires |t| == 4 && DecodeBlock(t).Some?
    ensures SymbolValue(t[0]).Some? && SymbolValue(t[1]).Some?
    ensures var s, w, x := DecodeBlock(t).value, SymbolValue(t[0]).value, SymbolValue(t[1]).value;
            if t[2] == '=' then |s| == 1 && s[0] as int == (64 * w + x) / 16
            else
              SymbolValue(t[2]).Some? &&
              var y := SymbolValue(t[2]).value;
              if t[3] == '=' then |s| == 2 && 256 * s[0] as int + s[1] as int == (4096 * w + 64 * x + y) / 4
              else
                && SymbolValue(t[3]).Some? && |s| == 3
                && 65536 * s[0] as int + 256 * s[1] as int + s[2] as int ==
                     262144 * w + 4096 * x + 64 * y + SymbolValue(t[3]).value
  {
  }

  lemma BlockReads(a: nat, b: nat, c: nat)
    requires a < 256 && b < 256 && c < 256
    ensures DecodeBlock(Block(a, b, c)) == Some([ByteChar(a), ByteChar(b), ByteChar(c)])
    ensures DecodeBlock(Block(a, 0, 0)[..2] + "==") == Some([ByteChar(a)])
    ensures DecodeBlock(Block(a, b, 0)[..3] + "=") == Some([ByteChar(a), ByteChar(b)])
    ensures '=' !in Block(a, b, c)
  {
    FullBlockReads(a, b, c);
    OneByteReads(a);
    TwoBytesRead(a, b);
  }

  lemma FullBlockReads(a: nat, b: nat, c: nat)
    requires a < 256 && b < 256 && c < 256
    ensures DecodeBlock(Block(a, b, c)) == Some([ByteChar(a), ByteChar(b), ByteChar(c)])
    ensures '=' !in Block(a, b, c)
  {
    SymbolsRead(a / 4);
    SymbolsRead(a % 4 * 16 + b / 16);
    SymbolsRead(b % 16 * 4 + c / 64);
    SymbolsRead(c % 64);
    Sextets(a, b, c);
  }

  lemma OneByteReads(a: nat)
    requires a < 256
    ensures DecodeBlock(Block(a, 0, 0)[..2] + "==") == Some([ByteChar(a)])
  {
    SymbolsRead(a / 4);
    SymbolsRead(a % 4 * 16);
    Sextets(a, 0, 0);
  }

  lemma TwoBytesRead(a: nat, b: nat)
    requires a < 256 && b < 256
    ensures DecodeBlock(Block(a, b, 0)[..3] + "=") == Some([ByteChar(a), ByteChar(b)])
  {
    SymbolsRead(a / 4);
    SymbolsRead(a % 4 * 16 + b / 16);
    SymbolsRead(b % 16 * 4);
    Sextets(a, b, 0);
  }

  lemma Sextets(a: nat, b: nat, c: nat)
    requires a < 256 && b < 256 && c < 256
    ensures a / 4 * 4 + (a % 4 * 16 + b / 16) / 16 == a
    ensures (a % 4 * 16 + b / 16) % 16 * 16 + (b % 16 * 4 + c / 64) / 4 == b
    ensures (b % 16 * 4 + c / 64) % 4 * 64 + c % 64 == c
  {
  }

  lemma {:induction false} BodyHasNoEquals(s: string)
    requires AllBytes(s)
    ensures '=' !in Body(s)
  {
    if |s| == 1 {
      BlockReads(s[0] as int, 0, 0);
    } else if |s| == 2 {
      BlockReads(s[0] as int, s[1] as int, 0);
    } else if |s| > 2 {
      BlockReads(s[0] as int, s[1] as int, s[2] as int);
      BodyHasNoEquals(s[3..]);
    }
  }

  lemma ShortEncodes(s: string)
    requires AllBytes(s) && 0 < |s| < 3
    ensures Encode(s) == if |s| == 1 then Block(s[0] as int, 0, 0)[..2] + "=="
                         else Block(s[0] as int, s[1] as int, 0)[..3] + "="
  {
  }

  lemma ShortDecodes(s: string)
    requires AllBytes(s) && 0 < |s| < 3
    ensures Decode(Encode(s)) == Some(s)
  {
    ShortEncodes(s);
    if |s| == 1 {
      BlockReads(s[0] as int, 0, 0);
      assert s == [ByteChar(s[0] as int)];
    } else {
      BlockReads(s[0] as int, s[1] as int, 0);
      assert s == [ByteChar(s[0] as int), ByteChar(s[1] as int)];
    }
  }

  lemma LongEncodes(s: string)
    requires AllBytes(s) && |s| >= 3
    ensures Encode(s) == Block(s[0] as int, s[1] as int, s[2] as int) + Encode(s[3..])
    ensures Encode(s)[..4] == Block(s[0] as int, s[1] as int, s[2] as int) && Encode(s)[4..] == Encode(s[3..])
  {
  }

  lemma {:induction false} DecodeOfEncode(s: string)
    requires AllBytes(s)
    ensures Decode(Encode(s)) == Some(s)
  {
    if 0 < |s| < 3 {
      ShortDecodes(s);
    } else if |s| >= 3 {
      LongEncodes(s);
      BlockReads(s[0] as int, s[1] as int, s[2] as int);
      DecodeOfEncode(s[3..]);
      var first := [ByteChar(s[0] as int), ByteChar(s[1] as int), ByteChar(s[2] as int)];
      assert s == first + s[3..];
      if |Encode(s)| == 4 {
        assert Encode(s[3..]) == "" && Encode(s)[..4] == Encode(s);
        assert s[3..] == "" && s == first;
      }
    }
  }

  lemma {:induction false} StripOfPadded(body: string, k: nat)
    requires '=' !in body
    ensures StripEquals(body + Equals(k)) == body
  {
    var s := body + Equals(k);
    if k > 0 {
      assert s[..|s| - 1] == body + Equals(k - 1);
      StripOfPadded(body, k - 1);
    } else {
      assert s == body;
      assert body != "" ==> body[|body| - 1] in body;
    }
  }

  /** Stripping the padding and putting it back loses nothing. */
  lemma UnpaddedRoundTrip(s: string)
    requires AllBytes(s)
    ensures var raw := StripEquals(Encode(s)); Decode(raw + Equals(Missing(|raw|))) == Some(s)
  {
    BodyHasNoEquals(s);
    StripOfPadded(Body(s), Missing(|Body(s)|));
    DecodeOfEncode(s);
  }

  predicate UrlSymbol(c: char) {
    'A' <= c <= 'Z' || 'a' <= c <= 'z' || '0' <= c <= '9' || c == '_' || c == '-'
  }

  lemma {:induction false} BodySymbols(s: string)
    requires AllBytes(s)
    ensures forall i :: 0 <= i < |Body(s)| ==> UrlSymbol(Body(s)[i])
    ensures s != "" ==> Body(s) != ""
  {
    if |s| > 2 {
      BodySymbols(s[3..]);
    }
  }

  /** What is left after stripping is a text of URL-safe symbols. */
  lemma EncodedChars(s: string)
    requires AllBytes(s)
    ensures forall c :: c in StripEquals(Encode(s)) ==> UrlSymbol(c)
    ensures s != "" ==> StripEquals(Encode(s)) != ""
  {
    BodyHasNoEquals(s);
    StripOfPadded(Body(s), Missing(|Body(s)|));
    BodySymbols(s);
  }
}
