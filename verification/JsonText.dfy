/** What canonical JSON text looks like. */
module JsonText {
  import opened TextOrder
  import opened Digits
  import opened Json

  /** One text after the other, `separator` between them. */
  function Join(parts: seq<string>, separator: string): string {
    if parts == [] then ""
    else if |parts| == 1 then parts[0]
    else parts[0] + separator + Join(parts[1..], separator)
  }

  function Texts(items: seq<Json>): (r: seq<string>)
    ensures |r| == |items| && forall i :: 0 <= i < |r| ==> r[i] == Write(items[i])
  {
    seq(|items|, i requires 0 <= i < |items| => Write(items[i]))
  }

  function EntryTexts(fields: seq<Field>): (r: seq<string>)
    ensures |r| == |fields|
    ensures forall i :: 0 <= i < |r| ==> r[i] == WriteString(fields[i].0) + ":" + Write(fields[i].1)
  {
    seq(|fields|, i requires 0 <= i < |fields| => WriteString(fields[i].0) + ":" + Write(fields[i].1))
  }

  function Escapes(text: string): (r: seq<string>)
    ensures |r| == |text| && forall i :: 0 <= i < |r| ==> r[i] == EscapeChar(text[i])
  {
    seq(|text|, i requires 0 <= i < |text| => EscapeChar(text[i]))
  }

  // ---- strings ----

  /** The digit's value, for the lower-case hexadecimal digits. */
  predicate HexOf(c: char, d: int) {
    if d < 10 then '0' <= c <= '9' && c as int - '0' as int == d else 'a' <= c <= 'f' && c as int - 'a' as int == d - 10
  }

  /** Exactly the quotation mark, the backslash and the characters below the space are escaped: seven of
      them by a letter or themselves, the others by their number in two lower-case digits. */
  lemma EscapeSet(c: char)
    ensures EscapeChar(c) == [c] <==> c != '"' && c != '\\' && c as int >= 32
    ensures EscapeChar('"') == "\\\"" && EscapeChar('\\') == "\\\\"
    ensures EscapeChar('\n') == "\\n" && EscapeChar('\r') == "\\r" && EscapeChar('\t') == "\\t"
    ensures EscapeChar(8 as char) == "\\b" && EscapeChar(12 as char) == "\\f"
    ensures c as int < 32 && c !in "\n\r\t" && c as int != 8 && c as int != 12 ==>
              var e := EscapeChar(c);
              |e| == 6 && e[..4] == "\\u00" && HexOf(e[4], c as int / 16) && HexOf(e[5], c as int % 16)
  {
    if c == '"' || c == '\\' || c as int < 32 {
      assert EscapeChar(c)[0] == '\\';
      assert |EscapeChar(c)| >= 2;
    }
    var e := EscapeChar(c);
    if c as int < 32 && c !in "\n\r\t" && c as int != 8 && c as int != 12 {
      assert c != '\n' && c != '\r' && c != '\t' by {
        assert "\n\r\t"[0] == '\n' && "\n\r\t"[1] == '\r' && "\n\r\t"[2] == '\t';
      }
      assert e == "\\u00" + [HexDigit(c as int / 16), HexDigit(c as int % 16)];
    }
  }

  lemma {:induction false} EscapeJoins(text: string)
    ensures Escape(text) == Join(Escapes(text), "")
  {
    if text != "" {
      EscapeJoins(text[1..]);
      assert Escapes(text)[1..] == Escapes(text[1..]);
      if |text| == 1 {
        assert Escape(text[1..]) == "";
      }
    }
  }

  /** A string is its escaped characters between quotation marks. */
  lemma StringText(text: string)
    ensures Write(Str(text)) == "\"" + Join(Escapes(text), "") + "\""
  {
    EscapeJoins(text);
  }

  // ---- numbers and constants ----

  /** A number is its numeral, after a minus sign if it is negative. */
  lemma NumberText(n: int)
    ensures n >= 0 ==> Numeral(Write(Int(n))) && FromText(Write(Int(n))) == n
    ensures n < 0 ==>
              var text := Write(Int(n));
              |text| > 1 && text[0] == '-' && Numeral(text[1..]) && FromText(text[1..]) == -n
  {
    ToTextIsNumeral(if n < 0 then -n else n);
    if n < 0 {
      assert Write(Int(n))[1..] == ToText(-n);
    }
  }

  lemma ConstantText()
    ensures Write(Null) == "null" && Write(Bool(true)) == "true" && Write(Bool(false)) == "false"
  {
  }

  // ---- arrays and objects ----

  lemma {:induction false} ItemsJoin(items: seq<Json>)
    requires items != []
    ensures Write(items[0]) + WriteItems(items[1..]) == Join(Texts(items), ",") + "]"
  {
    var rest := items[1..];
    if rest != [] {
      ItemsJoin(rest);
      assert Texts(items)[1..] == Texts(rest);
      assert WriteItems(rest) == "," + (Join(Texts(rest), ",") + "]");
      Regroup(Write(items[0]), ",", Join(Texts(rest), ","), "]");
    }
  }

  lemma Regroup(a: string, b: string, c: string, d: string)
    ensures a + (b + (c + d)) == a + b + c + d
  {
  }

  /** An array is its items between brackets, with commas and no spaces. */
  lemma ArrayText(items: seq<Json>)
    ensures Write(Arr(items)) == "[" + Join(Texts(items), ",") + "]"
  {
    if items != [] {
      ItemsJoin(items);
      Regroup("", "[", Join(Texts(items), ","), "]");
    }
  }

  lemma {:induction false} FieldsJoin(fields: seq<Field>)
    requires fields != []
    ensures WriteField(fields[0]) + WriteFields(fields[1..]) == Join(EntryTexts(fields), ",") + "}"
  {
    var rest := fields[1..];
    Regroup("", WriteString(fields[0].0), ":", Write(fields[0].1));
    assert EntryTexts(fields)[0] == WriteField(fields[0]);
    if rest != [] {
      FieldsJoin(rest);
      assert EntryTexts(fields)[1..] == EntryTexts(rest);
      assert WriteFields(rest) == "," + (Join(EntryTexts(rest), ",") + "}");
      Regroup(WriteField(fields[0]), ",", Join(EntryTexts(rest), ","), "}");
    }
  }

  /** An object is its entries between braces, key, colon and value, with commas and no spaces. */
  lemma ObjectText(fields: seq<Field>)
    ensures Write(Obj(fields)) == "{" + Join(EntryTexts(fields), ",") + "}"
  {
    if fields != [] {
      FieldsJoin(fields);
      Regroup("", "{", Join(EntryTexts(fields), ","), "}");
    }
  }

  // ---- the order of keys ----

  /** The first position where two texts differ, or where one of them ends, decides. */
  lemma {:induction false} BeforeIff(a: string, b: string)
    ensures Before(a, b) <==> exists k: nat :: DiffersFirst(a, b, k)
    decreases |a|
  {
    if a != "" && b != "" {
      BeforeIff(a[1..], b[1..]);
      if a[0] == b[0] {
        if k: nat :| DiffersFirst(a[1..], b[1..], k) {
          assert DiffersFirst(a, b, k + 1) by {
            assert a[..k + 1] == [a[0]] + a[1..][..k] && b[..k + 1] == [b[0]] + b[1..][..k];
          }
        }
        if k: nat :| DiffersFirst(a, b, k) {
          assert k > 0;
          assert a[1..][..k - 1] == a[..k][1..] && b[1..][..k - 1] == b[..k][1..];
          assert DiffersFirst(a[1..], b[1..], k - 1);
        }
      } else {
        assert DiffersFirst(a, b, 0) <==> a[0] < b[0];
        if k: nat :| DiffersFirst(a, b, k) {
          assert k > 0 ==> a[..k][0] == b[..k][0];
        }
      }
    } else if b != "" {
      assert DiffersFirst(a, b, 0);
    }
  }

  predicate DiffersFirst(a: string, b: string, k: nat) {
    k <= |a| && k < |b| && a[..k] == b[..k] && (k < |a| ==> a[k] < b[k])
  }

  /** Every object in the tree has its keys in ascending order. */
  ghost predicate Ordered(j: Json)
    decreases j
  {
    match j
    case Arr(items) => forall i :: 0 <= i < |items| ==> Ordered(items[i])
    case Obj(fields) => Ascending(fields) && forall i :: 0 <= i < |fields| ==> Ordered(fields[i].1)
    case _ => true
  }

  /** What is printed has ascending keys throughout. */
  lemma {:induction false} CanonicalIsOrdered(j: Json)
    requires WellFormed(j)
    ensures Ordered(Canonical(j))
    decreases j
  {
    match j
    case Arr(items) =>
      forall i | 0 <= i < |items|
        ensures Ordered(CanonicalItems(items)[i])
      {
        ItemsWellFormedAt(items, i);
        CanonicalItemsAt(items, i);
        CanonicalIsOrdered(items[i]);
      }
    case Obj(fields) =>
      CanonicalFieldsKeys(fields);
      SortAscends(CanonicalFields(fields));
      FieldsAreOrdered(fields);
      SortKeepsMembers(CanonicalFields(fields));
      forall i | 0 <= i < |SortByKey(CanonicalFields(fields))|
        ensures Ordered(SortByKey(CanonicalFields(fields))[i].1)
      {
        var f: Field := SortByKey(CanonicalFields(fields))[i];
        assert f in SortByKey(CanonicalFields(fields));
        assert f in CanonicalFields(fields);
      }
    case _ =>
  }

  lemma {:induction false} FieldsAreOrdered(fields: seq<Field>)
    requires FieldsWellFormed(fields)
    ensures forall f: Field :: f in CanonicalFields(fields) ==> Ordered(f.1)
    decreases fields
  {
    forall i | 0 <= i < |fields|
      ensures Ordered(CanonicalFields(fields)[i].1)
    {
      FieldsWellFormedAt(fields, i);
      CanonicalFieldsAt(fields, i);
      FieldIsOrdered(fields[i]);
    }
  }

  lemma {:induction false} FieldIsOrdered(f: Field)
    requires WellFormed(f.1)
    ensures Ordered(Canonical(f.1))
    decreases f
  {
    CanonicalIsOrdered(f.1);
  }
}
