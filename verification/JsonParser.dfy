/** The JSON parser inverts the printer. */
module JsonParser {
  import opened Wrappers
  import opened TextOrder
  import opened Digits
  import opened Json

  type Rest = string

  predicate IsSpace(c: char) {
    c == ' ' || c == '\t' || c == '\n' || c == '\r'
  }

  function SkipSpace(s: string): (r: string)
    ensures |r| <= |s|
  {
    if s != "" && IsSpace(s[0]) then SkipSpace(s[1..]) else s
  }

  function HexValue(c: char): Option<nat> {
    if '0' <= c <= '9' then Some(c as int - '0' as int)
    else if 'a' <= c <= 'f' then Some(c as int - 'a' as int + 10)
    else if 'A' <= c <= 'F' then Some(c as int - 'A' as int + 10)
    else None
  }

  /** Four hexadecimal digits. */
  function ParseHex4(s: string): (r: Option<nat>)
    ensures r.Some? ==> |s| >= 4 && r.value < 0x1_0000
  {
    if |s| < 4 then None
    else
      match (HexValue(s[0]), HexValue(s[1]), HexValue(s[2]), HexValue(s[3]))
      case (Some(a), Some(b), Some(c), Some(d)) =>
        if a < 16 && b < 16 && c < 16 && d < 16 then Some(((a * 16 + b) * 16 + c) * 16 + d) else None
      case _ => None
  }

  /** What follows a backslash: the character meant, and the rest.  A surrogate pair is one
      character; a surrogate on its own is no character and cannot be encoded as UTF-8. */
  function ParseEscape(s: string): (r: Option<(char, Rest)>)
    ensures r.Some? ==> |r.value.1| < |s|
  {
    if s == "" then None
    else if s[0] == '"' || s[0] == '\\' || s[0] == '/' then Some((s[0], s[1..]))
    else if s[0] == 'b' then Some((8 as char, s[1..]))
    else if s[0] == 'f' then Some((12 as char, s[1..]))
    else if s[0] == 'n' then Some(('\n', s[1..]))
    else if s[0] == 'r' then Some(('\r', s[1..]))
    else if s[0] == 't' then Some(('\t', s[1..]))
    else if s[0] != 'u' then None
    else
      match ParseHex4(s[1..])
      case None => None
      case Some(code) =>
        if code < 0xD800 || 0xE000 <= code then Some((code as char, s[5..]))
        else if code < 0xDC00 && |s| >= 7 && s[5] == '\\' && s[6] == 'u' then
          match ParseHex4(s[7..])
          case None => None
          case Some(low) =>
            if 0xDC00 <= low < 0xE000 then
              Some(((0x1_0000 + (code - 0xD800) * 0x400 + (low - 0xDC00)) as char, s[11..]))
            else None
        else None
  }

  /** The text of a string after its opening quote, and what follows its closing quote. */
  function ParseString(s: string): (r: Option<(string, Rest)>)
    ensures r.Some? ==> |r.value.1| < |s|
  {
    if s == "" || (s[0] as int) < 32 then None
    else if s[0] == '"' then Some(("", s[1..]))
    else if s[0] == '\\' then
      match ParseEscape(s[1..])
      case None => None
      case Some(escaped) =>
        match ParseString(escaped.1)
        case None => None
        case Some(more) => Some(([escaped.0] + more.0, more.1))
    else
      match ParseString(s[1..])
      case None => None
      case Some(more) => Some(([s[0]] + more.0, more.1))
  }

  /** An integer.  A fraction or an exponent is left in the rest, where nothing accepts it:
      floating-point numbers are not canonical values. */
  function ParseInt(s: string): (r: Option<(int, Rest)>)
    ensures r.Some? ==> |r.value.1| < |s|
  {
    var negative := s != "" && s[0] == '-';
    var body := if negative then s[1..] else s;
    var n := LeadingDigits(body);
    if n == 0 then None
    else if body[0] == '0' then Some((0, body[1..]))
    else
      var magnitude: int := FromText(body[..n]);
      Some((if negative then -magnitude else magnitude, body[n..]))
  }

  function Expect(prefix: string, s: string): (r: Option<Rest>)
    ensures r.Some? ==> |r.value| == |s| - |prefix|
  {
    if prefix <= s then Some(s[|prefix|..]) else None
  }

  predicate HasKey(key: string, fields: seq<Field>) {
    exists i :: 0 <= i < |fields| && fields[i].0 == key
  }

  function ParseValue(s: string): (r: Option<(Json, Rest)>)
    ensures r.Some? ==> |r.value.1| < |s|
    decreases |s|, 1
  {
    if s == "" then None
    else if s[0] == '"' then
      match ParseString(s[1..])
      case None => None
      case Some(t) => Some((Str(t.0), t.1))
    else if s[0] == '[' then
      var inner := SkipSpace(s[1..]);
      if inner != "" && inner[0] == ']' then Some((Arr([]), inner[1..]))
      else
        match ParseItems(inner)
        case None => None
        case Some(items) => Some((Arr(items.0), items.1))
    else if s[0] == '{' then
      var inner := SkipSpace(s[1..]);
      if inner != "" && inner[0] == '}' then Some((Obj([]), inner[1..]))
      else
        match ParseFields(inner)
        case None => None
        case Some(fields) => Some((Obj(fields.0), fields.1))
    else if Expect("null", s).Some? then Some((Null, s[4..]))
    else if Expect("true", s).Some? then Some((Bool(true), s[4..]))
    else if Expect("false", s).Some? then Some((Bool(false), s[5..]))
    else
      match ParseInt(s)
      case None => None
      case Some(n) => Some((Int(n.0), n.1))
  }

  /** One or more values separated by commas, up to the closing bracket. */
  function ParseItems(s: string): (r: Option<(seq<Json>, Rest)>)
    ensures r.Some? ==> |r.value.1| < |s|
    decreases |s|, 2
  {
    match ParseValue(s)
    case None => None
    case Some(first) =>
      match ParseItemsTail(SkipSpace(first.1))
      case None => None
      case Some(more) => Some(([first.0] + more.0, more.1))
  }

  function ParseItemsTail(s: string): (r: Option<(seq<Json>, Rest)>)
    ensures r.Some? ==> |r.value.1| < |s|
    decreases |s|, 3
  {
    if s == "" then None
    else if s[0] == ']' then Some(([], s[1..]))
    else if s[0] == ',' then ParseItems(SkipSpace(s[1..]))
    else None
  }

  function ParseField(s: string): (r: Option<(Field, Rest)>)
    ensures r.Some? ==> |r.value.1| < |s|
    decreases |s|, 2
  {
    if s == "" || s[0] != '"' then None
    else
      match ParseString(s[1..])
      case None => None
      case Some(key) =>
        var afterKey := SkipSpace(key.1);
        if afterKey == "" || afterKey[0] != ':' then None
        else
          match ParseValue(SkipSpace(afterKey[1..]))
          case None => None
          case Some(v) => Some(((key.0, v.0), v.1))
  }

  /** One or more fields up to the closing brace; a repeated key is an error. */
  function ParseFields(s: string): (r: Option<(seq<Field>, Rest)>)
    ensures r.Some? ==> |r.value.1| < |s|
    decreases |s|, 3
  {
    match ParseField(s)
    case None => None
    case Some(first) =>
      match ParseFieldsTail(SkipSpace(first.1))
      case None => None
      case Some(more) =>
        if HasKey(first.0.0, more.0) then None else Some(([first.0] + more.0, more.1))
  }

  function ParseFieldsTail(s: string): (r: Option<(seq<Field>, Rest)>)
    ensures r.Some? ==> |r.value.1| < |s|
    decreases |s|, 4
  {
    if s == "" then None
    else if s[0] == '}' then Some(([], s[1..]))
    else if s[0] == ',' then ParseFields(SkipSpace(s[1..]))
    else None
  }

  /** `json.loads` with the duplicate-key and constant hooks of the plan loader. */
  function Parse(text: string): Option<Json> {
    match ParseValue(SkipSpace(text))
    case None => None
    case Some(v) => if SkipSpace(v.1) == "" then Some(v.0) else None
  }

  // ---- reading back what was written ----

  lemma EscapeReads(c: char, tail: string)
    requires EscapeChar(c) != [c]
    ensures |EscapeChar(c)| > 1 && EscapeChar(c)[0] == '\\'
    ensures ParseEscape(EscapeChar(c)[1..] + tail) == Some((c, tail))
  {
    var s := EscapeChar(c)[1..] + tail;
    if s[0] == 'u' {
      assert EscapeChar(c)[1..] == "u00" + [HexDigit(c as int / 16), HexDigit(c as int % 16)];
      assert s[1..][0] == '0' && s[1..][1] == '0';
      assert s[1..][2] == HexDigit(c as int / 16) && s[1..][3] == HexDigit(c as int % 16);
      assert s[5..] == tail;
    } else {
      assert s[1..] == tail;
    }
  }

  lemma CharReads(c: char, tail: string)
    ensures ParseString(EscapeChar(c) + tail) ==
            match ParseString(tail)
            case None => None
            case Some(more) => Some(([c] + more.0, more.1))
  {
    var s := EscapeChar(c) + tail;
    if EscapeChar(c) == [c] {
      assert s[1..] == tail;
    } else {
      EscapeReads(c, tail);
      assert s[1..] == EscapeChar(c)[1..] + tail;
    }
  }

  lemma {:induction false} StringReads(text: string, rest: string)
    ensures ParseString(Escape(text) + ("\"" + rest)) == Some((text, rest))
  {
    if text == "" {
      assert (Escape(text) + ("\"" + rest))[1..] == rest;
    } else {
      StringReads(text[1..], rest);
      FirstCharApart(text, "\"" + rest);
      CharReads(text[0], Escape(text[1..]) + ("\"" + rest));
      assert text == [text[0]] + text[1..];
    }
  }

  lemma FirstCharApart(text: string, tail: string)
    requires text != ""
    ensures Escape(text) + tail == EscapeChar(text[0]) + (Escape(text[1..]) + tail)
  {
  }

  lemma QuotedReads(text: string, rest: string)
    ensures var s := WriteString(text) + rest;
            s[0] == '"' && ParseString(s[1..]) == Some((text, rest))
  {
    StringReads(text, rest);
    assert (WriteString(text) + rest)[1..] == Escape(text) + ("\"" + rest);
  }

  /** Text that cannot continue a number. */
  predicate EndsNumber(rest: string) {
    rest == "" || !IsDigit(rest[0])
  }

  lemma IntReads(n: int, rest: string)
    requires EndsNumber(rest)
    ensures ParseInt(WriteInt(n) + rest) == Some((n, rest))
    ensures IsDigit(WriteInt(n)[0]) || WriteInt(n)[0] == '-'
  {
    if n < 0 {
      DigitsParse(-n, rest);
      NegativeReads(ToText(-n), -n, rest);
      MinusApart(ToText(-n), rest);
    } else {
      DigitsParse(n, rest);
    }
  }

  lemma MinusApart(digits: string, rest: string)
    ensures ("-" + digits) + rest == "-" + (digits + rest)
  {
  }

  lemma DigitsParse(n: nat, rest: string)
    requires EndsNumber(rest)
    ensures ParseInt(ToText(n) + rest) == Some((n, rest)) && ToText(n) != "" && IsDigit(ToText(n)[0])
  {
    NumeralReads(n, rest);
  }

  lemma NegativeReads(digits: string, n: nat, rest: string)
    requires ParseInt(digits + rest) == Some((n, rest)) && digits != "" && IsDigit(digits[0])
    ensures ParseInt("-" + (digits + rest)) == Some((0 - n, rest))
  {
    assert ("-" + (digits + rest))[1..] == digits + rest;
  }

  lemma NumeralReads(n: nat, rest: string)
    requires EndsNumber(rest)
    ensures var digits := ToText(n); var s := digits + rest;
            && digits != "" && IsDigit(digits[0])
            && LeadingDigits(s) == |digits| && s[..|digits|] == digits && s[|digits|..] == rest
            && FromText(digits) == n && (digits[0] == '0' ==> n == 0 && |digits| == 1)
  {
    var digits := ToText(n);
    ToTextIsNumeral(n);
    LeadingDigitsOf(digits, rest);
    if digits[0] == '0' {
      assert digits == "0" && FromText(digits[..0]) == 0 && FromText(digits) == 0;
    }
  }

  lemma WriteStarts(j: Json)
    ensures Write(j) != "" && !IsSpace(Write(j)[0]) && Write(j)[0] != ']' && Write(j)[0] != '}'
  {
    if j.Int? {
      IntReads(j.n, "");
    }
  }

  lemma {:induction false} ValueReads(j: Json, rest: string)
    requires WellFormed(j) && EndsNumber(rest)
    ensures ParseValue(Write(j) + rest) == Some((j, rest))
    decreases j, 1
  {
    var s := Write(j) + rest;
    match j
    case Null => assert s[..4] == "null" && s[4..] == rest;
    case Bool(flag) =>
      if flag {
        assert s[..4] == "true" && s[4..] == rest;
      } else {
        assert s[..5] == "false" && s[5..] == rest;
      }
    case Int(n) =>
      IntReads(n, rest);
    case Str(text) =>
      QuotedReads(text, rest);
    case Arr(items) =>
      ArrayReads(items, rest);
    case Obj(fields) =>
      ObjectReads(fields, rest);
  }

  lemma {:induction false} ArrayReads(items: seq<Json>, rest: string)
    requires AllWellFormed(items) && EndsNumber(rest)
    ensures ParseValue(Write(Arr(items)) + rest) == Some((Arr(items), rest))
    decreases items, 0
  {
    var s := Write(Arr(items)) + rest;
    if items == [] {
      assert s[1..] == "]" + rest && (s[1..])[1..] == rest;
    } else {
      var tail := WriteItems(items[1..]) + rest;
      TailEndsNumber(items[1..], rest);
      ValueReads(items[0], tail);
      ItemsRead(items[1..], rest);
      ArrayOpens(items, rest);
    }
  }

  /** A nonempty array begins with its first item. */
  lemma ArrayOpens(items: seq<Json>, rest: string)
    requires items != []
    ensures var s := Write(Arr(items)) + rest; var inner := Write(items[0]) + (WriteItems(items[1..]) + rest);
            s != "" && s[0] == '[' && s[1..] == inner && SkipSpace(inner) == inner && inner[0] != ']'
    ensures items == [items[0]] + items[1..]
  {
    WriteStarts(items[0]);
  }

  lemma TailEndsNumber(items: seq<Json>, rest: string)
    ensures var tail := WriteItems(items) + rest;
            tail != "" && (tail[0] == ',' || tail[0] == ']')
  {
  }

  lemma {:induction false} ItemsRead(items: seq<Json>, rest: string)
    requires AllWellFormed(items)
    ensures ParseItemsTail(WriteItems(items) + rest) == Some((items, rest))
    decreases items, 0
  {
    var s := WriteItems(items) + rest;
    if items == [] {
      assert s[1..] == rest;
    } else {
      var tail := WriteItems(items[1..]) + rest;
      assert s[1..] == Write(items[0]) + tail;
      WriteStarts(items[0]);
      TailEndsNumber(items[1..], rest);
      ValueReads(items[0], tail);
      ItemsRead(items[1..], rest);
      assert items == [items[0]] + items[1..];
    }
  }

  lemma {:induction false} FieldReads(f: Field, rest: string)
    requires FieldWellFormed(f) && EndsNumber(rest)
    ensures ParseField(WriteField(f) + rest) == Some((f, rest))
    ensures WriteField(f)[0] == '"'
    decreases f, 2
  {
    var tail := ":" + (Write(f.1) + rest);
    assert WriteField(f) + rest == WriteString(f.0) + tail;
    QuotedReads(f.0, tail);
    assert tail[1..] == Write(f.1) + rest;
    WriteStarts(f.1);
    ValueReads(f.1, rest);
  }

  lemma FieldsTailEndsNumber(fields: seq<Field>, rest: string)
    ensures var tail := WriteFields(fields) + rest;
            tail != "" && (tail[0] == ',' || tail[0] == '}')
  {
  }

  lemma {:induction false} ObjectReads(fields: seq<Field>, rest: string)
    requires FieldsWellFormed(fields) && DistinctKeys(fields) && EndsNumber(rest)
    ensures ParseValue(Write(Obj(fields)) + rest) == Some((Obj(fields), rest))
    decreases fields, 2
  {
    var s := Write(Obj(fields)) + rest;
    if fields == [] {
      assert s[1..] == "}" + rest && (s[1..])[1..] == rest;
    } else {
      FieldsRead(fields, rest);
      ObjectOpens(fields, rest);
    }
  }

  /** A nonempty object begins with its first field. */
  lemma ObjectOpens(fields: seq<Field>, rest: string)
    requires fields != []
    ensures var s := Write(Obj(fields)) + rest; var inner := (WriteField(fields[0]) + WriteFields(fields[1..])) + rest;
            s != "" && s[0] == '{' && s[1..] == inner
  {
  }

  lemma {:induction false} FieldsRead(fields: seq<Field>, rest: string)
    requires fields != [] && FieldsWellFormed(fields) && DistinctKeys(fields)
    ensures var s := (WriteField(fields[0]) + WriteFields(fields[1..])) + rest;
            s[0] == '"' && ParseFields(s) == Some((fields, rest))
    decreases fields, 0
  {
    var tail := WriteFields(fields[1..]) + rest;
    assert (WriteField(fields[0]) + WriteFields(fields[1..])) + rest == WriteField(fields[0]) + tail;
    FieldsTailEndsNumber(fields[1..], rest);
    FieldReads(fields[0], tail);
    FieldsTailRead(fields[1..], rest);
    assert forall i :: 0 <= i < |fields[1..]| ==> fields[1..][i] == fields[i + 1];
    assert fields == [fields[0]] + fields[1..];
  }

  lemma {:induction false} FieldsTailRead(fields: seq<Field>, rest: string)
    requires FieldsWellFormed(fields) && DistinctKeys(fields)
    ensures ParseFieldsTail(WriteFields(fields) + rest) == Some((fields, rest))
    decreases fields, 1
  {
    var s := WriteFields(fields) + rest;
    if fields == [] {
      assert s[1..] == rest;
    } else {
      assert s[1..] == (WriteField(fields[0]) + WriteFields(fields[1..])) + rest;
      FieldsRead(fields, rest);
    }
  }

  // ---- canonical trees are well formed ----

  lemma {:induction false} CanonicalIsWellFormed(j: Json)
    requires WellFormed(j)
    ensures WellFormed(Canonical(j))
    decreases j, 1
  {
    match j
    case Arr(items) => CanonicalItemsWellFormed(items);
    case Obj(fields) =>
      CanonicalFieldsWellFormed(fields);
      CanonicalFieldsKeys(fields);
      SortAscends(CanonicalFields(fields));
      AscendingHasDistinctKeys(SortByKey(CanonicalFields(fields)));
      SortedWellFormed(CanonicalFields(fields));
    case _ =>
  }

  lemma {:induction false} CanonicalItemsWellFormed(items: seq<Json>)
    requires AllWellFormed(items)
    ensures AllWellFormed(CanonicalItems(items))
    decreases items, 0
  {
    if items != [] {
      CanonicalIsWellFormed(items[0]);
      CanonicalItemsWellFormed(items[1..]);
      assert CanonicalItems(items)[1..] == CanonicalItems(items[1..]);
    }
  }

  lemma {:induction false} CanonicalFieldIsWellFormed(f: Field)
    requires FieldWellFormed(f)
    ensures FieldWellFormed(CanonicalField(f))
    decreases f, 2
  {
    CanonicalIsWellFormed(f.1);
  }

  lemma {:induction false} CanonicalFieldsWellFormed(fields: seq<Field>)
    requires FieldsWellFormed(fields)
    ensures FieldsWellFormed(CanonicalFields(fields))
    decreases fields, 0
  {
    if fields != [] {
      CanonicalFieldIsWellFormed(fields[0]);
      CanonicalFieldsWellFormed(fields[1..]);
      assert CanonicalFields(fields)[1..] == CanonicalFields(fields[1..]);
    }
  }

  lemma {:induction false} InsertWellFormed(f: Field, fields: seq<Field>)
    requires FieldWellFormed(f) && FieldsWellFormed(fields)
    ensures FieldsWellFormed(Insert(f, fields))
  {
    var r := Insert(f, fields);
    if fields != [] && Before(fields[0].0, f.0) {
      InsertWellFormed(f, fields[1..]);
      assert r[1..] == Insert(f, fields[1..]);
    } else {
      assert r[1..] == fields;
    }
  }

  lemma {:induction false} SortedWellFormed(fields: seq<Field>)
    requires FieldsWellFormed(fields)
    ensures FieldsWellFormed(SortByKey(fields))
  {
    if fields != [] {
      SortedWellFormed(fields[1..]);
      InsertWellFormed(fields[0], SortByKey(fields[1..]));
    }
  }

  // ---- what the parser accepts has no repeated keys ----

  lemma {:induction false} ParsedWellFormed(s: string)
    ensures ParseValue(s).Some? ==> WellFormed(ParseValue(s).value.0)
    decreases |s|, 1
  {
    if s != "" && s[0] == '[' {
      ParsedItemsWellFormed(SkipSpace(s[1..]));
    } else if s != "" && s[0] == '{' {
      ParsedFieldsWellFormed(SkipSpace(s[1..]));
    }
  }

  lemma {:induction false} ParsedItemsWellFormed(s: string)
    ensures ParseItems(s).Some? ==> AllWellFormed(ParseItems(s).value.0)
    decreases |s|, 2
  {
    ParsedWellFormed(s);
    if ParseItems(s).Some? {
      var t := SkipSpace(ParseValue(s).value.1);
      if t[0] == ',' {
        ParsedItemsWellFormed(SkipSpace(t[1..]));
      }
    }
  }

  lemma {:induction false} ParsedFieldWellFormed(s: string)
    ensures ParseField(s).Some? ==> FieldWellFormed(ParseField(s).value.0)
    decreases |s|, 2
  {
    if ParseField(s).Some? {
      ParsedWellFormed(SkipSpace(SkipSpace(ParseString(s[1..]).value.1)[1..]));
    }
  }

  lemma {:induction false} ParsedFieldsWellFormed(s: string)
    ensures ParseFields(s).Some? ==> FieldsWellFormed(ParseFields(s).value.0) && DistinctKeys(ParseFields(s).value.0)
    decreases |s|, 3
  {
    ParsedFieldWellFormed(s);
    if ParseFields(s).Some? {
      var t := SkipSpace(ParseField(s).value.1);
      if t[0] == ',' {
        ParsedFieldsWellFormed(SkipSpace(t[1..]));
      }
    }
  }

  // ---- the promises ----

  /** Reading a canonical document gives back the value, in canonical form. */
  lemma ParseOfPrint(j: Json)
    requires WellFormed(j)
    ensures Parse(Print(j)) == Some(Canonical(j))
  {
    CanonicalIsWellFormed(j);
    ValueReads(Canonical(j), "");
    WriteStarts(Canonical(j));
    assert Print(j) + "" == Print(j);
  }

  /** Everything the parser accepts is a tree without repeated keys. */
  lemma ParseIsWellFormed(text: string)
    ensures Parse(text).Some? ==> WellFormed(Parse(text).value)
  {
    ParsedWellFormed(SkipSpace(text));
  }

  /** Canonical text is the same exactly for values that are the same up to insertion order. */
  lemma PrintIffSame(a: Json, b: Json)
    requires WellFormed(a) && WellFormed(b)
    ensures Print(a) == Print(b) <==> Same(a, b)
  {
    ParseOfPrint(a);
    ParseOfPrint(b);
    SameIffCanonical(a, b);
  }

  /** Canonical form is stable. */
  lemma {:induction false} CanonicalIdempotent(j: Json)
    requires WellFormed(j)
    ensures Canonical(Canonical(j)) == Canonical(j)
    ensures Same(Canonical(j), j)
    decreases j, 1
  {
    CanonicalIsWellFormed(j);
    SameIffCanonical(Canonical(j), j);
    match j
    case Arr(items) =>
      forall i | 0 <= i < |items|
        ensures CanonicalItems(CanonicalItems(items))[i] == CanonicalItems(items)[i]
      {
        CanonicalItemsAt(items, i);
        CanonicalItemsAt(CanonicalItems(items), i);
        ItemsWellFormedAt(items, i);
        CanonicalIdempotent(items[i]);
      }
    case Obj(fields) =>
      var sorted := SortByKey(CanonicalFields(fields));
      CanonicalFieldsKeys(fields);
      SortAscends(CanonicalFields(fields));
      SortKeepsMembers(CanonicalFields(fields));
      forall i | 0 <= i < |sorted|
        ensures CanonicalFields(sorted)[i] == sorted[i]
      {
        CanonicalFieldsAt(sorted, i);
        MemberIsCanonical(j, sorted[i]);
      }
      assert CanonicalFields(sorted) == sorted;
      SortOfAscending(sorted);
    case _ =>
  }

  lemma {:induction false} MemberIsCanonical(j: Json, f: Field)
    requires WellFormed(j) && j.Obj? && f in SortByKey(CanonicalFields(j.fields))
    ensures CanonicalField(f) == f
    decreases j, 0
  {
    SortKeepsMembers(CanonicalFields(j.fields));
    var g: Field := f;
    assert g in CanonicalFields(j.fields);
    var k :| 0 <= k < |j.fields| && CanonicalFields(j.fields)[k] == f;
    CanonicalFieldsAt(j.fields, k);
    FieldsWellFormedAt(j.fields, k);
    assert j.fields[k] in j.fields && j.fields[k].1 < j.fields[k];
    CanonicalIdempotent(j.fields[k].1);
  }
}
