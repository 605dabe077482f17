/** The projection inspector: cursors and pages. */
module Inspector {
  import opened Wrappers
  import opened TextOrder
  import opened Json
  import opened JsonParser
  import opened Base64
  import opened Uuids

  const PAGE_SIZE := 256
  const PAGE_QUERY_LIMIT := 257

  // ---- cursors ----

  lemma {:induction false} PlainEscape(s: string)
    requires forall i :: 0 <= i < |s| ==> s[i] as int >= 32 && s[i] != '"' && s[i] != '\\'
    ensures Escape(s) == s
  {
    if s != "" {
      PlainEscape(s[1..]);
      assert EscapeChar(s[0]) == [s[0]];
    }
  }

  predicate UuidChar(c: char) {
    c == '-' || '0' <= c <= '9' || 'a' <= c <= 'f'
  }

  lemma {:induction false} ParsedHexChars(s: string)
    requires ParseHex(s).Some?
    ensures forall i :: 0 <= i < |s| ==> UuidChar(s[i])
  {
    if s != "" {
      ParsedHexChars(s[..|s| - 1]);
    }
  }

  lemma UuidChars(id: string)
    requires ParseUuid(id).Some?
    ensures forall i :: 0 <= i < |id| ==> UuidChar(id[i])
  {
    var s := Unhyphenate(id);
    ParsedHexChars(s);
    assert s[..8] == id[..8] && s[8..12] == id[9..13] && s[12..16] == id[14..18];
    assert s[16..20] == id[19..23] && s[20..] == id[24..];
    forall i | 0 <= i < 36
      ensures UuidChar(id[i])
    {
      if i < 8 { assert id[i] == s[..8][i]; }
      else if 9 <= i < 13 { assert id[i] == s[8..12][i - 9]; }
      else if 14 <= i < 18 { assert id[i] == s[12..16][i - 14]; }
      else if 19 <= i < 23 { assert id[i] == s[16..20][i - 19]; }
      else if i >= 24 { assert id[i] == s[20..][i - 24]; }
    }
  }

  /** The cursor's payload: the identifier as a JSON string. */
  function CursorPayload(id: string): (payload: string)
    requires ParseUuid(id).Some?
    ensures payload == "\"" + id + "\""
    ensures forall i :: 0 <= i < |payload| ==> (payload[i] as int) < 128
  {
    UuidChars(id);
    PlainEscape(id);
    assert WriteString(id) == "\"" + id + "\"";
    Write(Str(id))
  }

  /** `_encode_cursor` */
  function EncodeCursor(id: string): string
    requires ParseUuid(id).Some?
  {
    StripEquals(Encode(CursorPayload(id)))
  }

  datatype CursorError = NotACursor | NotAUuid

  /** How `json.loads` reads bytes: a byte order mark to skip, the bytes per character, and which of
      them holds an ASCII character while the others are zero. */
  datatype Encoding = Encoding(mark: nat, width: nat, at: nat)

  const NUL := 0 as char
  const UTF8 := Encoding(0, 1, 0)

  predicate StartsWith(b: string, mark: string) {
    |mark| <= |b| && forall i :: 0 <= i < |mark| ==> b[i] == mark[i]
  }

  /** `json.detect_encoding` */
  function DetectEncoding(b: string): (e: Encoding)
    ensures e.mark <= |b| && e.at < e.width
  {
    if StartsWith(b, [NUL, NUL, 254 as char, 255 as char]) then Encoding(4, 4, 3)
    else if StartsWith(b, [255 as char, 254 as char, NUL, NUL]) then Encoding(4, 4, 0)
    else if StartsWith(b, [254 as char, 255 as char]) then Encoding(2, 2, 1)
    else if StartsWith(b, [255 as char, 254 as char]) then Encoding(2, 2, 0)
    else if StartsWith(b, [239 as char, 187 as char, 191 as char]) then Encoding(3, 1, 0)
    else if |b| >= 4 && b[0] == NUL then (if b[1] != NUL then Encoding(0, 2, 1) else Encoding(0, 4, 3))
    else if |b| >= 4 && b[1] == NUL then
      (if b[2] != NUL || b[3] != NUL then Encoding(0, 2, 0) else Encoding(0, 4, 0))
    else if |b| == 2 && b[0] == NUL then Encoding(0, 2, 1)
    else if |b| == 2 && b[1] == NUL then Encoding(0, 2, 0)
    else UTF8
  }

  /** The first character's bytes say an ASCII character. */
  predicate AsciiUnit(b: string, e: Encoding)
    requires e.at < e.width <= |b|
  {
    (b[e.at] as int) < 128 && forall k :: 0 <= k < e.width && k != e.at ==> b[k] == NUL
  }

  /** The text of bytes in one encoding, if it is ASCII.  Other texts, and broken ones, are no cursors:
      a JSON string with other characters outside an escape is no identifier. */
  function AsciiUnits(b: string, e: Encoding): Option<string>
    requires e.at < e.width
  {
    if b == "" then Some("")
    else if |b| < e.width || !AsciiUnit(b, e) then None
    else
      match AsciiUnits(b[e.width..], e)
      case None => None
      case Some(text) => Some([b[e.at]] + text)
  }

  function AsciiText(b: string): Option<string> {
    var e := DetectEncoding(b);
    AsciiUnits(b[e.mark..], e)
  }

  /** The JSON value inside a raw cursor. */
  function CursorValue(raw: string): Option<Json> {
    match Decode(raw + Equals(Missing(|raw|)))
    case None => None
    case Some(bytes) =>
      match AsciiText(bytes)
      case None => None
      case Some(text) => Parse(text)
  }

  /** `_decode_cursor` */
  function DecodeCursor(raw: Option<string>): Result<Option<string>, CursorError> {
    match raw
    case None => Ok(None)
    case Some(text) =>
      match CursorValue(text)
      case None => Err(NotACursor)
      case Some(Str(value)) => if ParseUuid(value).Some? then Ok(Some(value)) else Err(NotAUuid)
      case Some(_) => Err(NotAUuid)
  }

  /** An ASCII text written with `e.width` bytes per character. */
  function Widen(text: string, e: Encoding): (b: string)
    requires e.at < e.width
    ensures |b| == e.width * |text|
  {
    if text == "" then ""
    else seq(e.width, i => if i == e.at then text[0] else NUL) + Widen(text[1..], e)
  }

  lemma {:induction false} WidenReads(text: string, e: Encoding)
    requires e.at < e.width && forall i :: 0 <= i < |text| ==> (text[i] as int) < 128
    ensures AsciiUnits(Widen(text, e), e) == Some(text)
  {
    if text != "" {
      WidenReads(text[1..], e);
      assert Widen(text, e)[e.width..] == Widen(text[1..], e);
      assert text == [text[0]] + text[1..];
    }
  }

  lemma {:induction false} WidenOne(text: string)
    ensures Widen(text, UTF8) == text
  {
    if text != "" {
      WidenOne(text[1..]);
      assert text == [text[0]] + text[1..];
    }
  }

  predicate Visible(c: char) {
    0 < (c as int) < 128
  }

  predicate Unmarked(e: Encoding) {
    e == UTF8 || (e.mark == 0 && (e.width == 2 || e.width == 4) && (e.at == 0 || e.at == e.width - 1))
  }

  /** The encoding of a text of visible ASCII characters is recognised without a mark. */
  lemma DetectsWidth(text: string, e: Encoding)
    requires |text| >= 4 && forall i :: 0 <= i < |text| ==> Visible(text[i])
    requires Unmarked(e)
    ensures DetectEncoding(Widen(text, e)) == e
  {
    var b := Widen(text, e);
    if e.width == 1 {
      WidenOne(text);
    } else {
      WidenStarts(text, e);
      assert b[0] == if e.at == 0 then text[0] else NUL;
      assert b[1] == if e.at == 1 then text[0] else NUL;
      assert b[2] == NUL || Visible(b[2]);
      assert b[3] == NUL || Visible(b[3]);
    }
  }

  lemma WidenStarts(text: string, e: Encoding)
    requires |text| >= 4 && e.at < e.width && 2 <= e.width <= 4
    ensures |Widen(text, e)| >= 4
    ensures forall i :: 0 <= i < e.width ==> Widen(text, e)[i] == if i == e.at then text[0] else NUL
    ensures e.width == 2 ==> forall i :: 2 <= i < 4 ==> Widen(text, e)[i] == if i == 2 + e.at then text[1] else NUL
  {
    assert Widen(text, e)[e.width..] == Widen(text[1..], e);
  }

  /** A cursor may be written in any of the five encodings that are recognised without a mark. */
  lemma WideCursorDecodes(id: string, e: Encoding)
    requires ParseUuid(id).Some?
    requires Unmarked(e)
    ensures AllBytes(Widen(CursorPayload(id), e))
    ensures DecodeCursor(Some(StripEquals(Encode(Widen(CursorPayload(id), e))))) == Ok(Some(id))
  {
    var payload := CursorPayload(id);
    PayloadVisible(id);
    WidenIsBytes(payload, e);
    DetectsWidth(payload, e);
    WidenReads(payload, e);
    UnpaddedRoundTrip(Widen(payload, e));
    ParseOfPrint(Str(id));
  }

  lemma PayloadVisible(id: string)
    requires ParseUuid(id).Some?
    ensures |CursorPayload(id)| == 38 && forall i :: 0 <= i < 38 ==> Visible(CursorPayload(id)[i])
  {
    UuidChars(id);
  }

  lemma {:induction false} WidenIsBytes(text: string, e: Encoding)
    requires e.at < e.width && forall i :: 0 <= i < |text| ==> Visible(text[i])
    ensures AllBytes(Widen(text, e))
  {
    if text != "" {
      WidenIsBytes(text[1..], e);
    }
  }

  /** The byte order mark of an encoding that is recognised by one. */
  function MarkOf(e: Encoding): string {
    if e == Encoding(4, 4, 3) then [NUL, NUL, 254 as char, 255 as char]
    else if e == Encoding(4, 4, 0) then [255 as char, 254 as char, NUL, NUL]
    else if e == Encoding(2, 2, 1) then [254 as char, 255 as char]
    else if e == Encoding(2, 2, 0) then [255 as char, 254 as char]
    else if e == Encoding(3, 1, 0) then [239 as char, 187 as char, 191 as char]
    else ""
  }

  lemma DetectsMark(text: string, e: Encoding)
    requires |text| >= 4 && forall i :: 0 <= i < |text| ==> Visible(text[i])
    requires e.at < e.width && MarkOf(e) != ""
    ensures DetectEncoding(MarkOf(e) + Widen(text, e)) == e
  {
    var b := MarkOf(e) + Widen(text, e);
    if e.width == 1 {
      assert b[0] == 239 as char && b[1] == 187 as char && b[2] == 191 as char;
    } else {
      WidenStarts(text, e);
      assert b[e.mark..] == Widen(text, e);
      assert b[0] == MarkOf(e)[0] && b[1] == MarkOf(e)[1];
      assert e.width == 4 ==> b[2] == MarkOf(e)[2] && b[3] == MarkOf(e)[3];
      assert e.width == 2 ==> b[2] == if e.at == 0 then text[0] else NUL;
      assert e.width == 2 ==> b[3] == if e.at == 1 then text[0] else NUL;
    }
  }

  /** Or in any of the five that begin with a byte order mark. */
  lemma MarkedCursorDecodes(id: string, e: Encoding)
    requires ParseUuid(id).Some?
    requires e.at < e.width && MarkOf(e) != ""
    ensures AllBytes(MarkOf(e) + Widen(CursorPayload(id), e))
    ensures DecodeCursor(Some(StripEquals(Encode(MarkOf(e) + Widen(CursorPayload(id), e))))) == Ok(Some(id))
  {
    PayloadVisible(id);
    MarkedTextReads(CursorPayload(id), e);
    ParseOfPrint(Str(id));
    CursorOfBytes(MarkOf(e) + Widen(CursorPayload(id), e), CursorPayload(id), id);
  }

  lemma MarkedTextReads(text: string, e: Encoding)
    requires |text| >= 4 && forall i :: 0 <= i < |text| ==> Visible(text[i])
    requires e.at < e.width && MarkOf(e) != ""
    ensures AllBytes(MarkOf(e) + Widen(text, e)) && AsciiText(MarkOf(e) + Widen(text, e)) == Some(text)
  {
    WidenIsBytes(text, e);
    DetectsMark(text, e);
    MarkIsBytes(e);
    assert (MarkOf(e) + Widen(text, e))[e.mark..] == Widen(text, e);
    WidenReads(text, e);
  }

  lemma MarkIsBytes(e: Encoding)
    requires MarkOf(e) != ""
    ensures AllBytes(MarkOf(e)) && |MarkOf(e)| == e.mark
  {
  }

  lemma CursorOfBytes(bytes: string, text: string, id: string)
    requires AllBytes(bytes) && AsciiText(bytes) == Some(text) && Parse(text) == Some(Str(id)) && ParseUuid(id).Some?
    ensures DecodeCursor(Some(StripEquals(Encode(bytes)))) == Ok(Some(id))
  {
    UnpaddedRoundTrip(bytes);
  }

  /** The raw cursor is unpadded base64 of bytes that, in the encoding they show, are JSON text for the identifier. */
  ghost predicate Carries(raw: string, id: string) {
    var bytes := Decode(raw + Equals((4 - |raw| % 4) % 4));
    bytes.Some? && AsciiText(bytes.value).Some? && Parse(AsciiText(bytes.value).value) == Some(Str(id))
  }

  /** No cursor, or one that carries a canonical identifier: everything else is refused, and nothing is ignored. */
  lemma DecodeCursorIff(raw: Option<string>, cursor: Option<string>)
    ensures DecodeCursor(raw) == Ok(cursor) <==>
              || (raw.None? && cursor.None?)
              || (raw.Some? && cursor.Some? && Carries(raw.value, cursor.value) && ParseUuid(cursor.value).Some?)
  {
    if raw.Some? && cursor.Some? {
      CarriesIff(raw.value, cursor.value);
    }
  }

  lemma CarriesIff(raw: string, id: string)
    ensures Carries(raw, id) <==> CursorValue(raw) == Some(Str(id))
  {
  }

  /** Every cursor the inspector hands out decodes to the identifier it was made from. */
  lemma CursorRoundTrip(id: string)
    requires ParseUuid(id).Some?
    ensures DecodeCursor(Some(EncodeCursor(id))) == Ok(Some(id))
  {
    WideCursorDecodes(id, UTF8);
    WidenOne(CursorPayload(id));
  }

  // ---- one page ----

  /** What the database returns for one row. */
  datatype BackendRow = BackendRow(id: string, run: string, body: string)

  datatype Page = Page(points: seq<BackendRow>, count: int, next: Option<string>)

  datatype ProtocolError = PageInvalid | BadIdentifier | BadPayload | NotOrdered | CountTooSmall | CountMismatch

  /** The identifier a row must come after. */
  function Previous(rows: seq<BackendRow>, cursor: Option<string>, i: nat): Option<string>
    requires i <= |rows|
  {
    if i == 0 then cursor else Some(rows[i - 1].id)
  }

  predicate RowAccepted(rows: seq<BackendRow>, run: string, cursor: Option<string>, i: nat)
    requires i < |rows|
  {
    && ParseUuid(rows[i].id).Some? && rows[i].run == run
    && var previous := Previous(rows, cursor, i);
       previous.Some? ==> Before(previous.value, rows[i].id)
  }

  predicate PageAccepted(rows: seq<BackendRow>, count: int, run: string, cursor: Option<string>) {
    && |rows| <= PAGE_QUERY_LIMIT
    && (forall i :: 0 <= i < |rows| ==> RowAccepted(rows, run, cursor, i))
    && |rows| <= count
    && (cursor.None? ==> |rows| == if count < PAGE_QUERY_LIMIT then count else PAGE_QUERY_LIMIT)
  }

  /** The cursor to the next page, when the query fetched more rows than a page holds. */
  function NextCursor(rows: seq<BackendRow>): Option<string> {
    if |rows| > PAGE_SIZE && ParseUuid(rows[PAGE_SIZE - 1].id).Some?
    then Some(EncodeCursor(rows[PAGE_SIZE - 1].id)) else None
  }

  /** The page made of the rows of one query. */
  function PageOf(rows: seq<BackendRow>, count: int): Page {
    Page(if |rows| > PAGE_SIZE then rows[..PAGE_SIZE] else rows, count, NextCursor(rows))
  }

  /** The checks of `_read_projection` on what the backend returned. */
  method ReadPage(rows: seq<BackendRow>, count: int, run: string, cursor: Option<string>)
    returns (r: Result<Page, ProtocolError>)
    ensures r.Ok? <==> PageAccepted(rows, count, run, cursor)
    ensures r.Ok? ==> r.value == PageOf(rows, count)
  {
    if |rows| > PAGE_QUERY_LIMIT { return Err(PageInvalid); }
    var points: seq<BackendRow> := [];
    var previous := cursor;
    for i := 0 to |rows|
      invariant points == rows[..i] && previous == Previous(rows, cursor, i)
      invariant forall k :: 0 <= k < i ==> RowAccepted(rows, run, cursor, k)
    {
      assert PageAccepted(rows, count, run, cursor) ==> RowAccepted(rows, run, cursor, i);
      if ParseUuid(rows[i].id).None? { return Err(BadIdentifier); }
      if rows[i].run != run { return Err(BadPayload); }
      if previous.Some? && !Before(previous.value, rows[i].id) { return Err(NotOrdered); }
      previous := Some(rows[i].id);
      points := points + [rows[i]];
    }
    assert points == rows;
    if count < |points| { return Err(CountTooSmall); }
    if cursor.None? && |points| != (if count < PAGE_QUERY_LIMIT then count else PAGE_QUERY_LIMIT) {
      return Err(CountMismatch);
    }
    var hasNext := |points| > PAGE_SIZE;
    assert hasNext ==> RowAccepted(rows, run, cursor, PAGE_SIZE - 1);
    if hasNext { points := points[..PAGE_SIZE]; }
    return Ok(Page(points, count, if hasNext then Some(EncodeCursor(points[|points| - 1].id)) else None));
  }

  // ---- a fixed table ----

  datatype Row = Row(id: nat, run: string, body: string)

  ghost predicate AscendingIds(rows: seq<Row>) {
    forall i, j :: 0 <= i < j < |rows| ==> rows[i].id < rows[j].id
  }

  ghost predicate AllUuids(rows: seq<Row>) {
    forall i :: 0 <= i < |rows| ==> IsUuid(rows[i].id)
  }

  /** A table listed by its primary key. */
  ghost predicate TableOk(table: seq<Row>) {
    AscendingIds(table) && AllUuids(table)
  }

  function OfRun(table: seq<Row>, run: string): (rows: seq<Row>)
    ensures forall r :: r in rows <==> r in table && r.run == run
  {
    if table == [] then []
    else
      assert table == [table[0]] + table[1..];
      (if table[0].run == run then [table[0]] else []) + OfRun(table[1..], run)
  }

  predicate Kept(row: Row, cursor: Option<nat>) {
    cursor.None? || row.id > cursor.value
  }

  /** `id > cursor`, or everything when there is no cursor. */
  function After(rows: seq<Row>, cursor: Option<nat>): seq<Row> {
    if rows == [] then []
    else (if Kept(rows[0], cursor) then [rows[0]] else []) + After(rows[1..], cursor)
  }

  function Fetched(rows: seq<Row>): (r: seq<BackendRow>)
    ensures |r| == |rows| && forall i :: 0 <= i < |r| ==>
              r[i] == BackendRow(UuidText(rows[i].id), rows[i].run, rows[i].body)
  {
    seq(|rows|, i requires 0 <= i < |rows| => BackendRow(UuidText(rows[i].id), rows[i].run, rows[i].body))
  }

  function CursorId(cursor: Option<string>): Option<nat> {
    match cursor
    case None => None
    case Some(text) => ParseUuid(text)
  }

  /** At most one page and one row more, from row `k` on. */
  function Window(rows: seq<Row>, k: nat): (r: seq<Row>)
    requires k <= |rows|
    ensures |r| <= PAGE_QUERY_LIMIT && |r| <= |rows| - k && forall i :: 0 <= i < |r| ==> r[i] == rows[k + i]
  {
    if |rows| - k > PAGE_QUERY_LIMIT then rows[k..k + PAGE_QUERY_LIMIT] else rows[k..]
  }

  /** The page query: run filter, keyset condition, primary-key order, limit. */
  function Query(table: seq<Row>, run: string, cursor: Option<nat>): seq<BackendRow> {
    Fetched(Window(After(OfRun(table, run), cursor), 0))
  }

  lemma {:induction false} OfRunAscends(table: seq<Row>, run: string)
    requires AscendingIds(table)
    ensures AscendingIds(OfRun(table, run))
  {
    if table != [] {
      OfRunAscends(table[1..], run);
      var rest := OfRun(table[1..], run);
      forall k | 0 <= k < |rest|
        ensures table[0].id < rest[k].id
      {
        assert rest[k] in table[1..];
        var j :| 0 <= j < |table[1..]| && table[1..][j] == rest[k];
        assert table[j + 1] == rest[k];
      }
    }
  }

  lemma OfRunOk(table: seq<Row>, run: string)
    requires TableOk(table)
    ensures TableOk(OfRun(table, run))
    ensures forall i :: 0 <= i < |OfRun(table, run)| ==> OfRun(table, run)[i].run == run
  {
    OfRunAscends(table, run);
    var rows := OfRun(table, run);
    forall i | 0 <= i < |rows|
      ensures rows[i].run == run && IsUuid(rows[i].id)
    {
      assert rows[i] in rows;
      assert rows[i] in table;
      var j :| 0 <= j < |table| && table[j] == rows[i];
    }
  }

  lemma {:induction false} AllKept(rows: seq<Row>, cursor: Option<nat>)
    requires forall i :: 0 <= i < |rows| ==> Kept(rows[i], cursor)
    ensures After(rows, cursor) == rows
  {
    if rows != [] {
      AllKept(rows[1..], cursor);
      assert rows == [rows[0]] + rows[1..];
    }
  }

  /** In primary-key order the keyset condition drops a prefix. */
  lemma {:induction false} AfterIsSuffix(rows: seq<Row>, cursor: Option<nat>) returns (k: nat)
    requires AscendingIds(rows)
    ensures k <= |rows| && After(rows, cursor) == rows[k..]
    ensures forall i :: 0 <= i < |rows| ==> (i >= k <==> Kept(rows[i], cursor))
  {
    if rows == [] {
      k := 0;
    } else if Kept(rows[0], cursor) {
      k := 0;
      AllKept(rows, cursor);
    } else {
      var rest := AfterIsSuffix(rows[1..], cursor);
      k := rest + 1;
      assert rows[k..] == rows[1..][rest..];
      forall i | 0 <= i < |rows|
        ensures i >= k <==> Kept(rows[i], cursor)
      {
        if i > 0 { assert rows[i] == rows[1..][i - 1]; }
      }
    }
  }

  /** The query fetches a window of the run's rows. */
  lemma QueryIsWindow(table: seq<Row>, run: string, cursor: Option<nat>) returns (k: nat)
    requires TableOk(table)
    ensures k <= |OfRun(table, run)| && Query(table, run, cursor) == Fetched(Window(OfRun(table, run), k))
    ensures forall i :: 0 <= i < |OfRun(table, run)| ==> (i >= k <==> Kept(OfRun(table, run)[i], cursor))
  {
    OfRunOk(table, run);
    k := AfterIsSuffix(OfRun(table, run), cursor);
    WindowOfSuffix(OfRun(table, run), k);
  }

  lemma WindowOfSuffix(rows: seq<Row>, k: nat)
    requires k <= |rows|
    ensures Window(rows[k..], 0) == Window(rows, k)
  {
  }

  lemma FetchedAccepted(rows: seq<Row>, run: string, cursor: Option<string>, i: nat)
    requires TableOk(rows) && i < |rows| && rows[i].run == run
    requires cursor.Some? ==> ParseUuid(cursor.value).Some? && rows[0].id > ParseUuid(cursor.value).value
    ensures RowAccepted(Fetched(rows), run, cursor, i)
  {
    ParseUuidExact(UuidText(rows[i].id), rows[i].id);
    if i > 0 {
      TextOrderIsNumeric(rows[i - 1].id, rows[i].id);
    } else if cursor.Some? {
      var c := ParseUuid(cursor.value).value;
      ParseUuidExact(cursor.value, c);
      TextOrderIsNumeric(c, rows[0].id);
    }
  }

  lemma WindowAccepted(rows: seq<Row>, run: string, cursor: Option<string>, count: int)
    requires TableOk(rows) && |rows| <= PAGE_QUERY_LIMIT && forall i :: 0 <= i < |rows| ==> rows[i].run == run
    requires cursor.Some? ==>
               ParseUuid(cursor.value).Some? && (rows != [] ==> rows[0].id > ParseUuid(cursor.value).value)
    requires |rows| <= count
    requires cursor.None? ==> |rows| == if count < PAGE_QUERY_LIMIT then count else PAGE_QUERY_LIMIT
    ensures PageAccepted(Fetched(rows), count, run, cursor)
  {
    forall i | 0 <= i < |rows|
      ensures RowAccepted(Fetched(rows), run, cursor, i)
    {
      FetchedAccepted(rows, run, cursor, i);
    }
  }

  lemma WindowOk(rows: seq<Row>, k: nat)
    requires TableOk(rows) && k <= |rows|
    ensures TableOk(Window(rows, k))
  {
  }

  /** On every table and for every valid cursor the row checks accept: the text-order check never fires. */
  lemma QueryAccepted(table: seq<Row>, run: string, cursor: Option<string>)
    requires TableOk(table) && (cursor.Some? ==> ParseUuid(cursor.value).Some?)
    ensures PageAccepted(Query(table, run, CursorId(cursor)), |OfRun(table, run)|, run, cursor)
  {
    var all := OfRun(table, run);
    OfRunOk(table, run);
    var k := QueryIsWindow(table, run, CursorId(cursor));
    WindowOk(all, k);
    if cursor.None? && all != [] {
      assert 0 >= k;
    }
    WindowAccepted(Window(all, k), run, cursor, |all|);
  }

  datatype InspectError = BadCursor(cause: CursorError) | Backend(reason: ProtocolError)

  /** The page of a fixed table that a decoded cursor selects; a missing table is an empty one. */
  function Selected(table: Option<seq<Row>>, run: string, cursor: Option<string>): Page {
    match table
    case None => Page([], 0, None)
    case Some(rows) => PageOf(Query(rows, run, CursorId(cursor)), |OfRun(rows, run)|)
  }

  /** One request: decode the cursor, query the table if it exists, check and page. */
  method Inspect(table: Option<seq<Row>>, run: string, raw: Option<string>) returns (r: Result<Page, InspectError>)
    requires table.Some? ==> TableOk(table.value)
    ensures r.Ok? <==> DecodeCursor(raw).Ok?
    ensures r.Ok? ==> r.value == Selected(table, run, DecodeCursor(raw).value)
  {
    var decoded := DecodeCursor(raw);
    if decoded.Err? { return Err(BadCursor(decoded.error)); }
    if table.None? { return Ok(Page([], 0, None)); }
    DecodedIsUuid(raw);
    QueryAccepted(table.value, run, decoded.value);
    var page := ReadPage(Query(table.value, run, CursorId(decoded.value)), |OfRun(table.value, run)|, run,
                         decoded.value);
    return Ok(page.value);
  }

  lemma DecodedIsUuid(raw: Option<string>)
    ensures DecodeCursor(raw).Ok? && DecodeCursor(raw).value.Some? ==> ParseUuid(DecodeCursor(raw).value.value).Some?
  {
  }
}
