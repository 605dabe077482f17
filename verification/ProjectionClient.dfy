/** The client that follows `next_cursor`. */
module ProjectionClient {
  import opened Wrappers
  import opened Json
  import opened Base64
  import opened Uuids
  import opened Inspector

  const MAX_PAGES := 4096
  const MAX_POINTS := 1_000_000

  datatype ParseError = NoPages | TooManyPages | BadCount | BadCursorText | CursorRepeated | EmptyPage | EarlyTerminal
    | ForeignPoint | DuplicatePoint | TooManyPoints | NotTerminated | CountDiffers

  function AllPoints(pages: seq<Page>): seq<BackendRow> {
    if pages == [] then [] else AllPoints(pages[..|pages| - 1]) + pages[|pages| - 1].points
  }

  /** Points of one run with distinct identifiers, within the point limit. */
  ghost predicate Collectable(points: seq<BackendRow>, run: string) {
    && |points| <= MAX_POINTS
    && (forall i :: 0 <= i < |points| ==> points[i].run == run)
    && forall i, j :: 0 <= i < j < |points| ==> points[i].id != points[j].id
  }

  function IdSet(points: seq<BackendRow>): set<string> {
    set i | 0 <= i < |points| :: points[i].id
  }

  /** `_parse_cursor` of the client: an unpadded URL-safe text holding a JSON string or number. */
  predicate ClientCursor(c: string) {
    && c != "" && (forall i :: 0 <= i < |c| ==> UrlSymbol(c[i]))
    && CursorValue(c).Some? && (CursorValue(c).value.Str? || CursorValue(c).value.Int?)
  }

  ghost predicate HeaderOk(pages: seq<Page>, i: nat)
    requires i < |pages|
  {
    && pages[i].count == pages[0].count && 0 <= pages[i].count <= MAX_POINTS
    && match pages[i].next
       case Some(c) => ClientCursor(c) && pages[i].points != [] && forall j :: 0 <= j < i ==> pages[j].next != Some(c)
       case None => i == |pages| - 1
  }

  ghost predicate HeadersOk(pages: seq<Page>, n: nat)
    requires n <= |pages|
  {
    forall i :: 0 <= i < n ==> HeaderOk(pages, i)
  }

  lemma HeadersStep(pages: seq<Page>, i: nat)
    requires i < |pages|
    ensures HeadersOk(pages, i + 1) <==> HeadersOk(pages, i) && HeaderOk(pages, i)
    ensures HeadersOk(pages, |pages|) ==> HeaderOk(pages, i)
  {
  }

  ghost predicate PagesAccepted(pages: seq<Page>, run: string) {
    && 0 < |pages| <= MAX_PAGES
    && HeadersOk(pages, |pages|)
    && pages[|pages| - 1].next.None?
    && Collectable(AllPoints(pages), run)
    && |AllPoints(pages)| == pages[0].count
  }

  lemma OneMorePoint(points: seq<BackendRow>, p: BackendRow, run: string)
    requires Collectable(points, run)
    ensures Collectable(points + [p], run) <==> p.run == run && p.id !in IdSet(points) && |points| < MAX_POINTS
    ensures IdSet(points + [p]) == IdSet(points) + {p.id}
  {
    IdSetGrows(points, p);
    var longer := points + [p];
    assert longer[|points|] == p && forall i :: 0 <= i < |points| ==> longer[i] == points[i];
    if p.id in IdSet(points) {
      var i :| 0 <= i < |points| && points[i].id == p.id;
      assert longer[i].id == longer[|points|].id;
    }
  }

  lemma PrefixCollectable(prefix: seq<BackendRow>, all: seq<BackendRow>, run: string)
    requires prefix <= all && Collectable(all, run)
    ensures Collectable(prefix, run)
  {
    assert forall i :: 0 <= i < |prefix| ==> prefix[i] == all[i];
  }

  /** The inner loop: the points of one page. */
  method AddPoints(points: seq<BackendRow>, more: seq<BackendRow>, run: string) returns (r: Option<ParseError>)
    requires Collectable(points, run)
    ensures r.None? <==> Collectable(points + more, run)
  {
    var all, seen := points, IdSet(points);
    assert points + more[..0] == points;
    for i := 0 to |more|
      invariant all == points + more[..i] && seen == IdSet(all) && Collectable(all, run)
    {
      OneMorePoint(all, more[i], run);
      assert all + [more[i]] == points + more[..i + 1];
      if more[i].run != run || more[i].id in seen || |all| >= MAX_POINTS {
        TooFar(points, more, i + 1, run);
        return Some(if more[i].run != run then ForeignPoint
                    else if more[i].id in seen then DuplicatePoint
                    else TooManyPoints);
      }
      seen := seen + {more[i].id};
      all := all + [more[i]];
    }
    assert more[..|more|] == more;
    return None;
  }

  lemma TooFar(points: seq<BackendRow>, more: seq<BackendRow>, n: nat, run: string)
    requires n <= |more| && !Collectable(points + more[..n], run)
    ensures !Collectable(points + more, run)
  {
    if Collectable(points + more, run) {
      assert points + more[..n] <= points + more;
      PrefixCollectable(points + more[..n], points + more, run);
    }
  }

  lemma IdSetGrows(points: seq<BackendRow>, p: BackendRow)
    ensures IdSet(points + [p]) == IdSet(points) + {p.id}
  {
    var longer := points + [p];
    forall id | id in IdSet(points) + {p.id}
      ensures id in IdSet(longer)
    {
      if id == p.id {
        assert longer[|points|] == p;
      } else {
        var i :| 0 <= i < |points| && points[i].id == id;
        assert longer[i] == points[i];
      }
    }
  }

  lemma {:induction false} PointsOfPrefix(pages: seq<Page>, n: nat)
    requires n <= |pages|
    ensures AllPoints(pages[..n]) <= AllPoints(pages)
    decreases |pages|
  {
    if n == |pages| {
      assert pages[..n] == pages;
    } else {
      PointsOfPrefix(pages[..|pages| - 1], n);
      assert pages[..|pages| - 1][..n] == pages[..n];
    }
  }

  ghost predicate CursorsBefore(pages: seq<Page>, i: nat, seen: set<string>)
    requires i <= |pages|
  {
    forall c :: c in seen <==> exists j :: 0 <= j < i && pages[j].next == Some(c)
  }

  /** The checks on a page before its points are read. */
  method CheckHeader(pages: seq<Page>, i: nat, seen: set<string>) returns (r: Option<ParseError>)
    requires i < |pages| && CursorsBefore(pages, i, seen)
    ensures r.None? <==> HeaderOk(pages, i)
  {
    var page := pages[i];
    if page.count < 0 || page.count > MAX_POINTS || page.count != pages[0].count { return Some(BadCount); }
    match page.next
    case Some(c) =>
      if !ClientCursor(c) { return Some(BadCursorText); }
      if c in seen { return Some(CursorRepeated); }
      if page.points == [] { return Some(EmptyPage); }
      return None;
    case None =>
      return if i != |pages| - 1 then Some(EarlyTerminal) else None;
  }

  lemma RejectedPrefix(pages: seq<Page>, i: nat, run: string)
    requires i < |pages| && !Collectable(AllPoints(pages[..i]) + pages[i].points, run)
    ensures !PagesAccepted(pages, run)
  {
    assert pages[..i + 1][..i] == pages[..i];
    PointsOfPrefix(pages, i + 1);
    if Collectable(AllPoints(pages), run) {
      PrefixCollectable(AllPoints(pages[..i + 1]), AllPoints(pages), run);
    }
  }

  lemma CursorSeen(pages: seq<Page>, i: nat, seen: set<string>)
    requires i < |pages| && CursorsBefore(pages, i, seen)
    ensures CursorsBefore(pages, i + 1, if pages[i].next.Some? then seen + {pages[i].next.value} else seen)
  {
  }

  lemma PointsStep(pages: seq<Page>, i: nat)
    requires i < |pages|
    ensures AllPoints(pages[..i + 1]) == AllPoints(pages[..i]) + pages[i].points
  {
    assert pages[..i + 1][..i] == pages[..i];
  }

  /** `parse_projection_pages` */
  method ParsePages(pages: seq<Page>, run: string) returns (r: Result<seq<BackendRow>, ParseError>)
    ensures r.Ok? <==> PagesAccepted(pages, run)
    ensures r.Ok? ==> r.value == AllPoints(pages)
  {
    if pages == [] { return Err(NoPages); }
    if |pages| > MAX_PAGES { return Err(TooManyPages); }
    var points: seq<BackendRow> := [];
    var seenCursors: set<string> := {};
    for i := 0 to |pages|
      invariant points == AllPoints(pages[..i]) && Collectable(points, run)
      invariant HeadersOk(pages, i) && CursorsBefore(pages, i, seenCursors)
    {
      var header := CheckHeader(pages, i, seenCursors);
      HeadersStep(pages, i);
      if header.Some? { return Err(header.value); }
      var added := AddPoints(points, pages[i].points, run);
      if added.Some? {
        RejectedPrefix(pages, i, run);
        return Err(added.value);
      }
      PointsStep(pages, i);
      CursorSeen(pages, i, seenCursors);
      points := points + pages[i].points;
      if pages[i].next.Some? { seenCursors := seenCursors + {pages[i].next.value}; }
    }
    assert pages[..|pages|] == pages;
    if pages[|pages| - 1].next.Some? { return Err(NotTerminated); }
    if |points| != pages[0].count { return Err(CountDiffers); }
    return Ok(points);
  }

  // ---- following the cursors of a fixed table ----

  /** The row at which page `n` starts, `PAGE_SIZE` rows to a page. */
  function Start(n: nat): nat {
    256 * n
  }

  /** The cursor text for a row identifier. */
  function CursorText(id: nat): string {
    if ParseUuid(UuidText(id)).Some? then EncodeCursor(UuidText(id)) else ""
  }

  /** The raw cursor a client holds after `k` rows of a run, for the cursor texts `f`. */
  function RawCursor(f: nat -> string, rows: seq<Row>, k: nat): Option<string>
    requires k <= |rows|
  {
    if k == 0 then None else Some(f(rows[k - 1].id))
  }

  /** The page that starts at row `k` of a run. */
  function PageFrom(f: nat -> string, rows: seq<Row>, k: nat): Page
    requires k <= |rows|
  {
    var end := if |rows| - k > PAGE_SIZE then k + PAGE_SIZE else |rows|;
    Page(Fetched(rows[k..end]), |rows|, if end < |rows| then RawCursor(f, rows, end) else None)
  }

  /** `pages` are the consecutive pages of `rows`, all but the last of them full. */
  ghost predicate PagesFrom(f: nat -> string, rows: seq<Row>, pages: seq<Page>) {
    forall p :: 0 <= p < |pages| ==>
      Start(p) <= |rows| && (p > 0 ==> Start(p) < |rows|) && pages[p] == PageFrom(f, rows, Start(p))
  }

  /** `n` full pages have been fetched, there may be more rows, and `cursor` leads to them. */
  ghost predicate Awaiting(f: nat -> string, rows: seq<Row>, n: nat, cursor: Option<string>) {
    && Start(n) <= |rows| && (n > 0 ==> Start(n) < |rows|)
    && cursor == RawCursor(f, rows, Start(n))
  }

  lemma CursorTextDecodes(id: nat)
    requires IsUuid(id)
    ensures ParseUuid(UuidText(id)) == Some(id)
    ensures CursorText(id) == EncodeCursor(UuidText(id))
    ensures DecodeCursor(Some(CursorText(id))) == Ok(Some(UuidText(id)))
    ensures ClientCursor(CursorText(id))
  {
    ParseUuidExact(UuidText(id), id);
    CursorRoundTrip(UuidText(id));
    EncodedIsClientCursor(UuidText(id));
  }

  lemma EncodedIsClientCursor(id: string)
    requires ParseUuid(id).Some?
    ensures ClientCursor(EncodeCursor(id))
  {
    CursorRoundTrip(id);
    EncodedChars(CursorPayload(id));
  }

  lemma CursorTextInjective(m: nat, n: nat)
    requires IsUuid(m) && IsUuid(n) && CursorText(m) == CursorText(n)
    ensures m == n
  {
    CursorTextDecodes(m);
    CursorTextDecodes(n);
    TextOrderIsNumeric(m, n);
  }

  // ---- one turn of the loop ----

  lemma WindowStart(rows: seq<Row>, cursor: Option<nat>, k: nat, j: nat)
    requires TableOk(rows) && k <= |rows| && j <= |rows|
    requires cursor == if k == 0 then None else Some(rows[k - 1].id)
    requires forall i :: 0 <= i < |rows| ==> (i >= j <==> Kept(rows[i], cursor))
    ensures j == k
  {
    assert k < |rows| ==> Kept(rows[k], cursor);
    assert k > 0 ==> !Kept(rows[k - 1], cursor);
  }

  lemma FullPage(rows: seq<Row>, k: nat)
    requires TableOk(rows) && k + PAGE_SIZE < |rows|
    ensures PageOf(Fetched(Window(rows, k)), |rows|) == PageFrom(CursorText, rows, k)
  {
    var fetched := Fetched(Window(rows, k));
    var id := rows[k + PAGE_SIZE - 1].id;
    CursorTextDecodes(id);
    assert fetched[PAGE_SIZE - 1].id == UuidText(id);
    assert NextCursor(fetched) == Some(CursorText(id));
    assert fetched[..PAGE_SIZE] == Fetched(rows[k..k + PAGE_SIZE]);
  }

  lemma PageOfWindow(rows: seq<Row>, k: nat)
    requires TableOk(rows) && k <= |rows|
    ensures PageOf(Fetched(Window(rows, k)), |rows|) == PageFrom(CursorText, rows, k)
  {
    if |rows| - k > PAGE_SIZE { FullPage(rows, k); } else { assert Window(rows, k) == rows[k..|rows|]; }
  }

  function RowCursor(rows: seq<Row>, k: nat): Option<nat>
    requires k <= |rows|
  {
    if k == 0 then None else Some(rows[k - 1].id)
  }

  lemma QueryFrom(table: seq<Row>, run: string, k: nat)
    requires TableOk(table) && k <= |OfRun(table, run)|
    ensures Query(table, run, RowCursor(OfRun(table, run), k)) == Fetched(Window(OfRun(table, run), k))
  {
    var rows := OfRun(table, run);
    OfRunOk(table, run);
    var j := QueryIsWindow(table, run, RowCursor(rows, k));
    WindowStart(rows, RowCursor(rows, k), k, j);
  }

  lemma RawCursorReads(rows: seq<Row>, k: nat)
    requires TableOk(rows) && k <= |rows|
    ensures DecodeCursor(RawCursor(CursorText, rows, k)).Ok?
    ensures CursorId(DecodeCursor(RawCursor(CursorText, rows, k)).value) == RowCursor(rows, k)
  {
    if k > 0 { CursorTextDecodes(rows[k - 1].id); }
  }

  /** Asking with the cursor after `k` rows selects the page that starts at row `k`. */
  lemma SelectedFrom(table: seq<Row>, run: string, k: nat)
    requires TableOk(table) && k <= |OfRun(table, run)|
    ensures var rows := OfRun(table, run);
            && DecodeCursor(RawCursor(CursorText, rows, k)).Ok?
            && Selected(Some(table), run, DecodeCursor(RawCursor(CursorText, rows, k)).value) ==
               PageFrom(CursorText, rows, k)
  {
    OfRunOk(table, run);
    RawCursorReads(OfRun(table, run), k);
    QueryFrom(table, run, k);
    PageOfWindow(OfRun(table, run), k);
  }

  lemma PageFacts(f: nat -> string, rows: seq<Row>, n: nat)
    requires Start(n) <= |rows| && (n > 0 ==> Start(n) < |rows|)
    ensures var page := PageFrom(f, rows, Start(n));
            && (page.next.None? <==> |rows| <= Start(n + 1))
            && (page.next.Some? ==> Awaiting(f, rows, n + 1, page.next))
  {
  }

  lemma AppendedPage(f: nat -> string, rows: seq<Row>, pages: seq<Page>, page: Page)
    requires PagesFrom(f, rows, pages) && Start(|pages|) <= |rows| && (pages != [] ==> Start(|pages|) < |rows|)
    requires page == PageFrom(f, rows, Start(|pages|))
    ensures PagesFrom(f, rows, pages + [page])
  {
    var longer := pages + [page];
    forall p | 0 <= p < |longer|
      ensures Start(p) <= |rows| && (p > 0 ==> Start(p) < |rows|) && longer[p] == PageFrom(f, rows, Start(p))
    {
      if p < |pages| { assert longer[p] == pages[p]; }
    }
  }

  /** One turn of the capture loop: the next page, and what its cursor says about the rest. */
  method FetchNext(table: seq<Row>, run: string, n: nat, cursor: Option<string>) returns (page: Page)
    requires TableOk(table) && Awaiting(CursorText, OfRun(table, run), n, cursor)
    ensures page == PageFrom(CursorText, OfRun(table, run), Start(n))
    ensures page.next.None? <==> |OfRun(table, run)| <= Start(n + 1)
    ensures page.next.Some? ==> Awaiting(CursorText, OfRun(table, run), n + 1, page.next)
  {
    SelectedFrom(table, run, Start(n));
    PageFacts(CursorText, OfRun(table, run), n);
    var answer := Inspect(Some(table), run, cursor);
    return answer.value;
  }

  // ---- all the pages together ----

  function End(rows: seq<Row>, n: nat): (k: nat)
    ensures k <= |rows|
  {
    if Start(n) <= |rows| then Start(n) else |rows|
  }

  lemma FetchedSplit(rows: seq<Row>, a: nat, b: nat)
    requires a <= b <= |rows|
    ensures Fetched(rows[..a]) + Fetched(rows[a..b]) == Fetched(rows[..b])
  {
  }

  lemma {:induction false} PointsOfPages(f: nat -> string, rows: seq<Row>, pages: seq<Page>)
    requires PagesFrom(f, rows, pages)
    ensures AllPoints(pages) == Fetched(rows[..End(rows, |pages|)])
    decreases |pages|
  {
    if pages != [] {
      var n := |pages| - 1;
      PointsOfPages(f, rows, pages[..n]);
      assert AllPoints(pages) == AllPoints(pages[..n]) + pages[n].points;
      assert pages[n] == PageFrom(f, rows, Start(n));
      FetchedSplit(rows, Start(n), End(rows, n + 1));
    }
  }

  /** The cursor texts of `rows` are well formed for the client, and all different. */
  ghost predicate GoodCursors(f: nat -> string, rows: seq<Row>) {
    && (forall i :: 0 <= i < |rows| ==> ClientCursor(f(rows[i].id)))
    && forall i, j :: 0 <= i < j < |rows| ==> f(rows[i].id) != f(rows[j].id)
  }

  lemma CursorsAreGood(rows: seq<Row>)
    requires TableOk(rows)
    ensures GoodCursors(CursorText, rows)
  {
    forall i | 0 <= i < |rows|
      ensures ClientCursor(CursorText(rows[i].id))
    {
      CursorTextDecodes(rows[i].id);
    }
    forall i, j | 0 <= i < j < |rows|
      ensures CursorText(rows[i].id) != CursorText(rows[j].id)
    {
      if CursorText(rows[i].id) == CursorText(rows[j].id) {
        CursorTextInjective(rows[i].id, rows[j].id);
      }
    }
  }

  lemma EarlierNextDiffers(f: nat -> string, rows: seq<Row>, j: nat, i: nat)
    requires GoodCursors(f, rows) && j < i && Start(i) + PAGE_SIZE < |rows|
    ensures PageFrom(f, rows, Start(j)).next != PageFrom(f, rows, Start(i)).next
  {
    assert f(rows[Start(j) + PAGE_SIZE - 1].id) != f(rows[Start(i) + PAGE_SIZE - 1].id);
  }

  lemma LaterPageStarts(f: nat -> string, rows: seq<Row>, pages: seq<Page>, p: nat)
    requires PagesFrom(f, rows, pages) && 0 < p < |pages|
    ensures Start(p) < |rows|
  {
    var page := pages[p];
  }

  lemma PageHeaderOk(f: nat -> string, rows: seq<Row>, pages: seq<Page>, i: nat)
    requires GoodCursors(f, rows) && PagesFrom(f, rows, pages) && i < |pages|
    requires |rows| <= MAX_POINTS && |rows| <= Start(|pages|)
    ensures HeaderOk(pages, i)
  {
    assert pages[i] == PageFrom(f, rows, Start(i)) && pages[0] == PageFrom(f, rows, 0);
    if Start(i) + PAGE_SIZE < |rows| {
      assert ClientCursor(f(rows[Start(i) + PAGE_SIZE - 1].id));
      forall j | 0 <= j < i
        ensures pages[j].next != pages[i].next
      {
        EarlierNextDiffers(f, rows, j, i);
        assert pages[j] == PageFrom(f, rows, Start(j));
      }
    } else {
      if i + 1 < |pages| { LaterPageStarts(f, rows, pages, i + 1); }
    }
  }

  lemma FetchedCollectable(rows: seq<Row>, run: string)
    requires TableOk(rows) && |rows| <= MAX_POINTS && forall i :: 0 <= i < |rows| ==> rows[i].run == run
    ensures Collectable(Fetched(rows), run)
  {
    forall i, j | 0 <= i < j < |rows|
      ensures Fetched(rows)[i].id != Fetched(rows)[j].id
    {
      TextOrderIsNumeric(rows[i].id, rows[j].id);
    }
  }

  lemma CollectedPages(table: seq<Row>, run: string, pages: seq<Page>)
    requires TableOk(table) && 0 < |pages| <= MAX_PAGES && PagesFrom(CursorText, OfRun(table, run), pages)
    requires |OfRun(table, run)| <= Start(|pages|)
    ensures AllPoints(pages) == Fetched(OfRun(table, run))
    ensures PagesAccepted(pages, run) <==> |OfRun(table, run)| <= MAX_POINTS
  {
    var rows := OfRun(table, run);
    OfRunOk(table, run);
    PointsOfPages(CursorText, rows, pages);
    assert rows[..End(rows, |pages|)] == rows;
    assert pages[0] == PageFrom(CursorText, rows, 0);
    if |rows| <= MAX_POINTS {
      CursorsAreGood(rows);
      forall i | 0 <= i < |pages|
        ensures HeaderOk(pages, i)
      {
        PageHeaderOk(CursorText, rows, pages, i);
      }
      assert pages[|pages| - 1] == PageFrom(CursorText, rows, Start(|pages| - 1));
      PageFacts(CursorText, rows, |pages| - 1);
      FetchedCollectable(rows, run);
    } else {
      assert !HeaderOk(pages, 0);
    }
  }

  datatype CaptureError = PageLimit | Invalid(cause: ParseError)

  /** The capture loop of the adapter: follow cursors until none is left, then validate the pages. */
  method CaptureProjection(table: seq<Row>, run: string) returns (r: Result<seq<BackendRow>, CaptureError>)
    requires TableOk(table)
    ensures r.Ok? <==> |OfRun(table, run)| <= MAX_POINTS
    ensures r.Ok? ==> r.value == Fetched(OfRun(table, run))
  {
    ghost var rows := OfRun(table, run);
    var pages: seq<Page> := [];
    var cursor: Option<string> := None;
    var terminal := false;
    while |pages| < MAX_PAGES && !terminal
      invariant |pages| <= MAX_PAGES && PagesFrom(CursorText, rows, pages)
      invariant terminal ==> pages != [] && |rows| <= Start(|pages|)
      invariant !terminal ==> Awaiting(CursorText, rows, |pages|, cursor)
      decreases MAX_PAGES - |pages|, !terminal
    {
      var page := FetchNext(table, run, |pages|, cursor);
      AppendedPage(CursorText, rows, pages, page);
      pages := pages + [page];
      cursor := page.next;
      terminal := cursor.None?;
    }
    if !terminal { return Err(PageLimit); }
    CollectedPages(table, run, pages);
    var parsed := ParsePages(pages, run);
    if parsed.Err? { return Err(Invalid(parsed.error)); }
    return Ok(parsed.value);
  }
}
