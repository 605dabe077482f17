/** Plans and their documents: what `PlanTheorems` puts together.

    A plan is closed (`PlanOk`) when its texts, derived limits, cross-bindings and hashes are in
    order.  `Reads` relates the row of a document to a plan, column by column, for parsers that are
    passed as values, so that none of them is unfolded where only the relation matters.  From there
    the proofs go both ways: a closed plan's document loads to the plan (`DocumentLoads`), and what
    a document loads to is closed and has that document (`PlanOfDocument`).  The last part builds,
    for every plan, a second document that loads to it.
 */
module PlanDocuments {
  import opened Wrappers
  import opened Hashes
  import opened Json
  import opened JsonParser
  import opened Records
  import opened Plan
  import opened PlanLoader
  import opened PlanRecords

  ghost predicate CellsOk(h: Hash, p: ResolvedPlan) {
    && CellsBound(p.cells, p.dataset, p.roles, p.retrieval,
                  AuthorizationHash(h, p.execution), ExecutionHash(h, p.execution))
    && AllCellsOk(h, p.cells)
  }

  ghost predicate AllCellsOk(h: Hash, cells: seq<Cell>) {
    forall i :: 0 <= i < |cells| ==> CellOk(h, cells[i])
  }

  ghost predicate RolesOk(h: Hash, roles: seq<ModelRole>) {
    RoleIds(roles) == ROLE_IDS && AllRolesOk(h, roles)
  }

  ghost predicate AllRolesOk(h: Hash, roles: seq<ModelRole>) {
    forall i :: 0 <= i < |roles| ==> RoleOk(h, roles[i])
  }

  ghost predicate PlanFieldsOk(h: Hash, p: ResolvedPlan) {
    && IsText(p.comparisonId)
    && DatasetOk(p.dataset)
    && IsText(p.endpoint.endpoint)
    && RolesOk(h, p.roles)
    && RetrievalOk(h, p.retrieval)
    && ExecutionOk(p.execution, p.dataset.selection)
    && DecisionOk(p.decision, p.dataset.selection)
    && CellsOk(h, p)
  }

  /** A plan whose texts, derived limits, cross-bindings and hashes all close. */
  ghost predicate PlanOk(h: Hash, p: ResolvedPlan) {
    PlanFieldsOk(h, p) && p.planHash == PlanHash(h, p)
  }

  lemma PlanHashIgnoresItself(h: Hash, p: ResolvedPlan, hash: string)
    ensures PlanHash(h, p.(planHash := hash)) == PlanHash(h, p)
    ensures PlanRow(p.(planHash := hash))[1..] == PlanRow(p)[1..]
  {
    assert PlanRow(p.(planHash := hash))[1..] == PlanRow(p)[1..];
  }

  // ---- the two list columns ----

  lemma RolesParse(h: Hash, roles: seq<ModelRole>)
    requires RolesOk(h, roles)
    ensures ParseModelRoles(h, Canonical(Arr(Documents(RoleDocument, roles)))) == Some(roles)
    ensures WellFormed(Arr(Documents(RoleDocument, roles)))
  {
    forall i | 0 <= i < |roles|
      ensures RoleParser(h)(Canonical(RoleDocument(roles[i]))) == Some(roles[i])
      ensures WellFormed(RoleDocument(roles[i]))
    {
      RoleParses(h, roles[i]);
    }
    ListParses(RoleParser(h), RoleDocument, roles);
  }

  lemma RoleAt(h: Hash, js: seq<Json>, roles: seq<ModelRole>, i: nat)
    requires AllWellFormed(js) && ParseList(RoleParser(h), js) == Some(roles) && i < |js|
    ensures RoleOk(h, roles[i]) && Recovers(js[i], RoleDocument(roles[i]))
  {
    ListParsesAt(RoleParser(h), js, roles, i);
    ItemsWellFormedAt(js, i);
    RoleOfDocument(h, js[i], roles[i]);
  }

  lemma RoleListOfDocument(h: Hash, js: seq<Json>, roles: seq<ModelRole>)
    requires AllWellFormed(js) && ParseList(RoleParser(h), js) == Some(roles)
    ensures AllRolesOk(h, roles) && Recovers(Arr(js), Arr(Documents(RoleDocument, roles)))
  {
    RolesAreOk(h, js, roles);
    RolesRecover(h, js, roles);
  }

  lemma RolesRecover(h: Hash, js: seq<Json>, roles: seq<ModelRole>)
    requires AllWellFormed(js) && ParseList(RoleParser(h), js) == Some(roles)
    ensures Recovers(Arr(js), Arr(Documents(RoleDocument, roles)))
  {
    forall i | 0 <= i < |js|
      ensures Recovers(js[i], RoleDocument(roles[i]))
    {
      RoleAt(h, js, roles, i);
    }
    ListRecovers(RoleDocument, js, roles);
  }

  lemma RolesAreOk(h: Hash, js: seq<Json>, roles: seq<ModelRole>)
    requires AllWellFormed(js) && ParseList(RoleParser(h), js) == Some(roles)
    ensures AllRolesOk(h, roles)
  {
    forall i | 0 <= i < |js|
      ensures RoleOk(h, roles[i])
    {
      RoleAt(h, js, roles, i);
    }
  }

  lemma RolesOfDocument(h: Hash, j: Json, roles: seq<ModelRole>)
    requires WellFormed(j) && ParseModelRoles(h, j) == Some(roles)
    ensures RolesOk(h, roles) && Recovers(j, Arr(Documents(RoleDocument, roles)))
  {
    RoleListOfDocument(h, j.items, roles);
  }

  lemma CellsParse(h: Hash, p: ResolvedPlan)
    requires CellsOk(h, p)
    ensures var j := Arr(Documents(CellDocument, p.cells));
            && ParseCells(h, Canonical(j), p.dataset, p.roles, p.retrieval, p.execution) == Some(p.cells)
            && WellFormed(j)
  {
    forall i | 0 <= i < |p.cells|
      ensures CellParser(h)(Canonical(CellDocument(p.cells[i]))) == Some(p.cells[i])
      ensures WellFormed(CellDocument(p.cells[i]))
    {
      CellParses(h, p.cells[i]);
    }
    ListParses(CellParser(h), CellDocument, p.cells);
  }

  lemma CellListOfDocument(h: Hash, js: seq<Json>, cells: seq<Cell>)
    requires AllWellFormed(js) && ParseList(CellParser(h), js) == Some(cells)
    ensures AllCellsOk(h, cells) && Recovers(Arr(js), Arr(Documents(CellDocument, cells)))
  {
    CellsAreOk(h, js, cells);
    CellsRecover(h, js, cells);
  }

  lemma CellAt(h: Hash, js: seq<Json>, cells: seq<Cell>, i: nat)
    requires AllWellFormed(js) && ParseList(CellParser(h), js) == Some(cells) && i < |js|
    ensures CellOk(h, cells[i]) && Recovers(js[i], CellDocument(cells[i]))
  {
    ListParsesAt(CellParser(h), js, cells, i);
    ItemsWellFormedAt(js, i);
    CellOfDocument(h, js[i], cells[i]);
  }

  lemma CellsRecover(h: Hash, js: seq<Json>, cells: seq<Cell>)
    requires AllWellFormed(js) && ParseList(CellParser(h), js) == Some(cells)
    ensures Recovers(Arr(js), Arr(Documents(CellDocument, cells)))
  {
    forall i | 0 <= i < |js|
      ensures Recovers(js[i], CellDocument(cells[i]))
    {
      CellAt(h, js, cells, i);
    }
    ListRecovers(CellDocument, js, cells);
  }

  lemma CellsAreOk(h: Hash, js: seq<Json>, cells: seq<Cell>)
    requires AllWellFormed(js) && ParseList(CellParser(h), js) == Some(cells)
    ensures AllCellsOk(h, cells)
  {
    forall i | 0 <= i < |js|
      ensures CellOk(h, cells[i])
    {
      CellAt(h, js, cells, i);
    }
  }

  lemma CellsOfDocument(h: Hash, j: Json, p: ResolvedPlan)
    requires WellFormed(j)
    requires ParseCells(h, j, p.dataset, p.roles, p.retrieval, p.execution) == Some(p.cells)
    ensures CellsOk(h, p) && Recovers(j, Arr(Documents(CellDocument, p.cells)))
  {
    CellListOfDocument(h, j.items, p.cells);
  }

  // ---- from plan to document and back ----

  /** Column `i` of a row parses to the field of `p` it stands for. */
  ghost predicate ReadsColumn(parse: Parsers, j: Json, p: ResolvedPlan, i: int) {
    match i
    case 0 => true
    case 1 => j == Str("resolved_plan")
    case 2 => j == Int(1)
    case 3 => j == Str(p.comparisonId) && IsText(p.comparisonId)
    case 4 => parse.dataset(j) == Some(p.dataset)
    case 5 => parse.endpoint(j) == Some(p.endpoint)
    case 6 => parse.roles(j) == Some(p.roles)
    case 7 => parse.retrieval(j) == Some(p.retrieval)
    case 8 => parse.execution(j, p.dataset.selection) == Some(p.execution)
    case 9 => parse.decision(j, p.dataset.selection) == Some(p.decision)
    case _ => parse.cells(j, p.dataset, p.roles, p.retrieval, p.execution) == Some(p.cells)
  }

  ghost predicate Reads(parse: Parsers, v: seq<Json>, p: ResolvedPlan) {
    |v| == 11 && forall i :: 0 <= i < 11 ==> ReadsColumn(parse, v[i], p, i)
  }

  lemma ReadsGivesPlan(parse: Parsers, v: seq<Json>, p: ResolvedPlan)
    requires Reads(parse, v, p) && p.planHash == ""
    ensures PlanOfRow(parse, v) == Some(p)
  {
    assert ReadsColumn(parse, v[1], p, 1) && ReadsColumn(parse, v[2], p, 2) && ReadsColumn(parse, v[3], p, 3);
    assert ReadsColumn(parse, v[4], p, 4) && ReadsColumn(parse, v[5], p, 5) && ReadsColumn(parse, v[6], p, 6);
    assert ReadsColumn(parse, v[7], p, 7) && ReadsColumn(parse, v[8], p, 8) && ReadsColumn(parse, v[9], p, 9);
    assert ReadsColumn(parse, v[10], p, 10);
  }

  lemma PlanGivesReads(parse: Parsers, v: seq<Json>, p: ResolvedPlan)
    requires |v| == 11 && PlanOfRow(parse, v) == Some(p)
    ensures Reads(parse, v, p) && p.planHash == ""
  {
  }

  lemma EarlyColumnReads(h: Hash, p: ResolvedPlan, i: nat)
    requires DatasetOk(p.dataset) && IsText(p.endpoint.endpoint) && IsText(p.comparisonId) && RolesOk(h, p.roles)
    requires i < 7
    ensures WellFormed(PlanValue(p, i)) && ReadsColumn(LoaderParsers(h), Canonical(PlanValue(p, i)), p, i)
  {
    match i
    case 4 => DatasetParses(p.dataset);
    case 5 => EndpointParses(p.endpoint);
    case 6 => RolesParse(h, p.roles);
    case _ =>
  }

  lemma LateColumnReads(h: Hash, p: ResolvedPlan, i: nat)
    requires RetrievalOk(h, p.retrieval) && ExecutionOk(p.execution, p.dataset.selection)
    requires DecisionOk(p.decision, p.dataset.selection) && CellsOk(h, p) && 7 <= i < 11
    ensures WellFormed(PlanValue(p, i)) && ReadsColumn(LoaderParsers(h), Canonical(PlanValue(p, i)), p, i)
  {
    match i
    case 7 => RetrievalParses(h, p.retrieval);
    case 8 => ExecutionParses(p.execution, p.dataset.selection);
    case 9 => DecisionParses(p.decision, p.dataset.selection);
    case _ => CellsParse(h, p);
  }

  lemma ColumnReads(h: Hash, p: ResolvedPlan, i: nat)
    requires PlanFieldsOk(h, p) && i < 11
    ensures WellFormed(PlanValue(p, i)) && ReadsColumn(LoaderParsers(h), Canonical(PlanValue(p, i)), p, i)
  {
    if i < 7 { EarlyColumnReads(h, p, i); } else { LateColumnReads(h, p, i); }
  }

  lemma PlanColumns(h: Hash, p: ResolvedPlan)
    requires PlanFieldsOk(h, p)
    ensures forall i :: 0 <= i < 11 ==> WellFormed(PlanRow(p)[i])
    ensures Reads(LoaderParsers(h), CanonicalItems(PlanRow(p)), p)
  {
    var row := PlanRow(p);
    forall i | 0 <= i < 11
      ensures WellFormed(row[i]) && ReadsColumn(LoaderParsers(h), CanonicalItems(row)[i], p, i)
    {
      CanonicalItemsAt(row, i);
      ColumnReads(h, p, i);
    }
  }

  /** A row whose columns read as the fields of a plan, under the plan's own hash, loads to the plan. */
  lemma RowLoads(h: Hash, row: seq<Json>, p: ResolvedPlan)
    requires |row| == 11 && (forall i :: 0 <= i < 11 ==> WellFormed(row[i])) && row[0] == Str(p.planHash)
    requires Reads(LoaderParsers(h), CanonicalItems(row), p) && p.planHash == PlanHash(h, p)
    ensures LoadDocument(h, Canonical(Record(PlanKeys(), row))) == Some(p)
    ensures WellFormed(Record(PlanKeys(), row))
  {
    PlanKeysDistinct();
    EachWellFormed(row);
    RecordWellFormed(PlanKeys(), row);
    ReadOfCanonicalRecord(PlanKeys(), row);
    CanonicalItemsAt(row, 0);
    ReadRowLoads(h, Canonical(Record(PlanKeys(), row)), CanonicalItems(row), p);
  }

  lemma ReadRowLoads(h: Hash, j: Json, v: seq<Json>, p: ResolvedPlan)
    requires ReadRecord(PlanKeys(), j) == Some(v) && Reads(LoaderParsers(h), v, p)
    requires v[0] == Str(p.planHash) && p.planHash == PlanHash(h, p)
    ensures LoadDocument(h, j) == Some(p)
  {
    ReadsIgnoresHash(LoaderParsers(h), v, p, "");
    ReadsGivesPlan(LoaderParsers(h), v, p.(planHash := ""));
    PlanHashIgnoresItself(h, p, "");
  }

  lemma DocumentLoads(h: Hash, p: ResolvedPlan)
    requires PlanOk(h, p)
    ensures LoadDocument(h, Canonical(PlanDocument(p))) == Some(p)
    ensures WellFormed(PlanDocument(p))
  {
    PlanColumns(h, p);
    RowLoads(h, PlanRow(p), p);
  }

  lemma ColumnRecovers(h: Hash, j: Json, p: ResolvedPlan, i: nat)
    requires 1 <= i < 11 && ReadsColumn(LoaderParsers(h), j, p, i) && WellFormed(j)
    ensures Recovers(j, PlanValue(p, i))
    ensures match i
            case 3 => IsText(p.comparisonId)
            case 4 => DatasetOk(p.dataset)
            case 5 => IsText(p.endpoint.endpoint)
            case 6 => RolesOk(h, p.roles)
            case 7 => RetrievalOk(h, p.retrieval)
            case 8 => ExecutionOk(p.execution, p.dataset.selection)
            case 9 => DecisionOk(p.decision, p.dataset.selection)
            case 10 => CellsOk(h, p)
            case _ => true
  {
    match i
    case 4 => DatasetOfDocument(j, p.dataset);
    case 5 => EndpointOfDocument(j, p.endpoint);
    case 6 => RolesOfDocument(h, j, p.roles);
    case 7 => RetrievalOfDocument(h, j, p.retrieval);
    case 8 => ExecutionOfDocument(j, p.dataset.selection, p.execution);
    case 9 => DecisionOfDocument(j, p.dataset.selection, p.decision);
    case 10 => CellsOfDocument(h, j, p);
    case _ =>
  }

  lemma ColumnsRecover(h: Hash, v: seq<Json>, p: ResolvedPlan)
    requires Reads(LoaderParsers(h), v, p) && forall i :: 0 <= i < 11 ==> WellFormed(v[i])
    ensures PlanFieldsOk(h, p)
    ensures forall i :: 1 <= i < 11 ==> Recovers(v[i], PlanValue(p, i))
  {
    forall i | 1 <= i < 11
      ensures Recovers(v[i], PlanValue(p, i))
    {
      ColumnRecovers(h, v[i], p, i);
    }
    ColumnRecovers(h, v[3], p, 3);
    ColumnRecovers(h, v[4], p, 4);
    ColumnRecovers(h, v[5], p, 5);
    ColumnRecovers(h, v[6], p, 6);
    ColumnRecovers(h, v[7], p, 7);
    ColumnRecovers(h, v[8], p, 8);
    ColumnRecovers(h, v[9], p, 9);
    ColumnRecovers(h, v[10], p, 10);
  }

  lemma RowRecovers(v: seq<Json>, p: ResolvedPlan)
    requires |v| == 11 && v[0] == Str(p.planHash)
    requires forall i :: 1 <= i < 11 ==> Recovers(v[i], PlanValue(p, i))
    requires forall i :: 0 <= i < 11 ==> BooleanFree(v[i])
    ensures Canonical(Record(PlanKeys(), v)) == Canonical(PlanDocument(p))
  {
    var row := PlanRow(p);
    forall i | 0 <= i < 11
      ensures CanonicalItems(v)[i] == CanonicalItems(row)[i]
    {
      CanonicalItemsAt(v, i);
      CanonicalItemsAt(row, i);
    }
    CanonicalRecordCongruent(PlanKeys(), v, row);
  }

  lemma ReadsIgnoresHash(parse: Parsers, v: seq<Json>, p: ResolvedPlan, hash: string)
    requires Reads(parse, v, p)
    ensures Reads(parse, v, p.(planHash := hash))
  {
    forall i | 0 <= i < 11
      ensures ReadsColumn(parse, v[i], p.(planHash := hash), i)
    {
      assert ReadsColumn(parse, v[i], p, i);
    }
  }

  lemma PlanOfDocument(h: Hash, j: Json, p: ResolvedPlan)
    requires WellFormed(j) && LoadDocument(h, j) == Some(p)
    ensures PlanOk(h, p) && Recovers(j, PlanDocument(p))
  {
    var v := ReadRecord(PlanKeys(), j).value;
    PlanKeysDistinct();
    RecordOfRead(PlanKeys(), j, v);
    ReadKeeps(PlanKeys(), j, v);
    var unsealed := PlanOfRow(LoaderParsers(h), v).value;
    PlanGivesReads(LoaderParsers(h), v, unsealed);
    ReadsIgnoresHash(LoaderParsers(h), v, unsealed, p.planHash);
    ColumnsRecover(h, v, p);
    PlanHashIgnoresItself(h, unsealed, p.planHash);
    if BooleanFree(j) {
      RowRecovers(v, p);
    }
  }

  // ---- what the plan hash covers ----

  lemma SamePayloadSamePlan(h: Hash, p: ResolvedPlan, q: ResolvedPlan)
    requires PlanOk(h, p) && PlanOk(h, q) && p.planHash == q.planHash
    requires Print(PlanHashDocument(p)) == Print(PlanHashDocument(q))
    ensures p == q
  {
    SamePayloadSameRow(h, p, q);
    CanonicalRecordCongruent(PlanKeys(), PlanRow(p), PlanRow(q));
    DocumentLoads(h, p);
    DocumentLoads(h, q);
  }

  lemma SamePayloadSameRow(h: Hash, p: ResolvedPlan, q: ResolvedPlan)
    requires PlanOk(h, p) && PlanOk(h, q) && p.planHash == q.planHash
    requires Print(PlanHashDocument(p)) == Print(PlanHashDocument(q))
    ensures CanonicalItems(PlanRow(p)) == CanonicalItems(PlanRow(q))
  {
    PlanColumns(h, p);
    PlanColumns(h, q);
    PayloadsAgree(p, q);
  }

  lemma PayloadsAgree(p: ResolvedPlan, q: ResolvedPlan)
    requires forall i :: 0 <= i < 11 ==> WellFormed(PlanRow(p)[i]) && WellFormed(PlanRow(q)[i])
    requires p.planHash == q.planHash && Print(PlanHashDocument(p)) == Print(PlanHashDocument(q))
    ensures CanonicalItems(PlanRow(p)) == CanonicalItems(PlanRow(q))
  {
    var tag, keys := "oamb-resolved-plan-initial-v1", PlanKeys()[1..];
    PlanKeysDistinct();
    TaggedWellFormed(tag, keys, PlanRow(p)[1..]);
    TaggedWellFormed(tag, keys, PlanRow(q)[1..]);
    PayloadBindsValues(tag, keys, PlanRow(p)[1..], PlanRow(q)[1..]);
    CanonicalItemsSplit(PlanRow(p));
    CanonicalItemsSplit(PlanRow(q));
    assert PlanRow(p)[0] == PlanRow(q)[0];
  }

  lemma CanonicalItemsSplit(row: seq<Json>)
    requires row != []
    ensures CanonicalItems(row) == [Canonical(row[0])] + CanonicalItems(row[1..])
  {
  }

  // ---- no booleans ----

  lemma PlanDocumentBooleanFree(p: ResolvedPlan)
    ensures BooleanFree(PlanDocument(p))
  {
    RecordBooleanFree(DatasetKeys(), DatasetRow(p.dataset));
    RecordBooleanFree(EndpointKeys(), Texts([Ownership(p.endpoint.external), p.endpoint.endpoint]));
    forall i | 0 <= i < |p.roles|
      ensures BooleanFree(RoleDocument(p.roles[i]))
    {
      RoleBooleanFree(p.roles[i]);
    }
    RetrievalBooleanFree(p.retrieval);
    RecordBooleanFree(ExecutionKeys(), ExecutionRow(p.execution));
    DecisionBooleanFree(p.decision);
    forall i | 0 <= i < |p.cells|
      ensures BooleanFree(CellDocument(p.cells[i]))
    {
      CellBooleanFree(p.cells[i]);
    }
    RecordBooleanFree(PlanKeys(), PlanRow(p));
  }

  lemma RoleBooleanFree(r: ModelRole)
    ensures BooleanFree(RoleDocument(r))
  {
    assert BooleanFree(Arr(Texts(r.scale)));
    RecordBooleanFree(RoleKeys(), RoleRow(r));
  }

  lemma RetrievalBooleanFree(r: Retrieval)
    ensures BooleanFree(RetrievalDocument(r))
  {
    forall i | 0 <= i < |r.bindings|
      ensures BooleanFree(BindingDocument(r.bindings[i]))
    {
      RecordBooleanFree(BindingKeys(), BindingRow(r.bindings[i]));
    }
    RecordBooleanFree(RetrievalKeys(), RetrievalRow(r));
  }

  lemma DecisionBooleanFree(d: Option<Decision>)
    ensures BooleanFree(DecisionDocument(d))
  {
    if d.Some? {
      RecordBooleanFree(DecisionKeys(), Texts([d.value.minimumAccuracyDelta, d.value.maximumPValue]));
    }
  }

  lemma CellBooleanFree(c: Cell)
    ensures BooleanFree(CellDocument(c))
  {
    assert BooleanFree(Arr(RoleHashPairs(c.roleHashes)));
    RecordBooleanFree(CellKeys(), CellRow(c));
  }

  // ---- a second accepted text for every plan ----

  function ExecutionTwinRow(e: Execution): seq<Json> {
    ExecutionRow(e)[7 := Bool(true)]
  }

  function TwinRow(p: ResolvedPlan): (row: seq<Json>)
    ensures |row| == 11
  {
    PlanRow(p)[8 := Record(ExecutionKeys(), ExecutionTwinRow(p.execution))]
  }

  /** The plan's document with `true` written for `max_parallel_datasets`. */
  function TwinDocument(p: ResolvedPlan): Json {
    Record(PlanKeys(), TwinRow(p))
  }

  lemma ExecutionOfTwinRow(e: Execution, c: Controls, selection: string)
    requires ControlsOk(c) && ResolveExecution(selection, c) == Some(e)
    ensures ExecutionOfRow(ExecutionTwinRow(e), selection) == Some(e)
  {
    ControlsRead(e, c, selection);
    assert ReadControls(ExecutionTwinRow(e)) == ReadControls(ExecutionRow(e));
  }

  lemma ExecutionTwinParses(e: Execution, selection: string)
    requires ExecutionOk(e, selection)
    ensures var j := Record(ExecutionKeys(), ExecutionTwinRow(e));
            ParseExecution(Canonical(j), selection) == Some(e) && WellFormed(j)
  {
    var c :| ControlsOk(c) && ResolveExecution(selection, c) == Some(e);
    ExecutionKeysDistinct();
    ExecutionRowFlat(e);
    ReadOfFlatRecord(ExecutionKeys(), ExecutionTwinRow(e));
    ExecutionOfTwinRow(e, c, selection);
  }

  lemma TwinColumnReads(h: Hash, p: ResolvedPlan, j: Json)
    requires ExecutionOk(p.execution, p.dataset.selection)
    requires j == Record(ExecutionKeys(), ExecutionTwinRow(p.execution))
    ensures WellFormed(j) && ReadsColumn(LoaderParsers(h), Canonical(j), p, 8)
  {
    ExecutionTwinParses(p.execution, p.dataset.selection);
  }

  lemma TwinColumns(h: Hash, p: ResolvedPlan)
    requires PlanFieldsOk(h, p)
    ensures forall i :: 0 <= i < 11 ==> WellFormed(TwinRow(p)[i])
    ensures Reads(LoaderParsers(h), CanonicalItems(TwinRow(p)), p)
  {
    var row := TwinRow(p);
    forall i | 0 <= i < 11
      ensures WellFormed(row[i]) && ReadsColumn(LoaderParsers(h), CanonicalItems(row)[i], p, i)
    {
      CanonicalItemsAt(row, i);
      if i == 8 { TwinColumnReads(h, p, row[8]); } else { ColumnReads(h, p, i); }
    }
  }

  lemma TwinLoads(h: Hash, p: ResolvedPlan)
    requires PlanOk(h, p)
    ensures LoadDocument(h, Canonical(TwinDocument(p))) == Some(p) && WellFormed(TwinDocument(p))
  {
    TwinColumns(h, p);
    RowLoads(h, TwinRow(p), p);
  }

  lemma TwinDiffers(p: ResolvedPlan)
    requires WellFormed(PlanDocument(p)) && WellFormed(TwinDocument(p))
    ensures Print(TwinDocument(p)) != PlanText(p)
  {
    PlanKeysDistinct();
    ExecutionTwinDiffers(p.execution);
    assert TwinRow(p)[8] == Record(ExecutionKeys(), ExecutionTwinRow(p.execution));
    assert PlanRow(p)[8] == ExecutionDocument(p.execution);
    RecordsDiffer(PlanKeys(), TwinRow(p), PlanRow(p), 8);
  }

  lemma ExecutionTwinDiffers(e: Execution)
    ensures Canonical(Record(ExecutionKeys(), ExecutionTwinRow(e))) != Canonical(ExecutionDocument(e))
  {
    ExecutionKeysDistinct();
    ExecutionRowFlat(e);
    assert ExecutionTwinRow(e)[7] != ExecutionRow(e)[7];
    FlatRecordsDiffer(ExecutionKeys(), ExecutionTwinRow(e), ExecutionRow(e), 7);
  }
}
