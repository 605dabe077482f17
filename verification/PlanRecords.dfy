/** The records of a plan, one by one: what is printed is parsed back, and what is parsed was printed.

    For each record there are lemmas in both directions.  `...Parses` says that the parser accepts
    the canonical form of the record's document and returns the record, given that its texts and
    hashes are in order.  `...OfDocument` says that whatever document the parser accepts is, up to
    field order and booleans in the place of numbers, the document of the record it returns, and
    that this record's texts and hashes are in order.  `PlanDocuments` combines them, column by
    column, into the statements about whole plans.
 */
module PlanRecords {
  import opened Wrappers
  import opened Hashes
  import opened Lists
  import opened Json
  import opened Records
  import opened Plan
  import opened PlanLoader

  /** `j` is `document`, up to field order, unless a boolean stands in it for a number. */
  ghost predicate Recovers(j: Json, document: Json) {
    BooleanFree(j) ==> Canonical(j) == Canonical(document)
  }

  lemma RecordsHaveDistinctKeys()
    ensures Distinct(DatasetKeys()) && Distinct(EndpointKeys()) && Distinct(DecisionKeys())
    ensures Distinct(RetrievalKeys())
  {
    DatasetKeysDistinct();
    SmallKeysDistinct();
  }

  lemma DatasetKeysDistinct()
    ensures Distinct(DatasetKeys())
  {
    forall i, j | 0 <= i < j < 7
      ensures DatasetKey(i) != DatasetKey(j)
    {
      DatasetKeysDiffer(i, j);
    }
  }

  lemma DatasetKeysDiffer(i: nat, j: nat)
    requires i < j < 7
    ensures DatasetKey(i) != DatasetKey(j)
  {
  }

  lemma SmallKeysDistinct()
    ensures Distinct(EndpointKeys()) && Distinct(DecisionKeys()) && Distinct(RetrievalKeys())
  {
  }

  lemma BindingKeysDistinct()
    ensures Distinct(BindingKeys())
  {
    forall i, j | 0 <= i < j < 9
      ensures BindingKey(i) != BindingKey(j)
    {
      if i < 2 { EarlyBindingKeys(i, j); } else { LateBindingKeys(i, j); }
    }
  }

  lemma EarlyBindingKeys(i: nat, j: nat)
    requires i < j < 9 && i < 2
    ensures BindingKey(i) != BindingKey(j)
  {
  }

  lemma LateBindingKeys(i: nat, j: nat)
    requires 2 <= i < j < 9
    ensures BindingKey(i) != BindingKey(j)
  {
  }

  lemma PlanKeysDistinct()
    ensures Distinct(PlanKeys())
  {
    forall i, j | 0 <= i < j < 11
      ensures PlanKey(i) != PlanKey(j)
    {
      if i < 3 { EarlyPlanKeys(i, j); } else { LatePlanKeys(i, j); }
    }
  }

  lemma EarlyPlanKeys(i: nat, j: nat)
    requires i < j < 11 && i < 3
    ensures PlanKey(i) != PlanKey(j)
  {
  }

  lemma LatePlanKeys(i: nat, j: nat)
    requires 3 <= i < j < 11
    ensures PlanKey(i) != PlanKey(j)
  {
  }

  lemma RoleKeysDistinct()
    ensures Distinct(RoleKeys())
  {
    forall i, j | 0 <= i < j < 16
      ensures RoleKey(i) != RoleKey(j)
    {
      if i < 5 { EarlyRoleKeys(i, j); } else { LateRoleKeys(i, j); }
    }
  }

  lemma EarlyRoleKeys(i: nat, j: nat)
    requires i < j < 16 && i < 5
    ensures RoleKey(i) != RoleKey(j)
  {
  }

  lemma LateRoleKeys(i: nat, j: nat)
    requires 5 <= i < j < 16
    ensures RoleKey(i) != RoleKey(j)
  {
  }

  lemma ExecutionKeysDistinct()
    ensures Distinct(ExecutionKeys())
  {
    forall i, j | 0 <= i < j < 18
      ensures ExecutionKey(i) != ExecutionKey(j)
    {
      if i < 4 { EarlyExecutionKeys(i, j); }
      else if i < 9 { MiddleExecutionKeys(i, j); }
      else { LateExecutionKeys(i, j); }
    }
  }

  lemma EarlyExecutionKeys(i: nat, j: nat)
    requires i < j < 18 && i < 4
    ensures ExecutionKey(i) != ExecutionKey(j)
  {
  }

  lemma MiddleExecutionKeys(i: nat, j: nat)
    requires 4 <= i < j < 18 && i < 9
    ensures ExecutionKey(i) != ExecutionKey(j)
  {
  }

  lemma LateExecutionKeys(i: nat, j: nat)
    requires 9 <= i < j < 18
    ensures ExecutionKey(i) != ExecutionKey(j)
  {
  }

  lemma CellKeysDistinct()
    ensures Distinct(CellKeys())
  {
    forall i, j | 0 <= i < j < 22
      ensures CellKey(i) != CellKey(j)
    {
      if i < 7 { EarlyCellKeys(i, j); } else { LateCellKeys(i, j); }
    }
  }

  lemma EarlyCellKeys(i: nat, j: nat)
    requires i < j < 22 && i < 7
    ensures CellKey(i) != CellKey(j)
  {
  }

  lemma LateCellKeys(i: nat, j: nat)
    requires 7 <= i < j < 22
    ensures CellKey(i) != CellKey(j)
  {
  }

  // ---- lists of records ----

  lemma {:induction false} ListParses<T>(parse: Json -> Option<T>, document: T -> Json, items: seq<T>)
    requires forall i :: 0 <= i < |items| ==> parse(Canonical(document(items[i]))) == Some(items[i])
    requires forall i :: 0 <= i < |items| ==> WellFormed(document(items[i]))
    ensures ParseList(parse, CanonicalItems(Documents(document, items))) == Some(items)
    ensures AllWellFormed(Documents(document, items))
  {
    if items != [] {
      ListParses(parse, document, items[1..]);
      assert Documents(document, items)[1..] == Documents(document, items[1..]);
      assert items == [items[0]] + items[1..];
    }
  }

  lemma {:induction false} ListParsesAt<T>(parse: Json -> Option<T>, js: seq<Json>, items: seq<T>, i: nat)
    requires ParseList(parse, js) == Some(items) && i < |items|
    ensures parse(js[i]) == Some(items[i])
  {
    if i > 0 {
      ListParsesAt(parse, js[1..], items[1..], i - 1);
    }
  }

  lemma ListRecovers<T>(document: T -> Json, js: seq<Json>, items: seq<T>)
    requires |js| == |items| && forall i :: 0 <= i < |js| ==> Recovers(js[i], document(items[i]))
    ensures (forall i :: 0 <= i < |js| ==> BooleanFree(js[i]))
            ==> CanonicalItems(js) == CanonicalItems(Documents(document, items))
  {
    if forall i :: 0 <= i < |js| ==> BooleanFree(js[i]) {
      var documents := Documents(document, items);
      forall i | 0 <= i < |js|
        ensures CanonicalItems(js)[i] == CanonicalItems(documents)[i]
      {
        CanonicalItemsAt(js, i);
        CanonicalItemsAt(documents, i);
      }
    }
  }

  // ---- identifiers ----

  lemma {:induction false} FindRoleSound(text: string, ids: seq<RoleId>)
    ensures FindRole(text, ids).Some? ==> RoleText(FindRole(text, ids).value) == text
  {
    if ids != [] {
      FindRoleSound(text, ids[1..]);
    }
  }

  lemma RoleTextInjective(a: RoleId, b: RoleId)
    requires RoleText(a) == RoleText(b)
    ensures a == b
  {
  }

  lemma {:induction false} FindRoleComplete(id: RoleId, ids: seq<RoleId>)
    requires id in ids
    ensures FindRole(RoleText(id), ids) == Some(id)
  {
    if RoleText(ids[0]) == RoleText(id) {
      RoleTextInjective(ids[0], id);
    } else {
      FindRoleComplete(id, ids[1..]);
    }
  }

  lemma RoleTextParses(id: RoleId)
    ensures ParseRoleId(Str(RoleText(id))) == Some(id)
  {
    assert ROLE_IDS[0] == HindsightExtraction && ROLE_IDS[1] == Mem0Extraction;
    assert ROLE_IDS[2] == OpenvikingUnderstanding;
    assert ROLE_IDS[3] == Answer && ROLE_IDS[4] == Judge && ROLE_IDS[5] == Embedding;
    assert id in ROLE_IDS;
    FindRoleComplete(id, ROLE_IDS);
  }

  lemma RoleIdOfText(j: Json)
    ensures ParseRoleId(j).Some? ==> j == Str(RoleText(ParseRoleId(j).value))
  {
    if j.Str? {
      FindRoleSound(j.text, ROLE_IDS);
    }
  }

  // ---- dataset, endpoint, decision ----

  predicate DatasetOk(d: Dataset) {
    && IsText(d.datasetId) && IsText(d.workloadId) && IsText(d.selection) && IsText(d.path)
    && IsText(d.revision) && IsText(d.sourceSha256) && IsText(d.caseManifestHash)
  }

  lemma DatasetOfItsRow(d: Dataset)
    requires DatasetOk(d)
    ensures DatasetOfRow(DatasetRow(d)) == Some(d)
  {
  }

  lemma RowOfDataset(v: seq<Json>, d: Dataset)
    requires |v| == 7 && DatasetOfRow(v) == Some(d)
    ensures DatasetOk(d) && v == DatasetRow(d)
  {
  }

  lemma DatasetParses(d: Dataset)
    requires DatasetOk(d)
    ensures ParseDataset(Canonical(DatasetDocument(d))) == Some(d) && WellFormed(DatasetDocument(d))
  {
    RecordsHaveDistinctKeys();
    ReadOfFlatRecord(DatasetKeys(), DatasetRow(d));
    DatasetOfItsRow(d);
  }

  lemma DatasetOfDocument(j: Json, d: Dataset)
    requires WellFormed(j) && ParseDataset(j) == Some(d)
    ensures DatasetOk(d) && Recovers(j, DatasetDocument(d))
  {
    RecordsHaveDistinctKeys();
    var v := ReadRecord(DatasetKeys(), j).value;
    RecordOfRead(DatasetKeys(), j, v);
    RowOfDataset(v, d);
  }

  lemma EndpointParses(e: EmbeddingEndpoint)
    requires IsText(e.endpoint)
    ensures ParseEndpoint(Canonical(EndpointDocument(e))) == Some(e) && WellFormed(EndpointDocument(e))
  {
    RecordsHaveDistinctKeys();
    ReadOfFlatRecord(EndpointKeys(), Texts([Ownership(e.external), e.endpoint]));
  }

  lemma EndpointOfDocument(j: Json, e: EmbeddingEndpoint)
    requires WellFormed(j) && ParseEndpoint(j) == Some(e)
    ensures IsText(e.endpoint) && Recovers(j, EndpointDocument(e))
  {
    RecordsHaveDistinctKeys();
    var v := ReadRecord(EndpointKeys(), j).value;
    RecordOfRead(EndpointKeys(), j, v);
    assert v == Texts([Ownership(e.external), e.endpoint]);
  }

  predicate DecisionOk(d: Option<Decision>, selection: string) {
    d == if selection == "lme6" then None else Some(Decision("0.05", "0.05"))
  }

  lemma DecisionParses(d: Option<Decision>, selection: string)
    requires DecisionOk(d, selection)
    ensures ParseDecision(Canonical(DecisionDocument(d)), selection) == Some(d) && WellFormed(DecisionDocument(d))
  {
    RecordsHaveDistinctKeys();
    ReadOfFlatRecord(DecisionKeys(), Texts(["0.05", "0.05"]));
  }

  lemma DecisionOfDocument(j: Json, selection: string, d: Option<Decision>)
    requires WellFormed(j) && ParseDecision(j, selection) == Some(d)
    ensures DecisionOk(d, selection) && Recovers(j, DecisionDocument(d))
  {
    RecordsHaveDistinctKeys();
    if selection != "lme6" {
      RecordOfRead(DecisionKeys(), j, ReadRecord(DecisionKeys(), j).value);
    }
  }

  // ---- model roles ----

  predicate RoleTextsOk(r: ModelRole) {
    && IsText(r.model) && IsText(r.endpointVariable) && IsText(r.credentialVariable) && IsText(r.recipient)
    && IsText(r.executionOwner) && IsText(r.proofKind) && IsText(r.proofReference) && IsText(r.usageCoverage)
    && IsText(r.temperature) && IsText(r.topP)
  }

  predicate RoleFieldsOk(r: ModelRole) {
    && RoleTextsOk(r)
    && (r.roleId == Embedding <==> r.effort == NotApplicable)
    && r.scale == EffortScale(r.effort) && r.rank == EffortRank(r.effort) && r.maximumOutputTokens == None
    && (ModelVariable(r.roleId).Some? ==> r.model == ModelVariable(r.roleId).value)
    && r.executionOwner == ExecutionOwner(r.roleId)
  }

  predicate RoleOk(h: Hash, r: ModelRole) {
    RoleFieldsOk(r) && r.bindingHash == RoleHash(h, r)
  }

  lemma RoleHashIgnoresItself(h: Hash, r: ModelRole, hash: string)
    ensures RoleHash(h, r.(bindingHash := hash)) == RoleHash(h, r)
    ensures RoleRow(r.(bindingHash := hash))[1..] == RoleRow(r)[1..]
  {
    assert RoleRow(r.(bindingHash := hash))[1..] == RoleRow(r)[1..];
  }

  lemma RoleRowFlat(r: ModelRole)
    ensures forall i :: 0 <= i < 16 ==> ObjectFree(RoleRow(r)[i])
  {
    assert ObjectFree(Arr(Texts(r.scale)));
  }

  lemma RoleRowTexts(r: ModelRole)
    requires RoleTextsOk(r)
    ensures RoleTexts(RoleRow(r))
  {
  }

  lemma EffortTextParses(e: Effort)
    ensures ParseEffort(Str(EffortText(e))) == Some(e)
  {
  }

  lemma RoleFromTexts(v: seq<Json>, r: ModelRole)
    requires v == RoleRow(r) && RoleTexts(v)
    requires ParseRoleId(v[1]) == Some(r.roleId) && ParseEffort(v[3]) == Some(r.effort)
    requires r.roleId == Embedding <==> r.effort == NotApplicable
    requires r.scale == EffortScale(r.effort) && r.rank == EffortRank(r.effort) && r.maximumOutputTokens == None
    requires v[4] == Arr(Texts(r.scale)) && v[5] == OptionalInt(r.rank) && v[13] == Null
    ensures RoleOfRow(v) == ClosedRole(r.(bindingHash := ""))
  {
    assert v[2] == Str(r.model) && v[6] == Str(r.endpointVariable) && v[7] == Str(r.credentialVariable);
    assert v[8] == Str(r.recipient) && v[9] == Str(r.executionOwner) && v[10] == Str(r.proofKind);
    assert v[11] == Str(r.proofReference) && v[12] == Str(r.usageCoverage);
    assert v[14] == Str(r.temperature) && v[15] == Str(r.topP);
  }

  lemma RoleOfItsRow(r: ModelRole)
    requires RoleFieldsOk(r)
    ensures RoleOfRow(RoleRow(r)) == Some(r.(bindingHash := ""))
  {
    var v := RoleRow(r);
    RoleTextParses(r.roleId);
    EffortTextParses(r.effort);
    RoleRowTexts(r);
    assert v[1] == Str(RoleText(r.roleId)) && v[3] == Str(EffortText(r.effort));
    assert v[4] == Arr(Texts(r.scale)) && v[5] == OptionalInt(r.rank) && v[13] == Null;
    RoleFromTexts(v, r);
  }

  lemma RowOfRole(v: seq<Json>, r: ModelRole)
    requires |v| == 16 && RoleOfRow(v) == Some(r)
    ensures RoleFieldsOk(r)
    ensures !v[5].Bool? ==> v[1..] == RoleRow(r)[1..]
  {
    RoleIdOfText(v[1]);
    if !v[5].Bool? {
      RowOfOpenRole(v, r);
    }
  }

  /** Column by column, a row without a boolean rank is the row of the role it holds. */
  lemma RowOfOpenRole(v: seq<Json>, r: ModelRole)
    requires |v| == 16 && RoleOfRow(v) == Some(r) && !v[5].Bool?
    ensures v[1..] == RoleRow(r)[1..]
  {
    NamesOfRole(v, r);
    TextsOfRole(v, r);
    forall i | 1 <= i < 16
      ensures v[i] == RoleRow(r)[i]
    {
      if i < 6 { EarlyRoleColumn(v, r, i); } else { LateRoleColumn(v, r, i); }
    }
  }

  predicate RoleTextsAre(v: seq<Json>, r: ModelRole)
    requires |v| == 16
  {
    && v[6] == Str(r.endpointVariable) && v[7] == Str(r.credentialVariable) && v[8] == Str(r.recipient)
    && v[9] == Str(r.executionOwner) && v[10] == Str(r.proofKind) && v[11] == Str(r.proofReference)
    && v[12] == Str(r.usageCoverage) && v[13] == OptionalInt(r.maximumOutputTokens)
    && v[14] == Str(r.temperature) && v[15] == Str(r.topP)
  }

  lemma TextsOfRole(v: seq<Json>, r: ModelRole)
    requires |v| == 16 && RoleOfRow(v) == Some(r)
    ensures RoleTextsAre(v, r)
  {
  }

  predicate RoleNamesAre(v: seq<Json>, r: ModelRole)
    requires |v| == 16
  {
    && v[1] == Str(RoleText(r.roleId)) && v[2] == Str(r.model) && v[3] == Str(EffortText(r.effort))
    && v[4] == Arr(Texts(r.scale)) && PythonEqual(v[5], OptionalInt(r.rank))
  }

  lemma EffortOfText(j: Json)
    ensures ParseEffort(j).Some? ==> j == Str(EffortText(ParseEffort(j).value))
  {
  }

  lemma NamesOfRole(v: seq<Json>, r: ModelRole)
    requires |v| == 16 && RoleOfRow(v) == Some(r)
    ensures RoleNamesAre(v, r)
  {
    RoleIdOfText(v[1]);
    EffortOfText(v[3]);
  }

  lemma EarlyRoleColumn(v: seq<Json>, r: ModelRole, i: nat)
    requires |v| == 16 && RoleNamesAre(v, r) && !v[5].Bool? && 1 <= i < 6
    ensures v[i] == RoleValue(r, i)
  {
  }

  lemma LateRoleColumn(v: seq<Json>, r: ModelRole, i: nat)
    requires |v| == 16 && RoleTextsAre(v, r) && 6 <= i < 16
    ensures v[i] == RoleValue(r, i)
  {
  }

  lemma RoleParses(h: Hash, r: ModelRole)
    requires RoleOk(h, r)
    ensures RoleParser(h)(Canonical(RoleDocument(r))) == Some(r) && WellFormed(RoleDocument(r))
  {
    RoleKeysDistinct();
    RoleRowFlat(r);
    ReadOfFlatRecord(RoleKeys(), RoleRow(r));
    RoleOfItsRow(r);
    RoleHashIgnoresItself(h, r, "");
  }

  lemma RoleOfDocument(h: Hash, j: Json, r: ModelRole)
    requires WellFormed(j) && RoleParser(h)(j) == Some(r)
    ensures RoleOk(h, r) && Recovers(j, RoleDocument(r))
  {
    RoleKeysDistinct();
    var v := ReadRecord(RoleKeys(), j).value;
    RecordOfRead(RoleKeys(), j, v);
    ReadKeeps(RoleKeys(), j, v);
    var open := RoleOfRow(v).value;
    RowOfRole(v, open);
    RoleHashIgnoresItself(h, open, r.bindingHash);
    SealedRow(v, RoleRow(open), RoleRow(r));
    assert BooleanFree(v[5]) ==> !v[5].Bool?;
  }

  lemma SealedRow(v: seq<Json>, unsealed: seq<Json>, row: seq<Json>)
    requires |v| == |unsealed| == |row| > 0
    requires v[0] == row[0] && unsealed[1..] == row[1..]
    ensures v[1..] == unsealed[1..] ==> v == row
  {
    assert v == [v[0]] + v[1..] && row == [row[0]] + row[1..];
  }

  // ---- retrieval ----

  predicate BindingFieldsOk(b: RetrievalBinding) {
    && IsText(b.bindingId) && IsText(b.providerId) && IsText(b.route) && IsText(b.disabledFeature)
    && IsText(b.disabledValue) && IsText(b.requestConstraint) && IsText(b.proofKind)
  }

  predicate BindingOk(h: Hash, b: RetrievalBinding) {
    BindingFieldsOk(b) && b.bindingHash == BindingHash(h, b)
  }

  lemma BindingHashIgnoresItself(h: Hash, b: RetrievalBinding, hash: string)
    ensures BindingHash(h, b.(bindingHash := hash)) == BindingHash(h, b)
    ensures BindingRow(b.(bindingHash := hash))[1..] == BindingRow(b)[1..]
  {
    assert BindingRow(b.(bindingHash := hash))[1..] == BindingRow(b)[1..];
  }

  lemma BindingOfItsRow(b: RetrievalBinding)
    requires BindingFieldsOk(b)
    ensures BindingOfRow(BindingRow(b)) == Some(b.(bindingHash := ""))
  {
  }

  lemma RowOfBinding(v: seq<Json>, b: RetrievalBinding)
    requires |v| == 9 && BindingOfRow(v) == Some(b)
    ensures BindingFieldsOk(b) && v[1..] == BindingRow(b)[1..]
  {
  }

  lemma BindingParses(h: Hash, b: RetrievalBinding)
    requires BindingOk(h, b)
    ensures BindingParser(h)(Canonical(BindingDocument(b))) == Some(b) && WellFormed(BindingDocument(b))
  {
    BindingKeysDistinct();
    ReadOfFlatRecord(BindingKeys(), BindingRow(b));
    BindingOfItsRow(b);
    BindingHashIgnoresItself(h, b, "");
  }

  lemma BindingOfDocument(h: Hash, j: Json, b: RetrievalBinding)
    requires WellFormed(j) && BindingParser(h)(j) == Some(b)
    ensures BindingOk(h, b) && Recovers(j, BindingDocument(b))
  {
    BindingKeysDistinct();
    var v := ReadRecord(BindingKeys(), j).value;
    RecordOfRead(BindingKeys(), j, v);
    var open := BindingOfRow(v).value;
    RowOfBinding(v, open);
    BindingHashIgnoresItself(h, open, b.bindingHash);
    SealedRow(v, BindingRow(open), BindingRow(b));
  }

  ghost predicate RetrievalOk(h: Hash, r: Retrieval) {
    && r.topK > 0 && BindingIds(r.bindings) == RETRIEVAL_BINDING_IDS
    && forall i :: 0 <= i < |r.bindings| ==> BindingOk(h, r.bindings[i])
  }

  lemma BindingsParse(h: Hash, bindings: seq<RetrievalBinding>)
    requires forall i :: 0 <= i < |bindings| ==> BindingOk(h, bindings[i])
    ensures ParseList(BindingParser(h), CanonicalItems(Documents(BindingDocument, bindings))) == Some(bindings)
    ensures AllWellFormed(Documents(BindingDocument, bindings))
  {
    forall i | 0 <= i < |bindings|
      ensures BindingParser(h)(Canonical(BindingDocument(bindings[i]))) == Some(bindings[i])
      ensures WellFormed(BindingDocument(bindings[i]))
    {
      BindingParses(h, bindings[i]);
    }
    ListParses(BindingParser(h), BindingDocument, bindings);
  }

  lemma RetrievalParses(h: Hash, r: Retrieval)
    requires RetrievalOk(h, r)
    ensures ParseRetrieval(h, Canonical(RetrievalDocument(r))) == Some(r) && WellFormed(RetrievalDocument(r))
  {
    BindingsParse(h, r.bindings);
    RetrievalReads(r);
  }

  lemma RetrievalReads(r: Retrieval)
    requires AllWellFormed(Documents(BindingDocument, r.bindings))
    ensures WellFormed(RetrievalDocument(r))
    ensures ReadRecord(RetrievalKeys(), Canonical(RetrievalDocument(r))) ==
            Some([Str("disabled"), Int(r.topK), Arr(CanonicalItems(Documents(BindingDocument, r.bindings)))])
  {
    var row := RetrievalRow(r);
    EachWellFormed(row);
    CanonicalOfThree(row);
    RecordsHaveDistinctKeys();
    ReadOfCanonicalRecord(RetrievalKeys(), row);
    RecordWellFormed(RetrievalKeys(), row);
  }

  lemma CanonicalOfThree(values: seq<Json>)
    requires |values| == 3
    ensures CanonicalItems(values) == [Canonical(values[0]), Canonical(values[1]), Canonical(values[2])]
  {
    CanonicalItemsAt(values, 0);
    CanonicalItemsAt(values, 1);
    CanonicalItemsAt(values, 2);
  }

  lemma RetrievalOfDocument(h: Hash, j: Json, r: Retrieval)
    requires WellFormed(j) && ParseRetrieval(h, j) == Some(r)
    ensures RetrievalOk(h, r) && Recovers(j, RetrievalDocument(r))
  {
    RecordsHaveDistinctKeys();
    var v := ReadRecord(RetrievalKeys(), j).value;
    RecordOfRead(RetrievalKeys(), j, v);
    ReadKeeps(RetrievalKeys(), j, v);
    assert WellFormed(v[2]);
    BindingsOfDocuments(h, v[2].items, r.bindings);
    if BooleanFree(j) {
      assert BooleanFree(v[2]);
      RetrievalRecovers(v, r);
    }
  }

  lemma RetrievalRecovers(v: seq<Json>, r: Retrieval)
    requires |v| == 3 && v[0] == Str("disabled") && v[1] == Int(r.topK) && v[2].Arr?
    requires CanonicalItems(v[2].items) == CanonicalItems(Documents(BindingDocument, r.bindings))
    ensures Canonical(Record(RetrievalKeys(), v)) == Canonical(RetrievalDocument(r))
  {
    CanonicalOfThree(v);
    CanonicalOfThree(RetrievalRow(r));
    CanonicalRecordCongruent(RetrievalKeys(), v, RetrievalRow(r));
  }

  lemma BindingsOfDocuments(h: Hash, js: seq<Json>, bindings: seq<RetrievalBinding>)
    requires AllWellFormed(js) && ParseList(BindingParser(h), js) == Some(bindings)
    ensures forall i :: 0 <= i < |bindings| ==> BindingOk(h, bindings[i])
    ensures (forall i :: 0 <= i < |js| ==> BooleanFree(js[i]))
            ==> CanonicalItems(js) == CanonicalItems(Documents(BindingDocument, bindings))
  {
    forall i | 0 <= i < |js|
      ensures BindingOk(h, bindings[i]) && Recovers(js[i], BindingDocument(bindings[i]))
    {
      ListParsesAt(BindingParser(h), js, bindings, i);
      ItemsWellFormedAt(js, i);
      BindingOfDocument(h, js[i], bindings[i]);
    }
    ListRecovers(BindingDocument, js, bindings);
  }

  // ---- execution ----

  predicate ControlsOk(c: Controls) {
    && ProfileRetries(c) && c.operationTimeoutSeconds > 0 && c.maxParallelProviders > 0
    && c.maxParallelHistoryIngestions > 0 && c.maxParallelQuestions > 0
  }

  ghost predicate ExecutionOk(e: Execution, selection: string) {
    exists c :: ControlsOk(c) && ResolveExecution(selection, c) == Some(e)
  }

  lemma ControlsRead(e: Execution, c: Controls, selection: string)
    requires ControlsOk(c) && ResolveExecution(selection, c) == Some(e)
    ensures ReadControls(ExecutionRow(e)) == Some(c)
  {
  }

  lemma ExecutionRowFlat(e: Execution)
    ensures forall i :: 0 <= i < 18 ==> ObjectFree(ExecutionRow(e)[i])
  {
  }

  lemma ExecutionOfItsRow(e: Execution, selection: string)
    requires ExecutionOk(e, selection)
    ensures ExecutionOfRow(ExecutionRow(e), selection) == Some(e)
  {
    var c :| ControlsOk(c) && ResolveExecution(selection, c) == Some(e);
    ControlsRead(e, c, selection);
  }

  lemma ExecutionParses(e: Execution, selection: string)
    requires ExecutionOk(e, selection)
    ensures ParseExecution(Canonical(ExecutionDocument(e)), selection) == Some(e) && WellFormed(ExecutionDocument(e))
  {
    ExecutionKeysDistinct();
    ExecutionRowFlat(e);
    ReadOfFlatRecord(ExecutionKeys(), ExecutionRow(e));
    ExecutionOfItsRow(e, selection);
  }

  lemma RowOfExecution(v: seq<Json>, selection: string, e: Execution)
    requires |v| == 18 && ExecutionOfRow(v, selection) == Some(e)
    ensures ExecutionOk(e, selection)
    ensures !v[7].Bool? ==> v == ExecutionRow(e)
  {
    assert ControlsOk(ReadControls(v).value);
  }

  lemma ExecutionOfDocument(j: Json, selection: string, e: Execution)
    requires WellFormed(j) && ParseExecution(j, selection) == Some(e)
    ensures ExecutionOk(e, selection) && Recovers(j, ExecutionDocument(e))
  {
    ExecutionKeysDistinct();
    var v := ReadRecord(ExecutionKeys(), j).value;
    RecordOfRead(ExecutionKeys(), j, v);
    ReadKeeps(ExecutionKeys(), j, v);
    RowOfExecution(v, selection, e);
    assert BooleanFree(v[7]) ==> !v[7].Bool?;
  }

  // ---- cells ----

  predicate PairOk(pair: (RoleId, string)) {
    IsSha256(pair.1)
  }

  lemma PairParses(pair: (RoleId, string))
    requires PairOk(pair)
    ensures ParsePair(Arr([Str(RoleText(pair.0)), Str(pair.1)])) == Some(pair)
  {
    RoleTextParses(pair.0);
  }

  lemma {:induction false} PairsParse(pairs: seq<(RoleId, string)>)
    requires forall i :: 0 <= i < |pairs| ==> PairOk(pairs[i])
    ensures ParseList(ParsePair, RoleHashPairs(pairs)) == Some(pairs)
  {
    if pairs != [] {
      PairParses(pairs[0]);
      PairsParse(pairs[1..]);
      assert RoleHashPairs(pairs)[1..] == RoleHashPairs(pairs[1..]);
      assert pairs == [pairs[0]] + pairs[1..];
    }
  }

  lemma PairsOfDocuments(items: seq<Json>, pairs: seq<(RoleId, string)>)
    requires ParseList(ParsePair, items) == Some(pairs)
    ensures items == RoleHashPairs(pairs) && forall i :: 0 <= i < |pairs| ==> PairOk(pairs[i])
  {
    forall i | 0 <= i < |items|
      ensures items[i] == RoleHashPairs(pairs)[i] && PairOk(pairs[i])
    {
      ListParsesAt(ParsePair, items, pairs, i);
      RoleIdOfText(items[i].items[0]);
      assert items[i].items == [Str(RoleText(pairs[i].0)), Str(pairs[i].1)];
    }
  }

  predicate CellFieldsOk(c: Cell) {
    && c.ordinal > 0 && IsText(c.cellId) && IsText(c.providerId) && IsText(c.adapterProfileId)
    && IsText(c.endpointVariable) && IsText(c.credentialVariable) && IsText(c.recipient)
    && IsText(c.datasetId) && IsText(c.workloadId) && IsText(c.selection)
    && IsSha256(c.sourceSha256) && IsSha256(c.caseManifestHash)
    && (forall i :: 0 <= i < |c.roleHashes| ==> PairOk(c.roleHashes[i]))
    && IsText(c.retrievalBindingId) && IsSha256(c.retrievalBindingHash)
    && IsSha256(c.authorizationHash) && IsSha256(c.executionHash)
  }

  predicate CellOk(h: Hash, c: Cell) {
    CellFieldsOk(c) && c.specHash == CellHash(h, c)
  }

  lemma CellHashIgnoresItself(h: Hash, c: Cell, hash: string)
    ensures CellHash(h, c.(specHash := hash)) == CellHash(h, c)
    ensures CellRow(c.(specHash := hash))[1..] == CellRow(c)[1..]
  {
    assert CellRow(c.(specHash := hash))[1..] == CellRow(c)[1..];
  }

  lemma CellRowFlat(c: Cell)
    ensures forall i :: 0 <= i < 22 ==> ObjectFree(CellRow(c)[i])
  {
    assert ObjectFree(Arr(RoleHashPairs(c.roleHashes)));
  }

  lemma CellRowTyped(c: Cell)
    requires CellFieldsOk(c)
    ensures CellFieldTypes(CellRow(c))
  {
  }

  /** The role columns of a row parse to the roles of the cell. */
  predicate CellRolesParse(v: seq<Json>, c: Cell)
    requires |v| == 22
  {
    && ParseRoleId(v[13]) == Some(c.producer) && ParseRoleId(v[14]) == Some(c.embedding)
    && ParseRoleId(v[15]) == Some(c.answer) && ParseRoleId(v[16]) == Some(c.judge)
    && v[17].Arr? && ParseList(ParsePair, v[17].items) == Some(c.roleHashes)
  }

  lemma CellRolesOfItsRow(c: Cell)
    requires CellFieldsOk(c)
    ensures CellRolesParse(CellRow(c), c)
  {
    var v := CellRow(c);
    assert v[13] == Str(RoleText(c.producer)) && v[14] == Str(RoleText(c.embedding));
    assert v[15] == Str(RoleText(c.answer)) && v[16] == Str(RoleText(c.judge));
    assert v[17] == Arr(RoleHashPairs(c.roleHashes));
    RoleTextParses(c.producer);
    RoleTextParses(c.embedding);
    RoleTextParses(c.answer);
    RoleTextParses(c.judge);
    PairsParse(c.roleHashes);
  }

  lemma CellOfItsRow(c: Cell)
    requires CellFieldsOk(c)
    ensures CellOfRow(CellRow(c)) == Some(c.(specHash := ""))
  {
    CellRowTyped(c);
    CellRolesOfItsRow(c);
  }

  lemma FieldsOfCell(v: seq<Json>, c: Cell)
    requires |v| == 22 && CellOfRow(v) == Some(c)
    ensures CellFieldsOk(c)
  {
    PairsOfDocuments(v[17].items, c.roleHashes);
  }

  lemma RowOfCell(v: seq<Json>, c: Cell)
    requires |v| == 22 && CellOfRow(v) == Some(c)
    ensures v[1..] == CellRow(c)[1..]
  {
    RoleIdOfText(v[13]);
    RoleIdOfText(v[14]);
    RoleIdOfText(v[15]);
    RoleIdOfText(v[16]);
    PairsOfDocuments(v[17].items, c.roleHashes);
  }

  lemma CellParses(h: Hash, c: Cell)
    requires CellOk(h, c)
    ensures CellParser(h)(Canonical(CellDocument(c))) == Some(c) && WellFormed(CellDocument(c))
  {
    CellKeysDistinct();
    CellRowFlat(c);
    ReadOfFlatRecord(CellKeys(), CellRow(c));
    CellOfItsRow(c);
    CellHashIgnoresItself(h, c, "");
  }

  lemma CellOfDocument(h: Hash, j: Json, c: Cell)
    requires WellFormed(j) && CellParser(h)(j) == Some(c)
    ensures CellOk(h, c) && Recovers(j, CellDocument(c))
  {
    CellKeysDistinct();
    var v := ReadRecord(CellKeys(), j).value;
    RecordOfRead(CellKeys(), j, v);
    var open := CellOfRow(v).value;
    FieldsOfCell(v, open);
    RowOfCell(v, open);
    CellHashIgnoresItself(h, open, c.specHash);
    SealedRow(v, CellRow(open), CellRow(c));
  }
}
