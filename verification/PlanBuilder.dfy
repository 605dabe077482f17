/** Every plan built from an accepted configuration survives printing and loading.

    `Accepted` is what the configuration parser guarantees.
 */
module PlanBuilder {
  import opened Wrappers
  import opened Hashes
  import opened Json
  import opened Plan
  import opened PlanLoader
  import opened PlanRecords
  import opened PlanDocuments
  import opened PlanTheorems

  predicate RoleAccepted(id: RoleId, c: RoleConfiguration) {
    && IsText(c.model) && IsText(c.endpointVariable) && IsText(c.credentialVariable) && IsText(c.recipient)
    && IsText(c.executionOwner) && IsText(c.proofKind) && IsText(c.proofReference) && IsText(c.usageCoverage)
    && (id == Embedding <==> c.effort == NotApplicable)
    && c.executionOwner == ExecutionOwner(id)
  }

  predicate BindingAccepted(c: BindingConfiguration) {
    && IsText(c.bindingId) && IsText(c.providerId) && IsText(c.route) && IsText(c.disabledFeature)
    && IsText(c.disabledValue) && IsText(c.requestConstraint) && IsText(c.proofKind)
  }

  predicate CellAccepted(c: CellConfiguration) {
    && IsText(c.cellId) && IsText(c.providerId) && IsText(c.adapterProfileId)
    && IsText(c.endpointVariable) && IsText(c.credentialVariable) && IsText(c.recipient)
    && IsText(c.retrievalBinding) && c.retrievalBinding in RETRIEVAL_BINDING_IDS
  }

  predicate RolesAccepted(roles: seq<RoleConfiguration>) {
    |roles| == |ROLE_IDS| && forall i :: 0 <= i < |roles| ==> RoleAccepted(ROLE_IDS[i], roles[i])
  }

  predicate BindingsAccepted(bindings: seq<BindingConfiguration>) {
    && |bindings| == 3
    && forall i :: 0 <= i < 3 ==> BindingAccepted(bindings[i]) && bindings[i].bindingId == RETRIEVAL_BINDING_IDS[i]
  }

  predicate CellsAccepted(cells: seq<CellConfiguration>, selection: string) {
    && |cells| == 3
    && forall i :: 0 <= i < 3 ==> CellAccepted(cells[i]) && cells[i].cellId == ExpectedCellIds(selection)[i]
  }

  /** What the configuration parser guarantees about everything it returns. */
  predicate Accepted(c: Configuration) {
    && IsText(c.comparisonId)
    && DatasetOk(c.dataset) && IsSha256(c.dataset.sourceSha256) && IsSha256(c.dataset.caseManifestHash)
    && IsText(c.managedLocalEndpoint)
    && SelectionCounts(c.dataset.selection).Some?
    && DecisionOk(c.decision, c.dataset.selection)
    && ControlsOk(c.controls) && c.topK > 0
    && RolesAccepted(c.roles) && BindingsAccepted(c.bindings) && CellsAccepted(c.cells, c.dataset.selection)
  }

  lemma BuiltRoleOk(h: Hash, id: RoleId, c: RoleConfiguration)
    requires RoleAccepted(id, c)
    ensures RoleOk(h, BuildRole(h, id, c)) && BuildRole(h, id, c).roleId == id
  {
    var r := BuildRole(h, id, c);
    RoleHashIgnoresItself(h, r, "");
    BuiltRoleFieldsOk(h, id, c);
  }

  lemma BuiltRoleFieldsOk(h: Hash, id: RoleId, c: RoleConfiguration)
    requires RoleAccepted(id, c)
    ensures RoleFieldsOk(BuildRole(h, id, c))
  {
  }

  lemma BuiltRolesOk(h: Hash, roles: seq<RoleConfiguration>)
    requires RolesAccepted(roles)
    ensures RolesOk(h, BuildRoles(h, roles))
  {
    var built := BuildRoles(h, roles);
    forall i | 0 <= i < |built|
      ensures RoleOk(h, built[i]) && built[i].roleId == ROLE_IDS[i]
    {
      BuiltRoleOk(h, ROLE_IDS[i], roles[i]);
    }
    assert RoleIds(built) == ROLE_IDS;
  }

  lemma BuiltBindingOk(h: Hash, c: BindingConfiguration)
    requires BindingAccepted(c)
    ensures BindingOk(h, BuildBinding(h, c)) && BuildBinding(h, c).bindingId == c.bindingId
  {
    BindingHashIgnoresItself(h, BuildBinding(h, c), "");
  }

  lemma BuiltRetrievalOk(h: Hash, topK: int, bindings: seq<BindingConfiguration>)
    requires topK > 0 && BindingsAccepted(bindings)
    ensures RetrievalOk(h, Retrieval(topK, BuildBindings(h, bindings)))
  {
    var built := BuildBindings(h, bindings);
    forall i | 0 <= i < |built|
      ensures BindingOk(h, built[i]) && built[i].bindingId == RETRIEVAL_BINDING_IDS[i]
    {
      BuiltBindingOk(h, bindings[i]);
    }
    assert BindingIds(built) == RETRIEVAL_BINDING_IDS;
  }

  lemma {:induction false} RoleFound(roles: seq<ModelRole>, id: RoleId)
    requires exists i :: 0 <= i < |roles| && roles[i].roleId == id
    ensures RoleById(roles, id).Some? && RoleById(roles, id).value in roles
  {
    if roles[0].roleId != id {
      var i :| 0 <= i < |roles| && roles[i].roleId == id;
      assert roles[1..][i - 1] == roles[i];
      RoleFound(roles[1..], id);
    }
  }

  lemma {:induction false} BindingFound(bindings: seq<RetrievalBinding>, id: string)
    requires exists i :: 0 <= i < |bindings| && bindings[i].bindingId == id
    ensures BindingById(bindings, id).Some? && BindingById(bindings, id).value in bindings
  {
    if bindings[0].bindingId != id {
      var i :| 0 <= i < |bindings| && bindings[i].bindingId == id;
      assert bindings[1..][i - 1] == bindings[i];
      BindingFound(bindings[1..], id);
    }
  }

  /** Every role has its hash. */
  ghost predicate RolesHashed(roles: seq<ModelRole>) {
    forall id :: IsSha256(HashOfRole(roles, id))
  }

  lemma RoleHashesAreSha(h: Hash, roles: seq<ModelRole>)
    requires DigestShape(h) && AllRolesOk(h, roles)
    ensures forall i :: 0 <= i < |roles| ==> IsSha256(roles[i].bindingHash)
  {
    forall i | 0 <= i < |roles|
      ensures IsSha256(roles[i].bindingHash)
    {
      assert RoleOk(h, roles[i]);
    }
  }

  lemma RoleHashed(roles: seq<ModelRole>, id: RoleId)
    requires RoleIds(roles) == ROLE_IDS && forall i :: 0 <= i < |roles| ==> IsSha256(roles[i].bindingHash)
    ensures IsSha256(HashOfRole(roles, id))
  {
    EveryRoleListed(id);
    var i :| 0 <= i < |ROLE_IDS| && ROLE_IDS[i] == id;
    assert RoleIds(roles)[i] == roles[i].roleId;
    RoleFound(roles, id);
    var r := RoleById(roles, id).value;
    var k :| 0 <= k < |roles| && roles[k] == r;
  }

  lemma EveryRoleHashed(h: Hash, roles: seq<ModelRole>)
    requires DigestShape(h) && RolesOk(h, roles)
    ensures RolesHashed(roles)
  {
    RoleHashesAreSha(h, roles);
    forall id
      ensures IsSha256(HashOfRole(roles, id))
    {
      RoleHashed(roles, id);
    }
  }

  lemma EveryRoleListed(id: RoleId)
    ensures exists i :: 0 <= i < |ROLE_IDS| && ROLE_IDS[i] == id
  {
    assert ROLE_IDS[0] == HindsightExtraction && ROLE_IDS[1] == Mem0Extraction;
    assert ROLE_IDS[2] == OpenvikingUnderstanding;
    assert ROLE_IDS[3] == Answer && ROLE_IDS[4] == Judge && ROLE_IDS[5] == Embedding;
  }

  /** Every retrieval binding a cell may name is there and has its hash. */
  ghost predicate BindingsHashed(bindings: seq<RetrievalBinding>) {
    forall id :: id in RETRIEVAL_BINDING_IDS ==>
      BindingById(bindings, id).Some? && IsSha256(BindingById(bindings, id).value.bindingHash)
  }

  lemma BindingHashesAreSha(h: Hash, r: Retrieval)
    requires DigestShape(h) && RetrievalOk(h, r)
    ensures forall i :: 0 <= i < |r.bindings| ==> IsSha256(r.bindings[i].bindingHash)
  {
    forall i | 0 <= i < |r.bindings|
      ensures IsSha256(r.bindings[i].bindingHash)
    {
      assert BindingOk(h, r.bindings[i]);
    }
  }

  lemma BindingHashed(bindings: seq<RetrievalBinding>, id: string)
    requires BindingIds(bindings) == RETRIEVAL_BINDING_IDS && id in RETRIEVAL_BINDING_IDS
    requires forall i :: 0 <= i < |bindings| ==> IsSha256(bindings[i].bindingHash)
    ensures BindingById(bindings, id).Some? && IsSha256(BindingById(bindings, id).value.bindingHash)
  {
    BindingListed(bindings, id);
    BindingFound(bindings, id);
    var b := BindingById(bindings, id).value;
    var k :| 0 <= k < |bindings| && bindings[k] == b;
  }

  lemma EveryBindingHashed(h: Hash, r: Retrieval)
    requires DigestShape(h) && RetrievalOk(h, r)
    ensures BindingsHashed(r.bindings)
  {
    BindingHashesAreSha(h, r);
    forall id | id in RETRIEVAL_BINDING_IDS
      ensures BindingById(r.bindings, id).Some? && IsSha256(BindingById(r.bindings, id).value.bindingHash)
    {
      BindingHashed(r.bindings, id);
    }
  }

  lemma BindingListed(bindings: seq<RetrievalBinding>, id: string)
    requires BindingIds(bindings) == RETRIEVAL_BINDING_IDS && id in RETRIEVAL_BINDING_IDS
    ensures exists i :: 0 <= i < |bindings| && bindings[i].bindingId == id
  {
    var i :| 0 <= i < |BindingIds(bindings)| && BindingIds(bindings)[i] == id;
    assert bindings[i].bindingId == id;
  }

  ghost predicate DatasetAccepted(d: Dataset) {
    DatasetOk(d) && IsSha256(d.sourceSha256) && IsSha256(d.caseManifestHash)
  }

  lemma BuiltCellOk(h: Hash, ordinal: int, c: CellConfiguration, d: Dataset, roles: seq<ModelRole>,
                    bindings: seq<RetrievalBinding>, e: Execution)
    requires DigestShape(h) && ordinal > 0 && CellAccepted(c) && DatasetAccepted(d)
    requires RolesHashed(roles) && BindingsHashed(bindings)
    ensures CellOk(h, BuildCell(h, ordinal, c, d, roles, bindings, e))
  {
    CellHashIgnoresItself(h, BuildCell(h, ordinal, c, d, roles, bindings, e), "");
    BuiltCellFieldsOk(h, ordinal, c, d, roles, bindings, e);
  }

  lemma BuiltCellFieldsOk(h: Hash, ordinal: int, c: CellConfiguration, d: Dataset, roles: seq<ModelRole>,
                          bindings: seq<RetrievalBinding>, e: Execution)
    requires DigestShape(h) && ordinal > 0 && CellAccepted(c) && DatasetAccepted(d)
    requires RolesHashed(roles) && BindingsHashed(bindings)
    ensures CellFieldsOk(BuildCell(h, ordinal, c, d, roles, bindings, e))
  {
    var ids := [c.producer, c.embedding, c.answer, c.judge];
    forall i | 0 <= i < |ids|
      ensures PairOk(RoleHashes(roles, ids)[i])
    {
      assert RoleHashes(roles, ids)[i].1 == HashOfRole(roles, ids[i]);
    }
  }

  lemma BuiltCellBound(h: Hash, ordinal: int, c: CellConfiguration, d: Dataset, roles: seq<ModelRole>,
                       r: Retrieval, e: Execution)
    requires CellAccepted(c) && BindingsHashed(r.bindings)
    ensures CellBound(BuildCell(h, ordinal, c, d, roles, r.bindings, e), d, roles, r,
                      AuthorizationHash(h, e), ExecutionHash(h, e))
  {
  }

  lemma BuiltCellsNamed(h: Hash, cells: seq<CellConfiguration>, d: Dataset, roles: seq<ModelRole>,
                        bindings: seq<RetrievalBinding>, e: Execution)
    requires |cells| == 3 && forall i :: 0 <= i < 3 ==> cells[i].cellId == ExpectedCellIds(d.selection)[i]
    ensures var built := BuildCells(h, cells, d, roles, bindings, e);
            CellIds(built) == ExpectedCellIds(d.selection) && Ordinals(built) == [1, 2, 3]
  {
    var built := BuildCells(h, cells, d, roles, bindings, e);
    forall i | 0 <= i < 3
      ensures built[i].cellId == cells[i].cellId && built[i].ordinal == i + 1
    {
      BuiltName(h, i + 1, cells[i], d, roles, bindings, e);
    }
  }

  lemma BuiltName(h: Hash, ordinal: int, c: CellConfiguration, d: Dataset, roles: seq<ModelRole>,
                  bindings: seq<RetrievalBinding>, e: Execution)
    ensures BuildCell(h, ordinal, c, d, roles, bindings, e).cellId == c.cellId
    ensures BuildCell(h, ordinal, c, d, roles, bindings, e).ordinal == ordinal
  {
  }

  lemma BuiltCellsBound(h: Hash, cells: seq<CellConfiguration>, d: Dataset, roles: seq<ModelRole>, r: Retrieval,
                        e: Execution)
    requires BindingsHashed(r.bindings) && forall i :: 0 <= i < |cells| ==> CellAccepted(cells[i])
    ensures EachCellBound(BuildCells(h, cells, d, roles, r.bindings, e), d, roles, r,
                          AuthorizationHash(h, e), ExecutionHash(h, e))
  {
    var built := BuildCells(h, cells, d, roles, r.bindings, e);
    forall i | 0 <= i < |built|
      ensures CellBound(built[i], d, roles, r, AuthorizationHash(h, e), ExecutionHash(h, e))
    {
      BuiltCellBound(h, i + 1, cells[i], d, roles, r, e);
    }
  }

  lemma BuiltCellsOk(h: Hash, cells: seq<CellConfiguration>, d: Dataset, roles: seq<ModelRole>,
                     bindings: seq<RetrievalBinding>, e: Execution)
    requires DigestShape(h) && DatasetAccepted(d) && RolesHashed(roles) && BindingsHashed(bindings)
    requires forall i :: 0 <= i < |cells| ==> CellAccepted(cells[i])
    ensures AllCellsOk(h, BuildCells(h, cells, d, roles, bindings, e))
  {
    forall i | 0 <= i < |cells|
      ensures CellOk(h, BuildCells(h, cells, d, roles, bindings, e)[i])
    {
      BuiltCellAtOk(h, cells, d, roles, bindings, e, i);
    }
  }

  lemma BuiltCellAtOk(h: Hash, cells: seq<CellConfiguration>, d: Dataset, roles: seq<ModelRole>,
                      bindings: seq<RetrievalBinding>, e: Execution, i: nat)
    requires DigestShape(h) && DatasetAccepted(d) && RolesHashed(roles) && BindingsHashed(bindings)
    requires i < |cells| && CellAccepted(cells[i])
    ensures CellOk(h, BuildCells(h, cells, d, roles, bindings, e)[i])
  {
    assert BuildCells(h, cells, d, roles, bindings, e)[i] == BuildCell(h, i + 1, cells[i], d, roles, bindings, e);
    BuiltCellOk(h, i + 1, cells[i], d, roles, bindings, e);
  }

  /** A plan built from an accepted configuration closes; building fails only on a bad endpoint. */
  lemma BuiltPlanIsOk(h: Hash, c: Configuration, external: Option<string>)
    requires DigestShape(h) && Accepted(c)
    ensures BuildPlan(h, c, external).Some? <==> external.None? || IsText(external.value)
    ensures BuildPlan(h, c, external).Some? ==> PlanOk(h, BuildPlan(h, c, external).value)
  {
    if external.None? || IsText(external.value) {
      var p := BuildPlan(h, c, external).value;
      BuiltRolesOk(h, c.roles);
      BuiltRetrievalOk(h, c.topK, c.bindings);
      EveryRoleHashed(h, p.roles);
      EveryBindingHashed(h, p.retrieval);
      BuiltCellsNamed(h, c.cells, c.dataset, p.roles, p.retrieval.bindings, p.execution);
      BuiltCellsBound(h, c.cells, c.dataset, p.roles, p.retrieval, p.execution);
      BuiltCellsOk(h, c.cells, c.dataset, p.roles, p.retrieval.bindings, p.execution);
      PlanHashIgnoresItself(h, p, "");
      assert ExecutionOk(p.execution, c.dataset.selection);
    }
  }

  /** Loading the printed bytes of a built plan gives back exactly that plan. */
  lemma LoadOfBuiltPlan(h: Hash, c: Configuration, external: Option<string>)
    requires DigestShape(h) && Accepted(c)
    requires external.None? || IsText(external.value)
    ensures BuildPlan(h, c, external).Some?
    ensures Load(h, PlanText(BuildPlan(h, c, external).value)) == BuildPlan(h, c, external)
  {
    BuiltPlanIsOk(h, c, external);
    LoadOfPlanText(h, BuildPlan(h, c, external).value);
  }
}
