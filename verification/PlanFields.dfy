/** A built plan, field by field. */
module PlanFields {
  import opened Wrappers
  import opened Hashes
  import opened Json
  import opened Records
  import opened Plan
  import opened PlanLoader
  import opened PlanRecords
  import opened PlanDocuments
  import opened PlanBuilder

  /** Role `i` of a configuration is the one with this name. */
  ghost predicate RoleOrder(roles: seq<ModelRole>) {
    && |roles| == 6
    && roles[0].roleId == HindsightExtraction && roles[1].roleId == Mem0Extraction
    && roles[2].roleId == OpenvikingUnderstanding
    && roles[3].roleId == Answer && roles[4].roleId == Judge && roles[5].roleId == Embedding
  }

  /** The model is read from a variable, except for the embedding, whose model is configured. */
  ghost predicate ModelFrom(r: ModelRole, c: RoleConfiguration) {
    match r.roleId
    case Answer => r.model == "LLM_DEEP_MODEL"
    case Embedding => r.model == c.model
    case _ => r.model == "LLM_LIGHT_MODEL"
  }

  ghost predicate EffortFrom(r: ModelRole, effort: Effort) {
    match effort
    case Low => r.effort == Low && r.scale == ["low", "high", "max"] && r.rank == Some(1)
    case High => r.effort == High && r.scale == ["low", "high", "max"] && r.rank == Some(2)
    case Max => r.effort == Max && r.scale == ["low", "high", "max"] && r.rank == Some(3)
    case NotApplicable => r.effort == NotApplicable && r.scale == [] && r.rank == None
  }

  ghost predicate SamplingFrom(r: ModelRole) {
    && r.maximumOutputTokens == None
    && if r.roleId == Embedding then r.temperature == r.topP == "not_applicable"
       else r.temperature == "0" && r.topP == "1"
  }

  ghost predicate RoleFrom(r: ModelRole, c: RoleConfiguration) {
    && ModelFrom(r, c) && EffortFrom(r, c.effort) && SamplingFrom(r)
    && r.endpointVariable == c.endpointVariable && r.credentialVariable == c.credentialVariable
    && r.recipient == c.recipient && r.executionOwner == c.executionOwner
    && r.proofKind == c.proofKind && r.proofReference == c.proofReference && r.usageCoverage == c.usageCoverage
  }

  ghost predicate BindingFrom(b: RetrievalBinding, c: BindingConfiguration) {
    && b.bindingId == c.bindingId && b.providerId == c.providerId && b.route == c.route
    && b.disabledFeature == c.disabledFeature && b.disabledValue == c.disabledValue
    && b.requestConstraint == c.requestConstraint && b.proofKind == c.proofKind
  }

  ghost predicate HashesRole(pair: (RoleId, string), id: RoleId, roles: seq<ModelRole>) {
    pair.0 == id && exists i :: 0 <= i < |roles| && roles[i].roleId == id && pair.1 == roles[i].bindingHash
  }

  /** The four roles of a cell, each with the hash of its own binding: producer, embedding, answer, judge. */
  ghost predicate RolesFrom(cell: Cell, c: CellConfiguration, roles: seq<ModelRole>) {
    && cell.producer == c.producer && cell.embedding == c.embedding && cell.answer == c.answer && cell.judge == c.judge
    && |cell.roleHashes| == 4
    && HashesRole(cell.roleHashes[0], c.producer, roles) && HashesRole(cell.roleHashes[1], c.embedding, roles)
    && HashesRole(cell.roleHashes[2], c.answer, roles) && HashesRole(cell.roleHashes[3], c.judge, roles)
  }

  ghost predicate RetrievalFrom(cell: Cell, c: CellConfiguration, bindings: seq<RetrievalBinding>) {
    && cell.retrievalBindingId == c.retrievalBinding
    && exists i :: 0 <= i < |bindings| && bindings[i].bindingId == c.retrievalBinding
                   && cell.retrievalBindingHash == bindings[i].bindingHash
  }

  ghost predicate DatasetFrom(cell: Cell, d: Dataset) {
    && cell.datasetId == d.datasetId && cell.workloadId == d.workloadId && cell.selection == d.selection
    && cell.sourceSha256 == d.sourceSha256 && cell.caseManifestHash == d.caseManifestHash
  }

  ghost predicate CellFrom(cell: Cell, i: nat, c: CellConfiguration, d: Dataset, roles: seq<ModelRole>,
                           bindings: seq<RetrievalBinding>)
  {
    && cell.ordinal == i + 1 && cell.cellId == c.cellId && cell.providerId == c.providerId
    && cell.adapterProfileId == c.adapterProfileId && cell.recipient == c.recipient
    && cell.endpointVariable == c.endpointVariable && cell.credentialVariable == c.credentialVariable
    && DatasetFrom(cell, d) && RolesFrom(cell, c, roles) && RetrievalFrom(cell, c, bindings)
  }

  ghost predicate ExecutionFrom(e: Execution, c: Controls) {
    && e.maxRetriesPerOperation == c.maxRetriesPerOperation && e.extractionMaxRetries == c.extractionMaxRetries
    && e.modelMaxAttempts == c.modelMaxAttempts && e.modelTransportMaxRetries == c.modelTransportMaxRetries
    && e.operationTimeoutSeconds == c.operationTimeoutSeconds && e.maxParallelDatasets == 1
    && e.maxParallelProviders == c.maxParallelProviders
    && e.maxParallelHistoryIngestions == c.maxParallelHistoryIngestions
    && e.maxParallelQuestions == c.maxParallelQuestions
  }

  /** The endpoint is external, and the given one, exactly when one is given. */
  ghost predicate EndpointFrom(e: EmbeddingEndpoint, c: Configuration, external: Option<string>) {
    match external
    case Some(url) => e.external && e.endpoint == url
    case None => !e.external && e.endpoint == c.managedLocalEndpoint
  }

  ghost predicate AllRolesFrom(roles: seq<ModelRole>, c: seq<RoleConfiguration>) {
    RoleOrder(roles) && |c| == 6 && forall i :: 0 <= i < 6 ==> RoleFrom(roles[i], c[i])
  }

  ghost predicate AllBindingsFrom(bindings: seq<RetrievalBinding>, c: seq<BindingConfiguration>) {
    |bindings| == |c| == 3 && forall i :: 0 <= i < 3 ==> BindingFrom(bindings[i], c[i])
  }

  ghost predicate AllCellsFrom(cells: seq<Cell>, c: seq<CellConfiguration>, d: Dataset, roles: seq<ModelRole>,
                               bindings: seq<RetrievalBinding>)
  {
    |cells| == |c| == 3 && forall i :: 0 <= i < 3 ==> CellFrom(cells[i], i, c[i], d, roles, bindings)
  }

  /** Every field of the plan that is not a hash, from the configuration alone. */
  ghost predicate PlanFrom(p: ResolvedPlan, c: Configuration, external: Option<string>) {
    && p.comparisonId == c.comparisonId && p.dataset == c.dataset && p.decision == c.decision
    && EndpointFrom(p.endpoint, c, external) && ExecutionFrom(p.execution, c.controls)
    && AllRolesFrom(p.roles, c.roles)
    && p.retrieval.topK == c.topK && AllBindingsFrom(p.retrieval.bindings, c.bindings)
    && AllCellsFrom(p.cells, c.cells, c.dataset, p.roles, p.retrieval.bindings)
  }

  // ---- what is built is described ----

  lemma BuiltRoleFrom(h: Hash, id: RoleId, c: RoleConfiguration)
    ensures BuildRole(h, id, c).roleId == id && RoleFrom(BuildRole(h, id, c), c)
  {
  }

  lemma BuiltRolesFrom(h: Hash, roles: seq<RoleConfiguration>)
    requires |roles| == 6
    ensures AllRolesFrom(BuildRoles(h, roles), roles)
  {
    forall i | 0 <= i < 6
      ensures BuildRoles(h, roles)[i].roleId == ROLE_IDS[i] && RoleFrom(BuildRoles(h, roles)[i], roles[i])
    {
      BuiltRoleAt(h, roles, i);
    }
    assert ROLE_IDS[0] == HindsightExtraction && ROLE_IDS[5] == Embedding;
  }

  lemma BuiltRoleAt(h: Hash, roles: seq<RoleConfiguration>, i: nat)
    requires |roles| == 6 && i < 6
    ensures BuildRoles(h, roles)[i] == BuildRole(h, ROLE_IDS[i], roles[i])
    ensures BuildRoles(h, roles)[i].roleId == ROLE_IDS[i] && RoleFrom(BuildRoles(h, roles)[i], roles[i])
  {
    BuiltRoleFrom(h, ROLE_IDS[i], roles[i]);
  }

  lemma HashOfListedRole(roles: seq<ModelRole>, id: RoleId)
    requires RoleOrder(roles)
    ensures HashesRole((id, HashOfRole(roles, id)), id, roles)
  {
    assert exists i :: 0 <= i < |roles| && roles[i].roleId == id by {
      match id
      case HindsightExtraction => assert roles[0].roleId == id;
      case Mem0Extraction => assert roles[1].roleId == id;
      case OpenvikingUnderstanding => assert roles[2].roleId == id;
      case Answer => assert roles[3].roleId == id;
      case Judge => assert roles[4].roleId == id;
      case Embedding => assert roles[5].roleId == id;
    }
    RoleFoundIs(roles, id);
  }

  lemma {:induction false} RoleFoundIs(roles: seq<ModelRole>, id: RoleId)
    requires exists i :: 0 <= i < |roles| && roles[i].roleId == id
    ensures exists i :: 0 <= i < |roles| && roles[i].roleId == id && RoleById(roles, id) == Some(roles[i])
  {
    if roles[0].roleId != id {
      var i :| 0 <= i < |roles| && roles[i].roleId == id;
      assert roles[1..][i - 1] == roles[i];
      RoleFoundIs(roles[1..], id);
      var k :| 0 <= k < |roles[1..]| && roles[1..][k].roleId == id && RoleById(roles[1..], id) == Some(roles[1..][k]);
      assert roles[k + 1] == roles[1..][k];
    }
  }

  lemma {:induction false} BindingFoundIs(bindings: seq<RetrievalBinding>, id: string)
    requires exists i :: 0 <= i < |bindings| && bindings[i].bindingId == id
    ensures exists i :: 0 <= i < |bindings| && bindings[i].bindingId == id
                        && BindingById(bindings, id) == Some(bindings[i])
  {
    if bindings[0].bindingId != id {
      var i :| 0 <= i < |bindings| && bindings[i].bindingId == id;
      assert bindings[1..][i - 1] == bindings[i];
      BindingFoundIs(bindings[1..], id);
      var k :| 0 <= k < |bindings[1..]| && bindings[1..][k].bindingId == id
               && BindingById(bindings[1..], id) == Some(bindings[1..][k]);
      assert bindings[k + 1] == bindings[1..][k];
    }
  }

  lemma BuiltCellRolesFrom(h: Hash, i: nat, c: CellConfiguration, d: Dataset, roles: seq<ModelRole>,
                           bindings: seq<RetrievalBinding>, e: Execution)
    requires RoleOrder(roles)
    ensures RolesFrom(BuildCell(h, i + 1, c, d, roles, bindings, e), c, roles)
  {
    var ids := [c.producer, c.embedding, c.answer, c.judge];
    assert RoleHashes(roles, ids) == [(c.producer, HashOfRole(roles, c.producer)),
                                      (c.embedding, HashOfRole(roles, c.embedding)),
                                      (c.answer, HashOfRole(roles, c.answer)), (c.judge, HashOfRole(roles, c.judge))];
    HashOfListedRole(roles, c.producer);
    HashOfListedRole(roles, c.embedding);
    HashOfListedRole(roles, c.answer);
    HashOfListedRole(roles, c.judge);
  }

  lemma BuiltCellFrom(h: Hash, i: nat, c: CellConfiguration, d: Dataset, roles: seq<ModelRole>,
                      bindings: seq<RetrievalBinding>, e: Execution)
    requires RoleOrder(roles) && exists k :: 0 <= k < |bindings| && bindings[k].bindingId == c.retrievalBinding
    ensures CellFrom(BuildCell(h, i + 1, c, d, roles, bindings, e), i, c, d, roles, bindings)
  {
    BuiltCellRolesFrom(h, i, c, d, roles, bindings, e);
    BindingFoundIs(bindings, c.retrievalBinding);
  }

  lemma BuiltCellAt(h: Hash, c: Configuration, roles: seq<ModelRole>, bindings: seq<RetrievalBinding>, e: Execution,
                       i: nat)
    requires CellsAccepted(c.cells, c.dataset.selection) && i < 3 && RoleOrder(roles) && |bindings| == 3
    requires forall k :: 0 <= k < 3 ==> bindings[k].bindingId == RETRIEVAL_BINDING_IDS[k]
    ensures CellFrom(BuildCells(h, c.cells, c.dataset, roles, bindings, e)[i], i, c.cells[i], c.dataset, roles,
                     bindings)
  {
    assert CellAccepted(c.cells[i]);
    var k :| 0 <= k < 3 && RETRIEVAL_BINDING_IDS[k] == c.cells[i].retrievalBinding;
    assert bindings[k].bindingId == c.cells[i].retrievalBinding;
    BuiltCellFrom(h, i, c.cells[i], c.dataset, roles, bindings, e);
  }

  lemma BuiltCellsFrom(h: Hash, c: Configuration, roles: seq<ModelRole>, bindings: seq<RetrievalBinding>, e: Execution)
    requires CellsAccepted(c.cells, c.dataset.selection) && RoleOrder(roles) && |bindings| == 3
    requires forall k :: 0 <= k < 3 ==> bindings[k].bindingId == RETRIEVAL_BINDING_IDS[k]
    ensures AllCellsFrom(BuildCells(h, c.cells, c.dataset, roles, bindings, e), c.cells, c.dataset, roles, bindings)
  {
    forall i | 0 <= i < 3
      ensures CellFrom(BuildCells(h, c.cells, c.dataset, roles, bindings, e)[i], i, c.cells[i], c.dataset, roles,
                       bindings)
    {
      BuiltCellAt(h, c, roles, bindings, e, i);
    }
  }

  lemma BuiltBindingsFrom(h: Hash, bindings: seq<BindingConfiguration>)
    requires BindingsAccepted(bindings)
    ensures AllBindingsFrom(BuildBindings(h, bindings), bindings)
    ensures forall i :: 0 <= i < 3 ==> BuildBindings(h, bindings)[i].bindingId == RETRIEVAL_BINDING_IDS[i]
  {
    assert forall i :: 0 <= i < 3 ==> BindingAccepted(bindings[i]);
  }

  /** The plan that is built has its fields from the configuration, position by position. */
  lemma BuiltPlanFrom(h: Hash, c: Configuration, external: Option<string>)
    requires Accepted(c) && (external.None? || IsText(external.value))
    ensures BuildPlan(h, c, external).Some? && PlanFrom(BuildPlan(h, c, external).value, c, external)
  {
    var p := BuildPlan(h, c, external).value;
    BuiltRolesFrom(h, c.roles);
    BuiltBindingsFrom(h, c.bindings);
    BuiltCellsFrom(h, c, p.roles, p.retrieval.bindings, p.execution);
  }

  // ---- and nothing else is ----

  lemma RoleIsBuilt(h: Hash, r: ModelRole, c: RoleConfiguration)
    requires RoleOk(h, r) && RoleFrom(r, c)
    ensures r == BuildRole(h, r.roleId, c)
  {
    RoleHashIgnoresItself(h, r, "");
    SameRoleFields(h, r, c);
  }

  lemma SameRoleFields(h: Hash, r: ModelRole, c: RoleConfiguration)
    requires RoleFrom(r, c)
    ensures r.(bindingHash := "") == BuildRole(h, r.roleId, c).(bindingHash := "")
  {
  }

  lemma BindingIsBuilt(h: Hash, b: RetrievalBinding, c: BindingConfiguration)
    requires BindingOk(h, b) && BindingFrom(b, c)
    ensures b == BuildBinding(h, c)
  {
    BindingHashIgnoresItself(h, b, "");
    assert b.(bindingHash := "") == BuildBinding(h, c).(bindingHash := "");
  }

  lemma CellIsBuilt(h: Hash, cell: Cell, i: nat, c: CellConfiguration, d: Dataset, roles: seq<ModelRole>, r: Retrieval,
                    e: Execution)
    requires CellOk(h, cell) && CellBound(cell, d, roles, r, AuthorizationHash(h, e), ExecutionHash(h, e))
    requires CellFrom(cell, i, c, d, roles, r.bindings)
    ensures cell == BuildCell(h, i + 1, c, d, roles, r.bindings, e)
  {
    CellHashIgnoresItself(h, cell, "");
    SameCellFields(h, cell, i, c, d, roles, r, e);
  }

  lemma SameCellFields(h: Hash, cell: Cell, i: nat, c: CellConfiguration, d: Dataset, roles: seq<ModelRole>,
                       r: Retrieval, e: Execution)
    requires CellBound(cell, d, roles, r, AuthorizationHash(h, e), ExecutionHash(h, e))
    requires CellFrom(cell, i, c, d, roles, r.bindings)
    ensures cell.(specHash := "") == BuildCell(h, i + 1, c, d, roles, r.bindings, e).(specHash := "")
  {
  }

  lemma ExecutionIsBuilt(e: Execution, c: Controls, selection: string)
    requires ExecutionOk(e, selection) && ExecutionFrom(e, c)
    ensures ResolveExecution(selection, c) == Some(e)
  {
    var other :| ControlsOk(other) && ResolveExecution(selection, other) == Some(e);
    assert other == c;
  }

  lemma RolesAreBuilt(h: Hash, roles: seq<ModelRole>, c: seq<RoleConfiguration>)
    requires AllRolesOk(h, roles) && AllRolesFrom(roles, c)
    ensures roles == BuildRoles(h, c)
  {
    var built := BuildRoles(h, c);
    RoleAtIsBuilt(h, roles, c, 0);
    RoleAtIsBuilt(h, roles, c, 1);
    RoleAtIsBuilt(h, roles, c, 2);
    RoleAtIsBuilt(h, roles, c, 3);
    RoleAtIsBuilt(h, roles, c, 4);
    RoleAtIsBuilt(h, roles, c, 5);
    SixAgree(roles, built);
  }

  lemma SixAgree(roles: seq<ModelRole>, others: seq<ModelRole>)
    requires |roles| == |others| == 6
    requires roles[0] == others[0] && roles[1] == others[1] && roles[2] == others[2]
    requires roles[3] == others[3] && roles[4] == others[4] && roles[5] == others[5]
    ensures roles == others
  {
  }

  lemma RoleAtIsBuilt(h: Hash, roles: seq<ModelRole>, c: seq<RoleConfiguration>, i: nat)
    requires AllRolesOk(h, roles) && AllRolesFrom(roles, c) && i < 6
    ensures roles[i] == BuildRoles(h, c)[i]
  {
    RoleIsBuilt(h, roles[i], c[i]);
    BuiltRoleAt(h, c, i);
    OrderIsListed(roles, i);
  }

  lemma OrderIsListed(roles: seq<ModelRole>, i: nat)
    requires RoleOrder(roles) && i < 6
    ensures roles[i].roleId == ROLE_IDS[i]
  {
  }

  lemma BindingsAreBuilt(h: Hash, r: Retrieval, c: seq<BindingConfiguration>)
    requires RetrievalOk(h, r) && AllBindingsFrom(r.bindings, c)
    ensures r.bindings == BuildBindings(h, c)
  {
    forall i | 0 <= i < 3
      ensures r.bindings[i] == BuildBindings(h, c)[i]
    {
      BindingIsBuilt(h, r.bindings[i], c[i]);
    }
  }

  lemma CellsAreBuilt(h: Hash, p: ResolvedPlan, c: Configuration)
    requires CellsOk(h, p) && p.dataset == c.dataset
    requires AllCellsFrom(p.cells, c.cells, c.dataset, p.roles, p.retrieval.bindings)
    ensures p.cells == BuildCells(h, c.cells, c.dataset, p.roles, p.retrieval.bindings, p.execution)
  {
    forall i | 0 <= i < 3
      ensures p.cells[i] == BuildCells(h, c.cells, c.dataset, p.roles, p.retrieval.bindings, p.execution)[i]
    {
      CellIsBuilt(h, p.cells[i], i, c.cells[i], c.dataset, p.roles, p.retrieval, p.execution);
    }
  }

  ghost predicate PartsBuilt(h: Hash, c: Configuration, p: ResolvedPlan)
    requires |c.roles| == |ROLE_IDS|
  {
    && p.roles == BuildRoles(h, c.roles) && p.retrieval == Retrieval(c.topK, BuildBindings(h, c.bindings))
    && ResolveExecution(c.dataset.selection, c.controls) == Some(p.execution)
    && p.cells == BuildCells(h, c.cells, c.dataset, p.roles, p.retrieval.bindings, p.execution)
  }

  lemma PartsAreBuilt(h: Hash, c: Configuration, external: Option<string>, p: ResolvedPlan)
    requires |c.roles| == |ROLE_IDS| && PlanFieldsOk(h, p) && PlanFrom(p, c, external)
    ensures PartsBuilt(h, c, p)
  {
    RolesAreBuilt(h, p.roles, c.roles);
    BindingsAreBuilt(h, p.retrieval, c.bindings);
    ExecutionIsBuilt(p.execution, c.controls, c.dataset.selection);
    CellsAreBuilt(h, p, c);
  }

  lemma PlanIsBuilt(h: Hash, c: Configuration, external: Option<string>, p: ResolvedPlan)
    requires |c.roles| == |ROLE_IDS| && PartsBuilt(h, c, p) && (external.None? || IsText(external.value))
    requires p.comparisonId == c.comparisonId && p.dataset == c.dataset && p.decision == c.decision
    requires EndpointFrom(p.endpoint, c, external) && p.planHash == PlanHash(h, p)
    ensures BuildPlan(h, c, external) == Some(p)
  {
    PlanHashIgnoresItself(h, p, "");
  }

  /** Building a plan yields exactly the closed plan whose fields come from the configuration. */
  lemma BuiltIffFrom(h: Hash, c: Configuration, external: Option<string>, p: ResolvedPlan)
    requires DigestShape(h) && Accepted(c) && (external.None? || IsText(external.value))
    ensures BuildPlan(h, c, external) == Some(p) <==> PlanOk(h, p) && PlanFrom(p, c, external)
  {
    BuiltPlanFrom(h, c, external);
    BuiltPlanIsOk(h, c, external);
    if PlanOk(h, p) && PlanFrom(p, c, external) {
      PartsAreBuilt(h, c, external, p);
      PlanIsBuilt(h, c, external, p);
    }
  }

  // ---- the derived limits ----

  /** Every operation is attempted once. */
  function Once(c: Controls): Controls {
    c.(maxRetriesPerOperation := 0, modelMaxAttempts := 1, modelTransportMaxRetries := 0)
  }

  /** Every retry-eligible operation is attempted twice. */
  function Twice(c: Controls): Controls {
    c.(maxRetriesPerOperation := 1, modelMaxAttempts := 2, modelTransportMaxRetries := 0)
  }

  /** The base counts are the maxima without retries, an eligible operation is one that a retry attempts
      again, and a comparison is three cells. */
  lemma LimitsCount(cases: int, sources: int, c: Controls)
    ensures var e, once, twice := Limits(cases, sources, c), Limits(cases, sources, Once(c)),
                                  Limits(cases, sources, Twice(c));
            && e.baseOperations == once.maxOperationAttempts && e.baseOwnerAuthorizations == once.maxOwnerAuthorizations
            && e.retryEligibleOperations == twice.maxOperationAttempts - once.maxOperationAttempts
            && e.comparisonOperationAttempts ==
                 e.maxOperationAttempts + e.maxOperationAttempts + e.maxOperationAttempts
            && e.comparisonOwnerAuthorizations ==
                 e.maxOwnerAuthorizations + e.maxOwnerAuthorizations + e.maxOwnerAuthorizations
  {
    assert 2 * cases * (1 * (0 + 1) - 1) == 0;
    assert 2 * cases * (2 * (0 + 1) - 1) == 2 * cases;
  }
}
