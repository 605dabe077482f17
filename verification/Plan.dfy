/** The frozen execution plan: its records, its documents and its builder.

    Rows are given column by column, so that a proof about one column unfolds only that one.
 */
module Plan {
  import opened Wrappers
  import opened Hashes
  import opened Json
  import opened Records

  // ---- identities ----

  datatype RoleId = HindsightExtraction | Mem0Extraction | OpenvikingUnderstanding | Answer | Judge | Embedding

  const ROLE_IDS := [HindsightExtraction, Mem0Extraction, OpenvikingUnderstanding, Answer, Judge, Embedding]

  function RoleText(r: RoleId): string {
    match r
    case HindsightExtraction => "hindsight_extraction"
    case Mem0Extraction => "mem0_extraction"
    case OpenvikingUnderstanding => "openviking_semantic_understanding"
    case Answer => "answer"
    case Judge => "judge"
    case Embedding => "embedding"
  }

  /** `MODEL_VARIABLE_BY_ROLE` */
  function ModelVariable(r: RoleId): Option<string> {
    match r
    case Answer => Some("LLM_DEEP_MODEL")
    case Embedding => None
    case _ => Some("LLM_LIGHT_MODEL")
  }

  /** `MODEL_EXECUTION_OWNER_BY_ROLE` */
  function ExecutionOwner(r: RoleId): string {
    if r == Answer || r == Judge then "harness" else "provider_internal"
  }

  datatype Effort = Low | High | Max | NotApplicable

  function EffortText(e: Effort): string {
    match e
    case Low => "low"
    case High => "high"
    case Max => "max"
    case NotApplicable => "not_applicable"
  }

  /** `DEEPSEEK_THINKING_EFFORT_SCALE` */
  const EFFORT_SCALE := ["low", "high", "max"]

  function EffortScale(e: Effort): seq<string> {
    if e == NotApplicable then [] else EFFORT_SCALE
  }

  function EffortRank(e: Effort): Option<int> {
    match e
    case Low => Some(1)
    case High => Some(2)
    case Max => Some(3)
    case NotApplicable => None
  }

  function OptionalInt(n: Option<int>): Json {
    if n.Some? then Int(n.value) else Null
  }

  // ---- records of the plan ----

  datatype Dataset = Dataset(
    datasetId: string, workloadId: string, selection: string, path: string,
    revision: string, sourceSha256: string, caseManifestHash: string)

  datatype EmbeddingEndpoint = EmbeddingEndpoint(external: bool, endpoint: string)

  datatype ModelRole = ModelRole(
    bindingHash: string, roleId: RoleId, model: string, effort: Effort,
    scale: seq<string>, rank: Option<int>,
    endpointVariable: string, credentialVariable: string, recipient: string,
    executionOwner: string, proofKind: string, proofReference: string,
    usageCoverage: string, maximumOutputTokens: Option<int>, temperature: string, topP: string)

  datatype RetrievalBinding = RetrievalBinding(
    bindingHash: string, bindingId: string, providerId: string, route: string,
    disabledFeature: string, disabledValue: string, requestConstraint: string, proofKind: string)

  datatype Retrieval = Retrieval(topK: int, bindings: seq<RetrievalBinding>)

  datatype Execution = Execution(
    maxRetriesPerOperation: int, extractionMaxRetries: int, modelMaxAttempts: int,
    modelTransportMaxRetries: int, operationTimeoutSeconds: int,
    maxParallelDatasets: int, maxParallelProviders: int,
    maxParallelHistoryIngestions: int, maxParallelQuestions: int,
    baseOperations: int, retryEligibleOperations: int, maxOperationAttempts: int,
    baseOwnerAuthorizations: int, maxOwnerAuthorizations: int,
    comparisonOperationAttempts: int, comparisonOwnerAuthorizations: int)

  datatype Decision = Decision(minimumAccuracyDelta: string, maximumPValue: string)

  datatype Cell = Cell(
    specHash: string, ordinal: int, cellId: string, providerId: string, adapterProfileId: string,
    endpointVariable: string, credentialVariable: string, recipient: string,
    datasetId: string, workloadId: string, selection: string,
    sourceSha256: string, caseManifestHash: string,
    producer: RoleId, embedding: RoleId, answer: RoleId, judge: RoleId,
    roleHashes: seq<(RoleId, string)>,
    retrievalBindingId: string, retrievalBindingHash: string,
    authorizationHash: string, executionHash: string)

  datatype ResolvedPlan = ResolvedPlan(
    planHash: string, comparisonId: string, dataset: Dataset, endpoint: EmbeddingEndpoint,
    roles: seq<ModelRole>, retrieval: Retrieval, execution: Execution,
    decision: Option<Decision>, cells: seq<Cell>)

  // ---- documents ----

  function Documents<T>(document: T -> Json, items: seq<T>): (r: seq<Json>)
    ensures |r| == |items| && forall i :: 0 <= i < |r| ==> r[i] == document(items[i])
  {
    seq(|items|, i requires 0 <= i < |items| => document(items[i]))
  }

  function DatasetKey(i: int): string {
    match i
    case 0 => "dataset_id"
    case 1 => "workload_id"
    case 2 => "selection"
    case 3 => "path"
    case 4 => "revision"
    case 5 => "source_sha256"
    case _ => "case_manifest_hash"
  }

  function DatasetKeys(): (r: seq<string>)
    ensures |r| == 7 && forall i :: 0 <= i < |r| ==> r[i] == DatasetKey(i)
  {
    seq(7, i requires 0 <= i < 7 => DatasetKey(i))
  }

  /** Column `i` of the dataset record, in the order of `DatasetKeys`. */
  function DatasetValue(d: Dataset, i: int): Json {
    match i
    case 0 => Str(d.datasetId)
    case 1 => Str(d.workloadId)
    case 2 => Str(d.selection)
    case 3 => Str(d.path)
    case 4 => Str(d.revision)
    case 5 => Str(d.sourceSha256)
    case _ => Str(d.caseManifestHash)
  }

  function DatasetRow(d: Dataset): (r: seq<Json>)
    ensures |r| == 7 && forall i :: 0 <= i < |r| ==> r[i] == DatasetValue(d, i)
  {
    seq(7, i requires 0 <= i < 7 => DatasetValue(d, i))
  }

  function DatasetDocument(d: Dataset): Json {
    Record(DatasetKeys(), DatasetRow(d))
  }

  function EndpointKey(i: int): string {
    match i
    case 0 => "ownership"
    case _ => "effective_endpoint"
  }

  function EndpointKeys(): (r: seq<string>)
    ensures |r| == 2 && forall i :: 0 <= i < |r| ==> r[i] == EndpointKey(i)
  {
    seq(2, i requires 0 <= i < 2 => EndpointKey(i))
  }

  function Ownership(external: bool): string {
    if external then "external" else "embedding_local_fallback"
  }

  function EndpointDocument(e: EmbeddingEndpoint): Json {
    Record(EndpointKeys(), Texts([Ownership(e.external), e.endpoint]))
  }

  function RoleKey(i: int): string {
    match i
    case 0 => "binding_hash"
    case 1 => "role_id"
    case 2 => "model"
    case 3 => "thinking_effort"
    case 4 => "thinking_effort_scale"
    case 5 => "thinking_effort_rank_1_indexed"
    case 6 => "endpoint_variable"
    case 7 => "credential_variable"
    case 8 => "recipient"
    case 9 => "execution_owner"
    case 10 => "proof_kind"
    case 11 => "proof_reference"
    case 12 => "usage_coverage"
    case 13 => "maximum_output_tokens_per_call"
    case 14 => "temperature"
    case _ => "top_p"
  }

  function RoleKeys(): (r: seq<string>)
    ensures |r| == 16 && forall i :: 0 <= i < |r| ==> r[i] == RoleKey(i)
  {
    seq(16, i requires 0 <= i < 16 => RoleKey(i))
  }

  /** Column `i` of a role record, in the order of `RoleKeys`. */
  function RoleValue(r: ModelRole, i: int): Json {
    match i
    case 0 => Str(r.bindingHash)
    case 1 => Str(RoleText(r.roleId))
    case 2 => Str(r.model)
    case 3 => Str(EffortText(r.effort))
    case 4 => Arr(Texts(r.scale))
    case 5 => OptionalInt(r.rank)
    case 6 => Str(r.endpointVariable)
    case 7 => Str(r.credentialVariable)
    case 8 => Str(r.recipient)
    case 9 => Str(r.executionOwner)
    case 10 => Str(r.proofKind)
    case 11 => Str(r.proofReference)
    case 12 => Str(r.usageCoverage)
    case 13 => OptionalInt(r.maximumOutputTokens)
    case 14 => Str(r.temperature)
    case _ => Str(r.topP)
  }

  function RoleRow(r: ModelRole): (row: seq<Json>)
    ensures |row| == 16 && forall i :: 0 <= i < |row| ==> row[i] == RoleValue(r, i)
  {
    seq(16, i requires 0 <= i < 16 => RoleValue(r, i))
  }

  function RoleDocument(r: ModelRole): Json {
    Record(RoleKeys(), RoleRow(r))
  }

  function RoleHash(h: Hash, r: ModelRole): string {
    Digest(h, Arr([Str("oamb-model-execution-binding-initial-v1"), Record(RoleKeys()[1..], RoleRow(r)[1..])]))
  }

  function BindingKey(i: int): string {
    match i
    case 0 => "binding_hash"
    case 1 => "binding_id"
    case 2 => "provider_id"
    case 3 => "route"
    case 4 => "query_embedding_role"
    case 5 => "disabled_feature"
    case 6 => "disabled_value"
    case 7 => "request_constraint"
    case _ => "proof_kind"
  }

  function BindingKeys(): (r: seq<string>)
    ensures |r| == 9 && forall i :: 0 <= i < |r| ==> r[i] == BindingKey(i)
  {
    seq(9, i requires 0 <= i < 9 => BindingKey(i))
  }

  /** Column `i` of a binding record, in the order of `BindingKeys`. */
  function BindingValue(b: RetrievalBinding, i: int): Json {
    match i
    case 0 => Str(b.bindingHash)
    case 1 => Str(b.bindingId)
    case 2 => Str(b.providerId)
    case 3 => Str(b.route)
    case 4 => Str("embedding")
    case 5 => Str(b.disabledFeature)
    case 6 => Str(b.disabledValue)
    case 7 => Str(b.requestConstraint)
    case _ => Str(b.proofKind)
  }

  function BindingRow(b: RetrievalBinding): (r: seq<Json>)
    ensures |r| == 9 && forall i :: 0 <= i < |r| ==> r[i] == BindingValue(b, i)
  {
    seq(9, i requires 0 <= i < 9 => BindingValue(b, i))
  }

  function BindingDocument(b: RetrievalBinding): Json {
    Record(BindingKeys(), BindingRow(b))
  }

  function BindingHash(h: Hash, b: RetrievalBinding): string {
    Digest(h, Arr([Str("oamb-retrieval-binding-initial-v1"), Record(BindingKeys()[1..], BindingRow(b)[1..])]))
  }

  function RetrievalKey(i: int): string {
    match i
    case 0 => "generation"
    case 1 => "top_k"
    case _ => "bindings"
  }

  function RetrievalKeys(): (r: seq<string>)
    ensures |r| == 3 && forall i :: 0 <= i < |r| ==> r[i] == RetrievalKey(i)
  {
    seq(3, i requires 0 <= i < 3 => RetrievalKey(i))
  }

  /** Column `i` of the retrieval record, in the order of `RetrievalKeys`. */
  function RetrievalValue(r: Retrieval, i: int): Json {
    match i
    case 0 => Str("disabled")
    case 1 => Int(r.topK)
    case _ => Arr(Documents(BindingDocument, r.bindings))
  }

  function RetrievalRow(r: Retrieval): (row: seq<Json>)
    ensures |row| == 3 && forall i :: 0 <= i < |row| ==> row[i] == RetrievalValue(r, i)
  {
    seq(3, i requires 0 <= i < 3 => RetrievalValue(r, i))
  }

  function RetrievalDocument(r: Retrieval): Json {
    Record(RetrievalKeys(), RetrievalRow(r))
  }

  function ExecutionKey(i: int): string {
    match i
    case 0 => "ingestion_retry_unit"
    case 1 => "ingestion_recovery_strategy"
    case 2 => "max_retries_per_operation"
    case 3 => "extraction_max_retries"
    case 4 => "model_max_attempts"
    case 5 => "model_transport_max_retries"
    case 6 => "operation_timeout_seconds"
    case 7 => "max_parallel_datasets"
    case 8 => "max_parallel_providers_per_dataset"
    case 9 => "max_parallel_history_ingestions_per_provider"
    case 10 => "max_parallel_questions_per_provider"
    case 11 => "per_cell_base_operation_count"
    case 12 => "per_cell_retry_eligible_operation_count"
    case 13 => "per_cell_max_operation_attempt_count"
    case 14 => "per_cell_base_owner_authorization_count"
    case 15 => "per_cell_max_owner_authorization_count"
    case 16 => "comparison_max_operation_attempt_count"
    case _ => "comparison_max_owner_authorization_count"
  }

  function ExecutionKeys(): (r: seq<string>)
    ensures |r| == 18 && forall i :: 0 <= i < |r| ==> r[i] == ExecutionKey(i)
  {
    seq(18, i requires 0 <= i < 18 => ExecutionKey(i))
  }

  /** Column `i` of the execution record, in the order of `ExecutionKeys`. */
  function ExecutionValue(e: Execution, i: int): Json {
    match i
    case 0 => Str("batch_dispatch")
    case 1 => Str("same_scope_batch_retry_skip_v1")
    case 2 => Int(e.maxRetriesPerOperation)
    case 3 => Int(e.extractionMaxRetries)
    case 4 => Int(e.modelMaxAttempts)
    case 5 => Int(e.modelTransportMaxRetries)
    case 6 => Int(e.operationTimeoutSeconds)
    case 7 => Int(e.maxParallelDatasets)
    case 8 => Int(e.maxParallelProviders)
    case 9 => Int(e.maxParallelHistoryIngestions)
    case 10 => Int(e.maxParallelQuestions)
    case 11 => Int(e.baseOperations)
    case 12 => Int(e.retryEligibleOperations)
    case 13 => Int(e.maxOperationAttempts)
    case 14 => Int(e.baseOwnerAuthorizations)
    case 15 => Int(e.maxOwnerAuthorizations)
    case 16 => Int(e.comparisonOperationAttempts)
    case _ => Int(e.comparisonOwnerAuthorizations)
  }

  function ExecutionRow(e: Execution): (r: seq<Json>)
    ensures |r| == 18 && forall i :: 0 <= i < |r| ==> r[i] == ExecutionValue(e, i)
  {
    seq(18, i requires 0 <= i < 18 => ExecutionValue(e, i))
  }

  function ExecutionDocument(e: Execution): Json {
    Record(ExecutionKeys(), ExecutionRow(e))
  }

  function ExecutionHash(h: Hash, e: Execution): string {
    Digest(h, Arr([Str("oamb-resolved-execution-initial-v1"), ExecutionDocument(e)]))
  }

  /** The authorization document leaves out the concurrency and comparison fields. */
  function AuthorizationRow(e: Execution): (row: seq<Json>)
    ensures |row| == 12
  {
    ExecutionRow(e)[..7] + ExecutionRow(e)[11..16]
  }

  function AuthorizationDocument(e: Execution): Json {
    Record(ExecutionKeys()[..7] + ExecutionKeys()[11..16], AuthorizationRow(e))
  }

  function AuthorizationHash(h: Hash, e: Execution): string {
    Digest(h, Arr([Str("oamb-operation-authorization-initial-v1"), AuthorizationDocument(e)]))
  }

  function DecisionKey(i: int): string {
    match i
    case 0 => "minimum_accuracy_delta"
    case _ => "maximum_exact_mcnemar_p_value"
  }

  function DecisionKeys(): (r: seq<string>)
    ensures |r| == 2 && forall i :: 0 <= i < |r| ==> r[i] == DecisionKey(i)
  {
    seq(2, i requires 0 <= i < 2 => DecisionKey(i))
  }

  function DecisionDocument(d: Option<Decision>): Json {
    match d
    case None => Null
    case Some(d) => Record(DecisionKeys(), Texts([d.minimumAccuracyDelta, d.maximumPValue]))
  }

  function CellKey(i: int): string {
    match i
    case 0 => "cell_spec_hash"
    case 1 => "ordinal_1_indexed"
    case 2 => "cell_id"
    case 3 => "provider_id"
    case 4 => "adapter_profile_id"
    case 5 => "endpoint_variable"
    case 6 => "credential_variable"
    case 7 => "recipient"
    case 8 => "dataset_id"
    case 9 => "workload_id"
    case 10 => "selection"
    case 11 => "source_sha256"
    case 12 => "case_manifest_hash"
    case 13 => "producer_role_id"
    case 14 => "embedding_role_id"
    case 15 => "answer_role_id"
    case 16 => "judge_role_id"
    case 17 => "model_role_binding_hashes"
    case 18 => "retrieval_binding_id"
    case 19 => "retrieval_binding_hash"
    case 20 => "authorization_hash"
    case _ => "execution_hash"
  }

  function CellKeys(): (r: seq<string>)
    ensures |r| == 22 && forall i :: 0 <= i < |r| ==> r[i] == CellKey(i)
  {
    seq(22, i requires 0 <= i < 22 => CellKey(i))
  }

  function RoleHashPairs(pairs: seq<(RoleId, string)>): (r: seq<Json>)
    ensures |r| == |pairs|
    ensures forall i :: 0 <= i < |r| ==> r[i] == Arr([Str(RoleText(pairs[i].0)), Str(pairs[i].1)])
  {
    seq(|pairs|, i requires 0 <= i < |pairs| => Arr([Str(RoleText(pairs[i].0)), Str(pairs[i].1)]))
  }

  /** Column `i` of a cell record, in the order of `CellKeys`. */
  function CellValue(c: Cell, i: int): Json {
    match i
    case 0 => Str(c.specHash)
    case 1 => Int(c.ordinal)
    case 2 => Str(c.cellId)
    case 3 => Str(c.providerId)
    case 4 => Str(c.adapterProfileId)
    case 5 => Str(c.endpointVariable)
    case 6 => Str(c.credentialVariable)
    case 7 => Str(c.recipient)
    case 8 => Str(c.datasetId)
    case 9 => Str(c.workloadId)
    case 10 => Str(c.selection)
    case 11 => Str(c.sourceSha256)
    case 12 => Str(c.caseManifestHash)
    case 13 => Str(RoleText(c.producer))
    case 14 => Str(RoleText(c.embedding))
    case 15 => Str(RoleText(c.answer))
    case 16 => Str(RoleText(c.judge))
    case 17 => Arr(RoleHashPairs(c.roleHashes))
    case 18 => Str(c.retrievalBindingId)
    case 19 => Str(c.retrievalBindingHash)
    case 20 => Str(c.authorizationHash)
    case _ => Str(c.executionHash)
  }

  function CellRow(c: Cell): (r: seq<Json>)
    ensures |r| == 22 && forall i :: 0 <= i < |r| ==> r[i] == CellValue(c, i)
  {
    seq(22, i requires 0 <= i < 22 => CellValue(c, i))
  }

  function CellDocument(c: Cell): Json {
    Record(CellKeys(), CellRow(c))
  }

  function CellHash(h: Hash, c: Cell): string {
    Digest(h, Arr([Str("oamb-cell-spec-initial-v1"), Record(CellKeys()[1..], CellRow(c)[1..])]))
  }

  function PlanKey(i: int): string {
    match i
    case 0 => "resolved_plan_hash"
    case 1 => "schema_name"
    case 2 => "schema_version"
    case 3 => "comparison_id"
    case 4 => "dataset"
    case 5 => "embedding_endpoint"
    case 6 => "model_roles"
    case 7 => "retrieval"
    case 8 => "execution"
    case 9 => "decision"
    case _ => "cells"
  }

  function PlanKeys(): (r: seq<string>)
    ensures |r| == 11 && forall i :: 0 <= i < |r| ==> r[i] == PlanKey(i)
  {
    seq(11, i requires 0 <= i < 11 => PlanKey(i))
  }

  /** Column `i` of the plan document, in the order of `PlanKeys`. */
  function PlanValue(p: ResolvedPlan, i: int): Json {
    match i
    case 0 => Str(p.planHash)
    case 1 => Str("resolved_plan")
    case 2 => Int(1)
    case 3 => Str(p.comparisonId)
    case 4 => DatasetDocument(p.dataset)
    case 5 => EndpointDocument(p.endpoint)
    case 6 => Arr(Documents(RoleDocument, p.roles))
    case 7 => RetrievalDocument(p.retrieval)
    case 8 => ExecutionDocument(p.execution)
    case 9 => DecisionDocument(p.decision)
    case _ => Arr(Documents(CellDocument, p.cells))
  }

  function PlanRow(p: ResolvedPlan): (r: seq<Json>)
    ensures |r| == 11 && forall i :: 0 <= i < |r| ==> r[i] == PlanValue(p, i)
  {
    seq(11, i requires 0 <= i < 11 => PlanValue(p, i))
  }

  /** `_plan_hash(_payload(...))` */
  function PlanHash(h: Hash, p: ResolvedPlan): string {
    Digest(h, PlanHashDocument(p))
  }

  function PlanHashDocument(p: ResolvedPlan): Json {
    Arr([Str("oamb-resolved-plan-initial-v1"), Record(PlanKeys()[1..], PlanRow(p)[1..])])
  }

  function PlanDocument(p: ResolvedPlan): Json {
    Record(PlanKeys(), PlanRow(p))
  }

  /** `resolved_plan_bytes` */
  function PlanText(p: ResolvedPlan): string {
    Print(PlanDocument(p))
  }

  // ---- derived execution limits ----

  datatype Controls = Controls(
    maxRetriesPerOperation: int, operationTimeoutSeconds: int, extractionMaxRetries: int,
    modelMaxAttempts: int, modelTransportMaxRetries: int,
    maxParallelProviders: int, maxParallelHistoryIngestions: int, maxParallelQuestions: int)

  /** Question and session counts of the supported selections. */
  function SelectionCounts(selection: string): Option<(nat, nat)> {
    if selection == "lme6" then Some((6, 300))
    else if selection == "lme60" then Some((60, 2826))
    else None
  }

  /** The closed forms of `_resolve_execution`. */
  function Limits(cases: int, sources: int, c: Controls): Execution {
    var baseOperations := 1 + sources + 8 * cases;
    var baseOwners := baseOperations + 2 * sources + cases;
    var modelAdditional := 2 * cases * (c.modelMaxAttempts * (c.modelTransportMaxRetries + 1) - 1);
    var maxOperations := baseOperations + sources * c.maxRetriesPerOperation + modelAdditional;
    var maxOwners := baseOwners + 3 * sources * c.maxRetriesPerOperation + modelAdditional;
    Execution(
      c.maxRetriesPerOperation, c.extractionMaxRetries, c.modelMaxAttempts,
      c.modelTransportMaxRetries, c.operationTimeoutSeconds,
      1, c.maxParallelProviders, c.maxParallelHistoryIngestions, c.maxParallelQuestions,
      baseOperations, sources + 2 * cases, maxOperations, baseOwners, maxOwners,
      maxOperations * 3, maxOwners * 3)
  }

  function ResolveExecution(selection: string, c: Controls): Option<Execution> {
    match SelectionCounts(selection)
    case None => None
    case Some(counts) => Some(Limits(counts.0, counts.1, c))
  }

  // ---- the accepted configuration and the builder ----

  datatype RoleConfiguration = RoleConfiguration(
    model: string, effort: Effort, endpointVariable: string, credentialVariable: string,
    recipient: string, executionOwner: string, proofKind: string, proofReference: string,
    usageCoverage: string)

  datatype BindingConfiguration = BindingConfiguration(
    bindingId: string, providerId: string, route: string, disabledFeature: string,
    disabledValue: string, requestConstraint: string, proofKind: string)

  datatype CellConfiguration = CellConfiguration(
    cellId: string, providerId: string, adapterProfileId: string, endpointVariable: string,
    credentialVariable: string, recipient: string,
    producer: RoleId, embedding: RoleId, answer: RoleId, judge: RoleId, retrievalBinding: string)

  datatype Configuration = Configuration(
    comparisonId: string, dataset: Dataset, managedLocalEndpoint: string,
    cells: seq<CellConfiguration>, roles: seq<RoleConfiguration>,
    topK: int, bindings: seq<BindingConfiguration>, controls: Controls, decision: Option<Decision>)

  /** Python's `str.isspace` on one character, which is what `strip` removes. */
  predicate IsPythonSpace(c: char) {
    var n := c as int;
    || 9 <= n <= 13 || 28 <= n <= 32 || n == 0x85 || n == 0xA0 || n == 0x1680
    || 0x2000 <= n <= 0x200A || n == 0x2028 || n == 0x2029 || n == 0x202F || n == 0x205F || n == 0x3000
  }

  /** `value and value.strip() == value` */
  predicate IsText(s: string) {
    s != "" && !IsPythonSpace(s[0]) && !IsPythonSpace(s[|s| - 1])
  }

  const RETRIEVAL_BINDING_IDS := ["hindsight", "mem0", "openviking"]

  function ExpectedCellIds(selection: string): seq<string> {
    if selection == "lme6" then ["hindsight-lme6", "mem0-lme6", "openviking-lme6"]
    else ["hindsight-lme60", "mem0-lme60", "openviking-lme60"]
  }

  function BuildRole(h: Hash, id: RoleId, c: RoleConfiguration): ModelRole {
    var model := match ModelVariable(id) case Some(variable) => variable case None => c.model;
    var sampled := if id == Embedding then ("not_applicable", "not_applicable") else ("0", "1");
    var r := ModelRole("", id, model, c.effort, EffortScale(c.effort), EffortRank(c.effort),
                       c.endpointVariable, c.credentialVariable, c.recipient, c.executionOwner,
                       c.proofKind, c.proofReference, c.usageCoverage, None, sampled.0, sampled.1);
    r.(bindingHash := RoleHash(h, r))
  }

  function BuildBinding(h: Hash, c: BindingConfiguration): RetrievalBinding {
    var b := RetrievalBinding("", c.bindingId, c.providerId, c.route, c.disabledFeature,
                              c.disabledValue, c.requestConstraint, c.proofKind);
    b.(bindingHash := BindingHash(h, b))
  }

  function RoleById(roles: seq<ModelRole>, id: RoleId): Option<ModelRole> {
    if roles == [] then None
    else if roles[0].roleId == id then Some(roles[0])
    else RoleById(roles[1..], id)
  }

  function BindingById(bindings: seq<RetrievalBinding>, id: string): Option<RetrievalBinding> {
    if bindings == [] then None
    else if bindings[0].bindingId == id then Some(bindings[0])
    else BindingById(bindings[1..], id)
  }

  function HashOfRole(roles: seq<ModelRole>, id: RoleId): string {
    match RoleById(roles, id) case Some(r) => r.bindingHash case None => ""
  }

  function RoleHashes(roles: seq<ModelRole>, ids: seq<RoleId>): seq<(RoleId, string)> {
    seq(|ids|, i requires 0 <= i < |ids| => (ids[i], HashOfRole(roles, ids[i])))
  }

  function BuildCell(h: Hash, ordinal: int, c: CellConfiguration, dataset: Dataset,
                     roles: seq<ModelRole>, bindings: seq<RetrievalBinding>, execution: Execution): Cell
  {
    var bindingHash := match BindingById(bindings, c.retrievalBinding) case Some(b) => b.bindingHash case None => "";
    var cell := Cell("", ordinal, c.cellId, c.providerId, c.adapterProfileId, c.endpointVariable,
                     c.credentialVariable, c.recipient, dataset.datasetId, dataset.workloadId,
                     dataset.selection, dataset.sourceSha256, dataset.caseManifestHash,
                     c.producer, c.embedding, c.answer, c.judge,
                     RoleHashes(roles, [c.producer, c.embedding, c.answer, c.judge]),
                     c.retrievalBinding, bindingHash,
                     AuthorizationHash(h, execution), ExecutionHash(h, execution));
    cell.(specHash := CellHash(h, cell))
  }

  function BuildRoles(h: Hash, roles: seq<RoleConfiguration>): seq<ModelRole>
    requires |roles| == |ROLE_IDS|
  {
    seq(|ROLE_IDS|, i requires 0 <= i < |ROLE_IDS| => BuildRole(h, ROLE_IDS[i], roles[i]))
  }

  function BuildBindings(h: Hash, bindings: seq<BindingConfiguration>): seq<RetrievalBinding> {
    seq(|bindings|, i requires 0 <= i < |bindings| => BuildBinding(h, bindings[i]))
  }

  function BuildCells(h: Hash, cells: seq<CellConfiguration>, dataset: Dataset, roles: seq<ModelRole>,
                      bindings: seq<RetrievalBinding>, execution: Execution): (r: seq<Cell>)
    ensures |r| == |cells|
    ensures forall i :: 0 <= i < |r| ==> r[i] == BuildCell(h, i + 1, cells[i], dataset, roles, bindings, execution)
  {
    seq(|cells|, i requires 0 <= i < |cells| => BuildCell(h, i + 1, cells[i], dataset, roles, bindings, execution))
  }

  function BuildEndpoint(c: Configuration, externalEndpoint: Option<string>): EmbeddingEndpoint {
    match externalEndpoint
    case Some(url) => EmbeddingEndpoint(true, url)
    case None => EmbeddingEndpoint(false, c.managedLocalEndpoint)
  }

  /** `build_resolved_plan` */
  function BuildPlan(h: Hash, c: Configuration, externalEndpoint: Option<string>): Option<ResolvedPlan>
    requires |c.roles| == |ROLE_IDS|
  {
    if externalEndpoint.Some? && !IsText(externalEndpoint.value) then None
    else
      match ResolveExecution(c.dataset.selection, c.controls)
      case None => None
      case Some(execution) =>
        var roles, bindings := BuildRoles(h, c.roles), BuildBindings(h, c.bindings);
        var cells := BuildCells(h, c.cells, c.dataset, roles, bindings, execution);
        var plan := ResolvedPlan("", c.comparisonId, c.dataset, BuildEndpoint(c, externalEndpoint), roles,
                                 Retrieval(c.topK, bindings), execution, c.decision, cells);
        Some(plan.(planHash := PlanHash(h, plan)))
  }
}
