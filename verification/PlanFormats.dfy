/** The JSON of a plan, key by key. */
module PlanFormats {
  import opened Wrappers
  import opened Json
  import opened Records
  import opened Plan

  lemma DatasetColumn(d: Dataset, i: nat)
    requires i < 7
    ensures Has(DatasetDocument(d), DatasetKey(i), DatasetValue(d, i))
  {
    Column(DatasetKeys(), DatasetRow(d), i);
  }

  /** The dataset. */
  lemma DatasetFields(d: Dataset)
    ensures DatasetDocument(d).Obj? && |DatasetDocument(d).fields| == 7
    ensures Has(DatasetDocument(d), "dataset_id", Str(d.datasetId))
    ensures Has(DatasetDocument(d), "workload_id", Str(d.workloadId))
    ensures Has(DatasetDocument(d), "selection", Str(d.selection))
    ensures Has(DatasetDocument(d), "path", Str(d.path))
    ensures Has(DatasetDocument(d), "revision", Str(d.revision))
    ensures Has(DatasetDocument(d), "source_sha256", Str(d.sourceSha256))
    ensures Has(DatasetDocument(d), "case_manifest_hash", Str(d.caseManifestHash))
  {
    DatasetColumn(d, 0);
    DatasetColumn(d, 1);
    DatasetColumn(d, 2);
    DatasetColumn(d, 3);
    DatasetColumn(d, 4);
    DatasetColumn(d, 5);
    DatasetColumn(d, 6);
  }

  /** The embedding endpoint. */
  lemma EndpointFields(e: EmbeddingEndpoint)
    ensures EndpointDocument(e).Obj? && |EndpointDocument(e).fields| == 2
    ensures Has(EndpointDocument(e), "ownership", Str(if e.external then "external" else "embedding_local_fallback"))
    ensures Has(EndpointDocument(e), "effective_endpoint", Str(e.endpoint))
  {
    Column(EndpointKeys(), Texts([Ownership(e.external), e.endpoint]), 0);
    Column(EndpointKeys(), Texts([Ownership(e.external), e.endpoint]), 1);
  }

  lemma RoleColumn(r: ModelRole, i: nat)
    requires i < 16
    ensures Has(RoleDocument(r), RoleKey(i), RoleValue(r, i))
  {
    Column(RoleKeys(), RoleRow(r), i);
  }

  /** A model role. */
  lemma RoleFields(r: ModelRole)
    ensures RoleDocument(r).Obj? && |RoleDocument(r).fields| == 16
    ensures Has(RoleDocument(r), "binding_hash", Str(r.bindingHash))
    ensures Has(RoleDocument(r), "role_id", Str(RoleText(r.roleId)))
    ensures Has(RoleDocument(r), "model", Str(r.model))
    ensures Has(RoleDocument(r), "thinking_effort", Str(EffortText(r.effort)))
    ensures Has(RoleDocument(r), "thinking_effort_scale", Arr(Texts(r.scale)))
    ensures Has(RoleDocument(r), "thinking_effort_rank_1_indexed", OptionalInt(r.rank))
    ensures Has(RoleDocument(r), "endpoint_variable", Str(r.endpointVariable))
    ensures Has(RoleDocument(r), "credential_variable", Str(r.credentialVariable))
    ensures Has(RoleDocument(r), "recipient", Str(r.recipient))
    ensures Has(RoleDocument(r), "execution_owner", Str(r.executionOwner))
    ensures Has(RoleDocument(r), "proof_kind", Str(r.proofKind))
    ensures Has(RoleDocument(r), "proof_reference", Str(r.proofReference))
    ensures Has(RoleDocument(r), "usage_coverage", Str(r.usageCoverage))
    ensures Has(RoleDocument(r), "maximum_output_tokens_per_call", OptionalInt(r.maximumOutputTokens))
    ensures Has(RoleDocument(r), "temperature", Str(r.temperature))
    ensures Has(RoleDocument(r), "top_p", Str(r.topP))
  {
    RoleColumn(r, 0);
    RoleColumn(r, 1);
    RoleColumn(r, 2);
    RoleColumn(r, 3);
    RoleColumn(r, 4);
    RoleColumn(r, 5);
    RoleColumn(r, 6);
    RoleColumn(r, 7);
    RoleColumn(r, 8);
    RoleColumn(r, 9);
    RoleColumn(r, 10);
    RoleColumn(r, 11);
    RoleColumn(r, 12);
    RoleColumn(r, 13);
    RoleColumn(r, 14);
    RoleColumn(r, 15);
  }

  lemma BindingColumn(b: RetrievalBinding, i: nat)
    requires i < 9
    ensures Has(BindingDocument(b), BindingKey(i), BindingValue(b, i))
  {
    Column(BindingKeys(), BindingRow(b), i);
  }

  /** A retrieval binding. */
  lemma BindingFields(b: RetrievalBinding)
    ensures BindingDocument(b).Obj? && |BindingDocument(b).fields| == 9
    ensures Has(BindingDocument(b), "binding_hash", Str(b.bindingHash))
    ensures Has(BindingDocument(b), "binding_id", Str(b.bindingId))
    ensures Has(BindingDocument(b), "provider_id", Str(b.providerId))
    ensures Has(BindingDocument(b), "route", Str(b.route))
    ensures Has(BindingDocument(b), "query_embedding_role", Str("embedding"))
    ensures Has(BindingDocument(b), "disabled_feature", Str(b.disabledFeature))
    ensures Has(BindingDocument(b), "disabled_value", Str(b.disabledValue))
    ensures Has(BindingDocument(b), "request_constraint", Str(b.requestConstraint))
    ensures Has(BindingDocument(b), "proof_kind", Str(b.proofKind))
  {
    BindingColumn(b, 0);
    BindingColumn(b, 1);
    BindingColumn(b, 2);
    BindingColumn(b, 3);
    BindingColumn(b, 4);
    BindingColumn(b, 5);
    BindingColumn(b, 6);
    BindingColumn(b, 7);
    BindingColumn(b, 8);
  }

  lemma RetrievalColumn(r: Retrieval, i: nat)
    requires i < 3
    ensures Has(RetrievalDocument(r), RetrievalKey(i), RetrievalValue(r, i))
  {
    Column(RetrievalKeys(), RetrievalRow(r), i);
  }

  /** The retrieval settings. */
  lemma RetrievalFields(r: Retrieval)
    ensures RetrievalDocument(r).Obj? && |RetrievalDocument(r).fields| == 3
    ensures Has(RetrievalDocument(r), "generation", Str("disabled"))
    ensures Has(RetrievalDocument(r), "top_k", Int(r.topK))
    ensures Has(RetrievalDocument(r), "bindings", Arr(Documents(BindingDocument, r.bindings)))
  {
    RetrievalColumn(r, 0);
    RetrievalColumn(r, 1);
    RetrievalColumn(r, 2);
  }

  lemma ExecutionColumn(e: Execution, i: nat)
    requires i < 18
    ensures Has(ExecutionDocument(e), ExecutionKey(i), ExecutionValue(e, i))
  {
    Column(ExecutionKeys(), ExecutionRow(e), i);
  }

  /** The execution limits. */
  lemma ExecutionFields(e: Execution)
    ensures ExecutionDocument(e).Obj? && |ExecutionDocument(e).fields| == 18
    ensures Has(ExecutionDocument(e), "ingestion_retry_unit", Str("batch_dispatch"))
    ensures Has(ExecutionDocument(e), "ingestion_recovery_strategy", Str("same_scope_batch_retry_skip_v1"))
    ensures Has(ExecutionDocument(e), "max_retries_per_operation", Int(e.maxRetriesPerOperation))
    ensures Has(ExecutionDocument(e), "extraction_max_retries", Int(e.extractionMaxRetries))
    ensures Has(ExecutionDocument(e), "model_max_attempts", Int(e.modelMaxAttempts))
    ensures Has(ExecutionDocument(e), "model_transport_max_retries", Int(e.modelTransportMaxRetries))
    ensures Has(ExecutionDocument(e), "operation_timeout_seconds", Int(e.operationTimeoutSeconds))
    ensures Has(ExecutionDocument(e), "max_parallel_datasets", Int(e.maxParallelDatasets))
    ensures Has(ExecutionDocument(e), "max_parallel_providers_per_dataset", Int(e.maxParallelProviders))
    ensures Has(ExecutionDocument(e), "max_parallel_history_ingestions_per_provider",
                Int(e.maxParallelHistoryIngestions))
    ensures Has(ExecutionDocument(e), "max_parallel_questions_per_provider", Int(e.maxParallelQuestions))
    ensures Has(ExecutionDocument(e), "per_cell_base_operation_count", Int(e.baseOperations))
    ensures Has(ExecutionDocument(e), "per_cell_retry_eligible_operation_count", Int(e.retryEligibleOperations))
    ensures Has(ExecutionDocument(e), "per_cell_max_operation_attempt_count", Int(e.maxOperationAttempts))
    ensures Has(ExecutionDocument(e), "per_cell_base_owner_authorization_count", Int(e.baseOwnerAuthorizations))
    ensures Has(ExecutionDocument(e), "per_cell_max_owner_authorization_count", Int(e.maxOwnerAuthorizations))
    ensures Has(ExecutionDocument(e), "comparison_max_operation_attempt_count", Int(e.comparisonOperationAttempts))
    ensures Has(ExecutionDocument(e), "comparison_max_owner_authorization_count", Int(e.comparisonOwnerAuthorizations))
  {
    ExecutionColumn(e, 0);
    ExecutionColumn(e, 1);
    ExecutionColumn(e, 2);
    ExecutionColumn(e, 3);
    ExecutionColumn(e, 4);
    ExecutionColumn(e, 5);
    ExecutionColumn(e, 6);
    ExecutionColumn(e, 7);
    ExecutionColumn(e, 8);
    ExecutionColumn(e, 9);
    ExecutionColumn(e, 10);
    ExecutionColumn(e, 11);
    ExecutionColumn(e, 12);
    ExecutionColumn(e, 13);
    ExecutionColumn(e, 14);
    ExecutionColumn(e, 15);
    ExecutionColumn(e, 16);
    ExecutionColumn(e, 17);
  }

  lemma CellColumn(c: Cell, i: nat)
    requires i < 22
    ensures Has(CellDocument(c), CellKey(i), CellValue(c, i))
  {
    Column(CellKeys(), CellRow(c), i);
  }

  /** A cell. */
  lemma CellFields(c: Cell)
    ensures CellDocument(c).Obj? && |CellDocument(c).fields| == 22
    ensures Has(CellDocument(c), "cell_spec_hash", Str(c.specHash))
    ensures Has(CellDocument(c), "ordinal_1_indexed", Int(c.ordinal))
    ensures Has(CellDocument(c), "cell_id", Str(c.cellId))
    ensures Has(CellDocument(c), "provider_id", Str(c.providerId))
    ensures Has(CellDocument(c), "adapter_profile_id", Str(c.adapterProfileId))
    ensures Has(CellDocument(c), "endpoint_variable", Str(c.endpointVariable))
    ensures Has(CellDocument(c), "credential_variable", Str(c.credentialVariable))
    ensures Has(CellDocument(c), "recipient", Str(c.recipient))
    ensures Has(CellDocument(c), "dataset_id", Str(c.datasetId))
    ensures Has(CellDocument(c), "workload_id", Str(c.workloadId))
    ensures Has(CellDocument(c), "selection", Str(c.selection))
    ensures Has(CellDocument(c), "source_sha256", Str(c.sourceSha256))
    ensures Has(CellDocument(c), "case_manifest_hash", Str(c.caseManifestHash))
    ensures Has(CellDocument(c), "producer_role_id", Str(RoleText(c.producer)))
    ensures Has(CellDocument(c), "embedding_role_id", Str(RoleText(c.embedding)))
    ensures Has(CellDocument(c), "answer_role_id", Str(RoleText(c.answer)))
    ensures Has(CellDocument(c), "judge_role_id", Str(RoleText(c.judge)))
    ensures Has(CellDocument(c), "model_role_binding_hashes", Arr(RoleHashPairs(c.roleHashes)))
    ensures Has(CellDocument(c), "retrieval_binding_id", Str(c.retrievalBindingId))
    ensures Has(CellDocument(c), "retrieval_binding_hash", Str(c.retrievalBindingHash))
    ensures Has(CellDocument(c), "authorization_hash", Str(c.authorizationHash))
    ensures Has(CellDocument(c), "execution_hash", Str(c.executionHash))
  {
    CellColumn(c, 0);
    CellColumn(c, 1);
    CellColumn(c, 2);
    CellColumn(c, 3);
    CellColumn(c, 4);
    CellColumn(c, 5);
    CellColumn(c, 6);
    CellColumn(c, 7);
    CellColumn(c, 8);
    CellColumn(c, 9);
    CellColumn(c, 10);
    CellColumn(c, 11);
    CellColumn(c, 12);
    CellColumn(c, 13);
    CellColumn(c, 14);
    CellColumn(c, 15);
    CellColumn(c, 16);
    CellColumn(c, 17);
    CellColumn(c, 18);
    CellColumn(c, 19);
    CellColumn(c, 20);
    CellColumn(c, 21);
  }

  /** The plan. */
  lemma PlanColumns(p: ResolvedPlan)
    ensures PlanDocument(p).Obj? && |PlanDocument(p).fields| == 11
    ensures Has(PlanDocument(p), "resolved_plan_hash", Str(p.planHash))
    ensures Has(PlanDocument(p), "schema_name", Str("resolved_plan"))
    ensures Has(PlanDocument(p), "schema_version", Int(1))
    ensures Has(PlanDocument(p), "comparison_id", Str(p.comparisonId))
    ensures Has(PlanDocument(p), "dataset", DatasetDocument(p.dataset))
    ensures Has(PlanDocument(p), "embedding_endpoint", EndpointDocument(p.endpoint))
    ensures Has(PlanDocument(p), "model_roles", Arr(Documents(RoleDocument, p.roles)))
    ensures Has(PlanDocument(p), "retrieval", RetrievalDocument(p.retrieval))
    ensures Has(PlanDocument(p), "execution", ExecutionDocument(p.execution))
    ensures Has(PlanDocument(p), "decision", DecisionDocument(p.decision))
    ensures Has(PlanDocument(p), "cells", Arr(Documents(CellDocument, p.cells)))
  {
    PlanColumn(p, 0);
    PlanColumn(p, 1);
    PlanColumn(p, 2);
    PlanColumn(p, 3);
    PlanColumn(p, 4);
    PlanColumn(p, 5);
    PlanColumn(p, 6);
    PlanColumn(p, 7);
    PlanColumn(p, 8);
    PlanColumn(p, 9);
    PlanColumn(p, 10);
  }

  lemma PlanColumn(p: ResolvedPlan, i: nat)
    requires i < 11
    ensures Has(PlanDocument(p), PlanKey(i), PlanValue(p, i))
  {
    Column(PlanKeys(), PlanRow(p), i);
  }

  /** The authorization covers these ten limits, and neither the concurrency nor the comparison totals. */
  lemma AuthorizationCovers(e: Execution, f: Execution)
    ensures AuthorizationDocument(e) == AuthorizationDocument(f) <==>
              && e.maxRetriesPerOperation == f.maxRetriesPerOperation
              && e.extractionMaxRetries == f.extractionMaxRetries
              && e.modelMaxAttempts == f.modelMaxAttempts
              && e.modelTransportMaxRetries == f.modelTransportMaxRetries
              && e.operationTimeoutSeconds == f.operationTimeoutSeconds
              && e.baseOperations == f.baseOperations
              && e.retryEligibleOperations == f.retryEligibleOperations
              && e.maxOperationAttempts == f.maxOperationAttempts
              && e.baseOwnerAuthorizations == f.baseOwnerAuthorizations
              && e.maxOwnerAuthorizations == f.maxOwnerAuthorizations
  {
    AuthorizationColumns(e);
    AuthorizationColumns(f);
    SameRowSameDocument(e, f);
    SameIffAgree(AuthorizationRow(e), AuthorizationRow(f));
  }

  lemma SameIffAgree(v: seq<Json>, w: seq<Json>)
    requires |v| == |w| == 12
    ensures v == w <==> Agree(v, w)
  {
  }

  predicate Agree(v: seq<Json>, w: seq<Json>) {
    && |v| == |w| == 12
    && v[0] == w[0] && v[1] == w[1] && v[2] == w[2] && v[3] == w[3] && v[4] == w[4] && v[5] == w[5] && v[6] == w[6]
    && v[7] == w[7] && v[8] == w[8] && v[9] == w[9] && v[10] == w[10] && v[11] == w[11]
  }

  lemma AuthorizationColumns(e: Execution)
    ensures var row := AuthorizationRow(e);
            && row[0] == Str("batch_dispatch") && row[1] == Str("same_scope_batch_retry_skip_v1")
            && row[2] == Int(e.maxRetriesPerOperation) && row[3] == Int(e.extractionMaxRetries)
            && row[4] == Int(e.modelMaxAttempts) && row[5] == Int(e.modelTransportMaxRetries)
            && row[6] == Int(e.operationTimeoutSeconds) && row[7] == Int(e.baseOperations)
            && row[8] == Int(e.retryEligibleOperations) && row[9] == Int(e.maxOperationAttempts)
            && row[10] == Int(e.baseOwnerAuthorizations) && row[11] == Int(e.maxOwnerAuthorizations)
  {
  }

  lemma SameRowSameDocument(e: Execution, f: Execution)
    ensures AuthorizationDocument(e) == AuthorizationDocument(f) <==> AuthorizationRow(e) == AuthorizationRow(f)
  {
    var keys, v, w := ExecutionKeys()[..7] + ExecutionKeys()[11..16], AuthorizationRow(e), AuthorizationRow(f);
    if Zip(keys, v) == Zip(keys, w) {
      forall i | 0 <= i < 12
        ensures v[i] == w[i]
      {
        assert Zip(keys, v)[i] == Zip(keys, w)[i];
      }
    }
  }
}
