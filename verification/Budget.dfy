/** The live run budget and its totals. */
module Budgets {
  import opened Wrappers
  import opened Lists
  import opened Plan

  // ---- what the budget is made of ----

  /** The four role identifiers of a cell; the plan loader lets each be any role. */
  datatype CellRoles = CellRoles(producer: RoleId, embedding: RoleId, answer: RoleId, judge: RoleId)

  /** The keys of `binding_by_role_id`. */
  function BoundRoles(c: CellRoles): seq<RoleId> {
    FirstSeen([c.producer, c.embedding, c.answer, c.judge])
  }

  /** The keys of the dictionaries that `_budget` writes down. */
  function TableKeys(producer: RoleId): seq<RoleId> {
    FirstSeen([producer, Embedding, Answer, Judge])
  }

  lemma OneOfFour(r: RoleId, a: RoleId, b: RoleId, c: RoleId, d: RoleId)
    ensures r in FirstSeen([a, b, c, d]) <==> r == a || r == b || r == c || r == d
  {
  }

  /** The binding identifier of each role. */
  type BindingIds = RoleId -> string

  datatype Stage =
    | RuntimeResolve | ScopeAllocate | MemoryIngest | MemoryReadiness
    | MemoryProjection | PreQueryProjection | MemoryQuery | PostQueryProjection

  function StageAt(i: int): Stage {
    match i
    case 0 => RuntimeResolve
    case 1 => ScopeAllocate
    case 2 => MemoryIngest
    case 3 => MemoryReadiness
    case 4 => MemoryProjection
    case 5 => PreQueryProjection
    case 6 => MemoryQuery
    case _ => PostQueryProjection
  }

  /** `_MEMORY_STAGES` */
  function Stages(): (r: seq<Stage>)
    ensures |r| == 8 && forall i :: 0 <= i < 8 ==> r[i] == StageAt(i)
  {
    seq(8, i requires 0 <= i < 8 => StageAt(i))
  }

  function StageText(s: Stage): string {
    match s
    case RuntimeResolve => "runtime_resolve"
    case ScopeAllocate => "scope_allocate"
    case MemoryIngest => "memory_ingest"
    case MemoryReadiness => "memory_readiness"
    case MemoryProjection => "memory_projection"
    case PreQueryProjection => "pre_query_projection"
    case MemoryQuery => "memory_query"
    case PostQueryProjection => "post_query_projection"
  }

  datatype RoleCeiling = RoleCeiling(bindingId: string, maxAttempts: int, maxOutputTokens: int, maxWallSeconds: int)

  datatype OperationCeiling = OperationCeiling(
    id: string, adapter: string, kind: string, billingUnit: string, maxAttempts: int, maxWallSeconds: int)

  datatype Route =
    | ModelRoute(id: string, stage: string, roleId: string, internal: seq<string>)
    | OperationRoute(id: string, stage: string, operationId: string, adapter: string, kind: string,
                     billingUnit: string, internal: seq<string>)

  datatype Budget = Budget(
    maxAttempts: int, maxOutputTokens: int, maxWallSeconds: int,
    roles: seq<RoleCeiling>, operations: seq<OperationCeiling>, routes: seq<Route>,
    stopConditions: seq<string>)

  // ---- the amounts ----

  datatype Load = Load(cases: int, sources: int, ingestAttempts: int, modelAttempts: int, timeout: int)

  const ANSWER_OUTPUT_TOKENS := 8_192
  const JUDGE_OUTPUT_TOKENS := 1024

  /** The attempts a role is allowed. */
  function RoleAttempts(l: Load, r: RoleId): int {
    match r
    case Embedding => l.sources * l.ingestAttempts + l.cases
    case Answer => l.cases * l.modelAttempts
    case Judge => l.cases * l.modelAttempts
    case _ => l.sources * l.ingestAttempts
  }

  function OutputTokensPerAttempt(r: RoleId): int {
    match r
    case Answer => ANSWER_OUTPUT_TOKENS
    case Judge => JUDGE_OUTPUT_TOKENS
    case _ => 0
  }

  /** The dictionary `role_attempts`: a later entry replaces an earlier one with the same key. */
  function AttemptTable(l: Load, producer: RoleId): map<RoleId, int> {
    map[producer := l.sources * l.ingestAttempts]
      [Embedding := l.sources * l.ingestAttempts + l.cases]
      [Answer := l.cases * l.modelAttempts]
      [Judge := l.cases * l.modelAttempts]
  }

  /** The dictionary `output_tokens_per_attempt`. */
  function TokenTable(producer: RoleId): map<RoleId, int> {
    map[producer := 0][Embedding := 0][Answer := ANSWER_OUTPUT_TOKENS][Judge := JUDGE_OUTPUT_TOKENS]
  }

  /** Whatever the producer is, the dictionaries give every role in them its own amount. */
  lemma TablesTabulate(l: Load, producer: RoleId)
    ensures forall r :: r in AttemptTable(l, producer) <==> r in TableKeys(producer)
    ensures forall r :: r in TokenTable(producer) <==> r in TableKeys(producer)
    ensures forall r :: r in TableKeys(producer) ==> AttemptTable(l, producer)[r] == RoleAttempts(l, r)
    ensures forall r :: r in TableKeys(producer) ==> TokenTable(producer)[r] == OutputTokensPerAttempt(r)
  {
    forall r
      ensures r in AttemptTable(l, producer) <==> r in TableKeys(producer)
      ensures r in TokenTable(producer) <==> r in TableKeys(producer)
      ensures r in TableKeys(producer) ==> AttemptTable(l, producer)[r] == RoleAttempts(l, r)
      ensures r in TableKeys(producer) ==> TokenTable(producer)[r] == OutputTokensPerAttempt(r)
    {
      OneOfFour(r, producer, Embedding, Answer, Judge);
    }
  }

  predicate OwnsWall(r: RoleId) { r == Answer || r == Judge }

  function StageAttempts(l: Load, s: Stage): int {
    match s
    case RuntimeResolve => 1
    case MemoryIngest => l.sources * l.ingestAttempts
    case _ => l.cases
  }

  function LoadOf(e: Execution, cases: int, sources: int): Load {
    Load(cases, sources, e.maxRetriesPerOperation + 1,
         e.modelMaxAttempts * (e.modelTransportMaxRetries + 1), e.operationTimeoutSeconds)
  }

  function RoleCeilingFor(l: Load, ids: BindingIds, r: RoleId): RoleCeiling {
    RoleCeiling(ids(r), RoleAttempts(l, r), OutputTokensPerAttempt(r) * RoleAttempts(l, r),
                if OwnsWall(r) then RoleAttempts(l, r) * l.timeout else 0)
  }

  function OperationId(adapter: string, s: Stage): string {
    adapter + ":" + StageText(s)
  }

  function OperationCeilingFor(l: Load, adapter: string, s: Stage): OperationCeiling {
    OperationCeiling(OperationId(adapter, s), adapter, StageText(s), "request",
                     StageAttempts(l, s), StageAttempts(l, s) * l.timeout)
  }

  function InternalRoles(ids: BindingIds, producer: RoleId, s: Stage): seq<string> {
    if s == MemoryIngest then [ids(producer), ids(Embedding)]
    else if s == MemoryQuery then [ids(Embedding)]
    else []
  }

  function StageRoute(adapter: string, ids: BindingIds, producer: RoleId, s: Stage): Route {
    OperationRoute(StageText(s), StageText(s), OperationId(adapter, s), adapter, StageText(s), "request",
                   InternalRoles(ids, producer, s))
  }

  function ModelStageRoute(ids: BindingIds, r: RoleId): Route {
    ModelRoute(RoleText(r), RoleText(r), ids(r), [])
  }

  // ---- totals ----

  function AttemptsOf(r: RoleCeiling): int { r.maxAttempts }

  function TokensOf(r: RoleCeiling): int { r.maxOutputTokens }

  function WallOf(r: RoleCeiling): int { r.maxWallSeconds }

  function OperationAttemptsOf(o: OperationCeiling): int { o.maxAttempts }

  function OperationWallOf(o: OperationCeiling): int { o.maxWallSeconds }

  /** Attempts, output tokens and wall seconds are the sums over the owner ceilings. */
  ghost predicate Totals(b: Budget) {
    && b.maxAttempts == Sum(AttemptsOf, b.roles) + Sum(OperationAttemptsOf, b.operations)
    && b.maxOutputTokens == Sum(TokensOf, b.roles)
    && b.maxWallSeconds == Sum(WallOf, b.roles) + Sum(OperationWallOf, b.operations)
  }

  const STOP_CONDITIONS := ["operation_authorization_exhausted", "identity_drift", "unknown_outcome"]

  datatype BudgetError = UnsupportedWorkload | UnknownRole | AuthorizationDiffers

  /** `_workload_counts`; unlike the plan it also knows the 30-question selection. */
  function WorkloadCounts(selection: string): Option<(nat, nat)> {
    if selection == "lme6" then Some((6, 300))
    else if selection == "lme30" then Some((30, 1418))
    else if selection == "lme60" then Some((60, 2826))
    else None
  }

  /** The budget knows the selections of the plan with the same counts, and the 30-question one
      besides. */
  lemma OnlyTheBudgetKnowsThirty(selection: string)
    ensures SelectionCounts(selection).Some? ==> WorkloadCounts(selection) == SelectionCounts(selection)
    ensures WorkloadCounts(selection).Some? && SelectionCounts(selection).None? <==> selection == "lme30"
  {
    assert "lme30"[3] != "lme6"[3] && "lme30"[3] != "lme60"[3];
  }

  /** The roles whose attempts the dictionaries count under the producer's own key. */
  predicate Extracts(r: RoleId) {
    r != Embedding && r != Answer && r != Judge
  }

  function StageTotal(l: Load): int {
    1 + l.sources * l.ingestAttempts + 6 * l.cases
  }

  /** The two numbers the budget compares with the plan. */
  function OperationTotal(l: Load): int {
    StageTotal(l) + 2 * (l.cases * l.modelAttempts)
  }

  function OwnerTotal(l: Load, producer: RoleId): int {
    StageTotal(l) + (if Extracts(producer) then l.sources * l.ingestAttempts else 0)
    + (l.sources * l.ingestAttempts + l.cases) + 2 * (l.cases * l.modelAttempts)
  }

  /** The same totals in closed form. */
  predicate Amounts(b: Budget, l: Load, producer: RoleId) {
    && b.maxAttempts == OwnerTotal(l, producer)
    && b.maxOutputTokens == 9216 * (l.cases * l.modelAttempts)
    && b.maxWallSeconds == OperationTotal(l) * l.timeout
  }

  lemma Product(a: int, b: int)
    ensures a * (b + 1) == a * b + a
  {
  }

  /** For all counts, retry limits and timeouts the plan's closed forms are the budget's sums, except
      that a producer that is itself the embedding, answer or judge role loses its own attempts. */
  lemma LimitsAreTheSums(cases: int, sources: int, c: Controls, producer: RoleId)
    ensures var e := Limits(cases, sources, c);
            var l := LoadOf(e, cases, sources);
            && OperationTotal(l) == e.maxOperationAttempts
            && (OwnerTotal(l, producer) == e.maxOwnerAuthorizations <==>
                  Extracts(producer) || l.sources * l.ingestAttempts == 0)
  {
    var attempts := c.modelMaxAttempts * (c.modelTransportMaxRetries + 1);
    Product(sources, c.maxRetriesPerOperation);
    assert cases * attempts == cases * (attempts - 1) + cases;
    assert 2 * cases * (attempts - 1) == 2 * (cases * (attempts - 1));
    assert 3 * sources * c.maxRetriesPerOperation == 3 * (sources * c.maxRetriesPerOperation);
  }

  // ---- building ----

  ghost predicate RolesAre(roles: seq<RoleCeiling>, l: Load, ids: BindingIds, keys: seq<RoleId>) {
    |roles| == |keys| && forall i :: 0 <= i < |roles| ==> roles[i] == RoleCeilingFor(l, ids, keys[i])
  }

  ghost predicate OperationsAre(operations: seq<OperationCeiling>, l: Load, adapter: string) {
    |operations| == 8 && forall i :: 0 <= i < 8 ==> operations[i] == OperationCeilingFor(l, adapter, StageAt(i))
  }

  ghost predicate RoutesAre(routes: seq<Route>, adapter: string, ids: BindingIds, producer: RoleId) {
    && |routes| == 10 && (forall i :: 0 <= i < 8 ==> routes[i] == StageRoute(adapter, ids, producer, StageAt(i)))
    && routes[8] == ModelStageRoute(ids, Answer) && routes[9] == ModelStageRoute(ids, Judge)
  }

  /** The ceilings and routes of a budget, owner by owner. */
  ghost predicate OwnersAre(b: Budget, l: Load, adapter: string, ids: BindingIds, c: CellRoles) {
    && RolesAre(b.roles, l, ids, BoundRoles(c)) && OperationsAre(b.operations, l, adapter)
    && RoutesAre(b.routes, adapter, ids, c.producer) && b.stopConditions == STOP_CONDITIONS
  }

  /** The roles of the cell are exactly the keys of the dictionaries. */
  predicate RolesFit(c: CellRoles) {
    {c.producer, c.embedding, c.answer, c.judge} == {c.producer, Embedding, Answer, Judge}
  }

  /** Every lookup by role succeeds exactly for such cells. */
  lemma LookupsSucceedIff(c: CellRoles)
    ensures RolesFit(c) <==>
              && (forall r :: r in BoundRoles(c) ==> r in TableKeys(c.producer))
              && Embedding in BoundRoles(c) && Answer in BoundRoles(c) && Judge in BoundRoles(c)
  {
    var cell, table := {c.producer, c.embedding, c.answer, c.judge}, {c.producer, Embedding, Answer, Judge};
    KeysAre(c);
    if RolesFit(c) {
      assert Embedding in table && Answer in table && Judge in table;
    } else if Embedding in BoundRoles(c) && Answer in BoundRoles(c) && Judge in BoundRoles(c) {
      assert table <= cell;
      var r :| r in cell && r !in table;
      assert r in BoundRoles(c) && r !in TableKeys(c.producer);
    }
  }

  lemma KeysAre(c: CellRoles)
    ensures forall r :: r in BoundRoles(c) <==> r in {c.producer, c.embedding, c.answer, c.judge}
    ensures forall r :: r in TableKeys(c.producer) <==> r in {c.producer, Embedding, Answer, Judge}
  {
    forall r
      ensures r in BoundRoles(c) <==> r in {c.producer, c.embedding, c.answer, c.judge}
      ensures r in TableKeys(c.producer) <==> r in {c.producer, Embedding, Answer, Judge}
    {
      OneOfFour(r, c.producer, c.embedding, c.answer, c.judge);
      OneOfFour(r, c.producer, Embedding, Answer, Judge);
    }
  }

  method RoleCeilings(l: Load, attempts: map<RoleId, int>, tokens: map<RoleId, int>, ids: BindingIds, keys: seq<RoleId>)
    returns (r: Option<seq<RoleCeiling>>)
    requires attempts.Keys == tokens.Keys
    requires forall x :: x in attempts ==> attempts[x] == RoleAttempts(l, x) && tokens[x] == OutputTokensPerAttempt(x)
    ensures r.Some? <==> forall x :: x in keys ==> x in attempts
    ensures r.Some? ==> RolesAre(r.value, l, ids, keys)
  {
    var roles: seq<RoleCeiling> := [];
    for i := 0 to |keys|
      invariant |roles| == i && forall k :: 0 <= k < i ==> keys[k] in attempts
      invariant forall k :: 0 <= k < i ==> roles[k] == RoleCeilingFor(l, ids, keys[k])
    {
      var x := keys[i];
      if x !in attempts { return None; }
      var maxAttempts := attempts[x];
      var maxWall := if OwnsWall(x) then maxAttempts * l.timeout else 0;
      roles := roles + [RoleCeiling(ids(x), maxAttempts, tokens[x] * maxAttempts, maxWall)];
    }
    return Some(roles);
  }

  method OperationCeilings(l: Load, adapter: string, ids: BindingIds, producer: RoleId)
    returns (operations: seq<OperationCeiling>, routes: seq<Route>)
    ensures OperationsAre(operations, l, adapter) && RoutesAre(routes, adapter, ids, producer)
  {
    operations, routes := [], [];
    for i := 0 to 8
      invariant |operations| == |routes| == i
      invariant forall k :: 0 <= k < i ==> operations[k] == OperationCeilingFor(l, adapter, StageAt(k))
      invariant forall k :: 0 <= k < i ==> routes[k] == StageRoute(adapter, ids, producer, StageAt(k))
    {
      var s := StageAt(i);
      var maxAttempts := StageAttempts(l, s);
      var kind := StageText(s);
      operations := operations + [OperationCeiling(OperationId(adapter, s), adapter, kind, "request",
                                                   maxAttempts, maxAttempts * l.timeout)];
      routes := routes + [OperationRoute(kind, kind, OperationId(adapter, s), adapter, kind, "request",
                                         InternalRoles(ids, producer, s))];
    }
    routes := routes + [ModelStageRoute(ids, Answer)];
    routes := routes + [ModelStageRoute(ids, Judge)];
  }

  function AttemptsBy(l: Load): RoleId -> int { r => RoleAttempts(l, r) }

  function TokensBy(l: Load): RoleId -> int { r => OutputTokensPerAttempt(r) * RoleAttempts(l, r) }

  function WallBy(l: Load): RoleId -> int { r => if OwnsWall(r) then RoleAttempts(l, r) * l.timeout else 0 }

  function StageAttemptsBy(l: Load): Stage -> int { s => StageAttempts(l, s) }

  function StageWallBy(l: Load): Stage -> int { s => StageAttempts(l, s) * l.timeout }

  /** The sums over the values of the three dictionaries. */
  method SumTables(l: Load, producer: RoleId, attempts: map<RoleId, int>, tokens: map<RoleId, int>)
    returns (operationSum: int, roleSum: int, tokenSum: int)
    requires forall r :: r in TableKeys(producer) ==>
               && r in attempts && attempts[r] == RoleAttempts(l, r)
               && r in tokens && tokens[r] == OutputTokensPerAttempt(r)
    ensures operationSum == Sum(StageAttemptsBy(l), Stages())
    ensures roleSum == Sum(AttemptsBy(l), TableKeys(producer)) && tokenSum == Sum(TokensBy(l), TableKeys(producer))
  {
    operationSum, roleSum, tokenSum := 0, 0, 0;
    var stages, keys := Stages(), TableKeys(producer);
    for i := 0 to |stages|
      invariant operationSum == Sum(StageAttemptsBy(l), stages[..i])
    {
      assert stages[..i] + [stages[i]] == stages[..i + 1];
      operationSum := operationSum + StageAttempts(l, stages[i]);
    }
    for i := 0 to |keys|
      invariant roleSum == Sum(AttemptsBy(l), keys[..i]) && tokenSum == Sum(TokensBy(l), keys[..i])
    {
      assert keys[i] in keys && keys[..i + 1][..i] == keys[..i];
      roleSum := roleSum + attempts[keys[i]];
      tokenSum := tokenSum + tokens[keys[i]] * attempts[keys[i]];
    }
    assert stages[..|stages|] == stages && keys[..|keys|] == keys;
  }

  /** `_budget` */
  method BuildBudget(e: Execution, selection: string, adapter: string, ids: BindingIds, c: CellRoles)
    returns (r: Result<Budget, BudgetError>)
    ensures WorkloadCounts(selection).None? ==> r == Err(UnsupportedWorkload)
    ensures WorkloadCounts(selection).Some? ==>
              var l := LoadOf(e, WorkloadCounts(selection).value.0, WorkloadCounts(selection).value.1);
              && (r == Err(UnknownRole) <==> !RolesFit(c))
              && (r.Ok? <==> RolesFit(c) && TotalsMatch(e, l, c.producer))
              && (r.Ok? ==> OwnersAre(r.value, l, adapter, ids, c) && Totals(r.value))
              && (r.Ok? ==> Amounts(r.value, l, c.producer))
  {
    var counts := WorkloadCounts(selection);
    if counts.None? { return Err(UnsupportedWorkload); }
    var l := LoadOf(e, counts.value.0, counts.value.1);
    r := BuildFor(e, l, adapter, ids, c);
  }

  predicate TotalsMatch(e: Execution, l: Load, producer: RoleId) {
    OperationTotal(l) == e.maxOperationAttempts && OwnerTotal(l, producer) == e.maxOwnerAuthorizations
  }

  /** The owners of a budget, from lookups that may fail. */
  method BuildOwners(l: Load, adapter: string, ids: BindingIds, c: CellRoles)
    returns (r: Option<(seq<RoleCeiling>, seq<OperationCeiling>, seq<Route>)>)
    ensures r.Some? <==> RolesFit(c)
    ensures r.Some? ==> && RolesAre(r.value.0, l, ids, BoundRoles(c)) && OperationsAre(r.value.1, l, adapter)
                        && RoutesAre(r.value.2, adapter, ids, c.producer)
  {
    LookupsSucceedIff(c);
    TablesTabulate(l, c.producer);
    var keys := BoundRoles(c);
    var roles := RoleCeilings(l, AttemptTable(l, c.producer), TokenTable(c.producer), ids, keys);
    if roles.None? || Embedding !in keys { return None; }
    var operations, routes := OperationCeilings(l, adapter, ids, c.producer);
    if Answer !in keys || Judge !in keys { return None; }
    return Some((roles.value, operations, routes));
  }

  method BuildFor(e: Execution, l: Load, adapter: string, ids: BindingIds, c: CellRoles)
    returns (r: Result<Budget, BudgetError>)
    ensures r == Err(UnknownRole) <==> !RolesFit(c)
    ensures r.Ok? <==> RolesFit(c) && TotalsMatch(e, l, c.producer)
    ensures r.Ok? ==> OwnersAre(r.value, l, adapter, ids, c) && Totals(r.value) && Amounts(r.value, l, c.producer)
  {
    var owners := BuildOwners(l, adapter, ids, c);
    if owners.None? { return Err(UnknownRole); }
    var (roles, operations, routes) := owners.value;
    var attempts, tokens := AttemptTable(l, c.producer), TokenTable(c.producer);
    TablesTabulate(l, c.producer);
    var operationSum, roleSum, tokenSum := SumTables(l, c.producer, attempts, tokens);
    var maxOperationAttempts := operationSum + attempts[Answer] + attempts[Judge];
    TableSums(l, c.producer);
    if maxOperationAttempts != e.maxOperationAttempts || operationSum + roleSum != e.maxOwnerAuthorizations {
      return Err(AuthorizationDiffers);
    }
    var b := Budget(operationSum + roleSum, tokenSum, maxOperationAttempts * l.timeout,
                    roles, operations, routes, STOP_CONDITIONS);
    OwnerSums(b, l, adapter, ids, c);
    return Ok(b);
  }

  // ---- the owners in figures ----

  /** A stage's ceiling: its attempts and as many timeouts. */
  predicate Caps(o: OperationCeiling, adapter: string, stage: string, attempts: int, timeout: int) {
    o == OperationCeiling(adapter + ":" + stage, adapter, stage, "request", attempts, attempts * timeout)
  }

  /** A stage's route: its ceiling and the roles that work inside it. */
  predicate Routes(r: Route, adapter: string, stage: string, internal: seq<string>) {
    r == OperationRoute(stage, stage, adapter + ":" + stage, adapter, stage, "request", internal)
  }

  /** The eight stage ceilings of a built budget, in order. */
  lemma StagesInFigures(b: Budget, e: Execution, cases: int, sources: int, adapter: string, ids: BindingIds,
                        c: CellRoles)
    requires OwnersAre(b, LoadOf(e, cases, sources), adapter, ids, c)
    ensures var ingests, timeout := sources * (e.maxRetriesPerOperation + 1), e.operationTimeoutSeconds;
            && |b.operations| == 8
            && Caps(b.operations[0], adapter, "runtime_resolve", 1, timeout)
            && Caps(b.operations[1], adapter, "scope_allocate", cases, timeout)
            && Caps(b.operations[2], adapter, "memory_ingest", ingests, timeout)
            && Caps(b.operations[3], adapter, "memory_readiness", cases, timeout)
            && Caps(b.operations[4], adapter, "memory_projection", cases, timeout)
            && Caps(b.operations[5], adapter, "pre_query_projection", cases, timeout)
            && Caps(b.operations[6], adapter, "memory_query", cases, timeout)
            && Caps(b.operations[7], adapter, "post_query_projection", cases, timeout)
  {
    assert forall i :: 0 <= i < 8 ==>
      b.operations[i] == OperationCeilingFor(LoadOf(e, cases, sources), adapter, StageAt(i));
  }

  /** The ten routes of a built budget, in order, with the roles whose usage counts inside a stage. */
  lemma RoutesInFigures(b: Budget, l: Load, adapter: string, ids: BindingIds, c: CellRoles)
    requires OwnersAre(b, l, adapter, ids, c)
    ensures |b.routes| == 10
    ensures Routes(b.routes[0], adapter, "runtime_resolve", [])
    ensures Routes(b.routes[1], adapter, "scope_allocate", [])
    ensures Routes(b.routes[2], adapter, "memory_ingest", [ids(c.producer), ids(Embedding)])
    ensures Routes(b.routes[3], adapter, "memory_readiness", [])
    ensures Routes(b.routes[4], adapter, "memory_projection", [])
    ensures Routes(b.routes[5], adapter, "pre_query_projection", [])
    ensures Routes(b.routes[6], adapter, "memory_query", [ids(Embedding)])
    ensures Routes(b.routes[7], adapter, "post_query_projection", [])
    ensures b.routes[8] == ModelRoute("answer", "answer", ids(Answer), [])
    ensures b.routes[9] == ModelRoute("judge", "judge", ids(Judge), [])
  {
    forall i | 0 <= i < 8
      ensures Routes(b.routes[i], adapter, StageText(StageAt(i)), InternalRoles(ids, c.producer, StageAt(i)))
    {
      RouteAt(b.routes, adapter, ids, c.producer, i);
    }
  }

  lemma RouteAt(routes: seq<Route>, adapter: string, ids: BindingIds, producer: RoleId, i: nat)
    requires RoutesAre(routes, adapter, ids, producer) && i < 8
    ensures Routes(routes[i], adapter, StageText(StageAt(i)), InternalRoles(ids, producer, StageAt(i)))
  {
  }

  /** The ceiling of one role: attempts, output tokens and wall seconds. */
  ghost predicate RoleInFigures(r: RoleCeiling, role: RoleId, e: Execution, cases: int, sources: int, ids: BindingIds) {
    var ingests, completions := sources * (e.maxRetriesPerOperation + 1),
                                cases * (e.modelMaxAttempts * (e.modelTransportMaxRetries + 1));
    match role
    case Answer =>
      r == RoleCeiling(ids(role), completions, 8192 * completions, completions * e.operationTimeoutSeconds)
    case Judge =>
      r == RoleCeiling(ids(role), completions, 1024 * completions, completions * e.operationTimeoutSeconds)
    case Embedding => r == RoleCeiling(ids(role), ingests + cases, 0, 0)
    case _ => r == RoleCeiling(ids(role), ingests, 0, 0)
  }

  /** One ceiling for each role of the cell, once each, in the order producer, embedding, answer, judge. */
  lemma RolesInFigures(b: Budget, e: Execution, cases: int, sources: int, adapter: string, ids: BindingIds,
                       c: CellRoles)
    requires OwnersAre(b, LoadOf(e, cases, sources), adapter, ids, c)
    ensures |b.roles| == |BoundRoles(c)|
    ensures forall i :: 0 <= i < |b.roles| ==> RoleInFigures(b.roles[i], BoundRoles(c)[i], e, cases, sources, ids)
    ensures Distinct([c.producer, c.embedding, c.answer, c.judge]) ==>
              BoundRoles(c) == [c.producer, c.embedding, c.answer, c.judge]
  {
    forall i | 0 <= i < |b.roles|
      ensures RoleInFigures(b.roles[i], BoundRoles(c)[i], e, cases, sources, ids)
    {
      OneRoleInFigures(LoadOf(e, cases, sources), e, cases, sources, ids, BoundRoles(c)[i]);
    }
    if Distinct([c.producer, c.embedding, c.answer, c.judge]) {
      FirstSeenOfDistinct([c.producer, c.embedding, c.answer, c.judge]);
    }
  }

  lemma OneRoleInFigures(l: Load, e: Execution, cases: int, sources: int, ids: BindingIds, role: RoleId)
    requires l == LoadOf(e, cases, sources)
    ensures RoleInFigures(RoleCeilingFor(l, ids, role), role, e, cases, sources, ids)
  {
  }

  // ---- the sums ----

  /** The sum over the dictionary's keys, whatever the producer. */
  lemma {:induction false} SumOfTable(amount: RoleId -> int, producer: RoleId)
    ensures Sum(amount, TableKeys(producer)) ==
            (if Extracts(producer) then amount(producer) else 0) + amount(Embedding) + amount(Answer) + amount(Judge)
  {
    var first: seq<RoleId> := if Extracts(producer) then [producer] else [];
    var all := first + [Embedding] + [Answer] + [Judge];
    assert forall r :: r in all <==> r in [producer, Embedding, Answer, Judge];
    SumOfMembers(amount, TableKeys(producer), all);
    SumStep(amount, first + [Embedding] + [Answer], Judge);
    SumStep(amount, first + [Embedding], Answer);
    SumStep(amount, first, Embedding);
    if Extracts(producer) {
      SumStep(amount, [], producer);
      assert [] + [producer] == first;
    }
  }

  lemma {:induction false} SumOfStages(amount: Stage -> int)
    ensures Sum(amount, Stages()) == amount(RuntimeResolve) + amount(ScopeAllocate) + amount(MemoryIngest)
            + amount(MemoryReadiness) + amount(MemoryProjection) + amount(PreQueryProjection)
            + amount(MemoryQuery) + amount(PostQueryProjection)
  {
    var half := [] + [RuntimeResolve] + [ScopeAllocate] + [MemoryIngest] + [MemoryReadiness];
    assert Stages()[..4] == half;
    var rest := [] + [MemoryProjection] + [PreQueryProjection] + [MemoryQuery] + [PostQueryProjection];
    assert Stages()[4..] == rest;
    SumSplit(amount, Stages(), 4);
    SumOfFour(amount, RuntimeResolve, ScopeAllocate, MemoryIngest, MemoryReadiness);
    SumOfFour(amount, MemoryProjection, PreQueryProjection, MemoryQuery, PostQueryProjection);
  }

  lemma {:induction false} SumOfFour<T>(amount: T -> int, a: T, b: T, c: T, d: T)
    ensures Sum(amount, [] + [a] + [b] + [c] + [d]) == amount(a) + amount(b) + amount(c) + amount(d)
  {
    SumStep(amount, [] + [a] + [b] + [c], d);
    SumStep(amount, [] + [a] + [b], c);
    SumStep(amount, [] + [a], b);
    SumStep(amount, [], a);
  }

  /** The sums over the dictionaries, in closed form. */
  lemma {:induction false} TableSums(l: Load, producer: RoleId)
    ensures Sum(StageAttemptsBy(l), Stages()) == StageTotal(l)
    ensures Sum(StageAttemptsBy(l), Stages()) + Sum(AttemptsBy(l), TableKeys(producer)) == OwnerTotal(l, producer)
    ensures Sum(TokensBy(l), TableKeys(producer)) == 9216 * (l.cases * l.modelAttempts)
  {
    StageSums(l);
    AttemptSums(l, producer);
    TokenSums(l, producer);
  }

  lemma {:induction false} StageSums(l: Load)
    ensures Sum(StageAttemptsBy(l), Stages()) == StageTotal(l)
  {
    SumOfStages(StageAttemptsBy(l));
  }

  lemma {:induction false} AttemptSums(l: Load, producer: RoleId)
    ensures StageTotal(l) + Sum(AttemptsBy(l), TableKeys(producer)) == OwnerTotal(l, producer)
  {
    SumOfTable(AttemptsBy(l), producer);
    AttemptFigures(l, producer);
  }

  lemma AttemptFigures(l: Load, producer: RoleId)
    ensures RoleAttempts(l, Embedding) == l.sources * l.ingestAttempts + l.cases
    ensures RoleAttempts(l, Answer) == RoleAttempts(l, Judge) == l.cases * l.modelAttempts
    ensures Extracts(producer) ==> RoleAttempts(l, producer) == l.sources * l.ingestAttempts
  {
  }

  lemma {:induction false} TokenSums(l: Load, producer: RoleId)
    ensures Sum(TokensBy(l), TableKeys(producer)) == 9216 * (l.cases * l.modelAttempts)
  {
    SumOfTable(TokensBy(l), producer);
  }

  /** The totals taken from the dictionaries are the sums over the ceilings that were built beside them. */
  lemma {:induction false} OwnerSums(b: Budget, l: Load, adapter: string, ids: BindingIds, c: CellRoles)
    requires RolesFit(c) && OwnersAre(b, l, adapter, ids, c)
    ensures Sum(AttemptsOf, b.roles) == Sum(AttemptsBy(l), TableKeys(c.producer))
    ensures Sum(TokensOf, b.roles) == Sum(TokensBy(l), TableKeys(c.producer))
    ensures Sum(OperationAttemptsOf, b.operations) == Sum(StageAttemptsBy(l), Stages())
    ensures Sum(WallOf, b.roles) + Sum(OperationWallOf, b.operations) == OperationTotal(l) * l.timeout
  {
    var keys := BoundRoles(c);
    CellIsTable(c);
    SumAgrees(AttemptsOf, b.roles, AttemptsBy(l), keys);
    SumAgrees(TokensOf, b.roles, TokensBy(l), keys);
    SumAgrees(WallOf, b.roles, WallBy(l), keys);
    SumAgrees(OperationAttemptsOf, b.operations, StageAttemptsBy(l), Stages());
    SumAgrees(OperationWallOf, b.operations, StageWallBy(l), Stages());
    SumOfMembers(AttemptsBy(l), keys, TableKeys(c.producer));
    SumOfMembers(TokensBy(l), keys, TableKeys(c.producer));
    SumOfMembers(WallBy(l), keys, TableKeys(c.producer));
    WallSums(l, c.producer);
  }

  lemma CellIsTable(c: CellRoles)
    requires RolesFit(c)
    ensures forall r :: r in BoundRoles(c) <==> r in TableKeys(c.producer)
  {
    KeysAre(c);
  }

  lemma WallTotal(a: int, b: int, c: int, t: int)
    ensures (a + b + c) * t == a * t + b * t + c * t
  {
  }

  lemma {:induction false} WallSums(l: Load, producer: RoleId)
    ensures Sum(WallBy(l), TableKeys(producer)) + Sum(StageWallBy(l), Stages()) == OperationTotal(l) * l.timeout
  {
    RoleWall(l, producer);
    StageWallTotal(l);
    WallTotal(StageTotal(l), l.cases * l.modelAttempts, l.cases * l.modelAttempts, l.timeout);
  }

  lemma {:induction false} RoleWall(l: Load, producer: RoleId)
    ensures Sum(WallBy(l), TableKeys(producer)) ==
            l.cases * l.modelAttempts * l.timeout + l.cases * l.modelAttempts * l.timeout
  {
    SumOfTable(WallBy(l), producer);
  }

  lemma {:induction false} StageWallTotal(l: Load)
    ensures Sum(StageWallBy(l), Stages()) == StageTotal(l) * l.timeout
  {
    StageWall(l, Stages());
    SumOfStages(StageAttemptsBy(l));
  }

  lemma {:induction false} StageWall(l: Load, stages: seq<Stage>)
    ensures Sum(StageWallBy(l), stages) == Sum(StageAttemptsBy(l), stages) * l.timeout
  {
    if stages != [] {
      var n := |stages| - 1;
      StageWall(l, stages[..n]);
      WallTotal(Sum(StageAttemptsBy(l), stages[..n]), StageAttempts(l, stages[n]), 0, l.timeout);
    }
  }
}
