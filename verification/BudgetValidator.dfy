/** The closing validator of a live budget, and what it says about built budgets. */
module BudgetValidator {
  import opened Wrappers
  import opened Hashes
  import opened Lists
  import opened Json
  import opened Records
  import opened Plan
  import opened PlanRecords
  import opened Budgets

  function RoleIds(roles: seq<RoleCeiling>): (r: seq<string>)
    ensures |r| == |roles| && forall i :: 0 <= i < |r| ==> r[i] == roles[i].bindingId
  {
    seq(|roles|, i requires 0 <= i < |roles| => roles[i].bindingId)
  }

  function OperationIds(operations: seq<OperationCeiling>): (r: seq<string>)
    ensures |r| == |operations| && forall i :: 0 <= i < |r| ==> r[i] == operations[i].id
  {
    seq(|operations|, i requires 0 <= i < |operations| => operations[i].id)
  }

  function RouteIds(routes: seq<Route>): (r: seq<string>)
    ensures |r| == |routes| && forall i :: 0 <= i < |r| ==> r[i] == routes[i].id
  {
    seq(|routes|, i requires 0 <= i < |routes| => routes[i].id)
  }

  /** The route and the ceiling of its operation say the same thing. */
  predicate Matches(route: Route, o: OperationCeiling) {
    && route.OperationRoute? && route.operationId == o.id && route.adapter == o.adapter
    && route.kind == o.kind && route.stage == o.kind && route.billingUnit == o.billingUnit
  }

  predicate RouteCloses(b: Budget, route: Route) {
    && Distinct(route.internal)
    && (forall i :: 0 <= i < |route.internal| ==> route.internal[i] in RoleIds(b.roles))
    && match route
       case ModelRoute(_, _, roleId, internal) => roleId in RoleIds(b.roles) && internal == []
       case OperationRoute(_, _, _, _, _, _, _) =>
         exists k :: 0 <= k < |b.operations| && Matches(route, b.operations[k])
  }

  function Elements(s: seq<string>): set<string> {
    set i | 0 <= i < |s| :: s[i]
  }

  function RolesUsed(route: Route): set<string> {
    (if route.ModelRoute? then {route.roleId} else {}) + Elements(route.internal)
  }

  function OperationsUsed(route: Route): set<string> {
    if route.OperationRoute? then {route.operationId} else {}
  }

  ghost predicate EveryOwnerUsed(b: Budget) {
    && (forall id :: id in RoleIds(b.roles) ==> exists r :: 0 <= r < |b.routes| && id in RolesUsed(b.routes[r]))
    && (forall id :: id in OperationIds(b.operations) ==>
          exists r :: 0 <= r < |b.routes| && id in OperationsUsed(b.routes[r]))
  }

  predicate AmountsPositive(b: Budget) {
    && b.maxAttempts > 0 && b.maxOutputTokens >= 0 && b.maxWallSeconds >= 0
    && (forall i :: 0 <= i < |b.roles| ==>
          b.roles[i].maxAttempts > 0 && b.roles[i].maxOutputTokens >= 0 && b.roles[i].maxWallSeconds >= 0)
    && (forall i :: 0 <= i < |b.operations| ==> b.operations[i].maxAttempts > 0 && b.operations[i].maxWallSeconds >= 0)
  }

  predicate IdentitiesDistinct(b: Budget) {
    && Distinct(RoleIds(b.roles)) && Distinct(OperationIds(b.operations)) && Distinct(RouteIds(b.routes))
    && (forall i :: 0 <= i < |b.roles| ==> b.roles[i].bindingId !in OperationIds(b.operations))
    && Distinct(b.stopConditions)
  }

  ghost predicate RoutesClose(b: Budget) {
    forall r :: 0 <= r < |b.routes| ==> RouteCloses(b, b.routes[r])
  }

  /** A budget in which identities are distinct, every route is known, and no owner is an orphan. */
  ghost predicate Closes(b: Budget) {
    && b.roles != [] && b.operations != [] && b.routes != []
    && AmountsPositive(b) && IdentitiesDistinct(b) && RoutesClose(b) && EveryOwnerUsed(b)
  }

  /** `live_run_budget_and_routes_close` */
  method ValidateBudget(b: Budget) returns (ok: bool)
    ensures ok <==> Closes(b)
  {
    if b.roles == [] || b.operations == [] || b.routes == [] { return false; }
    if !AmountsPositive(b) || !IdentitiesDistinct(b) { return false; }
    var referencedRoles: set<string> := {};
    var referencedOperations: set<string> := {};
    for r := 0 to |b.routes|
      invariant forall k :: 0 <= k < r ==> RouteCloses(b, b.routes[k])
      invariant forall id :: id in referencedRoles <==> exists k :: 0 <= k < r && id in RolesUsed(b.routes[k])
      invariant forall id :: id in referencedOperations <==> exists k :: 0 <= k < r && id in OperationsUsed(b.routes[k])
    {
      if !RouteCloses(b, b.routes[r]) { return false; }
      referencedRoles := referencedRoles + RolesUsed(b.routes[r]);
      referencedOperations := referencedOperations + OperationsUsed(b.routes[r]);
    }
    var roleSet, operationSet := Elements(RoleIds(b.roles)), Elements(OperationIds(b.operations));
    OnlyOwnersUsed(b, referencedRoles, referencedOperations);
    return referencedRoles == roleSet && referencedOperations == operationSet;
  }

  /** Closed routes refer to owners of the budget only, so the sets are equal when nobody is left out. */
  lemma OnlyOwnersUsed(b: Budget, roles: set<string>, operations: set<string>)
    requires RoutesClose(b)
    requires forall id :: id in roles <==> exists k :: 0 <= k < |b.routes| && id in RolesUsed(b.routes[k])
    requires forall id :: id in operations <==> exists k :: 0 <= k < |b.routes| && id in OperationsUsed(b.routes[k])
    ensures roles == Elements(RoleIds(b.roles)) && operations == Elements(OperationIds(b.operations)) <==>
              EveryOwnerUsed(b)
  {
    forall id | id in roles
      ensures id in Elements(RoleIds(b.roles))
    {
      var k :| 0 <= k < |b.routes| && id in RolesUsed(b.routes[k]);
      assert RouteCloses(b, b.routes[k]);
    }
    forall id | id in operations
      ensures id in Elements(OperationIds(b.operations))
    {
      var k :| 0 <= k < |b.routes| && id in OperationsUsed(b.routes[k]);
      assert RouteCloses(b, b.routes[k]);
      var o :| 0 <= o < |b.operations| && Matches(b.routes[k], b.operations[o]);
      assert OperationIds(b.operations)[o] == id;
    }
    forall id
      ensures id in Elements(RoleIds(b.roles)) <==> id in RoleIds(b.roles)
      ensures id in Elements(OperationIds(b.operations)) <==> id in OperationIds(b.operations)
    {
      ElementsAre(RoleIds(b.roles), id);
      ElementsAre(OperationIds(b.operations), id);
    }
    if EveryOwnerUsed(b) {
      assert roles == Elements(RoleIds(b.roles));
      assert operations == Elements(OperationIds(b.operations));
    }
  }

  lemma ElementsAre(s: seq<string>, id: string)
    ensures id in Elements(s) <==> id in s
  {
  }

  // ---- built budgets ----

  predicate NoColon(s: string) {
    forall i :: 0 <= i < |s| ==> s[i] != ':'
  }

  /** The binding identifiers of the roles differ, and none looks like an operation identifier. */
  ghost predicate GoodIds(ids: BindingIds, keys: seq<RoleId>) {
    && (forall r :: r in keys ==> NoColon(ids(r)))
    && forall q, r :: q in keys && r in keys && ids(q) == ids(r) ==> q == r
  }

  lemma StageTextInjective(a: Stage, b: Stage)
    requires StageText(a) == StageText(b)
    ensures a == b
  {
  }

  lemma OperationIdInjective(adapter: string, a: Stage, b: Stage)
    requires OperationId(adapter, a) == OperationId(adapter, b)
    ensures a == b
  {
    var prefix := adapter + ":";
    assert (prefix + StageText(a))[|prefix|..] == StageText(a) && (prefix + StageText(b))[|prefix|..] == StageText(b);
    StageTextInjective(a, b);
  }

  lemma OperationIdHasColon(adapter: string, s: Stage)
    ensures !NoColon(OperationId(adapter, s))
  {
    assert OperationId(adapter, s)[|adapter|] == ':';
  }

  lemma StageAtInjective(i: nat, j: nat)
    requires i < 8 && j < 8 && StageAt(i) == StageAt(j)
    ensures i == j
  {
  }

  lemma {:induction false} BuiltIdentities(b: Budget, l: Load, adapter: string, ids: BindingIds, c: CellRoles)
    requires OwnersAre(b, l, adapter, ids, c) && GoodIds(ids, BoundRoles(c))
    ensures IdentitiesDistinct(b)
  {
    BuiltRoleIds(b, l, adapter, ids, c);
    BuiltOperationIds(b, l, adapter, ids, c);
    BuiltRouteIds(b, l, adapter, ids, c);
  }

  lemma {:induction false} BuiltRoleIds(b: Budget, l: Load, adapter: string, ids: BindingIds, c: CellRoles)
    requires OwnersAre(b, l, adapter, ids, c) && GoodIds(ids, BoundRoles(c))
    ensures Distinct(RoleIds(b.roles))
    ensures forall i :: 0 <= i < |b.roles| ==> b.roles[i].bindingId !in OperationIds(b.operations)
  {
    var keys := BoundRoles(c);
    forall i, j | 0 <= i < j < |keys|
      ensures RoleIds(b.roles)[i] != RoleIds(b.roles)[j]
    {
      assert keys[i] in keys && keys[j] in keys && keys[i] != keys[j];
    }
    forall i, k | 0 <= i < |keys| && 0 <= k < 8
      ensures b.roles[i].bindingId != OperationIds(b.operations)[k]
    {
      OperationIdHasColon(adapter, StageAt(k));
      assert keys[i] in keys && NoColon(ids(keys[i]));
    }
  }

  lemma {:induction false} BuiltOperationIds(b: Budget, l: Load, adapter: string, ids: BindingIds, c: CellRoles)
    requires OwnersAre(b, l, adapter, ids, c)
    ensures Distinct(OperationIds(b.operations))
  {
    forall i, j | 0 <= i < j < 8
      ensures OperationIds(b.operations)[i] != OperationIds(b.operations)[j]
    {
      if OperationIds(b.operations)[i] == OperationIds(b.operations)[j] {
        OperationIdInjective(adapter, StageAt(i), StageAt(j));
        StageAtInjective(i, j);
      }
    }
  }

  lemma ModelStagesDiffer(s: Stage)
    ensures StageText(s) != "answer" && StageText(s) != "judge"
  {
  }

  lemma {:induction false} BuiltRouteIds(b: Budget, l: Load, adapter: string, ids: BindingIds, c: CellRoles)
    requires OwnersAre(b, l, adapter, ids, c)
    ensures Distinct(RouteIds(b.routes)) && Distinct(b.stopConditions)
  {
    forall i, j | 0 <= i < j < 10
      ensures RouteIds(b.routes)[i] != RouteIds(b.routes)[j]
    {
      if i < 8 { ModelStagesDiffer(StageAt(i)); }
      if j < 8 && StageText(StageAt(i)) == StageText(StageAt(j)) {
        StageTextInjective(StageAt(i), StageAt(j));
        StageAtInjective(i, j);
      }
    }
  }

  lemma {:induction false} KeyIsRole(b: Budget, l: Load, adapter: string, ids: BindingIds, c: CellRoles, r: RoleId)
    requires OwnersAre(b, l, adapter, ids, c) && r in BoundRoles(c)
    ensures ids(r) in RoleIds(b.roles)
  {
    var i :| 0 <= i < |BoundRoles(c)| && BoundRoles(c)[i] == r;
    assert RoleIds(b.roles)[i] == ids(r);
  }

  lemma OwnRoles(c: CellRoles)
    requires RolesFit(c)
    ensures c.producer in BoundRoles(c) && Embedding in BoundRoles(c) && Answer in BoundRoles(c)
    ensures Judge in BoundRoles(c)
    ensures forall r :: r in BoundRoles(c) ==> r == c.producer || r == Embedding || r == Answer || r == Judge
  {
    KeysAre(c);
  }

  lemma {:induction false} InternalDistinct(ids: BindingIds, producer: RoleId, stage: Stage)
    ensures Distinct(InternalRoles(ids, producer, stage)) <==> stage != MemoryIngest || ids(producer) != ids(Embedding)
  {
    var internal := InternalRoles(ids, producer, stage);
    if stage == MemoryIngest {
      assert internal[0] == ids(producer) && internal[1] == ids(Embedding);
    }
  }

  lemma IngestIsThird(r: nat)
    requires r < 8
    ensures StageAt(r) == MemoryIngest <==> r == 2
  {
  }

  lemma {:induction false} InternalKnown(b: Budget, l: Load, adapter: string, ids: BindingIds, c: CellRoles, s: Stage)
    requires OwnersAre(b, l, adapter, ids, c) && RolesFit(c)
    ensures forall i :: 0 <= i < |InternalRoles(ids, c.producer, s)| ==>
              InternalRoles(ids, c.producer, s)[i] in RoleIds(b.roles)
  {
    OwnRoles(c);
    KeyIsRole(b, l, adapter, ids, c, c.producer);
    KeyIsRole(b, l, adapter, ids, c, Embedding);
  }

  lemma {:induction false} StageRouteCloses(
      b: Budget, l: Load, adapter: string, ids: BindingIds, c: CellRoles, r: nat)
    requires OwnersAre(b, l, adapter, ids, c) && RolesFit(c) && r < 8
    ensures RouteCloses(b, b.routes[r]) <==> Distinct(InternalRoles(ids, c.producer, StageAt(r)))
  {
    InternalKnown(b, l, adapter, ids, c, StageAt(r));
    assert Matches(b.routes[r], b.operations[r]);
  }

  lemma {:induction false} ModelRouteCloses(
      b: Budget, l: Load, adapter: string, ids: BindingIds, c: CellRoles, r: nat)
    requires OwnersAre(b, l, adapter, ids, c) && RolesFit(c) && 8 <= r < 10
    ensures RouteCloses(b, b.routes[r])
  {
    OwnRoles(c);
    KeyIsRole(b, l, adapter, ids, c, Answer);
    KeyIsRole(b, l, adapter, ids, c, Judge);
  }

  /** Every route of a built budget closes, unless ingestion lists one binding twice. */
  lemma {:induction false} BuiltRoutesClose(b: Budget, l: Load, adapter: string, ids: BindingIds, c: CellRoles)
    requires OwnersAre(b, l, adapter, ids, c) && RolesFit(c) && GoodIds(ids, BoundRoles(c))
    ensures RoutesClose(b) <==> c.producer != Embedding
  {
    OwnRoles(c);
    forall r | 0 <= r < |b.routes|
      ensures RouteCloses(b, b.routes[r]) <==> r != 2 || ids(c.producer) != ids(Embedding)
    {
      if r < 8 {
        StageRouteCloses(b, l, adapter, ids, c, r);
        InternalDistinct(ids, c.producer, StageAt(r));
        IngestIsThird(r);
      } else {
        ModelRouteCloses(b, l, adapter, ids, c, r);
      }
    }
    assert RouteCloses(b, b.routes[2]) <==> ids(c.producer) != ids(Embedding);
  }

  lemma {:induction false} BuiltOwnersUsed(b: Budget, l: Load, adapter: string, ids: BindingIds, c: CellRoles)
    requires OwnersAre(b, l, adapter, ids, c) && RolesFit(c)
    ensures EveryOwnerUsed(b)
  {
    forall id | id in RoleIds(b.roles)
      ensures exists r :: 0 <= r < |b.routes| && id in RolesUsed(b.routes[r])
    {
      var r := RoleUsed(b, l, adapter, ids, c, id);
    }
    forall id | id in OperationIds(b.operations)
      ensures exists r :: 0 <= r < |b.routes| && id in OperationsUsed(b.routes[r])
    {
      var i :| 0 <= i < 8 && OperationIds(b.operations)[i] == id;
      assert id in OperationsUsed(b.routes[i]);
    }
  }

  lemma {:induction false} RoleUsed(b: Budget, l: Load, adapter: string, ids: BindingIds, c: CellRoles, id: string)
    returns (r: nat)
    requires OwnersAre(b, l, adapter, ids, c) && RolesFit(c) && id in RoleIds(b.roles)
    ensures r < 10 && id in RolesUsed(b.routes[r])
  {
    var keys := BoundRoles(c);
    var i :| 0 <= i < |keys| && RoleIds(b.roles)[i] == id;
    OwnRoles(c);
    assert keys[i] in keys;
    r := if keys[i] == Answer then 8 else if keys[i] == Judge then 9 else 2;
    assert StageAt(2) == MemoryIngest;
    var internal := b.routes[2].internal;
    assert internal[0] == ids(c.producer) && internal[1] == ids(Embedding);
  }

  /** The attempts of a built budget are positive exactly when there is something to ingest and to ask. */
  ghost predicate LoadOk(l: Load) {
    l.cases >= 0 && l.sources >= 0 && l.ingestAttempts > 0 && l.modelAttempts > 0 && l.timeout >= 0
  }

  lemma Signs(a: int, b: int)
    requires a >= 0 && b >= 0
    ensures a * b >= 0 && (b > 0 ==> (a * b > 0 <==> a > 0))
  {
    if b > 0 && a > 0 {
      assert a * b >= b by { assert (a - 1) * b >= 0; }
    }
  }

  lemma {:induction false} RoleAmounts(l: Load, ids: BindingIds, r: RoleId)
    requires LoadOk(l)
    ensures var ceiling := RoleCeilingFor(l, ids, r);
            && ceiling.maxAttempts >= 0 && ceiling.maxOutputTokens >= 0 && ceiling.maxWallSeconds >= 0
            && (l.cases > 0 && l.sources > 0 ==> ceiling.maxAttempts > 0)
  {
    Signs(l.sources, l.ingestAttempts);
    Signs(l.cases, l.modelAttempts);
    Signs(OutputTokensPerAttempt(r), RoleAttempts(l, r));
    Signs(RoleAttempts(l, r), l.timeout);
  }

  lemma StageAmounts(l: Load, adapter: string, s: Stage)
    requires LoadOk(l)
    ensures var c := OperationCeilingFor(l, adapter, s);
            && c.maxAttempts >= 0 && c.maxWallSeconds >= 0
            && (l.cases > 0 && l.sources > 0 ==> c.maxAttempts > 0)
  {
    Signs(l.sources, l.ingestAttempts);
    Signs(StageAttempts(l, s), l.timeout);
  }

  lemma {:induction false} BuiltAmounts(b: Budget, l: Load, adapter: string, ids: BindingIds, c: CellRoles)
    requires OwnersAre(b, l, adapter, ids, c) && LoadOk(l)
    requires b.maxAttempts == OwnerTotal(l, c.producer) && b.maxOutputTokens >= 0 && b.maxWallSeconds >= 0
    ensures AmountsPositive(b) <==> l.cases > 0 && l.sources > 0
  {
    forall i | 0 <= i < |b.roles|
      ensures b.roles[i].maxOutputTokens >= 0 && b.roles[i].maxWallSeconds >= 0
      ensures l.cases > 0 && l.sources > 0 ==> b.roles[i].maxAttempts > 0
    {
      RoleAmounts(l, ids, BoundRoles(c)[i]);
    }
    forall i | 0 <= i < 8
      ensures b.operations[i].maxWallSeconds >= 0
      ensures l.cases > 0 && l.sources > 0 ==> b.operations[i].maxAttempts > 0
    {
      StageAmounts(l, adapter, StageAt(i));
    }
    Signs(l.sources, l.ingestAttempts);
    Signs(l.cases, l.modelAttempts);
    assert b.operations[1].maxAttempts == l.cases && b.operations[2].maxAttempts == l.sources * l.ingestAttempts;
  }

  /** A budget built by `_budget` closes exactly when the workload has a case and a source, and the
      producer is not the embedding role. */
  lemma {:induction false} BuiltBudgetCloses(b: Budget, l: Load, adapter: string, ids: BindingIds, c: CellRoles)
    requires OwnersAre(b, l, adapter, ids, c) && RolesFit(c) && GoodIds(ids, BoundRoles(c))
    requires LoadOk(l) && Amounts(b, l, c.producer)
    ensures Closes(b) <==> l.cases > 0 && l.sources > 0 && c.producer != Embedding
  {
    AmountSigns(b, l, c.producer);
    BuiltAmounts(b, l, adapter, ids, c);
    BuiltIdentities(b, l, adapter, ids, c);
    BuiltOwnersUsed(b, l, adapter, ids, c);
    BuiltRoutesClose(b, l, adapter, ids, c);
    OwnRoles(c);
  }

  lemma AmountSigns(b: Budget, l: Load, producer: RoleId)
    requires LoadOk(l) && Amounts(b, l, producer)
    ensures b.maxOutputTokens >= 0 && b.maxWallSeconds >= 0
  {
    Signs(l.cases, l.modelAttempts);
    Signs(l.sources, l.ingestAttempts);
    Signs(OperationTotal(l), l.timeout);
  }

  // ---- the binding identifiers of a plan ----

  /** `_role_bindings`: two fixed identifiers, and the binding hashes of the other roles. */
  function PlanIds(roles: seq<ModelRole>): BindingIds {
    (r: RoleId) => match r
      case Answer => "oamb-lme-answer-v1"
      case Judge => "oamb-lme-judge-v1"
      case _ => HashOfRole(roles, r)
  }

  function RoleHashDocument(r: ModelRole): Json {
    Arr([Str("oamb-model-execution-binding-initial-v1"), Record(RoleKeys()[1..], RoleRow(r)[1..])])
  }

  lemma {:induction false} RoleDocumentBindsId(a: ModelRole, b: ModelRole)
    requires Print(RoleHashDocument(a)) == Print(RoleHashDocument(b))
    ensures a.roleId == b.roleId
  {
    RoleKeysDistinct();
    RoleRowFlat(a);
    RoleRowFlat(b);
    TaggedRecordIsBound("oamb-model-execution-binding-initial-v1", RoleKeys()[1..], RoleRow(a)[1..], RoleRow(b)[1..]);
    assert RoleRow(a)[1..][0] == RoleRow(b)[1..][0];
    RoleTextInjective(a.roleId, b.roleId);
  }

  lemma ShaHasNoColon(s: string)
    requires IsSha256(s)
    ensures NoColon(s) && |s| == 64
  {
  }

  /** A role of the plan under digest `h`, without a collision with the plan's other roles. */
  ghost predicate RoleStands(h: Hash, roles: seq<ModelRole>, r: RoleId) {
    && RoleById(roles, r).Some? && RoleOk(h, RoleById(roles, r).value) && RoleById(roles, r).value.roleId == r
  }

  ghost predicate NoRoleCollision(h: Hash, roles: seq<ModelRole>, q: RoleId, r: RoleId)
    requires RoleStands(h, roles, q) && RoleStands(h, roles, r)
  {
    var x := Print(RoleHashDocument(RoleById(roles, q).value));
    var y := Print(RoleHashDocument(RoleById(roles, r).value));
    h(x) == h(y) ==> x == y
  }

  /** The identifiers a cell takes from its plan are fit for a budget. */
  lemma {:induction false} PlanIdsAreGood(h: Hash, roles: seq<ModelRole>, keys: seq<RoleId>)
    requires DigestShape(h) && forall r :: r in keys ==> RoleStands(h, roles, r)
    requires forall q, r :: q in keys && r in keys ==> NoRoleCollision(h, roles, q, r)
    ensures GoodIds(PlanIds(roles), keys)
  {
    forall r | r in keys
      ensures NoColon(PlanIds(roles)(r))
    {
      PlanIdShape(h, roles, r);
    }
    forall q, r | q in keys && r in keys && PlanIds(roles)(q) == PlanIds(roles)(r)
      ensures q == r
    {
      PlanIdsDiffer(h, roles, q, r);
    }
  }

  lemma {:induction false} PlanIdShape(h: Hash, roles: seq<ModelRole>, r: RoleId)
    requires DigestShape(h) && RoleStands(h, roles, r)
    ensures NoColon(PlanIds(roles)(r))
    ensures |PlanIds(roles)(r)| == if r == Answer then 18 else if r == Judge then 17 else 64
  {
    FixedIds();
    ShaHasNoColon(RoleById(roles, r).value.bindingHash);
  }

  lemma {:induction false} PlanIdsDiffer(h: Hash, roles: seq<ModelRole>, q: RoleId, r: RoleId)
    requires DigestShape(h) && RoleStands(h, roles, q) && RoleStands(h, roles, r) && NoRoleCollision(h, roles, q, r)
    requires PlanIds(roles)(q) == PlanIds(roles)(r)
    ensures q == r
  {
    PlanIdShape(h, roles, q);
    PlanIdShape(h, roles, r);
    if q != Answer && q != Judge {
      RoleDocumentBindsId(RoleById(roles, q).value, RoleById(roles, r).value);
    }
  }

  lemma FixedIds()
    ensures NoColon("oamb-lme-answer-v1") && NoColon("oamb-lme-judge-v1")
    ensures |"oamb-lme-answer-v1"| == 18 && |"oamb-lme-judge-v1"| == 17
  {
  }
}
