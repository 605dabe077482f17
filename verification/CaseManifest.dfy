/** The case manifest, a partition. */
module CaseManifests {
  import opened Flattening
  import opened Lists

  datatype Case = Case(id: string, context: string)

  datatype IngestionPlan = IngestionPlan(id: string, workload: string, contexts: seq<string>, cases: seq<string>)

  datatype Manifest = Manifest(
    hash: string, workload: string, contexts: seq<string>, plans: seq<IngestionPlan>, cases: seq<Case>)

  // ---- what a manifest has to be ----

  /** `id` stands in list `p` at position `i`. */
  predicate At(lists: seq<seq<string>>, p: int, i: int, id: string) {
    0 <= p < |lists| && 0 <= i < |lists[p]| && lists[p][i] == id
  }

  /** `id` stands in exactly one of the lists, exactly once. */
  ghost predicate OccursOnce(lists: seq<seq<string>>, id: string) {
    exists p, i :: At(lists, p, i, id) && forall q, j :: At(lists, q, j, id) ==> q == p && j == i
  }

  /** The lists divide `ids` among themselves. */
  ghost predicate Partition(lists: seq<seq<string>>, ids: seq<string>) {
    && (forall id :: id in ids ==> OccursOnce(lists, id))
    && (forall p, i, id :: At(lists, p, i, id) ==> id in ids)
  }

  function CaseIds(cases: seq<Case>): (r: seq<string>)
    ensures |r| == |cases| && forall i :: 0 <= i < |r| ==> r[i] == cases[i].id
  {
    seq(|cases|, i requires 0 <= i < |cases| => cases[i].id)
  }

  function PlanIds(plans: seq<IngestionPlan>): (r: seq<string>)
    ensures |r| == |plans| && forall i :: 0 <= i < |r| ==> r[i] == plans[i].id
  {
    seq(|plans|, i requires 0 <= i < |plans| => plans[i].id)
  }

  function ContextLists(plans: seq<IngestionPlan>): (r: seq<seq<string>>)
    ensures |r| == |plans| && forall i :: 0 <= i < |r| ==> r[i] == plans[i].contexts
  {
    seq(|plans|, i requires 0 <= i < |plans| => plans[i].contexts)
  }

  function CaseLists(plans: seq<IngestionPlan>): (r: seq<seq<string>>)
    ensures |r| == |plans| && forall i :: 0 <= i < |r| ==> r[i] == plans[i].cases
  {
    seq(|plans|, i requires 0 <= i < |plans| => plans[i].cases)
  }

  /** Case `c`, listed by `plan`, belongs to a context that the same plan lists. */
  ghost predicate ContextBeside(plan: IngestionPlan, c: Case) {
    c.id in plan.cases ==> c.context in plan.contexts
  }

  ghost predicate Closed(m: Manifest) {
    && Distinct(m.contexts) && Distinct(CaseIds(m.cases)) && Distinct(PlanIds(m.plans))
    && (forall p :: 0 <= p < |m.plans| ==> m.plans[p].workload == m.workload)
    && Partition(ContextLists(m.plans), m.contexts)
    && Partition(CaseLists(m.plans), CaseIds(m.cases))
    && (forall p, c :: 0 <= p < |m.plans| && 0 <= c < |m.cases| ==> ContextBeside(m.plans[p], m.cases[c]))
  }

  // ---- counting ----

  function Members(s: seq<string>): set<string> {
    set x | x in s
  }

  lemma {:induction false} MembersAreFew(s: seq<string>)
    ensures |Members(s)| <= |s|
    ensures |Members(s)| == |s| <==> Distinct(s)
  {
    if s != [] {
      var n := |s| - 1;
      var rest := s[..n];
      MembersAreFew(rest);
      assert s == rest + [s[n]];
      if s[n] in rest {
        assert Members(s) == Members(rest);
      } else {
        assert Members(s) == Members(rest) + {s[n]};
      }
    }
  }

  /** With distinct ids, comparing lengths and sets is comparing arrangements. */
  lemma SameSizeSameSet(flat: seq<string>, ids: seq<string>)
    requires Distinct(ids)
    ensures |flat| == |ids| && Members(flat) == Members(ids) <==> Distinct(flat) && Members(flat) == Members(ids)
  {
    MembersAreFew(flat);
    MembersAreFew(ids);
  }

  lemma DistinctMeansOnce(lists: seq<seq<string>>, p: nat, i: nat)
    requires Distinct(Flatten(lists)) && p < |lists| && i < |lists[p]|
    ensures OccursOnce(lists, lists[p][i])
  {
    var id := lists[p][i];
    assert At(lists, p, i, id);
    forall q, j | At(lists, q, j, id)
      ensures q == p && j == i
    {
      FlattenAt(lists, p, i);
      FlattenAt(lists, q, j);
      if p < q { OffsetsIncrease(lists, p, q); }
      if q < p { OffsetsIncrease(lists, q, p); }
    }
  }

  lemma OnceMeansDistinct(lists: seq<seq<string>>, ids: seq<string>)
    requires Partition(lists, ids)
    ensures Distinct(Flatten(lists))
  {
    var flat := Flatten(lists);
    forall k, l | 0 <= k < l < |flat|
      ensures flat[k] != flat[l]
    {
      var p, i := Locate(lists, k);
      var q, j := Locate(lists, l);
      FlattenAt(lists, p, i);
      FlattenAt(lists, q, j);
      assert At(lists, p, i, lists[p][i]);
      if flat[k] == flat[l] {
        OnePlace(lists, lists[p][i], p, i, q, j);
      }
    }
  }

  lemma OnePlace(lists: seq<seq<string>>, id: string, p: nat, i: nat, q: nat, j: nat)
    requires OccursOnce(lists, id) && At(lists, p, i, id) && At(lists, q, j, id)
    ensures p == q && i == j
  {
  }

  lemma FlattenMembers(lists: seq<seq<string>>, id: string)
    ensures id in Members(Flatten(lists)) <==> exists p, i :: At(lists, p, i, id)
  {
    var flat := Flatten(lists);
    if id in flat {
      var k :| 0 <= k < |flat| && flat[k] == id;
      var p, i := Locate(lists, k);
      FlattenAt(lists, p, i);
      assert At(lists, p, i, id);
    }
    if p, i :| At(lists, p, i, id) {
      FlattenAt(lists, p, i);
      assert flat[Offset(lists, p) + i] in flat;
    }
  }

  /** The two closing comparisons accept exactly the partitions. */
  lemma ComparisonIsPartition(lists: seq<seq<string>>, ids: seq<string>)
    requires Distinct(ids)
    ensures |Flatten(lists)| == |ids| && Members(Flatten(lists)) == Members(ids) <==> Partition(lists, ids)
  {
    var flat := Flatten(lists);
    SameSizeSameSet(flat, ids);
    forall id
      ensures id in Members(flat) <==> exists p, i :: At(lists, p, i, id)
    {
      FlattenMembers(lists, id);
    }
    if Distinct(flat) && Members(flat) == Members(ids) {
      forall id | id in ids
        ensures OccursOnce(lists, id)
      {
        assert id in Members(flat);
        var p, i :| At(lists, p, i, id);
        DistinctMeansOnce(lists, p, i);
      }
      forall p, i, id | At(lists, p, i, id)
        ensures id in ids
      {
        assert id in Members(flat);
      }
    }
    if Partition(lists, ids) {
      OnceMeansDistinct(lists, ids);
      forall id
        ensures id in Members(flat) <==> id in Members(ids)
      {
        if id in ids { assert OccursOnce(lists, id); }
      }
    }
  }

  // ---- the validator ----

  /** The checks of one turn of the loop over the plans. */
  ghost predicate PlanCloses(m: Manifest, plan: IngestionPlan) {
    && plan.workload == m.workload
    && (forall id :: id in plan.contexts ==> id in m.contexts)
    && (forall id :: id in plan.cases ==> id in CaseIds(m.cases))
    && (forall c :: 0 <= c < |m.cases| ==> ContextBeside(plan, m.cases[c]))
  }

  /** The dictionary of the cases, by id. */
  method CasesById(cases: seq<Case>) returns (byId: map<string, Case>)
    requires Distinct(CaseIds(cases))
    ensures byId.Keys == Members(CaseIds(cases))
    ensures forall c :: 0 <= c < |cases| ==> cases[c].id in byId && byId[cases[c].id] == cases[c]
  {
    byId := map[];
    for n := 0 to |cases|
      invariant byId.Keys == Members(CaseIds(cases)[..n])
      invariant forall c :: 0 <= c < n ==> cases[c].id in byId && byId[cases[c].id] == cases[c]
    {
      assert CaseIds(cases)[..n + 1] == CaseIds(cases)[..n] + [cases[n].id];
      forall c | 0 <= c < n
        ensures cases[c].id != cases[n].id
      {
        assert CaseIds(cases)[c] != CaseIds(cases)[n];
      }
      byId := byId[cases[n].id := cases[n]];
    }
    assert CaseIds(cases)[..|cases|] == CaseIds(cases);
  }

  method CheckPlan(m: Manifest, byId: map<string, Case>, plan: IngestionPlan) returns (ok: bool)
    requires byId.Keys == Members(CaseIds(m.cases))
    requires forall c :: 0 <= c < |m.cases| ==> m.cases[c].id in byId && byId[m.cases[c].id] == m.cases[c]
    ensures ok <==> PlanCloses(m, plan)
  {
    if plan.workload != m.workload || !(Members(plan.contexts) <= Members(m.contexts)) {
      return false;
    }
    if !(Members(plan.cases) <= Members(CaseIds(m.cases))) {
      return false;
    }
    var memberIds := Members(plan.contexts);
    for k := 0 to |plan.cases|
      invariant forall l :: 0 <= l < k ==> byId[plan.cases[l]].context in plan.contexts
    {
      var id := plan.cases[k];
      assert id in Members(plan.cases);
      if byId[id].context !in memberIds {
        var c :| 0 <= c < |m.cases| && CaseIds(m.cases)[c] == id;
        assert !ContextBeside(plan, m.cases[c]);
        return false;
      }
    }
    forall c | 0 <= c < |m.cases|
      ensures ContextBeside(plan, m.cases[c])
    {
      if m.cases[c].id in plan.cases {
        var l :| 0 <= l < |plan.cases| && plan.cases[l] == m.cases[c].id;
        assert byId[plan.cases[l]].context in plan.contexts;
      }
    }
    forall id | id in plan.contexts
      ensures id in m.contexts
    {
      assert id in Members(plan.contexts);
    }
    forall id | id in plan.cases
      ensures id in CaseIds(m.cases)
    {
      assert id in Members(plan.cases);
    }
    ok := true;
  }

  /** The loop over the plans, with the two flattened lists it grows. */
  method CheckPlans(m: Manifest, byId: map<string, Case>)
    returns (ok: bool, flatContexts: seq<string>, flatCases: seq<string>)
    requires byId.Keys == Members(CaseIds(m.cases))
    requires forall c :: 0 <= c < |m.cases| ==> m.cases[c].id in byId && byId[m.cases[c].id] == m.cases[c]
    ensures ok <==> PlansClose(m)
    ensures ok ==> flatContexts == Flatten(ContextLists(m.plans)) && flatCases == Flatten(CaseLists(m.plans))
  {
    flatContexts, flatCases := [], [];
    for p := 0 to |m.plans|
      invariant flatContexts == Flatten(ContextLists(m.plans)[..p])
      invariant flatCases == Flatten(CaseLists(m.plans)[..p])
      invariant forall q :: 0 <= q < p ==> PlanCloses(m, m.plans[q])
    {
      ok := CheckPlan(m, byId, m.plans[p]);
      if !ok {
        return;
      }
      ListsGrow(m.plans, p);
      flatContexts := flatContexts + m.plans[p].contexts;
      flatCases := flatCases + m.plans[p].cases;
    }
    assert ContextLists(m.plans)[..|m.plans|] == ContextLists(m.plans);
    assert CaseLists(m.plans)[..|m.plans|] == CaseLists(m.plans);
    ok := true;
  }

  lemma ListsGrow(plans: seq<IngestionPlan>, p: nat)
    requires p < |plans|
    ensures Flatten(ContextLists(plans)[..p + 1]) == Flatten(ContextLists(plans)[..p]) + plans[p].contexts
    ensures Flatten(CaseLists(plans)[..p + 1]) == Flatten(CaseLists(plans)[..p]) + plans[p].cases
  {
    FlattenStep(ContextLists(plans), p);
    FlattenStep(CaseLists(plans), p);
  }

  ghost predicate PlansClose(m: Manifest) {
    forall p :: 0 <= p < |m.plans| ==> PlanCloses(m, m.plans[p])
  }

  /** `unique_and_closed_parentage`; `expectedHash` is the hash of the manifest's other fields. */
  method ValidateManifest(m: Manifest, expectedHash: string) returns (ok: bool)
    ensures ok <==> Closed(m) && m.hash == expectedHash
  {
    var caseIds := CaseIds(m.cases);
    MembersAreFew(m.contexts);
    MembersAreFew(caseIds);
    MembersAreFew(PlanIds(m.plans));
    if |Members(m.contexts)| != |m.contexts| || |Members(caseIds)| != |caseIds|
       || |Members(PlanIds(m.plans))| != |m.plans|
    {
      return false;
    }
    var byId := CasesById(m.cases);
    var closes, flatContexts, flatCases := CheckPlans(m, byId);
    ClosedIffChecks(m);
    if !closes {
      return false;
    }
    if |flatContexts| != |m.contexts| || Members(flatContexts) != Members(m.contexts) {
      return false;
    }
    if |flatCases| != |caseIds| || Members(flatCases) != Members(caseIds) {
      return false;
    }
    ok := m.hash == expectedHash;
  }

  ghost predicate SameMembers(lists: seq<seq<string>>, ids: seq<string>) {
    |Flatten(lists)| == |ids| && Members(Flatten(lists)) == Members(ids)
  }

  /** The checks in the order they run amount to the exact partition. */
  lemma ClosedIffChecks(m: Manifest)
    requires Distinct(m.contexts) && Distinct(CaseIds(m.cases)) && Distinct(PlanIds(m.plans))
    ensures Closed(m) <==> PlansClose(m) && SameMembers(ContextLists(m.plans), m.contexts)
                           && SameMembers(CaseLists(m.plans), CaseIds(m.cases))
  {
    ComparisonIsPartition(ContextLists(m.plans), m.contexts);
    ComparisonIsPartition(CaseLists(m.plans), CaseIds(m.cases));
    if Closed(m) {
      forall p | 0 <= p < |m.plans|
        ensures PlanCloses(m, m.plans[p])
      {
        ClosedPlansClose(m, p);
      }
    }
  }

  lemma ClosedPlansClose(m: Manifest, p: nat)
    requires Closed(m) && p < |m.plans|
    ensures PlanCloses(m, m.plans[p])
  {
    var plan := m.plans[p];
    forall id | id in plan.contexts
      ensures id in m.contexts
    {
      var i :| 0 <= i < |plan.contexts| && plan.contexts[i] == id;
      assert At(ContextLists(m.plans), p, i, id);
    }
    forall id | id in plan.cases
      ensures id in CaseIds(m.cases)
    {
      var i :| 0 <= i < |plan.cases| && plan.cases[i] == id;
      assert At(CaseLists(m.plans), p, i, id);
    }
  }

  // ---- what acceptance means for one case ----

  /**
   * Every case of an accepted manifest has one plan: the only one that lists the case is the only
   * one that lists the case's context, and it lists each of them at a single position.
   */
  lemma CaseAndContextShareOnePlan(m: Manifest, c: nat) returns (p: nat, i: nat, j: nat)
    requires Closed(m) && c < |m.cases|
    ensures p < |m.plans| && i < |m.plans[p].cases| && j < |m.plans[p].contexts|
    ensures m.plans[p].cases[i] == m.cases[c].id && m.plans[p].contexts[j] == m.cases[c].context
    ensures forall q, k :: At(CaseLists(m.plans), q, k, m.cases[c].id) ==> q == p && k == i
    ensures forall q, k :: At(ContextLists(m.plans), q, k, m.cases[c].context) ==> q == p && k == j
    ensures m.cases[c].context in m.contexts
  {
    var id, context := m.cases[c].id, m.cases[c].context;
    assert CaseIds(m.cases)[c] == id;
    assert OccursOnce(CaseLists(m.plans), id);
    p, i :| At(CaseLists(m.plans), p, i, id);
    assert id in m.plans[p].cases;
    assert ContextBeside(m.plans[p], m.cases[c]);
    j :| 0 <= j < |m.plans[p].contexts| && m.plans[p].contexts[j] == context;
    assert At(ContextLists(m.plans), p, j, context);
    assert OccursOnce(ContextLists(m.plans), context);
  }
}
