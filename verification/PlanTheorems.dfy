/** What loading a plan guarantees. */
module PlanTheorems {
  import opened Wrappers
  import opened Hashes
  import opened Json
  import opened JsonParser
  import opened Records
  import opened Plan
  import opened PlanLoader
  import opened PlanDocuments

  /** Loading the printed text of a closed plan gives back exactly that plan. */
  lemma LoadOfPlanText(h: Hash, p: ResolvedPlan)
    requires PlanOk(h, p)
    ensures Load(h, PlanText(p)) == Some(p)
  {
    DocumentLoads(h, p);
    ParseOfPrint(PlanDocument(p));
    CanonicalIdempotent(PlanDocument(p));
  }

  /** Whatever text the loader accepts, the plan it returns is closed. */
  lemma LoadedIsOk(h: Hash, text: string, p: ResolvedPlan)
    requires Load(h, text) == Some(p)
    ensures PlanOk(h, p)
  {
    ParseIsWellFormed(text);
    PlanOfDocument(h, Parse(text).value, p);
  }

  /** Two accepted texts with one plan hash carry the same plan: every field is bound. */
  lemma SameHashSamePlan(h: Hash, text: string, text': string, p: ResolvedPlan, q: ResolvedPlan)
    requires Load(h, text) == Some(p) && Load(h, text') == Some(q) && p.planHash == q.planHash
    requires var a, b := Print(PlanHashDocument(p)), Print(PlanHashDocument(q)); h(a) == h(b) ==> a == b
    ensures p == q
  {
    LoadedIsOk(h, text, p);
    LoadedIsOk(h, text', q);
    SamePayloadSamePlan(h, p, q);
  }

  /** The text of an accepted plan is the printed one exactly when no boolean occurs in it:
      the loader compares numbers with Python's `==`, for which `True` equals `1`. */
  lemma SoleTextIffNoBoolean(h: Hash, text: string, j: Json, p: ResolvedPlan)
    requires Load(h, text) == Some(p) && Parse(text) == Some(j)
    ensures text == PlanText(p) <==> BooleanFree(j)
  {
    ParseIsWellFormed(text);
    PlanOfDocument(h, j, p);
    if text == PlanText(p) {
      DocumentLoads(h, p);
      ParseOfPrint(PlanDocument(p));
      PlanDocumentBooleanFree(p);
      CanonicalBooleanFree(PlanDocument(p));
    }
  }

  /** The printed text is not the only accepted one: every plan has a second. */
  lemma SecondAcceptedText(h: Hash, p: ResolvedPlan)
    requires PlanOk(h, p)
    ensures Load(h, Print(TwinDocument(p))) == Some(p)
    ensures Print(TwinDocument(p)) != PlanText(p)
  {
    TwinLoads(h, p);
    ParseOfPrint(TwinDocument(p));
    CanonicalIdempotent(TwinDocument(p));
    DocumentLoads(h, p);
    TwinDiffers(p);
  }
}
