/** The paired study: saved baseline answers and corrected answers under one judge. */
module Studies {
  import opened Counting
  import opened Lists
  import opened Wrappers

  /** A judged answer is correct or not; `None` stands for a question the judge did not settle. */
  type Verdicts = map<string, Option<bool>>

  datatype Answer = Answer(id: string, kind: string, historical: bool)

  datatype Counts = Counts(correct: nat, judged: nat, total: nat)

  datatype Decision = Incomplete | ParityOrBetter | NearParity | StopAndReassess

  datatype Paired = Paired(bothCorrect: nat, baselineOnly: nat, correctedOnly: nat, bothIncorrect: nat)

  datatype Category = Category(kind: string, historical: Counts, baseline: Counts, corrected: Counts)

  datatype Summary = Summary(
    historical: Counts, baseline: Counts, corrected: Counts,
    decision: Decision, minimum: Option<int>, retained: Option<bool>,
    categories: seq<Category>, paired: Paired,
    flips: seq<string>, historicalFlips: seq<string>,
    unjudged: seq<string>, correctedUnjudged: seq<string>)

  const QUESTION_COUNT: nat := 60
  const NEAR_PARITY_TOLERANCE: nat := 2
  const QUESTION_TYPES: seq<string> := [
    "knowledge-update", "multi-session", "single-session-assistant",
    "single-session-preference", "single-session-user", "temporal-reasoning"]

  function Ids(answers: seq<Answer>): (r: seq<string>)
    ensures |r| == |answers| && forall i :: 0 <= i < |r| ==> r[i] == answers[i].id
  {
    seq(|answers|, i requires 0 <= i < |answers| => answers[i].id)
  }

  predicate Judged(v: Verdicts, id: string) {
    id in v && v[id].Some?
  }

  predicate Is(v: Verdicts, id: string, value: bool) {
    id in v && v[id].Some? && v[id].value == value
  }

  predicate Differ(a: Verdicts, b: Verdicts, id: string) {
    id in a && id in b && a[id] != b[id]
  }

  /** The verdicts that the saved baseline already carried. */
  function Historical(answers: seq<Answer>): Verdicts {
    if answers == [] then map[]
    else
      var last := answers[|answers| - 1];
      Historical(answers[..|answers| - 1])[last.id := Some(last.historical)]
  }

  // ---- summarize_study ----

  function CountsOf(v: Verdicts, ids: seq<string>): Counts {
    Counts(Count(ids, id => Is(v, id, true)), Count(ids, id => Judged(v, id)), |ids|)
  }

  function Decide(baseline: Counts, corrected: Counts): Decision {
    if !(baseline.judged == corrected.judged == QUESTION_COUNT) then Incomplete
    else if corrected.correct >= baseline.correct then ParityOrBetter
    else if corrected.correct >= baseline.correct - NEAR_PARITY_TOLERANCE then NearParity
    else StopAndReassess
  }

  function PairedIds(ids: seq<string>, b: Verdicts, c: Verdicts): seq<string> {
    Select(ids, id => Judged(b, id) && Judged(c, id))
  }

  function Cell(paired: seq<string>, b: Verdicts, c: Verdicts, left: bool, right: bool): nat {
    Count(paired, id => Is(b, id, left) && Is(c, id, right))
  }

  function PairedTable(paired: seq<string>, b: Verdicts, c: Verdicts): Paired {
    Paired(Cell(paired, b, c, true, true), Cell(paired, b, c, true, false),
           Cell(paired, b, c, false, true), Cell(paired, b, c, false, false))
  }

  function KindIds(answers: seq<Answer>, kind: string): seq<string> {
    Ids(Select(answers, (a: Answer) => a.kind == kind))
  }

  /** The counts of `v` within each of the kinds. */
  function PerKind(answers: seq<Answer>, v: Verdicts, kinds: seq<string>): (r: seq<Counts>)
    ensures |r| == |kinds| && forall i :: 0 <= i < |r| ==> r[i] == CountsOf(v, KindIds(answers, kinds[i]))
  {
    seq(|kinds|, i requires 0 <= i < |kinds| => CountsOf(v, KindIds(answers, kinds[i])))
  }

  function CategoriesOf(answers: seq<Answer>, h: Verdicts, b: Verdicts, c: Verdicts): (r: seq<Category>)
    ensures |r| == |QUESTION_TYPES|
  {
    var hs, bs := PerKind(answers, h, QUESTION_TYPES), PerKind(answers, b, QUESTION_TYPES);
    var cs := PerKind(answers, c, QUESTION_TYPES);
    seq(|QUESTION_TYPES|, i requires 0 <= i < |QUESTION_TYPES| => Category(QUESTION_TYPES[i], hs[i], bs[i], cs[i]))
  }

  predicate Selected(v: Verdicts, ids: seq<string>) {
    forall id <- v :: id in ids
  }

  function Summarise(answers: seq<Answer>, baseline: Verdicts, correctedVerdicts: Option<Verdicts>): Option<Summary> {
    var c := if correctedVerdicts.Some? then correctedVerdicts.value else map[];
    var ids := Ids(answers);
    if !Selected(baseline, ids) || !Selected(c, ids) then None
    else
      var h := Historical(answers);
      var baselineCounts, correctedCounts := CountsOf(baseline, ids), CountsOf(c, ids);
      var paired := PairedIds(ids, baseline, c);
      Some(Summary(
        CountsOf(h, ids), baselineCounts, correctedCounts,
        Decide(baselineCounts, correctedCounts),
        if baselineCounts.judged == QUESTION_COUNT then Some(baselineCounts.correct - NEAR_PARITY_TOLERANCE) else None,
        if correctedCounts.judged == QUESTION_COUNT
        then Some(forall id <- ids :: Is(h, id, true) ==> Is(c, id, true)) else None,
        CategoriesOf(answers, h, baseline, c),
        PairedTable(paired, baseline, c),
        Select(paired, id => Differ(baseline, c, id)),
        Select(ids, id => Judged(baseline, id) && Differ(baseline, h, id)),
        Select(ids, id => !Judged(baseline, id)),
        Select(ids, id => !Judged(c, id))))
  }

  // ---- the paired table ----

  /** Each paired question is in exactly one cell of the table, and the mixed cells are the flips. */
  lemma PairsPartition(ids: seq<string>, b: Verdicts, c: Verdicts)
    ensures var paired := PairedIds(ids, b, c); var t := PairedTable(paired, b, c);
            && t.bothCorrect + t.baselineOnly == Count(paired, id => Is(b, id, true))
            && t.correctedOnly + t.bothIncorrect == Count(paired, id => Is(b, id, false))
            && t.bothCorrect + t.correctedOnly == Count(paired, id => Is(c, id, true))
            && t.bothCorrect + t.baselineOnly + t.correctedOnly + t.bothIncorrect == |paired|
            && t.baselineOnly + t.correctedOnly == |Select(paired, id => Differ(b, c, id))|
  {
    var paired := PairedIds(ids, b, c);
    forall i | 0 <= i < |paired|
      ensures Judged(b, paired[i]) && Judged(c, paired[i])
    {
      SelectedHold(ids, id => Judged(b, id) && Judged(c, id), i);
    }
    TableSplits(paired, b, c);
    CountSplits(paired, id => Is(b, id, true), id => Is(b, id, false), id => true);
    CountAll(paired, id => true);
  }

  lemma TableSplits(paired: seq<string>, b: Verdicts, c: Verdicts)
    requires forall i :: 0 <= i < |paired| ==> Judged(b, paired[i]) && Judged(c, paired[i])
    ensures Cell(paired, b, c, true, true) + Cell(paired, b, c, true, false) == Count(paired, id => Is(b, id, true))
    ensures Cell(paired, b, c, false, true) + Cell(paired, b, c, false, false) == Count(paired, id => Is(b, id, false))
    ensures Cell(paired, b, c, true, true) + Cell(paired, b, c, false, true) == Count(paired, id => Is(c, id, true))
    ensures Cell(paired, b, c, true, false) + Cell(paired, b, c, false, true) == Count(paired, id => Differ(b, c, id))
  {
    CountSplits(paired, id => Is(b, id, true) && Is(c, id, true), id => Is(b, id, true) && Is(c, id, false),
                id => Is(b, id, true));
    CountSplits(paired, id => Is(b, id, false) && Is(c, id, true), id => Is(b, id, false) && Is(c, id, false),
                id => Is(b, id, false));
    CountSplits(paired, id => Is(b, id, true) && Is(c, id, true), id => Is(b, id, false) && Is(c, id, true),
                id => Is(c, id, true));
    CountSplits(paired, id => Is(b, id, true) && Is(c, id, false), id => Is(b, id, false) && Is(c, id, true),
                id => Differ(b, c, id));
  }

  // ---- the decision ----

  /** A side is judged throughout exactly when its list of unjudged questions is empty. */
  lemma JudgedOrListed(ids: seq<string>, v: Verdicts)
    ensures CountsOf(v, ids).judged + |Select(ids, id => !Judged(v, id))| == |ids|
  {
    CountSplits(ids, id => Judged(v, id), id => !Judged(v, id), id => true);
    CountAll(ids, id => true);
  }

  /** When both sides are judged throughout, every question is paired. */
  lemma AllPaired(ids: seq<string>, b: Verdicts, c: Verdicts)
    requires CountsOf(b, ids).judged == |ids| && CountsOf(c, ids).judged == |ids|
    ensures PairedIds(ids, b, c) == ids
  {
    CountAll(ids, id => Judged(b, id));
    CountAll(ids, id => Judged(c, id));
    SelectAll(ids, id => Judged(b, id) && Judged(c, id));
  }

  /** The decision over the whole selection, read off the paired table. */
  lemma DecisionByTable(answers: seq<Answer>, b: Verdicts, correctedVerdicts: Option<Verdicts>)
    requires |answers| == QUESTION_COUNT && Summarise(answers, b, correctedVerdicts).Some?
    ensures var s := Summarise(answers, b, correctedVerdicts).value; var t := s.paired;
            && (s.decision.Incomplete? <==> s.unjudged != [] || s.correctedUnjudged != [])
            && (!s.decision.Incomplete? ==>
                  && t.bothCorrect + t.baselineOnly + t.correctedOnly + t.bothIncorrect == QUESTION_COUNT
                  && (s.decision.ParityOrBetter? <==> t.correctedOnly >= t.baselineOnly)
                  && (s.decision.NearParity? <==> t.baselineOnly - t.correctedOnly in {1, 2})
                  && (s.decision.StopAndReassess? <==> t.baselineOnly - t.correctedOnly > 2)
                  && (s.decision.StopAndReassess? <==> s.minimum.Some? && s.corrected.correct < s.minimum.value))
  {
    var c := if correctedVerdicts.Some? then correctedVerdicts.value else map[];
    var ids := Ids(answers);
    JudgedOrListed(ids, b);
    JudgedOrListed(ids, c);
    PairsPartition(ids, b, c);
    if CountsOf(b, ids).judged == QUESTION_COUNT && CountsOf(c, ids).judged == QUESTION_COUNT {
      AllPaired(ids, b, c);
    }
  }

  /** Keeping every historical success means scoring at least the historical count. */
  lemma RetainedMeansNoWorse(answers: seq<Answer>, b: Verdicts, correctedVerdicts: Option<Verdicts>)
    requires Summarise(answers, b, correctedVerdicts).Some?
    ensures var s := Summarise(answers, b, correctedVerdicts).value;
            && (s.retained == Some(true) ==> s.corrected.correct >= s.historical.correct)
            && (s.retained.Some? <==> s.corrected.judged == QUESTION_COUNT)
  {
    var c := if correctedVerdicts.Some? then correctedVerdicts.value else map[];
    var ids := Ids(answers);
    var h := Historical(answers);
    if forall id <- ids :: Is(h, id, true) ==> Is(c, id, true) {
      forall i | 0 <= i < |ids|
        ensures Is(h, ids[i], true) ==> Is(c, ids[i], true)
      {
        assert ids[i] in ids;
      }
      CountGrows(ids, id => Is(h, id, true), id => Is(c, id, true));
    }
  }

  // ---- the categories ----

  function CorrectOf(c: Counts): int { c.correct }

  function JudgedOf(c: Counts): int { c.judged }

  function TotalOf(c: Counts): int { c.total }

  /** Summed over the kinds: how many answers of that kind satisfy `p`. */
  function SumKinds(answers: seq<Answer>, kinds: seq<string>, p: string -> bool): nat {
    if kinds == [] then 0
    else SumKinds(answers, kinds[..|kinds| - 1], p) + Count(KindIds(answers, kinds[|kinds| - 1]), p)
  }

  lemma KindStep(answers: seq<Answer>, kind: string, p: string -> bool)
    requires answers != []
    ensures var n := |answers| - 1; var a := answers[n];
            Count(KindIds(answers, kind), p)
            == Count(KindIds(answers[..n], kind), p) + (if a.kind == kind && p(a.id) then 1 else 0)
  {
    var n := |answers| - 1;
    var before := KindIds(answers[..n], kind);
    if answers[n].kind == kind {
      assert KindIds(answers, kind) == before + [answers[n].id];
      assert (before + [answers[n].id])[..|before|] == before;
    } else {
      assert KindIds(answers, kind) == before;
    }
  }

  lemma {:induction false} KindsStep(answers: seq<Answer>, kinds: seq<string>, p: string -> bool)
    requires answers != [] && forall i, j :: 0 <= i < j < |kinds| ==> kinds[i] != kinds[j]
    ensures var n := |answers| - 1; var a := answers[n];
            SumKinds(answers, kinds, p)
            == SumKinds(answers[..n], kinds, p) + (if a.kind in kinds && p(a.id) then 1 else 0)
    decreases |kinds|
  {
    if kinds != [] {
      var k := |kinds| - 1;
      KindsStep(answers, kinds[..k], p);
      KindStep(answers, kinds[k], p);
      assert kinds == kinds[..k] + [kinds[k]] && kinds[k] !in kinds[..k];
    }
  }

  lemma {:induction false} KindsPartition(answers: seq<Answer>, kinds: seq<string>, p: string -> bool)
    requires forall i, j :: 0 <= i < j < |kinds| ==> kinds[i] != kinds[j]
    requires forall i :: 0 <= i < |answers| ==> answers[i].kind in kinds
    ensures SumKinds(answers, kinds, p) == Count(Ids(answers), p)
  {
    if answers == [] {
      NoAnswers(kinds, p);
    } else {
      var n := |answers| - 1;
      KindsPartition(answers[..n], kinds, p);
      KindsStep(answers, kinds, p);
      assert Ids(answers)[..n] == Ids(answers[..n]);
      assert answers[n].kind in kinds;
    }
  }

  lemma {:induction false} NoAnswers(kinds: seq<string>, p: string -> bool)
    ensures SumKinds([], kinds, p) == 0
  {
    if kinds != [] {
      NoAnswers(kinds[..|kinds| - 1], p);
    }
  }

  lemma {:induction false} SumsOfCounts(answers: seq<Answer>, v: Verdicts, kinds: seq<string>)
    ensures Sum(CorrectOf, PerKind(answers, v, kinds)) == SumKinds(answers, kinds, id => Is(v, id, true))
    ensures Sum(JudgedOf, PerKind(answers, v, kinds)) == SumKinds(answers, kinds, id => Judged(v, id))
    ensures Sum(TotalOf, PerKind(answers, v, kinds)) == SumKinds(answers, kinds, id => true)
  {
    if kinds != [] {
      var k := |kinds| - 1;
      SumsOfCounts(answers, v, kinds[..k]);
      assert PerKind(answers, v, kinds)[..k] == PerKind(answers, v, kinds[..k]);
      CountAll(KindIds(answers, kinds[k]), id => true);
    }
  }

  /** The counts add up to `all`. */
  ghost predicate AddUp(parts: seq<Counts>, all: Counts) {
    Sum(CorrectOf, parts) == all.correct && Sum(JudgedOf, parts) == all.judged && Sum(TotalOf, parts) == all.total
  }

  lemma KindsAddUp(answers: seq<Answer>, v: Verdicts)
    requires forall i :: 0 <= i < |answers| ==> answers[i].kind in QUESTION_TYPES
    ensures AddUp(PerKind(answers, v, QUESTION_TYPES), CountsOf(v, Ids(answers)))
  {
    TypesDiffer();
    SumsOfCounts(answers, v, QUESTION_TYPES);
    KindsPartition(answers, QUESTION_TYPES, id => Is(v, id, true));
    KindsPartition(answers, QUESTION_TYPES, id => Judged(v, id));
    KindsPartition(answers, QUESTION_TYPES, id => true);
    CountAll(Ids(answers), id => true);
  }

  function Column(categories: seq<Category>, side: Category -> Counts): (r: seq<Counts>)
    ensures |r| == |categories| && forall i :: 0 <= i < |r| ==> r[i] == side(categories[i])
  {
    seq(|categories|, i requires 0 <= i < |categories| => side(categories[i]))
  }

  /** The categories of a summary divide every one of its counts, when the answers are of known kinds. */
  lemma {:induction false} CategoriesPartition(answers: seq<Answer>, b: Verdicts, correctedVerdicts: Option<Verdicts>)
    requires Summarise(answers, b, correctedVerdicts).Some?
    requires forall i :: 0 <= i < |answers| ==> answers[i].kind in QUESTION_TYPES
    ensures var s := Summarise(answers, b, correctedVerdicts).value;
            && AddUp(Column(s.categories, (c: Category) => c.historical), s.historical)
            && AddUp(Column(s.categories, (c: Category) => c.baseline), s.baseline)
            && AddUp(Column(s.categories, (c: Category) => c.corrected), s.corrected)
  {
    var s := Summarise(answers, b, correctedVerdicts).value;
    var c := if correctedVerdicts.Some? then correctedVerdicts.value else map[];
    KindsAddUp(answers, Historical(answers));
    KindsAddUp(answers, b);
    KindsAddUp(answers, c);
    assert Column(s.categories, (c: Category) => c.historical) == PerKind(answers, Historical(answers), QUESTION_TYPES);
    assert Column(s.categories, (c: Category) => c.baseline) == PerKind(answers, b, QUESTION_TYPES);
    assert Column(s.categories, (c: Category) => c.corrected) == PerKind(answers, c, QUESTION_TYPES);
  }

  /** How many answers are of this kind, and how many of these are judged and correct. */
  ghost predicate CountsKind(counts: Counts, answers: seq<Answer>, kind: string, v: Verdicts) {
    && counts.total == Count(answers, (a: Answer) => a.kind == kind)
    && counts.judged == Count(answers, (a: Answer) => a.kind == kind && Judged(v, a.id))
    && counts.correct == Count(answers, (a: Answer) => a.kind == kind && Is(v, a.id, true))
  }

  /** There is one category for each kind, in a fixed order, and it counts the answers of its kind. */
  lemma {:induction false} CategoriesCount(answers: seq<Answer>, b: Verdicts, correctedVerdicts: Option<Verdicts>)
    requires Summarise(answers, b, correctedVerdicts).Some?
    ensures var s := Summarise(answers, b, correctedVerdicts).value;
            var c := if correctedVerdicts.Some? then correctedVerdicts.value else map[];
            && |s.categories| == 6
            && s.categories[0].kind == "knowledge-update" && s.categories[1].kind == "multi-session"
            && s.categories[2].kind == "single-session-assistant" && s.categories[3].kind == "single-session-preference"
            && s.categories[4].kind == "single-session-user" && s.categories[5].kind == "temporal-reasoning"
            && forall i :: 0 <= i < 6 ==> CategoryCounts(s.categories[i], answers, Historical(answers), b, c)
  {
    var c := if correctedVerdicts.Some? then correctedVerdicts.value else map[];
    CategoriesOfCount(answers, Historical(answers), b, c);
  }

  ghost predicate CategoryCounts(category: Category, answers: seq<Answer>, h: Verdicts, b: Verdicts, c: Verdicts) {
    && CountsKind(category.historical, answers, category.kind, h)
    && CountsKind(category.baseline, answers, category.kind, b)
    && CountsKind(category.corrected, answers, category.kind, c)
  }

  lemma CategoriesOfCount(answers: seq<Answer>, h: Verdicts, b: Verdicts, c: Verdicts)
    ensures var categories := CategoriesOf(answers, h, b, c);
            && (forall i :: 0 <= i < 6 ==> categories[i].kind == QUESTION_TYPES[i])
            && forall i :: 0 <= i < 6 ==> CategoryCounts(categories[i], answers, h, b, c)
  {
    forall i | 0 <= i < 6
      ensures CategoryCounts(CategoriesOf(answers, h, b, c)[i], answers, h, b, c)
    {
      KindCounts(answers, QUESTION_TYPES[i], h);
      KindCounts(answers, QUESTION_TYPES[i], b);
      KindCounts(answers, QUESTION_TYPES[i], c);
    }
  }

  lemma {:induction false} KindCounts(answers: seq<Answer>, kind: string, v: Verdicts)
    ensures CountsKind(CountsOf(v, KindIds(answers, kind)), answers, kind, v)
  {
    if answers != [] {
      KindCounts(answers[..|answers| - 1], kind, v);
      KindStep(answers, kind, id => Is(v, id, true));
      KindStep(answers, kind, id => Judged(v, id));
    }
  }

  lemma TypesDiffer()
    ensures forall i, j :: 0 <= i < j < |QUESTION_TYPES| ==> QUESTION_TYPES[i] != QUESTION_TYPES[j]
  {
    forall i, j | 0 <= i < j < |QUESTION_TYPES|
      ensures QUESTION_TYPES[i] != QUESTION_TYPES[j]
    {
      assert |QUESTION_TYPES[0]| == 16 && |QUESTION_TYPES[1]| == 13 && |QUESTION_TYPES[2]| == 24;
      assert |QUESTION_TYPES[3]| == 25 && |QUESTION_TYPES[4]| == 19 && |QUESTION_TYPES[5]| == 18;
    }
  }

  // ---- the other fields of a summary ----

  ghost predicate OfAnswers(v: Verdicts, answers: seq<Answer>) {
    forall id <- v :: exists i :: 0 <= i < |answers| && answers[i].id == id
  }

  /** A summary is made exactly when every verdict is about one of the answers. */
  lemma SummaryExistsIff(answers: seq<Answer>, b: Verdicts, correctedVerdicts: Option<Verdicts>)
    ensures Summarise(answers, b, correctedVerdicts).Some? <==>
              OfAnswers(b, answers) && (correctedVerdicts.Some? ==> OfAnswers(correctedVerdicts.value, answers))
  {
    var ids := Ids(answers);
    assert forall id :: id in ids <==> exists i :: 0 <= i < |answers| && answers[i].id == id;
  }

  lemma {:induction false} HistoricalVerdicts(answers: seq<Answer>)
    requires Distinct(Ids(answers))
    ensures forall i :: 0 <= i < |answers| ==>
              answers[i].id in Historical(answers) && Historical(answers)[answers[i].id] == Some(answers[i].historical)
  {
    if answers != [] {
      var n := |answers| - 1;
      assert Ids(answers)[..n] == Ids(answers[..n]);
      HistoricalVerdicts(answers[..n]);
      forall i | 0 <= i < n
        ensures answers[i].id != answers[n].id
      {
        assert Ids(answers)[i] != Ids(answers)[n];
      }
      assert forall i :: 0 <= i < n ==> answers[..n][i] == answers[i];
    }
  }

  /** The two sides disagree about a question that both judged. */
  ghost predicate Flipped(b: Verdicts, c: Verdicts, id: string) {
    (Is(b, id, true) && Is(c, id, false)) || (Is(b, id, false) && Is(c, id, true))
  }

  /** `part` lists exactly the answers that satisfy `p`, in the order of the answers. */
  ghost predicate Listed(part: seq<string>, answers: seq<Answer>, p: Answer -> bool) {
    part == Ids(Select(answers, p))
  }

  lemma {:induction false} SelectIds(answers: seq<Answer>, p: Answer -> bool, q: string -> bool)
    requires forall i :: 0 <= i < |answers| ==> q(answers[i].id) == p(answers[i])
    ensures Select(Ids(answers), q) == Ids(Select(answers, p))
  {
    if answers != [] {
      var n := |answers| - 1;
      assert Ids(answers)[..n] == Ids(answers[..n]);
      SelectIds(answers[..n], p, q);
    }
  }

  lemma {:induction false} SelectTwice(ids: seq<string>, p: string -> bool, q: string -> bool, both: string -> bool)
    requires forall i :: 0 <= i < |ids| ==> both(ids[i]) == (p(ids[i]) && q(ids[i]))
    ensures Select(Select(ids, p), q) == Select(ids, both)
  {
    if ids != [] {
      var front, id := ids[..|ids| - 1], ids[|ids| - 1];
      assert ids == front + [id];
      SelectTwice(front, p, q, both);
      SelectLast(front, id, p);
      SelectLast(front, id, both);
      if p(id) {
        SelectLast(Select(front, p), id, q);
      } else {
        assert Select(ids, p) == Select(front, p) && Select(ids, both) == Select(front, both);
      }
    }
  }

  /** The four lists of a summary: the flips, the flips against history and the unjudged of either side. */
  lemma {:induction false} ListsOfSummary(answers: seq<Answer>, b: Verdicts, correctedVerdicts: Option<Verdicts>)
    requires Summarise(answers, b, correctedVerdicts).Some? && Distinct(Ids(answers))
    ensures var s := Summarise(answers, b, correctedVerdicts).value;
            var c := if correctedVerdicts.Some? then correctedVerdicts.value else map[];
            && Listed(s.flips, answers, (a: Answer) => Flipped(b, c, a.id))
            && Listed(s.historicalFlips, answers, (a: Answer) => Is(b, a.id, !a.historical))
            && Listed(s.unjudged, answers, (a: Answer) => !Judged(b, a.id))
            && Listed(s.correctedUnjudged, answers, (a: Answer) => !Judged(c, a.id))
  {
    var c := if correctedVerdicts.Some? then correctedVerdicts.value else map[];
    SummaryJudges(answers, b, correctedVerdicts);
    FlipsOfSummary(answers, b, c);
    HistoricalFlips(answers, b);
    SelectIds(answers, (a: Answer) => !Judged(b, a.id), id => !Judged(b, id));
    SelectIds(answers, (a: Answer) => !Judged(c, a.id), id => !Judged(c, id));
  }

  lemma {:induction false} FlipsOfSummary(answers: seq<Answer>, b: Verdicts, c: Verdicts)
    ensures Listed(Select(PairedIds(Ids(answers), b, c), id => Differ(b, c, id)), answers,
                   (a: Answer) => Flipped(b, c, a.id))
  {
    SelectTwice(Ids(answers), id => Judged(b, id) && Judged(c, id), id => Differ(b, c, id), id => Flipped(b, c, id));
    SelectIds(answers, (a: Answer) => Flipped(b, c, a.id), id => Flipped(b, c, id));
  }

  lemma {:induction false} HistoricalFlips(answers: seq<Answer>, b: Verdicts)
    requires Distinct(Ids(answers))
    ensures Listed(Select(Ids(answers), id => Judged(b, id) && Differ(b, Historical(answers), id)), answers,
                   (a: Answer) => Is(b, a.id, !a.historical))
  {
    var h := Historical(answers);
    HistoricalVerdicts(answers);
    SelectIds(answers, (a: Answer) => Is(b, a.id, !a.historical), id => Judged(b, id) && Differ(b, h, id));
  }

  lemma HistoricalAt(answers: seq<Answer>, i: nat)
    requires Distinct(Ids(answers)) && i < |answers|
    ensures Is(Historical(answers), answers[i].id, true) == answers[i].historical
  {
    HistoricalVerdicts(answers);
    var h := Historical(answers);
    assert answers[i].id in h && h[answers[i].id] == Some(answers[i].historical);
  }

  predicate Retained(answers: seq<Answer>, h: Verdicts, c: Verdicts) {
    forall id <- Ids(answers) :: Is(h, id, true) ==> Is(c, id, true)
  }

  lemma RetainedIff(answers: seq<Answer>, c: Verdicts)
    requires Distinct(Ids(answers))
    ensures Retained(answers, Historical(answers), c) <==> KeepsHistory(answers, c)
  {
    var ids, h := Ids(answers), Historical(answers);
    forall i | 0 <= i < |answers|
      ensures Is(h, ids[i], true) == answers[i].historical && ids[i] in ids
    {
      HistoricalAt(answers, i);
    }
    if KeepsHistory(answers, c) {
      forall id | id in ids && Is(h, id, true)
        ensures Is(c, id, true)
      {
        var i :| 0 <= i < |ids| && ids[i] == id;
        assert answers[i].historical;
      }
    }
    if !KeepsHistory(answers, c) {
      var i :| 0 <= i < |answers| && answers[i].historical && !Is(c, answers[i].id, true);
      assert Is(h, ids[i], true) && ids[i] in ids;
    }
  }

  /** The minimum is two below a baseline judged throughout, and successes are retained when every answer that was
      correct in history is correct again on a side judged throughout. */
  lemma MinimumAndRetained(answers: seq<Answer>, b: Verdicts, correctedVerdicts: Option<Verdicts>)
    requires Summarise(answers, b, correctedVerdicts).Some? && Distinct(Ids(answers)) && |answers| == 60
    ensures var s := Summarise(answers, b, correctedVerdicts).value;
            var c := if correctedVerdicts.Some? then correctedVerdicts.value else map[];
            && s.minimum == (if s.unjudged == [] then Some(s.baseline.correct - 2) else None)
            && s.retained == if s.correctedUnjudged != [] then None else Some(KeepsHistory(answers, c))
  {
    var c := if correctedVerdicts.Some? then correctedVerdicts.value else map[];
    var s := Summarise(answers, b, correctedVerdicts).value;
    SummaryJudges(answers, b, correctedVerdicts);
    JudgedOrListed(Ids(answers), b);
    JudgedOrListed(Ids(answers), c);
    RetainedIff(answers, c);
  }

  lemma SummaryJudges(answers: seq<Answer>, b: Verdicts, correctedVerdicts: Option<Verdicts>)
    requires Summarise(answers, b, correctedVerdicts).Some?
    ensures var s := Summarise(answers, b, correctedVerdicts).value;
            var c := if correctedVerdicts.Some? then correctedVerdicts.value else map[];
            && s.baseline == CountsOf(b, Ids(answers)) && s.corrected == CountsOf(c, Ids(answers))
            && s.unjudged == Select(Ids(answers), id => !Judged(b, id))
            && s.correctedUnjudged == Select(Ids(answers), id => !Judged(c, id))
            && s.minimum == (if s.baseline.judged == 60 then Some(s.baseline.correct - 2) else None)
            && s.retained ==
                 if s.corrected.judged == 60 then Some(Retained(answers, Historical(answers), c)) else None
  {
  }

  predicate KeepsHistory(answers: seq<Answer>, c: Verdicts) {
    forall i :: 0 <= i < |answers| && answers[i].historical ==> Is(c, answers[i].id, true)
  }
}
