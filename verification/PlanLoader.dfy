/** Loading a frozen plan: only canonical text whose hashes all close is accepted.

    Parsing a record, checking its hash and checking its bindings are separate functions.
 */
module PlanLoader {
  import opened Wrappers
  import opened Hashes
  import opened Json
  import opened JsonParser
  import opened Records
  import opened Plan

  /** Python's `==` between JSON scalars: `True == 1` and `False == 0`. */
  predicate PythonEqual(a: Json, b: Json) {
    a == b || (a.Bool? && b.Int? && b.n == (if a.flag then 1 else 0))
  }

  function RequireText(j: Json): Option<string> {
    if j.Str? && IsText(j.text) then Some(j.text) else None
  }

  predicate IsTextAt(v: seq<Json>, i: nat)
    requires i < |v|
    ensures IsTextAt(v, i) ==> v[i].Str?
  {
    RequireText(v[i]).Some?
  }

  predicate IsSha256Text(j: Json) {
    j.Str? && IsSha256(j.text)
  }

  predicate PositiveInt(j: Json) { j.Int? && j.n > 0 }

  predicate NonNegativeInt(j: Json) { j.Int? && j.n >= 0 }

  function ParseList<T>(parse: Json -> Option<T>, items: seq<Json>): (r: Option<seq<T>>)
    ensures r.Some? ==> |r.value| == |items|
  {
    if items == [] then Some([])
    else
      match (parse(items[0]), ParseList(parse, items[1..]))
      case (Some(first), Some(more)) => Some([first] + more)
      case _ => None
  }

  function FindRole(text: string, ids: seq<RoleId>): Option<RoleId> {
    if ids == [] then None
    else if RoleText(ids[0]) == text then Some(ids[0])
    else FindRole(text, ids[1..])
  }

  function ParseRoleId(j: Json): Option<RoleId> {
    if j.Str? then FindRole(j.text, ROLE_IDS) else None
  }

  function ParseEffort(j: Json): Option<Effort> {
    if j == Str("low") then Some(Low)
    else if j == Str("high") then Some(High)
    else if j == Str("max") then Some(Max)
    else if j == Str("not_applicable") then Some(NotApplicable)
    else None
  }

  function ParseDataset(j: Json): Option<Dataset> {
    match ReadRecord(DatasetKeys(), j)
    case None => None
    case Some(v) => DatasetOfRow(v)
  }

  predicate DatasetTexts(v: seq<Json>)
    requires |v| == 7
  {
    && IsTextAt(v, 0) && IsTextAt(v, 1) && IsTextAt(v, 2) && IsTextAt(v, 3)
    && IsTextAt(v, 4) && IsTextAt(v, 5) && IsTextAt(v, 6)
  }

  function DatasetOfRow(v: seq<Json>): Option<Dataset>
    requires |v| == 7
  {
    if !DatasetTexts(v) then None
    else Some(Dataset(v[0].text, v[1].text, v[2].text, v[3].text, v[4].text, v[5].text, v[6].text))
  }

  function ParseEndpoint(j: Json): Option<EmbeddingEndpoint> {
    match ReadRecord(EndpointKeys(), j)
    case None => None
    case Some(v) =>
      if v[0] != Str(Ownership(true)) && v[0] != Str(Ownership(false)) then None
      else if RequireText(v[1]).None? then None
      else Some(EmbeddingEndpoint(v[0] == Str(Ownership(true)), v[1].text))
  }

  predicate RoleTexts(v: seq<Json>)
    requires |v| == 16
  {
    && IsTextAt(v, 2) && IsTextAt(v, 6) && IsTextAt(v, 7) && IsTextAt(v, 8) && IsTextAt(v, 9)
    && IsTextAt(v, 10) && IsTextAt(v, 11) && IsTextAt(v, 12) && IsTextAt(v, 14) && IsTextAt(v, 15)
  }

  function ParseRole(h: Hash, j: Json): Option<ModelRole> {
    match ReadRecord(RoleKeys(), j)
    case None => None
    case Some(v) =>
      match RoleOfRow(v)
      case None => None
      case Some(r) => if v[0] != Str(RoleHash(h, r)) then None else Some(r.(bindingHash := RoleHash(h, r)))
  }

  /** The record in a row, its hash column aside. */
  function RoleOfRow(v: seq<Json>): Option<ModelRole>
    requires |v| == 16
  {
    match (ParseRoleId(v[1]), ParseEffort(v[3]))
    case (Some(id), Some(effort)) =>
      if (id == Embedding) != (effort == NotApplicable) then None
      else if v[4] != Arr(Texts(EffortScale(effort))) then None
      else if !PythonEqual(v[5], OptionalInt(EffortRank(effort))) then None
      else if v[13] != Null then None
      else if !RoleTexts(v) then None
      else
        ClosedRole(ModelRole(
          "", id, v[2].text, effort, EffortScale(effort), EffortRank(effort),
          v[6].text, v[7].text, v[8].text, v[9].text, v[10].text, v[11].text, v[12].text,
          None, v[14].text, v[15].text))
    case _ => None
  }

  /** The closing checks of `_parse_model_role`: model variable and execution owner. */
  function ClosedRole(r: ModelRole): Option<ModelRole> {
    if ModelVariable(r.roleId).Some? && r.model != ModelVariable(r.roleId).value then None
    else if r.executionOwner != ExecutionOwner(r.roleId) then None
    else Some(r)
  }

  function RoleParser(h: Hash): Json -> Option<ModelRole> {
    j => ParseRole(h, j)
  }

  function RoleIds(roles: seq<ModelRole>): seq<RoleId> {
    seq(|roles|, i requires 0 <= i < |roles| => roles[i].roleId)
  }

  function ParseModelRoles(h: Hash, j: Json): Option<seq<ModelRole>> {
    if !j.Arr? then None
    else
      match ParseList(RoleParser(h), j.items)
      case None => None
      case Some(roles) => if RoleIds(roles) == ROLE_IDS then Some(roles) else None
  }

  predicate BindingTexts(v: seq<Json>)
    requires |v| == 9
  {
    && IsTextAt(v, 1) && IsTextAt(v, 2) && IsTextAt(v, 3)
    && IsTextAt(v, 5) && IsTextAt(v, 6) && IsTextAt(v, 7) && IsTextAt(v, 8)
  }

  function ParseBinding(h: Hash, j: Json): Option<RetrievalBinding> {
    match ReadRecord(BindingKeys(), j)
    case None => None
    case Some(v) =>
      match BindingOfRow(v)
      case None => None
      case Some(b) => if v[0] != Str(BindingHash(h, b)) then None else Some(b.(bindingHash := BindingHash(h, b)))
  }

  function BindingOfRow(v: seq<Json>): Option<RetrievalBinding>
    requires |v| == 9
  {
    if v[4] != Str("embedding") || !BindingTexts(v) then None
    else
      Some(RetrievalBinding("", v[1].text, v[2].text, v[3].text, v[5].text, v[6].text, v[7].text, v[8].text))
  }

  function BindingParser(h: Hash): Json -> Option<RetrievalBinding> {
    j => ParseBinding(h, j)
  }

  function BindingIds(bindings: seq<RetrievalBinding>): seq<string> {
    seq(|bindings|, i requires 0 <= i < |bindings| => bindings[i].bindingId)
  }

  function ParseRetrieval(h: Hash, j: Json): Option<Retrieval> {
    match ReadRecord(RetrievalKeys(), j)
    case None => None
    case Some(v) =>
      if v[0] != Str("disabled") || !v[2].Arr? || !PositiveInt(v[1]) then None
      else
        match ParseList(BindingParser(h), v[2].items)
        case None => None
        case Some(bindings) =>
          if BindingIds(bindings) == RETRIEVAL_BINDING_IDS then Some(Retrieval(v[1].n, bindings)) else None
  }

  function ReadControls(v: seq<Json>): Option<Controls>
    requires |v| == 18
  {
    if NonNegativeInt(v[2]) && NonNegativeInt(v[3]) && PositiveInt(v[4]) && NonNegativeInt(v[5])
       && PositiveInt(v[6]) && PositiveInt(v[8]) && PositiveInt(v[9]) && PositiveInt(v[10])
    then Some(Controls(v[2].n, v[6].n, v[3].n, v[4].n, v[5].n, v[8].n, v[9].n, v[10].n))
    else None
  }

  /** The layered retry profile `(2, 10, 6, 2)`. */
  predicate ProfileRetries(c: Controls) {
    && c.maxRetriesPerOperation == 2 && c.extractionMaxRetries == 10
    && c.modelMaxAttempts == 6 && c.modelTransportMaxRetries == 2
  }

  predicate AllPythonEqual(a: seq<Json>, b: seq<Json>) {
    |a| == |b| && forall i :: 0 <= i < |a| ==> PythonEqual(a[i], b[i])
  }

  function ParseExecution(j: Json, selection: string): Option<Execution> {
    match ReadRecord(ExecutionKeys(), j)
    case None => None
    case Some(v) => ExecutionOfRow(v, selection)
  }

  function ExecutionOfRow(v: seq<Json>, selection: string): Option<Execution>
    requires |v| == 18
  {
    match ReadControls(v)
    case None => None
    case Some(controls) =>
      if !ProfileRetries(controls) then None
      else
        match ResolveExecution(selection, controls)
        case None => None
        case Some(expected) =>
          if AllPythonEqual(v, ExecutionRow(expected)) then Some(expected) else None
  }

  function ParseDecision(j: Json, selection: string): Option<Option<Decision>> {
    if selection == "lme6" then
      if j == Null then Some(None) else None
    else
      match ReadRecord(DecisionKeys(), j)
      case None => None
      case Some(v) => if v == Texts(["0.05", "0.05"]) then Some(Some(Decision("0.05", "0.05"))) else None
  }

  function ParsePair(j: Json): Option<(RoleId, string)> {
    if !j.Arr? || |j.items| != 2 || !IsSha256Text(j.items[1]) then None
    else
      match ParseRoleId(j.items[0])
      case None => None
      case Some(id) => Some((id, j.items[1].text))
  }

  predicate CellFieldTypes(v: seq<Json>)
    requires |v| == 22
  {
    && PositiveInt(v[1])
    && IsTextAt(v, 2) && IsTextAt(v, 3) && IsTextAt(v, 4) && IsTextAt(v, 5) && IsTextAt(v, 6)
    && IsTextAt(v, 7) && IsTextAt(v, 8) && IsTextAt(v, 9) && IsTextAt(v, 10)
    && IsSha256Text(v[11]) && IsSha256Text(v[12])
    && v[17].Arr? && IsTextAt(v, 18)
    && IsSha256Text(v[19]) && IsSha256Text(v[20]) && IsSha256Text(v[21])
  }

  function ParseCell(h: Hash, j: Json): Option<Cell> {
    match ReadRecord(CellKeys(), j)
    case None => None
    case Some(v) =>
      match CellOfRow(v)
      case None => None
      case Some(c) => if v[0] != Str(CellHash(h, c)) then None else Some(c.(specHash := CellHash(h, c)))
  }

  function CellOfRow(v: seq<Json>): Option<Cell>
    requires |v| == 22
  {
    if !CellFieldTypes(v) then None
    else
      match (ParseRoleId(v[13]), ParseRoleId(v[14]), ParseRoleId(v[15]), ParseRoleId(v[16]),
             ParseList(ParsePair, v[17].items))
      case (Some(producer), Some(embedding), Some(answer), Some(judge), Some(pairs)) =>
        Some(Cell("", v[1].n, v[2].text, v[3].text, v[4].text, v[5].text, v[6].text, v[7].text,
                  v[8].text, v[9].text, v[10].text, v[11].text, v[12].text,
                  producer, embedding, answer, judge, pairs,
                  v[18].text, v[19].text, v[20].text, v[21].text))
      case _ => None
  }

  function CellParser(h: Hash): Json -> Option<Cell> {
    j => ParseCell(h, j)
  }

  function CellIds(cells: seq<Cell>): seq<string> {
    seq(|cells|, i requires 0 <= i < |cells| => cells[i].cellId)
  }

  function Ordinals(cells: seq<Cell>): seq<int> {
    seq(|cells|, i requires 0 <= i < |cells| => cells[i].ordinal)
  }

  /** The cross-binding checks of `_parse_cells` on one cell. */
  predicate CellBound(c: Cell, d: Dataset, roles: seq<ModelRole>, r: Retrieval,
                      authorizationHash: string, executionHash: string)
  {
    && c.datasetId == d.datasetId && c.workloadId == d.workloadId && c.selection == d.selection
    && c.sourceSha256 == d.sourceSha256 && c.caseManifestHash == d.caseManifestHash
    && c.roleHashes == RoleHashes(roles, [c.producer, c.embedding, c.answer, c.judge])
    && BindingById(r.bindings, c.retrievalBindingId).Some?
    && c.retrievalBindingHash == BindingById(r.bindings, c.retrievalBindingId).value.bindingHash
    && c.authorizationHash == authorizationHash
    && c.executionHash == executionHash
  }

  predicate EachCellBound(cells: seq<Cell>, d: Dataset, roles: seq<ModelRole>, r: Retrieval,
                          authorizationHash: string, executionHash: string)
  {
    forall i :: 0 <= i < |cells| ==> CellBound(cells[i], d, roles, r, authorizationHash, executionHash)
  }

  predicate CellsBound(cells: seq<Cell>, d: Dataset, roles: seq<ModelRole>, r: Retrieval,
                       authorizationHash: string, executionHash: string)
  {
    && CellIds(cells) == ExpectedCellIds(d.selection)
    && Ordinals(cells) == [1, 2, 3]
    && EachCellBound(cells, d, roles, r, authorizationHash, executionHash)
  }

  function ParseCells(h: Hash, j: Json, d: Dataset, roles: seq<ModelRole>, r: Retrieval,
                      e: Execution): Option<seq<Cell>> {
    if !j.Arr? then None
    else
      match ParseList(CellParser(h), j.items)
      case None => None
      case Some(cells) =>
        if CellsBound(cells, d, roles, r, AuthorizationHash(h, e), ExecutionHash(h, e)) then Some(cells) else None
  }

  /** The parsers of the plan's columns, as values. */
  datatype Parsers = Parsers(
    dataset: Json -> Option<Dataset>,
    endpoint: Json -> Option<EmbeddingEndpoint>,
    roles: Json -> Option<seq<ModelRole>>,
    retrieval: Json -> Option<Retrieval>,
    execution: (Json, string) -> Option<Execution>,
    decision: (Json, string) -> Option<Option<Decision>>,
    cells: (Json, Dataset, seq<ModelRole>, Retrieval, Execution) -> Option<seq<Cell>>)

  function LoaderParsers(h: Hash): Parsers {
    Parsers(ParseDataset, ParseEndpoint, j => ParseModelRoles(h, j), j => ParseRetrieval(h, j),
            ParseExecution, ParseDecision, (j, d, roles, r, e) => ParseCells(h, j, d, roles, r, e))
  }

  /** The body of `load_resolved_plan_for_run` after the canonical-bytes check. */
  function LoadDocument(h: Hash, j: Json): Option<ResolvedPlan> {
    match ReadRecord(PlanKeys(), j)
    case None => None
    case Some(v) =>
      match PlanOfRow(LoaderParsers(h), v)
      case None => None
      case Some(p) => if v[0] != Str(PlanHash(h, p)) then None else Some(p.(planHash := PlanHash(h, p)))
  }

  function PlanOfRow(parse: Parsers, v: seq<Json>): Option<ResolvedPlan>
    requires |v| == 11
  {
    if v[1] != Str("resolved_plan") || v[2] != Int(1) || RequireText(v[3]).None? then None
    else
      match (parse.dataset(v[4]), parse.endpoint(v[5]), parse.roles(v[6]), parse.retrieval(v[7]))
      case (Some(d), Some(endpoint), Some(roles), Some(retrieval)) =>
        (match (parse.execution(v[8], d.selection), parse.decision(v[9], d.selection))
         case (Some(execution), Some(decision)) =>
           (match parse.cells(v[10], d, roles, retrieval, execution)
            case None => None
            case Some(cells) =>
              Some(ResolvedPlan("", v[3].text, d, endpoint, roles, retrieval, execution, decision, cells)))
         case _ => None)
      case _ => None
  }

  /** `load_resolved_plan_for_run` on the file's text, in normal mode. */
  function Load(h: Hash, text: string): Option<ResolvedPlan> {
    match Parse(text)
    case None => None
    case Some(document) =>
      if Print(document) != text then None else LoadDocument(h, document)
  }
}
