/** The execution and validation state machines. */
module States {
  import opened Wrappers
  import opened Words

  datatype Kind = RunKind | ValidationKind | PlanKind | CaseKind

  /** One constructor per state text: equal texts are equal dictionary keys, whatever enumeration they come from. */
  datatype State =
    | Planned | Preflighting | Ready | Running | Finalizing | Finalized
    | Rejected | Interrupted | Aborted | InfrastructureBlocked
    | NotRun | Validated | Invalid
    | Pending | ScopeAllocated | Ingesting | WaitingReady | Sealed
    | Error | Unsupported | Cancelled | BudgetExceeded | InterruptedUnknownOutcome
    | Retrieving | Normalizing | Answering | Evaluating | Sealing | Completed

  datatype Event =
    | StartPreflight | PreflightReady | Reject | StartRun | Finalize | SealRun
    | Interrupt | Abort | BlockInfrastructure | Resume
    | ValidationPass | ValidationFail
    | AllocateScope | StartIngest | WaitReady | MarkReady | SealPlan
    | StartRetrieve | Normalize | StartAnswer | StartEvaluate | StartSeal | CaseComplete
    | Fail | MarkUnsupported | Cancel | ExhaustBudget | MarkUnknownOutcome

  datatype Disposition = NotApplicable | ResumeSafe | ReplacementRunRequired

  type Key = (Kind, State, Event)

  type Table = map<Key, State>

  // ---- the specification of the table ----

  /** Steps left at most in a case or a plan. */
  function Rank(s: State): nat {
    match s
    case Pending => 6
    case Retrieving => 5
    case ScopeAllocated => 5
    case Normalizing => 4
    case Ingesting => 4
    case Answering => 3
    case WaitingReady => 3
    case Evaluating => 2
    case Ready => 2
    case Sealing => 1
    case _ => 0
  }

  /** The only progress a case state allows. */
  function CaseForward(s: State): (r: Option<(Event, State)>)
    ensures r.Some? ==> Rank(r.value.1) < Rank(s)
  {
    match s
    case Pending => Some((StartRetrieve, Retrieving))
    case Retrieving => Some((Normalize, Normalizing))
    case Normalizing => Some((StartAnswer, Answering))
    case Answering => Some((StartEvaluate, Evaluating))
    case Evaluating => Some((StartSeal, Sealing))
    case Sealing => Some((CaseComplete, Completed))
    case _ => None
  }

  /** The only progress a plan state allows. */
  function PlanForward(s: State): (r: Option<(Event, State)>)
    ensures r.Some? ==> Rank(r.value.1) < Rank(s)
  {
    match s
    case Pending => Some((AllocateScope, ScopeAllocated))
    case ScopeAllocated => Some((StartIngest, Ingesting))
    case Ingesting => Some((WaitReady, WaitingReady))
    case WaitingReady => Some((MarkReady, Ready))
    case Ready => Some((SealPlan, Sealed))
    case _ => None
  }

  function Forward(way: Option<(Event, State)>, e: Event): Option<State> {
    if way.Some? && way.value.0 == e then Some(way.value.1) else None
  }

  function RunProgress(s: State, e: Event): Option<State> {
    match s
    case Planned => if e == StartPreflight then Some(Preflighting) else None
    case Preflighting => if e == PreflightReady then Some(Ready) else if e == Reject then Some(Rejected) else None
    case Ready => if e == StartRun then Some(Running) else None
    case Running =>
      if e == Finalize then Some(Finalizing)
      else if e == Interrupt then Some(Interrupted)
      else if e == Abort then Some(Aborted)
      else if e == BlockInfrastructure then Some(InfrastructureBlocked)
      else None
    case Finalizing => if e == SealRun then Some(Finalized) else None
    case Interrupted => if e == Resume then Some(Running) else None
    case _ => None
  }

  function ValidationProgress(s: State, e: Event): Option<State> {
    if s != NotRun then None
    else if e == ValidationPass then Some(Validated)
    else if e == ValidationFail then Some(Invalid)
    else None
  }

  /** The progress transitions. */
  function Progress(kind: Kind, s: State, e: Event): Option<State> {
    match kind
    case RunKind => RunProgress(s, e)
    case ValidationKind => ValidationProgress(s, e)
    case PlanKind => Forward(PlanForward(s), e)
    case CaseKind => Forward(CaseForward(s), e)
  }

  predicate Failed(s: State) {
    s == Error || s == Unsupported || s == Cancelled || s == BudgetExceeded || s == InterruptedUnknownOutcome
  }

  predicate ActivePlan(s: State): (r: bool)
    ensures r ==> Rank(s) > 0
  {
    s == ScopeAllocated || s == Ingesting || s == WaitingReady || s == Ready
  }

  predicate ActiveCase(s: State): (r: bool)
    ensures r ==> Rank(s) > 0
  {
    s == Pending || s == Retrieving || s == Normalizing || s == Answering || s == Evaluating || s == Sealing
  }

  /** The failure state an event leads to from every active state. */
  function FailureOf(kind: Kind, e: Event): (r: Option<State>)
    ensures r.Some? ==> Failed(r.value) && Rank(r.value) == 0
  {
    match e
    case Fail => Some(Error)
    case MarkUnsupported => Some(Unsupported)
    case Cancel => Some(Cancelled)
    case ExhaustBudget => Some(BudgetExceeded)
    case MarkUnknownOutcome => if kind == PlanKind then Some(InterruptedUnknownOutcome) else None
    case _ => None
  }

  function Next(kind: Kind, s: State, e: Event): Option<State> {
    if Progress(kind, s, e).Some? then Progress(kind, s, e)
    else if (kind == PlanKind && ActivePlan(s)) || (kind == CaseKind && ActiveCase(s)) then FailureOf(kind, e)
    else None
  }

  // ---- building the table ----

  function RunTable(): Table {
    map[
      (RunKind, Planned, StartPreflight) := Preflighting,
      (RunKind, Preflighting, PreflightReady) := Ready,
      (RunKind, Preflighting, Reject) := Rejected,
      (RunKind, Ready, StartRun) := Running,
      (RunKind, Running, Finalize) := Finalizing,
      (RunKind, Finalizing, SealRun) := Finalized,
      (RunKind, Running, Interrupt) := Interrupted,
      (RunKind, Running, Abort) := Aborted,
      (RunKind, Running, BlockInfrastructure) := InfrastructureBlocked,
      (RunKind, Interrupted, Resume) := Running]
  }

  function ValidationTable(): Table {
    map[
      (ValidationKind, NotRun, ValidationPass) := Validated,
      (ValidationKind, NotRun, ValidationFail) := Invalid]
  }

  function PlanTable(): Table {
    map[
      (PlanKind, Pending, AllocateScope) := ScopeAllocated,
      (PlanKind, ScopeAllocated, StartIngest) := Ingesting,
      (PlanKind, Ingesting, WaitReady) := WaitingReady,
      (PlanKind, WaitingReady, MarkReady) := Ready,
      (PlanKind, Ready, SealPlan) := Sealed]
  }

  function CaseTable(): Table {
    map[
      (CaseKind, Pending, StartRetrieve) := Retrieving,
      (CaseKind, Retrieving, Normalize) := Normalizing,
      (CaseKind, Normalizing, StartAnswer) := Answering,
      (CaseKind, Answering, StartEvaluate) := Evaluating,
      (CaseKind, Evaluating, StartSeal) := Sealing,
      (CaseKind, Sealing, CaseComplete) := Completed]
  }

  function Entry(table: Table, k: Kind, s: State, e: Event): Option<State> {
    if (k, s, e) in table then Some(table[(k, s, e)]) else None
  }

  lemma RunRows(k: Kind, s: State, e: Event)
    ensures Entry(RunTable(), k, s, e) == if k == RunKind then Progress(k, s, e) else None
  {
    if k == RunKind { RunRow(s, e); }
  }

  lemma RunRow(s: State, e: Event)
    ensures Entry(RunTable(), RunKind, s, e) == RunProgress(s, e)
  {
    if RunProgress(s, e).Some? {
      assert (RunKind, s, e) in RunTable();
    }
  }

  lemma ValidationRows(k: Kind, s: State, e: Event)
    ensures Entry(ValidationTable(), k, s, e) == if k == ValidationKind then Progress(k, s, e) else None
  {
  }

  lemma PlanRows(k: Kind, s: State, e: Event)
    ensures Entry(PlanTable(), k, s, e) == if k == PlanKind then Progress(k, s, e) else None
  {
    if k == PlanKind { PlanRow(s, e); }
  }

  lemma PlanRow(s: State, e: Event)
    ensures Entry(PlanTable(), PlanKind, s, e) == Forward(PlanForward(s), e)
  {
    if PlanForward(s).Some? && PlanForward(s).value.0 == e {
      assert (PlanKind, s, e) in PlanTable();
    }
  }

  lemma CaseRows(k: Kind, s: State, e: Event)
    ensures Entry(CaseTable(), k, s, e) == if k == CaseKind then Progress(k, s, e) else None
  {
    if k == CaseKind { CaseRow(s, e); }
  }

  lemma CaseRow(s: State, e: Event)
    ensures Entry(CaseTable(), CaseKind, s, e) == Forward(CaseForward(s), e)
  {
    if CaseForward(s).Some? && CaseForward(s).value.0 == e {
      assert (CaseKind, s, e) in CaseTable();
    }
  }

  /** The dictionary literal, by kind of entity. */
  function ProgressTable(): (table: Table)
    ensures forall k, s, e :: Entry(table, k, s, e) == Progress(k, s, e)
  {
    var runs, validations, plans, cases := RunTable(), ValidationTable(), PlanTable(), CaseTable();
    var table := runs + validations + plans + cases;
    assert forall k, s, e :: Entry(table, k, s, e) == Progress(k, s, e) by {
      forall k, s, e
        ensures Entry(table, k, s, e) == Progress(k, s, e)
      {
        RunRows(k, s, e);
        ValidationRows(k, s, e);
        PlanRows(k, s, e);
        CaseRows(k, s, e);
      }
    }
    table
  }

  const PLAN_ACTIVE := [ScopeAllocated, Ingesting, WaitingReady, Ready]
  const CASE_ACTIVE := [Pending, Retrieving, Normalizing, Answering, Evaluating, Sealing]

  /** The table after the failure rows of the first `n` active states of `kind`. */
  ghost predicate FailuresAdded(before: Table, table: Table, kind: Kind, active: seq<State>) {
    forall k, s, e :: Entry(table, k, s, e) ==
      if k == kind && s in active && FailureOf(kind, e).Some? then FailureOf(kind, e) else Entry(before, k, s, e)
  }

  /** One loop of `_add_terminal_transitions`. */
  method AddFailures(before: Table, kind: Kind, active: seq<State>) returns (table: Table)
    requires kind == PlanKind || kind == CaseKind
    ensures FailuresAdded(before, table, kind, active)
  {
    table := before;
    for i := 0 to |active|
      invariant FailuresAdded(before, table, kind, active[..i])
    {
      var s, was := active[i], table;
      table := table[(kind, s, Fail) := Error];
      table := table[(kind, s, MarkUnsupported) := Unsupported];
      table := table[(kind, s, Cancel) := Cancelled];
      table := table[(kind, s, ExhaustBudget) := BudgetExceeded];
      if kind == PlanKind {
        table := table[(kind, s, MarkUnknownOutcome) := InterruptedUnknownOutcome];
      }
      OneStateAdded(was, table, kind, s);
      FailuresStep(before, was, table, kind, active, i);
    }
    assert active[..|active|] == active;
  }

  ghost predicate RowsOf(was: Table, table: Table, kind: Kind, state: State) {
    forall k, s, e :: Entry(table, k, s, e) ==
      if k == kind && s == state && FailureOf(kind, e).Some? then FailureOf(kind, e) else Entry(was, k, s, e)
  }

  lemma Added(t: Table, key: Key, value: State, k: Kind, s: State, e: Event)
    ensures Entry(t[key := value], k, s, e) == if (k, s, e) == key then Some(value) else Entry(t, k, s, e)
  {
  }

  lemma OneStateAdded(was: Table, table: Table, kind: Kind, state: State)
    requires kind == PlanKind || kind == CaseKind
    requires var common := was[(kind, state, Fail) := Error][(kind, state, MarkUnsupported) := Unsupported]
                              [(kind, state, Cancel) := Cancelled][(kind, state, ExhaustBudget) := BudgetExceeded];
             table == if kind == PlanKind
                      then common[(kind, state, MarkUnknownOutcome) := InterruptedUnknownOutcome] else common
    ensures RowsOf(was, table, kind, state)
  {
    var t1 := was[(kind, state, Fail) := Error];
    var t2 := t1[(kind, state, MarkUnsupported) := Unsupported];
    var t3 := t2[(kind, state, Cancel) := Cancelled];
    var t4 := t3[(kind, state, ExhaustBudget) := BudgetExceeded];
    forall k, s, e
      ensures Entry(table, k, s, e) ==
        if k == kind && s == state && FailureOf(kind, e).Some? then FailureOf(kind, e) else Entry(was, k, s, e)
    {
      Added(was, (kind, state, Fail), Error, k, s, e);
      Added(t1, (kind, state, MarkUnsupported), Unsupported, k, s, e);
      Added(t2, (kind, state, Cancel), Cancelled, k, s, e);
      Added(t3, (kind, state, ExhaustBudget), BudgetExceeded, k, s, e);
      Added(t4, (kind, state, MarkUnknownOutcome), InterruptedUnknownOutcome, k, s, e);
      RowCases(Entry(table, k, s, e), Entry(was, k, s, e), kind, state, k, s, e);
    }
  }

  lemma RowCases(entry: Option<State>, former: Option<State>, kind: Kind, state: State, k: Kind, s: State, e: Event)
    requires kind == PlanKind || kind == CaseKind
    requires entry ==
      if kind == PlanKind && (k, s, e) == (kind, state, MarkUnknownOutcome) then Some(InterruptedUnknownOutcome)
      else if (k, s, e) == (kind, state, ExhaustBudget) then Some(BudgetExceeded)
      else if (k, s, e) == (kind, state, Cancel) then Some(Cancelled)
      else if (k, s, e) == (kind, state, MarkUnsupported) then Some(Unsupported)
      else if (k, s, e) == (kind, state, Fail) then Some(Error)
      else former
    ensures entry == if k == kind && s == state && FailureOf(kind, e).Some? then FailureOf(kind, e) else former
  {
  }

  lemma FailuresStep(before: Table, was: Table, table: Table, kind: Kind, active: seq<State>, i: nat)
    requires i < |active| && FailuresAdded(before, was, kind, active[..i]) && RowsOf(was, table, kind, active[i])
    ensures FailuresAdded(before, table, kind, active[..i + 1])
  {
    assert active[..i + 1] == active[..i] + [active[i]];
  }

  /** The dictionary literal and the two loops together tabulate `Next`. */
  method BuildTable() returns (table: Table)
    ensures forall k, s, e :: Entry(table, k, s, e) == Next(k, s, e)
  {
    var plans := AddFailures(ProgressTable(), PlanKind, PLAN_ACTIVE);
    table := AddFailures(plans, CaseKind, CASE_ACTIVE);
    forall k, s, e
      ensures Entry(table, k, s, e) == Next(k, s, e)
    {
      ActiveStates(s);
      FailuresAreNotProgress(k, s, e);
    }
  }

  lemma ActiveStates(s: State)
    ensures s in PLAN_ACTIVE <==> ActivePlan(s)
    ensures s in CASE_ACTIVE <==> ActiveCase(s)
  {
  }

  lemma FailuresAreNotProgress(k: Kind, s: State, e: Event)
    ensures Progress(k, s, e).Some? ==> FailureOf(k, e).None?
  {
  }

  // ---- applying a transition ----

  datatype TransitionError = NotResumeSafe | IllegalTransition

  /** `apply_transition`; `resume` is `None` when the caller gives no disposition. */
  function Apply(table: Table, kind: Kind, s: State, e: Event,
                 resume: Option<Disposition>): Result<State, TransitionError> {
    if kind == RunKind && s == Interrupted && e == Resume && resume != Some(ResumeSafe) then Err(NotResumeSafe)
    else
      match Entry(table, kind, s, e)
      case Some(next) => Ok(next)
      case None => Err(IllegalTransition)
  }

  ghost predicate TableOk(table: Table) {
    forall k, s, e :: Entry(table, k, s, e) == Next(k, s, e)
  }

  type Input = (Event, Option<Disposition>)

  /** `apply_transition` on one kind of entity, as a step function. */
  function Stepper(table: Table, kind: Kind): (State, Input) -> Option<State> {
    (s: State, i: Input) =>
      match Apply(table, kind, s, i.0, i.1)
      case Ok(next) => Some(next)
      case Err(_) => None
  }

  function EventOf(i: Input): Event {
    i.0
  }

  lemma StepIsNext(table: Table, kind: Kind, s: State, i: Input)
    requires TableOk(table)
    ensures Stepper(table, kind)(s, i) ==
            if kind == RunKind && s == Interrupted && i.0 == Resume && i.1 != Some(ResumeSafe) then None
            else Next(kind, s, i.0)
  {
    assert Entry(table, kind, s, i.0) == Next(kind, s, i.0);
  }

  // ---- cases and plans: one way forward ----

  lemma {:induction false} CaseIsOneWay(table: Table)
    requires TableOk(table)
    ensures OneWay(Stepper(table, CaseKind), EventOf, CaseForward, Completed)
  {
    forall s, i
      ensures ForwardOrDead(Stepper(table, CaseKind), EventOf, CaseForward, Completed, s, i)
    {
      StepIsNext(table, CaseKind, s, i);
      CaseNext(s, i.0);
    }
  }

  lemma {:induction false} PlanIsOneWay(table: Table)
    requires TableOk(table)
    ensures OneWay(Stepper(table, PlanKind), EventOf, PlanForward, Sealed)
  {
    forall s, i
      ensures ForwardOrDead(Stepper(table, PlanKind), EventOf, PlanForward, Sealed, s, i)
    {
      StepIsNext(table, PlanKind, s, i);
      PlanNext(s, i.0);
    }
  }

  lemma CaseNext(s: State, e: Event)
    ensures if CaseForward(s).Some? && CaseForward(s).value.0 == e
            then Next(CaseKind, s, e) == Some(CaseForward(s).value.1)
            else Next(CaseKind, s, e).Some? ==> Failed(Next(CaseKind, s, e).value)
  {
  }

  lemma PlanNext(s: State, e: Event)
    ensures if PlanForward(s).Some? && PlanForward(s).value.0 == e
            then Next(PlanKind, s, e) == Some(PlanForward(s).value.1)
            else Next(PlanKind, s, e).Some? ==> Failed(Next(PlanKind, s, e).value)
  {
  }

  lemma {:induction false} CaseWordEnds(word: seq<Input>)
    requires |word| >= 3
    ensures ForwardWord(EventOf, CaseForward, Completed, Answering, word[3..]) <==>
              |word| == 6 && word[3].0 == StartEvaluate && word[4].0 == StartSeal && word[5].0 == CaseComplete
  {
    OneStepAt(EventOf, CaseForward, Completed, Answering, word, 3);
    if |word| >= 4 { CaseWordCloses(word); }
  }

  lemma {:induction false} CaseWordCloses(word: seq<Input>)
    requires |word| >= 4
    ensures ForwardWord(EventOf, CaseForward, Completed, Evaluating, word[4..]) <==>
              |word| == 6 && word[4].0 == StartSeal && word[5].0 == CaseComplete
  {
    OneStepAt(EventOf, CaseForward, Completed, Evaluating, word, 4);
    if |word| >= 5 { OneStepAt(EventOf, CaseForward, Completed, Sealing, word, 5); }
  }

  lemma {:induction false} CaseWordIs(word: seq<Input>)
    ensures ForwardWord(EventOf, CaseForward, Completed, Pending, word) <==>
              && |word| == 6 && word[0].0 == StartRetrieve && word[1].0 == Normalize && word[2].0 == StartAnswer
              && word[3].0 == StartEvaluate && word[4].0 == StartSeal && word[5].0 == CaseComplete
  {
    assert word[0..] == word;
    OneStepAt(EventOf, CaseForward, Completed, Pending, word, 0);
    if |word| >= 1 { CaseWordGoesOn(word); }
  }

  lemma {:induction false} CaseWordGoesOn(word: seq<Input>)
    requires |word| >= 1
    ensures ForwardWord(EventOf, CaseForward, Completed, Retrieving, word[1..]) <==>
              && |word| == 6 && word[1].0 == Normalize && word[2].0 == StartAnswer
              && word[3].0 == StartEvaluate && word[4].0 == StartSeal && word[5].0 == CaseComplete
  {
    OneStepAt(EventOf, CaseForward, Completed, Retrieving, word, 1);
    if |word| >= 2 { OneStepAt(EventOf, CaseForward, Completed, Normalizing, word, 2); }
    if |word| >= 3 { CaseWordEnds(word); }
  }

  lemma {:induction false} PlanWordIs(word: seq<Input>)
    ensures ForwardWord(EventOf, PlanForward, Sealed, Pending, word) <==>
              && |word| == 5 && word[0].0 == AllocateScope && word[1].0 == StartIngest && word[2].0 == WaitReady
              && word[3].0 == MarkReady && word[4].0 == SealPlan
  {
    assert word[0..] == word;
    OneStepAt(EventOf, PlanForward, Sealed, Pending, word, 0);
    if |word| >= 1 { OneStepAt(EventOf, PlanForward, Sealed, ScopeAllocated, word, 1); }
    if |word| >= 2 { PlanWordEnds(word); }
  }

  lemma {:induction false} PlanWordEnds(word: seq<Input>)
    requires |word| >= 2
    ensures ForwardWord(EventOf, PlanForward, Sealed, Ingesting, word[2..]) <==>
              |word| == 5 && word[2].0 == WaitReady && word[3].0 == MarkReady && word[4].0 == SealPlan
  {
    OneStepAt(EventOf, PlanForward, Sealed, Ingesting, word, 2);
    if |word| >= 3 { OneStepAt(EventOf, PlanForward, Sealed, WaitingReady, word, 3); }
    if |word| >= 4 { OneStepAt(EventOf, PlanForward, Sealed, Ready, word, 4); }
  }

  /** A case is completed by exactly one word of six events. */
  lemma CaseCompletedIff(table: Table, word: seq<Input>)
    requires TableOk(table)
    ensures Follow(Stepper(table, CaseKind), Pending, word) == Some(Completed) <==>
              && |word| == 6 && word[0].0 == StartRetrieve && word[1].0 == Normalize && word[2].0 == StartAnswer
              && word[3].0 == StartEvaluate && word[4].0 == StartSeal && word[5].0 == CaseComplete
  {
    CaseIsOneWay(table);
    ReachedForward(Stepper(table, CaseKind), EventOf, CaseForward, Completed, Pending, word);
    CaseWordIs(word);
  }

  /** An ingestion plan is sealed by exactly one word of five events. */
  lemma PlanSealedIff(table: Table, word: seq<Input>)
    requires TableOk(table)
    ensures Follow(Stepper(table, PlanKind), Pending, word) == Some(Sealed) <==>
              && |word| == 5 && word[0].0 == AllocateScope && word[1].0 == StartIngest && word[2].0 == WaitReady
              && word[3].0 == MarkReady && word[4].0 == SealPlan
  {
    PlanIsOneWay(table);
    ReachedForward(Stepper(table, PlanKind), EventOf, PlanForward, Sealed, Pending, word);
    PlanWordIs(word);
  }

  // ---- runs ----

  /** `(INTERRUPT, resume-safe RESUME)*` and then `FINALIZE, SEAL_RUN`. */
  predicate RunningTail(word: seq<Input>) {
    if |word| == 2 then word[0].0 == Finalize && word[1].0 == SealRun
    else |word| > 2 && word[0].0 == Interrupt && word[1] == (Resume, Some(ResumeSafe)) && RunningTail(word[2..])
  }

  /** What a word must be to lead from a run state to `FINALIZED`. */
  predicate RunWord(s: State, word: seq<Input>) {
    match s
    case Finalized => word == []
    case Finalizing => |word| == 1 && word[0].0 == SealRun
    case Running => RunningTail(word)
    case Interrupted => word != [] && word[0] == (Resume, Some(ResumeSafe)) && RunningTail(word[1..])
    case Ready => word != [] && word[0].0 == StartRun && RunningTail(word[1..])
    case Preflighting => |word| > 1 && word[0].0 == PreflightReady && word[1].0 == StartRun && RunningTail(word[2..])
    case Planned =>
      && |word| > 2 && word[0].0 == StartPreflight && word[1].0 == PreflightReady && word[2].0 == StartRun
      && RunningTail(word[3..])
    case _ => false
  }

  lemma Drops(word: seq<Input>)
    ensures |word| > 1 ==> word[1..][1..] == word[2..] && word[1..][0] == word[1]
    ensures |word| > 2 ==> word[1..][2..] == word[3..] && word[1..][1] == word[2]
  {
  }

  lemma RunWordStep(s: State, word: seq<Input>)
    requires word != []
    ensures RunWord(s, word) <==>
              && Next(RunKind, s, word[0].0).Some?
              && (s == Interrupted && word[0].0 == Resume ==> word[0].1 == Some(ResumeSafe))
              && RunWord(Next(RunKind, s, word[0].0).value, word[1..])
  {
    RunNext(s, word[0].0);
    if s == Running {
      RunningTailStep(word);
    } else {
      RunWordStepAside(s, word);
    }
  }

  lemma RunWordStepAside(s: State, word: seq<Input>)
    requires word != [] && s != Running
    ensures RunWord(s, word) <==>
              && Progress(RunKind, s, word[0].0).Some?
              && (s == Interrupted && word[0].0 == Resume ==> word[0].1 == Some(ResumeSafe))
              && RunWord(Progress(RunKind, s, word[0].0).value, word[1..])
  {
    Drops(word);
  }

  /** Progress is the only kind of step a run makes. */
  lemma RunNext(s: State, e: Event)
    ensures Next(RunKind, s, e) == Progress(RunKind, s, e)
  {
  }

  lemma RunningTailStep(word: seq<Input>)
    requires word != []
    ensures RunningTail(word) <==>
              || (word[0].0 == Finalize && |word| == 2 && word[1].0 == SealRun)
              || (&& word[0].0 == Interrupt && |word| > 1 && word[1] == (Resume, Some(ResumeSafe))
                  && RunningTail(word[2..]))
  {
  }

  lemma {:induction false} RunFinalizes(table: Table, s: State, word: seq<Input>)
    requires TableOk(table)
    ensures Follow(Stepper(table, RunKind), s, word) == Some(Finalized) <==> RunWord(s, word)
    decreases |word|
  {
    if word != [] {
      StepIsNext(table, RunKind, s, word[0]);
      RunWordStep(s, word);
      if Stepper(table, RunKind)(s, word[0]).Some? {
        RunFinalizes(table, Stepper(table, RunKind)(s, word[0]).value, word[1..]);
      }
    }
  }

  /** A run is finalized only by the fixed prefix, resume-safe interruptions, and the two closing events. */
  lemma RunFinalizedIff(table: Table, word: seq<Input>)
    requires TableOk(table)
    ensures Follow(Stepper(table, RunKind), Planned, word) == Some(Finalized) <==>
              && |word| >= 5 && word[0].0 == StartPreflight && word[1].0 == PreflightReady && word[2].0 == StartRun
              && RunningTail(word[3..])
  {
    RunFinalizes(table, Planned, word);
  }

  // ---- terminal states and bounds ----

  /** The states of an entity from which nothing leads on. */
  predicate Terminal(kind: Kind, s: State) {
    match kind
    case RunKind => s == Finalized || s == Rejected || s == Aborted || s == InfrastructureBlocked
    case ValidationKind => s == Validated || s == Invalid
    case PlanKind => s == Sealed || Failed(s)
    case CaseKind => s == Completed || (Failed(s) && s != InterruptedUnknownOutcome)
  }

  /** The other states an entity can be in. */
  predicate Live(kind: Kind, s: State) {
    match kind
    case RunKind =>
      s == Planned || s == Preflighting || s == Ready || s == Running || s == Finalizing || s == Interrupted
    case ValidationKind => s == NotRun
    case PlanKind => s == Pending || ActivePlan(s)
    case CaseKind => ActiveCase(s)
  }

  lemma RunSteps(s: State, e: Event)
    ensures Terminal(RunKind, s) ==> Next(RunKind, s, e).None?
    ensures Next(RunKind, s, e).Some? ==>
              Live(RunKind, Next(RunKind, s, e).value) || Terminal(RunKind, Next(RunKind, s, e).value)
  {
    RunStops(s, e);
    RunMoves(s, e);
  }

  lemma RunStops(s: State, e: Event)
    ensures Terminal(RunKind, s) ==> RunProgress(s, e).None?
  {
  }

  lemma RunMoves(s: State, e: Event)
    ensures RunProgress(s, e).Some? ==>
              Live(RunKind, RunProgress(s, e).value) || Terminal(RunKind, RunProgress(s, e).value)
  {
  }

  lemma ValidationSteps(s: State, e: Event)
    ensures Terminal(ValidationKind, s) ==> Next(ValidationKind, s, e).None?
    ensures Next(ValidationKind, s, e).Some? ==> Terminal(ValidationKind, Next(ValidationKind, s, e).value)
  {
  }

  lemma PlanSteps(s: State, e: Event)
    ensures Terminal(PlanKind, s) ==> Next(PlanKind, s, e).None?
    ensures Next(PlanKind, s, e).Some? ==>
              Live(PlanKind, Next(PlanKind, s, e).value) || Terminal(PlanKind, Next(PlanKind, s, e).value)
  {
    PlanNext(s, e);
    PlanStops(s, e);
    PlanMoves(s);
  }

  lemma PlanStops(s: State, e: Event)
    ensures Terminal(PlanKind, s) ==> Next(PlanKind, s, e).None?
  {
    if Terminal(PlanKind, s) { PlanIsOver(s); }
  }

  lemma PlanIsOver(s: State)
    requires Terminal(PlanKind, s)
    ensures PlanForward(s).None? && !ActivePlan(s)
  {
  }

  lemma PlanMoves(s: State)
    ensures PlanForward(s).Some? ==>
              Live(PlanKind, PlanForward(s).value.1) || Terminal(PlanKind, PlanForward(s).value.1)
  {
  }

  lemma CaseSteps(s: State, e: Event)
    ensures Terminal(CaseKind, s) ==> Next(CaseKind, s, e).None?
    ensures Live(CaseKind, s) && Next(CaseKind, s, e).Some? ==>
              Live(CaseKind, Next(CaseKind, s, e).value) || Terminal(CaseKind, Next(CaseKind, s, e).value)
  {
    CaseNext(s, e);
    CaseStops(s, e);
    CaseMoves(s, e);
  }

  lemma CaseStops(s: State, e: Event)
    ensures Terminal(CaseKind, s) ==> Next(CaseKind, s, e).None?
  {
    if Terminal(CaseKind, s) { CaseIsOver(s); }
  }

  lemma CaseIsOver(s: State)
    requires Terminal(CaseKind, s)
    ensures CaseForward(s).None? && !ActiveCase(s)
  {
  }

  lemma CaseMoves(s: State, e: Event)
    ensures CaseForward(s).Some? ==>
              Live(CaseKind, CaseForward(s).value.1) || Terminal(CaseKind, CaseForward(s).value.1)
    ensures FailureOf(CaseKind, e).Some? ==> FailureOf(CaseKind, e).value != InterruptedUnknownOutcome
  {
  }

  lemma Steps(kind: Kind, s: State, e: Event)
    ensures Terminal(kind, s) ==> Next(kind, s, e).None?
    ensures Live(kind, s) && Next(kind, s, e).Some? ==>
              Live(kind, Next(kind, s, e).value) || Terminal(kind, Next(kind, s, e).value)
  {
    match kind
    case RunKind => RunSteps(s, e);
    case ValidationKind => ValidationSteps(s, e);
    case PlanKind => PlanSteps(s, e);
    case CaseKind => CaseSteps(s, e);
  }

  lemma RankFalls(kind: Kind, s: State, e: Event)
    requires kind == CaseKind || kind == PlanKind
    requires Next(kind, s, e).Some?
    ensures Rank(Next(kind, s, e).value) < Rank(s)
  {
    if kind == PlanKind { PlanRankFalls(s, e); } else { CaseRankFalls(s, e); }
  }

  lemma PlanRankFalls(s: State, e: Event)
    requires Next(PlanKind, s, e).Some?
    ensures Rank(Next(PlanKind, s, e).value) < Rank(s)
  {
  }

  lemma CaseRankFalls(s: State, e: Event)
    requires Next(CaseKind, s, e).Some?
    ensures Rank(Next(CaseKind, s, e).value) < Rank(s)
  {
  }

  /** Terminal states absorb: no nonempty word leads anywhere from one. */
  lemma TerminalAbsorbs(table: Table, kind: Kind, s: State, word: seq<Input>)
    requires TableOk(table) && Terminal(kind, s) && word != []
    ensures Follow(Stepper(table, kind), s, word).None?
  {
    Steps(kind, s, word[0].0);
    StepIsNext(table, kind, s, word[0]);
  }

  /** Every state reached is live or terminal, and cases and plans stop within their rank. */
  lemma {:induction false} FollowBounded(table: Table, kind: Kind, s: State, word: seq<Input>)
    requires TableOk(table) && (Live(kind, s) || Terminal(kind, s)) && Follow(Stepper(table, kind), s, word).Some?
    ensures var t := Follow(Stepper(table, kind), s, word).value;
            && (Live(kind, t) || Terminal(kind, t))
            && (kind == CaseKind || kind == PlanKind ==> |word| + Rank(t) <= Rank(s))
    decreases |word|
  {
    if word != [] {
      var e := word[0].0;
      StepIsNext(table, kind, s, word[0]);
      Steps(kind, s, e);
      if kind == CaseKind || kind == PlanKind { RankFalls(kind, s, e); }
      FollowBounded(table, kind, Next(kind, s, e).value, word[1..]);
    }
  }
}
