/** The words that lead to each state. */
module StateWords {
  import opened Wrappers
  import opened Words
  import opened States

  /** Where a new entity that has met the events of `word` is; `None` if one of them was refused. */
  ghost function Reached(table: Table, kind: Kind, word: seq<Input>): Option<State> {
    Follow(Stepper(table, kind), Start(kind), word)
  }

  function Start(kind: Kind): State {
    match kind
    case RunKind => Planned
    case ValidationKind => NotRun
    case _ => Pending
  }

  lemma LastStep(table: Table, kind: Kind, word: seq<Input>)
    requires TableOk(table) && word != []
    ensures var n := |word| - 1;
            Reached(table, kind, word) ==
              match Reached(table, kind, word[..n])
              case None => None
              case Some(s) =>
                if kind == RunKind && s == Interrupted && word[n].0 == Resume && word[n].1 != Some(ResumeSafe) then None
                else Next(kind, s, word[n].0)
  {
    var n := |word| - 1;
    FollowLast(Stepper(table, kind), Start(kind), word);
    if Reached(table, kind, word[..n]).Some? {
      StepIsNext(table, kind, Reached(table, kind, word[..n]).value, word[n]);
    }
  }

  /** The word begins with the first `k` events of `path`. */
  predicate Along(word: seq<Input>, path: seq<Event>, k: int) {
    && 0 <= k <= |word| && k <= |path|
    && forall i :: 0 <= i < k ==> word[i].0 == path[i]
  }

  lemma AlongFront(word: seq<Input>, path: seq<Event>, n: nat)
    requires |word| == n + 1
    ensures Along(word, path, n) <==> Along(word[..n], path, n)
  {
  }

  lemma AlongStep(word: seq<Input>, path: seq<Event>, n: nat)
    requires |word| == n + 1 <= |path|
    ensures Along(word, path, n + 1) <==> Along(word[..n], path, n) && word[n].0 == path[n]
  {
  }

  // ---- cases ----

  const CASE_STATES := [Pending, Retrieving, Normalizing, Answering, Evaluating, Sealing, Completed]
  const CASE_PATH := [StartRetrieve, Normalize, StartAnswer, StartEvaluate, StartSeal, CaseComplete]

  /** The way leads into a state from one state only. */
  lemma CaseForwardInto(s: State, e: Event, k: nat)
    requires k < 7
    ensures CaseForward(s) == Some((e, CASE_STATES[k])) <==>
              k > 0 && s == CASE_STATES[k - 1] && e == CASE_PATH[k - 1]
    ensures !Failed(CASE_STATES[k])
  {
  }

  lemma CaseGoesForward(s: State, e: Event, to: State)
    requires !Failed(to)
    ensures Next(CaseKind, s, e) == Some(to) <==> CaseForward(s) == Some((e, to))
  {
    CaseNext(s, e);
  }

  lemma CasePredecessor(s: State, e: Event, k: nat)
    requires k < 7
    ensures Next(CaseKind, s, e) == Some(CASE_STATES[k]) <==>
              k > 0 && s == CASE_STATES[k - 1] && e == CASE_PATH[k - 1]
  {
    CaseForwardInto(s, e, k);
    CaseGoesForward(s, e, CASE_STATES[k]);
  }

  lemma CaseStepInto(table: Table, word: seq<Input>, k: nat)
    requires TableOk(table) && k < 7 && word != []
    ensures var n := |word| - 1;
            Reached(table, CaseKind, word) == Some(CASE_STATES[k]) <==>
              && k > 0 && Reached(table, CaseKind, word[..n]) == Some(CASE_STATES[k - 1])
              && word[n].0 == CASE_PATH[k - 1]
  {
    var n := |word| - 1;
    LastStep(table, CaseKind, word);
    if Reached(table, CaseKind, word[..n]).Some? {
      CasePredecessor(Reached(table, CaseKind, word[..n]).value, word[n].0, k);
    }
  }

  /** A case is `k` steps along its way after exactly the first `k` events of the path. */
  lemma {:induction false} CaseAlong(table: Table, word: seq<Input>, k: nat)
    requires TableOk(table) && k < 7
    ensures Reached(table, CaseKind, word) == Some(CASE_STATES[k]) <==> |word| == k && Along(word, CASE_PATH, k)
    decreases |word|
  {
    if word != [] {
      CaseStepInto(table, word, k);
      if k > 0 {
        CaseAlong(table, word[..|word| - 1], k - 1);
        if |word| == k {
          AlongStep(word, CASE_PATH, k - 1);
        }
      }
    } else {
      assert k > 0 ==> CASE_STATES[k] != Pending;
    }
  }

  /** The event that puts a case or plan into a failure state. */
  function CauseOf(s: State): Event
    requires Failed(s)
  {
    match s
    case Error => Fail
    case Unsupported => MarkUnsupported
    case Cancelled => Cancel
    case BudgetExceeded => ExhaustBudget
    case _ => MarkUnknownOutcome
  }

  lemma FailureIff(kind: Kind, e: Event, goal: State)
    requires Failed(goal)
    ensures FailureOf(kind, e) == Some(goal) <==>
              e == CauseOf(goal) && (goal == InterruptedUnknownOutcome ==> kind == PlanKind)
  {
  }

  lemma CaseNextIs(s: State, e: Event)
    ensures Next(CaseKind, s, e) ==
              if Forward(CaseForward(s), e).Some? then Forward(CaseForward(s), e)
              else if ActiveCase(s) then FailureOf(CaseKind, e) else None
  {
  }

  lemma CaseForwardIsNoFailure(s: State, e: Event)
    ensures Forward(CaseForward(s), e).Some? ==>
              !Failed(Forward(CaseForward(s), e).value) && FailureOf(CaseKind, e).None?
  {
  }

  lemma CaseFailure(s: State, e: Event, goal: State)
    requires Failed(goal)
    ensures Next(CaseKind, s, e) == Some(goal) <==>
              ActiveCase(s) && e == CauseOf(goal) && goal != InterruptedUnknownOutcome
  {
    CaseNextIs(s, e);
    CaseForwardIsNoFailure(s, e);
    FailureIff(CaseKind, e, goal);
  }

  lemma CaseFailsFrom(table: Table, word: seq<Input>, goal: State)
    requires TableOk(table) && Failed(goal) && word != []
    ensures var n := |word| - 1;
            Reached(table, CaseKind, word) == Some(goal) <==>
              && Reached(table, CaseKind, word[..n]).Some? && ActiveCase(Reached(table, CaseKind, word[..n]).value)
              && word[n].0 == CauseOf(goal) && goal != InterruptedUnknownOutcome
  {
    var n := |word| - 1;
    LastStep(table, CaseKind, word);
    if Reached(table, CaseKind, word[..n]).Some? {
      CaseFailure(Reached(table, CaseKind, word[..n]).value, word[n].0, goal);
    }
  }

  lemma CaseActive(s: State)
    ensures ActiveCase(s) <==> exists k :: 0 <= k < 6 && s == CASE_STATES[k]
  {
    assert CASE_STATES[0] == Pending && CASE_STATES[1] == Retrieving && CASE_STATES[2] == Normalizing;
    assert CASE_STATES[3] == Answering && CASE_STATES[4] == Evaluating && CASE_STATES[5] == Sealing;
  }

  lemma {:induction false} CaseIsActiveIff(table: Table, word: seq<Input>)
    requires TableOk(table)
    ensures (Reached(table, CaseKind, word).Some? && ActiveCase(Reached(table, CaseKind, word).value)) <==>
              |word| < 6 && Along(word, CASE_PATH, |word|)
  {
    var n := |word|;
    if n < 6 {
      CaseAlong(table, word, n);
      CaseActive(CASE_STATES[n]);
    }
    if Reached(table, CaseKind, word).Some? {
      CaseActive(Reached(table, CaseKind, word).value);
      if k: nat :| k < 6 && Reached(table, CaseKind, word).value == CASE_STATES[k] {
        CaseAlong(table, word, k);
      }
    }
  }

  /** A case fails after any of the first five events of its way, or none, by the event of that failure;
      an unknown outcome never befalls a case. */
  lemma {:induction false} CaseFailsIff(table: Table, word: seq<Input>, goal: State)
    requires TableOk(table) && Failed(goal)
    ensures Reached(table, CaseKind, word) == Some(goal) <==>
              && goal != InterruptedUnknownOutcome && 1 <= |word| <= 6
              && Along(word, CASE_PATH, |word| - 1) && word[|word| - 1].0 == CauseOf(goal)
  {
    if word != [] {
      var n := |word| - 1;
      CaseFailsFrom(table, word, goal);
      CaseIsActiveIff(table, word[..n]);
      AlongFront(word, CASE_PATH, n);
    }
  }

  // ---- plans ----

  const PLAN_STATES := [Pending, ScopeAllocated, Ingesting, WaitingReady, Ready, Sealed]
  const PLAN_PATH := [AllocateScope, StartIngest, WaitReady, MarkReady, SealPlan]

  /** The way leads into a state from one state only. */
  lemma PlanForwardInto(s: State, e: Event, k: nat)
    requires k < 6
    ensures PlanForward(s) == Some((e, PLAN_STATES[k])) <==>
              k > 0 && s == PLAN_STATES[k - 1] && e == PLAN_PATH[k - 1]
    ensures !Failed(PLAN_STATES[k])
  {
  }

  lemma PlanGoesForward(s: State, e: Event, to: State)
    requires !Failed(to)
    ensures Next(PlanKind, s, e) == Some(to) <==> PlanForward(s) == Some((e, to))
  {
    PlanNext(s, e);
  }

  lemma PlanPredecessor(s: State, e: Event, k: nat)
    requires k < 6
    ensures Next(PlanKind, s, e) == Some(PLAN_STATES[k]) <==>
              k > 0 && s == PLAN_STATES[k - 1] && e == PLAN_PATH[k - 1]
  {
    PlanForwardInto(s, e, k);
    PlanGoesForward(s, e, PLAN_STATES[k]);
  }

  lemma PlanStepInto(table: Table, word: seq<Input>, k: nat)
    requires TableOk(table) && k < 6 && word != []
    ensures var n := |word| - 1;
            Reached(table, PlanKind, word) == Some(PLAN_STATES[k]) <==>
              && k > 0 && Reached(table, PlanKind, word[..n]) == Some(PLAN_STATES[k - 1])
              && word[n].0 == PLAN_PATH[k - 1]
  {
    var n := |word| - 1;
    LastStep(table, PlanKind, word);
    if Reached(table, PlanKind, word[..n]).Some? {
      PlanPredecessor(Reached(table, PlanKind, word[..n]).value, word[n].0, k);
    }
  }

  /** A plan is `k` steps along its way after exactly the first `k` events of the path. */
  lemma {:induction false} PlanAlong(table: Table, word: seq<Input>, k: nat)
    requires TableOk(table) && k < 6
    ensures Reached(table, PlanKind, word) == Some(PLAN_STATES[k]) <==> |word| == k && Along(word, PLAN_PATH, k)
    decreases |word|
  {
    if word != [] {
      PlanStepInto(table, word, k);
      if k > 0 {
        PlanAlong(table, word[..|word| - 1], k - 1);
        if |word| == k {
          AlongStep(word, PLAN_PATH, k - 1);
        }
      }
    } else {
      assert k > 0 ==> PLAN_STATES[k] != Pending;
    }
  }

  lemma PlanNextIs(s: State, e: Event)
    ensures Next(PlanKind, s, e) ==
              if Forward(PlanForward(s), e).Some? then Forward(PlanForward(s), e)
              else if ActivePlan(s) then FailureOf(PlanKind, e) else None
  {
  }

  lemma PlanForwardIsNoFailure(s: State, e: Event)
    ensures Forward(PlanForward(s), e).Some? ==>
              !Failed(Forward(PlanForward(s), e).value) && FailureOf(PlanKind, e).None?
  {
  }

  lemma PlanFailure(s: State, e: Event, goal: State)
    requires Failed(goal)
    ensures Next(PlanKind, s, e) == Some(goal) <==>
              ActivePlan(s) && e == CauseOf(goal)
  {
    PlanNextIs(s, e);
    PlanForwardIsNoFailure(s, e);
    FailureIff(PlanKind, e, goal);
  }

  lemma PlanFailsFrom(table: Table, word: seq<Input>, goal: State)
    requires TableOk(table) && Failed(goal) && word != []
    ensures var n := |word| - 1;
            Reached(table, PlanKind, word) == Some(goal) <==>
              && Reached(table, PlanKind, word[..n]).Some? && ActivePlan(Reached(table, PlanKind, word[..n]).value)
              && word[n].0 == CauseOf(goal)
  {
    var n := |word| - 1;
    LastStep(table, PlanKind, word);
    if Reached(table, PlanKind, word[..n]).Some? {
      PlanFailure(Reached(table, PlanKind, word[..n]).value, word[n].0, goal);
    }
  }

  lemma PlanActive(s: State)
    ensures ActivePlan(s) <==> exists k :: 1 <= k < 5 && s == PLAN_STATES[k]
  {
    assert PLAN_STATES[1] == ScopeAllocated && PLAN_STATES[2] == Ingesting;
    assert PLAN_STATES[3] == WaitingReady && PLAN_STATES[4] == Ready;
  }

  lemma {:induction false} PlanIsActiveIff(table: Table, word: seq<Input>)
    requires TableOk(table)
    ensures (Reached(table, PlanKind, word).Some? && ActivePlan(Reached(table, PlanKind, word).value)) <==>
              1 <= |word| < 5 && Along(word, PLAN_PATH, |word|)
  {
    var n := |word|;
    if 1 <= n < 5 {
      PlanAlong(table, word, n);
      PlanActive(PLAN_STATES[n]);
    }
    if Reached(table, PlanKind, word).Some? {
      PlanActive(Reached(table, PlanKind, word).value);
      if k: nat :| 1 <= k < 5 && Reached(table, PlanKind, word).value == PLAN_STATES[k] {
        PlanAlong(table, word, k);
      }
    }
  }

  /** A plan fails after one to four events of its way by the event of that failure, never while it is pending. */
  lemma {:induction false} PlanFailsIff(table: Table, word: seq<Input>, goal: State)
    requires TableOk(table) && Failed(goal)
    ensures Reached(table, PlanKind, word) == Some(goal) <==>
              && 2 <= |word| <= 5
              && Along(word, PLAN_PATH, |word| - 1) && word[|word| - 1].0 == CauseOf(goal)
  {
    if word != [] {
      var n := |word| - 1;
      PlanFailsFrom(table, word, goal);
      PlanIsActiveIff(table, word[..n]);
      AlongFront(word, PLAN_PATH, n);
    }
  }

  // ---- runs and validations ----

  /** `(INTERRUPT, resume-safe RESUME)*` */
  predicate Interruptions(word: seq<Input>) {
    || word == []
    || (&& |word| >= 2 && word[|word| - 2].0 == Interrupt && word[|word| - 1] == (Resume, Some(ResumeSafe))
        && Interruptions(word[..|word| - 2]))
  }

  /** A run that is running: the preflight, the start, and interruptions. */
  predicate RunsAfter(word: seq<Input>) {
    && |word| >= 3 && word[0].0 == StartPreflight && word[1].0 == PreflightReady && word[2].0 == StartRun
    && Interruptions(word[3..])
  }

  lemma RunPredecessors(s: State, e: Event)
    ensures Next(RunKind, s, e) == Some(Preflighting) <==> s == Planned && e == StartPreflight
    ensures Next(RunKind, s, e) == Some(Ready) <==> s == Preflighting && e == PreflightReady
    ensures Next(RunKind, s, e) == Some(Rejected) <==> s == Preflighting && e == Reject
    ensures Next(RunKind, s, e) == Some(Interrupted) <==> s == Running && e == Interrupt
    ensures Next(RunKind, s, e) == Some(Running) <==> (s == Ready && e == StartRun) || (s == Interrupted && e == Resume)
    ensures Next(RunKind, s, e) == Some(Aborted) <==> s == Running && e == Abort
    ensures Next(RunKind, s, e) == Some(InfrastructureBlocked) <==> s == Running && e == BlockInfrastructure
    ensures Next(RunKind, s, e) != Some(Planned)
  {
    RunNext(s, e);
  }

  lemma {:induction false} RunBegins(table: Table, word: seq<Input>)
    requires TableOk(table)
    ensures Reached(table, RunKind, word) == Some(Planned) <==> word == []
    ensures Reached(table, RunKind, word) == Some(Preflighting) <==> |word| == 1 && word[0].0 == StartPreflight
    decreases |word|
  {
    if word != [] {
      LastStep(table, RunKind, word);
      RunBegins(table, word[..|word| - 1]);
      if Reached(table, RunKind, word[..|word| - 1]).Some? {
        RunPredecessors(Reached(table, RunKind, word[..|word| - 1]).value, word[|word| - 1].0);
      }
    }
  }

  lemma {:induction false} RunPreflights(table: Table, word: seq<Input>)
    requires TableOk(table)
    ensures Reached(table, RunKind, word) == Some(Ready) <==>
              |word| == 2 && word[0].0 == StartPreflight && word[1].0 == PreflightReady
    ensures Reached(table, RunKind, word) == Some(Rejected) <==>
              |word| == 2 && word[0].0 == StartPreflight && word[1].0 == Reject
  {
    if word != [] {
      LastStep(table, RunKind, word);
      RunBegins(table, word[..|word| - 1]);
      if Reached(table, RunKind, word[..|word| - 1]).Some? {
        RunPredecessors(Reached(table, RunKind, word[..|word| - 1]).value, word[|word| - 1].0);
      }
    }
  }

  lemma RunsAfterLonger(word: seq<Input>)
    requires |word| > 3
    ensures RunsAfter(word) <==>
              && |word| >= 5 && word[|word| - 2].0 == Interrupt && word[|word| - 1] == (Resume, Some(ResumeSafe))
              && RunsAfter(word[..|word| - 2])
  {
    var n := |word|;
    if n >= 5 {
      assert word[3..][..n - 5] == word[..n - 2][3..];
    }
  }

  lemma {:induction false} RunIsRunning(table: Table, word: seq<Input>)
    requires TableOk(table)
    ensures Reached(table, RunKind, word) == Some(Running) <==> RunsAfter(word)
    ensures Reached(table, RunKind, word) == Some(Interrupted) <==>
              word != [] && word[|word| - 1].0 == Interrupt && RunsAfter(word[..|word| - 1])
    decreases |word|
  {
    if word != [] {
      var n := |word| - 1;
      LastStep(table, RunKind, word);
      RunPreflights(table, word[..n]);
      RunIsRunning(table, word[..n]);
      if Reached(table, RunKind, word[..n]).Some? {
        RunPredecessors(Reached(table, RunKind, word[..n]).value, word[n].0);
      }
      if |word| > 3 {
        RunsAfterLonger(word);
        assert word[..n][..n - 1] == word[..n - 1];
      } else if |word| == 3 {
        assert word[3..] == [];
      }
    }
  }

  /** A run is rejected by its preflight only. */
  lemma RunRejectedIff(table: Table, word: seq<Input>)
    requires TableOk(table)
    ensures Reached(table, RunKind, word) == Some(Rejected) <==>
              |word| == 2 && word[0].0 == StartPreflight && word[1].0 == Reject
  {
    RunPreflights(table, word);
  }

  /** A running run, however often interrupted, is aborted by an abort and blocked by a block. */
  lemma RunStoppedIff(table: Table, word: seq<Input>)
    requires TableOk(table)
    ensures Reached(table, RunKind, word) == Some(Aborted) <==>
              word != [] && word[|word| - 1].0 == Abort && RunsAfter(word[..|word| - 1])
    ensures Reached(table, RunKind, word) == Some(InfrastructureBlocked) <==>
              word != [] && word[|word| - 1].0 == BlockInfrastructure && RunsAfter(word[..|word| - 1])
  {
    if word != [] {
      LastStep(table, RunKind, word);
      RunIsRunning(table, word[..|word| - 1]);
      if Reached(table, RunKind, word[..|word| - 1]).Some? {
        RunPredecessors(Reached(table, RunKind, word[..|word| - 1]).value, word[|word| - 1].0);
      }
    }
  }

  lemma ValidationPredecessors(s: State, e: Event)
    ensures Next(ValidationKind, s, e) == Some(Validated) <==> s == NotRun && e == ValidationPass
    ensures Next(ValidationKind, s, e) == Some(Invalid) <==> s == NotRun && e == ValidationFail
    ensures Next(ValidationKind, s, e) != Some(NotRun)
  {
    ValidationNext(s, e);
  }

  lemma ValidationNext(s: State, e: Event)
    ensures Next(ValidationKind, s, e) == ValidationProgress(s, e)
  {
  }

  /** A validation is decided by its one event. */
  lemma {:induction false} ValidationDecidedIff(table: Table, word: seq<Input>)
    requires TableOk(table)
    ensures Reached(table, ValidationKind, word) == Some(NotRun) <==> word == []
    ensures Reached(table, ValidationKind, word) == Some(Validated) <==> |word| == 1 && word[0].0 == ValidationPass
    ensures Reached(table, ValidationKind, word) == Some(Invalid) <==> |word| == 1 && word[0].0 == ValidationFail
    decreases |word|
  {
    if word != [] {
      LastStep(table, ValidationKind, word);
      ValidationDecidedIff(table, word[..|word| - 1]);
      if Reached(table, ValidationKind, word[..|word| - 1]).Some? {
        ValidationPredecessors(Reached(table, ValidationKind, word[..|word| - 1]).value, word[|word| - 1].0);
      }
    }
  }
}
