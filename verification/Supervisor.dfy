/** The parallel cell supervisor: `_execute_parallel_live_cells`.

    The environment is given in advance: how each cell's worker starts, reports, exits and closes, which waits
    raise, and at which looks the shared stop flag has been set by a signal or a failing worker.
 */
module Supervisors {
  import opened Wrappers
  import opened Lists

  datatype Cell = Cell(id: string, root: string)

  datatype Status = NotStarted | Completed | Failed

  datatype Outcome = Outcome(status: Status, root: Option<string>, detail: Option<string>)

  /** What `receiver.recv()` yields; a worker reports a failure under its own identifier. */
  datatype Message =
    | Completion(id: string, root: string)
    | Failure(errorType: string, text: string)
    | EndOfFile
    | Unreadable(text: string)
    | Malformed

  /** How starting a worker ends: it may raise with or without a process left behind. */
  datatype Start = Runs | RaisesRunning | RaisesAlone

  /** What a cell's worker does, and at which of the cell's errors its capsule exists. */
  datatype Life = Life(start: Start, message: Message, exit: int, interruptions: nat, closeRaises: bool,
                       rootExists: set<nat>)

  /** The waits that raise, or the looks at the flag that find it set by others, by number. */
  type Moments = set<nat>

  datatype Stage = Waiting | Running | NeverRan | Settling | Settled

  /** Where a cell is in its life, how often its worker was joined and closed, and how many errors it has caused. */
  datatype Progress = Progress(stage: Stage, joins: nat, closes: nat, errors: nat)

  /** Ghost: what happened, in order. */
  datatype Event = Admission(cell: nat) | Error

  datatype Result = Finished(completions: seq<(string, string)>) | Raised(outcomes: seq<Outcome>, errors: seq<string>)

  ghost predicate DistinctIds(cells: seq<Cell>) {
    forall i, j :: 0 <= i < j < |cells| ==> cells[i].id != cells[j].id
  }

  /** The worker exited cleanly after reporting its own identity. */
  predicate Succeeded(cell: Cell, life: Life) {
    life.message == Completion(cell.id, cell.root) && life.exit == 0
  }

  /** Nothing at all went wrong with the cell. */
  predicate Clean(cell: Cell, life: Life) {
    life.start.Runs? && Succeeded(cell, life) && life.interruptions == 0 && !life.closeRaises
  }

  function One(b: bool): nat {
    if b then 1 else 0
  }

  // ---- how many errors a cell has caused by the end of each of its steps ----

  function StartErrors(life: Life): nat {
    One(!life.start.Runs?)
  }

  function PipeErrors(life: Life): nat {
    StartErrors(life) + One(life.message.Unreadable?)
  }

  function JoinErrors(life: Life): nat {
    PipeErrors(life) + life.interruptions
  }

  function CloseErrors(life: Life): nat {
    JoinErrors(life) + One(life.closeRaises)
  }

  /** Every error of a cell that was admitted. */
  function Errors(cell: Cell, life: Life): nat {
    if life.start.RaisesAlone? then 1 else CloseErrors(life) + One(!Succeeded(cell, life))
  }

  /** Everything that goes wrong with the first `n` cells. */
  ghost function CellErrors(cells: seq<Cell>, lives: seq<Life>, n: nat): nat
    requires n <= |cells| == |lives|
  {
    if n == 0 then 0 else CellErrors(cells, lives, n - 1) + Errors(cells[n - 1], lives[n - 1])
  }

  /** How often one of the first `n` moments came. */
  ghost function Times(moments: Moments, n: nat): nat {
    if n == 0 then 0 else Times(moments, n - 1) + One(n - 1 in moments)
  }

  ghost predicate Ever(moments: Moments, n: nat) {
    exists k :: 0 <= k < n && k in moments
  }

  lemma {:induction false} TimesIffEver(moments: Moments, n: nat)
    ensures Times(moments, n) > 0 <==> Ever(moments, n)
  {
    if n > 0 {
      TimesIffEver(moments, n - 1);
      assert Ever(moments, n) <==> Ever(moments, n - 1) || n - 1 in moments;
    }
  }

  lemma {:induction false} NothingWrongIffClean(cells: seq<Cell>, lives: seq<Life>, n: nat)
    requires n <= |cells| == |lives|
    ensures CellErrors(cells, lives, n) == 0 <==> forall i :: 0 <= i < n ==> Clean(cells[i], lives[i])
  {
    if n > 0 {
      NothingWrongIffClean(cells, lives, n - 1);
      assert Errors(cells[n - 1], lives[n - 1]) == 0 <==> Clean(cells[n - 1], lives[n - 1]);
    }
  }

  /** The errors that the first `n` cells have caused so far. */
  ghost function ErrorsSoFar(progress: seq<Progress>, n: nat): nat
    requires n <= |progress|
  {
    if n == 0 then 0 else ErrorsSoFar(progress, n - 1) + progress[n - 1].errors
  }

  ghost function Total(progress: seq<Progress>): nat {
    ErrorsSoFar(progress, |progress|)
  }

  lemma {:induction false} ErrorsSoFarChange(progress: seq<Progress>, i: nat, p: Progress, n: nat)
    requires i < |progress| && n <= |progress|
    ensures ErrorsSoFar(progress[i := p], n) ==
            ErrorsSoFar(progress, n) + (if i < n then p.errors - progress[i].errors else 0)
  {
    if n > 0 {
      ErrorsSoFarChange(progress, i, p, n - 1);
    }
  }

  lemma TotalChanges(progress: seq<Progress>, i: nat, p: Progress)
    requires i < |progress|
    ensures Total(progress[i := p]) == Total(progress) - progress[i].errors + p.errors
  {
    ErrorsSoFarChange(progress, i, p, |progress|);
  }

  /** When the first `n` cells have caused all their errors and the others none. */
  lemma {:induction false} ErrorsAreCellErrors(cells: seq<Cell>, lives: seq<Life>, progress: seq<Progress>, n: nat,
                                               m: nat)
    requires m <= |progress| == |cells| == |lives|
    requires forall i :: 0 <= i < m ==> progress[i].errors == if i < n then Errors(cells[i], lives[i]) else 0
    ensures ErrorsSoFar(progress, m) == CellErrors(cells, lives, if m < n then m else n)
  {
    if m > 0 {
      ErrorsAreCellErrors(cells, lives, progress, n, m - 1);
    }
  }

  ghost predicate NoAdmissionAfterError(log: seq<Event>) {
    forall s, t :: 0 <= s < t < |log| && log[s].Error? ==> !log[t].Admission?
  }

  /** The flag is set exactly when there is an error or others set it, and nothing is admitted after an error. */
  ghost predicate Flagged(errors: nat, stop: bool, signalled: bool, log: seq<Event>) {
    (stop <==> errors > 0 || signalled) && (Error in log <==> errors > 0) && NoAdmissionAfterError(log)
  }

  lemma OneMoreError(errors: nat, stop: bool, signalled: bool, log: seq<Event>)
    requires Flagged(errors, stop, signalled, log)
    ensures Flagged(errors + 1, true, signalled, log + [Error])
  {
    assert Error == (log + [Error])[|log|];
  }

  lemma OneMoreAdmission(stop: bool, signalled: bool, log: seq<Event>, i: nat)
    requires Flagged(0, stop, signalled, log)
    ensures Flagged(0, stop, signalled, log + [Admission(i)])
  {
  }

  function Lookup<V>(m: map<string, V>, key: string): Option<V> {
    if key in m then Some(m[key]) else None
  }

  /** `cell.capsule_root if cell.capsule_root.exists() else None`, at the cell's `k`th error. */
  function ExistingRoot(cell: Cell, life: Life, k: nat): Option<string> {
    if k in life.rootExists then Some(cell.root) else None
  }

  /** The outcome of a cell that failed at its `k`th error. */
  ghost predicate FailedAt(cell: Cell, life: Life, k: nat, outcome: Outcome) {
    outcome.status == Failed && outcome.root == ExistingRoot(cell, life, k)
  }

  /** The final outcome of a cell that was joined. */
  ghost predicate FinalOutcome(cell: Cell, life: Life, outcome: Outcome) {
    if Succeeded(cell, life) then outcome.status == Completed && outcome.root == Some(cell.root)
    else FailedAt(cell, life, Errors(cell, life), outcome)
  }

  const UNTOUCHED := Outcome(NotStarted, None, None)

  /** A cell's outcome and completion agree with the life of its worker so far. */
  ghost predicate AccountedFor(cell: Cell, life: Life, p: Progress, outcome: Outcome, completion: Option<string>) {
    && (completion == if outcome.status == Completed then Some(cell.root) else None)
    && (outcome.detail.Some? <==> p.errors > 0)
    && (p.stage.NeverRan? <==> life.start.RaisesAlone? && !p.stage.Waiting?)
    && match p.stage
       case Waiting => p == Progress(Waiting, 0, 0, 0) && outcome == UNTOUCHED
       case Running =>
         && p == Progress(Running, 0, 0, StartErrors(life))
         && if life.start.Runs? then outcome == UNTOUCHED else FailedAt(cell, life, 1, outcome)
       case NeverRan => p == Progress(NeverRan, 0, 0, 1) && FailedAt(cell, life, 1, outcome)
       case Settling => outcome.status != Completed
       case Settled => p == Progress(Settled, 1, 1, Errors(cell, life)) && FinalOutcome(cell, life, outcome)
  }

  ghost predicate Books(cells: seq<Cell>, lives: seq<Life>, progress: seq<Progress>, outcomes: map<string, Outcome>,
                        completions: map<string, string>)
  {
    && |lives| == |progress| == |cells| && DistinctIds(cells)
    && forall i :: 0 <= i < |cells| ==>
         && cells[i].id in outcomes
         && AccountedFor(cells[i], lives[i], progress[i], outcomes[cells[i].id], Lookup(completions, cells[i].id))
  }

  /** Distinct identifiers: changing one cell's entry changes no other's. */
  lemma CellChanges(cells: seq<Cell>, lives: seq<Life>, progress: seq<Progress>, outcomes: map<string, Outcome>,
                    completions: map<string, string>, i: nat, p: Progress, outcome: Outcome)
    requires Books(cells, lives, progress, outcomes, completions) && i < |cells|
    requires AccountedFor(cells[i], lives[i], p, outcome, Lookup(completions, cells[i].id))
    ensures Books(cells, lives, progress[i := p], outcomes[cells[i].id := outcome], completions)
  {
    var progress', outcomes' := progress[i := p], outcomes[cells[i].id := outcome];
    forall k | 0 <= k < |cells|
      ensures cells[k].id in outcomes'
      ensures AccountedFor(cells[k], lives[k], progress'[k], outcomes'[cells[k].id], Lookup(completions, cells[k].id))
    {
      if k != i {
        assert cells[k].id != cells[i].id;
        assert progress'[k] == progress[k] && outcomes'[cells[k].id] == outcomes[cells[k].id];
      }
    }
  }

  lemma ProgressChanges(cells: seq<Cell>, lives: seq<Life>, progress: seq<Progress>, outcomes: map<string, Outcome>,
                        completions: map<string, string>, i: nat, p: Progress)
    requires Books(cells, lives, progress, outcomes, completions) && i < |cells|
    requires AccountedFor(cells[i], lives[i], p, outcomes[cells[i].id], Lookup(completions, cells[i].id))
    ensures Books(cells, lives, progress[i := p], outcomes, completions)
  {
    CellChanges(cells, lives, progress, outcomes, completions, i, p, outcomes[cells[i].id]);
    assert outcomes[cells[i].id := outcomes[cells[i].id]] == outcomes;
  }

  lemma CellCompletes(cells: seq<Cell>, lives: seq<Life>, progress: seq<Progress>, outcomes: map<string, Outcome>,
                      completions: map<string, string>, i: nat, p: Progress, outcome: Outcome)
    requires Books(cells, lives, progress, outcomes, completions) && i < |cells|
    requires AccountedFor(cells[i], lives[i], p, outcome, Some(cells[i].root))
    ensures Books(cells, lives, progress[i := p], outcomes[cells[i].id := outcome],
                  completions[cells[i].id := cells[i].root])
  {
    var progress', outcomes' := progress[i := p], outcomes[cells[i].id := outcome];
    var completions' := completions[cells[i].id := cells[i].root];
    forall k | 0 <= k < |cells|
      ensures cells[k].id in outcomes'
      ensures AccountedFor(cells[k], lives[k], progress'[k], outcomes'[cells[k].id], Lookup(completions', cells[k].id))
    {
      if k != i {
        assert cells[k].id != cells[i].id;
        assert progress'[k] == progress[k] && outcomes'[cells[k].id] == outcomes[cells[k].id];
        assert Lookup(completions', cells[k].id) == Lookup(completions, cells[k].id);
      }
    }
  }

  /** The cells that have not been admitted are exactly the tail of the input. */
  ghost predicate TailWaits(progress: seq<Progress>, next: nat) {
    && next <= |progress|
    && forall i :: 0 <= i < |progress| ==> (progress[i].stage.Waiting? <==> i >= next)
  }

  /** The list of workers is the set of running cells, within the cap. */
  ghost predicate WorkersAreRunning(progress: seq<Progress>, workers: seq<nat>, limit: nat) {
    && |workers| <= limit && Distinct(workers)
    && (forall w :: w in workers ==> w < |progress| && progress[w].stage.Running?)
    && forall i :: 0 <= i < |progress| && progress[i].stage.Running? ==> i in workers
  }

  lemma WorkerJoins(progress: seq<Progress>, workers: seq<nat>, limit: nat, i: nat, p: Progress)
    requires WorkersAreRunning(progress, workers, limit) && i < |progress| && |workers| < limit
    requires !progress[i].stage.Running? && p.stage.Running?
    ensures WorkersAreRunning(progress[i := p], workers + [i], limit)
  {
    var more := workers + [i];
    assert i == more[|workers|];
    forall k | 0 <= k < |progress| && progress[i := p][k].stage.Running?
      ensures k in more
    {
      if k != i {
        assert progress[k].stage.Running?;
      }
    }
  }

  lemma WorkerLeaves(progress: seq<Progress>, workers: seq<nat>, limit: nat, i: nat, p: Progress)
    requires WorkersAreRunning(progress, workers, limit) && i in workers && !p.stage.Running?
    ensures WorkersAreRunning(progress[i := p], Without(workers, i), limit)
  {
    WithoutRemoves(workers, i);
  }

  /** `list.remove` */
  function Without(workers: seq<nat>, w: nat): (rest: seq<nat>)
    requires w in workers
    ensures |rest| == |workers| - 1
  {
    if workers[0] == w then workers[1..] else [workers[0]] + Without(workers[1..], w)
  }

  lemma {:induction false} WithoutRemoves(workers: seq<nat>, w: nat)
    requires w in workers && Distinct(workers)
    ensures Distinct(Without(workers, w))
    ensures forall x :: x in Without(workers, w) <==> x in workers && x != w
  {
    assert workers == [workers[0]] + workers[1..];
    if workers[0] == w {
      assert forall a :: 0 <= a < |workers[1..]| ==> workers[1..][a] == workers[a + 1];
    } else {
      var rest := workers[1..];
      assert forall a :: 0 <= a < |rest| ==> rest[a] == workers[a + 1];
      WithoutRemoves(rest, w);
      assert workers[0] !in rest;
    }
  }

  function OutcomesInOrder(cells: seq<Cell>, outcomes: map<string, Outcome>): (r: seq<Outcome>)
    requires forall i :: 0 <= i < |cells| ==> cells[i].id in outcomes
    ensures |r| == |cells| && forall i :: 0 <= i < |r| ==> r[i] == outcomes[cells[i].id]
  {
    seq(|cells|, i requires 0 <= i < |cells| => outcomes[cells[i].id])
  }

  function CompletionsInOrder(cells: seq<Cell>, completions: map<string, string>): (r: seq<(string, string)>)
    requires forall i :: 0 <= i < |cells| ==> cells[i].id in completions
    ensures |r| == |cells| && forall i :: 0 <= i < |r| ==> r[i] == (cells[i].id, completions[cells[i].id])
  {
    seq(|cells|, i requires 0 <= i < |cells| => (cells[i].id, completions[cells[i].id]))
  }

  class Supervisor {
    const cells: seq<Cell>
    const limit: nat
    const lives: seq<Life>
    const waits: Moments
    const signals: Moments
    var workers: seq<nat>
    var errors: seq<string>
    var outcomes: map<string, Outcome>
    var nextCell: nat
    var stop: bool
    var completions: map<string, string>
    /** The answers of the environment are numbered by the waits, by the looks at the flag and by a cell's errors. */
    var waited: nat
    var looks: nat
    var progress: seq<Progress>
    ghost var log: seq<Event>

    ghost predicate Valid()
      reads this
    {
      && limit >= 1 && Books(cells, lives, progress, outcomes, completions)
      && TailWaits(progress, nextCell) && WorkersAreRunning(progress, workers, limit)
      && Flagged(|errors|, stop, Ever(signals, looks), log)
    }

    /** The errors that no cell has caused. */
    ghost function Others(): int
      reads this
    {
      |errors| - Total(progress)
    }

    ghost function Measure(): int
      reads this
    {
      2 * (|cells| - nextCell) + |workers|
    }

    constructor (cells: seq<Cell>, limit: nat, lives: seq<Life>, waits: Moments, signals: Moments)
      requires DistinctIds(cells) && limit >= 1 && |lives| == |cells|
      ensures Fresh() && this.cells == cells && this.limit == limit
      ensures this.lives == lives && this.waits == waits && this.signals == signals
      ensures log == [] && looks == 0
    {
      this.cells, this.limit, this.lives, this.waits, this.signals := cells, limit, lives, waits, signals;
      workers, errors, nextCell, stop, completions := [], [], 0, false, map[];
      outcomes := AllUntouched(cells);
      progress := seq(|cells|, _ => Progress(Waiting, 0, 0, 0));
      waited, looks, log := 0, 0, [];
      new;
      NothingYet(cells, lives, progress);
    }

    /** `stop_event.is_set()`: others may have set the flag; nothing clears it. */
    method Look() returns (flagged: bool)
      requires Valid()
      modifies this`stop, this`looks
      ensures Valid() && looks == old(looks) + 1 && flagged == stop == (old(stop) || old(looks) in signals)
    {
      if looks in signals { stop := true; }
      assert Ever(signals, looks + 1) <==> Ever(signals, looks) || looks in signals;
      looks := looks + 1;
      flagged := stop;
    }

    // ---- admission ----

    method StartWorker()
      requires Valid() && nextCell < |cells| && |workers| < limit && errors == [] && lives[nextCell].start.Runs?
      modifies this`workers, this`nextCell, this`progress, this`log
      ensures Valid() && nextCell == old(nextCell) + 1 && workers == old(workers) + [old(nextCell)]
      ensures progress == old(progress)[old(nextCell) := AtStart(lives[old(nextCell)])]
      ensures log == old(log) + [Admission(old(nextCell))]
    {
      var p := AtStart(lives[nextCell]);
      OneMoreAdmission(stop, Ever(signals, looks), log, nextCell);
      ProgressChanges(cells, lives, progress, outcomes, completions, nextCell, p);
      WorkerJoins(progress, workers, limit, nextCell, p);
      workers := workers + [nextCell];
      progress := progress[nextCell := p];
      log := log + [Admission(nextCell)];
      nextCell := nextCell + 1;
    }

    /** The start raised; the worker is kept only if there is a process. */
    method StartRaised()
      requires Valid() && nextCell < |cells| && |workers| < limit && errors == [] && !lives[nextCell].start.Runs?
      modifies this`workers, this`nextCell, this`progress, this`log, this`errors, this`stop, this`outcomes
      ensures Valid() && nextCell == old(nextCell) + 1 && |errors| == 1
      ensures workers == old(workers) + Kept(lives[old(nextCell)], old(nextCell))
      ensures progress == old(progress)[old(nextCell) := AtStart(lives[old(nextCell)])]
      ensures log == old(log) + [Admission(old(nextCell)), Error]
    {
      var i := nextCell;
      var outcome := Outcome(Failed, ExistingRoot(cells[i], lives[i], 1), Some("admission failed"));
      AdmissionFailed(outcome);
      workers, nextCell := workers + Kept(lives[i], i), i + 1;
      errors, stop, log := errors + ["admission failed"], true, log + [Admission(i), Error];
      outcomes, progress := outcomes[cells[i].id := outcome], progress[i := AtStart(lives[i])];
    }

    lemma AdmissionFailed(outcome: Outcome)
      requires Valid() && nextCell < |cells| && |workers| < limit && errors == [] && !lives[nextCell].start.Runs?
      requires outcome.detail.Some? && FailedAt(cells[nextCell], lives[nextCell], 1, outcome)
      ensures var progress' := progress[nextCell := AtStart(lives[nextCell])];
              && Books(cells, lives, progress', outcomes[cells[nextCell].id := outcome], completions)
              && WorkersAreRunning(progress', workers + Kept(lives[nextCell], nextCell), limit)
              && TailWaits(progress', nextCell + 1)
              && Flagged(1, true, Ever(signals, looks), log + [Admission(nextCell), Error])
    {
      var p := AtStart(lives[nextCell]);
      CellChanges(cells, lives, progress, outcomes, completions, nextCell, p, outcome);
      OneMoreAdmission(stop, Ever(signals, looks), log, nextCell);
      OneMoreError(0, stop, Ever(signals, looks), log + [Admission(nextCell)]);
      assert log + [Admission(nextCell)] + [Error] == log + [Admission(nextCell), Error];
      if p.stage.Running? {
        WorkerJoins(progress, workers, limit, nextCell, p);
      } else {
        assert workers + [] == workers;
      }
    }

    /** Start the worker of the next cell; the three ways the `try` block ends. */
    method AdmitNext() returns (started: bool)
      requires Valid() && nextCell < |cells| && |workers| < limit && errors == []
      modifies this`workers, this`nextCell, this`progress, this`log, this`errors, this`stop, this`outcomes
      ensures Valid() && nextCell == old(nextCell) + 1
      ensures log == old(log) + [Admission(old(nextCell))] + (if started then [] else [Error])
      ensures started <==> lives[old(nextCell)].start.Runs?
      ensures |errors| == One(!started) && (started ==> stop == old(stop))
      ensures workers == old(workers) + Kept(lives[old(nextCell)], old(nextCell))
      ensures progress == old(progress)[old(nextCell) := AtStart(lives[old(nextCell)])]
    {
      started := lives[nextCell].start.Runs?;
      if started {
        StartWorker();
      } else {
        StartRaised();
      }
    }

    method AdmitOne(ghost before: seq<Progress>) returns (started: bool)
      requires Valid() && nextCell < |cells| && |workers| < limit && errors == []
      requires Idle(progress) && SettledKept(before, progress)
      modifies this`workers, this`nextCell, this`progress, this`log, this`errors, this`stop, this`outcomes
      ensures Valid() && nextCell == old(nextCell) + 1 && |workers| <= |old(workers)| + 1 && old(log) <= log
      ensures Idle(progress) && SettledKept(before, progress) && Others() == old(Others())
      ensures if started then stop == old(stop) else stop
    {
      TotalChanges(progress, nextCell, AtStart(lives[nextCell]));
      AdmissionKeeps(before, progress, nextCell, AtStart(lives[nextCell]));
      started := AdmitNext();
    }

    /** `admit_cells` */
    method AdmitCells()
      requires Valid() && Idle(progress)
      modifies this`workers, this`nextCell, this`progress, this`log, this`errors, this`stop, this`outcomes, this`looks
      ensures Valid() && Idle(progress) && Measure() <= old(Measure())
      ensures nextCell == |cells| || |workers| == limit || stop
      ensures old(stop) ==> nextCell == old(nextCell) && workers == old(workers) && progress == old(progress)
      ensures old(nextCell) <= nextCell && old(log) <= log
      ensures SettledKept(old(progress), progress) && Others() == old(Others())
    {
      var flagged := Look();
      while nextCell < |cells| && |workers| < limit && errors == [] && !flagged
        invariant Valid() && Idle(progress) && flagged == stop && Measure() <= old(Measure())
        invariant old(stop) ==>
                    stop && nextCell == old(nextCell) && workers == old(workers) && progress == old(progress)
        invariant old(nextCell) <= nextCell && old(log) <= log && SettledKept(old(progress), progress)
        invariant Others() == old(Others())
        decreases |cells| - nextCell
      {
        var started := AdmitOne(old(progress));
        if !started { break; }
        flagged := Look();
      }
    }

    // ---- settling one ready worker ----

    /** `workers.remove(...)` */
    method Leave(i: nat)
      requires Valid() && i in workers
      modifies this`workers, this`progress
      ensures Valid() && i < |cells| && workers == Without(old(workers), i)
      ensures progress == old(progress)[i := Progress(Settling, 0, 0, StartErrors(lives[i]))]
    {
      Move(i, Progress(Settling, 0, 0, StartErrors(lives[i])));
      WorkerLeaves(progress, workers, limit, i, Progress(Settling, 0, 0, StartErrors(lives[i])));
      workers := Without(workers, i);
      progress := progress[i := Progress(Settling, 0, 0, StartErrors(lives[i]))];
    }

    /** A step of a cell that causes no error and leaves its outcome alone. */
    lemma Move(i: nat, p: Progress)
      requires Valid() && i < |cells| && (progress[i].stage.Running? || progress[i].stage.Settling?)
      requires p.stage.Settling? && p.errors == progress[i].errors
      ensures Books(cells, lives, progress[i := p], outcomes, completions)
      ensures TailWaits(progress[i := p], nextCell)
      ensures progress[i].stage.Settling? ==> WorkersAreRunning(progress[i := p], workers, limit)
    {
      ProgressChanges(cells, lives, progress, outcomes, completions, i, p);
    }

    /** An error of a cell that is being settled. */
    lemma Charge(i: nat, p: Progress, outcome: Outcome)
      requires Valid() && i < |cells| && progress[i].stage.Settling?
      requires p.stage.Settling? && p.errors == progress[i].errors + 1
      requires outcome.status != Completed && outcome.detail.Some?
      requires outcome.status == Failed || outcome.status == outcomes[cells[i].id].status
      ensures Books(cells, lives, progress[i := p], outcomes[cells[i].id := outcome], completions)
      ensures TailWaits(progress[i := p], nextCell) && WorkersAreRunning(progress[i := p], workers, limit)
      ensures Flagged(|errors| + 1, true, Ever(signals, looks), log + [Error])
    {
      CellChanges(cells, lives, progress, outcomes, completions, i, p, outcome);
      OneMoreError(|errors|, stop, Ever(signals, looks), log);
    }

    /** `errors.append(error); stop_event.set(); outcomes[...] = ...` for a cell that is being settled. */
    method FailCell(i: nat, error: string)
      requires Valid() && i < |cells| && progress[i].stage.Settling?
      modifies this`errors, this`stop, this`log, this`outcomes, this`progress
      ensures Valid()
      ensures progress == old(progress)[i := old(progress)[i].(errors := old(progress)[i].errors + 1)]
      ensures outcomes == old(outcomes)[cells[i].id :=
                Outcome(Failed, ExistingRoot(cells[i], lives[i], progress[i].errors), Some(error))]
      ensures errors == old(errors) + [error] && log == old(log) + [Error]
    {
      var p := progress[i].(errors := progress[i].errors + 1);
      var outcome := Outcome(Failed, ExistingRoot(cells[i], lives[i], p.errors), Some(error));
      Charge(i, p, outcome);
      errors := errors + [error];
      stop := true;
      outcomes := outcomes[cells[i].id := outcome];
      progress := progress[i := p];
      log := log + [Error];
    }

    /** `join` until it is not interrupted; every interruption is recorded. */
    method Join(i: nat)
      requires Valid() && i < |cells| && progress[i].stage.Settling?
      modifies this`errors, this`stop, this`log, this`outcomes, this`progress
      ensures Valid() && old(log) <= log
      ensures |errors| == |old(errors)| + lives[i].interruptions
      ensures progress == old(progress)[i := old(progress)[i].(joins := old(progress)[i].joins + 1,
                                              errors := old(progress)[i].errors + lives[i].interruptions)]
    {
      for k := 0 to lives[i].interruptions
        invariant Valid() && old(log) <= log && |errors| == |old(errors)| + k
        invariant progress == old(progress)[i := old(progress)[i].(errors := old(progress)[i].errors + k)]
      {
        FailCell(i, "join was interrupted");
      }
      Move(i, progress[i].(joins := progress[i].joins + 1));
      progress := progress[i := progress[i].(joins := progress[i].joins + 1)];
    }

    /** `close`; a failure is recorded and added to the outcome's detail, which leaves its status and root. */
    method Close(i: nat)
      requires Valid() && i < |cells| && progress[i].stage.Settling?
      modifies this`errors, this`stop, this`log, this`outcomes, this`progress
      ensures Valid() && old(log) <= log && cells[i].id in old(outcomes)
      ensures |errors| == |old(errors)| + One(lives[i].closeRaises)
      ensures progress == old(progress)[i := old(progress)[i].(closes := old(progress)[i].closes + 1,
                                              errors := old(progress)[i].errors + One(lives[i].closeRaises))]
      ensures exists detail :: outcomes == old(outcomes)[cells[i].id :=
                old(outcomes)[cells[i].id].(detail := detail)]
    {
      var p := progress[i].(closes := progress[i].closes + 1);
      Move(i, p);
      progress := progress[i := p];
      if lives[i].closeRaises {
        CloseRaised(i, "worker close failed");
      } else {
        assert outcomes == outcomes[cells[i].id := outcomes[cells[i].id].(detail := outcomes[cells[i].id].detail)];
      }
    }

    /** The error is added to the outcome's detail. */
    method CloseRaised(i: nat, error: string)
      requires Valid() && i < |cells| && progress[i].stage.Settling?
      modifies this`errors, this`stop, this`log, this`outcomes, this`progress
      ensures Valid() && log == old(log) + [Error] && cells[i].id in old(outcomes) && |errors| == |old(errors)| + 1
      ensures progress == old(progress)[i := old(progress)[i].(errors := old(progress)[i].errors + 1)]
      ensures exists detail :: outcomes == old(outcomes)[cells[i].id :=
                old(outcomes)[cells[i].id].(detail := detail)]
    {
      var current, p := outcomes[cells[i].id], progress[i].(errors := progress[i].errors + 1);
      var detail := match current.detail case None => error case Some(d) => d + "; " + error;
      var outcome := current.(detail := Some(detail));
      Charge(i, p, outcome);
      errors := errors + [error];
      stop := true;
      outcomes := outcomes[cells[i].id := outcome];
      progress := progress[i := p];
      log := log + [Error];
    }

    /** The worker reported its own identity and exited cleanly. */
    method Complete(i: nat)
      requires Valid() && i < |cells| && progress[i] == Progress(Settling, 1, 1, CloseErrors(lives[i]))
      requires Succeeded(cells[i], lives[i])
      modifies this`completions, this`outcomes, this`progress
      ensures Valid() && progress == old(progress)[i := Progress(Settled, 1, 1, Errors(cells[i], lives[i]))]
    {
      var id, p := cells[i].id, Progress(Settled, 1, 1, Errors(cells[i], lives[i]));
      var outcome := Outcome(Completed, Some(cells[i].root), outcomes[id].detail);
      CellCompletes(cells, lives, progress, outcomes, completions, i, p, outcome);
      completions := completions[id := cells[i].root];
      outcomes := outcomes[id := outcome];
      progress := progress[i := p];
    }

    /** Everything else is an error and a failed outcome. */
    method Fail(i: nat, error: string)
      requires Valid() && i < |cells| && progress[i] == Progress(Settling, 1, 1, CloseErrors(lives[i]))
      requires !Succeeded(cells[i], lives[i])
      modifies this`errors, this`stop, this`log, this`outcomes, this`progress
      ensures Valid() && old(log) <= log && |errors| == |old(errors)| + 1
      ensures progress == old(progress)[i := Progress(Settled, 1, 1, Errors(cells[i], lives[i]))]
    {
      FailCell(i, error);
      var p := Progress(Settled, 1, 1, Errors(cells[i], lives[i]));
      ProgressChanges(cells, lives, progress, outcomes, completions, i, p);
      progress := progress[i := p];
    }

    /** The verdict on a joined worker. */
    method Judge(i: nat, message: Message)
      requires Valid() && i < |cells| && progress[i] == Progress(Settling, 1, 1, CloseErrors(lives[i]))
      requires Judged(lives[i], message)
      modifies this`errors, this`stop, this`log, this`outcomes, this`completions, this`progress
      ensures Valid() && old(log) <= log && |errors| == |old(errors)| + One(!Succeeded(cells[i], lives[i]))
      ensures progress == old(progress)[i := Progress(Settled, 1, 1, Errors(cells[i], lives[i]))]
    {
      if message.Completion? {
        if message.id != cells[i].id || message.root != cells[i].root {
          Fail(i, "mismatched completion identity");
        } else {
          Complete(i);
        }
      } else if message.Failure? {
        Fail(i, message.errorType + ": " + message.text);
      } else {
        Fail(i, "malformed worker result");
      }
    }

    /** Leave the list, read the pipe and join. */
    method Collect(i: nat) returns (message: Message)
      requires Valid() && i in workers
      modifies this`workers, this`errors, this`stop, this`log, this`outcomes, this`progress
      ensures Valid() && i < |cells| && workers == Without(old(workers), i) && old(log) <= log
      ensures |errors| == |old(errors)| + JoinErrors(lives[i]) - StartErrors(lives[i])
      ensures progress == old(progress)[i := Progress(Settling, 1, 0, JoinErrors(lives[i]))]
      ensures if lives[i].message.EndOfFile? then message.Failure? else message == lives[i].message
    {
      Leave(i);
      message := lives[i].message;
      if message.EndOfFile? {
        message := Failure("WorkerExit", "no result message");
      } else if message.Unreadable? {
        FailCell(i, "supervision failed");
      }
      Join(i);
    }

    /** The body of the settling loop for one ready worker. */
    method Settle(i: nat)
      requires Valid() && i in workers
      modifies this`workers, this`errors, this`stop, this`log, this`outcomes, this`completions, this`progress
      ensures Valid() && i < |cells| && workers == Without(old(workers), i) && old(log) <= log
      ensures |errors| == |old(errors)| + Errors(cells[i], lives[i]) - StartErrors(lives[i])
      ensures old(progress)[i].errors == StartErrors(lives[i])
      ensures progress == old(progress)[i := Progress(Settled, 1, 1, Errors(cells[i], lives[i]))]
    {
      var message := Collect(i);
      if lives[i].exit != 0 && message.Completion? {
        message := Failure("WorkerExit", "worker exited with a nonzero status");
      }
      Close(i);
      Judge(i, message);
    }

    // ---- the supervisor loop ----

    /** `wait`: a nonempty set of ready workers, or all of them when `wait` itself raises. */
    method Wait() returns (ready: set<nat>)
      requires Valid() && workers != []
      modifies this`errors, this`stop, this`log, this`waited
      ensures Valid() && waited == old(waited) + 1
      ensures |errors| == |old(errors)| + One(old(waited) in waits)
      ensures if old(waited) in waits then ready == (set w | w in workers) && log == old(log) + [Error]
              else errors == old(errors) && stop == old(stop) && log == old(log)
      ensures ready != {} && forall w :: w in ready ==> w in workers
    {
      ready := set w | w in workers;
      assert workers[0] in ready;
      if waited in waits {
        OneMoreError(|errors|, stop, Ever(signals, looks), log);
        errors := errors + ["wait was interrupted"];
        stop := true;
        log := log + [Error];
      } else {
        var some: set<nat> := *;
        if some != {} && some <= ready {
          ready := some;
        }
      }
      waited := waited + 1;
    }

    /** Settle every ready worker, and no other, before anything is admitted. */
    method SettleReady(ready: set<nat>)
      requires Valid() && Idle(progress) && ready != {} && forall w :: w in ready ==> w in workers
      modifies this`workers, this`errors, this`stop, this`log, this`outcomes, this`completions, this`progress
      ensures Valid() && Idle(progress) && |workers| < |old(workers)| && old(log) <= log
      ensures forall x :: x in workers <==> x in old(workers) && x !in ready
      ensures OnlySettled(old(progress), progress, ready) && Others() == old(Others())
    {
      var snapshot := workers;
      ghost var handled: set<nat> := {};
      for k := 0 to |snapshot|
        invariant Valid() && old(log) <= log
        invariant Handled(snapshot, ready, handled, workers, k) && OnlySettled(old(progress), progress, handled)
        invariant Others() == old(Others())
      {
        HandleNext(snapshot, ready, handled, workers, k);
        if snapshot[k] in ready {
          SettleOne(snapshot[k], old(progress), handled);
          handled := handled + {snapshot[k]};
        }
      }
      AllHandled(snapshot, ready, handled, workers);
    }

    method SettleOne(i: nat, ghost before: seq<Progress>, ghost handled: set<nat>)
      requires Valid() && i in workers && OnlySettled(before, progress, handled)
      modifies this`workers, this`errors, this`stop, this`log, this`outcomes, this`completions, this`progress
      ensures Valid() && old(log) <= log
      ensures i in old(workers) && workers == Without(old(workers), i)
      ensures OnlySettled(before, progress, handled + {i}) && Others() == old(Others())
    {
      ghost var now := progress;
      Settle(i);
      TotalChanges(now, i, Progress(Settled, 1, 1, Errors(cells[i], lives[i])));
    }

    /** Cell `i` was never admitted, never ran, or was joined once and has the outcome it earned. */
    ghost predicate Concluded(i: nat)
      reads this
    {
      && i < |cells| == |lives| == |progress| && cells[i].id in outcomes
      && var outcome := outcomes[cells[i].id];
         if i >= nextCell then progress[i].joins == 0 && outcome == UNTOUCHED
         else if lives[i].start.RaisesAlone? then
           progress[i].joins == 0 && FailedAt(cells[i], lives[i], 1, outcome) && outcome.detail.Some?
         else
           && progress[i].joins == 1 && progress[i].closes == 1 && FinalOutcome(cells[i], lives[i], outcome)
           && (outcome.detail.Some? <==> !Clean(cells[i], lives[i]))
    }

    lemma AllConcluded()
      requires Valid() && Idle(progress) && workers == []
      ensures forall i :: 0 <= i < |cells| ==> Concluded(i)
      ensures Total(progress) == CellErrors(cells, lives, nextCell)
      ensures CellErrors(cells, lives, nextCell) == 0 ==>
                forall i :: 0 <= i < nextCell ==> Lookup(completions, cells[i].id) == Some(cells[i].root)
    {
      forall i | 0 <= i < |cells|
        ensures Concluded(i) && progress[i].errors == if i < nextCell then Errors(cells[i], lives[i]) else 0
      {
        assert !progress[i].stage.Running?;
        assert AccountedFor(cells[i], lives[i], progress[i], outcomes[cells[i].id],
                            Lookup(completions, cells[i].id));
      }
      ErrorsAreCellErrors(cells, lives, progress, nextCell, |cells|);
      NothingWrongIffClean(cells, lives, nextCell);
      forall i | CellErrors(cells, lives, nextCell) == 0 && 0 <= i < nextCell
        ensures Lookup(completions, cells[i].id) == Some(cells[i].root)
      {
        assert Clean(cells[i], lives[i]) && Concluded(i);
      }
    }

    /** Nothing went wrong with an admitted cell or a wait. */
    ghost predicate Smooth()
      reads this
      requires nextCell <= |cells| == |lives|
    {
      (forall i :: 0 <= i < nextCell ==> Clean(cells[i], lives[i])) && !Ever(waits, waited)
    }

    ghost predicate Fresh()
      reads this
    {
      Valid() && Idle(progress) && workers == [] && errors == [] && nextCell == 0 && waited == 0 && Total(progress) == 0
    }

    /** Wait, settle what is ready and admit again. */
    method Round()
      requires Valid() && Idle(progress) && workers != []
      modifies this
      ensures Valid() && Idle(progress) && Measure() < old(Measure())
      ensures workers == [] ==> nextCell == |cells| || stop
      ensures waited == old(waited) + 1 && Others() == old(Others()) + One(old(waited) in waits)
    {
      var ready := Wait();
      SettleReady(ready);
      AdmitCells();
    }

    /** Admit and settle until no worker is left. */
    method Supervise()
      requires Fresh()
      modifies this
      ensures Valid() && Idle(progress) && workers == [] && (nextCell == |cells| || stop)
      ensures Others() == Times(waits, waited)
    {
      AdmitCells();
      while workers != []
        invariant Valid() && Idle(progress)
        invariant workers == [] ==> nextCell == |cells| || stop
        invariant Others() == Times(waits, waited)
        decreases Measure()
      {
        Round();
      }
    }

    /**
     * `_execute_parallel_live_cells`: it returns exactly when nothing went wrong and every cell was admitted, in
     * input order whatever the completion order; otherwise it raises with one outcome per cell and one error
     * for everything that went wrong, or for being stopped.
     */
    method Run() returns (r: Result)
      requires Fresh()
      modifies this
      ensures workers == [] && nextCell <= |cells| == |lives| && NoAdmissionAfterError(log)
      ensures forall i :: 0 <= i < |cells| ==> Concluded(i)
      ensures r.Finished? <==> nextCell == |cells| && Smooth()
      ensures nextCell < |cells| && Smooth() ==> Ever(signals, looks)
      ensures r.Finished? ==>
                |r.completions| == |cells| &&
                forall i :: 0 <= i < |cells| ==> r.completions[i] == (cells[i].id, cells[i].root)
      ensures r.Raised? ==>
                |r.outcomes| == |cells| &&
                forall i :: 0 <= i < |cells| ==> Lookup(outcomes, cells[i].id) == Some(r.outcomes[i])
      ensures r.Raised? ==>
                |r.errors| == if Smooth() then 1 else CellErrors(cells, lives, nextCell) + Times(waits, waited)
    {
      Supervise();
      AllConcluded();
      NothingWrongIffClean(cells, lives, nextCell);
      TimesIffEver(waits, waited);
      if nextCell < |cells| && errors == [] {
        return Raised(OutcomesInOrder(cells, outcomes), ["live execution stopped before all cells were admitted"]);
      }
      if errors != [] {
        return Raised(OutcomesInOrder(cells, outcomes), errors);
      }
      return Finished(CompletionsInOrder(cells, completions));
    }
  }

  /** A cell when the attempt to start its worker is over. */
  function AtStart(life: Life): Progress {
    Progress(if life.start.RaisesAlone? then NeverRan else Running, 0, 0, StartErrors(life))
  }

  function Kept(life: Life, i: nat): seq<nat> {
    if life.start.RaisesAlone? then [] else [i]
  }

  function AllUntouched(cells: seq<Cell>): map<string, Outcome> {
    map i | 0 <= i < |cells| :: cells[i].id := UNTOUCHED
  }

  lemma NothingYet(cells: seq<Cell>, lives: seq<Life>, progress: seq<Progress>)
    requires DistinctIds(cells) && |lives| == |progress| == |cells|
    requires forall i :: 0 <= i < |cells| ==> progress[i] == Progress(Waiting, 0, 0, 0)
    ensures Books(cells, lives, progress, AllUntouched(cells), map[])
    ensures TailWaits(progress, 0) && Total(progress) == 0
    ensures forall limit: nat :: WorkersAreRunning(progress, [], limit)
  {
    ErrorsAreCellErrors(cells, lives, progress, 0, |cells|);
  }

  /** What is judged: the message, or a failure put in the place of a missing or contradicted one. */
  predicate Judged(life: Life, message: Message) {
    if life.message.EndOfFile? || (life.message.Completion? && life.exit != 0) then message.Failure?
    else message == life.message
  }

  /** No worker is between leaving the list and being settled. */
  ghost predicate Idle(progress: seq<Progress>) {
    forall i :: 0 <= i < |progress| ==> !progress[i].stage.Settling?
  }

  lemma AdmissionKeeps(before: seq<Progress>, progress: seq<Progress>, i: nat, p: Progress)
    requires Idle(progress) && SettledKept(before, progress) && i < |progress| && progress[i].stage.Waiting?
    requires !p.stage.Settling?
    ensures Idle(progress[i := p]) && SettledKept(before, progress[i := p])
  {
  }

  /** The first `k` of the snapshot have been looked at, and those of them that are ready are gone. */
  ghost predicate Handled(snapshot: seq<nat>, ready: set<nat>, handled: set<nat>, workers: seq<nat>, k: nat) {
    && handled <= ready && |workers| + |handled| == |snapshot| && Distinct(snapshot) && Distinct(workers)
    && (forall x :: x in workers <==> x in snapshot && x !in handled)
    && forall j :: 0 <= j < |snapshot| && snapshot[j] in ready ==> (snapshot[j] in handled <==> j < k)
  }

  lemma HandleNext(snapshot: seq<nat>, ready: set<nat>, handled: set<nat>, workers: seq<nat>, k: nat)
    requires Handled(snapshot, ready, handled, workers, k) && k < |snapshot|
    ensures if snapshot[k] in ready then
              && snapshot[k] in workers
              && Handled(snapshot, ready, handled + {snapshot[k]}, Without(workers, snapshot[k]), k + 1)
            else Handled(snapshot, ready, handled, workers, k + 1)
  {
    if snapshot[k] in ready {
      WithoutRemoves(workers, snapshot[k]);
    }
  }

  lemma AllHandled(snapshot: seq<nat>, ready: set<nat>, handled: set<nat>, workers: seq<nat>)
    requires Handled(snapshot, ready, handled, workers, |snapshot|)
    requires ready != {} && forall w :: w in ready ==> w in snapshot
    ensures handled == ready && |workers| < |snapshot|
  {
    var w :| w in ready;
    assert w in handled;
  }

  /** The cells in `done` are settled, and no other has changed. */
  ghost predicate OnlySettled(before: seq<Progress>, after: seq<Progress>, done: set<nat>) {
    && |after| == |before|
    && forall i :: 0 <= i < |before| ==> if i in done then after[i].stage.Settled? else after[i] == before[i]
  }

  ghost predicate SettledKept(before: seq<Progress>, after: seq<Progress>) {
    && |after| == |before|
    && forall i :: 0 <= i < |before| && before[i].stage.Settled? ==> after[i] == before[i]
  }
}
