/** The workers of a study, which share one iterator over the answers. */
module JudgePools {
  import opened Studies
  import opened Lists
  import opened Wrappers

  /** A worker coroutine between two of its awaits. */
  datatype Worker = Ready | Judging(id: string) | Finished | Raised(unsettled: Option<string>)

  /** The answers without a saved verdict among the first `n`, in order. */
  function Unsaved(ids: seq<string>, n: nat, saved: Verdicts): seq<string>
    requires n <= |ids|
  {
    if n == 0 then []
    else Unsaved(ids, n - 1, saved) + (if ids[n - 1] in saved then [] else [ids[n - 1]])
  }

  lemma {:induction false} UnsavedMembers(ids: seq<string>, n: nat, saved: Verdicts, id: string)
    requires n <= |ids|
    ensures id in Unsaved(ids, n, saved) <==> id in ids[..n] && id !in saved
  {
    if n > 0 {
      UnsavedMembers(ids, n - 1, saved, id);
      assert ids[..n] == ids[..n - 1] + [ids[n - 1]];
    }
  }

  /** No answer is listed twice. */
  lemma {:induction false} UnsavedOnce(ids: seq<string>, n: nat, saved: Verdicts)
    requires n <= |ids| && Distinct(ids)
    ensures Distinct(Unsaved(ids, n, saved))
  {
    if n > 0 {
      UnsavedOnce(ids, n - 1, saved);
      UnsavedMembers(ids, n - 1, saved, ids[n - 1]);
    }
  }

  lemma {:induction false} UnsavedPrefix(ids: seq<string>, n: nat, saved: Verdicts)
    requires n <= |ids|
    ensures Unsaved(ids, n, saved) <= Unsaved(ids, |ids|, saved)
    decreases |ids| - n
  {
    if n < |ids| {
      UnsavedPrefix(ids, n + 1, saved);
    }
  }

  /** The worker took the answer and has not settled it. */
  predicate Holds(w: Worker, id: string) {
    match w
    case Judging(own) => own == id
    case Raised(unsettled) => unsettled == Some(id)
    case _ => false
  }

  function One(b: bool): nat {
    if b then 1 else 0
  }

  /** How many workers hold the answer. */
  function Holders(workers: seq<Worker>, id: string): nat {
    if workers == [] then 0 else Holders(workers[..|workers| - 1], id) + One(Holds(workers[|workers| - 1], id))
  }

  predicate Live(w: Worker) {
    w.Ready? || w.Judging?
  }

  function WeightOf(w: Worker): nat {
    match w
    case Ready => 1
    case Judging(_) => 2
    case _ => 0
  }

  function Weight(workers: seq<Worker>): nat {
    if workers == [] then 0 else Weight(workers[..|workers| - 1]) + WeightOf(workers[|workers| - 1])
  }

  lemma {:induction false} WeightChanges(workers: seq<Worker>, w: nat, worker: Worker)
    requires w < |workers|
    ensures Weight(workers[w := worker]) == Weight(workers) - WeightOf(workers[w]) + WeightOf(worker)
  {
    var n := |workers| - 1;
    if w == n {
      assert workers[w := worker][..n] == workers[..n];
    } else {
      WeightChanges(workers[..n], w, worker);
      assert workers[w := worker][..n] == workers[..n][w := worker];
    }
  }

  lemma {:induction false} FreshWeight(workers: seq<Worker>)
    requires forall w :: 0 <= w < |workers| ==> workers[w] == Ready
    ensures Weight(workers) == |workers|
  {
    if workers != [] {
      FreshWeight(workers[..|workers| - 1]);
    }
  }

  lemma {:induction false} HoldersChange(workers: seq<Worker>, w: nat, worker: Worker, id: string)
    requires w < |workers|
    ensures Holders(workers[w := worker], id) ==
            Holders(workers, id) - One(Holds(workers[w], id)) + One(Holds(worker, id))
  {
    var n := |workers| - 1;
    if w == n {
      assert workers[w := worker][..n] == workers[..n];
    } else {
      HoldersChange(workers[..n], w, worker, id);
      assert workers[w := worker][..n] == workers[..n][w := worker];
    }
  }

  /** A dispatched answer is held by one worker or has got its verdict, never both; no other is touched. */
  ghost predicate Accounted(dispatched: seq<string>, workers: seq<Worker>, verdicts: Verdicts, saved: Verdicts) {
    && (forall id :: Holders(workers, id) + One(id in verdicts && id !in saved) == One(id in dispatched))
    && (forall id <- saved :: id in verdicts && verdicts[id] == saved[id] && id !in dispatched)
  }

  /** The answer the iterator looks at has not been dispatched, so it has a verdict only if it was saved. */
  lemma NextIsNew(ids: seq<string>, next: nat, dispatched: seq<string>, workers: seq<Worker>, verdicts: Verdicts,
                  saved: Verdicts)
    requires Distinct(ids) && next < |ids| && dispatched == Unsaved(ids, next, saved)
    requires Accounted(dispatched, workers, verdicts, saved)
    ensures ids[next] !in dispatched
    ensures ids[next] in verdicts <==> ids[next] in saved
    ensures Unsaved(ids, next + 1, saved) == dispatched + (if ids[next] in saved then [] else [ids[next]])
  {
    UnsavedMembers(ids, next, saved, ids[next]);
    assert One(ids[next] in dispatched) == 0;
  }

  // ---- how one worker's turn changes the accounts ----

  /** A worker that holds the same answer as before, or none as before. */
  lemma KeepsHold(dispatched: seq<string>, workers: seq<Worker>, verdicts: Verdicts, saved: Verdicts, w: nat,
                  worker: Worker)
    requires Accounted(dispatched, workers, verdicts, saved) && w < |workers|
    requires forall id :: Holds(worker, id) == Holds(workers[w], id)
    ensures Accounted(dispatched, workers[w := worker], verdicts, saved)
  {
    forall id
      ensures Holders(workers[w := worker], id) == Holders(workers, id)
    {
      HoldersChange(workers, w, worker, id);
    }
  }

  lemma Takes(dispatched: seq<string>, workers: seq<Worker>, verdicts: Verdicts, saved: Verdicts, w: nat, taken: string)
    requires Accounted(dispatched, workers, verdicts, saved) && w < |workers| && workers[w].Ready?
    requires taken !in dispatched && taken !in verdicts
    ensures Accounted(dispatched + [taken], workers[w := Judging(taken)], verdicts, saved)
  {
    forall id
      ensures Holders(workers[w := Judging(taken)], id) + One(id in verdicts && id !in saved) ==
              One(id in dispatched + [taken])
    {
      HoldersChange(workers, w, Judging(taken), id);
      assert Holders(workers, id) + One(id in verdicts && id !in saved) == One(id in dispatched);
    }
  }

  /** A worker's own answer has no verdict yet. */
  lemma {:induction false} HolderCounts(workers: seq<Worker>, w: nat, id: string)
    requires w < |workers| && Holds(workers[w], id)
    ensures Holders(workers, id) >= 1
  {
    if w < |workers| - 1 {
      HolderCounts(workers[..|workers| - 1], w, id);
    }
  }

  lemma HeldIsDispatched(dispatched: seq<string>, workers: seq<Worker>, verdicts: Verdicts, saved: Verdicts, w: nat)
    requires Accounted(dispatched, workers, verdicts, saved) && w < |workers| && workers[w].Judging?
    ensures workers[w].id in dispatched && workers[w].id !in verdicts
  {
    var own := workers[w].id;
    HolderCounts(workers, w, own);
    assert Holders(workers, own) + One(own in verdicts && own !in saved) == One(own in dispatched);
  }

  lemma Settles(dispatched: seq<string>, workers: seq<Worker>, verdicts: Verdicts, saved: Verdicts, w: nat,
                v: Option<bool>)
    requires Accounted(dispatched, workers, verdicts, saved) && w < |workers| && workers[w].Judging?
    ensures workers[w].id !in verdicts
    ensures Accounted(dispatched, workers[w := Ready], verdicts[workers[w].id := v], saved)
  {
    var own := workers[w].id;
    HeldIsDispatched(dispatched, workers, verdicts, saved, w);
    forall id
      ensures Holders(workers[w := Ready], id) + One(id in verdicts[own := v] && id !in saved) == One(id in dispatched)
    {
      HoldersChange(workers, w, Ready, id);
      assert Holders(workers, id) + One(id in verdicts && id !in saved) == One(id in dispatched);
    }
  }

  lemma {:induction false} NothingHeld(workers: seq<Worker>, id: string)
    requires forall w :: 0 <= w < |workers| ==> !Holds(workers[w], id)
    ensures Holders(workers, id) == 0
  {
    if workers != [] {
      NothingHeld(workers[..|workers| - 1], id);
    }
  }

  /** The verdicts on disk, read back before any worker starts; a malformed one raises. */
  method LoadSaved(ids: seq<string>, files: map<string, Option<Option<bool>>>) returns (saved: Option<Verdicts>)
    ensures saved.None? <==> exists id <- ids :: id in files && files[id].None?
    ensures saved.Some? ==> forall id :: id in saved.value <==> id in ids && id in files
    ensures saved.Some? ==> forall id <- saved.value :: files[id] == Some(saved.value[id])
  {
    var verdicts: Verdicts := map[];
    for n := 0 to |ids|
      invariant forall id :: id in verdicts <==> id in ids[..n] && id in files
      invariant forall id <- verdicts :: files[id] == Some(verdicts[id])
    {
      assert ids[..n + 1] == ids[..n] + [ids[n]];
      if ids[n] in files {
        if files[ids[n]].None? {
          return None;
        }
        verdicts := verdicts[ids[n] := files[ids[n]].value];
      }
    }
    assert ids[..|ids|] == ids;
    saved := Some(verdicts);
  }

  /** What asking the judge about an answer comes to. */
  datatype Reply = Verdict(verdict: Option<bool>) | Raises

  /** The judge's replies by question; a question without one raises. */
  type Judge = map<string, Reply>

  function ReplyTo(judge: Judge, id: string): Reply {
    if id in judge then judge[id] else Raises
  }

  /** Before which turns of the workers the group is cancelled from outside. */
  type Stops = set<nat>

  ghost predicate StoppedWithin(stops: Stops, turns: nat) {
    exists t :: 0 <= t < turns && t in stops
  }

  ghost predicate SomeRaises(judge: Judge, ids: seq<string>) {
    exists id <- ids :: ReplyTo(judge, id).Raises?
  }

  class JudgePool {
    const ids: seq<string>
    ghost const saved: Verdicts
    const judge: Judge
    const stops: Stops
    /** How many turns the workers have taken. */
    var turns: nat
    var verdicts: Verdicts
    var next: nat
    var workers: seq<Worker>
    var cancelled: bool
    /** Every answer handed to a worker, in order. */
    ghost var dispatched: seq<string>
    /** What had been dispatched when the group was cancelled. */
    ghost var frozen: seq<string>

    ghost predicate InOrder()
      reads this
    {
      && next <= |ids|
      && dispatched == Unsaved(ids, next, saved)
      && (cancelled ==> dispatched == frozen)
    }

    ghost predicate Endings()
      reads this
    {
      forall w :: 0 <= w < |workers| ==>
        && (workers[w].Finished? ==> next == |ids|)
        && (workers[w].Raised? ==> cancelled)
    }

    /** A new verdict is the judge's reply, and a group is cancelled only for a cause. */
    ghost predicate Caused()
      reads this
    {
      && (forall id :: id in verdicts && id !in saved ==> ReplyTo(judge, id) == Verdict(verdicts[id]))
      && (cancelled ==> StoppedWithin(stops, turns) || SomeRaises(judge, dispatched))
      && (StoppedWithin(stops, turns) ==> cancelled)
    }

    ghost predicate Valid()
      reads this
    {
      Distinct(ids) && InOrder() && Accounted(dispatched, workers, verdicts, saved) && Endings() && Caused()
    }

    ghost function Measure(): nat
      reads this
      requires next <= |ids|
    {
      2 * (|ids| - next) + Weight(workers)
    }

    constructor (ids: seq<string>, saved: Verdicts, count: nat, judge: Judge, stops: Stops)
      requires Distinct(ids)
      ensures Valid() && this.ids == ids && this.saved == saved && dispatched == [] && !cancelled
      ensures this.judge == judge && this.stops == stops && turns == 0
      ensures |workers| == count && forall w :: 0 <= w < count ==> workers[w] == Ready
    {
      this.ids, this.saved, this.judge, this.stops := ids, saved, judge, stops;
      verdicts, next, cancelled, turns := saved, 0, false, 0;
      workers := seq(count, _ => Ready);
      dispatched, frozen := [], [];
      new;
      forall id
        ensures Holders(workers, id) == 0
      {
        NothingHeld(workers, id);
      }
    }

    /** The shared iterator passes over the answers that have a verdict. */
    method Skip()
      requires Valid()
      modifies this`next
      ensures Valid() && old(next) <= next
      ensures next < |ids| ==> ids[next] !in verdicts
    {
      while next < |ids| && ids[next] in verdicts
        invariant Valid() && old(next) <= next
      {
        SkipOne();
      }
    }

    method SkipOne()
      requires Valid() && next < |ids| && ids[next] in verdicts
      modifies this`next
      ensures Valid() && next == old(next) + 1
    {
      NextIsNew(ids, next, dispatched, workers, verdicts, saved);
      next := next + 1;
    }

    /** The answer under the iterator goes to a worker. */
    method Dispatch(w: nat)
      requires Valid() && w < |workers| && workers[w].Ready? && !cancelled
      requires next < |ids| && ids[next] !in verdicts
      modifies this`next, this`workers, this`dispatched
      ensures Valid() && next == old(next) + 1
      ensures ids[old(next)] !in old(dispatched) && dispatched == old(dispatched) + [ids[old(next)]]
      ensures workers == old(workers)[w := Judging(ids[old(next)])]
    {
      NextIsNew(ids, next, dispatched, workers, verdicts, saved);
      Takes(dispatched, workers, verdicts, saved, w, ids[next]);
      dispatched := dispatched + [ids[next]];
      workers := workers[w := Judging(ids[next])];
      next := next + 1;
    }

    /** `for answer in pending`: the shared iterator yields its next unsaved answer, or ends. */
    method Advance(w: nat) returns (took: Option<string>)
      requires Valid() && w < |workers| && workers[w].Ready? && !cancelled
      modifies this`next, this`workers, this`dispatched
      ensures Valid()
      ensures took.None? ==> dispatched == old(dispatched) && workers == old(workers)[w := Finished]
      ensures took.Some? ==> took.value !in old(dispatched) && took.value !in verdicts
      ensures took.Some? ==>
                dispatched == old(dispatched) + [took.value] && workers == old(workers)[w := Judging(took.value)]
      ensures Measure() < old(Measure())
    {
      Skip();
      if next < |ids| {
        took := Some(ids[next]);
        WeightChanges(workers, w, Judging(ids[next]));
        Dispatch(w);
      } else {
        took := None;
        KeepsHold(dispatched, workers, verdicts, saved, w, Finished);
        WeightChanges(workers, w, Finished);
        workers := workers[w := Finished];
      }
    }

    /** `verdicts[answer.question_id] = await _judge_answer(...)` */
    method Settle(w: nat, verdict: Option<bool>)
      requires Valid() && w < |workers| && workers[w].Judging? && ReplyTo(judge, workers[w].id) == Verdict(verdict)
      modifies this`verdicts, this`workers
      ensures Valid()
      ensures verdicts == old(verdicts)[old(workers)[w].id := verdict] && old(workers)[w].id !in old(verdicts)
      ensures workers == old(workers)[w := Ready]
      ensures Measure() < old(Measure())
    {
      Settles(dispatched, workers, verdicts, saved, w, verdict);
      WeightChanges(workers, w, Ready);
      verdicts := verdicts[workers[w].id := verdict];
      workers := workers[w := Ready];
    }

    /** A worker raises: its task ends and the group is cancelled. */
    method Interrupt(w: nat)
      requires Valid() && w < |workers| && Live(workers[w])
      requires cancelled || (workers[w].Judging? && ReplyTo(judge, workers[w].id).Raises?)
      modifies this`workers, this`cancelled, this`frozen
      ensures Valid() && cancelled
      ensures workers == old(workers)[w := Raised(if old(workers)[w].Judging? then Some(old(workers)[w].id) else None)]
      ensures Measure() < old(Measure())
    {
      var worker := Raised(if workers[w].Judging? then Some(workers[w].id) else None);
      KeepsHold(dispatched, workers, verdicts, saved, w, worker);
      WeightChanges(workers, w, worker);
      if !cancelled {
        HeldIsDispatched(dispatched, workers, verdicts, saved, w);
        frozen, cancelled := dispatched, true;
      }
      workers := workers[w := worker];
    }

    /** Another turn begins, before which the group may be cancelled from outside. */
    method BeginTurn()
      requires Valid()
      modifies this`turns, this`cancelled, this`frozen
      ensures Valid() && turns == old(turns) + 1 && cancelled == (old(cancelled) || old(turns) in stops)
    {
      if turns in stops && !cancelled {
        frozen, cancelled := dispatched, true;
      }
      assert StoppedWithin(stops, turns + 1) <==> StoppedWithin(stops, turns) || turns in stops;
      turns := turns + 1;
    }

    /**
     * The group of workers, under every schedule: any live worker may take the next turn, whatever the judge
     * replies and whenever the group is cancelled from outside.
     */
    method Run() returns (raised: bool)
      requires Valid() && dispatched == [] && !cancelled
      requires forall w :: 0 <= w < |workers| ==> workers[w] == Ready
      requires workers != [] && forall id <- saved :: id in ids
      modifies this
      ensures Valid() && Distinct(dispatched) && dispatched <= Unsaved(ids, |ids|, saved)
      ensures raised == cancelled && forall w :: 0 <= w < |workers| ==> !Live(workers[w])
      ensures raised <==> StoppedWithin(stops, turns) || SomeRaises(judge, dispatched)
      ensures turns <= old(turns) + old(Measure())
      ensures !raised ==> dispatched == Unsaved(ids, |ids|, saved)
      ensures !raised ==> forall id :: id in verdicts <==> id in ids
      ensures raised ==> dispatched == frozen
      ensures forall id <- saved :: id in verdicts && verdicts[id] == saved[id]
      ensures forall id :: id in verdicts && id !in saved ==>
                id in dispatched && ReplyTo(judge, id) == Verdict(verdicts[id])
    {
      while exists w :: 0 <= w < |workers| && Live(workers[w])
        invariant Valid() && workers != [] && turns + Measure() <= old(turns) + old(Measure())
        decreases Measure()
      {
        var w :| 0 <= w < |workers| && Live(workers[w]);
        BeginTurn();
        Turn(w);
      }
      raised := cancelled;
      UnsavedOnce(ids, next, saved);
      UnsavedPrefix(ids, next, saved);
      if !cancelled {
        AllSettled();
      }
    }

    /** One worker's next step; once the group is cancelled that step can only raise. */
    method Turn(w: nat)
      requires Valid() && w < |workers| && Live(workers[w])
      modifies this`verdicts, this`next, this`workers, this`cancelled, this`dispatched, this`frozen
      ensures Valid() && |workers| == |old(workers)| && Measure() < old(Measure())
      ensures old(cancelled) ==> cancelled && dispatched == old(dispatched)
    {
      if cancelled {
        Interrupt(w);
      } else if workers[w].Ready? {
        var _ := Advance(w);
      } else {
        match ReplyTo(judge, workers[w].id)
        case Raises => Interrupt(w);
        case Verdict(verdict) => Settle(w, verdict);
      }
    }

    /** When every worker of an uncancelled group is done, every answer has its verdict from the judge. */
    lemma AllSettled()
      requires Valid() && !cancelled && workers != [] && forall w :: 0 <= w < |workers| ==> !Live(workers[w])
      requires forall id <- saved :: id in ids
      ensures dispatched == Unsaved(ids, |ids|, saved) && !SomeRaises(judge, dispatched)
      ensures forall id :: id in verdicts <==> id in ids
    {
      assert !Live(workers[0]);
      assert next == |ids| && ids[..next] == ids;
      forall id
        ensures id in verdicts <==> id in ids
        ensures id in dispatched ==> id in verdicts && id !in saved
      {
        NothingHeld(workers, id);
        UnsavedMembers(ids, next, saved, id);
        assert Holders(workers, id) + One(id in verdicts && id !in saved) == One(id in dispatched);
      }
    }
  }

  const STUDY_CONCURRENCY: nat := 2

  /** A question whose verdict was on disk keeps it, and any other gets the judge's. */
  predicate Settled(files: map<string, Option<Option<bool>>>, judge: Judge, verdicts: Verdicts) {
    forall id <- verdicts ::
      if id in files then files[id] == Some(verdicts[id]) else ReplyTo(judge, id) == Verdict(verdicts[id])
  }

  predicate SomeMalformed(ids: seq<string>, files: map<string, Option<Option<bool>>>) {
    exists id <- ids :: id in files && files[id].None?
  }

  ghost predicate SomeUnsavedRaises(ids: seq<string>, files: map<string, Option<Option<bool>>>, judge: Judge) {
    exists id <- ids :: id !in files && ReplyTo(judge, id).Raises?
  }

  lemma UnsavedAreTheOthers(ids: seq<string>, files: map<string, Option<Option<bool>>>, saved: Verdicts)
    requires forall id :: id in saved <==> id in ids && id in files
    ensures forall id :: id in Unsaved(ids, |ids|, saved) <==> id in ids && id !in files
  {
    assert ids[..|ids|] == ids;
    forall id
      ensures id in Unsaved(ids, |ids|, saved) <==> id in ids && id !in files
    {
      UnsavedMembers(ids, |ids|, saved, id);
    }
  }

  /** What raised among the dispatched answers is what raises among the unsaved ones, if all were dispatched. */
  lemma DispatchedRaisesIff(ids: seq<string>, files: map<string, Option<Option<bool>>>, saved: Verdicts, judge: Judge,
                            dispatched: seq<string>, raised: bool)
    requires forall id :: id in Unsaved(ids, |ids|, saved) <==> id in ids && id !in files
    requires dispatched <= Unsaved(ids, |ids|, saved) && (!raised ==> dispatched == Unsaved(ids, |ids|, saved))
    ensures SomeRaises(judge, dispatched) ==> SomeUnsavedRaises(ids, files, judge)
    ensures !raised && SomeUnsavedRaises(ids, files, judge) ==> SomeRaises(judge, dispatched)
  {
    var all := Unsaved(ids, |ids|, saved);
    forall id | id in dispatched
      ensures id in all
    {
    }
  }

  /** `run_study` up to its summary: the saved verdicts, then the workers. */
  method JudgeAll(ids: seq<string>, files: map<string, Option<Option<bool>>>, questions: nat, judge: Judge,
                  stops: Stops)
    returns (r: Option<Verdicts>, ghost turns: nat)
    requires Distinct(ids) && questions >= 1
    ensures turns <= 2 * |ids| + STUDY_CONCURRENCY
    ensures r.Some? ==> (forall id :: id in r.value <==> id in ids) && Settled(files, judge, r.value)
    ensures r.None? <==>
              SomeMalformed(ids, files) || StoppedWithin(stops, turns) || SomeUnsavedRaises(ids, files, judge)
  {
    turns := 0;
    var saved := LoadSaved(ids, files);
    if saved.None? {
      return None, turns;
    }
    var count := if questions < STUDY_CONCURRENCY then questions else STUDY_CONCURRENCY;
    var pool := new JudgePool(ids, saved.value, count, judge, stops);
    FreshWeight(pool.workers);
    var raised := pool.Run();
    turns := pool.turns;
    UnsavedAreTheOthers(ids, files, saved.value);
    DispatchedRaisesIff(ids, files, saved.value, judge, pool.dispatched, raised);
    r := if raised then None else Some(pool.verdicts);
  }
}
