/** What the writers promise, over whole runs. */
module ProtocolTheorems {
  import opened Wrappers
  import opened FileSystems
  import opened Protocol
  import opened ProtocolInvariant
  import opened ProtocolSteps

  /** A run in which no two published contents collide under the digest. */
  ghost predicate CleanRun(h: Bytes -> string, run: seq<System>) {
    Run(h, run) && forall t :: 0 <= t < |run| ==> NoCollision(h, run[t])
  }

  lemma {:induction false} Reachable(h: Bytes -> string, run: seq<System>, t: nat)
    requires CleanRun(h, run) && t < |run|
    ensures Inv(run[t])
  {
    if t == 0 {
      assert forall n :: EMPTY.fs.At(n) == Slot(None, {None});
    } else {
      Reachable(h, run, t - 1);
      assert Step(h, run[t - 1], run[t - 1 + 1]);
      StepKeepsInv(h, run[t - 1], run[t]);
    }
  }

  /** Job `k` of process `p` put its bytes at `n`, after durably finishing every earlier create job. */
  ghost predicate PublishedBy(s: System, n: Name, p: nat, k: nat) {
    && p in s.processes
    && var jobs := s.processes[p].jobs;
       && k < |jobs|
       && jobs[k].target == n
       && s.fs.Holds(n, jobs[k].content)
       && forall j :: 0 <= j < k && jobs[j].Create? ==> s.fs.Durable(jobs[j].target, jobs[j].content)
  }

  /** Whatever is visible under a target or pointer name, at any moment, is the complete
      content of one request for that name, and all earlier jobs of that request are durable. */
  lemma VisibleIsComplete(h: Bytes -> string, run: seq<System>, t: nat, n: Name)
    requires CleanRun(h, run) && t < |run|
    requires !n.Temporary? && run[t].fs.At(n).now.Some?
    ensures exists p, k :: PublishedBy(run[t], n, p, k)
  {
    Reachable(h, run, t);
    var s := run[t];
    var i := s.fs.At(n).now.value;
    assert Some(i) in s.fs.At(n).disk;
    assert Backed(s, n, i);
    var owner := s.fs.inodes[i].owner;
    assert OwnerKnown(s, i);
    var q := s.processes[owner.process];
    assert ProcessOk(s.fs, q, owner.process);
    forall j | 0 <= j < owner.job && q.jobs[j].Create?
      ensures s.fs.Durable(q.jobs[j].target, q.jobs[j].content)
    {
      assert Completed(s.fs, q.jobs[j], Owner(owner.process, j), q.created[j]);
    }
    assert PublishedBy(s, n, owner.process, owner.job);
  }

  ghost predicate Unchanged(s: System, s': System, n: Name, i: nat) {
    s'.fs.At(n).now == Some(i) && i in s.fs.inodes && i in s'.fs.inodes && s'.fs.inodes[i] == s.fs.inodes[i]
  }

  /** A visible target keeps its inode and its bytes; only a crash can remove it, and only
      while its directory entry has not been fsynced. */
  lemma TargetNeverChanges(h: Bytes -> string, run: seq<System>, t: nat, n: Name, i: nat)
    requires CleanRun(h, run) && t + 1 < |run|
    requires n.Final? && run[t].fs.At(n).now == Some(i)
    ensures || Unchanged(run[t], run[t + 1], n, i)
            || (&& Crash(run[t], run[t + 1])
                && run[t + 1].fs.At(n).now.None?
                && None in run[t].fs.At(n).disk)
  {
    Reachable(h, run, t);
    var s, s' := run[t], run[t + 1];
    assert Step(h, s, s');
    assert Some(i) in s.fs.At(n).disk;
    assert CreateOnlyShape(s.fs, n) && Backed(s, n, i);
    if Crash(s, s') {
      assert s'.fs.At(n).now in s.fs.At(n).disk;
    } else if Act(h, s, s') {
      var p, c :| Enabled(s, p, c) && s' == Advance(h, s, p, c);
      AdvanceKeepsInv(h, s, p, c);
    }
  }

  /** Once a target is durable it holds the same bytes, durably, for the rest of the run. */
  lemma {:induction false} DurableForever(h: Bytes -> string, run: seq<System>, t: nat, u: nat, n: Name, data: Bytes)
    requires CleanRun(h, run) && t <= u < |run|
    requires n.Final? && run[t].fs.Durable(n, data)
    ensures run[u].fs.Durable(n, data)
    decreases u - t
  {
    if t < u {
      DurableNext(h, run, t, n, data);
      DurableForever(h, run, t + 1, u, n, data);
    }
  }

  lemma DurableNext(h: Bytes -> string, run: seq<System>, t: nat, n: Name, data: Bytes)
    requires CleanRun(h, run) && t + 1 < |run|
    requires n.Final? && run[t].fs.Durable(n, data)
    ensures run[t + 1].fs.Durable(n, data)
  {
    Reachable(h, run, t);
    var s, s' := run[t], run[t + 1];
    assert Step(h, s, s');
    if Crash(s, s') {
      assert s'.fs.At(n).now in s.fs.At(n).disk;
    } else if Act(h, s, s') {
      var p, c :| Enabled(s, p, c) && s' == Advance(h, s, p, c);
      AdvanceKeepsInv(h, s, p, c);
      assert TargetsKept(s.fs, s'.fs);
    }
  }

  /** Every create job a process has returned from stays durable with exactly its bytes. */
  lemma ReturnedIsDurable(h: Bytes -> string, run: seq<System>, t: nat, u: nat, p: nat, j: nat)
    requires CleanRun(h, run) && t <= u < |run|
    requires p in run[t].processes && j < run[t].processes[p].done
    requires j < |run[t].processes[p].jobs| && run[t].processes[p].jobs[j].Create?
    ensures var job := run[t].processes[p].jobs[j]; run[u].fs.Durable(job.target, job.content)
  {
    Reachable(h, run, t);
    var q := run[t].processes[p];
    assert ProcessOk(run[t].fs, q, p);
    assert Completed(run[t].fs, q.jobs[j], Owner(p, j), q.created[j]);
    assert WellFormedJob(q.jobs[j]);
    DurableForever(h, run, t, u, q.jobs[j].target, q.jobs[j].content);
  }

  /** Job `j` of `p` has returned and reported `created`. */
  ghost predicate ReportedCreated(s: System, p: nat, j: nat, n: Name) {
    && p in s.processes
    && var q := s.processes[p];
       j < q.done && j < |q.created| && j < |q.jobs|
       && q.jobs[j].Create? && q.jobs[j].target == n && q.created[j]
  }

  /** Of all the requests for one target that return, at most one reports that it created it. */
  lemma OneCreator(h: Bytes -> string, run: seq<System>, t: nat, n: Name, p: nat, j: nat, r: nat, k: nat)
    requires CleanRun(h, run) && t < |run|
    requires ReportedCreated(run[t], p, j, n) && ReportedCreated(run[t], r, k, n)
    ensures p == r && j == k
  {
    Reachable(h, run, t);
    var s := run[t];
    assert ProcessOk(s.fs, s.processes[p], p) && ProcessOk(s.fs, s.processes[r], r);
    assert Completed(s.fs, s.processes[p].jobs[j], Owner(p, j), true);
    assert Completed(s.fs, s.processes[r].jobs[k], Owner(r, k), true);
  }

  /** The comparison step rejects exactly the requests whose bytes differ from the target's,
      and touches no file. */
  lemma RejectsExactlyDifferentBytes(h: Bytes -> string, run: seq<System>, t: nat, p: nat, c: Choice)
    requires CleanRun(h, run) && t < |run|
    requires Enabled(run[t], p, c) && run[t].processes[p].phase.Occupied?
    ensures var s, s' := run[t], Advance(h, run[t], p, c);
            var job := s.processes[p].jobs[s.processes[p].done];
            && s'.fs == s.fs
            && (s'.processes[p].phase.Rejecting? <==> !s.fs.Holds(job.target, job.content))
            && (s'.processes[p].phase == Linked(false) <==> s.fs.Holds(job.target, job.content))
  {
    Reachable(h, run, t);
    var s := run[t];
    var q := s.processes[p];
    assert ProcessOk(s.fs, q, p);
    var i := s.fs.At(q.jobs[q.done].target).now.value;
    assert WellFormedJob(q.jobs[q.done]);
    assert Some(i) in s.fs.At(q.jobs[q.done].target).disk;
    assert Backed(s, q.jobs[q.done].target, i);
    ComparisonDecides(h, s, p, i);
  }

  /** A request that raised the collision error has left no name for its temporary inode,
      neither visible nor waiting on disk. */
  lemma CollidedLeavesNothing(h: Bytes -> string, run: seq<System>, t: nat, p: nat)
    requires CleanRun(h, run) && t < |run|
    requires p in run[t].processes && run[t].processes[p].phase.Collided?
    ensures var q := run[t].processes[p];
            forall n :: run[t].fs.At(n).now != Some(q.ino) && Some(q.ino) !in run[t].fs.At(n).disk
  {
    Reachable(h, run, t);
    assert ProcessOk(run[t].fs, run[t].processes[p], p);
  }

  /** Whoever else has a job for one of `p`'s create-only targets writes the same bytes there. */
  ghost predicate Undisputed(s: System, p: nat)
    requires p in s.processes
  {
    forall j, r, k ::
      && 0 <= j < |s.processes[p].jobs| && s.processes[p].jobs[j].Create?
      && r in s.processes && 0 <= k < |s.processes[r].jobs|
      && s.processes[p].jobs[j].target == s.processes[r].jobs[k].target
      ==> s.processes[p].jobs[j].content == s.processes[r].jobs[k].content
  }

  predicate Rejected(q: Process) {
    q.phase.Rejecting? || q.phase.Withdrawn? || q.phase.Collided?
  }

  /** A writer whose targets are undisputed never collides, whatever crashed before and whoever
      else is writing. */
  lemma {:induction false} UndisputedNeverCollide(h: Bytes -> string, run: seq<System>, t: nat, p: nat)
    requires CleanRun(h, run) && t < |run| && p in run[t].processes
    requires forall u :: 0 <= u <= t && p in run[u].processes ==> Undisputed(run[u], p)
    ensures !Rejected(run[t].processes[p])
  {
    if t > 0 {
      assert Step(h, run[t - 1], run[t - 1 + 1]);
      if p in run[t - 1].processes {
        UndisputedNeverCollide(h, run, t - 1, p);
        NoRejectingStep(h, run, t - 1, p);
      }
    }
  }

  /** Once started, a process keeps its jobs. */
  lemma {:induction false} JobsStay(h: Bytes -> string, run: seq<System>, t: nat, u: nat, p: nat)
    requires Run(h, run) && t <= u < |run| && p in run[t].processes
    ensures p in run[u].processes && run[u].processes[p].jobs == run[t].processes[p].jobs
  {
    if t < u {
      JobsStay(h, run, t, u - 1, p);
      assert Step(h, run[u - 1], run[u - 1 + 1]);
    }
  }

  lemma NoRejectingStep(h: Bytes -> string, run: seq<System>, t: nat, p: nat)
    requires CleanRun(h, run) && t + 1 < |run|
    requires p in run[t].processes && Undisputed(run[t], p) && !Rejected(run[t].processes[p])
    requires p in run[t + 1].processes
    ensures !Rejected(run[t + 1].processes[p])
  {
    var s, s' := run[t], run[t + 1];
    assert Step(h, s, s');
    if Act(h, s, s') {
      var r, c :| Enabled(s, r, c) && s' == Advance(h, s, r, c);
      OnlyComparisonRejects(h, s, r, c, p);
      if r == p && s.processes[p].phase.Occupied? {
        RejectsExactlyDifferentBytes(h, run, t, p, c);
        UndisputedTargetHolds(h, run, t, p);
      }
    }
  }

  lemma OnlyComparisonRejects(h: Bytes -> string, s: System, r: nat, c: Choice, p: nat)
    requires Enabled(s, r, c) && p in s.processes && !Rejected(s.processes[p])
    ensures Rejected(Advance(h, s, r, c).processes[p]) ==> r == p && s.processes[p].phase.Occupied?
  {
  }

  lemma UndisputedTargetHolds(h: Bytes -> string, run: seq<System>, t: nat, p: nat)
    requires CleanRun(h, run) && t < |run|
    requires p in run[t].processes && Undisputed(run[t], p) && run[t].processes[p].phase.Occupied?
    requires run[t].processes[p].done < |run[t].processes[p].jobs|
    ensures var job := run[t].processes[p].jobs[run[t].processes[p].done];
            run[t].fs.Holds(job.target, job.content)
  {
    var s := run[t];
    var q := s.processes[p];
    OccupiedTarget(h, run, t, p);
    VisibleIsComplete(h, run, t, q.jobs[q.done].target);
    var w: nat, k: nat :| PublishedBy(s, q.jobs[q.done].target, w, k);
    assert q.jobs[q.done].target == s.processes[w].jobs[k].target;
  }

  lemma OccupiedTarget(h: Bytes -> string, run: seq<System>, t: nat, p: nat)
    requires CleanRun(h, run) && t < |run|
    requires p in run[t].processes && run[t].processes[p].phase.Occupied?
    requires run[t].processes[p].done < |run[t].processes[p].jobs|
    ensures var job := run[t].processes[p].jobs[run[t].processes[p].done];
            job.Create? && job.target.Final? && run[t].fs.At(job.target).now.Some?
  {
    Reachable(h, run, t);
    assert ProcessOk(run[t].fs, run[t].processes[p], p);
  }

  /** What is left of a process: jobs, then phases of the current job, then bytes to write. */
  function Rank(phase: Phase): nat {
    match phase
    case Ready => 10
    case Writing => 9
    case Closed => 8
    case Occupied => 7
    case Linked(_) => 6
    case Rejecting => 6
    case Settled(_) => 5
    case Withdrawn => 5
    case Cleaned(_) => 4
    case Replaced => 4
    case Collided => 0
    case Failed => 0
    case Stopped => 0
  }

  function Unwritten(s: System, q: Process): int {
    if q.phase.Writing? && q.done < |q.jobs| && q.ino in s.fs.inodes
    then |q.jobs[q.done].content| - |s.fs.inodes[q.ino].data| else 0
  }

  ghost predicate Closer(s: System, q: Process, s': System, q': Process) {
    && 0 <= Unwritten(s', q') && q'.done <= |q'.jobs| && q'.jobs == q.jobs
    && (|| q'.done > q.done
        || (q'.done == q.done && Rank(q'.phase) < Rank(q.phase))
        || (q'.done == q.done && q'.phase == q.phase && Unwritten(s', q') < Unwritten(s, q)))
  }

  /** Every own step of a process brings it closer to its end, under arbitrary short writes. */
  lemma EveryStepCounts(h: Bytes -> string, run: seq<System>, t: nat, p: nat, c: Choice)
    requires CleanRun(h, run) && t < |run| && Enabled(run[t], p, c)
    ensures var s, s' := run[t], Advance(h, run[t], p, c);
            Closer(s, s.processes[p], s', s'.processes[p])
  {
    Reachable(h, run, t);
    var s := run[t];
    AdvanceKeepsInv(h, s, p, c);
    OwnStepCounts(h, s, p, c);
  }

  lemma OwnStepCounts(h: Bytes -> string, s: System, p: nat, c: Choice)
    requires Enabled(s, p, c) && ProcessOk(s.fs, s.processes[p], p)
    requires ProcessOk(Advance(h, s, p, c).fs, Advance(h, s, p, c).processes[p], p)
    ensures Closer(s, s.processes[p], Advance(h, s, p, c), Advance(h, s, p, c).processes[p])
  {
    var q, s' := s.processes[p], Advance(h, s, p, c);
    if s'.processes[p].phase.Writing? {
      var content, q' := q.jobs[q.done].content, s'.processes[p];
      assert PhaseOk(s'.fs, q', p);
      assert |s'.fs.inodes[q'.ino].data| <= |content|;
    }
  }

  // ---- every writer reaches its end ----

  /** A process that has not finished can always take a step. */
  lemma UnfinishedCanStep(h: Bytes -> string, run: seq<System>, t: nat, p: nat)
    requires CleanRun(h, run) && t < |run| && p in run[t].processes
    ensures !Finished(run[t].processes[p]) <==> exists c :: Enabled(run[t], p, c)
  {
    Reachable(h, run, t);
    var s := run[t];
    var q := s.processes[p];
    assert ProcessOk(s.fs, q, p);
    if !Finished(q) {
      var c := NextChoice(s, p);
    }
  }

  lemma NextChoice(s: System, p: nat) returns (c: Choice)
    requires Inv(s) && p in s.processes && !Finished(s.processes[p])
    ensures Enabled(s, p, c)
  {
    var q := s.processes[p];
    assert ProcessOk(s.fs, q, p);
    c := Choice(0, 0, 0);
    if q.phase.Ready? {
      FreshInode(s.fs.inodes.Keys);
      FreshTag(s.fs, q.jobs[q.done].target);
      var ino: nat :| ino !in s.fs.inodes.Keys;
      var tag: nat :| s.fs.At(TemporaryFor(q.jobs[q.done].target, tag)).now.None?;
      c := Choice(tag, ino, 0);
    } else if q.phase.Occupied? {
      var n := q.jobs[q.done].target;
      assert s.fs.At(n).now in s.fs.At(n).disk;
    }
  }

  lemma Extended(h: Bytes -> string, run: seq<System>, s': System)
    requires CleanRun(h, run) && Step(h, run[|run| - 1], s') && NoCollision(h, s')
    ensures CleanRun(h, run + [s'])
  {
    var longer := run + [s'];
    forall t | 0 <= t < |longer| - 1
      ensures Step(h, longer[t], longer[t + 1])
    {
      if t < |run| - 1 { assert Step(h, run[t], run[t + 1]); }
    }
  }

  ghost predicate Moves(h: Bytes -> string, s: System, s': System, p: nat) {
    exists c :: Enabled(s, p, c) && s' == Advance(h, s, p, c)
  }

  /** From position `from` on only `p` moves. */
  ghost predicate OnlyMoves(h: Bytes -> string, run: seq<System>, from: nat, p: nat) {
    forall t :: from <= t < |run| - 1 ==> Moves(h, run[t], run[t + 1], p)
  }

  ghost predicate SameJobs(s: System, s': System) {
    s'.processes.Keys == s.processes.Keys && forall p :: p in s.processes ==>
      s'.processes[p].jobs == s.processes[p].jobs
  }

  lemma AdvanceKeepsJobs(h: Bytes -> string, s: System, p: nat, c: Choice)
    requires Enabled(s, p, c)
    ensures SameJobs(s, Advance(h, s, p, c))
  {
  }

  lemma SameJobsNoCollision(h: Bytes -> string, s: System, s': System)
    requires SameJobs(s, s') && NoCollision(h, s)
    ensures NoCollision(h, s')
  {
  }

  lemma Acted(h: Bytes -> string, run: seq<System>, p: nat, c: Choice)
    requires CleanRun(h, run) && Enabled(run[|run| - 1], p, c)
    ensures CleanRun(h, run + [Advance(h, run[|run| - 1], p, c)])
  {
    var s := run[|run| - 1];
    var s' := Advance(h, s, p, c);
    AdvanceKeepsJobs(h, s, p, c);
    SameJobsNoCollision(h, s, s');
    assert Act(h, s, s');
    Extended(h, run, s');
  }

  lemma OneMove(h: Bytes -> string, run: seq<System>, p: nat) returns (s': System)
    requires CleanRun(h, run) && p in run[|run| - 1].processes && !Finished(run[|run| - 1].processes[p])
    ensures CleanRun(h, run + [s']) && Moves(h, run[|run| - 1], s', p) && p in s'.processes
    ensures Closer(run[|run| - 1], run[|run| - 1].processes[p], s', s'.processes[p])
  {
    var s := run[|run| - 1];
    Reachable(h, run, |run| - 1);
    var c := NextChoice(s, p);
    s' := Advance(h, s, p, c);
    EveryStepCounts(h, run, |run| - 1, p, c);
    Acted(h, run, p, c);
    AdvanceKeepsJobs(h, s, p, c);
  }

  lemma MovesExtend(h: Bytes -> string, run: seq<System>, longer: seq<System>, s': System, p: nat)
    requires run != [] && run + [s'] <= longer && Moves(h, run[|run| - 1], s', p) && OnlyMoves(h, longer, |run|, p)
    ensures OnlyMoves(h, longer, |run| - 1, p)
  {
    assert longer[|run| - 1] == (run + [s'])[|run| - 1] && longer[|run|] == (run + [s'])[|run|];
  }

  /** Left to itself, every process of every run reaches its end. */
  lemma {:induction false} RunsToEnd(h: Bytes -> string, run: seq<System>, p: nat) returns (longer: seq<System>)
    requires CleanRun(h, run) && p in run[|run| - 1].processes
    ensures CleanRun(h, longer) && run <= longer && OnlyMoves(h, longer, |run| - 1, p)
    ensures p in longer[|longer| - 1].processes && Finished(longer[|longer| - 1].processes[p])
    decreases |run[|run| - 1].processes[p].jobs| - run[|run| - 1].processes[p].done,
              Rank(run[|run| - 1].processes[p].phase),
              Unwritten(run[|run| - 1], run[|run| - 1].processes[p])
  {
    if Finished(run[|run| - 1].processes[p]) {
      longer := run;
    } else {
      var s' := OneMove(h, run, p);
      longer := RunsToEnd(h, run + [s'], p);
      MovesExtend(h, run, longer, s', p);
    }
  }
}
