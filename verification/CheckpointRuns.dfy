/** The checkpoint chain on the step machine: concurrent appenders, kills and crashes.

    An appender runs the checks of `append_checkpoint`, each at a moment of its own, and then one
    create job.  The invariant says that an appender past its checks has its predecessor below it
    and nothing above its place; `CheckpointTheorems` draws the conclusions.
 */
module CheckpointRuns {
  import opened Wrappers
  import opened Hashes
  import opened FileSystems
  import opened Protocol
  import opened ProtocolInvariant
  import opened ProtocolSteps
  import opened ProtocolTheorems
  import opened CheckpointNames
  import opened CheckpointRecords
  import opened Checkpoints

  /** How a store keeps checkpoints: their content hash, where each is filed and as which bytes, and
      the number the listing reads from a name for an epoch. */
  datatype Shelf = Shelf(
    hash: Checkpoint -> string,
    place: Place -> Name,
    text: Checkpoint -> Bytes,
    number: (Name, nat) -> Option<nat>)

  ghost predicate Proper(d: Shelf) {
    && (forall k :: d.place(k).Final? && d.number(d.place(k), k.0) == Some(k.1))
    && (forall j, k :: d.place(j) == d.place(k) ==> j == k)
    && (forall a, b :: d.text(a) == d.text(b) ==> a == b)
  }

  /** The checkpoint directory `dir` under digest `h`. */
  function ShelfIn(h: Hash, dir: string): Shelf {
    Shelf(ContentHash(h),
          (k: Place) => SlotName(dir, k.0, k.1),
          c => CheckpointText(c),
          (x: Name, epoch: nat) => if x.Final? && x.dir == dir then SequenceOf(x.base, epoch) else None)
  }

  lemma ShelfIsProper(h: Hash, dir: string)
    ensures Proper(ShelfIn(h, dir))
  {
    var d := ShelfIn(h, dir);
    forall k
      ensures d.place(k).Final? && d.number(d.place(k), k.0) == Some(k.1)
    {
      SequenceOfFileName(k.0, k.1, k.0);
    }
    forall j, k | d.place(j) == d.place(k)
      ensures j == k
    {
      FileNameInjective(j.0, j.1, k.0, k.1);
    }
    forall a, b | d.text(a) == d.text(b)
      ensures a == b
    {
      TextBindsCheckpoint(a, b);
    }
  }

  // ---- what is on the shelf ----

  predicate Taken(d: Shelf, fs: FileSystem, k: Place) {
    fs.At(d.place(k)).now.Some?
  }

  ghost predicate Stored(d: Shelf, fs: FileSystem, c: Checkpoint) {
    Genuine(d.hash, c) && fs.Holds(d.place(Position(c)), d.text(c))
  }

  /** The store a reader of the directory sees. */
  ghost predicate Shows(d: Shelf, fs: FileSystem, files: Store) {
    && (forall k :: k in files <==> Taken(d, fs, k))
    && (forall k :: k in files ==> Position(files[k]) == k && Stored(d, fs, files[k]))
  }

  ghost predicate NoGaps(d: Shelf, fs: FileSystem) {
    forall e: nat, n: nat :: n > 1 && Taken(d, fs, (e, n)) ==> Taken(d, fs, (e, n - 1))
  }

  /** Neighbours on the shelf name each other. */
  ghost predicate Joined(d: Shelf, fs: FileSystem) {
    forall b, c :: Stored(d, fs, b) && Stored(d, fs, c) && b.epoch == c.epoch && b.sequence + 1 == c.sequence ==>
      Precedes(b, c)
  }

  // ---- appenders ----

  function AppendJob(d: Shelf, c: Checkpoint): Job {
    Create(d.place(Position(c)), d.text(c), ByDigestAndSize)
  }

  ghost predicate IsAppend(d: Shelf, job: Job, k: Place) {
    exists c :: Genuine(d.hash, c) && Position(c) == k && job == AppendJob(d, c)
  }

  /** Only `append_checkpoint` writes under the names of checkpoints. */
  ghost predicate OnlyAppends(d: Shelf, s: System) {
    forall p, i, k ::
      && p in s.processes && 0 <= i < |s.processes[p].jobs| && s.processes[p].jobs[i].target == d.place(k)
      ==> IsAppend(d, s.processes[p].jobs[i], k)
  }

  /** The stored predecessor is the one `c` names. */
  ghost predicate Follows(d: Shelf, fs: FileSystem, c: Checkpoint) {
    c.sequence > 1 ==> exists b :: Stored(d, fs, b) && Precedes(b, c)
  }

  ghost predicate NotPassed(d: Shelf, fs: FileSystem, k: Place) {
    Taken(d, fs, k) || forall n: nat :: Taken(d, fs, (k.0, n)) ==> n < k.1
  }

  /** A step that is not a crash. */
  ghost predicate Quiet(h: Hash, s: System, s': System) {
    Start(s, s') || Act(h, s, s') || Stop(s, s')
  }

  ghost predicate QuietAt(h: Hash, run: seq<System>, t: nat)
    requires t + 1 < |run|
  {
    Quiet(h, run[t], run[t + 1])
  }

  /** Between the moments `from` and `to` the machine did not crash. */
  ghost predicate Calm(h: Hash, run: seq<System>, from: nat, to: nat)
    requires from <= to < |run|
  {
    forall x: nat :: from <= x < to ==> QuietAt(h, run, x)
  }

  /** A listing that was read between two moments: it has every name that was there at the first,
      and no name that was not there at the second. */
  ghost predicate Scan(names: set<Name>, first: FileSystem, second: FileSystem) {
    && (forall x: Name :: !x.Temporary? && first.At(x).now.Some? ==> x in names)
    && (forall x: Name :: x in names ==> !x.Temporary? && second.At(x).now.Some?)
  }

  ghost predicate NextInScan(d: Shelf, first: FileSystem, second: FileSystem, c: Checkpoint) {
    exists names :: Scan(names, first, second) && NextListed(names, d.number, c.epoch, c.sequence)
  }

  /** The checks of `append_checkpoint`, each at a moment of its own, with no crash since: the file
      existed at `u` or was next in a listing read between `v` and `x`, and the predecessor was
      read at `w`. */
  ghost predicate ChecksPassed(d: Shelf, run: seq<System>, u: nat, v: nat, x: nat, w: nat, c: Checkpoint)
    requires u <= v <= x <= w < |run|
  {
    && (Taken(d, run[u].fs, Position(c)) || NextInScan(d, run[v].fs, run[x].fs, c))
    && Follows(d, run[w].fs, c)
  }

  ghost predicate Checked(h: Hash, d: Shelf, run: seq<System>, t: nat, c: Checkpoint)
    requires t < |run|
  {
    exists u: nat, v: nat, x: nat, w: nat ::
      u <= v <= x <= w <= t && Calm(h, run, u, t) && ChecksPassed(d, run, u, v, x, w, c)
  }

  /** Process `p` enters `atomic_write_bytes` for `job`. */
  predicate Begins(s: System, s': System, p: nat, job: Job) {
    && p in s.processes && p in s'.processes
    && var q := s.processes[p];
       q.phase.Ready? && q.done < |q.jobs| && q.jobs[q.done] == job && s'.processes[p].phase.Writing?
  }

  predicate BeginsAt(run: seq<System>, t: nat, p: nat, job: Job)
    requires t + 1 < |run|
  {
    Begins(run[t], run[t + 1], p, job)
  }

  ghost predicate GuardedAt(h: Hash, d: Shelf, run: seq<System>, t: nat)
    requires t + 1 < |run|
  {
    forall p, c :: Genuine(d.hash, c) && BeginsAt(run, t, p, AppendJob(d, c)) ==> Checked(h, d, run, t, c)
  }

  ghost predicate Guarded(h: Hash, d: Shelf, run: seq<System>) {
    forall t: nat :: t + 1 < |run| ==> GuardedAt(h, d, run, t)
  }

  /** A run in which checkpoints are written by `append_checkpoint` alone, any number of appenders at
      a time, beside any other writers. */
  ghost predicate AppendRun(h: Hash, d: Shelf, run: seq<System>) {
    CleanRun(h, run) && Guarded(h, d, run) && forall t :: 0 <= t < |run| ==> OnlyAppends(d, run[t])
  }

  // ---- steps that are not crashes ----

  lemma QuietKeepsTargets(h: Hash, s: System, s': System)
    requires Inv(s) && NoCollision(h, s) && Quiet(h, s, s')
    ensures TargetsKept(s.fs, s'.fs)
  {
    if Act(h, s, s') {
      var p, c :| Enabled(s, p, c) && s' == Advance(h, s, p, c);
      AdvanceKeepsInv(h, s, p, c);
    }
  }

  lemma StoredStays(d: Shelf, fs: FileSystem, fs': FileSystem, c: Checkpoint)
    requires Proper(d) && TargetsKept(fs, fs') && Stored(d, fs, c)
    ensures Stored(d, fs', c)
  {
    assert d.place(Position(c)).Final?;
  }

  lemma FollowsStays(d: Shelf, fs: FileSystem, fs': FileSystem, c: Checkpoint)
    requires Proper(d) && TargetsKept(fs, fs') && Follows(d, fs, c)
    ensures Follows(d, fs', c)
  {
    if c.sequence > 1 {
      var b :| Stored(d, fs, b) && Precedes(b, c);
      StoredStays(d, fs, fs', b);
    }
  }

  predicate Appending(q: Process, job: Job) {
    q.done < |q.jobs| && q.jobs[q.done] == job && (q.phase.Writing? || q.phase.Closed? || q.phase.Occupied?)
  }

  /** A create-only name becomes visible only by the link of a process that has it as target. */
  lemma NewTarget(h: Hash, s: System, p: nat, c: Choice, n: Name)
    requires Inv(s) && Enabled(s, p, c) && n.Final?
    requires s.fs.At(n).now.None? && Advance(h, s, p, c).fs.At(n).now.Some?
    ensures var q := s.processes[p];
            && q.phase.Closed? && q.done < |q.jobs| && q.jobs[q.done].target == n && q.jobs[q.done].Create?
            && Advance(h, s, p, c).fs.Holds(n, q.jobs[q.done].content)
  {
    assert ProcessOk(s.fs, s.processes[p], p);
  }

  /** Whoever takes a place is an appender of the record that stands there afterwards. */
  lemma NewlyTaken(h: Hash, d: Shelf, s: System, s': System, k: Place) returns (p: nat, c: Checkpoint)
    requires Proper(d) && Inv(s) && Quiet(h, s, s') && OnlyAppends(d, s)
    requires !Taken(d, s.fs, k) && Taken(d, s'.fs, k)
    ensures p in s.processes && Position(c) == k && Appending(s.processes[p], AppendJob(d, c)) && Stored(d, s'.fs, c)
  {
    assert Act(h, s, s');
    var a: Choice;
    p, a :| Enabled(s, p, a) && s' == Advance(h, s, p, a);
    NewTarget(h, s, p, a, d.place(k));
    var q := s.processes[p];
    assert IsAppend(d, q.jobs[q.done], k);
    c :| Genuine(d.hash, c) && Position(c) == k && q.jobs[q.done] == AppendJob(d, c);
  }

  /** Every appender that is past its checks still has its predecessor below it and nothing above. */
  ghost predicate AppendersOk(d: Shelf, s: System) {
    forall p, c :: p in s.processes && Genuine(d.hash, c) && Appending(s.processes[p], AppendJob(d, c)) ==>
      Follows(d, s.fs, c) && NotPassed(d, s.fs, Position(c))
  }

  lemma TakenStays(d: Shelf, fs: FileSystem, fs': FileSystem, k: Place)
    requires Proper(d) && TargetsKept(fs, fs') && Taken(d, fs, k)
    ensures Taken(d, fs', k)
  {
    assert d.place(k).Final?;
  }

  lemma NotPassedStays(h: Hash, d: Shelf, s: System, s': System, k: Place)
    requires Proper(d) && Inv(s) && NoCollision(h, s) && Quiet(h, s, s') && OnlyAppends(d, s) && AppendersOk(d, s)
    requires k.1 > 0 && NotPassed(d, s.fs, k)
    ensures NotPassed(d, s'.fs, k)
  {
    if Taken(d, s.fs, k) {
      assert Taken(d, s'.fs, k) by {
        QuietKeepsTargets(h, s, s');
        TakenStays(d, s.fs, s'.fs, k);
      }
    } else {
      forall n: nat | Taken(d, s'.fs, (k.0, n)) && n != k.1
        ensures n < k.1
      {
        if !Taken(d, s.fs, (k.0, n)) {
          NothingAbove(h, d, s, s', k, n);
        }
      }
    }
  }

  lemma NothingAbove(h: Hash, d: Shelf, s: System, s': System, k: Place, n: nat)
    requires Proper(d) && Inv(s) && Quiet(h, s, s') && OnlyAppends(d, s) && AppendersOk(d, s)
    requires NotPassed(d, s.fs, k) && !Taken(d, s.fs, k) && k.1 > 0
    requires !Taken(d, s.fs, (k.0, n)) && Taken(d, s'.fs, (k.0, n)) && n != k.1
    ensures n < k.1
  {
    var p, c := NewlyTaken(h, d, s, s', (k.0, n));
    assert Follows(d, s.fs, c);
    if n > 1 {
      var b :| Stored(d, s.fs, b) && Precedes(b, c);
      assert Position(b) == (k.0, (n - 1) as nat) && Taken(d, s.fs, Position(b));
    }
  }

  // ---- whole runs ----

  lemma CalmStep(h: Hash, d: Shelf, run: seq<System>, t: nat)
    requires AppendRun(h, d, run) && t + 1 < |run| && QuietAt(h, run, t)
    ensures Quiet(h, run[t], run[t + 1]) && NoCollision(h, run[t]) && Inv(run[t])
  {
    Reachable(h, run, t);
    assert Step(h, run[t], run[t + 1]);
  }

  lemma FollowsNext(h: Hash, d: Shelf, run: seq<System>, t: nat, c: Checkpoint)
    requires AppendRun(h, d, run) && Proper(d) && t + 1 < |run| && QuietAt(h, run, t)
    requires Follows(d, run[t].fs, c)
    ensures Follows(d, run[t + 1].fs, c)
  {
    CalmStep(h, d, run, t);
    QuietKeepsTargets(h, run[t], run[t + 1]);
    FollowsStays(d, run[t].fs, run[t + 1].fs, c);
  }

  lemma NotPassedNext(h: Hash, d: Shelf, run: seq<System>, t: nat, k: Place)
    requires AppendRun(h, d, run) && Proper(d) && t + 1 < |run| && QuietAt(h, run, t)
    requires AppendersOk(d, run[t]) && k.1 > 0 && NotPassed(d, run[t].fs, k)
    ensures NotPassed(d, run[t + 1].fs, k)
  {
    CalmStep(h, d, run, t);
    NotPassedStays(h, d, run[t], run[t + 1], k);
  }

  lemma {:induction false} FollowsLater(h: Hash, d: Shelf, run: seq<System>, w: nat, t: nat, c: Checkpoint)
    requires AppendRun(h, d, run) && Proper(d) && w <= t < |run| && Calm(h, run, w, t)
    requires Follows(d, run[w].fs, c)
    ensures Follows(d, run[t].fs, c)
    decreases t - w
  {
    if w < t {
      assert QuietAt(h, run, w);
      FollowsNext(h, d, run, w, c);
      FollowsLater(h, d, run, w + 1, t, c);
    }
  }

  lemma {:induction false} NotPassedLater(h: Hash, d: Shelf, run: seq<System>, v: nat, t: nat, k: Place)
    requires AppendRun(h, d, run) && Proper(d) && v <= t < |run| && Calm(h, run, v, t)
    requires forall x :: v <= x < t ==> AppendersOk(d, run[x])
    requires k.1 > 0 && NotPassed(d, run[v].fs, k)
    ensures NotPassed(d, run[t].fs, k)
    decreases t - v
  {
    if v < t {
      assert QuietAt(h, run, v);
      NotPassedNext(h, d, run, v, k);
      NotPassedLater(h, d, run, v + 1, t, k);
    }
  }

  lemma NextIsNotPassed(d: Shelf, first: FileSystem, second: FileSystem, c: Checkpoint)
    requires Proper(d) && NextInScan(d, first, second, c)
    ensures NotPassed(d, first, Position(c))
  {
    var names :| Scan(names, first, second) && NextListed(names, d.number, c.epoch, c.sequence);
    forall n: nat | Taken(d, first, (c.epoch, n))
      ensures n < c.sequence
    {
      var x := d.place((c.epoch, n));
      assert x in names && d.number(x, c.epoch) == Some(n);
      assert Listed(names, d.number, c.epoch, n);
    }
  }

  /** What the checks saw still holds when the appender goes on. */
  lemma CheckedHolds(h: Hash, d: Shelf, run: seq<System>, t: nat, c: Checkpoint)
    requires AppendRun(h, d, run) && Proper(d) && t < |run| && Checked(h, d, run, t, c) && c.sequence > 0
    requires forall x :: 0 <= x < t ==> AppendersOk(d, run[x])
    ensures Follows(d, run[t].fs, c) && NotPassed(d, run[t].fs, Position(c))
  {
    var u: nat, v: nat, x: nat, w: nat :|
      u <= v <= x <= w <= t && Calm(h, run, u, t) && ChecksPassed(d, run, u, v, x, w, c);
    FollowsLater(h, d, run, w, t, c);
    if Taken(d, run[u].fs, Position(c)) {
      NotPassedLater(h, d, run, u, t, Position(c));
    } else {
      NextIsNotPassed(d, run[v].fs, run[x].fs, c);
      NotPassedLater(h, d, run, v, t, Position(c));
    }
  }

  /** An appender that is past its checks was so before the step, or passes them now. */
  lemma AppendingBefore(h: Hash, s: System, s': System, p: nat, job: Job)
    requires Quiet(h, s, s') && p in s'.processes && Appending(s'.processes[p], job)
    ensures p in s.processes && (Appending(s.processes[p], job) || Begins(s, s', p, job))
  {
  }

  lemma AppendersStayOk(h: Hash, d: Shelf, run: seq<System>, t: nat)
    requires AppendRun(h, d, run) && Proper(d) && t + 1 < |run| && QuietAt(h, run, t)
    requires forall x :: 0 <= x <= t ==> AppendersOk(d, run[x])
    ensures AppendersOk(d, run[t + 1])
  {
    var s' := run[t + 1];
    forall p, c | p in s'.processes && Genuine(d.hash, c) && Appending(s'.processes[p], AppendJob(d, c))
      ensures Follows(d, s'.fs, c) && NotPassed(d, s'.fs, Position(c))
    {
      CalmStep(h, d, run, t);
      AppendingBefore(h, run[t], s', p, AppendJob(d, c));
      if !Appending(run[t].processes[p], AppendJob(d, c)) {
        BeginnersAreOk(h, d, run, t, p, c);
      }
      AppenderStaysOk(h, d, run, t, c);
    }
  }

  lemma BeginnersAreOk(h: Hash, d: Shelf, run: seq<System>, t: nat, p: nat, c: Checkpoint)
    requires AppendRun(h, d, run) && Proper(d) && t + 1 < |run| && Genuine(d.hash, c)
    requires forall x :: 0 <= x <= t ==> AppendersOk(d, run[x])
    requires Begins(run[t], run[t + 1], p, AppendJob(d, c))
    ensures Follows(d, run[t].fs, c) && NotPassed(d, run[t].fs, Position(c))
  {
    assert GuardedAt(h, d, run, t) && BeginsAt(run, t, p, AppendJob(d, c));
    CheckedHolds(h, d, run, t, c);
  }

  lemma AppenderStaysOk(h: Hash, d: Shelf, run: seq<System>, t: nat, c: Checkpoint)
    requires AppendRun(h, d, run) && Proper(d) && t + 1 < |run| && QuietAt(h, run, t) && AppendersOk(d, run[t])
    requires c.sequence > 0 && Follows(d, run[t].fs, c) && NotPassed(d, run[t].fs, Position(c))
    ensures Follows(d, run[t + 1].fs, c) && NotPassed(d, run[t + 1].fs, Position(c))
  {
    NotPassedNext(h, d, run, t, Position(c));
    FollowsNext(h, d, run, t, c);
  }

  /** After a crash nobody is appending. */
  lemma CrashStopsAppenders(d: Shelf, s: System, s': System)
    requires Crash(s, s')
    ensures AppendersOk(d, s')
  {
  }

  lemma {:induction false} AppendersAreOk(h: Hash, d: Shelf, run: seq<System>, t: nat)
    requires AppendRun(h, d, run) && Proper(d) && t < |run|
    ensures forall x :: 0 <= x <= t ==> AppendersOk(d, run[x])
  {
    if t > 0 {
      AppendersAreOk(h, d, run, t - 1);
      if QuietAt(h, run, t - 1) {
        AppendersStayOk(h, d, run, t - 1);
      } else {
        assert Step(h, run[t - 1], run[t - 1 + 1]);
        CrashStopsAppenders(d, run[t - 1], run[t]);
      }
    }
  }
}
