/** Crashes and the checkpoint chain. */
module CheckpointTheorems {
  import opened Wrappers
  import opened Hashes
  import opened FileSystems
  import opened Protocol
  import opened ProtocolInvariant
  import opened ProtocolTheorems
  import opened CheckpointRecords
  import opened Checkpoints
  import opened CheckpointRuns

  // ---- what a reader sees ----

  lemma OneRecord(d: Shelf, fs: FileSystem, a: Checkpoint, b: Checkpoint)
    requires Proper(d) && Stored(d, fs, a) && Stored(d, fs, b) && Position(a) == Position(b)
    ensures a == b
  {
  }

  /** What stands at a place is one of the records that were appended there. */
  lemma TakenIsStored(h: Hash, d: Shelf, run: seq<System>, t: nat, k: Place) returns (c: Checkpoint)
    requires CleanRun(h, run) && Proper(d) && t < |run| && OnlyAppends(d, run[t]) && Taken(d, run[t].fs, k)
    ensures Position(c) == k && Stored(d, run[t].fs, c)
  {
    var s := run[t];
    assert d.place(k).Final?;
    VisibleIsComplete(h, run, t, d.place(k));
    var p: nat, i: nat :| PublishedBy(s, d.place(k), p, i);
    assert IsAppend(d, s.processes[p].jobs[i], k);
    c :| Genuine(d.hash, c) && Position(c) == k && s.processes[p].jobs[i] == AppendJob(d, c);
  }

  ghost function PlaceOf(d: Shelf, n: Name): Place
    requires exists k :: d.place(k) == n
  {
    var k :| d.place(k) == n; k
  }

  ghost predicate IsPlace(d: Shelf, n: Name) {
    exists k :: d.place(k) == n
  }

  ghost function RecordAt(d: Shelf, fs: FileSystem, k: Place): (c: Checkpoint)
    requires exists c :: Position(c) == k && Stored(d, fs, c)
    ensures Position(c) == k && Stored(d, fs, c)
  {
    var c :| Position(c) == k && Stored(d, fs, c); c
  }

  /** At every moment the directory shows a store. */
  lemma DirectoryShows(h: Hash, d: Shelf, run: seq<System>, t: nat) returns (files: Store)
    requires CleanRun(h, run) && Proper(d) && t < |run| && OnlyAppends(d, run[t])
    ensures Shows(d, run[t].fs, files)
  {
    var fs := run[t].fs;
    var names := set n | n in fs.slots && IsPlace(d, n) && fs.At(n).now.Some?;
    var places := set n | n in names :: PlaceOf(d, n);
    forall k
      ensures k in places <==> Taken(d, fs, k)
    {
      if Taken(d, fs, k) {
        assert d.place(k) in names && PlaceOf(d, d.place(k)) == k;
      }
    }
    forall k | k in places
      ensures exists c :: Position(c) == k && Stored(d, fs, c)
    {
      var c := TakenIsStored(h, d, run, t, k);
    }
    files := map k | k in places :: RecordAt(d, fs, k);
  }

  // ---- neighbours name each other, whatever crashes ----

  lemma CrashStored(d: Shelf, s: System, s': System, c: Checkpoint)
    requires Proper(d) && Inv(s) && Crash(s, s') && Stored(d, s'.fs, c)
    ensures Stored(d, s.fs, c)
  {
    var n := d.place(Position(c));
    var i := s'.fs.At(n).now.value;
    assert n.Final? && Some(i) in s.fs.At(n).disk;
    assert CreateOnlyShape(s.fs, n) && Backed(s, n, i);
  }

  lemma CrashKeepsJoined(d: Shelf, s: System, s': System)
    requires Proper(d) && Inv(s) && Crash(s, s') && Joined(d, s.fs)
    ensures Joined(d, s'.fs)
  {
    forall b, c | Stored(d, s'.fs, b) && Stored(d, s'.fs, c) && b.epoch == c.epoch && b.sequence + 1 == c.sequence
      ensures Precedes(b, c)
    {
      CrashStored(d, s, s', b);
      CrashStored(d, s, s', c);
    }
  }

  /** A stored record was stored before the step, or it was linked in it by an appender past its checks. */
  lemma StoredBefore(h: Hash, d: Shelf, run: seq<System>, t: nat, c: Checkpoint)
    requires AppendRun(h, d, run) && Proper(d) && t + 1 < |run| && QuietAt(h, run, t) && AppendersOk(d, run[t])
    requires Stored(d, run[t + 1].fs, c)
    ensures || Stored(d, run[t].fs, c)
            || (!Taken(d, run[t].fs, Position(c)) && Follows(d, run[t].fs, c) && NotPassed(d, run[t].fs, Position(c)))
  {
    CalmStep(h, d, run, t);
    if Taken(d, run[t].fs, Position(c)) {
      var b := TakenIsStored(h, d, run, t, Position(c));
      QuietKeepsTargets(h, run[t], run[t + 1]);
      StoredStays(d, run[t].fs, run[t + 1].fs, b);
      OneRecord(d, run[t + 1].fs, b, c);
    } else {
      var p, b := NewlyTaken(h, d, run[t], run[t + 1], Position(c));
      OneRecord(d, run[t + 1].fs, b, c);
    }
  }

  lemma FollowerIsJoined(d: Shelf, fs: FileSystem, b: Checkpoint, c: Checkpoint)
    requires Proper(d) && Follows(d, fs, c) && Stored(d, fs, b)
    requires b.epoch == c.epoch && b.sequence + 1 == c.sequence
    ensures Precedes(b, c)
  {
    assert Genuine(d.hash, b);
    var a :| Stored(d, fs, a) && Precedes(a, c);
    OneRecord(d, fs, a, b);
  }

  lemma NothingJustAbove(d: Shelf, fs: FileSystem, b: Checkpoint, c: Checkpoint)
    requires NotPassed(d, fs, Position(b)) && b.epoch == c.epoch && b.sequence + 1 == c.sequence
    requires Taken(d, fs, Position(c))
    ensures Taken(d, fs, Position(b))
  {
    assert Taken(d, fs, (b.epoch, c.sequence));
  }

  lemma PairStaysJoined(h: Hash, d: Shelf, run: seq<System>, t: nat, b: Checkpoint, c: Checkpoint)
    requires AppendRun(h, d, run) && Proper(d) && t + 1 < |run| && QuietAt(h, run, t) && AppendersOk(d, run[t])
    requires Joined(d, run[t].fs) && Stored(d, run[t + 1].fs, b) && Stored(d, run[t + 1].fs, c)
    requires b.epoch == c.epoch && b.sequence + 1 == c.sequence
    ensures Precedes(b, c)
  {
    StoredBefore(h, d, run, t, b);
    StoredBefore(h, d, run, t, c);
    PairIsJoined(d, run[t].fs, b, c);
  }

  lemma PairIsJoined(d: Shelf, fs: FileSystem, b: Checkpoint, c: Checkpoint)
    requires Proper(d) && Joined(d, fs) && b.epoch == c.epoch && b.sequence + 1 == c.sequence && b.sequence > 0
    requires Stored(d, fs, b) || (!Taken(d, fs, Position(b)) && NotPassed(d, fs, Position(b)))
    requires Stored(d, fs, c) || (!Taken(d, fs, Position(c)) && Follows(d, fs, c))
    ensures Precedes(b, c)
  {
    if Stored(d, fs, c) {
      if !Stored(d, fs, b) {
        NothingJustAbove(d, fs, b, c);
      }
    } else {
      var a :| Stored(d, fs, a) && Precedes(a, c);
      assert Position(a) == Position(b);
      FollowerIsJoined(d, fs, b, c);
    }
  }

  lemma {:induction false} AlwaysJoined(h: Hash, d: Shelf, run: seq<System>, t: nat)
    requires AppendRun(h, d, run) && Proper(d) && t < |run|
    ensures Joined(d, run[t].fs)
  {
    if t > 0 {
      AlwaysJoined(h, d, run, t - 1);
      JoinedNext(h, d, run, t - 1);
    }
  }

  lemma JoinedNext(h: Hash, d: Shelf, run: seq<System>, t: nat)
    requires AppendRun(h, d, run) && Proper(d) && t + 1 < |run| && Joined(d, run[t].fs)
    ensures Joined(d, run[t + 1].fs)
  {
    if QuietAt(h, run, t) {
      AppendersAreOk(h, d, run, t);
      var fs' := run[t + 1].fs;
      forall b, c | Stored(d, fs', b) && Stored(d, fs', c) && b.epoch == c.epoch && b.sequence + 1 == c.sequence
        ensures Precedes(b, c)
      {
        PairStaysJoined(h, d, run, t, b, c);
      }
    } else {
      Reachable(h, run, t);
      assert Step(h, run[t], run[t + 1]);
      CrashKeepsJoined(d, run[t], run[t + 1]);
    }
  }

  /** In every state of every run of appenders, after any crashes, each record in the directory is
      genuine, stands in its own place, and names the record below it if there is one. */
  lemma AlwaysSound(h: Hash, d: Shelf, run: seq<System>, t: nat, files: Store)
    requires AppendRun(h, d, run) && Proper(d) && t < |run| && Shows(d, run[t].fs, files)
    ensures Sound(d.hash, files)
  {
    AlwaysJoined(h, d, run, t);
    forall k | k in files
      ensures SoundAt(d.hash, files, k)
    {
      if k.1 > 1 && (k.0, k.1 - 1) in files {
        assert Precedes(files[(k.0, k.1 - 1)], files[k]);
      }
    }
  }

  // ---- without crashes there is no gap ----

  lemma NoGapsNext(h: Hash, d: Shelf, run: seq<System>, t: nat)
    requires AppendRun(h, d, run) && Proper(d) && t + 1 < |run| && QuietAt(h, run, t) && AppendersOk(d, run[t])
    requires NoGaps(d, run[t].fs)
    ensures NoGaps(d, run[t + 1].fs)
  {
    CalmStep(h, d, run, t);
    forall e: nat, n: nat | n > 1 && Taken(d, run[t + 1].fs, (e, n))
      ensures Taken(d, run[t + 1].fs, (e, n - 1))
    {
      PredecessorThere(h, d, run, t, e, n);
      QuietKeepsTargets(h, run[t], run[t + 1]);
      TakenStays(d, run[t].fs, run[t + 1].fs, (e, n - 1));
    }
  }

  lemma PredecessorThere(h: Hash, d: Shelf, run: seq<System>, t: nat, e: nat, n: nat)
    requires AppendRun(h, d, run) && Proper(d) && t + 1 < |run| && QuietAt(h, run, t) && AppendersOk(d, run[t])
    requires NoGaps(d, run[t].fs) && n > 1 && Taken(d, run[t + 1].fs, (e, n))
    ensures Taken(d, run[t].fs, (e, n - 1))
  {
    if !Taken(d, run[t].fs, (e, n)) {
      CalmStep(h, d, run, t);
      var p, c := NewlyTaken(h, d, run[t], run[t + 1], (e, n));
      var b :| Stored(d, run[t].fs, b) && Precedes(b, c);
      assert Position(b) == (e, (n - 1) as nat);
    }
  }

  /** As long as the machine does not crash, a directory without gaps stays without gaps. */
  lemma {:induction false} CalmKeepsWhole(h: Hash, d: Shelf, run: seq<System>, t: nat, u: nat)
    requires AppendRun(h, d, run) && Proper(d) && t <= u < |run| && Calm(h, run, t, u)
    requires NoGaps(d, run[t].fs)
    ensures NoGaps(d, run[u].fs)
    decreases u - t
  {
    if t < u {
      AppendersAreOk(h, d, run, t);
      assert QuietAt(h, run, t);
      NoGapsNext(h, d, run, t);
      CalmKeepsWhole(h, d, run, t + 1, u);
    }
  }

  // ---- what a crash can tear ----

  predicate MayVanish(d: Shelf, fs: FileSystem, k: Place) {
    None in fs.At(d.place(k)).disk
  }

  ghost predicate MaySurvive(d: Shelf, fs: FileSystem, k: Place) {
    exists i :: Some(i) in fs.At(d.place(k)).disk
  }

  /** Below every record that a crash may leave, the record is there and its entry was fsynced. */
  ghost predicate Anchored(d: Shelf, fs: FileSystem) {
    forall e: nat, n: nat :: n > 1 && MaySurvive(d, fs, (e, n)) ==> !MayVanish(d, fs, (e, n - 1))
  }

  /** Any choice among the values the entries may have makes up a crash. */
  lemma CrashChoosing(s: System, pick: Name -> Option<nat>) returns (s': System)
    requires forall n :: pick(n) in s.fs.At(n).disk
    ensures Crash(s, s') && forall n :: s'.fs.At(n).now == pick(n)
  {
    var fs := FileSystem(map n | n in s.fs.slots :: Slot(pick(n), {pick(n)}),
                         map i | i in s.fs.inodes :: s.fs.inodes[i].(synced := true));
    s' := System(fs, map p | p in s.processes :: Halted(s.processes[p]));
    forall n
      ensures fs.At(n) == Slot(pick(n), {pick(n)})
    {
      assert pick(n) in s.fs.At(n).disk;
    }
  }

  lemma TornCrash(d: Shelf, s: System, e: nat, n: nat) returns (s': System)
    requires Proper(d) && s.fs.WellFormed() && n > 1
    requires MaySurvive(d, s.fs, (e, n)) && MayVanish(d, s.fs, (e, n - 1))
    ensures Crash(s, s') && !NoGaps(d, s'.fs)
  {
    var upper, lower := d.place((e, n)), d.place((e, n - 1));
    assert upper != lower;
    var i :| Some(i) in s.fs.At(upper).disk;
    var pick := (x: Name) => if x == upper then Some(i) else if x == lower then None else s.fs.At(x).now;
    s' := CrashChoosing(s, pick);
    assert Taken(d, s'.fs, (e, n)) && !Taken(d, s'.fs, (e, n - 1));
  }

  /** Every crash leaves a directory without gaps if and only if every record that may survive
      stands on one that was fsynced. */
  lemma CrashKeepsWholeIff(h: Hash, d: Shelf, run: seq<System>, t: nat)
    requires CleanRun(h, run) && Proper(d) && t < |run|
    ensures (forall s' :: Crash(run[t], s') ==> NoGaps(d, s'.fs)) <==> Anchored(d, run[t].fs)
  {
    Reachable(h, run, t);
    var s := run[t];
    if Anchored(d, s.fs) {
      forall s' | Crash(s, s')
        ensures NoGaps(d, s'.fs)
      {
        AnchoredSurvives(d, s, s');
      }
    } else {
      var e: nat, n: nat :| n > 1 && MaySurvive(d, s.fs, (e, n)) && MayVanish(d, s.fs, (e, n - 1));
      var s' := TornCrash(d, s, e, n);
    }
  }

  lemma AnchoredSurvives(d: Shelf, s: System, s': System)
    requires Anchored(d, s.fs) && Crash(s, s')
    ensures NoGaps(d, s'.fs)
  {
    forall e: nat, n: nat | n > 1 && Taken(d, s'.fs, (e, n))
      ensures Taken(d, s'.fs, (e, n - 1))
    {
      assert s'.fs.At(d.place((e, n))).now in s.fs.At(d.place((e, n))).disk;
      assert MaySurvive(d, s.fs, (e, n));
    }
  }

  // ---- appenders whose predecessor was fsynced ----

  /** The record at `k` is there and no crash can remove it. */
  predicate Firm(d: Shelf, fs: FileSystem, k: Place) {
    Taken(d, fs, k) && !MayVanish(d, fs, k)
  }

  ghost predicate FsyncedAt(d: Shelf, run: seq<System>, t: nat)
    requires t + 1 < |run|
  {
    forall p, c :: Genuine(d.hash, c) && c.sequence > 1 && BeginsAt(run, t, p, AppendJob(d, c)) ==>
      Firm(d, run[t].fs, (c.epoch, c.sequence - 1))
  }

  /** Every append begins when the directory entry of the predecessor has been fsynced. */
  ghost predicate FsyncedFirst(d: Shelf, run: seq<System>) {
    forall t: nat :: t + 1 < |run| ==> FsyncedAt(d, run, t)
  }

  ghost predicate AppendersFirm(d: Shelf, s: System) {
    forall p, c ::
      && p in s.processes && Genuine(d.hash, c) && c.sequence > 1 && Appending(s.processes[p], AppendJob(d, c))
      ==> Firm(d, s.fs, (c.epoch, c.sequence - 1))
  }

  lemma FirmStays(h: Hash, d: Shelf, s: System, s': System, k: Place)
    requires Proper(d) && Inv(s) && NoCollision(h, s) && Quiet(h, s, s') && Firm(d, s.fs, k)
    ensures Firm(d, s'.fs, k)
  {
    assert d.place(k).Final? && CreateOnlyShape(s.fs, d.place(k));
    QuietKeepsTargets(h, s, s');
    DurableEntryStays(s.fs, s'.fs, d.place(k));
  }

  lemma DurableEntryStays(fs: FileSystem, fs': FileSystem, n: Name)
    requires n.Final? && CreateOnlyShape(fs, n) && TargetsKept(fs, fs')
    requires fs.WellFormed() && fs.At(n).now.Some? && None !in fs.At(n).disk
    ensures fs'.At(n).now.Some? && None !in fs'.At(n).disk
  {
    var i := fs.At(n).now.value;
    assert Some(i) in fs.At(n).disk;
    assert fs.At(n).disk == {Some(i)};
  }

  lemma FirmNext(h: Hash, d: Shelf, run: seq<System>, t: nat)
    requires CleanRun(h, run) && Proper(d) && t + 1 < |run| && FsyncedAt(d, run, t)
    requires Quiet(h, run[t], run[t + 1]) && AppendersFirm(d, run[t])
    ensures AppendersFirm(d, run[t + 1])
  {
    Reachable(h, run, t);
    var s, s' := run[t], run[t + 1];
    forall p, c |
      && p in s'.processes && Genuine(d.hash, c) && c.sequence > 1 && Appending(s'.processes[p], AppendJob(d, c))
      ensures Firm(d, s'.fs, (c.epoch, c.sequence - 1))
    {
      AppendingBefore(h, s, s', p, AppendJob(d, c));
      if !Appending(s.processes[p], AppendJob(d, c)) {
        assert BeginsAt(run, t, p, AppendJob(d, c));
      }
      FirmStays(h, d, s, s', (c.epoch, c.sequence - 1));
    }
  }

  /** In a reachable state what may survive a crash is visible. */
  lemma SurvivorsAreTaken(d: Shelf, s: System, k: Place)
    requires Proper(d) && Inv(s)
    ensures MaySurvive(d, s.fs, k) <==> Taken(d, s.fs, k)
  {
    assert d.place(k).Final? && CreateOnlyShape(s.fs, d.place(k));
    assert s.fs.At(d.place(k)).now in s.fs.At(d.place(k)).disk;
  }

  lemma AnchoredNext(h: Hash, d: Shelf, s: System, s': System)
    requires Proper(d) && Inv(s) && Inv(s') && NoCollision(h, s) && Quiet(h, s, s') && OnlyAppends(d, s)
    requires AppendersFirm(d, s) && Anchored(d, s.fs)
    ensures Anchored(d, s'.fs)
  {
    forall e: nat, n: nat | n > 1 && MaySurvive(d, s'.fs, (e, n))
      ensures !MayVanish(d, s'.fs, (e, n - 1))
    {
      StandsOnFirm(h, d, s, s', e, n);
      FirmStays(h, d, s, s', (e, n - 1));
    }
  }

  lemma StandsOnFirm(h: Hash, d: Shelf, s: System, s': System, e: nat, n: nat)
    requires Proper(d) && Inv(s) && Inv(s') && Quiet(h, s, s') && OnlyAppends(d, s)
    requires AppendersFirm(d, s) && Anchored(d, s.fs) && n > 1 && MaySurvive(d, s'.fs, (e, n))
    ensures Firm(d, s.fs, (e, n - 1))
  {
    SurvivorsAreTaken(d, s', (e, n));
    SurvivorsAreTaken(d, s, (e, n));
    if Taken(d, s.fs, (e, n)) {
      assert s.fs.At(d.place((e, n - 1))).now in s.fs.At(d.place((e, n - 1))).disk;
    } else {
      var p, c := NewlyTaken(h, d, s, s', (e, n));
    }
  }

  /** If every append begins on an fsynced predecessor, no crash can tear the chain at any moment of
      any run. */
  lemma {:induction false} FsyncedFirstKeepsWhole(h: Hash, d: Shelf, run: seq<System>, t: nat)
    requires CleanRun(h, run) && Proper(d) && t < |run| && FsyncedFirst(d, run)
    requires forall x :: 0 <= x < |run| ==> OnlyAppends(d, run[x])
    ensures AppendersFirm(d, run[t]) && Anchored(d, run[t].fs)
  {
    if t == 0 {
      assert forall n :: EMPTY.fs.At(n) == Slot(None, {None});
    } else {
      FsyncedFirstKeepsWhole(h, d, run, t - 1);
      FsyncedStep(h, d, run, t - 1);
    }
  }

  lemma FsyncedStep(h: Hash, d: Shelf, run: seq<System>, t: nat)
    requires CleanRun(h, run) && Proper(d) && t + 1 < |run| && FsyncedAt(d, run, t) && OnlyAppends(d, run[t])
    requires AppendersFirm(d, run[t]) && Anchored(d, run[t].fs)
    ensures AppendersFirm(d, run[t + 1]) && Anchored(d, run[t + 1].fs)
  {
    Reachable(h, run, t);
    Reachable(h, run, t + 1);
    assert Step(h, run[t], run[t + 1]);
    if Quiet(h, run[t], run[t + 1]) {
      FirmNext(h, d, run, t);
      AnchoredNext(h, d, run[t], run[t + 1]);
    } else {
      CrashKeepsAnchored(d, run[t], run[t + 1]);
    }
  }

  lemma CrashKeepsAnchored(d: Shelf, s: System, s': System)
    requires Proper(d) && Inv(s') && Anchored(d, s.fs) && Crash(s, s')
    ensures AppendersFirm(d, s') && Anchored(d, s'.fs)
  {
    AnchoredSurvives(d, s, s');
    forall e: nat, n: nat | n > 1 && MaySurvive(d, s'.fs, (e, n))
      ensures !MayVanish(d, s'.fs, (e, n - 1))
    {
      SurvivorsAreTaken(d, s', (e, n));
    }
  }

  // ---- appenders that replay the predecessor first ----

  ghost predicate Replays(d: Shelf, job: Job, c: Checkpoint) {
    exists b :: Genuine(d.hash, b) && Precedes(b, c) && job == AppendJob(d, b)
  }

  /** Every appender appends, or replays, the predecessor of a record earlier in its own life. */
  ghost predicate ReplayFirst(d: Shelf, s: System) {
    forall p, i, c ::
      && p in s.processes && 0 <= i < |s.processes[p].jobs|
      && Genuine(d.hash, c) && c.sequence > 1 && s.processes[p].jobs[i] == AppendJob(d, c)
      ==> ReplaysBefore(d, s.processes[p].jobs, i, c)
  }

  ghost predicate ReplaysBefore(d: Shelf, jobs: seq<Job>, i: nat, c: Checkpoint)
    requires i < |jobs|
  {
    exists j :: 0 <= j < i && Replays(d, jobs[j], c)
  }

  /** Whatever may survive under a target name is the content of a job, and the earlier jobs of the
      same process are durable. */
  lemma SurvivorIsOwned(h: Hash, run: seq<System>, t: nat, n: Name, i: nat) returns (p: nat, k: nat)
    requires CleanRun(h, run) && t < |run| && n.Final? && Some(i) in run[t].fs.At(n).disk
    ensures p in run[t].processes && k < |run[t].processes[p].jobs|
    ensures var jobs := run[t].processes[p].jobs;
            && jobs[k].target == n
            && (run[t].fs.At(n).now.Some? ==> run[t].fs.Holds(n, jobs[k].content))
            && forall j :: 0 <= j < k && jobs[j].Create? ==> run[t].fs.Durable(jobs[j].target, jobs[j].content)
  {
    Reachable(h, run, t);
    var s := run[t];
    assert Backed(s, n, i) && OwnerKnown(s, i) && CreateOnlyShape(s.fs, n);
    p, k := s.fs.inodes[i].owner.process, s.fs.inodes[i].owner.job;
    var q := s.processes[p];
    assert ProcessOk(s.fs, q, p);
    forall j | 0 <= j < k && q.jobs[j].Create?
      ensures s.fs.Durable(q.jobs[j].target, q.jobs[j].content)
    {
      assert Completed(s.fs, q.jobs[j], Owner(p, j), q.created[j]);
    }
  }

  /** A record that may survive a crash stands on a durable predecessor. */
  lemma StandsOnDurable(h: Hash, d: Shelf, run: seq<System>, t: nat, e: nat, n: nat)
    returns (b: Checkpoint, c: Checkpoint)
    requires CleanRun(h, run) && Proper(d) && t < |run| && OnlyAppends(d, run[t]) && ReplayFirst(d, run[t])
    requires n > 1 && MaySurvive(d, run[t].fs, (e, n))
    ensures Genuine(d.hash, b) && Precedes(b, c) && Position(c) == (e, n)
    ensures run[t].fs.Durable(d.place((e, n - 1)), d.text(b))
    ensures Taken(d, run[t].fs, (e, n)) ==> Stored(d, run[t].fs, c)
  {
    var i :| Some(i) in run[t].fs.At(d.place((e, n))).disk;
    var p, k := SurvivorIsOwned(h, run, t, d.place((e, n)), i);
    var jobs := run[t].processes[p].jobs;
    assert IsAppend(d, jobs[k], (e, n));
    c :| Genuine(d.hash, c) && Position(c) == (e, n) && jobs[k] == AppendJob(d, c);
    assert ReplaysBefore(d, jobs, k, c);
    var j :| 0 <= j < k && Replays(d, jobs[j], c);
    b :| Genuine(d.hash, b) && Precedes(b, c) && jobs[j] == AppendJob(d, b);
    assert Position(b) == (e, (n - 1) as nat);
  }

  /** If every appender replays the predecessor first, the chain is whole and linked at every moment
      of every run, and no crash can tear it. */
  lemma ReplayFirstKeepsChain(h: Hash, d: Shelf, run: seq<System>, t: nat, files: Store)
    requires CleanRun(h, run) && Proper(d) && t < |run| && OnlyAppends(d, run[t]) && ReplayFirst(d, run[t])
    requires Shows(d, run[t].fs, files)
    ensures Chained(d.hash, files) && Anchored(d, run[t].fs)
  {
    forall k | k in files && k.1 > 1
      ensures (k.0, k.1 - 1) in files && Precedes(files[(k.0, k.1 - 1)], files[k])
    {
      ReplayedLink(h, d, run, t, files, k);
    }
    forall k | k in files
      ensures SoundAt(d.hash, files, k)
    {
    }
    forall e: nat, n: nat | n > 1 && MaySurvive(d, run[t].fs, (e, n))
      ensures !MayVanish(d, run[t].fs, (e, n - 1))
    {
      var b, c := StandsOnDurable(h, d, run, t, e, n);
    }
  }

  lemma ReplayedLink(h: Hash, d: Shelf, run: seq<System>, t: nat, files: Store, k: Place)
    requires CleanRun(h, run) && Proper(d) && t < |run| && OnlyAppends(d, run[t]) && ReplayFirst(d, run[t])
    requires Shows(d, run[t].fs, files) && k in files && k.1 > 1
    ensures (k.0, k.1 - 1) in files && Precedes(files[(k.0, k.1 - 1)], files[k])
  {
    Reachable(h, run, t);
    assert Taken(d, run[t].fs, k);
    assert run[t].fs.At(d.place(k)).now in run[t].fs.At(d.place(k)).disk;
    var b, c := StandsOnDurable(h, d, run, t, k.0, k.1);
    OneRecord(d, run[t].fs, c, files[k]);
    assert Taken(d, run[t].fs, (k.0, k.1 - 1));
    OneRecord(d, run[t].fs, b, files[(k.0, k.1 - 1)]);
  }

  // ---- a gap is never filled ----

  /** Place `(e, n)` is empty and a record above it is durable. */
  ghost predicate GapAt(d: Shelf, fs: FileSystem, e: nat, n: nat, m: nat) {
    0 < n < m && !Taken(d, fs, (e, n)) && Firm(d, fs, (e, m))
  }

  lemma GapNext(h: Hash, d: Shelf, run: seq<System>, t: nat, e: nat, n: nat, m: nat)
    requires AppendRun(h, d, run) && Proper(d) && t + 1 < |run| && GapAt(d, run[t].fs, e, n, m)
    ensures GapAt(d, run[t + 1].fs, e, n, m)
  {
    if QuietAt(h, run, t) {
      NothingFillsGap(h, d, run, t, e, n, m);
      CalmStep(h, d, run, t);
      FirmStays(h, d, run[t], run[t + 1], (e, m));
    } else {
      Reachable(h, run, t);
      assert Step(h, run[t], run[t + 1]);
      CrashKeepsGap(d, run[t], run[t + 1], e, n, m);
    }
  }

  lemma NothingFillsGap(h: Hash, d: Shelf, run: seq<System>, t: nat, e: nat, n: nat, m: nat)
    requires AppendRun(h, d, run) && Proper(d) && t + 1 < |run| && QuietAt(h, run, t) && GapAt(d, run[t].fs, e, n, m)
    ensures !Taken(d, run[t + 1].fs, (e, n))
  {
    CalmStep(h, d, run, t);
    AppendersAreOk(h, d, run, t);
    if Taken(d, run[t + 1].fs, (e, n)) {
      var p, c := NewlyTaken(h, d, run[t], run[t + 1], (e, n));
      assert false;
    }
  }

  lemma CrashKeepsGap(d: Shelf, s: System, s': System, e: nat, n: nat, m: nat)
    requires Proper(d) && Inv(s) && Crash(s, s') && GapAt(d, s.fs, e, n, m)
    ensures GapAt(d, s'.fs, e, n, m)
  {
    assert d.place((e, n)).Final? && CreateOnlyShape(s.fs, d.place((e, n)));
    assert s'.fs.At(d.place((e, n))).now in s.fs.At(d.place((e, n))).disk;
    assert s'.fs.At(d.place((e, m))).now in s.fs.At(d.place((e, m))).disk;
  }

  /** Once a durable record stands above a gap, no run of appenders ever fills the gap: the lost record
      cannot be appended again. */
  lemma {:induction false} GapsAreForever(h: Hash, d: Shelf, run: seq<System>, t: nat, u: nat, e: nat, n: nat, m: nat)
    requires AppendRun(h, d, run) && Proper(d) && t <= u < |run| && GapAt(d, run[t].fs, e, n, m)
    ensures GapAt(d, run[u].fs, e, n, m)
    decreases u - t
  {
    if t < u {
      GapNext(h, d, run, t, e, n, m);
      GapsAreForever(h, d, run, t + 1, u, e, n, m);
    }
  }
}
