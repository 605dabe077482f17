/** Every step of the publication protocol keeps its invariant.

    One lemma per kind of step: starting a process, beginning a job, writing, linking or renaming,
    comparing with an occupied target, fsyncing the target directory, cleaning up, stopping, and
    losing power.  Each is split into what the step does to its own process and what it leaves
    alone, so that the frame lemmas of `ProtocolFrames` settle all the other processes at once.
    `StepKeepsInv` at the end puts the cases together; it is what `ProtocolTheorems` uses.
 */
module ProtocolSteps {
  import opened Wrappers
  import opened FileSystems
  import opened Protocol
  import opened ProtocolInvariant
  import opened ProtocolFrames

  lemma BackedAfter(s: System, p: nat, fs': FileSystem, q': Process)
    requires AllBacked(s) && p in s.processes && q'.jobs == s.processes[p].jobs
    requires NoNewTargets(s.fs, fs')
    ensures AllBacked(Update(s, p, fs', q'))
  {
    var s' := Update(s, p, fs', q');
    forall n: Name, i | !n.Temporary? && Some(i) in fs'.At(n).disk
      ensures Backed(s', n, i)
    {
      assert Backed(s, n, i);
    }
  }

  lemma OwnedAfter(s: System, p: nat, fs': FileSystem, q': Process)
    requires AllOwned(s) && p in s.processes
    requires q'.jobs == s.processes[p].jobs && q'.done >= s.processes[p].done
    requires InodesKept(s.fs, fs', p) && fs'.inodes.Keys == s.fs.inodes.Keys
    ensures AllOwned(Update(s, p, fs', q'))
  {
    var s' := Update(s, p, fs', q');
    forall i | i in fs'.inodes
      ensures OwnerKnown(s', i)
    {
      assert OwnerKnown(s, i);
    }
  }

  /** The stepping process is fine, and nobody else noticed. */
  lemma ProcessesAfter(s: System, p: nat, fs': FileSystem, q': Process)
    requires AllProcesses(s) && p in s.processes && Preserves(s.fs, fs', p)
    requires q'.jobs == s.processes[p].jobs
    requires q'.done == s.processes[p].done && q'.created == s.processes[p].created
    requires PhaseOk(fs', q', p)
    ensures AllProcesses(Update(s, p, fs', q'))
  {
    var s' := Update(s, p, fs', q');
    forall r | r in s'.processes
      ensures ProcessOk(s'.fs, s'.processes[r], r)
    {
      assert ProcessOk(s.fs, s.processes[r], r);
      if r != p {
        ProcessStays(s.fs, fs', p, s.processes[r], r);
      } else {
        CompletedJobsStay(s.fs, fs', s.processes[p], p);
      }
    }
  }

  lemma CompletedJobsStay(fs: FileSystem, fs': FileSystem, q: Process, p: nat)
    requires ProcessOk(fs, q, p) && TargetsKept(fs, fs')
    ensures forall j :: 0 <= j < q.done ==> Completed(fs', q.jobs[j], Owner(p, j), q.created[j])
  {
    forall j | 0 <= j < q.done
      ensures Completed(fs', q.jobs[j], Owner(p, j), q.created[j])
    {
      CompletedStays(fs, fs', q.jobs[j], Owner(p, j), q.created[j]);
    }
  }

  /** The same, for the step that completes a job. */
  lemma ProcessesAfterJob(s: System, p: nat, fs': FileSystem, created: bool)
    requires AllProcesses(s) && p in s.processes && Preserves(s.fs, fs', p)
    requires s.processes[p].done < |s.processes[p].jobs|
    requires Completed(fs', s.processes[p].jobs[s.processes[p].done], Owner(p, s.processes[p].done), created)
    ensures var q := s.processes[p];
            AllProcesses(Update(s, p, fs', q.(phase := Ready, done := q.done + 1, created := q.created + [created])))
  {
    var q := s.processes[p];
    var q' := q.(phase := Ready, done := q.done + 1, created := q.created + [created]);
    var s' := Update(s, p, fs', q');
    forall r | r in s'.processes
      ensures ProcessOk(s'.fs, s'.processes[r], r)
    {
      assert ProcessOk(s.fs, s.processes[r], r);
      if r != p {
        ProcessStays(s.fs, fs', p, s.processes[r], r);
      } else {
        CompletedJobsStay(s.fs, fs', q, p);
        assert forall j :: 0 <= j < q.done ==> q'.created[j] == q.created[j];
      }
    }
  }

  lemma BeginKeepsInv(h: Bytes -> string, s: System, p: nat, c: Choice)
    requires Inv(s) && Enabled(s, p, c) && s.processes[p].phase.Ready?
    ensures Inv(Advance(h, s, p, c)) && Preserves(s.fs, Advance(h, s, p, c).fs, p)
  {
    var q := s.processes[p];
    var s' := Advance(h, s, p, c);
    CreateTemporaryFrame(s.fs, TemporaryFor(q.jobs[q.done].target, c.tag), c.ino, Owner(p, q.done));
    BackedAfter(s, p, s'.fs, s'.processes[p]);
    forall i | i in s'.fs.inodes
      ensures OwnerKnown(s', i)
    {
      assert i in s.fs.inodes ==> OwnerKnown(s, i);
    }
    assert ProcessOk(s.fs, q, p);
    ProcessesAfter(s, p, s'.fs, s'.processes[p]);
  }

  lemma WriteKeepsInv(h: Bytes -> string, s: System, p: nat, c: Choice)
    requires Inv(s) && Enabled(s, p, c) && s.processes[p].phase.Writing?
    ensures Inv(Advance(h, s, p, c)) && Preserves(s.fs, Advance(h, s, p, c).fs, p)
  {
    var q := s.processes[p];
    var s' := Advance(h, s, p, c);
    assert ProcessOk(s.fs, q, p);
    assert s'.fs.inodes == s.fs.inodes[q.ino := s'.fs.inodes[q.ino]];
    FileFrame(s.fs, s'.fs, q.temp, q.ino, p);
    BackedAfter(s, p, s'.fs, s'.processes[p]);
    OwnedAfter(s, p, s'.fs, s'.processes[p]);
    WriteProgress(q.jobs[q.done].content, s.fs.inodes[q.ino].data, c.count);
    ProcessesAfter(s, p, s'.fs, s'.processes[p]);
  }

  lemma WriteProgress(content: Bytes, written: Bytes, count: int)
    requires written <= content && count <= |content| - |written|
    ensures 0 < count ==> written + content[|written|..|written| + count] <= content
    ensures |written| >= |content| ==> written == content
  {
    if 0 < count {
      assert written + content[|written|..|written| + count] == content[..|written| + count];
    }
  }

  lemma BackedAfterPublish(s: System, p: nat, fs': FileSystem, q': Process)
    requires AllBacked(s) && p in s.processes && q'.jobs == s.processes[p].jobs
    requires fs'.inodes == s.fs.inodes
    requires var q := s.processes[p];
             && q.done < |q.jobs| && WrittenOut(s.fs, q) && OwnsInode(s.fs, q, p)
             && (forall n: Name, i :: !n.Temporary? && Some(i) in fs'.At(n).disk ==>
                   Some(i) in s.fs.At(n).disk || (n == q.jobs[q.done].target && i == q.ino))
    ensures AllBacked(Update(s, p, fs', q'))
  {
    var s' := Update(s, p, fs', q');
    forall n: Name, i | !n.Temporary? && Some(i) in fs'.At(n).disk
      ensures Backed(s', n, i)
    {
      assert Some(i) in s.fs.At(n).disk ==> Backed(s, n, i);
    }
  }

  lemma PublishKeepsInv(h: Bytes -> string, s: System, p: nat, c: Choice)
    requires Inv(s) && Enabled(s, p, c) && s.processes[p].phase.Closed?
    ensures Inv(Advance(h, s, p, c)) && Preserves(s.fs, Advance(h, s, p, c).fs, p)
  {
    var q := s.processes[p];
    var s' := Advance(h, s, p, c);
    var job := q.jobs[q.done];
    assert ProcessOk(s.fs, q, p);
    if job.Replace? {
      RenameFrame(s.fs, q.temp, job.target, p);
    } else if s.fs.At(job.target).now.None? {
      LinkFrame(s.fs, q.temp, job.target, p);
    }
    BackedAfterPublish(s, p, s'.fs, s'.processes[p]);
    OwnedAfter(s, p, s'.fs, s'.processes[p]);
    ProcessesAfter(s, p, s'.fs, s'.processes[p]);
  }

  lemma CompareKeepsInv(h: Bytes -> string, s: System, p: nat, c: Choice)
    requires Inv(s) && Enabled(s, p, c) && s.processes[p].phase.Occupied?
    requires NoCollision(h, s)
    ensures Inv(Advance(h, s, p, c)) && Preserves(s.fs, Advance(h, s, p, c).fs, p)
  {
    var q := s.processes[p];
    var s' := Advance(h, s, p, c);
    var job := q.jobs[q.done];
    assert ProcessOk(s.fs, q, p);
    var i := s.fs.At(job.target).now.value;
    assert Backed(s, job.target, i);
    ComparisonDecides(h, s, p, i);
    BackedAfter(s, p, s'.fs, s'.processes[p]);
    OwnedAfter(s, p, s'.fs, s'.processes[p]);
    ProcessesAfter(s, p, s'.fs, s'.processes[p]);
  }

  /** Without digest collisions among published contents the comparison is equality. */
  lemma ComparisonDecides(h: Bytes -> string, s: System, p: nat, i: nat)
    requires NoCollision(h, s) && p in s.processes && s.processes[p].done < |s.processes[p].jobs|
    requires var job := s.processes[p].jobs[s.processes[p].done]; job.Create? && Backed(s, job.target, i)
    ensures var job := s.processes[p].jobs[s.processes[p].done];
            Same(h, job.comparison, s.fs.inodes[i].data, job.content) <==> s.fs.inodes[i].data == job.content
  {
    var owner := s.fs.inodes[i].owner;
    assert s.processes[owner.process].jobs[owner.job].content == s.fs.inodes[i].data;
  }

  lemma SyncPhase(fs: FileSystem, q: Process, p: nat)
    requires PhaseOk(fs, q, p) && fs.WellFormed() && Shapes(fs)
    requires q.done < |q.jobs| ==> WellFormedJob(q.jobs[q.done])
    ensures var fs' := fs.SyncDirectory(q.temp.dir);
            match q.phase
            case Linked(created) => PhaseOk(fs', q.(phase := Settled(created)), p)
            case Cleaned(created) => Completed(fs', q.jobs[q.done], Owner(p, q.done), created)
            case Withdrawn => PhaseOk(fs', q.(phase := Collided), p)
            case _ => true
  {
    var fs' := fs.SyncDirectory(q.temp.dir);
    SyncDirectoryFrame(fs, q.temp.dir, p);
    if q.phase.Linked? || q.phase.Cleaned? {
      var target := q.jobs[q.done].target;
      assert fs'.At(target).now == fs.At(target).now && fs'.At(target).disk <= fs.At(target).disk;
    }
    if q.phase.Withdrawn? {
      assert fs'.At(q.temp).disk == {fs.At(q.temp).now};
    }
  }

  lemma SyncKeepsInv(h: Bytes -> string, s: System, p: nat, c: Choice)
    requires Inv(s) && Enabled(s, p, c)
    requires var phase := s.processes[p].phase;
             phase.Linked? || phase.Cleaned? || phase.Replaced? || phase.Withdrawn?
    ensures Inv(Advance(h, s, p, c)) && Preserves(s.fs, Advance(h, s, p, c).fs, p)
  {
    var q := s.processes[p];
    var s' := Advance(h, s, p, c);
    var q' := s'.processes[p];
    assert ProcessOk(s.fs, q, p);
    SyncPhase(s.fs, q, p);
    SyncDirectoryFrame(s.fs, q.temp.dir, p);
    BackedAfter(s, p, s'.fs, q');
    OwnedAfter(s, p, s'.fs, q');
    match q.phase
    case Linked(_) => ProcessesAfter(s, p, s'.fs, q');
    case Withdrawn => ProcessesAfter(s, p, s'.fs, q');
    case Cleaned(created) => ProcessesAfterJob(s, p, s'.fs, created);
    case Replaced => ProcessesAfterJob(s, p, s'.fs, false);
  }

  lemma CleanupPhase(fs: FileSystem, q: Process, p: nat)
    requires PhaseOk(fs, q, p) && TargetsKept(fs, fs.Unlink(q.temp))
    requires q.done < |q.jobs| && WellFormedJob(q.jobs[q.done])
    ensures var fs' := fs.Unlink(q.temp);
            match q.phase
            case Settled(created) => PhaseOk(fs', q.(phase := Cleaned(created)), p)
            case Rejecting => PhaseOk(fs', q.(phase := Withdrawn), p)
            case _ => true
  {
    var fs' := fs.Unlink(q.temp);
    assert forall n :: n != q.temp ==> fs'.At(n) == fs.At(n);
  }

  lemma CleanupKeepsInv(h: Bytes -> string, s: System, p: nat, c: Choice)
    requires Inv(s) && Enabled(s, p, c)
    requires var phase := s.processes[p].phase; phase.Settled? || phase.Rejecting?
    ensures Inv(Advance(h, s, p, c)) && Preserves(s.fs, Advance(h, s, p, c).fs, p)
  {
    var q := s.processes[p];
    var s' := Advance(h, s, p, c);
    assert ProcessOk(s.fs, q, p);
    UnlinkFrame(s.fs, q.temp, p);
    CleanupPhase(s.fs, q, p);
    BackedAfter(s, p, s'.fs, s'.processes[p]);
    OwnedAfter(s, p, s'.fs, s'.processes[p]);
    ProcessesAfter(s, p, s'.fs, s'.processes[p]);
  }

  lemma AdvanceKeepsInv(h: Bytes -> string, s: System, p: nat, c: Choice)
    requires Inv(s) && Enabled(s, p, c) && NoCollision(h, s)
    ensures Inv(Advance(h, s, p, c)) && Preserves(s.fs, Advance(h, s, p, c).fs, p)
  {
    match s.processes[p].phase
    case Ready => BeginKeepsInv(h, s, p, c);
    case Writing => WriteKeepsInv(h, s, p, c);
    case Closed => PublishKeepsInv(h, s, p, c);
    case Occupied => CompareKeepsInv(h, s, p, c);
    case Linked(_) => SyncKeepsInv(h, s, p, c);
    case Settled(_) => CleanupKeepsInv(h, s, p, c);
    case Cleaned(_) => SyncKeepsInv(h, s, p, c);
    case Replaced => SyncKeepsInv(h, s, p, c);
    case Rejecting => CleanupKeepsInv(h, s, p, c);
    case Withdrawn => SyncKeepsInv(h, s, p, c);
  }

  lemma HaltKeepsProcess(fs: FileSystem, q: Process, p: nat)
    requires ProcessOk(fs, q, p)
    ensures ProcessOk(fs, Halted(q), p)
  {
  }

  /** A process that is not in the middle of a job survives the crash with its claims. */
  lemma CrashKeepsProcess(fs: FileSystem, fs': FileSystem, q: Process, p: nat)
    requires ProcessOk(fs, q, p) && fs.Survives(fs')
    ensures ProcessOk(fs', Halted(q), p)
  {
    forall j | 0 <= j < q.done
      ensures Completed(fs', q.jobs[j], Owner(p, j), q.created[j])
    {
      DurableSurvives(fs, fs', q.jobs[j], Owner(p, j), q.created[j]);
    }
    if q.phase.Collided? {
      assert forall n :: fs'.At(n).disk == {fs'.At(n).now} && fs'.At(n).now in fs.At(n).disk;
    }
  }

  lemma DurableSurvives(fs: FileSystem, fs': FileSystem, job: Job, owner: Owner, created: bool)
    requires fs.Survives(fs') && Completed(fs, job, owner, created)
    ensures Completed(fs', job, owner, created)
  {
    if job.Create? {
      assert fs'.At(job.target).now in fs.At(job.target).disk;
    }
  }

  lemma CrashKeepsInv(s: System, s': System)
    requires Inv(s) && Crash(s, s')
    ensures Inv(s')
  {
    CrashKeepsFiles(s.fs, s'.fs);
    forall n: Name, i | !n.Temporary? && Some(i) in s'.fs.At(n).disk
      ensures Backed(s', n, i)
    {
      assert s'.fs.At(n).now in s.fs.At(n).disk;
      assert Backed(s, n, i);
    }
    forall i | i in s'.fs.inodes
      ensures OwnerKnown(s', i)
    {
      assert OwnerKnown(s, i);
    }
    forall p | p in s'.processes
      ensures ProcessOk(s'.fs, s'.processes[p], p)
    {
      CrashKeepsProcess(s.fs, s'.fs, s.processes[p], p);
    }
  }

  lemma CrashKeepsFiles(fs: FileSystem, fs': FileSystem)
    requires fs.WellFormed() && fs.Survives(fs')
    ensures fs'.WellFormed() && Shapes(fs')
  {
    assert forall n :: fs'.At(n).disk == {fs'.At(n).now} && fs'.At(n).now in fs.At(n).disk;
  }

  lemma StartKeepsInv(s: System, p: nat, jobs: seq<Job>)
    requires Inv(s) && p !in s.processes
    requires forall j :: 0 <= j < |jobs| ==> WellFormedJob(jobs[j])
    ensures Inv(Update(s, p, s.fs, Started(jobs)))
  {
    var s' := Update(s, p, s.fs, Started(jobs));
    assert forall n, i :: Backed(s, n, i) ==> Backed(s', n, i);
    forall i | i in s'.fs.inodes
      ensures OwnerKnown(s', i)
    {
      assert OwnerKnown(s, i);
    }
  }

  lemma StopKeepsInv(s: System, p: nat)
    requires Inv(s) && p in s.processes
    ensures Inv(Update(s, p, s.fs, Halted(s.processes[p])))
  {
    var s' := Update(s, p, s.fs, Halted(s.processes[p]));
    assert forall n, i :: Backed(s, n, i) ==> Backed(s', n, i);
    forall i | i in s'.fs.inodes
      ensures OwnerKnown(s', i)
    {
      assert OwnerKnown(s, i);
    }
    HaltKeepsProcess(s.fs, s.processes[p], p);
  }

  lemma StepKeepsInv(h: Bytes -> string, s: System, s': System)
    requires Inv(s) && Step(h, s, s') && NoCollision(h, s)
    ensures Inv(s')
  {
    if Start(s, s') {
      var p, jobs: seq<Job> :| p !in s.processes
                               && (forall j :: 0 <= j < |jobs| ==> WellFormedJob(jobs[j]))
                               && s' == Update(s, p, s.fs, Started(jobs));
      StartKeepsInv(s, p, jobs);
    } else if Act(h, s, s') {
      var p, c :| Enabled(s, p, c) && s' == Advance(h, s, p, c);
      AdvanceKeepsInv(h, s, p, c);
    } else if Stop(s, s') {
      var p :| p in s.processes && s' == Update(s, p, s.fs, Halted(s.processes[p]));
      StopKeepsInv(s, p);
    } else {
      CrashKeepsInv(s, s');
    }
  }
}
