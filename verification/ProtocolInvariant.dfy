/** What every reachable state of the publication protocol satisfies.

    The file system's shape, who owns which inode, and how far each process has come.
 */
module ProtocolInvariant {
  import opened Wrappers
  import opened FileSystems
  import opened Protocol

  /** A create-only name goes from absent to one inode and never back: before its
      directory is fsynced a crash may still leave it absent. */
  ghost predicate CreateOnlyShape(fs: FileSystem, n: Name) {
    match fs.At(n).now
    case None => fs.At(n).disk == {None}
    case Some(i) => fs.At(n).disk <= {None, Some(i)}
  }

  /** Inode `i` holds, durably, the complete bytes of the job that allocated it, and
      that job is a job for name `n`. */
  ghost predicate Backed(s: System, n: Name, i: nat) {
    && i in s.fs.inodes
    && var inode := s.fs.inodes[i];
       && inode.synced
       && inode.owner.process in s.processes
       && var jobs := s.processes[inode.owner.process].jobs;
          && inode.owner.job < |jobs|
          && jobs[inode.owner.job].target == n
          && jobs[inode.owner.job].content == inode.data
  }

  ghost predicate OwnerKnown(s: System, i: nat)
    requires i in s.fs.inodes
  {
    var owner := s.fs.inodes[i].owner;
    && owner.process in s.processes
    && owner.job < |s.processes[owner.process].jobs|
    && owner.job <= s.processes[owner.process].done
  }

  ghost predicate OwnedBy(fs: FileSystem, n: Name, owner: Owner) {
    && fs.At(n).now.Some?
    && fs.At(n).now.value in fs.inodes
    && fs.inodes[fs.At(n).now.value].owner == owner
  }

  /** A finished create job: durable bytes, and the job's own inode if it reported `created`. */
  ghost predicate Completed(fs: FileSystem, job: Job, owner: Owner, created: bool) {
    job.Create? ==>
      && fs.Durable(job.target, job.content)
      && (created ==> OwnedBy(fs, job.target, owner))
  }

  ghost predicate HoldsTemporary(fs: FileSystem, q: Process, p: nat) {
    && q.done < |q.jobs|
    && q.temp.Temporary?
    && q.temp.dir == q.jobs[q.done].target.dir
    && fs.At(q.temp).now == Some(q.ino)
    && OwnsInode(fs, q, p)
  }

  ghost predicate OwnsInode(fs: FileSystem, q: Process, p: nat) {
    q.ino in fs.inodes && fs.inodes[q.ino].owner == Owner(p, q.done)
  }

  /** No entry but the temporary name can lead to the inode, now or after a crash. */
  ghost predicate Unpublished(fs: FileSystem, ino: nat, temp: Name) {
    forall n :: Some(ino) in fs.At(n).disk ==> n == temp
  }

  ghost predicate WrittenOut(fs: FileSystem, q: Process)
    requires q.done < |q.jobs|
  {
    && q.ino in fs.inodes
    && fs.inodes[q.ino].synced
    && fs.inodes[q.ino].data == q.jobs[q.done].content
  }

  ghost predicate InPlace(fs: FileSystem, q: Process, p: nat, created: bool)
    requires q.done < |q.jobs|
  {
    var job := q.jobs[q.done];
    && job.Create?
    && fs.Holds(job.target, job.content)
    && fs.inodes[fs.At(job.target).now.value].synced
    && (created ==> OwnedBy(fs, job.target, Owner(p, q.done)))
  }

  ghost predicate PhaseOk(fs: FileSystem, q: Process, p: nat) {
    match q.phase
    case Ready => true
    case Writing =>
      && HoldsTemporary(fs, q, p)
      && Unpublished(fs, q.ino, q.temp)
      && fs.inodes[q.ino].data <= q.jobs[q.done].content
    case Closed => HoldsTemporary(fs, q, p) && Unpublished(fs, q.ino, q.temp) && WrittenOut(fs, q)
    case Occupied =>
      && HoldsTemporary(fs, q, p) && Unpublished(fs, q.ino, q.temp) && WrittenOut(fs, q)
      && q.jobs[q.done].Create? && fs.At(q.jobs[q.done].target).now.Some?
    case Linked(created) => HoldsTemporary(fs, q, p) && InPlace(fs, q, p, created)
    case Settled(created) =>
      && HoldsTemporary(fs, q, p) && InPlace(fs, q, p, created)
      && fs.Durable(q.jobs[q.done].target, q.jobs[q.done].content)
    case Cleaned(created) =>
      && q.done < |q.jobs| && InPlace(fs, q, p, created)
      && fs.Durable(q.jobs[q.done].target, q.jobs[q.done].content)
    case Replaced => q.done < |q.jobs| && q.jobs[q.done].Replace?
    case Rejecting => HoldsTemporary(fs, q, p) && Unpublished(fs, q.ino, q.temp) && Refused(fs, q)
    case Withdrawn =>
      && q.done < |q.jobs| && Refused(fs, q) && q.temp.Temporary?
      && q.temp.dir == q.jobs[q.done].target.dir
      && OwnsInode(fs, q, p) && Unpublished(fs, q.ino, q.temp)
      && fs.At(q.temp).now != Some(q.ino)
    case Collided =>
      && q.done < |q.jobs| && q.jobs[q.done].Create?
      && OwnsInode(fs, q, p)
      && (forall n :: Some(q.ino) !in fs.At(n).disk)
    case Failed => true
    case Stopped => true
  }

  ghost predicate Refused(fs: FileSystem, q: Process)
    requires q.done < |q.jobs|
  {
    var job := q.jobs[q.done];
    && job.Create?
    && fs.At(job.target).now.Some?
    && fs.At(job.target).now.value in fs.inodes
    && fs.inodes[fs.At(job.target).now.value].data != job.content
  }

  ghost predicate ProcessOk(fs: FileSystem, q: Process, p: nat) {
    && q.done <= |q.jobs|
    && |q.created| == q.done
    && (forall j :: 0 <= j < |q.jobs| ==> WellFormedJob(q.jobs[j]))
    && (forall j :: 0 <= j < q.done ==> Completed(fs, q.jobs[j], Owner(p, j), q.created[j]))
    && PhaseOk(fs, q, p)
  }

  ghost predicate Shapes(fs: FileSystem) {
    forall n: Name :: n.Final? ==> CreateOnlyShape(fs, n)
  }

  ghost predicate AllBacked(s: System) {
    forall n: Name, i :: !n.Temporary? && Some(i) in s.fs.At(n).disk ==> Backed(s, n, i)
  }

  ghost predicate AllOwned(s: System) {
    forall i :: i in s.fs.inodes ==> OwnerKnown(s, i)
  }

  ghost predicate AllProcesses(s: System) {
    forall p :: p in s.processes ==> ProcessOk(s.fs, s.processes[p], p)
  }

  ghost predicate Inv(s: System) {
    && s.fs.WellFormed()
    && Shapes(s.fs)
    && AllBacked(s)
    && AllOwned(s)
    && AllProcesses(s)
  }

  /** No inode is forgotten; the ones other processes allocated keep their content. */
  ghost predicate InodesKept(fs: FileSystem, fs': FileSystem, p: nat) {
    forall i :: i in fs.inodes ==>
      && i in fs'.inodes
      && fs'.inodes[i].owner == fs.inodes[i].owner
      && (fs.inodes[i].owner.process != p ==> fs'.inodes[i] == fs.inodes[i])
  }

  /** A visible create-only target stays, with its bytes, and stays durable. */
  ghost predicate TargetsKept(fs: FileSystem, fs': FileSystem) {
    forall n: Name, i :: n.Final? && fs.At(n).now == Some(i) ==>
      && fs'.At(n).now == Some(i)
      && (fs.At(n).disk == {Some(i)} ==> fs'.At(n).disk == {Some(i)})
      && (i in fs.inodes ==> i in fs'.inodes && fs'.inodes[i] == fs.inodes[i])
  }

  /** Entries for an inode of another process: temporaries stay, none appear. */
  ghost predicate EntriesKept(fs: FileSystem, fs': FileSystem, p: nat) {
    forall n: Name, i :: i in fs.inodes && fs.inodes[i].owner.process != p ==>
      && (n.Temporary? && fs.At(n).now == Some(i) ==> fs'.At(n).now == Some(i))
      && (fs'.At(n).now == Some(i) ==> fs.At(n).now == Some(i))
      && (Some(i) in fs'.At(n).disk ==> Some(i) in fs.At(n).disk)
  }

  ghost predicate Preserves(fs: FileSystem, fs': FileSystem, p: nat) {
    && InodesKept(fs, fs', p)
    && TargetsKept(fs, fs')
    && EntriesKept(fs, fs', p)
  }

  lemma CompletedStays(fs: FileSystem, fs': FileSystem, job: Job, owner: Owner, created: bool)
    requires TargetsKept(fs, fs') && WellFormedJob(job) && Completed(fs, job, owner, created)
    ensures Completed(fs', job, owner, created)
  {
  }

  lemma PhaseStays(fs: FileSystem, fs': FileSystem, p: nat, q: Process, r: nat)
    requires Preserves(fs, fs', p) && r != p
    requires q.done < |q.jobs| ==> WellFormedJob(q.jobs[q.done])
    requires PhaseOk(fs, q, r)
    ensures PhaseOk(fs', q, r)
  {
  }

  lemma ProcessStays(fs: FileSystem, fs': FileSystem, p: nat, q: Process, r: nat)
    requires Preserves(fs, fs', p) && r != p
    requires ProcessOk(fs, q, r)
    ensures ProcessOk(fs', q, r)
  {
    forall j | 0 <= j < q.done
      ensures Completed(fs', q.jobs[j], Owner(r, j), q.created[j])
    {
      CompletedStays(fs, fs', q.jobs[j], Owner(r, j), q.created[j]);
    }
    PhaseStays(fs, fs', p, q, r);
  }
}
