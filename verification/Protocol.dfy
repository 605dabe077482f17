/** The durable publication protocol as a step machine.

    A process works through a list of jobs.  A `Create` job is one call of
    `atomic_write_bytes` (or of `_seal_content_addressed_bytes`); a `Replace` job is
    one call of `atomic_replace_bytes` (or of `_replace_current_receipt_hash`).
    Processes interleave at every system call, may stop at any point, and the whole
    machine may crash between any two steps.
 */
module Protocol {
  import opened Wrappers
  import opened FileSystems

  /** How an existing target is compared with the candidate bytes. */
  datatype Comparison = ByDigestAndSize | ByBytes

  datatype Job =
    | Create(target: Name, content: Bytes, comparison: Comparison)
    | Replace(target: Name, content: Bytes)

  predicate WellFormedJob(job: Job) {
    if job.Create? then job.target.Final? else job.target.Pointer?
  }

  datatype Phase =
    | Ready                      // between jobs
    | Writing                    // temporary open, bytes being written
    | Closed                     // temporary written, fsynced and closed
    | Occupied                   // link failed: the target already exists
    | Linked(created: bool)      // target visible with the right bytes
    | Settled(created: bool)     // target directory fsynced
    | Cleaned(created: bool)     // temporary unlinked
    | Replaced                   // pointer renamed into place
    | Rejecting                  // target differs: temporary about to be removed
    | Withdrawn                  // temporary removed, directory not yet fsynced
    | Collided                   // raised ArtifactCollisionError
    | Failed                     // raised OSError from a write without progress
    | Stopped                    // killed, or lost in a crash

  datatype Process = Process(
    jobs: seq<Job>,
    done: nat,
    phase: Phase,
    temp: Name,
    ino: nat,
    created: seq<bool>)

  predicate Finished(q: Process) {
    q.phase.Collided? || q.phase.Failed? || q.phase.Stopped? || (q.phase.Ready? && q.done >= |q.jobs|)
  }

  datatype System = System(fs: FileSystem, processes: map<nat, Process>)

  /** What the environment decides in one step: a `mkstemp` suffix, a fresh inode
      number, and how many bytes `write(2)` accepted. */
  datatype Choice = Choice(tag: nat, ino: nat, count: int)

  function TemporaryFor(target: Name, tag: nat): Name {
    Temporary(target.dir, target.base, tag)
  }

  predicate Same(h: Bytes -> string, comparison: Comparison, actual: Bytes, expected: Bytes) {
    match comparison
    case ByDigestAndSize => h(actual) == h(expected) && |actual| == |expected|
    case ByBytes => actual == expected
  }

  predicate Enabled(s: System, p: nat, c: Choice) {
    && p in s.processes
    && var q := s.processes[p];
       match q.phase
       case Ready =>
         q.done < |q.jobs|
         && s.fs.At(TemporaryFor(q.jobs[q.done].target, c.tag)).now.None?
         && c.ino !in s.fs.inodes
       case Writing =>
         q.done < |q.jobs| && q.ino in s.fs.inodes
         && c.count <= |q.jobs[q.done].content| - |s.fs.inodes[q.ino].data|
       case Closed => q.done < |q.jobs|
       case Occupied =>
         q.done < |q.jobs| && q.jobs[q.done].Create?
         && var found := s.fs.At(q.jobs[q.done].target).now; found.Some? && found.value in s.fs.inodes
       case Linked(_) => true
       case Settled(_) => true
       case Cleaned(_) => true
       case Replaced => true
       case Rejecting => true
       case Withdrawn => true
       case Collided => false
       case Failed => false
       case Stopped => false
  }

  /** One system call of process `p`. */
  function Advance(h: Bytes -> string, s: System, p: nat, c: Choice): System
    requires Enabled(s, p, c)
  {
    var q := s.processes[p];
    match q.phase
    case Ready =>
      var temp := TemporaryFor(q.jobs[q.done].target, c.tag);
      Update(s, p, s.fs.CreateTemporary(temp, c.ino, Owner(p, q.done)),
             q.(phase := Writing, temp := temp, ino := c.ino))
    case Writing =>
      var content := q.jobs[q.done].content;
      var written := |s.fs.inodes[q.ino].data|;
      if written >= |content| then
        Update(s, p, s.fs.SyncFile(q.ino), q.(phase := Closed))
      else if c.count <= 0 then
        Update(s, p, s.fs, q.(phase := Failed))
      else
        Update(s, p, s.fs.Append(q.ino, content[written..written + c.count]), q)
    case Closed =>
      var job := q.jobs[q.done];
      if job.Replace? then
        Update(s, p, s.fs.Rename(q.temp, job.target), q.(phase := Replaced))
      else if s.fs.At(job.target).now.Some? then
        Update(s, p, s.fs, q.(phase := Occupied))
      else
        Update(s, p, s.fs.Link(q.temp, job.target), q.(phase := Linked(true)))
    case Occupied =>
      var job := q.jobs[q.done];
      var actual := s.fs.inodes[s.fs.At(job.target).now.value].data;
      if Same(h, job.comparison, actual, job.content) then
        Update(s, p, s.fs, q.(phase := Linked(false)))
      else
        Update(s, p, s.fs, q.(phase := Rejecting))
    case Linked(created) =>
      Update(s, p, s.fs.SyncDirectory(q.temp.dir), q.(phase := Settled(created)))
    case Settled(created) =>
      Update(s, p, s.fs.Unlink(q.temp), q.(phase := Cleaned(created)))
    case Cleaned(created) =>
      Update(s, p, s.fs.SyncDirectory(q.temp.dir),
             q.(phase := Ready, done := q.done + 1, created := q.created + [created]))
    case Replaced =>
      Update(s, p, s.fs.SyncDirectory(q.temp.dir),
             q.(phase := Ready, done := q.done + 1, created := q.created + [false]))
    case Rejecting =>
      Update(s, p, s.fs.Unlink(q.temp), q.(phase := Withdrawn))
    case Withdrawn =>
      Update(s, p, s.fs.SyncDirectory(q.temp.dir), q.(phase := Collided))
  }

  function Update(s: System, p: nat, fs: FileSystem, q: Process): System {
    System(fs, s.processes[p := q])
  }

  function Started(jobs: seq<Job>): Process {
    Process(jobs, 0, Ready, Temporary("", "", 0), 0, [])
  }

  function Halted(q: Process): Process {
    if Finished(q) then q else q.(phase := Stopped)
  }

  ghost predicate Crash(s: System, s': System) {
    && s.fs.Survives(s'.fs)
    && s'.processes == map p | p in s.processes :: Halted(s.processes[p])
  }

  ghost predicate Start(s: System, s': System) {
    exists p, jobs: seq<Job> ::
      && p !in s.processes
      && (forall j :: 0 <= j < |jobs| ==> WellFormedJob(jobs[j]))
      && s' == Update(s, p, s.fs, Started(jobs))
  }

  ghost predicate Act(h: Bytes -> string, s: System, s': System) {
    exists p, c :: Enabled(s, p, c) && s' == Advance(h, s, p, c)
  }

  ghost predicate Stop(s: System, s': System) {
    exists p :: p in s.processes && s' == Update(s, p, s.fs, Halted(s.processes[p]))
  }

  ghost predicate Step(h: Bytes -> string, s: System, s': System) {
    Start(s, s') || Act(h, s, s') || Stop(s, s') || Crash(s, s')
  }

  const EMPTY := System(FileSystem(map[], map[]), map[])

  /** A run starts with an empty store and takes any steps in any order. */
  ghost predicate Run(h: Bytes -> string, run: seq<System>) {
    && |run| > 0
    && run[0] == EMPTY
    && forall t :: 0 <= t < |run| - 1 ==> Step(h, run[t], run[t + 1])
  }

  /** No two byte strings that processes of `s` publish collide under the digest. */
  ghost predicate NoCollision(h: Bytes -> string, s: System) {
    forall p, j, r, k ::
      && p in s.processes && 0 <= j < |s.processes[p].jobs|
      && r in s.processes && 0 <= k < |s.processes[r].jobs|
      && h(s.processes[p].jobs[j].content) == h(s.processes[r].jobs[k].content)
      ==> s.processes[p].jobs[j].content == s.processes[r].jobs[k].content
  }

  // ---- the environment can always make a choice ----

  lemma FreshInode(inodes: set<nat>)
    ensures exists i: nat :: i !in inodes
  {
    if forall i: nat :: i in inodes {
      Unbounded(inodes, 0);
    }
  }

  lemma {:induction false} Unbounded(s: set<nat>, low: nat)
    requires forall i: nat :: i >= low ==> i in s
    ensures false
    decreases |s|
  {
    Unbounded(s - {low}, low + 1);
  }

  lemma FreshTag(fs: FileSystem, target: Name)
    ensures exists tag: nat :: fs.At(TemporaryFor(target, tag)).now.None?
  {
    var tags := set n | n in fs.slots && n.Temporary? :: n.tag;
    FreshInode(tags);
    var tag: nat :| tag !in tags;
    assert TemporaryFor(target, tag) !in fs.slots;
  }
}
