/** `atomic_write_bytes` and `atomic_replace_bytes` as the sequential programs they are.

    Each method makes the system calls one after the other on a file system it updates in
    place.  A ghost trail shows that these calls are, one by one, the steps the machine of
    module `Protocol` takes for the corresponding job.
 */
module Disks {
  import opened Wrappers
  import opened Hashes
  import opened FileSystems
  import opened Protocol

  datatype WriteError = Collision | NoProgress

  /** How many bytes `os.write` accepts, call by call, of a request that has as many. */
  type Kernel = nat -> int

  /** Whether writing `size` bytes from call `call` on succeeds, and the call after it. */
  function WriteEnds(kernel: Kernel, call: nat, size: nat): (bool, nat)
    decreases size
  {
    if size == 0 then (true, call)
    else if kernel(call) <= 0 then (false, call + 1)
    else WriteEnds(kernel, call + 1, if kernel(call) >= size then 0 else size - kernel(call))
  }

  /** What the calls from `from` up to `to` accept together. */
  function Total(kernel: Kernel, from: nat, to: nat): int
    decreases if from < to then to - from else 0
  {
    if to <= from then 0 else kernel(from) + Total(kernel, from + 1, to)
  }

  ghost predicate AllAccept(kernel: Kernel, from: nat, to: nat) {
    forall i: nat :: from <= i < to ==> kernel(i) > 0
  }

  /** From call `call` on, `size` bytes are accepted before any call accepts none. */
  ghost predicate Fed(kernel: Kernel, call: nat, size: nat) {
    exists to: nat :: call <= to && AllAccept(kernel, call, to) && Total(kernel, call, to) >= size
  }

  /** Short writes never fail: a write fails exactly when some call accepts nothing before the
      calls ahead of it have accepted everything. */
  lemma {:induction false} WriteFailsOnlyOnStall(kernel: Kernel, call: nat, size: nat)
    ensures WriteEnds(kernel, call, size).0 <==> Fed(kernel, call, size)
    decreases size
  {
    if size == 0 {
      assert AllAccept(kernel, call, call) && Total(kernel, call, call) >= size;
    } else if kernel(call) > 0 {
      var rest := if kernel(call) >= size then 0 else size - kernel(call);
      WriteFailsOnlyOnStall(kernel, call + 1, rest);
      FedAfterOne(kernel, call, size);
    }
  }

  lemma {:induction false} FedAfterOne(kernel: Kernel, call: nat, size: nat)
    requires kernel(call) > 0 && size > 0
    ensures Fed(kernel, call, size) <==>
              Fed(kernel, call + 1, if kernel(call) >= size then 0 else size - kernel(call))
  {
    var rest := if kernel(call) >= size then 0 else size - kernel(call);
    if Fed(kernel, call + 1, rest) {
      var to: nat :| call + 1 <= to && AllAccept(kernel, call + 1, to) && Total(kernel, call + 1, to) >= rest;
      assert AllAccept(kernel, call, to) && Total(kernel, call, to) >= size;
    }
    if Fed(kernel, call, size) {
      var to: nat :| call <= to && AllAccept(kernel, call, to) && Total(kernel, call, to) >= size;
      NotNegative(kernel, call + 1, to);
      assert AllAccept(kernel, call + 1, to) && Total(kernel, call + 1, to) >= rest;
    }
  }

  lemma {:induction false} NotNegative(kernel: Kernel, from: nat, to: nat)
    requires AllAccept(kernel, from, to)
    ensures Total(kernel, from, to) >= 0
    decreases if from < to then to - from else 0
  {
    if from < to {
      NotNegative(kernel, from + 1, to);
    }
  }

  /** The machine with one process. */
  ghost function Alone(fs: FileSystem, q: Process): System {
    System(fs, map[0 := q])
  }

  /** Where the machine gets from `s` if its only process takes the steps `choices`. */
  ghost function Play(h: Hash, s: System, choices: seq<Choice>): Option<System> {
    if choices == [] then Some(s)
    else
      match Play(h, s, choices[..|choices| - 1])
      case None => None
      case Some(before) =>
        var c := choices[|choices| - 1];
        if Enabled(before, 0, c) then Some(Advance(h, before, 0, c)) else None
  }

  /** The machine got from `start` to file system `fs` with its process in state `q`. */
  ghost predicate Reached(h: Hash, start: System, choices: seq<Choice>, fs: FileSystem, q: Process) {
    Play(h, start, choices) == Some(Alone(fs, q))
  }

  lemma OneMore(h: Hash, start: System, choices: seq<Choice>, fs: FileSystem, q: Process, c: Choice, fs': FileSystem,
                q': Process)
    requires Reached(h, start, choices, fs, q)
    requires Enabled(Alone(fs, q), 0, c) && Advance(h, Alone(fs, q), 0, c) == Update(Alone(fs, q), 0, fs', q')
    ensures Reached(h, start, choices + [c], fs', q')
  {
    assert (choices + [c])[..|choices|] == choices;
    assert Alone(fs, q).processes[0 := q'] == Alone(fs', q').processes;
  }

  const ANY := Choice(0, 0, 0)

  /** The last three steps of a create job: directory fsync, unlink, directory fsync. */
  lemma TailSteps(h: Hash, start: System, choices: seq<Choice>, fs: FileSystem, q: Process, created: bool)
    returns (choices': seq<Choice>, q': Process)
    requires Reached(h, start, choices, fs, q) && q.phase == Linked(created)
    ensures Reached(h, start, choices', CleanUp(fs.SyncDirectory(q.temp.dir), q.temp), q')
    ensures q' == q.(phase := Ready, done := q.done + 1, created := q.created + [created])
  {
    var synced, q1 := fs.SyncDirectory(q.temp.dir), q.(phase := Settled(created));
    OneMore(h, start, choices, fs, q, ANY, synced, q1);
    choices', q' := LastTwoSteps(h, start, choices + [ANY], synced, q1, created);
  }

  lemma LastTwoSteps(h: Hash, start: System, choices: seq<Choice>, fs: FileSystem, q: Process, created: bool)
    returns (choices': seq<Choice>, q': Process)
    requires Reached(h, start, choices, fs, q) && q.phase == Settled(created)
    ensures Reached(h, start, choices', CleanUp(fs, q.temp), q')
    ensures q' == q.(phase := Ready, done := q.done + 1, created := q.created + [created])
  {
    var unlinked, q1 := fs.Unlink(q.temp), q.(phase := Cleaned(created));
    OneMore(h, start, choices, fs, q, ANY, unlinked, q1);
    q' := q1.(phase := Ready, done := q1.done + 1, created := q1.created + [created]);
    OneMore(h, start, choices + [ANY], unlinked, q1, ANY, unlinked.SyncDirectory(q.temp.dir), q');
    choices' := choices + [ANY] + [ANY];
  }

  /** No inode that a name other than a temporary can lead to has unsynced bytes. */
  ghost predicate Sealed(fs: FileSystem) {
    && fs.WellFormed()
    && forall n: Name, i :: !n.Temporary? && Some(i) in fs.At(n).disk ==> fs.inodes[i].synced
  }

  /** Old inodes are untouched, and so are all names but `target` and the temporaries. */
  ghost predicate OthersKept(fs: FileSystem, fs': FileSystem, target: Name) {
    && (forall i :: i in fs.inodes ==> i in fs'.inodes && fs'.inodes[i] == fs.inodes[i])
    && (forall n: Name :: n != target && !n.Temporary? ==>
          fs'.At(n).now == fs.At(n).now && fs'.At(n).disk <= fs.At(n).disk)
  }

  ghost predicate TemporariesKept(fs: FileSystem, fs': FileSystem) {
    forall n: Name :: n.Temporary? ==> fs'.At(n).now == fs.At(n).now
  }

  /** The digest tells `content` apart from whatever `target` holds. */
  ghost predicate Separates(h: Hash, fs: FileSystem, target: Name, content: Bytes) {
    forall found :: fs.Holds(target, found) && h(found) == h(content) ==> found == content
  }

  /** The temporary is written, fsynced and closed; nothing else has happened yet. */
  ghost predicate Staged(fs0: FileSystem, fs: FileSystem, temp: Name, ino: nat, content: Bytes) {
    && temp.Temporary? && fs0.At(temp).now.None? && ino !in fs0.inodes
    && fs.slots == fs0.slots[temp := Slot(Some(ino), fs0.At(temp).disk + {Some(ino)})]
    && fs.inodes == fs0.inodes[ino := Inode(content, true, Owner(0, 0))]
  }

  function CleanUp(fs: FileSystem, temp: Name): FileSystem {
    fs.Unlink(temp).SyncDirectory(temp.dir)
  }

  lemma StagedFacts(fs0: FileSystem, fs: FileSystem, temp: Name, ino: nat, content: Bytes)
    requires Sealed(fs0) && Staged(fs0, fs, temp, ino, content)
    ensures forall n :: n != temp ==> fs.At(n) == fs0.At(n)
    ensures fs.At(temp).now == Some(ino)
    ensures forall i :: i in fs0.inodes ==> fs.inodes[i] == fs0.inodes[i]
  {
  }

  lemma SyncDirectoryFacts(fs: FileSystem, dir: string)
    requires fs.WellFormed()
    ensures forall n :: fs.SyncDirectory(dir).At(n).now == fs.At(n).now
    ensures forall n :: fs.SyncDirectory(dir).At(n).disk <= fs.At(n).disk
    ensures forall n: Name :: n.dir == dir ==> fs.SyncDirectory(dir).At(n).disk == {fs.At(n).now}
    ensures fs.SyncDirectory(dir).inodes == fs.inodes && fs.SyncDirectory(dir).WellFormed()
  {
  }

  lemma CleanUpFacts(fs: FileSystem, temp: Name)
    requires fs.WellFormed()
    ensures var fs' := CleanUp(fs, temp);
            && fs'.inodes == fs.inodes && fs'.WellFormed() && fs'.At(temp).now.None?
            && (forall n :: n != temp ==> fs'.At(n).now == fs.At(n).now && fs'.At(n).disk <= fs.At(n).disk)
  {
    var cleared := fs.Unlink(temp);
    assert forall n :: n != temp ==> cleared.At(n) == fs.At(n);
    SyncDirectoryFacts(cleared, temp.dir);
  }

  /** A rejected request leaves every name as it was. */
  lemma RejectionFacts(fs0: FileSystem, fs: FileSystem, temp: Name, ino: nat, content: Bytes, target: Name)
    requires Sealed(fs0) && Staged(fs0, fs, temp, ino, content) && !target.Temporary?
    ensures var fs' := CleanUp(fs, temp);
            && Sealed(fs') && OthersKept(fs0, fs', target) && TemporariesKept(fs0, fs')
            && fs'.At(target).now == fs0.At(target).now
  {
    StagedFacts(fs0, fs, temp, ino, content);
    assert fs.WellFormed();
    CleanUpFacts(fs, temp);
  }

  lemma ReplacementFacts(fs0: FileSystem, staged: FileSystem, temp: Name, ino: nat, content: Bytes, target: Name)
    requires Sealed(fs0) && Staged(fs0, staged, temp, ino, content) && target.Pointer? && target.dir == temp.dir
    ensures var fs' := staged.Rename(temp, target).SyncDirectory(temp.dir);
            && Sealed(fs') && OthersKept(fs0, fs', target) && TemporariesKept(fs0, fs')
            && fs'.Durable(target, content)
  {
    StagedFacts(fs0, staged, temp, ino, content);
    var renamed := staged.Rename(temp, target);
    assert renamed.At(target).now == Some(ino) && renamed.At(temp).now == None;
    assert forall n :: n != temp && n != target ==> renamed.At(n) == fs0.At(n);
    assert renamed.WellFormed();
    SyncDirectoryFacts(renamed, temp.dir);
  }

  /** After the link, or beside an equal target: fsync, unlink, fsync. */
  lemma CompletionFacts(fs0: FileSystem, staged: FileSystem, fs: FileSystem, temp: Name, ino: nat, content: Bytes,
                        target: Name)
    requires Sealed(fs0) && Staged(fs0, staged, temp, ino, content) && target.Final? && target.dir == temp.dir
    requires || (fs == staged && fs0.Holds(target, content))
             || (fs == staged.Link(temp, target) && fs0.At(target).now.None?)
    ensures var fs' := CleanUp(fs.SyncDirectory(temp.dir), temp);
            && Sealed(fs') && OthersKept(fs0, fs', target) && TemporariesKept(fs0, fs')
            && fs'.Durable(target, content)
  {
    StagedFacts(fs0, staged, temp, ino, content);
    assert forall n :: n != temp && n != target ==> fs.At(n) == fs0.At(n);
    assert fs.WellFormed();
    TargetHolds(fs0, staged, fs, temp, ino, content, target);
    SettledFacts(fs0, fs, temp, content, target);
  }

  lemma SettledFacts(fs0: FileSystem, fs: FileSystem, temp: Name, content: Bytes, target: Name)
    requires Sealed(fs0) && fs.WellFormed() && temp.Temporary? && fs0.At(temp).now.None?
    requires target.Final? && target.dir == temp.dir
    requires forall n :: n != temp && n != target ==> fs.At(n) == fs0.At(n)
    requires forall i :: i in fs0.inodes ==> i in fs.inodes && fs.inodes[i] == fs0.inodes[i]
    requires fs.Holds(target, content) && fs.inodes[fs.At(target).now.value].synced
    ensures var fs' := CleanUp(fs.SyncDirectory(temp.dir), temp);
            && Sealed(fs') && OthersKept(fs0, fs', target) && TemporariesKept(fs0, fs')
            && fs'.Durable(target, content)
  {
    SyncDirectoryFacts(fs, temp.dir);
    CleanUpFacts(fs.SyncDirectory(temp.dir), temp);
  }

  lemma TargetHolds(fs0: FileSystem, staged: FileSystem, fs: FileSystem, temp: Name, ino: nat, content: Bytes,
                    target: Name)
    requires Sealed(fs0) && Staged(fs0, staged, temp, ino, content) && target.Final?
    requires || (fs == staged && fs0.Holds(target, content))
             || (fs == staged.Link(temp, target) && fs0.At(target).now.None?)
    ensures fs.Holds(target, content) && fs.inodes[fs.At(target).now.value].synced
  {
    assert fs0.At(target).now in fs0.At(target).disk;
  }

  class Disk {
    var fs: FileSystem
    /** The number of calls of `os.write` so far. */
    var calls: nat
    const kernel: Kernel

    constructor (kernel: Kernel)
      ensures fs == FileSystem(map[], map[]) && Sealed(fs) && calls == 0 && this.kernel == kernel
    {
      fs, calls, this.kernel := FileSystem(map[], map[]), 0, kernel;
    }

    /** `os.write`: appends some prefix of `data`, or reports that nothing was accepted. */
    method OsWrite(ino: nat, data: Bytes) returns (count: int)
      requires ino in fs.inodes
      modifies this
      ensures calls == old(calls) + 1
      ensures count == if kernel(old(calls)) < |data| then kernel(old(calls)) else |data|
      ensures fs == if count <= 0 then old(fs) else old(fs).Append(ino, data[..count])
    {
      count := kernel(calls);
      calls := calls + 1;
      if count > |data| { count := |data|; }
      if count > 0 {
        fs := fs.Append(ino, data[..count]);
      }
    }

    /** `_write_all`: exactly the content under arbitrary short writes, and failure exactly when a call
        of `os.write` accepts nothing. */
    method WriteAll(h: Hash, ino: nat, content: Bytes, ghost start: System, ghost choices: seq<Choice>,
                    ghost q: Process)
      returns (ok: bool, ghost choices': seq<Choice>)
      requires ino in fs.inodes && fs.inodes[ino].data == "" && !fs.inodes[ino].synced
      requires Reached(h, start, choices, fs, q) && Writes(q, ino, content)
      modifies this
      ensures fs.slots == old(fs.slots) && ino in fs.inodes
      ensures fs.inodes == old(fs.inodes)[ino := fs.inodes[ino]] && fs.inodes[ino].owner == old(fs.inodes[ino].owner)
      ensures ok ==> fs.inodes[ino].data == content
      ensures (ok, calls) == WriteEnds(kernel, old(calls), |content|)
      ensures Reached(h, start, choices', fs, q.(phase := if ok then Writing else Failed))
    {
      choices' := choices;
      ghost var goal := WriteEnds(kernel, calls, |content|);
      var written := 0;
      while written < |content|
        invariant written <= |content| && ino in fs.inodes
        invariant fs.slots == old(fs.slots) && fs.inodes == old(fs.inodes)[ino := fs.inodes[ino]]
        invariant fs.inodes[ino].owner == old(fs.inodes[ino].owner)
        invariant fs.inodes[ino].data == content[..written]
        invariant WriteEnds(kernel, calls, |content| - written) == goal
        invariant Reached(h, start, choices', fs, q)
      {
        ghost var before := fs;
        var rest := content[written..];
        var count := OsWrite(ino, rest);
        WriteStep(h, start, choices', before, q, content, count);
        choices' := choices' + [Choice(0, 0, count)];
        OneWrite(kernel, calls - 1, |rest|, count);
        if count <= 0 { return false, choices'; }
        NextPiece(content, written, count);
        written := written + count;
      }
      assert content[..written] == content;
      return true, choices';
    }

    /** Create a temporary beside `target`, write the content and fsync it. */
    method Stage(h: Hash, target: Name, content: Bytes, ghost job: Job)
      returns (temp: Name, ino: nat, ok: bool, ghost choices: seq<Choice>, ghost q: Process)
      requires Sealed(fs) && job.target == target && job.content == content
      modifies this
      ensures temp.Temporary? && temp.dir == target.dir
      ensures (ok, calls) == WriteEnds(kernel, old(calls), |content|)
      ensures ok ==> Staged(old(fs), fs, temp, ino, content)
      ensures !ok ==> forall n :: n != temp ==> fs.At(n) == old(fs).At(n)
      ensures !ok ==> Sealed(fs) && forall i :: i in old(fs).inodes ==>
                i in fs.inodes && fs.inodes[i] == old(fs).inodes[i]
      ensures Reached(h, Alone(old(fs), Started([job])), choices, fs, q)
      ensures q == Process([job], 0, if ok then Closed else Failed, temp, ino, [])
    {
      ghost var start := Alone(fs, Started([job]));
      FreshTag(fs, target);
      var tag: nat :| fs.At(TemporaryFor(target, tag)).now.None?;
      temp := TemporaryFor(target, tag);
      FreshInode(fs.inodes.Keys);
      ino :| ino !in fs.inodes;
      ghost var fs0 := fs;
      fs := fs.CreateTemporary(temp, ino, Owner(0, 0));
      q := Process([job], 0, Writing, temp, ino, []);
      OneMore(h, start, [], fs0, Started([job]), Choice(tag, ino, 0), fs, q);
      choices := [] + [Choice(tag, ino, 0)];
      ok, choices := WriteAll(h, ino, content, start, choices, q);
      if ok {
        ghost var written := fs;
        fs := fs.SyncFile(ino);
        OneMore(h, start, choices, written, q, ANY, fs, q.(phase := Closed));
        choices := choices + [ANY];
        q := q.(phase := Closed);
      } else {
        q := q.(phase := Failed);
      }
    }

    /** `atomic_write_bytes`: returns whether the target was created. */
    method AtomicWriteBytes(h: Hash, target: Name, content: Bytes)
      returns (r: Result<bool, WriteError>, ghost choices: seq<Choice>, ghost q: Process)
      requires target.Final? && Sealed(fs) && Separates(h, fs, target, content)
      modifies this
      ensures Sealed(fs) && OthersKept(old(fs), fs, target)
      ensures r.Ok? ==> fs.Durable(target, content) && TemporariesKept(old(fs), fs)
      ensures r.Ok? ==> r.value == old(fs).At(target).now.None? && (r.value || old(fs).Holds(target, content))
      ensures r == Err(NoProgress) <==> !WriteEnds(kernel, old(calls), |content|).0
      ensures calls == WriteEnds(kernel, old(calls), |content|).1
      ensures r.Err? ==> fs.At(target).now == old(fs).At(target).now
      ensures r == Err(Collision) ==>
                TemporariesKept(old(fs), fs) && old(fs).At(target).now.Some? && !old(fs).Holds(target, content)
      ensures Reached(h, Alone(old(fs), Started([Create(target, content, ByDigestAndSize)])), choices, fs, q)
      ensures match r
              case Ok(created) => q.phase.Ready? && q.done == 1 && q.created == [created]
              case Err(Collision) => q.phase.Collided?
              case Err(NoProgress) => q.phase.Failed?
    {
      ghost var job := Create(target, content, ByDigestAndSize);
      ghost var fs0 := fs;
      var temp, ino, ok;
      temp, ino, ok, choices, q := Stage(h, target, content, job);
      if !ok { return Err(NoProgress), choices, q; }
      var created;
      created, choices, q := Publish(h, Alone(fs0, Started([job])), choices, q, fs0, ino, target, content, temp);
      return if created.None? then Err(Collision) else Ok(created.value), choices, q;
    }

    /** `link` the staged temporary, or compare it with what is there; `None` is a collision. */
    method Publish(h: Hash, ghost start: System, ghost choices: seq<Choice>, ghost q: Process, ghost fs0: FileSystem,
                   ghost ino: nat, target: Name, content: Bytes, temp: Name)
      returns (r: Option<bool>, ghost choices': seq<Choice>, ghost q': Process)
      requires Sealed(fs0) && Staged(fs0, fs, temp, ino, content) && Separates(h, fs0, target, content)
      requires target.Final? && target.dir == temp.dir
      requires Reached(h, start, choices, fs, q)
      requires q == Process([Create(target, content, ByDigestAndSize)], 0, Closed, temp, ino, [])
      modifies this`fs
      ensures Sealed(fs) && OthersKept(fs0, fs, target) && TemporariesKept(fs0, fs)
      ensures r.Some? ==> fs.Durable(target, content)
      ensures r.Some? ==> r.value == fs0.At(target).now.None? && (r.value || fs0.Holds(target, content))
      ensures r.None? ==> fs.At(target).now == fs0.At(target).now
      ensures r.None? ==> fs0.At(target).now.Some? && !fs0.Holds(target, content)
      ensures Reached(h, start, choices', fs, q')
      ensures if r.Some? then q'.phase.Ready? && q'.done == 1 && q'.created == [r.value] else q'.phase.Collided?
    {
      choices', q' := choices, q;
      ghost var staged := fs;
      StagedFacts(fs0, staged, temp, ino, content);
      var created := fs.At(target).now.None?;
      if created {
        fs := fs.Link(temp, target);
        OneMore(h, start, choices', staged, q', ANY, fs, q'.(phase := Linked(true)));
      } else {
        OneMore(h, start, choices', fs, q', ANY, fs, q'.(phase := Occupied));
        choices' := choices' + [ANY];
        q' := q'.(phase := Occupied);
        assert fs0.At(target).now in fs0.At(target).disk;
        var actual := fs.inodes[fs.At(target).now.value].data;
        if !Same(h, ByDigestAndSize, actual, content) {
          OneMore(h, start, choices', fs, q', ANY, fs, q'.(phase := Rejecting));
          choices' := choices' + [ANY];
          q' := q'.(phase := Rejecting);
          RejectionFacts(fs0, staged, temp, ino, content, target);
          choices', q' := Withdraw(h, start, choices', q', temp);
          return None, choices', q';
        }
        assert fs0.Holds(target, actual);
        OneMore(h, start, choices', fs, q', ANY, fs, q'.(phase := Linked(false)));
      }
      choices' := choices' + [ANY];
      q' := q'.(phase := Linked(created));
      CompletionFacts(fs0, staged, fs, temp, ino, content, target);
      choices', q' := Settle(h, start, choices', q', temp, created);
      return Some(created), choices', q';
    }

    /** The collision path: remove the temporary and fsync its directory. */
    method Withdraw(h: Hash, ghost start: System, ghost choices: seq<Choice>, ghost q: Process, temp: Name)
      returns (ghost choices': seq<Choice>, ghost q': Process)
      requires Reached(h, start, choices, fs, q) && q.phase.Rejecting? && q.temp == temp
      modifies this`fs
      ensures fs == CleanUp(old(fs), temp)
      ensures Reached(h, start, choices', fs, q') && q'.phase.Collided?
    {
      ghost var before := fs;
      fs := fs.Unlink(temp);
      OneMore(h, start, choices, before, q, ANY, fs, q.(phase := Withdrawn));
      ghost var unlinked := fs;
      fs := fs.SyncDirectory(temp.dir);
      q' := q.(phase := Collided);
      OneMore(h, start, choices + [ANY], unlinked, q.(phase := Withdrawn), ANY, fs, q');
      choices' := choices + [ANY] + [ANY];
    }

    /** The common tail: fsync the target directory, unlink the temporary, fsync again. */
    method Settle(h: Hash, ghost start: System, ghost choices: seq<Choice>, ghost q: Process, temp: Name, created: bool)
      returns (ghost choices': seq<Choice>, ghost q': Process)
      requires Reached(h, start, choices, fs, q) && q.phase == Linked(created) && q.temp == temp
      modifies this`fs
      ensures fs == CleanUp(old(fs).SyncDirectory(temp.dir), temp)
      ensures Reached(h, start, choices', fs, q')
      ensures q'.phase.Ready? && q'.done == q.done + 1 && q'.created == q.created + [created]
    {
      choices', q' := TailSteps(h, start, choices, fs, q, created);
      fs := fs.SyncDirectory(temp.dir);
      fs := fs.Unlink(temp);
      fs := fs.SyncDirectory(temp.dir);
    }

    /** `atomic_replace_bytes`: one rename makes the new content visible. */
    method AtomicReplaceBytes(h: Hash, target: Name, content: Bytes)
      returns (r: Result<bool, WriteError>, ghost choices: seq<Choice>, ghost q: Process)
      requires target.Pointer? && Sealed(fs)
      modifies this
      ensures Sealed(fs) && OthersKept(old(fs), fs, target)
      ensures r.Ok? ==> fs.Durable(target, content) && TemporariesKept(old(fs), fs)
      ensures r.Ok? ==> r.value == old(fs).At(target).now.None?
      ensures (r.Ok?, calls) == WriteEnds(kernel, old(calls), |content|)
      ensures r.Err? ==> r.error == NoProgress && fs.At(target) == old(fs).At(target)
      ensures Reached(h, Alone(old(fs), Started([Replace(target, content)])), choices, fs, q)
      ensures if r.Ok? then q.phase.Ready? && q.done == 1 else q.phase.Failed?
    {
      ghost var job := Replace(target, content);
      ghost var start, fs0 := Alone(fs, Started([job])), fs;
      var created := fs.At(target).now.None?;
      var temp, ino, ok;
      temp, ino, ok, choices, q := Stage(h, target, content, job);
      if !ok { return Err(NoProgress), choices, q; }
      choices, q := Swap(h, start, choices, q, fs0, ino, target, content, temp);
      return Ok(created), choices, q;
    }

    /** `rename` the staged temporary over the target and fsync the directory. */
    method Swap(h: Hash, ghost start: System, ghost choices: seq<Choice>, ghost q: Process, ghost fs0: FileSystem,
                ghost ino: nat, target: Name, content: Bytes, temp: Name)
      returns (ghost choices': seq<Choice>, ghost q': Process)
      requires Sealed(fs0) && Staged(fs0, fs, temp, ino, content) && target.Pointer? && target.dir == temp.dir
      requires Reached(h, start, choices, fs, q)
      requires q == Process([Replace(target, content)], 0, Closed, temp, ino, [])
      modifies this`fs
      ensures Sealed(fs) && OthersKept(fs0, fs, target) && TemporariesKept(fs0, fs) && fs.Durable(target, content)
      ensures Reached(h, start, choices', fs, q') && q'.phase.Ready? && q'.done == 1
    {
      ghost var staged := fs;
      fs := fs.Rename(temp, target);
      ghost var renamed, q1 := fs, q.(phase := Replaced);
      OneMore(h, start, choices, staged, q, ANY, fs, q1);
      fs := fs.SyncDirectory(temp.dir);
      q' := q1.(phase := Ready, done := q1.done + 1, created := q1.created + [false]);
      OneMore(h, start, choices + [ANY], renamed, q1, ANY, fs, q');
      choices' := choices + [ANY] + [ANY];
      ReplacementFacts(fs0, staged, temp, ino, content, target);
    }
  }

  lemma {:induction false} OneWrite(kernel: Kernel, call: nat, size: nat, count: int)
    requires size > 0 && count == if kernel(call) < size then kernel(call) else size
    ensures WriteEnds(kernel, call, size) ==
            if count <= 0 then (false, call + 1) else WriteEnds(kernel, call + 1, size - count)
  {
  }

  lemma NextPiece(content: Bytes, written: nat, count: nat)
    requires written + count <= |content|
    ensures content[..written] + content[written..][..count] == content[..written + count]
  {
  }

  ghost predicate Writes(q: Process, ino: nat, content: Bytes) {
    q.phase.Writing? && q.ino == ino && q.done < |q.jobs| && q.jobs[q.done].content == content
  }

  lemma WriteStep(h: Hash, start: System, choices: seq<Choice>, fs: FileSystem, q: Process, content: Bytes, count: int)
    requires Reached(h, start, choices, fs, q) && q.ino in fs.inodes && Writes(q, q.ino, content)
    requires |fs.inodes[q.ino].data| < |content| && count <= |content| - |fs.inodes[q.ino].data|
    ensures var rest := content[|fs.inodes[q.ino].data|..];
            Reached(h, start, choices + [Choice(0, 0, count)],
                    if count <= 0 then fs else fs.Append(q.ino, rest[..count]),
                    q.(phase := if count <= 0 then Failed else Writing))
  {
    var written := |fs.inodes[q.ino].data|;
    var rest := content[written..];
    if count > 0 {
      assert rest[..count] == content[written..written + count];
    }
    OneMore(h, start, choices, fs, q, Choice(0, 0, count),
            if count <= 0 then fs else fs.Append(q.ino, rest[..count]),
            q.(phase := if count <= 0 then Failed else Writing));
  }
}
