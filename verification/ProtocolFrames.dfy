/** What each system call of the publication protocol leaves alone.

    One lemma per call; `ProtocolSteps` uses them for the processes that do not move.
 */
module ProtocolFrames {
  import opened Wrappers
  import opened FileSystems
  import opened ProtocolInvariant

  /** `fs'` is well formed, keeps the shape of create-only names, and disturbs nobody but `p`. */
  ghost predicate Framed(fs: FileSystem, fs': FileSystem, p: nat) {
    && fs'.WellFormed()
    && Shapes(fs')
    && Preserves(fs, fs', p)
  }

  /** Non-temporary entries of `fs'` are old entries with unchanged inodes. */
  ghost predicate NoNewTargets(fs: FileSystem, fs': FileSystem) {
    forall n: Name, i :: !n.Temporary? && Some(i) in fs'.At(n).disk ==>
      Some(i) in fs.At(n).disk && i in fs.inodes && i in fs'.inodes && fs'.inodes[i] == fs.inodes[i]
  }

  lemma CreateTemporaryFrame(fs: FileSystem, temp: Name, ino: nat, owner: Owner)
    requires fs.WellFormed() && Shapes(fs)
    requires temp.Temporary? && fs.At(temp).now.None? && ino !in fs.inodes
    ensures var fs' := fs.CreateTemporary(temp, ino, owner);
            Framed(fs, fs', owner.process) && NoNewTargets(fs, fs') && Unpublished(fs', ino, temp)
  {
    var fs' := fs.CreateTemporary(temp, ino, owner);
    assert forall n :: n != temp ==> fs'.At(n) == fs.At(n);
  }

  lemma FileFrame(fs: FileSystem, fs': FileSystem, temp: Name, ino: nat, p: nat)
    requires fs.WellFormed() && Shapes(fs) && temp.Temporary? && Unpublished(fs, ino, temp)
    requires ino in fs.inodes && fs.inodes[ino].owner.process == p
    requires fs'.slots == fs.slots && ino in fs'.inodes
    requires fs'.inodes == fs.inodes[ino := fs'.inodes[ino]]
    requires fs'.inodes[ino].owner == fs.inodes[ino].owner
    ensures Framed(fs, fs', p) && NoNewTargets(fs, fs') && Unpublished(fs', ino, temp)
  {
    assert forall n :: fs'.At(n) == fs.At(n);
    assert forall n: Name, i :: fs.At(n).now == Some(i) ==> Some(i) in fs.At(n).disk;
  }

  lemma LinkFrame(fs: FileSystem, temp: Name, target: Name, p: nat)
    requires fs.WellFormed() && Shapes(fs)
    requires temp.Temporary? && fs.At(temp).now.Some? && fs.inodes[fs.At(temp).now.value].owner.process == p
    requires target.Final? && fs.At(target).now.None?
    ensures Framed(fs, fs.Link(temp, target), p)
  {
    var fs' := fs.Link(temp, target);
    assert CreateOnlyShape(fs, target);
    assert forall n :: n != target ==> fs'.At(n) == fs.At(n);
  }

  lemma RenameFrame(fs: FileSystem, temp: Name, target: Name, p: nat)
    requires fs.WellFormed() && Shapes(fs)
    requires temp.Temporary? && fs.At(temp).now.Some? && fs.inodes[fs.At(temp).now.value].owner.process == p
    requires target.Pointer?
    ensures Framed(fs, fs.Rename(temp, target), p)
  {
    var fs' := fs.Rename(temp, target);
    assert forall n :: n != target && n != temp ==> fs'.At(n) == fs.At(n);
  }

  lemma UnlinkFrame(fs: FileSystem, temp: Name, p: nat)
    requires fs.WellFormed() && Shapes(fs)
    requires temp.Temporary? && fs.At(temp).now.Some? && fs.inodes[fs.At(temp).now.value].owner.process == p
    ensures Framed(fs, fs.Unlink(temp), p) && NoNewTargets(fs, fs.Unlink(temp))
  {
    var fs' := fs.Unlink(temp);
    assert forall n :: n != temp ==> fs'.At(n) == fs.At(n);
  }

  lemma SyncDirectoryFrame(fs: FileSystem, dir: string, p: nat)
    requires fs.WellFormed() && Shapes(fs)
    ensures Framed(fs, fs.SyncDirectory(dir), p) && NoNewTargets(fs, fs.SyncDirectory(dir))
    ensures forall n :: fs.SyncDirectory(dir).At(n).now == fs.At(n).now
    ensures forall n :: fs.SyncDirectory(dir).At(n).disk <= fs.At(n).disk
    ensures forall n: Name :: n.dir == dir ==> fs.SyncDirectory(dir).At(n).disk == {fs.At(n).now}
  {
    var fs' := fs.SyncDirectory(dir);
    assert forall n :: fs'.At(n).now == fs.At(n).now && fs'.At(n).disk <= fs.At(n).disk;
    assert forall n: Name :: n.dir == dir ==> fs'.At(n).disk == {fs.At(n).now};
    assert forall n: Name :: n.dir != dir ==> fs'.At(n) == fs.At(n);
    forall n: Name | n.Final?
      ensures CreateOnlyShape(fs', n)
    {
      assert CreateOnlyShape(fs, n);
    }
  }
}
