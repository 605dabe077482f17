/** The part of a POSIX file system the artifact writers rely on.

    A directory entry has a current value and the set of values that a crash may
    leave behind; `fsync` of the directory shrinks that set to the current value.
    An inode holds bytes and a flag saying that `fsync` of the file made them durable.
 */
module FileSystems {
  import opened Wrappers

  type Bytes = string

  /** A path, classified by how the program uses it: create-only targets, the
      replaceable pointers, and the names `mkstemp` hands out. */
  datatype Name =
    | Final(dir: string, base: string)
    | Pointer(dir: string, base: string)
    | Temporary(dir: string, base: string, tag: nat)

  /** Bookkeeping only: which job of which process allocated an inode. */
  datatype Owner = Owner(process: nat, job: nat)

  datatype Inode = Inode(data: Bytes, synced: bool, owner: Owner)

  datatype Slot = Slot(now: Option<nat>, disk: set<Option<nat>>)

  datatype FileSystem = FileSystem(slots: map<Name, Slot>, inodes: map<nat, Inode>) {

    function At(n: Name): Slot {
      if n in slots then slots[n] else Slot(None, {None})
    }

    /** The bytes a reader of `n` gets, if the name is visible. */
    ghost predicate Holds(n: Name, data: Bytes) {
      && At(n).now.Some?
      && At(n).now.value in inodes
      && inodes[At(n).now.value].data == data
    }

    /** `n` holds `data` now and after any crash. */
    ghost predicate Durable(n: Name, data: Bytes) {
      && Holds(n, data)
      && At(n).disk == {At(n).now}
      && inodes[At(n).now.value].synced
    }

    ghost predicate WellFormed() {
      && (forall n :: At(n).now in At(n).disk)
      && (forall n, i :: Some(i) in At(n).disk ==> i in inodes)
    }

    function Put(n: Name, value: Option<nat>): FileSystem {
      this.(slots := slots[n := Slot(value, At(n).disk + {value})])
    }

    function CreateTemporary(n: Name, ino: nat, owner: Owner): FileSystem {
      Put(n, Some(ino)).(inodes := inodes[ino := Inode("", false, owner)])
    }

    function Append(ino: nat, more: Bytes): FileSystem
      requires ino in inodes
    {
      this.(inodes := inodes[ino := inodes[ino].(data := inodes[ino].data + more, synced := false)])
    }

    function SyncFile(ino: nat): FileSystem
      requires ino in inodes
    {
      this.(inodes := inodes[ino := inodes[ino].(synced := true)])
    }

    /** `link(2)`: the caller has checked that `target` is not visible. */
    function Link(source: Name, target: Name): FileSystem {
      Put(target, At(source).now)
    }

    /** `rename(2)`: each of the two entry changes may survive a crash on its own. */
    function Rename(source: Name, target: Name): FileSystem {
      Put(target, At(source).now).Put(source, None)
    }

    function Unlink(n: Name): FileSystem {
      Put(n, None)
    }

    function SyncDirectory(dir: string): FileSystem {
      this.(slots := map n | n in slots ::
              if n.dir == dir then Slot(slots[n].now, {slots[n].now}) else slots[n])
    }

    /** `after` is a state in which the machine may come up again after losing power. */
    ghost predicate Survives(after: FileSystem) {
      && (forall n :: after.At(n).now in At(n).disk && after.At(n).disk == {after.At(n).now})
      && after.inodes.Keys == inodes.Keys
      && (forall i :: i in inodes ==>
            && after.inodes[i].synced
            && after.inodes[i].owner == inodes[i].owner
            && (inodes[i].synced ==> after.inodes[i].data == inodes[i].data))
    }
  }
}
