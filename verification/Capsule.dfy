/** `publish_with_last_marker` as the sequential program it is. */
module Capsules {
  import opened Wrappers
  import opened Hashes
  import opened TextOrder
  import opened FileSystems
  import opened Paths
  import opened Checksums
  import opened Verifier
  import opened Disks

  datatype PublishError = BadEnvelope | UnsafePath | WriteFailed(cause: WriteError)

  /** `files` are durably in place below `root`; every other name is as in `fs0`. */
  ghost predicate Written(fs0: FileSystem, fs: FileSystem, root: string, files: seq<Entry<string>>) {
    && Sealed(fs) && TemporariesKept(fs0, fs)
    && (forall i :: i in fs0.inodes ==> i in fs.inodes && fs.inodes[i] == fs0.inodes[i])
    && (forall i :: 0 <= i < |files| ==> fs.Durable(Place(root, files[i].0), files[i].1))
    && (forall n: Name :: !n.Temporary? && !Target(root, files, n) ==>
          fs.At(n).now == fs0.At(n).now && fs.At(n).disk <= fs0.At(n).disk)
  }

  ghost predicate Target(root: string, files: seq<Entry<string>>, n: Name) {
    exists i :: 0 <= i < |files| && n == Place(root, files[i].0)
  }

  lemma TargetGrows(root: string, files: seq<Entry<string>>, f: Entry<string>, n: Name)
    ensures Target(root, files + [f], n) <==> Target(root, files, n) || n == Place(root, f.0)
  {
    var longer := files + [f];
    assert longer[|files|] == f;
    assert forall i :: 0 <= i < |files| ==> longer[i] == files[i];
  }

  /** A later write changes nothing about the files already in place. */
  lemma WrittenExtends(fs0: FileSystem, fs1: FileSystem, fs2: FileSystem, root: string, files: seq<Entry<string>>,
                       f: Entry<string>)
    requires Written(fs0, fs1, root, files) && Sealed(fs2)
    requires OthersKept(fs1, fs2, Place(root, f.0)) && TemporariesKept(fs1, fs2) && fs2.Durable(Place(root, f.0), f.1)
    requires forall i :: 0 <= i < |files| ==> files[i].0 != f.0
    ensures Written(fs0, fs2, root, files + [f])
  {
    var longer := files + [f];
    forall i | 0 <= i < |longer|
      ensures fs2.Durable(Place(root, longer[i].0), longer[i].1)
    {
      if i < |files| {
        if Place(root, files[i].0) == Place(root, f.0) {
          PlaceIsInjective(root, files[i].0, f.0);
        }
        DurableStays(fs1, fs2, Place(root, f.0), Place(root, files[i].0), files[i].1);
      }
    }
    forall n: Name | !n.Temporary? && !Target(root, longer, n)
      ensures fs2.At(n).now == fs0.At(n).now && fs2.At(n).disk <= fs0.At(n).disk
    {
      TargetGrows(root, files, f, n);
    }
  }

  lemma DurableStays(fs1: FileSystem, fs2: FileSystem, target: Name, n: Name, data: Bytes)
    requires fs1.WellFormed() && fs2.WellFormed() && OthersKept(fs1, fs2, target)
    requires n != target && !n.Temporary? && fs1.Durable(n, data)
    ensures fs2.Durable(n, data)
  {
  }

  /** The digest tells each new file apart from what its name holds now. */
  ghost predicate AllSeparate(h: Hash, fs: FileSystem, root: string, files: seq<Entry<string>>) {
    forall i :: 0 <= i < |files| ==> Separates(h, fs, Place(root, files[i].0), files[i].1)
  }

  lemma SeparateStays(h: Hash, fs0: FileSystem, fs: FileSystem, root: string, files: seq<Entry<string>>,
                      f: Entry<string>)
    requires Written(fs0, fs, root, files) && fs0.WellFormed() && Separates(h, fs0, Place(root, f.0), f.1)
    requires forall i :: 0 <= i < |files| ==> files[i].0 != f.0
    ensures Separates(h, fs, Place(root, f.0), f.1)
  {
    var n := Place(root, f.0);
    if Target(root, files, n) {
      var i :| 0 <= i < |files| && n == Place(root, files[i].0);
      PlaceIsInjective(root, files[i].0, f.0);
    }
    assert fs.At(n).now == fs0.At(n).now;
    assert fs0.At(n).now in fs0.At(n).disk;
  }

  /** The file's name holds other bytes. */
  ghost predicate Differs(fs: FileSystem, root: string, f: Entry<string>) {
    fs.At(Place(root, f.0)).now.Some? && !fs.Holds(Place(root, f.0), f.1)
  }

  /** How writing the first `n` files ends, and the number of the next call of `os.write`. */
  ghost function Attempt(kernel: Kernel, call: nat, fs0: FileSystem, root: string, files: seq<Entry<string>>, n: nat):
    (Option<WriteError>, nat)
    requires n <= |files|
    decreases n
  {
    if n == 0 then (None, call)
    else
      var before := Attempt(kernel, call, fs0, root, files, n - 1);
      if before.0.Some? then before else OneAttempt(kernel, before.1, fs0, root, files[n - 1])
  }

  ghost function OneAttempt(kernel: Kernel, call: nat, fs0: FileSystem, root: string, f: Entry<string>):
    (Option<WriteError>, nat)
  {
    var end := WriteEnds(kernel, call, |f.1|);
    (if !end.0 then Some(NoProgress) else if Differs(fs0, root, f) then Some(Collision) else None, end.1)
  }

  /** The first `n` files get written exactly when none of their names holds other bytes and no call
      of `os.write` on the way accepts nothing. */
  lemma {:induction false} AttemptSucceedsIff(kernel: Kernel, call: nat, fs0: FileSystem, root: string,
                                              files: seq<Entry<string>>, n: nat)
    requires n <= |files|
    ensures Attempt(kernel, call, fs0, root, files, n).0.None? <==>
              forall i: nat :: i < n ==> Clear(kernel, call, fs0, root, files, i)
    decreases n
  {
    if n > 0 {
      AttemptSucceedsIff(kernel, call, fs0, root, files, n - 1);
      WriteFailsOnlyOnStall(kernel, Attempt(kernel, call, fs0, root, files, n - 1).1, |files[n - 1].1|);
      assert Clear(kernel, call, fs0, root, files, n - 1) <==>
               Attempt(kernel, call, fs0, root, files, n - 1).0.None? &&
               OneAttempt(kernel, Attempt(kernel, call, fs0, root, files, n - 1).1, fs0, root, files[n - 1]).0.None?;
    }
  }

  /** File `i`, when its turn comes, can be written. */
  ghost predicate Clear(kernel: Kernel, call: nat, fs0: FileSystem, root: string, files: seq<Entry<string>>, i: nat)
    requires i < |files|
  {
    var before := Attempt(kernel, call, fs0, root, files, i);
    before.0.None? && Fed(kernel, before.1, |files[i].1|) && !Differs(fs0, root, files[i])
  }

  lemma {:induction false} AttemptEnded(kernel: Kernel, call: nat, fs0: FileSystem, root: string,
                                        files: seq<Entry<string>>, k: nat, n: nat)
    requires k <= n <= |files| && Attempt(kernel, call, fs0, root, files, k).0.Some?
    ensures Attempt(kernel, call, fs0, root, files, n) == Attempt(kernel, call, fs0, root, files, k)
    decreases n - k
  {
    if k < n {
      AttemptEnded(kernel, call, fs0, root, files, k, n - 1);
    }
  }

  /** Write one more file of a publication. */
  method WriteNext(disk: Disk, h: Hash, root: string, ghost fs0: FileSystem, ghost files: seq<Entry<string>>,
                   f: Entry<string>)
    returns (r: Result<(), PublishError>)
    requires Sealed(fs0) && Written(fs0, disk.fs, root, files)
    requires Separates(h, fs0, Place(root, f.0), f.1)
    requires forall i :: 0 <= i < |files| ==> files[i].0 != f.0
    modifies disk
    ensures r.Ok? ==> Written(fs0, disk.fs, root, files + [f])
    ensures r.Err? ==> r.error.WriteFailed? && Sealed(disk.fs)
    ensures r.Err? ==> forall n: Name :: !n.Temporary? ==> disk.fs.At(n).now == old(disk.fs).At(n).now
    ensures var end := OneAttempt(disk.kernel, old(disk.calls), fs0, root, f);
            EndsAs(r, end.0) && disk.calls == end.1
  {
    ghost var before := disk.fs;
    SeparateStays(h, fs0, before, root, files, f);
    UntouchedTarget(fs0, before, root, files, f);
    var written, choices, q := disk.AtomicWriteBytes(h, Place(root, f.0), f.1);
    match written
    case Err(cause) =>
      return Err(WriteFailed(cause));
    case Ok(_) =>
      WrittenExtends(fs0, before, disk.fs, root, files, f);
      return Ok(());
  }

  predicate EndsAs(r: Result<(), PublishError>, failure: Option<WriteError>) {
    match failure
    case None => r.Ok?
    case Some(cause) => r == Err(WriteFailed(cause))
  }

  /** The checks before the first write, and the payloads sorted by path. */
  method Normalize(payloads: seq<Entry<string>>, marker: string) returns (r: Result<seq<Entry<string>>, PublishError>)
    requires DistinctKeys(payloads)
    ensures r.Ok? <==> Nameable(payloads, marker)
    ensures r.Ok? ==> r.value == SortByKey(payloads)
    ensures r == Err(BadEnvelope) <==> SafeComponent(marker) && EnvelopeClashes(payloads, marker)
    ensures r.Err? ==> !r.error.WriteFailed?
  {
    if !SafeComponent(marker) { return Err(UnsafePath); }
    if marker == CHECKSUMS_NAME { return Err(BadEnvelope); }
    if exists i :: 0 <= i < |payloads| && (payloads[i].0 == marker || payloads[i].0 == CHECKSUMS_NAME) {
      return Err(BadEnvelope);
    }
    var normalized: seq<Entry<string>> := [];
    for i := 0 to |payloads|
      invariant normalized == payloads[..i]
      invariant forall k :: 0 <= k < i ==> SafePath(payloads[k].0)
    {
      if !SafePath(payloads[i].0) { return Err(UnsafePath); }
      normalized := normalized + [payloads[i]];
    }
    assert payloads[..|payloads|] == payloads;
    return Ok(SortByKey(normalized));
  }

  /** The marker and the index are two files, and neither is a payload. */
  predicate EnvelopeClashes(payloads: seq<Entry<string>>, marker: string) {
    || marker == CHECKSUMS_NAME
    || exists i :: 0 <= i < |payloads| && (payloads[i].0 == marker || payloads[i].0 == CHECKSUMS_NAME)
  }

  ghost predicate Prepared(h: Hash, fs: FileSystem, root: string, files: seq<Entry<string>>) {
    Sealed(fs) && DistinctKeys(files) && AllSeparate(h, fs, root, files)
  }

  lemma NextFile(h: Hash, fs0: FileSystem, root: string, files: seq<Entry<string>>, i: nat)
    requires Prepared(h, fs0, root, files) && i < |files|
    ensures files[..i] + [files[i]] == files[..i + 1]
    ensures forall k :: 0 <= k < |files[..i]| ==> files[..i][k].0 != files[i].0
    ensures Separates(h, fs0, Place(root, files[i].0), files[i].1)
  {
  }

  /** Where a publication stands after `n` files, the next of which is `files[n]`. */
  ghost predicate Done(disk: Disk, call: nat, fs0: FileSystem, root: string, files: seq<Entry<string>>, n: nat)
    requires n <= |files|
    reads disk
  {
    && Written(fs0, disk.fs, root, files[..n])
    && Attempt(disk.kernel, call, fs0, root, files, n) == (None, disk.calls)
  }

  /** The publication has failed as it had to, and the marker's name is untouched. */
  ghost predicate GaveUp(disk: Disk, call: nat, fs0: FileSystem, root: string, files: seq<Entry<string>>,
                         r: Result<(), PublishError>)
    requires files != []
    reads disk
  {
    && r.Err? && EndsAs(r, Attempt(disk.kernel, call, fs0, root, files, |files|).0)
    && MarkerKept(fs0, disk.fs, root, files)
  }

  /** Write file `n`. */
  method WriteFile(disk: Disk, h: Hash, root: string, ghost fs0: FileSystem, ghost call: nat,
                   ghost files: seq<Entry<string>>, ghost n: nat, f: Entry<string>)
    returns (r: Result<(), PublishError>)
    requires Prepared(h, fs0, root, files) && n < |files| && f == files[n]
    requires Done(disk, call, fs0, root, files, n)
    modifies disk
    ensures if r.Ok? then Done(disk, call, fs0, root, files, n + 1) else GaveUp(disk, call, fs0, root, files, r)
  {
    NextFile(h, fs0, root, files, n);
    MarkerUntouched(fs0, disk.fs, root, files, n);
    r := WriteNext(disk, h, root, fs0, files[..n], f);
    if r.Err? {
      AttemptEnded(disk.kernel, call, fs0, root, files, n + 1, |files|);
    }
  }

  /** The loop over the sorted payloads. */
  method WritePayloads(disk: Disk, h: Hash, root: string, normalized: seq<Entry<string>>,
                       ghost files: seq<Entry<string>>)
    returns (r: Result<(), PublishError>)
    requires Prepared(h, disk.fs, root, files) && |normalized| < |files| && normalized == files[..|normalized|]
    modifies disk
    ensures if r.Ok? then Done(disk, old(disk.calls), old(disk.fs), root, files, |normalized|)
            else GaveUp(disk, old(disk.calls), old(disk.fs), root, files, r)
  {
    ghost var fs0, call := disk.fs, disk.calls;
    for i := 0 to |normalized|
      invariant Done(disk, call, fs0, root, files, i)
    {
      assert normalized[i] == files[i];
      r := WriteFile(disk, h, root, fs0, call, files, i, normalized[i]);
      if r.Err? { return; }
    }
    return Ok(());
  }

  /** The last of `files` names what it named before. */
  ghost predicate MarkerKept(fs0: FileSystem, fs: FileSystem, root: string, files: seq<Entry<string>>)
    requires files != []
  {
    var n := Place(root, files[|files| - 1].0);
    fs.At(n).now == fs0.At(n).now
  }

  lemma MarkerUntouched(fs0: FileSystem, fs: FileSystem, root: string, files: seq<Entry<string>>, k: nat)
    requires Sealed(fs0) && DistinctKeys(files) && k < |files| && Written(fs0, fs, root, files[..k])
    ensures MarkerKept(fs0, fs, root, files)
  {
    UntouchedTarget(fs0, fs, root, files[..k], files[|files| - 1]);
  }

  /** How a publication of prepared files ends. */
  ghost predicate Ends(disk: Disk, call: nat, fs0: FileSystem, root: string, files: seq<Entry<string>>,
                       r: Result<(), PublishError>)
    requires files != []
    reads disk
  {
    && EndsAs(r, Attempt(disk.kernel, call, fs0, root, files, |files|).0)
    && (if r.Ok? then Written(fs0, disk.fs, root, files) else MarkerKept(fs0, disk.fs, root, files))
  }

  lemma FileEnds(disk: Disk, call: nat, fs0: FileSystem, root: string, files: seq<Entry<string>>, n: nat,
                 r: Result<(), PublishError>)
    requires |files| == n + 2
    requires if r.Ok? then Done(disk, call, fs0, root, files, n + 2) else GaveUp(disk, call, fs0, root, files, r)
    ensures Ends(disk, call, fs0, root, files, r)
  {
    assert files[..|files|] == files;
  }

  /** The index, then the marker. */
  method WriteLastTwo(disk: Disk, h: Hash, root: string, index: Entry<string>, marker: Entry<string>,
                      ghost fs0: FileSystem, ghost call: nat, ghost files: seq<Entry<string>>)
    returns (r: Result<(), PublishError>)
    requires |files| >= 2 && index == files[|files| - 2] && marker == files[|files| - 1]
    requires Prepared(h, fs0, root, files) && Done(disk, call, fs0, root, files, |files| - 2)
    modifies disk
    ensures Ends(disk, call, fs0, root, files, r)
  {
    ghost var n := |files| - 2;
    r := WriteFile(disk, h, root, fs0, call, files, n, index);
    if r.Ok? {
      r := WriteFile(disk, h, root, fs0, call, files, n + 1, marker);
    }
    FileEnds(disk, call, fs0, root, files, n, r);
  }

  /** The payloads, then the index, then the marker. */
  method WriteFiles(disk: Disk, h: Hash, root: string, normalized: seq<Entry<string>>, index: Entry<string>,
                    marker: Entry<string>, ghost files: seq<Entry<string>>)
    returns (r: Result<(), PublishError>)
    requires Prepared(h, disk.fs, root, files) && |files| == |normalized| + 2
    requires normalized == files[..|normalized|] && index == files[|normalized|] && marker == files[|normalized| + 1]
    modifies disk
    ensures Ends(disk, old(disk.calls), old(disk.fs), root, files, r)
  {
    ghost var call, fs0 := disk.calls, disk.fs;
    r := WritePayloads(disk, h, root, normalized, files);
    if r.Err? { return; }
    r := WriteLastTwo(disk, h, root, index, marker, fs0, call, files);
  }

  /** `publish_with_last_marker` */
  method PublishWithLastMarker(disk: Disk, h: Hash, root: string, payloads: seq<Entry<string>>, marker: string,
                               markerBytes: string)
    returns (r: Result<(), PublishError>)
    requires Sealed(disk.fs) && DistinctKeys(payloads)
    requires AllSeparate(h, disk.fs, root, FilesOf(h, payloads, marker, markerBytes))
    modifies disk
    ensures r.Ok? ==> Nameable(payloads, marker)
    ensures r.Ok? ==> Written(old(disk.fs), disk.fs, root, FilesOf(h, payloads, marker, markerBytes))
    ensures !Nameable(payloads, marker) ==> r.Err? && !r.error.WriteFailed? && disk.fs == old(disk.fs)
    ensures Nameable(payloads, marker) ==>
              var files := FilesOf(h, payloads, marker, markerBytes);
              EndsAs(r, Attempt(disk.kernel, old(disk.calls), old(disk.fs), root, files, |files|).0)
    ensures r == Err(BadEnvelope) <==> SafeComponent(marker) && EnvelopeClashes(payloads, marker)
    ensures r.Err? ==> disk.fs.At(Place(root, marker)).now == old(disk.fs).At(Place(root, marker)).now
  {
    ghost var files := FilesOf(h, payloads, marker, markerBytes);
    var checked := Normalize(payloads, marker);
    if checked.Err? { return Err(checked.error); }
    FilesDistinct(h, payloads, marker, markerBytes);
    LastFiles(h, payloads, marker, markerBytes);
    var index := (CHECKSUMS_NAME, IndexOf(h, payloads, marker, markerBytes));
    r := WriteFiles(disk, h, root, checked.value, index, (marker, markerBytes), files);
  }

  lemma LastFiles(h: Hash, payloads: seq<Entry<string>>, marker: string, markerBytes: string)
    ensures var files, sorted := FilesOf(h, payloads, marker, markerBytes), SortByKey(payloads);
            && |files| == |sorted| + 2 && sorted == files[..|sorted|] && files[..|sorted| + 2] == files
            && files[|sorted|] == (CHECKSUMS_NAME, IndexOf(h, payloads, marker, markerBytes))
            && files[|sorted| + 1] == (marker, markerBytes)
  {
  }

  lemma UntouchedTarget(fs0: FileSystem, fs: FileSystem, root: string, files: seq<Entry<string>>, f: Entry<string>)
    requires Sealed(fs0) && Written(fs0, fs, root, files) && forall i :: 0 <= i < |files| ==> files[i].0 != f.0
    ensures fs.At(Place(root, f.0)).now == fs0.At(Place(root, f.0)).now
    ensures fs0.Holds(Place(root, f.0), f.1) <==> fs.Holds(Place(root, f.0), f.1)
  {
    var n := Place(root, f.0);
    if Target(root, files, n) {
      var i :| 0 <= i < |files| && n == Place(root, files[i].0);
      PlaceIsInjective(root, files[i].0, f.0);
    }
    assert fs0.At(n).now in fs0.At(n).disk;
  }

  // ---- what a reader of the directory sees afterwards ----

  predicate Below(root: string, n: Name) {
    n.dir == root || root + "/" <= n.dir
  }

  ghost predicate EmptyBelow(fs: FileSystem, root: string) {
    forall n :: Below(root, n) ==> fs.At(n).now.None?
  }

  /** `tree` is what a walk over the directory finds. */
  ghost predicate Shows(fs: FileSystem, root: string, tree: Tree) {
    && (forall path :: path in tree ==> fs.Holds(Place(root, path), tree[path]))
    && (forall n :: Below(root, n) && fs.At(n).now.Some? ==> exists path :: path in tree && n == Place(root, path))
  }

  lemma PlaceIsBelow(root: string, path: string)
    ensures Below(root, Place(root, path))
  {
  }

  lemma TreeKeys(fs0: FileSystem, fs: FileSystem, root: string, files: seq<Entry<string>>, tree: Tree)
    requires EmptyBelow(fs0, root) && Written(fs0, fs, root, files) && Shows(fs, root, tree)
    ensures tree.Keys == PathSet(files)
    ensures forall i :: 0 <= i < |files| ==> files[i].0 in tree && tree[files[i].0] == files[i].1
  {
    forall path | path in tree.Keys
      ensures path in PathSet(files)
    {
      PlaceIsBelow(root, path);
      assert Target(root, files, Place(root, path));
      var i :| 0 <= i < |files| && Place(root, path) == Place(root, files[i].0);
      PlaceIsInjective(root, path, files[i].0);
    }
    forall i | 0 <= i < |files|
      ensures files[i].0 in tree && tree[files[i].0] == files[i].1
    {
      PlaceIsBelow(root, files[i].0);
      assert fs.Durable(Place(root, files[i].0), files[i].1);
      var path :| path in tree && Place(root, files[i].0) == Place(root, path);
      PlaceIsInjective(root, files[i].0, path);
    }
    forall path | path in PathSet(files)
      ensures path in tree.Keys
    {
      var i :| 0 <= i < |files| && files[i].0 == path;
    }
  }

  lemma PathSetOfFiles(h: Hash, payloads: seq<Entry<string>>, marker: string, markerBytes: string)
    ensures PathSet(FilesOf(h, payloads, marker, markerBytes)) == PathSet(payloads) + {marker, CHECKSUMS_NAME}
  {
    var files, sorted := FilesOf(h, payloads, marker, markerBytes), SortByKey(payloads);
    SortKeepsMembers(payloads);
    assert files[|sorted|].0 == CHECKSUMS_NAME && files[|sorted| + 1].0 == marker;
    forall path | path in PathSet(payloads)
      ensures path in PathSet(files)
    {
      var i :| 0 <= i < |payloads| && payloads[i].0 == path;
      var f: Entry<string> := payloads[i];
      assert f in payloads;
      assert f in sorted;
      var k :| 0 <= k < |sorted| && sorted[k] == f;
      assert files[k].0 == path;
    }
    forall path | path in PathSet(files)
      ensures path in PathSet(payloads) + {marker, CHECKSUMS_NAME}
    {
      var k :| 0 <= k < |files| && files[k].0 == path;
      if k < |sorted| {
        var f: Entry<string> := sorted[k];
        assert f in sorted;
        assert f in payloads;
      }
    }
  }

  lemma FilesArePublished(h: Hash, tree: Tree, payloads: seq<Entry<string>>, marker: string, markerBytes: string)
    requires var files := FilesOf(h, payloads, marker, markerBytes);
             tree.Keys == PathSet(files) && forall i :: 0 <= i < |files| ==>
               files[i].0 in tree && tree[files[i].0] == files[i].1
    ensures Published(h, tree, payloads, marker, markerBytes)
  {
    var files, sorted := FilesOf(h, payloads, marker, markerBytes), SortByKey(payloads);
    SortKeepsMembers(payloads);
    PathSetOfFiles(h, payloads, marker, markerBytes);
    LastFiles(h, payloads, marker, markerBytes);
    forall i | 0 <= i < |payloads|
      ensures payloads[i].0 in tree && tree[payloads[i].0] == payloads[i].1
    {
      var f: Entry<string> := payloads[i];
      assert f in payloads;
      assert f in sorted;
      var k :| 0 <= k < |sorted| && sorted[k] == f;
      assert files[k] == f;
    }
  }

  lemma PublicationLeaves(h: Hash, fs0: FileSystem, fs: FileSystem, root: string,
                          payloads: seq<Entry<string>>, marker: string, markerBytes: string, tree: Tree)
    requires Nameable(payloads, marker)
    requires EmptyBelow(fs0, root) && Written(fs0, fs, root, FilesOf(h, payloads, marker, markerBytes))
    requires Shows(fs, root, tree)
    ensures Published(h, tree, payloads, marker, markerBytes)
  {
    FilesDistinct(h, payloads, marker, markerBytes);
    TreeKeys(fs0, fs, root, FilesOf(h, payloads, marker, markerBytes), tree);
    FilesArePublished(h, tree, payloads, marker, markerBytes);
  }

  /** An uninterrupted publication into an empty directory leaves exactly its files, and the
      verifier accepts them exactly when no name contains a line break. */
  lemma PublicationVerifies(h: Hash, fs0: FileSystem, fs: FileSystem, root: string,
                            payloads: seq<Entry<string>>, marker: string, markerBytes: string, tree: Tree)
    requires DigestShape(h) && Nameable(payloads, marker)
    requires EmptyBelow(fs0, root) && Written(fs0, fs, root, FilesOf(h, payloads, marker, markerBytes))
    requires Shows(fs, root, tree)
    ensures Published(h, tree, payloads, marker, markerBytes)
    ensures Accepts(h, tree, marker) <==> NamesAreOneLine(payloads, marker)
  {
    PublicationLeaves(h, fs0, fs, root, payloads, marker, markerBytes, tree);
    PublishedAcceptedIff(h, tree, payloads, marker, markerBytes);
  }
}
