/** Service receipts and the current pointer. */
module Receipts {
  import opened Wrappers
  import opened Hashes
  import opened FileSystems
  import opened Protocol
  import opened ProtocolTheorems

  const POINTER_NAME := "service-verification-current.sha256"

  function ReceiptName(dir: string, hash: string): Name {
    Final(dir, hash + ".json")
  }

  function PointerIn(dir: string): Name {
    Pointer(dir, POINTER_NAME)
  }

  /** `seal_service_verification_receipt`: seal the receipt under its hash, then move the pointer. */
  function SealJobs(h: Hash, dir: string, receipt: Bytes): seq<Job> {
    [Create(ReceiptName(dir, h(receipt)), receipt, ByBytes), Replace(PointerIn(dir), h(receipt) + "\n")]
  }

  /** Job lists that move this directory's pointer only as the last act of a seal, and that write
      under a receipt's name only the content the name is the hash of. */
  ghost predicate SealsOnly(h: Hash, s: System, dir: string) {
    && (forall p, k ::
          && p in s.processes && 0 <= k < |s.processes[p].jobs| && s.processes[p].jobs[k].target == PointerIn(dir)
          ==> k == 1 && exists receipt :: s.processes[p].jobs == SealJobs(h, dir, receipt))
    && (forall p, k, hash ::
          && p in s.processes && 0 <= k < |s.processes[p].jobs|
          && s.processes[p].jobs[k].target == ReceiptName(dir, hash)
          ==> h(s.processes[p].jobs[k].content) == hash)
  }

  ghost predicate Names(h: Hash, s: System, dir: string, receipt: Bytes) {
    && s.fs.Holds(PointerIn(dir), h(receipt) + "\n")
    && s.fs.Durable(ReceiptName(dir, h(receipt)), receipt)
  }

  /** At every moment of every run of seals, crashes and kills, a visible pointer names a
      durable receipt whose bytes hash to that name. */
  lemma PointerNamesDurableReceipt(h: Hash, run: seq<System>, t: nat, dir: string)
    requires CleanRun(h, run) && t < |run| && SealsOnly(h, run[t], dir)
    requires run[t].fs.At(PointerIn(dir)).now.Some?
    ensures exists receipt :: Names(h, run[t], dir, receipt)
  {
    var s := run[t];
    VisibleIsComplete(h, run, t, PointerIn(dir));
    var p, k :| PublishedBy(s, PointerIn(dir), p, k);
    var receipt :| s.processes[p].jobs == SealJobs(h, dir, receipt);
    assert k == 1;
    var seal := s.processes[p].jobs[0];
    assert seal.Create? && s.fs.Durable(seal.target, seal.content);
    assert Names(h, s, dir, receipt);
  }

  lemma SealIsUndisputed(h: Hash, s: System, dir: string, p: nat, receipt: Bytes)
    requires SealsOnly(h, s, dir) && NoCollision(h, s)
    requires p in s.processes && s.processes[p].jobs == SealJobs(h, dir, receipt)
    ensures Undisputed(s, p)
  {
    var jobs := s.processes[p].jobs;
    forall j, r, k |
      && 0 <= j < 2 && jobs[j].Create? && r in s.processes && 0 <= k < |s.processes[r].jobs|
      && jobs[j].target == s.processes[r].jobs[k].target
      ensures jobs[j].content == s.processes[r].jobs[k].content
    {
      assert j == 0 && jobs[0].content == receipt;
      assert h(s.processes[r].jobs[k].content) == h(receipt);
    }
  }

  /** No seal ever reports a collision, and a seal that returns leaves its receipt durable. */
  lemma SealsNeverCollide(h: Hash, run: seq<System>, t: nat, u: nat, dir: string, p: nat, receipt: Bytes)
    requires CleanRun(h, run) && t <= u < |run|
    requires forall v :: 0 <= v <= t ==> SealsOnly(h, run[v], dir)
    requires p in run[t].processes && run[t].processes[p].jobs == SealJobs(h, dir, receipt)
    ensures !Rejected(run[t].processes[p])
    ensures run[t].processes[p].done >= 1 ==> run[u].fs.Durable(ReceiptName(dir, h(receipt)), receipt)
  {
    forall v | 0 <= v <= t && p in run[v].processes
      ensures Undisputed(run[v], p)
    {
      JobsStay(h, run, v, t, p);
      SealIsUndisputed(h, run[v], dir, p, receipt);
    }
    UndisputedNeverCollide(h, run, t, p);
    if run[t].processes[p].done >= 1 {
      assert run[t].processes[p].jobs[0] == Create(ReceiptName(dir, h(receipt)), receipt, ByBytes);
      ReturnedIsDurable(h, run, t, u, p, 0);
    }
  }

  // ---- the reader ----

  datatype ResolveError = PointerMissing | PointerMalformed | HashMalformed | ReceiptMissing | HashDiffers

  function ReadOf(fs: FileSystem, n: Name): Option<Bytes> {
    match fs.At(n).now
    case Some(i) => if i in fs.inodes then Some(fs.inodes[i].data) else None
    case None => None
  }

  /** The hash in a pointer file: exactly 64 hexadecimal digits and a newline. */
  function PointerHash(content: Bytes): Option<string> {
    if |content| == 65 && content[64] == '\n' && IsSha256(content[..64]) then Some(content[..64]) else None
  }

  function SelectReceipt(fs: FileSystem, dir: string, expected: Option<string>): Result<string, ResolveError> {
    match expected
    case Some(hash) => if IsSha256(hash) then Ok(hash) else Err(HashMalformed)
    case None =>
      match ReadOf(fs, PointerIn(dir))
      case None => Err(PointerMissing)
      case Some(content) =>
        match PointerHash(content)
        case None => Err(PointerMalformed)
        case Some(hash) => Ok(hash)
  }

  /** `resolve_service_verification_receipt`; the two reads see two states of the file system. */
  function Resolve(h: Hash, first: FileSystem, second: FileSystem, dir: string, expected: Option<string>):
    Result<Name, ResolveError>
  {
    match SelectReceipt(first, dir, expected)
    case Err(e) => Err(e)
    case Ok(hash) =>
      match ReadOf(second, ReceiptName(dir, hash))
      case None => Err(ReceiptMissing)
      case Some(content) => if h(content) == hash then Ok(ReceiptName(dir, hash)) else Err(HashDiffers)
  }

  lemma PointerTextParses(content: Bytes, hash: string)
    ensures PointerHash(content) == Some(hash) <==> IsSha256(hash) && content == hash + "\n"
  {
    if PointerHash(content) == Some(hash) {
      assert content == content[..64] + "\n";
    }
    if IsSha256(hash) {
      assert (hash + "\n")[..64] == hash;
    }
  }

  /** A receipt lies under the name of this hash, and its bytes hash to it. */
  ghost predicate Verified(h: Hash, fs: FileSystem, dir: string, hash: string) {
    exists receipt :: fs.Holds(Final(dir, hash + ".json"), receipt) && h(receipt) == hash
  }

  ghost predicate Readable(fs: FileSystem, n: Name) {
    exists content :: fs.Holds(n, content)
  }

  lemma ReadIffHolds(fs: FileSystem, n: Name, content: Bytes)
    ensures ReadOf(fs, n) == Some(content) <==> fs.Holds(n, content)
  {
  }

  /** A reader bound to a hash gets the receipt of that hash or none, whatever hash the pointer file holds. */
  lemma ResolveBound(h: Hash, first: FileSystem, second: FileSystem, dir: string, hash: string, n: Name)
    ensures var r := Resolve(h, first, second, dir, Some(hash));
            && (r == Ok(n) <==> IsSha256(hash) && Verified(h, second, dir, hash) && n == Final(dir, hash + ".json"))
            && (r == Err(HashMalformed) <==> !IsSha256(hash))
            && (r == Err(ReceiptMissing) <==> IsSha256(hash) && !Readable(second, Final(dir, hash + ".json")))
            && r != Err(PointerMissing) && r != Err(PointerMalformed)
  {
    var name := Final(dir, hash + ".json");
    match ReadOf(second, name)
    case Some(receipt) =>
      ReadIffHolds(second, name, receipt);
      assert forall other :: second.Holds(name, other) ==> other == receipt;
    case None =>
  }

  /** Any other reader gets the receipt that the pointer named at its first read. */
  lemma ResolveCurrent(h: Hash, first: FileSystem, second: FileSystem, dir: string, n: Name)
    ensures Resolve(h, first, second, dir, None) == Ok(n) <==>
              exists hash ::
                PointsTo(first, dir, hash) && Verified(h, second, dir, hash) && n == Final(dir, hash + ".json")
    ensures Resolve(h, first, second, dir, None) == Err(PointerMissing) <==> !Readable(first, PointerIn(dir))
    ensures Resolve(h, first, second, dir, None) == Err(PointerMalformed) <==>
              Readable(first, PointerIn(dir)) && forall hash :: !PointsTo(first, dir, hash)
  {
    match ReadOf(first, PointerIn(dir))
    case None =>
    case Some(content) =>
      ReadIffHolds(first, PointerIn(dir), content);
      assert forall other :: first.Holds(PointerIn(dir), other) ==> other == content;
      forall hash
        ensures PointsTo(first, dir, hash) <==> PointerHash(content) == Some(hash)
      {
        PointerTextParses(content, hash);
      }
      if PointerHash(content).Some? {
        ResolveBound(h, first, second, dir, PointerHash(content).value, n);
      }
  }

  ghost predicate PointsTo(fs: FileSystem, dir: string, hash: string) {
    IsSha256(hash) && fs.Holds(PointerIn(dir), hash + "\n")
  }

  /** Once a pointer is visible every reader resolves the receipt it names, even if seals and crashes
      happen between its two reads; while none is visible every reader reports it missing. */
  lemma ResolveSucceeds(h: Hash, run: seq<System>, t: nat, u: nat, dir: string)
    requires CleanRun(h, run) && t <= u < |run| && SealsOnly(h, run[t], dir) && DigestShape(h)
    ensures if run[t].fs.At(PointerIn(dir)).now.Some? then
              exists receipt ::
                && Names(h, run[t], dir, receipt)
                && Resolve(h, run[t].fs, run[u].fs, dir, None) == Ok(ReceiptName(dir, h(receipt)))
            else Resolve(h, run[t].fs, run[u].fs, dir, None) == Err(PointerMissing)
  {
    if run[t].fs.At(PointerIn(dir)).now.Some? {
      PointerNamesDurableReceipt(h, run, t, dir);
      var receipt :| Names(h, run[t], dir, receipt);
      PointerTextParses(h(receipt) + "\n", h(receipt));
      DurableForever(h, run, t, u, ReceiptName(dir, h(receipt)), receipt);
      assert Resolve(h, run[t].fs, run[u].fs, dir, None) == Ok(ReceiptName(dir, h(receipt)));
    }
  }

  /** A cell bound to a durable receipt resolves it for the rest of the run, wherever the pointer has moved. */
  lemma BoundReceiptStays(h: Hash, run: seq<System>, t: nat, u: nat, dir: string, receipt: Bytes, first: FileSystem)
    requires CleanRun(h, run) && t <= u < |run| && DigestShape(h)
    requires run[t].fs.Durable(ReceiptName(dir, h(receipt)), receipt)
    ensures Resolve(h, first, run[u].fs, dir, Some(h(receipt))) == Ok(ReceiptName(dir, h(receipt)))
  {
    DurableForever(h, run, t, u, ReceiptName(dir, h(receipt)), receipt);
  }
}
