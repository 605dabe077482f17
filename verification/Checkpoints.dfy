/** The append-only checkpoint store. */
module Checkpoints {
  import opened Wrappers
  import opened Hashes
  import opened Paths
  import opened Json
  import opened CheckpointNames
  import opened CheckpointRecords

  /** Lease epoch and sequence number: the file `checkpoints/<epoch>-<sequence>.json`. */
  type Place = (nat, nat)

  type Store = map<Place, Checkpoint>

  datatype AppendError =
    | HashMismatch
    | UnsafeSource
    | SourceMismatch
    | NotAppendOnly
    | PredecessorMissing
    | PredecessorDiffers
    | Collision

  function Position(c: Checkpoint): Place {
    (c.epoch, c.sequence)
  }

  predicate Genuine(g: Checkpoint -> string, c: Checkpoint) {
    WellFormedCheckpoint(c) && c.hash == g(c)
  }

  /** `c` is the successor of `b`. */
  predicate Precedes(b: Checkpoint, c: Checkpoint) {
    b.epoch == c.epoch && b.sequence + 1 == c.sequence && c.predecessor == Some(b.hash)
  }

  /** The predecessor `c` names is the stored one; a first checkpoint names none. */
  predicate FollowsPredecessor(files: Store, c: Checkpoint) {
    c.sequence > 1 ==>
      && (c.epoch, c.sequence - 1) in files
      && Some(files[(c.epoch, c.sequence - 1)].hash) == c.predecessor
  }

  /** A genuine record in its own place, which names the record below it if there is one. */
  ghost predicate SoundAt(g: Checkpoint -> string, files: Store, k: Place)
    requires k in files
  {
    && Genuine(g, files[k])
    && Position(files[k]) == k
    && (k.1 > 1 && (k.0, k.1 - 1) in files ==> Precedes(files[(k.0, k.1 - 1)], files[k]))
  }

  /** What every store satisfies, for the content hash `g`, even after losing records in a crash. */
  ghost predicate Sound(g: Checkpoint -> string, files: Store) {
    forall k :: k in files ==> SoundAt(g, files, k)
  }

  /** No record stands above a gap. */
  ghost predicate Whole(files: Store) {
    forall k :: k in files && k.1 > 1 ==> (k.0, k.1 - 1) in files
  }

  ghost predicate Chained(g: Checkpoint -> string, files: Store) {
    Sound(g, files) && Whole(files)
  }

  /** The checkpoints of an epoch are exactly `1..n`. */
  ghost predicate Contiguous(files: Store, epoch: nat, n: nat) {
    forall s: nat :: (epoch, s) in files <==> 1 <= s <= n
  }

  /** The position is taken, or nothing stands at or above it. */
  ghost predicate Behind(files: Store, epoch: nat, n: nat) {
    (epoch, n) in files || forall s: nat :: (epoch, s) in files ==> s < n
  }

  /** An appender that got through its checks may link `c` now. */
  predicate Extends(g: Checkpoint -> string, files: Store, c: Checkpoint) {
    && Genuine(g, c)
    && (forall k :: k in files && k.0 == c.epoch ==> k.1 < c.sequence)
    && FollowsPredecessor(files, c)
  }

  /** What other appenders do to a store: records stay, and a position nothing had passed is taken
      or still not passed. */
  ghost predicate Grows(files: Store, later: Store) {
    && (forall k :: k in files ==> k in later && later[k] == files[k])
    && (forall e: nat, n: nat :: n > 0 && Behind(files, e, n) ==> Behind(later, e, n))
  }

  /** The greatest of some numbers, and 0 if there are none. */
  function Greatest(numbers: seq<nat>): (n: nat)
    ensures forall i :: 0 <= i < |numbers| ==> numbers[i] <= n
    ensures n in numbers || (n == 0 && numbers == [])
  {
    if numbers == [] then 0
    else
      var rest := Greatest(numbers[1..]);
      assert numbers == [numbers[0]] + numbers[1..];
      if numbers[0] >= rest then numbers[0] else rest
  }

  predicate SourcePath(path: string) {
    SafePath(path) && Components(path)[0] == "source"
  }

  ghost predicate SourceOk(h: Hash, sources: map<string, string>, e: SourceEntry) {
    SourcePath(e.relativePath) && e.relativePath in sources && h(sources[e.relativePath]) == e.sha256
  }

  ghost predicate SourcesOk(h: Hash, sources: map<string, string>, c: Checkpoint) {
    forall i :: 0 <= i < |c.entries| ==> SourceOk(h, sources, c.entries[i])
  }

  /** Some name of a listing shows number `n` for this epoch, as `number` reads names. */
  ghost predicate Listed<T(!new)>(names: set<T>, number: (T, nat) -> Option<nat>, epoch: nat, n: nat) {
    exists x :: x in names && number(x, epoch) == Some(n)
  }

  /** `n` is one more than the greatest listed number, or 1 if none is listed. */
  ghost predicate NextListed<T(!new)>(names: set<T>, number: (T, nat) -> Option<nat>, epoch: nat, n: nat) {
    && (forall s: nat :: Listed(names, number, epoch, s) ==> s < n)
    && (n == 1 || (n > 1 && Listed(names, number, epoch, n - 1)))
  }

  class CheckpointStore {
    var files: Store
    var sources: map<string, string>
    /** Other files in the checkpoint directory; the listing may take some of them for checkpoints. */
    const foreign: set<string>
    const h: Hash
    const g: Checkpoint -> string

    ghost predicate Valid()
      reads this
    {
      Sound(g, files) && forall e, n :: FileName(e, n) !in foreign
    }

    /** Every name in the checkpoint directory. */
    function Names(): set<string>
      reads this
    {
      (set k | k in files :: FileName(k.0, k.1)) + foreign
    }

    constructor (h: Hash, sources: map<string, string>, foreign: set<string>)
      requires forall e, n :: FileName(e, n) !in foreign
      ensures Valid() && Whole(files) && files == map[] && this.foreign == foreign
      ensures this.h == h && this.g == ContentHash(h) && this.sources == sources
    {
      this.h, g, this.sources, this.foreign, files := h, ContentHash(h), sources, foreign, map[];
    }

    /** Any number of other appenders may run to completion here. */
    method Interfere(other: Checkpoint, count: nat)
      requires Valid()
      modifies this`files
      ensures Valid() && (Whole(old(files)) ==> Whole(files))
      ensures Grows(old(files), files)
      decreases count
    {
      var take: bool := *;
      if take && Extends(g, files, other) {
        ExtendKeepsChain(g, files, other);
        files := files[Position(other) := other];
      }
      if count > 0 {
        var next: Checkpoint := *;
        Interfere(next, count - 1);
      }
    }

    /** A crash may lose any of the records whose directory entry was not fsynced. */
    method PowerLoss(lost: set<Place>)
      requires Valid()
      modifies this`files
      ensures Valid() && files == old(files) - lost
    {
      files := files - lost;
      forall k | k in files
        ensures SoundAt(g, files, k)
      {
        assert SoundAt(g, old(files), k);
      }
    }

    /** `_verify_source_entries` */
    method VerifySourceEntries(entries: seq<SourceEntry>) returns (r: Option<AppendError>)
      ensures r.None? <==> forall i :: 0 <= i < |entries| ==> SourceOk(h, sources, entries[i])
      ensures r.Some? ==> r.value == UnsafeSource || r.value == SourceMismatch
    {
      for i := 0 to |entries|
        invariant forall k :: 0 <= k < i ==> SourceOk(h, sources, entries[k])
      {
        if !SourcePath(entries[i].relativePath) { return Some(UnsafeSource); }
        if entries[i].relativePath !in sources || h(sources[entries[i].relativePath]) != entries[i].sha256 {
          return Some(SourceMismatch);
        }
      }
      return None;
    }

    /** `_checkpoint_sequences`: the numbers in the names of the form `<epoch>-<digits>.json`. */
    method CheckpointSequences(epoch: nat) returns (sequences: seq<nat>)
      ensures forall s: nat :: s in sequences <==> Listed(Names(), SequenceOf, epoch, s)
    {
      sequences := [];
      var rest := Names();
      while rest != {}
        invariant rest <= Names()
        invariant forall s: nat :: s in sequences <==> Listed(Names() - rest, SequenceOf, epoch, s)
        decreases |rest|
      {
        var base :| base in rest;
        var number := SequenceOf(base, epoch);
        OneMoreName(Names(), rest, base, epoch);
        rest := rest - {base};
        if number.Some? {
          sequences := sequences + [number.value];
        }
      }
      assert Names() - rest == Names();
    }

    /** The sequence check: it lets a record pass whose file exists, or that is next in the listing. */
    method CheckSequence(c: Checkpoint) returns (ok: bool)
      requires WellFormedCheckpoint(c)
      ensures ok <==> MayStandAt(files, Names(), c)
    {
      if Position(c) in files { return true; }
      var sequences := CheckpointSequences(c.epoch);
      GreatestListed(Names(), c.epoch, sequences, c.sequence);
      return c.sequence == Greatest(sequences) + 1;
    }

    method CheckPredecessor(c: Checkpoint) returns (r: Option<AppendError>)
      ensures r.None? <==> FollowsPredecessor(files, c)
      ensures r.Some? ==>
                r.value == if (c.epoch, c.sequence - 1) in files then PredecessorDiffers else PredecessorMissing
    {
      if c.sequence > 1 {
        var p := (c.epoch, c.sequence - 1);
        if p !in files { return Some(PredecessorMissing); }
        if Some(files[p].hash) != c.predecessor { return Some(PredecessorDiffers); }
      }
      return None;
    }

    /** Everything `append_checkpoint` looks at before it writes. */
    method Check(c: Checkpoint) returns (r: Option<AppendError>)
      requires Valid() && WellFormedCheckpoint(c)
      ensures r == Some(HashMismatch) <==> c.hash != g(c)
      ensures r == Some(NotAppendOnly) <==>
                c.hash == g(c) && SourcesOk(h, sources, c) && !MayStandAt(files, Names(), c)
      ensures r.None? <==> && c.hash == g(c) && SourcesOk(h, sources, c)
                           && MayStandAt(files, Names(), c) && FollowsPredecessor(files, c)
    {
      if c.hash != g(c) { return Some(HashMismatch); }
      r := VerifySourceEntries(c.entries);
      if r.Some? { return r; }
      var ok := CheckSequence(c);
      if !ok { return Some(NotAppendOnly); }
      r := CheckPredecessor(c);
    }

    /** `append_checkpoint`.  `seen` is the store at the moment of the final create-only write. */
    method AppendCheckpoint(c: Checkpoint, other: Checkpoint, count: nat)
      returns (r: Result<bool, AppendError>, ghost seen: Store)
      requires Valid() && WellFormedCheckpoint(c)
      modifies this`files
      ensures Valid() && (Whole(old(files)) ==> Whole(files))
      ensures Grows(old(files), seen)
      ensures files == if r == Ok(true) then seen[Position(c) := c] else seen
      ensures r.Ok? ==> (r.value <==> Position(c) !in seen) && files[Position(c)] == c
      ensures r.Ok? <==>
                && c.hash == g(c) && SourcesOk(h, sources, c)
                && MayStandAt(old(files), old(Names()), c) && FollowsPredecessor(old(files), c)
                && (Position(c) in seen ==> seen[Position(c)] == c)
      ensures seen == old(files) ==>
                (r.Ok? <==> c.hash == g(c) && SourcesOk(h, sources, c) && Accepts(old(files), old(Names()), c))
    {
      seen := files;
      var problem := Check(c);
      if problem.Some? { return Err(problem.value), seen; }
      StandsBehind(this, c);
      Interfere(other, count);
      seen := files;
      r := Link(c);
    }

    /** The create-only write. */
    method Link(c: Checkpoint) returns (r: Result<bool, AppendError>)
      requires Valid() && Genuine(g, c) && FollowsPredecessor(files, c) && Behind(files, c.epoch, c.sequence)
      modifies this`files
      ensures Valid() && (Whole(old(files)) ==> Whole(files))
      ensures files == if r == Ok(true) then old(files)[Position(c) := c] else old(files)
      ensures r == if Position(c) !in old(files) then Ok(true)
                   else if old(files)[Position(c)] == c then Ok(false) else Err(Collision)
    {
      if Position(c) in files {
        return if files[Position(c)] == c then Ok(false) else Err(Collision);
      }
      ExtendKeepsChain(g, files, c);
      files := files[Position(c) := c];
      return Ok(true);
    }

  }

  ghost predicate MayStandAt(files: Store, names: set<string>, c: Checkpoint) {
    Position(c) in files || NextListed(names, SequenceOf, c.epoch, c.sequence)
  }

  /** What an appender that meets no other one accepts: a replay of the stored record, or a new
      record one above everything listed, either of them naming the stored predecessor. */
  ghost predicate Accepts(files: Store, names: set<string>, c: Checkpoint) {
    && MayStandAt(files, names, c)
    && FollowsPredecessor(files, c)
    && (Position(c) in files ==> files[Position(c)] == c)
  }

  lemma OneMoreName(names: set<string>, rest: set<string>, base: string, epoch: nat)
    requires base in rest && rest <= names
    ensures forall s: nat :: Listed(names - (rest - {base}), SequenceOf, epoch, s) <==>
                               Listed(names - rest, SequenceOf, epoch, s) || SequenceOf(base, epoch) == Some(s)
  {
    assert names - (rest - {base}) == (names - rest) + {base};
  }

  lemma GreatestListed(names: set<string>, epoch: nat, sequences: seq<nat>, n: nat)
    requires forall s: nat :: s in sequences <==> Listed(names, SequenceOf, epoch, s)
    ensures n > 0 ==> (NextListed(names, SequenceOf, epoch, n) <==> n == Greatest(sequences) + 1)
  {
    var top := Greatest(sequences);
    assert top in sequences || top == 0;
    if n == top + 1 {
      forall s: nat | Listed(names, SequenceOf, epoch, s)
        ensures s < n
      {
        assert s in sequences;
      }
    } else if n > 1 {
      assert Listed(names, SequenceOf, epoch, n - 1) <==> n - 1 in sequences;
    }
  }

  /** Every stored record is listed under its own number. */
  lemma ListedFiles(store: CheckpointStore)
    ensures forall k :: k in store.files ==> Listed(store.Names(), SequenceOf, k.0, k.1)
  {
    forall k | k in store.files
      ensures Listed(store.Names(), SequenceOf, k.0, k.1)
    {
      SequenceOfFileName(k.0, k.1, k.0);
      assert FileName(k.0, k.1) in store.Names();
    }
  }

  lemma StandsBehind(store: CheckpointStore, c: Checkpoint)
    requires MayStandAt(store.files, store.Names(), c)
    ensures Behind(store.files, c.epoch, c.sequence)
  {
    ListedFiles(store);
  }

  /** Appending a successor above everything stored keeps the store sound, and keeps it whole. */
  lemma ExtendKeepsChain(g: Checkpoint -> string, files: Store, c: Checkpoint)
    requires Sound(g, files) && Extends(g, files, c)
    ensures Sound(g, files[Position(c) := c])
    ensures Whole(files) ==> Whole(files[Position(c) := c])
    ensures Grows(files, files[Position(c) := c])
  {
    var longer := files[Position(c) := c];
    forall k | k in longer
      ensures SoundAt(g, longer, k)
    {
      ExtendKeepsLink(g, files, c, k);
    }
    ExtendGrows(files, c);
    ExtendKeepsWhole(files, c);
  }

  lemma ExtendKeepsLink(g: Checkpoint -> string, files: Store, c: Checkpoint, k: Place)
    requires Sound(g, files) && Extends(g, files, c)
    requires k in files || k == Position(c)
    ensures SoundAt(g, files[Position(c) := c], k)
  {
    if k in files {
      assert SoundAt(g, files, k);
    } else if k.1 > 1 {
      assert SoundAt(g, files, (k.0, k.1 - 1));
    }
  }

  lemma ExtendKeepsWhole(files: Store, c: Checkpoint)
    requires FollowsPredecessor(files, c)
    ensures Whole(files) ==> Whole(files[Position(c) := c])
  {
  }

  lemma ExtendGrows(files: Store, c: Checkpoint)
    requires FollowsPredecessor(files, c) && Position(c) !in files
    ensures Grows(files, files[Position(c) := c])
  {
    forall e: nat, n: nat | n > 0 && Behind(files, e, n)
      ensures Behind(files[Position(c) := c], e, n)
    {
      ExtendKeepsBehind(files, c, e, n);
    }
  }

  lemma ExtendKeepsBehind(files: Store, c: Checkpoint, e: nat, n: nat)
    requires n > 0 && Behind(files, e, n) && FollowsPredecessor(files, c)
    ensures Behind(files[Position(c) := c], e, n)
  {
  }

  lemma {:induction false} DownwardClosed(files: Store, epoch: nat, s: nat, t: nat)
    requires Whole(files) && (epoch, t) in files && 1 <= s <= t
    ensures (epoch, s) in files
    decreases t - s
  {
    if s < t {
      assert (epoch, t).1 > 1;
      DownwardClosed(files, epoch, s, t - 1);
    }
  }

  /** In a chained store each epoch's checkpoints are contiguous from 1. */
  lemma EpochIsContiguous(g: Checkpoint -> string, files: Store, epoch: nat)
    requires Chained(g, files)
    ensures exists n :: Contiguous(files, epoch, n)
  {
    var sequences := SequencesOf(files, epoch);
    var n := Greatest(sequences);
    forall s: nat
      ensures (epoch, s) in files <==> 1 <= s <= n
    {
      if (epoch, s) in files {
        assert SoundAt(g, files, (epoch, s));
      } else if 1 <= s <= n {
        DownwardClosed(files, epoch, s, n);
      }
    }
    assert Contiguous(files, epoch, n);
  }

  ghost function SequencesOf(files: Store, epoch: nat): (sequences: seq<nat>)
    ensures forall s: nat :: s in sequences <==> (epoch, s) in files
    decreases |files|
  {
    if files == map[] then []
    else
      var k :| k in files;
      var rest := files - {k};
      assert files.Keys == rest.Keys + {k};
      if k.0 == epoch then SequencesOf(rest, epoch) + [k.1] else SequencesOf(rest, epoch)
  }

  /** With checkpoints `1..n` stored and nothing else listed, what an appender accepts is a replay of
      one of them or a successor of the last. */
  lemma AcceptsReplayOrNext(g: Checkpoint -> string, files: Store, names: set<string>, c: Checkpoint, n: nat)
    requires Chained(g, files) && WellFormedCheckpoint(c) && Contiguous(files, c.epoch, n)
    requires forall s: nat :: Listed(names, SequenceOf, c.epoch, s) <==> (c.epoch, s) in files
    ensures Accepts(files, names, c) <==>
              || (c.sequence <= n && files[Position(c)] == c)
              || (c.sequence == n + 1 && (n > 0 ==> Precedes(files[(c.epoch, n)], c)))
  {
    assert Position(c) in files <==> 1 <= c.sequence <= n;
    assert c.sequence > 1 ==> ((c.epoch, c.sequence - 1) in files <==> c.sequence - 1 <= n);
    if Position(c) in files {
      assert SoundAt(g, files, Position(c));
    } else {
      assert NextListed(names, SequenceOf, c.epoch, c.sequence) <==> c.sequence == n + 1;
      if n > 0 { assert SoundAt(g, files, (c.epoch, n)); }
    }
  }

  /** No two checkpoint documents of the two stores collide under the digest. */
  ghost predicate NoCheckpointCollision(h: Hash, a: Store, b: Store) {
    forall j, k :: j in a && k in b && CheckpointHash(h, a[j]) == CheckpointHash(h, b[k]) ==>
      Print(CheckpointDocument(a[j])) == Print(CheckpointDocument(b[k]))
  }

  lemma EqualHashesEqualRecords(h: Hash, a: Checkpoint, b: Checkpoint)
    requires Genuine(ContentHash(h), a) && Genuine(ContentHash(h), b) && a.hash == b.hash
    requires CheckpointHash(h, a) == CheckpointHash(h, b) ==>
               Print(CheckpointDocument(a)) == Print(CheckpointDocument(b))
    ensures a == b
  {
    HashBindsCheckpoint(h, a, b);
    assert a == a.(hash := "").(hash := a.hash) && b == b.(hash := "").(hash := b.hash);
  }

  /** The records from `s` to `n` are all there. */
  ghost predicate Unbroken(files: Store, epoch: nat, s: nat, n: nat) {
    forall m: nat :: s <= m <= n ==> (epoch, m) in files
  }

  ghost predicate SameRecords(a: Store, b: Store, epoch: nat, s: nat, n: nat) {
    forall m: nat :: s <= m <= n ==> (epoch, m) in a && (epoch, m) in b && a[(epoch, m)] == b[(epoch, m)]
  }

  /** Equal hashes mean the same record at the same position; the records below, where both are
      there, have equal hashes again. */
  lemma HeadsAgree(h: Hash, a: Store, b: Store, j: Place, k: Place)
    requires Sound(ContentHash(h), a) && Sound(ContentHash(h), b) && NoCheckpointCollision(h, a, b)
    requires j in a && k in b && a[j].hash == b[k].hash
    ensures j == k && a[j] == b[k] && j.1 >= 1
    ensures j.1 > 1 && (j.0, j.1 - 1) in a && (j.0, j.1 - 1) in b ==>
              a[(j.0, j.1 - 1)].hash == b[(j.0, j.1 - 1)].hash
  {
    assert SoundAt(ContentHash(h), a, j) && SoundAt(ContentHash(h), b, k);
    EqualHashesEqualRecords(h, a[j], b[k]);
  }

  /** Equal hashes in two stores, torn by crashes or not, mean equal chains down to the first gap in
      either of them. */
  lemma {:induction false} HeadPinsChain(h: Hash, a: Store, b: Store, j: Place, k: Place, s: nat)
    requires Sound(ContentHash(h), a) && Sound(ContentHash(h), b) && NoCheckpointCollision(h, a, b)
    requires j in a && k in b && a[j].hash == b[k].hash
    requires 1 <= s <= j.1 && Unbroken(a, j.0, s, j.1) && Unbroken(b, j.0, s, j.1)
    ensures j == k && SameRecords(a, b, j.0, s, j.1)
    decreases j.1
  {
    HeadsAgree(h, a, b, j, k);
    var below := (j.0, j.1 - 1);
    if j.1 > s {
      assert below in a && below in b;
      HeadPinsChain(h, a, b, below, below, s);
    }
    OneMoreRecord(a, b, j.0, s, j.1);
  }

  lemma OneMoreRecord(a: Store, b: Store, epoch: nat, s: nat, n: nat)
    requires s <= n && (n > s ==> SameRecords(a, b, epoch, s, n - 1))
    requires (epoch, n) in a && (epoch, n) in b && a[(epoch, n)] == b[(epoch, n)]
    ensures SameRecords(a, b, epoch, s, n)
  {
  }

  /** Equal heads of whole chains mean equal chains, all the way down. */
  lemma HeadPinsWholeChain(h: Hash, a: Store, b: Store, j: Place, k: Place)
    requires Chained(ContentHash(h), a) && Chained(ContentHash(h), b) && NoCheckpointCollision(h, a, b)
    requires j in a && k in b && a[j].hash == b[k].hash
    ensures j == k && SameRecords(a, b, j.0, 1, j.1)
  {
    HeadsAgree(h, a, b, j, k);
    forall m: nat | 1 <= m <= j.1
      ensures (j.0, m) in a && (j.0, m) in b
    {
      DownwardClosed(a, j.0, m, j.1);
      DownwardClosed(b, j.0, m, j.1);
    }
    HeadPinsChain(h, a, b, j, k, 1);
  }
}
