/** Checkpoint records: what their content hash covers.

    The hash covers every field but itself; the bytes of a checkpoint file determine all of them.
 */
module CheckpointRecords {
  import opened Wrappers
  import opened Hashes
  import opened Lists
  import opened Json
  import opened JsonParser
  import opened Records

  datatype SourceEntry = SourceEntry(recordKind: string, recordId: string, relativePath: string, sha256: string)

  datatype Checkpoint = Checkpoint(
    hash: string, runId: string, leaseHash: string, epoch: nat, sequence: nat,
    predecessor: Option<string>, entries: seq<SourceEntry>, createdAt: string)

  /** The field validator of `CheckpointManifest`. */
  predicate WellFormedCheckpoint(c: Checkpoint) {
    && c.epoch >= 1 && c.sequence >= 1
    && (c.sequence == 1 <==> c.predecessor.None?)
    && forall i, j :: 0 <= i < j < |c.entries| ==> c.entries[i].relativePath != c.entries[j].relativePath
  }

  function EntryKey(i: int): string {
    match i
    case 0 => "schema_name"
    case 1 => "schema_version"
    case 2 => "record_kind"
    case 3 => "record_id"
    case 4 => "relative_path"
    case _ => "sha256"
  }

  function EntryKeys(): (r: seq<string>)
    ensures |r| == 6 && forall i :: 0 <= i < |r| ==> r[i] == EntryKey(i)
  {
    seq(6, i requires 0 <= i < 6 => EntryKey(i))
  }

  function EntryRow(e: SourceEntry): (r: seq<Json>)
    ensures |r| == 6
  {
    [Str("capsule_manifest_entry"), Int(1), Str(e.recordKind), Str(e.recordId), Str(e.relativePath), Str(e.sha256)]
  }

  function EntryDocument(e: SourceEntry): Json {
    Record(EntryKeys(), EntryRow(e))
  }

  function EntryDocuments(entries: seq<SourceEntry>): (r: seq<Json>)
    ensures |r| == |entries| && forall i :: 0 <= i < |r| ==> r[i] == EntryDocument(entries[i])
  {
    seq(|entries|, i requires 0 <= i < |entries| => EntryDocument(entries[i]))
  }

  function CheckpointKey(i: int): string {
    match i
    case 0 => "schema_name"
    case 1 => "schema_version"
    case 2 => "run_id"
    case 3 => "lease_record_hash"
    case 4 => "lease_epoch"
    case 5 => "sequence"
    case 6 => "predecessor_checkpoint_hash"
    case 7 => "source_entries"
    case _ => "created_at"
  }

  function CheckpointKeys(): (r: seq<string>)
    ensures |r| == 9 && forall i :: 0 <= i < |r| ==> r[i] == CheckpointKey(i)
  {
    seq(9, i requires 0 <= i < 9 => CheckpointKey(i))
  }

  function CheckpointValue(c: Checkpoint, i: int): Json {
    match i
    case 0 => Str("checkpoint_manifest")
    case 1 => Int(1)
    case 2 => Str(c.runId)
    case 3 => Str(c.leaseHash)
    case 4 => Int(c.epoch)
    case 5 => Int(c.sequence)
    case 6 => if c.predecessor.Some? then Str(c.predecessor.value) else Null
    case 7 => Arr(EntryDocuments(c.entries))
    case _ => Str(c.createdAt)
  }

  function CheckpointRow(c: Checkpoint): (r: seq<Json>)
    ensures |r| == 9 && forall i :: 0 <= i < |r| ==> r[i] == CheckpointValue(c, i)
  {
    seq(9, i requires 0 <= i < 9 => CheckpointValue(c, i))
  }

  /** Every field but the hash itself. */
  function CheckpointDocument(c: Checkpoint): Json {
    Record(CheckpointKeys(), CheckpointRow(c))
  }

  function CheckpointHash(h: Hash, c: Checkpoint): string {
    Digest(h, CheckpointDocument(c))
  }

  /** `CheckpointHash` as a value. */
  function ContentHash(h: Hash): Checkpoint -> string {
    c => CheckpointHash(h, c)
  }

  lemma KeysDistinct()
    ensures Distinct(EntryKeys()) && Distinct(CheckpointKeys())
  {
    EntryKeysDistinct();
    forall i, j | 0 <= i < j < 9
      ensures CheckpointKey(i) != CheckpointKey(j)
    {
      if i < 3 { EarlyCheckpointKeys(i, j); } else { LateCheckpointKeys(i, j); }
    }
  }

  lemma EntryKeysDistinct()
    ensures Distinct(EntryKeys())
  {
  }

  lemma EarlyCheckpointKeys(i: nat, j: nat)
    requires i < j < 9 && i < 3
    ensures CheckpointKey(i) != CheckpointKey(j)
  {
  }

  lemma LateCheckpointKeys(i: nat, j: nat)
    requires 3 <= i < j < 9
    ensures CheckpointKey(i) != CheckpointKey(j)
  {
  }

  lemma EntryWellFormed(e: SourceEntry)
    ensures WellFormed(EntryDocument(e))
    ensures ReadRecord(EntryKeys(), Canonical(EntryDocument(e))) == Some(EntryRow(e))
  {
    KeysDistinct();
    ReadOfFlatRecord(EntryKeys(), EntryRow(e));
  }

  lemma EntryIsBound(a: SourceEntry, b: SourceEntry)
    requires Canonical(EntryDocument(a)) == Canonical(EntryDocument(b))
    ensures a == b
  {
    EntryWellFormed(a);
    EntryWellFormed(b);
    var va, vb := EntryRow(a), EntryRow(b);
    assert va[2] == vb[2] && va[3] == vb[3] && va[4] == vb[4] && va[5] == vb[5];
  }

  lemma EntriesAreBound(a: seq<SourceEntry>, b: seq<SourceEntry>)
    requires CanonicalItems(EntryDocuments(a)) == CanonicalItems(EntryDocuments(b))
    ensures a == b
  {
    forall i | 0 <= i < |a|
      ensures a[i] == b[i]
    {
      CanonicalItemsAt(EntryDocuments(a), i);
      CanonicalItemsAt(EntryDocuments(b), i);
      EntryIsBound(a[i], b[i]);
    }
  }

  lemma RowWellFormed(c: Checkpoint)
    ensures forall i :: 0 <= i < 9 ==> WellFormed(CheckpointRow(c)[i])
  {
    forall i | 0 <= i < |c.entries|
      ensures WellFormed(EntryDocuments(c.entries)[i])
    {
      EntryWellFormed(c.entries[i]);
    }
    EachWellFormed(EntryDocuments(c.entries));
  }

  lemma DocumentReads(c: Checkpoint)
    ensures WellFormed(CheckpointDocument(c))
    ensures ReadRecord(CheckpointKeys(), Canonical(CheckpointDocument(c))) == Some(CanonicalItems(CheckpointRow(c)))
  {
    KeysDistinct();
    RowWellFormed(c);
    EachWellFormed(CheckpointRow(c));
    RecordWellFormed(CheckpointKeys(), CheckpointRow(c));
    ReadOfCanonicalRecord(CheckpointKeys(), CheckpointRow(c));
  }

  lemma RowIsBound(a: Checkpoint, b: Checkpoint)
    requires CanonicalItems(CheckpointRow(a)) == CanonicalItems(CheckpointRow(b))
    ensures a.(hash := "") == b.(hash := "")
  {
    forall i | 0 <= i < 9
      ensures Canonical(CheckpointValue(a, i)) == Canonical(CheckpointValue(b, i))
    {
      CanonicalItemsAt(CheckpointRow(a), i);
      CanonicalItemsAt(CheckpointRow(b), i);
    }
    assert Canonical(CheckpointValue(a, 2)) == Canonical(CheckpointValue(b, 2));
    assert Canonical(CheckpointValue(a, 3)) == Canonical(CheckpointValue(b, 3));
    assert Canonical(CheckpointValue(a, 4)) == Canonical(CheckpointValue(b, 4));
    assert Canonical(CheckpointValue(a, 5)) == Canonical(CheckpointValue(b, 5));
    assert Canonical(CheckpointValue(a, 6)) == Canonical(CheckpointValue(b, 6));
    assert Canonical(CheckpointValue(a, 7)) == Canonical(CheckpointValue(b, 7));
    assert Canonical(CheckpointValue(a, 8)) == Canonical(CheckpointValue(b, 8));
    EntriesAreBound(a.entries, b.entries);
  }

  /** The content hash binds every field: equal hashes without a collision mean equal records. */
  lemma HashBindsCheckpoint(h: Hash, a: Checkpoint, b: Checkpoint)
    requires CheckpointHash(h, a) == CheckpointHash(h, b)
    requires var x, y := Print(CheckpointDocument(a)), Print(CheckpointDocument(b)); h(x) == h(y) ==> x == y
    ensures a.(hash := "") == b.(hash := "")
  {
    DocumentReads(a);
    DocumentReads(b);
    ParseOfPrint(CheckpointDocument(a));
    ParseOfPrint(CheckpointDocument(b));
    RowIsBound(a, b);
  }

  // ---- the file of a checkpoint ----

  const HASH_KEY := "checkpoint_manifest_hash"

  function FileKeys(): seq<string> {
    [HASH_KEY] + CheckpointKeys()
  }

  function FileRow(c: Checkpoint): seq<Json> {
    [Str(c.hash)] + CheckpointRow(c)
  }

  function FileDocument(c: Checkpoint): Json {
    Record(FileKeys(), FileRow(c))
  }

  /** `canonical_json_bytes(manifest)`: what `append_checkpoint` writes. */
  function CheckpointText(c: Checkpoint): string {
    Print(FileDocument(c))
  }

  lemma HashKeyIsNew(i: nat)
    requires i < 9
    ensures CheckpointKey(i) != HASH_KEY
  {
    assert |HASH_KEY| == 24;
  }

  lemma FileKeysDistinct()
    ensures Distinct(FileKeys())
  {
    KeysDistinct();
    forall i, j | 0 <= i < j < 10
      ensures FileKeys()[i] != FileKeys()[j]
    {
      HashKeyIsNew(j - 1);
      if i > 0 {
        assert CheckpointKeys()[i - 1] != CheckpointKeys()[j - 1];
      }
    }
  }

  lemma FileReads(c: Checkpoint)
    ensures WellFormed(FileDocument(c))
    ensures ReadRecord(FileKeys(), Canonical(FileDocument(c))) == Some(CanonicalItems(FileRow(c)))
  {
    FileKeysDistinct();
    RowWellFormed(c);
    EachWellFormed(FileRow(c));
    RecordWellFormed(FileKeys(), FileRow(c));
    ReadOfCanonicalRecord(FileKeys(), FileRow(c));
  }

  /** The text of a checkpoint file determines the checkpoint, hash and all. */
  lemma TextBindsCheckpoint(a: Checkpoint, b: Checkpoint)
    requires CheckpointText(a) == CheckpointText(b)
    ensures a == b
  {
    FileReads(a);
    FileReads(b);
    ParseOfPrint(FileDocument(a));
    ParseOfPrint(FileDocument(b));
    FileRowIsBound(a, b);
  }

  lemma FileRowIsBound(a: Checkpoint, b: Checkpoint)
    requires CanonicalItems(FileRow(a)) == CanonicalItems(FileRow(b))
    ensures a == b
  {
    assert FileRow(a)[0] == Str(a.hash) && FileRow(b)[0] == Str(b.hash);
    CanonicalItemsAt(FileRow(a), 0);
    CanonicalItemsAt(FileRow(b), 0);
    forall i | 0 <= i < 9
      ensures CanonicalItems(CheckpointRow(a))[i] == CanonicalItems(CheckpointRow(b))[i]
    {
      CanonicalItemsAt(CheckpointRow(a), i);
      CanonicalItemsAt(CheckpointRow(b), i);
      CanonicalItemsAt(FileRow(a), i + 1);
      CanonicalItemsAt(FileRow(b), i + 1);
    }
    RowIsBound(a, b);
    assert a == a.(hash := "").(hash := a.hash) && b == b.(hash := "").(hash := b.hash);
  }

  // ---- the file, key by key ----

  lemma FileColumn(c: Checkpoint, i: nat)
    requires i < 9
    ensures Has(FileDocument(c), CheckpointKey(i), CheckpointValue(c, i))
    ensures Has(FileDocument(c), HASH_KEY, Str(c.hash))
  {
    Column(FileKeys(), FileRow(c), i + 1);
    Column(FileKeys(), FileRow(c), 0);
  }

  /** What stands in a checkpoint file. */
  lemma FileFields(c: Checkpoint)
    ensures FileDocument(c).Obj? && |FileDocument(c).fields| == 10
    ensures Has(FileDocument(c), "checkpoint_manifest_hash", Str(c.hash))
    ensures Has(FileDocument(c), "schema_name", Str("checkpoint_manifest"))
    ensures Has(FileDocument(c), "schema_version", Int(1))
    ensures Has(FileDocument(c), "run_id", Str(c.runId))
    ensures Has(FileDocument(c), "lease_record_hash", Str(c.leaseHash))
    ensures Has(FileDocument(c), "lease_epoch", Int(c.epoch))
    ensures Has(FileDocument(c), "sequence", Int(c.sequence))
    ensures Has(FileDocument(c), "predecessor_checkpoint_hash",
                if c.predecessor.Some? then Str(c.predecessor.value) else Null)
    ensures Has(FileDocument(c), "source_entries", Arr(EntryDocuments(c.entries)))
    ensures Has(FileDocument(c), "created_at", Str(c.createdAt))
  {
    FileColumn(c, 0);
    FileColumn(c, 1);
    FileColumn(c, 2);
    FileColumn(c, 3);
    FileColumn(c, 4);
    FileColumn(c, 5);
    FileColumn(c, 6);
    FileColumn(c, 7);
    FileColumn(c, 8);
  }

  lemma EntryFields(e: SourceEntry)
    ensures EntryDocument(e).Obj? && |EntryDocument(e).fields| == 6
    ensures Has(EntryDocument(e), "schema_name", Str("capsule_manifest_entry"))
    ensures Has(EntryDocument(e), "schema_version", Int(1))
    ensures Has(EntryDocument(e), "record_kind", Str(e.recordKind))
    ensures Has(EntryDocument(e), "record_id", Str(e.recordId))
    ensures Has(EntryDocument(e), "relative_path", Str(e.relativePath))
    ensures Has(EntryDocument(e), "sha256", Str(e.sha256))
  {
    Column(EntryKeys(), EntryRow(e), 0);
    Column(EntryKeys(), EntryRow(e), 1);
    Column(EntryKeys(), EntryRow(e), 2);
    Column(EntryKeys(), EntryRow(e), 3);
    Column(EntryKeys(), EntryRow(e), 4);
    Column(EntryKeys(), EntryRow(e), 5);
  }

  /** The hash covers the file without its own field. */
  lemma HashCovers(c: Checkpoint, field: Field)
    ensures field in CheckpointDocument(c).fields <==> field in FileDocument(c).fields && field.0 != HASH_KEY
  {
    var covered, all := CheckpointDocument(c).fields, FileDocument(c).fields;
    assert all[0] == (HASH_KEY, Str(c.hash));
    forall i | 0 <= i < 9
      ensures all[i + 1] == covered[i] && covered[i].0 != HASH_KEY
    {
      HashKeyIsNew(i);
      assert FileKeys()[i + 1] == CheckpointKeys()[i] && FileRow(c)[i + 1] == CheckpointRow(c)[i];
    }
    if field in all && field.0 != HASH_KEY {
      var k :| 0 <= k < 10 && all[k] == field;
      assert covered[k - 1] == field;
    }
    if field in covered {
      var k :| 0 <= k < 9 && covered[k] == field;
      assert all[k + 1] == field;
    }
  }
}
