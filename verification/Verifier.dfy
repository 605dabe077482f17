/** What `verify_published_directory` accepts. */
module Verifier {
  import opened Wrappers
  import opened Hashes
  import opened TextOrder
  import opened Paths
  import opened Checksums

  /** The regular files below a directory, by relative path. */
  type Tree = map<string, string>

  datatype VerifyError =
    | UnsafeMarker | MarkerAbsent | IndexAbsent | InvalidLine | BadPath | Mismatch | MarkerNotCovered | UnindexedFile

  function PathSet(entries: seq<Entry<string>>): set<string> {
    set i | 0 <= i < |entries| :: entries[i].0
  }

  ghost predicate EntryMatches(h: Hash, tree: Tree, e: Entry<string>) {
    e.0 != CHECKSUMS_NAME && e.0 in tree && h(tree[e.0]) == e.1
  }

  /** The index `entries` describes `tree` exactly. */
  ghost predicate Describes(h: Hash, tree: Tree, entries: seq<Entry<string>>) {
    && DistinctKeys(entries)
    && (forall i :: 0 <= i < |entries| ==> EntryMatches(h, tree, entries[i]))
    && PathSet(entries) == tree.Keys - {CHECKSUMS_NAME}
  }

  /** What a published directory must look like. */
  ghost predicate Accepts(h: Hash, tree: Tree, marker: string) {
    && SafeComponent(marker) && marker in tree && CHECKSUMS_NAME in tree
    && ParseIndex(tree[CHECKSUMS_NAME]).Some?
    && var entries := ParseIndex(tree[CHECKSUMS_NAME]).value;
       Describes(h, tree, entries) && marker in PathSet(entries)
  }

  lemma PathSetGrows(entries: seq<Entry<string>>, i: nat)
    requires i < |entries|
    ensures PathSet(entries[..i + 1]) == PathSet(entries[..i]) + {entries[i].0}
  {
    var longer := entries[..i + 1];
    forall path | path in PathSet(longer)
      ensures path in PathSet(entries[..i]) + {entries[i].0}
    {
      var k :| 0 <= k < |longer| && longer[k].0 == path;
      assert k < i ==> entries[..i][k].0 == path;
    }
    forall path | path in PathSet(entries[..i])
      ensures path in PathSet(longer)
    {
      var k :| 0 <= k < i && entries[..i][k].0 == path;
      assert longer[k].0 == path;
    }
    assert longer[i] == entries[i];
  }

  lemma {:induction false} ParseLinesPrefix(lines: seq<string>, i: nat)
    requires i < |lines| && ParseLine(lines[i]).None?
    ensures ParseLines(lines).None?
  {
    if i > 0 {
      ParseLinesPrefix(lines[1..], i - 1);
    }
  }

  lemma {:induction false} ParseLinesAll(lines: seq<string>, entries: seq<Entry<string>>)
    requires |lines| == |entries| && forall i :: 0 <= i < |lines| ==> ParseLine(lines[i]) == Some(entries[i])
    ensures ParseLines(lines) == Some(entries)
  {
    if lines != [] {
      ParseLinesAll(lines[1..], entries[1..]);
      assert entries == [entries[0]] + entries[1..];
    }
  }

  /** The loop over the index lines: the indexed paths, or the first error. */
  method ReadIndex(h: Hash, tree: Tree, lines: seq<string>) returns (r: Result<set<string>, VerifyError>)
    ensures r.Ok? <==> && ParseLines(lines).Some?
                       && DistinctKeys(ParseLines(lines).value)
                       && forall i :: 0 <= i < |lines| ==> EntryMatches(h, tree, ParseLines(lines).value[i])
    ensures r.Ok? ==> r.value == PathSet(ParseLines(lines).value)
    ensures r.Err? ==> r.error == InvalidLine || r.error == BadPath || r.error == Mismatch
  {
    var indexed: set<string> := {};
    ghost var entries: seq<Entry<string>> := [];
    for i := 0 to |lines|
      invariant |entries| == i && forall k :: 0 <= k < i ==> ParseLine(lines[k]) == Some(entries[k])
      invariant indexed == PathSet(entries) && DistinctKeys(entries)
      invariant forall k :: 0 <= k < i ==> EntryMatches(h, tree, entries[k])
    {
      var parsed := ParseLine(lines[i]);
      if parsed.None? {
        ParseLinesPrefix(lines, i);
        return Err(InvalidLine);
      }
      var path, digest := parsed.value.0, parsed.value.1;
      ghost var longer := entries + [parsed.value];
      if path == CHECKSUMS_NAME || path in indexed {
        BadEntry(h, tree, lines, entries, i);
        return Err(BadPath);
      }
      if path !in tree || h(tree[path]) != digest {
        return Err(Mismatch);
      }
      PathSetGrows(longer, i);
      assert longer[..i + 1] == longer && longer[..i] == entries;
      indexed := indexed + {path};
      entries := longer;
    }
    ParseLinesAll(lines, entries);
    return Ok(indexed);
  }

  lemma BadEntry(h: Hash, tree: Tree, lines: seq<string>, entries: seq<Entry<string>>, i: nat)
    requires |entries| == i < |lines| && forall k :: 0 <= k < i ==> ParseLine(lines[k]) == Some(entries[k])
    requires ParseLine(lines[i]).Some?
    requires ParseLine(lines[i]).value.0 == CHECKSUMS_NAME || ParseLine(lines[i]).value.0 in PathSet(entries)
    ensures !(&& ParseLines(lines).Some?
              && DistinctKeys(ParseLines(lines).value)
              && forall k :: 0 <= k < |lines| ==> EntryMatches(h, tree, ParseLines(lines).value[k]))
  {
    if ParseLines(lines).Some? {
      var all := ParseLines(lines).value;
      if all[i].0 != CHECKSUMS_NAME {
        var k :| 0 <= k < |entries| && entries[k].0 == all[i].0;
        assert all[k] == entries[k];
      }
    }
  }

  /** The loop over the files of the directory. */
  method CommittedFiles(tree: Tree) returns (committed: set<string>)
    ensures committed == tree.Keys - {CHECKSUMS_NAME}
  {
    committed := {};
    var rest := tree.Keys;
    while rest != {}
      invariant rest <= tree.Keys
      invariant committed == tree.Keys - rest - {CHECKSUMS_NAME}
      decreases |rest|
    {
      var path :| path in rest;
      rest := rest - {path};
      if path != CHECKSUMS_NAME {
        committed := committed + {path};
      }
    }
  }

  /** `verify_published_directory` accepts exactly the directories their index describes. */
  method VerifyPublishedDirectory(h: Hash, tree: Tree, marker: string) returns (r: Result<(), VerifyError>)
    ensures r.Ok? <==> Accepts(h, tree, marker)
    ensures r == Err(UnsafeMarker) <==> !SafeComponent(marker)
    ensures r == Err(MarkerAbsent) <==> SafeComponent(marker) && marker !in tree
    ensures r == Err(IndexAbsent) <==> SafeComponent(marker) && marker in tree && CHECKSUMS_NAME !in tree
  {
    if !SafeComponent(marker) { return Err(UnsafeMarker); }
    if marker !in tree { return Err(MarkerAbsent); }
    if CHECKSUMS_NAME !in tree { return Err(IndexAbsent); }
    var read := ReadIndex(h, tree, SplitLines(tree[CHECKSUMS_NAME]));
    if read.Err? { return Err(read.error); }
    var indexed := read.value;
    if marker !in indexed { return Err(MarkerNotCovered); }
    var committed := CommittedFiles(tree);
    if committed != indexed { return Err(UnindexedFile); }
    return Ok(());
  }

  // ---- what acceptance means ----

  /** The directory a publication leaves: its payloads, its marker and the index. */
  ghost predicate Published(h: Hash, tree: Tree, payloads: seq<Entry<string>>, marker: string, markerBytes: string) {
    && tree.Keys == PathSet(payloads) + {marker, CHECKSUMS_NAME}
    && (forall i :: 0 <= i < |payloads| ==> tree[payloads[i].0] == payloads[i].1)
    && tree[marker] == markerBytes
    && tree[CHECKSUMS_NAME] == IndexOf(h, payloads, marker, markerBytes)
  }

  ghost predicate NamesAreOneLine(payloads: seq<Entry<string>>, marker: string) {
    OneLine(marker) && forall i :: 0 <= i < |payloads| ==> OneLine(payloads[i].0)
  }

  lemma UnsortedEntries(h: Hash, payloads: seq<Entry<string>>, marker: string, markerBytes: string)
    returns (unsorted: seq<Entry<string>>)
    requires Nameable(payloads, marker)
    ensures SortByKey(unsorted) == IndexEntries(h, payloads, marker, markerBytes)
    ensures DistinctKeys(unsorted)
    ensures forall e: Entry<string> :: e in unsorted <==>
              e == (marker, h(markerBytes)) || exists i :: 0 <= i < |payloads| && e == (payloads[i].0, h(payloads[i].1))
  {
    var sorted := SortByKey(payloads);
    unsorted := Digests(h, sorted) + [(marker, h(markerBytes))];
    SortKeepsMembers(payloads);
    SortAscends(payloads);
    AscendingHasDistinctKeys(sorted);
    forall i | 0 <= i < |sorted|
      ensures sorted[i].0 != marker
    {
      var f: Entry<string> := sorted[i];
      assert f in sorted;
      assert f in payloads;
    }
    forall e: Entry<string>
      ensures e in unsorted <==>
                || e == (marker, h(markerBytes))
                || exists i :: 0 <= i < |payloads| && e == (payloads[i].0, h(payloads[i].1))
    {
      DigestMembers(h, payloads, sorted, e);
      assert unsorted[|sorted|] == (marker, h(markerBytes));
    }
  }

  lemma DigestMembers(h: Hash, payloads: seq<Entry<string>>, sorted: seq<Entry<string>>, e: Entry<string>)
    requires forall f: Entry<string> :: f in sorted <==> f in payloads
    ensures e in Digests(h, sorted) <==> exists i :: 0 <= i < |payloads| && e == (payloads[i].0, h(payloads[i].1))
  {
    var digests := Digests(h, sorted);
    if e in digests {
      var k :| 0 <= k < |digests| && digests[k] == e;
      var f: Entry<string> := sorted[k];
      assert f in sorted;
      assert f in payloads;
      var i :| 0 <= i < |payloads| && payloads[i] == f;
      assert e == (payloads[i].0, h(payloads[i].1));
    }
    if i :| 0 <= i < |payloads| && e == (payloads[i].0, h(payloads[i].1)) {
      var f: Entry<string> := payloads[i];
      assert f in payloads;
      assert f in sorted;
      var k :| 0 <= k < |sorted| && sorted[k] == f;
      assert digests[k] == e;
    }
  }

  lemma IndexFacts(h: Hash, payloads: seq<Entry<string>>, marker: string, markerBytes: string)
    requires Nameable(payloads, marker) && DigestShape(h)
    ensures var entries := IndexEntries(h, payloads, marker, markerBytes);
            && DistinctKeys(entries)
            && PathSet(entries) == PathSet(payloads) + {marker}
            && (forall i :: 0 <= i < |entries| ==> IndexEntry(entries[i]))
            && (forall i :: 0 <= i < |entries| ==>
                  entries[i] == (marker, h(markerBytes))
                  || exists k :: 0 <= k < |payloads| && entries[i] == (payloads[k].0, h(payloads[k].1)))
  {
    var entries := IndexEntries(h, payloads, marker, markerBytes);
    var unsorted := UnsortedEntries(h, payloads, marker, markerBytes);
    SortKeepsMembers(unsorted);
    SortAscends(unsorted);
    AscendingHasDistinctKeys(entries);
    forall i | 0 <= i < |entries|
      ensures IndexEntry(entries[i])
      ensures entries[i] == (marker, h(markerBytes))
              || exists k :: 0 <= k < |payloads| && entries[i] == (payloads[k].0, h(payloads[k].1))
    {
      var e: Entry<string> := entries[i];
      assert e in entries;
      assert e in unsorted;
    }
    forall path | path in PathSet(payloads) + {marker}
      ensures path in PathSet(entries)
    {
      if path == marker {
        IndexedPath(entries, unsorted, (marker, h(markerBytes)));
      } else {
        var i :| 0 <= i < |payloads| && payloads[i].0 == path;
        IndexedPath(entries, unsorted, (path, h(payloads[i].1)));
      }
    }
    forall path | path in PathSet(entries)
      ensures path in PathSet(payloads) + {marker}
    {
      var i :| 0 <= i < |entries| && entries[i].0 == path;
    }
  }

  lemma IndexedPath(entries: seq<Entry<string>>, unsorted: seq<Entry<string>>, e: Entry<string>)
    requires entries == SortByKey(unsorted) && e in unsorted
    ensures e.0 in PathSet(entries)
  {
    SortKeepsMembers(unsorted);
    assert e in entries;
    var k :| 0 <= k < |entries| && entries[k] == e;
  }

  /** The directory an uninterrupted publication leaves is accepted exactly when no file name
      contains a character at which `str.splitlines` breaks. */
  lemma PublishedAcceptedIff(h: Hash, tree: Tree, payloads: seq<Entry<string>>, marker: string, markerBytes: string)
    requires DigestShape(h) && Nameable(payloads, marker) && Published(h, tree, payloads, marker, markerBytes)
    ensures Accepts(h, tree, marker) <==> NamesAreOneLine(payloads, marker)
  {
    var entries := IndexEntries(h, payloads, marker, markerBytes);
    IndexFacts(h, payloads, marker, markerBytes);
    ParseOfIndex(entries);
    if NamesAreOneLine(payloads, marker) {
      forall i | 0 <= i < |entries|
        ensures OneLine(entries[i].0) && EntryMatches(h, tree, entries[i])
      {
        EntryOfPublished(h, tree, payloads, marker, markerBytes, entries[i]);
      }
    }
    if Accepts(h, tree, marker) {
      AcceptedNamesAreOneLine(h, tree, marker);
      assert marker in tree.Keys;
      forall i | 0 <= i < |payloads|
        ensures OneLine(payloads[i].0)
      {
        assert payloads[i].0 in PathSet(payloads);
        assert payloads[i].0 in tree.Keys;
      }
    }
  }

  /** Such a publication: one payload, at a path the publisher accepts, is published and rejected. */
  lemma LineBreakIsRejected(h: Hash) returns (payloads: seq<Entry<string>>, tree: Tree)
    requires DigestShape(h)
    ensures payloads == [("a\nb", "")]
    ensures Nameable(payloads, "done") && Published(h, tree, payloads, "done", "") && !Accepts(h, tree, "done")
  {
    payloads := [("a\nb", "")];
    BrokenNameIsNameable();
    tree := map["a\nb" := "", "done" := "", CHECKSUMS_NAME := IndexOf(h, payloads, "done", "")];
    assert PathSet(payloads) == {"a\nb"};
    PublishedAcceptedIff(h, tree, payloads, "done", "");
    assert IsBreak("a\nb"[1]);
    assert !OneLine(payloads[0].0);
  }

  lemma BrokenNameIsNameable()
    ensures Nameable([("a\nb", "")], "done") && "a\nb" != CHECKSUMS_NAME
  {
    OneComponent("a\nb");
    OneComponent("done");
  }

  lemma {:induction false} OneComponent(path: string)
    requires '/' !in path
    ensures Components(path) == [path]
  {
    if path != "" {
      OneComponent(path[1..]);
      assert path == [path[0]] + path[1..];
    }
  }

  lemma EntryOfPublished(h: Hash, tree: Tree, payloads: seq<Entry<string>>, marker: string, markerBytes: string,
                         e: Entry<string>)
    requires Nameable(payloads, marker) && Published(h, tree, payloads, marker, markerBytes)
    requires NamesAreOneLine(payloads, marker)
    requires e == (marker, h(markerBytes)) || exists k :: 0 <= k < |payloads| && e == (payloads[k].0, h(payloads[k].1))
    ensures OneLine(e.0) && EntryMatches(h, tree, e)
  {
    if e != (marker, h(markerBytes)) {
      var k :| 0 <= k < |payloads| && e == (payloads[k].0, h(payloads[k].1));
      assert payloads[k].0 in PathSet(payloads);
    }
  }

  lemma AcceptedNamesAreOneLine(h: Hash, tree: Tree, marker: string)
    requires Accepts(h, tree, marker)
    ensures forall path :: path in tree.Keys && path != CHECKSUMS_NAME ==> OneLine(path)
  {
    var entries := ParseIndex(tree[CHECKSUMS_NAME]).value;
    ParsedPathsAreOneLine(tree[CHECKSUMS_NAME]);
    forall path | path in tree.Keys && path != CHECKSUMS_NAME
      ensures OneLine(path)
    {
      assert path in PathSet(entries);
      var i :| 0 <= i < |entries| && entries[i].0 == path;
    }
  }

  /** No two files of the two trees collide under the digest. */
  ghost predicate NoTreeCollision(h: Hash, a: Tree, b: Tree) {
    forall path :: path in a && path in b && h(a[path]) == h(b[path]) ==> a[path] == b[path]
  }

  lemma DescribedTreesAgree(h: Hash, a: Tree, b: Tree, entries: seq<Entry<string>>, path: string)
    requires Describes(h, a, entries) && Describes(h, b, entries) && NoTreeCollision(h, a, b)
    requires path in a && path != CHECKSUMS_NAME
    ensures path in b && a[path] == b[path]
  {
    assert path in PathSet(entries);
    var i :| 0 <= i < |entries| && entries[i].0 == path;
    assert EntryMatches(h, a, entries[i]) && EntryMatches(h, b, entries[i]);
  }

  /** The index pins the whole directory: with the same index text, two accepted directories
      hold the same files with the same bytes. */
  lemma IndexPinsDirectory(h: Hash, a: Tree, b: Tree, marker: string, marker': string)
    requires Accepts(h, a, marker) && Accepts(h, b, marker') && NoTreeCollision(h, a, b)
    requires a[CHECKSUMS_NAME] == b[CHECKSUMS_NAME]
    ensures a == b
  {
    var entries := ParseIndex(a[CHECKSUMS_NAME]).value;
    assert Describes(h, a, entries) && Describes(h, b, entries);
    forall path
      ensures path in a <==> path in b
      ensures path in a ==> a[path] == b[path]
    {
      if path != CHECKSUMS_NAME {
        if path in a { DescribedTreesAgree(h, a, b, entries, path); }
        if path in b { DescribedTreesAgree(h, b, a, entries, path); }
      }
    }
  }
}
