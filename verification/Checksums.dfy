/** The checksum index, printed and parsed. */
module Checksums {
  import opened Wrappers
  import opened Hashes
  import opened TextOrder
  import opened Paths

  const CHECKSUMS_NAME := "CHECKSUMS.sha256"

  // ---- printing ----

  function Line(e: Entry<string>): string {
    e.1 + "  " + e.0
  }

  /** `(path, digest)` entries, one line each. */
  function IndexText(entries: seq<Entry<string>>): string {
    if entries == [] then "" else Line(entries[0]) + "\n" + IndexText(entries[1..])
  }

  function Digests(h: Hash, files: seq<Entry<string>>): (r: seq<Entry<string>>)
    ensures |r| == |files| && forall i :: 0 <= i < |r| ==> r[i] == (files[i].0, h(files[i].1))
  {
    seq(|files|, i requires 0 <= i < |files| => (files[i].0, h(files[i].1)))
  }

  /** The entries of a publication's index, sorted by path. */
  function IndexEntries(h: Hash, payloads: seq<Entry<string>>, marker: string,
                        markerBytes: string): seq<Entry<string>> {
    SortByKey(Digests(h, SortByKey(payloads)) + [(marker, h(markerBytes))])
  }

  function IndexOf(h: Hash, payloads: seq<Entry<string>>, marker: string, markerBytes: string): string {
    IndexText(IndexEntries(h, payloads, marker, markerBytes))
  }

  /** What `publish_with_last_marker` requires of its names before it writes. */
  ghost predicate Nameable(payloads: seq<Entry<string>>, marker: string) {
    && SafeComponent(marker) && marker != CHECKSUMS_NAME
    && DistinctKeys(payloads)
    && forall i :: 0 <= i < |payloads| ==>
         SafePath(payloads[i].0) && payloads[i].0 != marker && payloads[i].0 != CHECKSUMS_NAME
  }

  /** Everything a publication writes, in order: payloads by path, the index, the marker. */
  function FilesOf(h: Hash, payloads: seq<Entry<string>>, marker: string, markerBytes: string): seq<Entry<string>> {
    SortByKey(payloads) + [(CHECKSUMS_NAME, IndexOf(h, payloads, marker, markerBytes))] + [(marker, markerBytes)]
  }

  lemma FilesDistinct(h: Hash, payloads: seq<Entry<string>>, marker: string, markerBytes: string)
    requires Nameable(payloads, marker)
    ensures DistinctKeys(FilesOf(h, payloads, marker, markerBytes))
  {
    var sorted := SortByKey(payloads);
    SortAscends(payloads);
    SortKeepsMembers(payloads);
    AscendingHasDistinctKeys(sorted);
    forall i | 0 <= i < |sorted|
      ensures sorted[i].0 != marker && sorted[i].0 != CHECKSUMS_NAME
    {
      var f: Entry<string> := sorted[i];
      assert f in sorted;
      assert f in payloads;
    }
  }

  /** The index lists every file but itself once, with its digest, in ascending order of paths. */
  lemma IndexLists(h: Hash, payloads: seq<Entry<string>>, marker: string, markerBytes: string)
    requires Nameable(payloads, marker)
    ensures var entries := IndexEntries(h, payloads, marker, markerBytes);
            && Ascending(entries) && |entries| == |payloads| + 1 && (marker, h(markerBytes)) in entries
            && (forall i :: 0 <= i < |payloads| ==> (payloads[i].0, h(payloads[i].1)) in entries)
            && forall k :: 0 <= k < |entries| ==> entries[k].0 == marker || HasPath(payloads, entries[k].0)
  {
    var unsorted := Digests(h, SortByKey(payloads)) + [(marker, h(markerBytes))];
    UnsortedLists(h, payloads, marker, markerBytes);
    SortKeepsMembers(unsorted);
    SortAscends(unsorted);
    forall k | 0 <= k < |SortByKey(unsorted)|
      ensures SortByKey(unsorted)[k].0 == marker || HasPath(payloads, SortByKey(unsorted)[k].0)
    {
      var e: Entry<string> := SortByKey(unsorted)[k];
      assert e in SortByKey(unsorted);
      assert e in unsorted;
    }
  }

  lemma UnsortedLists(h: Hash, payloads: seq<Entry<string>>, marker: string, markerBytes: string)
    requires Nameable(payloads, marker)
    ensures var unsorted := Digests(h, SortByKey(payloads)) + [(marker, h(markerBytes))];
            && DistinctKeys(unsorted) && |unsorted| == |payloads| + 1 && (marker, h(markerBytes)) in unsorted
            && (forall i :: 0 <= i < |payloads| ==> (payloads[i].0, h(payloads[i].1)) in unsorted)
            && forall e: Entry<string> :: e in unsorted ==> e.0 == marker || HasPath(payloads, e.0)
  {
    var sorted := SortByKey(payloads);
    var unsorted := Digests(h, sorted) + [(marker, h(markerBytes))];
    SortKeepsMembers(payloads);
    SortedPaths(payloads, marker);
    assert unsorted[|sorted|] == (marker, h(markerBytes));
    forall i | 0 <= i < |payloads|
      ensures (payloads[i].0, h(payloads[i].1)) in unsorted
    {
      var f: Entry<string> := payloads[i];
      assert f in payloads;
      assert f in sorted;
      var k :| 0 <= k < |sorted| && sorted[k] == f;
      assert unsorted[k] == (f.0, h(f.1));
    }
  }

  lemma SortedPaths(payloads: seq<Entry<string>>, marker: string)
    requires Nameable(payloads, marker)
    ensures DistinctKeys(SortByKey(payloads))
    ensures forall i :: 0 <= i < |SortByKey(payloads)| ==>
              HasPath(payloads, SortByKey(payloads)[i].0) && SortByKey(payloads)[i].0 != marker
  {
    var sorted := SortByKey(payloads);
    SortKeepsMembers(payloads);
    SortAscends(payloads);
    AscendingHasDistinctKeys(sorted);
    forall i | 0 <= i < |sorted|
      ensures HasPath(payloads, sorted[i].0) && sorted[i].0 != marker
    {
      var f: Entry<string> := sorted[i];
      assert f in sorted;
      assert f in payloads;
    }
  }

  predicate HasPath(files: seq<Entry<string>>, path: string) {
    exists i :: 0 <= i < |files| && files[i].0 == path
  }

  // ---- reading ----

  /** The characters at which Python's `str.splitlines` breaks. */
  predicate IsBreak(c: char) {
    var n := c as int;
    || 10 <= n <= 13 || 28 <= n <= 30 || n == 0x85 || n == 0x2028 || n == 0x2029
  }

  predicate OneLine(s: string) {
    forall i :: 0 <= i < |s| ==> !IsBreak(s[i])
  }

  function FirstBreak(s: string): (n: nat)
    ensures n <= |s| && OneLine(s[..n]) && (n < |s| ==> IsBreak(s[n]))
  {
    if s == "" || IsBreak(s[0]) then 0
    else
      var n := FirstBreak(s[1..]);
      assert s[..n + 1] == [s[0]] + s[1..][..n];
      n + 1
  }

  function SplitLines(s: string): seq<string>
    decreases |s|
  {
    if s == "" then []
    else
      var n := FirstBreak(s);
      if n == |s| then [s]
      else
        var width := if s[n] == '\r' && n + 1 < |s| && s[n + 1] == '\n' then 2 else 1;
        [s[..n]] + SplitLines(s[n + width..])
  }

  /** `CHECKSUM_LINE.fullmatch` and the path check: `(path, digest)`. */
  function ParseLine(line: string): Option<Entry<string>> {
    if |line| < 67 || !IsSha256(line[..64]) || line[64..66] != "  " then None
    else if exists i :: 66 <= i < |line| && (line[i] == '\r' || line[i] == '\n') then None
    else if !SafePath(line[66..]) then None
    else Some((line[66..], line[..64]))
  }

  function ParseLines(lines: seq<string>): (r: Option<seq<Entry<string>>>)
    ensures r.Some? ==> |r.value| == |lines| && forall i :: 0 <= i < |lines| ==> ParseLine(lines[i]) == Some(r.value[i])
  {
    if lines == [] then Some([])
    else
      match (ParseLine(lines[0]), ParseLines(lines[1..]))
      case (Some(first), Some(more)) => Some([first] + more)
      case _ => None
  }

  function ParseIndex(text: string): Option<seq<Entry<string>>> {
    ParseLines(SplitLines(text))
  }

  // ---- printer and parser ----

  function Lines(entries: seq<Entry<string>>): seq<string> {
    if entries == [] then [] else [Line(entries[0])] + Lines(entries[1..])
  }

  lemma {:induction false} FirstBreakOf(a: string, b: string)
    requires OneLine(a) && (b == "" || IsBreak(b[0]))
    ensures FirstBreak(a + b) == |a|
  {
    if a == "" {
      assert a + b == b;
    } else {
      assert (a + b)[1..] == a[1..] + b;
      FirstBreakOf(a[1..], b);
    }
  }

  /** Splitting never leaves a break inside a line. */
  lemma {:induction false} SplitGivesLines(s: string)
    ensures forall i :: 0 <= i < |SplitLines(s)| ==> OneLine(SplitLines(s)[i])
    decreases |s|
  {
    if s != "" {
      var n := FirstBreak(s);
      if n < |s| {
        SplitGivesLines(s[n + 1..]);
        if n + 2 <= |s| {
          SplitGivesLines(s[n + 2..]);
        }
      } else {
        assert s[..n] == s;
      }
    }
  }

  lemma SplitOfLine(line: string, rest: string)
    requires OneLine(line)
    ensures SplitLines(line + ("\n" + rest)) == [line] + SplitLines(rest)
  {
    var text := line + ("\n" + rest);
    FirstBreakOf(line, "\n" + rest);
    assert text[..|line|] == line && text[|line|] == '\n' && text[|line| + 1..] == rest;
  }

  lemma {:induction false} SplitOfIndex(entries: seq<Entry<string>>)
    requires forall i :: 0 <= i < |entries| ==> OneLine(Line(entries[i]))
    ensures SplitLines(IndexText(entries)) == Lines(entries)
  {
    if entries != [] {
      var line, rest := Line(entries[0]), IndexText(entries[1..]);
      assert IndexText(entries) == line + ("\n" + rest);
      SplitOfLine(line, rest);
      SplitOfIndex(entries[1..]);
    }
  }

  ghost predicate IndexEntry(e: Entry<string>) {
    SafePath(e.0) && IsSha256(e.1)
  }

  lemma LineParses(e: Entry<string>)
    requires IndexEntry(e) && OneLine(e.0)
    ensures OneLine(Line(e)) && ParseLine(Line(e)) == Some(e)
  {
    var line := Line(e);
    assert line[..64] == e.1 && line[64..66] == "  " && line[66..] == e.0;
    forall i | 0 <= i < |line|
      ensures !IsBreak(line[i])
    {
      if i < 64 {
        assert line[i] == e.1[i];
      } else if i >= 66 {
        assert line[i] == e.0[i - 66];
      }
    }
  }

  lemma {:induction false} LinesParse(entries: seq<Entry<string>>)
    requires forall i :: 0 <= i < |entries| ==> IndexEntry(entries[i]) && OneLine(entries[i].0)
    ensures ParseLines(Lines(entries)) == Some(entries)
  {
    if entries != [] {
      LineParses(entries[0]);
      LinesParse(entries[1..]);
      assert entries == [entries[0]] + entries[1..];
    }
  }

  lemma ParsedPathsAreOneLine(text: string)
    requires ParseIndex(text).Some?
    ensures forall i :: 0 <= i < |ParseIndex(text).value| ==> OneLine(ParseIndex(text).value[i].0)
  {
    var lines, entries := SplitLines(text), ParseIndex(text).value;
    SplitGivesLines(text);
    forall i | 0 <= i < |entries|
      ensures OneLine(entries[i].0)
    {
      assert OneLine(lines[i]) && entries[i].0 == lines[i][66..];
    }
  }

  /** The line parser undoes the printer exactly when no path contains a line break. */
  lemma ParseOfIndex(entries: seq<Entry<string>>)
    requires forall i :: 0 <= i < |entries| ==> IndexEntry(entries[i])
    ensures ParseIndex(IndexText(entries)) == Some(entries) <==>
              forall i :: 0 <= i < |entries| ==> OneLine(entries[i].0)
  {
    if forall i :: 0 <= i < |entries| ==> OneLine(entries[i].0) {
      forall i | 0 <= i < |entries|
        ensures OneLine(Line(entries[i]))
      {
        LineParses(entries[i]);
      }
      SplitOfIndex(entries);
      LinesParse(entries);
    }
    if ParseIndex(IndexText(entries)) == Some(entries) {
      ParsedPathsAreOneLine(IndexText(entries));
    }
  }
}
