/** Marker-last publication on the step machine. */
module Publication {
  import opened Wrappers
  import opened TextOrder
  import opened FileSystems
  import opened Paths
  import opened Protocol
  import opened ProtocolTheorems
  import opened Checksums

  /** One call of `publish_with_last_marker`. */
  datatype Request = Request(root: string, payloads: seq<Entry<string>>, marker: string, markerBytes: Bytes)

  function CreateAll(root: string, files: seq<Entry<string>>): (jobs: seq<Job>)
    ensures |jobs| == |files|
    ensures forall i :: 0 <= i < |jobs| ==> jobs[i] == Create(Place(root, files[i].0), files[i].1, ByDigestAndSize)
  {
    seq(|files|, i requires 0 <= i < |files| => Create(Place(root, files[i].0), files[i].1, ByDigestAndSize))
  }

  function Files(h: string -> string, r: Request): seq<Entry<string>> {
    FilesOf(h, r.payloads, r.marker, r.markerBytes)
  }

  function PublicationJobs(h: string -> string, r: Request): seq<Job> {
    CreateAll(r.root, Files(h, r))
  }

  /** Job lists that write the marker `n` only as the last act of a publication. */
  ghost predicate MarkerWritten(h: string -> string, s: System, n: Name) {
    forall p, k :: p in s.processes && 0 <= k < |s.processes[p].jobs| && s.processes[p].jobs[k].target == n ==>
      exists r: Request :: n == Place(r.root, r.marker) && s.processes[p].jobs == PublicationJobs(h, r)
                        && k == |s.processes[p].jobs| - 1
  }

  /** All the files of request `r` are in place, and all but the marker are durable. */
  ghost predicate Complete(h: string -> string, s: System, r: Request) {
    && s.fs.Holds(Place(r.root, r.marker), r.markerBytes)
    && s.fs.Durable(Place(r.root, CHECKSUMS_NAME), IndexOf(h, r.payloads, r.marker, r.markerBytes))
    && forall i :: 0 <= i < |r.payloads| ==> s.fs.Durable(Place(r.root, r.payloads[i].0), r.payloads[i].1)
  }

  /** At every moment of every run, a visible marker means a complete, durable publication. */
  lemma MarkerMeansComplete(h: string -> string, run: seq<System>, t: nat, n: Name)
    requires CleanRun(h, run) && t < |run|
    requires n.Final? && MarkerWritten(h, run[t], n)
    requires run[t].fs.At(n).now.Some?
    ensures exists r: Request :: n == Place(r.root, r.marker) && Complete(h, run[t], r)
  {
    var s := run[t];
    VisibleIsComplete(h, run, t, n);
    var p, k :| PublishedBy(s, n, p, k);
    var r: Request :| n == Place(r.root, r.marker) && s.processes[p].jobs == PublicationJobs(h, r)
                   && k == |s.processes[p].jobs| - 1;
    PublishedCompletes(h, s, p, k, r);
  }

  lemma PublishedCompletes(h: string -> string, s: System, p: nat, k: nat, r: Request)
    requires PublishedBy(s, Place(r.root, r.marker), p, k)
    requires s.processes[p].jobs == PublicationJobs(h, r) && k == |s.processes[p].jobs| - 1
    ensures Complete(h, s, r)
  {
    var jobs, files := PublicationJobs(h, r), Files(h, r);
    var sorted := SortByKey(r.payloads);
    SortKeepsMembers(r.payloads);
    assert jobs[k].content == r.markerBytes;
    assert jobs[k - 1] == Create(Place(r.root, CHECKSUMS_NAME), IndexOf(h, r.payloads, r.marker, r.markerBytes),
                                 ByDigestAndSize);
    forall i | 0 <= i < |r.payloads|
      ensures s.fs.Durable(Place(r.root, r.payloads[i].0), r.payloads[i].1)
    {
      var f: Entry<string> := r.payloads[i];
      assert f in r.payloads;
      var j :| 0 <= j < |sorted| && sorted[j] == f;
      assert files[j] == f && jobs[j].target == Place(r.root, f.0);
    }
  }

  /** Once the marker is durable the whole publication is, for the rest of the run. */
  lemma DurableMarkerSeals(h: string -> string, run: seq<System>, t: nat, u: nat, r: Request)
    requires CleanRun(h, run) && t <= u < |run| && Complete(h, run[t], r)
    requires run[t].fs.Durable(Place(r.root, r.marker), r.markerBytes)
    ensures Complete(h, run[u], r) && run[u].fs.Durable(Place(r.root, r.marker), r.markerBytes)
  {
    DurableForever(h, run, t, u, Place(r.root, r.marker), r.markerBytes);
    DurableForever(h, run, t, u, Place(r.root, CHECKSUMS_NAME), IndexOf(h, r.payloads, r.marker, r.markerBytes));
    forall i | 0 <= i < |r.payloads|
      ensures run[u].fs.Durable(Place(r.root, r.payloads[i].0), r.payloads[i].1)
    {
      DurableForever(h, run, t, u, Place(r.root, r.payloads[i].0), r.payloads[i].1);
    }
  }

  /** Whoever has a job for one of this request's files writes this request's bytes there. */
  ghost predicate Uncontested(h: string -> string, s: System, r: Request) {
    forall p, k, i ::
      && p in s.processes && 0 <= k < |s.processes[p].jobs| && 0 <= i < |Files(h, r)|
      && s.processes[p].jobs[k].target == Place(r.root, Files(h, r)[i].0)
      ==> s.processes[p].jobs[k].content == Files(h, r)[i].1
  }

  lemma UncontestedIsUndisputed(h: string -> string, s: System, p: nat, r: Request)
    requires p in s.processes && s.processes[p].jobs == PublicationJobs(h, r) && Uncontested(h, s, r)
    ensures Undisputed(s, p)
  {
    var jobs := PublicationJobs(h, r);
    forall j, q, k |
      && 0 <= j < |jobs| && q in s.processes && 0 <= k < |s.processes[q].jobs|
      && jobs[j].target == s.processes[q].jobs[k].target
      ensures jobs[j].content == s.processes[q].jobs[k].content
    {
      assert jobs[j].target == Place(r.root, Files(h, r)[j].0);
    }
  }

  /** Publishing the same request again, from any crash state and beside any other writers that
      leave its files alone or write the same bytes there, never collides, and a publisher that
      returns leaves exactly the request's bytes durable. */
  lemma Republication(h: string -> string, run: seq<System>, t: nat, p: nat, r: Request)
    requires CleanRun(h, run) && t < |run|
    requires forall u :: 0 <= u <= t ==> Uncontested(h, run[u], r)
    requires p in run[t].processes && run[t].processes[p].jobs == PublicationJobs(h, r)
    ensures !Rejected(run[t].processes[p])
    ensures run[t].processes[p].done == |PublicationJobs(h, r)| ==>
              Complete(h, run[t], r) && run[t].fs.Durable(Place(r.root, r.marker), r.markerBytes)
  {
    forall u | 0 <= u <= t && p in run[u].processes
      ensures Undisputed(run[u], p)
    {
      JobsStay(h, run, u, t, p);
      UncontestedIsUndisputed(h, run[u], p, r);
    }
    UndisputedNeverCollide(h, run, t, p);
    if run[t].processes[p].done == |PublicationJobs(h, r)| {
      ReturnedIsComplete(h, run, t, p, r);
    }
  }

  lemma ReturnedIsComplete(h: string -> string, run: seq<System>, t: nat, p: nat, r: Request)
    requires CleanRun(h, run) && t < |run|
    requires p in run[t].processes && run[t].processes[p].jobs == PublicationJobs(h, r)
    requires run[t].processes[p].done == |PublicationJobs(h, r)|
    ensures Complete(h, run[t], r) && run[t].fs.Durable(Place(r.root, r.marker), r.markerBytes)
  {
    var jobs := PublicationJobs(h, r);
    forall j | 0 <= j < |jobs|
      ensures run[t].fs.Durable(jobs[j].target, jobs[j].content)
    {
      ReturnedIsDurable(h, run, t, t, p, j);
    }
    assert jobs[|jobs| - 1].target == Place(r.root, r.marker) && jobs[|jobs| - 1].content == r.markerBytes;
    PublishedCompletes(h, run[t], p, |jobs| - 1, r);
  }
}
