/** A crash that tears a checkpoint chain. */
module CheckpointLoss {
  import opened Wrappers
  import opened Hashes
  import opened FileSystems
  import opened Protocol
  import opened ProtocolInvariant
  import opened ProtocolTheorems
  import opened CheckpointRecords
  import opened Checkpoints
  import opened CheckpointRuns
  import opened CheckpointTheorems

  lemma CheckedStays(h: Hash, d: Shelf, run: seq<System>, s': System, t: nat, c: Checkpoint)
    requires t < |run| && Checked(h, d, run, t, c)
    ensures Checked(h, d, run + [s'], t, c)
  {
    var longer := run + [s'];
    var u: nat, v: nat, x: nat, w: nat :|
      u <= v <= x <= w <= t && Calm(h, run, u, t) && ChecksPassed(d, run, u, v, x, w, c);
    forall y: nat | u <= y < t
      ensures QuietAt(h, longer, y)
    {
      assert QuietAt(h, run, y);
    }
    assert Calm(h, longer, u, t) && ChecksPassed(d, longer, u, v, x, w, c);
  }

  /** `run` is a run of appenders that has come to state `s`. */
  ghost predicate ComesTo(h: Hash, d: Shelf, run: seq<System>, s: System) {
    AppendRun(h, d, run) && s == run[|run| - 1]
  }

  /** Whoever begins an append in the step to `s'` has passed its checks. */
  ghost predicate ChecksFirst(h: Hash, d: Shelf, run: seq<System>, s: System, s': System)
    requires run != []
  {
    forall p, c :: Genuine(d.hash, c) && Begins(s, s', p, AppendJob(d, c)) ==> Checked(h, d, run, |run| - 1, c)
  }

  lemma AppendRunExtends(h: Hash, d: Shelf, run: seq<System>, s: System, s': System)
    requires ComesTo(h, d, run, s) && Step(h, s, s') && NoCollision(h, s') && OnlyAppends(d, s')
    requires ChecksFirst(h, d, run, s, s')
    ensures ComesTo(h, d, run + [s'], s')
  {
    var longer := run + [s'];
    Extended(h, run, s');
    forall t: nat | t + 1 < |longer|
      ensures GuardedAt(h, d, longer, t)
    {
      forall p, c | Genuine(d.hash, c) && BeginsAt(longer, t, p, AppendJob(d, c))
        ensures Checked(h, d, longer, t, c)
      {
        if t + 1 < |run| {
          assert GuardedAt(h, d, run, t) && BeginsAt(run, t, p, AppendJob(d, c));
        }
        CheckedStays(h, d, run, s', t, c);
      }
    }
  }

  lemma CallKeepsJobs(h: Hash, d: Shelf, s: System, p: nat, a: Choice)
    requires Enabled(s, p, a) && NoCollision(h, s) && OnlyAppends(d, s)
    ensures var s' := Advance(h, s, p, a); Step(h, s, s') && NoCollision(h, s') && OnlyAppends(d, s')
  {
    AdvanceKeepsJobs(h, s, p, a);
    SameJobsNoCollision(h, s, Advance(h, s, p, a));
    assert Act(h, s, Advance(h, s, p, a));
  }

  /** One more system call of `p`, which is not the first of an append. */
  lemma OneCall(h: Hash, d: Shelf, run: seq<System>, s: System, p: nat, a: Choice)
    requires ComesTo(h, d, run, s) && Enabled(s, p, a) && !s.processes[p].phase.Ready?
    ensures ComesTo(h, d, run + [Advance(h, s, p, a)], Advance(h, s, p, a))
  {
    CallKeepsJobs(h, d, s, p, a);
    assert ChecksFirst(h, d, run, s, Advance(h, s, p, a));
    AppendRunExtends(h, d, run, s, Advance(h, s, p, a));
  }

  /** The checks of an append hold at this very moment. */
  ghost predicate ChecksHold(d: Shelf, s: System, c: Checkpoint) {
    Genuine(d.hash, c) && NextInScan(d, s.fs, s.fs, c) && Follows(d, s.fs, c)
  }

  /** The first call of an append whose checks hold. */
  lemma FirstCall(h: Hash, d: Shelf, run: seq<System>, s: System, p: nat, a: Choice, c: Checkpoint)
    requires ComesTo(h, d, run, s) && Proper(d) && Enabled(s, p, a) && ChecksHold(d, s, c)
    requires s.processes[p] == Started([AppendJob(d, c)])
    ensures ComesTo(h, d, run + [Advance(h, s, p, a)], Advance(h, s, p, a))
  {
    var t := |run| - 1;
    CallKeepsJobs(h, d, s, p, a);
    assert Calm(h, run, t, t) && ChecksPassed(d, run, t, t, t, t, c);
    assert Checked(h, d, run, t, c);
    forall r, b | Genuine(d.hash, b) && Begins(s, Advance(h, s, p, a), r, AppendJob(d, b))
      ensures Checked(h, d, run, t, b)
    {
      assert r == p && d.text(b) == d.text(c);
    }
    AppendRunExtends(h, d, run, s, Advance(h, s, p, a));
  }

  /** The names other than temporaries, except `n`, are as before. */
  ghost predicate OnlyNew(fs: FileSystem, fs': FileSystem, n: Name) {
    forall x: Name :: !x.Temporary? && x != n ==> fs'.At(x) == fs.At(x)
  }

  /** Since `s` a new process `p` has started to append `c` and come to `phase`; nothing else has happened. */
  ghost predicate Under(d: Shelf, s: System, c: Checkpoint, p: nat, phase: Phase, s': System) {
    && OnlyNew(s.fs, s'.fs, d.place(Position(c)))
    && (phase.Linked? || s'.fs.At(d.place(Position(c))) == s.fs.At(d.place(Position(c))))
    && s'.processes.Keys == s.processes.Keys + {p}
    && (forall r :: r in s.processes && r != p ==> s'.processes[r] == s.processes[r])
    && s'.processes[p].jobs == [AppendJob(d, c)] && s'.processes[p].done == 0 && s'.processes[p].phase == phase
  }

  /** `c` may be appended by a new process `p`. */
  ghost predicate MayAppend(h: Hash, d: Shelf, s: System, c: Checkpoint, p: nat) {
    && p !in s.processes && ChecksHold(d, s, c) && !Taken(d, s.fs, Position(c))
    && NoCollision(h, Update(s, p, s.fs, Started([AppendJob(d, c)])))
  }

  lemma OnlyOneMore(d: Shelf, s: System, p: nat, c: Checkpoint)
    requires Proper(d) && OnlyAppends(d, s) && p !in s.processes && Genuine(d.hash, c)
    ensures var s' := Update(s, p, s.fs, Started([AppendJob(d, c)])); Start(s, s') && OnlyAppends(d, s')
  {
    assert WellFormedJob(AppendJob(d, c)) by {
      assert d.place(Position(c)).Final?;
    }
    assert IsAppend(d, AppendJob(d, c), Position(c));
  }

  lemma StartAppender(h: Hash, d: Shelf, run: seq<System>, s: System, c: Checkpoint, p: nat)
    returns (longer: seq<System>)
    requires ComesTo(h, d, run, s) && Proper(d) && MayAppend(h, d, s, c, p)
    ensures ComesTo(h, d, longer, Update(s, p, s.fs, Started([AppendJob(d, c)])))
  {
    var s' := Update(s, p, s.fs, Started([AppendJob(d, c)]));
    OnlyOneMore(d, s, p, c);
    assert ChecksFirst(h, d, run, s, s');
    AppendRunExtends(h, d, run, s, s');
    longer := run + [s'];
  }

  /** The temporary is created. */
  lemma OpenTemporary(h: Hash, d: Shelf, run: seq<System>, s: System, c: Checkpoint, p: nat)
    returns (longer: seq<System>, s': System)
    requires ComesTo(h, d, run, s) && Proper(d) && MayAppend(h, d, s, c, p)
    ensures ComesTo(h, d, longer, s') && Under(d, s, c, p, Writing, s')
    ensures s'.processes[p].ino in s'.fs.inodes && s'.fs.inodes[s'.processes[p].ino].data == ""
  {
    var now := Update(s, p, s.fs, Started([AppendJob(d, c)]));
    longer := StartAppender(h, d, run, s, c, p);
    Reachable(h, longer, |longer| - 1);
    var a := NextChoice(now, p);
    FirstCall(h, d, longer, now, p, a, c);
    s' := Advance(h, now, p, a);
    longer := longer + [s'];
  }

  /** All the bytes are written in one call. */
  lemma WriteText(h: Hash, d: Shelf, run: seq<System>, s: System, c: Checkpoint, p: nat, now: System)
    returns (longer: seq<System>, s': System)
    requires ComesTo(h, d, run, now) && Proper(d) && Under(d, s, c, p, Writing, now)
    requires now.processes[p].ino in now.fs.inodes && now.fs.inodes[now.processes[p].ino].data == ""
    ensures ComesTo(h, d, longer, s') && Under(d, s, c, p, Writing, s')
    ensures s'.processes[p].ino in s'.fs.inodes && s'.fs.inodes[s'.processes[p].ino].data == d.text(c)
  {
    longer, s' := run, now;
    if d.text(c) != "" {
      var a := Choice(0, 0, |d.text(c)|);
      OneCall(h, d, run, now, p, a);
      s' := Advance(h, now, p, a);
      longer := run + [s'];
    }
  }

  /** The temporary is fsynced. */
  lemma CloseText(h: Hash, d: Shelf, run: seq<System>, s: System, c: Checkpoint, p: nat, now: System)
    returns (longer: seq<System>, s': System)
    requires ComesTo(h, d, run, now) && Proper(d) && Under(d, s, c, p, Writing, now)
    requires now.processes[p].ino in now.fs.inodes && now.fs.inodes[now.processes[p].ino].data == d.text(c)
    ensures ComesTo(h, d, longer, s') && Under(d, s, c, p, Closed, s')
  {
    var a := Choice(0, 0, 0);
    OneCall(h, d, run, now, p, a);
    s' := Advance(h, now, p, a);
    longer := run + [s'];
  }

  /** The record is linked, and the directory not yet fsynced. */
  lemma LinkText(h: Hash, d: Shelf, run: seq<System>, s: System, c: Checkpoint, p: nat, now: System)
    returns (longer: seq<System>, s': System)
    requires ComesTo(h, d, run, now) && Proper(d) && Under(d, s, c, p, Closed, now)
    requires Genuine(d.hash, c) && !Taken(d, s.fs, Position(c))
    ensures ComesTo(h, d, longer, s') && Under(d, s, c, p, Linked(true), s')
    ensures Stored(d, s'.fs, c) && MayVanish(d, s'.fs, Position(c))
  {
    Reachable(h, run, |run| - 1);
    var a := Choice(0, 0, 0);
    OneCall(h, d, run, now, p, a);
    s' := Advance(h, now, p, a);
    longer := run + [s'];
    LinkedUnsynced(h, d, now, c, p, a);
    UnderGoesOn(d, s, c, p, now, s');
  }

  lemma UnderGoesOn(d: Shelf, s: System, c: Checkpoint, p: nat, now: System, s': System)
    requires Under(d, s, c, p, Closed, now) && OnlyNew(now.fs, s'.fs, d.place(Position(c)))
    requires s'.processes == now.processes[p := now.processes[p].(phase := Linked(true))]
    ensures Under(d, s, c, p, Linked(true), s')
  {
  }

  lemma LinkedUnsynced(h: Hash, d: Shelf, now: System, c: Checkpoint, p: nat, a: Choice)
    requires Inv(now) && Proper(d) && Enabled(now, p, a) && now.processes[p].phase.Closed?
    requires now.processes[p].jobs == [AppendJob(d, c)] && now.processes[p].done == 0
    requires Genuine(d.hash, c) && !Taken(d, now.fs, Position(c))
    ensures var s' := Advance(h, now, p, a);
            && OnlyNew(now.fs, s'.fs, d.place(Position(c)))
            && s'.processes == now.processes[p := now.processes[p].(phase := Linked(true))]
            && Stored(d, s'.fs, c) && MayVanish(d, s'.fs, Position(c))
  {
    assert ProcessOk(now.fs, now.processes[p], p);
    assert d.place(Position(c)).Final? && CreateOnlyShape(now.fs, d.place(Position(c)));
  }

  /** An appender whose checks hold can get as far as linking its record without fsyncing the directory. */
  lemma AppendUnsynced(h: Hash, d: Shelf, run: seq<System>, s: System, c: Checkpoint, p: nat)
    returns (longer: seq<System>, s': System)
    requires ComesTo(h, d, run, s) && Proper(d) && MayAppend(h, d, s, c, p)
    ensures ComesTo(h, d, longer, s') && Under(d, s, c, p, Linked(true), s')
    ensures Stored(d, s'.fs, c) && MayVanish(d, s'.fs, Position(c))
  {
    longer, s' := OpenTemporary(h, d, run, s, c, p);
    longer, s' := WriteText(h, d, longer, s, c, p, s');
    longer, s' := CloseText(h, d, longer, s, c, p, s');
    longer, s' := LinkText(h, d, longer, s, c, p, s');
  }

  lemma EmptyRun(h: Hash, d: Shelf)
    ensures ComesTo(h, d, [EMPTY], EMPTY)
  {
    assert EMPTY.processes.Keys == {};
  }

  /** The first record of an epoch may be appended to an empty store. */
  lemma FirstMayAppend(h: Hash, d: Shelf, b: Checkpoint)
    requires Proper(d) && Genuine(d.hash, b) && b.sequence == 1
    ensures MayAppend(h, d, EMPTY, b, 0)
  {
    assert Scan({}, EMPTY.fs, EMPTY.fs) && NextListed({}, d.number, b.epoch, 1);
    var s := Update(EMPTY, 0, EMPTY.fs, Started([AppendJob(d, b)]));
    assert s.processes.Keys == {0} && s.processes[0].jobs == [AppendJob(d, b)];
  }

  /** Its successor may be appended as soon as the first record is visible. */
  lemma SecondMayAppend(h: Hash, d: Shelf, b: Checkpoint, c: Checkpoint, s: System)
    requires Proper(d) && Genuine(d.hash, b) && Genuine(d.hash, c) && Precedes(b, c) && b.sequence == 1
    requires h(d.text(b)) != h(d.text(c))
    requires Under(d, EMPTY, b, 0, Linked(true), s) && Stored(d, s.fs, b)
    ensures MayAppend(h, d, s, c, 1)
  {
    var names := {d.place(Position(b))};
    assert d.place(Position(b)).Final? && d.place(Position(b)) != d.place(Position(c));
    assert Scan(names, s.fs, s.fs);
    assert Listed(names, d.number, c.epoch, 1);
    assert NextListed(names, d.number, c.epoch, 2);
    assert d.place(Position(c)).Final?;
    var after := Update(s, 1, s.fs, Started([AppendJob(d, c)]));
    assert after.processes.Keys == {0, 1};
    assert after.processes[0].jobs == [AppendJob(d, b)] && after.processes[1].jobs == [AppendJob(d, c)];
  }

  lemma CrashEnds(h: Hash, d: Shelf, run: seq<System>, s: System, s': System)
    requires ComesTo(h, d, run, s) && Crash(s, s')
    ensures ComesTo(h, d, run + [s'], s')
  {
    assert SameJobs(s, s');
    SameJobsNoCollision(h, s, s');
    assert ChecksFirst(h, d, run, s, s');
    AppendRunExtends(h, d, run, s, s');
  }

  /** Both records are linked by processes that have not fsynced the directory. */
  lemma TwoUnsynced(h: Hash, d: Shelf, b: Checkpoint, c: Checkpoint) returns (run: seq<System>, s: System)
    requires Proper(d) && Genuine(d.hash, b) && Genuine(d.hash, c) && Precedes(b, c) && b.sequence == 1
    requires h(d.text(b)) != h(d.text(c))
    ensures ComesTo(h, d, run, s) && Taken(d, s.fs, Position(c)) && MayVanish(d, s.fs, Position(b))
  {
    EmptyRun(h, d);
    FirstMayAppend(h, d, b);
    var first: System;
    run, first := AppendUnsynced(h, d, [EMPTY], EMPTY, b, 0);
    SecondMayAppend(h, d, b, c, first);
    run, s := AppendUnsynced(h, d, run, first, c, 1);
    assert d.place(Position(b)) != d.place(Position(c)) && d.place(Position(b)).Final?;
  }

  /** A crash may lose this one record and nothing else. */
  lemma LoseOne(d: Shelf, s: System, k: Place) returns (s': System)
    requires Proper(d) && s.fs.WellFormed() && MayVanish(d, s.fs, k)
    ensures Crash(s, s') && forall j :: Taken(d, s'.fs, j) <==> j != k && Taken(d, s.fs, j)
  {
    var lost := d.place(k);
    s' := CrashChoosing(s, (x: Name) => if x == lost then None else s.fs.At(x).now);
  }

  /** Two processes append the first two records of an epoch with all the checks of
      `append_checkpoint`, and a crash leaves the second without the first: the predecessor was
      read before its directory entry was fsynced. */
  lemma CrashTearsChain(h: Hash, d: Shelf, b: Checkpoint, c: Checkpoint) returns (run: seq<System>)
    requires Proper(d) && Genuine(d.hash, b) && Genuine(d.hash, c) && Precedes(b, c) && b.sequence == 1
    requires h(d.text(b)) != h(d.text(c))
    ensures AppendRun(h, d, run)
    ensures Taken(d, run[|run| - 1].fs, Position(c)) && !Taken(d, run[|run| - 1].fs, Position(b))
  {
    var s: System;
    run, s := TwoUnsynced(h, d, b, c);
    Reachable(h, run, |run| - 1);
    var s' := LoseOne(d, s, Position(b));
    CrashEnds(h, d, run, s, s');
    run := run + [s'];
  }

  /** Two such records exist under every digest. */
  lemma FirstTwo(h: Hash) returns (b: Checkpoint, c: Checkpoint)
    ensures Genuine(ContentHash(h), b) && Genuine(ContentHash(h), c) && Precedes(b, c) && b.sequence == 1
  {
    b := SealRecord(h, Checkpoint("", "run", "lease", 1, 1, None, [], ""));
    c := SealRecord(h, Checkpoint("", "run", "lease", 1, 2, Some(b.hash), [], ""));
  }

  lemma SealRecord(h: Hash, c: Checkpoint) returns (r: Checkpoint)
    requires WellFormedCheckpoint(c)
    ensures Genuine(ContentHash(h), r) && r == c.(hash := r.hash)
  {
    r := c.(hash := CheckpointHash(h, c));
    assert CheckpointRow(r) == CheckpointRow(c);
  }
}
