/** `_ensure_durable_directory`: creating the missing parents of an artifact. */
module Directories {
  import opened Wrappers

  /** The components of an absolute path; `[]` is the root. */
  type Path = seq<string>

  datatype DirectoryError = NotADirectory

  /** A crash cannot remove the directory: every entry on the way to it is durable. */
  ghost predicate Survives(durable: set<Path>, p: Path) {
    forall k :: 0 < k <= |p| ==> p[..k] in durable
  }

  /** How many leading components of `p` exist. */
  function ExistingDepth(directories: set<Path>, p: Path): (k: nat)
    ensures k <= |p| && (p[..k] in directories || k == 0)
    ensures forall j :: k < j <= |p| ==> p[..j] !in directories
  {
    if p in directories || p == [] then
      assert p[..|p|] == p;
      |p|
    else
      var q := p[..|p| - 1];
      var k := ExistingDepth(directories, q);
      assert q[..k] == p[..k];
      assert forall j :: k < j <= |q| ==> q[..j] == p[..j];
      assert p[..|p|] == p;
      k
  }

  class DirectoryTree {
    var directories: set<Path>
    var others: set<Path>
    var durable: set<Path>

    /** Parents of directories exist, and nothing is both a directory and something else. */
    ghost predicate Valid()
      reads this
    {
      && [] in directories && directories !! others
      && forall p :: p in directories && p != [] ==> p[..|p| - 1] in directories
    }

    constructor ()
      ensures Valid() && directories == {[]} && others == {} && durable == {}
    {
      directories, others, durable := {[]}, {}, {};
    }

    /** Another process may create `path` first, as a directory or as something else. */
    method Interfere(path: Path)
      requires Valid() && path != [] && path[..|path| - 1] in directories
      modifies this
      ensures Valid() && durable == old(durable)
      ensures directories == old(directories) || directories == old(directories) + {path}
    {
      var asDirectory, asOther := *, *;
      if path !in directories && path !in others {
        if asDirectory {
          directories := directories + {path};
        } else if asOther {
          others := others + {path};
        }
      }
    }

    /** `fsync` of a directory makes the entries it holds durable. */
    method SyncDirectory(parent: Path)
      requires Valid()
      modifies this`durable
      ensures durable == old(durable) + (set p | p in directories && p != [] && p[..|p| - 1] == parent)
    {
      durable := durable + (set p | p in directories && p != [] && p[..|p| - 1] == parent);
    }

    /** `mkdir`, tolerating a directory made meanwhile by someone else, then `fsync` of the parent. */
    method MakeDirectory(path: Path) returns (made: bool)
      requires Valid() && path != [] && path[..|path| - 1] in directories
      modifies this
      ensures Valid() && old(directories) <= directories
      ensures made ==> path in directories && path in durable
      ensures !made ==> durable == old(durable) && path in others
      ensures made ==>
                durable == old(durable) + set p | p in directories && p != [] && p[..|p| - 1] == path[..|path| - 1]
    {
      Interfere(path);
      if path in others { return false; }
      directories := directories + {path};
      SyncDirectory(path[..|path| - 1]);
      return true;
    }

    /** The walk upwards: the missing directories, deepest first, and the first thing that exists. */
    method FindMissing(directory: Path) returns (missing: seq<Path>, cursor: Path)
      requires Valid()
      ensures |missing| <= |directory| && cursor == directory[..|directory| - |missing|]
      ensures cursor in directories || cursor in others
      ensures Climbed(directories + others, directory, missing)
    {
      missing, cursor := [], directory;
      while cursor !in directories && cursor !in others
        invariant |missing| <= |directory| && cursor == directory[..|directory| - |missing|]
        invariant Climbed(directories + others, directory, missing)
        decreases |cursor|
      {
        missing := missing + [cursor];
        cursor := cursor[..|cursor| - 1];
      }
    }

    /** Every component that was missing becomes a durable directory; components that were
        there are left as they are, durable or not. */
    method EnsureDurableDirectory(directory: Path) returns (r: Result<(), DirectoryError>)
      requires Valid()
      modifies this
      ensures Valid() && old(directories) <= directories && old(durable) <= durable
      ensures r.Ok? ==> directory in directories && Ensured(old(directories), old(durable), durable, directory)
      ensures (exists k :: 0 <= k <= |directory| && directory[..k] in old(others)) ==>
                r == Err(NotADirectory) && unchanged(this)
      ensures r.Err? <==> exists k :: 0 <= k <= |directory| && directory[..k] in others
    {
      var missing, cursor := FindMissing(directory);
      ghost var top := |directory| - |missing|;
      if cursor in others {
        assert directory[..top] in others;
        return Err(NotADirectory);
      }
      PrefixesExist(directories, directory, top);
      ClimbFindsDepth(directories, others, directory, missing);
      var i := |missing|;
      while i > 0
        invariant 0 <= i <= |missing| && Valid()
        invariant old(directories) <= directories && old(durable) <= durable
        invariant directory[..|directory| - i] in directories
        invariant top <= |directory| - i && MadeUpTo(old(durable), durable, directory, top, |directory| - i)
      {
        i := i - 1;
        var path := missing[i];
        ParentOfPrefix(directory, |directory| - i);
        ghost var before := durable;
        var made := MakeDirectory(path);
        if !made {
          assert directory[..|directory| - i] in others;
          return Err(NotADirectory);
        }
        OneLevelMade(directories, old(durable), before, durable, directory, top, |directory| - i);
      }
      assert directory[..|directory|] == directory;
      PrefixesExist(directories, directory, |directory|);
      return Ok(());
    }
  }

  ghost predicate Climbed(existing: set<Path>, directory: Path, missing: seq<Path>) {
    && |missing| <= |directory| + 1
    && forall i :: 0 <= i < |missing| ==>
      i <= |directory| && missing[i] == directory[..|directory| - i] && missing[i] !in existing
  }

  lemma ClimbFindsDepth(directories: set<Path>, others: set<Path>, directory: Path, missing: seq<Path>)
    requires |missing| <= |directory| && Climbed(directories + others, directory, missing)
    requires directory[..|directory| - |missing|] in directories && directories !! others
    requires forall j :: 0 <= j <= |directory| - |missing| ==> directory[..j] in directories
    ensures ExistingDepth(directories, directory) == |directory| - |missing|
    ensures forall k :: 0 <= k <= |directory| ==> directory[..k] !in others
  {
    forall j | |directory| - |missing| < j <= |directory|
      ensures directory[..j] !in directories && directory[..j] !in others
    {
      assert missing[|directory| - j] == directory[..j];
    }
  }

  lemma ParentOfPrefix(p: Path, k: nat)
    requires 0 < k <= |p|
    ensures p[..k] != [] && p[..k][..|p[..k]| - 1] == p[..k - 1]
  {
  }

  /** Syncing the directory at depth `at - 1` touches only entries of depth `at`. */
  lemma ShallowerKept(directories: set<Path>, before: set<Path>, after: set<Path>, p: Path, top: nat, at: nat)
    requires top < at <= |p|
    requires after == before + (set q | q in directories && q != [] && q[..|q| - 1] == p[..at][..at - 1])
    ensures forall k :: 0 <= k <= top ==> (p[..k] in after <==> p[..k] in before)
  {
    forall k | 0 <= k <= top
      ensures p[..k] in after <==> p[..k] in before
    {
      assert |p[..at][..at - 1]| == at - 1;
      assert k > 0 ==> |p[..k][..|p[..k]| - 1]| == k - 1;
    }
  }

  /** The levels from below `top` down to `n` are durable, the levels above are as they were. */
  ghost predicate MadeUpTo(was: set<Path>, durable: set<Path>, p: Path, top: nat, n: nat)
    requires top <= n <= |p|
  {
    && (forall k :: top < k <= n ==> p[..k] in durable)
    && (forall k :: 0 <= k <= top ==> (p[..k] in durable <==> p[..k] in was))
  }

  lemma OneLevelMade(directories: set<Path>, was: set<Path>, before: set<Path>, after: set<Path>,
                     p: Path, top: nat, n: nat)
    requires top < n <= |p| && MadeUpTo(was, before, p, top, n - 1) && p[..n] in after
    requires after == before + (set q | q in directories && q != [] && q[..|q| - 1] == p[..n][..n - 1])
    ensures MadeUpTo(was, after, p, top, n)
  {
    ShallowerKept(directories, before, after, p, top, n);
  }

  lemma {:induction false} PrefixesExist(directories: set<Path>, p: Path, k: nat)
    requires forall q :: q in directories && q != [] ==> q[..|q| - 1] in directories
    requires k <= |p| && p[..k] in directories
    ensures forall j :: 0 <= j <= k ==> p[..j] in directories
  {
    if k > 0 {
      assert p[..k][..k - 1] == p[..k - 1];
      PrefixesExist(directories, p, k - 1);
    }
  }

  /** What one successful call did to the set of durable entries. */
  ghost predicate Ensured(directories: set<Path>, before: set<Path>, after: set<Path>, p: Path) {
    var depth := ExistingDepth(directories, p);
    && (forall k :: depth < k <= |p| ==> p[..k] in after)
    && (forall k :: 0 <= k <= depth ==> (p[..k] in after <==> p[..k] in before))
  }

  /** The call makes the directory survive crashes exactly when its nearest existing ancestor
      already did: an ancestor left behind by a crash between `mkdir` and `fsync` is not repaired. */
  lemma SurvivesIffAncestorDid(directories: set<Path>, before: set<Path>, after: set<Path>, p: Path)
    requires Ensured(directories, before, after, p)
    ensures Survives(after, p) <==> Survives(before, p[..ExistingDepth(directories, p)])
  {
    var depth := ExistingDepth(directories, p);
    assert forall k :: 0 < k <= depth ==> p[..depth][..k] == p[..k];
    if Survives(before, p[..depth]) {
      forall k | 0 < k <= |p|
        ensures p[..k] in after
      {
        if k <= depth {
          assert p[..depth][..k] in before;
        }
      }
    }
  }

  /** A directory that exists but was never fsynced stays lost to a crash. */
  lemma UnsyncedParentIsNotRepaired()
    ensures var runs := ["runs"];
            && ExistingDepth({[], runs}, runs) == 1
            && Ensured({[], runs}, {}, {}, runs) && !Survives({}, runs)
  {
    assert ["runs"][..1] == ["runs"];
  }
}
