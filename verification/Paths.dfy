/** Relative artifact paths and the directory entries they name. */
module Paths {
  import opened FileSystems

  function Components(path: string): (parts: seq<string>)
    ensures parts != []
  {
    if path == "" then [""]
    else if path[0] == '/' then [""] + Components(path[1..])
    else
      var rest := Components(path[1..]);
      [[path[0]] + rest[0]] + rest[1..]
  }

  /** `safe_relative_path`: the paths it lets through, which it returns unchanged. */
  predicate SafePath(path: string) {
    && path != "" && '\0' !in path && '\\' !in path && path[0] != '/'
    && forall c :: c in Components(path) ==> c != "" && c != "." && c != ".."
  }

  /** `safe_path_component` */
  predicate SafeComponent(path: string) {
    SafePath(path) && |Components(path)| == 1
  }

  /** Where the last component starts. */
  function LeafStart(path: string): (k: nat)
    ensures k <= |path| && (k > 0 ==> path[k - 1] == '/')
  {
    if path == "" then 0
    else if path[|path| - 1] == '/' then |path|
    else LeafStart(path[..|path| - 1])
  }

  function Parent(root: string, path: string): string {
    var k := LeafStart(path);
    if k == 0 then root else root + "/" + path[..k - 1]
  }

  /** The directory entry of `root / path`. */
  function Place(root: string, path: string): (n: Name)
    ensures n.Final?
  {
    Final(Parent(root, path), path[LeafStart(path)..])
  }

  /** Different relative paths are different entries. */
  lemma PlaceIsInjective(root: string, a: string, b: string)
    requires Place(root, a) == Place(root, b)
    ensures a == b
  {
    var j, k := LeafStart(a), LeafStart(b);
    assert a == a[..j] + a[j..] && b == b[..k] + b[k..];
    if j == 0 || k == 0 {
      assert |Parent(root, a)| == |root| <==> j == 0;
      assert |Parent(root, b)| == |root| <==> k == 0;
    } else {
      var prefix := root + "/";
      assert (prefix + a[..j - 1])[|prefix|..] == a[..j - 1];
      assert (prefix + b[..k - 1])[|prefix|..] == b[..k - 1];
      assert a[..j] == a[..j - 1] + "/" && b[..k] == b[..k - 1] + "/";
    }
  }
}
