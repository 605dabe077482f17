/** A list of lists laid out as one list.

    `Offset` says where each list begins, and `Locate` which list a position belongs to.
 */
module Flattening {

  function Flatten<T>(lists: seq<seq<T>>): seq<T> {
    if lists == [] then [] else Flatten(lists[..|lists| - 1]) + lists[|lists| - 1]
  }

  /** Where list `p` begins in the flattened list. */
  function Offset<T>(lists: seq<seq<T>>, p: nat): nat
    requires p <= |lists|
  {
    |Flatten(lists[..p])|
  }

  lemma {:induction false} FlattenPrefix<T>(lists: seq<seq<T>>, n: nat)
    requires n <= |lists|
    ensures Flatten(lists[..n]) <= Flatten(lists)
    decreases |lists|
  {
    if n == |lists| {
      assert lists[..n] == lists;
    } else {
      FlattenPrefix(lists[..|lists| - 1], n);
      assert lists[..|lists| - 1][..n] == lists[..n];
    }
  }

  /** List `p` follows those before it. */
  lemma FlattenStep<T>(lists: seq<seq<T>>, p: nat)
    requires p < |lists|
    ensures Flatten(lists[..p + 1]) == Flatten(lists[..p]) + lists[p]
    ensures Flatten(lists[..p + 1]) <= Flatten(lists)
  {
    assert lists[..p + 1][..p] == lists[..p];
    FlattenPrefix(lists, p + 1);
  }

  /** Element `i` of list `p` stands at its offset. */
  lemma FlattenAt<T>(lists: seq<seq<T>>, p: nat, i: nat)
    requires p < |lists| && i < |lists[p]|
    ensures Offset(lists, p) + i < |Flatten(lists)|
    ensures Flatten(lists)[Offset(lists, p) + i] == lists[p][i]
  {
    FlattenStep(lists, p);
    assert Flatten(lists[..p + 1])[Offset(lists, p) + i] == lists[p][i];
  }

  /** A later list stands behind an earlier one. */
  lemma OffsetsIncrease<T>(lists: seq<seq<T>>, p: nat, q: nat)
    requires p < q < |lists|
    ensures Offset(lists, p) + |lists[p]| <= Offset(lists, q)
  {
    FlattenStep(lists, p);
    assert lists[..q][..p + 1] == lists[..p + 1];
    FlattenPrefix(lists[..q], p + 1);
  }

  /** Every element of the flattened list comes from one of the lists. */
  lemma {:induction false} Locate<T>(lists: seq<seq<T>>, k: nat) returns (p: nat, i: nat)
    requires k < |Flatten(lists)|
    ensures p < |lists| && i < |lists[p]|
    ensures Offset(lists, p) + i == k
    decreases |lists|
  {
    var n := |lists| - 1;
    var before := |Flatten(lists[..n])|;
    if k < before {
      p, i := Locate(lists[..n], k);
      assert lists[..n][..p] == lists[..p];
    } else {
      p, i := n, k - before;
    }
  }
}
