/** Lists without repetitions, and sums over lists.

    A sum depends on the members only, not on the order in which a loop meets them.
 */
module Lists {

  predicate Distinct<T(==)>(s: seq<T>) {
    forall i, j :: 0 <= i < j < |s| ==> s[i] != s[j]
  }

  /** The members in the order of their first occurrence: the keys of a dictionary built from `s`. */
  function FirstSeen<T(==,!new)>(s: seq<T>): (r: seq<T>)
    ensures Distinct(r) && |r| <= |s|
    ensures forall x :: x in r <==> x in s
  {
    if s == [] then []
    else
      var n := |s| - 1;
      assert s == s[..n] + [s[n]];
      var rest := FirstSeen(s[..n]);
      if s[n] in rest then rest else rest + [s[n]]
  }

  lemma {:induction false} FirstSeenOfDistinct<T(!new)>(s: seq<T>)
    requires Distinct(s)
    ensures FirstSeen(s) == s
  {
    if s != [] {
      FirstSeenOfDistinct(s[..|s| - 1]);
      assert s == s[..|s| - 1] + [s[|s| - 1]];
    }
  }

  /** The sum of `amount` over a list, as a loop builds it. */
  function Sum<T>(amount: T -> int, items: seq<T>): int {
    if items == [] then 0 else Sum(amount, items[..|items| - 1]) + amount(items[|items| - 1])
  }

  lemma {:induction false} SumStep<T>(amount: T -> int, items: seq<T>, item: T)
    ensures Sum(amount, items + [item]) == Sum(amount, items) + amount(item)
  {
    assert (items + [item])[..|items|] == items;
  }

  lemma {:induction false} SumSplit<T>(amount: T -> int, items: seq<T>, k: nat)
    requires k <= |items|
    ensures Sum(amount, items) == Sum(amount, items[..k]) + Sum(amount, items[k..])
  {
    if k == |items| {
      assert items[..k] == items && items[k..] == [];
    } else {
      var n := |items| - 1;
      SumSplit(amount, items[..n], k);
      assert items[..n][..k] == items[..k] && items[..n][k..] == items[k..n];
      assert items[k..] == items[k..n] + [items[n]];
      assert Sum(amount, items) == Sum(amount, items[..n]) + amount(items[n]);
      SumStep(amount, items[k..n], items[n]);
    }
  }

  /** Amounts that agree item by item have the same sum. */
  lemma {:induction false} SumAgrees<S, T>(f: S -> int, xs: seq<S>, g: T -> int, ys: seq<T>)
    requires |xs| == |ys| && forall i :: 0 <= i < |xs| ==> f(xs[i]) == g(ys[i])
    ensures Sum(f, xs) == Sum(g, ys)
  {
    if xs != [] {
      SumAgrees(f, xs[..|xs| - 1], g, ys[..|ys| - 1]);
    }
  }

  /** Two listings of the same members have the same sum. */
  lemma {:induction false} SumOfMembers<T(!new)>(amount: T -> int, a: seq<T>, b: seq<T>)
    requires Distinct(a) && Distinct(b) && forall x :: x in a <==> x in b
    ensures Sum(amount, a) == Sum(amount, b)
    decreases |a|
  {
    if a == [] {
      if b != [] {
        FirstIsMember(b);
        assert false;
      }
    } else {
      var n := |a| - 1;
      assert a[n] in b;
      var k :| 0 <= k < |b| && b[k] == a[n];
      var rest := b[..k] + b[k + 1..];
      OneFewer(a, b, k);
      SumOfMembers(amount, a[..n], rest);
      SumSplit(amount, b, k);
      SumFirst(amount, b[k..]);
      assert b[k..][1..] == b[k + 1..];
      SumSplit(amount, rest, k);
      assert rest[..k] == b[..k] && rest[k..] == b[k + 1..];
    }
  }

  lemma FirstIsMember<T>(s: seq<T>)
    requires s != []
    ensures s[0] in s
  {
  }

  lemma OneFewer<T(!new)>(a: seq<T>, b: seq<T>, k: nat)
    requires Distinct(a) && Distinct(b) && (forall x :: x in a <==> x in b)
    requires a != [] && k < |b| && b[k] == a[|a| - 1]
    ensures var rest := b[..k] + b[k + 1..];
            Distinct(a[..|a| - 1]) && Distinct(rest) && forall x :: x in a[..|a| - 1] <==> x in rest
  {
    var rest := b[..k] + b[k + 1..];
    assert forall i :: 0 <= i < |rest| ==> rest[i] == b[if i < k then i else i + 1];
    forall x
      ensures x in a[..|a| - 1] <==> x in rest
    {
      MemberRemoved(a, |a| - 1, x);
      MemberRemoved(b, k, x);
      assert a[..|a| - 1] == a[..|a| - 1] + a[|a|..];
    }
  }

  lemma MemberRemoved<T>(b: seq<T>, k: nat, x: T)
    requires Distinct(b) && k < |b|
    ensures x in b[..k] + b[k + 1..] <==> x in b && x != b[k]
  {
    assert b == b[..k] + [b[k]] + b[k + 1..];
  }

  lemma {:induction false} SumFirst<T>(amount: T -> int, items: seq<T>)
    requires items != []
    ensures Sum(amount, items) == amount(items[0]) + Sum(amount, items[1..])
  {
    SumSplit(amount, items, 1);
    assert items[..1] == [] + [items[0]];
    SumStep(amount, [], items[0]);
  }
}
