/** Counting and selecting the members of a list that satisfy a condition.

    Shared by the tables of the paired study.
 */
module Counting {

  function Count<T>(s: seq<T>, p: T -> bool): (n: nat)
    ensures n <= |s|
  {
    if s == [] then 0 else Count(s[..|s| - 1], p) + (if p(s[|s| - 1]) then 1 else 0)
  }

  function Select<T>(s: seq<T>, p: T -> bool): (r: seq<T>)
    ensures |r| == Count(s, p)
  {
    if s == [] then [] else Select(s[..|s| - 1], p) + (if p(s[|s| - 1]) then [s[|s| - 1]] else [])
  }

  /** Two exclusive conditions that together make a third. */
  lemma {:induction false} CountSplits<T>(s: seq<T>, p: T -> bool, q: T -> bool, either: T -> bool)
    requires forall i :: 0 <= i < |s| ==> either(s[i]) == (p(s[i]) || q(s[i])) && !(p(s[i]) && q(s[i]))
    ensures Count(s, p) + Count(s, q) == Count(s, either)
  {
    if s != [] {
      CountSplits(s[..|s| - 1], p, q, either);
    }
  }

  lemma {:induction false} CountAll<T>(s: seq<T>, p: T -> bool)
    ensures Count(s, p) == |s| <==> forall i :: 0 <= i < |s| ==> p(s[i])
  {
    if s != [] {
      CountAll(s[..|s| - 1], p);
      assert forall i :: 0 <= i < |s| - 1 ==> s[..|s| - 1][i] == s[i];
    }
  }

  lemma {:induction false} SelectedHold<T>(s: seq<T>, p: T -> bool, k: nat)
    requires k < |Select(s, p)|
    ensures p(Select(s, p)[k]) && Select(s, p)[k] in s
  {
    var n := |s| - 1;
    if k < |Select(s[..n], p)| {
      SelectedHold(s[..n], p, k);
    }
  }

  lemma {:induction false} SelectAll<T>(s: seq<T>, p: T -> bool)
    requires forall i :: 0 <= i < |s| ==> p(s[i])
    ensures Select(s, p) == s
  {
    if s != [] {
      SelectAll(s[..|s| - 1], p);
    }
  }

  lemma {:induction false} CountGrows<T>(s: seq<T>, p: T -> bool, q: T -> bool)
    requires forall i :: 0 <= i < |s| && p(s[i]) ==> q(s[i])
    ensures Count(s, p) <= Count(s, q)
  {
    if s != [] {
      CountGrows(s[..|s| - 1], p, q);
    }
  }

  lemma SelectLast<T>(s: seq<T>, x: T, p: T -> bool)
    ensures Select(s + [x], p) == Select(s, p) + (if p(x) then [x] else [])
  {
    assert (s + [x])[..|s|] == s && (s + [x])[|s|] == x;
  }

  lemma Associative<T>(a: seq<T>, b: seq<T>, c: seq<T>)
    ensures a + b + c == a + (b + c)
  {
  }

  /** Selection goes through a list in order, member by member. */
  lemma {:induction false} SelectGoesOn<T>(s: seq<T>, t: seq<T>, p: T -> bool)
    ensures Select(s + t, p) == Select(s, p) + Select(t, p)
    decreases |t|
  {
    if t == [] {
      assert s + t == s;
    } else {
      var front, x := t[..|t| - 1], t[|t| - 1];
      SelectGoesOn(s, front, p);
      assert t == front + [x] && s + t == s + front + [x];
      SelectLast(s + front, x, p);
      SelectLast(front, x, p);
      var more := if p(x) then [x] else [];
      assert Select(s + t, p) == Select(s, p) + Select(front, p) + more;
      Associative(Select(s, p), Select(front, p), more);
    }
  }
}
