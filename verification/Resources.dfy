/** Summing the resources of a reservation's owner allocations. */
module Resources {
  import opened Flattening
  import opened Wrappers

  datatype Ceiling = Ceiling(dimension: string, maximum: real, unit: string)

  // ---- the specification ----

  /** One unit per dimension. */
  ghost predicate UnitsAgree(s: seq<Ceiling>) {
    forall i, j :: 0 <= i < j < |s| && s[i].dimension == s[j].dimension ==> s[i].unit == s[j].unit
  }

  predicate Mentions(s: seq<Ceiling>, dimension: string) {
    exists i :: 0 <= i < |s| && s[i].dimension == dimension
  }

  /** The sum of all maxima of a dimension. */
  function Total(s: seq<Ceiling>, dimension: string): real {
    if s == [] then 0.0
    else Total(s[..|s| - 1], dimension) + (if s[|s| - 1].dimension == dimension then s[|s| - 1].maximum else 0.0)
  }

  function GrandTotal(s: seq<Ceiling>): real {
    if s == [] then 0.0 else GrandTotal(s[..|s| - 1]) + s[|s| - 1].maximum
  }

  /** Where a dimension is first mentioned. */
  function FirstIndex(s: seq<Ceiling>, dimension: string): (k: nat)
    requires Mentions(s, dimension)
    ensures k < |s| && s[k].dimension == dimension
    ensures forall i :: 0 <= i < k ==> s[i].dimension != dimension
  {
    if s[0].dimension == dimension then 0
    else
      var i :| 0 <= i < |s| && s[i].dimension == dimension;
      assert s[1..][i - 1].dimension == dimension;
      1 + FirstIndex(s[1..], dimension)
  }

  /** The result describes `s`: its dimensions in first-seen order, each once, with unit and total. */
  ghost predicate Sums(s: seq<Ceiling>, r: seq<Ceiling>) {
    && (forall d :: Mentions(r, d) <==> Mentions(s, d))
    && (forall i :: 0 <= i < |r| ==> Mentions(s, r[i].dimension))
    && (forall i :: 0 <= i < |r| ==> r[i].maximum == Total(s, r[i].dimension))
    && (forall i :: 0 <= i < |r| ==> r[i].unit == s[FirstIndex(s, r[i].dimension)].unit)
    && (forall i, j :: 0 <= i < j < |r| ==> FirstIndex(s, r[i].dimension) < FirstIndex(s, r[j].dimension))
  }

  ghost predicate FirstSeenBefore(s: seq<Ceiling>, d: string, e: string) {
    Mentions(s, d) && Mentions(s, e) && FirstIndex(s, d) < FirstIndex(s, e)
  }

  ghost predicate InFirstSeenOrder(s: seq<Ceiling>, order: seq<string>) {
    forall i, j :: 0 <= i < j < |order| ==> FirstSeenBefore(s, order[i], order[j])
  }

  // ---- the loops ----

  /** What the dictionaries and the order list hold after the ceilings `s`. */
  ghost predicate Tracks(s: seq<Ceiling>, amounts: map<string, real>, units: map<string, string>, order: seq<string>) {
    && (forall d :: d in amounts <==> Mentions(s, d))
    && (forall d :: d in units <==> Mentions(s, d))
    && (forall d :: d in order <==> Mentions(s, d))
    && (forall d :: d in amounts ==> amounts[d] == Total(s, d))
    && (forall d :: d in units ==> units[d] == s[FirstIndex(s, d)].unit)
    && InFirstSeenOrder(s, order)
  }

  lemma MentionsGrow(s: seq<Ceiling>, c: Ceiling, d: string)
    ensures Mentions(s + [c], d) <==> Mentions(s, d) || c.dimension == d
  {
    var longer := s + [c];
    if Mentions(s, d) {
      var i :| 0 <= i < |s| && s[i].dimension == d;
      assert longer[i].dimension == d;
    }
    if c.dimension == d {
      assert longer[|s|].dimension == d;
    }
    if Mentions(longer, d) {
      var i :| 0 <= i < |longer| && longer[i].dimension == d;
      assert i < |s| ==> s[i].dimension == d;
    }
  }

  lemma FirstIndexStays(s: seq<Ceiling>, c: Ceiling, d: string)
    requires Mentions(s + [c], d)
    ensures FirstIndex(s + [c], d) == if Mentions(s, d) then FirstIndex(s, d) else |s|
  {
    var longer := s + [c];
    assert forall i :: 0 <= i < |s| ==> longer[i] == s[i];
    if Mentions(s, d) {
      FirstIsUnique(longer, d, FirstIndex(s, d));
    } else {
      MentionsGrow(s, c, d);
      FirstIsUnique(longer, d, |s|);
    }
  }

  lemma FirstIsUnique(s: seq<Ceiling>, d: string, j: nat)
    requires Mentions(s, d) && j < |s| && s[j].dimension == d && forall i :: 0 <= i < j ==> s[i].dimension != d
    ensures FirstIndex(s, d) == j
  {
    var k := FirstIndex(s, d);
    assert s[k].dimension == d;
  }

  lemma TotalGrows(s: seq<Ceiling>, c: Ceiling, d: string)
    ensures Total(s + [c], d) == Total(s, d) + (if c.dimension == d then c.maximum else 0.0)
  {
    assert (s + [c])[..|s|] == s && (s + [c])[|s|] == c;
  }

  /** One turn of the inner loop. */
  method AddResource(ghost s: seq<Ceiling>, c: Ceiling, amounts: map<string, real>, units: map<string, string>,
                     order: seq<string>)
    returns (ok: bool, amounts': map<string, real>, units': map<string, string>, order': seq<string>)
    requires Tracks(s, amounts, units, order) && UnitsAgree(s)
    ensures ok <==> UnitsAgree(s + [c])
    ensures ok ==> Tracks(s + [c], amounts', units', order')
  {
    amounts', units', order' := amounts, units, order;
    var d := c.dimension;
    UnitsStep(s, c);
    if d in units && units[d] != c.unit {
      return false, amounts', units', order';
    }
    if d !in amounts {
      order' := order' + [d];
      amounts' := amounts'[d := 0.0];
      units' := units'[d := c.unit];
      TotalOfUnmentioned(s, d);
    }
    amounts' := amounts'[d := amounts'[d] + c.maximum];
    TracksStep(s, c, amounts, units, order, amounts', units', order');
    return true, amounts', units', order';
  }

  lemma {:induction false} TotalOfUnmentioned(s: seq<Ceiling>, d: string)
    requires !Mentions(s, d)
    ensures Total(s, d) == 0.0
  {
    if s != [] {
      assert forall i :: 0 <= i < |s| - 1 ==> s[..|s| - 1][i] == s[i];
      TotalOfUnmentioned(s[..|s| - 1], d);
    }
  }

  lemma UnitsStep(s: seq<Ceiling>, c: Ceiling)
    requires UnitsAgree(s)
    ensures UnitsAgree(s + [c]) <==> (Mentions(s, c.dimension) ==> s[FirstIndex(s, c.dimension)].unit == c.unit)
  {
    var longer := s + [c];
    assert forall i :: 0 <= i < |s| ==> longer[i] == s[i];
    if Mentions(s, c.dimension) {
      var k := FirstIndex(s, c.dimension);
      assert longer[k].dimension == longer[|s|].dimension;
      forall i, j | 0 <= i < j < |longer| && longer[i].dimension == longer[j].dimension && s[k].unit == c.unit
        ensures longer[i].unit == longer[j].unit
      {
        if j == |s| { assert k == i || k < i; }
      }
    }
  }

  lemma OrderStep(s: seq<Ceiling>, c: Ceiling, order: seq<string>, order': seq<string>)
    requires InFirstSeenOrder(s, order) && forall d :: d in order <==> Mentions(s, d)
    requires order' == if Mentions(s, c.dimension) then order else order + [c.dimension]
    ensures InFirstSeenOrder(s + [c], order') && forall d :: d in order' <==> Mentions(s + [c], d)
  {
    forall d
      ensures d in order' <==> Mentions(s + [c], d)
    {
      MentionsGrow(s, c, d);
    }
    forall i, j | 0 <= i < j < |order'|
      ensures FirstSeenBefore(s + [c], order'[i], order'[j])
    {
      assert order'[i] == order[i] && order[i] in order;
      MentionsGrow(s, c, order[i]);
      MentionsGrow(s, c, order'[j]);
      FirstIndexStays(s, c, order[i]);
      FirstIndexStays(s, c, order'[j]);
      if j < |order| {
        assert order'[j] == order[j] && order[j] in order;
        assert FirstSeenBefore(s, order[i], order[j]);
      }
    }
  }

  lemma TracksStep(s: seq<Ceiling>, c: Ceiling, amounts: map<string, real>, units: map<string, string>,
                   order: seq<string>,
                   amounts': map<string, real>, units': map<string, string>, order': seq<string>)
    requires Tracks(s, amounts, units, order)
    requires order' == if c.dimension in amounts then order else order + [c.dimension]
    requires units' == if c.dimension in amounts then units else units[c.dimension := c.unit]
    requires amounts' == amounts[c.dimension := Total(s, c.dimension) + c.maximum]
    ensures Tracks(s + [c], amounts', units', order')
  {
    var longer := s + [c];
    OrderStep(s, c, order, order');
    forall d
      ensures d in amounts' <==> Mentions(longer, d)
      ensures d in units' <==> Mentions(longer, d)
    {
      MentionsGrow(s, c, d);
    }
    forall d | d in amounts'
      ensures amounts'[d] == Total(longer, d)
    {
      TotalGrows(s, c, d);
    }
    forall d | d in units'
      ensures units'[d] == longer[FirstIndex(longer, d)].unit
    {
      UnitStays(s, c, units, units', d);
    }
  }

  lemma UnitStays(s: seq<Ceiling>, c: Ceiling, units: map<string, string>, units': map<string, string>, d: string)
    requires forall e :: e in units <==> Mentions(s, e)
    requires forall e :: e in units ==> units[e] == s[FirstIndex(s, e)].unit
    requires units' == if c.dimension in units then units else units[c.dimension := c.unit]
    requires d in units'
    ensures Mentions(s + [c], d) && units'[d] == (s + [c])[FirstIndex(s + [c], d)].unit
  {
    MentionsGrow(s, c, d);
    FirstIndexStays(s, c, d);
  }

  /** `_sum_allocation_resources` */
  method SumAllocationResources(allocations: seq<seq<Ceiling>>) returns (r: Option<seq<Ceiling>>)
    ensures r.Some? <==> UnitsAgree(Flatten(allocations))
    ensures r.Some? ==> Sums(Flatten(allocations), r.value)
  {
    var amounts: map<string, real> := map[];
    var units: map<string, string> := map[];
    var order: seq<string> := [];
    ghost var seen: seq<Ceiling> := [];
    for a := 0 to |allocations|
      invariant seen == Flatten(allocations[..a]) && UnitsAgree(seen) && Tracks(seen, amounts, units, order)
    {
      FlattenStep(allocations, a);
      ghost var before := seen;
      for k := 0 to |allocations[a]|
        invariant seen == before + allocations[a][..k] && UnitsAgree(seen) && Tracks(seen, amounts, units, order)
      {
        var ok;
        assert seen + [allocations[a][k]] == before + allocations[a][..k + 1];
        ok, amounts, units, order := AddResource(seen, allocations[a][k], amounts, units, order);
        if !ok {
          assert before + allocations[a][..k + 1] <= Flatten(allocations[..a + 1]);
          PrefixDisagrees(before + allocations[a][..k + 1], Flatten(allocations));
          return None;
        }
        seen := seen + [allocations[a][k]];
      }
      assert allocations[a][..|allocations[a]|] == allocations[a];
    }
    assert allocations[..|allocations|] == allocations;
    r := Some(Listed(order, amounts, units));
    ListedSums(seen, amounts, units, order);
  }

  function Listed(order: seq<string>, amounts: map<string, real>, units: map<string, string>): (r: seq<Ceiling>)
    requires forall d :: d in order ==> d in amounts && d in units
    ensures |r| == |order| && forall i :: 0 <= i < |r| ==> r[i] == Ceiling(order[i], amounts[order[i]], units[order[i]])
  {
    seq(|order|, i requires 0 <= i < |order| => Ceiling(order[i], amounts[order[i]], units[order[i]]))
  }

  lemma ListedSums(s: seq<Ceiling>, amounts: map<string, real>, units: map<string, string>, order: seq<string>)
    requires Tracks(s, amounts, units, order)
    ensures Sums(s, Listed(order, amounts, units))
  {
    var r := Listed(order, amounts, units);
    forall i | 0 <= i < |r|
      ensures Mentions(s, r[i].dimension)
    {
      assert order[i] in order;
    }
    forall i, j | 0 <= i < j < |r|
      ensures FirstIndex(s, r[i].dimension) < FirstIndex(s, r[j].dimension)
    {
      assert FirstSeenBefore(s, order[i], order[j]);
    }
    forall d
      ensures Mentions(r, d) <==> Mentions(s, d)
    {
      if Mentions(s, d) {
        var i :| 0 <= i < |order| && order[i] == d;
        assert r[i].dimension == d;
      }
    }
  }

  lemma PrefixDisagrees(prefix: seq<Ceiling>, all: seq<Ceiling>)
    requires prefix <= all && !UnitsAgree(prefix)
    ensures !UnitsAgree(all)
  {
    var i, j :| 0 <= i < j < |prefix| && prefix[i].dimension == prefix[j].dimension && prefix[i].unit != prefix[j].unit;
    assert all[i] == prefix[i] && all[j] == prefix[j];
  }

  // ---- conservation ----

  /** The result is determined by what it describes. */
  lemma SumsAreUnique(s: seq<Ceiling>, a: seq<Ceiling>, b: seq<Ceiling>)
    requires Sums(s, a) && Sums(s, b)
    ensures a == b
  {
    if |a| <= |b| { SumsAgree(s, a, b, |a|); } else { SumsAgree(s, b, a, |b|); }
    if |a| <= |b| { NoExtraDimension(s, a, b); } else { NoExtraDimension(s, b, a); }
  }

  lemma {:induction false} SumsAgree(s: seq<Ceiling>, a: seq<Ceiling>, b: seq<Ceiling>, n: nat)
    requires Sums(s, a) && Sums(s, b) && n <= |a| <= |b|
    ensures a[..n] == b[..n]
  {
    if n > 0 {
      SumsAgree(s, a, b, n - 1);
      SameNext(s, a, b, n - 1);
      assert a[..n] == a[..n - 1] + [a[n - 1]] && b[..n] == b[..n - 1] + [b[n - 1]];
    }
  }

  /** With equal beginnings, the next dimension of both is the least one not yet listed. */
  lemma SameNext(s: seq<Ceiling>, a: seq<Ceiling>, b: seq<Ceiling>, k: nat)
    requires Sums(s, a) && Sums(s, b) && k < |a| && k < |b| && a[..k] == b[..k]
    ensures a[k] == b[k]
  {
    NotLater(s, a, b, k);
    NotLater(s, b, a, k);
    var x, y := FirstIndex(s, a[k].dimension), FirstIndex(s, b[k].dimension);
    assert s[x].dimension == a[k].dimension && s[y].dimension == b[k].dimension;
  }

  /** A later entry does not repeat a dimension of the common beginning. */
  lemma NotRepeated(s: seq<Ceiling>, a: seq<Ceiling>, b: seq<Ceiling>, k: nat, j: nat)
    requires Sums(s, a) && j < k < |a| && k <= |b| && a[..k] == b[..k]
    ensures b[j].dimension != a[k].dimension
  {
    assert a[..k][j] == b[..k][j];
    assert FirstIndex(s, a[j].dimension) < FirstIndex(s, a[k].dimension);
  }

  lemma NotLater(s: seq<Ceiling>, a: seq<Ceiling>, b: seq<Ceiling>, k: nat)
    requires Sums(s, a) && Sums(s, b) && k < |a| && k < |b| && a[..k] == b[..k]
    ensures FirstIndex(s, b[k].dimension) <= FirstIndex(s, a[k].dimension)
  {
    var j := Listing(s, a, b, k);
    if j < k {
      NotRepeated(s, a, b, k, j);
    }
  }

  /** Both results list the same dimensions. */
  lemma Listing(s: seq<Ceiling>, a: seq<Ceiling>, b: seq<Ceiling>, k: nat) returns (j: nat)
    requires Sums(s, a) && Sums(s, b) && k < |a|
    ensures j < |b| && b[j].dimension == a[k].dimension
  {
    assert Mentions(a, a[k].dimension);
    assert Mentions(b, a[k].dimension);
    j :| 0 <= j < |b| && b[j].dimension == a[k].dimension;
  }

  lemma NoExtraDimension(s: seq<Ceiling>, a: seq<Ceiling>, b: seq<Ceiling>)
    requires Sums(s, a) && Sums(s, b) && |a| <= |b| && a == b[..|a|]
    ensures |a| == |b|
  {
    if |a| < |b| {
      var i := Listing(s, b, a, |a|);
      assert false;
    }
  }

  function WithoutDimension(s: seq<Ceiling>, d: string): seq<Ceiling> {
    if s == [] then []
    else WithoutDimension(s[..|s| - 1], d) + (if s[|s| - 1].dimension == d then [] else [s[|s| - 1]])
  }

  lemma {:induction false} WithoutFacts(s: seq<Ceiling>, d: string, e: string)
    ensures GrandTotal(s) == GrandTotal(WithoutDimension(s, d)) + Total(s, d)
    ensures Total(WithoutDimension(s, d), e) == if e == d then 0.0 else Total(s, e)
  {
    if s != [] {
      WithoutFacts(s[..|s| - 1], d, e);
      var w := WithoutDimension(s[..|s| - 1], d);
      if s[|s| - 1].dimension != d {
        assert (w + [s[|s| - 1]])[..|w|] == w;
      } else {
        assert w + [] == w;
      }
    }
  }

  /** Nothing is lost: the maxima of the result add up to all the maxima that went in. */
  lemma {:induction false} ResourcesConserved(s: seq<Ceiling>, r: seq<Ceiling>)
    requires forall i :: 0 <= i < |r| ==> r[i].maximum == Total(s, r[i].dimension)
    requires forall i, j :: 0 <= i < j < |r| ==> r[i].dimension != r[j].dimension
    requires forall d :: Total(s, d) != 0.0 ==> Mentions(r, d)
    ensures GrandTotal(r) == GrandTotal(s)
    decreases |r|
  {
    if r == [] {
      NothingLeft(s);
    } else {
      var n := |r| - 1;
      var d := r[n].dimension;
      var rest := WithoutDimension(s, d);
      WithoutFacts(s, d, d);
      forall i | 0 <= i < n
        ensures r[..n][i].maximum == Total(rest, r[..n][i].dimension)
      {
        WithoutFacts(s, d, r[i].dimension);
      }
      forall e | Total(rest, e) != 0.0
        ensures Mentions(r[..n], e)
      {
        WithoutFacts(s, d, e);
        var i :| 0 <= i < |r| && r[i].dimension == e;
        assert r[..n][i].dimension == e;
      }
      ResourcesConserved(rest, r[..n]);
    }
  }

  lemma {:induction false} NothingLeft(s: seq<Ceiling>)
    requires forall d :: Total(s, d) == 0.0
    ensures GrandTotal(s) == 0.0
    decreases |s|
  {
    if s != [] {
      var d := s[|s| - 1].dimension;
      var rest := WithoutDimension(s, d);
      WithoutFacts(s, d, d);
      WithoutShrinks(s);
      forall e
        ensures Total(rest, e) == 0.0
      {
        WithoutFacts(s, d, e);
      }
      NothingLeft(rest);
    }
  }

  lemma {:induction false} WithoutLength(s: seq<Ceiling>, d: string)
    ensures |WithoutDimension(s, d)| <= |s|
  {
    if s != [] {
      WithoutLength(s[..|s| - 1], d);
    }
  }

  lemma WithoutShrinks(s: seq<Ceiling>)
    requires s != []
    ensures |WithoutDimension(s, s[|s| - 1].dimension)| < |s|
  {
    WithoutLength(s[..|s| - 1], s[|s| - 1].dimension);
  }

  lemma SumsConserve(s: seq<Ceiling>, r: seq<Ceiling>)
    requires Sums(s, r)
    ensures GrandTotal(r) == GrandTotal(s)
  {
    forall d | Total(s, d) != 0.0
      ensures Mentions(r, d)
    {
      if !Mentions(s, d) { TotalOfUnmentioned(s, d); }
    }
    ResourcesConserved(s, r);
  }
}
