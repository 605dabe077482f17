/** Code-point order on text, and sorting of keyed entries by it.

    Sorting keeps the members and, with distinct keys, forgets the order they came in.
 */
module TextOrder {

  type Entry<V> = (string, V)

  /** Strictly before, character by character; a proper prefix comes first. */
  predicate Before(a: string, b: string)
    decreases |a|
  {
    if b == "" then false
    else if a == "" then true
    else a[0] < b[0] || (a[0] == b[0] && Before(a[1..], b[1..]))
  }

  lemma {:induction false} BeforeIsStrict(a: string)
    ensures !Before(a, a)
  {
    if a != "" {
      BeforeIsStrict(a[1..]);
    }
  }

  lemma {:induction false} BeforeIsTotal(a: string, b: string)
    ensures Before(a, b) || a == b || Before(b, a)
  {
    if a != "" && b != "" && a[0] == b[0] {
      BeforeIsTotal(a[1..], b[1..]);
      assert a[1..] == b[1..] ==> a == [a[0]] + a[1..] == [b[0]] + b[1..] == b;
    }
  }

  lemma {:induction false} BeforeIsTransitive(a: string, b: string, c: string)
    requires Before(a, b) && Before(b, c)
    ensures Before(a, c)
  {
    if a != "" && a[0] == b[0] == c[0] {
      BeforeIsTransitive(a[1..], b[1..], c[1..]);
    }
  }

  lemma {:induction false} BeforeIsAsymmetric(a: string, b: string)
    requires Before(a, b)
    ensures !Before(b, a) && a != b
  {
    BeforeIsStrict(a);
    if Before(b, a) {
      BeforeIsTransitive(a, b, a);
    }
  }

  function Insert<V>(e: Entry<V>, items: seq<Entry<V>>): seq<Entry<V>> {
    if items == [] then [e]
    else if Before(items[0].0, e.0) then [items[0]] + Insert(e, items[1..])
    else [e] + items
  }

  function SortByKey<V>(items: seq<Entry<V>>): seq<Entry<V>> {
    if items == [] then [] else Insert(items[0], SortByKey(items[1..]))
  }

  ghost predicate DistinctKeys<V>(items: seq<Entry<V>>) {
    forall i, j :: 0 <= i < j < |items| ==> items[i].0 != items[j].0
  }

  ghost predicate Ascending<V>(items: seq<Entry<V>>) {
    forall i, j :: 0 <= i < j < |items| ==> Before(items[i].0, items[j].0)
  }

  lemma {:induction false} InsertKeepsMembers<V(!new)>(e: Entry<V>, items: seq<Entry<V>>)
    ensures |Insert(e, items)| == |items| + 1
    ensures forall x: Entry<V> :: x in Insert(e, items) <==> x == e || x in items
  {
    if items != [] {
      assert items == [items[0]] + items[1..];
      InsertKeepsMembers(e, items[1..]);
    }
  }

  lemma {:induction false} SortKeepsMembers<V(!new)>(items: seq<Entry<V>>)
    ensures |SortByKey(items)| == |items|
    ensures forall x: Entry<V> :: x in SortByKey(items) <==> x in items
  {
    if items != [] {
      assert items == [items[0]] + items[1..];
      SortKeepsMembers(items[1..]);
      InsertKeepsMembers(items[0], SortByKey(items[1..]));
    }
  }

  lemma {:induction false} InsertAscends<V(!new)>(e: Entry<V>, items: seq<Entry<V>>)
    requires Ascending(items)
    requires forall x: Entry<V> :: x in items ==> x.0 != e.0
    ensures Ascending(Insert(e, items))
  {
    if items != [] {
      BeforeIsTotal(items[0].0, e.0);
      if Before(items[0].0, e.0) {
        assert forall x: Entry<V> :: x in items[1..] ==> x in items;
        InsertAscends(e, items[1..]);
        InsertKeepsMembers(e, items[1..]);
        forall x: Entry<V> | x in Insert(e, items[1..])
          ensures Before(items[0].0, x.0)
        {
          if x != e {
            assert x in items[1..];
            var k :| 0 <= k < |items[1..]| && items[1..][k] == x;
            assert x == items[k + 1];
          }
        }
      } else {
        forall x: Entry<V> | x in items
          ensures Before(e.0, x.0)
        {
          var k :| 0 <= k < |items| && items[k] == x;
          if k > 0 {
            BeforeIsTransitive(e.0, items[0].0, x.0);
          }
        }
      }
    }
  }

  lemma {:induction false} SortAscends<V(!new)>(items: seq<Entry<V>>)
    requires DistinctKeys(items)
    ensures Ascending(SortByKey(items))
  {
    if items != [] {
      SortAscends(items[1..]);
      SortKeepsMembers(items[1..]);
      var sorted := SortByKey(items[1..]);
      forall x: Entry<V> | x in sorted
        ensures x.0 != items[0].0
      {
        var k :| 0 <= k < |sorted| && sorted[k] == x;
        assert sorted[k] in sorted;
        assert sorted[k] in items[1..];
      }
      InsertAscends(items[0], SortByKey(items[1..]));
    }
  }

  lemma AscendingHasDistinctKeys<V(!new)>(items: seq<Entry<V>>)
    requires Ascending(items)
    ensures DistinctKeys(items)
  {
    forall i, j | 0 <= i < j < |items|
      ensures items[i].0 != items[j].0
    {
      BeforeIsAsymmetric(items[i].0, items[j].0);
    }
  }

  lemma FirstIsLeast<V(!new)>(items: seq<Entry<V>>, x: Entry<V>)
    requires Ascending(items) && x in items
    ensures x == items[0] || Before(items[0].0, x.0)
  {
    var k :| 0 <= k < |items| && items[k] == x;
  }

  lemma FirstIsMember<V(!new)>(a: seq<Entry<V>>)
    ensures a != [] ==> exists x: Entry<V> :: x in a && x == a[0]
  {
    if a != [] {
      var x := a[0];
      assert x in a && x == a[0];
    }
  }

  /** Sorted entries are determined by their members. */
  lemma {:induction false} AscendingIsUnique<V(!new)>(a: seq<Entry<V>>, b: seq<Entry<V>>)
    requires Ascending(a) && Ascending(b)
    requires forall x: Entry<V> :: x in a <==> x in b
    ensures a == b
  {
    FirstIsMember(a);
    FirstIsMember(b);
    if a != [] {
      var x: Entry<V> :| x in a && x == a[0];
      var y: Entry<V> :| y in b && y == b[0];
      FirstIsLeast(b, x);
      FirstIsLeast(a, y);
      if x != y {
        BeforeIsAsymmetric(x.0, y.0);
      }
      forall z: Entry<V>
        ensures z in a[1..] <==> z in b[1..]
      {
        TailMembers(a, z);
        TailMembers(b, z);
      }
      AscendingIsUnique(a[1..], b[1..]);
      assert a == [a[0]] + a[1..] && b == [b[0]] + b[1..];
    }
  }

  lemma TailMembers<V(!new)>(a: seq<Entry<V>>, x: Entry<V>)
    requires Ascending(a) && a != []
    ensures x in a[1..] <==> x in a && x != a[0]
  {
    AscendingHasDistinctKeys(a);
    assert a == [a[0]] + a[1..];
    if x in a[1..] {
      var k :| 0 <= k < |a[1..]| && a[1..][k] == x;
      assert x == a[k + 1];
    }
  }

  /** Sorting forgets the order the entries came in, and nothing else. */
  lemma SortForgetsOrder<V(!new)>(a: seq<Entry<V>>, b: seq<Entry<V>>)
    requires DistinctKeys(a) && DistinctKeys(b)
    ensures SortByKey(a) == SortByKey(b) <==> (forall x: Entry<V> :: x in a <==> x in b)
  {
    SortKeepsMembers(a);
    SortKeepsMembers(b);
    if forall x: Entry<V> :: x in a <==> x in b {
      SortAscends(a);
      SortAscends(b);
      AscendingIsUnique(SortByKey(a), SortByKey(b));
    }
  }

  lemma SortOfAscending<V(!new)>(a: seq<Entry<V>>)
    requires Ascending(a)
    ensures SortByKey(a) == a
  {
    AscendingHasDistinctKeys(a);
    SortAscends(a);
    SortKeepsMembers(a);
    AscendingIsUnique(SortByKey(a), a);
  }
}
