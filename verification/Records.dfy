/** Closed JSON records: objects with a fixed set of keys, read back by key.

    Reading forgets the order of fields and nothing else.
 */
module Records {
  import opened Wrappers
  import opened Lists
  import opened TextOrder
  import opened Json
  import opened JsonParser

  function Zip(keys: seq<string>, values: seq<Json>): (r: seq<Field>)
    requires |keys| == |values|
    ensures |r| == |keys| && forall i :: 0 <= i < |r| ==> r[i] == (keys[i], values[i])
  {
    seq(|keys|, i requires 0 <= i < |keys| => (keys[i], values[i]))
  }

  function Record(keys: seq<string>, values: seq<Json>): Json
    requires |keys| == |values|
  {
    Obj(Zip(keys, values))
  }

  /** The object has this field. */
  predicate Has(j: Json, key: string, value: Json) {
    j.Obj? && (key, value) in j.fields
  }

  lemma Column(keys: seq<string>, values: seq<Json>, i: nat)
    requires |keys| == |values| && i < |keys|
    ensures Has(Record(keys, values), keys[i], values[i])
  {
    assert Zip(keys, values)[i] == (keys[i], values[i]);
  }

  function Get(fields: seq<Field>, key: string): Json {
    if fields == [] then Null
    else if fields[0].0 == key then fields[0].1
    else Get(fields[1..], key)
  }

  function Gather(fields: seq<Field>, keys: seq<string>): (r: seq<Json>)
    ensures |r| == |keys| && forall i :: 0 <= i < |r| ==> r[i] == Get(fields, keys[i])
  {
    seq(|keys|, i requires 0 <= i < |keys| => Get(fields, keys[i]))
  }

  predicate ExactKeys(fields: seq<Field>, keys: seq<string>) {
    && (forall i :: 0 <= i < |fields| ==> fields[i].0 in keys)
    && (forall k :: 0 <= k < |keys| ==> HasKey(keys[k], fields))
  }

  /** `_require_exact_mapping`: the values under `keys`, if these are exactly the object's keys. */
  function ReadRecord(keys: seq<string>, j: Json): (r: Option<seq<Json>>)
    ensures r.Some? ==> |r.value| == |keys|
  {
    if !j.Obj? || !ExactKeys(j.fields, keys) then None else Some(Gather(j.fields, keys))
  }

  lemma {:induction false} GetOfMember(fields: seq<Field>, i: nat)
    requires DistinctKeys(fields) && i < |fields|
    ensures Get(fields, fields[i].0) == fields[i].1
  {
    if i > 0 {
      GetOfMember(fields[1..], i - 1);
    }
  }

  lemma SortedZipMembers(keys: seq<string>, values: seq<Json>)
    requires |keys| == |values| && Distinct(keys)
    ensures var sorted := SortByKey(CanonicalFields(Zip(keys, values)));
            && DistinctKeys(sorted) && |sorted| == |keys|
            && (forall i :: 0 <= i < |keys| ==> (keys[i], Canonical(values[i])) in sorted)
            && (forall f: Field :: f in sorted ==> f.0 in keys)
  {
    var fields := Zip(keys, values);
    var canonical := CanonicalFields(fields);
    CanonicalFieldsKeys(fields);
    SortKeepsMembers(canonical);
    SortAscends(canonical);
    AscendingHasDistinctKeys(SortByKey(canonical));
    forall i | 0 <= i < |keys|
      ensures (keys[i], Canonical(values[i])) in SortByKey(canonical)
    {
      CanonicalFieldsAt(fields, i);
      var f: Field := (keys[i], Canonical(values[i]));
      assert canonical[i] == f;
      assert f in canonical;
    }
    forall f: Field | f in SortByKey(canonical)
      ensures f.0 in keys
    {
      assert f in canonical;
      var i :| 0 <= i < |canonical| && canonical[i] == f;
      CanonicalFieldsAt(fields, i);
    }
  }

  lemma GetFromSorted(keys: seq<string>, values: seq<Json>, i: nat)
    requires |keys| == |values| && Distinct(keys) && i < |keys|
    ensures Get(SortByKey(CanonicalFields(Zip(keys, values))), keys[i]) == CanonicalItems(values)[i]
  {
    var sorted := SortByKey(CanonicalFields(Zip(keys, values)));
    SortedZipMembers(keys, values);
    var f: Field := (keys[i], Canonical(values[i]));
    assert f in sorted;
    var k :| 0 <= k < |sorted| && sorted[k] == f;
    GetOfMember(sorted, k);
    CanonicalItemsAt(values, i);
  }

  lemma ReadOfFields(keys: seq<string>, fields: seq<Field>, values: seq<Json>)
    requires ExactKeys(fields, keys) && |keys| == |values|
    requires forall i :: 0 <= i < |keys| ==> Get(fields, keys[i]) == values[i]
    ensures ReadRecord(keys, Obj(fields)) == Some(values)
  {
    assert Gather(fields, keys) == values;
  }

  lemma GetsFromSorted(keys: seq<string>, values: seq<Json>, sorted: seq<Field>, expected: seq<Json>)
    requires |keys| == |values| == |expected| && Distinct(keys)
    requires sorted == SortByKey(CanonicalFields(Zip(keys, values))) && expected == CanonicalItems(values)
    ensures forall i :: 0 <= i < |keys| ==> Get(sorted, keys[i]) == expected[i]
  {
    forall i | 0 <= i < |keys|
      ensures Get(sorted, keys[i]) == expected[i]
    {
      GetFromSorted(keys, values, i);
    }
  }

  /** Reading a record by key gives back its values, whatever order the fields are in. */
  lemma ReadOfCanonicalRecord(keys: seq<string>, values: seq<Json>)
    requires |keys| == |values| && Distinct(keys)
    ensures ReadRecord(keys, Canonical(Record(keys, values))) == Some(CanonicalItems(values))
  {
    var sorted := SortByKey(CanonicalFields(Zip(keys, values)));
    assert Canonical(Record(keys, values)) == Obj(sorted);
    GetsFromSorted(keys, values, sorted, CanonicalItems(values));
    SortedHasExactKeys(keys, values);
    ReadOfFields(keys, sorted, CanonicalItems(values));
  }

  lemma SortedHasExactKeys(keys: seq<string>, values: seq<Json>)
    requires |keys| == |values| && Distinct(keys)
    ensures ExactKeys(SortByKey(CanonicalFields(Zip(keys, values))), keys)
  {
    var sorted := SortByKey(CanonicalFields(Zip(keys, values)));
    SortedZipMembers(keys, values);
    forall k | 0 <= k < |keys|
      ensures HasKey(keys[k], sorted)
    {
      var f: Field := (keys[k], Canonical(values[k]));
      assert f in sorted;
    }
    forall i | 0 <= i < |sorted|
      ensures sorted[i].0 in keys
    {
      var f: Field := sorted[i];
      assert f in sorted;
    }
  }

  lemma RecordWellFormed(keys: seq<string>, values: seq<Json>)
    requires |keys| == |values| && Distinct(keys) && AllWellFormed(values)
    ensures WellFormed(Record(keys, values))
  {
    ZipWellFormed(keys, values);
  }

  lemma {:induction false} ZipWellFormed(keys: seq<string>, values: seq<Json>)
    requires |keys| == |values| && AllWellFormed(values)
    ensures FieldsWellFormed(Zip(keys, values))
  {
    if keys != [] {
      ZipWellFormed(keys[1..], values[1..]);
      assert Zip(keys, values)[1..] == Zip(keys[1..], values[1..]);
    }
  }

  /** Trees without objects, which canonical form leaves alone. */
  predicate ObjectFree(j: Json)
    decreases j, 1
  {
    match j
    case Arr(items) => forall i :: 0 <= i < |items| ==> ObjectFree(items[i])
    case Obj(_) => false
    case _ => true
  }

  lemma {:induction false} ObjectFreeIsFixed(j: Json)
    requires ObjectFree(j)
    ensures Canonical(j) == j && WellFormed(j)
    decreases j, 1
  {
    if j.Arr? {
      ItemsAreFixed(j.items);
    }
  }

  lemma {:induction false} ItemsAreFixed(values: seq<Json>)
    requires forall i :: 0 <= i < |values| ==> ObjectFree(values[i])
    ensures CanonicalItems(values) == values && AllWellFormed(values)
    decreases values, 0
  {
    if values != [] {
      ObjectFreeIsFixed(values[0]);
      ItemsAreFixed(values[1..]);
      assert values == [values[0]] + values[1..];
    }
  }

  function Texts(values: seq<string>): (r: seq<Json>)
    ensures |r| == |values| && forall i :: 0 <= i < |r| ==> r[i] == Str(values[i])
  {
    seq(|values|, i requires 0 <= i < |values| => Str(values[i]))
  }

  /** Reading back a record whose values contain no objects gives the values themselves. */
  lemma ReadOfFlatRecord(keys: seq<string>, values: seq<Json>)
    requires |keys| == |values| && Distinct(keys)
    requires forall i :: 0 <= i < |values| ==> ObjectFree(values[i])
    ensures ReadRecord(keys, Canonical(Record(keys, values))) == Some(values)
    ensures WellFormed(Record(keys, values))
  {
    ReadOfCanonicalRecord(keys, values);
    ItemsAreFixed(values);
    RecordWellFormed(keys, values);
  }

  /** A canonical record depends on the canonical forms of its values only. */
  lemma CanonicalRecordCongruent(keys: seq<string>, a: seq<Json>, b: seq<Json>)
    requires |keys| == |a| == |b| && CanonicalItems(a) == CanonicalItems(b)
    ensures Canonical(Record(keys, a)) == Canonical(Record(keys, b))
  {
    var fa, fb := Zip(keys, a), Zip(keys, b);
    forall i | 0 <= i < |keys|
      ensures CanonicalFields(fa)[i] == CanonicalFields(fb)[i]
    {
      CanonicalFieldsAt(fa, i);
      CanonicalFieldsAt(fb, i);
      CanonicalItemsAt(a, i);
      CanonicalItemsAt(b, i);
    }
    assert CanonicalFields(fa) == CanonicalFields(fb);
  }

  lemma MatchingField(keys: seq<string>, fields: seq<Field>, v: seq<Json>, i: nat, k: nat)
    requires DistinctKeys(fields) && |keys| == |v| && i < |fields| && k < |keys|
    requires fields[i].0 == keys[k] && v[k] == Get(fields, keys[k])
    ensures CanonicalFields(fields)[i] == CanonicalFields(Zip(keys, v))[k]
  {
    GetOfMember(fields, i);
    CanonicalFieldsAt(fields, i);
    CanonicalFieldsAt(Zip(keys, v), k);
  }

  /** A record that was read is, up to field order, the record of its keys and values. */
  lemma RecordOfRead(keys: seq<string>, j: Json, v: seq<Json>)
    requires WellFormed(j) && Distinct(keys) && ReadRecord(keys, j) == Some(v)
    ensures Canonical(j) == Canonical(Record(keys, v))
  {
    var fields, zipped := j.fields, Zip(keys, v);
    var a, b := CanonicalFields(fields), CanonicalFields(zipped);
    CanonicalFieldsKeys(fields);
    CanonicalFieldsKeys(zipped);
    forall x: Field
      ensures x in a <==> x in b
    {
      if x in a {
        var i :| 0 <= i < |a| && a[i] == x;
        var k :| 0 <= k < |keys| && keys[k] == fields[i].0;
        MatchingField(keys, fields, v, i, k);
      }
      if x in b {
        var k :| 0 <= k < |b| && b[k] == x;
        var i :| 0 <= i < |fields| && fields[i].0 == keys[k];
        MatchingField(keys, fields, v, i, k);
      }
    }
    SortForgetsOrder(a, b);
  }

  lemma {:induction false} GetWellFormed(fields: seq<Field>, key: string)
    requires FieldsWellFormed(fields)
    ensures WellFormed(Get(fields, key))
  {
    if fields != [] {
      GetWellFormed(fields[1..], key);
    }
  }

  /** Trees in which neither `true` nor `false` occurs. */
  predicate BooleanFree(j: Json)
    decreases j
  {
    match j
    case Bool(_) => false
    case Arr(items) => forall i :: 0 <= i < |items| ==> BooleanFree(items[i])
    case Obj(fields) => forall i :: 0 <= i < |fields| ==> BooleanFree(fields[i].1)
    case _ => true
  }

  lemma {:induction false} GetBooleanFree(fields: seq<Field>, key: string)
    requires forall i :: 0 <= i < |fields| ==> BooleanFree(fields[i].1)
    ensures BooleanFree(Get(fields, key))
  {
    if fields != [] {
      GetBooleanFree(fields[1..], key);
    }
  }

  lemma {:induction false} EachWellFormed(items: seq<Json>)
    requires forall i :: 0 <= i < |items| ==> WellFormed(items[i])
    ensures AllWellFormed(items)
  {
    if items != [] {
      EachWellFormed(items[1..]);
    }
  }

  /** Values read from a well-formed record are well formed, and free of booleans if it is. */
  lemma ReadKeeps(keys: seq<string>, j: Json, v: seq<Json>)
    requires WellFormed(j) && ReadRecord(keys, j) == Some(v)
    ensures forall i :: 0 <= i < |v| ==> WellFormed(v[i])
    ensures BooleanFree(j) ==> forall i :: 0 <= i < |v| ==> BooleanFree(v[i])
  {
    forall i | 0 <= i < |v|
      ensures WellFormed(v[i]) && (BooleanFree(j) ==> BooleanFree(v[i]))
    {
      GetWellFormed(j.fields, keys[i]);
      if BooleanFree(j) {
        GetBooleanFree(j.fields, keys[i]);
      }
    }
  }

  /** Records that differ in one canonical value print differently. */
  lemma RecordsDiffer(keys: seq<string>, a: seq<Json>, b: seq<Json>, i: nat)
    requires |keys| == |a| == |b| && Distinct(keys) && i < |keys|
    requires WellFormed(Record(keys, a)) && WellFormed(Record(keys, b)) && Canonical(a[i]) != Canonical(b[i])
    ensures Print(Record(keys, a)) != Print(Record(keys, b))
  {
    ParseOfPrint(Record(keys, a));
    ParseOfPrint(Record(keys, b));
    ReadOfCanonicalRecord(keys, a);
    ReadOfCanonicalRecord(keys, b);
    CanonicalItemsAt(a, i);
    CanonicalItemsAt(b, i);
  }

  lemma FlatRecordsDiffer(keys: seq<string>, a: seq<Json>, b: seq<Json>, i: nat)
    requires |keys| == |a| == |b| && Distinct(keys) && i < |keys| && a[i] != b[i]
    requires forall k :: 0 <= k < |keys| ==> ObjectFree(a[k]) && ObjectFree(b[k])
    ensures Canonical(Record(keys, a)) != Canonical(Record(keys, b))
  {
    ReadOfFlatRecord(keys, a);
    ReadOfFlatRecord(keys, b);
  }

  /** The payload of a record's hash: the record under a tag. */
  function Tagged(tag: string, record: Json): Json {
    Arr([Str(tag), record])
  }

  lemma TaggedWellFormed(tag: string, keys: seq<string>, values: seq<Json>)
    requires |keys| == |values| && Distinct(keys) && forall i :: 0 <= i < |values| ==> WellFormed(values[i])
    ensures WellFormed(Tagged(tag, Record(keys, values)))
  {
    EachWellFormed(values);
    RecordWellFormed(keys, values);
    EachWellFormed([Str(tag), Record(keys, values)]);
  }

  /** Equal payload texts mean equal canonical values. */
  lemma PayloadBindsValues(tag: string, keys: seq<string>, a: seq<Json>, b: seq<Json>)
    requires |keys| == |a| == |b| && Distinct(keys)
    requires WellFormed(Tagged(tag, Record(keys, a))) && WellFormed(Tagged(tag, Record(keys, b)))
    requires Print(Tagged(tag, Record(keys, a))) == Print(Tagged(tag, Record(keys, b)))
    ensures CanonicalItems(a) == CanonicalItems(b)
  {
    var x, y := Tagged(tag, Record(keys, a)), Tagged(tag, Record(keys, b));
    ParseOfPrint(x);
    ParseOfPrint(y);
    CanonicalItemsAt(x.items, 1);
    CanonicalItemsAt(y.items, 1);
    ReadOfCanonicalRecord(keys, a);
    ReadOfCanonicalRecord(keys, b);
  }

  lemma RecordBooleanFree(keys: seq<string>, values: seq<Json>)
    requires |keys| == |values| && forall i :: 0 <= i < |values| ==> BooleanFree(values[i])
    ensures BooleanFree(Record(keys, values))
  {
  }

  lemma {:induction false} CanonicalBooleanFree(j: Json)
    requires BooleanFree(j)
    ensures BooleanFree(Canonical(j))
    decreases j
  {
    match j
    case Arr(items) =>
      forall i | 0 <= i < |items|
        ensures BooleanFree(CanonicalItems(items)[i])
      {
        CanonicalItemsAt(items, i);
        CanonicalBooleanFree(items[i]);
      }
    case Obj(fields) =>
      var canonical := CanonicalFields(fields);
      var sorted := SortByKey(canonical);
      SortKeepsMembers(canonical);
      forall i | 0 <= i < |sorted|
        ensures BooleanFree(sorted[i].1)
      {
        var f: Field := sorted[i];
        assert f in sorted && f in canonical;
        var k :| 0 <= k < |canonical| && canonical[k] == f;
        CanonicalFieldsAt(fields, k);
        CanonicalBooleanFree(fields[k].1);
      }
    case _ =>
  }

  /** A tagged record without nested objects is determined by its text. */
  lemma TaggedRecordIsBound(tag: string, keys: seq<string>, a: seq<Json>, b: seq<Json>)
    requires Distinct(keys) && |keys| == |a| == |b|
    requires forall i :: 0 <= i < |keys| ==> ObjectFree(a[i]) && ObjectFree(b[i])
    requires Print(Arr([Str(tag), Record(keys, a)])) == Print(Arr([Str(tag), Record(keys, b)]))
    ensures a == b
  {
    var x, y := [Str(tag), Record(keys, a)], [Str(tag), Record(keys, b)];
    ReadOfFlatRecord(keys, a);
    ReadOfFlatRecord(keys, b);
    EachWellFormed(x);
    EachWellFormed(y);
    ParseOfPrint(Arr(x));
    ParseOfPrint(Arr(y));
    CanonicalItemsAt(x, 1);
    CanonicalItemsAt(y, 1);
  }
}
