/** JSON trees and the canonical printer of `canonical_json_bytes`.

    Canonical form sorts the entries of every object by key.
 */
module Json {
  import opened TextOrder
  import opened Digits

  type Field = Entry<Json>

  /** A normalised value.  An object keeps its fields in insertion order. */
  datatype Json =
    | Null
    | Bool(flag: bool)
    | Int(n: int)
    | Str(text: string)
    | Arr(items: seq<Json>)
    | Obj(fields: seq<Field>)

  // ---- well-formedness: dictionaries have distinct keys ----

  ghost predicate WellFormed(j: Json)
    decreases j, 1
  {
    match j
    case Arr(items) => AllWellFormed(items)
    case Obj(fields) => DistinctKeys(fields) && FieldsWellFormed(fields)
    case _ => true
  }

  ghost predicate AllWellFormed(items: seq<Json>)
    decreases items, 0
  {
    items == [] || (WellFormed(items[0]) && AllWellFormed(items[1..]))
  }

  ghost predicate FieldWellFormed(f: Field)
    decreases f, 2
  {
    WellFormed(f.1)
  }

  ghost predicate FieldsWellFormed(fields: seq<Field>)
    decreases fields, 0
  {
    fields == [] || (FieldWellFormed(fields[0]) && FieldsWellFormed(fields[1..]))
  }

  // ---- canonical form: every object sorted by key ----

  function Canonical(j: Json): Json
    decreases j, 1
  {
    match j
    case Arr(items) => Arr(CanonicalItems(items))
    case Obj(fields) => Obj(SortByKey(CanonicalFields(fields)))
    case _ => j
  }

  function CanonicalItems(items: seq<Json>): (r: seq<Json>)
    ensures |r| == |items|
    decreases items, 0
  {
    if items == [] then [] else [Canonical(items[0])] + CanonicalItems(items[1..])
  }

  function CanonicalField(f: Field): Field
    decreases f, 2
  {
    (f.0, Canonical(f.1))
  }

  function CanonicalFields(fields: seq<Field>): (r: seq<Field>)
    ensures |r| == |fields|
    decreases fields, 0
  {
    if fields == [] then []
    else [CanonicalField(fields[0])] + CanonicalFields(fields[1..])
  }

  // ---- writing ----

  function HexDigit(d: nat): char
    requires d < 16
  {
    if d < 10 then ('0' as int + d) as char else ('a' as int + d - 10) as char
  }

  function EscapeChar(c: char): string {
    if c == '"' then "\\\""
    else if c == '\\' then "\\\\"
    else if c == '\n' then "\\n"
    else if c == '\r' then "\\r"
    else if c == '\t' then "\\t"
    else if c as int == 8 then "\\b"
    else if c as int == 12 then "\\f"
    else if c as int < 32 then "\\u00" + [HexDigit(c as int / 16), HexDigit(c as int % 16)]
    else [c]
  }

  function Escape(text: string): string {
    if text == "" then "" else EscapeChar(text[0]) + Escape(text[1..])
  }

  function WriteString(text: string): string {
    "\"" + (Escape(text) + "\"")
  }

  function WriteInt(n: int): string {
    if n < 0 then "-" + ToText(-n) else ToText(n)
  }

  /** Compact text of a tree, fields in the order they stand. */
  function Write(j: Json): string
    decreases j, 1
  {
    match j
    case Null => "null"
    case Bool(flag) => if flag then "true" else "false"
    case Int(n) => WriteInt(n)
    case Str(text) => WriteString(text)
    case Arr(items) => if items == [] then "[]" else "[" + (Write(items[0]) + WriteItems(items[1..]))
    case Obj(fields) =>
      if fields == [] then "{}" else "{" + (WriteField(fields[0]) + WriteFields(fields[1..]))
  }

  function WriteField(f: Field): string
    decreases f, 2
  {
    WriteString(f.0) + (":" + Write(f.1))
  }

  function WriteItems(items: seq<Json>): string
    decreases items, 0
  {
    if items == [] then "]" else "," + (Write(items[0]) + WriteItems(items[1..]))
  }

  function WriteFields(fields: seq<Field>): string
    decreases fields, 0
  {
    if fields == [] then "}" else "," + (WriteField(fields[0]) + WriteFields(fields[1..]))
  }

  /** `canonical_json_bytes` on a normalised tree, as text. */
  function Print(j: Json): string {
    Write(Canonical(j))
  }

  /** `canonical_sha256`, for a digest function `h`. */
  function Digest(h: string -> string, j: Json): string {
    h(Print(j))
  }

  // ---- the same value, whatever the insertion order ----

  ghost predicate Same(a: Json, b: Json)
    decreases a
  {
    match a
    case Arr(items) =>
      && b.Arr? && |items| == |b.items|
      && forall i :: 0 <= i < |items| ==> Same(items[i], b.items[i])
    case Obj(fields) =>
      && b.Obj? && |fields| == |b.fields|
      && forall i :: 0 <= i < |fields| ==>
           exists k :: 0 <= k < |b.fields| && fields[i].0 == b.fields[k].0 && Same(fields[i].1, b.fields[k].1)
    case _ => a == b
  }

  lemma {:induction false} CanonicalItemsAt(items: seq<Json>, i: nat)
    requires i < |items|
    ensures CanonicalItems(items)[i] == Canonical(items[i])
  {
    if i > 0 {
      CanonicalItemsAt(items[1..], i - 1);
    }
  }

  lemma {:induction false} CanonicalFieldsAt(fields: seq<Field>, i: nat)
    requires i < |fields|
    ensures CanonicalFields(fields)[i] == CanonicalField(fields[i])
  {
    if i > 0 {
      CanonicalFieldsAt(fields[1..], i - 1);
    }
  }

  lemma CanonicalFieldsKeys(fields: seq<Field>)
    requires DistinctKeys(fields)
    ensures DistinctKeys(CanonicalFields(fields))
  {
    forall i, j | 0 <= i < j < |fields|
      ensures CanonicalFields(fields)[i].0 != CanonicalFields(fields)[j].0
    {
      CanonicalFieldsAt(fields, i);
      CanonicalFieldsAt(fields, j);
    }
  }

  lemma {:induction false} ItemsWellFormedAt(items: seq<Json>, i: nat)
    requires AllWellFormed(items) && i < |items|
    ensures WellFormed(items[i])
  {
    if i > 0 {
      ItemsWellFormedAt(items[1..], i - 1);
    }
  }

  lemma {:induction false} FieldsWellFormedAt(fields: seq<Field>, i: nat)
    requires FieldsWellFormed(fields) && i < |fields|
    ensures WellFormed(fields[i].1)
  {
    if i > 0 {
      FieldsWellFormedAt(fields[1..], i - 1);
    }
  }

  // ---- canonical form and sameness ----

  /** Canonical forms agree exactly when the trees are the same as values. */
  lemma {:induction false} SameIffCanonical(a: Json, b: Json)
    requires WellFormed(a) && WellFormed(b)
    ensures Same(a, b) <==> Canonical(a) == Canonical(b)
    decreases a
  {
    if a.Arr? && b.Arr? && |a.items| == |b.items| {
      forall i | 0 <= i < |a.items|
        ensures Same(a.items[i], b.items[i]) <==> CanonicalItems(a.items)[i] == CanonicalItems(b.items)[i]
      {
        ItemsWellFormedAt(a.items, i);
        ItemsWellFormedAt(b.items, i);
        CanonicalItemsAt(a.items, i);
        CanonicalItemsAt(b.items, i);
        SameIffCanonical(a.items[i], b.items[i]);
      }
    } else if a.Obj? && b.Obj? {
      SameFieldsIffSorted(a, b);
    }
  }

  /** Field `i` of `fields` has a partner in `others`, as values and as canonical fields. */
  lemma {:induction false} PartnerIffMember(a: Json, i: nat, others: seq<Field>)
    requires WellFormed(a) && a.Obj? && i < |a.fields| && FieldsWellFormed(others)
    ensures (exists k :: 0 <= k < |others| && a.fields[i].0 == others[k].0 && Same(a.fields[i].1, others[k].1))
       <==> CanonicalField(a.fields[i]) in CanonicalFields(others)
    decreases a, 0
  {
    var f := a.fields[i];
    FieldsWellFormedAt(a.fields, i);
    assert f in a.fields && f.1 < f;
    forall k | 0 <= k < |others|
      ensures CanonicalFields(others)[k] == CanonicalField(others[k])
      ensures Same(f.1, others[k].1) <==> Canonical(f.1) == Canonical(others[k].1)
    {
      CanonicalFieldsAt(others, k);
      FieldsWellFormedAt(others, k);
      SameIffCanonical(f.1, others[k].1);
    }
    if k :| 0 <= k < |others| && f.0 == others[k].0 && Same(f.1, others[k].1) {
      assert CanonicalFields(others)[k] == CanonicalField(f);
    }
  }

  lemma {:induction false} SameFieldsIffSorted(a: Json, b: Json)
    requires WellFormed(a) && WellFormed(b) && a.Obj? && b.Obj?
    ensures Same(a, b) <==> Canonical(a) == Canonical(b)
    decreases a, 1
  {
    var fa, fb := CanonicalFields(a.fields), CanonicalFields(b.fields);
    CanonicalFieldsKeys(a.fields);
    CanonicalFieldsKeys(b.fields);
    SortedEqualIffMembers(fa, fb);
    forall i | 0 <= i < |a.fields|
      ensures (exists k :: 0 <= k < |b.fields| && a.fields[i].0 == b.fields[k].0 && Same(a.fields[i].1, b.fields[k].1))
         <==> fa[i] in fb
    {
      PartnerIffMember(a, i, b.fields);
      CanonicalFieldsAt(a.fields, i);
    }
  }

  lemma SortedEqualIffMembers(fa: seq<Field>, fb: seq<Field>)
    requires DistinctKeys(fa) && DistinctKeys(fb)
    ensures SortByKey(fa) == SortByKey(fb) <==> |fa| == |fb| && forall i :: 0 <= i < |fa| ==> fa[i] in fb
  {
    SortForgetsOrder(fa, fb);
    SortKeepsMembers(fa);
    SortKeepsMembers(fb);
    if |fa| == |fb| && forall i :: 0 <= i < |fa| ==> fa[i] in fb {
      SubsetOfEqualSize(fa, fb);
    }
    if SortByKey(fa) == SortByKey(fb) {
      assert forall i :: 0 <= i < |fa| ==> fa[i] in fa;
    }
  }

  function KeySet(fields: seq<Field>): set<string> {
    set i | 0 <= i < |fields| :: fields[i].0
  }

  lemma {:induction false} KeySetSize(fields: seq<Field>)
    requires DistinctKeys(fields)
    ensures |KeySet(fields)| == |fields|
  {
    if fields != [] {
      KeySetSize(fields[1..]);
      KeySetStep(fields);
    }
  }

  lemma KeySetStep(fields: seq<Field>)
    requires fields != []
    ensures KeySet(fields) == {fields[0].0} + KeySet(fields[1..])
  {
    forall key
      ensures key in KeySet(fields) <==> key in {fields[0].0} + KeySet(fields[1..])
    {
      if key in KeySet(fields) {
        var i :| 0 <= i < |fields| && fields[i].0 == key;
        assert i > 0 ==> fields[1..][i - 1].0 == key;
      }
      if key in KeySet(fields[1..]) {
        var i :| 0 <= i < |fields[1..]| && fields[1..][i].0 == key;
        assert fields[i + 1].0 == key;
      }
    }
  }

  lemma SubsetOfEqualSize(fa: seq<Field>, fb: seq<Field>)
    requires DistinctKeys(fa) && DistinctKeys(fb) && |fa| == |fb|
    requires forall i :: 0 <= i < |fa| ==> fa[i] in fb
    ensures forall x: Field :: x in fa <==> x in fb
  {
    KeySetSize(fa);
    KeySetSize(fb);
    assert KeySet(fa) <= KeySet(fb);
    SubsetOfSize(KeySet(fa), KeySet(fb));
    forall x: Field | x in fb
      ensures x in fa
    {
      assert x.0 in KeySet(fb);
      var i :| 0 <= i < |fa| && fa[i].0 == x.0;
      assert fa[i] in fb;
    }
  }

  lemma SubsetOfSize(a: set<string>, b: set<string>)
    requires a <= b && |a| == |b|
    ensures a == b
  {
    assert |b - a| == 0;
  }
}
