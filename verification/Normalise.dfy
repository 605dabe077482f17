/** `_canonical_value`: turning Python values into canonical JSON trees.

    Records, sequences, decimals and times become plain trees before they are printed.
 */
module Normalise {
  import opened Wrappers
  import opened Json
  import opened CanonicalDecimals

  /** The values the contracts hand to `canonical_json_bytes`. */
  datatype Value =
    | VNone
    | VBool(flag: bool)
    | VInt(n: int)
    | VText(text: string)
    | VFloat
    | VDecimal(decimal: Decimal)
    | VDateTime(iso: string, aware: bool)
    | VDate(iso: string)
    | VEnum(member: Value)
    | VModel(dump: seq<(Value, Value)>)
    | VMapping(entries: seq<(Value, Value)>)
    | VSequence(items: seq<Value>)
    | VUnsupported

  datatype CanonicalError = NaiveDateTime | KeyNotText | FloatNotCanonical | Unsupported | BadDecimal(e: DecimalError)

  function Normalised(v: Value): Result<Json, CanonicalError>
    decreases v, 1
  {
    match v
    case VModel(dump) => NormalisedMapping(dump)
    case VEnum(member) => Normalised(member)
    case VDecimal(d) =>
      (match CanonicalText(d)
       case Ok(text) => Ok(Str(text))
       case Err(e) => Err(BadDecimal(e)))
    case VDateTime(iso, aware) => if aware then Ok(Str(iso)) else Err(NaiveDateTime)
    case VDate(iso) => Ok(Str(iso))
    case VMapping(entries) => NormalisedMapping(entries)
    case VSequence(items) =>
      (match NormalisedItems(items)
       case Ok(values) => Ok(Arr(values))
       case Err(e) => Err(e))
    case VNone => Ok(Null)
    case VBool(flag) => Ok(Bool(flag))
    case VInt(n) => Ok(Int(n))
    case VText(text) => Ok(Str(text))
    case VFloat => Err(FloatNotCanonical)
    case VUnsupported => Err(Unsupported)
  }

  predicate TextKeys(entries: seq<(Value, Value)>) {
    forall i :: 0 <= i < |entries| ==> entries[i].0.VText?
  }

  function NormalisedMapping(entries: seq<(Value, Value)>): Result<Json, CanonicalError>
    decreases entries, 1
  {
    if !TextKeys(entries) then Err(KeyNotText)
    else
      match NormalisedFields(entries)
      case Ok(fields) => Ok(Obj(fields))
      case Err(e) => Err(e)
  }

  function NormalisedItems(items: seq<Value>): Result<seq<Json>, CanonicalError>
    decreases items, 0
  {
    if items == [] then Ok([])
    else
      match Normalised(items[0])
      case Err(e) => Err(e)
      case Ok(first) =>
        match NormalisedItems(items[1..])
        case Err(e) => Err(e)
        case Ok(more) => Ok([first] + more)
  }

  function NormalisedField(entry: (Value, Value)): Result<Field, CanonicalError>
    requires entry.0.VText?
    decreases entry, 2
  {
    match Normalised(entry.1)
    case Err(e) => Err(e)
    case Ok(j) => Ok((entry.0.text, j))
  }

  function NormalisedFields(entries: seq<(Value, Value)>): Result<seq<Field>, CanonicalError>
    requires TextKeys(entries)
    decreases entries, 0
  {
    if entries == [] then Ok([])
    else
      match NormalisedField(entries[0])
      case Err(e) => Err(e)
      case Ok(first) =>
        match NormalisedFields(entries[1..])
        case Err(e) => Err(e)
        case Ok(more) => Ok([first] + more)
  }

  // ---- what a tree shows of a value ----

  /** Value `v` is shown by tree `j`: a record by its dump, an enumeration by its member, the rest kind by kind. */
  ghost predicate Shown(v: Value, j: Json)
    decreases v
  {
    match v
    case VNone => j == Null
    case VBool(flag) => j == Bool(flag)
    case VInt(n) => j == Int(n)
    case VText(text) => j == Str(text)
    case VFloat => false
    case VDecimal(d) => j.Str? && Shows(j.text, d)
    case VDateTime(iso, aware) => aware && j == Str(iso)
    case VDate(iso) => j == Str(iso)
    case VEnum(member) => Shown(member, j)
    case VModel(dump) =>
      j.Obj? && |j.fields| == |dump| &&
      forall i :: 0 <= i < |dump| ==> dump[i].0 == VText(j.fields[i].0) && Shown(dump[i].1, j.fields[i].1)
    case VMapping(entries) =>
      j.Obj? && |j.fields| == |entries| &&
      forall i :: 0 <= i < |entries| ==> entries[i].0 == VText(j.fields[i].0) && Shown(entries[i].1, j.fields[i].1)
    case VSequence(items) =>
      j.Arr? && |j.items| == |items| && forall i :: 0 <= i < |items| ==> Shown(items[i], j.items[i])
    case VUnsupported => false
  }

  /** Defect `e` occurs somewhere in `v`. */
  ghost predicate Occurs(v: Value, e: CanonicalError)
    decreases v
  {
    match v
    case VFloat => e == FloatNotCanonical
    case VUnsupported => e == Unsupported
    case VDateTime(_, aware) => !aware && e == NaiveDateTime
    case VDecimal(d) =>
      if d.NonFinite? then e == BadDecimal(NotFinite) else d.negative && d.coefficient > 0 && e == BadDecimal(Negative)
    case VEnum(member) => Occurs(member, e)
    case VModel(dump) =>
      exists i :: 0 <= i < |dump| && ((!dump[i].0.VText? && e == KeyNotText) || Occurs(dump[i].1, e))
    case VMapping(entries) =>
      exists i :: 0 <= i < |entries| && ((!entries[i].0.VText? && e == KeyNotText) || Occurs(entries[i].1, e))
    case VSequence(items) => exists i :: 0 <= i < |items| && Occurs(items[i], e)
    case _ => false
  }

  /** The items are normalised one by one, and the first defect met is reported. */
  lemma {:induction false} ItemsPointwise(items: seq<Value>)
    ensures match NormalisedItems(items)
            case Ok(js) => |js| == |items| && forall i :: 0 <= i < |items| ==> Normalised(items[i]) == Ok(js[i])
            case Err(e) => exists i :: 0 <= i < |items| && Normalised(items[i]) == Err(e)
  {
    if items != [] && Normalised(items[0]).Ok? {
      ItemsPointwise(items[1..]);
      if NormalisedItems(items[1..]).Err? {
        var i :| 0 <= i < |items[1..]| && Normalised(items[1..][i]) == Err(NormalisedItems(items[1..]).error);
        assert items[i + 1] == items[1..][i];
      }
    }
  }

  lemma {:induction false} FieldsPointwise(entries: seq<(Value, Value)>)
    requires TextKeys(entries)
    ensures match NormalisedFields(entries)
            case Ok(fields) =>
              && |fields| == |entries|
              && forall i :: 0 <= i < |entries| ==>
                   entries[i].0 == VText(fields[i].0) && Normalised(entries[i].1) == Ok(fields[i].1)
            case Err(e) => exists i :: 0 <= i < |entries| && Normalised(entries[i].1) == Err(e)
  {
    if entries != [] && Normalised(entries[0].1).Ok? {
      assert TextKeys(entries[1..]);
      FieldsPointwise(entries[1..]);
      if NormalisedFields(entries[1..]).Err? {
        var i :| 0 <= i < |entries[1..]| && Normalised(entries[1..][i].1) == Err(NormalisedFields(entries[1..]).error);
        assert entries[i + 1] == entries[1..][i];
      }
    }
  }

  /** Normalisation succeeds with the one tree that shows the value. */
  lemma {:induction false} NormalisedIffShown(v: Value, j: Json)
    ensures Normalised(v) == Ok(j) <==> Shown(v, j)
    decreases v
  {
    match v
    case VDecimal(d) =>
      if j.Str? {
        CanonicalTextIff(d, j.text);
      }
    case VEnum(member) => NormalisedIffShown(member, j);
    case VModel(dump) => MappingIffShown(dump, j);
    case VMapping(entries) => MappingIffShown(entries, j);
    case VSequence(items) =>
      ItemsPointwise(items);
      if j.Arr? && |j.items| == |items| {
        forall i | 0 <= i < |items|
          ensures Normalised(items[i]) == Ok(j.items[i]) <==> Shown(items[i], j.items[i])
        {
          NormalisedIffShown(items[i], j.items[i]);
        }
        if NormalisedItems(items).Ok? && forall i :: 0 <= i < |items| ==> Normalised(items[i]) == Ok(j.items[i]) {
          assert NormalisedItems(items).value == j.items;
        }
      }
    case _ =>
  }

  lemma {:induction false} MappingIffShown(entries: seq<(Value, Value)>, j: Json)
    ensures NormalisedMapping(entries) == Ok(j) <==>
              j.Obj? && |j.fields| == |entries| && forall i :: 0 <= i < |entries| ==>
                entries[i].0 == VText(j.fields[i].0) && Shown(entries[i].1, j.fields[i].1)
    decreases entries
  {
    if TextKeys(entries) {
      FieldsPointwise(entries);
      if j.Obj? && |j.fields| == |entries| {
        forall i | 0 <= i < |entries|
          ensures Normalised(entries[i].1) == Ok(j.fields[i].1) <==> Shown(entries[i].1, j.fields[i].1)
        {
          EntryIffShown(entries[i], j.fields[i].1);
        }
        if NormalisedFields(entries).Ok? && SameFields(entries, j.fields) {
          assert NormalisedFields(entries).value == j.fields;
        }
      }
    }
  }

  lemma {:induction false} EntryIffShown(entry: (Value, Value), j: Json)
    ensures Normalised(entry.1) == Ok(j) <==> Shown(entry.1, j)
    decreases entry
  {
    NormalisedIffShown(entry.1, j);
  }

  ghost predicate SameFields(entries: seq<(Value, Value)>, fields: seq<Field>) {
    |fields| == |entries| && forall i :: 0 <= i < |entries| ==>
      entries[i].0 == VText(fields[i].0) && Normalised(entries[i].1) == Ok(fields[i].1)
  }

  ghost predicate OccursAmong(entries: seq<(Value, Value)>, e: CanonicalError) {
    exists i :: 0 <= i < |entries| && ((!entries[i].0.VText? && e == KeyNotText) || Occurs(entries[i].1, e))
  }

  /** The defect that is reported occurs in the value. */
  lemma {:induction false} ReportedOccurs(v: Value)
    requires Normalised(v).Err?
    ensures Occurs(v, Normalised(v).error)
    decreases v
  {
    match v
    case VEnum(member) => ReportedOccurs(member);
    case VModel(dump) => ReportedOccursAmong(dump);
    case VMapping(entries) => ReportedOccursAmong(entries);
    case VSequence(items) =>
      ItemsPointwise(items);
      var i :| 0 <= i < |items| && Normalised(items[i]) == Err(Normalised(v).error);
      ReportedOccurs(items[i]);
    case _ =>
  }

  lemma {:induction false} ReportedOccursAmong(entries: seq<(Value, Value)>)
    requires NormalisedMapping(entries).Err?
    ensures OccursAmong(entries, NormalisedMapping(entries).error)
    decreases entries
  {
    if TextKeys(entries) {
      FieldsPointwise(entries);
      var i :| 0 <= i < |entries| && Normalised(entries[i].1) == Err(NormalisedMapping(entries).error);
      ReportedOccursIn(entries[i]);
    }
  }

  lemma {:induction false} ReportedOccursIn(entry: (Value, Value))
    requires Normalised(entry.1).Err?
    ensures Occurs(entry.1, Normalised(entry.1).error)
    decreases entry
  {
    ReportedOccurs(entry.1);
  }

  /** No value with a defect anywhere is normalised. */
  lemma {:induction false} DefectFails(v: Value, e: CanonicalError)
    requires Occurs(v, e)
    ensures Normalised(v).Err?
    decreases v
  {
    match v
    case VEnum(member) => DefectFails(member, e);
    case VModel(dump) => DefectAmongFails(dump, e);
    case VMapping(entries) => DefectAmongFails(entries, e);
    case VSequence(items) =>
      ItemsPointwise(items);
      var i :| 0 <= i < |items| && Occurs(items[i], e);
      DefectFails(items[i], e);
    case _ =>
  }

  lemma {:induction false} DefectAmongFails(entries: seq<(Value, Value)>, e: CanonicalError)
    requires OccursAmong(entries, e)
    ensures NormalisedMapping(entries).Err?
    decreases entries
  {
    if TextKeys(entries) {
      FieldsPointwise(entries);
      var i :| 0 <= i < |entries| && Occurs(entries[i].1, e);
      DefectInFails(entries[i], e);
    }
  }

  lemma {:induction false} DefectInFails(entry: (Value, Value), e: CanonicalError)
    requires Occurs(entry.1, e)
    ensures Normalised(entry.1).Err?
    decreases entry
  {
    DefectFails(entry.1, e);
  }

  /** Normalisation fails exactly when a defect occurs somewhere in the value, and names one that does. */
  lemma FailsIffDefect(v: Value)
    ensures Normalised(v).Err? <==> exists e :: Occurs(v, e)
    ensures Normalised(v).Err? ==> Occurs(v, Normalised(v).error)
  {
    if Normalised(v).Err? {
      ReportedOccurs(v);
      var e: CanonicalError := Normalised(v).error;
      assert Occurs(v, e);
    }
    forall e | Occurs(v, e)
      ensures Normalised(v).Err?
    {
      DefectFails(v, e);
    }
  }

  // ---- a normalised tree is itself a value ----

  function AsValue(j: Json): Value
    decreases j, 1
  {
    match j
    case Null => VNone
    case Bool(flag) => VBool(flag)
    case Int(n) => VInt(n)
    case Str(text) => VText(text)
    case Arr(items) => VSequence(ItemsAsValues(items))
    case Obj(fields) => VMapping(FieldsAsEntries(fields))
  }

  function ItemsAsValues(items: seq<Json>): seq<Value>
    decreases items, 0
  {
    if items == [] then [] else [AsValue(items[0])] + ItemsAsValues(items[1..])
  }

  function FieldAsEntry(f: Field): (Value, Value)
    decreases f, 2
  {
    (VText(f.0), AsValue(f.1))
  }

  function FieldsAsEntries(fields: seq<Field>): (r: seq<(Value, Value)>)
    ensures TextKeys(r)
    decreases fields, 0
  {
    if fields == [] then [] else [FieldAsEntry(fields[0])] + FieldsAsEntries(fields[1..])
  }

  /** Normalising a normalised tree changes nothing. */
  lemma {:induction false} NormalisedIsFixed(j: Json)
    ensures Normalised(AsValue(j)) == Ok(j)
    decreases j, 1
  {
    match j
    case Arr(items) => NormalisedItemsFixed(items);
    case Obj(fields) => NormalisedFieldsFixed(fields);
    case _ =>
  }

  lemma {:induction false} NormalisedItemsFixed(items: seq<Json>)
    ensures NormalisedItems(ItemsAsValues(items)) == Ok(items)
    decreases items, 0
  {
    if items != [] {
      NormalisedIsFixed(items[0]);
      NormalisedItemsFixed(items[1..]);
      assert ItemsAsValues(items)[1..] == ItemsAsValues(items[1..]);
      assert items == [items[0]] + items[1..];
    }
  }

  lemma {:induction false} NormalisedFieldFixed(f: Field)
    ensures NormalisedField(FieldAsEntry(f)) == Ok(f)
    decreases f, 2
  {
    NormalisedIsFixed(f.1);
  }

  lemma FieldsStep(entries: seq<(Value, Value)>, first: Field, more: seq<Field>)
    requires TextKeys(entries) && entries != []
    requires NormalisedField(entries[0]) == Ok(first) && NormalisedFields(entries[1..]) == Ok(more)
    ensures NormalisedFields(entries) == Ok([first] + more)
  {
  }

  lemma {:induction false} NormalisedFieldsFixed(fields: seq<Field>)
    ensures NormalisedFields(FieldsAsEntries(fields)) == Ok(fields)
    decreases fields, 0
  {
    if fields != [] {
      var entries := FieldsAsEntries(fields);
      NormalisedFieldFixed(fields[0]);
      NormalisedFieldsFixed(fields[1..]);
      assert entries[0] == FieldAsEntry(fields[0]);
      assert entries[1..] == FieldsAsEntries(fields[1..]);
      FieldsStep(entries, fields[0], fields[1..]);
      assert fields == [fields[0]] + fields[1..];
    }
  }

  /** Normalisation is idempotent: its result normalises to itself and prints the same text. */
  lemma NormalisationIdempotent(v: Value)
    requires Normalised(v).Ok?
    ensures Normalised(AsValue(Normalised(v).value)) == Normalised(v)
  {
    NormalisedIsFixed(Normalised(v).value);
  }
}
