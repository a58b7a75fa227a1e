/**
 * Output columns of the datum export. A column is written `name` or
 * `name$selector`: the name picks a field of the stream's metadata, the
 * selector picks one statistic of an aggregated entry.
 */
module Columns {
  import opened Wrappers
  import opened JsValues
  import opened SolarNetworkApi

  /** `columnValue` throws for an unknown selector, and `undefined.toString()` throws a TypeError. */
  datatype ColumnError = UnrecognizedMeta(metaName: string) | TypeError

  /** `columnName`: the part of the column before its first `$`, or all of it. */
  function ColumnName(c: string): (r: string)
    ensures '$' !in r
    ensures r <= c
    ensures r == c <==> '$' !in c
    ensures '$' in c ==> c[|r|] == '$'
  {
    var k := IndexOf(c, '$');
    if k == -1 then c else c[..k]
  }

  /** The selector: what follows the first `$`, or "" when there is none. */
  function ColumnSelector(c: string): (r: string)
    ensures '$' !in c ==> r == ""
    ensures '$' in c ==> c == ColumnName(c) + "$" + r
  {
    var k := IndexOf(c, '$');
    if k == -1 then ""
    else
      assert c == c[..k] + [c[k]] + c[k + 1..];
      c[k + 1..]
  }

  /** The selectors an aggregated instantaneous entry recognises. */
  const InstantaneousSelectorNames: set<string> := {"", "average", "count", "minimum", "maximum"}

  /** The selectors an aggregated accumulating entry recognises. */
  const AccumulatingSelectorNames: set<string> := {"", "difference", "starting", "ending"}

  /** The selectors recognised for an aggregated entry of category `kind`. */
  function SelectorNames(kind: MeasurementType): set<string> {
    if kind == Instantaneous then InstantaneousSelectorNames else AccumulatingSelectorNames
  }

  /** Which component of (average, count, minimum, maximum) a selector names; "" means the average. */
  function InstantaneousComponent(sel: string): (r: Option<nat>)
    ensures r.Some? ==> r.value < 4
    ensures r.None? <==> sel !in InstantaneousSelectorNames
    ensures r == Some(0) <==> sel == "" || sel == "average"
    ensures r == Some(1) <==> sel == "count"
    ensures r == Some(2) <==> sel == "minimum"
    ensures r == Some(3) <==> sel == "maximum"
  {
    if sel == "" || sel == "average" then Some(0)
    else if sel == "count" then Some(1)
    else if sel == "minimum" then Some(2)
    else if sel == "maximum" then Some(3)
    else None
  }

  /** Which component of (difference, starting, ending) a selector names; "" means the ending reading. */
  function AccumulatingComponent(sel: string): (r: Option<nat>)
    ensures r.Some? ==> r.value < 3
    ensures r.None? <==> sel !in AccumulatingSelectorNames
    ensures r == Some(0) <==> sel == "difference"
    ensures r == Some(1) <==> sel == "starting"
    ensures r == Some(2) <==> sel == "" || sel == "ending"
  {
    if sel == "" || sel == "ending" then Some(2)
    else if sel == "difference" then Some(0)
    else if sel == "starting" then Some(1)
    else None
  }

  /** `v[k].toString()` on a destructured entry: a missing component is undefined and throws. */
  function Component(v: seq<Number>, k: nat): (r: Result<string, ColumnError>)
    ensures r.Ok? <==> k < |v|
    ensures r.Ok? ==> r.value == NumberToString(v[k])
  {
    if k < |v| then Ok(NumberToString(v[k])) else Err(TypeError)
  }

  /** An aggregated entry: the selector is checked first, then the component is read. */
  function SelectComponent(sel: string, v: seq<Number>, kind: MeasurementType): (r: Result<string, ColumnError>)
    requires kind != Status
  {
    var slot := if kind == Instantaneous then InstantaneousComponent(sel) else AccumulatingComponent(sel);
    if slot.None? then Err(UnrecognizedMeta(sel)) else Component(v, slot.value)
  }

  /** The value list of a category in a raw row. */
  function RawValues(d: RawDatum, kind: MeasurementType): seq<Number>
    requires kind != Status
  {
    if kind == Instantaneous then d.i else d.a
  }

  /** The entry list of a category in an aggregated row. */
  function AggregatedEntries(d: AggregatedDatum, kind: MeasurementType): seq<seq<Number>>
    requires kind != Status
  {
    if kind == Instantaneous then d.i else d.a
  }

  function StatusValues(row: TaggedDatum): seq<string> {
    match row
    case TaggedRaw(d) => d.s
    case TaggedAggregated(d) => d.s
  }

  /**
   * The text of field `name` under selector `sel` for `row`, with metadata
   * `m`. A field the metadata does not declare, or a position past the end
   * of the row's list, gives "". Raw rows and status fields give the value
   * itself whatever the selector; aggregated numeric entries give the
   * component the selector names.
   */
  function FieldValue(name: string, sel: string, row: TaggedDatum, m: StreamMeta): (r: Result<string, ColumnError>)
    ensures GetMeasurementDescriptor(m, name).None? ==> r == Ok("")
    ensures r.Err? ==> row.TaggedAggregated? && GetMeasurementDescriptor(m, name).value.kind != Status
    ensures r.Err? && r.error.UnrecognizedMeta? ==> r.error.metaName == sel
    ensures var desc := GetMeasurementDescriptor(m, name);
      (desc.Some? && desc.value.kind != Status && row.TaggedAggregated? &&
       desc.value.index < |AggregatedEntries(row.agg, desc.value.kind)| && sel !in SelectorNames(desc.value.kind))
      ==> r == Err(UnrecognizedMeta(sel))
    ensures (r.Ok? && GetMeasurementDescriptor(m, name).Some? &&
      GetMeasurementDescriptor(m, name).value.kind != Status) ==>
      ',' !in r.value && '\n' !in r.value
  {
    var desc := GetMeasurementDescriptor(m, name);
    if desc.None? then Ok("")
    else
      var kind, index := desc.value.kind, desc.value.index;
      if kind == Status then
        var s := StatusValues(row);
        if |s| <= index then Ok("") else Ok(s[index])
      else
        match row
        case TaggedRaw(d) =>
          var v := RawValues(d, kind);
          if |v| <= index then Ok("") else Ok(NumberToString(v[index]))
        case TaggedAggregated(d) =>
          var v := AggregatedEntries(d, kind);
          if |v| <= index then Ok("") else SelectComponent(sel, v[index], kind)
  }

  /** `columnValue`: column `c` is split at its first `$` into a field name and a selector. */
  function ColumnValue(c: string, row: TaggedDatum, m: StreamMeta): Result<string, ColumnError> {
    FieldValue(ColumnName(c), ColumnSelector(c), row, m)
  }

  /** A column is its name, then `$` and its selector when it has one. */
  lemma ColumnSplits(c: string)
    ensures c == ColumnName(c) + (if '$' in c then "$" + ColumnSelector(c) else "")
  {
  }

  /** Writing `name` or `name$sel` reads field `name` under selector "" or `sel`. */
  lemma ColumnOfParts(name: string, sel: string, row: TaggedDatum, m: StreamMeta)
    requires '$' !in name
    ensures ColumnValue(name, row, m) == FieldValue(name, "", row, m)
    ensures ColumnValue(name + "$" + sel, row, m) == FieldValue(name, sel, row, m)
  {
    SelectorOf(name, sel);
  }

  /**
   * What a declared field reads, by the category and position its descriptor
   * names: a position past the end of the row's list reads "", whatever the
   * row; a raw numeric value reads as its text and a status value as itself,
   * whatever the selector.
   */
  lemma DeclaredFieldValue(name: string, sel: string, row: TaggedDatum, m: StreamMeta, kind: MeasurementType, index: nat)
    requires GetMeasurementDescriptor(m, name) == Some(MeasurementDescriptor(kind, index))
    ensures kind == Status ==>
      FieldValue(name, sel, row, m) == if index < |StatusValues(row)| then Ok(StatusValues(row)[index]) else Ok("")
    ensures kind != Status && row.TaggedRaw? ==>
      FieldValue(name, sel, row, m) ==
        if index < |RawValues(row.raw, kind)| then Ok(NumberToString(RawValues(row.raw, kind)[index])) else Ok("")
    ensures kind != Status && row.TaggedAggregated? && |AggregatedEntries(row.agg, kind)| <= index ==>
      FieldValue(name, sel, row, m) == Ok("")
  {
  }

  /** A raw row ignores the selector. */
  lemma RawRowIgnoresSelector(name: string, sel1: string, sel2: string, d: RawDatum, m: StreamMeta)
    ensures FieldValue(name, sel1, TaggedRaw(d), m) == FieldValue(name, sel2, TaggedRaw(d), m)
    ensures FieldValue(name, sel1, TaggedRaw(d), m).Ok?
  {
  }

  /** A status field ignores the selector, in raw and aggregated rows alike. */
  lemma StatusIgnoresSelector(name: string, sel1: string, sel2: string, row: TaggedDatum, m: StreamMeta)
    requires GetMeasurementDescriptor(m, name).Some?
    requires GetMeasurementDescriptor(m, name).value.kind == Status
    ensures FieldValue(name, sel1, row, m) == FieldValue(name, sel2, row, m)
    ensures FieldValue(name, sel1, row, m).Ok?
  {
  }

  /** A declared numeric field of an aggregated row with an entry at its index reads the component the selector names. */
  lemma AggregatedField(name: string, sel: string, d: AggregatedDatum, m: StreamMeta)
    requires GetMeasurementDescriptor(m, name).Some?
    requires GetMeasurementDescriptor(m, name).value.kind != Status
    requires GetMeasurementDescriptor(m, name).value.index < |AggregatedEntries(d, GetMeasurementDescriptor(m, name).value.kind)|
    ensures var desc := GetMeasurementDescriptor(m, name).value;
      FieldValue(name, sel, TaggedAggregated(d), m) == SelectComponent(sel, AggregatedEntries(d, desc.kind)[desc.index], desc.kind)
  {
  }

  /**
   * For an aggregated instantaneous field holding (average, count, minimum,
   * maximum), each selector reads its own component and an accumulating selector is refused.
   */
  lemma InstantaneousSelectors(name: string, d: AggregatedDatum, m: StreamMeta, j: nat, av: Number, co: Number, mn: Number, mx: Number)
    requires GetMeasurementDescriptor(m, name) == Some(MeasurementDescriptor(Instantaneous, j))
    requires j < |d.i| && d.i[j] == [av, co, mn, mx]
    ensures FieldValue(name, "", TaggedAggregated(d), m) == Ok(NumberToString(av))
    ensures FieldValue(name, "average", TaggedAggregated(d), m) == Ok(NumberToString(av))
    ensures FieldValue(name, "count", TaggedAggregated(d), m) == Ok(NumberToString(co))
    ensures FieldValue(name, "minimum", TaggedAggregated(d), m) == Ok(NumberToString(mn))
    ensures FieldValue(name, "maximum", TaggedAggregated(d), m) == Ok(NumberToString(mx))
    ensures forall sel :: sel !in InstantaneousSelectorNames ==>
      FieldValue(name, sel, TaggedAggregated(d), m) == Err(UnrecognizedMeta(sel))
    ensures FieldValue(name, "ending", TaggedAggregated(d), m) == Err(UnrecognizedMeta("ending"))
  {
    AggregatedField(name, "", d, m);
    AggregatedField(name, "average", d, m);
    AggregatedField(name, "count", d, m);
    assert InstantaneousComponent("count") == Some(1);
    AggregatedField(name, "minimum", d, m);
    assert InstantaneousComponent("minimum") == Some(2);
    AggregatedField(name, "maximum", d, m);
    assert InstantaneousComponent("maximum") == Some(3);
    AggregatedField(name, "ending", d, m);
    assert InstantaneousComponent("ending") == None;
  }

  /** For an aggregated accumulating field holding (difference, starting, ending), likewise. */
  lemma AccumulatingSelectors(name: string, d: AggregatedDatum, m: StreamMeta, j: nat, df: Number, st: Number, en: Number)
    requires GetMeasurementDescriptor(m, name) == Some(MeasurementDescriptor(Accumulating, j))
    requires j < |d.a| && d.a[j] == [df, st, en]
    ensures FieldValue(name, "", TaggedAggregated(d), m) == Ok(NumberToString(en))
    ensures FieldValue(name, "ending", TaggedAggregated(d), m) == Ok(NumberToString(en))
    ensures FieldValue(name, "difference", TaggedAggregated(d), m) == Ok(NumberToString(df))
    ensures FieldValue(name, "starting", TaggedAggregated(d), m) == Ok(NumberToString(st))
    ensures forall sel :: sel !in AccumulatingSelectorNames ==>
      FieldValue(name, sel, TaggedAggregated(d), m) == Err(UnrecognizedMeta(sel))
    ensures FieldValue(name, "average", TaggedAggregated(d), m) == Err(UnrecognizedMeta("average"))
  {
    AggregatedField(name, "", d, m);
    AggregatedField(name, "ending", d, m);
    AggregatedField(name, "difference", d, m);
    assert AccumulatingComponent("difference") == Some(0);
    AggregatedField(name, "starting", d, m);
    assert AccumulatingComponent("starting") == Some(1);
    AggregatedField(name, "average", d, m);
    assert AccumulatingComponent("average") == None;
  }

  /**
   * An aggregated entry too short for the component its recognised selector
   * names throws a TypeError instead of reading "", in either category and at
   * any position; an entry long enough reads that component.
   */
  lemma ShortEntryThrows(name: string, sel: string, d: AggregatedDatum, m: StreamMeta, kind: MeasurementType, j: nat)
    requires GetMeasurementDescriptor(m, name) == Some(MeasurementDescriptor(kind, j))
    requires kind != Status && j < |AggregatedEntries(d, kind)|
    requires (if kind == Instantaneous then InstantaneousComponent(sel) else AccumulatingComponent(sel)).Some?
    ensures var slot := (if kind == Instantaneous then InstantaneousComponent(sel) else AccumulatingComponent(sel)).value;
      FieldValue(name, sel, TaggedAggregated(d), m) ==
        if |AggregatedEntries(d, kind)[j]| <= slot then Err(TypeError)
        else Ok(NumberToString(AggregatedEntries(d, kind)[j][slot]))
  {
    AggregatedField(name, sel, d, m);
  }

  /** Splitting `name$sel` recovers both parts when the name has no `$`. */
  lemma SelectorOf(name: string, sel: string)
    requires '$' !in name
    ensures ColumnName(name + "$" + sel) == name
    ensures ColumnSelector(name + "$" + sel) == sel
  {
    var c := name + "$" + sel;
    assert c[..|name|] == name;
    assert c[|name|] == '$';
    assert '$' in c;
    var k := IndexOf(c, '$');
    assert forall j :: 0 <= j < |name| ==> c[j] == name[j] && c[j] != '$';
    assert k == |name|;
    assert c[k + 1..] == sel;
  }
}
