/**
 * Decoding of the platform's datum stream wire format (positional tuples
 * described by per-stream metadata), field lookup in that metadata, the
 * location-datum parsers, and the URL fix-up applied before signing.
 */
module SolarNetworkApi {
  import opened Wrappers
  import opened JsValues

  // ---------------------------------------------------------------------
  // Stream metadata and field lookup
  // ---------------------------------------------------------------------

  /** Per-stream metadata. The three optional lists name the fields of each category. */
  datatype StreamMeta = StreamMeta(
    streamId: string,
    zone: string,
    kind: string,
    objectId: Wire,
    sourceId: Wire,
    i: Option<seq<string>>,
    a: Option<seq<string>>,
    s: Option<seq<string>>)

  datatype MeasurementType = Instantaneous | Accumulating | Status

  datatype MeasurementDescriptor = MeasurementDescriptor(kind: MeasurementType, index: nat)

  /** The field names of one category; an absent list has no names. */
  function FieldNames(m: StreamMeta, kind: MeasurementType): seq<string> {
    match kind
    case Instantaneous => m.i.GetOr([])
    case Accumulating => m.a.GetOr([])
    case Status => m.s.GetOr([])
  }

  /** `m.i ? m.i.length : 0` and its siblings. */
  function ListLen(l: Option<seq<string>>): nat {
    if l.Some? then |l.value| else 0
  }

  /**
   * `getMeasurementDescriptor`: the category and position of a field name,
   * searching the instantaneous, then the accumulating, then the status list,
   * and taking the first position within a list.
   */
  function GetMeasurementDescriptor(m: StreamMeta, name: string): (r: Option<MeasurementDescriptor>)
    ensures r.None? <==>
      name !in FieldNames(m, Instantaneous) &&
      name !in FieldNames(m, Accumulating) &&
      name !in FieldNames(m, Status)
    ensures r.Some? ==>
      var names := FieldNames(m, r.value.kind);
      r.value.index < |names| && names[r.value.index] == name && name !in names[..r.value.index]
    ensures r.Some? && r.value.kind != Instantaneous ==> name !in FieldNames(m, Instantaneous)
    ensures r.Some? && r.value.kind == Status ==> name !in FieldNames(m, Accumulating)
  {
    var si := IndexOf(FieldNames(m, Instantaneous), name);
    if si != -1 then Some(MeasurementDescriptor(Instantaneous, si))
    else
      var sa := IndexOf(FieldNames(m, Accumulating), name);
      if sa != -1 then Some(MeasurementDescriptor(Accumulating, sa))
      else
        var ss := IndexOf(FieldNames(m, Status), name);
        if ss != -1 then Some(MeasurementDescriptor(Status, ss))
        else None
  }

  // ---------------------------------------------------------------------
  // Datum tuples
  // ---------------------------------------------------------------------

  datatype StreamResponse = StreamResponse(success: bool, meta: seq<StreamMeta>, data: seq<seq<Wire>>)

  /** A decoded raw row: meta index, timestamp, then one value per declared field. */
  datatype RawDatum = RawDatum(
    meta: Wire,
    timestamp: Wire,
    i: seq<Number>,
    a: seq<Number>,
    s: seq<string>,
    tags: seq<string>)

  /**
   * A decoded aggregated row. Each instantaneous entry is normally
   * (average, count, minimum, maximum) and each accumulating entry
   * (difference, starting, ending), but an array on the wire keeps its own length.
   */
  datatype AggregatedDatum = AggregatedDatum(
    meta: Wire,
    timestamp: Wire,
    i: seq<seq<Number>>,
    a: seq<seq<Number>>,
    s: seq<string>,
    tags: seq<string>)

  /** A decoded row tagged with the state of the response it came from. */
  datatype TaggedDatum = TaggedRaw(raw: RawDatum) | TaggedAggregated(agg: AggregatedDatum)

  /** Reading the lists of an undefined metadata entry throws a TypeError. */
  datatype DecodeError = MetaNotFound

  /** `ensureNumberType`: a number passes through, anything else becomes NaN. */
  function EnsureNumberType(w: Wire): Number {
    if w.Num? then w.num else NaN
  }

  /** `ensureStringType`: a string passes through, anything else becomes "". */
  function EnsureStringType(w: Wire): string {
    if w.Str? then w.s else ""
  }

  /**
   * The two coercions never convert between types: a numeric string is not a
   * number and a number is not a string, and applying a coercion to its own
   * result changes nothing.
   */
  lemma EnsureTypesDoNotConvert(w: Wire)
    ensures w.Str? ==> EnsureNumberType(w) == NaN
    ensures w.Num? ==> EnsureStringType(w) == ""
    ensures EnsureNumberType(w).Int? ==> w == Num(EnsureNumberType(w))
    ensures EnsureStringType(w) != "" ==> w == Str(EnsureStringType(w))
    ensures EnsureNumberType(Num(EnsureNumberType(w))) == EnsureNumberType(w)
    ensures EnsureStringType(Str(EnsureStringType(w))) == EnsureStringType(w)
  {
  }

  /** `datum[k]`: positions past the end of the tuple read as undefined. */
  function At(t: seq<Wire>, k: int): Wire {
    if 0 <= k < |t| then t[k] else Undefined
  }

  /**
   * `response.meta[w]`: the index is converted to a property key first, so
   * only a value whose text is the decimal text of an in-range position names
   * an entry.
   */
  function MetaAt(metas: seq<StreamMeta>, w: Wire): Option<StreamMeta> {
    var k := ArrayIndex(PropertyKey(w), |metas|);
    if k.Some? then Some(metas[k.value]) else None
  }

  /** The number `n`, the string `"n"` and the one-element array `[n]` all name entry `n`. */
  lemma MetaAtIndex(metas: seq<StreamMeta>, n: nat)
    requires n < |metas|
    ensures MetaAt(metas, Num(Int(n))) == Some(metas[n])
    ensures MetaAt(metas, Str(Digits(n))) == Some(metas[n])
    ensures MetaAt(metas, Arr([Num(Int(n))])) == Some(metas[n])
  {
    ArrayIndexFinds(Digits(n), |metas|, n);
    assert PropertyKey(Num(Int(n))) == Digits(n);
    var w := Arr([Num(Int(n))]);
    assert JoinItems(w, 0) == StringOf(Num(Int(n))).value == Digits(n);
    assert PropertyKey(w) == JoinItems(w, 0);
  }


  /**
   * Undefined, null, a boolean, NaN, a negative number, a position past the
   * end and a decimal text with a leading zero name no entry.
   */
  lemma MetaAtRefuses(metas: seq<StreamMeta>, w: Wire)
    ensures (w.Undefined? || w.Null? || w.Bool? || w == Num(NaN)) ==> MetaAt(metas, w).None?
    ensures w.Num? && w.num.Int? && (w.num.n < 0 || w.num.n >= |metas|) ==> MetaAt(metas, w).None?
    ensures w.Str? && |w.s| > 1 && w.s[0] == '0' ==> MetaAt(metas, w).None?
  {
    var k := ArrayIndex(PropertyKey(w), |metas|);
    if k.Some? {
      var key := Digits(k.value);
      assert '0' <= key[0] <= '9';
      if w.Num? && w.num.Int? && w.num.n >= 0 {
        DigitsInjective(k.value, w.num.n);
      }
      if w.Str? && |w.s| > 1 && w.s[0] == '0' {
        DigitsLeadingZero(k.value);
      }
    }
  }

  /** The raw row that tuple `t` decodes to under metadata `m`. */
  function DecodedRaw(t: seq<Wire>, m: StreamMeta): RawDatum {
    var il, al, sl := ListLen(m.i), ListLen(m.a), ListLen(m.s);
    RawDatum(
      At(t, 0), At(t, 1),
      seq(il, j => EnsureNumberType(At(t, 2 + j))),
      seq(al, j => EnsureNumberType(At(t, 2 + il + j))),
      seq(sl, j => EnsureStringType(At(t, 2 + il + al + j))),
      [])
  }

  /** `items.map(v => ensureNumberType(v))`. */
  function EnsureNumbers(items: seq<Wire>): (r: seq<Number>)
    ensures |r| == |items|
    ensures forall k :: 0 <= k < |items| && items[k].Num? ==> r[k] == items[k].num
    ensures forall k :: 0 <= k < |items| && !items[k].Num? ==> r[k] == NaN
  {
    seq(|items|, k requires 0 <= k < |items| => EnsureNumberType(items[k]))
  }

  /** An aggregated slot: an array is mapped through `EnsureNumberType`, anything else is `width` NaNs. */
  function AggregatedSlot(w: Wire, width: nat): seq<Number> {
    if w.Arr? then EnsureNumbers(w.items) else seq(width, _ => NaN)
  }

  /** The aggregated row that tuple `t` decodes to under metadata `m`. */
  function DecodedAggregated(t: seq<Wire>, m: StreamMeta): AggregatedDatum {
    var il, al, sl := ListLen(m.i), ListLen(m.a), ListLen(m.s);
    AggregatedDatum(
      At(t, 0), At(t, 1),
      seq(il, j => AggregatedSlot(At(t, 2 + j), 4)),
      seq(al, j => AggregatedSlot(At(t, 2 + il + j), 3)),
      seq(sl, j => EnsureStringType(At(t, 2 + il + al + j))),
      [])
  }

  /** Every tuple of the response names a metadata entry. */
  predicate AllMetasResolve(resp: StreamResponse) {
    forall k :: 0 <= k < |resp.data| ==> MetaAt(resp.meta, At(resp.data[k], 0)).Some?
  }

  /** What `parseRawDatums` yields: the decoded rows, or the error of the first unresolvable tuple. */
  function DecodedRawRows(resp: StreamResponse): Result<seq<RawDatum>, DecodeError> {
    if AllMetasResolve(resp) then
      Ok(seq(|resp.data|, k requires 0 <= k < |resp.data| =>
        DecodedRaw(resp.data[k], MetaAt(resp.meta, At(resp.data[k], 0)).value)))
    else Err(MetaNotFound)
  }

  /** What `parseAggregatedDatums` yields. */
  function DecodedAggregatedRows(resp: StreamResponse): Result<seq<AggregatedDatum>, DecodeError> {
    if AllMetasResolve(resp) then
      Ok(seq(|resp.data|, k requires 0 <= k < |resp.data| =>
        DecodedAggregated(resp.data[k], MetaAt(resp.meta, At(resp.data[k], 0)).value)))
    else Err(MetaNotFound)
  }

  /** The body of the `parseRawDatums` callback for one tuple. */
  method ParseRawDatum(t: seq<Wire>, metas: seq<StreamMeta>) returns (r: Result<RawDatum, DecodeError>)
    ensures r.Err? <==> MetaAt(metas, At(t, 0)).None?
    ensures r.Ok? ==> r.value == DecodedRaw(t, MetaAt(metas, At(t, 0)).value)
  {
    var found := MetaAt(metas, At(t, 0));
    if found.None? {
      return Err(MetaNotFound);
    }
    var d := DecodeRawTuple(t, found.value);
    r := Ok(d);
  }

  /** The three loops of the `parseRawDatums` callback, once the metadata entry `m` is found. */
  method DecodeRawTuple(t: seq<Wire>, m: StreamMeta) returns (d: RawDatum)
    ensures d == DecodedRaw(t, m)
  {
    var meta := At(t, 0);
    var timestamp := At(t, 1);
    var iLen, aLen, sLen := ListLen(m.i), ListLen(m.a), ListLen(m.s);
    var i: seq<Number> := [];
    var a: seq<Number> := [];
    var s: seq<string> := [];
    for j := 0 to iLen
      invariant |i| == j && forall k :: 0 <= k < j ==> i[k] == EnsureNumberType(At(t, 2 + k))
    {
      i := i + [EnsureNumberType(At(t, 2 + j))];
    }
    for j := 0 to aLen
      invariant |a| == j && forall k :: 0 <= k < j ==> a[k] == EnsureNumberType(At(t, 2 + iLen + k))
    {
      a := a + [EnsureNumberType(At(t, 2 + iLen + j))];
    }
    for j := 0 to sLen
      invariant |s| == j && forall k :: 0 <= k < j ==> s[k] == EnsureStringType(At(t, 2 + iLen + aLen + k))
    {
      s := s + [EnsureStringType(At(t, 2 + iLen + aLen + j))];
    }
    assert i == seq(iLen, k => EnsureNumberType(At(t, 2 + k)));
    assert a == seq(aLen, k => EnsureNumberType(At(t, 2 + iLen + k)));
    assert s == seq(sLen, k => EnsureStringType(At(t, 2 + iLen + aLen + k)));
    d := RawDatum(meta, timestamp, i, a, s, []);
  }

  /** The body of the `parseAggregatedDatums` callback for one tuple. */
  method ParseAggregatedDatum(t: seq<Wire>, metas: seq<StreamMeta>) returns (r: Result<AggregatedDatum, DecodeError>)
    ensures r.Err? <==> MetaAt(metas, At(t, 0)).None?
    ensures r.Ok? ==> r.value == DecodedAggregated(t, MetaAt(metas, At(t, 0)).value)
  {
    var found := MetaAt(metas, At(t, 0));
    if found.None? {
      return Err(MetaNotFound);
    }
    var d := DecodeAggregatedTuple(t, found.value);
    r := Ok(d);
  }

  /** The three loops of the `parseAggregatedDatums` callback, once the metadata entry `m` is found. */
  method DecodeAggregatedTuple(t: seq<Wire>, m: StreamMeta) returns (d: AggregatedDatum)
    ensures d == DecodedAggregated(t, m)
  {
    var meta := At(t, 0);
    var timestamp := At(t, 1);
    var iLen, aLen, sLen := ListLen(m.i), ListLen(m.a), ListLen(m.s);
    var i: seq<seq<Number>> := [];
    var a: seq<seq<Number>> := [];
    var s: seq<string> := [];
    for j := 0 to iLen
      invariant |i| == j && forall k :: 0 <= k < j ==> i[k] == AggregatedSlot(At(t, 2 + k), 4)
    {
      var slot := At(t, 2 + j);
      if !slot.Arr? {
        assert AggregatedSlot(slot, 4) == [NaN, NaN, NaN, NaN];
        i := i + [[NaN, NaN, NaN, NaN]];
      } else {
        i := i + [EnsureNumbers(slot.items)];
      }
    }
    for j := 0 to aLen
      invariant |a| == j && forall k :: 0 <= k < j ==> a[k] == AggregatedSlot(At(t, 2 + iLen + k), 3)
    {
      var slot := At(t, 2 + iLen + j);
      if !slot.Arr? {
        assert AggregatedSlot(slot, 3) == [NaN, NaN, NaN];
        a := a + [[NaN, NaN, NaN]];
      } else {
        a := a + [EnsureNumbers(slot.items)];
      }
    }
    for j := 0 to sLen
      invariant |s| == j && forall k :: 0 <= k < j ==> s[k] == EnsureStringType(At(t, 2 + iLen + aLen + k))
    {
      s := s + [EnsureStringType(At(t, 2 + iLen + aLen + j))];
    }
    assert i == seq(iLen, k => AggregatedSlot(At(t, 2 + k), 4));
    assert a == seq(aLen, k => AggregatedSlot(At(t, 2 + iLen + k), 3));
    assert s == seq(sLen, k => EnsureStringType(At(t, 2 + iLen + aLen + k)));
    d := AggregatedDatum(meta, timestamp, i, a, s, []);
  }

  /**
   * The layout of a raw tuple: meta index, timestamp, then the instantaneous,
   * accumulating and status values in the order the metadata lists them.
   * A missing or mistyped number reads as NaN, a missing or mistyped string as "".
   */
  lemma RawLayout(t: seq<Wire>, m: StreamMeta)
    ensures var d := DecodedRaw(t, m);
      && d.meta == At(t, 0) && d.timestamp == At(t, 1) && d.tags == []
      && |d.i| == ListLen(m.i) && |d.a| == ListLen(m.a) && |d.s| == ListLen(m.s)
      && (forall j :: 0 <= j < |d.i| ==>
            d.i[j] == (if At(t, 2 + j).Num? then At(t, 2 + j).num else NaN))
      && (forall j :: 0 <= j < |d.a| ==>
            d.a[j] == (if At(t, 2 + |d.i| + j).Num? then At(t, 2 + |d.i| + j).num else NaN))
      && (forall j :: 0 <= j < |d.s| ==>
            d.s[j] == (if At(t, 2 + |d.i| + |d.a| + j).Str? then At(t, 2 + |d.i| + |d.a| + j).s else ""))
  {
    var d := DecodedRaw(t, m);
    var il, al := ListLen(m.i), ListLen(m.a);
    assert |d.i| == il && |d.a| == al;
    assert forall j :: 0 <= j < al ==> d.a[j] == EnsureNumberType(At(t, 2 + il + j));
    assert forall j :: 0 <= j < |d.s| ==> d.s[j] == EnsureStringType(At(t, 2 + il + al + j));
  }

  /**
   * The layout of an aggregated tuple: an array slot is mapped element by
   * element, any other slot becomes a fixed run of NaNs (four for an
   * instantaneous field, three for an accumulating one).
   */
  lemma AggregatedLayout(t: seq<Wire>, m: StreamMeta)
    ensures var d := DecodedAggregated(t, m);
      && d.meta == At(t, 0) && d.timestamp == At(t, 1) && d.tags == []
      && |d.i| == ListLen(m.i) && |d.a| == ListLen(m.a) && |d.s| == ListLen(m.s)
      && (forall j :: 0 <= j < |d.i| && !At(t, 2 + j).Arr? ==> d.i[j] == [NaN, NaN, NaN, NaN])
      && (forall j :: 0 <= j < |d.i| && At(t, 2 + j).Arr? ==>
            |d.i[j]| == |At(t, 2 + j).items| &&
            forall k :: 0 <= k < |d.i[j]| ==> d.i[j][k] == EnsureNumberType(At(t, 2 + j).items[k]))
      && (forall j :: 0 <= j < |d.a| && !At(t, 2 + |d.i| + j).Arr? ==> d.a[j] == [NaN, NaN, NaN])
      && (forall j :: 0 <= j < |d.a| && At(t, 2 + |d.i| + j).Arr? ==>
            |d.a[j]| == |At(t, 2 + |d.i| + j).items| &&
            forall k :: 0 <= k < |d.a[j]| ==> d.a[j][k] == EnsureNumberType(At(t, 2 + |d.i| + j).items[k]))
      && (forall j :: 0 <= j < |d.s| ==> d.s[j] == EnsureStringType(At(t, 2 + |d.i| + |d.a| + j)))
  {
    var d := DecodedAggregated(t, m);
    AggregatedListsAreSlots(t, m);
    SlotLayouts(d.i, t, 2, 4);
    SlotLayouts(d.a, t, 2 + |d.i|, 3);
  }

  lemma AggregatedListsAreSlots(t: seq<Wire>, m: StreamMeta)
    ensures var d := DecodedAggregated(t, m);
      && d.meta == At(t, 0) && d.timestamp == At(t, 1) && d.tags == []
      && |d.i| == ListLen(m.i) && |d.a| == ListLen(m.a) && |d.s| == ListLen(m.s)
      && (forall j :: 0 <= j < |d.i| ==> d.i[j] == AggregatedSlot(At(t, 2 + j), 4))
      && (forall j :: 0 <= j < |d.a| ==> d.a[j] == AggregatedSlot(At(t, 2 + |d.i| + j), 3))
      && (forall j :: 0 <= j < |d.s| ==> d.s[j] == EnsureStringType(At(t, 2 + |d.i| + |d.a| + j)))
  {
  }

  /** Slots `base`, `base + 1`, ... decoded as aggregated entries of `width` components. */
  lemma SlotLayouts(slots: seq<seq<Number>>, t: seq<Wire>, base: nat, width: nat)
    requires forall j :: 0 <= j < |slots| ==> slots[j] == AggregatedSlot(At(t, base + j), width)
    ensures forall j :: 0 <= j < |slots| && !At(t, base + j).Arr? ==> slots[j] == seq(width, _ => NaN)
    ensures forall j :: 0 <= j < |slots| && At(t, base + j).Arr? ==>
      |slots[j]| == |At(t, base + j).items| &&
      forall k :: 0 <= k < |slots[j]| ==> slots[j][k] == EnsureNumberType(At(t, base + j).items[k])
  {
  }

  /** `parseRawDatums`: one row per tuple, in order; the first unresolvable meta index throws. */
  method ParseRawDatums(resp: StreamResponse) returns (r: Result<seq<RawDatum>, DecodeError>)
    ensures r == DecodedRawRows(resp)
    ensures r.Ok? <==> AllMetasResolve(resp)
    ensures r.Ok? ==> |r.value| == |resp.data|
  {
    var rows: seq<RawDatum> := [];
    for k := 0 to |resp.data|
      invariant forall j :: 0 <= j < k ==> MetaAt(resp.meta, At(resp.data[j], 0)).Some?
      invariant |rows| == k
      invariant forall j :: 0 <= j < k ==>
        rows[j] == DecodedRaw(resp.data[j], MetaAt(resp.meta, At(resp.data[j], 0)).value)
    {
      var row := ParseRawDatum(resp.data[k], resp.meta);
      if row.Err? {
        UnresolvedTupleFails(resp, k);
        return Err(MetaNotFound);
      }
      rows := rows + [row.value];
    }
    RawRowsAssembled(resp, rows);
    r := Ok(rows);
  }

  /** A tuple whose meta index names no entry makes both decodings fail. */
  lemma UnresolvedTupleFails(resp: StreamResponse, k: nat)
    requires k < |resp.data| && MetaAt(resp.meta, At(resp.data[k], 0)).None?
    ensures !AllMetasResolve(resp)
    ensures DecodedRawRows(resp) == Err(MetaNotFound) && DecodedAggregatedRows(resp) == Err(MetaNotFound)
  {
  }

  /** Rows decoded one by one, every meta index resolving, are what `parseRawDatums` yields. */
  lemma RawRowsAssembled(resp: StreamResponse, rows: seq<RawDatum>)
    requires |rows| == |resp.data|
    requires forall j :: 0 <= j < |rows| ==> MetaAt(resp.meta, At(resp.data[j], 0)).Some?
    requires forall j :: 0 <= j < |rows| ==> rows[j] == DecodedRaw(resp.data[j], MetaAt(resp.meta, At(resp.data[j], 0)).value)
    ensures DecodedRawRows(resp) == Ok(rows)
  {
    assert AllMetasResolve(resp);
    assert rows == DecodedRawRows(resp).value;
  }

  /** Likewise for `parseAggregatedDatums`. */
  lemma AggregatedRowsAssembled(resp: StreamResponse, rows: seq<AggregatedDatum>)
    requires |rows| == |resp.data|
    requires forall j :: 0 <= j < |rows| ==> MetaAt(resp.meta, At(resp.data[j], 0)).Some?
    requires forall j :: 0 <= j < |rows| ==> rows[j] == DecodedAggregated(resp.data[j], MetaAt(resp.meta, At(resp.data[j], 0)).value)
    ensures DecodedAggregatedRows(resp) == Ok(rows)
  {
    assert AllMetasResolve(resp);
    assert rows == DecodedAggregatedRows(resp).value;
  }

  /** `parseAggregatedDatums`: one row per tuple, in order; the first unresolvable meta index throws. */
  method ParseAggregatedDatums(resp: StreamResponse) returns (r: Result<seq<AggregatedDatum>, DecodeError>)
    ensures r == DecodedAggregatedRows(resp)
    ensures r.Ok? <==> AllMetasResolve(resp)
    ensures r.Ok? ==> |r.value| == |resp.data|
  {
    var rows: seq<AggregatedDatum> := [];
    for k := 0 to |resp.data|
      invariant forall j :: 0 <= j < k ==> MetaAt(resp.meta, At(resp.data[j], 0)).Some?
      invariant |rows| == k
      invariant forall j :: 0 <= j < k ==>
        rows[j] == DecodedAggregated(resp.data[j], MetaAt(resp.meta, At(resp.data[j], 0)).value)
    {
      var row := ParseAggregatedDatum(resp.data[k], resp.meta);
      if row.Err? {
        UnresolvedTupleFails(resp, k);
        return Err(MetaNotFound);
      }
      rows := rows + [row.value];
    }
    AggregatedRowsAssembled(resp, rows);
    r := Ok(rows);
  }

  // ---------------------------------------------------------------------
  // Location datums
  // ---------------------------------------------------------------------

  /** A JSON object as its own (key, value) entries in iteration order. */
  type JsObject = seq<(string, Wire)>

  /** Each key occurs once, as in an object parsed from JSON or a `Map`. */
  predicate DistinctKeys<V>(o: seq<(string, V)>) {
    forall a, b :: 0 <= a < b < |o| ==> o[a].0 != o[b].0
  }

  /** `o[key]`: the value stored under `key`, or undefined. */
  function Get(o: JsObject, key: string): Wire {
    if |o| == 0 then Undefined
    else if o[0].0 == key then o[0].1
    else Get(o[1..], key)
  }

  /** The keys both parsers lift out of the samples. */
  const IgnoredKeys: set<string> := {"created", "locationId", "sourceId", "localDate", "localTime", "tags"}

  datatype LocationResponse = LocationResponse(success: bool, results: seq<JsObject>)

  datatype RawLocationDatum = RawLocationDatum(
    created: Wire, locationId: Wire, sourceId: Wire, localDate: Wire, localTime: Wire,
    tags: Wire, samples: seq<(string, Wire)>)

  datatype LocSample =
    | RawSample(value: Wire)
    | AggregatedSample(average: Wire, min: Wire, max: Wire)

  datatype AggregatedLocationDatum = AggregatedLocationDatum(
    created: Wire, locationId: Wire, sourceId: Wire, localDate: Wire, localTime: Wire,
    tags: Wire, samples: seq<(string, LocSample)>)

  /** `datum['tags'] ? datum['tags'] : []`. */
  function TagsOf(o: JsObject): Wire {
    if Truthy(Get(o, "tags")) then Get(o, "tags") else Arr([])
  }

  /** The samples of the raw parser: every entry whose key is not ignored, in order. */
  function RawSamplesOf(o: JsObject): seq<(string, Wire)> {
    if |o| == 0 then []
    else
      var last := o[|o| - 1];
      RawSamplesOf(o[..|o| - 1]) + (if last.0 in IgnoredKeys then [] else [last])
  }

  /** The sample the aggregated parser stores for `key`, whose own value is `average`. */
  function SampleOf(o: JsObject, key: string, average: Wire): LocSample {
    var min, max := Get(o, key + "_min"), Get(o, key + "_max");
    if min.Undefined? || max.Undefined? then RawSample(average) else AggregatedSample(average, min, max)
  }

  /** The samples of the aggregated parser, over the entries `o[..n]` of `o`. */
  function AggregatedSamplesOf(o: JsObject, n: nat): seq<(string, LocSample)>
    requires n <= |o|
  {
    if n == 0 then []
    else
      var e := o[n - 1];
      AggregatedSamplesOf(o, n - 1) +
        (if e.0 in IgnoredKeys || '_' in e.0 then [] else [(e.0, SampleOf(o, e.0, e.1))])
  }

  /** The body of the `parseRawLocationDatums` callback for one result object. */
  method ParseRawLocationDatum(o: JsObject) returns (d: RawLocationDatum)
    requires DistinctKeys(o)
    ensures d.samples == RawSamplesOf(o)
    ensures DistinctKeys(d.samples)
    ensures forall k :: 0 <= k < |d.samples| ==> d.samples[k].0 !in IgnoredKeys
    ensures forall k :: 0 <= k < |o| && o[k].0 !in IgnoredKeys ==> o[k] in d.samples
    ensures d.created == Get(o, "created") && d.locationId == Get(o, "locationId")
    ensures d.sourceId == Get(o, "sourceId") && d.localDate == Get(o, "localDate")
    ensures d.localTime == Get(o, "localTime") && d.tags == TagsOf(o)
    ensures !Truthy(Get(o, "tags")) ==> d.tags == Arr([])
  {
    var samples: seq<(string, Wire)> := [];
    for k := 0 to |o|
      invariant samples == RawSamplesOf(o[..k])
      invariant forall j :: 0 <= j < |samples| ==> samples[j].0 !in IgnoredKeys
      invariant forall j :: 0 <= j < k && o[j].0 !in IgnoredKeys ==> o[j] in samples
    {
      assert o[..k + 1][..k] == o[..k];
      if o[k].0 in IgnoredKeys {
        continue;
      }
      samples := samples + [o[k]];
    }
    assert o[..|o|] == o;
    RawSamplesKeys(o);
    d := RawLocationDatum(
      Get(o, "created"), Get(o, "locationId"), Get(o, "sourceId"),
      Get(o, "localDate"), Get(o, "localTime"), TagsOf(o), samples);
  }

  /** The raw parser's sample keys come from `o`, each once when the object's keys are distinct. */
  lemma {:induction false} RawSamplesKeys(o: JsObject)
    requires DistinctKeys(o)
    ensures forall j :: 0 <= j < |RawSamplesOf(o)| ==> exists i :: 0 <= i < |o| && o[i].0 == RawSamplesOf(o)[j].0
    ensures DistinctKeys(RawSamplesOf(o))
    decreases |o|
  {
    if |o| == 0 {
      assert RawSamplesOf(o) == [];
    } else {
      var init, last := o[..|o| - 1], o[|o| - 1];
      RawSamplesKeys(init);
      var prev, all := RawSamplesOf(init), RawSamplesOf(o);
      assert all == prev + (if last.0 in IgnoredKeys then [] else [last]);
      forall j | 0 <= j < |all|
        ensures exists i :: 0 <= i < |o| && o[i].0 == all[j].0
      {
        if j < |prev| {
          var i :| 0 <= i < |init| && init[i].0 == prev[j].0;
          assert o[i].0 == all[j].0;
        } else {
          assert o[|o| - 1].0 == all[j].0;
        }
      }
      if last.0 !in IgnoredKeys {
        forall j | 0 <= j < |prev|
          ensures all[j].0 != last.0
        {
          var i :| 0 <= i < |init| && init[i].0 == prev[j].0;
          assert o[i].0 != o[|o| - 1].0;
        }
      }
    }
  }

  /** The body of the `parseAggregatedLocationDatums` callback for one result object. */
  method ParseAggregatedLocationDatum(o: JsObject) returns (d: AggregatedLocationDatum)
    requires DistinctKeys(o)
    ensures d.samples == AggregatedSamplesOf(o, |o|)
    ensures forall k :: 0 <= k < |o| && o[k].0 !in IgnoredKeys && '_' !in o[k].0 ==>
      (o[k].0, SampleOf(o, o[k].0, o[k].1)) in d.samples
    ensures DistinctKeys(d.samples)
    ensures forall k :: 0 <= k < |d.samples| ==>
      d.samples[k].0 !in IgnoredKeys && '_' !in d.samples[k].0
    ensures forall k :: 0 <= k < |d.samples| ==>
      (d.samples[k].1.AggregatedSample? <==>
        !Get(o, d.samples[k].0 + "_min").Undefined? && !Get(o, d.samples[k].0 + "_max").Undefined?)
    ensures d.created == Get(o, "created") && d.locationId == Get(o, "locationId")
    ensures d.sourceId == Get(o, "sourceId") && d.localDate == Get(o, "localDate")
    ensures d.localTime == Get(o, "localTime") && d.tags == TagsOf(o)
  {
    var samples: seq<(string, LocSample)> := [];
    for k := 0 to |o|
      invariant samples == AggregatedSamplesOf(o, k)
      invariant forall j :: 0 <= j < |samples| ==>
        samples[j].0 !in IgnoredKeys && '_' !in samples[j].0
      invariant forall j :: 0 <= j < |samples| ==>
        (samples[j].1.AggregatedSample? <==>
          !Get(o, samples[j].0 + "_min").Undefined? && !Get(o, samples[j].0 + "_max").Undefined?)
    {
      var key := o[k].0;
      if key in IgnoredKeys {
        continue;
      }
      if '_' in key {
        continue;
      }
      var average := o[k].1;
      var min := Get(o, key + "_min");
      var max := Get(o, key + "_max");
      if min.Undefined? || max.Undefined? {
        samples := samples + [(key, RawSample(average))];
      } else {
        samples := samples + [(key, AggregatedSample(average, min, max))];
      }
    }
    AggregatedSamplesComplete(o, |o|);
    AggregatedSamplesKeys(o, |o|);
    d := AggregatedLocationDatum(
      Get(o, "created"), Get(o, "locationId"), Get(o, "sourceId"),
      Get(o, "localDate"), Get(o, "localTime"), TagsOf(o), samples);
  }

  /** Every entry of `o[..n]` the aggregated parser does not skip has its sample. */
  lemma {:induction false} AggregatedSamplesComplete(o: JsObject, n: nat)
    requires n <= |o|
    ensures forall k :: 0 <= k < n && o[k].0 !in IgnoredKeys && '_' !in o[k].0 ==>
      (o[k].0, SampleOf(o, o[k].0, o[k].1)) in AggregatedSamplesOf(o, n)
  {
    if n > 0 {
      AggregatedSamplesComplete(o, n - 1);
    }
  }

  /** The aggregated parser's sample keys come from `o[..n]`, each once when the object's keys are distinct. */
  lemma {:induction false} AggregatedSamplesKeys(o: JsObject, n: nat)
    requires n <= |o| && DistinctKeys(o)
    ensures forall j :: 0 <= j < |AggregatedSamplesOf(o, n)| ==>
      exists i :: 0 <= i < n && o[i].0 == AggregatedSamplesOf(o, n)[j].0
    ensures DistinctKeys(AggregatedSamplesOf(o, n))
  {
    if n == 0 {
      assert AggregatedSamplesOf(o, n) == [];
    } else {
      AggregatedSamplesKeys(o, n - 1);
      var prev, e := AggregatedSamplesOf(o, n - 1), o[n - 1];
      var all := AggregatedSamplesOf(o, n);
      assert all == prev + (if e.0 in IgnoredKeys || '_' in e.0 then [] else [(e.0, SampleOf(o, e.0, e.1))]);
      forall j | 0 <= j < |all|
        ensures exists i :: 0 <= i < n && o[i].0 == all[j].0
      {
        if j < |prev| {
          var i :| 0 <= i < n - 1 && o[i].0 == prev[j].0;
          assert o[i].0 == all[j].0;
        } else {
          assert o[n - 1].0 == all[j].0;
        }
      }
      if e.0 !in IgnoredKeys && '_' !in e.0 {
        forall j | 0 <= j < |prev|
          ensures all[j].0 != e.0
        {
          var i :| 0 <= i < n - 1 && o[i].0 == prev[j].0;
          assert o[i].0 != o[n - 1].0;
        }
      }
    }
  }

  /** `parseRawLocationDatums`: one datum per result object, in order. */
  method ParseRawLocationDatums(resp: LocationResponse) returns (ds: seq<RawLocationDatum>)
    requires forall k :: 0 <= k < |resp.results| ==> DistinctKeys(resp.results[k])
    ensures |ds| == |resp.results|
    ensures forall k :: 0 <= k < |ds| ==> ds[k].samples == RawSamplesOf(resp.results[k])
    ensures forall k :: 0 <= k < |ds| ==> ds[k].tags == TagsOf(resp.results[k])
  {
    ds := [];
    for k := 0 to |resp.results|
      invariant |ds| == k
      invariant forall j :: 0 <= j < k ==> ds[j].samples == RawSamplesOf(resp.results[j])
      invariant forall j :: 0 <= j < k ==> ds[j].tags == TagsOf(resp.results[j])
    {
      var d := ParseRawLocationDatum(resp.results[k]);
      ds := ds + [d];
    }
  }

  /** `parseAggregatedLocationDatums`: one datum per result object, in order. */
  method ParseAggregatedLocationDatums(resp: LocationResponse) returns (ds: seq<AggregatedLocationDatum>)
    requires forall k :: 0 <= k < |resp.results| ==> DistinctKeys(resp.results[k])
    ensures |ds| == |resp.results|
    ensures forall k :: 0 <= k < |ds| ==>
      ds[k].samples == AggregatedSamplesOf(resp.results[k], |resp.results[k]|)
    ensures forall k :: 0 <= k < |ds| ==> ds[k].tags == TagsOf(resp.results[k])
  {
    ds := [];
    for k := 0 to |resp.results|
      invariant |ds| == k
      invariant forall j :: 0 <= j < k ==>
        ds[j].samples == AggregatedSamplesOf(resp.results[j], |resp.results[j]|)
      invariant forall j :: 0 <= j < k ==> ds[j].tags == TagsOf(resp.results[j])
    {
      var d := ParseAggregatedLocationDatum(resp.results[k]);
      ds := ds + [d];
    }
  }

  // ---------------------------------------------------------------------
  // URL encoding
  // ---------------------------------------------------------------------

  function Occurrences(s: string, c: char): nat {
    if |s| == 0 then 0 else (if s[0] == c then 1 else 0) + Occurrences(s[1..], c)
  }

  /** `encodeSolarNetworkUrl`: every '+' becomes "%20", since the platform does not read '+' as a space. */
  function EncodeSolarNetworkUrl(url: string): (r: string)
    ensures '+' !in r
    ensures |r| == |url| + 2 * Occurrences(url, '+')
  {
    if |url| == 0 then ""
    else (if url[0] == '+' then "%20" else [url[0]]) + EncodeSolarNetworkUrl(url[1..])
  }

  /** A `+` becomes "%20" and any other character stays. */
  lemma EncodeOneCharacter(c: char)
    ensures EncodeSolarNetworkUrl([c]) == if c == '+' then "%20" else [c]
  {
  }

  /** The rewriting works character by character: it distributes over concatenation. */
  lemma {:induction false} EncodeDistributes(s: string, t: string)
    ensures EncodeSolarNetworkUrl(s + t) == EncodeSolarNetworkUrl(s) + EncodeSolarNetworkUrl(t)
    decreases |s|
  {
    if |s| == 0 {
      assert s + t == t;
    } else {
      assert (s + t)[0] == s[0];
      assert (s + t)[1..] == s[1..] + t;
      EncodeDistributes(s[1..], t);
    }
  }

  /** A URL without '+' is left unchanged. */
  lemma {:induction false} EncodeKeepsOtherCharacters(s: string)
    requires '+' !in s
    ensures EncodeSolarNetworkUrl(s) == s
    decreases |s|
  {
    if |s| != 0 {
      EncodeKeepsOtherCharacters(s[1..]);
      assert s == [s[0]] + s[1..];
    }
  }
}
