/**
 * The measurement table of `listSourceMeasurements`: for every stream's
 * metadata, one row per instantaneous, then per accumulating, then per
 * status field, each row naming the source, the field and marking its
 * category with "Y".
 */
module SourceMeasurements {
  import opened JsValues
  import opened Seqs
  import opened SolarNetworkApi

  /** One row of the table. */
  datatype MeasurementRow = MeasurementRow(
    source: Wire,
    field: string,
    instantaneous: string,
    accumulating: string,
    status: string)

  function Flag(b: bool): string {
    if b then "Y" else ""
  }

  /** The row for `field` of category `kind` in the stream `m`. */
  function RowOf(m: StreamMeta, field: string, kind: MeasurementType): MeasurementRow {
    MeasurementRow(m.sourceId, field, Flag(kind == Instantaneous), Flag(kind == Accumulating), Flag(kind == Status))
  }

  /** The rows of one category of `m`, in the order of its list; an absent list gives none. */
  function CategoryRows(m: StreamMeta, kind: MeasurementType): seq<MeasurementRow> {
    var names := FieldNames(m, kind);
    seq(|names|, k requires 0 <= k < |names| => RowOf(m, names[k], kind))
  }

  /** The rows of one stream: instantaneous, accumulating, then status fields. */
  function SourceRows(m: StreamMeta): seq<MeasurementRow> {
    CategoryRows(m, Instantaneous) + CategoryRows(m, Accumulating) + CategoryRows(m, Status)
  }

  /** The rows of all the streams, in the order of the metadata. */
  function MeasurementRows(metas: seq<StreamMeta>): seq<MeasurementRow> {
    if metas == [] then [] else MeasurementRows(metas[..|metas| - 1]) + SourceRows(metas[|metas| - 1])
  }

  /** The number of field names a stream declares. */
  function FieldCount(m: StreamMeta): nat {
    ListLen(m.i) + ListLen(m.a) + ListLen(m.s)
  }

  function TotalFields(metas: seq<StreamMeta>): nat {
    if metas == [] then 0 else TotalFields(metas[..|metas| - 1]) + FieldCount(metas[|metas| - 1])
  }

  /** The rows of one category, collected one push at a time. */
  method PushCategory(m: StreamMeta, kind: MeasurementType, rows: seq<MeasurementRow>) returns (rows': seq<MeasurementRow>)
    ensures rows' == rows + CategoryRows(m, kind)
  {
    rows' := rows;
    var list := match kind case Instantaneous => m.i case Accumulating => m.a case Status => m.s;
    if list.Some? {
      var names := list.value;
      for k := 0 to |names|
        invariant rows' == rows + CategoryRows(m, kind)[..k]
      {
        assert CategoryRows(m, kind)[..k + 1] == CategoryRows(m, kind)[..k] + [RowOf(m, names[k], kind)];
        rows' := rows' + [RowOf(m, names[k], kind)];
      }
      assert CategoryRows(m, kind)[..|names|] == CategoryRows(m, kind);
    } else {
      assert CategoryRows(m, kind) == [];
    }
  }

  /** The three categories of one stream, pushed in order. */
  method PushSource(m: StreamMeta, rows: seq<MeasurementRow>) returns (rows': seq<MeasurementRow>)
    ensures rows' == rows + SourceRows(m)
  {
    var ci, ca, cs := CategoryRows(m, Instantaneous), CategoryRows(m, Accumulating), CategoryRows(m, Status);
    rows' := PushCategory(m, Instantaneous, rows);
    rows' := PushCategory(m, Accumulating, rows');
    rows' := PushCategory(m, Status, rows');
    AppendAssoc(rows, ci, ca);
    AppendAssoc(rows, ci + ca, cs);
  }

  /** The row-building loop of `listSourceMeasurements`, over the metadata of the matching streams. */
  method ListMeasurementRows(metas: seq<StreamMeta>) returns (rows: seq<MeasurementRow>)
    ensures rows == MeasurementRows(metas)
  {
    rows := [];
    for j := 0 to |metas|
      invariant rows == MeasurementRows(metas[..j])
    {
      rows := PushSource(metas[j], rows);
      assert metas[..j + 1][..j] == metas[..j];
    }
    assert metas[..|metas|] == metas;
  }

  /** There is one row per declared field name. */
  lemma {:induction false} RowCount(metas: seq<StreamMeta>)
    ensures |MeasurementRows(metas)| == TotalFields(metas)
  {
    if metas != [] {
      RowCount(metas[..|metas| - 1]);
    }
  }

  /** Each row marks exactly one category. */
  predicate OneFlag(r: MeasurementRow) {
    || (r.instantaneous == "Y" && r.accumulating == "" && r.status == "")
    || (r.instantaneous == "" && r.accumulating == "Y" && r.status == "")
    || (r.instantaneous == "" && r.accumulating == "" && r.status == "Y")
  }

  lemma {:induction false} EveryRowHasOneFlag(metas: seq<StreamMeta>)
    ensures forall r :: r in MeasurementRows(metas) ==> OneFlag(r)
  {
    if metas != [] {
      EveryRowHasOneFlag(metas[..|metas| - 1]);
      var m := metas[|metas| - 1];
      assert forall r :: r in SourceRows(m) ==> OneFlag(r);
    }
  }

  /** Stream `m` is of source `src` and declares `f` in category `kind`. */
  predicate Declares(m: StreamMeta, src: Wire, f: string, kind: MeasurementType) {
    m.sourceId == src && f in FieldNames(m, kind)
  }

  /** Some stream before position `n` declares `f` in category `kind` for source `src`. */
  predicate DeclaredBefore(metas: seq<StreamMeta>, n: nat, src: Wire, f: string, kind: MeasurementType)
    requires n <= |metas|
  {
    exists j :: 0 <= j < n && Declares(metas[j], src, f, kind)
  }

  lemma DeclaredBeforeSnoc(metas: seq<StreamMeta>, n: nat, src: Wire, f: string, kind: MeasurementType)
    requires n < |metas|
    ensures DeclaredBefore(metas, n + 1, src, f, kind) <==>
      DeclaredBefore(metas, n, src, f, kind) || Declares(metas[n], src, f, kind)
  {
  }

  lemma DeclaredBeforePrefix(metas: seq<StreamMeta>, n: nat, src: Wire, f: string, kind: MeasurementType)
    requires n <= |metas|
    ensures DeclaredBefore(metas[..n], n, src, f, kind) <==> DeclaredBefore(metas, n, src, f, kind)
  {
    assert forall j :: 0 <= j < n ==> metas[..n][j] == metas[j];
  }

  /** A row lists field `f` of category `kind` of source `src` exactly when some stream of that source declares it. */
  lemma {:induction false} RowsListFields(metas: seq<StreamMeta>, src: Wire, f: string, kind: MeasurementType)
    ensures MeasurementRow(src, f, Flag(kind == Instantaneous), Flag(kind == Accumulating), Flag(kind == Status))
      in MeasurementRows(metas)
      <==> exists j :: 0 <= j < |metas| && Declares(metas[j], src, f, kind)
  {
    RowsDeclaredBefore(metas, src, f, kind);
  }

  lemma {:induction false} RowsDeclaredBefore(metas: seq<StreamMeta>, src: Wire, f: string, kind: MeasurementType)
    ensures MeasurementRow(src, f, Flag(kind == Instantaneous), Flag(kind == Accumulating), Flag(kind == Status))
      in MeasurementRows(metas)
      <==> DeclaredBefore(metas, |metas|, src, f, kind)
  {
    if metas != [] {
      var n := |metas| - 1;
      RowsDeclaredBefore(metas[..n], src, f, kind);
      SourceRowsListFields(metas[n], src, f, kind);
      DeclaredBeforePrefix(metas, n, src, f, kind);
      DeclaredBeforeSnoc(metas, n, src, f, kind);
      assert MeasurementRows(metas) == MeasurementRows(metas[..n]) + SourceRows(metas[n]);
    }
  }

  /** Within one stream, a row lists a field of a category exactly when that category declares it. */
  lemma SourceRowsListFields(m: StreamMeta, src: Wire, f: string, kind: MeasurementType)
    ensures MeasurementRow(src, f, Flag(kind == Instantaneous), Flag(kind == Accumulating), Flag(kind == Status))
      in SourceRows(m)
      <==> Declares(m, src, f, kind)
  {
    var row := MeasurementRow(src, f, Flag(kind == Instantaneous), Flag(kind == Accumulating), Flag(kind == Status));
    forall k: MeasurementType
      ensures row in CategoryRows(m, k) <==> k == kind && m.sourceId == src && f in FieldNames(m, k)
    {
      var names := FieldNames(m, k);
      if k == kind && m.sourceId == src && f in names {
        var i :| 0 <= i < |names| && names[i] == f;
        assert CategoryRows(m, k)[i] == row;
      }
      if row in CategoryRows(m, k) {
        var i :| 0 <= i < |names| && CategoryRows(m, k)[i] == row;
        assert names[i] == f;
      }
    }
  }
}
