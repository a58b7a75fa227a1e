/**
 * The writing side of the datum export: every chunk taken from the channel
 * is decoded, each row is checked against the requested columns, and the
 * rows kept are written to standard output as comma-separated lines.
 * An exception thrown while writing ends the writer at once, leaving the
 * output written up to that point.
 */
module Consumer {
  import opened Wrappers
  import opened JsValues
  import opened SolarNetworkApi
  import opened Columns
  import opened Producer
  import opened Sink
  import opened Seqs

  // ---------------------------------------------------------------------
  // Output of a sequence of steps that may throw
  // ---------------------------------------------------------------------

  /** What a step writes, and whether it finished without throwing. */
  datatype Emission = Emission(text: string, ok: bool)

  /** `e`, then `f` unless `e` threw. */
  function Then(e: Emission, f: Emission): Emission {
    if e.ok then Emission(e.text + f.text, f.ok) else e
  }

  /** Steps run one after the other; the first that throws ends the run. */
  function Steps(es: seq<Emission>): Emission {
    if |es| == 0 then Emission("", true) else Then(Steps(es[..|es| - 1]), es[|es| - 1])
  }

  /** The texts of steps, one after the other. */
  function Texts(es: seq<Emission>): string {
    if |es| == 0 then "" else Texts(es[..|es| - 1]) + es[|es| - 1].text
  }

  lemma StepsSnoc(es: seq<Emission>, k: nat)
    requires k < |es|
    ensures Steps(es[..k + 1]) == Then(Steps(es[..k]), es[k])
  {
    assert es[..k + 1][..k] == es[..k];
  }

  /** Once a step has thrown, later steps add nothing. */
  lemma {:induction false} StepsStopAtThrow(es: seq<Emission>, k: nat)
    requires k <= |es| && !Steps(es[..k]).ok
    ensures Steps(es) == Steps(es[..k])
  {
    if k < |es| {
      assert es[..|es| - 1][..k] == es[..k];
      StepsStopAtThrow(es[..|es| - 1], k);
    } else {
      assert es[..k] == es;
    }
  }

  /** One more step of a run in progress: `now` is `mid` with step `k`'s text appended. */
  lemma StepsAdvance(base: string, es: seq<Emission>, k: nat, mid: string, now: string)
    requires k < |es|
    requires Steps(es[..k]).ok && mid == base + Steps(es[..k]).text
    requires now == mid + es[k].text
    ensures now == base + Steps(es[..k + 1]).text
    ensures Steps(es[..k + 1]).ok == es[k].ok
    ensures !es[k].ok ==> Steps(es) == Steps(es[..k + 1])
  {
    StepsSnoc(es, k);
    AppendAssoc(base, Steps(es[..k]).text, es[k].text);
    if !es[k].ok {
      StepsStopAtThrow(es, k + 1);
    }
  }

  /** A run over all of `es`. */
  lemma StepsDone(es: seq<Emission>)
    ensures Steps(es[..|es|]) == Steps(es)
  {
    assert es[..|es|] == es;
  }

  /** A run finishes exactly when every step does, and then writes every step's text. */
  lemma {:induction false} StepsAllOk(es: seq<Emission>)
    ensures Steps(es).ok <==> forall k :: 0 <= k < |es| ==> es[k].ok
    ensures Steps(es).ok ==> Steps(es).text == Texts(es)
  {
    if |es| > 0 {
      var init := es[..|es| - 1];
      StepsAllOk(init);
      assert forall k :: 0 <= k < |init| ==> init[k] == es[k];
      if !Steps(init).ok {
        var j :| 0 <= j < |init| && !init[j].ok;
        assert !es[j].ok;
      }
    }
  }

  // ---------------------------------------------------------------------
  // Which rows are kept
  // ---------------------------------------------------------------------

  /** `timestamp` always counts as found; any other column when its field is declared. */
  predicate ColumnFound(c: string, m: StreamMeta) {
    c == "timestamp" || GetMeasurementDescriptor(m, ColumnName(c)).Some?
  }

  /** `foundColumns.length`. */
  function FoundCount(columns: seq<string>, m: StreamMeta): nat {
    if |columns| == 0 then 0
    else FoundCount(columns[..|columns| - 1], m) + (if ColumnFound(columns[|columns| - 1], m) then 1 else 0)
  }

  /**
   * The keep test of `fetchSNDatumsConsumer`: an incomplete row is `empty`
   * when nothing beyond the timestamp was found, otherwise partial; an
   * empty row needs the `empty` flag, a partial row the `partial` or the
   * `empty` flag.
   */
  predicate Kept(columns: seq<string>, m: StreamMeta, empty: bool, partial: bool) {
    var found := FoundCount(columns, m);
    var haveTimestamp := "timestamp" in columns;
    if found == |columns| then true
    else
      var isEmpty := if haveTimestamp then found == 1 else found == 0;
      var isPartial := if haveTimestamp then found > 1 else found > 0;
      !(isEmpty && !empty) && !(isPartial && !partial && !empty)
  }

  /** At most every column is found, and every column is found exactly when the count is the number of columns. */
  lemma {:induction false} FoundCountBounds(columns: seq<string>, m: StreamMeta)
    ensures FoundCount(columns, m) <= |columns|
    ensures FoundCount(columns, m) == |columns| <==> forall k :: 0 <= k < |columns| ==> ColumnFound(columns[k], m)
  {
    FoundCountAtMost(columns, m);
    FoundCountFull(columns, m);
  }

  lemma {:induction false} FoundCountAtMost(columns: seq<string>, m: StreamMeta)
    ensures FoundCount(columns, m) <= |columns|
  {
    if |columns| > 0 {
      FoundCountAtMost(columns[..|columns| - 1], m);
    }
  }

  lemma {:induction false} FoundCountFull(columns: seq<string>, m: StreamMeta)
    ensures FoundCount(columns, m) == |columns| <==> forall k :: 0 <= k < |columns| ==> ColumnFound(columns[k], m)
  {
    if |columns| > 0 {
      var init := columns[..|columns| - 1];
      var last := columns[|columns| - 1];
      FoundCountAtMost(init, m);
      FoundCountFull(init, m);
      assert forall k :: 0 <= k < |init| ==> init[k] == columns[k];
      if FoundCount(columns, m) == |columns| {
        assert ColumnFound(last, m);
      }
    }
  }

  /** A `timestamp` column is always found. */
  lemma {:induction false} TimestampIsFound(columns: seq<string>, m: StreamMeta)
    requires "timestamp" in columns
    ensures FoundCount(columns, m) >= 1
  {
    var last := columns[|columns| - 1];
    if last != "timestamp" {
      var init := columns[..|columns| - 1];
      assert columns == init + [last];
      TimestampIsFound(init, m);
    }
  }

  /**
   * A complete row is always kept. Otherwise the `empty` flag keeps every
   * row, the `partial` flag keeps the rows with some field beyond the
   * timestamp, and without either flag the row is dropped.
   */
  lemma KeepPolicy(columns: seq<string>, m: StreamMeta, empty: bool, partial: bool)
    ensures (forall k :: 0 <= k < |columns| ==> ColumnFound(columns[k], m)) ==> Kept(columns, m, empty, partial)
    ensures !(forall k :: 0 <= k < |columns| ==> ColumnFound(columns[k], m)) ==>
      (Kept(columns, m, empty, partial) <==>
        empty || (partial && FoundCount(columns, m) > (if "timestamp" in columns then 1 else 0)))
  {
    FoundCountBounds(columns, m);
    if "timestamp" in columns {
      TimestampIsFound(columns, m);
    }
  }

  // ---------------------------------------------------------------------
  // One row
  // ---------------------------------------------------------------------

  /** `if (m[key]) write(m[key].toString())`: a falsy identifier writes nothing. */
  function IdText(w: Wire): (r: string)
    ensures !Truthy(w) ==> r == ""
    ensures Truthy(w) ==> StringOf(w) == Some(r)
    ensures w.Str? ==> r == w.s
    ensures w.Num? && w.num.Int? && w.num.n != 0 ==> r == NumberToString(w.num) && r != ""
    ensures w.Bool? ==> r == (if w.b then "true" else "")
  {
    if Truthy(w) then StringOf(w).value else ""
  }

  /** `w[0]`: None where reading an element of undefined or null throws. */
  function FirstOf(w: Wire): Option<Wire> {
    match w
    case Undefined => None
    case Null => None
    case Arr(items) => Some(if |items| > 0 then items[0] else Undefined)
    case Str(s) => Some(if |s| > 0 then Str([s[0]]) else Undefined)
    case _ => Some(Undefined)
  }

  /** The `timestamp` column: `row[1].toString()` for raw rows, `row[1][0].toString()` for aggregated ones. */
  function TimestampText(row: TaggedDatum): Option<string> {
    match row
    case TaggedRaw(d) => StringOf(d.timestamp)
    case TaggedAggregated(d) =>
      var first := FirstOf(d.timestamp);
      if first.None? then None else StringOf(first.value)
  }

  /** The text of one column, or None where writing it throws. */
  function CellText(c: string, row: TaggedDatum, m: StreamMeta): Option<string> {
    if c == "timestamp" then TimestampText(row)
    else
      var v := ColumnValue(c, row, m);
      if v.Ok? then Some(v.value) else None
  }

  /** Column `i` and its separator: a comma after every column but the last. */
  function CellStep(columns: seq<string>, i: nat, row: TaggedDatum, m: StreamMeta): Emission
    requires i < |columns|
  {
    var sep := if i < |columns| - 1 then "," else "";
    var t := CellText(columns[i], row, m);
    if t.None? then Emission("", false) else Emission(t.value + sep, true)
  }

  function CellSteps(columns: seq<string>, row: TaggedDatum, m: StreamMeta): seq<Emission> {
    seq(|columns|, i requires 0 <= i < |columns| => CellStep(columns, i, row, m))
  }

  /** What a row writes: nothing when it is not kept, else its identifiers, its cells and a newline. */
  function RowEmission(columns: seq<string>, row: TaggedDatum, m: StreamMeta, empty: bool, partial: bool): Emission {
    if !Kept(columns, m, empty, partial) then Emission("", true) else KeptRowEmission(columns, row, m)
  }

  /** The meta index of a decoded row. */
  function RowMeta(row: TaggedDatum): Wire {
    match row
    case TaggedRaw(d) => d.meta
    case TaggedAggregated(d) => d.meta
  }

  /** A row of a chunk: its metadata entry is looked up, and reading from a missing one throws. */
  function RowStep(columns: seq<string>, metas: seq<StreamMeta>, row: TaggedDatum, empty: bool, partial: bool): Emission {
    var m := MetaAt(metas, RowMeta(row));
    if m.None? then Emission("", false) else RowEmission(columns, row, m.value, empty, partial)
  }

  // ---------------------------------------------------------------------
  // Chunks and the whole drain
  // ---------------------------------------------------------------------

  /** The rows a response decodes to, tagged with its state; None where decoding throws. */
  function ParsedRows(r: TaggedStreamResponse): Option<seq<TaggedDatum>> {
    match r.state
    case Raw =>
      var d := DecodedRawRows(r.response);
      if d.Err? then None else Some(seq(|d.value|, k requires 0 <= k < |d.value| => TaggedRaw(d.value[k])))
    case Aggregated =>
      var d := DecodedAggregatedRows(r.response);
      if d.Err? then None else Some(seq(|d.value|, k requires 0 <= k < |d.value| => TaggedAggregated(d.value[k])))
  }

  function RowSteps(columns: seq<string>, metas: seq<StreamMeta>, rows: seq<TaggedDatum>, empty: bool, partial: bool): seq<Emission> {
    seq(|rows|, k requires 0 <= k < |rows| => RowStep(columns, metas, rows[k], empty, partial))
  }

  /** What one chunk writes: nothing for an unsuccessful response, else its rows in order. */
  function ChunkEmission(columns: seq<string>, chunk: SNChunk, empty: bool, partial: bool): Emission {
    var resp := chunk.response;
    if !resp.response.success then Emission("", true)
    else
      var rows := ParsedRows(resp);
      if rows.None? then Emission("", false)
      else Steps(RowSteps(columns, resp.response.meta, rows.value, empty, partial))
  }

  function ChunkSteps(columns: seq<string>, chunks: seq<SNChunk>, empty: bool, partial: bool): seq<Emission> {
    seq(|chunks|, k requires 0 <= k < |chunks| => ChunkEmission(columns, chunks[k], empty, partial))
  }

  /** What the writer puts out for `chunks`: every chunk in turn, then a final newline. */
  function ConsumerEmission(format: string, chunks: seq<SNChunk>, empty: bool, partial: bool): Emission {
    var columns := Split(format, ',');
    Then(Steps(ChunkSteps(columns, chunks, empty, partial)), Emission("\n", true))
  }

  // ---------------------------------------------------------------------
  // The writer
  // ---------------------------------------------------------------------

  /** One column of a row: its text (the timestamp or `columnValue`, either of which may throw), then its separator. */
  method WriteCell(columns: seq<string>, i: nat, row: TaggedDatum, m: StreamMeta, out: Stdout) returns (ok: bool)
    requires i < |columns|
    modifies out
    ensures out.text == old(out.text) + CellSteps(columns, row, m)[i].text
    ensures ok == CellSteps(columns, row, m)[i].ok
  {
    var sep := if i < |columns| - 1 then "," else "";
    var t := CellText(columns[i], row, m);
    if t.None? {
      return false;
    }
    out.Write(t.value);
    out.Write(sep);
    ok := true;
  }

  /** The column loop of `fetchSNDatumsConsumer` for one row. */
  method WriteCells(columns: seq<string>, row: TaggedDatum, m: StreamMeta, out: Stdout) returns (ok: bool)
    modifies out
    ensures out.text == old(out.text) + Steps(CellSteps(columns, row, m)).text
    ensures ok == Steps(CellSteps(columns, row, m)).ok
  {
    ghost var es := CellSteps(columns, row, m);
    for i := 0 to |columns|
      invariant Steps(es[..i]).ok
      invariant out.text == old(out.text) + Steps(es[..i]).text
    {
      ghost var mid := out.text;
      var cellOk := WriteCell(columns, i, row, m, out);
      StepsAdvance(old(out.text), es, i, mid, out.text);
      if !cellOk {
        return false;
      }
    }
    StepsDone(es);
    ok := true;
  }

  /** The identifiers that open a kept row, each followed by a comma. */
  function LeadText(m: StreamMeta): string {
    IdText(m.sourceId) + "," + IdText(m.objectId) + ","
  }

  /** What a kept row writes: its identifiers, its cells and a newline. */
  function KeptRowEmission(columns: seq<string>, row: TaggedDatum, m: StreamMeta): Emission {
    Then(Then(Emission(LeadText(m), true), Steps(CellSteps(columns, row, m))), Emission("\n", true))
  }

  /** The source identifier and the object identifier, when truthy, each followed by a comma. */
  method WriteLead(m: StreamMeta, out: Stdout)
    modifies out
    ensures out.text == old(out.text) + LeadText(m)
  {
    var t0 := out.text;
    if Truthy(m.sourceId) {
      out.Write(StringOf(m.sourceId).value);
    }
    assert out.text == t0 + IdText(m.sourceId);
    out.Write(",");
    AppendAssoc(t0, IdText(m.sourceId), ",");
    if Truthy(m.objectId) {
      out.Write(StringOf(m.objectId).value);
    }
    AppendAssoc(t0, IdText(m.sourceId) + ",", IdText(m.objectId));
    out.Write(",");
    AppendAssoc(t0, IdText(m.sourceId) + "," + IdText(m.objectId), ",");
  }

  /** A kept row: its identifiers, then the cells, then a newline unless a cell threw. */
  method WriteKeptRow(columns: seq<string>, row: TaggedDatum, m: StreamMeta, out: Stdout) returns (ok: bool)
    modifies out
    ensures out.text == old(out.text) + KeptRowEmission(columns, row, m).text
    ensures ok == KeptRowEmission(columns, row, m).ok
  {
    WriteLead(m, out);
    ok := WriteCells(columns, row, m, out);
    var cells := Steps(CellSteps(columns, row, m));
    AppendAssoc(old(out.text), LeadText(m), cells.text);
    if !ok {
      return;
    }
    out.Write("\n");
    AppendAssoc(old(out.text), LeadText(m) + cells.text, "\n");
  }

  /** One row of `fetchSNDatumsConsumer`: a row that fails the keep test writes nothing. */
  method WriteRow(columns: seq<string>, row: TaggedDatum, m: StreamMeta, empty: bool, partial: bool, out: Stdout)
    returns (ok: bool)
    modifies out
    ensures out.text == old(out.text) + RowEmission(columns, row, m, empty, partial).text
    ensures ok == RowEmission(columns, row, m, empty, partial).ok
  {
    if !Kept(columns, m, empty, partial) {
      return true;
    }
    ok := WriteKeptRow(columns, row, m, out);
  }

  /** Row `k` of a chunk: its metadata entry is looked up, then the row is written. */
  method WriteRowAt(columns: seq<string>, metas: seq<StreamMeta>, rows: seq<TaggedDatum>, k: nat,
                    empty: bool, partial: bool, out: Stdout) returns (ok: bool)
    requires k < |rows|
    modifies out
    ensures out.text == old(out.text) + RowSteps(columns, metas, rows, empty, partial)[k].text
    ensures ok == RowSteps(columns, metas, rows, empty, partial)[k].ok
  {
    var m := MetaAt(metas, RowMeta(rows[k]));
    if m.None? {
      return false;
    }
    ok := WriteRow(columns, rows[k], m.value, empty, partial, out);
  }

  /** The rows of a response, decoded by its state; None where decoding throws. */
  method DecodeRows(resp: TaggedStreamResponse) returns (rows: Option<seq<TaggedDatum>>)
    ensures rows == ParsedRows(resp)
  {
    match resp.state {
      case Raw =>
        var r := ParseRawDatums(resp.response);
        if r.Err? {
          return None;
        }
        rows := Some(seq(|r.value|, k requires 0 <= k < |r.value| => TaggedRaw(r.value[k])));
      case Aggregated =>
        var r := ParseAggregatedDatums(resp.response);
        if r.Err? {
          return None;
        }
        rows := Some(seq(|r.value|, k requires 0 <= k < |r.value| => TaggedAggregated(r.value[k])));
    }
  }

  /** Chunk `i` taken from the channel: skipped when unsuccessful, else decoded and written row by row. */
  method WriteChunk(columns: seq<string>, chunks: seq<SNChunk>, i: nat, empty: bool, partial: bool, out: Stdout)
    returns (ok: bool)
    requires i < |chunks|
    modifies out
    ensures out.text == old(out.text) + ChunkSteps(columns, chunks, empty, partial)[i].text
    ensures ok == ChunkSteps(columns, chunks, empty, partial)[i].ok
  {
    var resp := chunks[i].response;
    if !resp.response.success {
      return true;
    }
    var parsed := DecodeRows(resp);
    if parsed.None? {
      return false;
    }
    ok := WriteRows(columns, resp.response.meta, parsed.value, empty, partial, out);
  }

  /** The rows of one chunk, in order, until one throws. */
  method WriteRows(columns: seq<string>, metas: seq<StreamMeta>, rows: seq<TaggedDatum>, empty: bool, partial: bool, out: Stdout)
    returns (ok: bool)
    modifies out
    ensures out.text == old(out.text) + Steps(RowSteps(columns, metas, rows, empty, partial)).text
    ensures ok == Steps(RowSteps(columns, metas, rows, empty, partial)).ok
  {
    ghost var es := RowSteps(columns, metas, rows, empty, partial);
    for k := 0 to |rows|
      invariant Steps(es[..k]).ok
      invariant out.text == old(out.text) + Steps(es[..k]).text
    {
      ghost var mid := out.text;
      var rowOk := WriteRowAt(columns, metas, rows, k, empty, partial, out);
      StepsAdvance(old(out.text), es, k, mid, out.text);
      if !rowOk {
        return false;
      }
    }
    StepsDone(es);
    ok := true;
  }

  /** Every chunk in the order the channel delivers them, until one throws. */
  method WriteChunks(columns: seq<string>, chunks: seq<SNChunk>, empty: bool, partial: bool, out: Stdout)
    returns (ok: bool)
    modifies out
    ensures out.text == old(out.text) + Steps(ChunkSteps(columns, chunks, empty, partial)).text
    ensures ok == Steps(ChunkSteps(columns, chunks, empty, partial)).ok
  {
    ghost var es := ChunkSteps(columns, chunks, empty, partial);
    for k := 0 to |chunks|
      invariant Steps(es[..k]).ok
      invariant out.text == old(out.text) + Steps(es[..k]).text
    {
      ghost var mid := out.text;
      var chunkOk := WriteChunk(columns, chunks, k, empty, partial, out);
      StepsAdvance(old(out.text), es, k, mid, out.text);
      if !chunkOk {
        return false;
      }
    }
    StepsDone(es);
    ok := true;
  }

  /**
   * `fetchSNDatumsConsumer`: the columns are the format split at commas;
   * after the last chunk a newline ends the output. `ok` is false when an
   * exception ended it early.
   */
  method FetchSNDatumsConsumer(chunks: seq<SNChunk>, format: string, empty: bool, partial: bool, out: Stdout)
    returns (ok: bool)
    modifies out
    ensures out.text == old(out.text) + ConsumerEmission(format, chunks, empty, partial).text
    ensures ok == ConsumerEmission(format, chunks, empty, partial).ok
  {
    var columns := Split(format, ',');
    ok := WriteChunks(columns, chunks, empty, partial, out);
    if !ok {
      return;
    }
    out.Write("\n");
  }

  // ---------------------------------------------------------------------
  // Properties of the output
  // ---------------------------------------------------------------------

  /** Steps that each write a value and a comma, except the last, which writes its value alone, write the values joined by commas. */
  lemma {:induction false} StepsJoin(es: seq<Emission>, vs: seq<string>, k: nat)
    requires |es| == |vs| && 1 <= k <= |es|
    requires forall i :: 0 <= i < |es| ==> es[i] == Emission(vs[i] + (if i < |es| - 1 then "," else ""), true)
    ensures Steps(es[..k]) == Emission(Join(vs[..k], ",") + (if k < |es| then "," else ""), true)
  {
    var sep := if k < |es| then "," else "";
    if k == 1 {
      assert es[..1] == [es[0]];
      assert vs[..1] == [vs[0]];
      assert Steps(es[..1]) == Then(Steps([]), es[0]);
    } else {
      StepsJoin(es, vs, k - 1);
      StepsSnoc(es, k - 1);
      var init := Join(vs[..k - 1], ",");
      assert vs[..k] == vs[..k - 1] + [vs[k - 1]];
      JoinSnoc(vs[..k - 1], vs[k - 1], ",");
      AppendAssoc(init + ",", vs[k - 1], sep);
    }
  }

  /** The cells of a row in which no cell throws: their texts joined by commas. */
  lemma CellsJoin(columns: seq<string>, row: TaggedDatum, m: StreamMeta)
    requires |columns| >= 1
    requires forall i :: 0 <= i < |columns| ==> CellText(columns[i], row, m).Some?
    ensures Steps(CellSteps(columns, row, m)) ==
      Emission(Join(seq(|columns|, i requires 0 <= i < |columns| => CellText(columns[i], row, m).value), ","), true)
  {
    var es := CellSteps(columns, row, m);
    var vs := seq(|columns|, i requires 0 <= i < |columns| => CellText(columns[i], row, m).value);
    StepsJoin(es, vs, |es|);
    assert es[..|es|] == es;
    assert vs[..|vs|] == vs;
  }

  /**
   * A kept row whose every cell can be written is one line: its source id,
   * a comma, its object id, a comma, the cells joined by commas (no comma
   * after the last), and a newline.
   */
  lemma RowLineFormat(columns: seq<string>, row: TaggedDatum, m: StreamMeta, empty: bool, partial: bool)
    requires |columns| >= 1
    requires Kept(columns, m, empty, partial)
    requires forall i :: 0 <= i < |columns| ==> CellText(columns[i], row, m).Some?
    ensures RowEmission(columns, row, m, empty, partial) ==
      Emission(IdText(m.sourceId) + "," + IdText(m.objectId) + "," +
               Join(seq(|columns|, i requires 0 <= i < |columns| => CellText(columns[i], row, m).value), ",") + "\n",
               true)
  {
    CellsJoin(columns, row, m);
  }

  /** The header line printed before any row: the two identifier columns, then the format as given. */
  function ExportHeader(format: string): string {
    "sourceId,objectId," + format + "\n"
  }

  /** The header names a column for each cell of a kept row: the two identifiers, then each requested column. */
  lemma HeaderColumns(format: string)
    ensures ExportHeader(format) == Join(["sourceId", "objectId"] + Split(format, ','), ",") + "\n"
  {
    var parts := Split(format, ',');
    var all := ["sourceId", "objectId"] + parts;
    assert all[1..] == ["objectId"] + parts;
    assert all[1..][1..] == parts;
    assert Join(parts, ",") == format;
  }

  /** A row that is not kept writes nothing and does not throw. */
  lemma DroppedRowWritesNothing(columns: seq<string>, row: TaggedDatum, m: StreamMeta, empty: bool, partial: bool)
    requires !Kept(columns, m, empty, partial)
    ensures RowEmission(columns, row, m, empty, partial) == Emission("", true)
  {
  }

  /** An unsuccessful response writes nothing and does not throw. */
  lemma FailedResponseSkipped(columns: seq<string>, chunk: SNChunk, empty: bool, partial: bool)
    requires !chunk.response.response.success
    ensures ChunkEmission(columns, chunk, empty, partial) == Emission("", true)
  {
  }

  /**
   * The writer finishes exactly when every chunk does, and then writes the
   * chunks' output in order followed by one newline. Without chunks it
   * writes just the newline.
   */
  lemma ConsumerDrain(format: string, chunks: seq<SNChunk>, empty: bool, partial: bool)
    ensures ConsumerEmission(format, chunks, empty, partial).ok <==>
      forall k :: 0 <= k < |chunks| ==> ChunkEmission(Split(format, ','), chunks[k], empty, partial).ok
    ensures ConsumerEmission(format, chunks, empty, partial).ok ==>
      ConsumerEmission(format, chunks, empty, partial).text == Texts(ChunkSteps(Split(format, ','), chunks, empty, partial)) + "\n"
    ensures chunks == [] ==> ConsumerEmission(format, chunks, empty, partial) == Emission("\n", true)
  {
    var es := ChunkSteps(Split(format, ','), chunks, empty, partial);
    StepsAllOk(es);
    assert forall k :: 0 <= k < |chunks| ==> es[k] == ChunkEmission(Split(format, ','), chunks[k], empty, partial);
  }

  /** An exception in a chunk ends the output with that chunk's partial text: no final newline follows. */
  lemma ThrowEndsOutput(format: string, chunks: seq<SNChunk>, empty: bool, partial: bool, k: nat)
    requires k < |chunks|
    requires var es := ChunkSteps(Split(format, ','), chunks, empty, partial);
      Steps(es[..k]).ok && !es[k].ok
    ensures var es := ChunkSteps(Split(format, ','), chunks, empty, partial);
      ConsumerEmission(format, chunks, empty, partial) == Emission(Steps(es[..k]).text + es[k].text, false)
  {
    var es := ChunkSteps(Split(format, ','), chunks, empty, partial);
    StepsSnoc(es, k);
    StepsStopAtThrow(es, k + 1);
  }

  /** The `timestamp` cell of a raw row is its timestamp; of an aggregated row, the first element of its timestamp list. */
  lemma TimestampCells(d: RawDatum, g: AggregatedDatum, x: Number, y: Wire, rest: seq<Wire>)
    requires d.timestamp == Num(x)
    requires g.timestamp == Arr([y] + rest)
    ensures TimestampText(TaggedRaw(d)) == Some(NumberToString(x))
    ensures TimestampText(TaggedAggregated(g)) == StringOf(y)
    ensures TimestampText(TaggedRaw(d.(timestamp := Undefined))).None?
  {
  }
}
