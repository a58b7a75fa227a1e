# solarquant core, modelled in Dafny

solarquant is a command-line tool for exporting SolarNetwork datum streams as
CSV. It also starts bulk export tasks on SolarNetwork and lists events from an
asset-management service (AMS). This project models the logic between the
network calls and standard output, and proves properties of that model:

- **Wire decoding** (`SolarNetworkApi`). Positional datum tuples are decoded
  into raw and aggregated rows. Each slot is placed using the lengths of the
  stream metadata's `i`/`a`/`s` lists. Mistyped slots are coerced to NaN or
  `""`. Field names are resolved to a category and an index. Location datums
  are split into samples. `+` in URLs is rewritten to `%20`.
- **Monthly range planner** (`Util`). `getDateRanges` is a loop that advances
  a month at a time. Instants are abstract pairs (month, position in month).
- **Columns** (`Columns`). `name$selector` columns are split and routed to a
  field and a statistic of raw or aggregated rows.
- **Producer** (`Producer`). `chunkArray` shares the sources among workers.
  One worker fetches every (source, month) pair into a channel, numbering the
  chunks of a source by range.
- **Consumer** (`Consumer`). It applies the keep/drop policy for incomplete
  rows and writes each kept row as a CSV line to standard output. Standard
  output is modelled as `Sink.Stdout`.
- **Export coordinator** (`ExportTask`). `startExportTask` without its network
  calls: option validation, type selection, `key:value` property resolution
  with toggle coercion, building the service-property records, and the poll
  loop over the task list.
- **Event listing** (`Ams`). The header, escaping and line layout of
  `listEvents`.
- **Measurement table** (`SourceMeasurements`). The rows that
  `listSourceMeasurements` builds from stream metadata.

Inputs from the network (responses, task lists, type lists, node ids) and the
generated task name are parameters. Concurrency is out of scope: one producer
writes to a channel's record of sent chunks, and the consumer drains a given
sequence of chunks.

JavaScript numbers are `JsValues.Number`: exact integers plus a NaN constructor.
A JSON value is `JsValues.Wire`. Truthiness, `toString`, `indexOf`, `split`
and `join` are written out for these types.

Behaviour of the code that the model keeps, though it may look unintended:

- The last date range is not clipped to the end instant.
- `a == b` gives one range.
- A raw row ignores the column's selector.
- An aggregated entry that is too short for its selector throws a TypeError
  instead of giving `""`.
- The error messages for the output and destination type lists are the same
  "Failed to fetch compression types: " as for the compression list.
- An export task that fails with status `c` still returns success.
- The result of submitting the task is ignored.

## Model

| member | source | states |
|---|---|---|
| JsValues.IndexOf | src/solarnetwork.ts:26 | `indexOf` gives -1 exactly when the character is absent; otherwise an index holding it with no earlier occurrence |
| JsValues.FindIndex | src/solarnetwork_api.ts:442 | `findIndex` gives -1 exactly when no element matches; otherwise the first matching index |
| JsValues.Find | src/solarnetwork.ts:645-653 | `find` gives nothing exactly when no element matches; otherwise the first matching element of the list |
| JsValues.Split | src/solarnetwork.ts:305 | `split` on one character gives at least one piece and no piece holds the separator; joining the pieces with it gives back the string |
| JsValues.JoinSnoc | src/solarnetwork.ts:377-424 | joining one more part appends the separator and that part |
| SolarNetworkApi.EnsureTypesDoNotConvert | src/solarnetwork_api.ts:272-280 | the coercions never convert: a string is NaN as a number, a number is "" as a string; a number result came from that number, a non-empty string result from that string; coercing a result again changes nothing |
| SolarNetworkApi.EnsureNumbers | src/solarnetwork_api.ts:412 | the list keeps its length; each number element comes back as itself and every other element as NaN |
| SolarNetworkApi.GetMeasurementDescriptor | src/solarnetwork_api.ts:437-469 | no descriptor exactly when the name is in none of the three lists; otherwise the first index of the name in the list of the reported category; a name in `i` is never reported as `a` or `s`, and one in `a` never as `s` |
| JsValues.ArrayIndexFinds | src/solarnetwork_api.ts:353 | the decimal text of a position below the array's length names exactly that position |
| SolarNetworkApi.MetaAtIndex | src/solarnetwork_api.ts:353 | the index `n`, the string `"n"` and the array `[n]` all name metadata entry `n`, since the index is converted to a property key |
| SolarNetworkApi.MetaAtRefuses | src/solarnetwork_api.ts:353 | undefined, null, booleans, NaN, negative or out-of-range numbers and decimal text with a leading zero name no entry |
| SolarNetworkApi.DecodeRawTuple | src/solarnetwork_api.ts:355-383 | the three loops over the i, a and s lengths give the closed-form raw decoding of the tuple |
| SolarNetworkApi.DecodeAggregatedTuple | src/solarnetwork_api.ts:396-433 | the three loops over the i, a and s lengths give the closed-form aggregated decoding of the tuple |
| SolarNetworkApi.ParseRawDatum | src/solarnetwork_api.ts:349-384 | decoding fails exactly when element 0 names no metadata entry; otherwise the row is the decoding of the tuple under that entry |
| SolarNetworkApi.RawLayout | src/solarnetwork_api.ts:350-383 | a decoded raw row passes meta and timestamp through and has no tags; `i`, `a` and `s` have the metadata's list lengths; `i[j]`, `a[j]` and `s[j]` are the coerced slots `2+j`, `2+i_len+j` and `2+i_len+a_len+j`, or NaN or "" past the end |
| SolarNetworkApi.ParseAggregatedDatum | src/solarnetwork_api.ts:389-434 | decoding fails exactly when element 0 names no metadata entry; otherwise the row is the aggregated decoding of the tuple under that entry |
| SolarNetworkApi.AggregatedLayout | src/solarnetwork_api.ts:390-433 | meta, timestamp and empty tags as for raw rows, with the metadata's list lengths; an `i` slot that is not an array becomes four NaNs and an `a` slot three; an array slot is coerced element by element with its length kept; status slots as for raw rows |
| SolarNetworkApi.ParseRawDatums | src/solarnetwork_api.ts:347-385 | one row per tuple, in order; fails exactly when some tuple names no metadata entry |
| SolarNetworkApi.ParseAggregatedDatums | src/solarnetwork_api.ts:387-435 | one row per tuple, in order; fails exactly when some tuple names no metadata entry |
| SolarNetworkApi.ParseRawLocationDatum | src/solarnetwork_api.ts:284-303 | samples hold every key outside the six ignored keys and none of those keys, each key once as in the `Map`; the identifying fields are read through; tags default to an empty list when falsy |
| SolarNetworkApi.ParseAggregatedLocationDatum | src/solarnetwork_api.ts:308-344 | keys containing `_` and the ignored keys are skipped; every other entry has its sample, each key once as in the `Map`; a sample is aggregated exactly when both `key_min` and `key_max` are defined, otherwise raw; the identifying fields and tags as for raw datums |
| SolarNetworkApi.ParseRawLocationDatums | src/solarnetwork_api.ts:282-304 | one datum per result, in order, each with the samples and tags of its result |
| SolarNetworkApi.ParseAggregatedLocationDatums | src/solarnetwork_api.ts:306-345 | one datum per result, in order, each with the samples and tags of its result |
| SolarNetworkApi.EncodeSolarNetworkUrl | src/solarnetwork_api.ts:40-44 | no `+` is left, and the text grows by two characters per `+` |
| SolarNetworkApi.EncodeDistributes | src/solarnetwork_api.ts:40-44 | encoding a concatenation encodes each part, so with `EncodeOneCharacter` each `+` becomes `%20` where it stood |
| SolarNetworkApi.EncodeOneCharacter | src/solarnetwork_api.ts:40-44 | a single `+` becomes `%20` and any other character stays |
| SolarNetworkApi.EncodeKeepsOtherCharacters | src/solarnetwork_api.ts:40-44 | text without `+` is unchanged |
| Util.GetDateRanges | src/util.ts:8-34 | the loop stops by the source's rule (within a month of `b`, never at `b` after the first range) and returns `RangeCount(a, b)` one-month ranges starting at `a` |
| Util.RangeCountIsExact | src/util.ts:11-31 | any count that obeys the stopping rule is the closed-form count |
| Util.RangeCountStops | src/util.ts:11-19 | the closed-form count obeys the stopping rule |
| Util.RangesAreMonths | src/util.ts:15-22 | range `k` begins `k` months after `a` and ends one month after it begins; the first begins at `a` |
| Util.RangesAreContiguous | src/util.ts:11-22 | each range begins where the previous one ended, and the starts strictly increase |
| Util.RangesStartInWindow | src/util.ts:11-19 | some range exists exactly when `a` is less than a month past `b`; no later range begins at `b`; every begin is within a month of `b` |
| Util.LastRangeReachesEnd | src/util.ts:11-22 | the last range does not end before `b` |
| Util.SameInstantGivesOneRange | src/util.ts:15-19 | `a == b` gives exactly the range `[a, a + 1 month)` |
| Util.LastRangeOvershoots | src/util.ts:11-22 | the last range is not clipped: from month 0 to month 1 plus a bit gives three whole months |
| Columns.ColumnName | src/solarnetwork.ts:25-28 | the name holds no `$`, is a prefix of the column, equals it exactly when it has no `$`, and is followed there by the first `$` |
| Columns.ColumnSelector | src/solarnetwork.ts:31-42 | the selector is "" without a `$`; otherwise the column is name + `$` + selector |
| Columns.InstantaneousComponent | src/solarnetwork.ts:77-90 | exactly "", `average`, `count`, `minimum` and `maximum` are recognised; "" and `average` name the average, the others their own component |
| Columns.AccumulatingComponent | src/solarnetwork.ts:126-137 | exactly "", `difference`, `starting` and `ending` are recognised; "" and `ending` name the ending reading, the others their own component |
| Columns.DeclaredFieldValue | src/solarnetwork.ts:49-153 | for a declared field: a position past the end of the category's list reads "" in raw and aggregated rows alike; a raw numeric value reads as its text and a status value as itself, under every selector |
| Columns.FieldValue | src/solarnetwork.ts:34-153 | an undeclared field gives ""; only aggregated numeric fields can throw, a thrown selector error names the selector, and every unrecognised selector on an aggregated entry that is present throws with that selector; a numeric value holds no comma or newline |
| Columns.ColumnSplits | src/solarnetwork.ts:25-42 | a column is its name plus, when it has a `$`, `$` and its selector |
| Columns.ColumnOfParts | src/solarnetwork.ts:30-42 | the value of column `name` or `name$sel` is the field `name` read under selector "" or `sel` |
| Columns.SelectorOf | src/solarnetwork.ts:25-42 | splitting `name$sel` recovers both parts when the name has no `$` |
| Columns.RawRowIgnoresSelector | src/solarnetwork.ts:49-61 | a raw row gives the same value under every selector and never throws |
| Columns.StatusIgnoresSelector | src/solarnetwork.ts:142-153 | a status field gives the same value under every selector and never throws |
| Columns.AggregatedField | src/solarnetwork.ts:64-73 | a declared numeric field of an aggregated row with an entry at its index reads the component its selector names |
| Columns.InstantaneousSelectors | src/solarnetwork.ts:75-90 | "" and `average` give the average, and `count`, `minimum` and `maximum` give their own components, at any position of the list; every other selector, the accumulating ones included, throws an unrecognised-meta error |
| Columns.AccumulatingSelectors | src/solarnetwork.ts:124-137 | "" and `ending` give the ending reading, and `difference` and `starting` give their own components, at any position of the list; every other selector, the instantaneous ones included, throws an unrecognised-meta error |
| Columns.ShortEntryThrows | src/solarnetwork.ts:75-87 | for a recognised selector, at any position of either numeric category, an aggregated entry too short for the selected component throws a TypeError, and a long enough one reads that component |
| Producer.BoundsOrdered | src/solarnetwork.ts:161 | the slice bounds strictly increase and stay within the array |
| Producer.ChunkArray | src/solarnetwork.ts:157-164 | the loop returns the specified chunks |
| Producer.ConcatChunksPrefix | src/solarnetwork.ts:160-162 | the first `k` chunks concatenate to the array up to the `k`-th bound |
| Producer.ChunksPartition | src/solarnetwork.ts:157-164 | no chunks for zero workers; otherwise the chunks concatenate to the array; there are `n` chunks, or `len` when `len < n`, and those are singletons; no chunk is empty |
| Producer.ChunksBalanced | src/solarnetwork.ts:158-161 | with at least `n` items every chunk holds `len/n` or `len/n + 1` items |
| Producer.Channel.Send | src/solarnetwork.ts:291-294 | sending appends the chunk to what was sent |
| Producer.SourceChunksStep | src/solarnetwork.ts:277-295 | one more range adds its chunk, or nothing when its fetch failed |
| Producer.ProducerOutputStep | src/solarnetwork.ts:270-300 | one more source adds that source's chunks |
| Producer.FetchSource | src/solarnetwork.ts:275-295 | the range loop sends exactly the chunks of one source |
| Producer.FetchSNDatumsProducer | src/solarnetwork.ts:263-301 | a worker without a group sends nothing; otherwise it sends every source's chunks, in order, over the planned ranges |
| Producer.SourceChunksTagged | src/solarnetwork.ts:275-294 | every chunk carries its 1-based range number and the response fetched for that range; the numbers strictly increase |
| Producer.SourceChunksComplete | src/solarnetwork.ts:284-294 | a chunk for a range is sent exactly when its fetch succeeded |
| Producer.SourceChunksSize | src/solarnetwork.ts:277-295 | when every fetch succeeds a source sends one chunk per range |
| Producer.ProducerOutputSize | src/solarnetwork.ts:270-295 | when every fetch succeeds a worker sends sources × ranges chunks |
| Consumer.FoundCountBounds | src/solarnetwork.ts:346-353 | at most every column is found, and all are found exactly when each one is |
| Consumer.TimestampIsFound | src/solarnetwork.ts:346-351 | a `timestamp` column always counts as found |
| Consumer.KeepPolicy | src/solarnetwork.ts:341-365 | a complete row is always kept; an incomplete one is kept with `empty`, with `partial` only when it is partial, and never without either flag |
| Consumer.IdText | src/solarnetwork.ts:367-375 | a falsy identifier writes ""; a string identifier writes itself, a non-zero number its decimal text, `true` the word `true` |
| Consumer.WriteCell | src/solarnetwork.ts:377-424 | writing one cell writes its text and separator, or throws as the column value does |
| Consumer.WriteCells | src/solarnetwork.ts:377-424 | the cell loop writes every cell in order, up to the first throw |
| Consumer.WriteLead | src/solarnetwork.ts:367-375 | the two identifiers, each followed by a comma |
| Consumer.WriteKeptRow | src/solarnetwork.ts:367-426 | the identifiers, the cells and a newline |
| Consumer.WriteRow | src/solarnetwork.ts:335-427 | a dropped row writes nothing; a kept row writes its line |
| Consumer.WriteRowAt | src/solarnetwork.ts:335-427 | the row at a position of a chunk, with the metadata its meta index names |
| Consumer.DecodeRows | src/solarnetwork.ts:321-333 | a chunk's rows decoded according to its state |
| Consumer.WriteChunk | src/solarnetwork.ts:312-428 | an unsuccessful chunk writes nothing; otherwise its rows in order |
| Consumer.WriteRows | src/solarnetwork.ts:335-427 | the rows of a chunk in order, up to the first throw |
| Consumer.WriteChunks | src/solarnetwork.ts:312-428 | the chunks in delivery order, up to the first throw |
| Consumer.FetchSNDatumsConsumer | src/solarnetwork.ts:303-431 | the consumer writes what the chunk sequence specifies and reports whether it threw |
| Consumer.StepsAllOk | src/solarnetwork.ts:312-430 | a sequence of writes does not throw exactly when no step throws, and then writes every step's text |
| Consumer.StepsStopAtThrow | src/solarnetwork.ts:312-430 | once a step has thrown, later steps add nothing |
| Consumer.StepsJoin | src/solarnetwork.ts:377-424 | cells written with a comma after all but the last make their join, with no trailing comma |
| Consumer.CellsJoin | src/solarnetwork.ts:377-424 | when no cell throws, the cell loop writes the cells joined by commas |
| Consumer.RowLineFormat | src/solarnetwork.ts:367-426 | a kept row whose cells do not throw writes `sourceId,objectId,` then its cells joined by commas, then a newline |
| Consumer.HeaderColumns | src/solarnetwork.ts:469 | the header names `sourceId`, `objectId` and then each requested column, joined by commas |
| Consumer.DroppedRowWritesNothing | src/solarnetwork.ts:353-365 | a row the policy drops writes nothing and does not throw |
| Consumer.FailedResponseSkipped | src/solarnetwork.ts:317-319 | an unsuccessful chunk writes nothing and does not throw |
| Consumer.ConsumerDrain | src/solarnetwork.ts:312-430 | the drain does not throw exactly when no chunk throws; it then writes every chunk's text and a final newline; no chunks write just the newline |
| Consumer.ThrowEndsOutput | src/solarnetwork.ts:312-430 | after the first chunk that throws, nothing more is written, not even the final newline |
| Consumer.TimestampCells | src/solarnetwork.ts:381-396 | the timestamp cell is element 1 of a raw row or the first element of an aggregated row's element 1; an undefined timestamp throws |
| ExportTask.PreflightOrder | src/solarnetwork.ts:592-642 | each check in turn, once every earlier one has passed, gives its own message: no credentials, no token, no secret (whatever the node ids), failed node ids, missing start or end, source, output, destination, and then the first failed type list, always reported as a compression-types failure; passing these checks means credentials, ids and the required options are present |
| ExportTask.RefusedBeforeSubmission | src/solarnetwork.ts:592-642 | a failed check refuses the export with its message before any type is selected or anything submitted, and `startExportTask` resolves to that error |
| ExportTask.SplitOnce | src/solarnetwork.ts:577-587 | the result always has two parts |
| ExportTask.RejoinedIsJoin | src/solarnetwork.ts:580-585 | the reduction joins the pieces after the first with `:` |
| ExportTask.SplitOnceAtColon | src/solarnetwork.ts:577-587 | the key holds no `:`; with a `:` the key, `:` and value give back the text; without one the result is the text and "" |
| ExportTask.FindTypeFirst | src/solarnetwork.ts:645-653 | no type exactly when none matches by id or localized name; otherwise the first that does |
| ExportTask.ResolveProps | src/solarnetwork.ts:665-674 | one resolved property per `key:value` option |
| ExportTask.ResolvedKeys | src/solarnetwork.ts:665-674 | each option is split once at `:`, and its specifier is the first setting with that key (no earlier setting has it), and there is none exactly when no setting has the key |
| ExportTask.UnresolvedFound | src/solarnetwork.ts:677-686 | the search for an unresolved property finds none exactly when all are resolved |
| ExportTask.AllOptionsResolve | src/solarnetwork.ts:665-686 | all options resolve exactly when each key names a setting of the type |
| ExportTask.PropertyCheck | src/solarnetwork.ts:676-686 | the property check passes exactly when every output and destination key names a setting |
| ExportTask.FirstUnknownReported | src/solarnetwork.ts:677-681 | the first output option without a setting is the one reported, as its parts joined by a comma |
| ExportTask.ServiceKeys | src/solarnetwork.ts:699-719 | the record has exactly the keys of the options |
| ExportTask.LastAssignmentWins | src/solarnetwork.ts:700-708 | a key takes the coerced value of its last option |
| ExportTask.ToggleCoercion | src/solarnetwork.ts:703-707 | a toggle setting becomes true exactly when its value is "true"; any other setting keeps the string |
| ExportTask.BuildServiceProperties | src/solarnetwork.ts:699-719 | the loop builds the specified record |
| ExportTask.PollExportTask | src/solarnetwork.ts:743-770 | the poll loop ends as the specified run over the observed task lists |
| ExportTask.PollRunsOut | src/solarnetwork.ts:743-770 | the loop is still polling exactly when every observation says to continue |
| ExportTask.FirstDecisionWins | src/solarnetwork.ts:743-770 | the first observation that does not continue decides the outcome |
| ExportTask.PollStepCases | src/solarnetwork.ts:749-769 | success stops; not success with `q` or no message continues; `c` with a message stops with the failure logged; any other status with a message continues |
| ExportTask.LostTask | src/solarnetwork.ts:749-753 | a task list without the task gives the lost-track error |
| ExportTask.StartExportTask | src/solarnetwork.ts:589-773 | the coordinator follows the specified run: checks, selection, property resolution, request and polling |
| ExportTask.RequestUsesSelectedTypes | src/solarnetwork.ts:688-737 | a prepared request implies valid credentials and node ids, and carries the name, the filter from the options and the ids of the first matching types |
| ExportTask.SubmitResultIgnored | src/solarnetwork.ts:739 | the outcome does not depend on the submit result |
| ExportTask.FailedTaskReturnsOk | src/solarnetwork.ts:763-772 | a task that failed with status `c` still returns success |
| Ams.LinePrefixIsJoin | src/ams.ts:207-210 | the first `k` cells of a line are those cells joined by commas, then the separator after cell `k - 1` |
| Ams.LineIsJoin | src/ams.ts:207-223 | a line is its cells joined by commas, then a newline |
| Ams.HeaderIsJoin | src/ams.ts:193-210 | the header is the twelve property names joined by commas, then a newline |
| Ams.LineHasOneNewline | src/ams.ts:212-223 | a line whose cells hold no newline holds exactly one |
| Ams.ReplaceAll | src/ams.ts:217-219 | a global replace removes the character when the replacement lacks it, adds no other character, and changes nothing when the character is absent |
| Ams.ReplaceAllAppend | src/ams.ts:217-219 | replacing in a concatenation replaces in each part |
| Ams.EscapeIsPerCharacter | src/ams.ts:217-219 | the three replaces in order escape each character once: newline, carriage return and comma each get a backslash |
| Ams.EscapedIsCellSafe | src/ams.ts:216-219 | escaped text holds no newline or carriage return, and every comma in it follows a backslash |
| Ams.PlainTextKept | src/ams.ts:216-219 | text without newline, carriage return or comma is written as it is |
| Ams.EscapeIsLossy | src/ams.ts:217-219 | a newline and a backslash followed by `n` are written alike |
| Ams.FieldText | src/ams.ts:214-221 | a cell holds no line break, and every comma in it follows a backslash |
| Ams.FalsyValuesBlank | src/ams.ts:215 | missing, null, false, 0, NaN and "" all give an empty cell |
| Ams.TruthyValueWritten | src/ams.ts:215-220 | a truthy value has a text, and the cell is that text escaped |
| Ams.StringCells | src/ams.ts:215-220 | a string property is written escaped character by character, and the empty string as an empty cell |
| Ams.EventCells | src/ams.ts:213-223 | twelve cells, one per property in the listed order; none holds a line break or an unescaped comma, a falsy property gives an empty cell and a string property its escaped text |
| Ams.EventLineFormat | src/ams.ts:212-223 | an event line is its twelve cells joined by eleven commas, then a newline; no cell breaks the line and every comma inside a cell is escaped |
| Ams.EventLinesCount | src/ams.ts:212-224 | one newline per event |
| Ams.ListingLineCount | src/ams.ts:207-224 | the listing holds one newline for the header and one per event |
| Ams.WriteHeader | src/ams.ts:207-210 | the header loop writes the header line |
| Ams.WriteField | src/ams.ts:214-221 | a property's cell is written only when truthy, after the three replaces |
| Ams.WriteEvent | src/ams.ts:213-223 | the property loop writes the event's line |
| Ams.ListEvents | src/ams.ts:193-224 | the header, then one line per event, in order |
| SourceMeasurements.PushCategory | src/solarnetwork.ts:193-225 | one category's loop appends its rows, none when the list is absent |
| SourceMeasurements.PushSource | src/solarnetwork.ts:193-225 | the instantaneous, accumulating and status rows of one stream, in that order |
| SourceMeasurements.ListMeasurementRows | src/solarnetwork.ts:191-226 | the loop builds the specified table |
| SourceMeasurements.RowCount | src/solarnetwork.ts:191-226 | one row per declared field name |
| SourceMeasurements.EveryRowHasOneFlag | src/solarnetwork.ts:193-225 | every row marks exactly one category with "Y" |
| SourceMeasurements.SourceRowsListFields | src/solarnetwork.ts:193-225 | within one stream, a row lists a field of a category exactly when that category declares it |
| SourceMeasurements.RowsListFields | src/solarnetwork.ts:191-226 | the table lists a field of a category for a source exactly when some stream of that source declares it |

## Left out

- The network: every HTTP call, request signing and `getDatums`' query parameters. Responses, type lists, task lists and node ids are parameters.
- Reading the configuration file. The credentials are a parameter.
- Concurrency: the channel, `Promise.all` and the interleaving of several producers. One producer and one consumer over a given chunk sequence are modelled.
- Progress bars, console tables and the stderr warnings.
- Calendar details of `moment`: month clamping, time zones and date formatting. Instants are pairs and the export dates are kept as the option strings.
- Floating point: numbers are integers plus NaN, and `toString` is written out for integers only.
- Producer.ChunkArray: uses exact integer bounds. The code's floating-point `arr.length / n` can drop the last group, and that is not captured.
- JSON objects inside values: an object renders as `[object Object]` in the code and has no counterpart in `Wire`.
- SolarNetworkApi.MetaAt: `DatumStreamMetadataRegistry.metadataAt` from the `solarnetwork-api-core` library, used at `src/solarnetwork.ts:340`, is not part of this model; it is modelled as the same property lookup as `response.meta[meta]`.
- SolarNetworkApi.MetaAt: follows the typed domain of the index (`const meta: number`). A text index that names an inherited array property, such as "length", makes `response.meta[meta]` a number whose `i`, `a` and `s` are undefined, so the code decodes the row with empty lists; the model refuses such a row as having no metadata.
- Location objects: a result object is a list of (key, value) entries whose keys are distinct, as in parsed JSON; the location parsers require this (`DistinctKeys`), and objects with repeated keys are not modelled.
- The generated task name (`randomWords`) is a parameter.
- ExportTask.PollExportTask: runs over a finite sequence of observed task lists and ends in `StillPolling` when they run out. The real loop polls without bound.
- Setting specifiers' default values; only the key and whether the setting is a toggle are kept.
- `listEvents`' session check and HTTP status handling, and events that are not objects.
- `listSourceMeasurements`' credential checks, its node and datum queries, and its table printing.
- The CLI wiring in `src/index.ts`, `src/config.ts` and `src/plugin.ts`, including the mismatched arguments at `src/index.ts:132` and `src/index.ts:203`.
