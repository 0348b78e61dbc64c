# Financial file parsers: the WebAssembly engine, in Dafny

This project models the Rust engine (`rust/src`) that a financial-file parser runs as WebAssembly. The engine reads three formats:

- **CSV.** It builds typed records from delimited rows, and can also report progress while it does so.
- **ISO 20022 XML.** It flattens pain/camt/pacs documents into records, again with an optional progress trail.
- **SWIFT MT (FIN).** It extracts the `{n:...}` blocks, decodes the fixed-offset headers, names the block-3 and block-5 sub-tags, and splits block 4 into transaction groups.

Around these sit:

- the shared data model: configuration, fields, records, metadata, progress and errors;
- the format sniffer and the delimiter suggestion;
- the `parse` entry point, which routes a configuration's `type` tag to one engine.

Each part of the source takes its own form in Dafny:

- **Pure code** becomes datatypes, functions and lemmas. This covers the type inference, date shapes, the humaniser, message-type detection, record-kind rules, the format sniffer and routing.
- **Loops become methods with invariants.** These are the record loops of `parse_csv` and `parse_csv_with_progress`, the SAX event loops of `parse_xml` and `parse_xml_with_progress`, the block map of `parse_blocks`, the field pushes of `parse_block1` through `parse_block5`, the grouping loop of `parse_block4`, and the record assembly of `parse_fin`.
- **Each method is proved against a function of its inputs**, for example `CsvData`, `XmlData`, `Trail`, `BlockMap`, `TextBlockGroups` and `FinData`. What the source promises is then proved about those functions as lemmas.

Third-party tokenisers are inputs, not code:

- the `csv` crate's reader is a function from the reader settings (`Settings(config)`: delimiter, quote, header flag, flexible widths) and the text to a sequence of row results (`RowOk(cells)` or `RowErr(message)`);
- quick-xml's reader is a sequence of reads, each an event with the byte position before it.

Modules, one per source file, plus shared helpers:

- `Wrappers`: Option and Result.
- `Arithmetic`: multiplication and division facts.
- `Text`: ASCII trimming and case, integer and float literals, and UTF-8 lengths.
- `Types`: `types.rs`.
- `Utils`: `utils.rs`.
- `CsvParser`: `csv_parser.rs`.
- `FinParser`: `fin_parser.rs`.
- `XmlParser`: `xml_parser.rs`.
- `Lib`: `lib.rs`.

Some behaviour of the source is surprising. The model keeps it as written:

- **CSV record kinds.** With a header row, the reader skips that row, yet `create_record` labels the first *data* row (index 0) a `header` record.
- **CSV progress headers.** `parse_csv_with_progress` reports an empty header list for headerless input, while `parse_csv` reports `Column 1..k`. The records are the same: the generated names equal `create_record`'s fallback names (`CsvParser.GeneratedNamesAreFallbackNames`).
- **FIN block 3 and block 5.** A block's content is cut at the first `}`, so the contents of blocks 3 and 5 can never hold a complete `{tag:value}` sub-block. `FinParser.ExtractedHeadersHaveNoSubTags` proves that their records always come out without fields.
- **XML document header.** The prepended document-header record has index 0, the same index as the first element record.

## Model

| member | source | states |
|---|---|---|
| Types.Deserialize | rust/src/types.rs:9-51 | type, name, description, field definitions, message type, chunk size and encoding are copied; delimiter, header flag, quote and escape take the given value if present and otherwise the serde defaults ",", true, "\"", "\\" |
| Types.DefaultConfig | rust/src/types.rs:53-69 | the default configuration is a CSV parser named "Parser" with delimiter ",", a header row, quote "\"", escape "\\", and every optional setting absent |
| Types.DefaultConfigMatchesSerdeDefaults | rust/src/types.rs:37-69 | the `Default` configuration equals what deserialising a bare `{type: "csv", name: "Parser"}` gives, so the two sets of defaults agree |
| Types.DefaultMetadata | rust/src/types.rs:202-216 | default metadata has zero counts, zero parse time, engine "wasm" and no file size, name, encoding or chunk count |
| Types.EngineMetadata | rust/src/csv_parser.rs:87-95 | the metadata every engine reports carries the given counts, parse time and byte size, engine "wasm", and defaults elsewhere |
| Types.NewProgress | rust/src/types.rs:238-256 | phase, bytes, total and records are copied unchanged; percentage is 0 for an empty input, at most 100 when bytes do not exceed the total and exactly 100 at the total; chunk, ETA and message are absent |
| Types.PercentageBounds | rust/src/types.rs:239-243 | the percentage is the floor of 100·processed/total, saturated at 255 as the cast to u8 saturates |
| Types.PercentageOfPart | rust/src/types.rs:240 | a part of the total is at most 100 percent, and the whole total is exactly 100 |
| Types.PercentageMonotone | rust/src/types.rs:240 | more bytes processed never gives a smaller percentage |
| Types.WithMessage | rust/src/types.rs:258-261 | the message is set to the given text and no other field changes |
| Types.MessageSignature | rust/src/types.rs:266-284 | the first and ninth characters of an error's display text identify its variant, and the text ends with the error's detail |
| Types.MessageDeterminesError | rust/src/types.rs:266-284 | two errors with the same display text are the same error, so the text identifies the variant and detail |
| Utils.ParserKind.Name | rust/src/utils.rs:4-46 | `detect_type` only ever answers "iso20022", "fin", "csv", "fixed-width" or "custom" |
| Utils.KindNameInjective | rust/src/utils.rs:14-45 | distinct detected kinds have distinct tags |
| Utils.DetectType | rust/src/utils.rs:4-46 | on the trimmed text, first match wins: XML openings give iso20022; otherwise "{1:" at the start or "{4:" anywhere gives fin; otherwise two of one delimiter on the first line give csv; otherwise fixed-width exactly when three or more non-empty lines have similar lengths above 20; else custom (each direction of each case) |
| Utils.SampleOfThreeLinesIsNonEmpty | rust/src/utils.rs:34-37 | the fixed-width check never averages an empty sample |
| Utils.MeanRuleIsCrossMultiplication | rust/src/utils.rs:36-39 | "every length within 5 of the mean and the mean above 20" is equivalent to the whole-number rule −5n < len·n − sum < 5n and sum > 20n |
| Utils.SuggestCsvDelimiter | rust/src/utils.rs:49-65 | the suggestion is one of comma, semicolon, tab and pipe; it occurs in the first five lines at least as often as every candidate and strictly more often than every earlier candidate; with none present it is `,` |
| Utils.SuggestionIsUnique | rust/src/utils.rs:56-62 | the most-frequent, earliest-on-ties rule picks exactly one delimiter |
| Utils.CalculateSize | rust/src/utils.rs:68-70 | the size is the length of the input's UTF-8 encoding, never less than its character count |
| CsvParser.FirstByteOr | rust/src/csv_parser.rs:15-16 | the delimiter and quote bytes are the first byte of the configured string's UTF-8 encoding, or the fallback for an empty string |
| CsvParser.Settings | rust/src/csv_parser.rs:15-23 | the reader is flexible, follows the header flag, and falls back to `,` and `"` for empty settings |
| CsvParser.DataRows | rust/src/csv_parser.rs:42-54 | with a header row the reader yields every later row as data; without one it yields every row |
| CsvParser.TrimmedHeaderRowShape | rust/src/csv_parser.rs:25-29 | the header names are the header row's cells, each trimmed and in order, or none when the reader fails |
| CsvParser.GeneratedHeadersShape | rust/src/csv_parser.rs:30-40 | headerless input is named "Column 1".."Column k" for the first record's width k, or not at all when there is no first record |
| CsvParser.DateLikeShapes | rust/src/csv_parser.rs:293-323 | a value is date-like exactly when it has one of the shapes DDDD-DD-DD, DD/DD/DDDD or DD-DD-DDDD in ASCII digits |
| CsvParser.PatternShape | rust/src/csv_parser.rs:304-318 | one pattern matches exactly the ten-character values with its separator at its two positions and ASCII digits elsewhere |
| CsvParser.IsoDateExample | rust/src/csv_parser.rs:357-358 | "2024-01-15" is date-like |
| CsvParser.SlashDateExample | rust/src/csv_parser.rs:359 | "15/01/2024" is date-like |
| CsvParser.DashDateExample | rust/src/csv_parser.rs:297-301 | "15-01-2024" is date-like |
| CsvParser.NotADateExample | rust/src/csv_parser.rs:360 | "not a date" is not date-like |
| CsvParser.DateLikeIsNotFloat | rust/src/csv_parser.rs:279-287 | no date-like value parses as a float, so the date branch is reachable |
| CsvParser.BooleanWordIsNotDate | rust/src/csv_parser.rs:265-287 | no boolean word is date-like |
| CsvParser.Classify | rust/src/csv_parser.rs:258-290 | null exactly for empty text; boolean exactly for the six words in any case, true for true/yes/1; otherwise a number exactly when the text is an integer or float literal, an integer when it fits i64; date exactly for date-like text; every string value is the trimmed text |
| CsvParser.FieldName | rust/src/csv_parser.rs:221-224 | field j is named by header j when there is one, else "Column j+1" |
| CsvParser.CreateRecordShape | rust/src/csv_parser.rs:211-255 | one field per cell, in order, named by `FieldName`, typed by `infer_type`, keeping the untrimmed cell; raw is the cells joined by the delimiter; the kind is header exactly for index 0 with a header row, else data; always valid and without errors |
| CsvParser.ErrorRecord | rust/src/csv_parser.rs:65-76 | a reader error becomes an invalid data record with no fields, no raw text and exactly that one error |
| CsvParser.RecordsOfShape | rust/src/csv_parser.rs:54-78 | one record per row, indexed 0..n-1 in reader order; a record is valid exactly when its row was read; only record 0 under a header row is a header |
| CsvParser.RecordsOfAppend | rust/src/csv_parser.rs:54-63 | reading one more row appends exactly its record |
| CsvParser.CountValidAppend | rust/src/csv_parser.rs:58-62 | the valid count grows by one exactly for a valid record |
| CsvParser.GeneratedNamesAreFallbackNames | rust/src/csv_parser.rs:30-40 | the generated "Column N" names give the same records as no names at all |
| CsvParser.ParseCsv | rust/src/csv_parser.rs:11-97 | reads the rows with the reader built from the configuration's settings; never fails; the dataset keeps the configuration, the header names, one record per data row, and counts with total = valid + invalid = number of records, plus the byte size |
| CsvParser.ParseRecords | rust/src/csv_parser.rs:50-78 | the loop builds exactly the records of the rows, and valid + invalid equals their number |
| CsvParser.EstimateBelowTotal | rust/src/csv_parser.rs:159 | the in-loop byte estimate `(i+1)·total/(i+2)` is always below the total |
| CsvParser.EstimateMonotone | rust/src/csv_parser.rs:159 | the estimate never decreases from one record to the next |
| CsvParser.PercentageBelowHundred | rust/src/csv_parser.rs:164 | an in-loop report is below 100 percent |
| CsvParser.ProgressTrailReports | rust/src/csv_parser.rs:148-167 | every in-loop report is a "parsing" report past the previous one, below the total and below 100 percent, for a row that was read |
| CsvParser.ProgressTrailIncreasing | rust/src/csv_parser.rs:159-167 | the in-loop reports strictly increase in both bytes and records |
| CsvParser.ParseCsvWithProgress | rust/src/csv_parser.rs:100-208 | reads the rows with the reader built from the configuration's settings; the same records and counts as `parse_csv`, headers only from a header row; reports are "initializing", "parsing" at 0, the in-loop trail, then "complete" at the total |
| CsvParser.RecordsWithProgress | rust/src/csv_parser.rs:142-184 | the loop builds the records, the counts and exactly the report trail |
| CsvParser.ReportProgress | rust/src/csv_parser.rs:158-167 | one row's report step moves at most one report from the trail still to come to the reports sent, so the two together stay the same |
| CsvParser.TrailStep | rust/src/csv_parser.rs:159-167 | a read row reports exactly when the estimate moved more than 1% of the total past the last report |
| CsvParser.Wasm32EstimateGoesBackwards | rust/src/csv_parser.rs:159-161 | with 32-bit `usize` and a 10 MB input, the estimate drops from 9976744 to 11676 at row 430, and the unsigned difference then wraps past the 1% threshold, so a report at 0 % is sent |
| FinParser.CreateField | rust/src/fin_parser.rs:365-374 | a header field holds its value as a string, typed string, with the value as its original text and no position |
| FinParser.InferFinTypeCases | rust/src/fin_parser.rs:382-394 | the type is number exactly for an amount tag whose value contains an ASCII digit, else string |
| FinParser.GroupBoundaryTags | rust/src/fin_parser.rs:377-379 | exactly tags 59, 59A, 59F, 61 and 86 close a group |
| FinParser.BlockMatches | rust/src/fin_parser.rs:66 | every matched block has a digit number and content without `}` |
| FinParser.LastWinsLookup | rust/src/fin_parser.rs:194-201 | a digit is in the block map exactly when some block has it, and it maps to the content of the last such block |
| FinParser.ParseBlocks | rust/src/fin_parser.rs:194-213 | with `\d` and `\s` read as ASCII classes (see Left out), the loop builds the block map, adding the alternate block-4 form only when the main pattern found no block 4 |
| FinParser.DashBraceFrom | rust/src/fin_parser.rs:206 | the alternate block 4 ends at the first `-}` |
| FinParser.BlockMapContents | rust/src/fin_parser.rs:194-210 | every block number is a digit, and every block but 4 is free of `}` |
| FinParser.LayoutFieldsFit | rust/src/fin_parser.rs:216-237 | a fixed-offset header yields its slots in order, a slot exactly when the content reaches its end, each holding that slice |
| FinParser.ParseBlock1 | rust/src/fin_parser.rs:216-237 | block 1 gives Application ID [0,1), Service ID [1,3), Logical Terminal [3,15), Session Number [15,19), Sequence Number [19,25), each when the content is long enough |
| FinParser.ParseBlock1AsWritten | rust/src/fin_parser.rs:229-231 | as written, content of 16 to 18 characters makes the session slice run past the end, and only that length range does |
| FinParser.SessionGuardCounterexample | rust/src/fin_parser.rs:229-231 | a 16-character basic header passes the session guard, and the corrected decoder gives it 3 fields |
| FinParser.ParseBlock2 | rust/src/fin_parser.rs:240-264 | the loop builds the application-header fields |
| FinParser.ApplicationHeaderFields | rust/src/fin_parser.rs:240-264 | empty content gives nothing; otherwise Direction is Input exactly for 'I', else Output; for 'I'/'O' with at least 4 characters Message Type is [1,4); Destination [4,16) for 'I' from 16 characters; Input Time [4,8) for 'O' from 8 |
| FinParser.SubTagMatches | rust/src/fin_parser.rs:269-273 | every sub-tag match has a three-character tag and a value without `}` |
| FinParser.NoClosingBraceNoSubTags | rust/src/fin_parser.rs:269-273 | text without `}` contains no sub-tag |
| FinParser.SubTagFields | rust/src/fin_parser.rs:271-290 | one field per sub-tag match, in order, named by the table or else by the raw tag |
| FinParser.ParseBlock3 | rust/src/fin_parser.rs:267-293 | block 3 gives the three-digit sub-tags with the user-header names |
| FinParser.ParseBlock5 | rust/src/fin_parser.rs:339-362 | block 5 gives the three-capital sub-tags with the trailer names |
| FinParser.ExtractedHeadersHaveNoSubTags | rust/src/fin_parser.rs:66 | a header or trailer block taken from the block map never contains a sub-tag |
| FinParser.TagAt | rust/src/fin_parser.rs:67 | a block-4 tag is two digits and an optional capital, between colons |
| FinParser.FieldMatches | rust/src/fin_parser.rs:301-303 | every block-4 value is non-empty and free of `:` |
| FinParser.TextFieldsAt | rust/src/fin_parser.rs:301-317 | each block-4 field is named by the FIN table or "Field <tag>", holds the trimmed value typed by `infer_fin_type`, with original text ":tag: value" |
| FinParser.GroupingWellGrouped | rust/src/fin_parser.rs:321-325 | grouping keeps every field in order; every closed group ends at its only boundary tag, and the open group holds none |
| FinParser.GroupsCutAtBoundaries | rust/src/fin_parser.rs:296-336 | concatenating the groups gives back the fields; every group but the last ends at a boundary tag and none has a boundary before its end |
| FinParser.GroupsEmpty | rust/src/fin_parser.rs:327-333 | there are no groups exactly when there are no fields |
| FinParser.TextBlockGroupsNonEmpty | rust/src/fin_parser.rs:331-333 | block 4 always yields at least one group, the single empty group when there are no fields |
| FinParser.AddTextField | rust/src/fin_parser.rs:301-324 | one loop step adds the field to the open group and closes the group at a boundary |
| FinParser.CloseTextBlock | rust/src/fin_parser.rs:327-335 | after the loop the open group is kept when non-empty, and no fields give one empty group |
| FinParser.ParseBlock4 | rust/src/fin_parser.rs:296-336 | the loop builds exactly the field groups of block 4 |
| FinParser.SectionParts | rust/src/fin_parser.rs:83-172 | blocks 1-3 give header records, block 4 transaction records, block 5 at most one footer, present exactly when block 5 is |
| FinParser.FinRecordKinds | rust/src/fin_parser.rs:83-172 | records are indexed 0..n-1, all valid and error-free, ordered header, transaction, footer, with a footer only last and exactly when block 5 is present |
| FinParser.FinCounts | rust/src/fin_parser.rs:163-189 | total = valid = number of records less the footer, invalid = 0, and the file size is reported |
| FinParser.FinTransactions | rust/src/fin_parser.rs:137-155 | each block-4 group becomes, after the headers, a valid transaction record with that group's fields and the block-4 text as raw |
| FinParser.AddNames | rust/src/fin_parser.rs:85-87 | the header set gains exactly the names of the fields |
| FinParser.PushRecord | rust/src/fin_parser.rs:88-97 | a block's record is appended with the next index and its names join the header set |
| FinParser.PushHeaders | rust/src/fin_parser.rs:83-134 | blocks 1-3 give the numbered header records and their field names |
| FinParser.PushTransactions | rust/src/fin_parser.rs:140-154 | each group is appended as the next transaction record |
| FinParser.PushTextBlock | rust/src/fin_parser.rs:137-155 | block 4 appends its transaction records |
| FinParser.PushTrailer | rust/src/fin_parser.rs:158-172 | block 5 appends the footer without advancing the record count |
| FinParser.PushBody | rust/src/fin_parser.rs:137-172 | blocks 4 and 5 append their records; only block 4 advances the count |
| FinParser.AssembleFin | rust/src/fin_parser.rs:75-190 | the assembled dataset is the numbered sections, their field names and the counts |
| FinParser.ParseFin | rust/src/fin_parser.rs:71-191 | with the corrected block-1 guard and the intended block-4 field pattern, returns the dataset of the message's block map and has no error path (the program as written panics instead on the inputs listed under Left out) |
| XmlParser.Stop | rust/src/xml_parser.rs:86-179 | the loop stops at the first end-of-input or reader error, and no read before it is one |
| XmlParser.SpacedStartsWithNoCapital | rust/src/xml_parser.rs:482-488 | the humaniser never puts a space before the first character |
| XmlParser.DropInsertedSpacesInverts | rust/src/xml_parser.rs:482-488 | removing the inserted spaces recovers the name |
| XmlParser.HumanizeFieldRoundTrip | rust/src/xml_parser.rs:475-490 | for a name outside the ISO 20022 table, the humanised label turns back into the name |
| XmlParser.NoCapitalsNoSpaces | rust/src/xml_parser.rs:482-488 | a name without capitals is humanised unchanged |
| XmlParser.HumanizeFieldExamples | rust/src/xml_parser.rs:475-478 | table names humanise to their entries: "MsgId" to "Message ID", "CreDtTm" to "Creation Date/Time" |
| XmlParser.SpaceBeforeCapitalsAppend | rust/src/xml_parser.rs:482-488 | spacing a concatenation spaces each part |
| XmlParser.TitleCaseTwoWords | rust/src/xml_parser.rs:482-488 | a two-word camelCase name becomes the two words separated by one space |
| XmlParser.HumanizeUnknownField | rust/src/xml_parser.rs:538-542 | "UnknownField" humanises to "Unknown Field" |
| XmlParser.InferXmlTypeCases | rust/src/xml_parser.rs:493-523 | null exactly for empty text; boolean exactly for true/false in any case; integer exactly for a non-boolean i64 literal; number exactly for integer or float literals; otherwise the trimmed text as a string; never a date |
| XmlParser.MessageType.Title | rust/src/xml_parser.rs:402-435 | every detected message type has a non-empty title |
| XmlParser.TitlesDistinct | rust/src/xml_parser.rs:402-435 | the five message types have five distinct titles |
| XmlParser.AttributeTypeSpec | rust/src/xml_parser.rs:404-424 | the attributes name a type exactly when some `xmlns` attribute names one |
| XmlParser.DetectMessageTypeSpec | rust/src/xml_parser.rs:402-435 | a namespace that names a type wins; only without one does the root element name decide; there is no type exactly when neither names one |
| XmlParser.DetectMessageTypeExamples | rust/src/xml_parser.rs:402-435 | a pain.001 namespace and a `CstmrCdtTrfInitn` root both give pain.001 |
| XmlParser.ListedKindSpec | rust/src/xml_parser.rs:454-468 | the listed kind is that of the outermost listed path segment, and there is none exactly when no segment is listed |
| XmlParser.RecordTypeRule | rust/src/xml_parser.rs:454-472 | the outermost listed segment decides header or transaction; with none, depth two or less is a header and deeper is data; never a footer |
| XmlParser.TransactionSegmentsAreBoundaries | rust/src/xml_parser.rs:438-468 | every transaction-list element is a record boundary |
| XmlParser.AttributeFields | rust/src/xml_parser.rs:100-115 | one string field per attribute, in order |
| XmlParser.RunNext | rust/src/xml_parser.rs:86-179 | the state after one more read is one step from the state before |
| XmlParser.StartKeeps | rust/src/xml_parser.rs:88-115 | a start tag adds its attribute fields at the end and header names, and closes no record |
| XmlParser.SaveTextExtends | rust/src/xml_parser.rs:125-142 | at an end tag the pending text becomes at most one field and is cleared |
| XmlParser.CloseRecordExtends | rust/src/xml_parser.rs:144-160 | closing a record moves the pending fields, in order, into a new last record |
| XmlParser.CloseRecordNumbered | rust/src/xml_parser.rs:147-159 | a new record takes the next index and is valid, non-empty and not a footer |
| XmlParser.StepExtends | rust/src/xml_parser.rs:86-179 | every event only appends records, fields and header names, and an end tag leaves no text |
| XmlParser.StepNumbered | rust/src/xml_parser.rs:147-159 | every event keeps the records numbered from 0, valid, non-empty and not footers |
| XmlParser.RunKeeps | rust/src/xml_parser.rs:86-179 | after any reads the records are numbered from 0, valid, non-empty and not footers |
| XmlParser.RunExtends | rust/src/xml_parser.rs:86-179 | more reads never remove or reorder records, fields or header names |
| XmlParser.StepPath | rust/src/xml_parser.rs:88-163 | a start tag pushes its name, an end tag pops, and anything else leaves the path |
| XmlParser.PathNesting | rust/src/xml_parser.rs:88-163 | reads that never close more than they open extend the path by their depth and keep its prefix |
| XmlParser.BalancedRunRestoresPath | rust/src/xml_parser.rs:88-163 | balanced reads restore the path |
| XmlParser.EndClosesRecord | rust/src/xml_parser.rs:121-163 | an end tag emits a record exactly at a boundary with pending fields (the saved text included), with the next index and the path as raw, emptying the buffer; otherwise the fields stay pending |
| XmlParser.StepRecords | rust/src/xml_parser.rs:121-163 | only an end tag adds a record |
| XmlParser.XmlDataShape | rust/src/xml_parser.rs:181-220 | a document-header record is in front exactly when a message type was found; behind it come the element records, numbered from 0, valid and non-empty; total = valid = element records, invalid = 0 |
| XmlParser.XmlDataFails | rust/src/xml_parser.rs:166-173 | the parse fails exactly when a reader error comes before end of input, and then with an XML error and no data |
| XmlParser.AddAttributes | rust/src/xml_parser.rs:100-115 | the attribute loop adds exactly the attributes' header names and fields |
| XmlParser.StartElement | rust/src/xml_parser.rs:88-115 | the start-tag handling makes the start step |
| XmlParser.EndElement | rust/src/xml_parser.rs:121-163 | the end-tag handling makes the end step and reports whether it emitted a record |
| XmlParser.Apply | rust/src/xml_parser.rs:87-176 | one loop iteration makes one step and keeps the record counter equal to the records |
| XmlParser.Assemble | rust/src/xml_parser.rs:181-220 | the dataset after the loop |
| XmlParser.ParseXml | rust/src/xml_parser.rs:68-221 | the result is the dataset of the reads up to end of input, or the XML error of the first reader error |
| XmlParser.TrailIncreasing | rust/src/xml_parser.rs:327-334 | every in-loop report is a "parsing" report for records already emitted, and the reports strictly increase in bytes and records |
| XmlParser.TrailStep | rust/src/xml_parser.rs:327-334 | a read reports exactly when it emits a record more than 1% of the total past the last report |
| XmlParser.TrailNext | rust/src/xml_parser.rs:254-353 | the state and the trail after one more read |
| XmlParser.ParseXmlWithProgress | rust/src/xml_parser.rs:224-399 | the dataset of `parse_xml` (the error text giving the position before the failing read); reports are "initializing", the trail, then "complete" on success |
| Lib.IsReady | rust/src/lib.rs:26-28 | the module is always ready |
| Lib.RouteSpec | rust/src/lib.rs:42-47 | "iso20022" and only it goes to the XML engine, "fin" and only it to FIN, every other tag to CSV |
| Lib.DetectedTypeRoutes | rust/src/lib.rs:42-47 | the detected tag routes to its own engine; "fixed-width" and "custom" go to CSV |
| Lib.Parse | rust/src/lib.rs:38-54 | the result is the routed engine's dataset, or the configuration error, or the engine error's text |
| Lib.ParseFailures | rust/src/lib.rs:38-54 | in the model (FIN as corrected, see Left out), `parse` fails exactly for a configuration that does not deserialise or an XML reader error; that configuration error is reported before any engine runs; a dataset carries the configuration it was read with |
| Lib.XmlErrorMessage | rust/src/lib.rs:49-53 | an XML engine error reaches the caller as text starting "Invalid XML: " |

## Left out

- The `csv` crate's tokenizer (quoting, escaping, flexible widths) is not modelled. The reader is a function parameter that maps the settings the engine builds and the text to row results.
- quick-xml's reader, and its unescaping of text, are not modelled. Attribute values arrive raw, with entity references not expanded, as the engine reads them. The reader is an input sequence of reads. Failed unescaping gives empty text. `Empty` elements, comments and CDATA are the ignored `Other` event.
- The regex engine is not modelled. The block, sub-tag and field grammars are hand-written scanners.
- FinParser.BlockMatches takes only ASCII digits as block numbers. The regex `\d` in the block pattern (rust/src/fin_parser.rs:66) matches any Unicode decimal digit, so on `{٣:X{1:Y}` the program finds one block numbered `٣` while the model finds block 1.
- FinParser.ParseBlocks inherits that ASCII `\d` from BlockMatches. Its alternate block-4 form also tests `\s` as ASCII whitespace, where the regex `\s` is Unicode whitespace. So on `{4:` followed by a no-break space, a newline and a body, the program finds a block 4 and the model does not.
- FinParser.SubTagMatches likewise reads the block-3 `\d{3}` (rust/src/fin_parser.rs:269) as three ASCII digits. This makes no difference to `parse_fin`, whose header blocks never contain a sub-tag.
- FinParser.ParseFin models the engine with the corrected block-1 guard and the intended block-4 field pattern. Under those it returns a dataset. The program as written never returns on two kinds of input, which the model does not capture. A basic header of 16 to 18 characters panics on the session slice; see Findings. Any message with a block 4 panics when the field pattern first fails to compile; see the next line.
- FinParser.FieldMatches models the intended segmentation of `FIELD_REGEX`. The regex as written uses a lookahead, which the Rust `regex` crate rejects, so `unwrap()` would panic at first use. The segmentation modelled is: a tag is two digits plus an optional capital, and the value runs, colon-free, to the next tag or the end.
- CsvParser.Classify treats float parsing as a literal-shape predicate, and keeps the value as its text. It does not compute the f64.
- Types.PercentageBounds computes the percentage exactly. The f64 division and multiplication can round one below the floor at exact boundaries.
- Unicode case mapping and whitespace are not modelled. Trimming, lowercasing and capital detection are ASCII-only.
- Clocks and identifiers are not modelled: `get_time`, `js_sys::Date::now`, `generate_id` and the record, field and dataset ids. Parse time is a parameter.
- Header order in the FIN and XML datasets comes from a `HashSet`, so it is unspecified. It is modelled as a set.
- XmlParser.Trail assumes reader positions never decrease. `position - last_progress_update` on `usize` therefore never wraps.
- The XML message type is an `Option` rather than a possibly empty string. The names that detection produces are never empty.
- Serde and wasm-bindgen glue is not modelled:
  - the configuration arrives already deserialised, or as the deserialisation error text;
  - the serialization error of `to_value` is not modelled;
  - `init`, `get_version` and `benchmark_csv` are not modelled.
- The streaming wrappers `parse_csv_streaming` and `parse_xml_streaming` are not modelled. Their callbacks are the report logs of the progress variants.
- The wrappers `detect_parser_type` and `suggest_delimiter` only forward to `Utils.DetectType` and `Utils.SuggestCsvDelimiter`.
- The FIN name tables are association lists looked up by first match.
- Arithmetic is unbounded everywhere except `CsvParser.Wasm32Estimate`. That finding is the only place the width of `usize` changes behaviour.

## Findings

| source | as written | input that shows it | evidently intended | confidence | as-written member | corrected member |
|---|---|---|---|---|---|---|
| rust/src/csv_parser.rs:159-161 | the estimate `(index + 1) * total_bytes` is computed in `usize`, which is 32 bits under wasm32; the product wraps, and the estimate then falls below the last report, so `bytes_processed - last_progress_update` wraps too | a 10,000,000-byte input with 430 read rows: the estimate falls from 9976744 at row 429 to 11676 at row 430 | a byte estimate that never decreases, so that reports increase | not executed | CsvParser.Wasm32EstimateGoesBackwards | CsvParser.ProgressTrailIncreasing |
| rust/src/fin_parser.rs:229-231 | the Session Number guard is `len >= 16`, but the slice is `[15..19]` | a basic header of 16 to 18 characters, e.g. "F01BANKUS33AXXX0", panics on the slice | add Session Number only when there are at least 19 characters | not executed | FinParser.ParseBlock1AsWritten | FinParser.ParseBlock1 |
