/**
  The shared data model of the accelerator (rust/src/types.rs): the parser
  configuration with its defaults, parsed fields, records and datasets, the parse
  metadata, progress reports and the error type.
*/
module Types {
  import opened Wrappers
  import opened Text
  import opened Arithmetic

  // ---------------------------------------------------------------- configuration

  /** A column of a fixed-width layout. */
  datatype FieldDefinition = FieldDefinition(
    id: string,
    name: string,
    start: nat,
    length: nat,
    fieldType: string,
    format: Option<string>,
    required: bool,
    description: Option<string>)

  /** The caller's configuration; `parserType` is the `type` tag that selects the engine. */
  datatype ParserConfig = ParserConfig(
    parserType: string,
    name: string,
    description: Option<string>,
    delimiter: string,
    hasHeader: bool,
    quoteChar: string,
    escapeChar: string,
    fieldDefinitions: Option<seq<FieldDefinition>>,
    messageType: Option<string>,
    chunkSize: Option<nat>,
    encoding: Option<string>)

  /**
    A configuration object as it arrives from JavaScript: the two required keys and
    the keys that may be absent.
  */
  datatype ConfigObject = ConfigObject(
    parserType: string,
    name: string,
    description: Option<string>,
    delimiter: Option<string>,
    hasHeader: Option<bool>,
    quoteChar: Option<string>,
    escapeChar: Option<string>,
    fieldDefinitions: Option<seq<FieldDefinition>>,
    messageType: Option<string>,
    chunkSize: Option<nat>,
    encoding: Option<string>)

  function OrDefault<T>(o: Option<T>, d: T): T {
    match o
    case Some(v) => v
    case None => d
  }

  /** The per-field serde defaults: `default_delimiter`, `default_true`, `default_quote_char`, `default_escape_char`. */
  const DefaultDelimiter: string := ","
  const DefaultQuoteChar: string := "\""
  const DefaultEscapeChar: string := "\\"

  /** Deserialising a configuration object: each absent key takes its serde default. */
  function Deserialize(o: ConfigObject): (c: ParserConfig)
    ensures c.parserType == o.parserType && c.name == o.name
    ensures o.delimiter.None? ==> c.delimiter == DefaultDelimiter
    ensures o.hasHeader.None? ==> c.hasHeader
    ensures o.quoteChar.None? ==> c.quoteChar == DefaultQuoteChar
    ensures o.escapeChar.None? ==> c.escapeChar == DefaultEscapeChar
    ensures o.delimiter.Some? ==> c.delimiter == o.delimiter.value
    ensures o.hasHeader.Some? ==> c.hasHeader == o.hasHeader.value
    ensures o.quoteChar.Some? ==> c.quoteChar == o.quoteChar.value
    ensures o.escapeChar.Some? ==> c.escapeChar == o.escapeChar.value
    ensures c.description == o.description && c.fieldDefinitions == o.fieldDefinitions
    ensures c.messageType == o.messageType && c.chunkSize == o.chunkSize && c.encoding == o.encoding
  {
    ParserConfig(
      o.parserType, o.name, o.description,
      OrDefault(o.delimiter, DefaultDelimiter),
      OrDefault(o.hasHeader, true),
      OrDefault(o.quoteChar, DefaultQuoteChar),
      OrDefault(o.escapeChar, DefaultEscapeChar),
      o.fieldDefinitions, o.messageType, o.chunkSize, o.encoding)
  }

  /** `ParserConfig::default()`. */
  function DefaultConfig(): (c: ParserConfig)
    ensures c.parserType == "csv" && c.name == "Parser"
    ensures c.delimiter == "," && c.hasHeader && c.quoteChar == "\"" && c.escapeChar == "\\"
    ensures c.description.None? && c.fieldDefinitions.None? && c.messageType.None?
    ensures c.chunkSize.None? && c.encoding.None?
  {
    ParserConfig("csv", "Parser", None, ",", true, "\"", "\\", None, None, None, None)
  }

  /**
    The hand-written default agrees with the serde defaults: it is what a
    configuration object holding only `type: "csv"` and `name: "Parser"` deserialises to.
  */
  lemma DefaultConfigMatchesSerdeDefaults()
    ensures DefaultConfig() ==
      Deserialize(ConfigObject("csv", "Parser", None, None, None, None, None, None, None, None, None))
  {
  }

  // ---------------------------------------------------------------- fields and records

  /**
    A typed cell value. `Number` stands for an f64; it carries the literal the value
    was parsed from, since floating point is not modelled.
  */
  datatype FieldValue =
    | StringValue(s: string)
    | Number(literal: string)
    | Integer(n: int)
    | Boolean(b: bool)
    | Null

  /** The `type` tag of a field. */
  datatype FieldType = StringType | NumberType | BooleanType | DateType | NullType {
    function Name(): string {
      match this
      case StringType => "string"
      case NumberType => "number"
      case BooleanType => "boolean"
      case DateType => "date"
      case NullType => "null"
    }
  }

  datatype Position = Position(start: nat, end: nat)

  /** A parsed field; its `id` string, formatted from its position, is not modelled. */
  datatype ParsedField = ParsedField(
    name: string,
    value: FieldValue,
    fieldType: FieldType,
    originalValue: string,
    position: Option<Position>)

  /** The `type` tag of a record. */
  datatype RecordKind = Header | Transaction | Footer | Data {
    function Name(): string {
      match this
      case Header => "header"
      case Transaction => "transaction"
      case Footer => "footer"
      case Data => "data"
    }
  }

  /** A parsed record; its `id` string, formatted from its index, is not modelled. */
  datatype ParsedRecord = ParsedRecord(
    index: nat,
    fields: seq<ParsedField>,
    raw: string,
    kind: RecordKind,
    isValid: bool,
    errors: Option<seq<string>>)

  /**
    The header list of a dataset: the CSV engine builds it in order, the FIN and XML
    engines collect it in a hash set and so give it in no particular order.
  */
  datatype HeaderList = Ordered(names: seq<string>) | Unordered(nameSet: set<string>)

  datatype ParseMetadata = ParseMetadata(
    totalRecords: nat,
    validRecords: nat,
    invalidRecords: nat,
    parseTime: real,
    fileSize: Option<nat>,
    fileName: Option<string>,
    encoding: Option<string>,
    parserEngine: string,
    chunksProcessed: Option<nat>)

  /** `ParseMetadata::default()`. */
  function DefaultMetadata(): (m: ParseMetadata)
    ensures m.totalRecords == 0 && m.validRecords == 0 && m.invalidRecords == 0
    ensures m.parseTime == 0.0 && m.parserEngine == "wasm"
    ensures m.fileSize.None? && m.fileName.None? && m.encoding.None? && m.chunksProcessed.None?
  {
    ParseMetadata(0, 0, 0, 0.0, None, None, None, "wasm", None)
  }

  /**
    The metadata every engine reports: the given counts, elapsed time and input
    size over the defaults, as `..Default::default()` does.
  */
  function EngineMetadata(total: nat, valid: nat, invalid: nat, elapsed: real, size: nat): (m: ParseMetadata)
    ensures m.totalRecords == total && m.validRecords == valid && m.invalidRecords == invalid
    ensures m.parseTime == elapsed && m.fileSize == Some(size) && m.parserEngine == "wasm"
    ensures m.fileName.None? && m.encoding.None? && m.chunksProcessed.None?
  {
    DefaultMetadata().(totalRecords := total, validRecords := valid, invalidRecords := invalid,
                       parseTime := elapsed, fileSize := Some(size))
  }

  /** A parse result; the timestamped dataset id is not modelled. */
  datatype ParsedData = ParsedData(
    config: ParserConfig,
    records: seq<ParsedRecord>,
    headers: HeaderList,
    metadata: ParseMetadata)

  // ---------------------------------------------------------------- progress

  datatype ParseProgress = ParseProgress(
    phase: string,
    bytesProcessed: nat,
    totalBytes: nat,
    recordsProcessed: nat,
    percentage: nat,
    currentChunk: Option<nat>,
    totalChunks: Option<nat>,
    estimatedTimeRemaining: Option<real>,
    message: Option<string>)

  const U8Max: nat := 255

  /**
    `((processed / total) * 100.0) as u8`, computed exactly: the floor of the ratio in
    percent, saturated at the top of the u8 range as Rust's float-to-int cast is.
  */
  function Percentage(processed: nat, total: nat): nat
    requires total > 0
  {
    var q := (100 * processed) / total;
    if q < U8Max then q else U8Max
  }

  /** The percentage is the floor of `100 * processed / total`, saturated at 255. */
  lemma PercentageBounds(processed: nat, total: nat)
    requires total > 0
    ensures var p := Percentage(processed, total);
      p <= U8Max
      && (p < U8Max ==> p * total <= 100 * processed < (p + 1) * total)
      && (p == U8Max ==> U8Max * total <= 100 * processed)
  {
    var q := (100 * processed) / total;
    assert q * total <= 100 * processed < (q + 1) * total;
    if q >= U8Max {
      MulLe(U8Max, q, total);
    }
  }

  /** Up to the whole input the percentage stays within 100, and the whole input is 100 %. */
  lemma PercentageOfPart(processed: nat, total: nat)
    requires 0 < total && processed <= total
    ensures Percentage(processed, total) <= 100
    ensures processed == total ==> Percentage(processed, total) == 100
  {
    MulLe(processed, total, 100);
    assert 100 * processed <= 100 * total;
    DivMonotone(100 * processed, 100 * total, total);
    DivExact(100, total);
    assert (100 * total) / total == 100;
  }

  /** `ParseProgress::new`. */
  function NewProgress(phase: string, processed: nat, total: nat, records: nat): (p: ParseProgress)
    ensures p.phase == phase && p.bytesProcessed == processed && p.totalBytes == total
    ensures p.recordsProcessed == records
    ensures total == 0 ==> p.percentage == 0
    ensures 0 < total && processed <= total ==> p.percentage <= 100
    ensures 0 < total && processed == total ==> p.percentage == 100
    ensures p.currentChunk.None? && p.totalChunks.None?
    ensures p.estimatedTimeRemaining.None? && p.message.None?
  {
    var percentage := if total > 0 then Percentage(processed, total) else 0;
    if 0 < total && processed <= total then
      PercentageOfPart(processed, total);
      ParseProgress(phase, processed, total, records, percentage, None, None, None, None)
    else
      ParseProgress(phase, processed, total, records, percentage, None, None, None, None)
  }

  /** `ParseProgress::with_message`: the same report carrying `text`. */
  function WithMessage(p: ParseProgress, text: string): (r: ParseProgress)
    ensures r.message == Some(text)
    ensures r.(message := p.message) == p
  {
    p.(message := Some(text))
  }

  /** Percentages of reports over one input never go down as the processed count grows. */
  lemma PercentageMonotone(a: nat, b: nat, total: nat)
    requires total > 0 && a <= b
    ensures Percentage(a, total) <= Percentage(b, total)
  {
    MulLe(a, b, 100);
    assert 100 * a <= 100 * b;
    DivMonotone(100 * a, 100 * b, total);
  }

  // ---------------------------------------------------------------- errors

  datatype ParseError =
    | CsvError(detail: string)
    | XmlError(detail: string)
    | FinError(detail: string)
    | EncodingError(detail: string)
    | ConfigError(detail: string)
    | Cancelled
  {
    /** The `Display` text `thiserror` derives for each variant. */
    function Message(): string {
      match this
      case CsvError(d) => "Invalid CSV: " + d
      case XmlError(d) => "Invalid XML: " + d
      case FinError(d) => "Invalid FIN message: " + d
      case EncodingError(d) => "Encoding error: " + d
      case ConfigError(d) => "Configuration error: " + d
      case Cancelled => "Parse cancelled"
    }
  }

  /** The first character of a message and its ninth, which together tell the variants apart. */
  function Signature(e: ParseError): (char, char) {
    match e
    case CsvError(_) => ('I', 'C')
    case XmlError(_) => ('I', 'X')
    case FinError(_) => ('I', 'F')
    case EncodingError(_) => ('E', ' ')
    case ConfigError(_) => ('C', 'a')
    case Cancelled => ('P', 'n')
  }

  lemma MessageSignature(e: ParseError)
    ensures |e.Message()| >= 9 && (e.Message()[0], e.Message()[8]) == Signature(e)
    ensures !e.Cancelled? ==> e.Message()[|e.Message()| - |e.detail|..] == e.detail
  {
  }

  /** Error messages are unambiguous: the text determines the variant and its detail. */
  lemma MessageDeterminesError(e1: ParseError, e2: ParseError)
    requires e1.Message() == e2.Message()
    ensures e1 == e2
  {
    MessageSignature(e1);
    MessageSignature(e2);
    assert Signature(e1) == Signature(e2);
  }
}
