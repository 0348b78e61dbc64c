/**
  The CSV engine (rust/src/csv_parser.rs). Tokenising is the `csv` crate's work: the
  model receives the rows its reader yields, each either a list of cells or a read
  error, and models what the engine does with them: header names, one record per
  row, typed fields, the counts in the metadata and the progress reports.
*/
module CsvParser {
  import opened Wrappers
  import opened Text
  import opened Types
  import Utils
  import opened Arithmetic

  // ---------------------------------------------------------------- the reader

  /** One item of `reader.records()`: the cells of a row, or the text of a read error. */
  datatype CsvRow = RowOk(cells: seq<string>) | RowErr(message: string)

  /** The settings the engine gives `ReaderBuilder`. */
  datatype ReaderSettings = ReaderSettings(delimiter: Byte, quote: Byte, hasHeaders: bool, flexible: bool)

  /** `s.as_bytes().first().copied().unwrap_or(fallback)`. */
  function FirstByteOr(s: string, fallback: Byte): (b: Byte)
    ensures s == [] ==> b == fallback
    ensures s != [] ==> b == Utf8Encode(s)[0]
    ensures s != [] && s[0] < 128 as char ==> b == s[0] as int
  {
    if s == [] then fallback else CharUtf8(s[0])[0]
  }

  /**
    The reader both entry points build: the first byte of the configured delimiter
    and quote (',' and '"' when empty), headers as configured, rows of any width.
  */
  function Settings(config: ParserConfig): (s: ReaderSettings)
    ensures s.hasHeaders == config.hasHeader && s.flexible
    ensures config.delimiter == [] ==> s.delimiter == ',' as int
    ensures config.quoteChar == [] ==> s.quote == '"' as int
  {
    ReaderSettings(FirstByteOr(config.delimiter, ',' as int), FirstByteOr(config.quoteChar, '"' as int),
                   config.hasHeader, true)
  }

  /** The `csv` crate's reader: the rows it yields for an input under the given settings. */
  type CsvReader = (ReaderSettings, string) -> seq<CsvRow>

  /** The rows the engine sees: both entry points build their readers with `Settings(config)`. */
  function ReadRows(read: CsvReader, data: string, config: ParserConfig): seq<CsvRow> {
    read(Settings(config), data)
  }

  /**
    With headers on, the reader takes the first row as the header row and
    `records()` starts after it; otherwise every row is a record.
  */
  function DataRows(rows: seq<CsvRow>, hasHeader: bool): (data: seq<CsvRow>)
    ensures hasHeader && rows != [] ==> data == rows[1..]
    ensures !hasHeader ==> data == rows
  {
    if hasHeader && rows != [] then rows[1..] else rows
  }

  /** `reader.headers()`, each name trimmed; an unreadable header row gives no names. */
  function TrimmedHeaderRow(rows: seq<CsvRow>): seq<string> {
    if rows != [] && rows[0].RowOk? then
      seq(|rows[0].cells|, j requires 0 <= j < |rows[0].cells| => Trim(rows[0].cells[j]))
    else []
  }

  /** `"Column {n}"` for the 1-based column number `n`. */
  function ColumnName(n: nat): string {
    "Column " + NatToString(n)
  }

  /** "Column 1" .. "Column k" for the width `k` of the first row, or none when it failed. */
  function GeneratedHeaders(rows: seq<CsvRow>): seq<string> {
    if rows != [] && rows[0].RowOk? then
      seq(|rows[0].cells|, j requires 0 <= j < |rows[0].cells| => ColumnName(j + 1))
    else []
  }

  /** The header row, trimmed cell by cell; a missing or malformed first row gives no names. */
  lemma TrimmedHeaderRowShape(rows: seq<CsvRow>)
    ensures rows != [] && rows[0].RowOk? ==> |TrimmedHeaderRow(rows)| == |rows[0].cells|
    ensures rows != [] && rows[0].RowOk? ==>
      forall j :: 0 <= j < |rows[0].cells| ==> TrimmedHeaderRow(rows)[j] == Trim(rows[0].cells[j])
    ensures rows == [] || rows[0].RowErr? ==> TrimmedHeaderRow(rows) == []
  {
  }

  /** One name "Column n" per cell of the first row, numbered from 1. */
  lemma GeneratedHeadersShape(rows: seq<CsvRow>)
    ensures rows != [] && rows[0].RowOk? ==> |GeneratedHeaders(rows)| == |rows[0].cells|
    ensures rows == [] || rows[0].RowErr? ==> GeneratedHeaders(rows) == []
    ensures forall j :: 0 <= j < |GeneratedHeaders(rows)| ==> GeneratedHeaders(rows)[j] == ColumnName(j + 1)
  {
  }

  /** The header names `parse_csv` reports and names fields by. */
  function HeaderNames(rows: seq<CsvRow>, hasHeader: bool): seq<string> {
    if hasHeader then TrimmedHeaderRow(rows) else GeneratedHeaders(rows)
  }

  // ---------------------------------------------------------------- type inference

  const TruthyWords: set<string> := {"true", "yes", "1"}
  const FalsyWords: set<string> := {"false", "no", "0"}

  /** One of the three shapes `is_date_like` tries: digits, separator, digits, separator, digits. */
  datatype DatePattern = DatePattern(p1: nat, s1: char, p2: nat, s2: char, p3: nat) {
    function Width(): nat { p1 + 1 + p2 + 1 + p3 }
    function Second(): nat { p1 + 1 + p2 }
  }

  /** YYYY-MM-DD, DD/MM/YYYY (or MM/DD/YYYY), DD-MM-YYYY, tried in this order. */
  const DatePatterns: seq<DatePattern> :=
    [DatePattern(4, '-', 2, '-', 2), DatePattern(2, '/', 2, '/', 4), DatePattern(2, '-', 2, '-', 4)]

  /**
    One iteration of `is_date_like`: the byte length is the pattern's width, the
    separators sit at their character positions and the three parts are ASCII digits.
  */
  predicate MatchesPattern(v: string, p: DatePattern) {
    Utf8Length(v) == p.Width()
    && p.p1 < |v| && v[p.p1] == p.s1
    && p.Second() < |v| && v[p.Second()] == p.s2
    && AllDigits(v[..p.p1]) && AllDigits(v[p.p1 + 1..p.Second()]) && AllDigits(v[p.Second() + 1..])
  }

  /** `is_date_like`. */
  predicate IsDateLike(v: string) {
    MatchesPattern(v, DatePatterns[0]) || MatchesPattern(v, DatePatterns[1])
    || MatchesPattern(v, DatePatterns[2])
  }

  /** Ten characters, separator `s` at `a` and `b`, ASCII digits everywhere else. */
  predicate TenCharShape(v: string, a: nat, b: nat, s: char) {
    |v| == 10 && a < 10 && b < 10 && v[a] == s && v[b] == s
    && forall i :: 0 <= i < 10 && i != a && i != b ==> IsAsciiDigit(v[i])
  }

  /**
    Whatever the byte-length guard, a date-like value is exactly ten ASCII characters
    in one of the three shapes, and every such string is date-like.
  */
  lemma DateLikeShapes(v: string)
    ensures IsDateLike(v) <==>
      TenCharShape(v, 4, 7, '-') || TenCharShape(v, 2, 5, '/') || TenCharShape(v, 2, 5, '-')
  {
    PatternShape(v, DatePatterns[0]);
    PatternShape(v, DatePatterns[1]);
    PatternShape(v, DatePatterns[2]);
  }

  lemma PatternShape(v: string, p: DatePattern)
    requires p.s1 == p.s2 && p.s1 < 128 as char && !IsAsciiDigit(p.s1)
    requires p.Width() == 10
    ensures MatchesPattern(v, p) <==> TenCharShape(v, p.p1, p.Second(), p.s1)
  {
    var a, b := p.p1, p.Second();
    if MatchesPattern(v, p) {
      forall i | 0 <= i < |v| && i != a && i != b ensures IsAsciiDigit(v[i]) {
        if i < a { assert v[..a][i] == v[i]; }
        else if i < b { assert v[a + 1..b][i - a - 1] == v[i]; }
        else { assert v[b + 1..][i - b - 1] == v[i]; }
      }
      assert IsAscii(v);
      Utf8LengthOfAscii(v);
    }
    if TenCharShape(v, a, b, p.s1) {
      assert IsAscii(v);
      Utf8LengthOfAscii(v);
      assert AllDigits(v[..a]);
      assert AllDigits(v[a + 1..b]);
      assert AllDigits(v[b + 1..]);
    }
  }

  /** A date-like value is no float literal: it holds a '-' or '/' after its first digit. */
  lemma DateLikeIsNotFloat(v: string)
    ensures IsDateLike(v) ==> !IsFloatLiteral(v)
  {
    if IsDateLike(v) {
      DateLikeShapes(v);
      assert forall i :: 0 <= i < |v| ==> v[i] != '.' && v[i] != 'e' && v[i] != 'E';
      assert SplitSign(v).1 == v;
      assert ExponentMark(v).None?;
      assert IndexOf(v, '.').None?;
      assert !AllDigits(v) by {
        assert v[2] == '-' || v[2] == '/' || v[4] == '-';
      }
      assert |ToLowerAscii(v)| == 10;
    }
  }

  /** The words `infer_type` reads as booleans are not date-like either. */
  lemma BooleanWordIsNotDate(v: string)
    ensures IsBooleanWord(v) ==> !IsDateLike(v)
  {
    if IsBooleanWord(v) {
      DateLikeShapes(v);
      assert |v| == |ToLowerAscii(v)| <= 5;
    }
  }

  predicate IsBooleanWord(t: string) {
    ToLowerAscii(t) in TruthyWords + FalsyWords
  }

  /**
    `infer_type`: the trimmed value is null when empty, then a boolean word, then an
    i64, then an f64, then a date, and otherwise a string.
  */
  function InferType(value: string): (FieldValue, FieldType) {
    Classify(Trim(value))
  }

  /** The classification `infer_type` applies to an already trimmed value. */
  function Classify(t: string): (r: (FieldValue, FieldType))
    ensures r.1 == NullType <==> t == []
    ensures r.0 == Null <==> r.1 == NullType
    ensures r.1 == BooleanType <==> t != [] && IsBooleanWord(t)
    ensures r.0.Boolean? <==> r.1 == BooleanType
    ensures r.0.Boolean? ==> (r.0.b <==> ToLowerAscii(t) in TruthyWords)
    ensures r.1 == NumberType <==> t != [] && !IsBooleanWord(t) && IsFloatLiteral(t)
    ensures r.0.Integer? ==> r.1 == NumberType && ParseI64(t) == Some(r.0.n)
    ensures r.1 == NumberType && ParseI64(t).Some? ==> r.0.Integer?
    ensures r.0.Number? ==> r.0.literal == t && ParseI64(t).None?
    ensures r.1 == DateType <==> IsDateLike(t)
    ensures r.0.StringValue? <==> r.1 == DateType || r.1 == StringType
    ensures r.0.StringValue? ==> r.0.s == t
  {
    DateLikeIsNotFloat(t);
    BooleanWordIsNotDate(t);
    I64LiteralIsFloatLiteral(t);
    if t == [] then (Null, NullType)
    else
      var lower := ToLowerAscii(t);
      if lower in TruthyWords then (Boolean(true), BooleanType)
      else if lower in FalsyWords then (Boolean(false), BooleanType)
      else match ParseI64(t)
        case Some(n) => (Integer(n), NumberType)
        case None =>
          if IsFloatLiteral(t) then (Number(t), NumberType)
          else if IsDateLike(t) then (StringValue(t), DateType)
          else (StringValue(t), StringType)
  }

  /** The date cases the source's unit tests check, one per pattern. */
  lemma IsoDateExample()
    ensures IsDateLike("2024-01-15")
  {
    var v := "2024-01-15";
    assert TenCharShape(v, 4, 7, '-');
    PatternShape(v, DatePatterns[0]);
    assert MatchesPattern(v, DatePatterns[0]);
  }

  lemma SlashDateExample()
    ensures IsDateLike("15/01/2024")
  {
    var v := "15/01/2024";
    assert TenCharShape(v, 2, 5, '/');
    PatternShape(v, DatePatterns[1]);
    assert MatchesPattern(v, DatePatterns[1]);
  }

  lemma DashDateExample()
    ensures IsDateLike("15-01-2024")
  {
    var v := "15-01-2024";
    assert TenCharShape(v, 2, 5, '-');
    PatternShape(v, DatePatterns[2]);
    assert MatchesPattern(v, DatePatterns[2]);
  }

  /** Ten characters without separators in place are not a date. */
  lemma NotADateExample()
    ensures !IsDateLike("not a date")
  {
    DateLikeShapes("not a date");
  }

  // ---------------------------------------------------------------- records

  /** The name of column `j` (0-based): its header, or "Column j+1" past the header list. */
  function FieldName(headers: seq<string>, j: nat): (name: string)
    ensures j < |headers| ==> name == headers[j]
    ensures j >= |headers| ==> name == ColumnName(j + 1)
  {
    if j < |headers| then headers[j] else ColumnName(j + 1)
  }

  function CellField(headers: seq<string>, j: nat, cell: string): ParsedField {
    var (value, fieldType) := InferType(cell);
    ParsedField(FieldName(headers, j), value, fieldType, cell, None)
  }

  /** `create_record`. */
  function CreateRecord(index: nat, cells: seq<string>, headers: seq<string>, config: ParserConfig): ParsedRecord {
    var fields := seq(|cells|, j requires 0 <= j < |cells| => CellField(headers, j, cells[j]));
    var kind := if index == 0 && config.hasHeader then Header else Data;
    ParsedRecord(index, fields, Join(cells, config.delimiter), kind, true, None)
  }

  /**
    A created record has one field per cell, in order: the field of cell `j` is named
    by header `j` (or "Column j+1" past the headers), keeps the cell as its original
    value and carries the type `infer_type` gives it. The raw text is the cells
    joined with the configured delimiter; the record is typed "header" exactly when
    it is row 0 under a header configuration; it is always valid.
  */
  lemma CreateRecordShape(index: nat, cells: seq<string>, headers: seq<string>, config: ParserConfig)
    ensures var r := CreateRecord(index, cells, headers, config);
      r.index == index && |r.fields| == |cells| && r.raw == Join(cells, config.delimiter)
      && (r.kind == Header <==> index == 0 && config.hasHeader) && (r.kind != Header ==> r.kind == Data)
      && r.isValid && r.errors.None?
    ensures forall j :: 0 <= j < |cells| ==>
      var f := CreateRecord(index, cells, headers, config).fields[j];
      f.name == FieldName(headers, j) && f.originalValue == cells[j] && f.position.None?
      && f.value == InferType(cells[j]).0 && f.fieldType == InferType(cells[j]).1
  {
  }

  /** The record the engine pushes for a row the reader could not read. */
  function ErrorRecord(index: nat, message: string): (r: ParsedRecord)
    ensures r.index == index && r.fields == [] && r.raw == [] && r.kind == Data
    ensures !r.isValid && r.errors == Some([message])
  {
    ParsedRecord(index, [], [], Data, false, Some([message]))
  }

  function RowRecord(index: nat, row: CsvRow, headers: seq<string>, config: ParserConfig): ParsedRecord {
    match row
    case RowOk(cells) => CreateRecord(index, cells, headers, config)
    case RowErr(message) => ErrorRecord(index, message)
  }

  /** The records of a sequence of rows: one per row, numbered from 0. */
  function RecordsOf(rows: seq<CsvRow>, headers: seq<string>, config: ParserConfig): seq<ParsedRecord> {
    seq(|rows|, i requires 0 <= i < |rows| => RowRecord(i, rows[i], headers, config))
  }

  /**
    The records of the rows are numbered 0, 1, ...; a record is valid exactly when
    its row was read; only a read first row under a header configuration is typed
    "header", and every other record "data".
  */
  lemma RecordsOfShape(rows: seq<CsvRow>, headers: seq<string>, config: ParserConfig)
    ensures var rs := RecordsOf(rows, headers, config);
      |rs| == |rows| && forall i :: 0 <= i < |rows| ==> rs[i].index == i && (rs[i].isValid <==> rows[i].RowOk?)
    ensures var rs := RecordsOf(rows, headers, config);
      forall i :: 0 <= i < |rows| ==>
        (rs[i].kind == Header <==> i == 0 && config.hasHeader && rows[0].RowOk?)
        && (rs[i].kind != Header ==> rs[i].kind == Data)
  {
  }

  /** The number of valid records. */
  function CountValid(rs: seq<ParsedRecord>): (n: nat)
    ensures n <= |rs|
  {
    if rs == [] then 0 else CountValid(rs[..|rs| - 1]) + (if rs[|rs| - 1].isValid then 1 else 0)
  }

  lemma RecordsOfAppend(rows: seq<CsvRow>, row: CsvRow, headers: seq<string>, config: ParserConfig)
    ensures RecordsOf(rows + [row], headers, config)
      == RecordsOf(rows, headers, config) + [RowRecord(|rows|, row, headers, config)]
  {
    assert forall i :: 0 <= i < |rows| ==> (rows + [row])[i] == rows[i];
  }

  lemma CountValidAppend(rs: seq<ParsedRecord>, r: ParsedRecord)
    ensures CountValid(rs + [r]) == CountValid(rs) + (if r.isValid then 1 else 0)
  {
    assert (rs + [r])[..|rs|] == rs;
  }

  /**
    Without a header row the generated names "Column 1" .. "Column k" are exactly the
    fallback names, so `parse_csv` (which generates them) and
    `parse_csv_with_progress` (which passes no names) build the same records.
  */
  lemma {:induction false} GeneratedNamesAreFallbackNames(rows: seq<CsvRow>, data: seq<CsvRow>, config: ParserConfig)
    ensures RecordsOf(data, GeneratedHeaders(rows), config) == RecordsOf(data, [], config)
  {
    var g := GeneratedHeaders(rows);
    forall j: nat ensures FieldName(g, j) == FieldName([], j) {
    }
    forall i | 0 <= i < |data|
      ensures RowRecord(i, data[i], g, config) == RowRecord(i, data[i], [], config)
    {
      if data[i].RowOk? {
        var cells := data[i].cells;
        assert CreateRecord(i, cells, g, config).fields == CreateRecord(i, cells, [], config).fields;
      }
    }
  }

  // ---------------------------------------------------------------- parse_csv

  /** The dataset `parse_csv` builds from the rows of one input. */
  function CsvData(data: string, rows: seq<CsvRow>, config: ParserConfig, elapsed: real): ParsedData {
    var headers := HeaderNames(rows, config.hasHeader);
    var rs := RecordsOf(DataRows(rows, config.hasHeader), headers, config);
    ParsedData(config, rs, Ordered(headers),
               EngineMetadata(|rs|, CountValid(rs), |rs| - CountValid(rs), elapsed, Utils.CalculateSize(data)))
  }

  /**
    `parse_csv`: one record per data row, the header names, and counts in which every
    read row is valid and every read error invalid. The elapsed time is a parameter.
  */
  method ParseCsv(data: string, read: CsvReader, config: ParserConfig, elapsed: real)
    returns (result: Result<ParsedData, ParseError>)
    ensures result == Ok(CsvData(data, ReadRows(read, data, config), config, elapsed))
  {
    var rows := read(Settings(config), data);
    var totalBytes := Utils.CalculateSize(data);
    var headers := if config.hasHeader then TrimmedHeaderRow(rows) else GeneratedHeaders(rows);
    var records, validCount, invalidCount := ParseRecords(DataRows(rows, config.hasHeader), headers, config);
    var metadata := EngineMetadata(validCount + invalidCount, validCount, invalidCount, elapsed, totalBytes);
    result := Ok(ParsedData(config, records, Ordered(headers), metadata));
  }

  /** The record loop of `parse_csv`: one record per row and the running counts. */
  method ParseRecords(input: seq<CsvRow>, headers: seq<string>, config: ParserConfig)
    returns (records: seq<ParsedRecord>, validCount: nat, invalidCount: nat)
    ensures records == RecordsOf(input, headers, config)
    ensures validCount == CountValid(records) && validCount + invalidCount == |records|
  {
    records := [];
    var valid, invalid := 0, 0;
    for index := 0 to |input|
      invariant records == RecordsOf(input[..index], headers, config)
      invariant valid == CountValid(records) && valid + invalid == index
    {
      var record: ParsedRecord;
      match input[index] {
        case RowOk(cells) =>
          record := CreateRecord(index, cells, headers, config);
          if record.isValid {
            valid := valid + 1;
          } else {
            invalid := invalid + 1;
          }
        case RowErr(message) =>
          invalid := invalid + 1;
          record := ErrorRecord(index, message);
      }
      assert record == RowRecord(index, input[index], headers, config);
      CountValidAppend(records, record);
      RecordsOfAppend(input[..index], input[index], headers, config);
      assert input[..index + 1] == input[..index] + [input[index]];
      records := records + [record];
    }
    assert input[..|input|] == input;
    validCount, invalidCount := valid, invalid;
  }

  // ---------------------------------------------------------------- parse_csv_with_progress

  function Max(a: nat, b: nat): nat {
    if a < b then b else a
  }

  /**
    The position estimate of the progress loop, `((index + 1) * total) / (max(pushed,
    index + 1) + 1)` with `pushed` records already in the output, computed without
    overflow.
  */
  function Estimate(index: nat, pushed: nat, total: nat): nat {
    ((index + 1) * total) / (Max(pushed, index + 1) + 1)
  }

  /** In the loop `pushed == index`, and the estimate stays below the input size. */
  lemma EstimateBelowTotal(index: nat, total: nat)
    requires total > 0
    ensures Estimate(index, index, total) < total
  {
    var n, d := (index + 1) * total, index + 2;
    assert n < d * total by {
      assert d * total == n + total;
    }
    assert n / d < total by {
      DivBelow(n, d, total);
    }
  }

  /** Later records never get a smaller estimate, so the loop's subtraction cannot underflow. */
  lemma EstimateMonotone(i: nat, j: nat, total: nat)
    requires i <= j
    ensures Estimate(i, i, total) <= Estimate(j, j, total)
  {
    var q := Estimate(i, i, total);
    assert q * (i + 2) <= (i + 1) * total;
    assert (i + 1) * (j + 2) <= (j + 1) * (i + 2);
    CrossMultiplied(q, i + 1, i + 2, j + 1, j + 2, total);
    DivAtLeast(q, (j + 1) * total, j + 2);
  }

  /** From `x <= a t / b` and `a / b <= c / d` (cross-multiplied), `x <= c t / d` (cross-multiplied). */
  lemma CrossMultiplied(x: nat, a: nat, b: nat, c: nat, d: nat, t: nat)
    requires b > 0 && d > 0
    requires x * b <= a * t && a * d <= c * b
    ensures x * d <= c * t
  {
    MulLe(x * b, a * t, d);
    MulLe(a * d, c * b, t);
    assert x * b * d == (x * d) * b;
    assert a * t * d == a * d * t;
    assert c * b * t == (c * t) * b;
    MulLeCancel(x * d, c * t, b);
  }

  /** A report below the input size is below 100 %. */
  lemma PercentageBelowHundred(processed: nat, total: nat)
    requires processed < total
    ensures Percentage(processed, total) < 100
  {
    PercentageBounds(processed, total);
    var p := Percentage(processed, total);
    assert 100 * processed < 100 * total;
    if p >= 100 {
      MulLe(100, p, total);
    }
  }

  function StartReport(total: nat): ParseProgress {
    WithMessage(NewProgress("initializing", 0, total, 0), "Starting CSV parse...")
  }

  function ParsingStartReport(total: nat): ParseProgress {
    WithMessage(NewProgress("parsing", 0, total, 0), "Parsing records...")
  }

  function CompleteReport(total: nat, records: nat): ParseProgress {
    WithMessage(NewProgress("complete", total, total, records), "Parsing complete")
  }

  /** The report sent for record number `index` when the estimate has moved on far enough. */
  function ParsingReport(index: nat, total: nat): ParseProgress {
    WithMessage(NewProgress("parsing", Estimate(index, index, total), total, index + 1),
                "Parsed " + NatToString(index + 1) + " records...")
  }

  /**
    The reports the loop sends from record `index` on, when the last report (or the
    start) was at `last` bytes: a read row reports when its estimate is more than one
    hundredth of the input past `last`.
  */
  function ProgressTrail(rows: seq<CsvRow>, index: nat, last: nat, total: nat): seq<ParseProgress>
    decreases |rows| - index
  {
    if index >= |rows| then []
    else if rows[index].RowOk? && Estimate(index, index, total) - last > total / 100 then
      [ParsingReport(index, total)] + ProgressTrail(rows, index + 1, Estimate(index, index, total), total)
    else ProgressTrail(rows, index + 1, last, total)
  }

  /**
    A report in the trail of record `index` on, after a report at `last`: a "parsing"
    report for a read row after `index`, past `last` and below the input size and 100 %.
  */
  predicate ReportAfter(r: ParseProgress, rows: seq<CsvRow>, index: nat, last: nat, total: nat) {
    r.phase == "parsing" && last < r.bytesProcessed < total && r.percentage < 100
    && index < r.recordsProcessed <= |rows| && rows[r.recordsProcessed - 1].RowOk?
  }

  lemma {:induction false} ProgressTrailReports(rows: seq<CsvRow>, index: nat, last: nat, total: nat)
    ensures forall k :: 0 <= k < |ProgressTrail(rows, index, last, total)| ==>
      ReportAfter(ProgressTrail(rows, index, last, total)[k], rows, index, last, total)
    decreases |rows| - index
  {
    if index < |rows| {
      var e := Estimate(index, index, total);
      if rows[index].RowOk? && e - last > total / 100 {
        ProgressTrailReports(rows, index + 1, e, total);
        EstimateBelowTotal(index, total);
        PercentageBelowHundred(e, total);
        var head := ParsingReport(index, total);
        assert ReportAfter(head, rows, index, last, total);
        var t := ProgressTrail(rows, index, last, total);
        assert t == [head] + ProgressTrail(rows, index + 1, e, total);
        forall k | 0 <= k < |t| ensures ReportAfter(t[k], rows, index, last, total) {
          if k > 0 {
            assert ReportAfter(t[k], rows, index + 1, e, total);
          }
        }
      } else {
        ProgressTrailReports(rows, index + 1, last, total);
      }
    }
  }

  /** The reports of the trail advance strictly, in bytes and in records. */
  lemma {:induction false} ProgressTrailIncreasing(rows: seq<CsvRow>, index: nat, last: nat, total: nat)
    ensures forall k, l :: 0 <= k < l < |ProgressTrail(rows, index, last, total)| ==>
      ProgressTrail(rows, index, last, total)[k].bytesProcessed < ProgressTrail(rows, index, last, total)[l].bytesProcessed
      && ProgressTrail(rows, index, last, total)[k].recordsProcessed < ProgressTrail(rows, index, last, total)[l].recordsProcessed
    decreases |rows| - index
  {
    if index < |rows| {
      var e := Estimate(index, index, total);
      if rows[index].RowOk? && e - last > total / 100 {
        ProgressTrailIncreasing(rows, index + 1, e, total);
        ProgressTrailReports(rows, index + 1, e, total);
        var head := ParsingReport(index, total);
        var rest := ProgressTrail(rows, index + 1, e, total);
        var t := ProgressTrail(rows, index, last, total);
        assert t == [head] + rest;
        forall k, l | 0 <= k < l < |t|
          ensures t[k].bytesProcessed < t[l].bytesProcessed && t[k].recordsProcessed < t[l].recordsProcessed
        {
          assert t[l] == rest[l - 1];
          assert ReportAfter(rest[l - 1], rows, index + 1, e, total);
          if k > 0 {
            assert t[k] == rest[k - 1];
          }
        }
      } else {
        ProgressTrailIncreasing(rows, index + 1, last, total);
      }
    }
  }

  /**
    `parse_csv_with_progress`: the same records as `parse_csv`, the trimmed header row
    as headers (no generated names), and the reports in order: "initializing",
    "parsing" at zero, the trail of per-record reports, and "complete".
  */
  method ParseCsvWithProgress(data: string, read: CsvReader, config: ParserConfig, elapsed: real)
    returns (result: Result<ParsedData, ParseError>, reports: seq<ParseProgress>)
    ensures result.Ok?
    ensures result.value.config == config
    ensures var rows := ReadRows(read, data, config);
      result.value.headers == Ordered(if config.hasHeader then TrimmedHeaderRow(rows) else [])
    ensures var rows := ReadRows(read, data, config);
      result.value.records == RecordsOf(DataRows(rows, config.hasHeader), HeaderNames(rows, config.hasHeader), config)
    ensures var rs := result.value.records;
      result.value.metadata == EngineMetadata(|rs|, CountValid(rs), |rs| - CountValid(rs), elapsed, Utils.CalculateSize(data))
    ensures var total, rows := Utils.CalculateSize(data), ReadRows(read, data, config);
      reports == [StartReport(total), ParsingStartReport(total)]
        + ProgressTrail(DataRows(rows, config.hasHeader), 0, 0, total)
        + [CompleteReport(total, |result.value.records|)]
  {
    var rows := read(Settings(config), data);
    var totalBytes := Utils.CalculateSize(data);
    reports := [StartReport(totalBytes)];
    var headers := if config.hasHeader then TrimmedHeaderRow(rows) else [];
    reports := reports + [ParsingStartReport(totalBytes)];
    var input := DataRows(rows, config.hasHeader);
    var records, validCount, invalidCount, sent := RecordsWithProgress(input, headers, config, totalBytes);
    assert reports == [StartReport(totalBytes), ParsingStartReport(totalBytes)];
    reports := reports + sent;
    reports := reports + [CompleteReport(totalBytes, |records|)];
    // without a header row the generated names and no names give the same records
    GeneratedNamesAreFallbackNames(rows, input, config);
    var total := validCount + invalidCount;
    assert total == |records| && validCount == CountValid(records) && invalidCount == total - validCount;
    var metadata := EngineMetadata(total, validCount, invalidCount, elapsed, totalBytes);
    result := Ok(ParsedData(config, records, Ordered(headers), metadata));
  }

  /** The record loop of `parse_csv_with_progress`, with the reports it sends on the way. */
  method RecordsWithProgress(input: seq<CsvRow>, headers: seq<string>, config: ParserConfig, totalBytes: nat)
    returns (records: seq<ParsedRecord>, validCount: nat, invalidCount: nat, sent: seq<ParseProgress>)
    ensures records == RecordsOf(input, headers, config)
    ensures validCount == CountValid(records) && validCount + invalidCount == |records|
    ensures sent == ProgressTrail(input, 0, 0, totalBytes)
  {
    records := [];
    var valid, invalid := 0, 0;
    sent := [];
    var lastProgressUpdate: nat := 0;
    var progressInterval := totalBytes / 100;
    for index := 0 to |input|
      invariant records == RecordsOf(input[..index], headers, config)
      invariant valid == CountValid(records) && valid + invalid == index
      invariant lastProgressUpdate <= Estimate(index, index, totalBytes)
      invariant sent + ProgressTrail(input, index, lastProgressUpdate, totalBytes) == ProgressTrail(input, 0, 0, totalBytes)
    {
      var record: ParsedRecord;
      match input[index] {
        case RowOk(cells) =>
          record := CreateRecord(index, cells, headers, config);
          if record.isValid {
            valid := valid + 1;
          } else {
            invalid := invalid + 1;
          }
          lastProgressUpdate, sent :=
            ReportProgress(input, index, |records|, lastProgressUpdate, progressInterval, totalBytes, sent);
        case RowErr(message) =>
          invalid := invalid + 1;
          record := ErrorRecord(index, message);
          TrailStep(input, index, lastProgressUpdate, totalBytes);
      }
      assert record == RowRecord(index, input[index], headers, config);
      CountValidAppend(records, record);
      RecordsOfAppend(input[..index], input[index], headers, config);
      assert input[..index + 1] == input[..index] + [input[index]];
      records := records + [record];
    }
    assert input[..|input|] == input;
    validCount, invalidCount := valid, invalid;
  }

  /**
    The progress check after a well-formed row: the bytes processed so far are estimated
    from the row's position, and a report is sent when the estimate has grown by more than
    `progressInterval` since the last one.
  */
  method ReportProgress(input: seq<CsvRow>, index: nat, pushed: nat, lastProgressUpdate: nat,
                        progressInterval: nat, totalBytes: nat, sent: seq<ParseProgress>)
    returns (last: nat, sentNow: seq<ParseProgress>)
    requires index < |input| && input[index].RowOk? && pushed == index
    requires progressInterval == totalBytes / 100
    requires lastProgressUpdate <= Estimate(index, index, totalBytes)
    ensures last <= Estimate(index + 1, index + 1, totalBytes)
    ensures sentNow + ProgressTrail(input, index + 1, last, totalBytes)
      == sent + ProgressTrail(input, index, lastProgressUpdate, totalBytes)
  {
    TrailStep(input, index, lastProgressUpdate, totalBytes);
    last, sentNow := lastProgressUpdate, sent;
    var bytesProcessed := Estimate(index, pushed, totalBytes);
    // the estimates never decrease, so this subtraction of usizes does not underflow
    if bytesProcessed - lastProgressUpdate > progressInterval {
      last := bytesProcessed;
      var report := ParsingReport(index, totalBytes);
      AppendAssociates(sent, report, ProgressTrail(input, index + 1, bytesProcessed, totalBytes));
      sentNow := sent + [report];
    }
  }

  /**
    One step of the trail: a well-formed row whose estimate has grown by more than one
    percent since the last report adds a report, and the estimates never decrease.
  */
  lemma TrailStep(rows: seq<CsvRow>, index: nat, last: nat, total: nat)
    requires index < |rows|
    ensures Estimate(index, index, total) <= Estimate(index + 1, index + 1, total)
    ensures rows[index].RowOk? && Estimate(index, index, total) - last > total / 100 ==>
      ProgressTrail(rows, index, last, total)
        == [ParsingReport(index, total)] + ProgressTrail(rows, index + 1, Estimate(index, index, total), total)
    ensures !(rows[index].RowOk? && Estimate(index, index, total) - last > total / 100) ==>
      ProgressTrail(rows, index, last, total) == ProgressTrail(rows, index + 1, last, total)
  {
    EstimateMonotone(index, index + 1, total);
  }

  lemma AppendAssociates<T>(a: seq<T>, x: T, b: seq<T>)
    ensures (a + [x]) + b == a + ([x] + b)
  {
  }

  // ---------------------------------------------------------------- 32-bit usize

  const UsizeModulus: nat := 0x1_0000_0000

  /**
    The estimate as wasm32 computes it: `usize` is 32 bits wide there and, without
    overflow checks, `(index + 1) * total_bytes` wraps around.
  */
  function Wasm32Estimate(index: nat, pushed: nat, total: nat): nat {
    (((index + 1) * total) % UsizeModulus) / (Max(pushed, index + 1) + 1)
  }

  /** `a - b` on a 32-bit `usize` without overflow checks. */
  function WrappingSub(a: nat, b: nat): nat {
    (a - b) % UsizeModulus
  }

  /**
    On a 10 MB input the wrapped estimate falls from 9976744 bytes at record 429 to
    11676 bytes at record 430, the wrapped difference from any earlier report passes
    the one-percent test, and a report going back to 0 % is sent; computed exactly the
    estimate keeps rising.
  */
  lemma Wasm32EstimateGoesBackwards(last: nat)
    requires 11676 < last <= 9976744
    ensures Wasm32Estimate(428, 428, 10_000_000) == 9976744
    ensures Wasm32Estimate(429, 429, 10_000_000) == 11676
    ensures WrappingSub(Wasm32Estimate(429, 429, 10_000_000), last) > 10_000_000 / 100
    ensures NewProgress("parsing", Wasm32Estimate(429, 429, 10_000_000), 10_000_000, 430).percentage == 0
    ensures Estimate(429, 429, 10_000_000) == 9976798
  {
  }
}
