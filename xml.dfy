/**
  The ISO 20022 XML engine (rust/src/xml_parser.rs): a flattener over the events of a
  streaming XML reader. It keeps the stack of open element names, the last text it
  read, the fields collected since the last record and the records so far; it turns
  attributes and element text into fields, closes a record at the end of a boundary
  element, and puts a document-header record in front when it recognised the message
  type. The reader itself is not modelled: the engine is given the events it delivers.
*/
module XmlParser {
  import opened Wrappers
  import opened Text
  import opened Types
  import Utils

  // ---------------------------------------------------------------- reader events

  /** A well-formed attribute of a start tag: its raw value as written, entity references not expanded, lossily decoded. */
  datatype Attribute = Attribute(key: string, value: string)

  /**
    The events the reader hands to the engine: a start tag with its well-formed
    attributes, the unescaped (and trimmed) text between tags, an end tag, the end of
    the input, a reader error at a position with its debug text, and everything the
    engine ignores (self-closing tags, comments, CDATA, declarations).
  */
  datatype XmlEvent =
    | Start(name: string, attributes: seq<Attribute>)
    | Characters(text: string)
    | End(name: string)
    | Eof
    | Failure(at: nat, description: string)
    | Other

  /** One read: the reader's byte position before it, and the event it delivered. */
  datatype Read = Read(position: nat, event: XmlEvent)

  predicate Terminal(e: XmlEvent) {
    e.Eof? || e.Failure?
  }

  /**
    Where the event loop stops: at the first end of input or error. A sequence of reads
    that runs out stands for a reader that then reports the end of the input.
  */
  function Stop(input: seq<Read>): (n: nat)
    ensures n <= |input|
    ensures forall j :: 0 <= j < n ==> !Terminal(input[j].event)
    ensures n < |input| ==> Terminal(input[n].event)
  {
    if input == [] || Terminal(input[0].event) then 0
    else 1 + Stop(input[1..])
  }

  // ---------------------------------------------------------------- field names

  /** `ISO20022_FIELDS`: the readable name of each ISO 20022 element name the engine knows. */
  function Iso20022Name(name: string): Option<string> {
    match name
    case "MsgId" => Some("Message ID")
    case "CreDtTm" => Some("Creation Date/Time")
    case "NbOfTxs" => Some("Number of Transactions")
    case "CtrlSum" => Some("Control Sum")
    case "InitgPty" => Some("Initiating Party")
    case "Nm" => Some("Name")
    case "PmtInfId" => Some("Payment Information ID")
    case "PmtMtd" => Some("Payment Method")
    case "BtchBookg" => Some("Batch Booking")
    case "ReqdExctnDt" => Some("Requested Execution Date")
    case "Dbtr" => Some("Debtor")
    case "DbtrAcct" => Some("Debtor Account")
    case "DbtrAgt" => Some("Debtor Agent")
    case "CdtTrfTxInf" => Some("Credit Transfer Transaction")
    case "PmtId" => Some("Payment ID")
    case "EndToEndId" => Some("End-to-End ID")
    case "InstrId" => Some("Instruction ID")
    case "Amt" => Some("Amount")
    case "InstdAmt" => Some("Instructed Amount")
    case "Ccy" => Some("Currency")
    case "CdtrAgt" => Some("Creditor Agent")
    case "Cdtr" => Some("Creditor")
    case "CdtrAcct" => Some("Creditor Account")
    case "RmtInf" => Some("Remittance Information")
    case "Ustrd" => Some("Unstructured")
    case "Strd" => Some("Structured")
    case "IBAN" => Some("IBAN")
    case "BIC" => Some("BIC")
    case "BICFI" => Some("BIC/FI")
    case "Id" => Some("ID")
    case "Othr" => Some("Other")
    case "FinInstnId" => Some("Financial Institution ID")
    case "Bal" => Some("Balance")
    case "Tp" => Some("Type")
    case "CdOrPrtry" => Some("Code or Proprietary")
    case "Cd" => Some("Code")
    case "Prtry" => Some("Proprietary")
    case "Dt" => Some("Date")
    case "DtTm" => Some("Date/Time")
    case "Ntry" => Some("Entry")
    case "NtryDtls" => Some("Entry Details")
    case "TxDtls" => Some("Transaction Details")
    case "Refs" => Some("References")
    case "AcctSvcrRef" => Some("Account Servicer Reference")
    case "BookgDt" => Some("Booking Date")
    case "ValDt" => Some("Value Date")
    case "Sts" => Some("Status")
    case "CdtDbtInd" => Some("Credit/Debit Indicator")
    case _ => None
  }

  /** A space in front of every capital letter. */
  function SpaceBeforeCapitals(s: string): (r: string)
    ensures |r| >= |s|
  {
    if s == [] then []
    else (if IsAsciiUpper(s[0]) then " " else "") + [s[0]] + SpaceBeforeCapitals(s[1..])
  }

  /** The camel-case split of `humanize_field`: a space before every capital but the first character. */
  function TitleCase(name: string): string {
    if name == [] then [] else [name[0]] + SpaceBeforeCapitals(name[1..])
  }

  /** `humanize_field`: the table's name for an element or attribute name, else its camel-case split. */
  function HumanizeField(name: string): string {
    match Iso20022Name(name)
    case Some(readable) => readable
    case None => TitleCase(name)
  }

  /** Removes the spaces `SpaceBeforeCapitals` inserts: a space directly before a capital. */
  function DropInsertedSpaces(r: string): string
    decreases |r|
  {
    if r == [] then []
    else if |r| >= 2 && r[0] == ' ' && IsAsciiUpper(r[1]) then [r[1]] + DropInsertedSpaces(r[2..])
    else [r[0]] + DropInsertedSpaces(r[1..])
  }

  /** The inverse of `TitleCase`. */
  function Untitle(r: string): string {
    if r == [] then [] else [r[0]] + DropInsertedSpaces(r[1..])
  }

  lemma SpacedStartsWithNoCapital(s: string)
    ensures SpaceBeforeCapitals(s) != [] ==> !IsAsciiUpper(SpaceBeforeCapitals(s)[0])
  {
  }

  lemma {:induction false} DropInsertedSpacesInverts(s: string)
    ensures DropInsertedSpaces(SpaceBeforeCapitals(s)) == s
    decreases |s|
  {
    if s != [] {
      var rest := SpaceBeforeCapitals(s[1..]);
      DropInsertedSpacesInverts(s[1..]);
      SpacedStartsWithNoCapital(s[1..]);
      if IsAsciiUpper(s[0]) {
        var r := " " + [s[0]] + rest;
        assert r[2..] == rest;
      } else {
        var r := [s[0]] + rest;
        assert r[1..] == rest;
      }
    }
  }

  /**
    A name without a table entry can be read back from its humanised form: the split
    only inserts spaces, each in front of a capital that is not the first character.
  */
  lemma HumanizeFieldRoundTrip(name: string)
    requires Iso20022Name(name) == None
    ensures Untitle(HumanizeField(name)) == name
  {
    if name != [] {
      DropInsertedSpacesInverts(name[1..]);
      assert [name[0]] + name[1..] == name;
    }
  }

  /** A name with no capital after its first character is left as it is. */
  lemma {:induction false} NoCapitalsNoSpaces(s: string)
    requires forall i :: 0 <= i < |s| ==> !IsAsciiUpper(s[i])
    ensures SpaceBeforeCapitals(s) == s
    decreases |s|
  {
    if s != [] {
      NoCapitalsNoSpaces(s[1..]);
    }
  }

  /** The cases the source's unit test checks. */
  lemma HumanizeFieldExamples()
    ensures HumanizeField("MsgId") == "Message ID"
    ensures HumanizeField("CreDtTm") == "Creation Date/Time"
  {
  }

  /** The split works character by character, so it distributes over concatenation. */
  lemma {:induction false} SpaceBeforeCapitalsAppend(a: string, b: string)
    ensures SpaceBeforeCapitals(a + b) == SpaceBeforeCapitals(a) + SpaceBeforeCapitals(b)
    decreases |a|
  {
    if a != [] {
      assert (a + b)[1..] == a[1..] + b;
      SpaceBeforeCapitalsAppend(a[1..], b);
    } else {
      assert a + b == b;
    }
  }

  /** A name of two camel-case words is split into the two words. */
  lemma TitleCaseTwoWords(first: string, second: string)
    requires first != [] && second != [] && IsAsciiUpper(second[0])
    requires forall i :: 1 <= i < |first| ==> !IsAsciiUpper(first[i])
    requires forall i :: 1 <= i < |second| ==> !IsAsciiUpper(second[i])
    ensures TitleCase(first + second) == first + " " + second
  {
    assert (first + second)[1..] == first[1..] + second;
    SpaceBeforeCapitalsAppend(first[1..], second);
    NoCapitalsNoSpaces(first[1..]);
    NoCapitalsNoSpaces(second[1..]);
    assert [first[0]] + first[1..] == first;
    assert [second[0]] + second[1..] == second;
  }

  lemma HumanizeUnknownField()
    ensures HumanizeField("UnknownField") == "Unknown Field"
  {
    assert "Unknown" + " " + "Field" == "Unknown Field";
    assert "UnknownField" == "Unknown" + "Field";
    assert Iso20022Name("UnknownField") == None;
    TitleCaseTwoWords("Unknown", "Field");
  }

  // ---------------------------------------------------------------- value types

  /**
    `infer_xml_type`: the trimmed text is null when empty, a boolean when it reads
    "true" or "false" in any case, an i64 when it parses as one, then an f64, and
    otherwise the trimmed text as a string.
  */
  function InferXmlType(value: string): (FieldValue, FieldType) {
    var t := Trim(value);
    if t == [] then (Null, NullType)
    else if ToLowerAscii(t) == "true" then (Boolean(true), BooleanType)
    else if ToLowerAscii(t) == "false" then (Boolean(false), BooleanType)
    else match ParseI64(t)
      case Some(n) => (Integer(n), NumberType)
      case None => if IsFloatLiteral(t) then (Number(t), NumberType) else (StringValue(t), StringType)
  }

  /**
    The classes of `infer_xml_type`, each with the condition that selects it; the type
    tag always agrees with the value, and no text is read as a date.
  */
  lemma InferXmlTypeCases(value: string)
    ensures var r, t := InferXmlType(value), Trim(value);
      (r.1 == NullType <==> t == []) && (r.0.Null? <==> r.1 == NullType)
      && (r.1 == BooleanType <==> t != [] && (ToLowerAscii(t) == "true" || ToLowerAscii(t) == "false"))
      && (r.0.Boolean? <==> r.1 == BooleanType) && (r.0.Boolean? ==> (r.0.b <==> ToLowerAscii(t) == "true"))
      && (r.0.Integer? <==> r.1 != BooleanType && t != [] && ParseI64(t).Some?)
      && (r.0.Integer? ==> ParseI64(t) == Some(r.0.n))
      && (r.1 == NumberType <==> r.0.Integer? || r.0.Number?)
      && (r.0.Number? ==> r.0.literal == t && IsFloatLiteral(t) && ParseI64(t).None?)
      && (r.0.StringValue? <==> r.1 == StringType)
      && (r.0.StringValue? ==> r.0.s == t && !IsFloatLiteral(t))
      && r.1 != DateType
  {
    I64LiteralIsFloatLiteral(Trim(value));
  }

  // ---------------------------------------------------------------- message types

  /**
    The five message types the engine recognises. The engine keeps the type as a string
    that is empty until one is recognised; the model keeps `Option<MessageType>`, `None`
    standing for the empty string, which no title equals.
  */
  datatype MessageType = Pain001 | Pain008 | Camt052 | Camt053 | Pacs008 {
    /** The text the engine reports for the type. */
    function Title(): (t: string)
      ensures t != []
    {
      match this
      case Pain001 => "pain.001 - Customer Credit Transfer Initiation"
      case Pain008 => "pain.008 - Customer Direct Debit Initiation"
      case Camt052 => "camt.052 - Bank to Customer Account Report"
      case Camt053 => "camt.053 - Bank to Customer Statement"
      case Pacs008 => "pacs.008 - FI to FI Customer Credit Transfer"
    }
  }

  /** Different types have different titles: the title determines the type. */
  lemma TitlesDistinct(a: MessageType, b: MessageType)
    requires a.Title() == b.Title()
    ensures a == b
  {
    assert a.Title()[0] == b.Title()[0] && a.Title()[2] == b.Title()[2] && a.Title()[7] == b.Title()[7];
  }

  /** The message type a namespace names, trying the five identifiers in order. */
  function NamespaceType(xmlns: string): Option<MessageType> {
    if Contains(xmlns, "pain.001") then Some(Pain001)
    else if Contains(xmlns, "pain.008") then Some(Pain008)
    else if Contains(xmlns, "camt.052") then Some(Camt052)
    else if Contains(xmlns, "camt.053") then Some(Camt053)
    else if Contains(xmlns, "pacs.008") then Some(Pacs008)
    else None
  }

  /** The first `xmlns` attribute, in order, whose namespace names a message type. */
  function AttributeType(attributes: seq<Attribute>): Option<MessageType> {
    if attributes == [] then None
    else if attributes[0].key == "xmlns" && NamespaceType(attributes[0].value).Some? then
      NamespaceType(attributes[0].value)
    else AttributeType(attributes[1..])
  }

  /** The message type a root element name stands for. */
  function RootType(name: string): Option<MessageType> {
    if name == "CstmrCdtTrfInitn" then Some(Pain001)
    else if name == "CstmrDrctDbtInitn" then Some(Pain008)
    else if name == "BkToCstmrAcctRpt" then Some(Camt052)
    else if name == "BkToCstmrStmt" then Some(Camt053)
    else if name == "FIToFICstmrCdtTrf" then Some(Pacs008)
    else None
  }

  /** `detect_message_type`: the namespace first, then the element name. */
  function DetectMessageType(name: string, attributes: seq<Attribute>): Option<MessageType> {
    match AttributeType(attributes)
    case Some(mt) => Some(mt)
    case None => RootType(name)
  }

  lemma {:induction false} AttributeTypeSpec(attributes: seq<Attribute>)
    ensures var r := AttributeType(attributes);
      (r.Some? <==> exists i :: 0 <= i < |attributes| && attributes[i].key == "xmlns" && NamespaceType(attributes[i].value).Some?)
  {
    if attributes != [] {
      AttributeTypeSpec(attributes[1..]);
      if AttributeType(attributes[1..]).Some? {
        var i :| 0 <= i < |attributes[1..]| && attributes[1..][i].key == "xmlns" && NamespaceType(attributes[1..][i].value).Some?;
        assert attributes[i + 1] == attributes[1..][i];
      }
      if exists i :: 0 <= i < |attributes| && attributes[i].key == "xmlns" && NamespaceType(attributes[i].value).Some? {
        var i :| 0 <= i < |attributes| && attributes[i].key == "xmlns" && NamespaceType(attributes[i].value).Some?;
        if i > 0 {
          assert attributes[1..][i - 1] == attributes[i];
        }
      }
    }
  }

  /**
    A namespace that names a message type wins over the element name, and only when no
    `xmlns` attribute names one does the element name decide.
  */
  lemma DetectMessageTypeSpec(name: string, attributes: seq<Attribute>)
    ensures var r := DetectMessageType(name, attributes);
      var declared := exists i :: 0 <= i < |attributes| && attributes[i].key == "xmlns" && NamespaceType(attributes[i].value).Some?;
      (declared ==> r == AttributeType(attributes))
      && (!declared ==> r == RootType(name))
      && (r.None? <==> !declared && RootType(name).None?)
  {
    AttributeTypeSpec(attributes);
  }

  /** A pain.001 document is recognised by its namespace and by its root element alike. */
  lemma DetectMessageTypeExamples()
    ensures DetectMessageType("Document", [Attribute("xmlns", "urn:iso:std:iso:20022:tech:xsd:pain.001.001.03")]) == Some(Pain001)
    ensures DetectMessageType("CstmrCdtTrfInitn", []) == Some(Pain001)
  {
    var ns := "urn:iso:std:iso:20022:tech:xsd:pain.001.001.03";
    assert StartsWith(ns[31..], "pain.001");
    ContainsSuffix(ns, 31, "pain.001");
  }

  lemma {:induction false} ContainsSuffix(s: string, k: nat, sub: string)
    requires k <= |s| && StartsWith(s[k..], sub)
    ensures Contains(s, sub)
    decreases k
  {
    if k > 0 {
      assert s[1..][k - 1..] == s[k..];
      ContainsSuffix(s[1..], k - 1, sub);
    }
  }

  // ---------------------------------------------------------------- records

  /** The elements whose end closes a record wherever they are. */
  predicate BoundaryElement(name: string) {
    match name
    case "CdtTrfTxInf" | "DrctDbtTxInf" | "TxDtls" | "Ntry" | "NtryDtls" | "PmtInf" | "Stmt" | "Bal" => true
    case _ => false
  }

  /**
    `is_record_boundary`: a listed element, or any element directly under the root
    except one named "Document".
  */
  predicate IsRecordBoundary(name: string, path: seq<string>) {
    BoundaryElement(name) || (|path| == 2 && name != "Document")
  }

  /** The record kind a path segment names: the header list, then the transaction list. */
  function SegmentKind(segment: string): Option<RecordKind> {
    match segment
    case "GrpHdr" | "MsgId" | "CreDtTm" | "NbOfTxs" | "CtrlSum" => Some(Header)
    case "CdtTrfTxInf" | "DrctDbtTxInf" | "TxDtls" | "Ntry" | "NtryDtls" => Some(Transaction)
    case _ => None
  }

  predicate Listed(segment: string) {
    SegmentKind(segment).Some?
  }

  /** The kind of the first listed path segment, root first. */
  function ListedKind(path: seq<string>): Option<RecordKind> {
    if path == [] then None
    else if Listed(path[0]) then SegmentKind(path[0])
    else ListedKind(path[1..])
  }

  /**
    `determine_record_type`: the kind of the outermost listed segment; without one, a
    header at depth two or less and plain data below.
  */
  function DetermineRecordType(path: seq<string>): RecordKind {
    match ListedKind(path)
    case Some(kind) => kind
    case None => if |path| <= 2 then Header else Data
  }

  /** The first listed segment decides the kind; no segment, no kind. */
  lemma {:induction false} ListedKindSpec(path: seq<string>)
    ensures var r := ListedKind(path);
      (r.None? <==> forall i :: 0 <= i < |path| ==> !Listed(path[i]))
      && (r.Some? ==> exists i :: 0 <= i < |path| && Listed(path[i]) && (forall j :: 0 <= j < i ==> !Listed(path[j]))
                        && r == SegmentKind(path[i]))
    decreases |path|
  {
    if path != [] {
      ListedKindSpec(path[1..]);
      if !Listed(path[0]) {
        assert forall i :: 1 <= i < |path| ==> path[i] == path[1..][i - 1];
        if ListedKind(path[1..]).Some? {
          var i :| 0 <= i < |path[1..]| && Listed(path[1..][i]) && (forall j :: 0 <= j < i ==> !Listed(path[1..][j]))
                   && ListedKind(path[1..]) == SegmentKind(path[1..][i]);
          assert forall j :: 0 <= j < i + 1 ==> !Listed(path[j]) by {
            forall j | 0 <= j < i + 1 ensures !Listed(path[j]) {
              if j > 0 {
                assert path[j] == path[1..][j - 1];
              }
            }
          }
        }
      } else {
        assert Listed(path[0]) && ListedKind(path) == SegmentKind(path[0]);
      }
    }
  }

  /**
    The kind of a record follows its outermost listed segment: a header for the header
    list, a transaction for the transaction list; a path with none is a header at depth
    two or less and data below; no record is ever a footer.
  */
  lemma RecordTypeRule(path: seq<string>)
    ensures var k := DetermineRecordType(path);
      k != Footer
      && ((forall i :: 0 <= i < |path| ==> !Listed(path[i])) ==> k == (if |path| <= 2 then Header else Data))
      && (forall i :: 0 <= i < |path| && Listed(path[i]) && (forall j :: 0 <= j < i ==> !Listed(path[j])) ==>
            Some(k) == SegmentKind(path[i]))
  {
    ListedKindSpec(path);
    if ListedKind(path).Some? {
      var i :| 0 <= i < |path| && Listed(path[i]) && (forall j :: 0 <= j < i ==> !Listed(path[j]))
               && ListedKind(path) == SegmentKind(path[i]);
      forall i' | 0 <= i' < |path| && Listed(path[i']) && (forall j :: 0 <= j < i' ==> !Listed(path[j]))
        ensures SegmentKind(path[i']) == SegmentKind(path[i])
      {
        assert !(i' < i) && !(i < i');
      }
    }
  }

  /** A transaction list entry is always a record boundary too. */
  lemma TransactionSegmentsAreBoundaries(segment: string, path: seq<string>)
    requires SegmentKind(segment) == Some(Transaction)
    ensures IsRecordBoundary(segment, path)
  {
  }

  // ---------------------------------------------------------------- the flattener

  /**
    The engine's state between events: the stack of open element names, the last text
    read, the fields collected since the last record, the records, the header names and
    the message type (empty until one is recognised).
  */
  datatype Flattening = Flattening(
    path: seq<string>,
    text: string,
    fields: seq<ParsedField>,
    records: seq<ParsedRecord>,
    headers: set<string>,
    messageType: Option<MessageType>)

  const Initial: Flattening := Flattening([], [], [], [], {}, None)

  /** An attribute becomes a string field, named after its key. */
  function AttributeField(a: Attribute): ParsedField {
    ParsedField(HumanizeField(a.key), StringValue(a.value), StringType, a.value, None)
  }

  function AttributeFields(attributes: seq<Attribute>): (fs: seq<ParsedField>)
    ensures |fs| == |attributes|
  {
    seq(|attributes|, i requires 0 <= i < |attributes| => AttributeField(attributes[i]))
  }

  /** The header name of an attribute: the dotted element path, then `[@key]`. */
  function AttributeHeader(path: seq<string>, a: Attribute): string {
    Join(path, ".") + "[@" + a.key + "]"
  }

  function AttributeHeaders(path: seq<string>, attributes: seq<Attribute>): set<string> {
    set i | 0 <= i < |attributes| :: AttributeHeader(path, attributes[i])
  }

  lemma AttributeFieldsAppend(attributes: seq<Attribute>, a: Attribute)
    ensures AttributeFields(attributes + [a]) == AttributeFields(attributes) + [AttributeField(a)]
  {
  }

  lemma AttributeHeadersAppend(path: seq<string>, attributes: seq<Attribute>, a: Attribute)
    ensures AttributeHeaders(path, attributes + [a]) == AttributeHeaders(path, attributes) + {AttributeHeader(path, a)}
  {
    var all := attributes + [a];
    forall h | h in AttributeHeaders(path, all)
      ensures h in AttributeHeaders(path, attributes) + {AttributeHeader(path, a)}
    {
      var i :| 0 <= i < |all| && h == AttributeHeader(path, all[i]);
      if i < |attributes| {
        assert all[i] == attributes[i];
      }
    }
    forall h | h in AttributeHeaders(path, attributes)
      ensures h in AttributeHeaders(path, all)
    {
      var i :| 0 <= i < |attributes| && h == AttributeHeader(path, attributes[i]);
      assert all[i] == attributes[i];
    }
    assert all[|attributes|] == a;
  }

  /** The field an element's text becomes, named after the element and typed by `infer_xml_type`. */
  function TextField(name: string, text: string): ParsedField {
    var (value, fieldType) := InferXmlType(text);
    ParsedField(HumanizeField(name), value, fieldType, text, None)
  }

  /**
    A start tag: its name goes on the stack; at depth one or two it may set the message
    type; each attribute adds a header name and a string field.
  */
  function OnStart(f: Flattening, name: string, attributes: seq<Attribute>): Flattening {
    var path := f.path + [name];
    var messageType :=
      if |path| <= 2 && DetectMessageType(name, attributes).Some? then DetectMessageType(name, attributes)
      else f.messageType;
    f.(path := path, messageType := messageType,
       headers := f.headers + AttributeHeaders(path, attributes),
       fields := f.fields + AttributeFields(attributes))
  }

  /** The text read so far, if any, becomes a field of the element being closed. */
  function SaveText(f: Flattening, name: string): Flattening {
    if f.text == [] then f
    else f.(headers := f.headers + {Join(f.path, ".")}, fields := f.fields + [TextField(name, f.text)], text := [])
  }

  function ElementRecord(f: Flattening): ParsedRecord {
    ParsedRecord(|f.records|, f.fields, Join(f.path, "/"), DetermineRecordType(f.path), true, None)
  }

  /** At a boundary, the collected fields, if any, move into a new record. */
  function CloseRecord(f: Flattening, name: string): Flattening {
    if IsRecordBoundary(name, f.path) && f.fields != [] then
      f.(records := f.records + [ElementRecord(f)], fields := [])
    else f
  }

  /** `Vec::pop`: nothing happens to an empty stack. */
  function Pop(path: seq<string>): seq<string> {
    if path == [] then [] else path[..|path| - 1]
  }

  /** An end tag: save the text, close a record at a boundary, pop the stack. */
  function OnEnd(f: Flattening, name: string): Flattening {
    var g := CloseRecord(SaveText(f, name), name);
    g.(path := Pop(g.path))
  }

  /** One event of the loop; the end of input and errors stop the loop before they get here. */
  function Step(f: Flattening, e: XmlEvent): Flattening {
    match e
    case Start(name, attributes) => OnStart(f, name, attributes)
    case Characters(text) => f.(text := text)
    case End(name) => OnEnd(f, name)
    case _ => f
  }

  /** The state after a sequence of reads. */
  function Run(input: seq<Read>): Flattening {
    if input == [] then Initial
    else Step(Run(input[..|input| - 1]), input[|input| - 1].event)
  }

  lemma RunAppend(input: seq<Read>, r: Read)
    ensures Run(input + [r]) == Step(Run(input), r.event)
  {
    assert (input + [r])[..|input|] == input;
  }

  /** The state after one more read of the input. */
  lemma RunNext(input: seq<Read>, i: nat)
    requires i < |input|
    ensures Run(input[..i + 1]) == Step(Run(input[..i]), input[i].event)
  {
    assert input[..i + 1] == input[..i] + [input[i]];
    RunAppend(input[..i], input[i]);
  }

  /** The message-type field of the document-header record. */
  function MessageTypeField(messageType: MessageType): ParsedField {
    ParsedField("Message Type", StringValue(messageType.Title()), StringType, [], None)
  }

  /** The record put in front when the message type is known. */
  function DocumentHeader(messageType: MessageType): ParsedRecord {
    ParsedRecord(0, [MessageTypeField(messageType)], "Document", Header, true, None)
  }

  /** The dataset built from the final state: the element records behind the document header. */
  function Finish(f: Flattening, config: ParserConfig, size: nat, elapsed: real): ParsedData {
    var records := (if f.messageType.Some? then [DocumentHeader(f.messageType.value)] else []) + f.records;
    ParsedData(config, records, Unordered(f.headers), EngineMetadata(|f.records|, |f.records|, 0, elapsed, size))
  }

  function ErrorDetail(position: nat, description: string): string {
    "Error at position " + NatToString(position) + ": " + description
  }

  /** What `parse_xml` returns for the reads of one input. */
  function XmlData(input: seq<Read>, config: ParserConfig, size: nat, elapsed: real): Result<ParsedData, ParseError> {
    var n := Stop(input);
    if n < |input| && input[n].event.Failure? then
      Err(XmlError(ErrorDetail(input[n].event.at, input[n].event.description)))
    else Ok(Finish(Run(input[..n]), config, size, elapsed))
  }

  // ---------------------------------------------------------------- properties of the flattener

  /** The fields of a list of records, in order. */
  function RecordFields(records: seq<ParsedRecord>): seq<ParsedField> {
    if records == [] then [] else RecordFields(records[..|records| - 1]) + records[|records| - 1].fields
  }

  /** Every field collected so far: those already in records, then those pending. */
  function Collected(f: Flattening): seq<ParsedField> {
    RecordFields(f.records) + f.fields
  }

  /** The records of the loop are numbered from 0, valid, without errors, never empty and never footers. */
  predicate RecordsNumbered(records: seq<ParsedRecord>) {
    forall i :: 0 <= i < |records| ==>
      records[i].index == i && records[i].isValid && records[i].errors.None?
      && records[i].fields != [] && records[i].kind != Footer
  }

  /**
    What one event does to the record list and the fields: records are only appended,
    numbered on; no field is dropped, reordered or duplicated, only new ones added at the
    end; the message type is empty or a known one; and an end tag always leaves the text
    empty.
  */
  lemma StartKeeps(f: Flattening, name: string, attributes: seq<Attribute>)
    ensures var g := OnStart(f, name, attributes);
      g.records == f.records && Collected(g) == Collected(f) + AttributeFields(attributes) && f.headers <= g.headers
  {
    var g := OnStart(f, name, attributes);
    assert g.fields == f.fields + AttributeFields(attributes);
    AppendAssoc(RecordFields(f.records), f.fields, AttributeFields(attributes));
  }

  lemma AppendAssoc<T>(a: seq<T>, b: seq<T>, c: seq<T>)
    ensures a + (b + c) == (a + b) + c
  {
  }

  /** Saving the text adds at most one field and one header name, and empties the text. */
  lemma SaveTextExtends(f: Flattening, name: string)
    ensures var s := SaveText(f, name);
      s.records == f.records && s.path == f.path && Collected(f) <= Collected(s)
      && f.headers <= s.headers && s.text == []
  {
    if f.text != [] {
      AppendAssoc(RecordFields(f.records), f.fields, [TextField(name, f.text)]);
    }
  }

  /** Closing a record moves the pending fields, in order, into a new last record. */
  lemma CloseRecordExtends(f: Flattening, name: string)
    ensures var c := CloseRecord(f, name);
      f.records <= c.records && Collected(c) == Collected(f) && c.headers == f.headers
      && c.text == f.text && c.path == f.path
  {
    if IsRecordBoundary(name, f.path) && f.fields != [] {
      var rs := f.records + [ElementRecord(f)];
      assert rs[..|f.records|] == f.records;
    }
  }

  /** A new record takes the next index and is valid, non-empty and not a footer. */
  lemma CloseRecordNumbered(f: Flattening, name: string)
    requires RecordsNumbered(f.records)
    ensures RecordsNumbered(CloseRecord(f, name).records)
  {
    if IsRecordBoundary(name, f.path) && f.fields != [] {
      RecordTypeRule(f.path);
      var rs := f.records + [ElementRecord(f)];
      assert forall i :: 0 <= i < |f.records| ==> rs[i] == f.records[i];
    }
  }

  /**
    What one event does: records are only appended; no field is dropped, reordered or
    duplicated, only new ones added at the end; header names are only added; and an end
    tag always leaves the text empty.
  */
  lemma StepExtends(f: Flattening, e: XmlEvent)
    ensures var g := Step(f, e);
      f.records <= g.records && Collected(f) <= Collected(g) && f.headers <= g.headers
      && (e.End? ==> g.text == [])
  {
    match e {
      case Start(name, attributes) => StartKeeps(f, name, attributes);
      case End(name) =>
        SaveTextExtends(f, name);
        CloseRecordExtends(SaveText(f, name), name);
      case _ =>
    }
  }

  /** Every event keeps the records numbered on from 0, valid, non-empty and not footers. */
  lemma StepNumbered(f: Flattening, e: XmlEvent)
    requires RecordsNumbered(f.records)
    ensures RecordsNumbered(Step(f, e).records)
  {
    if e.End? {
      SaveTextExtends(f, e.name);
      CloseRecordNumbered(SaveText(f, e.name), e.name);
    }
  }

  /** Every state the loop reaches has its records numbered from 0. */
  lemma {:induction false} RunKeeps(input: seq<Read>)
    ensures RecordsNumbered(Run(input).records)
  {
    if input != [] {
      RunKeeps(input[..|input| - 1]);
      StepNumbered(Run(input[..|input| - 1]), input[|input| - 1].event);
    }
  }

  /**
    Reading on never takes anything back: the records of a prefix start the records of
    the whole, the fields collected for a prefix start those collected for the whole,
    and header names are only added.
  */
  lemma {:induction false} RunExtends(pre: seq<Read>, more: seq<Read>)
    ensures Run(pre).records <= Run(pre + more).records
    ensures Collected(Run(pre)) <= Collected(Run(pre + more))
    ensures Run(pre).headers <= Run(pre + more).headers
    decreases |more|
  {
    if more == [] {
      assert pre + more == pre;
    } else {
      var init := more[..|more| - 1];
      var last := more[|more| - 1];
      RunExtends(pre, init);
      assert pre + more == (pre + init) + [last];
      RunAppend(pre + init, last);
      StepExtends(Run(pre + init), last.event);
    }
  }

  /** The change in nesting depth over a run of events: start tags minus end tags. */
  function Depth(input: seq<Read>): int {
    if input == [] then 0
    else
      var change := match input[|input| - 1].event case Start(_, _) => 1 case End(_) => -1 case _ => 0;
      Depth(input[..|input| - 1]) + change
  }

  /** No prefix of the run, the whole run included, closes more elements than it opened. */
  predicate NeverUnderflows(input: seq<Read>) {
    Depth(input) >= 0 && forall k :: 0 <= k < |input| ==> Depth(input[..k]) >= 0
  }

  /** The stack after one event: a start tag pushes its name, an end tag pops. */
  lemma StepPath(f: Flattening, e: XmlEvent)
    ensures Step(f, e).path == match e case Start(name, _) => f.path + [name] case End(_) => Pop(f.path) case _ => f.path
  {
  }

  /**
    Start tags push and end tags pop: over a run that never closes more than it opened,
    the stack keeps what it held and grows by the depth change; so over a balanced run
    it comes back to where it was.
  */
  lemma {:induction false} PathNesting(pre: seq<Read>, more: seq<Read>)
    requires NeverUnderflows(more)
    ensures var before, after := Run(pre).path, Run(pre + more).path;
      |after| == |before| + Depth(more) && after[..|before|] == before
    decreases |more|
  {
    if more == [] {
      assert pre + more == pre;
    } else {
      var init := more[..|more| - 1];
      var last := more[|more| - 1];
      assert NeverUnderflows(init) by {
        assert Depth(init) >= 0;
        forall k | 0 <= k < |init| ensures Depth(init[..k]) >= 0 {
          assert init[..k] == more[..k];
        }
      }
      PathNesting(pre, init);
      assert pre + more == (pre + init) + [last];
      RunAppend(pre + init, last);
      StepPath(Run(pre + init), last.event);
    }
  }

  lemma BalancedRunRestoresPath(pre: seq<Read>, more: seq<Read>)
    requires NeverUnderflows(more) && Depth(more) == 0
    ensures Run(pre + more).path == Run(pre).path
  {
    PathNesting(pre, more);
  }

  /**
    An end tag closes a record exactly when the element is a boundary and there is
    something to put in it; the record holds the pending fields and the element's text,
    and the pending list is empty afterwards.
  */
  lemma EndClosesRecord(f: Flattening, name: string)
    ensures var g := OnEnd(f, name);
      var pending := f.fields + (if f.text == [] then [] else [TextField(name, f.text)]);
      (|g.records| > |f.records| <==> IsRecordBoundary(name, f.path) && pending != [])
      && (|g.records| > |f.records| ==> g.records == f.records + [ParsedRecord(|f.records|, pending, Join(f.path, "/"), DetermineRecordType(f.path), true, None)] && g.fields == [])
      && (|g.records| == |f.records| ==> g.records == f.records && g.fields == pending)
  {
    if f.text == [] {
      assert f.fields + [] == f.fields;
    }
  }

  /**
    `parse_xml`'s dataset: a document-header record in front exactly when a message type
    was recognised, the element records numbered from 0 behind it (so the first of them
    shares index 0 with the header), all valid; the counts leave the document header out.
  */
  lemma XmlDataShape(input: seq<Read>, config: ParserConfig, size: nat, elapsed: real)
    requires XmlData(input, config, size, elapsed).Ok?
    ensures var d, f := XmlData(input, config, size, elapsed).value, Run(input[..Stop(input)]);
      var h := if f.messageType.Some? then 1 else 0;
      |d.records| == h + |f.records|
      && (f.messageType.Some? ==> d.records[0] == DocumentHeader(f.messageType.value))
      && (forall i :: h <= i < |d.records| ==> d.records[i].index == i - h && d.records[i].isValid && d.records[i].fields != [])
      && d.metadata.totalRecords == d.metadata.validRecords == |d.records| - h
      && d.metadata.invalidRecords == 0 && d.metadata.fileSize == Some(size)
      && d.headers == Unordered(f.headers) && d.config == config
  {
    RunKeeps(input[..Stop(input)]);
  }

  /** A reader error before the end of input fails the whole parse: no partial data. */
  lemma XmlDataFails(input: seq<Read>, config: ParserConfig, size: nat, elapsed: real)
    ensures XmlData(input, config, size, elapsed).Err? <==> exists n :: 0 <= n < |input| && input[n].event.Failure? && forall j :: 0 <= j < n ==> !Terminal(input[j].event)
    ensures XmlData(input, config, size, elapsed).Err? ==> XmlData(input, config, size, elapsed).error.XmlError?
  {
    var n := Stop(input);
    if exists m :: 0 <= m < |input| && input[m].event.Failure? && forall j :: 0 <= j < m ==> !Terminal(input[j].event) {
      var m :| 0 <= m < |input| && input[m].event.Failure? && forall j :: 0 <= j < m ==> !Terminal(input[j].event);
      assert m == n;
    }
  }

  /** Only an end tag can add a record. */
  lemma StepRecords(f: Flattening, e: XmlEvent)
    ensures !e.End? ==> Step(f, e).records == f.records
  {
  }

  // ---------------------------------------------------------------- the event loop

  /** The attribute loop of a start tag. */
  method AddAttributes(path: seq<string>, attributes: seq<Attribute>, headers: set<string>, fields: seq<ParsedField>)
    returns (headersNow: set<string>, fieldsNow: seq<ParsedField>)
    ensures headersNow == headers + AttributeHeaders(path, attributes)
    ensures fieldsNow == fields + AttributeFields(attributes)
  {
    headersNow, fieldsNow := headers, fields;
    for k := 0 to |attributes|
      invariant headersNow == headers + AttributeHeaders(path, attributes[..k])
      invariant fieldsNow == fields + AttributeFields(attributes[..k])
    {
      var a := attributes[k];
      var fieldName := Join(path, ".") + "[@" + a.key + "]";
      headersNow := headersNow + {fieldName};
      fieldsNow := fieldsNow + [ParsedField(HumanizeField(a.key), StringValue(a.value), StringType, a.value, None)];
      assert attributes[..k + 1] == attributes[..k] + [a];
      AttributeHeadersAppend(path, attributes[..k], a);
      AttributeFieldsAppend(attributes[..k], a);
    }
    assert attributes[..|attributes|] == attributes;
  }

  /** A start tag. */
  method StartElement(f: Flattening, name: string, attributes: seq<Attribute>)
    returns (path: seq<string>, messageType: Option<MessageType>, headers: set<string>, fields: seq<ParsedField>)
    ensures f.(path := path, messageType := messageType, headers := headers, fields := fields) == OnStart(f, name, attributes)
  {
    path := f.path + [name];
    messageType := f.messageType;
    if |path| <= 2 {
      var detected := DetectMessageType(name, attributes);
      if detected.Some? {
        messageType := detected;
      }
    }
    headers, fields := AddAttributes(path, attributes, f.headers, f.fields);
  }

  /** An end tag; `emitted` tells whether it closed a record. */
  method EndElement(f: Flattening, recordIndex: nat, name: string)
    returns (path: seq<string>, text: string, fields: seq<ParsedField>, records: seq<ParsedRecord>,
             headers: set<string>, index: nat, emitted: bool)
    requires recordIndex == |f.records|
    ensures f.(path := path, text := text, fields := fields, records := records, headers := headers) == OnEnd(f, name)
    ensures index == |records| && (emitted <==> |records| > |f.records|)
  {
    path, text, fields, records, headers, index := f.path, f.text, f.fields, f.records, f.headers, recordIndex;
    if text != [] {
      headers := headers + {Join(path, ".")};
      var (value, fieldType) := InferXmlType(text);
      fields := fields + [ParsedField(HumanizeField(name), value, fieldType, text, None)];
      text := [];
    }
    emitted := false;
    if IsRecordBoundary(name, path) && fields != [] {
      var recordType := DetermineRecordType(path);
      records := records + [ParsedRecord(index, fields, Join(path, "/"), recordType, true, None)];
      fields := [];
      index := index + 1;
      emitted := true;
    }
    if path != [] {
      path := path[..|path| - 1];
    }
  }

  /**
    One event that neither ends the input nor fails, applied to the loop's variables;
    `emitted` tells whether it closed a record.
  */
  method Apply(f: Flattening, recordIndex: nat, e: XmlEvent) returns (g: Flattening, index: nat, emitted: bool)
    requires recordIndex == |f.records| && !Terminal(e)
    ensures g == Step(f, e) && index == |g.records|
    ensures emitted <==> |g.records| > |f.records|
  {
    g, index, emitted := f, recordIndex, false;
    match e {
      case Start(name, attributes) =>
        var path, messageType, headers, fields := StartElement(f, name, attributes);
        g := f.(path := path, messageType := messageType, headers := headers, fields := fields);
      case Characters(text) =>
        g := f.(text := text);
      case End(name) =>
        var path, text, fields, records, headers;
        path, text, fields, records, headers, index, emitted := EndElement(f, recordIndex, name);
        g := f.(path := path, text := text, fields := fields, records := records, headers := headers);
      case _ =>
    }
  }

  /** The dataset of the final state: the document header, when there is a message type, in front. */
  method Assemble(f: Flattening, recordIndex: nat, config: ParserConfig, size: nat, elapsed: real) returns (data: ParsedData)
    requires recordIndex == |f.records|
    ensures data == Finish(f, config, size, elapsed)
  {
    var records := f.records;
    if f.messageType.Some? {
      records := [DocumentHeader(f.messageType.value)] + records;
    } else {
      assert [] + records == records;
    }
    data := ParsedData(config, records, Unordered(f.headers), EngineMetadata(recordIndex, recordIndex, 0, elapsed, size));
  }

  /**
    `parse_xml`: runs the reads through the flattener until the end of input, or fails on
    the first reader error, then puts the document header in front.
  */
  method ParseXml(data: string, input: seq<Read>, config: ParserConfig, elapsed: real)
    returns (result: Result<ParsedData, ParseError>)
    ensures result == XmlData(input, config, Utils.CalculateSize(data), elapsed)
  {
    var totalBytes := Utils.CalculateSize(data);
    var state := Initial;
    var recordIndex: nat := 0;
    var i := 0;
    while i < |input|
      invariant i <= Stop(input)
      invariant state == Run(input[..i]) && recordIndex == |state.records|
    {
      match input[i].event {
        case Eof =>
          break;
        case Failure(at, description) =>
          assert i == Stop(input);
          return Err(XmlError(ErrorDetail(at, description)));
        case _ =>
      }
      var emitted;
      state, recordIndex, emitted := Apply(state, recordIndex, input[i].event);
      RunNext(input, i);
      i := i + 1;
    }
    assert i == Stop(input);
    var dataset := Assemble(state, recordIndex, config, totalBytes, elapsed);
    result := Ok(dataset);
  }

  // ---------------------------------------------------------------- progress

  function XmlStartReport(total: nat): ParseProgress {
    WithMessage(NewProgress("initializing", 0, total, 0), "Starting XML parse...")
  }

  function XmlRecordReport(position: nat, total: nat, records: nat): ParseProgress {
    WithMessage(NewProgress("parsing", position, total, records), "Parsed " + NatToString(records) + " records...")
  }

  function XmlCompleteReport(total: nat, records: nat): ParseProgress {
    WithMessage(NewProgress("complete", total, total, records), "XML parsing complete")
  }

  /**
    The position of the last report (0 before any) and the reports sent over a sequence
    of reads: a read whose end tag closes a record reports when the reader has moved more
    than one hundredth of the input past the last report.
  */
  function Trail(input: seq<Read>, total: nat): (nat, seq<ParseProgress>) {
    if input == [] then (0, [])
    else
      var init := input[..|input| - 1];
      var r := input[|input| - 1];
      var (last, sent) := Trail(init, total);
      var before := Run(init);
      var after := Step(before, r.event);
      if |after.records| > |before.records| && r.position - last > total / 100 then
        (r.position, sent + [XmlRecordReport(r.position, total, |after.records|)])
      else (last, sent)
  }

  /**
    The reports of the trail are "parsing" reports that advance strictly in bytes and in
    records, none past the last report's position or the records read so far.
  */
  lemma {:induction false} TrailIncreasing(input: seq<Read>, total: nat)
    ensures var last, sent := Trail(input, total).0, Trail(input, total).1;
      (forall k :: 0 <= k < |sent| ==>
         sent[k].phase == "parsing" && sent[k].bytesProcessed <= last && 0 < sent[k].recordsProcessed <= |Run(input).records|)
      && (forall k, l :: 0 <= k < l < |sent| ==>
            sent[k].bytesProcessed < sent[l].bytesProcessed && sent[k].recordsProcessed < sent[l].recordsProcessed)
  {
    if input != [] {
      var init := input[..|input| - 1];
      var r := input[|input| - 1];
      TrailIncreasing(init, total);
      StepExtends(Run(init), r.event);
      assert input == init + [r];
      RunAppend(init, r);
      TrailStep(input, total);
    }
  }

  /** One step of the trail: a report for a read that closes a record far enough on, else nothing. */
  lemma TrailStep(input: seq<Read>, total: nat)
    requires input != []
    ensures var init, r := input[..|input| - 1], input[|input| - 1];
      var before, after := Run(init), Step(Run(init), r.event);
      var (last, sent) := Trail(init, total);
      Trail(input, total) ==
        if |after.records| > |before.records| && r.position - last > total / 100 then
          (r.position, sent + [XmlRecordReport(r.position, total, |after.records|)])
        else (last, sent)
  {
  }

  /** The state and the trail after one more read of the input. */
  lemma TrailNext(input: seq<Read>, i: nat, total: nat)
    requires i < |input|
    ensures var before, r := Run(input[..i]), input[i];
      var after := Step(before, r.event);
      var (last, sent) := Trail(input[..i], total);
      Run(input[..i + 1]) == after
      && Trail(input[..i + 1], total) ==
           if |after.records| > |before.records| && r.position - last > total / 100 then
             (r.position, sent + [XmlRecordReport(r.position, total, |after.records|)])
           else (last, sent)
  {
    var prefix := input[..i + 1];
    assert prefix[..i] == input[..i] && prefix[i] == input[i];
    TrailStep(prefix, total);
    RunNext(input, i);
  }

  /** The outcome of the progress variant: its error text gives the position before the failing read. */
  function XmlDataWithProgress(input: seq<Read>, config: ParserConfig, size: nat, elapsed: real): Result<ParsedData, ParseError> {
    var n := Stop(input);
    if n < |input| && input[n].event.Failure? then
      Err(XmlError(ErrorDetail(input[n].position, input[n].event.description)))
    else XmlData(input, config, size, elapsed)
  }

  /**
    `parse_xml_with_progress`: the dataset of `parse_xml` (the error text aside), and the
    reports in order: "initializing", the trail up to where the loop stopped, and
    "complete" when the parse succeeds.
  */
  method ParseXmlWithProgress(data: string, input: seq<Read>, config: ParserConfig, elapsed: real)
    returns (result: Result<ParsedData, ParseError>, reports: seq<ParseProgress>)
    ensures result == XmlDataWithProgress(input, config, Utils.CalculateSize(data), elapsed)
    ensures var total, n := Utils.CalculateSize(data), Stop(input);
      reports == [XmlStartReport(total)] + Trail(input[..n], total).1
                 + (if result.Ok? then [XmlCompleteReport(total, |Run(input[..n]).records|)] else [])
  {
    var totalBytes := Utils.CalculateSize(data);
    reports := [XmlStartReport(totalBytes)];
    var state := Initial;
    var recordIndex: nat := 0;
    var lastProgressUpdate: nat := 0;
    var progressInterval := totalBytes / 100;
    var i := 0;
    while i < |input|
      invariant i <= Stop(input)
      invariant state == Run(input[..i]) && recordIndex == |state.records|
      invariant lastProgressUpdate == Trail(input[..i], totalBytes).0
      invariant reports == [XmlStartReport(totalBytes)] + Trail(input[..i], totalBytes).1
    {
      var position := input[i].position;
      match input[i].event {
        case Eof =>
          break;
        case Failure(_, description) =>
          assert i == Stop(input);
          return Err(XmlError(ErrorDetail(position, description))), reports;
        case _ =>
      }
      TrailNext(input, i, totalBytes);
      var emitted;
      state, recordIndex, emitted := Apply(state, recordIndex, input[i].event);
      if emitted && position - lastProgressUpdate > progressInterval {
        lastProgressUpdate := position;
        AppendAssoc([XmlStartReport(totalBytes)], Trail(input[..i], totalBytes).1, [XmlRecordReport(position, totalBytes, recordIndex)]);
        reports := reports + [XmlRecordReport(position, totalBytes, recordIndex)];
      }
      i := i + 1;
    }
    assert i == Stop(input);
    var dataset := Assemble(state, recordIndex, config, totalBytes, elapsed);
    result := Ok(dataset);
    reports := reports + [XmlCompleteReport(totalBytes, recordIndex)];
  }
}
