/**
  The library entry points: `parse` reads the configuration, routes the input to one
  engine by the configuration's `type` tag, and turns the engine's result into either
  a dataset or an error message. Converting values to and from JavaScript is outside
  the model: the configuration arrives as the outcome of deserialising it. The CSV
  engine receives the `csv` crate's reader as a function of the settings it builds,
  the XML engine the reader's events, and the FIN engine the text itself.
*/
module Lib {
  import opened Wrappers
  import opened Types
  import Utils
  import CsvParser
  import XmlParser
  import FinParser

  /** `is_ready`: the module is always ready once loaded. */
  function IsReady(): (ready: bool)
    ensures ready
  {
    true
  }

  datatype Engine = CsvEngine | XmlEngine | FinEngine

  /** The `match` of `parse`: "iso20022" and "fin" pick their engines, every other tag CSV. */
  function Route(parserType: string): Engine {
    match parserType
    case "csv" => CsvEngine
    case "iso20022" => XmlEngine
    case "fin" => FinEngine
    case _ => CsvEngine
  }

  /** Exactly two tags leave the CSV engine, each for its own engine. */
  lemma RouteSpec(parserType: string)
    ensures Route(parserType) == XmlEngine <==> parserType == "iso20022"
    ensures Route(parserType) == FinEngine <==> parserType == "fin"
    ensures Route(parserType) == CsvEngine <==> parserType != "iso20022" && parserType != "fin"
  {
  }

  /**
    The tag `detect_parser_type` reports for a text routes that text to the engine of
    the detected format; "fixed-width" and "custom", which have no engine, go to CSV.
  */
  lemma DetectedTypeRoutes(data: string)
    ensures var k := Utils.DetectType(data);
      Route(k.Name()) == (match k case Iso20022 => XmlEngine case Fin => FinEngine case _ => CsvEngine)
  {
    var k := Utils.DetectType(data);
    match k {
      case Iso20022 =>
      case Fin =>
      case Csv =>
      case FixedWidth => assert k.Name()[0] == 'f' && k.Name()[1] == 'i' && k.Name()[2] == 'x';
      case Custom => assert k.Name()[0] == 'c' && k.Name()[1] == 'u';
    }
  }

  /** The text of a deserialisation failure. */
  function InvalidConfig(reason: string): string {
    "Invalid config: " + reason
  }

  /** What the routed engine makes of the input. */
  function EngineResult(engine: Engine, data: string, c: ParserConfig, read: CsvParser.CsvReader,
                        events: seq<XmlParser.Read>, elapsed: real): Result<ParsedData, ParseError> {
    match engine
    case CsvEngine => Ok(CsvParser.CsvData(data, CsvParser.ReadRows(read, data, c), c, elapsed))
    case FinEngine => Ok(FinParser.FinData(data, c, elapsed))
    case XmlEngine => XmlParser.XmlData(events, c, Utils.CalculateSize(data), elapsed)
  }

  /** An engine's error reaches the caller as its message. */
  function Reported(r: Result<ParsedData, ParseError>): Result<ParsedData, string> {
    match r
    case Ok(d) => Ok(d)
    case Err(e) => Err(e.Message())
  }

  /** What `parse` returns: the dataset, or the message of the error. */
  function ParseResult(data: string, config: Result<ConfigObject, string>, read: CsvParser.CsvReader,
                       events: seq<XmlParser.Read>, elapsed: real): Result<ParsedData, string> {
    match config
    case Err(reason) => Err(InvalidConfig(reason))
    case Ok(o) =>
      var c := Deserialize(o);
      Reported(EngineResult(Route(c.parserType), data, c, read, events, elapsed))
  }

  /**
    `parse`: a configuration that does not deserialise is reported before any engine
    runs; otherwise the routed engine runs on the input, and its error, if any, is
    passed on as its message, never with partial data.
  */
  method Parse(data: string, config: Result<ConfigObject, string>, read: CsvParser.CsvReader,
               events: seq<XmlParser.Read>, elapsed: real)
    returns (result: Result<ParsedData, string>)
    ensures result == ParseResult(data, config, read, events, elapsed)
  {
    if config.Err? {
      return Err(InvalidConfig(config.error));
    }
    var c := Deserialize(config.value);
    var parsed: Result<ParsedData, ParseError>;
    match Route(c.parserType) {
      case CsvEngine => parsed := CsvParser.ParseCsv(data, read, c, elapsed);
      case XmlEngine => parsed := XmlParser.ParseXml(data, events, c, elapsed);
      case FinEngine => parsed := FinParser.ParseFin(data, c, elapsed);
    }
    match parsed {
      case Ok(d) => result := Ok(d);
      case Err(e) => result := Err(e.Message());
    }
  }

  /**
    In the model only two things make `parse` fail: a configuration that does not
    deserialise, and a reader error in an ISO 20022 input; the CSV and FIN engines give
    a dataset, and the dataset carries the configuration it was read with. The FIN
    engine modelled here is the one with the corrected block-1 guard and the intended
    block-4 field pattern: the program as written panics instead of returning, on a
    basic header of 16 to 18 characters and on every message with a block 4.
  */
  lemma ParseFailures(data: string, config: Result<ConfigObject, string>, read: CsvParser.CsvReader,
                      events: seq<XmlParser.Read>, elapsed: real)
    ensures var r := ParseResult(data, config, read, events, elapsed);
      r.Err? <==> config.Err?
                  || (Route(config.value.parserType) == XmlEngine
                      && XmlParser.XmlData(events, Deserialize(config.value), Utils.CalculateSize(data), elapsed).Err?)
    ensures var r := ParseResult(data, config, read, events, elapsed);
      config.Ok? && r.Ok? ==> r.value.config == Deserialize(config.value)
    ensures config.Err? ==> ParseResult(data, config, read, events, elapsed) == Err(InvalidConfig(config.error))
  {
  }

  /**
    An engine error reaches the caller as the engine's own `Display` text, so the
    message alone tells which engine failed and why.
  */
  lemma XmlErrorMessage(data: string, o: ConfigObject, read: CsvParser.CsvReader, events: seq<XmlParser.Read>, elapsed: real)
    requires Route(o.parserType) == XmlEngine
    requires XmlParser.XmlData(events, Deserialize(o), Utils.CalculateSize(data), elapsed).Err?
    ensures var r := ParseResult(data, Ok(o), read, events, elapsed);
      r.Err? && r.error[..13] == "Invalid XML: "
  {
    XmlParser.XmlDataFails(events, Deserialize(o), Utils.CalculateSize(data), elapsed);
  }
}
