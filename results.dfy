/** The records the validator produces, and the abstract outcome of asking
    the filesystem and the XML engine about one document. */
module Results {

  datatype Option<+T> = None | Some(value: T)

  /** The closed set of error kinds a record can carry. */
  datatype ErrorKind = XmlSyntaxError | SchemaValidationError | FileNotFound | UnexpectedError

  /** The `type` string written into reports. */
  function KindName(k: ErrorKind): string {
    match k
    case XmlSyntaxError => "XML_SYNTAX_ERROR"
    case SchemaValidationError => "SCHEMA_VALIDATION_ERROR"
    case FileNotFound => "FILE_NOT_FOUND"
    case UnexpectedError => "UNEXPECTED_ERROR"
  }

  /** One detected problem. A field that the producing branch does not set
      (column, domain and level for a syntax error; everything but type and
      message for a missing file or an unexpected failure) is None. */
  datatype ErrorRecord = ErrorRecord(
    kind: ErrorKind,
    message: string,
    line: Option<int>,
    column: Option<int>,
    domain: Option<string>,
    level: Option<string>)

  /** The result record built for one document. */
  datatype ValidationResult = ValidationResult(
    file: string,
    valid: bool,
    wellFormed: bool,
    errors: seq<ErrorRecord>,
    timestamp: string)

  /** Python truthiness of an optional integer field (`error.get('line')`):
      present, not None and not zero. */
  predicate Truthy(x: Option<int>) {
    x.Some? && x.value != 0
  }

  /** An exception: a FileNotFoundError, or any other one with its `str(e)`. */
  datatype Failure = NotFound | Raised(description: string)

  /** One entry of the schema engine's error log. */
  datatype LogEntry = LogEntry(message: string, line: int, column: int, domain: string, level: string)

  /** What the compiled schema says about a parsed document. */
  datatype SchemaOutcome =
    | SchemaPass
    | SchemaFail(log: seq<LogEntry>)
    | SchemaRaised(failure: Failure)

  /** What opening, parsing and checking one path gives: the open call
      raises, the parser reports a syntax error (with its line number, if
      any), the parser raises something else, or the document parses and
      the schema is consulted. */
  datatype Outcome =
    | OpenRaised(failure: Failure)
    | SyntaxError(message: string, line: Option<int>)
    | ParseRaised(failure: Failure)
    | Parsed(schema: SchemaOutcome)
}
