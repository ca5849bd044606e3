/** Building one result record per document, and the directory driver. */
module Validation {
  import opened Results

  /** The record for an exception caught by `validate_file`: a
      FileNotFoundError names the path, any other exception gives its text. */
  function FailureRecord(path: string, f: Failure): (e: ErrorRecord)
    ensures e.kind == FileNotFound <==> f == NotFound
    ensures e.kind == FileNotFound || e.kind == UnexpectedError
  {
    match f
    case NotFound => ErrorRecord(FileNotFound, "File not found: " + path, None, None, None, None)
    case Raised(d) => ErrorRecord(UnexpectedError, d, None, None, None, None)
  }

  function SyntaxRecord(message: string, line: Option<int>): ErrorRecord {
    ErrorRecord(XmlSyntaxError, message, line, None, None, None)
  }

  function SchemaRecord(entry: LogEntry): ErrorRecord {
    ErrorRecord(SchemaValidationError, entry.message, Some(entry.line), Some(entry.column),
                Some(entry.domain), Some(entry.level))
  }

  /** One schema-validation record per log entry, in log order. */
  function SchemaRecords(log: seq<LogEntry>): (rs: seq<ErrorRecord>)
    ensures |rs| == |log|
    ensures forall i :: 0 <= i < |log| ==> rs[i] == SchemaRecord(log[i])
  {
    if log == [] then [] else SchemaRecords(log[..|log| - 1]) + [SchemaRecord(log[|log| - 1])]
  }

  /** The record `validate_file` returns for `path` when the document's
      outcome is `outcome` and the clock reads `stamp`. */
  function FileResult(path: string, stamp: string, outcome: Outcome): (r: ValidationResult)
    ensures r.file == path && r.timestamp == stamp
    ensures r.valid ==> r.wellFormed && r.errors == []
    ensures !r.wellFormed ==> !r.valid && |r.errors| == 1
    ensures r.valid <==> outcome == Parsed(SchemaPass)
    ensures r.wellFormed <==> outcome.Parsed?
  {
    match outcome
    case OpenRaised(f) => ValidationResult(path, false, false, [FailureRecord(path, f)], stamp)
    case SyntaxError(m, line) => ValidationResult(path, false, false, [SyntaxRecord(m, line)], stamp)
    case ParseRaised(f) => ValidationResult(path, false, false, [FailureRecord(path, f)], stamp)
    case Parsed(SchemaPass) => ValidationResult(path, true, true, [], stamp)
    case Parsed(SchemaFail(log)) => ValidationResult(path, false, true, SchemaRecords(log), stamp)
    case Parsed(SchemaRaised(f)) => ValidationResult(path, false, true, [FailureRecord(path, f)], stamp)
  }

  /** A syntax error yields exactly one XML_SYNTAX_ERROR record, carrying the
      parser's message and line, and the schema is never consulted. */
  lemma SyntaxErrorResult(path: string, stamp: string, message: string, line: Option<int>)
    ensures var r := FileResult(path, stamp, SyntaxError(message, line));
      && !r.wellFormed && !r.valid
      && r.errors == [ErrorRecord(XmlSyntaxError, message, line, None, None, None)]
  {
  }

  /** Schema-validation records appear exactly when the schema rejected the
      document, one per log entry and in log order; an empty log leaves no
      record at all, yet the document is still not valid. */
  lemma SchemaErrorsComeFromLog(path: string, stamp: string, outcome: Outcome)
    ensures var r := FileResult(path, stamp, outcome);
      (exists i :: 0 <= i < |r.errors| && r.errors[i].kind == SchemaValidationError)
        ==> outcome.Parsed? && outcome.schema.SchemaFail?
    ensures outcome.Parsed? && outcome.schema.SchemaFail? ==>
      var r := FileResult(path, stamp, outcome);
      && r.wellFormed && !r.valid
      && |r.errors| == |outcome.schema.log|
      && forall i :: 0 <= i < |r.errors| ==>
           r.errors[i].kind == SchemaValidationError
           && r.errors[i].message == outcome.schema.log[i].message
           && r.errors[i].line == Some(outcome.schema.log[i].line)
           && r.errors[i].column == Some(outcome.schema.log[i].column)
  {
  }

  /** A missing file yields one FILE_NOT_FOUND record naming the path; any
      other exception yields one UNEXPECTED_ERROR record with its text. */
  lemma FailureResult(path: string, stamp: string, outcome: Outcome, f: Failure)
    requires outcome == OpenRaised(f) || outcome == ParseRaised(f) || outcome == Parsed(SchemaRaised(f))
    ensures var r := FileResult(path, stamp, outcome);
      && !r.valid && |r.errors| == 1
      && (f == NotFound ==> r.errors[0].kind == FileNotFound && r.errors[0].message == "File not found: " + path)
      && (f.Raised? ==> r.errors[0].kind == UnexpectedError && r.errors[0].message == f.description)
  {
  }

  /** The status printed for each file of a directory run. */
  datatype FileStatus = ValidStatus | InvalidStatus(errorCount: nat) | NotWellFormedStatus

  function Classify(r: ValidationResult): FileStatus {
    if r.valid then ValidStatus
    else if r.wellFormed then InvalidStatus(|r.errors|)
    else NotWellFormedStatus
  }

  /** The printed status, in terms of the document's outcome. */
  lemma ClassifyOutcome(path: string, stamp: string, outcome: Outcome)
    ensures Classify(FileResult(path, stamp, outcome)) ==
      match outcome
      case Parsed(SchemaPass) => ValidStatus
      case Parsed(SchemaFail(log)) => InvalidStatus(|log|)
      case Parsed(SchemaRaised(_)) => InvalidStatus(1)
      case _ => NotWellFormedStatus
  {
  }

  /** The validator. `engine` stands for the compiled schema together with
      the filesystem: it gives the outcome of opening, parsing and checking
      a path. */
  class CCDValidator {
    const engine: string -> Outcome

    constructor (engine: string -> Outcome)
      ensures this.engine == engine
    {
      this.engine := engine;
    }

    /** Builds the record step by step: start invalid and not well-formed,
        mark well-formed once parsed, then valid or one record per log entry. */
    method ValidateFile(path: string, stamp: string) returns (r: ValidationResult)
      ensures r == FileResult(path, stamp, engine(path))
    {
      var valid, wellFormed, errors := false, false, [];
      match engine(path) {
      case OpenRaised(f) =>
        errors := errors + [FailureRecord(path, f)];
      case SyntaxError(m, line) =>
        errors := errors + [SyntaxRecord(m, line)];
        r := ValidationResult(path, valid, wellFormed, errors, stamp);
        return;
      case ParseRaised(f) =>
        errors := errors + [FailureRecord(path, f)];
      case Parsed(schema) =>
        wellFormed := true;
        match schema {
        case SchemaPass =>
          valid := true;
        case SchemaFail(log) =>
          var i := 0;
          while i < |log|
            invariant 0 <= i <= |log|
            invariant errors == SchemaRecords(log[..i])
          {
            assert log[..i + 1][..i] == log[..i];
            errors := errors + [SchemaRecord(log[i])];
            i := i + 1;
          }
          assert log[..i] == log;
        case SchemaRaised(f) =>
          errors := errors + [FailureRecord(path, f)];
        }
      }
      r := ValidationResult(path, valid, wellFormed, errors, stamp);
    }

    /** Validates the enumerated files in order. `clock(i)` is the time read
        while validating the i-th file; `progress` holds the status printed
        for each file. */
    method ValidateDirectory(files: seq<string>, clock: nat -> string)
      returns (results: seq<ValidationResult>, progress: seq<FileStatus>)
      ensures |results| == |files| && |progress| == |files|
      ensures forall i :: 0 <= i < |files| ==>
        results[i] == FileResult(files[i], clock(i), engine(files[i]))
      ensures forall i :: 0 <= i < |files| ==> progress[i] == Classify(results[i])
    {
      results, progress := [], [];
      if files == [] {
        return;
      }
      for k := 0 to |files|
        invariant |results| == k && |progress| == k
        invariant forall i :: 0 <= i < k ==>
          results[i] == FileResult(files[i], clock(i), engine(files[i]))
        invariant forall i :: 0 <= i < k ==> progress[i] == Classify(results[i])
      {
        var r := ValidateFile(files[k], clock(k));
        progress := progress + [Classify(r)];
        results := results + [r];
      }
    }
  }
}
