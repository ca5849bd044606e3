/** The command line: choosing the input, running the validator, rendering
    the report and choosing the exit status. */
module Cli {
  import opened Results
  import opened Validation
  import opened Summaries
  import opened Reports

  /** The parsed options. */
  datatype Invocation = Invocation(
    xsd: string,
    file: Option<string>,
    dir: Option<string>,
    recursive: bool,
    format: string,
    output: Option<string>)

  /** An option counts as given when it is present and not empty. */
  predicate Given(o: Option<string>) {
    o.Some? && o.value != ""
  }

  datatype RunOutcome =
    | UsageError
    | SchemaLoadFailed
    | Finished(results: seq<ValidationResult>, report: Report)

  /** The process status: the argument parser exits with 2 on a usage error,
      a schema that cannot be loaded exits with 1, and a finished run exits
      with 1 exactly when some document is not valid. */
  function ExitCode(o: RunOutcome): (c: int)
    ensures c == 2 <==> o.UsageError?
    ensures c == 0 <==> o.Finished? && forall i :: 0 <= i < |o.results| ==> o.results[i].valid
    ensures c == 1 <==>
      o.SchemaLoadFailed? || (o.Finished? && exists i :: 0 <= i < |o.results| && !o.results[i].valid)
  {
    match o
    case UsageError => 2
    case SchemaLoadFailed => 1
    case Finished(results, _) => ExitStatus(results)
  }

  /** One run. `schemaLoads` says whether the schema could be loaded,
      `engine` gives each document's outcome, `enumerate` lists the XML files
      of a directory (recursively or not), `clock(i)` is the time read while
      validating the i-th file, `now` the report's generation time and
      `nameOf` the last component of a path. */
  method Run(inv: Invocation, schemaLoads: bool, engine: string -> Outcome,
             enumerate: (string, bool) -> seq<string>, clock: nat -> string,
             now: string, nameOf: string -> string)
    returns (out: RunOutcome)
    ensures out.UsageError? <==> !Given(inv.file) && !Given(inv.dir)
    ensures out.SchemaLoadFailed? <==> (Given(inv.file) || Given(inv.dir)) && !schemaLoads
    ensures out.Finished? && Given(inv.file) ==>
      out.results == [FileResult(inv.file.value, clock(0), engine(inv.file.value))]
    ensures out.Finished? && !Given(inv.file) ==>
      var files := enumerate(inv.dir.value, inv.recursive);
      && |out.results| == |files|
      && forall i :: 0 <= i < |files| ==> out.results[i] == FileResult(files[i], clock(i), engine(files[i]))
    ensures out.Finished? ==> out.report == ReportOf(out.results, inv.format, now, nameOf)
    ensures out.UsageError? ==> ExitCode(out) == 2
    ensures out.SchemaLoadFailed? ==> ExitCode(out) == 1
    ensures out.Finished? ==> (ExitCode(out) == 0 || ExitCode(out) == 1)
    ensures ExitCode(out) == 0 <==>
      out.Finished? && forall i :: 0 <= i < |out.results| ==> out.results[i].valid
  {
    if !Given(inv.file) && !Given(inv.dir) {
      return UsageError;
    }
    if !schemaLoads {
      return SchemaLoadFailed;
    }
    var validator := new CCDValidator(engine);
    var results;
    if Given(inv.file) {
      var r := validator.ValidateFile(inv.file.value, clock(0));
      results := [r];
    } else {
      var files := enumerate(inv.dir.value, inv.recursive);
      var progress;
      results, progress := validator.ValidateDirectory(files, clock);
    }
    var report := GenerateReport(results, inv.format, now, nameOf);
    out := Finished(results, report);
  }

  /** A missing file fails the run; an empty directory passes it. */
  lemma ExitScenarios(path: string, stamp: string)
    ensures ExitStatus([FileResult(path, stamp, OpenRaised(NotFound))]) == 1
    ensures ExitStatus([]) == 0
  {
  }
}
