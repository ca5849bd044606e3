# CCD/CDA XML schema validator — Dafny model

This project models the reporting logic of `ccd_xsd_validator.py`. That tool
checks clinical document (CCD/CDA) XML files against an XSD schema and
reports the outcome as text, JSON or HTML.

The schema check itself belongs to the lxml library. Here it is an abstract
`Outcome` per document. The outcome says one of four things:

- opening the file raised an exception: a FileNotFoundError, or another one with its text;
- the parser reported a syntax error, with an optional line;
- the parser raised another exception;
- the document parsed, and the schema passed it, failed it with an ordered error log, or raised.

The model covers everything the program does with those outcomes:

- building the result record (`valid`, `well_formed`, `errors`, `timestamp`);
- driving a list of files;
- classifying each file for the progress line;
- counting valid and invalid results;
- rendering the three report formats;
- choosing the input and the exit status on the command line.

Modules, one per component:

- `Results` (results.dfy): error kinds, error records, result records, engine outcomes.
- `Validation` (validation.dfy): the record a document yields (`FileResult`), and the
  `CCDValidator` class. `CCDValidator.ValidateFile` builds the record step by step.
  `CCDValidator.ValidateDirectory` loops over the enumerated files.
- `Summaries` (summaries.dfy): valid/invalid counts, the summary, the exit status.
- `TextReport` (text_report.dfy): the text report, built by nested loops.
- `HtmlReport` (html_report.dfy): the HTML report, built by appending fragments.
- `Reports` (reports.dfy): the format dispatch, the JSON report, and facts shared by the formats.
- `Cli` (cli.dfy): the command-line run.
- `Strings` (strings.dfy): decimal rendering, joining, flattening.

The text report is a sequence of line values (`TextLine`), and `LineText`
gives each line's exact text. The HTML report is a sequence of fragments
(`HtmlPiece`), and `PieceText` gives each fragment's exact text. The report
strings are these texts joined by newlines (text) or concatenated (HTML).
This equals what the source builds with `lines.append` and `html +=`.

Where descriptions of the tool and its code disagree, the model follows the code:

- A result that is not well-formed need not hold an XML_SYNTAX_ERROR. An
  exception raised while opening or parsing the file also leaves
  `well_formed` false. The result then holds exactly one FILE_NOT_FOUND or
  UNEXPECTED_ERROR record (`FileResult`, `FailureResult`).
- "errors is empty iff valid" holds in one direction only. A schema failure
  with an empty error log gives no records, yet `valid` is false
  (`SchemaErrorsComeFromLog`).
- An exception raised by the schema check leaves `well_formed` true, since
  the flag is set right after parsing. It records one FILE_NOT_FOUND or
  UNEXPECTED_ERROR record (`FailureResult`), and the progress line reports
  INVALID (1 errors) (`ClassifyOutcome`).
- `--file` and `--dir` are not exclusive: when both are given, `--file` wins.
  An empty option value counts as absent (`Cli.Run`).
- A schema that cannot be loaded exits with status 1, the same status as a
  run with an invalid document. There is no distinct early-exit status
  (`Cli.ExitCode`).
- No text is escaped in the HTML report.

## Model

| member | source | states |
|---|---|---|
| `Validation.FailureRecord` | ccd_xsd_validator.py:85-94 | a caught FileNotFoundError gives a FILE_NOT_FOUND record, any other exception an UNEXPECTED_ERROR record, and nothing else |
| `Validation.SchemaRecords` | ccd_xsd_validator.py:75-83 | one SCHEMA_VALIDATION_ERROR record per error-log entry, in log order, carrying its message, line, column, domain and level |
| `Validation.FileResult` | ccd_xsd_validator.py:48-96 | on every path: valid implies well-formed with no errors; not well-formed implies not valid and exactly one error; valid iff the document parsed and the schema passed it; well-formed iff it parsed |
| `Validation.SyntaxErrorResult` | ccd_xsd_validator.py:59-68 | a syntax error gives exactly one XML_SYNTAX_ERROR record with the parser's message and line, not well-formed and not valid |
| `Validation.SchemaErrorsComeFromLog` | ccd_xsd_validator.py:70-83 | a SCHEMA_VALIDATION_ERROR appears only when the schema rejected the document; then the result is well-formed and invalid with one record per log entry in log order, so an empty log leaves no errors |
| `Validation.FailureResult` | ccd_xsd_validator.py:85-94 | a missing file gives one FILE_NOT_FOUND record whose message is "File not found: " + path; any other exception gives one UNEXPECTED_ERROR record with its text; valid stays false |
| `Validation.ClassifyOutcome` | ccd_xsd_validator.py:126-131 | the progress status is VALID for a schema pass, INVALID(n) with n the log length for a schema failure, INVALID(1) when the schema check raised, and NOT WELL-FORMED otherwise |
| `Validation.CCDValidator.constructor` | ccd_xsd_validator.py:16-25 | the validator keeps the loaded schema (the engine) it was built with |
| `Validation.CCDValidator.ValidateFile` | ccd_xsd_validator.py:38-96 | the record built step by step (start invalid and not well-formed, mark well-formed after the parse, append errors in a loop over the log) equals `FileResult` |
| `Validation.CCDValidator.ValidateDirectory` | ccd_xsd_validator.py:109-135 | one record per enumerated file, in enumeration order, each equal to the file's own result, with the status printed for it; an empty list gives no records |
| `Summaries.CountValid` | ccd_xsd_validator.py:171 | the valid count is at most the number of results, and equals it iff every result is valid |
| `Summaries.CountInvalid` | ccd_xsd_validator.py:207 | the invalid count is zero iff every result is valid |
| `Summaries.CountsPartition` | ccd_xsd_validator.py:205-207 | valid count plus invalid count is the number of results |
| `Summaries.SummaryOf` | ccd_xsd_validator.py:171-172 | the text/HTML summary: total is the number of results, valid + invalid == total, and invalid is zero iff all are valid |
| `Summaries.JsonSummaryOf` | ccd_xsd_validator.py:204-208 | the JSON summary, which counts invalid results directly, equals the text/HTML summary |
| `Summaries.ExitStatus` | ccd_xsd_validator.py:324-326 | the status is 0 or 1; it is 0 iff the summary counts no invalid result, so an empty result list exits normally |
| `TextReport.RenderLines` | ccd_xsd_validator.py:162-198 | the lines appended by the header code and the nested loops equal the report's specification: header, then one section per result in order |
| `TextReport.RenderHeader` | ccd_xsd_validator.py:164-177 | the header lines, with the counts computed as the source does, are the header of the summary |
| `TextReport.AppendSection` | ccd_xsd_validator.py:179-196 | one result's section: file, rule, status, and for an invalid result the error lines numbered from 1 |
| `TextReport.AppendError` | ccd_xsd_validator.py:189-196 | one error's lines: number, type, message, and Line and Column lines each only when truthy |
| `TextReport.ErrorsListedOnlyWhenInvalid` | ccd_xsd_validator.py:183-187 | a section has an "Errors:" heading iff its result is not valid, even with no errors |
| `TextReport.ErrorNumbering` | ccd_xsd_validator.py:189-192 | the error at index j is headed "Error #(j+1)" and its lines follow those of the earlier errors |
| `TextReport.SummaryLines` | ccd_xsd_validator.py:169-175 | the header shows the number of results, of valid results and of invalid results |
| `HtmlReport.LocationOf` | ccd_xsd_validator.py:259-264 | no location iff the line is not truthy; a column is shown iff line and column are both truthy, so never without a line |
| `HtmlReport.LocationText` | ccd_xsd_validator.py:259-264 | the location suffix is empty iff there is no location |
| `HtmlReport.LocationSuffix` | ccd_xsd_validator.py:259-264 | the suffix built step by step is " (Line L)" or " (Line L, Column C)" as the location says, and empty without one |
| `HtmlReport.ErrorDivs` | ccd_xsd_validator.py:258-271 | one error block per error, the one at index j numbered j + 1 |
| `HtmlReport.ErrorSection` | ccd_xsd_validator.py:256-271 | a file block has an error list iff the result has errors; the list is the heading followed by the error blocks |
| `HtmlReport.ErrorListOnlyWithErrors` | ccd_xsd_validator.py:256-257 | the "Errors:" heading appears in a file block iff the result has errors, whether or not it is valid |
| `HtmlReport.SummaryBlock` | ccd_xsd_validator.py:215-241 | the document opens with the summary block giving the number of results, of valid results and of invalid results |
| `HtmlReport.RenderHtml` | ccd_xsd_validator.py:213-279 | the fragments appended by the loop equal the document's specification: summary block, one block per result, closing tags |
| `HtmlReport.AppendFileBlock` | ccd_xsd_validator.py:244-273 | one result's block: opening with class, status and path, the error list when there are errors, closing tag |
| `HtmlReport.AppendErrorDivs` | ccd_xsd_validator.py:258-271 | the inner loop appends the error blocks numbered from 1, each with its location suffix |
| `Reports.FormatOf` | ccd_xsd_validator.py:146-151 | "json" selects JSON, "html" selects HTML, and every other name falls back to text |
| `Reports.JsonReportOf` | ccd_xsd_validator.py:200-211 | the JSON report carries the generation time, every result unchanged, and the same summary as the other formats, with valid + invalid == total |
| `Reports.GenerateReport` | ccd_xsd_validator.py:137-160 | the report is in the selected format, built by the matching renderer |
| `Reports.SummaryInEveryFormat` | ccd_xsd_validator.py:169-216 | the text header, the HTML summary and the JSON summary all show the same total, valid and invalid counts, and these add up |
| `Reports.ColumnWithoutLine` | ccd_xsd_validator.py:189-264 | with a truthy column but no truthy line, the text report still prints the Column line while the HTML report shows no location |
| `Cli.Run` | ccd_xsd_validator.py:309-326 | neither input given is a usage error before the schema is loaded; --file wins over --dir; the report has the requested format; the exit status is 2 for a usage error, 1 for a failed schema load, and otherwise 0 iff every result is valid |
| `Cli.ExitCode` | ccd_xsd_validator.py:309-326 | the process status is 2 iff the options name neither a file nor a directory (`parser.error`), 0 iff the run finished with every document valid, and 1 iff the schema failed to load (`sys.exit(1)` in `load_schema`, line 35) or some document is not valid |
| `Cli.ExitScenarios` | ccd_xsd_validator.py:324-326 | a missing single file exits with 1; an empty result list exits with 0 |

## Left out

- XML parsing, XSD compilation and `schema.validate` belong to lxml. They appear only as the `Outcome` of a path and the error-log entries.
- `load_schema` (opening and compiling the schema, its status line, `sys.exit(1)` on failure) is the `schemaLoads` flag of `Cli.Run`. The `--xsd` path is carried in `Invocation` but not used.
- An exception raised partway through reading the error log is not modelled. The source would keep the records appended so far and add an UNEXPECTED_ERROR.
- Enumerating a directory (`glob('*.xml')` or `glob('**/*.xml')`) is filesystem I/O. It is the `enumerate` parameter, so the recursive/non-recursive file sets are not modelled.
- Console output is not modelled: progress lines, the "No XML files found" and "Validating N file(s)" notices, printing or writing the report file. Only the per-file status classification is kept.
- `datetime.now()` readings are opaque strings: `clock(i)` for the i-th file, `now` for a report.
- JSON serialisation (`json.dumps` with indentation) is not modelled. The JSON report is a record. Which optional keys each error kind writes is not modelled: a key the kind does not write is `None` here, and `null` for a key that is written is not told apart.
- `Path(...).name` is the `nameOf` parameter.
- Argument parsing is an `Invocation` record. argparse's restriction of `--format` to three names and its usage message are argparse behaviour; only the status 2 of `parser.error` is kept (`Cli.ExitCode`).
