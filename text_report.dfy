/** The plain-text report: a bordered summary header, then one section per
    result listing its numbered errors when it is not valid. The report is
    kept as a sequence of line values; `LineText` gives each line's text and
    `TextReportOf` joins them with newlines. */
module TextReport {
  import opened Results
  import opened Strings
  import opened Summaries

  datatype TextLine =
    | Border(c: char)
    | Title
    | Generated(now: string)
    | Total(count: nat)
    | ValidCount(count: nat)
    | InvalidCount(count: nat)
    | Blank
    | FileName(file: string)
    | StatusValid
    | StatusInvalid(errorCount: nat)
    | ErrorsHeading
    | ErrorHeading(number: nat)
    | TypeOf(kind: ErrorKind)
    | MessageOf(message: string)
    | LineOf(line: int)
    | ColumnOf(column: int)

  /** The exact text of each line. */
  function LineText(l: TextLine): string {
    match l
    case Border(c) => Rule(c)
    case Title => "CCD VALIDATION REPORT"
    case Generated(now) => "Generated: " + now
    case Total(n) => "Total files validated: " + NatStr(n)
    case ValidCount(n) => "Valid: " + NatStr(n)
    case InvalidCount(n) => "Invalid: " + NatStr(n)
    case Blank => ""
    case FileName(file) => "\nFile: " + file
    case StatusValid => "Status: \U{2713} VALID"
    case StatusInvalid(n) => "Status: \U{2717} INVALID (" + NatStr(n) + " errors)"
    case ErrorsHeading => "\nErrors:"
    case ErrorHeading(number) => "\n  Error #" + NatStr(number) + ":"
    case TypeOf(k) => "    Type: " + KindName(k)
    case MessageOf(m) => "    Message: " + m
    case LineOf(line) => "    Line: " + IntStr(line)
    case ColumnOf(column) => "    Column: " + IntStr(column)
  }

  function Header(now: string, s: Summary): seq<TextLine> {
    [ Border('='), Title, Border('='), Generated(now),
      Total(s.total), ValidCount(s.valid), InvalidCount(s.invalid),
      Border('='), Blank ]
  }

  /** The lines for the error numbered `number`; Line and Column are each
      printed on their own, only when truthy. */
  function ErrorLines(number: nat, e: ErrorRecord): seq<TextLine> {
    [ErrorHeading(number), TypeOf(e.kind), MessageOf(e.message)]
    + (if Truthy(e.line) then [LineOf(e.line.value)] else [])
    + (if Truthy(e.column) then [ColumnOf(e.column.value)] else [])
  }

  /** The error lines of a result; the last error is numbered |errs|. */
  function ErrorBlocks(errs: seq<ErrorRecord>): seq<TextLine> {
    if errs == [] then []
    else ErrorBlocks(errs[..|errs| - 1]) + ErrorLines(|errs|, errs[|errs| - 1])
  }

  function StatusLines(r: ValidationResult): seq<TextLine> {
    if r.valid then [StatusValid] else [StatusInvalid(|r.errors|), ErrorsHeading]
  }

  function Section(r: ValidationResult): seq<TextLine> {
    [FileName(r.file), Border('-')] + StatusLines(r)
    + (if r.valid then [] else ErrorBlocks(r.errors))
  }

  /** A text section lists errors exactly when the result is not valid,
      even when it has none. */
  lemma ErrorsListedOnlyWhenInvalid(r: ValidationResult)
    ensures ErrorsHeading in Section(r) <==> !r.valid
  {
    if r.valid {
      assert Section(r) == [FileName(r.file), Border('-'), StatusValid];
    } else {
      assert Section(r)[3] == ErrorsHeading;
    }
  }

  function Sections(rs: seq<ValidationResult>): seq<TextLine> {
    if rs == [] then [] else Sections(rs[..|rs| - 1]) + Section(rs[|rs| - 1])
  }

  /** The report's lines; `now` is the formatted generation time. */
  function TextLines(rs: seq<ValidationResult>, now: string): seq<TextLine> {
    Header(now, SummaryOf(rs)) + Sections(rs)
  }

  function Texts(ls: seq<TextLine>): seq<string> {
    if ls == [] then [] else Texts(ls[..|ls| - 1]) + [LineText(ls[|ls| - 1])]
  }

  /** The report as one string: the lines' texts joined by newlines. */
  function TextReportOf(rs: seq<ValidationResult>, now: string): string {
    Join(Texts(TextLines(rs, now)), "\n")
  }

  lemma SectionsSnoc(rs: seq<ValidationResult>, k: nat)
    requires k < |rs|
    ensures Sections(rs[..k + 1]) == Sections(rs[..k]) + Section(rs[k])
  {
    assert rs[..k + 1][..k] == rs[..k];
  }

  lemma ErrorBlocksSnoc(errs: seq<ErrorRecord>, k: nat)
    requires k < |errs|
    ensures ErrorBlocks(errs[..k + 1]) == ErrorBlocks(errs[..k]) + ErrorLines(k + 1, errs[k])
  {
    assert errs[..k + 1][..k] == errs[..k];
  }

  /** Builds the lines by appending, as the nested loops of the source do. */
  method RenderLines(results: seq<ValidationResult>, now: string) returns (lines: seq<TextLine>)
    ensures lines == TextLines(results, now)
  {
    lines := RenderHeader(results, now);
    ghost var header := lines;
    for k := 0 to |results|
      invariant lines == header + Sections(results[..k])
    {
      SectionsSnoc(results, k);
      AppendAssoc(header, Sections(results[..k]), Section(results[k]));
      lines := AppendSection(lines, results[k]);
    }
    assert results[..|results|] == results;
  }

  /** The header block, with the counts computed as the source does. */
  method RenderHeader(results: seq<ValidationResult>, now: string) returns (lines: seq<TextLine>)
    ensures lines == Header(now, SummaryOf(results))
  {
    var validCount := CountValid(results);
    var invalidCount := |results| - validCount;
    lines := [];
    lines := lines + [Border('=')];
    lines := lines + [Title];
    lines := lines + [Border('=')];
    lines := lines + [Generated(now)];
    lines := lines + [Total(|results|)];
    lines := lines + [ValidCount(validCount)];
    lines := lines + [InvalidCount(invalidCount)];
    lines := lines + [Border('=')];
    lines := lines + [Blank];
  }

  /** The section of one result, with the inner loop over its errors. */
  method AppendSection(lines: seq<TextLine>, r: ValidationResult) returns (out: seq<TextLine>)
    ensures out == lines + Section(r)
  {
    out := lines + [FileName(r.file)];
    out := out + [Border('-')];
    if r.valid {
      out := out + [StatusValid];
    } else {
      out := out + [StatusInvalid(|r.errors|)];
      out := out + [ErrorsHeading];
      ghost var top := out;
      var i := 1;
      while i <= |r.errors|
        invariant 1 <= i <= |r.errors| + 1
        invariant out == top + ErrorBlocks(r.errors[..i - 1])
      {
        ErrorBlocksSnoc(r.errors, i - 1);
        AppendAssoc(top, ErrorBlocks(r.errors[..i - 1]), ErrorLines(i, r.errors[i - 1]));
        out := AppendError(out, i, r.errors[i - 1]);
        i := i + 1;
      }
      assert r.errors[..i - 1] == r.errors;
    }
  }

  /** One pass of the inner loop: the lines of the error numbered `number`. */
  method AppendError(lines: seq<TextLine>, number: nat, e: ErrorRecord) returns (out: seq<TextLine>)
    ensures out == lines + ErrorLines(number, e)
  {
    out := lines + [ErrorHeading(number)];
    out := out + [TypeOf(e.kind)];
    out := out + [MessageOf(e.message)];
    if Truthy(e.line) {
      out := out + [LineOf(e.line.value)];
    }
    if Truthy(e.column) {
      out := out + [ColumnOf(e.column.value)];
    }
  }

  lemma {:induction false} ErrorBlocksPrefix(errs: seq<ErrorRecord>, k: nat)
    requires k <= |errs|
    ensures |ErrorBlocks(errs[..k])| <= |ErrorBlocks(errs)|
    ensures ErrorBlocks(errs)[..|ErrorBlocks(errs[..k])|] == ErrorBlocks(errs[..k])
  {
    if k == |errs| {
      assert errs[..k] == errs;
    } else {
      var init := errs[..|errs| - 1];
      assert init[..k] == errs[..k];
      ErrorBlocksPrefix(init, k);
    }
  }

  /** Errors are numbered from 1 in order: the lines of the error at index j
      come right after those of the errors before it, headed by number j + 1. */
  lemma ErrorNumbering(errs: seq<ErrorRecord>, j: nat)
    requires j < |errs|
    ensures var before := ErrorBlocks(errs[..j]);
      var mine := ErrorLines(j + 1, errs[j]);
      && |before| + |mine| <= |ErrorBlocks(errs)|
      && ErrorBlocks(errs)[..|before| + |mine|] == before + mine
      && ErrorBlocks(errs)[|before|] == ErrorHeading(j + 1)
  {
    ErrorBlocksSnoc(errs, j);
    ErrorBlocksPrefix(errs, j + 1);
  }

  /** The report's header gives the number of results, of valid results
      and of results that are not valid. */
  lemma SummaryLines(rs: seq<ValidationResult>, now: string)
    ensures TextLines(rs, now)[4] == Total(|rs|)
    ensures TextLines(rs, now)[5] == ValidCount(CountValid(rs))
    ensures TextLines(rs, now)[6] == InvalidCount(CountInvalid(rs))
  {
    CountsPartition(rs);
    var header := Header(now, SummaryOf(rs));
    IndexInPrefix(header, Sections(rs), 4);
    IndexInPrefix(header, Sections(rs), 5);
    IndexInPrefix(header, Sections(rs), 6);
  }
}
