/** Choosing the report format, the JSON report, and what the three formats
    have in common. */
module Reports {
  import opened Results
  import opened Strings
  import opened Summaries
  import opened TextReport
  import opened HtmlReport

  datatype Format = TextFormat | JsonFormat | HtmlFormat

  /** "json" and "html" select those formats; any other name falls back to
      text. */
  function FormatOf(name: string): (f: Format)
    ensures f == JsonFormat <==> name == "json"
    ensures f == HtmlFormat <==> name == "html"
    ensures f == TextFormat <==> name != "json" && name != "html"
  {
    if name == "json" then JsonFormat
    else if name == "html" then HtmlFormat
    else TextFormat
  }

  /** The JSON document, as a record: its serialisation is not modelled. */
  datatype JsonReport = JsonReport(generated: string, summary: Summary, results: seq<ValidationResult>)

  /** The JSON report carries every result unchanged and the same summary as
      the other formats, although it counts the invalid results directly. */
  function JsonReportOf(rs: seq<ValidationResult>, now: string): (doc: JsonReport)
    ensures doc.generated == now && doc.results == rs
    ensures doc.summary == SummaryOf(rs)
    ensures doc.summary.valid + doc.summary.invalid == doc.summary.total == |rs|
  {
    JsonReport(now, JsonSummaryOf(rs), rs)
  }

  datatype Report = TextOut(text: string) | JsonOut(doc: JsonReport) | HtmlOut(html: string)

  function ReportOf(rs: seq<ValidationResult>, format: string, now: string, nameOf: string -> string): Report {
    match FormatOf(format)
    case JsonFormat => JsonOut(JsonReportOf(rs, now))
    case HtmlFormat => HtmlOut(HtmlReportOf(rs, now, nameOf))
    case TextFormat => TextOut(TextReportOf(rs, now))
  }

  /** Renders the results in the requested format; writing the report to a
      file or to the console is not modelled. */
  method GenerateReport(results: seq<ValidationResult>, format: string, now: string, nameOf: string -> string)
    returns (report: Report)
    ensures report == ReportOf(results, format, now, nameOf)
    ensures report.JsonOut? <==> format == "json"
    ensures report.HtmlOut? <==> format == "html"
    ensures report.TextOut? <==> format != "json" && format != "html"
  {
    if format == "json" {
      report := JsonOut(JsonReportOf(results, now));
    } else if format == "html" {
      var pieces := RenderHtml(results, now, nameOf);
      report := HtmlOut(Flatten(PieceTexts(pieces)));
    } else {
      var lines := RenderLines(results, now);
      report := TextOut(Join(Texts(lines), "\n"));
    }
  }

  /** Every format shows the same counts, and valid plus invalid is the
      number of results: the text header, the HTML summary block and the
      JSON summary. */
  lemma SummaryInEveryFormat(rs: seq<ValidationResult>, now: string, nameOf: string -> string)
    ensures var s := Summary(|rs|, CountValid(rs), CountInvalid(rs));
      && s.valid + s.invalid == s.total
      && TextLines(rs, now)[4] == Total(s.total)
      && TextLines(rs, now)[5] == ValidCount(s.valid)
      && TextLines(rs, now)[6] == InvalidCount(s.invalid)
      && HtmlPieces(rs, now, nameOf)[0] == Preamble(now, s)
      && JsonReportOf(rs, now).summary == s
  {
    CountsPartition(rs);
    SummaryLines(rs, now);
    SummaryBlock(rs, now, nameOf);
  }

  /** The two renderers place an error differently: the text report prints
      a Column line even when the line is missing or zero, while the HTML
      report then shows no location at all. */
  lemma ColumnWithoutLine(number: nat, e: ErrorRecord)
    requires !Truthy(e.line) && Truthy(e.column)
    ensures ErrorLines(number, e) == [ErrorHeading(number), TypeOf(e.kind), MessageOf(e.message), ColumnOf(e.column.value)]
    ensures LocationText(LocationOf(e)) == ""
  {
  }
}
