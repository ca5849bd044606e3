/** The HTML report: a summary block, then one block per result whose errors
    are listed only when there are any. The document is kept as the sequence
    of fragments the source appends to its string; `PieceText` gives each
    fragment's exact text and `HtmlReportOf` concatenates them. No text is
    escaped: messages and paths are embedded as they are. */
module HtmlReport {
  import opened Results
  import opened Strings
  import opened Summaries

  datatype HtmlPiece =
    | Preamble(now: string, summary: Summary)
    | FileOpen(valid: bool, errorCount: nat, name: string, path: string)
    | ErrorListHeading
    | ErrorDiv(number: nat, kind: ErrorKind, location: string, message: string)
    | FileClose
    | Closing

  /** The exact text of each fragment. */
  function PieceText(p: HtmlPiece): string {
    match p
    case Preamble(now, s) =>
      "<!DOCTYPE html>\n<html>\n<head>\n    <meta charset=\"UTF-8\">\n"
      + "    <title>CCD Validation Report</title>\n    <style>\n"
      + "        body { font-family: Arial, sans-serif; margin: 20px; }\n"
      + "        .summary { background: #f0f0f0; padding: 15px; margin-bottom: 20px; }\n"
      + "        .file { border: 1px solid #ddd; margin: 10px 0; padding: 10px; }\n"
      + "        .valid { border-left: 5px solid #4CAF50; }\n"
      + "        .invalid { border-left: 5px solid #f44336; }\n"
      + "        .error { background: #ffebee; padding: 10px; margin: 5px 0; }\n"
      + "        .error-type { font-weight: bold; color: #c62828; }\n"
      + "        h1, h2 { color: #333; }\n    </style>\n</head>\n<body>\n"
      + "    <h1>CCD Validation Report</h1>\n    <div class=\"summary\">\n"
      + "        <p><strong>Generated:</strong> " + now + "</p>\n"
      + "        <p><strong>Total Files:</strong> " + NatStr(s.total) + "</p>\n"
      + "        <p><strong>Valid:</strong> <span style=\"color: green;\">" + NatStr(s.valid) + "</span></p>\n"
      + "        <p><strong>Invalid:</strong> <span style=\"color: red;\">" + NatStr(s.invalid) + "</span></p>\n"
      + "    </div>\n"
    case FileOpen(valid, n, name, path) =>
      "\n    <div class=\"file " + (if valid then "valid" else "invalid") + "\">\n"
      + "        <h2>" + name + "</h2>\n"
      + "        <p><strong>Status:</strong> " + (if valid then "&#x2713;" else "&#x2717;") + " "
      + (if valid then "VALID" else "INVALID (" + NatStr(n) + " errors)") + "</p>\n"
      + "        <p><strong>Path:</strong> " + path + "</p>\n"
    case ErrorListHeading => "        <h3>Errors:</h3>\n"
    case ErrorDiv(number, kind, location, message) =>
      "\n        <div class=\"error\">\n"
      + "            <p><span class=\"error-type\">Error #" + NatStr(number) + ": " + KindName(kind)
      + "</span>" + location + "</p>\n"
      + "            <p>" + message + "</p>\n        </div>\n"
    case FileClose => "    </div>\n"
    case Closing => "\n</body>\n</html>"
  }

  /** Where an error is shown to be: a column is only ever shown with a line. */
  datatype Location = NoLocation | LineOnly(line: int) | LineAndColumn(line: int, column: int)

  function LocationOf(e: ErrorRecord): (loc: Location)
    ensures loc == NoLocation <==> !Truthy(e.line)
    ensures loc.LineAndColumn? <==> Truthy(e.line) && Truthy(e.column)
    ensures loc != NoLocation ==> Truthy(e.line) && loc.line == e.line.value
    ensures loc.LineAndColumn? ==> loc.column == e.column.value
  {
    if !Truthy(e.line) then NoLocation
    else if Truthy(e.column) then LineAndColumn(e.line.value, e.column.value)
    else LineOnly(e.line.value)
  }

  function LocationText(loc: Location): (s: string)
    ensures s == "" <==> loc == NoLocation
  {
    match loc
    case NoLocation => ""
    case LineOnly(l) => " (Line " + IntStr(l) + ")"
    case LineAndColumn(l, c) => " (Line " + IntStr(l) + ", Column " + IntStr(c) + ")"
  }

  function ErrorPiece(number: nat, e: ErrorRecord): HtmlPiece {
    ErrorDiv(number, e.kind, LocationText(LocationOf(e)), e.message)
  }

  /** One fragment per error, numbered from 1 in order. */
  function ErrorDivs(errs: seq<ErrorRecord>): (ps: seq<HtmlPiece>)
    ensures |ps| == |errs|
    ensures forall j :: 0 <= j < |errs| ==> ps[j] == ErrorPiece(j + 1, errs[j])
  {
    if errs == [] then []
    else ErrorDivs(errs[..|errs| - 1]) + [ErrorPiece(|errs|, errs[|errs| - 1])]
  }

  /** The error list of a file block: present exactly when there are errors. */
  function ErrorSection(errs: seq<ErrorRecord>): (ps: seq<HtmlPiece>)
    ensures ps == [] <==> errs == []
    ensures errs != [] ==> ps[0] == ErrorListHeading && ps[1..] == ErrorDivs(errs)
  {
    if errs == [] then [] else [ErrorListHeading] + ErrorDivs(errs)
  }

  function FileBlock(r: ValidationResult, nameOf: string -> string): seq<HtmlPiece> {
    [FileOpen(r.valid, |r.errors|, nameOf(r.file), r.file)] + ErrorSection(r.errors) + [FileClose]
  }

  function FileBlocks(rs: seq<ValidationResult>, nameOf: string -> string): seq<HtmlPiece> {
    if rs == [] then [] else FileBlocks(rs[..|rs| - 1], nameOf) + FileBlock(rs[|rs| - 1], nameOf)
  }

  /** The document's fragments. `now` is the formatted generation time and
      `nameOf` gives the last component of a path. */
  function HtmlPieces(rs: seq<ValidationResult>, now: string, nameOf: string -> string): seq<HtmlPiece> {
    [Preamble(now, SummaryOf(rs))] + FileBlocks(rs, nameOf) + [Closing]
  }

  /** The document opens with the summary block: the number of results, of
      valid results and of results that are not valid. */
  lemma SummaryBlock(rs: seq<ValidationResult>, now: string, nameOf: string -> string)
    ensures HtmlPieces(rs, now, nameOf)[0] == Preamble(now, Summary(|rs|, CountValid(rs), CountInvalid(rs)))
  {
    CountsPartition(rs);
    assert SummaryOf(rs) == Summary(|rs|, CountValid(rs), CountInvalid(rs));
    var head := [Preamble(now, SummaryOf(rs))];
    var blocks := FileBlocks(rs, nameOf);
    assert HtmlPieces(rs, now, nameOf) == head + blocks + [Closing];
    IndexInPrefix(head, blocks, 0);
    IndexInPrefix(head + blocks, [Closing], 0);
  }

  /** A file block lists errors exactly when the result has some, whether or
      not the result is valid. */
  lemma ErrorListOnlyWithErrors(r: ValidationResult, nameOf: string -> string)
    ensures ErrorListHeading in FileBlock(r, nameOf) <==> r.errors != []
  {
    var open := FileOpen(r.valid, |r.errors|, nameOf(r.file), r.file);
    if r.errors == [] {
      assert FileBlock(r, nameOf) == [open, FileClose];
    } else {
      assert FileBlock(r, nameOf)[1] == ErrorListHeading;
    }
  }

  function PieceTexts(ps: seq<HtmlPiece>): seq<string> {
    if ps == [] then [] else PieceTexts(ps[..|ps| - 1]) + [PieceText(ps[|ps| - 1])]
  }

  /** The document as one string. */
  function HtmlReportOf(rs: seq<ValidationResult>, now: string, nameOf: string -> string): string {
    Flatten(PieceTexts(HtmlPieces(rs, now, nameOf)))
  }

  /** Computes the location suffix step by step, as the source does. */
  method LocationSuffix(e: ErrorRecord) returns (location: string)
    ensures location == LocationText(LocationOf(e))
  {
    location := "";
    if Truthy(e.line) {
      location := " (Line " + IntStr(e.line.value);
      if Truthy(e.column) {
        location := location + ", Column " + IntStr(e.column.value);
      }
      location := location + ")";
    }
  }

  lemma FileBlocksSnoc(rs: seq<ValidationResult>, nameOf: string -> string, k: nat)
    requires k < |rs|
    ensures FileBlocks(rs[..k + 1], nameOf) == FileBlocks(rs[..k], nameOf) + FileBlock(rs[k], nameOf)
  {
    assert rs[..k + 1][..k] == rs[..k];
  }

  lemma ErrorDivsSnoc(errs: seq<ErrorRecord>, k: nat)
    requires k < |errs|
    ensures ErrorDivs(errs[..k + 1]) == ErrorDivs(errs[..k]) + [ErrorPiece(k + 1, errs[k])]
  {
    assert errs[..k + 1][..k] == errs[..k];
  }

  /** Builds the document by appending fragments, as the source grows its
      string. */
  method RenderHtml(results: seq<ValidationResult>, now: string, nameOf: string -> string)
    returns (html: seq<HtmlPiece>)
    ensures html == HtmlPieces(results, now, nameOf)
  {
    var validCount := CountValid(results);
    var invalidCount := |results| - validCount;
    html := [Preamble(now, Summary(|results|, validCount, invalidCount))];
    ghost var head := html;
    assert head == [Preamble(now, SummaryOf(results))];
    for k := 0 to |results|
      invariant html == head + FileBlocks(results[..k], nameOf)
    {
      FileBlocksSnoc(results, nameOf, k);
      AppendAssoc(head, FileBlocks(results[..k], nameOf), FileBlock(results[k], nameOf));
      html := AppendFileBlock(html, results[k], nameOf);
    }
    assert results[..|results|] == results;
    html := html + [Closing];
  }

  /** One pass of the loop over results: the block of one file. */
  method AppendFileBlock(html: seq<HtmlPiece>, r: ValidationResult, nameOf: string -> string)
    returns (out: seq<HtmlPiece>)
    ensures out == html + FileBlock(r, nameOf)
  {
    out := html + [FileOpen(r.valid, |r.errors|, nameOf(r.file), r.file)];
    ghost var top := out;
    if r.errors != [] {
      out := out + [ErrorListHeading];
      out := AppendErrorDivs(out, r.errors);
      AppendAssoc(top, [ErrorListHeading], ErrorDivs(r.errors));
    }
    assert out == top + ErrorSection(r.errors);
    out := out + [FileClose];
    AppendAssoc(top, ErrorSection(r.errors), [FileClose]);
    AppendAssoc(html, [FileOpen(r.valid, |r.errors|, nameOf(r.file), r.file)], ErrorSection(r.errors) + [FileClose]);
  }

  /** The loop over one file's errors, numbering them from 1. */
  method AppendErrorDivs(html: seq<HtmlPiece>, errs: seq<ErrorRecord>) returns (out: seq<HtmlPiece>)
    ensures out == html + ErrorDivs(errs)
  {
    out := html;
    var i := 1;
    while i <= |errs|
      invariant 1 <= i <= |errs| + 1
      invariant out == html + ErrorDivs(errs[..i - 1])
    {
      var e := errs[i - 1];
      var location := LocationSuffix(e);
      ErrorDivsSnoc(errs, i - 1);
      AppendAssoc(html, ErrorDivs(errs[..i - 1]), [ErrorPiece(i, e)]);
      out := out + [ErrorDiv(i, e.kind, location, e.message)];
      i := i + 1;
    }
    assert errs[..i - 1] == errs;
  }
}
