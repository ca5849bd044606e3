/** The valid/invalid counts every report format prints, and the exit status. */
module Summaries {
  import opened Results

  /** How many results are valid. */
  function CountValid(rs: seq<ValidationResult>): (n: nat)
    ensures n <= |rs|
    ensures n == |rs| <==> forall i :: 0 <= i < |rs| ==> rs[i].valid
  {
    if rs == [] then 0
    else CountValid(rs[..|rs| - 1]) + (if rs[|rs| - 1].valid then 1 else 0)
  }

  /** How many results are not valid (the JSON report counts these directly). */
  function CountInvalid(rs: seq<ValidationResult>): (n: nat)
    ensures n <= |rs|
    ensures n == 0 <==> forall i :: 0 <= i < |rs| ==> rs[i].valid
  {
    if rs == [] then 0
    else CountInvalid(rs[..|rs| - 1]) + (if rs[|rs| - 1].valid then 0 else 1)
  }

  /** Every result is counted exactly once, as valid or as invalid. */
  lemma {:induction false} CountsPartition(rs: seq<ValidationResult>)
    ensures CountValid(rs) + CountInvalid(rs) == |rs|
  {
    if rs != [] {
      CountsPartition(rs[..|rs| - 1]);
    }
  }

  datatype Summary = Summary(total: nat, valid: nat, invalid: nat)

  /** The summary of the text and HTML reports: invalid is total minus valid. */
  function SummaryOf(rs: seq<ValidationResult>): (s: Summary)
    ensures s.total == |rs| && s.valid + s.invalid == s.total
    ensures s.valid == CountValid(rs)
    ensures s.invalid == 0 <==> forall i :: 0 <= i < |rs| ==> rs[i].valid
  {
    var v := CountValid(rs);
    Summary(|rs|, v, |rs| - v)
  }

  /** The summary of the JSON report counts invalid results directly, and
      agrees with the text and HTML summary. */
  function JsonSummaryOf(rs: seq<ValidationResult>): (s: Summary)
    ensures s == SummaryOf(rs)
  {
    CountsPartition(rs);
    Summary(|rs|, CountValid(rs), CountInvalid(rs))
  }

  /** The process status: 1 when some result is not valid, otherwise 0. */
  function ExitStatus(rs: seq<ValidationResult>): (code: int)
    ensures code == 0 || code == 1
    ensures code == 0 <==> SummaryOf(rs).invalid == 0
    ensures rs == [] ==> code == 0
  {
    if exists i :: 0 <= i < |rs| && !rs[i].valid then 1 else 0
  }
}
