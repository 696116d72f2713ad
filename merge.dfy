/**
 * The last step of `generateValidationReport` in validations.py: once the
 * index, the dictionary and the BED files are read, their messages are
 * merged into the run's report.
 */
module ReportMerge {
  import opened Outcomes
  import opened FaidxReader
  import opened FastaDictReader
  import opened Reports
  import opened Validations

  /** One BED file's contribution: its `validateBED` messages, then its
      crosscheck messages, each prefixed with the file's path; or the fault
      `validateBED` raises. */
  function BedFileErrors(path: string, views: seq<BedView>, contigLengthTable: map<string, int>): Result<seq<string>> {
    match BedErrors(views)
    case Err(fault) => Err(fault)
    case Ok(errors) =>
      Ok(PrependFileNameToErrorLines(path, errors)
         + PrependFileNameToErrorLines(path, CrosscheckErrors(views, contigLengthTable)))
  }

  /** What the loop over the read BED files adds to the report's errors, and
      the fault that ends it early, if one does. */
  function MergedBedErrors(bedFiles: seq<(string, seq<BedView>)>, contigLengthTable: map<string, int>)
    : (seq<string>, Option<Fault>)
  {
    if bedFiles == [] then ([], None)
    else
      var before := MergedBedErrors(bedFiles[..|bedFiles| - 1], contigLengthTable);
      var last := bedFiles[|bedFiles| - 1];
      if before.1.Some? then before
      else
        match BedFileErrors(last.0, last.1, contigLengthTable)
        case Err(fault) => (before.0, Some(fault))
        case Ok(errors) => (before.0 + errors, None)
  }

  lemma MergedBedErrorsFault(bedFiles: seq<(string, seq<BedView>)>, contigLengthTable: map<string, int>, i: int,
                             added: seq<string>, fault: Fault)
    requires 0 <= i < |bedFiles|
    requires MergedBedErrors(bedFiles[..i], contigLengthTable) == (added, None)
    requires BedFileErrors(bedFiles[i].0, bedFiles[i].1, contigLengthTable) == Err(fault)
    ensures MergedBedErrors(bedFiles[..i + 1], contigLengthTable) == (added, Some(fault))
  {
    assert bedFiles[..i + 1][..i] == bedFiles[..i];
  }

  lemma MergedBedErrorsAppend(bedFiles: seq<(string, seq<BedView>)>, contigLengthTable: map<string, int>, i: int,
                              added: seq<string>, errors: seq<string>)
    requires 0 <= i < |bedFiles|
    requires MergedBedErrors(bedFiles[..i], contigLengthTable) == (added, None)
    requires BedFileErrors(bedFiles[i].0, bedFiles[i].1, contigLengthTable) == Ok(errors)
    ensures MergedBedErrors(bedFiles[..i + 1], contigLengthTable) == (added + errors, None)
  {
    assert bedFiles[..i + 1][..i] == bedFiles[..i];
  }

  /** Lines 214-223 of `generateValidationReport`, given the index, the
      dictionary and each read BED file (path and records' views, in the
      order the files were read): the FASTA messages and then each file's
      messages are added to the report's errors. A fault from `validateBED`
      propagates, leaving what was added before it. The source keeps the
      files in a dictionary keyed by path, so a path given twice is read and
      validated once: the caller passes each path once. */
  method MergeValidations(report: ValidationReport, fastaPath: string, faidx: seq<FastaIndexLine>,
                          fastaDict: seq<FastaDictLine>, bedFiles: seq<(string, seq<BedView>)>)
    returns (fault: Option<Fault>)
    modifies report
    ensures var merged := MergedBedErrors(bedFiles, LengthTable(faidx));
      && report.errorList == old(report.errorList)
                             + PrependFileNameToErrorLines(fastaPath, FastaErrors(faidx, fastaDict)) + merged.0
      && fault == merged.1
    ensures report.criticalList == old(report.criticalList) && report.warningList == old(report.warningList)
    ensures report.inputTable == old(report.inputTable)
  {
    var fastaErrors := ValidateFASTA(faidx, fastaDict);
    fastaErrors := PrependFileNameToErrorLines(fastaPath, fastaErrors);
    report.AddErrors(fastaErrors);
    var bedErrors;
    bedErrors, fault := MergeBedFiles(bedFiles, faidx);
    report.AddErrors(bedErrors);
  }

  /** The loop over the read BED files: each file's messages in turn, up to
      the first file whose `validateBED` raises. */
  method MergeBedFiles(bedFiles: seq<(string, seq<BedView>)>, faidx: seq<FastaIndexLine>)
    returns (added: seq<string>, fault: Option<Fault>)
    ensures (added, fault) == MergedBedErrors(bedFiles, LengthTable(faidx))
  {
    ghost var table := LengthTable(faidx);
    added := [];
    for i := 0 to |bedFiles|
      invariant MergedBedErrors(bedFiles[..i], table) == (added, None)
    {
      var bedFileErrors := BedFileMessages(bedFiles[i].0, bedFiles[i].1, faidx);
      if bedFileErrors.Err? {
        MergedBedErrorsFault(bedFiles, table, i, added, bedFileErrors.fault);
        MergedBedErrorsStops(bedFiles, table, i + 1);
        return added, Some(bedFileErrors.fault);
      }
      MergedBedErrorsAppend(bedFiles, table, i, added, bedFileErrors.value);
      added := added + bedFileErrors.value;
    }
    assert bedFiles[..|bedFiles|] == bedFiles;
    return added, None;
  }

  /** One pass of that loop: `validateBED` and then the crosscheck, both
      prefixed with the file's path. */
  method BedFileMessages(bedFilePath: string, bedLines: seq<BedView>, faidx: seq<FastaIndexLine>)
    returns (r: Result<seq<string>>)
    ensures r == BedFileErrors(bedFilePath, bedLines, LengthTable(faidx))
  {
    var bedFileErrors := ValidateBedViews(bedLines);
    if bedFileErrors.Err? {
      return Err(bedFileErrors.fault);
    }
    var bedFileCrosscheckErrors := CrosscheckViews(bedLines, faidx);
    var named := PrependFileNameToErrorLines(bedFilePath, bedFileErrors.value);
    var namedCrosscheck := PrependFileNameToErrorLines(bedFilePath, bedFileCrosscheckErrors);
    return Ok(named + namedCrosscheck);
  }

  /** Once a file's `validateBED` raises, the later files do not matter. */
  lemma {:induction false} MergedBedErrorsStops(bedFiles: seq<(string, seq<BedView>)>, contigLengthTable: map<string, int>, n: int)
    requires 0 <= n <= |bedFiles|
    requires MergedBedErrors(bedFiles[..n], contigLengthTable).1.Some?
    ensures MergedBedErrors(bedFiles, contigLengthTable) == MergedBedErrors(bedFiles[..n], contigLengthTable)
  {
    if n < |bedFiles| {
      var front := bedFiles[..|bedFiles| - 1];
      assert front[..n] == bedFiles[..n];
      MergedBedErrorsStops(front, contigLengthTable, n);
    } else {
      assert bedFiles[..n] == bedFiles;
    }
  }
}
