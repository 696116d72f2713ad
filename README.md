# FASTA and BED cross-validation, modelled in Dafny

This project models the core of the Tecan Genomics FASTA/BED cross-validator
(`fbvsupport/`). The validator reads three inputs:

- a reference genome's FASTA index (`.fai`), its sequence dictionary (`@SQ`
  lines), or the FASTA file itself;
- one or more BED files of genomic intervals.

It then builds a `ValidationReport` of critical errors, errors and warnings.
The model covers everything between "the text lines are in hand" and "the
report holds the messages":

- `Intervals` (interval.dfy): the BED interval class `Interval`. Covers
  construction, the `start`/`end`/`strand`/`contig` setters, strand
  checking, overlap and containment.
- `BedLines` (bed_line.dfy): the BED record class `BEDLine`. Covers score and
  block-count processing, the thick interval, `errors`, `nameOrElse` and
  the setters that forward to the interval.
- `BedStreams` (bed_stream.dfy): `processBEDStream`. It skips header lines,
  fixes the column count from the first data line and builds one record per
  data line.
- `FaidxReader` (faidx.dfy) and `FastaDictReader` (fasta_dict.dfy): the
  `.fai` and `@SQ` line parsers, `byteLength` and `picardString`.
- `LineStreams` (line_stream.dfy): the skip-or-parse fold both parsers share.
- `FastaAnalysis` (fasta_analysis.dfy): the `analyzeFasta` state machine.
  It gives one index record and one dictionary record per contig.
- `Validations` (validations.dfy): collision detection, name simplification,
  the naming, duplicate-sequence, duplicate-interval and bounds checks,
  file-name prefixing, `validateFASTA` and `validateBED`.
- `Reports` (report.dfy): the append-only `ValidationReport` class.
- `ReportMerge` (merge.dfy): the last step of `generateValidationReport`,
  which merges the FASTA and BED messages into the report.
- `Text` (text.dfy) and `Outcomes` (outcomes.dfy): Python's string
  operations (`strip`, `split`, `lower`, `int()`, `str()` of an integer) and
  its exceptions, as values.

How the source's Python features map to the model:

- **Validation mode.** The module-global `VALIDATIONRUN` becomes an explicit
  `Mode`. `Strict` raises; `Accumulate` appends messages to `errors`.
- **Exceptions.** A raised exception becomes `Err(Fault(kind, message))`,
  and the kind names the Python exception class.
- **Inputs and I/O.**
  - A file is a `seq<string>` of raw lines, terminators included, and
    `tell()` is the sum of the lengths read so far.
  - md5 is a `digest` parameter applied to the concatenated stripped
    sequence.
  - The file URI is a parameter.
  - Python's `float()` on a score is a `FloatConversion` parameter.
- **Dictionaries.** Python dictionaries keep insertion order, so a dictionary
  of counts is modelled as the sequence of its (key, count) entries, in
  first-occurrence order.

## Model

| member | source | states |
|---|---|---|
| Intervals.CheckStrandValue | fbvsupport/bedReader.py:101-108 | the strand is accepted exactly when it is "+/-" or a non-empty substring of "+-." (so "+-" passes); "+/-" normalises to "." and any other accepted value is returned unchanged |
| Intervals.PieceOfStrandAlphabet | fbvsupport/bedReader.py:105 | the `in "+-."` test accepts exactly the seven substrings of "+-.", the empty one included |
| Intervals.ConstructionFindings | fbvsupport/bedReader.py:29-57 | construction records no message exactly when 0 <= start < end and the strand is valid |
| Intervals.ConstructionFindingsExact | fbvsupport/bedReader.py:29-57 | one message per violated rule: the strand message iff the strand is invalid, the negative-start message iff start < 0, "AFTER end" iff end < start, "equal" iff end == start, and no other |
| Intervals.MessagesDiffer | fbvsupport/bedReader.py:29-57 | the four construction messages are pairwise different, so each can be told apart in `errors` |
| Intervals.ConstructionFault | fbvsupport/bedReader.py:24-67 | construction raises exactly when a coordinate is not an integer, or in strict mode when some rule is violated; in accumulate mode a non-integer coordinate still raises the TypeError of comparing None with 0 |
| Intervals.StartSetterFindings | fbvsupport/bedReader.py:79-88 | the start setter finds nothing exactly when 0 <= start < end |
| Intervals.Interval.New | fbvsupport/bedReader.py:24-43 | a constructed interval holds the given contig, the integer bounds and the raw strand, not the normalised one; its errors are empty in strict mode and the findings in accumulate mode; otherwise the construction fault is raised |
| Intervals.ValidConstruction | fbvsupport/bedReader.py:24-43 | with integer 0 <= start < end and strand "+", "-" or ".", construction succeeds with no errors, reads back start, end and strand, and has length end - start > 0 and last included base end - 1 |
| Intervals.Interval.SetStart | fbvsupport/bedReader.py:79-89 | strict mode: a bad value raises and leaves the interval unchanged, and a good one is stored. Accumulate mode: the value is stored and the bounds messages are appended; a non-integer value appends its message, is not stored, and then raises the TypeError of comparing `end` with None (`int < None`). End, contig and strand are unchanged |
| Intervals.Interval.SetEnd | fbvsupport/bedReader.py:95-99 | the same as the start setter, with the relative checks only: no negative-start check on end; a non-integer value in accumulate mode raises the TypeError of `None < int` |
| Intervals.Interval.SetStrand | fbvsupport/bedReader.py:114-123 | a valid strand is stored normalised; an invalid one raises in strict mode and otherwise appends its message and stores "" |
| Intervals.Interval.SetContig | fbvsupport/bedReader.py:18-26 | `contig` is a plain dataclass field: assigning it changes only the contig, with no validation |
| Intervals.Interval.Overlaps | fbvsupport/bedReader.py:129-145 | false across contigs; for non-empty intervals, true exactly when some base lies in both half-open ranges |
| Intervals.Interval.Contains | fbvsupport/bedReader.py:147-150 | false across contigs; for a non-empty other interval, true exactly when every base of the other lies in this one |
| Intervals.Interval.ContainedBy | fbvsupport/bedReader.py:135-136 | `a.containedBy(b)` is `b.contains(a)` |
| Intervals.OverlapsSymmetric | fbvsupport/bedReader.py:138-145 | overlap is symmetric |
| Intervals.ContainmentImpliesOverlap | fbvsupport/bedReader.py:132-150 | for non-empty intervals, containment implies overlap in both directions |
| Intervals.ContainsTransitive | fbvsupport/bedReader.py:147-150 | containment is transitive |
| Intervals.OverlapExamples | fbvsupport/bedReader.py:138-145 | chr1:10-20 overlaps chr1:15-25 but neither chr1:20-30 nor chr2:10-20 |
| BedLines.ProcessScore | fbvsupport/bedReader.py:207-226 | an absent score stays absent; "." counts as 0; a score that is not a number or lies outside [0, 1000] gives one message and otherwise none; strict mode raises a BEDLineError instead; accumulate mode never raises |
| BedLines.ScoreModesAgree | fbvsupport/bedReader.py:207-226 | strict mode raises exactly when accumulate mode records a message, and raises that message; otherwise both give the same score |
| BedLines.ProcessBlockCount | fbvsupport/bedReader.py:228-245 | an absent count stays absent; the count is the parsed integer; a negative count gives one message; a count that is not an integer always raises, in accumulate mode with the TypeError of comparing a string with 0 |
| BedLines.BlockCountModesAgree | fbvsupport/bedReader.py:228-245 | strict mode raises exactly when accumulate mode raises or records a message; otherwise both give the same result |
| BedLines.ThickFault | fbvsupport/bedReader.py:199-202 | nothing is raised without both thick columns; a thick column that is not an integer raises the ValueError of `int()`; in accumulate mode that is the only fault possible |
| BedLines.LineFault | fbvsupport/bedReader.py:193-205 | a record is built only when both coordinates are integers, the score and block count are processed without raising and the thick columns convert |
| BedLines.StrictAcceptsCleanLines | fbvsupport/bedReader.py:193-245 | a line builds in strict mode exactly when it builds in accumulate mode without any message |
| BedLines.Construct | fbvsupport/bedReader.py:193-205 | building the record fails exactly with the line's fault |
| BedLines.BEDLine.New | fbvsupport/bedReader.py:193-205 | the record holds what `Construct` describes, with fresh interval objects, or the construction fault is raised |
| BedLines.BEDLine.NewThick | fbvsupport/bedReader.py:199-202 | a thick interval exists exactly when both thick columns are given; it is built from the integers with strand "." |
| BedLines.Prefixed | fbvsupport/bedReader.py:254-256 | every thick-interval message gets the "ThickInterval: " prefix, in order |
| BedLines.BEDLine.ErrorList | fbvsupport/bedReader.py:247-257 | the record's own messages, then the interval's, then the thick interval's prefixed ones, in that order. A thick interval of length 0 is falsy and adds nothing, and the truth test raises when the length does not fit Python's length slot: a ValueError for a negative length, and an OverflowError for one above `sys.maxsize` (2^63 - 1) |
| BedLines.BEDLine.Errors | fbvsupport/bedReader.py:247-257 | the loop that builds the list returns exactly `ErrorList()` |
| BedLines.BEDLine.NameOrElse | fbvsupport/bedReader.py:291-297 | the name for formats with more than three columns |
| BedLines.GeneratedNameParts | fbvsupport/bedReader.py:296 | for BED3, when the contig has no underscore, the generated name splits on "_" into the contig, the start and the end |
| BedLines.BEDLine.SetContig | fbvsupport/bedReader.py:263-265 | forwards to the interval; only its contig changes |
| BedLines.BEDLine.SetStart | fbvsupport/bedReader.py:271-273 | the interval ends in the state its start setter promises: in strict mode a non-integer or out-of-bounds value raises the first message and leaves the interval unchanged; in accumulate mode the messages are appended to the interval's errors, an integer is stored, and a non-integer raises the `int < None` TypeError; contig, end and strand are unchanged |
| BedLines.BEDLine.SetEnd | fbvsupport/bedReader.py:279-281 | the interval ends in the state its end setter promises: the same cases as the start setter with the relative checks only, and the `None < int` TypeError; contig, start and strand are unchanged |
| BedLines.BEDLine.SetStrand | fbvsupport/bedReader.py:287-289 | a valid strand is stored normalised with no new error; an invalid one raises the strand message in strict mode, leaving the interval unchanged, and otherwise appends that message to the interval's errors and stores ""; contig, start and end are unchanged |
| BedStreams.Fields | fbvsupport/bedReader.py:318-319 | a data line has one column more than it has tabs |
| BedStreams.ProcessBEDStream | fbvsupport/bedReader.py:304-333 | returns one record per data line, in input order, each what building that line's columns gives. Otherwise it raises the stream's fault: no data line, a first column count not in {3, 4, 6, 12}, a later count that differs, or a wrapped construction failure, whichever comes first. Each record, its interval and its thick interval are new objects, and no two records share any of them |
| BedStreams.StreamFault | fbvsupport/bedReader.py:330-333 | a stream without data lines raises the "no BED lines" error |
| BedStreams.SkippedLinesIgnored | fbvsupport/bedReader.py:308-316 | blank, browser, track and comment lines in front of a stream change nothing |
| BedStreams.DataLineShape | fbvsupport/bedReader.py:308-317 | a data line is non-empty, contains no space (each space became one tab) and does not start with "#" |
| BedStreams.FormatFault | fbvsupport/bedReader.py:320-323 | an invalid column count can only come from the first data line, and it is what the stream raises |
| BedStreams.LineFaultIsDataFault | fbvsupport/bedReader.py:324-329 | the first failing data line decides what the stream raises |
| BedStreams.CollectRecords | fbvsupport/bedReader.py:305-333 | the parsing loop yields exactly the stream's fault, or one record per kept line built as that line describes; the records' objects are all new, and each record shares none with those before it |
| BedStreams.ScanLine | fbvsupport/bedReader.py:307-329 | one turn of the loop keeps the scan invariant or stops with the stream's fault |
| BedStreams.ProcessDataLine | fbvsupport/bedReader.py:324-329 | a data line of the wrong length raises the mismatch error, a construction failure is wrapped with its exception name, and otherwise the record is built |
| BedStreams.NoProblemIsNoFault | fbvsupport/bedReader.py:326-329 | no line raises exactly when every line passes its check |
| FaidxReader.FromColumns | fbvsupport/faidxReader.py:16-20 | the record keeps the contig as given and converts the four numbers; a number that does not convert raises a ValueError |
| FaidxReader.FloorMod | fbvsupport/faidxReader.py:25 | Python's `%` (floor division), including for negative operands |
| FaidxReader.ByteLength | fbvsupport/faidxReader.py:22-28 | raises ZeroDivisionError exactly when `lineBases` is 0 |
| FaidxReader.ByteLengthOfLayout | fbvsupport/faidxReader.py:22-28 | baseLength = n·lineBases + rest with rest < lineBases gives n·lineBytes + rest |
| FaidxReader.ByteLengthWithoutTerminators | fbvsupport/faidxReader.py:22-28 | when each line has no terminator bytes, byteLength equals baseLength |
| FaidxReader.PicardStringFields | fbvsupport/faidxReader.py:30-33 | the Picard header splits on tabs into "@SQ", "SN:" + contig and "LN:" + length; stripping the tags gives back the contig and the length |
| FaidxReader.IndexEntry | fbvsupport/faidxReader.py:38-44 | a line gives no record exactly when it is blank |
| FaidxReader.ProcessFaidxStream | fbvsupport/faidxReader.py:36-45 | the loop returns exactly the fold over the lines: blank lines skipped, a line without exactly five columns or with a bad number raises |
| FaidxReader.IndexRecordsPerLine | fbvsupport/faidxReader.py:36-45 | reading succeeds exactly when every non-blank line is a record; the records are then one per non-blank line, in order |
| FaidxReader.IndexEntryExample | fbvsupport/faidxReader.py:38-44 | "chr1\t100\t6\t60\t61\n" reads as chr1, 100, 6, 60, 61 |
| FastaDictReader.StripDictFieldPrefix | fbvsupport/fastaDictReader.py:20-21 | drops exactly the first three characters; a shorter value gives "" |
| FastaDictReader.TagDropped | fbvsupport/fastaDictReader.py:20-21 | a three-character tag followed by a value gives back the value |
| FastaDictReader.FromValues | fbvsupport/fastaDictReader.py:7-17 | a record needs exactly four values and an integer length; a bad count or length raises a ValueError |
| FastaDictReader.DictEntry | fbvsupport/fastaDictReader.py:26-31 | a line gives no record exactly when its stripped text does not start with "@SQ" (blank lines included) |
| FastaDictReader.FieldCountDecides | fbvsupport/fastaDictReader.py:32-36 | after the marker, three fields give uri "", four give the fourth field untagged, and any other count raises the unpacking ValueError |
| FastaDictReader.ProcessDictStream | fbvsupport/fastaDictReader.py:24-38 | the loop returns exactly the fold over the lines |
| FastaDictReader.DictRecordsPerLine | fbvsupport/fastaDictReader.py:24-38 | reading succeeds exactly when every `@SQ` line is a record; the records are then one per `@SQ` line, in order |
| FastaDictReader.DictEntryExample | fbvsupport/fastaDictReader.py:24-38 | "@SQ\tSN:chr1\tLN:100\tM5:abc123" reads as contig chr1, length 100, hash abc123, uri "" |
| FastaDictReader.RecordLineRoundTrip | fbvsupport/fastaDictReader.py:24-38 | writing a record as an `@SQ` line and reading it back gives the record |
| LineStreams.CollectMeaning | fbvsupport/faidxReader.py:36-45 | the shared fold succeeds exactly when no chosen line fails, returns the values in order, and otherwise raises the first failure |
| FastaAnalysis.ExtractContigFromLine | fbvsupport/fastaAnalysis.py:9-13 | a stripped line not starting with ">" raises a ValueError. Otherwise the result is the first whitespace-free word after ">"; when there is none, `split()[0]` raises an IndexError |
| FastaAnalysis.HeaderNamesContig | fbvsupport/fastaAnalysis.py:9-13 | ">" + name + anything starting with whitespace names the contig `name` |
| FastaAnalysis.AnalyzeFasta | fbvsupport/fastaAnalysis.py:16-81 | the analyzer's loop returns exactly what `Analyze` defines |
| FastaAnalysis.ScanLines | fbvsupport/fastaAnalysis.py:40-77 | the while loop over the lines leaves exactly the variables of the fold `Run` |
| FastaAnalysis.AnalyzeMeaning | fbvsupport/fastaAnalysis.py:16-81 | analysis succeeds exactly when the first line names a contig and every contig's lines are consistent; it then returns one index record and one dictionary record per contig read off the file's blocks |
| FastaAnalysis.RunFollowsBlocks | fbvsupport/fastaAnalysis.py:40-77 | the state machine raises exactly when some contig is unnamed or has a deviating line followed by another line; otherwise its variables summarise the blocks |
| FastaAnalysis.ContigPerHeader | fbvsupport/fastaAnalysis.py:45-80 | one index and one dictionary entry per header line, in file order; entry i of both carries the contig header i names, and its startByte is the offset just after that header |
| FastaAnalysis.BlocksFollowHeaders | fbvsupport/fastaAnalysis.py:53 | block k+1 starts at header k, at the byte offset after it (blank lines included) |
| FastaAnalysis.NoHeaderLine | fbvsupport/fastaAnalysis.py:79-80 | when no raw line starts with ">" the result is a single record with no name, no bases and offset 0 |
| FastaAnalysis.BlankLineIgnored | fbvsupport/fastaAnalysis.py:42-44 | a blank line changes neither the counts nor the inconsistency flag |
| FastaAnalysis.GrownConsistent | fbvsupport/fastaAnalysis.py:62-72 | one more sequence line keeps a contig consistent exactly when it was consistent and its current last line did not deviate |
| FastaAnalysis.HeaderReads | fbvsupport/fastaAnalysis.py:45-60 | a header line succeeds exactly when it names a contig, and the loop then reads a fresh contig with no line yet; otherwise it raises |
| FastaAnalysis.RunStops | fbvsupport/fastaAnalysis.py:62-63 | once the loop raises, the remaining lines do not change the outcome |
| FastaAnalysis.SequenceReads | fbvsupport/fastaAnalysis.py:61-77 | a sequence line raises exactly when the contig's current last line deviated from its first; otherwise the loop reads the contig grown by that line |
| FastaAnalysis.ConsistentBases | fbvsupport/fastaAnalysis.py:61-77 | a consistent contig has (lines - 1) full lines of the first line's width, plus the last line's bases |
| FastaAnalysis.ShortLastLineOvercounted | fbvsupport/fastaAnalysis.py:67-75 | with a short last line, the recorded baseLength exceeds the bases read, and byteLength counts every line at the first line's width |
| FastaAnalysis.CorrectedRecordCountsBases | fbvsupport/fastaAnalysis.py:67-75 | the corrected record's baseLength is the bases actually read, and its byteLength ends with the last line's actual bases |
| Validations.FirstOccurrencesMeaning | fbvsupport/validations.py:20-27 | the dictionary's keys are the input's items, each once, in first-occurrence order |
| Validations.CountOccurrences | fbvsupport/validations.py:21-25 | the counting loop gives each seen item its number of occurrences, keys in first-occurrence order |
| Validations.DetectCollisionsInList | fbvsupport/validations.py:20-30 | the loops return exactly the collisions of the input |
| Validations.CollisionsExact | fbvsupport/validations.py:20-30 | a (key, count) entry is returned exactly when the key occurs count > 1 times, and each key at most once |
| Validations.RemoveSpaceMeaning | fbvsupport/validations.py:35 | removing whitespace leaves no whitespace, adds no upper-case letter and leaves text without whitespace as it is |
| Validations.SimplifyName | fbvsupport/validations.py:33-36 | a simplified name has no whitespace and no upper-case ASCII letter |
| Validations.SimplifyIdempotent | fbvsupport/validations.py:33-36 | simplifying twice is simplifying once |
| Validations.RemoveSpaceAppend | fbvsupport/validations.py:35 | removing whitespace from two joined texts is removing it from each |
| Validations.SimplifiedExample | fbvsupport/validations.py:33-36 | "Region1" and "region 1" both simplify to "region1" |
| Validations.SimilarNamesExample | fbvsupport/validations.py:39-54 | two "Region1" and one "region 1" collide twice as written and three times once simplified |
| Validations.SimplifiedCountAtLeast | fbvsupport/validations.py:33-47 | a name occurs at least as often among the simplified names as among the originals |
| Validations.RawCollisionAlsoSimilar | fbvsupport/validations.py:46-53 | every raw collision shows up among the simplified collisions with at least its count |
| Validations.MessagesOfCollisions | fbvsupport/validations.py:48-53 | there is one message per item occurring more than once, with its count, and no other |
| Validations.NamingErrorsMeaning | fbvsupport/validations.py:39-54 | raw-collision messages come first, then simplified ones; the length is the sum of the two collision counts; every raw collision has a simplified counterpart |
| Validations.MakeNamingErrorList | fbvsupport/validations.py:39-54 | the loops return exactly the naming messages of the index's contig names |
| Validations.ReportNameCollisions | fbvsupport/validations.py:46-53 | the raw messages followed by the simplified messages |
| Validations.QuoteDelimits | fbvsupport/validations.py:68 | the repr of a contig is the contig between two equal quote characters, double exactly when it holds a single quote and no double quote (escaping not modelled, see Left out) |
| Validations.ListReprShowsItem | fbvsupport/validations.py:68 | every contig's repr appears in the list repr the duplicate-contig message shows |
| Validations.CheckForDuplicateContigs | fbvsupport/validations.py:57-70 | the loops return exactly one message per digest, in first-occurrence order, for each digest carried by two or more records |
| Validations.GroupContigsByHash | fbvsupport/validations.py:59-63 | the table maps each digest seen to its records' contigs in input order, keyed in first-occurrence order |
| Validations.SharedDigestsReported | fbvsupport/validations.py:57-70 | every digest shared by at least two records has its message, listing exactly those contigs in input order |
| Validations.OnlySharedDigestsReported | fbvsupport/validations.py:64-69 | every message is about a digest shared by at least two records |
| Validations.UniqueDigestsUnreported | fbvsupport/validations.py:57-70 | records with pairwise different digests give no message |
| Validations.ContigsWithHashMembers | fbvsupport/validations.py:59-63 | a contig is listed under a digest exactly when some record carries both |
| Validations.CheckForDuplicateBEDIntervalNames | fbvsupport/validations.py:73-88 | returns exactly the naming messages of the records' `nameOrElse`, read from their current state |
| Validations.CheckForDuplicatedIntervals | fbvsupport/validations.py:91-106 | returns exactly one message per (contig, start, end) used more than once, with its count |
| Validations.DuplicateIntervalsExact | fbvsupport/validations.py:91-106 | a triple used more than once has its message, and every message is about such a triple |
| Validations.DuplicateIntervalsIgnoreOtherColumns | fbvsupport/validations.py:94-100 | only contig, start and end matter: records differing elsewhere (strand, name) give the same messages |
| Validations.LaterLengthWins | fbvsupport/validations.py:112-114 | a contig has a length exactly when the index lists it, and that length is its last entry's |
| Validations.CrosscheckError | fbvsupport/validations.py:115-122 | a record passes exactly when its contig is indexed and end - 1 does not exceed the contig's baseLength |
| Validations.EndOnePastLengthPasses | fbvsupport/validations.py:120 | an interval ending at baseLength + 1 passes the bounds check |
| Validations.CrosscheckErrorsPerRecord | fbvsupport/validations.py:109-123 | at most one message per record, and none exactly when every record passes |
| Validations.CrosscheckErrorsListed | fbvsupport/validations.py:115-122 | every failing record's message is reported |
| Validations.CrosscheckErrorsOnlyListed | fbvsupport/validations.py:115-122 | every message comes from a failing record |
| Validations.CrosscheckBEDFile | fbvsupport/validations.py:109-123 | the loops return exactly the records' crosscheck messages, in record order |
| Validations.PrependFileNameToErrorLines | fbvsupport/validations.py:126-130 | same length and order; element i is the file name, ": " and message i |
| Validations.PrependDistributes | fbvsupport/validations.py:126-130 | prefixing two joined lists is joining the two prefixed lists |
| Validations.ValidateFASTA | fbvsupport/validations.py:149-155 | the naming messages of the index, then the duplicate-sequence messages of the dictionary |
| Validations.CleanFastaPasses | fbvsupport/validations.py:149-155 | an index with pairwise different simplified names and a dictionary with pairwise different digests give no message |
| Validations.LineErrorsRaise | fbvsupport/validations.py:160-164 | numbering raises exactly when some record's `errors` raises, and then it raises the first such fault |
| Validations.LineErrorsListed | fbvsupport/validations.py:160-164 | every message of record k appears as "Line k+1: message" |
| Validations.LineErrorsOnlyListed | fbvsupport/validations.py:160-164 | every numbered message comes from some record's messages |
| Validations.NumberLineErrors | fbvsupport/validations.py:160-164 | the nested loops return exactly the numbered messages, in record order |
| Validations.ValidateBED | fbvsupport/validations.py:158-169 | the numbered record messages, then the naming messages, then the duplicate-interval messages, from the records' current state |
| ReportMerge.MergeValidations | fbvsupport/validations.py:214-223 | the report's errors grow by the prefixed FASTA messages, then each BED file's prefixed messages and crosscheck messages, in file order; critical errors, warnings and inputs are unchanged |
| ReportMerge.MergeBedFiles | fbvsupport/validations.py:217-223 | the loop over the BED files adds exactly the merged messages and stops at the first fault |
| ReportMerge.MergedBedErrorsStops | fbvsupport/validations.py:217-223 | once a BED file raises, later files add nothing |
| Reports.ValidationReport.constructor | fbvsupport/validationReport.py:8-22 | the report holds copies of the given lists (empty when absent) and no inputs |
| Reports.CountsAndVerdicts | fbvsupport/validationReport.py:24-52 | the error count is errors + criticals, the warning count the warnings; `noErrors`, `noWarnings` and `passed` hold exactly when their lists are empty |
| Reports.AppendOnly | fbvsupport/validationReport.py:50-87 | when the lists only grow, the counts never drop and a failed verdict stays failed |
| Reports.ValidationReport.AddInput | fbvsupport/validationReport.py:54-60 | the value is appended to its category, which is created if absent; other categories and the lists are unchanged |
| Reports.ValidationReport.AddWarning | fbvsupport/validationReport.py:62-63 | appends one warning; the other lists and the inputs are unchanged |
| Reports.ValidationReport.AddError | fbvsupport/validationReport.py:65-66 | appends one error; the other lists and the inputs are unchanged |
| Reports.ValidationReport.AddCritical | fbvsupport/validationReport.py:68-69 | appends one critical error; the other lists and the inputs are unchanged |
| Reports.ValidationReport.AddWarnings | fbvsupport/validationReport.py:71-75 | appends every warning, in order; the rest is unchanged |
| Reports.ValidationReport.AddErrors | fbvsupport/validationReport.py:77-81 | appends every error, in order; the rest is unchanged |
| Reports.ValidationReport.AddCriticals | fbvsupport/validationReport.py:83-87 | appends every critical error, in order; the rest is unchanged |
| Reports.ToStringVerdict | fbvsupport/validationReport.py:117-122 | the rendered line starts with the test name and "PASSED" exactly when the report passed, and with "FAILED" otherwise |
| Reports.ToStringCritical | fbvsupport/validationReport.py:123-125 | the line ends with " \| CRITICAL ERRORS REPORTED!" exactly when a critical error was recorded |
| Text.StripEmptyIffAllSpace | fbvsupport/bedReader.py:308-310 | `strip()` gives "" exactly when the text is all whitespace |
| Text.JoinSplit | fbvsupport/bedReader.py:318 | joining the parts of `split(sep)` with sep gives back the text |
| Text.SplitJoin | fbvsupport/faidxReader.py:42 | splitting parts joined by a separator they lack gives back the parts |
| Text.IntRoundTrip | fbvsupport/faidxReader.py:17-20 | `int(str(i)) == i` for every integer |

## Left out

- File and process I/O is not modelled. This covers `readBEDFile`,
  `readFastaIndexFile`, `readFastaDictFile`, opening and seeking in
  `analyzeFasta`, the samtools runner, gzip detection, `validator.py`,
  printing and logging. Streams are given as line sequences.
- Lines 172-213 of `generateValidationReport` (fbvsupport/validations.py:172-224)
  are not modelled. The model starts at line 214, where the FASTA and BED
  messages are merged.
  - Not modelled: the file-existence checks, samtools indexing, the
    fallback to `analyzeFasta`, the shared module-global report and the
    `readBEDFile` loop.
  - `ReportMerge.MergeValidations` takes the already-read index, dictionary
    and BED records as parameters.
  - It adds a BED file's messages once they are all computed. The source
    adds them in two `addErrors` calls, with the same final list.
- `makeFaidx` and `makeFastaDictionary` wrap samtools and are not part of
  this model.
- `toDict`, `toJSON` and `dumpToLogger` are JSON and logging output and are
  not modelled.
- md5 is the `digest` parameter and is not computed. The file URI built by
  `pathlib` is the `uri` parameter.
- Python's `float()` on a score is the `FloatConversion` parameter, and its
  `show` stands for `"%s" % score`. NaN and the infinities have no `real`
  counterpart, so `Number(v)` never holds them. A "nan" or "inf" score is
  represented only by how the parameter is chosen. If `parse` maps such text
  to no number, the model reports the not-a-number message where Python
  reports the out-of-range message with `nan` or `inf`.
- Python's `int()` is modelled as an optional sign and ASCII digits after
  stripping. Underscores between digits and non-ASCII digits are not
  accepted by the model. The model also accepts any number of digits. On
  Python 3.11 and later, `int()` of a decimal text longer than 4300 digits
  raises a ValueError, which `checkInt` then reports as a non-integer value.
- Text.Quote: `int()`'s error message and the list repr in the
  duplicate-contig message use Python's quote character. That is double
  quotes when the text holds `'` and no `"`, and single quotes otherwise.
  Quotes, backslashes and non-printable characters inside the text are not
  escaped.
- `lower()` lowers ASCII letters only. Whitespace is exactly the set
  `str.isspace()` accepts.
- Reports.ValidationReport.Inputs: the source's `inputs` is a shallow copy,
  so each category's list is still shared with the report, and appending to
  `report.inputs[name]` changes the report. The model returns the table as a
  value, so this aliasing is not modelled.
- `tell()` counts characters: newline translation and multi-byte encodings
  are not modelled.
- `addInput` stores string values. The `copy()` attempt on a value only
  matters for mutable values, and a string is a value here.
- The `str` type check in `addWarnings`, `addErrors` and `addCriticals`
  cannot fail under Dafny's types, so it is not modelled.
- The dataclass ordering (`sort_index`, `order=True`) and `__len__` are not
  modelled. `__str__` of an interval is modelled only as used in the
  crosscheck message.
- The BED checks read each record's current state once, as a `BedView`
  snapshot. They do not change the records.
- Intervals.Interval.Length, Intervals.Interval.LastIncludedBase and
  Intervals.Interval.ToString carry no contract of their own. Their values
  are stated by `ValidConstruction`, `Overlaps` and `Contains`.
- FastaAnalysis.Analyze keeps the source's behaviour, counting each line at
  the contig's first-line width. The corrected record `CorrectedIndexRecord`
  is stated separately (see Findings). The validations take the index and
  the dictionary as inputs, so no other part of the model reads the
  analyzer's output.

## Findings

| source | as written | input that shows it | evidently intended | confidence | as-written member | corrected member |
|---|---|---|---|---|---|---|
| fbvsupport/fastaAnalysis.py:67-75 | every sequence line adds the first line's base and byte widths to `baseLength` and `byteLength`, including a shorter last line | lines ">c\n", "AA\n", "A\n" give baseLength 4 and byteLength 6 for 3 bases in 5 bytes | count each line's own bases, as samtools' index does | not executed | FastaAnalysis.ShortLastLineOvercounted | FastaAnalysis.CorrectedRecordCountsBases |
