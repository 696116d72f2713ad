/**
 * `processBEDStream`: read the data lines of a BED file into records. Header
 * lines are skipped, the first data line fixes the column count, and any
 * failure is raised as a BEDLineError naming the line.
 */
module BedStreams {

  import opened Outcomes
  import opened Text
  import opened Intervals
  import opened BedLines

  /** The column counts of the BED3, BED4, BED6 and BED12 formats. */
  predicate ValidFormatLength(n: int) {
    n == 3 || n == 4 || n == 6 || n == 12
  }

  function StartsWith(s: string, prefix: string): bool {
    prefix <= s
  }

  /** A line the parser skips once stripped: blank, a browser or track line
      (in any letter case), or a comment. */
  predicate Skipped(stripped: string) {
    stripped == [] || StartsWith(Lower(stripped), "browser") || StartsWith(Lower(stripped), "track")
    || StartsWith(stripped, "#")
  }

  /** The text a raw line contributes: stripped, with every space turned into
      a tab, or nothing when the line is skipped. */
  function DataLine(line: string): Option<string> {
    var stripped := Strip(line);
    if Skipped(stripped) then None else Some(SpacesToTabs(stripped))
  }

  /** What `select` keeps of the first n lines, in order. */
  function Kept(select: string -> Option<string>, lines: seq<string>, n: int): (r: seq<string>)
    requires 0 <= n <= |lines|
    ensures |r| <= n
  {
    if n == 0 then []
    else
      var last := select(lines[n - 1]);
      Kept(select, lines, n - 1) + (if last.Some? then [last.value] else [])
  }

  /** The data lines among the first n lines of a stream, in order. */
  function DataLinesUpTo(lines: seq<string>, n: int): (r: seq<string>)
    requires 0 <= n <= |lines|
    ensures |r| <= n
  {
    Kept(DataLine, lines, n)
  }

  /** The data lines of a stream, in order. */
  function DataLines(lines: seq<string>): (r: seq<string>)
    ensures |r| <= |lines|
  {
    Kept(DataLine, lines, |lines|)
  }

  /** How many columns a data line has: one more than its tabs. */
  function ColumnCount(line: string): nat {
    Occurrences(line, '\t') + 1
  }

  /** The columns of a data line. */
  function Fields(line: string): (r: seq<string>)
    ensures |r| == ColumnCount(line)
  {
    Split(line, '\t')
  }

  function FormatMessage(format: int): string {
    "This file appears to be a BED with " + IntToString(format)
    + " elements per line, but the only valid numbers of elements per line are [3, 4, 6, 12]"
  }

  function MismatchMessage(format: int, length: int, line: string): string {
    "This BED file appears to be a BED" + IntToString(format) + " format, but length "
    + IntToString(length) + " was seen on line " + line
  }

  /** A construction failure re-raised with the exception's type name and the line. */
  function WrapMessage(fault: Fault, line: string): string {
    "Trying to process the following line produced this error " + KindName(fault.kind) + ": "
    + fault.message + "   " + line
  }

  const NoLinesMessage := "Attempted to process BED data, but go no BED lines"

  /** A column count the parser accepts as the format of a stream. */
  type FormatLength = n: int | n == 3 || n == 4 || n == 6 || n == 12 witness 3

  /** What one data line gives in a stream whose format is `format`: the
      state of its record, or a column count other than the format's, or
      its construction failure wrapped. */
  function LineOutcome(mode: Mode, float: FloatConversion, format: FormatLength, line: string): Result<BedState> {
    if ColumnCount(line) != format then Err(Fault(BEDLineError, MismatchMessage(format, ColumnCount(line), line)))
    else
      match Construct(mode, float, Fields(line))
      case Err(fault) => Err(Fault(BEDLineError, WrapMessage(fault, line)))
      case Ok(state) => Ok(state)
  }

  /** The exception of `LineOutcome`, if any. */
  function LineProblem(mode: Mode, float: FloatConversion, format: FormatLength, line: string): Option<Fault> {
    var outcome := LineOutcome(mode, float, format, line);
    if outcome.Err? then Some(outcome.fault) else None
  }

  /** The check every data line of a stream in `format` goes through. */
  function LineCheck(mode: Mode, float: FloatConversion, format: FormatLength): string -> Option<Fault> {
    line => LineProblem(mode, float, format, line)
  }

  /** The line checks of a stream, by format. */
  function Checks(mode: Mode, float: FloatConversion): FormatLength -> string -> Option<Fault> {
    format => LineCheck(mode, float, format)
  }

  /** The first problem `check` finds among lines, in order. */
  function FirstProblem(check: string -> Option<Fault>, data: seq<string>): Option<Fault> {
    if |data| == 0 then None
    else
      var earlier := FirstProblem(check, data[..|data| - 1]);
      if earlier.Some? then earlier else check(data[|data| - 1])
  }

  /** What a stream with these data lines raises when each line in format
      f goes through `checkFor(f)`: no data at all, a first line with an
      invalid column count, or the first line problem. */
  function DataFault(data: seq<string>, checkFor: FormatLength -> string -> Option<Fault>): (r: Option<Fault>)
    ensures |data| == 0 ==> r == Some(Fault(BEDLineError, NoLinesMessage))
  {
    if |data| == 0 then Some(Fault(BEDLineError, NoLinesMessage))
    else
      var format := ColumnCount(data[0]);
      if !ValidFormatLength(format) then Some(Fault(BEDLineError, FormatMessage(format)))
      else FirstProblem(checkFor(format), data)
  }

  /** What `processBEDStream` raises on these lines, if anything. */
  function StreamFault(mode: Mode, float: FloatConversion, lines: seq<string>): (r: Option<Fault>)
    ensures |DataLines(lines)| == 0 ==> r == Some(Fault(BEDLineError, NoLinesMessage))
  {
    DataFault(DataLines(lines), Checks(mode, float))
  }

  /** No two records share an object: each line builds its own record,
      interval and thick interval. */
  predicate Separate(records: seq<BEDLine>) {
    forall i, j :: 0 <= i < j < |records| ==> records[i].Footprint() !! records[j].Footprint()
  }

  /** The objects of all the records. */
  function Footprints(records: seq<BEDLine>): set<object> {
    if records == [] then {} else Footprints(records[..|records| - 1]) + records[|records| - 1].Footprint()
  }

  /** Each record shares no object with the records before it. */
  predicate Stacked(records: seq<BEDLine>) {
    records != [] ==>
      var front := records[..|records| - 1];
      Stacked(front) && Footprints(front) !! records[|records| - 1].Footprint()
  }

  /** Every record's objects are among the records' objects. */
  lemma {:induction false} FootprintsHold(records: seq<BEDLine>, k: int)
    requires 0 <= k < |records|
    ensures records[k].Footprint() <= Footprints(records)
  {
    if k < |records| - 1 {
      var front := records[..|records| - 1];
      assert records[k] == front[k];
      FootprintsHold(front, k);
    }
  }

  /** Records stacked one at a time are pairwise separate. */
  lemma {:induction false} StackedSeparate(records: seq<BEDLine>)
    requires Stacked(records)
    ensures Separate(records)
  {
    if records != [] {
      var front := records[..|records| - 1];
      StackedSeparate(front);
      forall i, j | 0 <= i < j < |records|
        ensures records[i].Footprint() !! records[j].Footprint()
      {
        assert records[i] == front[i];
        if j < |records| - 1 {
          assert records[j] == front[j];
        } else {
          FootprintsHold(front, i);
        }
      }
    }
  }

  /** The records of a BED stream, one per data line in order, or the
      BEDLineError it raises. */
  method ProcessBEDStream(mode: Mode, float: FloatConversion, lines: seq<string>) returns (r: Result<seq<BEDLine>>)
    ensures r.Err? <==> StreamFault(mode, float, lines).Some?
    ensures r.Err? ==> r.fault == StreamFault(mode, float, lines).value
    ensures r.Ok? ==> |r.value| == |DataLines(lines)| > 0
    ensures r.Ok? ==> forall b :: b in r.value ==> fresh(b) && fresh(b.interval) && fresh(b.ThickFrame())
    ensures r.Ok? ==> Separate(r.value)
    ensures r.Ok? ==> forall k :: 0 <= k < |r.value| ==> r.value[k].Models(mode, float, Fields(DataLines(lines)[k]))
  {
    var checks := Checks(mode, float);
    var builds := Builds(mode, float);
    StreamAgrees(mode, float);
    ghost var states;
    r, states := CollectRecords(DataLine, mode, float, lines, checks, builds);
    if r.Ok? {
      ShownModels(mode, float, r.value, states, DataLines(lines));
      StackedSeparate(r.value);
      forall b | b in r.value
        ensures fresh(b) && fresh(b.interval) && fresh(b.ThickFrame())
      {
        var k :| 0 <= k < |r.value| && r.value[k] == b;
        FootprintsHold(r.value, k);
      }
    }
  }

  /** The stream's checks and build relation agree with `LineOutcome`. */
  lemma StreamAgrees(mode: Mode, float: FloatConversion)
    ensures forall format: FormatLength, line: string {:trigger LineOutcome(mode, float, format, line)} ::
      Agrees(Checks(mode, float), Builds(mode, float), format, line, LineOutcome(mode, float, format, line))
  {
    forall format: FormatLength, line: string
      ensures Agrees(Checks(mode, float), Builds(mode, float), format, line, LineOutcome(mode, float, format, line))
    {
    }
  }

  /** Records shown in states built from data lines model those lines. */
  lemma ShownModels(mode: Mode, float: FloatConversion, records: seq<BEDLine>, states: seq<BedState>, data: seq<string>)
    requires |records| == |states|
    requires AllBuilt(Builds(mode, float), states, data)
    requires forall k :: 0 <= k < |records| ==> records[k].Shows(states[k])
    ensures forall k :: 0 <= k < |records| ==> records[k].Models(mode, float, Fields(data[k]))
  {
    forall k | 0 <= k < |records|
      ensures records[k].Models(mode, float, Fields(data[k]))
    {
      AllBuiltAt(Builds(mode, float), states, data, k);
    }
  }

  /** The loop of `processBEDStream`, for any way `select` of turning a raw
      line into a data line or skipping it. The stream's line checks and
      record states are `checks` and `builds`, which agree with
      `LineOutcome` on every line. */
  method CollectRecords(select: string -> Option<string>, mode: Mode, float: FloatConversion, lines: seq<string>,
                        ghost checks: FormatLength -> string -> Option<Fault>, ghost builds: (string, BedState) -> bool)
    returns (r: Result<seq<BEDLine>>, ghost states: seq<BedState>)
    requires forall format: FormatLength, line: string {:trigger LineOutcome(mode, float, format, line)} ::
      Agrees(checks, builds, format, line, LineOutcome(mode, float, format, line))
    ensures r.Err? <==> DataFault(Kept(select, lines, |lines|), checks).Some?
    ensures r.Err? ==> r.fault == DataFault(Kept(select, lines, |lines|), checks).value
    ensures r.Ok? ==> |r.value| == |states| == |Kept(select, lines, |lines|)| > 0
    ensures r.Ok? ==> AllBuilt(builds, states, Kept(select, lines, |lines|))
    ensures r.Ok? ==> fresh(Footprints(r.value)) && Stacked(r.value)
    ensures r.Ok? ==> forall k :: 0 <= k < |r.value| ==> r.value[k].Shows(states[k])
  {
    var bedLines: seq<BEDLine> := [];
    var bedFormat: Option<int> := None;
    ghost var data: seq<string> := [];
    states := [];
    var i := 0;
    while i < |lines|
      invariant Scanned(select, checks, builds, lines, i, bedFormat, data, states)
      invariant |bedLines| == |states|
      invariant fresh(Footprints(bedLines)) && Stacked(bedLines)
      invariant forall k :: 0 <= k < |bedLines| ==> bedLines[k].Shows(states[k])
    {
      var fault;
      ghost var before := bedLines;
      label Turn:
      fault, bedFormat, bedLines, data, states := ScanLine(select, mode, float, lines, checks, builds,
                                                           i, bedFormat, bedLines, data, states);
      if fault.Some? {
        return Err(fault.value), states;
      }
      forall o | o in Footprints(bedLines)
        ensures !old(allocated(o))
      {
        if o !in Footprints(before) {
          assert !old@Turn(allocated(o));
        }
      }
      i := i + 1;
    }
    ScannedAll(select, checks, builds, lines, bedFormat, data, states);
    if |bedLines| == 0 {
      return Err(Fault(BEDLineError, NoLinesMessage)), states;
    }
    return Ok(bedLines), states;
  }

  /** One raw line of the loop of `CollectRecords`: skipped, or a data line
      added, or the stream's fault. */
  method ScanLine(select: string -> Option<string>, mode: Mode, float: FloatConversion, lines: seq<string>,
                  ghost checks: FormatLength -> string -> Option<Fault>, ghost builds: (string, BedState) -> bool,
                  i: int, bedFormat: Option<int>, bedLines: seq<BEDLine>, ghost data: seq<string>, ghost states: seq<BedState>)
    returns (fault: Option<Fault>, format: Option<int>, records: seq<BEDLine>, ghost data': seq<string>, ghost next: seq<BedState>)
    requires forall format: FormatLength, line: string {:trigger LineOutcome(mode, float, format, line)} ::
      Agrees(checks, builds, format, line, LineOutcome(mode, float, format, line))
    requires Scanned(select, checks, builds, lines, i, bedFormat, data, states)
    requires i < |lines|
    requires |bedLines| == |states|
    requires forall k :: 0 <= k < |bedLines| ==> bedLines[k].Shows(states[k])
    requires Stacked(bedLines)
    ensures fault.Some? ==> fault == DataFault(Kept(select, lines, |lines|), checks)
    ensures fault.None? ==> Scanned(select, checks, builds, lines, i + 1, format, data', next)
    ensures fault.None? ==> |records| == |next| && forall k :: 0 <= k < |records| ==> records[k].Shows(next[k])
    ensures fault.None? ==> Stacked(records) && fresh(Footprints(records) - Footprints(bedLines))
  {
    var line := select(lines[i]);
    if line.None? {
      SkipStep(select, checks, builds, lines, i, bedFormat, data, states);
      return None, bedFormat, bedLines, data, states;
    }
    var last := if bedFormat.None? then ColumnCount(line.value) else bedFormat.value;
    if !ValidFormatLength(last) {
      FormatFault(select, checks, builds, lines, i, bedFormat, data, states);
      return Some(Fault(BEDLineError, FormatMessage(last))), bedFormat, bedLines, data, states;
    }
    fault, records, next := AddRecord(select, mode, float, lines, checks, builds,
                                      i, bedFormat, bedLines, data, states, last);
    format, data' := Some(last), data + [line.value];
  }

  /** One data line of the loop of `CollectRecords` once its format is
      known: build the record, or stop with the stream's fault. */
  method AddRecord(select: string -> Option<string>, mode: Mode, float: FloatConversion, lines: seq<string>,
                   ghost checks: FormatLength -> string -> Option<Fault>, ghost builds: (string, BedState) -> bool,
                   i: int, bedFormat: Option<int>, bedLines: seq<BEDLine>, ghost data: seq<string>, ghost states: seq<BedState>,
                   format: FormatLength)
    returns (fault: Option<Fault>, records: seq<BEDLine>, ghost next: seq<BedState>)
    requires Scanned(select, checks, builds, lines, i, bedFormat, data, states)
    requires i < |lines| && select(lines[i]).Some?
    requires Agrees(checks, builds, format, select(lines[i]).value, LineOutcome(mode, float, format, select(lines[i]).value))
    requires format == if bedFormat.None? then ColumnCount(select(lines[i]).value) else bedFormat.value
    requires |bedLines| == |states|
    requires forall k :: 0 <= k < |bedLines| ==> bedLines[k].Shows(states[k])
    requires Stacked(bedLines)
    ensures fault.Some? ==> fault == DataFault(Kept(select, lines, |lines|), checks)
    ensures fault.None? ==> Scanned(select, checks, builds, lines, i + 1, Some(format),
                                    data + [select(lines[i]).value], next)
    ensures fault.None? ==> |records| == |next| && forall k :: 0 <= k < |records| ==> records[k].Shows(next[k])
    ensures fault.None? ==> Stacked(records) && fresh(Footprints(records) - Footprints(bedLines))
  {
    var line := select(lines[i]).value;
    var built; ghost var outcome;
    built, outcome := AppendRecord(mode, float, checks, builds, format, line, bedLines, states);
    if built.Err? {
      LineFaultIsDataFault(select, checks, builds, lines, i, bedFormat, data, states, format);
      return Some(built.fault), bedLines, states;
    }
    AcceptStep(select, checks, builds, lines, i, bedFormat, data, states, format, outcome.value);
    return None, built.value, states + [outcome.value];
  }

  /** `BuildRecord`, with the new record appended to those built so far. */
  method AppendRecord(mode: Mode, float: FloatConversion,
                      ghost checks: FormatLength -> string -> Option<Fault>, ghost builds: (string, BedState) -> bool,
                      format: FormatLength, line: string, bedLines: seq<BEDLine>, ghost states: seq<BedState>)
    returns (r: Result<seq<BEDLine>>, ghost outcome: Result<BedState>)
    requires Agrees(checks, builds, format, line, LineOutcome(mode, float, format, line))
    requires |bedLines| == |states|
    requires forall k :: 0 <= k < |bedLines| ==> bedLines[k].Shows(states[k])
    requires Stacked(bedLines)
    ensures r.Err? ==> checks(format)(line) == Some(r.fault)
    ensures r.Ok? ==> outcome.Ok? && checks(format)(line).None? && builds(line, outcome.value)
    ensures r.Ok? ==> |r.value| == |states| + 1
    ensures r.Ok? ==> forall k :: 0 <= k < |r.value| ==> r.value[k].Shows((states + [outcome.value])[k])
    ensures r.Ok? ==> Stacked(r.value) && fresh(Footprints(r.value) - Footprints(bedLines))
  {
    var built;
    built, outcome := BuildRecord(mode, float, checks, builds, format, line);
    if built.Err? {
      return Err(built.fault), outcome;
    }
    ShowsStep(bedLines, states, built.value, outcome.value);
    assert old(allocated(Footprints(bedLines)));
    var records := bedLines + [built.value];
    assert records[..|records| - 1] == bedLines;
    r := Ok(records);
  }

  /** `ProcessDataLine`, as the stream's checks and build relation see it. */
  method BuildRecord(mode: Mode, float: FloatConversion,
                     ghost checks: FormatLength -> string -> Option<Fault>, ghost builds: (string, BedState) -> bool,
                     format: FormatLength, line: string)
    returns (r: Result<BEDLine>, ghost outcome: Result<BedState>)
    requires Agrees(checks, builds, format, line, LineOutcome(mode, float, format, line))
    ensures r.Err? ==> checks(format)(line) == Some(r.fault)
    ensures r.Ok? ==> outcome.Ok? && checks(format)(line).None? && builds(line, outcome.value)
    ensures r.Ok? ==> fresh(r.value.Footprint()) && r.value.Shows(outcome.value)
  {
    r := ProcessDataLine(mode, float, format, line);
    outcome := LineOutcome(mode, float, format, line);
    if r.Ok? {
      BEDLine.FreshFootprint(r.value);
    }
  }

  /** The check and the build relation of a stream agree with what one line
      gives. */
  ghost predicate Agrees(checks: FormatLength -> string -> Option<Fault>, builds: (string, BedState) -> bool,
                         format: FormatLength, line: string, outcome: Result<BedState>)
  {
    match outcome
    case Err(fault) => checks(format)(line) == Some(fault)
    case Ok(state) => checks(format)(line).None? && builds(line, state)
  }

  /** What the loop of `CollectRecords` knows after i lines: the data lines
      so far, the format fixed by the first, no problem yet, and the state
      each record was built in. */
  ghost predicate Scanned(select: string -> Option<string>, checkFor: FormatLength -> string -> Option<Fault>,
                          builds: (string, BedState) -> bool, lines: seq<string>, i: int,
                          format: Option<int>, data: seq<string>, states: seq<BedState>)
  {
    && 0 <= i <= |lines|
    && data == Kept(select, lines, i)
    && |states| == |data|
    && AllBuilt(builds, states, data)
    && (format.None? <==> |data| == 0)
    && (format.Some? ==>
          && format.value == ColumnCount(data[0])
          && ValidFormatLength(format.value)
          && FirstProblem(checkFor(format.value), data).None?)
  }

  /** Once every line is scanned without a fault, the stream's fault is
      only the lack of data lines. */
  lemma ScannedAll(select: string -> Option<string>, checkFor: FormatLength -> string -> Option<Fault>,
                   builds: (string, BedState) -> bool, lines: seq<string>,
                   format: Option<int>, data: seq<string>, states: seq<BedState>)
    requires Scanned(select, checkFor, builds, lines, |lines|, format, data, states)
    ensures data == Kept(select, lines, |lines|) && |states| == |data|
    ensures AllBuilt(builds, states, data)
    ensures DataFault(data, checkFor) == if |data| == 0 then Some(Fault(BEDLineError, NoLinesMessage)) else None
  {
  }

  lemma SkipStep(select: string -> Option<string>, checkFor: FormatLength -> string -> Option<Fault>,
                 builds: (string, BedState) -> bool, lines: seq<string>, i: int,
                 format: Option<int>, data: seq<string>, states: seq<BedState>)
    requires Scanned(select, checkFor, builds, lines, i, format, data, states)
    requires i < |lines| && select(lines[i]).None?
    ensures Scanned(select, checkFor, builds, lines, i + 1, format, data, states)
  {
    KeptStep(select, lines, i);
  }

  lemma AcceptStep(select: string -> Option<string>, checkFor: FormatLength -> string -> Option<Fault>,
                   builds: (string, BedState) -> bool, lines: seq<string>, i: int,
                   format: Option<int>, data: seq<string>, states: seq<BedState>,
                   next: FormatLength, state: BedState)
    requires Scanned(select, checkFor, builds, lines, i, format, data, states)
    requires i < |lines| && select(lines[i]).Some?
    requires next == if format.None? then ColumnCount(select(lines[i]).value) else format.value
    requires checkFor(next)(select(lines[i]).value).None?
    requires builds(select(lines[i]).value, state)
    ensures Scanned(select, checkFor, builds, lines, i + 1, Some(next),
                    data + [select(lines[i]).value], states + [state])
  {
    var line := select(lines[i]).value;
    KeptStep(select, lines, i);
    FirstProblemStep(checkFor(next), data, line);
    AllBuiltStep(builds, states, data, state, line);
  }

  /** Building `line` in `mode` gives a record in `state`. */
  predicate BuildsTo(mode: Mode, float: FloatConversion, line: string, state: BedState) {
    3 <= ColumnCount(line) && Construct(mode, float, Fields(line)) == Ok(state)
  }

  /** What building a line gives, as a relation between lines and states. */
  function Builds(mode: Mode, float: FloatConversion): (string, BedState) -> bool {
    (line, state) => BuildsTo(mode, float, line, state)
  }

  /** Each state is related by `builds` to the line at its place. */
  predicate AllBuilt(builds: (string, BedState) -> bool, states: seq<BedState>, data: seq<string>) {
    && |states| == |data|
    && (|data| > 0 ==>
          && AllBuilt(builds, states[..|states| - 1], data[..|data| - 1])
          && builds(data[|data| - 1], states[|states| - 1]))
  }

  lemma AllBuiltStep(builds: (string, BedState) -> bool, states: seq<BedState>, data: seq<string>,
                     state: BedState, line: string)
    requires AllBuilt(builds, states, data)
    requires builds(line, state)
    ensures AllBuilt(builds, states + [state], data + [line])
  {
    assert (states + [state])[..|states|] == states && (data + [line])[..|data|] == data;
  }

  lemma {:induction false} AllBuiltAt(builds: (string, BedState) -> bool, states: seq<BedState>, data: seq<string>, k: int)
    requires AllBuilt(builds, states, data)
    requires 0 <= k < |states|
    ensures builds(data[k], states[k])
  {
    if k < |states| - 1 {
      AllBuiltAt(builds, states[..|states| - 1], data[..|data| - 1], k);
      assert states[..|states| - 1][k] == states[k] && data[..|data| - 1][k] == data[k];
    }
  }

  /** Appending a record in a state keeps every record in its state. */
  lemma ShowsStep(records: seq<BEDLine>, states: seq<BedState>, record: BEDLine, state: BedState)
    requires |records| == |states|
    requires forall k :: 0 <= k < |records| ==> records[k].Shows(states[k])
    requires record.Shows(state)
    ensures forall k :: 0 <= k < |records| + 1 ==> (records + [record])[k].Shows((states + [state])[k])
  {
  }

  /** One data line once the format is fixed: the column-count check, then
      the record, with a construction failure wrapped. */
  method ProcessDataLine(mode: Mode, float: FloatConversion, format: FormatLength, line: string)
    returns (r: Result<BEDLine>)
    ensures r.Err? <==> LineOutcome(mode, float, format, line).Err?
    ensures r.Err? ==> r.fault == LineOutcome(mode, float, format, line).fault
    ensures r.Ok? ==> fresh(r.value) && fresh(r.value.interval) && fresh(r.value.ThickFrame())
    ensures r.Ok? ==> r.value.Shows(LineOutcome(mode, float, format, line).value)
  {
    var lineList := Fields(line);
    if |lineList| != format {
      return Err(Fault(BEDLineError, MismatchMessage(format, |lineList|, line)));
    }
    var built := BEDLine.New(mode, float, lineList);
    if built.Err? {
      return Err(Fault(BEDLineError, WrapMessage(built.fault, line)));
    }
    return Ok(built.value);
  }

  /** No line has a problem exactly when there is no first problem. */
  lemma {:induction false} NoProblemIsNoFault(check: string -> Option<Fault>, data: seq<string>)
    ensures FirstProblem(check, data).None? <==> forall k :: 0 <= k < |data| ==> check(data[k]).None?
  {
    if |data| > 0 {
      var front := data[..|data| - 1];
      NoProblemIsNoFault(check, front);
      assert forall k :: 0 <= k < |front| ==> front[k] == data[k];
    }
  }

  /** After lines without a problem, the next line's problem is the first. */
  lemma FirstProblemStep(check: string -> Option<Fault>, data: seq<string>, line: string)
    requires FirstProblem(check, data).None?
    ensures FirstProblem(check, data + [line]) == check(line)
  {
    assert (data + [line])[..|data|] == data;
  }

  /** An invalid column count on the first selected line is the fault. */
  lemma FormatFault(select: string -> Option<string>, checkFor: FormatLength -> string -> Option<Fault>,
                    builds: (string, BedState) -> bool, lines: seq<string>, i: int,
                    format: Option<int>, data: seq<string>, states: seq<BedState>)
    requires Scanned(select, checkFor, builds, lines, i, format, data, states)
    requires i < |lines| && select(lines[i]).Some?
    requires !ValidFormatLength(if format.None? then ColumnCount(select(lines[i]).value) else format.value)
    ensures format.None?
    ensures DataFault(Kept(select, lines, |lines|), checkFor)
      == Some(Fault(BEDLineError, FormatMessage(ColumnCount(select(lines[i]).value))))
  {
    KeptFirst(select, lines, i);
  }

  /** The first line `select` keeps, when it keeps none before index i. */
  lemma KeptFirst(select: string -> Option<string>, lines: seq<string>, i: int)
    requires 0 <= i < |lines|
    requires |Kept(select, lines, i)| == 0
    requires select(lines[i]).Some?
    ensures var all := Kept(select, lines, |lines|);
      |all| > 0 && all[0] == select(lines[i]).value
  {
    var first := Kept(select, lines, i + 1);
    KeptStep(select, lines, i);
    assert first[0] == select(lines[i]).value;
    KeptPrefix(select, lines, i + 1, |lines|);
    assert Kept(select, lines, |lines|)[0] == first[0];
  }

  /** A problem on a selected line after clean ones is the fault. */
  lemma LineFaultIsDataFault(select: string -> Option<string>, checkFor: FormatLength -> string -> Option<Fault>,
                             builds: (string, BedState) -> bool, lines: seq<string>, i: int,
                             format: Option<int>, data: seq<string>, states: seq<BedState>, next: FormatLength)
    requires Scanned(select, checkFor, builds, lines, i, format, data, states)
    requires i < |lines| && select(lines[i]).Some?
    requires next == if format.None? then ColumnCount(select(lines[i]).value) else format.value
    requires checkFor(next)(select(lines[i]).value).Some?
    ensures DataFault(Kept(select, lines, |lines|), checkFor) == checkFor(next)(select(lines[i]).value)
  {
    var line := select(lines[i]).value;
    var seen := data + [line];
    KeptStep(select, lines, i);
    KeptPrefix(select, lines, i + 1, |lines|);
    FirstProblemStep(checkFor(next), data, line);
    assert seen[0] == if |data| == 0 then line else data[0];
    FaultFromPrefix(checkFor, seen, Kept(select, lines, |lines|), next);
  }

  /** A problem among the first data lines is the stream's fault. */
  lemma FaultFromPrefix(checkFor: FormatLength -> string -> Option<Fault>, seen: seq<string>, all: seq<string>,
                        format: FormatLength)
    requires seen <= all && |seen| > 0 && ColumnCount(seen[0]) == format
    requires FirstProblem(checkFor(format), seen).Some?
    ensures DataFault(all, checkFor) == FirstProblem(checkFor(format), seen)
  {
    assert all[0] == seen[0];
    FirstProblemPrefix(checkFor(format), seen, all);
  }

  lemma KeptStep(select: string -> Option<string>, lines: seq<string>, i: int)
    requires 0 <= i < |lines|
    ensures select(lines[i]).None? ==> Kept(select, lines, i + 1) == Kept(select, lines, i)
    ensures select(lines[i]).Some? ==> Kept(select, lines, i + 1) == Kept(select, lines, i) + [select(lines[i]).value]
  {
    if select(lines[i]).None? {
      assert Kept(select, lines, i) + [] == Kept(select, lines, i);
    }
  }

  /** What is kept of the first n lines begins what is kept of the first m. */
  lemma {:induction false} KeptPrefix(select: string -> Option<string>, lines: seq<string>, n: int, m: int)
    requires 0 <= n <= m <= |lines|
    ensures Kept(select, lines, n) <= Kept(select, lines, m)
  {
    if n < m {
      KeptPrefix(select, lines, n, m - 1);
    }
  }

  /** A problem in a prefix of the data lines stays the first problem. */
  lemma {:induction false} FirstProblemPrefix(check: string -> Option<Fault>, p: seq<string>, data: seq<string>)
    requires p <= data
    requires FirstProblem(check, p).Some?
    ensures FirstProblem(check, data) == FirstProblem(check, p)
  {
    if |data| > |p| {
      FirstProblemPrefix(check, p, data[..|data| - 1]);
    } else {
      assert p == data;
    }
  }

  /** Skipped lines may be added in front without changing the data lines,
      so headers and comments never affect the result. */
  lemma SkippedLinesIgnored(headers: seq<string>, lines: seq<string>)
    requires forall k :: 0 <= k < |headers| ==> DataLine(headers[k]).None?
    ensures DataLines(headers + lines) == DataLines(lines)
  {
    UnkeptPrefix(DataLine, headers, lines, |lines|);
  }

  /** Lines `select` drops, put in front, change nothing it keeps. */
  lemma {:induction false} UnkeptPrefix(select: string -> Option<string>, headers: seq<string>, lines: seq<string>, n: int)
    requires forall k :: 0 <= k < |headers| ==> select(headers[k]).None?
    requires 0 <= n <= |lines|
    ensures Kept(select, headers + lines, |headers| + n) == Kept(select, lines, n)
  {
    if n == 0 {
      NothingKept(select, headers + lines, |headers|);
    } else {
      UnkeptPrefix(select, headers, lines, n - 1);
      assert (headers + lines)[|headers| + n - 1] == lines[n - 1];
    }
  }

  lemma {:induction false} NothingKept(select: string -> Option<string>, lines: seq<string>, n: int)
    requires 0 <= n <= |lines|
    requires forall k :: 0 <= k < n ==> select(lines[k]).None?
    ensures Kept(select, lines, n) == []
  {
    if n > 0 {
      NothingKept(select, lines, n - 1);
    }
  }

  /** A data line has no spaces left, is not blank and is not a comment. */
  lemma DataLineShape(line: string)
    requires DataLine(line).Some?
    ensures var d := DataLine(line).value;
      d != [] && ' ' !in d && d[0] != '#'
  {
    var d := DataLine(line).value;
    var stripped := Strip(line);
    assert d[0] == stripped[0] by {
      assert stripped[0] != ' ' by { assert !IsSpace(stripped[0]); }
    }
    assert ' ' !in d by {
      forall k | 0 <= k < |d| ensures d[k] != ' ' { }
    }
  }
}
