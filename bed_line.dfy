/**
 * One record of a BED file (bedReader.py's `BEDLine`): the interval of its
 * first three columns plus the optional name, score, strand, thick range,
 * colour and block columns, with the score and block-count validation its
 * constructor runs.
 */
module BedLines {

  import opened Outcomes
  import opened Text
  import opened Intervals

  /** `float(text)` and `"%s" % aFloat`, which the model does not define:
      the score check only needs some conversion to a number and back. */
  datatype FloatConversion = FloatConversion(parse: string -> Option<real>, show: real -> string)

  /** The `_score` attribute after `processScore`: absent, a number, or (in
      accumulate mode) the text that did not convert. */
  datatype Score = NoScore | Number(value: real) | NotANumber(text: string)

  // Messages, as the source formats them.

  function ScoreNotNumberMessage(text: string): string {
    "Score value of " + text + " does not appear to be a number."
  }

  function ScoreRangeMessage(shown: string): string {
    "Score value was " + shown + ", but should be between 0 and 1000"
  }

  function BlockCountNotIntegerMessage(text: string): string {
    "Block count value of " + text + " does not appear to be an integer."
  }

  function BlockCountNegativeMessage(count: int): string {
    "Block count value of " + IntToString(count) + " is less than zero."
  }

  /** What Python says when the unconverted block-count text is compared with 0. */
  const StrBeforeIntMessage := "'<' not supported between instances of 'str' and 'int'"

  /** What `bool(interval)` raises when `__len__` is negative. */
  const NegativeLengthMessage := "__len__() should return >= 0"

  /** `sys.maxsize` on a 64-bit build: the largest length `__len__` may return. */
  const MaxSize := 0x7FFF_FFFF_FFFF_FFFF

  /** What `bool(interval)` raises when `__len__` exceeds `sys.maxsize`. */
  const LengthOverflowMessage := "cannot fit 'int' into an index-sized integer"

  const ThickPrefix := "ThickInterval: "

  /** The column at `index`, if the line has that many columns. */
  function Column(fields: seq<string>, index: nat): Option<string> {
    if index < |fields| then Some(fields[index]) else None
  }

  /** The column at `index`, or the dataclass default when it is absent. */
  function ColumnOr(fields: seq<string>, index: nat, default: string): string {
    if index < |fields| then fields[index] else default
  }

  /** The number a score text stands for: "." means 0. */
  function ScoreValue(float: FloatConversion, text: string): Option<real> {
    if text == "." then Some(0.0) else float.parse(text)
  }

  predicate InScoreRange(v: real) {
    0.0 <= v <= 1000.0
  }

  /** `processScore`: the stored score and the messages appended to `_errors`,
      or the exception strict mode raises. */
  function ProcessScore(mode: Mode, float: FloatConversion, raw: Option<string>): (r: Result<(Score, seq<string>)>)
    ensures raw.None? ==> r == Ok((NoScore, []))
    ensures mode.Accumulate? ==> r.Ok?
    ensures r.Err? ==> r.fault.kind == BEDLineError
    ensures r.Ok? && raw.Some? && ScoreValue(float, raw.value).Some? ==>
      r.value.0 == Number(ScoreValue(float, raw.value).value)
    ensures r.Ok? ==> (r.value.1 == [] <==>
      raw.None? || (ScoreValue(float, raw.value).Some? && InScoreRange(ScoreValue(float, raw.value).value)))
    ensures r.Ok? ==> |r.value.1| <= 1
    ensures mode.Strict? && r.Ok? ==> r.value.1 == []
  {
    match raw
    case None => Ok((NoScore, []))
    case Some(text) =>
      match ScoreValue(float, text)
      case None =>
        var message := ScoreNotNumberMessage(text);
        if mode.Strict? then Err(Fault(BEDLineError, message)) else Ok((NotANumber(text), [message]))
      case Some(v) =>
        if InScoreRange(v) then Ok((Number(v), []))
        else
          var message := ScoreRangeMessage(float.show(v));
          if mode.Strict? then Err(Fault(BEDLineError, message)) else Ok((Number(v), [message]))
  }

  /** `processBlockCount`: the stored count and the messages appended to
      `_errors`, or the exception raised. Accumulate mode cannot survive text
      that is not an integer: the text is then compared with 0. */
  function ProcessBlockCount(mode: Mode, raw: Option<string>): (r: Result<(Option<int>, seq<string>)>)
    ensures raw.None? ==> r == Ok((None, []))
    ensures r.Ok? && raw.Some? ==> r.value.0 == ParseInt(raw.value)
    ensures r.Ok? ==> (r.value.1 == [] <==> raw.None? || (ParseInt(raw.value).Some? && ParseInt(raw.value).value >= 0))
    ensures r.Ok? ==> |r.value.1| <= 1
    ensures raw.Some? && ParseInt(raw.value).None? ==> r.Err?
    ensures mode.Accumulate? && r.Err? ==> r.fault == Fault(TypeError, StrBeforeIntMessage)
    ensures mode.Strict? && r.Ok? ==> r.value.1 == []
  {
    match raw
    case None => Ok((None, []))
    case Some(text) =>
      match ParseInt(text)
      case None =>
        if mode.Strict? then Err(Fault(BEDLineError, BlockCountNotIntegerMessage(text)))
        else Err(Fault(TypeError, StrBeforeIntMessage))
      case Some(n) =>
        if n >= 0 then Ok((Some(n), []))
        else
          var message := BlockCountNegativeMessage(n);
          if mode.Strict? then Err(Fault(BEDLineError, message)) else Ok((Some(n), [message]))
  }

  /** Strict mode raises exactly where accumulate mode records a message,
      and raises that message. */
  lemma ScoreModesAgree(float: FloatConversion, raw: Option<string>)
    ensures var strict := ProcessScore(Strict, float, raw);
      var acc := ProcessScore(Accumulate, float, raw);
      && (strict.Err? <==> acc.value.1 != [])
      && (strict.Err? ==> strict.fault.message == acc.value.1[0])
      && (strict.Ok? ==> strict == acc)
  {
  }

  /** The same for the block count, except that text that is not an integer
      fails in both modes (with different exceptions). */
  lemma BlockCountModesAgree(raw: Option<string>)
    ensures var strict := ProcessBlockCount(Strict, raw);
      var acc := ProcessBlockCount(Accumulate, raw);
      && (strict.Err? <==> acc.Err? || acc.value.1 != [])
      && (strict.Err? && acc.Ok? ==> strict.fault.message == acc.value.1[0])
      && (strict.Ok? ==> strict == acc)
  {
  }

  /** The strand column, "." when the line has fewer than six columns. */
  function StrandColumn(fields: seq<string>): string {
    ColumnOr(fields, 5, ".")
  }

  /** What converting the thick range can raise: nothing without both thick
      columns, the ValueError of `int()` on either text, or the failure of
      constructing the thick interval (strand "."). */
  function ThickFault(mode: Mode, fields: seq<string>): (r: Option<Fault>)
    ensures |fields| < 8 ==> r.None?
    ensures |fields| >= 8 && (ParseInt(fields[6]).None? || ParseInt(fields[7]).None?) ==>
      r.Some? && r.value.kind == ValueError
    ensures r.Some? && mode.Accumulate? ==> r.value.kind == ValueError
  {
    if |fields| < 8 then None
    else if ParseInt(fields[6]).None? then Some(Fault(ValueError, IntLiteralMessage(fields[6])))
    else if ParseInt(fields[7]).None? then Some(Fault(ValueError, IntLiteralMessage(fields[7])))
    else ConstructionFault(mode, Num(ParseInt(fields[6]).value), Num(ParseInt(fields[7]).value), ".")
  }

  /** The exception constructing a record from its columns raises, in the
      order `__post_init__` meets them: interval, score, thick range, block count. */
  function LineFault(mode: Mode, float: FloatConversion, fields: seq<string>): (r: Option<Fault>)
    requires 3 <= |fields|
    ensures r.None? ==> CheckInt(Str(fields[1])).Some? && CheckInt(Str(fields[2])).Some?
    ensures r.None? ==> ProcessScore(mode, float, Column(fields, 4)).Ok?
    ensures r.None? ==> ProcessBlockCount(mode, Column(fields, 9)).Ok? && ThickFault(mode, fields).None?
  {
    var intervalFault := ConstructionFault(mode, Str(fields[1]), Str(fields[2]), StrandColumn(fields));
    var score := ProcessScore(mode, float, Column(fields, 4));
    var blockCount := ProcessBlockCount(mode, Column(fields, 9));
    if intervalFault.Some? then intervalFault
    else if score.Err? then Some(score.fault)
    else if ThickFault(mode, fields).Some? then ThickFault(mode, fields)
    else if blockCount.Err? then Some(blockCount.fault)
    else None
  }

  /** Every message accumulate mode records for a line it can build: the
      record's own (score, then block count), the interval's, and the thick
      interval's. */
  function AccumulatedMessages(float: FloatConversion, fields: seq<string>): seq<string>
    requires 3 <= |fields|
    requires LineFault(Accumulate, float, fields).None?
  {
    var start := CheckInt(Str(fields[1])).value;
    var end := CheckInt(Str(fields[2])).value;
    ProcessScore(Accumulate, float, Column(fields, 4)).value.1
    + ProcessBlockCount(Accumulate, Column(fields, 9)).value.1
    + ConstructionFindings(start, end, StrandColumn(fields))
    + (if |fields| < 8 then []
       else ConstructionFindings(ParseInt(fields[6]).value, ParseInt(fields[7]).value, "."))
  }

  /** Strict mode builds exactly the lines that accumulate mode builds without
      recording any message. */
  lemma StrictAcceptsCleanLines(float: FloatConversion, fields: seq<string>)
    requires 3 <= |fields|
    ensures LineFault(Strict, float, fields).None? <==>
      LineFault(Accumulate, float, fields).None? && AccumulatedMessages(float, fields) == []
  {
    ScoreModesAgree(float, Column(fields, 4));
    BlockCountModesAgree(Column(fields, 9));
  }

  /** The state of a record, as a value: its own columns and messages, and
      the states of its interval and thick interval. */
  datatype BedState = BedState(formatLength: int, name: string, score: Score, rgb: string,
                               blockCount: Option<int>, blockSizes: string, blockStarts: string,
                               ownErrors: seq<string>, interval: Span, thick: Option<Span>)

  /** What constructing a record from its columns yields: the exception, or
      the new record's state. Absent columns take the dataclass defaults, the
      interval carries the first three columns and the strand as given, and
      the thick interval (strand ".") exists exactly when both thick columns
      are given. */
  function Construct(mode: Mode, float: FloatConversion, fields: seq<string>): (r: Result<BedState>)
    requires 3 <= |fields|
    ensures r.Err? <==> LineFault(mode, float, fields).Some?
    ensures r.Err? ==> r.fault == LineFault(mode, float, fields).value
  {
    var fault := LineFault(mode, float, fields);
    if fault.Some? then Err(fault.value)
    else
      var score := ProcessScore(mode, float, Column(fields, 4)).value;
      var blockCount := ProcessBlockCount(mode, Column(fields, 9)).value;
      var interval := BuiltSpan(mode, fields[0], ParseInt(fields[1]).value, ParseInt(fields[2]).value,
                                StrandColumn(fields));
      var thick := if |fields| < 8 then None
                   else Some(BuiltSpan(mode, fields[0], ParseInt(fields[6]).value, ParseInt(fields[7]).value, "."));
      Ok(BedState(|fields|, ColumnOr(fields, 3, ""), score.0, ColumnOr(fields, 8, ""), blockCount.0,
                  ColumnOr(fields, 10, ""), ColumnOr(fields, 11, ""), score.1 + blockCount.1, interval, thick))
  }

  /** "ThickInterval: " before every message. */
  function Prefixed(messages: seq<string>): (r: seq<string>)
    ensures |r| == |messages|
    ensures forall i :: 0 <= i < |r| ==> r[i] == ThickPrefix + messages[i]
  {
    seq(|messages|, i requires 0 <= i < |messages| => ThickPrefix + messages[i])
  }

  class BEDLine {
    const formatLength: int
    const name: string
    const score: Score
    const rgb: string
    const blockCount: Option<int>
    const blockSizes: string
    const blockStarts: string
    const interval: Interval
    const thickInterval: Option<Interval>
    /** `_errors`: the score and block-count messages, oldest first. */
    const ownErrors: seq<string>

    constructor Init(formatLength: int, name: string, score: Score, rgb: string, blockCount: Option<int>,
                     blockSizes: string, blockStarts: string, interval: Interval,
                     thickInterval: Option<Interval>, ownErrors: seq<string>)
      ensures this.formatLength == formatLength && this.name == name && this.score == score
      ensures this.rgb == rgb && this.blockCount == blockCount
      ensures this.blockSizes == blockSizes && this.blockStarts == blockStarts
      ensures this.interval == interval && this.thickInterval == thickInterval
      ensures this.ownErrors == ownErrors
    {
      this.formatLength := formatLength;
      this.name := name;
      this.score := score;
      this.rgb := rgb;
      this.blockCount := blockCount;
      this.blockSizes := blockSizes;
      this.blockStarts := blockStarts;
      this.interval := interval;
      this.thickInterval := thickInterval;
      this.ownErrors := ownErrors;
    }

    /** The thick interval, as a frame. */
    function ThickFrame(): set<object> {
      if thickInterval.Some? then {thickInterval.value} else {}
    }

    /** The objects this record's state lives in: the record, its interval
        and its thick interval. */
    function Footprint(): set<object> {
      {this as object, interval} + ThickFrame()
    }

    /** A new record with a new interval and thick interval is new throughout. */
    static twostate lemma FreshFootprint(new b: BEDLine)
      requires fresh(b) && fresh(b.interval) && fresh(b.ThickFrame())
      ensures fresh(b.Footprint())
    {
    }

    /** This record is currently in state `s`. */
    predicate Shows(s: BedState)
      reads interval, ThickFrame()
    {
      && formatLength == s.formatLength && name == s.name && score == s.score && rgb == s.rgb
      && blockCount == s.blockCount && blockSizes == s.blockSizes && blockStarts == s.blockStarts
      && ownErrors == s.ownErrors && interval.Holds(s.interval)
      && (thickInterval.Some? <==> s.thick.Some?)
      && (thickInterval.Some? ==> thickInterval.value.Holds(s.thick.value))
    }

    /** This record is what constructing one from `fields` in `mode` builds. */
    predicate Models(mode: Mode, float: FloatConversion, fields: seq<string>)
      reads interval, ThickFrame()
    {
      3 <= |fields| && Construct(mode, float, fields).Ok? && Shows(Construct(mode, float, fields).value)
    }

    /** `BEDLine(len(fields), *fields)`: the record, or the exception its
        construction raises. Absent columns take the dataclass defaults; the
        thick interval exists exactly when both thick columns are given. */
    static method New(mode: Mode, float: FloatConversion, fields: seq<string>) returns (r: Result<BEDLine>)
      requires 3 <= |fields| <= 12
      ensures r.Err? <==> Construct(mode, float, fields).Err?
      ensures r.Err? ==> r.fault == Construct(mode, float, fields).fault
      ensures r.Ok? ==> fresh(r.value) && fresh(r.value.interval) && fresh(r.value.ThickFrame())
      ensures r.Ok? ==> r.value.Shows(Construct(mode, float, fields).value)
    {
      var built := Interval.New(mode, fields[0], Str(fields[1]), Str(fields[2]), StrandColumn(fields));
      if built.Err? {
        return Err(built.fault);
      }
      var score := ProcessScore(mode, float, Column(fields, 4));
      if score.Err? {
        return Err(score.fault);
      }
      var thickBuilt := NewThick(mode, fields);
      if thickBuilt.Err? {
        return Err(thickBuilt.fault);
      }
      var thick := thickBuilt.value;
      var blockCount := ProcessBlockCount(mode, Column(fields, 9));
      if blockCount.Err? {
        return Err(blockCount.fault);
      }
      assert LineFault(mode, float, fields).None?;
      var line := new BEDLine.Init(|fields|, ColumnOr(fields, 3, ""), score.value.0, ColumnOr(fields, 8, ""),
                                   blockCount.value.0, ColumnOr(fields, 10, ""), ColumnOr(fields, 11, ""),
                                   built.value, thick, score.value.1 + blockCount.value.1);
      return Ok(line);
    }

    /** The thick interval of `__post_init__`: none without both thick
        columns, otherwise the columns converted by `int()` (which raises
        ValueError) and an interval with strand "." built from them. */
    static method NewThick(mode: Mode, fields: seq<string>) returns (r: Result<Option<Interval>>)
      requires 3 <= |fields|
      ensures r.Err? <==> ThickFault(mode, fields).Some?
      ensures r.Err? ==> r.fault == ThickFault(mode, fields).value
      ensures r.Ok? ==> (r.value.Some? <==> |fields| >= 8)
      ensures r.Ok? && r.value.Some? ==> (fresh(r.value.value)
        && r.value.value.Holds(BuiltSpan(mode, fields[0], ParseInt(fields[6]).value, ParseInt(fields[7]).value, ".")))
    {
      if |fields| < 8 {
        return Ok(None);
      }
      var thickStart := ParseInt(fields[6]);
      if thickStart.None? {
        return Err(Fault(ValueError, IntLiteralMessage(fields[6])));
      }
      var thickEnd := ParseInt(fields[7]);
      if thickEnd.None? {
        return Err(Fault(ValueError, IntLiteralMessage(fields[7])));
      }
      var thick := Interval.New(mode, fields[0], Num(thickStart.value), Num(thickEnd.value), ".");
      if thick.Err? {
        return Err(thick.fault);
      }
      return Ok(Some(thick.value));
    }

    /** `errors`: the record's own messages, then the interval's, then the thick
        interval's with "ThickInterval: " in front. The thick interval is tested
        by its truth value, which Python takes from `__len__` (its length): an
        empty thick interval contributes nothing, and a reversed one, or one
        longer than `sys.maxsize`, makes the test itself raise. */
    function ErrorList(): (r: Result<seq<string>>)
      reads interval, ThickFrame()
      ensures r.Err? <==> thickInterval.Some? && !(0 <= thickInterval.value.Length() <= MaxSize)
      ensures r.Err? && thickInterval.value.Length() < 0 ==> r.fault == Fault(ValueError, NegativeLengthMessage)
      ensures r.Err? && thickInterval.value.Length() > MaxSize ==> r.fault == Fault(OverflowError, LengthOverflowMessage)
      ensures r.Ok? ==> |r.value| == |ownErrors| + |interval.errors|
                                     + (if thickInterval.Some? && thickInterval.value.Length() > 0
                                        then |thickInterval.value.errors| else 0)
      ensures r.Ok? ==> r.value[..|ownErrors|] == ownErrors
      ensures r.Ok? ==> r.value[|ownErrors|..|ownErrors| + |interval.errors|] == interval.errors
      ensures r.Ok? ==> forall i :: |ownErrors| + |interval.errors| <= i < |r.value| ==>
        r.value[i] == ThickPrefix + thickInterval.value.errors[i - |ownErrors| - |interval.errors|]
    {
      var own := ownErrors + interval.errors;
      match thickInterval
      case None => Ok(own)
      case Some(thick) =>
        if thick.Length() > MaxSize then Err(Fault(OverflowError, LengthOverflowMessage))
        else if thick.Length() < 0 then Err(Fault(ValueError, NegativeLengthMessage))
        else if thick.Length() == 0 then Ok(own)
        else Ok(own + Prefixed(thick.errors))
    }

    /** The `errors` property as the source computes it, one append at a time. */
    method Errors() returns (r: Result<seq<string>>)
      ensures r == ErrorList()
    {
      var errorList: seq<string> := [];
      var i := 0;
      while i < |ownErrors|
        invariant 0 <= i <= |ownErrors|
        invariant errorList == ownErrors[..i]
      {
        errorList := errorList + [ownErrors[i]];
        i := i + 1;
      }
      assert ownErrors[..i] == ownErrors;
      var intervalErrors := interval.errors;
      i := 0;
      while i < |intervalErrors|
        invariant 0 <= i <= |intervalErrors|
        invariant errorList == ownErrors + intervalErrors[..i]
      {
        errorList := errorList + [intervalErrors[i]];
        i := i + 1;
      }
      assert intervalErrors[..i] == intervalErrors;
      if thickInterval.Some? {
        var thick := thickInterval.value;
        var length := thick.Length();
        if length > MaxSize {
          return Err(Fault(OverflowError, LengthOverflowMessage));
        }
        if length < 0 {
          return Err(Fault(ValueError, NegativeLengthMessage));
        }
        if length > 0 {
          var thickErrors := thick.errors;
          i := 0;
          while i < |thickErrors|
            invariant 0 <= i <= |thickErrors|
            invariant errorList == ownErrors + intervalErrors + Prefixed(thickErrors[..i])
          {
            assert Prefixed(thickErrors[..i + 1]) == Prefixed(thickErrors[..i]) + [ThickPrefix + thickErrors[i]];
            errorList := errorList + [ThickPrefix + thickErrors[i]];
            i := i + 1;
          }
          assert thickErrors[..i] == thickErrors;
        }
      }
      return Ok(errorList);
    }

    /** `nameOrElse`: the name column when the format has one (more than three
        columns), otherwise "contig_start_end". */
    function NameOrElse(): (r: string)
      reads interval
      ensures formatLength > 3 ==> r == name
    {
      if formatLength > 3 then name
      else interval.contig + "_" + IntToString(interval.start) + "_" + IntToString(interval.end)
    }

    /** The contig setter: plain assignment on the interval. */
    method SetContig(value: string)
      modifies interval
      ensures interval.contig == value
      ensures interval.start == old(interval.start) && interval.end == old(interval.end)
      ensures interval.strand == old(interval.strand) && interval.errors == old(interval.errors)
    {
      interval.SetContig(value);
    }

    /** The start setter: delegates to the interval's, so the interval ends
        in the state that setter promises and the same fault is raised. */
    method SetStart(mode: Mode, value: Coord) returns (raised: Option<Fault>)
      modifies interval
      ensures interval.contig == old(interval.contig) && interval.end == old(interval.end)
      ensures interval.strand == old(interval.strand)
      ensures CheckInt(value).None? && mode.Strict? ==>
        raised == Raise(NotIntegerMessage(value)) && unchanged(interval)
      ensures CheckInt(value).None? && mode.Accumulate? ==>
        raised == Some(Fault(TypeError, IntBeforeNoneMessage))
        && interval.start == old(interval.start) && interval.errors == old(interval.errors) + [NotIntegerMessage(value)]
      ensures CheckInt(value).Some? && mode.Strict? ==>
        var findings := StartSetterFindings(CheckInt(value).value, old(interval.end));
        if findings == [] then
          raised.None? && interval.start == CheckInt(value).value && interval.errors == old(interval.errors)
        else raised == Raise(findings[0]) && unchanged(interval)
      ensures CheckInt(value).Some? && mode.Accumulate? ==>
        raised.None? && interval.start == CheckInt(value).value
        && interval.errors == old(interval.errors) + StartSetterFindings(interval.start, interval.end)
    {
      raised := interval.SetStart(mode, value);
    }

    /** The end setter: delegates to the interval's. */
    method SetEnd(mode: Mode, value: Coord) returns (raised: Option<Fault>)
      modifies interval
      ensures interval.contig == old(interval.contig) && interval.start == old(interval.start)
      ensures interval.strand == old(interval.strand)
      ensures CheckInt(value).None? && mode.Strict? ==>
        raised == Raise(NotIntegerMessage(value)) && unchanged(interval)
      ensures CheckInt(value).None? && mode.Accumulate? ==>
        raised == Some(Fault(TypeError, NoneBeforeIntMessage))
        && interval.end == old(interval.end) && interval.errors == old(interval.errors) + [NotIntegerMessage(value)]
      ensures CheckInt(value).Some? && mode.Strict? ==>
        var findings := RelativeFindings(old(interval.start), CheckInt(value).value);
        if findings == [] then
          raised.None? && interval.end == CheckInt(value).value && interval.errors == old(interval.errors)
        else raised == Raise(findings[0]) && unchanged(interval)
      ensures CheckInt(value).Some? && mode.Accumulate? ==>
        raised.None? && interval.end == CheckInt(value).value
        && interval.errors == old(interval.errors) + RelativeFindings(interval.start, interval.end)
    {
      raised := interval.SetEnd(mode, value);
    }

    /** The strand setter: delegates to the interval's, which normalises. */
    method SetStrand(mode: Mode, value: string) returns (raised: Option<Fault>)
      modifies interval
      ensures interval.contig == old(interval.contig)
      ensures interval.start == old(interval.start) && interval.end == old(interval.end)
      ensures CheckStrandValue(value) == "" && mode.Strict? ==>
        raised == Raise(StrandMessage(value)) && unchanged(interval)
      ensures CheckStrandValue(value) == "" && mode.Accumulate? ==>
        raised.None? && interval.strand == "" && interval.errors == old(interval.errors) + [StrandMessage(value)]
      ensures CheckStrandValue(value) != "" ==>
        raised.None? && interval.strand == CheckStrandValue(value) && interval.errors == old(interval.errors)
    {
      raised := interval.SetStrand(mode, value);
    }
  }

  /** A generated name reads back as its parts: split at "_" it gives the
      contig and the two coordinates, which convert back to the integers. */
  lemma GeneratedNameParts(line: BEDLine)
    requires line.formatLength <= 3
    requires '_' !in line.interval.contig
    ensures var parts := Split(line.NameOrElse(), '_');
      |parts| == 3 && parts[0] == line.interval.contig
      && ParseInt(parts[1]) == Some(line.interval.start) && ParseInt(parts[2]) == Some(line.interval.end)
  {
    var contig, start, end := line.interval.contig, line.interval.start, line.interval.end;
    var parts := [contig, IntToString(start), IntToString(end)];
    IntToStringChars(start, '_');
    IntToStringChars(end, '_');
    assert Join(parts, '_') == line.NameOrElse() by {
      assert Join(parts[2..], '_') == IntToString(end);
      assert Join(parts[1..], '_') == IntToString(start) + "_" + IntToString(end);
    }
    SplitJoin(parts, '_');
    IntRoundTrip(start);
    IntRoundTrip(end);
  }
}
