/**
 * The half-open genomic interval of bedReader.py: a contig, a zero-based
 * inclusive start, an exclusive end and a strand, with the validation its
 * constructor and setters run. The module-global VALIDATIONRUN flag becomes
 * an explicit `Mode`: `Strict` raises, `Accumulate` appends to `errors`.
 */
module Intervals {

  import opened Outcomes
  import opened Text

  /** The two validation disciplines (VALIDATIONRUN false / true). */
  datatype Mode = Strict | Accumulate

  /** A coordinate as handed to the constructor or a setter: a Python int or
      the text of a BED column. */
  datatype Coord = Num(n: int) | Str(text: string)

  /** `checkInt` without its side effects: the integer, or None when `int()` fails. */
  function CheckInt(c: Coord): Option<int> {
    match c
    case Num(n) => Some(n)
    case Str(t) => ParseInt(t)
  }

  /** `"%s" % value` for a coordinate. */
  function CoordText(c: Coord): string {
    match c
    case Num(n) => IntToString(n)
    case Str(t) => t
  }

  // The messages the interval produces, as the source formats them.

  /** The fixed text is kept in two pieces: the verifier reads the first
      character of a short literal far more cheaply than of a long one. */
  function StrandMessage(strand: string): string {
    "Valid strand values " + "include +, -, and . only. " + strand + " is not a valid strand value."
  }

  function NegativeStartMessage(start: int): string {
    "Start value of " + IntToString(start) + " is less than zero"
  }

  function AfterEndMessage(start: int, end: int): string {
    "Given start value for interval of " + IntToString(start) + " that was AFTER end value of " + IntToString(end)
  }

  function EmptyIntervalMessage(start: int): string {
    "Start and end values of " + IntToString(start) + " are equal, specifying an interval of no length."
  }

  function NotIntegerMessage(c: Coord): string {
    CoordText(c) + " was given where an integer belongs"
  }

  /** What Python says when a failed `checkInt` (None) is compared with an int. */
  const NoneBeforeIntMessage := "'<' not supported between instances of 'NoneType' and 'int'"
  const IntBeforeNoneMessage := "'<' not supported between instances of 'int' and 'NoneType'"

  /** Python's `s in t` on strings: s occurs in t as a contiguous piece
      (the empty string occurs everywhere). */
  predicate IsSubstring(s: string, t: string) {
    s <= t || (t != [] && IsSubstring(s, t[1..]))
  }

  /** `checkStrandValue`: "+/-" is read as ".", any piece of "+-." is returned
      as it is, and "" signals an invalid strand. Because the test is a
      substring test, "+-", "-." and "+-." are accepted too, while "" is not. */
  function CheckStrandValue(strand: string): (r: string)
    ensures r != [] <==> strand in {"+/-", "+", "-", ".", "+-", "-.", "+-."}
    ensures r != [] ==> r == (if strand == "+/-" then "." else strand)
  {
    var s := if strand == "+/-" then "." else strand;
    PieceOfStrandAlphabet(s);
    if IsSubstring(s, "+-.") then s else ""
  }

  lemma PieceOfStrandAlphabet(s: string)
    ensures IsSubstring(s, "+-.") <==> s in {"", "+", "-", ".", "+-", "-.", "+-."}
  {
    assert "+-."[1..] == "-.";
    assert "-."[1..] == ".";
    assert "."[1..] == "";
    assert IsSubstring(s, "") <==> s == "";
    assert IsSubstring(s, ".") <==> s <= "." || s == "";
    assert IsSubstring(s, "-.") <==> s <= "-." || s <= "." || s == "";
    assert IsSubstring(s, "+-.") <==> s <= "+-." || s <= "-." || s <= "." || s == "";
    if s <= "+-." && |s| >= 1 {
      assert s[0] == '+';
      if |s| == 1 { assert s == "+"; }
      if |s| >= 2 { assert s[1] == '-'; }
      if |s| == 2 { assert s == "+-"; }
      if |s| == 3 { assert s[2] == '.'; assert s == "+-."; }
    }
    if s <= "-." && |s| >= 1 {
      assert s[0] == '-';
      if |s| == 1 { assert s == "-"; }
      if |s| == 2 { assert s[1] == '.'; assert s == "-."; }
    }
    if s <= "." && |s| >= 1 {
      assert s[0] == '.';
      assert s == ".";
    }
  }

  /** The bound checks of `validateStartAndEndRelativePositions`. */
  function RelativeFindings(start: int, end: int): seq<string> {
    (if end < start then [AfterEndMessage(start, end)] else [])
    + (if start == end then [EmptyIntervalMessage(start)] else [])
  }

  /** Every message that constructing an interval with integer coordinates
      produces, in the order `__post_init__` checks: strand, negative start,
      then the relative position of start and end. Each violated rule gives
      exactly one message and no message is given for a rule that holds. */
  function ConstructionFindings(start: int, end: int, strand: string): (r: seq<string>)
    ensures r == [] <==> 0 <= start < end && CheckStrandValue(strand) != ""
  {
    (if CheckStrandValue(strand) == "" then [StrandMessage(strand)] else [])
    + (if start < 0 then [NegativeStartMessage(start)] else [])
    + RelativeFindings(start, end)
  }

  /** One message per violated rule: the count of messages is the number of
      broken rules, and each rule's message is present exactly when it is broken.
      In particular end < start gives one "AFTER end" message and end == start
      one "equal" message. */
  lemma ConstructionFindingsExact(start: int, end: int, strand: string)
    ensures var r := ConstructionFindings(start, end, strand);
      && |r| == (if CheckStrandValue(strand) == "" then 1 else 0)
                + (if start < 0 then 1 else 0) + (if end <= start then 1 else 0)
      && (StrandMessage(strand) in r <==> CheckStrandValue(strand) == "")
      && (NegativeStartMessage(start) in r <==> start < 0)
      && (AfterEndMessage(start, end) in r <==> end < start)
      && (EmptyIntervalMessage(start) in r <==> end == start)
  {
    MessagesDiffer(start, end, strand);
    var a, b := StrandMessage(strand), NegativeStartMessage(start);
    var c, d := AfterEndMessage(start, end), EmptyIntervalMessage(start);
    var pa, pb, pc, pd := CheckStrandValue(strand) == "", start < 0, end < start, start == end;
    assert ConstructionFindings(start, end, strand) == Present(a, pa) + Present(b, pb) + Present(c, pc) + Present(d, pd);
    PresentExact(a, pa, b, pb, c, pc, d, pd);
  }

  /** `[m]` when the rule is broken, nothing otherwise. */
  function Present(m: string, broken: bool): seq<string> {
    if broken then [m] else []
  }

  /** Four different messages, each added exactly when its rule is broken. */
  lemma PresentExact(a: string, pa: bool, b: string, pb: bool, c: string, pc: bool, d: string, pd: bool)
    requires a != b && a != c && a != d && b != c && b != d && c != d
    ensures var r := Present(a, pa) + Present(b, pb) + Present(c, pc) + Present(d, pd);
      && |r| == (if pa then 1 else 0) + (if pb then 1 else 0) + (if pc then 1 else 0) + (if pd then 1 else 0)
      && (a in r <==> pa) && (b in r <==> pb) && (c in r <==> pc) && (d in r <==> pd)
  {
  }

  /** The four kinds of message can be told apart by their opening words. */
  lemma MessagesDiffer(start: int, end: int, strand: string)
    ensures StrandMessage(strand) != NegativeStartMessage(start)
    ensures StrandMessage(strand) != AfterEndMessage(start, end)
    ensures StrandMessage(strand) != EmptyIntervalMessage(start)
    ensures NegativeStartMessage(start) != AfterEndMessage(start, end)
    ensures NegativeStartMessage(start) != EmptyIntervalMessage(start)
    ensures AfterEndMessage(start, end) != EmptyIntervalMessage(start)
  {
    StrandMessageHead(strand);
    NegativeStartMessageHead(start);
    AfterEndMessageHead(start, end);
    EmptyIntervalMessageHead(start);
  }

  lemma StrandMessageHead(strand: string)
    ensures |StrandMessage(strand)| > 6 && StrandMessage(strand)[0] == 'V'
  {
    var m := StrandMessage(strand);
    assert m[0] == ("Valid strand values " + "include +, -, and . only. ")[0];
  }

  lemma NegativeStartMessageHead(start: int)
    ensures |NegativeStartMessage(start)| > 6
    ensures NegativeStartMessage(start)[0] == 'S' && NegativeStartMessage(start)[6] == 'v'
  {
    var p := "Start value of ";
    assert NegativeStartMessage(start)[0] == p[0] && NegativeStartMessage(start)[6] == p[6];
  }

  lemma AfterEndMessageHead(start: int, end: int)
    ensures |AfterEndMessage(start, end)| > 6 && AfterEndMessage(start, end)[0] == 'G'
  {
    var p := "Given start value for interval of ";
    assert AfterEndMessage(start, end)[0] == p[0];
  }

  lemma EmptyIntervalMessageHead(start: int)
    ensures |EmptyIntervalMessage(start)| > 6
    ensures EmptyIntervalMessage(start)[0] == 'S' && EmptyIntervalMessage(start)[6] == 'a'
  {
    var p := "Start and end values of ";
    assert EmptyIntervalMessage(start)[0] == p[0] && EmptyIntervalMessage(start)[6] == p[6];
  }

  /** The exception constructing an interval raises, if any. Strict mode raises
      the first violation it meets; accumulate mode records every violation but
      still fails on a coordinate that is not an integer, because the `None`
      that `checkInt` then returns is compared with an int. */
  function ConstructionFault(mode: Mode, start: Coord, end: Coord, strand: string): (r: Option<Fault>)
    ensures r.None? <==> CheckInt(start).Some? && CheckInt(end).Some?
                         && (mode.Strict? ==> ConstructionFindings(CheckInt(start).value, CheckInt(end).value, strand) == [])
    ensures r.Some? && mode.Accumulate? ==> r.value == Fault(TypeError, NoneBeforeIntMessage)
  {
    if mode.Accumulate? then
      if CheckInt(start).None? || CheckInt(end).None? then Some(Fault(TypeError, NoneBeforeIntMessage)) else None
    else if CheckInt(start).None? then Some(Fault(GenomicIntervalError, NotIntegerMessage(start)))
    else if CheckInt(end).None? then Some(Fault(GenomicIntervalError, NotIntegerMessage(end)))
    else
      var findings := ConstructionFindings(CheckInt(start).value, CheckInt(end).value, strand);
      if findings == [] then None else Some(Fault(GenomicIntervalError, findings[0]))
  }

  /** The messages the `start` setter produces for an integer value: the
      relative checks come first here, the negative-start check last. */
  function StartSetterFindings(start: int, end: int): (r: seq<string>)
    ensures r == [] <==> 0 <= start < end
  {
    RelativeFindings(start, end) + (if start < 0 then [NegativeStartMessage(start)] else [])
  }

  /** A strict-mode raise, or the message an accumulate-mode append records. */
  function Raise(message: string): Option<Fault> {
    Some(Fault(GenomicIntervalError, message))
  }

  /** Base b lies in the half-open range [start, end). */
  predicate Covers(start: int, end: int, b: int) {
    start <= b < end
  }

  /** The state of an interval, as a value. */
  datatype Span = Span(contig: string, start: int, end: int, strand: string, errors: seq<string>)

  /** The state construction builds from integer coordinates: the messages
      are recorded in accumulate mode only. */
  function BuiltSpan(mode: Mode, contig: string, start: int, end: int, strand: string): Span {
    Span(contig, start, end, strand, if mode.Strict? then [] else ConstructionFindings(start, end, strand))
  }

  class Interval {
    var contig: string
    var start: int
    var end: int
    /** The strand as given to the constructor; only the setter normalises it. */
    var strand: string
    /** The messages recorded in accumulate mode, oldest first. */
    var errors: seq<string>

    constructor Init(contig: string, start: int, end: int, strand: string, errors: seq<string>)
      ensures this.contig == contig && this.start == start && this.end == end
      ensures this.strand == strand && this.errors == errors
    {
      this.contig := contig;
      this.start := start;
      this.end := end;
      this.strand := strand;
      this.errors := errors;
    }

    /** This interval is currently in state `s`. */
    predicate Holds(s: Span)
      reads this
    {
      contig == s.contig && start == s.start && end == s.end && strand == s.strand && errors == s.errors
    }

    /** `Interval(contig, start, end, strand)` with `__post_init__`. In strict mode
        a constructed interval has no errors and satisfies every invariant; in
        accumulate mode it keeps the values as given and records one message per
        violated rule. The raw strand is kept even when it is "+/-". */
    static method New(mode: Mode, contig: string, start: Coord, end: Coord, strand: string)
      returns (r: Result<Interval>)
      ensures r.Err? <==> ConstructionFault(mode, start, end, strand).Some?
      ensures r.Err? ==> r.fault == ConstructionFault(mode, start, end, strand).value
      ensures r.Ok? ==> (fresh(r.value)
        && r.value.Holds(BuiltSpan(mode, contig, CheckInt(start).value, CheckInt(end).value, strand)))
    {
      var fault := ConstructionFault(mode, start, end, strand);
      if fault.Some? {
        return Err(fault.value);
      }
      var s := CheckInt(start).value;
      var e := CheckInt(end).value;
      var errors := if mode.Strict? then [] else ConstructionFindings(s, e, strand);
      var interval := new Interval.Init(contig, s, e, strand, errors);
      return Ok(interval);
    }

    /** The `start` setter. An integer value is stored unless strict mode raises
        on it; a non-integer one is never stored: strict mode raises at once,
        accumulate mode records the message and then fails comparing `end` with
        `None`. */
    method SetStart(mode: Mode, value: Coord) returns (raised: Option<Fault>)
      modifies this
      ensures contig == old(contig) && end == old(end) && strand == old(strand)
      ensures CheckInt(value).None? && mode.Strict? ==>
        raised == Raise(NotIntegerMessage(value)) && unchanged(this)
      ensures CheckInt(value).None? && mode.Accumulate? ==>
        raised == Some(Fault(TypeError, IntBeforeNoneMessage))
        && start == old(start) && errors == old(errors) + [NotIntegerMessage(value)]
      ensures CheckInt(value).Some? && mode.Strict? ==>
        var findings := StartSetterFindings(CheckInt(value).value, old(end));
        if findings == [] then raised.None? && start == CheckInt(value).value && errors == old(errors)
        else raised == Raise(findings[0]) && unchanged(this)
      ensures CheckInt(value).Some? && mode.Accumulate? ==>
        raised.None? && start == CheckInt(value).value
        && errors == old(errors) + StartSetterFindings(start, end)
    {
      var s := CheckInt(value);
      if s.None? {
        if mode.Strict? { return Raise(NotIntegerMessage(value)); }
        errors := errors + [NotIntegerMessage(value)];
        return Some(Fault(TypeError, IntBeforeNoneMessage));
      }
      var found := StartSetterFindings(s.value, end);
      if mode.Strict? && found != [] {
        return Raise(found[0]);
      }
      errors := errors + found;
      start := s.value;
      return None;
    }

    /** The `end` setter: like `start`, with only the relative checks. */
    method SetEnd(mode: Mode, value: Coord) returns (raised: Option<Fault>)
      modifies this
      ensures contig == old(contig) && start == old(start) && strand == old(strand)
      ensures CheckInt(value).None? && mode.Strict? ==>
        raised == Raise(NotIntegerMessage(value)) && unchanged(this)
      ensures CheckInt(value).None? && mode.Accumulate? ==>
        raised == Some(Fault(TypeError, NoneBeforeIntMessage))
        && end == old(end) && errors == old(errors) + [NotIntegerMessage(value)]
      ensures CheckInt(value).Some? && mode.Strict? ==>
        var findings := RelativeFindings(old(start), CheckInt(value).value);
        if findings == [] then raised.None? && end == CheckInt(value).value && errors == old(errors)
        else raised == Raise(findings[0]) && unchanged(this)
      ensures CheckInt(value).Some? && mode.Accumulate? ==>
        raised.None? && end == CheckInt(value).value
        && errors == old(errors) + RelativeFindings(start, end)
    {
      var e := CheckInt(value);
      if e.None? {
        if mode.Strict? { return Raise(NotIntegerMessage(value)); }
        errors := errors + [NotIntegerMessage(value)];
        return Some(Fault(TypeError, NoneBeforeIntMessage));
      }
      var found := RelativeFindings(start, e.value);
      if mode.Strict? && found != [] {
        return Raise(found[0]);
      }
      errors := errors + found;
      end := e.value;
      return None;
    }

    /** The `strand` setter: unlike the constructor it stores the normalised
        value, and in accumulate mode it stores "" for an invalid strand. */
    method SetStrand(mode: Mode, value: string) returns (raised: Option<Fault>)
      modifies this
      ensures contig == old(contig) && start == old(start) && end == old(end)
      ensures CheckStrandValue(value) == "" && mode.Strict? ==>
        raised == Raise(StrandMessage(value)) && unchanged(this)
      ensures CheckStrandValue(value) == "" && mode.Accumulate? ==>
        raised.None? && strand == "" && errors == old(errors) + [StrandMessage(value)]
      ensures CheckStrandValue(value) != "" ==>
        raised.None? && strand == CheckStrandValue(value) && errors == old(errors)
    {
      var validated := CheckStrandValue(value);
      if validated == "" {
        if mode.Strict? { return Raise(StrandMessage(value)); }
        errors := errors + [StrandMessage(value)];
      }
      strand := validated;
      return None;
    }

    /** Plain assignment to the `contig` attribute: no validation. */
    method SetContig(value: string)
      modifies this
      ensures contig == value
      ensures start == old(start) && end == old(end) && strand == old(strand) && errors == old(errors)
    {
      contig := value;
    }

    /** `length`: the number of bases, end - start. */
    function Length(): int
      reads this
    {
      end - start
    }

    /** `lastIncludedBase`: the closed upper bound, end - 1. */
    function LastIncludedBase(): int
      reads this
    {
      end - 1
    }

    /** `overlaps`: same contig and the closed ranges [start, lastIncludedBase]
        meet. For two non-empty intervals that is exactly "they share a base". */
    function Overlaps(other: Interval): (r: bool)
      reads this, other
      ensures r ==> contig == other.contig
      ensures start < end && other.start < other.end ==>
        (r <==> contig == other.contig
                && exists b :: Covers(start, end, b) && Covers(other.start, other.end, b))
    {
      if contig != other.contig then false
      else if other.LastIncludedBase() < start then false
      else if LastIncludedBase() < other.start then false
      else
        var b := if start < other.start then other.start else start;
        assert start < end && other.start < other.end ==> Covers(start, end, b) && Covers(other.start, other.end, b);
        true
    }

    /** `__contains__` (and `contains`): same contig and this closed range
        encloses the other's. For a non-empty other interval that is exactly
        "every base of other is a base of this". */
    function Contains(other: Interval): (r: bool)
      reads this, other
      ensures r ==> contig == other.contig
      ensures other.start < other.end ==>
        (r <==> contig == other.contig
                && forall b :: Covers(other.start, other.end, b) ==> Covers(start, end, b))
    {
      if contig != other.contig then false
      else
        assert other.start < other.end && (forall b :: Covers(other.start, other.end, b) ==> Covers(start, end, b))
          ==> Covers(start, end, other.start) && Covers(start, end, other.end - 1);
        start <= other.start && LastIncludedBase() >= other.LastIncludedBase()
    }

    /** `containedBy`: `self in other`. */
    function ContainedBy(other: Interval): (r: bool)
      reads this, other
      ensures r == other.Contains(this)
    {
      other.Contains(this)
    }

    /** `__str__`: "contig:start-end" followed by the strand when the strand is
        a piece of "+-" (so "." shows nothing). */
    function ToString(): string
      reads this
    {
      contig + ":" + IntToString(start) + "-" + IntToString(end)
      + (if IsSubstring(strand, "+-") then strand else "")
    }
  }

  /** Overlap does not depend on which interval asks. */
  lemma OverlapsSymmetric(a: Interval, b: Interval)
    ensures a.Overlaps(b) == b.Overlaps(a)
  {
  }

  /** A non-empty interval inside another one overlaps it. */
  lemma ContainmentImpliesOverlap(a: Interval, b: Interval)
    requires a.start < a.end && b.start < b.end
    requires a.Contains(b)
    ensures a.Overlaps(b) && b.Overlaps(a)
  {
  }

  /** Containment is transitive. */
  lemma ContainsTransitive(a: Interval, b: Interval, c: Interval)
    requires a.Contains(b) && b.Contains(c)
    ensures a.Contains(c)
  {
  }

  /** Integer bounds 0 <= start < end and a strand of "+", "-" or ".": in
      either mode construction does not raise, and the interval it builds
      has no messages, reads its bounds back and has `end - start` bases,
      the last at `end - 1`. */
  lemma ValidConstruction(mode: Mode, iv: Interval, contig: string, start: int, end: int, strand: string)
    requires 0 <= start < end && strand in {"+", "-", "."}
    requires iv.Holds(BuiltSpan(mode, contig, start, end, strand))
    ensures ConstructionFault(mode, Num(start), Num(end), strand).None?
    ensures iv.errors == [] && iv.start == start && iv.end == end && iv.strand == strand
    ensures iv.Length() == end - start > 0 && iv.LastIncludedBase() == end - 1
  {
    assert CheckStrandValue(strand) != "";
  }

  /** chr1:10-20 overlaps chr1:15-25 but not chr1:20-30 (ends are exclusive)
      nor chr2:10-20 (another contig). */
  lemma OverlapExamples(a: Interval, b: Interval, c: Interval, d: Interval)
    requires a.contig == "chr1" && a.start == 10 && a.end == 20
    requires b.contig == "chr1" && b.start == 15 && b.end == 25
    requires c.contig == "chr1" && c.start == 20 && c.end == 30
    requires d.contig == "chr2" && d.start == 10 && d.end == 20
    ensures a.Overlaps(b) && !a.Overlaps(c) && !a.Overlaps(d)
  {
  }
}
