/**
 * faidxReader.py: one record of a samtools `.fai` index (contig, base count,
 * offset of the first base, bases and bytes per line) and the reader of a
 * whole index.
 */
module FaidxReader {

  import opened Outcomes
  import opened Text
  import opened LineStreams

  datatype FastaIndexLine = FastaIndexLine(contig: string, baseLength: int, startByte: int,
                                           lineBases: int, lineBytes: int)

  /** `FastaIndexLine(...)` from the texts of the five columns: `__post_init__`
      runs `int()` on the four numeric fields in order and leaves the contig
      as given. */
  function FromColumns(contig: string, baseLength: string, startByte: string,
                       lineBases: string, lineBytes: string): (r: Result<FastaIndexLine>)
    ensures r.Ok? <==> ParseInt(baseLength).Some? && ParseInt(startByte).Some?
                       && ParseInt(lineBases).Some? && ParseInt(lineBytes).Some?
    ensures r.Ok? ==> r.value == FastaIndexLine(contig, ParseInt(baseLength).value, ParseInt(startByte).value,
                                                ParseInt(lineBases).value, ParseInt(lineBytes).value)
    ensures r.Err? ==> r.fault.kind == ValueError
  {
    if ParseInt(baseLength).None? then Err(Fault(ValueError, IntLiteralMessage(baseLength)))
    else if ParseInt(startByte).None? then Err(Fault(ValueError, IntLiteralMessage(startByte)))
    else if ParseInt(lineBases).None? then Err(Fault(ValueError, IntLiteralMessage(lineBases)))
    else if ParseInt(lineBytes).None? then Err(Fault(ValueError, IntLiteralMessage(lineBytes)))
    else Ok(FastaIndexLine(contig, ParseInt(baseLength).value, ParseInt(startByte).value,
                           ParseInt(lineBases).value, ParseInt(lineBytes).value))
  }

  /** Python's `a // b`: the quotient rounded towards minus infinity. */
  function FloorDiv(a: int, b: int): int
    requires b != 0
  {
    if b > 0 then a / b else (-a) / (-b)
  }

  /** Python's `a % b`: the remainder that goes with `//`, of the sign of b. */
  function FloorMod(a: int, b: int): (r: int)
    requires b != 0
    ensures a == FloorDiv(a, b) * b + r
    ensures b > 0 ==> 0 <= r < b
    ensures b < 0 ==> b < r <= 0
  {
    a - FloorDiv(a, b) * b
  }

  const DivisionByZeroMessage := "integer division or modulo by zero"

  /** `byteLength`: the bytes of the full lines plus the bases of the last,
      unterminated one; a record with no bases per line raises. */
  function ByteLength(x: FastaIndexLine): (r: Result<int>)
    ensures r.Err? <==> x.lineBases == 0
    ensures r.Err? ==> r.fault == Fault(ZeroDivisionError, DivisionByZeroMessage)
  {
    if x.lineBases == 0 then Err(Fault(ZeroDivisionError, DivisionByZeroMessage))
    else
      var totalLines := FloorDiv(x.baseLength, x.lineBases);
      var lastLineLength := FloorMod(x.baseLength, x.lineBases);
      Ok(totalLines * x.lineBytes + lastLineLength)
  }

  /** A contig laid out as `fullLines` lines of `lineBases` bases, each taking
      `lineBytes` bytes, then `rest` more bases: its byte length counts every
      full line's bytes and the bases of the last. */
  lemma ByteLengthOfLayout(x: FastaIndexLine, fullLines: nat, rest: nat)
    requires x.lineBases > 0 && rest < x.lineBases
    requires x.baseLength == fullLines * x.lineBases + rest
    ensures ByteLength(x) == Ok(fullLines * x.lineBytes + rest)
  {
    var w := x.lineBases;
    DivisionOfLayout(fullLines, w, rest);
  }

  lemma DivisionOfLayout(n: nat, w: int, rest: nat)
    requires w > 0 && rest < w
    ensures (n * w + rest) / w == n && (n * w + rest) % w == rest
  {
    var a := n * w + rest;
    var q, m := a / w, a % w;
    var d := q - n;
    assert d * w == rest - m by {
      assert a == q * w + m;
      assert d * w == q * w - n * w;
    }
    ScaledAway(d, w);
  }

  /** A non-zero multiple of w is at least w away from zero. */
  lemma {:induction false} ScaledAway(d: int, w: int)
    decreases if d < 0 then -d else d
    requires w > 0
    ensures d >= 1 ==> d * w >= w
    ensures d <= -1 ==> d * w <= -w
  {
    if d > 1 {
      ScaledAway(d - 1, w);
      assert d * w == (d - 1) * w + w;
    } else if d < -1 {
      ScaledAway(d + 1, w);
      assert d * w == (d + 1) * w - w;
    }
  }

  /** When a line takes no more bytes than it has bases, the byte length is
      the base length. */
  lemma ByteLengthWithoutTerminators(x: FastaIndexLine)
    requires x.lineBases > 0 && x.lineBytes == x.lineBases
    ensures ByteLength(x) == Ok(x.baseLength)
  {
  }

  /** `picardString`: the `@SQ` header line naming the contig and its length. */
  function PicardString(x: FastaIndexLine): string {
    Join(["@SQ", "SN:" + x.contig, "LN:" + IntToString(x.baseLength)], '\t')
  }

  /** The Picard line reads back: its tab-separated fields are the `@SQ`
      marker and the two tagged values, and dropping each tag gives the
      contig and, converted, the base length. */
  lemma PicardStringFields(x: FastaIndexLine)
    requires '\t' !in x.contig
    ensures var fields := Split(PicardString(x), '\t');
      && fields == ["@SQ", "SN:" + x.contig, "LN:" + IntToString(x.baseLength)]
      && fields[1][3..] == x.contig
      && ParseInt(fields[2][3..]) == Some(x.baseLength)
  {
    var length := IntToString(x.baseLength);
    var sn, ln := "SN:" + x.contig, "LN:" + length;
    var parts := ["@SQ", sn, ln];
    assert Split(PicardString(x), '\t') == parts by {
      IntToStringChars(x.baseLength, '\t');
      TagKeepsNoTab("SN:", x.contig);
      TagKeepsNoTab("LN:", length);
      assert forall k :: 0 <= k < |parts| ==> '\t' !in parts[k];
      SplitJoin(parts, '\t');
    }
    assert sn[3..] == x.contig;
    assert ParseInt(ln[3..]) == Some(x.baseLength) by {
      assert ln[3..] == length;
      IntRoundTrip(x.baseLength);
    }
  }

  lemma TagKeepsNoTab(tag: string, value: string)
    requires '\t' !in tag && '\t' !in value
    ensures '\t' !in tag + value
  {
  }

  /** What one line of an index gives: nothing when blank, otherwise exactly
      five tab-separated columns made into a record. */
  function IndexEntry(line: string): (r: Option<Result<FastaIndexLine>>)
    ensures r.None? <==> Strip(line) == []
  {
    var stripped := Strip(line);
    if stripped == [] then None
    else
      var columns := Split(stripped, '\t');
      if |columns| != 5 then Some(Err(Fault(ValueError, UnpackMessage(5, |columns|))))
      else Some(FromColumns(columns[0], columns[1], columns[2], columns[3], columns[4]))
  }

  /** `processFaidxStream`: the records of the non-blank lines, in order, or
      the ValueError of the first line that is not a well-formed record. */
  method ProcessFaidxStream(lines: seq<string>) returns (r: Result<seq<FastaIndexLine>>)
    ensures r == Collect(IndexEntry, lines)
  {
    var faidxList: seq<FastaIndexLine> := [];
    var i := 0;
    while i < |lines|
      invariant 0 <= i <= |lines|
      invariant Collect(IndexEntry, lines[..i]) == Ok(faidxList)
    {
      CollectStep(IndexEntry, lines, i);
      var line := Strip(lines[i]);
      if line == [] {
        i := i + 1;
        continue;
      }
      var lineList := Split(line, '\t');
      if |lineList| != 5 {
        CollectStops(IndexEntry, lines, i + 1);
        return Err(Fault(ValueError, UnpackMessage(5, |lineList|)));
      }
      var record := FromColumns(lineList[0], lineList[1], lineList[2], lineList[3], lineList[4]);
      if record.Err? {
        CollectStops(IndexEntry, lines, i + 1);
        return Err(record.fault);
      }
      faidxList := faidxList + [record.value];
      i := i + 1;
    }
    CollectAll(IndexEntry, lines);
    return Ok(faidxList);
  }

  /** An index reads without error exactly when every non-blank line is a
      record; the records then come one per non-blank line, in order. */
  lemma IndexRecordsPerLine(lines: seq<string>)
    ensures Collect(IndexEntry, lines).Ok? <==> NoFailure(Chosen(IndexEntry, lines))
    ensures Collect(IndexEntry, lines).Ok? ==> Collect(IndexEntry, lines).value == Values(Chosen(IndexEntry, lines))
  {
    CollectMeaning(IndexEntry, lines);
  }

  /** The line "chr1\t100\t6\t60\t61" reads as that record. */
  lemma IndexEntryExample()
    ensures IndexEntry("chr1\t100\t6\t60\t61\n") == Some(Ok(FastaIndexLine("chr1", 100, 6, 60, 61)))
  {
    ExampleLineStripped();
    ExampleLineColumns();
    ExampleNumbers();
  }

  lemma ExampleLineStripped()
    ensures Strip("chr1\t100\t6\t60\t61\n") == "chr1\t100\t6\t60\t61"
  {
    var line := "chr1\t100\t6\t60\t61";
    assert RStrip(line + "\n") == line by {
      assert (line + "\n")[..|line|] == line;
    }
  }

  lemma ExampleLineColumns()
    ensures Split("chr1\t100\t6\t60\t61", '\t') == ["chr1", "100", "6", "60", "61"]
  {
    var parts := ["chr1", "100", "6", "60", "61"];
    assert Join(parts, '\t') == "chr1\t100\t6\t60\t61";
    SplitJoin(parts, '\t');
  }

  lemma ExampleNumbers()
    ensures ParseInt("100") == Some(100) && ParseInt("6") == Some(6)
    ensures ParseInt("60") == Some(60) && ParseInt("61") == Some(61)
  {
    assert NatToString(100) == "100" by {
      assert NatToString(10) == "10" by { assert NatToString(1) == "1"; }
    }
    IntRoundTrip(100);
    assert NatToString(6) == "6";
    IntRoundTrip(6);
    assert NatToString(60) == "60";
    IntRoundTrip(60);
    assert NatToString(61) == "61";
    IntRoundTrip(61);
  }
}
