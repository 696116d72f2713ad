/**
 * fastaDictReader.py: one `@SQ` record of a sequence dictionary (section 1.3
 * of the SAM format specification, SAMv1: tags SN, LN, M5 and UR) and the
 * reader of a whole dictionary.
 */
module FastaDictReader {

  import opened Outcomes
  import opened Text
  import opened LineStreams

  datatype FastaDictLine = FastaDictLine(contig: string, byteLength: int, md5Hash: string, uri: string)

  /** `stripDictFieldPrefix`: the value without its three-character tag
      ("SN:", "LN:", ...); nothing is left of a shorter value. */
  function StripDictFieldPrefix(value: string): (r: string)
    ensures |value| >= 3 ==> value == value[..3] + r
    ensures |value| < 3 ==> r == []
  {
    if |value| >= 3 then value[3..] else []
  }

  const Marker := "@SQ"

  /** The fields after the marker with their tags dropped, and "" added for
      a missing URI. */
  function TagValues(fields: seq<string>): (r: seq<string>)
    ensures |r| == if |fields| == 3 then 4 else |fields|
  {
    var values := seq(|fields|, k requires 0 <= k < |fields| => StripDictFieldPrefix(fields[k]));
    if |values| == 3 then values + [""] else values
  }

  /** `contig, byteLength, md5Hash, uri = lineList` and `FastaDictLine(...)`,
      whose `__post_init__` runs `int()` on the length: a ValueError for the
      wrong number of values or a length that is not an integer. */
  function FromValues(values: seq<string>): (r: Result<FastaDictLine>)
    ensures r.Ok? <==> |values| == 4 && ParseInt(values[1]).Some?
    ensures r.Ok? ==> r.value == FastaDictLine(values[0], ParseInt(values[1]).value, values[2], values[3])
    ensures r.Err? ==> r.fault.kind == ValueError
  {
    if |values| != 4 then Err(Fault(ValueError, UnpackMessage(4, |values|)))
    else if ParseInt(values[1]).None? then Err(Fault(ValueError, IntLiteralMessage(values[1])))
    else Ok(FastaDictLine(values[0], ParseInt(values[1]).value, values[2], values[3]))
  }

  /** What one line of a dictionary gives: nothing for a blank line or a line
      that is not an `@SQ` record; otherwise the record made of the fields
      after the marker, with their tags dropped. */
  function DictEntry(line: string): (r: Option<Result<FastaDictLine>>)
    ensures r.None? <==> !(Marker <= Strip(line))
  {
    var stripped := Strip(line);
    if stripped == [] || !(Marker <= stripped) then None
    else Some(FromValues(TagValues(Split(stripped, '\t')[1..])))
  }

  /** `processDictStream`: the records of the `@SQ` lines, in order, or the
      ValueError of the first malformed one. */
  method ProcessDictStream(lines: seq<string>) returns (r: Result<seq<FastaDictLine>>)
    ensures r == Collect(DictEntry, lines)
  {
    var dictList: seq<FastaDictLine> := [];
    var i := 0;
    while i < |lines|
      invariant 0 <= i <= |lines|
      invariant Collect(DictEntry, lines[..i]) == Ok(dictList)
    {
      CollectStep(DictEntry, lines, i);
      var line := Strip(lines[i]);
      if line == [] || !(Marker <= line) {
        i := i + 1;
        continue;
      }
      var fields := Split(line, '\t')[1..];
      var lineList := seq(|fields|, k requires 0 <= k < |fields| => StripDictFieldPrefix(fields[k]));
      if |lineList| == 3 {
        lineList := lineList + [""];
      }
      var record := FromValues(lineList);
      if record.Err? {
        CollectStops(DictEntry, lines, i + 1);
        return Err(record.fault);
      }
      dictList := dictList + [record.value];
      i := i + 1;
    }
    CollectAll(DictEntry, lines);
    return Ok(dictList);
  }

  /** A dictionary reads without error exactly when every `@SQ` line is a
      well-formed record; the records then come one per `@SQ` line, in order,
      and every other line is ignored. */
  lemma DictRecordsPerLine(lines: seq<string>)
    ensures Collect(DictEntry, lines).Ok? <==> NoFailure(Chosen(DictEntry, lines))
    ensures Collect(DictEntry, lines).Ok? ==> Collect(DictEntry, lines).value == Values(Chosen(DictEntry, lines))
  {
    CollectMeaning(DictEntry, lines);
  }

  /** How many fields follow the marker decides the record: three give an
      empty URI, four give the fourth field (tag dropped) as URI, any other
      number raises. */
  lemma FieldCountDecides(line: string)
    requires Marker <= Strip(line)
    ensures var fields := Split(Strip(line), '\t')[1..];
      var r := DictEntry(line).value;
      && (|fields| != 3 && |fields| != 4 ==> r == Err(Fault(ValueError, UnpackMessage(4, |fields|))))
      && (|fields| == 3 && r.Ok? ==> r.value.uri == [])
      && (|fields| == 4 && r.Ok? ==> r.value.uri == StripDictFieldPrefix(fields[3]))
      && ((|fields| == 3 || |fields| == 4) ==>
            (r.Ok? <==> ParseInt(StripDictFieldPrefix(fields[1])).Some?))
  {
    var fields := Split(Strip(line), '\t')[1..];
    assert Split(Strip(line), '\t') != [];
  }

  /** The tagged fields of a dictionary record's line, in order; the URI tag
      only when `withUri`. */
  function RecordTail(x: FastaDictLine, withUri: bool): seq<string> {
    ["SN:" + x.contig, "LN:" + IntToString(x.byteLength), "M5:" + x.md5Hash]
    + (if withUri then ["UR:" + x.uri] else [])
  }

  /** The line of a dictionary record: the marker, then the tagged fields. */
  function RecordLine(x: FastaDictLine, withUri: bool): string {
    Join([Marker] + RecordTail(x, withUri), '\t')
  }

  /** Reading the line of a record gives the record back, when its values hold
      no tab and the line does not end in whitespace; a line without the URI
      tag gives an empty URI. */
  lemma RecordLineRoundTrip(x: FastaDictLine, withUri: bool)
    requires '\t' !in x.contig && '\t' !in x.md5Hash && '\t' !in x.uri
    requires withUri ==> x.uri == [] || !IsSpace(x.uri[|x.uri| - 1])
    requires !withUri ==> x.uri == [] && x.md5Hash != [] && !IsSpace(x.md5Hash[|x.md5Hash| - 1])
    ensures DictEntry(RecordLine(x, withUri)) == Some(Ok(x))
  {
    var length := IntToString(x.byteLength);
    IntToStringChars(x.byteLength, '\t');
    IntRoundTrip(x.byteLength);
    var tail := RecordTail(x, withUri);
    if withUri {
      assert tail == ["SN:" + x.contig, "LN:" + length, "M5:" + x.md5Hash, "UR:" + x.uri];
      TaggedFour(x.contig, length, x.md5Hash, x.uri);
    } else {
      assert tail == ["SN:" + x.contig, "LN:" + length, "M5:" + x.md5Hash];
      TaggedThree(x.contig, length, x.md5Hash);
    }
    TaggedLine(RecordLine(x, withUri), tail);
    assert FromValues([x.contig, length, x.md5Hash, x.uri]) == Ok(x);
  }

  /** Four tagged fields without tabs read back as their values. */
  lemma TaggedFour(c: string, n: string, h: string, u: string)
    requires '\t' !in c && '\t' !in n && '\t' !in h && '\t' !in u
    ensures var tail := ["SN:" + c, "LN:" + n, "M5:" + h, "UR:" + u];
      && (forall k :: 0 <= k < |tail| ==> '\t' !in tail[k])
      && TagValues(tail) == [c, n, h, u]
  {
    TagDropped("SN:", c);
    TagDropped("LN:", n);
    TagDropped("M5:", h);
    TagDropped("UR:", u);
  }

  /** Three tagged fields without tabs read back as their values and an empty
      URI. */
  lemma TaggedThree(c: string, n: string, h: string)
    requires '\t' !in c && '\t' !in n && '\t' !in h
    ensures var tail := ["SN:" + c, "LN:" + n, "M5:" + h];
      && (forall k :: 0 <= k < |tail| ==> '\t' !in tail[k])
      && TagValues(tail) == [c, n, h, ""]
  {
    TagDropped("SN:", c);
    TagDropped("LN:", n);
    TagDropped("M5:", h);
  }

  /** The line joining the marker and tab-free tagged fields, the last of
      which does not end in whitespace, is read field by field. */
  lemma TaggedLine(line: string, tail: seq<string>)
    requires tail != [] && line == Join([Marker] + tail, '\t')
    requires forall k :: 0 <= k < |tail| ==> '\t' !in tail[k]
    requires var last := tail[|tail| - 1]; last != [] && !IsSpace(last[|last| - 1])
    ensures DictEntry(line) == Some(FromValues(TagValues(tail)))
  {
    var parts := [Marker] + tail;
    assert forall k :: 0 <= k < |parts| ==> '\t' !in parts[k] by {
      forall k | 0 <= k < |parts| ensures '\t' !in parts[k] {
        if k > 0 { assert parts[k] == tail[k - 1]; }
      }
    }
    assert parts[|parts| - 1] == tail[|tail| - 1];
    JoinedLine(parts, '\t');
    JoinEnds(parts, '\t');
    assert parts[1..] == tail;
    EntryFromFields(line, parts);
  }

  lemma TagDropped(tag: string, value: string)
    requires |tag| == 3
    ensures StripDictFieldPrefix(tag + value) == value
  {
    assert (tag + value)[3..] == value;
  }

  /** The entry of an unpadded `@SQ` line, from its tab-separated fields. */
  lemma EntryFromFields(line: string, fields: seq<string>)
    requires Strip(line) == line && Marker <= line && Split(line, '\t') == fields
    ensures DictEntry(line) == Some(FromValues(TagValues(fields[1..])))
  {
  }

  /** "@SQ\tSN:chr1\tLN:100\tM5:abc123", with no URI field, reads as contig
      chr1, length 100, hash abc123 and an empty URI. */
  lemma DictEntryExample(line: string)
    requires line == "@SQ\tSN:chr1\tLN:100\tM5:abc123"
    ensures DictEntry(line) == Some(Ok(FastaDictLine("chr1", 100, "abc123", "")))
  {
    var x := FastaDictLine("chr1", 100, "abc123", "");
    ExampleRecordLine(x, line);
    RecordLineRoundTrip(x, false);
  }

  lemma ExampleRecordLine(x: FastaDictLine, line: string)
    requires x == FastaDictLine("chr1", 100, "abc123", "")
    requires line == "@SQ\tSN:chr1\tLN:100\tM5:abc123"
    ensures RecordLine(x, false) == line
  {
    assert IntToString(100) == "100" by {
      assert NatToString(100) == "100" by {
        assert NatToString(10) == "10" by { assert NatToString(1) == "1"; }
      }
    }
    var b, c, d := "SN:" + x.contig, "LN:" + IntToString(x.byteLength), "M5:" + x.md5Hash;
    JoinOfFour([Marker] + RecordTail(x, false), Marker, b, c, d);
    assert b == "SN:chr1" && c == "LN:100" && d == "M5:abc123";
    ExampleLineParts(line);
  }

  lemma JoinOfFour(parts: seq<string>, a: string, b: string, c: string, d: string)
    requires parts == [a, b, c, d]
    ensures Join(parts, '\t') == a + "\t" + b + "\t" + c + "\t" + d
  {
    var sep := ['\t'];
    assert parts[1..] == [b, c, d] && parts[1..][1..] == [c, d] && parts[1..][1..][1..] == [d];
    assert Join([c, d], '\t') == c + sep + d;
    assert Join([b, c, d], '\t') == b + sep + (c + sep + d);
    assert Join(parts, '\t') == a + sep + (b + sep + (c + sep + d));
  }

  lemma ExampleLineParts(line: string)
    requires line == "@SQ\tSN:chr1\tLN:100\tM5:abc123"
    ensures line == Marker + "\t" + "SN:chr1" + "\t" + "LN:100" + "\t" + "M5:abc123"
  {
  }
}
