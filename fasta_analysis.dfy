/**
 * fastaAnalysis.py: one pass over a FASTA file that builds, contig by
 * contig, the `.fai` index record and the sequence dictionary record the
 * file should have.
 *
 * The file is the sequence of its lines as `readline` returns them, each
 * with its terminator, so `len(line)` is a line's byte count and `tell()`
 * after a line is the sum of the lengths of the lines read so far. The md5
 * digest is a parameter applied to everything the hash object was fed, and
 * the file's URI is a parameter.
 */
module FastaAnalysis {

  import opened Outcomes
  import opened Text
  import opened FaidxReader
  import opened FastaDictReader

  const HeaderMark := ">"

  function ContigLineMessage(line: string): string {
    "Contig line should start with a '>', but passed line was: " + line
  }

  function FirstLineMessage(line: string): string {
    "First FASTA line should start with a '>' character. First line: " + line
  }

  function InconsistentMessage(contig: string): string {
    "Found inconsistent line lengths in contig " + contig
  }

  const IndexOutOfRange := "list index out of range"

  /** `extractContigFromLine`: the first whitespace-separated word after the
      `>` of the stripped line. A line that does not start with `>` raises a
      ValueError; a header with no word after `>` raises the IndexError of
      `split()[0]`. */
  function ExtractContigFromLine(line: string): (r: Result<string>)
    ensures r.Ok? <==> HeaderMark <= Strip(line) && !AllSpace(Strip(line)[1..])
    ensures r.Ok? ==> var rest := LStrip(Strip(line)[1..]);
      && r.value != [] && NoSpace(r.value) && r.value <= rest
      && (|r.value| == |rest| || IsSpace(rest[|r.value|]))
    ensures !(HeaderMark <= Strip(line)) ==> r == Err(Fault(ValueError, ContigLineMessage(Strip(line))))
    ensures HeaderMark <= Strip(line) && r.Err? ==> r == Err(Fault(IndexError, IndexOutOfRange))
  {
    var stripped := Strip(line);
    if !(HeaderMark <= stripped) then Err(Fault(ValueError, ContigLineMessage(stripped)))
    else
      match FirstToken(stripped[1..])
      case None => Err(Fault(IndexError, IndexOutOfRange))
      case Some(word) => Ok(word)
  }

  /** The variables of `analyzeFasta`'s loop; `md5Input` is everything the
      current contig's hash object has been fed. */
  datatype Scan = Scan(startingFile: bool, newContig: bool, contig: string,
                       baseLength: int, startByte: int, lineBases: int, lineBytes: int,
                       byteLength: int, md5Input: string, lastLineInconsistent: bool,
                       index: seq<FastaIndexLine>, dict: seq<FastaDictLine>)

  /** The variables before the first line is read. */
  const Start := Scan(true, false, "", 0, 0, 0, 0, 0, "", false, [], [])

  /** The records of the contig being read. */
  function IndexOf(s: Scan): FastaIndexLine {
    FastaIndexLine(s.contig, s.baseLength, s.startByte, s.lineBases, s.lineBytes)
  }

  function DictOf(s: Scan, digest: string -> string, uri: string): FastaDictLine {
    FastaDictLine(s.contig, s.byteLength, digest(s.md5Input), uri)
  }

  /** `tell()` after the lines: the bytes read so far. */
  function Offset(lines: seq<string>): (r: int)
    ensures r >= 0
  {
    if lines == [] then 0 else Offset(lines[..|lines| - 1]) + |lines[|lines| - 1]|
  }

  /** One turn of the loop on `line`, `tell` being the offset after it: a
      blank line changes nothing, a header (the raw line starts with `>`)
      starts a contig, any other line is a sequence line. */
  function Step(s: Scan, line: string, tell: int, digest: string -> string, uri: string): Result<Scan> {
    if Strip(line) == [] then Ok(s)
    else if HeaderMark <= line then NextContig(s, line, tell, digest, uri)
    else SequenceLine(s, line)
  }

  /** A header: the contig being read is stored, unless this is the first
      header, and the next one starts right after the header line. */
  function NextContig(s: Scan, line: string, tell: int, digest: string -> string, uri: string): Result<Scan> {
    var index := if s.startingFile then s.index else s.index + [IndexOf(s)];
    var dict := if s.startingFile then s.dict else s.dict + [DictOf(s, digest, uri)];
    match ExtractContigFromLine(line)
    case Err(fault) => Err(fault)
    case Ok(contig) => Ok(Scan(false, true, contig, 0, tell, 0, 0, 0, "", false, index, dict))
  }

  /** A sequence line raises when the line before it was inconsistent; it
      gives the contig its widths if it is the contig's first line, marks the
      contig inconsistent if it differs from them, and adds the contig's
      widths (not its own) to the lengths. */
  function SequenceLine(s: Scan, line: string): Result<Scan> {
    var currentLineBytes := |line|;
    var currentLineBases := |Strip(line)|;
    if s.lastLineInconsistent then Err(Fault(ValueError, InconsistentMessage(s.contig)))
    else if s.newContig then
      Ok(s.(newContig := false, lineBases := currentLineBases, lineBytes := currentLineBytes,
            baseLength := s.baseLength + currentLineBases, byteLength := s.byteLength + currentLineBytes,
            md5Input := s.md5Input + Strip(line)))
    else
      Ok(s.(baseLength := s.baseLength + s.lineBases, byteLength := s.byteLength + s.lineBytes,
            md5Input := s.md5Input + Strip(line),
            lastLineInconsistent := currentLineBases != s.lineBases || currentLineBytes != s.lineBytes))
  }

  /** The loop's variables after the lines, or what it raised. */
  function Run(lines: seq<string>, digest: string -> string, uri: string): Result<Scan> {
    if lines == [] then Ok(Start)
    else
      match Run(lines[..|lines| - 1], digest, uri)
      case Err(fault) => Err(fault)
      case Ok(s) => Step(s, lines[|lines| - 1], Offset(lines), digest, uri)
  }

  datatype Analysis = Analysis(index: seq<FastaIndexLine>, dict: seq<FastaDictLine>)

  /** What `analyzeFasta` returns or raises: the stripped first line must be
      a header with a contig name; then the loop runs and the last contig's
      records are stored. (Its `if not firstContig` cannot fire: a word of
      `split()` is never empty.) */
  function Analyze(lines: seq<string>, digest: string -> string, uri: string): Result<Analysis> {
    var firstLine := if lines == [] then "" else Strip(lines[0]);
    if !(HeaderMark <= firstLine) then Err(Fault(ValueError, FirstLineMessage(firstLine)))
    else if ExtractContigFromLine(firstLine).Err? then Err(ExtractContigFromLine(firstLine).fault)
    else
      match Run(lines, digest, uri)
      case Err(fault) => Err(fault)
      case Ok(s) => Ok(Analysis(s.index + [IndexOf(s)], s.dict + [DictOf(s, digest, uri)]))
  }

  lemma StepHeader(s: Scan, line: string, tell: int, digest: string -> string, uri: string)
    requires Strip(line) != [] && HeaderMark <= line
    ensures Step(s, line, tell, digest, uri) == NextContig(s, line, tell, digest, uri)
  {
  }

  lemma StepSequence(s: Scan, line: string, tell: int, digest: string -> string, uri: string)
    requires Strip(line) != [] && !(HeaderMark <= line)
    ensures Step(s, line, tell, digest, uri) == SequenceLine(s, line)
  {
  }

  lemma RunStep(lines: seq<string>, i: int, digest: string -> string, uri: string)
    requires 0 <= i < |lines|
    ensures Run(lines[..i + 1], digest, uri) ==
      match Run(lines[..i], digest, uri)
      case Err(fault) => Err(fault)
      case Ok(s) => Step(s, lines[i], Offset(lines[..i + 1]), digest, uri)
  {
    assert lines[..i + 1][..i] == lines[..i];
  }

  lemma OffsetStep(lines: seq<string>, i: int)
    requires 0 <= i < |lines|
    ensures Offset(lines[..i + 1]) == Offset(lines[..i]) + |lines[i]|
  {
    assert lines[..i + 1][..i] == lines[..i];
  }

  /** Once the loop raises, the rest of the file does not matter. */
  lemma {:induction false} RunStops(lines: seq<string>, n: int, digest: string -> string, uri: string)
    requires 0 <= n <= |lines|
    requires Run(lines[..n], digest, uri).Err?
    ensures Run(lines, digest, uri) == Run(lines[..n], digest, uri)
  {
    if n < |lines| {
      var front := lines[..|lines| - 1];
      assert front[..n] == lines[..n];
      RunStops(front, n, digest, uri);
    } else {
      assert lines[..n] == lines;
    }
  }

  /** `analyzeFasta`, over the lines of the file. */
  method AnalyzeFasta(lines: seq<string>, digest: string -> string, uri: string) returns (r: Result<Analysis>)
    ensures r == Analyze(lines, digest, uri)
  {
    var firstLine := if |lines| > 0 then Strip(lines[0]) else "";
    if !(HeaderMark <= firstLine) {
      return Err(Fault(ValueError, FirstLineMessage(firstLine)));
    }
    var firstContig := ExtractContigFromLine(firstLine);
    if firstContig.Err? {
      return Err(firstContig.fault);
    }
    var scan := ScanLines(lines, digest, uri);
    if scan.Err? {
      return Err(scan.fault);
    }
    var last := scan.value;
    var fastaIndexList := last.index + [FastaIndexLine(last.contig, last.baseLength, last.startByte, last.lineBases, last.lineBytes)];
    var fastaDictList := last.dict + [FastaDictLine(last.contig, last.byteLength, digest(last.md5Input), uri)];
    return Ok(Analysis(fastaIndexList, fastaDictList));
  }

  /** The loop of `analyzeFasta` over every line, with its variables; the
      result gathers them once the lines run out. */
  method ScanLines(lines: seq<string>, digest: string -> string, uri: string) returns (r: Result<Scan>)
    ensures r == Run(lines, digest, uri)
  {
    var fastaIndexList: seq<FastaIndexLine> := [];
    var fastaDictList: seq<FastaDictLine> := [];
    var startingFile, newContig, contig := true, false, "";
    var baseLength, startByte, lineBases, lineBytes, byteLength := 0, 0, 0, 0, 0;
    var md5Input := "";
    var lastLineInconsistent := false;
    var tell := 0;
    var i := 0;
    ghost var s := Start;
    while i < |lines|
      invariant 0 <= i <= |lines|
      invariant tell == Offset(lines[..i])
      invariant Run(lines[..i], digest, uri) == Ok(s)
      invariant && s.startingFile == startingFile && s.newContig == newContig && s.contig == contig
        && s.baseLength == baseLength && s.startByte == startByte && s.lineBases == lineBases
        && s.lineBytes == lineBytes && s.byteLength == byteLength && s.md5Input == md5Input
        && s.lastLineInconsistent == lastLineInconsistent && s.index == fastaIndexList && s.dict == fastaDictList
    {
      RunStep(lines, i, digest, uri);
      OffsetStep(lines, i);
      var line := lines[i];
      tell := tell + |line|;
      i := i + 1;
      if Strip(line) == [] {
        continue;
      }
      if HeaderMark <= line {
        ghost var next := NextContig(s, line, tell, digest, uri);
        StepHeader(s, line, tell, digest, uri);
        if !startingFile {
          fastaIndexList := fastaIndexList + [FastaIndexLine(contig, baseLength, startByte, lineBases, lineBytes)];
          fastaDictList := fastaDictList + [FastaDictLine(contig, byteLength, digest(md5Input), uri)];
        }
        startingFile := false;
        newContig := true;
        var name := ExtractContigFromLine(line);
        if name.Err? {
          RunStops(lines, i, digest, uri);
          return Err(name.fault);
        }
        contig := name.value;
        baseLength := 0;
        startByte := tell;
        lineBases := 0;
        lineBytes := 0;
        byteLength := 0;
        md5Input := "";
        lastLineInconsistent := false;
        s := next.value;
        continue;
      }
      ghost var next := SequenceLine(s, line);
      StepSequence(s, line, tell, digest, uri);
      if lastLineInconsistent {
        RunStops(lines, i, digest, uri);
        return Err(Fault(ValueError, InconsistentMessage(contig)));
      }
      var currentLineBytes := |line|;
      var stripped := Strip(line);
      var currentLineBases := |stripped|;
      if newContig {
        lineBytes := currentLineBytes;
        lineBases := currentLineBases;
      } else if currentLineBases != lineBases || currentLineBytes != lineBytes {
        lastLineInconsistent := true;
      }
      newContig := false;
      baseLength := baseLength + lineBases;
      byteLength := byteLength + lineBytes;
      md5Input := md5Input + stripped;
      s := next.value;
    }
    assert lines[..i] == lines;
    return Ok(Scan(startingFile, newContig, contig, baseLength, startByte, lineBases, lineBytes,
                   byteLength, md5Input, lastLineInconsistent, fastaIndexList, fastaDictList));
  }


  /* A reference reading of the file, independent of the loop: its non-blank
     lines fall into blocks, one per header line (a raw line starting with
     `>`) holding the non-blank lines after it, and one block before the
     first header. */

  datatype Block = Block(header: Option<string>, startByte: int, body: seq<string>)

  /** The blocks of the lines, in file order; the first holds the lines before
      any header; a header block starts at the offset right after its line. */
  function Blocks(lines: seq<string>): (r: seq<Block>)
    ensures |r| >= 1 && r[0].header.None? && r[0].startByte == 0
  {
    if lines == [] then [Block(None, 0, [])]
    else
      var blocks := Blocks(lines[..|lines| - 1]);
      var line := lines[|lines| - 1];
      if Strip(line) == [] then blocks
      else if HeaderMark <= line then blocks + [Block(Some(line), Offset(lines), [])]
      else
        var last := blocks[|blocks| - 1];
        blocks[|blocks| - 1 := last.(body := last.body + [line])]
  }

  /** The contig a block names: the word after `>`, none before a header. */
  function Name(b: Block): string {
    if b.header.Some? && ExtractContigFromLine(b.header.value).Ok? then ExtractContigFromLine(b.header.value).value
    else ""
  }

  /** The widths of a header block's first sequence line; none before a
      header. */
  function BasesPerLine(b: Block): nat {
    if b.header.Some? && b.body != [] then |Strip(b.body[0])| else 0
  }

  function BytesPerLine(b: Block): nat {
    if b.header.Some? && b.body != [] then |b.body[0]| else 0
  }

  /** Line j of the block has other widths than the block's first line. */
  predicate Deviates(b: Block, j: int)
    requires 0 <= j < |b.body|
  {
    |Strip(b.body[j])| != BasesPerLine(b) || |b.body[j]| != BytesPerLine(b)
  }

  /** Every line but the last has the block's widths. */
  predicate Consistent(b: Block) {
    forall j :: 0 <= j < |b.body| - 1 ==> !Deviates(b, j)
  }

  /** A header block's header has a word after `>`. */
  predicate Named(b: Block) {
    b.header.Some? ==> ExtractContigFromLine(b.header.value).Ok?
  }

  predicate WellFormed(blocks: seq<Block>) {
    forall k :: 0 <= k < |blocks| ==> Named(blocks[k]) && Consistent(blocks[k])
  }

  /** The stripped lines, joined: what the block's hash is computed on. */
  function Bases(body: seq<string>): string {
    if body == [] then "" else Bases(body[..|body| - 1]) + Strip(body[|body| - 1])
  }

  /** The records a block gives: as many lines as it has, each counted with
      the first line's widths. */
  function IndexRecord(b: Block): FastaIndexLine {
    FastaIndexLine(Name(b), |b.body| * BasesPerLine(b), b.startByte, BasesPerLine(b), BytesPerLine(b))
  }

  function DictRecord(b: Block, digest: string -> string, uri: string): FastaDictLine {
    FastaDictLine(Name(b), |b.body| * BytesPerLine(b), digest(Bases(b.body)), uri)
  }

  function IndexRecords(blocks: seq<Block>): (r: seq<FastaIndexLine>)
    ensures |r| == |blocks| && forall k :: 0 <= k < |blocks| ==> r[k] == IndexRecord(blocks[k])
  {
    seq(|blocks|, k requires 0 <= k < |blocks| => IndexRecord(blocks[k]))
  }

  function DictRecords(blocks: seq<Block>, digest: string -> string, uri: string): (r: seq<FastaDictLine>)
    ensures |r| == |blocks| && forall k :: 0 <= k < |blocks| ==> r[k] == DictRecord(blocks[k], digest, uri)
  {
    seq(|blocks|, k requires 0 <= k < |blocks| => DictRecord(blocks[k], digest, uri))
  }

  /** The blocks that become records: the header blocks, or the block before
      any header when there is no header line at all. */
  function Contigs(blocks: seq<Block>): seq<Block>
    requires |blocks| >= 1
  {
    if |blocks| == 1 then blocks else blocks[1..]
  }

  /** The header blocks before the last block. */
  function Stored(blocks: seq<Block>): seq<Block>
    requires |blocks| >= 1
  {
    if |blocks| == 1 then [] else blocks[1..|blocks| - 1]
  }

  /** The loop's variables stand for the blocks read so far: the blocks before
      the last are stored, the last is the one being read. */
  predicate Summarises(s: Scan, blocks: seq<Block>, digest: string -> string, uri: string)
    requires |blocks| >= 1
  {
    Reads(s, blocks[|blocks| - 1], digest) && Keeps(s, blocks, digest, uri)
  }

  /** The variables of the contig being read stand for block b. */
  predicate Reads(s: Scan, b: Block, digest: string -> string) {
    && s.newContig == (b.header.Some? && b.body == [])
    && s.contig == Name(b)
    && s.baseLength == |b.body| * BasesPerLine(b)
    && s.startByte == b.startByte
    && s.lineBases == BasesPerLine(b)
    && s.lineBytes == BytesPerLine(b)
    && s.byteLength == |b.body| * BytesPerLine(b)
    && s.md5Input == Bases(b.body)
    && s.lastLineInconsistent == (b.body != [] && Deviates(b, |b.body| - 1))
  }

  /** The stored lists hold the records of the blocks before the last. */
  predicate Keeps(s: Scan, blocks: seq<Block>, digest: string -> string, uri: string)
    requires |blocks| >= 1
  {
    && s.startingFile == (|blocks| == 1)
    && s.index == IndexRecords(Stored(blocks))
    && s.dict == DictRecords(Stored(blocks), digest, uri)
  }

  /** The loop starts on the block before any header. */
  lemma StartSummarises(digest: string -> string, uri: string)
    ensures Summarises(Start, [Block(None, 0, [])], digest, uri)
  {
  }

  /** A block added at the end must itself be well formed. */
  lemma WellFormedAppend(blocks: seq<Block>, b: Block)
    ensures WellFormed(blocks + [b]) <==> WellFormed(blocks) && Named(b) && Consistent(b)
  {
    var next := blocks + [b];
    assert next[|blocks|] == b;
    assert forall k :: 0 <= k < |blocks| ==> next[k] == blocks[k];
  }

  /** The same for a last block replaced by another. */
  lemma WellFormedReplaceLast(blocks: seq<Block>, b: Block)
    requires |blocks| >= 1
    ensures WellFormed(blocks[|blocks| - 1 := b]) <==> WellFormed(blocks[..|blocks| - 1]) && Named(b) && Consistent(b)
    ensures WellFormed(blocks) <==> WellFormed(blocks[..|blocks| - 1]) && Named(blocks[|blocks| - 1]) && Consistent(blocks[|blocks| - 1])
  {
    var front := blocks[..|blocks| - 1];
    assert blocks[|blocks| - 1 := b] == front + [b];
    assert blocks == front + [blocks[|blocks| - 1]];
    WellFormedAppend(front, b);
    WellFormedAppend(front, blocks[|blocks| - 1]);
  }

  /** A header starts a block whose variables the loop sets. */
  lemma HeaderReads(s: Scan, line: string, tell: int, digest: string -> string, uri: string)
    requires HeaderMark <= line
    ensures NextContig(s, line, tell, digest, uri).Ok? <==> Named(Block(Some(line), tell, []))
    ensures NextContig(s, line, tell, digest, uri).Ok? ==>
      Reads(NextContig(s, line, tell, digest, uri).value, Block(Some(line), tell, []), digest)
  {
  }

  /** A header stores the records of the block being read, unless that is the
      block before any header. */
  lemma HeaderKeeps(s: Scan, blocks: seq<Block>, line: string, tell: int, digest: string -> string, uri: string)
    requires |blocks| >= 1 && Summarises(s, blocks, digest, uri)
    requires NextContig(s, line, tell, digest, uri).Ok?
    ensures Keeps(NextContig(s, line, tell, digest, uri).value, blocks + [Block(Some(line), tell, [])], digest, uri)
  {
    var next := blocks + [Block(Some(line), tell, [])];
    var last := blocks[|blocks| - 1];
    if |blocks| > 1 {
      StoredAppend(blocks, Block(Some(line), tell, []));
      assert IndexOf(s) == IndexRecord(last);
      assert DictOf(s, digest, uri) == DictRecord(last, digest, uri);
      RecordsAppend(Stored(blocks), last, digest, uri);
    } else {
      assert Stored(next) == [];
    }
  }

  /** A sequence line keeps the block's name and, once the block has a first
      line, its widths and earlier deviations; it adds the line's bases. */
  lemma Grown(b: Block, line: string)
    ensures var grown := b.(body := b.body + [line]);
      && Name(grown) == Name(b) && Named(grown) == Named(b)
      && (b.body != [] ==> BasesPerLine(grown) == BasesPerLine(b) && BytesPerLine(grown) == BytesPerLine(b))
      && (b.body != [] ==> forall j :: 0 <= j < |b.body| ==> (Deviates(grown, j) <==> Deviates(b, j)))
      && Bases(grown.body) == Bases(b.body) + Strip(line)
  {
    var grown := b.(body := b.body + [line]);
    assert grown.body[..|b.body|] == b.body;
    if b.body != [] {
      assert grown.body[0] == b.body[0];
    }
  }

  /** The grown block is consistent when the block was and its last line did
      not deviate. */
  lemma GrownConsistent(b: Block, line: string)
    ensures var grown := b.(body := b.body + [line]);
      Consistent(grown) <==> Consistent(b) && (b.body == [] || !Deviates(b, |b.body| - 1))
  {
    var grown := b.(body := b.body + [line]);
    var n := |b.body|;
    if n != 0 {
      if Consistent(grown) {
        forall j | 0 <= j < n - 1
          ensures !Deviates(b, j)
        {
          DeviatesGrown(b, line, j);
        }
        DeviatesGrown(b, line, n - 1);
      }
      if Consistent(b) && !Deviates(b, n - 1) {
        forall j | 0 <= j < n
          ensures !Deviates(grown, j)
        {
          DeviatesGrown(b, line, j);
        }
      }
    }
  }

  /** Appending a line leaves whether an earlier line deviates unchanged. */
  lemma DeviatesGrown(b: Block, line: string, j: int)
    requires 0 <= j < |b.body|
    ensures Deviates(b.(body := b.body + [line]), j) == Deviates(b, j)
  {
    var grown := b.(body := b.body + [line]);
    assert grown.body[j] == b.body[j];
    assert grown.body[0] == b.body[0];
  }

  /** A sequence line's variables stand for the grown block, unless the loop
      raises, which it does exactly when the line before it deviated. */
  lemma SequenceReads(s: Scan, b: Block, line: string, digest: string -> string)
    requires Reads(s, b, digest) && Strip(line) != []
    ensures SequenceLine(s, line).Ok? <==> !(b.body != [] && Deviates(b, |b.body| - 1))
    ensures SequenceLine(s, line).Ok? ==> Reads(SequenceLine(s, line).value, b.(body := b.body + [line]), digest)
  {
    var grown := b.(body := b.body + [line]);
    var n := |b.body|;
    Grown(b, line);
    OneMoreLine(n, BasesPerLine(grown));
    OneMoreLine(n, BytesPerLine(grown));
    assert grown.body[n] == line;
  }

  lemma OneMoreLine(n: int, w: int)
    ensures (n + 1) * w == n * w + w
  {
  }

  lemma StoredAppend(blocks: seq<Block>, b: Block)
    requires |blocks| > 1
    ensures Stored(blocks + [b]) == Stored(blocks) + [blocks[|blocks| - 1]]
  {
    var next := blocks + [b];
    assert Stored(next) == blocks[1..];
    assert blocks[1..] == blocks[1..|blocks| - 1] + [blocks[|blocks| - 1]];
  }

  lemma RecordsAppend(blocks: seq<Block>, b: Block, digest: string -> string, uri: string)
    ensures IndexRecords(blocks + [b]) == IndexRecords(blocks) + [IndexRecord(b)]
    ensures DictRecords(blocks + [b], digest, uri) == DictRecords(blocks, digest, uri) + [DictRecord(b, digest, uri)]
  {
    var next := blocks + [b];
    assert IndexRecords(next) == IndexRecords(blocks) + [IndexRecord(b)] by {
      var r := IndexRecords(blocks) + [IndexRecord(b)];
      forall k | 0 <= k < |next|
        ensures IndexRecords(next)[k] == r[k]
      {
        if k < |blocks| {
          assert next[k] == blocks[k];
        }
      }
    }
    assert DictRecords(next, digest, uri) == DictRecords(blocks, digest, uri) + [DictRecord(b, digest, uri)] by {
      var r := DictRecords(blocks, digest, uri) + [DictRecord(b, digest, uri)];
      forall k | 0 <= k < |next|
        ensures DictRecords(next, digest, uri)[k] == r[k]
      {
        if k < |blocks| {
          assert next[k] == blocks[k];
        }
      }
    }
  }

  /** The loop follows the blocks: it raises exactly when a block read so far
      is not well formed, and otherwise its variables stand for the blocks. */
  lemma {:induction false} RunFollowsBlocks(lines: seq<string>, digest: string -> string, uri: string)
    ensures Run(lines, digest, uri).Ok? <==> WellFormed(Blocks(lines))
    ensures Run(lines, digest, uri).Ok? ==> Summarises(Run(lines, digest, uri).value, Blocks(lines), digest, uri)
  {
    if lines == [] {
      StartSummarises(digest, uri);
    } else {
      var front := lines[..|lines| - 1];
      var line := lines[|lines| - 1];
      var blocks := Blocks(front);
      var last := blocks[|blocks| - 1];
      RunFollowsBlocks(front, digest, uri);
      if Strip(line) == [] {
      } else if HeaderMark <= line {
        var b := Block(Some(line), Offset(lines), []);
        WellFormedAppend(blocks, b);
        if Run(front, digest, uri).Ok? {
          var s := Run(front, digest, uri).value;
          HeaderReads(s, line, Offset(lines), digest, uri);
          if NextContig(s, line, Offset(lines), digest, uri).Ok? {
            HeaderKeeps(s, blocks, line, Offset(lines), digest, uri);
          }
        }
      } else {
        var grown := last.(body := last.body + [line]);
        WellFormedReplaceLast(blocks, grown);
        GrownConsistent(last, line);
        Grown(last, line);
        if Run(front, digest, uri).Ok? {
          var s := Run(front, digest, uri).value;
          SequenceReads(s, last, line, digest);
          var next := blocks[|blocks| - 1 := grown];
          assert Stored(next) == Stored(blocks);
        }
      }
    }
  }

  /** The stripped first line is a header with a word after `>`. */
  predicate FirstLineNamed(lines: seq<string>) {
    var firstLine := if lines == [] then "" else Strip(lines[0]);
    HeaderMark <= firstLine && ExtractContigFromLine(firstLine).Ok?
  }

  /** What `analyzeFasta` computes, read off the blocks: it succeeds exactly
      when the first line names a contig, every header names one and in every
      contig only the last line may differ in width from the first; it then
      gives one index record and one dictionary record per block that
      becomes a contig, in file order. */
  lemma AnalyzeMeaning(lines: seq<string>, digest: string -> string, uri: string)
    ensures Analyze(lines, digest, uri).Ok? <==> FirstLineNamed(lines) && WellFormed(Blocks(lines))
    ensures Analyze(lines, digest, uri).Ok? ==>
      var contigs := Contigs(Blocks(lines));
      Analyze(lines, digest, uri).value == Analysis(IndexRecords(contigs), DictRecords(contigs, digest, uri))
  {
    RunFollowsBlocks(lines, digest, uri);
    if Run(lines, digest, uri).Ok? {
      FinalRecords(Run(lines, digest, uri).value, Blocks(lines), digest, uri);
    }
  }

  /** Storing the last block after the loop gives the records of all the
      blocks that become contigs. */
  lemma FinalRecords(s: Scan, blocks: seq<Block>, digest: string -> string, uri: string)
    requires |blocks| >= 1 && Summarises(s, blocks, digest, uri)
    ensures s.index + [IndexOf(s)] == IndexRecords(Contigs(blocks))
    ensures s.dict + [DictOf(s, digest, uri)] == DictRecords(Contigs(blocks), digest, uri)
  {
    var last := blocks[|blocks| - 1];
    assert IndexOf(s) == IndexRecord(last) && DictOf(s, digest, uri) == DictRecord(last, digest, uri) by {
      assert Reads(s, last, digest);
    }
    ContigsEndWithLast(blocks);
    RecordsAppend(Stored(blocks), last, digest, uri);
  }

  lemma ContigsEndWithLast(blocks: seq<Block>)
    requires |blocks| >= 1
    ensures Contigs(blocks) == Stored(blocks) + [blocks[|blocks| - 1]]
  {
    if |blocks| > 1 {
      assert Stored(blocks) + [blocks[|blocks| - 1]] == blocks[1..];
    } else {
      assert Stored(blocks) + [blocks[|blocks| - 1]] == blocks;
    }
  }

  /** The header lines of the file, each with the offset right after it. */
  datatype HeaderLine = HeaderLine(text: string, end: int)

  function Headers(lines: seq<string>): (r: seq<HeaderLine>)
    ensures |r| <= |lines|
  {
    if lines == [] then []
    else
      var line := lines[|lines| - 1];
      Headers(lines[..|lines| - 1]) + (if HeaderMark <= line then [HeaderLine(line, Offset(lines))] else [])
  }

  /** A header line is never blank. */
  lemma HeaderNotBlank(line: string)
    requires HeaderMark <= line
    ensures Strip(line) != []
  {
    StripEmptyIffAllSpace(line);
    assert line[0] == '>' && !IsSpace(line[0]);
  }

  /** There is one block per header line, after the block before any header,
      in file order, each starting right after its header line. */
  lemma {:induction false} BlocksFollowHeaders(lines: seq<string>)
    ensures |Blocks(lines)| == |Headers(lines)| + 1
    ensures forall k :: 0 <= k < |Headers(lines)| ==>
      Blocks(lines)[k + 1].header == Some(Headers(lines)[k].text) && Blocks(lines)[k + 1].startByte == Headers(lines)[k].end
  {
    if lines != [] {
      var front := lines[..|lines| - 1];
      var line := lines[|lines| - 1];
      BlocksFollowHeaders(front);
      if HeaderMark <= line {
        HeaderNotBlank(line);
      }
    }
  }

  /** `analyzeFasta` gives as many dictionary records as index records: one
      per header line, named after it and starting right after it, or a
      single unnamed one when no raw line starts with `>`. */
  lemma ContigPerHeader(lines: seq<string>, digest: string -> string, uri: string)
    requires Analyze(lines, digest, uri).Ok?
    ensures var a := Analyze(lines, digest, uri).value;
      var headers := Headers(lines);
      && |a.index| == |a.dict| == (if headers == [] then 1 else |headers|)
      && (forall i :: 0 <= i < |headers| ==>
            && a.index[i].contig == a.dict[i].contig
            && ExtractContigFromLine(headers[i].text) == Ok(a.index[i].contig)
            && a.index[i].startByte == headers[i].end)
  {
    AnalyzeMeaning(lines, digest, uri);
    BlocksFollowHeaders(lines);
    var blocks := Blocks(lines);
    var headers := Headers(lines);
    forall i | 0 <= i < |headers|
      ensures Contigs(blocks)[i] == blocks[i + 1] && Named(blocks[i + 1])
    {
    }
  }

  /** Without any raw line starting with `>` (the first line only starts with
      it once stripped), the single record has no name, no bases and starts
      at offset 0. */
  lemma NoHeaderLine(lines: seq<string>, digest: string -> string, uri: string)
    requires Analyze(lines, digest, uri).Ok? && Headers(lines) == []
    ensures Analyze(lines, digest, uri).value.index == [FastaIndexLine("", 0, 0, 0, 0)]
    ensures Analyze(lines, digest, uri).value.dict == [FastaDictLine("", 0, digest(Bases(Blocks(lines)[0].body)), uri)]
  {
    AnalyzeMeaning(lines, digest, uri);
    BlocksFollowHeaders(lines);
  }

  /** A blank line changes neither the loop's variables nor the blocks. */
  lemma BlankLineIgnored(lines: seq<string>, line: string, digest: string -> string, uri: string)
    requires Strip(line) == []
    ensures Run(lines + [line], digest, uri) == Run(lines, digest, uri)
    ensures Blocks(lines + [line]) == Blocks(lines)
  {
    assert (lines + [line])[..|lines|] == lines;
  }

  /** A header `>name`, followed by nothing or by whitespace and anything
      else, names the contig `name`. */
  lemma HeaderNamesContig(name: string, rest: string)
    requires name != [] && NoSpace(name) && (rest == [] || IsSpace(rest[0]))
    ensures ExtractContigFromLine(HeaderMark + name + rest) == Ok(name)
  {
    var tail := StrippedHeader(name, rest);
    var stripped := HeaderMark + name + tail;
    assert stripped[1..] == name + tail;
    assert HeaderMark <= stripped;
    assert FirstToken(name + tail) == Some(name) by {
      assert tail == [] || IsSpace(tail[0]);
      assert LStrip(name + tail) == name + tail by {
        assert (name + tail)[0] == name[0];
      }
      TakeWordOf(name, tail);
    }
  }

  /** Stripping a header that opens with `>name` keeps `>name` and a prefix
      of what follows. */
  lemma StrippedHeader(name: string, rest: string) returns (tail: string)
    requires name != [] && NoSpace(name)
    ensures tail <= rest && Strip(HeaderMark + name + rest) == HeaderMark + name + tail
  {
    var line := HeaderMark + name + rest;
    assert line[0] == '>' && !IsSpace(line[0]);
    assert LStrip(line) == line;
    assert line[|name|] == name[|name| - 1];
    RStripKeeps(line, |name| + 1);
    RStripPrefix(line);
    var stripped := Strip(line);
    tail := rest[..|stripped| - 1 - |name|];
    assert stripped == line[..|stripped|];
    assert line[..|stripped|] == HeaderMark + name + tail;
  }

  /** Right stripping stops at the last character that is not whitespace. */
  lemma {:induction false} RStripKeeps(s: string, k: int)
    requires 0 < k <= |s| && !IsSpace(s[k - 1])
    ensures |RStrip(s)| >= k
  {
    if IsSpace(s[|s| - 1]) {
      RStripKeeps(s[..|s| - 1], k);
    }
  }

  /** The first word of a word followed by nothing or by whitespace. */
  lemma {:induction false} TakeWordOf(word: string, rest: string)
    requires NoSpace(word) && (rest == [] || IsSpace(rest[0]))
    ensures TakeWord(word + rest) == word
  {
    if word != [] {
      assert (word + rest)[1..] == word[1..] + rest;
      TakeWordOf(word[1..], rest);
    } else {
      assert word + rest == rest;
    }
  }

  /** Lines of one width give that many bases each. */
  lemma {:induction false} FullLinesBases(body: seq<string>, w: int)
    requires forall j :: 0 <= j < |body| ==> |Strip(body[j])| == w
    ensures |Bases(body)| == |body| * w
  {
    if body != [] {
      var front := body[..|body| - 1];
      assert forall j :: 0 <= j < |front| ==> front[j] == body[j];
      FullLinesBases(front, w);
      OneMoreLine(|front|, w);
    }
  }

  /** The bases of a consistent block: full lines, then the last line. */
  lemma ConsistentBases(b: Block)
    requires b.header.Some? && b.body != [] && Consistent(b)
    ensures |Bases(b.body)| == (|b.body| - 1) * BasesPerLine(b) + |Strip(b.body[|b.body| - 1])|
  {
    var n := |b.body|;
    var front := b.body[..n - 1];
    assert forall j :: 0 <= j < |front| ==> front[j] == b.body[j] && !Deviates(b, j);
    FullLinesBases(front, BasesPerLine(b));
  }

  /** As written, a contig whose last line is shorter than its first is
      recorded with more bases than it has, and its byte length, by the
      index's own formula, counts whole lines. */
  lemma ShortLastLineOvercounted(b: Block)
    requires b.header.Some? && |b.body| >= 2 && Consistent(b)
    requires |Strip(b.body[|b.body| - 1])| < BasesPerLine(b)
    ensures IndexRecord(b).baseLength > |Bases(b.body)|
    ensures ByteLength(IndexRecord(b)) == Ok(|b.body| * BytesPerLine(b))
  {
    ConsistentBases(b);
    OneMoreLine(|b.body| - 1, BasesPerLine(b));
    ByteLengthOfLayout(IndexRecord(b), |b.body|, 0);
  }

  /** The index record with the contig's actual number of bases. */
  function CorrectedIndexRecord(b: Block): FastaIndexLine {
    FastaIndexLine(Name(b), |Bases(b.body)|, b.startByte, BasesPerLine(b), BytesPerLine(b))
  }

  /** The corrected record counts the full lines and then the last line's
      bases, and the index's byte-length formula then ends at the contig's
      last base. */
  lemma CorrectedRecordCountsBases(b: Block)
    requires b.header.Some? && b.body != [] && Consistent(b)
    requires |Strip(b.body[|b.body| - 1])| < BasesPerLine(b)
    ensures CorrectedIndexRecord(b).baseLength == (|b.body| - 1) * BasesPerLine(b) + |Strip(b.body[|b.body| - 1])|
    ensures ByteLength(CorrectedIndexRecord(b)) == Ok((|b.body| - 1) * BytesPerLine(b) + |Strip(b.body[|b.body| - 1])|)
  {
    ConsistentBases(b);
    ByteLengthOfLayout(CorrectedIndexRecord(b), |b.body| - 1, |Strip(b.body[|b.body| - 1])|);
  }
}
