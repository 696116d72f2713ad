/**
 * The shape shared by `processFaidxStream` and `processDictStream`: read the
 * lines of a stream in order; each line is skipped, gives one record, or
 * raises, and the first raise ends the reading.
 */
module LineStreams {

  import opened Outcomes

  /** What reading the lines gives when `parse` says what each line does
      (None: skipped). Defined on prefixes, as a loop sees them. */
  function Collect<T>(parse: string -> Option<Result<T>>, lines: seq<string>): Result<seq<T>> {
    if lines == [] then Ok([])
    else
      match Collect(parse, lines[..|lines| - 1])
      case Err(fault) => Err(fault)
      case Ok(records) =>
        match parse(lines[|lines| - 1])
        case None => Ok(records)
        case Some(Err(fault)) => Err(fault)
        case Some(Ok(record)) => Ok(records + [record])
  }

  /** The outcomes of the lines that are not skipped, in order. */
  function Chosen<T>(parse: string -> Option<Result<T>>, lines: seq<string>): (r: seq<Result<T>>)
    ensures |r| <= |lines|
  {
    if lines == [] then []
    else
      var last := parse(lines[|lines| - 1]);
      Chosen(parse, lines[..|lines| - 1]) + (if last.Some? then [last.value] else [])
  }

  predicate NoFailure<T>(outcomes: seq<Result<T>>) {
    forall k :: 0 <= k < |outcomes| ==> outcomes[k].Ok?
  }

  function Values<T>(outcomes: seq<Result<T>>): (r: seq<T>)
    requires NoFailure(outcomes)
    ensures |r| == |outcomes|
  {
    seq(|outcomes|, k requires 0 <= k < |outcomes| && NoFailure(outcomes) => outcomes[k].value)
  }

  /** Reading succeeds exactly when no line raises; it then gives one record
      per line that is not skipped, in order; otherwise it raises what the
      first raising line raises. */
  lemma {:induction false} CollectMeaning<T>(parse: string -> Option<Result<T>>, lines: seq<string>)
    ensures Collect(parse, lines).Ok? <==> NoFailure(Chosen(parse, lines))
    ensures Collect(parse, lines).Ok? ==> Collect(parse, lines).value == Values(Chosen(parse, lines))
    ensures Collect(parse, lines).Err? ==>
      exists k :: 0 <= k < |Chosen(parse, lines)| && NoFailure(Chosen(parse, lines)[..k])
                  && Chosen(parse, lines)[k] == Err(Collect(parse, lines).fault)
  {
    if lines != [] {
      var front := lines[..|lines| - 1];
      var last := parse(lines[|lines| - 1]);
      CollectMeaning(parse, front);
      var before := Chosen(parse, front);
      var chosen := Chosen(parse, lines);
      assert chosen[..|before|] == before;
      if Collect(parse, front).Err? {
        var k :| 0 <= k < |before| && NoFailure(before[..k]) && before[k] == Err(Collect(parse, front).fault);
        assert chosen[..k] == before[..k] && chosen[k] == before[k];
      } else if last.Some? && last.value.Err? {
        assert chosen[..|before|] == before && chosen[|before|] == last.value;
      } else if last.Some? {
        assert Values(chosen) == Values(before) + [last.value.value];
      }
    }
  }

  /** One more line, as the loop of a stream reader takes it. */
  lemma CollectStep<T>(parse: string -> Option<Result<T>>, lines: seq<string>, i: int)
    requires 0 <= i < |lines|
    ensures Collect(parse, lines[..i + 1]) ==
      match Collect(parse, lines[..i])
      case Err(fault) => Err(fault)
      case Ok(records) =>
        match parse(lines[i])
        case None => Ok(records)
        case Some(Err(fault)) => Err(fault)
        case Some(Ok(record)) => Ok(records + [record])
  {
    assert lines[..i + 1][..i] == lines[..i];
  }

  /** Once a line raises, the rest of the stream does not matter. */
  lemma {:induction false} CollectStops<T>(parse: string -> Option<Result<T>>, lines: seq<string>, n: int)
    requires 0 <= n <= |lines|
    requires Collect(parse, lines[..n]).Err?
    ensures Collect(parse, lines) == Collect(parse, lines[..n])
  {
    if n < |lines| {
      var front := lines[..|lines| - 1];
      assert front[..n] == lines[..n];
      CollectStops(parse, front, n);
    } else {
      assert lines[..n] == lines;
    }
  }

  /** After the whole stream, the prefix is the stream. */
  lemma CollectAll<T>(parse: string -> Option<Result<T>>, lines: seq<string>)
    ensures Collect(parse, lines[..|lines|]) == Collect(parse, lines)
  {
    assert lines[..|lines|] == lines;
  }
}
