/**
 * validations.py: the checks run on an index, a dictionary and the BED
 * records once they are read. Every check yields a list of messages; a
 * check over BED records reads the records' current state.
 */
module Validations {

  import opened Outcomes
  import opened Text
  import opened Intervals
  import opened BedLines
  import opened FaidxReader
  import opened FastaDictReader

  // ---------------------------------------------------------------------
  // Occurrence counting

  /** One entry of the dictionary `detectCollisionsInList` returns. */
  datatype Collision<T> = Collision(item: T, count: nat)

  predicate Distinct<T(==)>(xs: seq<T>) {
    forall i, j :: 0 <= i < j < |xs| ==> xs[i] != xs[j]
  }

  /** How often x occurs in xs. */
  function Count<T(==)>(xs: seq<T>, x: T): nat {
    multiset(xs)[x]
  }

  /** The different items of xs in the order they first occur: the key order
      of a dictionary filled from xs. */
  function FirstOccurrences<T(==)>(xs: seq<T>): seq<T> {
    if xs == [] then []
    else
      var front, last := xs[..|xs| - 1], xs[|xs| - 1];
      var keys := FirstOccurrences(front);
      if last in front then keys else keys + [last]
  }

  /** The first occurrences are the items of xs, each once. */
  lemma {:induction false} FirstOccurrencesMeaning<T>(xs: seq<T>)
    ensures forall i :: 0 <= i < |FirstOccurrences(xs)| ==> FirstOccurrences(xs)[i] in xs
    ensures forall i :: 0 <= i < |xs| ==> xs[i] in FirstOccurrences(xs)
    ensures Distinct(FirstOccurrences(xs))
  {
    if xs != [] {
      var front, last := xs[..|xs| - 1], xs[|xs| - 1];
      assert xs == front + [last];
      FirstOccurrencesMeaning(front);
    }
  }

  /** The keys, in order, that occur more than once in xs, with their counts. */
  function Repeated<T(==)>(keys: seq<T>, xs: seq<T>): seq<Collision<T>> {
    if keys == [] then []
    else
      var key := keys[|keys| - 1];
      Repeated(keys[..|keys| - 1], xs) + (if Count(xs, key) > 1 then [Collision(key, Count(xs, key))] else [])
  }

  /** What `detectCollisionsInList` returns, as a sequence of its entries. */
  function Collisions<T(==)>(xs: seq<T>): seq<Collision<T>> {
    Repeated(FirstOccurrences(xs), xs)
  }

  lemma {:induction false} RepeatedMeaning<T>(keys: seq<T>, xs: seq<T>)
    ensures forall c :: c in Repeated(keys, xs) <==> c.item in keys && c.count == Count(xs, c.item) && c.count > 1
    ensures Distinct(keys) ==> forall i, j :: 0 <= i < j < |Repeated(keys, xs)| ==>
      Repeated(keys, xs)[i].item != Repeated(keys, xs)[j].item
  {
    if keys != [] {
      var front, key := keys[..|keys| - 1], keys[|keys| - 1];
      assert keys == front + [key];
      RepeatedMeaning(front, xs);
    }
  }

  /** `detectCollisionsInList` gives exactly the items that occur more than
      once, each once, with its number of occurrences. */
  lemma CollisionsExact<T>(xs: seq<T>)
    ensures forall c :: c in Collisions(xs) <==> c.count == Count(xs, c.item) && c.count > 1
    ensures forall i, j :: 0 <= i < j < |Collisions(xs)| ==> Collisions(xs)[i].item != Collisions(xs)[j].item
  {
    FirstOccurrencesMeaning(xs);
    RepeatedMeaning(FirstOccurrences(xs), xs);
  }

  /** The first loop of `detectCollisionsInList`: the dictionary of
      occurrence counts, as its keys in insertion order and its entries. */
  method CountOccurrences<T(==)>(inputList: seq<T>) returns (keys: seq<T>, counts: map<T, nat>)
    ensures Counted(inputList, keys, counts)
  {
    keys := [];
    counts := map[];
    var i := 0;
    while i < |inputList|
      invariant 0 <= i <= |inputList|
      invariant Counted(inputList[..i], keys, counts)
    {
      var item := inputList[i];
      ghost var keys0, counts0 := keys, counts;
      if item !in counts {
        counts := counts[item := 0];
        keys := keys + [item];
      }
      ghost var counts1 := counts;
      counts := counts[item := counts[item] + 1];
      assert inputList[..i + 1] == inputList[..i] + [item];
      CountedStep(inputList[..i], item, keys0, counts0, keys, counts1, counts);
      i := i + 1;
    }
    assert inputList[..i] == inputList;
  }

  /** `detectCollisionsInList`: count every item in a dictionary keyed in
      first-occurrence order, then keep the entries counted more than once. */
  method DetectCollisionsInList<T(==)>(inputList: seq<T>) returns (collisions: seq<Collision<T>>)
    ensures collisions == Collisions(inputList)
  {
    var keys, counts := CountOccurrences(inputList);
    FirstOccurrencesMeaning(inputList);
    collisions := [];
    var j := 0;
    while j < |keys|
      invariant 0 <= j <= |keys|
      invariant collisions == Repeated(keys[..j], inputList)
    {
      var key := keys[j];
      assert keys[..j + 1][..j] == keys[..j];
      assert key in inputList;
      if counts[key] > 1 {
        collisions := collisions + [Collision(key, counts[key])];
      }
      j := j + 1;
    }
    assert keys[..j] == keys;
  }

  /** The state of the counting loop after the items `seen`: the keys in
      first-occurrence order and the count of each. */
  predicate Counted<T(==)>(seen: seq<T>, keys: seq<T>, counts: map<T, nat>) {
    && keys == FirstOccurrences(seen)
    && counts.Keys == (set k | 0 <= k < |seen| :: seen[k])
    && (forall k :: 0 <= k < |seen| ==> counts[seen[k]] == Count(seen, seen[k]))
  }

  /** One more item, as the counting loop takes it. */
  lemma CountedStep<T>(seen: seq<T>, x: T, keys0: seq<T>, counts0: map<T, nat>, keys: seq<T>,
                       counts1: map<T, nat>, counts: map<T, nat>)
    requires Counted(seen, keys0, counts0)
    requires keys == if x in counts0 then keys0 else keys0 + [x]
    requires counts1 == if x in counts0 then counts0 else counts0[x := 0]
    requires counts == counts1[x := counts1[x] + 1]
    ensures Counted(seen + [x], keys, counts)
  {
    assert x in counts0 <==> x in seen;
    KeysStep(seen, x, keys0);
    assert counts.Keys == counts0.Keys + {x};
    DomainStep(seen, x, counts0.Keys);
    CountsStep(seen, x, counts0, counts1, counts);
  }

  lemma KeysStep<T>(seen: seq<T>, x: T, keys: seq<T>)
    requires keys == FirstOccurrences(seen)
    ensures FirstOccurrences(seen + [x]) == if x in seen then keys else keys + [x]
  {
    assert (seen + [x])[..|seen|] == seen;
  }

  lemma DomainStep<T>(seen: seq<T>, x: T, domain: set<T>)
    requires domain == (set k | 0 <= k < |seen| :: seen[k])
    ensures domain + {x} == (set k | 0 <= k < |seen + [x]| :: (seen + [x])[k])
  {
    var next := seen + [x];
    assert next[|seen|] == x;
    forall y | y in domain ensures y in (set k | 0 <= k < |next| :: next[k]) {
      var k :| 0 <= k < |seen| && seen[k] == y;
      assert next[k] == y;
    }
  }

  lemma CountsStep<T>(seen: seq<T>, x: T, counts0: map<T, nat>, counts1: map<T, nat>, counts: map<T, nat>)
    requires counts0.Keys == (set k | 0 <= k < |seen| :: seen[k])
    requires forall k :: 0 <= k < |seen| ==> counts0[seen[k]] == Count(seen, seen[k])
    requires counts1 == if x in counts0 then counts0 else counts0[x := 0]
    requires counts == counts1[x := counts1[x] + 1]
    ensures forall k :: 0 <= k < |seen + [x]| ==> counts[(seen + [x])[k]] == Count(seen + [x], (seen + [x])[k])
  {
    var next := seen + [x];
    assert multiset(next) == multiset(seen) + multiset{x};
    if x !in counts0 {
      forall k | 0 <= k < |seen| ensures seen[k] != x {
        assert seen[k] in counts0.Keys;
      }
      assert x !in multiset(seen);
    }
    assert x in counts0 ==> counts0[x] == Count(seen, x) by {
      if x in counts0 {
        var k :| 0 <= k < |seen| && seen[k] == x;
      }
    }
    forall k | 0 <= k < |next| ensures counts[next[k]] == Count(next, next[k]) {
      if k < |seen| {
        assert next[k] == seen[k];
      }
    }
  }

  // ---------------------------------------------------------------------
  // Name simplification

  /** `re.sub("\s", "", s)`: s without its whitespace characters. */
  function RemoveSpace(s: string): string {
    if s == [] then []
    else
      var rest := RemoveSpace(s[1..]);
      if IsSpace(s[0]) then rest else [s[0]] + rest
  }

  /** What is left has no whitespace and no character that was not there
      before; text without whitespace is left as it is. */
  lemma {:induction false} RemoveSpaceMeaning(s: string)
    ensures NoSpace(RemoveSpace(s))
    ensures NoUpper(s) ==> NoUpper(RemoveSpace(s))
    ensures NoSpace(s) ==> RemoveSpace(s) == s
  {
    if s != [] {
      RemoveSpaceMeaning(s[1..]);
      assert s == [s[0]] + s[1..];
    }
  }

  predicate NoUpper(s: string) {
    forall i :: 0 <= i < |s| ==> !('A' <= s[i] <= 'Z')
  }

  /** `simplifyName`: lower-case, then drop every whitespace character. */
  function SimplifyName(name: string): (r: string)
    ensures NoSpace(r) && NoUpper(r)
  {
    RemoveSpaceMeaning(Lower(name));
    RemoveSpace(Lower(name))
  }

  lemma LowerKeepsLowered(s: string)
    requires NoUpper(s)
    ensures Lower(s) == s
  {
  }

  /** Simplifying a simplified name changes nothing. */
  lemma SimplifyIdempotent(name: string)
    ensures SimplifyName(SimplifyName(name)) == SimplifyName(name)
  {
    var once := SimplifyName(name);
    LowerKeepsLowered(once);
    RemoveSpaceMeaning(once);
  }

  /** The names, each simplified. */
  function Simplified(names: seq<string>): (r: seq<string>)
    ensures |r| == |names|
  {
    seq(|names|, k requires 0 <= k < |names| => SimplifyName(names[k]))
  }

  /** A name occurs at least as often among the simplified names as the
      original among the originals: names only merge. */
  lemma {:induction false} SimplifiedCountAtLeast(names: seq<string>, x: string)
    ensures Count(Simplified(names), SimplifyName(x)) >= Count(names, x)
  {
    if names != [] {
      var front := names[..|names| - 1];
      assert names == front + [names[|names| - 1]];
      assert Simplified(names) == Simplified(front) + [SimplifyName(names[|names| - 1])];
      SimplifiedCountAtLeast(front, x);
    }
  }

  /** Every raw collision also shows up among the simplified collisions, at
      least as often. */
  lemma RawCollisionAlsoSimilar(names: seq<string>, c: Collision<string>)
    requires c in Collisions(names)
    ensures Collision(SimplifyName(c.item), Count(Simplified(names), SimplifyName(c.item))) in Collisions(Simplified(names))
    ensures Count(Simplified(names), SimplifyName(c.item)) >= c.count
  {
    CollisionsExact(names);
    CollisionsExact(Simplified(names));
    SimplifiedCountAtLeast(names, c.item);
  }

  // ---------------------------------------------------------------------
  // Messages about collisions

  /** Two "Region1" and one "region 1": the exact names collide twice, and
      all three simplify to "region1". */
  lemma SimilarNamesExample(a: string, b: string)
    requires a == "Region1" && b == "region 1"
    ensures Collisions([a, a, b]) == [Collision(a, 2)]
    ensures Collisions(Simplified([a, a, b])) == [Collision("region1", 3)]
  {
    assert a[0] != b[0];
    CollisionsOfTwoAndOne(a, b);
    var s := SimplifyName(a);
    SimplifiedExample(a, b);
    assert Simplified([a, a, b]) == [s, s, s];
    CollisionsOfThree(s);
  }

  lemma SimplifiedExample(a: string, b: string)
    requires a == "Region1" && b == "region 1"
    ensures SimplifyName(a) == "region1" && SimplifyName(b) == "region1"
  {
    var u, v := "region", "1";
    assert NoSpace(u + v) && NoSpace(u) && NoSpace(v);
    assert SimplifyName(a) == u + v by {
      assert Lower(a) == u + v;
      RemoveSpaceMeaning(u + v);
    }
    assert SimplifyName(b) == u + v by {
      assert Lower(b) == u + (" " + v);
      assert RemoveSpace(" ") == [] by {
        RemoveSpaceHead(" ");
      }
      RemoveSpaceAppend(" ", v);
      RemoveSpaceAppend(u, " " + v);
      RemoveSpaceMeaning(u);
      RemoveSpaceMeaning(v);
    }
  }

  /** Removing the whitespace of two texts joined is joining them once removed. */
  lemma {:induction false} RemoveSpaceAppend(p: string, q: string)
    ensures RemoveSpace(p + q) == RemoveSpace(p) + RemoveSpace(q)
  {
    if p == [] {
      assert p + q == q;
    } else {
      RemoveSpaceAppend(p[1..], q);
      RemoveSpaceAppendStep(p, q);
    }
  }

  lemma RemoveSpaceAppendStep(p: string, q: string)
    requires p != [] && RemoveSpace(p[1..] + q) == RemoveSpace(p[1..]) + RemoveSpace(q)
    ensures RemoveSpace(p + q) == RemoveSpace(p) + RemoveSpace(q)
  {
    var t := p[1..];
    var head := if IsSpace(p[0]) then [] else [p[0]];
    assert RemoveSpace(p + q) == head + RemoveSpace(t + q) by {
      TailOfAppend(p, q);
      RemoveSpaceHead(p + q);
    }
    assert RemoveSpace(p) == head + RemoveSpace(t) by { RemoveSpaceHead(p); }
    assert head + (RemoveSpace(t) + RemoveSpace(q)) == (head + RemoveSpace(t)) + RemoveSpace(q);
  }

  lemma TailOfAppend<T>(p: seq<T>, q: seq<T>)
    requires p != []
    ensures (p + q)[0] == p[0] && (p + q)[1..] == p[1..] + q
  {
  }

  /** The first character is dropped when it is whitespace and kept otherwise. */
  lemma RemoveSpaceHead(s: string)
    requires s != []
    ensures RemoveSpace(s) == (if IsSpace(s[0]) then [] else [s[0]]) + RemoveSpace(s[1..])
  {
  }

  /** x twice and then a different y: x collides, twice. */
  lemma CollisionsOfTwoAndOne<T>(x: T, y: T)
    requires x != y
    ensures Collisions([x, x, y]) == [Collision(x, 2)]
  {
    var xs := [x, x, y];
    OneTwice(x);
    assert xs[..2] == [x, x];
    assert FirstOccurrences(xs) == [x, y];
    assert multiset(xs) == multiset{x, x, y};
    assert Count(xs, x) == 2 && Count(xs, y) == 1;
    assert [x, y][..1] == [x] && [x][..0] == [];
    assert Repeated([x], xs) == [Collision(x, 2)];
  }

  lemma OneTwice<T>(x: T)
    ensures FirstOccurrences([x]) == [x] && FirstOccurrences([x, x]) == [x]
  {
    assert [x][..0] == [];
    assert [x, x][..1] == [x];
  }

  /** The same item three times collides, three times. */
  lemma CollisionsOfThree<T>(x: T)
    ensures Collisions([x, x, x]) == [Collision(x, 3)]
  {
    var xs := [x, x, x];
    OneTwice(x);
    assert xs[..2] == [x, x];
    assert FirstOccurrences(xs) == [x];
    assert multiset(xs) == multiset{x, x, x};
    assert Count(xs, x) == 3 && [x][..0] == [];
    assert Repeated([x], xs) == [Collision(x, 3)];
  }

  /** The message of every collision, in order. */
  function Messages<T>(describe: Collision<T> -> string, collisions: seq<Collision<T>>): (r: seq<string>)
    ensures |r| == |collisions|
  {
    seq(|collisions|, k requires 0 <= k < |collisions| => describe(collisions[k]))
  }

  /** One message per item occurring more than once, giving its count, and no
      other message. */
  lemma MessagesOfCollisions<T>(describe: Collision<T> -> string, xs: seq<T>)
    ensures forall x :: Count(xs, x) > 1 ==> describe(Collision(x, Count(xs, x))) in Messages(describe, Collisions(xs))
    ensures forall m :: m in Messages(describe, Collisions(xs)) ==>
      exists x :: Count(xs, x) > 1 && m == describe(Collision(x, Count(xs, x)))
  {
    CollisionsExact(xs);
    var cs := Collisions(xs);
    forall m | m in Messages(describe, cs)
      ensures exists x :: Count(xs, x) > 1 && m == describe(Collision(x, Count(xs, x)))
    {
      var k :| 0 <= k < |cs| && m == Messages(describe, cs)[k];
      assert cs[k] in cs;
    }
    forall x | Count(xs, x) > 1
      ensures describe(Collision(x, Count(xs, x))) in Messages(describe, cs)
    {
      var k :| 0 <= k < |cs| && cs[k] == Collision(x, Count(xs, x));
      assert Messages(describe, cs)[k] == describe(cs[k]);
    }
  }

  /** The loops that append one message per collision to a list. */
  method AppendMessages<T>(errorList: seq<string>, describe: Collision<T> -> string, collisions: seq<Collision<T>>)
    returns (r: seq<string>)
    ensures r == errorList + Messages(describe, collisions)
  {
    r := errorList;
    for j := 0 to |collisions|
      invariant r == errorList + Messages(describe, collisions[..j])
    {
      assert Messages(describe, collisions[..j + 1]) == Messages(describe, collisions[..j]) + [describe(collisions[j])];
      r := r + [describe(collisions[j])];
    }
    assert collisions[..|collisions|] == collisions;
  }

  const ContigsNoun := "contigs"
  const BedNoun := "BED intervals"

  function NameMessage(noun: string, c: Collision<string>): string {
    "Detected " + IntToString(c.count) + " " + noun + " with the name " + c.item
  }

  function SimilarNameMessage(noun: string, c: Collision<string>): string {
    "Detected " + IntToString(c.count) + " " + noun + " with names similar to " + c.item
  }

  function NameDescriber(noun: string): Collision<string> -> string {
    c => NameMessage(noun, c)
  }

  function SimilarNameDescriber(noun: string): Collision<string> -> string {
    c => SimilarNameMessage(noun, c)
  }

  /** The messages of a naming check: the exact-name collisions, then the
      collisions of the simplified names. */
  function NamingErrors(noun: string, names: seq<string>): seq<string> {
    Messages(NameDescriber(noun), Collisions(names))
    + Messages(SimilarNameDescriber(noun), Collisions(Simplified(names)))
  }

  /** The naming messages: first one per repeated name with its count, then
      one per repeated simplified name with its count, and every repeated
      name's simplification is among the latter. */
  lemma NamingErrorsMeaning(noun: string, names: seq<string>)
    ensures var raw := Collisions(names);
      var similar := Collisions(Simplified(names));
      && |NamingErrors(noun, names)| == |raw| + |similar|
      && (forall k :: 0 <= k < |raw| ==>
            NamingErrors(noun, names)[k] == NameMessage(noun, raw[k])
            && raw[k].count == Count(names, raw[k].item) > 1)
      && (forall k :: 0 <= k < |similar| ==>
            NamingErrors(noun, names)[|raw| + k] == SimilarNameMessage(noun, similar[k])
            && similar[k].count == Count(Simplified(names), similar[k].item) > 1)
      && (forall c :: c in raw ==> exists d :: d in similar && d.item == SimplifyName(c.item) && d.count >= c.count)
  {
    JoinedMessagesAt(NameDescriber(noun), names, SimilarNameDescriber(noun), Simplified(names));
    RawCollisionsAlsoSimilar(names);
  }

  /** Two message lists joined: the first describes the collisions of xs, the
      second, after it, those of ys. */
  lemma JoinedMessagesAt<T>(first: Collision<T> -> string, xs: seq<T>, second: Collision<T> -> string, ys: seq<T>)
    ensures var cx, cy := Collisions(xs), Collisions(ys);
      var m := Messages(first, cx) + Messages(second, cy);
      && |m| == |cx| + |cy|
      && (forall k :: 0 <= k < |cx| ==> m[k] == first(cx[k]) && cx[k].count == Count(xs, cx[k].item) > 1)
      && (forall k :: 0 <= k < |cy| ==> m[|cx| + k] == second(cy[k]) && cy[k].count == Count(ys, cy[k].item) > 1)
  {
    CollisionMessagesAt(first, xs);
    CollisionMessagesAt(second, ys);
  }

  /** Message k describes collision k, whose item occurs its count, more than
      once. */
  lemma CollisionMessagesAt<T>(describe: Collision<T> -> string, xs: seq<T>)
    ensures var cs := Collisions(xs);
      forall k :: 0 <= k < |cs| ==>
        Messages(describe, cs)[k] == describe(cs[k]) && cs[k].count == Count(xs, cs[k].item) > 1
  {
    var cs := Collisions(xs);
    forall k | 0 <= k < |cs|
      ensures cs[k].count == Count(xs, cs[k].item) > 1
    {
      CollisionsExact(xs);
      var c := cs[k];
      assert c in cs;
      assert c.count == Count(xs, c.item) && c.count > 1;
    }
  }

  /** Every repeated name's simplification is repeated at least as often. */
  lemma RawCollisionsAlsoSimilar(names: seq<string>)
    ensures forall c :: c in Collisions(names) ==>
      exists d :: d in Collisions(Simplified(names)) && d.item == SimplifyName(c.item) && d.count >= c.count
  {
    var similar := Collisions(Simplified(names));
    forall c | c in Collisions(names)
      ensures exists d :: d in similar && d.item == SimplifyName(c.item) && d.count >= c.count
    {
      RawCollisionAlsoSimilar(names, c);
      var d := Collision(SimplifyName(c.item), Count(Simplified(names), SimplifyName(c.item)));
      assert d in similar;
    }
  }

  /** The part `makeNamingErrorList` and `checkForDuplicateBEDIntervalNames`
      share: detect the collisions among the names and among their
      simplifications, then word a message for each. */
  method ReportNameCollisions(noun: string, rawNames: seq<string>, collapsedNames: seq<string>)
    returns (errorList: seq<string>)
    ensures errorList == Messages(NameDescriber(noun), Collisions(rawNames))
                         + Messages(SimilarNameDescriber(noun), Collisions(collapsedNames))
  {
    var rawNameCollisions := DetectCollisionsInList(rawNames);
    var collapsedNameCollisions := DetectCollisionsInList(collapsedNames);
    errorList := AppendMessages([], NameDescriber(noun), rawNameCollisions);
    errorList := AppendMessages(errorList, SimilarNameDescriber(noun), collapsedNameCollisions);
  }

  function ContigNames(faidxData: seq<FastaIndexLine>): (r: seq<string>)
    ensures |r| == |faidxData|
  {
    seq(|faidxData|, k requires 0 <= k < |faidxData| => faidxData[k].contig)
  }

  lemma ContigNamesStep(faidxData: seq<FastaIndexLine>, i: int)
    requires 0 <= i < |faidxData|
    ensures ContigNames(faidxData[..i + 1]) == ContigNames(faidxData[..i]) + [faidxData[i].contig]
  {
  }

  lemma SimplifiedStep(names: seq<string>, name: string)
    ensures Simplified(names + [name]) == Simplified(names) + [SimplifyName(name)]
  {
  }

  /** `makeNamingErrorList`: the naming messages of the index's contig names. */
  method MakeNamingErrorList(faidxData: seq<FastaIndexLine>) returns (namingErrorList: seq<string>)
    ensures namingErrorList == NamingErrors(ContigsNoun, ContigNames(faidxData))
  {
    var rawNames: seq<string> := [];
    var collapsedNames: seq<string> := [];
    for i := 0 to |faidxData|
      invariant rawNames == ContigNames(faidxData[..i])
      invariant collapsedNames == Simplified(rawNames)
    {
      ContigNamesStep(faidxData, i);
      SimplifiedStep(rawNames, faidxData[i].contig);
      rawNames := rawNames + [faidxData[i].contig];
      collapsedNames := collapsedNames + [SimplifyName(faidxData[i].contig)];
    }
    assert faidxData[..|faidxData|] == faidxData;
    namingErrorList := ReportNameCollisions(ContigsNoun, rawNames, collapsedNames);
  }

  /** Messages for one more collision. */
  lemma MessagesStep<T>(describe: Collision<T> -> string, collisions: seq<Collision<T>>, c: Collision<T>)
    ensures Messages(describe, collisions + [c]) == Messages(describe, collisions) + [describe(c)]
  {
  }

  /** One more key: its message follows when it occurs more than once. */
  lemma RepeatedMessagesStep<T>(describe: Collision<T> -> string, keys: seq<T>, xs: seq<T>, j: int)
    requires 0 <= j < |keys|
    ensures var c := Collision(keys[j], Count(xs, keys[j]));
      Messages(describe, Repeated(keys[..j + 1], xs))
      == Messages(describe, Repeated(keys[..j], xs)) + (if c.count > 1 then [describe(c)] else [])
  {
    assert keys[..j + 1][..j] == keys[..j];
    var c := Collision(keys[j], Count(xs, keys[j]));
    if c.count > 1 {
      MessagesStep(describe, Repeated(keys[..j], xs), c);
    }
  }

  /** No item repeats exactly when there is no collision. */
  lemma NoCollisionsWhenDistinct<T>(xs: seq<T>)
    ensures Collisions(xs) == [] <==> forall x :: Count(xs, x) <= 1
  {
    CollisionsExact(xs);
    if Collisions(xs) != [] {
      var c := Collisions(xs)[0];
      assert c in Collisions(xs);
      assert Count(xs, c.item) > 1;
    } else {
      forall x ensures Count(xs, x) <= 1 {
        var c := Collision(x, Count(xs, x));
        assert c in Collisions(xs) <==> Count(xs, x) > 1;
      }
    }
  }

  /** Items of a sequence without repetition occur at most once. */
  lemma {:induction false} DistinctCountsAtMostOne<T>(xs: seq<T>, x: T)
    requires Distinct(xs)
    ensures Count(xs, x) <= 1
  {
    if xs != [] {
      var front, last := xs[..|xs| - 1], xs[|xs| - 1];
      assert xs == front + [last];
      DistinctCountsAtMostOne(front, x);
      if last == x {
        forall k | 0 <= k < |front| ensures front[k] != x {
          assert xs[k] == front[k];
        }
        assert x !in multiset(front);
      }
    }
  }

  // ---------------------------------------------------------------------
  // Contigs with the same sequence

  function Hashes(fastaDictList: seq<FastaDictLine>): (r: seq<string>)
    ensures |r| == |fastaDictList|
  {
    seq(|fastaDictList|, k requires 0 <= k < |fastaDictList| => fastaDictList[k].md5Hash)
  }

  /** The contigs whose digest is `hash`, in input order: the list
      `checkForDuplicateContigs` collects under that key. */
  function ContigsWithHash(fastaDictList: seq<FastaDictLine>, hash: string): seq<string> {
    if fastaDictList == [] then []
    else
      var last := fastaDictList[|fastaDictList| - 1];
      ContigsWithHash(fastaDictList[..|fastaDictList| - 1], hash) + (if last.md5Hash == hash then [last.contig] else [])
  }

  lemma HashesStep(fastaDictList: seq<FastaDictLine>, line: FastaDictLine)
    ensures Hashes(fastaDictList + [line]) == Hashes(fastaDictList) + [line.md5Hash]
  {
  }

  /** As many contigs are listed under a digest as records carry it. */
  lemma {:induction false} ContigsWithHashCount(fastaDictList: seq<FastaDictLine>, hash: string)
    ensures |ContigsWithHash(fastaDictList, hash)| == Count(Hashes(fastaDictList), hash)
  {
    if fastaDictList != [] {
      var front, last := fastaDictList[..|fastaDictList| - 1], fastaDictList[|fastaDictList| - 1];
      assert fastaDictList == front + [last];
      HashesStep(front, last);
      ContigsWithHashCount(front, hash);
    }
  }

  /** The contigs listed under a digest are those of the records carrying it. */
  lemma {:induction false} ContigsWithHashMembers(fastaDictList: seq<FastaDictLine>, hash: string)
    ensures forall c :: c in ContigsWithHash(fastaDictList, hash) <==>
      exists k :: 0 <= k < |fastaDictList| && fastaDictList[k].md5Hash == hash && fastaDictList[k].contig == c
  {
    if fastaDictList != [] {
      var front, last := fastaDictList[..|fastaDictList| - 1], fastaDictList[|fastaDictList| - 1];
      assert fastaDictList == front + [last];
      ContigsWithHashMembers(front, hash);
      forall c | (exists k :: 0 <= k < |fastaDictList| && fastaDictList[k].md5Hash == hash && fastaDictList[k].contig == c)
        ensures c in ContigsWithHash(fastaDictList, hash)
      {
        var k :| 0 <= k < |fastaDictList| && fastaDictList[k].md5Hash == hash && fastaDictList[k].contig == c;
        if k < |front| {
          assert front[k] == fastaDictList[k];
        }
      }
      forall c | c in ContigsWithHash(front, hash)
        ensures exists k :: 0 <= k < |fastaDictList| && fastaDictList[k].md5Hash == hash && fastaDictList[k].contig == c
      {
        var k :| 0 <= k < |front| && front[k].md5Hash == hash && front[k].contig == c;
        assert fastaDictList[k] == front[k];
      }
    }
  }

  function ReprItems(items: seq<string>): string {
    if items == [] then ""
    else if |items| == 1 then Quote(items[0])
    else Quote(items[0]) + ", " + ReprItems(items[1..])
  }

  /** Python's `repr` of a list of strings. */
  function ListRepr(items: seq<string>): string {
    "[" + ReprItems(items) + "]"
  }

  /** The repr keeps the text between two equal quote characters, and the
      quote is a double one exactly when the text holds a single quote and no
      double quote. */
  lemma QuoteDelimits(s: string)
    ensures var q := Quote(s);
      |q| == |s| + 2 && q[1..|s| + 1] == s && q[0] == q[|s| + 1]
      && (q[0] == '"' <==> '\'' in s && '"' !in s)
      && (q[0] == '\'' <==> !('\'' in s && '"' !in s))
  {
  }

  /** `q` occurs in `r` starting at index i. */
  predicate OccursAt(q: string, r: string, i: int) {
    0 <= i <= |r| - |q| && r[i..i + |q|] == q
  }

  /** Every item's repr appears in the list's repr. */
  lemma ListReprShowsItem(items: seq<string>, k: int)
    requires 0 <= k < |items|
    ensures exists i :: OccursAt(Quote(items[k]), ListRepr(items), i)
  {
    var i := ReprItemsShowsItem(items, k);
    SliceAfter("[", ReprItems(items) + "]", i, |Quote(items[k])|);
    SliceBefore(ReprItems(items), "]", i, |Quote(items[k])|);
    assert OccursAt(Quote(items[k]), ListRepr(items), i + 1);
  }

  lemma {:induction false} ReprItemsShowsItem(items: seq<string>, k: int) returns (i: int)
    requires 0 <= k < |items|
    ensures OccursAt(Quote(items[k]), ReprItems(items), i)
  {
    if k == 0 {
      i := 0;
      FirstItemShown(items);
    } else {
      var j := ReprItemsShowsItem(items[1..], k - 1);
      assert items[1..][k - 1] == items[k];
      LaterItemShown(items, Quote(items[k]), j);
      i := |Quote(items[0])| + 2 + j;
    }
  }

  lemma FirstItemShown(items: seq<string>)
    requires items != []
    ensures OccursAt(Quote(items[0]), ReprItems(items), 0)
  {
    var head := Quote(items[0]);
    if |items| > 1 {
      var rest := ReprItems(items[1..]);
      assert ReprItems(items) == head + (", " + rest);
      SliceBefore(head, ", " + rest, 0, |head|);
    }
  }

  lemma LaterItemShown(items: seq<string>, q: string, j: int)
    requires |items| > 1 && OccursAt(q, ReprItems(items[1..]), j)
    ensures OccursAt(q, ReprItems(items), |Quote(items[0])| + 2 + j)
  {
    var head, rest := Quote(items[0]), ReprItems(items[1..]);
    assert ReprItems(items) == (head + ", ") + rest;
    SliceAfter(head + ", ", rest, j, |q|);
  }

  lemma SliceAfter<T>(a: seq<T>, b: seq<T>, j: int, n: int)
    requires 0 <= j && 0 <= n && j + n <= |b|
    ensures (a + b)[|a| + j..|a| + j + n] == b[j..j + n]
  {
  }

  lemma SliceBefore<T>(a: seq<T>, b: seq<T>, j: int, n: int)
    requires 0 <= j && 0 <= n && j + n <= |a|
    ensures (a + b)[j..j + n] == a[j..j + n]
  {
  }

  function DuplicateContigMessage(contigList: seq<string>): string {
    "Found " + IntToString(|contigList|) + " contigs that likely have identical sequence: " + ListRepr(contigList)
  }

  function DuplicateContigDescriber(fastaDictList: seq<FastaDictLine>): Collision<string> -> string {
    (c: Collision<string>) => DuplicateContigMessage(ContigsWithHash(fastaDictList, c.item))
  }

  /** The messages of `checkForDuplicateContigs`: one per digest carried by
      more than one record, in the order the digests first occur. */
  function DuplicateContigErrors(fastaDictList: seq<FastaDictLine>): seq<string> {
    Messages(DuplicateContigDescriber(fastaDictList), Collisions(Hashes(fastaDictList)))
  }

  /** Every digest shared by at least two records has its message, listing
      exactly those records' contigs in input order. */
  lemma SharedDigestsReported(fastaDictList: seq<FastaDictLine>, hash: string)
    requires |ContigsWithHash(fastaDictList, hash)| >= 2
    ensures DuplicateContigMessage(ContigsWithHash(fastaDictList, hash)) in DuplicateContigErrors(fastaDictList)
  {
    var hashes := Hashes(fastaDictList);
    var cs := Collisions(hashes);
    CollisionsExact(hashes);
    ContigsWithHashCount(fastaDictList, hash);
    var c := Collision(hash, Count(hashes, hash));
    assert c in cs;
    var k :| 0 <= k < |cs| && cs[k] == c;
    assert DuplicateContigErrors(fastaDictList)[k] == DuplicateContigDescriber(fastaDictList)(c);
  }

  /** Every message is about a digest shared by at least two records. */
  lemma OnlySharedDigestsReported(fastaDictList: seq<FastaDictLine>, k: int)
    requires 0 <= k < |DuplicateContigErrors(fastaDictList)|
    ensures var hash := Collisions(Hashes(fastaDictList))[k].item;
      && |ContigsWithHash(fastaDictList, hash)| >= 2
      && DuplicateContigErrors(fastaDictList)[k] == DuplicateContigMessage(ContigsWithHash(fastaDictList, hash))
  {
    var hashes := Hashes(fastaDictList);
    var cs := Collisions(hashes);
    CollisionsExact(hashes);
    assert cs[k] in cs;
    ContigsWithHashCount(fastaDictList, cs[k].item);
  }

  /** Records with pairwise different digests give no message. */
  lemma UniqueDigestsUnreported(fastaDictList: seq<FastaDictLine>)
    requires Distinct(Hashes(fastaDictList))
    ensures DuplicateContigErrors(fastaDictList) == []
  {
    var hashes := Hashes(fastaDictList);
    forall x ensures Count(hashes, x) <= 1 {
      DistinctCountsAtMostOne(hashes, x);
    }
    NoCollisionsWhenDistinct(hashes);
  }

  /** The state of the first loop of `checkForDuplicateContigs` after the
      records `seen`: the digests in insertion order and each one's list. */
  predicate Grouped(seen: seq<FastaDictLine>, order: seq<string>, table: map<string, seq<string>>) {
    && order == FirstOccurrences(Hashes(seen))
    && table.Keys == (set k | 0 <= k < |seen| :: seen[k].md5Hash)
    && (forall h :: h in table ==> table[h] == ContigsWithHash(seen, h))
  }

  /** One more record, as the grouping loop takes it. */
  lemma GroupedStep(seen: seq<FastaDictLine>, line: FastaDictLine, order0: seq<string>,
                    table0: map<string, seq<string>>, order: seq<string>,
                    table1: map<string, seq<string>>, table: map<string, seq<string>>)
    requires Grouped(seen, order0, table0)
    requires order == if line.md5Hash in table0 then order0 else order0 + [line.md5Hash]
    requires table1 == if line.md5Hash in table0 then table0 else table0[line.md5Hash := []]
    requires table == table1[line.md5Hash := table1[line.md5Hash] + [line.contig]]
    ensures Grouped(seen + [line], order, table)
  {
    var next, hash := seen + [line], line.md5Hash;
    HashesStep(seen, line);
    KnownHash(seen, table0.Keys, hash);
    assert order == FirstOccurrences(Hashes(next)) by {
      KeysStep(Hashes(seen), hash, order0);
    }
    assert table.Keys == (set k | 0 <= k < |next| :: next[k].md5Hash) by {
      HashDomainStep(seen, line, table0.Keys);
    }
    if hash !in table0 {
      ContigsWithHashCount(seen, hash);
    }
    forall h | h in table ensures table[h] == ContigsWithHash(next, h) {
      ContigsWithHashStep(seen, line, h);
    }
  }

  lemma ContigsWithHashStep(seen: seq<FastaDictLine>, line: FastaDictLine, hash: string)
    ensures ContigsWithHash(seen + [line], hash) ==
      ContigsWithHash(seen, hash) + (if line.md5Hash == hash then [line.contig] else [])
  {
    assert (seen + [line])[..|seen|] == seen;
  }

  lemma KnownHash(seen: seq<FastaDictLine>, domain: set<string>, hash: string)
    requires domain == (set k | 0 <= k < |seen| :: seen[k].md5Hash)
    ensures hash in domain <==> hash in Hashes(seen)
  {
    var hashes := Hashes(seen);
    if hash in domain {
      var k :| 0 <= k < |seen| && seen[k].md5Hash == hash;
      assert hashes[k] == hash;
    }
    if hash in hashes {
      var k :| 0 <= k < |hashes| && hashes[k] == hash;
      assert seen[k].md5Hash == hash;
    }
  }

  lemma HashDomainStep(seen: seq<FastaDictLine>, line: FastaDictLine, domain: set<string>)
    requires domain == (set k | 0 <= k < |seen| :: seen[k].md5Hash)
    ensures domain + {line.md5Hash} == (set k | 0 <= k < |seen + [line]| :: (seen + [line])[k].md5Hash)
  {
    var next := seen + [line];
    assert next[|seen|] == line;
    forall h | h in domain ensures h in (set k | 0 <= k < |next| :: next[k].md5Hash) {
      var k :| 0 <= k < |seen| && seen[k].md5Hash == h;
      assert next[k] == seen[k];
    }
  }

  /** The first loop of `checkForDuplicateContigs`: each digest's contigs. */
  method GroupContigsByHash(fastaDictList: seq<FastaDictLine>) returns (order: seq<string>, contigHashTable: map<string, seq<string>>)
    ensures Grouped(fastaDictList, order, contigHashTable)
  {
    order := [];
    contigHashTable := map[];
    for i := 0 to |fastaDictList|
      invariant Grouped(fastaDictList[..i], order, contigHashTable)
    {
      var line := fastaDictList[i];
      ghost var order0, table0 := order, contigHashTable;
      if line.md5Hash !in contigHashTable {
        contigHashTable := contigHashTable[line.md5Hash := []];
        order := order + [line.md5Hash];
      }
      ghost var table1 := contigHashTable;
      contigHashTable := contigHashTable[line.md5Hash := contigHashTable[line.md5Hash] + [line.contig]];
      assert fastaDictList[..i + 1] == fastaDictList[..i] + [line];
      GroupedStep(fastaDictList[..i], line, order0, table0, order, table1, contigHashTable);
    }
    assert fastaDictList[..|fastaDictList|] == fastaDictList;
  }

  /** `checkForDuplicateContigs`: group the contigs by digest, then report
      every group of two or more. */
  method CheckForDuplicateContigs(fastaDictList: seq<FastaDictLine>) returns (errorList: seq<string>)
    ensures errorList == DuplicateContigErrors(fastaDictList)
  {
    var order, contigHashTable := GroupContigsByHash(fastaDictList);
    ghost var hashes := Hashes(fastaDictList);
    ghost var describe := DuplicateContigDescriber(fastaDictList);
    FirstOccurrencesMeaning(hashes);
    errorList := [];
    for j := 0 to |order|
      invariant errorList == Messages(describe, Repeated(order[..j], hashes))
    {
      var hash := order[j];
      RepeatedMessagesStep(describe, order, hashes, j);
      assert hash in contigHashTable && contigHashTable[hash] == ContigsWithHash(fastaDictList, hash) by {
        assert hash in hashes;
        ghost var k :| 0 <= k < |fastaDictList| && hashes[k] == hash;
        assert fastaDictList[k].md5Hash == hash;
      }
      var contigList := contigHashTable[hash];
      ContigsWithHashCount(fastaDictList, hash);
      if |contigList| < 2 {
        continue;
      }
      errorList := errorList + [DuplicateContigMessage(contigList)];
    }
    assert order[..|order|] == order;
  }

  // ---------------------------------------------------------------------
  // What the BED checks read of a record

  /** The parts of a BED record the checks read: `name`, `nameOrElse`, the
      contig and bounds of its interval, `str(interval)` and `errors`. */
  datatype BedView = BedView(name: string, nameOrElse: string, contig: string, start: int, end: int,
                             shown: string, errors: Result<seq<string>>)

  function View(line: BEDLine): (v: BedView)
    reads line.interval, line.ThickFrame()
    ensures v.contig == line.interval.contig && v.start == line.interval.start && v.end == line.interval.end
  {
    BedView(line.name, line.NameOrElse(), line.interval.contig, line.interval.start, line.interval.end,
            line.interval.ToString(), line.ErrorList())
  }

  /** The objects the records' state lives in. */
  function Frame(bedList: seq<BEDLine>): set<object> {
    (set k | 0 <= k < |bedList| :: bedList[k].interval as object)
    + (set k, o | 0 <= k < |bedList| && o in bedList[k].ThickFrame() :: o)
  }

  function Views(bedList: seq<BEDLine>): (r: seq<BedView>)
    reads Frame(bedList)
    ensures |r| == |bedList|
    ensures forall k :: 0 <= k < |bedList| ==> r[k] == View(bedList[k])
  {
    seq(|bedList|, k requires 0 <= k < |bedList| reads Frame(bedList) => View(bedList[k]))
  }

  /** The checks only read the records: what they read is what was there
      when they started. */
  twostate lemma ViewsUnchanged(bedList: seq<BEDLine>)
    requires unchanged(Frame(bedList))
    ensures Views(bedList) == old(Views(bedList))
  {
  }

  // ---------------------------------------------------------------------
  // BED names and duplicated intervals

  function BedNames(views: seq<BedView>): (r: seq<string>)
    ensures |r| == |views|
  {
    seq(|views|, k requires 0 <= k < |views| => views[k].nameOrElse)
  }

  lemma BedNamesStep(views: seq<BedView>, i: int)
    requires 0 <= i < |views|
    ensures BedNames(views[..i + 1]) == BedNames(views[..i]) + [views[i].nameOrElse]
  {
  }

  /** `checkForDuplicateBEDIntervalNames`: the naming messages of the
      records' `nameOrElse`. */
  method CheckForDuplicateBEDIntervalNames(bedList: seq<BEDLine>) returns (duplicatedNameList: seq<string>)
    ensures duplicatedNameList == NamingErrors(BedNoun, BedNames(Views(bedList)))
  {
    label Start:
    duplicatedNameList := BedNameReport(Views(bedList));
    ViewsUnchanged@Start(bedList);
  }

  /** The body of `checkForDuplicateBEDIntervalNames`, on the records' views. */
  method BedNameReport(views: seq<BedView>) returns (duplicatedNameList: seq<string>)
    ensures duplicatedNameList == NamingErrors(BedNoun, BedNames(views))
  {
    var rawNameList: seq<string> := [];
    var simplifiedNameList: seq<string> := [];
    for i := 0 to |views|
      invariant rawNameList == BedNames(views[..i])
      invariant simplifiedNameList == Simplified(rawNameList)
    {
      var name := views[i].nameOrElse;
      BedNamesStep(views, i);
      SimplifiedStep(rawNameList, name);
      rawNameList := rawNameList + [name];
      simplifiedNameList := simplifiedNameList + [SimplifyName(name)];
    }
    assert views[..|views|] == views;
    duplicatedNameList := ReportNameCollisions(BedNoun, rawNameList, simplifiedNameList);
  }

  /** The key `checkForDuplicatedIntervals` compares records by. */
  function IntervalKey(v: BedView): (string, int, int) {
    (v.contig, v.start, v.end)
  }

  function IntervalKeys(views: seq<BedView>): (r: seq<(string, int, int)>)
    ensures |r| == |views|
  {
    seq(|views|, k requires 0 <= k < |views| => IntervalKey(views[k]))
  }

  lemma IntervalKeysStep(views: seq<BedView>, i: int)
    requires 0 <= i < |views|
    ensures IntervalKeys(views[..i + 1]) == IntervalKeys(views[..i]) + [IntervalKey(views[i])]
  {
  }

  function DuplicateIntervalMessage(c: Collision<(string, int, int)>): string {
    "Detected the interval " + c.item.0 + ":" + IntToString(c.item.1) + "-" + IntToString(c.item.2)
    + " used " + IntToString(c.count) + " times in the BED file."
  }

  /** The messages of `checkForDuplicatedIntervals`. */
  function DuplicateIntervalErrors(views: seq<BedView>): seq<string> {
    Messages(DuplicateIntervalMessage, Collisions(IntervalKeys(views)))
  }

  /** One message per (contig, start, end) carried by more than one record,
      with its count, and no other. */
  lemma DuplicateIntervalsExact(views: seq<BedView>)
    ensures forall t :: Count(IntervalKeys(views), t) > 1 ==>
      DuplicateIntervalMessage(Collision(t, Count(IntervalKeys(views), t))) in DuplicateIntervalErrors(views)
    ensures forall m :: m in DuplicateIntervalErrors(views) ==>
      exists t :: Count(IntervalKeys(views), t) > 1 && m == DuplicateIntervalMessage(Collision(t, Count(IntervalKeys(views), t)))
  {
    MessagesOfCollisions(DuplicateIntervalMessage, IntervalKeys(views));
  }

  /** Name, strand and every other column do not matter: records with the
      same contigs and bounds give the same messages. */
  lemma DuplicateIntervalsIgnoreOtherColumns(views: seq<BedView>, others: seq<BedView>)
    requires |views| == |others|
    requires forall k :: 0 <= k < |views| ==>
      views[k].contig == others[k].contig && views[k].start == others[k].start && views[k].end == others[k].end
    ensures DuplicateIntervalErrors(views) == DuplicateIntervalErrors(others)
  {
    assert IntervalKeys(views) == IntervalKeys(others);
  }

  /** `checkForDuplicatedIntervals`: count the (contig, start, end) keys and
      report the repeated ones. */
  method CheckForDuplicatedIntervals(bedList: seq<BEDLine>) returns (errorList: seq<string>)
    ensures errorList == DuplicateIntervalErrors(Views(bedList))
  {
    label Start:
    errorList := BedIntervalReport(Views(bedList));
    ViewsUnchanged@Start(bedList);
  }

  /** The body of `checkForDuplicatedIntervals`, on the records' views. */
  method BedIntervalReport(views: seq<BedView>) returns (errorList: seq<string>)
    ensures errorList == DuplicateIntervalErrors(views)
  {
    var intervalList: seq<(string, int, int)> := [];
    for i := 0 to |views|
      invariant intervalList == IntervalKeys(views[..i])
    {
      var interval := (views[i].contig, views[i].start, views[i].end);
      IntervalKeysStep(views, i);
      intervalList := intervalList + [interval];
    }
    assert views[..|views|] == views;
    var duplicateIntervals := DetectCollisionsInList(intervalList);
    errorList := AppendMessages([], DuplicateIntervalMessage, duplicateIntervals);
  }

  // ---------------------------------------------------------------------
  // BED records against the index

  /** `contigLengthTable`: each contig's base length; when a contig is listed
      twice the later record wins. */
  function LengthTable(faidxData: seq<FastaIndexLine>): map<string, int> {
    if faidxData == [] then map[]
    else
      var last := faidxData[|faidxData| - 1];
      LengthTable(faidxData[..|faidxData| - 1])[last.contig := last.baseLength]
  }

  /** The table knows exactly the contigs of the index, and gives each the
      length of its last record. */
  lemma {:induction false} LaterLengthWins(faidxData: seq<FastaIndexLine>, contig: string)
    ensures contig in LengthTable(faidxData) <==> contig in ContigNames(faidxData)
    ensures contig in LengthTable(faidxData) ==>
      exists k :: 0 <= k < |faidxData| && faidxData[k].contig == contig
                  && LengthTable(faidxData)[contig] == faidxData[k].baseLength
                  && forall j :: k < j < |faidxData| ==> faidxData[j].contig != contig
  {
    if faidxData != [] {
      var front, last := faidxData[..|faidxData| - 1], faidxData[|faidxData| - 1];
      assert faidxData == front + [last];
      assert ContigNames(faidxData) == ContigNames(front) + [last.contig];
      LaterLengthWins(front, contig);
      if last.contig != contig && contig in LengthTable(front) {
        var k :| 0 <= k < |front| && front[k].contig == contig
                 && LengthTable(front)[contig] == front[k].baseLength
                 && forall j :: k < j < |front| ==> front[j].contig != contig;
        assert faidxData[k] == front[k];
        assert forall j :: k < j < |faidxData| ==> faidxData[j].contig != contig by {
          forall j | k < j < |faidxData| ensures faidxData[j].contig != contig {
            if j < |front| {
              assert faidxData[j] == front[j];
            }
          }
        }
      }
    }
  }

  function MissingContigMessage(name: string, contig: string): string {
    "BED line " + name + " tried to reference contig " + contig + " which does not exist in the FASTA file."
  }

  function OutOfBoundsMessage(name: string, shown: string): string {
    "BED line " + name + " is trying to read interval " + shown + " which is out of its contig's bounds"
  }

  /** What `crosscheckBEDFile` says about one record: its contig is missing,
      or its last included base lies beyond the contig's base length, or
      nothing. */
  function CrosscheckError(v: BedView, contigLengthTable: map<string, int>): (r: Option<string>)
    ensures r.None? <==> v.contig in contigLengthTable && v.end - 1 <= contigLengthTable[v.contig]
  {
    if v.contig !in contigLengthTable then Some(MissingContigMessage(v.name, v.contig))
    else if v.end - 1 > contigLengthTable[v.contig] then Some(OutOfBoundsMessage(v.name, v.shown))
    else None
  }

  /** The messages of `crosscheckBEDFile`, in record order. */
  function CrosscheckErrors(views: seq<BedView>, contigLengthTable: map<string, int>): seq<string> {
    if views == [] then []
    else
      var last := CrosscheckError(views[|views| - 1], contigLengthTable);
      CrosscheckErrors(views[..|views| - 1], contigLengthTable) + (if last.Some? then [last.value] else [])
  }

  /** At most one message per record: each record with a finding contributes
      exactly its message, and the list is empty iff every record lies
      within a known contig. */
  lemma {:induction false} CrosscheckErrorsPerRecord(views: seq<BedView>, contigLengthTable: map<string, int>)
    ensures |CrosscheckErrors(views, contigLengthTable)| <= |views|
    ensures CrosscheckErrors(views, contigLengthTable) == [] <==>
      forall k :: 0 <= k < |views| ==> CrosscheckError(views[k], contigLengthTable).None?
  {
    if views != [] {
      var front := views[..|views| - 1];
      CrosscheckErrorsPerRecord(front, contigLengthTable);
      if CrosscheckErrors(views, contigLengthTable) == [] {
        forall k | 0 <= k < |views| ensures CrosscheckError(views[k], contigLengthTable).None? {
          if k < |front| {
            assert views[k] == front[k];
          }
        }
      } else if CrosscheckErrors(front, contigLengthTable) != [] {
        var k :| 0 <= k < |front| && CrosscheckError(front[k], contigLengthTable).Some?;
        assert views[k] == front[k];
      }
    }
  }

  /** Every record that fails the crosscheck has its message listed. */
  lemma {:induction false} CrosscheckErrorsListed(views: seq<BedView>, contigLengthTable: map<string, int>, k: int)
    requires 0 <= k < |views| && CrosscheckError(views[k], contigLengthTable).Some?
    ensures CrosscheckError(views[k], contigLengthTable).value in CrosscheckErrors(views, contigLengthTable)
  {
    var front := views[..|views| - 1];
    if k < |front| {
      assert views[k] == front[k];
      CrosscheckErrorsListed(front, contigLengthTable, k);
    }
  }

  /** Every listed message comes from a record that fails the crosscheck. */
  lemma {:induction false} CrosscheckErrorsOnlyListed(views: seq<BedView>, contigLengthTable: map<string, int>, m: string)
    requires m in CrosscheckErrors(views, contigLengthTable)
    ensures exists k :: 0 <= k < |views| && CrosscheckError(views[k], contigLengthTable) == Some(m)
  {
    var front := views[..|views| - 1];
    if m in CrosscheckErrors(front, contigLengthTable) {
      CrosscheckErrorsOnlyListed(front, contigLengthTable, m);
      var k :| 0 <= k < |front| && CrosscheckError(front[k], contigLengthTable) == Some(m);
      assert views[k] == front[k];
    } else {
      assert CrosscheckError(views[|views| - 1], contigLengthTable) == Some(m);
    }
  }

  /** The bound is compared with `>`: an interval whose end is one past the
      contig's base length still passes. */
  lemma EndOnePastLengthPasses(v: BedView, contigLengthTable: map<string, int>)
    requires v.contig in contigLengthTable && v.end == contigLengthTable[v.contig] + 1
    ensures CrosscheckError(v, contigLengthTable) == None
  {
  }

  /** `crosscheckBEDFile`: build the length table from the index, then check
      every record against it. */
  method CrosscheckBEDFile(bedList: seq<BEDLine>, faidxData: seq<FastaIndexLine>) returns (errorList: seq<string>)
    ensures errorList == CrosscheckErrors(Views(bedList), LengthTable(faidxData))
  {
    label Start:
    errorList := CrosscheckViews(Views(bedList), faidxData);
    ViewsUnchanged@Start(bedList);
  }

  /** The body of `crosscheckBEDFile`, on the records' views. */
  method CrosscheckViews(views: seq<BedView>, faidxData: seq<FastaIndexLine>) returns (errorList: seq<string>)
    ensures errorList == CrosscheckErrors(views, LengthTable(faidxData))
  {
    var contigLengthTable: map<string, int> := map[];
    for i := 0 to |faidxData|
      invariant contigLengthTable == LengthTable(faidxData[..i])
    {
      assert faidxData[..i + 1][..i] == faidxData[..i];
      contigLengthTable := contigLengthTable[faidxData[i].contig := faidxData[i].baseLength];
    }
    assert faidxData[..|faidxData|] == faidxData;
    errorList := [];
    for j := 0 to |views|
      invariant errorList == CrosscheckErrors(views[..j], contigLengthTable)
    {
      var v := views[j];
      assert views[..j + 1][..j] == views[..j];
      if v.contig !in contigLengthTable {
        errorList := errorList + [MissingContigMessage(v.name, v.contig)];
        continue;
      }
      if v.end - 1 > contigLengthTable[v.contig] {
        errorList := errorList + [OutOfBoundsMessage(v.name, v.shown)];
      }
    }
    assert views[..|views|] == views;
  }

  // ---------------------------------------------------------------------
  // Merging

  /** `prependFileNameToErrorLines`: every message prefixed with the file
      name and ": ", in the same order. */
  function PrependFileNameToErrorLines(fileName: string, errorList: seq<string>): (r: seq<string>)
    ensures |r| == |errorList|
    ensures forall k :: 0 <= k < |r| ==> r[k] == fileName + ": " + errorList[k]
  {
    if errorList == [] then errorList
    else seq(|errorList|, k requires 0 <= k < |errorList| => fileName + ": " + errorList[k])
  }

  /** Prefixing two lists joined is joining the two prefixed lists. */
  lemma PrependDistributes(fileName: string, first: seq<string>, second: seq<string>)
    ensures PrependFileNameToErrorLines(fileName, first + second)
         == PrependFileNameToErrorLines(fileName, first) + PrependFileNameToErrorLines(fileName, second)
  {
  }

  /** What `validateFASTA` returns: the naming messages of the index, then the
      duplicate-sequence messages of the dictionary. */
  function FastaErrors(faidx: seq<FastaIndexLine>, fastaDict: seq<FastaDictLine>): seq<string> {
    NamingErrors(ContigsNoun, ContigNames(faidx)) + DuplicateContigErrors(fastaDict)
  }

  /** `validateFASTA`. */
  method ValidateFASTA(faidx: seq<FastaIndexLine>, fastaDict: seq<FastaDictLine>) returns (errorList: seq<string>)
    ensures errorList == FastaErrors(faidx, fastaDict)
  {
    errorList := [];
    var namingErrors := MakeNamingErrorList(faidx);
    var duplicateContigs := CheckForDuplicateContigs(fastaDict);
    errorList := errorList + namingErrors;
    errorList := errorList + duplicateContigs;
  }

  /** Different simplified names come from different names. */
  lemma SimplifiedDistinct(names: seq<string>)
    requires Distinct(Simplified(names))
    ensures Distinct(names)
  {
    forall i, j | 0 <= i < j < |names| ensures names[i] != names[j] {
      assert Simplified(names)[i] != Simplified(names)[j];
    }
  }

  /** A FASTA whose contig names stay different once simplified and whose
      contigs have pairwise different digests passes `validateFASTA`. */
  lemma CleanFastaPasses(faidx: seq<FastaIndexLine>, fastaDict: seq<FastaDictLine>)
    requires Distinct(Simplified(ContigNames(faidx)))
    requires Distinct(Hashes(fastaDict))
    ensures FastaErrors(faidx, fastaDict) == []
  {
    var names := ContigNames(faidx);
    SimplifiedDistinct(names);
    forall x ensures Count(names, x) <= 1 {
      DistinctCountsAtMostOne(names, x);
    }
    NoCollisionsWhenDistinct(names);
    forall x ensures Count(Simplified(names), x) <= 1 {
      DistinctCountsAtMostOne(Simplified(names), x);
    }
    NoCollisionsWhenDistinct(Simplified(names));
    UniqueDigestsUnreported(fastaDict);
  }

  function NumberedMessage(lineNumber: int, error: string): string {
    "Line " + IntToString(lineNumber) + ": " + error
  }

  function Numbered(lineNumber: int, errors: seq<string>): (r: seq<string>)
    ensures |r| == |errors|
  {
    seq(|errors|, k requires 0 <= k < |errors| => NumberedMessage(lineNumber, errors[k]))
  }

  /** The first loop of `validateBED`: each record's `errors`, numbered from
      1 in record order; evaluating `errors` may raise. */
  function LineErrors(views: seq<BedView>): Result<seq<string>> {
    if views == [] then Ok([])
    else
      match LineErrors(views[..|views| - 1])
      case Err(fault) => Err(fault)
      case Ok(before) =>
        match views[|views| - 1].errors
        case Err(fault) => Err(fault)
        case Ok(errors) => Ok(before + Numbered(|views|, errors))
  }

  /** The loop raises iff some record's `errors` raises, and then with the
      first such record's fault. */
  lemma {:induction false} LineErrorsRaise(views: seq<BedView>)
    ensures LineErrors(views).Ok? <==> forall k :: 0 <= k < |views| ==> views[k].errors.Ok?
    ensures LineErrors(views).Err? ==>
      exists k :: (0 <= k < |views| && views[k].errors == Err(LineErrors(views).fault)
                   && forall j :: 0 <= j < k ==> views[j].errors.Ok?)
  {
    if views != [] {
      var front, last := views[..|views| - 1], views[|views| - 1];
      assert views == front + [last];
      LineErrorsRaise(front);
      assert forall j :: 0 <= j < |front| ==> views[j] == front[j];
      if LineErrors(front).Err? {
        var k :| 0 <= k < |front| && front[k].errors == Err(LineErrors(front).fault)
                 && forall j :: 0 <= j < k ==> front[j].errors.Ok?;
        assert views[k] == front[k];
      }
    }
  }

  /** Every message of every record appears, numbered with its record's
      1-based position. */
  lemma {:induction false} LineErrorsListed(views: seq<BedView>, k: int, e: string)
    requires LineErrors(views).Ok?
    requires 0 <= k < |views| && views[k].errors.Ok? && e in views[k].errors.value
    ensures NumberedMessage(k + 1, e) in LineErrors(views).value
  {
    var front, last := views[..|views| - 1], views[|views| - 1];
    assert views == front + [last];
    if k < |front| {
      assert views[k] == front[k];
      LineErrorsListed(front, k, e);
    } else {
      var numbered := Numbered(|views|, last.errors.value);
      var i :| 0 <= i < |last.errors.value| && last.errors.value[i] == e;
      assert numbered[i] == NumberedMessage(k + 1, e);
    }
  }

  /** Every numbered message is one of a record's messages, numbered with
      that record's 1-based position. */
  lemma {:induction false} LineErrorsOnlyListed(views: seq<BedView>, m: string)
    requires LineErrors(views).Ok? && m in LineErrors(views).value
    ensures exists k, e :: 0 <= k < |views| && views[k].errors.Ok? && e in views[k].errors.value
                           && m == NumberedMessage(k + 1, e)
  {
    var front, last := views[..|views| - 1], views[|views| - 1];
    var before := LineErrors(front).value;
    var numbered := Numbered(|views|, last.errors.value);
    assert LineErrors(views).value == before + numbered;
    if m in before {
      LineErrorsOnlyListed(front, m);
      var k, e :| 0 <= k < |front| && front[k].errors.Ok? && e in front[k].errors.value && m == NumberedMessage(k + 1, e);
      assert views[k] == front[k];
    } else {
      var i :| 0 <= i < |numbered| && numbered[i] == m;
      var e := last.errors.value[i];
      assert e in views[|views| - 1].errors.value && m == NumberedMessage(|views| - 1 + 1, e);
    }
  }

  /** What `validateBED` returns: the numbered record messages, then the
      naming messages of the records' names, then the duplicated-interval
      messages; or the fault of a record whose `errors` raises. */
  function BedErrors(views: seq<BedView>): Result<seq<string>> {
    match LineErrors(views)
    case Err(fault) => Err(fault)
    case Ok(lineErrors) => Ok(lineErrors + NamingErrors(BedNoun, BedNames(views)) + DuplicateIntervalErrors(views))
  }

  /** The first loop of `validateBED`: each record's messages, numbered.
      The records' `errors` is read through its value, `ErrorList()`. */
  method NumberLineErrors(views: seq<BedView>) returns (r: Result<seq<string>>)
    ensures r == LineErrors(views)
  {
    var errorList: seq<string> := [];
    for lineNumber := 0 to |views|
      invariant LineErrors(views[..lineNumber]) == Ok(errorList)
    {
      var errors := views[lineNumber].errors;
      LineErrorsStep(views, lineNumber);
      if errors.Err? {
        LineErrorsStops(views, lineNumber + 1);
        return Err(errors.fault);
      }
      ghost var before := errorList;
      for k := 0 to |errors.value|
        invariant errorList == before + Numbered(lineNumber + 1, errors.value[..k])
      {
        NumberedStep(lineNumber + 1, errors.value, k);
        errorList := errorList + [NumberedMessage(lineNumber + 1, errors.value[k])];
      }
      assert errors.value[..|errors.value|] == errors.value;
    }
    assert views[..|views|] == views;
    return Ok(errorList);
  }

  lemma NumberedStep(lineNumber: int, errors: seq<string>, k: int)
    requires 0 <= k < |errors|
    ensures Numbered(lineNumber, errors[..k + 1]) == Numbered(lineNumber, errors[..k]) + [NumberedMessage(lineNumber, errors[k])]
  {
  }

  /** `validateBED`: the records' own messages, numbered, then the name and
      interval duplicate checks. */
  method ValidateBED(bedList: seq<BEDLine>) returns (r: Result<seq<string>>)
    ensures r == BedErrors(Views(bedList))
  {
    label Start:
    r := ValidateBedViews(Views(bedList));
    ViewsUnchanged@Start(bedList);
  }

  /** The body of `validateBED`, on the records' views. */
  method ValidateBedViews(views: seq<BedView>) returns (r: Result<seq<string>>)
    ensures r == BedErrors(views)
  {
    var lineErrors := NumberLineErrors(views);
    if lineErrors.Err? {
      return Err(lineErrors.fault);
    }
    var duplicateIntervalNames := BedNameReport(views);
    var duplicateIntervals := BedIntervalReport(views);
    var errorList := lineErrors.value + duplicateIntervalNames;
    errorList := errorList + duplicateIntervals;
    return Ok(errorList);
  }

  /** One more record, in terms of the records before it. */
  lemma LineErrorsStep(views: seq<BedView>, i: int)
    requires 0 <= i < |views|
    ensures LineErrors(views[..i + 1]) ==
      match LineErrors(views[..i])
      case Err(fault) => Err(fault)
      case Ok(before) =>
        match views[i].errors
        case Err(fault) => Err(fault)
        case Ok(errors) => Ok(before + Numbered(i + 1, errors))
  {
    assert views[..i + 1][..i] == views[..i];
  }

  /** Once a record raises, the later records do not matter. */
  lemma {:induction false} LineErrorsStops(views: seq<BedView>, n: int)
    requires 0 <= n <= |views|
    requires LineErrors(views[..n]).Err?
    ensures LineErrors(views) == LineErrors(views[..n])
  {
    if n < |views| {
      var front := views[..|views| - 1];
      assert front[..n] == views[..n];
      LineErrorsStops(front, n);
    } else {
      assert views[..n] == views;
    }
  }
}
