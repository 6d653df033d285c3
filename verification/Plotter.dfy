/** The snapshot reader of plotter.py. `num` stands for Python's float(). */
module Plotter {
  import opened Text
  import opened Wrappers

  datatype Triple = Triple(exec: real, vruntime: real, sum: real)

  /** A value, or the exception that ends the script. */
  datatype PyResult<+T> = Ok(value: T) | IndexError | ValueError {
    predicate IsFailure() { !Ok? }
    function PropagateFailure<U>(): PyResult<U>
      requires IsFailure()
    {
      if IndexError? then IndexError else ValueError
    }
    function Extract(): T
      requires !IsFailure()
    {
      value
    }
  }

  datatype Parsed = Parsed(utime: real, hackbench: seq<Triple>, gzip: Option<Triple>)

  type Num = string -> Option<real>

  function Float(num: Num, s: string): PyResult<real> {
    if num(s).None? then ValueError else Ok(num(s).value)
  }

  /** `float(line.split(":")[1])` */
  function Field(num: Num, line: string): PyResult<real> {
    if |Split(line, ':')| < 2 then IndexError else Float(num, Split(line, ':')[1])
  }

  /** The three numbers on the lines after a process's first line. */
  function ReadTriple(num: Num, ls: seq<string>): PyResult<Triple> {
    if |ls| < 1 then IndexError else
    var exec :- Field(num, ls[0]);
    if |ls| < 2 then IndexError else
    var vruntime :- Field(num, ls[1]);
    if |ls| < 3 then IndexError else
    var sum :- Field(num, ls[2]);
    Ok(Triple(exec, vruntime, sum / 1000.0))
  }

  predicate IsGzip(line: string) {
    "gzip" <= line
  }

  /** The loop of parse_snapshot over the lines from some index on. */
  function ParseLines(num: Num, ls: seq<string>, times: seq<Triple>, gzip: Option<Triple>)
    : PyResult<(seq<Triple>, Option<Triple>)>
    decreases |ls|
  {
    if ls == [] then Ok((times, gzip))
    else if Contains(ls[0], "hackbench") then
      if |ls| < 2 then IndexError
      else if |Split(ls[1], ':')| < 2 then ParseLines(num, ls[1..], times, gzip)
      else
        var t :- ReadTriple(num, ls[1..]);
        ParseLines(num, ls[1..], times + [t], gzip)
    else if IsGzip(ls[0]) then
      var t :- ReadTriple(num, ls[1..]);
      ParseLines(num, ls[1..], times, Some(t))
    else ParseLines(num, ls[1..], times, gzip)
  }

  function Parse(num: Num, content: string): PyResult<Parsed> {
    var lines := Split(content, '\n');
    var utime :- Float(num, Split(lines[0], ' ')[0]);
    var r :- ParseLines(num, lines[1..], [], None);
    Ok(Parsed(utime, r.0, r.1))
  }

  method ParseSnapshot(num: Num, content: string) returns (r: PyResult<Parsed>)
    ensures r == Parse(num, content)
  {
    hide Split, Contains, ReadTriple;
    var lines := Split(content, '\n');
    var utime :- Float(num, Split(lines[0], ' ')[0]);
    var times: seq<Triple>, gzip: Option<Triple> := [], None;
    var i := 1;
    while i < |lines|
      invariant 1 <= i <= |lines|
      invariant ParseLines(num, lines[1..], [], None) == ParseLines(num, lines[i..], times, gzip)
    {
      var line := lines[i];
      ghost var here := lines[i..];
      assert here[0] == line && here[1..] == lines[i + 1..];
      if Contains(line, "hackbench") {
        if i + 1 >= |lines| {
          return IndexError;
        }
        assert here[1] == lines[i + 1];
        if |Split(lines[i + 1], ':')| >= 2 {
          var t :- ReadTriple(num, lines[i + 1..]);
          times := times + [t];
        }
      } else if IsGzip(line) {
        var t :- ReadTriple(num, lines[i + 1..]);
        gzip := Some(t);
      }
      i := i + 1;
    }
    r := Ok(Parsed(utime, times, gzip));
  }

  // ----- the whole log

  const MARK := "[TIME] "
  const WORKERS := 5

  function ParseAll(num: Num, points: seq<string>): PyResult<seq<Parsed>> {
    if points == [] then Ok([])
    else if Count(points[0], "hackbench") == WORKERS then
      var first :- Parse(num, points[0]);
      var rest :- ParseAll(num, points[1..]);
      Ok([first] + rest)
    else ParseAll(num, points[1..])
  }

  function ReadLogOf(num: Num, log: string): PyResult<seq<Parsed>> {
    ParseAll(num, SplitOn(log, MARK)[1..])
  }

  // ----- which texts parse at all

  lemma {:induction false} ColonSplits(line: string)
    ensures |Split(line, ':')| >= 2 <==> ':' in line
  {
    if ':' in line {
      var a, b := FirstOf(line, ':');
      SplitAtFirst(a, ':', b);
    } else {
      SplitNone(line, ':');
    }
  }

  /** A line whose second field at colons is a number. */
  predicate HasNumber(num: Num, line: string) {
    ':' in line && |Split(line, ':')| >= 2 && num(Split(line, ':')[1]).Some?
  }

  /** Without a colon there is no second field; with one, it may not be a number. */
  lemma FieldErrors(num: Num, line: string)
    ensures Field(num, line).IndexError? <==> ':' !in line
    ensures Field(num, line).ValueError? <==> ':' in line && !HasNumber(num, line)
  {
    ColonSplits(line);
  }

  lemma TripleOkIff(num: Num, ls: seq<string>)
    ensures ReadTriple(num, ls).Ok? <==>
      |ls| >= 3 && HasNumber(num, ls[0]) && HasNumber(num, ls[1]) && HasNumber(num, ls[2])
  {
    forall k | 0 <= k < |ls| && k < 3 ensures Field(num, ls[k]).Ok? <==> HasNumber(num, ls[k]) {
      ColonSplits(ls[k]);
    }
  }

  /**
   The lines three numbers are read after: a mention of hackbench, unless the next
   line has no colon, and a line that starts with gzip.
   */
  predicate Announces(ls: seq<string>, k: nat)
    requires k < |ls|
  {
    if Contains(ls[k], "hackbench") then k + 1 < |ls| ==> ':' in ls[k + 1] else "gzip" <= ls[k]
  }

  predicate Followed(num: Num, ls: seq<string>, k: nat) {
    && k + 3 < |ls|
    && HasNumber(num, ls[k + 1]) && HasNumber(num, ls[k + 2]) && HasNumber(num, ls[k + 3])
  }

  lemma FollowedFirst(num: Num, ls: seq<string>)
    requires ls != []
    ensures Followed(num, ls, 0) <==> ReadTriple(num, ls[1..]).Ok?
  {
    TripleOkIff(num, ls[1..]);
    hide ReadTriple, HasNumber;
    assert |ls| >= 4 ==> ls[1..][0] == ls[1] && ls[1..][1] == ls[2] && ls[1..][2] == ls[3];
  }

  lemma ParseFirst(num: Num, ls: seq<string>, times: seq<Triple>, gzip: Option<Triple>)
    requires ls != []
    ensures ParseLines(num, ls, times, gzip).Ok? ==> Announces(ls, 0) ==> Followed(num, ls, 0)
    ensures (Announces(ls, 0) ==> Followed(num, ls, 0)) ==>
      exists more, last :: ParseLines(num, ls, times, gzip) == ParseLines(num, ls[1..], more, last)
  {
    FollowedFirst(num, ls);
    if |ls| > 1 {
      ColonSplits(ls[1]);
    }
    hide ReadTriple, Split, Contains, HasNumber;
    if Announces(ls, 0) && Followed(num, ls, 0) {
      var t := ReadTriple(num, ls[1..]).value;
      assert ParseLines(num, ls, times, gzip) ==
        if Contains(ls[0], "hackbench") then ParseLines(num, ls[1..], times + [t], gzip)
        else ParseLines(num, ls[1..], times, Some(t));
    } else if !Announces(ls, 0) {
      assert ParseLines(num, ls, times, gzip) == ParseLines(num, ls[1..], times, gzip);
    }
  }

  lemma ShiftOne(num: Num, ls: seq<string>, k: nat)
    requires k + 1 < |ls|
    ensures Announces(ls[1..], k) == Announces(ls, k + 1)
    ensures Followed(num, ls[1..], k) == Followed(num, ls, k + 1)
  {
    hide HasNumber, Contains;
  }

  lemma ParsesShift(num: Num, ls: seq<string>)
    requires ls != []
    ensures (forall k: nat :: k < |ls| && Announces(ls, k) ==> Followed(num, ls, k)) <==>
      && (Announces(ls, 0) ==> Followed(num, ls, 0))
      && (forall k: nat :: k < |ls[1..]| && Announces(ls[1..], k) ==> Followed(num, ls[1..], k))
  {
    forall k: nat | k < |ls[1..]|
      ensures Announces(ls[1..], k) == Announces(ls, k + 1) && Followed(num, ls[1..], k) == Followed(num, ls, k + 1)
    {
      ShiftOne(num, ls, k);
    }
    hide Announces, Followed;
    if forall k: nat :: k < |ls[1..]| && Announces(ls[1..], k) ==> Followed(num, ls[1..], k) {
      forall k: nat | 0 < k < |ls| && Announces(ls, k) ensures Followed(num, ls, k) {
        assert Announces(ls[1..], k - 1);
      }
    }
  }

  /**
   A snapshot parses exactly when each of those lines is followed by three lines
   with a number each; any other text is an error.
   */
  lemma {:induction false} ParsesIff(num: Num, ls: seq<string>, times: seq<Triple>, gzip: Option<Triple>)
    ensures ParseLines(num, ls, times, gzip).Ok? <==>
      forall k: nat :: k < |ls| && Announces(ls, k) ==> Followed(num, ls, k)
    decreases |ls|
  {
    if ls != [] {
      ParseFirst(num, ls, times, gzip);
      ParsesShift(num, ls);
      hide ParseLines, Announces, Followed;
      if Announces(ls, 0) ==> Followed(num, ls, 0) {
        var more, last :| ParseLines(num, ls, times, gzip) == ParseLines(num, ls[1..], more, last);
        ParsesIff(num, ls[1..], more, last);
      }
    }
  }

  // ----- the filter bounds the parser

  /** Every hackbench triple comes from a line that mentions hackbench. */
  lemma {:induction false} TriplesBound(num: Num, ls: seq<string>, times: seq<Triple>, gzip: Option<Triple>)
    ensures var r := ParseLines(num, ls, times, gzip);
      r.Ok? ==> |times| <= |r.value.0| <= |times| + CountAll(ls, "hackbench")
    decreases |ls|
  {
    if ls != [] {
      NotContainedCount(ls[0], "hackbench");
      var t := if |ls| > 1 then ReadTriple(num, ls[1..]) else IndexError;
      TriplesBound(num, ls[1..], times, gzip);
      if t.Ok? {
        TriplesBound(num, ls[1..], times + [t.value], gzip);
        TriplesBound(num, ls[1..], times, Some(t.value));
      }
      hide Split, SplitOn, Contains, ReadTriple, IsGzip;
    }
  }

  /** A snapshot yields no more triples than it mentions hackbench. */
  lemma {:induction false} SnapshotBound(num: Num, content: string)
    ensures var r := Parse(num, content);
      r.Ok? ==> |r.value.hackbench| <= Count(content, "hackbench")
  {
    var lines := Split(content, '\n');
    CountSplit(content, '\n', "hackbench");
    TriplesBound(num, lines[1..], [], None);
    hide Split, SplitOn, ParseLines;
  }

  /**
   What passes the filter fits the plot: every snapshot kept has at most as many
   hackbench triples as there are lists to append their numbers to, so the index
   of the last loop stays in range.
   */
  lemma {:induction false} TriplesFit(num: Num, points: seq<string>)
    ensures var r := ParseAll(num, points);
      r.Ok? ==> forall k :: 0 <= k < |r.value| ==> |r.value[k].hackbench| <= 5
  {
    if points != [] {
      SnapshotBound(num, points[0]);
      TriplesFit(num, points[1..]);
      hide Parse, Count;
    }
  }

  method ReadLog(num: Num, log: string) returns (r: PyResult<seq<Parsed>>)
    ensures r == ReadLogOf(num, log)
    ensures r.Ok? ==> forall k :: 0 <= k < |r.value| ==> |r.value[k].hackbench| <= 5
  {
    TriplesFit(num, SplitOn(log, MARK)[1..]);
    hide SplitOn, Parse, Count;
    var points := SplitOn(log, MARK)[1..];
    var processed: seq<Parsed> := [];
    var i := 0;
    ghost var all := ParseAll(num, points);
    assert points[0..] == points && (all.Ok? ==> [] + all.value == all.value);
    while i < |points|
      invariant i <= |points|
      invariant var rest := ParseAll(num, points[i..]);
        all == if rest.Ok? then Ok(processed + rest.value) else rest
    {
      ghost var here := points[i..];
      assert here[0] == points[i] && here[1..] == points[i + 1..];
      if Count(points[i], "hackbench") == WORKERS {
        var p :- ParseSnapshot(num, points[i]);
        ghost var rest := ParseAll(num, points[i + 1..]);
        if rest.Ok? {
          assert processed + ([p] + rest.value) == (processed + [p]) + rest.value;
        }
        processed := processed + [p];
      }
      i := i + 1;
    }
    assert points[i..] == [] && processed + [] == processed;
    r := Ok(processed);
  }
}
