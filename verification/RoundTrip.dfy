/** What plotter.py reads back from a log that sched_tracker.cpp wrote. */
module RoundTrip {
  import opened SchedTracker
  import opened Text
  import opened Wrappers
  import P = Plotter

  /** `key:value` */
  datatype Metric = Metric(key: string, value: string) {
    function Line(): string { key + ":" + value }
  }

  /** The sched file of a process: its first line, a rule, three metrics and the rest. */
  datatype Sched = Sched(header: string, rule: string, exec: Metric, vruntime: Metric, sum: Metric, rest: string) {
    function Text(): string {
      header + "\n" + (rule + "\n" + (exec.Line() + "\n" + (vruntime.Line() + "\n" + (sum.Line() + "\n" + rest))))
    }
  }

  /** A sched file that could not be opened, one that opened but reads empty (its process has ended), or a whole one. */
  datatype File = Unopened | Emptied | Whole(value: Sched) {
    function Text(): Option<string> {
      match this
      case Unopened => None
      case Emptied => Some("")
      case Whole(s) => Some(s.Text())
    }
  }

  /** A process directory. */
  datatype Proc = Proc(pid: string, sched: File) {
    function Dir(): Dir {
      SchedTracker.Dir(pid, sched.Text())
    }
  }

  function Dirs(procs: seq<Proc>): seq<Dir> {
    if procs == [] then [] else [procs[0].Dir()] + Dirs(procs[1..])
  }

  /** A machine at one moment: seconds up, seconds idle, and its processes. */
  datatype Moment = Moment(up: string, idle: string, procs: seq<Proc>) {
    function Snapshot(): Snapshot {
      SchedTracker.Snapshot(up + " " + idle + "\n", Dirs(procs))
    }
  }

  function Snapshots(moments: seq<Moment>): seq<Snapshot> {
    if moments == [] then [] else [moments[0].Snapshot()] + Snapshots(moments[1..])
  }

  // ----- fields that avoid the separators and the keywords

  /** What stands before each snapshot. */
  const TIME := "[TIME] "

  predicate StartsGzip(l: string) {
    |l| >= 4 && l[0] == 'g' && l[1] == 'z' && l[2] == 'i' && l[3] == 'p'
  }

  /** One line, not holding the mark between snapshots. */
  predicate Plain(s: string) {
    '\n' !in s && !Contains(s, TIME)
  }

  predicate PlainMetric(m: Metric) {
    && Plain(m.Line()) && ':' !in m.key && ':' !in m.value
    && !Contains(m.Line(), "hackbench") && !StartsGzip(m.Line())
  }

  predicate PlainSched(s: Sched) {
    && Plain(s.header) && '\n' !in s.rule
    && PlainMetric(s.exec) && PlainMetric(s.vruntime) && PlainMetric(s.sum)
  }

  predicate PlainProc(p: Proc) {
    && p.pid != "" && (forall k :: 0 <= k < |p.pid| ==> IsDigit(p.pid[k]))
    && (p.sched.Whole? ==> PlainSched(p.sched.value))
  }

  predicate PlainMoment(m: Moment) {
    && Plain(m.up + " " + m.idle) && ' ' !in m.up
    && forall k :: 0 <= k < |m.procs| ==> PlainProc(m.procs[k])
  }

  // ----- what should be read back

  function Numbers(num: P.Num, s: Sched): P.PyResult<P.Triple> {
    var e :- P.Float(num, s.exec.value);
    var v :- P.Float(num, s.vruntime.value);
    var x :- P.Float(num, s.sum.value);
    P.Ok(P.Triple(e, v, x / 1000.0))
  }

  predicate IsHackbench(p: Proc) {
    p.sched.Whole? && Contains(p.sched.value.header, "hackbench")
  }

  predicate IsGzip(p: Proc) {
    p.sched.Whole? && !IsHackbench(p) && StartsGzip(p.sched.value.header)
  }

  /** The hackbench processes' numbers in order, and the last gzip process's. */
  function Expected(num: P.Num, procs: seq<Proc>, times: seq<P.Triple>, gzip: Option<P.Triple>)
    : P.PyResult<(seq<P.Triple>, Option<P.Triple>)>
  {
    if procs == [] then P.Ok((times, gzip))
    else if IsHackbench(procs[0]) then
      var t :- Numbers(num, procs[0].sched.value);
      Expected(num, procs[1..], times + [t], gzip)
    else if IsGzip(procs[0]) then
      var t :- Numbers(num, procs[0].sched.value);
      Expected(num, procs[1..], times, Some(t))
    else Expected(num, procs[1..], times, gzip)
  }

  function ExpectedMoment(num: P.Num, m: Moment): P.PyResult<P.Parsed> {
    var utime :- P.Float(num, m.up);
    var r :- Expected(num, m.procs, [], None);
    P.Ok(P.Parsed(utime, r.0, r.1))
  }

  // ----- the writer, line by line

  function PidLine(p: Proc): string {
    "\"/proc/" + p.pid + "\""
  }

  function SchedTail(p: Proc): seq<string> {
    match p.sched
    case Unopened => []
    case Emptied => ["", "", "", ""]
    case Whole(s) => [s.header, s.exec.Line(), s.vruntime.Line(), s.sum.Line()]
  }

  function ProcLines(procs: seq<Proc>): seq<string> {
    if procs == [] then [] else [PidLine(procs[0])] + SchedTail(procs[0]) + ProcLines(procs[1..])
  }

  lemma {:induction false} CutLineAt(a: string, b: string)
    requires '\n' !in a
    ensures CutLine(a + "\n" + b) == (a, b)
  {
    if a == "" {
      assert ("" + "\n" + b)[1..] == b;
    } else {
      CutLineAt(a[1..], b);
      assert (a + "\n" + b)[1..] == a[1..] + "\n" + b;
      assert [a[0]] + a[1..] == a;
    }
  }

  lemma GetlineAt(a: string, b: string, line: string)
    requires '\n' !in a
    ensures Getline(Stream(a + "\n" + b, true), line) == (Stream(b, true), a)
  {
    CutLineAt(a, b);
    assert (a + "\n" + b)[|a|] == '\n';
  }

  lemma UnlinesOne(a: string, ls: seq<string>)
    ensures Unlines([a] + ls) == (a + "\n") + Unlines(ls)
  {
    assert ([a] + ls)[1..] == ls;
  }

  lemma FourLines(a: string, b: string, c: string, d: string)
    ensures Unlines([a, b, c, d]) == (a + "\n") + ((b + "\n") + ((c + "\n") + (d + "\n")))
  {
    UnlinesOne(d, []);
    UnlinesOne(c, [d]);
    UnlinesOne(b, [c, d]);
    UnlinesOne(a, [b, c, d]);
    assert [d] + [] == [d] && [c] + [d] == [c, d] && [b] + [c, d] == [b, c, d] && [a] + [b, c, d] == [a, b, c, d];
  }

  lemma SchedLinesOf(s: Sched)
    requires PlainSched(s)
    ensures SchedLines(s.Text()) == Unlines([s.header, s.exec.Line(), s.vruntime.Line(), s.sum.Line()])
  {
    hide Getline, Contains;
    var e, v, x := s.exec.Line(), s.vruntime.Line(), s.sum.Line();
    GetlineAt(s.header, s.rule + "\n" + (e + "\n" + (v + "\n" + (x + "\n" + s.rest))), "");
    GetlineAt(s.rule, e + "\n" + (v + "\n" + (x + "\n" + s.rest)), s.header);
    GetlineAt(e, v + "\n" + (x + "\n" + s.rest), s.rule);
    GetlineAt(v, x + "\n" + s.rest, e);
    GetlineAt(x, s.rest, v);
    FourLines(s.header, e, v, x);
  }

  lemma {:induction false} UnlinesJoin(a: seq<string>, b: seq<string>)
    ensures Unlines(a + b) == Unlines(a) + Unlines(b)
  {
    if a == [] {
      assert [] + b == b;
    } else {
      UnlinesJoin(a[1..], b);
      assert (a + b)[1..] == a[1..] + b;
    }
  }

  lemma {:induction false} EscapedPlain(s: string)
    requires '"' !in s && '\\' !in s
    ensures Escaped(s) == s
  {
    if s != "" {
      EscapedPlain(s[1..]);
      assert [s[0]] + s[1..] == s;
    }
  }

  /** A file that reads empty leaves the line buffer empty, four times over. */
  lemma EmptyLines()
    ensures SchedLines("") == Unlines(["", "", "", ""])
  {
    FourLines("", "", "", "");
  }

  lemma EntryOf(p: Proc)
    requires PlainProc(p)
    ensures Entry(p.Dir()) == Unlines([PidLine(p)] + SchedTail(p))
  {
    EscapedPlain("/proc/" + p.pid);
    assert PathLine(p.pid) == PidLine(p) + "\n";
    UnlinesOne(PidLine(p), SchedTail(p));
    match p.sched
    case Unopened =>
    case Emptied => EmptyLines();
    case Whole(s) => SchedLinesOf(s);
  }

  lemma {:induction false} EntriesOf(procs: seq<Proc>)
    requires forall k :: 0 <= k < |procs| ==> PlainProc(procs[k])
    ensures Entries(Dirs(procs)) == Unlines(ProcLines(procs))
  {
    if procs != [] {
      EntryOf(procs[0]);
      EntriesOf(procs[1..]);
      assert Dirs(procs)[1..] == Dirs(procs[1..]);
      UnlinesJoin([PidLine(procs[0])] + SchedTail(procs[0]), ProcLines(procs[1..]));
    }
  }

  /** A snapshot without its mark and its last newline. */
  function Stem(m: Moment): string {
    m.up + " " + m.idle + Unlines(ProcLines(m.procs))
  }

  lemma Group3(a: string, b: string, c: string, d: string)
    ensures a + b + c + d == a + (b + c + d)
  {
  }

  lemma UptimeLine(m: Moment)
    requires PlainMoment(m)
    ensures Getline(Stream(m.Snapshot().uptime, true), "").1 == m.up + " " + m.idle
  {
    var uptime := m.up + " " + m.idle;
    assert uptime + "\n" + "" == uptime + "\n";
    GetlineAt(uptime, "", "");
  }

  lemma RenderOf(m: Moment)
    requires PlainMoment(m)
    ensures Render(m.Snapshot()) == TIME + (Stem(m) + ['\n'])
  {
    UptimeLine(m);
    EntriesOf(m.procs);
    hide Getline, Entries, Unlines, ProcLines, PlainMoment;
    Group3(TIME, m.up + " " + m.idle, Unlines(ProcLines(m.procs)), "\n");
  }

  // ----- the reader, process by process

  lemma MetricSplit(m: Metric)
    requires PlainMetric(m)
    ensures Split(m.Line(), ':') == [m.key, m.value]
  {
    SplitAtFirst(m.key, ':', m.value);
    SplitNone(m.value, ':');
    assert m.Line() == m.key + [':'] + m.value;
  }

  lemma FieldOf(num: P.Num, m: Metric)
    requires PlainMetric(m)
    ensures P.Field(num, m.Line()) == P.Float(num, m.value)
  {
    MetricSplit(m);
  }

  lemma TripleOf(num: P.Num, s: Sched, ls: seq<string>)
    requires PlainSched(s) && |ls| >= 3
    requires ls[0] == s.exec.Line() && ls[1] == s.vruntime.Line() && ls[2] == s.sum.Line()
    ensures P.ReadTriple(num, ls) == Numbers(num, s)
  {
    FieldOf(num, s.exec);
    FieldOf(num, s.vruntime);
    FieldOf(num, s.sum);
  }

  lemma GzipLetters(l: string)
    ensures P.IsGzip(l) <==> StartsGzip(l)
  {
    assert StartsGzip(l) ==> l[..4] == "gzip";
  }

  lemma SkipLine(num: P.Num, l: string, ls: seq<string>, times: seq<P.Triple>, gzip: Option<P.Triple>)
    requires !Contains(l, "hackbench") && !StartsGzip(l)
    ensures P.ParseLines(num, [l] + ls, times, gzip) == P.ParseLines(num, ls, times, gzip)
  {
    GzipLetters(l);
    assert ([l] + ls)[1..] == ls;
  }

  lemma SkipMetrics(num: P.Num, s: Sched, ls: seq<string>, times: seq<P.Triple>, gzip: Option<P.Triple>)
    requires PlainSched(s)
    ensures P.ParseLines(num, [s.exec.Line(), s.vruntime.Line(), s.sum.Line()] + ls, times, gzip) ==
      P.ParseLines(num, ls, times, gzip)
  {
    var e, v, x := s.exec.Line(), s.vruntime.Line(), s.sum.Line();
    SkipLine(num, x, ls, times, gzip);
    SkipLine(num, v, [x] + ls, times, gzip);
    SkipLine(num, e, [v] + ([x] + ls), times, gzip);
    hide P.ParseLines;
    assert [e, v, x] + ls == [e] + ([v] + ([x] + ls));
  }

  lemma SkipEmpty(num: P.Num, ls: seq<string>, times: seq<P.Triple>, gzip: Option<P.Triple>)
    ensures P.ParseLines(num, ["", "", "", ""] + ls, times, gzip) == P.ParseLines(num, ls, times, gzip)
  {
    SkipLine(num, "", ls, times, gzip);
    SkipLine(num, "", [""] + ls, times, gzip);
    SkipLine(num, "", [""] + ([""] + ls), times, gzip);
    SkipLine(num, "", [""] + ([""] + ([""] + ls)), times, gzip);
    hide P.ParseLines;
    assert ["", "", "", ""] + ls == [""] + ([""] + ([""] + ([""] + ls)));
  }

  /** What reading one process's lines does to the two accumulators. */
  function After(num: P.Num, p: Proc, times: seq<P.Triple>, gzip: Option<P.Triple>)
    : P.PyResult<(seq<P.Triple>, Option<P.Triple>)>
  {
    if IsHackbench(p) then
      var t :- Numbers(num, p.sched.value);
      P.Ok((times + [t], gzip))
    else if IsGzip(p) then
      var t :- Numbers(num, p.sched.value);
      P.Ok((times, Some(t)))
    else P.Ok((times, gzip))
  }

  lemma ReadTail(num: P.Num, p: Proc, ls: seq<string>, times: seq<P.Triple>, gzip: Option<P.Triple>)
    requires PlainProc(p)
    ensures var a := After(num, p, times, gzip);
      P.ParseLines(num, SchedTail(p) + ls, times, gzip) ==
      if a.Ok? then P.ParseLines(num, ls, a.value.0, a.value.1) else a
  {
    if p.sched.Unopened? {
      assert SchedTail(p) + ls == ls;
    } else if p.sched.Emptied? {
      SkipEmpty(num, ls, times, gzip);
    } else {
      var s := p.sched.value;
      var all, rest := SchedTail(p) + ls, [s.exec.Line(), s.vruntime.Line(), s.sum.Line()] + ls;
      assert all[0] == s.header && all[1..] == rest;
      assert all[1] == s.exec.Line();
      GzipLetters(s.header);
      MetricSplit(s.exec);
      TripleOf(num, s, rest);
      var a := After(num, p, times, gzip);
      if a.Ok? {
        SkipMetrics(num, s, ls, a.value.0, a.value.1);
      }
    }
  }

  lemma PidLineSkipped(p: Proc)
    requires PlainProc(p)
    ensures !Contains(PidLine(p), "hackbench") && !StartsGzip(PidLine(p)) && Count(PidLine(p), "hackbench") == 0
    ensures '\n' !in PidLine(p) && ' ' !in PidLine(p) && !Contains(PidLine(p), TIME)
  {
    AbsentFirst(PidLine(p), "hackbench");
    AbsentFirst(PidLine(p), TIME);
  }

  lemma ExpectedFirst(num: P.Num, procs: seq<Proc>, times: seq<P.Triple>, gzip: Option<P.Triple>)
    requires procs != []
    ensures var a := After(num, procs[0], times, gzip);
      Expected(num, procs, times, gzip) == if a.Ok? then Expected(num, procs[1..], a.value.0, a.value.1) else a
  {
  }

  lemma {:induction false} ReadProcs(num: P.Num, procs: seq<Proc>, times: seq<P.Triple>, gzip: Option<P.Triple>)
    requires forall k :: 0 <= k < |procs| ==> PlainProc(procs[k])
    ensures P.ParseLines(num, ProcLines(procs) + ["", ""], times, gzip) == Expected(num, procs, times, gzip)
    decreases |procs|
  {
    if procs == [] {
      assert ProcLines(procs) + ["", ""] == [""] + [""];
      SkipLine(num, "", [""], times, gzip);
      assert [""] + [] == [""];
      SkipLine(num, "", [], times, gzip);
    } else {
      var p, more := procs[0], ProcLines(procs[1..]) + ["", ""];
      assert ProcLines(procs) + ["", ""] == [PidLine(p)] + (SchedTail(p) + more);
      hide P.ParseLines, StartsGzip, ProcLines, PidLine, SchedTail, PlainProc, After, Expected, Contains, Count;
      PidLineSkipped(p);
      SkipLine(num, PidLine(p), SchedTail(p) + more, times, gzip);
      ReadTail(num, p, more, times, gzip);
      ExpectedFirst(num, procs, times, gzip);
      var a := After(num, p, times, gzip);
      if a.Ok? {
        ReadProcs(num, procs[1..], a.value.0, a.value.1);
      }
    }
  }

  // ----- one snapshot

  predicate PlainLines(ls: seq<string>) {
    forall l :: l in ls ==> Plain(l)
  }

  lemma PlainTail(p: Proc)
    requires PlainProc(p)
    ensures PlainLines([PidLine(p)] + SchedTail(p))
  {
    PidLineSkipped(p);
  }

  lemma {:induction false} ProcLinesPlain(procs: seq<Proc>)
    requires forall k :: 0 <= k < |procs| ==> PlainProc(procs[k])
    ensures PlainLines(ProcLines(procs))
  {
    if procs != [] {
      PlainTail(procs[0]);
      ProcLinesPlain(procs[1..]);
      hide Plain, PlainProc, PidLine, SchedTail;
    }
  }

  lemma NewlineOnly()
    ensures Split("\n", '\n') == ["", ""]
  {
    assert "\n"[1..] == "";
  }

  lemma LineLayout(uptime: string, pidLine: string, rest: seq<string>)
    requires '\n' !in uptime && '\n' !in pidLine && forall l :: l in rest ==> '\n' !in l
    ensures Split(uptime + Unlines([pidLine] + rest) + ['\n'], '\n') == [uptime + pidLine] + (rest + ["", ""])
  {
    var first := uptime + pidLine;
    UnlinesOne(pidLine, rest);
    SplitAtFirst(first, '\n', Unlines(rest) + "\n");
    SplitLines(rest, "\n");
    NewlineOnly();
    hide Split, Unlines;
    assert uptime + Unlines([pidLine] + rest) + ['\n'] == first + ['\n'] + (Unlines(rest) + "\n");
  }

  /** The lines of a snapshot: the first process's path shares the first line with the uptime. */
  lemma MomentLines(m: Moment)
    requires PlainMoment(m)
    ensures var lines := Split(Stem(m) + ['\n'], '\n');
      && (m.procs == [] ==> lines == [m.up + " " + m.idle, ""])
      && (m.procs != [] ==> lines == [m.up + " " + m.idle + PidLine(m.procs[0])] + (ProcLines(m.procs)[1..] + ["", ""]))
  {
    var uptime := m.up + " " + m.idle;
    if m.procs == [] {
      assert Split("", '\n') == [""];
      assert Stem(m) + ['\n'] == uptime + ['\n'] + "";
      SplitAtFirst(uptime, '\n', "");
    } else {
      var first, rest := uptime + PidLine(m.procs[0]), ProcLines(m.procs)[1..];
      PidLineSkipped(m.procs[0]);
      ProcLinesPlain(m.procs);
      forall l | l in rest ensures '\n' !in l {
        assert Plain(l);
      }
      assert ProcLines(m.procs) == [PidLine(m.procs[0])] + rest;
      LineLayout(uptime, PidLine(m.procs[0]), rest);
    }
  }

  lemma UtimeField(m: Moment, line: string, tail: string)
    requires ' ' !in m.up && line == m.up + " " + m.idle + tail
    ensures Split(line, ' ')[0] == m.up
  {
    SplitAtFirst(m.up, ' ', m.idle + tail);
    assert line == m.up + [' '] + (m.idle + tail);
  }

  lemma EmptyMoment(num: P.Num, m: Moment)
    requires PlainMoment(m) && m.procs == []
    ensures P.Parse(num, Stem(m) + ['\n']) == ExpectedMoment(num, m)
  {
    MomentLines(m);
    UtimeField(m, m.up + " " + m.idle, "");
    assert m.up + " " + m.idle + "" == m.up + " " + m.idle;
    assert [m.up + " " + m.idle, ""][1..] == [""] + [];
    SkipLine(num, "", [], [], None);
  }

  /** parse_snapshot on a text whose lines are known. */
  lemma ParseLayout(num: P.Num, content: string, first: string, rest: seq<string>)
    requires Split(content, '\n') == [first] + rest
    ensures var utime, r := P.Float(num, Split(first, ' ')[0]), P.ParseLines(num, rest, [], None);
      P.Parse(num, content) ==
      if utime.IsFailure() then utime.PropagateFailure() else if r.IsFailure() then r.PropagateFailure()
      else P.Ok(P.Parsed(utime.value, r.value.0, r.value.1))
  {
    hide P.ParseLines, Split;
    assert ([first] + rest)[1..] == rest;
  }

  lemma FirstPidLine(procs: seq<Proc>)
    requires procs != []
    ensures ProcLines(procs) != []
    ensures ProcLines(procs) + ["", ""] == [PidLine(procs[0])] + (ProcLines(procs)[1..] + ["", ""])
  {
    assert ProcLines(procs)[0] == PidLine(procs[0]);
  }

  lemma BusyMoment(num: P.Num, m: Moment)
    requires PlainMoment(m) && m.procs != []
    ensures P.Parse(num, Stem(m) + ['\n']) == ExpectedMoment(num, m)
  {
    hide P.ParseLines, P.Parse, StartsGzip, Expected, Split, ProcLines, Stem, PidLine, Contains, Count, Plain;
    FirstPidLine(m.procs);
    var p, rest := m.procs[0], ProcLines(m.procs)[1..] + ["", ""];
    var first := m.up + " " + m.idle + PidLine(p);
    MomentLines(m);
    UtimeField(m, first, PidLine(p));
    PidLineSkipped(p);
    SkipLine(num, PidLine(p), rest, [], None);
    ReadProcs(num, m.procs, [], None);
    ParseLayout(num, Stem(m) + ['\n'], first, rest);
  }

  /** parse_snapshot recovers what retrieve_data wrote about one moment. */
  lemma SnapshotRoundTrip(num: P.Num, m: Moment)
    requires PlainMoment(m)
    ensures P.Parse(num, Stem(m) + ['\n']) == ExpectedMoment(num, m)
  {
    hide P.Parse, ExpectedMoment, Stem, PlainMoment;
    if m.procs == [] {
      EmptyMoment(num, m);
    } else {
      BusyMoment(num, m);
    }
  }

  // ----- occurrences of the mark and of the keyword

  lemma {:induction false} UnlinesOccurrences(ls: seq<string>, p: string)
    requires p != [] && '\n' !in p
    ensures Contains(Unlines(ls), p) <==> exists l :: l in ls && Contains(l, p)
    ensures Count(Unlines(ls), p) == CountAll(ls, p)
  {
    if ls != [] {
      UnlinesOccurrences(ls[1..], p);
      ContainsApart(ls[0], '\n', Unlines(ls[1..]), p);
      CountApart(ls[0], '\n', Unlines(ls[1..]), p);
      assert ls[0] + "\n" + Unlines(ls[1..]) == ls[0] + ['\n'] + Unlines(ls[1..]);
    }
  }

  /** Joining the first path to the uptime makes no new occurrence: the path starts with a quote. */
  lemma StemOccurrences(m: Moment, p: string)
    requires p != [] && '\n' !in p && '"' !in p
    ensures Contains(Stem(m), p) <==>
      Contains(m.up + " " + m.idle, p) || exists l :: l in ProcLines(m.procs) && Contains(l, p)
    ensures Count(Stem(m), p) == Count(m.up + " " + m.idle, p) + CountAll(ProcLines(m.procs), p)
  {
    var uptime, lines := m.up + " " + m.idle, Unlines(ProcLines(m.procs));
    UnlinesOccurrences(ProcLines(m.procs), p);
    if m.procs == [] {
      assert Stem(m) == uptime;
    } else {
      var rest := lines[1..];
      assert lines[0] == '"';
      assert lines == [] + ['"'] + rest;
      ContainsApart([], '"', rest, p);
      CountApart([], '"', rest, p);
      assert Stem(m) == uptime + ['"'] + rest;
      ContainsApart(uptime, '"', rest, p);
      CountApart(uptime, '"', rest, p);
    }
  }

  // ----- the whole log

  function HeaderMentions(procs: seq<Proc>): nat {
    if procs == [] then 0
    else
      var first := if procs[0].sched.Whole? then Count(procs[0].sched.value.header, "hackbench") else 0;
      first + HeaderMentions(procs[1..])
  }

  /** How often a snapshot mentions hackbench: in its uptime, and in its processes' first lines. */
  function Mentions(m: Moment): nat {
    Count(m.up + " " + m.idle, "hackbench") + HeaderMentions(m.procs)
  }

  lemma {:induction false} CountAllJoin(a: seq<string>, b: seq<string>, p: string)
    requires p != []
    ensures CountAll(a + b, p) == CountAll(a, p) + CountAll(b, p)
  {
    if a == [] {
      assert [] + b == b;
    } else {
      CountAllJoin(a[1..], b, p);
      assert (a + b)[1..] == a[1..] + b;
    }
  }

  lemma CountOne(l: string, ls: seq<string>, p: string)
    requires p != []
    ensures CountAll([l] + ls, p) == Count(l, p) + CountAll(ls, p)
  {
    assert ([l] + ls)[1..] == ls;
  }

  lemma TailMentions(p: Proc)
    requires PlainProc(p)
    ensures CountAll(SchedTail(p), "hackbench") ==
      if p.sched.Whole? then Count(p.sched.value.header, "hackbench") else 0
  {
    if p.sched.Emptied? {
      CountOne("", [], "hackbench");
      CountOne("", [""] + [], "hackbench");
      CountOne("", [""] + ([""] + []), "hackbench");
      CountOne("", [""] + ([""] + ([""] + [])), "hackbench");
      AbsentFirst("", "hackbench");
      assert SchedTail(p) == [""] + ([""] + ([""] + ([""] + [])));
    } else if p.sched.Whole? {
      var s := p.sched.value;
      var e, v, x := s.exec.Line(), s.vruntime.Line(), s.sum.Line();
      NotContainedCount(e, "hackbench");
      NotContainedCount(v, "hackbench");
      NotContainedCount(x, "hackbench");
      CountOne(x, [], "hackbench");
      CountOne(v, [x] + [], "hackbench");
      CountOne(e, [v] + ([x] + []), "hackbench");
      CountOne(s.header, [e] + ([v] + ([x] + [])), "hackbench");
      assert SchedTail(p) == [s.header] + ([e] + ([v] + ([x] + [])));
    }
  }

  lemma {:induction false} ProcMentions(procs: seq<Proc>)
    requires forall k :: 0 <= k < |procs| ==> PlainProc(procs[k])
    ensures CountAll(ProcLines(procs), "hackbench") == HeaderMentions(procs)
  {
    if procs != [] {
      var p := procs[0];
      PidLineSkipped(p);
      TailMentions(p);
      ProcMentions(procs[1..]);
      CountAllJoin([PidLine(p)] + SchedTail(p), ProcLines(procs[1..]), "hackbench");
      CountAllJoin([PidLine(p)], SchedTail(p), "hackbench");
    }
  }

  lemma PointMentions(m: Moment)
    requires PlainMoment(m)
    ensures Count(Stem(m) + ['\n'], "hackbench") == Mentions(m)
  {
    StemOccurrences(m, "hackbench");
    ProcMentions(m.procs);
    assert Stem(m) + ['\n'] == Stem(m) + ['\n'] + "";
    CountApart(Stem(m), '\n', "", "hackbench");
  }

  lemma StemUnmarked(m: Moment)
    requires PlainMoment(m)
    ensures !Contains(Stem(m), TIME) && !Contains(Stem(m) + ['\n'], TIME)
  {
    ProcLinesPlain(m.procs);
    StemOccurrences(m, TIME);
    assert Stem(m) + ['\n'] == Stem(m) + ['\n'] + "";
    ContainsApart(Stem(m), '\n', "", TIME);
  }

  function Points(moments: seq<Moment>): seq<string> {
    if moments == [] then [] else [Stem(moments[0]) + ['\n']] + Points(moments[1..])
  }

  /** The log after its first mark. */
  function Tail(moments: seq<Moment>): string
    requires moments != []
  {
    Stem(moments[0]) + ['\n'] + RenderAll(Snapshots(moments[1..]))
  }

  lemma RenderFirst(first: Snapshot, more: seq<Snapshot>)
    ensures RenderAll([first] + more) == Render(first) + RenderAll(more)
  {
    assert ([first] + more)[1..] == more;
  }

  lemma Group2(a: string, b: string, c: string)
    ensures a + b + c == a + (b + c)
  {
  }

  lemma RenderTail(moments: seq<Moment>)
    requires moments != [] && PlainMoment(moments[0])
    ensures RenderAll(Snapshots(moments)) == TIME + Tail(moments)
  {
    RenderOf(moments[0]);
    hide Render, Stem, PlainMoment;
    var first, more := moments[0].Snapshot(), Snapshots(moments[1..]);
    RenderFirst(first, more);
    assert Snapshots(moments) == [first] + more;
    Group2(TIME, Stem(moments[0]) + ['\n'], RenderAll(more));
  }

  lemma {:induction false} TailPoints(moments: seq<Moment>)
    requires moments != [] && forall k :: 0 <= k < |moments| ==> PlainMoment(moments[k])
    ensures SplitOn(Tail(moments), TIME) == Points(moments)
  {
    hide Stem, PlainMoment, SplitOn, Contains;
    var here, more := Stem(moments[0]) + ['\n'], moments[1..];
    StemUnmarked(moments[0]);
    if more == [] {
      assert Tail(moments) == here;
      NotContainedCount(here, TIME);
      assert Points(moments) == [here] + Points(more);
    } else {
      TailPoints(more);
      RenderTail(more);
      SplitOnRecord(Stem(moments[0]), '\n', TIME, Tail(more));
    }
  }

  /** Splitting the log at the marks gives back the snapshots. */
  lemma {:induction false} LogPoints(moments: seq<Moment>)
    requires forall k :: 0 <= k < |moments| ==> PlainMoment(moments[k])
    ensures SplitOn(RenderAll(Snapshots(moments)), TIME) == [""] + Points(moments)
  {
    if moments != [] {
      RenderTail(moments);
      CutHere(TIME, Tail(moments));
      TailPoints(moments);
    }
  }

  function ExpectedLog(num: P.Num, moments: seq<Moment>): P.PyResult<seq<P.Parsed>> {
    if moments == [] then P.Ok([])
    else if Mentions(moments[0]) == 5 then
      var first :- ExpectedMoment(num, moments[0]);
      var rest :- ExpectedLog(num, moments[1..]);
      P.Ok([first] + rest)
    else ExpectedLog(num, moments[1..])
  }

  lemma {:induction false} PointsRoundTrip(num: P.Num, moments: seq<Moment>)
    requires forall k :: 0 <= k < |moments| ==> PlainMoment(moments[k])
    ensures P.ParseAll(num, Points(moments)) == ExpectedLog(num, moments)
  {
    if moments != [] {
      SnapshotRoundTrip(num, moments[0]);
      PointMentions(moments[0]);
      PointsRoundTrip(num, moments[1..]);
      hide P.Parse, ExpectedMoment, Mentions;
      assert Points(moments)[1..] == Points(moments[1..]);
    }
  }

  /**
   The reader applied to what the writer wrote: every snapshot that mentions
   hackbench five times comes back, in order, with its uptime, its hackbench
   processes' numbers in order and its last gzip process's, and nothing else
   does. If a number is not one, the error is the one for that number.
   */
  lemma {:induction false} LogRoundTrip(num: P.Num, moments: seq<Moment>)
    requires forall k :: 0 <= k < |moments| ==> PlainMoment(moments[k])
    ensures P.ReadLogOf(num, RenderAll(Snapshots(moments))) == ExpectedLog(num, moments)
  {
    LogPoints(moments);
    PointsRoundTrip(num, moments);
    assert ([""] + Points(moments))[1..] == Points(moments);
  }

  // ----- gzip by its letters

  /** A process whose first line starts with those letters replaces the gzip numbers by its own. */
  lemma GzipReplaces(num: P.Num, s: Sched, rest: string, pid: string, procs: seq<Proc>,
      times: seq<P.Triple>, gzip: Option<P.Triple>)
    requires s.header == "gzip" + rest && !Contains(s.header, "hackbench")
    requires PlainProc(Proc(pid, Whole(s))) && forall k :: 0 <= k < |procs| ==> PlainProc(procs[k])
    ensures var t, lines := Numbers(num, s), ProcLines([Proc(pid, Whole(s))] + procs) + ["", ""];
      P.ParseLines(num, lines, times, gzip) ==
      if t.Ok? then P.ParseLines(num, ProcLines(procs) + ["", ""], times, Some(t.value)) else t.PropagateFailure()
  {
    var p := Proc(pid, Whole(s));
    ReadProcs(num, [p] + procs, times, gzip);
    var t := Numbers(num, s);
    if t.Ok? {
      ReadProcs(num, procs, times, Some(t.value));
    }
    assert ([p] + procs)[1..] == procs;
    hide P.ParseLines, ProcLines, Contains, PlainProc, Numbers;
    ExpectedFirst(num, [p] + procs, times, gzip);
  }

  /** Where no first line starts with them, there are no gzip numbers. */
  lemma {:induction false} OthersKeepGzip(num: P.Num, procs: seq<Proc>, times: seq<P.Triple>, gzip: Option<P.Triple>)
    requires forall k :: 0 <= k < |procs| ==> PlainProc(procs[k])
    requires forall k :: 0 <= k < |procs| && procs[k].sched.Whole? ==> !("gzip" <= procs[k].sched.value.header)
    ensures var r := P.ParseLines(num, ProcLines(procs) + ["", ""], times, gzip);
      r.Ok? ==> r.value.1 == gzip
    decreases |procs|
  {
    ReadProcs(num, procs, times, gzip);
    if procs != [] {
      GzipLetters(if procs[0].sched.Whole? then procs[0].sched.value.header else "");
      var a := After(num, procs[0], times, gzip);
      if a.Ok? {
        OthersKeepGzip(num, procs[1..], a.value.0, a.value.1);
        ReadProcs(num, procs[1..], a.value.0, a.value.1);
      }
      hide P.ParseLines, ProcLines, Contains, PlainProc;
      ExpectedFirst(num, procs, times, gzip);
    }
  }

  // ----- the other directories of /proc

  /** The directories whose name starts with a digit. */
  function Numeric(dirs: seq<Dir>): seq<Dir> {
    if dirs == [] then []
    else if dirs[0].name != "" && dirs[0].name[0] in "0123456789" then [dirs[0]] + Numeric(dirs[1..])
    else Numeric(dirs[1..])
  }

  lemma OtherEntry(d: Dir)
    requires d.name == "" || d.name[0] !in "0123456789"
    ensures Entry(d) == ""
  {
    hide PathLine, SchedLines;
  }

  lemma EntriesFirst(d: Dir, more: seq<Dir>)
    ensures Entries([d] + more) == Entry(d) + Entries(more)
  {
    hide Entry;
    assert ([d] + more)[1..] == more;
  }

  lemma {:induction false} OthersAddNothing(dirs: seq<Dir>)
    ensures Entries(dirs) == Entries(Numeric(dirs))
  {
    hide Entry;
    if dirs != [] {
      OthersAddNothing(dirs[1..]);
      if dirs[0].name == "" || dirs[0].name[0] !in "0123456789" {
        OtherEntry(dirs[0]);
      } else {
        EntriesFirst(dirs[0], Numeric(dirs[1..]));
      }
    }
  }

  /** A pass over /proc that found those processes, among other directories. */
  predicate Shows(snap: Snapshot, m: Moment) {
    snap.uptime == m.Snapshot().uptime && Numeric(snap.dirs) == Dirs(m.procs)
  }

  lemma {:induction false} SameLog(snaps: seq<Snapshot>, moments: seq<Moment>)
    requires |snaps| == |moments| && forall k :: 0 <= k < |snaps| ==> Shows(snaps[k], moments[k])
    ensures RenderAll(snaps) == RenderAll(Snapshots(moments))
  {
    if snaps != [] {
      SameLog(snaps[1..], moments[1..]);
      assert Shows(snaps[0], moments[0]);
      OthersAddNothing(snaps[0].dirs);
      hide Entries, Numeric, Getline;
      RenderFirst(moments[0].Snapshot(), Snapshots(moments[1..]));
    }
  }

  /** The log is the same, and so is what is read from it, when /proc holds other directories too. */
  lemma {:induction false} LogRoundTripAmong(num: P.Num, snaps: seq<Snapshot>, moments: seq<Moment>)
    requires forall k :: 0 <= k < |moments| ==> PlainMoment(moments[k])
    requires |snaps| == |moments| && forall k :: 0 <= k < |snaps| ==> Shows(snaps[k], moments[k])
    ensures P.ReadLogOf(num, RenderAll(snaps)) == ExpectedLog(num, moments)
  {
    SameLog(snaps, moments);
    LogRoundTrip(num, moments);
  }
}
