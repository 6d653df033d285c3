/** The snapshot writer of sched_tracker.cpp: what one pass over /proc appends to the log. */
module SchedTracker {
  import opened Wrappers

  /** An input stream: the characters left, and whether it is still good. */
  datatype Stream = Stream(rest: string, good: bool)

  /** A directory of /proc, with the text of its sched file if that can be opened. */
  datatype Dir = Dir(name: string, sched: Option<string>)

  /** What one pass finds: the text of /proc/uptime, and the entries of /proc. */
  datatype Snapshot = Snapshot(uptime: string, dirs: seq<Dir>)

  const MARK := "[TIME] "

  /** The line up to the first newline, and what follows it. */
  function CutLine(s: string): (r: (string, string))
    ensures '\n' !in r.0
    ensures '\n' in s ==> s == r.0 + "\n" + r.1
    ensures '\n' !in s ==> r == (s, "")
  {
    if s == "" then ("", "")
    else if s[0] == '\n' then ("", s[1..])
    else
      var (line, rest) := CutLine(s[1..]);
      assert s == [s[0]] + s[1..];
      ([s[0]] + line, rest)
  }

  /** std::getline: a stream that is no longer good leaves the buffer as it was. */
  function Getline(st: Stream, line: string): (Stream, string) {
    if !st.good then (st, line)
    else if st.rest == "" then (Stream("", false), "")
    else if '\n' !in st.rest then (Stream("", false), st.rest)
    else (Stream(CutLine(st.rest).1, true), CutLine(st.rest).0)
  }

  predicate IsDigit(c: char) {
    '0' <= c <= '9'
  }

  /** How operator<< prints a path: quoted, with `"` and `\` escaped. */
  function Escaped(s: string): string {
    if s == "" then ""
    else (if s[0] == '"' || s[0] == '\\' then ['\\', s[0]] else [s[0]]) + Escaped(s[1..])
  }

  function PathLine(name: string): string {
    "\"" + Escaped("/proc/" + name) + "\"\n"
  }

  /** The first, third, fourth and fifth line of a sched file, as getline finds them. */
  function SchedLines(text: string): string {
    var (s1, l1) := Getline(Stream(text, true), "");
    var (s2, l2) := Getline(s1, l1);
    var (s3, l3) := Getline(s2, l2);
    var (s4, l4) := Getline(s3, l3);
    var (s5, l5) := Getline(s4, l4);
    (l1 + "\n") + ((l3 + "\n") + ((l4 + "\n") + (l5 + "\n")))
  }

  function Entry(d: Dir): string {
    if d.name == "" || !IsDigit(d.name[0]) then ""
    else PathLine(d.name) + if d.sched.None? then "" else SchedLines(d.sched.value)
  }

  function Entries(dirs: seq<Dir>): string {
    if dirs == [] then "" else Entry(dirs[0]) + Entries(dirs[1..])
  }

  function Render(snap: Snapshot): string {
    MARK + Getline(Stream(snap.uptime, true), "").1 + Entries(snap.dirs) + "\n"
  }

  function RenderAll(snaps: seq<Snapshot>): string {
    if snaps == [] then "" else Render(snaps[0]) + RenderAll(snaps[1..])
  }

  lemma Regroup(o: string, p: string, a: string, b: string, c: string, d: string)
    ensures o + p + a + b + c + d == o + (p + (a + (b + (c + d))))
  {
  }

  lemma {:induction false} EntriesNext(dirs: seq<Dir>, d: Dir)
    ensures Entries(dirs + [d]) == Entries(dirs) + Entry(d)
  {
    if dirs == [] {
      assert [] + [d] == [d];
    } else {
      assert (dirs + [d])[1..] == dirs[1..] + [d];
      EntriesNext(dirs[1..], d);
    }
  }

  lemma {:induction false} RenderAllNext(snaps: seq<Snapshot>, snap: Snapshot)
    ensures RenderAll(snaps + [snap]) == RenderAll(snaps) + Render(snap)
  {
    if snaps == [] {
      assert [] + [snap] == [snap];
    } else {
      assert (snaps + [snap])[1..] == snaps[1..] + [snap];
      RenderAllNext(snaps[1..], snap);
    }
  }

  // ----- a printed path can be read back

  /** What a reader of quoted text takes out again. */
  function Unescaped(s: string): string {
    if s == "" then ""
    else if s[0] == '\\' && |s| >= 2 then [s[1]] + Unescaped(s[2..])
    else [s[0]] + Unescaped(s[1..])
  }

  /** Whatever a directory is called, its printed path says so, and the closing quote is the only bare one. */
  lemma {:induction false} EscapedBack(s: string)
    ensures Unescaped(Escaped(s)) == s
    ensures forall k :: 0 <= k < |Escaped(s)| && Escaped(s)[k] == '"' ==> k > 0 && Escaped(s)[k - 1] == '\\'
  {
    if s != "" {
      EscapedBack(s[1..]);
      var rest := Escaped(s[1..]);
      assert [s[0]] + s[1..] == s;
      if s[0] == '"' || s[0] == '\\' {
        assert (['\\', s[0]] + rest)[2..] == rest;
      } else {
        assert ([s[0]] + rest)[1..] == rest;
      }
    }
  }

  // ----- the paced loop

  /** 10 ms, in nanoseconds of the steady clock */
  const CYCLE := 10_000_000

  /** One round of the loop that took a snapshot: when it began, when the snapshot was written, and what it held. */
  datatype Pass = Pass(start: int, end: int, snap: Snapshot)

  function Shots(passes: seq<Pass>): seq<Snapshot> {
    if passes == [] then [] else Shots(passes[..|passes| - 1]) + [passes[|passes| - 1].snap]
  }

  lemma ShotsNext(passes: seq<Pass>, p: Pass)
    ensures Shots(passes + [p]) == Shots(passes) + [p.snap]
  {
    assert (passes + [p])[..|passes|] == passes;
  }

  /** Passes that took longer than a cycle: one warning each. */
  function Late(passes: seq<Pass>): nat {
    if passes == [] then 0
    else
      var last := passes[|passes| - 1];
      Late(passes[..|passes| - 1]) + if last.end - last.start > CYCLE then 1 else 0
  }

  lemma LateNext(passes: seq<Pass>, p: Pass)
    ensures Late(passes + [p]) == Late(passes) + if p.end - p.start > CYCLE then 1 else 0
  {
    assert (passes + [p])[..|passes|] == passes;
  }

  /** The clock readings of those rounds, two each. */
  function Looks(passes: seq<Pass>): seq<int> {
    if passes == [] then []
    else
      var last := passes[|passes| - 1];
      Looks(passes[..|passes| - 1]) + [last.start, last.end]
  }

  /** The sleeps they asked for: what is left of the cycle, unless the round was late. */
  function Naps(passes: seq<Pass>): seq<nat> {
    if passes == [] then []
    else
      var last := passes[|passes| - 1];
      Naps(passes[..|passes| - 1]) +
      if 0 <= last.end - last.start <= CYCLE then [CYCLE - (last.end - last.start)] else []
  }

  lemma CallsNext(passes: seq<Pass>, p: Pass)
    requires p.start <= p.end
    ensures Looks(passes + [p]) == Looks(passes) + [p.start, p.end]
    ensures Naps(passes + [p]) ==
      Naps(passes) + if p.end - p.start <= CYCLE then [CYCLE - (p.end - p.start)] else []
  {
    assert (passes + [p])[..|passes|] == passes;
  }

  /** Passes do not overlap, begin at least a cycle apart, and all begin within the time limit. */
  ghost predicate Paced(passes: seq<Pass>, start: int, limit: int) {
    && (forall k :: 0 <= k < |passes| ==> start <= passes[k].start < start + limit && passes[k].start <= passes[k].end)
    && (forall k :: 1 <= k < |passes| ==>
          passes[k - 1].end <= passes[k].start && passes[k - 1].start + CYCLE <= passes[k].start)
  }

  /** A pass that begins a cycle after the last one, and after its end, keeps the pace. */
  ghost predicate Follows(passes: seq<Pass>, now: int) {
    passes != [] ==> passes[|passes| - 1].end <= now && passes[|passes| - 1].start + CYCLE <= now
  }

  lemma PacedNext(passes: seq<Pass>, start: int, limit: int, p: Pass)
    requires Paced(passes, start, limit) && Follows(passes, p.start)
    requires start <= p.start < start + limit && p.start <= p.end
    ensures Paced(passes + [p], start, limit)
  {
  }

  lemma {:induction false} PaceFrom(passes: seq<Pass>, start: int, limit: int, k: nat)
    requires Paced(passes, start, limit) && k < |passes|
    ensures passes[k].start >= start + k * CYCLE
  {
    if k > 0 {
      PaceFrom(passes, start, limit, k - 1);
    }
  }

  /** There are never more snapshots than the time limit has cycles, the last one perhaps not whole. */
  lemma PassCount(passes: seq<Pass>, start: int, limit: int)
    requires Paced(passes, start, limit) && passes != []
    ensures (|passes| - 1) * 10_000_000 < limit
  {
    PaceFrom(passes, start, limit, |passes| - 1);
  }

  lemma NoPasses(start: int, limit: int)
    ensures RenderAll(Shots([])) == "" && Late([]) == 0 && Paced([], start, limit)
    ensures Looks([]) == [] && Naps([]) == []
  {
  }

  class Tracker {
    var output: string
    var clock: int
    /** What steady_clock::now() has returned, and what sleep_for was asked for. */
    ghost var readings: seq<int>
    ghost var sleeps: seq<nat>

    constructor (now: int)
      ensures output == "" && clock == now && readings == [] && sleeps == []
    {
      output, clock, readings, sleeps := "", now, [], [];
    }

    /** steady_clock::now(): time has passed since it was last looked at, or not. */
    method Now() returns (t: int)
      modifies `clock, `readings
      ensures t == clock >= old(clock) && readings == old(readings) + [t]
    {
      var dt: int := *;
      clock := clock + if dt > 0 then dt else 0;
      t := clock;
      readings := readings + [t];
    }

    /** sleep_for: at least as long as asked. */
    method SleepFor(d: nat)
      modifies `clock, `sleeps
      ensures clock >= old(clock) + d && sleeps == old(sleeps) + [d]
    {
      var more: int := *;
      clock := clock + d + if more > 0 then more else 0;
      sleeps := sleeps + [d];
    }

    method ReadLine(st: Stream, line: string) returns (st': Stream, line': string)
      ensures (st', line') == Getline(st, line)
    {
      var r := Getline(st, line);
      st', line' := r.0, r.1;
    }

    /** The body of the directory loop, with its one `line` buffer. */
    method AppendEntry(d: Dir)
      modifies `output
      ensures output == old(output) + Entry(d)
    {
      hide Getline, PathLine;
      if d.name == "" || !IsDigit(d.name[0]) {
        return;
      }
      output := output + PathLine(d.name);
      if d.sched.None? {
        return;
      }
      var sched, line := ReadLine(Stream(d.sched.value, true), "");
      output := output + (line + "\n");
      ghost var l1 := line;
      sched, line := ReadLine(sched, line);
      sched, line := ReadLine(sched, line);
      output := output + (line + "\n");
      ghost var l3 := line;
      sched, line := ReadLine(sched, line);
      output := output + (line + "\n");
      ghost var l4 := line;
      sched, line := ReadLine(sched, line);
      output := output + (line + "\n");
      Regroup(old(output), PathLine(d.name), l1 + "\n", l3 + "\n", l4 + "\n", line + "\n");
    }

    method RetrieveData(snap: Snapshot)
      modifies `output
      ensures output == old(output) + Render(snap)
    {
      hide Getline, Entry;
      var st, uptime := ReadLine(Stream(snap.uptime, true), "");
      output := output + (MARK + uptime);
      ghost var start := output;
      var i := 0;
      while i < |snap.dirs|
        invariant i <= |snap.dirs| && output == start + Entries(snap.dirs[..i])
      {
        EntriesNext(snap.dirs[..i], snap.dirs[i]);
        assert snap.dirs[..i + 1] == snap.dirs[..i] + [snap.dirs[i]];
        AppendEntry(snap.dirs[i]);
        i := i + 1;
      }
      assert snap.dirs[..i] == snap.dirs;
      hide Entries;
      output := output + "\n";
      assert old(output) + (MARK + uptime) + Entries(snap.dirs) + "\n" ==
        old(output) + (MARK + uptime + Entries(snap.dirs) + "\n");
    }

    /**
     The paced loop of main; it ends, as every round takes at least a cycle. It
     reads the clock and sleeps as often as the rounds say, and no more.
     */
    method Track(limit: int) returns (start: int, passes: seq<Pass>, warnings: nat, stop: int)
      modifies this
      ensures output == old(output) + RenderAll(Shots(passes))
      ensures start >= old(clock) && Paced(passes, start, limit)
      ensures stop == clock && stop - start >= limit
      ensures warnings == Late(passes)
      ensures readings == old(readings) + [start] + Looks(passes) + [stop]
      ensures sleeps == old(sleeps) + Naps(passes)
    {
      hide Render, RenderAll, Shots, Late, Paced, Looks, Naps;
      start := Now();
      passes, warnings := [], 0;
      NoPasses(start, limit);
      while true
        invariant output == old(output) + RenderAll(Shots(passes)) && warnings == Late(passes)
        invariant Paced(passes, start, limit) && Follows(passes, clock) && old(clock) <= start <= clock
        invariant readings == old(readings) + [start] + Looks(passes) && sleeps == old(sleeps) + Naps(passes)
        decreases limit - (clock - start)
      {
        ghost var looks := readings;
        var cycleStart := Now();
        if cycleStart - start >= limit {
          stop := cycleStart;
          break;
        }
        var snap: Snapshot := *;
        RetrieveData(snap);
        var cycleEnd := Now();
        var p := Pass(cycleStart, cycleEnd, snap);
        assert readings == looks + [p.start, p.end];
        PacedNext(passes, start, limit, p);
        ShotsNext(passes, p);
        LateNext(passes, p);
        CallsNext(passes, p);
        RenderAllNext(Shots(passes), snap);
        passes := passes + [p];
        var spent := cycleEnd - cycleStart;
        if spent > CYCLE {
          warnings := warnings + 1;
        } else {
          SleepFor(CYCLE - spent);
        }
      }
    }
  }
}
