/**
 The trial supervisor of launcher.cpp with run_prog of test_gzip_harness.cpp: one hackbench
 and one test program per trial, children reaped in whatever order they end.
 fork succeeds and wait never fails while there are children.
 */
module Launcher {
  import opened Sums
  import opened Text

  /**
   What one trial did: the children left over when it began, its own two, whom
   the first wait returned, and the time it logged if that was the test program.
   */
  datatype Trial = Trial(pairs: int, leftOver: nat, hackbench: int, prog: int, first: int, time: int)

  /** The trial took the early return: the first child to end was not its test program. */
  predicate Mismatch(t: Trial) {
    t.first != t.prog
  }

  function Mismatches(ts: seq<Trial>): nat {
    if ts == [] then 0 else Mismatches(ts[..|ts| - 1]) + if Mismatch(ts[|ts| - 1]) then 1 else 0
  }

  /** The times of the trials that got to log one, in order. */
  function Times(ts: seq<Trial>): seq<int> {
    if ts == [] then [] else Times(ts[..|ts| - 1]) + if Mismatch(ts[|ts| - 1]) then [] else [ts[|ts| - 1].time]
  }

  function Pairs(ts: seq<Trial>): seq<int> {
    seq(|ts|, i requires 0 <= i < |ts| => ts[i].pairs)
  }

  lemma Snoc(ts: seq<Trial>, t: Trial)
    ensures Mismatches(ts + [t]) == Mismatches(ts) + if Mismatch(t) then 1 else 0
    ensures Times(ts + [t]) == Times(ts) + if Mismatch(t) then [] else [t.time]
    ensures Pairs(ts + [t]) == Pairs(ts) + [t.pairs]
  {
    assert (ts + [t])[..|ts|] == ts;
  }

  /** Every logged time is a matched trial's, and no matched trial is missed. */
  lemma {:induction false} TimesCount(ts: seq<Trial>)
    ensures |Times(ts)| + Mismatches(ts) == |ts|
  {
    if ts != [] {
      TimesCount(ts[..|ts| - 1]);
    }
  }

  /** Each trial finds as many children left over as there were mismatches before it. */
  ghost predicate Accounted(ts: seq<Trial>) {
    forall k :: 0 <= k < |ts| ==> ts[k].leftOver == Mismatches(ts[..k])
  }

  lemma AccountedSnoc(ts: seq<Trial>, t: Trial)
    requires Accounted(ts) && t.leftOver == Mismatches(ts)
    ensures Accounted(ts + [t])
  {
    forall k | 0 <= k < |ts + [t]| ensures (ts + [t])[k].leftOver == Mismatches((ts + [t])[..k]) {
      assert (ts + [t])[..k] == ts[..k];
      assert ts[..|ts|] == ts;
    }
  }

  /** The group counts of the sweep, one entry per trial. */
  function Plan(lower: int, upper: int, step: nat, reps: nat): seq<int>
    requires step >= 1
    decreases upper - lower
  {
    if lower > upper then [] else seq(reps, _ => lower) + Plan(lower + step, upper, step, reps)
  }

  lemma QuotientIs(d: int, step: nat, q: int, r: nat)
    requires step >= 1 && d == q * step + r && r < step
    ensures d / step == q
  {
    var p := d / step;
    if p < q {
      MulLess(p, q, step);
    } else if p > q {
      MulLess(q, p, step);
    }
  }

  lemma QuotientStep(d: nat, step: nat)
    requires step >= 1 && d >= step
    ensures d / step == (d - step) / step + 1
  {
    var q, r := d / step, d % step;
    assert d == q * step + r;
    assert d - step == (q - 1) * step + r;
    QuotientIs(d - step, step, q - 1, r);
  }

  /**
   The sweep has reps * (floor((upper - lower) / step) + 1) trials; trial i runs
   with lower + step * floor(i / reps) groups.
   */
  lemma {:induction false} PlanCount(lower: int, upper: int, step: nat, reps: nat)
    requires step >= 1 && lower <= upper
    ensures |Plan(lower, upper, step, reps)| == reps * ((upper - lower) / step + 1)
    decreases upper - lower
  {
    if lower + step > upper {
      assert (upper - lower) / step == 0;
    } else {
      PlanCount(lower + step, upper, step, reps);
      QuotientStep(upper - lower, step);
      var q := (upper - (lower + step)) / step + 1;
      assert reps * (q + 1) == reps * q + reps;
    }
  }

  lemma PlanStep(pairs: int, upper: int, step: nat, reps: nat)
    requires step >= 1 && pairs <= upper
    ensures Plan(pairs, upper, step, reps) == seq(reps, _ => pairs) + Plan(pairs + step, upper, step, reps)
  {
  }

  lemma {:induction false} PlanAt(lower: int, upper: int, step: nat, reps: nat, i: nat)
    requires step >= 1 && reps >= 1 && i < |Plan(lower, upper, step, reps)|
    ensures Plan(lower, upper, step, reps)[i] == lower + step * (i / reps)
    decreases upper - lower
  {
    if i < reps {
      QuotientIs(i, reps, 0, i);
    } else {
      PlanAt(lower + step, upper, step, reps, i - reps);
      QuotientStep(i, reps);
      var q := (i - reps) / reps;
      assert step * (q + 1) == step * q + step;
    }
  }

  lemma Regroup(a: seq<int>, b: seq<int>, c: seq<int>)
    ensures a + (b + c) == (a + b) + c
  {
  }

  class Supervisor {
    var children: set<int>
    var nextPid: int
    var trials: seq<Trial>
    var log: seq<int>
    var killed: seq<int>

    ghost predicate Valid()
      reads this
    {
      forall p :: p in children ==> 0 < p < nextPid
    }

    constructor ()
      ensures Valid() && children == {} && trials == [] && log == [] && killed == []
    {
      children, nextPid, trials, log, killed := {}, 1, [], [], [];
    }

    method Fork() returns (pid: int)
      requires Valid() && nextPid > 0
      modifies `children, `nextPid
      ensures Valid() && nextPid > 0 && pid !in old(children) && children == old(children) + {pid}
    {
      pid := nextPid;
      children := children + {pid};
      nextPid := nextPid + 1;
    }

    /** wait(NULL): any child, in whatever order they end. */
    method Wait() returns (pid: int)
      requires Valid() && children != {}
      modifies `children
      ensures Valid() && pid in old(children) && children == old(children) - {pid}
    {
      ghost var any := Missing({}, children);
      pid :| pid in children;
      children := children - {pid};
    }

    /**
     run_trial: start hackbench and the test program, wait for a first child;
     unless that is the test program, leave both to later trials.
     */
    method RunTrial(pairs: int, useOut: bool)
      requires Valid() && nextPid > 0
      modifies this
      ensures Valid() && nextPid > 0
      ensures |trials| == |old(trials)| + 1 && trials == old(trials) + [trials[|old(trials)|]]
      ensures var t := trials[|old(trials)|];
        && t.pairs == pairs && t.leftOver == |old(children)|
        && t.hackbench != t.prog && t.hackbench !in old(children) && t.prog !in old(children)
        && t.first in old(children) + {t.hackbench, t.prog}
        && log == (if useOut && !Mismatch(t) then old(log) + [t.time] else old(log))
        && killed == (if Mismatch(t) then old(killed) else old(killed) + [t.hackbench])
        && |children| == |old(children)| + (if Mismatch(t) then 1 else 0)
        && (Mismatch(t) ==> children == old(children) + {t.hackbench, t.prog} - {t.first})
        && (!Mismatch(t) ==> children < old(children) + {t.hackbench})
    {
      var leftOver := |children|;
      var hackbench := Fork();
      var prog := Fork();
      var first := Wait();
      var time: int := *;
      trials := trials + [Trial(pairs, leftOver, hackbench, prog, first, time)];
      if first != prog {
        return;
      }
      if useOut {
        log := log + [time];
      }
      killed := killed + [hackbench];
      var last := Wait();
      if last != hackbench {
        return;
      }
    }

    /** The books after any number of trials. */
    ghost predicate Balanced(useOut: bool)
      reads this
    {
      Accounted(trials) && |children| == Mismatches(trials) && log == if useOut then Times(trials) else []
    }

    method Repeat(pairs: int, reps: nat, useOut: bool)
      requires Valid() && nextPid > 0 && Balanced(useOut)
      modifies this
      ensures Valid() && nextPid > 0 && Balanced(useOut)
      ensures Pairs(trials) == old(Pairs(trials)) + seq(reps, _ => pairs)
    {
      hide Valid, Accounted, Times, Mismatches, Pairs;
      var rep := 0;
      while rep < reps
        invariant rep <= reps && Valid() && nextPid > 0 && Balanced(useOut)
        invariant Pairs(trials) == old(Pairs(trials)) + seq(rep, _ => pairs)
      {
        ghost var ts := trials;
        RunTrial(pairs, useOut);
        Snoc(ts, trials[|ts|]);
        AccountedSnoc(ts, trials[|ts|]);
        assert seq(rep + 1, _ => pairs) == seq(rep, _ => pairs) + [pairs];
        rep := rep + 1;
      }
    }

    /** The sweep of main. */
    method Sweep(lower: int, upper: int, step: nat, reps: nat, useOut: bool)
      requires Valid() && nextPid > 0 && children == {} && trials == [] && log == []
      requires step >= 1
      modifies this
      ensures Pairs(trials) == Plan(lower, upper, step, reps)
      ensures Accounted(trials) && |children| == Mismatches(trials)
      ensures log == if useOut then Times(trials) else []
    {
      hide Valid;
      var pairs := lower;
      while pairs <= upper
        invariant Valid() && nextPid > 0 && Balanced(useOut)
        invariant Pairs(trials) + Plan(pairs, upper, step, reps) == Plan(lower, upper, step, reps)
        decreases upper - pairs
      {
        PlanStep(pairs, upper, step, reps);
        ghost var before := Pairs(trials);
        hide Plan, Pairs, Balanced;
        Repeat(pairs, reps, useOut);
        Regroup(before, seq(reps, _ => pairs), Plan(pairs + step, upper, step, reps));
        pairs := pairs + step;
      }
    }
  }

  /** In a trial that starts with no child left over, the test program ends before its hackbench. */
  ghost predicate ProgramsEndFirst(ts: seq<Trial>) {
    forall k :: 0 <= k < |ts| && ts[k].leftOver == 0 ==> ts[k].first == ts[k].prog
  }

  /** If the test program always wins that race, no trial ever mismatches, and none starts with a child left over. */
  lemma {:induction false} NeverMismatched(ts: seq<Trial>)
    requires Accounted(ts) && ProgramsEndFirst(ts)
    ensures Mismatches(ts) == 0 && forall k :: 0 <= k < |ts| ==> !Mismatch(ts[k]) && ts[k].leftOver == 0
  {
    if ts != [] {
      var less, last := ts[..|ts| - 1], ts[|ts| - 1];
      forall k | 0 <= k < |less| ensures less[k].leftOver == Mismatches(less[..k]) {
        assert less[..k] == ts[..k];
      }
      NeverMismatched(less);
    }
  }

  lemma {:induction false} NoMismatch(ts: seq<Trial>)
    requires forall t :: t in ts ==> !Mismatch(t)
    ensures Mismatches(ts) == 0 && |Times(ts)| == |ts|
    ensures forall i :: 0 <= i < |ts| ==> Times(ts)[i] == ts[i].time
  {
    if ts != [] {
      NoMismatch(ts[..|ts| - 1]);
    }
  }

  /**
   If every test program ends before its hackbench, the sweep leaves no child and
   its log has one time per trial.
   */
  lemma {:induction false} QuietSweep(lower: int, upper: int, step: nat, reps: nat,
                                         ts: seq<Trial>, log: seq<int>, left: nat)
    requires step >= 1 && lower <= upper
    requires Pairs(ts) == Plan(lower, upper, step, reps) && left == Mismatches(ts) && log == Times(ts)
    requires Accounted(ts) && ProgramsEndFirst(ts)
    ensures left == 0 && |log| == reps * ((upper - lower) / step + 1)
    ensures forall i :: 0 <= i < |ts| ==>
      |log| == |ts| && log[i] == ts[i].time && ts[i].pairs == lower + step * (i / reps)
  {
    assert |ts| == |Pairs(ts)|;
    PlanCount(lower, upper, step, reps);
    NeverMismatched(ts);
    NoMismatch(ts);
    forall i | 0 <= i < |ts| ensures ts[i].pairs == lower + step * (i / reps) {
      if reps == 0 {
        assert false;
      }
      PlanAt(lower, upper, step, reps, i);
      assert Pairs(ts)[i] == ts[i].pairs;
    }
  }

  // ----- string_to_vec_by_delim

  /** s.find(d, from), or |s| + 1 for npos. */
  function Find(s: string, d: string, from: nat): (r: nat)
    requires from <= |s|
    ensures from <= r <= |s| - |d| || r == |s| + 1
    ensures r <= |s| ==> d <= s[r..]
    ensures forall k :: from <= k < r && k <= |s| ==> !(d <= s[k..])
    decreases |s| - from
  {
    if d <= s[from..] then from
    else if from == |s| then |s| + 1
    else Find(s, d, from + 1)
  }

  /** The pieces from `last` on; after a delimiter the code skips one character, whatever its length. */
  function Pieces(s: string, d: string, last: nat): seq<string>
    requires d != [] && last <= |s|
    decreases |s| - last
  {
    var next := Find(s, d, last);
    if next > |s| then [s[last..]] else [s[last..next]] + Pieces(s, d, next + 1)
  }

  lemma PiecesStep(s: string, d: string, last: nat)
    requires d != [] && last <= |s|
    ensures var next := Find(s, d, last);
      && (next > |s| ==> Pieces(s, d, last) == [s[last..]])
      && (next <= |s| ==> next + 1 <= |s| && Pieces(s, d, last) == [s[last..next]] + Pieces(s, d, next + 1))
  {
  }

  method StringToVecByDelim(s: string, delimiter: string) returns (res: seq<string>)
    requires delimiter != []
    ensures res == Pieces(s, delimiter, 0)
  {
    hide Pieces, Find;
    var last: nat := 0;
    res := [];
    var next := Find(s, delimiter, last);
    while next <= |s|
      invariant last <= |s| && next == Find(s, delimiter, last)
      invariant res + Pieces(s, delimiter, last) == Pieces(s, delimiter, 0)
      decreases |s| - last
    {
      PiecesStep(s, delimiter, last);
      ghost var rest := Pieces(s, delimiter, next + 1);
      assert res + ([s[last..next]] + rest) == (res + [s[last..next]]) + rest;
      res := res + [s[last..next]];
      last := next + 1;
      next := Find(s, delimiter, last);
    }
    PiecesStep(s, delimiter, last);
    res := res + [s[last..]];
  }

  /** The characters that n joints of d add to what was cut: one of each |d| had been skipped. */
  function Surplus(joints: nat, d: string): nat
    requires d != []
  {
    if joints == 0 then 0 else Surplus(joints - 1, d) + |d| - 1
  }

  /** How far the joined pieces are longer than the text they came from. */
  function Excess(pieces: seq<string>, d: string, cut: nat): int
    requires pieces != [] && d != []
  {
    |Join(pieces, d)| - cut - Surplus(|pieces| - 1, d)
  }

  lemma ExcessNext(p: string, rest: seq<string>, d: string, cut: nat)
    requires rest != [] && d != []
    ensures Excess([p] + rest, d, |p| + 1 + cut) == Excess(rest, d, cut)
  {
    JoinFirst(p, rest, d);
  }

  lemma {:induction false} JoinLength(s: string, d: string, last: nat)
    requires d != [] && last <= |s|
    ensures Pieces(s, d, last) != []
    ensures Excess(Pieces(s, d, last), d, |s| - last) == 0
    decreases |s| - last
  {
    var next := Find(s, d, last);
    PiecesStep(s, d, last);
    if next <= |s| {
      JoinLength(s, d, next + 1);
      hide Pieces, Find, Excess;
      ExcessNext(s[last..next], Pieces(s, d, next + 1), d, |s| - next - 1);
    }
  }

  lemma CutBack(s: string, d: string, last: nat, next: nat)
    requires last <= next < |s| && |d| == 1 && d <= s[next..]
    ensures s[last..] == s[last..next] + d + s[next + 1..]
  {
    assert s[next] == s[next..][0] == d[0];
  }

  lemma {:induction false} JoinOne(s: string, d: string, last: nat)
    requires |d| == 1 && last <= |s|
    ensures Pieces(s, d, last) != []
    ensures Join(Pieces(s, d, last), d) == s[last..]
    decreases |s| - last
  {
    var next := Find(s, d, last);
    PiecesStep(s, d, last);
    if next <= |s| {
      JoinOne(s, d, next + 1);
      CutBack(s, d, last, next);
      hide Pieces, Find, Join;
      JoinFirst(s[last..next], Pieces(s, d, next + 1), d);
    }
  }

  lemma JoinSingle(s: string, d: string)
    ensures Join([s], d) == s
  {
  }

  /** Splitting loses nothing exactly when the delimiter is one character or does not occur. */
  lemma {:induction false} SplitLosslessIff(s: string, d: string)
    requires d != []
    ensures Pieces(s, d, 0) != []
    ensures Join(Pieces(s, d, 0), d) == s <==> |d| == 1 || Find(s, d, 0) > |s|
  {
    PiecesStep(s, d, 0);
    JoinLength(s, d, 0);
    hide Pieces, Join;
    assert s[0..] == s;
    if |d| == 1 {
      JoinOne(s, d, 0);
    } else if Find(s, d, 0) > |s| {
      JoinSingle(s, d);
    } else {
      JoinLength(s, d, Find(s, d, 0) + 1);
    }
  }

  /** With a delimiter of two characters a text that holds it is lost. */
  lemma SplitLossExample()
    ensures Join(Pieces("a, b", ", ", 0), ", ") != "a, b"
  {
    assert "a, b"[1..] == ", b" && ", " <= ", b";
    hide Pieces, Join;
    SplitLosslessIff("a, b", ", ");
  }

  /** With a one-character delimiter, no piece holds it. */
  lemma {:induction false} PiecesClean(s: string, c: char, last: nat)
    requires last <= |s|
    ensures forall p :: p in Pieces(s, [c], last) ==> c !in p
    decreases |s| - last
  {
    var next := Find(s, [c], last);
    forall k | last <= k < next && k < |s| ensures s[k] != c {
      assert !([c] <= s[k..]);
    }
    if next <= |s| {
      PiecesClean(s, c, next + 1);
    }
  }
}
