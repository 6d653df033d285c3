/**
 Main under failures and signals: forking, the failure path of the setup loop,
 the final reap, and the path a caught SIGINT or SIGTERM jumps to from any of
 them. Workers are only started, signalled, ended or reaped here; what they do
 with their pipes is in Hackbench.dfy.
 */
module Lifecycle {
  import opened Sums
  import Hackbench

  datatype Config = Config(groups: nat, fds: nat) {
    predicate Sane() { groups >= 1 && fds >= 1 }
  }

  /** A child-table slot: never written, the -1 of a failed fork, or the pid of the n-th started worker. */
  datatype Slot = Empty | NoPid | Pid(n: nat)

  datatype Main =
    | Forking(g: nat, k: nat)            // k workers of group g are started
    | Running                            // collecting ready bytes, about to write GO
    | Reaping(m: nat)                    // the final reap, m waits done
    | Short(n: nat)                      // a group came up short; n workers will be signalled
    | Killing(m: nat, n: nat)            // m of n signalled
    | Waiting(m: nat, n: nat)            // m of n waits done
    | Jumped(r: nat)                     // longjmp'ed, with r workers already reaped
    | JumpKilling(m: nat, r: nat)
    | JumpWaiting(m: nat, r: nat)
    | Done                               // exit(0)
    | Failed                             // exit(1)

  datatype Signal = Interrupt | Terminate

  datatype State = State(
    main: Main, total: nat, started: nat, slots: seq<Slot>, released: bool,
    doomed: nat, zombies: set<nat>, reaped: set<nat>, caught: set<Signal>)

  datatype Action =
    | Fork
    | ForkFails(spill: bool)             // a fork, which stores its -1; or, without the spill, a receiver's malloc
    | PipeFails | CountGroup
    | CommFails | Go
    | IgnoreTerm | Kill | KillsOver
    | Wait(x: nat) | NoChild | WaitsOver
    | Catch(sig: Signal) | IgnoreBoth
    | Die(x: nat) | Leave(x: nat)

  /** Slots of the child table. */
  function TableSize(c: Config): nat {
    Hackbench.Offset(c.fds, c.groups)
  }

  function Initial(c: Config): State {
    State(Forking(0, 0), 0, 0, seq(TableSize(c), _ => Empty), false, 0, {}, {}, {Interrupt, Terminate})
  }

  function Max(a: nat, b: nat): nat {
    if a < b then b else a
  }

  /** How many waits the current reap still has to do, how many signals the current kill loop still has to send. */
  function WaitsLeft(s: State): int {
    match s.main
    case Reaping(m) => s.total - m
    case Waiting(m, n) => n - m
    case JumpWaiting(m, _) => s.total - m
    case _ => 0
  }

  function KillsLeft(s: State): int {
    match s.main
    case Killing(m, n) => n - m
    case JumpKilling(m, _) => s.total - m
    case _ => 0
  }

  predicate InWait(s: State) {
    s.main.Reaping? || s.main.Waiting? || s.main.JumpWaiting?
  }

  predicate InKill(s: State) {
    s.main.Killing? || s.main.JumpKilling?
  }

  /** A started worker main has not waited for. */
  predicate Unreaped(s: State, x: nat) {
    x < s.started && x !in s.reaped
  }

  predicate Enabled(c: Config, s: State, a: Action) {
    match a
    case Fork => s.main.Forking? && s.main.k < 2 * c.fds && s.total + s.main.k < |s.slots|
    case ForkFails(spill) =>
      && s.main.Forking? && s.main.k < 2 * c.fds && s.total + s.main.k < |s.slots|
      && (spill || s.main.k < c.fds)
    case PipeFails => s.main.Forking? && s.main.k < c.fds
    case CountGroup => s.main.Forking? && s.main.k == 2 * c.fds
    case CommFails => s.main.Running?
    case Go => s.main.Running?
    case IgnoreTerm => s.main.Short?
    case Kill => InKill(s) && KillsLeft(s) > 0
    case KillsOver => InKill(s) && KillsLeft(s) == 0
    case Wait(x) => InWait(s) && WaitsLeft(s) > 0 && x in s.zombies
    case NoChild => InWait(s) && WaitsLeft(s) > 0 && forall x: nat :: x < s.started ==> x in s.reaped
    case WaitsOver => InWait(s) && WaitsLeft(s) == 0
    case Catch(sig) => sig in s.caught && !s.main.Done? && !s.main.Failed?
    case IgnoreBoth => s.main.Jumped?
    case Die(x) => Unreaped(s, x) && x !in s.zombies && x < s.doomed
    case Leave(x) => Unreaped(s, x) && x !in s.zombies && s.released
  }

  /** kill(children[m].pid, SIGTERM) */
  function KillOne(s: State): State
    requires InKill(s)
  {
    s.(main := if s.main.Killing? then Killing(s.main.m + 1, s.main.n) else JumpKilling(s.main.m + 1, s.main.r),
       doomed := Max(s.doomed, s.main.m + 1))
  }

  function CountWait(s: State): State
    requires InWait(s)
  {
    s.(main := match s.main
               case Reaping(m) => Reaping(m + 1)
               case Waiting(m, n) => Waiting(m + 1, n)
               case JumpWaiting(m, r) => JumpWaiting(m + 1, r)
               case other => other)
  }

  function Next(c: Config, s: State, a: Action): State
    requires Enabled(c, s, a)
  {
    match a
    case Fork => s.(slots := s.slots[s.total + s.main.k := Pid(s.started)], started := s.started + 1,
                    main := Forking(s.main.g, s.main.k + 1))
    case ForkFails(spill) => s.(slots := if spill then s.slots[s.total + s.main.k := NoPid] else s.slots,
                                main := Short(s.total + Hackbench.Reported(s.main.k, c.fds)))
    case PipeFails => s.(main := Failed)
    case CountGroup => s.(total := s.total + 2 * c.fds,
                          main := if s.main.g + 1 < c.groups then Forking(s.main.g + 1, 0) else Running)
    case CommFails => s.(main := Short(s.total))
    case Go => s.(main := Reaping(0), released := true)
    case IgnoreTerm => s.(main := Killing(0, s.main.n), caught := s.caught - {Terminate})
    case Kill => KillOne(s)
    case KillsOver => s.(main := if s.main.Killing? then Waiting(0, s.main.n) else JumpWaiting(0, s.main.r))
    case Wait(x) => CountWait(s).(zombies := s.zombies - {x}, reaped := s.reaped + {x})
    case NoChild => CountWait(s)
    case WaitsOver => s.(main := if s.main.Waiting? then Failed else Done)
    case Catch(sig) => s.(caught := s.caught - {sig},
                          main := Jumped(|s.reaped|))
    case IgnoreBoth => s.(caught := {}, main := JumpKilling(0, s.main.r))
    case Die(x) => s.(zombies := s.zombies + {x})
    case Leave(x) => s.(zombies := s.zombies + {x})
  }

  /** acts leads from s to t. */
  ghost predicate Path(c: Config, s: State, acts: seq<Action>, t: State)
    decreases |acts|
  {
    if acts == [] then s == t else Enabled(c, s, acts[0]) && Path(c, Next(c, s, acts[0]), acts[1..], t)
  }

  ghost predicate Reachable(c: Config, s: State) {
    exists acts :: Path(c, Initial(c), acts, s)
  }

  lemma {:induction false} PathJoin(c: Config, s: State, acts: seq<Action>, t: State, more: seq<Action>, u: State)
    requires Path(c, s, acts, t) && Path(c, t, more, u)
    ensures Path(c, s, acts + more, u)
    decreases |acts|
  {
    hide Next, Enabled;
    if acts == [] {
      assert acts + more == more;
    } else {
      PathJoin(c, Next(c, s, acts[0]), acts[1..], t, more, u);
      assert (acts + more)[1..] == acts[1..] + more;
    }
  }

  lemma PathOne(c: Config, s: State, a: Action)
    requires Enabled(c, s, a)
    ensures Path(c, s, [a], Next(c, s, a))
  {
    assert [a][1..] == [];
  }

  lemma ReachStep(c: Config, s: State, a: Action)
    requires Reachable(c, s) && Enabled(c, s, a)
    ensures Reachable(c, Next(c, s, a))
  {
    var acts :| Path(c, Initial(c), acts, s);
    PathOne(c, s, a);
    PathJoin(c, Initial(c), acts, s, [a], Next(c, s, a));
  }

  // ----- sets of worker numbers

  lemma {:induction false} SmallMisses(taken: set<nat>, n: nat) returns (x: nat)
    requires |taken| < n
    ensures x < n && x !in taken
    decreases n
  {
    var last: nat := n - 1;
    if last !in taken {
      x := last;
    } else {
      x := SmallMisses(taken - {last}, last);
    }
  }

  lemma {:induction false} ReapedBelow(taken: set<nat>, n: nat)
    requires forall x :: x in taken ==> x < n
    ensures |taken| <= n
    decreases n
  {
    if n > 0 {
      var last: nat := n - 1;
      ReapedBelow(taken - {last}, last);
    } else if |taken| > 0 {
      var x := Missing({}, taken);
      assert false;
    }
  }

  lemma AllBelow(taken: set<nat>, n: nat)
    requires |taken| == n && forall x :: x in taken ==> x < n
    ensures forall x: nat :: x < n ==> x in taken
  {
    forall x: nat | x < n ensures x in taken {
      if x !in taken {
        ReapedBelow(taken + {x}, n);
        assert false;
      }
    }
  }

  // ----- what every reachable state satisfies

  /** No worker has been let go, signalled or waited for. */
  ghost predicate Quiet(s: State) {
    !s.released && s.doomed == 0 && s.zombies == {} && s.reaped == {}
  }

  /** The workers main goes by when a group has come up short: whole groups, and what the last one reported. */
  function Counted(c: Config, s: State): int {
    if s.started < s.total then 0 else s.total + Hackbench.Reported(s.started - s.total, c.fds)
  }

  ghost predicate MainOk(c: Config, s: State) {
    match s.main
    case Forking(g, k) =>
      g < c.groups && k <= 2 * c.fds && s.started == s.total + k && s.total == Hackbench.Offset(c.fds, g) && Quiet(s)
    case Running => s.started == s.total == TableSize(c) && Quiet(s)
    case Reaping(m) => s.released && s.doomed == 0 && m <= s.total == TableSize(c) && |s.reaped| == m
    case Short(n) => n == Counted(c, s) <= s.started <= n + 1 && Quiet(s)
    case Killing(m, n) =>
      m <= n == Counted(c, s) <= s.started <= n + 1 && s.doomed == m && s.reaped == {} && !s.released
    case Waiting(m, n) =>
      m <= n == Counted(c, s) <= s.started <= n + 1 && s.doomed == n && |s.reaped| == m && !s.released
    case Jumped(r) => |s.reaped| == r
    case JumpKilling(m, r) => m <= s.total && |s.reaped| == r && s.doomed >= m
    case JumpWaiting(m, r) => m <= s.total && |s.reaped| <= r + m && s.doomed >= s.total
    case Done => true
    case Failed => true
  }

  ghost predicate Inv(c: Config, s: State) {
    && |s.slots| == TableSize(c) && s.started <= |s.slots|
    && (forall x :: 0 <= x < s.started ==> s.slots[x] == Pid(x))
    && s.total <= s.started && s.doomed <= s.started
    && (exists q: nat :: q <= c.groups && s.total == Hackbench.Offset(c.fds, q))
    && s.zombies !! s.reaped
    && (s.released ==> s.started == s.total)
    && (forall x :: x in s.zombies || x in s.reaped ==> x < if s.released then s.started else s.doomed)
    && MainOk(c, s)
  }

  lemma OffsetGrows(fds: nat, g: nat, h: nat)
    requires g <= h
    ensures Hackbench.Offset(fds, g) <= Hackbench.Offset(fds, h)
    decreases h - g
  {
    if g < h {
      OffsetGrows(fds, g + 1, h);
    }
  }

  lemma InitialInv(c: Config)
    requires c.Sane()
    ensures Inv(c, Initial(c))
  {
    assert Initial(c).total == Hackbench.Offset(c.fds, 0);
  }

  lemma InvSetup(c: Config, s: State, a: Action)
    requires c.Sane() && Inv(c, s) && Enabled(c, s, a) && !(a.Catch? || a.Die? || a.Leave?)
    requires s.main.Forking? || s.main.Running? || s.main.Short?
    ensures Inv(c, Next(c, s, a))
  {
    if a.CountGroup? {
      OffsetGrows(c.fds, s.main.g + 1, c.groups);
    } else if a.Fork? {
      OffsetGrows(c.fds, s.main.g + 1, c.groups);
    }
  }

  /** Signals being caught, and workers ending. */
  lemma InvAny(c: Config, s: State, a: Action)
    requires c.Sane() && Inv(c, s) && Enabled(c, s, a) && (a.Catch? || a.Die? || a.Leave?)
    ensures Inv(c, Next(c, s, a))
  {
  }

  lemma InvWait(c: Config, s: State, x: nat)
    requires c.Sane() && Inv(c, s) && Enabled(c, s, Wait(x))
    ensures Inv(c, Next(c, s, Wait(x)))
  {
    assert x in s.zombies && x !in s.reaped && |s.reaped + {x}| == |s.reaped| + 1;
    assert Next(c, s, Wait(x)).reaped == s.reaped + {x};
  }

  lemma InvReap(c: Config, s: State, a: Action)
    requires c.Sane() && Inv(c, s) && Enabled(c, s, a) && InWait(s) && !(a.Catch? || a.Die? || a.Leave?)
    ensures Inv(c, Next(c, s, a))
  {
    if a.Wait? {
      hide Inv, Next;
      InvWait(c, s, a.x);
    } else if a.NoChild? && |s.reaped| < s.started {
      var x := SmallMisses(s.reaped, s.started);
      assert false;
    }
  }

  lemma InvKill(c: Config, s: State, a: Action)
    requires c.Sane() && Inv(c, s) && Enabled(c, s, a) && !(a.Catch? || a.Die? || a.Leave?)
    requires InKill(s) || s.main.Jumped? || s.main.Done? || s.main.Failed?
    ensures Inv(c, Next(c, s, a))
  {
    hide TableSize;
  }

  lemma InvStep(c: Config, s: State, a: Action)
    requires c.Sane() && Inv(c, s) && Enabled(c, s, a)
    ensures Inv(c, Next(c, s, a))
  {
    hide Inv;
    if a.Catch? || a.Die? || a.Leave? {
      InvAny(c, s, a);
    } else if s.main.Forking? || s.main.Running? || s.main.Short? {
      InvSetup(c, s, a);
    } else if InWait(s) {
      InvReap(c, s, a);
    } else {
      InvKill(c, s, a);
    }
  }

  lemma {:induction false} PathInv(c: Config, s: State, acts: seq<Action>, t: State)
    requires c.Sane() && Inv(c, s) && Path(c, s, acts, t)
    ensures Inv(c, t)
    decreases |acts|
  {
    hide Inv;
    if acts != [] {
      InvStep(c, s, acts[0]);
      PathInv(c, Next(c, s, acts[0]), acts[1..], t);
    }
  }

  lemma ReachableInv(c: Config, s: State)
    requires c.Sane() && Reachable(c, s)
    ensures Inv(c, s)
  {
    var acts :| Path(c, Initial(c), acts, s);
    InitialInv(c);
    PathInv(c, Initial(c), acts, s);
  }

  // ----- whom main signals, and how often it waits

  /** Every pid main hands to kill is that of a started worker; before any wait, of one not yet reaped. */
  lemma KillsOnlyStarted(c: Config, s: State)
    requires c.Sane() && Reachable(c, s) && Enabled(c, s, Kill)
    ensures s.main.m < s.started <= |s.slots| && s.slots[s.main.m] == Pid(s.main.m)
    ensures s.main.Killing? || s.main.r == 0 ==> s.main.m !in s.reaped
  {
    ReachableInv(c, s);
  }

  /** Whenever a signal has jumped main out, the counted slots hold whole groups of started workers. */
  lemma InterruptedCount(c: Config, s: State)
    requires c.Sane() && Reachable(c, s) && s.main.Jumped?
    ensures s.total <= s.started <= |s.slots| && forall x :: 0 <= x < s.total ==> s.slots[x] == Pid(x)
    ensures exists q: nat :: q <= c.groups && s.total == 2 * c.fds * q
  {
    ReachableInv(c, s);
    var q: nat :| q <= c.groups && s.total == Hackbench.Offset(c.fds, q);
    Hackbench.OffsetIs(c.fds, q);
  }

  function Kills(acts: seq<Action>): nat {
    if acts == [] then 0 else (if acts[0].Kill? then 1 else 0) + Kills(acts[1..])
  }

  function Waits(acts: seq<Action>): nat {
    if acts == [] then 0 else (if acts[0].Wait? || acts[0].NoChild? then 1 else 0) + Waits(acts[1..])
  }

  predicate OnJumpPath(m: Main) {
    m.Jumped? || m.JumpKilling? || m.JumpWaiting? || m.Done?
  }

  function JumpKillsLeft(s: State): int {
    match s.main
    case Jumped(_) => s.total
    case JumpKilling(m, _) => s.total - m
    case _ => 0
  }

  function JumpWaitsLeft(s: State): int {
    match s.main
    case Jumped(_) => s.total
    case JumpKilling(_, _) => s.total
    case JumpWaiting(m, _) => s.total - m
    case _ => 0
  }

  /** On the jump path no signal is caught once both are ignored. */
  predicate Deaf(s: State) {
    (s.main.JumpKilling? || s.main.JumpWaiting?) ==> s.caught == {}
  }

  lemma JumpStep(c: Config, s: State, a: Action)
    requires Enabled(c, s, a) && OnJumpPath(s.main) && Deaf(s)
    ensures var t := Next(c, s, a);
      && OnJumpPath(t.main) && Deaf(t) && t.total == s.total && t.started == s.started
      && Max(t.doomed, t.total) == Max(s.doomed, s.total)
      && JumpKillsLeft(t) == JumpKillsLeft(s) - (if a.Kill? then 1 else 0)
      && JumpWaitsLeft(t) == JumpWaitsLeft(s) - (if a.Wait? || a.NoChild? then 1 else 0)
  {
  }

  lemma {:induction false} JumpCounts(c: Config, s: State, acts: seq<Action>, t: State)
    requires Path(c, s, acts, t) && OnJumpPath(s.main) && Deaf(s)
    ensures OnJumpPath(t.main) && Deaf(t) && t.total == s.total
    ensures Kills(acts) == JumpKillsLeft(s) - JumpKillsLeft(t)
    ensures Waits(acts) == JumpWaitsLeft(s) - JumpWaitsLeft(t)
    decreases |acts|
  {
    if acts != [] {
      JumpStep(c, s, acts[0]);
      hide Next, Enabled;
      JumpCounts(c, Next(c, s, acts[0]), acts[1..], t);
    }
  }

  /** An interrupted main that gets to its exit has signalled exactly total workers and waited exactly total times. */
  lemma InterruptedReap(c: Config, s: State, acts: seq<Action>, t: State)
    requires c.Sane() && Reachable(c, s) && s.main.Jumped? && Path(c, s, acts, t) && t.main.Done?
    ensures Kills(acts) == s.total && Waits(acts) == s.total
  {
    ReachableInv(c, s);
    JumpCounts(c, s, acts, t);
  }

  // ----- when a signal is caught

  /** The steps that make main ignore a signal: having caught it, the jump's landing, a reap that signals. */
  predicate Ignores(a: Action, sig: Signal) {
    a == Catch(sig) || a.IgnoreBoth? || (a.IgnoreTerm? && sig == Terminate)
  }

  lemma {:induction false} CaughtOn(c: Config, s: State, acts: seq<Action>, t: State, sig: Signal)
    requires Path(c, s, acts, t)
    ensures sig in t.caught <==> sig in s.caught && forall a :: a in acts ==> !Ignores(a, sig)
    decreases |acts|
  {
    if acts != [] {
      CaughtOn(c, Next(c, s, acts[0]), acts[1..], t, sig);
      assert sig in Next(c, s, acts[0]).caught <==> sig in s.caught && !Ignores(acts[0], sig);
      hide Path, Next, Enabled, Ignores;
      assert forall a :: a in acts <==> a == acts[0] || a in acts[1..];
    }
  }

  /**
   Until main has left, a signal can jump out of anything it does, unless a step
   before has made it ignored; and it finds the workers as they are.
   */
  lemma CaughtIff(c: Config, acts: seq<Action>, t: State, sig: Signal)
    requires Path(c, Initial(c), acts, t) && !t.main.Done? && !t.main.Failed?
    ensures Enabled(c, t, Catch(sig)) <==> forall a :: a in acts ==> !Ignores(a, sig)
    ensures Enabled(c, t, Catch(sig)) ==>
      var u := Next(c, t, Catch(sig));
      && u.main == Jumped(|t.reaped|)
      && (u.total, u.started, u.slots, u.released, u.doomed, u.zombies, u.reaped) ==
           (t.total, t.started, t.slots, t.released, t.doomed, t.zombies, t.reaped)
  {
    hide Path, Ignores;
    CaughtOn(c, Initial(c), acts, t, sig);
  }

  // ----- runs without a signal, counted

  function Forks(acts: seq<Action>): nat {
    if acts == [] then 0 else (if acts[0].Fork? then 1 else 0) + Forks(acts[1..])
  }

  /** No signal in this run. */
  predicate Calm(acts: seq<Action>) {
    forall a :: a in acts ==> !a.Catch?
  }

  /**
   How main leaves when no signal was caught: with everyone reaped and nobody
   signalled, or with those it counted signalled and reaped.
   */
  ghost predicate LeftWell(c: Config, s: State) {
    && (!OnJumpPath(s.main) || s.main.Done?)
    && (s.main.Done? ==> s.released && s.doomed == 0 && |s.reaped| == s.started == s.total == TableSize(c))
    && (s.main.Failed? ==> !s.released && |s.reaped| == s.doomed && (s.doomed == 0 || s.doomed == Counted(c, s)))
  }

  /** The facts of the invariant that the counting needs. */
  ghost predicate Counts(c: Config, s: State) {
    MainOk(c, s) && s.total <= s.started && (s.released ==> s.started == s.total)
  }

  lemma CalmWait(c: Config, s: State, a: Action)
    requires c.Sane() && Counts(c, s) && LeftWell(c, s) && Enabled(c, s, a) && (a.Wait? || a.NoChild?)
    requires a.Wait? ==> a.x !in s.reaped
    ensures var t := Next(c, s, a);
      && LeftWell(c, t) && t.started == s.started && t.doomed == s.doomed
      && |t.reaped| == |s.reaped| + 1
  {
    if a.Wait? {
      assert |s.reaped + {a.x}| == |s.reaped| + 1;
    } else {
      var x := SmallMisses(s.reaped, s.started);
      assert false;
    }
  }

  lemma CalmOther(c: Config, s: State, a: Action)
    requires c.Sane() && Counts(c, s) && LeftWell(c, s) && Enabled(c, s, a) && !a.Catch? && !a.Wait? && !a.NoChild?
    ensures var t := Next(c, s, a);
      && LeftWell(c, t) && t.reaped == s.reaped
      && t.started == s.started + (if a.Fork? then 1 else 0)
      && t.doomed == s.doomed + (if a.Kill? then 1 else 0)
  {
  }

  /** One step without a signal, main not having jumped: what it forks, signals and reaps is what is counted. */
  lemma CalmStep(c: Config, s: State, a: Action)
    requires c.Sane() && Inv(c, s) && LeftWell(c, s) && Enabled(c, s, a) && !a.Catch?
    ensures var t := Next(c, s, a);
      && LeftWell(c, t)
      && t.started == s.started + (if a.Fork? then 1 else 0)
      && t.doomed == s.doomed + (if a.Kill? then 1 else 0)
      && |t.reaped| == |s.reaped| + (if a.Wait? || a.NoChild? then 1 else 0)
  {
    hide Next, LeftWell, MainOk;
    assert a.Wait? ==> a.x !in s.reaped;
    if a.Wait? || a.NoChild? {
      CalmWait(c, s, a);
    } else {
      CalmOther(c, s, a);
    }
  }

  lemma {:induction false} CalmCounts(c: Config, s: State, acts: seq<Action>, t: State)
    requires c.Sane() && Inv(c, s) && LeftWell(c, s) && Path(c, s, acts, t) && Calm(acts)
    ensures Inv(c, t) && LeftWell(c, t)
    ensures t.started == s.started + Forks(acts)
    ensures t.doomed == s.doomed + Kills(acts)
    ensures |t.reaped| == |s.reaped| + Waits(acts)
    decreases |acts|
  {
    hide Inv, LeftWell, Next, Enabled;
    if acts != [] {
      assert acts[0] in acts && forall a :: a in acts[1..] ==> a in acts;
      InvStep(c, s, acts[0]);
      CalmStep(c, s, acts[0]);
      CalmCounts(c, Next(c, s, acts[0]), acts[1..], t);
    }
  }

  lemma ReapedExactly(c: Config, s: State)
    requires Inv(c, s) && |s.reaped| == if s.released then s.started else s.doomed
    ensures forall x: nat :: x in s.reaped <==> x < if s.released then s.started else s.doomed
  {
    AllBelow(s.reaped, if s.released then s.started else s.doomed);
  }

  /**
   A run in which no signal is caught: if main gets to exit(0) it has started
   every worker of every group, signalled none, waited once for each, and reaped
   them all; if it gets to exit(1) it has signalled some first workers, waited as
   often, and reaped just those: the ones it had counted, or none when a pipe failed.
   */
  lemma UndisturbedRun(c: Config, acts: seq<Action>, t: State)
    requires c.Sane() && Path(c, Initial(c), acts, t) && Calm(acts)
    ensures t.started == Forks(acts)
    ensures t.main.Done? ==>
      && Forks(acts) == t.total == 2 * c.fds * c.groups && Kills(acts) == 0 && Waits(acts) == t.total
      && forall x: nat :: x in t.reaped <==> x < t.started
    ensures t.main.Failed? ==>
      && Kills(acts) == Waits(acts) && (Kills(acts) == 0 || Kills(acts) == Counted(c, t))
      && forall x: nat :: x in t.reaped <==> x < Kills(acts)
  {
    InitialInv(c);
    CalmCounts(c, Initial(c), acts, t);
    Hackbench.OffsetIs(c.fds, c.groups);
    if t.main.Done? || t.main.Failed? {
      ReapedExactly(c, t);
    }
  }

  /** The ordinary end: from GO on without a signal, main waits for every worker and signals none. */
  lemma OrdinaryReap(c: Config, s: State, acts: seq<Action>, t: State)
    requires c.Sane() && Reachable(c, s) && s.main.Running? && Path(c, s, acts, t) && Calm(acts) && t.main.Done?
    ensures Waits(acts) == s.total && Kills(acts) == 0 && Forks(acts) == 0
    ensures s.total == t.total == t.started && forall x: nat :: x < t.started ==> x in t.reaped
  {
    ReachableInv(c, s);
    CalmCounts(c, s, acts, t);
    ReapedExactly(c, t);
  }

  predicate ComingDown(m: Main) {
    m.Short? || m.Killing? || m.Waiting?
  }

  lemma FailureStep(c: Config, s: State, a: Action)
    requires Inv(c, s) && Enabled(c, s, a) && !a.Catch? && ComingDown(s.main)
    ensures var u := Next(c, s, a);
      if ComingDown(u.main) then u.main.n == s.main.n
      else u.main.Failed? && u.doomed == s.main.n && |u.reaped| == s.main.n
  {
  }

  lemma {:induction false} NothingAfterFailed(c: Config, s: State, acts: seq<Action>, t: State)
    requires Path(c, s, acts, t) && s.main.Failed?
    ensures t.main.Failed? && t.doomed == s.doomed && t.reaped == s.reaped
    decreases |acts|
  {
    if acts != [] {
      NothingAfterFailed(c, Next(c, s, acts[0]), acts[1..], t);
    }
  }

  /** A group come up short, or a failed call after the setup: main signals and reaps exactly the workers it counted. */
  lemma {:induction false} FailurePathKills(c: Config, s: State, acts: seq<Action>, t: State)
    requires c.Sane() && Inv(c, s) && Path(c, s, acts, t) && Calm(acts) && t.main.Failed? && ComingDown(s.main)
    ensures t.doomed == s.main.n && |t.reaped| == s.main.n
    decreases |acts|
  {
    hide Inv, Next, Enabled;
    assert acts[0] in acts && forall a :: a in acts[1..] ==> a in acts;
    var u := Next(c, s, acts[0]);
    InvStep(c, s, acts[0]);
    FailureStep(c, s, acts[0]);
    if ComingDown(u.main) {
      FailurePathKills(c, u, acts[1..], t);
    } else {
      NothingAfterFailed(c, u, acts[1..], t);
    }
  }

  lemma FailurePathCounts(c: Config, s: State, acts: seq<Action>, t: State)
    requires c.Sane() && Reachable(c, s) && s.main.Short? && Path(c, s, acts, t) && Calm(acts) && t.main.Failed?
    ensures s.main.n == Counted(c, s) && Kills(acts) == Waits(acts) == s.main.n
    ensures forall x: nat :: x in t.reaped <==> x < s.main.n
  {
    ReachableInv(c, s);
    CalmCounts(c, s, acts, t);
    FailurePathKills(c, s, acts, t);
    ReapedExactly(c, t);
  }

  /** After a failed ready read or wake write: all workers. */
  lemma CommFailureCounts(c: Config, s: State, acts: seq<Action>, t: State)
    requires c.Sane() && Reachable(c, s) && s.main.Running? && Calm(acts) && t.main.Failed?
    requires Path(c, Next(c, s, CommFails), acts, t)
    ensures Kills(acts) == Waits(acts) == s.started == s.total
    ensures forall x: nat :: x in t.reaped <==> x < s.started
  {
    ReachStep(c, s, CommFails);
    ReachableInv(c, s);
    FailurePathCounts(c, Next(c, s, CommFails), acts, t);
  }

  // ----- signals to workers already reaped

  predicate BeforeReap(m: Main) {
    m.Jumped? || m.JumpKilling?
  }

  lemma {:induction false} NoWayBack(c: Config, s: State, acts: seq<Action>, t: State)
    requires Path(c, s, acts, t) && OnJumpPath(s.main) && Deaf(s) && !BeforeReap(s.main)
    ensures !BeforeReap(t.main)
    decreases |acts|
  {
    if acts != [] {
      JumpStep(c, s, acts[0]);
      var u := Next(c, s, acts[0]);
      assert !BeforeReap(u.main);
      hide Next, Enabled;
      NoWayBack(c, u, acts[1..], t);
    }
  }

  /** Between the jump and the end of its kill loop main reaps nobody. */
  lemma {:induction false} NobodyReaped(c: Config, s: State, acts: seq<Action>, t: State)
    requires Path(c, s, acts, t) && BeforeReap(s.main) && Deaf(s) && BeforeReap(t.main)
    ensures t.reaped == s.reaped && t.total == s.total
    decreases |acts|
  {
    if acts != [] {
      JumpStep(c, s, acts[0]);
      var u := Next(c, s, acts[0]);
      if BeforeReap(u.main) {
        assert u.reaped == s.reaped;
        hide Next, Enabled;
        NobodyReaped(c, u, acts[1..], t);
      } else {
        NoWayBack(c, u, acts[1..], t);
        assert false;
      }
    }
  }

  /** The kill loop gets to each of its slots. */
  lemma {:induction false} KillsUpTo(c: Config, s: State, x: nat) returns (acts: seq<Action>, t: State)
    requires s.main.JumpKilling? && s.main.m <= x < s.total
    ensures Path(c, s, acts, t) && t.main.JumpKilling? && t.main.m == x && t.reaped == s.reaped && t.total == s.total
    decreases x - s.main.m
  {
    if s.main.m == x {
      acts, t := [], s;
    } else {
      var more;
      more, t := KillsUpTo(c, Next(c, s, Kill), x);
      PathOne(c, s, Kill);
      acts := [Kill] + more;
      PathJoin(c, s, [Kill], Next(c, s, Kill), more, t);
    }
  }

  /**
   After a jump main can signal the pid of a worker it has already reaped exactly
   when it has reaped one of the workers it has counted.
   */
  lemma KillsReapedIff(c: Config, s: State)
    requires c.Sane() && Reachable(c, s) && s.main.Jumped?
    ensures (exists acts, t :: Path(c, s, acts, t) && InKill(t) && Enabled(c, t, Kill) && t.main.m in t.reaped) <==>
      exists x: nat :: x in s.reaped && x < s.total
  {
    if x: nat :| x in s.reaped && x < s.total {
      var u := Next(c, s, IgnoreBoth);
      PathOne(c, s, IgnoreBoth);
      var more, t := KillsUpTo(c, u, x);
      PathJoin(c, s, [IgnoreBoth], u, more, t);
      assert Path(c, s, [IgnoreBoth] + more, t) && Enabled(c, t, Kill);
    } else {
      forall acts, t | Path(c, s, acts, t) && InKill(t) && Enabled(c, t, Kill) ensures t.main.m !in t.reaped {
        JumpCounts(c, s, acts, t);
        NobodyReaped(c, s, acts, t);
      }
    }
  }

  // ----- the setup loop's own states

  /** The child table after n forks that all succeeded. */
  function Filled(c: Config, n: nat): seq<Slot> {
    seq(TableSize(c), (x: nat) => if x < n then Pid(x) else Empty)
  }

  /** Main at the k-th fork of group g, nothing having failed. */
  function ForkedTo(c: Config, g: nat, k: nat): State {
    var n := Hackbench.Offset(c.fds, g) + k;
    State(Forking(g, k), Hackbench.Offset(c.fds, g), n, Filled(c, n), false, 0, {}, {}, {Interrupt, Terminate})
  }

  lemma ForkNext(c: Config, g: nat, k: nat)
    requires c.Sane() && g < c.groups && k < 2 * c.fds
    ensures Enabled(c, ForkedTo(c, g, k), Fork) && Next(c, ForkedTo(c, g, k), Fork) == ForkedTo(c, g, k + 1)
  {
    OffsetGrows(c.fds, g + 1, c.groups);
    var n := Hackbench.Offset(c.fds, g) + k;
    assert Filled(c, n)[n := Pid(n)] == Filled(c, n + 1);
  }

  lemma {:induction false} ForkedReachable(c: Config, g: nat, k: nat)
    requires c.Sane() && g < c.groups && k <= 2 * c.fds
    ensures Reachable(c, ForkedTo(c, g, k))
    decreases g, k
  {
    if k > 0 {
      ForkedReachable(c, g, k - 1);
      ForkNext(c, g, k - 1);
      ReachStep(c, ForkedTo(c, g, k - 1), Fork);
    } else if g > 0 {
      ForkedReachable(c, g - 1, 2 * c.fds);
      ReachStep(c, ForkedTo(c, g - 1, 2 * c.fds), CountGroup);
    } else {
      assert Filled(c, 0) == Initial(c).slots;
      assert Path(c, Initial(c), [], Initial(c));
    }
  }
}
