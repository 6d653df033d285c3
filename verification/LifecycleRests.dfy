/** Where a run of main under failures and signals can come to rest: an exit, or a reap that hangs. */
module LifecycleRests {
  import opened Lifecycle
  import Hackbench

  // ----- when a reap can hang

  /**
   Main waits, nobody has ended, somebody is left, and nobody left has been
   signalled: the workers that are left poll for a GO that will never come.
   */
  ghost predicate Stuck(s: State) {
    && (s.main.Waiting? || s.main.JumpWaiting?) && WaitsLeft(s) > 0 && s.zombies == {}
    && (exists x: nat :: Unreaped(s, x))
    && (forall x: nat :: Unreaped(s, x) ==> x >= s.doomed)
  }

  /** Nobody can move: no call of main returns and no worker ends. Only a signal to main could change that. */
  ghost predicate OnlySignals(c: Config, s: State) {
    forall a :: Enabled(c, s, a) ==> a.Catch?
  }

  lemma StuckCannotMove(c: Config, s: State, a: Action)
    requires Inv(c, s) && Stuck(s) && Enabled(c, s, a)
    ensures a.Catch?
  {
  }

  /** In a reap: count a child that has ended, let one end, find that there is none, or be through. */
  lemma WaitGoesOn(c: Config, s: State) returns (a: Action)
    requires Inv(c, s) && InWait(s) && !Stuck(s)
    ensures Enabled(c, s, a) && !a.Catch?
  {
    if WaitsLeft(s) == 0 {
      a := WaitsOver;
    } else if x :| x in s.zombies {
      a := Wait(x);
    } else if forall x: nat :: x < s.started ==> x in s.reaped {
      a := NoChild;
    } else if x: nat :| Unreaped(s, x) && (s.released || x < s.doomed) {
      a := if s.released then Leave(x) else Die(x);
    } else {
      var y: nat :| y < s.started && y !in s.reaped;
      assert Unreaped(s, y) && !s.released;
      assert false;
    }
  }

  /** Short of its exit and of a stuck reap, the program can go on without any signal. */
  lemma GoesOn(c: Config, s: State) returns (a: Action)
    requires c.Sane() && Inv(c, s) && !Stuck(s) && !s.main.Done? && !s.main.Failed?
    ensures Enabled(c, s, a) && !a.Catch?
  {
    match s.main
    case Forking(g, k) =>
      OffsetGrows(c.fds, g + 1, c.groups);
      a := if k < 2 * c.fds then Fork else CountGroup;
    case Running => a := Go;
    case Short(_) => a := IgnoreTerm;
    case Killing(_, _) => a := if KillsLeft(s) > 0 then Kill else KillsOver;
    case Jumped(_) => a := IgnoreBoth;
    case JumpKilling(_, _) => a := if KillsLeft(s) > 0 then Kill else KillsOver;
    case _ => a := WaitGoesOn(c, s);
  }

  /** The program has come to rest exactly when main has left or its reap is stuck; workers may outlive main. */
  lemma RestsIff(c: Config, s: State)
    requires c.Sane() && Reachable(c, s) && !s.main.Done? && !s.main.Failed?
    ensures OnlySignals(c, s) <==> Stuck(s)
  {
    ReachableInv(c, s);
    hide Inv, Enabled, Stuck, Reachable;
    if Stuck(s) {
      forall a | Enabled(c, s, a) ensures a.Catch? {
        StuckCannotMove(c, s, a);
      }
    } else {
      var a := GoesOn(c, s);
    }
  }

  // ----- no run goes on for ever

  /** Forks and counts left when n groups are to come. */
  function ForksLeft(c: Config, n: nat): nat {
    if n == 0 then 0 else ForksLeft(c, n - 1) + 2 * c.fds + 1
  }

  /** The steps of a kill loop, of a reap, and of all that follows a jump, for a full child table. */
  function JumpSteps(c: Config): nat {
    2 * TableSize(c) + 3
  }

  /** How many more steps main can take before it leaves or catches a signal. */
  function MainLeft(c: Config, m: Main): int {
    var table := TableSize(c);
    match m
    case Forking(g, k) => JumpSteps(c) + 1 - k + if g < c.groups then ForksLeft(c, c.groups - g) else 0
    case Running => JumpSteps(c) + 1
    case Short(_) => JumpSteps(c)
    case Jumped(_) => JumpSteps(c)
    case Killing(m, _) => 2 * table - m + 2
    case JumpKilling(m, _) => 2 * table - m + 2
    case Reaping(m) => table - m + 1
    case Waiting(m, _) => table - m + 1
    case JumpWaiting(m, _) => table - m + 1
    case Done => 0
    case Failed => 0
  }

  /** What each signal that can still be caught can add. */
  function SignalsLeft(c: Config, caught: set<Signal>): nat {
    (if Interrupt in caught then JumpSteps(c) else 0) + (if Terminate in caught then JumpSteps(c) else 0)
  }

  /** What a run can still use up: main's steps, the signals, and the ends of workers. */
  function Left(c: Config, s: State): int {
    MainLeft(c, s.main) + SignalsLeft(c, s.caught) + TableSize(c) - |s.zombies| - |s.reaped|
  }

  lemma LeftMain(c: Config, s: State, a: Action)
    requires c.Sane() && Inv(c, s) && Enabled(c, s, a) && !(a.Catch? || a.Die? || a.Leave? || a.Wait?)
    ensures MainLeft(c, Next(c, s, a).main) < MainLeft(c, s.main)
    ensures SignalsLeft(c, Next(c, s, a).caught) <= SignalsLeft(c, s.caught)
    ensures Next(c, s, a).zombies == s.zombies && Next(c, s, a).reaped == s.reaped
  {
    hide TableSize;
  }

  lemma MainLeftPositive(c: Config, s: State)
    requires c.Sane() && Inv(c, s)
    ensures MainLeft(c, s.main) >= 0
    ensures !s.main.Done? && !s.main.Failed? ==> MainLeft(c, s.main) > 0
  {
    if s.main.Forking? {
      assert ForksLeft(c, c.groups - s.main.g) == ForksLeft(c, c.groups - s.main.g - 1) + 2 * c.fds + 1;
    }
  }

  lemma LeftEnds(c: Config, s: State, a: Action)
    requires Inv(c, s) && Enabled(c, s, a) && (a.Die? || a.Leave? || a.Wait?)
    ensures var t := Next(c, s, a);
      && t.caught == s.caught
      && (a.Wait? ==> |t.zombies| + |t.reaped| == |s.zombies| + |s.reaped| && MainLeft(c, t.main) < MainLeft(c, s.main))
      && (!a.Wait? ==> |t.zombies| + |t.reaped| == |s.zombies| + |s.reaped| + 1 && t.main == s.main)
  {
    hide TableSize, MainOk;
    if a.Wait? {
      assert a.x in s.zombies && a.x !in s.reaped;
    }
  }

  lemma LeftCatch(c: Config, s: State, sig: Signal)
    requires Enabled(c, s, Catch(sig))
    ensures var t := Next(c, s, Catch(sig));
      && MainLeft(c, t.main) + SignalsLeft(c, t.caught) == SignalsLeft(c, s.caught)
      && t.zombies == s.zombies && t.reaped == s.reaped
  {
    match sig
    case Interrupt =>
    case Terminate =>
  }

  /** Every step of main or a worker, and every signal, uses up some of it. */
  lemma LeftStep(c: Config, s: State, a: Action)
    requires c.Sane() && Inv(c, s) && Enabled(c, s, a)
    ensures Left(c, Next(c, s, a)) < Left(c, s)
  {
    if a.Catch? {
      MainLeftPositive(c, s);
      LeftCatch(c, s, a.sig);
    } else if a.Die? || a.Leave? || a.Wait? {
      LeftEnds(c, s, a);
    } else {
      LeftMain(c, s, a);
    }
  }

  lemma LeftNonNegative(c: Config, s: State)
    requires c.Sane() && Inv(c, s)
    ensures Left(c, s) >= 0
  {
    MainLeftPositive(c, s);
    var ended := s.zombies + s.reaped;
    ReapedBelow(ended, s.started);
    assert |ended| == |s.zombies| + |s.reaped|;
  }

  lemma {:induction false} PathBound(c: Config, s: State, acts: seq<Action>, t: State)
    requires c.Sane() && Inv(c, s) && Path(c, s, acts, t)
    ensures Inv(c, t) && |acts| <= Left(c, s) - Left(c, t)
    decreases |acts|
  {
    hide Inv, Next, Enabled, Left;
    if acts != [] {
      InvStep(c, s, acts[0]);
      LeftStep(c, s, acts[0]);
      PathBound(c, Next(c, s, acts[0]), acts[1..], t);
    }
  }

  /**
   Every run is finite, whatever fails and whenever signals come, and where it
   cannot be continued main has left or its reap is stuck.
   */
  lemma EveryRunEnds(c: Config, acts: seq<Action>, t: State)
    requires c.Sane() && Path(c, Initial(c), acts, t)
    ensures |acts| <= Left(c, Initial(c))
    ensures OnlySignals(c, t) ==> t.main.Done? || t.main.Failed? || Stuck(t)
  {
    hide Inv, Left, Stuck, OnlySignals;
    InitialInv(c);
    PathBound(c, Initial(c), acts, t);
    LeftNonNegative(c, t);
    if !t.main.Done? && !t.main.Failed? {
      assert Reachable(c, t);
      RestsIff(c, t);
    }
  }

  lemma {:induction false} ReleasedByGo(c: Config, s: State, acts: seq<Action>, t: State)
    requires Path(c, s, acts, t)
    ensures t.released <==> s.released || Go in acts
    decreases |acts|
  {
    if acts != [] {
      var u := Next(c, s, acts[0]);
      assert u.released <==> s.released || acts[0] == Go;
      hide Next, Enabled;
      ReleasedByGo(c, u, acts[1..], t);
    }
  }

  lemma WaitingNotStuck(c: Config, s: State)
    requires Inv(c, s) && s.main.Waiting?
    ensures !Stuck(s)
  {
    if WaitsLeft(s) > 0 {
      var x := SmallMisses(s.reaped, s.doomed);
      assert Unreaped(s, x);
    }
  }

  /**
   Without a signal a run can only come to rest in an exit: exit(0) exactly when
   GO was written, exit(1) otherwise.
   */
  lemma CalmRests(c: Config, acts: seq<Action>, t: State)
    requires c.Sane() && Path(c, Initial(c), acts, t) && Calm(acts) && OnlySignals(c, t)
    ensures if Go in acts then t.main.Done? else t.main.Failed?
  {
    InitialInv(c);
    CalmCounts(c, Initial(c), acts, t);
    ReleasedByGo(c, Initial(c), acts, t);
    if !t.main.Done? && !t.main.Failed? {
      assert Reachable(c, t);
      RestsIff(c, t);
      assert t.main.Waiting?;
      WaitingNotStuck(c, t);
      assert false;
    }
  }

  // ----- the failure path

  predicate OnFailurePath(m: Main) {
    m.Short? || m.Killing? || m.Waiting? || m.Failed?
  }

  lemma {:induction false} FailurePathKept(c: Config, s: State, acts: seq<Action>, t: State)
    requires Path(c, s, acts, t) && OnFailurePath(s.main) && forall a :: a in acts ==> !a.Catch?
    ensures OnFailurePath(t.main)
    decreases |acts|
  {
    if acts != [] {
      var u := Next(c, s, acts[0]);
      assert acts[0] in acts && OnFailurePath(u.main);
      hide Next, Enabled;
      FailurePathKept(c, u, acts[1..], t);
    }
  }

  /** In the failure path's own reap something other than a signal can always happen next. */
  lemma FailurePathNeverStuck(c: Config, s: State) returns (a: Action)
    requires c.Sane() && Reachable(c, s) && s.main.Waiting?
    ensures !Stuck(s) && Enabled(c, s, a) && !a.Catch?
  {
    ReachableInv(c, s);
    hide Inv, Enabled, Reachable;
    WaitingNotStuck(c, s);
    a := GoesOn(c, s);
  }

  /**
   The failure path's own reap never hangs, as it waits for no more workers than
   it has signalled: from any point of that path, however a run without a further
   signal goes, it can be continued until main has left with exit(1).
   */
  lemma FailurePathExits(c: Config, s: State, acts: seq<Action>, t: State)
    requires c.Sane() && Reachable(c, s) && OnFailurePath(s.main)
    requires Path(c, s, acts, t) && forall a :: a in acts ==> !a.Catch?
    ensures OnlySignals(c, t) ==> t.main.Failed?
  {
    ReachableInv(c, s);
    hide Inv, Enabled, Reachable;
    PathInv(c, s, acts, t);
    FailurePathKept(c, s, acts, t);
    if !t.main.Failed? {
      if t.main.Waiting? {
        WaitingNotStuck(c, t);
      }
      var a := GoesOn(c, t);
    }
  }

  /**
   What main knows when it has jumped: no worker is left unsignalled by the
   coming kill loop, or enough signalled ones are left for the coming waits.
   */
  predicate Safe(s: State, r: nat) {
    s.started <= Max(s.doomed, s.total) || r + s.total <= Max(s.doomed, s.total)
  }

  predicate SafeOnPath(s: State) {
    match s.main
    case Jumped(r) => Safe(s, r)
    case JumpKilling(_, r) => Safe(s, r)
    case JumpWaiting(_, r) => Safe(s, r)
    case _ => true
  }

  lemma SafeStep(c: Config, s: State, a: Action)
    requires Inv(c, s) && Enabled(c, s, a) && OnJumpPath(s.main) && Deaf(s) && SafeOnPath(s)
    ensures SafeOnPath(Next(c, s, a))
  {
    JumpStep(c, s, a);
  }

  lemma {:induction false} SafeKept(c: Config, s: State, acts: seq<Action>, t: State)
    requires c.Sane() && Inv(c, s) && Path(c, s, acts, t) && OnJumpPath(s.main) && Deaf(s) && SafeOnPath(s)
    ensures Inv(c, t) && OnJumpPath(t.main) && SafeOnPath(t)
    decreases |acts|
  {
    if acts != [] {
      InvStep(c, s, acts[0]);
      SafeStep(c, s, acts[0]);
      JumpStep(c, s, acts[0]);
      hide Next, Enabled, Inv;
      SafeKept(c, Next(c, s, acts[0]), acts[1..], t);
    }
  }

  lemma SafeNotStuck(c: Config, s: State)
    requires c.Sane() && Inv(c, s) && OnJumpPath(s.main) && SafeOnPath(s)
    ensures !Stuck(s)
  {
    if s.main.JumpWaiting? && WaitsLeft(s) > 0 && s.started > s.doomed {
      var x := SmallMisses(s.reaped, s.doomed);
      assert Unreaped(s, x);
    }
  }

  // ----- an unsafe jump can be driven into the hang

  lemma ZombieRoom(zombies: set<nat>, taken: set<nat>, n: nat, x: nat)
    requires x in zombies && zombies !! taken && forall y :: y in zombies || y in taken ==> y < n
    ensures |taken| < n
  {
    ReapedBelow(taken + {x}, n);
  }

  /** The signalled workers end and are reaped one by one; the waits outlast them. */
  lemma {:induction false} ReapsThenStuck(c: Config, s: State) returns (acts: seq<Action>, t: State)
    requires c.Sane() && Inv(c, s) && s.main.JumpWaiting? && !SafeOnPath(s)
    requires |s.reaped| == s.main.r + s.main.m
    ensures Path(c, s, acts, t) && Stuck(t)
    decreases s.doomed - |s.reaped|, if s.zombies == {} then 1 else 0
  {
    assert !s.released;
    ReapedBelow(s.reaped, s.doomed);
    if s.zombies == {} && |s.reaped| == s.doomed {
      acts, t := [], s;
      AllBelow(s.reaped, s.doomed);
      assert Unreaped(s, s.doomed);
    } else {
      var a;
      if s.zombies == {} {
        var x := SmallMisses(s.reaped, s.doomed);
        a := Die(x);
      } else {
        var x :| x in s.zombies;
        ZombieRoom(s.zombies, s.reaped, s.doomed, x);
        a := Wait(x);
      }
      InvStep(c, s, a);
      PathOne(c, s, a);
      var more;
      more, t := ReapsThenStuck(c, Next(c, s, a));
      acts := [a] + more;
      PathJoin(c, s, [a], Next(c, s, a), more, t);
    }
  }

  /** From the kill loop, an unsafe state reaches a stuck one. */
  lemma {:induction false} KillsThenStuck(c: Config, s: State) returns (acts: seq<Action>, t: State)
    requires c.Sane() && Inv(c, s) && s.main.JumpKilling? && Deaf(s) && !SafeOnPath(s)
    ensures Path(c, s, acts, t) && Stuck(t)
    decreases KillsLeft(s)
  {
    var a := if KillsLeft(s) > 0 then Kill else KillsOver;
    var u := Next(c, s, a);
    InvStep(c, s, a);
    PathOne(c, s, a);
    var more;
    if a.Kill? {
      more, t := KillsThenStuck(c, u);
    } else {
      more, t := ReapsThenStuck(c, u);
    }
    acts := [a] + more;
    PathJoin(c, s, [a], u, more, t);
  }

  /** Main has not left, and nobody can move ever again. */
  ghost predicate Hangs(c: Config, s: State) {
    !s.main.Done? && !s.main.Failed? && forall a :: !Enabled(c, s, a)
  }

  /** After a jump a stuck reap is a hang, as signals are ignored by then; and there is no other. */
  lemma HangsIff(c: Config, s: State)
    requires c.Sane() && Inv(c, s) && OnJumpPath(s.main) && Deaf(s)
    ensures Hangs(c, s) <==> Stuck(s)
    ensures OnlySignals(c, s) ==> s.main.Done? || Stuck(s)
  {
    if Stuck(s) {
      hide Inv;
      forall a ensures !Enabled(c, s, a) {
        if Enabled(c, s, a) {
          StuckCannotMove(c, s, a);
        }
      }
    } else if !s.main.Done? {
      hide Inv, Enabled, Stuck;
      var a := GoesOn(c, s);
    }
  }

  lemma SafeRuns(c: Config, s: State, acts: seq<Action>, t: State)
    requires c.Sane() && Inv(c, s) && s.main.Jumped? && SafeOnPath(s) && Path(c, s, acts, t)
    ensures !Hangs(c, t) && (OnlySignals(c, t) ==> t.main.Done?)
  {
    hide Inv, Stuck, Hangs, OnlySignals;
    SafeKept(c, s, acts, t);
    SafeNotStuck(c, t);
    JumpCounts(c, s, acts, t);
    HangsIff(c, t);
  }

  lemma StuckRuns(c: Config, s: State, acts: seq<Action>, t: State)
    requires c.Sane() && Inv(c, s) && s.main.Jumped? && Path(c, s, acts, t) && Stuck(t)
    ensures Hangs(c, t)
  {
    hide Inv, Stuck, Hangs;
    PathInv(c, s, acts, t);
    JumpCounts(c, s, acts, t);
    HangsIff(c, t);
  }

  /**
   When main has jumped, the program can hang exactly when some started worker
   will be left unsignalled and the workers already reaped leave fewer signalled
   ones than the waits main is going to do. Otherwise every run ends with main's
   exit(0).
   */
  lemma InterruptedReapCanHangIff(c: Config, s: State)
    requires c.Sane() && Reachable(c, s) && s.main.Jumped?
    ensures (exists acts, t :: Path(c, s, acts, t) && Hangs(c, t)) <==>
      s.started > Max(s.doomed, s.total) && |s.reaped| + s.total > Max(s.doomed, s.total)
    ensures (exists acts, t :: Path(c, s, acts, t) && Hangs(c, t)) ||
      forall acts, t :: Path(c, s, acts, t) && OnlySignals(c, t) ==> t.main.Done?
  {
    ReachableInv(c, s);
    hide Reachable, Hangs, OnlySignals, Stuck;
    if SafeOnPath(s) {
      forall acts, t | Path(c, s, acts, t) ensures !Hangs(c, t) && (OnlySignals(c, t) ==> t.main.Done?) {
        SafeRuns(c, s, acts, t);
      }
    } else {
      InvStep(c, s, IgnoreBoth);
      PathOne(c, s, IgnoreBoth);
      var more, t := KillsThenStuck(c, Next(c, s, IgnoreBoth));
      PathJoin(c, s, [IgnoreBoth], Next(c, s, IgnoreBoth), more, t);
      StuckRuns(c, s, [IgnoreBoth] + more, t);
    }
  }

  /** A signal that arrives before any worker has been waited for never makes the reap hang: main gets to its exit. */
  lemma EarlySignalNeverHangs(c: Config, s: State, acts: seq<Action>, t: State)
    requires c.Sane() && Reachable(c, s) && s.main.Jumped? && s.reaped == {} && Path(c, s, acts, t)
    ensures !Hangs(c, t) && (OnlySignals(c, t) ==> t.main.Done?)
  {
    ReachableInv(c, s);
    SafeRuns(c, s, acts, t);
  }

  // ----- a run that hangs

  const EXAMPLE := Config(2, 1)
  const PIDS: seq<Slot> := [Pid(0), Pid(1), Pid(2), NoPid]

  lemma ExampleSignalled()
    ensures Reachable(EXAMPLE, State(Waiting(0, 2), 2, 3, PIDS, false, 2, {}, {}, {Interrupt}))
  {
    var c := EXAMPLE;
    ForkedReachable(c, 1, 1);
    hide Reachable;
    var s4 := ForkedTo(c, 1, 1);
    assert s4.slots[3 := NoPid] == PIDS;
    ReachStep(c, s4, ForkFails(true));
    var s5 := s4.(main := Short(2), slots := PIDS);
    ReachStep(c, s5, IgnoreTerm);
    assert {Interrupt, Terminate} - {Terminate} == {Interrupt};
    var s6 := s5.(main := Killing(0, 2), caught := {Interrupt});
    ReachStep(c, s6, Kill);
    var s7 := s6.(main := Killing(1, 2), doomed := 1);
    ReachStep(c, s7, Kill);
    var s8 := s7.(main := Killing(2, 2), doomed := 2);
    ReachStep(c, s8, KillsOver);
  }

  lemma ExampleEnded()
    ensures Reachable(EXAMPLE, State(Waiting(0, 2), 2, 3, PIDS, false, 2, {0}, {}, {Interrupt}))
  {
    ExampleSignalled();
    hide Reachable;
    ReachStep(EXAMPLE, State(Waiting(0, 2), 2, 3, PIDS, false, 2, {}, {}, {Interrupt}), Die(0));
    assert {} + {0} == {0 as nat};
  }

  lemma ExampleWaited()
    ensures Reachable(EXAMPLE, State(Waiting(1, 2), 2, 3, PIDS, false, 2, {}, {0}, {Interrupt}))
  {
    ExampleEnded();
    hide Reachable;
    ReachStep(EXAMPLE, State(Waiting(0, 2), 2, 3, PIDS, false, 2, {0}, {}, {Interrupt}), Wait(0));
    assert {0} - {0} == {} && {} + {0} == {0 as nat};
  }

  lemma ExampleJumped()
    ensures Reachable(EXAMPLE, State(Jumped(1), 2, 3, PIDS, false, 2, {}, {0}, {}))
  {
    ExampleWaited();
    hide Reachable;
    ReachStep(EXAMPLE, State(Waiting(1, 2), 2, 3, PIDS, false, 2, {}, {0}, {Interrupt}), Catch(Interrupt));
    assert {Interrupt} - {Interrupt} == {};
  }

  /**
   Two groups of one pair: the second group's sender cannot be forked, main
   signals the first pair, waits for one of it, and is interrupted. Its receiver
   of the second group was never signalled, and the coming reap can wait for it.
   */
  lemma HangExample()
    ensures exists s, acts, t ::
      Reachable(EXAMPLE, s) && s.main.Jumped? && Path(EXAMPLE, s, acts, t) && Hangs(EXAMPLE, t)
  {
    ExampleJumped();
    hide Reachable;
    var s := State(Jumped(1), 2, 3, PIDS, false, 2, {}, {0}, {});
    InterruptedReapCanHangIff(EXAMPLE, s);
    var acts, t :| Path(EXAMPLE, s, acts, t) && Hangs(EXAMPLE, t);
  }
}
