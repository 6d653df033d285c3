/** The theorems about whole runs, from main's first call on, in any interleaving. */
module HackbenchRuns {
  import opened Sums
  import opened Hackbench
  import opened HackbenchInvariant
  import opened HackbenchProgress

  // ----- what is left to do: a measure every action lowers

  function SetupLeft(c: Config, groups: nat): nat {
    if groups == 0 then 0 else SetupLeft(c, groups - 1) + 5 * c.fds
  }

  ghost function MainLeft(c: Config, m: Main): int
    requires MainInRange(c, m)
  {
    var all := Offset(c.fds, c.groups);
    match m
    case OpenPipe(g, k) => SetupLeft(c, c.groups - 1 - g) + 3 * (c.fds - k) + 2 * c.fds + 2 * all + 4
    case ForkRecv(g, k) => SetupLeft(c, c.groups - 1 - g) + 3 * (c.fds - k) - 1 + 2 * c.fds + 2 * all + 4
    case CloseRd(g, k) => SetupLeft(c, c.groups - 1 - g) + 3 * (c.fds - k) - 2 + 2 * c.fds + 2 * all + 4
    case ForkSend(g, k) => SetupLeft(c, c.groups - 1 - g) + (c.fds - k) + c.fds + 2 * all + 4
    case CloseWr(g, k) => SetupLeft(c, c.groups - 1 - g) + (c.fds - k) + 2 * all + 4
    case Collect(n) => (all - n) + all + 3
    case Wake => all + 2
    case Reap(n) => all - n + 1
    case Finished => 0
  }

  function Rank(pc: Pc): nat {
    match pc
    case Unborn => 6
    case Entry => 5
    case Announce => 4
    case Await => 3
    case Work => 2
    case Exited => 1
    case Reaped => 0
  }

  function Pumped(c: Config, w: Worker): nat {
    w.i * (c.fds * c.size) + w.j * c.size + w.done
  }

  /** Steps before a worker is reaped, plus the bytes it can still move: a receiver at most what its senders owe. */
  function WorkerLeft(c: Config, id: Id, w: Worker): int {
    Rank(w.pc) + if id.Send? then c.loops * (c.fds * c.size) - Pumped(c, w) else Debt(c) - Taken(c, w)
  }

  ghost function PairFn(c: Config, m: map<Id, Worker>, g: nat): nat -> int {
    (i: nat) => WorkerLeft(c, Recv(g, i), Get(m, Recv(g, i))) + WorkerLeft(c, Send(g, i), Get(m, Send(g, i)))
  }

  ghost function GroupFn(c: Config, m: map<Id, Worker>): nat -> int {
    (g: nat) => Sum(PairFn(c, m, g), c.fds)
  }

  ghost function Left(c: Config, s: State): int
    requires MainInRange(c, s.main)
  {
    MainLeft(c, s.main) + Sum(GroupFn(c, s.workers), c.groups)
  }

  lemma LeftChange(c: Config, m: map<Id, Worker>, id: Id, w: Worker)
    requires id.g < c.groups && id.i < c.fds && id in m
    ensures Sum(GroupFn(c, m[id := w]), c.groups) ==
      Sum(GroupFn(c, m), c.groups) + WorkerLeft(c, id, w) - WorkerLeft(c, id, m[id])
  {
    var t := m[id := w];
    forall g: nat | g < c.groups && g != id.g ensures GroupFn(c, t)(g) == GroupFn(c, m)(g) {
      SumSame(PairFn(c, t, g), PairFn(c, m, g), c.fds);
    }
    SumPoint(PairFn(c, m, id.g), PairFn(c, t, id.g), c.fds, id.i);
    SumPoint(GroupFn(c, m), GroupFn(c, t), c.groups, id.g);
  }

  lemma MainLeftSetup(c: Config, m: Main)
    requires c.Sane() && SettingUp(m) && MainInRange(c, m)
    ensures MainInRange(c, SetupMain(c, m))
    ensures MainLeft(c, SetupMain(c, m)) < MainLeft(c, m)
  {
  }

  lemma PumpedMore(c: Config, w: Worker, n: nat)
    requires n <= c.size - w.done && w.j < c.fds
    ensures Pumped(c, SendNext(c, w, n)) == Pumped(c, w) + n
  {
    assert (w.j + 1) * c.size == w.j * c.size + c.size;
    assert (w.i + 1) * (c.fds * c.size) == w.i * (c.fds * c.size) + c.fds * c.size;
  }

  lemma MoverLeft(c: Config, s: State, a: Action)
    requires c.Sane() && Enabled(c, s, a) && !MainAction(a) && !a.Eof?
    requires WorkerOk(c, s.main, s.wake, a.id, s.workers[a.id])
    ensures WorkerLeft(c, a.id, Moved(c, s.workers[a.id], a)) < WorkerLeft(c, a.id, s.workers[a.id])
  {
    var w := s.workers[a.id];
    if a.Write? {
      PumpedMore(c, w, a.n);
    } else if a.Read? {
      TransferBytes(c, w, a.n, 0);
    }
  }

  lemma ForkLeft(c: Config, s: State, id: Id, pc: Pc)
    requires Shape(c, s) && Workers(c, s) && id in Ids(c) && !Born(c, s.main, id) && pc in {Entry, Announce}
    ensures var workers := s.workers[id := Worker(pc, s.mainEnds, 0, 0, 0)];
      Sum(GroupFn(c, workers), c.groups) < Sum(GroupFn(c, s.workers), c.groups)
  {
    assert WorkerOk(c, s.main, s.wake, id, s.workers[id]);
    LeftChange(c, s.workers, id, Worker(pc, s.mainEnds, 0, 0, 0));
  }

  lemma LeftSetup(c: Config, s: State)
    requires c.Sane() && Shape(c, s) && Workers(c, s) && SettingUp(s.main)
    ensures MainInRange(c, Next(c, s, Setup).main)
    ensures Left(c, Next(c, s, Setup)) < Left(c, s)
  {
    MainLeftSetup(c, s.main);
    if s.main.ForkRecv? {
      ForkLeft(c, s, Recv(s.main.g, s.main.k), Entry);
    } else if s.main.ForkSend? {
      ForkLeft(c, s, Send(s.main.g, s.main.k), Announce);
    }
  }

  lemma LeftMain(c: Config, s: State, a: Action)
    requires c.Sane() && MainInRange(c, s.main) && Barrier(c, s) && Enabled(c, s, a) && MainAction(a) && !a.Setup?
    ensures MainInRange(c, Next(c, s, a).main)
    ensures Left(c, Next(c, s, a)) < Left(c, s)
  {
    hide PcSet;
    assert Next(c, s, a).workers == s.workers;
  }

  lemma LeftMove(c: Config, s: State, a: Action)
    requires c.Sane() && MainInRange(c, s.main) && s.workers.Keys == Ids(c)
    requires Enabled(c, s, a) && !MainAction(a) && !a.Eof?
    requires WorkerOk(c, s.main, s.wake, a.id, s.workers[a.id])
    ensures MainInRange(c, Next(c, s, a).main)
    ensures Left(c, Next(c, s, a)) < Left(c, s)
  {
    MoverLeft(c, s, a);
    hide WorkerLeft, WorkerOk, Moved;
    LeftChange(c, s.workers, a.id, Moved(c, s.workers[a.id], a));
  }

  /** Every action but a read that returns 0 lowers what is left. */
  lemma LeftStep(c: Config, s: State, a: Action)
    requires c.Sane() && Inv(c, s) && Enabled(c, s, a) && !a.Eof?
    ensures MainInRange(c, Next(c, s, a).main)
    ensures Left(c, Next(c, s, a)) < Left(c, s)
  {
    hide Flow, Workers, Barrier, Next, Left, WorkerOk;
    if a.Setup? {
      LeftSetup(c, s);
    } else if MainAction(a) {
      LeftMain(c, s, a);
    } else {
      OkWorker(c, s, a.id);
      LeftMove(c, s, a);
    }
  }

  lemma SenderLeftNonNegative(c: Config, w: Worker, id: Id)
    requires c.Sane() && id.Send? && SendOk(c, w) && w.done < c.size
    ensures WorkerLeft(c, id, w) >= 0
  {
    MulLess(w.i, c.loops, c.fds * c.size);
    MulLess(w.j, c.fds, c.size);
  }

  lemma ReceiverLeftNonNegative(c: Config, s: State, g: nat, j: nat)
    requires c.Sane() && Inv(c, s) && g < c.groups && j < c.fds
    ensures Recv(g, j) in s.workers && WorkerLeft(c, Recv(g, j), s.workers[Recv(g, j)]) >= 0
  {
    hide Workers, Barrier, Flow, Debt, Sent, Taken;
    OkPipe(c, s, g, j);
    SentBound(c, s, g, j);
  }

  lemma LeftNonNegative(c: Config, s: State)
    requires c.Sane() && Inv(c, s)
    ensures MainInRange(c, s.main) && Left(c, s) >= 0
  {
    forall g: nat | g < c.groups ensures GroupFn(c, s.workers)(g) >= 0 {
      var f := PairFn(c, s.workers, g);
      forall i: nat | i < c.fds ensures f(i) >= 0 {
        OkWorker(c, s, Send(g, i));
        hide Inv;
        ReceiverLeftNonNegative(c, s, g, i);
        SenderLeftNonNegative(c, s.workers[Send(g, i)], Send(g, i));
      }
      SumNonNegative(f, c.fds);
    }
    hide Workers, Flow, GroupFn;
    SumNonNegative(GroupFn(c, s.workers), c.groups);
  }

  // ----- runs keep the invariant

  lemma {:induction false} RunKeeps(c: Config, s: State, acts: seq<Action>)
    requires c.Sane() && Inv(c, s) && IsRun(c, s, acts)
    ensures Inv(c, After(c, s, acts))
    decreases |acts|
  {
    if acts != [] {
      if acts[0].Broken? && !c.Short() {
        NeverBroken(c, s, acts[0].id);
      }
      InvStep(c, s, acts[0]);
      RunKeeps(c, Next(c, s, acts[0]), acts[1..]);
    }
  }

  lemma ReachableInv(c: Config, s: State)
    requires c.Sane() && Reachable(c, s)
    ensures Inv(c, s)
  {
    var acts :| IsRun(c, Initial(c), acts) && After(c, Initial(c), acts) == s;
    InitialInv(c);
    RunKeeps(c, Initial(c), acts);
  }

  lemma {:induction false} RunSplit(c: Config, s: State, acts: seq<Action>, k: nat)
    requires IsRun(c, s, acts) && k < |acts|
    ensures IsRun(c, s, acts[..k]) && Enabled(c, After(c, s, acts[..k]), acts[k])
    decreases k
  {
    if k > 0 {
      RunSplit(c, Next(c, s, acts[0]), acts[1..], k - 1);
      assert acts[1..][..k - 1] == acts[..k][1..];
    }
  }

  // ----- termination and the unique outcome

  /** The actions of a run that are not a read returning 0. */
  function Effective(acts: seq<Action>): nat {
    if acts == [] then 0 else (if acts[0].Eof? then 0 else 1) + Effective(acts[1..])
  }

  /** A read that returns 0 changes nothing: the receiver asks again. */
  lemma EofIdle(c: Config, s: State, id: Id)
    requires Enabled(c, s, Eof(id))
    ensures Next(c, s, Eof(id)) == s
  {
    assert s.workers[id := s.workers[id]] == s.workers;
  }

  lemma EffectiveStep(c: Config, s: State, a: Action)
    requires c.Sane() && Inv(c, s) && Enabled(c, s, a)
    ensures Inv(c, Next(c, s, a))
    ensures Left(c, Next(c, s, a)) <= Left(c, s) - if a.Eof? then 0 else 1
    ensures c.Balanced() ==> !a.Eof?
  {
    hide Inv, Enabled, Next, Left;
    if a.Broken? && !c.Short() {
      NeverBroken(c, s, a.id);
    }
    if a.Eof? && c.Balanced() {
      NeverEof(c, s, a.id);
    }
    InvStep(c, s, a);
    if a.Eof? {
      EofIdle(c, s, a.id);
    } else {
      LeftStep(c, s, a);
    }
  }

  /** A run has no more effective actions than it takes off what is left; in a balanced one all are effective. */
  lemma {:induction false} RunBound(c: Config, s: State, acts: seq<Action>)
    requires c.Sane() && Inv(c, s) && IsRun(c, s, acts)
    ensures Inv(c, After(c, s, acts)) && Effective(acts) <= Left(c, s) - Left(c, After(c, s, acts))
    ensures c.Balanced() ==> Effective(acts) == |acts|
    decreases |acts|
  {
    hide Inv, Enabled, Next, Left;
    if acts != [] {
      EffectiveStep(c, s, acts[0]);
      RunBound(c, Next(c, s, acts[0]), acts[1..]);
    }
  }

  lemma FinalStops(c: Config, a: Action)
    ensures !Enabled(c, Final(c), a)
  {
  }

  lemma StopsOnlyAtFinal(c: Config, s: State)
    requires c.Sane() && c.Balanced() && Inv(c, s) && s != Final(c)
    ensures exists a :: Enabled(c, s, a)
  {
    if s.main.Finished? {
      FinishedIsFinal(c, s);
      assert false;
    } else {
      var a := Progress(c, s);
    }
  }

  /**
   Every schedule of every configuration has a bounded number of actions other
   than reads that return 0, which change nothing; so a schedule goes on for ever
   only by such reads. In a balanced configuration there are none, and every
   schedule is finite.
   */
  lemma {:induction false} SchedulesEnd(c: Config, acts: seq<Action>)
    requires c.Sane() && IsRun(c, Initial(c), acts)
    ensures Effective(acts) <= Left(c, Initial(c))
    ensures c.Balanced() ==> |acts| <= Left(c, Initial(c))
  {
    hide Inv, Left;
    InitialInv(c);
    RunBound(c, Initial(c), acts);
    LeftNonNegative(c, After(c, Initial(c), acts));
  }

  /**
   A schedule that stops has stopped in one and the same state: everyone reaped,
   every quota met, every pipe empty. And that state does stop it.
   */
  lemma {:induction false} UniqueOutcome(c: Config, s: State)
    requires c.Sane() && c.Balanced() && Reachable(c, s)
    ensures (forall a :: !Enabled(c, s, a)) <==> s == Final(c)
  {
    ReachableInv(c, s);
    if s == Final(c) {
      forall a ensures !Enabled(c, s, a) {
        FinalStops(c, a);
      }
    } else {
      StopsOnlyAtFinal(c, s);
    }
  }

  /** From every reachable state a balanced run can be completed. */
  lemma {:induction false} Completion(c: Config, s: State) returns (acts: seq<Action>)
    requires c.Sane() && c.Balanced() && Inv(c, s)
    ensures IsRun(c, s, acts) && After(c, s, acts) == Final(c)
    decreases Left(c, s)
  {
    LeftNonNegative(c, s);
    if s.main.Finished? {
      FinishedIsFinal(c, s);
      acts := [];
    } else {
      var a := Progress(c, s);
      LeftStep(c, s, a);
      InvStep(c, s, a);
      LeftNonNegative(c, Next(c, s, a));
      var rest := Completion(c, Next(c, s, a));
      acts := [a] + rest;
      assert acts[1..] == rest;
    }
  }

  // ----- exactly which configurations can end well

  /** Main is done, every sender sent everything, nothing is left in a pipe. */
  ghost predicate EndsWell(c: Config, s: State) {
    && s.main.Finished?
    && (forall id :: id in s.workers && id.Send? ==> s.workers[id].i == c.loops)
    && (forall p :: p in s.pipes ==> s.pipes[p] == 0)
  }

  lemma DoneReceiver(c: Config, w: Worker)
    requires c.Sane() && RecvOk(c, w) && w.pc == Reaped
    ensures c.packets < WORD && Taken(c, w) == c.packets * c.size
  {
  }

  lemma ReapedAt(c: Config, s: State, id: Id)
    requires Inv(c, s) && s.main.Finished? && id in Ids(c)
    ensures s.workers[id].pc == Reaped
  {
    AllReaped(c, s);
    assert id in PcSet(s.workers, {Reaped});
  }

  lemma ReceiverPaid(c: Config, s: State, g: nat, j: nat)
    requires c.Sane() && Inv(c, s) && EndsWell(c, s) && g < c.groups && j < c.fds
    ensures c.packets < WORD && Sent(c, s.workers, g, j) == c.packets * c.size
  {
    hide Inv;
    OkWorker(c, s, Recv(g, j));
    ReapedAt(c, s, Recv(g, j));
    DoneReceiver(c, s.workers[Recv(g, j)]);
    OkPipe(c, s, g, j);
  }

  lemma PaidInFull(c: Config, s: State, g: nat, j: nat)
    requires c.Sane() && Inv(c, s) && EndsWell(c, s) && g < c.groups && j < c.fds
    ensures Sent(c, s.workers, g, j) == c.fds * (c.loops * c.size)
  {
    var f := SentFn(c, s.workers, g, j);
    forall i: nat | i < c.fds ensures f(i) == c.loops * c.size {
      assert WorkerOk(c, s.main, s.wake, Send(g, i), s.workers[Send(g, i)]);
      SentToBound(c, s.workers[Send(g, i)], j);
    }
    SumAtMost(f, c.fds, c.loops * c.size);
  }

  lemma SameBytes(c: Config)
    requires c.size >= 1 && c.fds * (c.loops * c.size) == c.packets * c.size
    ensures c.fds * c.loops == c.packets
  {
    var owed := c.fds * c.loops;
    assert c.fds * (c.loops * c.size) == owed * c.size;
    MulLess(owed, c.packets, c.size);
    MulLess(c.packets, owed, c.size);
  }

  lemma EndsWellOnlyBalanced(c: Config, s: State)
    requires c.Sane() && Inv(c, s) && EndsWell(c, s)
    ensures c.Balanced()
  {
    ReceiverPaid(c, s, 0, 0);
    PaidInFull(c, s, 0, 0);
    SameBytes(c);
  }

  lemma CanEndWellIff(c: Config)
    requires c.Sane()
    ensures (exists s :: Reachable(c, s) && EndsWell(c, s)) <==> c.Balanced()
  {
    if c.Balanced() {
      InitialInv(c);
      var acts := Completion(c, Initial(c));
      assert Reachable(c, Final(c)) && EndsWell(c, Final(c));
    } else {
      forall s | Reachable(c, s) ensures !EndsWell(c, s) {
        ReachableInv(c, s);
        if EndsWell(c, s) {
          EndsWellOnlyBalanced(c, s);
        }
      }
    }
  }

  lemma NotAllReaped(c: Config, s: State, id: Id)
    requires Inv(c, s) && id in Ids(c) && s.workers[id].pc != Reaped
    ensures !s.main.Finished?
  {
    if s.main.Finished? {
      AllReaped(c, s);
      assert false;
    }
  }

  /** A receiver whose quota does not fit its 32-bit counter never leaves its loop, so main never finishes. */
  lemma NeverFinishes(c: Config, s: State)
    requires c.Sane() && c.packets >= WORD && Reachable(c, s)
    ensures !s.main.Finished?
  {
    ReachableInv(c, s);
    var r := Recv(0, 0);
    assert WorkerOk(c, s.main, s.wake, r, s.workers[r]);
    NotAllReaped(c, s, r);
  }

  // ----- the theorems on reachable states

  /**
   Until main has finished, some process can take a step that cannot be made to
   wait; once GO is written and while any worker has not exited, a worker can.
   This needs no condition on the quotas.
   */
  lemma DeadlockFree(c: Config, s: State)
    requires c.Sane() && Reachable(c, s)
    ensures !s.main.Finished? ==> exists a :: Unblockable(c, s, a)
    ensures s.wake > 0 && (exists id :: id in s.workers && s.workers[id].pc !in {Exited, Reaped}) ==>
      exists a :: Unblockable(c, s, a) && OfWorker(a)
  {
    ReachableInv(c, s);
    hide Inv, Reachable;
    if !s.main.Finished? {
      var a := Progress(c, s);
    }
    if id :| s.wake > 0 && id in s.workers && s.workers[id].pc !in {Exited, Reaped} {
      var a := WorkerMoves(c, s, id);
    }
  }

  lemma CanPass(c: Config, s: State, id: Id)
    requires id in s.workers && WorkerOk(c, s.main, s.wake, id, s.workers[id]) && s.wake > 0
    ensures s.workers[id].pc == Await ==> Enabled(c, s, PassPoll(id))
  {
  }

  lemma CanRead(c: Config, s: State, r: Id)
    requires c.Sane() && r.Recv? && r in s.workers && WorkerOk(c, s.main, s.wake, r, s.workers[r])
    requires (r.g, r.i) in s.pipes && Counter(s.workers[r]) < c.packets
    ensures s.workers[r].pc == Work && s.pipes[(r.g, r.i)] > 0 ==> Enabled(c, s, Read(r, 1))
  {
  }

  /** A sender that finds bytes in its pipe, full or not, has a receiver that will read them or can do so now. */
  lemma BlockedSenderHasReader(c: Config, s: State, id: Id)
    requires c.Sane() && !c.Short() && Reachable(c, s) && Sending(c, s, id)
    ensures var r := Recv(id.g, s.workers[id].j);
      && r in s.workers && (c.packets >= c.fds * c.loops ==> s.workers[r].i < c.packets)
      && (s.workers[r].pc == Await ==> Enabled(c, s, PassPoll(r)))
      && (s.workers[r].pc != Await ==>
            s.workers[r].pc == Work && (s.pipes[(r.g, r.i)] > 0 ==> Enabled(c, s, Read(r, 1))))
  {
    ReachableInv(c, s);
    hide Inv, Reachable;
    ReaderLeft(c, s, id);
    AtWork(c, s, id);
    OkWorker(c, s, id);
    OkPipe(c, s, id.g, s.workers[id].j);
    var r := Recv(id.g, s.workers[id].j);
    hide Sending;
    OkWorker(c, s, r);
    CanPass(c, s, r);
    CanRead(c, s, r);
  }

  lemma WokenUp(c: Config, s: State)
    requires Inv(c, s) && (s.main.Reap? || s.main.Finished?)
    ensures s.wake > 0
  {
  }

  lemma BarrierMoves(c: Config, s: State) returns (a: Action)
    requires c.Sane() && Inv(c, s) && !s.main.Reap? && !s.main.Finished?
    ensures Unblockable(c, s, a) && !a.Write? && !a.Broken? && !a.Eof?
  {
    hide Inv;
    if SettingUp(s.main) {
      a := Setup;
    } else if s.main.Wake? {
      a := Go;
    } else {
      a := ProgressCollect(c, s);
    }
  }

  /**
   The start cannot get stuck, whatever the capacity of the ready pipe and even
   when the quotas do not balance: until GO some process can move, and from then
   on everyone has reported, and whoever still polls can go on, before and after
   any other step.
   */
  lemma BarrierProgress(c: Config, s: State)
    requires c.Sane() && Reachable(c, s)
    ensures !s.main.Reap? && !s.main.Finished? ==>
      exists a :: Unblockable(c, s, a) && !a.Write? && !a.Broken? && !a.Eof?
    ensures s.main.Reap? || s.main.Finished? ==> forall id :: id in Ids(c) ==>
      id in s.workers && s.workers[id].pc in Announced() && (s.workers[id].pc == Await ==> Enabled(c, s, PassPoll(id)))
    ensures forall a :: Enabled(c, s, a) ==> Next(c, s, a).wake >= s.wake
  {
    ReachableInv(c, s);
    hide Inv, Reachable, WorkerOk, Unblockable;
    if s.main.Reap? || s.main.Finished? {
      WokenUp(c, s);
      forall id | id in Ids(c)
        ensures id in s.workers && s.workers[id].pc in Announced()
        ensures s.workers[id].pc == Await ==> Enabled(c, s, PassPoll(id))
      {
        OkWorker(c, s, id);
        Awake(c, s, id);
        CanPass(c, s, id);
      }
    } else {
      var a := BarrierMoves(c, s);
    }
  }

  /**
   With quotas that match, or are too long, no write is ever fatal; and with
   quotas that also fit the counter no read ever returns 0.
   */
  lemma NoBrokenPipeNoEof(c: Config, s: State, id: Id)
    requires c.Sane() && Reachable(c, s)
    ensures !c.Short() ==> !Enabled(c, s, Broken(id))
    ensures c.Balanced() ==> !Enabled(c, s, Eof(id))
  {
    ReachableInv(c, s);
    hide Inv, Reachable, Enabled;
    if !c.Short() {
      NeverBroken(c, s, id);
    }
    if c.Balanced() {
      NeverEof(c, s, id);
    }
  }

  /** Bytes written to a pipe are bytes read from it plus bytes in it, in every configuration. */
  lemma Conservation(c: Config, s: State, g: nat, j: nat)
    requires c.Sane() && Reachable(c, s) && g < c.groups && j < c.fds
    ensures (g, j) in s.pipes && Recv(g, j) in s.workers
    ensures Sent(c, s.workers, g, j) == Taken(c, s.workers[Recv(g, j)]) + s.pipes[(g, j)]
    ensures s.pipes[(g, j)] <= c.room(g, j)
  {
    ReachableInv(c, s);
    assert PipeOk(c, s, g, j);
  }

  /**
   Who holds which end of a group's data pipes: the read end of pipe j only
   receiver j; the write end of pipe j every sender and the receivers forked
   after receiver j (and receiver j itself until its first call); no worker of
   another group, ever; and main none once it has set the group up.
   */
  lemma Ownership(c: Config, s: State, g: nat, j: nat, id: Id)
    requires c.Sane() && Reachable(c, s) && g < c.groups && j < c.fds && id in s.workers
    ensures (SettingUp(s.main) ==> g < s.main.g) ==> Rd(g, j) !in s.mainEnds && Wr(g, j) !in s.mainEnds
    ensures Rd(g, j) in s.workers[id].ends <==> Alive(s.workers[id]) && id == Recv(g, j)
    ensures Wr(g, j) in s.workers[id].ends <==>
      Alive(s.workers[id]) && id.g == g && (id.Send? || j < id.i || (j == id.i && s.workers[id].pc == Entry))
  {
    ReachableInv(c, s);
    assert WorkerOk(c, s.main, s.wake, id, s.workers[id]);
    HeldByWorker(c, g, j, id, s.workers[id].pc);
    if SettingUp(s.main) ==> g < s.main.g {
      HeldByMain(c, s.main, g, j);
    }
  }

  // ----- the barrier, as a property of histories

  lemma {:induction false} KeysGrow(c: Config, s: State, acts: seq<Action>, id: Id)
    requires IsRun(c, s, acts) && id in s.workers
    ensures id in After(c, s, acts).workers
    decreases |acts|
  {
    if acts != [] {
      KeysGrow(c, Next(c, s, acts[0]), acts[1..], id);
    }
  }

  lemma {:induction false} AnnouncedSaid(c: Config, s: State, acts: seq<Action>, id: Id)
    requires IsRun(c, s, acts) && id in s.workers && s.workers[id].pc !in Announced()
    ensures var t := After(c, s, acts); id in t.workers && (t.workers[id].pc in Announced() ==> SayReady(id) in acts)
    decreases |acts|
  {
    if acts != [] {
      var t := Next(c, s, acts[0]);
      if acts[0] != SayReady(id) {
        AnnouncedSaid(c, t, acts[1..], id);
      } else {
        KeysGrow(c, t, acts[1..], id);
      }
    }
  }

  lemma {:induction false} StampedBefore(c: Config, s: State, acts: seq<Action>)
    requires IsRun(c, s, acts) && !s.stamped
    ensures After(c, s, acts).stamped ==> Stamp in acts
    decreases |acts|
  {
    if acts != [] && acts[0] != Stamp {
      StampedBefore(c, Next(c, s, acts[0]), acts[1..]);
    }
  }

  /** A state in which some sender can write. */
  lemma WritersAreLate(c: Config, s: State, a: Action)
    requires Inv(c, s) && Enabled(c, s, a) && a.Write?
    ensures s.stamped
    ensures PcSet(s.workers, Announced()) == Ids(c)
  {
    assert WorkerOk(c, s.main, s.wake, a.id, s.workers[a.id]);
    AllAnnounced(c, s);
  }

  /** In every run, no data byte is written before every worker has reported and main has read the clock. */
  lemma BarrierSafety(c: Config, acts: seq<Action>, k: nat)
    requires c.Sane() && IsRun(c, Initial(c), acts) && k < |acts| && acts[k].Write?
    ensures Stamp in acts[..k]
    ensures forall id :: id in Ids(c) ==> SayReady(id) in acts[..k]
  {
    RunSplit(c, Initial(c), acts, k);
    var s := After(c, Initial(c), acts[..k]);
    InitialInv(c);
    RunKeeps(c, Initial(c), acts[..k]);
    WritersAreLate(c, s, acts[k]);
    StampedBefore(c, Initial(c), acts[..k]);
    forall id | id in Ids(c) ensures SayReady(id) in acts[..k] {
      AnnouncedSaid(c, Initial(c), acts[..k], id);
      assert id in PcSet(s.workers, Announced());
    }
  }
}
