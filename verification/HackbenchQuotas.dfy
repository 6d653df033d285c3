/**
 What the receivers' quota decides: when a write can be fatal, when a read can
 return 0, when a schedule can go on for ever, and where it is then.
 */
module HackbenchQuotas {
  import opened Sums
  import opened Hackbench
  import opened HackbenchInvariant
  import opened HackbenchProgress
  import opened HackbenchRuns

  // ----- putting runs together

  lemma {:induction false} RunJoin(c: Config, s: State, acts: seq<Action>, more: seq<Action>)
    requires IsRun(c, s, acts) && IsRun(c, After(c, s, acts), more)
    ensures IsRun(c, s, acts + more) && After(c, s, acts + more) == After(c, After(c, s, acts), more)
    decreases |acts|
  {
    hide Enabled, Next;
    if acts == [] {
      assert acts + more == more;
    } else {
      RunJoin(c, Next(c, s, acts[0]), acts[1..], more);
      assert (acts + more)[1..] == acts[1..] + more;
    }
  }

  lemma RunFirst(c: Config, s: State, a: Action, more: seq<Action>)
    requires Enabled(c, s, a) && IsRun(c, Next(c, s, a), more)
    ensures IsRun(c, s, [a] + more) && After(c, s, [a] + more) == After(c, Next(c, s, a), more)
  {
    hide Enabled, Next;
    assert ([a] + more)[1..] == more;
  }

  // ----- quotas that are short: a run to a broken pipe

  /** No pipe has been sent more than its receiver will read. */
  ghost predicate Lean(c: Config, s: State) {
    forall g: nat, j: nat :: g < c.groups && j < c.fds ==> Sent(c, s.workers, g, j) <= c.packets * c.size
  }

  /** Every sender that has left has sent all it owes. */
  ghost predicate Honest(c: Config, s: State) {
    forall id :: id in s.workers && id.Send? && s.workers[id].pc in {Exited, Reaped} ==> s.workers[id].i == c.loops
  }

  lemma InitialLean(c: Config)
    requires c.Sane()
    ensures Lean(c, Initial(c)) && Honest(c, Initial(c))
  {
    forall g: nat, j: nat | g < c.groups && j < c.fds ensures Sent(c, Initial(c).workers, g, j) <= c.packets * c.size {
      InitialFlow(c, g, j);
    }
  }

  /** With short quotas that leaves some sender of every group alive and in debt. */
  lemma LeanDebtor(c: Config, s: State, g: nat, j: nat) returns (i: nat)
    requires c.Sane() && c.Short() && Inv(c, s) && Lean(c, s) && Honest(c, s) && g < c.groups && j < c.fds
    ensures i < c.fds && Send(g, i) in s.workers && s.workers[Send(g, i)].pc !in {Exited, Reaped}
  {
    hide Inv, Sent, Debt;
    DebtIs(c);
    i := Debtor(c, s, g, j);
  }

  lemma LeanNotFinished(c: Config, s: State)
    requires c.Sane() && c.Short() && Inv(c, s) && Lean(c, s) && Honest(c, s)
    ensures !s.main.Finished?
  {
    hide Inv, Lean, Honest;
    if s.main.Finished? {
      var i := LeanDebtor(c, s, 0, 0);
      OkWorker(c, s, Send(0, i));
      ReapedAt(c, s, Send(0, i));
      assert false;
    }
  }

  lemma LeanNoEof(c: Config, s: State, id: Id)
    requires c.Sane() && c.Short() && Inv(c, s) && Lean(c, s) && Honest(c, s)
    ensures !Enabled(c, s, Eof(id))
  {
    hide Inv, Lean, Honest;
    if Receiving(c, s, id) {
      OkWorker(c, s, id);
      AtWork(c, s, id);
      var i := LeanDebtor(c, s, id.g, id.i);
      OkWorker(c, s, Send(id.g, i));
      AwakeMoves(c, s, Send(id.g, i));
      HeldByWorker(c, id.g, id.i, Send(id.g, i), s.workers[Send(id.g, i)].pc);
      assert SomeoneHolds(s, Wr(id.g, id.i));
    }
  }

  lemma HonestMover(c: Config, s: State, a: Action)
    requires Enabled(c, s, a) && !MainAction(a) && !a.Broken? && a.id.Send?
    requires WorkerOk(c, s.main, s.wake, a.id, s.workers[a.id])
    requires s.workers[a.id].pc in {Exited, Reaped} ==> s.workers[a.id].i == c.loops
    ensures var w := Moved(c, s.workers[a.id], a); w.pc in {Exited, Reaped} ==> w.i == c.loops
  {
  }

  lemma HonestStep(c: Config, s: State, a: Action)
    requires c.Sane() && Inv(c, s) && Honest(c, s) && Enabled(c, s, a) && !a.Broken?
    ensures Honest(c, Next(c, s, a))
  {
    hide Inv;
    if MainAction(a) {
      hide WorkerOk;
    } else {
      OkWorker(c, s, a.id);
      if a.id.Send? {
        HonestMover(c, s, a);
      }
      hide WorkerOk, Moved, Enabled;
    }
  }

  lemma LeanElse(c: Config, s: State, a: Action)
    requires c.Sane() && Inv(c, s) && Lean(c, s) && Enabled(c, s, a) && !a.Write?
    ensures Lean(c, Next(c, s, a))
  {
    hide Sent, Enabled, Next, Shape, Workers, Barrier, Flow;
    forall g: nat, j: nat | g < c.groups && j < c.fds
      ensures Sent(c, Next(c, s, a).workers, g, j) <= c.packets * c.size
    {
      SentElse(c, s, a, g, j);
    }
  }

  /** The pipe a sender is at is empty, and its receiver has not met its quota. */
  ghost predicate AsksForMore(c: Config, s: State, id: Id)
    requires id in s.workers && id.Send?
  {
    var r := Recv(id.g, s.workers[id].j);
    && r in s.workers && Counter(s.workers[r]) < c.packets
    && (r.g, r.i) in s.pipes && s.pipes[(r.g, r.i)] == 0
  }

  lemma LeanRoom(c: Config, s: State, id: Id)
    requires c.Sane() && c.Short() && Inv(c, s) && id in s.workers && id.Send? && AsksForMore(c, s, id)
    ensures var p := PipeOf(id, s.workers[id]); Sent(c, s.workers, p.0, p.1) < c.packets * c.size
  {
    hide Inv, Sent;
    var r := Recv(id.g, s.workers[id].j);
    OkWorker(c, s, id);
    OkWorker(c, s, r);
    OkPipe(c, s, r.g, r.i);
    BehindOwes(c, s.workers[r]);
  }

  lemma LeanAt(c: Config, s: State, g: nat, j: nat)
    requires Lean(c, s) && g < c.groups && j < c.fds
    ensures Sent(c, s.workers, g, j) <= c.packets * c.size
  {
  }

  lemma LeanWriteAt(c: Config, s: State, id: Id, g: nat, j: nat)
    requires c.Sane() && c.Short() && Inv(c, s) && Lean(c, s) && Enabled(c, s, Write(id, 1)) && AsksForMore(c, s, id)
    requires g < c.groups && j < c.fds
    ensures Sent(c, Next(c, s, Write(id, 1)).workers, g, j) <= c.packets * c.size
  {
    hide Shape, Workers, Barrier, Flow, Sent, Lean, AsksForMore;
    LeanRoom(c, s, id);
    hide Enabled, Next;
    SentWrite(c, s, Write(id, 1), g, j);
    LeanAt(c, s, g, j);
  }

  /** One byte into an empty pipe whose receiver has not met its quota keeps it lean. */
  lemma LeanWrite(c: Config, s: State, id: Id)
    requires c.Sane() && c.Short() && Inv(c, s) && Lean(c, s) && Enabled(c, s, Write(id, 1)) && AsksForMore(c, s, id)
    ensures Lean(c, Next(c, s, Write(id, 1)))
  {
    hide Inv, Sent, Enabled, Next, AsksForMore;
    forall g: nat, j: nat | g < c.groups && j < c.fds
      ensures Sent(c, Next(c, s, Write(id, 1)).workers, g, j) <= c.packets * c.size
    {
      hide Lean;
      LeanWriteAt(c, s, id, g, j);
    }
  }

  /** Instead of a write into an empty pipe: its receiver passes the poll or leaves; else a single byte. */
  lemma BeforeWrite(c: Config, s: State, w: Action) returns (a: Action)
    requires c.Sane() && Inv(c, s) && w.Write? && Unblockable(c, s, w)
    ensures Enabled(c, s, a) && (a.PassPoll? || a.Exit? || a.Write?)
    ensures a.Write? ==> a.n == 1 && AsksForMore(c, s, a.id)
  {
    hide Inv;
    var r := Recv(w.id.g, s.workers[w.id].j);
    OkWorker(c, s, w.id);
    AtWork(c, s, w.id);
    ReaderHeld(c, s, r.g, r.i);
    AwakeMoves(c, s, r);
    a := if s.workers[r].pc == Await then PassPoll(r)
         else if Counter(s.workers[r]) >= c.packets then Exit(r)
         else Write(w.id, 1);
  }

  /** A step towards a broken pipe: let receivers that have met their quota leave before anything is written. */
  lemma LeanMove(c: Config, s: State) returns (a: Action)
    requires c.Sane() && c.Short() && Inv(c, s) && Lean(c, s) && Honest(c, s)
    ensures Enabled(c, s, a) && !a.Eof?
    ensures a.Broken? || (Lean(c, Next(c, s, a)) && Honest(c, Next(c, s, a)))
  {
    hide Inv, Lean, Honest, Next;
    LeanNotFinished(c, s);
    a := Progress(c, s);
    if a.Eof? {
      LeanNoEof(c, s, a.id);
      assert false;
    } else if a.Write? {
      a := BeforeWrite(c, s, a);
    }
    if !a.Broken? {
      HonestStep(c, s, a);
      if a.Write? {
        LeanWrite(c, s, a.id);
      } else {
        LeanElse(c, s, a);
      }
    }
  }

  lemma {:induction false} RunToBroken(c: Config, s: State) returns (acts: seq<Action>, id: Id)
    requires c.Sane() && c.Short() && Inv(c, s) && Lean(c, s) && Honest(c, s)
    ensures IsRun(c, s, acts) && Enabled(c, After(c, s, acts), Broken(id))
    decreases Left(c, s)
  {
    hide Inv, Lean, Honest, Enabled, Next, Left;
    LeftNonNegative(c, s);
    var a := LeanMove(c, s);
    if a.Broken? {
      acts, id := [], a.id;
    } else {
      EffectiveStep(c, s, a);
      LeftNonNegative(c, Next(c, s, a));
      var more;
      more, id := RunToBroken(c, Next(c, s, a));
      acts := [a] + more;
      RunFirst(c, s, a, more);
    }
  }

  /** A write can be fatal exactly when a receiver can meet its quota before the senders are done. */
  lemma {:induction false} BrokenReachableIff(c: Config)
    requires c.Sane()
    ensures (exists s, id :: Reachable(c, s) && Enabled(c, s, Broken(id))) <==> c.Short()
  {
    if c.Short() {
      InitialInv(c);
      InitialLean(c);
      hide Inv, Lean, Honest, Enabled, Initial;
      var acts, id := RunToBroken(c, Initial(c));
      assert Reachable(c, After(c, Initial(c), acts));
    } else {
      forall s, id | Reachable(c, s) ensures !Enabled(c, s, Broken(id)) {
        NoBrokenPipeNoEof(c, s, id);
      }
    }
  }

  // ----- quotas no receiver can meet: where every run ends up

  function SendIds(c: Config): set<Id> {
    set g, i | 0 <= g < c.groups && 0 <= i < c.fds :: Send(g, i)
  }

  /** Senders done and reaped; receivers with every message there is, in their loops for ever. */
  function SpinningWorker(c: Config, id: Id): Worker {
    if id.Send? then FinalWorker(c, id) else Worker(Work, Holds(c, id, Work), c.fds * c.loops, 0, 0)
  }

  function Spinning(c: Config): State {
    State(Reap(|SendIds(c)|), Common(), 2 * c.fds * c.groups, true,
          map id | id in Ids(c) :: SpinningWorker(c, id),
          map p | p in PipeIds(c) :: 0,
          0, 1)
  }

  /** Nothing can happen but reads that return 0. */
  ghost predicate OnlyEof(c: Config, s: State) {
    forall a :: Enabled(c, s, a) ==> a.Eof?
  }

  lemma OnlyEofNot(c: Config, s: State, a: Action)
    requires OnlyEof(c, s) && !a.Eof?
    ensures !Enabled(c, s, a)
  {
  }

  lemma MainStays(c: Config, s: State)
    requires Inv(c, s) && OnlyEof(c, s) && s.main.Reap?
    ensures s.main.n < s.total
  {
    OnlyEofNot(c, s, Finish);
    hide Workers, Flow, PcSet, Shape, OnlyEof;
  }

  lemma DebtProduct(c: Config)
    ensures Debt(c) == c.fds * c.loops * c.size
  {
    assert c.fds * (c.loops * c.size) == (c.fds * c.loops) * c.size;
  }

  lemma CannotMeet(c: Config, w: Worker)
    requires c.Sane() && c.Starving() && Taken(c, w) <= Debt(c)
    ensures Counter(w) < c.packets
  {
    if c.packets < WORD {
      DebtProduct(c);
      MulLess(c.fds * c.loops, w.i, c.size);
    }
  }

  /** A receiver that cannot meet its quota does not leave. */
  lemma NeverMet(c: Config, s: State, g: nat, j: nat)
    requires c.Sane() && c.Starving() && Inv(c, s) && g < c.groups && j < c.fds
    ensures Recv(g, j) in s.workers && Counter(s.workers[Recv(g, j)]) < c.packets
    ensures s.workers[Recv(g, j)].pc !in {Exited, Reaped}
  {
    hide Inv, Sent, Taken, Debt, Counter, Holds, Born;
    OkPipe(c, s, g, j);
    OkWorker(c, s, Recv(g, j));
    SentBound(c, s, g, j);
    CannotMeet(c, s.workers[Recv(g, j)]);
  }

  lemma SpinningMain(c: Config, s: State)
    requires c.Sane() && c.Starving() && Inv(c, s) && OnlyEof(c, s)
    ensures s.main.Reap? && s.main.n < s.total && s.wake > 0 && Recv(0, 0) in s.workers
  {
    hide Inv, Enabled, OnlyEof;
    NeverMet(c, s, 0, 0);
    OkWorker(c, s, Recv(0, 0));
    NotAllReaped(c, s, Recv(0, 0));
    if !s.main.Reap? {
      var a := BarrierMoves(c, s);
      OnlyEofNot(c, s, a);
      assert false;
    }
    WokenUp(c, s);
    MainStays(c, s);
  }

  lemma SpinningSender(c: Config, s: State, id: Id)
    requires c.Sane() && c.Starving() && Inv(c, s) && OnlyEof(c, s) && id in Ids(c) && id.Send?
    ensures id in s.workers && s.workers[id] == SpinningWorker(c, id)
  {
    hide Inv, OnlyEof;
    SpinningMain(c, s);
    OkWorker(c, s, id);
    Awake(c, s, id);
    OnlyEofNot(c, s, PassPoll(id));
    OnlyEofNot(c, s, WaitFor(id));
    if s.workers[id].pc == Work {
      var a := SenderMoves(c, s, id);
      OnlyEofNot(c, s, a);
      assert false;
    }
  }

  lemma SpinningReceiverReads(c: Config, s: State, r: Id)
    requires c.Sane() && c.Starving() && Inv(c, s) && OnlyEof(c, s) && r in Ids(c) && r.Recv?
    requires (r.g, r.i) in s.pipes
    ensures r in s.workers && s.workers[r].pc == Work && s.pipes[(r.g, r.i)] == 0
  {
    hide Inv, OnlyEof;
    SpinningMain(c, s);
    OkWorker(c, s, r);
    NeverMet(c, s, r.g, r.i);
    Awake(c, s, r);
    OnlyEofNot(c, s, PassPoll(r));
    if s.pipes[(r.g, r.i)] > 0 {
      var a := ReaderMoves(c, s, r);
      OnlyEofNot(c, s, a);
      assert false;
    }
  }

  lemma SpinningDone(c: Config, id: Id)
    requires id.Send?
    ensures SpinningWorker(c, id).i == c.loops
  {
  }

  /** All senders have paid, and the receivers have read it all. */
  lemma SpinningPipe(c: Config, s: State, g: nat, j: nat)
    requires c.Sane() && c.Starving() && Inv(c, s) && OnlyEof(c, s) && g < c.groups && j < c.fds
    ensures (g, j) in s.pipes && s.pipes[(g, j)] == 0
    ensures Recv(g, j) in s.workers && Taken(c, s.workers[Recv(g, j)]) == Debt(c)
  {
    hide Inv, OnlyEof, SpinningWorker, Debt, Sent;
    OkPipe(c, s, g, j);
    SpinningReceiverReads(c, s, Recv(g, j));
    if Sent(c, s.workers, g, j) != Debt(c) {
      SentBound(c, s, g, j);
      var i := Debtor(c, s, g, j);
      SpinningSender(c, s, Send(g, i));
      SpinningDone(c, Send(g, i));
      assert false;
    }
  }

  lemma WholeMessages(c: Config, w: Worker)
    requires c.Sane() && Taken(c, w) == Debt(c) && w.done < c.size
    ensures w.i == c.fds * c.loops && w.done == 0
  {
    DebtProduct(c);
    MulLess(w.i, c.fds * c.loops, c.size);
    MulLess(c.fds * c.loops, w.i, c.size);
  }

  lemma SpinningReceiver(c: Config, s: State, id: Id)
    requires c.Sane() && c.Starving() && Inv(c, s) && OnlyEof(c, s) && id in Ids(c) && id.Recv?
    ensures id in s.workers && s.workers[id] == SpinningWorker(c, id)
  {
    hide Inv, OnlyEof;
    SpinningPipe(c, s, id.g, id.i);
    SpinningReceiverReads(c, s, id);
    OkWorker(c, s, id);
    WholeMessages(c, s.workers[id]);
  }

  lemma SpinningWorkers(c: Config, s: State)
    requires c.Sane() && c.Starving() && Inv(c, s) && OnlyEof(c, s)
    ensures s.workers == Spinning(c).workers
  {
    hide OnlyEof, SpinningWorker, Workers, Barrier, Flow;
    forall id | id in Ids(c) ensures s.workers[id] == SpinningWorker(c, id) {
      if id.Send? {
        SpinningSender(c, s, id);
      } else {
        SpinningReceiver(c, s, id);
      }
    }
  }

  lemma SpinningPipes(c: Config, s: State)
    requires c.Sane() && c.Starving() && Inv(c, s) && OnlyEof(c, s)
    ensures s.pipes == Spinning(c).pipes
  {
    hide OnlyEof, Workers, Barrier, Flow;
    forall p: (nat, nat) | p in PipeIds(c) ensures s.pipes[p] == 0 {
      SpinningPipe(c, s, p.0, p.1);
    }
  }

  lemma ReapedSenders(c: Config)
    ensures PcSet(Spinning(c).workers, {Reaped}) == SendIds(c)
  {
  }

  /** If nothing can happen but reads that return 0, everything else has happened. */
  lemma OnlyEofIsSpinning(c: Config, s: State)
    requires c.Sane() && c.Starving() && Inv(c, s) && OnlyEof(c, s)
    ensures s == Spinning(c)
  {
    hide OnlyEof, Workers, Flow;
    SpinningMain(c, s);
    SpinningWorkers(c, s);
    SpinningPipes(c, s);
    ReapedSenders(c);
    AllAnnounced(c, s);
    OffsetIs(c.fds, c.groups);
  }

  lemma {:induction false} RunToSpinning(c: Config, s: State) returns (acts: seq<Action>)
    requires c.Sane() && c.Starving() && Inv(c, s)
    ensures IsRun(c, s, acts) && After(c, s, acts) == Spinning(c)
    decreases Left(c, s)
  {
    hide Inv, Enabled, Next, Left, Spinning;
    LeftNonNegative(c, s);
    if a :| Enabled(c, s, a) && !a.Eof? {
      EffectiveStep(c, s, a);
      LeftNonNegative(c, Next(c, s, a));
      var more := RunToSpinning(c, Next(c, s, a));
      acts := [a] + more;
      RunFirst(c, s, a, more);
    } else {
      OnlyEofIsSpinning(c, s);
      acts := [];
    }
  }

  lemma SpinningReachable(c: Config)
    requires c.Sane() && c.Starving()
    ensures Reachable(c, Spinning(c)) && Inv(c, Spinning(c))
  {
    InitialInv(c);
    hide Inv, Enabled, Initial, Spinning;
    var acts := RunToSpinning(c, Initial(c));
    ReachableInv(c, Spinning(c));
  }

  lemma SpinningHolds(c: Config, g: nat, j: nat)
    requires c.Sane() && g < c.groups && j < c.fds
    ensures SomeoneHolds(Spinning(c), Wr(g, j)) <==> j + 1 < c.fds
  {
    var s := Spinning(c);
    if j + 1 < c.fds {
      var h := Recv(g, j + 1);
      assert h in s.workers && Wr(g, j) in s.workers[h].ends;
    } else {
      forall id | id in s.workers ensures Wr(g, j) !in s.workers[id].ends {
        HeldByWorker(c, g, j, id, s.workers[id].pc);
      }
    }
  }

  lemma ReapIncomplete(c: Config, s: State, id: Id)
    requires Inv(c, s) && s.main.Reap? && id in s.workers && s.workers[id].pc != Reaped
    ensures s.main.n < s.total
  {
    AllForked(c, s);
    hide Workers, Flow;
    var reaped := PcSet(s.workers, {Reaped});
    assert id !in reaped;
    FullSubset(reaped, Ids(c));
  }

  lemma SpinningMainRests(c: Config)
    requires c.Sane() && Inv(c, Spinning(c))
    ensures Spinning(c).main.n < Spinning(c).total
  {
    hide Inv;
    ReapIncomplete(c, Spinning(c), Recv(0, 0));
  }

  lemma SpinningEof(c: Config, id: Id)
    requires c.Sane() && c.Starving()
    ensures Enabled(c, Spinning(c), Eof(id)) <==> id.Recv? && id.g < c.groups && id.i == c.fds - 1
  {
    hide SomeoneHolds, SendIds, Common, WriteEnds;
    if id.Recv? && id.g < c.groups && id.i < c.fds {
      SpinningHolds(c, id.g, id.i);
    }
  }

  lemma SpinningElse(c: Config, a: Action)
    requires c.Sane() && c.Starving() && Spinning(c).main.n < Spinning(c).total && !a.Eof?
    ensures !Enabled(c, Spinning(c), a)
  {
    hide SomeoneHolds, SendIds;
  }

  /**
   In that state only the last receiver of each group can do anything, namely
   read nothing; the others wait for ever, their pipes held open by the later
   receivers of their group.
   */
  lemma {:induction false} SpinningActions(c: Config, a: Action)
    requires c.Sane() && c.Starving()
    ensures Enabled(c, Spinning(c), a) <==> a.Eof? && a.id.Recv? && a.id.g < c.groups && a.id.i == c.fds - 1
  {
    hide Inv, Reachable, Enabled, Spinning;
    SpinningReachable(c);
    SpinningMainRests(c);
    if a.Eof? {
      SpinningEof(c, a.id);
    } else {
      SpinningElse(c, a);
    }
  }

  /**
   With quotas no receiver can meet, every schedule can be brought to, and rests
   nowhere but in, one state: all messages have been delivered, all senders are
   gone, and nothing is left but reads that return 0.
   */
  lemma {:induction false} SpinningOutcome(c: Config, s: State)
    requires c.Sane() && c.Starving() && Reachable(c, s)
    ensures OnlyEof(c, s) <==> s == Spinning(c)
    ensures exists acts :: IsRun(c, s, acts) && After(c, s, acts) == Spinning(c)
  {
    ReachableInv(c, s);
    hide Inv, Reachable, Enabled, Spinning;
    if s == Spinning(c) {
      forall a | Enabled(c, s, a) ensures a.Eof? {
        SpinningActions(c, a);
      }
    } else if OnlyEof(c, s) {
      OnlyEofIsSpinning(c, s);
    }
    var acts := RunToSpinning(c, s);
  }
}
