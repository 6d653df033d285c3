/** Deadlock freedom, no broken pipe, no end of file, and the unique final state. */
module HackbenchProgress {
  import opened Sums
  import opened Hackbench
  import opened HackbenchInvariant

  // ----- byte quotas

  /**
   A sender owes every pipe loops * size bytes, and has paid in full only when it
   is past that pipe in its last round.
   */
  lemma SentToBound(c: Config, w: Worker, j: nat)
    requires c.Sane() && SendOk(c, w) && w.done < c.size && j < c.fds
    ensures SentTo(c, w, j) <= c.loops * c.size
    ensures w.i < c.loops && j == w.j ==> SentTo(c, w, j) < c.loops * c.size
    ensures w.i == c.loops ==> SentTo(c, w, j) == c.loops * c.size
  {
    MulLess(w.i, c.loops, c.size);
  }

  /** What the senders of a group together owe one pipe. */
  function Debt(c: Config): nat {
    c.fds * (c.loops * c.size)
  }

  lemma Associates(a: nat, b: nat, k: nat)
    ensures a * (b * k) == (a * b) * k
  {
  }

  lemma DebtIs(c: Config)
    requires c.Sane()
    ensures c.Exact() ==> Debt(c) == c.packets * c.size
    ensures c.packets >= c.fds * c.loops ==> Debt(c) <= c.packets * c.size
    ensures c.packets < c.fds * c.loops ==> c.packets * c.size < Debt(c)
  {
    Associates(c.fds, c.loops, c.size);
    var owed := c.fds * c.loops;
    MulLess(owed, c.packets, c.size);
    MulLess(c.packets, owed, c.size);
  }

  /**
   Each pipe is sent no more than the senders of its group owe it, and the debt
   is paid only when no sender owes any. It is the receiver's quota in bytes when
   the quotas match.
   */
  lemma {:induction false} SentBound(c: Config, s: State, g: nat, j: nat)
    requires c.Sane() && Inv(c, s) && g < c.groups && j < c.fds
    ensures Sent(c, s.workers, g, j) <= Debt(c)
    ensures Sent(c, s.workers, g, j) == Debt(c) <==>
      forall i: nat | i < c.fds :: SentTo(c, s.workers[Send(g, i)], j) == c.loops * c.size
    ensures c.Exact() ==> Debt(c) == c.packets * c.size
  {
    var f := SentFn(c, s.workers, g, j);
    forall i: nat | i < c.fds ensures f(i) == SentTo(c, s.workers[Send(g, i)], j) <= c.loops * c.size {
      assert WorkerOk(c, s.main, s.wake, Send(g, i), s.workers[Send(g, i)]);
      SentToBound(c, s.workers[Send(g, i)], j);
    }
    SumAtMost(f, c.fds, c.loops * c.size);
    DebtIs(c);
  }

  // ----- after GO, everyone has been forked and has reported

  lemma AllForked(c: Config, s: State)
    requires Inv(c, s) && !SettingUp(s.main)
    ensures PcSet(s.workers, Forked()) == Ids(c)
    ensures |Ids(c)| == s.total
  {
    forall id | id in Ids(c) ensures id in PcSet(s.workers, Forked()) {
      assert WorkerOk(c, s.main, s.wake, id, s.workers[id]);
    }
    assert PcSet(s.workers, Forked()) == Ids(c);
  }

  lemma AllAnnounced(c: Config, s: State)
    requires Inv(c, s) && (s.main.Wake? || s.main.Reap? || s.main.Finished?)
    ensures s.ready == 0
    ensures PcSet(s.workers, Announced()) == Ids(c)
  {
    AllForked(c, s);
    FullSubset(PcSet(s.workers, Announced()), Ids(c));
  }

  lemma Awake(c: Config, s: State, id: Id)
    requires Inv(c, s) && s.wake > 0 && id in Ids(c)
    ensures s.workers[id].pc in Announced()
  {
    AllAnnounced(c, s);
    assert id in PcSet(s.workers, Announced());
  }

  /** A worker at work has seen GO, and main has forked everyone. */
  lemma AtWork(c: Config, s: State, id: Id)
    requires Inv(c, s) && id in s.workers && s.workers[id].pc == Work
    ensures s.wake > 0 && !SettingUp(s.main)
  {
    hide Workers, Flow;
    OkWorker(c, s, id);
  }

  // ----- no broken pipe, no end of file

  /**
   A receiver whose senders still owe it bytes has messages to come, unless its
   quota is short of theirs.
   */
  lemma ReceiverBehind(c: Config, s: State, g: nat, j: nat)
    requires c.Sane() && !c.Short() && Inv(c, s) && g < c.groups && j < c.fds
    requires Sent(c, s.workers, g, j) < Debt(c)
    ensures Counter(s.workers[Recv(g, j)]) < c.packets
    ensures c.packets >= c.fds * c.loops ==> s.workers[Recv(g, j)].i < c.packets
  {
    hide Workers, Barrier;
    OkPipe(c, s, g, j);
    DebtIs(c);
    hide Debt, Sent;
    MulLess(c.packets, s.workers[Recv(g, j)].i, c.size);
  }

  lemma SenderOwes(c: Config, s: State, id: Id)
    requires c.Sane() && Inv(c, s) && id.Send? && id in Ids(c) && s.workers[id].i < c.loops
    ensures s.workers[id].j < c.fds
    ensures Sent(c, s.workers, id.g, s.workers[id].j) < Debt(c)
  {
    assert WorkerOk(c, s.main, s.wake, id, s.workers[id]);
    SentToBound(c, s.workers[id], s.workers[id].j);
    SentBound(c, s, id.g, s.workers[id].j);
  }

  /** An awake worker that has not finished its loop is alive and holds its descriptors. */
  lemma AliveWhileBehind(c: Config, s: State, id: Id)
    requires c.Sane() && Inv(c, s) && s.wake > 0 && id in Ids(c)
    requires if id.Recv? then Counter(s.workers[id]) < c.packets else !c.Short() && s.workers[id].i < c.loops
    ensures s.workers[id].pc in {Await, Work}
    ensures s.workers[id].ends == Holds(c, id, Work)
  {
    hide Inv;
    OkWorker(c, s, id);
    Awake(c, s, id);
  }

  /** A sender with bytes left for pipe j has a receiver that is still reading it. */
  lemma ReaderLeft(c: Config, s: State, id: Id)
    requires c.Sane() && !c.Short() && Inv(c, s) && Sending(c, s, id)
    ensures var r := Recv(id.g, s.workers[id].j);
      && r in s.workers && Counter(s.workers[r]) < c.packets && s.workers[r].pc in {Await, Work}
      && (c.packets >= c.fds * c.loops ==> s.workers[r].i < c.packets)
      && Rd(r.g, r.i) in s.workers[r].ends
  {
    SenderOwes(c, s, id);
    OkWorker(c, s, id);
    AtWork(c, s, id);
    OkPipe(c, s, id.g, s.workers[id].j);
    hide Inv;
    ReceiverBehind(c, s, id.g, s.workers[id].j);
    AliveWhileBehind(c, s, Recv(id.g, s.workers[id].j));
  }

  lemma NeverBroken(c: Config, s: State, id: Id)
    requires c.Sane() && !c.Short() && Inv(c, s)
    ensures !Enabled(c, s, Broken(id))
  {
    hide Inv;
    if Sending(c, s, id) {
      ReaderLeft(c, s, id);
      assert SomeoneHolds(s, Rd(id.g, s.workers[id].j));
    }
  }

  lemma BehindOwes(c: Config, w: Worker)
    requires c.Sane() && c.packets < WORD && RecvOk(c, w) && Counter(w) < c.packets && w.done < c.size
    ensures Taken(c, w) < c.packets * c.size
  {
    MulLess(w.i, c.packets, c.size);
  }

  /** A receiver at an empty pipe, its quota met by the senders and by its counter, is still owed bytes. */
  lemma PipeOwed(c: Config, s: State, id: Id)
    requires c.Sane() && c.Balanced() && Inv(c, s) && Receiving(c, s, id) && s.pipes[(id.g, id.i)] == 0
    ensures Sent(c, s.workers, id.g, id.i) < Debt(c)
  {
    OkWorker(c, s, id);
    BehindOwes(c, s.workers[id]);
    OkPipe(c, s, id.g, id.i);
    DebtIs(c);
    hide Inv, Debt, Sent;
  }

  lemma OkGroup(c: Config, s: State, g: nat)
    requires Inv(c, s) && g < c.groups
    ensures forall i: nat | i < c.fds :: Send(g, i) in s.workers && Send(g, i) in Ids(c)
  {
    hide Workers, Barrier, Flow;
  }

  lemma SenderBehind(c: Config, s: State, id: Id, j: nat)
    requires c.Sane() && Inv(c, s) && id.Send? && id in Ids(c) && j < c.fds
    requires SentTo(c, s.workers[id], j) != c.loops * c.size
    ensures s.workers[id].i < c.loops
  {
    assert WorkerOk(c, s.main, s.wake, id, s.workers[id]);
    SentToBound(c, s.workers[id], j);
  }

  /** A pipe that is still owed bytes is owed them by some sender. */
  lemma Debtor(c: Config, s: State, g: nat, j: nat) returns (i: nat)
    requires c.Sane() && Inv(c, s) && g < c.groups && j < c.fds && Sent(c, s.workers, g, j) < Debt(c)
    ensures i < c.fds && Send(g, i) in s.workers && Send(g, i) in Ids(c) && s.workers[Send(g, i)].i < c.loops
  {
    hide Inv, Sent, SentTo, Debt;
    SentBound(c, s, g, j);
    OkGroup(c, s, g);
    i :| i < c.fds && SentTo(c, s.workers[Send(g, i)], j) != c.loops * c.size;
    SenderBehind(c, s, Send(g, i), j);
  }

  /** A receiver with bytes to come reads a nonempty pipe, or some sender still owes that pipe and holds it open. */
  lemma WriterLeft(c: Config, s: State, id: Id) returns (i: nat)
    requires c.Sane() && c.Balanced() && Inv(c, s) && Receiving(c, s, id) && s.pipes[(id.g, id.i)] == 0
    ensures i < c.fds && Send(id.g, i) in s.workers
    ensures s.workers[Send(id.g, i)].pc in {Await, Work} && s.workers[Send(id.g, i)].i < c.loops
    ensures Wr(id.g, id.i) in s.workers[Send(id.g, i)].ends
  {
    hide Inv, Sent, SentTo, WorkerOk, Debt;
    OkWorker(c, s, id);
    PipeOwed(c, s, id);
    AtWork(c, s, id);
    i := Debtor(c, s, id.g, id.i);
    AliveWhileBehind(c, s, Send(id.g, i));
  }

  lemma NeverEof(c: Config, s: State, id: Id)
    requires c.Sane() && c.Balanced() && Inv(c, s)
    ensures !Enabled(c, s, Eof(id))
  {
    hide Inv;
    if Receiving(c, s, id) && s.pipes[(id.g, id.i)] == 0 {
      var i := WriterLeft(c, s, id);
      assert SomeoneHolds(s, Wr(id.g, id.i));
    }
  }

  // ----- deadlock freedom

  function Least(a: nat, b: nat): nat {
    if a < b then a else b
  }

  /**
   An action no kernel that follows the rules for pipes can make wait: any but a
   write, or a write into an empty pipe of as much as fits.
   */
  ghost predicate Unblockable(c: Config, s: State, a: Action) {
    Enabled(c, s, a) &&
    match a
    case Write(id, n) =>
      var p := (id.g, s.workers[id].j);
      s.pipes[p] == 0 && n == Least(c.size - s.workers[id].done, c.room(p.0, p.1))
    case _ => true
  }

  lemma Unannounced(c: Config, s: State) returns (id: Id)
    requires c.Sane() && Inv(c, s) && s.main.Collect? && s.main.n < s.total && s.ready == 0
    ensures id in Ids(c) && s.workers[id].pc in {Entry, Announce}
  {
    hide Flow, Workers, Sum;
    AllForked(c, s);
    id := Missing(PcSet(s.workers, Announced()), PcSet(s.workers, Forked()));
  }

  lemma ProgressCollect(c: Config, s: State) returns (a: Action)
    requires c.Sane() && Inv(c, s) && s.main.Collect?
    ensures Unblockable(c, s, a) && !a.Write? && !a.Broken? && !a.Eof?
  {
    if s.main.n == s.total {
      a := Stamp;
    } else if s.ready > 0 {
      a := ReadReady;
    } else {
      var id := Unannounced(c, s);
      assert WorkerOk(c, s.main, s.wake, id, s.workers[id]);
      a := if s.workers[id].pc == Entry then CloseOwn(id) else SayReady(id);
    }
  }

  /** An action of a worker, not of main and not of the reap. */
  predicate OfWorker(a: Action) {
    !MainAction(a) && !a.WaitFor?
  }

  /** An awake worker that has not exited polls or is at work; if it polls it can go on. */
  lemma AwakeMoves(c: Config, s: State, id: Id)
    requires Inv(c, s) && s.wake > 0 && id in s.workers && s.workers[id].pc !in {Exited, Reaped}
    ensures s.workers[id].pc in {Await, Work}
    ensures s.workers[id].pc == Await ==> Unblockable(c, s, PassPoll(id))
  {
    hide Inv;
    OkWorker(c, s, id);
    Awake(c, s, id);
  }

  /** A receiver at a nonempty pipe can poll, read or leave. */
  lemma ReaderMoves(c: Config, s: State, r: Id) returns (a: Action)
    requires c.Sane() && Inv(c, s) && s.wake > 0 && r.Recv? && r in s.workers && Alive(s.workers[r])
    requires (r.g, r.i) in s.pipes && s.pipes[(r.g, r.i)] > 0
    ensures Unblockable(c, s, a) && !a.Eof? && !a.Write? && OfWorker(a)
  {
    hide Inv;
    AwakeMoves(c, s, r);
    OkWorker(c, s, r);
    a := if s.workers[r].pc == Await then PassPoll(r)
         else if Counter(s.workers[r]) >= c.packets then Exit(r)
         else Read(r, 1);
  }

  /**
   A sender at work can leave or write; or is killed, if nobody can read; or the
   receiver of the pipe it finds bytes in can move.
   */
  lemma SenderMoves(c: Config, s: State, id: Id) returns (a: Action)
    requires c.Sane() && Inv(c, s) && id.Send? && id in s.workers && s.workers[id].pc == Work
    ensures Unblockable(c, s, a) && !a.Eof? && OfWorker(a)
  {
    hide Inv;
    var w := s.workers[id];
    OkWorker(c, s, id);
    AtWork(c, s, id);
    if w.i >= c.loops {
      a := Exit(id);
    } else {
      OkPipe(c, s, id.g, w.j);
      assert Sending(c, s, id);
      if !SomeoneHolds(s, Rd(id.g, w.j)) {
        a := Broken(id);
      } else if s.pipes[(id.g, w.j)] == 0 {
        a := Write(id, Least(c.size - w.done, c.room(id.g, w.j)));
      } else {
        ReaderHeld(c, s, id.g, w.j);
        a := ReaderMoves(c, s, Recv(id.g, w.j));
      }
    }
  }

  /**
   A receiver at work can leave, read, or be told the end of file; or else some
   worker holds its pipe open, and that one can move: a sender, or a receiver
   with a higher number.
   */
  lemma {:induction false} ReceiverMoves(c: Config, s: State, id: Id) returns (a: Action)
    requires c.Sane() && Inv(c, s) && id.Recv? && id in s.workers && s.workers[id].pc == Work
    ensures Unblockable(c, s, a) && OfWorker(a)
    decreases c.fds - id.i
  {
    hide Inv;
    OkWorker(c, s, id);
    OkPipe(c, s, id.g, id.i);
    AtWork(c, s, id);
    if Counter(s.workers[id]) >= c.packets {
      a := Exit(id);
    } else if s.pipes[(id.g, id.i)] > 0 {
      a := Read(id, 1);
    } else if !SomeoneHolds(s, Wr(id.g, id.i)) {
      a := Eof(id);
    } else {
      var h := WriterHeld(c, s, id.g, id.i);
      OkWorker(c, s, h);
      AwakeMoves(c, s, h);
      if s.workers[h].pc == Await {
        a := PassPoll(h);
      } else if h.Send? {
        a := SenderMoves(c, s, h);
      } else {
        a := ReceiverMoves(c, s, h);
      }
    }
  }

  lemma WorkerMoves(c: Config, s: State, id: Id) returns (a: Action)
    requires c.Sane() && Inv(c, s) && s.wake > 0
    requires id in s.workers && s.workers[id].pc !in {Exited, Reaped}
    ensures Unblockable(c, s, a) && OfWorker(a)
  {
    hide Inv;
    AwakeMoves(c, s, id);
    if s.workers[id].pc == Await {
      a := PassPoll(id);
    } else if id.Send? {
      a := SenderMoves(c, s, id);
    } else {
      a := ReceiverMoves(c, s, id);
    }
  }

  lemma Unreaped(c: Config, s: State) returns (id: Id)
    requires Inv(c, s) && s.main.Reap? && s.main.n != s.total
    ensures s.main.n < s.total && s.wake > 0 && id in s.workers && s.workers[id].pc != Reaped
  {
    AllForked(c, s);
    hide Workers, Flow;
    id := Missing(PcSet(s.workers, {Reaped}), Ids(c));
  }

  lemma ProgressReap(c: Config, s: State) returns (a: Action)
    requires c.Sane() && Inv(c, s) && s.main.Reap?
    ensures Unblockable(c, s, a)
  {
    hide Inv;
    if s.main.n == s.total {
      a := Finish;
    } else {
      var id := Unreaped(c, s);
      if s.workers[id].pc == Exited {
        a := WaitFor(id);
      } else {
        a := WorkerMoves(c, s, id);
      }
    }
  }

  /**
   Deadlock freedom: until main has finished, some process can take a step that
   cannot be made to wait. If no quota is short it is not a fatal write, and if
   the quotas balance it is no end of file either.
   */
  lemma {:induction false} Progress(c: Config, s: State) returns (a: Action)
    requires c.Sane() && Inv(c, s) && !s.main.Finished?
    ensures Unblockable(c, s, a)
    ensures !c.Short() ==> !a.Broken?
    ensures c.Balanced() ==> !a.Eof?
  {
    hide Inv;
    if SettingUp(s.main) {
      a := Setup;
    } else if s.main.Collect? {
      a := ProgressCollect(c, s);
    } else if s.main.Wake? {
      a := Go;
    } else {
      a := ProgressReap(c, s);
    }
    if a.Broken? && !c.Short() {
      NeverBroken(c, s, a.id);
    }
    if a.Eof? && c.Balanced() {
      NeverEof(c, s, a.id);
    }
  }

  // ----- the one way a run can end

  function FinalWorker(c: Config, id: Id): Worker {
    Worker(Reaped, {}, if id.Recv? then c.packets else c.loops, 0, 0)
  }

  function Final(c: Config): State {
    State(Finished, Common(), 2 * c.fds * c.groups, true,
          map id | id in Ids(c) :: FinalWorker(c, id),
          map p | p in PipeIds(c) :: 0,
          0, 1)
  }

  lemma AllReaped(c: Config, s: State)
    requires Inv(c, s) && s.main.Finished?
    ensures PcSet(s.workers, {Reaped}) == Ids(c)
  {
    AllForked(c, s);
    FullSubset(PcSet(s.workers, {Reaped}), Ids(c));
  }

  lemma ReapedWorker(c: Config, m: Main, wake: nat, id: Id, w: Worker)
    requires c.Sane() && c.Balanced() && WorkerOk(c, m, wake, id, w) && w.pc == Reaped
    ensures w == FinalWorker(c, id)
  {
  }

  lemma FinalWorkers(c: Config, s: State, id: Id)
    requires c.Sane() && c.Balanced() && Inv(c, s) && s.main.Finished? && id in Ids(c)
    ensures s.workers[id] == FinalWorker(c, id)
  {
    AllReaped(c, s);
    assert id in PcSet(s.workers, {Reaped});
    ReapedWorker(c, s.main, s.wake, id, s.workers[id]);
  }

  lemma FinalPipes(c: Config, s: State, g: nat, j: nat)
    requires c.Sane() && c.Balanced() && Inv(c, s) && s.main.Finished? && g < c.groups && j < c.fds
    ensures s.pipes[(g, j)] == 0
  {
    hide Flow, Workers, Barrier;
    OkPipe(c, s, g, j);
    FinalWorkers(c, s, Recv(g, j));
    forall i: nat | i < c.fds ensures SentTo(c, s.workers[Send(g, i)], j) == c.loops * c.size {
      FinalWorkers(c, s, Send(g, i));
    }
    SentBound(c, s, g, j);
  }

  lemma FinalMaps(c: Config, s: State)
    requires c.Sane() && c.Balanced() && Inv(c, s) && s.main.Finished?
    ensures s.workers == Final(c).workers && s.pipes == Final(c).pipes
  {
    forall id | id in Ids(c) ensures s.workers[id] == FinalWorker(c, id) {
      FinalWorkers(c, s, id);
    }
    forall p: (nat, nat) | p in PipeIds(c) ensures s.pipes[p] == 0 {
      FinalPipes(c, s, p.0, p.1);
    }
    hide Flow, Workers, Barrier, FinalWorker;
    assert s.workers == Final(c).workers;
    assert s.pipes == Final(c).pipes;
  }

  lemma FinishedIsFinal(c: Config, s: State)
    requires c.Sane() && c.Balanced() && Inv(c, s) && s.main.Finished?
    ensures s == Final(c)
  {
    hide Flow, Workers;
    FinalMaps(c, s);
    AllAnnounced(c, s);
    OffsetIs(c.fds, c.groups);
  }
}
