/**
 The worker loops inside whole runs: in any run of the machine, a worker's
 transfers, taken as the kernel's answers, take its own code to where the machine
 has it.
 */
module WorkersInRuns {
  import opened Hackbench
  import opened HackbenchInvariant
  import opened HackbenchRuns
  import opened HackbenchStarved
  import opened Workers

  /** The loop variables of a worker, whatever else it is doing. */
  function Bare(w: Worker): Worker {
    Worker(Work, {}, w.i, w.j, w.done)
  }

  /** The bytes a worker moved in each of its data calls; 0 for an end of file. */
  function Amounts(acts: seq<Action>, id: Id): seq<int> {
    if acts == [] then []
    else
      var here := match acts[0] {
        case Write(x, n) => if x == id then [n] else []
        case Read(x, n) => if x == id then [n] else []
        case Eof(x) => if x == id then [0] else []
        case _ => []
      };
      here + Amounts(acts[1..], id)
  }

  /** Where the sender's loops are after these answers. */
  function SenderEnd(c: Config, w: Worker, data: seq<int>): Worker
    requires w.done <= c.size && (w.i < c.loops ==> w.j < c.fds)
    decreases |data|
  {
    if w.i >= c.loops || data == [] then w
    else
      var got := Answer(data[0], c.size - w.done);
      if got < 0 then w else SenderEnd(c, SendNext(c, w, got), data[1..])
  }

  function ReceiverEnd(c: Config, w: Worker, data: seq<int>): Worker
    requires w.done <= c.size
    decreases |data|
  {
    if Counter(w) >= c.packets || data == [] then w
    else
      var got := Answer(data[0], c.size - w.done);
      if got < 0 then w else ReceiverEnd(c, RecvNext(c, w, got), data[1..])
  }

  /**
   What the sender's code makes of answers that are no errors: it returns or is
   still running, and has moved the bytes between its two positions.
   */
  lemma {:induction false} SenderDataEnd(c: Config, outFds: seq<int>, w: Worker, data: seq<int>, j: nat)
    requires c.Sane() && |outFds| == c.fds && j < c.fds
    requires forall x: nat, y: nat | x < y < |outFds| :: outFds[x] != outFds[y]
    requires SendOk(c, w) && w.pc == Work && w.done < c.size && forall d :: d in data ==> d >= 0
    ensures var (o, calls), end := SenderData(c, outFds, w, data), SenderEnd(c, w, data);
      && o == (if end.i >= c.loops then Returned else Pending)
      && SentTo(c, w, j) + BytesOn(calls, outFds[j]) == SentTo(c, end, j)
    decreases |data|
  {
    if w.i < c.loops && data != [] {
      var call := Data(outFds[w.j], c.size - w.done, Answer(data[0], c.size - w.done));
      SenderUnfold(c, outFds, w, data, call);
      assert data[0] in data && call.got >= 0;
      assert forall d :: d in data[1..] ==> d in data;
      SenderDataEnd(c, outFds, SendNext(c, w, call.got), data[1..], j);
      TransferBytes(c, w, call.got, j);
    }
  }

  lemma {:induction false} ReceiverDataEnd(c: Config, fd: int, w: Worker, data: seq<int>)
    requires c.Sane() && w.pc == Work && w.done < c.size && w.j < c.fds && forall d :: d in data ==> d >= 0
    ensures var (o, calls), end := ReceiverData(c, fd, w, data), ReceiverEnd(c, w, data);
      && o == (if Counter(end) >= c.packets then Returned else Pending)
      && Taken(c, w) + BytesOn(calls, fd) == Taken(c, end)
    decreases |data|
  {
    if Counter(w) < c.packets && data != [] {
      var call := Data(fd, c.size - w.done, Answer(data[0], c.size - w.done));
      ReceiverUnfold(c, fd, w, data, call);
      assert data[0] in data && call.got >= 0;
      assert forall d :: d in data[1..] ==> d in data;
      ReceiverDataEnd(c, fd, RecvNext(c, w, call.got), data[1..]);
      TransferBytes(c, w, call.got, 0);
    }
  }

  // ----- one step of a run

  lemma MainKeeps(c: Config, s: State, a: Action, id: Id)
    requires Enabled(c, s, a) && MainAction(a) && id in s.workers && WorkerOk(c, s.main, s.wake, id, s.workers[id])
    ensures id in Next(c, s, a).workers && Bare(Next(c, s, a).workers[id]) == Bare(s.workers[id])
  {
    hide Holds, RecvOk, SendOk;
  }

  lemma OwnKeeps(c: Config, s: State, a: Action)
    requires Enabled(c, s, a) && !MainAction(a) && !a.Write? && !a.Read?
    ensures Bare(Moved(c, s.workers[a.id], a)) == Bare(s.workers[a.id])
  {
    hide SomeoneHolds;
  }

  /** Whatever is not a transfer of a worker leaves its loop variables alone. */
  lemma Keeps(c: Config, s: State, a: Action, id: Id)
    requires Inv(c, s) && Enabled(c, s, a) && id in s.workers
    requires !MainAction(a) && a.id == id ==> !a.Write? && !a.Read?
    ensures id in Next(c, s, a).workers && Bare(Next(c, s, a).workers[id]) == Bare(s.workers[id])
  {
    hide Inv, WorkerOk, Enabled, Next, Moved;
    OkWorker(c, s, id);
    if MainAction(a) {
      MainKeeps(c, s, a, id);
    } else {
      OneMoves(c, s, a);
      if a.id == id {
        OwnKeeps(c, s, a);
      }
    }
  }

  lemma WriteGoesOn(c: Config, s: State, a: Action, rest: seq<int>)
    requires c.Sane() && Inv(c, s) && Enabled(c, s, a) && a.Write?
    ensures var w := Bare(s.workers[a.id]);
      && w.done <= c.size && (w.i < c.loops ==> w.j < c.fds)
      && var w' := Bare(Next(c, s, a).workers[a.id]);
        && w'.done <= c.size && (w'.i < c.loops ==> w'.j < c.fds)
        && SenderEnd(c, w, [a.n] + rest) == SenderEnd(c, w', rest)
  {
    hide Inv, SomeoneHolds;
    OkWorker(c, s, a.id);
    OneMoves(c, s, a);
    hide Next;
    assert ([a.n] + rest)[1..] == rest;
  }

  lemma ReadGoesOn(c: Config, s: State, a: Action, rest: seq<int>)
    requires c.Sane() && Inv(c, s) && Enabled(c, s, a) && (a.Read? || a.Eof?)
    ensures var w, w' := Bare(s.workers[a.id]), Bare(Next(c, s, a).workers[a.id]);
      && w.done <= c.size && w'.done <= c.size
      && ReceiverEnd(c, w, [if a.Read? then a.n else 0] + rest) == ReceiverEnd(c, w', rest)
  {
    hide Inv, SomeoneHolds;
    OkWorker(c, s, a.id);
    OneMoves(c, s, a);
    hide Next;
    assert ([if a.Read? then a.n else 0] + rest)[1..] == rest;
  }

  /** A worker's loop variables are always ones its code can have. */
  lemma BareOk(c: Config, s: State, id: Id)
    requires c.Sane() && Inv(c, s) && id in s.workers
    ensures var w := Bare(s.workers[id]); w.done < c.size && w.j < c.fds
    ensures id.Send? ==> SendOk(c, Bare(s.workers[id]))
  {
    hide Inv, Holds, Born;
    OkWorker(c, s, id);
  }

  lemma {:induction false} AmountsNatural(acts: seq<Action>, id: Id)
    ensures forall d :: d in Amounts(acts, id) ==> d >= 0
  {
    if acts != [] {
      AmountsNatural(acts[1..], id);
    }
  }

  // ----- whole runs

  lemma NoAnswers(c: Config, w: Worker)
    requires w.done <= c.size && (w.i < c.loops ==> w.j < c.fds)
    ensures SenderEnd(c, w, []) == w && ReceiverEnd(c, w, []) == w
  {
  }

  lemma OnlySenders(c: Config, s: State, a: Action)
    requires Enabled(c, s, a)
    ensures a.Write? ==> a.id.Send?
    ensures a.Read? || a.Eof? ==> a.id.Recv?
  {
  }

  lemma {:induction false} SenderFollows(c: Config, s: State, acts: seq<Action>, id: Id)
    requires c.Sane() && Inv(c, s) && IsRun(c, s, acts) && id in s.workers && id.Send?
    ensures var t := After(c, s, acts);
      && Inv(c, t) && id in t.workers
      && Bare(s.workers[id]).done <= c.size && (s.workers[id].i < c.loops ==> s.workers[id].j < c.fds)
      && SenderEnd(c, Bare(s.workers[id]), Amounts(acts, id)) == Bare(t.workers[id])
    decreases |acts|
  {
    hide Inv, Enabled, Next, Left, SenderEnd;
    BareOk(c, s, id);
    if acts == [] {
      NoAnswers(c, Bare(s.workers[id]));
    } else {
      var a, t := acts[0], Next(c, s, acts[0]);
      EffectiveStep(c, s, a);
      OnlySenders(c, s, a);
      if a.Write? && a.id == id {
        WriteGoesOn(c, s, a, Amounts(acts[1..], id));
        OneMoves(c, s, a);
      } else {
        Keeps(c, s, a, id);
        assert [] + Amounts(acts[1..], id) == Amounts(acts[1..], id);
      }
      SenderFollows(c, t, acts[1..], id);
    }
  }

  lemma {:induction false} ReceiverFollows(c: Config, s: State, acts: seq<Action>, id: Id)
    requires c.Sane() && Inv(c, s) && IsRun(c, s, acts) && id in s.workers && id.Recv?
    ensures var t := After(c, s, acts);
      && Inv(c, t) && id in t.workers
      && Bare(s.workers[id]).done <= c.size
      && ReceiverEnd(c, Bare(s.workers[id]), Amounts(acts, id)) == Bare(t.workers[id])
    decreases |acts|
  {
    hide Inv, Enabled, Next, Left, ReceiverEnd;
    BareOk(c, s, id);
    if acts == [] {
      NoAnswers(c, Bare(s.workers[id]));
    } else {
      var a, t := acts[0], Next(c, s, acts[0]);
      EffectiveStep(c, s, a);
      OnlySenders(c, s, a);
      if (a.Read? || a.Eof?) && a.id == id {
        ReadGoesOn(c, s, a, Amounts(acts[1..], id));
        OneMoves(c, s, a);
      } else {
        Keeps(c, s, a, id);
        assert [] + Amounts(acts[1..], id) == Amounts(acts[1..], id);
      }
      ReceiverFollows(c, t, acts[1..], id);
    }
  }

  lemma InitialBare(c: Config, id: Id)
    requires id in Ids(c)
    ensures id in Initial(c).workers && Bare(Initial(c).workers[id]) == START
  {
  }

  /**
   In any run of any configuration: fed the amounts the sender transferred, its
   code is at the machine's round, message and byte, has returned exactly when the
   machine's rounds are over, and has put on each descriptor the bytes the machine
   counts as sent to that pipe. The last two hold of the whole function, barrier
   included.
   */
  lemma SenderInRun(c: Config, outFds: seq<int>, readyOut: int, wakeFd: int, acts: seq<Action>, id: Id, j: nat)
    requires c.Sane() && IsRun(c, Initial(c), acts) && id in Ids(c) && id.Send?
    requires |outFds| == c.fds && j < c.fds && forall x: nat, y: nat | x < y < |outFds| :: outFds[x] != outFds[y]
    ensures var t, data := After(c, Initial(c), acts), Amounts(acts, id);
      && id in t.workers
      && SenderEnd(c, START, data) == Bare(t.workers[id])
      && SenderData(c, outFds, START, data).0 == (if t.workers[id].i >= c.loops then Returned else Pending)
      && BytesOn(SenderData(c, outFds, START, data).1, outFds[j]) == SentTo(c, t.workers[id], j)
      && var (o, calls) := SenderRun(c, outFds, readyOut, wakeFd, Script(1, 1, data));
        && o == (if t.workers[id].i >= c.loops then Returned else Pending)
        && BytesOn(calls, outFds[j]) == SentTo(c, t.workers[id], j)
  {
    hide Inv, Initial, IsRun, After, Amounts, SenderData, ReceiverData, SenderEnd, ReceiverEnd;
    var s := Initial(c);
    InitialInv(c);
    InitialBare(c, id);
    SenderFollows(c, s, acts, id);
    AmountsNatural(acts, id);
    var data := Amounts(acts, id);
    SenderDataEnd(c, outFds, START, data, j);
    PastBarrier([ReadyWrite(readyOut), PollWake(wakeFd)], readyOut, wakeFd,
      SenderData(c, outFds, START, data).1, outFds[j]);
  }

  /** And likewise for a receiver, reads of 0 bytes included. */
  lemma ReceiverInRun(c: Config, inFds: (int, int), readyOut: int, wakeFd: int, acts: seq<Action>, id: Id)
    requires c.Sane() && IsRun(c, Initial(c), acts) && id in Ids(c) && id.Recv?
    ensures var t, data := After(c, Initial(c), acts), Amounts(acts, id);
      && id in t.workers
      && ReceiverEnd(c, START, data) == Bare(t.workers[id])
      && ReceiverData(c, inFds.0, START, data).0 == (if Counter(t.workers[id]) >= c.packets then Returned else Pending)
      && BytesOn(ReceiverData(c, inFds.0, START, data).1, inFds.0) == Taken(c, t.workers[id])
      && var (o, calls) := ReceiverRun(c, inFds, readyOut, wakeFd, Script(1, 1, data));
        && o == (if Counter(t.workers[id]) >= c.packets then Returned else Pending)
        && BytesOn(calls, inFds.0) == Taken(c, t.workers[id])
  {
    hide Inv, Initial, IsRun, After, Amounts, SenderData, ReceiverData, SenderEnd, ReceiverEnd;
    var s := Initial(c);
    InitialInv(c);
    InitialBare(c, id);
    ReceiverFollows(c, s, acts, id);
    AmountsNatural(acts, id);
    var data := Amounts(acts, id);
    ReceiverDataEnd(c, inFds.0, START, data);
    var bar, calls := [ReadyWrite(readyOut), PollWake(wakeFd)], ReceiverData(c, inFds.0, START, data).1;
    PastBarrier(bar, readyOut, wakeFd, calls, inFds.0);
    assert [CloseFd(inFds.1)] + bar + calls == [CloseFd(inFds.1)] + (bar + calls);
    BytesOnSkip(CloseFd(inFds.1), bar + calls, inFds.0);
  }
}
