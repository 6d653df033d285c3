/** What every reachable state of a hackbench run satisfies. */
module HackbenchInvariant {
  import opened Sums
  import opened Hackbench

  // ----- which workers exist, and which descriptors each process holds

  ghost predicate MainInRange(c: Config, m: Main) {
    match m
    case OpenPipe(g, k) => g < c.groups && k < c.fds
    case ForkRecv(g, k) => g < c.groups && k < c.fds
    case CloseRd(g, k) => g < c.groups && k < c.fds
    case ForkSend(g, k) => g < c.groups && k < c.fds
    case CloseWr(g, k) => g < c.groups && k < c.fds
    case _ => true
  }

  /** Receivers and senders of the current group that main has forked. */
  function RecvForked(c: Config, m: Main): nat {
    match m
    case OpenPipe(g, k) => k
    case ForkRecv(g, k) => k
    case CloseRd(g, k) => k + 1
    case _ => c.fds
  }

  function SendForked(c: Config, m: Main): nat {
    match m
    case OpenPipe(g, k) => 0
    case ForkRecv(g, k) => 0
    case CloseRd(g, k) => 0
    case ForkSend(g, k) => k
    case _ => c.fds
  }

  predicate Born(c: Config, m: Main, id: Id) {
    SettingUp(m) ==>
      id.g < m.g || (id.g == m.g && id.i < if id.Recv? then RecvForked(c, m) else SendForked(c, m))
  }

  function WriteEnds(g: nat, lo: nat, hi: nat): set<End> {
    set j: nat | lo <= j < hi :: Wr(g, j)
  }

  /** Main's descriptor table. */
  function MainHolds(c: Config, m: Main): set<End> {
    Common() +
    match m
    case OpenPipe(g, k) => WriteEnds(g, 0, k)
    case ForkRecv(g, k) => WriteEnds(g, 0, k + 1) + {Rd(g, k)}
    case CloseRd(g, k) => WriteEnds(g, 0, k + 1) + {Rd(g, k)}
    case ForkSend(g, k) => WriteEnds(g, 0, c.fds)
    case CloseWr(g, k) => WriteEnds(g, k, c.fds)
    case _ => {}
  }

  /** A worker's descriptor table: a receiver keeps its read end and the write ends opened before its own. */
  function Holds(c: Config, id: Id, pc: Pc): set<End> {
    if pc in {Unborn, Exited, Reaped} then {}
    else if id.Send? then Common() + WriteEnds(id.g, 0, c.fds)
    else Common() + {Rd(id.g, id.i)} + WriteEnds(id.g, 0, if pc == Entry then id.i + 1 else id.i)
  }

  ghost predicate Shape(c: Config, s: State) {
    && s.workers.Keys == Ids(c) && s.pipes.Keys == PipeIds(c)
    && MainInRange(c, s.main)
    && s.mainEnds == MainHolds(c, s.main)
  }

  ghost predicate RecvOk(c: Config, w: Worker) {
    && w.j == 0
    && (w.pc in {Exited, Reaped} ==> Counter(w) >= c.packets)
    && (c.packets < WORD ==> w.i < c.packets || (w.i == c.packets && w.done == 0))
  }

  ghost predicate SendOk(c: Config, w: Worker) {
    && (w.i < c.loops || (w.i == c.loops && w.done == 0 && w.j == 0))
    && w.j < c.fds
    && (!c.Short() && w.pc in {Exited, Reaped} ==> w.i == c.loops)
  }

  ghost predicate WorkerOk(c: Config, m: Main, wake: nat, id: Id, w: Worker) {
    && (w.pc != Unborn <==> Born(c, m, id))
    && w.ends == Holds(c, id, w.pc)
    && (w.pc == Entry ==> id.Recv?)
    && (w.pc in {Work, Exited, Reaped} ==> wake > 0)
    && (w.pc in {Unborn, Entry, Announce, Await} ==> w.i == w.j == w.done == 0)
    && w.done < c.size
    && (id.Recv? ==> RecvOk(c, w))
    && (id.Send? ==> SendOk(c, w))
  }

  ghost predicate Workers(c: Config, s: State) {
    forall id :: id in s.workers ==> WorkerOk(c, s.main, s.wake, id, s.workers[id])
  }

  // ----- the barrier, by counting

  function PcSet(m: map<Id, Worker>, pcs: set<Pc>): set<Id> {
    set id | id in m && m[id].pc in pcs
  }

  function Forked(): set<Pc> { {Entry, Announce, Await, Work, Exited, Reaped} }
  function Announced(): set<Pc> { {Await, Work, Exited, Reaped} }

  function Collected(s: State): nat {
    match s.main
    case Collect(n) => n
    case Wake => s.total
    case Reap(_) => s.total
    case Finished => s.total
    case _ => 0
  }

  function ReapedBy(s: State): nat {
    match s.main
    case Reap(n) => n
    case Finished => s.total
    case _ => 0
  }

  ghost predicate Barrier(c: Config, s: State) {
    && s.wake == (if s.main.Reap? || s.main.Finished? then 1 else 0)
    && (s.stamped <==> s.main.Wake? || s.main.Reap? || s.main.Finished?)
    && |PcSet(s.workers, Forked())| ==
         s.total + (if SettingUp(s.main) then RecvForked(c, s.main) + SendForked(c, s.main) else 0)
    && s.total == Offset(c.fds, if SettingUp(s.main) then s.main.g else c.groups)
    && |PcSet(s.workers, Announced())| == Collected(s) + s.ready
    && |PcSet(s.workers, {Reaped})| == ReapedBy(s)
    && (s.main.Collect? ==> s.main.n <= s.total)
    && (s.main.Reap? ==> s.main.n <= s.total)
  }

  // ----- byte conservation

  /** Bytes a sender in this state has written to pipe j of its group. */
  function SentTo(c: Config, w: Worker, j: nat): nat {
    w.i * c.size + if j < w.j then c.size else if j == w.j then w.done else 0
  }

  /** Bytes a receiver in this state has read. */
  function Taken(c: Config, w: Worker): nat {
    w.i * c.size + w.done
  }

  function Get(m: map<Id, Worker>, id: Id): Worker {
    if id in m then m[id] else Worker(Unborn, {}, 0, 0, 0)
  }

  ghost function SentFn(c: Config, m: map<Id, Worker>, g: nat, j: nat): nat -> int {
    (i: nat) => SentTo(c, Get(m, Send(g, i)), j)
  }

  /** Bytes all senders of group g have written to pipe j. */
  ghost function Sent(c: Config, m: map<Id, Worker>, g: nat, j: nat): int {
    Sum(SentFn(c, m, g, j), c.fds)
  }

  ghost predicate PipeOk(c: Config, s: State, g: nat, j: nat)
    requires (g, j) in s.pipes
  {
    && Sent(c, s.workers, g, j) == Taken(c, Get(s.workers, Recv(g, j))) + s.pipes[(g, j)]
    && s.pipes[(g, j)] <= c.room(g, j)
  }

  ghost predicate Flow(c: Config, s: State) {
    forall g: nat, j: nat :: (g, j) in s.pipes ==> PipeOk(c, s, g, j)
  }

  ghost predicate Inv(c: Config, s: State) {
    Shape(c, s) && Workers(c, s) && Barrier(c, s) && Flow(c, s)
  }

  lemma OkWorker(c: Config, s: State, id: Id)
    requires Inv(c, s) && (id in Ids(c) || id in s.workers)
    ensures id in s.workers && id in Ids(c) && WorkerOk(c, s.main, s.wake, id, s.workers[id])
  {
  }

  lemma OkPipe(c: Config, s: State, g: nat, j: nat)
    requires Inv(c, s) && g < c.groups && j < c.fds
    ensures (g, j) in s.pipes && Recv(g, j) in s.workers && PipeOk(c, s, g, j)
  {
  }

  // ----- who holds an end

  predicate Alive(w: Worker) {
    w.pc !in {Unborn, Exited, Reaped}
  }

  lemma HeldByWorker(c: Config, g: nat, j: nat, id: Id, pc: Pc)
    requires j < c.fds && (pc == Entry ==> id.Recv?)
    ensures Rd(g, j) in Holds(c, id, pc) <==> pc !in {Unborn, Exited, Reaped} && id == Recv(g, j)
    ensures Wr(g, j) in Holds(c, id, pc) <==>
      pc !in {Unborn, Exited, Reaped} && id.g == g && (id.Send? || j < id.i || (j == id.i && pc == Entry))
  {
  }

  lemma HeldByMain(c: Config, m: Main, g: nat, j: nat)
    requires SettingUp(m) ==> g < m.g
    ensures Rd(g, j) !in MainHolds(c, m) && Wr(g, j) !in MainHolds(c, m)
  {
  }

  /** Once main has forked everyone, only receiver j can hold the read end of its pipe. */
  lemma ReaderHeld(c: Config, s: State, g: nat, j: nat)
    requires Inv(c, s) && !SettingUp(s.main) && g < c.groups && j < c.fds && SomeoneHolds(s, Rd(g, j))
    ensures Recv(g, j) in s.workers && Alive(s.workers[Recv(g, j)])
  {
    hide Barrier, Flow;
    HeldByMain(c, s.main, g, j);
    var id :| id in s.workers && Rd(g, j) in s.workers[id].ends;
    OkWorker(c, s, id);
    HeldByWorker(c, g, j, id, s.workers[id].pc);
  }

  /** And only the group's senders and its later receivers the write end, or receiver j before its first call. */
  lemma WriterHeld(c: Config, s: State, g: nat, j: nat) returns (id: Id)
    requires Inv(c, s) && !SettingUp(s.main) && g < c.groups && j < c.fds && SomeoneHolds(s, Wr(g, j))
    ensures id in s.workers && Alive(s.workers[id]) && id.g == g
    ensures id.Send? || j < id.i || s.workers[id].pc == Entry
  {
    hide Barrier, Flow;
    HeldByMain(c, s.main, g, j);
    id :| id in s.workers && Wr(g, j) in s.workers[id].ends;
    OkWorker(c, s, id);
    HeldByWorker(c, g, j, id, s.workers[id].pc);
  }

  // ----- it holds at the start

  lemma InitialFlow(c: Config, g: nat, j: nat)
    requires g < c.groups && j < c.fds
    ensures Sent(c, Initial(c).workers, g, j) == 0
  {
    var f := SentFn(c, Initial(c).workers, g, j);
    SumAtMost(f, c.fds, 0);
  }

  lemma InitialInv(c: Config)
    requires c.Sane()
    ensures Inv(c, Initial(c))
  {
    var s := Initial(c);
    assert PcSet(s.workers, Forked()) == {} && PcSet(s.workers, Announced()) == {} && PcSet(s.workers, {Reaped}) == {};
    forall g: nat, j: nat | (g, j) in s.pipes ensures PipeOk(c, s, g, j) {
      InitialFlow(c, g, j);
    }
  }

  // ----- every action keeps it

  lemma PcSetUpdate(m: map<Id, Worker>, id: Id, w: Worker, pcs: set<Pc>)
    requires id in m
    ensures |PcSet(m[id := w], pcs)| ==
      |PcSet(m, pcs)| + (if w.pc in pcs then 1 else 0) - (if m[id].pc in pcs then 1 else 0)
  {
    var before, after := PcSet(m, pcs), PcSet(m[id := w], pcs);
    assert after == if w.pc in pcs then before + {id} else before - {id};
  }

  lemma SetupShape(c: Config, m: Main, ends: set<End>)
    requires c.Sane() && SettingUp(m) && MainInRange(c, m) && ends == MainHolds(c, m)
    ensures MainInRange(c, SetupMain(c, m))
    ensures SetupEnds(m, ends) == MainHolds(c, SetupMain(c, m))
  {
    match m {
      case OpenPipe(g, k) =>
        assert WriteEnds(g, 0, k + 1) == WriteEnds(g, 0, k) + {Wr(g, k)};
      case ForkRecv(g, k) =>
      case CloseRd(g, k) =>
        assert MainHolds(c, m) - {Rd(g, k)} == Common() + WriteEnds(g, 0, k + 1);
      case ForkSend(g, k) =>
      case CloseWr(g, k) =>
        assert MainHolds(c, m) - {Wr(g, k)} == Common() + WriteEnds(g, k + 1, c.fds);
        assert Common() + WriteEnds(g, c.fds, c.fds) == Common();
        assert Common() + WriteEnds(g + 1, 0, 0) == Common();
    }
  }

  lemma ShapeStep(c: Config, s: State, a: Action)
    requires c.Sane() && Shape(c, s) && Enabled(c, s, a)
    ensures Shape(c, Next(c, s, a))
  {
    if a.Setup? {
      SetupShape(c, s.main, s.mainEnds);
    }
  }

  /** Only the fork of a worker changes whether it has been forked. */
  lemma BornStep(c: Config, m: Main, id: Id)
    requires c.Sane() && SettingUp(m) && MainInRange(c, m) && id in Ids(c)
    ensures Born(c, SetupMain(c, m), id) <==>
      Born(c, m, id) || (m.ForkRecv? && id == Recv(m.g, m.k)) || (m.ForkSend? && id == Send(m.g, m.k))
  {
  }

  lemma WorkersSetup(c: Config, s: State)
    requires c.Sane() && Shape(c, s) && Workers(c, s) && Enabled(c, s, Setup)
    ensures Workers(c, Next(c, s, Setup))
  {
    var t := Next(c, s, Setup);
    forall id | id in t.workers ensures WorkerOk(c, t.main, t.wake, id, t.workers[id]) {
      BornStep(c, s.main, id);
      assert WorkerOk(c, s.main, s.wake, id, s.workers[id]);
    }
  }

  /** The worker an action names stays in order. */
  lemma MoverOk(c: Config, s: State, a: Action)
    requires c.Sane() && Enabled(c, s, a) && !MainAction(a)
    requires a.Broken? ==> c.Short()
    requires WorkerOk(c, s.main, s.wake, a.id, s.workers[a.id])
    ensures WorkerOk(c, s.main, s.wake, a.id, Moved(c, s.workers[a.id], a))
  {
    var id, w := a.id, s.workers[a.id];
    if a.CloseOwn? {
      assert Holds(c, id, Entry) - {Wr(id.g, id.i)} == Holds(c, id, Announce);
    }
    hide WriteEnds, Born, SomeoneHolds;
  }

  /** Once the setup is over main's position no longer matters to a worker, and GO is not taken back. */
  lemma OkElsewhere(c: Config, m: Main, wake: nat, m': Main, wake': nat, id: Id, w: Worker)
    requires WorkerOk(c, m, wake, id, w) && wake <= wake' && (m == m' || (!SettingUp(m) && !SettingUp(m')))
    ensures WorkerOk(c, m', wake', id, w)
  {
  }

  lemma WorkersStep(c: Config, s: State, a: Action)
    requires c.Sane() && Shape(c, s) && Workers(c, s) && Enabled(c, s, a)
    requires a.Broken? ==> c.Short()
    ensures Workers(c, Next(c, s, a))
  {
    hide WorkerOk;
    var t := Next(c, s, a);
    if a.Setup? {
      WorkersSetup(c, s);
    } else {
      if !MainAction(a) {
        assert WorkerOk(c, s.main, s.wake, a.id, s.workers[a.id]);
        MoverOk(c, s, a);
      }
      forall id | id in t.workers ensures WorkerOk(c, t.main, t.wake, id, t.workers[id]) {
        assert WorkerOk(c, s.main, s.wake, id, s.workers[id]);
        OkElsewhere(c, s.main, s.wake, t.main, t.wake, id, t.workers[id]);
      }
    }
  }

  lemma ForkCounts(c: Config, s: State, id: Id, pc: Pc)
    requires Shape(c, s) && Workers(c, s) && id in Ids(c) && !Born(c, s.main, id) && pc in {Entry, Announce}
    ensures var t := s.workers[id := Worker(pc, s.mainEnds, 0, 0, 0)];
      && |PcSet(t, Forked())| == |PcSet(s.workers, Forked())| + 1
      && |PcSet(t, Announced())| == |PcSet(s.workers, Announced())|
      && |PcSet(t, {Reaped})| == |PcSet(s.workers, {Reaped})|
  {
    var w := Worker(pc, s.mainEnds, 0, 0, 0);
    assert WorkerOk(c, s.main, s.wake, id, s.workers[id]);
    PcSetUpdate(s.workers, id, w, Forked());
    PcSetUpdate(s.workers, id, w, Announced());
    PcSetUpdate(s.workers, id, w, {Reaped});
  }

  lemma BarrierNoFork(c: Config, s: State)
    requires c.Sane() && MainInRange(c, s.main) && Barrier(c, s) && Enabled(c, s, Setup)
    requires !s.main.ForkRecv? && !s.main.ForkSend?
    ensures Barrier(c, Next(c, s, Setup))
  {
    assert Next(c, s, Setup).workers == s.workers;
  }

  lemma BarrierSetup(c: Config, s: State)
    requires c.Sane() && Shape(c, s) && Workers(c, s) && Barrier(c, s) && Enabled(c, s, Setup)
    ensures Barrier(c, Next(c, s, Setup))
  {
    hide PcSet, Workers;
    if s.main.ForkRecv? {
      ForkCounts(c, s, Recv(s.main.g, s.main.k), Entry);
    } else if s.main.ForkSend? {
      ForkCounts(c, s, Send(s.main.g, s.main.k), Announce);
    } else {
      BarrierNoFork(c, s);
    }
  }

  lemma MoverCounts(c: Config, s: State, a: Action)
    requires Enabled(c, s, a) && !MainAction(a)
    ensures var t := Next(c, s, a);
      && |PcSet(t.workers, Forked())| == |PcSet(s.workers, Forked())|
      && |PcSet(t.workers, Announced())| == |PcSet(s.workers, Announced())| + (if a.SayReady? then 1 else 0)
      && |PcSet(t.workers, {Reaped})| == |PcSet(s.workers, {Reaped})| + (if a.WaitFor? then 1 else 0)
  {
    var w := Moved(c, s.workers[a.id], a);
    PcSetUpdate(s.workers, a.id, w, Forked());
    PcSetUpdate(s.workers, a.id, w, Announced());
    PcSetUpdate(s.workers, a.id, w, {Reaped});
  }

  lemma BarrierAfter(c: Config, s: State, a: Action)
    requires MainInRange(c, s.main) && Barrier(c, s) && Enabled(c, s, a) && !a.Setup?
    ensures Barrier(c, Next(c, s, a))
  {
    if MainAction(a) {
      assert Next(c, s, a).workers == s.workers;
    } else {
      MoverCounts(c, s, a);
    }
  }

  lemma BarrierStep(c: Config, s: State, a: Action)
    requires c.Sane() && Shape(c, s) && Workers(c, s) && Barrier(c, s) && Enabled(c, s, a)
    ensures Barrier(c, Next(c, s, a))
  {
    if a.Setup? {
      BarrierSetup(c, s);
    } else {
      BarrierAfter(c, s, a);
    }
  }

  /** One transfer moves exactly its bytes, and only on the pipe at hand. */
  lemma TransferBytes(c: Config, w: Worker, n: nat, j: nat)
    requires n <= c.size - w.done && w.j < c.fds && j < c.fds
    ensures SentTo(c, SendNext(c, w, n), j) == SentTo(c, w, j) + (if j == w.j then n else 0)
    ensures Taken(c, RecvNext(c, w, n)) == Taken(c, w) + n
  {
    assert (w.i + 1) * c.size == w.i * c.size + c.size;
  }

  lemma SentFrame(c: Config, m: map<Id, Worker>, t: map<Id, Worker>, g: nat, j: nat)
    requires forall i: nat | i < c.fds :: SentTo(c, Get(t, Send(g, i)), j) == SentTo(c, Get(m, Send(g, i)), j)
    ensures Sent(c, t, g, j) == Sent(c, m, g, j)
  {
    SumSame(SentFn(c, t, g, j), SentFn(c, m, g, j), c.fds);
  }

  lemma SentMove(c: Config, m: map<Id, Worker>, g: nat, p: nat, w: Worker, j: nat)
    requires p < c.fds && Send(g, p) in m
    ensures Sent(c, m[Send(g, p) := w], g, j) == Sent(c, m, g, j) + SentTo(c, w, j) - SentTo(c, m[Send(g, p)], j)
  {
    var f, h := SentFn(c, m, g, j), SentFn(c, m[Send(g, p) := w], g, j);
    SumPoint(f, h, c.fds, p);
  }

  /** A write adds its bytes to what was sent to its pipe, and to no other. */
  lemma SentWrite(c: Config, s: State, a: Action, g: nat, j: nat)
    requires c.Sane() && Shape(c, s) && Workers(c, s) && Enabled(c, s, a) && a.Write? && j < c.fds
    ensures Sent(c, Next(c, s, a).workers, g, j) ==
      Sent(c, s.workers, g, j) + if PipeOf(a.id, s.workers[a.id]) == (g, j) then a.n else 0
  {
    var t, id, w := Next(c, s, a), a.id, s.workers[a.id];
    assert WorkerOk(c, s.main, s.wake, id, w);
    TransferBytes(c, w, a.n, j);
    if id.g == g {
      SentMove(c, s.workers, g, id.i, SendNext(c, w, a.n), j);
    } else {
      SentFrame(c, s.workers, t.workers, g, j);
    }
  }

  lemma FlowWrite(c: Config, s: State, a: Action, g: nat, j: nat)
    requires c.Sane() && Shape(c, s) && Workers(c, s) && Enabled(c, s, a) && a.Write?
    requires (g, j) in s.pipes && PipeOk(c, s, g, j)
    ensures PipeOk(c, Next(c, s, a), g, j)
  {
    SentWrite(c, s, a, g, j);
    hide Sent, Workers;
  }

  /** Everything but a write leaves every sender's byte counts alone. */
  lemma SentKept(c: Config, s: State, a: Action, g: nat, i: nat, j: nat)
    requires c.Sane() && Shape(c, s) && Workers(c, s) && Enabled(c, s, a) && !a.Write?
    requires g < c.groups && i < c.fds
    ensures SentTo(c, Get(Next(c, s, a).workers, Send(g, i)), j) == SentTo(c, Get(s.workers, Send(g, i)), j)
  {
    assert WorkerOk(c, s.main, s.wake, Send(g, i), s.workers[Send(g, i)]);
    if a.Setup? {
    } else if MainAction(a) {
    } else if a.id == Send(g, i) {
    }
  }

  lemma TakenChange(c: Config, s: State, a: Action, g: nat, j: nat)
    requires c.Sane() && Shape(c, s) && Workers(c, s) && Enabled(c, s, a)
    requires g < c.groups && j < c.fds
    ensures Taken(c, Get(Next(c, s, a).workers, Recv(g, j))) ==
      Taken(c, Get(s.workers, Recv(g, j))) + (if a.Read? && a.id == Recv(g, j) then a.n else 0)
  {
    assert WorkerOk(c, s.main, s.wake, Recv(g, j), s.workers[Recv(g, j)]);
    if a.Setup? {
    } else if MainAction(a) {
    } else if a.id == Recv(g, j) && a.Read? {
      TransferBytes(c, s.workers[a.id], a.n, 0);
    }
  }

  lemma SentElse(c: Config, s: State, a: Action, g: nat, j: nat)
    requires c.Sane() && Shape(c, s) && Workers(c, s) && Enabled(c, s, a) && !a.Write? && g < c.groups
    ensures Sent(c, Next(c, s, a).workers, g, j) == Sent(c, s.workers, g, j)
  {
    var t := Next(c, s, a);
    forall i: nat | i < c.fds
      ensures SentTo(c, Get(t.workers, Send(g, i)), j) == SentTo(c, Get(s.workers, Send(g, i)), j)
    {
      SentKept(c, s, a, g, i, j);
    }
    SentFrame(c, s.workers, t.workers, g, j);
  }

  lemma FlowElse(c: Config, s: State, a: Action, g: nat, j: nat)
    requires c.Sane() && Shape(c, s) && Workers(c, s) && Enabled(c, s, a) && !a.Write?
    requires (g, j) in s.pipes && PipeOk(c, s, g, j)
    ensures PipeOk(c, Next(c, s, a), g, j)
  {
    SentElse(c, s, a, g, j);
    TakenChange(c, s, a, g, j);
  }

  lemma FlowStep(c: Config, s: State, a: Action)
    requires c.Sane() && Inv(c, s) && Enabled(c, s, a)
    ensures Flow(c, Next(c, s, a))
  {
    var t := Next(c, s, a);
    forall g: nat, j: nat | (g, j) in t.pipes ensures PipeOk(c, t, g, j) {
      assert PipeOk(c, s, g, j);
      if a.Write? {
        FlowWrite(c, s, a, g, j);
      } else {
        FlowElse(c, s, a, g, j);
      }
    }
  }

  lemma {:induction false} InvStep(c: Config, s: State, a: Action)
    requires c.Sane() && Inv(c, s) && Enabled(c, s, a)
    requires a.Broken? ==> c.Short()
    ensures Inv(c, Next(c, s, a))
  {
    ShapeStep(c, s, a);
    WorkersStep(c, s, a);
    BarrierStep(c, s, a);
    FlowStep(c, s, a);
  }
}
