/**
 A whole run of hackbench as a transition system: main forks the groups, the
 workers report ready, main wakes them, the data moves, the workers exit and
 main reaps them. One action is one system call of one process (or one clock
 reading), taken in any interleaving.

 Failures of fork, pipe and malloc and signals to main are not part of this
 machine; they are the subject of Lifecycle.dfy and GroupSetup.dfy.
 */
module Hackbench {

  /** Values a C `unsigned int` can take. */
  const WORD: nat := 0x1_0000_0000

  /**
   The command line and the kernel's choices. `packets` is what main stores in
   each receiver's context; `room(g, j)` is the capacity of a data pipe.
   */
  datatype Config = Config(
    groups: nat, fds: nat, loops: nat, size: nat, packets: nat,
    readyRoom: nat, room: (nat, nat) -> nat)
  {
    ghost predicate Sane() {
      && groups >= 1 && fds >= 1 && loops >= 1 && size >= 1 && readyRoom >= 1
      && forall g: nat, j: nat :: room(g, j) >= 1
    }

    /** The receivers' quota is the senders' total. */
    predicate Exact() {
      packets == fds * loops
    }

    /** And a receiver's 32-bit counter can reach it. */
    predicate Balanced() {
      Exact() && packets < WORD
    }

    /** A receiver can never meet its quota: there is not that much, or its counter does not get there. */
    predicate Starving() {
      packets > fds * loops || packets >= WORD
    }

    /** A receiver can meet its quota, and leave, before the senders are done. */
    predicate Short() {
      packets < fds * loops && packets < WORD
    }
  }

  datatype Id = Recv(g: nat, i: nat) | Send(g: nat, i: nat)

  /** The two ends of data pipe j of group g, and the four ends every process shares. */
  datatype End = Rd(g: nat, j: nat) | Wr(g: nat, j: nat) | ReadyRd | ReadyWr | WakeRd | WakeWr

  /** Where a worker is: not forked, closing its copy of the write end, reporting, polling, pumping data. */
  datatype Pc = Unborn | Entry | Announce | Await | Work | Exited | Reaped

  /**
   A sender has finished `i` rounds and, in this round, `j` messages and `done`
   bytes of the next one. A receiver has finished `i` messages (its C counter is
   `i` modulo 2^32) and `done` bytes of the next one.
   */
  datatype Worker = Worker(pc: Pc, ends: set<End>, i: nat, j: nat, done: nat)

  datatype Main =
    | OpenPipe(g: nat, k: nat) | ForkRecv(g: nat, k: nat) | CloseRd(g: nat, k: nat)
    | ForkSend(g: nat, k: nat) | CloseWr(g: nat, k: nat)
    | Collect(n: nat) | Wake | Reap(n: nat) | Finished

  datatype State = State(
    main: Main, mainEnds: set<End>, total: nat, stamped: bool,
    workers: map<Id, Worker>, pipes: map<(nat, nat), nat>, ready: nat, wake: nat)

  datatype Action =
    | Setup | ReadReady | Stamp | Go | WaitFor(id: Id) | Finish
    | CloseOwn(id: Id) | SayReady(id: Id) | PassPoll(id: Id)
    | Write(id: Id, n: nat) | Broken(id: Id)
    | Read(id: Id, n: nat) | Eof(id: Id)
    | Exit(id: Id)

  /** Workers in the first g groups: where group g starts in the child table. */
  function Offset(fds: nat, g: nat): nat {
    if g == 0 then 0 else Offset(fds, g - 1) + 2 * fds
  }

  lemma {:induction false} OffsetIs(fds: nat, g: nat)
    ensures Offset(fds, g) == 2 * fds * g
  {
    if g > 0 {
      OffsetIs(fds, g - 1);
      assert 2 * fds * g == 2 * fds * (g - 1) + 2 * fds;
    }
  }

  /** What `group` reports when n workers were started: all of them, or one fewer. */
  function Reported(n: nat, fds: nat): nat {
    if n == 2 * fds || n == 0 then n else n - 1
  }

  // ----- the processes and pipes of a configuration

  function Ids(c: Config): set<Id> {
    (set g, i | 0 <= g < c.groups && 0 <= i < c.fds :: Recv(g, i)) +
    (set g, i | 0 <= g < c.groups && 0 <= i < c.fds :: Send(g, i))
  }

  function PipeIds(c: Config): set<(nat, nat)> {
    set g: nat, j: nat | 0 <= g < c.groups && 0 <= j < c.fds :: (g, j)
  }

  function Common(): set<End> {
    {ReadyRd, ReadyWr, WakeRd, WakeWr}
  }

  function Initial(c: Config): State {
    State(OpenPipe(0, 0), Common(), 0, false,
          map id | id in Ids(c) :: Worker(Unborn, {}, 0, 0, 0),
          map p | p in PipeIds(c) :: 0,
          0, 0)
  }

  // ----- descriptors that are still open somewhere

  predicate SomeoneHolds(s: State, e: End) {
    e in s.mainEnds || exists id :: id in s.workers && e in s.workers[id].ends
  }

  // ----- the loops of sender and receiver, one transfer at a time

  /** The receiver's loop variable is a C `unsigned int`; its bound is 64 bits wide. */
  function Counter(w: Worker): nat {
    w.i % WORD
  }

  function SendNext(c: Config, w: Worker, n: nat): Worker {
    if w.done + n < c.size then w.(done := w.done + n)
    else if w.j + 1 < c.fds then w.(j := w.j + 1, done := 0)
    else w.(i := w.i + 1, j := 0, done := 0)
  }

  function RecvNext(c: Config, w: Worker, n: nat): Worker {
    if w.done + n < c.size then w.(done := w.done + n)
    else w.(i := w.i + 1, done := 0)
  }

  predicate SettingUp(m: Main) {
    m.OpenPipe? || m.ForkRecv? || m.CloseRd? || m.ForkSend? || m.CloseWr?
  }

  // ----- which actions are possible, and what they do

  predicate Sending(c: Config, s: State, id: Id) {
    && id.Send? && id in s.workers && s.workers[id].pc == Work
    && s.workers[id].i < c.loops
    && Wr(id.g, s.workers[id].j) in s.workers[id].ends
    && (id.g, s.workers[id].j) in s.pipes
  }

  predicate Receiving(c: Config, s: State, id: Id) {
    && id.Recv? && id in s.workers && s.workers[id].pc == Work
    && Counter(s.workers[id]) < c.packets
    && Rd(id.g, id.i) in s.workers[id].ends
    && (id.g, id.i) in s.pipes
  }

  predicate At(s: State, id: Id, pc: Pc) {
    id in s.workers && s.workers[id].pc == pc
  }

  /**
   A write moves some bytes into a pipe that has room and a reader, and is fatal
   (SIGPIPE) when no reader is left. A read moves some bytes out, and returns 0
   only when the pipe is empty and no writer is left; otherwise it blocks.
   */
  predicate Enabled(c: Config, s: State, a: Action) {
    match a
    case Setup => SettingUp(s.main)
    case ReadReady => s.main.Collect? && s.main.n < s.total && s.ready > 0
    case Stamp => s.main.Collect? && s.main.n == s.total
    case Go => s.main.Wake?
    case WaitFor(id) => s.main.Reap? && s.main.n < s.total && At(s, id, Exited)
    case Finish => s.main.Reap? && s.main.n == s.total
    case CloseOwn(id) => id.Recv? && At(s, id, Entry)
    case SayReady(id) => At(s, id, Announce) && ReadyWr in s.workers[id].ends && s.ready < c.readyRoom
    case PassPoll(id) => At(s, id, Await) && WakeRd in s.workers[id].ends && s.wake > 0
    case Write(id, n) =>
      && Sending(c, s, id)
      && SomeoneHolds(s, Rd(id.g, s.workers[id].j))
      && 1 <= n <= c.size - s.workers[id].done
      && s.pipes[(id.g, s.workers[id].j)] + n <= c.room(id.g, s.workers[id].j)
    case Broken(id) =>
      && Sending(c, s, id)
      && !SomeoneHolds(s, Rd(id.g, s.workers[id].j))
    case Read(id, n) =>
      && Receiving(c, s, id)
      && 1 <= n <= c.size - s.workers[id].done
      && n <= s.pipes[(id.g, id.i)]
    case Eof(id) =>
      && Receiving(c, s, id)
      && s.pipes[(id.g, id.i)] == 0
      && !SomeoneHolds(s, Wr(id.g, id.i))
    case Exit(id) =>
      && At(s, id, Work)
      && (if id.Recv? then Counter(s.workers[id]) >= c.packets else s.workers[id].i >= c.loops)
  }

  /** Where main goes after one call of its setup loop, `group` inlined. */
  function SetupMain(c: Config, m: Main): Main
    requires SettingUp(m)
  {
    match m
    case OpenPipe(g, k) => ForkRecv(g, k)
    case ForkRecv(g, k) => CloseRd(g, k)
    case CloseRd(g, k) => if k + 1 < c.fds then OpenPipe(g, k + 1) else ForkSend(g, 0)
    case ForkSend(g, k) => if k + 1 < c.fds then ForkSend(g, k + 1) else CloseWr(g, 0)
    case CloseWr(g, k) =>
      if k + 1 < c.fds then CloseWr(g, k + 1) else if g + 1 < c.groups then OpenPipe(g + 1, 0) else Collect(0)
  }

  /** Main's descriptor table after that call. */
  function SetupEnds(m: Main, ends: set<End>): set<End>
    requires SettingUp(m)
  {
    match m
    case OpenPipe(g, k) => ends + {Rd(g, k), Wr(g, k)}
    case ForkRecv(g, k) => ends
    case CloseRd(g, k) => ends - {Rd(g, k)}
    case ForkSend(g, k) => ends
    case CloseWr(g, k) => ends - {Wr(g, k)}
  }

  /** The workers after that call: a fork copies main's descriptor table. */
  function SetupWorkers(m: Main, ends: set<End>, workers: map<Id, Worker>): map<Id, Worker>
    requires SettingUp(m)
  {
    match m
    case ForkRecv(g, k) => workers[Recv(g, k) := Worker(Entry, ends, 0, 0, 0)]
    case ForkSend(g, k) => workers[Send(g, k) := Worker(Announce, ends, 0, 0, 0)]
    case _ => workers
  }

  function SetupTotal(c: Config, m: Main, total: nat): nat {
    if m.CloseWr? && m.k + 1 == c.fds then total + 2 * c.fds else total
  }

  /** The actions of main alone; every other action has a worker `id`. */
  predicate MainAction(a: Action) {
    a.Setup? || a.ReadReady? || a.Stamp? || a.Go? || a.Finish?
  }

  /** What an action does to the worker it names. */
  function Moved(c: Config, w: Worker, a: Action): Worker
    requires !MainAction(a)
  {
    match a
    case WaitFor(_) => w.(pc := Reaped)
    case CloseOwn(id) => w.(pc := Announce, ends := w.ends - {Wr(id.g, id.i)})
    case SayReady(_) => w.(pc := Await)
    case PassPoll(_) => w.(pc := Work)
    case Write(_, n) => SendNext(c, w, n)
    case Broken(_) => w.(pc := Exited, ends := {})
    case Read(_, n) => RecvNext(c, w, n)
    case Eof(_) => w
    case Exit(_) => w.(pc := Exited, ends := {})
  }

  /** The pipe a worker's next transfer concerns. */
  function PipeOf(id: Id, w: Worker): (nat, nat) {
    match id
    case Recv(g, i) => (g, i)
    case Send(g, i) => (g, w.j)
  }

  function PipesAfter(pipes: map<(nat, nat), nat>, p: (nat, nat), a: Action): map<(nat, nat), nat>
    requires a.Write? ==> p in pipes
    requires a.Read? ==> p in pipes && a.n <= pipes[p]
  {
    match a
    case Write(_, n) => pipes[p := pipes[p] + n]
    case Read(_, n) => pipes[p := pipes[p] - n]
    case _ => pipes
  }

  function MainAfter(m: Main, a: Action): Main
    requires a.WaitFor? ==> m.Reap?
  {
    match a
    case WaitFor(_) => Reap(m.n + 1)
    case _ => m
  }

  function Next(c: Config, s: State, a: Action): State
    requires Enabled(c, s, a)
  {
    if MainAction(a) then
      match a
      case Setup => s.(main := SetupMain(c, s.main), mainEnds := SetupEnds(s.main, s.mainEnds),
                       workers := SetupWorkers(s.main, s.mainEnds, s.workers), total := SetupTotal(c, s.main, s.total))
      case ReadReady => s.(main := Collect(s.main.n + 1), ready := s.ready - 1)
      case Stamp => s.(main := Wake, stamped := true)
      case Go => s.(main := Reap(0), wake := s.wake + 1)
      case Finish => s.(main := Finished)
    else
      var w := s.workers[a.id];
      s.(workers := s.workers[a.id := Moved(c, w, a)],
         main := MainAfter(s.main, a),
         ready := s.ready + (if a.SayReady? then 1 else 0),
         pipes := PipesAfter(s.pipes, PipeOf(a.id, w), a))
  }

  // ----- runs

  ghost predicate IsRun(c: Config, s: State, acts: seq<Action>)
    decreases |acts|
  {
    acts == [] || (Enabled(c, s, acts[0]) && IsRun(c, Next(c, s, acts[0]), acts[1..]))
  }

  ghost function After(c: Config, s: State, acts: seq<Action>): State
    requires IsRun(c, s, acts)
    decreases |acts|
  {
    if acts == [] then s else After(c, Next(c, s, acts[0]), acts[1..])
  }

  ghost predicate Reachable(c: Config, s: State) {
    exists acts :: IsRun(c, Initial(c), acts) && After(c, Initial(c), acts) == s
  }
}
