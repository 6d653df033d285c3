/**
 Ends of file and endless schedules in every configuration. The hard case is a
 short quota: a receiver that leaves early can have every sender killed, and the
 other receivers of its group then starve.
 */
module HackbenchStarved {
  import opened Sums
  import opened Hackbench
  import opened HackbenchInvariant
  import opened HackbenchProgress
  import opened HackbenchQuotas
  import opened HackbenchRuns

  /** Exactly when killed senders can leave a receiver without its quota. */
  predicate CanStarve(c: Config) {
    c.Short() && c.fds >= 2 && c.packets >= 1 && c.size >= 2
  }

  // ----- a killed sender has a receiver that has left

  predicate Gone(w: Worker) {
    w.pc in {Exited, Reaped}
  }

  /** A sender that left early was killed at a pipe whose receiver had left. */
  ghost predicate Killed(c: Config, s: State) {
    forall id :: id in s.workers && id.Send? && Gone(s.workers[id]) && s.workers[id].i < c.loops ==>
      Recv(id.g, s.workers[id].j) in s.workers && Gone(s.workers[Recv(id.g, s.workers[id].j)])
  }

  /** Whoever is gone stays gone. */
  lemma GoneStays(c: Config, s: State, a: Action, id: Id)
    requires Inv(c, s) && Enabled(c, s, a) && id in s.workers && Gone(s.workers[id])
    ensures id in Next(c, s, a).workers && Gone(Next(c, s, a).workers[id])
  {
    OkWorker(c, s, id);
    hide Workers, Flow, Shape;
  }

  /** A sender is killed only when the receiver is gone. */
  lemma BrokenReader(c: Config, s: State, id: Id)
    requires id in s.workers && Inv(c, s) && Enabled(c, s, Broken(id))
    ensures Recv(id.g, s.workers[id].j) in s.workers && Gone(s.workers[Recv(id.g, s.workers[id].j)])
  {
    hide Inv;
    var j := s.workers[id].j;
    OkWorker(c, s, id);
    AtWork(c, s, id);
    OkPipe(c, s, id.g, j);
    OkWorker(c, s, Recv(id.g, j));
    Awake(c, s, Recv(id.g, j));
    HeldByWorker(c, id.g, j, Recv(id.g, j), s.workers[Recv(id.g, j)].pc);
  }

  /** What happens to a sender in a step: it only ends by its own doing, and only a write moves it on. */
  predicate SenderAfter(c: Config, a: Action, id: Id, w: Worker, w': Worker) {
    && w'.i == w.i && w'.j == w.j && w'.done == w.done
    && (Gone(w') && !Gone(w) ==> a == Broken(id) || (a == Exit(id) && w.i >= c.loops))
  }

  /** An action of a worker changes that worker and no other. */
  lemma OneMoves(c: Config, s: State, a: Action)
    requires Enabled(c, s, a) && !MainAction(a)
    ensures a.id in s.workers && Next(c, s, a).workers == s.workers[a.id := Moved(c, s.workers[a.id], a)]
  {
    hide SomeoneHolds, Moved;
  }

  lemma SenderOwnStep(c: Config, s: State, a: Action)
    requires Enabled(c, s, a) && !MainAction(a) && a.id.Send? && !a.Write?
    ensures SenderAfter(c, a, a.id, s.workers[a.id], Moved(c, s.workers[a.id], a))
  {
    hide SomeoneHolds;
  }

  lemma SenderMainStep(c: Config, s: State, a: Action, id: Id)
    requires Enabled(c, s, a) && MainAction(a) && id.Send? && id in s.workers
    requires WorkerOk(c, s.main, s.wake, id, s.workers[id])
    ensures id in Next(c, s, a).workers && SenderAfter(c, a, id, s.workers[id], Next(c, s, a).workers[id])
  {
    hide Holds, RecvOk, SendOk;
  }

  lemma SenderStep(c: Config, s: State, a: Action, id: Id)
    requires Inv(c, s) && Enabled(c, s, a) && id.Send? && id in s.workers && !(a.Write? && a.id == id)
    ensures id in Next(c, s, a).workers && SenderAfter(c, a, id, s.workers[id], Next(c, s, a).workers[id])
  {
    hide Inv, WorkerOk, Enabled, Next, Moved;
    OkWorker(c, s, id);
    if MainAction(a) {
      SenderMainStep(c, s, a, id);
    } else {
      OneMoves(c, s, a);
      if a.id == id {
        SenderOwnStep(c, s, a);
      }
    }
  }

  lemma SameWorkers(c: Config, s: State, a: Action)
    requires Inv(c, s) && Enabled(c, s, a)
    ensures Next(c, s, a).workers.Keys == s.workers.Keys
  {
    hide Workers, Barrier, Flow;
  }

  lemma WriterStays(c: Config, s: State, a: Action)
    requires Enabled(c, s, a) && a.Write?
    ensures !Gone(Next(c, s, a).workers[a.id])
  {
  }

  lemma KilledNow(c: Config, s: State, a: Action, id: Id)
    requires Inv(c, s) && Killed(c, s) && Enabled(c, s, a)
    requires var t := Next(c, s, a); id in t.workers && id.Send? && Gone(t.workers[id]) && t.workers[id].i < c.loops
    ensures var t := Next(c, s, a);
      Recv(id.g, t.workers[id].j) in t.workers && Gone(t.workers[Recv(id.g, t.workers[id].j)])
  {
    hide Inv, Next;
    SameWorkers(c, s, a);
    if a.Write? && a.id == id {
      WriterStays(c, s, a);
      assert false;
    } else {
      SenderStep(c, s, a, id);
      hide Enabled;
      if !Gone(s.workers[id]) {
        BrokenReader(c, s, id);
      }
      GoneStays(c, s, a, Recv(id.g, s.workers[id].j));
    }
  }

  lemma KilledFor(c: Config, t: State)
    requires forall id :: id in t.workers && id.Send? && Gone(t.workers[id]) && t.workers[id].i < c.loops ==>
      Recv(id.g, t.workers[id].j) in t.workers && Gone(t.workers[Recv(id.g, t.workers[id].j)])
    ensures Killed(c, t)
  {
  }

  lemma KilledStep(c: Config, s: State, a: Action)
    requires Inv(c, s) && Killed(c, s) && Enabled(c, s, a)
    ensures Killed(c, Next(c, s, a))
  {
    hide Inv, Killed, Next, Enabled;
    var t := Next(c, s, a);
    forall id | id in t.workers && id.Send? && Gone(t.workers[id]) && t.workers[id].i < c.loops
      ensures Recv(id.g, t.workers[id].j) in t.workers && Gone(t.workers[Recv(id.g, t.workers[id].j)])
    {
      KilledNow(c, s, a, id);
    }
    KilledFor(c, t);
  }

  lemma {:induction false} RunKilled(c: Config, s: State, acts: seq<Action>)
    requires c.Sane() && Inv(c, s) && Killed(c, s) && IsRun(c, s, acts)
    ensures Killed(c, After(c, s, acts))
    decreases |acts|
  {
    hide Inv, Killed, Enabled, Next, Left;
    if acts != [] {
      EffectiveStep(c, s, acts[0]);
      KilledStep(c, s, acts[0]);
      RunKilled(c, Next(c, s, acts[0]), acts[1..]);
    }
  }

  lemma ReachableKilled(c: Config, s: State)
    requires c.Sane() && Reachable(c, s)
    ensures Killed(c, s)
  {
    var acts :| IsRun(c, Initial(c), acts) && After(c, Initial(c), acts) == s;
    InitialInv(c);
    assert Killed(c, Initial(c));
    RunKilled(c, Initial(c), acts);
  }

  // ----- when nobody can starve

  /** At an end of file all senders of the group are gone. */
  lemma WritersGone(c: Config, s: State, id: Id, i: nat)
    requires Inv(c, s) && Enabled(c, s, Eof(id)) && i < c.fds
    ensures Send(id.g, i) in s.workers && Gone(s.workers[Send(id.g, i)])
  {
    hide Inv;
    OkWorker(c, s, id);
    AtWork(c, s, id);
    OkWorker(c, s, Send(id.g, i));
    Awake(c, s, Send(id.g, i));
    HeldByWorker(c, id.g, id.i, Send(id.g, i), s.workers[Send(id.g, i)].pc);
  }

  /** A receiver at an end of file has been sent less than its quota. */
  lemma EofOwed(c: Config, s: State, id: Id)
    requires c.Sane() && c.packets < WORD && Inv(c, s) && Enabled(c, s, Eof(id))
    ensures id.g < c.groups && id.i < c.fds && Sent(c, s.workers, id.g, id.i) < c.packets * c.size
  {
    hide Inv, Sent;
    OkWorker(c, s, id);
    BehindOwes(c, s.workers[id]);
    OkPipe(c, s, id.g, id.i);
  }

  /** A receiver that is gone was sent its quota. */
  lemma GonePaid(c: Config, s: State, g: nat, j: nat)
    requires c.Sane() && c.packets < WORD && Inv(c, s) && g < c.groups && j < c.fds
    requires Recv(g, j) in s.workers && Gone(s.workers[Recv(g, j)])
    ensures Sent(c, s.workers, g, j) >= c.packets * c.size
  {
    hide Inv, Sent;
    OkWorker(c, s, Recv(g, j));
    OkPipe(c, s, g, j);
  }

  /** At an end of file under a short quota some sender was killed; this one at the highest pipe. */
  lemma LastKilled(c: Config, s: State, g: nat, n: nat) returns (x: nat)
    requires n <= c.fds && (forall i: nat | i < n :: Send(g, i) in s.workers)
    requires exists i: nat :: i < n && s.workers[Send(g, i)].i < c.loops
    ensures x < n && s.workers[Send(g, x)].i < c.loops
    ensures forall i: nat | i < n ::
      s.workers[Send(g, i)].i < c.loops ==> s.workers[Send(g, i)].j <= s.workers[Send(g, x)].j
    decreases n
  {
    var last: nat := n - 1;
    if exists i: nat :: i < last && s.workers[Send(g, i)].i < c.loops {
      x := LastKilled(c, s, g, last);
      if s.workers[Send(g, last)].i < c.loops && s.workers[Send(g, last)].j > s.workers[Send(g, x)].j {
        x := last;
      }
    } else {
      x := last;
    }
  }

  /** With one-byte messages no pipe before or after the highest broken one was sent less than it. */
  lemma OneByteSent(c: Config, w: Worker, top: nat, k: nat)
    requires c.size == 1 && SendOk(c, w) && w.done < c.size && (w.i < c.loops ==> w.j <= top)
    ensures SentTo(c, w, top) <= SentTo(c, w, k)
  {
  }

  lemma OneByteSums(c: Config, s: State, g: nat, top: nat, k: nat)
    requires c.Sane() && c.size == 1 && Inv(c, s) && g < c.groups
    requires forall i: nat | i < c.fds ::
      Send(g, i) in s.workers && (s.workers[Send(g, i)].i < c.loops ==> s.workers[Send(g, i)].j <= top)
    ensures Sent(c, s.workers, g, top) <= Sent(c, s.workers, g, k)
  {
    forall i: nat | i < c.fds ensures SentFn(c, s.workers, g, top)(i) <= SentFn(c, s.workers, g, k)(i) {
      OkWorker(c, s, Send(g, i));
      hide Inv;
      OneByteSent(c, s.workers[Send(g, i)], top, k);
    }
    SumBelow(SentFn(c, s.workers, g, top), SentFn(c, s.workers, g, k), c.fds);
  }

  /** An end of file under a short quota comes after some sender of the group was killed. */
  lemma EofKilled(c: Config, s: State, id: Id) returns (i: nat)
    requires c.Sane() && c.Short() && Inv(c, s) && Enabled(c, s, Eof(id))
    ensures i < c.fds && Send(id.g, i) in s.workers && Send(id.g, i) in Ids(c)
    ensures s.workers[Send(id.g, i)].i < c.loops && Gone(s.workers[Send(id.g, i)])
  {
    hide Inv, Enabled, Sent, Debt;
    EofOwed(c, s, id);
    DebtIs(c);
    i := Debtor(c, s, id.g, id.i);
    WritersGone(c, s, id, i);
  }

  /** With one-byte messages, if any sender was killed then every receiver of the group was sent its quota. */
  lemma OneByteSuffices(c: Config, s: State, id: Id, i: nat)
    requires c.Sane() && c.Short() && c.size == 1 && Inv(c, s) && Killed(c, s) && Enabled(c, s, Eof(id)) && id in Ids(c)
    requires i < c.fds && Send(id.g, i) in s.workers && s.workers[Send(id.g, i)].i < c.loops
    ensures Sent(c, s.workers, id.g, id.i) >= c.packets * c.size
  {
    OkGroup(c, s, id.g);
    var x := LastKilled(c, s, id.g, c.fds);
    var top := s.workers[Send(id.g, x)].j;
    WritersGone(c, s, id, x);
    OkWorker(c, s, Send(id.g, x));
    hide Inv, Enabled, Sent;
    GonePaid(c, s, id.g, top);
    OneByteSums(c, s, id.g, top, id.i);
  }

  lemma NobodyStarves(c: Config, s: State, id: Id)
    requires c.Sane() && c.Short() && !CanStarve(c) && Inv(c, s) && Killed(c, s)
    ensures !Enabled(c, s, Eof(id))
  {
    hide Inv;
    if Enabled(c, s, Eof(id)) {
      var i := EofKilled(c, s, id);
      OkWorker(c, s, id);
      OkWorker(c, s, Send(id.g, i));
      if c.fds > 1 {
        OneByteSuffices(c, s, id, i);
      }
      EofOwed(c, s, id);
      assert false;
    }
  }

  // ----- the run that starves a receiver: a plan for the first group's senders

  /** All but one round for the first two senders, all rounds for the others. */
  function Cap(c: Config): nat -> int {
    (x: nat) => if x < 2 then c.loops - 1 else c.loops
  }

  /** How many whole rounds sender x makes: one less than the quota in all. */
  ghost function Rounds(c: Config): nat -> int {
    (x: nat) =>
      var left := c.packets - 1 - Sum(Cap(c), x);
      if left <= 0 then 0 else if left < Cap(c)(x) then left else Cap(c)(x)
  }

  lemma RoundsBound(c: Config, x: nat)
    requires c.loops >= 1
    ensures 0 <= Rounds(c)(x) <= Cap(c)(x)
  {
    assert Cap(c)(x) == if x < 2 then c.loops - 1 else c.loops;
  }

  /** The bytes it then puts into pipe 0: one message in all, shared by the first two. */
  function Extra(c: Config): nat -> int {
    (x: nat) => if x == 0 then c.size - 1 else if x == 1 then 1 else 0
  }

  lemma {:induction false} SumCap(c: Config, n: nat)
    requires c.loops >= 1
    ensures Sum(Cap(c), n) == n * c.loops - if n < 2 then n else 2
  {
    if n > 0 {
      SumCap(c, n - 1);
      assert n * c.loops == (n - 1) * c.loops + c.loops;
    }
  }

  lemma {:induction false} SumRounds(c: Config, n: nat)
    requires c.loops >= 1 && c.packets >= 1
    ensures Sum(Rounds(c), n) == if Sum(Cap(c), n) < c.packets - 1 then Sum(Cap(c), n) else c.packets - 1
  {
    if n > 0 {
      SumRounds(c, n - 1);
    } else {
      assert Sum(Rounds(c), 0) == 0 && Sum(Cap(c), 0) == 0;
    }
  }

  lemma {:induction false} SumExtra(c: Config, n: nat)
    requires n >= 2
    ensures Sum(Extra(c), n) == c.size
    decreases n
  {
    if n == 2 {
      assert Sum(Extra(c), 1) == Sum(Extra(c), 0) + Extra(c)(0);
    } else {
      SumExtra(c, n - 1);
    }
  }

  /** What sender x will have put into a pipe at the end of its plan. */
  ghost function Planned(c: Config, j: nat): nat -> int {
    (x: nat) => Rounds(c)(x) * c.size + if j == 0 then Extra(c)(x) else 0
  }

  lemma {:induction false} SumPlanned(c: Config, j: nat, n: nat)
    ensures Sum(Planned(c, j), n) == Sum(Rounds(c), n) * c.size + if j == 0 then Sum(Extra(c), n) else 0
  {
    if n > 0 {
      SumPlanned(c, j, n - 1);
      var a, b := Sum(Rounds(c), n - 1), Rounds(c)(n - 1);
      assert Sum(Rounds(c), n) == a + b;
      assert (a + b) * c.size == a * c.size + b * c.size;
    }
  }

  /** By plan pipe 0 gets exactly its receiver's quota, and every other pipe a message less. */
  lemma PlanTotals(c: Config, j: nat)
    requires c.Sane() && CanStarve(c)
    ensures Sum(Planned(c, j), c.fds) == (c.packets - 1) * c.size + if j == 0 then c.size else 0
  {
    SumPlanned(c, j, c.fds);
    SumRounds(c, c.fds);
    SumCap(c, c.fds);
    SumExtra(c, c.fds);
  }

  /** Where a sender that keeps to the plan can be. */
  ghost predicate InPlan(c: Config, x: nat, w: Worker) {
    w.i < Rounds(c)(x) || (w.i == Rounds(c)(x) && w.j == 0 && w.done <= Extra(c)(x))
  }

  ghost predicate AtLimit(c: Config, x: nat, w: Worker) {
    w.i == Rounds(c)(x) && w.j == 0 && w.done == Extra(c)(x)
  }

  ghost predicate OnPlan(c: Config, s: State) {
    forall x: nat | x < c.fds :: Send(0, x) in s.workers && InPlan(c, x, s.workers[Send(0, x)])
  }

  lemma ExtraSmall(c: Config, x: nat)
    requires c.size >= 1
    ensures Extra(c)(x) >= 0
  {
  }

  lemma InPlanSent(c: Config, x: nat, w: Worker, j: nat)
    requires c.Sane() && SendOk(c, w) && w.done < c.size && InPlan(c, x, w)
    ensures SentTo(c, w, j) <= Planned(c, j)(x)
    ensures SentTo(c, w, 0) == Planned(c, 0)(x) && w.j == 0 ==> AtLimit(c, x, w)
    ensures AtLimit(c, x, w) ==> SentTo(c, w, 0) == Planned(c, 0)(x)
  {
    hide Rounds, Extra;
    MulLess(w.i, Rounds(c)(x), c.size);
    assert w.i < Rounds(c)(x) ==> (w.i + 1) * c.size <= Rounds(c)(x) * c.size by {
      MulLess(w.i + 1, Rounds(c)(x), c.size);
    }
    ExtraSmall(c, x);
  }

  lemma InPlanSends(c: Config, s: State, x: nat, j: nat)
    requires c.Sane() && Inv(c, s) && OnPlan(c, s) && x < c.fds
    ensures SentFn(c, s.workers, 0, j)(x) <= Planned(c, j)(x)
  {
    OkWorker(c, s, Send(0, x));
    hide Inv, Planned;
    InPlanSent(c, x, s.workers[Send(0, x)], j);
  }

  /** On plan no pipe is sent more than planned. */
  lemma PlanSent(c: Config, s: State, j: nat)
    requires c.Sane() && CanStarve(c) && Inv(c, s) && OnPlan(c, s) && j < c.fds
    ensures Sent(c, s.workers, 0, j) <= (c.packets - 1) * c.size + if j == 0 then c.size else 0
    ensures Sent(c, s.workers, 0, j) == (c.packets - 1) * c.size + (if j == 0 then c.size else 0) ==>
      forall x: nat | x < c.fds :: SentFn(c, s.workers, 0, j)(x) == Planned(c, j)(x)
  {
    var f, h := SentFn(c, s.workers, 0, j), Planned(c, j);
    forall x: nat | x < c.fds ensures f(x) <= h(x) {
      InPlanSends(c, s, x, j);
    }
    SumBelow(f, h, c.fds);
    PlanTotals(c, j);
  }

  lemma BelowQuota(c: Config, w: Worker)
    requires c.Sane() && CanStarve(c) && RecvOk(c, w) && Taken(c, w) <= (c.packets - 1) * c.size
    ensures Counter(w) < c.packets && !Gone(w)
  {
    assert (c.packets - 1) * c.size < c.packets * c.size;
    MulLess(c.packets, w.i, c.size);
  }

  /** Only receiver 0 can meet its quota. */
  lemma OthersWait(c: Config, s: State, j: nat)
    requires c.Sane() && CanStarve(c) && Inv(c, s) && OnPlan(c, s) && 1 <= j < c.fds
    ensures Recv(0, j) in s.workers && Counter(s.workers[Recv(0, j)]) < c.packets && !Gone(s.workers[Recv(0, j)])
  {
    hide Inv, Sent, Taken, OnPlan, RecvOk, SendOk, Holds, Born, Counter;
    PlanSent(c, s, j);
    OkPipe(c, s, 0, j);
    OkWorker(c, s, Recv(0, j));
    BelowQuota(c, s.workers[Recv(0, j)]);
  }

  lemma LimitAt(c: Config, s: State, x: nat)
    requires c.Sane() && Inv(c, s) && OnPlan(c, s) && x < c.fds && s.workers[Send(0, x)].j == 0
    requires SentFn(c, s.workers, 0, 0)(x) == Planned(c, 0)(x)
    ensures AtLimit(c, x, s.workers[Send(0, x)])
  {
    OkWorker(c, s, Send(0, x));
    hide Inv, Planned;
    InPlanSent(c, x, s.workers[Send(0, x)], 0);
  }

  /** Once receiver 0 is gone, a sender at pipe 0 is at the end of its plan. */
  lemma GoneMeansLimit(c: Config, s: State, x: nat)
    requires c.Sane() && CanStarve(c) && Inv(c, s) && OnPlan(c, s) && x < c.fds
    requires Recv(0, 0) in s.workers && Gone(s.workers[Recv(0, 0)]) && s.workers[Send(0, x)].j == 0
    ensures AtLimit(c, x, s.workers[Send(0, x)])
  {
    hide Inv, Sent, OnPlan, InPlan, AtLimit, Planned;
    GonePaid(c, s, 0, 0);
    PlanSent(c, s, 0);
    assert (c.packets - 1) * c.size + c.size == c.packets * c.size;
    LimitAt(c, s, x);
  }

  // ----- keeping to the plan

  lemma PlanKept(c: Config, s: State, a: Action)
    requires Inv(c, s) && OnPlan(c, s) && Enabled(c, s, a) && !a.Write?
    ensures OnPlan(c, Next(c, s, a))
  {
    forall x: nat | x < c.fds
      ensures Send(0, x) in Next(c, s, a).workers && InPlan(c, x, Next(c, s, a).workers[Send(0, x)])
    {
      hide Inv, Enabled, Next, Rounds, Extra;
      SenderStep(c, s, a, Send(0, x));
    }
  }

  lemma InPlanWrite(c: Config, x: nat, w: Worker)
    requires c.Sane() && SendOk(c, w) && w.done < c.size && InPlan(c, x, w) && !AtLimit(c, x, w)
    requires CanStarve(c)
    ensures InPlan(c, x, SendNext(c, w, 1))
  {
    hide Rounds;
  }

  lemma WriteMoves(c: Config, w: Worker, x: nat)
    ensures Moved(c, w, Write(Send(0, x), 1)) == SendNext(c, w, 1)
  {
  }

  lemma PlanAt(c: Config, s: State, x: nat)
    requires OnPlan(c, s) && x < c.fds
    ensures Send(0, x) in s.workers && InPlan(c, x, s.workers[Send(0, x)])
  {
  }

  lemma PlanUpdate(c: Config, s: State, t: State, x: nat, w: Worker)
    requires OnPlan(c, s) && x < c.fds && t.workers == s.workers[Send(0, x) := w] && InPlan(c, x, w)
    ensures OnPlan(c, t)
  {
    hide InPlan;
  }

  lemma PlanWrite(c: Config, s: State, x: nat)
    requires c.Sane() && CanStarve(c) && Inv(c, s) && OnPlan(c, s) && x < c.fds
    requires !AtLimit(c, x, s.workers[Send(0, x)]) && Enabled(c, s, Write(Send(0, x), 1))
    ensures OnPlan(c, Next(c, s, Write(Send(0, x), 1)))
  {
    hide Inv, OnPlan, InPlan, AtLimit, Next, Moved;
    var a := Write(Send(0, x), 1);
    OkWorker(c, s, a.id);
    OneMoves(c, s, a);
    WriteMoves(c, s.workers[a.id], x);
    hide Enabled, WorkerOk;
    PlanAt(c, s, x);
    InPlanWrite(c, x, s.workers[a.id]);
    PlanUpdate(c, s, Next(c, s, a), x, SendNext(c, s.workers[a.id], 1));
  }

  // ----- the plan can always go on, until somebody starves

  /** Every worker of the first group is at work or gone, and what its receivers could read they have read. */
  ghost predicate Drained(c: Config, s: State) {
    && (forall x: nat | x < c.fds :: Send(0, x) in s.workers && s.workers[Send(0, x)].pc in {Work, Exited, Reaped})
    && (forall j: nat | j < c.fds ::
          && Recv(0, j) in s.workers && s.workers[Recv(0, j)].pc in {Work, Exited, Reaped} && (0, j) in s.pipes
          && (s.workers[Recv(0, j)].pc == Work ==> s.pipes[(0, j)] == 0))
  }

  lemma StillOwes(c: Config, x: nat, w: Worker)
    requires CanStarve(c) && c.loops >= 1 && InPlan(c, x, w) && !AtLimit(c, x, w)
    ensures w.i < c.loops
  {
    RoundsBound(c, x);
    hide Rounds;
  }

  /** A sender of the first group that is short of its plan can write a byte. */
  lemma WritesOn(c: Config, s: State, x: nat)
    requires c.Sane() && CanStarve(c) && Inv(c, s) && OnPlan(c, s) && Drained(c, s) && x < c.fds
    requires s.workers[Send(0, x)].pc == Work && !AtLimit(c, x, s.workers[Send(0, x)])
    ensures Enabled(c, s, Write(Send(0, x), 1))
  {
    hide Inv;
    var w := s.workers[Send(0, x)];
    OkWorker(c, s, Send(0, x));
    OkPipe(c, s, 0, w.j);
    StillOwes(c, x, w);
    hide InPlan, AtLimit, OnPlan;
    if Gone(s.workers[Recv(0, w.j)]) {
      if w.j == 0 {
        GoneMeansLimit(c, s, x);
      } else {
        OthersWait(c, s, w.j);
      }
      assert false;
    }
    OkWorker(c, s, Recv(0, w.j));
    HeldByWorker(c, 0, w.j, Recv(0, w.j), Work);
    assert SomeoneHolds(s, Rd(0, w.j));
  }

  lemma DoneAtLimit(c: Config, x: nat, w: Worker)
    requires CanStarve(c) && c.loops >= 1 && InPlan(c, x, w) && SendOk(c, w) && w.i == c.loops
    ensures AtLimit(c, x, w)
  {
    RoundsBound(c, x);
    hide Rounds;
  }

  lemma LimitSent(c: Config, s: State, x: nat)
    requires c.Sane() && CanStarve(c) && Inv(c, s) && Killed(c, s) && OnPlan(c, s) && Drained(c, s) && x < c.fds
    requires s.workers[Send(0, x)].pc == Work ==> AtLimit(c, x, s.workers[Send(0, x)])
    requires !Gone(s.workers[Recv(0, 0)])
    ensures SentFn(c, s.workers, 0, 0)(x) == Planned(c, 0)(x)
  {
    var w := s.workers[Send(0, x)];
    hide Inv, Planned, AtLimit, InPlan;
    OkWorker(c, s, Send(0, x));
    if Gone(w) {
      if w.i < c.loops && w.j > 0 {
        OthersWait(c, s, w.j);
      }
      assert w.i == c.loops;
      DoneAtLimit(c, x, w);
    }
    InPlanSent(c, x, w, 0);
  }

  /** When every sender that has not left is at the end of its plan, pipe 0 has been sent its receiver's quota. */
  lemma AllAtLimit(c: Config, s: State)
    requires c.Sane() && CanStarve(c) && Inv(c, s) && Killed(c, s) && OnPlan(c, s) && Drained(c, s)
    requires forall x: nat | x < c.fds :: s.workers[Send(0, x)].pc == Work ==> AtLimit(c, x, s.workers[Send(0, x)])
    ensures Sent(c, s.workers, 0, 0) == c.packets * c.size
  {
    hide Inv, Killed, OnPlan, AtLimit, SentFn, Planned;
    assert (c.packets - 1) * c.size + c.size == c.packets * c.size;
    if Gone(s.workers[Recv(0, 0)]) {
      hide Sent;
      PlanSent(c, s, 0);
      GonePaid(c, s, 0, 0);
    } else {
      var f, h := SentFn(c, s.workers, 0, 0), Planned(c, 0);
      forall x: nat | x < c.fds ensures f(x) == h(x) {
        LimitSent(c, s, x);
      }
      SumBelow(f, h, c.fds);
      PlanTotals(c, 0);
    }
  }

  lemma QuotaMet(c: Config, w: Worker)
    requires c.Sane() && c.packets < WORD && RecvOk(c, w) && w.done < c.size && Taken(c, w) == c.packets * c.size
    ensures Counter(w) >= c.packets
  {
    if Counter(w) < c.packets {
      BehindOwes(c, w);
      assert false;
    }
  }

  /** Then receiver 0 leaves, or the senders that are left leave or are killed. */
  lemma LimitMoves(c: Config, s: State, x: nat) returns (a: Action)
    requires c.Sane() && CanStarve(c) && Inv(c, s) && Killed(c, s) && OnPlan(c, s) && Drained(c, s)
    requires forall y: nat | y < c.fds :: s.workers[Send(0, y)].pc == Work ==> AtLimit(c, y, s.workers[Send(0, y)])
    requires x < c.fds && s.workers[Send(0, x)].pc == Work
    ensures Enabled(c, s, a) && !a.Write? && !a.Eof?
  {
    hide Inv, Sent;
    AllAtLimit(c, s);
    OkPipe(c, s, 0, 0);
    OkWorker(c, s, Recv(0, 0));
    OkWorker(c, s, Send(0, x));
    AtWork(c, s, Send(0, x));
    assert s.workers[Send(0, x)].j == 0;
    hide Killed, OnPlan, AtLimit;
    if s.workers[Send(0, x)].i >= c.loops {
      a := Exit(Send(0, x));
    } else if Gone(s.workers[Recv(0, 0)]) {
      if SomeoneHolds(s, Rd(0, 0)) {
        ReaderHeld(c, s, 0, 0);
        assert false;
      }
      a := Broken(Send(0, x));
    } else {
      QuotaMet(c, s.workers[Recv(0, 0)]);
      a := Exit(Recv(0, 0));
    }
  }

  /** With all senders of the first group gone, its last receiver reads 0. */
  lemma LastStarves(c: Config, s: State)
    requires c.Sane() && CanStarve(c) && Inv(c, s) && OnPlan(c, s) && Drained(c, s) && !SettingUp(s.main) && s.wake > 0
    requires forall x: nat | x < c.fds :: Gone(s.workers[Send(0, x)])
    ensures Enabled(c, s, Eof(Recv(0, c.fds - 1)))
  {
    hide Inv;
    var r := Recv(0, c.fds - 1);
    OthersWait(c, s, r.i);
    hide OnPlan;
    OkWorker(c, s, r);
    HeldByWorker(c, 0, r.i, r, Work);
    if SomeoneHolds(s, Wr(0, r.i)) {
      var h := WriterHeld(c, s, 0, r.i);
      OkWorker(c, s, h);
      Awake(c, s, h);
      assert false;
    }
  }

  lemma NotDrained(c: Config, s: State) returns (a: Action)
    requires c.Sane() && Inv(c, s) && s.wake > 0 && !Drained(c, s)
    ensures Enabled(c, s, a) && !a.Write? && !a.Eof?
  {
    hide Inv;
    OkGroup(c, s, 0);
    if x: nat :| x < c.fds && s.workers[Send(0, x)].pc !in {Work, Exited, Reaped} {
      AwakeMoves(c, s, Send(0, x));
      a := PassPoll(Send(0, x));
    } else {
      forall j: nat | j < c.fds ensures Recv(0, j) in s.workers && (0, j) in s.pipes {
        OkPipe(c, s, 0, j);
      }
      var j: nat :| j < c.fds && !(s.workers[Recv(0, j)].pc in {Work, Exited, Reaped}
                    && (s.workers[Recv(0, j)].pc == Work ==> s.pipes[(0, j)] == 0));
      AwakeMoves(c, s, Recv(0, j));
      if s.workers[Recv(0, j)].pc == Await {
        a := PassPoll(Recv(0, j));
      } else {
        OkWorker(c, s, Recv(0, j));
        a := ReaderMoves(c, s, Recv(0, j));
        if a.Write? {
          assert false;
        }
      }
    }
  }

  lemma PlanNotFinished(c: Config, s: State)
    requires c.Sane() && CanStarve(c) && Inv(c, s) && OnPlan(c, s)
    ensures !s.main.Finished?
  {
    hide Inv, OnPlan;
    OthersWait(c, s, 1);
    OkWorker(c, s, Recv(0, 1));
    NotAllReaped(c, s, Recv(0, 1));
  }

  lemma PlanReap(c: Config, s: State) returns (a: Action)
    requires c.Sane() && CanStarve(c) && Inv(c, s) && Killed(c, s) && OnPlan(c, s) && s.main.Reap? && s.wake > 0
    ensures Enabled(c, s, a) && (a.Eof? || OnPlan(c, Next(c, s, a)))
  {
    hide Inv, Killed, Enabled, Next, InPlan, AtLimit;
    if !Drained(c, s) {
      a := NotDrained(c, s);
      PlanKept(c, s, a);
    } else if x: nat :| x < c.fds && s.workers[Send(0, x)].pc == Work && !AtLimit(c, x, s.workers[Send(0, x)]) {
      WritesOn(c, s, x);
      a := Write(Send(0, x), 1);
      PlanWrite(c, s, x);
    } else if x: nat :| x < c.fds && s.workers[Send(0, x)].pc == Work {
      a := LimitMoves(c, s, x);
      PlanKept(c, s, a);
    } else {
      LastStarves(c, s);
      a := Eof(Recv(0, c.fds - 1));
    }
  }

  /** A step of the plan, or an end of file. */
  lemma PlanMove(c: Config, s: State) returns (a: Action)
    requires c.Sane() && CanStarve(c) && Inv(c, s) && Killed(c, s) && OnPlan(c, s)
    ensures Enabled(c, s, a) && (a.Eof? || OnPlan(c, Next(c, s, a)))
  {
    hide Inv, Killed, OnPlan, Enabled, Next, Drained, AtLimit;
    PlanNotFinished(c, s);
    if !s.main.Reap? {
      a := BarrierMoves(c, s);
      PlanKept(c, s, a);
    } else {
      WokenUp(c, s);
      a := PlanReap(c, s);
    }
  }

  lemma {:induction false} RunToStarved(c: Config, s: State) returns (acts: seq<Action>, id: Id)
    requires c.Sane() && CanStarve(c) && Inv(c, s) && Killed(c, s) && OnPlan(c, s)
    ensures IsRun(c, s, acts) && Enabled(c, After(c, s, acts), Eof(id))
    decreases Left(c, s)
  {
    hide Inv, Killed, OnPlan, Enabled, Next, Left;
    LeftNonNegative(c, s);
    var a := PlanMove(c, s);
    if a.Eof? {
      acts, id := [], a.id;
    } else {
      EffectiveStep(c, s, a);
      KilledStep(c, s, a);
      LeftNonNegative(c, Next(c, s, a));
      var more;
      more, id := RunToStarved(c, Next(c, s, a));
      acts := [a] + more;
      RunFirst(c, s, a, more);
    }
  }

  lemma InitialOnPlan(c: Config)
    requires c.Sane() && CanStarve(c)
    ensures Killed(c, Initial(c)) && OnPlan(c, Initial(c))
  {
    forall x: nat | x < c.fds ensures InPlan(c, x, Worker(Unborn, {}, 0, 0, 0)) {
      ExtraSmall(c, x);
      RoundsBound(c, x);
      hide Rounds, Extra;
    }
  }

  // ----- ends of file and endless schedules, in every configuration

  /**
   A read can return 0 exactly when the quota cannot be met; or when it can be met
   early and the senders killed for it leave another receiver in the middle of a
   message: with two descriptors or more, messages of two bytes or more, and
   anything to read at all.
   */
  lemma {:induction false} EofReachableIff(c: Config)
    requires c.Sane()
    ensures (exists s, id :: Reachable(c, s) && Enabled(c, s, Eof(id))) <==> c.Starving() || CanStarve(c)
  {
    hide Inv, Killed, OnPlan, Enabled, Spinning, Initial;
    if c.Starving() {
      SpinningReachable(c);
      SpinningActions(c, Eof(Recv(0, c.fds - 1)));
    } else if CanStarve(c) {
      InitialInv(c);
      InitialOnPlan(c);
      var acts, id := RunToStarved(c, Initial(c));
      assert Reachable(c, After(c, Initial(c), acts));
    } else {
      hide Reachable;
      forall s, id | Reachable(c, s) ensures !Enabled(c, s, Eof(id)) {
        if c.Short() {
          ReachableInv(c, s);
          ReachableKilled(c, s);
          NobodyStarves(c, s, id);
        } else {
          NoBrokenPipeNoEof(c, s, id);
        }
      }
    }
  }

  lemma {:induction false} EofAgain(c: Config, s: State, id: Id, n: nat)
    requires Enabled(c, s, Eof(id))
    ensures IsRun(c, s, seq(n, _ => Eof(id)))
    decreases n
  {
    if n > 0 {
      EofIdle(c, s, id);
      EofAgain(c, s, id, n - 1);
      hide Enabled, Next;
      assert seq(n, _ => Eof(id)) == [Eof(id)] + seq(n - 1, _ => Eof(id));
      RunFirst(c, s, Eof(id), seq(n - 1, _ => Eof(id)));
    }
  }

  ghost predicate HasRun(c: Config, n: nat) {
    exists acts :: IsRun(c, Initial(c), acts) && |acts| >= n
  }

  /** Without reads that return 0 every action of a run counts. */
  lemma {:induction false} AllEffective(c: Config, s: State, acts: seq<Action>)
    requires IsRun(c, s, acts) && forall a :: a in acts ==> !a.Eof?
    ensures Effective(acts) == |acts|
    decreases |acts|
  {
    if acts != [] {
      AllEffective(c, Next(c, s, acts[0]), acts[1..]);
    }
  }

  lemma NoEofIn(c: Config, acts: seq<Action>)
    requires IsRun(c, Initial(c), acts)
    requires forall s, id :: Reachable(c, s) ==> !Enabled(c, s, Eof(id))
    ensures forall a :: a in acts ==> !a.Eof?
  {
    hide Enabled, Next;
    forall k | 0 <= k < |acts| ensures !acts[k].Eof? {
      RunSplit(c, Initial(c), acts, k);
      var t := After(c, Initial(c), acts[..k]);
      assert Reachable(c, t);
      match acts[k]
      case Eof(id) => assert false;
      case _ =>
    }
  }

  /** And only then is there no bound on the length of a schedule. */
  lemma {:induction false} EndlessIff(c: Config)
    requires c.Sane()
    ensures (forall n: nat :: HasRun(c, n)) <==> c.Starving() || CanStarve(c)
  {
    hide Enabled, Next, Inv, Spinning, Left;
    EofReachableIff(c);
    InitialInv(c);
    if c.Starving() || CanStarve(c) {
      var s, id :| Reachable(c, s) && Enabled(c, s, Eof(id));
      var acts :| IsRun(c, Initial(c), acts) && After(c, Initial(c), acts) == s;
      forall n: nat ensures HasRun(c, n) {
        EofAgain(c, s, id, n);
        RunJoin(c, Initial(c), acts, seq(n, _ => Eof(id)));
        assert |acts + seq(n, _ => Eof(id))| >= n;
      }
    } else {
      LeftNonNegative(c, Initial(c));
      var n: nat := Left(c, Initial(c)) + 1;
      forall acts | IsRun(c, Initial(c), acts) ensures |acts| < n {
        NoEofIn(c, acts);
        AllEffective(c, Initial(c), acts);
        SchedulesEnd(c, acts);
      }
      assert !HasRun(c, n);
    }
  }
}
