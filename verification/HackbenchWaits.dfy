/** Exactly when a process of a run waits, and how much a read or a write can move. */
module HackbenchWaits {
  import opened Sums
  import opened Hackbench
  import opened HackbenchInvariant
  import opened HackbenchProgress
  import opened HackbenchRuns

  // ----- the ready pipe

  lemma {:induction false} ReadyRun(c: Config, s: State, acts: seq<Action>)
    requires IsRun(c, s, acts) && s.ready <= c.readyRoom
    ensures After(c, s, acts).ready <= c.readyRoom
    decreases |acts|
  {
    if acts != [] {
      ReadyRun(c, Next(c, s, acts[0]), acts[1..]);
    }
  }

  /** The ready pipe never holds more than it has room for. */
  lemma ReadyBounded(c: Config, s: State)
    requires Reachable(c, s)
    ensures s.ready <= c.readyRoom
  {
    var acts :| IsRun(c, Initial(c), acts) && After(c, Initial(c), acts) == s;
    ReadyRun(c, Initial(c), acts);
  }

  // ----- when a process waits

  /** What a process may wait for: to be forked, the ready pipe, GO, the peers at its data pipe, or the reap. */
  predicate Waits(c: Config, s: State, id: Id, w: Worker) {
    match w.pc
    case Unborn => true
    case Entry => false
    case Announce => s.ready == c.readyRoom
    case Await => s.wake == 0
    case Work =>
      var p := PipeOf(id, w);
      && p in s.pipes
      && (if id.Recv? then
            Counter(w) < c.packets && s.pipes[p] == 0 && SomeoneHolds(s, Wr(p.0, p.1))
          else
            w.i < c.loops && s.pipes[p] == c.room(p.0, p.1) && SomeoneHolds(s, Rd(p.0, p.1)))
    case Exited => !s.main.Reap?
    case Reaped => true
  }

  ghost predicate NoAction(c: Config, s: State, id: Id) {
    forall a :: Enabled(c, s, a) && !MainAction(a) ==> a.id != id
  }

  lemma UnreapedCount(c: Config, s: State, id: Id)
    requires Inv(c, s) && s.main.Reap? && id in Ids(c) && s.workers[id].pc != Reaped
    ensures s.main.n < s.total
  {
    AllForked(c, s);
    hide Workers, Flow;
    assert id !in PcSet(s.workers, {Reaped});
    if s.main.n >= s.total {
      FullSubset(PcSet(s.workers, {Reaped}), Ids(c));
      assert false;
    }
  }

  lemma WorkerWaits(c: Config, s: State, id: Id)
    requires c.Sane() && s.ready <= c.readyRoom && id in s.workers && s.workers[id].pc == Work
    requires WorkerOk(c, s.main, s.wake, id, s.workers[id]) && !SettingUp(s.main)
    requires PipeOf(id, s.workers[id]) in s.pipes
    requires var p := PipeOf(id, s.workers[id]); s.pipes[p] <= c.room(p.0, p.1)
    ensures NoAction(c, s, id) <==> Waits(c, s, id, s.workers[id])
  {
    var w := s.workers[id];
    var p := PipeOf(id, w);
    if !Waits(c, s, id, w) {
      var a :=
        if id.Recv? then
          if Counter(w) >= c.packets then Exit(id) else if s.pipes[p] > 0 then Read(id, 1) else Eof(id)
        else if w.i >= c.loops then Exit(id)
        else if SomeoneHolds(s, Rd(p.0, p.1)) then Write(id, 1)
        else Broken(id);
      assert Enabled(c, s, a);
    }
  }

  lemma IdleWaits(c: Config, s: State, id: Id)
    requires c.Sane() && s.ready <= c.readyRoom && id in s.workers && s.workers[id].pc != Work
    requires WorkerOk(c, s.main, s.wake, id, s.workers[id])
    requires s.main.Reap? && s.workers[id].pc == Exited ==> s.main.n < s.total
    ensures NoAction(c, s, id) <==> Waits(c, s, id, s.workers[id])
  {
    var w := s.workers[id];
    if !Waits(c, s, id, w) {
      var a :=
        match w.pc
        case Entry => CloseOwn(id)
        case Announce => SayReady(id)
        case Await => PassPoll(id)
        case _ => WaitFor(id);
      assert Enabled(c, s, a);
    }
  }

  /**
   In a reachable state a worker has no step, and is not about to be reaped,
   exactly while it waits for one of those things.
   */
  lemma WaitsIff(c: Config, s: State, id: Id)
    requires c.Sane() && Reachable(c, s) && id in Ids(c)
    ensures id in s.workers && (NoAction(c, s, id) <==> Waits(c, s, id, s.workers[id]))
  {
    ReadyBounded(c, s);
    ReachableInv(c, s);
    hide Reachable, NoAction, Waits;
    OkWorker(c, s, id);
    if s.workers[id].pc == Work {
      AtWork(c, s, id);
      var p := PipeOf(id, s.workers[id]);
      OkPipe(c, s, p.0, p.1);
      WorkerWaits(c, s, id);
    } else {
      if s.main.Reap? && s.workers[id].pc == Exited {
        UnreapedCount(c, s, id);
      }
      IdleWaits(c, s, id);
    }
  }

  predicate MainWaits(s: State) {
    || (s.main.Collect? && s.main.n < s.total && s.ready == 0)
    || (s.main.Reap? && s.main.n < s.total && forall id :: id in s.workers ==> s.workers[id].pc != Exited)
    || s.main.Finished?
  }

  lemma MainCan(c: Config, s: State) returns (a: Action)
    requires !MainWaits(s)
    requires (s.main.Collect? || s.main.Reap?) ==> s.main.n <= s.total
    ensures Enabled(c, s, a) && !OfWorker(a)
  {
    if s.main.Reap? && s.main.n < s.total {
      var id :| id in s.workers && s.workers[id].pc == Exited;
      a := WaitFor(id);
    } else {
      a := if SettingUp(s.main) then Setup
           else if s.main.Wake? then Go
           else if s.main.Collect? then if s.main.n < s.total then ReadReady else Stamp
           else Finish;
    }
  }

  lemma MainCannot(c: Config, s: State, a: Action)
    requires MainWaits(s) && Enabled(c, s, a)
    ensures OfWorker(a)
  {
  }

  /** Main waits only for a report, or for some worker to exit. */
  lemma MainWaitsIff(c: Config, s: State)
    requires c.Sane() && Reachable(c, s)
    ensures (forall a :: Enabled(c, s, a) ==> OfWorker(a)) <==> MainWaits(s)
  {
    ReachableInv(c, s);
    assert (s.main.Collect? || s.main.Reap?) ==> s.main.n <= s.total;
    hide Reachable, Inv, Enabled, OfWorker, MainWaits;
    if MainWaits(s) {
      forall a | Enabled(c, s, a) ensures OfWorker(a) {
        MainCannot(c, s, a);
      }
    } else {
      var a := MainCan(c, s);
    }
  }

  // ----- how much one call moves

  /** An action after which receiver r has read n bytes more. */
  ghost predicate TakesBy(c: Config, s: State, r: Id, a: Action, n: nat)
    requires r in s.workers
  {
    && Enabled(c, s, a)
    && var t := Next(c, s, a);
      && r in t.workers && Taken(c, t.workers[r]) == Taken(c, s.workers[r]) + n
  }

  lemma TakesEnabled(c: Config, s: State, r: Id, a: Action, n: nat)
    requires r in s.workers && TakesBy(c, s, r, a, n)
    ensures Enabled(c, s, a)
  {
  }

  lemma TakeAtWork(c: Config, s: State, r: Id, a: Action, n: nat)
    requires r.Recv? && r in s.workers && s.workers[r].pc == Work && !SettingUp(s.main) && n >= 1
    requires s.workers[r].j < c.fds && TakesBy(c, s, r, a, n)
    ensures a == Read(r, n)
  {
    if !MainAction(a) && a.id == r && a.Read? {
      TransferBytes(c, s.workers[r], a.n, 0);
    }
  }

  lemma ReadTakes(c: Config, s: State, r: Id, n: nat)
    requires Enabled(c, s, Read(r, n)) && s.workers[r].j < c.fds
    ensures TakesBy(c, s, r, Read(r, n), n)
  {
    TransferBytes(c, s.workers[r], n, 0);
  }

  lemma ReadEnabled(c: Config, s: State, r: Id, n: nat)
    requires r.Recv? && r in s.workers && s.workers[r].pc == Work && (r.g, r.i) in s.pipes
    requires Rd(r.g, r.i) in s.workers[r].ends && Counter(s.workers[r]) < c.packets && n >= 1
    ensures Enabled(c, s, Read(r, n)) <==> n <= c.size - s.workers[r].done && n <= s.pipes[(r.g, r.i)]
  {
  }

  /**
   A receiver at work with messages to come can be given, by one call, any
   number of bytes up to what it asks for and what its pipe holds; and no other.
   */
  lemma ReadsAnyAmount(c: Config, s: State, r: Id, n: nat)
    requires c.Sane() && Reachable(c, s) && r.Recv? && n >= 1
    requires r in s.workers && s.workers[r].pc == Work && Counter(s.workers[r]) < c.packets
    ensures (r.g, r.i) in s.pipes
    ensures (exists a :: TakesBy(c, s, r, a, n)) <==>
      n <= c.size - s.workers[r].done && n <= s.pipes[(r.g, r.i)]
  {
    ReachableInv(c, s);
    hide Inv, Reachable, TakesBy, Enabled;
    OkWorker(c, s, r);
    OkPipe(c, s, r.g, r.i);
    AtWork(c, s, r);
    ReadEnabled(c, s, r, n);
    if Enabled(c, s, Read(r, n)) {
      ReadTakes(c, s, r, n);
    }
    if a :| TakesBy(c, s, r, a, n) {
      TakeAtWork(c, s, r, a, n);
      TakesEnabled(c, s, r, a, n);
    }
  }

  /** An action after which sender id has written n bytes more to pipe j. */
  ghost predicate PutsBy(c: Config, s: State, id: Id, j: nat, a: Action, n: nat)
    requires id in s.workers
  {
    && Enabled(c, s, a)
    && var t := Next(c, s, a);
      && id in t.workers && SentTo(c, t.workers[id], j) == SentTo(c, s.workers[id], j) + n
  }

  lemma PutsEnabled(c: Config, s: State, id: Id, j: nat, a: Action, n: nat)
    requires id in s.workers && PutsBy(c, s, id, j, a, n)
    ensures Enabled(c, s, a)
  {
  }

  lemma PutAtWork(c: Config, s: State, id: Id, a: Action, n: nat)
    requires id.Send? && id in s.workers && s.workers[id].pc == Work && !SettingUp(s.main) && n >= 1
    requires s.workers[id].j < c.fds && PutsBy(c, s, id, s.workers[id].j, a, n)
    ensures a == Write(id, n)
  {
    if !MainAction(a) && a.id == id && a.Write? {
      TransferBytes(c, s.workers[id], a.n, s.workers[id].j);
    }
  }

  lemma WritePuts(c: Config, s: State, id: Id, n: nat)
    requires Enabled(c, s, Write(id, n)) && s.workers[id].j < c.fds
    ensures PutsBy(c, s, id, s.workers[id].j, Write(id, n), n)
  {
    TransferBytes(c, s.workers[id], n, s.workers[id].j);
  }

  lemma WriteEnabled(c: Config, s: State, id: Id, n: nat)
    requires id.Send? && id in s.workers && s.workers[id].pc == Work && (id.g, s.workers[id].j) in s.pipes
    requires Wr(id.g, s.workers[id].j) in s.workers[id].ends && s.workers[id].i < c.loops && n >= 1
    ensures var w := s.workers[id];
      Enabled(c, s, Write(id, n)) <==>
        && SomeoneHolds(s, Rd(id.g, w.j))
        && n <= c.size - w.done && s.pipes[(id.g, w.j)] + n <= c.room(id.g, w.j)
  {
  }

  /**
   A sender at work with messages to go can put, by one call, any number of bytes
   of its message up to what is left of it and what the pipe has room for; and no
   other.
   */
  lemma WritesAnyAmount(c: Config, s: State, id: Id, n: nat)
    requires c.Sane() && Reachable(c, s) && id.Send? && n >= 1
    requires id in s.workers && s.workers[id].pc == Work && s.workers[id].i < c.loops
    ensures var w := s.workers[id];
      && (id.g, w.j) in s.pipes
      && ((exists a :: PutsBy(c, s, id, w.j, a, n)) <==>
            && SomeoneHolds(s, Rd(id.g, w.j))
            && n <= c.size - w.done && s.pipes[(id.g, w.j)] + n <= c.room(id.g, w.j))
  {
    ReachableInv(c, s);
    hide Inv, Reachable, PutsBy, Enabled, SomeoneHolds;
    OkWorker(c, s, id);
    OkPipe(c, s, id.g, s.workers[id].j);
    AtWork(c, s, id);
    WriteEnabled(c, s, id, n);
    if Enabled(c, s, Write(id, n)) {
      WritePuts(c, s, id, n);
    }
    if a :| PutsBy(c, s, id, s.workers[id].j, a, n) {
      PutAtWork(c, s, id, a, n);
      PutsEnabled(c, s, id, s.workers[id].j, a, n);
    }
  }
}
