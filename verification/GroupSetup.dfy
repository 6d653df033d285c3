/**
 Main's own code: `group`, the setup loop around it, `signal_workers` and
 `reap_workers`, over main's descriptor table, its child table and the processes
 it has forked. fork, pipe and malloc may fail at every call.
 */
module GroupSetup {
  import opened Hackbench
  import opened HackbenchInvariant
  import opened Packets
  import opened Sums
  import opened Descriptors
  import Lifecycle

  /** The context a worker is forked with. */
  datatype Context =
    | RecvContext(packets: nat, inFds: (nat, nat), readyOut: nat, wakeFd: nat)
    | SendContext(fds: nat, outFds: seq<nat>, readyOut: nat, wakeFd: nat)

  /** A started worker: its pid, its context and its copy of main's descriptor table. */
  datatype Kid = Kid(pid: int, ctx: Context, table: map<nat, End>)

  /** `group` returns a count, or leaves the program through `barf` when pipe fails. */
  datatype GroupResult = Count(n: nat) | Barfed

  /** What `group` was called with. */
  datatype Job = Job(g: nat, off: nat, fds: nat, loops: nat, readyOut: nat, wakeFd: nat, base: map<nat, End>)

  /**
   The k-th worker of a group. Receiver k inherits its own pipe and the write
   ends opened before; a sender inherits all the write ends, and its context
   names them in pipe order.
   */
  ghost predicate GroupKid(job: Job, outs: seq<nat>, kid: Kid, k: nat) {
    if k < job.fds then
      && |outs| > k
      && kid.ctx.RecvContext? && kid.ctx.packets == WidePackets(job.fds, job.loops)
      && kid.ctx.readyOut == job.readyOut && kid.ctx.wakeFd == job.wakeFd
      && kid.ctx.inFds.1 == outs[k]
      && kid.ctx.inFds.0 !in job.base && kid.ctx.inFds.0 !in outs[..k + 1]
      && kid.table == (job.base + OutTable(job.g, outs[..k + 1]))[kid.ctx.inFds.0 := Rd(job.g, k)]
    else
      && |outs| == job.fds
      && kid.ctx == SendContext(job.fds, outs, job.readyOut, job.wakeFd)
      && kid.table == job.base + OutTable(job.g, outs)
  }

  /**
   The first n workers of the group have been started, in order, and their pids
   are in their slots. No other slot has changed, but a failed fork leaves -1 in
   the slot it was for.
   */
  ghost predicate Started(job: Job, outs: seq<nat>, n: nat,
                          kids0: seq<Kid>, tab0: seq<int>, kids1: seq<Kid>, tab1: seq<int>)
  {
    && |kids1| == |kids0| + n && kids1[..|kids0|] == kids0
    && |tab1| == |tab0| && job.off + n <= |tab0|
    && (forall m :: |kids0| <= m < |kids1| ==>
          && tab1[job.off + m - |kids0|] == kids1[m].pid
          && GroupKid(job, outs, kids1[m], m - |kids0|))
    && (forall s :: 0 <= s < |tab0| && !(job.off <= s < job.off + n) ==>
          tab1[s] == tab0[s] || (n < 2 * job.fds && s == job.off + n && tab1[s] == -1))
  }

  lemma SenderKid(job: Job, outs: seq<nat>, pid: int, k: nat)
    requires k >= job.fds && |outs| == job.fds
    ensures var ctx := SendContext(job.fds, outs, job.readyOut, job.wakeFd);
      GroupKid(job, outs, Kid(pid, ctx, job.base + OutTable(job.g, outs)), k)
  {
  }

  lemma KidKept(job: Job, outs: seq<nat>, more: seq<nat>, kid: Kid, k: nat)
    requires outs <= more && (k >= job.fds ==> outs == more)
    requires GroupKid(job, outs, kid, k)
    ensures GroupKid(job, more, kid, k)
  {
    if k < job.fds {
      assert more[..k + 1] == outs[..k + 1];
    }
  }

  lemma StartedNext(job: Job, outs: seq<nat>, more: seq<nat>, n: nat,
                    kids0: seq<Kid>, tab0: seq<int>, kids1: seq<Kid>, tab1: seq<int>, kid: Kid)
    requires Started(job, outs, n, kids0, tab0, kids1, tab1)
    requires outs <= more && (n >= job.fds ==> outs == more) && n < 2 * job.fds
    requires GroupKid(job, more, kid, n) && job.off + n < |tab0|
    ensures Started(job, more, n + 1, kids0, tab0, kids1 + [kid], tab1[job.off + n := kid.pid])
  {
    forall m | |kids0| <= m < |kids1| ensures GroupKid(job, more, kids1[m], m - |kids0|) {
      KidKept(job, outs, more, kids1[m], m - |kids0|);
    }
  }

  lemma StartedSpill(job: Job, outs: seq<nat>, n: nat,
                     kids0: seq<Kid>, tab0: seq<int>, kids1: seq<Kid>, tab1: seq<int>, x: int)
    requires Started(job, outs, n, kids0, tab0, kids1, tab1)
    requires n < 2 * job.fds && job.off + n < |tab1| && x in {-1, tab1[job.off + n]}
    ensures Started(job, outs, n, kids0, tab0, kids1, tab1[job.off + n := x])
  {
  }

  /** How one round of the receiver loop ends. */
  datatype StepResult = Forked | NoWorker | NoPipe

  /** How the setup loop ends: complete, with a group that came up short, or through the `barf` of a failed pipe. */
  datatype SetupResult = AllForked | CameUpShort | PipeFailed

  // ----- the child table over all groups

  lemma OffsetFits(fds: nat, g: nat, groups: nat)
    requires g < groups
    ensures Offset(fds, g) + 2 * fds <= 2 * fds * groups
    ensures Offset(fds, g + 1) == Offset(fds, g) + 2 * fds
  {
    OffsetIs(fds, g);
    if fds > 0 {
      MulLess(g, groups, 2 * fds);
    }
  }

  /** The call for group x: the same for every group, but for its number and its place in the child table. */
  function JobAt(first: Job, x: nat): Job {
    first.(g := x, off := Offset(first.fds, x))
  }

  /** Group x's workers stand at slots Offset(x), Offset(x) + 1, ... in the child table, as its call says. */
  ghost predicate Layout(first: Job, outs: seq<seq<nat>>, kids: seq<Kid>, tab: seq<int>, total: nat) {
    && total == Offset(first.fds, |outs|) && total <= |kids| && |kids| <= |tab|
    && (forall k :: 0 <= k < |kids| ==> tab[k] == kids[k].pid)
    && (forall x :: 0 <= x < |outs| ==> Fresh(outs[x], first.base) && Offset(first.fds, x) + 2 * first.fds <= total)
    && (forall x, m :: 0 <= x < |outs| && Offset(first.fds, x) <= m < Offset(first.fds, x) + 2 * first.fds ==>
          GroupKid(JobAt(first, x), outs[x], kids[m], m - Offset(first.fds, x)))
  }

  lemma LayoutKept(first: Job, outs: seq<seq<nat>>, kids0: seq<Kid>, tab0: seq<int>, total: nat,
                   os: seq<nat>, n: nat, kids1: seq<Kid>, tab1: seq<int>)
    requires Layout(first, outs, kids0, tab0, total) && |kids0| == total
    requires Started(JobAt(first, |outs|), os, n, kids0, tab0, kids1, tab1)
    ensures Layout(first, outs, kids1, tab1, total)
    ensures |kids1| == total + n <= |tab1| && forall k :: 0 <= k < |kids1| ==> tab1[k] == kids1[k].pid
  {
    hide GroupKid, Fresh;
    forall x, m | 0 <= x < |outs| && Offset(first.fds, x) <= m < Offset(first.fds, x) + 2 * first.fds
      ensures GroupKid(JobAt(first, x), outs[x], kids1[m], m - Offset(first.fds, x))
    {
      assert kids1[m] == kids1[..|kids0|][m];
    }
    forall k | 0 <= k < |kids1| ensures tab1[k] == kids1[k].pid {
      if k < |kids0| {
        assert kids1[k] == kids1[..|kids0|][k];
      }
    }
  }

  lemma LayoutNext(first: Job, outs: seq<seq<nat>>, kids0: seq<Kid>, tab0: seq<int>, total: nat,
                   os: seq<nat>, kids1: seq<Kid>, tab1: seq<int>)
    requires Layout(first, outs, kids1, tab1, total) && |kids0| == total
    requires Started(JobAt(first, |outs|), os, 2 * first.fds, kids0, tab0, kids1, tab1) && Fresh(os, first.base)
    ensures Layout(first, outs + [os], kids1, tab1, total + 2 * first.fds)
  {
    var outs1 := outs + [os];
    assert Offset(first.fds, |outs1|) == total + 2 * first.fds;
    hide GroupKid, Fresh, Offset, JobAt;
    forall x | 0 <= x < |outs1|
      ensures Fresh(outs1[x], first.base) && Offset(first.fds, x) + 2 * first.fds <= total + 2 * first.fds
    {
      assert x < |outs| ==> outs1[x] == outs[x];
    }
    forall x, m | 0 <= x < |outs1| && Offset(first.fds, x) <= m < Offset(first.fds, x) + 2 * first.fds
      ensures GroupKid(JobAt(first, x), outs1[x], kids1[m], m - Offset(first.fds, x))
    {
      if x == |outs| {
        assert GroupKid(JobAt(first, x), os, kids1[m], m - |kids0|);
      } else {
        assert outs1[x] == outs[x];
      }
    }
  }

  // ----- which calls fail

  /** Of the calls that can fail, the lo-th to the one before the hi-th all succeed. */
  ghost predicate AllWell(fails: nat -> bool, lo: nat, hi: nat) {
    forall k: nat :: lo <= k < hi ==> !fails(k)
  }

  /** The last of them fails, and it is the first that does. */
  ghost predicate StopsAt(fails: nat -> bool, lo: nat, hi: nat) {
    lo < hi && fails(hi - 1) && AllWell(fails, lo, hi - 1)
  }

  /** The calls of a group that can fail: a malloc, three for each receiver, one for each sender. */
  function GroupCalls(fds: nat): nat {
    1 + 4 * fds
  }

  /** How many workers a group has started when the last of d calls failed. */
  function StartedBefore(fds: nat, d: nat): nat {
    if d <= 1 then 0 else if d <= 1 + 3 * fds then (d - 2) / 3 else d - 2 - 2 * fds
  }

  /** Whether that call is a pipe: malloc, then for each receiver malloc, pipe, fork. */
  predicate IsPipe(fds: nat, d: nat) {
    2 <= d <= 1 + 3 * fds && (d - 2) % 3 == 1
  }

  /** The calls of one round of the receiver loop: three, or up to the one that failed. */
  ghost predicate Round(fails: nat -> bool, res: StepResult, lo: nat, hi: nat) {
    match res
    case Forked => hi == lo + 3 && AllWell(fails, lo, hi)
    case NoPipe => hi == lo + 2 && StopsAt(fails, lo, hi)
    case NoWorker => hi in {lo + 1, lo + 3} && StopsAt(fails, lo, hi)
  }

  /** The calls of a group: all succeed and all workers are started, or the first that fails decides how many are. */
  ghost predicate Spent(fails: nat -> bool, fds: nat, n: nat, pipe: bool, lo: nat, hi: nat) {
    if n == 2 * fds then
      hi == lo + GroupCalls(fds) && AllWell(fails, lo, hi) && !pipe
    else
      && n < 2 * fds && StopsAt(fails, lo, hi) && hi <= lo + GroupCalls(fds)
      && n == StartedBefore(fds, hi - lo) && (pipe <==> IsPipe(fds, hi - lo))
  }

  lemma SpentNothing(fails: nat -> bool, fds: nat, lo: nat)
    requires fds >= 1 && fails(lo)
    ensures Spent(fails, fds, 0, false, lo, lo + 1)
  {
  }

  lemma SpentReceivers(fails: nat -> bool, fds: nat, i: nat, res: StepResult, lo: nat, hi: nat)
    requires i < fds && !fails(lo) && AllWell(fails, lo + 1, lo + 1 + 3 * i)
    requires res != Forked && Round(fails, res, lo + 1 + 3 * i, hi)
    ensures Spent(fails, fds, i, res == NoPipe, lo, hi)
  {
    assert (hi - lo - 2) / 3 == i;
  }

  lemma SpentSenders(fails: nat -> bool, fds: nat, n: nat, lo: nat, hi: nat)
    requires fds >= 1 && !fails(lo) && AllWell(fails, lo + 1, lo + 1 + 3 * fds) && fds <= n <= 2 * fds
    requires hi == lo + 1 + 2 * fds + n + if n < 2 * fds then 1 else 0
    requires if n < 2 * fds then StopsAt(fails, lo + 1 + 3 * fds, hi) else AllWell(fails, lo + 1 + 3 * fds, hi)
    ensures Spent(fails, fds, n, false, lo, hi)
  {
  }

  lemma SpentLater(fails: nat -> bool, fds: nat, n: nat, pipe: bool, lo: nat, mid: nat, hi: nat)
    requires lo <= mid && AllWell(fails, lo, mid) && Spent(fails, fds, n, pipe, mid, hi)
    ensures if n == 2 * fds then hi == mid + GroupCalls(fds) && AllWell(fails, lo, hi) && !pipe
      else n < 2 * fds && StopsAt(fails, lo, hi)
  {
  }

  /** The pids of some first workers, each once and positive. */
  ghost predicate PidsOfFirst(pids: seq<int>, kids: seq<Kid>) {
    && |pids| <= |kids|
    && (forall k :: 0 <= k < |pids| ==> pids[k] == kids[k].pid > 0)
    && (forall k, m :: 0 <= k < m < |pids| ==> pids[k] != pids[m])
  }

  lemma NoGroups(first: Job, tab: seq<int>)
    ensures Offset(first.fds, 0) == 0 && Layout(first, [], [], tab, 0)
  {
  }

  lemma LayoutTotal(first: Job, outs: seq<seq<nat>>, kids: seq<Kid>, tab: seq<int>, total: nat)
    requires Layout(first, outs, kids, tab, total)
    ensures total == Offset(first.fds, |outs|)
  {
  }

  lemma NoCalls(fails: nat -> bool, lo: nat)
    ensures AllWell(fails, lo, lo)
  {
  }

  lemma NoPids(kids: seq<Kid>)
    ensures PidsOfFirst([], kids)
  {
  }

  class Host {
    var table: map<nat, End>
    var kids: seq<Kid>
    var childTab: array<int>
    var nextPid: int
    var unreaped: set<int>
    var killed: seq<int>
    var waits: nat
    var abnormal: nat

    /** Which of the calls that can fail do, and how many of them have been made. */
    const fails: nat -> bool
    var calls: nat

    /** Every started worker has its own positive pid. */
    ghost predicate Valid()
      reads `kids, `nextPid, `unreaped
    {
      && nextPid > 0
      && (forall k :: 0 <= k < |kids| ==> 0 < kids[k].pid < nextPid)
      && (forall k, m :: 0 <= k < m < |kids| ==> kids[k].pid != kids[m].pid)
      && (forall p :: p in unreaped ==> 0 < p < nextPid)
    }

    // ----- system calls

    /** The lowest descriptor number not in use. */
    method LowestFree(used: set<nat>) returns (fd: nat)
      ensures fd !in used
      ensures forall x: nat :: x < fd ==> x in used
    {
      fd := 0;
      ghost var seen: set<nat> := {};
      while fd in used
        invariant forall x: nat :: x < fd <==> x in seen
        invariant seen <= used
        decreases used - seen
      {
        seen := seen + {fd};
        fd := fd + 1;
      }
    }

    method Malloc() returns (ok: bool)
      modifies `calls
      ensures calls == old(calls) + 1 && ok == !fails(old(calls))
    {
      ok := !fails(calls);
      calls := calls + 1;
    }

    method Pipe(g: nat, j: nat) returns (ok: bool, r: nat, w: nat)
      modifies `table, `calls
      ensures calls == old(calls) + 1 && ok == !fails(old(calls))
      ensures ok ==> r != w && r !in old(table) && w !in old(table)
      ensures ok ==> table == old(table)[r := Rd(g, j)][w := Wr(g, j)]
      ensures !ok ==> table == old(table)
    {
      r, w := 0, 0;
      ok := !fails(calls);
      calls := calls + 1;
      if ok {
        r := LowestFree(table.Keys);
        w := LowestFree(table.Keys + {r});
        table := table[r := Rd(g, j)][w := Wr(g, j)];
      }
    }

    method Close(fd: nat)
      modifies `table
      ensures table == old(table) - {fd}
    {
      table := table - {fd};
    }

    /** `create_worker`: fork, and store the answer (a pid or -1) in the child table. */
    method CreateWorker(slot: nat, ctx: Context) returns (err: bool)
      requires Valid() && slot < childTab.Length
      modifies `kids, `nextPid, `unreaped, `calls, childTab
      ensures calls == old(calls) + 1 && err == fails(old(calls))
      ensures Valid()
      ensures childTab[..] == old(childTab[..])[slot := childTab[slot]]
      ensures err ==> kids == old(kids) && unreaped == old(unreaped) && childTab[slot] == -1
      ensures !err ==> kids == old(kids) + [Kid(childTab[slot], ctx, table)]
      ensures !err ==> childTab[slot] !in old(unreaped) && unreaped == old(unreaped) + {childTab[slot]}
    {
      var failed := fails(calls);
      calls := calls + 1;
      if failed {
        childTab[slot] := -1;
        return true;
      }
      childTab[slot] := nextPid;
      kids := kids + [Kid(nextPid, ctx, table)];
      unreaped := unreaped + {nextPid};
      nextPid := nextPid + 1;
      return false;
    }

    // ----- group

    /** One round of the receiver loop: allocate a context, open a pipe, fork, keep the write end. */
    method StartReceiver(job: Job, i: nat, ghost outs: seq<nat>) returns (res: StepResult, w: nat)
      requires Valid() && i < job.fds && job.off + i < childTab.Length
      requires |outs| == i && Fresh(outs, job.base) && table == job.base + OutTable(job.g, outs)
      modifies `table, `kids, `nextPid, `unreaped, `calls, childTab
      ensures Valid() && Round(fails, res, old(calls), calls)
      ensures childTab[..] == old(childTab[..])[job.off + i := childTab[job.off + i]]
      ensures res != Forked ==> kids == old(kids) && unreaped == old(unreaped)
      ensures res != Forked ==> childTab[job.off + i] in {-1, old(childTab[job.off + i])}
      ensures res == Forked ==>
        && Fresh(outs + [w], job.base) && table == job.base + OutTable(job.g, outs + [w])
        && |kids| == |old(kids)| + 1 && kids == old(kids) + [kids[|old(kids)|]]
        && kids[|old(kids)|].pid == childTab[job.off + i]
        && GroupKid(job, outs + [w], kids[|old(kids)|], i)
        && |unreaped| == |old(unreaped)| + 1
    {
      hide OutTable, Fresh, Valid;
      w := 0;
      var memory := Malloc();
      if !memory {
        return NoWorker, w;
      }
      var ok, r;
      ok, r, w := Pipe(job.g, i);
      if !ok {
        return NoPipe, w;
      }
      var ctx := RecvContext(WidePackets(job.fds, job.loops), (r, w), job.readyOut, job.wakeFd);
      var err := CreateWorker(job.off + i, ctx);
      if err {
        return NoWorker, w;
      }
      assert (outs + [w])[..i + 1] == outs + [w];
      PipeOpened(job.g, job.base, outs, r, w, old(table));
      FreshNext(job.g, job.base, outs, w);
      Close(r);
      return Forked, w;
    }

    /** StartReceiver, in terms of the group so far. */
    method NextReceiver(job: Job, i: nat, ghost outs: seq<nat>, ghost kids0: seq<Kid>, ghost tab0: seq<int>)
      returns (res: StepResult, w: nat)
      requires Valid() && i < job.fds && job.off + 2 * job.fds <= childTab.Length == |tab0|
      requires |outs| == i && Fresh(outs, job.base) && table == job.base + OutTable(job.g, outs)
      requires Started(job, outs, i, kids0, tab0, kids, childTab[..])
      modifies `table, `kids, `nextPid, `unreaped, `calls, childTab
      ensures Valid() && Round(fails, res, old(calls), calls)
      ensures |unreaped| == |old(unreaped)| + if res == Forked then 1 else 0
      ensures res != Forked ==> Started(job, outs, i, kids0, tab0, kids, childTab[..])
      ensures res == Forked ==>
        && Fresh(outs + [w], job.base) && table == job.base + OutTable(job.g, outs + [w])
        && Started(job, outs + [w], i + 1, kids0, tab0, kids, childTab[..])
    {
      hide Started, GroupKid, Fresh, Valid, OutTable;
      ghost var kids1, tab1 := kids, childTab[..];
      res, w := StartReceiver(job, i, outs);
      if res == Forked {
        StartedNext(job, outs, outs + [w], i, kids0, tab0, kids1, tab1, kids[|kids1|]);
      } else {
        StartedSpill(job, outs, i, kids0, tab0, kids1, tab1, childTab[job.off + i]);
      }
    }

    method ForkReceivers(job: Job, outFds: array<nat>) returns (res: StepResult, i: nat, ghost outs: seq<nat>)
      requires Valid() && job.off + 2 * job.fds <= childTab.Length && outFds.Length == job.fds && table == job.base
      modifies `table, `kids, `nextPid, `unreaped, `calls, childTab, outFds
      ensures AllWell(fails, old(calls), old(calls) + 3 * i)
      ensures if res == Forked then calls == old(calls) + 3 * i else Round(fails, res, old(calls) + 3 * i, calls)
      ensures Valid() && Fresh(outs, job.base) && i <= job.fds && outs == outFds[..i]
      ensures Started(job, outs, i, old(kids), old(childTab[..]), kids, childTab[..])
      ensures res == Forked <==> i == job.fds
      ensures |unreaped| == |old(unreaped)| + i
      ensures res == Forked ==> table == job.base + OutTable(job.g, outs)
    {
      i, outs, res := 0, [], Forked;
      ghost var kids0, tab0 := kids, childTab[..];
      assert Started(job, outs, 0, kids0, tab0, kids, childTab[..]);
      hide Started, GroupKid, Fresh, Valid, OutTable;
      while i < job.fds
        invariant i <= job.fds && outs == outFds[..i] && res == Forked
        invariant calls == old(calls) + 3 * i && AllWell(fails, old(calls), calls)
        invariant Valid() && Fresh(outs, job.base) && table == job.base + OutTable(job.g, outs)
        invariant Started(job, outs, i, kids0, tab0, kids, childTab[..]) && |unreaped| == |old(unreaped)| + i
      {
        var w;
        res, w := NextReceiver(job, i, outs, kids0, tab0);
        if res != Forked {
          return;
        }
        outFds[i] := w;
        outs := outs + [w];
        i := i + 1;
      }
    }

    /** One round of the sender loop. */
    method NextSender(job: Job, i: nat, outs: seq<nat>, ghost kids0: seq<Kid>, ghost tab0: seq<int>) returns (err: bool)
      requires Valid() && i < job.fds == |outs| && job.off + 2 * job.fds <= childTab.Length == |tab0|
      requires table == job.base + OutTable(job.g, outs)
      requires Started(job, outs, job.fds + i, kids0, tab0, kids, childTab[..])
      modifies `kids, `nextPid, `unreaped, `calls, childTab
      ensures calls == old(calls) + 1 && err == fails(old(calls))
      ensures Valid() && Started(job, outs, job.fds + i + (if err then 0 else 1), kids0, tab0, kids, childTab[..])
      ensures |unreaped| == |old(unreaped)| + if err then 0 else 1
    {
      hide Started, Valid, OutTable, GroupKid;
      ghost var kids1, tab1 := kids, childTab[..];
      err := CreateWorker(job.off + job.fds + i, SendContext(job.fds, outs, job.readyOut, job.wakeFd));
      if err {
        StartedSpill(job, outs, job.fds + i, kids0, tab0, kids1, tab1, -1);
      } else {
        SenderKid(job, outs, kids[|kids1|].pid, job.fds + i);
        StartedNext(job, outs, outs, job.fds + i, kids0, tab0, kids1, tab1, kids[|kids1|]);
      }
    }

    method ForkSenders(job: Job, outFds: array<nat>, ghost kids0: seq<Kid>, ghost tab0: seq<int>)
      returns (err: bool, i: nat)
      requires Valid() && job.off + 2 * job.fds <= childTab.Length == |tab0| && outFds.Length == job.fds
      requires table == job.base + OutTable(job.g, outFds[..])
      requires Started(job, outFds[..], job.fds, kids0, tab0, kids, childTab[..])
      modifies `kids, `nextPid, `unreaped, `calls, childTab
      ensures calls == old(calls) + i + if err then 1 else 0
      ensures if err then StopsAt(fails, old(calls), calls) else AllWell(fails, old(calls), calls)
      ensures Valid() && i <= job.fds && (err <==> i < job.fds) && |unreaped| == |old(unreaped)| + i
      ensures Started(job, outFds[..], job.fds + i, kids0, tab0, kids, childTab[..])
    {
      i, err := 0, false;
      hide Started, Valid, OutTable, GroupKid;
      while i < job.fds
        invariant i <= job.fds && Valid() && !err && |unreaped| == |old(unreaped)| + i
        invariant Started(job, outFds[..], job.fds + i, kids0, tab0, kids, childTab[..])
        invariant calls == old(calls) + i && AllWell(fails, old(calls), calls)
      {
        err := NextSender(job, i, outFds[..], kids0, tab0);
        if err {
          return;
        }
        i := i + 1;
      }
    }

    method CloseWriteEnds(job: Job, outFds: array<nat>)
      requires Fresh(outFds[..], job.base) && outFds.Length == job.fds
      requires table == job.base + OutTable(job.g, outFds[..])
      modifies `table
      ensures table == job.base
    {
      var i := 0;
      while i < job.fds
        invariant i <= job.fds && table == Without(old(table), outFds[..i])
      {
        Close(outFds[i]);
        WithoutNext(old(table), outFds[..i], outFds[i]);
        assert outFds[..i + 1] == outFds[..i] + [outFds[i]];
        i := i + 1;
      }
      assert outFds[..i] == outFds[..];
      AllClosed(job.g, job.base, outFds[..]);
    }

    /** The second half of `group`: the receivers are there; fork the senders and close the write ends. */
    method FinishGroup(job: Job, outFds: array<nat>, ghost kids0: seq<Kid>, ghost tab0: seq<int>)
      returns (res: GroupResult, ghost n: nat)
      requires Valid() && job.off + 2 * job.fds <= childTab.Length == |tab0| && outFds.Length == job.fds >= 1
      requires Fresh(outFds[..], job.base) && table == job.base + OutTable(job.g, outFds[..])
      requires Started(job, outFds[..], job.fds, kids0, tab0, kids, childTab[..])
      modifies `table, `kids, `nextPid, `unreaped, `calls, childTab
      ensures calls == old(calls) + n - job.fds + if n < 2 * job.fds then 1 else 0
      ensures if n < 2 * job.fds then StopsAt(fails, old(calls), calls) else AllWell(fails, old(calls), calls)
      ensures Valid() && job.fds <= n <= 2 * job.fds && |unreaped| == |old(unreaped)| + n - job.fds
      ensures Started(job, outFds[..], n, kids0, tab0, kids, childTab[..])
      ensures res == Count(Reported(n, job.fds))
      ensures n == 2 * job.fds ==> table == job.base
    {
      hide Started, GroupKid, OutTable, Fresh, Valid;
      var err, i := ForkSenders(job, outFds, kids0, tab0);
      n := job.fds + i;
      if err {
        return Count(job.fds + i - 1), n;
      }
      CloseWriteEnds(job, outFds);
      return Count(job.fds * 2), n;
    }

    /**
     One group of senders and receivers. n workers are started; the count
     reported is n when all or none were, and one fewer otherwise. It stops at the
     first call that fails, and only there; without one, all are started.
     */
    method Group(job: Job) returns (res: GroupResult, ghost outs: seq<nat>, ghost n: nat)
      requires Valid() && job.fds >= 1 && job.off + 2 * job.fds <= childTab.Length && table == job.base
      modifies `table, `kids, `nextPid, `unreaped, `calls, childTab
      ensures Spent(fails, job.fds, n, res.Barfed?, old(calls), calls)
      ensures Valid() && Fresh(outs, job.base) && n <= 2 * job.fds && |unreaped| == |old(unreaped)| + n
      ensures Started(job, outs, n, old(kids), old(childTab[..]), kids, childTab[..])
      ensures res.Count? ==> res.n == Reported(n, job.fds)
      ensures res.Barfed? ==> n < job.fds
      ensures n == 2 * job.fds ==> table == job.base
    {
      n, outs := 0, [];
      assert Started(job, outs, 0, kids, childTab[..], kids, childTab[..]);
      assert Fresh(outs, job.base);
      hide Started, GroupKid, OutTable, Fresh, Valid, Spent, AllWell, StopsAt, Round;
      ghost var lo := calls;
      var memory := Malloc();
      if !memory {
        SpentNothing(fails, job.fds, lo);
        return Count(0), outs, n;
      }
      var outFds := new nat[job.fds];
      var step, i;
      step, i, outs := ForkReceivers(job, outFds);
      n := i;
      if step != Forked {
        SpentReceivers(fails, job.fds, i, step, lo, calls);
      }
      if step == NoPipe {
        return Barfed, outs, n;
      }
      if step == NoWorker {
        return Count(if i > 0 then i - 1 else 0), outs, n;
      }
      assert outs == outFds[..];
      res, n := FinishGroup(job, outFds, old(kids), old(childTab[..]));
      SpentSenders(fails, job.fds, n, lo, calls);
    }

    // ----- signal_workers and reap_workers

    method SignalWorkers(n: nat)
      requires n <= childTab.Length
      modifies `killed
      ensures killed == old(killed) + childTab[..n]
    {
      var i := 0;
      while i < n
        invariant i <= n && killed == old(killed) + childTab[..i]
      {
        killed := killed + [childTab[i]];
        i := i + 1;
      }
    }

    /** wait: some child that has ended, or -1 (ECHILD) when there is none left. */
    method Wait() returns (pid: int, exited: bool)
      modifies `unreaped, `waits, `abnormal
      ensures waits == old(waits) + 1
      ensures old(unreaped) == {} ==> pid == -1 && unreaped == {} && abnormal == old(abnormal)
      ensures old(unreaped) != {} ==> pid in old(unreaped) && unreaped == old(unreaped) - {pid}
      ensures old(unreaped) != {} ==> abnormal == old(abnormal) + (if exited then 0 else 1)
    {
      pid, exited := -1, true;
      if unreaped != {} {
        ghost var any := Missing({}, unreaped);
        pid :| pid in unreaped;
        exited := *;
        unreaped := unreaped - {pid};
        abnormal := abnormal + (if exited then 0 else 1);
      }
      waits := waits + 1;
    }

    method ReapWorkers(n: nat, dokill: bool) returns (rc: nat)
      requires Valid() && n <= childTab.Length
      modifies `killed, `unreaped, `waits, `abnormal
      ensures Valid() && killed == old(killed) + if dokill then childTab[..n] else []
      ensures waits == old(waits) + n
      ensures unreaped <= old(unreaped) && |unreaped| == if |old(unreaped)| < n then 0 else |old(unreaped)| - n
      ensures abnormal == old(abnormal) + rc
    {
      rc := 0;
      if dokill {
        SignalWorkers(n);
      }
      var i := 0;
      while i < n
        invariant i <= n && waits == old(waits) + i && Valid()
        invariant killed == old(killed) + if dokill then childTab[..n] else []
        invariant unreaped <= old(unreaped) && |unreaped| == if |old(unreaped)| < i then 0 else |old(unreaped)| - i
        invariant abnormal == old(abnormal) + rc
      {
        var pid, exited := Wait();
        if pid != -1 && !exited {
          rc := rc + 1;
        }
        i := i + 1;
      }
    }

    /** What main does when a group comes up short, before it exits. */
    method Abandon(n: nat)
      requires Valid() && killed == [] && waits == 0 && n <= |kids| <= childTab.Length
      requires forall k :: 0 <= k < |kids| ==> childTab[k] == kids[k].pid
      requires n <= |unreaped|
      modifies `killed, `unreaped, `waits, `abnormal
      ensures Valid() && waits == n == |killed| && |unreaped| == |old(unreaped)| - n
      ensures PidsOfFirst(killed, kids)
    {
      var rc := ReapWorkers(n, true);
    }

    // ----- main's setup loop

    /** Each started worker has a slot of its own, with a pid of its own in it. */
    lemma OwnSlots(first: Job, outs: seq<seq<nat>>, total: nat)
      requires Valid() && Layout(first, outs, kids, childTab[..], total)
      ensures |kids| <= childTab.Length && forall k :: 0 <= k < |kids| ==> childTab[k] == kids[k].pid > 0
      ensures forall k, m :: 0 <= k < m < |kids| ==> childTab[k] != childTab[m]
    {
      hide GroupKid, Fresh;
      assert forall k :: 0 <= k < |kids| ==> childTab[..][k] == childTab[k];
    }

    /** One round of main's loop, in terms of the groups so far: a group, and what main makes of the answer. */
    method NextGroup(first: Job, g: nat, ghost outs: seq<seq<nat>>, total: nat, ghost lo: nat)
      returns (res: SetupResult, ghost os: seq<nat>, ghost n: nat)
      requires Valid() && first.fds >= 1 && total + 2 * first.fds <= childTab.Length && table == first.base
      requires Layout(first, outs, kids, childTab[..], total) && |kids| == total == |unreaped|
      requires g == |outs| && lo <= calls && AllWell(fails, lo, calls)
      requires killed == [] && waits == 0
      modifies `table, `kids, `nextPid, `unreaped, `killed, `waits, `abnormal, `calls, childTab
      ensures Valid() && Layout(first, outs, kids, childTab[..], total)
      ensures n <= 2 * first.fds && |kids| == total + n && |unreaped| == |kids| - waits
      ensures res.AllForked? <==> n == 2 * first.fds
      ensures res.AllForked? ==>
        && table == first.base && Layout(first, outs + [os], kids, childTab[..], total + n)
        && calls == old(calls) + 2 * n + 1 && AllWell(fails, lo, calls)
      ensures !res.AllForked? ==>
        StopsAt(fails, lo, calls) && Spent(fails, first.fds, n, res.PipeFailed?, old(calls), calls)
      ensures res.PipeFailed? ==> n < first.fds
      ensures !res.CameUpShort? ==> killed == [] && waits == 0
      ensures res.CameUpShort? ==> |killed| == waits == total + Reported(n, first.fds)
      ensures PidsOfFirst(killed, kids)
    {
      hide Layout, Started, GroupKid, Fresh, Valid, AllWell, StopsAt, Spent, PidsOfFirst, Offset;
      ghost var kids0, tab0 := kids, childTab[..];
      LayoutTotal(first, outs, kids0, tab0, total);
      var c;
      c, os, n := Group(first.(g := g, off := total));
      SpentLater(fails, first.fds, n, c.Barfed?, lo, old(calls), calls);
      LayoutKept(first, outs, kids0, tab0, total, os, n, kids, childTab[..]);
      NoPids(kids);
      if c.Barfed? {
        return PipeFailed, os, n;
      }
      if c.n != first.fds * 2 {
        Abandon(total + c.n);
        return CameUpShort, os, n;
      }
      LayoutNext(first, outs, kids0, tab0, total, os, kids, childTab[..]);
      return AllForked, os, n;
    }

    /**
     Forks all groups. On success the child table is exactly filled, receivers
     and senders of each group in their own ranges. When a group comes up short,
     main signals and waits for a prefix of the workers it started, which leaves
     none, or just one, unreaped; a failed pipe ends the program without either.
     `first` is what the first group is called with.
     */
    method StartGroups(groups: nat, first: Job)
      returns (res: SetupResult, total: nat, ghost outs: seq<seq<nat>>, ghost forked: nat)
      requires Valid() && first == JobAt(first, 0) && first.fds >= 1 && childTab.Length == 2 * first.fds * groups < WORD
      requires kids == [] && unreaped == {} && killed == [] && waits == 0 && table == first.base
      modifies this`table, `kids, `nextPid, `unreaped, `killed, `waits, `abnormal, `calls, childTab
      ensures var whole := old(calls) + 2 * total + |outs|;
        if res.AllForked? then
          calls == whole && AllWell(fails, old(calls), calls)
        else
          StopsAt(fails, old(calls), calls) && Spent(fails, first.fds, forked, res.PipeFailed?, whole, calls)
      ensures Valid() && Layout(first, outs, kids, childTab[..], total)
      ensures forked <= 2 * first.fds && |kids| == total + forked && |unreaped| == |kids| - waits
      ensures !res.AllForked? ==> |outs| < groups && (res.PipeFailed? ==> forked < first.fds)
      ensures res.AllForked? ==> |outs| == groups && total == childTab.Length == |kids| && table == first.base
      ensures !res.CameUpShort? ==> killed == [] && waits == 0
      ensures res.CameUpShort? ==> forked < 2 * first.fds && |killed| == waits == total + Reported(forked, first.fds)
      ensures PidsOfFirst(killed, kids)
    {
      hide Layout, Started, GroupKid, Fresh, Valid, AllWell, StopsAt, Spent, PidsOfFirst, Offset, JobAt;
      total, outs, forked, res := 0, [], 0, AllForked;
      var g := 0;
      NoGroups(first, childTab[..]);
      NoCalls(fails, calls);
      while g < groups
        invariant g <= groups && |outs| == g && total == Offset(first.fds, g) == |kids| == |unreaped|
        invariant res.AllForked? && forked == 0
        invariant calls == old(calls) + 2 * total + g && AllWell(fails, old(calls), calls)
        invariant Valid() && killed == [] && waits == 0 && table == first.base
        invariant Layout(first, outs, kids, childTab[..], total)
      {
        OffsetFits(first.fds, g, groups);
        ghost var os;
        res, os, forked := NextGroup(first, g, outs, total, old(calls));
        if !res.AllForked? {
          return;
        }
        outs, forked := outs + [os], 0;
        total := total + 2 * first.fds;
        g := g + 1;
      }
      OffsetIs(first.fds, groups);
      NoPids(kids);
    }
  }

  // ----- the descriptor tables are those of the state machine

  /**
   What `group` built is what the state machine's workers hold: a receiver reads
   its own pipe, and after its first close holds only earlier write ends; a
   sender's j-th descriptor is the write end of pipe j.
   */
  lemma TablesMatchMachine(c: Config, job: Job, outs: seq<nat>, kid: Kid, k: nat)
    requires GroupKid(job, outs, kid, k) && Fresh(outs, job.base) && EndsOf(job.base) == Common()
    requires c.fds == job.fds && k < 2 * job.fds
    ensures k < job.fds ==>
      && kid.ctx.inFds.0 in kid.table && kid.table[kid.ctx.inFds.0] == Rd(job.g, k)
      && kid.ctx.inFds.1 in kid.table && kid.table[kid.ctx.inFds.1] == Wr(job.g, k)
      && EndsOf(kid.table) == Holds(c, Recv(job.g, k), Entry)
      && EndsOf(kid.table - {kid.ctx.inFds.1}) == Holds(c, Recv(job.g, k), Announce)
    ensures k >= job.fds ==>
      && EndsOf(kid.table) == Holds(c, Send(job.g, k - job.fds), Announce)
      && |kid.ctx.outFds| == job.fds
      && forall j :: 0 <= j < job.fds ==> kid.ctx.outFds[j] in kid.table && kid.table[kid.ctx.outFds[j]] == Wr(job.g, j)
  {
    hide Fresh, OutTable, EndsOf;
    if k < job.fds {
      ReceiverTable(job.g, job.base, outs, k, kid.ctx.inFds.0, kid.table);
    } else {
      OutTableEnds(job.g, outs, job.base);
      forall j | 0 <= j < job.fds ensures outs[j] in kid.table && kid.table[outs[j]] == Wr(job.g, j) {
        OutTableAt(job.g, outs, job.base, j);
      }
    }
  }

  // ----- the outcomes of the setup loop are states of the lifecycle

  /** The lifecycle's slots stand for the pids in the child table. */
  ghost predicate SlotsStandFor(slots: seq<Lifecycle.Slot>, kids: seq<Kid>, tab: seq<int>) {
    && |slots| == |tab| && |kids| <= |tab|
    && forall k :: 0 <= k < |kids| ==> slots[k] == Lifecycle.Pid(k) && tab[k] == kids[k].pid
  }

  /**
   However the setup loop ends, main is then in a reachable state of the
   lifecycle with the same counts and the same workers: about to collect the ready
   bytes, about to signal exactly the workers it counted, or gone.
   */
  lemma SetupInLifecycle(groups: nat, first: Job, res: SetupResult, outs: seq<seq<nat>>,
                         kids: seq<Kid>, tab: seq<int>, total: nat, forked: nat) returns (s: Lifecycle.State)
    requires groups >= 1 && first.fds >= 1 && |tab| == 2 * first.fds * groups
    requires Layout(first, outs, kids, tab, total) && |kids| == total + forked && forked <= 2 * first.fds
    requires res.AllForked? ==> |outs| == groups && forked == 0
    requires !res.AllForked? ==> |outs| < groups && forked < 2 * first.fds && (res.PipeFailed? ==> forked < first.fds)
    ensures Lifecycle.Reachable(Lifecycle.Config(groups, first.fds), s)
    ensures s.total == total && s.started == |kids| && SlotsStandFor(s.slots, kids, tab)
    ensures res.AllForked? ==> s.main.Running?
    ensures res.CameUpShort? ==> s.main == Lifecycle.Short(total + Reported(forked, first.fds))
    ensures res.PipeFailed? ==> s.main.Failed?
  {
    hide GroupKid, Fresh, Lifecycle.Reachable;
    var c := Lifecycle.Config(groups, first.fds);
    OffsetIs(first.fds, groups);
    if res.AllForked? {
      var t := Lifecycle.ForkedTo(c, groups - 1, 2 * first.fds);
      Lifecycle.ForkedReachable(c, groups - 1, 2 * first.fds);
      Lifecycle.ReachStep(c, t, Lifecycle.CountGroup);
      s := Lifecycle.Next(c, t, Lifecycle.CountGroup);
    } else {
      var t := Lifecycle.ForkedTo(c, |outs|, forked);
      Lifecycle.ForkedReachable(c, |outs|, forked);
      OffsetFits(first.fds, |outs|, groups);
      var a := if res.PipeFailed? then Lifecycle.PipeFails else Lifecycle.ForkFails(true);
      Lifecycle.ReachStep(c, t, a);
      s := Lifecycle.Next(c, t, a);
    }
  }
}
