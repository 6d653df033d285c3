/**
 The bodies of `sender` and `receiver`, call by call. The kernel's answers come
 from a script; the two loops are proved to be the state machine of Hackbench.dfy,
 whatever the kernel answers.
 */
module Workers {
  import opened Sums
  import opened Hackbench
  import opened HackbenchInvariant

  /** A system call of a worker, with what it asked for and what it got. */
  datatype Call =
    | CloseFd(fd: int)
    | ReadyWrite(fd: int)
    | PollWake(fd: int)
    | Data(fd: int, asked: nat, got: int)

  /** Returned from the function, left through `barf`, or still running when the script ends. */
  datatype Outcome = Returned | Barfed | Pending

  /** The kernel's answers to the barrier calls, and then to the data calls. */
  datatype Script = Script(readyAnswer: int, pollAnswer: int, data: seq<int>)

  /** What a read or write of `asked` bytes returns: an error, or at most what was asked. */
  function Answer(x: int, asked: nat): int {
    if x < 0 then -1 else if x > asked then asked else x
  }

  const START := Worker(Work, {}, 0, 0, 0)

  // ----- the state machine, driven by the script

  function SenderData(c: Config, outFds: seq<int>, w: Worker, data: seq<int>): (r: (Outcome, seq<Call>))
    requires |outFds| == c.fds && w.done <= c.size && (w.i < c.loops ==> w.j < c.fds)
    decreases |data|
  {
    if w.i >= c.loops then (Returned, [])
    else if data == [] then (Pending, [])
    else
      var asked := c.size - w.done;
      var got := Answer(data[0], asked);
      var call := Data(outFds[w.j], asked, got);
      if got < 0 then (Barfed, [call])
      else
        var (o, rest) := SenderData(c, outFds, SendNext(c, w, got), data[1..]);
        (o, [call] + rest)
  }

  function ReceiverData(c: Config, fd: int, w: Worker, data: seq<int>): (r: (Outcome, seq<Call>))
    requires w.done <= c.size
    decreases |data|
  {
    if Counter(w) >= c.packets then (Returned, [])
    else if data == [] then (Pending, [])
    else
      var asked := c.size - w.done;
      var got := Answer(data[0], asked);
      var call := Data(fd, asked, got);
      if got < 0 then (Barfed, [call])
      else
        var (o, rest) := ReceiverData(c, fd, RecvNext(c, w, got), data[1..]);
        (o, [call] + rest)
  }

  /** `ready`: report, then wait for GO; each call must answer 1. */
  function Barred(readyOut: int, wakeFd: int, s: Script): (r: (bool, seq<Call>)) {
    if s.readyAnswer != 1 then (false, [ReadyWrite(readyOut)])
    else (s.pollAnswer == 1, [ReadyWrite(readyOut), PollWake(wakeFd)])
  }

  /**
   Go means both calls answered 1. The report is the first call and is made once;
   the poll comes after it, and only after a report that was taken; nothing else
   is called.
   */
  method Ready(readyOut: int, wakeFd: int, s: Script) returns (go: bool, calls: seq<Call>)
    ensures go <==> s.readyAnswer == 1 && s.pollAnswer == 1
    ensures calls != [] && calls[0] == ReadyWrite(readyOut)
    ensures PollWake(wakeFd) in calls <==> s.readyAnswer == 1
    ensures forall k :: 1 <= k < |calls| ==> k == 1 && calls[k] == PollWake(wakeFd)
    ensures (go, calls) == Barred(readyOut, wakeFd, s)
  {
    calls := [ReadyWrite(readyOut)];
    if s.readyAnswer != 1 {
      return false, calls;
    }
    calls := [ReadyWrite(readyOut), PollWake(wakeFd)];
    if s.pollAnswer != 1 {
      return false, calls;
    }
    go := true;
  }

  /** A whole sender: the barrier, and if that was passed the data. */
  function SenderRun(c: Config, outFds: seq<int>, readyOut: int, wakeFd: int, s: Script): (r: (Outcome, seq<Call>))
    requires c.Sane() && |outFds| == c.fds
  {
    var (go, first) := Barred(readyOut, wakeFd, s);
    var (o, rest) := SenderData(c, outFds, START, s.data);
    if go then (o, first + rest) else (Barfed, first)
  }

  /** A whole receiver: it closes its copy of the write end before the barrier. */
  function ReceiverRun(c: Config, inFds: (int, int), readyOut: int, wakeFd: int, s: Script): (r: (Outcome, seq<Call>))
    requires c.Sane()
  {
    var (go, bar) := Barred(readyOut, wakeFd, s);
    var first := [CloseFd(inFds.1)] + bar;
    var (o, rest) := ReceiverData(c, inFds.0, START, s.data);
    if go then (o, first + rest) else (Barfed, first)
  }

  // ----- no data call before GO

  predicate OnlyData(calls: seq<Call>) {
    forall k :: 0 <= k < |calls| ==> calls[k].Data?
  }

  /** The data loops make data calls and no other. */
  lemma {:induction false} SenderOnlyData(c: Config, outFds: seq<int>, w: Worker, data: seq<int>)
    requires |outFds| == c.fds && w.done <= c.size && (w.i < c.loops ==> w.j < c.fds)
    ensures OnlyData(SenderData(c, outFds, w, data).1)
    decreases |data|
  {
    if w.i < c.loops && data != [] {
      var got := Answer(data[0], c.size - w.done);
      if got >= 0 {
        SenderOnlyData(c, outFds, SendNext(c, w, got), data[1..]);
      }
    }
  }

  lemma {:induction false} ReceiverOnlyData(c: Config, fd: int, w: Worker, data: seq<int>)
    requires w.done <= c.size
    ensures OnlyData(ReceiverData(c, fd, w, data).1)
    decreases |data|
  {
    if Counter(w) < c.packets && data != [] {
      var got := Answer(data[0], c.size - w.done);
      if got >= 0 {
        ReceiverOnlyData(c, fd, RecvNext(c, w, got), data[1..]);
      }
    }
  }

  /** In a worker's calls from index `from` on: the report, then the poll, and data only after both have answered 1. */
  predicate BarrierFirst(calls: seq<Call>, from: nat, readyOut: int, wakeFd: int, s: Script) {
    && |calls| > from && calls[from] == ReadyWrite(readyOut)
    && (|calls| > from + 1 ==> s.readyAnswer == 1 && calls[from + 1] == PollWake(wakeFd))
    && (|calls| > from + 2 ==> s.pollAnswer == 1)
    && forall k :: 0 <= k < |calls| ==> (calls[k].Data? <==> k >= from + 2)
  }

  /**
   The barrier of a single worker: a sender reports before anything else, polls
   only if the report was taken, and moves data only if the poll said GO. A
   receiver does the same after closing its copy of its write end.
   */
  lemma DataAfterBarrier(c: Config, outFds: seq<int>, inFds: (int, int), readyOut: int, wakeFd: int, s: Script)
    requires c.Sane() && |outFds| == c.fds
    ensures BarrierFirst(SenderRun(c, outFds, readyOut, wakeFd, s).1, 0, readyOut, wakeFd, s)
    ensures var calls := ReceiverRun(c, inFds, readyOut, wakeFd, s).1;
      BarrierFirst(calls, 1, readyOut, wakeFd, s) && calls[0] == CloseFd(inFds.1)
    ensures SenderRun(c, outFds, readyOut, wakeFd, s).0.Returned? ==> s.readyAnswer == 1 && s.pollAnswer == 1
    ensures ReceiverRun(c, inFds, readyOut, wakeFd, s).0.Returned? ==> s.readyAnswer == 1 && s.pollAnswer == 1
  {
    SenderOnlyData(c, outFds, START, s.data);
    ReceiverOnlyData(c, inFds.0, START, s.data);
    hide SenderData, ReceiverData;
  }

  // ----- the C loops

  /** After `calls` the machine that started at w has reached w', with the answers in data' left. */
  ghost predicate SenderAt(c: Config, outFds: seq<int>, w: Worker, data: seq<int>,
                           calls: seq<Call>, w': Worker, data': seq<int>)
    requires |outFds| == c.fds
    requires w.done <= c.size && (w.i < c.loops ==> w.j < c.fds)
  {
    && w'.done <= c.size && (w'.i < c.loops ==> w'.j < c.fds)
    && var rest := SenderData(c, outFds, w', data');
      SenderData(c, outFds, w, data) == (rest.0, calls + rest.1)
  }

  lemma SenderStarts(c: Config, outFds: seq<int>, data: seq<int>)
    requires c.Sane() && |outFds| == c.fds
    ensures SenderAt(c, outFds, START, data, [], START, data[0..])
  {
    assert data[0..] == data;
    var all := SenderData(c, outFds, START, data).1;
    assert [] + all == all;
  }

  lemma SenderUnfold(c: Config, outFds: seq<int>, w: Worker, data: seq<int>, call: Call)
    requires |outFds| == c.fds && w.done <= c.size && w.i < c.loops && w.j < c.fds && data != []
    requires call == Data(outFds[w.j], c.size - w.done, Answer(data[0], c.size - w.done))
    ensures call.got < 0 ==> SenderData(c, outFds, w, data) == (Barfed, [call])
    ensures call.got >= 0 ==>
      var rest := SenderData(c, outFds, SendNext(c, w, call.got), data[1..]);
      SenderData(c, outFds, w, data) == (rest.0, [call] + rest.1)
  {
  }

  /** The next call leaves the machine one transfer further on. */
  lemma SenderCall(c: Config, outFds: seq<int>, w: Worker, data: seq<int>,
                   calls: seq<Call>, w': Worker, pos: nat, call: Call)
    requires |outFds| == c.fds && w.done <= c.size && (w.i < c.loops ==> w.j < c.fds)
    requires pos < |data| && SenderAt(c, outFds, w, data, calls, w', data[pos..]) && w'.i < c.loops
    requires call == Data(outFds[w'.j], c.size - w'.done, Answer(data[pos], c.size - w'.done))
    ensures call.got < 0 ==> SenderData(c, outFds, w, data) == (Barfed, calls + [call])
    ensures call.got >= 0 ==> SenderAt(c, outFds, w, data, calls + [call], SendNext(c, w', call.got), data[pos + 1..])
  {
    hide SenderData;
    assert data[pos..][1..] == data[pos + 1..];
    SenderUnfold(c, outFds, w', data[pos..], call);
    if call.got >= 0 {
      var rest := SenderData(c, outFds, SendNext(c, w', call.got), data[pos + 1..]).1;
      assert calls + ([call] + rest) == (calls + [call]) + rest;
    }
  }

  lemma SenderStops(c: Config, outFds: seq<int>, w: Worker, data: seq<int>,
                    calls: seq<Call>, w': Worker, data': seq<int>)
    requires |outFds| == c.fds && w.done <= c.size && (w.i < c.loops ==> w.j < c.fds)
    requires SenderAt(c, outFds, w, data, calls, w', data')
    ensures w'.i >= c.loops ==> SenderData(c, outFds, w, data) == (Returned, calls)
    ensures w'.i < c.loops && data' == [] ==> SenderData(c, outFds, w, data) == (Pending, calls)
  {
    assert calls + [] == calls;
  }

  method Sender(c: Config, outFds: seq<int>, readyOut: int, wakeFd: int, s: Script)
    returns (outcome: Outcome, calls: seq<Call>)
    requires c.Sane() && |outFds| == c.fds
    ensures (outcome, calls) == SenderRun(c, outFds, readyOut, wakeFd, s)
  {
    var go, first := Ready(readyOut, wakeFd, s);
    if !go {
      return Barfed, first;
    }
    var sent: seq<Call> := [];
    SenderStarts(c, outFds, s.data);
    ghost var w := START;
    var pos, i := 0, 0;
    while i < c.loops
      invariant pos <= |s.data| && i <= c.loops && w == START.(i := i)
      invariant SenderAt(c, outFds, START, s.data, sent, w, s.data[pos..])
    {
      var j := 0;
      while j < c.fds
        invariant pos <= |s.data| && j <= c.fds
        invariant w == if j < c.fds then START.(i := i, j := j) else START.(i := i + 1)
        invariant SenderAt(c, outFds, START, s.data, sent, w, s.data[pos..])
      {
        var done := 0;
        while done < c.size
          invariant pos <= |s.data| && done <= c.size
          invariant done < c.size ==> w == START.(i := i, j := j, done := done)
          invariant done == c.size ==> w == if j + 1 < c.fds then START.(i := i, j := j + 1) else START.(i := i + 1)
          invariant SenderAt(c, outFds, START, s.data, sent, w, s.data[pos..])
          decreases |s.data| - pos
        {
          if pos == |s.data| {
            SenderStops(c, outFds, START, s.data, sent, w, s.data[pos..]);
            return Pending, first + sent;
          }
          var ret := Answer(s.data[pos], c.size - done);
          var call := Data(outFds[j], c.size - done, ret);
          SenderCall(c, outFds, START, s.data, sent, w, pos, call);
          sent := sent + [call];
          if ret < 0 {
            return Barfed, first + sent;
          }
          pos := pos + 1;
          w := SendNext(c, w, ret);
          done := done + ret;
        }
        j := j + 1;
      }
      i := i + 1;
    }
    SenderStops(c, outFds, START, s.data, sent, w, s.data[pos..]);
    return Returned, first + sent;
  }

  ghost predicate ReceiverAt(c: Config, fd: int, w: Worker, data: seq<int>,
                             calls: seq<Call>, w': Worker, data': seq<int>)
    requires w.done <= c.size
  {
    && w'.done <= c.size
    && var rest := ReceiverData(c, fd, w', data');
      ReceiverData(c, fd, w, data) == (rest.0, calls + rest.1)
  }

  lemma ReceiverStarts(c: Config, fd: int, data: seq<int>)
    ensures ReceiverAt(c, fd, START, data, [], START, data[0..])
  {
    assert data[0..] == data;
    var all := ReceiverData(c, fd, START, data).1;
    assert [] + all == all;
  }

  lemma ReceiverCall(c: Config, fd: int, w: Worker, data: seq<int>, calls: seq<Call>, w': Worker, pos: nat, call: Call)
    requires w.done <= c.size
    requires pos < |data| && ReceiverAt(c, fd, w, data, calls, w', data[pos..]) && Counter(w') < c.packets
    requires call == Data(fd, c.size - w'.done, Answer(data[pos], c.size - w'.done))
    ensures call.got < 0 ==> ReceiverData(c, fd, w, data) == (Barfed, calls + [call])
    ensures call.got >= 0 ==> ReceiverAt(c, fd, w, data, calls + [call], RecvNext(c, w', call.got), data[pos + 1..])
  {
    var d := data[pos..];
    assert d[1..] == data[pos + 1..];
    var here := ReceiverData(c, fd, w', d);
    assert here == if call.got < 0 then (Barfed, [call]) else
      var (o, rest) := ReceiverData(c, fd, RecvNext(c, w', call.got), d[1..]); (o, [call] + rest);
    if call.got >= 0 {
      var rest := ReceiverData(c, fd, RecvNext(c, w', call.got), d[1..]).1;
      assert calls + ([call] + rest) == (calls + [call]) + rest;
    }
  }

  lemma ReceiverStops(c: Config, fd: int, w: Worker, data: seq<int>, calls: seq<Call>, w': Worker, data': seq<int>)
    requires w.done <= c.size
    requires ReceiverAt(c, fd, w, data, calls, w', data')
    ensures Counter(w') >= c.packets ==> ReceiverData(c, fd, w, data) == (Returned, calls)
    ensures Counter(w') < c.packets && data' == [] ==> ReceiverData(c, fd, w, data) == (Pending, calls)
  {
    assert calls + [] == calls;
  }

  lemma CounterNext(w: Worker)
    ensures Counter(w.(i := w.i + 1)) == (Counter(w) + 1) % WORD
  {
  }

  method Receiver(c: Config, inFds: (int, int), readyOut: int, wakeFd: int, s: Script)
    returns (outcome: Outcome, calls: seq<Call>)
    requires c.Sane()
    ensures (outcome, calls) == ReceiverRun(c, inFds, readyOut, wakeFd, s)
  {
    var first := [CloseFd(inFds.1)];
    var go, bar := Ready(readyOut, wakeFd, s);
    first := first + bar;
    if !go {
      return Barfed, first;
    }
    var got: seq<Call> := [];
    ReceiverStarts(c, inFds.0, s.data);
    ghost var w := START;
    var pos, i := 0, 0;
    while i < c.packets
      invariant pos <= |s.data| && w == START.(i := w.i) && i == Counter(w)
      invariant ReceiverAt(c, inFds.0, START, s.data, got, w, s.data[pos..])
      decreases |s.data| - pos
    {
      ghost var n, entry := w, pos;
      var done := 0;
      while done < c.size
        invariant entry <= pos <= |s.data| && done <= c.size
        invariant done < c.size ==> w == n.(done := done)
        invariant done == c.size ==> w == n.(i := n.i + 1)
        invariant done > 0 ==> pos > entry
        invariant ReceiverAt(c, inFds.0, START, s.data, got, w, s.data[pos..])
        decreases |s.data| - pos
      {
        if pos == |s.data| {
          ReceiverStops(c, inFds.0, START, s.data, got, w, s.data[pos..]);
          return Pending, first + got;
        }
        var ret := Answer(s.data[pos], c.size - done);
        var call := Data(inFds.0, c.size - done, ret);
        ReceiverCall(c, inFds.0, START, s.data, got, w, pos, call);
        got := got + [call];
        if ret < 0 {
          return Barfed, first + got;
        }
        pos := pos + 1;
        w := RecvNext(c, w, ret);
        done := done + ret;
      }
      CounterNext(n);
      i := (i + 1) % WORD;
    }
    ReceiverStops(c, inFds.0, START, s.data, got, w, s.data[pos..]);
    return Returned, first + got;
  }

  // ----- what the two loops deliver

  /** Bytes the data calls on descriptor fd moved. */
  function BytesOn(calls: seq<Call>, fd: int): int {
    if calls == [] then 0
    else (if calls[0].Data? && calls[0].fd == fd && calls[0].got > 0 then calls[0].got else 0) + BytesOn(calls[1..], fd)
  }

  /** A sender that returns has moved every byte it still owed pipe j, on pipe j's own descriptor. */
  lemma {:induction false} SenderPays(c: Config, outFds: seq<int>, w: Worker, data: seq<int>, j: nat)
    requires c.Sane() && |outFds| == c.fds && j < c.fds
    requires forall x: nat, y: nat | x < y < |outFds| :: outFds[x] != outFds[y]
    requires SendOk(c, w) && w.pc == Work && w.done < c.size
    ensures var (o, calls) := SenderData(c, outFds, w, data);
      && (o.Returned? ==> SentTo(c, w, j) + BytesOn(calls, outFds[j]) == c.loops * c.size)
      && SentTo(c, w, j) + BytesOn(calls, outFds[j]) <= c.loops * c.size
    decreases |data|
  {
    if w.i >= c.loops {
    } else if data == [] {
      MulLess(w.i, c.loops, c.size);
    } else {
      var call := Data(outFds[w.j], c.size - w.done, Answer(data[0], c.size - w.done));
      SenderUnfold(c, outFds, w, data, call);
      if call.got < 0 {
        MulLess(w.i, c.loops, c.size);
      } else {
        SenderPays(c, outFds, SendNext(c, w, call.got), data[1..], j);
        TransferBytes(c, w, call.got, j);
      }
    }
  }

  lemma SenderDelivers(c: Config, outFds: seq<int>, data: seq<int>, j: nat)
    requires c.Sane() && |outFds| == c.fds && j < c.fds
    requires forall x: nat, y: nat | x < y < |outFds| :: outFds[x] != outFds[y]
    ensures var (o, calls) := SenderData(c, outFds, START, data);
      o.Returned? ==> BytesOn(calls, outFds[j]) == c.loops * c.size
  {
    SenderPays(c, outFds, START, data, j);
  }

  lemma ReceiverUnfold(c: Config, fd: int, w: Worker, data: seq<int>, call: Call)
    requires w.done <= c.size && Counter(w) < c.packets && data != []
    requires call == Data(fd, c.size - w.done, Answer(data[0], c.size - w.done))
    ensures call.got < 0 ==> ReceiverData(c, fd, w, data) == (Barfed, [call])
    ensures call.got >= 0 ==>
      var rest := ReceiverData(c, fd, RecvNext(c, w, call.got), data[1..]);
      ReceiverData(c, fd, w, data) == (rest.0, [call] + rest.1)
  {
  }

  /** A receiver returns only with a quota below 2^32, and then it has read exactly its quota. */
  lemma {:induction false} ReceiverTakes(c: Config, fd: int, w: Worker, data: seq<int>)
    requires c.Sane() && RecvOk(c, w) && w.pc == Work && w.done < c.size
    ensures var (o, calls) := ReceiverData(c, fd, w, data);
      o.Returned? ==> c.packets < WORD && Taken(c, w) + BytesOn(calls, fd) == c.packets * c.size
    decreases |data|
  {
    if Counter(w) < c.packets && data != [] {
      var call := Data(fd, c.size - w.done, Answer(data[0], c.size - w.done));
      ReceiverUnfold(c, fd, w, data, call);
      hide ReceiverData;
      if call.got >= 0 {
        ReceiverTakes(c, fd, RecvNext(c, w, call.got), data[1..]);
        TransferBytes(c, w, call.got, 0);
      }
    }
  }

  /** Whole messages, one per read, bring a receiver whose quota fits its counter to its return. */
  lemma {:induction false} WholeReads(c: Config, fd: int, n: nat) returns (data: seq<int>)
    requires c.Sane() && c.packets < WORD && n <= c.packets
    ensures ReceiverData(c, fd, START.(i := n), data).0.Returned?
    decreases c.packets - n
  {
    if n == c.packets {
      data := [];
    } else {
      var rest := WholeReads(c, fd, n + 1);
      data := [c.size as int] + rest;
      assert data[1..] == rest;
      ReceiverUnfold(c, fd, START.(i := n), data, Data(fd, c.size, c.size));
    }
  }

  /**
   The loop bound is 64 bits wide, the loop variable 32: the receiver can return
   exactly when the bound is below 2^32.
   */
  lemma ReceiverCanReturnIff(c: Config, fd: int)
    requires c.Sane()
    ensures (exists data :: ReceiverData(c, fd, START, data).0.Returned?) <==> c.packets < WORD
  {
    if c.packets < WORD {
      var data := WholeReads(c, fd, 0);
    } else {
      forall data ensures !ReceiverData(c, fd, START, data).0.Returned? {
        ReceiverTakes(c, fd, START, data);
      }
    }
  }

  /** A receiver with messages to come treats end of file as no progress: it asks again for the same bytes, forever. */
  lemma {:induction false} ReceiverSpinsOnEof(c: Config, fd: int, w: Worker, times: nat)
    requires w.done < c.size && Counter(w) < c.packets
    ensures ReceiverData(c, fd, w, seq(times, _ => 0)) == (Pending, seq(times, _ => Data(fd, c.size - w.done, 0)))
    decreases times
  {
    if times == 0 {
      assert seq(times, _ => 0) == [] && seq(times, _ => Data(fd, c.size - w.done, 0)) == [];
    } else {
      var data, calls := seq(times, _ => 0), seq(times, _ => Data(fd, c.size - w.done, 0));
      assert data[1..] == seq(times - 1, _ => 0);
      assert calls == [Data(fd, c.size - w.done, 0)] + seq(times - 1, _ => Data(fd, c.size - w.done, 0));
      ReceiverUnfold(c, fd, w, data, Data(fd, c.size - w.done, 0));
      ReceiverSpinsOnEof(c, fd, w, times - 1);
    }
  }

  // ----- the whole of a worker's function, for any answers of the kernel

  /**
   Data calls as the kernel answered them: each asks for something, up to a
   message, and got what the next answer says; only the last may have failed, and
   exactly then the worker barfed; it is still running only if it used up the answers.
   */
  predicate Answered(c: Config, o: Outcome, calls: seq<Call>, data: seq<int>) {
    && |calls| <= |data|
    && (forall k :: 0 <= k < |calls| ==>
          calls[k].Data? && 1 <= calls[k].asked <= c.size && calls[k].got == Answer(data[k], calls[k].asked))
    && (forall k :: 0 <= k < |calls| - 1 ==> calls[k].got >= 0)
    && (o.Barfed? <==> calls != [] && calls[|calls| - 1].got < 0)
    && (o.Pending? ==> |calls| == |data|)
  }

  lemma AnsweredNext(c: Config, o: Outcome, call: Call, calls: seq<Call>, data: seq<int>)
    requires data != [] && call.Data? && 1 <= call.asked <= c.size && call.got == Answer(data[0], call.asked)
    requires call.got >= 0 && Answered(c, o, calls, data[1..])
    ensures Answered(c, o, [call] + calls, data)
  {
    hide Answer;
    var all := [call] + calls;
    forall k | 0 <= k < |all|
      ensures all[k].Data? && 1 <= all[k].asked <= c.size && all[k].got == Answer(data[k], all[k].asked)
      ensures k < |all| - 1 ==> all[k].got >= 0
    {
      if k > 0 {
        assert all[k] == calls[k - 1] && data[k] == data[1..][k - 1];
      }
    }
  }

  lemma {:induction false} SenderAnswered(c: Config, outFds: seq<int>, w: Worker, data: seq<int>)
    requires c.Sane() && |outFds| == c.fds && w.done < c.size && w.j < c.fds
    ensures var (o, calls) := SenderData(c, outFds, w, data); Answered(c, o, calls, data)
    decreases |data|
  {
    if w.i < c.loops && data != [] {
      var call := Data(outFds[w.j], c.size - w.done, Answer(data[0], c.size - w.done));
      SenderUnfold(c, outFds, w, data, call);
      if call.got >= 0 {
        var next := SendNext(c, w, call.got);
        SenderAnswered(c, outFds, next, data[1..]);
        hide SenderData, Answered;
        var (o, calls) := SenderData(c, outFds, next, data[1..]);
        AnsweredNext(c, o, call, calls, data);
      }
    }
  }

  lemma {:induction false} ReceiverAnswered(c: Config, fd: int, w: Worker, data: seq<int>)
    requires c.Sane() && w.done < c.size
    ensures var (o, calls) := ReceiverData(c, fd, w, data); Answered(c, o, calls, data)
    decreases |data|
  {
    if Counter(w) < c.packets && data != [] {
      var call := Data(fd, c.size - w.done, Answer(data[0], c.size - w.done));
      ReceiverUnfold(c, fd, w, data, call);
      if call.got >= 0 {
        var next := RecvNext(c, w, call.got);
        ReceiverAnswered(c, fd, next, data[1..]);
        hide ReceiverData, Answered;
        var (o, calls) := ReceiverData(c, fd, next, data[1..]);
        AnsweredNext(c, o, call, calls, data);
      }
    }
  }

  lemma BytesOnSkip(call: Call, calls: seq<Call>, fd: int)
    requires !call.Data?
    ensures BytesOn([call] + calls, fd) == BytesOn(calls, fd)
  {
    assert ([call] + calls)[1..] == calls;
  }

  /** The calls of a worker from the report on: what comes after a barrier that was passed. */
  lemma PastBarrier(first: seq<Call>, readyOut: int, wakeFd: int, calls: seq<Call>, fd: int)
    requires first == [ReadyWrite(readyOut), PollWake(wakeFd)]
    ensures BytesOn(first + calls, fd) == BytesOn(calls, fd) && (first + calls)[2..] == calls
  {
    assert first + calls == [ReadyWrite(readyOut)] + ([PollWake(wakeFd)] + calls);
    BytesOnSkip(ReadyWrite(readyOut), [PollWake(wakeFd)] + calls, fd);
    BytesOnSkip(PollWake(wakeFd), calls, fd);
  }

  lemma NoBytes(calls: seq<Call>, fd: int)
    requires |calls| <= 3 && forall k :: 0 <= k < |calls| ==> !calls[k].Data?
    ensures BytesOn(calls, fd) == 0
  {
    if calls != [] {
      NoBytes(calls[1..], fd);
    }
  }

  /**
   `sender` from its first call to its last, whatever the kernel answers. If the
   report or the poll does not answer 1 it barfs without moving a byte. Otherwise
   its data calls are answered one by one; it returns only when it has written
   loops * size bytes to each pipe, and never writes more.
   */
  lemma SenderWhole(c: Config, outFds: seq<int>, readyOut: int, wakeFd: int, s: Script, j: nat)
    requires c.Sane() && |outFds| == c.fds && j < c.fds
    requires forall x: nat, y: nat | x < y < |outFds| :: outFds[x] != outFds[y]
    ensures var (o, calls) := SenderRun(c, outFds, readyOut, wakeFd, s);
      && (s.readyAnswer != 1 || s.pollAnswer != 1 ==> o.Barfed? && BytesOn(calls, outFds[j]) == 0)
      && (s.readyAnswer == s.pollAnswer == 1 ==> |calls| >= 2 && Answered(c, o, calls[2..], s.data))
      && (o.Returned? ==> BytesOn(calls, outFds[j]) == c.loops * c.size)
      && BytesOn(calls, outFds[j]) <= c.loops * c.size
  {
    var first := Barred(readyOut, wakeFd, s).1;
    if s.readyAnswer == s.pollAnswer == 1 {
      var calls := SenderData(c, outFds, START, s.data).1;
      PastBarrier(first, readyOut, wakeFd, calls, outFds[j]);
      SenderAnswered(c, outFds, START, s.data);
      SenderPays(c, outFds, START, s.data, j);
    } else {
      NoBytes(first, outFds[j]);
    }
  }

  lemma PastClose(close: Call, bar: seq<Call>, calls: seq<Call>, fd: int)
    requires |bar| == 2 && !close.Data?
    ensures ([close] + bar + calls)[0] == close && ([close] + bar + calls)[3..] == calls
    ensures BytesOn([close] + bar + calls, fd) == BytesOn(bar + calls, fd)
  {
    assert [close] + bar + calls == [close] + (bar + calls);
    BytesOnSkip(close, bar + calls, fd);
  }

  /** And `receiver`: it returns only when it has read its whole quota, which then fits its counter. */
  lemma ReceiverWhole(c: Config, inFds: (int, int), readyOut: int, wakeFd: int, s: Script)
    requires c.Sane()
    ensures var (o, calls) := ReceiverRun(c, inFds, readyOut, wakeFd, s);
      && calls != [] && calls[0] == CloseFd(inFds.1)
      && (s.readyAnswer != 1 || s.pollAnswer != 1 ==> o.Barfed? && BytesOn(calls, inFds.0) == 0)
      && (s.readyAnswer == s.pollAnswer == 1 ==> |calls| >= 3 && Answered(c, o, calls[3..], s.data))
      && (o.Returned? ==> c.packets < WORD && BytesOn(calls, inFds.0) == c.packets * c.size)
  {
    var bar := Barred(readyOut, wakeFd, s).1;
    if s.readyAnswer == s.pollAnswer == 1 {
      var calls := ReceiverData(c, inFds.0, START, s.data).1;
      PastBarrier(bar, readyOut, wakeFd, calls, inFds.0);
      ReceiverAnswered(c, inFds.0, START, s.data);
      ReceiverTakes(c, inFds.0, START, s.data);
      hide ReceiverData, Answered, BytesOn;
      PastClose(CloseFd(inFds.1), bar, calls, inFds.0);
    } else {
      NoBytes([CloseFd(inFds.1)] + bar, inFds.0);
    }
  }
}
