/**
 The measured sender of http_client.cpp: the request loop on the socket, and the
 handshake of the two processes around it, in any interleaving.
 */
module HttpClient {
  function Request(): (r: string)
    ensures r != ""
  {
    "GET / HTTP/1.1\r\nHost: www.scheduler_test.com\r\n\r\n"
  }

  // ----- the request loop

  function Copies(n: nat): string {
    if n == 0 then "" else Copies(n - 1) + Request()
  }

  /** What a write of `left` bytes takes when the kernel answers n: some but not necessarily all of them. */
  function Amount(n: int, left: nat): (r: nat)
    requires left >= 1
    ensures 1 <= r <= left
  {
    if 1 <= n <= left then n else left
  }

  /** How a request of which `left` bytes are to go fares from the lo-th write on, by the kernel's answers. */
  function Fate(answers: nat -> int, lo: nat, left: nat): (r: (bool, nat, nat))
    decreases left
  {
    if left == 0 then (true, lo, 0)
    else if answers(lo) < 0 then (false, lo + 1, 0)
    else
      var n := Amount(answers(lo), left);
      var r := Fate(answers, lo + 1, left - n);
      (r.0, r.1, n + r.2)
  }

  function FateOfAll(answers: nat -> int, lo: nat, n: nat): (bool, nat)
    decreases n
  {
    if n == 0 then (true, lo)
    else
      var r := Fate(answers, lo, |Request()|);
      if r.0 then FateOfAll(answers, r.1, n - 1) else (false, r.1)
  }

  /** No write from the lo-th to the one before the hi-th fails; or the last of them does, and no other. */
  ghost predicate Writes(answers: nat -> int, ok: bool, lo: nat, hi: nat) {
    if ok then forall k: nat :: lo <= k < hi ==> answers(k) >= 0
    else lo < hi && answers(hi - 1) < 0 && forall k: nat :: lo <= k < hi - 1 ==> answers(k) >= 0
  }

  /** A request goes out whole exactly when no write fails, in at least one write and at most one a byte. */
  lemma {:induction false} FateIs(answers: nat -> int, lo: nat, left: nat)
    ensures var (ok, hi, sent) := Fate(answers, lo, left);
      && lo <= hi <= lo + left && (left > 0 ==> lo < hi) && Writes(answers, ok, lo, hi)
      && sent <= left && (ok <==> sent == left)
    decreases left
  {
    if left > 0 && answers(lo) >= 0 {
      FateIs(answers, lo + 1, left - Amount(answers(lo), left));
    }
  }

  lemma FateEnd(answers: nat -> int, lo: nat)
    ensures Fate(answers, lo, 0) == (true, lo, 0)
  {
  }

  lemma FateStep(answers: nat -> int, lo: nat, left: nat)
    requires left > 0
    ensures answers(lo) < 0 ==> Fate(answers, lo, left) == (false, lo + 1, 0)
    ensures answers(lo) >= 0 ==>
      var n := Amount(answers(lo), left);
      var r := Fate(answers, lo + 1, left - n);
      Fate(answers, lo, left) == (r.0, r.1, n + r.2)
  {
  }

  lemma {:induction false} FateOfAllIs(answers: nat -> int, lo: nat, n: nat)
    ensures var (ok, hi) := FateOfAll(answers, lo, n);
      lo <= hi && (ok ==> lo + n <= hi) && Writes(answers, ok, lo, hi)
    decreases n
  {
    if n > 0 {
      var r := Fate(answers, lo, |Request()|);
      FateIs(answers, lo, |Request()|);
      hide Fate, Request;
      if r.0 {
        FateOfAllIs(answers, r.1, n - 1);
      }
    }
  }

  class Socket {
    var stream: string

    /** What the kernel answers to each write, and how many there have been. */
    const answers: nat -> int
    var writes: nat

    /** write: an error, or some but not necessarily all of the bytes. */
    method Write(data: string) returns (ret: int)
      requires data != ""
      modifies this
      ensures writes == old(writes) + 1
      ensures ret == if answers(old(writes)) < 0 then -1 else Amount(answers(old(writes)), |data|)
      ensures stream == old(stream) + if ret == -1 then "" else data[..ret]
    {
      var n := answers(writes);
      writes := writes + 1;
      if n < 0 {
        return -1;
      }
      ret := Amount(n, |data|);
      stream := stream + data[..ret];
    }

    /** send_get; false stands for the exit on a failed write. */
    method SendGet() returns (ok: bool, ghost sent: nat)
      modifies this
      ensures (ok, writes, sent) == Fate(answers, old(writes), |Request()|) && writes >= old(writes)
      ensures sent <= |Request()| && (ok <==> sent == |Request()|) && stream == old(stream) + Request()[..sent]
      ensures Writes(answers, ok, old(writes), writes)
    {
      hide Request, Writes, Fate, Amount;
      FateIs(answers, writes, |Request()|);
      var remaining, curr := |Request()|, 0;
      while remaining > 0
        invariant 0 <= remaining && curr + remaining == |Request()|
        invariant stream == old(stream) + Request()[..curr]
        invariant var r := Fate(answers, writes, remaining);
          Fate(answers, old(writes), |Request()|) == (r.0, r.1, curr + r.2)
      {
        ghost var before := curr;
        FateStep(answers, writes, remaining);
        var ret := Write(Request()[curr..]);
        if ret == -1 {
          return false, curr;
        }
        assert Request()[..before] + Request()[before..][..ret] == Request()[..before + ret];
        if ret <= remaining {
          remaining := remaining - ret;
          curr := curr + ret;
        }
      }
      FateEnd(answers, writes);
      return true, curr;
    }

    /** The sending loop of main. */
    method SendAll(numRequests: int) returns (ok: bool)
      modifies this
      ensures (ok, writes) == FateOfAll(answers, old(writes), if numRequests > 0 then numRequests else 0)
      ensures Writes(answers, ok, old(writes), writes)
      ensures ok ==> stream == old(stream) + Copies(if numRequests > 0 then numRequests else 0)
      ensures !ok ==> exists n: nat, k: nat ::
        n < numRequests && k < |Request()| && stream == old(stream) + Copies(n) + Request()[..k]
    {
      hide Request, Fate, Writes;
      FateOfAllIs(answers, writes, if numRequests > 0 then numRequests else 0);
      var totalSends := numRequests;
      ghost var done := 0;
      while totalSends > 0
        invariant done >= 0 && (numRequests > 0 ==> done + totalSends == numRequests && totalSends >= 0)
        invariant numRequests <= 0 ==> done == 0 && totalSends == numRequests
        invariant stream == old(stream) + Copies(done)
        invariant FateOfAll(answers, old(writes), if numRequests > 0 then numRequests else 0) ==
          FateOfAll(answers, writes, if totalSends > 0 then totalSends else 0)
      {
        ghost var before := stream;
        var sent, bytes := SendGet();
        if !sent {
          assert stream == before + Request()[..bytes];
          return false;
        }
        assert Request()[..bytes] == Request();
        assert old(stream) + Copies(done) + Request() == old(stream) + (Copies(done) + Request());
        done := done + 1;
        totalSends := totalSends - 1;
      }
      return true;
    }
  }

  // ----- an int64_t in memory

  type Byte = b: int | 0 <= b < 256

  const LIMIT: int := 0x8000_0000_0000_0000

  function LowBytes(n: nat, k: nat): (r: seq<Byte>)
    ensures |r| == k
  {
    if k == 0 then [] else [n % 256] + LowBytes(n / 256, k - 1)
  }

  function FromBytes(bytes: seq<Byte>): nat {
    if bytes == [] then 0 else bytes[0] + 256 * FromBytes(bytes[1..])
  }

  function Power(k: nat): nat {
    if k == 0 then 1 else 256 * Power(k - 1)
  }

  lemma {:induction false} BytesRoundTrip(n: nat, k: nat)
    requires n < Power(k)
    ensures FromBytes(LowBytes(n, k)) == n
  {
    if k > 0 {
      BytesRoundTrip(n / 256, k - 1);
      assert LowBytes(n, k)[1..] == LowBytes(n / 256, k - 1);
    }
  }

  /** Two's complement, least significant byte first. */
  function Encode(t: int): (r: seq<Byte>)
    requires -LIMIT <= t < LIMIT
    ensures |r| == 8
  {
    LowBytes(if t < 0 then t + 2 * LIMIT else t, 8)
  }

  function Decode(bytes: seq<Byte>): int {
    var n := FromBytes(bytes);
    if n >= LIMIT then n - 2 * LIMIT else n
  }

  lemma EncodeRoundTrip(t: int)
    requires -LIMIT <= t < LIMIT
    ensures Decode(Encode(t)) == t
  {
    var n := if t < 0 then t + 2 * LIMIT else t;
    assert Power(2) == 0x1_0000 && Power(4) == 0x1_0000_0000 && Power(6) == 0x1_0000_0000_0000;
    assert Power(8) == 2 * LIMIT;
    BytesRoundTrip(n, 8);
  }

  // ----- the handshake

  const START: Byte := 's' as int
  const READY: Byte := 'r' as int

  /** GaveUp: main left through one of its error exits, or was killed writing to a closed pipe. */
  datatype Parent = WriteStart | ReadReady | TakeStart | Sending | ReadEnd | WaitChild | Reported | GaveUp

  /** Failed: the receiver left through one of its error exits, or was killed writing to a closed pipe. */
  datatype Child = AwaitStart | WriteReady | Receiving | WriteEnd | Gone | Failed {
    predicate Over() {
      Gone? || Failed?
    }
  }

  /** How many requests main sends, and how many bytes the connection holds that the server has not read. */
  datatype Config = Config(requests: nat, room: nat)

  /**
   Main's sending loop and the connection: the requests left, how much of the
   current one is out, all bytes written so far, and how many are yet unread.
   */
  datatype Sock = Sock(left: nat, curr: nat, stream: string, unread: nat) {
    /** One write of n bytes, from where send_get is in its request. */
    function Sent(n: nat): Sock
      requires left > 0 && curr + n <= |Request()|
    {
      var more := stream + Request()[curr..curr + n];
      if curr + n < |Request()| then Sock(left, curr + n, more, unread + n)
      else Sock(left - 1, 0, more, unread + n)
    }
  }

  datatype State = State(
    parent: Parent, child: Child, toChild: seq<Byte>, toParent: seq<Byte>, clock: int,
    readyAt: int, start: int, recvDone: int, endTime: int, sock: Sock,
    ready: bool, mainFailed: bool, serverClosed: bool)
  {
    predicate ChildLeft() {
      child.Over()
    }

    predicate ParentLeft() {
      parent.Reported? || parent.GaveUp?
    }
  }

  /** One system call or clock reading of one process; the server reading or closing; time passing. */
  datatype Action =
    | Tick(dt: nat) | ServerReads(n: nat) | ServerCloses
    | ParentWrites | ParentReadsReady | ParentStamps | ParentSends(n: nat) | ParentShutsDown
    | ParentReadsEnd | ParentReaps | ParentFails
    | ChildReadsStart | ChildWritesReady | ChildReadsSome | ChildSeesEof | ChildWritesEnd | ChildFails

  function Initial(c: Config, t: int): State {
    State(WriteStart, AwaitStart, [], [], t, 0, 0, 0, 0, Sock(c.requests, 0, "", 0), false, false, false)
  }

  predicate Enabled(c: Config, s: State, a: Action) {
    match a
    case Tick(dt) => s.clock + dt < LIMIT
    case ServerReads(n) => 1 <= n <= s.sock.unread
    case ServerCloses => !s.serverClosed
    case ParentWrites => s.parent.WriteStart?
    case ParentReadsReady => s.parent.ReadReady? && (s.toParent != [] || s.ChildLeft())
    case ParentStamps => s.parent.TakeStart?
    case ParentSends(n) =>
      && s.parent.Sending? && s.sock.left > 0
      && 1 <= n && s.sock.curr + n <= |Request()| && s.sock.unread + n <= c.room
    case ParentFails => !s.ParentLeft() && !s.parent.WaitChild?
    case ParentShutsDown => s.parent.Sending? && s.sock.left == 0
    case ParentReadsEnd => s.parent.ReadEnd? && (s.toParent != [] || s.ChildLeft())
    case ParentReaps => s.parent.WaitChild? && s.ChildLeft()
    case ChildReadsStart => s.child.AwaitStart? && (s.toChild != [] || s.ParentLeft())
    case ChildWritesReady => s.child.WriteReady?
    case ChildReadsSome => s.child.Receiving? && !s.serverClosed
    case ChildFails => !s.ChildLeft()
    case ChildSeesEof => s.child.Receiving? && s.serverClosed
    case ChildWritesEnd => s.child.WriteEnd? && -LIMIT <= s.recvDone < LIMIT
  }

  /** read(child_to_parent, ..., 8): up to eight bytes of what is there, none at end of file. */
  function EndBytes(s: State): seq<Byte> {
    if |s.toParent| > 8 then s.toParent[..8] else s.toParent
  }

  function Next(c: Config, s: State, a: Action): State
    requires Enabled(c, s, a)
  {
    match a
    case Tick(dt) => s.(clock := s.clock + dt)
    case ServerReads(n) => s.(sock := s.sock.(unread := s.sock.unread - n))
    case ServerCloses => s.(serverClosed := true)
    case ParentWrites =>
      if s.ChildLeft() then s.(parent := GaveUp) else s.(parent := ReadReady, toChild := s.toChild + [START])
    case ParentReadsReady =>
      if s.toParent == [] then s.(parent := GaveUp)
      else s.(toParent := s.toParent[1..], parent := if s.toParent[0] == READY then TakeStart else GaveUp)
    case ParentStamps => s.(parent := Sending, start := s.clock)
    case ParentSends(n) => s.(sock := s.sock.Sent(n))
    case ParentFails => s.(parent := GaveUp, mainFailed := true)
    case ParentShutsDown => s.(parent := ReadEnd)
    case ParentReadsEnd =>
      if |EndBytes(s)| != 8 then s.(parent := GaveUp, toParent := s.toParent[|EndBytes(s)|..])
      else s.(parent := WaitChild, toParent := s.toParent[8..], endTime := Decode(EndBytes(s)))
    case ParentReaps => s.(parent := Reported)
    case ChildReadsStart =>
      if s.toChild == [] then s.(child := Failed) else s.(child := WriteReady, toChild := s.toChild[1..])
    case ChildWritesReady =>
      if s.ParentLeft() then s.(child := Failed)
      else s.(child := Receiving, toParent := s.toParent + [READY], ready := true, readyAt := s.clock)
    case ChildReadsSome => s
    case ChildFails => s.(child := Failed)
    case ChildSeesEof => s.(child := WriteEnd, recvDone := s.clock)
    case ChildWritesEnd =>
      if s.ParentLeft() then s.(child := Failed) else s.(child := Gone, toParent := s.toParent + Encode(s.recvDone))
  }

  ghost predicate IsRun(c: Config, s: State, acts: seq<Action>)
    decreases |acts|
  {
    acts == [] || (Enabled(c, s, acts[0]) && IsRun(c, Next(c, s, acts[0]), acts[1..]))
  }

  ghost function After(c: Config, s: State, acts: seq<Action>): State
    requires IsRun(c, s, acts)
    decreases |acts|
  {
    if acts == [] then s else After(c, Next(c, s, acts[0]), acts[1..])
  }

  /** Main has read the ready byte and has not left. */
  predicate Past(p: Parent) {
    p.TakeStart? || p.Sending? || p.ReadEnd? || p.WaitChild? || p.Reported?
  }

  /** Main has read the eight bytes. */
  predicate HasEnd(p: Parent) {
    p.WaitChild? || p.Reported?
  }

  /** What each pipe holds, read off the two processes' positions while main is in place. */
  ghost predicate Pipes(s: State)
    requires -LIMIT <= s.recvDone < LIMIT
  {
    && (s.parent.WriteStart? ==> s.child.AwaitStart? || s.child.Failed?)
    && (s.child.AwaitStart? ==> s.toChild == if s.parent.WriteStart? then [] else [START])
    && s.toParent == (if s.ready && !Past(s.parent) then [READY] else [])
                     + if s.child.Gone? && !HasEnd(s.parent) then Encode(s.recvDone) else []
  }

  /** What the stream holds: the requests done, and the part of the current one that is out. */
  predicate SockOk(c: Config, k: Sock) {
    && k.left <= c.requests && k.curr < |Request()| && (k.left == 0 ==> k.curr == 0)
    && k.stream == Copies(c.requests - k.left) + Request()[..k.curr]
    && k.unread <= c.room && k.unread <= |k.stream|
  }

  lemma SentOk(c: Config, k: Sock, n: nat)
    requires SockOk(c, k) && k.left > 0 && 1 <= n && k.curr + n <= |Request()| && k.unread + n <= c.room
    ensures SockOk(c, k.Sent(n)) && k.Sent(n).stream != ""
  {
    hide Request;
    var done, out := Copies(c.requests - k.left), Request()[..k.curr];
    assert out + Request()[k.curr..k.curr + n] == Request()[..k.curr + n];
    assert k.Sent(n).stream == done + (out + Request()[k.curr..k.curr + n]);
  }

  /** When all requests are sent the stream is that many whole copies. */
  lemma AllSent(c: Config, k: Sock)
    requires SockOk(c, k) && k.left == 0
    ensures k.stream == Copies(c.requests)
  {
    hide Request;
  }

  ghost predicate Inv(c: Config, s: State) {
    && -LIMIT <= s.clock < LIMIT && -LIMIT <= s.recvDone < LIMIT
    && (!s.parent.GaveUp? ==> Pipes(s))
    && (s.mainFailed ==> s.parent.GaveUp?)
    && (s.parent.GaveUp? ==> s.mainFailed || s.child.Failed?)
    && (s.child.AwaitStart? || s.child.WriteReady? ==> !s.ready)
    && (s.child.Receiving? || s.child.WriteEnd? || s.child.Gone? || Past(s.parent) ==> s.ready)
    && (HasEnd(s.parent) ==> s.child.Gone? && s.endTime == s.recvDone)
    && (s.ready ==> s.readyAt <= s.clock)
    && (Past(s.parent) && !s.parent.TakeStart? ==> s.readyAt <= s.start <= s.clock)
    && (s.child.WriteEnd? || s.child.Gone? ==> s.readyAt <= s.recvDone <= s.clock && s.serverClosed)
    && SockOk(c, s.sock)
    && (s.parent.WriteStart? || s.parent.ReadReady? || s.parent.TakeStart? ==> s.sock.stream == "")
    && (s.sock.stream != "" ==> s.ready && s.readyAt <= s.start)
    && (s.parent.ReadEnd? || HasEnd(s.parent) ==> s.sock.left == 0)
  }

  /** Main's two reads: what it takes is the ready byte, and the receiver's time stamp. */
  lemma InvMainReads(c: Config, s: State, a: Action)
    requires Inv(c, s) && Enabled(c, s, a) && (a.ParentReadsReady? || a.ParentReadsEnd?)
    ensures Inv(c, Next(c, s, a))
  {
    hide SockOk, Encode, Decode, Request, Sock.Sent;
    EncodeRoundTrip(s.recvDone);
    if a.ParentReadsEnd? {
      assert s.toParent == if s.child.Gone? then Encode(s.recvDone) else [];
    } else if s.toParent != [] {
      assert s.toParent[0] == READY;
    }
  }

  predicate OfChild(a: Action) {
    || a.ChildReadsStart? || a.ChildWritesReady? || a.ChildReadsSome? || a.ChildSeesEof? || a.ChildWritesEnd?
    || a.ChildFails?
  }

  lemma InvChild(c: Config, s: State, a: Action)
    requires Inv(c, s) && Enabled(c, s, a) && OfChild(a)
    ensures Inv(c, Next(c, s, a))
  {
    hide SockOk, Encode, Decode, EndBytes, Request, Sock.Sent;
    assert Next(c, s, a).sock == s.sock;
  }

  lemma UnreadOk(c: Config, k: Sock, n: nat)
    requires SockOk(c, k) && n <= k.unread
    ensures SockOk(c, k.(unread := k.unread - n))
  {
    hide Request, Copies;
  }

  lemma PipesKept(s: State, k: Sock)
    requires -LIMIT <= s.recvDone < LIMIT
    ensures Pipes(s.(sock := k)) == Pipes(s)
  {
    hide Encode;
  }

  /** Main's writes into the connection, and the server's reads out of it. */
  lemma InvSocket(c: Config, s: State, a: Action)
    requires Inv(c, s) && Enabled(c, s, a) && (a.ParentSends? || a.ServerReads?)
    ensures Inv(c, Next(c, s, a))
  {
    if a.ParentSends? {
      SentOk(c, s.sock, a.n);
    } else {
      UnreadOk(c, s.sock, a.n);
    }
    hide SockOk, Encode, Decode, EndBytes, Request, Pipes, Sock.Sent;
    assert Pipes(Next(c, s, a)) == Pipes(s) by {
      PipesKept(s, Next(c, s, a).sock);
    }
  }

  lemma InvMain(c: Config, s: State, a: Action)
    requires Inv(c, s) && Enabled(c, s, a)
    requires a.Tick? || a.ServerCloses? || a.ParentWrites? || a.ParentStamps? || a.ParentShutsDown? || a.ParentReaps?
      || a.ParentFails?
    ensures Inv(c, Next(c, s, a))
  {
    hide SockOk, Encode, Decode, EndBytes, Request, Sock.Sent;
    assert Next(c, s, a).sock == s.sock;
  }

  lemma InvStep(c: Config, s: State, a: Action)
    requires Inv(c, s) && Enabled(c, s, a)
    ensures Inv(c, Next(c, s, a))
  {
    hide Inv, Enabled, Next;
    match a
    case ParentReadsReady => InvMainReads(c, s, a);
    case ParentReadsEnd => InvMainReads(c, s, a);
    case ChildReadsStart => InvChild(c, s, a);
    case ChildWritesReady => InvChild(c, s, a);
    case ChildReadsSome => InvChild(c, s, a);
    case ChildSeesEof => InvChild(c, s, a);
    case ChildWritesEnd => InvChild(c, s, a);
    case ChildFails => InvChild(c, s, a);
    case ParentSends(_) => InvSocket(c, s, a);
    case ServerReads(_) => InvSocket(c, s, a);
    case _ => InvMain(c, s, a);
  }

  lemma InitialInv(c: Config, t: int)
    requires -LIMIT <= t < LIMIT
    ensures Inv(c, Initial(c, t))
  {
    hide Request;
  }

  lemma {:induction false} RunInv(c: Config, s: State, acts: seq<Action>)
    requires Inv(c, s) && IsRun(c, s, acts)
    ensures Inv(c, After(c, s, acts))
    decreases |acts|
  {
    if acts != [] {
      InvStep(c, s, acts[0]);
      RunInv(c, Next(c, s, acts[0]), acts[1..]);
    }
  }

  /**
   In every interleaving, with either process failing at any point: the start
   time is taken only after the receiver's ready byte, and before any byte of a
   request; what main reports is the receiver's own time stamp, and by then it
   has handed over exactly its requests and the server has closed; main gives up
   only if one of the two failed, and reports nothing about a receiver that did.
   */
  lemma Handshake(c: Config, t: int, acts: seq<Action>)
    requires -LIMIT <= t < LIMIT && IsRun(c, Initial(c, t), acts)
    ensures var s := After(c, Initial(c, t), acts);
      && (s.parent.Sending? || s.parent.ReadEnd? || HasEnd(s.parent) ==> s.ready && s.readyAt <= s.start)
      && (s.sock.stream != "" ==> s.ready && s.readyAt <= s.start)
      && (s.sock.stream != "" ==> !s.parent.WriteStart? && !s.parent.ReadReady? && !s.parent.TakeStart?)
      && (HasEnd(s.parent) ==> s.endTime == s.recvDone && s.readyAt <= s.recvDone && s.serverClosed)
      && (s.parent.ReadEnd? || HasEnd(s.parent) ==> s.sock.stream == Copies(c.requests))
      && (s.parent.GaveUp? ==> s.mainFailed || s.child.Failed?)
      && (s.child.Failed? ==> !HasEnd(s.parent))
  {
    hide Pipes, IsRun, After, Initial, Request, SockOk;
    InitialInv(c, t);
    RunInv(c, Initial(c, t), acts);
    var s := After(c, Initial(c, t), acts);
    if s.sock.left == 0 {
      AllSent(c, s.sock);
    }
  }

  predicate GoesOn(c: Config, s: State, a: Action) {
    && Enabled(c, s, a)
    && !a.Tick? && !a.ChildReadsSome? && !a.ParentFails? && !a.ChildFails?
    && (a.ServerReads? ==> s.parent.Sending? && s.sock.unread == c.room)
    && (a.ServerCloses? ==> s.child.Receiving? && s.parent.ReadEnd?)
  }

  /** Main can write, or is through, or waits for the server to read. */
  lemma SendingGoesOn(c: Config, s: State) returns (a: Action)
    requires c.room >= 1 && s.parent.Sending? && SockOk(c, s.sock)
    ensures GoesOn(c, s, a)
  {
    hide Request, Copies;
    a := if s.sock.left == 0 then ParentShutsDown
         else if s.sock.unread < c.room then ParentSends(1)
         else ServerReads(1);
  }

  lemma Progress(c: Config, s: State) returns (a: Action)
    requires c.room >= 1 && Inv(c, s) && !s.ParentLeft()
    ensures GoesOn(c, s, a)
  {
    hide SockOk, Encode, Request, Sock.Sent;
    if s.child.WriteReady? {
      a := ChildWritesReady;
    } else if s.child.AwaitStart? && s.toChild != [] {
      a := ChildReadsStart;
    } else if s.child.WriteEnd? {
      a := ChildWritesEnd;
    } else if s.parent.WriteStart? {
      a := ParentWrites;
    } else if s.parent.ReadReady? {
      a := ParentReadsReady;
    } else if s.parent.TakeStart? {
      a := ParentStamps;
    } else if s.parent.Sending? {
      a := SendingGoesOn(c, s);
    } else if s.child.Receiving? {
      a := if s.serverClosed then ChildSeesEof else ServerCloses;
    } else if s.parent.ReadEnd? {
      a := ParentReadsEnd;
    } else {
      a := ParentReaps;
    }
  }

  /**
   Until main has reported or left, a process can go on without failing, or it is
   the server's turn: to read, when main has filled the connection, or to close,
   when main has sent all.
   */
  lemma NoDeadlock(c: Config, t: int, acts: seq<Action>) returns (a: Action)
    requires c.room >= 1 && -LIMIT <= t < LIMIT && IsRun(c, Initial(c, t), acts)
    requires !After(c, Initial(c, t), acts).ParentLeft()
    ensures GoesOn(c, After(c, Initial(c, t), acts), a)
  {
    hide Inv, IsRun, After, Initial, GoesOn;
    InitialInv(c, t);
    RunInv(c, Initial(c, t), acts);
    a := Progress(c, After(c, Initial(c, t), acts));
  }

  function Stage(p: Parent): nat {
    match p
    case WriteStart => 6 case ReadReady => 5 case TakeStart => 4 case Sending => 3 case ReadEnd => 2
    case WaitChild => 1 case Reported => 0 case GaveUp => 0
  }

  function ChildStage(c: Child): nat {
    match c
    case AwaitStart => 4 case WriteReady => 3 case Receiving => 2 case WriteEnd => 1 case Gone => 0 case Failed => 0
  }

  /** Bytes still to be written, each to be read by the server afterwards, and bytes it has yet to read. */
  function BytesLeft(k: Sock): int {
    2 * (|Copies(k.left)| - k.curr) + k.unread
  }

  lemma SentLess(k: Sock, n: nat)
    requires k.left > 0 && 1 <= n && k.curr + n <= |Request()|
    ensures BytesLeft(k.Sent(n)) == BytesLeft(k) - n
  {
    hide Request;
  }

  lemma BytesNonNegative(c: Config, k: Sock)
    requires SockOk(c, k)
    ensures BytesLeft(k) >= 0
  {
    hide Request;
  }

  lemma ReadLess(k: Sock, n: nat)
    requires n <= k.unread
    ensures BytesLeft(k.(unread := k.unread - n)) == BytesLeft(k) - n
  {
    hide Copies;
  }

  /** How far the two processes and the server's close are from their ends. */
  function Steps(s: State): nat {
    Stage(s.parent) + ChildStage(s.child) + if s.serverClosed then 0 else 1
  }

  /** What is left of a run: every step but the clock's and a receiver's partial read uses some of it up. */
  function Left(s: State): int {
    Steps(s) + BytesLeft(s.sock)
  }

  lemma ChildStep(c: Config, s: State, a: Action)
    requires Enabled(c, s, a) && OfChild(a)
    ensures Next(c, s, a).sock == s.sock
    ensures if a.ChildReadsSome? then Next(c, s, a) == s else Steps(Next(c, s, a)) < Steps(s)
  {
    hide Encode, Decode, EndBytes, Request, Sock.Sent;
  }

  lemma MainStep(c: Config, s: State, a: Action)
    requires Enabled(c, s, a) && !OfChild(a) && !a.ParentSends? && !a.ServerReads?
    ensures Next(c, s, a).sock == s.sock
    ensures if a.Tick? then Steps(Next(c, s, a)) == Steps(s) else Steps(Next(c, s, a)) < Steps(s)
  {
    hide Encode, Decode, EndBytes, Request, Sock.Sent;
  }

  lemma BytesStep(c: Config, s: State, a: Action)
    requires Enabled(c, s, a) && (a.ParentSends? || a.ServerReads?)
    ensures Steps(Next(c, s, a)) == Steps(s)
    ensures BytesLeft(Next(c, s, a).sock) < BytesLeft(s.sock)
  {
    if a.ParentSends? {
      SentLess(s.sock, a.n);
    } else {
      ReadLess(s.sock, a.n);
    }
    hide Encode, Decode, EndBytes, Request, Sock.Sent, BytesLeft;
  }

  lemma SockIn(c: Config, s: State)
    requires Inv(c, s)
    ensures SockOk(c, s.sock)
  {
    hide Pipes, SockOk;
  }

  lemma StepsUseUp(c: Config, s: State, a: Action)
    requires Inv(c, s) && Enabled(c, s, a)
    ensures 0 <= Left(Next(c, s, a)) <= Left(s)
    ensures !a.Tick? && !a.ChildReadsSome? ==> Left(Next(c, s, a)) < Left(s)
  {
    InvStep(c, s, a);
    SockIn(c, Next(c, s, a));
    hide Inv, Enabled, Next, BytesLeft, Steps, OfChild;
    BytesNonNegative(c, Next(c, s, a).sock);
    if a.ParentSends? || a.ServerReads? {
      BytesStep(c, s, a);
    } else if OfChild(a) {
      ChildStep(c, s, a);
    } else {
      MainStep(c, s, a);
    }
  }

  // ----- the measured times, as properties of histories

  /** The time that passes in a history. */
  function Elapsed(acts: seq<Action>): nat {
    if acts == [] then 0 else (if acts[0].Tick? then acts[0].dt else 0) + Elapsed(acts[1..])
  }

  lemma {:induction false} ElapsedFirst(a: Action, acts: seq<Action>, k: nat)
    requires 1 <= k <= |acts| + 1
    ensures Elapsed(([a] + acts)[..k]) == (if a.Tick? then a.dt else 0) + Elapsed(acts[..k - 1])
  {
    assert ([a] + acts)[..k][1..] == acts[..k - 1];
  }

  lemma ClockStep(c: Config, s: State, a: Action)
    requires Enabled(c, s, a)
    ensures Next(c, s, a).clock == s.clock + if a.Tick? then a.dt else 0
  {
    hide Encode, Decode, EndBytes, Request, Sock.Sent;
  }

  lemma {:induction false} ClockIs(c: Config, s: State, acts: seq<Action>)
    requires IsRun(c, s, acts)
    ensures After(c, s, acts).clock == s.clock + Elapsed(acts)
    decreases |acts|
  {
    hide Enabled, Next;
    if acts != [] {
      ClockStep(c, s, acts[0]);
      ClockIs(c, Next(c, s, acts[0]), acts[1..]);
    }
  }

  predicate Stamped(p: Parent) {
    p.Sending? || p.ReadEnd? || HasEnd(p)
  }

  /** Main reads its clock once, on its way from the ready byte to the sending loop, and keeps what it read. */
  lemma StampStep(c: Config, s: State, a: Action)
    requires Enabled(c, s, a)
    ensures var t := Next(c, s, a);
      && (a.ParentStamps? ==> Stamped(t.parent) && t.start == s.clock)
      && (!a.ParentStamps? ==> t.start == s.start && (Stamped(t.parent) ==> Stamped(s.parent)))
      && (Stamped(s.parent) || s.parent.GaveUp? ==> !a.ParentStamps? && (Stamped(t.parent) || t.parent.GaveUp?))
  {
    hide Encode, Decode, EndBytes, Request, Sock.Sent;
  }

  /** The receiver reads its clock once, at the end of file, and keeps what it read. */
  lemma DoneStep(c: Config, s: State, a: Action)
    requires Enabled(c, s, a)
    ensures var t := Next(c, s, a);
      && (a.ChildSeesEof? ==> t.child.WriteEnd? && t.recvDone == s.clock)
      && (!a.ChildSeesEof? ==> t.recvDone == s.recvDone)
      && (!a.ChildSeesEof? && (t.child.WriteEnd? || t.child.Gone?) ==> s.child.WriteEnd? || s.child.Gone?)
      && (s.child.WriteEnd? || s.child.Over() ==> !a.ChildSeesEof? && (t.child.WriteEnd? || t.child.Over()))
  {
    hide Encode, Decode, EndBytes, Request, Sock.Sent;
  }

  lemma {:induction false} StartKept(c: Config, s: State, acts: seq<Action>)
    requires IsRun(c, s, acts) && (Stamped(s.parent) || s.parent.GaveUp?)
    ensures After(c, s, acts).start == s.start
    decreases |acts|
  {
    hide Enabled, Next;
    if acts != [] {
      StampStep(c, s, acts[0]);
      StartKept(c, Next(c, s, acts[0]), acts[1..]);
    }
  }

  lemma {:induction false} DoneKept(c: Config, s: State, acts: seq<Action>)
    requires IsRun(c, s, acts) && (s.child.WriteEnd? || s.child.Over())
    ensures After(c, s, acts).recvDone == s.recvDone
    decreases |acts|
  {
    hide Enabled, Next;
    if acts != [] {
      DoneStep(c, s, acts[0]);
      DoneKept(c, Next(c, s, acts[0]), acts[1..]);
    }
  }

  /** Wherever main reads its clock in a history, what it has as its start time ever after is the time then. */
  lemma {:induction false} StartIs(c: Config, s: State, acts: seq<Action>, k: nat)
    requires IsRun(c, s, acts) && k < |acts| && acts[k].ParentStamps?
    ensures After(c, s, acts).start == s.clock + Elapsed(acts[..k])
    decreases k
  {
    hide Enabled, Next;
    var t := Next(c, s, acts[0]);
    StampStep(c, s, acts[0]);
    if k == 0 {
      StartKept(c, t, acts[1..]);
      assert acts[..0] == [];
    } else {
      ClockStep(c, s, acts[0]);
      StartIs(c, t, acts[1..], k - 1);
      assert acts == [acts[0]] + acts[1..];
      ElapsedFirst(acts[0], acts[1..], k);
    }
  }

  lemma {:induction false} DoneIs(c: Config, s: State, acts: seq<Action>, k: nat)
    requires IsRun(c, s, acts) && k < |acts| && acts[k].ChildSeesEof?
    ensures After(c, s, acts).recvDone == s.clock + Elapsed(acts[..k])
    decreases k
  {
    hide Enabled, Next;
    var t := Next(c, s, acts[0]);
    DoneStep(c, s, acts[0]);
    if k == 0 {
      DoneKept(c, t, acts[1..]);
      assert acts[..0] == [];
    } else {
      ClockStep(c, s, acts[0]);
      DoneIs(c, t, acts[1..], k - 1);
      assert acts == [acts[0]] + acts[1..];
      ElapsedFirst(acts[0], acts[1..], k);
    }
  }

  lemma {:induction false} StampedBy(c: Config, s: State, acts: seq<Action>) returns (k: nat)
    requires IsRun(c, s, acts) && !Stamped(s.parent) && Stamped(After(c, s, acts).parent)
    ensures k < |acts| && acts[k].ParentStamps?
    decreases |acts|
  {
    hide Enabled, Next;
    StampStep(c, s, acts[0]);
    if acts[0].ParentStamps? {
      k := 0;
    } else {
      k := StampedBy(c, Next(c, s, acts[0]), acts[1..]);
      k := k + 1;
    }
  }

  lemma {:induction false} DoneBy(c: Config, s: State, acts: seq<Action>) returns (k: nat)
    requires IsRun(c, s, acts) && !s.child.WriteEnd? && !s.child.Gone?
    requires After(c, s, acts).child.WriteEnd? || After(c, s, acts).child.Gone?
    ensures k < |acts| && acts[k].ChildSeesEof?
    decreases |acts|
  {
    hide Enabled, Next;
    DoneStep(c, s, acts[0]);
    if acts[0].ChildSeesEof? {
      k := 0;
    } else {
      k := DoneBy(c, Next(c, s, acts[0]), acts[1..]);
      k := k + 1;
    }
  }

  lemma {:induction false} RunSplit(c: Config, s: State, acts: seq<Action>, k: nat)
    requires IsRun(c, s, acts) && k < |acts|
    ensures IsRun(c, s, acts[..k]) && Enabled(c, After(c, s, acts[..k]), acts[k])
    decreases k
  {
    hide Enabled, Next;
    if k > 0 {
      RunSplit(c, Next(c, s, acts[0]), acts[1..], k - 1);
      assert acts[1..][..k - 1] == acts[..k][1..];
    }
  }

  /** A step out of each stage of the handshake is the step that stage is for. */
  lemma StageLeft(c: Config, s: State, a: Action)
    requires Enabled(c, s, a)
    ensures var t := Next(c, s, a);
      && (t.ready && !s.ready ==> a.ChildWritesReady?)
      && (s.parent.WriteStart? && !t.parent.WriteStart? ==> a.ParentWrites? || a.ParentFails?)
      && (s.toChild == [] && t.toChild != [] ==> a.ParentWrites?)
      && (s.child.AwaitStart? && t.child.WriteReady? ==> s.toChild != [])
  {
    hide Encode, Decode, EndBytes, Request, Sock.Sent;
  }

  lemma {:induction false} ReadyBy(c: Config, s: State, acts: seq<Action>)
    requires IsRun(c, s, acts) && !s.ready && After(c, s, acts).ready
    ensures exists a :: a in acts && a.ChildWritesReady?
    decreases |acts|
  {
    hide Enabled, Next;
    StageLeft(c, s, acts[0]);
    assert acts[0] in acts;
    if !acts[0].ChildWritesReady? {
      ReadyBy(c, Next(c, s, acts[0]), acts[1..]);
    }
  }

  lemma FirstStage(c: Config, s: State, a: Action)
    requires Enabled(c, s, a) && s.toChild == [] && s.child.AwaitStart? && !a.ParentWrites?
    ensures Next(c, s, a).toChild == [] && (Next(c, s, a).child.AwaitStart? || Next(c, s, a).child.Failed?)
  {
    hide Encode, Decode, EndBytes, Request, Sock.Sent;
  }

  lemma {:induction false} FailedStays(c: Config, s: State, acts: seq<Action>)
    requires IsRun(c, s, acts) && s.child.Failed?
    ensures After(c, s, acts).child.Failed?
    decreases |acts|
  {
    if acts != [] {
      FailedStays(c, Next(c, s, acts[0]), acts[1..]);
    }
  }

  lemma {:induction false} StartedBy(c: Config, s: State, acts: seq<Action>)
    requires IsRun(c, s, acts) && s.toChild == [] && s.child.AwaitStart? && After(c, s, acts).child.WriteReady?
    ensures exists a :: a in acts && a.ParentWrites?
    decreases |acts|
  {
    StageLeft(c, s, acts[0]);
    assert acts[0] in acts;
    if !acts[0].ParentWrites? {
      var t := Next(c, s, acts[0]);
      FirstStage(c, s, acts[0]);
      hide Enabled, Next;
      if t.child.AwaitStart? {
        StartedBy(c, t, acts[1..]);
      } else {
        FailedStays(c, t, acts[1..]);
        assert false;
      }
    }
  }

  lemma InitialParts(c: Config, t: int)
    ensures var s := Initial(c, t);
      s.clock == t && s.parent.WriteStart? && s.child.AwaitStart? && s.toChild == [] && !s.ready
  {
  }

  /**
   The order of things in every history: the receiver says it is ready only after
   main's start byte, main reads its clock only after that, and writes a byte of a
   request only after it has read its clock.
   */
  lemma HandshakeOrder(c: Config, t: int, acts: seq<Action>, k: nat)
    requires -LIMIT <= t < LIMIT && IsRun(c, Initial(c, t), acts) && k < |acts|
    ensures acts[k].ChildWritesReady? ==> exists a :: a in acts[..k] && a.ParentWrites?
    ensures acts[k].ParentStamps? ==> exists a :: a in acts[..k] && a.ChildWritesReady?
    ensures acts[k].ParentSends? ==> exists a :: a in acts[..k] && a.ParentStamps?
  {
    hide IsRun, After, Initial, Request, SockOk, Pipes, Next;
    RunSplit(c, Initial(c, t), acts, k);
    InitialInv(c, t);
    RunInv(c, Initial(c, t), acts[..k]);
    InitialParts(c, t);
    if acts[k].ChildWritesReady? {
      StartedBy(c, Initial(c, t), acts[..k]);
    } else if acts[k].ParentStamps? {
      ReadyBy(c, Initial(c, t), acts[..k]);
    } else if acts[k].ParentSends? {
      var i := StampedBy(c, Initial(c, t), acts[..k]);
      assert acts[..k][i] in acts[..k];
    }
  }

  /**
   What main reports: whenever it has read the eight bytes, there is one point of
   the history at which it read its own clock and one at which the receiver saw
   the end of file, and the total it reports is the time between the two.
   */
  lemma Measured(c: Config, t: int, acts: seq<Action>) returns (i: nat, k: nat)
    requires -LIMIT <= t < LIMIT && IsRun(c, Initial(c, t), acts) && HasEnd(After(c, Initial(c, t), acts).parent)
    ensures i < |acts| && acts[i].ParentStamps? && k < |acts| && acts[k].ChildSeesEof?
    ensures var s := After(c, Initial(c, t), acts);
      && s.start == t + Elapsed(acts[..i])
      && s.endTime == s.recvDone == t + Elapsed(acts[..k])
      && s.endTime - s.start == Elapsed(acts[..k]) - Elapsed(acts[..i])
  {
    hide Pipes, IsRun, After, Initial, Request, SockOk, Enabled, Next;
    InitialInv(c, t);
    RunInv(c, Initial(c, t), acts);
    InitialParts(c, t);
    i := StampedBy(c, Initial(c, t), acts);
    k := DoneBy(c, Initial(c, t), acts);
    StartIs(c, Initial(c, t), acts, i);
    DoneIs(c, Initial(c, t), acts, k);
  }
}
