/** The packet count main hands to each receiver, in its 64-bit and its 32-bit version. */
module Packets {
  import opened Sums
  import opened Hackbench
  import opened HackbenchQuotas
  import opened HackbenchRuns
  import opened HackbenchStarved

  const LONG: nat := 0x1_0000_0000_0000_0000
  const INT_MAX: nat := 0x7FFF_FFFF

  /** `num_fds*(uint64_t)loops` */
  function WidePackets(fds: nat, loops: nat): nat {
    (fds * loops) % LONG
  }

  /** `num_fds*loops` on `unsigned int`, the version in toy/hackbench.c */
  function NarrowPackets(fds: nat, loops: nat): nat {
    (fds * loops) % WORD
  }

  lemma WideIsExact(fds: nat, loops: nat)
    requires fds < WORD && loops < WORD
    ensures WidePackets(fds, loops) == fds * loops
  {
    assert fds * loops < LONG by {
      var a, b: nat := WORD - 1 - fds, WORD - 1 - loops;
      assert (fds + a) * (loops + b) == fds * loops + fds * b + a * loops + a * b;
      ProductNonNegative(fds, b);
      ProductNonNegative(a, loops);
      ProductNonNegative(a, b);
    }
  }

  lemma NarrowIsExactIff(fds: nat, loops: nat)
    ensures NarrowPackets(fds, loops) == fds * loops <==> fds * loops < WORD
  {
  }

  /**
   hackbench/hackbench.c: the quotas always balance, yet a run can finish
   exactly when they also fit the receiver's 32-bit loop counter.
   */
  lemma {:induction false} WideCanFinishIff(c: Config)
    requires c.Sane() && c.fds < WORD && c.loops < WORD && c.packets == WidePackets(c.fds, c.loops)
    ensures c.packets == c.fds * c.loops
    ensures (exists s :: Reachable(c, s) && s.main.Finished?) <==> c.fds * c.loops < WORD
  {
    WideIsExact(c.fds, c.loops);
    if c.fds * c.loops < WORD {
      CanEndWellIff(c);
      var s :| Reachable(c, s) && EndsWell(c, s);
    } else {
      forall s | Reachable(c, s) ensures !s.main.Finished? {
        NeverFinishes(c, s);
      }
    }
  }

  /**
   hackbench/hackbench.c: no write is ever fatal; from 2^32 messages on, and only
   then, a read can return 0 and a schedule can go on for ever. It can then be
   brought to, and rests nowhere but in, the state where all is delivered and the
   last receiver of each group reads nothing.
   */
  lemma WideSpinsIff(c: Config)
    requires c.Sane() && c.fds < WORD && c.loops < WORD && c.packets == WidePackets(c.fds, c.loops)
    ensures !(exists s, id :: Reachable(c, s) && Enabled(c, s, Broken(id)))
    ensures (exists s, id :: Reachable(c, s) && Enabled(c, s, Eof(id))) <==> c.fds * c.loops >= WORD
    ensures (forall n: nat :: HasRun(c, n)) <==> c.fds * c.loops >= WORD
    ensures c.fds * c.loops >= WORD ==> forall s :: Reachable(c, s) ==> (OnlyEof(c, s) <==> s == Spinning(c))
  {
    WideIsExact(c.fds, c.loops);
    hide Enabled, Reachable, Spinning, HasRun, OnlyEof;
    BrokenReachableIff(c);
    EofReachableIff(c);
    EndlessIff(c);
    if c.fds * c.loops >= WORD {
      forall s | Reachable(c, s) ensures OnlyEof(c, s) <==> s == Spinning(c) {
        SpinningOutcome(c, s);
      }
    }
  }

  /** toy/hackbench.c: a sender can be killed by its pipe exactly when the product wrapped. */
  lemma NarrowBreaksIff(c: Config)
    requires c.Sane() && c.packets == NarrowPackets(c.fds, c.loops)
    ensures (exists s, id :: Reachable(c, s) && Enabled(c, s, Broken(id))) <==> c.fds * c.loops >= WORD
  {
    BrokenReachableIff(c);
  }

  /**
   toy/hackbench.c: and then the receivers left in the middle of a message read
   nothing for ever, exactly when there is more than one descriptor, anything left
   of the wrapped product, and more than one byte in a message.
   */
  lemma NarrowStarvesIff(c: Config)
    requires c.Sane() && c.packets == NarrowPackets(c.fds, c.loops)
    ensures (exists s, id :: Reachable(c, s) && Enabled(c, s, Eof(id))) <==>
      c.fds * c.loops >= WORD && c.fds >= 2 && (c.fds * c.loops) % WORD >= 1 && c.size >= 2
    ensures (forall n: nat :: HasRun(c, n)) <==>
      c.fds * c.loops >= WORD && c.fds >= 2 && (c.fds * c.loops) % WORD >= 1 && c.size >= 2
  {
    hide Enabled, Reachable, HasRun;
    EofReachableIff(c);
    EndlessIff(c);
  }

  /** toy/hackbench.c: a run can deliver everything exactly when the product did not wrap. */
  lemma NarrowCanEndWellIff(c: Config)
    requires c.Sane() && c.packets == NarrowPackets(c.fds, c.loops)
    ensures (exists s :: Reachable(c, s) && EndsWell(c, s)) <==> c.fds * c.loops < WORD
  {
    CanEndWellIff(c);
    NarrowIsExactIff(c.fds, c.loops);
  }

  /** Infinite mode sets loops to INT_MAX: only with one or two descriptors can such a run ever finish. */
  lemma InfiniteModeFinishesIff(c: Config)
    requires c.Sane() && c.fds < WORD && c.loops == INT_MAX && c.packets == WidePackets(c.fds, c.loops)
    ensures (exists s :: Reachable(c, s) && s.main.Finished?) <==> c.fds <= 2
  {
    WideCanFinishIff(c);
    MulLess(3, c.fds, INT_MAX);
    MulLess(c.fds, 2, INT_MAX);
  }
}
