/** Descriptor tables by number: which ends a process reaches after pipe, fork and close. */
module Descriptors {
  import opened Hackbench
  import opened HackbenchInvariant

  /** Descriptors outs[0], outs[1], ... as write ends of pipes 0, 1, ... of group g. */
  function OutTable(g: nat, outs: seq<nat>): map<nat, End> {
    if outs == [] then map[] else OutTable(g, outs[..|outs| - 1])[outs[|outs| - 1] := Wr(g, |outs| - 1)]
  }

  lemma OutTableNext(g: nat, outs: seq<nat>, w: nat)
    ensures OutTable(g, outs + [w]) == OutTable(g, outs)[w := Wr(g, |outs|)]
  {
    assert (outs + [w])[..|outs|] == outs;
  }

  lemma {:induction false} OutTableKeys(g: nat, outs: seq<nat>)
    ensures OutTable(g, outs).Keys == set x | x in outs
  {
    if outs == [] {
      assert OutTable(g, outs).Keys == {};
    } else {
      OutTableKeys(g, outs[..|outs| - 1]);
      assert outs == outs[..|outs| - 1] + [outs[|outs| - 1]];
    }
  }

  /** New descriptor numbers, distinct and not main's. */
  ghost predicate Fresh(outs: seq<nat>, base: map<nat, End>) {
    && (forall k :: 0 <= k < |outs| ==> outs[k] !in base)
    && (forall k, m :: 0 <= k < m < |outs| ==> outs[k] != outs[m])
  }

  lemma FreshNext(g: nat, base: map<nat, End>, outs: seq<nat>, w: nat)
    requires Fresh(outs, base) && w !in base + OutTable(g, outs)
    ensures Fresh(outs + [w], base)
  {
    OutTableKeys(g, outs);
  }

  /** A new pipe's write end joins the group's; its read end is on a number of its own. */
  lemma PipeOpened(g: nat, base: map<nat, End>, outs: seq<nat>, r: nat, w: nat, table: map<nat, End>)
    requires table == base + OutTable(g, outs)
    requires r != w && r !in table && w !in table
    ensures r !in base && r !in outs + [w]
    ensures var u := table[r := Rd(g, |outs|)][w := Wr(g, |outs|)];
      && u == (base + OutTable(g, outs + [w]))[r := Rd(g, |outs|)]
      && u - {r} == base + OutTable(g, outs + [w])
  {
    OutTableNext(g, outs, w);
    OutTableKeys(g, outs);
    var t := table[w := Wr(g, |outs|)];
    assert t == base + OutTable(g, outs + [w]);
    assert table[r := Rd(g, |outs|)][w := Wr(g, |outs|)] == t[r := Rd(g, |outs|)];
    assert t[r := Rd(g, |outs|)] - {r} == t;
  }

  /** A descriptor table after closing fds. */
  function Without(table: map<nat, End>, fds: seq<nat>): map<nat, End> {
    table - (set x | x in fds)
  }

  lemma WithoutNext(table: map<nat, End>, fds: seq<nat>, fd: nat)
    ensures Without(table, fds) - {fd} == Without(table, fds + [fd])
  {
  }

  lemma AllClosed(g: nat, base: map<nat, End>, outs: seq<nat>)
    requires Fresh(outs, base)
    ensures Without(base + OutTable(g, outs), outs) == base
  {
    OutTableKeys(g, outs);
  }

  // ----- the set of ends a table reaches

  function EndsOf(table: map<nat, End>): set<End> {
    set fd | fd in table :: table[fd]
  }

  lemma LastOut(g: nat, less: seq<nat>, w: nat, base: map<nat, End>)
    requires Fresh(less + [w], base)
    ensures w !in base + OutTable(g, less)
    ensures base + OutTable(g, less + [w]) == (base + OutTable(g, less))[w := Wr(g, |less|)]
  {
    OutTableKeys(g, less);
    OutTableNext(g, less, w);
    assert (less + [w])[|less|] == w;
    forall k | 0 <= k < |less| ensures less[k] != w {
      assert (less + [w])[k] == less[k];
    }
  }

  lemma EndsOfNext(t: map<nat, End>, fd: nat, e: End)
    requires fd !in t
    ensures EndsOf(t[fd := e]) == EndsOf(t) + {e}
  {
    var u := t[fd := e];
    assert fd in u;
    forall x | x in EndsOf(t) ensures x in EndsOf(u) {
      var k :| k in t && t[k] == x;
      assert k in u && u[k] == x;
    }
  }

  lemma {:induction false} OutTableEnds(g: nat, outs: seq<nat>, base: map<nat, End>)
    requires Fresh(outs, base)
    ensures EndsOf(base + OutTable(g, outs)) == EndsOf(base) + WriteEnds(g, 0, |outs|)
  {
    if outs == [] {
      assert base + OutTable(g, outs) == base;
    } else {
      var less, w := outs[..|outs| - 1], outs[|outs| - 1];
      assert outs == less + [w];
      OutTableEnds(g, less, base);
      LastOut(g, less, w, base);
      EndsOfNext(base + OutTable(g, less), w, Wr(g, |less|));
      hide EndsOf, OutTable, Fresh;
      assert WriteEnds(g, 0, |outs|) == WriteEnds(g, 0, |less|) + {Wr(g, |less|)};
    }
  }

  lemma {:induction false} OutTableAt(g: nat, outs: seq<nat>, base: map<nat, End>, j: nat)
    requires Fresh(outs, base) && j < |outs|
    ensures outs[j] in OutTable(g, outs) && OutTable(g, outs)[outs[j]] == Wr(g, j)
  {
    if j < |outs| - 1 {
      OutTableAt(g, outs[..|outs| - 1], base, j);
    }
  }

  lemma OutsideOuts(g: nat, outs: seq<nat>, base: map<nat, End>, r: nat)
    requires r !in base && r !in outs
    ensures r !in base + OutTable(g, outs)
  {
    OutTableKeys(g, outs);
  }

  lemma ClosedAgain(t: map<nat, End>, w: nat, e: End, r: nat, d: End)
    requires w !in t && r != w
    ensures t[w := e][r := d] - {w} == t[r := d]
    ensures w in t[w := e][r := d] && t[w := e][r := d][w] == e
  {
  }

  /** A receiver's table, as forked and after it closes its own write end. */
  lemma ReceiverTable(g: nat, base: map<nat, End>, outs: seq<nat>, k: nat, r: nat, table: map<nat, End>)
    requires Fresh(outs, base) && k < |outs| && r !in base && r !in outs[..k + 1]
    requires table == (base + OutTable(g, outs[..k + 1]))[r := Rd(g, k)]
    ensures EndsOf(table) == EndsOf(base) + WriteEnds(g, 0, k + 1) + {Rd(g, k)}
    ensures EndsOf(table - {outs[k]}) == EndsOf(base) + WriteEnds(g, 0, k) + {Rd(g, k)}
    ensures outs[k] in table && table[outs[k]] == Wr(g, k)
  {
    var before, mine := outs[..k], outs[..k + 1];
    assert mine == before + [outs[k]];
    assert Fresh(before, base) && Fresh(mine, base);
    hide EndsOf, OutTable, Fresh, WriteEnds;
    OutTableEnds(g, mine, base);
    OutTableEnds(g, before, base);
    OutsideOuts(g, mine, base, r);
    OutsideOuts(g, before, base, r);
    LastOut(g, before, outs[k], base);
    assert r != outs[k] by {
      assert mine[k] == outs[k];
    }
    ClosedAgain(base + OutTable(g, before), outs[k], Wr(g, k), r, Rd(g, k));
    EndsOfNext(base + OutTable(g, mine), r, Rd(g, k));
    EndsOfNext(base + OutTable(g, before), r, Rd(g, k));
  }
}
