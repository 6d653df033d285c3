/**
 The binning of handle_ping.py: the grid, the buckets and the densities. Samples
 are exact real numbers of nanoseconds; delta is the bin width, an integer.
 */
module Histogram {
  import opened Sums
  import opened Wrappers

  // ----- Python's int() and math.ceil, and numpy's min and max

  function Trunc(x: real): int {
    if x >= 0.0 then x.Floor else -((-x).Floor)
  }

  function Ceil(x: real): int {
    -((-x).Floor)
  }

  function Least(s: seq<real>): (r: real)
    requires s != []
    ensures r in s && forall k :: 0 <= k < |s| ==> r <= s[k]
  {
    if |s| == 1 then s[0]
    else
      var rest := Least(s[1..]);
      assert forall k :: 1 <= k < |s| ==> s[k] == s[1..][k - 1];
      if s[0] <= rest then s[0] else rest
  }

  function Greatest(s: seq<real>): (r: real)
    requires s != []
    ensures r in s && forall k :: 0 <= k < |s| ==> s[k] <= r
  {
    if |s| == 1 then s[0]
    else
      var rest := Greatest(s[1..]);
      assert forall k :: 1 <= k < |s| ==> s[k] == s[1..][k - 1];
      if s[0] >= rest then s[0] else rest
  }

  function Negated(s: seq<real>): seq<real> {
    seq(|s|, i requires 0 <= i < |s| => -s[i])
  }

  // ----- the grid

  function GridLow(pings: seq<real>, delta: nat): int
    requires pings != [] && delta >= 1
  {
    Trunc(Least(Negated(pings))) / delta * delta
  }

  function GridHigh(https: seq<real>, delta: nat): int
    requires https != [] && delta >= 1
  {
    Ceil(Greatest(https) / delta as real) * delta
  }

  function Grid(lo: int, hi: int, delta: nat): seq<int>
    requires delta >= 1
    decreases hi - lo
  {
    if lo > hi then [] else [lo] + Grid(lo + delta, hi, delta)
  }

  predicate InBin(v: real, z: int, delta: nat) {
    z as real <= v < (z + delta) as real
  }

  /** The number of the bin of v on a grid that starts at lo. */
  function Slot(v: real, lo: int, delta: nat): int
    requires delta >= 1
  {
    (v.Floor - lo) / delta
  }

  lemma QuotientBounds(d: int, delta: nat, k: int)
    requires delta >= 1
    ensures d / delta == k <==> k * delta <= d < k * delta + delta
  {
    var q := d / delta;
    assert q * delta <= d < q * delta + delta;
    MulLess(q, k, delta);
    MulLess(k, q, delta);
  }

  lemma FloorLess(v: real, z: int)
    ensures z as real <= v <==> z <= v.Floor
  {
    var f := v.Floor;
    assert f as real <= v < f as real + 1.0;
  }

  /** A value is in the k-th bin exactly when k is its slot: bins neither overlap nor leave gaps. */
  lemma {:induction false} BinIsSlot(v: real, lo: int, delta: nat, k: int)
    requires delta >= 1
    ensures InBin(v, lo + k * delta, delta) <==> Slot(v, lo, delta) == k
  {
    QuotientBounds(v.Floor - lo, delta, k);
    var z := lo + k * delta;
    FloorLess(v, z);
    FloorLess(v, z + delta);
  }

  lemma {:induction false} GridAt(lo: int, hi: int, delta: nat, k: nat)
    requires delta >= 1 && k < |Grid(lo, hi, delta)|
    ensures Grid(lo, hi, delta)[k] == lo + k * delta <= hi
    decreases k
  {
    if k > 0 {
      GridAt(lo + delta, hi, delta, k - 1);
      assert (k - 1) * delta + delta == k * delta;
    }
  }

  /** From a low end to a high end a whole number n of bins away the grid has n + 1 points. */
  lemma {:induction false} GridSize(lo: int, n: nat, delta: nat)
    requires delta >= 1
    ensures |Grid(lo, lo + n * delta, delta)| == n + 1
    decreases n
  {
    if n == 0 {
      assert Grid(lo + delta, lo + 0 * delta, delta) == [];
    } else {
      assert n * delta == (n - 1) * delta + delta;
      MulLess(0, n, delta);
      GridSize(lo + delta, n - 1, delta);
    }
  }

  // ----- find_bucket

  predicate NoneBefore(buckets: seq<int>, val: real, delta: nat, k: nat)
    requires k <= |buckets|
  {
    forall m :: 0 <= m < k ==> !InBin(val, buckets[m], delta)
  }

  method FindBucket(buckets: seq<int>, val: real, delta: nat) returns (key: Option<int>)
    ensures key.Some? ==> key.value in buckets && InBin(val, key.value, delta)
    ensures key.None? ==> NoneBefore(buckets, val, delta, |buckets|)
    ensures key.Some? ==>
      exists k :: 0 <= k < |buckets| && buckets[k] == key.value && NoneBefore(buckets, val, delta, k)
  {
    var i := 0;
    while i < |buckets|
      invariant i <= |buckets| && NoneBefore(buckets, val, delta, i)
    {
      if val >= buckets[i] as real && val < buckets[i] as real + delta as real {
        return Some(buckets[i]);
      }
      i := i + 1;
    }
    return None;
  }

  /** On a grid of n bins, the bucket of a covered value is its floor, and an uncovered value has none. */
  lemma BucketOnGrid(lo: int, n: nat, delta: nat, val: real, key: Option<int>)
    requires delta >= 1
    requires var grid := Grid(lo, lo + n * delta, delta);
      && (key.Some? ==> key.value in grid && InBin(val, key.value, delta))
      && (key.None? ==> forall k :: 0 <= k < |grid| ==> !InBin(val, grid[k], delta))
    ensures var s := Slot(val, lo, delta);
      key == if 0 <= s <= n then Some(lo + s * delta) else None
  {
    var grid, s := Grid(lo, lo + n * delta, delta), Slot(val, lo, delta);
    GridSize(lo, n, delta);
    if key.Some? {
      var k :| 0 <= k < |grid| && grid[k] == key.value;
      GridAt(lo, lo + n * delta, delta, k);
      BinIsSlot(val, lo, delta, k);
    } else if 0 <= s <= n {
      GridAt(lo, lo + n * delta, delta, s);
      BinIsSlot(val, lo, delta, s);
      assert false;
    }
  }

  // ----- estimate_density_func

  function CountIn(arr: seq<real>, z: int, delta: nat): nat {
    if arr == [] then 0 else CountIn(arr[..|arr| - 1], z, delta) + if InBin(arr[|arr| - 1], z, delta) then 1 else 0
  }

  /** The densities, or None for the ZeroDivisionError of an empty sample. */
  method EstimateDensityFunc(arr: seq<real>, zArr: seq<int>, delta: nat) returns (pdf: Option<seq<real>>)
    ensures pdf.None? <==> arr == [] && zArr != []
    ensures pdf.Some? ==> |pdf.value| == |zArr|
    ensures pdf.Some? ==> forall k :: 0 <= k < |zArr| ==>
      arr != [] && pdf.value[k] == CountIn(arr, zArr[k], delta) as real / |arr| as real
  {
    var acc: seq<real> := [];
    var i := 0;
    while i < |zArr|
      invariant i <= |zArr| && |acc| == i && (i > 0 ==> arr != [])
      invariant forall k :: 0 <= k < i ==> arr != [] && acc[k] == CountIn(arr, zArr[k], delta) as real / |arr| as real
    {
      var z := zArr[i];
      var count, j := 0.0, 0;
      while j < |arr|
        invariant j <= |arr| && count == CountIn(arr[..j], z, delta) as real
      {
        assert arr[..j + 1][..j] == arr[..j];
        if arr[j] >= z as real && arr[j] < (z + delta) as real {
          count := count + 1.0;
        }
        j := j + 1;
      }
      assert arr[..j] == arr;
      if |arr| == 0 {
        return None;
      }
      acc := acc + [count / |arr| as real];
      i := i + 1;
    }
    return Some(acc);
  }

  // ----- conservation of mass

  ghost function BinFn(arr: seq<real>, lo: int, delta: nat): nat -> int {
    (k: nat) => CountIn(arr, lo + k * delta, delta)
  }

  /** How many samples fall on a grid of n bins at all. */
  function Covered(arr: seq<real>, lo: int, n: nat, delta: nat): nat
    requires delta >= 1
  {
    if arr == [] then 0
    else Covered(arr[..|arr| - 1], lo, n, delta) + if 0 <= Slot(arr[|arr| - 1], lo, delta) < n then 1 else 0
  }

  /** Every sample on the grid is counted in exactly one bin. */
  lemma {:induction false} BinsCount(arr: seq<real>, lo: int, n: nat, delta: nat)
    requires delta >= 1
    ensures Sum(BinFn(arr, lo, delta), n) == Covered(arr, lo, n, delta)
    decreases |arr|
  {
    if arr == [] {
      SumAtMost(BinFn(arr, lo, delta), n, 0);
    } else {
      var less, s := arr[..|arr| - 1], Slot(arr[|arr| - 1], lo, delta);
      BinsCount(less, lo, n, delta);
      var f, h := BinFn(less, lo, delta), BinFn(arr, lo, delta);
      forall k: nat | k < n ensures h(k) == f(k) + if k == s then 1 else 0 {
        BinIsSlot(arr[|arr| - 1], lo, delta, k);
      }
      if 0 <= s < n {
        SumPoint(f, h, n, s);
      } else {
        SumSame(f, h, n);
      }
    }
  }

  lemma {:induction false} CoveredAll(arr: seq<real>, lo: int, n: nat, delta: nat)
    requires delta >= 1
    ensures Covered(arr, lo, n, delta) <= |arr|
    ensures Covered(arr, lo, n, delta) == |arr| <==> forall k :: 0 <= k < |arr| ==> 0 <= Slot(arr[k], lo, delta) < n
  {
    if arr != [] {
      CoveredAll(arr[..|arr| - 1], lo, n, delta);
    }
  }

  function Total(pdf: seq<real>): real {
    if pdf == [] then 0.0 else Total(pdf[..|pdf| - 1]) + pdf[|pdf| - 1]
  }

  lemma ShareSum(a: int, b: int, n: nat)
    requires n > 0
    ensures a as real / n as real + b as real / n as real == (a + b) as real / n as real
  {
  }

  lemma {:induction false} TotalOf(arr: seq<real>, lo: int, delta: nat, pdf: seq<real>)
    requires delta >= 1 && arr != []
    requires forall k :: 0 <= k < |pdf| ==> pdf[k] == CountIn(arr, lo + k * delta, delta) as real / |arr| as real
    ensures Total(pdf) == Sum(BinFn(arr, lo, delta), |pdf|) as real / |arr| as real
  {
    if pdf != [] {
      var last: nat := |pdf| - 1;
      TotalOf(arr, lo, delta, pdf[..last]);
      ShareSum(Sum(BinFn(arr, lo, delta), last), BinFn(arr, lo, delta)(last), |arr|);
      hide CountIn;
      assert pdf[last] == BinFn(arr, lo, delta)(last) as real / |arr| as real;
    }
  }

  lemma WholeShare(a: int, n: nat)
    requires n > 0
    ensures a as real / n as real == 1.0 <==> a == n
  {
    assert a as real == a as real / n as real * n as real;
  }

  /** The densities on a grid add up to 1 exactly when every sample is on the grid. */
  lemma MassIsOneIff(arr: seq<real>, lo: int, n: nat, delta: nat, pdf: seq<real>)
    requires delta >= 1 && arr != [] && |pdf| == n
    requires forall k :: 0 <= k < |pdf| ==> pdf[k] == CountIn(arr, lo + k * delta, delta) as real / |arr| as real
    ensures Total(pdf) == 1.0 <==> forall k :: 0 <= k < |arr| ==> 0 <= Slot(arr[k], lo, delta) < n
  {
    hide *;
    TotalOf(arr, lo, delta, pdf);
    BinsCount(arr, lo, n, delta);
    CoveredAll(arr, lo, n, delta);
    WholeShare(Covered(arr, lo, n, delta), |arr|);
  }

  // ----- one pass instead of one scan per bin

  /** The reference: walk the samples once, adding one to the slot of each that has one. */
  function OnePass(arr: seq<real>, lo: int, n: nat, delta: nat): (counts: seq<nat>)
    requires delta >= 1
    ensures |counts| == n
  {
    if arr == [] then seq(n, _ => 0)
    else
      var counts, s := OnePass(arr[..|arr| - 1], lo, n, delta), Slot(arr[|arr| - 1], lo, delta);
      if 0 <= s < n then counts[s := counts[s] + 1] else counts
  }

  lemma {:induction false} ScanIsOnePass(arr: seq<real>, lo: int, n: nat, delta: nat, k: nat)
    requires delta >= 1 && k < n
    ensures CountIn(arr, lo + k * delta, delta) == OnePass(arr, lo, n, delta)[k]
  {
    if arr != [] {
      ScanIsOnePass(arr[..|arr| - 1], lo, n, delta, k);
      BinIsSlot(arr[|arr| - 1], lo, delta, k);
    }
  }

  // ----- the grid of convolute covers the samples

  /** Number of bins of the grid from lo to hi. */
  function Bins(lo: int, hi: int, delta: nat): int
    requires delta >= 1
  {
    (hi - lo) / delta + 1
  }

  lemma NoPositive(pings: seq<real>)
    requires pings != [] && forall k :: 0 <= k < |pings| ==> pings[k] >= 0.0
    ensures Least(Negated(pings)) <= 0.0
  {
    assert Least(Negated(pings)) <= Negated(pings)[0] == -pings[0];
  }

  lemma LowEnd(m: real, delta: nat)
    requires delta >= 1 && m <= 0.0
    ensures Trunc(m) / delta * delta <= 0
    ensures (Trunc(m) / delta * delta) as real <= m <==> m == m.Floor as real || Trunc(m) % delta != 0
  {
    var t := Trunc(m);
    var q := t / delta;
    assert q * delta + t % delta == t;
    FloorLess(m, q * delta);
    assert t == if m == m.Floor as real then m.Floor else m.Floor + 1;
    MulLess(0, q, delta);
  }

  lemma HighEnd(m: real, delta: nat)
    requires delta >= 1 && m >= 0.0
    ensures 0 <= Ceil(m / delta as real) * delta
    ensures m <= (Ceil(m / delta as real) * delta) as real
  {
    var d := delta as real;
    var x := m / d;
    var c := Ceil(x);
    assert x >= 0.0 && x * d == m;
    assert x <= c as real;
    assert x * d <= c as real * d;
    assert (c * delta) as real == c as real * d;
    MulLess(0, c, delta);
  }

  lemma WholeBins(a: int, b: int, delta: nat)
    requires delta >= 1
    ensures b * delta == a * delta + (Bins(a * delta, b * delta, delta) - 1) * delta
  {
    assert b * delta - a * delta == (b - a) * delta;
    QuotientBounds((b - a) * delta, delta, b - a);
  }

  lemma GridEnds(pings: seq<real>, https: seq<real>, delta: nat)
    requires delta >= 1 && pings != [] && https != []
    requires forall k :: 0 <= k < |pings| ==> pings[k] >= 0.0
    requires forall k :: 0 <= k < |https| ==> https[k] >= 0.0
    ensures var lo, hi := GridLow(pings, delta), GridHigh(https, delta);
      && lo <= 0 <= hi && hi == lo + (Bins(lo, hi, delta) - 1) * delta
      && Greatest(https) <= hi as real
      && (lo as real <= Least(Negated(pings)) <==>
            var m := Least(Negated(pings)); m == m.Floor as real || Trunc(m) % delta != 0)
  {
    var low, top := Least(Negated(pings)), Greatest(https);
    NoPositive(pings);
    assert top >= 0.0;
    hide Least, Greatest, Trunc, Ceil, Negated, Bins;
    LowEnd(low, delta);
    HighEnd(top, delta);
    WholeBins(Trunc(low) / delta, Ceil(top / delta as real), delta);
  }

  lemma SlotRange(v: real, lo: int, hi: int, delta: nat, n: int)
    requires delta >= 1 && hi == lo + (n - 1) * delta && v <= hi as real && hi >= lo
    ensures 0 <= Slot(v, lo, delta) < n <==> lo as real <= v
  {
    var d := v.Floor - lo;
    FloorLess(v, lo);
    assert d <= (n - 1) * delta;
    var q := d / delta;
    assert q * delta <= d < q * delta + delta;
    MulLess(n - 1, q, delta);
    MulLess(q, 0, delta);
    MulLess(0, q + 1, delta);
  }

  /**
   Both sample sets lie on the grid, so that both densities have mass 1, exactly
   when int() did not cut a fraction off a lowest value that then falls on a bin
   boundary. Whole nanoseconds always satisfy this.
   */
  lemma {:induction false} GridCoversIff(pings: seq<real>, https: seq<real>, delta: nat)
    requires delta >= 1 && pings != [] && https != []
    requires forall k :: 0 <= k < |pings| ==> pings[k] >= 0.0
    requires forall k :: 0 <= k < |https| ==> https[k] >= 0.0
    ensures var lo, hi := GridLow(pings, delta), GridHigh(https, delta);
      var n := Bins(lo, hi, delta);
      && (forall k :: 0 <= k < |https| ==> 0 <= Slot(https[k], lo, delta) < n)
      && ((forall k :: 0 <= k < |pings| ==> 0 <= Slot(-pings[k], lo, delta) < n) <==>
            var m := Least(Negated(pings)); m == m.Floor as real || Trunc(m) % delta != 0)
  {
    GridEnds(pings, https, delta);
    var lo, hi := GridLow(pings, delta), GridHigh(https, delta);
    var n := Bins(lo, hi, delta);
    forall k | 0 <= k < |https| ensures 0 <= Slot(https[k], lo, delta) < n {
      SlotRange(https[k], lo, hi, delta, n);
    }
    forall k | 0 <= k < |pings| ensures 0 <= Slot(-pings[k], lo, delta) < n <==> lo as real <= -pings[k] {
      SlotRange(-pings[k], lo, hi, delta, n);
    }
    var neg := Negated(pings);
    var at :| 0 <= at < |neg| && neg[at] == Least(neg);
    assert neg[at] == -pings[at];
    forall k | 0 <= k < |pings| ensures Least(neg) <= -pings[k] {
      assert neg[k] == -pings[k];
    }
  }

  lemma LowTight(m: real, delta: nat)
    requires delta >= 1
    ensures var lo := Trunc(m) / delta * delta; lo as real - 1.0 < m < (lo + delta) as real
  {
    var t := Trunc(m);
    assert t as real - 1.0 < m < t as real + 1.0;
    var q := t / delta;
    assert q * delta <= t < q * delta + delta;
    var next := q * delta + delta;
    assert t + 1 <= next;
    assert (t + 1) as real == t as real + 1.0;
    assert (t + 1) as real <= next as real;
  }

  lemma HighTight(m: real, delta: nat)
    requires delta >= 1
    ensures var hi := Ceil(m / delta as real) * delta; (hi - delta) as real < m <= hi as real
  {
    var d := delta as real;
    var x := m / d;
    var k := Ceil(x);
    assert x * d == m && k as real - 1.0 < x <= k as real;
    var gap := x - (k as real - 1.0);
    assert gap * d > 0.0;
    assert gap * d == m - (k as real * d - d);
    assert k as real * d == (k * delta) as real;
  }

  lemma WholeMultiple(q: int, delta: nat)
    requires delta >= 1
    ensures q * delta % delta == 0
  {
    QuotientBounds(q * delta, delta, q);
    assert q * delta / delta * delta + q * delta % delta == q * delta;
  }

  /**
   The grid is no longer than it must be: it runs between multiples of delta, its
   last point is the first multiple that is not below the samples, and its first
   the last one that is not above them, the fraction int() cuts off aside.
   */
  lemma GridTight(pings: seq<real>, https: seq<real>, delta: nat)
    requires delta >= 1 && pings != [] && https != []
    ensures var lo, hi := GridLow(pings, delta), GridHigh(https, delta);
      && lo % delta == 0 && hi % delta == 0
      && lo as real - 1.0 < Least(Negated(pings)) < (lo + delta) as real
      && (hi - delta) as real < Greatest(https) <= hi as real
  {
    var low, top := Least(Negated(pings)), Greatest(https);
    hide Trunc, Ceil, Least, Greatest, Negated;
    LowTight(low, delta);
    HighTight(top, delta);
    WholeMultiple(Trunc(low) / delta, delta);
    WholeMultiple(Ceil(top / delta as real), delta);
  }

  // ----- convolute, up to the convolution itself

  datatype Pdfs = Pdfs(zVals: seq<int>, http: seq<real>, ping: seq<real>)

  /** What convolute's two densities and grid are, for given samples. */
  ghost predicate AreDensities(https: seq<real>, pings: seq<real>, delta: nat, r: Pdfs)
    requires delta >= 1 && pings != [] && https != []
  {
    && r.zVals == Grid(GridLow(pings, delta), GridHigh(https, delta), delta)
    && |r.http| == |r.ping| == |r.zVals|
    && (forall k :: 0 <= k < |r.zVals| ==>
          && r.http[k] == CountIn(https, r.zVals[k], delta) as real / |https| as real
          && r.ping[k] == CountIn(Negated(pings), r.zVals[k], delta) as real / |pings| as real)
  }

  /** None stands for the ValueError of numpy's min or max of an empty sample. */
  method Convolute(https: seq<real>, pings: seq<real>, delta: nat) returns (res: Option<Pdfs>)
    requires delta >= 1
    ensures res.None? <==> https == [] || pings == []
    ensures res.Some? ==> AreDensities(https, pings, delta, res.value)
  {
    if pings == [] || https == [] {
      return None;
    }
    var lo, hi := GridLow(pings, delta), GridHigh(https, delta);
    var zVals: seq<int>, z := [], lo;
    while z <= hi
      invariant zVals + Grid(z, hi, delta) == Grid(lo, hi, delta)
      decreases hi - z
    {
      ghost var rest := Grid(z + delta, hi, delta);
      assert zVals + ([z] + rest) == (zVals + [z]) + rest;
      zVals := zVals + [z];
      z := z + delta;
    }
    var http := EstimateDensityFunc(https, zVals, delta);
    var ping := EstimateDensityFunc(Negated(pings), zVals, delta);
    return Some(Pdfs(zVals, http.value, ping.value));
  }

  lemma EnoughBins(lo: int, hi: int, n: int, delta: nat)
    requires delta >= 1 && lo <= hi && hi == lo + (n - 1) * delta
    ensures n >= 1
  {
    MulLess(n - 1, 0, delta);
  }

  lemma GridPoints(pings: seq<real>, https: seq<real>, delta: nat)
    requires delta >= 1 && pings != [] && https != []
    requires forall k :: 0 <= k < |pings| ==> pings[k] >= 0.0
    requires forall k :: 0 <= k < |https| ==> https[k] >= 0.0
    ensures var lo, hi := GridLow(pings, delta), GridHigh(https, delta);
      var grid := Grid(lo, hi, delta);
      && Bins(lo, hi, delta) == |grid|
      && forall k :: 0 <= k < |grid| ==> grid[k] == lo + k * delta
  {
    var lo, hi := GridLow(pings, delta), GridHigh(https, delta);
    var n := Bins(lo, hi, delta);
    GridEnds(pings, https, delta);
    hide GridLow, GridHigh, Bins;
    EnoughBins(lo, hi, n, delta);
    GridSize(lo, n - 1, delta);
    forall k | 0 <= k < n ensures Grid(lo, hi, delta)[k] == lo + k * delta {
      GridAt(lo, hi, delta, k);
    }
  }

  lemma MassOnGrid(arr: seq<real>, zVals: seq<int>, lo: int, delta: nat, pdf: seq<real>)
    requires delta >= 1 && arr != [] && |pdf| == |zVals|
    requires forall k :: 0 <= k < |zVals| ==> zVals[k] == lo + k * delta
    requires forall k :: 0 <= k < |zVals| ==> pdf[k] == CountIn(arr, zVals[k], delta) as real / |arr| as real
    ensures Total(pdf) == 1.0 <==> forall k :: 0 <= k < |arr| ==> 0 <= Slot(arr[k], lo, delta) < |zVals|
  {
    hide CountIn, Total, Slot;
    forall k | 0 <= k < |pdf| ensures pdf[k] == CountIn(arr, lo + k * delta, delta) as real / |arr| as real {
      assert zVals[k] == lo + k * delta;
    }
    MassIsOneIff(arr, lo, |zVals|, delta, pdf);
  }

  lemma NegatedSlots(pings: seq<real>, lo: int, n: nat, delta: nat)
    requires delta >= 1
    ensures |Negated(pings)| == |pings|
    ensures (forall k :: 0 <= k < |Negated(pings)| ==> 0 <= Slot(Negated(pings)[k], lo, delta) < n) <==>
      (forall k :: 0 <= k < |pings| ==> 0 <= Slot(-pings[k], lo, delta) < n)
  {
    var neg := Negated(pings);
    assert forall k :: 0 <= k < |neg| ==> neg[k] == -pings[k];
  }

  /**
   What convolute hands to the convolution: the http density has mass 1, and the
   ping density has mass 1 exactly when the lowest value was not cut onto a bin
   boundary.
   */
  lemma {:induction false} ConvoluteMass(https: seq<real>, pings: seq<real>, delta: nat, r: Pdfs)
    requires delta >= 1 && pings != [] && https != []
    requires forall k :: 0 <= k < |pings| ==> pings[k] >= 0.0
    requires forall k :: 0 <= k < |https| ==> https[k] >= 0.0
    requires AreDensities(https, pings, delta, r)
    ensures Total(r.http) == 1.0
    ensures Total(r.ping) == 1.0 <==>
      var m := Least(Negated(pings)); m == m.Floor as real || Trunc(m) % delta != 0
  {
    var lo, hi, neg := GridLow(pings, delta), GridHigh(https, delta), Negated(pings);
    var n := Bins(lo, hi, delta);
    GridCoversIff(pings, https, delta);
    GridPoints(pings, https, delta);
    hide Grid, GridLow, GridHigh, Bins, Least, Trunc, CountIn, Slot, Total;
    MassOnGrid(https, r.zVals, lo, delta, r.http);
    MassOnGrid(neg, r.zVals, lo, delta, r.ping);
    NegatedSlots(pings, lo, n, delta);
  }

  /** A ping of 100000.5 ns with bins of 100000: the grid starts half a nanosecond above it. */
  lemma FractionLost()
    ensures GridLow([100000.5], 100000) == -100000
    ensures Least(Negated([100000.5])) == -100000.5
    ensures Trunc(-100000.5) == -100000 && (-100000.5).Floor == -100001
  {
    assert Negated([100000.5]) == [-100000.5];
    var half := 100000.5;
    assert half.Floor == 100000;
  }

  /** Whatever the http samples, the ping density of that one ping does not have mass 1. */
  lemma FractionLostExample(https: seq<real>, r: Pdfs)
    requires https != [] && forall k :: 0 <= k < |https| ==> https[k] >= 0.0
    requires AreDensities(https, [100000.5], 100000, r)
    ensures Total(r.http) == 1.0 && Total(r.ping) != 1.0
  {
    FractionLost();
    hide Grid, GridLow, GridHigh, Total, CountIn, Least, Negated;
    ConvoluteMass(https, [100000.5], 100000, r);
  }
}
