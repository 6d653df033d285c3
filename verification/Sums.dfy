/** Finite sums of a function over 0..n, and how they react to a change at one point. */
module Sums {

  ghost function Sum(f: nat -> int, n: nat): int {
    if n == 0 then 0 else Sum(f, n - 1) + f(n - 1)
  }

  lemma {:induction false} SumSame(f: nat -> int, h: nat -> int, n: nat)
    requires forall k: nat | k < n :: f(k) == h(k)
    ensures Sum(f, n) == Sum(h, n)
  {
    if n > 0 {
      SumSame(f, h, n - 1);
    }
  }

  /** Changing one summand changes the sum by the same amount. */
  lemma {:induction false} SumPoint(f: nat -> int, h: nat -> int, n: nat, p: nat)
    requires p < n
    requires forall k: nat | k < n && k != p :: f(k) == h(k)
    ensures Sum(h, n) == Sum(f, n) + h(p) - f(p)
  {
    if p == n - 1 {
      SumSame(f, h, n - 1);
    } else {
      SumPoint(f, h, n - 1, p);
    }
  }

  /** A sum whose terms never exceed hi reaches n * hi only if every term is hi. */
  lemma {:induction false} SumAtMost(f: nat -> int, n: nat, hi: int)
    requires forall k: nat | k < n :: f(k) <= hi
    ensures Sum(f, n) <= n * hi
    ensures Sum(f, n) == n * hi <==> forall k: nat | k < n :: f(k) == hi
  {
    if n > 0 {
      SumAtMost(f, n - 1, hi);
      assert n * hi == (n - 1) * hi + hi;
    }
  }

  /** A sum that is termwise at most another is at most that one, and equal only if every term is. */
  lemma {:induction false} SumBelow(f: nat -> int, h: nat -> int, n: nat)
    requires forall k: nat | k < n :: f(k) <= h(k)
    ensures Sum(f, n) <= Sum(h, n)
    ensures Sum(f, n) == Sum(h, n) <==> forall k: nat | k < n :: f(k) == h(k)
  {
    if n > 0 {
      SumBelow(f, h, n - 1);
    }
  }

  lemma {:induction false} SumNonNegative(f: nat -> int, n: nat)
    requires forall k: nat | k < n :: f(k) >= 0
    ensures Sum(f, n) >= 0
  {
    if n > 0 {
      SumNonNegative(f, n - 1);
    }
  }

  /** A set that fills a superset of the same size is that superset. */
  lemma FullSubset<T>(part: set<T>, whole: set<T>)
    requires part <= whole
    ensures |part| <= |whole|
    ensures |part| == |whole| ==> part == whole
  {
    assert |whole| == |part| + |whole - part| by {
      assert whole == part + (whole - part);
    }
    if |part| == |whole| {
      assert whole - part == {};
    }
  }

  /** A set smaller than a superset misses one of its elements. */
  lemma Missing<T>(part: set<T>, whole: set<T>) returns (x: T)
    requires part <= whole && |part| < |whole|
    ensures x in whole && x !in part
  {
    assert whole == part + (whole - part);
    x :| x in whole - part;
  }

  lemma ProductNonNegative(a: nat, k: nat)
    ensures a * k >= 0
  {
  }

  /** Multiplying by k >= 1 keeps an order, and a gap of one becomes a gap of k. */
  lemma MulLess(a: int, b: int, k: int)
    requires k >= 1
    ensures a < b ==> a * k + k <= b * k
    ensures a <= b ==> a * k <= b * k
  {
    if a < b {
      ProductNonNegative(b - a - 1, k);
      assert (b - a - 1) * k == b * k - a * k - k;
    }
  }
}
