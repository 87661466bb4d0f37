/** Finite sums of real-valued terms, and the rearrangements the signal code relies on. */
module Sums {

  /** Named, so that a product of two variables appears only where a proof asks for it. */
  function Product(a: real, b: real): real {
    a * b
  }

  lemma ProductOfPositives(a: real, b: real)
    requires a > 0.0 && b > 0.0
    ensures Product(a, b) > 0.0
  {
  }

  lemma ProductOfOpposite(w: real)
    ensures Product(-w, -w) == Product(w, w)
  {
  }

  lemma ProductOfEquals(w: real)
    ensures Product(w, w) >= 0.0
    ensures w != 0.0 ==> Product(w, w) > 0.0
  {
    if w == 0.0 {
      assert Product(w, w) == 0.0;
    } else if w > 0.0 {
      ProductOfPositives(w, w);
    } else {
      ProductOfPositives(-w, -w);
      ProductOfOpposite(w);
    }
  }

  lemma ProductAssociates(a: real, b: real, c: real)
    ensures Product(Product(a, b), c) == Product(a, Product(b, c))
  {
  }

  /** `f(0) + ... + f(n - 1)`. */
  ghost function Sum(f: int -> real, n: nat): real {
    if n == 0 then 0.0 else Sum(f, n - 1) + f(n - 1)
  }

  lemma {:induction false} SumSame(f: int -> real, g: int -> real, n: nat)
    requires forall k :: 0 <= k < n ==> f(k) == g(k)
    ensures Sum(f, n) == Sum(g, n)
  {
    if n > 0 { SumSame(f, g, n - 1); }
  }

  lemma {:induction false} SumPlus(f: int -> real, g: int -> real, h: int -> real, n: nat)
    requires forall k :: 0 <= k < n ==> h(k) == f(k) + g(k)
    ensures Sum(h, n) == Sum(f, n) + Sum(g, n)
  {
    if n > 0 { SumPlus(f, g, h, n - 1); }
  }

  lemma {:induction false} SumTimes(f: int -> real, c: real, g: int -> real, n: nat)
    requires forall k :: 0 <= k < n ==> g(k) == Product(c, f(k))
    ensures Sum(g, n) == Product(c, Sum(f, n))
  {
    if n > 0 { SumTimes(f, c, g, n - 1); }
  }

  lemma {:induction false} SumZero(f: int -> real, n: nat)
    requires forall k :: 0 <= k < n ==> f(k) == 0.0
    ensures Sum(f, n) == 0.0
  {
    if n > 0 { SumZero(f, n - 1); }
  }

  /** A sum with one term that can differ from zero is that term. */
  lemma {:induction false} SumOne(f: int -> real, n: nat, at: int)
    requires 0 <= at < n
    requires forall k :: 0 <= k < n && k != at ==> f(k) == 0.0
    ensures Sum(f, n) == f(at)
  {
    if at == n - 1 { SumZero(f, n - 1); } else { SumOne(f, n - 1, at); }
  }

  lemma {:induction false} SumSplit(f: int -> real, g: int -> real, m: nat, n: nat)
    requires forall k :: 0 <= k < n ==> g(k) == f(m + k)
    ensures Sum(f, m + n) == Sum(f, m) + Sum(g, n)
  {
    if n > 0 { SumSplit(f, g, m, n - 1); }
  }

  /** Read backwards, a sum is the same sum. */
  lemma {:induction false} SumReversed(f: int -> real, g: int -> real, n: nat)
    requires forall k :: 0 <= k < n ==> g(k) == f(n - 1 - k)
    ensures Sum(g, n) == Sum(f, n)
    decreases n
  {
    if n > 0 {
      var head := (k: int) => f(0);
      var tail := (k: int) => f(1 + k);
      SumSplit(f, tail, 1, n - 1);
      assert Sum(f, 1) == Sum(f, 0) + f(0);
      SumReversed(tail, g, n - 1);
    }
  }

  /** Zero from `n` on, a longer sum is the same sum. */
  lemma {:induction false} SumTail(f: int -> real, n: nat, m: nat)
    requires n <= m && forall k :: n <= k < m ==> f(k) == 0.0
    ensures Sum(f, m) == Sum(f, n)
  {
    if n < m { SumTail(f, n, m - 1); }
  }

  /** Of two lengths past which the terms are zero, either gives the sum. */
  lemma SumEither(f: int -> real, m: nat, n: nat)
    requires forall k :: (m <= k < n || n <= k < m) ==> f(k) == 0.0
    ensures Sum(f, m) == Sum(f, n)
  {
    if m <= n { SumTail(f, m, n); } else { SumTail(f, n, m); }
  }

  /** A sum that is zero outside a window, taken over the window from its top down. */
  lemma SumWindow(f: int -> real, g: int -> real, n: nat, top: nat, width: nat)
    requires forall k :: !(0 <= k < n && top - width < k <= top) ==> f(k) == 0.0
    requires forall j :: 0 <= j < width ==> g(j) == f(top - j)
    ensures Sum(g, width) == Sum(f, n)
  {
    var down := (j: int) => f(top - j);
    SumReversed(f, down, top + 1);
    SumSame(g, down, width);
    SumEither(f, n, top + 1);
    SumEither(down, width, top + 1);
  }

  lemma {:induction false} SumNonNegative(f: int -> real, n: nat)
    requires forall k :: 0 <= k < n ==> f(k) >= 0.0
    ensures Sum(f, n) >= 0.0
  {
    if n > 0 { SumNonNegative(f, n - 1); }
  }

  /** Non-negative terms sum to at least any one of them. */
  lemma {:induction false} SumAtLeast(f: int -> real, n: nat, at: int)
    requires 0 <= at < n && forall k :: 0 <= k < n ==> f(k) >= 0.0
    ensures Sum(f, n) >= f(at)
  {
    if at == n - 1 { SumNonNegative(f, n - 1); } else { SumAtLeast(f, n - 1, at); }
  }

  /** A sum with four terms that can differ from zero, next to each other. */
  lemma {:induction false} SumFour(f: int -> real, n: nat, at: nat)
    requires at + 4 <= n
    requires forall k :: 0 <= k < n && !(at <= k < at + 4) ==> f(k) == 0.0
    ensures Sum(f, n) == f(at) + f(at + 1) + f(at + 2) + f(at + 3)
  {
    if at + 4 == n {
      SumZero(f, at);
      assert Sum(f, at + 2) == Sum(f, at + 1) + f(at + 1);
      assert Sum(f, at + 4) == Sum(f, at + 3) + f(at + 3);
    } else {
      SumFour(f, n - 1, at);
    }
  }

  /** A sum with only the first two terms and the last two. */
  lemma SumEnds(f: int -> real, n: nat)
    requires 4 <= n && forall k :: 2 <= k < n - 2 ==> f(k) == 0.0
    ensures Sum(f, n) == f(0) + f(1) + f(n - 2) + f(n - 1)
  {
    var rest := (k: int) => f(2 + k);
    SumSplit(f, rest, 2, n - 4);
    SumZero(rest, n - 4);
    assert Sum(f, 2) == Sum(f, 1) + f(1) && Sum(f, 1) == Sum(f, 0) + f(0);
    assert Sum(f, n - 1) == Sum(f, n - 2) + f(n - 2);
  }

  /** A sample of a signal that is silent outside its ends. */
  function At(x: seq<real>, i: int): real {
    if 0 <= i < |x| then x[i] else 0.0
  }

  function Zeros(n: nat): (r: seq<real>)
    ensures |r| == n && forall i :: 0 <= i < n ==> r[i] == 0.0
  {
    seq(n, i => 0.0)
  }
}
