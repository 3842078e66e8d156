/**
 * Finite sums over integer ranges. Every generator expression
 * `sum(... for k in ...)` of the unit-commitment model is a `Sum` over an
 * index range with a (total) term function.
 */
module Sums {

  /** The sum of f(k) for lo <= k < hi; zero when the range is empty. */
  function Sum(lo: int, hi: int, f: int -> real): real
    decreases hi - lo
  {
    if hi <= lo then 0.0 else Sum(lo, hi - 1, f) + f(hi - 1)
  }

  /** Sums of pointwise-equal terms are equal. */
  lemma {:induction false} SumExt(lo: int, hi: int, f: int -> real, g: int -> real)
    requires forall k :: lo <= k < hi ==> f(k) == g(k)
    ensures Sum(lo, hi, f) == Sum(lo, hi, g)
    decreases hi - lo
  {
    if lo < hi {
      SumExt(lo, hi - 1, f, g);
    }
  }

  /** A sum of zero terms is zero. */
  lemma {:induction false} SumZero(lo: int, hi: int, f: int -> real)
    requires forall k :: lo <= k < hi ==> f(k) == 0.0
    ensures Sum(lo, hi, f) == 0.0
    decreases hi - lo
  {
    if lo < hi {
      SumZero(lo, hi - 1, f);
    }
  }

  /** The sum of a pointwise sum is the sum of the sums. */
  lemma {:induction false} SumAdd(lo: int, hi: int, f: int -> real, g: int -> real, h: int -> real)
    requires forall k :: lo <= k < hi ==> h(k) == f(k) + g(k)
    ensures Sum(lo, hi, h) == Sum(lo, hi, f) + Sum(lo, hi, g)
    decreases hi - lo
  {
    if lo < hi {
      SumAdd(lo, hi - 1, f, g, h);
    }
  }

  /** The sum of a pointwise difference is the difference of the sums. */
  lemma {:induction false} SumSub(lo: int, hi: int, f: int -> real, g: int -> real, h: int -> real)
    requires forall k :: lo <= k < hi ==> h(k) == f(k) - g(k)
    ensures Sum(lo, hi, h) == Sum(lo, hi, f) - Sum(lo, hi, g)
    decreases hi - lo
  {
    if lo < hi {
      SumSub(lo, hi - 1, f, g, h);
    }
  }

  /** A sum of equal terms is the number of terms times that term. */
  lemma {:induction false} SumConst(lo: int, hi: int, f: int -> real, c: real)
    requires lo <= hi
    requires forall k :: lo <= k < hi ==> f(k) == c
    ensures Sum(lo, hi, f) == (hi - lo) as real * c
    decreases hi - lo
  {
    if lo < hi {
      SumConst(lo, hi - 1, f, c);
    }
  }

  /** A sum of non-negative terms is non-negative. */
  lemma {:induction false} SumNonneg(lo: int, hi: int, f: int -> real)
    requires forall k :: lo <= k < hi ==> f(k) >= 0.0
    ensures Sum(lo, hi, f) >= 0.0
    decreases hi - lo
  {
    if lo < hi {
      SumNonneg(lo, hi - 1, f);
    }
  }

  /** A sum of non-negative terms is at least each of its terms. */
  lemma {:induction false} SumAtLeastTerm(lo: int, hi: int, f: int -> real, m: int)
    requires forall k :: lo <= k < hi ==> f(k) >= 0.0
    requires lo <= m < hi
    ensures Sum(lo, hi, f) >= f(m)
    decreases hi - lo
  {
    if m == hi - 1 {
      SumNonneg(lo, hi - 1, f);
    } else {
      SumAtLeastTerm(lo, hi - 1, f, m);
    }
  }

  /** A sum of non-negative terms that is at most zero has every term zero. */
  lemma SumNonposForcesZero(lo: int, hi: int, f: int -> real)
    requires forall k :: lo <= k < hi ==> f(k) >= 0.0
    requires Sum(lo, hi, f) <= 0.0
    ensures forall k :: lo <= k < hi ==> f(k) == 0.0
  {
    forall k | lo <= k < hi
      ensures f(k) == 0.0
    {
      SumAtLeastTerm(lo, hi, f, k);
    }
  }

  /** When every term but the one at m is zero, the sum is that term. */
  lemma {:induction false} SumSingleTerm(lo: int, hi: int, f: int -> real, m: int)
    requires lo <= m < hi
    requires forall k :: lo <= k < hi && k != m ==> f(k) == 0.0
    ensures Sum(lo, hi, f) == f(m)
    decreases hi - lo
  {
    if m == hi - 1 {
      SumZero(lo, hi - 1, f);
    } else {
      SumSingleTerm(lo, hi - 1, f, m);
    }
  }

  /** Exchanging the order of a double sum over a rectangle. */
  lemma {:induction false} SumSwap(lo1: int, hi1: int, lo2: int, hi2: int, F: (int, int) -> real)
    ensures Sum(lo1, hi1, i => Sum(lo2, hi2, j => F(i, j)))
         == Sum(lo2, hi2, j => Sum(lo1, hi1, i => F(i, j)))
    decreases hi1 - lo1
  {
    if lo1 < hi1 {
      var inner := i => Sum(lo2, hi2, j => F(i, j));
      var rows := j => Sum(lo1, hi1, i => F(i, j));
      var rowsBefore := j => Sum(lo1, hi1 - 1, i => F(i, j));
      var last := j => F(hi1 - 1, j);
      calc {
        Sum(lo1, hi1, inner);
        Sum(lo1, hi1 - 1, inner) + inner(hi1 - 1);
        { SumSwap(lo1, hi1 - 1, lo2, hi2, F);
          SumExt(lo1, hi1 - 1, inner, i => Sum(lo2, hi2, j => F(i, j))); }
        Sum(lo2, hi2, rowsBefore) + Sum(lo2, hi2, last);
        { SumAdd(lo2, hi2, rowsBefore, last, rows); }
        Sum(lo2, hi2, rows);
      }
      SumExt(lo1, hi1, inner, i => Sum(lo2, hi2, j => F(i, j)));
      SumExt(lo2, hi2, rows, j => Sum(lo1, hi1, i => F(i, j)));
    } else {
      SumZero(lo2, hi2, j => Sum(lo1, hi1, i => F(i, j)));
    }
  }
}
