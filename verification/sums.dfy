/** Finite sums and maxima over integer index ranges.

    Every tensor quantity of the classifier (a convolution entry, a kernel
    gradient entry, a dot product) is a sum over a rectangular index range.
    Sums are defined here once, over total index functions, together with the
    algebra the gradient proofs need.

    Lambdas live only inside the small named functions below (Row, RowSums,
    Transpose, ...), so that the same sum is always the same term and the
    lemmas can be stated with pointwise premises. */
module Sums {

  /** f(0) + ... + f(n-1); zero when n <= 0. */
  function Sum(n: int, f: int -> real): real
    decreases n
  {
    if n <= 0 then 0.0 else Sum(n - 1, f) + f(n - 1)
  }

  /** Row i of a two-index function. */
  function Row(f: (int, int) -> real, i: int): int -> real
  {
    j => f(i, j)
  }

  /** Row sums over [0, m). */
  function RowSums(m: int, f: (int, int) -> real): int -> real
  {
    i => Sum(m, Row(f, i))
  }

  /** The double sum of f over [0, n) x [0, m), row by row. */
  function Sum2(n: int, m: int, f: (int, int) -> real): real
  {
    Sum(n, RowSums(m, f))
  }

  function Transpose(f: (int, int) -> real): (int, int) -> real
  {
    (j, i) => f(i, j)
  }

  /** Sums only look at the indices in range. */
  lemma {:induction false} SumExt(n: int, f: int -> real, g: int -> real)
    requires forall i :: 0 <= i < n ==> f(i) == g(i)
    ensures Sum(n, f) == Sum(n, g)
    decreases n
  {
    if n > 0 {
      SumExt(n - 1, f, g);
    }
  }

  lemma {:induction false} SumZero(n: int, f: int -> real)
    requires forall i :: 0 <= i < n ==> f(i) == 0.0
    ensures Sum(n, f) == 0.0
    decreases n
  {
    if n > 0 {
      SumZero(n - 1, f);
    }
  }

  /** Sums are additive. */
  lemma {:induction false} SumAdd(n: int, f: int -> real, g: int -> real, h: int -> real)
    requires forall i :: 0 <= i < n ==> h(i) == f(i) + g(i)
    ensures Sum(n, h) == Sum(n, f) + Sum(n, g)
    decreases n
  {
    if n > 0 {
      SumAdd(n - 1, f, g, h);
    }
  }

  /** Sums are homogeneous: a constant factor moves outside. */
  lemma {:induction false} SumScale(n: int, f: int -> real, g: int -> real, k: real)
    requires forall i :: 0 <= i < n ==> g(i) == k * f(i)
    ensures Sum(n, g) == k * Sum(n, f)
    decreases n
  {
    if n > 0 {
      SumScale(n - 1, f, g, k);
    }
  }

  /** Splitting off the first term instead of the last. */
  lemma {:induction false} SumFirst(n: int, f: int -> real, g: int -> real)
    requires n > 0
    requires forall i :: 0 <= i < n - 1 ==> g(i) == f(i + 1)
    ensures Sum(n, f) == f(0) + Sum(n - 1, g)
    decreases n
  {
    if n > 1 {
      SumFirst(n - 1, f, g);
    }
  }

  /** Reindexing i to n-1-i does not change a sum. */
  lemma {:induction false} SumReverse(n: int, f: int -> real, g: int -> real)
    requires forall i :: 0 <= i < n ==> g(i) == f(n - 1 - i)
    ensures Sum(n, g) == Sum(n, f)
    decreases n
  {
    if n > 0 {
      // g = f(n-1), f(n-2), ..., f(0): its tail is the reversal of f on [0, n-1)
      var tail := i => g(i + 1);
      SumFirst(n, g, tail);
      SumReverse(n - 1, f, tail);
    }
  }

  lemma Sum2Ext(n: int, m: int, f: (int, int) -> real, g: (int, int) -> real)
    requires forall i, j :: 0 <= i < n && 0 <= j < m ==> f(i, j) == g(i, j)
    ensures Sum2(n, m, f) == Sum2(n, m, g)
  {
    forall i | 0 <= i < n
      ensures RowSums(m, f)(i) == RowSums(m, g)(i)
    {
      SumExt(m, Row(f, i), Row(g, i));
    }
    SumExt(n, RowSums(m, f), RowSums(m, g));
  }

  lemma Sum2Add(n: int, m: int, f: (int, int) -> real, g: (int, int) -> real, h: (int, int) -> real)
    requires forall i, j :: 0 <= i < n && 0 <= j < m ==> h(i, j) == f(i, j) + g(i, j)
    ensures Sum2(n, m, h) == Sum2(n, m, f) + Sum2(n, m, g)
  {
    forall i | 0 <= i < n
      ensures RowSums(m, h)(i) == RowSums(m, f)(i) + RowSums(m, g)(i)
    {
      SumAdd(m, Row(f, i), Row(g, i), Row(h, i));
    }
    SumAdd(n, RowSums(m, f), RowSums(m, g), RowSums(m, h));
  }

  lemma Sum2Scale(n: int, m: int, f: (int, int) -> real, g: (int, int) -> real, k: real)
    requires forall i, j :: 0 <= i < n && 0 <= j < m ==> g(i, j) == k * f(i, j)
    ensures Sum2(n, m, g) == k * Sum2(n, m, f)
  {
    forall i | 0 <= i < n
      ensures RowSums(m, g)(i) == k * RowSums(m, f)(i)
    {
      SumScale(m, Row(f, i), Row(g, i), k);
    }
    SumScale(n, RowSums(m, f), RowSums(m, g), k);
  }

  lemma Sum2Zero(n: int, m: int, f: (int, int) -> real)
    requires forall i, j :: 0 <= i < n && 0 <= j < m ==> f(i, j) == 0.0
    ensures Sum2(n, m, f) == 0.0
  {
    forall i | 0 <= i < n
      ensures RowSums(m, f)(i) == 0.0
    {
      SumZero(m, Row(f, i));
    }
    SumZero(n, RowSums(m, f));
  }

  /** Finite double sums may be taken in either order. */
  lemma {:induction false} Sum2Swap(n: int, m: int, f: (int, int) -> real)
    ensures Sum2(n, m, f) == Sum2(m, n, Transpose(f))
    decreases n
  {
    if n <= 0 {
      forall j | 0 <= j < m
        ensures RowSums(n, Transpose(f))(j) == 0.0
      {
      }
      SumZero(m, RowSums(n, Transpose(f)));
    } else {
      Sum2Swap(n - 1, m, f);
      forall j | 0 <= j < m
        ensures RowSums(n, Transpose(f))(j)
             == RowSums(n - 1, Transpose(f))(j) + Row(f, n - 1)(j)
      {
      }
      SumAdd(m, RowSums(n - 1, Transpose(f)), Row(f, n - 1), RowSums(n, Transpose(f)));
    }
  }

  /** Reindexing both indices of a double sum backwards. */
  lemma Sum2Reverse(n: int, m: int, f: (int, int) -> real, g: (int, int) -> real)
    requires forall i, j :: 0 <= i < n && 0 <= j < m ==> g(i, j) == f(n - 1 - i, m - 1 - j)
    ensures Sum2(n, m, g) == Sum2(n, m, f)
  {
    var h := i => RowSums(m, f)(n - 1 - i);
    forall i | 0 <= i < n
      ensures RowSums(m, g)(i) == h(i)
    {
      SumReverse(m, Row(f, n - 1 - i), Row(g, i));
      assert RowSums(m, f)(n - 1 - i) == Sum(m, Row(f, n - 1 - i));
    }
    SumExt(n, RowSums(m, g), h);
    SumReverse(n, RowSums(m, f), h);
  }

  // Four-index sums: t(r, c, a, b) summed over (r, c) in [0,n) x [0,m) and
  // (a, b) in [0,p) x [0,q).

  /** t with the outer pair fixed, as a function of the inner pair. */
  function Inner(t: (int, int, int, int) -> real, r: int, c: int): (int, int) -> real
  {
    (a, b) => t(r, c, a, b)
  }

  /** t with the inner pair fixed, as a function of the outer pair. */
  function Outer(t: (int, int, int, int) -> real, a: int, b: int): (int, int) -> real
  {
    (r, c) => t(r, c, a, b)
  }

  function InnerSums(p: int, q: int, t: (int, int, int, int) -> real): (int, int) -> real
  {
    (r, c) => Sum2(p, q, Inner(t, r, c))
  }

  function OuterSums(n: int, m: int, t: (int, int, int, int) -> real): (int, int) -> real
  {
    (a, b) => Sum2(n, m, Outer(t, a, b))
  }

  /** Slice c of a three-index function. */
  function Slice(u: (int, int, int) -> real, c: int): (int, int) -> real
  {
    (a, b) => u(c, a, b)
  }

  /** Fibre (a, b) of a three-index function. */
  function Fibre(u: (int, int, int) -> real, a: int, b: int): int -> real
  {
    c => u(c, a, b)
  }

  function Layers(p: int, q: int, u: (int, int, int) -> real): int -> real
  {
    c => Sum2(p, q, Slice(u, c))
  }

  function Depths(m: int, u: (int, int, int) -> real): (int, int) -> real
  {
    (a, b) => Sum(m, Fibre(u, a, b))
  }

  /** A single sum commutes with a double sum. */
  lemma {:induction false} SumSum2Swap(m: int, p: int, q: int, u: (int, int, int) -> real)
    ensures Sum(m, Layers(p, q, u)) == Sum2(p, q, Depths(m, u))
    decreases m
  {
    if m <= 0 {
      Sum2Zero(p, q, Depths(m, u));
    } else {
      SumSum2Swap(m - 1, p, q, u);
      Sum2Add(p, q, Depths(m - 1, u), Slice(u, m - 1), Depths(m, u));
    }
  }

  /** The four-index exchange behind the kernel-gradient identity. */
  lemma Sum4Swap(n: int, m: int, p: int, q: int, t: (int, int, int, int) -> real)
    ensures Sum2(n, m, InnerSums(p, q, t)) == Sum2(p, q, OuterSums(n, m, t))
  {
    // v(r, a, b): the column sum of t with r, a, b fixed
    var v := (r, a, b) => Sum(m, Row(Outer(t, a, b), r));
    // for each row r, move the inner pair outside the column sum
    forall r | 0 <= r < n
      ensures RowSums(m, InnerSums(p, q, t))(r) == Layers(p, q, v)(r)
    {
      var u := (c, a, b) => t(r, c, a, b);
      forall c | 0 <= c < m
        ensures Row(InnerSums(p, q, t), r)(c) == Layers(p, q, u)(c)
      {
        Sum2Ext(p, q, Inner(t, r, c), Slice(u, c));
      }
      SumExt(m, Row(InnerSums(p, q, t), r), Layers(p, q, u));
      SumSum2Swap(m, p, q, u);
      forall a, b | 0 <= a < p && 0 <= b < q
        ensures Depths(m, u)(a, b) == Slice(v, r)(a, b)
      {
        SumExt(m, Fibre(u, a, b), Row(Outer(t, a, b), r));
      }
      Sum2Ext(p, q, Depths(m, u), Slice(v, r));
    }
    SumExt(n, RowSums(m, InnerSums(p, q, t)), Layers(p, q, v));
    // then move the inner pair outside the row sum
    SumSum2Swap(n, p, q, v);
    forall a, b | 0 <= a < p && 0 <= b < q
      ensures Depths(n, v)(a, b) == OuterSums(n, m, t)(a, b)
    {
      SumExt(n, Fibre(v, a, b), RowSums(m, Outer(t, a, b)));
    }
    Sum2Ext(p, q, Depths(n, v), OuterSums(n, m, t));
  }

  /** A single index k < n*m read as the row-major pair (k / m, k % m). */
  function RowMajor(f: int -> real, m: int): (int, int) -> real
  {
    (i, j) => f(i * m + j)
  }

  /** A sum over [0, a+b) splits at a. */
  lemma {:induction false} SumAppend(a: int, b: int, f: int -> real, g: int -> real)
    requires a >= 0 && b >= 0
    requires forall j :: 0 <= j < b ==> g(j) == f(a + j)
    ensures Sum(a + b, f) == Sum(a, f) + Sum(b, g)
    decreases b
  {
    if b > 0 {
      SumAppend(a, b - 1, f, g);
    }
  }

  /** A sum over n*m indices is the double sum over their row-major pairs. */
  lemma {:induction false} SumRowMajor(n: int, m: int, f: int -> real)
    requires n >= 0 && m >= 0
    ensures Sum(n * m, f) == Sum2(n, m, RowMajor(f, m))
    decreases n
  {
    if n > 0 {
      SumRowMajor(n - 1, m, f);
      assert n * m == (n - 1) * m + m;
      SumAppend((n - 1) * m, m, f, Row(RowMajor(f, m), n - 1));
    }
  }
}
