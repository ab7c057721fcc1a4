/** The "same" convolution of the image with the flipped kernel, and the
    kernel gradient computed from the padded buffer.

    scipy.signal.convolve is not modelled as a library: its 'same' mode is
    written out by its index definition, the centre of the full convolution.
    The training scripts call it with W1[::-1, ::-1], which makes it a
    correlation of W1 over the zero-padded image; the kernel gradient dW1 is
    the correlation of the padded image with the back-propagated map. */
module Convolution {
  import opened Sums
  import opened Tensor
  import opened Padding

  /** W[::-1, ::-1] */
  function Flip(W: Matrix, K: nat): (f: Matrix)
    requires IsMatrix(W, K, K)
    ensures IsMatrix(f, K, K)
    ensures forall a, b :: 0 <= a < K && 0 <= b < K ==> f[a][b] == W[K - 1 - a][K - 1 - b]
  {
    seq(K, a requires 0 <= a < K => seq(K, b requires 0 <= b < K => W[K - 1 - a][K - 1 - b]))
  }

  /** The terms of entry (i, j) of the full convolution of x with k. */
  function FullTerms(x: Matrix, k: Matrix, i: int, j: int): (int, int) -> real
  {
    (a, b) => At(x, i - a, j - b) * At(k, a, b)
  }

  /** Entry (i, j) of the full convolution: sum over a, b of x[i-a][j-b] * k[a][b],
      with x extended by zeros. */
  function FullEntry(x: Matrix, k: Matrix, K: nat, i: int, j: int): real
  {
    Sum2(K, K, FullTerms(x, k, i, j))
  }

  /** convolve(x, k, 'same') for an n x n image and a K x K kernel: the n x n
      window of the full convolution that starts at ((K-1)//2, (K-1)//2). */
  function ConvolveSame(x: Matrix, k: Matrix, n: nat, K: nat): (y: Matrix)
    ensures IsMatrix(y, n, n)
  {
    seq(n, r => seq(n, c => FullEntry(x, k, K, r + (K - 1) / 2, c + (K - 1) / 2)))
  }

  /** The terms of entry (r, c) of the correlation of W over lt0. */
  function CorrTerms(lt0: Matrix, W: Matrix, r: int, c: int): (int, int) -> real
  {
    (a, b) => At(W, a, b) * At(lt0, r + a, c + b)
  }

  /** Correlation of the K x K kernel W over the padded buffer lt0:
      entry (r, c) is the sum over a, b of W[a][b] * lt0[r+a][c+b]. */
  function Correlate(lt0: Matrix, W: Matrix, n: nat, K: nat): (y: Matrix)
    ensures IsMatrix(y, n, n)
  {
    seq(n, r => seq(n, c => Sum2(K, K, CorrTerms(lt0, W, r, c))))
  }

  /** lt0 holds x shifted by K//2 and extended by zeros. */
  ghost predicate ShiftedBy(lt0: Matrix, x: Matrix, K: nat)
  {
    forall i, j :: At(lt0, i, j) == At(x, i - K / 2, j - K / 2)
  }

  /** One term of the correlation is the mirrored term of the full convolution. */
  lemma CorrTermIsMirroredFullTerm(x: Matrix, lt0: Matrix, W: Matrix, K: nat, r: int, c: int, a: int, b: int)
    requires K >= 1 && IsMatrix(W, K, K) && ShiftedBy(lt0, x, K)
    requires 0 <= a < K && 0 <= b < K
    ensures CorrTerms(lt0, W, r, c)(a, b)
         == FullTerms(x, Flip(W, K), r + (K - 1) / 2, c + (K - 1) / 2)(K - 1 - a, K - 1 - b)
  {
    var s, h := (K - 1) / 2, K / 2;
    assert s + h == K - 1;
    var u := At(lt0, r + a, c + b);
    assert u == At(x, (r + s) - (K - 1 - a), (c + s) - (K - 1 - b));
    var fw := Flip(W, K);
    assert At(fw, K - 1 - a, K - 1 - b) == W[a][b];
    assert CorrTerms(lt0, W, r, c)(a, b) == W[a][b] * u;
    assert FullTerms(x, fw, r + s, c + s)(K - 1 - a, K - 1 - b) == u * W[a][b];
  }

  /** One entry of the flipped-kernel convolution is the same entry of the
      correlation over the shifted image. */
  lemma SameEntryIsCorrelationEntry(x: Matrix, lt0: Matrix, W: Matrix, n: nat, K: nat, r: int, c: int)
    requires K >= 1 && IsMatrix(W, K, K) && ShiftedBy(lt0, x, K)
    requires 0 <= r < n && 0 <= c < n
    ensures ConvolveSame(x, Flip(W, K), n, K)[r][c] == Correlate(lt0, W, n, K)[r][c]
  {
    MirroredSums(x, lt0, W, K, r, c);
    ConvolveSameAt(x, Flip(W, K), n, K, r, c);
    CorrelateAt(lt0, W, n, K, r, c);
  }

  /** The correlation's terms, read in reverse order, are the full convolution's
      terms, so the two sums agree. */
  lemma MirroredSums(x: Matrix, lt0: Matrix, W: Matrix, K: nat, r: int, c: int)
    requires K >= 1 && IsMatrix(W, K, K) && ShiftedBy(lt0, x, K)
    ensures Sum2(K, K, CorrTerms(lt0, W, r, c)) == Sum2(K, K, FullTerms(x, Flip(W, K), r + (K - 1) / 2, c + (K - 1) / 2))
  {
    var f := FullTerms(x, Flip(W, K), r + (K - 1) / 2, c + (K - 1) / 2);
    var g := CorrTerms(lt0, W, r, c);
    forall a, b | 0 <= a < K && 0 <= b < K
      ensures g(a, b) == f(K - 1 - a, K - 1 - b)
    {
      CorrTermIsMirroredFullTerm(x, lt0, W, K, r, c, a, b);
    }
    Sum2Reverse(K, K, f, g);
  }

  /** Entry (r, c) of the 'same' convolution, read off its definition. */
  lemma ConvolveSameAt(x: Matrix, k: Matrix, n: nat, K: nat, r: int, c: int)
    requires 0 <= r < n && 0 <= c < n
    ensures ConvolveSame(x, k, n, K)[r][c] == Sum2(K, K, FullTerms(x, k, r + (K - 1) / 2, c + (K - 1) / 2))
  {
  }

  /** Entry (r, c) of the correlation, read off its definition. */
  lemma CorrelateAt(lt0: Matrix, W: Matrix, n: nat, K: nat, r: int, c: int)
    requires 0 <= r < n && 0 <= c < n
    ensures Correlate(lt0, W, n, K)[r][c] == Sum2(K, K, CorrTerms(lt0, W, r, c))
  {
  }

  /** The flipped-kernel 'same' convolution is the correlation of W over the
      image padded by K//2 on every side. */
  lemma SameConvolutionIsCorrelation(x: Matrix, W: Matrix, n: nat, K: nat)
    requires K >= 1 && IsMatrix(x, n, n) && IsMatrix(W, K, K)
    ensures ConvolveSame(x, Flip(W, K), n, K) == Correlate(Pad(x, n, K), W, n, K)
  {
    var lt0 := Pad(x, n, K);
    forall i, j
      ensures At(lt0, i, j) == At(x, i - K / 2, j - K / 2)
    {
      PadAt(x, n, K, i, j);
    }
    var lhs, rhs := ConvolveSame(x, Flip(W, K), n, K), Correlate(lt0, W, n, K);
    forall r | 0 <= r < n
      ensures lhs[r] == rhs[r]
    {
      forall c | 0 <= c < n
        ensures lhs[r][c] == rhs[r][c]
      {
        SameEntryIsCorrelationEntry(x, lt0, W, n, K, r, c);
      }
    }
  }

  /** The window lt0[a:a+n, b:b+n] the kernel-gradient loop reads is never
      cut short by numpy's slice clamping: for every kernel offset a < K it
      is exactly rows a .. a+n-1 of the (n+K-1)-sided buffer. */
  lemma GradientWindowInBounds(n: nat, K: nat, a: int)
    requires K >= 1 && 0 <= a < K
    ensures SliceBounds(PaddedSide(n, K), a, a + n) == (a, a + n)
    ensures n > 0 ==> SliceBounds(PaddedSide(n, K), K, K + n).1 - SliceBounds(PaddedSide(n, K), K, K + n).0 == n - 1
  {
  }

  /** The terms of entry (a, b) of the kernel gradient. */
  function GradTerms(lt0: Matrix, delta: Matrix, a: int, b: int): (int, int) -> real
  {
    (r, c) => At(lt0, a + r, b + c) * At(delta, r, c)
  }

  /** dW1[a][b] = (lt0[a:a+n, b:b+n] * delta).sum() for a, b in range(K). */
  function KernelGrad(lt0: Matrix, delta: Matrix, n: nat, K: nat): (g: Matrix)
    ensures IsMatrix(g, K, K)
  {
    seq(K, a => seq(K, b => Sum2(n, n, GradTerms(lt0, delta, a, b))))
  }

  /** The products of two matrices, entry by entry. */
  function Hadamard(A: Matrix, B: Matrix): (int, int) -> real
  {
    (i, j) => At(A, i, j) * At(B, i, j)
  }

  /** The Frobenius inner product (A * B).sum() over [0, rows) x [0, cols). */
  function Frobenius(A: Matrix, B: Matrix, rows: nat, cols: nat): real
  {
    Sum2(rows, cols, Hadamard(A, B))
  }

  /** dW1[a][b] is the coefficient of W[a][b] in the sum of delta times the
      correlation: (delta * Correlate(lt0, W)).sum() == (W * dW1).sum() for
      every kernel W, so dW1 is the gradient of that sum with respect to W. */
  lemma KernelGradIsCoefficient(lt0: Matrix, W: Matrix, delta: Matrix, n: nat, K: nat)
    requires IsMatrix(W, K, K) && IsMatrix(delta, n, n)
    ensures Frobenius(delta, Correlate(lt0, W, n, K), n, n)
         == Frobenius(W, KernelGrad(lt0, delta, n, K), K, K)
  {
    var corr, grad := Correlate(lt0, W, n, K), KernelGrad(lt0, delta, n, K);
    var t := (r, c, a, b) => At(delta, r, c) * (At(W, a, b) * At(lt0, r + a, c + b));
    forall r, c | 0 <= r < n && 0 <= c < n
      ensures Hadamard(delta, corr)(r, c) == InnerSums(K, K, t)(r, c)
    {
      Sum2Scale(K, K, CorrTerms(lt0, W, r, c), Inner(t, r, c), At(delta, r, c));
    }
    Sum2Ext(n, n, Hadamard(delta, corr), InnerSums(K, K, t));
    forall a, b | 0 <= a < K && 0 <= b < K
      ensures Hadamard(W, grad)(a, b) == OuterSums(n, n, t)(a, b)
    {
      Sum2Scale(n, n, GradTerms(lt0, delta, a, b), Outer(t, a, b), At(W, a, b));
    }
    Sum2Ext(K, K, Hadamard(W, grad), OuterSums(n, n, t));
    Sum4Swap(n, n, K, K, t);
  }
}
