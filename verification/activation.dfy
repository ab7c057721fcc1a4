/** The scalar layers both scripts share: ReLU and its derivative mask, the
    sigmoid output clipped away from 0 and 1, the cross-entropy loss, the 0/1
    accuracy, and the factor that starts back-propagation.

    The sigmoid and the natural logarithm come from libraries this model does
    not contain; they are passed in as functions. The logarithm only accepts
    positive reals, so every call to it must be preceded by an argument the
    verifier can show positive, as the clip makes it in the scripts. */
module Activation {
  import opened Tensor

  type Positive = x: real | x > 0.0 witness 1.0

  // ---------------------------------------------------------------------------
  // ReLU

  /** relu(x) = max(x, 0) */
  function Relu(x: real): (y: real)
    ensures y >= 0.0 && y >= x
    ensures y == x || y == 0.0
  {
    if x > 0.0 then x else 0.0
  }

  /** relu_prime(x): 1 where x > 0, else 0 */
  function ReluPrime(x: real): (d: real)
    ensures d == 0.0 || d == 1.0
    ensures d == 1.0 <==> x > 0.0
  {
    if x > 0.0 then 1.0 else 0.0
  }

  /** ReLU is its own input gated by its derivative, and applying it twice
      changes nothing. */
  lemma ReluIsGatedIdentity(x: real)
    ensures Relu(x) == ReluPrime(x) * x
    ensures Relu(Relu(x)) == Relu(x)
  {
  }

  /** relu applied to every entry of an n x n map. */
  function ReluMap(m: Matrix, n: nat): (r: Matrix)
    ensures IsMatrix(r, n, n)
    ensures forall i, j :: 0 <= i < n && 0 <= j < n ==> r[i][j] == Relu(At(m, i, j))
  {
    seq(n, i => seq(n, j => Relu(At(m, i, j))))
  }

  /** relu_prime applied to every entry of an n x n map (f1p). */
  function ReluPrimeMap(m: Matrix, n: nat): (r: Matrix)
    ensures IsMatrix(r, n, n)
    ensures forall i, j :: 0 <= i < n && 0 <= j < n ==> r[i][j] == ReluPrime(At(m, i, j))
  {
    seq(n, i => seq(n, j => ReluPrime(At(m, i, j))))
  }

  /** The entrywise product A * B of two n x n maps. */
  function Times(A: Matrix, B: Matrix, n: nat): (r: Matrix)
    ensures IsMatrix(r, n, n)
    ensures forall i, j :: 0 <= i < n && 0 <= j < n ==> r[i][j] == At(A, i, j) * At(B, i, j)
  {
    seq(n, i => seq(n, j => At(A, i, j) * At(B, i, j)))
  }

  /** np.where(conv > 0, d, 0) on n x n maps. */
  function Mask(conv: Matrix, d: Matrix, n: nat): (r: Matrix)
    ensures IsMatrix(r, n, n)
  {
    seq(n, i => seq(n, j => if At(conv, i, j) > 0.0 then At(d, i, j) else 0.0))
  }

  /** Gating by the sign of the convolution (np.where) is the product with the
      ReLU derivative (dl1 * f1p): the two scripts back-propagate through the
      ReLU the same way. */
  lemma MaskIsReluPrimeProduct(conv: Matrix, d: Matrix, n: nat)
    ensures Mask(conv, d, n) == Times(d, ReluPrimeMap(conv, n), n)
  {
    var lhs, rhs := Mask(conv, d, n), Times(d, ReluPrimeMap(conv, n), n);
    forall i | 0 <= i < n
      ensures lhs[i] == rhs[i]
    {
      assert forall j :: 0 <= j < n ==> lhs[i][j] == rhs[i][j];
    }
  }

  // ---------------------------------------------------------------------------
  // The clipped sigmoid output

  /** 10**-16, the lower clip bound. */
  const LowerClip: real := 0.0000000000000001
  /** 1 - 10**-16, the upper clip bound. */
  const UpperClip: real := 1.0 - LowerClip

  /** x.clip(lo, hi) */
  function Clip(x: real, lo: real, hi: real): (r: real)
    requires lo <= hi
    ensures lo <= r <= hi
    ensures lo <= x <= hi ==> r == x
    ensures x < lo ==> r == lo
    ensures x > hi ==> r == hi
  {
    if x < lo then lo else if x > hi then hi else x
  }

  /** Clipping is idempotent and monotone. */
  lemma ClipIdempotentMonotone(x: real, x': real, lo: real, hi: real)
    requires lo <= hi && x <= x'
    ensures Clip(Clip(x, lo, hi), lo, hi) == Clip(x, lo, hi)
    ensures Clip(x, lo, hi) <= Clip(x', lo, hi)
  {
  }

  /** l2 = sigmoid(z).clip(10**-16, 1 - 10**-16): strictly between 0 and 1,
      so both logarithms of the loss are defined. */
  function Output(z: real, sigmoid: real -> real): (l2: real)
    ensures LowerClip <= l2 <= UpperClip
    ensures 0.0 < l2 < 1.0
    ensures LowerClip <= sigmoid(z) <= UpperClip ==> l2 == sigmoid(z)
  {
    Clip(sigmoid(z), LowerClip, UpperClip)
  }

  // ---------------------------------------------------------------------------
  // Loss, accuracy and the back-propagated factor

  /** -(y * log(l2) + (1 - y) * log(1 - l2)) */
  function Loss(y: int, l2: real, ln: Positive -> real): (loss: real)
    requires 0.0 < l2 < 1.0
    ensures y == 1 ==> loss == -ln(l2)
    ensures y == 0 ==> loss == -ln(1.0 - l2)
  {
    -((y as real) * ln(l2) + (1.0 - y as real) * ln(1.0 - l2))
  }

  /** Swapping the label and the predicted probability leaves the loss unchanged. */
  lemma LossSymmetric(y: int, l2: real, ln: Positive -> real)
    requires 0.0 < l2 < 1.0
    ensures Loss(y, l2, ln) == Loss(1 - y, 1.0 - l2, ln)
  {
    assert 1.0 - (1.0 - l2) == l2;
  }

  /** For a logarithm that is monotone with log(1) = 0, the clip bounds the
      loss of a 0/1 label between 0 and -log(10**-16). */
  lemma LossBounded(y: int, l2: real, ln: Positive -> real)
    requires y == 0 || y == 1
    requires LowerClip <= l2 <= UpperClip
    requires ln(1.0) == 0.0
    requires forall a: Positive, b: Positive :: a <= b ==> ln(a) <= ln(b)
    ensures 0.0 <= Loss(y, l2, ln) <= -ln(LowerClip)
  {
    if y == 1 {
      assert ln(LowerClip) <= ln(l2) <= ln(1.0);
    } else {
      assert ln(LowerClip) <= ln(1.0 - l2) <= ln(1.0);
    }
  }

  /** np.where(l2 > 0.5, 1, 0) */
  function Predict(l2: real): (c: int)
    ensures c == 0 || c == 1
    ensures c == 1 <==> l2 > 0.5
  {
    if l2 > 0.5 then 1 else 0
  }

  /** int(y == np.where(l2 > 0.5, 1, 0)): for a 0/1 label, 1 exactly when the
      output is on the label's side of 0.5, where 0.5 itself counts as class 0. */
  function Accuracy(y: int, l2: real): (a: int)
    ensures a == 0 || a == 1
    ensures (y == 0 || y == 1) ==> (a == 1 <==> (y == 1 <==> l2 > 0.5))
    ensures y != 0 && y != 1 ==> a == 0
  {
    if y == Predict(l2) then 1 else 0
  }

  /** The factor of lines 154 and 158 of Convolutions_Simple.py (line 133 of
      Convolutions_1.py), the derivative of the loss with respect to the
      logit, in its simplified form l2 - y; GradFactorExpands shows it is the
      scripts' expression. */
  function GradFactor(y: int, l2: real): real
  {
    l2 - y as real
  }

  /** The scripts write the factor as (1 - y) * l2 - y * (1 - l2). */
  lemma GradFactorExpands(y: int, l2: real)
    ensures GradFactor(y, l2) == (1.0 - y as real) * l2 - (y as real) * (1.0 - l2)
  {
  }

  /** The factor is the chain rule through the sigmoid: the loss derivative
      with respect to l2, -y/l2 + (1-y)/(1-l2), times the sigmoid derivative
      l2 * (1 - l2). Its sign pushes the logit towards the label. */
  lemma GradFactorIsChainRule(y: int, l2: real)
    requires 0.0 < l2 < 1.0
    ensures GradFactor(y, l2) == (-(y as real) / l2 + (1.0 - y as real) / (1.0 - l2)) * (l2 * (1.0 - l2))
    ensures y == 1 ==> GradFactor(y, l2) < 0.0
    ensures y == 0 ==> GradFactor(y, l2) > 0.0
  {
    var yr := y as real;
    var q := 1.0 - l2;
    assert yr / l2 * (l2 * q) == yr * q;
    assert (1.0 - yr) / q * (l2 * q) == (1.0 - yr) * l2;
  }
}
