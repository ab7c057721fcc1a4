/** Convolutions_1.py: a one-filter network without pooling.

    The n x n image goes through the "same" convolution with the K x K filter
    W1 (flipped, so a correlation), a ReLU, and a dense layer W2 of n*n
    weights applied to the raveled map, followed by the clipped sigmoid. One
    training iteration (lines 93-147) embeds the image in a fresh zero buffer,
    computes the gradients of the loss with respect to W2 and W1, and steps
    the weights whose flags are set. */
module ConvolutionsOne {
  import opened Sums
  import opened Tensor
  import opened Padding
  import opened Convolution
  import opened Activation
  import opened Network

  /** The layers the forward computation produces for one image. */
  datatype Pass = Pass(conv: Matrix, l1: Matrix, l2: real)

  /** One iteration's result: the updated weights and the sample's scores. */
  datatype Outcome = Outcome(weights: Weights, scores: Scores)

  /** W1 is K x K and W2 has one weight per pixel of the n x n map (lines 53-54). */
  predicate Shaped(w: Weights, n: nat, K: nat)
  {
    IsMatrix(w.W1, K, K) && |w.W2| == n * n
  }

  /** The logit l1.reshape(-1) . W2 (lines 37 and 121). */
  function Logit(w: Weights, X: Matrix, n: nat, K: nat): real
    requires Shaped(w, n, K)
  {
    var l1 := Features(w.W1, X, n, K);
    FlattenLength(l1, n, n);
    Dot(Flatten(l1), w.W2)
  }

  /** The layers of one pass (lines 112-122): the convolution is the filter
      correlated over the padded buffer lt0, l1 is its ReLU, and l2 is the
      clipped sigmoid of l1 raveled against W2. */
  function Run(w: Weights, X: Matrix, n: nat, K: nat, sigmoid: real -> real): (p: Pass)
    requires Shaped(w, n, K)
    ensures IsMatrix(p.conv, n, n) && IsMatrix(p.l1, n, n)
    ensures K >= 1 && IsMatrix(X, n, n) ==> p.conv == Correlate(Pad(X, n, K), w.W1, n, K)
    ensures forall i, j :: 0 <= i < n && 0 <= j < n ==> p.l1[i][j] == Relu(p.conv[i][j])
    ensures p.l1 == Features(w.W1, X, n, K)
    ensures p.l2 == Output(Logit(w, X, n, K), sigmoid)
    ensures LowerClip <= p.l2 <= UpperClip
  {
    if K >= 1 && IsMatrix(X, n, n) then
      SameConvolutionIsCorrelation(X, w.W1, n, K);
      Pass(ConvolveSame(X, Flip(w.W1, K), n, K), Features(w.W1, X, n, K), Output(Logit(w, X, n, K), sigmoid))
    else
      Pass(ConvolveSame(X, Flip(w.W1, K), n, K), Features(w.W1, X, n, K), Output(Logit(w, X, n, K), sigmoid))
  }

  /** forward_pass (lines 31-44): the accuracy and loss of one sample. */
  function Forward(w: Weights, X: Matrix, y: int, n: nat, K: nat, sigmoid: real -> real, ln: Positive -> real): (s: Scores)
    requires Shaped(w, n, K)
    ensures y == 1 ==> s.loss == -ln(Output(Logit(w, X, n, K), sigmoid))
    ensures y == 0 ==> s.loss == -ln(1.0 - Output(Logit(w, X, n, K), sigmoid))
    ensures (y == 0 || y == 1) ==> (s.accuracy == 1 <==> (y == 1 <==> Output(Logit(w, X, n, K), sigmoid) > 0.5))
  {
    Score(y, Run(w, X, n, K, sigmoid).l2, ln)
  }

  // ---------------------------------------------------------------------------
  // Gradients, lines 133-142

  /** dW2 = ((1 - y) * l2 - y * (1 - l2)) * l1, raveled (line 133). */
  function DenseGrad(p: Pass, y: int, n: nat): (d: Vector)
    requires IsMatrix(p.l1, n, n)
    ensures |d| == |Flatten(p.l1)| == n * n
    ensures forall t :: 0 <= t < n * n ==> d[t] == (p.l2 - y as real) * Flatten(p.l1)[t]
  {
    FlattenLength(p.l1, n, n);
    Scale(GradFactor(y, p.l2), Flatten(p.l1))
  }

  /** dl1 = (factor * W2).reshape(side, side) (line 136; the source has side 28). */
  function OutputGrad(w: Weights, p: Pass, y: int, side: nat): (res: Result<Matrix>)
    ensures res.Ok? <==> |w.W2| == side * side
    ensures res.Err? ==> res.fault == ReshapeError
    ensures res.Ok? ==> IsMatrix(res.value, side, side)
  {
    Reshape(Scale(GradFactor(y, p.l2), w.W2), side, side)
  }

  /** The back-propagated map entry (r, c) is the factor times the weight that
      multiplies l1[r][c] in the logit. */
  lemma OutputGradAt(w: Weights, p: Pass, y: int, n: nat, r: int, c: int)
    requires |w.W2| == n * n && 0 <= r < n && 0 <= c < n
    ensures r * n + c < n * n
    ensures OutputGrad(w, p, y, n).value[r][c] == (p.l2 - y as real) * w.W2[r * n + c]
  {
    ReshapeAt(Scale(GradFactor(y, p.l2), w.W2), n, n, r, c);
  }

  /** Raveling the map and reshaping the weights pair the same entries: the
      logit l1.reshape(-1) . W2 is the entrywise product of l1 with
      W2.reshape(n, n), summed. */
  lemma DotIsFrobeniusOfReshape(A: Matrix, v: Vector, n: nat)
    requires IsMatrix(A, n, n) && |v| == n * n
    ensures |Flatten(A)| == n * n
    ensures Dot(Flatten(A), v) == Frobenius(A, Reshape(v, n, n).value, n, n)
  {
    FlattenLength(A, n, n);
    var R := Reshape(v, n, n).value;
    SumRowMajor(n, n, Products(Flatten(A), v));
    forall r, c | 0 <= r < n && 0 <= c < n
      ensures RowMajor(Products(Flatten(A), v), n)(r, c) == Hadamard(A, R)(r, c)
    {
      FlattenAt(A, n, n, r, c);
      ReshapeAt(v, n, n, r, c);
    }
    Sum2Ext(n, n, RowMajor(Products(Flatten(A), v), n), Hadamard(A, R));
  }

  /** dl1_f1p = dl1 * f1p, the output gradient gated by relu_prime (line 139). */
  function Backprop(p: Pass, dl1: Matrix, n: nat): (d: Matrix)
    ensures IsMatrix(d, n, n)
  {
    Times(dl1, ReluPrimeMap(p.conv, n), n)
  }

  /** dW1 (lines 140-142): the kernel gradient over the buffer lt0. */
  function FilterGrad(lt0: Matrix, p: Pass, dl1: Matrix, n: nat, K: nat): (g: Matrix)
    ensures IsMatrix(g, K, K)
  {
    KernelGrad(lt0, Backprop(p, dl1, n), n, K)
  }

  // ---------------------------------------------------------------------------
  // One training iteration

  /** Lines 108-147 once the buffer lt0 holds the image, with dl1 reshaped to
      side x side. Both gradients are computed whatever the flags (the reshape
      fails even when W1 is frozen); only the flagged weights move. */
  function StepFrom(lt0: Matrix, w: Weights, X: Matrix, y: int, n: nat, K: nat, eta: real,
                    updateW1: bool, updateW2: bool, sigmoid: real -> real, ln: Positive -> real,
                    side: nat): (res: Result<Outcome>)
    requires Shaped(w, n, K)
    ensures res.Ok? <==> side == n
    ensures res.Err? ==> res.fault == ReshapeError
    ensures res.Ok? ==> Shaped(res.value.weights, n, K)
    ensures res.Ok? ==> res.value.scores == Forward(w, X, y, n, K, sigmoid, ln)
    ensures res.Ok? && !updateW1 ==> res.value.weights.W1 == w.W1
    ensures res.Ok? && !updateW2 ==> res.value.weights.W2 == w.W2
  {
    var p := Run(w, X, n, K, sigmoid);
    var dW2 := DenseGrad(p, y, n);
    match OutputGrad(w, p, y, side)
    case Err(f) =>
      SideFromArea(n, side);
      Err(f)
    case Ok(dl1) =>
      SideFromArea(n, side);
      var dW1 := FilterGrad(lt0, p, dl1, n, K);
      var W1 := if updateW1 then MatUpdate(w.W1, eta, dW1, K, K) else w.W1;
      var W2 := if updateW2 then Update(w.W2, eta, dW2) else w.W2;
      Ok(Outcome(Weights(W1, W2), Forward(w, X, y, n, K, sigmoid, ln)))
  }

  /** Among naturals, equal squares mean equal sides. */
  lemma SideFromArea(n: nat, side: nat)
    ensures side * side == n * n <==> side == n
  {
    if side < n {
      MulLe(side, n, side);
      MulLe(side + 1, n, n);
      MulSucc(side, n);
    } else if side > n {
      MulLe(n, side, n);
      MulLe(n + 1, side, side);
      MulSucc(n, side);
    }
  }

  /** The intended iteration: the image padded into a zero buffer and dl1
      reshaped to the image's own side. */
  function Step(w: Weights, X: Matrix, y: int, n: nat, K: nat, eta: real,
                updateW1: bool, updateW2: bool, sigmoid: real -> real, ln: Positive -> real): (o: Outcome)
    requires K >= 1 && Shaped(w, n, K) && IsMatrix(X, n, n)
    ensures Shaped(o.weights, n, K)
    ensures o.scores == Forward(w, X, y, n, K, sigmoid, ln)
    ensures !updateW1 ==> o.weights.W1 == w.W1
    ensures !updateW2 ==> o.weights.W2 == w.W2
  {
    StepFrom(Pad(X, n, K), w, X, y, n, K, eta, updateW1, updateW2, sigmoid, ln, n).value
  }

  /** The iteration as written: the slice assignment of line 109 and the
      reshape(28, 28) of line 136. */
  function StepAsWritten(w: Weights, X: Matrix, y: int, n: nat, K: nat, eta: real,
                         updateW1: bool, updateW2: bool, sigmoid: real -> real, ln: Positive -> real): (res: Result<Outcome>)
    requires K >= 1 && Shaped(w, n, K) && IsMatrix(X, n, n)
    ensures res.Ok? <==> K >= 3 && n == 28
    ensures K <= 2 && n > 1 ==> res == Err(BroadcastError)
    ensures (K >= 3 || n <= 1) && n != 28 ==> res == Err(ReshapeError)
    ensures res.Ok? ==> res.value == Step(w, X, y, n, K, eta, updateW1, updateW2, sigmoid, ln)
  {
    var buf := Zeros(PaddedSide(n, K), PaddedSide(n, K));
    match EmbedAsWritten(buf, X, n, K)
    case Err(f) => Err(f)
    case Ok(lt0) =>
      if K >= 3 then
        EmbedAsWrittenAgrees(buf, X, n, K);
        StepFrom(lt0, w, X, y, n, K, eta, updateW1, updateW2, sigmoid, ln, 28)
      else
        StepFrom(lt0, w, X, y, n, K, eta, updateW1, updateW2, sigmoid, ln, 28)
  }

  /** The scenario of a 4 x 4 image with a 3 x 3 filter: the iteration as
      written stops at the reshape, while the intended one trains. */
  lemma FourByFourFailsAsWritten(w: Weights, X: Matrix, y: int, eta: real, updateW1: bool, updateW2: bool,
                                 sigmoid: real -> real, ln: Positive -> real)
    requires Shaped(w, 4, 3) && IsMatrix(X, 4, 4)
    ensures StepAsWritten(w, X, y, 4, 3, eta, updateW1, updateW2, sigmoid, ln) == Err(ReshapeError)
    ensures StepFrom(Pad(X, 4, 3), w, X, y, 4, 3, eta, updateW1, updateW2, sigmoid, ln, 4).Ok?
  {
  }

  /** The weights Step returns, in terms of the gradients of its own pass. */
  lemma StepWeights(w: Weights, X: Matrix, y: int, n: nat, K: nat, eta: real,
                    updateW1: bool, updateW2: bool, sigmoid: real -> real, ln: Positive -> real, p: Pass)
    requires K >= 1 && Shaped(w, n, K) && IsMatrix(X, n, n)
    requires p == Run(w, X, n, K, sigmoid)
    ensures Step(w, X, y, n, K, eta, updateW1, updateW2, sigmoid, ln).weights
         == Weights(if updateW1 then MatUpdate(w.W1, eta, FilterGrad(Pad(X, n, K), p, OutputGrad(w, p, y, n).value, n, K), K, K)
                    else w.W1,
                    if updateW2 then Update(w.W2, eta, DenseGrad(p, y, n)) else w.W2)
  {
  }

  /** The updates are plain gradient steps: W2 moves by -eta * dW2 and W1 by
      -eta * dW1, the gradients of the step's own pass. */
  lemma StepUpdates(w: Weights, X: Matrix, y: int, n: nat, K: nat, eta: real,
                    updateW1: bool, updateW2: bool, sigmoid: real -> real, ln: Positive -> real, p: Pass)
    requires K >= 1 && Shaped(w, n, K) && IsMatrix(X, n, n)
    requires p == Run(w, X, n, K, sigmoid)
    ensures var o := Step(w, X, y, n, K, eta, updateW1, updateW2, sigmoid, ln);
      && (updateW2 ==> forall t :: 0 <= t < n * n ==> o.weights.W2[t] == w.W2[t] - eta * DenseGrad(p, y, n)[t])
      && (updateW1 ==> forall a, b :: 0 <= a < K && 0 <= b < K ==>
            o.weights.W1[a][b] == w.W1[a][b] - eta * FilterGrad(Pad(X, n, K), p, OutputGrad(w, p, y, n).value, n, K)[a][b])
  {
    StepWeights(w, X, y, n, K, eta, updateW1, updateW2, sigmoid, ln, p);
  }

  /** dW1 is the gradient of the back-propagated sum: for every filter V,
      summing dl1_f1p times the convolution of the image with V gives the
      entrywise product of V with dW1, summed. So dW1[a][b] is exactly the
      rate at which that sum changes with V[a][b]. */
  lemma FilterGradIsGradient(w: Weights, X: Matrix, y: int, n: nat, K: nat, sigmoid: real -> real, V: Matrix)
    requires K >= 1 && Shaped(w, n, K) && IsMatrix(X, n, n) && IsMatrix(V, K, K)
    ensures var p := Run(w, X, n, K, sigmoid);
      var delta := Backprop(p, OutputGrad(w, p, y, n).value, n);
      Frobenius(delta, ConvolveSame(X, Flip(V, K), n, K), n, n)
        == Frobenius(V, FilterGrad(Pad(X, n, K), p, OutputGrad(w, p, y, n).value, n, K), K, K)
  {
    var p := Run(w, X, n, K, sigmoid);
    var delta := Backprop(p, OutputGrad(w, p, y, n).value, n);
    SameConvolutionIsCorrelation(X, V, n, K);
    KernelGradIsCoefficient(Pad(X, n, K), V, delta, n, K);
  }

  /** The logit is l1 summed against W2.reshape(n, n). */
  lemma LogitIsFrobenius(w: Weights, X: Matrix, n: nat, K: nat)
    requires Shaped(w, n, K)
    ensures Logit(w, X, n, K) == Frobenius(Features(w.W1, X, n, K), Reshape(w.W2, n, n).value, n, n)
  {
    DotIsFrobeniusOfReshape(Features(w.W1, X, n, K), w.W2, n);
  }

  /** dl1 is W2.reshape(n, n) scaled by l2 - y. */
  lemma OutputGradIsScaledReshape(w: Weights, p: Pass, y: int, n: nat)
    requires |w.W2| == n * n
    ensures forall r, c :: 0 <= r < n && 0 <= c < n ==>
      OutputGrad(w, p, y, n).value[r][c] == (p.l2 - y as real) * Reshape(w.W2, n, n).value[r][c]
  {
    forall r, c | 0 <= r < n && 0 <= c < n
      ensures OutputGrad(w, p, y, n).value[r][c] == (p.l2 - y as real) * Reshape(w.W2, n, n).value[r][c]
    {
      OutputGradAt(w, p, y, n, r, c);
      ReshapeAt(w.W2, n, n, r, c);
    }
  }

  /** The output gradient is the logit's gradient with respect to l1, times
      the factor: the logit is l1 summed against W2.reshape(n, n), and dl1 is
      that reshape scaled by l2 - y. */
  lemma OutputGradIsGradient(w: Weights, X: Matrix, y: int, n: nat, K: nat, sigmoid: real -> real, p: Pass)
    requires Shaped(w, n, K) && p == Run(w, X, n, K, sigmoid)
    ensures Logit(w, X, n, K) == Frobenius(p.l1, Reshape(w.W2, n, n).value, n, n)
    ensures forall r, c :: 0 <= r < n && 0 <= c < n ==>
      OutputGrad(w, p, y, n).value[r][c] == (p.l2 - y as real) * Reshape(w.W2, n, n).value[r][c]
  {
    LogitIsFrobenius(w, X, n, K);
    OutputGradIsScaledReshape(w, p, y, n);
  }


  /** Stepping weights v along -eta * g * x moves their dot product with x
      by -eta * g * |x|^2. */
  lemma DenseUpdateShiftsLogit(x: Vector, v: Vector, eta: real, g: real)
    requires |x| == |v|
    ensures Dot(x, Update(v, eta, Scale(g, x))) == Dot(x, v) - eta * g * Dot(x, x)
  {
    DotUpdate(x, v, eta, Scale(g, x));
    DotScale(g, x, x);
    DotSymmetric(x, Scale(g, x));
  }

  /** Stepping W2 along -eta * g * l1 (raveled) moves the logit by
      -eta * g * |l1|^2. */
  lemma LogitAfterDenseUpdate(w: Weights, v: Weights, X: Matrix, n: nat, K: nat, eta: real, g: real, x: Vector)
    requires Shaped(w, n, K)
    requires x == Flatten(Features(w.W1, X, n, K)) && |x| == n * n
    requires v == Weights(w.W1, Update(w.W2, eta, Scale(g, x)))
    ensures Shaped(v, n, K)
    ensures Logit(v, X, n, K) == Logit(w, X, n, K) - eta * g * Dot(x, x)
  {
    DenseUpdateShiftsLogit(x, w.W2, eta, g);
  }

  /** With only W2 training, the step is that update with g = (l2 - y). */
  lemma DenseStepWeights(w: Weights, X: Matrix, y: int, n: nat, K: nat, eta: real,
                         sigmoid: real -> real, ln: Positive -> real, p: Pass)
    requires K >= 1 && Shaped(w, n, K) && IsMatrix(X, n, n)
    requires p == Run(w, X, n, K, sigmoid)
    ensures Step(w, X, y, n, K, eta, false, true, sigmoid, ln).weights
         == Weights(w.W1, Update(w.W2, eta, Scale(GradFactor(y, p.l2), Flatten(Features(w.W1, X, n, K)))))
  {
    StepWeights(w, X, y, n, K, eta, false, true, sigmoid, ln, p);
  }

  /** On weights alone: stepping W2 along -eta * (l2 - y) * l1 moves the
      logit towards the label y, for any clipped l2 and eta >= 0. */
  lemma DenseUpdateMovesLogitTowardLabel(w: Weights, v: Weights, X: Matrix, n: nat, K: nat, eta: real,
                                         y: int, l2: real, x: Vector)
    requires Shaped(w, n, K) && eta >= 0.0 && LowerClip <= l2 <= UpperClip
    requires x == Flatten(Features(w.W1, X, n, K)) && |x| == n * n
    requires v == Weights(w.W1, Update(w.W2, eta, Scale(GradFactor(y, l2), x)))
    ensures Shaped(v, n, K)
    ensures y == 1 ==> Logit(v, X, n, K) >= Logit(w, X, n, K)
    ensures y == 0 ==> Logit(v, X, n, K) <= Logit(w, X, n, K)
  {
    LogitAfterDenseUpdate(w, v, X, n, K, eta, GradFactor(y, l2), x);
    DotSelfNonNegative(x);
    FactorSign(y, l2);
    SignOfShift(Logit(w, X, n, K), Logit(v, X, n, K), eta, GradFactor(y, l2), Dot(x, x), y);
  }

  /** Hence, for a non-negative learning rate, a step of W2 alone moves the
      logit towards the label. */
  lemma DenseStepMovesLogitTowardLabel(w: Weights, X: Matrix, y: int, n: nat, K: nat, eta: real,
                                       sigmoid: real -> real, ln: Positive -> real)
    requires K >= 1 && Shaped(w, n, K) && IsMatrix(X, n, n) && eta >= 0.0
    ensures var o := Step(w, X, y, n, K, eta, false, true, sigmoid, ln);
      var z, z' := Logit(w, X, n, K), Logit(o.weights, X, n, K);
      && (y == 1 ==> z' >= z)
      && (y == 0 ==> z' <= z)
  {
    var p := Run(w, X, n, K, sigmoid);
    FlattenLength(p.l1, n, n);
    DenseStepWeights(w, X, y, n, K, eta, sigmoid, ln, p);
    DenseUpdateMovesLogitTowardLabel(w, Step(w, X, y, n, K, eta, false, true, sigmoid, ln).weights, X, n, K,
                                     eta, y, p.l2, Flatten(p.l1));
  }

  /** On a clipped output the factor l2 - y is negative for the label 1 and
      positive for the label 0. */
  lemma FactorSign(y: int, l2: real)
    requires LowerClip <= l2 <= UpperClip
    ensures y == 1 ==> GradFactor(y, l2) < 0.0
    ensures y == 0 ==> GradFactor(y, l2) > 0.0
  {
  }

  /** A shift of z by -eta * g * d, with eta, d >= 0 and g on the side of its
      label, moves z towards that label. */
  lemma SignOfShift(z: real, z': real, eta: real, g: real, d: real, y: int)
    requires z' == z - eta * g * d
    requires eta >= 0.0 && d >= 0.0
    requires y == 1 ==> g < 0.0
    requires y == 0 ==> g > 0.0
    ensures y == 1 ==> z' >= z
    ensures y == 0 ==> z' <= z
  {
    assert eta * d >= 0.0;
    assert eta * g * d == g * (eta * d);
  }
}
