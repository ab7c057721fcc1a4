/** What both training scripts share: the parameters, a labelled sample,
    the per-sample scores and the convolutional feature map. */
module Network {
  import opened Tensor
  import opened Padding
  import opened Convolution
  import opened Activation

  /** The trainable parameters: the K x K filter W1 and the dense weights W2. */
  datatype Weights = Weights(W1: Matrix, W2: Vector)

  /** A normalized image and its 0/1 label (class 3 is 1, class 1 is 0). */
  datatype Sample = Sample(X: Matrix, y: int)

  /** The per-sample scores the scripts send to their running averagers. */
  datatype Scores = Scores(accuracy: int, loss: real)

  /** The accuracy and loss of a clipped output l2 for label y. */
  function Score(y: int, l2: real, ln: Positive -> real): (s: Scores)
    requires 0.0 < l2 < 1.0
    ensures s.accuracy == 0 || s.accuracy == 1
    ensures (y == 0 || y == 1) ==> (s.accuracy == 1 <==> (y == 1 <==> l2 > 0.5))
    ensures y == 1 ==> s.loss == -ln(l2)
    ensures y == 0 ==> s.loss == -ln(1.0 - l2)
  {
    Scores(Accuracy(y, l2), Loss(y, l2, ln))
  }

  /** l1 = relu(l0_conv), l0_conv the "same" convolution of the image with
      the flipped filter W1[::-1, ::-1]. Entry (i, j) is relu of the filter
      laid over the padded buffer lt0 at (i, j), the correlation the training
      step differentiates. */
  function Features(W1: Matrix, X: Matrix, n: nat, K: nat): (l1: Matrix)
    requires IsMatrix(W1, K, K)
    ensures IsMatrix(l1, n, n)
    ensures forall i, j :: 0 <= i < n && 0 <= j < n ==>
      l1[i][j] == Relu(ConvolveSame(X, Flip(W1, K), n, K)[i][j])
    ensures K >= 1 && IsMatrix(X, n, n) ==> forall i, j :: 0 <= i < n && 0 <= j < n ==>
      l1[i][j] == Relu(Correlate(Pad(X, n, K), W1, n, K)[i][j])
  {
    if K >= 1 && IsMatrix(X, n, n) then
      SameConvolutionIsCorrelation(X, W1, n, K);
      ReluMap(ConvolveSame(X, Flip(W1, K), n, K), n)
    else
      ReluMap(ConvolveSame(X, Flip(W1, K), n, K), n)
  }
}
