/** Convolutions_Simple.py: the one-filter network with max-pooling.

    The n x n image goes through the "same" convolution with the K x K filter
    W1, a ReLU, max-pooling over w x w blocks, and a dense layer W2 of P*P
    weights, P = n / w, followed by the clipped sigmoid. The training loop
    keeps two buffers across iterations: lt0, the padded image (a module
    global, shared even between calls of train_model), and dl1, the
    back-propagated map, created once per call, written at the argmax cells
    and cleared again at the end of every iteration. */
module ConvolutionsSimple {
  import opened Tensor
  import opened Padding
  import opened Convolution
  import opened Pooling
  import opened Activation
  import opened Network
  import ConvolutionsOne

  /** The sizes fixed at lines 56-62: image side n, kernel side K, pooling
      window w, and the pooled side P. */
  datatype Config = Config(n: nat, K: nat, w: nat, P: nat)

  predicate Valid(c: Config)
  {
    c.K >= 1 && c.w > 0 && c.P * c.w == c.n
  }

  /** Lines 56-62: the assert that w divides the image side, then
      max_pooled_image_size = image_size / w. */
  function Configure(n: nat, K: nat, w: nat): (res: Result<Config>)
    requires K >= 1
    ensures res.Ok? <==> w > 0 && n % w == 0
    ensures res.Ok? ==> Valid(res.value) && res.value == Config(n, K, w, n / w)
    ensures w == 0 ==> res == Err(ZeroDivision)
    ensures w > 0 && n % w != 0 ==> res == Err(AssertionFailed)
  {
    match PooledSide(n, w)
    case Err(f) => Err(f)
    case Ok(P) => Ok(Config(n, K, w, P))
  }

  /** W1 is K x K and W2 has one weight per pooled value (lines 36-38). */
  predicate Shaped(wt: Weights, c: Config)
  {
    IsMatrix(wt.W1, c.K, c.K) && |wt.W2| == c.P * c.P
  }

  // ---------------------------------------------------------------------------
  // forward_pass, lines 41-54

  /** The pooled values block_reduce(l1, (w, w), np.max).ravel() (line 46). */
  function ReducedFeatures(W1: Matrix, X: Matrix, c: Config): (v: Vector)
    requires Valid(c) && IsMatrix(W1, c.K, c.K)
    ensures |v| == c.P * c.P
  {
    var g := BlockReduceMax(Features(W1, X, c.n, c.K), c.w, c.P);
    FlattenLength(g, c.P, c.P);
    Flatten(g)
  }

  /** forward_pass: the accuracy and loss of one sample (lines 41-54). */
  function Forward(wt: Weights, X: Matrix, y: int, c: Config, sigmoid: real -> real, ln: Positive -> real): (s: Scores)
    requires Valid(c) && Shaped(wt, c)
    ensures y == 1 ==> s.loss == -ln(Output(Dot(ReducedFeatures(wt.W1, X, c), wt.W2), sigmoid))
    ensures y == 0 ==> s.loss == -ln(1.0 - Output(Dot(ReducedFeatures(wt.W1, X, c), wt.W2), sigmoid))
    ensures (y == 0 || y == 1) ==>
      (s.accuracy == 1 <==> (y == 1 <==> Output(Dot(ReducedFeatures(wt.W1, X, c), wt.W2), sigmoid) > 0.5))
  {
    Score(y, Output(Dot(ReducedFeatures(wt.W1, X, c), wt.W2), sigmoid), ln)
  }

  /** With dense weights all zero the logit is 0, so a sigmoid with
      sigmoid(0) = 0.5 predicts class 0 for every image: the accuracy is 1
      exactly for label 0, and the loss is -log(0.5) for either label. */
  lemma ZeroDenseWeightsScenario(W1: Matrix, X: Matrix, y: int, c: Config, sigmoid: real -> real, ln: Positive -> real)
    requires Valid(c) && IsMatrix(W1, c.K, c.K)
    requires sigmoid(0.0) == 0.5 && (y == 0 || y == 1)
    ensures var s := Forward(Weights(W1, seq(c.P * c.P, _ => 0.0)), X, y, c, sigmoid, ln);
      s.accuracy == (if y == 0 then 1 else 0) && s.loss == -ln(0.5)
  {
    var W2 := seq(c.P * c.P, _ => 0.0);
    DotZero(ReducedFeatures(W1, X, c), W2);
    assert 1.0 - 0.5 == 0.5;
  }

  // ---------------------------------------------------------------------------
  // One iteration of the training loop, lines 119-174

  /** The buffers the loop carries: the weights, lt0 and dl1. */
  datatype State = State(weights: Weights, lt0: Matrix, dl1: Matrix)

  /** The layers one iteration computes (lines 127-142). */
  datatype Pass = Pass(conv: Matrix, l1: Matrix, pooled: Vector, cells: seq<Cell>, l2: real)

  /** Every array has the shape the script allocates for it. */
  predicate Ready(s: State, c: Config)
    requires Valid(c)
  {
    && Shaped(s.weights, c)
    && IsMatrix(s.lt0, PaddedSide(c.n, c.K), PaddedSide(c.n, c.K))
    && IsMatrix(s.dl1, c.n, c.n)
  }

  /** Between iterations the border of lt0 and all of dl1 are zero. */
  predicate Clean(s: State, c: Config)
  {
    BorderZero(s.lt0, c.n, c.K) && AllZero(s.dl1)
  }

  /** The layers of lines 127-142: the convolution (the correlation of W1
      over the padded image), l1, the pooled vector from the block view, its
      argmax cells and the clipped output. */
  function Run(wt: Weights, X: Matrix, c: Config, sigmoid: real -> real): (p: Pass)
    requires Valid(c) && Shaped(wt, c)
    ensures IsMatrix(p.conv, c.n, c.n) && IsMatrix(p.l1, c.n, c.n)
    ensures IsMatrix(X, c.n, c.n) ==> p.conv == Correlate(Pad(X, c.n, c.K), wt.W1, c.n, c.K)
    ensures forall i, j :: 0 <= i < c.n && 0 <= j < c.n ==> p.l1[i][j] == Relu(p.conv[i][j])
    ensures |p.pooled| == |p.cells| == c.P * c.P
    ensures CellsIn(p.cells, c.n, c.n) && Distinct(p.cells)
    ensures p.l1 == Features(wt.W1, X, c.n, c.K)
    ensures p.pooled == Pooled(p.l1, c.w, c.P) == ReducedFeatures(wt.W1, X, c)
    ensures p.cells == MaxCells(p.l1, c.n, c.w, c.P)
    ensures p.l2 == Output(Dot(ReducedFeatures(wt.W1, X, c), wt.W2), sigmoid)
  {
    var conv := ConvolveSame(X, Flip(wt.W1, c.K), c.n, c.K);
    var l1 := Features(wt.W1, X, c.n, c.K);
    var pooled := Pooled(l1, c.w, c.P);
    var cells := MaxCells(l1, c.n, c.w, c.P);
    MaxCellsLocateBlockMaxima(l1, c.n, c.w, c.P);
    MaxCellsDistinctInBounds(l1, c.n, c.w, c.P);
    BlockReduceMatchesPooled(l1, c.w, c.P);
    if IsMatrix(X, c.n, c.n) then
      SameConvolutionIsCorrelation(X, wt.W1, c.n, c.K);
      Pass(conv, l1, pooled, cells, Output(Dot(pooled, wt.W2), sigmoid))
    else
      Pass(conv, l1, pooled, cells, Output(Dot(pooled, wt.W2), sigmoid))
  }

  /** dW2 = ((1 - y) * l2 - y * (1 - l2)) * pooled (line 154). */
  function DenseGrad(p: Pass, y: int): (d: Vector)
    ensures |d| == |p.pooled|
    ensures forall t :: 0 <= t < |d| ==> d[t] == (p.l2 - y as real) * p.pooled[t]
  {
    Scale(GradFactor(y, p.l2), p.pooled)
  }

  /** dl1[max_rows, max_cols] = factor * W2 (lines 158-159), when W1 trains. */
  function ScatterGrad(s: State, p: Pass, y: int, c: Config, updateW1: bool): (d: Matrix)
    requires IsMatrix(s.dl1, c.n, c.n) && |p.cells| == |s.weights.W2| && CellsIn(p.cells, c.n, c.n)
    ensures IsMatrix(d, c.n, c.n)
    ensures !updateW1 ==> d == s.dl1
  {
    if updateW1 then Scatter(s.dl1, p.cells, Scale(GradFactor(y, p.l2), s.weights.W2), c.n, c.n)
    else s.dl1
  }

  /** dW1 (lines 162-165): the kernel gradient of the masked map over lt0. */
  function FilterGrad(lt0: Matrix, p: Pass, dl1: Matrix, c: Config): (g: Matrix)
    ensures IsMatrix(g, c.K, c.K)
  {
    KernelGrad(lt0, Mask(p.conv, dl1, c.n), c.n, c.K)
  }

  /** Lines 153-172: the weights after the iteration. W2 moves by
      -eta * (l2 - y) * pooled and W1 by -eta * dW1, each only when its flag
      is set. */
  function NextWeights(s: State, p: Pass, lt0: Matrix, y: int, c: Config, eta: real,
                       updateW1: bool, updateW2: bool): (wt: Weights)
    requires Valid(c) && Ready(s, c)
    requires |p.pooled| == |p.cells| == c.P * c.P && CellsIn(p.cells, c.n, c.n)
    ensures Shaped(wt, c)
    ensures !updateW1 ==> wt.W1 == s.weights.W1
    ensures !updateW2 ==> wt.W2 == s.weights.W2
    ensures updateW2 ==> forall t :: 0 <= t < c.P * c.P ==>
      wt.W2[t] == s.weights.W2[t] - eta * DenseGrad(p, y)[t]
    ensures updateW1 ==> forall a, b :: 0 <= a < c.K && 0 <= b < c.K ==>
      wt.W1[a][b] == s.weights.W1[a][b] - eta * FilterGrad(lt0, p, ScatterGrad(s, p, y, c, true), c)[a][b]
  {
    var W2 := if updateW2 then Update(s.weights.W2, eta, DenseGrad(p, y)) else s.weights.W2;
    var W1 := if updateW1 then MatUpdate(s.weights.W1, eta, FilterGrad(lt0, p, ScatterGrad(s, p, y, c, true), c), c.K, c.K)
              else s.weights.W1;
    Weights(W1, W2)
  }

  /** Lines 127-174 once line 124 has left lt0 in the buffer: run the
      layers, score, compute the gradients whose flags are set, step the
      weights, and clear dl1 at the argmax cells (which line 174 does whatever
      the flags). The forward layers read the image itself; only dW1 reads lt0. */
  function StepOver(s: State, lt0: Matrix, X: Matrix, y: int, c: Config, eta: real, updateW1: bool, updateW2: bool,
                    sigmoid: real -> real, ln: Positive -> real): (r: (State, Scores))
    requires Valid(c) && Ready(s, c) && IsMatrix(lt0, PaddedSide(c.n, c.K), PaddedSide(c.n, c.K))
    ensures Ready(r.0, c) && r.0.lt0 == lt0
    ensures r.1 == Forward(s.weights, X, y, c, sigmoid, ln)
    ensures r.0.weights == NextWeights(s, Run(s.weights, X, c, sigmoid), lt0, y, c, eta, updateW1, updateW2)
    ensures AllZero(s.dl1) ==> AllZero(r.0.dl1)
  {
    var p := Run(s.weights, X, c, sigmoid);
    ClearedAfterStep(s, p, y, c, updateW1);
    (State(NextWeights(s, p, lt0, y, c, eta, updateW1, updateW2), lt0, Clear(ScatterGrad(s, p, y, c, updateW1), p.cells, c.n, c.n)),
     Score(y, p.l2, ln))
  }

  /** One iteration as intended (lines 124-174): the image embedded into lt0
      at offset K//2, for every K >= 1, then StepOver. */
  function TrainStep(s: State, X: Matrix, y: int, c: Config, eta: real, updateW1: bool, updateW2: bool,
                     sigmoid: real -> real, ln: Positive -> real): (r: (State, Scores))
    requires Valid(c) && Ready(s, c) && IsMatrix(X, c.n, c.n)
    ensures Ready(r.0, c)
    ensures r.1 == Forward(s.weights, X, y, c, sigmoid, ln)
    ensures r.0.weights == NextWeights(s, Run(s.weights, X, c, sigmoid), Embed(s.lt0, X, c.n, c.K), y, c, eta, updateW1, updateW2)
    ensures !updateW1 ==> r.0.weights.W1 == s.weights.W1
    ensures !updateW2 ==> r.0.weights.W2 == s.weights.W2
    ensures Clean(s, c) ==> Clean(r.0, c) && r.0.lt0 == Pad(X, c.n, c.K)
  {
    if Clean(s, c) then
      EmbedIntoBorderZero(s.lt0, X, c.n, c.K);
      StepOver(s, Embed(s.lt0, X, c.n, c.K), X, y, c, eta, updateW1, updateW2, sigmoid, ln)
    else
      StepOver(s, Embed(s.lt0, X, c.n, c.K), X, y, c, eta, updateW1, updateW2, sigmoid, ln)
  }

  /** The iteration as written at line 124: the slice assignment raises the
      broadcast error for K <= 2 unless the image is at most 1 x 1 (and then
      writes nothing); for K >= 3 it is the intended iteration. The argmax
      cells are the intended ones, which lines 137-138 as written compute only
      for windows w <= 2 (Pooling.AsWrittenAgreesForSmallWindows). */
  function TrainStepAsWritten(s: State, X: Matrix, y: int, c: Config, eta: real, updateW1: bool, updateW2: bool,
                              sigmoid: real -> real, ln: Positive -> real): (res: Result<(State, Scores)>)
    requires Valid(c) && Ready(s, c) && IsMatrix(X, c.n, c.n)
    ensures res.Ok? <==> c.K >= 3 || c.n <= 1
    ensures res.Err? ==> res == Err(BroadcastError)
    ensures c.K >= 3 ==> res == Ok(TrainStep(s, X, y, c, eta, updateW1, updateW2, sigmoid, ln))
  {
    match EmbedAsWritten(s.lt0, X, c.n, c.K)
    case Err(f) => Err(f)
    case Ok(lt0) =>
      if c.K >= 3 then
        EmbedAsWrittenAgrees(s.lt0, X, c.n, c.K);
        Ok(StepOver(s, lt0, X, y, c, eta, updateW1, updateW2, sigmoid, ln))
      else
        Ok(StepOver(s, lt0, X, y, c, eta, updateW1, updateW2, sigmoid, ln))
  }

  /** With K = 1 and a 2 x 2 image the iteration as written stops at line 124,
      while the intended one trains and pads the image into lt0. */
  lemma SimpleStepFailsForK1(s: State, X: Matrix, y: int, eta: real, updateW1: bool, updateW2: bool,
                             sigmoid: real -> real, ln: Positive -> real)
    requires Ready(s, Config(2, 1, 1, 2)) && Clean(s, Config(2, 1, 1, 2)) && IsMatrix(X, 2, 2)
    ensures Valid(Config(2, 1, 1, 2))
    ensures TrainStepAsWritten(s, X, y, Config(2, 1, 1, 2), eta, updateW1, updateW2, sigmoid, ln) == Err(BroadcastError)
    ensures TrainStep(s, X, y, Config(2, 1, 1, 2), eta, updateW1, updateW2, sigmoid, ln).0.lt0 == X
  {
    PadK1(X, 2);
  }

  /** Line 174 clears every cell the scatter wrote: a zero dl1 comes back zero. */
  lemma ClearedAfterStep(s: State, p: Pass, y: int, c: Config, updateW1: bool)
    requires Valid(c) && Ready(s, c)
    requires |p.cells| == c.P * c.P && CellsIn(p.cells, c.n, c.n) && Distinct(p.cells)
    ensures AllZero(s.dl1) ==> AllZero(Clear(ScatterGrad(s, p, y, c, updateW1), p.cells, c.n, c.n))
  {
    if AllZero(s.dl1) {
      if updateW1 {
        ScatterClear(s.dl1, p.cells, Scale(GradFactor(y, p.l2), s.weights.W2), c.n, c.n);
      } else {
        ClearZero(s.dl1, p.cells, c.n, c.n);
      }
    }
  }

  /** The buffers come back clean: lt0 keeps a zero border under the new
      image, and every dl1 entry written this iteration is cleared again. */
  lemma CleanAfterStep(s: State, X: Matrix, p: Pass, y: int, c: Config, updateW1: bool)
    requires Valid(c) && Ready(s, c) && IsMatrix(X, c.n, c.n)
    requires |p.cells| == c.P * c.P && CellsIn(p.cells, c.n, c.n) && Distinct(p.cells)
    ensures Clean(s, c) ==>
      && Embed(s.lt0, X, c.n, c.K) == Pad(X, c.n, c.K)
      && BorderZero(Embed(s.lt0, X, c.n, c.K), c.n, c.K)
      && AllZero(Clear(ScatterGrad(s, p, y, c, updateW1), p.cells, c.n, c.n))
  {
    if Clean(s, c) {
      EmbedIntoBorderZero(s.lt0, X, c.n, c.K);
      ClearedAfterStep(s, p, y, c, updateW1);
    }
  }

  /** With W1 training, dl1 is the scatter of factor * W2. */
  lemma ScatterGradIsScatter(s: State, p: Pass, y: int, c: Config)
    requires Valid(c) && Ready(s, c)
    requires |p.cells| == c.P * c.P && CellsIn(p.cells, c.n, c.n)
    ensures ScatterGrad(s, p, y, c, true) == Scatter(s.dl1, p.cells, Scale(GradFactor(y, p.l2), s.weights.W2), c.n, c.n)
  {
  }

  /** Scattering onto a clean dl1 at distinct cells: cell t holds the
      factor times W2[t] and every other cell stays zero. */
  lemma ScatterAt(s: State, p: Pass, y: int, c: Config)
    requires Valid(c) && Ready(s, c) && Clean(s, c)
    requires |p.cells| == c.P * c.P && CellsIn(p.cells, c.n, c.n) && Distinct(p.cells)
    ensures var d := ScatterGrad(s, p, y, c, true);
      && (forall t :: 0 <= t < c.P * c.P ==> d[p.cells[t].row][p.cells[t].col] == GradFactor(y, p.l2) * s.weights.W2[t])
      && (forall i, j :: 0 <= i < c.n && 0 <= j < c.n && Cell(i, j) !in p.cells ==> d[i][j] == 0.0)
  {
    ScatterGradIsScatter(s, p, y, c);
    ScatterScaledOntoZero(s.dl1, p.cells, GradFactor(y, p.l2), s.weights.W2, c.n, c.n);
  }

  /** Each argmax cell holds the pooled value of its block. */
  lemma CellsHoldPooled(l1: Matrix, c: Config)
    requires Valid(c)
    ensures forall t :: 0 <= t < c.P * c.P ==>
      && 0 <= MaxCells(l1, c.n, c.w, c.P)[t].row < c.n && 0 <= MaxCells(l1, c.n, c.w, c.P)[t].col < c.n
      && t < |Pooled(l1, c.w, c.P)|
      && At(l1, MaxCells(l1, c.n, c.w, c.P)[t].row, MaxCells(l1, c.n, c.w, c.P)[t].col) == Pooled(l1, c.w, c.P)[t]
  {
    MaxCellsLocateBlockMaxima(l1, c.n, c.w, c.P);
    MaxCellsDistinctInBounds(l1, c.n, c.w, c.P);
    forall t | 0 <= t < c.P * c.P
      ensures At(l1, MaxCells(l1, c.n, c.w, c.P)[t].row, MaxCells(l1, c.n, c.w, c.P)[t].col) == Pooled(l1, c.w, c.P)[t]
    {
      assert IsFirstBlockMax(l1, c.w, t / c.P, t % c.P, MaxCells(l1, c.n, c.w, c.P)[t], Pooled(l1, c.w, c.P)[t]);
    }
  }

  /** On a clean dl1, the scatter routes each dense weight back to the cell
      that produced its pooled value: cell t holds (l2 - y) * W2[t], l1 there
      is pooled[t], and every other cell stays zero. */
  lemma ScatterRoutesWeights(s: State, X: Matrix, y: int, c: Config, sigmoid: real -> real, p: Pass)
    requires Valid(c) && Ready(s, c) && Clean(s, c)
    requires p == Run(s.weights, X, c, sigmoid)
    ensures forall t :: 0 <= t < c.P * c.P ==>
      && ScatterGrad(s, p, y, c, true)[p.cells[t].row][p.cells[t].col] == GradFactor(y, p.l2) * s.weights.W2[t]
      && At(p.l1, p.cells[t].row, p.cells[t].col) == p.pooled[t]
    ensures forall i, j :: 0 <= i < c.n && 0 <= j < c.n && Cell(i, j) !in p.cells ==>
      ScatterGrad(s, p, y, c, true)[i][j] == 0.0
  {
    ScatterAt(s, p, y, c);
    CellsHoldPooled(p.l1, c);
  }

  /** dW1 is the gradient of the back-propagated sum: for every filter V,
      summing the masked dl1 times the convolution of the image with V gives
      V summed against dW1. */
  lemma FilterGradIsGradient(s: State, X: Matrix, y: int, c: Config, sigmoid: real -> real, V: Matrix, p: Pass)
    requires Valid(c) && Ready(s, c) && Clean(s, c) && IsMatrix(X, c.n, c.n) && IsMatrix(V, c.K, c.K)
    requires p == Run(s.weights, X, c, sigmoid)
    ensures Frobenius(Mask(p.conv, ScatterGrad(s, p, y, c, true), c.n), ConvolveSame(X, Flip(V, c.K), c.n, c.K), c.n, c.n)
         == Frobenius(V, FilterGrad(Embed(s.lt0, X, c.n, c.K), p, ScatterGrad(s, p, y, c, true), c), c.K, c.K)
  {
    var delta := Mask(p.conv, ScatterGrad(s, p, y, c, true), c.n);
    EmbedIntoBorderZero(s.lt0, X, c.n, c.K);
    SameConvolutionIsCorrelation(X, V, c.n, c.K);
    KernelGradIsCoefficient(Pad(X, c.n, c.K), V, delta, c.n, c.K);
  }

  // ---------------------------------------------------------------------------
  // With a 1 x 1 window the two scripts compute the same thing

  /** For w = 1 the pooled network's forward pass is that of Convolutions_1.py. */
  lemma WindowOneForwardMatches(wt: Weights, X: Matrix, y: int, n: nat, K: nat, sigmoid: real -> real, ln: Positive -> real)
    requires K >= 1 && IsMatrix(wt.W1, K, K) && |wt.W2| == n * n
    ensures Valid(Config(n, K, 1, n)) && ConvolutionsOne.Shaped(wt, n, K)
    ensures Forward(wt, X, y, Config(n, K, 1, n), sigmoid, ln) == ConvolutionsOne.Forward(wt, X, y, n, K, sigmoid, ln)
  {
    var l1 := Features(wt.W1, X, n, K);
    BlockReduceMatchesPooled(l1, 1, n);
    WindowOnePooledIsRavel(l1, n);
  }

  /** Scattering at the row-major cells is reshaping. */
  lemma RowMajorScatterIsReshape(s: State, p: Pass, q: ConvolutionsOne.Pass, y: int, n: nat, K: nat)
    requires K >= 1 && Valid(Config(n, K, 1, n)) && Ready(s, Config(n, K, 1, n)) && Clean(s, Config(n, K, 1, n))
    requires |p.cells| == n * n && CellsIn(p.cells, n, n) && Distinct(p.cells)
    requires forall t :: 0 <= t < n * n ==> p.cells[t] == Cell(t / n, t % n)
    requires p.l2 == q.l2
    ensures |s.weights.W2| == n * n
    ensures ScatterGrad(s, p, y, Config(n, K, 1, n), true) == ConvolutionsOne.OutputGrad(s.weights, q, y, n).value
  {
    var c := Config(n, K, 1, n);
    var d := ScatterGrad(s, p, y, c, true);
    var e := ConvolutionsOne.OutputGrad(s.weights, q, y, n).value;
    ScatterAt(s, p, y, c);
    forall i | 0 <= i < n
      ensures d[i] == e[i]
    {
      forall j | 0 <= j < n
        ensures d[i][j] == e[i][j]
      {
        var t := i * n + j;
        RowMajorBounds(i, j, n, n);
        RowMajorDivMod(i, j, n);
        assert p.cells[t] == Cell(i, j);
        ReshapeAt(Scale(GradFactor(y, q.l2), s.weights.W2), n, n, i, j);
      }
    }
  }

  /** For w = 1 the scattered dl1 on a clean buffer is Convolutions_1.py's
      dl1, the weights reshaped to n x n and scaled by l2 - y. */
  lemma WindowOneBackpropMatches(s: State, X: Matrix, y: int, n: nat, K: nat, sigmoid: real -> real,
                                 p: Pass, q: ConvolutionsOne.Pass)
    requires K >= 1 && Valid(Config(n, K, 1, n)) && Ready(s, Config(n, K, 1, n)) && Clean(s, Config(n, K, 1, n))
    requires p == Run(s.weights, X, Config(n, K, 1, n), sigmoid)
    requires ConvolutionsOne.Shaped(s.weights, n, K) && q == ConvolutionsOne.Run(s.weights, X, n, K, sigmoid)
    ensures ScatterGrad(s, p, y, Config(n, K, 1, n), true) == ConvolutionsOne.OutputGrad(s.weights, q, y, n).value
  {
    var l1 := Features(s.weights.W1, X, n, K);
    BlockReduceMatchesPooled(l1, 1, n);
    WindowOnePooledIsRavel(l1, n);
    assert p.l2 == q.l2;
    WindowOneCellsAreRowMajor(l1, n);
    RowMajorScatterIsReshape(s, p, q, y, n, K);
  }

  // ---------------------------------------------------------------------------
  // The training loop, lines 103-198

  /** forward_pass over a data set, in order (lines 72-80 and 179-182). */
  function Evaluate(wt: Weights, data: seq<Sample>, c: Config, sigmoid: real -> real, ln: Positive -> real): (scores: seq<Scores>)
    requires Valid(c) && Shaped(wt, c)
    ensures |scores| == |data|
    ensures forall i :: 0 <= i < |data| ==> scores[i] == Forward(wt, data[i].X, data[i].y, c, sigmoid, ln)
    ensures forall i :: 0 <= i < |data| ==> scores[i].accuracy == 0 || scores[i].accuracy == 1
  {
    seq(|data|, i requires 0 <= i < |data| => Forward(wt, data[i].X, data[i].y, c, sigmoid, ln))
  }

  /** Every image of a data set is n x n. */
  predicate Images(data: seq<Sample>, n: nat)
  {
    forall i :: 0 <= i < |data| ==> IsMatrix(data[i].X, n, n)
  }

  /** Every draw indexes a sample of a data set of size m. */
  predicate InRange(draws: seq<nat>, m: nat)
  {
    forall i :: 0 <= i < |draws| ==> draws[i] < m
  }

  /** Every epoch's draws index a data set of size m. */
  predicate AllInRange(draws: seq<seq<nat>>, m: nat)
  {
    forall e :: 0 <= e < |draws| ==> InRange(draws[e], m)
  }

  /** One iteration of the loop body, TrainStep, on the loop's state. */
  method Iterate(s: State, X: Matrix, y: int, c: Config, eta: real, updateW1: bool, updateW2: bool,
                 sigmoid: real -> real, ln: Positive -> real)
    returns (next: State, score: Scores)
    requires Valid(c) && Ready(s, c) && IsMatrix(X, c.n, c.n)
    ensures (next, score) == TrainStep(s, X, y, c, eta, updateW1, updateW2, sigmoid, ln)
    ensures Ready(next, c)
    ensures score == Forward(s.weights, X, y, c, sigmoid, ln)
    ensures !updateW1 ==> next.weights.W1 == s.weights.W1
    ensures !updateW2 ==> next.weights.W2 == s.weights.W2
    ensures Clean(s, c) ==> Clean(next, c)
  {
    var r := TrainStep(s, X, y, c, eta, updateW1, updateW2, sigmoid, ln);
    next, score := r.0, r.1;
  }

  /** scores[i] is the forward pass of sample draws[i] under weights history[i]. */
  predicate ScoredBy(scores: seq<Scores>, history: seq<Weights>, data: seq<Sample>, draws: seq<nat>, c: Config,
                     sigmoid: real -> real, ln: Positive -> real)
    requires Valid(c)
  {
    && |scores| == |history| == |draws|
    && (forall i :: 0 <= i < |draws| ==> draws[i] < |data| && Shaped(history[i], c))
    && (forall i :: 0 <= i < |draws| ==>
          draws[i] < |data| && Shaped(history[i], c) &&
          scores[i] == Forward(history[i], data[draws[i]].X, data[draws[i]].y, c, sigmoid, ln))
  }

  /** Appending one scored draw keeps the record. */
  lemma ScoredByExtend(scores: seq<Scores>, history: seq<Weights>, data: seq<Sample>, draws: seq<nat>, c: Config,
                       sigmoid: real -> real, ln: Positive -> real, wt: Weights, k: nat, score: Scores)
    requires Valid(c) && ScoredBy(scores, history, data, draws, c, sigmoid, ln)
    requires k < |data| && Shaped(wt, c) && score == Forward(wt, data[k].X, data[k].y, c, sigmoid, ln)
    ensures ScoredBy(scores + [score], history + [wt], data, draws + [k], c, sigmoid, ln)
  {
  }

  /** What an epoch leaves behind: the final state, the score of every draw,
      and the weights each draw was scored and trained with. */
  datatype Trace = Trace(state: State, scores: seq<Scores>, history: seq<Weights>)

  /** An epoch as a fold of TrainStep over the draws: each draw trains the
      state on its sample, its score and the weights before the update join
      the trace. The buffers stay clean, frozen weights never move, and score
      i is the forward pass of sample draws[i] under history[i]. */
  function Trained(s0: State, data: seq<Sample>, draws: seq<nat>, c: Config, eta: real, updateW1: bool, updateW2: bool,
                   sigmoid: real -> real, ln: Positive -> real): (t: Trace)
    requires Valid(c) && Ready(s0, c) && Images(data, c.n) && InRange(draws, |data|)
    ensures Ready(t.state, c)
    ensures Clean(s0, c) ==> Clean(t.state, c)
    ensures !updateW1 ==> t.state.weights.W1 == s0.weights.W1
    ensures !updateW2 ==> t.state.weights.W2 == s0.weights.W2
    ensures |t.scores| == |t.history| == |draws|
    decreases |draws|
  {
    if |draws| == 0 then Trace(s0, [], [])
    else
      var before := draws[..|draws| - 1];
      var k := draws[|draws| - 1];
      var t := Trained(s0, data, before, c, eta, updateW1, updateW2, sigmoid, ln);
      var r := TrainStep(t.state, data[k].X, data[k].y, c, eta, updateW1, updateW2, sigmoid, ln);
      Trace(r.0, t.scores + [r.1], t.history + [t.state.weights])
  }

  /** The first i + 1 entries are the first i and then entry i. */
  lemma SnocSlice<T>(d: seq<T>, i: nat)
    requires i < |d|
    ensures d[..i] + [d[i]] == d[..i + 1]
  {
  }

  /** One more draw is one more TrainStep on the epoch's state. */
  lemma TrainedSnoc(s0: State, data: seq<Sample>, draws: seq<nat>, k: nat, c: Config, eta: real,
                    updateW1: bool, updateW2: bool, sigmoid: real -> real, ln: Positive -> real)
    requires Valid(c) && Ready(s0, c) && Images(data, c.n) && InRange(draws, |data|) && k < |data|
    ensures InRange(draws + [k], |data|)
    ensures var t := Trained(s0, data, draws, c, eta, updateW1, updateW2, sigmoid, ln);
      var r := TrainStep(t.state, data[k].X, data[k].y, c, eta, updateW1, updateW2, sigmoid, ln);
      Trained(s0, data, draws + [k], c, eta, updateW1, updateW2, sigmoid, ln)
        == Trace(r.0, t.scores + [r.1], t.history + [t.state.weights])
  {
    assert (draws + [k])[..|draws|] == draws;
  }

  /** An epoch's trace is the trace of all draws but the last, followed by
      one TrainStep on the last. */
  lemma TrainedLast(s0: State, data: seq<Sample>, draws: seq<nat>, c: Config, eta: real,
                    updateW1: bool, updateW2: bool, sigmoid: real -> real, ln: Positive -> real)
    requires Valid(c) && Ready(s0, c) && Images(data, c.n) && InRange(draws, |data|) && |draws| > 0
    ensures InRange(draws[..|draws| - 1], |data|)
    ensures var t := Trained(s0, data, draws[..|draws| - 1], c, eta, updateW1, updateW2, sigmoid, ln);
      var k := draws[|draws| - 1];
      var r := TrainStep(t.state, data[k].X, data[k].y, c, eta, updateW1, updateW2, sigmoid, ln);
      Trained(s0, data, draws, c, eta, updateW1, updateW2, sigmoid, ln) == Trace(r.0, t.scores + [r.1], t.history + [t.state.weights])
  {
  }

  /** Every draw of an epoch is scored by the forward pass of its sample
      under the weights it was trained with. */
  lemma {:induction false} TrainedScored(s0: State, data: seq<Sample>, draws: seq<nat>, c: Config, eta: real,
                                         updateW1: bool, updateW2: bool, sigmoid: real -> real, ln: Positive -> real)
    requires Valid(c) && Ready(s0, c) && Images(data, c.n) && InRange(draws, |data|)
    ensures var t := Trained(s0, data, draws, c, eta, updateW1, updateW2, sigmoid, ln);
      ScoredBy(t.scores, t.history, data, draws, c, sigmoid, ln)
    decreases |draws|
  {
    if |draws| > 0 {
      TrainedScored(s0, data, draws[..|draws| - 1], c, eta, updateW1, updateW2, sigmoid, ln);
      ScoredStep(s0, data, draws, c, eta, updateW1, updateW2, sigmoid, ln);
    }
  }

  /** The inductive step of TrainedScored: the last draw is scored under the
      weights it was trained with. */
  lemma ScoredStep(s0: State, data: seq<Sample>, draws: seq<nat>, c: Config, eta: real,
                   updateW1: bool, updateW2: bool, sigmoid: real -> real, ln: Positive -> real)
    requires Valid(c) && Ready(s0, c) && Images(data, c.n) && InRange(draws, |data|) && |draws| > 0
    requires InRange(draws[..|draws| - 1], |data|)
    requires var t := Trained(s0, data, draws[..|draws| - 1], c, eta, updateW1, updateW2, sigmoid, ln);
      ScoredBy(t.scores, t.history, data, draws[..|draws| - 1], c, sigmoid, ln)
    ensures var t := Trained(s0, data, draws, c, eta, updateW1, updateW2, sigmoid, ln);
      ScoredBy(t.scores, t.history, data, draws, c, sigmoid, ln)
  {
    var n := |draws| - 1;
    var before := draws[..n];
    var k := draws[n];
    TrainedLast(s0, data, draws, c, eta, updateW1, updateW2, sigmoid, ln);
    var t := Trained(s0, data, before, c, eta, updateW1, updateW2, sigmoid, ln);
    StepExtendsScores(t, data, before, k, c, eta, updateW1, updateW2, sigmoid, ln);
    SnocSlice(draws, n);
  }

  /** One TrainStep on sample k extends a scored trace by its score and the
      weights it was taken under. */
  lemma StepExtendsScores(t: Trace, data: seq<Sample>, done: seq<nat>, k: nat, c: Config, eta: real,
                          updateW1: bool, updateW2: bool, sigmoid: real -> real, ln: Positive -> real)
    requires Valid(c) && Ready(t.state, c) && Images(data, c.n) && k < |data|
    requires ScoredBy(t.scores, t.history, data, done, c, sigmoid, ln)
    ensures var r := TrainStep(t.state, data[k].X, data[k].y, c, eta, updateW1, updateW2, sigmoid, ln);
      ScoredBy(t.scores + [r.1], t.history + [t.state.weights], data, done + [k], c, sigmoid, ln)
  {
    var r := TrainStep(t.state, data[k].X, data[k].y, c, eta, updateW1, updateW2, sigmoid, ln);
    ScoredByExtend(t.scores, t.history, data, done, c, sigmoid, ln, t.state.weights, k, r.1);
  }

  /** With both groups frozen, every draw of an epoch is trained with the
      starting weights. */
  lemma {:induction false} TrainedFrozen(s0: State, data: seq<Sample>, draws: seq<nat>, c: Config, eta: real,
                                         sigmoid: real -> real, ln: Positive -> real)
    requires Valid(c) && Ready(s0, c) && Images(data, c.n) && InRange(draws, |data|)
    ensures forall i :: 0 <= i < |draws| ==> Trained(s0, data, draws, c, eta, false, false, sigmoid, ln).history[i] == s0.weights
    decreases |draws|
  {
    if |draws| > 0 {
      var n := |draws| - 1;
      TrainedLast(s0, data, draws, c, eta, false, false, sigmoid, ln);
      TrainedFrozen(s0, data, draws[..n], c, eta, sigmoid, ln);
      var t := Trained(s0, data, draws[..n], c, eta, false, false, sigmoid, ln);
      AllSameSnoc(t.history, t.state.weights, s0.weights);
    }
  }

  /** Appending v to a sequence of v's gives a sequence of v's. */
  lemma AllSameSnoc<T>(h: seq<T>, x: T, v: T)
    requires forall i :: 0 <= i < |h| ==> h[i] == v
    requires x == v
    ensures forall i :: 0 <= i < |h| + 1 ==> (h + [x])[i] == v
  {
  }

  /** One draw of the inner loop: sample k trains the state, and its score
      and the weights it was scored with join the record; the epoch so far,
      the fold Trained over the draws done, grows by draw k. */
  method Draw(s: State, scores: seq<Scores>, history: seq<Weights>, s0: State, data: seq<Sample>, done: seq<nat>,
              k: nat, c: Config, eta: real, updateW1: bool, updateW2: bool, sigmoid: real -> real, ln: Positive -> real)
    returns (next: State, scores': seq<Scores>, history': seq<Weights>)
    requires Valid(c) && Ready(s0, c) && Images(data, c.n) && InRange(done, |data|) && k < |data|
    requires Trace(s, scores, history) == Trained(s0, data, done, c, eta, updateW1, updateW2, sigmoid, ln)
    ensures var r := TrainStep(s, data[k].X, data[k].y, c, eta, updateW1, updateW2, sigmoid, ln);
      next == r.0 && scores' == scores + [r.1] && history' == history + [s.weights]
    ensures scores'[|scores|] == Forward(s.weights, data[k].X, data[k].y, c, sigmoid, ln)
    ensures InRange(done + [k], |data|)
    ensures Trace(next, scores', history') == Trained(s0, data, done + [k], c, eta, updateW1, updateW2, sigmoid, ln)
  {
    TrainedSnoc(s0, data, done, k, c, eta, updateW1, updateW2, sigmoid, ln);
    var score;
    next, score := Iterate(s, data[k].X, data[k].y, c, eta, updateW1, updateW2, sigmoid, ln);
    scores', history' := scores + [score], history + [s.weights];
  }

  /** One epoch of the inner loop (lines 109-174), the random draws of line
      112 given as the sequence of sample indices. Returns the final state,
      the scores of every draw, and the weights each draw was scored and
      trained with: the fold Trained. */
  method Epoch(s0: State, data: seq<Sample>, draws: seq<nat>, c: Config, eta: real, updateW1: bool, updateW2: bool,
               sigmoid: real -> real, ln: Positive -> real)
    returns (s: State, scores: seq<Scores>, history: seq<Weights>)
    requires Valid(c) && Ready(s0, c) && Clean(s0, c) && Images(data, c.n)
    requires forall i :: 0 <= i < |draws| ==> draws[i] < |data|
    ensures Trace(s, scores, history) == Trained(s0, data, draws, c, eta, updateW1, updateW2, sigmoid, ln)
    ensures Ready(s, c) && Clean(s, c)
    ensures ScoredBy(scores, history, data, draws, c, sigmoid, ln)
    ensures !updateW1 ==> s.weights.W1 == s0.weights.W1
    ensures !updateW2 ==> s.weights.W2 == s0.weights.W2
    ensures !updateW1 && !updateW2 ==> forall i :: 0 <= i < |draws| ==> history[i] == s0.weights
  {
    s := s0;
    scores := [];
    history := [];
    var i := 0;
    while i < |draws|
      invariant 0 <= i <= |draws|
      invariant InRange(draws[..i], |data|)
      invariant Trace(s, scores, history) == Trained(s0, data, draws[..i], c, eta, updateW1, updateW2, sigmoid, ln)
    {
      SnocSlice(draws, i);
      s, scores, history := Draw(s, scores, history, s0, data, draws[..i], draws[i], c, eta, updateW1, updateW2, sigmoid, ln);
      i := i + 1;
    }
    assert draws[..i] == draws;
    TrainedScored(s0, data, draws, c, eta, updateW1, updateW2, sigmoid, ln);
    if !updateW1 && !updateW2 {
      TrainedFrozen(s0, data, draws, c, eta, sigmoid, ln);
    }
  }

  /** The samples the draws pick, in draw order. */
  function Drawn(data: seq<Sample>, draws: seq<nat>): (picked: seq<Sample>)
    requires forall i :: 0 <= i < |draws| ==> draws[i] < |data|
    ensures |picked| == |draws|
    ensures forall i :: 0 <= i < |draws| ==> picked[i] == data[draws[i]]
  {
    if |draws| == 0 then [] else Drawn(data, draws[..|draws| - 1]) + [data[draws[|draws| - 1]]]
  }

  /** When every draw was scored under the same weights, as in an epoch with
      both groups frozen, the training scores are the evaluation of the drawn
      samples under those weights. */
  lemma FrozenScoresAreEvaluation(scores: seq<Scores>, history: seq<Weights>, data: seq<Sample>, draws: seq<nat>,
                                  wt: Weights, c: Config, sigmoid: real -> real, ln: Positive -> real)
    requires Valid(c) && Shaped(wt, c)
    requires ScoredBy(scores, history, data, draws, c, sigmoid, ln)
    requires forall i :: 0 <= i < |history| ==> history[i] == wt
    ensures scores == Evaluate(wt, Drawn(data, draws), c, sigmoid, ln)
  {
    var e := Evaluate(wt, Drawn(data, draws), c, sigmoid, ln);
    forall i | 0 <= i < |scores|
      ensures scores[i] == e[i]
    {
      assert history[i] == wt;
    }
  }

  /** One pass of train_model's outer loop (lines 109-198): the inner loop,
      then forward_pass over the validation set with the trained weights. */
  method EpochAndValidate(s0: State, train: seq<Sample>, valid: seq<Sample>, draws: seq<nat>, c: Config, eta: real,
                          updateW1: bool, updateW2: bool, sigmoid: real -> real, ln: Positive -> real)
    returns (s: State, scores: seq<Scores>, validScores: seq<Scores>)
    requires Valid(c) && Ready(s0, c) && Clean(s0, c) && Images(train, c.n)
    requires forall i :: 0 <= i < |draws| ==> draws[i] < |train|
    ensures var t := Trained(s0, train, draws, c, eta, updateW1, updateW2, sigmoid, ln);
      s == t.state && scores == t.scores
    ensures Ready(s, c) && Clean(s, c)
    ensures |scores| == |draws|
    ensures validScores == Evaluate(s.weights, valid, c, sigmoid, ln)
    ensures !updateW1 ==> s.weights.W1 == s0.weights.W1
    ensures !updateW2 ==> s.weights.W2 == s0.weights.W2
  {
    var history;
    s, scores, history := Epoch(s0, train, draws, c, eta, updateW1, updateW2, sigmoid, ln);
    validScores := Evaluate(s.weights, valid, c, sigmoid, ln);
  }

  /** What train_model leaves behind: the final state, and per epoch the
      training scores and the validation scores. */
  datatype Record = Record(state: State, trainScores: seq<seq<Scores>>, validScores: seq<seq<Scores>>)

  /** train_model's outer loop as a fold: each epoch is Trained on the state
      the epochs before it left, followed by the evaluation of the validation
      set under its final weights. */
  function Epochs(s0: State, train: seq<Sample>, valid: seq<Sample>, draws: seq<seq<nat>>, c: Config, eta: real,
                  updateW1: bool, updateW2: bool, sigmoid: real -> real, ln: Positive -> real): (m: Record)
    requires Valid(c) && Ready(s0, c) && Images(train, c.n) && AllInRange(draws, |train|)
    ensures Ready(m.state, c)
    ensures Clean(s0, c) ==> Clean(m.state, c)
    ensures !updateW1 ==> m.state.weights.W1 == s0.weights.W1
    ensures !updateW2 ==> m.state.weights.W2 == s0.weights.W2
    ensures Recorded(m.trainScores, m.validScores, draws, valid)
    ensures |draws| > 0 ==> m.validScores[|draws| - 1] == Evaluate(m.state.weights, valid, c, sigmoid, ln)
    ensures !updateW1 && !updateW2 ==> AllValidatedWith(m.validScores, s0.weights, valid, c, sigmoid, ln)
    decreases |draws|
  {
    if |draws| == 0 then Record(s0, [], [])
    else
      var before := draws[..|draws| - 1];
      var m := Epochs(s0, train, valid, before, c, eta, updateW1, updateW2, sigmoid, ln);
      var t := Trained(m.state, train, draws[|draws| - 1], c, eta, updateW1, updateW2, sigmoid, ln);
      var v := Evaluate(t.state.weights, valid, c, sigmoid, ln);
      SnocSlice(draws, |draws| - 1);
      RecordedSnoc(m.trainScores, m.validScores, before, valid, t.scores, v, draws[|draws| - 1]);
      if !updateW1 && !updateW2 then
        ValidatedSnoc(m.validScores, s0.weights, valid, c, sigmoid, ln, v);
        Record(t.state, m.trainScores + [t.scores], m.validScores + [v])
      else
        Record(t.state, m.trainScores + [t.scores], m.validScores + [v])
  }

  /** Recording one more epoch keeps one list per epoch of the right length. */
  lemma RecordedSnoc(trainScores: seq<seq<Scores>>, validScores: seq<seq<Scores>>, draws: seq<seq<nat>>,
                     valid: seq<Sample>, scores: seq<Scores>, vscores: seq<Scores>, d: seq<nat>)
    requires Recorded(trainScores, validScores, draws, valid) && |scores| == |d| && |vscores| == |valid|
    ensures Recorded(trainScores + [scores], validScores + [vscores], draws + [d], valid)
  {
  }

  /** One more validation pass under the same weights keeps them all equal. */
  lemma ValidatedSnoc(validScores: seq<seq<Scores>>, wt: Weights, valid: seq<Sample>, c: Config,
                      sigmoid: real -> real, ln: Positive -> real, v: seq<Scores>)
    requires Valid(c) && Shaped(wt, c) && AllValidatedWith(validScores, wt, valid, c, sigmoid, ln)
    requires v == Evaluate(wt, valid, c, sigmoid, ln)
    ensures AllValidatedWith(validScores + [v], wt, valid, c, sigmoid, ln)
  {
  }

  /** One more epoch is one more Trained and one more validation pass. */
  lemma EpochsSnoc(s0: State, train: seq<Sample>, valid: seq<Sample>, draws: seq<seq<nat>>, d: seq<nat>, c: Config,
                   eta: real, updateW1: bool, updateW2: bool, sigmoid: real -> real, ln: Positive -> real)
    requires Valid(c) && Ready(s0, c) && Images(train, c.n) && AllInRange(draws, |train|) && InRange(d, |train|)
    ensures AllInRange(draws + [d], |train|)
    ensures var m := Epochs(s0, train, valid, draws, c, eta, updateW1, updateW2, sigmoid, ln);
      var t := Trained(m.state, train, d, c, eta, updateW1, updateW2, sigmoid, ln);
      Epochs(s0, train, valid, draws + [d], c, eta, updateW1, updateW2, sigmoid, ln)
        == Record(t.state, m.trainScores + [t.scores], m.validScores + [Evaluate(t.state.weights, valid, c, sigmoid, ln)])
  {
    assert (draws + [d])[..|draws|] == draws;
  }

  /** One epoch of train_model with its validation pass (lines 109-189),
      appended to the records of the epochs done so far: the fold Epochs
      grows by one epoch. */
  method RecordEpoch(s: State, trainScores: seq<seq<Scores>>, validScores: seq<seq<Scores>>, s0: State,
                     train: seq<Sample>, valid: seq<Sample>, done: seq<seq<nat>>, draws: seq<nat>, c: Config,
                     eta: real, updateW1: bool, updateW2: bool, sigmoid: real -> real, ln: Positive -> real)
    returns (next: State, trainScores': seq<seq<Scores>>, validScores': seq<seq<Scores>>)
    requires Valid(c) && Ready(s0, c) && Clean(s0, c) && Images(train, c.n) && AllInRange(done, |train|)
    requires forall i :: 0 <= i < |draws| ==> draws[i] < |train|
    requires Record(s, trainScores, validScores) == Epochs(s0, train, valid, done, c, eta, updateW1, updateW2, sigmoid, ln)
    ensures var t := Trained(s, train, draws, c, eta, updateW1, updateW2, sigmoid, ln);
      && next == t.state
      && trainScores' == trainScores + [t.scores]
      && validScores' == validScores + [Evaluate(t.state.weights, valid, c, sigmoid, ln)]
    ensures AllInRange(done + [draws], |train|)
    ensures Record(next, trainScores', validScores')
         == Epochs(s0, train, valid, done + [draws], c, eta, updateW1, updateW2, sigmoid, ln)
  {
    EpochsSnoc(s0, train, valid, done, draws, c, eta, updateW1, updateW2, sigmoid, ln);
    var scores, vscores;
    next, scores, vscores := EpochAndValidate(s, train, valid, draws, c, eta, updateW1, updateW2, sigmoid, ln);
    trainScores', validScores' := trainScores + [scores], validScores + [vscores];
  }

  /** The starting state of train_model: the caller's weights and lt0, and a
      fresh zero dl1 (line 104). */
  function Start(weights: Weights, lt0: Matrix, c: Config): (s: State)
    requires Valid(c) && Shaped(weights, c)
    requires IsMatrix(lt0, PaddedSide(c.n, c.K), PaddedSide(c.n, c.K)) && BorderZero(lt0, c.n, c.K)
    ensures Ready(s, c) && Clean(s, c)
    ensures s.weights == weights && s.lt0 == lt0
  {
    State(weights, lt0, Zeros(c.n, c.n))
  }

  /** train_model (lines 103-198): a fresh zero dl1, then per epoch the inner
      loop followed by forward_pass over the validation set; the fold Epochs.
      lt0 comes from the caller and goes back to it, as the module global is
      shared by the three training runs of lines 204-225; it only needs a
      zero border. */
  method TrainModel(weights: Weights, lt0: Matrix, train: seq<Sample>, valid: seq<Sample>, draws: seq<seq<nat>>,
                    c: Config, eta: real, updateW1: bool, updateW2: bool, sigmoid: real -> real, ln: Positive -> real)
    returns (wt: Weights, lt: Matrix, trainScores: seq<seq<Scores>>, validScores: seq<seq<Scores>>)
    requires Valid(c) && Shaped(weights, c) && Images(train, c.n)
    requires IsMatrix(lt0, PaddedSide(c.n, c.K), PaddedSide(c.n, c.K)) && BorderZero(lt0, c.n, c.K)
    requires forall e, i :: 0 <= e < |draws| && 0 <= i < |draws[e]| ==> draws[e][i] < |train|
    ensures var m := Epochs(Start(weights, lt0, c), train, valid, draws, c, eta, updateW1, updateW2, sigmoid, ln);
      && wt == m.state.weights && lt == m.state.lt0
      && trainScores == m.trainScores && validScores == m.validScores
    ensures Shaped(wt, c)
    ensures IsMatrix(lt, PaddedSide(c.n, c.K), PaddedSide(c.n, c.K)) && BorderZero(lt, c.n, c.K)
    ensures Recorded(trainScores, validScores, draws, valid)
    ensures |draws| > 0 ==> validScores[|draws| - 1] == Evaluate(wt, valid, c, sigmoid, ln)
    ensures !updateW1 ==> wt.W1 == weights.W1
    ensures !updateW2 ==> wt.W2 == weights.W2
    ensures !updateW1 && !updateW2 ==> AllValidatedWith(validScores, weights, valid, c, sigmoid, ln)
  {
    var s0 := Start(weights, lt0, c);
    var s := s0;
    trainScores := [];
    validScores := [];
    var e := 0;
    while e < |draws|
      invariant 0 <= e <= |draws|
      invariant AllInRange(draws[..e], |train|)
      invariant Record(s, trainScores, validScores) == Epochs(s0, train, valid, draws[..e], c, eta, updateW1, updateW2, sigmoid, ln)
    {
      SnocSlice(draws, e);
      s, trainScores, validScores := RecordEpoch(s, trainScores, validScores, s0, train, valid, draws[..e], draws[e],
                                                 c, eta, updateW1, updateW2, sigmoid, ln);
      e := e + 1;
    }
    assert draws[..e] == draws;
    wt, lt := s.weights, s.lt0;
  }

  /** One list of training scores per epoch, as long as that epoch's draws,
      and one validation list per epoch, as long as the validation set. */
  predicate Recorded(trainScores: seq<seq<Scores>>, validScores: seq<seq<Scores>>, draws: seq<seq<nat>>,
                     valid: seq<Sample>)
  {
    && |trainScores| == |validScores| == |draws|
    && forall k :: 0 <= k < |draws| ==> |trainScores[k]| == |draws[k]| && |validScores[k]| == |valid|
  }

  /** Every validation list is the evaluation under the weights wt. */
  predicate AllValidatedWith(validScores: seq<seq<Scores>>, wt: Weights, valid: seq<Sample>, c: Config,
                             sigmoid: real -> real, ln: Positive -> real)
    requires Valid(c) && Shaped(wt, c)
  {
    forall k :: 0 <= k < |validScores| ==> validScores[k] == Evaluate(wt, valid, c, sigmoid, ln)
  }
}
