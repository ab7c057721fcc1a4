# One-filter CNN training step, modelled in Dafny

This project models the index-level tensor logic of two hand-written training
scripts for a tiny convolutional network on Fashion-MNIST (classes 1 and 3,
labelled 0 and 1):

- `Convolutions_1.py` trains a K x K filter `W1`, a ReLU, and one dense
  layer `W2` with a weight per pixel.
- `Convolutions_Simple.py` adds max-pooling over w x w blocks. It keeps two
  scratch buffers across iterations:
  - `lt0`, the zero-padded image, a module global shared by all three
    training runs;
  - `dl1`, the back-propagated map, written at the argmax cells and cleared
    again after each iteration.

Values are exact reals (`real`), not floats. Matrices are `seq<seq<real>>`.
The sigmoid and the logarithm are parameters of the model (`real -> real` and
`Positive -> real`), so nothing depends on their numerics. Only the clip
bounds 10^-16 and 1 - 10^-16 matter.

Modules, in dependency order:

| file | module | what it holds |
|---|---|---|
| sums.dfy | `Sums` | finite sums over an index range, and the algebra the gradient identities need |
| tensor.dfy | `Tensor` | matrices, dot products, flatten and reshape, gradient steps, scatter and clear at a list of cells |
| padding.dfy | `Padding` | the slice `K//2 : -K//2+1`, the embedding as written and as intended, and the zero border of `lt0` |
| convolution.dfy | `Convolution` | scipy's `'same'` convolution by its index definition, correlation over `lt0`, and the kernel gradient `dW1` |
| pooling.dfy | `Pooling` | the block view, block maxima, `np.argmax`, the adders of lines 97-100, the unravelled argmax cells, and `block_reduce` |
| activation.dfy | `Activation` | ReLU and its derivative, the clip, the loss, the accuracy flag, and the gradient factor |
| network.dfy | `Network` | weights, samples, scores, and the feature map `l1` |
| conv_one.dfy | `ConvolutionsOne` | `forward_pass` and one iteration of `Convolutions_1.py`, as written and as intended |
| simple.dfy | `ConvolutionsSimple` | `forward_pass`, one iteration over the `lt0`/`dl1` buffers, the epoch loop and `train_model` of `Convolutions_Simple.py` |

## Model

| member | source | states |
|---|---|---|
| Padding.EmbedSliceShape | Convolutions_Simple.py:124 | for K >= 3 the slice `K//2 : -K//2+1` starts at K//2 and spans exactly n entries; for K = 1 and K = 2 it is empty |
| Padding.EmbedAsWritten | Convolutions_1.py:109 | the slice assignment succeeds exactly when K >= 3 or the image is at most 1 x 1 (broadcast); otherwise it raises the broadcast error |
| Padding.Embed | Convolutions_Simple.py:124 | after the assignment, `lt0[i + K//2][j + K//2] == l0[i][j]`, and every cell outside the interior keeps its previous value |
| Padding.Pad | Convolutions_1.py:108-109 | the fresh buffer is (n+K-1) x (n+K-1) and its border is zero |
| Padding.PadAt | Convolutions_1.py:108-109 | the padded buffer is the image shifted by K//2, and zero everywhere outside it |
| Padding.EmbedAsWrittenAgrees | Convolutions_1.py:109 | for K >= 3 the assignment as written succeeds and gives the intended embedding |
| Padding.EmbedAsWrittenFailsForK1 | Convolutions_Simple.py:124 | with K = 1 a 2 x 2 image cannot be assigned to the empty slice 0:0 |
| Padding.PadK1 | Convolutions_1.py:108-109 | with K = 1 the intended padding is the image itself |
| Padding.EmbedIntoBorderZero | Convolutions_Simple.py:124 | writing the interior of a buffer whose border is zero gives exactly the freshly padded image, and the border stays zero, so reusing `lt0` across samples is sound |
| Convolution.SameConvolutionIsCorrelation | Convolutions_1.py:108-112 | `convolve(l0, W1[::-1, ::-1], 'same')` equals the correlation `sum W1[a][b] * lt0[r+a][c+b]` over the padded buffer, for every K >= 1 |
| Convolution.SameEntryIsCorrelationEntry | Convolutions_Simple.py:127 | each entry of the flipped-kernel 'same' convolution is the same entry of the correlation over the shifted image |
| Convolution.GradientWindowInBounds | Convolutions_Simple.py:163 | numpy never clamps the window `lt0[a:a+n, b:b+n]` for a kernel offset a < K: it is exactly n rows inside the (n+K-1)-sided buffer; one step further it would be cut to n - 1 |
| Convolution.KernelGradIsCoefficient | Convolutions_1.py:140-142 | `dW1[a][b]` is the coefficient of `W[a][b]` in `(delta * correlation of W over lt0).sum()`: that sum equals `(W * dW1).sum()` for every kernel W |
| Pooling.PooledSide | Convolutions_Simple.py:59-61 | the pooled side exists iff w > 0 divides the image side, and then pooled side * w == image side; a zero window raises ZeroDivision, a non-divisor fails the assert |
| Pooling.AddersAreBlockCorners | Convolutions_Simple.py:97-100 | when w divides n, `_rows_adder` and `_cols_adder` are P x P and hold `i*w` and `j*w`, the top-left corner of block (i, j) |
| Pooling.SeqMax | Convolutions_Simple.py:135 | `np.max` of a block is one of its entries and at least every entry |
| Pooling.ArgMax | Convolutions_Simple.py:136 | `np.argmax` is a position of the maximum, and every earlier entry is strictly smaller (ties go to the first) |
| Pooling.PooledAt | Convolutions_Simple.py:134-135 | pooled value t is the maximum of block (t // P, t % P) |
| Pooling.MaxCellAt | Convolutions_Simple.py:136-138 | argmax cell t is the block-local argmax k of block (t // P, t % P), unravelled by the divisor, plus that block's corner |
| Pooling.UnravelledArgMaxIsFirstMax | Convolutions_Simple.py:136-138 | unravelling the block-local argmax by w gives the first maximum of the block in row-major order |
| Pooling.MaxCellsLocateBlockMaxima | Convolutions_Simple.py:134-138 | every argmax cell lies in its own block, holds that block's pooled value, and is the first maximum in row-major order |
| Pooling.MaxCellsDistinctInBounds | Convolutions_Simple.py:137-138 | the argmax cells lie inside the n x n map and are pairwise distinct (one per block) |
| Pooling.WindowOnePooledIsRavel | Convolutions_Simple.py:134-135 | with w = 1 the pooled vector is the row-major ravel of `l1` |
| Pooling.WindowOneCellsAreRowMajor | Convolutions_Simple.py:136-138 | with w = 1 the argmax cells are (t // n, t % n): every cell once, in row-major order |
| Pooling.AsWrittenAgreesForSmallWindows | Convolutions_Simple.py:137-138 | for w = 1 and w = 2 the hard-coded `// 2`, `% 2` unravel gives the intended cells |
| Pooling.AsWrittenMissesMaxForWindowThree | Convolutions_Simple.py:137-138 | for a 3 x 3 window the hard-coded unravel points at a cell that does not hold the block maximum |
| Pooling.AsWrittenLeavesMapForWindowThree | Convolutions_Simple.py:137-138 | for a 3 x 3 window with the maximum at (2, 0), the hard-coded unravel gives the cell (3, 0), outside the map, where the scatter of line 159 would raise an index error |
| Pooling.BlockReduceIsSeqMax | Convolutions_Simple.py:46 | reducing a block over rows and then columns gives the maximum of the raveled block |
| Pooling.BlockReduceMatchesPooled | Convolutions_Simple.py:46 | `block_reduce(l1, (w, w), np.max).ravel()` in `forward_pass` equals the pooled vector of the training step (line 135) |
| Activation.Relu | Convolutions_1.py:115 | relu(x) is non-negative, at least x, and either x or 0 |
| Activation.ReluPrime | Convolutions_1.py:118 | relu_prime(x) is 1 exactly when x > 0, and 0 otherwise |
| Activation.ReluIsGatedIdentity | Convolutions_1.py:115-118 | relu(x) = relu_prime(x) * x, and relu is idempotent |
| Activation.MaskIsReluPrimeProduct | Convolutions_Simple.py:162 | `np.where(l0_conv > 0, dl1, 0)` equals `dl1 * relu_prime(l0_conv)` (Convolutions_1.py line 139), so both scripts gate the gradient the same way |
| Activation.Clip | Convolutions_1.py:122 | the clipped value lies in [lo, hi], is x when x is in range, and is the nearer bound otherwise |
| Activation.ClipIdempotentMonotone | Convolutions_1.py:122 | clipping twice is clipping once, and clipping preserves order |
| Activation.Output | Convolutions_1.py:121-122 | l2 lies in [10^-16, 1 - 10^-16], hence strictly inside (0, 1), and equals sigmoid(z) when that is already in range |
| Activation.Loss | Convolutions_1.py:125 | the loss is -log(l2) for label 1 and -log(1 - l2) for label 0 |
| Activation.LossSymmetric | Convolutions_1.py:125 | swapping the label and the probability (y, l2) to (1 - y, 1 - l2) leaves the loss unchanged |
| Activation.LossBounded | Convolutions_1.py:122-125 | for a monotone logarithm with log 1 = 0, the clip bounds the loss of a 0/1 label between 0 and -log(10^-16) |
| Activation.Predict | Convolutions_1.py:126 | the prediction is 0 or 1, and it is 1 exactly when l2 > 0.5 |
| Activation.Accuracy | Convolutions_1.py:126 | the accuracy is 0 or 1; for a 0/1 label it is 1 exactly when l2 is on the label's side of 0.5 (0.5 counts as class 0); any other label scores 0 |
| Activation.GradFactorExpands | Convolutions_Simple.py:154 | the factor `(1 - y) * l2 - y * (1 - l2)` is l2 - y |
| Activation.GradFactorIsChainRule | Convolutions_1.py:133 | the factor is the loss derivative with respect to l2 times the sigmoid derivative l2(1 - l2); it is negative for label 1 and positive for label 0 |
| Network.Score | Convolutions_1.py:125-126 | the accuracy is 0/1 and on the label's side of 0.5; the loss is the cross-entropy of the label |
| Network.Features | Convolutions_1.py:108-115 | `l1[i][j]` is relu of entry (i, j) of the 'same' convolution with the flipped filter, and, for K >= 1, relu of the correlation of `W1` over the zero-padded image `lt0` |
| ConvolutionsOne.Run | Convolutions_1.py:108-122 | the pass produces n x n maps; for K >= 1 the convolution is the correlation of `W1` over the padded buffer `lt0`; `l1` is relu of the convolution entrywise; l2 is the clipped sigmoid of `l1.reshape(-1) . W2`, inside the clip bounds |
| ConvolutionsOne.Forward | Convolutions_1.py:31-44 | `forward_pass` scores the sample: cross-entropy of the clipped output and the 0/1 accuracy flag |
| ConvolutionsOne.DenseGrad | Convolutions_1.py:133 | `dW2` has n*n entries, as many as `W2`, and entry t is (l2 - y) times entry t of the raveled `l1` |
| ConvolutionsOne.OutputGrad | Convolutions_1.py:136 | the reshape succeeds exactly when `W2` has side * side entries, and otherwise raises the reshape error |
| ConvolutionsOne.OutputGradAt | Convolutions_1.py:136 | `dl1[r][c]` is (l2 - y) times `W2[r*n + c]` |
| ConvolutionsOne.DotIsFrobeniusOfReshape | Convolutions_1.py:121 | `l1.reshape(-1) . W2` is `(l1 * W2.reshape(n, n)).sum()`, so `W2[r*n + c]` pairs with `l1[r][c]` |
| ConvolutionsOne.StepFrom | Convolutions_1.py:133-147 | the iteration succeeds exactly when the reshape side equals n, whatever the flags, since both gradients are always computed; a frozen group keeps its weights; the scores are those of `forward_pass` |
| ConvolutionsOne.Step | Convolutions_1.py:108-147 | the intended iteration keeps the weight shapes, scores the sample with `forward_pass`, and leaves a frozen group unchanged |
| ConvolutionsOne.StepAsWritten | Convolutions_1.py:108-147 | the iteration as written succeeds exactly when K >= 3 and n = 28, and then equals the intended one; K <= 2 with an image wider than 1 x 1 raises the broadcast error at line 109; every other failing case (K >= 3 or n <= 1, with n != 28) raises the reshape error at line 136 |
| ConvolutionsOne.FourByFourFailsAsWritten | Convolutions_1.py:136 | with a 4 x 4 image and a 3 x 3 filter, the iteration as written fails at the reshape while the intended one succeeds |
| ConvolutionsOne.StepUpdates | Convolutions_1.py:144-147 | entrywise, each trained weight moves by -eta times its own gradient entry |
| ConvolutionsOne.FilterGradIsGradient | Convolutions_1.py:139-142 | for every filter V, `(dl1_f1p * convolve(l0, V[::-1, ::-1], 'same')).sum()` equals `(V * dW1).sum()`, so `dW1` is the gradient of that sum with respect to the filter |
| ConvolutionsOne.LogitIsFrobenius | Convolutions_1.py:121 | the logit is `l1` summed against `W2.reshape(n, n)` |
| ConvolutionsOne.OutputGradIsScaledReshape | Convolutions_1.py:136 | `dl1` is `W2.reshape(n, n)` scaled by l2 - y |
| ConvolutionsOne.OutputGradIsGradient | Convolutions_1.py:121-136 | the logit is the Frobenius product of `l1` with `W2.reshape(n, n)`, and `dl1` is that reshape times l2 - y: the logit's gradient with respect to `l1`, times the factor |
| ConvolutionsOne.DenseUpdateShiftsLogit | Convolutions_1.py:145 | stepping v along -eta * g * x changes `x . v` by exactly -eta * g * `x . x` |
| ConvolutionsOne.LogitAfterDenseUpdate | Convolutions_1.py:133-145 | after the dense step with factor g, the logit on the same image has moved by -eta * g times the squared norm of `l1` |
| ConvolutionsOne.FactorSign | Convolutions_1.py:133 | on a clipped l2 the factor is negative for label 1 and positive for label 0 |
| ConvolutionsOne.DenseUpdateMovesLogitTowardLabel | Convolutions_1.py:133-145 | a dense step with the factor of any clipped l2 and eta >= 0 never moves the logit away from the label |
| ConvolutionsOne.DenseStepMovesLogitTowardLabel | Convolutions_1.py:144-145 | with eta >= 0, one step of W2 alone raises the logit of the same image for label 1 and lowers it for label 0 |
| ConvolutionsSimple.Configure | Convolutions_Simple.py:56-62 | the configuration exists iff w > 0 divides the image side, and then P = n / w; a zero window raises ZeroDivision, a non-divisor fails the assert |
| ConvolutionsSimple.Forward | Convolutions_Simple.py:41-54 | `forward_pass` scores the sample from the clipped sigmoid of the pooled features dotted with `W2` |
| ConvolutionsSimple.ZeroDenseWeightsScenario | Convolutions_Simple.py:47-52 | with all-zero dense weights and sigmoid(0) = 0.5, every image is predicted class 0, and the loss is -log 0.5 for either label |
| ConvolutionsSimple.Run | Convolutions_Simple.py:127-142 | the convolution of line 127 is the correlation of `W1` over the zero-padded image, `l1` is its relu entrywise, and the pass produces the pooled vector (equal to `forward_pass`'s), the argmax cells (in bounds, pairwise distinct), and the clipped l2 of the same logit `forward_pass` uses |
| ConvolutionsSimple.DenseGrad | Convolutions_Simple.py:154 | `dW2` has one entry per pooled value, and entry t is (l2 - y) times pooled value t |
| ConvolutionsSimple.ScatterGrad | Convolutions_Simple.py:156-159 | the scatter keeps `dl1` n x n, and leaves it untouched when W1 is frozen |
| ConvolutionsSimple.NextWeights | Convolutions_Simple.py:153-172 | a frozen group keeps its weights; W2 moves by -eta * dW2 (entry t being (l2 - y) * pooled[t], by DenseGrad) and W1 by -eta * dW1, each only when its flag is set |
| ConvolutionsSimple.TrainStep | Convolutions_Simple.py:124-174 | one iteration keeps every buffer's shape, scores the sample with `forward_pass`, and takes its new weights from `NextWeights` applied to the pass over the sample and the buffer line 124 leaves; a frozen group is unchanged; from clean buffers it returns clean buffers with `lt0` holding the freshly padded image |
| ConvolutionsSimple.StepOver | Convolutions_Simple.py:127-174 | lines 127-174 on a given `lt0`: the buffers stay shaped, `lt0` is kept, the score is `forward_pass`'s, the weights are `NextWeights` of the pass, and a zero `dl1` comes back zero |
| ConvolutionsSimple.TrainStepAsWritten | Convolutions_Simple.py:124-174 | for windows w <= 2, where the unravel of lines 137-138 as written gives the intended cells, the iteration as written succeeds exactly when K >= 3 or the image is at most 1 x 1, and otherwise raises the broadcast error of line 124; for K >= 3 it is the intended iteration |
| ConvolutionsSimple.SimpleStepFailsForK1 | Convolutions_Simple.py:124 | with K = 1 and a 2 x 2 image the iteration as written raises the broadcast error, while the intended one pads the image to itself |
| ConvolutionsSimple.ClearedAfterStep | Convolutions_Simple.py:156-174 | line 174 clears every cell line 159 wrote, so a zero `dl1` is zero again after the iteration, whether or not W1 trains |
| ConvolutionsSimple.CleanAfterStep | Convolutions_Simple.py:124-174 | from clean buffers, line 124 gives the padded image with a zero border, and line 174 clears every cell the scatter wrote, so `dl1` is all zero again |
| ConvolutionsSimple.ScatterAt | Convolutions_Simple.py:158-159 | on a clean `dl1`, argmax cell t holds (l2 - y) * `W2[t]` and every other cell is zero |
| ConvolutionsSimple.CellsHoldPooled | Convolutions_Simple.py:134-138 | each argmax cell lies inside the map and holds the pooled value of its block |
| ConvolutionsSimple.ScatterRoutesWeights | Convolutions_Simple.py:134-159 | the scatter sends (l2 - y) * `W2[t]` to the cell that produced pooled value t, and every other cell stays zero |
| ConvolutionsSimple.FilterGradIsGradient | Convolutions_Simple.py:162-165 | for every filter V, the masked `dl1` summed against `convolve(l0, V[::-1, ::-1], 'same')` equals `(V * dW1).sum()` |
| ConvolutionsSimple.WindowOneForwardMatches | Convolutions_Simple.py:41-54 | with w = 1 the pooled network's `forward_pass` is that of `Convolutions_1.py` |
| ConvolutionsSimple.RowMajorScatterIsReshape | Convolutions_Simple.py:158-159 | scattering at the row-major cells onto a clean buffer is the reshape of line 136 of `Convolutions_1.py` |
| ConvolutionsSimple.WindowOneBackpropMatches | Convolutions_Simple.py:158-159 | with w = 1 the scattered `dl1` is `Convolutions_1.py`'s `dl1`: W2 reshaped to n x n and scaled by l2 - y |
| ConvolutionsSimple.Iterate | Convolutions_Simple.py:109-174 | one loop iteration is `TrainStep` on the loop's state: it keeps the buffers' shapes and cleanliness, returns the `forward_pass` score of the sample, and leaves a frozen group unchanged |
| ConvolutionsSimple.Trained | Convolutions_Simple.py:109-174 | the inner loop as a fold of `TrainStep` over the draws keeps the buffers ready, keeps clean buffers clean, never moves a frozen group, and records one score and one weight set per draw |
| ConvolutionsSimple.TrainedScored | Convolutions_Simple.py:109-150 | every draw's recorded score is `forward_pass` of its sample under the weights recorded for that draw |
| ConvolutionsSimple.ScoredStep | Convolutions_Simple.py:109-150 | if the draws before the last are scored by their weights, so is the whole epoch |
| ConvolutionsSimple.StepExtendsScores | Convolutions_Simple.py:127-150 | one `TrainStep` appends the sample's `forward_pass` score under the current weights, keeping every earlier score |
| ConvolutionsSimple.TrainedFrozen | Convolutions_Simple.py:109-172 | with both groups frozen, every draw of an epoch is taken under the starting weights |
| ConvolutionsSimple.Draw | Convolutions_Simple.py:112-174 | one draw is `TrainStep` on sample k: the new state is its state, its score joins the record, the weights before the update join the history, and the epoch so far, the fold `Trained`, grows by draw k |
| ConvolutionsSimple.Epoch | Convolutions_Simple.py:109-174 | the loop computes the fold `Trained` of `TrainStep` over the caller's draws: its final state, scores and history; the buffers end clean; score i is the forward pass of sample `draws[i]` under history i; a frozen group never moves |
| ConvolutionsSimple.FrozenScoresAreEvaluation | Convolutions_Simple.py:109-150 | when every draw of an epoch was scored under the same weights (both groups frozen), the training scores are `forward_pass` over the drawn samples, exactly what validation computes on a data set |
| ConvolutionsSimple.EpochAndValidate | Convolutions_Simple.py:105-182 | one epoch followed by validation: the state and training scores are those of the fold `Trained`, the buffers stay clean, and the validation scores are `Evaluate` under the epoch's final weights |
| ConvolutionsSimple.RecordEpoch | Convolutions_Simple.py:105-189 | one pass of the epoch loop continues from `Trained` over the epoch's draws, appends its scores and the validation scores under its final weights, and so extends the fold `Epochs` by one epoch |
| ConvolutionsSimple.Epochs | Convolutions_Simple.py:105-189 | the epoch loop as a fold of `Trained` and `Evaluate` keeps the buffers ready and clean, never moves a frozen group, records one list per epoch of the right lengths, and validates the last epoch under the final weights; with both groups frozen every validation pass uses the starting weights |
| ConvolutionsSimple.TrainModel | Convolutions_Simple.py:103-198 | `train_model` returns the fold `Epochs` from a zero `dl1`: final weights, `lt0`, and the per-epoch score lists; there is one list per epoch of the right length, the last validation pass uses the final weights, frozen groups keep their initial values, and `lt0` comes back with a zero border for the next run |

## Left out

- Loading the data, class filtering, normalisation and the train/validation split (lines 11-31 of `Convolutions_Simple.py`, 9-29 of `Convolutions_1.py`): keras I/O and floating-point statistics. Samples are a parameter.
- Printing, the progress counter on `sys.stdout`, and timing: output only.
- `np.random.randint` sampling: the index drawn at each step is a caller-supplied sequence `draws`.
- `random_weights` and the normal initialisation: the initial weights are a parameter.
- `sigmoid` and `np.log`: transcendental and rounded. They are function parameters; where a property needs a fact about them (sigmoid(0) = 0.5, a monotone log), it is a precondition.
- `utility_functions` is not part of this model. `relu` and `relu_prime` are modelled by their usual definitions; `averager` and `extract_averager_value` are left out, and the per-sample scores they would average are returned as sequences.
- Floating-point rounding throughout: every value is an exact real.
- scipy's choice between the direct and FFT methods: `convolve` is modelled by its index definition, which both methods compute.
- The three top-level training runs (lines 204-225 of `Convolutions_Simple.py`, 175-196 of `Convolutions_1.py`). They are `TrainModel` applied to fresh weights; `TrainModel` takes and returns `lt0` so that runs can share it.
- The epoch and validation loops of `Convolutions_1.py` (lines 87-171): they repeat `ConvolutionsOne.StepAsWritten` (a fresh `lt0` and the reshape to 28 x 28) and `ConvolutionsOne.Forward`, plus reporting. Each iteration equals `ConvolutionsOne.Step` when K >= 3 and n = 28. The fold `Trained` models only the pooled loop of `Convolutions_Simple.py`; the two steps agree only for w = 1, through `WindowOneForwardMatches` and `WindowOneBackpropMatches`.
- In-place updates (`W2 += ...`) and aliasing of the caller's arrays: weights are values, and each step returns new ones.
- The scatter as written for w >= 3: the wrong cells it computes can fall outside the map, where numpy would raise an index error. Only the intended cells are scattered.
- ConvolutionsSimple.TrainStepAsWritten: models only the as-written slice of line 124 and scatters at the intended argmax cells. For w >= 3 the unravel of lines 137-138 as written can point outside the map (an index error at line 159) or at the wrong cells (a different dW1); that case is not modelled, so its contract describes the script only for w <= 2.
- ConvolutionsSimple.Epoch: the weights recorded for draw i are built by the fold `Trained` from the draws before it, but no lemma restates them as the fold over `draws[..i]`.

## Findings

| source | as written | input that shows it | evidently intended | confidence | as-written member | corrected member |
|---|---|---|---|---|---|---|
| Convolutions_1.py:109 | the slice `K//2 : -K//2+1` is `0:0` for K = 1 (and empty for K = 2), so assigning the image raises a broadcast error | K = 1 and a 2 x 2 image | the image at offset K//2 for every K; for K = 1 the buffer is the image | not executed | Padding.EmbedAsWrittenFailsForK1 | Padding.PadK1 |
| Convolutions_Simple.py:137-138 | the block-local argmax is unravelled with `// 2` and `% 2` whatever the window size | w = 3, the 3 x 3 map with 1.0 at (0, 2) and 0.0 elsewhere: the cell computed is (1, 0), which holds 0.0 | unravel by the window size, `// w` and `% w` | not executed | Pooling.AsWrittenMissesMaxForWindowThree | Pooling.MaxCellsLocateBlockMaxima |
| Convolutions_1.py:136 | `dl1` is reshaped to 28 x 28, so any other image size fails | a 4 x 4 image with a 3 x 3 filter | reshape to the image's own side, n x n | not executed | ConvolutionsOne.FourByFourFailsAsWritten | ConvolutionsOne.OutputGradIsGradient |
| Convolutions_Simple.py:124 | the same slice `K//2 : -K//2+1` writes the image into the module buffer `lt0` on every iteration, so for K = 1 or K = 2 the first iteration of `train_model` raises a broadcast error | K = 1, a 2 x 2 image | the image at offset K//2, so that `lt0` is the zero-padded image for every K | not executed | ConvolutionsSimple.SimpleStepFailsForK1 | ConvolutionsSimple.TrainStep |
