# LibBQsC core, modelled in Dafny

LibBQsC is a small C machine-learning library. It has dense linear algebra over
`double**` matrices and `double*` vectors, descriptive statistics, regression and
classification metrics, and two optimizers: plain gradient descent and Adam. On top of
these it builds two models: a softmax/sigmoid logistic regression, and a feed-forward
neural network (ANN) trained with Adam.

This project models that core and proves properties of the model:

- **Values and functions.** Doubles are `real`, vectors are `seq<real>` and matrices are
  `seq<seq<real>>` with explicit dimensions (`IsMatrix`). Routines that only build a new
  matrix keep the library's loops as methods. Each method is proved against a
  specification function or a pointwise contract: `Transpose`, `Submatrix`, `Det`,
  `Flat`, `Unflatten`, `MulEntry`, `Sum`, `Minimum`, `Softmax`, `Probabilities`,
  `WeightGradient` and others.
- **Objects updated in place.** Each becomes a class:
  - the optimizers own `array<real>` buffers, and the weight buffer is borrowed and
    updated in place;
  - the logistic regression object keeps its bias `b` as an array, because the bias
    optimizer updates that very array;
  - the network keeps its layers as a `seq<Layer>`. Each layer is owned by exactly one
    network, so an in-place write to one of its matrices becomes a replacement of that
    layer.
- **Error paths.** Every guard that prints a message and calls `exit(EXIT_FAILURE)`
  returns `Failure(error)` of a `Result`, so each contract can say exactly when it
  happens.
- **Math library.** `exp`, `tanh`, `log` and `sqrt` form a `Libm` parameter. The proofs
  use only their sign facts: exp is positive, tanh lies in (-1, 1), log is negative on
  (0, 1), and sqrt of a non-negative number is non-negative.
- **Random values.** The random initial weights and bias rows are parameters.

The main properties proved:

- **Linear algebra.**
  - Results are characterised entry by entry.
  - Subtraction undoes addition, and transposing twice is the identity.
  - Determinants follow the Laplace expansion along row 0: a 2×2 determinant is ad − bc,
    and a zero first row gives zero.
  - The cofactor sign follows the parity of i + j, and the adjoint is the transposed
    cofactor matrix.
  - Flatten and the row-major copy-back are inverse to each other.
- **Statistics.**
  - The mean and the median lie between the minimum and the maximum.
  - The loop of `range` (with its `else if`) computes max − min.
  - Variance is non-negative, and zero for a constant array.
- **Metrics.**
  - MSE and MAE are symmetric and non-negative, and MAE is zero exactly for equal
    vectors.
  - The clipped categorical log loss is non-negative.
- **Optimizers.**
  - Each update either rejects a gradient of the wrong length and changes nothing, or
    applies exactly the element-wise step.
  - Gradient descent steps compose additively.
  - Adam's second moments stay non-negative, and a zero gradient from zero momentum
    leaves the weights where they are.
- **Logistic regression.**
  - Each row of P is a probability distribution: softmax rows sum to 1, and a sigmoid
    value lies in (0, 1).
  - The loop-computed gradients equal the closed forms (1/m)·Xᵀ(P − Y) and mean(P − Y),
    and both vanish when P = Y.
  - Training obeys the library's stopping rule, with the break before the update.
  - Training returns a trace of snapshots of W, b and the optimizer moments. It starts at
    the values before training, and each recorded loss is that of its snapshot. Each
    snapshot is one optimizer step from the previous one, and the last is the final W and b.
  - Exactly the library's buffers are freed, never `b`.
- **Neural network.**
  - Forward propagation computes Z = A_prev·W + B and A = activation(Z) in every layer.
  - Backward propagation computes the output error, the hidden errors, dW and dB for
    every layer.
  - Every bias row stays identical through Adam updates. This is why the prediction path,
    which uses only the first row of B, agrees with forward propagation.
  - Training keeps the architecture, and its loss log obeys the stopping rule
    (convergence only counts after iteration 1000).
  - Training returns a trace of the run. It starts from the layers before training with
    every optimizer in its initial state (zero moments, t = 1). Each iteration propagates,
    takes one Adam step of every W and B from the previous optimizer states, and records
    the loss of the previous layers' prediction. The trace ends at the final layers.

## Model

| member | source | states |
|---|---|---|
| Numerics.PowInUnitInterval | src/optimization/adam_optimizer.c:56-57 | for 0 < β < 1 and t ≥ 1, β^t lies strictly in (0, 1), so Adam's bias-correction divisor 1 − β^t is positive |
| LinearAlgebra.InitVector | src/core/linear_algebra.c:14-30 | a vector of length n whose every entry is 0 |
| LinearAlgebra.InitZeroVector | src/core/linear_algebra.c:33-49 | a vector of length n whose every entry is 0 |
| LinearAlgebra.VectorAppend | src/core/linear_algebra.c:74-106 | length n + 1; entries before `index` kept, `number` at `index`, later entries shifted right by one; i.e. vector[..index] + [number] + vector[index..] |
| LinearAlgebra.VectorAddition | src/core/linear_algebra.c:109-120 | the loop result is the element-wise sum VectorSum(a, b) |
| LinearAlgebra.VectorSubtraction | src/core/linear_algebra.c:123-134 | the loop result is the element-wise difference |
| LinearAlgebra.VectorScalarMultiplication | src/core/linear_algebra.c:137-148 | the loop result is the vector scaled element-wise |
| LinearAlgebra.VectorDotProduct | src/core/linear_algebra.c:151-161 | the accumulated result is the dot product Σ a[i]·b[i] over all n entries |
| LinearAlgebra.SubtractionUndoesAddition | src/core/linear_algebra.c:109-134 | (a + b) − b == a for vectors of equal length |
| LinearAlgebra.ScalingIsInvertible | src/core/linear_algebra.c:137-148 | scaling by s ≠ 0 and then by 1/s gives back the vector |
| LinearAlgebra.DotSymmetric | src/core/linear_algebra.c:151-161 | the dot product does not depend on the order of its arguments |
| LinearAlgebra.InitZeroMatrix | src/core/linear_algebra.c:207-235 | a rows × columns matrix whose every entry is 0 |
| LinearAlgebra.MatrixGetRow | src/core/linear_algebra.c:272-283 | the copied row equals row `index` of A |
| LinearAlgebra.MatrixGetColumn | src/core/linear_algebra.c:286-297 | the copied vector is column `index` of A (length rows, entry i is A[i][index]) |
| LinearAlgebra.MatrixAddition | src/core/linear_algebra.c:300-314 | the result is the entry-wise sum of A and B |
| LinearAlgebra.MatrixSubtraction | src/core/linear_algebra.c:317-331 | the result is the entry-wise difference of A and B |
| LinearAlgebra.MatrixScalarMultiplication | src/core/linear_algebra.c:334-348 | the result is A with every entry scaled |
| LinearAlgebra.MatrixSubtractionUndoesAddition | src/core/linear_algebra.c:300-331 | (A + B) − B == A |
| LinearAlgebra.MatrixMultiplication | src/core/linear_algebra.c:351-381 | succeeds exactly when columnsA == rowsB, otherwise DimensionMismatch; the product is rowsA × columnsB with entry (i, j) = Σ_k A[i][k]·B[k][j] |
| LinearAlgebra.MulEntryIsDot | src/core/linear_algebra.c:351-381 | entry (i, j) of a product is the dot product of row i of A with column j of B |
| LinearAlgebra.MulTransposedEntryIsProduct | src/neural_networks/ANN.c:144-154 | the inlined sum Σ_q A[i][q]·B[j][q] used for dZ·Wᵀ is entry (i, j) of A·Transpose(B) |
| LinearAlgebra.TransposedMulEntryIsProduct | src/neural_networks/ANN.c:169-204 | the inlined sum Σ_q A[q][i]·B[q][j] used for Aᵀ·dZ is entry (i, j) of Transpose(A)·B |
| LinearAlgebra.MatrixTranspose | src/core/linear_algebra.c:384-398 | the result is columns × rows with R[i][j] == A[j][i] |
| LinearAlgebra.TransposeTwice | src/core/linear_algebra.c:384-398 | transposing twice gives back the matrix |
| LinearAlgebra.MatrixExtensionality | src/core/linear_algebra.c:384-398 | two matrices of the same shape with equal entries are equal |
| LinearAlgebra.MatrixSubmatrix | src/core/linear_algebra.c:401-447 | succeeds exactly when rows > 1 and columns > 1, otherwise NoSubmatrix; the (rows−1) × (columns−1) result skips row i and column j (entry (p, q) comes from row p or p+1 and column q or q+1) |
| LinearAlgebra.SubmatrixRow | src/core/linear_algebra.c:412-437 | one row of the submatrix, with column j skipped |
| LinearAlgebra.MatrixDeterminantLaplaceExpansion | src/core/linear_algebra.c:450-483 | succeeds exactly for a square matrix, otherwise NotSquare; the value is the recursive Laplace expansion along row 0 (Det) |
| LinearAlgebra.LaplaceTerm | src/core/linear_algebra.c:467-470 | one term of the expansion, A[0][q]·(−1)^q·det of the submatrix without row 0 and column q |
| LinearAlgebra.LaplaceMinor | src/core/linear_algebra.c:469-470 | the determinant of the submatrix without row 0 and column `index` |
| LinearAlgebra.MatrixDeterminant | src/core/linear_algebra.c:486-490 | same as the Laplace expansion: succeeds exactly for square matrices, value Det |
| LinearAlgebra.DetSumNext | src/core/linear_algebra.c:463-475 | the partial expansion over k + 1 columns adds the term for column k |
| LinearAlgebra.DetZeroFirstRow | src/core/linear_algebra.c:450-483 | a square matrix whose first row is zero has determinant 0 |
| LinearAlgebra.DetTwoByTwo | src/core/linear_algebra.c:450-483 | the expansion of a 2×2 matrix is a·d − b·c |
| LinearAlgebra.MatrixMinor | src/core/linear_algebra.c:493-510 | NotSquare for a non-square matrix, NoSubmatrix for a square one of size ≤ 1; otherwise the determinant of the submatrix without row i and column j |
| LinearAlgebra.MatrixCofactor | src/core/linear_algebra.c:513-527 | same guards as the minor; the cofactor is the minor when i + j is even and its negation when odd |
| LinearAlgebra.MatrixAdjoint | src/core/linear_algebra.c:530-557 | NotSquare for a non-square matrix, NoSubmatrix for a 1×1 one; otherwise an n × n matrix whose entry (i, j) is the cofactor (j, i) |
| LinearAlgebra.CofactorRow | src/core/linear_algebra.c:540-543 | the n cofactors of row i, or NoSubmatrix when n == 1 |
| LinearAlgebra.ConvertVectorMatrix | src/core/linear_algebra.c:699-715 | an n × 1 matrix whose entry (i, 0) is a[i] |
| LinearAlgebra.ConvertMatrixVector | src/core/linear_algebra.c:718-743 | succeeds exactly when columns == 1, otherwise DimensionMismatch; entry i is A[i][0] |
| LinearAlgebra.ColumnRoundTrip | src/core/linear_algebra.c:699-743 | converting a vector to a column matrix and back gives the vector |
| LinearAlgebra.Flatten | src/core/linear_algebra.c:746-766 | the result has rows·columns entries and is the row-major concatenation of the rows |
| LinearAlgebra.FlatLength | src/core/linear_algebra.c:746-766 | the flattening of a rows × columns matrix has rows·columns entries |
| LinearAlgebra.FlatIndex | src/core/linear_algebra.c:746-766 | entry (i, j) sits at index i·columns + j of the flattening |
| LinearAlgebra.UnflattenEntry | src/regression/logistic_regression.c:303-311 | the copy-back puts index r·columns + c at entry (r, c) |
| LinearAlgebra.UnflattenFlat | src/regression/logistic_regression.c:303-311 | copying a flattened matrix back gives the matrix |
| LinearAlgebra.FlatUnflatten | src/regression/logistic_regression.c:303-311 | flattening a copied-back vector gives the vector |
| LinearAlgebra.CopyRowMajor | src/regression/logistic_regression.c:303-311 | the nested copy loop with a running index builds the row-major unflattening |
| LinearAlgebra.AccumulateProduct | src/regression/logistic_regression.c:133-138 | the inner accumulation is entry (i, j) of the product over the first k terms |
| LinearAlgebra.BroadcastEntry | src/neural_networks/ANN.c:287-300 | in a flattened matrix with identical rows, entry (r, c) equals entry (0, c) |
| LinearAlgebra.FlatOfIdenticalRows | src/neural_networks/ANN.c:254-255 | flattening a matrix whose rows are identical gives a vector with identical rows |
| LinearAlgebra.ZeroRowsIdentical | src/optimization/adam_optimizer.c:31-32 | an all-zero vector (fresh Adam moments), read as a matrix, has identical rows |
| LinearAlgebra.ZeroEntry | src/neural_networks/neural_network_utilities.c:111-143 | every entry of an all-zero vector read as a matrix is zero |
| Statistics.ArraySum | src/statistics/statistics.c:8-18 | the accumulated value is the sum of all n elements |
| Statistics.Mean | src/statistics/statistics.c:21-25 | mean·n equals the sum of the elements |
| Statistics.SumBounds | src/statistics/statistics.c:8-18 | if every element lies in [lo, hi], the sum lies in [n·lo, n·hi] |
| Statistics.MeanBounds | src/statistics/statistics.c:21-25 | if every element lies in [lo, hi], so does the mean |
| Statistics.MeanBetweenExtremes | src/statistics/statistics.c:21-25 | minimum ≤ mean ≤ maximum |
| Statistics.Median | src/statistics/statistics.c:28-43 | for odd n the element at n/2; for even n a value between the elements at n/2 − 1 and n/2 (their average), with no sorting |
| Statistics.MedianOfSorted | src/statistics/statistics.c:28-43 | on a sorted array, the first n/2 elements are ≤ the median and the last n/2 are ≥ it |
| Statistics.MedianBetweenExtremes | src/statistics/statistics.c:28-43 | minimum ≤ median ≤ maximum, sorted or not |
| Statistics.Minimum | src/statistics/statistics.c:46-59 | the left-to-right minimum is an element and is ≤ every element |
| Statistics.Maximum | src/statistics/statistics.c:62-75 | the left-to-right maximum is an element and is ≥ every element |
| Statistics.Min | src/statistics/statistics.c:46-59 | the scan returns an element that is ≤ every element |
| Statistics.Max | src/statistics/statistics.c:62-75 | the scan returns an element that is ≥ every element |
| Statistics.Range | src/statistics/statistics.c:78-96 | the single scan with `else if` returns maximum − minimum, which is ≥ 0 |
| Statistics.SquaredDeviationsNonNegative | src/statistics/statistics.c:103-107 | Σ (μ − aᵢ)² ≥ 0 |
| Statistics.SquaredDeviationsOfConstant | src/statistics/statistics.c:103-107 | the squared deviations from the common value of a constant array are 0 |
| Statistics.SampleVariance | src/statistics/statistics.c:99-112 | the quantity under the square root is ≥ 0 |
| Statistics.VarianceOfConstant | src/statistics/statistics.c:99-112 | a constant array has mean equal to its value and variance 0 |
| Statistics.StandardDeviation | src/statistics/statistics.c:99-112 | the result is sqrt of the sample variance (division by n − 1) and is ≥ 0 |
| Metrics.MeanSquaredError | src/metrics/regression_metrics.c:8-20 | the result is Σ (yTrue − yPred)² / n |
| Metrics.MeanAbsoluteError | src/metrics/regression_metrics.c:23-35 | the result is Σ abs(yTrue − yPred) / n |
| Metrics.LogLoss | src/metrics/regression_metrics.c:38-49 | the result is −Σ (y·log p + (1 − y)·log(1 − p)) / n |
| Metrics.LogLossMatrix | src/metrics/regression_metrics.c:52-70 | the result is −(Σ over samples and classes of y·log(clip(p))) / samples, where p is clipped to [ε, 1 − ε], ε = 1e-15, and the division is by the number of samples only |
| Metrics.SquaredErrorsNonNegative | src/metrics/regression_metrics.c:8-20 | the sum of squared errors is ≥ 0 |
| Metrics.SquaredErrorsOfEqual | src/metrics/regression_metrics.c:8-20 | identical vectors have squared error 0 |
| Metrics.AbsoluteErrorsZeroIff | src/metrics/regression_metrics.c:23-35 | the sum of absolute errors is ≥ 0, and 0 exactly when the vectors agree |
| Metrics.MeanSquaredErrorBounds | src/metrics/regression_metrics.c:8-20 | the MSE is ≥ 0, and 0 when the predictions are exact |
| Metrics.MeanAbsoluteErrorZeroIff | src/metrics/regression_metrics.c:23-35 | the MAE is 0 exactly when the predictions are exact |
| Metrics.SquaredErrorsSymmetric | src/metrics/regression_metrics.c:8-20 | swapping truth and prediction leaves the squared error unchanged |
| Metrics.AbsoluteErrorsSymmetric | src/metrics/regression_metrics.c:23-35 | swapping truth and prediction leaves the absolute error unchanged |
| Metrics.ClipRange | src/metrics/regression_metrics.c:55-64 | a clipped probability lies in [ε, 1 − ε], strictly inside (0, 1) |
| Metrics.RowCrossEntropyNonPositive | src/metrics/regression_metrics.c:59-67 | for non-negative targets a row's Σ y·log(clip(p)) is ≤ 0 |
| Metrics.CrossEntropyNonPositive | src/metrics/regression_metrics.c:59-67 | for non-negative targets the matrix sum Σ y·log(clip(p)) is ≤ 0 |
| Metrics.LogLossMatrixNonNegative | src/metrics/regression_metrics.c:52-70 | for non-negative targets the matrix log loss is ≥ 0 |
| Metrics.LogLikelihoodNonPositive | src/metrics/regression_metrics.c:38-49 | for targets in [0, 1] and predictions in (0, 1) the log-likelihood is ≤ 0, so the log loss is ≥ 0 |
| GradientDescentOptimizer.GradientDescent.constructor | src/optimization/gradient_descent.c:11-27 | the optimizer borrows the given w (no copy) and uses learning rate 0.001 |
| GradientDescentOptimizer.GradientDescent.Update | src/optimization/gradient_descent.c:35-55 | succeeds exactly when the gradient length equals n; on failure InvalidGradient and w unchanged; on success w ← w − lr·g element-wise, and the returned buffer is w itself |
| GradientDescentOptimizer.GradientDescent.Dispose | src/optimization/gradient_descent.c:58-69 | w is freed exactly when the flag is 1 |
| GradientDescentOptimizer.DescentWithZeroGradient | src/optimization/gradient_descent.c:41-45 | a zero gradient leaves the weights unchanged |
| GradientDescentOptimizer.DescentComposes | src/optimization/gradient_descent.c:41-45 | two steps with g1 and then g2 equal one step with g1 + g2 |
| GradientDescentOptimizer.DescentIsElementwise | src/optimization/gradient_descent.c:41-45 | positions with equal weight and gradient stay equal after a step |
| AdamOptimizer.Adam.constructor | src/optimization/adam_optimizer.c:13-36 | w is borrowed; fresh zero m and v; t = 1; learning rate 0.001, β1 0.9, β2 0.999, ε 1e-8 |
| AdamOptimizer.Adam.Update | src/optimization/adam_optimizer.c:44-72 | succeeds exactly when the gradient length is n; on failure InvalidGradient and nothing changes; on success m ← β1·m + (1 − β1)·g, v ← β2·v + (1 − β2)·g², w ← w − lr·m̂/(√v̂ + ε) with the bias corrections at the old t, t ← t + 1, and w itself is returned |
| AdamOptimizer.Adam.StepElements | src/optimization/adam_optimizer.c:50-60 | after the loop the three buffers hold the element-wise new moments and weights |
| AdamOptimizer.Adam.StepElement | src/optimization/adam_optimizer.c:52-59 | one index is stepped, with a non-negative v, and every other index is unchanged |
| AdamOptimizer.Adam.Dispose | src/optimization/adam_optimizer.c:75-91 | m and v are always freed; w is freed exactly when the flag is 1 |
| AdamOptimizer.SecondMomentStep | src/optimization/adam_optimizer.c:54 | a non-negative second moment stays non-negative |
| AdamOptimizer.BiasCorrected | src/optimization/adam_optimizer.c:56-57 | bias correction keeps a non-negative moment non-negative |
| AdamOptimizer.FirstMoments | src/optimization/adam_optimizer.c:53 | the first moments keep the vector's length |
| AdamOptimizer.SecondMoments | src/optimization/adam_optimizer.c:54 | the second moments keep the vector's length |
| AdamOptimizer.Weights | src/optimization/adam_optimizer.c:59 | the stepped weights keep the vector's length |
| AdamOptimizer.SecondMomentsStayNonNegative | src/optimization/adam_optimizer.c:54 | updating non-negative second moments keeps them non-negative, so √v̂ is defined at every step |
| AdamOptimizer.ZeroGradientAtRest | src/optimization/adam_optimizer.c:50-60 | with zero gradient and zero first moment, m stays zero and the weights do not move |
| AdamOptimizer.StepIsElementwise | src/optimization/adam_optimizer.c:50-60 | positions with equal w, m, v and g stay equal after a step |
| AdamOptimizer.StepKeepsBroadcastRows | src/neural_networks/ANN.c:287-300 | when w, m, v and g all have identical rows as samples × neurons matrices, so do the new m, v and w |
| NeuralNetworkUtilities.Logistic | src/neural_networks/neural_network_utilities.c:23-26 | 1/(1 + e^−z) lies strictly in (0, 1) |
| NeuralNetworkUtilities.Activate | src/neural_networks/neural_network_utilities.c:13-34 | ReLU is z for z > 0 and 0 otherwise; sigmoid lies in (0, 1); tanh is the library tanh and lies in (−1, 1) |
| NeuralNetworkUtilities.ActivateDerivative | src/neural_networks/neural_network_utilities.c:37-60 | ReLU′ is 1 for z > 0 and 0 otherwise; sigmoid′ = s(1 − s) ∈ (0, 1/4]; tanh′ = 1 − t² ∈ (0, 1], each in terms of the activation's own value |
| NeuralNetworkUtilities.SigmoidSlope | src/neural_networks/neural_network_utilities.c:47-51 | s(1 − s) ∈ (0, 1/4] for s ∈ (0, 1) |
| NeuralNetworkUtilities.TanhSlope | src/neural_networks/neural_network_utilities.c:53-57 | 1 − t² ∈ (0, 1] for t ∈ (−1, 1) |
| NeuralNetworkUtilities.InitB | src/neural_networks/neural_network_utilities.c:68-108 | a samples × neurons matrix whose every row is the drawn first row, so all rows are identical |
| NeuralNetworkUtilities.InitANNLayer | src/neural_networks/neural_network_utilities.c:111-143 | a well-shaped layer with the given dimensions, type, activation and W; B has identical rows equal to the drawn row; Z, A, dZ, dW and dB are zero |
| ANN.Network.constructor | src/neural_networks/ANN.c:14-35 | the network keeps X, Y and the dimensions, and starts with no layers |
| ANN.Network.AddLayer | src/neural_networks/ANN.c:43-66 | appends one layer, keeping the earlier ones; its input width is the previous layer's width (features for the first); it has the given W and a B whose rows are all the drawn row |
| ANN.LayerOutputs | src/neural_networks/ANN.c:75-105 | only Z and A change, to Z = input·W + B and A = activation(Z) entry by entry |
| ANN.RowOutputs | src/neural_networks/ANN.c:80-102 | one row of Z and A, as above |
| ANN.Network.UpdateLayerOutputs | src/neural_networks/ANN.c:75-105 | only layer l's Z and A change; the layer is forwarded from its input (X for layer 0, the previous A otherwise) |
| ANN.Network.ForwardPropagation | src/neural_networks/ANN.c:108-117 | only Z and A of the layers change, and every layer is forwarded from the previous one's new A |
| ANN.AccumulateProductTransposed | src/neural_networks/ANN.c:147-151 | the inner sum is Σ_q dZ_next[i][q]·W_next[j][q] |
| ANN.AccumulateTransposedProduct | src/neural_networks/ANN.c:180-199 | the inner sum is Σ_q input[q][i]·dZ[q][j] |
| ANN.ErrorRow | src/neural_networks/ANN.c:133-158 | one row of dZ (A − Y for the output layer, (dZ_next·W_nextᵀ) ⊙ activation′(Z) otherwise), added into the column sums |
| ANN.ErrorsExtend | src/neural_networks/ANN.c:133-158 | appending a row of errors keeps dZ and the column sums in agreement with the definition |
| ANN.ErrorsComplete | src/neural_networks/ANN.c:128-166 | once all rows are built, the layer has the output or hidden error as its dZ |
| ANN.MeansOfSums | src/neural_networks/ANN.c:156-163 | dividing the column sums by samples gives the column means of dZ |
| ANN.DivideEach | src/neural_networks/ANN.c:156-163 | each column sum is divided by the number of samples |
| ANN.UpdateDZ | src/neural_networks/ANN.c:128-166 | only dZ changes: to A − Y for the output layer, to (dZ_next·W_nextᵀ) ⊙ activation′(Z) for a hidden one; db is the column means of the new dZ |
| ANN.UpdateDW | src/neural_networks/ANN.c:169-204 | only dW changes, to (1/samples)·inputᵀ·dZ |
| ANN.UpdateDB | src/neural_networks/ANN.c:207-219 | only dB changes, and every row of it is db |
| ANN.Network.BackpropagateLayer | src/neural_networks/ANN.c:226-235 | only layer l's dZ, dW and dB change, to its error, weight gradient and bias gradient |
| ANN.Network.BackwardPropagation | src/neural_networks/ANN.c:222-237 | walking from the last layer down, only gradients change, and every layer holds its error, dW and dB (each row of dB is the column means of dZ) |
| ANN.GradientBiasRowsIdentical | src/neural_networks/ANN.c:207-219 | after backpropagation every dB has identical rows |
| ANN.LayerPrediction | src/neural_networks/ANN.c:371-388 | one prediction layer maps an n-row input to an n × neurons matrix |
| ANN.Predicted | src/neural_networks/ANN.c:358-391 | k prediction layers give an n-row matrix of the k-th layer's width |
| ANN.PredictRow | src/neural_networks/ANN.c:375-387 | one row of activation(A_prev·W + B[0]) |
| ANN.PredictLayer | src/neural_networks/ANN.c:371-388 | the whole layer activation(A_prev·W + B[0]) |
| ANN.PredictLayers | src/neural_networks/ANN.c:358-391 | the loop over layers computes the composed prediction |
| ANN.PredictedStep | src/neural_networks/ANN.c:358-391 | predicting through l + 1 layers is one more layer applied to the prediction through l |
| ANN.Network.Predict | src/neural_networks/ANN.c:355-394 | the result is the composition of the layers applied to the input with the first bias row; with no layers it is the input |
| ANN.LayerPredictionMatchesForward | src/neural_networks/ANN.c:386 | when B has identical rows, predicting with B[0] on the training input gives the layer's forward A |
| ANN.PredictionMatchesForward | src/neural_networks/ANN.c:355-394 | after forward propagation, predicting X through the first k layers gives layer k's A |
| ANN.NewLayerOptimizers | src/neural_networks/ANN.c:248-256 | two fresh Adam optimizers over the flattened W and B of the layer, each with zero first and second moments at t = 1 |
| ANN.Network.CreateOptimizers | src/neural_networks/ANN.c:245-256 | 2·layers fresh, pairwise separate optimizers, each tracking its layer's W or B; optimizers 2k and 2k + 1 hold the flattened W and B of layer k with zero moments at t = 1 |
| ANN.Network.AddLayerOptimizers | src/neural_networks/ANN.c:248-256 | one loop step keeps the earlier optimizers and their states and appends the pair for layer l, in the initial state over its flattened W and B |
| ANN.Network.StepLayer | src/neural_networks/ANN.c:266-301 | only layer l's W and B change: each is the Adam step of its flattening with the flattened gradient, copied back row-major, and its optimizer still tracks it |
| ANN.Network.StepLayerAmong | src/neural_networks/ANN.c:266-301 | stepping layer l's pair leaves every other optimizer's state unchanged |
| ANN.Network.UpdateLayer | src/neural_networks/ANN.c:266-301 | one loop iteration extends the prefix of stepped layers |
| ANN.Network.UpdateParameters | src/neural_networks/ANN.c:266-301 | only W and B change, and every layer's W and B are exactly one Adam step of the before-states |
| ANN.Network.Propagate | src/neural_networks/ANN.c:263-264 | forward and backward propagation keep W, B and the architecture; afterwards every layer holds the forward outputs from X, every layer holds its error, dW and dB, every dB has identical rows, and the output A is the prediction of the starting layers on X |
| ANN.Network.PropagateAndUpdate | src/neural_networks/ANN.c:262-301 | returns the layers after the propagations (W and B kept, every layer forwarded from X and backpropagated) and the optimizer states before and after; the final layers differ from those only in W and B, which are exactly one Adam step of the before-states; the architecture, output width and tracking are kept, and the output A is the prediction of the starting layers |
| ANN.Propagated | src/neural_networks/ANN.c:263-264 | forward then backward propagation leaves W, B and the architecture, every layer forwarded from X, and the output A equal to the prediction of the starting layers |
| ANN.PropagatedPrediction | src/neural_networks/ANN.c:358-391 | when the output A is the prediction of the layers, it is also the prediction of any layers with the same W, B and architecture |
| ANN.PropagatedAndUpdated | src/neural_networks/ANN.c:262-301 | propagations followed by one Adam step of every W and B form one traced iteration, and the output A is still the prediction of the starting layers |
| ANN.OutputMatchesForward | src/neural_networks/ANN.c:355-394 | after forward propagation, predicting X through all layers gives the last layer's A |
| ANN.LayerPredictionKept | src/neural_networks/ANN.c:371-388 | one prediction layer depends only on W, B, activation and widths |
| ANN.LinkedKept | src/neural_networks/ANN.c:358-391 | layers with the same W, B and architecture are linked alike |
| ANN.PredictionKept | src/neural_networks/ANN.c:358-391 | layers with the same W, B and architecture predict alike, whatever their Z, A and gradients |
| ANN.ForwardedKept | src/neural_networks/ANN.c:222-237 | backward propagation changes no Z, A, W or B, so every layer stays forwarded |
| ANN.OutputPredictedAlike | src/neural_networks/ANN.c:358-391 | the output A is the prediction of the starting layers when it is that of layers predicting alike |
| ANN.OutputPredictedKept | src/neural_networks/ANN.c:266-301 | changing anything but the output A keeps it the prediction of the starting layers |
| ANN.OutputActivationKept | src/neural_networks/ANN.c:266-301 | changing only W and B keeps the output layer's A |
| ANN.OutputLoss | src/neural_networks/ANN.c:314-317 | when the output A is the prediction of the starting layers, the loss computed from it is the loss of that prediction |
| ANN.Network.IterationLoss | src/neural_networks/ANN.c:314-317 | the loss is the binary log loss of the flattened Y against the flattened last-layer A |
| ANN.NetworkLoss | src/neural_networks/ANN.c:314-317 | both flattenings have samples·classes entries |
| ANN.Network.TrainingIteration | src/neural_networks/ANN.c:262-317 | one iteration as above (propagations, then one Adam step of every W and B from the optimizer states at the start), returning the loss of the prediction of the starting layers on X, which is also the loss of the new last-layer A |
| ANN.NeverConvergedExtend | src/neural_networks/ANN.c:319-325 | recording a loss that did not pass the break test keeps the log free of missed convergence |
| ANN.ReleaseOptimizers | src/neural_networks/ANN.c:337-344 | every optimizer's w, m and v is freed (flag 1 for both W and B) |
| ANN.Network.Train | src/neural_networks/ANN.c:240-352 | fails with NoOutputLayer (nothing changed) exactly when the last layer is not an output layer; otherwise keeps the architecture, and returns a trace of the run: it starts from the layers before training with every optimizer in its initial state (flattened W or B, zero moments, t = 1), each iteration propagates, takes one Adam step per W and B from the previous states and records the loss of the previous layers' prediction, and it ends with the final layers. Its losses are the log, plus the final loss after an early stop. The log obeys the rule: no loss after iteration 1000 fell by less than threshold; an early stop happens after iteration 1000 and before max_iterations, with a fall of less than threshold from the last logged loss; otherwise max_iterations losses are logged, the last being the final loss |
| ANN.Network.Iterate | src/neural_networks/ANN.c:262-325 | the loop of training from the initial optimizer states: the same trace and stopping rule as Train, ending in the final layers and optimizer states |
| ANN.Network.TrainedStart | src/neural_networks/ANN.c:245-262 | before the first iteration, the trace holding the starting layers and the initial optimizer states describes the run so far |
| ANN.Network.TracedIteration | src/neural_networks/ANN.c:262-317 | one iteration extends the trace by the layers and optimizer states it leaves and by its loss, which is the final loss |
| ANN.TracedFromStart | src/neural_networks/ANN.c:245-262 | a trace of the starting layers and initial states alone, with no iteration, is a trace from those layers to themselves |
| ANN.TracedExtend | src/neural_networks/ANN.c:262-325 | appending one iteration from the last layers and states of a trace gives a trace from the same first layers to the new ones |
| ANN.InitialStatesExtend | src/neural_networks/ANN.c:248-256 | the initial states of layers 0..l−1 followed by the pair of layer l are the initial states of layers 0..l |
| ANN.AppendStates | src/neural_networks/ANN.c:248-256 | the states of optimizers with a pair appended are their states followed by those of the pair |
| ANN.StoppingRuleExtend | src/neural_networks/ANN.c:319-325 | an iteration that does not stop extends a log of full iterations, and its loss becomes the last one |
| ANN.StoppingRuleStop | src/neural_networks/ANN.c:319-325 | stopping after iteration 1000 and before the last, with a fall below threshold, follows the rule |
| LogisticRegression.SigmoidOf | src/regression/logistic_regression.c:66 | 1/(1 + exp(−z)) lies strictly in (0, 1) |
| LogisticRegression.Sigmoid | src/regression/logistic_regression.c:59-70 | same length as z, each entry in (0, 1) |
| LogisticRegression.ExpSum | src/regression/logistic_regression.c:78-83 | the sum of shifted exponentials is ≥ 0, and > 0 once one term is in |
| LogisticRegression.Quotients | src/regression/logistic_regression.c:85-90 | each shifted exponential divided by the sum; same length as z |
| LogisticRegression.Softmax | src/regression/logistic_regression.c:73-93 | the softmax of z shifted by max(z) has the length of z |
| LogisticRegression.Activated | src/regression/logistic_regression.c:143-151 | sigmoid for one class, softmax otherwise; same length |
| LogisticRegression.Logits | src/regression/logistic_regression.c:131-141 | row r of X·W + b has `classes` entries |
| LogisticRegression.Probabilities | src/regression/logistic_regression.c:128-151 | P has n rows of `classes` entries |
| LogisticRegression.WeightGradient | src/regression/logistic_regression.c:191-209 | dW has shape features × classes |
| LogisticRegression.BiasGradient | src/regression/logistic_regression.c:212-226 | db has `classes` entries |
| LogisticRegression.ApplySigmoid | src/regression/logistic_regression.c:59-70 | the loop computes the element-wise sigmoid |
| LogisticRegression.SumExponentials | src/regression/logistic_regression.c:78-83 | the accumulated sum is Σ exp(z[i] − max z) |
| LogisticRegression.DivideExponentials | src/regression/logistic_regression.c:85-90 | each entry is exp(z[i] − max z) divided by that sum |
| LogisticRegression.ApplySoftmax | src/regression/logistic_regression.c:73-93 | the two loops compute the softmax |
| LogisticRegression.ExpSumCovers | src/regression/logistic_regression.c:78-83 | every term is at most the whole sum, so each softmax entry is at most 1 |
| LogisticRegression.QuotientsSum | src/regression/logistic_regression.c:85-90 | the first k quotients add up to the first k exponentials over the total |
| LogisticRegression.SoftmaxIsDistribution | src/regression/logistic_regression.c:73-93 | every softmax entry lies in (0, 1] and the entries sum to 1 |
| LogisticRegression.ProbabilitiesAreDistributions | src/regression/logistic_regression.c:143-151 | every row of P is a distribution: entries in (0, 1], summing to 1 for ≥ 2 classes, and strictly below 1 for a single class |
| LogisticRegression.MulEntryOfEqualRows | src/regression/logistic_regression.c:135-138 | equal input rows give equal product entries |
| LogisticRegression.EqualRowsEqualProbabilities | src/regression/logistic_regression.c:128-151 | equal samples get equal probability rows |
| LogisticRegression.ResidualProductIsTransposedProduct | src/regression/logistic_regression.c:201-204 | the loop sum Σ X[i][r]·(P[i][c] − Y[i][c]) is entry (r, c) of Xᵀ·(P − Y) |
| LogisticRegression.WeightGradientIsClosedForm | src/regression/logistic_regression.c:191-209 | dW equals (1/m)·Xᵀ(P − Y) entry by entry |
| LogisticRegression.ResidualSumIsColumnSum | src/regression/logistic_regression.c:219-222 | the loop sum Σ (P[i][c] − Y[i][c]) is the column sum of P − Y |
| LogisticRegression.BiasGradientIsColumnMean | src/regression/logistic_regression.c:212-226 | db[c] is the mean of column c of P − Y |
| LogisticRegression.ResidualsOfExactPrediction | src/regression/logistic_regression.c:201-222 | when P equals Y, both residual sums vanish |
| LogisticRegression.ExactPredictionHasZeroGradients | src/regression/logistic_regression.c:191-226 | when P equals Y, every entry of dW and db is 0 |
| LogisticRegression.NeverConvergedExtend | src/regression/logistic_regression.c:271-275 | recording a loss that did not pass the convergence test keeps the log free of convergence |
| LogisticRegression.Regression.constructor | src/regression/logistic_regression.c:20-48 | keeps X, Y and the dimensions; W and b are the drawn values, with b in a fresh array; dW and db are zero; P is absent; log_loss is INT_MAX |
| LogisticRegression.Regression.GenerateP | src/regression/logistic_regression.c:107-168 | fails with InvalidInput exactly when the feature width differs; otherwise each row is the sigmoid (one class) or softmax of that row of X·W + b |
| LogisticRegression.Regression.LogitRow | src/regression/logistic_regression.c:131-141 | one row of X·W + b |
| LogisticRegression.Regression.ProbabilityRow | src/regression/logistic_regression.c:131-151 | one row of P |
| LogisticRegression.Regression.UpdateP | src/regression/logistic_regression.c:177-188 | P becomes the probabilities of the training data; nothing else changes |
| LogisticRegression.Regression.AccumulateResidualProduct | src/regression/logistic_regression.c:199-204 | the inner sum Σ X[i][r]·(P[i][c] − Y[i][c]) |
| LogisticRegression.Regression.WeightGradientRow | src/regression/logistic_regression.c:197-207 | one row of dW |
| LogisticRegression.Regression.UpdateDW | src/regression/logistic_regression.c:191-209 | only dW changes, to the weight gradient of the current P |
| LogisticRegression.Regression.AccumulateResidualSum | src/regression/logistic_regression.c:217-222 | the inner sum Σ (P[i][c] − Y[i][c]) |
| LogisticRegression.Regression.UpdateDB | src/regression/logistic_regression.c:212-226 | only db changes, to the bias gradient of the current P |
| LogisticRegression.Regression.Gradients | src/regression/logistic_regression.c:262-269 | P, dW and db are recomputed from the current W and b, and the returned loss is the matrix log loss of that P |
| LogisticRegression.Regression.ProbabilitiesLoss | src/regression/logistic_regression.c:269 | the loss is the matrix log loss of the current P against Y |
| LogisticRegression.Regression.DescentStep | src/regression/logistic_regression.c:291-311 | Flat(W) and b each take one descent step with the flattened dW and db; W is the row-major copy-back of the optimizer's buffer |
| LogisticRegression.Regression.AdamStep | src/regression/logistic_regression.c:297-311 | Flat(W) and b each take one Adam step with their moments; both optimizers' t increase by one |
| LogisticRegression.Regression.Iteration | src/regression/logistic_regression.c:256-315 | the loss is that of the parameters at the start, and P, dW and db are those of the starting W and b; it converges exactly when the absolute difference of log_loss and the loss is below threshold, and then W, b, the optimizer moments and log_loss are unchanged (break before the update); otherwise log_loss becomes the loss and W, b and the moments take one step of the optimizer along those gradients |
| LogisticRegression.Regression.CreateOptimizers | src/regression/logistic_regression.c:241-251 | a fresh optimizer pair of the chosen kind, the W one over a flattened copy of W and the b one over b itself; with Adam all four moment vectors are zero and t = 1 |
| LogisticRegression.Regression.Iterate | src/regression/logistic_regression.c:256-315 | the losses follow the stopping rule and log_loss is the last recorded loss; the returned trace starts at the W, b and moments before the loop, each recorded loss is that of its snapshot, each snapshot is one optimizer step from the previous, and the last is the final W, b and moments |
| LogisticRegression.TracedExtend | src/regression/logistic_regression.c:256-315 | appending one iteration that advanced the last snapshot and recorded its loss extends the trace |
| LogisticRegression.Regression.DisposeOptimizers | src/regression/logistic_regression.c:323-333 | frees the flattened copy of W (and with Adam both moment pairs) but never b |
| LogisticRegression.Regression.Train | src/regression/logistic_regression.c:229-334 | the losses obey the stopping rule: no recorded loss was within threshold of its predecessor (INT_MAX first); an early stop comes before max_iterations with the final parameters' loss within threshold; otherwise max_iterations losses are recorded. log_loss is the last recorded loss, and 1 (descent) or 5 (Adam) fresh buffers are freed, never b. The returned trace starts at the W and b before training with the initial moments, ties each recorded loss to its snapshot, takes one optimizer step per recorded loss, and ends at the final W and b |
| LogisticRegression.Regression.Predict | src/regression/logistic_regression.c:337-343 | fails with InvalidInput exactly when the width differs from features; otherwise P for the given data, with every row a distribution |

## Left out

- Printing: `printVector`, `printMatrix`, the network and regression printers, and the
  progress lines of `trainANN` and `trainLogisticRegression`. Output only.
- Randomness: `initRandomVector` and `initRandomMatrix`, and the random draws in
  `initLogisticRegression`, `initB` and the layer initialiser. The drawn values are
  parameters.
- `initMatrix`: it allocates a matrix without writing its entries. Every routine of the
  core writes each entry before reading it, so the model builds those results directly.
- Allocation failure (`malloc` returning NULL, then `exit`) cannot occur in the model.
- Memory release: `matrixDispose`, `disposeANNLayer`, `disposeANN`,
  `disposeLogisticRegression` and the many `free` calls of temporaries. Only the
  optimizers' dispose flags are modelled, as the set of buffers freed.
- Floating point: doubles are exact reals. Rounding, overflow to infinity and NaN are not
  modelled.
- `exp`, `tanh`, `log` and `sqrt` are abstract. Only their sign facts are used.
- The inverse routines: `matrixInverse` and the Gauss–Jordan inverse
  (src/core/linear_algebra.c:560-638), feature scaling (src/preprocessing/feature_scaling.c)
  and the test driver (tests/Test.c). These are not part of this model.
- Entry points with unchecked inputs carry the condition that the library assumes without
  checking it:
  - `mean`, `median`, `min`, `max` and `range` require n ≥ 1;
  - the standard deviation requires n ≥ 2;
  - the log losses and the gradients require at least one sample (they divide by it);
  - softmax requires at least one class;
  - `trainANN` requires at least one layer whose last width is the number of classes.
- The unused `Optimizer` values: training with an enum value other than gradient descent
  or Adam would leave the optimizers uninitialised in the library. The model's enum has
  only the two.
- ANN.Network.Predict: requires at least one training sample when there are layers,
  because the library reads `B[0]` of every layer.
- ANN.Network.Train: the trace it returns is ghost, because the library keeps no history
  of the layers. The trace relates each iteration to the one before; it gives no closed
  form of the final W and B in terms of X and Y, because each step goes through the
  abstract exp, tanh, log and sqrt.
