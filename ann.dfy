/**
  The fully connected feed-forward network (src/neural_networks/ANN.c).

  The network keeps the training inputs X (samples x features) and targets Y
  (samples x classes) and a growing list of layers, each a `Layer` value whose matrices
  the propagation routines overwrite. Every routine below states what it computes in
  terms of the specification functions of the first part of this module:

    Z[l] = Input(l)·W[l] + B[l]            A[l] = activation(Z[l])
    dZ[L-1] = A[L-1] - Y                    dZ[l] = (dZ[l+1]·W[l+1]ᵀ) ⊙ activation'(Z[l])
    dW[l] = (1/samples)·Input(l)ᵀ·dZ[l]     dB[l][r][c] = mean of column c of dZ[l]

  where Input(0) = X and Input(l) = A[l-1]. Training wraps every W and B in its own Adam
  optimizer over the row-major flattening of the matrix.
 */
module ANN {
  import opened Wrappers
  import opened Numerics
  import opened LinearAlgebra
  import opened Metrics
  import opened AdamOptimizer
  import opened NeuralNetworkUtilities

  /* ---------------------------------------------------------------------------
     Specification: shapes, forward and backward passes, prediction
     --------------------------------------------------------------------------- */

  /** The width of the matrix layer l reads: the features for the first layer, the previous layer's neurons otherwise */
  function InputWidth(layers: seq<Layer>, features: nat, l: nat): nat
    requires l <= |layers|
  {
    if l == 0 then features else layers[l - 1].neurons
  }

  /**
    Every layer is shaped for `samples` rows, reads the output of its predecessor (the
    first one reads the `features` columns of X) and has a bias of identical rows.
   */
  predicate Chained(layers: seq<Layer>, samples: nat, features: nat) {
    forall l :: 0 <= l < |layers| ==> Fits(layers[l], samples, InputWidth(layers, features, l))
  }

  /** The layer is shaped for `samples` rows, reads `width` inputs and has a bias of identical rows */
  predicate Fits(layer: Layer, samples: nat, width: nat) {
    && Shaped(layer)
    && layer.samples == samples
    && layer.neuronsPrevious == width
    && RowsIdentical(layer.B)
  }

  /** The matrix layer l reads: X for the first layer, the previous layer's A otherwise */
  function Input(X: Matrix, layers: seq<Layer>, l: nat): Matrix
    requires l < |layers|
  {
    if l == 0 then X else layers[l - 1].A
  }

  /** Layer l holds Z = input·W + B and A = activation(Z) */
  predicate Forwarded(layer: Layer, input: Matrix, lib: Libm) {
    && Shaped(layer)
    && IsMatrix(input, layer.samples, layer.neuronsPrevious)
    && forall r, c :: 0 <= r < layer.samples && 0 <= c < layer.neurons ==>
         && layer.Z[r][c] == MulEntry(input, layer.W, r, c, layer.neuronsPrevious) + layer.B[r][c]
         && layer.A[r][c] == Activate(layer.Z[r][c], layer.activation, lib)
  }

  /** Every layer holds the outputs of a forward pass over X */
  predicate AllForwarded(X: Matrix, layers: seq<Layer>, lib: Libm) {
    forall l :: 0 <= l < |layers| ==> ForwardedAt(X, layers, l, lib)
  }

  /** Layer l holds the outputs of a forward pass over its input */
  predicate ForwardedAt(X: Matrix, layers: seq<Layer>, l: nat, lib: Libm)
    requires l < |layers|
  {
    Forwarded(layers[l], Input(X, layers, l), lib)
  }

  /** The output layer's error: dZ = A - Y */
  predicate OutputError(layer: Layer, Y: Matrix) {
    && Shaped(layer)
    && IsMatrix(Y, layer.samples, layer.neurons)
    && forall r, c :: 0 <= r < layer.samples && 0 <= c < layer.neurons ==>
         layer.dZ[r][c] == layer.A[r][c] - Y[r][c]
  }

  /** A hidden layer's error: dZ = (dZ[l+1]·W[l+1]ᵀ) ⊙ activation'(Z) */
  predicate HiddenError(layer: Layer, next: Layer, lib: Libm) {
    && Shaped(layer)
    && Shaped(next)
    && next.samples == layer.samples
    && next.neuronsPrevious == layer.neurons
    && forall r, c :: 0 <= r < layer.samples && 0 <= c < layer.neurons ==>
         layer.dZ[r][c] == MulTransposedEntry(next.dZ, next.W, r, c, next.neurons) * ActivateDerivative(layer.Z[r][c], layer.activation, lib)
  }

  /** dW = (1/samples)·inputᵀ·dZ */
  predicate WeightGradient(layer: Layer, input: Matrix) {
    && Shaped(layer)
    && IsMatrix(input, layer.samples, layer.neuronsPrevious)
    && layer.samples >= 1
    && forall i, j :: 0 <= i < layer.neuronsPrevious && 0 <= j < layer.neurons ==>
         layer.dW[i][j] == (1.0 / (layer.samples as real)) * TransposedMulEntry(input, layer.dZ, i, j, layer.samples)
  }

  /** The column means of dZ, the row every row of dB repeats */
  predicate ColumnMeans(db: Vector, layer: Layer) {
    && Shaped(layer)
    && layer.samples >= 1
    && |db| == layer.neurons
    && forall c :: 0 <= c < layer.neurons ==> db[c] == ColumnSum(layer.dZ, c, layer.samples) / (layer.samples as real)
  }

  /** Every row of dB is the row of column means of dZ */
  predicate BiasGradient(layer: Layer) {
    && Shaped(layer)
    && layer.samples >= 1
    && forall r, c :: 0 <= r < layer.samples && 0 <= c < layer.neurons ==>
         layer.dB[r][c] == ColumnSum(layer.dZ, c, layer.samples) / (layer.samples as real)
  }

  /** Layer l holds the gradients backward propagation computes for it */
  predicate Backpropagated(X: Matrix, Y: Matrix, layers: seq<Layer>, l: nat, lib: Libm) {
    && l < |layers|
    && (if l == |layers| - 1 then OutputError(layers[l], Y) else HiddenError(layers[l], layers[l + 1], lib))
    && WeightGradient(layers[l], Input(X, layers, l))
    && BiasGradient(layers[l])
  }

  /** The last layer has `width` neurons */
  predicate EndsWith(layers: seq<Layer>, width: nat) {
    |layers| >= 1 && layers[|layers| - 1].neurons == width
  }

  /** Only the named matrices of the layers may differ; the dimensions, types and activations never do */

  predicate SameArchitecture(layers: seq<Layer>, layers': seq<Layer>) {
    && |layers| == |layers'|
    && forall l :: 0 <= l < |layers| ==>
         && layers'[l].samples == layers[l].samples
         && layers'[l].neuronsPrevious == layers[l].neuronsPrevious
         && layers'[l].neurons == layers[l].neurons
         && layers'[l].layerType == layers[l].layerType
         && layers'[l].activation == layers[l].activation
  }

  /** The layers read their input widths one after the other, starting from `features`, and have a first bias row */
  predicate Linked(layers: seq<Layer>, features: nat) {
    forall l :: 0 <= l < |layers| ==>
      && IsMatrix(layers[l].W, layers[l].neuronsPrevious, layers[l].neurons)
      && layers[l].neuronsPrevious == InputWidth(layers, features, l)
      && |layers[l].B| >= 1 && |layers[l].B[0]| == layers[l].neurons
  }

  /** One layer of prediction on an input of n rows: activation(previous·W + first row of B) */
  function LayerPrediction(layer: Layer, previous: Matrix, n: nat, lib: Libm): (A: Matrix)
    requires IsMatrix(layer.W, layer.neuronsPrevious, layer.neurons)
    requires |layer.B| >= 1 && |layer.B[0]| == layer.neurons
    requires IsMatrix(previous, n, layer.neuronsPrevious)
    ensures IsMatrix(A, n, layer.neurons)
  {
    seq(n, r requires 0 <= r < n =>
      seq(layer.neurons, c requires 0 <= c < layer.neurons =>
        Activate(MulEntry(previous, layer.W, r, c, layer.neuronsPrevious) + layer.B[0][c], layer.activation, lib)))
  }

  /** The output of the first k layers on an input of n rows, computed as prediction does */
  function Predicted(input: Matrix, n: nat, layers: seq<Layer>, features: nat, k: nat, lib: Libm): (A: Matrix)
    requires k <= |layers| && Linked(layers, features) && IsMatrix(input, n, features)
    ensures IsMatrix(A, n, InputWidth(layers, features, k))
    decreases k
  {
    if k == 0 then input
    else LayerPrediction(layers[k - 1], Predicted(input, n, layers, features, k - 1, lib), n, lib)
  }

  /** INT_MAX, the loss training compares the first loss against */
  const InitialLoss: real := IntMax

  /** The loss training reports: the log loss of the flattened targets against the flattened output activations */
  function NetworkLoss(Y: Matrix, A: Matrix, samples: nat, classes: nat, lib: Libm): (loss: real)
    requires IsMatrix(Y, samples, classes) && IsMatrix(A, samples, classes) && samples >= 1 && classes >= 1
    ensures |Flat(Y)| == samples * classes && |Flat(A)| == samples * classes
  {
    FlatLength(Y, samples, classes);
    FlatLength(A, samples, classes);
    MulMonotone(1, samples, classes);
    -1.0 * LogLikelihood(Flat(Y), Flat(A), samples * classes, lib) / ((samples * classes) as real)
  }

  /**
    The progress training prints: one loss per completed iteration that did not stop,
    and whether the convergence test stopped the loop.
   */
  datatype TrainingLog = TrainingLog(losses: seq<real>, stoppedEarly: bool)

  /** The loss an iteration compares against: INT_MAX before the first one, the last reported loss afterwards */
  function PreviousLoss(losses: seq<real>): real {
    if |losses| == 0 then InitialLoss else losses[|losses| - 1]
  }

  /** No iteration after the thousandth passed the convergence test without stopping */
  predicate NeverConverged(losses: seq<real>, threshold: real) {
    forall t :: 1000 < t < |losses| ==> !(losses[t - 1] - losses[t] < threshold)
  }

  /* ---------------------------------------------------------------------------
     The inner sums the routines inline
     --------------------------------------------------------------------------- */

  /** Σ_{q<k} A[i][q]·B[j][q], accumulated in order */
  method AccumulateProductTransposed(A: Matrix, B: Matrix, i: nat, j: nat, k: nat) returns (s: real)
    requires i < |A| && j < |B| && k <= |A[i]| && k <= |B[j]|
    ensures s == MulTransposedEntry(A, B, i, j, k)
  {
    s := 0.0;
    var q := 0;
    while q < k
      invariant 0 <= q <= k
      invariant s == MulTransposedEntry(A, B, i, j, q)
    {
      s := s + A[i][q] * B[j][q];
      q := q + 1;
    }
  }

  /** Σ_{q<k} A[q][i]·B[q][j], accumulated in order */
  method AccumulateTransposedProduct(A: Matrix, B: Matrix, i: nat, j: nat, k: nat) returns (s: real)
    requires k <= |A| && k <= |B|
    requires forall q :: 0 <= q < k ==> i < |A[q]| && j < |B[q]|
    ensures s == TransposedMulEntry(A, B, i, j, k)
  {
    s := 0.0;
    var q := 0;
    while q < k
      invariant 0 <= q <= k
      invariant s == TransposedMulEntry(A, B, i, j, q)
    {
      s := s + A[q][i] * B[q][j];
      q := q + 1;
    }
  }

  /** Column sums only read the rows they sum */
  lemma {:induction false} ColumnSumOfPrefix(A: Matrix, A': Matrix, j: nat, k: nat)
    requires k <= |A| && k <= |A'|
    requires forall q :: 0 <= q < k ==> j < |A[q]| && j < |A'[q]| && A[q][j] == A'[q][j]
    ensures ColumnSum(A, j, k) == ColumnSum(A', j, k)
  {
    if k > 0 {
      ColumnSumOfPrefix(A, A', j, k - 1);
    }
  }

  /** A layer shaped for the samples, fed by the last width and with identical bias rows extends the chain */
  lemma ChainedAppend(layers: seq<Layer>, samples: nat, features: nat, layer: Layer)
    requires Chained(layers, samples, features)
    requires Shaped(layer) && RowsIdentical(layer.B) && layer.samples == samples
    requires layer.neuronsPrevious == InputWidth(layers, features, |layers|)
    ensures Chained(layers + [layer], samples, features)
  {
    var layers' := layers + [layer];
    forall k | 0 <= k < |layers'|
      ensures Fits(layers'[k], samples, InputWidth(layers', features, k))
    {
      if k < |layers| {
        assert layers'[k] == layers[k];
        assert InputWidth(layers', features, k) == InputWidth(layers, features, k);
      }
    }
  }

  /** Replacing a layer by one of the same dimensions with a broadcast bias keeps the layers chained */
  lemma ChainedReplace(layers: seq<Layer>, samples: nat, features: nat, l: nat, layer: Layer)
    requires Chained(layers, samples, features) && l < |layers|
    requires Shaped(layer) && RowsIdentical(layer.B)
    requires layer.samples == layers[l].samples && layer.neuronsPrevious == layers[l].neuronsPrevious
    requires layer.neurons == layers[l].neurons
    ensures Chained(layers[l := layer], samples, features)
  {
    var layers' := layers[l := layer];
    forall k | 0 <= k < |layers'|
      ensures layers'[k].neuronsPrevious == InputWidth(layers', features, k)
    {
      assert InputWidth(layers', features, k) == InputWidth(layers, features, k);
    }
  }

  /** The loops of updateLayerOutputs over the rows and columns of Z and A */
  method LayerOutputs(layer: Layer, input: Matrix, lib: Libm) returns (out: Layer)
    requires Shaped(layer) && IsMatrix(input, layer.samples, layer.neuronsPrevious)
    ensures out == layer.(Z := out.Z, A := out.A)
    ensures Forwarded(out, input, lib)
  {
    var Z: Matrix := [];
    var A: Matrix := [];
    var r := 0;
    while r < layer.samples
      invariant 0 <= r <= layer.samples
      invariant |Z| == r && |A| == r
      invariant forall p :: 0 <= p < r ==> |Z[p]| == layer.neurons && |A[p]| == layer.neurons
      invariant forall p, c :: 0 <= p < r && 0 <= c < layer.neurons ==>
                  && Z[p][c] == MulEntry(input, layer.W, p, c, layer.neuronsPrevious) + layer.B[p][c]
                  && A[p][c] == Activate(Z[p][c], layer.activation, lib)
    {
      var zRow, aRow := RowOutputs(layer, input, r, lib);
      Z := Z + [zRow];
      A := A + [aRow];
      r := r + 1;
    }
    out := layer.(Z := Z, A := A);
  }

  /** One row of updateLayerOutputs: Z[r][c] = Σ input[r][q]·W[q][c] + B[r][c] and A[r][c] = activation(Z[r][c]) */
  method RowOutputs(layer: Layer, input: Matrix, r: nat, lib: Libm) returns (zRow: Vector, aRow: Vector)
    requires Shaped(layer) && IsMatrix(input, layer.samples, layer.neuronsPrevious) && r < layer.samples
    ensures |zRow| == layer.neurons && |aRow| == layer.neurons
    ensures forall c :: 0 <= c < layer.neurons ==>
              && zRow[c] == MulEntry(input, layer.W, r, c, layer.neuronsPrevious) + layer.B[r][c]
              && aRow[c] == Activate(zRow[c], layer.activation, lib)
  {
    zRow := [];
    aRow := [];
    var c := 0;
    while c < layer.neurons
      invariant 0 <= c <= layer.neurons
      invariant |zRow| == c && |aRow| == c
      invariant forall q :: 0 <= q < c ==>
                  && zRow[q] == MulEntry(input, layer.W, r, q, layer.neuronsPrevious) + layer.B[r][q]
                  && aRow[q] == Activate(zRow[q], layer.activation, lib)
    {
      var resultXW := AccumulateProduct(input, layer.W, r, c, layer.neuronsPrevious);
      var z := resultXW + layer.B[r][c];
      zRow := zRow + [z];
      aRow := aRow + [Activate(z, layer.activation, lib)];
      c := c + 1;
    }
  }

  /** The shapes update_dZ reads: Y for the output layer, the next layer otherwise */
  predicate ErrorShapes(layer: Layer, isOutput: bool, Y: Matrix, next: Layer) {
    && Shaped(layer)
    && (isOutput ==> IsMatrix(Y, layer.samples, layer.neurons))
    && (!isOutput ==> Shaped(next) && next.samples == layer.samples && next.neuronsPrevious == layer.neurons)
  }

  /** Entry (r, c) of the layer's error: A - Y for the output layer, the carried-back error otherwise */
  function Error(layer: Layer, isOutput: bool, Y: Matrix, next: Layer, r: nat, c: nat, lib: Libm): real
    requires ErrorShapes(layer, isOutput, Y, next) && r < layer.samples && c < layer.neurons
  {
    if isOutput then layer.A[r][c] - Y[r][c]
    else MulTransposedEntry(next.dZ, next.W, r, c, next.neurons) * ActivateDerivative(layer.Z[r][c], layer.activation, lib)
  }

  /** The first `rows` rows of dZ hold the layer's error */
  predicate ErrorsMatch(dZ: Matrix, layer: Layer, isOutput: bool, Y: Matrix, next: Layer, rows: nat, lib: Libm) {
    && ErrorShapes(layer, isOutput, Y, next)
    && rows <= layer.samples && rows <= |dZ|
    && (forall p :: 0 <= p < rows ==> |dZ[p]| == layer.neurons)
    && forall p, c :: 0 <= p < rows && 0 <= c < layer.neurons ==> dZ[p][c] == Error(layer, isOutput, Y, next, p, c, lib)
  }

  /** db[c] is the sum of the first `rows` entries of column c of dZ */
  predicate PartialColumnSums(db: Vector, dZ: Matrix, rows: nat, columns: nat) {
    && |db| == columns && rows <= |dZ|
    && (forall p :: 0 <= p < rows ==> columns <= |dZ[p]|)
    && forall c :: 0 <= c < columns ==> db[c] == ColumnSum(dZ, c, rows)
  }

  /** Appending a row of errors and adding it to the column sums extends both */
  lemma ErrorsExtend(dZ: Matrix, dzRow: Vector, db: Vector, db': Vector, layer: Layer, isOutput: bool, Y: Matrix, next: Layer, lib: Libm)
    requires |dZ| < layer.samples
    requires ErrorsMatch(dZ, layer, isOutput, Y, next, |dZ|, lib)
    requires PartialColumnSums(db, dZ, |dZ|, layer.neurons)
    requires |dzRow| == layer.neurons && |db'| == layer.neurons
    requires forall c :: 0 <= c < layer.neurons ==> dzRow[c] == Error(layer, isOutput, Y, next, |dZ|, c, lib)
    requires forall c :: 0 <= c < layer.neurons ==> db'[c] == db[c] + dzRow[c]
    ensures ErrorsMatch(dZ + [dzRow], layer, isOutput, Y, next, |dZ| + 1, lib)
    ensures PartialColumnSums(db', dZ + [dzRow], |dZ| + 1, layer.neurons)
  {
    var r := |dZ|;
    var dZ' := dZ + [dzRow];
    assert forall p :: 0 <= p < r ==> dZ'[p] == dZ[p];
    assert dZ'[r] == dzRow;
    forall c | 0 <= c < layer.neurons
      ensures db'[c] == ColumnSum(dZ', c, r + 1)
    {
      ColumnSumOfPrefix(dZ, dZ', c, r);
    }
  }

  /**
    update_dZ: the error of the layer (A - Y for the output layer, the error
    of the next layer carried back through its weights otherwise) and, accumulated in the
    same pass, the column means of that error.
   */
  method UpdateDZ(layer: Layer, isOutput: bool, Y: Matrix, next: Layer, lib: Libm) returns (out: Layer, db: Vector)
    requires Shaped(layer) && layer.samples >= 1
    requires isOutput ==> IsMatrix(Y, layer.samples, layer.neurons)
    requires !isOutput ==> Shaped(next) && next.samples == layer.samples && next.neuronsPrevious == layer.neurons
    ensures out == layer.(dZ := out.dZ)
    ensures Shaped(out)
    ensures isOutput ==> OutputError(out, Y)
    ensures !isOutput ==> HiddenError(out, next, lib)
    ensures ColumnMeans(db, out)
  {
    db := InitZeroVector(layer.neurons);
    var dZ: Matrix := [];
    while |dZ| < layer.samples
      invariant |dZ| <= layer.samples
      invariant ErrorsMatch(dZ, layer, isOutput, Y, next, |dZ|, lib)
      invariant PartialColumnSums(db, dZ, |dZ|, layer.neurons)
      decreases layer.samples - |dZ|
    {
      var dzRow, db' := ErrorRow(layer, isOutput, Y, next, |dZ|, db, lib);
      ErrorsExtend(dZ, dzRow, db, db', layer, isOutput, Y, next, lib);
      dZ := dZ + [dzRow];
      db := db';
    }
    ErrorsComplete(dZ, layer, isOutput, Y, next, lib);
    var sums := db;
    db := DivideEach(sums, layer.samples);
    MeansOfSums(sums, db, dZ, layer);
    out := layer.(dZ := dZ);
  }

  /** Errors in every row make the layer's dZ its error */
  lemma ErrorsComplete(dZ: Matrix, layer: Layer, isOutput: bool, Y: Matrix, next: Layer, lib: Libm)
    requires |dZ| == layer.samples && ErrorsMatch(dZ, layer, isOutput, Y, next, layer.samples, lib)
    ensures Shaped(layer.(dZ := dZ))
    ensures isOutput ==> OutputError(layer.(dZ := dZ), Y)
    ensures !isOutput ==> HiddenError(layer.(dZ := dZ), next, lib)
  {
  }

  /** Dividing the column sums of all rows by the number of samples gives the column means */
  lemma MeansOfSums(sums: Vector, means: Vector, dZ: Matrix, layer: Layer)
    requires Shaped(layer.(dZ := dZ)) && layer.samples >= 1 && |dZ| == layer.samples
    requires PartialColumnSums(sums, dZ, layer.samples, layer.neurons)
    requires |means| == |sums| && forall c :: 0 <= c < |sums| ==> means[c] == sums[c] / (layer.samples as real)
    ensures ColumnMeans(means, layer.(dZ := dZ))
  {
  }

  /** The final loop of update_dZ: every column sum divided by the number of samples */
  method DivideEach(sums: Vector, samples: nat) returns (means: Vector)
    requires samples >= 1
    ensures |means| == |sums|
    ensures forall c :: 0 <= c < |sums| ==> means[c] == sums[c] / (samples as real)
  {
    means := sums;
    var i := 0;
    while i < |sums|
      invariant 0 <= i <= |sums| && |means| == |sums|
      invariant forall c :: 0 <= c < i ==> means[c] == sums[c] / (samples as real)
      invariant forall c :: i <= c < |sums| ==> means[c] == sums[c]
    {
      means := means[i := means[i] / (samples as real)];
      i := i + 1;
    }
  }

  /** One row of update_dZ: the errors dZ[r][c] and db[c] += dZ[r][c] */
  method ErrorRow(layer: Layer, isOutput: bool, Y: Matrix, next: Layer, r: nat, db: Vector, lib: Libm)
    returns (dzRow: Vector, db': Vector)
    requires ErrorShapes(layer, isOutput, Y, next) && r < layer.samples && |db| == layer.neurons
    ensures |dzRow| == layer.neurons && |db'| == layer.neurons
    ensures forall c :: 0 <= c < layer.neurons ==> dzRow[c] == Error(layer, isOutput, Y, next, r, c, lib)
    ensures forall c :: 0 <= c < layer.neurons ==> db'[c] == db[c] + dzRow[c]
  {
    dzRow := [];
    db' := db;
    var c := 0;
    while c < layer.neurons
      invariant 0 <= c <= layer.neurons
      invariant |dzRow| == c && |db'| == layer.neurons
      invariant forall q :: 0 <= q < c ==> dzRow[q] == Error(layer, isOutput, Y, next, r, q, lib)
      invariant forall q :: 0 <= q < c ==> db'[q] == db[q] + dzRow[q]
      invariant forall q :: c <= q < layer.neurons ==> db'[q] == db[q]
    {
      var dz;
      if isOutput {
        dz := layer.A[r][c] - Y[r][c];
      } else {
        var dZlp1xWlp1T := AccumulateProductTransposed(next.dZ, next.W, r, c, next.neurons);
        dz := dZlp1xWlp1T * ActivateDerivative(layer.Z[r][c], layer.activation, lib);
      }
      dzRow := dzRow + [dz];
      db' := db'[c := db'[c] + dz];
      c := c + 1;
    }
  }

  /** update_dW: dW[i][j] = (1/samples)·Σ_q input[q][i]·dZ[q][j] */
  method UpdateDW(layer: Layer, input: Matrix) returns (out: Layer)
    requires Shaped(layer) && IsMatrix(input, layer.samples, layer.neuronsPrevious) && layer.samples >= 1
    ensures out == layer.(dW := out.dW)
    ensures WeightGradient(out, input)
  {
    var dW: Matrix := [];
    var i := 0;
    while i < layer.neuronsPrevious
      invariant 0 <= i <= layer.neuronsPrevious
      invariant |dW| == i
      invariant forall p :: 0 <= p < i ==> |dW[p]| == layer.neurons
      invariant forall p, j :: 0 <= p < i && 0 <= j < layer.neurons ==>
                  dW[p][j] == (1.0 / (layer.samples as real)) * TransposedMulEntry(input, layer.dZ, p, j, layer.samples)
    {
      var row: Vector := [];
      var j := 0;
      while j < layer.neurons
        invariant 0 <= j <= layer.neurons
        invariant |row| == j
        invariant forall q :: 0 <= q < j ==>
                    row[q] == (1.0 / (layer.samples as real)) * TransposedMulEntry(input, layer.dZ, i, q, layer.samples)
      {
        var product := AccumulateTransposedProduct(input, layer.dZ, i, j, layer.samples);
        row := row + [(1.0 / (layer.samples as real)) * product];
        j := j + 1;
      }
      dW := dW + [row];
      i := i + 1;
    }
    out := layer.(dW := dW);
  }

  /** update_dB: every row of dB becomes db */
  method UpdateDB(layer: Layer, db: Vector) returns (out: Layer)
    requires Shaped(layer) && |db| == layer.neurons
    ensures out == layer.(dB := out.dB)
    ensures Shaped(out)
    ensures forall r, c :: 0 <= r < layer.samples && 0 <= c < layer.neurons ==> out.dB[r][c] == db[c]
  {
    var dB: Matrix := [];
    var r := 0;
    while r < layer.samples
      invariant 0 <= r <= layer.samples
      invariant |dB| == r
      invariant forall p :: 0 <= p < r ==> dB[p] == db
    {
      var row: Vector := [];
      var c := 0;
      while c < layer.neurons
        invariant 0 <= c <= layer.neurons
        invariant row == db[..c]
      {
        row := row + [db[c]];
        c := c + 1;
      }
      dB := dB + [row];
      r := r + 1;
    }
    out := layer.(dB := dB);
  }

  /** Replacing dW and dB keeps the error of the layer */
  lemma ErrorKept(layer: Layer, layer': Layer, isOutput: bool, Y: Matrix, next: Layer, lib: Libm)
    requires Shaped(layer') && layer' == layer.(dW := layer'.dW, dB := layer'.dB)
    requires isOutput ==> OutputError(layer, Y)
    requires !isOutput ==> HiddenError(layer, next, lib)
    ensures isOutput ==> OutputError(layer', Y)
    ensures !isOutput ==> HiddenError(layer', next, lib)
  {
    assert layer'.dZ == layer.dZ && layer'.Z == layer.Z && layer'.A == layer.A;
  }

  /** Replacing dB keeps the weight gradient */
  lemma WeightGradientKept(layer: Layer, layer': Layer, input: Matrix)
    requires WeightGradient(layer, input) && Shaped(layer')
    requires layer' == layer.(dB := layer'.dB)
    ensures WeightGradient(layer', input)
  {
    forall i, j | 0 <= i < layer.neuronsPrevious && 0 <= j < layer.neurons
      ensures layer'.dW[i][j] == (1.0 / (layer.samples as real)) * TransposedMulEntry(input, layer'.dZ, i, j, layer.samples)
    {
      assert layer'.dZ == layer.dZ && layer'.dW == layer.dW;
    }
  }

  /** The two sequences of layers differ at most in their Z and A */
  predicate OnlyOutputsChanged(layers: seq<Layer>, layers': seq<Layer>) {
    && |layers'| == |layers|
    && forall k :: 0 <= k < |layers| ==> layers'[k] == layers[k].(Z := layers'[k].Z, A := layers'[k].A)
  }

  /** Layer k differs at most in its W and B */
  predicate ParametersChangedAt(layers: seq<Layer>, layers': seq<Layer>, k: nat)
    requires k < |layers| && k < |layers'|
  {
    layers'[k] == layers[k].(W := layers'[k].W, B := layers'[k].B)
  }

  /** The two sequences of layers differ at most in their W and B */
  predicate OnlyParametersChanged(layers: seq<Layer>, layers': seq<Layer>) {
    && |layers'| == |layers|
    && forall k :: 0 <= k < |layers| ==> ParametersChangedAt(layers, layers', k)
  }

  /** Changing only W and B keeps the activations of the output layer */
  lemma OutputActivationKept(layers: seq<Layer>, layers': seq<Layer>)
    requires OnlyParametersChanged(layers, layers') && |layers| >= 1
    ensures layers'[|layers'| - 1].A == layers[|layers| - 1].A
  {
    assert ParametersChangedAt(layers, layers', |layers| - 1);
  }

  /** Changing the W and B of one more layer still changes only W and B */
  lemma ParametersChangedExtend(layers: seq<Layer>, middle: seq<Layer>, layers': seq<Layer>, l: nat)
    requires OnlyParametersChanged(layers, middle) && l < |middle| == |layers'|
    requires layers' == middle[l := layers'[l]] && layers'[l] == middle[l].(W := layers'[l].W, B := layers'[l].B)
    ensures OnlyParametersChanged(layers, layers')
  {
    forall k | 0 <= k < |layers|
      ensures ParametersChangedAt(layers, layers', k)
    {
      assert ParametersChangedAt(layers, middle, k);
      if k != l {
        assert layers'[k] == middle[k];
      }
    }
  }

  /** The two sequences of layers differ at most in their dZ, dW and dB */
  predicate OnlyGradientsChanged(layers: seq<Layer>, layers': seq<Layer>) {
    && |layers'| == |layers|
    && forall k :: 0 <= k < |layers| ==>
         layers'[k] == layers[k].(dZ := layers'[k].dZ, dW := layers'[k].dW, dB := layers'[k].dB)
  }

  lemma OnlyGradientsChangedStep(layers: seq<Layer>, middle: seq<Layer>, layers': seq<Layer>, l: nat)
    requires OnlyGradientsChanged(layers, middle) && l < |middle|
    requires |layers'| == |middle| && layers' == middle[l := layers'[l]]
    requires layers'[l] == middle[l].(dZ := layers'[l].dZ, dW := layers'[l].dW, dB := layers'[l].dB)
    ensures OnlyGradientsChanged(layers, layers')
  {
  }

  /** Every layer from l on holds its gradients */
  predicate BackpropagatedFrom(X: Matrix, Y: Matrix, layers: seq<Layer>, l: nat, lib: Libm) {
    forall k :: l <= k < |layers| ==> Backpropagated(X, Y, layers, k, lib)
  }

  /** Replacing the gradients of layer l, now holding its own, extends the backpropagated suffix to l */
  lemma BackpropagatedAbove(X: Matrix, Y: Matrix, layers: seq<Layer>, layers': seq<Layer>, l: nat, lib: Libm)
    requires BackpropagatedFrom(X, Y, layers, l + 1, lib)
    requires l < |layers| == |layers'| && layers' == layers[l := layers'[l]] && layers'[l].A == layers[l].A
    requires Backpropagated(X, Y, layers', l, lib)
    ensures BackpropagatedFrom(X, Y, layers', l, lib)
  {
    forall k | l < k < |layers'|
      ensures Backpropagated(X, Y, layers', k, lib)
    {
      BackpropagatedFrame(X, Y, layers, layers', k, lib);
    }
  }

  /** Backpropagated(l) only reads layer l, the A of layer l - 1 and layer l + 1 */
  lemma BackpropagatedFrame(X: Matrix, Y: Matrix, layers: seq<Layer>, layers': seq<Layer>, k: nat, lib: Libm)
    requires Backpropagated(X, Y, layers, k, lib)
    requires |layers'| == |layers| && layers'[k] == layers[k]
    requires k + 1 < |layers| ==> layers'[k + 1] == layers[k + 1]
    requires k > 0 ==> layers'[k - 1].A == layers[k - 1].A
    ensures Backpropagated(X, Y, layers', k, lib)
  {
    assert Input(X, layers', k) == Input(X, layers, k);
  }

  /** Chained layers over at least one sample are linked for prediction */
  lemma ChainedLinked(layers: seq<Layer>, samples: nat, features: nat)
    requires Chained(layers, samples, features) && samples >= 1
    ensures Linked(layers, features)
  {
  }

  /** The loop of predictANN over linked layers: each layer's prediction feeds the next */
  method PredictLayers(input: Matrix, n: nat, layers: seq<Layer>, features: nat, lib: Libm) returns (A: Matrix)
    requires Linked(layers, features) && IsMatrix(input, n, features)
    ensures A == Predicted(input, n, layers, features, |layers|, lib)
  {
    A := input;
    var l := 0;
    while l < |layers|
      invariant 0 <= l <= |layers|
      invariant A == Predicted(input, n, layers, features, l, lib)
    {
      PredictedStep(input, n, layers, features, l, lib);
      A := PredictLayer(layers[l], A, n, lib);
      l := l + 1;
    }
  }

  /** Layer l of linked layers can read the output of the layers before it, and its prediction is the next output */
  lemma PredictedStep(input: Matrix, n: nat, layers: seq<Layer>, features: nat, l: nat, lib: Libm)
    requires Linked(layers, features) && IsMatrix(input, n, features) && l < |layers|
    ensures IsMatrix(layers[l].W, layers[l].neuronsPrevious, layers[l].neurons)
    ensures |layers[l].B| >= 1 && |layers[l].B[0]| == layers[l].neurons
    ensures IsMatrix(Predicted(input, n, layers, features, l, lib), n, layers[l].neuronsPrevious)
    ensures Predicted(input, n, layers, features, l + 1, lib) ==
              LayerPrediction(layers[l], Predicted(input, n, layers, features, l, lib), n, lib)
  {
  }

  /** One layer of predictANN: A_l[r][c] = activation(Σ_q A[r][q]·W[q][c] + B[0][c]) */
  method PredictLayer(layer: Layer, A: Matrix, n: nat, lib: Libm) returns (Al: Matrix)
    requires IsMatrix(layer.W, layer.neuronsPrevious, layer.neurons)
    requires |layer.B| >= 1 && |layer.B[0]| == layer.neurons
    requires IsMatrix(A, n, layer.neuronsPrevious)
    ensures Al == LayerPrediction(layer, A, n, lib)
  {
    ghost var P := LayerPrediction(layer, A, n, lib);
    Al := [];
    var r := 0;
    while r < n
      invariant 0 <= r <= n && Al == P[..r]
    {
      var row := PredictRow(layer, A, n, r, lib);
      Al := Al + [row];
      r := r + 1;
    }
    assert P[..n] == P;
  }

  /** The inner loop of predictANN: row r of the layer's prediction, column by column */
  method PredictRow(layer: Layer, A: Matrix, n: nat, r: nat, lib: Libm) returns (row: Vector)
    requires IsMatrix(layer.W, layer.neuronsPrevious, layer.neurons)
    requires |layer.B| >= 1 && |layer.B[0]| == layer.neurons
    requires IsMatrix(A, n, layer.neuronsPrevious) && r < n
    ensures row == LayerPrediction(layer, A, n, lib)[r]
  {
    ghost var P := LayerPrediction(layer, A, n, lib)[r];
    row := [];
    var c := 0;
    while c < layer.neurons
      invariant 0 <= c <= layer.neurons && row == P[..c]
    {
      var XW := AccumulateProduct(A, layer.W, r, c, layer.neuronsPrevious);
      row := row + [Activate(XW + layer.B[0][c], layer.activation, lib)];
      c := c + 1;
    }
    assert P[..layer.neurons] == P;
  }

  /** For one forwarded layer whose bias rows are identical, predicting from its input gives its A */
  lemma LayerPredictionMatchesForward(layer: Layer, input: Matrix, lib: Libm)
    requires Forwarded(layer, input, lib) && RowsIdentical(layer.B) && layer.samples >= 1
    ensures LayerPrediction(layer, input, layer.samples, lib) == layer.A
  {
    var P := LayerPrediction(layer, input, layer.samples, lib);
    forall r, c | 0 <= r < layer.samples && 0 <= c < layer.neurons
      ensures P[r][c] == layer.A[r][c]
    {
      var z := MulEntry(input, layer.W, r, c, layer.neuronsPrevious);
      assert P[r][c] == Activate(z + layer.B[0][c], layer.activation, lib);
      assert layer.Z[r][c] == z + layer.B[r][c];
      assert layer.B[r] == layer.B[0];
    }
    MatrixExtensionality(P, layer.A, layer.samples, layer.neurons);
  }

  /**
    On the training inputs, after a forward pass, prediction reproduces the forward pass:
    the output of the first k layers is the A of layer k - 1. Prediction adds the first
    bias row to every sample where the forward pass adds row r to sample r; the two agree
    because every bias matrix has identical rows.
   */
  lemma {:induction false} PredictionMatchesForward(X: Matrix, layers: seq<Layer>, samples: nat, features: nat, k: nat, lib: Libm)
    requires Chained(layers, samples, features) && IsMatrix(X, samples, features) && samples >= 1
    requires AllForwarded(X, layers, lib)
    requires 1 <= k <= |layers|
    ensures Linked(layers, features)
    ensures Predicted(X, samples, layers, features, k, lib) == layers[k - 1].A
  {
    ChainedLinked(layers, samples, features);
    if k > 1 {
      PredictionMatchesForward(X, layers, samples, features, k - 1, lib);
    }
    var previous := Predicted(X, samples, layers, features, k - 1, lib);
    assert previous == Input(X, layers, k - 1);
    assert ForwardedAt(X, layers, k - 1, lib);
    LayerPredictionMatchesForward(layers[k - 1], previous, lib);
  }

  /** After a forward pass over X, prediction on X reproduces the output layer's A */
  lemma OutputMatchesForward(X: Matrix, layers: seq<Layer>, samples: nat, features: nat, lib: Libm)
    requires Chained(layers, samples, features) && IsMatrix(X, samples, features) && samples >= 1
    requires AllForwarded(X, layers, lib) && |layers| >= 1
    ensures Linked(layers, features)
    ensures Predicted(X, samples, layers, features, |layers|, lib) == layers[|layers| - 1].A
  {
    PredictionMatchesForward(X, layers, samples, features, |layers|, lib);
  }

  /** One layer predicts alike from the same input when its W, B, widths and activation agree */
  lemma LayerPredictionKept(layer: Layer, layer': Layer, previous: Matrix, n: nat, lib: Libm)
    requires IsMatrix(layer.W, layer.neuronsPrevious, layer.neurons)
    requires |layer.B| >= 1 && |layer.B[0]| == layer.neurons
    requires IsMatrix(previous, n, layer.neuronsPrevious)
    requires layer'.W == layer.W && layer'.B == layer.B && layer'.activation == layer.activation
    requires layer'.neuronsPrevious == layer.neuronsPrevious && layer'.neurons == layer.neurons
    ensures LayerPrediction(layer', previous, n, lib) == LayerPrediction(layer, previous, n, lib)
  {
    var P, P' := LayerPrediction(layer, previous, n, lib), LayerPrediction(layer', previous, n, lib);
    forall r, c | 0 <= r < n && 0 <= c < layer.neurons
      ensures P'[r][c] == P[r][c]
    {
    }
    MatrixExtensionality(P', P, n, layer.neurons);
  }

  /** Layers that agree on W, B and the architecture are linked alike */
  lemma LinkedKept(layers: seq<Layer>, layers': seq<Layer>, features: nat)
    requires ParametersKept(layers, layers') && SameArchitecture(layers, layers') && Linked(layers, features)
    ensures Linked(layers', features)
  {
    forall l | 0 <= l < |layers'|
      ensures layers'[l].neuronsPrevious == InputWidth(layers', features, l)
    {
      assert layers'[l].neuronsPrevious == InputWidth(layers, features, l);
    }
  }

  /**
    Prediction reads nothing but W, B and the architecture: layers that agree on those
    (whatever their Z, A and gradients) predict alike.
   */
  lemma {:induction false} PredictionKept(input: Matrix, n: nat, layers: seq<Layer>, layers': seq<Layer>, features: nat, k: nat, lib: Libm)
    requires ParametersKept(layers, layers') && SameArchitecture(layers, layers')
    requires Linked(layers, features) && IsMatrix(input, n, features) && k <= |layers|
    ensures Linked(layers', features)
    ensures Predicted(input, n, layers', features, k, lib) == Predicted(input, n, layers, features, k, lib)
  {
    LinkedKept(layers, layers', features);
    if k > 0 {
      PredictionKept(input, n, layers, layers', features, k - 1, lib);
      var previous := Predicted(input, n, layers, features, k - 1, lib);
      LayerPredictionKept(layers[k - 1], layers'[k - 1], previous, n, lib);
    }
  }

  /** Backward propagation leaves every layer forwarded: it changes no Z, A, W or B */
  lemma ForwardedKept(X: Matrix, layers: seq<Layer>, layers': seq<Layer>, samples: nat, features: nat, lib: Libm)
    requires OnlyGradientsChanged(layers, layers') && Chained(layers', samples, features)
    requires AllForwarded(X, layers, lib)
    ensures AllForwarded(X, layers', lib)
  {
    forall l | 0 <= l < |layers'|
      ensures ForwardedAt(X, layers', l, lib)
    {
      assert ForwardedAt(X, layers, l, lib);
      assert Input(X, layers', l) == Input(X, layers, l);
      assert Fits(layers'[l], samples, InputWidth(layers', features, l));
    }
  }

  /** The output layer of `layers` holds what prediction computes on X from the layers `start` */
  predicate OutputPredicted(X: Matrix, samples: nat, start: seq<Layer>, layers: seq<Layer>, features: nat, lib: Libm) {
    && IsMatrix(X, samples, features) && Linked(start, features)
    && 1 <= |layers| == |start|
    && layers[|layers| - 1].A == Predicted(X, samples, start, features, |start|, lib)
  }

  /** The output layer holds the prediction of `start` when it holds that of `layers` and the two predict alike */
  lemma OutputPredictedAlike(X: Matrix, start: seq<Layer>, layers: seq<Layer>, samples: nat, features: nat, lib: Libm)
    requires Linked(start, features) && Linked(layers, features) && IsMatrix(X, samples, features) && 1 <= |layers| == |start|
    requires Predicted(X, samples, layers, features, |layers|, lib) == layers[|layers| - 1].A
    requires Predicted(X, samples, layers, features, |layers|, lib) == Predicted(X, samples, start, features, |layers|, lib)
    ensures OutputPredicted(X, samples, start, layers, features, lib)
  {
  }

  /** Changing anything but the output layer's A keeps the output predicted */
  lemma OutputPredictedKept(X: Matrix, samples: nat, start: seq<Layer>, layers: seq<Layer>, layers': seq<Layer>, features: nat, lib: Libm)
    requires OutputPredicted(X, samples, start, layers, features, lib)
    requires |layers'| == |layers| && layers'[|layers'| - 1].A == layers[|layers| - 1].A
    ensures OutputPredicted(X, samples, start, layers', features, lib)
  {
  }

  /** The loss of an output layer that holds the prediction of `start` is the prediction loss of `start` */
  lemma OutputLoss(X: Matrix, Y: Matrix, start: seq<Layer>, layers: seq<Layer>, samples: nat, features: nat, classes: nat, lib: Libm)
    requires OutputPredicted(X, samples, start, layers, features, lib)
    requires IsMatrix(Y, samples, classes) && samples >= 1 && classes >= 1 && EndsWith(start, classes)
    ensures Linked(start, features) && IsMatrix(layers[|layers| - 1].A, samples, classes)
    ensures NetworkLoss(Y, layers[|layers| - 1].A, samples, classes, lib) == PredictionLoss(X, Y, start, samples, features, classes, lib)
  {
  }

  /**
    The parameter update that follows the propagations keeps the architecture and the output
    layer, completing one iteration of training from `start`.
   */
  lemma PropagatedAndUpdated(X: Matrix, Y: Matrix, start: seq<Layer>, propagated: seq<Layer>, layers: seq<Layer>,
                             before: seq<OptimizerState>, after: seq<OptimizerState>,
                             samples: nat, features: nat, classes: nat, lib: Libm)
    requires SameArchitecture(start, propagated) && ParametersKept(start, propagated) && EndsWith(start, classes)
    requires AllForwarded(X, propagated, lib) && BackpropagatedFrom(X, Y, propagated, 0, lib)
    requires OutputPredicted(X, samples, start, propagated, features, lib)
    requires OnlyParametersChanged(propagated, layers)
    requires |before| == |after| == 2 * |layers| && SteppedUpTo(layers, before, after, |layers|, lib)
    ensures SameArchitecture(start, layers) && EndsWith(layers, classes)
    ensures Iterated(X, Y, start, propagated, layers, before, after, lib)
    ensures OutputPredicted(X, samples, start, layers, features, lib)
  {
    ArchitectureReflexive(propagated);
    ArchitectureKept(propagated, propagated, layers);
    ArchitectureTransitive(start, propagated, layers);
    LastWidthKept(start, layers, classes);
    OutputActivationKept(propagated, layers);
    OutputPredictedKept(X, samples, start, propagated, layers, features, lib);
  }

  /**
    After a forward pass, the output layer holds what prediction computes from any layers
    with the same parameters and architecture.
   */
  lemma PropagatedPrediction(X: Matrix, start: seq<Layer>, layers: seq<Layer>, samples: nat, features: nat, lib: Libm)
    requires IsMatrix(X, samples, features) && |layers| >= 1
    requires Linked(layers, features) && Predicted(X, samples, layers, features, |layers|, lib) == layers[|layers| - 1].A
    requires Linked(start, features) && ParametersKept(start, layers) && SameArchitecture(start, layers)
    ensures OutputPredicted(X, samples, start, layers, features, lib)
  {
    PredictionKept(X, samples, start, layers, features, |layers|, lib);
    OutputPredictedAlike(X, start, layers, samples, features, lib);
  }

  /**
    One forward and one backward propagation keep the parameters and the architecture of
    the layers they start from, leave every layer forwarded, and leave in the output layer
    what prediction computes from the starting layers.
   */
  lemma Propagated(X: Matrix, start: seq<Layer>, forwarded: seq<Layer>, layers: seq<Layer>, samples: nat, features: nat, lib: Libm)
    requires IsMatrix(X, samples, features) && samples >= 1
    requires Chained(start, samples, features) && Chained(layers, samples, features) && |start| >= 1
    requires OnlyOutputsChanged(start, forwarded)
    requires forall l :: 0 <= l < |forwarded| ==> Forwarded(forwarded[l], Input(X, forwarded, l), lib)
    requires OnlyGradientsChanged(forwarded, layers)
    ensures SameArchitecture(start, layers) && ParametersKept(start, layers)
    ensures AllForwarded(X, layers, lib)
    ensures OutputPredicted(X, samples, start, layers, features, lib)
  {
    ArchitectureReflexive(start);
    ArchitectureKept(start, start, forwarded);
    ArchitectureKept(start, forwarded, layers);
    PropagationKeepsParameters(start, forwarded, layers);
    assert AllForwarded(X, forwarded, lib) by {
      forall l | 0 <= l < |forwarded|
        ensures ForwardedAt(X, forwarded, l, lib)
      {
      }
    }
    ForwardedKept(X, forwarded, layers, samples, features, lib);
    ChainedLinked(start, samples, features);
    OutputMatchesForward(X, layers, samples, features, lib);
    PropagatedPrediction(X, start, layers, samples, features, lib);
  }

  /** Every dB of layers that hold their gradients has identical rows */
  lemma GradientBiasRowsIdentical(X: Matrix, Y: Matrix, layers: seq<Layer>, lib: Libm)
    requires BackpropagatedFrom(X, Y, layers, 0, lib)
    ensures forall l :: 0 <= l < |layers| ==> RowsIdentical(layers[l].dB)
  {
    forall l | 0 <= l < |layers|
      ensures RowsIdentical(layers[l].dB)
    {
      var layer := layers[l];
      assert Backpropagated(X, Y, layers, l, lib);
      forall r | 0 <= r < |layer.dB|
        ensures layer.dB[r] == layer.dB[0]
      {
        forall c | 0 <= c < layer.neurons
          ensures layer.dB[r][c] == layer.dB[0][c]
        {
          assert layer.dB[r][c] == ColumnSum(layer.dZ, c, layer.samples) / (layer.samples as real);
          assert layer.dB[0][c] == ColumnSum(layer.dZ, c, layer.samples) / (layer.samples as real);
        }
      }
    }
  }

  /* ---------------------------------------------------------------------------
     The optimizers of training
     --------------------------------------------------------------------------- */

  /** The objects an optimizer owns or borrows */
  ghost function Footprint(optimizer: Adam): set<object> {
    {optimizer, optimizer.w, optimizer.m, optimizer.v}
  }

  ghost function Footprints(optimizers: seq<Adam>): set<object> {
    set k, o | 0 <= k < |optimizers| && o in Footprint(optimizers[k]) :: o
  }

  /** No two optimizers share an object */
  ghost predicate Separate(optimizers: seq<Adam>) {
    forall i, j :: 0 <= i < |optimizers| && 0 <= j < |optimizers| && i != j ==>
      Footprint(optimizers[i]) !! Footprint(optimizers[j])
  }

  /**
    The optimizers of one layer: each is valid, they share nothing, the first works on the
    row-major flattening of W and the second on that of B; like B, both moments of the
    second have identical rows when read as samples x neurons matrices.
   */
  ghost predicate TracksLayer(layer: Layer, wOptimizer: Adam, bOptimizer: Adam)
    reads wOptimizer, wOptimizer.w, wOptimizer.m, wOptimizer.v, bOptimizer, bOptimizer.w, bOptimizer.m, bOptimizer.v
  {
    && wOptimizer.Valid() && bOptimizer.Valid()
    && Footprint(wOptimizer) !! Footprint(bOptimizer)
    && wOptimizer.n == layer.neuronsPrevious * layer.neurons
    && wOptimizer.w[..] == Flat(layer.W)
    && bOptimizer.n == layer.samples * layer.neurons
    && bOptimizer.w[..] == Flat(layer.B)
    && BroadcastRows(bOptimizer.m[..], layer.samples, layer.neurons)
    && BroadcastRows(bOptimizer.v[..], layer.samples, layer.neurons)
  }

  /** The optimizers only look at W, B and the dimensions of the layer */
  lemma TracksLayerKept(layer: Layer, layer': Layer, wOptimizer: Adam, bOptimizer: Adam)
    requires TracksLayer(layer, wOptimizer, bOptimizer)
    requires layer'.W == layer.W && layer'.B == layer.B
    requires layer'.samples == layer.samples && layer'.neuronsPrevious == layer.neuronsPrevious && layer'.neurons == layer.neurons
    ensures TracksLayer(layer', wOptimizer, bOptimizer)
  {
  }

  /** Layer k is tracked by the optimizers at 2k and 2k + 1 */
  ghost predicate LayerTracked(layers: seq<Layer>, optimizers: seq<Adam>, k: nat)
    requires k < |layers| && 2 * k + 1 < |optimizers|
    reads Footprint(optimizers[2 * k]), Footprint(optimizers[2 * k + 1])
  {
    TracksLayer(layers[k], optimizers[2 * k], optimizers[2 * k + 1])
  }

  /** The optimizers of the first n layers track them */
  ghost predicate TracksLayers(layers: seq<Layer>, optimizers: seq<Adam>, n: nat)
    requires n <= |layers| && 2 * n <= |optimizers|
    reads Footprints(optimizers)
  {
    forall k :: 0 <= k < n ==>
      (FootprintWithin(optimizers, 2 * k);
       FootprintWithin(optimizers, 2 * k + 1);
       LayerTracked(layers, optimizers, k))
  }

  /** Layer l and every other layer tracked: all layers are */
  lemma TracksLayersIntro(layers: seq<Layer>, optimizers: seq<Adam>, l: nat)
    requires l < |layers| && |optimizers| == 2 * |layers|
    requires LayerTracked(layers, optimizers, l)
    requires forall k :: 0 <= k < |layers| && k != l ==> LayerTracked(layers, optimizers, k)
    ensures TracksLayers(layers, optimizers, |layers|)
  {
  }

  lemma FootprintWithin(optimizers: seq<Adam>, k: nat)
    requires k < |optimizers|
    ensures Footprint(optimizers[k]) <= Footprints(optimizers)
  {
  }

  /** Two more optimizers that share nothing with the others keep the sequence separate */
  lemma AppendOptimizers(optimizers: seq<Adam>, a: Adam, b: Adam)
    requires Separate(optimizers) && Footprint(a) !! Footprint(b)
    requires Footprint(a) !! Footprints(optimizers) && Footprint(b) !! Footprints(optimizers)
    ensures Separate(optimizers + [a, b])
    ensures Footprints(optimizers + [a, b]) == Footprints(optimizers) + Footprint(a) + Footprint(b)
  {
    var all := optimizers + [a, b];
    forall i, j | 0 <= i < |all| && 0 <= j < |all| && i != j
      ensures Footprint(all[i]) !! Footprint(all[j])
    {
      if i < |optimizers| {
        assert Footprint(all[i]) <= Footprints(optimizers);
      }
      if j < |optimizers| {
        assert Footprint(all[j]) <= Footprints(optimizers);
      }
    }
    forall o | o in Footprints(all)
      ensures o in Footprints(optimizers) + Footprint(a) + Footprint(b)
    {
      var k :| 0 <= k < |all| && o in Footprint(all[k]);
      if k < |optimizers| {
        assert all[k] == optimizers[k];
      }
    }
    forall o | o in Footprints(optimizers)
      ensures o in Footprints(all)
    {
      var k :| 0 <= k < |optimizers| && o in Footprint(optimizers[k]);
      assert all[k] == optimizers[k];
    }
    assert a == all[|optimizers|] && b == all[|optimizers| + 1];
  }

  /** The first n layers, tracked before, stay tracked with two more optimizers for layer n */
  lemma AppendTracksLayers(layers: seq<Layer>, optimizers: seq<Adam>, n: nat, a: Adam, b: Adam)
    requires n < |layers| && |optimizers| == 2 * n
    requires TracksLayers(layers, optimizers, n) && TracksLayer(layers[n], a, b)
    ensures TracksLayers(layers, optimizers + [a, b], n + 1)
  {
    var all := optimizers + [a, b];
    forall k | 0 <= k < n + 1
      ensures LayerTracked(layers, all, k)
    {
      if k < n {
        assert LayerTracked(layers, optimizers, k);
        assert all[2 * k] == optimizers[2 * k] && all[2 * k + 1] == optimizers[2 * k + 1];
      }
    }
  }

  /** Two distinct layers own four pairwise separate optimizers */
  lemma SeparateLayers(optimizers: seq<Adam>, k: nat, l: nat)
    requires Separate(optimizers) && k != l && k < |optimizers| / 2 && l < |optimizers| / 2
    ensures Footprint(optimizers[2 * k]) !! Footprint(optimizers[2 * l])
    ensures Footprint(optimizers[2 * k]) !! Footprint(optimizers[2 * l + 1])
    ensures Footprint(optimizers[2 * k + 1]) !! Footprint(optimizers[2 * l])
    ensures Footprint(optimizers[2 * k + 1]) !! Footprint(optimizers[2 * l + 1])
  {
  }

  /** What an optimizer holds: its weights, both moments and its time step */
  datatype OptimizerState = OptimizerState(w: seq<real>, m: seq<real>, v: seq<real>, t: nat)

  ghost function StateOf(optimizer: Adam): OptimizerState
    reads optimizer, optimizer.w, optimizer.m, optimizer.v
  {
    OptimizerState(optimizer.w[..], optimizer.m[..], optimizer.v[..], optimizer.t)
  }

  /** The states of optimizers with two more appended: theirs, then those of the two */
  lemma AppendStates(optimizers: seq<Adam>, a: Adam, b: Adam)
    ensures States(optimizers + [a, b]) == States(optimizers) + [StateOf(a), StateOf(b)]
  {
    var all := optimizers + [a, b];
    forall k | 0 <= k < |all|
      ensures States(all)[k] == (States(optimizers) + [StateOf(a), StateOf(b)])[k]
    {
      if k < |optimizers| {
        assert all[k] == optimizers[k];
      }
    }
  }

  /**
    Both optimizers of the layer took one Adam step from the states before, with the
    flattened dW (resp. dB) as gradient, and W (resp. B) is the new weight vector read back
    in row-major order.
   */
  predicate ParametersStepped(layer: Layer, wBefore: OptimizerState, bBefore: OptimizerState,
                              wAfter: OptimizerState, bAfter: OptimizerState, lib: Libm)
  {
    && Stepped(wBefore.w, wBefore.m, wBefore.v, wAfter.w, wAfter.m, wAfter.v, Flat(layer.dW), wBefore.t, lib)
    && Stepped(bBefore.w, bBefore.m, bBefore.v, bAfter.w, bAfter.m, bAfter.v, Flat(layer.dB), bBefore.t, lib)
    && wAfter.t == wBefore.t + 1 && bAfter.t == bBefore.t + 1
    && |wAfter.w| == layer.neuronsPrevious * layer.neurons
    && layer.W == Unflatten(wAfter.w, layer.neuronsPrevious, layer.neurons)
    && |bAfter.w| == layer.samples * layer.neurons
    && layer.B == Unflatten(bAfter.w, layer.samples, layer.neurons)
  }

  ghost function States(optimizers: seq<Adam>): (states: seq<OptimizerState>)
    reads Footprints(optimizers)
    ensures |states| == |optimizers|
  {
    seq(|optimizers|, k requires 0 <= k < |optimizers| reads Footprints(optimizers) =>
      (FootprintWithin(optimizers, k); StateOf(optimizers[k])))
  }

  /** Layer k took its step from the states before to the states after (its optimizers sit at 2k and 2k + 1) */
  predicate LayerStepped(layers: seq<Layer>, before: seq<OptimizerState>, after: seq<OptimizerState>, k: nat, lib: Libm)
    requires k < |layers| && |before| == |after| == 2 * |layers|
  {
    ParametersStepped(layers[k], before[2 * k], before[2 * k + 1], after[2 * k], after[2 * k + 1], lib)
  }

  /** Layers 0 .. n-1 took their step from the states before to the states after */
  predicate SteppedUpTo(layers: seq<Layer>, before: seq<OptimizerState>, after: seq<OptimizerState>, n: nat, lib: Libm)
    requires n <= |layers| && |before| == |after| == 2 * |layers|
  {
    forall k :: 0 <= k < n ==> LayerStepped(layers, before, after, k, lib)
  }

  /**
    Stepping layer l, with every other layer and optimizer left alone, extends the stepped
    prefix by one.
   */
  lemma SteppedUpToExtend(layers: seq<Layer>, layers': seq<Layer>, before: seq<OptimizerState>, middle: seq<OptimizerState>,
                          after: seq<OptimizerState>, l: nat, lib: Libm)
    requires l < |layers| == |layers'| && layers' == layers[l := layers'[l]]
    requires |before| == |middle| == |after| == 2 * |layers|
    requires SteppedUpTo(layers, before, middle, l, lib)
    requires middle[2 * l] == before[2 * l] && middle[2 * l + 1] == before[2 * l + 1]
    requires forall k :: 0 <= k < |after| && k != 2 * l && k != 2 * l + 1 ==> after[k] == middle[k]
    requires ParametersStepped(layers'[l], middle[2 * l], middle[2 * l + 1], after[2 * l], after[2 * l + 1], lib)
    ensures SteppedUpTo(layers', before, after, l + 1, lib)
  {
    forall k | 0 <= k < l + 1
      ensures LayerStepped(layers', before, after, k, lib)
    {
      if k < l {
        assert LayerStepped(layers, before, middle, k, lib);
        assert layers'[k] == layers[k];
        assert after[2 * k] == middle[2 * k] && after[2 * k + 1] == middle[2 * k + 1];
      }
    }
  }

  /** W, B and the dimensions of every layer are as they were */
  predicate ParametersKept(layers: seq<Layer>, layers': seq<Layer>) {
    && |layers'| == |layers|
    && forall k :: 0 <= k < |layers| ==>
         && layers'[k].W == layers[k].W && layers'[k].B == layers[k].B
         && layers'[k].samples == layers[k].samples && layers'[k].neuronsPrevious == layers[k].neuronsPrevious
         && layers'[k].neurons == layers[k].neurons
  }

  /** Propagation changes outputs and gradients only */
  lemma PropagationKeepsParameters(layers: seq<Layer>, middle: seq<Layer>, layers': seq<Layer>)
    requires OnlyOutputsChanged(layers, middle) && OnlyGradientsChanged(middle, layers')
    ensures ParametersKept(layers, layers')
  {
    forall k | 0 <= k < |layers|
      ensures layers'[k].W == layers[k].W && layers'[k].B == layers[k].B
      ensures layers'[k].samples == layers[k].samples && layers'[k].neuronsPrevious == layers[k].neuronsPrevious
      ensures layers'[k].neurons == layers[k].neurons
    {
      assert layers'[k].W == middle[k].W;
    }
  }

  /** The optimizers keep tracking layers whose W, B and dimensions did not change */
  lemma TracksLayersKept(layers: seq<Layer>, layers': seq<Layer>, optimizers: seq<Adam>)
    requires |optimizers| == 2 * |layers| && TracksLayers(layers, optimizers, |layers|)
    requires ParametersKept(layers, layers')
    ensures TracksLayers(layers', optimizers, |layers'|)
  {
    forall k | 0 <= k < |layers'|
      ensures LayerTracked(layers', optimizers, k)
    {
      assert LayerTracked(layers, optimizers, k);
      TracksLayerKept(layers[k], layers'[k], optimizers[2 * k], optimizers[2 * k + 1]);
    }
  }

  /** Forward propagation, backward propagation and the parameter update keep the architecture */
  lemma ArchitectureKept(layers: seq<Layer>, middle: seq<Layer>, layers': seq<Layer>)
    requires SameArchitecture(layers, middle)
    requires OnlyOutputsChanged(middle, layers') || OnlyGradientsChanged(middle, layers') || OnlyParametersChanged(middle, layers')
    ensures SameArchitecture(layers, layers')
  {
    forall k | 0 <= k < |layers|
      ensures layers'[k].samples == layers[k].samples && layers'[k].neuronsPrevious == layers[k].neuronsPrevious
      ensures layers'[k].neurons == layers[k].neurons && layers'[k].layerType == layers[k].layerType
      ensures layers'[k].activation == layers[k].activation
    {
      if OnlyParametersChanged(middle, layers') {
        assert ParametersChangedAt(middle, layers', k);
      }
      assert layers'[k].samples == middle[k].samples;
    }
  }

  /** The last layer keeps its width */
  lemma LastWidthKept(layers: seq<Layer>, layers': seq<Layer>, width: nat)
    requires SameArchitecture(layers, layers') && EndsWith(layers, width)
    ensures EndsWith(layers', width)
  {
  }

  lemma ArchitectureTransitive(layers: seq<Layer>, middle: seq<Layer>, layers': seq<Layer>)
    requires SameArchitecture(layers, middle) && SameArchitecture(middle, layers')
    ensures SameArchitecture(layers, layers')
  {
  }

  lemma ArchitectureReflexive(layers: seq<Layer>)
    ensures SameArchitecture(layers, layers)
  {
  }

  /** Buffers released by disposing every optimizer with its weights */
  function Buffers(optimizers: seq<Adam>): set<array<real>> {
    if |optimizers| == 0 then {}
    else Buffers(optimizers[..|optimizers| - 1]) + {optimizers[|optimizers| - 1].w, optimizers[|optimizers| - 1].m, optimizers[|optimizers| - 1].v}
  }

  /** The dispose loop of trainANN: both optimizers of every layer, weights included (flag 1) */
  method ReleaseOptimizers(optimizers: seq<Adam>, layerCount: nat) returns (freed: set<array<real>>)
    requires |optimizers| == 2 * layerCount
    ensures freed == Buffers(optimizers)
  {
    freed := {};
    var l := 0;
    while l < layerCount
      invariant 0 <= l <= layerCount
      invariant freed == Buffers(optimizers[..2 * l])
    {
      var freedW := optimizers[2 * l].Dispose(1);
      var freedB := optimizers[2 * l + 1].Dispose(1);
      assert optimizers[..2 * l + 1][..2 * l] == optimizers[..2 * l];
      assert optimizers[..2 * l + 2][..2 * l + 1] == optimizers[..2 * l + 1];
      freed := freed + freedW + freedB;
      l := l + 1;
    }
    assert optimizers[..2 * l] == optimizers;
  }

  /**
    What a finished training run reports: no iteration after the thousandth met the
    convergence test without stopping; a stop happens only after the thousandth
    iteration and before the last, with the final loss less than `threshold` below the
    last reported one; otherwise every iteration ran and the last reported loss is the
    final one.
   */
  predicate StoppingRule(log: TrainingLog, maxIterations: int, threshold: real, finalLoss: real) {
    && NeverConverged(log.losses, threshold)
    && (log.stoppedEarly ==> 1000 < |log.losses| < maxIterations && PreviousLoss(log.losses) - finalLoss < threshold)
    && (!log.stoppedEarly ==>
          && |log.losses| == (if maxIterations > 0 then maxIterations else 0)
          && (|log.losses| >= 1 ==> log.losses[|log.losses| - 1] == finalLoss))
  }

  /** Reporting a loss that did not pass the convergence test keeps the log free of convergence */
  lemma NeverConvergedExtend(losses: seq<real>, loss: real, threshold: real)
    requires NeverConverged(losses, threshold)
    requires !(PreviousLoss(losses) - loss < threshold && |losses| > 1000)
    ensures NeverConverged(losses + [loss], threshold)
  {
    var losses' := losses + [loss];
    forall t | 1000 < t < |losses'|
      ensures !(losses'[t - 1] - losses'[t] < threshold)
    {
      if t < |losses| {
        assert losses'[t - 1] == losses[t - 1] && losses'[t] == losses[t];
      }
    }
  }

  /** An iteration that did not stop extends a log of |losses| full iterations by its loss, which is now the final one */
  lemma StoppingRuleExtend(losses: seq<real>, loss: real, threshold: real)
    requires NeverConverged(losses, threshold)
    requires !(PreviousLoss(losses) - loss < threshold && |losses| > 1000)
    ensures StoppingRule(TrainingLog(losses + [loss], false), |losses| + 1, threshold, loss)
  {
    NeverConvergedExtend(losses, loss, threshold);
  }

  /** Stopping at an iteration after the thousandth and before the last, on a loss that passed the convergence test */
  lemma StoppingRuleStop(losses: seq<real>, loss: real, maxIterations: int, threshold: real)
    requires NeverConverged(losses, threshold)
    requires PreviousLoss(losses) - loss < threshold && 1000 < |losses| < maxIterations
    ensures StoppingRule(TrainingLog(losses, true), maxIterations, threshold, loss)
  {
  }

  /** The loss an iteration of trainANN computes from the layers it starts with: that of their prediction on the training inputs */
  function PredictionLoss(X: Matrix, Y: Matrix, layers: seq<Layer>, samples: nat, features: nat, classes: nat, lib: Libm): real
    requires IsMatrix(X, samples, features) && IsMatrix(Y, samples, classes) && samples >= 1 && classes >= 1
    requires Linked(layers, features) && EndsWith(layers, classes)
  {
    NetworkLoss(Y, Predicted(X, samples, layers, features, |layers|, lib), samples, classes, lib)
  }

  /**
    One iteration of trainANN took the layers from `layers` to `layers'` and the optimizers
    from the states `before` to `after`: `propagated` is what forward and backward
    propagation left (every layer forwarded and holding its gradients; W, B and the
    architecture as in `layers`), and the update changed W and B only, each by one Adam
    step along its own gradient.
   */
  predicate Iterated(X: Matrix, Y: Matrix, layers: seq<Layer>, propagated: seq<Layer>, layers': seq<Layer>,
                     before: seq<OptimizerState>, after: seq<OptimizerState>, lib: Libm)
  {
    && ParametersKept(layers, propagated) && SameArchitecture(layers, propagated)
    && AllForwarded(X, propagated, lib)
    && BackpropagatedFrom(X, Y, propagated, 0, lib)
    && OnlyParametersChanged(propagated, layers')
    && |before| == |after| == 2 * |layers'|
    && SteppedUpTo(layers', before, after, |layers'|, lib)
  }

  /** What initADAM leaves an optimizer over the weights w with: zero moments at time step 1 */
  function InitialState(w: seq<real>): OptimizerState {
    OptimizerState(w, Zeros(|w|), Zeros(|w|), 1)
  }

  /** The states trainANN creates the optimizers in: for layer k, over its flattened W at 2k and its flattened B at 2k + 1 */
  predicate InitialStates(layers: seq<Layer>, states: seq<OptimizerState>) {
    && |states| == 2 * |layers|
    && forall k :: 0 <= k < |layers| ==>
         states[2 * k] == InitialState(Flat(layers[k].W)) && states[2 * k + 1] == InitialState(Flat(layers[k].B))
  }

  /** The initial states of the first l layers, followed by those of layer l, are the initial states of the first l + 1 */
  lemma InitialStatesExtend(layers: seq<Layer>, l: nat, states: seq<OptimizerState>, states': seq<OptimizerState>)
    requires l < |layers| && InitialStates(layers[..l], states)
    requires states' == states + [InitialState(Flat(layers[l].W)), InitialState(Flat(layers[l].B))]
    ensures InitialStates(layers[..l + 1], states')
  {
    forall k | 0 <= k < l + 1
      ensures states'[2 * k] == InitialState(Flat(layers[..l + 1][k].W))
      ensures states'[2 * k + 1] == InitialState(Flat(layers[..l + 1][k].B))
    {
      if k < l {
        assert layers[..l][k] == layers[k];
      }
    }
  }

  /**
    A training run as a trace: layers[t] and states[t] are the layers and the optimizer
    states before iteration t, propagated[t] the layers after its propagations and
    losses[t] the loss it computed.
   */
  datatype Trace = Trace(layers: seq<seq<Layer>>, propagated: seq<seq<Layer>>, states: seq<seq<OptimizerState>>, losses: seq<real>)

  /** Every iteration of the trace took its layers and states to the next ones and computed the loss of its starting layers */
  predicate Traced(X: Matrix, Y: Matrix, samples: nat, features: nat, classes: nat, trace: Trace, lib: Libm) {
    && IsMatrix(X, samples, features) && IsMatrix(Y, samples, classes) && samples >= 1 && classes >= 1
    && |trace.layers| == |trace.states| == |trace.propagated| + 1 && |trace.losses| == |trace.propagated|
    && forall t :: 0 <= t < |trace.propagated| ==> TracedAt(X, Y, samples, features, classes, trace, t, lib)
  }

  /** Iteration t of the trace took layers[t] and states[t] to layers[t + 1] and states[t + 1] */
  predicate TracedAt(X: Matrix, Y: Matrix, samples: nat, features: nat, classes: nat, trace: Trace, t: nat, lib: Libm)
    requires IsMatrix(X, samples, features) && IsMatrix(Y, samples, classes) && samples >= 1 && classes >= 1
    requires |trace.layers| == |trace.states| == |trace.propagated| + 1 && |trace.losses| == |trace.propagated|
    requires t < |trace.propagated|
  {
    IterationTraced(X, Y, samples, features, classes, trace.layers[t], trace.propagated[t], trace.layers[t + 1],
                    trace.states[t], trace.states[t + 1], trace.losses[t], lib)
  }

  /** One iteration from `layers` and `before` to `layers'` and `after`, which computed `loss`, the loss of `layers` */
  predicate IterationTraced(X: Matrix, Y: Matrix, samples: nat, features: nat, classes: nat, layers: seq<Layer>,
                            propagated: seq<Layer>, layers': seq<Layer>, before: seq<OptimizerState>, after: seq<OptimizerState>,
                            loss: real, lib: Libm)
    requires IsMatrix(X, samples, features) && IsMatrix(Y, samples, classes) && samples >= 1 && classes >= 1
  {
    && Iterated(X, Y, layers, propagated, layers', before, after, lib)
    && Linked(layers, features) && EndsWith(layers, classes)
    && loss == PredictionLoss(X, Y, layers, samples, features, classes, lib)
  }

  /**
    A trace of training from `first` to `last`: every iteration is traced, the first layers
    are `first` with the initial optimizer states, and the last layers are `last`.
   */
  predicate TracedFrom(X: Matrix, Y: Matrix, samples: nat, features: nat, classes: nat, trace: Trace,
                       first: seq<Layer>, last: seq<Layer>, lib: Libm)
  {
    && Traced(X, Y, samples, features, classes, trace, lib)
    && trace.layers[0] == first && InitialStates(first, trace.states[0])
    && trace.layers[|trace.layers| - 1] == last
  }

  /** Before the first iteration, the trace holds the initial layers and optimizer states only */
  lemma TracedFromStart(X: Matrix, Y: Matrix, samples: nat, features: nat, classes: nat,
                        layers: seq<Layer>, states: seq<OptimizerState>, lib: Libm)
    requires IsMatrix(X, samples, features) && IsMatrix(Y, samples, classes) && samples >= 1 && classes >= 1
    requires InitialStates(layers, states)
    ensures TracedFrom(X, Y, samples, features, classes, Trace([layers], [], [states], []), layers, layers, lib)
  {
  }

  /** Element t of a sequence with x appended */
  lemma AppendedAt<T>(s: seq<T>, x: T, t: nat)
    requires t <= |s|
    ensures (s + [x])[t] == if t < |s| then s[t] else x
  {
  }

  /** One more iteration from the last layers and states of a trace extends it */
  lemma TracedExtend(X: Matrix, Y: Matrix, samples: nat, features: nat, classes: nat, trace: Trace,
                     first: seq<Layer>, last: seq<Layer>, propagated: seq<Layer>, layers': seq<Layer>,
                     after: seq<OptimizerState>, loss: real, lib: Libm)
    requires TracedFrom(X, Y, samples, features, classes, trace, first, last, lib)
    requires IterationTraced(X, Y, samples, features, classes, last, propagated, layers',
                             trace.states[|trace.states| - 1], after, loss, lib)
    ensures TracedFrom(X, Y, samples, features, classes,
                       Trace(trace.layers + [layers'], trace.propagated + [propagated], trace.states + [after], trace.losses + [loss]),
                       first, layers', lib)
  {
    var trace' := Trace(trace.layers + [layers'], trace.propagated + [propagated], trace.states + [after], trace.losses + [loss]);
    forall t | 0 <= t < |trace'.propagated|
      ensures TracedAt(X, Y, samples, features, classes, trace', t, lib)
    {
      AppendedAt(trace.layers, layers', t);
      AppendedAt(trace.layers, layers', t + 1);
      AppendedAt(trace.states, after, t);
      AppendedAt(trace.states, after, t + 1);
      AppendedAt(trace.propagated, propagated, t);
      AppendedAt(trace.losses, loss, t);
      if t < |trace.propagated| {
        assert TracedAt(X, Y, samples, features, classes, trace, t, lib);
      }
    }
    assert trace'.layers[0] == first && trace'.states[0] == trace.states[0];
  }


  /** initADAM on a fresh flattened copy of W, then on a fresh flattened copy of B */
  method NewLayerOptimizers(layer: Layer) returns (wOptimizer: Adam, bOptimizer: Adam)
    requires Shaped(layer) && RowsIdentical(layer.B)
    ensures fresh(Footprint(wOptimizer)) && fresh(Footprint(bOptimizer))
    ensures TracksLayer(layer, wOptimizer, bOptimizer)
    ensures StateOf(wOptimizer) == InitialState(Flat(layer.W)) && StateOf(bOptimizer) == InitialState(Flat(layer.B))
  {
    var fw := Flatten(layer.W, layer.neuronsPrevious, layer.neurons);
    var w := new real[|fw|](i requires 0 <= i < |fw| => fw[i]);
    wOptimizer := new Adam(w, layer.neuronsPrevious * layer.neurons);
    var fb := Flatten(layer.B, layer.samples, layer.neurons);
    var b := new real[|fb|](i requires 0 <= i < |fb| => fb[i]);
    bOptimizer := new Adam(b, layer.samples * layer.neurons);
    assert w[..] == fw && b[..] == fb;
    ZeroRowsIdentical(bOptimizer.m[..], layer.samples, layer.neurons);
    ZeroRowsIdentical(bOptimizer.v[..], layer.samples, layer.neurons);
  }

  /* ---------------------------------------------------------------------------
     The network
     --------------------------------------------------------------------------- */

  class Network {
    const X: Matrix
    const Y: Matrix
    const samples: nat
    const features: nat
    const classes: nat
    var layers: seq<Layer>

    /** X and Y have the declared shapes and the layers are chained (see Chained) */
    ghost predicate Valid()
      reads this
    {
      && IsMatrix(X, samples, features)
      && IsMatrix(Y, samples, classes)
      && Chained(layers, samples, features)
    }

    /** initANN: keep the data and its dimensions, start with no layers */
    constructor (X: Matrix, Y: Matrix, samples: nat, features: nat, classes: nat)
      requires IsMatrix(X, samples, features) && IsMatrix(Y, samples, classes)
      ensures Valid()
      ensures this.X == X && this.Y == Y
      ensures this.samples == samples && this.features == features && this.classes == classes
      ensures layers == []
    {
      this.X := X;
      this.Y := Y;
      this.samples := samples;
      this.features := features;
      this.classes := classes;
      layers := [];
    }

    /** The number of inputs the next added layer will read */
    function NextWidth(): nat
      reads this
    {
      InputWidth(layers, features, |layers|)
    }

    /**
      addLayerANN: append a layer fed by the features (first layer) or by the previous
      layer's neurons; initialW and initialBiasRow stand for the random draws of initANNLayer.
     */
    method AddLayer(neurons: nat, layerType: LayerType, activation: Activation, initialW: Matrix, initialBiasRow: Vector)
      requires Valid()
      requires IsMatrix(initialW, NextWidth(), neurons) && |initialBiasRow| == neurons
      modifies this
      ensures Valid()
      ensures |layers| == |old(layers)| + 1 && layers[..|old(layers)|] == old(layers)
      ensures layers[|layers| - 1].neuronsPrevious == old(NextWidth())
      ensures layers[|layers| - 1].neurons == neurons
      ensures layers[|layers| - 1].layerType == layerType && layers[|layers| - 1].activation == activation
      ensures layers[|layers| - 1].W == initialW
      ensures layers[|layers| - 1].B == seq(samples, _ => initialBiasRow)
    {
      var neuronsPrevious := if |layers| == 0 then features else layers[|layers| - 1].neurons;
      var layer := InitANNLayer(samples, neuronsPrevious, neurons, layerType, activation, initialW, initialBiasRow);
      ChainedAppend(layers, samples, features, layer);
      assert layer.B == seq(samples, _ => initialBiasRow);
      layers := layers + [layer];
    }

    /** updateLayerOutputs: overwrite Z and A of layer l from its input, W and B */
    method UpdateLayerOutputs(l: nat, lib: Libm)
      requires Valid() && l < |layers|
      modifies this
      ensures Valid()
      ensures |layers| == |old(layers)|
      ensures layers == old(layers)[l := layers[l]]
      ensures layers[l] == old(layers)[l].(Z := layers[l].Z, A := layers[l].A)
      ensures Forwarded(layers[l], Input(X, layers, l), lib)
    {
      var input := if l == 0 then X else layers[l - 1].A;
      var layer := LayerOutputs(layers[l], input, lib);
      ChainedReplace(layers, samples, features, l, layer);
      assert Input(X, layers[l := layer], l) == input;
      layers := layers[l := layer];
    }

    /** forwardPropagationANN: update the outputs of every layer, first to last */
    method ForwardPropagation(lib: Libm)
      requires Valid()
      modifies this
      ensures Valid()
      ensures OnlyOutputsChanged(old(layers), layers)
      ensures forall l :: 0 <= l < |layers| ==> Forwarded(layers[l], Input(X, layers, l), lib)
    {
      var l := 0;
      while l < |layers|
        invariant 0 <= l <= |layers| && Valid()
        invariant OnlyOutputsChanged(old(layers), layers)
        invariant forall k :: 0 <= k < l ==> Forwarded(layers[k], Input(X, layers, k), lib)
      {
        UpdateLayerOutputs(l, lib);
        l := l + 1;
      }
    }

    /** backwardPropagationANN: the gradients of every layer, from the output layer back to the first */
    method BackwardPropagation(lib: Libm)
      requires Valid() && samples >= 1
      requires |layers| >= 1 ==> layers[|layers| - 1].neurons == classes
      modifies this
      ensures Valid()
      ensures OnlyGradientsChanged(old(layers), layers)
      ensures BackpropagatedFrom(X, Y, layers, 0, lib)
    {
      var l := |layers|;
      while l > 0
        invariant 0 <= l <= |layers| && Valid()
        invariant OnlyGradientsChanged(old(layers), layers)
        invariant BackpropagatedFrom(X, Y, layers, l, lib)
      {
        l := l - 1;
        ghost var before := layers;
        BackpropagateLayer(l, lib);
        BackpropagatedAbove(X, Y, before, layers, l, lib);
        OnlyGradientsChangedStep(old(layers), before, layers, l);
      }
    }

    /** One iteration of backwardPropagationANN: dZ, then dW, then dB of layer l */
    method BackpropagateLayer(l: nat, lib: Libm)
      requires Valid() && l < |layers| && samples >= 1
      requires l == |layers| - 1 ==> layers[l].neurons == classes
      modifies this
      ensures Valid()
      ensures |layers| == |old(layers)|
      ensures layers == old(layers)[l := layers[l]]
      ensures layers[l] == old(layers)[l].(dZ := layers[l].dZ, dW := layers[l].dW, dB := layers[l].dB)
      ensures Backpropagated(X, Y, layers, l, lib)
    {
      var isOutput := l == |layers| - 1;
      var next := if isOutput then layers[l] else layers[l + 1];
      var input := if l == 0 then X else layers[l - 1].A;
      var withError, db := UpdateDZ(layers[l], isOutput, Y, next, lib);
      var withWeights := UpdateDW(withError, input);
      var layer := UpdateDB(withWeights, db);
      ErrorKept(withError, layer, isOutput, Y, next, lib);
      WeightGradientKept(withWeights, layer, input);
      assert BiasGradient(layer);
      ChainedReplace(layers, samples, features, l, layer);
      assert Input(X, layers[l := layer], l) == input;
      layers := layers[l := layer];
    }

    /**
      predictANN: run the layers over a new input of n rows, each layer adding the first
      row of its bias; with no layers the input itself is returned.
     */
    method Predict(input: Matrix, n: nat, inputFeatures: nat, lib: Libm) returns (A: Matrix)
      requires Valid() && IsMatrix(input, n, inputFeatures) && inputFeatures == features
      requires |layers| >= 1 ==> samples >= 1
      ensures Linked(layers, features)
      ensures A == Predicted(input, n, layers, features, |layers|, lib)
      ensures |layers| == 0 ==> A == input
    {
      if samples >= 1 {
        ChainedLinked(layers, samples, features);
      }
      A := PredictLayers(input, n, layers, features, lib);
    }
  
    /**
      One iteration of the update loop of trainANN for layer l: the flattened W takes an
      Adam step with the flattened dW as gradient and is copied back row by row; then the
      same for B with dB.
     */
    method StepLayer(l: nat, wOptimizer: Adam, bOptimizer: Adam, lib: Libm)
      requires Valid() && l < |layers| && TracksLayer(layers[l], wOptimizer, bOptimizer)
      requires RowsIdentical(layers[l].dB)
      modifies this, wOptimizer, wOptimizer.w, wOptimizer.m, wOptimizer.v
      modifies bOptimizer, bOptimizer.w, bOptimizer.m, bOptimizer.v
      ensures Valid()
      ensures |layers| == |old(layers)| && layers == old(layers)[l := layers[l]]
      ensures layers[l] == old(layers)[l].(W := layers[l].W, B := layers[l].B)
      ensures TracksLayer(layers[l], wOptimizer, bOptimizer)
      ensures ParametersStepped(layers[l], old(StateOf(wOptimizer)), old(StateOf(bOptimizer)), StateOf(wOptimizer), StateOf(bOptimizer), lib)
    {
      var layer := layers[l];
      var neuronsPrevious, neurons := layer.neuronsPrevious, layer.neurons;
      // the weights
      var dw := Flatten(layer.dW, neuronsPrevious, neurons);
      var updatedW := wOptimizer.Update(dw, neuronsPrevious * neurons, lib);
      assert updatedW.Success?;
      var W := CopyRowMajor(updatedW.value[..], neuronsPrevious, neurons);
      // the biases
      var db := Flatten(layer.dB, samples, neurons);
      ghost var b0, m0, v0 := bOptimizer.w[..], bOptimizer.m[..], bOptimizer.v[..];
      var updatedB := bOptimizer.Update(db, samples * neurons, lib);
      assert updatedB.Success?;
      var B := CopyRowMajor(updatedB.value[..], samples, neurons);
      FlatOfIdenticalRows(layer.B, samples, neurons);
      FlatOfIdenticalRows(layer.dB, samples, neurons);
      StepKeepsBroadcastRows(b0, m0, v0, db, old(bOptimizer.t), lib, samples, neurons);
      FlatUnflatten(wOptimizer.w[..], neuronsPrevious, neurons);
      FlatUnflatten(bOptimizer.w[..], samples, neurons);
      var layer' := layer.(W := W, B := B);
      ChainedReplace(layers, samples, features, l, layer');
      layers := layers[l := layer'];
    }
  
    /**
      The optimizer creation loop of trainANN: for every layer an optimizer over a fresh
      flattened copy of W, then one over a fresh flattened copy of B. They sit at 2l and 2l + 1.
     */
    method CreateOptimizers() returns (optimizers: seq<Adam>)
      requires Valid()
      ensures |optimizers| == 2 * |layers| && Separate(optimizers) && fresh(Footprints(optimizers))
      ensures TracksLayers(layers, optimizers, |layers|)
      ensures InitialStates(layers, States(optimizers))
    {
      optimizers := [];
      var l := 0;
      while l < |layers|
        invariant 0 <= l <= |layers| && |optimizers| == 2 * l
        invariant Separate(optimizers) && fresh(Footprints(optimizers))
        invariant TracksLayers(layers, optimizers, l)
        invariant InitialStates(layers[..l], States(optimizers))
      {
        ghost var states := States(optimizers);
        optimizers := AddLayerOptimizers(optimizers, l);
        InitialStatesExtend(layers, l, states, States(optimizers));
        l := l + 1;
      }
      assert layers[..l] == layers;
    }

    /** One turn of the optimizer creation loop: the optimizers of layer l join those of the layers before it */
    method AddLayerOptimizers(optimizers: seq<Adam>, l: nat) returns (optimizers': seq<Adam>)
      requires Valid() && l < |layers| && |optimizers| == 2 * l
      requires Separate(optimizers) && TracksLayers(layers, optimizers, l)
      ensures |optimizers'| == 2 * l + 2 && forall k :: 0 <= k < 2 * l ==> optimizers'[k] == optimizers[k]
      ensures States(optimizers') == old(States(optimizers)) + [InitialState(Flat(layers[l].W)), InitialState(Flat(layers[l].B))]
      ensures Separate(optimizers') && TracksLayers(layers, optimizers', l + 1)
      ensures Footprints(optimizers') == Footprints(optimizers) + Footprint(optimizers'[2 * l]) + Footprint(optimizers'[2 * l + 1])
      ensures fresh(Footprint(optimizers'[2 * l])) && fresh(Footprint(optimizers'[2 * l + 1]))
    {
      ghost var states := States(optimizers);
      var wOptimizer, bOptimizer := NewLayerOptimizers(layers[l]);
      assert States(optimizers) == states;
      assert TracksLayers(layers, optimizers, l);
      AppendOptimizers(optimizers, wOptimizer, bOptimizer);
      AppendTracksLayers(layers, optimizers, l, wOptimizer, bOptimizer);
      AppendStates(optimizers, wOptimizer, bOptimizer);
      optimizers' := optimizers + [wOptimizer, bOptimizer];
    }

    /** StepLayer on the optimizers of layer l, which leaves every other optimizer as it was */
    method StepLayerAmong(optimizers: seq<Adam>, l: nat, lib: Libm)
      requires Valid() && l < |layers| && |optimizers| == 2 * |layers| && Separate(optimizers)
      requires TracksLayers(layers, optimizers, |layers|) && RowsIdentical(layers[l].dB)
      modifies this, Footprint(optimizers[2 * l]), Footprint(optimizers[2 * l + 1])
      ensures Valid()
      ensures |layers| == |old(layers)| && layers == old(layers)[l := layers[l]]
      ensures layers[l] == old(layers)[l].(W := layers[l].W, B := layers[l].B)
      ensures TracksLayers(layers, optimizers, |layers|)
      ensures ParametersStepped(layers[l], old(StateOf(optimizers[2 * l])), old(StateOf(optimizers[2 * l + 1])),
                                StateOf(optimizers[2 * l]), StateOf(optimizers[2 * l + 1]), lib)
      ensures forall k :: 0 <= k < |optimizers| && k != 2 * l && k != 2 * l + 1 ==> StateOf(optimizers[k]) == old(StateOf(optimizers[k]))
    {
      assert LayerTracked(layers, optimizers, l);
      ghost var layers0 := layers;
      StepLayer(l, optimizers[2 * l], optimizers[2 * l + 1], lib);
      forall k | 0 <= k < |optimizers| && k != 2 * l && k != 2 * l + 1
        ensures StateOf(optimizers[k]) == old(StateOf(optimizers[k]))
      {
        assert Footprint(optimizers[k]) !! Footprint(optimizers[2 * l]);
        assert Footprint(optimizers[k]) !! Footprint(optimizers[2 * l + 1]);
      }
      forall k | 0 <= k < |layers| && k != l
        ensures LayerTracked(layers, optimizers, k)
      {
        SeparateLayers(optimizers, k, l);
        assert old(LayerTracked(layers, optimizers, k));
      }
      TracksLayersIntro(layers, optimizers, l);
    }

    /**
      The layers from l on are as they were at the start of the update loop, the layers
      before l took their step from the states `before`, and the optimizers from 2l on hold
      those states still.
     */
    ghost predicate UpdatedUpTo(layers0: seq<Layer>, optimizers: seq<Adam>, before: seq<OptimizerState>, l: nat, lib: Libm)
      reads this, Footprints(optimizers)
    {
      && Valid() && l <= |layers| && |optimizers| == 2 * |layers| && |before| == |optimizers|
      && OnlyParametersChanged(layers0, layers)
      && TracksLayers(layers, optimizers, |layers|)
      && (forall k :: l <= k < |layers| ==> layers[k] == layers0[k])
      && SteppedUpTo(layers, before, States(optimizers), l, lib)
      && (forall k :: 2 * l <= k < |optimizers| ==> States(optimizers)[k] == before[k])
    }

    /** One turn of the update loop of trainANN: layer l's W and B take their Adam step */
    method UpdateLayer(optimizers: seq<Adam>, l: nat, lib: Libm, ghost layers0: seq<Layer>, ghost before: seq<OptimizerState>)
      requires UpdatedUpTo(layers0, optimizers, before, l, lib) && l < |layers| && Separate(optimizers)
      requires RowsIdentical(layers0[l].dB)
      modifies this, Footprint(optimizers[2 * l]), Footprint(optimizers[2 * l + 1])
      ensures UpdatedUpTo(layers0, optimizers, before, l + 1, lib)
    {
      ghost var layersBefore, middle := layers, States(optimizers);
      StepLayerAmong(optimizers, l, lib);
      ParametersChangedExtend(layers0, layersBefore, layers, l);
      SteppedUpToExtend(layersBefore, layers, before, middle, States(optimizers), l, lib);
    }

    /**
      The update loop of trainANN: every layer's W and B take one Adam step with its own
      optimizers; only W and B change.
     */
    method UpdateParameters(optimizers: seq<Adam>, lib: Libm) returns (ghost before: seq<OptimizerState>, ghost after: seq<OptimizerState>)
      requires Valid() && |optimizers| == 2 * |layers| && Separate(optimizers)
      requires TracksLayers(layers, optimizers, |layers|)
      requires forall l :: 0 <= l < |layers| ==> RowsIdentical(layers[l].dB)
      modifies this, Footprints(optimizers)
      ensures Valid() && OnlyParametersChanged(old(layers), layers)
      ensures TracksLayers(layers, optimizers, |layers|)
      ensures before == old(States(optimizers)) && after == States(optimizers)
      ensures |before| == |after| == 2 * |layers| && SteppedUpTo(layers, before, after, |layers|, lib)
    {
      before := States(optimizers);
      var l := 0;
      while l < |layers|
        invariant UpdatedUpTo(old(layers), optimizers, before, l, lib)
      {
        assert Footprint(optimizers[2 * l]) <= Footprints(optimizers);
        assert Footprint(optimizers[2 * l + 1]) <= Footprints(optimizers);
        UpdateLayer(optimizers, l, lib, old(layers), before);
        l := l + 1;
      }
      after := States(optimizers);
    }

    /** The loss of the last layer's outputs against Y */
    ghost function FinalLoss(lib: Libm): real
      requires Valid() && samples >= 1 && classes >= 1
      requires EndsWith(layers, classes)
      reads this
    {
      NetworkLoss(Y, layers[|layers| - 1].A, samples, classes, lib)
    }

    /**
      trainANN: fails (the library exits) unless the last layer is an output layer.
      Otherwise each iteration propagates forward and backward, steps every W and B with
      their Adam optimizers, then computes the log loss of the outputs of that forward
      pass; after the thousandth iteration it stops when the loss fell by less than
      `threshold` since the last iteration. The optimizers are disposed at the end.
     */
    method Train(maxIterations: int, threshold: real, lib: Libm) returns (r: Result<TrainingLog>, ghost trace: Trace)
      requires Valid() && samples >= 1 && classes >= 1
      requires EndsWith(layers, classes)
      modifies this
      ensures Valid() && SameArchitecture(old(layers), layers)
      ensures EndsWith(layers, classes)
      ensures r.Success? <==> old(layers)[|old(layers)| - 1].layerType == OutputLayer
      ensures r.Failure? ==> r.error == NoOutputLayer && layers == old(layers)
      ensures r.Success? ==> StoppingRule(r.value, maxIterations, threshold, FinalLoss(lib))
      ensures r.Success? ==> TracedFrom(X, Y, samples, features, classes, trace, old(layers), layers, lib)
      ensures r.Success? ==> trace.losses == r.value.losses + (if r.value.stoppedEarly then [FinalLoss(lib)] else [])
    {
      trace := Trace([layers], [], [], []);
      if layers[|layers| - 1].layerType != OutputLayer {
        return Failure(NoOutputLayer), trace;
      }
      var optimizers := CreateOptimizers();
      var log;
      log, trace := Iterate(optimizers, maxIterations, threshold, lib);
      var released := ReleaseOptimizers(optimizers, |layers|);
      r := Success(log);
    }

    /**
      The loop of trainANN: at most maxIterations iterations, each of which updates the
      parameters; after the thousandth it stops when the loss fell by less than `threshold`.
     */
    method Iterate(optimizers: seq<Adam>, maxIterations: int, threshold: real, lib: Libm)
      returns (log: TrainingLog, ghost trace: Trace)
      requires Valid() && samples >= 1 && classes >= 1
      requires EndsWith(layers, classes)
      requires |optimizers| == 2 * |layers| && Separate(optimizers) && TracksLayers(layers, optimizers, |layers|)
      requires InitialStates(layers, States(optimizers))
      modifies this, Footprints(optimizers)
      ensures Trained(optimizers, old(layers), trace, lib)
      ensures StoppingRule(log, maxIterations, threshold, FinalLoss(lib))
      ensures trace.losses == log.losses + (if log.stoppedEarly then [FinalLoss(lib)] else [])
    {
      trace := Trace([layers], [], [States(optimizers)], []);
      TrainedStart(optimizers, lib);
      var lossPrevious := InitialLoss;
      var losses: seq<real> := [];
      var stoppedEarly := false;
      var t := 0;
      while t < maxIterations
        invariant Trained(optimizers, old(layers), trace, lib)
        invariant 0 <= t <= (if maxIterations > 0 then maxIterations else 0)
        invariant |losses| == t && lossPrevious == PreviousLoss(losses)
        invariant StoppingRule(TrainingLog(losses, false), t, threshold, FinalLoss(lib))
        invariant trace.losses == losses
      {
        var currentLoss;
        currentLoss, trace := TracedIteration(optimizers, old(layers), trace, lib);
        if lossPrevious - currentLoss < threshold && t > 1000 {
          StoppingRuleStop(losses, currentLoss, maxIterations, threshold);
          stoppedEarly := true;
          break;
        }
        StoppingRuleExtend(losses, currentLoss, threshold);
        lossPrevious := currentLoss;
        losses := losses + [currentLoss];
        t := t + 1;
      }
      log := TrainingLog(losses, stoppedEarly);
    }

    /**
      Training so far is traced from the layers `first` to the current layers, and the
      optimizers of the current layers hold the last states of the trace.
     */
    ghost predicate Trained(optimizers: seq<Adam>, first: seq<Layer>, trace: Trace, lib: Libm)
      reads this, Footprints(optimizers)
    {
      && Valid() && samples >= 1 && classes >= 1
      && EndsWith(layers, classes) && SameArchitecture(first, layers)
      && |optimizers| == 2 * |layers| && Separate(optimizers) && TracksLayers(layers, optimizers, |layers|)
      && TracedFrom(X, Y, samples, features, classes, trace, first, layers, lib)
      && trace.states[|trace.states| - 1] == States(optimizers)
    }

    /** Before the first iteration, training is traced from the current layers by a trace of them alone */
    lemma TrainedStart(optimizers: seq<Adam>, lib: Libm)
      requires Valid() && samples >= 1 && classes >= 1
      requires EndsWith(layers, classes)
      requires |optimizers| == 2 * |layers| && Separate(optimizers) && TracksLayers(layers, optimizers, |layers|)
      requires InitialStates(layers, States(optimizers))
      ensures Trained(optimizers, layers, Trace([layers], [], [States(optimizers)], []), lib)
    {
      ArchitectureReflexive(layers);
      TracedFromStart(X, Y, samples, features, classes, layers, States(optimizers), lib);
    }

    /** One iteration of trainANN, with the trace of the iterations so far extended by it */
    method TracedIteration(optimizers: seq<Adam>, ghost first: seq<Layer>, ghost trace: Trace, lib: Libm)
      returns (loss: real, ghost trace': Trace)
      requires Trained(optimizers, first, trace, lib)
      modifies this, Footprints(optimizers)
      ensures Trained(optimizers, first, trace', lib)
      ensures trace'.losses == trace.losses + [loss] && loss == FinalLoss(lib)
    {
      ghost var start := layers;
      ghost var propagated, before, after;
      loss, propagated, before, after := TrainingIteration(optimizers, lib);
      ArchitectureTransitive(first, start, layers);
      TracedExtend(X, Y, samples, features, classes, trace, first, start, propagated, layers, after, loss, lib);
      trace' := Trace(trace.layers + [layers], trace.propagated + [propagated], trace.states + [after], trace.losses + [loss]);
      assert trace'.states[|trace'.states| - 1] == after;
    }

    /**
      One iteration of trainANN: forward propagation, backward propagation, the Adam step of
      every W and B, and the loss of the outputs the forward propagation computed.
     */
    method TrainingIteration(optimizers: seq<Adam>, lib: Libm)
      returns (loss: real, ghost propagated: seq<Layer>, ghost before: seq<OptimizerState>, ghost after: seq<OptimizerState>)
      requires Valid() && samples >= 1 && classes >= 1
      requires EndsWith(layers, classes)
      requires |optimizers| == 2 * |layers| && Separate(optimizers) && TracksLayers(layers, optimizers, |layers|)
      modifies this, Footprints(optimizers)
      ensures Valid() && SameArchitecture(old(layers), layers)
      ensures EndsWith(layers, classes)
      ensures TracksLayers(layers, optimizers, |layers|)
      ensures before == old(States(optimizers)) && after == States(optimizers)
      ensures IterationTraced(X, Y, samples, features, classes, old(layers), propagated, layers, before, after, loss, lib)
      ensures loss == FinalLoss(lib)
    {
      ghost var start := layers;
      propagated, before, after := PropagateAndUpdate(optimizers, lib);
      label Updated:
      loss := IterationLoss(lib);
      assert unchanged@Updated(this, Footprints(optimizers));
      OutputLoss(X, Y, start, layers, samples, features, classes, lib);
    }

    /** The propagations and the parameter updates of one iteration of trainANN */
    method PropagateAndUpdate(optimizers: seq<Adam>, lib: Libm)
      returns (ghost propagated: seq<Layer>, ghost before: seq<OptimizerState>, ghost after: seq<OptimizerState>)
      requires Valid() && samples >= 1 && classes >= 1
      requires EndsWith(layers, classes)
      requires |optimizers| == 2 * |layers| && Separate(optimizers) && TracksLayers(layers, optimizers, |layers|)
      modifies this, Footprints(optimizers)
      ensures Valid() && SameArchitecture(old(layers), layers)
      ensures EndsWith(layers, classes)
      ensures TracksLayers(layers, optimizers, |layers|)
      ensures Iterated(X, Y, old(layers), propagated, layers, before, after, lib)
      ensures before == old(States(optimizers)) && after == States(optimizers)
      ensures OutputPredicted(X, samples, old(layers), layers, features, lib)
    {
      ghost var start := layers;
      assert TracksLayers(start, optimizers, |start|);
      Propagate(lib);
      assert unchanged(Footprints(optimizers));
      TracksLayersKept(start, layers, optimizers);
      propagated := layers;
      before, after := UpdateParameters(optimizers, lib);
      PropagatedAndUpdated(X, Y, start, propagated, layers, before, after, samples, features, classes, lib);
    }

    /**
      The propagations of one iteration of trainANN: forward, then backward. W, B and the
      architecture stay as they were and the bias gradients have identical rows, as the
      Adam step of B needs.
     */
    method Propagate(lib: Libm)
      requires Valid() && samples >= 1
      requires EndsWith(layers, classes)
      modifies this
      ensures Valid() && SameArchitecture(old(layers), layers) && ParametersKept(old(layers), layers)
      ensures AllForwarded(X, layers, lib)
      ensures BackpropagatedFrom(X, Y, layers, 0, lib)
      ensures forall l :: 0 <= l < |layers| ==> RowsIdentical(layers[l].dB)
      ensures OutputPredicted(X, samples, old(layers), layers, features, lib)
    {
      ArchitectureReflexive(layers);
      ghost var start := layers;
      ForwardPropagation(lib);
      ArchitectureKept(start, start, layers);
      LastWidthKept(start, layers, classes);
      ghost var forwarded := layers;
      BackwardPropagation(lib);
      Propagated(X, start, forwarded, layers, samples, features, lib);
      GradientBiasRowsIdentical(X, Y, layers, lib);
    }

    /** The loss computation of trainANN: the log loss of the flattened Y against the flattened outputs */
    method IterationLoss(lib: Libm) returns (loss: real)
      requires Valid() && samples >= 1 && classes >= 1
      requires EndsWith(layers, classes)
      ensures loss == FinalLoss(lib)
    {
      MulMonotone(1, samples, classes);
      var yTrue := Flatten(Y, samples, classes);
      var yPred := Flatten(layers[|layers| - 1].A, samples, classes);
      loss := LogLoss(yTrue, yPred, samples * classes, lib);
    }
  }
}
