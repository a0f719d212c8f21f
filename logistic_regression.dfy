/**
  Logistic regression (one class, sigmoid) and multinomial logistic regression (several
  classes, softmax), trained with gradient descent or Adam
  (src/regression/logistic_regression.c).

  The model keeps the training inputs X (samples x features) and targets Y
  (samples x classes), the weights W (features x classes), the bias vector b (classes),
  their gradients dW and db, the probabilities P of the last pass and the last reported
  log loss. b is an array because the bias optimizer updates it in place through an
  alias; W, dW, db and P are values the routines replace. Every routine is stated in
  terms of the specification functions of the first part of this module:

    Z[r][c] = Σ_k X[r][k]·W[k][c] + b[c]          P[r] = sigmoid(Z[r]) or softmax(Z[r])
    dW[r][c] = (1/samples)·Σ_i X[i][r]·(P[i][c] - Y[i][c])
    db[c] = (1/samples)·Σ_i (P[i][c] - Y[i][c])
 */
module LogisticRegression {
  import opened Wrappers
  import opened Numerics
  import opened LinearAlgebra
  import opened Metrics
  import opened Statistics
  import opened OptimizationConfig
  import opened GradientDescentOptimizer
  import opened AdamOptimizer

  /* ---------------------------------------------------------------------------
     Specification: probabilities
     --------------------------------------------------------------------------- */

  /** 1 / (1 + e^(-z)) */
  function SigmoidOf(z: real, lib: Libm): (p: real)
    ensures 0.0 < p < 1.0
  {
    var e := lib.exp(-1.0 * z);
    assert e > 0.0;
    1.0 / (1.0 + e)
  }

  /** sigmoid applied to every entry of z */
  function Sigmoid(z: Vector, lib: Libm): (p: Vector)
    ensures |p| == |z|
    ensures forall i :: 0 <= i < |z| ==> 0.0 < p[i] < 1.0
  {
    seq(|z|, i requires 0 <= i < |z| => SigmoidOf(z[i], lib))
  }

  /** Σ_{i<k} e^(z[i] - shift) */
  function ExpSum(z: Vector, shift: real, k: nat, lib: Libm): (s: real)
    requires k <= |z|
    ensures s >= 0.0
    ensures k >= 1 ==> s > 0.0
  {
    if k == 0 then 0.0 else ExpSum(z, shift, k - 1, lib) + lib.exp(z[k - 1] - shift)
  }

  /** e^(z[i] - shift) / total for every i */
  function Quotients(z: Vector, shift: real, total: real, lib: Libm): (p: Vector)
    requires total > 0.0
    ensures |p| == |z|
  {
    seq(|z|, i requires 0 <= i < |z| => lib.exp(z[i] - shift) / total)
  }

  /** softmax with the maximum subtracted first: e^(z[i] - max z) / Σ_j e^(z[j] - max z) */
  function Softmax(z: Vector, lib: Libm): (p: Vector)
    requires |z| >= 1
    ensures |p| == |z|
  {
    var shift := Maximum(z);
    Quotients(z, shift, ExpSum(z, shift, |z|, lib), lib)
  }

  /** sigmoid for a single class, softmax for several */
  function Activated(z: Vector, lib: Libm): (p: Vector)
    requires |z| >= 1
    ensures |p| == |z|
  {
    if |z| == 1 then Sigmoid(z, lib) else Softmax(z, lib)
  }

  /** Row r of Z = X·W + b: row r of X times W, plus the same b whatever the row */
  function Logits(X: Matrix, W: Matrix, b: Vector, features: nat, classes: nat, r: nat): (z: Vector)
    requires r < |X| && |X[r]| == features && IsMatrix(W, features, classes) && |b| == classes
    ensures |z| == classes
  {
    seq(classes, c requires 0 <= c < classes => MulEntry(X, W, r, c, features) + b[c])
  }

  /** P: the probabilities of every row of X under W and b */
  function Probabilities(X: Matrix, W: Matrix, b: Vector, n: nat, features: nat, classes: nat, lib: Libm): (P: Matrix)
    requires IsMatrix(X, n, features) && IsMatrix(W, features, classes) && |b| == classes && classes >= 1
    ensures IsMatrix(P, n, classes)
  {
    seq(n, r requires 0 <= r < n => Activated(Logits(X, W, b, features, classes, r), lib))
  }

  /** The log loss training reports for W and b: the cross-entropy of their probabilities, divided by the samples */
  function Loss(X: Matrix, Y: Matrix, W: Matrix, b: Vector, samples: nat, features: nat, classes: nat, lib: Libm): real
    requires IsMatrix(X, samples, features) && IsMatrix(Y, samples, classes)
    requires IsMatrix(W, features, classes) && |b| == classes && samples >= 1 && classes >= 1
  {
    CategoricalLogLoss(Y, Probabilities(X, W, b, samples, features, classes, lib), samples, classes, lib)
  }

  /**
    A row of probabilities: every value lies in (0, 1], a single value lies strictly below
    1, and several values sum to 1.
   */
  predicate Distribution(p: Vector) {
    && (forall i :: 0 <= i < |p| ==> 0.0 < p[i] <= 1.0)
    && (|p| == 1 ==> p[0] < 1.0)
    && (|p| >= 2 ==> Sum(p) == 1.0)
  }

  /* ---------------------------------------------------------------------------
     Specification: gradients
     --------------------------------------------------------------------------- */

  /** Σ_{i<k} X[i][r]·(P[i][c] - Y[i][c]) */
  function ResidualProduct(X: Matrix, P: Matrix, Y: Matrix, r: nat, c: nat, k: nat): real
    requires k <= |X| && k <= |P| && k <= |Y|
    requires forall i :: 0 <= i < k ==> r < |X[i]| && c < |P[i]| && c < |Y[i]|
  {
    if k == 0 then 0.0 else ResidualProduct(X, P, Y, r, c, k - 1) + X[k - 1][r] * (P[k - 1][c] - Y[k - 1][c])
  }

  /** Σ_{i<k} (P[i][c] - Y[i][c]) */
  function ResidualSum(P: Matrix, Y: Matrix, c: nat, k: nat): real
    requires k <= |P| && k <= |Y|
    requires forall i :: 0 <= i < k ==> c < |P[i]| && c < |Y[i]|
  {
    if k == 0 then 0.0 else ResidualSum(P, Y, c, k - 1) + (P[k - 1][c] - Y[k - 1][c])
  }

  /** dW as update_dW sums it, entry by entry (see WeightGradientIsClosedForm) */
  function WeightGradient(X: Matrix, P: Matrix, Y: Matrix, samples: nat, features: nat, classes: nat): (dW: Matrix)
    requires IsMatrix(X, samples, features) && IsMatrix(P, samples, classes) && IsMatrix(Y, samples, classes)
    requires samples >= 1
    ensures IsMatrix(dW, features, classes)
  {
    seq(features, r requires 0 <= r < features =>
      seq(classes, c requires 0 <= c < classes => (1.0 / (samples as real)) * ResidualProduct(X, P, Y, r, c, samples)))
  }

  /** db as update_db sums it, entry by entry (see BiasGradientIsColumnMean) */
  function BiasGradient(P: Matrix, Y: Matrix, samples: nat, classes: nat): (db: Vector)
    requires IsMatrix(P, samples, classes) && IsMatrix(Y, samples, classes) && samples >= 1
    ensures |db| == classes
  {
    seq(classes, c requires 0 <= c < classes => (1.0 / (samples as real)) * ResidualSum(P, Y, c, samples))
  }

  /* ---------------------------------------------------------------------------
     Specification: training
     --------------------------------------------------------------------------- */

  /**
    What training did: the loss of every iteration that went on to update the parameters,
    and whether the convergence test stopped the loop.
   */
  datatype TrainingLog = TrainingLog(losses: seq<real>, stoppedEarly: bool)

  /** The loss an iteration is compared with: the model's log loss before the first iteration, the last recorded loss afterwards */
  function PreviousLoss(initial: real, losses: seq<real>): real {
    if |losses| == 0 then initial else losses[|losses| - 1]
  }

  /** No recorded loss was within threshold of the loss before it */
  predicate NeverConverged(initial: real, losses: seq<real>, threshold: real) {
    forall t :: 0 <= t < |losses| ==> !(Abs(PreviousLoss(initial, losses[..t]) - losses[t]) < threshold)
  }

  /**
    The stopping rule of trainLogisticRegression: no recorded loss passed the convergence
    test; a run that stopped early did so before max_iterations with parameters whose own
    loss is within threshold of the last recorded one (the break comes before the
    update); any other run recorded max_iterations losses.
   */
  predicate StoppingRule(log: TrainingLog, initial: real, maxIterations: int, threshold: real, finalLoss: real) {
    && NeverConverged(initial, log.losses, threshold)
    && (log.stoppedEarly ==> |log.losses| < maxIterations && Abs(PreviousLoss(initial, log.losses) - finalLoss) < threshold)
    && (!log.stoppedEarly ==> |log.losses| == (if maxIterations > 0 then maxIterations else 0))
  }

  /**
    What the optimizers hold besides the parameters: nothing for gradient descent; for
    Adam the moments of the flattened W, those of b, and the time step both share.
   */
  datatype Moments =
    | NoMoments
    | AdamMoments(mW: seq<real>, vW: seq<real>, mB: seq<real>, vB: seq<real>, t: nat)

  /** W, b and the optimizer moments between two iterations */
  datatype Snapshot = Snapshot(W: Matrix, b: Vector, moments: Moments)

  /** What the optimizers start from: nothing for gradient descent, zero moments at time step 1 for Adam */
  function InitialMoments(optimizer: Optimizer, features: nat, classes: nat): Moments {
    match optimizer
    case GradientDescentChoice => NoMoments
    case AdamChoice => AdamMoments(Zeros(features * classes), Zeros(features * classes), Zeros(classes), Zeros(classes), 1)
  }

  /**
    An iteration that did not stop took s to s': P, dW and db are those of W and b in s,
    and the flattened W and b each took one step of their optimizer along their own
    gradient: a gradient descent step when there are no moments, an Adam step at the
    shared time step otherwise.
   */
  predicate Advanced(X: Matrix, Y: Matrix, samples: nat, features: nat, classes: nat, s: Snapshot, s': Snapshot, lib: Libm) {
    && IsMatrix(X, samples, features) && IsMatrix(Y, samples, classes) && samples >= 1 && classes >= 1
    && IsMatrix(s.W, features, classes) && |s.b| == classes
    && IsMatrix(s'.W, features, classes) && |s'.b| == classes
    && var P := Probabilities(X, s.W, s.b, samples, features, classes, lib);
       var dW := WeightGradient(X, P, Y, samples, features, classes);
       var db := BiasGradient(P, Y, samples, classes);
       match s.moments
       case NoMoments =>
         && s'.moments == NoMoments
         && |Flat(s.W)| == |Flat(dW)|
         && Flat(s'.W) == Descended(Flat(s.W), Flat(dW), GradientDescentLearningRate)
         && s'.b == Descended(s.b, db, GradientDescentLearningRate)
       case AdamMoments(mW, vW, mB, vB, t) =>
         && s'.moments.AdamMoments? && s'.moments.t == t + 1
         && Stepped(Flat(s.W), mW, vW, Flat(s'.W), s'.moments.mW, s'.moments.vW, Flat(dW), t, lib)
         && Stepped(s.b, mB, vB, s'.b, s'.moments.mB, s'.moments.vB, db, t, lib)
  }

  /**
    A run of trainLogisticRegression as a trace: trace[t] holds W, b and the moments
    before iteration t, losses[t] is the loss of that W and b, and every iteration that
    recorded its loss advanced trace[t] to trace[t + 1].
   */
  predicate Traced(X: Matrix, Y: Matrix, samples: nat, features: nat, classes: nat, trace: seq<Snapshot>, losses: seq<real>, lib: Libm) {
    && |trace| == |losses| + 1
    && forall t :: 0 <= t < |losses| ==> TracedAt(X, Y, samples, features, classes, trace, losses, t, lib)
  }

  /** Iteration t advanced trace[t] to trace[t + 1] and recorded the loss of trace[t] */
  predicate TracedAt(X: Matrix, Y: Matrix, samples: nat, features: nat, classes: nat, trace: seq<Snapshot>, losses: seq<real>, t: nat, lib: Libm)
    requires t < |losses| && |trace| == |losses| + 1
  {
    && Advanced(X, Y, samples, features, classes, trace[t], trace[t + 1], lib)
    && losses[t] == Loss(X, Y, trace[t].W, trace[t].b, samples, features, classes, lib)
  }

  /** One more iteration that advanced the last snapshot and recorded its loss extends the trace */
  lemma TracedExtend(X: Matrix, Y: Matrix, samples: nat, features: nat, classes: nat, trace: seq<Snapshot>,
                     losses: seq<real>, s': Snapshot, loss: real, lib: Libm)
    requires Traced(X, Y, samples, features, classes, trace, losses, lib)
    requires Advanced(X, Y, samples, features, classes, trace[|trace| - 1], s', lib)
    requires loss == Loss(X, Y, trace[|trace| - 1].W, trace[|trace| - 1].b, samples, features, classes, lib)
    ensures Traced(X, Y, samples, features, classes, trace + [s'], losses + [loss], lib)
  {
    var trace', losses' := trace + [s'], losses + [loss];
    forall t | 0 <= t < |losses'|
      ensures TracedAt(X, Y, samples, features, classes, trace', losses', t, lib)
    {
      if t < |losses| {
        assert TracedAt(X, Y, samples, features, classes, trace, losses, t, lib);
        assert trace'[t] == trace[t] && trace'[t + 1] == trace[t + 1] && losses'[t] == losses[t];
      }
    }
  }

  /** The two optimizers of a training run: one over a flattened copy of W, one over b itself */
  datatype Optimizers =
    | DescentPair(descentW: GradientDescent, descentB: GradientDescent)
    | AdamPair(adamW: Adam, adamB: Adam)

  /** What the optimizers own and update: the copy of W, and the Adam objects with their moments */
  ghost function Footprint(optimizers: Optimizers): set<object> {
    match optimizers
    case DescentPair(forW, _) => {forW.w}
    case AdamPair(forW, forB) => {forW, forW.w, forW.m, forW.v, forB, forB.m, forB.v}
  }

  /* ---------------------------------------------------------------------------
     sigmoid and softmax
     --------------------------------------------------------------------------- */

  /** sigmoid: 1 / (1 + exp(-1.0·z[index])) for every index */
  method ApplySigmoid(z: Vector, n: nat, lib: Libm) returns (p: Vector)
    requires |z| == n
    ensures p == Sigmoid(z, lib)
  {
    ghost var target := Sigmoid(z, lib);
    p := [];
    var index := 0;
    while index < n
      invariant 0 <= index <= n
      invariant p == target[..index]
    {
      p := p + [1.0 / (1.0 + lib.exp(-1.0 * z[index]))];
      index := index + 1;
    }
    assert target[..n] == target;
  }

  /**
    softmax: the maximum of z (found by max, so n must be positive), the sum of
    exp(z[index] - max), then every exp(z[index] - max) divided by that sum.
   */
  method ApplySoftmax(z: Vector, n: nat, lib: Libm) returns (p: Vector)
    requires |z| == n && n >= 1
    ensures p == Softmax(z, lib)
  {
    var maxZ := Max(z, n);
    var sumExp := SumExponentials(z, n, maxZ, lib);
    p := DivideExponentials(z, n, maxZ, sumExp, lib);
  }

  /** The first loop of softmax: Σ exp(z[index] - maxZ) */
  method SumExponentials(z: Vector, n: nat, maxZ: real, lib: Libm) returns (sumExp: real)
    requires |z| == n
    ensures sumExp == ExpSum(z, maxZ, n, lib)
  {
    sumExp := 0.0;
    var index := 0;
    while index < n
      invariant 0 <= index <= n
      invariant sumExp == ExpSum(z, maxZ, index, lib)
    {
      sumExp := sumExp + lib.exp(z[index] - maxZ);
      index := index + 1;
    }
  }

  /** The second loop of softmax: exp(z[index] - maxZ) / sumExp for every index */
  method DivideExponentials(z: Vector, n: nat, maxZ: real, sumExp: real, lib: Libm) returns (p: Vector)
    requires |z| == n && sumExp > 0.0
    ensures p == Quotients(z, maxZ, sumExp, lib)
  {
    ghost var target := Quotients(z, maxZ, sumExp, lib);
    p := [];
    var index := 0;
    while index < n
      invariant 0 <= index <= n
      invariant p == target[..index]
    {
      p := p + [lib.exp(z[index] - maxZ) / sumExp];
      index := index + 1;
    }
    assert target[..n] == target;
  }

  /* ---------------------------------------------------------------------------
     Properties of the probabilities and the gradients
     --------------------------------------------------------------------------- */

  /** One exponential is at most the sum it is part of */
  lemma {:induction false} ExpSumCovers(z: Vector, shift: real, i: nat, k: nat, lib: Libm)
    requires i < k <= |z|
    ensures lib.exp(z[i] - shift) <= ExpSum(z, shift, k, lib)
  {
    if i < k - 1 {
      ExpSumCovers(z, shift, i, k - 1, lib);
    }
  }

  /** The first k quotients e^(z[i] - shift) / total sum to ExpSum(k) / total */
  lemma {:induction false} QuotientsSum(z: Vector, shift: real, total: real, k: nat, lib: Libm)
    requires total > 0.0 && k <= |z|
    ensures Sum(Quotients(z, shift, total, lib)[..k]) == ExpSum(z, shift, k, lib) / total
  {
    if k > 0 {
      var p := Quotients(z, shift, total, lib);
      var prefix := p[..k];
      var before, e := ExpSum(z, shift, k - 1, lib), lib.exp(z[k - 1] - shift);
      QuotientsSum(z, shift, total, k - 1, lib);
      assert prefix[..k - 1] == p[..k - 1];
      assert prefix[k - 1] == e / total;
      assert Sum(prefix) == before / total + e / total;
      QuotientsAdd(before, e, total);
    }
  }

  lemma QuotientsAdd(a: real, b: real, c: real)
    requires c > 0.0
    ensures a / c + b / c == (a + b) / c
  {
  }

  lemma QuotientOfItself(c: real)
    requires c > 0.0
    ensures c / c == 1.0
  {
  }

  lemma QuotientAtMostOne(a: real, c: real)
    requires 0.0 < a <= c
    ensures 0.0 < a / c <= 1.0
  {
  }

  /** softmax yields a distribution: every value in (0, 1], and the values sum to 1 */
  lemma SoftmaxIsDistribution(z: Vector, lib: Libm)
    requires |z| >= 1
    ensures forall i :: 0 <= i < |z| ==> 0.0 < Softmax(z, lib)[i] <= 1.0
    ensures Sum(Softmax(z, lib)) == 1.0
  {
    var shift := Maximum(z);
    var total := ExpSum(z, shift, |z|, lib);
    var p := Softmax(z, lib);
    forall i | 0 <= i < |z|
      ensures 0.0 < p[i] <= 1.0
    {
      var e := lib.exp(z[i] - shift);
      ExpSumCovers(z, shift, i, |z|, lib);
      assert p[i] == e / total;
      QuotientAtMostOne(e, total);
    }
    assert p[..|z|] == p;
    QuotientsSum(z, shift, total, |z|, lib);
    QuotientOfItself(total);
  }

  /** Every row of P is a distribution: one sigmoid value in (0, 1), or a softmax row summing to 1 */
  lemma ProbabilitiesAreDistributions(X: Matrix, W: Matrix, b: Vector, n: nat, features: nat, classes: nat, lib: Libm)
    requires IsMatrix(X, n, features) && IsMatrix(W, features, classes) && |b| == classes && classes >= 1
    ensures forall r :: 0 <= r < n ==> Distribution(Probabilities(X, W, b, n, features, classes, lib)[r])
  {
    forall r | 0 <= r < n
      ensures Distribution(Probabilities(X, W, b, n, features, classes, lib)[r])
    {
      var z := Logits(X, W, b, features, classes, r);
      if classes >= 2 {
        SoftmaxIsDistribution(z, lib);
      }
    }
  }

  /** Entry (i, j) of A·B depends on row i of A only */
  lemma {:induction false} MulEntryOfEqualRows(A: Matrix, B: Matrix, i: nat, i': nat, j: nat, k: nat)
    requires i < |A| && i' < |A| && A[i] == A[i'] && k <= |A[i]| && k <= |B|
    requires forall q :: 0 <= q < k ==> j < |B[q]|
    ensures MulEntry(A, B, i, j, k) == MulEntry(A, B, i', j, k)
  {
    if k > 0 {
      MulEntryOfEqualRows(A, B, i, i', j, k - 1);
    }
  }

  /** b is added to every row alike: equal rows of X get equal probabilities */
  lemma EqualRowsEqualProbabilities(X: Matrix, W: Matrix, b: Vector, n: nat, features: nat, classes: nat,
                                     r: nat, r': nat, lib: Libm)
    requires IsMatrix(X, n, features) && IsMatrix(W, features, classes) && |b| == classes && classes >= 1
    requires r < n && r' < n && X[r] == X[r']
    ensures Probabilities(X, W, b, n, features, classes, lib)[r] == Probabilities(X, W, b, n, features, classes, lib)[r']
  {
    var z, z' := Logits(X, W, b, features, classes, r), Logits(X, W, b, features, classes, r');
    forall c | 0 <= c < classes
      ensures z[c] == z'[c]
    {
      MulEntryOfEqualRows(X, W, r, r', c, features);
    }
    assert z == z';
  }

  /** update_dW's sum is entry (r, c) of Xᵀ·(P - Y) */
  lemma {:induction false} ResidualProductIsTransposedProduct(X: Matrix, P: Matrix, Y: Matrix, samples: nat, features: nat,
                                                               classes: nat, r: nat, c: nat, k: nat)
    requires IsMatrix(X, samples, features) && IsMatrix(P, samples, classes) && IsMatrix(Y, samples, classes)
    requires r < features && c < classes && k <= samples
    ensures ResidualProduct(X, P, Y, r, c, k) == TransposedMulEntry(X, MatrixDifference(P, Y, samples, classes), r, c, k)
  {
    if k > 0 {
      ResidualProductIsTransposedProduct(X, P, Y, samples, features, classes, r, c, k - 1);
      var D := MatrixDifference(P, Y, samples, classes);
      var residual := P[k - 1][c] - Y[k - 1][c];
      assert D[k - 1][c] == residual;
      assert ResidualProduct(X, P, Y, r, c, k) == ResidualProduct(X, P, Y, r, c, k - 1) + X[k - 1][r] * residual;
      assert TransposedMulEntry(X, D, r, c, k) == TransposedMulEntry(X, D, r, c, k - 1) + X[k - 1][r] * residual;
    }
  }

  /** dW is (1/samples)·Xᵀ·(P - Y) */
  lemma WeightGradientIsClosedForm(X: Matrix, P: Matrix, Y: Matrix, samples: nat, features: nat, classes: nat)
    requires IsMatrix(X, samples, features) && IsMatrix(P, samples, classes) && IsMatrix(Y, samples, classes)
    requires samples >= 1
    ensures forall r, c :: 0 <= r < features && 0 <= c < classes ==>
              WeightGradient(X, P, Y, samples, features, classes)[r][c]
              == (1.0 / (samples as real)) * TransposedMulEntry(X, MatrixDifference(P, Y, samples, classes), r, c, samples)
  {
    forall r, c | 0 <= r < features && 0 <= c < classes
      ensures WeightGradient(X, P, Y, samples, features, classes)[r][c]
              == (1.0 / (samples as real)) * TransposedMulEntry(X, MatrixDifference(P, Y, samples, classes), r, c, samples)
    {
      ResidualProductIsTransposedProduct(X, P, Y, samples, features, classes, r, c, samples);
    }
  }

  /** update_db's sum is the sum of column c of P - Y */
  lemma {:induction false} ResidualSumIsColumnSum(P: Matrix, Y: Matrix, samples: nat, classes: nat, c: nat, k: nat)
    requires IsMatrix(P, samples, classes) && IsMatrix(Y, samples, classes) && c < classes && k <= samples
    ensures ResidualSum(P, Y, c, k) == ColumnSum(MatrixDifference(P, Y, samples, classes), c, k)
  {
    if k > 0 {
      ResidualSumIsColumnSum(P, Y, samples, classes, c, k - 1);
      assert MatrixDifference(P, Y, samples, classes)[k - 1][c] == P[k - 1][c] - Y[k - 1][c];
    }
  }

  /** db is the mean of each column of P - Y */
  lemma BiasGradientIsColumnMean(P: Matrix, Y: Matrix, samples: nat, classes: nat)
    requires IsMatrix(P, samples, classes) && IsMatrix(Y, samples, classes) && samples >= 1
    ensures forall c :: 0 <= c < classes ==>
              BiasGradient(P, Y, samples, classes)[c]
              == (1.0 / (samples as real)) * ColumnSum(MatrixDifference(P, Y, samples, classes), c, samples)
  {
    forall c | 0 <= c < classes
      ensures BiasGradient(P, Y, samples, classes)[c]
              == (1.0 / (samples as real)) * ColumnSum(MatrixDifference(P, Y, samples, classes), c, samples)
    {
      ResidualSumIsColumnSum(P, Y, samples, classes, c, samples);
    }
  }

  lemma {:induction false} ResidualsOfExactPrediction(X: Matrix, P: Matrix, r: nat, c: nat, k: nat)
    requires k <= |X| && k <= |P|
    requires forall i :: 0 <= i < k ==> r < |X[i]| && c < |P[i]|
    ensures ResidualProduct(X, P, P, r, c, k) == 0.0
    ensures ResidualSum(P, P, c, k) == 0.0
  {
    if k > 0 {
      ResidualsOfExactPrediction(X, P, r, c, k - 1);
    }
  }

  /** When P equals Y both gradients are zero */
  lemma ExactPredictionHasZeroGradients(X: Matrix, Y: Matrix, samples: nat, features: nat, classes: nat)
    requires IsMatrix(X, samples, features) && IsMatrix(Y, samples, classes) && samples >= 1
    ensures forall r, c :: 0 <= r < features && 0 <= c < classes ==> WeightGradient(X, Y, Y, samples, features, classes)[r][c] == 0.0
    ensures forall c :: 0 <= c < classes ==> BiasGradient(Y, Y, samples, classes)[c] == 0.0
  {
    forall r, c | 0 <= r < features && 0 <= c < classes
      ensures WeightGradient(X, Y, Y, samples, features, classes)[r][c] == 0.0
    {
      ResidualsOfExactPrediction(X, Y, r, c, samples);
    }
    forall c | 0 <= c < classes
      ensures BiasGradient(Y, Y, samples, classes)[c] == 0.0
    {
      if features > 0 {
        ResidualsOfExactPrediction(X, Y, 0, c, samples);
      } else {
        ResidualsOfExactPrediction(Y, Y, 0, c, samples);
      }
    }
  }

  /** Recording a loss that did not pass the convergence test keeps the log free of convergence */
  lemma NeverConvergedExtend(initial: real, losses: seq<real>, loss: real, threshold: real)
    requires NeverConverged(initial, losses, threshold)
    requires !(Abs(PreviousLoss(initial, losses) - loss) < threshold)
    ensures NeverConverged(initial, losses + [loss], threshold)
  {
    var losses' := losses + [loss];
    forall t | 0 <= t < |losses'|
      ensures !(Abs(PreviousLoss(initial, losses'[..t]) - losses'[t]) < threshold)
    {
      assert losses'[..t] == losses[..t];
      if t < |losses| {
        assert losses'[t] == losses[t];
      } else {
        assert losses[..t] == losses;
      }
    }
  }

  /* ---------------------------------------------------------------------------
     The model
     --------------------------------------------------------------------------- */

  class Regression {
    const X: Matrix
    const Y: Matrix
    const samples: nat
    const features: nat
    const classes: nat
    var W: Matrix
    var dW: Matrix
    const b: array<real>
    var db: Vector
    var P: Option<Matrix>
    var logLoss: real

    /** Every matrix and vector has the shape its dimensions declare */
    ghost predicate Valid()
      reads this
    {
      && IsMatrix(X, samples, features) && IsMatrix(Y, samples, classes)
      && IsMatrix(W, features, classes) && IsMatrix(dW, features, classes)
      && b.Length == classes && |db| == classes
      && (P.Some? ==> IsMatrix(P.value, samples, classes))
    }

    /**
      initLogisticRegression: keep X, Y and the dimensions, take W and b from the given
      (randomly drawn) values, zero dW and db, no P yet, and a log loss of INT_MAX.
     */
    constructor (X: Matrix, Y: Matrix, samples: nat, features: nat, classes: nat, initialW: Matrix, initialB: Vector)
      requires IsMatrix(X, samples, features) && IsMatrix(Y, samples, classes)
      requires IsMatrix(initialW, features, classes) && |initialB| == classes
      ensures Valid()
      ensures this.X == X && this.Y == Y
      ensures this.samples == samples && this.features == features && this.classes == classes
      ensures W == initialW && fresh(b) && b[..] == initialB
      ensures forall r, c :: 0 <= r < features && 0 <= c < classes ==> dW[r][c] == 0.0
      ensures forall c :: 0 <= c < classes ==> db[c] == 0.0
      ensures P == None && logLoss == IntMax
    {
      var zeroW := InitZeroMatrix(features, classes);
      var zeroB := InitZeroVector(classes);
      this.X := X;
      this.Y := Y;
      this.samples := samples;
      this.features := features;
      this.classes := classes;
      W := initialW;
      dW := zeroW;
      b := new real[classes](i requires 0 <= i < classes => initialB[i]);
      db := zeroB;
      P := None;
      logLoss := IntMax;
    }

    /** The log loss of the current W and b */
    ghost function CurrentLoss(lib: Libm): real
      requires Valid() && samples >= 1 && classes >= 1
      reads this, b
    {
      Loss(X, Y, W, b[..], samples, features, classes, lib)
    }

    /**
      generateP: fails (the library exits) unless the data has the model's feature width;
      otherwise the probabilities of every row of the data under the current W and b.
      classes must be positive: with no classes softmax reads the maximum of an empty row.
     */
    method GenerateP(data: Matrix, n: nat, width: nat, lib: Libm) returns (r: Result<Matrix>)
      requires Valid() && classes >= 1 && IsMatrix(data, n, width)
      ensures r.Success? <==> width == features
      ensures r.Failure? ==> r.error == InvalidInput
      ensures r.Success? ==> r.value == Probabilities(data, W, b[..], n, features, classes, lib)
    {
      if width == features {
        ghost var target := Probabilities(data, W, b[..], n, features, classes, lib);
        var rows: Matrix := [];
        var row := 0;
        while row < n
          invariant 0 <= row <= n
          invariant rows == target[..row]
        {
          var p := ProbabilityRow(data, n, row, lib);
          rows := rows + [p];
          row := row + 1;
        }
        assert target[..n] == target;
        r := Success(rows);
      } else {
        r := Failure(InvalidInput);
      }
    }

    /** One row of generateP: the row of Z, then sigmoid for one class and softmax otherwise */
    method ProbabilityRow(data: Matrix, n: nat, row: nat, lib: Libm) returns (p: Vector)
      requires Valid() && classes >= 1 && IsMatrix(data, n, features) && row < n
      ensures p == Activated(Logits(data, W, b[..], features, classes, row), lib)
    {
      var z := LogitRow(data, n, row);
      if classes == 1 {
        p := ApplySigmoid(z, classes, lib);
      } else {
        p := ApplySoftmax(z, classes, lib);
      }
    }

    /** Row `row` of Z: Σ_k data[row][k]·W[k][c] + b[c] for every column c */
    method LogitRow(data: Matrix, n: nat, row: nat) returns (z: Vector)
      requires Valid() && IsMatrix(data, n, features) && row < n
      ensures z == Logits(data, W, b[..], features, classes, row)
    {
      ghost var target := Logits(data, W, b[..], features, classes, row);
      z := [];
      var column := 0;
      while column < classes
        invariant 0 <= column <= classes
        invariant z == target[..column]
      {
        var currentItem := AccumulateProduct(data, W, row, column, features);
        z := z + [currentItem + b[column]];
        column := column + 1;
      }
      assert target[..classes] == target;
    }

    /** update_P: P becomes the probabilities of X under the current W and b; nothing else changes */
    method UpdateP(lib: Libm)
      requires Valid() && classes >= 1
      modifies this
      ensures Valid()
      ensures P == Some(Probabilities(X, W, b[..], samples, features, classes, lib))
      ensures W == old(W) && dW == old(dW) && db == old(db) && logLoss == old(logLoss)
    {
      var r := GenerateP(X, samples, features, lib);
      P := Some(r.value);
    }

    /**
      update_dW: dW[r][c] = (1/samples)·Σ_i X[i][r]·(P[i][c] - Y[i][c]), that is
      (1/samples)·Xᵀ·(P - Y) (see WeightGradientIsClosedForm); nothing else changes.
      samples must be positive: the library divides by it unchecked.
     */
    method UpdateDW()
      requires Valid() && P.Some? && samples >= 1
      modifies this
      ensures Valid()
      ensures W == old(W) && P == old(P) && db == old(db) && logLoss == old(logLoss)
      ensures dW == WeightGradient(X, P.value, Y, samples, features, classes)
    {
      ghost var target := WeightGradient(X, P.value, Y, samples, features, classes);
      var gradient: Matrix := [];
      var row := 0;
      while row < features
        invariant 0 <= row <= features
        invariant gradient == target[..row]
        modifies {}
      {
        var g := WeightGradientRow(row);
        gradient := gradient + [g];
        row := row + 1;
      }
      assert target[..features] == target;
      dW := gradient;
    }

    /** One row of update_dW */
    method WeightGradientRow(row: nat) returns (g: Vector)
      requires Valid() && P.Some? && samples >= 1 && row < features
      ensures g == WeightGradient(X, P.value, Y, samples, features, classes)[row]
    {
      ghost var target := WeightGradient(X, P.value, Y, samples, features, classes)[row];
      g := [];
      var column := 0;
      while column < classes
        invariant 0 <= column <= classes
        invariant g == target[..column]
      {
        var currentItem := AccumulateResidualProduct(row, column);
        g := g + [(1.0 / (samples as real)) * currentItem];
        column := column + 1;
      }
      assert target[..classes] == target;
    }

    /** The innermost loop of update_dW: Σ_i X[i][row]·(P[i][column] - Y[i][column]) */
    method AccumulateResidualProduct(row: nat, column: nat) returns (s: real)
      requires Valid() && P.Some? && row < features && column < classes
      ensures s == ResidualProduct(X, P.value, Y, row, column, samples)
    {
      s := 0.0;
      var item := 0;
      while item < samples
        invariant 0 <= item <= samples
        invariant s == ResidualProduct(X, P.value, Y, row, column, item)
      {
        s := s + X[item][row] * (P.value[item][column] - Y[item][column]);
        item := item + 1;
      }
    }

    /**
      update_db: db[c] = (1/samples)·Σ_i (P[i][c] - Y[i][c]), the mean of column c of
      P - Y (see BiasGradientIsColumnMean); nothing else changes.
     */
    method UpdateDB()
      requires Valid() && P.Some? && samples >= 1
      modifies this
      ensures Valid()
      ensures W == old(W) && P == old(P) && dW == old(dW) && logLoss == old(logLoss)
      ensures db == BiasGradient(P.value, Y, samples, classes)
    {
      ghost var target := BiasGradient(P.value, Y, samples, classes);
      var gradient: Vector := [];
      var index := 0;
      while index < classes
        invariant 0 <= index <= classes
        invariant gradient == target[..index]
        modifies {}
      {
        var currentSum := AccumulateResidualSum(index);
        gradient := gradient + [(1.0 / (samples as real)) * currentSum];
        index := index + 1;
      }
      assert target[..classes] == target;
      db := gradient;
    }

    /** The inner loop of update_db: Σ_i (P[i][column] - Y[i][column]) */
    method AccumulateResidualSum(column: nat) returns (s: real)
      requires Valid() && P.Some? && column < classes
      ensures s == ResidualSum(P.value, Y, column, samples)
    {
      s := 0.0;
      var item := 0;
      while item < samples
        invariant 0 <= item <= samples
        invariant s == ResidualSum(P.value, Y, column, item)
      {
        s := s + (P.value[item][column] - Y[item][column]);
        item := item + 1;
      }
    }

    /**
      The optimizers drive this model: the W optimizer holds W flattened into a buffer of
      its own, the b optimizer holds b itself, and neither shares a buffer with the other.
     */
    ghost predicate DrivenBy(optimizers: Optimizers)
      reads this, Footprint(optimizers)
    {
      match optimizers
      case DescentPair(forW, forB) =>
        && forW.Valid() && forB.Valid()
        && forW.n == features * classes && forW.w != b && forW.w[..] == Flat(W)
        && forB.n == classes && forB.w == b
      case AdamPair(forW, forB) =>
        && forW.Valid() && forB.Valid() && forW != forB
        && forW.n == features * classes && forW.w[..] == Flat(W)
        && forB.n == classes && forB.w == b && forW.t == forB.t
        && {forW.w, forW.m, forW.v} !! {b, forB.m, forB.v}
    }

    /** W, b and the moments the optimizers hold */
    ghost function CurrentSnapshot(optimizers: Optimizers): (s: Snapshot)
      reads this, b, Footprint(optimizers)
      ensures s.W == W && s.b == b[..]
    {
      match optimizers
      case DescentPair(_, _) => Snapshot(W, b[..], NoMoments)
      case AdamPair(forW, forB) => Snapshot(W, b[..], AdamMoments(forW.m[..], forW.v[..], forB.m[..], forB.v[..], forW.t))
    }

    /**
      The parameter update of trainLogisticRegression with gradient descent: the flattened
      dW steps the W optimizer's copy, which is copied back into W row-major, and db steps
      b in place through the alias.
     */
    method DescentStep(forW: GradientDescent, forB: GradientDescent)
      requires Valid() && DrivenBy(DescentPair(forW, forB))
      modifies this, forW.w, b
      ensures Valid() && DrivenBy(DescentPair(forW, forB))
      ensures W == Unflatten(forW.w[..], features, classes)
      ensures dW == old(dW) && db == old(db) && P == old(P) && logLoss == old(logLoss)
      ensures |Flat(old(W))| == |Flat(dW)| == features * classes
      ensures Flat(W) == Descended(Flat(old(W)), Flat(dW), GradientDescentLearningRate)
      ensures b[..] == Descended(old(b[..]), db, GradientDescentLearningRate)
    {
      var dw := Flatten(dW, features, classes);
      var updatedW := forW.Update(dw, features * classes);
      var _ := forB.Update(db, classes);
      W := CopyRowMajor(updatedW.value[..], features, classes);
      FlatUnflatten(forW.w[..], features, classes);
    }

    /**
      The parameter update of trainLogisticRegression with Adam: the W optimizer takes its
      step along the flattened dW and its weights are copied back into W row-major; the b
      optimizer takes its step along db on b itself.
     */
    method AdamStep(forW: Adam, forB: Adam, lib: Libm)
      requires Valid() && DrivenBy(AdamPair(forW, forB))
      modifies this, b, forW, forW.w, forW.m, forW.v, forB, forB.m, forB.v
      ensures Valid() && DrivenBy(AdamPair(forW, forB))
      ensures W == Unflatten(forW.w[..], features, classes)
      ensures Stepped(Flat(old(W)), old(forW.m[..]), old(forW.v[..]), Flat(W), forW.m[..], forW.v[..],
                      Flat(dW), old(forW.t), lib)
      ensures Stepped(old(b[..]), old(forB.m[..]), old(forB.v[..]), b[..], forB.m[..], forB.v[..],
                      db, old(forB.t), lib)
      ensures forW.t == old(forW.t) + 1 && forB.t == old(forB.t) + 1
      ensures dW == old(dW) && db == old(db) && P == old(P) && logLoss == old(logLoss)
    {
      var dw := Flatten(dW, features, classes);
      var updatedW := forW.Update(dw, features * classes, lib);
      var _ := forB.Update(db, classes, lib);
      W := CopyRowMajor(updatedW.value[..], features, classes);
      FlatUnflatten(forW.w[..], features, classes);
    }

    /**
      One iteration of trainLogisticRegression: P, dW and db from the current W and b, and
      the log loss of P. When that loss is within threshold of the last recorded one the
      iteration stops there, before any parameter changes; otherwise it records the loss
      and steps W and b with the optimizers.
     */
    method Iteration(optimizers: Optimizers, threshold: real, lib: Libm) returns (loss: real, converged: bool)
      requires Valid() && samples >= 1 && classes >= 1 && DrivenBy(optimizers)
      modifies this, b, Footprint(optimizers)
      ensures Valid() && DrivenBy(optimizers)
      ensures loss == old(CurrentLoss(lib))
      ensures P == Some(Probabilities(X, old(W), old(b[..]), samples, features, classes, lib))
      ensures dW == WeightGradient(X, P.value, Y, samples, features, classes)
      ensures db == BiasGradient(P.value, Y, samples, classes)
      ensures converged <==> Abs(old(logLoss) - loss) < threshold
      ensures converged ==> W == old(W) && b[..] == old(b[..]) && logLoss == old(logLoss)
      ensures !converged ==> logLoss == loss
      ensures converged ==> CurrentSnapshot(optimizers) == old(CurrentSnapshot(optimizers))
      ensures !converged ==> Advanced(X, Y, samples, features, classes, old(CurrentSnapshot(optimizers)), CurrentSnapshot(optimizers), lib)
    {
      FlatLength(W, features, classes);
      loss := Gradients(lib);
      converged := Abs(logLoss - loss) < threshold;
      if converged {
        return;
      }
      logLoss := loss;
      match optimizers
      case DescentPair(forW, forB) =>
        DescentStep(forW, forB);
      case AdamPair(forW, forB) =>
        AdamStep(forW, forB, lib);
    }

    /** The first half of an iteration of trainLogisticRegression: update_P, update_dW, update_db and the log loss of P */
    method Gradients(lib: Libm) returns (loss: real)
      requires Valid() && samples >= 1 && classes >= 1
      modifies this
      ensures Valid()
      ensures W == old(W) && logLoss == old(logLoss)
      ensures loss == CurrentLoss(lib)
      ensures P == Some(Probabilities(X, W, b[..], samples, features, classes, lib))
      ensures dW == WeightGradient(X, P.value, Y, samples, features, classes)
      ensures db == BiasGradient(P.value, Y, samples, classes)
      ensures |Flat(dW)| == features * classes
    {
      UpdateP(lib);
      UpdateDW();
      UpdateDB();
      loss := ProbabilitiesLoss(lib);
      FlatLength(dW, features, classes);
    }

    /** The loss computation of trainLogisticRegression: logLossMatrix of Y against P */
    method ProbabilitiesLoss(lib: Libm) returns (loss: real)
      requires Valid() && samples >= 1 && classes >= 1
      requires P == Some(Probabilities(X, W, b[..], samples, features, classes, lib))
      ensures loss == CurrentLoss(lib)
    {
      loss := LogLossMatrix(Y, P.value, samples, classes, lib);
    }

    /**
      trainLogisticRegression: flatten W into a new buffer, give it to the W optimizer and
      b itself to the b optimizer, run at most max_iterations iterations (see Iteration),
      stopping at the first whose loss is within threshold of the last recorded one, and
      dispose the W optimizer with its buffer (flag 1) and the b optimizer without it
      (flag 0). Returns the losses recorded and the buffers released: all of them
      allocated by training, and never b.
     */
    method Train(optimizer: Optimizer, maxIterations: int, threshold: real, lib: Libm)
      returns (log: TrainingLog, freed: set<array<real>>, ghost trace: seq<Snapshot>)
      requires Valid() && samples >= 1 && classes >= 1
      modifies this, b
      ensures Valid()
      ensures StoppingRule(log, old(logLoss), maxIterations, threshold, CurrentLoss(lib))
      ensures logLoss == PreviousLoss(old(logLoss), log.losses)
      ensures Traced(X, Y, samples, features, classes, trace, log.losses, lib)
      ensures trace[0] == Snapshot(old(W), old(b[..]), InitialMoments(optimizer, features, classes))
      ensures trace[|trace| - 1].W == W && trace[|trace| - 1].b == b[..]
      ensures fresh(freed) && b !in freed
      ensures optimizer == GradientDescentChoice ==> |freed| == 1
      ensures optimizer == AdamChoice ==> |freed| == 5
    {
      var optimizers := CreateOptimizers(optimizer);
      log, trace := Iterate(optimizers, maxIterations, threshold, lib);
      freed := DisposeOptimizers(optimizers);
    }

    /**
      The loop of trainLogisticRegression: at most max_iterations iterations, stopping at
      the first whose loss is within threshold of the last recorded one (see Iteration).
     */
    method Iterate(optimizers: Optimizers, maxIterations: int, threshold: real, lib: Libm)
      returns (log: TrainingLog, ghost trace: seq<Snapshot>)
      requires Valid() && samples >= 1 && classes >= 1 && DrivenBy(optimizers)
      modifies this, b, Footprint(optimizers)
      ensures Valid() && DrivenBy(optimizers)
      ensures StoppingRule(log, old(logLoss), maxIterations, threshold, CurrentLoss(lib))
      ensures logLoss == PreviousLoss(old(logLoss), log.losses)
      ensures Traced(X, Y, samples, features, classes, trace, log.losses, lib)
      ensures trace[0] == old(CurrentSnapshot(optimizers)) && trace[|trace| - 1] == CurrentSnapshot(optimizers)
    {
      var losses: seq<real> := [];
      var stoppedEarly := false;
      var t := 0;
      trace := [CurrentSnapshot(optimizers)];
      while t < maxIterations
        invariant Valid() && DrivenBy(optimizers)
        invariant 0 <= t <= (if maxIterations > 0 then maxIterations else 0)
        invariant |losses| == t && logLoss == PreviousLoss(old(logLoss), losses)
        invariant NeverConverged(old(logLoss), losses, threshold)
        invariant Traced(X, Y, samples, features, classes, trace, losses, lib)
        invariant trace[0] == old(CurrentSnapshot(optimizers)) && trace[|trace| - 1] == CurrentSnapshot(optimizers)
      {
        var loss, converged := Iteration(optimizers, threshold, lib);
        if converged {
          stoppedEarly := true;
          break;
        }
        NeverConvergedExtend(old(logLoss), losses, loss, threshold);
        TracedExtend(X, Y, samples, features, classes, trace, losses, CurrentSnapshot(optimizers), loss, lib);
        trace := trace + [CurrentSnapshot(optimizers)];
        losses := losses + [loss];
        t := t + 1;
      }
      log := TrainingLog(losses, stoppedEarly);
    }

    /** The optimizers of trainLogisticRegression: the W optimizer over a new flattened copy of W, the b optimizer over b itself */
    method CreateOptimizers(optimizer: Optimizer) returns (optimizers: Optimizers)
      requires Valid()
      ensures DrivenBy(optimizers) && fresh(Footprint(optimizers))
      ensures optimizer == GradientDescentChoice <==> optimizers.DescentPair?
      ensures CurrentSnapshot(optimizers) == Snapshot(W, b[..], InitialMoments(optimizer, features, classes))
    {
      var w := Flatten(W, features, classes);
      var buffer := new real[features * classes](i requires 0 <= i < features * classes => w[i]);
      assert buffer[..] == w;
      if optimizer == GradientDescentChoice {
        var forW := new GradientDescent(buffer, features * classes);
        var forB := new GradientDescent(b, classes);
        optimizers := DescentPair(forW, forB);
      } else {
        var forW := new Adam(buffer, features * classes);
        var forB := new Adam(b, classes);
        optimizers := AdamPair(forW, forB);
      }
    }

    /** The dispose calls of trainLogisticRegression: the W optimizer with flag 1, the b optimizer with flag 0 */
    method DisposeOptimizers(optimizers: Optimizers) returns (freed: set<array<real>>)
      requires Valid() && DrivenBy(optimizers)
      ensures b !in freed
      ensures optimizers.DescentPair? ==> freed == {optimizers.descentW.w}
      ensures optimizers.AdamPair? ==>
                freed == {optimizers.adamW.w, optimizers.adamW.m, optimizers.adamW.v, optimizers.adamB.m, optimizers.adamB.v}
      ensures optimizers.AdamPair? ==> |freed| == 5
    {
      match optimizers
      case DescentPair(forW, forB) =>
        var ownW := forW.Dispose(1);
        var ownB := forB.Dispose(0);
        freed := ownW + ownB;
      case AdamPair(forW, forB) =>
        var ownW := forW.Dispose(1);
        var ownB := forB.Dispose(0);
        freed := ownW + ownB;
        assert |{forW.w, forW.m, forW.v}| == 3;
        assert |{forB.m, forB.v}| == 2;
    }

    /**
      predictLogisticRegression: generateP on new data; it fails (the library exits)
      unless the data has the model's feature width, and every row it returns is a
      distribution over the classes.
     */
    method Predict(data: Matrix, n: nat, width: nat, lib: Libm) returns (r: Result<Matrix>)
      requires Valid() && classes >= 1 && IsMatrix(data, n, width)
      ensures r.Success? <==> width == features
      ensures r.Failure? ==> r.error == InvalidInput
      ensures r.Success? ==> r.value == Probabilities(data, W, b[..], n, features, classes, lib)
      ensures r.Success? ==> IsMatrix(r.value, n, classes) && forall row :: 0 <= row < n ==> Distribution(r.value[row])
    {
      r := GenerateP(data, n, width, lib);
      if r.Success? {
        ProbabilitiesAreDistributions(data, W, b[..], n, features, classes, lib);
      }
    }
  }
}
