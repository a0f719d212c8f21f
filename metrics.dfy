/**
  Regression metrics (src/metrics/regression_metrics.c).

  Each metric is an accumulator loop over paired true and predicted values followed by
  one division; the inputs are only read. pow(x, 2) is the exact square x·x, fabs is the
  absolute value and log is left abstract. The header states that the metrics assume
  valid arguments and do not guard against division by zero, so n (or samples) must be
  positive here.
 */
module Metrics {
  import opened Numerics
  import opened LinearAlgebra

  function Abs(x: real): real {
    if x < 0.0 then -x else x
  }

  /** Σ (y_pred[i] - y_true[i])² over the first k pairs */
  function SquaredErrors(yTrue: seq<real>, yPred: seq<real>, k: nat): real
    requires k <= |yTrue| && k <= |yPred|
  {
    if k == 0 then 0.0 else SquaredErrors(yTrue, yPred, k - 1) + (yPred[k - 1] - yTrue[k - 1]) * (yPred[k - 1] - yTrue[k - 1])
  }

  /** Σ |y_pred[i] - y_true[i]| over the first k pairs */
  function AbsoluteErrors(yTrue: seq<real>, yPred: seq<real>, k: nat): real
    requires k <= |yTrue| && k <= |yPred|
  {
    if k == 0 then 0.0 else AbsoluteErrors(yTrue, yPred, k - 1) + Abs(yPred[k - 1] - yTrue[k - 1])
  }

  /** Σ y·log(p) + (1 - y)·log(1 - p) over the first k pairs */
  function LogLikelihood(yTrue: seq<real>, yPred: seq<real>, k: nat, lib: Libm): real
    requires k <= |yTrue| && k <= |yPred|
  {
    if k == 0 then 0.0
    else LogLikelihood(yTrue, yPred, k - 1, lib)
         + (yTrue[k - 1] * lib.log(yPred[k - 1]) + (1.0 - yTrue[k - 1]) * lib.log(1.0 - yPred[k - 1]))
  }

  /** The clipping bound of logLossMatrix */
  const Epsilon: real := 0.000000000000001

  /** fmax(ε, fmin(1 - ε, p)) */
  function Clip(p: real): real {
    var upper := if p < 1.0 - Epsilon then p else 1.0 - Epsilon;
    if Epsilon < upper then upper else Epsilon
  }

  /** Σ_{j<k} y_true[i][j]·log(clip(y_pred[i][j])) for one row i */
  function RowCrossEntropy(yTrue: Matrix, yPred: Matrix, i: nat, k: nat, lib: Libm): real
    requires i < |yTrue| && i < |yPred| && k <= |yTrue[i]| && k <= |yPred[i]|
  {
    if k == 0 then 0.0
    else RowCrossEntropy(yTrue, yPred, i, k - 1, lib) + yTrue[i][k - 1] * lib.log(Clip(yPred[i][k - 1]))
  }

  /** Σ_{i<s} RowCrossEntropy(i, classes) */
  function CrossEntropy(yTrue: Matrix, yPred: Matrix, s: nat, classes: nat, lib: Libm): real
    requires s <= |yTrue| && s <= |yPred|
    requires forall i :: 0 <= i < s ==> classes <= |yTrue[i]| && classes <= |yPred[i]|
  {
    if s == 0 then 0.0 else CrossEntropy(yTrue, yPred, s - 1, classes, lib) + RowCrossEntropy(yTrue, yPred, s - 1, classes, lib)
  }

  /** The matrix log loss: minus the cross-entropy, divided by the number of samples only */
  function CategoricalLogLoss(yTrue: Matrix, yPred: Matrix, samples: nat, classes: nat, lib: Libm): real
    requires IsMatrix(yTrue, samples, classes) && IsMatrix(yPred, samples, classes) && samples >= 1
  {
    -CrossEntropy(yTrue, yPred, samples, classes, lib) / (samples as real)
  }

  /** meanSquaredError: the average of the squared differences */
  method MeanSquaredError(yTrue: seq<real>, yPred: seq<real>, n: nat) returns (mse: real)
    requires |yTrue| == n && |yPred| == n && n >= 1
    ensures mse == SquaredErrors(yTrue, yPred, n) / (n as real)
  {
    var sum := 0.0;
    var i := 0;
    while i < n
      invariant 0 <= i <= n
      invariant sum == SquaredErrors(yTrue, yPred, i)
    {
      sum := sum + (yPred[i] - yTrue[i]) * (yPred[i] - yTrue[i]);
      i := i + 1;
    }
    mse := sum / (n as real);
  }

  /** meanAbsoluteError: the average of the absolute differences */
  method MeanAbsoluteError(yTrue: seq<real>, yPred: seq<real>, n: nat) returns (mae: real)
    requires |yTrue| == n && |yPred| == n && n >= 1
    ensures mae == AbsoluteErrors(yTrue, yPred, n) / (n as real)
  {
    var sum := 0.0;
    var i := 0;
    while i < n
      invariant 0 <= i <= n
      invariant sum == AbsoluteErrors(yTrue, yPred, i)
    {
      sum := sum + Abs(yPred[i] - yTrue[i]);
      i := i + 1;
    }
    mae := sum / (n as real);
  }

  /** logLoss: minus the average binary log-likelihood */
  method LogLoss(yTrue: seq<real>, yPred: seq<real>, n: nat, lib: Libm) returns (loss: real)
    requires |yTrue| == n && |yPred| == n && n >= 1
    ensures loss == -1.0 * LogLikelihood(yTrue, yPred, n, lib) / (n as real)
  {
    var sum := 0.0;
    var i := 0;
    while i < n
      invariant 0 <= i <= n
      invariant sum == LogLikelihood(yTrue, yPred, i, lib)
    {
      sum := sum + (yTrue[i] * lib.log(yPred[i]) + (1.0 - yTrue[i]) * lib.log(1.0 - yPred[i]));
      i := i + 1;
    }
    loss := -1.0 * sum / (n as real);
  }

  /** logLossMatrix: the categorical cross-entropy of clipped predictions, divided by the number of samples only */
  method LogLossMatrix(yTrue: Matrix, yPred: Matrix, samples: nat, classes: nat, lib: Libm) returns (loss: real)
    requires IsMatrix(yTrue, samples, classes) && IsMatrix(yPred, samples, classes) && samples >= 1
    ensures loss == CategoricalLogLoss(yTrue, yPred, samples, classes, lib)
  {
    var sum := 0.0;
    var i := 0;
    while i < samples
      invariant 0 <= i <= samples
      invariant sum == -CrossEntropy(yTrue, yPred, i, classes, lib)
    {
      var j := 0;
      while j < classes
        invariant 0 <= j <= classes
        invariant sum == -CrossEntropy(yTrue, yPred, i, classes, lib) - RowCrossEntropy(yTrue, yPred, i, j, lib)
      {
        var currentP := Clip(yPred[i][j]);
        sum := sum - yTrue[i][j] * lib.log(currentP);
        j := j + 1;
      }
      i := i + 1;
    }
    loss := sum / (samples as real);
  }

  /* ---------------------------------------------------------------------------
     Properties
     --------------------------------------------------------------------------- */

  /** A sum of squares is non-negative */
  lemma {:induction false} SquaredErrorsNonNegative(yTrue: seq<real>, yPred: seq<real>, k: nat)
    requires k <= |yTrue| && k <= |yPred|
    ensures SquaredErrors(yTrue, yPred, k) >= 0.0
  {
    if k > 0 {
      SquaredErrorsNonNegative(yTrue, yPred, k - 1);
      SquareNonNegative(yPred[k - 1] - yTrue[k - 1]);
    }
  }

  /** The squared errors of agreeing pairs are zero */
  lemma {:induction false} SquaredErrorsOfEqual(yTrue: seq<real>, yPred: seq<real>, k: nat)
    requires k <= |yTrue| && k <= |yPred|
    requires forall i :: 0 <= i < k ==> yPred[i] == yTrue[i]
    ensures SquaredErrors(yTrue, yPred, k) == 0.0
  {
    if k > 0 {
      SquaredErrorsOfEqual(yTrue, yPred, k - 1);
    }
  }

  /** A sum of absolute values is non-negative, and it is zero exactly when every pair agrees */
  lemma {:induction false} AbsoluteErrorsZeroIff(yTrue: seq<real>, yPred: seq<real>, k: nat)
    requires k <= |yTrue| && k <= |yPred|
    ensures AbsoluteErrors(yTrue, yPred, k) >= 0.0
    ensures AbsoluteErrors(yTrue, yPred, k) == 0.0 <==> forall i :: 0 <= i < k ==> yPred[i] == yTrue[i]
  {
    if k > 0 {
      AbsoluteErrorsZeroIff(yTrue, yPred, k - 1);
    }
  }

  /** MSE is non-negative and is zero when the predictions equal the true values */
  lemma MeanSquaredErrorBounds(yTrue: seq<real>, yPred: seq<real>, n: nat)
    requires |yTrue| == n && |yPred| == n && n >= 1
    ensures SquaredErrors(yTrue, yPred, n) / (n as real) >= 0.0
    ensures yPred == yTrue ==> SquaredErrors(yTrue, yPred, n) / (n as real) == 0.0
  {
    SquaredErrorsNonNegative(yTrue, yPred, n);
    if yPred == yTrue {
      SquaredErrorsOfEqual(yTrue, yPred, n);
    }
  }

  /** MAE is non-negative and is zero exactly when the predictions equal the true values */
  lemma MeanAbsoluteErrorZeroIff(yTrue: seq<real>, yPred: seq<real>, n: nat)
    requires |yTrue| == n && |yPred| == n && n >= 1
    ensures AbsoluteErrors(yTrue, yPred, n) / (n as real) >= 0.0
    ensures AbsoluteErrors(yTrue, yPred, n) / (n as real) == 0.0 <==> yPred == yTrue
  {
    AbsoluteErrorsZeroIff(yTrue, yPred, n);
  }

  /** Swapping the true and predicted values does not change the squared errors */
  lemma {:induction false} SquaredErrorsSymmetric(yTrue: seq<real>, yPred: seq<real>, k: nat)
    requires k <= |yTrue| && k <= |yPred|
    ensures SquaredErrors(yTrue, yPred, k) == SquaredErrors(yPred, yTrue, k)
  {
    if k > 0 {
      SquaredErrorsSymmetric(yTrue, yPred, k - 1);
    }
  }

  /** Swapping the true and predicted values does not change the absolute errors */
  lemma {:induction false} AbsoluteErrorsSymmetric(yTrue: seq<real>, yPred: seq<real>, k: nat)
    requires k <= |yTrue| && k <= |yPred|
    ensures AbsoluteErrors(yTrue, yPred, k) == AbsoluteErrors(yPred, yTrue, k)
  {
    if k > 0 {
      AbsoluteErrorsSymmetric(yTrue, yPred, k - 1);
    }
  }

  /** Clipping lands in [ε, 1 - ε] and leaves a value already there unchanged */
  lemma ClipRange(p: real)
    ensures Epsilon <= Clip(p) <= 1.0 - Epsilon
    ensures Epsilon <= p <= 1.0 - Epsilon ==> Clip(p) == p
    ensures p < Epsilon ==> Clip(p) == Epsilon
    ensures p > 1.0 - Epsilon ==> Clip(p) == 1.0 - Epsilon
  {
  }

  /** With non-negative labels, every term -y·log(clip(p)) is non-negative, because the clipped p lies in (0, 1) */
  lemma {:induction false} RowCrossEntropyNonPositive(yTrue: Matrix, yPred: Matrix, i: nat, k: nat, lib: Libm)
    requires i < |yTrue| && i < |yPred| && k <= |yTrue[i]| && k <= |yPred[i]|
    requires forall j :: 0 <= j < k ==> yTrue[i][j] >= 0.0
    ensures RowCrossEntropy(yTrue, yPred, i, k, lib) <= 0.0
  {
    if k > 0 {
      RowCrossEntropyNonPositive(yTrue, yPred, i, k - 1, lib);
      ClipRange(yPred[i][k - 1]);
      var l := lib.log(Clip(yPred[i][k - 1]));
      assert l < 0.0;
      assert yTrue[i][k - 1] * l <= 0.0;
    }
  }

  lemma {:induction false} CrossEntropyNonPositive(yTrue: Matrix, yPred: Matrix, s: nat, classes: nat, lib: Libm)
    requires s <= |yTrue| && s <= |yPred|
    requires forall i :: 0 <= i < s ==> classes <= |yTrue[i]| && classes <= |yPred[i]|
    requires forall i, j :: 0 <= i < s && 0 <= j < classes ==> yTrue[i][j] >= 0.0
    ensures CrossEntropy(yTrue, yPred, s, classes, lib) <= 0.0
  {
    if s > 0 {
      CrossEntropyNonPositive(yTrue, yPred, s - 1, classes, lib);
      RowCrossEntropyNonPositive(yTrue, yPred, s - 1, classes, lib);
    }
  }

  /** The matrix log loss of non-negative labels is non-negative, whatever the predictions (clipping keeps log defined and negative) */
  lemma LogLossMatrixNonNegative(yTrue: Matrix, yPred: Matrix, samples: nat, classes: nat, lib: Libm)
    requires IsMatrix(yTrue, samples, classes) && IsMatrix(yPred, samples, classes) && samples >= 1
    requires forall i, j :: 0 <= i < samples && 0 <= j < classes ==> yTrue[i][j] >= 0.0
    ensures CategoricalLogLoss(yTrue, yPred, samples, classes, lib) >= 0.0
  {
    CrossEntropyNonPositive(yTrue, yPred, samples, classes, lib);
  }

  /** With labels in [0, 1] and predictions in (0, 1), the binary log loss is non-negative */
  lemma {:induction false} LogLikelihoodNonPositive(yTrue: seq<real>, yPred: seq<real>, k: nat, lib: Libm)
    requires k <= |yTrue| && k <= |yPred|
    requires forall i :: 0 <= i < k ==> 0.0 <= yTrue[i] <= 1.0 && 0.0 < yPred[i] < 1.0
    ensures LogLikelihood(yTrue, yPred, k, lib) <= 0.0
  {
    if k > 0 {
      LogLikelihoodNonPositive(yTrue, yPred, k - 1, lib);
      var y, p := yTrue[k - 1], yPred[k - 1];
      assert lib.log(p) < 0.0 && lib.log(1.0 - p) < 0.0;
      assert y * lib.log(p) <= 0.0;
      assert (1.0 - y) * lib.log(1.0 - p) <= 0.0;
    }
  }
}
