/**
  The Adam optimizer over a weight vector it does not own
  (src/optimization/adam_optimizer.c).

  The optimizer keeps a pointer to the caller's weight buffer `w` and owns its two moment
  buffers `m` and `v`; all three have length n and are updated in place, element by
  element. The time step t starts at 1 and grows by one on every successful update.
  pow(β, t) is the exact power and pow(x, 0.5) is the abstract square root of `Libm`.
 */
module AdamOptimizer {
  import opened Wrappers
  import opened Numerics
  import opened OptimizationConfig
  import opened LinearAlgebra

  /** β·moment + (1 - β)·g: the moving average of the first moment */
  function FirstMomentStep(moment: real, g: real): real {
    AdamBeta1 * moment + (1.0 - AdamBeta1) * g
  }

  /** β2·moment + (1 - β2)·g²: the moving average of the second moment */
  function SecondMomentStep(moment: real, g: real): (r: real)
    ensures moment >= 0.0 ==> r >= 0.0
  {
    ProductNonNegative(AdamBeta2, if moment >= 0.0 then moment else 0.0);
    SquareNonNegative(g);
    ProductNonNegative(1.0 - AdamBeta2, g * g);
    AdamBeta2 * moment + (1.0 - AdamBeta2) * (g * g)
  }

  /** moment / (1 - β^t), defined because 0 < β^t < 1 for t >= 1 */
  function BiasCorrected(moment: real, beta: real, t: nat): (r: real)
    requires 0.0 < beta < 1.0 && t >= 1
    ensures moment >= 0.0 ==> r >= 0.0
  {
    PowInUnitInterval(beta, t);
    QuotientNonNegative(if moment >= 0.0 then moment else 0.0, 1.0 - Pow(beta, t));
    moment / (1.0 - Pow(beta, t))
  }

  /** w - lr·m̂ / (sqrt(v̂) + ε), where m and v are the already updated moments */
  function WeightStep(w: real, m: real, v: real, t: nat, lib: Libm): real
    requires v >= 0.0 && t >= 1
  {
    var mHat := BiasCorrected(m, AdamBeta1, t);
    var vHat := BiasCorrected(v, AdamBeta2, t);
    w - AdamLearningRate * mHat / (lib.sqrt(vHat) + AdamEpsilon)
  }

  /** n zeros: the moments initADAM allocates */
  function Zeros(n: nat): seq<real> {
    seq(n, _ => 0.0)
  }

  predicate NonNegative(s: seq<real>) {
    forall i :: 0 <= i < |s| ==> s[i] >= 0.0
  }

  function FirstMoments(m: seq<real>, g: seq<real>): (r: seq<real>)
    requires |m| == |g|
    ensures |r| == |m|
  {
    seq(|m|, i requires 0 <= i < |m| => FirstMomentStep(m[i], g[i]))
  }

  function SecondMoments(v: seq<real>, g: seq<real>): (r: seq<real>)
    requires |v| == |g|
    ensures |r| == |v|
  {
    seq(|v|, i requires 0 <= i < |v| => SecondMomentStep(v[i], g[i]))
  }

  /** The new weights from the old weights and the already updated moments */
  function Weights(w: seq<real>, m: seq<real>, v: seq<real>, t: nat, lib: Libm): (r: seq<real>)
    requires |w| == |m| == |v| && NonNegative(v) && t >= 1
    ensures |r| == |w|
  {
    seq(|w|, i requires 0 <= i < |w| => WeightStep(w[i], m[i], v[i], t, lib))
  }

  /** (w', m', v') is one Adam step from (w, m, v) with gradient g at time step t */
  predicate Stepped(w: seq<real>, m: seq<real>, v: seq<real>, w': seq<real>, m': seq<real>, v': seq<real>,
                    g: seq<real>, t: nat, lib: Libm)
  {
    && |w| == |m| == |v| == |g| && NonNegative(v) && t >= 1
    && m' == FirstMoments(m, g)
    && v' == SecondMoments(v, g)
    && (SecondMomentsStayNonNegative(v, g); w' == Weights(w, m', v', t, lib))
  }

  class Adam {
    const w: array<real>
    const m: array<real>
    const v: array<real>
    const n: nat
    const learningRate: real
    const beta1: real
    const beta2: real
    const epsilon: real
    var t: nat

    /** The buffers are distinct and of length n, the constants are the configured ones, t >= 1 and every second moment is non-negative */
    ghost predicate Valid()
      reads this, v
    {
      && w.Length == n && m.Length == n && v.Length == n
      && w != m && w != v && m != v
      && learningRate == AdamLearningRate && beta1 == AdamBeta1
      && beta2 == AdamBeta2 && epsilon == AdamEpsilon
      && t >= 1
      && NonNegative(v[..])
    }

    /** initADAM: borrow w, allocate zero moments and start at t = 1 */
    constructor (w: array<real>, n: nat)
      requires w.Length == n
      ensures Valid()
      ensures this.w == w && this.n == n && t == 1
      ensures fresh(m) && fresh(v)
      ensures forall i :: 0 <= i < n ==> m[i] == 0.0 && v[i] == 0.0
      ensures m[..] == Zeros(n) && v[..] == Zeros(n)
      ensures learningRate == 0.001 && beta1 == 0.9 && beta2 == 0.999 && epsilon == 0.00000001
    {
      this.w := w;
      this.n := n;
      learningRate := AdamLearningRate;
      beta1 := AdamBeta1;
      beta2 := AdamBeta2;
      epsilon := AdamEpsilon;
      m := new real[n](_ => 0.0);
      v := new real[n](_ => 0.0);
      t := 1;
    }

    /**
      updateADAM: fails (the library exits) when the gradient length differs from n;
      otherwise moves both moments, steps every weight with the bias-corrected moments,
      increments t and returns w itself.
     */
    method Update(gradient: seq<real>, gradientLength: nat, lib: Libm) returns (r: Result<array<real>>)
      requires Valid() && |gradient| == gradientLength
      modifies this, w, m, v
      ensures Valid()
      ensures r.Success? <==> gradientLength == n
      ensures r.Failure? ==> r.error == InvalidGradient && unchanged(this, w, m, v)
      ensures r.Success? ==> && r.value == w
                             && m[..] == FirstMoments(old(m[..]), gradient)
                             && v[..] == SecondMoments(old(v[..]), gradient)
                             && w[..] == Weights(old(w[..]), m[..], v[..], old(t), lib)
                             && t == old(t) + 1
    {
      if n == gradientLength {
        StepElements(gradient, lib);
        t := t + 1;
        r := Success(w);
      } else {
        r := Failure(InvalidGradient);
      }
    }

    /** The loop of updateADAM: each element's moments move, then its weight steps */
    method StepElements(gradient: seq<real>, lib: Libm)
      requires Valid() && |gradient| == n
      modifies w, m, v
      ensures Valid()
      ensures m[..] == FirstMoments(old(m[..]), gradient)
      ensures v[..] == SecondMoments(old(v[..]), gradient)
      ensures w[..] == Weights(old(w[..]), m[..], v[..], t, lib)
    {
      var index := 0;
      while index < n
        invariant 0 <= index <= n
        invariant forall k :: 0 <= k < index ==> m[k] == FirstMomentStep(old(m[k]), gradient[k])
        invariant forall k :: 0 <= k < index ==> v[k] == SecondMomentStep(old(v[k]), gradient[k])
        invariant forall k :: 0 <= k < index ==> v[k] >= 0.0 && w[k] == WeightStep(old(w[k]), m[k], v[k], t, lib)
        invariant forall k :: index <= k < n ==> m[k] == old(m[k]) && v[k] == old(v[k]) && w[k] == old(w[k])
      {
        StepElement(index, gradient, lib);
        index := index + 1;
      }
      assert m[..] == FirstMoments(old(m[..]), gradient);
      assert v[..] == SecondMoments(old(v[..]), gradient);
    }

    /** One turn of the loop of updateADAM: element i of m, then of v, then of w */
    method StepElement(i: nat, gradient: seq<real>, lib: Libm)
      requires Valid() && i < n && |gradient| == n
      modifies w, m, v
      ensures m[i] == FirstMomentStep(old(m[i]), gradient[i])
      ensures v[i] == SecondMomentStep(old(v[i]), gradient[i])
      ensures v[i] >= 0.0 && w[i] == WeightStep(old(w[i]), m[i], v[i], t, lib)
      ensures forall k :: 0 <= k < n && k != i ==> m[k] == old(m[k]) && v[k] == old(v[k]) && w[k] == old(w[k])
    {
      m[i] := FirstMomentStep(m[i], gradient[i]);
      v[i] := SecondMomentStep(v[i], gradient[i]);
      w[i] := WeightStep(w[i], m[i], v[i], t, lib);
    }

    /** disposeADAM: the moments are always released, w only when the flag is 1 */
    method Dispose(disposeW: int) returns (freed: set<array<real>>)
      ensures disposeW == 1 ==> freed == {m, v, w}
      ensures disposeW != 1 ==> freed == {m, v}
    {
      freed := {m, v};
      if disposeW == 1 {
        freed := freed + {w};
      }
    }
  }

  /* ---------------------------------------------------------------------------
     Properties of one step
     --------------------------------------------------------------------------- */

  /** The second moments stay non-negative */
  lemma SecondMomentsStayNonNegative(v: seq<real>, g: seq<real>)
    requires |v| == |g| && NonNegative(v)
    ensures NonNegative(SecondMoments(v, g))
  {
  }

  /** A step changes nothing when the gradient and the first moment are zero */
  lemma ZeroGradientAtRest(w: seq<real>, m: seq<real>, v: seq<real>, g: seq<real>, t: nat, lib: Libm)
    requires |w| == |m| == |v| == |g| && NonNegative(v) && t >= 1
    requires forall i :: 0 <= i < |g| ==> g[i] == 0.0 && m[i] == 0.0
    ensures FirstMoments(m, g) == m
    ensures Weights(w, FirstMoments(m, g), SecondMoments(v, g), t, lib) == w
  {
    SecondMomentsStayNonNegative(v, g);
    var m1 := FirstMoments(m, g);
    forall i | 0 <= i < |w|
      ensures m1[i] == 0.0
      ensures Weights(w, m1, SecondMoments(v, g), t, lib)[i] == w[i]
    {
      assert m1[i] == AdamBeta1 * 0.0 + (1.0 - AdamBeta1) * 0.0;
      PowInUnitInterval(AdamBeta1, t);
      ZeroQuotient(1.0 - Pow(AdamBeta1, t));
    }
  }

  /** Each entry of a step depends only on the same entry of w, m, v and the gradient */
  lemma StepIsElementwise(w: seq<real>, m: seq<real>, v: seq<real>, g: seq<real>, t: nat, lib: Libm, i: nat, j: nat)
    requires |w| == |m| == |v| == |g| && NonNegative(v) && t >= 1
    requires i < |w| && j < |w|
    requires w[i] == w[j] && m[i] == m[j] && v[i] == v[j] && g[i] == g[j]
    ensures FirstMoments(m, g)[i] == FirstMoments(m, g)[j]
    ensures SecondMoments(v, g)[i] == SecondMoments(v, g)[j]
    ensures Weights(w, FirstMoments(m, g), SecondMoments(v, g), t, lib)[i]
         == Weights(w, FirstMoments(m, g), SecondMoments(v, g), t, lib)[j]
  {
    SecondMomentsStayNonNegative(v, g);
  }

  /**
    Read as row-major matrices, weights, moments and gradient whose rows are all identical
    keep identical rows through a step: each entry is stepped on its own.
   */
  lemma StepKeepsBroadcastRows(w: seq<real>, m: seq<real>, v: seq<real>, g: seq<real>, t: nat, lib: Libm,
                               rows: nat, columns: nat)
    requires |w| == |m| == |v| == |g| == rows * columns && NonNegative(v) && t >= 1
    requires BroadcastRows(w, rows, columns) && BroadcastRows(m, rows, columns)
    requires BroadcastRows(v, rows, columns) && BroadcastRows(g, rows, columns)
    ensures NonNegative(SecondMoments(v, g))
    ensures BroadcastRows(FirstMoments(m, g), rows, columns)
    ensures BroadcastRows(SecondMoments(v, g), rows, columns)
    ensures BroadcastRows(Weights(w, FirstMoments(m, g), SecondMoments(v, g), t, lib), rows, columns)
  {
    SecondMomentsStayNonNegative(v, g);
    var m', v' := FirstMoments(m, g), SecondMoments(v, g);
    var w' := Weights(w, m', v', t, lib);
    var M, V, W := Unflatten(m', rows, columns), Unflatten(v', rows, columns), Unflatten(w', rows, columns);
    forall r | 0 <= r < rows
      ensures M[r] == M[0] && V[r] == V[0] && W[r] == W[0]
    {
      forall c | 0 <= c < columns
        ensures M[r][c] == M[0][c] && V[r][c] == V[0][c] && W[r][c] == W[0][c]
      {
        BroadcastEntry(w, rows, columns, r, c);
        BroadcastEntry(m, rows, columns, r, c);
        BroadcastEntry(v, rows, columns, r, c);
        BroadcastEntry(g, rows, columns, r, c);
        StepIsElementwise(w, m, v, g, t, lib, r * columns + c, c);
        UnflattenEntry(m', rows, columns, r, c);
        UnflattenEntry(m', rows, columns, 0, c);
        UnflattenEntry(v', rows, columns, r, c);
        UnflattenEntry(v', rows, columns, 0, c);
        UnflattenEntry(w', rows, columns, r, c);
        UnflattenEntry(w', rows, columns, 0, c);
      }
    }
  }
}
