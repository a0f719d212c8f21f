/**
  Plain gradient descent over a weight vector it does not own
  (src/optimization/gradient_descent.c).

  The optimizer keeps a pointer to the caller's weight buffer `w` of length n and updates
  it in place, so the buffer is an `array<real>` shared with the caller.
 */
module GradientDescentOptimizer {
  import opened Wrappers
  import opened OptimizationConfig
  import opened LinearAlgebra

  /** One descent step: w[i] - learningRate·g[i] for every i */
  function Descended(w: seq<real>, g: seq<real>, learningRate: real): (r: seq<real>)
    requires |w| == |g|
    ensures |r| == |w|
  {
    seq(|w|, i requires 0 <= i < |w| => w[i] - learningRate * g[i])
  }

  class GradientDescent {
    const w: array<real>
    const n: nat
    const learningRate: real

    predicate Valid() {
      w.Length == n && learningRate == GradientDescentLearningRate
    }

    /** initGradientDescent: borrow w and take the configured learning rate */
    constructor (w: array<real>, n: nat)
      requires w.Length == n
      ensures Valid()
      ensures this.w == w && this.n == n && learningRate == 0.001
    {
      this.w := w;
      this.n := n;
      learningRate := GradientDescentLearningRate;
    }

    /**
      updateGradientDescent: fails (the library exits) when the gradient length differs
      from n; otherwise takes one descent step on w in place and returns w itself.
     */
    method Update(gradient: seq<real>, gradientLength: nat) returns (r: Result<array<real>>)
      requires Valid() && |gradient| == gradientLength
      modifies w
      ensures Valid()
      ensures r.Success? <==> gradientLength == n
      ensures r.Failure? ==> r.error == InvalidGradient && unchanged(w)
      ensures r.Success? ==> r.value == w && w[..] == Descended(old(w[..]), gradient, learningRate)
    {
      if n == gradientLength {
        var index := 0;
        while index < n
          invariant 0 <= index <= n
          invariant forall k :: 0 <= k < index ==> w[k] == old(w[k]) - learningRate * gradient[k]
          invariant forall k :: index <= k < n ==> w[k] == old(w[k])
        {
          w[index] := w[index] - learningRate * gradient[index];
          index := index + 1;
        }
        r := Success(w);
      } else {
        r := Failure(InvalidGradient);
      }
    }

    /** disposeGradientDescent: the buffers released are w when the flag is 1, and nothing otherwise */
    method Dispose(disposeW: int) returns (freed: set<array<real>>)
      ensures disposeW == 1 ==> freed == {w}
      ensures disposeW != 1 ==> freed == {}
    {
      freed := if disposeW == 1 then {w} else {};
    }
  }

  /** A zero gradient leaves the weights where they are */
  lemma DescentWithZeroGradient(w: seq<real>, g: seq<real>, learningRate: real)
    requires |w| == |g| && forall i :: 0 <= i < |g| ==> g[i] == 0.0
    ensures Descended(w, g, learningRate) == w
  {
  }

  /** Two steps with the same learning rate are one step along the sum of the gradients */
  lemma DescentComposes(w: seq<real>, g1: seq<real>, g2: seq<real>, learningRate: real)
    requires |w| == |g1| == |g2|
    ensures Descended(Descended(w, g1, learningRate), g2, learningRate) == Descended(w, VectorSum(g1, g2), learningRate)
  {
    forall i | 0 <= i < |w|
      ensures Descended(Descended(w, g1, learningRate), g2, learningRate)[i] == Descended(w, VectorSum(g1, g2), learningRate)[i]
    {
      var once := Descended(w, g1, learningRate);
      assert once[i] == w[i] - learningRate * g1[i];
      assert Descended(once, g2, learningRate)[i] == once[i] - learningRate * g2[i];
      assert VectorSum(g1, g2)[i] == g1[i] + g2[i];
      assert learningRate * (g1[i] + g2[i]) == learningRate * g1[i] + learningRate * g2[i];
    }
  }

  /** Descent acts element by element: equal weights with equal gradients stay equal */
  lemma DescentIsElementwise(w: seq<real>, g: seq<real>, learningRate: real, i: nat, j: nat)
    requires |w| == |g| && i < |w| && j < |w| && w[i] == w[j] && g[i] == g[j]
    ensures Descended(w, g, learningRate)[i] == Descended(w, g, learningRate)[j]
  {
  }
}
