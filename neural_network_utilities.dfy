/**
  Activations and layer construction shared by the feed-forward network
  (src/neural_networks/neural_network_utilities.c).

  A layer is a value: its matrices are only ever replaced as a whole by the network that
  owns it, and no layer is shared between networks. The random entries the library draws
  for W and for the first row of B are parameters here.
 */
module NeuralNetworkUtilities {
  import opened Numerics
  import opened LinearAlgebra

  datatype LayerType = HiddenLayer | OutputLayer

  datatype Activation = ReLU | Sigmoid | Tanh

  /** One layer of `neurons` units fed by `neuronsPrevious` inputs, for a batch of `samples` rows */
  datatype Layer = Layer(
    samples: nat,
    neuronsPrevious: nat,
    neurons: nat,
    W: Matrix,
    B: Matrix,
    Z: Matrix,
    A: Matrix,
    dZ: Matrix,
    dW: Matrix,
    dB: Matrix,
    layerType: LayerType,
    activation: Activation)

  /** W and dW are neuronsPrevious x neurons; B, Z, A, dZ and dB are samples x neurons */
  predicate Shaped(layer: Layer) {
    && IsMatrix(layer.W, layer.neuronsPrevious, layer.neurons)
    && IsMatrix(layer.dW, layer.neuronsPrevious, layer.neurons)
    && IsMatrix(layer.B, layer.samples, layer.neurons)
    && IsMatrix(layer.Z, layer.samples, layer.neurons)
    && IsMatrix(layer.A, layer.samples, layer.neurons)
    && IsMatrix(layer.dZ, layer.samples, layer.neurons)
    && IsMatrix(layer.dB, layer.samples, layer.neurons)
  }

  /** 1 / (1 + e^-z) */
  function Logistic(z: real, lib: Libm): (s: real)
    ensures 0.0 < s < 1.0
  {
    var e := lib.exp(-z);
    assert e > 0.0;
    1.0 / (1.0 + e)
  }

  /** activationFunction */
  function Activate(z: real, activation: Activation, lib: Libm): (a: real)
    ensures activation == ReLU ==> a >= 0.0 && a >= z && (z > 0.0 ==> a == z) && (z <= 0.0 ==> a == 0.0)
    ensures activation == Sigmoid ==> 0.0 < a < 1.0
    ensures activation == Tanh ==> -1.0 < a < 1.0 && a == lib.tanh(z)
  {
    match activation
    case ReLU => if z > 0.0 then z else 0.0
    case Sigmoid => Logistic(z, lib)
    case Tanh => lib.tanh(z)
  }

  /** activationFunctionDerivative: written, as in the library, in terms of the activation's own value at z */
  function ActivateDerivative(z: real, activation: Activation, lib: Libm): (d: real)
    ensures activation == ReLU ==> (z > 0.0 ==> d == 1.0) && (z <= 0.0 ==> d == 0.0)
    ensures activation == Sigmoid ==> d == Activate(z, Sigmoid, lib) * (1.0 - Activate(z, Sigmoid, lib))
    ensures activation == Sigmoid ==> 0.0 < d <= 0.25
    ensures activation == Tanh ==> d == 1.0 - Activate(z, Tanh, lib) * Activate(z, Tanh, lib)
    ensures activation == Tanh ==> 0.0 < d <= 1.0
  {
    match activation
    case ReLU => if z > 0.0 then 1.0 else 0.0
    case Sigmoid =>
      var s := Activate(z, Sigmoid, lib);
      SigmoidSlope(s);
      s * (1.0 - s)
    case Tanh =>
      var t := Activate(z, Tanh, lib);
      TanhSlope(t);
      1.0 - t * t
  }

  /** s·(1 - s) lies in (0, 1/4] for s in (0, 1) */
  lemma SigmoidSlope(s: real)
    requires 0.0 < s < 1.0
    ensures 0.0 < s * (1.0 - s) <= 0.25
  {
    SquareNonNegative(s - 0.5);
    assert (s - 0.5) * (s - 0.5) == s * s - s + 0.25;
    assert s * (1.0 - s) == s - s * s;
  }

  /** 1 - t² lies in (0, 1] for t in (-1, 1) */
  lemma TanhSlope(t: real)
    requires -1.0 < t < 1.0
    ensures 0.0 < 1.0 - t * t <= 1.0
  {
    SquareNonNegative(t);
    assert 1.0 - t * t == (1.0 - t) * (1.0 + t);
    ProductPositive(1.0 - t, 1.0 + t);
  }

  lemma ProductPositive(a: real, b: real)
    requires a > 0.0 && b > 0.0
    ensures a * b > 0.0
  {
  }

  /** initB: the first row is the given (randomly drawn) row and every later row is copied from it */
  method InitB(samples: nat, neurons: nat, firstRow: Vector) returns (B: Matrix)
    requires |firstRow| == neurons
    ensures IsMatrix(B, samples, neurons)
    ensures forall i :: 0 <= i < samples ==> B[i] == firstRow
    ensures RowsIdentical(B)
  {
    B := [];
    var i := 0;
    while i < samples
      invariant 0 <= i <= samples
      invariant |B| == i
      invariant forall p :: 0 <= p < i ==> B[p] == firstRow
    {
      var row := [];
      var j := 0;
      while j < neurons
        invariant 0 <= j <= neurons
        invariant row == firstRow[..j]
      {
        if i == 0 {
          row := row + [firstRow[j]];
        } else {
          row := row + [B[0][j]];
        }
        j := j + 1;
      }
      B := B + [row];
      i := i + 1;
    }
  }

  /**
    initANNLayer: W is the given (randomly drawn) neuronsPrevious x neurons matrix, B is
    built by initB, and Z, A, dZ, dW and dB are zero.
   */
  method InitANNLayer(samples: nat, neuronsPrevious: nat, neurons: nat, layerType: LayerType, activation: Activation,
                      initialW: Matrix, initialBiasRow: Vector) returns (layer: Layer)
    requires IsMatrix(initialW, neuronsPrevious, neurons) && |initialBiasRow| == neurons
    ensures Shaped(layer)
    ensures layer.samples == samples && layer.neuronsPrevious == neuronsPrevious && layer.neurons == neurons
    ensures layer.layerType == layerType && layer.activation == activation
    ensures layer.W == initialW
    ensures forall i :: 0 <= i < samples ==> layer.B[i] == initialBiasRow
    ensures RowsIdentical(layer.B)
    ensures forall i, j :: 0 <= i < samples && 0 <= j < neurons ==>
              layer.Z[i][j] == 0.0 && layer.A[i][j] == 0.0 && layer.dZ[i][j] == 0.0 && layer.dB[i][j] == 0.0
    ensures forall i, j :: 0 <= i < neuronsPrevious && 0 <= j < neurons ==> layer.dW[i][j] == 0.0
  {
    var B := InitB(samples, neurons, initialBiasRow);
    var Z := InitZeroMatrix(samples, neurons);
    var A := InitZeroMatrix(samples, neurons);
    var dZ := InitZeroMatrix(samples, neurons);
    var dW := InitZeroMatrix(neuronsPrevious, neurons);
    var dB := InitZeroMatrix(samples, neurons);
    layer := Layer(samples, neuronsPrevious, neurons, initialW, B, Z, A, dZ, dW, dB, layerType, activation);
  }
}
